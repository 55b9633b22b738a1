/** The hash-chained ledger directory and the two locked operations that write it:
    append and rotate. The digests are parameters: nothing here assumes them injective. */
module LedgerChain {
  import opened Options

  /** A digest string; the all-zero string that stands before the first entry is kept
      as a constructor of its own, and a digest function may return it too. */
  datatype Hash = GENESIS | Hex(text: string)

  const SCHEMA_VERSION := 1

  datatype Kind =
    | AnchorPublished | AnchorFailed | AnchorStale | AnchorRecovered
    | KillEngaged | KillReleased | HaltSet | HaltCleared
    | IntentDenied | OrderSent | Fill | PartialFill | NoFillCanceled | UnknownState
    | ReconcileReport | DailyStatsReset | LedgerRotated | ConcurrentWriter | UserNote
    | Custom(name: string)

  predicate IsAnchorKind(k: Kind) {
    k.AnchorPublished? || k.AnchorFailed? || k.AnchorStale? || k.AnchorRecovered?
  }

  /** The kinds an operator wants dated by a third party at once. */
  predicate ForcesAnchor(k: Kind) {
    || k.KillEngaged? || k.KillReleased? || k.HaltSet? || k.HaltCleared?
    || k.UnknownState? || k.ConcurrentWriter? || k.LedgerRotated?
  }

  /** A file name under the ledger directory: the active file, the n-th closed
      segment, or any other string a tampered link may carry. */
  datatype Name = Active | Segment(n: nat) | Other(text: string)

  datatype Payload =
    | Plain(text: string)
    | AnchorNote(anchorSeq: int, anchorHash: Hash, ref: string, failures: nat)
    | Link(prevSegment: Name, prevLastSeq: int, prevLastHash: Hash, prevFirstSeq: int, prevSha: Hash)

  /** Everything the entry hash covers, unknown fields included (`extra`). */
  datatype Body = Body(schemaVersion: int, seqNo: int, ts: string, kind: Kind, actor: string,
                       payload: Payload, prevHash: Hash, extra: map<string, string>)

  datatype Entry = Entry(body: Body, hash: Hash, sig: Option<string>)

  /** One non-blank line of a segment file. `Partial` is a JSON object that lacks a required field. */
  datatype Line = NotJson | Partial(seqNo: Option<int>, hash: Option<Hash>) | Full(entry: Entry)

  datatype TipFile = NoTip | BadTip | Tip(seqNo: int, hash: Hash)

  datatype Anchor = Anchor(seqNo: int, hash: Hash, ts: string, ref: string)

  datatype Disk = Disk(files: map<Name, seq<Line>>, tip: TipFile, anchors: seq<Anchor>, staleFlag: bool)

  const EMPTY_DISK := Disk(map[], NoTip, [], false)

  /** The digest of an entry body, the digest of a file, and the optional signer and verifier. */
  datatype Crypto = Crypto(digest: Body -> Hash, fileDigest: seq<Line> -> Hash,
                           signer: Option<Hash -> string>, verifier: Option<(Hash, string) -> bool>)

  predicate SignatureGood(cr: Crypto, e: Entry) {
    cr.verifier.Some? ==> e.sig.Some? && cr.verifier.value(e.hash, e.sig.value)
  }

  /** The verifier, if there is one, accepts what the signer signs. */
  ghost predicate SignerAccepted(cr: Crypto) {
    cr.verifier.Some? ==> cr.signer.Some? && forall h :: cr.verifier.value(h, cr.signer.value(h))
  }

  /** A complete, genuine chain: seqs 1..n, every digest right, every entry naming its predecessor. */
  ghost predicate Chained(cr: Crypto, es: seq<Entry>) {
    forall i :: 0 <= i < |es| ==> ChainedAt(cr, es, i)
  }

  ghost predicate ChainedAt(cr: Crypto, es: seq<Entry>, i: nat)
    requires i < |es|
  {
    && es[i].body.seqNo == i + 1
    && es[i].hash == cr.digest(es[i].body)
    && es[i].body.prevHash == (if i == 0 then GENESIS else es[i - 1].hash)
    && SignatureGood(cr, es[i])
  }

  function LastHash(es: seq<Entry>): Hash {
    if es == [] then GENESIS else es[|es| - 1].hash
  }

  function Lines(es: seq<Entry>): (ls: seq<Line>)
    ensures |ls| == |es|
    ensures forall i :: 0 <= i < |es| ==> ls[i] == Full(es[i])
  {
    seq(|es|, i requires 0 <= i < |es| => Full(es[i]))
  }

  function FileOf(d: Disk, n: Name): seq<Line> {
    if n in d.files then d.files[n] else []
  }

  function LineSeq(l: Line): Option<int> {
    match l
    case NotJson => None
    case Partial(s, _) => s
    case Full(e) => Some(e.body.seqNo)
  }

  function LineHash(l: Line): Option<Hash> {
    match l
    case NotJson => None
    case Partial(_, h) => h
    case Full(e) => Some(e.hash)
  }

  datatype TipRead = Refused | At(seqNo: int, hash: Hash)

  /** The tip, cross-checked against the last line of the active file; disagreement is refused. */
  function ReadTip(d: Disk): TipRead {
    var active := FileOf(d, Active);
    if active == [] then
      match d.tip {
        case NoTip => At(0, GENESIS)
        case BadTip => Refused
        case Tip(s, h) => if h != GENESIS || s != 0 then Refused else At(s, h)
      }
    else
      var tail := active[|active| - 1];
      if LineSeq(tail).None? || LineHash(tail).None? then Refused
      else
        match d.tip {
          case NoTip => At(LineSeq(tail).value, LineHash(tail).value)
          case BadTip => Refused
          case Tip(s, h) => if LineSeq(tail).value != s || LineHash(tail).value != h then Refused else At(s, h)
        }
  }

  /** The entry an append writes after the tip (s, h). */
  function Sealed(cr: Crypto, s: int, h: Hash, ts: string, kind: Kind, actor: string, payload: Payload): Entry {
    var body := Body(SCHEMA_VERSION, s + 1, ts, kind, actor, payload, h, map[]);
    var digest := cr.digest(body);
    Entry(body, digest, if cr.signer.Some? then Some(cr.signer.value(digest)) else None)
  }

  /** The two writes of an append, the line first and the tip second. */
  function WithLine(d: Disk, l: Line): Disk {
    d.(files := d.files[Active := FileOf(d, Active) + [l]])
  }

  function WithTip(d: Disk, e: Entry): Disk {
    d.(tip := Tip(e.body.seqNo, e.hash))
  }

  function Append(cr: Crypto, d: Disk, ts: int -> string, kind: Kind, actor: string, payload: Payload):
      Option<(Disk, Entry)> {
    match ReadTip(d)
    case Refused => None
    case At(s, h) =>
      var e := Sealed(cr, s, h, ts(s + 1), kind, actor, payload);
      Some((WithTip(WithLine(d, Full(e)), e), e))
  }

  /** The first n >= `from` with no closed segment of that number. */
  function FreeSegment(files: map<Name, seq<Line>>, from: nat): (n: nat)
    ensures from <= n && Segment(n) !in files
    ensures forall i :: from <= i < n ==> Segment(i) in files
    decreases files.Keys - (set i | 0 <= i < from :: Segment(i))
  {
    if Segment(from) !in files then from
    else
      assert Segment(from) in files.Keys - (set i | 0 <= i < from :: Segment(i));
      assert Segment(from) !in files.Keys - (set i | 0 <= i < from + 1 :: Segment(i));
      FreeSegment(files, from + 1)
  }

  /** The rename of rotate(): the active file becomes the next closed segment. */
  function Renamed(d: Disk): Disk
    requires Active in d.files
  {
    d.(files := (d.files - {Active})[Segment(FreeSegment(d.files, 1)) := d.files[Active]])
  }

  function RotationLink(cr: Crypto, d: Disk, s: int, h: Hash): Payload
    requires Active in d.files && d.files[Active] != [] && LineSeq(d.files[Active][0]).Some?
  {
    Link(Segment(FreeSegment(d.files, 1)), s, h, LineSeq(d.files[Active][0]).value, cr.fileDigest(d.files[Active]))
  }

  predicate CanRotate(d: Disk) {
    && ReadTip(d).At? && ReadTip(d).seqNo != 0
    && Active in d.files && d.files[Active] != [] && LineSeq(d.files[Active][0]).Some?
  }

  function Rotate(cr: Crypto, d: Disk, ts: int -> string, actor: string): Option<(Disk, Entry)> {
    if !CanRotate(d) then None
    else
      var tip := ReadTip(d);
      var e := Sealed(cr, tip.seqNo, tip.hash, ts(tip.seqNo + 1), LedgerRotated, actor,
                      RotationLink(cr, d, tip.seqNo, tip.hash));
      Some((WithTip(WithLine(Renamed(d), Full(e)), e), e))
  }

  /** rotate() renames before it reads the seq of the first line, so it can fail after the rename. */
  function FailedRotation(d: Disk): Disk {
    if ReadTip(d).At? && ReadTip(d).seqNo != 0 && Active in d.files && d.files[Active] != []
        && d.files[Active][0].Partial?
    then Renamed(d)
    else d
  }

  // ------------------------------------------------------------------ what the writers build

  /** The link entry that opens segment i of a history `es` cut at `cuts`. */
  ghost predicate LinkAt(cr: Crypto, es: seq<Entry>, cuts: seq<nat>, i: nat)
    requires 0 < i < |cuts| && CutsFit(es, cuts)
  {
    var e := es[cuts[i]];
    && e.body.kind == LedgerRotated
    && e.body.payload == Link(Segment(i), cuts[i], es[cuts[i] - 1].hash, cuts[i - 1] + 1,
                              cr.fileDigest(Lines(es[cuts[i - 1]..cuts[i]])))
  }

  ghost predicate CutsFit(es: seq<Entry>, cuts: seq<nat>) {
    && 0 < |cuts| && cuts[0] == 0
    && (forall i, j :: 0 <= i < j < |cuts| ==> cuts[i] < cuts[j])
    && cuts[|cuts| - 1] < |es|
  }

  /** `d` holds exactly the history `es`, cut into |cuts| - 1 closed segments and the active file. */
  ghost predicate Holds(cr: Crypto, d: Disk, es: seq<Entry>, cuts: seq<nat>) {
    && CutsFit(es, cuts)
    && Chained(cr, es)
    && (forall n :: n in d.files <==> n == Active || (n.Segment? && 1 <= n.n < |cuts|))
    && (forall i :: 1 <= i < |cuts| ==> d.files[Segment(i)] == Lines(es[cuts[i - 1]..cuts[i]]))
    && d.files[Active] == Lines(es[cuts[|cuts| - 1]..])
    && (forall i :: 0 < i < |cuts| ==> LinkAt(cr, es, cuts, i))
    && d.tip == Tip(|es|, es[|es| - 1].hash)
  }

  lemma {:induction false} HeldTip(cr: Crypto, d: Disk, es: seq<Entry>, cuts: seq<nat>)
    requires Holds(cr, d, es, cuts)
    ensures ReadTip(d) == At(|es|, es[|es| - 1].hash)
    ensures CanRotate(d)
  {
    var last := es[cuts[|cuts| - 1]..];
    assert last[|last| - 1] == es[|es| - 1];
    assert ChainedAt(cr, es, |es| - 1);
  }

  lemma {:induction false} SealedExtends(cr: Crypto, es: seq<Entry>, ts: string, kind: Kind, actor: string,
                                         payload: Payload)
    requires Chained(cr, es) && SignerAccepted(cr)
    ensures Chained(cr, es + [Sealed(cr, |es|, LastHash(es), ts, kind, actor, payload)])
  {
    var e := Sealed(cr, |es|, LastHash(es), ts, kind, actor, payload);
    forall i | 0 <= i < |es + [e]|
      ensures ChainedAt(cr, es + [e], i)
    {
      if i < |es| {
        assert ChainedAt(cr, es, i);
      }
    }
  }

  /** An append extends the history by one entry and leaves every closed segment as it was. */
  lemma {:induction false} AppendHolds(cr: Crypto, d: Disk, es: seq<Entry>, cuts: seq<nat>, ts: int -> string,
                                       kind: Kind, actor: string, payload: Payload)
    returns (e: Entry)
    requires Holds(cr, d, es, cuts) && SignerAccepted(cr)
    ensures Append(cr, d, ts, kind, actor, payload).Some?
    ensures Append(cr, d, ts, kind, actor, payload).value.1 == e
    ensures e.body.kind == kind && e.body.seqNo == |es| + 1
    ensures Holds(cr, Append(cr, d, ts, kind, actor, payload).value.0, es + [e], cuts)
  {
    HeldTip(cr, d, es, cuts);
    var d' := Append(cr, d, ts, kind, actor, payload).value.0;
    e := Append(cr, d, ts, kind, actor, payload).value.1;
    SealedExtends(cr, es, ts(|es| + 1), kind, actor, payload);
    var es' := es + [e];
    var c := cuts[|cuts| - 1];
    assert es'[c..] == es[c..] + [e];
    assert d'.files[Active] == Lines(es'[c..]);
    SameSegments(cr, es, es', cuts);
  }

  lemma {:induction false} SameSegments(cr: Crypto, es: seq<Entry>, es': seq<Entry>, cuts: seq<nat>)
    requires CutsFit(es, cuts) && es <= es'
    ensures CutsFit(es', cuts)
    ensures forall i :: 1 <= i < |cuts| ==> es'[cuts[i - 1]..cuts[i]] == es[cuts[i - 1]..cuts[i]]
    ensures forall i :: 0 < i < |cuts| && LinkAt(cr, es, cuts, i) ==> LinkAt(cr, es', cuts, i)
  {
    assert CutsFit(es', cuts);
    forall i | 1 <= i < |cuts|
      ensures es'[cuts[i - 1]..cuts[i]] == es[cuts[i - 1]..cuts[i]]
    {
    }
  }

  lemma {:induction false} NextSegment(cr: Crypto, d: Disk, es: seq<Entry>, cuts: seq<nat>)
    requires Holds(cr, d, es, cuts)
    ensures FreeSegment(d.files, 1) == |cuts|
  {
    var k := FreeSegment(d.files, 1);
    assert Segment(k) !in d.files && Segment(|cuts|) !in d.files;
  }

  /** What rotate() writes into a directory that holds `es`: the link to the segment it closes. */
  lemma {:induction false} RotateWrites(cr: Crypto, d: Disk, es: seq<Entry>, cuts: seq<nat>, ts: int -> string,
                                        actor: string)
    requires Holds(cr, d, es, cuts)
    ensures var c := cuts[|cuts| - 1];
            var e := Sealed(cr, |es|, LastHash(es), ts(|es| + 1), LedgerRotated, actor,
                            Link(Segment(|cuts|), |es|, LastHash(es), c + 1, cr.fileDigest(Lines(es[c..]))));
            Rotate(cr, d, ts, actor) == Some((
              Disk((d.files - {Active})[Segment(|cuts|) := Lines(es[c..])][Active := Lines([e])],
                   Tip(|es| + 1, e.hash), d.anchors, d.staleFlag), e))
  {
    HeldTip(cr, d, es, cuts);
    NextSegment(cr, d, es, cuts);
    var c := cuts[|cuts| - 1];
    assert ChainedAt(cr, es, c);
    assert d.files[Active][0] == Full(es[c]);
    var e := Rotate(cr, d, ts, actor).value.1;
    assert [] + [Full(e)] == Lines([e]);
  }

  /** A rotation closes the active file as the next segment and opens a new one with a link to it. */
  lemma {:induction false} RotateHolds(cr: Crypto, d: Disk, es: seq<Entry>, cuts: seq<nat>, ts: int -> string,
                                       actor: string)
    returns (e: Entry)
    requires Holds(cr, d, es, cuts) && SignerAccepted(cr)
    ensures Rotate(cr, d, ts, actor).Some?
    ensures Rotate(cr, d, ts, actor).value.1 == e
    ensures e.body.kind == LedgerRotated && e.body.seqNo == |es| + 1
    ensures Holds(cr, Rotate(cr, d, ts, actor).value.0, es + [e], cuts + [|es|])
  {
    RotateWrites(cr, d, es, cuts, ts, actor);
    var d' := Rotate(cr, d, ts, actor).value.0;
    e := Rotate(cr, d, ts, actor).value.1;
    SealedExtends(cr, es, ts(|es| + 1), LedgerRotated, actor, e.body.payload);
    var es', cuts' := es + [e], cuts + [|es|];
    SameSegments(cr, es, es', cuts);
    var c := cuts[|cuts| - 1];
    assert es'[c..|es|] == es[c..];
    assert es'[|es|..] == [e];
    assert CutsFit(es', cuts');
    SegmentsAfterRotate(cr, d, d', es, cuts, e);
  }

  lemma {:induction false} SegmentsAfterRotate(cr: Crypto, d: Disk, d': Disk, es: seq<Entry>, cuts: seq<nat>, e: Entry)
    requires Holds(cr, d, es, cuts)
    requires CutsFit(es + [e], cuts + [|es|])
    requires d'.files == (d.files - {Active})[Segment(|cuts|) := Lines(es[cuts[|cuts| - 1]..])][Active := Lines([e])]
    requires e.body.kind == LedgerRotated
    requires e.body.payload == Link(Segment(|cuts|), |es|, LastHash(es), cuts[|cuts| - 1] + 1,
                                    cr.fileDigest(Lines(es[cuts[|cuts| - 1]..])))
    ensures forall i :: 1 <= i < |cuts| + 1 ==>
              && d'.files[Segment(i)] == Lines((es + [e])[(cuts + [|es|])[i - 1]..(cuts + [|es|])[i]])
              && LinkAt(cr, es + [e], cuts + [|es|], i)
  {
    var es', cuts' := es + [e], cuts + [|es|];
    SameSegments(cr, es, es', cuts);
    forall i | 1 <= i < |cuts'|
      ensures d'.files[Segment(i)] == Lines(es'[cuts'[i - 1]..cuts'[i]])
      ensures LinkAt(cr, es', cuts', i)
    {
      if i < |cuts| {
        assert LinkAt(cr, es', cuts, i);
      } else {
        assert es'[cuts[|cuts| - 1]..|es|] == es[cuts[|cuts| - 1]..];
      }
    }
  }

  /** The first append of an empty directory. */
  lemma {:induction false} FirstAppendHolds(cr: Crypto, d: Disk, ts: int -> string, kind: Kind, actor: string,
                                            payload: Payload)
    returns (e: Entry)
    requires d.files == map[] && d.tip == NoTip && SignerAccepted(cr)
    ensures Append(cr, d, ts, kind, actor, payload).Some?
    ensures Append(cr, d, ts, kind, actor, payload).value.1 == e
    ensures e.body.kind == kind && e.body.payload == payload
    ensures Holds(cr, Append(cr, d, ts, kind, actor, payload).value.0, [e], [0])
  {
    var d' := Append(cr, d, ts, kind, actor, payload).value.0;
    e := Append(cr, d, ts, kind, actor, payload).value.1;
    SealedExtends(cr, [], ts(1), kind, actor, payload);
    assert [] + [e] == [e];
    assert d'.files[Active] == Lines([e][0..]);
  }
}
