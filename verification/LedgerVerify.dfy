/** Ledger.verify as a function of the directory: a backward walk over the segments,
    then the external anchors. */
module LedgerVerify {
  import opened Options
  import opened LedgerChain

  datatype Code =
    | OK | EMPTY | SEGMENT_MISSING | ROTATION_LINK_BROKEN | MALFORMED_LINE | EMPTY_SEGMENT
    | MALFORMED_ENTRY | HASH_MISMATCH | BAD_SIGNATURE | CHAIN_BROKEN | NO_GENESIS | ANCHOR_MISMATCH

  datatype Report = Report(ok: bool, code: Code, complete: bool, verifiedFrom: Option<int>,
                           checked: nat, segments: nat, anchorsChecked: nat, latest: Option<int>)

  function GetOr<T>(o: Option<T>, default: T): T {
    if o.Some? then o.value else default
  }

  /** What the backward scan concludes at line i of a segment. */
  function LineCode(cr: Crypto, ls: seq<Line>, i: nat): Code
    requires i < |ls|
  {
    match ls[i]
    case NotJson => MALFORMED_LINE
    case Partial(_, _) => MALFORMED_ENTRY
    case Full(e) =>
      if cr.digest(e.body) != e.hash then HASH_MISMATCH
      else if !SignatureGood(cr, e) then BAD_SIGNATURE
      else if i > 0 && (LineHash(ls[i - 1]) != Some(e.body.prevHash)
                        || e.body.seqNo != GetOr(LineSeq(ls[i - 1]), -99) + 1) then CHAIN_BROKEN
      else OK
  }

  /** How far down the scan gets: lines k.. pass, line k - 1 (if any) does not. */
  function ScanDown(cr: Crypto, ls: seq<Line>, n: nat): (k: nat)
    requires n <= |ls|
    ensures k <= n
    ensures forall i :: k <= i < n ==> LineCode(cr, ls, i) == OK
    ensures k > 0 ==> LineCode(cr, ls, k - 1) != OK
  {
    if n == 0 || LineCode(cr, ls, n - 1) != OK then n else ScanDown(cr, ls, n - 1)
  }

  /** What a rotation link promises about the segment before it: last seq, last hash, file digest. */
  datatype Promise = Promise(lastSeq: int, lastHash: Hash, sha: Hash)

  /** The verdict on one segment file: stop with a code, follow a link, or genesis reached. */
  datatype Judgement =
    | Missing
    | Broken(code: Code, counted: bool, from: Option<int>, checked: nat)
    | Blank
    | Follow(previous: Name, promise: Promise)
    | Genesis

  /** Where the first entry of a segment of n good entries leads. */
  function JudgeFirst(b: Body, n: nat): Judgement {
    if b.kind == LedgerRotated then
      if !b.payload.Link? || b.payload.prevLastHash != b.prevHash || b.payload.prevLastSeq + 1 != b.seqNo then
        Broken(ROTATION_LINK_BROKEN, true, Some(b.seqNo), n)
      else Follow(b.payload.prevSegment, Promise(b.payload.prevLastSeq, b.payload.prevLastHash, b.payload.prevSha))
    else if b.prevHash != GENESIS || b.seqNo != 1 then Broken(NO_GENESIS, true, Some(b.seqNo), n)
    else Genesis
  }

  function JudgeLines(cr: Crypto, ls: seq<Line>): Judgement
    requires ls != []
  {
    var k := ScanDown(cr, ls, |ls|);
    if k > 0 then Broken(LineCode(cr, ls, k - 1), true, if k < |ls| then LineSeq(ls[k]) else None, |ls| - k)
    else
      assert LineCode(cr, ls, 0) == OK;
      JudgeFirst(ls[0].entry.body, |ls|)
  }

  function Judge(cr: Crypto, files: map<Name, seq<Line>>, name: Name, expected: Option<Promise>,
                 first: bool): Judgement {
    if name !in files then Missing
    else
      var ls := files[name];
      if expected.Some? && cr.fileDigest(ls) != expected.value.sha then Broken(ROTATION_LINK_BROKEN, false, None, 0)
      else if NotJson in ls then Broken(MALFORMED_LINE, false, None, 0)
      else if ls == [] then
        if name == Active && first then Blank else Broken(EMPTY_SEGMENT, true, None, 0)
      else if expected.Some? && (GetOr(LineSeq(ls[|ls| - 1]), -1) != expected.value.lastSeq
                                 || GetOr(LineHash(ls[|ls| - 1]), Hex("")) != expected.value.lastHash) then
        Broken(ROTATION_LINK_BROKEN, true, None, 0)
      else JudgeLines(cr, ls)
  }

  predicate Passed(s: Judgement) { s.Follow? || s.Genesis? }

  /** A segment that passed is a run of complete entries with consecutive seqs. */
  lemma {:induction false} PassedSpan(cr: Crypto, files: map<Name, seq<Line>>, name: Name, expected: Option<Promise>,
                                      first: bool)
    requires Passed(Judge(cr, files, name, expected, first))
    ensures name in files && files[name] != []
    ensures forall i :: 0 <= i < |files[name]| ==> files[name][i].Full? && LineCode(cr, files[name], i) == OK
    ensures forall i :: 0 <= i < |files[name]| ==>
              files[name][i].entry.body.seqNo == files[name][0].entry.body.seqNo + i
  {
    SpanUpTo(cr, files[name], |files[name]|);
  }

  lemma {:induction false} SpanUpTo(cr: Crypto, ls: seq<Line>, n: nat)
    requires 0 < n <= |ls|
    requires forall i :: 0 <= i < |ls| ==> LineCode(cr, ls, i) == OK
    ensures ls[0].Full?
    ensures forall i :: 0 <= i < n ==> ls[i].Full? && ls[i].entry.body.seqNo == ls[0].entry.body.seqNo + i
  {
    assert LineCode(cr, ls, n - 1) == OK;
    if n > 1 {
      SpanUpTo(cr, ls, n - 1);
      assert LineCode(cr, ls, n - 2) == OK;
    }
  }

  /** Files already walked, oldest bound `below`: each is a non-empty run of entries that starts above it. */
  ghost predicate AllAbove(files: map<Name, seq<Line>>, visited: set<Name>, expected: Option<Promise>) {
    && (expected.None? ==> visited == {})
    && (forall v :: v in visited ==> v in files && files[v] != [] && files[v][0].Full?
                                     && files[v][0].entry.body.seqNo > expected.value.lastSeq)
  }

  /** No file is walked twice: a segment starts strictly below every segment that links back to it.
      No property of the digests is used. */
  lemma {:induction false} FirstSeqFalls(cr: Crypto, files: map<Name, seq<Line>>, name: Name, expected: Option<Promise>,
                                         visited: set<Name>)
    requires AllAbove(files, visited, expected)
    requires Judge(cr, files, name, expected, expected.None?).Follow?
    ensures name in files && name !in visited
    ensures AllAbove(files, visited + {name}, Some(Judge(cr, files, name, expected, expected.None?).promise))
  {
    PassedSpan(cr, files, name, expected, expected.None?);
    var ls := files[name];
    assert expected.Some? ==> ls[|ls| - 1].entry.body.seqNo == expected.value.lastSeq;
  }

  datatype Walked =
    | Stopped(report: Report)
    | Reached(code: Code, complete: bool, from: Option<int>, checked: nat, segments: nat, seen: map<int, Hash>)

  /** The seq -> hash notes the scan of the first n lines takes, last line first. */
  function Note(ls: seq<Line>, n: nat, seen: map<int, Hash>): map<int, Hash>
    requires n <= |ls|
  {
    if n == 0 then seen
    else Note(ls, n - 1, if ls[n - 1].Full? then seen[ls[n - 1].entry.body.seqNo := ls[n - 1].entry.hash] else seen)
  }

  lemma {:induction false} NoteContents(ls: seq<Line>, n: nat, seen: map<int, Hash>, first: int)
    requires n <= |ls|
    requires forall i :: 0 <= i < n ==> ls[i].Full? && ls[i].entry.body.seqNo == first + i
    ensures forall i :: 0 <= i < n ==>
              && ls[i].entry.body.seqNo in Note(ls, n, seen)
              && Note(ls, n, seen)[ls[i].entry.body.seqNo] == ls[i].entry.hash
    ensures forall s :: s in Note(ls, n, seen) ==> s in seen || first <= s < first + n
    ensures forall s :: s in seen && !(first <= s < first + n) ==>
              s in Note(ls, n, seen) && Note(ls, n, seen)[s] == seen[s]
  {
    if n > 0 {
      NoteContents(ls, n - 1, seen[ls[n - 1].entry.body.seqNo := ls[n - 1].entry.hash], first);
    }
  }

  function Walk(cr: Crypto, files: map<Name, seq<Line>>, name: Name, expected: Option<Promise>, from: Option<int>,
                checked: nat, segments: nat, seen: map<int, Hash>, ghost visited: set<Name>): Walked
    requires AllAbove(files, visited, expected)
    decreases files.Keys - visited
  {
    var j := Judge(cr, files, name, expected, expected.None?);
    match j
    case Missing => Reached(SEGMENT_MISSING, false, from, checked, segments, seen)
    case Blank => Stopped(Report(true, EMPTY, true, None, 0, 1, 0, None))
    case Broken(code, counted, f, n) =>
      Stopped(Report(false, code, false, if f.Some? then f else from, checked + n,
                     if counted then segments + 1 else segments, 0, None))
    case Follow(previous, promise) =>
      PassedSpan(cr, files, name, expected, expected.None?);
      FirstSeqFalls(cr, files, name, expected, visited);
      var ls := files[name];
      assert name in files.Keys - visited;
      Walk(cr, files, previous, Some(promise), LineSeq(ls[0]), checked + |ls|, segments + 1,
           Note(ls, |ls|, seen), visited + {name})
    case Genesis =>
      var ls := files[name];
      PassedSpan(cr, files, name, expected, expected.None?);
      Reached(OK, true, LineSeq(ls[0]), checked + |ls|, segments + 1, Note(ls, |ls|, seen))
  }

  /** The anchors in order: the first one that disagrees stops the check, an unseen seq is skipped. */
  function CheckAnchors(w: Walked, anchors: seq<Anchor>, n: nat, latest: Option<int>): Report
    requires w.Reached?
  {
    if anchors == [] then Report(true, w.code, w.complete, w.from, w.checked, w.segments, n, latest)
    else
      var a := anchors[0];
      if a.seqNo !in w.seen then CheckAnchors(w, anchors[1..], n, latest)
      else if w.seen[a.seqNo] != a.hash then
        Report(false, ANCHOR_MISMATCH, w.complete, w.from, w.checked, w.segments, n + 1, latest)
      else
        var top := GetOr(latest, 0);
        CheckAnchors(w, anchors[1..], n + 1, Some(if a.seqNo > top then a.seqNo else top))
  }

  /** Ledger.verify; `anchors` is None when the caller passes none and the local ones are used. */
  function Verify(cr: Crypto, d: Disk, anchors: Option<seq<Anchor>>): Report {
    var w := Walk(cr, d.files, Active, None, None, 0, 0, map[], {});
    match w
    case Stopped(r) => r
    case Reached(_, _, _, _, _, _) => CheckAnchors(w, GetOr(anchors, d.anchors), 0, None)
  }

  // ------------------------------------------------------------------ soundness

  function Entries(ls: seq<Line>): (es: seq<Entry>)
    requires forall i :: 0 <= i < |ls| ==> ls[i].Full?
    ensures |es| == |ls|
    ensures forall i :: 0 <= i < |ls| ==> es[i] == ls[i].entry
  {
    seq(|ls|, i requires 0 <= i < |ls| => ls[i].entry)
  }

  /** The entries the walk visits, oldest first. */
  ghost function History(cr: Crypto, files: map<Name, seq<Line>>, name: Name, expected: Option<Promise>,
                         visited: set<Name>): (es: seq<Entry>)
    requires AllAbove(files, visited, expected)
    decreases files.Keys - visited
  {
    var j := Judge(cr, files, name, expected, expected.None?);
    if !Passed(j) then []
    else
      PassedSpan(cr, files, name, expected, expected.None?);
      var own := Entries(files[name]);
      if j.Genesis? then own
      else
        FirstSeqFalls(cr, files, name, expected, visited);
        assert name in files.Keys - visited;
        History(cr, files, j.previous, Some(j.promise), visited + {name}) + own
  }

  ghost function Visited(cr: Crypto, d: Disk): seq<Entry> {
    History(cr, d.files, Active, None, {})
  }

  /** A run of good entries: what one passed segment contributes to the chain. */
  ghost predicate Run(cr: Crypto, es: seq<Entry>, first: int, prevHash: Hash) {
    && es != []
    && es[0].body.prevHash == prevHash
    && (forall i :: 0 <= i < |es| ==> es[i].body.seqNo == first + i)
    && (forall i :: 0 <= i < |es| ==> es[i].hash == cr.digest(es[i].body) && SignatureGood(cr, es[i]))
    && (forall i :: 0 < i < |es| ==> es[i].body.prevHash == es[i - 1].hash)
  }

  lemma {:induction false} PassedRun(cr: Crypto, files: map<Name, seq<Line>>, name: Name, expected: Option<Promise>,
                                     first: bool)
    requires Passed(Judge(cr, files, name, expected, first))
    ensures name in files && forall i :: 0 <= i < |files[name]| ==> files[name][i].Full?
    ensures var es := Entries(files[name]);
            var j := Judge(cr, files, name, expected, first);
            && Run(cr, es, es[0].body.seqNo, es[0].body.prevHash)
            && (j.Genesis? ==> es[0].body.seqNo == 1 && es[0].body.prevHash == GENESIS)
            && (j.Follow? ==> es[0].body.seqNo == j.promise.lastSeq + 1 && es[0].body.prevHash == j.promise.lastHash)
            && (expected.Some? ==>
                  es[|es| - 1].body.seqNo == expected.value.lastSeq && es[|es| - 1].hash == expected.value.lastHash)
  {
    hide Judge, LineCode;
    PassedSpan(cr, files, name, expected, first);
    PassedEnds(cr, files, name, expected, first);
    LinesRun(cr, files[name]);
  }

  lemma {:induction false} PassedEnds(cr: Crypto, files: map<Name, seq<Line>>, name: Name, expected: Option<Promise>,
                                      first: bool)
    requires Passed(Judge(cr, files, name, expected, first))
    ensures name in files && files[name] != [] && files[name][0].Full?
    ensures var ls := files[name];
            var j := Judge(cr, files, name, expected, first);
            && (j.Genesis? ==> LineSeq(ls[0]) == Some(1) && ls[0].entry.body.prevHash == GENESIS)
            && (j.Follow? ==>
                  LineSeq(ls[0]) == Some(j.promise.lastSeq + 1) && ls[0].entry.body.prevHash == j.promise.lastHash)
            && (expected.Some? ==>
                  && GetOr(LineSeq(ls[|ls| - 1]), -1) == expected.value.lastSeq
                  && GetOr(LineHash(ls[|ls| - 1]), Hex("")) == expected.value.lastHash)
  {
    hide ScanDown;
    assert LineCode(cr, files[name], 0) == OK;
  }

  lemma {:induction false} LinesRun(cr: Crypto, ls: seq<Line>)
    requires ls != [] && forall i :: 0 <= i < |ls| ==> ls[i].Full? && LineCode(cr, ls, i) == OK
    requires forall i :: 0 <= i < |ls| ==> ls[i].entry.body.seqNo == ls[0].entry.body.seqNo + i
    ensures Run(cr, Entries(ls), ls[0].entry.body.seqNo, ls[0].entry.body.prevHash)
  {
    forall i | 0 <= i < |ls|
      ensures Entries(ls)[i].hash == cr.digest(Entries(ls)[i].body) && SignatureGood(cr, Entries(ls)[i])
      ensures i > 0 ==> Entries(ls)[i].body.prevHash == Entries(ls)[i - 1].hash
    {
      assert LineCode(cr, ls, i) == OK;
    }
  }

  lemma {:induction false} ChainJoins(cr: Crypto, older: seq<Entry>, own: seq<Entry>)
    requires Chained(cr, older)
    requires Run(cr, own, |older| + 1, LastHash(older))
    ensures Chained(cr, older + own)
  {
    forall i | 0 <= i < |older + own|
      ensures ChainedAt(cr, older + own, i)
    {
      if i < |older| {
        assert ChainedAt(cr, older, i);
      } else {
        assert (older + own)[i] == own[i - |older|];
      }
    }
  }

  /** One link of the walk, unfolded. */
  lemma {:induction false} WalkFollows(cr: Crypto, files: map<Name, seq<Line>>, name: Name, expected: Option<Promise>,
                                       from: Option<int>, checked: nat, segments: nat, seen: map<int, Hash>,
                                       visited: set<Name>)
    requires AllAbove(files, visited, expected)
    requires Judge(cr, files, name, expected, expected.None?).Follow?
    ensures name in files.Keys - visited
    ensures files[name] != [] && forall i :: 0 <= i < |files[name]| ==> files[name][i].Full?
    ensures var j := Judge(cr, files, name, expected, expected.None?);
            && AllAbove(files, visited + {name}, Some(j.promise))
            && Walk(cr, files, name, expected, from, checked, segments, seen, visited)
               == Walk(cr, files, j.previous, Some(j.promise), LineSeq(files[name][0]), checked + |files[name]|,
                       segments + 1,
                       Note(files[name], |files[name]|, seen), visited + {name})
            && History(cr, files, name, expected, visited)
               == History(cr, files, j.previous, Some(j.promise), visited + {name}) + Entries(files[name])
  {
    hide Judge;
    PassedSpan(cr, files, name, expected, expected.None?);
    FirstSeqFalls(cr, files, name, expected, visited);
  }

  /** `es` is one gap-free chain from seq 1 that ends where the link promised, and `w` counts it in full. */
  ghost predicate GenesisReached(cr: Crypto, w: Walked, es: seq<Entry>, expected: Option<Promise>, checked: nat)
    requires w.Reached?
  {
    && w.complete && w.from == Some(1) && w.checked == checked + |es|
    && es != [] && Chained(cr, es)
    && (expected.Some? ==> |es| == expected.value.lastSeq && LastHash(es) == expected.value.lastHash)
  }

  /** A walk that reaches genesis has visited one gap-free chain from seq 1, ending where the link promised. */
  lemma {:induction false} WalkSound(cr: Crypto, files: map<Name, seq<Line>>, name: Name, expected: Option<Promise>,
                                     from: Option<int>, checked: nat, segments: nat, seen: map<int, Hash>,
                                     visited: set<Name>)
    requires AllAbove(files, visited, expected)
    requires Walk(cr, files, name, expected, from, checked, segments, seen, visited).Reached?
    requires Walk(cr, files, name, expected, from, checked, segments, seen, visited).code == OK
    ensures GenesisReached(cr, Walk(cr, files, name, expected, from, checked, segments, seen, visited),
                           History(cr, files, name, expected, visited), expected, checked)
    decreases files.Keys - visited
  {
    hide Judge;
    var j := Judge(cr, files, name, expected, expected.None?);
    PassedRun(cr, files, name, expected, expected.None?);
    var ls := files[name];
    if j.Follow? {
      WalkFollows(cr, files, name, expected, from, checked, segments, seen, visited);
      hide Walk, History;
      WalkSound(cr, files, j.previous, Some(j.promise), LineSeq(ls[0]), checked + |ls|, segments + 1,
                Note(ls, |ls|, seen), visited + {name});
      ChainJoins(cr, History(cr, files, j.previous, Some(j.promise), visited + {name}), Entries(ls));
    } else {
      WalkSoundGenesis(cr, files, name, expected, from, checked, segments, seen, visited);
    }
  }

  lemma {:induction false} WalkSoundGenesis(cr: Crypto, files: map<Name, seq<Line>>, name: Name,
                                            expected: Option<Promise>, from: Option<int>, checked: nat, segments: nat,
                                            seen: map<int, Hash>, visited: set<Name>)
    requires AllAbove(files, visited, expected)
    requires Judge(cr, files, name, expected, expected.None?).Genesis?
    ensures Walk(cr, files, name, expected, from, checked, segments, seen, visited).Reached?
    ensures GenesisReached(cr, Walk(cr, files, name, expected, from, checked, segments, seen, visited),
                           History(cr, files, name, expected, visited), expected, checked)
  {
    hide Judge;
    PassedRun(cr, files, name, expected, expected.None?);
    var ls := files[name];
  }

  /** `m` records every entry of the chain. */
  ghost predicate Noted(m: map<int, Hash>, es: seq<Entry>) {
    forall i :: 0 <= i < |es| ==> es[i].body.seqNo in m && m[es[i].body.seqNo] == es[i].hash
  }

  /** `m` records the chain `es`, and beyond it keeps exactly what `seen` recorded. */
  ghost predicate Extends(m: map<int, Hash>, seen: map<int, Hash>, es: seq<Entry>) {
    && Noted(m, es)
    && (forall s :: s in m ==> s in seen || 1 <= s <= |es|)
    && (forall s :: s in seen && s > |es| ==> s in m && m[s] == seen[s])
  }

  lemma {:induction false} ExtendsJoin(m: map<int, Hash>, seen: map<int, Hash>, ls: seq<Line>, older: seq<Entry>)
    requires forall i :: 0 <= i < |ls| ==> ls[i].Full? && ls[i].entry.body.seqNo == |older| + 1 + i
    requires Extends(m, Note(ls, |ls|, seen), older)
    ensures Extends(m, seen, older + Entries(ls))
  {
    NoteContents(ls, |ls|, seen, |older| + 1);
    forall i | 0 <= i < |older + Entries(ls)|
      ensures (older + Entries(ls))[i].body.seqNo in m
              && m[(older + Entries(ls))[i].body.seqNo] == (older + Entries(ls))[i].hash
    {
      if i >= |older| {
        assert (older + Entries(ls))[i] == ls[i - |older|].entry;
      }
    }
  }

  /** The notes of a complete walk are those of the chain it visited. */
  lemma {:induction false} WalkSeen(cr: Crypto, files: map<Name, seq<Line>>, name: Name, expected: Option<Promise>,
                                    from: Option<int>, checked: nat, segments: nat, seen: map<int, Hash>,
                                    visited: set<Name>)
    requires AllAbove(files, visited, expected)
    requires Walk(cr, files, name, expected, from, checked, segments, seen, visited).Reached?
    requires Walk(cr, files, name, expected, from, checked, segments, seen, visited).code == OK
    ensures Extends(Walk(cr, files, name, expected, from, checked, segments, seen, visited).seen, seen,
                    History(cr, files, name, expected, visited))
    decreases files.Keys - visited
  {
    hide Judge, Extends;
    var j := Judge(cr, files, name, expected, expected.None?);
    PassedRun(cr, files, name, expected, expected.None?);
    var ls := files[name];
    if j.Follow? {
      WalkFollows(cr, files, name, expected, from, checked, segments, seen, visited);
      hide Walk, History;
      var noted := Note(ls, |ls|, seen);
      WalkSeen(cr, files, j.previous, Some(j.promise), LineSeq(ls[0]), checked + |ls|, segments + 1, noted,
               visited + {name});
      WalkSound(cr, files, j.previous, Some(j.promise), LineSeq(ls[0]), checked + |ls|, segments + 1, noted,
                visited + {name});
      ExtendsJoin(Walk(cr, files, name, expected, from, checked, segments, seen, visited).seen, seen, ls,
                  History(cr, files, j.previous, Some(j.promise), visited + {name}));
    } else {
      WalkSeenGenesis(cr, files, name, expected, from, checked, segments, seen, visited);
    }
  }

  lemma {:induction false} WalkSeenGenesis(cr: Crypto, files: map<Name, seq<Line>>, name: Name,
                                           expected: Option<Promise>, from: Option<int>, checked: nat, segments: nat,
                                           seen: map<int, Hash>, visited: set<Name>)
    requires AllAbove(files, visited, expected)
    requires Judge(cr, files, name, expected, expected.None?).Genesis?
    ensures Walk(cr, files, name, expected, from, checked, segments, seen, visited).Reached?
    ensures Extends(Walk(cr, files, name, expected, from, checked, segments, seen, visited).seen, seen,
                    History(cr, files, name, expected, visited))
  {
    hide Judge, Extends;
    PassedRun(cr, files, name, expected, expected.None?);
    var ls := files[name];
    ExtendsNothing(Note(ls, |ls|, seen));
    ExtendsJoin(Note(ls, |ls|, seen), seen, ls, []);
    assert [] + Entries(ls) == Entries(ls);
  }

  lemma {:induction false} ExtendsNothing(m: map<int, Hash>)
    ensures Extends(m, m, [])
  {
  }
}
