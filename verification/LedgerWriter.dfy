/** One ledger process: append, rotate and the anchoring policy, as functions of the process state
    and of an environment that answers every publish call and every clock reading. */
module LedgerWriter {
  import opened Options
  import opened LedgerChain
  import opened LedgerVerify
  import opened LedgerTheorems

  /** The constructor arguments and the outside world. `publish(i)` is the outcome of the i-th publisher
      call (None when it raises), `mono(i)` the i-th monotonic reading, `stamp(i)` and `ts(s)` timestamps. */
  datatype Setup = Setup(cr: Crypto, ts: int -> string, stamp: nat -> string, publish: Option<nat -> Option<string>>,
                         mono: nat -> real, everyN: int, everyS: real, staleN: int, staleS: real, allowUnknown: bool)

  /** The directory and the fields of one Ledger object. */
  datatype Writer = Writer(disk: Disk, since: nat, lastMono: Option<real>, lastOkSeq: Option<int>,
                           failures: nat, flagged: bool, published: nat, readings: nat)

  /** A fresh process over a directory; the environment's counters go on. */
  function Opened(d: Disk, published: nat, readings: nat): Writer {
    Writer(d, 0, None, None, 0, d.staleFlag, published, readings)
  }

  /** Where an operation leaves the process, and whether it returned rather than raised. */
  datatype Outcome = Outcome(w: Writer, ok: bool)

  const KIT := "deadman.ledger"

  /** The locked append every operation goes through. */
  function Log(su: Setup, w: Writer, kind: Kind, actor: string, payload: Payload): Outcome {
    match Append(su.cr, w.disk, su.ts, kind, actor, payload)
    case None => Outcome(w, false)
    case Some(pair) => Outcome(w.(disk := pair.0, since := w.since + 1), true)
  }

  function CheckStale(su: Setup, w: Writer): Outcome {
    var w1 := if w.lastMono.Some? then w.(readings := w.readings + 1) else w;
    var stale := w.failures >= su.staleN
                 || (w.lastMono.Some? && su.mono(w.readings) - w.lastMono.value >= su.staleS);
    if !stale || w.flagged then Outcome(w1, true)
    else Log(su, w1.(flagged := true, disk := w1.disk.(staleFlag := true)), AnchorStale, KIT,
             AnchorNote(GetOr(w.lastOkSeq, 0), GENESIS, "", w.failures))
  }

  function PublishFailed(su: Setup, w: Writer, s: int, h: Hash): Outcome {
    var w1 := w.(failures := w.failures + 1);
    var logged := Log(su, w1, AnchorFailed, KIT, AnchorNote(s, h, "", w1.failures));
    if !logged.ok then logged else CheckStale(su, logged.w)
  }

  /** What a successful publication leaves behind before its own entry is written. */
  function Recorded(su: Setup, w: Writer, s: int, h: Hash, ref: string): Writer {
    w.(disk := w.disk.(anchors := w.disk.anchors + [Anchor(s, h, su.stamp(w.published), ref)]),
       since := 0, lastMono := Some(su.mono(w.readings)), readings := w.readings + 1, lastOkSeq := Some(s),
           failures := 0)
  }

  function PublishSucceeded(su: Setup, w: Writer, s: int, h: Hash, ref: string): Outcome {
    var logged := Log(su, Recorded(su, w, s, h, ref), AnchorPublished, KIT, AnchorNote(s, h, ref, 0));
    if !logged.ok || !w.flagged then logged
    else Log(su, logged.w.(flagged := false, disk := logged.w.disk.(staleFlag := false)), AnchorRecovered, KIT,
             AnchorNote(s, h, ref, 0))
  }

  function PublishTip(su: Setup, w: Writer): Outcome {
    if su.publish.None? then Outcome(w, true)
    else
      match ReadTip(w.disk)
      case Refused => Outcome(w, false)
      case At(s, h) =>
        if s == 0 then Outcome(w, true)
        else
          var asked := w.(published := w.published + 1);
          match su.publish.value(w.published)
          case None => PublishFailed(su, asked, s, h)
          case Some(ref) => PublishSucceeded(su, asked, s, h, ref)
  }

  function MaybeAnchor(su: Setup, w: Writer, kind: Kind): Outcome {
    if su.publish.None? || IsAnchorKind(kind) then Outcome(w, true)
    else if ForcesAnchor(kind) || w.since >= su.everyN || w.lastMono.None? then PublishTip(su, w)
    else
      var w1 := w.(readings := w.readings + 1);
      if su.mono(w.readings) - w.lastMono.value >= su.everyS then PublishTip(su, w1) else Outcome(w1, true)
  }

  predicate Accepted(su: Setup, kind: Kind) { su.allowUnknown || !kind.Custom? }

  function AppendOp(su: Setup, w: Writer, kind: Kind, actor: string, payload: Payload): Outcome {
    if !Accepted(su, kind) then Outcome(w, false)
    else
      var logged := Log(su, w, kind, actor, payload);
      if !logged.ok then logged else MaybeAnchor(su, logged.w, kind)
  }

  function RotateOp(su: Setup, w: Writer, actor: string): Outcome {
    match Rotate(su.cr, w.disk, su.ts, actor)
    case None => Outcome(w.(disk := FailedRotation(w.disk)), false)
    case Some(pair) => MaybeAnchor(su, w.(disk := pair.0, since := w.since + 1), LedgerRotated)
  }

  datatype Op = AppendOf(kind: Kind, actor: string, payload: Payload) | RotateBy(actor: string) | AnchorNow | Restart

  function Step(su: Setup, w: Writer, op: Op): Outcome {
    match op
    case AppendOf(kind, actor, payload) => AppendOp(su, w, kind, actor, payload)
    case RotateBy(actor) => RotateOp(su, w, actor)
    case AnchorNow => PublishTip(su, w)
    case Restart => Outcome(Opened(w.disk, w.published, w.readings), true)
  }

  /** A run over any number of process lives; an operation that raises leaves its state to the next one. */
  function Run(su: Setup, w: Writer, ops: seq<Op>): Writer {
    if ops == [] then w else Step(su, Run(su, w, ops[..|ops| - 1]), ops[|ops| - 1]).w
  }

  /** How many rotations of the run returned. */
  function Rotations(su: Setup, w: Writer, ops: seq<Op>): nat {
    if ops == [] then 0
    else
      var last := ops[|ops| - 1];
      Rotations(su, w, ops[..|ops| - 1])
      + (if last.RotateBy? && Step(su, Run(su, w, ops[..|ops| - 1]), last).ok then 1 else 0)
  }

  /** When the tip and the file disagree every operation raises - an anchor call
      only if there is a publisher: nothing is written, nothing is published. */
  lemma {:induction false} RefusedEverywhere(su: Setup, w: Writer, op: Op)
    requires ReadTip(w.disk).Refused? && !op.Restart? && (op.AnchorNow? ==> su.publish.Some?)
    ensures !Step(su, w, op).ok && Step(su, w, op).w == w
  {
  }

  // ------------------------------------------------------------------ what the directory holds

  datatype Past = Past(es: seq<Entry>, cuts: seq<nat>)

  /** The directory is empty, or holds exactly the chain `p.es`; its anchors are entries of that chain. */
  ghost predicate Built(cr: Crypto, d: Disk, p: Past) {
    && (if p.es == [] then p.cuts == [0] && d.files == map[] && d.tip == NoTip else Holds(cr, d, p.es, p.cuts))
    && AllOf(d.anchors, p.es)
  }

  /** The stale marks of a chain, oldest first: true for ANCHOR_STALE, false for ANCHOR_RECOVERED. */
  function Marks(es: seq<Entry>): seq<bool> {
    if es == [] then []
    else
      var k := es[|es| - 1].body.kind;
      Marks(es[..|es| - 1]) + (if k.AnchorStale? then [true] else if k.AnchorRecovered? then [false] else [])
  }

  /** STALE and RECOVERED strictly alternate, STALE first; the flag file is there exactly when STALE was last. */
  ghost predicate Alternates(w: Writer, es: seq<Entry>) {
    && (forall i :: 0 <= i < |Marks(es)| ==> (Marks(es)[i] <==> i % 2 == 0))
    && w.flagged == w.disk.staleFlag == (|Marks(es)| % 2 == 1)
  }

  function Bound(su: Setup): int { if su.everyN - 1 > 2 then su.everyN - 1 else 2 }

  ghost predicate NeverFails(su: Setup) {
    su.publish.Some? && forall i: nat :: su.publish.value(i).Some?
  }

  /** Every entry of the chain `es` that forces an anchor is at or before the last published one. */
  ghost predicate Covered(d: Disk, es: seq<Entry>) {
    forall i :: 0 <= i < |es| && ForcesAnchor(es[i].body.kind) ==>
          d.anchors != [] && i < d.anchors[|d.anchors| - 1].seqNo
  }

  /** The tip is `since` entries past the last published anchor, and at most `bound`. */
  ghost predicate Near(w: Writer, es: seq<Entry>, bound: int) {
    w.lastMono.Some? ==>
      && w.disk.anchors != []
      && |es| == w.disk.anchors[|w.disk.anchors| - 1].seqNo + w.since
      && w.since <= bound
  }

  // ------------------------------------------------------------------ one entry at a time

  /** The first or a later append, either way one more entry of the chain. */
  lemma {:induction false} LogBuilds(su: Setup, w: Writer, p: Past, kind: Kind, actor: string, payload: Payload)
    returns (e: Entry)
    requires Built(su.cr, w.disk, p) && SignerAccepted(su.cr)
    ensures e.body.kind == kind && e.body.seqNo == |p.es| + 1
    ensures var r := Log(su, w, kind, actor, payload);
            && r.ok && r.w == w.(disk := r.w.disk, since := w.since + 1)
            && r.w.disk.anchors == w.disk.anchors && r.w.disk.staleFlag == w.disk.staleFlag
            && Built(su.cr, r.w.disk, Past(p.es + [e], p.cuts))
    ensures Marks(p.es + [e])
            == Marks(p.es) + (if kind.AnchorStale? then [true] else if kind.AnchorRecovered? then [false] else [])
  {
    hide Holds, ReadTip, Sealed;
    if p.es == [] {
      e := FirstAppendHolds(su.cr, w.disk, su.ts, kind, actor, payload);
      assert p.es + [e] == [e];
    } else {
      e := AppendHolds(su.cr, w.disk, p.es, p.cuts, su.ts, kind, actor, payload);
    }
    assert (p.es + [e])[..|p.es|] == p.es;
  }

  lemma {:induction false} BuiltTip(cr: Crypto, d: Disk, p: Past)
    requires Built(cr, d, p)
    ensures ReadTip(d) == At(|p.es|, LastHash(p.es))
  {
    if p.es != [] {
      HeldTip(cr, d, p.es, p.cuts);
    }
  }

  /** The state after a locked section that kept the directory a chain. */
  ghost predicate Kept(su: Setup, r: Outcome, p: Past, p': Past) {
    && r.ok && Built(su.cr, r.w.disk, p') && p.es <= p'.es && p'.cuts == p.cuts
    && forall i :: |p.es| <= i < |p'.es| ==> IsAnchorKind(p'.es[i].body.kind)
  }

  lemma {:induction false} CheckStaleKeeps(su: Setup, w: Writer, p: Past) returns (p': Past)
    requires Built(su.cr, w.disk, p) && SignerAccepted(su.cr)
    ensures Kept(su, CheckStale(su, w), p, p')
    ensures Alternates(w, p.es) ==> Alternates(CheckStale(su, w).w, p'.es)
  {
    hide Holds, Built, Marks, Log;
    var w1 := if w.lastMono.Some? then w.(readings := w.readings + 1) else w;
    var stale := w.failures >= su.staleN
                 || (w.lastMono.Some? && su.mono(w.readings) - w.lastMono.value >= su.staleS);
    if !stale || w.flagged {
      p' := p;
    } else {
      var w2 := w1.(flagged := true, disk := w1.disk.(staleFlag := true));
      BuiltAnchors(su.cr, w.disk, p);
      SameBuilt(su.cr, w.disk, w2.disk, p);
      var e := LogBuilds(su, w2, p, AnchorStale, KIT, AnchorNote(GetOr(w.lastOkSeq, 0), GENESIS, "", w.failures));
      p' := Past(p.es + [e], p.cuts);
    }
  }

  /** Neither the flag nor one more anchor of the chain disturbs what the directory holds. */
  lemma {:induction false} SameBuilt(cr: Crypto, d: Disk, d': Disk, p: Past)
    ensures Built(cr, d, p) && d'.files == d.files && d'.tip == d.tip && AllOf(d'.anchors, p.es) ==> Built(cr, d', p)
  {
  }

  lemma {:induction false} FailedKeeps(su: Setup, w: Writer, p: Past, s: int, h: Hash) returns (p': Past)
    requires Built(su.cr, w.disk, p) && SignerAccepted(su.cr)
    ensures Kept(su, PublishFailed(su, w, s, h), p, p')
    ensures Alternates(w, p.es) ==> Alternates(PublishFailed(su, w, s, h).w, p'.es)
  {
    hide Holds, Built, Marks, Log, CheckStale;
    var w1 := w.(failures := w.failures + 1);
    var e := LogBuilds(su, w1, p, AnchorFailed, KIT, AnchorNote(s, h, "", w1.failures));
    p' := CheckStaleKeeps(su, Log(su, w1, AnchorFailed, KIT, AnchorNote(s, h, "", w1.failures)).w,
                          Past(p.es + [e], p.cuts));
  }

  /** The kept anchor is an entry of the chain. */
  lemma {:induction false} RecordedBuilt(su: Setup, w: Writer, p: Past, ref: string)
    requires Built(su.cr, w.disk, p) && p.es != []
    ensures Built(su.cr, Recorded(su, w, |p.es|, LastHash(p.es), ref).disk, p)
  {
    hide Holds;
    SameBuilt(su.cr, w.disk, Recorded(su, w, |p.es|, LastHash(p.es), ref).disk, p);
  }

  lemma {:induction false} SucceededKeeps(su: Setup, w: Writer, p: Past, ref: string) returns (p': Past)
    requires Built(su.cr, w.disk, p) && p.es != [] && SignerAccepted(su.cr)
    ensures Kept(su, PublishSucceeded(su, w, |p.es|, LastHash(p.es), ref), p, p')
    ensures var r := PublishSucceeded(su, w, |p.es|, LastHash(p.es), ref).w;
            && (Alternates(w, p.es) ==> Alternates(r, p'.es))
            && r.lastMono.Some? && r.disk.anchors != [] && r.disk.anchors[|r.disk.anchors| - 1].seqNo == |p.es|
            && |p'.es| == |p.es| + r.since && 1 <= r.since <= 2
  {
    hide Holds, Built, Log, Marks;
    var s, h := |p.es|, LastHash(p.es);
    var w1 := Recorded(su, w, s, h, ref);
    RecordedBuilt(su, w, p, ref);
    var e := LogBuilds(su, w1, p, AnchorPublished, KIT, AnchorNote(s, h, ref, 0));
    p' := Past(p.es + [e], p.cuts);
    if w.flagged {
      var w2 := Log(su, w1, AnchorPublished, KIT, AnchorNote(s, h, ref, 0)).w;
      var w3 := w2.(flagged := false, disk := w2.disk.(staleFlag := false));
      BuiltAnchors(su.cr, w2.disk, p');
      SameBuilt(su.cr, w2.disk, w3.disk, p');
      var e2 := LogBuilds(su, w3, p', AnchorRecovered, KIT, AnchorNote(s, h, ref, 0));
      p' := Past(p'.es + [e2], p.cuts);
    }
  }

  lemma {:induction false} BuiltAnchors(cr: Crypto, d: Disk, p: Past)
    ensures Built(cr, d, p) ==> AllOf(d.anchors, p.es)
  {
  }

  /** anchor(): never raises on a directory that holds a chain, and leaves it holding one. */
  lemma {:induction false} PublishKeeps(su: Setup, w: Writer, p: Past) returns (p': Past)
    requires Built(su.cr, w.disk, p) && SignerAccepted(su.cr)
    ensures Kept(su, PublishTip(su, w), p, p')
    ensures Alternates(w, p.es) ==> Alternates(PublishTip(su, w).w, p'.es)
    ensures p.es == [] ==> PublishTip(su, w).w == w && p' == p
    ensures NeverFails(su) && p.es != [] ==>
              var r := PublishTip(su, w).w;
              && r.lastMono.Some? && r.disk.anchors != [] && r.disk.anchors[|r.disk.anchors| - 1].seqNo == |p.es|
              && |p'.es| == |p.es| + r.since && 1 <= r.since <= 2
  {
    hide Holds, PublishFailed, PublishSucceeded, Built;
    BuiltTip(su.cr, w.disk, p);
    p' := p;
    if su.publish.Some? && p.es != [] {
      var asked := w.(published := w.published + 1);
      if su.publish.value(w.published).None? {
        p' := FailedKeeps(su, asked, p, |p.es|, LastHash(p.es));
      } else {
        p' := SucceededKeeps(su, asked, p, su.publish.value(w.published).value);
      }
    }
  }

  /** Whatever has just been written, the window closes again: every entry that forces an anchor is covered
      and the tip is near the last one. */
  lemma {:induction false} MaybeKeeps(su: Setup, w: Writer, p: Past, kind: Kind) returns (p': Past)
    requires Built(su.cr, w.disk, p) && SignerAccepted(su.cr)
    requires p.es != [] && p.es[|p.es| - 1].body.kind == kind
    ensures Kept(su, MaybeAnchor(su, w, kind), p, p')
    ensures Alternates(w, p.es) ==> Alternates(MaybeAnchor(su, w, kind).w, p'.es)
    ensures NeverFails(su) && !IsAnchorKind(kind) && Near(w, p.es, Bound(su) + 1)
            && Covered(w.disk, p.es[..|p.es| - 1]) ==>
              var r := MaybeAnchor(su, w, kind).w;
              r.lastMono.Some? && Near(r, p'.es, Bound(su)) && Covered(r.disk, p'.es)
  {
    hide Holds, PublishTip, Built;
    var read := w.(readings := w.readings + 1);
    if su.publish.None? || IsAnchorKind(kind) {
      p' := p;
    } else if ForcesAnchor(kind) || w.since >= su.everyN || w.lastMono.None? {
      p' := PublishKeeps(su, w, p);
    } else if su.mono(w.readings) - w.lastMono.value >= su.everyS {
      p' := PublishKeeps(su, read, p);
    } else {
      p' := p;
      if Covered(w.disk, p.es[..|p.es| - 1]) && Near(w, p.es, Bound(su) + 1) {
        assert forall i :: 0 <= i < |p.es| - 1 ==> p.es[i] == p.es[..|p.es| - 1][i];
        assert Covered(w.disk, p.es);
      }
    }
  }

  // ------------------------------------------------------------------ whole runs

  predicate Clean(op: Op) { op.AppendOf? ==> !IsAnchorKind(op.kind) }

  /** Between operations: near the last anchor, and nothing that forces one left uncovered. */
  ghost predicate Windowed(su: Setup, w: Writer, es: seq<Entry>) {
    Near(w, es, Bound(su)) && Covered(w.disk, es)
  }

  /** When an operation returns: an append of a known kind, a rotation of a non-empty ledger, any anchor call. */
  predicate Returns(su: Setup, op: Op, empty: bool) {
    match op
    case AppendOf(kind, _, _) => Accepted(su, kind)
    case RotateBy(_) => !empty
    case AnchorNow => true
    case Restart => true
  }

  /** What one operation keeps, `r` being its outcome and `p'` the chain after it. */
  ghost predicate StepKept(su: Setup, w: Writer, p: Past, op: Op, r: Outcome, p': Past) {
    && Built(su.cr, r.w.disk, p') && p.es <= p'.es
    && (r.ok <==> Returns(su, op, p.es == []))
    && |p'.cuts| == |p.cuts| + (if op.RotateBy? && r.ok then 1 else 0)
    && (p.es == [] && p'.es != [] ==> op.AppendOf? && r.ok && p'.es[0].body.kind == op.kind)
    && (p.es == [] && op.AppendOf? && r.ok ==> p'.es != [])
    && (Clean(op) && Alternates(w, p.es) ==> Alternates(r.w, p'.es))
    && (Clean(op) && NeverFails(su) && Windowed(su, w, p.es) ==>
          Windowed(su, r.w, p'.es) && (r.ok && (op.AppendOf? || op.RotateBy?) ==> r.w.lastMono.Some?))
  }

  lemma {:induction false} AppendKeeps(su: Setup, w: Writer, p: Past, kind: Kind, actor: string, payload: Payload)
    returns (p': Past)
    requires Built(su.cr, w.disk, p) && SignerAccepted(su.cr)
    ensures StepKept(su, w, p, AppendOf(kind, actor, payload), AppendOp(su, w, kind, actor, payload), p')
  {
    hide Holds, MaybeAnchor, Built, Log, ForcesAnchor, Marks, Bound, NeverFails;
    p' := p;
    if Accepted(su, kind) {
      var e := LogBuilds(su, w, p, kind, actor, payload);
      var w1 := Log(su, w, kind, actor, payload).w;
      var p1 := Past(p.es + [e], p.cuts);
      assert p1.es[..|p1.es| - 1] == p.es;
      p' := MaybeKeeps(su, w1, p1, kind);
    }
  }

  lemma {:induction false} RotateKeeps(su: Setup, w: Writer, p: Past, actor: string) returns (p': Past)
    requires Built(su.cr, w.disk, p) && SignerAccepted(su.cr)
    ensures StepKept(su, w, p, RotateBy(actor), RotateOp(su, w, actor), p')
  {
    hide Holds, MaybeAnchor, Rotate, RotateOp;
    if p.es == [] {
      p' := p;
      NothingToRotate(su, w, p, actor);
    } else {
      p' := RotateMore(su, w, p, actor);
    }
  }

  lemma {:induction false} RotateMore(su: Setup, w: Writer, p: Past, actor: string) returns (p': Past)
    requires Built(su.cr, w.disk, p) && p.es != [] && SignerAccepted(su.cr)
    ensures StepKept(su, w, p, RotateBy(actor), RotateOp(su, w, actor), p')
  {
    hide Built, Holds, MaybeAnchor, Rotate, Marks;
    var e, d := RotateBuilds(su, w, p, actor);
    var w1 := w.(disk := d, since := w.since + 1);
    var p1 := Past(p.es + [e], p.cuts + [|p.es|]);
    assert p1.es[..|p1.es| - 1] == p.es;
    p' := MaybeKeeps(su, w1, p1, LedgerRotated);
  }

  lemma {:induction false} NothingToRotate(su: Setup, w: Writer, p: Past, actor: string)
    ensures Built(su.cr, w.disk, p) && p.es == [] ==> RotateOp(su, w, actor) == Outcome(w, false)
  {
  }

  lemma {:induction false} RotateBuilds(su: Setup, w: Writer, p: Past, actor: string) returns (e: Entry, d: Disk)
    requires Built(su.cr, w.disk, p) && p.es != [] && SignerAccepted(su.cr)
    ensures Rotate(su.cr, w.disk, su.ts, actor) == Some((d, e)) && e.body.kind == LedgerRotated
    ensures d.anchors == w.disk.anchors && d.staleFlag == w.disk.staleFlag
    ensures Built(su.cr, d, Past(p.es + [e], p.cuts + [|p.es|]))
    ensures Marks(p.es + [e]) == Marks(p.es)
  {
    e := RotateHolds(su.cr, w.disk, p.es, p.cuts, su.ts, actor);
    d := Rotate(su.cr, w.disk, su.ts, actor).value.0;
    assert (p.es + [e])[..|p.es|] == p.es;
  }

  lemma {:induction false} AnchorKeeps(su: Setup, w: Writer, p: Past) returns (p': Past)
    requires Built(su.cr, w.disk, p) && SignerAccepted(su.cr)
    ensures StepKept(su, w, p, AnchorNow, PublishTip(su, w), p')
  {
    hide Holds, PublishTip, Built;
    p' := PublishKeeps(su, w, p);
  }

  lemma {:induction false} StepKeeps(su: Setup, w: Writer, p: Past, op: Op) returns (p': Past)
    requires Built(su.cr, w.disk, p) && SignerAccepted(su.cr)
    ensures StepKept(su, w, p, op, Step(su, w, op), p')
  {
    match op
    case AppendOf(kind, actor, payload) => p' := AppendKeeps(su, w, p, kind, actor, payload);
    case RotateBy(actor) => p' := RotateKeeps(su, w, p, actor);
    case AnchorNow => p' := AnchorKeeps(su, w, p);
    case Restart => p' := p;
  }

  /** The kind of the first entry the run writes, if it writes any. */
  function FirstKind(su: Setup, ops: seq<Op>): Option<Kind> {
    if ops == [] then None
    else
      var before := FirstKind(su, ops[..|ops| - 1]);
      var last := ops[|ops| - 1];
      if before.Some? then before
      else if last.AppendOf? && Accepted(su, last.kind) then Some(last.kind)
      else None
  }

  /** What a whole run from an empty directory leaves behind. */
  ghost predicate RunKept(su: Setup, ops: seq<Op>, w0: Writer, p: Past) {
    var w := Run(su, w0, ops);
    && Built(su.cr, w.disk, p)
    && |p.cuts| == 1 + Rotations(su, w0, ops)
    && FirstKind(su, ops) == (if p.es == [] then None else Some(p.es[0].body.kind))
    && ((forall i :: 0 <= i < |ops| ==> Clean(ops[i])) ==>
          && Alternates(w, p.es)
          && (NeverFails(su) ==> Windowed(su, w, p.es)))
  }

  lemma {:induction false} RunKeeps(su: Setup, ops: seq<Op>, w0: Writer) returns (p: Past)
    requires SignerAccepted(su.cr)
    requires w0 == Opened(EMPTY_DISK, 0, 0)
    ensures RunKept(su, ops, w0, p)
    decreases |ops|
  {
    if ops == [] {
      p := Past([], [0]);
    } else {
      hide Step, Built, Alternates, Windowed, StepKept, NeverFails;
      var before := RunKeeps(su, ops[..|ops| - 1], w0);
      p := StepKeeps(su, Run(su, w0, ops[..|ops| - 1]), before, ops[|ops| - 1]);
    }
  }

  /** Completeness of verify over every ledger the kit can build, by any run of appends (of any kind),
      rotations, anchor calls and restarts, with any publisher and clock: the report is OK and complete, counts
      every entry, counts one segment more than the rotations and matches every local anchor - if and only if
      the very first entry was not a user-written LEDGER_ROTATED. */
  lemma {:induction false} BuiltVerifies(su: Setup, ops: seq<Op>)
    requires SignerAccepted(su.cr)
    requires FirstKind(su, ops).Some?
    ensures var d := Run(su, Opened(EMPTY_DISK, 0, 0), ops).disk;
            var r := Verify(su.cr, d, None);
            && ReadTip(d).At? && ReadTip(d).seqNo > 0
            && (r.ok && r.complete <==> FirstKind(su, ops) != Some(LedgerRotated))
            && (FirstKind(su, ops) != Some(LedgerRotated) ==>
                  && r.code == OK && r.verifiedFrom == Some(1) && r.checked == ReadTip(d).seqNo
                  && r.segments == Rotations(su, Opened(EMPTY_DISK, 0, 0), ops) + 1
                  && r.anchorsChecked == |d.anchors|)
  {
    hide Holds, Verify, Run, Rotations, FirstKind, Alternates, Windowed;
    var w0 := Opened(EMPTY_DISK, 0, 0);
    var p := RunKeeps(su, ops, w0);
    var d := Run(su, w0, ops).disk;
    BuiltTip(su.cr, d, p);
    if p.es[0].body.kind == LedgerRotated {
      RotatedGenesisNeverComplete(su.cr, d, p.es, p.cuts, None);
    } else {
      HeldReport(su.cr, d, p.es, p.cuts, None);
    }
  }

  /** Anchor window: with a publisher that never fails and no user-written ANCHOR_* kind, after every append or
      rotation that returns the tip is within the window of the last published anchor, and every entry that
      forces an anchor, in this life or an earlier one, is covered by it. */
  lemma {:induction false} AnchorWindow(su: Setup, ops: seq<Op>) returns (p: Past)
    requires SignerAccepted(su.cr) && NeverFails(su)
    requires ops != [] && forall i :: 0 <= i < |ops| ==> Clean(ops[i])
    requires var last := ops[|ops| - 1];
             && (last.AppendOf? || last.RotateBy?)
             && Step(su, Run(su, Opened(EMPTY_DISK, 0, 0), ops[..|ops| - 1]), last).ok
    ensures var d := Run(su, Opened(EMPTY_DISK, 0, 0), ops).disk;
            && Built(su.cr, d, p) && d.anchors != []
            && |p.es| - d.anchors[|d.anchors| - 1].seqNo <= Bound(su)
            && forall i :: 0 <= i < |p.es| && ForcesAnchor(p.es[i].body.kind) ==>
                  i + 1 <= d.anchors[|d.anchors| - 1].seqNo
  {
    hide Step, Holds, Built, Alternates, Bound;
    var w0 := Opened(EMPTY_DISK, 0, 0);
    var init, last := ops[..|ops| - 1], ops[|ops| - 1];
    var before := RunKeeps(su, init, w0);
    assert forall i :: 0 <= i < |init| ==> init[i] == ops[i];
    p := StepKeeps(su, Run(su, w0, init), before, last);
  }

  /** Arbitrary publisher failures: the stale marks of the chain strictly alternate, STALE first, and the flag
      file exists exactly when the last of them is STALE. */
  lemma {:induction false} StaleAlternates(su: Setup, ops: seq<Op>) returns (p: Past)
    requires SignerAccepted(su.cr)
    requires forall i :: 0 <= i < |ops| ==> Clean(ops[i])
    ensures var d := Run(su, Opened(EMPTY_DISK, 0, 0), ops).disk;
            var marks := Marks(p.es);
            && Built(su.cr, d, p)
            && (forall i :: 0 < i < |marks| ==> marks[i] != marks[i - 1])
            && (marks != [] ==> marks[0])
            && (d.staleFlag <==> marks != [] && marks[|marks| - 1])
  {
    hide Built, Run, Marks;
    p := RunKeeps(su, ops, Opened(EMPTY_DISK, 0, 0));
  }
}
