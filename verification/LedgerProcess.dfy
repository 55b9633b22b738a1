/** The Ledger class: the directory and the process fields updated in place, each method proved to do exactly what the
    functions of LedgerWriter and LedgerVerify say; append, rotate and verify carry what is proved of those. */
module LedgerProcess {
  import opened Options
  import opened LedgerChain
  import T = LedgerTheorems
  import V = LedgerVerify
  import opened LedgerWriter

  class Ledger {
    const su: Setup
    // the directory
    var files: map<Name, seq<Line>>
    var tip: TipFile
    var anchors: seq<Anchor>
    var staleFlag: bool
    // the process
    var entriesSinceAnchor: nat
    var lastAnchorMono: Option<real>
    var lastOkSeq: Option<int>
    var consecutiveFailures: nat
    var staleFlagged: bool
    // how often the publisher and the clock have been asked
    var published: nat
    var readings: nat

    constructor (su: Setup, d: Disk, published: nat, readings: nat)
      ensures this.su == su && State() == Opened(d, published, readings)
    {
      this.su := su;
      files, tip, anchors, staleFlag := d.files, d.tip, d.anchors, d.staleFlag;
      entriesSinceAnchor, lastAnchorMono, lastOkSeq, consecutiveFailures := 0, None, None, 0;
      staleFlagged := d.staleFlag;
      this.published, this.readings := published, readings;
    }

    function Directory(): Disk
      reads this
    {
      Disk(files, tip, anchors, staleFlag)
    }

    function State(): Writer
      reads this
    {
      Writer(Directory(), entriesSinceAnchor, lastAnchorMono, lastOkSeq, consecutiveFailures, staleFlagged, published,
             readings)
    }

    /** One reading of the monotonic clock. */
    method Monotonic() returns (t: real)
      modifies this`readings
      ensures t == su.mono(old(readings)) && readings == old(readings) + 1
    {
      t := su.mono(readings);
      readings := readings + 1;
    }

    /** The locked append. rotate() passes the tip it has already read. */
    method AppendUnlocked(kind: Kind, actor: string, payload: Payload, given: TipRead) returns (entry: Option<Entry>)
      modifies this`files, this`tip, this`entriesSinceAnchor
      ensures var from := if given.At? then given else ReadTip(old(Directory()));
              if from.Refused? then entry == None && State() == old(State())
              else
                var e := Sealed(su.cr, from.seqNo, from.hash, su.ts(from.seqNo + 1), kind, actor, payload);
                && entry == Some(e)
                && State() == old(State()).(disk := WithTip(WithLine(old(Directory()), Full(e)), e),
                                            since := old(entriesSinceAnchor) + 1)
    {
      var from := if given.At? then given else ReadTip(Directory());
      if from.Refused? { return None; }
      var seqNo := from.seqNo + 1;
      var body := Body(SCHEMA_VERSION, seqNo, su.ts(seqNo), kind, actor, payload, from.hash, map[]);
      var hash := su.cr.digest(body);
      var sig := if su.cr.signer.Some? then Some(su.cr.signer.value(hash)) else None;
      var e := Entry(body, hash, sig);
      files := files[Active := FileOf(Directory(), Active) + [Full(e)]];
      tip := Tip(seqNo, hash);
      entriesSinceAnchor := entriesSinceAnchor + 1;
      return Some(e);
    }

    method Log(kind: Kind, actor: string, payload: Payload) returns (ok: bool)
      modifies this`files, this`tip, this`entriesSinceAnchor
      ensures Outcome(State(), ok) == LedgerWriter.Log(su, old(State()), kind, actor, payload)
    {
      var entry := AppendUnlocked(kind, actor, payload, Refused);
      ok := entry.Some?;
    }

    /** `_check_stale`. */
    method CheckStale() returns (ok: bool)
      modifies this
      ensures Outcome(State(), ok) == LedgerWriter.CheckStale(su, old(State()))
    {
      hide LedgerWriter.Log;
      ok := true;
      var stale := consecutiveFailures >= su.staleN;
      if lastAnchorMono.Some? {
        var now := Monotonic();
        stale := stale || now - lastAnchorMono.value >= su.staleS;
      }
      if !stale || staleFlagged { return; }
      staleFlagged := true;
      staleFlag := true;
      ok := Log(AnchorStale, KIT, AnchorNote(V.GetOr(lastOkSeq, 0), GENESIS, "", consecutiveFailures));
    }

    /** The publisher raised: record it, never raise. */
    method PublishFailed(at: TipRead) returns (ok: bool)
      requires at.At?
      modifies this
      ensures Outcome(State(), ok) == LedgerWriter.PublishFailed(su, old(State()), at.seqNo, at.hash)
    {
      hide LedgerWriter.Log, LedgerWriter.CheckStale;
      consecutiveFailures := consecutiveFailures + 1;
      ok := Log(AnchorFailed, KIT, AnchorNote(at.seqNo, at.hash, "", consecutiveFailures));
      if ok {
        ok := CheckStale();
      }
    }

    /** The publisher returned `ref`: keep the anchor, reset the counters, and recover if it was stale. */
    method PublishSucceeded(at: TipRead, ref: string) returns (ok: bool)
      requires at.At?
      modifies this
      ensures Outcome(State(), ok) == LedgerWriter.PublishSucceeded(su, old(State()), at.seqNo, at.hash, ref)
    {
      hide LedgerWriter.Log;
      anchors := anchors + [Anchor(at.seqNo, at.hash, su.stamp(published), ref)];
      entriesSinceAnchor := 0;
      var now := Monotonic();
      lastAnchorMono := Some(now);
      lastOkSeq := Some(at.seqNo);
      consecutiveFailures := 0;
      ok := Log(AnchorPublished, KIT, AnchorNote(at.seqNo, at.hash, ref, 0));
      if ok && staleFlagged {
        staleFlagged := false;
        staleFlag := false;
        ok := Log(AnchorRecovered, KIT, AnchorNote(at.seqNo, at.hash, ref, 0));
      }
    }

    /** `anchor`: publish the tip. */
    method PublishTip() returns (ok: bool)
      modifies this
      ensures Outcome(State(), ok) == LedgerWriter.PublishTip(su, old(State()))
    {
      hide LedgerWriter.PublishFailed, LedgerWriter.PublishSucceeded, ReadTip;
      ok := true;
      if su.publish.None? { return; }
      var at := ReadTip(Directory());
      if at.Refused? { return false; }
      if at.seqNo == 0 { return; }
      var ref := su.publish.value(published);
      published := published + 1;
      if ref.None? {
        ok := PublishFailed(at);
      } else {
        ok := PublishSucceeded(at, ref.value);
      }
    }

    /** `_maybe_anchor`. */
    method MaybeAnchor(kind: Kind) returns (ok: bool)
      modifies this
      ensures Outcome(State(), ok) == LedgerWriter.MaybeAnchor(su, old(State()), kind)
    {
      hide LedgerWriter.PublishTip;
      ok := true;
      if su.publish.None? || IsAnchorKind(kind) { return; }
      var due := ForcesAnchor(kind) || entriesSinceAnchor >= su.everyN;
      if !due && lastAnchorMono.Some? {
        var now := Monotonic();
        due := now - lastAnchorMono.value >= su.everyS;
      } else if !due {
        due := true;
      }
      if due {
        ok := PublishTip();
      }
    }

    /** Over a directory that holds one chain it still holds that chain, only longer, and the anchoring policy is kept;
        the call raises exactly when the policy says. Over a tip that disagrees with the file nothing is written. */
    method Append(kind: Kind, actor: string, payload: Payload) returns (ok: bool)
      modifies this
      ensures Outcome(State(), ok) == AppendOp(su, old(State()), kind, actor, payload)
      ensures Keeps(su, old(State()), AppendOf(kind, actor, payload), Outcome(State(), ok))
      ensures ReadTip(old(Directory())).Refused? ==> !ok && State() == old(State())
    {
      OpKeeps(su, State(), AppendOf(kind, actor, payload));
      ok := AppendThenAnchor(kind, actor, payload);
    }

    method AppendThenAnchor(kind: Kind, actor: string, payload: Payload) returns (ok: bool)
      modifies this
      ensures Outcome(State(), ok) == AppendOp(su, old(State()), kind, actor, payload)
    {
      hide LedgerWriter.Log, LedgerWriter.MaybeAnchor;
      if !su.allowUnknown && kind.Custom? { return false; }
      ok := Log(kind, actor, payload);
      if ok {
        ok := MaybeAnchor(kind);
      }
    }

    method NextSegment() returns (n: nat)
      ensures n == FreeSegment(files, 1)
    {
      n := 1;
      while Segment(n) in files
        invariant n >= 1 && FreeSegment(files, n) == FreeSegment(files, 1)
        decreases files.Keys - (set i | 0 <= i < n :: Segment(i))
      {
        assert Segment(n) in files.Keys - (set i | 0 <= i < n :: Segment(i));
        assert Segment(n) !in files.Keys - (set i | 0 <= i < n + 1 :: Segment(i));
        n := n + 1;
      }
    }

    /** The locked part of rotate(): rename, then append the link. */
    method RotateUnlocked(actor: string) returns (ok: bool)
      modifies this`files, this`tip, this`entriesSinceAnchor
      ensures ok <==> LedgerChain.Rotate(su.cr, old(Directory()), su.ts, actor).Some?
      ensures State() ==
              if ok then
                old(State()).(disk := LedgerChain.Rotate(su.cr, old(Directory()), su.ts, actor).value.0,
                              since := old(entriesSinceAnchor) + 1)
              else old(State()).(disk := FailedRotation(old(Directory())))
    {
      hide FreeSegment;
      var at := ReadTip(Directory());
      if at.Refused? || at.seqNo == 0 || Active !in files || files[Active] == [] { return false; }
      var first := files[Active][0];
      if first.NotJson? { return false; }
      var n := NextSegment();
      var content := files[Active];
      files := (files - {Active})[Segment(n) := content];
      if LineSeq(first).None? { return false; }
      var link := Link(Segment(n), at.seqNo, at.hash, LineSeq(first).value, su.cr.fileDigest(content));
      var entry := AppendUnlocked(LedgerRotated, actor, link, at);
      ok := true;
    }

    /** The same for a rotation. */
    method Rotate(actor: string) returns (ok: bool)
      modifies this
      ensures Outcome(State(), ok) == RotateOp(su, old(State()), actor)
      ensures Keeps(su, old(State()), RotateBy(actor), Outcome(State(), ok))
      ensures ReadTip(old(Directory())).Refused? ==> !ok && State() == old(State())
    {
      OpKeeps(su, State(), RotateBy(actor));
      ok := RotateThenAnchor(actor);
    }

    method RotateThenAnchor(actor: string) returns (ok: bool)
      modifies this
      ensures Outcome(State(), ok) == RotateOp(su, old(State()), actor)
    {
      hide LedgerChain.Rotate, FailedRotation, LedgerWriter.MaybeAnchor;
      ok := RotateUnlocked(actor);
      if ok {
        ok := MaybeAnchor(LedgerRotated);
      }
    }

    /** The backward scan of one segment: line by line, counting and noting what passes, until a line fails. */
    method ScanSegment(ls: seq<Line>, from0: Option<int>, checked0: nat, seen0: map<int, Hash>)
      returns (bad: Option<V.Code>, from: Option<int>, checked: nat, seen: map<int, Hash>)
      requires NotJson !in ls
      ensures var k := V.ScanDown(su.cr, ls, |ls|);
              && bad == (if k > 0 then Some(V.LineCode(su.cr, ls, k - 1)) else None)
              && from == (if k < |ls| then LineSeq(ls[k]) else from0)
              && checked == checked0 + |ls| - k
              && (k == 0 ==> seen == V.Note(ls, |ls|, seen0))
    {
      bad, from, checked, seen := None, from0, checked0, seen0;
      var idx := |ls|;
      while idx > 0
        invariant 0 <= idx <= |ls|
        invariant V.ScanDown(su.cr, ls, idx) == V.ScanDown(su.cr, ls, |ls|)
        invariant from == (if idx < |ls| then LineSeq(ls[idx]) else from0)
        invariant checked == checked0 + |ls| - idx
        invariant V.Note(ls, idx, seen) == V.Note(ls, |ls|, seen0)
      {
        var line := ls[idx - 1];
        if line.Partial? { return Some(V.MALFORMED_ENTRY), from, checked, seen; }
        var e := line.entry;
        if su.cr.digest(e.body) != e.hash { return Some(V.HASH_MISMATCH), from, checked, seen; }
        if !SignatureGood(su.cr, e) { return Some(V.BAD_SIGNATURE), from, checked, seen; }
        if idx > 1 {
          var p := ls[idx - 2];
          if LineHash(p) != Some(e.body.prevHash) || e.body.seqNo != V.GetOr(LineSeq(p), -99) + 1 {
            return Some(V.CHAIN_BROKEN), from, checked, seen;
          }
        }
        idx := idx - 1;
        checked := checked + 1;
        from := Some(e.body.seqNo);
        seen := seen[e.body.seqNo := e.hash];
      }
    }

    /** What verify refuses before it looks at any line. */
    method Unreadable(name: Name, expected: Option<V.Promise>, first: bool) returns (s: Option<V.Judgement>)
      ensures s.None? ==> name in files && files[name] != [] && NotJson !in files[name]
      ensures V.Judge(su.cr, files, name, expected, first)
              == if s.Some? then s.value else V.JudgeLines(su.cr, files[name])
      ensures s.Some? ==> !V.Passed(s.value) && (s.value.Broken? ==> s.value.from == None && s.value.checked == 0)
    {
      hide V.JudgeLines;
      if name !in files { return Some(V.Missing); }
      var ls := files[name];
      if expected.Some? && su.cr.fileDigest(ls) != expected.value.sha {
        return Some(V.Broken(V.ROTATION_LINK_BROKEN, false, None, 0));
      }
      if NotJson in ls { return Some(V.Broken(V.MALFORMED_LINE, false, None, 0)); }
      if ls == [] {
        return Some(if name == Active && first then V.Blank else V.Broken(V.EMPTY_SEGMENT, true, None, 0));
      }
      if expected.Some? {
        var last := ls[|ls| - 1];
        if V.GetOr(LineSeq(last), -1) != expected.value.lastSeq
            || V.GetOr(LineHash(last), Hex("")) != expected.value.lastHash {
          return Some(V.Broken(V.ROTATION_LINK_BROKEN, true, None, 0));
        }
      }
      s := None;
    }

    /** The scan of a readable segment, and where its first entry leads. */
    method JudgeLines(ls: seq<Line>, from0: Option<int>, checked0: nat, seen0: map<int, Hash>)
      returns (s: V.Judgement, from: Option<int>, checked: nat, seen: map<int, Hash>)
      requires ls != [] && NotJson !in ls
      ensures s == V.JudgeLines(su.cr, ls)
      ensures V.Passed(s) ==> from == LineSeq(ls[0]) && checked == checked0 + |ls| && seen == V.Note(ls, |ls|, seen0)
      ensures s.Broken? ==> from == (if s.from.Some? then s.from else from0) && checked == checked0 + s.checked
    {
      hide V.Note;
      var bad: Option<V.Code>;
      bad, from, checked, seen := ScanSegment(ls, from0, checked0, seen0);
      ghost var k := V.ScanDown(su.cr, ls, |ls|);
      if bad.Some? {
        s := V.Broken(bad.value, true, if checked > checked0 then from else None, checked - checked0);
        assert k < |ls| ==> V.LineCode(su.cr, ls, k) == V.OK;
        return;
      }
      assert V.LineCode(su.cr, ls, 0) == V.OK;
      s := V.JudgeFirst(ls[0].entry.body, |ls|);
    }

    /** Everything verify does with one segment file. */
    method JudgeSegment(name: Name, expected: Option<V.Promise>, first: bool, from0: Option<int>, checked0: nat,
                        seen0: map<int, Hash>)
      returns (s: V.Judgement, from: Option<int>, checked: nat, seen: map<int, Hash>)
      ensures s == V.Judge(su.cr, files, name, expected, first)
      ensures V.Passed(s) ==> var ls := FileOf(Directory(), name);
                ls != [] && from == LineSeq(ls[0]) && checked == checked0 + |ls| && seen == V.Note(ls, |ls|, seen0)
      ensures s.Broken? ==> from == (if s.from.Some? then s.from else from0) && checked == checked0 + s.checked
    {
      hide V.Note, V.JudgeLines, V.Judge;
      from, checked, seen := from0, checked0, seen0;
      var refused := Unreadable(name, expected, first);
      if refused.Some? {
        s := refused.value;
      } else {
        s, from, checked, seen := JudgeLines(files[name], from0, checked0, seen0);
      }
    }

    /** OK means one contiguous chain from genesis, every entry of it checked, that no anchor contradicts; and over a
        directory that holds a chain, begun by anything but a rotation link, the report is OK exactly if no anchor
        contradicts it. */
    method Verify(given: Option<seq<Anchor>>) returns (r: V.Report)
      ensures r == V.Verify(su.cr, Directory(), given)
      ensures r.ok && r.code == V.OK ==>
                var es := V.Visited(su.cr, Directory());
                && es != [] && Chained(su.cr, es) && r.complete && r.checked == |es|
                && T.NoneContradicts(V.GetOr(given, anchors), es)
      ensures forall es: seq<Entry>, cuts :: Holds(su.cr, Directory(), es, cuts) && es[0].body.kind != LedgerRotated ==>
                && (r.ok <==> T.NoneContradicts(V.GetOr(given, anchors), es))
                && r.complete && r.checked == |es| && r.segments == |cuts|
    {
      Verified(su.cr, Directory(), given);
      r := WalkAndJudge(given);
    }

    /** `verify`: walk the segments backwards through their links, then judge the anchors. */
    method WalkAndJudge(given: Option<seq<Anchor>>) returns (r: V.Report)
      ensures r == V.Verify(su.cr, Directory(), given)
    {
      hide V.Judge, V.Note, V.CheckAnchors;
      var checked, segments, name, complete := 0, 0, Active, false;
      var from: Option<int>, expected: Option<V.Promise>, code := None, None, V.OK;
      var seen: map<int, Hash> := map[];
      ghost var visited: set<Name> := {};
      while true
        invariant V.AllAbove(files, visited, expected)
        invariant V.Walk(su.cr, files, Active, None, None, 0, 0, map[], {})
               == V.Walk(su.cr, files, name, expected, from, checked, segments, seen, visited)
        invariant code == V.OK && !complete
        decreases files.Keys - visited
      {
        var s, from', checked', seen' := JudgeSegment(name, expected, expected.None?, from, checked, seen);
        if s.Missing? {
          code := V.SEGMENT_MISSING;
          break;
        }
        if s.Blank? { return V.Report(true, V.EMPTY, true, None, 0, 1, 0, None); }
        if s.Broken? {
          return V.Report(false, s.code, false, from', checked', if s.counted then segments + 1 else segments, 0, None);
        }
        if s.Follow? {
          V.WalkFollows(su.cr, files, name, expected, from, checked, segments, seen, visited);
        }
        from, checked, seen, segments := from', checked', seen', segments + 1;
        if s.Genesis? {
          complete := true;
          break;
        }
        visited := visited + {name};
        name, expected := s.previous, Some(s.promise);
      }
      r := CheckAnchors(V.Reached(code, complete, from, checked, segments, seen), V.GetOr(given, anchors));
    }

    method CheckAnchors(w: V.Walked, given: seq<Anchor>) returns (r: V.Report)
      requires w.Reached?
      ensures r == V.CheckAnchors(w, given, 0, None)
    {
      var n, latest: Option<int>, i := 0, None, 0;
      while i < |given|
        invariant 0 <= i <= |given| && 0 <= n
        invariant V.CheckAnchors(w, given, 0, None) == V.CheckAnchors(w, given[i..], n, latest)
      {
        var a := given[i];
        assert given[i..][1..] == given[i + 1..];
        if a.seqNo in w.seen {
          n := n + 1;
          if w.seen[a.seqNo] != a.hash {
            return V.Report(false, V.ANCHOR_MISMATCH, w.complete, w.from, w.checked, w.segments, n, latest);
          }
          var top := V.GetOr(latest, 0);
          latest := Some(if a.seqNo > top then a.seqNo else top);
        }
        i := i + 1;
      }
      r := V.Report(true, w.code, w.complete, w.from, w.checked, w.segments, n, latest);
    }
  }

  // ------------------------------------------------------------------ what is proved of the entry points

  /** Whatever chain the directory held before, it holds that chain and more after, as StepKept says. */
  ghost predicate Keeps(su: Setup, w: Writer, op: Op, r: Outcome) {
    forall p :: Built(su.cr, w.disk, p) && SignerAccepted(su.cr) ==> exists p' :: StepKept(su, w, p, op, r, p')
  }

  lemma {:induction false} OpKeeps(su: Setup, w: Writer, op: Op)
    ensures Keeps(su, w, op, Step(su, w, op))
    ensures ReadTip(w.disk).Refused? && (op.AppendOf? || op.RotateBy?) ==> Step(su, w, op) == Outcome(w, false)
  {
    hide Step, Built, StepKept;
    forall p | Built(su.cr, w.disk, p) && SignerAccepted(su.cr)
      ensures exists p' :: StepKept(su, w, p, op, Step(su, w, op), p')
    {
      var p' := StepKeeps(su, w, p, op);
    }
    if ReadTip(w.disk).Refused? && (op.AppendOf? || op.RotateBy?) {
      RefusedEverywhere(su, w, op);
    }
  }

  lemma {:induction false} Verified(cr: Crypto, d: Disk, given: Option<seq<Anchor>>)
    ensures var r := V.Verify(cr, d, given);
            r.ok && r.code == V.OK ==>
              var es := V.Visited(cr, d);
              && es != [] && Chained(cr, es) && r.complete && r.checked == |es|
              && T.NoneContradicts(V.GetOr(given, d.anchors), es)
    ensures var r := V.Verify(cr, d, given);
            forall es: seq<Entry>, cuts :: Holds(cr, d, es, cuts) && es[0].body.kind != LedgerRotated ==>
              && (r.ok <==> T.NoneContradicts(V.GetOr(given, d.anchors), es))
              && r.complete && r.checked == |es| && r.segments == |cuts|
  {
    hide V.Verify, V.Visited, Chained, T.NoneContradicts;
    var r := V.Verify(cr, d, given);
    if r.ok && r.code == V.OK {
      T.VerifySound(cr, d, given);
    }
    forall es: seq<Entry>, cuts | Holds(cr, d, es, cuts) && es[0].body.kind != LedgerRotated
      ensures (r.ok <==> T.NoneContradicts(V.GetOr(given, d.anchors), es))
              && r.complete && r.checked == |es| && r.segments == |cuts|
    {
      T.HeldReport(cr, d, es, cuts, given);
    }
  }
}
