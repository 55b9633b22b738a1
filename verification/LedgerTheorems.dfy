/** What a verify report is worth: soundness, completeness, and what an anchor adds to the chain. */
module LedgerTheorems {
  import opened Options
  import opened LedgerChain
  import opened LedgerVerify

  // ------------------------------------------------------------------ anchors

  ghost predicate Agrees(seen: map<int, Hash>, a: Anchor) {
    a.seqNo in seen ==> seen[a.seqNo] == a.hash
  }

  function Judgeable(seen: map<int, Hash>, anchors: seq<Anchor>): nat {
    if anchors == [] then 0 else (if anchors[0].seqNo in seen then 1 else 0) + Judgeable(seen, anchors[1..])
  }

  function Highest(seen: map<int, Hash>, anchors: seq<Anchor>, latest: Option<int>): Option<int> {
    if anchors == [] then latest
    else if anchors[0].seqNo !in seen then Highest(seen, anchors[1..], latest)
    else Highest(seen, anchors[1..], Some(if anchors[0].seqNo > GetOr(latest, 0) then anchors[0].seqNo
                                          else GetOr(latest, 0)))
  }

  /** The anchors pass exactly when every one that can be judged agrees; the rest of the report is the walk's. */
  lemma {:induction false} AnchorsJudged(w: Walked, anchors: seq<Anchor>, n: nat, latest: Option<int>)
    requires w.Reached?
    ensures var r := CheckAnchors(w, anchors, n, latest);
            && (r.ok <==> forall i :: 0 <= i < |anchors| ==> Agrees(w.seen, anchors[i]))
            && r.code == (if r.ok then w.code else ANCHOR_MISMATCH)
            && r.complete == w.complete && r.verifiedFrom == w.from && r.checked == w.checked
                && r.segments == w.segments
            && (r.ok ==>
                  r.anchorsChecked == n + Judgeable(w.seen, anchors) && r.latest == Highest(w.seen, anchors, latest))
  {
    if anchors != [] {
      var a := anchors[0];
      var top := GetOr(latest, 0);
      if a.seqNo !in w.seen {
        AnchorsJudged(w, anchors[1..], n, latest);
      } else if w.seen[a.seqNo] == a.hash {
        AnchorsJudged(w, anchors[1..], n + 1, Some(if a.seqNo > top then a.seqNo else top));
      } else {
        assert !Agrees(w.seen, anchors[0]);
      }
      assert forall i :: 0 <= i < |anchors| - 1 ==> anchors[1..][i] == anchors[i + 1];
      assert (forall i :: 0 <= i < |anchors| ==> Agrees(w.seen, anchors[i]))
        <==> Agrees(w.seen, a) && forall i :: 0 <= i < |anchors[1..]| ==> Agrees(w.seen, anchors[1..][i]);
    }
  }

  function TopWalk(cr: Crypto, d: Disk): Walked {
    Walk(cr, d.files, Active, None, None, 0, 0, map[], {})
  }

  // ------------------------------------------------------------------ soundness

  /** An anchor of the chain `es`: its seq is one of the chain's and its hash is that entry's. */
  predicate AnchorOf(a: Anchor, es: seq<Entry>) {
    1 <= a.seqNo <= |es| && es[a.seqNo - 1].hash == a.hash
  }

  /** Soundness: ok with code OK means the visited segments are one contiguous chain 1..n from genesis,
      every entry of it was checked, and no anchor passed in contradicts it. */
  lemma {:induction false} VerifySound(cr: Crypto, d: Disk, anchors: Option<seq<Anchor>>)
    requires Verify(cr, d, anchors).ok && Verify(cr, d, anchors).code == OK
    ensures var r := Verify(cr, d, anchors);
            var es := Visited(cr, d);
            && r.complete && r.verifiedFrom == Some(1) && r.checked == |es|
            && es != [] && Chained(cr, es)
    ensures NoneContradicts(GetOr(anchors, d.anchors), Visited(cr, d))
  {
    hide Walk, History, Judge;
    var w := TopWalk(cr, d);
    TopWalkShapes(cr, d);
    var given := GetOr(anchors, d.anchors);
    AnchorsJudged(w, given, 0, None);
    WalkSound(cr, d.files, Active, None, None, 0, 0, map[], {});
    WalkSeen(cr, d.files, Active, None, None, 0, 0, map[], {});
    AnchorsInChain(cr, w.seen, Visited(cr, d), given);
  }

  /** A clean report that claims completeness is one of two: the empty ledger, or a chain that reached genesis. */
  lemma {:induction false} CompleteMeansGenesis(cr: Crypto, d: Disk, anchors: Option<seq<Anchor>>)
    requires Verify(cr, d, anchors).ok && Verify(cr, d, anchors).complete
    ensures Verify(cr, d, anchors).code == OK || (Verify(cr, d, anchors).code == EMPTY && Active in d.files
                                                  && d.files[Active] == [])
  {
    hide Judge;
    var w := TopWalk(cr, d);
    TopWalkShapes(cr, d);
    if w.Reached? {
      AnchorsJudged(w, GetOr(anchors, d.anchors), 0, None);
    }
  }

  lemma {:induction false} TopWalkShapes(cr: Crypto, d: Disk)
    ensures var w := TopWalk(cr, d);
            && (w.Stopped? && w.report.ok ==> w.report.code == EMPTY && Active in d.files && d.files[Active] == [])
            && (w.Reached? && w.complete ==> w.code == OK)
            && (w.Reached? ==> w.segments <= |d.files|)
            && (w.Stopped? ==> w.report.segments <= |d.files| + 1)
  {
    WalkShapes(cr, d.files, Active, None, None, 0, 0, map[], {});
  }

  /** What the shape of any walk is, `walked` files having been walked before it. */
  ghost predicate Shape(w: Walked, files: map<Name, seq<Line>>, segments: int, walked: int) {
    match w
    case Stopped(r) =>
      && (r.ok ==> r.code == EMPTY && Active in files && files[Active] == [])
      && r.segments <= segments - walked + |files| + 1
    case Reached(code, complete, _, _, n, _) =>
      && (complete ==> code == OK)
      && n <= segments - walked + |files|
  }

  lemma {:induction false} WalkShapes(cr: Crypto, files: map<Name, seq<Line>>, name: Name, expected: Option<Promise>,
                                      from: Option<int>, checked: nat, segments: nat, seen: map<int, Hash>,
                                      visited: set<Name>)
    requires AllAbove(files, visited, expected)
    requires visited <= files.Keys
    ensures Shape(Walk(cr, files, name, expected, from, checked, segments, seen, visited), files, segments, |visited|)
    decreases files.Keys - visited
  {
    hide Judge;
    var j := Judge(cr, files, name, expected, expected.None?);
    if j.Follow? {
      WalkFollows(cr, files, name, expected, from, checked, segments, seen, visited);
      hide Walk;
      WalkShapes(cr, files, j.previous, Some(j.promise), LineSeq(files[name][0]), checked + |files[name]|, segments + 1,
                 Note(files[name], |files[name]|, seen), visited + {name});
    } else {
      WalkEnds(cr, files, name, expected, from, checked, segments, seen, visited);
    }
  }

  lemma {:induction false} WalkEnds(cr: Crypto, files: map<Name, seq<Line>>, name: Name, expected: Option<Promise>,
                                    from: Option<int>, checked: nat, segments: nat, seen: map<int, Hash>,
                                    visited: set<Name>)
    requires AllAbove(files, visited, expected)
    requires visited <= files.Keys
    requires !Judge(cr, files, name, expected, expected.None?).Follow?
    ensures Shape(Walk(cr, files, name, expected, from, checked, segments, seen, visited), files, segments, |visited|)
  {
    hide Judge;
    var j := Judge(cr, files, name, expected, expected.None?);
    Fewer(files, visited);
    if j.Blank? {
      BlankOnlyFirst(cr, files, name, expected);
    } else if j.Genesis? {
      GenesisIsNew(cr, files, name, expected, visited);
      Fewer(files, visited + {name});
    }
  }

  lemma {:induction false} Fewer(files: map<Name, seq<Line>>, visited: set<Name>)
    requires visited <= files.Keys
    ensures |visited| <= |files|
  {
    assert |files.Keys - visited| == |files.Keys| - |visited|;
  }

  lemma {:induction false} GenesisIsNew(cr: Crypto, files: map<Name, seq<Line>>, name: Name, expected: Option<Promise>,
                                        visited: set<Name>)
    requires AllAbove(files, visited, expected)
    requires Judge(cr, files, name, expected, expected.None?).Genesis?
    ensures name in files && name !in visited
  {
    PassedRun(cr, files, name, expected, expected.None?);
  }

  lemma {:induction false} BlankOnlyFirst(cr: Crypto, files: map<Name, seq<Line>>, name: Name,
                                          expected: Option<Promise>)
    ensures Judge(cr, files, name, expected, expected.None?).Blank? ==>
              expected.None? && name == Active && name in files && files[name] == []
  {
  }

  /** Termination, on any directory contents: no file is walked twice, however tampered or cyclic the
      links are. One more file may be opened and refused. */
  lemma {:induction false} VerifyBounded(cr: Crypto, d: Disk, anchors: Option<seq<Anchor>>)
    ensures Verify(cr, d, anchors).segments <= |d.files| + 1
    ensures Verify(cr, d, anchors).ok && Verify(cr, d, anchors).code == OK ==>
              Verify(cr, d, anchors).segments <= |d.files|
  {
    hide Judge, Walk;
    TopWalkShapes(cr, d);
    if TopWalk(cr, d).Reached? {
      AnchorsJudged(TopWalk(cr, d), GetOr(anchors, d.anchors), 0, None);
    }
  }

  // ------------------------------------------------------------------ the anchored prefix

  /** Two different entry bodies with one digest. */
  ghost predicate Collide(cr: Crypto, a: Body, b: Body) {
    a != b && cr.digest(a) == cr.digest(b)
  }

  /** Equal hashes at seq k force equal bodies below it, down to a collision if there is one. */
  lemma {:induction false} SameBelow(cr: Crypto, a: seq<Entry>, b: seq<Entry>, k: nat)
    requires Chained(cr, a) && Chained(cr, b) && 0 < k <= |a| && k <= |b|
    requires a[k - 1].hash == b[k - 1].hash
    ensures || (forall i :: 0 <= i < k ==> a[i].body == b[i].body && a[i].hash == b[i].hash)
            || (exists i :: 0 <= i < k && Collide(cr, a[i].body, b[i].body))
    decreases k
  {
    assert ChainedAt(cr, a, k - 1) && ChainedAt(cr, b, k - 1);
    if a[k - 1].body != b[k - 1].body {
      assert Collide(cr, a[k - 1].body, b[k - 1].body);
    } else if k > 1 {
      SameBelow(cr, a, b, k - 1);
    }
  }

  /** A ledger that verifies against an anchor that points into it holds the anchored entry. */
  lemma {:induction false} AnchorHeld(cr: Crypto, d: Disk, anchors: seq<Anchor>, a: Anchor)
    requires Verify(cr, d, Some(anchors)).ok && Verify(cr, d, Some(anchors)).code == OK && a in anchors
    requires 1 <= a.seqNo <= Verify(cr, d, Some(anchors)).checked
    ensures Chained(cr, Visited(cr, d)) && AnchorOf(a, Visited(cr, d))
  {
    hide Verify, Chained, Visited;
    VerifySound(cr, d, Some(anchors));
    var i :| 0 <= i < |anchors| && anchors[i] == a;
    assert AnchorOf(GetOr(Some(anchors), d.anchors)[i], Visited(cr, d));
  }

  /** Anchored prefix: two ledgers that both verify and both hold the same published anchor agree on every
      entry up to it (all but `sig`), unless two of their entries exhibit a digest collision. */
  lemma {:induction false} AnchoredPrefix(cr: Crypto, d1: Disk, anchors1: seq<Anchor>, d2: Disk, anchors2: seq<Anchor>,
                                          a: Anchor)
    requires Verify(cr, d1, Some(anchors1)).ok && Verify(cr, d1, Some(anchors1)).code == OK && a in anchors1
    requires Verify(cr, d2, Some(anchors2)).ok && Verify(cr, d2, Some(anchors2)).code == OK && a in anchors2
    requires 1 <= a.seqNo <= Verify(cr, d1, Some(anchors1)).checked
    requires a.seqNo <= Verify(cr, d2, Some(anchors2)).checked
    ensures var e1, e2 := Visited(cr, d1), Visited(cr, d2);
            && a.seqNo <= |e1| && a.seqNo <= |e2|
            && (|| (forall i :: 0 <= i < a.seqNo ==> e1[i].body == e2[i].body && e1[i].hash == e2[i].hash)
                || (exists i :: 0 <= i < a.seqNo && Collide(cr, e1[i].body, e2[i].body)))
  {
    hide Verify, Chained, Visited;
    AnchorHeld(cr, d1, anchors1, a);
    AnchorHeld(cr, d2, anchors2, a);
    SameBelow(cr, Visited(cr, d1), Visited(cr, d2), a.seqNo);
  }

  // ------------------------------------------------------------------ completeness

  /** A stretch of a genuine chain passes the scan of its file. */
  lemma {:induction false} SlicePasses(cr: Crypto, es: seq<Entry>, a: nat, b: nat)
    requires Chained(cr, es) && a < b <= |es|
    ensures ScanDown(cr, Lines(es[a..b]), b - a) == 0
  {
    var ls := Lines(es[a..b]);
    forall i | 0 <= i < |ls|
      ensures LineCode(cr, ls, i) == OK
    {
      assert ChainedAt(cr, es, a + i);
      if i > 0 {
        assert ChainedAt(cr, es, a + i - 1);
      }
    }
  }

  function EndOf(es: seq<Entry>, cuts: seq<nat>, i: nat): nat
    requires i < |cuts|
  {
    if i + 1 < |cuts| then cuts[i + 1] else |es|
  }

  function FileName(cuts: seq<nat>, i: nat): Name {
    if i + 1 < |cuts| then Segment(i + 1) else Active
  }

  /** What the link that opens the next segment promises about segment i. */
  function PromiseOf(cr: Crypto, es: seq<Entry>, cuts: seq<nat>, i: nat): Option<Promise>
    requires CutsFit(es, cuts) && i < |cuts|
  {
    if i + 1 < |cuts| then Some(Promise(cuts[i + 1], es[cuts[i + 1] - 1].hash,
                                        cr.fileDigest(Lines(es[cuts[i]..cuts[i + 1]]))))
    else None
  }

  /** The entries of segment i, and all entries up to its end. */
  function Own(es: seq<Entry>, cuts: seq<nat>, i: nat): (own: seq<Entry>)
    requires CutsFit(es, cuts) && i < |cuts|
    ensures own != []
  {
    es[cuts[i]..EndOf(es, cuts, i)]
  }

  function UpTo(es: seq<Entry>, cuts: seq<nat>, i: nat): seq<Entry>
    requires CutsFit(es, cuts) && i < |cuts|
  {
    es[..EndOf(es, cuts, i)]
  }

  lemma {:induction false} HeldFile(cr: Crypto, d: Disk, es: seq<Entry>, cuts: seq<nat>, i: nat)
    requires Holds(cr, d, es, cuts) && i < |cuts|
    ensures FileName(cuts, i) in d.files
    ensures d.files[FileName(cuts, i)] == Lines(Own(es, cuts, i))
  {
    if i + 1 < |cuts| {
      assert d.files[Segment(i + 1)] == Lines(es[cuts[i]..cuts[i + 1]]);
    } else {
      assert es[cuts[i]..] == es[cuts[i]..|es|];
    }
  }

  /** A segment file that is a stretch of the chain is judged by its first entry alone. */
  lemma {:induction false} JudgeOwn(cr: Crypto, files: map<Name, seq<Line>>, name: Name, expected: Option<Promise>,
                                    own: seq<Entry>)
    requires name in files && own != [] && files[name] == Lines(own)
    requires ScanDown(cr, Lines(own), |own|) == 0
    requires expected.Some? ==> expected.value == Promise(own[|own| - 1].body.seqNo, own[|own| - 1].hash,
                                                          cr.fileDigest(Lines(own)))
    ensures Judge(cr, files, name, expected, expected.None?) == JudgeFirst(own[0].body, |own|)
  {
  }

  /** Segment i of a held history passes, and its first entry leads to segment i - 1. */
  lemma {:induction false} HeldJudge(cr: Crypto, d: Disk, es: seq<Entry>, cuts: seq<nat>, i: nat)
    requires Holds(cr, d, es, cuts) && i < |cuts|
    requires i == 0 ==> es[0].body.kind != LedgerRotated
    ensures var expected := PromiseOf(cr, es, cuts, i);
            var j := Judge(cr, d.files, FileName(cuts, i), expected, expected.None?);
            if i == 0 then j == Genesis
            else j == Follow(FileName(cuts, i - 1), PromiseOf(cr, es, cuts, i - 1).value)
  {
    HeldFile(cr, d, es, cuts, i);
    var a, b := cuts[i], EndOf(es, cuts, i);
    SlicePasses(cr, es, a, b);
    assert ChainedAt(cr, es, a) && ChainedAt(cr, es, b - 1);
    JudgeOwn(cr, d.files, FileName(cuts, i), PromiseOf(cr, es, cuts, i), Own(es, cuts, i));
    hide Judge;
    if i > 0 {
      assert LinkAt(cr, es, cuts, i);
    }
  }

  /** The walk from `name` reaches genesis over `n` segments, having visited exactly `es`. */
  ghost predicate Covers(cr: Crypto, files: map<Name, seq<Line>>, name: Name, expected: Option<Promise>,
                         from: Option<int>, checked: nat, segments: nat, seen: map<int, Hash>, visited: set<Name>,
                         es: seq<Entry>, n: nat)
    requires AllAbove(files, visited, expected)
  {
    var w := Walk(cr, files, name, expected, from, checked, segments, seen, visited);
    && w.Reached? && w.code == OK && w.segments == segments + n
    && History(cr, files, name, expected, visited) == es
  }

  lemma {:induction false} CoversFollow(cr: Crypto, files: map<Name, seq<Line>>, name: Name, expected: Option<Promise>,
                                        from: Option<int>, checked: nat, segments: nat, seen: map<int, Hash>,
                                        visited: set<Name>, older: seq<Entry>, own: seq<Entry>, n: nat)
    requires AllAbove(files, visited, expected)
    requires Judge(cr, files, name, expected, expected.None?).Follow?
    requires name in files && files[name] == Lines(own) && own != []
    requires var j := Judge(cr, files, name, expected, expected.None?);
             && AllAbove(files, visited + {name}, Some(j.promise))
             && Covers(cr, files, j.previous, Some(j.promise), LineSeq(Full(own[0])), checked + |own|, segments + 1,
                       Note(Lines(own), |own|, seen), visited + {name}, older, n)
    ensures Covers(cr, files, name, expected, from, checked, segments, seen, visited, older + own, n + 1)
  {
    hide Judge;
    WalkFollows(cr, files, name, expected, from, checked, segments, seen, visited);
    assert Entries(files[name]) == own;
  }

  /** Walking a held history from segment i down reaches genesis with every entry of it visited. */
  ghost predicate HeldFrom(cr: Crypto, files: map<Name, seq<Line>>, es: seq<Entry>, cuts: seq<nat>, i: nat,
                           from: Option<int>, checked: nat, segments: nat, seen: map<int, Hash>, visited: set<Name>)
    requires CutsFit(es, cuts) && i < |cuts|
  {
    AllAbove(files, visited, PromiseOf(cr, es, cuts, i)) ==>
      Covers(cr, files, FileName(cuts, i), PromiseOf(cr, es, cuts, i), from, checked, segments, seen, visited,
             UpTo(es, cuts, i), i + 1)
  }

  lemma {:induction false} HeldWalk(cr: Crypto, d: Disk, es: seq<Entry>, cuts: seq<nat>, i: nat, from: Option<int>,
                                    checked: nat, segments: nat, seen: map<int, Hash>, visited: set<Name>)
    requires Holds(cr, d, es, cuts) && i < |cuts|
    requires es[0].body.kind != LedgerRotated
    ensures HeldFrom(cr, d.files, es, cuts, i, from, checked, segments, seen, visited)
    decreases i, 1
  {
    hide HeldFrom;
    if i == 0 {
      HeldWalkFirst(cr, d, es, cuts, from, checked, segments, seen, visited);
    } else {
      HeldFits(cr, d, es, cuts);
      HeldDeeper(cr, d, es, cuts, i, from, checked, segments, seen, visited);
    }
  }

  lemma {:induction false} HeldDeeper(cr: Crypto, d: Disk, es: seq<Entry>, cuts: seq<nat>, i: nat, from: Option<int>,
                                      checked: nat, segments: nat, seen: map<int, Hash>, visited: set<Name>)
    requires Holds(cr, d, es, cuts) && CutsFit(es, cuts) && 0 < i < |cuts|
    requires es[0].body.kind != LedgerRotated
    ensures HeldFrom(cr, d.files, es, cuts, i, from, checked, segments, seen, visited)
    decreases i, 0
  {
    hide HeldFrom, Holds, CutsFit, PromiseOf, UpTo, FileName, Own, Note, LineSeq;
    var own := Own(es, cuts, i);
    HeldWalk(cr, d, es, cuts, i - 1, LineSeq(Full(own[0])), checked + |own|, segments + 1,
             Note(Lines(own), |own|, seen),
             visited + {FileName(cuts, i)});
    HeldStep(cr, d, es, cuts, i, from, checked, segments, seen, visited);
  }

  lemma {:induction false} HeldAt(cr: Crypto, d: Disk, es: seq<Entry>, cuts: seq<nat>, i: nat)
    requires Holds(cr, d, es, cuts) && 0 < i < |cuts|
    ensures FileName(cuts, i) in d.files && d.files[FileName(cuts, i)] == Lines(Own(es, cuts, i))
    ensures PromiseOf(cr, es, cuts, i - 1).Some?
    ensures Judge(cr, d.files, FileName(cuts, i), PromiseOf(cr, es, cuts, i), PromiseOf(cr, es, cuts, i).None?)
            == Follow(FileName(cuts, i - 1), PromiseOf(cr, es, cuts, i - 1).value)
    ensures UpTo(es, cuts, i) == UpTo(es, cuts, i - 1) + Own(es, cuts, i)
  {
    HeldFile(cr, d, es, cuts, i);
    HeldJudge(cr, d, es, cuts, i);
  }

  lemma {:induction false} HeldStep(cr: Crypto, d: Disk, es: seq<Entry>, cuts: seq<nat>, i: nat, from: Option<int>,
                                    checked: nat, segments: nat, seen: map<int, Hash>, visited: set<Name>)
    requires Holds(cr, d, es, cuts) && 0 < i < |cuts|
    requires CutsFit(es, cuts)
    requires var own := Own(es, cuts, i);
             HeldFrom(cr, d.files, es, cuts, i - 1, LineSeq(Full(own[0])), checked + |own|, segments + 1,
                      Note(Lines(own), |own|, seen), visited + {FileName(cuts, i)})
    ensures HeldFrom(cr, d.files, es, cuts, i, from, checked, segments, seen, visited)
  {
    hide Holds, CutsFit, Own, Note, Judge, Covers, UpTo, AllAbove, PromiseOf, FileName, LineSeq;
    var own := Own(es, cuts, i);
    var name, promise := FileName(cuts, i), PromiseOf(cr, es, cuts, i);
    HeldAt(cr, d, es, cuts, i);
    if AllAbove(d.files, visited, promise) {
      FirstSeqFalls(cr, d.files, name, promise, visited);
      CoversFollow(cr, d.files, name, promise, from, checked, segments, seen, visited, UpTo(es, cuts, i - 1), own, i);
    }
  }

  lemma {:induction false} HeldWalkFirst(cr: Crypto, d: Disk, es: seq<Entry>, cuts: seq<nat>, from: Option<int>,
                                         checked: nat, segments: nat, seen: map<int, Hash>, visited: set<Name>)
    requires Holds(cr, d, es, cuts)
    requires es[0].body.kind != LedgerRotated
    ensures HeldFrom(cr, d.files, es, cuts, 0, from, checked, segments, seen, visited)
  {
    HeldFile(cr, d, es, cuts, 0);
    HeldJudge(cr, d, es, cuts, 0);
    assert Own(es, cuts, 0) == UpTo(es, cuts, 0);
    hide Judge, Holds, Covers, AllAbove, CutsFit, Own, UpTo;
  }

  lemma {:induction false} AllJudgeable(seen: map<int, Hash>, anchors: seq<Anchor>)
    requires forall i :: 0 <= i < |anchors| ==> anchors[i].seqNo in seen
    ensures Judgeable(seen, anchors) == |anchors|
  {
    if anchors != [] {
      AllJudgeable(seen, anchors[1..]);
    }
  }

  lemma {:induction false} HeldTop(cr: Crypto, d: Disk, es: seq<Entry>, cuts: seq<nat>)
    requires Holds(cr, d, es, cuts)
    requires es[0].body.kind != LedgerRotated
    ensures Covers(cr, d.files, Active, None, None, 0, 0, map[], {}, es, |cuts|)
  {
    HeldFits(cr, d, es, cuts);
    hide Holds, Covers, CutsFit, UpTo;
    HeldWalk(cr, d, es, cuts, |cuts| - 1, None, 0, 0, map[], {});
  }

  /** The walk over a held history. */
  lemma {:induction false} HeldTopWalk(cr: Crypto, d: Disk, es: seq<Entry>, cuts: seq<nat>)
    requires Holds(cr, d, es, cuts)
    requires es[0].body.kind != LedgerRotated
    ensures Visited(cr, d) == es
    ensures var w := TopWalk(cr, d);
            && w.Reached? && w.code == OK && w.complete && w.from == Some(1) && w.checked == |es|
                && w.segments == |cuts|
            && Extends(w.seen, map[], es)
  {
    hide Judge, Walk, History, Holds, Chained, Extends;
    HeldTop(cr, d, es, cuts);
    WalkSound(cr, d.files, Active, None, None, 0, 0, map[], {});
    WalkSeen(cr, d.files, Active, None, None, 0, 0, map[], {});
  }

  /** No anchor that points into the chain contradicts it. */
  ghost predicate NoneContradicts(anchors: seq<Anchor>, es: seq<Entry>) {
    forall i :: 0 <= i < |anchors| ==> AnchorOf(anchors[i], es) || !(1 <= anchors[i].seqNo <= |es|)
  }

  ghost predicate AllOf(anchors: seq<Anchor>, es: seq<Entry>) {
    forall i :: 0 <= i < |anchors| ==> AnchorOf(anchors[i], es)
  }

  /** The whole report on a held history, for any anchors passed in: the chain is complete, and the anchors
      decide. An anchor whose seq is absent is not judged. */
  lemma {:induction false} HeldReport(cr: Crypto, d: Disk, es: seq<Entry>, cuts: seq<nat>, anchors: Option<seq<Anchor>>)
    requires Holds(cr, d, es, cuts)
    requires es[0].body.kind != LedgerRotated
    ensures Verify(cr, d, anchors).ok <==> NoneContradicts(GetOr(anchors, d.anchors), es)
    ensures Verify(cr, d, anchors).code == (if Verify(cr, d, anchors).ok then OK else ANCHOR_MISMATCH)
    ensures var r := Verify(cr, d, anchors);
            r.complete && r.verifiedFrom == Some(1) && r.checked == |es| && r.segments == |cuts|
    ensures AllOf(GetOr(anchors, d.anchors), es) ==>
              Verify(cr, d, anchors).anchorsChecked == |GetOr(anchors, d.anchors)|
  {
    HeldFits(cr, d, es, cuts);
    hide Walk, Holds, Chained, Extends;
    HeldTopWalk(cr, d, es, cuts);
    var w := TopWalk(cr, d);
    var given := GetOr(anchors, d.anchors);
    AnchorsJudged(w, given, 0, None);
    AnchorsInChain(cr, w.seen, es, given);
  }

  lemma {:induction false} AnchorsInChain(cr: Crypto, seen: map<int, Hash>, es: seq<Entry>, anchors: seq<Anchor>)
    requires Chained(cr, es) && Extends(seen, map[], es)
    ensures (forall i :: 0 <= i < |anchors| ==> Agrees(seen, anchors[i])) <==> NoneContradicts(anchors, es)
    ensures AllOf(anchors, es) ==> Judgeable(seen, anchors) == |anchors| && NoneContradicts(anchors, es)
  {
    forall i | 0 <= i < |anchors|
      ensures Agrees(seen, anchors[i]) <==> AnchorOf(anchors[i], es) || !(1 <= anchors[i].seqNo <= |es|)
      ensures AnchorOf(anchors[i], es) ==> anchors[i].seqNo in seen
    {
      SeenAt(cr, seen, es, anchors[i].seqNo);
    }
    if AllOf(anchors, es) {
      AllJudgeable(seen, anchors);
    }
  }

  lemma {:induction false} SeenAt(cr: Crypto, seen: map<int, Hash>, es: seq<Entry>, s: int)
    requires Chained(cr, es) && Extends(seen, map[], es)
    ensures s in seen <==> 1 <= s <= |es|
    ensures s in seen ==> seen[s] == es[s - 1].hash
  {
    if 1 <= s <= |es| {
      assert ChainedAt(cr, es, s - 1);
      assert es[s - 1].body.seqNo == s;
    }
  }

  lemma {:induction false} HeldFits(cr: Crypto, d: Disk, es: seq<Entry>, cuts: seq<nat>)
    requires Holds(cr, d, es, cuts)
    ensures CutsFit(es, cuts) && Chained(cr, es)
  {
  }

  /** A directory whose very first entry is a user-written LEDGER_ROTATED is the one exception: it never
      verifies complete, because no segment can end at seq 0. */
  lemma {:induction false} RotatedGenesisNeverComplete(cr: Crypto, d: Disk, es: seq<Entry>, cuts: seq<nat>,
                                                       anchors: Option<seq<Anchor>>)
    requires Holds(cr, d, es, cuts)
    requires es[0].body.kind == LedgerRotated
    ensures !(Verify(cr, d, anchors).ok && Verify(cr, d, anchors).complete)
  {
    HeldFits(cr, d, es, cuts);
    HeldFile(cr, d, es, cuts, |cuts| - 1);
    hide Judge, Walk, Holds;
    HeldWalkRotated(cr, d, es, cuts, |cuts| - 1, None, 0, 0, map[], {});
    TopWalkShapes(cr, d);
    if TopWalk(cr, d).Reached? {
      AnchorsJudged(TopWalk(cr, d), GetOr(anchors, d.anchors), 0, None);
    }
  }

  /** The walk from `name` does not reach genesis. */
  ghost predicate Fails(cr: Crypto, files: map<Name, seq<Line>>, name: Name, expected: Option<Promise>,
                        from: Option<int>, checked: nat, segments: nat, seen: map<int, Hash>, visited: set<Name>)
    requires AllAbove(files, visited, expected)
  {
    var w := Walk(cr, files, name, expected, from, checked, segments, seen, visited);
    !(w.Reached? && w.code == OK)
  }

  lemma {:induction false} FailsFollow(cr: Crypto, files: map<Name, seq<Line>>, name: Name, expected: Option<Promise>,
                                       from: Option<int>, checked: nat, segments: nat, seen: map<int, Hash>,
                                       visited: set<Name>, own: seq<Entry>)
    requires AllAbove(files, visited, expected)
    requires Judge(cr, files, name, expected, expected.None?).Follow?
    requires name in files && files[name] == Lines(own) && own != []
    requires var j := Judge(cr, files, name, expected, expected.None?);
             && AllAbove(files, visited + {name}, Some(j.promise))
             && Fails(cr, files, j.previous, Some(j.promise), LineSeq(Full(own[0])), checked + |own|, segments + 1,
                      Note(Lines(own), |own|, seen), visited + {name})
    ensures Fails(cr, files, name, expected, from, checked, segments, seen, visited)
  {
    hide Judge;
    WalkFollows(cr, files, name, expected, from, checked, segments, seen, visited);
  }

  lemma {:induction false} HeldWalkRotated(cr: Crypto, d: Disk, es: seq<Entry>, cuts: seq<nat>, i: nat,
                                           from: Option<int>, checked: nat, segments: nat, seen: map<int, Hash>,
                                           visited: set<Name>)
    requires Holds(cr, d, es, cuts) && i < |cuts|
    requires es[0].body.kind == LedgerRotated
    requires AllAbove(d.files, visited, PromiseOf(cr, es, cuts, i))
    ensures Fails(cr, d.files, FileName(cuts, i), PromiseOf(cr, es, cuts, i), from, checked, segments, seen, visited)
    decreases i
  {
    HeldFile(cr, d, es, cuts, i);
    var name, promise := FileName(cuts, i), PromiseOf(cr, es, cuts, i);
    var own := Own(es, cuts, i);
    if i > 0 {
      HeldJudge(cr, d, es, cuts, i);
      hide Judge, Holds, Fails, AllAbove, CutsFit, Own;
      FirstSeqFalls(cr, d.files, name, promise, visited);
      HeldWalkRotated(cr, d, es, cuts, i - 1, LineSeq(Full(own[0])), checked + |own|, segments + 1,
                      Note(Lines(own), |own|, seen), visited + {name});
      FailsFollow(cr, d.files, name, promise, from, checked, segments, seen, visited, own);
    } else {
      RotatedFirstFollows(cr, d, es, cuts, name, promise);
      hide Judge, Holds;
      EndsBelowOne(cr, d.files, name, promise, from, checked, segments, seen, visited);
    }
  }

  /** No walk gets past a link that promises a segment ending at seq 0. */
  lemma {:induction false} EndsBelowOne(cr: Crypto, files: map<Name, seq<Line>>, name: Name, expected: Option<Promise>,
                                        from: Option<int>, checked: nat, segments: nat, seen: map<int, Hash>,
                                        visited: set<Name>)
    requires AllAbove(files, visited, expected)
    requires var j := Judge(cr, files, name, expected, expected.None?);
             j.Broken? || (j.Follow? && j.promise.lastSeq == 0)
    ensures Fails(cr, files, name, expected, from, checked, segments, seen, visited)
  {
    hide Judge;
    var j := Judge(cr, files, name, expected, expected.None?);
    if j.Follow? {
      WalkFollows(cr, files, name, expected, from, checked, segments, seen, visited);
      var ls := files[name];
      PromisePositive(cr, files, j.previous, Some(j.promise), LineSeq(ls[0]), checked + |ls|, segments + 1,
                      Note(ls, |ls|, seen), visited + {name});
    }
  }

  lemma {:induction false} PromisePositive(cr: Crypto, files: map<Name, seq<Line>>, name: Name,
                                           expected: Option<Promise>, from: Option<int>, checked: nat, segments: nat,
                                           seen: map<int, Hash>, visited: set<Name>)
    requires AllAbove(files, visited, expected) && expected.Some?
    ensures Fails(cr, files, name, expected, from, checked, segments, seen, visited) || expected.value.lastSeq >= 1
  {
    hide Judge, Walk, History;
    if !Fails(cr, files, name, expected, from, checked, segments, seen, visited) {
      WalkSound(cr, files, name, expected, from, checked, segments, seen, visited);
    }
  }

  lemma {:induction false} RotatedFirstFollows(cr: Crypto, d: Disk, es: seq<Entry>, cuts: seq<nat>, name: Name,
                                               promise: Option<Promise>)
    requires Holds(cr, d, es, cuts) && es[0].body.kind == LedgerRotated
    requires name in d.files && d.files[name] == Lines(Own(es, cuts, 0))
    ensures var j := Judge(cr, d.files, name, promise, promise.None?);
            j.Broken? || (j.Follow? && j.promise.lastSeq == 0)
  {
    assert ChainedAt(cr, es, 0);
    assert d.files[name][0] == Full(es[0]);
  }

  // ------------------------------------------------------------------ the deliberate rewrite

  /** The entries from i on, re-chained from the hash `prev` with everything else kept. */
  function Relinked(cr: Crypto, es: seq<Entry>, i: nat, prev: Hash): (r: seq<Entry>)
    requires i <= |es|
    ensures |r| == |es| - i
    decreases |es| - i
  {
    if i == |es| then []
    else
      var body := es[i].body.(prevHash := prev);
      [Entry(body, cr.digest(body), es[i].sig)] + Relinked(cr, es, i + 1, cr.digest(body))
  }

  /** The rewrite of entry i with its hash, and every later hash up to the tip, recomputed. */
  function Rewritten(cr: Crypto, es: seq<Entry>, i: nat, forged: Body): (r: seq<Entry>)
    requires i < |es|
    ensures |r| == |es|
  {
    es[..i] + [Entry(forged, cr.digest(forged), es[i].sig)] + Relinked(cr, es, i + 1, cr.digest(forged))
  }

  lemma {:induction false} RelinkedAt(cr: Crypto, es: seq<Entry>, i: nat, prev: Hash, j: nat)
    requires i <= j < |es|
    ensures var r := Relinked(cr, es, i, prev)[j - i];
            && r.body == es[j].body.(prevHash := if j == i then prev else Relinked(cr, es, i, prev)[j - i - 1].hash)
            && r.hash == cr.digest(r.body)
    decreases j - i
  {
    if j > i {
      var next := cr.digest(es[i].body.(prevHash := prev));
      RelinkedAt(cr, es, i + 1, next, j);
      assert Relinked(cr, es, i, prev)[j - i] == Relinked(cr, es, i + 1, next)[j - i - 1];
      assert j > i + 1 ==> Relinked(cr, es, i, prev)[j - i - 1] == Relinked(cr, es, i + 1, next)[j - i - 2];
      assert j == i + 1 ==> Relinked(cr, es, i, prev)[0].hash == next;
    }
  }

  lemma {:induction false} RewrittenAt(cr: Crypto, es: seq<Entry>, i: nat, forged: Body, j: nat)
    requires i < |es| && j < |es|
    ensures var r := Rewritten(cr, es, i, forged);
            && (j < i ==> r[j] == es[j])
            && (j == i ==> r[j].body == forged)
            && (j > i ==> r[j].body == es[j].body.(prevHash := r[j - 1].hash))
            && (j >= i ==> r[j].hash == cr.digest(r[j].body))
  {
    if j > i {
      RelinkedAt(cr, es, i + 1, cr.digest(forged), j);
    }
  }

  /** A re-hashed rewrite is itself a genuine chain. */
  lemma {:induction false} RewriteChains(cr: Crypto, es: seq<Entry>, i: nat, forged: Body)
    requires Chained(cr, es) && i < |es| && cr.verifier.None?
    requires forged.seqNo == es[i].body.seqNo && forged.prevHash == es[i].body.prevHash
    ensures Chained(cr, Rewritten(cr, es, i, forged))
  {
    var r := Rewritten(cr, es, i, forged);
    forall j | 0 <= j < |r|
      ensures ChainedAt(cr, r, j)
    {
      assert ChainedAt(cr, es, j);
      RewrittenAt(cr, es, i, forged, j);
      if j > 0 {
        RewrittenAt(cr, es, i, forged, j - 1);
      }
    }
  }

  /** Every hash from the rewritten entry to the tip changes, or a collision is on the way. */
  lemma {:induction false} RewriteShows(cr: Crypto, es: seq<Entry>, i: nat, forged: Body, k: nat)
    requires Chained(cr, es) && i <= k < |es| && forged != es[i].body
    ensures var r := Rewritten(cr, es, i, forged);
            || r[k].hash != es[k].hash
            || exists j :: i <= j <= k && Collide(cr, r[j].body, es[j].body)
    decreases k
  {
    var r := Rewritten(cr, es, i, forged);
    RewrittenAt(cr, es, i, forged, k);
    assert ChainedAt(cr, es, k);
    if k > i {
      RewriteShows(cr, es, i, forged, k - 1);
      assert r[k - 1].hash != es[k - 1].hash ==> r[k].body != es[k].body;
    }
    assert r[k].body != es[k].body && r[k].hash == es[k].hash ==> Collide(cr, r[k].body, es[k].body);
  }

  /** The limit of the chain and the value of an anchor. In a single-segment ledger any rewrite of entry i
      re-hashed to the tip verifies OK and complete when no anchor is passed in. Given original anchors it is
      refused exactly when one of them is at or past the rewritten entry; the only escape is a collision. */
  lemma {:induction false} RewriteNeedsAnchor(cr: Crypto, d: Disk, es: seq<Entry>, i: nat, forged: Body,
                                              anchors: seq<Anchor>)
    requires Chained(cr, es) && i < |es| && cr.verifier.None?
    requires es[0].body.kind != LedgerRotated && (i == 0 ==> forged.kind != LedgerRotated)
    requires forged != es[i].body && forged.seqNo == es[i].body.seqNo && forged.prevHash == es[i].body.prevHash
    requires d.files == map[Active := Lines(Rewritten(cr, es, i, forged))]
    requires forall a :: 0 <= a < |anchors| ==> AnchorOf(anchors[a], es)
    requires forall j :: i <= j < |es| ==> !Collide(cr, Rewritten(cr, es, i, forged)[j].body, es[j].body)
    ensures Verify(cr, d, Some([])).ok && Verify(cr, d, Some([])).code == OK && Verify(cr, d, Some([])).complete
    ensures var r := Verify(cr, d, Some(anchors));
            && (!r.ok <==> exists a :: 0 <= a < |anchors| && anchors[a].seqNo >= i + 1)
            && (!r.ok ==> r.code == ANCHOR_MISMATCH)
  {
    var r := Rewritten(cr, es, i, forged);
    RewriteChains(cr, es, i, forged);
    RewrittenAt(cr, es, i, forged, 0);
    var held := SingleHeld(cr, d, r, anchors);
    hide Holds, Verify, Rewritten, Chained;
    HeldReport(cr, held, r, [0], Some([]));
    HeldReport(cr, held, r, [0], Some(anchors));
    RewriteMeetsAnchors(cr, es, i, forged, anchors);
  }

  lemma {:induction false} RewriteMeetsAnchors(cr: Crypto, es: seq<Entry>, i: nat, forged: Body, anchors: seq<Anchor>)
    requires Chained(cr, es) && i < |es| && forged != es[i].body
    requires forall a :: 0 <= a < |anchors| ==> AnchorOf(anchors[a], es)
    requires forall j :: i <= j < |es| ==> !Collide(cr, Rewritten(cr, es, i, forged)[j].body, es[j].body)
    ensures var r := Rewritten(cr, es, i, forged);
            NoneContradicts(anchors, r) <==> !exists a :: 0 <= a < |anchors| && anchors[a].seqNo >= i + 1
  {
    forall a | 0 <= a < |anchors|
      ensures AnchorOf(anchors[a], Rewritten(cr, es, i, forged)) <==> anchors[a].seqNo < i + 1
    {
      RewriteMeetsAnchor(cr, es, i, forged, anchors[a]);
    }
  }

  lemma {:induction false} RewriteMeetsAnchor(cr: Crypto, es: seq<Entry>, i: nat, forged: Body, a: Anchor)
    requires Chained(cr, es) && i < |es| && forged != es[i].body
    requires AnchorOf(a, es)
    requires forall j :: i <= j < |es| ==> !Collide(cr, Rewritten(cr, es, i, forged)[j].body, es[j].body)
    ensures AnchorOf(a, Rewritten(cr, es, i, forged)) <==> a.seqNo < i + 1
  {
    RewrittenAt(cr, es, i, forged, a.seqNo - 1);
    if a.seqNo >= i + 1 {
      RewriteShows(cr, es, i, forged, a.seqNo - 1);
    }
  }

  /** verify reads neither the tip file nor the stale flag. */
  lemma {:induction false} SingleHeld(cr: Crypto, d: Disk, es: seq<Entry>, anchors: seq<Anchor>) returns (held: Disk)
    requires Chained(cr, es) && es != []
    requires d.files == map[Active := Lines(es)]
    ensures Holds(cr, held, es, [0])
    ensures Verify(cr, held, Some([])) == Verify(cr, d, Some([]))
    ensures Verify(cr, held, Some(anchors)) == Verify(cr, d, Some(anchors))
  {
    held := d.(tip := Tip(|es|, es[|es| - 1].hash));
    assert es[0..] == es;
    hide Walk, CheckAnchors;
  }
}
