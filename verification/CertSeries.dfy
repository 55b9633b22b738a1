/** verify_series: the chain between daily certificates and the declared continuity. Days are numbered. */
module CertSeries {
  import opened Options

  datatype Gap = Gap(day: Option<int>, hasReason: bool)

  datatype DayCert = DayCert(day: Option<int>, prev: Option<string>, hash: Option<string>, gaps: seq<Gap>)

  datatype Code = SERIES_DUPLICATE_DAY | SERIES_SELF_REFERENCE | SERIES_BROKEN | GAP_UNDECLARED | GAP_WITHOUT_REASON

  /** A certificate without a day sorts first. */
  predicate AtMost(a: Option<int>, b: Option<int>) { a.None? || (b.Some? && a.value <= b.value) }

  /** Stable: behind every certificate of its day. */
  function Insert(sorted: seq<DayCert>, c: DayCert): seq<DayCert> {
    if sorted == [] || AtMost(sorted[|sorted| - 1].day, c.day) then sorted + [c]
    else Insert(sorted[..|sorted| - 1], c) + [sorted[|sorted| - 1]]
  }

  function Sorted(cs: seq<DayCert>): seq<DayCert> {
    if cs == [] then [] else Insert(Sorted(cs[..|cs| - 1]), cs[|cs| - 1])
  }

  predicate DaySeen(cs: seq<DayCert>, day: Option<int>) { exists i :: 0 <= i < |cs| && cs[i].day == day }

  predicate Declared(gaps: seq<Gap>, day: int) { exists i :: 0 <= i < |gaps| && gaps[i].day == Some(day) }

  predicate AllDeclared(gaps: seq<Gap>, a: int, b: int) { forall d :: a < d < b ==> Declared(gaps, d) }

  function WithoutReason(gaps: seq<Gap>): seq<Code> {
    if gaps == [] then []
    else WithoutReason(gaps[..|gaps| - 1]) + if gaps[|gaps| - 1].hasReason then [] else [GAP_WITHOUT_REASON]
  }

  function If(b: bool, c: Code): seq<Code> { if b then [c] else [] }

  /** What one certificate adds, given the ones before it. */
  function StepFindings(before: seq<DayCert>, c: DayCert): seq<Code> {
    var prevHash := if before == [] then None else before[|before| - 1].hash;
    var prevDay := if before == [] then None else before[|before| - 1].day;
    If(DaySeen(before, c.day), SERIES_DUPLICATE_DAY)
    + If(c.prev.Some? && c.prev == c.hash, SERIES_SELF_REFERENCE)
    + If(prevHash.Some? && c.prev != prevHash, SERIES_BROKEN)
    + If(prevDay.Some? && c.day.Some? && !AllDeclared(c.gaps, prevDay.value, c.day.value), GAP_UNDECLARED)
    + WithoutReason(c.gaps)
  }

  function Walk(cs: seq<DayCert>): seq<Code> {
    if cs == [] then [] else Walk(cs[..|cs| - 1]) + StepFindings(cs[..|cs| - 1], cs[|cs| - 1])
  }

  /** None is SERIES_EMPTY: nothing to evaluate. */
  function Verdict(cs: seq<DayCert>): Option<seq<Code>> {
    if cs == [] then None else Some(Walk(Sorted(cs)))
  }

  /** The first undeclared day strictly between two days, if any. */
  method FirstUndeclared(gaps: seq<Gap>, a: int, b: int) returns (d: Option<int>)
    ensures d.None? <==> AllDeclared(gaps, a, b)
    ensures d.Some? ==> a < d.value < b && !Declared(gaps, d.value) && AllDeclared(gaps, a, d.value)
  {
    var cur := a + 1;
    while cur < b
      invariant a < cur && AllDeclared(gaps, a, cur)
      decreases b - cur
    {
      if !Declared(gaps, cur) { return Some(cur); }
      cur := cur + 1;
    }
    d := None;
  }

  method VerifySeries(certs: seq<DayCert>) returns (found: Option<seq<Code>>)
    ensures found == Verdict(certs)
  {
    hide StepFindings, DaySeen, Sorted;
    var ordered := Sorted(certs);
    SortedNonempty(certs);
    NoDaySeen();
    if ordered == [] { return None; }
    var codes: seq<Code>, seen: set<Option<int>> := [], {};
    var prevHash: Option<string>, prevDay: Option<int> := None, None;
    var i := 0;
    while i < |ordered|
      invariant 0 <= i <= |ordered|
      invariant codes == Walk(ordered[..i])
      invariant forall d :: d in seen <==> DaySeen(ordered[..i], d)
      invariant prevHash == (if i == 0 then None else ordered[i - 1].hash)
      invariant prevDay == (if i == 0 then None else ordered[i - 1].day)
    {
      var c := ordered[i];
      assert ordered[..i + 1][..i] == ordered[..i];
      var more := CheckOne(ordered[..i], c, seen, prevHash, prevDay);
      codes := codes + more;
      SeenMore(ordered[..i], c);
      assert ordered[..i + 1] == ordered[..i] + [c];
      seen, prevHash, prevDay := seen + {c.day}, c.hash, c.day;
      i := i + 1;
    }
    assert ordered[..|ordered|] == ordered;
    found := Some(codes);
  }

  method CheckOne(ghost before: seq<DayCert>, c: DayCert, seen: set<Option<int>>, prevHash: Option<string>,
                  prevDay: Option<int>)
    returns (codes: seq<Code>)
    requires c.day in seen <==> DaySeen(before, c.day)
    requires prevHash == (if before == [] then None else before[|before| - 1].hash)
    requires prevDay == (if before == [] then None else before[|before| - 1].day)
    ensures codes == StepFindings(before, c)
  {
    hide DaySeen, AllDeclared, If, WithoutReason;
    codes := If(c.day in seen, SERIES_DUPLICATE_DAY);
    codes := codes + If(c.prev.Some? && c.prev == c.hash, SERIES_SELF_REFERENCE);
    codes := codes + If(prevHash.Some? && c.prev != prevHash, SERIES_BROKEN);
    var undeclared: Option<int> := None;
    if prevDay.Some? && c.day.Some? {
      undeclared := FirstUndeclared(c.gaps, prevDay.value, c.day.value);
    }
    codes := codes + If(undeclared.Some?, GAP_UNDECLARED);
    var reasons := CheckReasons(c.gaps);
    codes := codes + reasons;
  }

  method CheckReasons(gaps: seq<Gap>) returns (codes: seq<Code>)
    ensures codes == WithoutReason(gaps)
  {
    codes := [];
    var i := 0;
    while i < |gaps|
      invariant 0 <= i <= |gaps|
      invariant codes == WithoutReason(gaps[..i])
    {
      assert gaps[..i + 1][..i] == gaps[..i];
      if !gaps[i].hasReason { codes := codes + [GAP_WITHOUT_REASON]; }
      i := i + 1;
    }
    assert gaps[..|gaps|] == gaps;
  }

  lemma {:induction false} SeenMore(cs: seq<DayCert>, c: DayCert)
    ensures forall d :: DaySeen(cs + [c], d) <==> DaySeen(cs, d) || c.day == d
  {
    forall d
      ensures DaySeen(cs + [c], d) <==> DaySeen(cs, d) || c.day == d
    {
      if DaySeen(cs, d) {
        var i :| 0 <= i < |cs| && cs[i].day == d;
        assert (cs + [c])[i].day == d;
      }
      if c.day == d {
        assert (cs + [c])[|cs|].day == d;
      }
    }
  }

  lemma {:induction false} NoDaySeen()
    ensures forall d :: !DaySeen([], d)
  {
  }

  lemma {:induction false} SortedNonempty(cs: seq<DayCert>)
    ensures Sorted(cs) == [] <==> cs == []
  {
  }

  // ------------------------------------------------------------------ soundness

  predicate Ordered(cs: seq<DayCert>) {
    forall i, j :: 0 <= i < j < |cs| ==> AtMost(cs[i].day, cs[j].day)
  }

  lemma {:induction false} InsertKeeps(sorted: seq<DayCert>, c: DayCert)
    ensures multiset(Insert(sorted, c)) == multiset(sorted) + multiset{c}
    ensures forall x :: x in Insert(sorted, c) <==> x in sorted || x == c
    decreases |sorted|
  {
    if sorted != [] && !AtMost(sorted[|sorted| - 1].day, c.day) {
      var init, last := sorted[..|sorted| - 1], sorted[|sorted| - 1];
      InsertKeeps(init, c);
      assert sorted == init + [last];
    }
  }

  lemma {:induction false} OrderedOne(s: seq<DayCert>, c: DayCert)
    requires Ordered(s) && forall x :: x in s ==> AtMost(x.day, c.day)
    ensures Ordered(s + [c])
  {
    forall i, j | 0 <= i < j < |s + [c]|
      ensures AtMost((s + [c])[i].day, (s + [c])[j].day)
    {
      assert (s + [c])[i] in s;
    }
  }

  lemma {:induction false} InsertOrders(sorted: seq<DayCert>, c: DayCert)
    requires Ordered(sorted)
    ensures Ordered(Insert(sorted, c))
    decreases |sorted|
  {
    if sorted != [] {
      var init, last := sorted[..|sorted| - 1], sorted[|sorted| - 1];
      forall x | x in sorted
        ensures AtMost(x.day, last.day)
      {
        var i :| 0 <= i < |sorted| && sorted[i] == x;
      }
      if AtMost(last.day, c.day) {
        OrderedOne(sorted, c);
      } else {
        InsertOrders(init, c);
        InsertKeeps(init, c);
        OrderedOne(Insert(init, c), last);
      }
    }
  }

  lemma {:induction false} SortedOrders(cs: seq<DayCert>)
    ensures Ordered(Sorted(cs)) && multiset(Sorted(cs)) == multiset(cs)
    decreases |cs|
  {
    if cs != [] {
      SortedOrders(cs[..|cs| - 1]);
      InsertOrders(Sorted(cs[..|cs| - 1]), cs[|cs| - 1]);
      InsertKeeps(Sorted(cs[..|cs| - 1]), cs[|cs| - 1]);
      assert cs == cs[..|cs| - 1] + [cs[|cs| - 1]];
    }
  }

  predicate Reasoned(gaps: seq<Gap>) { forall i :: 0 <= i < |gaps| ==> gaps[i].hasReason }

  lemma {:induction false} ReasonsGiven(gaps: seq<Gap>)
    ensures WithoutReason(gaps) == [] <==> Reasoned(gaps)
    decreases |gaps|
  {
    if gaps != [] {
      ReasonsGiven(gaps[..|gaps| - 1]);
    }
  }

  /** The certificate follows the one before it: a later day, its hash, and every day between declared. */
  predicate FollowsOn(p: DayCert, c: DayCert) {
    && p.day.Some? && c.day.Some? && p.day.value < c.day.value
    && c.prev == p.hash
    && AllDeclared(c.gaps, p.day.value, c.day.value)
  }

  predicate Sane(c: DayCert) { Reasoned(c.gaps) && !(c.prev.Some? && c.prev == c.hash) }

  /** One unbroken series. */
  ghost predicate Unbroken(cs: seq<DayCert>) {
    && (forall i :: 0 <= i < |cs| ==> Sane(cs[i]))
    && (forall i :: 0 < i < |cs| ==> FollowsOn(cs[i - 1], cs[i]))
  }

  predicate Complete(cs: seq<DayCert>) { forall i :: 0 <= i < |cs| ==> cs[i].day.Some? && cs[i].hash.Some? }

  lemma {:induction false} StepSound(before: seq<DayCert>, c: DayCert)
    requires Complete(before) && c.day.Some? && c.hash.Some? && Ordered(before + [c]) && Unbroken(before)
    ensures StepFindings(before, c) == [] <==> Sane(c) && (before != [] ==> FollowsOn(before[|before| - 1], c))
  {
    hide AllDeclared, Reasoned;
    ReasonsGiven(c.gaps);
    var all := before + [c];
    if before != [] {
      var last := before[|before| - 1];
      assert AtMost(all[|before| - 1].day, all[|before|].day);
      if DaySeen(before, c.day) {
        var i :| 0 <= i < |before| && before[i].day == c.day;
        assert i < |before| - 1 ==> AtMost(all[i].day, all[|before| - 1].day);
      } else {
        assert last.day != c.day;
      }
      if last.day.value < c.day.value {
        forall i | 0 <= i < |before|
          ensures before[i].day != c.day
        {
          assert i < |before| - 1 ==> AtMost(all[i].day, all[|before| - 1].day);
        }
      }
    }
  }

  lemma {:induction false} WalkSound(cs: seq<DayCert>)
    requires Complete(cs) && Ordered(cs)
    ensures Walk(cs) == [] <==> Unbroken(cs)
    decreases |cs|
  {
    if cs != [] {
      var init, last := cs[..|cs| - 1], cs[|cs| - 1];
      assert cs == init + [last];
      WalkSound(init);
      if Unbroken(init) {
        StepSound(init, last);
        UnbrokenOne(init, last);
      } else {
        assert !Unbroken(cs) by { UnbrokenShorter(init, last); }
      }
    }
  }

  lemma {:induction false} UnbrokenOne(init: seq<DayCert>, last: DayCert)
    requires Unbroken(init)
    ensures Unbroken(init + [last]) <==> Sane(last) && (init != [] ==> FollowsOn(init[|init| - 1], last))
  {
    hide FollowsOn, Sane;
    var cs := init + [last];
    if Unbroken(cs) {
      assert Sane(cs[|init|]);
      assert init != [] ==> FollowsOn(cs[|init| - 1], cs[|init|]);
    }
  }

  lemma {:induction false} UnbrokenShorter(init: seq<DayCert>, last: DayCert)
    ensures Unbroken(init + [last]) ==> Unbroken(init)
  {
    hide FollowsOn, Sane;
    var cs := init + [last];
    if Unbroken(cs) {
      forall i | 0 <= i < |init|
        ensures Sane(init[i]) && (i > 0 ==> FollowsOn(init[i - 1], init[i]))
      {
        assert Sane(cs[i]);
        assert i > 0 ==> FollowsOn(cs[i - 1], cs[i]);
      }
    }
  }

  /** The days between two certificates of an unbroken series that the series accounts for. */
  ghost predicate AccountedFor(cs: seq<DayCert>, d: int) {
    || DaySeen(cs, Some(d))
    || exists i :: 0 < i < |cs| && cs[i - 1].day.Some? && cs[i].day.Some? && cs[i - 1].day.value < d < cs[i].day.value
        && GivenReason(cs[i].gaps, d)
  }

  predicate GivenReason(gaps: seq<Gap>, d: int) { exists k :: 0 <= k < |gaps| && gaps[k] == Gap(Some(d), true) }

  lemma {:induction false} DeclaredWithReason(gaps: seq<Gap>, d: int)
    requires Reasoned(gaps) && Declared(gaps, d)
    ensures GivenReason(gaps, d)
  {
    var k :| 0 <= k < |gaps| && gaps[k].day == Some(d);
    assert gaps[k] == Gap(Some(d), true);
  }

  lemma {:induction false} EveryDay(cs: seq<DayCert>, n: nat, d: int)
    requires Unbroken(cs) && Complete(cs) && n < |cs|
    requires cs[0].day.value <= d <= cs[n].day.value
    ensures AccountedFor(cs, d)
    decreases n
  {
    if d == cs[n].day.value {
      assert cs[n].day == Some(d);
    } else if n > 0 {
      assert FollowsOn(cs[n - 1], cs[n]) && Sane(cs[n]);
      if d <= cs[n - 1].day.value {
        EveryDay(cs, n - 1, d);
      } else {
        DeclaredWithReason(cs[n].gaps, d);
      }
    }
  }

  /** A series of certificates with days and hashes is free of contradictions exactly if, in day order, the days
      strictly increase, each carries its predecessor's hash, none names itself, and every gap between neighbours is
      declared day by day with reasons. Then every calendar day from the first to the last is certified or declared,
      with a reason, by the next certificate. */
  lemma {:induction false} SeriesSound(certs: seq<DayCert>)
    requires certs != [] && Complete(certs)
    ensures var cs := Sorted(certs);
            && multiset(cs) == multiset(certs) && |cs| > 0 && Complete(cs)
            && (Verdict(certs) == Some([]) <==> Unbroken(cs))
            && (Verdict(certs) == Some([]) ==>
                  forall d :: cs[0].day.value <= d <= cs[|cs| - 1].day.value ==> AccountedFor(cs, d))
  {
    hide Walk, Unbroken, AccountedFor, Ordered;
    var cs := Sorted(certs);
    SortedOrders(certs);
    SortedNonempty(certs);
    forall i | 0 <= i < |cs|
      ensures cs[i].day.Some? && cs[i].hash.Some?
    {
      assert cs[i] in multiset(cs);
      assert cs[i] in certs;
    }
    WalkSound(cs);
    if Unbroken(cs) {
      forall d | cs[0].day.value <= d <= cs[|cs| - 1].day.value
        ensures AccountedFor(cs, d)
      {
        EveryDay(cs, |cs| - 1, d);
      }
    }
  }

  // ------------------------------------------------------------------ the order they are handed in

  ghost predicate DistinctDays(cs: seq<DayCert>) {
    forall i, j :: 0 <= i < j < |cs| ==> cs[i].day != cs[j].day
  }

  ghost predicate ByDay(m: multiset<DayCert>) {
    forall x, y :: x in m && y in m && x.day == y.day ==> x == y
  }

  /** The last of the ordered certificates is the one of the greatest day. */
  lemma {:induction false} SameLast(a: seq<DayCert>, b: seq<DayCert>)
    requires Ordered(a) && Ordered(b) && multiset(a) == multiset(b) && a != [] && b != []
    requires ByDay(multiset(a))
    ensures a[|a| - 1] == b[|b| - 1]
  {
    var la, lb := a[|a| - 1], b[|b| - 1];
    assert la in multiset(a) && lb in multiset(b);
    assert la in b && lb in a;
    var i :| 0 <= i < |b| && b[i] == la;
    var j :| 0 <= j < |a| && a[j] == lb;
    assert AtMost(la.day, lb.day);
    assert AtMost(lb.day, la.day);
  }

  lemma {:induction false} WithoutSame(a: seq<DayCert>)
    requires a != []
    ensures multiset(a[..|a| - 1]) == multiset(a) - multiset{a[|a| - 1]}
    ensures forall x :: x in multiset(a[..|a| - 1]) ==> x in multiset(a)
  {
    assert a == a[..|a| - 1] + [a[|a| - 1]];
  }

  lemma {:induction false} SameSize(a: seq<DayCert>, b: seq<DayCert>)
    requires multiset(a) == multiset(b)
    ensures |a| == |b|
  {
    assert |a| == |multiset(a)| && |b| == |multiset(b)|;
  }

  lemma {:induction false} OrderedShorter(a: seq<DayCert>)
    requires a != [] && Ordered(a)
    ensures Ordered(a[..|a| - 1])
  {
    hide AtMost;
    var init := a[..|a| - 1];
    assert forall i :: 0 <= i < |init| ==> init[i] == a[i];
  }

  lemma {:induction false} ByDayShorter(a: seq<DayCert>)
    requires a != [] && ByDay(multiset(a))
    ensures ByDay(multiset(a[..|a| - 1]))
  {
    WithoutSame(a);
  }

  lemma {:induction false} SameOrder(a: seq<DayCert>, b: seq<DayCert>)
    requires Ordered(a) && Ordered(b) && multiset(a) == multiset(b) && ByDay(multiset(a))
    ensures a == b
    decreases |a|
  {
    hide Ordered, ByDay;
    SameSize(a, b);
    if a != [] {
      SameLast(a, b);
      OrderedShorter(a);
      OrderedShorter(b);
      ByDayShorter(a);
      WithoutSame(a);
      WithoutSame(b);
      assert a == a[..|a| - 1] + [a[|a| - 1]] && b == b[..|b| - 1] + [b[|b| - 1]];
      SameOrder(a[..|a| - 1], b[..|b| - 1]);
    }
  }

  lemma {:induction false} DayDetermines(cs: seq<DayCert>)
    requires DistinctDays(cs)
    ensures ByDay(multiset(cs))
  {
    forall x, y | x in multiset(cs) && y in multiset(cs) && x.day == y.day
      ensures x == y
    {
      assert x in cs && y in cs;
      var i :| 0 <= i < |cs| && cs[i] == x;
      var j :| 0 <= j < |cs| && cs[j] == y;
    }
  }

  /** For distinct days the verdict does not depend on the order the certificates are handed in. */
  lemma {:induction false} OrderDoesNotMatter(a: seq<DayCert>, b: seq<DayCert>)
    requires multiset(a) == multiset(b) && DistinctDays(a)
    ensures Verdict(a) == Verdict(b)
  {
    hide Walk, Insert, Ordered, DistinctDays;
    SortedOrders(a);
    SortedOrders(b);
    DayDetermines(a);
    SameOrder(Sorted(a), Sorted(b));
    assert |a| == |multiset(a)| == |multiset(b)| == |b|;
  }
}
