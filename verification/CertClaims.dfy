/** Claim recomputation: the figures of a certificate counted from the events in its range, and the fail-closed
    episodes the events tell of. */
module CertClaims {
  import opened Options
  import opened CertChain

  predicate IsBoundary(k: Kind) { k.FailClosedEntered? || k.FailClosedCleared? }

  /** What can be part of an episode's story: neither testimony about a person nor a boundary. */
  predicate IsStory(k: Kind) { !k.Human? && !IsBoundary(k) }

  // ------------------------------------------------------------------ the rows of a range, by seq

  /** Stable: a row goes behind every row of its seq. */
  function Insert(sorted: seq<Row>, r: Row): seq<Row>
    requires r.seqNo.Some? && forall i :: 0 <= i < |sorted| ==> sorted[i].seqNo.Some?
  {
    if sorted == [] || sorted[|sorted| - 1].seqNo.value <= r.seqNo.value then sorted + [r]
    else Insert(sorted[..|sorted| - 1], r) + [sorted[|sorted| - 1]]
  }

  function InRange(rows: seq<Row>, a: int, b: int): (s: seq<Row>)
    ensures forall i :: 0 <= i < |s| ==> s[i].seqNo.Some?
  {
    if rows == [] then []
    else
      var before := InRange(rows[..|rows| - 1], a, b);
      var last := rows[|rows| - 1];
      if In(last, a, b) then
        InsertKeepsSeqs(before, last);
        Insert(before, last)
      else before
  }

  lemma {:induction false} InsertKeepsSeqs(sorted: seq<Row>, r: Row)
    requires r.seqNo.Some? && forall i :: 0 <= i < |sorted| ==> sorted[i].seqNo.Some?
    ensures forall i :: 0 <= i < |Insert(sorted, r)| ==> Insert(sorted, r)[i].seqNo.Some?
    decreases |sorted|
  {
    if sorted != [] && sorted[|sorted| - 1].seqNo.value > r.seqNo.value {
      InsertKeepsSeqs(sorted[..|sorted| - 1], r);
    }
  }

  // ------------------------------------------------------------------ episodes

  /** One fail-closed episode. `first` and `last` are the positions of the rows that open and close it, `preceding`
      that of the story row directly before it, if any; the certificate carries the other fields. */
  datatype Episode = Episode(fromSeq: int, toSeq: int, open: bool, reasons: multiset<Kind>,
                             precedingSeq: Option<int>, precedingEvent: Option<Kind>,
                             first: nat, last: nat, preceding: Option<nat>)

  /** The last row that is not testimony. */
  function LastRow(rows: seq<Row>): (p: Option<nat>)
    ensures p.Some? ==> p.value < |rows| && !rows[p.value].kind.Human?
  {
    if rows == [] then None
    else if rows[|rows| - 1].kind.Human? then LastRow(rows[..|rows| - 1])
    else Some(|rows| - 1)
  }

  function Opened(before: seq<Row>, r: Row): Episode
    requires r.seqNo.Some? && forall i :: 0 <= i < |before| ==> before[i].seqNo.Some?
  {
    var j := LastRow(before);
    if j.Some? && !IsBoundary(before[j.value].kind) then
      Episode(r.seqNo.value, 0, true, multiset{before[j.value].kind}, before[j.value].seqNo, Some(before[j.value].kind),
              |before|, |before|, j)
    else Episode(r.seqNo.value, 0, true, multiset{}, None, None, |before|, |before|, None)
  }

  datatype Story = Story(done: seq<Episode>, current: Option<Episode>)

  /** One row further. */
  function Told(s: Story, before: seq<Row>, r: Row): Story
    requires r.seqNo.Some? && forall i :: 0 <= i < |before| ==> before[i].seqNo.Some?
  {
    if r.kind.FailClosedEntered? then (if s.current.None? then s.(current := Some(Opened(before, r))) else s)
    else if s.current.None? then s
    else if r.kind.FailClosedCleared? then
      Story(s.done + [s.current.value.(toSeq := r.seqNo.value, open := false, last := |before|)], None)
    else if r.kind.Human? then s
    else s.(current := Some(s.current.value.(reasons := s.current.value.reasons + multiset{r.kind})))
  }

  function Tell(rows: seq<Row>): Story
    requires forall i :: 0 <= i < |rows| ==> rows[i].seqNo.Some?
  {
    if rows == [] then Story([], None)
    else Told(Tell(rows[..|rows| - 1]), rows[..|rows| - 1], rows[|rows| - 1])
  }

  /** An episode never cleared stays open to the end of the range. */
  function Episodes(rows: seq<Row>, b: int): seq<Episode>
    requires forall i :: 0 <= i < |rows| ==> rows[i].seqNo.Some?
  {
    var s := Tell(rows);
    s.done + if s.current.Some? then [s.current.value.(toSeq := b, last := |rows|)] else []
  }

  // ------------------------------------------------------------------ the claims

  function CountOf(rows: seq<Row>, k: Kind): nat {
    if rows == [] then 0 else CountOf(rows[..|rows| - 1], k) + if rows[|rows| - 1].kind == k then 1 else 0
  }

  function RejectedIds(rows: seq<Row>): set<string> {
    if rows == [] then {}
    else
      var r := rows[|rows| - 1];
      RejectedIds(rows[..|rows| - 1]) + if r.kind.OrderRejectedLocked? && r.orderId.Some? then {r.orderId.value} else {}
  }

  datatype Status = Respected | Breached | Undetermined

  /** An episode as the certificate carries it. */
  datatype Published = Published(fromSeq: int, toSeq: int, open: bool, reasons: multiset<Kind>,
                                 precedingSeq: Option<int>, precedingEvent: Option<Kind>)

  function Publish(e: Episode): Published {
    Published(e.fromSeq, e.toSeq, e.open, e.reasons, e.precedingSeq, e.precedingEvent)
  }

  function PublishAll(es: seq<Episode>): (ps: seq<Published>)
    ensures |ps| == |es|
    ensures forall i :: 0 <= i < |es| ==> ps[i] == Publish(es[i])
  {
    seq(|es|, i requires 0 <= i < |es| => Publish(es[i]))
  }

  datatype Claims = Claims(lockouts: nat, changeAttempts: nat, ordersRejected: nat, episodes: seq<Published>,
                           anomalies: nat, suspects: nat, respected: bool, status: Status)

  function AnyOpen(es: seq<Published>): bool { exists i :: 0 <= i < |es| && es[i].open }

  function ClaimsOf(rows: seq<Row>, b: int, chainOk: bool): Claims
    requires forall i :: 0 <= i < |rows| ==> rows[i].seqNo.Some?
  {
    var lockouts := CountOf(rows, LimitBreached);
    var episodes := PublishAll(Episodes(rows, b));
    var open := AnyOpen(episodes);
    Claims(lockouts, CountOf(rows, ConfigChangeRejected), |RejectedIds(rows)|, episodes,
           CountOf(rows, ClockAnomaly), CountOf(rows, ClockSuspect),
           lockouts == 0 && !open && chainOk,
           if lockouts > 0 then Breached else if open || !chainOk then Undetermined else Respected)
  }

  function Recomputed(rows: seq<Row>, a: int, b: int, chainOk: bool): Claims {
    ClaimsOf(InRange(rows, a, b), b, chainOk)
  }

  /** `recompute_claims`. */
  method RecomputeClaims(entries: seq<Row>, a: int, b: int, chainOk: bool) returns (c: Claims)
    ensures c == Recomputed(entries, a, b, chainOk)
  {
    hide CountOf, RejectedIds, Episodes;
    var rows := InRange(entries, a, b);
    var lockouts := CountOf(rows, LimitBreached);
    var episodes := TellEpisodes(rows, b);
    var published := PublishAll(episodes);
    var open := AnyOpen(published);
    var status := if lockouts > 0 then Breached else if open || !chainOk then Undetermined else Respected;
    c := Claims(lockouts, CountOf(rows, ConfigChangeRejected), |RejectedIds(rows)|, published,
                CountOf(rows, ClockAnomaly), CountOf(rows, ClockSuspect), lockouts == 0 && !open && chainOk, status);
  }

  /** One pass over the rows of the range, looking back for the preceding row of each episode. */
  method TellEpisodes(rows: seq<Row>, b: int) returns (episodes: seq<Episode>)
    requires Numbered(rows)
    ensures episodes == Episodes(rows, b)
  {
    hide Opened;
    var current: Option<Episode> := None;
    episodes := [];
    var idx := 0;
    while idx < |rows|
      invariant 0 <= idx <= |rows|
      invariant Story(episodes, current) == Tell(rows[..idx])
    {
      var r := rows[idx];
      assert rows[..idx + 1][..idx] == rows[..idx];
      if r.kind.FailClosedEntered? {
        if current.None? {
          var episode := Open(rows, idx);
          current := Some(episode);
        }
      } else if r.kind.FailClosedCleared? && current.Some? {
        episodes := episodes + [current.value.(toSeq := r.seqNo.value, open := false, last := idx)];
        current := None;
      } else if current.Some? && !IsBoundary(r.kind) && !r.kind.Human? {
        current := Some(current.value.(reasons := current.value.reasons + multiset{r.kind}));
      }
      idx := idx + 1;
    }
    assert rows[..|rows|] == rows;
    if current.Some? {
      episodes := episodes + [current.value.(toSeq := b, last := |rows|)];
    }
  }

  method Open(rows: seq<Row>, idx: nat) returns (e: Episode)
    requires idx < |rows| && forall i :: 0 <= i < |rows| ==> rows[i].seqNo.Some?
    ensures e == Opened(rows[..idx], rows[idx])
  {
    var j := idx - 1;
    while j >= 0 && rows[j].kind.Human?
      invariant -1 <= j < idx
      invariant LastRow(rows[..j + 1]) == LastRow(rows[..idx])
    {
      assert rows[..j + 1][..j] == rows[..j];
      j := j - 1;
    }
    var r := rows[idx];
    if j >= 0 && !IsBoundary(rows[j].kind) {
      e := Episode(r.seqNo.value, 0, true, multiset{rows[j].kind}, rows[j].seqNo, Some(rows[j].kind), idx, idx,
                   Some(j));
    } else {
      e := Episode(r.seqNo.value, 0, true, multiset{}, None, None, idx, idx, None);
    }
  }

  // ------------------------------------------------------------------ testimony changes nothing

  function WithoutHumans(rows: seq<Row>): seq<Row> {
    if rows == [] then []
    else WithoutHumans(rows[..|rows| - 1]) + if rows[|rows| - 1].kind.Human? then [] else [rows[|rows| - 1]]
  }

  lemma {:induction false} WithoutOne(rows: seq<Row>, r: Row)
    ensures r.kind.Human? ==> WithoutHumans(rows + [r]) == WithoutHumans(rows)
    ensures !r.kind.Human? ==> WithoutHumans(rows + [r]) == WithoutHumans(rows) + [r]
  {
    assert (rows + [r])[..|rows|] == rows;
    assert WithoutHumans(rows) + [] == WithoutHumans(rows);
  }

  /** The last row, taken off on either side. */
  lemma {:induction false} WithoutLast(rows: seq<Row>)
    requires rows != []
    ensures var init, last := rows[..|rows| - 1], rows[|rows| - 1];
            && rows == init + [last]
            && (last.kind.Human? ==> WithoutHumans(rows) == WithoutHumans(init))
            && (!last.kind.Human? ==>
                  var kept := WithoutHumans(init);
                  && WithoutHumans(rows) == kept + [last]
                  && (kept + [last])[..|kept|] == kept && (kept + [last])[|kept|] == last)
  {
    WithoutOne(rows[..|rows| - 1], rows[|rows| - 1]);
    assert rows == rows[..|rows| - 1] + [rows[|rows| - 1]];
  }

  predicate Numbered(rows: seq<Row>) { forall i :: 0 <= i < |rows| ==> rows[i].seqNo.Some? }

  lemma {:induction false} WithoutNumbered(rows: seq<Row>)
    requires Numbered(rows)
    ensures Numbered(WithoutHumans(rows))
    decreases |rows|
  {
    if rows != [] {
      WithoutNumbered(rows[..|rows| - 1]);
    }
  }

  predicate SortedRows(rows: seq<Row>) {
    Numbered(rows) && forall i, j :: 0 <= i < j < |rows| ==> rows[i].seqNo.value <= rows[j].seqNo.value
  }

  lemma {:induction false} InsertContents(sorted: seq<Row>, r: Row)
    requires SortedRows(sorted) && r.seqNo.Some?
    ensures SortedRows(Insert(sorted, r))
    ensures forall x :: x in Insert(sorted, r) <==> x in sorted || x == r
    decreases |sorted|
  {
    if sorted != [] && sorted[|sorted| - 1].seqNo.value > r.seqNo.value {
      var init, last := sorted[..|sorted| - 1], sorted[|sorted| - 1];
      assert init + [last] == sorted;
      InsertContents(init, r);
      var s := Insert(init, r);
      forall i | 0 <= i < |s|
        ensures s[i].seqNo.value <= last.seqNo.value
      {
        assert s[i] in s;
      }
    }
  }

  lemma {:induction false} RangeSorted(rows: seq<Row>, a: int, b: int)
    ensures SortedRows(InRange(rows, a, b))
    decreases |rows|
  {
    if rows != [] {
      RangeSorted(rows[..|rows| - 1], a, b);
      if In(rows[|rows| - 1], a, b) {
        InsertContents(InRange(rows[..|rows| - 1], a, b), rows[|rows| - 1]);
      }
    }
  }

  lemma {:induction false} WithoutSubset(rows: seq<Row>)
    ensures forall x :: x in WithoutHumans(rows) <==> x in rows && !x.kind.Human?
    decreases |rows|
  {
    if rows != [] {
      WithoutSubset(rows[..|rows| - 1]);
      assert rows == rows[..|rows| - 1] + [rows[|rows| - 1]];
    }
  }

  /** Sorting by seq and leaving the testimony out commute. */
  lemma {:induction false} InsertWithout(sorted: seq<Row>, r: Row)
    requires SortedRows(sorted) && r.seqNo.Some?
    ensures Numbered(WithoutHumans(sorted))
    ensures WithoutHumans(Insert(sorted, r))
            == if r.kind.Human? then WithoutHumans(sorted) else Insert(WithoutHumans(sorted), r)
    decreases |sorted|
  {
    WithoutNumbered(sorted);
    if sorted == [] || sorted[|sorted| - 1].seqNo.value <= r.seqNo.value {
      WithoutOne(sorted, r);
      WithoutBelow(sorted, r);
    } else {
      var init, last := sorted[..|sorted| - 1], sorted[|sorted| - 1];
      InsertWithout(init, r);
      WithoutLast(sorted);
      WithoutOne(Insert(init, r), last);
      WithoutNumbered(init);
      if !last.kind.Human? {
        InsertBefore(WithoutHumans(init), last, r);
      }
    }
  }

  lemma {:induction false} InsertBefore(kept: seq<Row>, last: Row, r: Row)
    requires Numbered(kept) && last.seqNo.Some? && r.seqNo.Some? && last.seqNo.value > r.seqNo.value
    ensures Insert(kept + [last], r) == Insert(kept, r) + [last]
  {
    assert (kept + [last])[..|kept|] == kept;
  }

  lemma {:induction false} WithoutBelow(sorted: seq<Row>, r: Row)
    requires SortedRows(sorted) && r.seqNo.Some? && (sorted == [] || sorted[|sorted| - 1].seqNo.value <= r.seqNo.value)
    ensures Numbered(WithoutHumans(sorted))
    ensures forall x :: x in WithoutHumans(sorted) ==> x.seqNo.Some? && x.seqNo.value <= r.seqNo.value
    ensures forall x :: x in sorted ==> x.seqNo.value <= r.seqNo.value
  {
    WithoutNumbered(sorted);
    WithoutSubset(sorted);
    forall x | x in sorted
      ensures x.seqNo.Some? && x.seqNo.value <= r.seqNo.value
    {
      var i :| 0 <= i < |sorted| && sorted[i] == x;
    }
  }

  lemma {:induction false} RangeWithout(rows: seq<Row>, a: int, b: int)
    ensures WithoutHumans(InRange(rows, a, b)) == InRange(WithoutHumans(rows), a, b)
    decreases |rows|
  {
    if rows != [] {
      hide InRange, WithoutHumans, Insert;
      var init, last := rows[..|rows| - 1], rows[|rows| - 1];
      RangeWithout(init, a, b);
      RangeSorted(init, a, b);
      WithoutLast(rows);
      if In(last, a, b) {
        InsertWithout(InRange(init, a, b), last);
      }
    } else {
      NoRange(a, b);
    }
  }

  lemma {:induction false} NoRange(a: int, b: int)
    ensures WithoutHumans(InRange([], a, b)) == InRange(WithoutHumans([]), a, b)
  {
  }

  lemma {:induction false} CountOne(rows: seq<Row>, r: Row, k: Kind)
    ensures CountOf(rows + [r], k) == CountOf(rows, k) + if r.kind == k then 1 else 0
    ensures !r.kind.OrderRejectedLocked? ==> RejectedIds(rows + [r]) == RejectedIds(rows)
    ensures r.kind.OrderRejectedLocked? ==>
              RejectedIds(rows + [r]) == RejectedIds(rows) + if r.orderId.Some? then {r.orderId.value} else {}
  {
    assert (rows + [r])[..|rows|] == rows;
  }

  lemma {:induction false} CountWithout(rows: seq<Row>, k: Kind)
    requires !k.Human?
    ensures CountOf(WithoutHumans(rows), k) == CountOf(rows, k)
    ensures RejectedIds(WithoutHumans(rows)) == RejectedIds(rows)
    decreases |rows|
  {
    if rows != [] {
      hide WithoutHumans, CountOf, RejectedIds;
      var init, last := rows[..|rows| - 1], rows[|rows| - 1];
      CountWithout(init, k);
      WithoutLast(rows);
      CountOne(init, last, k);
      CountOne(WithoutHumans(init), last, k);
    } else {
      assert WithoutHumans([]) == [] by { NoRange(0, 0); NothingWithout(); }
    }
  }

  lemma {:induction false} NothingWithout()
    ensures WithoutHumans([]) == []
  {
  }

  lemma {:induction false} LastRowWithout(rows: seq<Row>)
    ensures LastRow(rows).Some? <==> LastRow(WithoutHumans(rows)).Some?
    ensures LastRow(rows).Some? ==> WithoutHumans(rows)[LastRow(WithoutHumans(rows)).value] == rows[LastRow(rows).value]
    decreases |rows|
  {
    if rows != [] {
      var init, last := rows[..|rows| - 1], rows[|rows| - 1];
      hide WithoutHumans, LastRow;
      LastRowWithout(init);
      WithoutLast(rows);
    } else {
      NothingWithout();
    }
  }

  /** The same story, whatever the positions. */
  predicate SameStory(s: Story, t: Story) {
    && |s.done| == |t.done| && (forall i :: 0 <= i < |s.done| ==> Publish(s.done[i]) == Publish(t.done[i]))
    && (s.current.Some? <==> t.current.Some?)
    && (s.current.Some? ==> Publish(s.current.value) == Publish(t.current.value))
  }

  lemma {:induction false} SameTold(s: Story, t: Story, rows: seq<Row>, kept: seq<Row>, r: Row)
    requires Numbered(rows) && Numbered(kept) && r.seqNo.Some? && SameStory(s, t)
    requires LastRow(rows).Some? <==> LastRow(kept).Some?
    requires LastRow(rows).Some? ==> kept[LastRow(kept).value] == rows[LastRow(rows).value]
    ensures SameStory(Told(s, kept, r), Told(t, rows, r))
  {
    hide LastRow;
    var s', t' := Told(s, kept, r), Told(t, rows, r);
    forall i | 0 <= i < |s'.done|
      ensures |s'.done| == |t'.done| && Publish(s'.done[i]) == Publish(t'.done[i])
    {
    }
  }

  lemma {:induction false} TellWithout(rows: seq<Row>)
    requires Numbered(rows)
    ensures Numbered(WithoutHumans(rows)) && SameStory(Tell(WithoutHumans(rows)), Tell(rows))
    decreases |rows|
  {
    WithoutNumbered(rows);
    if rows != [] {
      hide WithoutHumans, Tell, SameStory, LastRow;
      var init, last := rows[..|rows| - 1], rows[|rows| - 1];
      TellWithout(init);
      WithoutLast(rows);
      if !last.kind.Human? {
        LastRowWithout(init);
        SameTold(Tell(WithoutHumans(init)), Tell(init), init, WithoutHumans(init), last);
      }
    } else {
      NothingWithout();
    }
  }

  /** Testimony changes no number: deleting every HUMAN_* row leaves the recomputed claims as they were, for every
      ledger, in whatever order its rows stand, and every range. */
  lemma {:induction false} TestimonyChangesNothing(rows: seq<Row>, a: int, b: int, chainOk: bool)
    ensures Recomputed(WithoutHumans(rows), a, b, chainOk) == Recomputed(rows, a, b, chainOk)
  {
    var all := InRange(rows, a, b);
    var kept := WithoutHumans(all);
    RangeWithout(rows, a, b);
    TellWithout(all);
    forall k: Kind | !k.Human?
      ensures CountOf(kept, k) == CountOf(all, k) && RejectedIds(kept) == RejectedIds(all)
    {
      CountWithout(all, k);
    }
    CountWithout(all, LimitBreached);
    CountWithout(all, ConfigChangeRejected);
    CountWithout(all, ClockAnomaly);
    CountWithout(all, ClockSuspect);
    assert PublishAll(Episodes(kept, b)) == PublishAll(Episodes(all, b));
  }

  // ------------------------------------------------------------------ what the episodes are

  /** The story rows strictly between two positions. */
  function Between(rows: seq<Row>, i: nat, j: nat): multiset<Kind>
    requires i <= j <= |rows|
    decreases j - i
  {
    if i == j then multiset{}
    else Between(rows, i, j - 1) + if IsStory(rows[j - 1].kind) then multiset{rows[j - 1].kind} else multiset{}
  }

  /** The rows an episode counts. */
  predicate Counts(rows: seq<Row>, e: Episode, p: nat) {
    p < |rows| && (e.preceding == Some(p) || (e.first < p < e.last && IsStory(rows[p].kind)))
  }

  /** One episode, read off the rows directly. `from` is where the episode before it ended. It opens at an ENTERED
      row and holds no CLEARED one; the preceding row is the story row before it with nothing but testimony between;
      its reasons are the story rows inside it and that one; it is closed by a CLEARED row or by the end. */
  ghost predicate Accounted(rows: seq<Row>, e: Episode, from: nat) {
    Spans(rows, e, from) && Preceded(rows, e, from) && Reasoned(rows, e) && Ends(rows, e)
  }

  ghost predicate Spans(rows: seq<Row>, e: Episode, from: nat) {
    && from <= e.first < e.last <= |rows| && rows[e.first].kind.FailClosedEntered?
        && rows[e.first].seqNo == Some(e.fromSeq)
    && (forall p :: e.first < p < e.last ==> !rows[p].kind.FailClosedCleared?)
  }

  ghost predicate Preceded(rows: seq<Row>, e: Episode, from: nat) {
    if e.preceding.Some? then
      var q := e.preceding.value;
      && from <= q < e.first < |rows| && IsStory(rows[q].kind)
      && e.precedingEvent == Some(rows[q].kind) && e.precedingSeq == rows[q].seqNo
      && (forall p :: q < p < e.first ==> rows[p].kind.Human?)
    else
      && e.precedingEvent == None && e.precedingSeq == None
      && e.first < |rows| && (forall p :: from <= p < e.first && IsStory(rows[p].kind) ==>
                                exists q :: p < q < e.first && IsBoundary(rows[q].kind))
  }

  ghost predicate Reasoned(rows: seq<Row>, e: Episode) {
    && e.first < e.last <= |rows| && (e.preceding.Some? ==> e.preceding.value < |rows|)
    && e.reasons == Between(rows, e.first + 1, e.last)
                    + if e.preceding.Some? then multiset{rows[e.preceding.value].kind} else multiset{}
  }

  ghost predicate Ends(rows: seq<Row>, e: Episode) {
    if e.open then e.last == |rows|
    else e.last < |rows| && rows[e.last].kind.FailClosedCleared? && rows[e.last].seqNo == Some(e.toSeq)
  }

  function EndOf(es: seq<Episode>, i: int): nat
    requires i <= |es|
  {
    if i <= 0 then 0 else es[i - 1].last + 1
  }

  ghost predicate WellTold(rows: seq<Row>, es: seq<Episode>) {
    && (forall i :: 0 <= i < |es| ==> Accounted(rows, es[i], EndOf(es, i)))
    && (forall i :: 0 <= i < |es| - 1 ==> !es[i].open)
  }

  lemma {:induction false} BetweenPrefix(rows: seq<Row>, more: seq<Row>, i: nat, j: nat)
    requires i <= j <= |rows| && rows <= more
    ensures Between(more, i, j) == Between(rows, i, j)
    decreases j - i
  {
    if i < j {
      BetweenPrefix(rows, more, i, j - 1);
      assert more[j - 1] == rows[j - 1];
    }
  }

  lemma {:induction false} SpansLonger(rows: seq<Row>, r: Row, e: Episode, from: nat)
    requires Spans(rows, e, from)
    ensures Spans(rows + [r], e, from)
    ensures e.last == |rows| && !r.kind.FailClosedCleared? ==> Spans(rows + [r], e.(last := |rows| + 1), from)
  {
  }

  lemma {:induction false} PrecededLonger(rows: seq<Row>, r: Row, e: Episode, from: nat)
    requires Preceded(rows, e, from)
    ensures Preceded(rows + [r], e, from)
  {
    var more := rows + [r];
    if e.preceding.None? {
      forall p | from <= p < e.first && IsStory(more[p].kind)
        ensures exists q :: p < q < e.first && IsBoundary(more[q].kind)
      {
        assert IsStory(rows[p].kind);
        var q :| p < q < e.first && IsBoundary(rows[q].kind);
        assert IsBoundary(more[q].kind);
      }
    }
  }

  lemma {:induction false} ReasonedLonger(rows: seq<Row>, r: Row, e: Episode)
    requires Reasoned(rows, e)
    ensures Reasoned(rows + [r], e)
    ensures e.last == |rows| ==>
              Reasoned(rows + [r],
                       e.(last := |rows| + 1,
                          reasons := e.reasons + if IsStory(r.kind) then multiset{r.kind} else multiset{}))
  {
    hide Between;
    BetweenPrefix(rows, rows + [r], e.first + 1, e.last);
    if e.last == |rows| {
      BetweenOne(rows, r, e.first + 1);
    }
  }

  lemma {:induction false} BetweenOne(rows: seq<Row>, r: Row, i: nat)
    requires i <= |rows|
    ensures Between(rows + [r], i, |rows| + 1)
            == Between(rows + [r], i, |rows|) + if IsStory(r.kind) then multiset{r.kind} else multiset{}
  {
    assert (rows + [r])[|rows|] == r;
  }

  lemma {:induction false} AccountedLonger(rows: seq<Row>, r: Row, e: Episode, from: nat)
    requires Accounted(rows, e, from) && !e.open
    ensures Accounted(rows + [r], e, from)
  {
    hide Spans, Preceded, Reasoned;
    SpansLonger(rows, r, e, from);
    PrecededLonger(rows, r, e, from);
    ReasonedLonger(rows, r, e);
  }

  lemma {:induction false} LastRowIs(rows: seq<Row>)
    ensures LastRow(rows).Some? ==> forall p :: LastRow(rows).value < p < |rows| ==> rows[p].kind.Human?
    ensures LastRow(rows).None? ==> forall p :: 0 <= p < |rows| ==> rows[p].kind.Human?
    decreases |rows|
  {
    if rows != [] {
      LastRowIs(rows[..|rows| - 1]);
    }
  }

  /** The episode under way, as it would read if the rows ended here. */
  function Pausing(e: Episode, n: nat): Episode { e.(last := n) }

  ghost predicate ToldWell(rows: seq<Row>, s: Story) {
    && (forall i :: 0 <= i < |s.done| ==> !s.done[i].open)
    && WellTold(rows, s.done)
    && (s.current.Some? ==>
          s.current.value.open && Accounted(rows, Pausing(s.current.value, |rows|), EndOf(s.done, |s.done|)))
    && (s.done != [] ==> s.done[|s.done| - 1].last < |rows|)
  }

  lemma {:induction false} TellsWell(rows: seq<Row>)
    requires Numbered(rows)
    ensures ToldWell(rows, Tell(rows))
    decreases |rows|
  {
    if rows != [] {
      var init, last := rows[..|rows| - 1], rows[|rows| - 1];
      assert init + [last] == rows;
      TellsWell(init);
      ToldOne(init, last, Tell(init));
    }
  }

  lemma {:induction false} DoneLonger(rows: seq<Row>, r: Row, s: Story)
    requires ToldWell(rows, s)
    ensures WellTold(rows + [r], s.done)
  {
    forall i | 0 <= i < |s.done|
      ensures Accounted(rows + [r], s.done[i], EndOf(s.done, i))
    {
      AccountedLonger(rows, r, s.done[i], EndOf(s.done, i));
    }
  }

  lemma {:induction false} ToldOne(rows: seq<Row>, r: Row, s: Story)
    requires Numbered(rows) && r.seqNo.Some? && ToldWell(rows, s)
    ensures ToldWell(rows + [r], Told(s, rows, r))
  {
    hide Accounted, WellTold, Opened;
    DoneLonger(rows, r, s);
    if r.kind.FailClosedEntered? && s.current.None? {
      OpensWell(rows, r, s);
    } else if s.current.Some? && r.kind.FailClosedCleared? {
      ClearsWell(rows, r, s);
    } else if s.current.Some? {
      GoesOnWell(rows, r, s);
    }
  }

  lemma {:induction false} OpensWell(rows: seq<Row>, r: Row, s: Story)
    requires Numbered(rows) && r.seqNo.Some? && ToldWell(rows, s) && r.kind.FailClosedEntered?
    ensures Accounted(rows + [r], Pausing(Opened(rows, r), |rows| + 1), EndOf(s.done, |s.done|)) && Opened(rows, r).open
  {
    LastClear(rows, s);
    OpensAfter(rows, r, EndOf(s.done, |s.done|));
  }

  /** Behind the last episode stands its CLEARED row. */
  lemma {:induction false} LastClear(rows: seq<Row>, s: Story)
    requires ToldWell(rows, s)
    ensures var from := EndOf(s.done, |s.done|);
            from <= |rows| && (from > 0 ==> rows[from - 1].kind.FailClosedCleared?)
  {
    if s.done != [] {
      assert Accounted(rows, s.done[|s.done| - 1], EndOf(s.done, |s.done| - 1));
    }
  }

  lemma {:induction false} OpensAfter(rows: seq<Row>, r: Row, from: nat)
    requires Numbered(rows) && r.seqNo.Some? && r.kind.FailClosedEntered?
    requires from <= |rows| && (from > 0 ==> rows[from - 1].kind.FailClosedCleared?)
    ensures Accounted(rows + [r], Pausing(Opened(rows, r), |rows| + 1), from)
  {
    hide LastRow;
    LastRowIs(rows);
    var e := Pausing(Opened(rows, r), |rows| + 1);
    var more := rows + [r];
    assert more[|rows|] == r;
    assert Spans(more, e, from);
    assert Between(more, e.first + 1, e.last) == multiset{};
    assert Reasoned(more, e);
    var j := LastRow(rows);
    if from > 0 {
      assert j.Some? && j.value >= from - 1;
    }
    if e.preceding.None? && j.Some? {
      assert IsBoundary(more[j.value].kind);
      assert forall p :: j.value < p < e.first ==> !IsStory(more[p].kind);
    }
    assert Preceded(more, e, from);
  }

  lemma {:induction false} ClearsWell(rows: seq<Row>, r: Row, s: Story)
    requires Numbered(rows) && r.seqNo.Some? && ToldWell(rows, s) && s.current.Some? && r.kind.FailClosedCleared?
    ensures ToldWell(rows + [r], Told(s, rows, r))
  {
    hide Accounted;
    DoneLonger(rows, r, s);
    var e := s.current.value.(toSeq := r.seqNo.value, open := false, last := |rows|);
    ClosesWell(rows, r, s.current.value, EndOf(s.done, |s.done|));
    var done := s.done + [e];
    forall i | 0 <= i < |done|
      ensures Accounted(rows + [r], done[i], EndOf(done, i))
    {
      assert EndOf(done, i) == EndOf(s.done, i);
    }
  }

  lemma {:induction false} ClosesWell(rows: seq<Row>, r: Row, e: Episode, from: nat)
    requires r.seqNo.Some? && r.kind.FailClosedCleared? && Accounted(rows, Pausing(e, |rows|), from)
    ensures Accounted(rows + [r], e.(toSeq := r.seqNo.value, open := false, last := |rows|), from)
  {
    var p := Pausing(e, |rows|);
    var z := e.(toSeq := r.seqNo.value, open := false, last := |rows|);
    SpansLonger(rows, r, p, from);
    PrecededLonger(rows, r, p, from);
    ReasonedLonger(rows, r, p);
    assert (rows + [r])[|rows|] == r;
    hide Spans, Preceded, Reasoned;
  }

  lemma {:induction false} GoesOnWell(rows: seq<Row>, r: Row, s: Story)
    requires Numbered(rows) && r.seqNo.Some? && ToldWell(rows, s) && s.current.Some? && !r.kind.FailClosedCleared?
    ensures var s' := Told(s, rows, r);
            s'.current.Some? && s'.current.value.open && s'.done == s.done
            && Accounted(rows + [r], Pausing(s'.current.value, |rows| + 1), EndOf(s.done, |s.done|))
  {
    hide Spans, Preceded, Reasoned, WellTold;
    var p := Pausing(s.current.value, |rows|);
    var from := EndOf(s.done, |s.done|);
    SpansLonger(rows, r, p, from);
    PrecededLonger(rows, r, p, from);
    ReasonedLonger(rows, r, p);
    var z := p.(last := |rows| + 1, reasons := p.reasons + if IsStory(r.kind) then multiset{r.kind} else multiset{});
    Stretched(rows + [r], p, z, from);
    assert !IsStory(r.kind) ==> z == p.(last := |rows| + 1);
    assert Pausing(Told(s, rows, r).current.value, |rows| + 1) == z;
  }

  lemma {:induction false} Stretched(rows: seq<Row>, e: Episode, z: Episode, from: nat)
    requires Preceded(rows, e, from) && Spans(rows, e.(last := z.last), from)
             && z == e.(last := z.last, reasons := z.reasons)
    ensures Preceded(rows, z, from) && Spans(rows, z, from)
  {
  }

  /** What the episodes are, read off the rows: each opens at an ENTERED row and runs to the next CLEARED row or the
      end, in order and disjoint; only the last can be open; its reasons are exactly the story rows inside it plus
      the one directly before it, if that is one; and no row is counted in two of them. */
  lemma {:induction false} EpisodesAccounted(rows: seq<Row>, b: int)
    requires Numbered(rows)
    ensures WellTold(rows, Episodes(rows, b))
    ensures var es := Episodes(rows, b);
            && (forall i, j :: 0 <= i < j < |es| ==> es[i].last < es[j].first)
            && (forall i, j, p :: 0 <= i < j < |es| && Counts(rows, es[i], p) ==> !Counts(rows, es[j], p))
  {
    hide Accounted, Episodes;
    TellsWell(rows);
    var es := Episodes(rows, b);
    EndIsWell(rows, b);
    forall i, j | 0 <= i < j < |es|
      ensures es[i].last < es[j].first && (es[j].preceding.Some? ==> es[i].last < es[j].preceding.value)
    {
      InOrder(rows, es, i, j);
    }
    forall i | 0 <= i < |es|
      ensures es[i].first < es[i].last && (es[i].preceding.Some? ==> es[i].preceding.value < es[i].first)
    {
      AccountedOrder(rows, es[i], EndOf(es, i));
    }
  }

  lemma {:induction false} EndIsWell(rows: seq<Row>, b: int)
    requires Numbered(rows) && ToldWell(rows, Tell(rows))
    ensures WellTold(rows, Episodes(rows, b))
  {
    hide Accounted, Tell;
    var s := Tell(rows);
    var es := Episodes(rows, b);
    if s.current.Some? {
      CloseWell(rows, s.current.value, EndOf(s.done, |s.done|), b);
    }
    forall i | 0 <= i < |es|
      ensures Accounted(rows, es[i], EndOf(es, i))
    {
      assert EndOf(es, i) == EndOf(s.done, i);
      if i < |s.done| {
        assert Accounted(rows, s.done[i], EndOf(s.done, i));
      }
    }
  }

  lemma {:induction false} CloseWell(rows: seq<Row>, e: Episode, from: nat, b: int)
    ensures e.open && Accounted(rows, Pausing(e, |rows|), from) ==>
              Accounted(rows, e.(toSeq := b, last := |rows|), from)
  {
  }

  lemma {:induction false} InOrder(rows: seq<Row>, es: seq<Episode>, i: nat, j: nat)
    requires WellTold(rows, es) && i < j < |es|
    ensures es[i].last < es[j].first
    ensures es[j].preceding.Some? ==> es[i].last < es[j].preceding.value
    decreases j
  {
    hide Accounted;
    AccountedOrder(rows, es[j], EndOf(es, j));
    AccountedOrder(rows, es[j - 1], EndOf(es, j - 1));
    if i < j - 1 {
      InOrder(rows, es, i, j - 1);
    }
  }

  lemma {:induction false} AccountedOrder(rows: seq<Row>, e: Episode, from: nat)
    ensures Accounted(rows, e, from) ==>
              from <= e.first < e.last && (e.preceding.Some? ==> from <= e.preceding.value < e.first)
  {
    hide Between;
  }
}
