/** The certificate verifier's reading of a ledger file: the hash chain over the declared range, and whether what
    is missing from it is a file cut short or something worse. */
module CertChain {
  import opened Options

  /** The events the verifier has a rule for; `Material` are the other ones whose absence changes what a
      certificate says, `Plain` the rest of the vocabulary. */
  datatype Kind =
    | LimitBreached | ConfigChangeRejected | OrderRejectedLocked | FailClosedEntered | FailClosedCleared
    | ClockAnomaly | ClockSuspect | DayOpened | DayClosed | GuardianStarted | GuardianStopped
    | Material(name: string) | Plain(name: string) | Human(name: string) | Unheard(name: string)

  predicate IsMaterial(k: Kind) {
    || k.LimitBreached? || k.ConfigChangeRejected? || k.OrderRejectedLocked? || k.FailClosedEntered?
    || k.ClockAnomaly? || k.ClockSuspect? || k.Material?
  }

  /** One ledger row. `seqNo` is None when it is not an integer; `conforms` says it has every field its dialect
      requires; `rest` is everything else the hash covers. */
  datatype Row = Row(seqNo: Option<int>, kind: Kind, dayKey: Option<string>, orderId: Option<string>,
                     prev: Option<string>, hash: Option<string>, conforms: bool, rest: string)

  /** A ledger dialect: what stands before the first row, and the digest of a row, None if it lacks a field. */
  datatype Dialect = Dialect(genesis: string, hashOf: Row -> Option<string>)

  predicate In(r: Row, a: int, b: int) { r.seqNo.Some? && a <= r.seqNo.value <= b }

  datatype ChainCheck = ChainCheck(ok: bool, broken: Option<int>)

  /** `_verify_chain` from the current row on: neither the order nor the uniqueness of seqs is checked. */
  function ChainFrom(d: Dialect, rows: seq<Row>, a: int, b: int, prev: Option<string>, seen: nat): ChainCheck {
    if rows == [] then if seen == 0 then ChainCheck(false, Some(a)) else ChainCheck(true, None)
    else
      var r := rows[0];
      if !In(r, a, b) then ChainFrom(d, rows[1..], a, b, prev, seen)
      else
        var expected := if r.seqNo.value == 1 then Some(d.genesis) else prev;
        if expected.Some? && r.prev != expected then ChainCheck(false, r.seqNo)
        else if d.hashOf(r).None? || d.hashOf(r) != r.hash then ChainCheck(false, r.seqNo)
        else ChainFrom(d, rows[1..], a, b, r.hash, seen + 1)
  }

  method VerifyChain(d: Dialect, rows: seq<Row>, a: int, b: int) returns (c: ChainCheck)
    ensures c == ChainFrom(d, rows, a, b, None, 0)
  {
    var prev: Option<string>, seen, i := None, 0, 0;
    while i < |rows|
      invariant 0 <= i <= |rows| && 0 <= seen
      invariant ChainFrom(d, rows[i..], a, b, prev, seen) == ChainFrom(d, rows, a, b, None, 0)
    {
      var r := rows[i];
      assert rows[i..][1..] == rows[i + 1..];
      i := i + 1;
      if r.seqNo.Some? && a <= r.seqNo.value <= b {
        seen := seen + 1;
        var expected := if r.seqNo.value == 1 then Some(d.genesis) else prev;
        if expected.Some? && r.prev != expected { return ChainCheck(false, r.seqNo); }
        var recomputed := d.hashOf(r);
        if recomputed.None? || recomputed != r.hash { return ChainCheck(false, r.seqNo); }
        prev := r.hash;
      }
    }
    c := if seen == 0 then ChainCheck(false, Some(a)) else ChainCheck(true, None);
  }

  // ------------------------------------------------------------------ what is missing

  predicate Present(rows: seq<Row>, s: int) {
    exists i :: 0 <= i < |rows| && rows[i].seqNo == Some(s)
  }

  /** The seqs of a..b without a row, in order. */
  function Absent(rows: seq<Row>, a: int, b: int): seq<int>
    decreases b - a
  {
    if a > b then [] else (if Present(rows, a) then [] else [a]) + Absent(rows, a + 1, b)
  }

  function UpTo(k: int, b: int): seq<int>
    decreases b - k
  {
    if k > b then [] else [k] + UpTo(k + 1, b)
  }

  /** What the verifier makes of the missing rows: a file that stops early is no contradiction. */
  datatype Loss = Loss(chain: ChainCheck, absent: seq<int>) {
    predicate Truncated(b: int) { absent != [] && chain.ok && absent == UpTo(absent[0], b) }
    predicate Incomplete(b: int) { absent != [] && !Truncated(b) }
  }

  function LossOf(d: Dialect, rows: seq<Row>, a: int, b: int): Loss {
    Loss(ChainFrom(d, rows, a, b, None, 0), Absent(rows, a, b))
  }

  // ------------------------------------------------------------------ an honest history with rows removed

  /** A ledger as its emitter writes it: seqs 1.., each row naming the hash before it, every digest right. */
  ghost predicate Honest(d: Dialect, full: seq<Row>) {
    forall i :: 0 <= i < |full| ==> HonestAt(d, full, i)
  }

  ghost predicate HonestAt(d: Dialect, full: seq<Row>, i: nat)
    requires i < |full|
  {
    && full[i].seqNo == Some(i + 1)
    && full[i].hash.Some? && d.hashOf(full[i]) == full[i].hash
    && full[i].prev == (if i == 0 then Some(d.genesis) else full[i - 1].hash)
  }

  /** No two rows share a hash. */
  ghost predicate NoCollision(full: seq<Row>) {
    forall i, j :: 0 <= i < j < |full| ==> full[i].hash != full[j].hash
  }

  /** The rows kept of a history, from index i on. */
  function Kept(full: seq<Row>, keep: nat -> bool, i: nat): seq<Row>
    requires i <= |full|
    decreases |full| - i
  {
    if i == |full| then [] else (if keep(i) then [full[i]] else []) + Kept(full, keep, i + 1)
  }

  /** The row of seq s is still there. */
  predicate Has(full: seq<Row>, keep: nat -> bool, s: int) { 1 <= s <= |full| && keep(s - 1) }

  lemma {:induction false} PresentMore(r: Row, rest: seq<Row>, s: int)
    ensures Present([r] + rest, s) <==> r.seqNo == Some(s) || Present(rest, s)
  {
    if r.seqNo == Some(s) {
      assert ([r] + rest)[0].seqNo == Some(s);
    }
    if Present(rest, s) {
      var j :| 0 <= j < |rest| && rest[j].seqNo == Some(s);
      assert ([r] + rest)[j + 1].seqNo == Some(s);
    }
  }

  lemma {:induction false} KeptPresent(d: Dialect, full: seq<Row>, keep: nat -> bool, i: nat, s: int)
    requires Honest(d, full) && i <= |full|
    ensures Present(Kept(full, keep, i), s) <==> s > i && Has(full, keep, s)
    decreases |full| - i
  {
    if i < |full| {
      hide Present;
      assert HonestAt(d, full, i);
      KeptPresent(d, full, keep, i + 1, s);
      var rest := Kept(full, keep, i + 1);
      PresentMore(full[i], rest, s);
      assert [] + rest == rest;
    }
  }

  /** The kept row at index t lies in the range. */
  predicate K(full: seq<Row>, keep: nat -> bool, a: int, b: int, t: nat) {
    t < |full| && keep(t) && a <= t + 1 <= b
  }

  /** Nothing is missing between the kept rows in range from i on. */
  ghost predicate Dense(full: seq<Row>, keep: nat -> bool, a: int, b: int, i: nat) {
    forall s: nat, t: nat, u: nat :: i <= s < t < u && K(full, keep, a, b, s) && K(full, keep, a, b, u) ==>
          K(full, keep, a, b, t)
  }

  /** Nor, if any of them is left, between them and the last kept one before i. */
  ghost predicate Joined(full: seq<Row>, keep: nat -> bool, a: int, b: int, i: nat, last: Option<nat>) {
    last.Some? ==>
      forall u: nat :: i <= u && K(full, keep, a, b, u) ==>
        last.value + 1 == i && forall t: nat :: i <= t < u ==> K(full, keep, a, b, t)
  }

  ghost predicate Conclude(full: seq<Row>, keep: nat -> bool, a: int, b: int, i: nat) {
    exists t: nat :: i <= t && K(full, keep, a, b, t)
  }

  lemma {:induction false} OneMore(full: seq<Row>, keep: nat -> bool, a: int, b: int, i: nat, last: Option<nat>)
    requires K(full, keep, a, b, i)
    ensures Dense(full, keep, a, b, i) && Joined(full, keep, a, b, i, last)
            <==>
            (last.None? || last.value + 1 == i) && Dense(full, keep, a, b, i + 1)
            && Joined(full, keep, a, b, i + 1, Some(i))
  {
    if Dense(full, keep, a, b, i) && Joined(full, keep, a, b, i, last) {
      forall u: nat | i + 1 <= u && K(full, keep, a, b, u)
        ensures forall t: nat :: i + 1 <= t < u ==> K(full, keep, a, b, t)
      {
      }
    }
    if Dense(full, keep, a, b, i + 1) && Joined(full, keep, a, b, i + 1, Some(i)) {
      forall s: nat, t: nat, u: nat | i <= s < t < u && K(full, keep, a, b, s) && K(full, keep, a, b, u)
        ensures K(full, keep, a, b, t)
      {
      }
    }
  }

  lemma {:induction false} NoneMore(full: seq<Row>, keep: nat -> bool, a: int, b: int, i: nat, last: Option<nat>)
    requires !K(full, keep, a, b, i) && (last.Some? ==> last.value < i)
    ensures Dense(full, keep, a, b, i) && Joined(full, keep, a, b, i, last)
            <==> Dense(full, keep, a, b, i + 1) && Joined(full, keep, a, b, i + 1, last)
  {
    if Dense(full, keep, a, b, i + 1) && Joined(full, keep, a, b, i + 1, last) {
      forall s: nat, t: nat, u: nat | i <= s < t < u && K(full, keep, a, b, s) && K(full, keep, a, b, u)
        ensures K(full, keep, a, b, t)
      {
        assert s != i;
      }
      if last.Some? {
        forall u: nat | i <= u
          ensures !K(full, keep, a, b, u)
        {
          assert u != i ==> i + 1 <= u;
        }
      }
    }
    if Joined(full, keep, a, b, i, last) && last.Some? {
      forall u: nat | i + 1 <= u
        ensures !K(full, keep, a, b, u)
      {
        assert K(full, keep, a, b, u) ==> forall t: nat :: i <= t < u ==> K(full, keep, a, b, t);
      }
    }
  }

  /** A row follows the last one seen exactly if that is the row before it. */
  lemma {:induction false} Follows(d: Dialect, full: seq<Row>, i: nat, last: Option<nat>)
    requires Honest(d, full) && NoCollision(full) && i < |full| && (last.Some? ==> last.value < i)
    ensures full[i].seqNo.Some?
    ensures var expected := if full[i].seqNo.value == 1 then Some(d.genesis)
                            else if last.None? then None
                            else full[last.value].hash;
            (expected.Some? && full[i].prev != expected) <==> (last.Some? && last.value != i - 1)
  {
    assert HonestAt(d, full, i);
    if last.Some? {
      assert HonestAt(d, full, last.value);
      assert last.value < i - 1 ==> full[last.value].hash != full[i - 1].hash;
    }
  }

  /** The chain check succeeds on what is left of an honest history exactly if some row in range is left and none is
      missing between the first and the last of them. */
  lemma {:induction false} ChainOfKept(d: Dialect, full: seq<Row>, keep: nat -> bool, a: int, b: int, i: nat,
                                       last: Option<nat>, seen: nat)
    requires Honest(d, full) && NoCollision(full) && i <= |full|
    requires last.Some? ==> last.value < i && seen > 0
    requires last.None? ==> seen == 0
    ensures var prev := if last.None? then None else full[last.value].hash;
            ChainFrom(d, Kept(full, keep, i), a, b, prev, seen).ok
            <==>
            (last.Some? || Conclude(full, keep, a, b, i)) && Dense(full, keep, a, b, i)
            && Joined(full, keep, a, b, i, last)
    decreases |full| - i
  {
    hide Dense, Joined, Conclude, ChainFrom, NoCollision, K;
    if i == |full| {
      NothingKept(full, keep, a, b, last);
      NoRows(d, a, b, if last.None? then None else full[last.value].hash, seen);
    } else {
      KeptStep(d, full, keep, a, b, i, if last.None? then None else full[last.value].hash, seen);
      SomeStep(full, keep, a, b, i);
      if K(full, keep, a, b, i) {
        OneMore(full, keep, a, b, i, last);
        ChainOfKept(d, full, keep, a, b, i + 1, Some(i), seen + 1);
        Follows(d, full, i, last);
      } else {
        NoneMore(full, keep, a, b, i, last);
        ChainOfKept(d, full, keep, a, b, i + 1, last, seen);
      }
    }
  }

  lemma {:induction false} NoRows(d: Dialect, a: int, b: int, prev: Option<string>, seen: nat)
    ensures ChainFrom(d, [], a, b, prev, seen).ok <==> seen > 0
  {
  }

  /** The check of one more row of the history, kept or not. */
  lemma {:induction false} KeptStep(d: Dialect, full: seq<Row>, keep: nat -> bool, a: int, b: int, i: nat,
                                    prev: Option<string>, seen: nat)
    requires Honest(d, full) && i < |full|
    ensures full[i].seqNo.Some?
    ensures var expected := if full[i].seqNo.value == 1 then Some(d.genesis) else prev;
            ChainFrom(d, Kept(full, keep, i), a, b, prev, seen).ok <==>
            if K(full, keep, a, b, i) then
              !(expected.Some? && full[i].prev != expected)
              && ChainFrom(d, Kept(full, keep, i + 1), a, b, full[i].hash, seen + 1).ok
            else ChainFrom(d, Kept(full, keep, i + 1), a, b, prev, seen).ok
  {
    assert HonestAt(d, full, i);
    var rest := Kept(full, keep, i + 1);
    if keep(i) {
      assert ([full[i]] + rest)[1..] == rest;
      assert Kept(full, keep, i) == [full[i]] + rest;
    } else {
      assert Kept(full, keep, i) == rest;
    }
  }

  lemma {:induction false} NothingKept(full: seq<Row>, keep: nat -> bool, a: int, b: int, last: Option<nat>)
    ensures Dense(full, keep, a, b, |full|) && Joined(full, keep, a, b, |full|, last)
            && !Conclude(full, keep, a, b, |full|)
  {
  }

  lemma {:induction false} SomeStep(full: seq<Row>, keep: nat -> bool, a: int, b: int, i: nat)
    ensures Conclude(full, keep, a, b, i) <==> K(full, keep, a, b, i) || Conclude(full, keep, a, b, i + 1)
  {
    if Conclude(full, keep, a, b, i) && !K(full, keep, a, b, i) {
      var t: nat :| i <= t && K(full, keep, a, b, t);
      assert i + 1 <= t;
    }
  }

  // ------------------------------------------------------------------ the classification

  /** A row in range is missing with rows in range on both sides of it. */
  ghost predicate Gap(full: seq<Row>, keep: nat -> bool, a: int, b: int) {
    exists s, t, u :: a <= s < t < u <= b && Has(full, keep, s) && !Has(full, keep, t) && Has(full, keep, u)
  }

  ghost predicate EmptyRange(full: seq<Row>, keep: nat -> bool, a: int, b: int) {
    forall s :: a <= s <= b ==> !Has(full, keep, s)
  }

  /** Exactly the rows k..b are missing. */
  ghost predicate CutAt(full: seq<Row>, keep: nat -> bool, a: int, b: int, k: int) {
    a < k <= b && forall s :: a <= s <= b ==> (Has(full, keep, s) <==> s < k)
  }

  lemma {:induction false} DenseMeansNoGap(full: seq<Row>, keep: nat -> bool, a: int, b: int)
    ensures Dense(full, keep, a, b, 0) <==> !Gap(full, keep, a, b)
    ensures Conclude(full, keep, a, b, 0) <==> !EmptyRange(full, keep, a, b)
  {
    if Gap(full, keep, a, b) {
      var s, t, u :| a <= s < t < u <= b && Has(full, keep, s) && !Has(full, keep, t) && Has(full, keep, u);
      assert K(full, keep, a, b, s - 1) && K(full, keep, a, b, u - 1) && !K(full, keep, a, b, t - 1);
    }
    if !Dense(full, keep, a, b, 0) {
      var s: nat, t: nat, u: nat :| s < t < u && K(full, keep, a, b, s) && K(full, keep, a, b, u)
          && !K(full, keep, a, b, t);
      assert Has(full, keep, s + 1) && !Has(full, keep, t + 1) && Has(full, keep, u + 1);
    }
    if !EmptyRange(full, keep, a, b) {
      var s :| a <= s <= b && Has(full, keep, s);
      assert K(full, keep, a, b, s - 1);
    }
    if Conclude(full, keep, a, b, 0) {
      var t: nat :| K(full, keep, a, b, t);
      assert Has(full, keep, t + 1);
    }
  }

  lemma {:induction false} NotJoined(full: seq<Row>, keep: nat -> bool, a: int, b: int)
    ensures Joined(full, keep, a, b, 0, None)
  {
  }

  lemma {:induction false} AbsentIs(rows: seq<Row>, a: int, b: int)
    ensures forall s :: s in Absent(rows, a, b) <==> a <= s <= b && !Present(rows, s)
    ensures forall i, j :: 0 <= i < j < |Absent(rows, a, b)| ==> Absent(rows, a, b)[i] < Absent(rows, a, b)[j]
    decreases b - a
  {
    if a <= b {
      AbsentIs(rows, a + 1, b);
      var rest := Absent(rows, a + 1, b);
      assert forall j :: 0 <= j < |rest| ==> rest[j] in rest;
    }
  }

  lemma {:induction false} InFront(x: int, rest: seq<int>, s: int)
    ensures s in [x] + rest <==> s == x || s in rest
  {
  }

  lemma {:induction false} UpToIs(k: int, b: int)
    ensures forall s :: s in UpTo(k, b) <==> k <= s <= b
    ensures k <= b ==> UpTo(k, b) != [] && UpTo(k, b)[0] == k
    decreases b - k
  {
    if k <= b {
      UpToIs(k + 1, b);
      forall s
        ensures s in UpTo(k, b) <==> k <= s <= b
      {
        InFront(k, UpTo(k + 1, b), s);
      }
    }
  }

  /** The missing rows are a suffix of the range exactly if everything from the first of them on is missing. */
  lemma {:induction false} SuffixAbsent(rows: seq<Row>, a: int, b: int, k: int)
    requires a <= k <= b && (forall s :: a <= s < k ==> Present(rows, s))
    ensures Absent(rows, a, b) == Absent(rows, k, b)
    decreases k - a
  {
    hide Present;
    if a < k {
      SuffixAbsent(rows, a + 1, b, k);
      assert Present(rows, a);
    }
  }

  lemma {:induction false} AllAbsent(rows: seq<Row>, k: int, b: int)
    ensures (forall s :: k <= s <= b ==> !Present(rows, s)) <==> Absent(rows, k, b) == UpTo(k, b)
    decreases b - k
  {
    if Absent(rows, k, b) == UpTo(k, b) {
      hide Present, Absent, UpTo;
      AbsentIs(rows, k, b);
      UpToIs(k, b);
    } else if k <= b && (forall s :: k <= s <= b ==> !Present(rows, s)) {
      AllAbsent(rows, k + 1, b);
    }
  }

  /** Short file or lying range? For what is left of an honest history and any declared range a..b, LEDGER_TRUNCATED
      is reported exactly when the rows missing from the range are its end k..b with a < k; an interior gap or an
      empty range is CHAIN_BROKEN; and any loss that is not a truncation is RANGE_INCOMPLETE. */
  lemma {:induction false} Classified(d: Dialect, full: seq<Row>, keep: nat -> bool, a: int, b: int)
    requires Honest(d, full) && NoCollision(full) && a <= b
    ensures var loss := LossOf(d, Kept(full, keep, 0), a, b);
            && (loss.Truncated(b) <==> exists k :: CutAt(full, keep, a, b, k))
            && (!loss.chain.ok <==> Gap(full, keep, a, b) || EmptyRange(full, keep, a, b))
            && (loss.Incomplete(b) <==>
                (exists s :: a <= s <= b && !Has(full, keep, s)) && !exists k :: CutAt(full, keep, a, b, k))
  {
    hide ChainFrom, Kept, Absent, Dense, Joined, Honest, NoCollision, Present, Has, Gap, EmptyRange, CutAt, UpTo;
    var rows := Kept(full, keep, 0);
    ChainOfKept(d, full, keep, a, b, 0, None, 0);
    NotJoined(full, keep, a, b);
    DenseMeansNoGap(full, keep, a, b);
    forall s
      ensures Present(rows, s) <==> Has(full, keep, s)
    {
      KeptPresent(d, full, keep, 0, s);
      HasPositive(full, keep, s);
    }
    AbsentIs(rows, a, b);
    var absent := Absent(rows, a, b);
    if absent != [] {
      assert absent[0] in absent;
      TruncatedIffCut(d, full, keep, a, b, rows);
    } else {
      assert forall s :: a <= s <= b ==> s !in absent;
      NoCut(full, keep, a, b);
    }
  }

  lemma {:induction false} HasPositive(full: seq<Row>, keep: nat -> bool, s: int)
    ensures Has(full, keep, s) ==> s > 0
  {
  }

  lemma {:induction false} NoCut(full: seq<Row>, keep: nat -> bool, a: int, b: int)
    requires forall s :: a <= s <= b ==> Has(full, keep, s)
    ensures forall k :: !CutAt(full, keep, a, b, k)
  {
    hide Has;
    forall k
      ensures !CutAt(full, keep, a, b, k)
    {
      assert a < k <= b ==> Has(full, keep, k);
    }
  }

  lemma {:induction false} TruncatedIffCut(d: Dialect, full: seq<Row>, keep: nat -> bool, a: int, b: int,
                                           rows: seq<Row>)
    requires forall s :: Present(rows, s) <==> Has(full, keep, s)
    requires Absent(rows, a, b) != []
    requires var loss := LossOf(d, rows, a, b);
             !loss.chain.ok <==> Gap(full, keep, a, b) || EmptyRange(full, keep, a, b)
    ensures LossOf(d, rows, a, b).Truncated(b) <==> exists k :: CutAt(full, keep, a, b, k)
  {
    hide ChainFrom, Present, Has;
    var absent := Absent(rows, a, b);
    var k := absent[0];
    AbsentIs(rows, a, b);
    assert k in absent;
    forall s | a <= s < k
      ensures Present(rows, s)
    {
      assert s !in absent;
    }
    SuffixAbsent(rows, a, b, k);
    AllAbsent(rows, k, b);
    if LossOf(d, rows, a, b).Truncated(b) {
      assert k == a ==> EmptyRange(full, keep, a, b);
      assert CutAt(full, keep, a, b, k);
    }
    if exists j :: CutAt(full, keep, a, b, j) {
      var j :| CutAt(full, keep, a, b, j);
      assert Has(full, keep, j - 1) && !Has(full, keep, j);
      assert j == k;
      assert !Gap(full, keep, a, b);
      assert !EmptyRange(full, keep, a, b);
    }
  }
}
