/** The dollars counted by the daily limits against the fill entries of the ledger: which fills are counted, where every
    counted dollar is (in the counters' file, in a reset entry or in a day whose entry was lost), and that a fill the
    broker reports twice is counted once. */
module ExecutorDollars {
  import opened Options
  import opened Executor
  import H = EntryHalts
  import D = DailyLimits

  // ------------------------------------------------------------------ duplicated fill ids

  lemma {:induction false} DistinctKeepsIds(ps: seq<Part>, id: string)
    ensures HasId(Distinct(ps), id) <==> HasId(ps, id)
    decreases |ps|
  {
    if ps != [] {
      var init, last := ps[..|ps| - 1], ps[|ps| - 1];
      DistinctKeepsIds(init, id);
      DistinctKeepsIds(init, last.id);
      var kept := Distinct(init);
      if last.id == id {
        assert ps[|ps| - 1].id == id;
        if !HasId(kept, id) {
          assert (kept + [last])[|kept|].id == id;
        }
      } else {
        HasIdAppend(kept, last, id);
        HasIdAppend(init, last, id);
        assert init + [last] == ps;
      }
    }
  }

  lemma {:induction false} HasIdAppend(ps: seq<Part>, p: Part, id: string)
    ensures HasId(ps + [p], id) <==> HasId(ps, id) || p.id == id
  {
    if HasId(ps, id) {
      var i :| 0 <= i < |ps| && ps[i].id == id;
      assert (ps + [p])[i].id == id;
    }
    if p.id == id {
      assert (ps + [p])[|ps|].id == id;
    }
  }

  /** One more part: kept if its id is new, noted if it is not; and the sums with it. */
  lemma {:induction false} OnePart(ps: seq<Part>, f: Part)
    ensures Distinct(ps + [f]) == if HasId(Distinct(ps), f.id) then Distinct(ps) else Distinct(ps) + [f]
    ensures Duplicates(ps + [f]) == Duplicates(ps) + if HasId(Distinct(ps), f.id) then [f.id] else []
  {
    hide HasId;
    assert (ps + [f])[..|ps|] == ps;
    DistinctKeepsIds(ps, f.id);
  }

  lemma {:induction false} NoParts()
    ensures Distinct([]) == [] && Duplicates([]) == [] && Qty([]) == 0.0 && Notional([]) == 0.0 && Fees([]) == Some(0.0)
    ensures forall id :: !HasId([], id)
  {
  }

  lemma {:induction false} OneSum(kept: seq<Part>, f: Part)
    ensures Qty(kept + [f]) == Qty(kept) + f.qty && Notional(kept + [f]) == Notional(kept) + f.qty * f.price
    ensures Fees(kept + [f]) == if Fees(kept).Some? && f.fee.Some? then Some(Fees(kept).value + f.fee.value) else None
  {
    assert (kept + [f])[..|kept|] == kept;
  }

  lemma {:induction false} OneId(kept: seq<Part>, f: Part, seen: set<string>)
    requires forall id :: id in seen <==> HasId(kept, id)
    ensures forall id :: id in seen + {f.id} <==> HasId(kept + [f], id)
  {
    forall id
      ensures HasId(kept + [f], id) <==> HasId(kept, id) || f.id == id
    {
      HasIdAppend(kept, f, id);
    }
  }

  /** No id is left twice, and every id is left once. */
  lemma {:induction false} DistinctOnce(ps: seq<Part>)
    ensures forall i, j :: 0 <= i < j < |Distinct(ps)| ==> Distinct(ps)[i].id != Distinct(ps)[j].id
    ensures forall i :: 0 <= i < |ps| ==> HasId(Distinct(ps), ps[i].id)
    decreases |ps|
  {
    if ps != [] {
      var init, last := ps[..|ps| - 1], ps[|ps| - 1];
      DistinctOnce(init);
      forall i | 0 <= i < |ps|
        ensures HasId(Distinct(ps), ps[i].id)
      {
        assert HasId(ps, ps[i].id);
        DistinctKeepsIds(ps, ps[i].id);
      }
    }
  }

  /** Reporting a fill id again changes neither the quantity nor the price nor the fee that are recorded; the id is
      noted as a duplicate. */
  lemma {:induction false} DuplicateIgnored(o: Order, p: Part)
    requires HasId(o.fills, p.id)
    ensures var twice := EffectiveFill(o.(fills := o.fills + [p]));
            var once := EffectiveFill(o);
            && twice.filled == once.filled && twice.avg == once.avg && twice.fee == once.fee
            && twice.duplicates == once.duplicates + [p.id]
  {
    assert (o.fills + [p])[..|o.fills|] == o.fills;
    DistinctKeepsIds(o.fills, p.id);
  }

  // ------------------------------------------------------------------ where the dollars are

  /** The days in the DAILY_STATS_RESET entries of the ledger. */
  function Resets(books: seq<BookAct>): seq<D.Stats> {
    if books == [] then []
    else
      var last := books[|books| - 1];
      Resets(books[..|books| - 1]) + if last.Reset? && !last.fate.Lost? then [last.previous] else []
  }

  /** The days rolled over with no such entry right behind. */
  function LostDays(books: seq<BookAct>): seq<D.Stats> {
    if books == [] then []
    else
      var init, last := books[..|books| - 1], books[|books| - 1];
      match last
      case Roll(_, previous) => LostDays(init) + [previous]
      case Reset(_, _, fate) =>
        if !fate.Lost? && init != [] && init[|init| - 1].Roll? then LostDays(init[..|init| - 1]) else LostDays(init)
      case Book(_, _, _, _) => LostDays(init)
  }

  /** The fills the counters took. */
  function Taken(books: seq<BookAct>): D.Sum {
    if books == [] then D.ZERO
    else
      var last := books[|books| - 1];
      Taken(books[..|books| - 1]).Plus(if last.Book? then FillSum(last.usd, last.charged) else D.ZERO)
  }

  function FillSum(usd: real, charged: real): D.Sum { D.Sum(1, usd, charged, 0.0) }

  /** What each was charged is its fee, or what the limits say of an unknown one. */
  ghost predicate Charged(lim: D.Limits, books: seq<BookAct>) {
    forall b {:trigger D.FeeCharged(lim, books[b].usd, books[b].fee)} ::
      0 <= b < |books| && books[b].Book? ==> books[b].charged == D.FeeCharged(lim, books[b].usd, books[b].fee)
  }

  /** The reset entries, the lost days and the file. */
  function Money(w: World): D.Sum {
    D.Total(Resets(w.books) + LostDays(w.books) + D.Current(D.View(w.stats)))
  }

  predicate Usable(w: World) { !D.View(w.stats).Damaged? }

  /** Where it all is: what was there at first and the fills taken. */
  ghost predicate Funded(w: World, first: D.Sum) { Money(w) == first.Plus(Taken(w.books)) }

  /** Between the two the money grew by the fills taken, in fills, dollars and fees. */
  ghost predicate Kept(lim: D.Limits, w: World, w': World) {
    && (forall first :: Funded(w, first) ==> Funded(w', first))
    && (Usable(w) <==> Usable(w'))
    && (Charged(lim, w.books) ==> Charged(lim, w'.books))
  }

  lemma {:induction false} KeptTwice(lim: D.Limits, a: World, b: World, c: World)
    requires Kept(lim, a, b) && Kept(lim, b, c)
    ensures Kept(lim, a, c)
  {
    hide Funded, Usable, Charged;
  }

  lemma {:induction false} MoneyParts(w: World)
    ensures Money(w) == D.Total(Resets(w.books)).Plus(D.Total(LostDays(w.books))).Plus(D.InBook(D.View(w.stats)))
  {
    hide D.Total, D.View, D.Current, D.InBook;
    D.TotalParts(Resets(w.books), LostDays(w.books), D.View(w.stats));
  }

  lemma {:induction false} OneBook(lim: D.Limits, books: seq<BookAct>, act: BookAct)
    requires act.Book? ==> act.charged == D.FeeCharged(lim, act.usd, act.fee)
    ensures Resets(books + [act])
            == if act.Reset? && !act.fate.Lost? then Resets(books) + [act.previous] else Resets(books)
    ensures Taken(books + [act]) ==
            if act.Book? then Taken(books).Plus(FillSum(act.usd, act.charged)) else Taken(books)
    ensures act.Roll? ==> LostDays(books + [act]) == LostDays(books) + [act.previous]
    ensures act.Book? ==> LostDays(books + [act]) == LostDays(books)
    ensures Charged(lim, books) ==> Charged(lim, books + [act])
  {
    hide FillSum, D.FeeCharged;
    assert (books + [act])[..|books|] == books;
  }

  lemma {:induction false} RollAndReset(books: seq<BookAct>, roll: BookAct, reset: BookAct)
    requires roll.Roll? && reset.Reset?
    ensures LostDays(books + [roll] + [reset]) ==
            if reset.fate.Lost? then LostDays(books) + [roll.previous] else LostDays(books)
  {
    var b1 := books + [roll];
    assert b1[..|books|] == books && (b1 + [reset])[..|b1|] == b1;
  }

  /** A rollover moves the day out of the file: into the ledger, or among the lost days. */
  lemma {:induction false} RollKept(env: Env, w: World)
    ensures Kept(env.limits, w, RollOver(env, w, D.LoadDone(w.stats, env.me, env.today(w.trace))).w)
  {
    hide Kept;
    SameKept(env.limits, w, w);
    var loaded := D.LoadDone(w.stats, env.me, env.today(w.trace));
    if loaded.reset.Some? {
      var previous := loaded.reset.value;
      var w1 := w.(stats := loaded.file, books := w.books + [Roll(|w.trace|, previous)]);
      var reset := Reset(|w.trace|, previous, env.resetFate(w1.trace, w1.books));
      RolledKept(env.limits, w, w1, w1.(books := w1.books + [reset]), previous, reset);
    }
  }

  lemma {:induction false} RolledKept(lim: D.Limits, w: World, w1: World, w2: World, previous: D.Stats, reset: BookAct)
    requires reset.Reset? && reset.previous == previous
    requires D.View(w.stats) == D.Open(previous) && D.View(w1.stats).Open? && D.InBook(D.View(w1.stats)) == D.ZERO
    requires w1.books == w.books + [Roll(reset.at, previous)] && w2 == w1.(books := w1.books + [reset])
    ensures Kept(lim, w, w1) && Kept(lim, w, w2)
  {
    hide Resets, LostDays, Taken, D.Total, Charged, D.Current, Money;
    MoneyParts(w);
    MoneyParts(w1);
    MoneyParts(w2);
    OneBook(lim, w.books, Roll(reset.at, previous));
    OneBook(lim, w1.books, reset);
    RollAndReset(w.books, Roll(reset.at, previous), reset);
    D.TotalOne(LostDays(w.books), previous);
    D.TotalOne(Resets(w.books), previous);
  }

  lemma {:induction false} FillAdds(env: Env, c: D.StatsFile, today: int, today2: int, usd: real, fee: Option<real>)
    ensures var next := D.RecordFillDone(env.limits, c, env.me, today, today2, usd, fee);
            var file := D.LoadDone(c, env.me, today).file;
            && (next.Some? ==>
                  && !D.View(next.value).Damaged? && !D.View(file).Damaged?
                  && D.InBook(D.View(next.value))
                     == D.InBook(D.View(file)).Plus(FillSum(usd, D.FeeCharged(env.limits, usd, fee))))
            && (next.Some? <==> usd >= 0.0 && !D.View(c).Damaged?)
            && (D.View(file).Damaged? <==> D.View(c).Damaged?)
  {
    hide D.FeeCharged;
  }

  /** The counters take exactly the fill, or nothing. */
  lemma {:induction false} CountKept(env: Env, w: World, usd: real, fee: Option<real>)
    ensures Kept(env.limits, w, CountFill(env, w, usd, fee).w)
  {
    hide Kept, D.LoadDone, D.RecordFillDone, H.Halted, FillSum, D.View, D.InBook, D.FeeCharged;
    SameKept(env.limits, w, w);
    var today := env.today(w.trace);
    var loaded := D.LoadDone(w.stats, env.me, today);
    RollKept(env, w);
    FillAdds(env, w.stats, today, env.today2(w.trace), usd, fee);
    LoadedFile(env, w);
    var w1 := RollOver(env, w, loaded).w;
    forall halt
      ensures Kept(env.limits, w, w1.(halt := halt))
    {
      SameKept(env.limits, w1, w1.(halt := halt));
      KeptTwice(env.limits, w, w1, w1.(halt := halt));
    }
    var next := D.RecordFillDone(env.limits, w.stats, env.me, today, env.today2(w.trace), usd, fee);
    if next.Some? && w1.stats == loaded.file {
      var book := Book(|w1.trace|, usd, fee, D.FeeCharged(env.limits, usd, fee));
      var w2 := w1.(stats := next.value, books := w1.books + [book]);
      BookedKept(env.limits, w1, w2, book);
      KeptTwice(env.limits, w, w1, w2);
    }
  }

  lemma {:induction false} LoadedFile(env: Env, w: World)
    ensures var loaded := D.LoadDone(w.stats, env.me, env.today(w.trace));
            && (loaded.reset.None? ==> loaded.file == w.stats)
            && (loaded.reset.Some? ==> Usable(w))
  {
  }

  lemma {:induction false} BookedKept(lim: D.Limits, w: World, w': World, book: BookAct)
    requires book.Book? && book.charged == D.FeeCharged(lim, book.usd, book.fee)
    requires w'.books == w.books + [book] && !D.View(w'.stats).Damaged? && Usable(w)
    requires D.InBook(D.View(w'.stats)) == D.InBook(D.View(w.stats)).Plus(FillSum(book.usd, book.charged))
    ensures Kept(lim, w, w')
  {
    hide Resets, LostDays, Taken, D.Total, FillSum, Charged, D.FeeCharged, D.Current, D.InBook, D.View, Money,
         D.Sum.Plus;
    var fill := FillSum(book.usd, book.charged);
    MoneyParts(w);
    MoneyParts(w');
    OneBook(lim, w.books, book);
    PlusAssociates(D.Total(Resets(w.books)).Plus(D.Total(LostDays(w.books))), D.InBook(D.View(w.stats)), fill);
    forall first | Funded(w, first)
      ensures Funded(w', first)
    {
      PlusAssociates(first, Taken(w.books), fill);
    }
  }

  lemma {:induction false} PlusAssociates(a: D.Sum, b: D.Sum, c: D.Sum)
    ensures a.Plus(b).Plus(c) == a.Plus(b.Plus(c))
  {
  }

  // ------------------------------------------------------------------ which fills are counted

  predicate IsFill(a: Act) { Logged(a) && a.ev.Fill? }

  /** Quantity times price of a fill entry. */
  function Usd(a: Act): real
    requires IsFill(a)
  {
    Dollars(Effective(a.ev.filled, a.ev.avg, None, []))
  }

  /** The fill whose entry is the last of the first n acts is counted. */
  predicate CountedAt(books: seq<BookAct>, n: nat) {
    exists b :: 0 <= b < |books| && books[b].Book? && books[b].at == n
  }

  /** Over the fill entries among the first n acts: all dollars, those of counted fills, those of the others. */
  function FillDollars(trace: seq<Act>, n: nat): real
    requires n <= |trace|
  {
    if n == 0 then 0.0 else FillDollars(trace, n - 1) + if IsFill(trace[n - 1]) then Usd(trace[n - 1]) else 0.0
  }

  function CountedDollars(trace: seq<Act>, books: seq<BookAct>, n: nat): real
    requires n <= |trace|
  {
    if n == 0 then 0.0
    else CountedDollars(trace, books, n - 1)
         + if IsFill(trace[n - 1]) && CountedAt(books, n) then Usd(trace[n - 1]) else 0.0
  }

  function MissedDollars(trace: seq<Act>, books: seq<BookAct>, n: nat): real
    requires n <= |trace|
  {
    if n == 0 then 0.0
    else MissedDollars(trace, books, n - 1)
         + if IsFill(trace[n - 1]) && !CountedAt(books, n) then Usd(trace[n - 1]) else 0.0
  }

  lemma {:induction false} CountedOrMissed(trace: seq<Act>, books: seq<BookAct>, n: nat)
    requires n <= |trace|
    ensures FillDollars(trace, n) == CountedDollars(trace, books, n) + MissedDollars(trace, books, n)
    decreases n
  {
    if n > 0 {
      CountedOrMissed(trace, books, n - 1);
    }
  }

  lemma {:induction false} MoreActs(trace: seq<Act>, more: seq<Act>, books: seq<BookAct>, n: nat)
    requires n <= |trace|
    ensures CountedDollars(trace + more, books, n) == CountedDollars(trace, books, n)
    decreases n
  {
    if n > 0 {
      MoreActs(trace, more, books, n - 1);
    }
  }

  lemma {:induction false} CountedOne(books: seq<BookAct>, act: BookAct, n: nat)
    ensures CountedAt(books + [act], n) <==> CountedAt(books, n) || (act.Book? && act.at == n)
  {
    if CountedAt(books, n) {
      var b :| 0 <= b < |books| && books[b].Book? && books[b].at == n;
      assert (books + [act])[b] == books[b];
    }
    if act.Book? && act.at == n {
      assert (books + [act])[|books|] == act;
    }
  }

  lemma {:induction false} MoreBooks(trace: seq<Act>, books: seq<BookAct>, act: BookAct, n: nat)
    requires n <= |trace| && (act.Book? ==> act.at > n)
    ensures CountedDollars(trace, books + [act], n) == CountedDollars(trace, books, n)
    decreases n
  {
    if n > 0 {
      MoreBooks(trace, books, act, n - 1);
      CountedOne(books, act, n);
    }
  }

  /** The log of the counters is in order and behind the acts, and what it counts are the fills it names. */
  ghost predicate Matched(w: World) {
    && InOrder(w.books, |w.trace|)
    && BookDollars(w.books) == CountedDollars(w.trace, w.books, |w.trace|)
  }

  ghost predicate InOrder(books: seq<BookAct>, n: nat) {
    forall a, b :: 0 <= a <= b < |books| ==> books[a].at <= books[b].at <= n
  }

  function BookDollars(books: seq<BookAct>): real {
    if books == [] then 0.0
    else BookDollars(books[..|books| - 1]) + if books[|books| - 1].Book? then books[|books| - 1].usd else 0.0
  }

  lemma {:induction false} TakenDollars(books: seq<BookAct>)
    ensures Taken(books).filled == BookDollars(books)
    decreases |books|
  {
    if books != [] {
      TakenDollars(books[..|books| - 1]);
    }
  }

  /** One more act, a fill or not: nothing more is counted. */
  lemma {:induction false} ActMatched(w: World, act: Act)
    requires Matched(w)
    ensures Matched(w.(trace := w.trace + [act])) && !CountedAt(w.books, |w.trace| + 1)
  {
    MoreActs(w.trace, [act], w.books, |w.trace|);
  }

  /** One more entry in the log: a rollover, or the fill whose entry is the last act and not counted yet. */
  lemma {:induction false} BookMatched(w: World, act: BookAct)
    requires Matched(w) && act.at == |w.trace|
    requires act.Book? ==> w.trace != [] && IsFill(w.trace[|w.trace| - 1]) && Usd(w.trace[|w.trace| - 1]) == act.usd
                           && !CountedAt(w.books, |w.trace|)
    ensures Matched(w.(books := w.books + [act]))
  {
    hide IsFill, CountedAt, Usd, InOrder, CountedDollars;
    assert (w.books + [act])[..|w.books|] == w.books;
    BookCounted(w.trace, w.books, act);
    OneInOrder(w.books, act, |w.trace|);
  }

  lemma {:induction false} OneInOrder(books: seq<BookAct>, act: BookAct, n: nat)
    ensures InOrder(books, n) && act.at == n ==> InOrder(books + [act], n)
  {
  }

  lemma {:induction false} BookCounted(trace: seq<Act>, books: seq<BookAct>, act: BookAct)
    requires act.at == |trace|
    requires act.Book? ==> trace != [] && IsFill(trace[|trace| - 1]) && Usd(trace[|trace| - 1]) == act.usd
                           && !CountedAt(books, |trace|)
    ensures CountedDollars(trace, books + [act], |trace|)
            == CountedDollars(trace, books, |trace|) + if act.Book? then act.usd else 0.0
  {
    hide CountedAt, IsFill, Usd;
    var n := |trace|;
    if n > 0 {
      MoreBooks(trace, books, act, n - 1);
      CountedOne(books, act, n);
    }
  }

  // ------------------------------------------------------------------ why a fill is counted

  /** How much of the log was there before act number n + 1. */
  function Upto(books: seq<BookAct>, n: nat): (k: nat)
    ensures k <= |books|
    ensures k > 0 ==> books[k - 1].at <= n
    ensures k < |books| ==> books[k].at > n
  {
    if books == [] then 0 else if books[|books| - 1].at > n then Upto(books[..|books| - 1], n) else |books|
  }

  /** What the environment did to the fill entry j: the process lived on, and the counters' file could be replaced,
      twice if the day had to be rolled over in between. */
  predicate Accepted(env: Env, trace: seq<Act>, books: seq<BookAct>, j: nat)
    requires j < |trace|
  {
    var t, k := trace[..j + 1], Upto(books, j);
    && !env.dies(t) && env.counters(t, books[..k]) == Replaced
    && (k < |books| && books[k].Roll? && books[k].at == j + 1 ==>
          var b1 := books[..k + 1];
          var b2 := b1 + [Reset(j + 1, books[k].previous, env.resetFate(t, b1))];
          !env.diesBooking(t, b1) && !env.diesBooking(t, b2) && env.counters(t, b2) == Replaced)
  }

  /** A fill entry is counted exactly if its append returned, its dollars are not negative, the process lived on and
      the counters' writer let it through. */
  ghost predicate Explained(env: Env, w: World, j: nat) {
    j < |w.trace| && IsFill(w.trace[j]) ==>
      (CountedAt(w.books, j + 1) <==>
       w.trace[j].fate.Written? && Usd(w.trace[j]) >= 0.0 && Usable(w) && Accepted(env, w.trace, w.books, j))
  }

  lemma {:induction false} ActExplained(env: Env, w: World, act: Act, j: nat)
    requires Matched(w) && Explained(env, w, j) && (IsFill(act) ==> j != |w.trace|)
    ensures Explained(env, w.(trace := w.trace + [act]), j)
  {
    if j < |w.trace| {
      assert (w.trace + [act])[..j + 1] == w.trace[..j + 1];
    }
  }

  lemma {:induction false} AcceptedOne(env: Env, trace: seq<Act>, books: seq<BookAct>, act: BookAct, j: nat)
    requires j < |trace| && act.at > j
    ensures Upto(books, j) < |books| || !Accepted(env, trace, books, j) ==>
              (Accepted(env, trace, books + [act], j) <==> Accepted(env, trace, books, j))
  {
    var k, more := Upto(books, j), books + [act];
    assert more[..k] == books[..k];
    if k < |books| {
      assert more[..k + 1] == books[..k + 1] && more[k] == books[k];
    }
  }

  lemma {:induction false} NoneBehind(w: World, j: nat)
    ensures Matched(w) && Upto(w.books, j) == |w.books| ==> !CountedAt(w.books, j + 1)
  {
  }

  /** Later entries in the log say nothing about an earlier fill. */
  lemma {:induction false} BookExplained(env: Env, w: World, act: BookAct, stats: D.StatsFile, j: nat)
    requires Matched(w) && Explained(env, w, j) && j < |w.trace| && act.at == |w.trace|
    requires act.Book? ==> j + 1 < |w.trace|
    requires D.View(stats).Damaged? <==> !Usable(w)
    ensures Explained(env, w.(books := w.books + [act], stats := stats), j)
  {
    hide Usd, Matched, Accepted, CountedAt, IsFill, D.View;
    AcceptedOne(env, w.trace, w.books, act, j);
    CountedOne(w.books, act, j + 1);
    if Upto(w.books, j) == |w.books| {
      NoneBehind(w, j);
    }
  }

  // ------------------------------------------------------------------ every function keeps it

  /** What every function keeps, seen from the fill entry j. */
  ghost predicate Even(env: Env, w: World, w': World, j: nat) {
    && Kept(env.limits, w, w')
    && (Matched(w) && Explained(env, w, j) ==> Matched(w') && Explained(env, w', j))
  }

  lemma {:induction false} EvenTwice(env: Env, a: World, b: World, c: World, j: nat)
    requires Even(env, a, b, j) && Even(env, b, c, j)
    ensures Even(env, a, c, j)
  {
    hide Kept, Matched, Explained;
    KeptTwice(env.limits, a, b, c);
  }

  /** Neither the index nor the halt is money. */
  lemma {:induction false} SameMoney(env: Env, a: World, b: World, b': World, j: nat)
    ensures Even(env, a, b, j) && b'.trace == b.trace && b'.stats == b.stats && b'.books == b.books ==>
              Even(env, a, b', j)
  {
  }

  lemma {:induction false} EvenStays(env: Env, w: World, j: nat)
    ensures Even(env, w, w, j)
  {
  }

  lemma {:induction false} ActEven(env: Env, w: World, act: Act, j: nat)
    requires IsFill(act) ==> j != |w.trace|
    ensures Even(env, w, w.(trace := w.trace + [act]), j)
  {
    hide Matched, Explained, IsFill;
    if Matched(w) && Explained(env, w, j) {
      ActMatched(w, act);
      ActExplained(env, w, act, j);
    }
  }

  lemma {:induction false} LedEven(env: Env, w: World, ev: Event, j: nat)
    requires !ev.Fill?
    ensures Even(env, w, Led(env, w, ev).w, j)
    ensures Led(env, w, ev).w == w.(trace := Led(env, w, ev).w.trace)
  {
    hide Even;
    ActEven(env, w, Append(ev, env.fate(w.trace, ev)), j);
  }

  lemma {:induction false} DoEven(env: Env, w: World, act: Act, j: nat)
    requires !act.Append?
    ensures Even(env, w, Do(env, w, act).w, j)
  {
    hide Even;
    ActEven(env, w, act, j);
  }

  lemma {:induction false} UnknownEven(env: Env, w: World, c: Coid, id: Option<string>, j: nat)
    ensures Even(env, w, DeclareUnknown(env, w, c, id).w, j)
  {
    hide H.Halted, Even;
    LedEven(env, w, UnknownState(c, id), j);
    SameMoney(env, w, Led(env, w, UnknownState(c, id)).w, DeclareUnknown(env, w, c, id).w, j);
  }

  lemma {:induction false} DenyEven(env: Env, w: World, code: Code, about: Option<Coid>, j: nat)
    ensures Even(env, w, Deny(env, w, code, about).w, j)
  {
    hide Even;
    LedEven(env, w, IntentDenied(code, about, about.Some?), j);
    SameMoney(env, w, Led(env, w, IntentDenied(code, about, about.Some?)).w, Deny(env, w, code, about).w, j);
  }

  /** One entry in the log and a new file. */
  lemma {:induction false} BookEven(env: Env, w: World, act: BookAct, stats: D.StatsFile, j: nat)
    requires Matched(w) && act.at == |w.trace| && (D.View(stats).Damaged? <==> !Usable(w))
    requires act.Book? ==> w.trace != [] && IsFill(w.trace[|w.trace| - 1]) && Usd(w.trace[|w.trace| - 1]) == act.usd
                           && !CountedAt(w.books, |w.trace|)
    ensures var w' := w.(books := w.books + [act], stats := stats);
            && Matched(w')
            && (Explained(env, w, j) && (act.Book? ==> j + 1 != |w.trace|) ==> Explained(env, w', j))
  {
    BookMatched(w, act);
    hide Matched, Usd, CountedAt, IsFill;
    var w' := w.(books := w.books + [act], stats := stats);
    if Explained(env, w, j) && j < |w.trace| && (act.Book? ==> j + 1 != |w.trace|) {
      BookExplained(env, w, act, stats, j);
    }
  }

  /** A rollover, as a check makes it, or a fill that is being counted. */
  lemma {:induction false} RollEven(env: Env, w: World, j: nat)
    ensures Even(env, w, RollOver(env, w, D.LoadDone(w.stats, env.me, env.today(w.trace))).w, j)
  {
    hide Kept, Matched, Explained;
    RollKept(env, w);
    var loaded := D.LoadDone(w.stats, env.me, env.today(w.trace));
    if loaded.reset.Some? && Matched(w) && Explained(env, w, j) {
      var roll := Roll(|w.trace|, loaded.reset.value);
      BookEven(env, w, roll, loaded.file, j);
      var w1 := w.(books := w.books + [roll], stats := loaded.file);
      BookEven(env, w1, Reset(|w.trace|, loaded.reset.value, env.resetFate(w1.trace, w1.books)), loaded.file, j);
    }
  }

  /** A fill that is being counted, seen from any other. */
  lemma {:induction false} CountEven(env: Env, w: World, usd: real, fee: Option<real>, j: nat)
    requires w.trace != [] && IsFill(w.trace[|w.trace| - 1]) && Usd(w.trace[|w.trace| - 1]) == usd
    requires !CountedAt(w.books, |w.trace|)
    ensures Kept(env.limits, w, CountFill(env, w, usd, fee).w)
    ensures Matched(w) ==> Matched(CountFill(env, w, usd, fee).w)
    ensures Matched(w) && Explained(env, w, j) && j + 1 != |w.trace| ==>
              Explained(env, CountFill(env, w, usd, fee).w, j)
  {
    CountKept(env, w, usd, fee);
    if Matched(w) {
      CountedOnce(env, w, usd, fee, j);
    }
  }

  lemma {:induction false} CountedOnce(env: Env, w: World, usd: real, fee: Option<real>, j: nat)
    requires w.trace != [] && IsFill(w.trace[|w.trace| - 1]) && Usd(w.trace[|w.trace| - 1]) == usd
    requires !CountedAt(w.books, |w.trace|) && Matched(w)
    ensures Matched(CountFill(env, w, usd, fee).w)
    ensures Explained(env, w, j) && j + 1 != |w.trace| ==> Explained(env, CountFill(env, w, usd, fee).w, j)
  {
    hide Matched, Explained, CountedAt, D.LoadDone, D.RecordFillDone, D.View, IsFill, Usd, H.Halted, Kept,
         D.FeeCharged;
    var today := env.today(w.trace);
    var loaded := D.LoadDone(w.stats, env.me, today);
    NothingExplained(env, w, |w.trace|);
    RollEven(env, w, j);
    RollEven(env, w, |w.trace|);
    RollKept(env, w);
    RolledLog(env, w, loaded);
    FillAdds(env, w.stats, today, env.today2(w.trace), usd, fee);
    var w1 := RollOver(env, w, loaded).w;
    forall halt, i | Matched(w1)
      ensures Matched(w1.(halt := halt)) && (Explained(env, w1, i) ==> Explained(env, w1.(halt := halt), i))
    {
      Aside(env, w1, w1.(halt := halt), i);
    }
    var next := D.RecordFillDone(env.limits, w.stats, env.me, today, env.today2(w.trace), usd, fee);
    if next.Some? && Matched(w1) {
      BookEven(env, w1, Book(|w1.trace|, usd, fee, D.FeeCharged(env.limits, usd, fee)), next.value, j);
    }
  }

  lemma {:induction false} NothingExplained(env: Env, w: World, j: nat)
    ensures j >= |w.trace| ==> Explained(env, w, j)
  {
  }

  lemma {:induction false} Aside(env: Env, a: World, b: World, j: nat)
    requires b == a.(index := b.index, halt := b.halt)
    ensures (Matched(a) ==> Matched(b)) && (Explained(env, a, j) ==> Explained(env, b, j))
  {
  }

  /** A rollover counts no fill. */
  lemma {:induction false} RolledLog(env: Env, w: World, loaded: D.Loaded)
    ensures var s := RollOver(env, w, loaded);
            && s.w == w.(stats := s.w.stats, books := s.w.books)
            && forall n :: CountedAt(s.w.books, n) <==> CountedAt(w.books, n)
  {
    hide CountedAt;
    if loaded.reset.Some? {
      var roll := Roll(|w.trace|, loaded.reset.value);
      var b1 := w.books + [roll];
      var reset := Reset(|w.trace|, loaded.reset.value, env.resetFate(w.trace, b1));
      forall n
        ensures CountedAt(b1, n) <==> CountedAt(w.books, n)
        ensures CountedAt(b1 + [reset], n) <==> CountedAt(w.books, n)
      {
        CountedOne(w.books, roll, n);
        CountedOne(b1, reset, n);
      }
    }
  }

  lemma {:induction false} UptoMore(books: seq<BookAct>, more: seq<BookAct>, n: nat)
    requires Upto(books, n) == |books| && forall i :: 0 <= i < |more| ==> more[i].at > n
    ensures Upto(books + more, n) == |books|
    decreases |more|
  {
    if more == [] {
      assert books + more == books;
    } else {
      var init, last := more[..|more| - 1], more[|more| - 1];
      UptoMore(books, init, n);
      assert books + more == (books + init) + [last];
    }
  }

  /** What the environment did to the last act, if it is a fill, by what the counters logged of it. */
  lemma {:induction false} AcceptedIs(env: Env, trace: seq<Act>, books: seq<BookAct>, more: seq<BookAct>)
    requires trace != [] && Upto(books, |trace| - 1) == |books|
    requires forall i :: 0 <= i < |more| ==> more[i].at == |trace|
    ensures Accepted(env, trace, books + more, |trace| - 1) <==>
            && !env.dies(trace) && env.counters(trace, books) == Replaced
            && (more != [] && more[0].Roll? ==>
                  var b1 := books + [more[0]];
                  var b2 := b1 + [Reset(|trace|, more[0].previous, env.resetFate(trace, b1))];
                  !env.diesBooking(trace, b1) && !env.diesBooking(trace, b2) && env.counters(trace, b2) == Replaced)
  {
    UptoMore(books, more, |trace| - 1);
    assert trace[..|trace|] == trace;
    assert (books + more)[..|books|] == books;
    if more != [] {
      assert (books + more)[|books|] == more[0];
      assert (books + more)[..|books| + 1] == books + [more[0]];
    }
  }

  /** What the counters log of one fill. */
  function Logging(env: Env, w: World, usd: real, fee: Option<real>): seq<BookAct> {
    var loaded := D.LoadDone(w.stats, env.me, env.today(w.trace));
    var book := Book(|w.trace|, usd, fee, D.FeeCharged(env.limits, usd, fee));
    if usd < 0.0 || !Usable(w) || env.counters(w.trace, w.books) != Replaced then []
    else if loaded.reset.None? then [book]
    else
      var roll := Roll(|w.trace|, loaded.reset.value);
      var b1 := w.books + [roll];
      var reset := Reset(|w.trace|, loaded.reset.value, env.resetFate(w.trace, b1));
      if env.diesBooking(w.trace, b1) then [roll]
      else if env.diesBooking(w.trace, b1 + [reset]) || env.counters(w.trace, b1 + [reset]) != Replaced
      then [roll, reset]
      else [roll, reset, book]
  }

  lemma {:induction false} LoggingIs(env: Env, w: World, usd: real, fee: Option<real>)
    ensures var s := CountFill(env, w, usd, fee);
            && s.w.trace == w.trace && s.w.books == w.books + Logging(env, w, usd, fee) && (Usable(s.w) <==> Usable(w))
  {
    hide D.LoadDone, D.RecordFillDone, H.Halted, Kept, D.View, D.FeeCharged;
    CountKept(env, w, usd, fee);
    FillAdds(env, w.stats, env.today(w.trace), env.today2(w.trace), usd, fee);
    LoadedFile(env, w);
    assert w.books + [] == w.books;
    var loaded := D.LoadDone(w.stats, env.me, env.today(w.trace));
    if loaded.reset.Some? {
      var roll := Roll(|w.trace|, loaded.reset.value);
      var b1 := w.books + [roll];
      var reset := Reset(|w.trace|, loaded.reset.value, env.resetFate(w.trace, b1));
      var book := Book(|w.trace|, usd, fee, D.FeeCharged(env.limits, usd, fee));
      assert b1 + [reset] == w.books + [roll, reset];
      assert b1 + [reset] + [book] == w.books + [roll, reset, book];
    }
  }

  lemma {:induction false} BookLast(env: Env, w: World, usd: real, fee: Option<real>)
    ensures var more := Logging(env, w, usd, fee);
            && (forall i :: 0 <= i < |more| ==> more[i].at == |w.trace|)
            && ((exists i :: 0 <= i < |more| && more[i].Book?) <==> more != [] && more[|more| - 1].Book?)
  {
    hide D.LoadDone, Usable, D.FeeCharged;
  }

  /** The fill whose entry is the last act, seen from itself. */
  lemma {:induction false} CountExplains(env: Env, w: World, usd: real, fee: Option<real>)
    requires w.trace != [] && IsFill(w.trace[|w.trace| - 1]) && Usd(w.trace[|w.trace| - 1]) == usd
    requires w.trace[|w.trace| - 1].fate.Written? && !env.dies(w.trace)
    requires Upto(w.books, |w.trace| - 1) == |w.books| && !CountedAt(w.books, |w.trace|)
    ensures Explained(env, CountFill(env, w, usd, fee).w, |w.trace| - 1)
  {
    hide Usd, Accepted, CountFill, D.LoadDone, Usable, CountedAt, IsFill;
    var more := Logging(env, w, usd, fee);
    BookLast(env, w, usd, fee);
    LoggingIs(env, w, usd, fee);
    AcceptedIs(env, w.trace, w.books, more);
    CountedMore(w.books, more, |w.trace|);
  }

  lemma {:induction false} CountedMore(books: seq<BookAct>, more: seq<BookAct>, n: nat)
    requires !CountedAt(books, n) && forall i :: 0 <= i < |more| ==> more[i].at == n
    ensures CountedAt(books + more, n) <==> exists i :: 0 <= i < |more| && more[i].Book?
    decreases |more|
  {
    if exists i :: 0 <= i < |more| && more[i].Book? {
      var i :| 0 <= i < |more| && more[i].Book?;
      assert (books + more)[|books| + i] == more[i];
    }
    if CountedAt(books + more, n) {
      var b :| 0 <= b < |books + more| && (books + more)[b].Book? && (books + more)[b].at == n;
      if b >= |books| {
        assert more[b - |books|] == (books + more)[b];
      }
    }
  }

  lemma {:induction false} FillEven(env: Env, w: World, c: Coid, o: Order, e: Effective, requested: real, j: nat)
    ensures Even(env, w, RecordFill(env, w, c, o, e, requested).w, j)
  {
    hide Matched, Explained, Kept, Usd, H.Halted, CountFill;
    var ev := Fill(c, Some(o.id), e.filled + SLACK < requested, e.filled, requested, e.avg, e.fee, e.duplicates);
    var act := Append(ev, env.fate(w.trace, ev));
    var led := Led(env, w, ev);
    FillKept(env, w, c, o, e, requested);
    if Matched(w) && Explained(env, w, j) {
      ActMatched(w, act);
      LogBehind(w);
      if j != |w.trace| {
        ActExplained(env, w, act, j);
      } else if led.Stop? {
        LastFill(env, w, act);
      }
      if led.Go? {
        var w2 := led.w.(index := Ended(led.w.index, c, Some(o.id)));
        var w' := w.(trace := w.trace + [act]);
        UsdIs(act, e);
        Aside(env, w', w2, j);
        CountEven(env, w2, Dollars(e), e.fee, j);
        if j == |w.trace| {
          CountExplains(env, w2, Dollars(e), e.fee);
        }
      }
    }
  }

  lemma {:induction false} FillKept(env: Env, w: World, c: Coid, o: Order, e: Effective, requested: real)
    ensures Kept(env.limits, w, RecordFill(env, w, c, o, e, requested).w)
  {
    hide Money, Taken, CountFill;
    var ev := Fill(c, Some(o.id), e.filled + SLACK < requested, e.filled, requested, e.avg, e.fee, e.duplicates);
    var led := Led(env, w, ev);
    SameKept(env.limits, w, led.w);
    if led.Go? {
      var w2 := led.w.(index := Ended(led.w.index, c, Some(o.id)));
      SameKept(env.limits, w, w2);
      CountKept(env, w2, Dollars(e), e.fee);
      KeptTwice(env.limits, w, w2, CountFill(env, w2, Dollars(e), e.fee).w);
    }
  }

  lemma {:induction false} SameKept(lim: D.Limits, w: World, w': World)
    ensures w'.books == w.books && w'.stats == w.stats ==> Kept(lim, w, w')
  {
  }

  lemma {:induction false} LogBehind(w: World)
    ensures Matched(w) ==> Upto(w.books, |w.trace|) == |w.books|
  {
  }

  lemma {:induction false} UsdIs(act: Act, e: Effective)
    ensures IsFill(act) && act.ev.filled == e.filled && act.ev.avg == e.avg ==> Usd(act) == Dollars(e)
  {
  }

  /** A fill entry whose append did not return, or behind which the process died: not counted. */
  lemma {:induction false} LastFill(env: Env, w: World, act: Act)
    requires Matched(w) && !CountedAt(w.books, |w.trace| + 1)
    requires IsFill(act) ==> !act.fate.Written? || env.dies(w.trace + [act])
    ensures Explained(env, w.(trace := w.trace + [act]), |w.trace|)
  {
    var t := w.trace + [act];
    assert t[..|w.trace| + 1] == t;
  }

  lemma {:induction false} FinalizeEven(env: Env, w: World, c: Coid, o: Order, requested: real, j: nat)
    ensures Even(env, w, Finalize(env, w, c, o, requested).w, j)
  {
    hide DeclareUnknown, RecordFill, EffectiveFill, Overfilled, Even, Led;
    UnknownEven(env, w, c, Some(o.id), j);
    FillEven(env, w, c, o, EffectiveFill(o), requested, j);
    var ev := NoFillCanceled(c, Some(o.id));
    LedEven(env, w, ev, j);
    EvenStays(env, w, j);
    forall w': World | w' == Led(env, w, ev).w.(index := w'.index)
      ensures Even(env, w, w', j)
    {
      SameMoney(env, w, Led(env, w, ev).w, w', j);
    }
  }

  lemma {:induction false} CancelEven(env: Env, w: World, c: Coid, id: string, requested: real, j: nat)
    ensures Even(env, w, CancelAndReread(env, w, c, id, requested).w, j)
  {
    hide DeclareUnknown, Finalize, Even;
    DoEven(env, w, Cancel(id), j);
    var w1 := Do(env, w, Cancel(id)).w;
    UnknownEven(env, w1, c, Some(id), j);
    EvenTwice(env, w, w1, DeclareUnknown(env, w1, c, Some(id)).w, j);
    DoEven(env, w1, Fetch(id), j);
    var w2 := Do(env, w1, Fetch(id)).w;
    EvenTwice(env, w, w1, w2, j);
    UnknownEven(env, w2, c, Some(id), j);
    EvenTwice(env, w, w2, DeclareUnknown(env, w2, c, Some(id)).w, j);
    if env.fetch(w2.trace).Got? {
      var o := env.fetch(w2.trace).order;
      FinalizeEven(env, w2, c, o, requested, j);
      var w3 := Finalize(env, w2, c, o, requested).w;
      EvenTwice(env, w, w2, w3, j);
      UnknownEven(env, w3, c, Some(id), j);
      EvenTwice(env, w, w3, DeclareUnknown(env, w3, c, Some(id)).w, j);
    }
  }

  lemma {:induction false} PollEven(env: Env, w: World, id: string, j: nat)
    ensures Even(env, w, Poll(env, w, id).w, j)
  {
    hide Even, TimeLeft;
    DoEven(env, w, Sleep, j);
    var w1 := Do(env, w, Sleep).w;
    DoEven(env, w1, Fetch(id), j);
    EvenTwice(env, w, w1, Do(env, w1, Fetch(id)).w, j);
  }

  lemma {:induction false} SettleEven(env: Env, w: World, c: Coid, id: string, last: Order, requested: real, t0: real,
                                      j: nat)
    ensures Even(env, w, Settle(env, w, c, id, last, requested, t0).w, j)
    decreases TimeLeft(env, w, t0)
  {
    hide DeclareUnknown, Finalize, CancelAndReread, Poll, Even, TimeLeft;
    FinalizeEven(env, w, c, last, requested, j);
    UnknownEven(env, w, c, Some(last.id), j);
    CancelEven(env, w, c, id, requested, j);
    PollEven(env, w, id, j);
    var polled := Poll(env, w, id);
    if polled.Go? && Now(env, w.trace) - t0 < env.timeout {
      UnknownEven(env, polled.w, c, Some(id), j);
      EvenTwice(env, w, polled.w, DeclareUnknown(env, polled.w, c, Some(id)).w, j);
      if polled.v.Got? {
        SettleEven(env, polled.w, c, id, polled.v.order, requested, t0, j);
        EvenTwice(env, w, polled.w, Settle(env, polled.w, c, id, polled.v.order, requested, t0).w, j);
      }
    }
  }

  lemma {:induction false} PlacedEven(env: Env, w: World, c: Coid, sent: Sent, o: Order, j: nat)
    ensures Even(env, w, Acknowledge(env, w, c, sent, o).w, j)
  {
    hide Settle, Even;
    var ev := OrderSent(c, Acked, Some(o.id), sent);
    LedEven(env, w, ev, j);
    var led := Led(env, w, ev);
    if led.Go? {
      var w2 := led.w.(index := Staged(led.w.index, c, Acked, Some(o.id)));
      SameMoney(env, w, led.w, w2, j);
      SettleEven(env, w2, c, o.id, o, sent.requested, Now(env, w2.trace), j);
      EvenTwice(env, w, w2, Settle(env, w2, c, o.id, o, sent.requested, Now(env, w2.trace)).w, j);
    }
  }

  lemma {:induction false} MaybeEven(env: Env, w: World, c: Coid, sent: Sent, promised: bool, j: nat)
    ensures Even(env, w, MaybePlaced(env, w, c, sent, promised).w, j)
  {
    hide Acknowledge, DeclareUnknown, Deny, Even;
    var ev := OrderSent(c, SentNoAck, None, sent);
    LedEven(env, w, ev, j);
    var led := Led(env, w, ev);
    if led.Go? {
      var w2 := led.w.(index := Staged(led.w.index, c, SentNoAck, None));
      SameMoney(env, w, led.w, w2, j);
      DoEven(env, w2, Lookup(c), j);
      var w3 := Do(env, w2, Lookup(c)).w;
      EvenTwice(env, w, w2, w3, j);
      UnknownEven(env, w3, c, None, j);
      EvenTwice(env, w, w3, DeclareUnknown(env, w3, c, None).w, j);
      DenyEven(env, w3, BROKER_NEVER_ACCEPTED, Some(c), j);
      EvenTwice(env, w, w3, Deny(env, w3, BROKER_NEVER_ACCEPTED, Some(c)).w, j);
      if env.lookup(w3.trace).Found? {
        PlacedEven(env, w3, c, sent, env.lookup(w3.trace).order, j);
        EvenTwice(env, w, w3, Acknowledge(env, w3, c, sent, env.lookup(w3.trace).order).w, j);
      }
    }
  }

  lemma {:induction false} SendEven(env: Env, w: World, c: Coid, sent: Sent, j: nat)
    ensures Even(env, w, Send(env, w, c, sent).w, j)
  {
    hide Acknowledge, MaybePlaced, Deny, H.Halted, Even;
    var ev := OrderSent(c, WriteAhead, None, sent);
    LedEven(env, w, ev, j);
    var led := Led(env, w, ev);
    SameMoney(env, w, led.w, SetHalt(env, led.w, false), j);
    if led.Go? {
      var w1 := led.w.(index := led.w.index[c := Rec(Some(WriteAhead), None, sent, false)]);
      SameMoney(env, w, led.w, w1, j);
      DoEven(env, w1, Create(c, sent), j);
      var w2 := Do(env, w1, Create(c, sent)).w;
      EvenTwice(env, w, w1, w2, j);
      DenyEven(env, w2, BROKER_REJECTED, Some(c), j);
      EvenTwice(env, w, w2, Deny(env, w2, BROKER_REJECTED, Some(c)).w, j);
      MaybeEven(env, w2, c, sent, true, j);
      EvenTwice(env, w, w2, MaybePlaced(env, w2, c, sent, true).w, j);
      MaybeEven(env, w2, c, sent, false, j);
      EvenTwice(env, w, w2, MaybePlaced(env, w2, c, sent, false).w, j);
      if env.create(w2.trace).Placed? {
        PlacedEven(env, w2, c, sent, env.create(w2.trace).order, j);
        EvenTwice(env, w, w2, Acknowledge(env, w2, c, sent, env.create(w2.trace).order).w, j);
      }
    }
  }

  lemma {:induction false} ExecuteEven(env: Env, w: World, r: Request, j: nat)
    ensures Even(env, w, Execute(env, w, r).w, j)
  {
    hide Send, Deny, CheckLimits, H.ActiveIn, Even;
    EvenStays(env, w, j);
    forall code
      ensures Even(env, w, Deny(env, w, code, None).w, j)
    {
      DenyEven(env, w, code, None, j);
    }
    if r.units.Some? {
      LimitsEven(env, w, r, j);
      var w1 := CheckLimits(env, w, r).w;
      forall code
        ensures Even(env, w, Deny(env, w1, code, None).w, j)
      {
        DenyEven(env, w1, code, None, j);
        EvenTwice(env, w, w1, Deny(env, w1, code, None).w, j);
      }
      SendEven(env, w1, r.ClientId(), Sent(r.symbol, r.isExit, r.Base()), j);
      EvenTwice(env, w, w1, Send(env, w1, r.ClientId(), Sent(r.symbol, r.isExit, r.Base())).w, j);
    }
  }

  lemma {:induction false} LimitsEven(env: Env, w: World, r: Request, j: nat)
    requires r.units.Some?
    ensures Even(env, w, CheckLimits(env, w, r).w, j)
  {
    hide D.LoadDone, D.CheckVerdict, RollOver, Even;
    EvenStays(env, w, j);
    RollEven(env, w, j);
  }

  // ------------------------------------------------------------------ startup

  lemma {:induction false} NotedEven(env: Env, w: World, rep: Report, c: Coid, id: Option<string>, j: nat)
    ensures Even(env, w, UnknownNoted(env, w, rep, c, id).w, j)
  {
    hide DeclareUnknown, Even;
    UnknownEven(env, w, c, id, j);
  }

  lemma {:induction false} ReconcileFoundEven(env: Env, w: World, rep: Report, c: Coid, rec: Rec, o: Order, j: nat)
    ensures Even(env, w, ReconcileFound(env, w, rep, c, rec, o).w, j)
  {
    hide UnknownNoted, Finalize, Led, Do, Even;
    var requested := if rec.sent.requested != 0.0 then rec.sent.requested else o.filled;
    var w0 := if c in w.index then w.(index := w.index[c := w.index[c].(orderId := Some(o.id))]) else w;
    EvenStays(env, w, j);
    SameMoney(env, w, w, w0, j);
    FinalizeEven(env, w0, c, o, requested, j);
    EvenTwice(env, w, w0, Finalize(env, w0, c, o, requested).w, j);
    LedEven(env, w0, LeftOpen(c, Some(o.id)), j);
    EvenTwice(env, w, w0, Led(env, w0, LeftOpen(c, Some(o.id))).w, j);
    DoEven(env, w0, Cancel(o.id), j);
    var w1 := Do(env, w0, Cancel(o.id)).w;
    EvenTwice(env, w, w0, w1, j);
    NotedEven(env, w1, rep, c, Some(o.id), j);
    EvenTwice(env, w, w1, UnknownNoted(env, w1, rep, c, Some(o.id)).w, j);
    DoEven(env, w1, Fetch(o.id), j);
    var w2 := Do(env, w1, Fetch(o.id)).w;
    EvenTwice(env, w, w1, w2, j);
    NotedEven(env, w2, rep, c, Some(o.id), j);
    EvenTwice(env, w, w2, UnknownNoted(env, w2, rep, c, Some(o.id)).w, j);
    if env.fetch(w2.trace).Got? {
      FinalizeEven(env, w2, c, env.fetch(w2.trace).order, requested, j);
      EvenTwice(env, w, w2, Finalize(env, w2, c, env.fetch(w2.trace).order, requested).w, j);
    }
  }

  lemma {:induction false} ReconcileEven(env: Env, w: World, rep0: Report, c: Coid, rec: Rec, j: nat)
    ensures Even(env, w, Reconcile(env, w, rep0, c, rec).w, j)
  {
    hide UnknownNoted, ReconcileFound, Led, Do, Even;
    var rep := rep0.(pendingSeen := rep0.pendingSeen + 1);
    var worse := rep.(errors := rep.errors + 1);
    DoEven(env, w, Lookup(c), j);
    var w1 := Do(env, w, Lookup(c)).w;
    NotedEven(env, w1, worse, c, rec.orderId, j);
    EvenTwice(env, w, w1, UnknownNoted(env, w1, worse, c, rec.orderId).w, j);
    match env.lookup(w1.trace)
    case Found(o) =>
      ReconcileFoundEven(env, w1, rep, c, rec, o, j);
      EvenTwice(env, w, w1, ReconcileFound(env, w1, rep, c, rec, o).w, j);
    case NotFound =>
      LedEven(env, w1, Resolved(c, rec.stage), j);
      var w2 := Led(env, w1, Resolved(c, rec.stage)).w;
      EvenTwice(env, w, w1, w2, j);
      SameMoney(env, w, w2, if c in w2.index then w2.(index := Ended(w2.index, c, w2.index[c].orderId)) else w2, j);
    case LookupRaised =>
      if Or(rec.orderId, None).Some? {
        DoEven(env, w1, Fetch(rec.orderId.value), j);
        var w2 := Do(env, w1, Fetch(rec.orderId.value)).w;
        EvenTwice(env, w, w1, w2, j);
        NotedEven(env, w2, worse, c, rec.orderId, j);
        EvenTwice(env, w, w2, UnknownNoted(env, w2, worse, c, rec.orderId).w, j);
        if env.fetch(w2.trace).Got? {
          ReconcileFoundEven(env, w2, rep, c, rec, env.fetch(w2.trace).order, j);
          EvenTwice(env, w, w2, ReconcileFound(env, w2, rep, c, rec, env.fetch(w2.trace).order).w, j);
        }
      }
  }

  lemma {:induction false} ReconcileAllEven(env: Env, w: World, rep: Report, pending: seq<(Coid, Rec)>, j: nat)
    ensures Even(env, w, ReconcileAll(env, w, rep, pending).w, j)
    decreases |pending|
  {
    hide Reconcile, Even;
    if pending == [] {
      EvenStays(env, w, j);
    } else {
      var init, last := pending[..|pending| - 1], pending[|pending| - 1];
      ReconcileAllEven(env, w, rep, init, j);
      var before := ReconcileAll(env, w, rep, init);
      if before.Go? {
        ReconcileEven(env, before.w, before.v, last.0, last.1, j);
        EvenTwice(env, w, before.w, Reconcile(env, before.w, before.v, last.0, last.1).w, j);
      }
    }
  }

  lemma {:induction false} StrangeEven(env: Env, w: World, rep: Report, ids: set<string>, symbol: string, o: Order,
                                       j: nat)
    ensures Even(env, w, Strange(env, w, rep, ids, symbol, o).w, j)
  {
    hide UnknownNoted, Do, Known, Even;
    EvenStays(env, w, j);
    NotedEven(env, w, rep, Foreign(o.id), Some(o.id), j);
    DoEven(env, w, Cancel(o.id), j);
    var w1 := Do(env, w, Cancel(o.id)).w;
    var rep1 := if env.fetch(w1.trace).Got? then rep.(canceled := rep.canceled + [Foreign(o.id)]) else rep;
    NotedEven(env, w1, rep1, Foreign(o.id), Some(o.id), j);
    EvenTwice(env, w, w1, UnknownNoted(env, w1, rep1, Foreign(o.id), Some(o.id)).w, j);
  }

  lemma {:induction false} StrangeAllEven(env: Env, w: World, rep: Report, ids: set<string>, symbol: string,
                                          orders: seq<Order>, j: nat)
    ensures Even(env, w, StrangeAll(env, w, rep, ids, symbol, orders).w, j)
    decreases |orders|
  {
    hide Strange, Even;
    if orders == [] {
      EvenStays(env, w, j);
    } else {
      StrangeAllEven(env, w, rep, ids, symbol, orders[..|orders| - 1], j);
      var before := StrangeAll(env, w, rep, ids, symbol, orders[..|orders| - 1]);
      if before.Go? {
        StrangeEven(env, before.w, before.v, ids, symbol, orders[|orders| - 1], j);
        EvenTwice(env, w, before.w, Strange(env, before.w, before.v, ids, symbol, orders[|orders| - 1]).w, j);
      }
    }
  }

  lemma {:induction false} SymbolsEven(env: Env, w: World, rep: Report, ids: set<string>, symbols: seq<string>, j: nat)
    ensures Even(env, w, Symbols(env, w, rep, ids, symbols).w, j)
    decreases |symbols|
  {
    hide StrangeAll, Do, Even;
    if symbols == [] {
      EvenStays(env, w, j);
    } else {
      var init, last := symbols[..|symbols| - 1], symbols[|symbols| - 1];
      SymbolsEven(env, w, rep, ids, init, j);
      var before := Symbols(env, w, rep, ids, init);
      if before.Go? {
        DoEven(env, before.w, ListOpen(last), j);
        var did := Do(env, before.w, ListOpen(last));
        EvenTwice(env, w, before.w, did.w, j);
        if did.Go? && env.list(did.w.trace).Listed? {
          StrangeAllEven(env, did.w, before.v, ids, last, env.list(did.w.trace).orders, j);
          EvenTwice(env, w, did.w, StrangeAll(env, did.w, before.v, ids, last, env.list(did.w.trace).orders).w, j);
        }
      }
    }
  }

  lemma {:induction false} StartupEven(env: Env, w: World, symbols: seq<string>, j: nat)
    ensures Even(env, w, Startup(env, w, symbols).w, j)
  {
    hide ReconcileAll, Symbols, Led, FoundSomething, PendingList, Coids, Rebuilt, KnownIds, H.Clears, H.Halted, Even;
    var w0 := w.(trace := w.trace + [Rebuild], index := Rebuilt(w.trace));
    ActEven(env, w, Rebuild, j);
    SameMoney(env, w, w.(trace := w.trace + [Rebuild]), w0, j);
    var pending := PendingList(w.trace, Coids(w.trace));
    ReconcileAllEven(env, w0, NO_REPORT, pending, j);
    var all := ReconcileAll(env, w0, NO_REPORT, pending);
    EvenTwice(env, w, w0, all.w, j);
    if all.Go? {
      SymbolsEven(env, all.w, all.v, KnownIds(all.w.index), symbols, j);
      var listed := Symbols(env, all.w, all.v, KnownIds(all.w.index), symbols);
      EvenTwice(env, w, all.w, listed.w, j);
      if listed.Go? {
        LedEven(env, listed.w, Summary, j);
        var led := Led(env, listed.w, Summary);
        EvenTwice(env, w, listed.w, led.w, j);
        SameMoney(env, w, led.w, Policy(env, listed.w, listed.v).w, j);
      }
    }
  }

  lemma {:induction false} RunEven(env: Env, w: World, ops: seq<Op>, j: nat)
    ensures Even(env, w, Run(env, w, ops), j)
    decreases |ops|
  {
    hide Even, Perform;
    if ops == [] {
      EvenStays(env, w, j);
    } else {
      RunEven(env, w, ops[..|ops| - 1], j);
      var before := Run(env, w, ops[..|ops| - 1]);
      PerformEven(env, before, ops[|ops| - 1], j);
      EvenTwice(env, w, before, Perform(env, before, ops[|ops| - 1]), j);
    }
  }

  lemma {:induction false} PerformEven(env: Env, w: World, op: Op, j: nat)
    ensures Even(env, w, Perform(env, w, op), j)
  {
    hide Execute, Startup, H.Clears, Even;
    EvenStays(env, w, j);
    match op
    case Exec(r) =>
      ExecuteEven(env, w, r, j);
      SameMoney(env, w, Execute(env, w, r).w, Perform(env, w, op), j);
    case Start(symbols) =>
      StartupEven(env, w, symbols, j);
      SameMoney(env, w, Startup(env, w, symbols).w, Perform(env, w, op), j);
    case Crash => SameMoney(env, w, w, Crashed(w), j);
    case ClearByHand => SameMoney(env, w, w, HandClear(w), j);
  }

  /** Nothing has happened yet; the counters' file may hold anything. */
  predicate Unused(w: World) { w.trace == [] && w.books == [] }

  /** Via the executor, over every run, under every environment: races, late and failed appends, deaths at any act.
      Every fill taken is in the file, in a DAILY_STATS_RESET entry or in a day whose entry was lost, beside what the
      file held at first; what was taken are the dollars of the FILL and PARTIAL_FILL entries but those missed; and a
      fill entry is missed exactly if its append raised, its dollars are negative, the process died behind it or in
      its rollover, the counters are unusable, or their file could not be replaced. */
  lemma {:induction false} DollarsAreFills(env: Env, w: World, ops: seq<Op>)
    requires Unused(w)
    ensures var z := Run(env, w, ops);
            && Money(z) == D.InBook(D.View(w.stats)).Plus(Taken(z.books)) && Charged(env.limits, z.books)
            && Taken(z.books).filled
               == FillDollars(z.trace, |z.trace|) - MissedDollars(z.trace, z.books, |z.trace|)
            && (forall j :: 0 <= j < |z.trace| ==> Explained(env, z, j))
            && (Usable(z) <==> Usable(w))
  {
    hide Run, Explained, Unused, D.InBook, D.View;
    var z := Run(env, w, ops);
    forall j | 0 <= j < |z.trace|
      ensures Explained(env, z, j)
    {
      FirstEven(env, w, j);
      RunEven(env, w, ops, j);
    }
    FirstEven(env, w, 0);
    RunEven(env, w, ops, 0);
    FirstMoney(env, w, z);
    TakenDollars(z.books);
    CountedOrMissed(z.trace, z.books, |z.trace|);
  }

  lemma {:induction false} FirstEven(env: Env, w: World, j: nat)
    ensures Unused(w) ==> Matched(w) && Explained(env, w, j)
  {
  }

  lemma {:induction false} FirstMoney(env: Env, w: World, z: World)
    requires Unused(w) && Kept(env.limits, w, z)
    ensures Money(z) == D.InBook(D.View(w.stats)).Plus(Taken(z.books)) && (Usable(z) <==> Usable(w))
    ensures Charged(env.limits, z.books)
  {
    hide D.InBook, D.View, D.Current, D.FeeCharged, Money;
    MoneyParts(w);
    D.NoDays();
    assert Funded(w, D.InBook(D.View(w.stats)));
  }

  lemma {:induction false} NoneMissed(trace: seq<Act>, books: seq<BookAct>, n: nat)
    requires n <= |trace| && forall j :: 0 <= j < n && IsFill(trace[j]) ==> Usd(trace[j]) >= 0.0
    ensures MissedDollars(trace, books, n) >= 0.0
    ensures MissedDollars(trace, books, n) == 0.0 <==>
              forall j :: 0 <= j < n && IsFill(trace[j]) && Usd(trace[j]) != 0.0 ==> CountedAt(books, j + 1)
    decreases n
  {
    hide Usd, CountedAt;
    if n > 0 {
      NoneMissed(trace, books, n - 1);
    }
  }

  /** So, unless some fill has a negative price: the counters took all the dollars of the fill entries if and only if
      no fill with dollars was late, died behind or refused by the counters' writer. */
  lemma {:induction false} AllDollarsTaken(env: Env, w: World, ops: seq<Op>)
    requires Unused(w) && Usable(w)
    requires var t := Run(env, w, ops).trace; forall j :: 0 <= j < |t| && IsFill(t[j]) ==> Usd(t[j]) >= 0.0
    ensures var z := Run(env, w, ops);
            Taken(z.books).filled == FillDollars(z.trace, |z.trace|) <==>
              forall j :: 0 <= j < |z.trace| && IsFill(z.trace[j]) && Usd(z.trace[j]) != 0.0 ==>
                z.trace[j].fate.Written? && Accepted(env, z.trace, z.books, j)
  {
    hide Run, Unused, Usd, CountedAt, Accepted, Money;
    DollarsAreFills(env, w, ops);
    var z := Run(env, w, ops);
    NoneMissed(z.trace, z.books, |z.trace|);
    forall j | 0 <= j < |z.trace| && IsFill(z.trace[j])
      ensures CountedAt(z.books, j + 1) <==> z.trace[j].fate.Written? && Accepted(env, z.trace, z.books, j)
    {
      assert Explained(env, z, j);
    }
  }
}
