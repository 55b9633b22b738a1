/** Runs that show where the promises of the executor end: each is a run of the machine from its first startup. They
    stand beside the exact conditions of ExecutorIndex, ExecutorDollars, ExecutorGates and ExecutorStartup, and show the
    input on which each of them fails; the last one is an adapter that keeps the guarantees of ExecutorExposure. */
module ExecutorExamples {
  import opened Options
  import SF = StateFiles
  import opened Executor
  import opened ExecutorDollars
  import X = ExecutorExposure
  import opened ExecutorGates
  import opened ExecutorIndex
  import opened ExecutorStartup
  import H = EntryHalts
  import D = DailyLimits

  const FILLED_ORDER := Order("o1", Closed, 1.0, Some(100.0), Some(0.0), None, [])
  const STRANGE_ORDER := Order("o1", OrderStatus.Unknown, 0.0, None, None, None, [])
  const OLD_ORDER := Order("o1", Open, 0.0, None, None, Some(Client("d")), [])

  /** A broker that answers a create with one order, a lookup or a fetch with an exception, a listing with what it is
      given; appends, deaths and halt writes as they are given. */
  function Scripted(fate: (seq<Act>, Event) -> Fate, dies: seq<Act> -> bool, haltFails: seq<Act> -> bool, order: Order,
                    listed: seq<Order>): Env {
    Env(fate, dies, _ => Placed(order), _ => FetchRaised, _ => LookupRaised, _ => Listed(listed), _ => 0.0, 1.0, 10.0,
        _ => 1, _ => 1, (_, _) => Replaced, (_, _) => Written, (_, _) => false, haltFails, (_, _) => Some(true),
        D.Limits(None, None, None, None), SF.Ident(1, "t"))
  }

  const NEW := World([], map[], false, SF.Absent, SF.Absent, [], 0)

  /** An exit of one unit that every gate lets through. */
  const CLOSE := Request("d", "S", true, true, Some(Units(1.0, 100.0)), true, NoStep)

  const SENT := Sent("S", true, 1.0)

  function Started(): World {
    World([Rebuild, Append(Summary, Written)], map[], true, SF.Absent, SF.Absent, [], 0)
  }

  /** The write-ahead, the create and its acknowledgement. */
  function Acknowledged(): World {
    World(Started().trace + [Append(OrderSent(Client("d"), WriteAhead, None, SENT), Written)]
          + [Create(Client("d"), SENT)]
          + [Append(OrderSent(Client("d"), Acked, Some("o1"), SENT), Written)],
          map[Client("d") := Rec(Some(Acked), Some("o1"), SENT, false)], true, SF.Absent, SF.Absent, [], 0)
  }

  /** Appends of anything but a terminal entry are written, and the process lives until there is one. */
  ghost predicate QuietSoFar(env: Env) {
    && (forall t, ev :: ev == Summary || ev.OrderSent? ==> env.fate(t, ev).Written?)
    && (forall t: seq<Act> :: t != [] && (t[|t| - 1].Append? ==> !Terminal(t[|t| - 1].ev)) ==> !env.dies(t))
  }

  lemma {:induction false} FirstStartup(env: Env)
    requires QuietSoFar(env)
    ensures Startup(env, NEW, []) == Go(Started(), NO_REPORT)
    ensures Run(env, NEW, [Start([])]) == Started()
  {
    var w0 := NEW.(trace := [Rebuild]);
    assert NEW.trace + [Rebuild] == [Rebuild];
    assert Rebuilt([]) == map[] && Coids([]) == [] && PendingList([], []) == [];
    assert ReconcileAll(env, w0, NO_REPORT, []) == Go(w0, NO_REPORT);
    assert Symbols(env, w0, NO_REPORT, KnownIds(w0.index), []) == Go(w0, NO_REPORT);
    var t := w0.trace + [Append(Summary, Written)];
    assert t[|t| - 1] == Append(Summary, Written);
    assert t == Started().trace;
    assert [Start([])][..0] == [];
    assert Run(env, NEW, []) == NEW;
  }

  lemma {:induction false} CloseSent(env: Env, order: Order)
    requires QuietSoFar(env) && order.id == "o1" && forall t :: env.create(t) == Placed(order)
    ensures Execute(env, Started(), CLOSE) == Settle(env, Acknowledged(), Client("d"), "o1", order, 1.0,
                                                     Now(env, Acknowledged().trace))
  {
    hide Settle, Now;
    var c, w := Client("d"), Started();
    var t1 := w.trace + [Append(OrderSent(c, WriteAhead, None, SENT), Written)];
    assert t1[|t1| - 1] == Append(OrderSent(c, WriteAhead, None, SENT), Written);
    var t2 := t1 + [Create(c, SENT)];
    assert t2[|t2| - 1] == Create(c, SENT);
    var t3 := t2 + [Append(OrderSent(c, Acked, Some("o1"), SENT), Written)];
    assert t3[|t3| - 1] == Append(OrderSent(c, Acked, Some("o1"), SENT), Written);
    var w1 := w.(trace := t1, index := map[c := Rec(Some(WriteAhead), None, SENT, false)]);
    assert Led(env, w, OrderSent(c, WriteAhead, None, SENT)) == Go(w.(trace := t1), ());
    assert Do(env, w1, Create(c, SENT)) == Go(w1.(trace := t2), ());
    assert Execute(env, w, CLOSE) == Send(env, w, c, SENT);
    assert Send(env, w, c, SENT) == Acknowledge(env, w1.(trace := t2), c, SENT, order);
    assert Staged(w1.index, c, Acked, Some("o1")) == Acknowledged().index;
    assert t3 == Acknowledged().trace;
    assert Led(env, w1.(trace := t2), OrderSent(c, Acked, Some("o1"), SENT)) == Go(w1.(trace := t3), ());
  }

  lemma {:induction false} RunOfTwo(env: Env)
    requires QuietSoFar(env)
    ensures Run(env, NEW, [Start([]), Exec(CLOSE)]) == Perform(env, Started(), Exec(CLOSE))
  {
    hide Perform;
    FirstStartup(env);
    assert [Start([]), Exec(CLOSE)][..1] == [Start([])];
  }

  // ------------------------------------------------------------------ a late entry

  function LateFills(): Env {
    Scripted((_: seq<Act>, ev: Event) => if ev.Fill? then Late else Written, _ => false, _ => false, FILLED_ORDER, [])
  }

  /** The fill's append raises after its line was written: memory has the order pending, the ledger has ended it. */
  lemma {:induction false} LateFailure()
    ensures var z := Run(LateFills(), NEW, [Start([]), Exec(CLOSE)]);
            && NotReused(z.trace, Client("d")) && LateEnd(z.trace, Client("d"))
            && Pending(z.index, Client("d")) && !Pending(Rebuilt(z.trace), Client("d"))
  {
    hide Run, Settle, Execute, Rebuilt, NotReused, LateEnd, Now;
    var env, w := LateFills(), Acknowledged();
    RunOfTwo(env);
    CloseSent(env, FILLED_ORDER);
    FillOf(env, w);
    LateTrace();
  }

  const FILL_ENTRY := Event.Fill(Client("d"), Some("o1"), false, 1.0, 1.0, Some(100.0), Some(0.0), [])

  lemma {:induction false} LateTrace()
    ensures var t := Acknowledged().trace + [Append(FILL_ENTRY, Late)];
            NotReused(t, Client("d")) && LateEnd(t, Client("d")) && !Pending(Rebuilt(t), Client("d"))
  {
    var c, t := Client("d"), Acknowledged().trace + [Append(FILL_ENTRY, Late)];
    assert |t| == 6 && EndsLate(t[5], c);
    RebuiltTracks(t, c);
    LateTracks(t, c);
    TrackedOne(Acknowledged().trace, Append(FILL_ENTRY, Late), c);
    hide Rebuilt, Tracked;
    assert !EndsIt(t[0], c) && !EndsIt(t[1], c) && !EndsIt(t[2], c) && !EndsIt(t[3], c) && !EndsIt(t[4], c);
  }

  lemma {:induction false} FillOf(env: Env, w: World)
    ensures Settle(env, w, Client("d"), "o1", FILLED_ORDER, 1.0, Now(env, w.trace))
            == RecordFill(env, w, Client("d"), FILLED_ORDER, Effective(1.0, Some(100.0), Some(0.0), []), 1.0)
  {
    hide RecordFill, Now;
    assert EffectiveFill(FILLED_ORDER) == Effective(1.0, Some(100.0), Some(0.0), []);
  }

  // ------------------------------------------------------------------ a death behind a fill

  function DiesBehindFills(): Env {
    Scripted((_, _) => Written, (t: seq<Act>) => t != [] && t[|t| - 1].Append? && t[|t| - 1].ev.Fill?, _ => false,
             FILLED_ORDER, [])
  }

  /** The process dies right behind its fill entry: the ledger has a hundred dollars the counters never saw. */
  lemma {:induction false} FillMissed()
    ensures var z := Run(DiesBehindFills(), NEW, [Start([]), Exec(CLOSE)]);
            FillDollars(z.trace, |z.trace|) == 100.0 && z.books == []
  {
    hide Run, Settle, Execute, Now, FillDollars;
    var env, w := DiesBehindFills(), Acknowledged();
    RunOfTwo(env);
    CloseSent(env, FILLED_ORDER);
    FillOf(env, w);
    var t := w.trace + [Append(FILL_ENTRY, Written)];
    assert t[|t| - 1] == Append(FILL_ENTRY, Written);
    OneFill(t);
  }

  lemma {:induction false} OneFill(t: seq<Act>)
    requires t == Acknowledged().trace + [Append(FILL_ENTRY, Written)]
    ensures FillDollars(t, |t|) == 100.0
  {
    assert |t| == 6 && !IsFill(t[0]) && !IsFill(t[1]) && !IsFill(t[2]) && !IsFill(t[3]) && !IsFill(t[4]);
    NoFills(t, 5);
    assert Usd(t[5]) == 100.0;
  }

  lemma {:induction false} NoFills(t: seq<Act>, n: nat)
    requires n <= |t| && forall i :: 0 <= i < n ==> !IsFill(t[i])
    ensures FillDollars(t, n) == 0.0
    decreases n
  {
    if n > 0 {
      NoFills(t, n - 1);
    }
  }

  // ------------------------------------------------------------------ an order nobody knows the state of

  /** The order comes back in no known state; whether the halt can be written is given. */
  function Unsettled(haltFails: bool, listed: seq<Order>): Env {
    Scripted((_, _) => Written, _ => false, _ => haltFails, STRANGE_ORDER, listed)
  }

  const UNKNOWN_ENTRY := UnknownState(Client("d"), Some("o1"))

  lemma {:induction false} UnknownOf(env: Env, w: World)
    ensures Settle(env, w, Client("d"), "o1", STRANGE_ORDER, 1.0, Now(env, w.trace))
            == DeclareUnknown(env, w, Client("d"), Some("o1"))
  {
    hide DeclareUnknown, Now;
    assert EffectiveFill(STRANGE_ORDER) == Effective(0.0, None, None, []);
  }

  /** The halt cannot be written: execute returns UNKNOWN and no halt stands behind it. */
  lemma {:induction false} UnknownWithoutHalt()
    ensures var s := Execute(Unsettled(true, []), Started(), CLOSE);
            s.Go? && s.v.status == UNKNOWN && !HaltedIn(s.w)
    ensures Run(Unsettled(true, []), NEW, [Start([])]) == Started()
  {
    hide Settle, Execute, Now;
    var env := Unsettled(true, []);
    FirstStartup(env);
    CloseSent(env, STRANGE_ORDER);
    UnknownOf(env, Acknowledged());
  }

  /** The halt was written, and the order is open at the broker after all: the next startup is shown the open order,
      finds nothing, because the ledger knows its client id, and clears the halt. */
  lemma {:induction false} ClearedOverOpenOrder()
    ensures var env := Unsettled(false, [OLD_ORDER]);
            var w := Run(env, NEW, [Start([]), Exec(CLOSE)]);
            var s := Startup(env, w, ["S"]);
            && HaltedIn(w) && s.Go? && s.v.haltCleared
            && Seen(env, w.trace, s.w.trace, OLD_ORDER) && OLD_ORDER.status == Open
  {
    hide Run, Startup, Strangers, HaltedIn, Rebuilt, Seen;
    var env := Unsettled(false, [OLD_ORDER]);
    var w := Run(env, NEW, [Start([]), Exec(CLOSE)]);
    BehindUnknown();
    RunStrangers(env, w);
    EndedOnly(w.trace);
    ClearsAll(env, w);
  }

  lemma {:induction false} BehindUnknown()
    ensures var w := Run(Unsettled(false, [OLD_ORDER]), NEW, [Start([]), Exec(CLOSE)]);
            && w.trace == Acknowledged().trace + [Append(UNKNOWN_ENTRY, Written)]
            && HaltedIn(w) && H.Clears(w.halt, H.ClearHalt("", true))
  {
    hide Run, Settle, Execute, Now;
    var env := Unsettled(false, [OLD_ORDER]);
    RunOfTwo(env);
    CloseSent(env, STRANGE_ORDER);
    UnknownOf(env, Acknowledged());
  }

  lemma {:induction false} ClearsAll(env: Env, w: World)
    requires env == Unsettled(false, [OLD_ORDER]) && Strangers(w.trace) && H.Clears(w.halt, H.ClearHalt("", true))
    requires Client("d") in Rebuilt(w.trace) && NothingPending(w.trace)
    ensures var s := Startup(env, w, ["S"]);
            s.Go? && s.v.haltCleared && Seen(env, w.trace, s.w.trace, OLD_ORDER)
  {
    hide Startup, Strangers, NothingPending, AllKnown, PendingResolved, Rebuilt, H.Clears;
    StartupReconciles(env, w, ["S"]);
    var s := Startup(env, w, ["S"]);
    KnownThroughout(env, w.trace, s.w.trace);
    assert AskedFor(w.trace, s.w.trace, "S");
    var k :| |w.trace| <= k < |s.w.trace| && s.w.trace[k] == ListOpen("S");
    assert env.list(s.w.trace[..k + 1]) == Listed([OLD_ORDER]);
  }

  lemma {:induction false} RunStrangers(env: Env, w: World)
    requires w == Run(env, NEW, [Start([]), Exec(CLOSE)])
    ensures Strangers(w.trace)
  {
    hide Run, Proper;
    StrangersProper(env, NEW, [Start([]), Exec(CLOSE)]);
  }

  lemma {:induction false} EndedOnly(t: seq<Act>)
    requires t == Acknowledged().trace + [Append(UNKNOWN_ENTRY, Written)]
    ensures Client("d") in Rebuilt(t) && NothingPending(t)
  {
    var c := Client("d");
    var t1 := [Rebuild, Append(Summary, Written)];
    var t2 := t1 + [Append(OrderSent(c, WriteAhead, None, SENT), Written)];
    var t3 := t2 + [Create(c, SENT)];
    var t4 := t3 + [Append(OrderSent(c, Acked, Some("o1"), SENT), Written)];
    assert t == t4 + [Append(UNKNOWN_ENTRY, Written)];
    hide Rebuilt;
    RebuiltOne(t1, Append(OrderSent(c, WriteAhead, None, SENT), Written));
    RebuiltOne(t2, Create(c, SENT));
    RebuiltOne(t3, Append(OrderSent(c, Acked, Some("o1"), SENT), Written));
    RebuiltOne(t4, Append(UNKNOWN_ENTRY, Written));
  }

  lemma {:induction false} KnownThroughout(env: Env, t: seq<Act>, t': seq<Act>)
    ensures (Client("d") in Rebuilt(t) && forall u :: env.list(u) == Listed([OLD_ORDER])) ==>
              AllKnown(env, t, t', Rebuilt(t), KnownIds(Rebuilt(t)))
  {
    hide Rebuilt, KnownIds;
  }

  // ------------------------------------------------------------------ a broker that keeps its guarantees

  /** The ids created and not canceled since. */
  function Live(t: seq<Act>): set<Coid> {
    if t == [] then {}
    else
      var init, last := t[..|t| - 1], t[|t| - 1];
      if last.Cancel? then {} else Live(init) + if last.Create? then {last.coid} else {}
  }

  /** An adapter that answers from this book: an order is open until it is canceled, and nothing is waited for. */
  function Cancelable(): Env {
    Unsettled(false, []).(
    create := _ => Placed(OLD_ORDER),
    fetch := (t: seq<Act>) =>
      Got(Order(if t != [] && t[|t| - 1].Fetch? then t[|t| - 1].orderId else "o1",
                if Live(t) == {} then Canceled else Open, 0.0, None, None, None, [])),
    timeout := 0.0)
  }

  /** The guarantees can be kept: such an adapter keeps them, over a run in which its order is live and is then
      ended. */
  lemma {:induction false} GuaranteesCanBeKept()
    ensures X.Guarantees(Cancelable(), Live)
    ensures var t := Run(Cancelable(), NEW, [Start([]), Exec(CLOSE)]).trace;
            && 4 <= |t| && Live(t[..4]) == {Client("d")} && Live(t) == {}
            && t[|t| - 1] == Append(NoFillCanceled(Client("d"), Some("o1")), Written)
  {
    hide Run, Settle, Execute, Now, Live, X.Guarantees;
    var env, w := Cancelable(), Acknowledged();
    KeepsGuarantees();
    RunOfTwo(env);
    CloseSent(env, OLD_ORDER);
    CanceledOf(env, w);
    LiveThenOver();
    assert (w.trace + CANCELED)[..4] == w.trace[..4];
  }

  lemma {:induction false} KeepsGuarantees()
    ensures X.Guarantees(Cancelable(), Live)
  {
    forall t: seq<Act>, a
      ensures Live(t + [a]) <= Live(t) + if a.Create? then {a.coid} else {}
    {
      LiveOne(t, a);
    }
  }

  const CANCELED := [Cancel("o1"), Fetch("o1"), Append(NoFillCanceled(Client("d"), Some("o1")), Written)]

  lemma {:induction false} LiveOne(t: seq<Act>, a: Act)
    ensures Live(t + [a]) == if a.Cancel? then {} else Live(t) + if a.Create? then {a.coid} else {}
  {
    assert (t + [a])[..|t|] == t;
  }

  lemma {:induction false} LiveThenOver()
    ensures var t := Acknowledged().trace;
            && Live(t[..4]) == {Client("d")} && Live(t + [Cancel("o1")]) == {}
            && Live(t + CANCELED[..2]) == {} && Live(t + CANCELED) == {}
  {
    var t, t5 := Acknowledged().trace, Acknowledged().trace + [Cancel("o1")];
    hide Live;
    var t1 := [Rebuild, Append(Summary, Written)];
    var t2 := t1 + [Append(OrderSent(Client("d"), WriteAhead, None, SENT), Written)];
    FirstLive();
    LiveOne(t1, Append(OrderSent(Client("d"), WriteAhead, None, SENT), Written));
    LiveOne(t2, Create(Client("d"), SENT));
    assert t[..4] == t2 + [Create(Client("d"), SENT)];
    LiveOne(t, Cancel("o1"));
    LiveOne(t5, Fetch("o1"));
    assert t + CANCELED[..2] == t5 + [Fetch("o1")];
    LiveOne(t + CANCELED[..2], CANCELED[2]);
    assert t + CANCELED == t + CANCELED[..2] + [CANCELED[2]];
  }

  lemma {:induction false} FirstLive()
    ensures Live([Rebuild, Append(Summary, Written)]) == {}
  {
    var t := [Rebuild, Append(Summary, Written)];
    assert t[..1] == [Rebuild] && t[..1][..0] == [];
  }

  lemma {:induction false} CanceledOf(env: Env, w: World)
    requires env == Cancelable() && w == Acknowledged()
    ensures Settle(env, w, Client("d"), "o1", OLD_ORDER, 1.0, Now(env, w.trace)).w.trace == w.trace + CANCELED
  {
    hide Now, Live;
    LiveThenOver();
    var c, t1 := Client("d"), w.trace + [Cancel("o1")];
    assert t1 + [Fetch("o1")] == w.trace + CANCELED[..2];
    assert t1 + [Fetch("o1")] + [CANCELED[2]] == w.trace + CANCELED;
    assert EffectiveFill(OLD_ORDER) == Effective(0.0, None, None, []);
    assert Settle(env, w, c, "o1", OLD_ORDER, 1.0, Now(env, w.trace)) == CancelAndReread(env, w, c, "o1", 1.0);
    assert EffectiveFill(env.fetch(t1 + [Fetch("o1")]).order) == Effective(0.0, None, None, []);
  }
}
