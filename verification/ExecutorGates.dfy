/** The halt and the daily counters against the broker: exits never depend on them, and entries stop behind a halt.
    The first half runs one exit over two worlds that differ in the halt and the counters only; the second follows the
    halt through execute, startup and whole runs, with halt writes that may fail and processes that may die. */
module ExecutorGates {
  import opened Options
  import opened Executor
  import H = EntryHalts
  import D = DailyLimits
  import ExecutorIndex

  // ------------------------------------------------------------------ exits are blind to both files

  /** The same acts, index and start flag; any halt file, any daily counters. */
  predicate Alike(a: World, b: World) {
    a.trace == b.trace && a.index == b.index && a.started == b.started
  }

  /** Writing the daily counters neither kills the process nor ends in a halt that cannot be written. */
  ghost predicate Undisturbed(env: Env) {
    (forall t, b :: !env.diesBooking(t, b)) && (forall t :: !env.haltFails(t))
  }

  /** The same acts, broker calls included, and the same result if both return; and both return, unless the
      bookkeeping of a fill is disturbed. */
  ghost predicate SameStep<T>(env: Env, a: Step<T>, b: Step<T>) {
    && Alike(a.w, b.w)
    && (a.Go? && b.Go? ==> a.v == b.v)
    && (Undisturbed(env) ==> (a.Go? <==> b.Go?) && (a.Stop? && b.Stop? ==> a.died == b.died))
  }

  lemma {:induction false} SameUnknown(env: Env, a: World, b: World, c: Coid, id: Option<string>)
    ensures Alike(a, b) ==> SameStep(env, DeclareUnknown(env, a, c, id), DeclareUnknown(env, b, c, id))
  {
    hide H.Halted;
  }

  lemma {:induction false} SameDeny(env: Env, a: World, b: World, code: Code, about: Option<Coid>)
    ensures Alike(a, b) ==> SameStep(env, Deny(env, a, code, about), Deny(env, b, code, about))
  {
  }

  lemma {:induction false} CountReturns(env: Env, w: World, usd: real, fee: Option<real>)
    ensures var s := CountFill(env, w, usd, fee);
            Alike(w, s.w) && (Undisturbed(env) ==> s.Go?)
  {
    hide D.RecordFillDone, D.LoadDone, SetHalt, RollOver;
    var loaded := D.LoadDone(w.stats, env.me, env.today(w.trace));
    RollReturns(env, w, loaded);
    HaltAlike(env, RollOver(env, w, loaded).w, false);
  }

  lemma {:induction false} RollReturns(env: Env, w: World, loaded: D.Loaded)
    ensures var s := RollOver(env, w, loaded); Alike(w, s.w) && (Undisturbed(env) ==> s.Go?)
  {
  }

  lemma {:induction false} HaltAlike(env: Env, w: World, auto: bool)
    ensures Alike(w, SetHalt(env, w, auto))
  {
    hide H.Halted;
  }

  lemma {:induction false} SameFill(env: Env, a: World, b: World, c: Coid, o: Order, e: Effective, requested: real)
    requires Alike(a, b)
    ensures SameStep(env, RecordFill(env, a, c, o, e, requested), RecordFill(env, b, c, o, e, requested))
  {
    hide CountFill, Dollars, Undisturbed;
    var ev := Fill(c, Some(o.id), e.filled + SLACK < requested, e.filled, requested, e.avg, e.fee, e.duplicates);
    CountReturns(env, Led(env, a, ev).w.(index := Ended(a.index, c, Some(o.id))), Dollars(e), e.fee);
    CountReturns(env, Led(env, b, ev).w.(index := Ended(b.index, c, Some(o.id))), Dollars(e), e.fee);
  }

  lemma {:induction false} SameLed(env: Env, a: World, b: World, ev: Event)
    requires Alike(a, b)
    ensures SameStep(env, Led(env, a, ev), Led(env, b, ev))
    ensures var la, lb := Led(env, a, ev), Led(env, b, ev);
            (la.Go? <==> lb.Go?) && (la.Stop? ==> la.died == lb.died)
  {
  }

  lemma {:induction false} SameFinalize(env: Env, a: World, b: World, c: Coid, o: Order, requested: real)
    requires Alike(a, b)
    ensures SameStep(env, Finalize(env, a, c, o, requested), Finalize(env, b, c, o, requested))
    ensures var sa, sb := Finalize(env, a, c, o, requested), Finalize(env, b, c, o, requested);
            sa.Go? && sa.v.None? <==> sb.Go? && sb.v.None?
  {
    hide DeclareUnknown, RecordFill, EffectiveFill, Overfilled, Led, Ended, Undisturbed, Conclude;
    var e := EffectiveFill(o);
    SameUnknown(env, a, b, c, Some(o.id));
    SameSome(env, DeclareUnknown(env, a, c, Some(o.id)), DeclareUnknown(env, b, c, Some(o.id)));
    SameFill(env, a, b, c, o, e, requested);
    SameSome(env, RecordFill(env, a, c, o, e, requested), RecordFill(env, b, c, o, e, requested));
    SameLed(env, a, b, NoFillCanceled(c, Some(o.id)));
  }

  lemma {:induction false} SameSome(env: Env, a: Step<Result>, b: Step<Result>)
    requires SameStep(env, a, b)
    ensures SameStep(env, Conclude(a), Conclude(b))
    ensures !(Conclude(a).Go? && Conclude(a).v.None?) && !(Conclude(b).Go? && Conclude(b).v.None?)
  {
    hide Undisturbed;
  }

  lemma {:induction false} SameCancel(env: Env, a: World, b: World, c: Coid, id: string, requested: real)
    requires Alike(a, b)
    ensures SameStep(env, CancelAndReread(env, a, c, id, requested), CancelAndReread(env, b, c, id, requested))
  {
    hide DeclareUnknown, Finalize;
    var a1, b1 := Do(env, a, Cancel(id)), Do(env, b, Cancel(id));
    SameUnknown(env, a1.w, b1.w, c, Some(id));
    var a2, b2 := Do(env, a1.w, Fetch(id)), Do(env, b1.w, Fetch(id));
    SameUnknown(env, a2.w, b2.w, c, Some(id));
    if env.fetch(a2.w.trace).Got? {
      var o := env.fetch(a2.w.trace).order;
      SameFinalize(env, a2.w, b2.w, c, o, requested);
      SameUnknown(env, Finalize(env, a2.w, c, o, requested).w, Finalize(env, b2.w, c, o, requested).w, c, Some(id));
    }
  }

  lemma {:induction false} SamePoll(env: Env, a: World, b: World, id: string)
    requires Alike(a, b)
    ensures SameStep(env, Poll(env, a, id), Poll(env, b, id))
    ensures var pa, pb := Poll(env, a, id), Poll(env, b, id);
            (pa.Go? <==> pb.Go?) && (pa.Stop? ==> pa.died == pb.died)
  {
    hide TimeLeft;
  }

  lemma {:induction false} SameSettle(env: Env, a: World, b: World, c: Coid, id: string, last: Order, requested: real,
                                      t0: real)
    requires Alike(a, b)
    ensures SameStep(env, Settle(env, a, c, id, last, requested, t0), Settle(env, b, c, id, last, requested, t0))
    decreases TimeLeft(env, a, t0)
  {
    hide DeclareUnknown, Finalize, CancelAndReread, TimeLeft, Poll;
    SameFinalize(env, a, b, c, last, requested);
    SameUnknown(env, a, b, c, Some(last.id));
    SameCancel(env, a, b, c, id, requested);
    SamePoll(env, a, b, id);
    var pa, pb := Poll(env, a, id), Poll(env, b, id);
    if pa.Go? && Now(env, a.trace) - t0 < env.timeout {
      SameUnknown(env, pa.w, pb.w, c, Some(id));
      if pa.v.Got? {
        SameSettle(env, pa.w, pb.w, c, id, pa.v.order, requested, t0);
      }
    }
  }

  lemma {:induction false} SamePlaced(env: Env, a: World, b: World, c: Coid, sent: Sent, o: Order)
    requires Alike(a, b)
    ensures SameStep(env, Acknowledge(env, a, c, sent, o), Acknowledge(env, b, c, sent, o))
  {
    hide Settle;
    var ev := OrderSent(c, Acked, Some(o.id), sent);
    var la, lb := Led(env, a, ev), Led(env, b, ev);
    if la.Go? {
      var wa := la.w.(index := Staged(la.w.index, c, Acked, Some(o.id)));
      var wb := lb.w.(index := Staged(lb.w.index, c, Acked, Some(o.id)));
      SameSettle(env, wa, wb, c, o.id, o, sent.requested, Now(env, wa.trace));
    }
  }

  lemma {:induction false} SameMaybe(env: Env, a: World, b: World, c: Coid, sent: Sent, promised: bool)
    requires Alike(a, b)
    ensures SameStep(env, MaybePlaced(env, a, c, sent, promised), MaybePlaced(env, b, c, sent, promised))
  {
    hide Acknowledge, DeclareUnknown, Deny;
    var la, lb := Led(env, a, OrderSent(c, SentNoAck, None, sent)), Led(env, b, OrderSent(c, SentNoAck, None, sent));
    if la.Go? {
      var wa := la.w.(index := Staged(la.w.index, c, SentNoAck, None));
      var wb := lb.w.(index := Staged(lb.w.index, c, SentNoAck, None));
      var da, db := Do(env, wa, Lookup(c)), Do(env, wb, Lookup(c));
      if da.Go? {
        SameUnknown(env, da.w, db.w, c, None);
        SameDeny(env, da.w, db.w, BROKER_NEVER_ACCEPTED, Some(c));
        if env.lookup(da.w.trace).Found? {
          SamePlaced(env, da.w, db.w, c, sent, env.lookup(da.w.trace).order);
        }
      }
    }
  }

  lemma {:induction false} SameSend(env: Env, a: World, b: World, c: Coid, sent: Sent)
    requires Alike(a, b)
    ensures SameStep(env, Send(env, a, c, sent), Send(env, b, c, sent))
  {
    hide Acknowledge, MaybePlaced, Deny, H.Halted;
    var la, lb := Led(env, a, OrderSent(c, WriteAhead, None, sent)), Led(env, b, OrderSent(c, WriteAhead, None, sent));
    if la.Go? {
      var wa := la.w.(index := la.w.index[c := Rec(Some(WriteAhead), None, sent, false)]);
      var wb := lb.w.(index := lb.w.index[c := Rec(Some(WriteAhead), None, sent, false)]);
      var da, db := Do(env, wa, Create(c, sent)), Do(env, wb, Create(c, sent));
      if da.Go? {
        SameDeny(env, da.w, db.w, BROKER_REJECTED, Some(c));
        SameMaybe(env, da.w, db.w, c, sent, true);
        SameMaybe(env, da.w, db.w, c, sent, false);
        if env.create(da.w.trace).Placed? {
          SamePlaced(env, da.w, db.w, c, sent, env.create(da.w.trace).order);
        }
      }
    }
  }

  /** Noninterference: an intent the exit predicate calls an exit makes the same broker calls and ledger entries, and
      returns the same result, whatever the halt file and the daily counters hold. What remains of them is that a
      process can die, or raise, while it writes the counters after a fill. */
  lemma {:induction false} ExitsAreBlind(env: Env, a: World, b: World, r: Request)
    requires Alike(a, b) && r.isExit
    ensures SameStep(env, Execute(env, a, r), Execute(env, b, r))
  {
    hide Send, Deny, H.ActiveIn, Undisturbed;
    forall code
      ensures SameStep(env, Deny(env, a, code, None), Deny(env, b, code, None))
    {
      SameDeny(env, a, b, code, None);
    }
    if r.units.Some? {
      SameSend(env, a, b, r.ClientId(), Sent(r.symbol, r.isExit, r.Base()));
    }
  }

  /** So over any sequence of exits. */
  lemma {:induction false} ExitRunsAreBlind(env: Env, a: World, b: World, ops: seq<Op>)
    requires Alike(a, b) && Undisturbed(env)
    requires forall i :: 0 <= i < |ops| ==> ops[i].Exec? && ops[i].request.isExit
    ensures Alike(Run(env, a, ops), Run(env, b, ops))
    decreases |ops|
  {
    if ops != [] {
      hide Execute, Undisturbed;
      var init := ops[..|ops| - 1];
      ExitRunsAreBlind(env, a, b, init);
      ExitsAreBlind(env, Run(env, a, init), Run(env, b, init), ops[|ops| - 1].request);
    }
  }

  // ------------------------------------------------------------------ entries stop behind a halt

  /** Creates of intents that are not exits. */
  function EntryCreates(trace: seq<Act>): nat {
    if trace == [] then 0
    else EntryCreates(trace[..|trace| - 1])
         + if trace[|trace| - 1].Create? && !trace[|trace| - 1].sent.isExit then 1 else 0
  }

  lemma {:induction false} EntryCreatesOne(trace: seq<Act>, a: Act)
    ensures EntryCreates(trace + [a]) == EntryCreates(trace) + if a.Create? && !a.sent.isExit then 1 else 0
  {
    assert (trace + [a])[..|trace|] == trace;
  }

  ghost predicate HaltedIn(w: World) { H.ActiveIn(w.halt).Some? }

  /** No entry created, no halt lost, no manual halt downgraded. */
  ghost predicate Held(w: World, w': World) {
    && w'.clears == w.clears && w'.started == w.started
    && EntryCreates(w'.trace) == EntryCreates(w.trace)
    && (HaltedIn(w) ==> HaltedIn(w'))
    && (H.Manual(w.halt) ==> H.Manual(w'.halt))
  }

  /** The same for a result; behind an unknown one stands a halt, exactly if one stood already or could be written. */
  ghost predicate HeldStep(env: Env, w: World, s: Step<Result>) {
    Held(w, s.w)
    && (s.Go? && s.v.status == UNKNOWN ==> (HaltedIn(s.w) <==> HaltedIn(w) || !env.haltFails(s.w.trace)))
  }

  /** A step after a stretch that left the halt alone. */
  lemma {:induction false} HeldFrom(env: Env, w: World, w1: World, s: Step<Result>)
    ensures Held(w, w1) && w1.halt == w.halt && HeldStep(env, w1, s) ==> HeldStep(env, w, s)
  {
    hide EntryCreates;
  }

  lemma {:induction false} HeldTwice(a: World, b: World, c: World)
    ensures Held(a, b) && Held(b, c) ==> Held(a, c)
  {
  }

  lemma {:induction false} LedHeld(env: Env, w: World, ev: Event)
    ensures Held(w, Led(env, w, ev).w) && Led(env, w, ev).w.halt == w.halt
  {
    hide EntryCreates, H.ActiveIn, H.Manual;
    EntryCreatesOne(w.trace, Append(ev, env.fate(w.trace, ev)));
  }

  lemma {:induction false} DoHeld(env: Env, w: World, act: Act)
    requires act.Create? ==> act.sent.isExit
    ensures Held(w, Do(env, w, act).w) && Do(env, w, act).w.halt == w.halt
  {
    hide EntryCreates, H.ActiveIn, H.Manual;
    EntryCreatesOne(w.trace, act);
  }

  /** Setting a halt leaves one, unless that fails, and never a weaker one. */
  lemma {:induction false} SetHaltHeld(env: Env, w: World, auto: bool)
    ensures Held(w, SetHalt(env, w, auto))
    ensures HaltedIn(SetHalt(env, w, auto)) <==> HaltedIn(w) || !env.haltFails(w.trace)
    ensures SetHalt(env, w, auto) == w.(halt := SetHalt(env, w, auto).halt)
  {
    hide EntryCreates;
  }

  lemma {:induction false} SameHalt(a: World, b: World, c: World)
    ensures b == a.(index := b.index) && Held(b, c) ==> Held(a, c)
  {
    hide EntryCreates, H.ActiveIn, H.Manual;
  }

  /** Neither the index nor the counters are a halt. */
  lemma {:induction false} AnyIndex(a: World, b: World, c: World)
    ensures Held(a, b) && c == b.(index := c.index, stats := c.stats, books := c.books) ==>
              (Held(a, c) && (HaltedIn(b) <==> HaltedIn(c)))
  {
    hide EntryCreates, H.ActiveIn, H.Manual;
  }

  lemma {:induction false} UnknownHeld(env: Env, w: World, c: Coid, id: Option<string>)
    ensures HeldStep(env, w, DeclareUnknown(env, w, c, id))
  {
    hide Held, HaltedIn, SetHalt, Ended;
    var ev := UnknownState(c, id);
    LedHeld(env, w, ev);
    var led := Led(env, w, ev);
    SameHaltedIn(w, led.w);
    SetHaltHeld(env, led.w, true);
    var w2 := SetHalt(env, led.w, true);
    HeldTwice(w, led.w, w2);
    AnyIndex(w, w2, if c in w2.index then w2.(index := Ended(w2.index, c, Or(id, w2.index[c].orderId))) else w2);
  }

  lemma {:induction false} DenyHeld(env: Env, w: World, code: Code, about: Option<Coid>)
    ensures HeldStep(env, w, Deny(env, w, code, about))
  {
    hide Held, HaltedIn, Ended;
    var ev := IntentDenied(code, about, about.Some?);
    LedHeld(env, w, ev);
    var led := Led(env, w, ev);
    AnyIndex(w, led.w, Deny(env, w, code, about).w);
  }

  lemma {:induction false} CountHeld(env: Env, w: World, usd: real, fee: Option<real>)
    ensures Held(w, CountFill(env, w, usd, fee).w)
  {
    hide Held, HaltedIn, SetHalt, D.RecordFillDone, D.LoadDone, RollOver;
    HeldSelf(w);
    var loaded := D.LoadDone(w.stats, env.me, env.today(w.trace));
    ExecutorIndex.RollAside(env, w, loaded);
    var w1 := RollOver(env, w, loaded).w;
    AnyIndex(w, w, w1);
    SetHaltHeld(env, w1, false);
    HeldTwice(w, w1, SetHalt(env, w1, false));
    var s := CountFill(env, w, usd, fee);
    if s.w == w1.(stats := s.w.stats, books := s.w.books) {
      AnyIndex(w, w1, s.w);
    }
  }

  lemma {:induction false} HeldSelf(w: World)
    ensures Held(w, w)
  {
  }

  lemma {:induction false} FillHeld(env: Env, w: World, c: Coid, o: Order, e: Effective, requested: real)
    ensures HeldStep(env, w, RecordFill(env, w, c, o, e, requested))
  {
    hide Held, HaltedIn, CountFill, Ended, Dollars;
    var ev := Fill(c, Some(o.id), e.filled + SLACK < requested, e.filled, requested, e.avg, e.fee, e.duplicates);
    LedHeld(env, w, ev);
    var led := Led(env, w, ev);
    var w2 := led.w.(index := Ended(led.w.index, c, Some(o.id)));
    AnyIndex(w, led.w, w2);
    CountHeld(env, w2, Dollars(e), e.fee);
    HeldTwice(w, w2, CountFill(env, w2, Dollars(e), e.fee).w);
  }

  lemma {:induction false} FinalizeHeld(env: Env, w: World, c: Coid, o: Order, requested: real)
    ensures var s := Finalize(env, w, c, o, requested);
            Held(w, s.w) && (s.Go? && s.v.Some? ==> HeldStep(env, w, Go(s.w, s.v.value)))
  {
    hide DeclareUnknown, RecordFill, EffectiveFill, Overfilled, EntryCreates;
    UnknownHeld(env, w, c, Some(o.id));
    FillHeld(env, w, c, o, EffectiveFill(o), requested);
    LedHeld(env, w, NoFillCanceled(c, Some(o.id)));
  }

  lemma {:induction false} CancelHeld(env: Env, w: World, c: Coid, id: string, requested: real)
    ensures HeldStep(env, w, CancelAndReread(env, w, c, id, requested))
  {
    hide DeclareUnknown, Finalize, Held, HaltedIn, Do;
    DoHeld(env, w, Cancel(id));
    var w1 := Do(env, w, Cancel(id)).w;
    UnknownHeld(env, w1, c, Some(id));
    HeldFrom(env, w, w1, DeclareUnknown(env, w1, c, Some(id)));
    DoHeld(env, w1, Fetch(id));
    var w2 := Do(env, w1, Fetch(id)).w;
    HeldTwice(w, w1, w2);
    UnknownHeld(env, w2, c, Some(id));
    HeldFrom(env, w, w2, DeclareUnknown(env, w2, c, Some(id)));
    if env.fetch(w2.trace).Got? {
      var o := env.fetch(w2.trace).order;
      FinalizeHeld(env, w2, c, o, requested);
      var fin := Finalize(env, w2, c, o, requested);
      HeldTwice(w, w2, fin.w);
      if fin.Go? && fin.v.Some? {
        HeldFrom(env, w, w2, Go(fin.w, fin.v.value));
      }
    }
  }

  lemma {:induction false} PollHeld(env: Env, w: World, id: string)
    ensures Held(w, Poll(env, w, id).w) && Poll(env, w, id).w.halt == w.halt
  {
    hide HaltedIn, EntryCreates, TimeLeft;
    DoHeld(env, w, Sleep);
    DoHeld(env, Do(env, w, Sleep).w, Fetch(id));
  }

  lemma {:induction false} SettleHeld(env: Env, w: World, c: Coid, id: string, last: Order, requested: real, t0: real)
    ensures HeldStep(env, w, Settle(env, w, c, id, last, requested, t0))
    decreases TimeLeft(env, w, t0)
  {
    hide DeclareUnknown, Finalize, CancelAndReread, Poll, Held, HaltedIn, TimeLeft;
    FinalizeHeld(env, w, c, last, requested);
    UnknownHeld(env, w, c, Some(last.id));
    CancelHeld(env, w, c, id, requested);
    PollHeld(env, w, id);
    var polled := Poll(env, w, id);
    if polled.Go? && Now(env, w.trace) - t0 < env.timeout {
      UnknownHeld(env, polled.w, c, Some(id));
      HeldFrom(env, w, polled.w, DeclareUnknown(env, polled.w, c, Some(id)));
      if polled.v.Got? {
        SettleHeld(env, polled.w, c, id, polled.v.order, requested, t0);
        HeldFrom(env, w, polled.w, Settle(env, polled.w, c, id, polled.v.order, requested, t0));
      }
    }
  }

  lemma {:induction false} PlacedHeld(env: Env, w: World, c: Coid, sent: Sent, o: Order)
    ensures HeldStep(env, w, Acknowledge(env, w, c, sent, o))
  {
    hide Settle, Held, HaltedIn, Led;
    LedHeld(env, w, OrderSent(c, Acked, Some(o.id), sent));
    var led := Led(env, w, OrderSent(c, Acked, Some(o.id), sent));
    if led.Go? {
      var w2 := led.w.(index := Staged(led.w.index, c, Acked, Some(o.id)));
      AnyIndex(w, led.w, w2);
      SettleHeld(env, w2, c, o.id, o, sent.requested, Now(env, w2.trace));
      HeldFrom(env, w, w2, Settle(env, w2, c, o.id, o, sent.requested, Now(env, w2.trace)));
    }
  }

  lemma {:induction false} MaybeHeld(env: Env, w: World, c: Coid, sent: Sent, promised: bool)
    ensures HeldStep(env, w, MaybePlaced(env, w, c, sent, promised))
  {
    hide Acknowledge, DeclareUnknown, Deny, Held, HaltedIn, Led, Do;
    LedHeld(env, w, OrderSent(c, SentNoAck, None, sent));
    var led := Led(env, w, OrderSent(c, SentNoAck, None, sent));
    if led.Go? {
      var w2 := led.w.(index := Staged(led.w.index, c, SentNoAck, None));
      AnyIndex(w, led.w, w2);
      DoHeld(env, w2, Lookup(c));
      var w3 := Do(env, w2, Lookup(c)).w;
      HeldTwice(w, w2, w3);
      UnknownHeld(env, w3, c, None);
      HeldFrom(env, w, w3, DeclareUnknown(env, w3, c, None));
      DenyHeld(env, w3, BROKER_NEVER_ACCEPTED, Some(c));
      HeldFrom(env, w, w3, Deny(env, w3, BROKER_NEVER_ACCEPTED, Some(c)));
      if env.lookup(w3.trace).Found? {
        PlacedHeld(env, w3, c, sent, env.lookup(w3.trace).order);
        HeldFrom(env, w, w3, Acknowledge(env, w3, c, sent, env.lookup(w3.trace).order));
      }
    }
  }

  /** After the write-ahead, the order itself: an exit's create is no entry. */
  lemma {:induction false} SendHeld(env: Env, w: World, c: Coid, sent: Sent)
    requires sent.isExit
    ensures HeldStep(env, w, Send(env, w, c, sent))
  {
    hide Acknowledge, MaybePlaced, Deny, EntryCreates;
    LedHeld(env, w, OrderSent(c, WriteAhead, None, sent));
    var led := Led(env, w, OrderSent(c, WriteAhead, None, sent));
    if led.Go? {
      var w1 := led.w.(index := led.w.index[c := Rec(Some(WriteAhead), None, sent, false)]);
      DoHeld(env, w1, Create(c, sent));
      var w2 := Do(env, w1, Create(c, sent)).w;
      DenyHeld(env, w2, BROKER_REJECTED, Some(c));
      MaybeHeld(env, w2, c, sent, true);
      MaybeHeld(env, w2, c, sent, false);
      if env.create(w2.trace).Placed? {
        PlacedHeld(env, w2, c, sent, env.create(w2.trace).order);
      }
    }
  }

  /** While a halt is active no entry reaches create_order and the halt stays. */
  lemma {:induction false} ExecuteHeld(env: Env, w: World, r: Request)
    requires HaltedIn(w)
    ensures Held(w, Execute(env, w, r).w)
  {
    hide Send, Deny, EntryCreates;
    forall code
      ensures Held(w, Deny(env, w, code, None).w)
    {
      DenyHeld(env, w, code, None);
    }
    if r.isExit && r.units.Some? {
      SendHeld(env, w, r.ClientId(), Sent(r.symbol, r.isExit, r.Base()));
    }
  }

  /** Behind an UNKNOWN result a halt is active exactly if one was active before or the halt file could be written when
      the state was declared unknown: a halt that fails is logged and the call returns all the same. */
  lemma {:induction false} UnknownHalts(env: Env, w: World, r: Request)
    ensures var s := Execute(env, w, r);
            s.Go? && s.v.status == UNKNOWN ==> (HaltedIn(s.w) <==> HaltedIn(w) || !env.haltFails(s.w.trace))
  {
    hide Send, EntryCreates, CheckLimits, HaltedIn;
    if r.units.Some? {
      ExecutorIndex.LimitsAside(env, w, r);
      var w1 := CheckLimits(env, w, r).w;
      SameHaltedIn(w, w1);
      SendUnknown(env, w1, r.ClientId(), Sent(r.symbol, r.isExit, r.Base()));
    }
  }

  lemma {:induction false} SameHaltedIn(a: World, b: World)
    ensures a.halt == b.halt ==> (HaltedIn(a) <==> HaltedIn(b))
  {
  }

  lemma {:induction false} SendUnknown(env: Env, w: World, c: Coid, sent: Sent)
    ensures var s := Send(env, w, c, sent);
            s.Go? && s.v.status == UNKNOWN ==> (HaltedIn(s.w) <==> HaltedIn(w) || !env.haltFails(s.w.trace))
  {
    hide Acknowledge, MaybePlaced, EntryCreates, HaltedIn;
    var led := Led(env, w, OrderSent(c, WriteAhead, None, sent));
    if led.Go? {
      var w1 := led.w.(index := led.w.index[c := Rec(Some(WriteAhead), None, sent, false)]);
      var w2 := Do(env, w1, Create(c, sent)).w;
      SameHaltedIn(w, w2);
      MaybeHeld(env, w2, c, sent, true);
      MaybeHeld(env, w2, c, sent, false);
      if env.create(w2.trace).Placed? {
        PlacedHeld(env, w2, c, sent, env.create(w2.trace).order);
      }
    }
  }

  lemma {:induction false} NotedHeld(env: Env, w: World, rep: Report, c: Coid, id: Option<string>)
    ensures Held(w, UnknownNoted(env, w, rep, c, id).w)
  {
    hide DeclareUnknown, HaltedIn, EntryCreates;
    UnknownHeld(env, w, c, id);
  }

  lemma {:induction false} CanceledFoundHeld(env: Env, w: World, rep: Report, c: Coid, id: string, requested: real)
    ensures Held(w, CanceledFound(env, w, rep, c, id, requested).w)
  {
    hide UnknownNoted, Finalize, EntryCreates, HaltedIn, H.Manual;
    DoHeld(env, w, Cancel(id));
    var w1 := Do(env, w, Cancel(id)).w;
    NotedHeld(env, w1, rep, c, Some(id));
    DoHeld(env, w1, Fetch(id));
    var w2 := Do(env, w1, Fetch(id)).w;
    NotedHeld(env, w2, rep, c, Some(id));
    if env.fetch(w2.trace).Got? {
      FinalizeHeld(env, w2, c, env.fetch(w2.trace).order, requested);
    }
  }

  lemma {:induction false} ReconcileFoundHeld(env: Env, w: World, rep: Report, c: Coid, rec: Rec, o: Order)
    ensures Held(w, ReconcileFound(env, w, rep, c, rec, o).w)
  {
    hide CanceledFound, Finalize, Led, EntryCreates, HaltedIn, H.Manual;
    var requested := if rec.sent.requested != 0.0 then rec.sent.requested else o.filled;
    var w0 := if c in w.index then w.(index := w.index[c := w.index[c].(orderId := Some(o.id))]) else w;
    var s := ReconcileFound(env, w, rep, c, rec, o);
    FinalizeHeld(env, w0, c, o, requested);
    LedHeld(env, w0, LeftOpen(c, Some(o.id)));
    CanceledFoundHeld(env, w0, rep, c, o.id, requested);
    SameHalt(w, w0, s.w);
  }

  lemma {:induction false} ReconcileHeld(env: Env, w: World, rep0: Report, c: Coid, rec: Rec)
    ensures Held(w, Reconcile(env, w, rep0, c, rec).w)
  {
    hide UnknownNoted, ReconcileFound, Led, Do, EntryCreates;
    var rep := rep0.(pendingSeen := rep0.pendingSeen + 1);
    DoHeld(env, w, Lookup(c));
    var w1 := Do(env, w, Lookup(c)).w;
    NotedHeld(env, w1, rep.(errors := rep.errors + 1), c, rec.orderId);
    match env.lookup(w1.trace)
    case Found(o) => ReconcileFoundHeld(env, w1, rep, c, rec, o);
    case NotFound => LedHeld(env, w1, Resolved(c, rec.stage));
    case LookupRaised =>
      if Or(rec.orderId, None).Some? {
        DoHeld(env, w1, Fetch(rec.orderId.value));
        var w2 := Do(env, w1, Fetch(rec.orderId.value)).w;
        NotedHeld(env, w2, rep.(errors := rep.errors + 1), c, rec.orderId);
        if env.fetch(w2.trace).Got? {
          ReconcileFoundHeld(env, w2, rep, c, rec, env.fetch(w2.trace).order);
        }
      }
  }

  lemma {:induction false} ReconcileAllHeld(env: Env, w: World, rep: Report, pending: seq<(Coid, Rec)>)
    ensures Held(w, ReconcileAll(env, w, rep, pending).w)
    decreases |pending|
  {
    if pending != [] {
      hide Reconcile, HaltedIn, EntryCreates;
      var init, last := pending[..|pending| - 1], pending[|pending| - 1];
      ReconcileAllHeld(env, w, rep, init);
      var before := ReconcileAll(env, w, rep, init);
      if before.Go? {
        ReconcileHeld(env, before.w, before.v, last.0, last.1);
      }
    }
  }

  lemma {:induction false} StrangeHeld(env: Env, w: World, rep: Report, ids: set<string>, symbol: string, o: Order)
    ensures Held(w, Strange(env, w, rep, ids, symbol, o).w)
  {
    hide UnknownNoted, Do, Known, HaltedIn, EntryCreates;
    NotedHeld(env, w, rep, Foreign(o.id), Some(o.id));
    DoHeld(env, w, Cancel(o.id));
    var w1 := Do(env, w, Cancel(o.id)).w;
    var rep1 := if env.fetch(w1.trace).Got? then rep.(canceled := rep.canceled + [Foreign(o.id)]) else rep;
    NotedHeld(env, w1, rep1, Foreign(o.id), Some(o.id));
  }

  lemma {:induction false} StrangeAllHeld(env: Env, w: World, rep: Report, ids: set<string>, symbol: string,
                                          orders: seq<Order>)
    ensures Held(w, StrangeAll(env, w, rep, ids, symbol, orders).w)
    decreases |orders|
  {
    if orders != [] {
      hide Strange, HaltedIn, EntryCreates;
      StrangeAllHeld(env, w, rep, ids, symbol, orders[..|orders| - 1]);
      var before := StrangeAll(env, w, rep, ids, symbol, orders[..|orders| - 1]);
      if before.Go? {
        StrangeHeld(env, before.w, before.v, ids, symbol, orders[|orders| - 1]);
      }
    }
  }

  lemma {:induction false} SymbolsHeld(env: Env, w: World, rep: Report, ids: set<string>, symbols: seq<string>)
    ensures Held(w, Symbols(env, w, rep, ids, symbols).w)
    decreases |symbols|
  {
    if symbols != [] {
      hide StrangeAll, Do, HaltedIn, EntryCreates;
      var init, last := symbols[..|symbols| - 1], symbols[|symbols| - 1];
      SymbolsHeld(env, w, rep, ids, init);
      var before := Symbols(env, w, rep, ids, init);
      if before.Go? {
        DoHeld(env, before.w, ListOpen(last));
        var did := Do(env, before.w, ListOpen(last));
        if did.Go? && env.list(did.w.trace).Listed? {
          StrangeAllHeld(env, did.w, before.v, ids, last, env.list(did.w.trace).orders);
        }
      }
    }
  }

  /** No entry created; a halt goes only by a counted clear. */
  ghost predicate HeldOrCleared(w: World, w': World) {
    && w'.clears >= w.clears
    && EntryCreates(w'.trace) == EntryCreates(w.trace)
    && (HaltedIn(w) && w'.clears == w.clears ==> HaltedIn(w'))
  }

  /** A manual halt survives every startup. */
  lemma {:induction false} StartupKeepsManual(env: Env, w: World, symbols: seq<string>)
    requires H.Manual(w.halt)
    ensures H.Manual(Startup(env, w, symbols).w.halt)
  {
    hide ReconcileAll, Symbols, Led, FoundSomething, PendingList, Coids, Rebuilt, KnownIds, EntryCreates;
    var w0 := w.(trace := w.trace + [Rebuild], index := Rebuilt(w.trace));
    var pending := PendingList(w.trace, Coids(w.trace));
    ReconcileAllHeld(env, w0, NO_REPORT, pending);
    var all := ReconcileAll(env, w0, NO_REPORT, pending);
    if all.Go? {
      SymbolsHeld(env, all.w, all.v, KnownIds(all.w.index), symbols);
      var listed := Symbols(env, all.w, all.v, KnownIds(all.w.index), symbols);
      if listed.Go? {
        LedHeld(env, listed.w, Summary);
      }
    }
  }

  lemma {:induction false} StartupHeld(env: Env, w: World, symbols: seq<string>)
    ensures HeldOrCleared(w, Startup(env, w, symbols).w)
  {
    hide ReconcileAll, Symbols, Led, FoundSomething, PendingList, Coids, Rebuilt, KnownIds, H.Clears, EntryCreates;
    var w0 := w.(trace := w.trace + [Rebuild], index := Rebuilt(w.trace));
    EntryCreatesOne(w.trace, Rebuild);
    var pending := PendingList(w.trace, Coids(w.trace));
    ReconcileAllHeld(env, w0, NO_REPORT, pending);
    var all := ReconcileAll(env, w0, NO_REPORT, pending);
    if all.Go? {
      SymbolsHeld(env, all.w, all.v, KnownIds(all.w.index), symbols);
      var listed := Symbols(env, all.w, all.v, KnownIds(all.w.index), symbols);
      if listed.Go? {
        LedHeld(env, listed.w, Summary);
      }
    }
  }

  lemma {:induction false} PerformHeld(env: Env, w: World, op: Op)
    requires HaltedIn(w)
    ensures HeldOrCleared(w, Perform(env, w, op))
  {
    hide Execute, Startup, EntryCreates, H.Clears;
    match op
    case Exec(r) => ExecuteHeld(env, w, r);
    case Start(symbols) => StartupHeld(env, w, symbols);
    case Crash =>
    case ClearByHand =>
  }

  /** Behind a halt - the one an UNKNOWN result leaves, say - no intent that is not an exit reaches create_order, in
      this life or any later one, until a clear of the halt succeeds, by hand or by a clean startup. */
  lemma {:induction false} NoEntryUntilCleared(env: Env, w: World, ops: seq<Op>)
    requires HaltedIn(w)
    ensures var z := Run(env, w, ops);
            && z.clears >= w.clears
            && (z.clears == w.clears ==> HaltedIn(z) && EntryCreates(z.trace) == EntryCreates(w.trace))
    decreases |ops|
  {
    if ops != [] {
      hide Perform, HaltedIn, EntryCreates;
      var before := Run(env, w, ops[..|ops| - 1]);
      NoEntryUntilCleared(env, w, ops[..|ops| - 1]);
      ClearsGrow(env, before, ops[|ops| - 1]);
      if before.clears == w.clears {
        PerformHeld(env, before, ops[|ops| - 1]);
      }
    }
  }

  lemma {:induction false} ClearsGrow(env: Env, w: World, op: Op)
    ensures Perform(env, w, op).clears >= w.clears
  {
    hide Startup, EntryCreates, H.Clears, Send, Deny, CheckLimits, HaltedIn;
    match op
    case Exec(r) =>
      forall w1: World, code
        ensures Deny(env, w1, code, None).w.clears == w1.clears
      {
        DenyHeld(env, w1, code, None);
      }
      forall w1: World, c, sent
        ensures Send(env, w1, c, sent).w.clears == w1.clears
      {
        SendClears(env, w1, c, sent);
      }
      if r.units.Some? {
        ExecutorIndex.LimitsAside(env, w, r);
      }
    case Start(symbols) => StartupHeld(env, w, symbols);
    case Crash =>
    case ClearByHand =>
  }

  lemma {:induction false} SendClears(env: Env, w: World, c: Coid, sent: Sent)
    ensures Send(env, w, c, sent).w.clears == w.clears
  {
    hide Acknowledge, MaybePlaced, Deny, EntryCreates, HaltedIn;
    var led := Led(env, w, OrderSent(c, WriteAhead, None, sent));
    if led.Go? {
      var w1 := led.w.(index := led.w.index[c := Rec(Some(WriteAhead), None, sent, false)]);
      var w2 := Do(env, w1, Create(c, sent)).w;
      DenyHeld(env, w2, BROKER_REJECTED, Some(c));
      MaybeHeld(env, w2, c, sent, true);
      MaybeHeld(env, w2, c, sent, false);
      if env.create(w2.trace).Placed? {
        PlacedHeld(env, w2, c, sent, env.create(w2.trace).order);
      }
    }
  }
}
