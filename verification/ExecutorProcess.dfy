/** The HonestExecutor class: index, start flag and files updated in place, each method proved to do exactly what the
    functions of Executor say, whether it returns, raises or dies; execute and startup carry what is proved of those:
    the write-ahead invariant of every client id, the halt behind an unknown result, no entry behind a halt, and the
    reconciliation. */
module ExecutorProcess {
  import opened Options
  import SF = StateFiles
  import E = Executor
  import opened Executor
  import H = EntryHalts
  import D = DailyLimits
  import ExecutorDollars
  import G = ExecutorGates
  import I = ExecutorIndex
  import S = ExecutorStartup

  predicate Did<T(==)>(s: Step<T>, r: Ran<T>, w: World) {
    && w == s.w
    && r == match s
            case Go(_, v) => Returned(v)
            case Stop(_, died) => if died then Died else Raised
  }

  class HonestExecutor {
    const env: Env
    var trace: seq<Act>
    var index: map<Coid, Rec>
    var started: bool
    var halt: H.HaltFile
    var stats: D.StatsFile
    var books: seq<BookAct>
    var clears: nat

    /** A new process over the files of an earlier one. */
    constructor (env: Env, trace: seq<Act>, halt: H.HaltFile, stats: D.StatsFile, books: seq<BookAct>, clears: nat)
      ensures this.env == env && State() == World(trace, map[], false, halt, stats, books, clears)
    {
      this.env := env;
      this.trace, this.halt, this.stats, this.books, this.clears := trace, halt, stats, books, clears;
      index, started := map[], false;
    }

    function State(): World
      reads this
    {
      World(trace, index, started, halt, stats, books, clears)
    }

    method Append(ev: Event) returns (r: Ran<()>)
      modifies this`trace
      ensures Did(Led(env, old(State()), ev), r, State())
    {
      var fate := env.fate(trace, ev);
      trace := trace + [Act.Append(ev, fate)];
      if env.dies(trace) { return Died; }
      r := if fate.Written? then Returned(()) else Raised;
    }

    /** An append whose failure is logged and swallowed. */
    method TryAppend(ev: Event) returns (r: Ran<()>)
      modifies this`trace
      ensures Did(TryLed(env, old(State()), ev), r, State())
    {
      r := Append(ev);
      if r.Raised? { r := Returned(()); }
    }

    method Call(act: Act) returns (r: Ran<()>)
      modifies this`trace
      ensures Did(Do(env, old(State()), act), r, State())
    {
      trace := trace + [act];
      r := if env.dies(trace) then Died else Returned(());
    }

    /** `_rebuild_index`. */
    method RebuildIndex()
      modifies this`index
      ensures index == Rebuilt(trace)
    {
      index := map[];
      var i := 0;
      while i < |trace|
        invariant 0 <= i <= |trace|
        invariant index == Rebuilt(trace[..i])
      {
        var a := trace[i];
        assert trace[..i + 1][..i] == trace[..i];
        if Logged(a) && About(a.ev).Some? {
          var c := About(a.ev).value;
          if c !in index { index := index[c := NOTHING]; }
          var rec := index[c];
          match a.ev {
            case OrderSent(_, stage, id, sent) => rec := rec.(stage := Some(stage), orderId := Or(id, rec.orderId),
                                                              sent := sent);
            case Fill(_, id, _, _, _, _, _, _) => rec := rec.(terminal := true, orderId := Or(id, rec.orderId));
            case NoFillCanceled(_, id) => rec := rec.(terminal := true, orderId := Or(id, rec.orderId));
            case UnknownState(_, id) => rec := rec.(terminal := true, orderId := Or(id, rec.orderId));
            case IntentDenied(_, _, terminal) => if terminal { rec := rec.(terminal := true); }
            case Resolved(_, _) => rec := rec.(terminal := true);
            case LeftOpen(_, _) =>
            case Summary =>
          }
          index := index[c := rec];
        }
        i := i + 1;
      }
      assert trace[..|trace|] == trace;
    }

    method Finish(c: Coid, id: Option<string>)
      modifies this`index
      ensures index == Ended(old(index), c, id)
    {
      if c in index { index := index[c := index[c].(terminal := true, orderId := id)]; }
    }

    method Deny(code: Code, about: Option<Coid>) returns (r: Ran<Result>)
      modifies this
      ensures Did(E.Deny(env, old(State()), code, about), r, State())
    {
      var led := TryAppend(IntentDenied(code, about, about.Some?));
      if led.Died? { return Died; }
      if about.Some? && about.value in index {
        Finish(about.value, index[about.value].orderId);
      }
      r := Returned(Result(DENIED, code, None, about, 0.0, None, None));
    }

    /** `halt.set`; false: it raised. */
    method SetHalt(auto: bool) returns (ok: bool)
      modifies this`halt
      ensures State() == E.SetHalt(env, old(State()), auto) && ok == !env.haltFails(trace)
    {
      if env.haltFails(trace) { return false; }
      var cur := H.ActiveIn(halt);
      halt := SF.Stored(H.Requested(H.SetHalt("", "", auto), cur, ""), SF.NextSeal(halt, env.me));
      ok := true;
    }

    method DeclareUnknown(c: Coid, id: Option<string>) returns (r: Ran<Result>)
      modifies this
      ensures Did(E.DeclareUnknown(env, old(State()), c, id), r, State())
    {
      hide H.Halted;
      var led := TryAppend(UnknownState(c, id));
      if led.Died? { return Died; }
      var _ := SetHalt(true);
      if c in index { Finish(c, Or(id, index[c].orderId)); }
      r := Returned(Result(UNKNOWN, ORDER_STATE_UNKNOWN, id, Some(c), 0.0, None, None));
    }

    /** One act on the daily counters. */
    method LogBook(act: BookAct) returns (r: Ran<()>)
      modifies this`books
      ensures Did(Booking(env, old(State()), act), r, State())
    {
      books := books + [act];
      r := if env.diesBooking(trace, books) then Died else Returned(());
    }

    /** The rollover of the daily counters: the file, and only then its entry, whose failure is swallowed. */
    method RollOver(loaded: D.Loaded) returns (r: Ran<Replacing>)
      modifies this
      ensures Did(E.RollOver(env, old(State()), loaded), r, State())
    {
      if loaded.reset.None? { return Returned(Replaced); }
      var done := env.counters(trace, books);
      if done != Replaced { return Returned(done); }
      stats := loaded.file;
      var rolled := LogBook(Roll(|trace|, loaded.reset.value));
      if rolled.Died? { return Died; }
      var entered := LogBook(Reset(|trace|, loaded.reset.value, env.resetFate(trace, books)));
      if entered.Died? { return Died; }
      r := Returned(Replaced);
    }

    /** `limits.record_fill` and what the executor catches of it. */
    method CountFill(usd: real, fee: Option<real>) returns (r: Ran<()>)
      modifies this
      ensures Did(E.CountFill(env, old(State()), usd, fee), r, State())
    {
      hide D.RecordFillDone, D.LoadDone, H.Halted, E.RollOver;
      if usd < 0.0 { return Returned(()); }
      var today, today2 := env.today(trace), env.today2(trace);
      var next := D.RecordFillDone(env.limits, stats, env.me, today, today2, usd, fee);
      var rolled := RollOver(D.LoadDone(stats, env.me, today));
      if !rolled.Returned? { return if rolled.Died? then Died else Raised; }
      var done := rolled.value;
      if done == Replaced {
        if next.None? { return Returned(()); }
        done := env.counters(trace, books);
        if done == Replaced {
          stats := next.value;
          r := LogBook(Book(|trace|, usd, fee, D.FeeCharged(env.limits, usd, fee)));
          return;
        }
      }
      if done == Raced {
        var ok := SetHalt(false);
        return if ok then Returned(()) else Raised;
      }
      r := Returned(());
    }

    method RecordFill(c: Coid, o: Order, e: Effective, requested: real) returns (r: Ran<Result>)
      modifies this
      ensures Did(E.RecordFill(env, old(State()), c, o, e, requested), r, State())
    {
      hide E.CountFill;
      var partial := e.filled + SLACK < requested;
      var led := Append(Fill(c, Some(o.id), partial, e.filled, requested, e.avg, e.fee, e.duplicates));
      if !led.Returned? { return if led.Died? then Died else Raised; }
      Finish(c, Some(o.id));
      var usd := e.filled * if e.avg.Some? then e.avg.value else 0.0;
      assert usd == Dollars(e);
      var counted := CountFill(usd, e.fee);
      if !counted.Returned? { return if counted.Died? then Died else Raised; }
      r := Returned(Result(if partial then PARTIAL else FILLED, if partial then PARTIAL_FILL else FILL, Some(o.id),
                           Some(c),
                           e.filled, e.avg, e.fee));
    }

    /** `_finalize_if_terminal`. */
    method Finalize(c: Coid, o: Order, requested: real) returns (r: Ran<Option<Result>>)
      modifies this
      ensures Did(E.Finalize(env, old(State()), c, o, requested), r, State())
    {
      hide E.DeclareUnknown, E.RecordFill, E.EffectiveFill, Overfilled;
      var e := EffectiveFill(o);
      var ended: Ran<Result>;
      if e.filled < 0.0 || Overfilled(e.filled, requested) {
        ended := DeclareUnknown(c, Some(o.id));
      } else if o.status == Closed {
        if e.filled > 0.0 { ended := RecordFill(c, o, e, requested); } else { ended := DeclareUnknown(c, Some(o.id)); }
      } else if o.status == Canceled {
        if e.filled > 0.0 {
          ended := RecordFill(c, o, e, requested);
        } else {
          var led := Append(NoFillCanceled(c, Some(o.id)));
          if !led.Returned? { return if led.Died? then Died else Raised; }
          if c in index { Finish(c, index[c].orderId); }
          return Returned(Some(Result(NO_FILL_CANCELED, TIMEOUT_NO_FILL_CANCELED, Some(o.id), Some(c), 0.0, None,
                                      None)));
        }
      } else if o.status == Open {
        return Returned(None);
      } else {
        ended := DeclareUnknown(c, Some(o.id));
      }
      match ended
      case Returned(v) => r := Returned(Some(v));
      case Raised => r := Raised;
      case Died => r := Died;
    }

    /** `_settle`: poll, then cancel and re-read on timeout. */
    method Settle(c: Coid, order: Order, requested: real) returns (r: Ran<Result>)
      modifies this
      ensures Did(E.Settle(env, old(State()), c, order.id, order, requested, Now(env, old(trace))), r, State())
    {
      hide E.DeclareUnknown, E.Finalize, E.CancelAndReread, E.Poll, TimeLeft;
      var t0 := Now(env, trace);
      var last := order;
      while true
        invariant E.Settle(env, old(State()), c, order.id, order, requested, t0)
               == E.Settle(env, State(), c, order.id, last, requested, t0)
        decreases TimeLeft(env, State(), t0)
      {
        ghost var before := State();
        var fin := Finalize(c, last, requested);
        if fin.Died? { return Died; }
        if fin.Raised? { return Raised; }
        if fin.value.Some? { return Returned(fin.value.value); }
        // only an open order gets here, so the source's next check (an order that is not open) never fires
        if Now(env, trace) - t0 >= env.timeout { break; }
        var polled := PollOnce(order.id);
        if polled.Died? { return Died; }
        if polled.Raised? { return Raised; }
        if polled.value.FetchRaised? {
          r := DeclareUnknown(c, Some(order.id));
          return;
        }
        last := polled.value.order;
      }
      r := CancelAndReread(c, order.id, requested);
    }

    method PollOnce(id: string) returns (r: Ran<FetchReply>)
      modifies this`trace
      ensures Did(E.Poll(env, old(State()), id), r, State())
    {
      hide TimeLeft;
      var slept := Call(Sleep);
      if !slept.Returned? { return if slept.Died? then Died else Raised; }
      var asked := Call(Fetch(id));
      if !asked.Returned? { return if asked.Died? then Died else Raised; }
      r := Returned(env.fetch(trace));
    }

    method CancelAndReread(c: Coid, id: string, requested: real) returns (r: Ran<Result>)
      modifies this
      ensures Did(E.CancelAndReread(env, old(State()), c, id, requested), r, State())
    {
      hide E.DeclareUnknown, E.Finalize;
      var asked := Call(Cancel(id));
      if !asked.Returned? { return if asked.Died? then Died else Raised; }
      if env.fetch(trace).FetchRaised? {
        r := DeclareUnknown(c, Some(id));
        return;
      }
      asked := Call(Fetch(id));
      if !asked.Returned? { return if asked.Died? then Died else Raised; }
      var reply := env.fetch(trace);
      if reply.FetchRaised? || reply.order.status == Open {
        r := DeclareUnknown(c, Some(id));
        return;
      }
      var fin := Finalize(c, reply.order, requested);
      if fin.Died? { return Died; }
      if fin.Raised? { return Raised; }
      // a status that is not open always finalizes, so the source's last resort never fires
      r := Returned(fin.value.value);
    }

    // ---------------------------------------------------------------- execute

    /** The daily limits, for an intent that is not an exit. */
    method CheckLimits(q: Request) returns (r: Ran<D.Verdict>)
      requires q.units.Some?
      modifies this
      ensures Did(E.CheckLimits(env, old(State()), q), r, State())
    {
      hide D.CheckVerdict, D.LoadDone, E.RollOver;
      if q.isExit { return Returned(D.Allowed); }
      var today, today2 := env.today(trace), env.today2(trace);
      var verdict := D.CheckVerdict(env.limits, stats, env.me, today, today2, q.units.value.usd);
      var rolled := RollOver(D.LoadDone(stats, env.me, today));
      if rolled.Died? { return Died; }
      if rolled.Raised? || rolled.value != Replaced { return Raised; }
      r := Returned(verdict);
    }

    /** The gates in their order, then the attempt. Every client id keeps its write-ahead invariant; an UNKNOWN result
        stands behind a halt exactly if one stood before or could be written; behind a halt no entry is created. */
    method Execute(q: Request) returns (r: Ran<Result>)
      modifies this
      ensures Did(E.Execute(env, old(State()), q), r, State())
      ensures forall c :: I.Safe(env, old(State()), c) ==>
                I.Trail(env, trace, c) && (!r.Died? ==> I.Safe(env, State(), c))
      ensures r.Returned? && r.value.status == UNKNOWN ==>
                (H.ActiveIn(halt).Some? <==> H.ActiveIn(old(halt)).Some? || !env.haltFails(trace))
      ensures H.ActiveIn(old(halt)).Some? ==>
                G.EntryCreates(trace) == G.EntryCreates(old(trace)) && H.ActiveIn(halt).Some?
    {
      Executed(env, State(), q);
      r := Gates(q);
    }

    method Gates(q: Request) returns (r: Ran<Result>)
      modifies this
      ensures Did(E.Execute(env, old(State()), q), r, State())
    {
      hide E.Deny, E.Send, E.CheckLimits, H.ActiveIn;
      if !started { r := Deny(STARTUP_RECONCILE_REQUIRED, None); return; }
      if !q.killAllows { r := Deny(KILL_SWITCH, None); return; }
      if !q.isExit && H.ActiveIn(halt).Some? { r := Deny(ENTRY_HALT_ACTIVE, None); return; }
      if q.units.None? { r := Deny(INTENT_INVALID, None); return; }
      var checked := CheckLimits(q);
      if !checked.Returned? { return if checked.Died? then Died else Raised; }
      if checked.value.Denied? { r := Deny(DAILY(checked.value.code), None); return; }
      if !q.saneAllows { r := Deny(ORDER_SANITY, None); return; }
      if q.quantize.Refused? { r := Deny(QUANTIZE, None); return; }
      var c := q.ClientId();
      if c in index && !index[c].terminal && index[c].stage.Some? { r := Deny(DUPLICATE_IN_FLIGHT, None); return; }
      r := Send(c, Sent(q.symbol, q.isExit, if q.quantize.Stepped? then q.quantize.base else q.units.value.base));
    }

    /** Steps 7 and 8: the write-ahead entry, then the create. */
    method Send(c: Coid, sent: Sent) returns (r: Ran<Result>)
      modifies this
      ensures Did(E.Send(env, old(State()), c, sent), r, State())
    {
      hide E.Deny, E.MaybePlaced, E.Acknowledge, H.Halted;
      var led := Append(OrderSent(c, WriteAhead, None, sent));
      if led.Died? { return Died; }
      if led.Raised? {
        var _ := SetHalt(false);
        return Returned(Result(DENIED, LEDGER_WRITE_FAILED, None, Some(c), 0.0, None, None));
      }
      index := index[c := Rec(Some(WriteAhead), None, sent, false)];
      var asked := Call(Create(c, sent));
      if !asked.Returned? { return if asked.Died? then Died else Raised; }
      var reply := env.create(trace);
      if reply.Rejected? {
        r := Deny(BROKER_REJECTED, Some(c));
      } else if reply.MaybeSent? || (reply.Placed? && reply.order.id == "") {
        r := MaybePlaced(c, sent, true);
      } else if reply.CreateRaised? {
        r := MaybePlaced(c, sent, false);
      } else {
        r := Placed(c, sent, reply.order);
      }
    }

    method Stage(c: Coid, stage: Stage, id: Option<string>)
      modifies this`index
      ensures index == Staged(old(index), c, stage, id)
    {
      if c in index {
        index := index[c := index[c].(stage := Some(stage), orderId := if id.Some? then id else index[c].orderId)];
      }
    }

    method MaybePlaced(c: Coid, sent: Sent, promised: bool) returns (r: Ran<Result>)
      modifies this
      ensures Did(E.MaybePlaced(env, old(State()), c, sent, promised), r, State())
    {
      hide E.Deny, E.DeclareUnknown, E.Acknowledge;
      var led := Append(OrderSent(c, SentNoAck, None, sent));
      if !led.Returned? { return if led.Died? then Died else Raised; }
      Stage(c, SentNoAck, None);
      var asked := Call(Lookup(c));
      if !asked.Returned? { return if asked.Died? then Died else Raised; }
      var found := env.lookup(trace);
      if found.Found? {
        r := Placed(c, sent, found.order);
      } else if found.NotFound? && promised {
        r := Deny(BROKER_NEVER_ACCEPTED, Some(c));
      } else {
        r := DeclareUnknown(c, None);
      }
    }

    method Placed(c: Coid, sent: Sent, o: Order) returns (r: Ran<Result>)
      modifies this
      ensures Did(E.Acknowledge(env, old(State()), c, sent, o), r, State())
    {
      hide E.Settle;
      var led := Append(OrderSent(c, Acked, Some(o.id), sent));
      if !led.Returned? { return if led.Died? then Died else Raised; }
      Stage(c, Acked, Some(o.id));
      r := Settle(c, o, sent.requested);
    }

    /** `_effective_fill`: each fill id once, the repeats noted. */
    method EffectiveFill(o: Order) returns (e: Effective)
      ensures e == E.EffectiveFill(o)
    {
      hide HasId, Distinct, Duplicates, Qty, Notional, Fees;
      if o.fills == [] { return Effective(o.filled, o.average, o.fee, []); }
      ExecutorDollars.NoParts();
      var kept, dups: seq<string>, seen: set<string> := [], [], {};
      var qty, notional, fee: Option<real> := 0.0, 0.0, Some(0.0);
      var i := 0;
      while i < |o.fills|
        invariant 0 <= i <= |o.fills|
        invariant kept == Distinct(o.fills[..i]) && dups == Duplicates(o.fills[..i])
        invariant forall id :: id in seen <==> HasId(kept, id)
        invariant qty == Qty(kept) && notional == Notional(kept) && fee == Fees(kept)
      {
        var f := o.fills[i];
        assert o.fills[..i + 1] == o.fills[..i] + [f];
        ExecutorDollars.OnePart(o.fills[..i], f);
        if f.id in seen {
          dups := dups + [f.id];
        } else {
          ExecutorDollars.OneSum(kept, f);
          ExecutorDollars.OneId(kept, f, seen);
          seen := seen + {f.id};
          kept := kept + [f];
          qty := qty + f.qty;
          notional := notional + f.qty * f.price;
          fee := if fee.Some? && f.fee.Some? then Some(fee.value + f.fee.value) else None;
        }
        i := i + 1;
      }
      assert o.fills[..|o.fills|] == o.fills;
      e := Effective(qty, if qty > 0.0 then Some(notional / qty) else None, if fee.Some? then fee else o.fee, dups);
    }

    // ---------------------------------------------------------------- startup

    method NoteUnknown(rep: Report, c: Coid, id: Option<string>) returns (r: Ran<Report>)
      modifies this
      ensures Did(UnknownNoted(env, old(State()), rep, c, id), r, State())
    {
      hide E.DeclareUnknown;
      var done := DeclareUnknown(c, id);
      if !done.Returned? { return if done.Died? then Died else Raised; }
      r := Returned(rep.(unknown := rep.unknown + [c]));
    }

    /** One pending client id against the broker. */
    method Reconcile(rep0: Report, c: Coid, rec: Rec) returns (r: Ran<Report>)
      modifies this
      ensures Did(E.Reconcile(env, old(State()), rep0, c, rec), r, State())
    {
      hide UnknownNoted, E.ReconcileFound;
      var rep := rep0.(pendingSeen := rep0.pendingSeen + 1);
      var asked := Call(Lookup(c));
      if !asked.Returned? { return if asked.Died? then Died else Raised; }
      var found := env.lookup(trace);
      if found.LookupRaised? && Or(rec.orderId, None).Some? {
        asked := Call(Fetch(rec.orderId.value));
        if !asked.Returned? { return if asked.Died? then Died else Raised; }
        var reply := env.fetch(trace);
        found := if reply.Got? then Found(reply.order) else LookupRaised;
      }
      if found.LookupRaised? {
        r := NoteUnknown(rep.(errors := rep.errors + 1), c, rec.orderId);
      } else if found.NotFound? {
        var led := Append(Resolved(c, rec.stage));
        if !led.Returned? { return if led.Died? then Died else Raised; }
        if c in index { Finish(c, index[c].orderId); }
        r := Returned(rep.(resolved := rep.resolved + [c]));
      } else {
        r := ReconcileFound(rep, c, rec, found.order);
      }
    }

    method ReconcileFound(rep: Report, c: Coid, rec: Rec, o: Order) returns (r: Ran<Report>)
      modifies this
      ensures Did(E.ReconcileFound(env, old(State()), rep, c, rec, o), r, State())
    {
      hide UnknownNoted, E.Finalize;
      var requested := if rec.sent.requested != 0.0 then rec.sent.requested else o.filled;
      if c in index { index := index[c := index[c].(orderId := Some(o.id))]; }
      if o.status == Open && rec.sent.isExit {
        var led := Append(LeftOpen(c, Some(o.id)));
        if !led.Returned? { return if led.Died? then Died else Raised; }
        return Returned(rep.(leftOpen := rep.leftOpen + [c]));
      }
      if o.status == Open {
        r := CancelFound(rep, c, o.id, requested);
        return;
      }
      var fin := Finalize(c, o, requested);
      if !fin.Returned? { return if fin.Died? then Died else Raised; }
      r := Returned(rep.(resolved := rep.resolved + [c],
                         unknown := if fin.value.Some? && fin.value.value.status == UNKNOWN then rep.unknown + [c]
                                    else rep.unknown));
    }

    /** An entry found open: cancel it and re-read. */
    method CancelFound(rep: Report, c: Coid, id: string, requested: real) returns (r: Ran<Report>)
      modifies this
      ensures Did(CanceledFound(env, old(State()), rep, c, id, requested), r, State())
    {
      hide UnknownNoted, E.Finalize;
      var asked := Call(Cancel(id));
      if !asked.Returned? { return if asked.Died? then Died else Raised; }
      if env.fetch(trace).FetchRaised? {
        r := NoteUnknown(rep, c, Some(id));
        return;
      }
      asked := Call(Fetch(id));
      if !asked.Returned? { return if asked.Died? then Died else Raised; }
      var reply := env.fetch(trace);
      if reply.FetchRaised? || reply.order.status == Open {
        r := NoteUnknown(rep, c, Some(id));
        return;
      }
      var fin := Finalize(c, reply.order, requested);
      if !fin.Returned? { return if fin.Died? then Died else Raised; }
      r := Returned(rep.(canceled := rep.canceled + [c], resolved := rep.resolved + [c]));
    }

    method ReconcileAll(pending: seq<(Coid, Rec)>) returns (r: Ran<Report>)
      modifies this
      ensures Did(E.ReconcileAll(env, old(State()), NO_REPORT, pending), r, State())
    {
      hide E.Reconcile;
      var rep, i := NO_REPORT, 0;
      while i < |pending|
        invariant 0 <= i <= |pending|
        invariant E.ReconcileAll(env, old(State()), NO_REPORT, pending[..i]) == Go(State(), rep)
      {
        assert pending[..i + 1][..i] == pending[..i];
        var done := Reconcile(rep, pending[i].0, pending[i].1);
        if !done.Returned? {
          StopsEarly(env, old(State()), NO_REPORT, pending, i + 1);
          return if done.Died? then Died else Raised;
        }
        rep, i := done.value, i + 1;
      }
      assert pending[..|pending|] == pending;
      r := Returned(rep);
    }

    method Strange(rep: Report, ids: set<string>, symbol: string, o: Order) returns (r: Ran<Report>)
      modifies this
      ensures Did(E.Strange(env, old(State()), rep, ids, symbol, o), r, State())
    {
      hide UnknownNoted;
      if o.id in ids || (o.clientId.Some? && o.clientId.value in index) { return Returned(rep); }
      var noted := rep;
      var reduces := env.reduces(symbol, o);
      if reduces.None? { return Raised; }
      if !reduces.value {
        var asked := Call(Cancel(o.id));
        if !asked.Returned? { return if asked.Died? then Died else Raised; }
        if env.fetch(trace).Got? { noted := rep.(canceled := rep.canceled + [Foreign(o.id)]); }
      }
      r := NoteUnknown(noted, Foreign(o.id), Some(o.id));
    }

    method StrangeAll(rep0: Report, ids: set<string>, symbol: string, orders: seq<Order>) returns (r: Ran<Report>)
      modifies this
      ensures Did(E.StrangeAll(env, old(State()), rep0, ids, symbol, orders), r, State())
    {
      hide E.Strange;
      var rep, i := rep0, 0;
      while i < |orders|
        invariant 0 <= i <= |orders|
        invariant E.StrangeAll(env, old(State()), rep0, ids, symbol, orders[..i]) == Go(State(), rep)
      {
        assert orders[..i + 1][..i] == orders[..i];
        var done := Strange(rep, ids, symbol, orders[i]);
        if !done.Returned? {
          StopsAmong(env, old(State()), rep0, ids, symbol, orders, i + 1);
          return if done.Died? then Died else Raised;
        }
        rep, i := done.value, i + 1;
      }
      assert orders[..|orders|] == orders;
      r := Returned(rep);
    }

    method Symbols(rep0: Report, ids: set<string>, symbols: seq<string>) returns (r: Ran<Report>)
      modifies this
      ensures Did(E.Symbols(env, old(State()), rep0, ids, symbols), r, State())
    {
      hide E.StrangeAll;
      var rep, i := rep0, 0;
      while i < |symbols|
        invariant 0 <= i <= |symbols|
        invariant E.Symbols(env, old(State()), rep0, ids, symbols[..i]) == Go(State(), rep)
      {
        assert symbols[..i + 1][..i] == symbols[..i];
        var done := OneSymbol(rep, ids, symbols[i]);
        if !done.Returned? {
          StopsAt(env, old(State()), rep0, ids, symbols, i + 1);
          return if done.Died? then Died else Raised;
        }
        rep, i := done.value, i + 1;
      }
      assert symbols[..|symbols|] == symbols;
      r := Returned(rep);
    }

    method OneSymbol(rep: Report, ids: set<string>, symbol: string) returns (r: Ran<Report>)
      modifies this
      ensures Did(Listing(env, old(State()), rep, ids, symbol), r, State())
    {
      hide E.StrangeAll;
      var asked := Call(ListOpen(symbol));
      if !asked.Returned? { return if asked.Died? then Died else Raised; }
      var reply := env.list(trace);
      if reply.ListRaised? { return Returned(rep.(errors := rep.errors + 1)); }
      r := StrangeAll(rep, ids, symbol, reply.orders);
    }

    /** The halt policy at the end of startup. */
    method Policy(rep: Report) returns (r: Ran<Report>)
      modifies this
      ensures Did(E.Policy(env, old(State()), rep), r, State())
    {
      hide H.Halted, H.Clears;
      var led := Append(Summary);
      if !led.Returned? { return if led.Died? then Died else Raised; }
      if FoundSomething(rep) {
        if rep.unknown == [] {
          var ok := SetHalt(true);
          if !ok { return Raised; }
        }
        r := Returned(rep.(haltSet := true));
      } else if H.Clears(halt, H.ClearHalt("", true)) {
        if env.haltFails(trace) { return Raised; }
        halt, clears := SF.Absent, clears + 1;
        r := Returned(rep.(haltCleared := true));
      } else {
        r := Returned(rep);
      }
      started := true;
    }

    /** The three phases in order. The write-ahead invariant is established from the ledger alone, a manual halt
        survives, and when every write succeeds the startup returns reconciled. */
    method Startup(symbols: seq<string>) returns (r: Ran<Report>)
      modifies this
      ensures Did(E.Startup(env, old(State()), symbols), r, State())
      ensures forall c :: I.Trail(env, old(trace), c) ==>
                I.Trail(env, trace, c) && (!r.Died? ==> I.Safe(env, State(), c))
      ensures H.Manual(old(halt)) ==> H.Manual(halt)
      ensures S.Fit(env) && S.Strangers(old(trace)) ==>
                r.Returned? && S.Reconciled(env, old(State()), symbols, Go(State(), r.value))
    {
      Started(env, State(), symbols);
      r := Phases(symbols);
    }

    method Phases(symbols: seq<string>) returns (r: Ran<Report>)
      modifies this
      ensures Did(E.Startup(env, old(State()), symbols), r, State())
    {
      hide E.ReconcileAll, E.Symbols, E.Policy, PendingList, Coids;
      ghost var before := trace;
      RebuildIndex();
      var pending := PendingList(trace, Coids(trace));
      trace := trace + [Rebuild];
      var all := ReconcileAll(pending);
      if !all.Returned? { return if all.Died? then Died else Raised; }
      var ids := KnownIds(index);
      var listed := Symbols(all.value, ids, symbols);
      if !listed.Returned? { return if listed.Died? then Died else Raised; }
      r := Policy(listed.value);
    }
  }

  // ------------------------------------------------------------------ what is proved of the two entry points

  lemma {:induction false} Executed(env: Env, w: World, q: Request)
    ensures var s := E.Execute(env, w, q);
            && (forall c :: I.Safe(env, w, c) ==>
                  I.Trail(env, s.w.trace, c) && (!(s.Stop? && s.died) ==> I.Safe(env, s.w, c)))
            && (s.Go? && s.v.status == UNKNOWN ==> (G.HaltedIn(s.w) <==> G.HaltedIn(w) || !env.haltFails(s.w.trace)))
            && (G.HaltedIn(w) ==> G.EntryCreates(s.w.trace) == G.EntryCreates(w.trace) && G.HaltedIn(s.w))
  {
    hide E.Execute, I.Trail, I.Memory, G.EntryCreates, G.HaltedIn;
    var s := E.Execute(env, w, q);
    forall c | I.Safe(env, w, c)
      ensures I.Trail(env, s.w.trace, c) && (!(s.Stop? && s.died) ==> I.Safe(env, s.w, c))
    {
      I.ExecuteSafe(env, w, q, c);
    }
    if s.Go? && s.v.status == UNKNOWN {
      G.UnknownHalts(env, w, q);
    }
    if G.HaltedIn(w) {
      G.ExecuteHeld(env, w, q);
    }
  }

  lemma {:induction false} Started(env: Env, w: World, symbols: seq<string>)
    ensures var s := E.Startup(env, w, symbols);
            && (forall c :: I.Trail(env, w.trace, c) ==>
                  I.Trail(env, s.w.trace, c) && (!(s.Stop? && s.died) ==> I.Safe(env, s.w, c)))
            && (H.Manual(w.halt) ==> H.Manual(s.w.halt))
            && (S.Fit(env) && S.Strangers(w.trace) ==> s.Go? && S.Reconciled(env, w, symbols, s))
  {
    hide E.Startup, I.Trail, I.Memory, H.Manual, S.Fit, S.Strangers;
    var s := E.Startup(env, w, symbols);
    forall c | I.Trail(env, w.trace, c)
      ensures I.Trail(env, s.w.trace, c) && (!(s.Stop? && s.died) ==> I.Safe(env, s.w, c))
    {
      I.StartupSafe(env, w, symbols, c);
    }
    if H.Manual(w.halt) {
      G.StartupKeepsManual(env, w, symbols);
    }
    if S.Fit(env) && S.Strangers(w.trace) {
      S.StartupReconciles(env, w, symbols);
    }
  }

  // ------------------------------------------------------------------ a stop in a loop is the stop of the loop

  lemma {:induction false} StopsEarly(env: Env, w: World, rep: Report, pending: seq<(Coid, Rec)>, k: nat)
    requires k <= |pending| && E.ReconcileAll(env, w, rep, pending[..k]).Stop?
    ensures E.ReconcileAll(env, w, rep, pending) == E.ReconcileAll(env, w, rep, pending[..k])
    decreases |pending|
  {
    hide E.Reconcile;
    if k < |pending| {
      assert pending[..|pending| - 1][..k] == pending[..k];
      StopsEarly(env, w, rep, pending[..|pending| - 1], k);
    } else {
      assert pending[..k] == pending;
    }
  }

  lemma {:induction false} StopsAmong(env: Env, w: World, rep: Report, ids: set<string>, symbol: string,
                                      orders: seq<Order>, k: nat)
    requires k <= |orders| && E.StrangeAll(env, w, rep, ids, symbol, orders[..k]).Stop?
    ensures E.StrangeAll(env, w, rep, ids, symbol, orders) == E.StrangeAll(env, w, rep, ids, symbol, orders[..k])
    decreases |orders|
  {
    hide E.Strange;
    if k < |orders| {
      assert orders[..|orders| - 1][..k] == orders[..k];
      StopsAmong(env, w, rep, ids, symbol, orders[..|orders| - 1], k);
    } else {
      assert orders[..k] == orders;
    }
  }

  lemma {:induction false} StopsAt(env: Env, w: World, rep: Report, ids: set<string>, symbols: seq<string>, k: nat)
    requires k <= |symbols| && E.Symbols(env, w, rep, ids, symbols[..k]).Stop?
    ensures E.Symbols(env, w, rep, ids, symbols) == E.Symbols(env, w, rep, ids, symbols[..k])
    decreases |symbols|
  {
    hide E.StrangeAll;
    if k < |symbols| {
      assert symbols[..|symbols| - 1][..k] == symbols[..k];
      StopsAt(env, w, rep, ids, symbols[..|symbols| - 1], k);
    } else {
      assert symbols[..k] == symbols;
    }
  }
}
