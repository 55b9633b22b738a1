/** One attempt from its create to its single terminal entry, and what it costs at the broker: one create, as many polls
    as fit the timeout, at most one cancel with its re-read, and a result that says what the broker reported. The ledger
    takes every entry and the process lives; what happens otherwise is in ExecutorIndex and ExecutorDollars. */
module ExecutorAttempt {
  import opened Options
  import opened Executor
  import opened ExecutorIndex
  import H = EntryHalts
  import D = DailyLimits

  // ------------------------------------------------------------------ counting

  /** Terminal entries of one id, and calls at the broker. */
  datatype Tally = Tally(ends: nat, creates: nat, lookups: nat, sleeps: nat, fetches: nat, cancels: nat)

  function Tick(t: Tally, a: Act, c: Coid): Tally {
    if EndsIt(a, c) then t.(ends := t.ends + 1)
    else
      match a
      case Create(_, _) => t.(creates := t.creates + 1)
      case Lookup(_) => t.(lookups := t.lookups + 1)
      case Sleep => t.(sleeps := t.sleeps + 1)
      case Fetch(_) => t.(fetches := t.fetches + 1)
      case Cancel(_) => t.(cancels := t.cancels + 1)
      case _ => t
  }

  function Count(trace: seq<Act>, c: Coid): Tally {
    if trace == [] then Tally(0, 0, 0, 0, 0, 0) else Tick(Count(trace[..|trace| - 1], c), trace[|trace| - 1], c)
  }

  /** Every append succeeds and the process lives. */
  ghost predicate Smooth(env: Env) {
    AllWritten(env) && (forall t :: !env.dies(t)) && (forall t, b :: !env.diesBooking(t, b))
  }

  lemma {:induction false} LedSmooth(env: Env, w: World, ev: Event, c: Coid)
    requires Smooth(env)
    ensures Led(env, w, ev) == Go(w.(trace := w.trace + [Append(ev, Written)]), ())
    ensures Count(w.trace + [Append(ev, Written)], c) == Tick(Count(w.trace, c), Append(ev, Written), c)
  {
  }

  lemma {:induction false} DoSmooth(env: Env, w: World, act: Act, c: Coid)
    requires Smooth(env)
    ensures Do(env, w, act) == Go(w.(trace := w.trace + [act]), ())
    ensures Count(w.trace + [act], c) == Tick(Count(w.trace, c), act, c)
  {
  }

  /** The terminal entry that says what the result says. */
  predicate Says(ev: Event, r: Result, c: Coid) {
    && About(ev) == Some(c) && r.coid == Some(c) && Terminal(ev)
    && match r.status
       case FILLED => ev.Fill? && !ev.partial && ev.filled == r.filled && ev.orderId == r.orderId && ev.avg == r.avg
           && ev.fee == r.fees
       case PARTIAL => ev.Fill? && ev.partial && ev.filled == r.filled && ev.orderId == r.orderId && ev.avg == r.avg
           && ev.fee == r.fees
       case NO_FILL_CANCELED => ev.NoFillCanceled? && ev.orderId == r.orderId
       case DENIED => ev.IntentDenied? && ev.code == r.code
       case UNKNOWN => ev.UnknownState? && ev.orderId == r.orderId
  }

  /** A fill within what was requested; partial exactly if it falls short of it. */
  predicate Bounded(r: Result, requested: real) {
    r.status == FILLED || r.status == PARTIAL ==>
      && 0.0 < r.filled <= requested * (1.0 + OVERFILL) + SLACK
      && (r.status == PARTIAL <==> r.filled + SLACK < requested)
  }

  /** The broker answered the last of these acts with this order. */
  predicate Answers(env: Env, t: seq<Act>, o: Order) {
    t != [] && match t[|t| - 1]
               case Create(_, _) => env.create(t) == Placed(o)
               case Fetch(_) => env.fetch(t) == Got(o)
               case Lookup(_) => env.lookup(t) == Found(o)
               case _ => false
  }

  /** The broker has reported this order at some point. */
  ghost predicate Reported(env: Env, t: seq<Act>, o: Order) {
    exists k :: 0 <= k <= |t| && Answers(env, t[..k], o)
  }

  lemma {:induction false} ReportedLater(env: Env, t: seq<Act>, more: seq<Act>, o: Order)
    requires Reported(env, t, o)
    ensures Reported(env, t + more, o)
  {
    var k :| 0 <= k <= |t| && Answers(env, t[..k], o);
    assert (t + more)[..k] == t[..k];
  }

  lemma {:induction false} ReportedNow(env: Env, t: seq<Act>, o: Order)
    requires Answers(env, t, o)
    ensures Reported(env, t, o)
  {
    assert t[..|t|] == t;
  }

  /** Nothing is declared filled or canceled by assumption: the broker reported an order that was no longer open,
      with exactly that effective fill. */
  ghost predicate Truthful(env: Env, t: seq<Act>, r: Result) {
    (r.status == FILLED || r.status == PARTIAL || r.status == NO_FILL_CANCELED) ==>
      exists o :: Reported(env, t, o) && Backs(o, r)
  }

  predicate Backs(o: Order, r: Result) {
    && r.orderId == Some(o.id)
    && (if r.status == NO_FILL_CANCELED then o.status == Canceled && EffectiveFill(o).filled == 0.0
        else (o.status == Closed || o.status == Canceled) && EffectiveFill(o).filled == r.filled
             && EffectiveFill(o).avg == r.avg && EffectiveFill(o).fee == r.fees)
  }

  /** The one way an attempt raises after its terminal entry: the fill is in the ledger, another process was writing the
      daily counters, and the halt that must follow could not be written. */
  ghost predicate RaisedOnRace(env: Env, t: seq<Act>) {
    t != [] && t[|t| - 1].Append? && t[|t| - 1].ev.Fill? && env.haltFails(t) && exists b :: env.counters(t, b).Raced?
  }

  /** From `before` the attempt wrote exactly one terminal entry of `c`, as its last act, saying what it returned, if it
      returned, after at most `polls` polls, and as many re-reads as cancels, at most `cancels`. */
  ghost predicate Concluded(env: Env, s: Step<Result>, before: Tally, c: Coid, requested: real, polls: nat,
                            cancels: nat) {
    && s.w.trace != []
    && s.w.trace[|s.w.trace| - 1].Append? && s.w.trace[|s.w.trace| - 1].fate.Written?
    && EndsIt(s.w.trace[|s.w.trace| - 1], c)
    && (s.Go? ==>
          Says(s.w.trace[|s.w.trace| - 1].ev, s.v, c) && Bounded(s.v, requested) && Truthful(env, s.w.trace, s.v))
    && (s.Stop? ==> !s.died && RaisedOnRace(env, s.w.trace))
    && Spent(before, Count(s.w.trace, c), polls, cancels)
  }

  predicate Spent(before: Tally, after: Tally, polls: nat, cancels: nat) {
    && after.ends == before.ends + 1
    && after.creates == before.creates && after.lookups == before.lookups
    && before.sleeps <= after.sleeps <= before.sleeps + polls
    && before.cancels <= after.cancels <= before.cancels + cancels
    && 0 <= after.fetches - before.fetches - (after.sleeps - before.sleeps) <= after.cancels - before.cancels
  }

  lemma {:induction false} UnknownConcludes(env: Env, w: World, c: Coid, id: Option<string>, requested: real)
    requires Smooth(env)
    ensures Concluded(env, DeclareUnknown(env, w, c, id), Count(w.trace, c), c, requested, 0, 0)
    ensures DeclareUnknown(env, w, c, id).Go? && DeclareUnknown(env, w, c, id).v.status == UNKNOWN
  {
    hide Smooth, Count, H.Halted;
    LedSmooth(env, w, UnknownState(c, id), c);
  }

  lemma {:induction false} DenyConcludes(env: Env, w: World, c: Coid, code: Code, requested: real)
    requires Smooth(env)
    ensures Concluded(env, Deny(env, w, code, Some(c)), Count(w.trace, c), c, requested, 0, 0)
  {
    hide Smooth, Count;
    LedSmooth(env, w, IntentDenied(code, Some(c), true), c);
  }

  lemma {:induction false} CountEnds(env: Env, w: World, usd: real, fee: Option<real>)
    requires Smooth(env)
    ensures var s := CountFill(env, w, usd, fee);
            && s.w.trace == w.trace
            && (s.Stop? ==> !s.died && env.haltFails(w.trace) && exists b :: env.counters(w.trace, b).Raced?)
  {
    hide D.RecordFillDone, D.LoadDone, H.Halted, AllWritten;
    if usd >= 0.0 {
      var rolled := RollOver(env, w, D.LoadDone(w.stats, env.me, env.today(w.trace)));
      assert env.counters(w.trace, w.books).Raced? || env.counters(w.trace, rolled.w.books).Raced?
             || CountFill(env, w, usd, fee).Go?;
    }
  }

  lemma {:induction false} FillConcludes(env: Env, w: World, c: Coid, o: Order, requested: real)
    requires Smooth(env)
    requires EffectiveFill(o).filled > 0.0 && !Overfilled(EffectiveFill(o).filled, requested)
    requires Reported(env, w.trace, o) && (o.status == Closed || o.status == Canceled)
    ensures Concluded(env, RecordFill(env, w, c, o, EffectiveFill(o), requested), Count(w.trace, c), c, requested, 0, 0)
  {
    hide Smooth, Count, CountFill, EffectiveFill, Reported, Dollars;
    var e := EffectiveFill(o);
    var ev := Fill(c, Some(o.id), e.filled + SLACK < requested, e.filled, requested, e.avg, e.fee, e.duplicates);
    LedSmooth(env, w, ev, c);
    ReportedLater(env, w.trace, [Append(ev, Written)], o);
    CountEnds(env, Led(env, w, ev).w.(index := Ended(w.index, c, Some(o.id))), Dollars(e), e.fee);
    var s := RecordFill(env, w, c, o, e, requested);
    assert s.Go? ==> Backs(o, s.v);
  }

  lemma {:induction false} NoFillConcludes(env: Env, w: World, c: Coid, o: Order, requested: real)
    requires Smooth(env) && Reported(env, w.trace, o) && o.status == Canceled && EffectiveFill(o).filled == 0.0
    ensures var led := Led(env, w, NoFillCanceled(c, Some(o.id)));
            var r := Result(NO_FILL_CANCELED, TIMEOUT_NO_FILL_CANCELED, Some(o.id), Some(c), 0.0, None, None);
            led.Go? && forall w': World :: w'.trace == led.w.trace ==>
              Concluded(env, Go(w', r), Count(w.trace, c), c, requested, 0, 0)
  {
    hide Smooth, Count, EffectiveFill, Reported;
    LedSmooth(env, w, NoFillCanceled(c, Some(o.id)), c);
    ReportedLater(env, w.trace, [Append(NoFillCanceled(c, Some(o.id)), Written)], o);
    assert Backs(o, Result(NO_FILL_CANCELED, TIMEOUT_NO_FILL_CANCELED, Some(o.id), Some(c), 0.0, None, None));
  }

  /** Still open: nothing was concluded. */
  predicate StillOpen(s: Step<Option<Result>>) { s.Go? && s.v.None? }

  function Ending(s: Step<Option<Result>>): Step<Result>
    requires !StillOpen(s)
  {
    match s
    case Go(w, v) => Go(w, v.value)
    case Stop(w, died) => Stop(w, died)
  }

  /** A status read from the broker either leaves the attempt open and untouched, or concludes it. */
  lemma {:induction false} FinalizeConcludes(env: Env, w: World, c: Coid, o: Order, requested: real)
    requires Smooth(env) && Reported(env, w.trace, o)
    ensures var s := Finalize(env, w, c, o, requested);
            if StillOpen(s) then o.status == Open && s.w == w
            else Concluded(env, Ending(s), Count(w.trace, c), c, requested, 0, 0)
  {
    hide Smooth, Count, Concluded, EffectiveFill, Overfilled, DeclareUnknown, RecordFill, Reported;
    var e := EffectiveFill(o);
    UnknownConcludes(env, w, c, Some(o.id), requested);
    if e.filled > 0.0 && !Overfilled(e.filled, requested) && (o.status == Closed || o.status == Canceled) {
      FillConcludes(env, w, c, o, requested);
    }
    if o.status == Canceled && e.filled == 0.0 {
      NoFillConcludes(env, w, c, o, requested);
    }
  }

  /** Spending adds up: `late` is reached from `early` by some polls, at most one cancel and its re-read. */
  lemma {:induction false} ConcludedLater(env: Env, s: Step<Result>, early: Tally, late: Tally, c: Coid,
                                          requested: real, more: nat, cancels: nat, polls: nat, allowed: nat)
    requires Concluded(env, s, late, c, requested, more, cancels)
    requires late.ends == early.ends && late.creates == early.creates && late.lookups == early.lookups
    requires early.sleeps <= late.sleeps && late.sleeps - early.sleeps + more <= polls
    requires early.cancels <= late.cancels && late.cancels - early.cancels + cancels <= allowed
    requires 0 <= late.fetches - early.fetches - (late.sleeps - early.sleeps) <= late.cancels - early.cancels
    ensures Concluded(env, s, early, c, requested, polls, allowed)
  {
  }

  lemma {:induction false} CancelConcludes(env: Env, w: World, c: Coid, id: string, requested: real)
    requires Smooth(env)
    ensures Concluded(env, CancelAndReread(env, w, c, id, requested), Count(w.trace, c), c, requested, 0, 1)
  {
    hide Smooth, Count, Finalize, DeclareUnknown, Concluded, Reported;
    var t0 := Count(w.trace, c);
    DoSmooth(env, w, Cancel(id), c);
    var w1 := Do(env, w, Cancel(id)).w;
    UnknownConcludes(env, w1, c, Some(id), requested);
    ConcludedLater(env, DeclareUnknown(env, w1, c, Some(id)), t0, Count(w1.trace, c), c, requested, 0, 0, 0, 1);
    DoSmooth(env, w1, Fetch(id), c);
    var w2 := Do(env, w1, Fetch(id)).w;
    UnknownConcludes(env, w2, c, Some(id), requested);
    ConcludedLater(env, DeclareUnknown(env, w2, c, Some(id)), t0, Count(w2.trace, c), c, requested, 0, 0, 0, 1);
    if env.fetch(w2.trace).Got? {
      var reread := env.fetch(w2.trace).order;
      ReportedNow(env, w2.trace, reread);
      FinalizeConcludes(env, w2, c, reread, requested);
      var fin := Finalize(env, w2, c, reread, requested);
      if !StillOpen(fin) {
        ConcludedLater(env, Ending(fin), t0, Count(w2.trace, c), c, requested, 0, 0, 0, 1);
      }
    }
  }

  lemma {:induction false} PollSmooth(env: Env, w: World, id: string, c: Coid)
    requires Smooth(env)
    ensures var s := Poll(env, w, id);
            && s.Go? && s.w == w.(trace := w.trace + [Sleep] + [Fetch(id)]) && s.v == env.fetch(s.w.trace)
            && var t := Count(w.trace, c); Count(s.w.trace, c) == t.(sleeps := t.sleeps + 1, fetches := t.fetches + 1)
  {
    hide Smooth, Count, TimeLeft;
    DoSmooth(env, w, Sleep, c);
    DoSmooth(env, w.(trace := w.trace + [Sleep]), Fetch(id), c);
  }

  lemma {:induction false} SettleConcludes(env: Env, w: World, c: Coid, id: string, last: Order, requested: real,
                                           t0: real)
    requires Smooth(env) && Reported(env, w.trace, last)
    ensures Concluded(env, Settle(env, w, c, id, last, requested, t0), Count(w.trace, c), c, requested,
                      TimeLeft(env, w, t0), 1)
    decreases TimeLeft(env, w, t0)
  {
    hide Smooth, Count, Finalize, DeclareUnknown, Concluded, TimeLeft, Poll, CancelAndReread, EffectiveFill, Reported;
    var before := Count(w.trace, c);
    var polls := TimeLeft(env, w, t0);
    FinalizeConcludes(env, w, c, last, requested);
    var fin := Finalize(env, w, c, last, requested);
    if !StillOpen(fin) {
      ConcludedLater(env, Ending(fin), before, before, c, requested, 0, 0, polls, 1);
    } else if Now(env, w.trace) - t0 >= env.timeout {
      CancelConcludes(env, w, c, id, requested);
      ConcludedLater(env, CancelAndReread(env, w, c, id, requested), before, before, c, requested, 0, 1, polls, 1);
    } else {
      PollSmooth(env, w, id, c);
      var polled := Poll(env, w, id);
      var more := TimeLeft(env, polled.w, t0);
      UnknownConcludes(env, polled.w, c, Some(id), requested);
      ConcludedLater(env, DeclareUnknown(env, polled.w, c, Some(id)), before, Count(polled.w.trace, c), c, requested,
                     0, 0, polls, 1);
      if polled.v.Got? {
        ReportedNow(env, polled.w.trace, polled.v.order);
        SettleConcludes(env, polled.w, c, id, polled.v.order, requested, t0);
        ConcludedLater(env, Settle(env, polled.w, c, id, polled.v.order, requested, t0), before,
                       Count(polled.w.trace, c), c, requested, more, 1, polls, 1);
      }
    }
  }

  /** The whole attempt, from the tally before its write-ahead entry: one create, one lookup at most, and the rest
      as in Concluded. */
  ghost predicate Attempted(env: Env, s: Step<Result>, before: Tally, c: Coid, requested: real, polls: nat) {
    exists mid: Tally :: (mid == before.(creates := before.creates + 1)
                          || mid == before.(creates := before.creates + 1, lookups := before.lookups + 1))
                         && Concluded(env, s, mid, c, requested, polls, 1)
  }

  lemma {:induction false} PlacedConcludes(env: Env, w: World, c: Coid, sent: Sent, o: Order)
    requires Smooth(env) && Reported(env, w.trace, o)
    ensures Concluded(env, Acknowledge(env, w, c, sent, o), Count(w.trace, c), c, sent.requested,
                      Rounds(env.timeout, env.poll), 1)
  {
    hide Smooth, Count, Concluded, Settle, Rounds, Reported;
    var ev := OrderSent(c, Acked, Some(o.id), sent);
    LedSmooth(env, w, ev, c);
    var w1 := Led(env, w, ev).w;
    var w2 := w1.(index := Staged(w1.index, c, Acked, Some(o.id)));
    ReportedLater(env, w.trace, [Append(ev, Written)], o);
    SettleConcludes(env, w2, c, o.id, o, sent.requested, Now(env, w2.trace));
  }

  lemma {:induction false} MaybeConcludes(env: Env, w: World, c: Coid, sent: Sent, promised: bool)
    requires Smooth(env)
    ensures var t := Count(w.trace, c);
            Concluded(env, MaybePlaced(env, w, c, sent, promised), t.(lookups := t.lookups + 1), c, sent.requested,
                      Rounds(env.timeout, env.poll), 1)
  {
    hide Smooth, Count, Concluded, Acknowledge, DeclareUnknown, Deny, Rounds, Reported;
    var ev := OrderSent(c, SentNoAck, None, sent);
    LedSmooth(env, w, ev, c);
    var w1 := Led(env, w, ev).w;
    var w2 := w1.(index := Staged(w1.index, c, SentNoAck, None));
    DoSmooth(env, w2, Lookup(c), c);
    var w3 := Do(env, w2, Lookup(c)).w;
    var t := Count(w3.trace, c);
    var polls := Rounds(env.timeout, env.poll);
    UnknownConcludes(env, w3, c, None, sent.requested);
    ConcludedLater(env, DeclareUnknown(env, w3, c, None), t, t, c, sent.requested, 0, 0, polls, 1);
    DenyConcludes(env, w3, c, BROKER_NEVER_ACCEPTED, sent.requested);
    ConcludedLater(env, Deny(env, w3, BROKER_NEVER_ACCEPTED, Some(c)), t, t, c, sent.requested, 0, 0, polls, 1);
    if env.lookup(w3.trace).Found? {
      ReportedNow(env, w3.trace, env.lookup(w3.trace).order);
      PlacedConcludes(env, w3, c, sent, env.lookup(w3.trace).order);
    }
  }

  lemma {:induction false} SendConcludes(env: Env, w: World, c: Coid, sent: Sent)
    requires Smooth(env)
    ensures Attempted(env, Send(env, w, c, sent), Count(w.trace, c), c, sent.requested, Rounds(env.timeout, env.poll))
  {
    hide Smooth, Count, Concluded, Acknowledge, MaybePlaced, Deny, Rounds, H.Halted, Reported;
    var before := Count(w.trace, c);
    var polls := Rounds(env.timeout, env.poll);
    var ev := OrderSent(c, WriteAhead, None, sent);
    LedSmooth(env, w, ev, c);
    var led := Led(env, w, ev);
    var w1 := led.w.(index := led.w.index[c := Rec(Some(WriteAhead), None, sent, false)]);
    DoSmooth(env, w1, Create(c, sent), c);
    var w2 := Do(env, w1, Create(c, sent)).w;
    var t := Count(w2.trace, c);
    assert t == before.(creates := before.creates + 1);
    DenyConcludes(env, w2, c, BROKER_REJECTED, sent.requested);
    ConcludedLater(env, Deny(env, w2, BROKER_REJECTED, Some(c)), t, t, c, sent.requested, 0, 0, polls, 1);
    MaybeConcludes(env, w2, c, sent, true);
    MaybeConcludes(env, w2, c, sent, false);
    if env.create(w2.trace).Placed? {
      ReportedNow(env, w2.trace, env.create(w2.trace).order);
      PlacedConcludes(env, w2, c, sent, env.create(w2.trace).order);
    }
  }

  lemma {:induction false} LimitsEnd(env: Env, w: World, r: Request)
    requires Smooth(env) && r.units.Some?
    ensures var s := CheckLimits(env, w, r);
            && s.w == w.(stats := s.w.stats, books := s.w.books)
            && (s.Stop? <==> RollRefused(env, w, r))
            && (s.Stop? ==> !s.died && s.w == w)
            && (s.Go? ==> s.v == if r.isExit then D.Allowed else LimitsVerdict(env, w, r))
  {
    hide D.LoadDone, D.CheckVerdict, AllWritten;
  }

  function LimitsVerdict(env: Env, w: World, r: Request): D.Verdict
    requires r.units.Some?
  {
    D.CheckVerdict(env.limits, w.stats, env.me, env.today(w.trace), env.today2(w.trace), r.units.value.usd)
  }

  /** The day must be rolled over and the file cannot be replaced. */
  predicate RollRefused(env: Env, w: World, r: Request) {
    && !r.isExit && D.LoadDone(w.stats, env.me, env.today(w.trace)).reset.Some?
    && env.counters(w.trace, w.books) != Replaced
  }

  /** Total correctness of an attempt: with appends succeeding and the process alive, every execute that reaches
      create_order calls it once and writes exactly one terminal entry, as its last act, saying what the result says,
      after at most ceil(timeout / poll) polls, one cancel and one re-read; a filled result stays within the requested
      amount, and what is called filled or canceled is what the broker reported of an order that was no longer open. Any
      other execute is denied and wrote no terminal entry. Two exceptions leave a call: the daily counters could not be
      rolled over, before anything was sent; and a race on them could not be put behind a halt, after the fill entry. */
  lemma {:induction false} AttemptConcludes(env: Env, w: World, r: Request)
    requires Smooth(env)
    ensures var s := Execute(env, w, r);
            var before := Count(w.trace, r.ClientId());
            || Attempted(env, s, before, r.ClientId(), r.Base(), Rounds(env.timeout, env.poll))
            || (s.Go? && s.v.status == DENIED && Count(s.w.trace, r.ClientId()) == before)
            || (s == Stop(w, false) && RollRefused(env, w, r))
  {
    hide Smooth, Count, Concluded, Attempted, Send, CheckLimits, RollRefused, H.ActiveIn, Rounds;
    forall w1: World, code | w1.trace == w.trace
      ensures var s := Deny(env, w1, code, None);
              s.Go? && s.v.status == DENIED && Count(s.w.trace, r.ClientId()) == Count(w.trace, r.ClientId())
    {
      LedSmooth(env, w1, IntentDenied(code, None, false), r.ClientId());
    }
    if r.units.Some? {
      LimitsEnd(env, w, r);
      SendConcludes(env, CheckLimits(env, w, r).w, r.ClientId(), Sent(r.symbol, r.isExit, r.Base()));
    }
  }

  // ------------------------------------------------------------------ the gates

  /** Every gate an intent must pass before anything is sent. */
  predicate MaySend(env: Env, w: World, r: Request) {
    && w.started && r.killAllows && r.units.Some? && r.saneAllows && !r.quantize.Refused?
    && !Pending(w.index, r.ClientId())
    && (!r.isExit ==> H.ActiveIn(w.halt).None? && LimitsVerdict(env, w, r).Allowed? && !RollRefused(env, w, r))
  }

  /** create_order is called exactly if every gate allows: the kill switch for everyone, the halt and the daily limits
      for entries only, units, sanity, and no attempt of the same client id in flight. */
  lemma {:induction false} SentIffAllowed(env: Env, w: World, r: Request)
    requires Smooth(env)
    ensures Count(Execute(env, w, r).w.trace, r.ClientId()).creates
            == Count(w.trace, r.ClientId()).creates + if MaySend(env, w, r) then 1 else 0
  {
    hide Smooth, Count, Concluded, Attempted, Send, CheckLimits, LimitsVerdict, RollRefused, H.ActiveIn, Rounds;
    forall w1: World, code | w1.trace == w.trace
      ensures Count(Deny(env, w1, code, None).w.trace, r.ClientId()) == Count(w.trace, r.ClientId())
    {
      LedSmooth(env, w1, IntentDenied(code, None, false), r.ClientId());
    }
    if r.units.Some? {
      LimitsEnd(env, w, r);
      var sent := Sent(r.symbol, r.isExit, r.Base());
      var w1 := CheckLimits(env, w, r).w;
      SendConcludes(env, w1, r.ClientId(), sent);
      AttemptCreates(env, Send(env, w1, r.ClientId(), sent), Count(w.trace, r.ClientId()), r.ClientId(), sent.requested,
                     Rounds(env.timeout, env.poll));
      assert !r.isExit || !RollRefused(env, w, r) by { NotForExits(env, w, r); }
    }
  }

  lemma {:induction false} NotForExits(env: Env, w: World, r: Request)
    ensures r.isExit ==> !RollRefused(env, w, r)
  {
  }

  lemma {:induction false} AttemptCreates(env: Env, s: Step<Result>, before: Tally, c: Coid, requested: real,
                                          polls: nat)
    ensures Attempted(env, s, before, c, requested, polls) ==> Count(s.w.trace, c).creates == before.creates + 1
  {
    hide Count, Says, Truthful;
  }
}
