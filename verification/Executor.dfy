/** The honest executor as a function of its durable and in-memory state and of an environment that answers
    every broker call, decides the fate of every ledger append and may kill the process after any act. */
module Executor {
  import opened Options
  import opened StateFiles
  import H = EntryHalts
  import D = DailyLimits

  // ------------------------------------------------------------------ orders and the broker

  datatype OrderStatus = Open | Closed | Canceled | Unknown

  datatype Part = Part(id: string, qty: real, price: real, fee: Option<real>)

  /** The client id of an order: derived from an intent, or made up for an order found at the broker. */
  datatype Coid = Client(digest: string) | Foreign(orderId: string)

  datatype Order = Order(id: string, status: OrderStatus, filled: real, average: Option<real>, fee: Option<real>,
                         clientId: Option<Coid>, fills: seq<Part>)

  datatype CreateReply = Placed(order: Order) | Rejected | MaybeSent | CreateRaised
  datatype FetchReply = Got(order: Order) | FetchRaised
  datatype LookupReply = Found(order: Order) | NotFound | LookupRaised
  datatype ListReply = Listed(orders: seq<Order>) | ListRaised

  // ------------------------------------------------------------------ what the ledger records

  datatype Stage = WriteAhead | SentNoAck | Acked

  datatype Sent = Sent(symbol: string, isExit: bool, requested: real)

  /** The entries the executor writes, by what the index reads from them. */
  datatype Event =
    | OrderSent(coid: Coid, stage: Stage, orderId: Option<string>, sent: Sent)
    | Fill(coid: Coid, orderId: Option<string>, partial: bool, filled: real, requested: real, avg: Option<real>,
           fee: Option<real>, duplicates: seq<string>)
    | NoFillCanceled(coid: Coid, orderId: Option<string>)
    | UnknownState(coid: Coid, orderId: Option<string>)
    | IntentDenied(code: Code, about: Option<Coid>, terminal: bool)
    | Resolved(coid: Coid, stageWas: Option<Stage>)
    | LeftOpen(coid: Coid, orderId: Option<string>)
    | Summary

  datatype Code =
    | STARTUP_RECONCILE_REQUIRED | KILL_SWITCH | ENTRY_HALT_ACTIVE | INTENT_INVALID | DAILY(code: D.Code) | ORDER_SANITY
    | QUANTIZE
    | DUPLICATE_IN_FLIGHT | LEDGER_WRITE_FAILED | BROKER_REJECTED | BROKER_NEVER_ACCEPTED
    | ORDER_STATE_UNKNOWN | FILL | PARTIAL_FILL | TIMEOUT_NO_FILL_CANCELED

  function About(ev: Event): Option<Coid> {
    match ev
    case IntentDenied(_, about, _) => about
    case Summary => None
    case _ => Some(ev.coid)
  }

  /** The entries that end an attempt. */
  predicate Terminal(ev: Event) {
    match ev
    case Fill(_, _, _, _, _, _, _, _) => true
    case NoFillCanceled(_, _) => true
    case UnknownState(_, _) => true
    case IntentDenied(_, about, terminal) => about.Some? && terminal
    case Resolved(_, _) => true
    case _ => false
  }

  /** What the index knows of one client id. */
  datatype Rec = Rec(stage: Option<Stage>, orderId: Option<string>, sent: Sent, terminal: bool)

  const NOTHING := Rec(None, None, Sent("", false, 0.0), false)

  predicate Pending(index: map<Coid, Rec>, c: Coid) {
    c in index && !index[c].terminal && index[c].stage.Some?
  }

  /** Python's `a or b` on order ids. */
  function Or(a: Option<string>, b: Option<string>): Option<string> {
    if a.Some? && a.value != "" then a else b
  }

  function Noted(rec: Rec, ev: Event): Rec {
    match ev
    case OrderSent(_, stage, id, sent) => rec.(stage := Some(stage), orderId := Or(id, rec.orderId), sent := sent)
    case Fill(_, id, _, _, _, _, _, _) => rec.(terminal := true, orderId := Or(id, rec.orderId))
    case NoFillCanceled(_, id) => rec.(terminal := true, orderId := Or(id, rec.orderId))
    case UnknownState(_, id) => rec.(terminal := true, orderId := Or(id, rec.orderId))
    case IntentDenied(_, _, terminal) => if terminal then rec.(terminal := true) else rec
    case Resolved(_, _) => rec.(terminal := true)
    case LeftOpen(_, _) => rec
    case Summary => rec
  }

  // ------------------------------------------------------------------ acts and the environment

  /** A failed append either left nothing, or raised after its line was written. */
  datatype Fate = Written | Lost | Late

  datatype Act =
    | Append(ev: Event, fate: Fate)
    | Create(coid: Coid, sent: Sent)
    | Lookup(coid: Coid)
    | Fetch(orderId: string)
    | Cancel(orderId: string)
    | ListOpen(symbol: string)
    | Sleep
    | Rebuild

  predicate Logged(a: Act) { a.Append? && !a.fate.Lost? }

  /** What the daily counters do beside that, each with the number of acts so far: their file is replaced by a blank
      day; the DAILY_STATS_RESET entry of that is appended, its failure swallowed; their file is replaced with the fill
      counted in whose entry is the last of those acts, and the fee charged for it. None of it carries a client id, so
      the index never reads it. */
  datatype BookAct =
    | Roll(at: nat, previous: D.Stats)
    | Reset(at: nat, previous: D.Stats, fate: Fate)
    | Book(at: nat, usd: real, fee: Option<real>, charged: real)

  /** How an attempt to replace the counters' file ends: done, refused because another process wrote it, or failed. */
  datatype Replacing = Replaced | Raced | Unwritable

  /** `_rebuild_index`: the fold over every entry in the ledger. A terminal entry is never taken back. */
  function Rebuilt(trace: seq<Act>): map<Coid, Rec> {
    if trace == [] then map[]
    else
      var before := Rebuilt(trace[..|trace| - 1]);
      var last := trace[|trace| - 1];
      if Logged(last) && About(last.ev).Some? then
        var c := About(last.ev).value;
        before[c := Noted(if c in before then before[c] else NOTHING, last.ev)]
      else before
  }

  /** The client ids in the ledger, in the order of their first entries. */
  function Coids(trace: seq<Act>): seq<Coid> {
    if trace == [] then []
    else
      var before := Coids(trace[..|trace| - 1]);
      var last := trace[|trace| - 1];
      if Logged(last) && About(last.ev).Some? && About(last.ev).value !in before
      then before + [About(last.ev).value] else before
  }

  type Lag = x: real | x >= 0.0
  type Positive = x: real | x > 0.0 witness 1.0

  /** The environment. Every answer may depend on everything the executor has done so far, the act being answered
      included. `lag` is the time that passes during an act; a sleep takes at least the poll interval. `today` and
      `today2` are the two readings of the calendar one call on the daily limits can take. `counters`, `resetFate`
      and `diesBooking` decide the acts on the daily counters; `haltFails` says that the halt file cannot be written
      or removed just then. `reduces` is the exit predicate on an order found at the broker; None: it raised. */
  datatype Env = Env(
    fate: (seq<Act>, Event) -> Fate,
    dies: seq<Act> -> bool,
    create: seq<Act> -> CreateReply,
    fetch: seq<Act> -> FetchReply,
    lookup: seq<Act> -> LookupReply,
    list: seq<Act> -> ListReply,
    lag: seq<Act> -> Lag,
    poll: Positive,
    timeout: real,
    today: seq<Act> -> int,
    today2: seq<Act> -> int,
    counters: (seq<Act>, seq<BookAct>) -> Replacing,
    resetFate: (seq<Act>, seq<BookAct>) -> Fate,
    diesBooking: (seq<Act>, seq<BookAct>) -> bool,
    haltFails: seq<Act> -> bool,
    reduces: (string, Order) -> Option<bool>,
    limits: D.Limits,
    me: Ident)

  /** The monotonic clock. */
  function Now(env: Env, trace: seq<Act>): real {
    if trace == [] then 0.0
    else
      var last := |trace| - 1;
      Now(env, trace[..last]) + env.lag(trace[..last]) + (if trace[last].Sleep? then env.poll else 0.0)
  }

  /** Durable: the ledger (inside `trace` and `books`), the halt file and the daily counters; `clears` counts
      successful clears of the halt. In memory: the index and whether startup has run. */
  datatype World = World(trace: seq<Act>, index: map<Coid, Rec>, started: bool, halt: H.HaltFile, stats: D.StatsFile,
                         books: seq<BookAct>, clears: nat)

  /** A step goes on with a value, or stops: the process died, or an exception leaves the call. */
  datatype Step<+T> = Go(w: World, v: T) | Stop(w: World, died: bool) {
    predicate IsFailure() { Stop? }
    function PropagateFailure<U>(): Step<U> requires Stop? { Step<U>.Stop(w, died) }
    function Extract(): (World, T) requires Go? { (w, v) }
  }

  function Led(env: Env, w: World, ev: Event): Step<()> {
    var fate := env.fate(w.trace, ev);
    var w' := w.(trace := w.trace + [Append(ev, fate)]);
    if env.dies(w'.trace) then Stop(w', true) else if fate.Written? then Go(w', ()) else Stop(w', false)
  }

  /** An append whose failure is swallowed. */
  function TryLed(env: Env, w: World, ev: Event): Step<()> {
    var led := Led(env, w, ev);
    if led.Stop? && !led.died then Go(led.w, ()) else led
  }

  function Do(env: Env, w: World, act: Act): Step<()> {
    var w' := w.(trace := w.trace + [act]);
    if env.dies(w'.trace) then Stop(w', true) else Go(w', ())
  }

  datatype Status = FILLED | PARTIAL | NO_FILL_CANCELED | DENIED | UNKNOWN

  datatype Result = Result(status: Status, code: Code, orderId: Option<string>, coid: Option<Coid>, filled: real,
                           avg: Option<real>, fees: Option<real>)

  function Ended(index: map<Coid, Rec>, c: Coid, id: Option<string>): map<Coid, Rec> {
    if c in index then index[c := index[c].(terminal := true, orderId := id)] else index
  }

  function Deny(env: Env, w: World, code: Code, about: Option<Coid>): Step<Result> {
    var (w1, _) :- TryLed(env, w, IntentDenied(code, about, about.Some?));
    Go(if about.Some? && about.value in w1.index
       then w1.(index := Ended(w1.index, about.value, w1.index[about.value].orderId)) else w1,
       Result(DENIED, code, None, about, 0.0, None, None))
  }

  /** A halt whose failure is swallowed. */
  function SetHalt(env: Env, w: World, auto: bool): World {
    if env.haltFails(w.trace) then w else w.(halt := H.Halted(w.halt, env.me, H.SetHalt("", "", auto), ""))
  }

  /** A halt whose failure leaves the call. */
  function MustHalt(env: Env, w: World, auto: bool): Step<()> {
    if env.haltFails(w.trace) then Stop(w, false) else Go(SetHalt(env, w, auto), ())
  }

  function DeclareUnknown(env: Env, w: World, c: Coid, id: Option<string>): Step<Result> {
    var (w1, _) :- TryLed(env, w, UnknownState(c, id));
    var w2 := SetHalt(env, w1, true);
    Go(if c in w2.index then w2.(index := Ended(w2.index, c, Or(id, w2.index[c].orderId))) else w2,
       Result(UNKNOWN, ORDER_STATE_UNKNOWN, id, Some(c), 0.0, None, None))
  }

  // ------------------------------------------------------------------ fills

  /** The fill parts with each id once, the first occurrence kept. */
  function Distinct(ps: seq<Part>): seq<Part> {
    if ps == [] then []
    else
      var before := Distinct(ps[..|ps| - 1]);
      if HasId(before, ps[|ps| - 1].id) then before else before + [ps[|ps| - 1]]
  }

  predicate HasId(ps: seq<Part>, id: string) {
    exists i :: 0 <= i < |ps| && ps[i].id == id
  }

  function Duplicates(ps: seq<Part>): seq<string> {
    if ps == [] then []
    else
      var before := ps[..|ps| - 1];
      Duplicates(before) + if HasId(before, ps[|ps| - 1].id) then [ps[|ps| - 1].id] else []
  }

  function Qty(ps: seq<Part>): real {
    if ps == [] then 0.0 else Qty(ps[..|ps| - 1]) + ps[|ps| - 1].qty
  }

  function Notional(ps: seq<Part>): real {
    if ps == [] then 0.0 else Notional(ps[..|ps| - 1]) + ps[|ps| - 1].qty * ps[|ps| - 1].price
  }

  function Fees(ps: seq<Part>): Option<real> {
    if ps == [] then Some(0.0)
    else
      var before := Fees(ps[..|ps| - 1]);
      var f := ps[|ps| - 1].fee;
      if before.Some? && f.Some? then Some(before.value + f.value) else None
  }

  datatype Effective = Effective(filled: real, avg: Option<real>, fee: Option<real>, duplicates: seq<string>)

  function EffectiveFill(o: Order): Effective {
    if o.fills == [] then Effective(o.filled, o.average, o.fee, [])
    else
      var ps := Distinct(o.fills);
      var qty := Qty(ps);
      Effective(qty, if qty > 0.0 then Some(Notional(ps) / qty) else None,
                if Fees(ps).Some? then Fees(ps) else o.fee, Duplicates(o.fills))
  }

  const SLACK: real := 0.000000000001
  const OVERFILL: real := 0.000001

  predicate Overfilled(filled: real, requested: real) { filled > requested * (1.0 + OVERFILL) + SLACK }

  function Dollars(e: Effective): real { e.filled * if e.avg.Some? then e.avg.value else 0.0 }

  // ------------------------------------------------------------------ the daily counters

  function Booking(env: Env, w: World, act: BookAct): Step<()> {
    var w' := w.(books := w.books + [act]);
    if env.diesBooking(w'.trace, w'.books) then Stop(w', true) else Go(w', ())
  }

  /** The rollover, if the loaded counters ask for one: the file first, then the entry. */
  function RollOver(env: Env, w: World, loaded: D.Loaded): Step<Replacing> {
    if loaded.reset.None? then Go(w, Replaced)
    else
      var done := env.counters(w.trace, w.books);
      if done != Replaced then Go(w, done)
      else
        var (w1, _) :- Booking(env, w.(stats := loaded.file), Roll(|w.trace|, loaded.reset.value));
        var (w2, _) :- Booking(env, w1, Reset(|w.trace|, loaded.reset.value, env.resetFate(w1.trace, w1.books)));
        Go(w2, Replaced)
  }

  /** The counters could not take a fill: a race must be looked at by a human, anything else is only logged. */
  function Uncounted(env: Env, w: World, why: Replacing): Step<()> {
    if why.Raced? then MustHalt(env, w, false) else Go(w, ())
  }

  /** `record_fill`. A negative amount and counters that cannot be read raise, and the executor logs that. */
  function CountFill(env: Env, w: World, usd: real, fee: Option<real>): Step<()> {
    var today, today2 := env.today(w.trace), env.today2(w.trace);
    var next := D.RecordFillDone(env.limits, w.stats, env.me, today, today2, usd, fee);
    if usd < 0.0 then Go(w, ())
    else
      var (w1, rolled) :- RollOver(env, w, D.LoadDone(w.stats, env.me, today));
      if rolled != Replaced then Uncounted(env, w1, rolled)
      else if next.None? then Go(w1, ())
      else
        var done := env.counters(w1.trace, w1.books);
        if done != Replaced then Uncounted(env, w1, done)
        else Booking(env, w1.(stats := next.value), Book(|w1.trace|, usd, fee, D.FeeCharged(env.limits, usd, fee)))
  }

  function RecordFill(env: Env, w: World, c: Coid, o: Order, e: Effective, requested: real): Step<Result> {
    var partial := e.filled + SLACK < requested;
    var (w1, _) :- Led(env, w, Fill(c, Some(o.id), partial, e.filled, requested, e.avg, e.fee, e.duplicates));
    var (w2, _) :- CountFill(env, w1.(index := Ended(w1.index, c, Some(o.id))), Dollars(e), e.fee);
    Go(w2, Result(if partial then PARTIAL else FILLED, if partial then PARTIAL_FILL else FILL, Some(o.id), Some(c),
                  e.filled, e.avg, e.fee))
  }

  /** The terminal transitions; None while the order is still open. */
  function Finalize(env: Env, w: World, c: Coid, o: Order, requested: real): (s: Step<Option<Result>>)
    ensures s.Go? && s.v.None? ==> s.w == w && o.status == Open
  {
    var e := EffectiveFill(o);
    if e.filled < 0.0 || Overfilled(e.filled, requested) then Conclude(DeclareUnknown(env, w, c, Some(o.id)))
    else
      match o.status
      case Closed =>
        if e.filled > 0.0 then Conclude(RecordFill(env, w, c, o, e, requested))
        else Conclude(DeclareUnknown(env, w, c, Some(o.id)))
      case Canceled =>
        if e.filled > 0.0 then Conclude(RecordFill(env, w, c, o, e, requested))
        else
          var (w1, _) :- Led(env, w, NoFillCanceled(c, Some(o.id)));
          Go(if c in w1.index then w1.(index := Ended(w1.index, c, w1.index[c].orderId)) else w1,
             Some(Result(NO_FILL_CANCELED, TIMEOUT_NO_FILL_CANCELED, Some(o.id), Some(c), 0.0, None, None)))
      case Open => Go(w, None)
      case Unknown => Conclude(DeclareUnknown(env, w, c, Some(o.id)))
  }

  function Conclude(s: Step<Result>): (r: Step<Option<Result>>)
    ensures r.Go? ==> r.v.Some?
  {
    match s
    case Go(w, v) => Go(w, Some(v))
    case Stop(w, died) => Stop(w, died)
  }

  // ------------------------------------------------------------------ settle

  function Ceil(x: real): int { -((-x).Floor) }

  /** How many polls fit into `left` seconds. */
  function Rounds(left: real, poll: Positive): nat {
    if left <= 0.0 || Ceil(left / poll) < 0 then 0 else Ceil(left / poll)
  }

  lemma {:induction false} TimesGrows(a: real, b: real, p: Positive)
    ensures a < b <==> a * p < b * p
  {
  }

  lemma {:induction false} OneLess(x: real, p: Positive)
    ensures (x - p) / p == x / p - 1.0
  {
    var q, r := x / p, (x - p) / p;
    assert q * p == x && r * p == x - p;
    TimesGrows(q - 1.0, r, p);
    TimesGrows(r, q - 1.0, p);
  }

  lemma {:induction false} DivGrows(x: real, y: real, p: Positive)
    requires x <= y
    ensures x / p <= y / p
  {
    var q, r := x / p, y / p;
    assert q * p == x && r * p == y;
    TimesGrows(r, q, p);
  }

  lemma {:induction false} RoundsFall(left: real, less: real, poll: Positive)
    requires left > 0.0 && less <= left - poll
    ensures Rounds(less, poll) < Rounds(left, poll)
  {
    OneLess(left, poll);
    DivGrows(less, left - poll, poll);
    DivGrows(0.0, left, poll);
    assert left / poll > 0.0 by { assert (left / poll) * poll == left; }
  }

  lemma {:induction false} NowAdvances(env: Env, trace: seq<Act>, act: Act)
    ensures Now(env, trace + [act]) >= Now(env, trace) + if act.Sleep? then env.poll else 0.0
  {
    assert (trace + [act])[..|trace|] == trace;
  }

  function TimeLeft(env: Env, w: World, t0: real): nat { Rounds(env.timeout - (Now(env, w.trace) - t0), env.poll) }

  /** One sleep and one fetch. */
  function Poll(env: Env, w: World, id: string): (s: Step<FetchReply>)
    ensures forall t0: real :: s.Go? && Now(env, w.trace) - t0 < env.timeout ==>
              TimeLeft(env, s.w, t0) < TimeLeft(env, w, t0)
  {
    var (w1, _) :- Do(env, w, Sleep);
    var (w2, _) :- Do(env, w1, Fetch(id));
    PollTakesTime(env, w, w1, w2, id);
    Go(w2, env.fetch(w2.trace))
  }

  lemma {:induction false} PollTakesTime(env: Env, w: World, w1: World, w2: World, id: string)
    requires w1.trace == w.trace + [Sleep] && w2.trace == w1.trace + [Fetch(id)]
    ensures forall t0: real :: Now(env, w.trace) - t0 < env.timeout ==> TimeLeft(env, w2, t0) < TimeLeft(env, w, t0)
  {
    NowAdvances(env, w.trace, Sleep);
    NowAdvances(env, w1.trace, Fetch(id));
    forall t0: real | Now(env, w.trace) - t0 < env.timeout
      ensures TimeLeft(env, w2, t0) < TimeLeft(env, w, t0)
    {
      RoundsFall(env.timeout - (Now(env, w.trace) - t0), env.timeout - (Now(env, w2.trace) - t0), env.poll);
    }
  }

  /** Poll until the order is terminal, something raises, or the timeout strikes. */
  function Settle(env: Env, w: World, c: Coid, id: string, last: Order, requested: real, t0: real): Step<Result>
    decreases TimeLeft(env, w, t0)
  {
    var fin := Finalize(env, w, c, last, requested);
    if fin.Stop? then Stop(fin.w, fin.died)
    else if fin.v.Some? then Go(fin.w, fin.v.value)
    else if last.status != Open then DeclareUnknown(env, w, c, Some(last.id))
    else if Now(env, w.trace) - t0 >= env.timeout then CancelAndReread(env, w, c, id, requested)
    else
      var polled := Poll(env, w, id);
      if polled.Stop? then Stop(polled.w, polled.died)
      else
        match polled.v
        case FetchRaised => DeclareUnknown(env, polled.w, c, Some(id))
        case Got(o) => Settle(env, polled.w, c, id, o, requested, t0)
  }

  function CancelAndReread(env: Env, w: World, c: Coid, id: string, requested: real): Step<Result> {
    var (w1, _) :- Do(env, w, Cancel(id));
    match env.fetch(w1.trace)
    case FetchRaised => DeclareUnknown(env, w1, c, Some(id))
    case Got(after) =>
      var (w2, _) :- Do(env, w1, Fetch(id));
      match env.fetch(w2.trace)
      case FetchRaised => DeclareUnknown(env, w2, c, Some(id))
      case Got(reread) =>
        if reread.status == Open then DeclareUnknown(env, w2, c, Some(id))
        else
          var (w3, fin) :- Finalize(env, w2, c, reread, requested);
          if fin.Some? then Go(w3, fin.value) else DeclareUnknown(env, w3, c, Some(id))
  }

  // ------------------------------------------------------------------ execute

  datatype Units = Units(base: real, usd: real)
  datatype Quantize = NoStep | Refused | Stepped(base: real)

  /** One call of execute: the digest of the intent, its symbol, and what its gates answer. */
  datatype Request = Request(digest: string, symbol: string, killAllows: bool, isExit: bool, units: Option<Units>,
                             saneAllows: bool, quantize: Quantize) {
    /** Deterministic: the same intent always maps to the same client id. */
    function ClientId(): Coid { Client(digest) }

    /** What is sent: the quantized amount if there is a step, the resolved one otherwise. */
    function Base(): real { if quantize.Stepped? then quantize.base else if units.Some? then units.value.base else 0.0 }
  }

  function Execute(env: Env, w: World, r: Request): Step<Result> {
    if !w.started then Deny(env, w, STARTUP_RECONCILE_REQUIRED, None)
    else if !r.killAllows then Deny(env, w, KILL_SWITCH, None)
    else if !r.isExit && H.ActiveIn(w.halt).Some? then Deny(env, w, ENTRY_HALT_ACTIVE, None)
    else if r.units.None? then Deny(env, w, INTENT_INVALID, None)
    else
      var (w1, verdict) :- CheckLimits(env, w, r);
      if verdict.Denied? then Deny(env, w1, DAILY(verdict.code), None)
      else if !r.saneAllows then Deny(env, w1, ORDER_SANITY, None)
      else if r.quantize.Refused? then Deny(env, w1, QUANTIZE, None)
      else if Pending(w1.index, r.ClientId()) then Deny(env, w1, DUPLICATE_IN_FLIGHT, None)
      else Send(env, w1, r.ClientId(), Sent(r.symbol, r.isExit, r.Base()))
  }

  /** The daily limits, for an intent that is not an exit: the day is rolled over if need be, and an exception from
      that leaves execute. */
  function CheckLimits(env: Env, w: World, r: Request): Step<D.Verdict>
    requires r.units.Some?
  {
    if r.isExit then Go(w, D.Allowed)
    else
      var today, today2 := env.today(w.trace), env.today2(w.trace);
      var (w1, rolled) :- RollOver(env, w, D.LoadDone(w.stats, env.me, today));
      if rolled != Replaced then Stop(w1, false)
      else Go(w1, D.CheckVerdict(env.limits, w.stats, env.me, today, today2, r.units.value.usd))
  }

  /** The write-ahead entry, then the only non-atomic step. */
  function Send(env: Env, w: World, c: Coid, sent: Sent): Step<Result> {
    var led := Led(env, w, OrderSent(c, WriteAhead, None, sent));
    if led.Stop? && led.died then Stop(led.w, true)
    else if led.Stop? then
      Go(SetHalt(env, led.w, false), Result(DENIED, LEDGER_WRITE_FAILED, None, Some(c), 0.0, None, None))
    else
      var w1 := led.w.(index := led.w.index[c := Rec(Some(WriteAhead), None, sent, false)]);
      var (w2, _) :- Do(env, w1, Create(c, sent));
      match env.create(w2.trace)
      case Placed(o) => if o.id == "" then MaybePlaced(env, w2, c, sent, true) else Acknowledge(env, w2, c, sent, o)
      case Rejected => Deny(env, w2, BROKER_REJECTED, Some(c))
      case MaybeSent => MaybePlaced(env, w2, c, sent, true)
      case CreateRaised => MaybePlaced(env, w2, c, sent, false)
  }

  /** No acknowledgement: presumed alive, looked up by client id. Only OrderMaybeSent makes "no such order" final. */
  function MaybePlaced(env: Env, w: World, c: Coid, sent: Sent, promised: bool): Step<Result> {
    var (w1, _) :- Led(env, w, OrderSent(c, SentNoAck, None, sent));
    var w2 := w1.(index := Staged(w1.index, c, SentNoAck, None));
    var (w3, _) :- Do(env, w2, Lookup(c));
    match env.lookup(w3.trace)
    case LookupRaised => DeclareUnknown(env, w3, c, None)
    case NotFound =>
      if promised then Deny(env, w3, BROKER_NEVER_ACCEPTED, Some(c)) else DeclareUnknown(env, w3, c, None)
    case Found(o) => Acknowledge(env, w3, c, sent, o)
  }

  function Staged(index: map<Coid, Rec>, c: Coid, stage: Stage, id: Option<string>): map<Coid, Rec> {
    if c !in index then index
    else index[c := index[c].(stage := Some(stage), orderId := if id.Some? then id else index[c].orderId)]
  }

  function Acknowledge(env: Env, w: World, c: Coid, sent: Sent, o: Order): Step<Result> {
    var (w1, _) :- Led(env, w, OrderSent(c, Acked, Some(o.id), sent));
    var w2 := w1.(index := Staged(w1.index, c, Acked, Some(o.id)));
    Settle(env, w2, c, o.id, o, sent.requested, Now(env, w2.trace))
  }

  // ------------------------------------------------------------------ startup

  datatype Report = Report(pendingSeen: nat, resolved: seq<Coid>, unknown: seq<Coid>, canceled: seq<Coid>,
                           leftOpen: seq<Coid>,
                           errors: nat, haltSet: bool, haltCleared: bool)

  const NO_REPORT := Report(0, [], [], [], [], 0, false, false)

  function UnknownNoted(env: Env, w: World, rep: Report, c: Coid, id: Option<string>): Step<Report> {
    var (w1, _) :- DeclareUnknown(env, w, c, id);
    Go(w1, rep.(unknown := rep.unknown + [c]))
  }

  /** One pending client id against the broker. */
  function Reconcile(env: Env, w: World, rep0: Report, c: Coid, rec: Rec): Step<Report> {
    var rep := rep0.(pendingSeen := rep0.pendingSeen + 1);
    var (w1, _) :- Do(env, w, Lookup(c));
    match env.lookup(w1.trace)
    case Found(o) => ReconcileFound(env, w1, rep, c, rec, o)
    case NotFound =>
      var (w2, _) :- Led(env, w1, Resolved(c, rec.stage));
      Go(if c in w2.index then w2.(index := Ended(w2.index, c, w2.index[c].orderId)) else w2,
         rep.(resolved := rep.resolved + [c]))
    case LookupRaised =>
      if Or(rec.orderId, None).None? then UnknownNoted(env, w1, rep.(errors := rep.errors + 1), c, rec.orderId)
      else
        var (w2, _) :- Do(env, w1, Fetch(rec.orderId.value));
        match env.fetch(w2.trace)
        case Got(o) => ReconcileFound(env, w2, rep, c, rec, o)
        case FetchRaised => UnknownNoted(env, w2, rep.(errors := rep.errors + 1), c, rec.orderId)
  }

  /** An entry found open: cancel, re-read. */
  function CanceledFound(env: Env, w: World, rep: Report, c: Coid, id: string, requested: real): Step<Report> {
    var (w1, _) :- Do(env, w, Cancel(id));
    if env.fetch(w1.trace).FetchRaised? then UnknownNoted(env, w1, rep, c, Some(id))
    else
      var (w2, _) :- Do(env, w1, Fetch(id));
      match env.fetch(w2.trace)
      case FetchRaised => UnknownNoted(env, w2, rep, c, Some(id))
      case Got(reread) =>
        if reread.status == Open then UnknownNoted(env, w2, rep, c, Some(id))
        else
          var (w3, fin) :- Finalize(env, w2, c, reread, requested);
          Go(w3, rep.(canceled := rep.canceled + [c], resolved := rep.resolved + [c]))
  }

  function ReconcileFound(env: Env, w: World, rep: Report, c: Coid, rec: Rec, o: Order): Step<Report> {
    var requested := if rec.sent.requested != 0.0 then rec.sent.requested else o.filled;
    var w0 := if c in w.index then w.(index := w.index[c := w.index[c].(orderId := Some(o.id))]) else w;
    if o.status == Open then
      if rec.sent.isExit then
        var (w1, _) :- Led(env, w0, LeftOpen(c, Some(o.id)));
        Go(w1, rep.(leftOpen := rep.leftOpen + [c]))
      else CanceledFound(env, w0, rep, c, o.id, requested)
    else
      var (w1, fin) :- Finalize(env, w0, c, o, requested);
      Go(w1, rep.(resolved := rep.resolved + [c],
                  unknown := if fin.Some? && fin.value.status == UNKNOWN then rep.unknown + [c] else rep.unknown))
  }

  function ReconcileAll(env: Env, w: World, rep: Report, pending: seq<(Coid, Rec)>): Step<Report> {
    if pending == [] then Go(w, rep)
    else
      var (w1, rep1) :- ReconcileAll(env, w, rep, pending[..|pending| - 1]);
      Reconcile(env, w1, rep1, pending[|pending| - 1].0, pending[|pending| - 1].1)
  }

  predicate Known(index: map<Coid, Rec>, ids: set<string>, o: Order) {
    o.id in ids || (o.clientId.Some? && o.clientId.value in index)
  }

  /** One open order at the broker: skipped if the ledger knows it, otherwise unknown, and canceled if it adds
      exposure; an exit predicate that raises leaves the startup. */
  function Strange(env: Env, w: World, rep: Report, ids: set<string>, symbol: string, o: Order): Step<Report> {
    if Known(w.index, ids, o) then Go(w, rep)
    else if env.reduces(symbol, o).None? then Stop(w, false)
    else if env.reduces(symbol, o).value then UnknownNoted(env, w, rep, Foreign(o.id), Some(o.id))
    else
      var (w1, _) :- Do(env, w, Cancel(o.id));
      UnknownNoted(env, w1, if env.fetch(w1.trace).Got? then rep.(canceled := rep.canceled + [Foreign(o.id)]) else rep,
                   Foreign(o.id), Some(o.id))
  }

  function StrangeAll(env: Env, w: World, rep: Report, ids: set<string>, symbol: string,
                      orders: seq<Order>): Step<Report> {
    if orders == [] then Go(w, rep)
    else
      var (w1, rep1) :- StrangeAll(env, w, rep, ids, symbol, orders[..|orders| - 1]);
      Strange(env, w1, rep1, ids, symbol, orders[|orders| - 1])
  }

  /** The open orders of one symbol. */
  function Listing(env: Env, w: World, rep: Report, ids: set<string>, symbol: string): Step<Report> {
    var (w1, _) :- Do(env, w, ListOpen(symbol));
    match env.list(w1.trace)
    case ListRaised => Go(w1, rep.(errors := rep.errors + 1))
    case Listed(orders) => StrangeAll(env, w1, rep, ids, symbol, orders)
  }

  function Symbols(env: Env, w: World, rep: Report, ids: set<string>, symbols: seq<string>): Step<Report> {
    if symbols == [] then Go(w, rep)
    else
      var (w1, rep1) :- Symbols(env, w, rep, ids, symbols[..|symbols| - 1]);
      Listing(env, w1, rep1, ids, symbols[|symbols| - 1])
  }

  function KnownIds(index: map<Coid, Rec>): set<string> {
    set c | c in index && Or(index[c].orderId, None).Some? :: index[c].orderId.value
  }

  predicate FoundSomething(rep: Report) {
    rep.resolved != [] || rep.unknown != [] || rep.canceled != [] || rep.leftOpen != [] || rep.errors > 0
  }

  /** Something found sets an automatic halt, unless an unknown has set one already; nothing found clears an automatic
      one. */
  function Policy(env: Env, w: World, rep: Report): Step<Report> {
    var (w1, _) :- Led(env, w, Summary);
    if FoundSomething(rep) then
      var (w2, _) :- if rep.unknown == [] then MustHalt(env, w1, true) else Go(w1, ());
      Go(w2.(started := true), rep.(haltSet := true))
    else if H.Clears(w1.halt, H.ClearHalt("", true)) then
      if env.haltFails(w1.trace) then Stop(w1, false)
      else Go(w1.(halt := Absent, clears := w1.clears + 1, started := true), rep.(haltCleared := true))
    else Go(w1.(started := true), rep)
  }

  /** The pending client ids of the rebuilt index, with their records, in ledger order. */
  function PendingList(trace: seq<Act>, cs: seq<Coid>): seq<(Coid, Rec)> {
    if cs == [] then []
    else
      var c := cs[|cs| - 1];
      PendingList(trace, cs[..|cs| - 1]) + if Pending(Rebuilt(trace), c) then [(c, Rebuilt(trace)[c])] else []
  }

  function Startup(env: Env, w: World, symbols: seq<string>): Step<Report> {
    var w0 := w.(trace := w.trace + [Rebuild], index := Rebuilt(w.trace));
    var (w1, rep1) :- ReconcileAll(env, w0, NO_REPORT, PendingList(w.trace, Coids(w.trace)));
    var (w2, rep2) :- Symbols(env, w1, rep1, KnownIds(w1.index), symbols);
    Policy(env, w2, rep2)
  }

  // ------------------------------------------------------------------ runs

  datatype Op = Exec(request: Request) | Start(symbols: seq<string>) | Crash | ClearByHand

  /** A crash keeps the files and forgets the rest. */
  function Crashed(w: World): World { w.(index := map[], started := false) }

  function HandClear(w: World): World {
    if H.Clears(w.halt, H.ClearHalt("", false)) then w.(halt := Absent, clears := w.clears + 1) else w
  }

  function Perform(env: Env, w: World, op: Op): World {
    match op
    case Exec(r) => var s := Execute(env, w, r); if s.Stop? && s.died then Crashed(s.w) else s.w
    case Start(symbols) => var s := Startup(env, w, symbols); if s.Stop? && s.died then Crashed(s.w) else s.w
    case Crash => Crashed(w)
    case ClearByHand => HandClear(w)
  }

  function Run(env: Env, w: World, ops: seq<Op>): World {
    if ops == [] then w else Perform(env, Run(env, w, ops[..|ops| - 1]), ops[|ops| - 1])
  }
}
