/** Write-ahead and the index: what every step of every run, over any number of process lives, keeps between
    the acts of the executor, its in-memory index and the index a successor would rebuild. */
module ExecutorIndex {
  import opened Options
  import opened Executor
  import H = EntryHalts
  import D = DailyLimits

  /** No append fails. */
  ghost predicate AllWritten(env: Env) { forall t, ev :: env.fate(t, ev).Written? }

  /** What the acts so far say about one client id: `open`, a create with no terminal entry since; `ever`, a
      terminal entry at any time; `stage`, the last stage logged; `reused`, an order logged after a terminal
      entry; `excused`, an index was rebuilt while an open create had an older terminal entry; `late`, since the
      last rebuild a terminal entry was written whose append raised out of the call. */
  datatype Track = Track(open: bool, ever: bool, stage: Option<Stage>, reused: bool, excused: bool, late: bool)

  predicate EndsIt(a: Act, c: Coid) { Logged(a) && About(a.ev) == Some(c) && Terminal(a.ev) }

  /** A terminal entry whose append raised after the line was written, and whose failure is not swallowed: memory
      has not heard of it. */
  predicate EndsLate(a: Act, c: Coid) {
    a.Append? && a.fate.Late? && About(a.ev) == Some(c) && (a.ev.Fill? || a.ev.NoFillCanceled? || a.ev.Resolved?)
  }

  function Next(t: Track, a: Act, c: Coid): Track {
    if EndsIt(a, c) then t.(open := false, ever := true, late := t.late || EndsLate(a, c))
    else if Logged(a) && About(a.ev) == Some(c) && a.ev.OrderSent? then
      t.(stage := Some(a.ev.stage), reused := t.reused || t.ever)
    else if a.Create? && a.coid == c then t.(open := true, excused := false)
    else if a.Rebuild? then t.(excused := t.excused || (t.open && t.ever), late := false)
    else t
  }

  function Tracked(trace: seq<Act>, c: Coid): Track {
    if trace == [] then Track(false, false, None, false, false, false)
    else Next(Tracked(trace[..|trace| - 1], c), trace[|trace| - 1], c)
  }

  lemma {:induction false} TrackedOne(trace: seq<Act>, a: Act, c: Coid)
    ensures Tracked(trace + [a], c) == Next(Tracked(trace, c), a, c)
  {
    assert (trace + [a])[..|trace|] == trace;
  }

  /** A successor finds the id pending exactly if something was sent and nothing ever ended it. An attempt whose
      id carries an older terminal entry is forgotten. */
  lemma {:induction false} RebuiltTracks(trace: seq<Act>, c: Coid)
    ensures var t := Tracked(trace, c);
            && (Pending(Rebuilt(trace), c) <==> t.stage.Some? && !t.ever)
            && (c in Rebuilt(trace) ==> Rebuilt(trace)[c].stage == t.stage && Rebuilt(trace)[c].terminal == t.ever)
            && (c !in Rebuilt(trace) ==> t.stage.None? && !t.ever)
    decreases |trace|
  {
    if trace != [] {
      RebuiltTracks(trace[..|trace| - 1], c);
    }
  }

  // ------------------------------------------------------------------ the invariant

  /** Directly before each create stands its own write-ahead entry, written. */
  ghost predicate Ahead(trace: seq<Act>, c: Coid) {
    forall j :: 0 <= j < |trace| && trace[j].Create? && trace[j].coid == c ==>
      j > 0 && trace[j - 1] == Append(OrderSent(c, WriteAhead, None, trace[j].sent), Written)
  }

  /** No create while an earlier one of the same id is open, unless a rebuild forgot it. */
  ghost predicate Guarded(trace: seq<Act>, c: Coid) {
    forall j :: 0 <= j < |trace| && trace[j].Create? && trace[j].coid == c ==>
      Tracked(trace[..j], c).open ==> Tracked(trace[..j], c).excused
  }

  /** An id made up for an order found at the broker only ever ends as unknown, under that order's id. */
  predicate Proper(ev: Event) {
    About(ev).Some? && About(ev).value.Foreign? ==> ev == UnknownState(About(ev).value, Some(About(ev).value.orderId))
  }

  ghost predicate Stranger(trace: seq<Act>, c: Coid) {
    forall j :: 0 <= j < |trace| && trace[j].Append? && About(trace[j].ev) == Some(c) ==> Proper(trace[j].ev)
  }

  /** An id from an intent, or a made-up one with its own order. */
  predicate Titled(c: Coid, id: Option<string>) { c.Foreign? ==> id == Some(c.orderId) }

  ghost predicate Trail(env: Env, trace: seq<Act>, c: Coid) {
    && Ahead(trace, c)
    && Stranger(trace, c)
    && (AllWritten(env) ==> Guarded(trace, c))
    && (Tracked(trace, c).open ==> Tracked(trace, c).stage.Some?)
    && (c.Foreign? || AllWritten(env) ==> !Tracked(trace, c).late)
  }

  /** The index in memory against the acts: an open attempt is pending in it; what is pending in it a successor
      would find pending, but for a late end, and after a late end it is pending; and, if no append failed, the other
      way round with the same stage. */
  ghost predicate Memory(env: Env, index: map<Coid, Rec>, t: Track, c: Coid) {
    && (AllWritten(env) && t.open && !t.excused ==> Pending(index, c))
    && (!t.reused && Pending(index, c) ==> t.stage.Some? && (t.ever ==> t.late))
    && (!t.reused && t.late ==> t.ever && Pending(index, c))
    && (AllWritten(env) && !t.reused && t.stage.Some? && !t.ever ==> Pending(index, c) && index[c].stage == t.stage)
  }

  ghost predicate Safe(env: Env, w: World, c: Coid) {
    Trail(env, w.trace, c) && Memory(env, w.index, Tracked(w.trace, c), c)
  }

  /** The state a step leaves, unless the process died in it. */
  ghost predicate SafeAfter<T>(env: Env, s: Step<T>, c: Coid) {
    if s.Stop? && s.died then Trail(env, s.w.trace, c) else Safe(env, s.w, c)
  }

  /** No late end that memory would have to answer for. */
  predicate Due(t: Track) { t.late ==> t.reused }

  /** The id is being worked on: pending in memory, without a late end. */
  ghost predicate Working(w: World, c: Coid) { Pending(w.index, c) && Due(Tracked(w.trace, c)) }

  /** What happened between the two concerned other ids. */
  ghost predicate Spared(w: World, w': World, c: Coid) {
    Tracked(w'.trace, c) == Tracked(w.trace, c) && (Pending(w'.index, c) <==> Pending(w.index, c))
  }

  lemma {:induction false} TrailOne(env: Env, trace: seq<Act>, a: Act, c: Coid)
    requires Trail(env, trace, c)
    requires a.Create? && a.coid == c ==>
               && trace != [] && trace[|trace| - 1] == Append(OrderSent(c, WriteAhead, None, a.sent), Written)
               && (AllWritten(env) && Tracked(trace, c).open ==> Tracked(trace, c).excused)
               && Tracked(trace, c).stage.Some?
    requires a.Append? && About(a.ev) == Some(c) ==> Proper(a.ev)
    requires a.Append? && AllWritten(env) ==> a.fate.Written?
    ensures Trail(env, trace + [a], c)
    ensures Tracked(trace + [a], c) == Next(Tracked(trace, c), a, c)
  {
    TrackedOne(trace, a, c);
    var t := trace + [a];
    forall j | 0 <= j < |t| && t[j].Create? && t[j].coid == c && AllWritten(env)
      ensures Tracked(t[..j], c).open ==> Tracked(t[..j], c).excused
    {
      if j < |trace| {
        assert t[..j] == trace[..j];
      } else {
        assert t[..j] == trace;
      }
    }
  }

  /** A broker call, a sleep: anything that is neither a create nor an append. */
  lemma {:induction false} DoSafe(env: Env, w: World, act: Act, c: Coid)
    requires Safe(env, w, c) && !act.Create? && !act.Append? && !act.Rebuild?
    ensures SafeAfter(env, Do(env, w, act), c) && Spared(w, Do(env, w, act).w, c)
  {
    hide Trail, Memory;
    TrailOne(env, w.trace, act, c);
  }

  /** An append about something else. */
  lemma {:induction false} AsideSafe(env: Env, w: World, ev: Event, c: Coid)
    requires Safe(env, w, c) && (About(ev) == Some(c) ==> Proper(ev))
    requires About(ev) != Some(c) || ev.LeftOpen? || (ev.IntentDenied? && !ev.terminal)
    ensures SafeAfter(env, Led(env, w, ev), c) && Spared(w, Led(env, w, ev).w, c)
  {
    hide Trail, Memory;
    TrailOne(env, w.trace, Append(ev, env.fate(w.trace, ev)), c);
  }

  /** The end of an attempt: whatever became of the entry, an index that no longer has it pending is safe. */
  lemma {:induction false} EndSafe(env: Env, w: World, ev: Event, c: Coid, index: map<Coid, Rec>)
    requires Safe(env, w, c) && Terminal(ev) && About(ev) == Some(c) && Proper(ev) && Due(Tracked(w.trace, c))
    ensures Pending(w.index, c) && !ev.UnknownState? && !ev.IntentDenied? && Led(env, w, ev).Stop? ==>
              SafeAfter(env, Led(env, w, ev), c)
    ensures var led := Led(env, w, ev);
            (led.Go? || (!led.died && (ev.UnknownState? || ev.IntentDenied?))) && !Pending(index, c) ==>
              Safe(env, led.w.(index := index), c)
    ensures Led(env, w, ev).Stop? && Led(env, w, ev).died ==> Trail(env, Led(env, w, ev).w.trace, c)
  {
    hide Trail;
    TrailOne(env, w.trace, Append(ev, env.fate(w.trace, ev)), c);
  }

  /** A later stage of an attempt that is pending. */
  lemma {:induction false} StageSafe(env: Env, w: World, stage: Stage, id: Option<string>, sent: Sent, c: Coid)
    requires Safe(env, w, c) && Working(w, c) && c.Client?
    ensures var led := Led(env, w, OrderSent(c, stage, id, sent));
            && (led.Stop? ==> SafeAfter(env, led, c)) && led.w.index == w.index
            && (led.Go? ==>
                  var w2 := led.w.(index := Staged(led.w.index, c, stage, id));
                  Safe(env, w2, c) && Working(w2, c))
  {
    hide Trail;
    var ev := OrderSent(c, stage, id, sent);
    TrailOne(env, w.trace, Append(ev, env.fate(w.trace, ev)), c);
  }

  // ------------------------------------------------------------------ every function keeps it

  lemma {:induction false} DenySafe(env: Env, w: World, code: Code, about: Option<Coid>, c: Coid)
    requires Safe(env, w, c) && (about == Some(c) ==> c.Client? && Due(Tracked(w.trace, c)))
    ensures SafeAfter(env, Deny(env, w, code, about), c)
    ensures about != Some(c) ==> Spared(w, Deny(env, w, code, about).w, c)
  {
    hide Trail, Memory, Safe;
    var ev := IntentDenied(code, about, about.Some?);
    var led := Led(env, w, ev);
    if about == Some(c) {
      EndSafe(env, w, ev, c, if c in w.index then Ended(w.index, c, w.index[c].orderId) else w.index);
    } else {
      AsideSafe(env, w, ev, c);
      if about.Some? && about.value in w.index && !(led.Stop? && led.died) {
        OtherIndex(env, led.w, Ended(led.w.index, about.value, led.w.index[about.value].orderId), c);
      }
    }
  }

  /** Only the stage and the end of the id's own record, and the acts, matter. */
  lemma {:induction false} OtherIndex(env: Env, w: World, index: map<Coid, Rec>, c: Coid)
    requires Safe(env, w, c)
    requires (c in index <==> c in w.index)
    requires c in index ==> index[c].stage == w.index[c].stage && index[c].terminal == w.index[c].terminal
    ensures Safe(env, w.(index := index), c) && Spared(w, w.(index := index), c)
  {
  }

  lemma {:induction false} SameIndex(env: Env, w: World, w': World, c: Coid)
    ensures Safe(env, w, c) && w'.trace == w.trace && w'.index == w.index ==> Safe(env, w', c)
  {
  }

  lemma {:induction false} UnknownSafe(env: Env, w: World, about: Coid, id: Option<string>, c: Coid)
    requires Safe(env, w, c) && (about == c ==> Titled(c, id) && Due(Tracked(w.trace, c)))
    ensures SafeAfter(env, DeclareUnknown(env, w, about, id), c)
    ensures about != c ==> Spared(w, DeclareUnknown(env, w, about, id).w, c)
  {
    hide Trail, Memory, Safe, Spared, SetHalt;
    var ev := UnknownState(about, id);
    var led := Led(env, w, ev);
    var index := if about in w.index then Ended(w.index, about, Or(id, w.index[about].orderId)) else w.index;
    if about == c {
      EndSafe(env, w, ev, c, index);
    } else {
      AsideSafe(env, w, ev, c);
      if !(led.Stop? && led.died) {
        OtherIndex(env, led.w, index, c);
        SparedTwice(w, led.w, led.w.(index := index), c);
      }
    }
    if !(led.Stop? && led.died) {
      HaltOnly(env, led.w, true);
      var s := DeclareUnknown(env, w, about, id);
      assert s.w.trace == led.w.trace && s.w.index == index;
      SameIndex(env, led.w.(index := index), s.w, c);
      if about != c {
        SparedTwice(w, led.w.(index := index), s.w, c);
      }
    }
  }

  lemma {:induction false} HaltOnly(env: Env, w: World, auto: bool)
    ensures SetHalt(env, w, auto) == w.(halt := SetHalt(env, w, auto).halt)
  {
    hide H.Halted;
  }

  lemma {:induction false} SparedTwice(a: World, b: World, d: World, c: Coid)
    ensures Spared(a, b, c) && (Spared(b, d, c) || (d.trace == b.trace && d.index == b.index)) ==> Spared(a, d, c)
  {
  }

  /** The daily counters touch neither the acts nor the index. */
  lemma {:induction false} CountAside(env: Env, w: World, usd: real, fee: Option<real>)
    ensures var s := CountFill(env, w, usd, fee);
            s.w.trace == w.trace && s.w.index == w.index && s.w.started == w.started
  {
    hide D.RecordFillDone, D.LoadDone, H.Halted, RollOver;
    RollAside(env, w, D.LoadDone(w.stats, env.me, env.today(w.trace)));
  }

  lemma {:induction false} RollAside(env: Env, w: World, loaded: D.Loaded)
    ensures var s := RollOver(env, w, loaded); s.w == w.(stats := s.w.stats, books := s.w.books)
  {
  }

  lemma {:induction false} FillSafe(env: Env, w: World, about: Coid, o: Order, e: Effective, requested: real, c: Coid)
    requires Safe(env, w, c) && (about == c ==> c.Client? && Working(w, c))
    ensures SafeAfter(env, RecordFill(env, w, about, o, e, requested), c)
    ensures about != c ==> Spared(w, RecordFill(env, w, about, o, e, requested).w, c)
  {
    hide Trail, Memory, Safe, CountFill, Dollars;
    var ev := Fill(about, Some(o.id), e.filled + SLACK < requested, e.filled, requested, e.avg, e.fee, e.duplicates);
    var led := Led(env, w, ev);
    var index := Ended(w.index, about, Some(o.id));
    if about == c {
      EndSafe(env, w, ev, c, index);
    } else {
      AsideSafe(env, w, ev, c);
      if led.Go? {
        OtherIndex(env, led.w, index, c);
      }
    }
    if led.Go? {
      var w2 := led.w.(index := index);
      CountAside(env, w2, Dollars(e), e.fee);
      SameIndex(env, w2, RecordFill(env, w, about, o, e, requested).w, c);
    }
  }

  lemma {:induction false} NoFillSafe(env: Env, w: World, about: Coid, id: string, c: Coid)
    requires Safe(env, w, c) && (about == c ==> c.Client? && Working(w, c))
    ensures var led := Led(env, w, NoFillCanceled(about, Some(id)));
            if led.Stop? then SafeAfter(env, led, c) && (about != c ==> Spared(w, led.w, c))
            else
              var w' := if about !in led.w.index then led.w
                        else led.w.(index := Ended(led.w.index, about, led.w.index[about].orderId));
              Safe(env, w', c) && (about != c ==> Spared(w, w', c))
  {
    hide Trail, Memory, Safe;
    var ev := NoFillCanceled(about, Some(id));
    var index := if about in w.index then Ended(w.index, about, w.index[about].orderId) else w.index;
    if about == c {
      EndSafe(env, w, ev, c, index);
    } else {
      AsideSafe(env, w, ev, c);
      if Led(env, w, ev).Go? {
        OtherIndex(env, Led(env, w, ev).w, index, c);
      }
    }
  }

  lemma {:induction false} WorkingIsDue(w: World, c: Coid)
    ensures Working(w, c) ==> Due(Tracked(w.trace, c))
  {
  }

  lemma {:induction false} SomeSame(s: Step<Result>)
    ensures Conclude(s).w == s.w && (Conclude(s).Stop? <==> s.Stop?) && (s.Stop? ==> Conclude(s).died == s.died)
  {
  }

  lemma {:induction false} SparedSelf(w: World, c: Coid)
    ensures Spared(w, w, c)
  {
  }

  lemma {:induction false} FinalizeSafe(env: Env, w: World, about: Coid, o: Order, requested: real, c: Coid)
    requires Safe(env, w, c) && (about == c ==> c.Client? && Working(w, c))
    ensures SafeAfter(env, Finalize(env, w, about, o, requested), c)
    ensures about != c ==> Spared(w, Finalize(env, w, about, o, requested).w, c)
  {
    hide Trail, Memory, Safe, DeclareUnknown, RecordFill, EffectiveFill, Overfilled, Led, Ended, Conclude, Spared,
         Working, Due;
    var e := EffectiveFill(o);
    WorkingIsDue(w, c);
    UnknownSafe(env, w, about, Some(o.id), c);
    SomeSame(DeclareUnknown(env, w, about, Some(o.id)));
    FillSafe(env, w, about, o, e, requested, c);
    SomeSame(RecordFill(env, w, about, o, e, requested));
    NoFillSafe(env, w, about, o.id, c);
    SparedSelf(w, c);
  }

  lemma {:induction false} CancelSafe(env: Env, w: World, about: Coid, id: string, requested: real, c: Coid)
    requires Safe(env, w, c) && (about == c ==> c.Client? && Working(w, c))
    ensures SafeAfter(env, CancelAndReread(env, w, about, id, requested), c)
  {
    hide Trail, Memory, Safe, DeclareUnknown, Finalize, Do;
    DoSafe(env, w, Cancel(id), c);
    var did := Do(env, w, Cancel(id));
    if did.Go? {
      UnknownSafe(env, did.w, about, Some(id), c);
      DoSafe(env, did.w, Fetch(id), c);
      var again := Do(env, did.w, Fetch(id));
      if again.Go? {
        UnknownSafe(env, again.w, about, Some(id), c);
        if env.fetch(again.w.trace).Got? {
          var fin := Finalize(env, again.w, about, env.fetch(again.w.trace).order, requested);
          FinalizeSafe(env, again.w, about, env.fetch(again.w.trace).order, requested, c);
          if fin.Go? && fin.v.None? {
            UnknownSafe(env, fin.w, about, Some(id), c);
          }
        }
      }
    }
  }

  lemma {:induction false} PollSafe(env: Env, w: World, id: string, c: Coid)
    requires Safe(env, w, c)
    ensures SafeAfter(env, Poll(env, w, id), c) && Spared(w, Poll(env, w, id).w, c)
  {
    hide Trail, Memory, Safe, Do, TimeLeft;
    DoSafe(env, w, Sleep, c);
    if Do(env, w, Sleep).Go? {
      DoSafe(env, Do(env, w, Sleep).w, Fetch(id), c);
    }
  }

  lemma {:induction false} SettleSafe(env: Env, w: World, about: Coid, id: string, last: Order, requested: real,
                                      t0: real, c: Coid)
    requires Safe(env, w, c) && (about == c ==> c.Client? && Working(w, c))
    ensures SafeAfter(env, Settle(env, w, about, id, last, requested, t0), c)
    decreases TimeLeft(env, w, t0)
  {
    hide Trail, Memory, Safe, DeclareUnknown, Finalize, Poll, CancelAndReread, TimeLeft;
    FinalizeSafe(env, w, about, last, requested, c);
    UnknownSafe(env, w, about, Some(last.id), c);
    CancelSafe(env, w, about, id, requested, c);
    PollSafe(env, w, id, c);
    var polled := Poll(env, w, id);
    if polled.Go? && Now(env, w.trace) - t0 < env.timeout {
      UnknownSafe(env, polled.w, about, Some(id), c);
      if polled.v.Got? {
        SettleSafe(env, polled.w, about, id, polled.v.order, requested, t0, c);
      }
    }
  }

  lemma {:induction false} PlacedSafe(env: Env, w: World, about: Coid, sent: Sent, o: Order, c: Coid)
    requires Safe(env, w, c) && (about == c ==> Working(w, c) && c.Client?)
    ensures SafeAfter(env, Acknowledge(env, w, about, sent, o), c)
  {
    hide Trail, Memory, Safe, Settle, Led;
    StagedSafe(env, w, Acked, Some(o.id), about, sent, c);
    var led := Led(env, w, OrderSent(about, Acked, Some(o.id), sent));
    if led.Go? {
      var w2 := led.w.(index := Staged(led.w.index, about, Acked, Some(o.id)));
      SettleSafe(env, w2, about, o.id, o, sent.requested, Now(env, w2.trace), c);
    }
  }

  lemma {:induction false} StagedSafe(env: Env, w: World, stage: Stage, id: Option<string>, about: Coid, sent: Sent,
                                      c: Coid)
    requires Safe(env, w, c) && (about == c ==> Working(w, c) && c.Client?)
    ensures var led := Led(env, w, OrderSent(about, stage, id, sent));
            && (led.Stop? ==> SafeAfter(env, led, c))
            && (led.Go? ==> var w2 := led.w.(index := Staged(led.w.index, about, stage, id));
                            Safe(env, w2, c) && (about == c ==> Working(w2, c)))
  {
    hide Trail, Memory, Safe;
    if about == c {
      StageSafe(env, w, stage, id, sent, c);
    } else {
      AsideSafe(env, w, OrderSent(about, stage, id, sent), c);
      var led := Led(env, w, OrderSent(about, stage, id, sent));
      if led.Go? {
        OtherIndex(env, led.w, Staged(led.w.index, about, stage, id), c);
      }
    }
  }

  lemma {:induction false} MaybeSafe(env: Env, w: World, about: Coid, sent: Sent, promised: bool, c: Coid)
    requires Safe(env, w, c) && (about == c ==> Working(w, c) && c.Client?)
    ensures SafeAfter(env, MaybePlaced(env, w, about, sent, promised), c)
  {
    hide Trail, Memory, Safe, Led, Do, Acknowledge, DeclareUnknown, Deny;
    StagedSafe(env, w, SentNoAck, None, about, sent, c);
    var led := Led(env, w, OrderSent(about, SentNoAck, None, sent));
    if led.Go? {
      var w2 := led.w.(index := Staged(led.w.index, about, SentNoAck, None));
      DoSafe(env, w2, Lookup(about), c);
      var did := Do(env, w2, Lookup(about));
      if did.Go? {
        UnknownSafe(env, did.w, about, None, c);
        DenySafe(env, did.w, BROKER_NEVER_ACCEPTED, Some(about), c);
        if env.lookup(did.w.trace).Found? {
          PlacedSafe(env, did.w, about, sent, env.lookup(did.w.trace).order, c);
        }
      }
    }
  }

  /** The write-ahead and the create: the one place where an attempt begins. */
  lemma {:induction false} BeginSafe(env: Env, w: World, about: Coid, sent: Sent, c: Coid)
    requires Safe(env, w, c) && !Pending(w.index, about) && (about == c ==> c.Client?)
    ensures var led := Led(env, w, OrderSent(about, WriteAhead, None, sent));
            && (led.Stop? ==> SafeAfter(env, led, c))
            && (led.Go? ==>
                  var w1 := led.w.(index := led.w.index[about := Rec(Some(WriteAhead), None, sent, false)]);
                  && SafeAfter(env, Do(env, w1, Create(about, sent)), c)
                  && (about == c ==> Working(Do(env, w1, Create(about, sent)).w, c)))
  {
    hide Trail, Memory, Safe;
    if about == c {
      var led := Led(env, w, OrderSent(about, WriteAhead, None, sent));
      BeginOwn(env, w, sent, c);
    } else {
      AsideSafe(env, w, OrderSent(about, WriteAhead, None, sent), c);
      var led := Led(env, w, OrderSent(about, WriteAhead, None, sent));
      if led.Go? {
        var w1 := led.w.(index := led.w.index[about := Rec(Some(WriteAhead), None, sent, false)]);
        OtherIndex(env, led.w, w1.index, c);
        CreateAside(env, w1, about, sent, c);
      }
    }
  }

  lemma {:induction false} CreateAside(env: Env, w: World, about: Coid, sent: Sent, c: Coid)
    requires Safe(env, w, c) && about != c
    ensures SafeAfter(env, Do(env, w, Create(about, sent)), c)
  {
    hide Trail, Memory;
    TrailOne(env, w.trace, Create(about, sent), c);
  }

  lemma {:induction false} BeginOwn(env: Env, w: World, sent: Sent, c: Coid)
    requires Safe(env, w, c) && !Pending(w.index, c) && c.Client?
    ensures var led := Led(env, w, OrderSent(c, WriteAhead, None, sent));
            && (led.Stop? ==> SafeAfter(env, led, c))
            && (led.Go? ==>
                  var w1 := led.w.(index := led.w.index[c := Rec(Some(WriteAhead), None, sent, false)]);
                  SafeAfter(env, Do(env, w1, Create(c, sent)), c) && Working(Do(env, w1, Create(c, sent)).w, c))
  {
    hide Trail;
    var ev := OrderSent(c, WriteAhead, None, sent);
    var led := Led(env, w, ev);
    var t := Tracked(w.trace, c);
    TrailOne(env, w.trace, Append(ev, env.fate(w.trace, ev)), c);
    if led.Go? {
      var t1 := t.(stage := Some(WriteAhead), reused := t.reused || t.ever);
      assert Tracked(led.w.trace, c) == t1;
      CreateOwn(env, led.w, sent, t1, c);
    }
  }

  lemma {:induction false} CreateOwn(env: Env, w: World, sent: Sent, t: Track, c: Coid)
    requires Trail(env, w.trace, c) && Tracked(w.trace, c) == t
    requires w.trace != [] && w.trace[|w.trace| - 1] == Append(OrderSent(c, WriteAhead, None, sent), Written)
    requires t.stage == Some(WriteAhead) && (t.ever ==> t.reused)
    requires AllWritten(env) && t.open ==> t.excused
    requires Due(t)
    ensures var s := Do(env, w.(index := w.index[c := Rec(Some(WriteAhead), None, sent, false)]), Create(c, sent));
            SafeAfter(env, s, c) && Working(s.w, c)
  {
    hide Trail;
    TrailOne(env, w.trace, Create(c, sent), c);
  }

  lemma {:induction false} SendSafe(env: Env, w: World, about: Coid, sent: Sent, c: Coid)
    requires Safe(env, w, c) && !Pending(w.index, about) && (about == c ==> c.Client?)
    ensures SafeAfter(env, Send(env, w, about, sent), c)
  {
    hide Trail, Memory, Safe, Led, Do, Acknowledge, MaybePlaced, Deny, H.Halted;
    BeginSafe(env, w, about, sent, c);
    var led := Led(env, w, OrderSent(about, WriteAhead, None, sent));
    if led.Stop? && !led.died {
      SameIndex(env, led.w, SetHalt(env, led.w, false), c);
    }
    if led.Go? {
      var w1 := led.w.(index := led.w.index[about := Rec(Some(WriteAhead), None, sent, false)]);
      var did := Do(env, w1, Create(about, sent));
      if did.Go? {
        DenySafe(env, did.w, BROKER_REJECTED, Some(about), c);
        MaybeSafe(env, did.w, about, sent, true, c);
        MaybeSafe(env, did.w, about, sent, false, c);
        if env.create(did.w.trace).Placed? {
          PlacedSafe(env, did.w, about, sent, env.create(did.w.trace).order, c);
        }
      }
    }
  }

  /** execute keeps it, whatever the gates, the broker and the ledger do. */
  lemma {:induction false} ExecuteSafe(env: Env, w: World, r: Request, c: Coid)
    requires Safe(env, w, c)
    ensures SafeAfter(env, Execute(env, w, r), c)
  {
    hide Trail, Memory, Safe, Send, Deny, CheckLimits, H.ActiveIn;
    forall code
      ensures SafeAfter(env, Deny(env, w, code, None), c)
    {
      DenySafe(env, w, code, None, c);
    }
    if r.units.Some? {
      LimitsAside(env, w, r);
      var checked := CheckLimits(env, w, r);
      SameIndex(env, w, checked.w, c);
      forall code
        ensures SafeAfter(env, Deny(env, checked.w, code, None), c)
      {
        DenySafe(env, checked.w, code, None, c);
      }
      if !Pending(checked.w.index, r.ClientId()) {
        SendSafe(env, checked.w, r.ClientId(), Sent(r.symbol, r.isExit, r.Base()), c);
      }
    }
  }

  /** Nor does the check of the daily limits. */
  lemma {:induction false} LimitsAside(env: Env, w: World, r: Request)
    requires r.units.Some?
    ensures var s := CheckLimits(env, w, r);
            s.w == w.(stats := s.w.stats, books := s.w.books)
  {
    hide D.CheckVerdict, D.LoadDone;
  }

  lemma {:induction false} RebuildSafe(env: Env, w: World, c: Coid)
    requires Trail(env, w.trace, c)
    ensures var w0 := w.(trace := w.trace + [Rebuild], index := Rebuilt(w.trace));
            Safe(env, w0, c) && Due(Tracked(w0.trace, c))
  {
    hide Trail;
    TrailOne(env, w.trace, Rebuild, c);
    RebuiltTracks(w.trace, c);
  }

  lemma {:induction false} NotedUnknownSafe(env: Env, w: World, rep: Report, about: Coid, id: Option<string>, c: Coid)
    requires Safe(env, w, c) && (about == c ==> Titled(c, id) && Due(Tracked(w.trace, c)))
    ensures SafeAfter(env, UnknownNoted(env, w, rep, about, id), c)
    ensures about != c ==> Spared(w, UnknownNoted(env, w, rep, about, id).w, c)
  {
    hide Trail, Memory, Safe, DeclareUnknown;
    UnknownSafe(env, w, about, id, c);
  }

  lemma {:induction false} CanceledFoundSafe(env: Env, w: World, rep: Report, about: Coid, id: string, requested: real,
                                             c: Coid)
    requires Safe(env, w, c) && (about == c ==> c.Client? && Working(w, c))
    ensures SafeAfter(env, CanceledFound(env, w, rep, about, id, requested), c)
    ensures about != c ==> Spared(w, CanceledFound(env, w, rep, about, id, requested).w, c)
  {
    hide Trail, Memory, Safe, UnknownNoted, Finalize, Do;
    DoSafe(env, w, Cancel(id), c);
    var did := Do(env, w, Cancel(id));
    if did.Go? {
      NotedUnknownSafe(env, did.w, rep, about, Some(id), c);
      DoSafe(env, did.w, Fetch(id), c);
      var again := Do(env, did.w, Fetch(id));
      if again.Go? {
        NotedUnknownSafe(env, again.w, rep, about, Some(id), c);
        if env.fetch(again.w.trace).Got? {
          FinalizeSafe(env, again.w, about, env.fetch(again.w.trace).order, requested, c);
        }
      }
    }
  }

  lemma {:induction false} ReconcileFoundSafe(env: Env, w: World, rep: Report, about: Coid, rec: Rec, o: Order, c: Coid)
    requires Safe(env, w, c) && (about == c ==> c.Client? && Working(w, c))
    ensures SafeAfter(env, ReconcileFound(env, w, rep, about, rec, o), c)
    ensures about != c ==> Spared(w, ReconcileFound(env, w, rep, about, rec, o).w, c)
  {
    hide Trail, Memory, Safe, CanceledFound, Finalize, Led;
    var requested := if rec.sent.requested != 0.0 then rec.sent.requested else o.filled;
    var w0 := if about in w.index then w.(index := w.index[about := w.index[about].(orderId := Some(o.id))]) else w;
    OtherIndex(env, w, w0.index, c);
    FinalizeSafe(env, w0, about, o, requested, c);
    AsideSafe(env, w0, LeftOpen(about, Some(o.id)), c);
    CanceledFoundSafe(env, w0, rep, about, o.id, requested, c);
  }

  lemma {:induction false} ReconcileSafe(env: Env, w: World, rep0: Report, about: Coid, rec: Rec, c: Coid)
    requires Safe(env, w, c) && (about == c ==> c.Client? && Working(w, c))
    ensures SafeAfter(env, Reconcile(env, w, rep0, about, rec), c)
    ensures about != c ==> Spared(w, Reconcile(env, w, rep0, about, rec).w, c)
  {
    hide Trail, Memory, Safe, UnknownNoted, ReconcileFound, Do, Led;
    var rep := rep0.(pendingSeen := rep0.pendingSeen + 1);
    DoSafe(env, w, Lookup(about), c);
    var did := Do(env, w, Lookup(about));
    if did.Go? {
      match env.lookup(did.w.trace)
      case Found(o) => ReconcileFoundSafe(env, did.w, rep, about, rec, o, c);
      case NotFound => ResolvedSafe(env, did.w, about, rec.stage, c);
      case LookupRaised =>
        NotedUnknownSafe(env, did.w, rep.(errors := rep.errors + 1), about, rec.orderId, c);
        if Or(rec.orderId, None).Some? {
          DoSafe(env, did.w, Fetch(rec.orderId.value), c);
          var again := Do(env, did.w, Fetch(rec.orderId.value));
          if again.Go? {
            NotedUnknownSafe(env, again.w, rep.(errors := rep.errors + 1), about, rec.orderId, c);
            if env.fetch(again.w.trace).Got? {
              ReconcileFoundSafe(env, again.w, rep, about, rec, env.fetch(again.w.trace).order, c);
            }
          }
        }
    }
  }

  lemma {:induction false} ResolvedSafe(env: Env, w: World, about: Coid, stage: Option<Stage>, c: Coid)
    requires Safe(env, w, c) && (about == c ==> c.Client? && Working(w, c))
    ensures var led := Led(env, w, Resolved(about, stage));
            if led.Stop? then SafeAfter(env, led, c) && (about != c ==> Spared(w, led.w, c))
            else
              var w' := if about !in led.w.index then led.w
                        else led.w.(index := Ended(led.w.index, about, led.w.index[about].orderId));
              Safe(env, w', c) && (about != c ==> Spared(w, w', c))
  {
    hide Trail, Memory, Safe;
    var ev := Resolved(about, stage);
    var index := if about in w.index then Ended(w.index, about, w.index[about].orderId) else w.index;
    if about == c {
      EndSafe(env, w, ev, c, index);
    } else {
      AsideSafe(env, w, ev, c);
      if Led(env, w, ev).Go? {
        OtherIndex(env, Led(env, w, ev).w, index, c);
      }
    }
  }

  /** Each id is on the list once. */
  ghost predicate Once(pending: seq<(Coid, Rec)>) {
    forall i, j :: 0 <= i < j < |pending| ==> pending[i].0 != pending[j].0
  }

  predicate OnList(pending: seq<(Coid, Rec)>, c: Coid) {
    exists i :: 0 <= i < |pending| && pending[i].0 == c
  }

  lemma {:induction false} ReconcileAllSafe(env: Env, w: World, rep: Report, pending: seq<(Coid, Rec)>, c: Coid)
    requires Safe(env, w, c) && Once(pending) && (OnList(pending, c) ==> c.Client? && Working(w, c))
    ensures SafeAfter(env, ReconcileAll(env, w, rep, pending), c)
    ensures !OnList(pending, c) ==> Spared(w, ReconcileAll(env, w, rep, pending).w, c)
    decreases |pending|
  {
    hide Trail, Memory, Safe, Reconcile;
    if pending != [] {
      var init, last := pending[..|pending| - 1], pending[|pending| - 1];
      assert forall i :: 0 <= i < |init| ==> init[i] == pending[i];
      assert last.0 == c ==> !OnList(init, c) && OnList(pending, c);
      ReconcileAllSafe(env, w, rep, init, c);
      var before := ReconcileAll(env, w, rep, init);
      if before.Go? {
        ReconcileSafe(env, before.w, before.v, last.0, last.1, c);
      }
    }
  }

  lemma {:induction false} ForeignDue(env: Env, w: World, c: Coid)
    ensures Safe(env, w, c) ==> c.Foreign? ==> Due(Tracked(w.trace, c))
  {
  }

  lemma {:induction false} StrangeSafe(env: Env, w: World, rep: Report, ids: set<string>, symbol: string, o: Order,
                                       c: Coid)
    requires Safe(env, w, c)
    ensures SafeAfter(env, Strange(env, w, rep, ids, symbol, o), c)
  {
    hide Trail, Memory, Safe, UnknownNoted, Do, Known;
    ForeignDue(env, w, c);
    NotedUnknownSafe(env, w, rep, Foreign(o.id), Some(o.id), c);
    DoSafe(env, w, Cancel(o.id), c);
    var did := Do(env, w, Cancel(o.id));
    if did.Go? {
      var rep1 := if env.fetch(did.w.trace).Got? then rep.(canceled := rep.canceled + [Foreign(o.id)]) else rep;
      ForeignDue(env, did.w, c);
      NotedUnknownSafe(env, did.w, rep1, Foreign(o.id), Some(o.id), c);
    }
  }

  lemma {:induction false} StrangeAllSafe(env: Env, w: World, rep: Report, ids: set<string>, symbol: string,
                                          orders: seq<Order>, c: Coid)
    requires Safe(env, w, c)
    ensures SafeAfter(env, StrangeAll(env, w, rep, ids, symbol, orders), c)
    decreases |orders|
  {
    hide Trail, Memory, Safe, Strange;
    if orders != [] {
      var init := orders[..|orders| - 1];
      StrangeAllSafe(env, w, rep, ids, symbol, init, c);
      var before := StrangeAll(env, w, rep, ids, symbol, init);
      if before.Go? {
        StrangeSafe(env, before.w, before.v, ids, symbol, orders[|orders| - 1], c);
      }
    }
  }

  lemma {:induction false} SymbolsSafe(env: Env, w: World, rep: Report, ids: set<string>, symbols: seq<string>, c: Coid)
    requires Safe(env, w, c)
    ensures SafeAfter(env, Symbols(env, w, rep, ids, symbols), c)
    decreases |symbols|
  {
    hide Trail, Memory, Safe, StrangeAll, Do;
    if symbols != [] {
      var init, last := symbols[..|symbols| - 1], symbols[|symbols| - 1];
      SymbolsSafe(env, w, rep, ids, init, c);
      var before := Symbols(env, w, rep, ids, init);
      if before.Go? {
        DoSafe(env, before.w, ListOpen(last), c);
        var did := Do(env, before.w, ListOpen(last));
        if did.Go? && env.list(did.w.trace).Listed? {
          StrangeAllSafe(env, did.w, before.v, ids, last, env.list(did.w.trace).orders, c);
        }
      }
    }
  }

  /** An id made up for a stranger is never pending. */
  lemma {:induction false} PendingClient(env: Env, trace: seq<Act>, cs: seq<Coid>, c: Coid)
    requires Trail(env, trace, c)
    ensures Pending(Rebuilt(trace), c) ==> c.Client?
    ensures OnList(PendingList(trace, cs), c) ==> c in cs && Pending(Rebuilt(trace), c)
    decreases |cs|
  {
    RebuiltTracks(trace, c);
    if c.Foreign? {
      StrangerUnsent(trace, c);
    }
    hide Rebuilt, Trail;
    if cs != [] {
      PendingClient(env, trace, cs[..|cs| - 1], c);
      var init := PendingList(trace, cs[..|cs| - 1]);
      assert forall i :: 0 <= i < |init| ==> PendingList(trace, cs)[i] == init[i];
    }
  }

  predicate AllDifferent(cs: seq<Coid>) { forall i, j :: 0 <= i < j < |cs| ==> cs[i] != cs[j] }

  lemma {:induction false} CoidsOnce(trace: seq<Act>)
    ensures AllDifferent(Coids(trace))
    decreases |trace|
  {
    if trace != [] {
      CoidsOnce(trace[..|trace| - 1]);
    }
  }

  lemma {:induction false} PendingOnce(trace: seq<Act>, cs: seq<Coid>)
    requires AllDifferent(cs)
    ensures Once(PendingList(trace, cs))
    ensures forall i :: 0 <= i < |PendingList(trace, cs)| ==> PendingList(trace, cs)[i].0 in cs
    decreases |cs|
  {
    hide Rebuilt;
    if cs != [] {
      var n := |cs| - 1;
      PendingOnce(trace, cs[..n]);
      assert forall i :: 0 <= i < n ==> cs[..n][i] == cs[i] && cs[i] != cs[n];
      assert cs[n] !in cs[..n];
    }
  }

  lemma {:induction false} StrangerUnsent(trace: seq<Act>, c: Coid)
    requires Stranger(trace, c) && c.Foreign?
    ensures Tracked(trace, c).stage.None?
    decreases |trace|
  {
    if trace != [] {
      var init := trace[..|trace| - 1];
      assert forall i :: 0 <= i < |init| ==> init[i] == trace[i];
      StrangerUnsent(init, c);
    }
  }

  lemma {:induction false} StartupSafe(env: Env, w: World, symbols: seq<string>, c: Coid)
    requires Trail(env, w.trace, c)
    ensures SafeAfter(env, Startup(env, w, symbols), c)
  {
    hide Trail, Memory, Safe, ReconcileAll, Symbols, Led, FoundSomething, H.Halted, H.Clears, PendingList, Coids,
         Rebuilt, KnownIds;
    var w0 := w.(trace := w.trace + [Rebuild], index := Rebuilt(w.trace));
    RebuildSafe(env, w, c);
    var pending := PendingList(w.trace, Coids(w.trace));
    PendingClient(env, w.trace, Coids(w.trace), c);
    CoidsOnce(w.trace);
    PendingOnce(w.trace, Coids(w.trace));
    ReconcileAllSafe(env, w0, NO_REPORT, pending, c);
    var all := ReconcileAll(env, w0, NO_REPORT, pending);
    if all.Go? {
      SymbolsSafe(env, all.w, all.v, KnownIds(all.w.index), symbols, c);
      var listed := Symbols(env, all.w, all.v, KnownIds(all.w.index), symbols);
      if listed.Go? {
        AsideSafe(env, listed.w, Summary, c);
        var led := Led(env, listed.w, Summary);
        if led.Go? {
          SameIndex(env, led.w, Policy(env, listed.w, listed.v).w, c);
        }
      }
    }
  }

  // ------------------------------------------------------------------ whole runs

  /** Between operations: nothing in memory before the first startup of a life. */
  ghost predicate Steady(env: Env, w: World, c: Coid) {
    Trail(env, w.trace, c) && (Safe(env, w, c) || (!w.started && w.index == map[]))
  }

  lemma {:induction false} PerformSteady(env: Env, w: World, op: Op, c: Coid)
    requires Steady(env, w, c)
    ensures Steady(env, Perform(env, w, op), c)
  {
    hide Trail, Memory, Execute, Startup, H.Clears;
    match op
    case Exec(r) =>
      if Safe(env, w, c) {
        ExecuteSafe(env, w, r, c);
      } else {
        NotStarted(env, w, r, c);
      }
    case Start(symbols) =>
      StartupSafe(env, w, symbols, c);
    case Crash =>
    case ClearByHand =>
  }

  /** Before startup every intent is refused without a broker call. */
  lemma {:induction false} NotStarted(env: Env, w: World, r: Request, c: Coid)
    requires Trail(env, w.trace, c) && !w.started && w.index == map[]
    ensures var s := Execute(env, w, r);
            Trail(env, s.w.trace, c) && !s.w.started && s.w.index == map[]
  {
    hide Trail;
    var ev := IntentDenied(STARTUP_RECONCILE_REQUIRED, None, false);
    TrailOne(env, w.trace, Append(ev, env.fate(w.trace, ev)), c);
  }

  /** A machine on which nothing has happened yet. */
  predicate Virgin(w: World) { w.trace == [] && w.index == map[] && !w.started }

  lemma {:induction false} RunSteady(env: Env, w: World, ops: seq<Op>, c: Coid)
    requires Virgin(w)
    ensures Steady(env, Run(env, w, ops), c)
    decreases |ops|
  {
    if ops != [] {
      hide Steady, Perform, Virgin;
      RunSteady(env, w, ops[..|ops| - 1], c);
      PerformSteady(env, Run(env, w, ops[..|ops| - 1]), ops[|ops| - 1], c);
    }
  }

  /** Made-up ids stay what they are over every run. */
  lemma {:induction false} StrangersProper(env: Env, w: World, ops: seq<Op>)
    requires Virgin(w)
    ensures var t := Run(env, w, ops).trace;
            forall j :: 0 <= j < |t| && t[j].Append? ==> Proper(t[j].ev)
  {
    hide Virgin, Run;
    var t := Run(env, w, ops).trace;
    forall j | 0 <= j < |t| && t[j].Append?
      ensures Proper(t[j].ev)
    {
      if About(t[j].ev).Some? {
        RunSteady(env, w, ops, About(t[j].ev).value);
        assert Stranger(t, About(t[j].ev).value);
      }
    }
  }

  /** Every create_order, in every run over any number of crashed lives and with any ledger failures, stands
      directly behind its own write-ahead entry, written to the ledger. */
  lemma {:induction false} WriteAheadFirst(env: Env, w: World, ops: seq<Op>, j: nat)
    requires Virgin(w) && j < |Run(env, w, ops).trace| && Run(env, w, ops).trace[j].Create?
    ensures var t := Run(env, w, ops).trace;
            j > 0 && t[j - 1] == Append(OrderSent(t[j].coid, WriteAhead, None, t[j].sent), Written)
  {
    RunSteady(env, w, ops, Run(env, w, ops).trace[j].coid);
  }

  lemma {:induction false} OpenSince(trace: seq<Act>, i: nat, j: nat, c: Coid)
    requires i < j <= |trace| && trace[i].Create? && trace[i].coid == c
    requires forall k :: i < k < j ==> !EndsIt(trace[k], c)
    ensures Tracked(trace[..j], c).open
    ensures Tracked(trace[..j], c).ever <==> Tracked(trace[..i], c).ever
    ensures Tracked(trace[..j], c).excused ==>
              Tracked(trace[..i], c).ever && exists r :: i < r < j && trace[r].Rebuild?
    decreases j - i
  {
    assert trace[..j][..j - 1] == trace[..j - 1];
    if j > i + 1 {
      OpenSince(trace, i, j - 1, c);
      assert trace[j - 1].Rebuild? ==> i < j - 1;
    } else {
      assert trace[..j - 1] == trace[..i];
    }
  }

  lemma {:induction false} EverEnded(trace: seq<Act>, c: Coid)
    requires Tracked(trace, c).ever
    ensures exists k :: 0 <= k < |trace| && EndsIt(trace[k], c)
    decreases |trace|
  {
    if !EndsIt(trace[|trace| - 1], c) {
      EverEnded(trace[..|trace| - 1], c);
      var k :| 0 <= k < |trace| - 1 && EndsIt(trace[..|trace| - 1][k], c);
      assert EndsIt(trace[k], c);
    } else {
      assert EndsIt(trace[|trace| - 1], c);
    }
  }

  /** No double exposure: while no append fails, two creates with one client id have a terminal entry of it between
      them - in one life always, and across any crashes and restarts unless the id already had a terminal entry
      before the first of the two. */
  lemma {:induction false} CreatesSeparated(env: Env, w: World, ops: seq<Op>, i: nat, j: nat)
    requires Virgin(w) && AllWritten(env)
    requires var t := Run(env, w, ops).trace;
             i < j < |t| && t[i].Create? && t[j].Create? && t[i].coid == t[j].coid
    ensures var t := Run(env, w, ops).trace;
            || (exists k :: i < k < j && EndsIt(t[k], t[i].coid))
            || ((exists r :: i < r < j && t[r].Rebuild?) && (exists k :: 0 <= k < i && EndsIt(t[k], t[i].coid)))
  {
    var t := Run(env, w, ops).trace;
    var c := t[i].coid;
    RunSteady(env, w, ops, c);
    assert Guarded(t, c);
    if forall k :: i < k < j ==> !EndsIt(t[k], c) {
      OpenSince(t, i, j, c);
      assert Tracked(t[..j], c).excused;
      EverEnded(t[..i], c);
      var k :| 0 <= k < i && EndsIt(t[..i][k], c);
      assert EndsIt(t[k], c);
    }
  }

  /** The exception is real, and exactly this: after a startup an open attempt is still pending if and only if its
      client id had no terminal entry before. */
  lemma {:induction false} RebuildForgets(env: Env, w: World, ops: seq<Op>, i: nat, c: Coid)
    requires Virgin(w) && i < |Run(env, w, ops).trace|
    requires var t := Run(env, w, ops).trace;
             t[i].Create? && t[i].coid == c && forall k :: i < k < |t| ==> !EndsIt(t[k], c)
    ensures var t := Run(env, w, ops).trace;
            Pending(Rebuilt(t), c) <==> forall k :: 0 <= k < i ==> !EndsIt(t[k], c)
  {
    var t := Run(env, w, ops).trace;
    RunSteady(env, w, ops, c);
    OpenSince(t, i, |t|, c);
    assert t[..|t|] == t;
    RebuiltTracks(t, c);
    if Tracked(t[..i], c).ever {
      EverEnded(t[..i], c);
      var k :| 0 <= k < i && EndsIt(t[..i][k], c);
      assert EndsIt(t[k], c);
    } else {
      NeverEnded(t[..i], c);
      assert forall k :: 0 <= k < i ==> t[..i][k] == t[k];
    }
  }

  lemma {:induction false} NeverEnded(trace: seq<Act>, c: Coid)
    requires !Tracked(trace, c).ever
    ensures forall k :: 0 <= k < |trace| ==> !EndsIt(trace[k], c)
    decreases |trace|
  {
    if trace != [] {
      NeverEnded(trace[..|trace| - 1], c);
      assert forall k :: 0 <= k < |trace| - 1 ==> trace[..|trace| - 1][k] == trace[k];
    }
  }

  /** No order is logged again after its terminal entry. */
  ghost predicate NotReused(trace: seq<Act>, c: Coid) {
    forall j, k :: 0 <= j < k < |trace| && EndsIt(trace[j], c) && Logged(trace[k]) && About(trace[k].ev) == Some(c) ==>
          !trace[k].ev.OrderSent?
  }

  lemma {:induction false} NotReusedTracks(trace: seq<Act>, c: Coid)
    requires NotReused(trace, c)
    ensures !Tracked(trace, c).reused
    decreases |trace|
  {
    if trace != [] {
      var init := trace[..|trace| - 1];
      assert forall k :: 0 <= k < |init| ==> init[k] == trace[k];
      NotReusedTracks(init, c);
      if Tracked(init, c).ever {
        EverEnded(init, c);
        var j :| 0 <= j < |init| && EndsIt(init[j], c);
        assert EndsIt(trace[j], c);
      }
    }
  }

  /** A terminal entry of the id raised out of the call after it was written, and no index was rebuilt since. */
  ghost predicate LateEnd(trace: seq<Act>, c: Coid) {
    exists k :: 0 <= k < |trace| && EndsLate(trace[k], c) && forall r :: k < r < |trace| ==> !trace[r].Rebuild?
  }

  lemma {:induction false} LateTracks(trace: seq<Act>, c: Coid)
    ensures Tracked(trace, c).late <==> LateEnd(trace, c)
    decreases |trace|
  {
    if trace != [] {
      var init, last := trace[..|trace| - 1], trace[|trace| - 1];
      LateTracks(init, c);
      if LateEnd(init, c) && !last.Rebuild? {
        var k :| 0 <= k < |init| && EndsLate(init[k], c) && forall r :: k < r < |init| ==> !init[r].Rebuild?;
        assert EndsLate(trace[k], c);
        assert forall r :: k < r < |init| ==> trace[r] == init[r];
      }
      if EndsLate(last, c) {
        assert EndsLate(trace[|trace| - 1], c);
      }
      if LateEnd(trace, c) && !EndsLate(last, c) {
        var k :| 0 <= k < |trace| && EndsLate(trace[k], c) && forall r :: k < r < |trace| ==> !trace[r].Rebuild?;
        assert EndsLate(init[k], c);
        assert forall r :: k < r < |init| ==> init[r] == trace[r];
      }
    }
  }

  /** Refinement, for an id that is never reused, after any operation - returned or raised - under any ledger failures
      and crashes: what is pending in memory is pending for a successor that rebuilds the index from the ledger, except
      exactly when a fill, a cancel or a resolution of it was written by an append that raised out of the call in this
      life. If no append fails the two agree, stage included. So a crash can make the successor reconcile more, never
      forget an order that has not ended. */
  lemma {:induction false} SuccessorKnows(env: Env, w: World, ops: seq<Op>, c: Coid)
    requires Virgin(w) && NotReused(Run(env, w, ops).trace, c)
    ensures var z := Run(env, w, ops);
            && (c in z.index ==> (Pending(z.index, c) && !Pending(Rebuilt(z.trace), c) <==> LateEnd(z.trace, c)))
            && (AllWritten(env) && z.started ==> (Pending(z.index, c) <==> Pending(Rebuilt(z.trace), c)))
            && (AllWritten(env) && Pending(z.index, c) ==>
                  Pending(Rebuilt(z.trace), c) && z.index[c].stage == Rebuilt(z.trace)[c].stage)
  {
    var z := Run(env, w, ops);
    RunSteady(env, w, ops, c);
    NotReusedTracks(z.trace, c);
    RebuiltTracks(z.trace, c);
    LateTracks(z.trace, c);
  }
}
