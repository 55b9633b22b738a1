/** Startup reconciliation: what it resolves, when it halts, when it clears, and that doing it again at once
    finds nothing. Ledger and halt writes succeed, the process lives and the exit predicate answers; a startup in which
    they do not is covered by the invariants of ExecutorIndex and ExecutorGates. */
module ExecutorStartup {
  import opened Options
  import opened Executor
  import opened ExecutorIndex
  import opened ExecutorAttempt
  import opened ExecutorGates
  import H = EntryHalts

  /** Every write to the ledger and to the halt file succeeds, the process lives, the exit predicate does not raise. */
  ghost predicate Fit(env: Env) {
    Smooth(env) && (forall t :: !env.haltFails(t)) && (forall symbol, o :: env.reduces(symbol, o).Some?)
  }

  // ------------------------------------------------------------------ what the acts of a startup can be

  /** Nothing is sent. */
  predicate Sends(a: Act) { a.Create? || (a.Append? && a.ev.OrderSent?) }

  ghost predicate Quiet(t: seq<Act>, t': seq<Act>) {
    t <= t' && forall i :: |t| <= i < |t'| ==> !Sends(t'[i])
  }

  /** So an id keeps its stage, and once ended stays ended. */
  lemma {:induction false} QuietTracks(t: seq<Act>, t': seq<Act>, c: Coid)
    requires Quiet(t, t')
    ensures Tracked(t', c).stage == Tracked(t, c).stage
    ensures Tracked(t, c).ever ==> Tracked(t', c).ever
    decreases |t'|
  {
    if |t| == |t'| {
      assert t == t';
    } else {
      QuietTracks(t, t'[..|t'| - 1], c);
    }
  }

  /** Memory and ledger name the same order for the id, if one is watched. */
  ghost predicate SameId(w: World, x: Option<Coid>) {
    x.Some? && x.value in w.index ==>
      && x.value in Rebuilt(w.trace)
      && Or(w.index[x.value].orderId, None) == Or(Rebuilt(w.trace)[x.value].orderId, None)
  }

  lemma {:induction false} RebuiltOne(trace: seq<Act>, a: Act)
    ensures Rebuilt(trace + [a]) ==
            if Logged(a) && About(a.ev).Some? then
              var c := About(a.ev).value;
              Rebuilt(trace)[c := Noted(if c in Rebuilt(trace) then Rebuilt(trace)[c] else NOTHING, a.ev)]
            else Rebuilt(trace)
  {
    assert (trace + [a])[..|trace|] == trace;
  }

  /** Made-up ids are only ever used as they should be; ExecutorIndex.StrangersProper proves it of every run. */
  ghost predicate Strangers(t: seq<Act>) {
    forall i :: 0 <= i < |t| && t[i].Append? ==> Proper(t[i].ev)
  }

  lemma {:induction false} StrangersOne(t: seq<Act>, a: Act)
    ensures Strangers(t) && (a.Append? ==> Proper(a.ev)) ==> Strangers(t + [a])
  {
    hide Proper;
  }

  /** From w to w': a quiet stretch over the same ids, the halt kept. */
  ghost predicate Onward(w: World, w': World) {
    && Quiet(w.trace, w'.trace) && w'.index.Keys == w.index.Keys && (HaltedIn(w) ==> HaltedIn(w'))
    && (Strangers(w.trace) ==> Strangers(w'.trace))
  }

  lemma {:induction false} OnwardTwice(a: World, b: World, c: World)
    ensures Onward(a, b) && Onward(b, c) ==> Onward(a, c)
  {
    hide HaltedIn, Strangers;
  }

  lemma {:induction false} OnwardMeans(w: World, w': World)
    ensures Onward(w, w') ==>
              && Quiet(w.trace, w'.trace) && w.trace <= w'.trace && (HaltedIn(w) ==> HaltedIn(w'))
              && (Strangers(w.trace) ==> Strangers(w'.trace))
              && (forall ids, o :: Known(w'.index, ids, o) <==> Known(w.index, ids, o))
  {
    hide HaltedIn, Strangers;
  }

  lemma {:induction false} DoOnward(env: Env, w: World, act: Act, x: Option<Coid>)
    requires Fit(env) && !act.Create? && !act.Append?
    ensures Do(env, w, act) == Go(w.(trace := w.trace + [act]), ())
    ensures Onward(w, Do(env, w, act).w)
    ensures SameId(w, x) ==> SameId(Do(env, w, act).w, x)
  {
    hide Strangers, Rebuilt, HaltedIn, AllWritten;
    StrangersOne(w.trace, act);
    RebuiltOne(w.trace, act);
    SameHaltedIn(w, w.(trace := w.trace + [act]));
  }

  lemma {:induction false} LedOnward(env: Env, w: World, ev: Event)
    requires Fit(env) && !ev.OrderSent? && Proper(ev)
    ensures Led(env, w, ev) == Go(w.(trace := w.trace + [Append(ev, Written)]), ())
    ensures Onward(w, Led(env, w, ev).w)
    ensures Rebuilt(w.trace + [Append(ev, Written)]) ==
            if About(ev).Some? then
              var c := About(ev).value;
              Rebuilt(w.trace)[c := Noted(if c in Rebuilt(w.trace) then Rebuilt(w.trace)[c] else NOTHING, ev)]
            else Rebuilt(w.trace)
    ensures forall c :: EndsIt(Append(ev, Written), c) ==> Tracked(w.trace + [Append(ev, Written)], c).ever
  {
    hide Strangers, Proper;
    StrangersOne(w.trace, Append(ev, Written));
    RebuiltOne(w.trace, Append(ev, Written));
    forall c | EndsIt(Append(ev, Written), c)
      ensures Tracked(w.trace + [Append(ev, Written)], c).ever
    {
      TrackedOne(w.trace, Append(ev, Written), c);
    }
  }

  // ------------------------------------------------------------------ the pieces

  lemma {:induction false} UnknownGoes(env: Env, w: World, c: Coid, id: Option<string>, x: Option<Coid>)
    requires Fit(env) && Titled(c, id)
    ensures var s := DeclareUnknown(env, w, c, id);
            s.Go? && Onward(w, s.w) && Tracked(s.w.trace, c).ever && HaltedIn(s.w)
            && (SameId(w, x) || (x == Some(c) && Or(id, None).Some?) ==> SameId(s.w, x))
            && c in Rebuilt(s.w.trace) && (Or(id, None).Some? ==> Rebuilt(s.w.trace)[c].orderId == id)
  {
    hide Tracked, Strangers, Fit, Rebuilt;
    LedOnward(env, w, UnknownState(c, id));
    FitHalts(env, Led(env, w, UnknownState(c, id)).w.trace);
  }

  lemma {:induction false} FitHalts(env: Env, t: seq<Act>)
    ensures Fit(env) ==> !env.haltFails(t)
  {
  }

  lemma {:induction false} CountGoes(env: Env, w: World, usd: real, fee: Option<real>)
    requires Fit(env)
    ensures CountFill(env, w, usd, fee).Go?
    ensures CountFill(env, w, usd, fee).w.trace == w.trace && CountFill(env, w, usd, fee).w.index == w.index
  {
    hide CountFill;
    CountAside(env, w, usd, fee);
    CountReturns(env, w, usd, fee);
  }

  lemma {:induction false} FillGoes(env: Env, w: World, c: Coid, o: Order, e: Effective, requested: real,
                                    x: Option<Coid>)
    requires Fit(env) && (x.Some? ==> o.id != "") && c.Client?
    ensures var s := RecordFill(env, w, c, o, e, requested);
            s.Go? && Onward(w, s.w) && Tracked(s.w.trace, c).ever && (x == Some(c) || SameId(w, x) ==> SameId(s.w, x))
  {
    hide Tracked, Strangers, Fit, Rebuilt, CountFill, HaltedIn, Dollars;
    var ev := Fill(c, Some(o.id), e.filled + SLACK < requested, e.filled, requested, e.avg, e.fee, e.duplicates);
    LedOnward(env, w, ev);
    CountGoes(env, w.(trace := w.trace + [Append(ev, Written)], index := Ended(w.index, c, Some(o.id))), Dollars(e),
              e.fee);
    FillHeld(env, w, c, o, e, requested);
  }

  /** A status that is not open ends the id, in memory and in the ledger, under the order's id. */
  lemma {:induction false} FinalizeGoes(env: Env, w: World, c: Coid, o: Order, requested: real, x: Option<Coid>)
    requires Fit(env) && (x.Some? ==> o.id != "") && o.status != Open && c.Client?
    requires x.Some? && c in w.index ==> w.index[c].orderId == Some(o.id)
    ensures var s := Finalize(env, w, c, o, requested);
            && s.Go? && s.v.Some? && Onward(w, s.w) && Tracked(s.w.trace, c).ever
                && (x == Some(c) || SameId(w, x) ==> SameId(s.w, x))
            && (s.v.value.status == UNKNOWN ==> HaltedIn(s.w))
  {
    hide Tracked, Strangers, Fit, Rebuilt, DeclareUnknown, RecordFill, EffectiveFill, Overfilled, HaltedIn, Led, Onward;
    UnknownGoes(env, w, c, Some(o.id), x);
    FillGoes(env, w, c, o, EffectiveFill(o), requested, x);
    NoFillGoes(env, w, c, o, x);
    FinalizeHeld(env, w, c, o, requested);
    FitHalts(env, Finalize(env, w, c, o, requested).w.trace);
  }

  lemma {:induction false} NoFillGoes(env: Env, w: World, c: Coid, o: Order, x: Option<Coid>)
    requires Fit(env) && (x.Some? ==> o.id != "") && c.Client?
    requires x.Some? && c in w.index ==> w.index[c].orderId == Some(o.id)
    ensures var led := Led(env, w, NoFillCanceled(c, Some(o.id)));
            var w' := if c in led.w.index then led.w.(index := Ended(led.w.index, c, led.w.index[c].orderId))
              else led.w;
            led.Go? && Onward(w, w') && Tracked(w'.trace, c).ever && (x == Some(c) || SameId(w, x) ==> SameId(w', x))
  {
    hide Tracked, Strangers, Fit, Rebuilt;
    LedOnward(env, w, NoFillCanceled(c, Some(o.id)));
  }

  // ------------------------------------------------------------------ one pending id

  /** The broker names orders consistently: a fetch by id returns the order of that id, and no id is empty. */
  ghost predicate Named(env: Env) {
    && (forall t: seq<Act> :: t != [] && t[|t| - 1].Fetch? && env.fetch(t).Got? ==>
          env.fetch(t).order.id == t[|t| - 1].orderId)
    && (forall t: seq<Act> :: env.lookup(t).Found? ==> env.lookup(t).order.id != "")
    && (forall t: seq<Act>, o :: env.list(t).Listed? && o in env.list(t).orders ==> o.id != "")
  }

  /** The report only grows. */
  predicate Grown(rep: Report, rep': Report) {
    && rep.resolved <= rep'.resolved && rep.unknown <= rep'.unknown && rep.canceled <= rep'.canceled
    && rep.leftOpen <= rep'.leftOpen && rep.errors <= rep'.errors
    && rep'.haltSet == rep.haltSet && rep'.haltCleared == rep.haltCleared
  }

  predicate Left(rep: Report, x: Option<Coid>) { x.Some? && x.value in rep.leftOpen }

  function Size(rep: Report): nat {
    |rep.resolved| + |rep.unknown| + |rep.canceled| + |rep.leftOpen| + rep.errors
  }

  /** An unknown in the report stands behind a halt. */
  ghost predicate Warned(w: World, rep: Report) { rep.unknown != [] ==> HaltedIn(w) }

  predicate Dealt(w: World, rep: Report, c: Coid, rec: Rec) {
    Tracked(w.trace, c).ever || (rec.sent.isExit && c in rep.leftOpen)
  }

  /** One step of the reconciliation of `c`, seen from the id `x`. */
  ghost predicate Stepped(w: World, rep: Report, s: Step<Report>, x: Option<Coid>) {
    && s.Go? && Onward(w, s.w) && Grown(rep, s.v)
    && (Warned(w, rep) ==> Warned(s.w, s.v))
    && (Left(s.v, x) || SameId(s.w, x))
  }

  lemma {:induction false} NotedGoes(env: Env, w: World, rep: Report, c: Coid, id: Option<string>, x: Option<Coid>)
    requires Fit(env) && Titled(c, id)
    requires SameId(w, x) || (x == Some(c) && Or(id, None).Some?) || Left(rep, x)
    ensures var s := UnknownNoted(env, w, rep, c, id);
            && Stepped(w, rep, s, x) && Tracked(s.w.trace, c).ever && Size(s.v) > Size(rep)
            && s.v == rep.(unknown := rep.unknown + [c])
            && c in Rebuilt(s.w.trace) && (Or(id, None).Some? ==> Rebuilt(s.w.trace)[c].orderId == id)
  {
    hide Tracked, Strangers, Fit, Rebuilt, DeclareUnknown, Onward, HaltedIn;
    UnknownGoes(env, w, c, id, x);
  }

  /** The order's id goes into memory first. */
  function Retitled(w: World, c: Coid, id: string): World {
    if c in w.index then w.(index := w.index[c := w.index[c].(orderId := Some(id))]) else w
  }

  lemma {:induction false} RetitledGoes(w: World, c: Coid, id: string, x: Option<Coid>)
    ensures var w0 := Retitled(w, c, id);
            && Onward(w, w0) && w0.trace == w.trace && w0.halt == w.halt
            && (x != Some(c) && SameId(w, x) ==> SameId(w0, x))
            && (c in w0.index ==> w0.index[c].orderId == Some(id))
  {
  }

  lemma {:induction false} FoundEnded(env: Env, w: World, rep: Report, c: Coid, o: Order, requested: real,
                                      x: Option<Coid>)
    requires Fit(env) && (x.Some? ==> o.id != "") && o.status != Open && c.Client?
    requires x.Some? && c in w.index ==> w.index[c].orderId == Some(o.id)
    requires x == Some(c) || Left(rep, x) || SameId(w, x)
    ensures var fin := Finalize(env, w, c, o, requested);
            && fin.Go? && fin.v.Some?
            && var rep' := rep.(resolved := rep.resolved + [c],
                                unknown := if fin.v.value.status == UNKNOWN then rep.unknown + [c] else rep.unknown);
            Stepped(w, rep, Go(fin.w, rep'), x) && Tracked(fin.w.trace, c).ever
  {
    hide Tracked, Strangers, Fit, Rebuilt, Finalize, HaltedIn, Quiet, SameId;
    FinalizeGoes(env, w, c, o, requested, x);
  }

  lemma {:induction false} FoundLeft(env: Env, w: World, rep: Report, c: Coid, o: Order, x: Option<Coid>)
    requires Fit(env) && c.Client?
    requires x == Some(c) || Left(rep, x) || SameId(w, x)
    ensures var led := Led(env, w, LeftOpen(c, Some(o.id)));
            && led.Go?
            && var rep' := rep.(leftOpen := rep.leftOpen + [c]);
            Stepped(w, rep, Go(led.w, rep'), x) && c in rep'.leftOpen
  {
    hide Tracked, Strangers, Fit, Rebuilt;
    LedOnward(env, w, LeftOpen(c, Some(o.id)));
  }

  /** Cancel, re-read, and what is then known. */
  lemma {:induction false} FoundCanceled(env: Env, w: World, rep: Report, c: Coid, o: Order, requested: real,
                                         x: Option<Coid>)
    requires Fit(env) && (x.Some? ==> Named(env) && o.id != "") && c.Client?
    requires x.Some? && c in w.index ==> w.index[c].orderId == Some(o.id)
    requires x == Some(c) || Left(rep, x) || SameId(w, x)
    ensures var w1 := w.(trace := w.trace + [Cancel(o.id)]);
            var w2 := w1.(trace := w1.trace + [Fetch(o.id)]);
            && Do(env, w, Cancel(o.id)) == Go(w1, ()) && Do(env, w1, Fetch(o.id)) == Go(w2, ())
            && NotedStep(w, rep, UnknownNoted(env, w1, rep, c, Some(o.id)), c, x)
            && NotedStep(w, rep, UnknownNoted(env, w2, rep, c, Some(o.id)), c, x)
            && (env.fetch(w2.trace).Got? && env.fetch(w2.trace).order.status != Open ==>
                  var fin := Finalize(env, w2, c, env.fetch(w2.trace).order, requested);
                  && fin.Go?
                  && Stepped(w, rep, Go(fin.w, rep.(canceled := rep.canceled + [c], resolved := rep.resolved + [c])), x)
                  && Tracked(fin.w.trace, c).ever)
  {
    hide Tracked, Strangers, Fit, Rebuilt, Finalize, HaltedIn, Quiet, SameId, UnknownNoted, Do, Named;
    var w1 := w.(trace := w.trace + [Cancel(o.id)]);
    var w2 := w1.(trace := w1.trace + [Fetch(o.id)]);
    DoOnward(env, w, Cancel(o.id), x);
    DoOnward(env, w1, Fetch(o.id), x);
    OnwardTwice(w, w1, w2);
    NotedGoes(env, w1, rep, c, Some(o.id), x);
    OnwardTwice(w, w1, UnknownNoted(env, w1, rep, c, Some(o.id)).w);
    NotedGoes(env, w2, rep, c, Some(o.id), x);
    OnwardTwice(w, w2, UnknownNoted(env, w2, rep, c, Some(o.id)).w);
    if env.fetch(w2.trace).Got? && env.fetch(w2.trace).order.status != Open {
      if x.Some? {
        NamedMeans(env, w2.trace);
      }
      FinalizeGoes(env, w2, c, env.fetch(w2.trace).order, requested, x);
      OnwardTwice(w, w2, Finalize(env, w2, c, env.fetch(w2.trace).order, requested).w);
    }
  }

  lemma {:induction false} NamedMeans(env: Env, t: seq<Act>)
    requires Named(env)
    ensures t != [] && t[|t| - 1].Fetch? && env.fetch(t).Got? ==> env.fetch(t).order.id == t[|t| - 1].orderId
    ensures env.lookup(t).Found? ==> env.lookup(t).order.id != ""
    ensures env.list(t).Listed? ==> forall o :: o in env.list(t).orders ==> o.id != ""
  {
  }

  ghost predicate NotedStep(w: World, rep: Report, s: Step<Report>, c: Coid, x: Option<Coid>) {
    Stepped(w, rep, s, x) && Tracked(s.w.trace, c).ever && Size(s.v) > Size(rep)
  }

  /** A step after a quiet stretch is a step from its start. */
  lemma {:induction false} SteppedFrom(w: World, w0: World, rep0: Report, rep: Report, s: Step<Report>, x: Option<Coid>)
    requires Onward(w, w0) && Grown(rep0, rep) && rep.unknown == rep0.unknown && Stepped(w0, rep, s, x)
    ensures Stepped(w, rep0, s, x)
  {
    hide Quiet, HaltedIn, SameId;
    OnwardTwice(w, w0, s.w);
  }

  /** The id is dealt with, and the report says so. */
  ghost predicate Advanced(w: World, rep: Report, s: Step<Report>, c: Coid, rec: Rec, x: Option<Coid>) {
    Stepped(w, rep, s, x) && Dealt(s.w, s.v, c, rec) && Size(s.v) > Size(rep)
  }

  lemma {:induction false} AdvancedFrom(w: World, w0: World, rep0: Report, rep: Report, s: Step<Report>, c: Coid,
                                        rec: Rec, x: Option<Coid>)
    requires Onward(w, w0) && Grown(rep0, rep) && rep.unknown == rep0.unknown && Size(rep) >= Size(rep0)
    requires Advanced(w0, rep, s, c, rec, x)
    ensures Advanced(w, rep0, s, c, rec, x)
  {
    hide Stepped, Dealt, Onward, Grown;
    SteppedFrom(w, w0, rep0, rep, s, x);
  }

  lemma {:induction false} NotedAdvances(w: World, rep: Report, s: Step<Report>, c: Coid, rec: Rec, x: Option<Coid>)
    ensures NotedStep(w, rep, s, c, x) ==> Advanced(w, rep, s, c, rec, x)
  {
    hide Stepped;
  }

  lemma {:induction false} ReconcileFoundGoes(env: Env, w: World, rep: Report, c: Coid, rec: Rec, o: Order,
                                              x: Option<Coid>)
    requires Fit(env) && (x.Some? ==> Named(env) && o.id != "") && c.Client?
    requires Left(rep, x) || SameId(w, x)
    ensures Advanced(w, rep, ReconcileFound(env, w, rep, c, rec, o), c, rec, x)
  {
    hide Tracked, Strangers, Fit, Rebuilt, UnknownNoted, Finalize, Led, Do, Onward, SameId, Named, Stepped, NotedStep;
    var requested := if rec.sent.requested != 0.0 then rec.sent.requested else o.filled;
    var w0 := Retitled(w, c, o.id);
    RetitledGoes(w, c, o.id, x);
    if o.status != Open {
      FoundEnded(env, w0, rep, c, o, requested, x);
    } else if rec.sent.isExit {
      FoundLeft(env, w0, rep, c, o, x);
    } else {
      FoundCanceled(env, w0, rep, c, o, requested, x);
      var w1 := w0.(trace := w0.trace + [Cancel(o.id)]);
      NotedAdvances(w0, rep, UnknownNoted(env, w1, rep, c, Some(o.id)), c, rec, x);
      NotedAdvances(w0, rep, UnknownNoted(env, w1.(trace := w1.trace + [Fetch(o.id)]), rep, c, Some(o.id)), c, rec, x);
    }
    AdvancedFrom(w, w0, rep, rep, ReconcileFound(env, w, rep, c, rec, o), c, rec, x);
  }

  lemma {:induction false} ReconcileGoes(env: Env, w: World, rep0: Report, c: Coid, rec: Rec, x: Option<Coid>)
    requires Fit(env) && (x.Some? ==> Named(env)) && c.Client?
    requires Left(rep0, x) || SameId(w, x)
    ensures Advanced(w, rep0, Reconcile(env, w, rep0, c, rec), c, rec, x)
  {
    hide Tracked, Strangers, Fit, Rebuilt, UnknownNoted, ReconcileFound, Led, Do, Onward, SameId, Stepped, NotedStep,
         Named;
    var rep := rep0.(pendingSeen := rep0.pendingSeen + 1);
    DoOnward(env, w, Lookup(c), x);
    var w1 := Do(env, w, Lookup(c)).w;
    match env.lookup(w1.trace)
    case Found(o) =>
      if x.Some? {
        NamedMeans(env, w1.trace);
      }
      ReconcileFoundGoes(env, w1, rep, c, rec, o, x);
      AdvancedFrom(w, w1, rep0, rep, ReconcileFound(env, w1, rep, c, rec, o), c, rec, x);
    case NotFound =>
      ResolvedGoes(env, w1, rep, c, rec, x);
      AdvancedFrom(w, w1, rep0, rep, Reconcile(env, w, rep0, c, rec), c, rec, x);
    case LookupRaised =>
      var worse := rep.(errors := rep.errors + 1);
      if Or(rec.orderId, None).None? {
        NotedGoes(env, w1, worse, c, rec.orderId, x);
        NotedIs(env, w1, worse, c, rec.orderId, x);
        NotedAdvances(w1, worse, UnknownNoted(env, w1, worse, c, rec.orderId), c, rec, x);
        AdvancedFrom(w, w1, rep0, worse, UnknownNoted(env, w1, worse, c, rec.orderId), c, rec, x);
      } else {
        DoOnward(env, w1, Fetch(rec.orderId.value), x);
        var w2 := Do(env, w1, Fetch(rec.orderId.value)).w;
        OnwardTwice(w, w1, w2);
        if env.fetch(w2.trace).Got? {
          if x.Some? {
            NamedMeans(env, w2.trace);
          }
          var o := env.fetch(w2.trace).order;
          ReconcileFoundGoes(env, w2, rep, c, rec, o, x);
          AdvancedFrom(w, w2, rep0, rep, ReconcileFound(env, w2, rep, c, rec, o), c, rec, x);
        } else {
          NotedIs(env, w2, worse, c, rec.orderId, x);
          NotedAdvances(w2, worse, UnknownNoted(env, w2, worse, c, rec.orderId), c, rec, x);
          AdvancedFrom(w, w2, rep0, worse, UnknownNoted(env, w2, worse, c, rec.orderId), c, rec, x);
        }
      }
  }

  lemma {:induction false} NotedIs(env: Env, w: World, rep: Report, c: Coid, id: Option<string>, x: Option<Coid>)
    requires Fit(env) && c.Client?
    requires SameId(w, x) || Left(rep, x)
    ensures NotedStep(w, rep, UnknownNoted(env, w, rep, c, id), c, x)
  {
    hide Tracked, Strangers, Fit, Rebuilt, UnknownNoted, Stepped, SameId;
    NotedGoes(env, w, rep, c, id, x);
  }

  lemma {:induction false} ResolvedGoes(env: Env, w: World, rep: Report, c: Coid, rec: Rec, x: Option<Coid>)
    requires Fit(env) && c.Client?
    requires Left(rep, x) || SameId(w, x)
    ensures var led := Led(env, w, Resolved(c, rec.stage));
            var w' := if c in led.w.index then led.w.(index := Ended(led.w.index, c, led.w.index[c].orderId))
              else led.w;
            led.Go? && Advanced(w, rep, Go(w', rep.(resolved := rep.resolved + [c])), c, rec, x)
  {
    hide Tracked, Strangers, Fit, Rebuilt;
    LedOnward(env, w, Resolved(c, rec.stage));
  }

  // ------------------------------------------------------------------ all pending ids

  ghost predicate AllDealt(w: World, rep: Report, pending: seq<(Coid, Rec)>) {
    forall i :: 0 <= i < |pending| ==> Dealt(w, rep, pending[i].0, pending[i].1)
  }

  lemma {:induction false} DealtStays(w: World, rep: Report, w': World, rep': Report, pending: seq<(Coid, Rec)>)
    requires AllDealt(w, rep, pending) && Quiet(w.trace, w'.trace) && rep.leftOpen <= rep'.leftOpen
    ensures AllDealt(w', rep', pending)
  {
    forall i | 0 <= i < |pending|
      ensures Dealt(w', rep', pending[i].0, pending[i].1)
    {
      assert Dealt(w, rep, pending[i].0, pending[i].1);
      QuietTracks(w.trace, w'.trace, pending[i].0);
    }
  }

  lemma {:induction false} ReconcileAllGoes(env: Env, w: World, rep: Report, pending: seq<(Coid, Rec)>, x: Option<Coid>)
    requires Fit(env) && (x.Some? ==> Named(env))
    requires forall i :: 0 <= i < |pending| ==> pending[i].0.Client?
    requires Left(rep, x) || SameId(w, x)
    ensures var s := ReconcileAll(env, w, rep, pending);
            && Stepped(w, rep, s, x)
            && AllDealt(s.w, s.v, pending)
            && (pending != [] ==> Size(s.v) > Size(rep))
            && (pending == [] ==> s == Go(w, rep))
    decreases |pending|
  {
    hide Reconcile, Fit, Named, Tracked, Rebuilt, HaltedIn, SameId, Quiet, Dealt, AllDealt;
    if pending == [] {
      OnwardSelf(w);
      NothingDealt(w, rep);
    } else {
      var init, last := pending[..|pending| - 1], pending[|pending| - 1];
      ReconcileAllGoes(env, w, rep, init, x);
      var before := ReconcileAll(env, w, rep, init);
      ReconcileGoes(env, before.w, before.v, last.0, last.1, x);
      var s := Reconcile(env, before.w, before.v, last.0, last.1);
      OnwardTwice(w, before.w, s.w);
      OnwardMeans(before.w, s.w);
      DealtStays(before.w, before.v, s.w, s.v, init);
      AllDealtOne(s.w, s.v, pending);
    }
  }

  lemma {:induction false} OnwardSelf(w: World)
    ensures Onward(w, w)
  {
  }

  lemma {:induction false} NothingDealt(w: World, rep: Report)
    ensures AllDealt(w, rep, [])
  {
  }

  lemma {:induction false} AllDealtOne(w: World, rep: Report, pending: seq<(Coid, Rec)>)
    requires pending != [] && AllDealt(w, rep, pending[..|pending| - 1])
    requires Dealt(w, rep, pending[|pending| - 1].0, pending[|pending| - 1].1)
    ensures AllDealt(w, rep, pending)
  {
    hide Dealt;
    var init := pending[..|pending| - 1];
    assert forall i :: 0 <= i < |init| ==> init[i] == pending[i];
  }

  // ------------------------------------------------------------------ strangers at the broker

  lemma {:induction false} StrangersTitled(t: seq<Act>, f: string)
    requires Strangers(t) && f != "" && Foreign(f) in Rebuilt(t)
    ensures Rebuilt(t)[Foreign(f)].orderId == Some(f)
    decreases |t|
  {
    var init, last := t[..|t| - 1], t[|t| - 1];
    assert forall i :: 0 <= i < |init| ==> init[i] == t[i];
    if Foreign(f) in Rebuilt(init) {
      StrangersTitled(init, f);
    }
  }

  /** What the ledger knows only grows. */
  ghost predicate MoreKnown(t: seq<Act>, t': seq<Act>) {
    Rebuilt(t).Keys <= Rebuilt(t').Keys && KnownIds(Rebuilt(t)) <= KnownIds(Rebuilt(t'))
  }

  predicate Recorded(t: seq<Act>, o: Order) {
    Known(Rebuilt(t), KnownIds(Rebuilt(t)), o)
  }

  lemma {:induction false} UnknownStranger(t: seq<Act>, f: string)
    requires Strangers(t)
    ensures var t' := t + [Append(UnknownState(Foreign(f), Some(f)), Written)];
            Strangers(t') && MoreKnown(t, t') && (f != "" ==> f in KnownIds(Rebuilt(t')))
  {
    hide Rebuilt, Strangers;
    var a := Append(UnknownState(Foreign(f), Some(f)), Written);
    RebuiltOne(t, a);
    StrangersOne(t, a);
    if Foreign(f) in Rebuilt(t) && f != "" {
      StrangersTitled(t, f);
    }
    var t' := t + [a];
    assert f != "" ==> Rebuilt(t')[Foreign(f)].orderId == Some(f);
    forall id | id in KnownIds(Rebuilt(t))
      ensures id in KnownIds(Rebuilt(t'))
    {
      var c :| c in Rebuilt(t) && Or(Rebuilt(t)[c].orderId, None).Some? && Rebuilt(t)[c].orderId.value == id;
      assert c in Rebuilt(t') && Rebuilt(t')[c].orderId == Some(id);
    }
    assert f != "" ==> f in KnownIds(Rebuilt(t')) by {
      assert Foreign(f) in Rebuilt(t');
    }
  }

  /** A stretch of the second phase: quiet, without another listing, and the ledger knows no less. */
  ghost predicate Past(w: World, w': World) {
    && Onward(w, w') && Strangers(w'.trace) && MoreKnown(w.trace, w'.trace)
    && forall i :: |w.trace| <= i < |w'.trace| ==> !w'.trace[i].ListOpen?
  }

  lemma {:induction false} PastTwice(a: World, b: World, c: World)
    requires Past(a, b) && Past(b, c)
    ensures Past(a, c)
  {
    hide HaltedIn, Strangers, Rebuilt, KnownIds;
    OnwardTwice(a, b, c);
  }

  lemma {:induction false} PastSelf(w: World)
    ensures Strangers(w.trace) ==> Past(w, w)
  {
  }

  /** The executor's memory is backed by the ledger. */
  ghost predicate Backed(w: World, ids: set<string>) {
    w.index.Keys <= Rebuilt(w.trace).Keys && ids <= KnownIds(Rebuilt(w.trace))
  }

  lemma {:induction false} NotedStranger(env: Env, w: World, rep: Report, f: string)
    requires Fit(env) && Strangers(w.trace)
    ensures var s := UnknownNoted(env, w, rep, Foreign(f), Some(f));
            && s.Go? && Past(w, s.w) && s.v == rep.(unknown := rep.unknown + [Foreign(f)]) && HaltedIn(s.w)
            && (f != "" ==> f in KnownIds(Rebuilt(s.w.trace)))
  {
    hide Rebuilt, KnownIds, Tracked, Strangers;
    UnknownGoes(env, w, Foreign(f), Some(f), None);
    LedOnward(env, w, UnknownState(Foreign(f), Some(f)));
    UnknownStranger(w.trace, f);
  }

  lemma {:induction false} CancelPast(env: Env, w: World, id: string)
    requires Fit(env) && Strangers(w.trace)
    ensures Do(env, w, Cancel(id)) == Go(w.(trace := w.trace + [Cancel(id)]), ()) && Past(w, Do(env, w, Cancel(id)).w)
  {
    RebuiltOne(w.trace, Cancel(id));
  }

  /** One open order: known already, or recorded as unknown behind a halt. */
  ghost predicate Met(w: World, rep: Report, s: Step<Report>, ids: set<string>, o: Order) {
    && s.Go? && Past(w, s.w) && Grown(rep, s.v) && (Warned(w, rep) ==> Warned(s.w, s.v))
    && (s.v.unknown == rep.unknown ==> Known(w.index, ids, o))
    && (Backed(w, ids) && o.id != "" ==> Recorded(s.w.trace, o))
  }

  lemma {:induction false} StrangeGoes(env: Env, w: World, rep: Report, ids: set<string>, symbol: string, o: Order)
    requires Fit(env) && Strangers(w.trace)
    ensures Met(w, rep, Strange(env, w, rep, ids, symbol, o), ids, o)
    ensures Known(w.index, ids, o) ==> Strange(env, w, rep, ids, symbol, o) == Go(w, rep)
  {
    hide UnknownNoted, Do, Rebuilt, KnownIds, HaltedIn, Strangers, Onward;
    if Known(w.index, ids, o) {
      PastSelf(w);
    } else if env.reduces(symbol, o).value {
      NotedStranger(env, w, rep, o.id);
    } else {
      CancelPast(env, w, o.id);
      var w1 := w.(trace := w.trace + [Cancel(o.id)]);
      var rep1 := if env.fetch(w1.trace).Got? then rep.(canceled := rep.canceled + [Foreign(o.id)]) else rep;
      NotedStranger(env, w1, rep1, o.id);
      PastTwice(w, w1, UnknownNoted(env, w1, rep1, Foreign(o.id), Some(o.id)).w);
    }
  }

  ghost predicate AllMet(w: World, rep: Report, s: Step<Report>, ids: set<string>, orders: seq<Order>) {
    && s.Go? && Past(w, s.w) && Grown(rep, s.v) && (Warned(w, rep) ==> Warned(s.w, s.v))
    && (s.v.unknown == rep.unknown ==> forall o :: o in orders ==> Known(w.index, ids, o))
    && (Backed(w, ids) ==> forall o :: o in orders && o.id != "" ==> Recorded(s.w.trace, o))
  }

  lemma {:induction false} RecordedStays(t: seq<Act>, t': seq<Act>, o: Order)
    ensures MoreKnown(t, t') && Recorded(t, o) ==> Recorded(t', o)
  {
    hide Rebuilt, KnownIds;
  }

  lemma {:induction false} BackedStays(w: World, w': World, ids: set<string>)
    ensures Past(w, w') && Backed(w, ids) ==> Backed(w', ids)
  {
    hide Rebuilt, KnownIds, Strangers;
  }

  lemma {:induction false} StrangeAllGoes(env: Env, w: World, rep: Report, ids: set<string>, symbol: string,
                                          orders: seq<Order>)
    requires Fit(env) && Strangers(w.trace)
    ensures AllMet(w, rep, StrangeAll(env, w, rep, ids, symbol, orders), ids, orders)
    ensures (forall o :: o in orders ==> Known(w.index, ids, o)) ==>
              StrangeAll(env, w, rep, ids, symbol, orders) == Go(w, rep)
    decreases |orders|
  {
    hide Strange, Strangers, Backed, Recorded, Known, Onward, MoreKnown;
    if orders == [] {
      PastSelf(w);
    } else {
      var init, last := orders[..|orders| - 1], orders[|orders| - 1];
      assert forall o :: o in init ==> o in orders;
      StrangeAllGoes(env, w, rep, ids, symbol, init);
      var before := StrangeAll(env, w, rep, ids, symbol, init);
      if Backed(w, ids) {
        BackedStays(w, before.w, ids);
      }
      StrangeGoes(env, before.w, before.v, ids, symbol, last);
      var s := Strange(env, before.w, before.v, ids, symbol, last);
      PastTwice(w, before.w, s.w);
      assert s.v.unknown == rep.unknown ==> before.v.unknown == rep.unknown;
      forall o | o in orders
        ensures Backed(w, ids) && o.id != "" ==> Recorded(s.w.trace, o)
        ensures s.v.unknown == rep.unknown ==> Known(w.index, ids, o)
      {
        if o != last {
          assert o in init;
          if Backed(w, ids) && o.id != "" {
            RecordedStays(before.w.trace, s.w.trace, o);
          }
        }
      }
    }
  }

  // ------------------------------------------------------------------ all symbols

  /** Every listing between the two traces succeeded and returned only orders the ledger already knew. */
  ghost predicate AllKnown(env: Env, t: seq<Act>, t': seq<Act>, index: map<Coid, Rec>, ids: set<string>) {
    forall k :: |t| <= k < |t'| && t'[k].ListOpen? ==>
      && env.list(t'[..k + 1]).Listed?
      && forall o :: o in env.list(t'[..k + 1]).orders ==> Known(index, ids, o)
  }

  /** The order was returned by a listing between the two traces. */
  ghost predicate Seen(env: Env, t: seq<Act>, t': seq<Act>, o: Order) {
    exists k :: |t| <= k < |t'| && t'[k].ListOpen? && env.list(t'[..k + 1]).Listed? && o in env.list(t'[..k + 1]).orders
  }

  ghost predicate AllRecorded(env: Env, t: seq<Act>, t': seq<Act>) {
    forall o :: Seen(env, t, t', o) ==> Recorded(t', o)
  }

  ghost predicate AskedFor(t: seq<Act>, t': seq<Act>, symbol: string) {
    exists k :: |t| <= k < |t'| && t'[k] == ListOpen(symbol)
  }

  ghost predicate Asked(t: seq<Act>, t': seq<Act>, symbols: seq<string>) {
    forall symbol :: symbol in symbols ==> AskedFor(t, t', symbol)
  }

  ghost predicate Swept(env: Env, w: World, rep: Report, s: Step<Report>, ids: set<string>, symbols: seq<string>) {
    && s.Go? && Onward(w, s.w) && Strangers(s.w.trace) && MoreKnown(w.trace, s.w.trace)
    && Grown(rep, s.v) && (Warned(w, rep) ==> Warned(s.w, s.v))
    && (s.v.unknown == rep.unknown && s.v.errors == rep.errors ==> AllKnown(env, w.trace, s.w.trace, w.index, ids))
    && (Backed(w, ids) && Named(env) ==> AllRecorded(env, w.trace, s.w.trace))
    && Asked(w.trace, s.w.trace, symbols)
  }

  lemma {:induction false} ListPast(env: Env, w: World, symbol: string)
    requires Fit(env) && Strangers(w.trace)
    ensures var w1 := w.(trace := w.trace + [ListOpen(symbol)]);
            Do(env, w, ListOpen(symbol)) == Go(w1, ()) && Onward(w, w1) && Strangers(w1.trace)
                && Rebuilt(w1.trace) == Rebuilt(w.trace)
  {
    RebuiltOne(w.trace, ListOpen(symbol));
  }

  /** One listing, then whatever it meets: how the quantified facts extend. */
  lemma {:induction false} SweptOne(env: Env, w: World, w1: World, w2: World, w3: World, symbol: string,
                                    symbols: seq<string>, ids: set<string>, backed: bool)
    requires w.trace <= w1.trace && w2.trace == w1.trace + [ListOpen(symbol)] && Past(w2, w3)
             && MoreKnown(w1.trace, w2.trace)
    requires (backed ==> AllRecorded(env, w.trace, w1.trace)) && Asked(w.trace, w1.trace, symbols)
    requires backed && env.list(w2.trace).Listed? ==>
               forall o :: o in env.list(w2.trace).orders ==> Recorded(w3.trace, o)
    ensures (backed ==> AllRecorded(env, w.trace, w3.trace)) && Asked(w.trace, w3.trace, symbols + [symbol])
    ensures AllKnown(env, w.trace, w1.trace, w.index, ids) && env.list(w2.trace).Listed?
            && (forall o :: o in env.list(w2.trace).orders ==> Known(w.index, ids, o)) ==>
              AllKnown(env, w.trace, w3.trace, w.index, ids)
  {
    hide Recorded, Known, Onward, Strangers, MoreKnown;
    var t3 := w3.trace;
    forall k | |w.trace| <= k < |t3| && t3[k].ListOpen?
      ensures k <= |w1.trace|
      ensures k < |w1.trace| ==> w1.trace[k] == t3[k] && w1.trace[..k + 1] == t3[..k + 1]
      ensures k == |w1.trace| ==> t3[..k + 1] == w2.trace
    {
      PastPrefix(w2, w3);
    }
    forall o | backed && Seen(env, w.trace, t3, o)
      ensures Recorded(t3, o)
    {
      var k :| |w.trace| <= k < |t3| && t3[k].ListOpen? && env.list(t3[..k + 1]).Listed?
          && o in env.list(t3[..k + 1]).orders;
      if k < |w1.trace| {
        assert Seen(env, w.trace, w1.trace, o);
        MoreTwice(w1, w2, w3);
        RecordedStays(w1.trace, t3, o);
      }
    }
    PastPrefix(w2, w3);
    forall sym | sym in symbols + [symbol]
      ensures AskedFor(w.trace, t3, sym)
    {
      if sym in symbols {
        assert AskedFor(w.trace, w1.trace, sym);
        var k :| |w.trace| <= k < |w1.trace| && w1.trace[k] == ListOpen(sym);
        assert t3[k] == ListOpen(sym);
      } else {
        assert t3[|w1.trace|] == ListOpen(sym);
      }
    }
  }

  lemma {:induction false} PastPrefix(w: World, w': World)
    requires Past(w, w')
    ensures w.trace <= w'.trace
    ensures forall k :: 0 <= k < |w.trace| ==> w'.trace[k] == w.trace[k] && w'.trace[..k + 1] == w.trace[..k + 1]
  {
    forall k | 0 <= k < |w.trace|
      ensures w'.trace[k] == w.trace[k] && w'.trace[..k + 1] == w.trace[..k + 1]
    {
      assert w'.trace[..|w.trace|] == w.trace;
    }
  }

  lemma {:induction false} MoreTwice(w1: World, w2: World, w3: World)
    ensures MoreKnown(w1.trace, w2.trace) && Past(w2, w3) ==> MoreKnown(w1.trace, w3.trace)
  {
    hide Rebuilt, KnownIds, Strangers, Onward;
  }

  lemma {:induction false} SymbolsGoes(env: Env, w: World, rep: Report, ids: set<string>, symbols: seq<string>)
    requires Fit(env) && Strangers(w.trace)
    ensures Swept(env, w, rep, Symbols(env, w, rep, ids, symbols), ids, symbols)
    decreases |symbols|
  {
    if symbols == [] {
      OnwardSelf(w);
    } else {
      SymbolsMore(env, w, rep, ids, symbols);
    }
  }

  lemma {:induction false} SymbolsMore(env: Env, w: World, rep: Report, ids: set<string>, symbols: seq<string>)
    requires Fit(env) && Strangers(w.trace) && symbols != []
    ensures Swept(env, w, rep, Symbols(env, w, rep, ids, symbols), ids, symbols)
    decreases |symbols|, 0
  {
    hide Fit, Named, Strangers, Backed, Recorded, Known, Onward, MoreKnown, AllKnown, AllRecorded, Asked, StrangeAll,
         Do, HaltedIn, Past;
    var init, symbol := symbols[..|symbols| - 1], symbols[|symbols| - 1];
    SymbolsGoes(env, w, rep, ids, init);
    var before := Symbols(env, w, rep, ids, init);
    var w1 := before.w;
    ListPast(env, w1, symbol);
    var w2 := w1.(trace := w1.trace + [ListOpen(symbol)]);
    SweptBacked(w, w1, w2, ids);
    OnwardTwice(w, w1, w2);
    OnwardMeans(w, w1);
    assert init + [symbol] == symbols;
    if env.list(w2.trace).ListRaised? {
      PastSelf(w2);
      SweptOne(env, w, w1, w2, w2, symbol, init, ids, Backed(w, ids) && Named(env));
      MoreStill(w, w1, w2);
    } else {
      if Named(env) {
        NamedMeans(env, w2.trace);
      }
      var orders := env.list(w2.trace).orders;
      StrangeAllGoes(env, w2, before.v, ids, symbol, orders);
      var s := StrangeAll(env, w2, before.v, ids, symbol, orders);
      SweptOne(env, w, w1, w2, s.w, symbol, init, ids, Backed(w, ids) && Named(env));
      SweptOnward(w, w2, s.w);
      MoreTwice(w1, w2, s.w);
      MoreStill(w, w1, s.w);
      OnwardMeans(w, w2);
    }
  }

  lemma {:induction false} SweptBacked(w: World, w1: World, w2: World, ids: set<string>)
    requires Onward(w, w1) && MoreKnown(w.trace, w1.trace)
    requires Rebuilt(w2.trace) == Rebuilt(w1.trace) && w2.index == w1.index
    ensures MoreKnown(w1.trace, w2.trace)
    ensures Backed(w, ids) ==> Backed(w2, ids)
  {
    hide Rebuilt, KnownIds, Strangers, Quiet;
  }

  lemma {:induction false} MoreStill(a: World, b: World, c: World)
    ensures MoreKnown(a.trace, b.trace) && MoreKnown(b.trace, c.trace) ==> MoreKnown(a.trace, c.trace)
  {
    hide Rebuilt, KnownIds;
  }

  lemma {:induction false} SweptOnward(w: World, w2: World, w3: World)
    requires Onward(w, w2) && Past(w2, w3)
    ensures Onward(w, w3) && Strangers(w3.trace)
  {
    hide HaltedIn, Strangers, MoreKnown;
    OnwardTwice(w, w2, w3);
  }

  // ------------------------------------------------------------------ the whole startup

  lemma {:induction false} CoidsListed(trace: seq<Act>, c: Coid)
    ensures c in Rebuilt(trace) <==> c in Coids(trace)
    decreases |trace|
  {
    if trace != [] {
      CoidsListed(trace[..|trace| - 1], c);
    }
  }

  lemma {:induction false} ListHasPending(trace: seq<Act>, cs: seq<Coid>)
    ensures forall c :: c in cs && Pending(Rebuilt(trace), c) ==> (c, Rebuilt(trace)[c]) in PendingList(trace, cs)
    ensures forall i :: 0 <= i < |PendingList(trace, cs)| ==>
              var c := PendingList(trace, cs)[i].0;
              Pending(Rebuilt(trace), c) && PendingList(trace, cs)[i].1 == Rebuilt(trace)[c]
    decreases |cs|
  {
    hide Rebuilt;
    if cs != [] {
      ListHasPending(trace, cs[..|cs| - 1]);
    }
  }

  lemma {:induction false} PendingFromIntent(trace: seq<Act>, c: Coid)
    requires Strangers(trace) && Pending(Rebuilt(trace), c)
    ensures c.Client?
  {
    RebuiltTracks(trace, c);
    if c.Foreign? {
      StrangerUnsent(trace, c);
    }
  }

  /** After the rebuild: memory is the ledger. */
  lemma {:induction false} RebuiltWorld(w: World)
    ensures var w0 := w.(trace := w.trace + [Rebuild], index := Rebuilt(w.trace));
            && Rebuilt(w0.trace) == Rebuilt(w.trace)
            && (forall x: Option<Coid> :: SameId(w0, x))
            && (Strangers(w.trace) ==> Strangers(w0.trace))
            && Quiet(w.trace, w0.trace)
  {
    RebuiltOne(w.trace, Rebuild);
    hide Strangers;
    StrangersOne(w.trace, Rebuild);
  }

  /** The first phase: every pending id dealt with. */
  ghost predicate FirstDone(env: Env, w: World, s: Step<Report>) {
    var w0 := w.(trace := w.trace + [Rebuild], index := Rebuilt(w.trace));
    var pending := PendingList(w.trace, Coids(w.trace));
    && s.Go? && Onward(w0, s.w) && Grown(NO_REPORT, s.v) && Warned(s.w, s.v)
    && (Named(env) ==> forall x: Option<Coid> :: Left(s.v, x) || SameId(s.w, x))
    && AllDealt(s.w, s.v, pending)
    && (pending != [] ==> Size(s.v) > 0)
    && (pending == [] ==> s == Go(w0, NO_REPORT))
  }

  lemma {:induction false} FirstPhase(env: Env, w: World)
    requires Fit(env) && Strangers(w.trace)
    ensures var w0 := w.(trace := w.trace + [Rebuild], index := Rebuilt(w.trace));
            FirstDone(env, w, ReconcileAll(env, w0, NO_REPORT, PendingList(w.trace, Coids(w.trace))))
  {
    hide ReconcileAll, Fit, Named, Tracked, Rebuilt, HaltedIn, SameId, Quiet, Dealt, AllDealt, PendingList, Coids,
         Strangers, Onward;
    var w0 := w.(trace := w.trace + [Rebuild], index := Rebuilt(w.trace));
    var pending := PendingList(w.trace, Coids(w.trace));
    RebuiltWorld(w);
    ListHasPending(w.trace, Coids(w.trace));
    forall i | 0 <= i < |pending|
      ensures pending[i].0.Client?
    {
      PendingFromIntent(w.trace, pending[i].0);
    }
    ReconcileAllGoes(env, w0, NO_REPORT, pending, None);
    var s := ReconcileAll(env, w0, NO_REPORT, pending);
    if Named(env) {
      forall x: Option<Coid>
        ensures Left(s.v, x) || SameId(s.w, x)
      {
        ReconcileAllGoes(env, w0, NO_REPORT, pending, x);
        assert Stepped(w0, NO_REPORT, s, x);
      }
    }
    assert Warned(w0, NO_REPORT);
  }

  /** Every id that was pending is ended in the ledger, or is an exit that was left open and is listed so. */
  ghost predicate PendingResolved(t: seq<Act>, t': seq<Act>, rep: Report) {
    forall c :: Pending(Rebuilt(t), c) ==>
      || (c in Rebuilt(t') && Rebuilt(t')[c].terminal)
      || (Rebuilt(t)[c].sent.isExit && c in rep.leftOpen)
  }

  predicate NothingPending(t: seq<Act>) { forall c :: c in Rebuilt(t) ==> !Pending(Rebuilt(t), c) }

  lemma {:induction false} DealtResolves(w: World, w': World, rep: Report, rep': Report)
    requires AllDealt(w', rep, PendingList(w.trace, Coids(w.trace))) && rep.leftOpen <= rep'.leftOpen
    ensures PendingResolved(w.trace, w'.trace, rep')
  {
    ListHasPending(w.trace, Coids(w.trace));
    forall c | Pending(Rebuilt(w.trace), c)
      ensures (c in Rebuilt(w'.trace) && Rebuilt(w'.trace)[c].terminal)
              || (Rebuilt(w.trace)[c].sent.isExit && c in rep'.leftOpen)
    {
      CoidsListed(w.trace, c);
      var pending := PendingList(w.trace, Coids(w.trace));
      var i :| 0 <= i < |pending| && pending[i] == (c, Rebuilt(w.trace)[c]);
      assert Dealt(w', rep, pending[i].0, pending[i].1);
      RebuiltTracks(w'.trace, c);
    }
  }

  lemma {:induction false} EmptyList(t: seq<Act>)
    ensures PendingList(t, Coids(t)) == [] <==> NothingPending(t)
  {
    ListHasPending(t, Coids(t));
    if PendingList(t, Coids(t)) == [] {
      forall c | c in Rebuilt(t)
        ensures !Pending(Rebuilt(t), c)
      {
        CoidsListed(t, c);
      }
    } else {
      assert Pending(Rebuilt(t), PendingList(t, Coids(t))[0].0);
    }
  }

  /** Nothing was pending, and every listing succeeded with orders the ledger already knew. */
  ghost predicate NothingFound(env: Env, w: World, t': seq<Act>) {
    NothingPending(w.trace) && AllKnown(env, w.trace, t', Rebuilt(w.trace), KnownIds(Rebuilt(w.trace)))
  }

  /** What a startup has achieved when it returns. */
  ghost predicate Reconciled(env: Env, w: World, symbols: seq<string>, s: Step<Report>) {
    && s.Go? && s.w.started
    && PendingResolved(w.trace, s.w.trace, s.v)
    && Asked(w.trace, s.w.trace, symbols)
    && (FoundSomething(s.v) <==> s.v.haltSet)
    && (s.v.haltSet <==> !NothingFound(env, w, s.w.trace))
    && (s.v.haltSet ==> HaltedIn(s.w))
    && (s.v.haltCleared <==> NothingFound(env, w, s.w.trace) && H.Clears(w.halt, H.ClearHalt("", true)))
    && (HaltedIn(w) && !HaltedIn(s.w) ==> s.v.haltCleared)
  }

  /** Startup, with ledger and halt writes succeeding: it returns; every id pending before it is ended in the ledger or
      is an exit listed as left open; every symbol is listed; a halt is set, and then stands, exactly unless nothing was
      pending, every listing succeeded and every open order returned was already in the ledger; and in that case, and
      only then, an automatic halt is cleared. */
  lemma {:induction false} StartupReconciles(env: Env, w: World, symbols: seq<string>)
    requires Fit(env) && Strangers(w.trace)
    ensures Reconciled(env, w, symbols, Startup(env, w, symbols))
  {
    hide ReconcileAll, Symbols, Fit, Tracked, Rebuilt, SameId, AllDealt, PendingList, Coids, Strangers, Onward,
         NothingFound, AllKnown, AllRecorded, Asked, MoreKnown, Backed, KnownIds, Policy, PendingResolved, HaltedIn,
         H.Clears, Named;
    var w0 := w.(trace := w.trace + [Rebuild], index := Rebuilt(w.trace));
    var pending := PendingList(w.trace, Coids(w.trace));
    RebuiltWorld(w);
    FirstPhase(env, w);
    var first := ReconcileAll(env, w0, NO_REPORT, pending);
    OnwardMeans(w0, first.w);
    var ids := KnownIds(first.w.index);
    SymbolsGoes(env, first.w, first.v, ids, symbols);
    var second := Symbols(env, first.w, first.v, ids, symbols);
    PolicyGoes(env, second.w, second.v);
    var last := Policy(env, second.w, second.v);
    OnwardMeans(first.w, second.w);
    DealtStays(first.w, first.v, second.w, second.v, pending);
    DealtStays(second.w, second.v, last.w, second.v, pending);
    DealtResolves(w, last.w, second.v, last.v);
    SameHaltedIn(w, w0);
    AskedLater(w.trace, first.w.trace, second.w.trace, last.w.trace, symbols);
    FoundIff(env, w, symbols);
  }

  /** Something is found exactly unless there was nothing to find; and then the halt is as it was. */
  lemma {:induction false} FoundIff(env: Env, w: World, symbols: seq<string>)
    requires Fit(env) && Strangers(w.trace)
    ensures var w0 := w.(trace := w.trace + [Rebuild], index := Rebuilt(w.trace));
            var first := ReconcileAll(env, w0, NO_REPORT, PendingList(w.trace, Coids(w.trace)));
            && first.Go?
            && var second := Symbols(env, first.w, first.v, KnownIds(first.w.index), symbols);
            && second.Go?
            && (FoundSomething(second.v) <==> !NothingFound(env, w, second.w.trace + [Append(Summary, Written)]))
            && (!FoundSomething(second.v) ==> second.w.halt == w.halt)
  {
    hide ReconcileAll, Symbols, Fit, Tracked, Rebuilt, SameId, AllDealt, PendingList, Coids, Strangers, Onward,
         AllKnown, AllRecorded, Asked, MoreKnown, Backed, KnownIds, HaltedIn, Named, NothingPending;
    var w0 := w.(trace := w.trace + [Rebuild], index := Rebuilt(w.trace));
    var pending := PendingList(w.trace, Coids(w.trace));
    RebuiltWorld(w);
    FirstPhase(env, w);
    var first := ReconcileAll(env, w0, NO_REPORT, pending);
    OnwardMeans(w0, first.w);
    var ids := KnownIds(first.w.index);
    SymbolsGoes(env, first.w, first.v, ids, symbols);
    var second := Symbols(env, first.w, first.v, ids, symbols);
    EmptyList(w.trace);
    assert pending != [] ==> Size(second.v) > 0 by {
      assert first.v.resolved <= second.v.resolved && first.v.unknown <= second.v.unknown;
    }
    if pending == [] {
      assert first == Go(w0, NO_REPORT);
      OnwardMeans(w0, second.w);
      SweptClean(env, w, second.w, second.w.(trace := second.w.trace + [Append(Summary, Written)]));
      if AllKnown(env, w0.trace, second.w.trace, w0.index, ids) {
        KnownMeansClean(env, w0, NO_REPORT, ids, symbols);
      }
    }
  }

  lemma {:induction false} AskedLater(t: seq<Act>, t1: seq<Act>, t2: seq<Act>, t3: seq<Act>, symbols: seq<string>)
    requires t <= t1 <= t2 <= t3 && Asked(t1, t2, symbols)
    ensures Asked(t, t3, symbols)
  {
    forall symbol | symbol in symbols
      ensures AskedFor(t, t3, symbol)
    {
      assert AskedFor(t1, t2, symbol);
      var k :| |t1| <= k < |t2| && t2[k] == ListOpen(symbol);
      assert t3[k] == ListOpen(symbol);
    }
  }

  /** Listings that show only what is known change nothing. */
  lemma {:induction false} KnownMeansClean(env: Env, w: World, rep: Report, ids: set<string>, symbols: seq<string>)
    requires Fit(env) && Strangers(w.trace)
    requires AllKnown(env, w.trace, Symbols(env, w, rep, ids, symbols).w.trace, w.index, ids)
    ensures var s := Symbols(env, w, rep, ids, symbols);
            s.Go? && s.v == rep && s.w == w.(trace := s.w.trace)
    decreases |symbols|
  {
    hide Fit, Strangers, Known, StrangeAll, Do, Onward, AllRecorded, MoreKnown, Backed, HaltedIn, Named;
    if symbols != [] {
      var init, symbol := symbols[..|symbols| - 1], symbols[|symbols| - 1];
      SymbolsGoes(env, w, rep, ids, init);
      var before := Symbols(env, w, rep, ids, init);
      OnwardMeans(w, before.w);
      DoListed(env, before.w, symbol);
      var w2 := before.w.(trace := before.w.trace + [ListOpen(symbol)]);
      var s := Symbols(env, w, rep, ids, symbols);
      ListedFurther(env, before.w, before.v, ids, symbol);
      AllKnownBefore(env, w.trace, before.w.trace, s.w.trace, w.index, ids);
      KnownMeansClean(env, w, rep, ids, init);
      assert s.w.trace[..|before.w.trace| + 1] == w2.trace;
      assert s.w.trace[|before.w.trace|] == ListOpen(symbol);
      AllStrange(env, w2, rep, ids, symbol, env.list(w2.trace).orders);
    }
  }

  lemma {:induction false} ListedFurther(env: Env, w: World, rep: Report, ids: set<string>, symbol: string)
    requires Fit(env) && Strangers(w.trace)
    ensures var s := Listing(env, w, rep, ids, symbol);
            w.trace + [ListOpen(symbol)] <= s.w.trace
  {
    hide Fit, Strangers, Known, StrangeAll, Do, Recorded, Backed, HaltedIn, MoreKnown;
    ListPast(env, w, symbol);
    var w2 := w.(trace := w.trace + [ListOpen(symbol)]);
    if env.list(w2.trace).Listed? {
      StrangeAllGoes(env, w2, rep, ids, symbol, env.list(w2.trace).orders);
      OnwardMeans(w2, StrangeAll(env, w2, rep, ids, symbol, env.list(w2.trace).orders).w);
    }
  }

  lemma {:induction false} AllKnownBefore(env: Env, t: seq<Act>, t1: seq<Act>, t2: seq<Act>, index: map<Coid, Rec>,
                                          ids: set<string>)
    requires t1 <= t2 && AllKnown(env, t, t2, index, ids)
    ensures AllKnown(env, t, t1, index, ids)
  {
    hide Known;
    forall k | |t| <= k < |t1| && t1[k].ListOpen?
      ensures t2[k].ListOpen? && t2[..k + 1] == t1[..k + 1]
    {
    }
  }

  lemma {:induction false} PolicyGoes(env: Env, w: World, rep: Report)
    requires Fit(env) && Warned(w, rep) && !rep.haltSet && !rep.haltCleared
    ensures var s := Policy(env, w, rep);
            && s.Go? && s.w.started && s.w.trace == w.trace + [Append(Summary, Written)] && Quiet(w.trace, s.w.trace)
            && s.w.index == w.index
            && s.v == rep.(haltSet := s.v.haltSet, haltCleared := s.v.haltCleared)
            && (s.v.haltSet <==> FoundSomething(rep))
            && (s.v.haltSet ==> HaltedIn(s.w))
            && (s.v.haltCleared <==> !FoundSomething(rep) && H.Clears(w.halt, H.ClearHalt("", true)))
            && (HaltedIn(w) && !HaltedIn(s.w) ==> s.v.haltCleared)
  {
    hide Tracked, Strangers, Rebuilt;
    LedOnward(env, w, Summary);
  }

  /** The rebuild before the listings and the summary behind them are no listings. */
  lemma {:induction false} SweptClean(env: Env, w: World, w2: World, w3: World)
    requires w.trace + [Rebuild] <= w2.trace && w3.trace == w2.trace + [Append(Summary, Written)]
    ensures AllKnown(env, w.trace + [Rebuild], w2.trace, Rebuilt(w.trace), KnownIds(Rebuilt(w.trace))) <==>
            AllKnown(env, w.trace, w3.trace, Rebuilt(w.trace), KnownIds(Rebuilt(w.trace)))
  {
    hide Rebuilt, KnownIds, Known;
    forall k | |w.trace| <= k < |w3.trace| && w3.trace[k].ListOpen?
      ensures |w.trace| < k < |w2.trace| && w3.trace[..k + 1] == w2.trace[..k + 1]
    {
      assert w2.trace[|w.trace|] == Rebuild;
    }
    forall k | |w.trace| < k < |w2.trace| && w2.trace[k].ListOpen?
      ensures w3.trace[k].ListOpen? && w3.trace[..k + 1] == w2.trace[..k + 1]
    {
    }
  }

  // ------------------------------------------------------------------ and at once again

  /** From here on every listing succeeds and returns only orders the first startup was shown or the ledger knows. */
  ghost predicate Calm(env: Env, t: seq<Act>, t': seq<Act>) {
    forall later: seq<Act> :: t' <= later ==>
      env.list(later).Listed? && forall o :: o in env.list(later).orders ==> Seen(env, t, t', o) || Recorded(t', o)
  }

  lemma {:induction false} NothingStrange(env: Env, w: World, rep: Report, ids: set<string>, symbols: seq<string>,
                                          t: seq<Act>)
    requires Fit(env) && t <= w.trace
    requires forall later: seq<Act> :: t <= later ==>
               env.list(later).Listed? && forall o :: o in env.list(later).orders ==> Known(w.index, ids, o)
    ensures var s := Symbols(env, w, rep, ids, symbols);
            s.Go? && s.v == rep && t <= s.w.trace && s.w == w.(trace := s.w.trace)
    decreases |symbols|
  {
    hide Fit, Known, Strange, Do;
    if symbols != [] {
      var init, symbol := symbols[..|symbols| - 1], symbols[|symbols| - 1];
      NothingStrange(env, w, rep, ids, init, t);
      var before := Symbols(env, w, rep, ids, init);
      DoListed(env, before.w, symbol);
      var w2 := before.w.(trace := before.w.trace + [ListOpen(symbol)]);
      assert t <= w2.trace;
      AllStrange(env, w2, rep, ids, symbol, env.list(w2.trace).orders);
    }
  }

  lemma {:induction false} DoListed(env: Env, w: World, symbol: string)
    ensures Fit(env) ==> Do(env, w, ListOpen(symbol)) == Go(w.(trace := w.trace + [ListOpen(symbol)]), ())
  {
  }

  lemma {:induction false} AllStrange(env: Env, w: World, rep: Report, ids: set<string>, symbol: string,
                                      orders: seq<Order>)
    requires forall o :: o in orders ==> Known(w.index, ids, o)
    ensures StrangeAll(env, w, rep, ids, symbol, orders) == Go(w, rep)
    decreases |orders|
  {
    if orders != [] {
      assert forall o :: o in orders[..|orders| - 1] ==> o in orders;
      AllStrange(env, w, rep, ids, symbol, orders[..|orders| - 1]);
    }
  }

  /** Where the listing phase of a startup begins. */
  ghost function ListingStart(env: Env, w: World): seq<Act> {
    var w0 := w.(trace := w.trace + [Rebuild], index := Rebuilt(w.trace));
    ReconcileAll(env, w0, NO_REPORT, PendingList(w.trace, Coids(w.trace))).w.trace
  }

  lemma {:induction false} MemoryBacked(w: World)
    requires forall x: Option<Coid> :: SameId(w, x)
    ensures Backed(w, KnownIds(w.index))
  {
    forall c | c in w.index
      ensures c in Rebuilt(w.trace) && Or(w.index[c].orderId, None) == Or(Rebuilt(w.trace)[c].orderId, None)
    {
      assert SameId(w, Some(c));
    }
    forall id | id in KnownIds(w.index)
      ensures id in KnownIds(Rebuilt(w.trace))
    {
      var c :| c in w.index && Or(w.index[c].orderId, None).Some? && w.index[c].orderId.value == id;
      assert Rebuilt(w.trace)[c].orderId == Some(id);
    }
  }

  lemma {:induction false} ResolvedMeansNone(w: World, t': seq<Act>, rep: Report)
    requires PendingResolved(w.trace, t', rep) && rep.leftOpen == [] && Quiet(w.trace, t')
    ensures NothingPending(t')
  {
    forall c | c in Rebuilt(t')
      ensures !Pending(Rebuilt(t'), c)
    {
      QuietTracks(w.trace, t', c);
      RebuiltTracks(w.trace, c);
      RebuiltTracks(t', c);
    }
  }

  lemma {:induction false} SummaryRecords(env: Env, start: seq<Act>, t: seq<Act>)
    requires start <= t && AllRecorded(env, start, t)
    ensures AllRecorded(env, start, t + [Append(Summary, Written)])
  {
    var t' := t + [Append(Summary, Written)];
    RebuiltOne(t, Append(Summary, Written));
    hide Rebuilt, KnownIds, Known;
    forall o | Seen(env, start, t', o)
      ensures Recorded(t', o)
    {
      var k :| |start| <= k < |t'| && t'[k].ListOpen? && env.list(t'[..k + 1]).Listed?
          && o in env.list(t'[..k + 1]).orders;
      assert t'[..k + 1] == t[..k + 1];
      assert Seen(env, start, t, o);
    }
  }

  /** After a startup that left no exit open nothing is pending, and everything it was shown is in the ledger. */
  lemma {:induction false} NothingLeft(env: Env, w: World, symbols: seq<string>)
    requires Fit(env) && Named(env) && Strangers(w.trace)
    ensures var s := Startup(env, w, symbols);
            s.Go? && s.v.leftOpen == [] ==>
              && NothingPending(s.w.trace) && AllRecorded(env, ListingStart(env, w), s.w.trace)
              && Quiet(w.trace, s.w.trace)
  {
    hide ReconcileAll, Symbols, Fit, Named, Tracked, Rebuilt, SameId, AllDealt, PendingList, Coids, Strangers, Onward,
         AllKnown, AllRecorded, Asked, MoreKnown, Backed, KnownIds, Policy, PendingResolved, NothingPending, HaltedIn,
         H.Manual, FoundSomething;
    var w0 := w.(trace := w.trace + [Rebuild], index := Rebuilt(w.trace));
    var pending := PendingList(w.trace, Coids(w.trace));
    StartupReconciles(env, w, symbols);
    RebuiltWorld(w);
    FirstPhase(env, w);
    var first := ReconcileAll(env, w0, NO_REPORT, pending);
    OnwardMeans(w0, first.w);
    var ids := KnownIds(first.w.index);
    SymbolsGoes(env, first.w, first.v, ids, symbols);
    var second := Symbols(env, first.w, first.v, ids, symbols);
    PolicyGoes(env, second.w, second.v);
    var last := Policy(env, second.w, second.v);
    if last.v.leftOpen == [] {
      assert first.v.leftOpen <= second.v.leftOpen == [];
      MemoryBacked(first.w);
      OnwardMeans(first.w, second.w);
      SummaryRecords(env, first.w.trace, second.w.trace);
      ResolvedMeansNone(w, last.w.trace, last.v);
    }
  }

  /** An immediate second startup finds nothing and sets no halt, provided the first left no exit open and the broker
      answers every listing, with orders the first was shown or the ledger knows. */
  lemma {:induction false} SecondFindsNothing(env: Env, w: World, symbols: seq<string>, again: seq<string>)
    requires Fit(env) && Named(env) && Strangers(w.trace)
    ensures var s1 := Startup(env, w, symbols);
            s1.Go? && s1.v.leftOpen == [] && Calm(env, ListingStart(env, w), s1.w.trace) ==>
              var s2 := Startup(env, s1.w, again);
              s2.Go? && !FoundSomething(s2.v) && !s2.v.haltSet
  {
    hide ReconcileAll, Symbols, Fit, Named, Rebuilt, PendingList, Coids, KnownIds, NothingPending, HaltedIn, H.Manual,
         ListingStart, Startup, Policy, Known, Strangers;
    NothingLeft(env, w, symbols);
    var s1 := Startup(env, w, symbols);
    var w1 := s1.w;
    if s1.Go? && s1.v.leftOpen == [] && Calm(env, ListingStart(env, w), w1.trace) {
      EmptyList(w1.trace);
      var w0 := w1.(trace := w1.trace + [Rebuild], index := Rebuilt(w1.trace));
      var ids := KnownIds(w0.index);
      NothingStrange(env, w0, NO_REPORT, ids, again, w1.trace);
      var second := Symbols(env, w0, NO_REPORT, ids, again);
      PolicyGoes(env, second.w, second.v);
      StartupIs(env, w1, again, second);
    }
  }

  lemma {:induction false} StartupIs(env: Env, w: World, symbols: seq<string>, second: Step<Report>)
    requires PendingList(w.trace, Coids(w.trace)) == [] && second.Go?
    requires var w0 := w.(trace := w.trace + [Rebuild], index := Rebuilt(w.trace));
             second == Symbols(env, w0, NO_REPORT, KnownIds(w0.index), symbols)
    ensures Startup(env, w, symbols) == Policy(env, second.w, second.v)
  {
    hide Symbols, Rebuilt, PendingList, Coids, KnownIds, Policy;
  }
}
