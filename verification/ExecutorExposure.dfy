/** The broker's side: with an adapter that keeps its guarantees, a create never meets a live order of the same client
    id, unless that order's state was declared unknown. */
module ExecutorExposure {
  import opened Options
  import opened Executor
  import opened ExecutorIndex
  import H = EntryHalts

  // ------------------------------------------------------------------ the broker's book

  /** The client ids with an order that is live at the broker after these acts, or can still become live without
      another create. */
  type Book = seq<Act> -> set<Coid>

  predicate Over(o: Order) { o.status == Closed || o.status == Canceled }

  /** The answer to the last act gives the order of client id c this order id. */
  predicate Names(env: Env, t: seq<Act>, c: Coid, id: string) {
    t != [] && match t[|t| - 1]
               case Create(about, _) => about == c && env.create(t).Placed? && env.create(t).order.id == id
               case Lookup(about) => about == c && env.lookup(t).Found? && env.lookup(t).order.id == id
               case _ => false
  }

  /** The order id is that of the latest create of c. */
  ghost predicate Owned(env: Env, t: seq<Act>, c: Coid, id: string) {
    exists k :: 0 <= k <= |t| && Names(env, t[..k], c, id)
                && forall i :: k <= i < |t| ==> !(t[i].Create? && t[i].coid == c)
  }

  /** No order of c is live but one that was live already when a later create of c was called: the order of the latest
      create is over. */
  ghost predicate Settled(book: Book, t: seq<Act>, c: Coid) {
    c in book(t) ==> exists k :: 0 <= k < |t| && t[k].Create? && t[k].coid == c && c in book(t[..k])
  }

  /** What the adapter promises of its answer to the last act: a rejected create was never accepted (G1); a status of
      closed or canceled is the truth about the one order it is given for, the latest of that client id (G4); "no such
      order" is authoritative (G9). */
  ghost predicate TellsTruth(env: Env, book: Book, t: seq<Act>)
    requires t != []
  {
    match t[|t| - 1]
    case Create(c, _) =>
      && (env.create(t).Rejected? ==> book(t) <= book(t[..|t| - 1]))
      && (env.create(t).Placed? && Over(env.create(t).order) ==> Settled(book, t, c))
    case Lookup(c) =>
      && (env.lookup(t).NotFound? ==> c !in book(t))
      && (env.lookup(t).Found? && Over(env.lookup(t).order) ==> Settled(book, t, c))
    case Fetch(id) =>
      env.fetch(t).Got? ==>
        && env.fetch(t).order.id == id
        && (Over(env.fetch(t).order) ==> forall c :: Owned(env, t, c, id) ==> Settled(book, t, c))
    case _ => true
  }

  /** Nothing is live at first, only a create makes an order, and the adapter tells the truth. */
  ghost predicate Guarantees(env: Env, book: Book) {
    && book([]) == {}
    && (forall t, a :: book(t + [a]) <= book(t) + if a.Create? then {a.coid} else {})
    && (forall t: seq<Act> :: t != [] ==> TellsTruth(env, book, t))
  }

  // ------------------------------------------------------------------ the invariant

  predicate SaysUnknown(a: Act, c: Coid) { Logged(a) && a.ev.UnknownState? && a.ev.coid == c }

  ghost predicate DeclaredUnknown(t: seq<Act>, c: Coid) { exists k :: 0 <= k < |t| && SaysUnknown(t[k], c) }

  /** Created while an earlier create was still open. */
  ghost predicate CreatedTwice(t: seq<Act>, c: Coid) {
    exists j :: 0 <= j < |t| && t[j].Create? && t[j].coid == c && Tracked(t[..j], c).open
  }

  /** Why an order of the id may be live. */
  ghost predicate Accounted(t: seq<Act>, c: Coid) {
    Tracked(t, c).open || DeclaredUnknown(t, c) || CreatedTwice(t, c)
  }

  /** An entry that gives the order of c an id. */
  predicate Acknowledges(a: Act, c: Coid) {
    a.Append? && a.ev.OrderSent? && a.ev.coid == c && a.ev.orderId.Some?
  }

  /** It stands directly behind the answer it is about, while the create is open. */
  ghost predicate Backed(env: Env, t: seq<Act>, c: Coid) {
    forall m :: 0 <= m < |t| && Acknowledges(t[m], c) ==>
      Names(env, t[..m], c, t[m].ev.orderId.value) && Tracked(t[..m], c).open
  }

  ghost predicate Watched(env: Env, book: Book, t: seq<Act>, c: Coid) {
    (forall n :: 0 <= n <= |t| && c in book(t[..n]) ==> Accounted(t[..n], c)) && Backed(env, t, c)
  }

  /** An end that is not a declaration of ignorance is written only when no order of the id can be live. */
  ghost predicate Gone(book: Book, t: seq<Act>, c: Coid) {
    c in book(t) ==> DeclaredUnknown(t, c) || CreatedTwice(t, c)
  }

  /** What outlives the latest order of the id was accounted for when that order was created. */
  lemma {:induction false} SettledGone(env: Env, book: Book, t: seq<Act>, c: Coid)
    requires Watched(env, book, t, c) && Settled(book, t, c)
    ensures Gone(book, t, c)
  {
    hide Backed, Tracked;
    if c in book(t) {
      var k :| 0 <= k < |t| && t[k].Create? && t[k].coid == c && c in book(t[..k]);
      assert Accounted(t[..k], c);
      if DeclaredUnknown(t[..k], c) {
        var i :| 0 <= i < k && SaysUnknown(t[..k][i], c);
        assert SaysUnknown(t[i], c);
      } else if CreatedTwice(t[..k], c) {
        var j :| 0 <= j < k && t[..k][j].Create? && t[..k][j].coid == c && Tracked(t[..k][..j], c).open;
        assert t[..k][..j] == t[..j] && t[j] == t[..k][j];
      }
    }
  }

  lemma {:induction false} AccountedStays(t: seq<Act>, a: Act, c: Coid)
    ensures DeclaredUnknown(t, c) ==> DeclaredUnknown(t + [a], c)
    ensures CreatedTwice(t, c) ==> CreatedTwice(t + [a], c)
    ensures SaysUnknown(a, c) ==> DeclaredUnknown(t + [a], c)
    ensures a.Create? && a.coid == c && Tracked(t, c).open ==> CreatedTwice(t + [a], c)
  {
    var t' := t + [a];
    if DeclaredUnknown(t, c) {
      var k :| 0 <= k < |t| && SaysUnknown(t[k], c);
      assert SaysUnknown(t'[k], c);
    }
    if CreatedTwice(t, c) {
      var j :| 0 <= j < |t| && t[j].Create? && t[j].coid == c && Tracked(t[..j], c).open;
      assert t'[..j] == t[..j] && t'[j] == t[j];
    }
    if SaysUnknown(a, c) {
      assert SaysUnknown(t'[|t|], c);
    }
    if a.Create? && a.coid == c && Tracked(t, c).open {
      assert t'[..|t|] == t && t'[|t|] == a;
    }
  }

  lemma {:induction false} BackedOne(env: Env, t: seq<Act>, a: Act, c: Coid)
    requires Backed(env, t, c)
    requires Acknowledges(a, c) ==> Names(env, t, c, a.ev.orderId.value) && Tracked(t, c).open
    ensures Backed(env, t + [a], c)
  {
    hide Names, Tracked;
    var t' := t + [a];
    forall m | 0 <= m < |t'| && Acknowledges(t'[m], c)
      ensures Names(env, t'[..m], c, t'[m].ev.orderId.value) && Tracked(t'[..m], c).open
    {
      if m < |t| {
        assert t'[..m] == t[..m];
      } else {
        assert t'[..m] == t;
      }
    }
  }

  lemma {:induction false} NoneAdded(env: Env, book: Book, t: seq<Act>, a: Act)
    ensures Guarantees(env, book) ==> book(t + [a]) <= book(t) + if a.Create? then {a.coid} else {}
  {
  }

  lemma {:induction false} WatchedLast(env: Env, book: Book, t: seq<Act>, c: Coid)
    requires Watched(env, book, t, c)
    ensures c in book(t) ==> Accounted(t, c)
  {
    assert t[..|t|] == t;
  }

  lemma {:induction false} WatchedMore(env: Env, book: Book, t: seq<Act>, a: Act, c: Coid)
    requires Watched(env, book, t, c) && Backed(env, t + [a], c)
    requires c in book(t + [a]) ==> Accounted(t + [a], c)
    ensures Watched(env, book, t + [a], c)
  {
    hide Backed, Accounted;
    var t' := t + [a];
    forall n | 0 <= n <= |t'| && c in book(t'[..n])
      ensures Accounted(t'[..n], c)
    {
      if n <= |t| {
        assert t'[..n] == t[..n];
      } else {
        assert t'[..n] == t';
      }
    }
  }

  /** One act: a create, an end once nothing can be live, a declaration of ignorance, or anything else. */
  lemma {:induction false} WatchedOne(env: Env, book: Book, t: seq<Act>, a: Act, c: Coid)
    requires Guarantees(env, book) && Watched(env, book, t, c)
    requires Acknowledges(a, c) ==> Names(env, t, c, a.ev.orderId.value) && Tracked(t, c).open
    requires EndsIt(a, c) && !SaysUnknown(a, c) ==> Gone(book, t, c)
    ensures Watched(env, book, t + [a], c)
    ensures a.Create? && a.coid == c ==> Tracked(t + [a], c).open
    ensures !EndsIt(a, c) && Tracked(t, c).open ==> Tracked(t + [a], c).open
    ensures !(a.Create? && a.coid == c) ==> (Gone(book, t, c) ==> Gone(book, t + [a], c))
    ensures a.Create? && a.coid == c && book(t + [a]) <= book(t) ==> Gone(book, t + [a], c)
  {
    hide Guarantees, Tracked, Watched, Backed, DeclaredUnknown, CreatedTwice, Names;
    NoneAdded(env, book, t, a);
    AccountedStays(t, a, c);
    WatchedBacked(env, book, t, c);
    BackedOne(env, t, a, c);
    TrackedOne(t, a, c);
    WatchedLast(env, book, t, c);
    WatchedMore(env, book, t, a, c);
  }

  lemma {:induction false} WatchedBacked(env: Env, book: Book, t: seq<Act>, c: Coid)
    ensures Watched(env, book, t, c) ==> Backed(env, t, c)
  {
  }

  /** The order id stays that of the latest create until the next one. */
  lemma {:induction false} OwnedOne(env: Env, t: seq<Act>, a: Act, c: Coid, id: string)
    requires !(a.Create? && a.coid == c)
    ensures Owned(env, t, c, id) ==> Owned(env, t + [a], c, id)
  {
    hide Names;
    if Owned(env, t, c, id) {
      var k :| 0 <= k <= |t| && Names(env, t[..k], c, id)
               && forall i :: k <= i < |t| ==> !(t[i].Create? && t[i].coid == c);
      assert (t + [a])[..k] == t[..k];
    }
  }

  lemma {:induction false} OwnedNow(env: Env, t: seq<Act>, c: Coid, id: string)
    requires Names(env, t, c, id)
    ensures Owned(env, t, c, id)
  {
    hide Names;
    assert t[..|t|] == t;
  }

  lemma {:induction false} TruthOf(env: Env, book: Book, t: seq<Act>)
    ensures Guarantees(env, book) && t != [] ==> TellsTruth(env, book, t)
  {
  }

  // ------------------------------------------------------------------ every function keeps it

  /** No create in between. */
  ghost predicate NoCreates(t: seq<Act>, t': seq<Act>) {
    t <= t' && forall i :: |t| <= i < |t'| ==> !t'[i].Create?
  }

  lemma {:induction false} OwnedLater(env: Env, t: seq<Act>, t': seq<Act>, c: Coid, id: string)
    requires NoCreates(t, t')
    ensures Owned(env, t, c, id) ==> Owned(env, t', c, id)
  {
    hide Names;
    if Owned(env, t, c, id) {
      var k :| 0 <= k <= |t| && Names(env, t[..k], c, id)
               && forall i :: k <= i < |t| ==> !(t[i].Create? && t[i].coid == c);
      assert t'[..k] == t[..k];
    }
  }

  /** A stretch without a create, watched at its end. */
  ghost predicate Passed(env: Env, book: Book, t: seq<Act>, t': seq<Act>, c: Coid) {
    Watched(env, book, t', c) && NoCreates(t, t')
  }

  lemma {:induction false} PassedTwice(env: Env, book: Book, a: seq<Act>, b: seq<Act>, d: seq<Act>, c: Coid)
    ensures Passed(env, book, a, b, c) && Passed(env, book, b, d, c) ==> Passed(env, book, a, d, c)
  {
    hide Watched;
  }

  lemma {:induction false} PassedSelf(env: Env, book: Book, t: seq<Act>, c: Coid)
    ensures Watched(env, book, t, c) ==> Passed(env, book, t, t, c)
  {
    hide Watched;
  }

  lemma {:induction false} DoPassed(env: Env, book: Book, w: World, act: Act, c: Coid)
    requires Guarantees(env, book) && Watched(env, book, w.trace, c) && !act.Create? && !act.Append?
    ensures var t := Do(env, w, act).w.trace;
            && t == w.trace + [act] && Passed(env, book, w.trace, t, c)
            && (Gone(book, w.trace, c) ==> Gone(book, t, c)) && (Tracked(w.trace, c).open ==> Tracked(t, c).open)
  {
    hide Watched, Gone, Guarantees;
    WatchedOne(env, book, w.trace, act, c);
  }

  lemma {:induction false} LedPassed(env: Env, book: Book, w: World, ev: Event, c: Coid)
    requires Guarantees(env, book) && Watched(env, book, w.trace, c)
    requires About(ev) == Some(c) && ev.OrderSent? && ev.orderId.Some? ==>
               Names(env, w.trace, c, ev.orderId.value) && Tracked(w.trace, c).open
    requires About(ev) == Some(c) && Terminal(ev) && !ev.UnknownState? ==> Gone(book, w.trace, c)
    ensures var t := Led(env, w, ev).w.trace;
            && Passed(env, book, w.trace, t, c)
            && (Gone(book, w.trace, c) ==> Gone(book, t, c))
            && (!Terminal(ev) && Tracked(w.trace, c).open ==> Tracked(t, c).open)
  {
    hide Watched, Gone, Guarantees, Names;
    WatchedOne(env, book, w.trace, Append(ev, env.fate(w.trace, ev)), c);
  }

  lemma {:induction false} UnknownPassed(env: Env, book: Book, w: World, about: Coid, id: Option<string>, c: Coid)
    requires Guarantees(env, book) && Watched(env, book, w.trace, c)
    ensures Passed(env, book, w.trace, DeclareUnknown(env, w, about, id).w.trace, c)
  {
    hide Passed, Watched, Guarantees, H.Halted;
    LedPassed(env, book, w, UnknownState(about, id), c);
  }

  lemma {:induction false} DenyPassed(env: Env, book: Book, w: World, code: Code, about: Option<Coid>, c: Coid)
    requires Guarantees(env, book) && Watched(env, book, w.trace, c) && (about == Some(c) ==> Gone(book, w.trace, c))
    ensures Passed(env, book, w.trace, Deny(env, w, code, about).w.trace, c)
  {
    hide Passed, Watched, Guarantees, Gone;
    LedPassed(env, book, w, IntentDenied(code, about, about.Some?), c);
  }

  lemma {:induction false} FinalizePassed(env: Env, book: Book, w: World, about: Coid, o: Order, requested: real,
                                          c: Coid)
    requires Guarantees(env, book) && Watched(env, book, w.trace, c)
    requires about == c && Over(o) ==> Gone(book, w.trace, c)
    ensures Passed(env, book, w.trace, Finalize(env, w, about, o, requested).w.trace, c)
  {
    hide Passed, Watched, Guarantees, Gone, DeclareUnknown, EffectiveFill, Overfilled, CountFill, Led, Dollars;
    PassedSelf(env, book, w.trace, c);
    UnknownPassed(env, book, w, about, Some(o.id), c);
    var e := EffectiveFill(o);
    if Over(o) {
      var ev := Fill(about, Some(o.id), e.filled + SLACK < requested, e.filled, requested, e.avg, e.fee, e.duplicates);
      LedPassed(env, book, w, ev, c);
      var led := Led(env, w, ev);
      CountAside(env, led.w.(index := Ended(led.w.index, about, Some(o.id))), Dollars(e), e.fee);
      LedPassed(env, book, w, NoFillCanceled(about, Some(o.id)), c);
    }
  }

  /** The answer to a fetch by the id of the latest create. */
  lemma {:induction false} FetchedGone(env: Env, book: Book, t: seq<Act>, id: string, c: Coid)
    requires Guarantees(env, book) && Watched(env, book, t, c)
    requires t != [] && t[|t| - 1] == Fetch(id) && env.fetch(t).Got?
    ensures env.fetch(t).order.id == id
    ensures Owned(env, t, c, id) && Over(env.fetch(t).order) ==> Gone(book, t, c)
  {
    hide Owned, Guarantees, Watched, Settled, Gone;
    TruthOf(env, book, t);
    if Owned(env, t, c, id) && Over(env.fetch(t).order) {
      SettledGone(env, book, t, c);
    }
  }

  lemma {:induction false} CancelPassed(env: Env, book: Book, w: World, about: Coid, id: string, requested: real,
                                        c: Coid)
    requires Guarantees(env, book) && Watched(env, book, w.trace, c) && (about == c ==> Owned(env, w.trace, c, id))
    ensures Passed(env, book, w.trace, CancelAndReread(env, w, about, id, requested).w.trace, c)
  {
    hide Watched, Guarantees, Gone, Owned, DeclareUnknown, Finalize, Do, NoCreates;
    DoPassed(env, book, w, Cancel(id), c);
    var w1 := Do(env, w, Cancel(id)).w;
    UnknownPassed(env, book, w1, about, Some(id), c);
    PassedTwice(env, book, w.trace, w1.trace, DeclareUnknown(env, w1, about, Some(id)).w.trace, c);
    DoPassed(env, book, w1, Fetch(id), c);
    var w2 := Do(env, w1, Fetch(id)).w;
    PassedTwice(env, book, w.trace, w1.trace, w2.trace, c);
    OwnedLater(env, w.trace, w2.trace, c, id);
    UnknownPassed(env, book, w2, about, Some(id), c);
    PassedTwice(env, book, w.trace, w2.trace, DeclareUnknown(env, w2, about, Some(id)).w.trace, c);
    if env.fetch(w2.trace).Got? {
      FetchedGone(env, book, w2.trace, id, c);
      var o := env.fetch(w2.trace).order;
      FinalizePassed(env, book, w2, about, o, requested, c);
      var w3 := Finalize(env, w2, about, o, requested).w;
      PassedTwice(env, book, w.trace, w2.trace, w3.trace, c);
      UnknownPassed(env, book, w3, about, Some(id), c);
      PassedTwice(env, book, w.trace, w3.trace, DeclareUnknown(env, w3, about, Some(id)).w.trace, c);
    }
  }

  lemma {:induction false} SettlePassed(env: Env, book: Book, w: World, about: Coid, id: string, last: Order,
                                        requested: real, t0: real, c: Coid)
    requires Guarantees(env, book) && Watched(env, book, w.trace, c)
    requires about == c ==> Owned(env, w.trace, c, id) && (Over(last) ==> Gone(book, w.trace, c))
    ensures Passed(env, book, w.trace, Settle(env, w, about, id, last, requested, t0).w.trace, c)
    decreases TimeLeft(env, w, t0)
  {
    hide Watched, Guarantees, Gone, Owned, DeclareUnknown, Finalize, CancelAndReread, Poll, TimeLeft, NoCreates, Over;
    FinalizePassed(env, book, w, about, last, requested, c);
    UnknownPassed(env, book, w, about, Some(last.id), c);
    CancelPassed(env, book, w, about, id, requested, c);
    PollPassed(env, book, w, id, c);
    var polled := Poll(env, w, id);
    if polled.Go? && Now(env, w.trace) - t0 < env.timeout {
      OwnedLater(env, w.trace, polled.w.trace, c, id);
      UnknownPassed(env, book, polled.w, about, Some(id), c);
      PassedTwice(env, book, w.trace, polled.w.trace, DeclareUnknown(env, polled.w, about, Some(id)).w.trace, c);
      if polled.v.Got? {
        FetchedGone(env, book, polled.w.trace, id, c);
        SettlePassed(env, book, polled.w, about, id, polled.v.order, requested, t0, c);
        PassedTwice(env, book, w.trace, polled.w.trace,
                    Settle(env, polled.w, about, id, polled.v.order, requested, t0).w.trace, c);
      }
    }
  }

  lemma {:induction false} PollPassed(env: Env, book: Book, w: World, id: string, c: Coid)
    requires Guarantees(env, book) && Watched(env, book, w.trace, c)
    ensures var s := Poll(env, w, id);
            && Passed(env, book, w.trace, s.w.trace, c)
            && (s.Go? ==> s.w.trace != [] && s.w.trace[|s.w.trace| - 1] == Fetch(id) && s.v == env.fetch(s.w.trace))
  {
    hide Watched, Guarantees, Gone, TimeLeft, NoCreates;
    DoPassed(env, book, w, Sleep, c);
    var w1 := Do(env, w, Sleep).w;
    DoPassed(env, book, w1, Fetch(id), c);
    PassedTwice(env, book, w.trace, w1.trace, Do(env, w1, Fetch(id)).w.trace, c);
  }

  lemma {:induction false} PlacedPassed(env: Env, book: Book, w: World, about: Coid, sent: Sent, o: Order, c: Coid)
    requires Guarantees(env, book) && Watched(env, book, w.trace, c)
    requires about == c ==>
               Names(env, w.trace, c, o.id) && Tracked(w.trace, c).open && (Over(o) ==> Gone(book, w.trace, c))
    ensures Passed(env, book, w.trace, Acknowledge(env, w, about, sent, o).w.trace, c)
  {
    hide Watched, Guarantees, Gone, Names, Owned, Settle, NoCreates, Over, Tracked;
    var ev := OrderSent(about, Acked, Some(o.id), sent);
    LedPassed(env, book, w, ev, c);
    var led := Led(env, w, ev);
    if about == c {
      OwnedNow(env, w.trace, c, o.id);
      OwnedLater(env, w.trace, led.w.trace, c, o.id);
    }
    if led.Go? {
      var w2 := led.w.(index := Staged(led.w.index, about, Acked, Some(o.id)));
      SettlePassed(env, book, w2, about, o.id, o, sent.requested, Now(env, w2.trace), c);
      PassedTwice(env, book, w.trace, w2.trace, Settle(env, w2, about, o.id, o, sent.requested,
                                                       Now(env, w2.trace)).w.trace, c);
    }
  }

  lemma {:induction false} MaybePassed(env: Env, book: Book, w: World, about: Coid, sent: Sent, promised: bool, c: Coid)
    requires Guarantees(env, book) && Watched(env, book, w.trace, c) && (about == c ==> Tracked(w.trace, c).open)
    ensures Passed(env, book, w.trace, MaybePlaced(env, w, about, sent, promised).w.trace, c)
  {
    hide Watched, Guarantees, Gone, Acknowledge, DeclareUnknown, Deny, NoCreates, Tracked;
    var ev := OrderSent(about, SentNoAck, None, sent);
    LedPassed(env, book, w, ev, c);
    var led := Led(env, w, ev);
    if led.Go? {
      var w2 := led.w.(index := Staged(led.w.index, about, SentNoAck, None));
      DoPassed(env, book, w2, Lookup(about), c);
      var w3 := Do(env, w2, Lookup(about)).w;
      PassedTwice(env, book, w.trace, w2.trace, w3.trace, c);
      if about == c {
        LookedUp(env, book, w3.trace, c);
      }
      UnknownPassed(env, book, w3, about, None, c);
      PassedTwice(env, book, w.trace, w3.trace, DeclareUnknown(env, w3, about, None).w.trace, c);
      match env.lookup(w3.trace)
      case LookupRaised =>
      case NotFound =>
        DenyPassed(env, book, w3, BROKER_NEVER_ACCEPTED, Some(about), c);
        PassedTwice(env, book, w.trace, w3.trace, Deny(env, w3, BROKER_NEVER_ACCEPTED, Some(about)).w.trace, c);
      case Found(o) =>
        PlacedPassed(env, book, w3, about, sent, o, c);
        PassedTwice(env, book, w.trace, w3.trace, Acknowledge(env, w3, about, sent, o).w.trace, c);
    }
  }

  /** The answer to a lookup by client id. */
  lemma {:induction false} LookedUp(env: Env, book: Book, t: seq<Act>, c: Coid)
    requires Guarantees(env, book) && Watched(env, book, t, c) && t != [] && t[|t| - 1] == Lookup(c)
    ensures env.lookup(t).NotFound? ==> Gone(book, t, c)
    ensures env.lookup(t).Found? ==>
              Names(env, t, c, env.lookup(t).order.id) && (Over(env.lookup(t).order) ==> Gone(book, t, c))
  {
    hide Guarantees, Watched, Settled, Gone;
    TruthOf(env, book, t);
    if c !in book(t) {
      NotInBook(book, t, c);
    } else if env.lookup(t).Found? && Over(env.lookup(t).order) {
      SettledGone(env, book, t, c);
    }
  }

  /** The answer to a create. */
  lemma {:induction false} Created(env: Env, book: Book, t: seq<Act>, c: Coid, sent: Sent)
    requires Guarantees(env, book) && Watched(env, book, t, c)
    ensures var t' := t + [Create(c, sent)];
            && Watched(env, book, t', c) && Tracked(t', c).open
            && (env.create(t').Rejected? ==> Gone(book, t', c))
            && (env.create(t').Placed? ==>
                  Names(env, t', c, env.create(t').order.id) && (Over(env.create(t').order) ==> Gone(book, t', c)))
  {
    var t' := t + [Create(c, sent)];
    hide Guarantees, Watched, Accounted, Gone, Tracked, Settled;
    WatchedOne(env, book, t, Create(c, sent), c);
    TruthOf(env, book, t');
    assert t'[..|t|] == t;
    if env.create(t').Placed? && Over(env.create(t').order) {
      SettledGone(env, book, t', c);
    }
  }

  lemma {:induction false} NotInBook(book: Book, t: seq<Act>, c: Coid)
    ensures c !in book(t) ==> Gone(book, t, c)
  {
  }

  lemma {:induction false} SendWatched(env: Env, book: Book, w: World, about: Coid, sent: Sent, c: Coid)
    requires Guarantees(env, book) && Watched(env, book, w.trace, c)
    ensures Watched(env, book, Send(env, w, about, sent).w.trace, c)
  {
    hide Watched, Guarantees, Gone, Acknowledge, MaybePlaced, Deny, NoCreates, Tracked, H.Halted, Names, Over;
    var ev := OrderSent(about, WriteAhead, None, sent);
    LedPassed(env, book, w, ev, c);
    var led := Led(env, w, ev);
    if led.Go? {
      var w1 := led.w.(index := led.w.index[about := Rec(Some(WriteAhead), None, sent, false)]);
      var w2 := Do(env, w1, Create(about, sent)).w;
      if about == c {
        Created(env, book, w1.trace, c, sent);
      } else {
        WatchedOne(env, book, w1.trace, Create(about, sent), c);
      }
      MaybePassed(env, book, w2, about, sent, true, c);
      MaybePassed(env, book, w2, about, sent, false, c);
      match env.create(w2.trace)
      case Rejected => DenyPassed(env, book, w2, BROKER_REJECTED, Some(about), c);
      case Placed(o) => PlacedPassed(env, book, w2, about, sent, o, c);
      case MaybeSent =>
      case CreateRaised =>
    }
  }

  lemma {:induction false} ExecuteWatched(env: Env, book: Book, w: World, r: Request, c: Coid)
    requires Guarantees(env, book) && Watched(env, book, w.trace, c)
    ensures Watched(env, book, Execute(env, w, r).w.trace, c)
  {
    hide Watched, Guarantees, Send, Deny, CheckLimits, H.ActiveIn, NoCreates;
    forall w1: World, code | w1.trace == w.trace
      ensures Watched(env, book, Deny(env, w1, code, None).w.trace, c)
    {
      DenyPassed(env, book, w1, code, None, c);
    }
    if r.units.Some? {
      LimitsAside(env, w, r);
      SendWatched(env, book, CheckLimits(env, w, r).w, r.ClientId(), Sent(r.symbol, r.isExit, r.Base()), c);
    }
  }

  // ------------------------------------------------------------------ startup

  lemma {:induction false} NotedPassed(env: Env, book: Book, w: World, rep: Report, about: Coid, id: Option<string>,
                                       c: Coid)
    requires Guarantees(env, book) && Watched(env, book, w.trace, c)
    ensures Passed(env, book, w.trace, UnknownNoted(env, w, rep, about, id).w.trace, c)
  {
    hide Passed, Watched, Guarantees, DeclareUnknown;
    UnknownPassed(env, book, w, about, id, c);
  }

  lemma {:induction false} CanceledFoundPassed(env: Env, book: Book, w: World, rep: Report, about: Coid, id: string,
                                               requested: real, c: Coid)
    requires Guarantees(env, book) && Watched(env, book, w.trace, c) && (about == c ==> Owned(env, w.trace, c, id))
    ensures Passed(env, book, w.trace, CanceledFound(env, w, rep, about, id, requested).w.trace, c)
  {
    hide Watched, Guarantees, Gone, Owned, UnknownNoted, Finalize, Do, NoCreates;
    DoPassed(env, book, w, Cancel(id), c);
    var w1 := Do(env, w, Cancel(id)).w;
    NotedPassed(env, book, w1, rep, about, Some(id), c);
    PassedTwice(env, book, w.trace, w1.trace, UnknownNoted(env, w1, rep, about, Some(id)).w.trace, c);
    DoPassed(env, book, w1, Fetch(id), c);
    var w2 := Do(env, w1, Fetch(id)).w;
    PassedTwice(env, book, w.trace, w1.trace, w2.trace, c);
    OwnedLater(env, w.trace, w2.trace, c, id);
    NotedPassed(env, book, w2, rep, about, Some(id), c);
    PassedTwice(env, book, w.trace, w2.trace, UnknownNoted(env, w2, rep, about, Some(id)).w.trace, c);
    if env.fetch(w2.trace).Got? {
      FetchedGone(env, book, w2.trace, id, c);
      var o := env.fetch(w2.trace).order;
      FinalizePassed(env, book, w2, about, o, requested, c);
      PassedTwice(env, book, w.trace, w2.trace, Finalize(env, w2, about, o, requested).w.trace, c);
    }
  }

  lemma {:induction false} ReconcileFoundPassed(env: Env, book: Book, w: World, rep: Report, about: Coid, rec: Rec,
                                                o: Order, c: Coid)
    requires Guarantees(env, book) && Watched(env, book, w.trace, c)
    requires about == c ==> Owned(env, w.trace, c, o.id) && (Over(o) ==> Gone(book, w.trace, c))
    ensures Passed(env, book, w.trace, ReconcileFound(env, w, rep, about, rec, o).w.trace, c)
  {
    hide Passed, Watched, Guarantees, Gone, Owned, CanceledFound, Finalize, Led, Over;
    var requested := if rec.sent.requested != 0.0 then rec.sent.requested else o.filled;
    var w0 := if about in w.index then w.(index := w.index[about := w.index[about].(orderId := Some(o.id))]) else w;
    FinalizePassed(env, book, w0, about, o, requested, c);
    LedPassed(env, book, w0, LeftOpen(about, Some(o.id)), c);
    CanceledFoundPassed(env, book, w0, rep, about, o.id, requested, c);
  }

  lemma {:induction false} ReconcilePassed(env: Env, book: Book, w: World, rep0: Report, about: Coid, rec: Rec, c: Coid)
    requires Guarantees(env, book) && Watched(env, book, w.trace, c)
    requires about == c && Or(rec.orderId, None).Some? ==> Owned(env, w.trace, c, rec.orderId.value)
    ensures Passed(env, book, w.trace, Reconcile(env, w, rep0, about, rec).w.trace, c)
  {
    hide Watched, Guarantees, Gone, Owned, UnknownNoted, ReconcileFound, Do, Led, NoCreates, Names, Over;
    var rep := rep0.(pendingSeen := rep0.pendingSeen + 1);
    var worse := rep.(errors := rep.errors + 1);
    DoPassed(env, book, w, Lookup(about), c);
    var w1 := Do(env, w, Lookup(about)).w;
    if about == c {
      LookedUp(env, book, w1.trace, c);
    }
    match env.lookup(w1.trace)
    case Found(o) =>
      if about == c {
        OwnedNow(env, w1.trace, c, o.id);
      }
      ReconcileFoundPassed(env, book, w1, rep, about, rec, o, c);
      PassedTwice(env, book, w.trace, w1.trace, ReconcileFound(env, w1, rep, about, rec, o).w.trace, c);
    case NotFound =>
      LedPassed(env, book, w1, Resolved(about, rec.stage), c);
      PassedTwice(env, book, w.trace, w1.trace, Led(env, w1, Resolved(about, rec.stage)).w.trace, c);
    case LookupRaised =>
      NotedPassed(env, book, w1, worse, about, rec.orderId, c);
      PassedTwice(env, book, w.trace, w1.trace, UnknownNoted(env, w1, worse, about, rec.orderId).w.trace, c);
      if Or(rec.orderId, None).Some? {
        var id := rec.orderId.value;
        DoPassed(env, book, w1, Fetch(id), c);
        var w2 := Do(env, w1, Fetch(id)).w;
        PassedTwice(env, book, w.trace, w1.trace, w2.trace, c);
        OwnedLater(env, w.trace, w2.trace, c, id);
        NotedPassed(env, book, w2, worse, about, rec.orderId, c);
        PassedTwice(env, book, w.trace, w2.trace, UnknownNoted(env, w2, worse, about, rec.orderId).w.trace, c);
        if env.fetch(w2.trace).Got? {
          FetchedGone(env, book, w2.trace, id, c);
          ReconcileFoundPassed(env, book, w2, rep, about, rec, env.fetch(w2.trace).order, c);
          PassedTwice(env, book, w.trace, w2.trace,
                      ReconcileFound(env, w2, rep, about, rec, env.fetch(w2.trace).order).w.trace, c);
        }
      }
  }

  /** The ids that the list gives c are those of its latest create. */
  ghost predicate WellNamed(env: Env, t: seq<Act>, pending: seq<(Coid, Rec)>, c: Coid) {
    forall i :: 0 <= i < |pending| && pending[i].0 == c && Or(pending[i].1.orderId, None).Some? ==>
      Owned(env, t, c, pending[i].1.orderId.value)
  }

  lemma {:induction false} ReconcileAllPassed(env: Env, book: Book, w: World, rep: Report, pending: seq<(Coid, Rec)>,
                                              c: Coid)
    requires Guarantees(env, book) && Watched(env, book, w.trace, c) && WellNamed(env, w.trace, pending, c)
    ensures Passed(env, book, w.trace, ReconcileAll(env, w, rep, pending).w.trace, c)
    decreases |pending|
  {
    hide Watched, Guarantees, Owned, Reconcile, NoCreates;
    if pending == [] {
      PassedSelf(env, book, w.trace, c);
    } else {
      var init, last := pending[..|pending| - 1], pending[|pending| - 1];
      assert forall i :: 0 <= i < |init| ==> init[i] == pending[i];
      ReconcileAllPassed(env, book, w, rep, init, c);
      var before := ReconcileAll(env, w, rep, init);
      if before.Go? {
        if last.0 == c && Or(last.1.orderId, None).Some? {
          OwnedLater(env, w.trace, before.w.trace, c, last.1.orderId.value);
        }
        ReconcilePassed(env, book, before.w, before.v, last.0, last.1, c);
        PassedTwice(env, book, w.trace, before.w.trace, Reconcile(env, before.w, before.v, last.0, last.1).w.trace, c);
      }
    }
  }

  lemma {:induction false} StrangeWatched(env: Env, book: Book, w: World, rep: Report, ids: set<string>, symbol: string,
                                          o: Order, c: Coid)
    requires Guarantees(env, book) && Watched(env, book, w.trace, c)
    ensures Watched(env, book, Strange(env, w, rep, ids, symbol, o).w.trace, c)
  {
    hide Watched, Guarantees, UnknownNoted, Do, Known, NoCreates, Gone;
    NotedPassed(env, book, w, rep, Foreign(o.id), Some(o.id), c);
    DoPassed(env, book, w, Cancel(o.id), c);
    var w1 := Do(env, w, Cancel(o.id)).w;
    var rep1 := if env.fetch(w1.trace).Got? then rep.(canceled := rep.canceled + [Foreign(o.id)]) else rep;
    NotedPassed(env, book, w1, rep1, Foreign(o.id), Some(o.id), c);
  }

  lemma {:induction false} StrangeAllWatched(env: Env, book: Book, w: World, rep: Report, ids: set<string>,
                                             symbol: string, orders: seq<Order>, c: Coid)
    requires Guarantees(env, book) && Watched(env, book, w.trace, c)
    ensures Watched(env, book, StrangeAll(env, w, rep, ids, symbol, orders).w.trace, c)
    decreases |orders|
  {
    hide Watched, Guarantees, Strange;
    if orders != [] {
      var init := orders[..|orders| - 1];
      StrangeAllWatched(env, book, w, rep, ids, symbol, init, c);
      var before := StrangeAll(env, w, rep, ids, symbol, init);
      if before.Go? {
        StrangeWatched(env, book, before.w, before.v, ids, symbol, orders[|orders| - 1], c);
      }
    }
  }

  lemma {:induction false} SymbolsWatched(env: Env, book: Book, w: World, rep: Report, ids: set<string>,
                                          symbols: seq<string>, c: Coid)
    requires Guarantees(env, book) && Watched(env, book, w.trace, c)
    ensures Watched(env, book, Symbols(env, w, rep, ids, symbols).w.trace, c)
    decreases |symbols|
  {
    hide Watched, Guarantees, StrangeAll, Do, NoCreates, Gone;
    if symbols != [] {
      var init, last := symbols[..|symbols| - 1], symbols[|symbols| - 1];
      SymbolsWatched(env, book, w, rep, ids, init, c);
      var before := Symbols(env, w, rep, ids, init);
      if before.Go? {
        DoPassed(env, book, before.w, ListOpen(last), c);
        var did := Do(env, before.w, ListOpen(last));
        if did.Go? && env.list(did.w.trace).Listed? {
          StrangeAllWatched(env, book, did.w, before.v, ids, last, env.list(did.w.trace).orders, c);
        }
      }
    }
  }

  // ------------------------------------------------------------------ the ids in the ledger

  lemma {:induction false} IdFrom(t: seq<Act>, c: Coid, id: string)
    requires c in Rebuilt(t) && !Rebuilt(t)[c].terminal && Rebuilt(t)[c].orderId == Some(id)
    ensures exists m :: 0 <= m < |t| && Acknowledges(t[m], c) && t[m].ev.orderId == Some(id)
    decreases |t|
  {
    var init, last := t[..|t| - 1], t[|t| - 1];
    if Acknowledges(last, c) && last.ev.orderId == Some(id) {
      assert Acknowledges(t[|t| - 1], c);
    } else {
      IdFrom(init, c, id);
      var m :| 0 <= m < |init| && Acknowledges(init[m], c) && init[m].ev.orderId == Some(id);
      assert Acknowledges(t[m], c);
    }
  }

  lemma {:induction false} OpenStays(t: seq<Act>, m: nat, i: nat, c: Coid)
    requires m <= i <= |t| && Tracked(t[..m], c).open && !Tracked(t[..i], c).ever
    ensures Tracked(t[..i], c).open && !Tracked(t[..i], c).excused
    decreases i - m
  {
    NeverExcused(t[..i], c);
    if m < i {
      assert t[..i][..i - 1] == t[..i - 1];
      OpenStays(t, m, i - 1, c);
    }
  }

  lemma {:induction false} NeverExcused(t: seq<Act>, c: Coid)
    ensures Tracked(t, c).excused ==> Tracked(t, c).ever
    decreases |t|
  {
    if t != [] {
      NeverExcused(t[..|t| - 1], c);
    }
  }

  lemma {:induction false} EverStays(t: seq<Act>, i: nat, c: Coid)
    requires i <= |t| && Tracked(t[..i], c).ever
    ensures Tracked(t, c).ever
    decreases |t|
  {
    if i < |t| {
      assert t[..|t| - 1][..i] == t[..i];
      EverStays(t[..|t| - 1], i, c);
    } else {
      assert t[..i] == t;
    }
  }

  /** What the rebuilt index has pending carries the id of its latest create. */
  lemma {:induction false} PendingOwned(env: Env, book: Book, t: seq<Act>, c: Coid, id: string)
    requires Watched(env, book, t, c) && Guarded(t, c)
    requires Pending(Rebuilt(t), c) && Rebuilt(t)[c].orderId == Some(id)
    ensures Owned(env, t, c, id)
  {
    hide Names, Tracked, Rebuilt, Accounted;
    RebuiltTracks(t, c);
    IdFrom(t, c, id);
    var m :| 0 <= m < |t| && Acknowledges(t[m], c) && t[m].ev.orderId == Some(id);
    forall i | m <= i < |t|
      ensures !(t[i].Create? && t[i].coid == c)
    {
      if t[i].Create? && t[i].coid == c {
        if Tracked(t[..i], c).ever {
          EverStays(t, i, c);
        } else {
          OpenStays(t, m, i, c);
        }
        assert false;
      }
    }
  }

  lemma {:induction false} ListWellNamed(env: Env, book: Book, t: seq<Act>, cs: seq<Coid>, c: Coid)
    requires Watched(env, book, t, c) && Guarded(t, c)
    ensures WellNamed(env, t, PendingList(t, cs), c)
    decreases |cs|
  {
    hide Watched, Guarded, Owned, Rebuilt;
    if cs != [] {
      var last := cs[|cs| - 1];
      ListWellNamed(env, book, t, cs[..|cs| - 1], c);
      if last == c && Pending(Rebuilt(t), c) && Or(Rebuilt(t)[c].orderId, None).Some? {
        PendingOwned(env, book, t, c, Rebuilt(t)[c].orderId.value);
      }
    }
  }

  lemma {:induction false} StartupWatched(env: Env, book: Book, w: World, symbols: seq<string>, c: Coid)
    requires Guarantees(env, book) && Watched(env, book, w.trace, c) && Guarded(w.trace, c)
    ensures Watched(env, book, Startup(env, w, symbols).w.trace, c)
  {
    hide Watched, Guarantees, Guarded, ReconcileAll, Symbols, Led, FoundSomething, H.Clears, H.Halted, PendingList,
         Coids, Rebuilt, KnownIds, NoCreates, Gone, Owned;
    var w0 := w.(trace := w.trace + [Rebuild], index := Rebuilt(w.trace));
    var pending := PendingList(w.trace, Coids(w.trace));
    ListWellNamed(env, book, w.trace, Coids(w.trace), c);
    WatchedOne(env, book, w.trace, Rebuild, c);
    forall i | 0 <= i < |pending| && pending[i].0 == c && Or(pending[i].1.orderId, None).Some?
      ensures Owned(env, w0.trace, c, pending[i].1.orderId.value)
    {
      OwnedOne(env, w.trace, Rebuild, c, pending[i].1.orderId.value);
    }
    ReconcileAllPassed(env, book, w0, NO_REPORT, pending, c);
    var all := ReconcileAll(env, w0, NO_REPORT, pending);
    if all.Go? {
      SymbolsWatched(env, book, all.w, all.v, KnownIds(all.w.index), symbols, c);
      var listed := Symbols(env, all.w, all.v, KnownIds(all.w.index), symbols);
      if listed.Go? {
        LedPassed(env, book, listed.w, Summary, c);
      }
    }
  }

  // ------------------------------------------------------------------ whole runs

  lemma {:induction false} NothingLive(env: Env, book: Book, c: Coid)
    requires Guarantees(env, book)
    ensures Watched(env, book, [], c)
  {
    var none: seq<Act> := [];
    assert none[..0] == none;
  }

  lemma {:induction false} RunWatched(env: Env, book: Book, w: World, ops: seq<Op>, c: Coid)
    requires Virgin(w) && Guarantees(env, book) && AllWritten(env)
    ensures Watched(env, book, Run(env, w, ops).trace, c)
    decreases |ops|
  {
    hide Guarantees, Execute, Startup, H.Clears, Guarded, Watched;
    if ops == [] {
      NothingLive(env, book, c);
    } else {
      var before := Run(env, w, ops[..|ops| - 1]);
      RunWatched(env, book, w, ops[..|ops| - 1], c);
      RunSteady(env, w, ops[..|ops| - 1], c);
      match ops[|ops| - 1]
      case Exec(r) => ExecuteWatched(env, book, before, r, c);
      case Start(symbols) => StartupWatched(env, book, before, symbols, c);
      case Crash =>
      case ClearByHand =>
    }
  }

  /** A startup rebuilt the index while an attempt was open whose client id carried an older terminal entry. */
  ghost predicate Forgotten(t: seq<Act>, c: Coid) {
    exists r :: 0 <= r < |t| && t[r].Rebuild? && Tracked(t[..r], c).open && Tracked(t[..r], c).ever
  }

  lemma {:induction false} ExcusedForgets(t: seq<Act>, c: Coid)
    ensures Tracked(t, c).excused ==> Forgotten(t, c)
    decreases |t|
  {
    if t != [] {
      var init := t[..|t| - 1];
      ExcusedForgets(init, c);
      if Forgotten(init, c) {
        var r :| 0 <= r < |init| && init[r].Rebuild? && Tracked(init[..r], c).open && Tracked(init[..r], c).ever;
        assert t[..r] == init[..r] && t[r] == init[r];
      }
    }
  }

  lemma {:induction false} ForgottenLater(t: seq<Act>, n: nat, c: Coid)
    requires n <= |t| && Forgotten(t[..n], c)
    ensures Forgotten(t, c)
  {
    hide Tracked;
    var r :| 0 <= r < n && t[..n][r].Rebuild? && Tracked(t[..n][..r], c).open && Tracked(t[..n][..r], c).ever;
    assert t[..n][..r] == t[..r];
  }

  /** No double exposure at the broker: with an adapter that keeps its guarantees and while no append fails, whenever
      create_order is called, over any crashes and restarts, no order of that client id is live at the broker or can
      still become live - unless its state was declared unknown, or a startup had forgotten it because its client id
      carried an older terminal entry. */
  lemma {:induction false} NoDoubleExposure(env: Env, book: Book, w: World, ops: seq<Op>)
    requires Virgin(w) && Guarantees(env, book) && AllWritten(env)
    ensures var t := Run(env, w, ops).trace;
            forall j :: 0 <= j < |t| && t[j].Create? && t[j].coid in book(t[..j]) ==>
              DeclaredUnknown(t[..j], t[j].coid) || Forgotten(t[..j], t[j].coid)
  {
    hide Run, Guarantees, DeclaredUnknown, Forgotten, Watched, Guarded;
    var t := Run(env, w, ops).trace;
    forall j | 0 <= j < |t| && t[j].Create? && t[j].coid in book(t[..j])
      ensures DeclaredUnknown(t[..j], t[j].coid) || Forgotten(t[..j], t[j].coid)
    {
      RunWatched(env, book, w, ops, t[j].coid);
      RunSteady(env, w, ops, t[j].coid);
      LiveExplained(env, book, t, j, t[j].coid);
    }
  }

  lemma {:induction false} LiveExplained(env: Env, book: Book, t: seq<Act>, j: nat, c: Coid)
    requires Watched(env, book, t, c) && Guarded(t, c)
    requires j < |t| && t[j].Create? && t[j].coid == c && c in book(t[..j])
    ensures DeclaredUnknown(t[..j], c) || Forgotten(t[..j], c)
  {
    hide Tracked, DeclaredUnknown, Forgotten, Backed;
    assert Accounted(t[..j], c);
    if Tracked(t[..j], c).open {
      ExcusedForgets(t[..j], c);
    }
    if CreatedTwice(t[..j], c) {
      var i :| 0 <= i < j && t[..j][i].Create? && t[..j][i].coid == c && Tracked(t[..j][..i], c).open;
      assert t[..j][..i] == t[..i] && t[i] == t[..j][i];
      ExcusedForgets(t[..i], c);
      ForgottenLater(t[..j], i, c);
    }
  }

  /** An attempt that is open although its id has ended before was sent after that end. */
  lemma {:induction false} OpenAfterEnd(t: seq<Act>, c: Coid)
    requires Tracked(t, c).open && Tracked(t, c).ever
    ensures exists k, i :: 0 <= k < i < |t| && EndsIt(t[k], c) && t[i].Create? && t[i].coid == c
    decreases |t|
  {
    var n := |t| - 1;
    var init, last := t[..n], t[n];
    if last.Create? && last.coid == c {
      EverEnded(init, c);
      var k :| 0 <= k < |init| && EndsIt(init[k], c);
      assert EndsIt(t[k], c) && t[n].Create?;
    } else {
      OpenAfterEnd(init, c);
      var k, i :| 0 <= k < i < |init| && EndsIt(init[k], c) && init[i].Create? && init[i].coid == c;
      assert EndsIt(t[k], c) && t[i].Create?;
    }
  }

  lemma {:induction false} ForgottenReused(t: seq<Act>, j: nat, c: Coid)
    requires Ahead(t, c) && j <= |t| && Forgotten(t[..j], c)
    ensures !NotReused(t, c)
  {
    hide Tracked;
    var r :| 0 <= r < j && t[..j][r].Rebuild? && Tracked(t[..j][..r], c).open && Tracked(t[..j][..r], c).ever;
    assert t[..j][..r] == t[..r];
    OpenAfterEnd(t[..r], c);
    var k, i :| 0 <= k < i < r && EndsIt(t[..r][k], c) && t[..r][i].Create? && t[..r][i].coid == c;
    assert EndsIt(t[k], c) && t[i].Create? && t[i].coid == c;
    assert Logged(t[i - 1]) && About(t[i - 1].ev) == Some(c) && t[i - 1].ev.OrderSent?;
    assert !EndsIt(t[i - 1], c);
  }

  /** So for an id that is never reused after its terminal entry, there is a live order only behind a declaration of
      ignorance. */
  lemma {:induction false} LiveOnlyIfUnknown(env: Env, book: Book, w: World, ops: seq<Op>)
    requires Virgin(w) && Guarantees(env, book) && AllWritten(env)
    ensures var t := Run(env, w, ops).trace;
            forall j :: 0 <= j < |t| && t[j].Create? && NotReused(t, t[j].coid) && t[j].coid in book(t[..j]) ==>
              DeclaredUnknown(t[..j], t[j].coid)
  {
    hide Run, Guarantees, DeclaredUnknown, Forgotten, NotReused, Ahead;
    var t := Run(env, w, ops).trace;
    NoDoubleExposure(env, book, w, ops);
    forall j | 0 <= j < |t| && t[j].Create? && NotReused(t, t[j].coid) && t[j].coid in book(t[..j])
      ensures DeclaredUnknown(t[..j], t[j].coid)
    {
      RunSteady(env, w, ops, t[j].coid);
      if Forgotten(t[..j], t[j].coid) {
        ForgottenReused(t, j, t[j].coid);
      }
    }
  }
}
