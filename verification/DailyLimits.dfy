/** Daily limits: one sealed file of counters, rolled over when the clock's day has moved past the
    stored one, read by every entry and written by every fill. Days are numbered, amounts are reals. */
module DailyLimits {
  import opened Options
  import opened StateFiles

  /** None means not enforced; no worst-case fee means an unknown fee makes the day unverified. */
  datatype Limits = Limits(maxTrades: Option<int>, maxLoss: Option<real>, maxNotional: Option<real>,
                           worstFeeBps: Option<real>)

  datatype Stats = Stats(day: int, trades: int, filled: real, gross: real, fees: real, estimated: int,
                         unverified: bool) {
    function Net(): real { gross - fees }
  }

  function Blank(day: int): Stats { Stats(day, 0, 0.0, 0.0, 0.0, 0, false) }

  /** What the file holds when it is a sealed JSON object: required keys missing, a field of the wrong type
      or not finite, or the counters. */
  datatype Doc = KeyMissing | Malformed | Counters(stats: Stats)

  type StatsFile = Content<Doc>

  datatype Status = Ok | NoFile | Unusable | KeysMissing | ClockBackwards

  datatype Loaded = Loaded(status: Status, stats: Option<Stats>, file: StatsFile, reset: Option<Stats>)

  /** `_load`: the counters of the stored day; an older day is rolled over on the spot, and `reset` is what the
      ledger is asked to keep of it. */
  function LoadDone(c: StatsFile, me: Ident, today: int): Loaded {
    match c
    case Absent => Loaded(NoFile, None, c, None)
    case Unreadable => Loaded(Unusable, None, c, None)
    case Stored(KeyMissing, _) => Loaded(KeysMissing, None, c, None)
    case Stored(Malformed, _) => Loaded(Unusable, None, c, None)
    case Stored(Counters(st), _) =>
      if st.day > today then Loaded(ClockBackwards, Some(st), c, None)
      else if st.day < today then
        Loaded(Ok, Some(Blank(today)), Stored(Counters(Blank(today)), NextSeal(c, me)), Some(st))
      else Loaded(Ok, Some(st), c, None)
  }

  datatype Code =
    | DAILY_STATS_UNREADABLE | DAILY_STATS_KEY_MISSING | DAILY_STATS_CLOCK_BACKWARDS
    | DAILY_FEES_UNVERIFIED | DAILY_MAX_NOTIONAL | DAILY_MAX_TRADES | DAILY_LOSS_LIMIT

  datatype Verdict = Allowed | Denied(code: Code)

  function Abs(x: real): real { if x < 0.0 then -x else x }

  /** The limits an entry of `usd` dollars meets on the counters `st`. */
  function Judge(lim: Limits, st: Stats, usd: real): Verdict {
    if st.unverified then Denied(DAILY_FEES_UNVERIFIED)
    else if lim.maxNotional.Some? && usd > lim.maxNotional.value then Denied(DAILY_MAX_NOTIONAL)
    else if lim.maxTrades.Some? && st.trades >= lim.maxTrades.value then Denied(DAILY_MAX_TRADES)
    else if lim.maxLoss.Some? && st.Net() <= -Abs(lim.maxLoss.value) then Denied(DAILY_LOSS_LIMIT)
    else Allowed
  }

  /** `check` for an entry; `today2` is the second clock reading, taken when there is no file. */
  function CheckVerdict(lim: Limits, c: StatsFile, me: Ident, today: int, today2: int, usd: real): Verdict {
    var l := LoadDone(c, me, today);
    match l.status
    case Unusable => Denied(DAILY_STATS_UNREADABLE)
    case KeysMissing => Denied(DAILY_STATS_KEY_MISSING)
    case ClockBackwards => Denied(DAILY_STATS_CLOCK_BACKWARDS)
    case NoFile => Judge(lim, Blank(today2), usd)
    case Ok => Judge(lim, l.stats.value, usd)
  }

  /** What a fill charges: its fee, the worst case when the fee is unknown, or nothing when neither is known. */
  function FeeCharged(lim: Limits, usd: real, fee: Option<real>): real {
    if fee.Some? then Abs(fee.value) else if lim.worstFeeBps.Some? then usd * lim.worstFeeBps.value / 10000.0 else 0.0
  }

  /** What a fill adds; one whose fee is not known and cannot be estimated makes the day unverified. */
  function WithFill(lim: Limits, st: Stats, usd: real, fee: Option<real>): Stats {
    Stats(st.day, st.trades + 1, st.filled + usd, st.gross, st.fees + FeeCharged(lim, usd, fee),
          if fee.None? && lim.worstFeeBps.Some? then st.estimated + 1 else st.estimated,
          st.unverified || (fee.None? && lim.worstFeeBps.None?))
  }

  function WithPnl(st: Stats, pnl: real): Stats { st.(gross := st.gross + pnl) }

  /** What a record call writes over the loaded counters; None when there are none to write to. A clock that went
      backwards still records, on the stored day. */
  function Record(c: StatsFile, me: Ident, today: int, today2: int, change: Stats -> Stats): Option<StatsFile> {
    var l := LoadDone(c, me, today);
    match l.status
    case Unusable => None
    case KeysMissing => None
    case NoFile => Some(Stored(Counters(change(Blank(today2))), NextSeal(l.file, me)))
    case Ok => Some(Stored(Counters(change(l.stats.value)), NextSeal(l.file, me)))
    case ClockBackwards => Some(Stored(Counters(change(l.stats.value)), NextSeal(l.file, me)))
  }

  function RecordFillDone(lim: Limits, c: StatsFile, me: Ident, today: int, today2: int, usd: real, fee: Option<real>):
      Option<StatsFile> {
    if usd < 0.0 then None else Record(c, me, today, today2, st => WithFill(lim, st, usd, fee))
  }

  function RecordPnlDone(c: StatsFile, me: Ident, today: int, today2: int, pnl: real): Option<StatsFile> {
    Record(c, me, today, today2, st => WithPnl(st, pnl))
  }

  /** A rollover replaces the file first and appends DAILY_STATS_RESET after that. The entry is written, or its
      append fails and the failure is swallowed, or the process dies before it or right behind it. */
  datatype ResetFate = Entered | Missed | DiedBefore | DiedAfter

  predicate Logs(f: ResetFate) { f.Entered? || f.DiedAfter? }

  predicate Kills(f: ResetFate) { f.DiedBefore? || f.DiedAfter? }

  /** A call on DailyLimits with the clock readings it gets, and what becomes of its rollover's entry, if it makes
      one; `actual` is the fee the broker really took. */
  datatype Call =
    | Check(usd: real, today: int, today2: int, fate: ResetFate)
    | RecordFill(usd: real, fee: Option<real>, actual: real, today: int, today2: int, fate: ResetFate)
    | RecordPnl(pnl: real, today: int, today2: int, fate: ResetFate)

  /** A negative fill is refused before the file is read. */
  predicate Loads(call: Call) { call.RecordFill? ==> call.usd >= 0.0 }

  /** The process dies in the rollover, so nothing else of the call happens. */
  predicate Cut(c: StatsFile, me: Ident, call: Call) { LoadDone(c, me, call.today).reset.Some? && Kills(call.fate) }

  function CallDone(lim: Limits, me: Ident, c: StatsFile, call: Call): StatsFile {
    if !Loads(call) then c
    else
      var loaded := LoadDone(c, me, call.today).file;
      if Cut(c, me, call) then loaded
      else
        match call
        case Check(_, _, _, _) => loaded
        case RecordFill(usd, fee, _, today, today2, _) =>
          var w := RecordFillDone(lim, c, me, today, today2, usd, fee); if w.Some? then w.value else loaded
        case RecordPnl(pnl, today, today2, _) =>
          var w := RecordPnlDone(c, me, today, today2, pnl); if w.Some? then w.value else loaded
  }

  /** The entry a call leaves in the ledger. */
  function Logged(c: StatsFile, me: Ident, call: Call): seq<Stats> {
    var l := LoadDone(c, me, call.today);
    if Loads(call) && l.reset.Some? && Logs(call.fate) then [l.reset.value] else []
  }

  class DailyLimiter {
    const limits: Limits
    const ident: Ident
    const clock: nat -> int
    const fates: nat -> ResetFate
    var file: StatsFile
    var readings: nat
    var rolls: nat
    var resets: seq<Stats>

    constructor (limits: Limits, ident: Ident, clock: nat -> int, fates: nat -> ResetFate, file: StatsFile)
      ensures this.limits == limits && this.ident == ident && this.clock == clock && this.fates == fates
      ensures this.file == file && readings == 0 && rolls == 0 && resets == []
    {
      this.limits, this.ident, this.clock, this.fates := limits, ident, clock, fates;
      this.file, readings, rolls, resets := file, 0, 0, [];
    }

    method Today() returns (day: int)
      modifies this`readings
      ensures day == clock(old(readings)) && readings == old(readings) + 1
    {
      day := clock(readings);
      readings := readings + 1;
    }

    /** `_load`. A rollover replaces the file, and only then appends its entry; a failed append is swallowed. */
    method Load() returns (r: Ran<(Status, Option<Stats>)>)
      modifies this
      ensures var l := LoadDone(old(file), ident, clock(old(readings)));
              var fate := fates(old(rolls));
              && file == l.file
              && resets == old(resets) + (if l.reset.Some? && Logs(fate) then [l.reset.value] else [])
              && r == (if l.reset.Some? && Kills(fate) then Died else Returned((l.status, l.stats)))
      ensures readings == old(readings) + 1
    {
      var today := Today();
      if file.Absent? { return Returned((NoFile, None)); }
      if file.Unreadable? || file.data.Malformed? { return Returned((Unusable, None)); }
      if file.data.KeyMissing? { return Returned((KeysMissing, None)); }
      var st := file.data.stats;
      if st.day > today { return Returned((ClockBackwards, Some(st))); }
      if st.day < today {
        file := Stored(Counters(Blank(today)), NextSeal(file, ident));
        var fate := fates(rolls);
        rolls := rolls + 1;
        if fate.DiedBefore? { return Died; }
        if !fate.Missed? { resets := resets + [st]; }
        if fate.DiedAfter? { return Died; }
        return Returned((Ok, Some(Blank(today))));
      }
      return Returned((Ok, Some(st)));
    }

    /** An exit is allowed without a look at the file; an entry is judged, and may roll the day over. */
    method Check(isExit: bool, usd: real) returns (r: Ran<Verdict>)
      modifies this
      ensures isExit ==> r == Returned(Allowed) && file == old(file) && resets == old(resets)
      ensures !isExit ==>
                var today, today2 := clock(old(readings)), clock(old(readings) + 1);
                var call := Call.Check(usd, today, today2, fates(old(rolls)));
                && file == CallDone(limits, ident, old(file), call)
                && resets == old(resets) + Logged(old(file), ident, call)
                && r == (if Cut(old(file), ident, call) then Died
                         else Returned(CheckVerdict(limits, old(file), ident, today, today2, usd)))
    {
      if isExit { return Returned(Allowed); }
      var loaded := Load();
      if loaded.Died? { return Died; }
      var (status, stats) := loaded.value;
      match status
      case Unusable => return Returned(Denied(DAILY_STATS_UNREADABLE));
      case KeysMissing => return Returned(Denied(DAILY_STATS_KEY_MISSING));
      case ClockBackwards => return Returned(Denied(DAILY_STATS_CLOCK_BACKWARDS));
      case NoFile =>
        var today2 := Today();
        r := Returned(Judge(limits, Blank(today2), usd));
      case Ok => r := Returned(Judge(limits, stats.value, usd));
    }

    /** `_current_for_write`: None stands for the exception over unusable counters. */
    method CurrentForWrite() returns (r: Ran<Option<Stats>>)
      modifies this
      ensures var l := LoadDone(old(file), ident, clock(old(readings)));
              var fate := fates(old(rolls));
              && file == l.file
              && resets == old(resets) + (if l.reset.Some? && Logs(fate) then [l.reset.value] else [])
              && r == (if l.reset.Some? && Kills(fate) then Died
                       else Returned(if l.status.NoFile? then Some(Blank(clock(old(readings) + 1))) else l.stats))
    {
      var loaded := Load();
      if loaded.Died? { return Died; }
      var (status, stats) := loaded.value;
      if status.NoFile? {
        var today2 := Today();
        return Returned(Some(Blank(today2)));
      }
      return Returned(stats);
    }

    method RecordFill(usd: real, fee: Option<real>) returns (r: Ran<()>)
      modifies this
      ensures var today, today2 := clock(old(readings)), clock(old(readings) + 1);
              var call := Call.RecordFill(usd, fee, 0.0, today, today2, fates(old(rolls)));
              && file == CallDone(limits, ident, old(file), call)
              && resets == old(resets) + Logged(old(file), ident, call)
              && r == (if Loads(call) && Cut(old(file), ident, call) then Died
                       else if RecordFillDone(limits, old(file), ident, today, today2, usd, fee).Some? then Returned(())
                       else Raised)
    {
      if usd < 0.0 { return Raised; }
      var current := CurrentForWrite();
      if current.Died? { return Died; }
      if current.value.None? { return Raised; }
      var st := current.value.value;
      var fees, estimated, unverified := st.fees, st.estimated, st.unverified;
      if fee.None? {
        if limits.worstFeeBps.Some? {
          fees := fees + usd * limits.worstFeeBps.value / 10000.0;
          estimated := estimated + 1;
        } else {
          unverified := true;
        }
      } else {
        fees := fees + Abs(fee.value);
      }
      var next := Stats(st.day, st.trades + 1, st.filled + usd, st.gross, fees, estimated, unverified);
      assert next == WithFill(limits, st, usd, fee);
      file := Stored(Counters(next), NextSeal(file, ident));
      r := Returned(());
    }

    method RecordPnl(pnl: real) returns (r: Ran<()>)
      modifies this
      ensures var today, today2 := clock(old(readings)), clock(old(readings) + 1);
              var call := Call.RecordPnl(pnl, today, today2, fates(old(rolls)));
              && file == CallDone(limits, ident, old(file), call)
              && resets == old(resets) + Logged(old(file), ident, call)
              && r == (if Cut(old(file), ident, call) then Died
                       else if RecordPnlDone(old(file), ident, today, today2, pnl).Some? then Returned(()) else Raised)
    {
      var current := CurrentForWrite();
      if current.Died? { return Died; }
      if current.value.None? { return Raised; }
      var st := current.value.value;
      file := Stored(Counters(st.(gross := st.gross + pnl)), NextSeal(file, ident));
      r := Returned(());
    }
  }

  // ------------------------------------------------------------------ commits: what changes the file

  /** The three ways the file changes, each one sealed write; a rollover with whether its entry reaches the ledger. */
  datatype Commit =
    | Roll(today: int, logged: bool)
    | Fill(usd: real, fee: Option<real>, today: int)
    | Pnl(pnl: real, today: int)

  /** The counters as conservation sees them: no file counts nothing. */
  datatype Book = Empty | Open(stats: Stats) | Damaged

  function View(c: StatsFile): Book {
    match c
    case Absent => Empty
    case Stored(Counters(st), _) => Open(st)
    case _ => Damaged
  }

  /** When a process issues the commit: a rollover over an older day, a record over usable counters. */
  predicate Ready(b: Book, d: Commit) {
    if d.Roll? then b.Open? && b.stats.day < d.today else !b.Damaged?
  }

  function Apply(lim: Limits, b: Book, d: Commit): Stats
    requires Ready(b, d)
  {
    match d
    case Roll(today, _) => Blank(today)
    case Fill(usd, fee, today) => WithFill(lim, if b.Open? then b.stats else Blank(today), usd, fee)
    case Pnl(pnl, today) => WithPnl(if b.Open? then b.stats else Blank(today), pnl)
  }

  datatype Sum = Sum(trades: int, filled: real, fees: real, gross: real) {
    function Plus(o: Sum): Sum { Sum(trades + o.trades, filled + o.filled, fees + o.fees, gross + o.gross) }
  }

  const ZERO := Sum(0, 0.0, 0.0, 0.0)

  function SumOf(st: Stats): Sum { Sum(st.trades, st.filled, st.fees, st.gross) }

  /** The day the book stands at, and what is in it. */
  function Current(b: Book): seq<Stats> { if b.Open? then [b.stats] else [] }

  function InBook(b: Book): Sum { if b.Open? then SumOf(b.stats) else ZERO }

  /** What one successful record call is worth. */
  function Worth(lim: Limits, d: Commit): Sum {
    match d
    case Roll(_, _) => ZERO
    case Fill(usd, fee, _) => Sum(1, usd, FeeCharged(lim, usd, fee), 0.0)
    case Pnl(pnl, _) => Sum(0, 0.0, 0.0, pnl)
  }

  function Total(days: seq<Stats>): Sum {
    if days == [] then ZERO else Total(days[..|days| - 1]).Plus(SumOf(days[|days| - 1]))
  }

  /** The book; the `previous` of each DAILY_STATS_RESET entry in the ledger; the days rolled out of the book whose
      entry is not there; and everything recorded. A commit that is not ready was not issued. */
  datatype Account = Account(book: Book, resets: seq<Stats>, lost: seq<Stats>, recorded: Sum)

  function Post(lim: Limits, a: Account, d: Commit): Account {
    if !Ready(a.book, d) then a
    else Account(Open(Apply(lim, a.book, d)),
                 if d.Roll? && d.logged then a.resets + [a.book.stats] else a.resets,
                 if d.Roll? && !d.logged then a.lost + [a.book.stats] else a.lost,
                 a.recorded.Plus(Worth(lim, d)))
  }

  function PostAll(lim: Limits, a: Account, ds: seq<Commit>): Account {
    if ds == [] then a else Post(lim, PostAll(lim, a, ds[..|ds| - 1]), ds[|ds| - 1])
  }

  function Opening(b: Book): Account { Account(b, [], [], ZERO) }

  /** The reset entries, the lost days and the book are `first` plus everything recorded. */
  predicate Accounted(a: Account, first: Sum) {
    !a.book.Damaged? && Total(a.resets + a.lost + Current(a.book)) == first.Plus(a.recorded)
  }

  /** What the ledger and the file alone add up to. */
  predicate Balanced(a: Account, first: Sum) {
    Total(a.resets + Current(a.book)) == first.Plus(a.recorded)
  }

  lemma {:induction false} TotalOne(days: seq<Stats>, st: Stats)
    ensures Total(days + [st]) == Total(days).Plus(SumOf(st))
  {
    assert (days + [st])[..|days|] == days;
  }

  lemma {:induction false} TotalPlus(days: seq<Stats>, more: seq<Stats>)
    ensures Total(days + more) == Total(days).Plus(Total(more))
    decreases |more|
  {
    if more == [] {
      assert days + more == days;
    } else {
      TotalPlus(days, more[..|more| - 1]);
      assert (days + more)[..|days + more| - 1] == days + more[..|more| - 1];
    }
  }

  /** The days apart. */
  lemma {:induction false} TotalParts(resets: seq<Stats>, lost: seq<Stats>, b: Book)
    ensures Total(resets + lost + Current(b)) == Total(resets).Plus(Total(lost)).Plus(InBook(b))
    ensures Total(resets + Current(b)) == Total(resets).Plus(InBook(b))
  {
    assert resets + [] == resets && resets + lost + [] == resets + lost;
    hide Total;
    TotalPlus(resets, lost);
    if b.Open? {
      TotalOne(resets + lost, b.stats);
      TotalOne(resets, b.stats);
    }
  }

  lemma {:induction false} PostAccounted(lim: Limits, a: Account, d: Commit, first: Sum)
    requires Accounted(a, first)
    ensures Accounted(Post(lim, a, d), first)
  {
    hide FeeCharged, Total, Current;
    TotalParts(a.resets, a.lost, a.book);
    TotalParts(Post(lim, a, d).resets, Post(lim, a, d).lost, Post(lim, a, d).book);
    if d.Roll? && Ready(a.book, d) {
      TotalOne(a.resets, a.book.stats);
      TotalOne(a.lost, a.book.stats);
    }
  }

  /** Conservation across rollovers: commits of any kind, in any order, account for every trade, dollar, fee and
      gross dollar recorded: it is in the book, in a reset entry, or in a day whose entry was lost. */
  lemma {:induction false} Conservation(lim: Limits, a: Account, ds: seq<Commit>, first: Sum)
    requires Accounted(a, first)
    ensures Accounted(PostAll(lim, a, ds), first)
    decreases |ds|
  {
    if ds != [] {
      hide Post, Accounted;
      Conservation(lim, a, ds[..|ds| - 1], first);
      PostAccounted(lim, PostAll(lim, a, ds[..|ds| - 1]), ds[|ds| - 1], first);
    }
  }

  lemma {:induction false} NoDays()
    ensures Total([]) == ZERO
  {
  }

  lemma {:induction false} TotalTrades(days: seq<Stats>)
    requires forall i :: 0 <= i < |days| ==> days[i].trades >= 1
    ensures Total(days).trades >= |days|
    decreases |days|
  {
    if days != [] {
      TotalTrades(days[..|days| - 1]);
    }
  }

  /** The sum over the DAILY_STATS_RESET entries plus the file is everything recorded exactly if the lost days add up
      to nothing; so if on each of them something was traded, exactly if no day was lost. */
  lemma {:induction false} BalancedIffNothingLost(a: Account, first: Sum)
    requires Accounted(a, first)
    ensures Balanced(a, first) <==> Total(a.lost) == ZERO
    ensures (forall i :: 0 <= i < |a.lost| ==> a.lost[i].trades >= 1) ==> (Balanced(a, first) <==> a.lost == [])
  {
    hide Total, InBook, Current;
    TotalParts(a.resets, a.lost, a.book);
    NoDays();
    if forall i :: 0 <= i < |a.lost| ==> a.lost[i].trades >= 1 {
      TotalTrades(a.lost);
    }
  }

  /** The stored day never goes back; within a day the trade count never falls and `unverified` is sticky. */
  ghost predicate Later(b: Book, b': Book) {
    b.Open? ==> b'.Open? && b.stats.day <= b'.stats.day
                && (b.stats.day == b'.stats.day ==>
                      b.stats.trades <= b'.stats.trades && (b.stats.unverified ==> b'.stats.unverified))
  }

  lemma {:induction false} OnlyForward(lim: Limits, a: Account, ds: seq<Commit>)
    ensures Later(a.book, PostAll(lim, a, ds).book)
    decreases |ds|
  {
    if ds != [] {
      OnlyForward(lim, a, ds[..|ds| - 1]);
    }
  }

  // ------------------------------------------------------------------ one process, any clock

  function Run(lim: Limits, me: Ident, c: StatsFile, calls: seq<Call>): StatsFile {
    if calls == [] then c else CallDone(lim, me, Run(lim, me, c, calls[..|calls| - 1]), calls[|calls| - 1])
  }

  /** The commits one call makes: a rollover if the clock is past the stored day, then its own record, unless the
      process dies in the rollover. */
  function Commits(b: Book, call: Call): seq<Commit> {
    if !Loads(call) || b.Damaged? then []
    else
      var rolls := if b.Open? && b.stats.day < call.today then [Roll(call.today, Logs(call.fate))] else [];
      if rolls != [] && Kills(call.fate) then rolls
      else
        match call
        case Check(_, _, _, _) => rolls
        case RecordFill(usd, fee, _, _, today2, _) => rolls + [Fill(usd, fee, today2)]
        case RecordPnl(pnl, _, today2, _) => rolls + [Pnl(pnl, today2)]
  }

  lemma {:induction false} PostFew(lim: Limits, a: Account, ds: seq<Commit>)
    ensures ds == [] ==> PostAll(lim, a, ds) == a
    ensures |ds| == 1 ==> PostAll(lim, a, ds) == Post(lim, a, ds[0])
    ensures |ds| == 2 ==> PostAll(lim, a, ds) == Post(lim, Post(lim, a, ds[0]), ds[1])
  {
    hide Post;
    if |ds| == 1 {
      assert ds[..0] == [];
    } else if |ds| == 2 {
      assert ds[..1] == [ds[0]] && [ds[0]][..0] == [];
      assert PostAll(lim, a, ds[..1]) == Post(lim, a, ds[0]);
    }
  }

  lemma {:induction false} CallCommits(lim: Limits, me: Ident, c: StatsFile, call: Call, a: Account)
    requires a.book == View(c)
    ensures View(CallDone(lim, me, c, call)) == PostAll(lim, a, Commits(View(c), call)).book
  {
    hide PostAll, WithFill, WithPnl;
    PostFew(lim, a, Commits(View(c), call));
  }

  /** The accounts of a whole run of calls. */
  function Accounts(lim: Limits, me: Ident, c: StatsFile, calls: seq<Call>): Account {
    if calls == [] then Opening(View(c))
    else
      var before := calls[..|calls| - 1];
      PostAll(lim, Accounts(lim, me, c, before), Commits(View(Run(lim, me, c, before)), calls[|calls| - 1]))
  }

  /** The DAILY_STATS_RESET entries a run of calls leaves in the ledger. */
  function Resets(lim: Limits, me: Ident, c: StatsFile, calls: seq<Call>): seq<Stats> {
    if calls == [] then []
    else
      var before := calls[..|calls| - 1];
      Resets(lim, me, c, before) + Logged(Run(lim, me, c, before), me, calls[|calls| - 1])
  }

  /** The call rolls a day over whose entry does not reach the ledger. */
  predicate LosesDay(c: StatsFile, me: Ident, call: Call)
    ensures LosesDay(c, me, call) ==> View(c).Open?
  {
    Loads(call) && LoadDone(c, me, call.today).reset.Some? && !Logs(call.fate)
  }

  ghost predicate NoDayLost(lim: Limits, me: Ident, c: StatsFile, calls: seq<Call>) {
    forall i :: 0 <= i < |calls| ==> !LosesDay(Run(lim, me, c, calls[..i]), me, calls[i])
  }

  lemma {:induction false} NoDayLostOne(lim: Limits, me: Ident, c: StatsFile, calls: seq<Call>)
    requires calls != []
    ensures var n := |calls| - 1;
            NoDayLost(lim, me, c, calls) <==>
            NoDayLost(lim, me, c, calls[..n]) && !LosesDay(Run(lim, me, c, calls[..n]), me, calls[n])
  {
    hide Run, LosesDay;
    var n := |calls| - 1;
    assert forall i :: 0 <= i < n ==> calls[..n][..i] == calls[..i] && calls[..n][i] == calls[i];
  }

  lemma {:induction false} CallLogs(lim: Limits, me: Ident, c: StatsFile, call: Call, a: Account)
    requires a.book == View(c)
    ensures var a' := PostAll(lim, a, Commits(View(c), call));
            && a'.resets == a.resets + Logged(c, me, call)
            && a'.lost == a.lost + (if LosesDay(c, me, call) then [a.book.stats] else [])
  {
    hide PostAll, WithFill, WithPnl, Worth;
    PostFew(lim, a, Commits(View(c), call));
  }

  /** Any run of checks and records, under any clock, backwards included, with any appends failing and any processes
      dying in a rollover: the accounts follow the file and the ledger, they add up, nothing is lost exactly if the
      entry of every rollover was written, and the stored day only moves forward. */
  lemma {:induction false} RunAccounted(lim: Limits, me: Ident, c: StatsFile, calls: seq<Call>)
    requires !View(c).Damaged?
    ensures var a := Accounts(lim, me, c, calls);
            && a.book == View(Run(lim, me, c, calls))
            && a.resets == Resets(lim, me, c, calls)
            && Accounted(a, InBook(View(c)))
            && (a.lost == [] <==> NoDayLost(lim, me, c, calls))
            && Later(View(c), a.book)
    decreases |calls|
  {
    if calls == [] {
      EmptyAccounted(View(c));
    } else {
      hide Commits, CallDone, View, Accounted, Later, PostAll, InBook, LosesDay, Logged, NoDayLost;
      var before, last := calls[..|calls| - 1], calls[|calls| - 1];
      RunAccounted(lim, me, c, before);
      var a := Accounts(lim, me, c, before);
      var at := Run(lim, me, c, before);
      CallCommits(lim, me, at, last, a);
      CallLogs(lim, me, at, last, a);
      Conservation(lim, a, Commits(View(at), last), InBook(View(c)));
      OnlyForward(lim, a, Commits(View(at), last));
      LaterTwice(View(c), a.book, PostAll(lim, a, Commits(View(at), last)).book);
      NoDayLostOne(lim, me, c, calls);
    }
  }

  /** What the ledger's reset entries and the file add up to after any such run: everything recorded, exactly if the
      days whose entry was lost add up to nothing; and certainly if every rollover's entry was written. */
  lemma {:induction false} RunBalanced(lim: Limits, me: Ident, c: StatsFile, calls: seq<Call>)
    requires !View(c).Damaged?
    ensures var a := Accounts(lim, me, c, calls);
            var kept := Total(Resets(lim, me, c, calls) + Current(View(Run(lim, me, c, calls))));
            && (kept == InBook(View(c)).Plus(a.recorded) <==> Total(a.lost) == ZERO)
            && (NoDayLost(lim, me, c, calls) ==> kept == InBook(View(c)).Plus(a.recorded))
  {
    hide Total, InBook, Accounted, NoDayLost, View, Run, Resets, Accounts;
    RunAccounted(lim, me, c, calls);
    BalancedIffNothingLost(Accounts(lim, me, c, calls), InBook(View(c)));
    NoDays();
  }

  /** One rollover whose entry does not reach the ledger, over a day with a trade, breaks the balance: no entry
      holds the day and the file has forgotten it. */
  lemma {:induction false} ResetLost(lim: Limits, me: Ident, c: StatsFile, call: Call)
    requires LosesDay(c, me, call) && View(c).stats.trades >= 1
    ensures Resets(lim, me, c, [call]) == [] && !Balanced(Accounts(lim, me, c, [call]), InBook(View(c)))
  {
    hide Total, CallDone, PostAll, Commits, InBook, Balanced, Accounted;
    assert [call][..0] == [];
    assert Accounts(lim, me, c, []) == Opening(View(c)) && Run(lim, me, c, []) == c && Resets(lim, me, c, []) == [];
    RunAccounted(lim, me, c, [call]);
    CallLogs(lim, me, c, call, Opening(View(c)));
    BalancedIffNothingLost(Accounts(lim, me, c, [call]), InBook(View(c)));
  }

  lemma {:induction false} EmptyAccounted(b: Book)
    requires !b.Damaged?
    ensures Accounted(Opening(b), InBook(b)) && Later(b, b)
  {
    hide Total, Current, InBook;
    TotalParts(Opening(b).resets, Opening(b).lost, b);
    NoDays();
  }

  lemma {:induction false} LaterTwice(a: Book, b: Book, c: Book)
    ensures Later(a, b) && Later(b, c) ==> Later(a, c)
  {
  }

  /** Entries stay denied on the stored day `day`. */
  ghost predicate Closed(lim: Limits, b: Book, day: Option<int>) {
    || (day.Some? && b.Open?
        && (b.stats.day > day.value
            || (b.stats.day == day.value
                && (b.stats.unverified || (lim.maxTrades.Some? && b.stats.trades >= lim.maxTrades.value)))))
    || (day.None? && lim.maxTrades.Some? && lim.maxTrades.value <= 0 && (b.Open? ==> b.stats.trades >= 0)
        && !b.Damaged?)
  }

  lemma {:induction false} RunClosed(lim: Limits, me: Ident, c: StatsFile, calls: seq<Call>, day: Option<int>)
    requires Closed(lim, View(c), day)
    ensures Closed(lim, View(Run(lim, me, c, calls)), day)
    decreases |calls|
  {
    if calls != [] {
      hide Closed, CallDone, View;
      RunClosed(lim, me, c, calls[..|calls| - 1], day);
    }
  }

  /** Two denials are final for the day: after DAILY_MAX_TRADES or DAILY_FEES_UNVERIFIED every later entry is
      denied, whatever is recorded and whatever the clock does, until the stored day strictly increases. */
  lemma {:induction false} DeniedForTheDay(lim: Limits, me: Ident, c: StatsFile, denied: Call, calls: seq<Call>,
                                           entry: Call)
    requires denied.Check? && entry.Check?
    requires var v := CheckVerdict(lim, c, me, denied.today, denied.today2, denied.usd);
             v == Denied(DAILY_MAX_TRADES) || v == Denied(DAILY_FEES_UNVERIFIED)
    ensures var after := CallDone(lim, me, c, denied);
            var now := Run(lim, me, after, calls);
            || CheckVerdict(lim, now, me, entry.today, entry.today2, entry.usd).Denied?
            || (View(after).Open? && View(CallDone(lim, me, now, entry)).Open?
                && View(CallDone(lim, me, now, entry)).stats.day > View(after).stats.day)
  {
    hide Run;
    var after := CallDone(lim, me, c, denied);
    var day := if View(after).Open? then Some(View(after).stats.day) else None;
    assert Closed(lim, View(after), day);
    RunClosed(lim, me, after, calls, day);
    var now := Run(lim, me, after, calls);
  }

  /** An entry is allowed exactly if the counters of the clock's own day, fresh if that day is new, are verified and
      every configured limit still has room. */
  lemma {:induction false} AllowedExactly(lim: Limits, me: Ident, c: StatsFile, entry: Call)
    requires entry.Check?
    ensures CheckVerdict(lim, c, me, entry.today, entry.today2, entry.usd) == Allowed <==>
              var b := View(CallDone(lim, me, c, entry));
              var st := if b.Open? then b.stats else Blank(entry.today2);
              && !b.Damaged? && (b.Open? ==> st.day == entry.today)
              && !st.unverified
              && (lim.maxNotional.Some? ==> entry.usd <= lim.maxNotional.value)
              && (lim.maxTrades.Some? ==> st.trades < lim.maxTrades.value)
              && (lim.maxLoss.Some? ==> st.Net() > -Abs(lim.maxLoss.value))
  {
  }

  /** DAILY_LOSS_LIMIT is not final: recording a P&L re-opens the day exactly if it lifts the net above the limit. */
  lemma {:induction false} LossLimitReopens(lim: Limits, me: Ident, c: StatsFile, entry: Call, pnl: real)
    requires entry.Check? && entry.today == entry.today2
    requires CheckVerdict(lim, c, me, entry.today, entry.today2, entry.usd) == Denied(DAILY_LOSS_LIMIT)
    ensures var denied := CallDone(lim, me, c, entry);
            var net := if View(denied).Open? then View(denied).stats.Net() else 0.0;
            var recorded := CallDone(lim, me, denied, RecordPnl(pnl, entry.today, entry.today2, Entered));
            CheckVerdict(lim, recorded, me, entry.today, entry.today2, entry.usd) == Allowed
            <==> net + pnl > -Abs(lim.maxLoss.value)
  {
  }

  // ------------------------------------------------------------------ the true loss

  /** A reported fee is the true one; an unreported one is within the worst case, when one is configured. */
  predicate Honest(lim: Limits, call: Call) {
    call.RecordFill? ==>
      && (call.fee.Some? ==> call.actual == call.fee.value)
      && (call.fee.None? && lim.worstFeeBps.Some? ==> call.actual <= FeeCharged(lim, call.usd, None))
  }

  /** The fees really paid for the fills recorded on the stored day. */
  function Paid(lim: Limits, me: Ident, c: StatsFile, paid: real, call: Call): real {
    var b := View(c);
    var kept := if b.Open? && b.stats.day < call.today then 0.0 else paid;
    if b.Damaged? || !Loads(call) then paid
    else kept + if call.RecordFill? && !Cut(c, me, call) then call.actual else 0.0
  }

  function PaidBy(lim: Limits, me: Ident, c: StatsFile, paid: real, calls: seq<Call>): real {
    if calls == [] then paid
    else Paid(lim, me, Run(lim, me, c, calls[..|calls| - 1]), PaidBy(lim, me, c, paid, calls[..|calls| - 1]),
              calls[|calls| - 1])
  }

  /** The file never charges less than was paid, unless it says it does not know. */
  predicate Charged(b: Book, paid: real) {
    match b
    case Empty => paid <= 0.0
    case Open(st) => st.unverified || paid <= st.fees
    case Damaged => true
  }

  lemma {:induction false} FeeCovers(lim: Limits, call: Call)
    requires call.RecordFill? && Honest(lim, call)
    ensures (call.fee.None? && lim.worstFeeBps.None?) || call.actual <= FeeCharged(lim, call.usd, call.fee)
  {
  }

  lemma {:induction false} StepCharged(lim: Limits, me: Ident, c: StatsFile, paid: real, call: Call)
    requires Charged(View(c), paid) && Honest(lim, call)
    ensures Charged(View(CallDone(lim, me, c, call)), Paid(lim, me, c, paid, call))
  {
    hide FeeCharged, Honest;
    if call.RecordFill? {
      FeeCovers(lim, call);
    }
  }

  lemma {:induction false} RunCharged(lim: Limits, me: Ident, c: StatsFile, paid: real, calls: seq<Call>)
    requires Charged(View(c), paid)
    requires forall i :: 0 <= i < |calls| ==> Honest(lim, calls[i])
    ensures Charged(View(Run(lim, me, c, calls)), PaidBy(lim, me, c, paid, calls))
    decreases |calls|
  {
    if calls != [] {
      hide Charged, CallDone, View, Honest, Paid;
      var before := calls[..|calls| - 1];
      RunCharged(lim, me, c, paid, before);
      StepCharged(lim, me, Run(lim, me, c, before), PaidBy(lim, me, c, paid, before), calls[|calls| - 1]);
    }
  }

  /** An allowed entry means the true net P&L of the stored day is above the loss limit, provided unreported fees
      stay within the configured worst case. */
  lemma {:induction false} AllowedMeansWithinLoss(lim: Limits, me: Ident, c: StatsFile, paid: real, calls: seq<Call>,
                                                  entry: Call)
    requires Charged(View(c), paid)
    requires forall i :: 0 <= i < |calls| ==> Honest(lim, calls[i])
    requires entry.Check? && lim.maxLoss.Some?
    requires CheckVerdict(lim, Run(lim, me, c, calls), me, entry.today, entry.today2, entry.usd) == Allowed
    ensures var at := Run(lim, me, c, calls);
            var b := View(CallDone(lim, me, at, entry));
            var gross := if b.Open? then b.stats.gross else 0.0;
            gross - Paid(lim, me, at, PaidBy(lim, me, c, paid, calls), entry) > -Abs(lim.maxLoss.value)
  {
    hide Run, PaidBy;
    RunCharged(lim, me, c, paid, calls);
    StepCharged(lim, me, Run(lim, me, c, calls), PaidBy(lim, me, c, paid, calls), entry);
  }

  // ------------------------------------------------------------------ several processes on one file

  /** What a process asks of the shared file. It commits on the contents it read, and only what they allow. */
  datatype Ask = ReadFile(who: nat) | CommitFile(who: nat, d: Commit)

  function Update(lim: Limits, d: Commit): Content<Doc> -> Doc {
    c => if Ready(View(c), d) then Counters(Apply(lim, View(c), d)) else KeyMissing
  }

  function AsAct(lim: Limits, a: Ask): StateFiles.Act<Doc> {
    match a
    case ReadFile(i) => ReadBy(i)
    case CommitFile(i, d) => CommitBy(i, Update(lim, d))
  }

  function Acts(lim: Limits, asks: seq<Ask>): (acts: seq<StateFiles.Act<Doc>>)
    ensures |acts| == |asks|
    ensures forall i :: 0 <= i < |asks| ==> acts[i] == AsAct(lim, asks[i])
  {
    seq(|asks|, i requires 0 <= i < |asks| => AsAct(lim, asks[i]))
  }

  function After(lim: Limits, idents: nat -> Ident, s: System<Doc>, asks: seq<Ask>): System<Doc> {
    StateFiles.Run(idents, s, Acts(lim, asks))
  }

  /** Every commit was decided on what its process had read. */
  ghost predicate Decided(lim: Limits, idents: nat -> Ident, s: System<Doc>, asks: seq<Ask>) {
    forall k :: 0 <= k < |asks| && asks[k].CommitFile? ==>
      var read := After(lim, idents, s, asks[..k]).read;
      asks[k].who in read ==> Ready(View(read[asks[k].who].seen), asks[k].d)
  }

  /** The commits that succeeded, in order. */
  function Succeeded(lim: Limits, idents: nat -> Ident, s: System<Doc>, asks: seq<Ask>): seq<Commit> {
    if asks == [] then []
    else
      var before, last := asks[..|asks| - 1], asks[|asks| - 1];
      var won := last.CommitFile? && Committed(After(lim, idents, s, before), idents(last.who), AsAct(lim, last)).Some?;
      Succeeded(lim, idents, s, before) + if won then [last.d] else []
  }

  lemma {:induction false} AfterOne(lim: Limits, idents: nat -> Ident, s: System<Doc>, asks: seq<Ask>)
    requires asks != [] && s.read == map[]
    ensures var n := |asks| - 1;
            && After(lim, idents, s, asks) == StateFiles.Step(idents, After(lim, idents, s, asks[..n]),
                                                              AsAct(lim, asks[n]))
            && (asks[n].CommitFile? && Committed(After(lim, idents, s, asks[..n]), idents(asks[n].who),
                                                 AsAct(lim, asks[n])).Some? ==>
                  var at := After(lim, idents, s, asks[..n]);
                  && at.read[asks[n].who].seen == at.file
                  && After(lim, idents, s, asks).file
                     == Stored(Update(lim, asks[n].d)(at.file), NextSeal(at.file, idents(asks[n].who))))
  {
    hide Update;
    var n := |asks| - 1;
    assert Acts(lim, asks)[..n] == Acts(lim, asks[..n]);
    NoDeletions(idents, s, Acts(lim, asks[..n]));
    if asks[n].CommitFile? && Committed(After(lim, idents, s, asks[..n]), idents(asks[n].who),
                                        AsAct(lim, asks[n])).Some? {
      CommitFromLatest(idents, s, Acts(lim, asks[..n]), asks[n].who, Update(lim, asks[n].d));
    }
  }

  /** Any number of processes sharing the file, in any interleaving: the file ends up as if the successful commits
      had been made one after the other, so it balances against exactly those. A fill that was told
      ConcurrentWriterDetected is not in it, every other one is. */
  lemma {:induction false} NoRecordLost(lim: Limits, idents: nat -> Ident, s: System<Doc>, asks: seq<Ask>)
    requires s.read == map[] && !View(s.file).Damaged? && Decided(lim, idents, s, asks)
    ensures var a := PostAll(lim, Opening(View(s.file)), Succeeded(lim, idents, s, asks));
            && View(After(lim, idents, s, asks).file) == a.book
            && Accounted(a, InBook(View(s.file)))
    decreases |asks|
  {
    EmptyAccounted(View(s.file));
    if asks != [] {
      hide After, Decided, View, InBook, Accounted, Succeeded, PostAll;
      var n := |asks| - 1;
      DecidedBefore(lim, idents, s, asks);
      NoRecordLost(lim, idents, s, asks[..n]);
      SuccessAdds(lim, idents, s, asks);
      Conservation(lim, Opening(View(s.file)), Succeeded(lim, idents, s, asks), InBook(View(s.file)));
    }
  }

  lemma {:induction false} DecidedBefore(lim: Limits, idents: nat -> Ident, s: System<Doc>, asks: seq<Ask>)
    requires asks != [] && Decided(lim, idents, s, asks)
    ensures Decided(lim, idents, s, asks[..|asks| - 1])
  {
    hide After, Ready;
    assert forall k :: 0 <= k < |asks| - 1 ==> asks[..|asks| - 1][..k] == asks[..k];
  }

  lemma {:induction false} SuccessAdds(lim: Limits, idents: nat -> Ident, s: System<Doc>, asks: seq<Ask>)
    requires asks != [] && s.read == map[] && Decided(lim, idents, s, asks)
    requires var a := PostAll(lim, Opening(View(s.file)), Succeeded(lim, idents, s, asks[..|asks| - 1]));
             View(After(lim, idents, s, asks[..|asks| - 1]).file) == a.book
    ensures var a := PostAll(lim, Opening(View(s.file)), Succeeded(lim, idents, s, asks));
            View(After(lim, idents, s, asks).file) == a.book
  {
    hide After, Decided, View, Committed, Ready, Apply;
    var n := |asks| - 1;
    var ds := Succeeded(lim, idents, s, asks[..n]);
    var at := After(lim, idents, s, asks[..n]);
    AfterOne(lim, idents, s, asks);
    if asks[n].CommitFile? && Committed(at, idents(asks[n].who), AsAct(lim, asks[n])).Some? {
      WonCommit(lim, idents, s, asks);
      assert Succeeded(lim, idents, s, asks) == ds + [asks[n].d];
      assert (ds + [asks[n].d])[..|ds|] == ds;
    } else {
      assert Succeeded(lim, idents, s, asks) == ds;
    }
  }

  lemma {:induction false} WonCommit(lim: Limits, idents: nat -> Ident, s: System<Doc>, asks: seq<Ask>)
    requires asks != [] && s.read == map[] && Decided(lim, idents, s, asks)
    requires asks[|asks| - 1].CommitFile?
    requires Committed(After(lim, idents, s, asks[..|asks| - 1]), idents(asks[|asks| - 1].who),
                       AsAct(lim, asks[|asks| - 1])).Some?
    ensures var n := |asks| - 1;
            var at := After(lim, idents, s, asks[..n]);
            && Ready(View(at.file), asks[n].d)
            && View(After(lim, idents, s, asks).file) == Open(Apply(lim, View(at.file), asks[n].d))
  {
    hide Ready, Apply;
    AfterOne(lim, idents, s, asks);
  }

}
