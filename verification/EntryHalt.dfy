/** The persistent entry halt: set, clear and the escalation to a manual halt when another writer races.
    Every access to the file may find it changed by other processes. */
module EntryHalts {
  import opened Options
  import opened StateFiles

  /** The reason of a halt; the texts the code builds around a given one are kept as constructors. */
  datatype Reason =
    | Given(text: string) | UnreadableFile
    | RacedWhileSetting(original: string) | RacedWhileClearing(note: string, previous: Reason)

  /** `auto`: a clean startup may clear it. Otherwise only a human does. */
  datatype Halt = Halt(active: bool, reason: Reason, source: string, ts: string, auto: bool)

  type HaltFile = Content<Halt>

  /** `EntryHalt.active`: an unreadable file is itself a manual halt. */
  function ActiveIn(c: HaltFile): Option<Halt> {
    match c
    case Absent => None
    case Unreadable => Some(Halt(true, UnreadableFile, "deadman.entry_halt", "", false))
    case Stored(h, _) => if h.active then Some(h) else None
  }

  predicate Manual(c: HaltFile) { ActiveIn(c).Some? && !ActiveIn(c).value.auto }

  function Cut(text: string): string {
    if |text| > 300 then text[..300] else text
  }

  datatype Request =
    | SetHalt(reason: string, source: string, auto: bool)
    | ClearHalt(note: string, onlyAuto: bool)

  /** The halt a set writes, given the halt it found active. */
  function Requested(r: Request, cur: Option<Halt>, ts: string): Halt
    requires r.SetHalt?
  {
    Halt(true, Given(Cut(r.reason)), r.source, ts, r.auto && (cur.None? || cur.value.auto))
  }

  /** The manual halt written by force after a race. */
  function Escalated(r: Request, cur: Option<Halt>, ts: string): Halt {
    match r
    case SetHalt(reason, source, _) => Halt(true, RacedWhileSetting(Cut(reason)), source, ts, false)
    case ClearHalt(note, _) =>
      Halt(true, RacedWhileClearing(note, if cur.Some? then cur.value.reason else Given("")),
           "deadman.entry_halt.clear", ts, false)
  }

  /** A clear that is refused before it touches the file. */
  predicate ClearRefused(r: Request, seen: HaltFile, cur: Option<Halt>) {
    r.ClearHalt? && (cur.None? || seen.Unreadable? || (r.onlyAuto && !cur.value.auto))
  }

  /** The entries the halt asks the ledger to append; a ledger failure is not its concern. */
  datatype Note = Raced | HaltSet(halt: Halt) | HaltCleared(previous: Halt)

  /** The file, the answer and the notes after one operation, and how many file accesses it took. */
  datatype Done = Done(file: HaltFile, accesses: nat, notes: seq<Note>, cleared: bool)

  /** What other processes make of the file before this process's k-th access. */
  type World = (nat, HaltFile) -> HaltFile

  function SetDone(world: World, me: Ident, ts: string, k: nat, c0: HaltFile, r: Request): Done
    requires r.SetHalt?
  {
    var c1 := world(k, c0);
    var c2 := world(k + 1, c1);
    var c3 := world(k + 2, c2);
    var rec := Requested(r, ActiveIn(c2), ts);
    var w := Written(c3, me, rec, SealOf(c1), false);
    if w.Some? then Done(w.value, k + 3, [HaltSet(rec)], false)
    else
      var forced := Escalated(r, ActiveIn(c2), ts);
      Done(Stored(forced, NextSeal(world(k + 3, c3), me)), k + 4, [Raced, HaltSet(forced)], false)
  }

  function ClearDone(world: World, me: Ident, ts: string, k: nat, c0: HaltFile, r: Request): Done
    requires r.ClearHalt?
  {
    var c1 := world(k, c0);
    var c2 := world(k + 1, c1);
    var cur := ActiveIn(c2);
    if ClearRefused(r, c1, cur) then Done(c2, k + 2, [], false)
    else
      var c3 := world(k + 2, c2);
      match Deleted(c3, SealOf(c1), false)
      case Gone(removed) => Done(if removed then Absent else c3, k + 3, [HaltCleared(cur.value)], true)
      case Conflict =>
        var forced := Escalated(r, cur, ts);
        Done(Stored(forced, NextSeal(world(k + 3, c3), me)), k + 4, [Raced, HaltSet(forced)], false)
  }

  class EntryHalt {
    const ident: Ident
    const world: World
    const clock: nat -> string
    var file: HaltFile
    var accesses: nat
    var notes: seq<Note>

    constructor (ident: Ident, world: World, clock: nat -> string, file: HaltFile)
      ensures this.ident == ident && this.world == world && this.clock == clock
      ensures this.file == file && accesses == 0 && notes == []
    {
      this.ident, this.world, this.clock := ident, world, clock;
      this.file, accesses, notes := file, 0, [];
    }

    /** Other processes run until this one gets to the file. */
    method Reach()
      modifies this`file, this`accesses
      ensures file == world(old(accesses), old(file)) && accesses == old(accesses) + 1
    {
      file := world(accesses, file);
      accesses := accesses + 1;
    }

    method Active() returns (h: Option<Halt>)
      modifies this`file, this`accesses
      ensures file == world(old(accesses), old(file)) && accesses == old(accesses) + 1
      ensures h == ActiveIn(file)
    {
      Reach();
      h := ActiveIn(file);
    }

    method Force(halt: Halt)
      modifies this
      ensures file == Stored(halt, NextSeal(world(old(accesses), old(file)), ident))
      ensures accesses == old(accesses) + 1 && notes == old(notes) + [HaltSet(halt)]
    {
      Reach();
      file := Stored(halt, NextSeal(file, ident));
      notes := notes + [HaltSet(halt)];
    }

    /** Whatever races, a halt is active afterwards. */
    method Set(r: Request)
      requires r.SetHalt?
      modifies this
      ensures ActiveIn(file).Some? && (Manual(file) || r.auto)
      ensures var d := SetDone(world, ident, clock(old(accesses)), old(accesses), old(file), r);
              file == d.file && accesses == d.accesses && notes == old(notes) + d.notes
    {
      var ts := clock(accesses);
      Reach();
      var seen := SealOf(file);
      var cur := Active();
      var rec := Halt(true, Given(Cut(r.reason)), r.source, ts, r.auto && (cur.None? || cur.value.auto));
      Reach();
      if SealOf(file) != seen {
        notes := notes + [Raced];
        Force(Escalated(r, cur, ts));
      } else {
        file := Stored(rec, NextSeal(file, ident));
        notes := notes + [HaltSet(rec)];
      }
    }

    method Clear(r: Request) returns (cleared: bool)
      requires r.ClearHalt?
      modifies this
      ensures var d := ClearDone(world, ident, clock(old(accesses)), old(accesses), old(file), r);
              file == d.file && accesses == d.accesses && notes == old(notes) + d.notes && cleared == d.cleared
    {
      var ts := clock(accesses);
      Reach();
      var seen := file;
      var cur := Active();
      if cur.None? || seen.Unreadable? || (r.onlyAuto && !cur.value.auto) { return false; }
      Reach();
      match Deleted(file, SealOf(seen), false)
      case Gone(removed) =>
        if removed { file := Absent; }
        notes := notes + [HaltCleared(cur.value)];
        cleared := true;
      case Conflict =>
        notes := notes + [Raced];
        Force(Escalated(r, cur, ts));
        cleared := false;
    }
  }

  // ------------------------------------------------------------------ one process alone

  /** A set with nobody else around. */
  function Halted(c: HaltFile, me: Ident, r: Request, ts: string): HaltFile
    requires r.SetHalt?
  {
    Stored(Requested(r, ActiveIn(c), ts), NextSeal(c, me))
  }

  predicate Clears(c: HaltFile, r: Request) {
    !ClearRefused(r, c, ActiveIn(c))
  }

  lemma {:induction false} QuietSet(me: Ident, ts: string, k: nat, c: HaltFile, r: Request)
    requires r.SetHalt?
    ensures SetDone((_, f) => f, me, ts, k, c, r).file == Halted(c, me, r, ts)
    ensures Manual(c) || !r.auto ==> Manual(Halted(c, me, r, ts))
    ensures !Manual(c) && r.auto ==> ActiveIn(Halted(c, me, r, ts)).Some? && !Manual(Halted(c, me, r, ts))
  {
  }

  lemma {:induction false} QuietClear(me: Ident, ts: string, k: nat, c: HaltFile, r: Request)
    requires r.ClearHalt?
    ensures var d := ClearDone((_, f) => f, me, ts, k, c, r);
            && (d.cleared <==> Clears(c, r))
            && d.file == (if d.cleared then Absent else c)
    ensures r.onlyAuto ==> (Clears(c, r) <==> ActiveIn(c).Some? && !Manual(c))
  {
  }

  // ------------------------------------------------------------------ many processes, step by step

  /** An operation under way: after its first read, after its second, and after it lost a race. */
  datatype Task =
    | Reading(r: Request, seen: HaltFile, epoch: nat)
    | Deciding(r: Request, seen: HaltFile, epoch: nat, cur: Option<Halt>)
    | Racing(r: Request, cur: Option<Halt>)

  datatype Processes = Processes(file: HaltFile, tasks: map<nat, Task>, deletions: nat)

  datatype Act = Start(who: nat, r: Request) | Look(who: nat) | Finish(who: nat, ts: string)

  function Step(idents: nat -> Ident, s: Processes, a: Act): Processes {
    match a
    case Start(i, r) => if i in s.tasks then s else s.(tasks := s.tasks[i := Reading(r, s.file, s.deletions)])
    case Look(i) =>
      if i !in s.tasks || !s.tasks[i].Reading? then s
      else
        var t := s.tasks[i];
        var cur := ActiveIn(s.file);
        if ClearRefused(t.r, t.seen, cur) then s.(tasks := s.tasks - {i})
        else s.(tasks := s.tasks[i := Deciding(t.r, t.seen, t.epoch, cur)])
    case Finish(i, ts) =>
      if i !in s.tasks then s
      else
        match s.tasks[i]
        case Reading(_, _, _) => s
        case Racing(r, cur) =>
          Processes(Stored(Escalated(r, cur, ts), NextSeal(s.file, idents(i))), s.tasks - {i}, s.deletions)
        case Deciding(r, seen, _, cur) =>
          if r.SetHalt? then
            var w := Written(s.file, idents(i), Requested(r, cur, ts), SealOf(seen), false);
            if w.Some? then Processes(w.value, s.tasks - {i}, s.deletions)
            else s.(tasks := s.tasks[i := Racing(r, cur)])
          else
            match Deleted(s.file, SealOf(seen), false)
            case Gone(removed) =>
              if removed then Processes(Absent, s.tasks - {i}, s.deletions + 1) else s.(tasks := s.tasks - {i})
            case Conflict => s.(tasks := s.tasks[i := Racing(r, cur)])
  }

  function Run(idents: nat -> Ident, s: Processes, acts: seq<Act>): Processes {
    if acts == [] then s else Step(idents, Run(idents, s, acts[..|acts| - 1]), acts[|acts| - 1])
  }

  /** What an open operation knows: if nothing was deleted since its first read, either the file is still what
      it read, and its second read agrees, or the file carries a later seal. */
  ghost predicate Knows(s: Processes, t: Task) {
    !t.Racing? ==>
      && (t.Deciding? ==> !ClearRefused(t.r, t.seen, t.cur))
      && t.epoch <= s.deletions
      && (t.epoch == s.deletions ==>
            && Older(t.seen, s.file)
            && (t.Deciding? && t.seen == s.file ==> t.cur == ActiveIn(s.file)))
  }

  ghost predicate AllKnow(s: Processes) {
    forall i :: i in s.tasks ==> Knows(s, s.tasks[i])
  }

  lemma {:induction false} StepKnows(idents: nat -> Ident, s: Processes, a: Act)
    requires AllKnow(s)
    ensures AllKnow(Step(idents, s, a))
  {
    var s' := Step(idents, s, a);
    forall i | i in s'.tasks
      ensures Knows(s', s'.tasks[i])
    {
      assert i in s.tasks ==> Knows(s, s.tasks[i]);
    }
  }

  lemma {:induction false} RunKnows(idents: nat -> Ident, s: Processes, acts: seq<Act>)
    requires AllKnow(s)
    ensures AllKnow(Run(idents, s, acts))
    decreases |acts|
  {
    if acts != [] {
      hide Step, AllKnow;
      RunKnows(idents, s, acts[..|acts| - 1]);
      StepKnows(idents, Run(idents, s, acts[..|acts| - 1]), acts[|acts| - 1]);
    }
  }

  /** A set, or a clear of automatic halts only. */
  predicate Modest(r: Request) { r.SetHalt? || r.onlyAuto }

  predicate OpenSince(t: Task, deletions: nat) { t.Racing? || t.epoch == deletions }

  /** However the other writers interleave: if nothing was deleted inside its window, an operation that finishes
      over a manual halt leaves a manual halt. A set never downgrades it, an auto-only clear never removes it. */
  lemma {:induction false} ManualKept(idents: nat -> Ident, s0: Processes, acts: seq<Act>, who: nat, ts: string)
    requires s0.tasks == map[]
    requires var s := Run(idents, s0, acts);
             && Manual(s.file) && who in s.tasks
             && Modest(s.tasks[who].r) && OpenSince(s.tasks[who], s.deletions)
    ensures Manual(Step(idents, Run(idents, s0, acts), Finish(who, ts)).file)
    ensures Step(idents, Run(idents, s0, acts), Finish(who, ts)).deletions == Run(idents, s0, acts).deletions
  {
    var s := Run(idents, s0, acts);
    assert AllKnow(s0);
    RunKnows(idents, s0, acts);
  }

  /** Nothing has been deleted inside any open window, and no open operation is a full clear. */
  ghost predicate Settled(s: Processes) {
    forall i :: i in s.tasks ==> Modest(s.tasks[i].r) && OpenSince(s.tasks[i], s.deletions)
  }

  lemma {:induction false} StepManual(idents: nat -> Ident, s: Processes, a: Act)
    requires Manual(s.file) && AllKnow(s) && Settled(s)
    requires a.Start? ==> Modest(a.r)
    ensures var s' := Step(idents, s, a);
            Manual(s'.file) && AllKnow(s') && Settled(s')
  {
    StepKnows(idents, s, a);
  }

  /** Once a manual halt stands and no open window holds a deletion, any number of processes may set and auto-clear
      in any interleaving: the halt stays manual until somebody asks for a full clear. */
  lemma {:induction false} ManualSurvives(idents: nat -> Ident, s: Processes, acts: seq<Act>)
    requires Manual(s.file) && AllKnow(s) && Settled(s)
    requires forall i :: 0 <= i < |acts| && acts[i].Start? ==> Modest(acts[i].r)
    ensures var s' := Run(idents, s, acts);
            Manual(s'.file) && AllKnow(s') && Settled(s')
    decreases |acts|
  {
    if acts != [] {
      hide Manual, AllKnow, Settled, Step;
      ManualSurvives(idents, s, acts[..|acts| - 1]);
      StepManual(idents, Run(idents, s, acts[..|acts| - 1]), acts[|acts| - 1]);
    }
  }

  /** The window matters: a set that read an automatic halt, a full clear and a manual halt under the same seal
      inside its window, and the manual halt is overwritten by an automatic one. */
  lemma {:induction false} DowngradeAfterDeletion(idents: nat -> Ident)
    ensures var auto := Halt(true, Given("a"), "s", "t", true);
            var start := Processes(Stored(auto, Seal(idents(0).pid, idents(0).startedAt, 1)), map[], 0);
            var before := Run(idents, start, [Start(1, SetHalt("b", "s", true)), Look(1),
                                              Start(0, ClearHalt("c", false)), Look(0),
                                              Finish(0, "t"), Start(0, SetHalt("d", "s", false)), Look(0),
                                                  Finish(0, "t")]);
            && Manual(before.file)
            && ActiveIn(Step(idents, before, Finish(1, "t")).file).Some?
            && !Manual(Step(idents, before, Finish(1, "t")).file)
  {
    hide Run, ActiveIn;
    var auto := Halt(true, Given("a"), "s", "t", true);
    var seal := Seal(idents(0).pid, idents(0).startedAt, 1);
    var start := Processes(Stored(auto, seal), map[], 0);
    var late, full, hand := SetHalt("b", "s", true), ClearHalt("c", false), SetHalt("d", "s", false);
    var a := [Start(1, late), Look(1), Start(0, full), Look(0), Finish(0, "t"), Start(0, hand), Look(0),
              Finish(0, "t")];
    var mine := Deciding(late, start.file, 0, Some(auto));
    assert ActiveIn(start.file) == Some(auto) && ActiveIn(Absent) == None by { DowngradeViews(auto, seal); }
    var s2 := Processes(start.file, map[1 := mine], 0);
    assert Step(idents, Step(idents, start, a[0]), a[1]) == s2;
    var s4 := Processes(start.file, map[1 := mine, 0 := Deciding(full, start.file, 0, Some(auto))], 0);
    assert Step(idents, Step(idents, s2, a[2]), a[3]) == s4;
    var s5 := Processes(Absent, map[1 := mine], 1);
    assert Step(idents, s4, a[4]) == s5;
    var s7 := Processes(Absent, map[1 := mine, 0 := Deciding(hand, Absent, 1, None)], 1);
    assert Step(idents, Step(idents, s5, a[5]), a[6]) == s7;
    var halt := Halt(true, Given(Cut("d")), "s", "t", false);
    assert Step(idents, s7, a[7]) == Processes(Stored(halt, seal), map[1 := mine], 1);
    DowngradeViews(halt, seal);
    RunEight(idents, start, a);
    DowngradeViews(Requested(late, Some(auto), "t"), Seal(idents(1).pid, idents(1).startedAt, 2));
  }

  lemma {:induction false} DowngradeViews(h: Halt, seal: Seal)
    ensures ActiveIn(Stored(h, seal)) == (if h.active then Some(h) else None) && ActiveIn(Absent) == None
  {
  }

  lemma {:induction false} RunEight(idents: nat -> Ident, s: Processes, a: seq<Act>)
    requires |a| == 8
    ensures Run(idents, s, a) == Step(idents, Step(idents,
                                                   Step(idents, Step(idents, Step(idents, Step(idents, Step(idents,
              Step(idents, s, a[0]), a[1]), a[2]), a[3]), a[4]), a[5]), a[6]), a[7])
  {
    hide Step;
    forall k | 0 <= k < 8
      ensures Run(idents, s, a[..k + 1]) == Step(idents, Run(idents, s, a[..k]), a[k])
    {
      assert a[..k + 1][..k] == a[..k];
    }
    assert a[..8] == a;
    assert Run(idents, s, a[..0]) == s;
  }
}
