/** The sealed state file: every write carries the seal it expects to replace, and is refused if the
    file changed in between. The check and the replacement are one step. */
module StateFiles {
  import opened Options

  datatype Ident = Ident(pid: int, startedAt: string)

  datatype Seal = Seal(pid: int, startedAt: string, writeSeq: int)

  /** What a read finds. An unreadable file has no seal, like an absent one. */
  datatype Content<+D> = Absent | Unreadable | Stored(data: D, seal: Seal)

  function SealOf<D>(c: Content<D>): Option<Seal> {
    if c.Stored? then Some(c.seal) else None
  }

  function NextSeal<D>(c: Content<D>, me: Ident): Seal {
    Seal(me.pid, me.startedAt, if c.Stored? then c.seal.writeSeq + 1 else 1)
  }

  /** None is ConcurrentWriterDetected: nothing was written. */
  function Written<D>(c: Content<D>, me: Ident, data: D, expected: Option<Seal>, force: bool): Option<Content<D>> {
    if !force && SealOf(c) != expected then None else Some(Stored(data, NextSeal(c, me)))
  }

  datatype Deletion = Gone(removed: bool) | Conflict

  function Deleted<D>(c: Content<D>, expected: Option<Seal>, force: bool): Deletion {
    if c.Absent? then Gone(false)
    else if !force && SealOf(c) != expected then Conflict
    else Gone(true)
  }

  class StateFile<D> {
    const ident: Ident
    var content: Content<D>

    constructor (ident: Ident, content: Content<D>)
      ensures this.ident == ident && this.content == content
    {
      this.ident, this.content := ident, content;
    }

    method Write(data: D, expected: Option<Seal>, force: bool) returns (seal: Option<Seal>)
      modifies this
      ensures var w := Written(old(content), ident, data, expected, force);
              && (w.Some? <==> seal.Some?)
              && content == (if w.Some? then w.value else old(content))
              && (seal.Some? ==> SealOf(content) == seal)
    {
      var current := SealOf(content);
      if !force && current != expected { return None; }
      var nextSeq := if current.Some? then current.value.writeSeq + 1 else 1;
      var next := Seal(ident.pid, ident.startedAt, nextSeq);
      content := Stored(data, next);
      seal := Some(next);
    }

    method Delete(expected: Option<Seal>, force: bool) returns (r: Deletion)
      modifies this
      ensures r == Deleted(old(content), expected, force)
      ensures content == if r == Gone(true) then Absent else old(content)
    {
      if content.Absent? { return Gone(false); }
      if !force && SealOf(content) != expected { return Conflict; }
      content := Absent;
      r := Gone(true);
    }
  }

  // ------------------------------------------------------------------ concurrent writers

  /** What one of many writers does next. A commit computes its data from the contents the writer last read
      and expects their seal. */
  datatype Act<!D> =
    | ReadBy(who: nat)
    | CommitBy(who: nat, update: Content<D> -> D)
    | ForceBy(who: nat, data: D)
    | DeleteBy(who: nat)

  /** What a writer read, and how many deletions there had been by then. */
  datatype Snapshot<+D> = Snapshot(seen: Content<D>, epoch: nat)

  datatype System<+D> = System(file: Content<D>, read: map<nat, Snapshot<D>>, deletions: nat)

  function Committed<D>(s: System<D>, who: Ident, a: Act<D>): Option<Content<D>> {
    match a
    case ReadBy(_) => None
    case CommitBy(i, update) =>
      if i !in s.read then None
      else Written(s.file, who, update(s.read[i].seen), SealOf(s.read[i].seen), false)
    case ForceBy(_, data) => Written(s.file, who, data, None, true)
    case DeleteBy(_) => None
  }

  function Step<D>(idents: nat -> Ident, s: System<D>, a: Act<D>): System<D> {
    match a
    case ReadBy(i) => s.(read := s.read[i := Snapshot(s.file, s.deletions)])
    case CommitBy(i, _) => var w := Committed(s, idents(i), a); if w.Some? then s.(file := w.value) else s
    case ForceBy(i, _) => var w := Committed(s, idents(i), a); if w.Some? then s.(file := w.value) else s
    case DeleteBy(i) =>
      if i in s.read && Deleted(s.file, SealOf(s.read[i].seen), false) == Gone(true)
      then s.(file := Absent, deletions := s.deletions + 1)
      else s
  }

  function Run<D>(idents: nat -> Ident, s: System<D>, acts: seq<Act<D>>): System<D> {
    if acts == [] then s else Step(idents, Run(idents, s, acts[..|acts| - 1]), acts[|acts| - 1])
  }

  /** `seen` is the current file, or an earlier one under a smaller write_seq. */
  ghost predicate Older<D>(seen: Content<D>, file: Content<D>) {
    seen == file || (file.Stored? && (seen.Stored? ==> seen.seal.writeSeq < file.seal.writeSeq))
  }

  ghost predicate Fresh<D>(s: System<D>) {
    forall i :: i in s.read ==>
      && s.read[i].epoch <= s.deletions
      && (s.read[i].epoch == s.deletions ==> Older(s.read[i].seen, s.file))
  }

  lemma {:induction false} RunFresh<D>(idents: nat -> Ident, s: System<D>, acts: seq<Act<D>>)
    requires s.read == map[]
    ensures Fresh(Run(idents, s, acts))
    decreases |acts|
  {
    if acts != [] {
      hide Step, Fresh;
      RunFresh(idents, s, acts[..|acts| - 1]);
    }
  }

  /** The seal protocol: whatever else the other writers did since this writer's read, a commit that succeeds
      was computed from exactly the contents it replaces - unless a deletion happened in between. */
  lemma {:induction false} CommitFromLatest<D>(idents: nat -> Ident, s0: System<D>, acts: seq<Act<D>>, who: nat,
                                               update: Content<D> -> D)
    requires s0.read == map[]
    requires var s := Run(idents, s0, acts);
             && who in s.read && s.read[who].epoch == s.deletions
             && Committed(s, idents(who), CommitBy(who, update)).Some?
    ensures var s := Run(idents, s0, acts);
            && s.read[who].seen == s.file
            && Step(idents, s, CommitBy(who, update)).file == Stored(update(s.file), NextSeal(s.file, idents(who)))
  {
    RunFresh(idents, s0, acts);
  }

  /** The successful updates, in the order they were committed. */
  function Successes<D>(idents: nat -> Ident, s: System<D>, acts: seq<Act<D>>): seq<Act<D>> {
    if acts == [] then []
    else
      var before := acts[..|acts| - 1];
      var last := acts[|acts| - 1];
      var done := (last.CommitBy? || last.ForceBy?) && Committed(Run(idents, s, before), idents(last.who), last).Some?;
      Successes(idents, s, before) + if done then [last] else []
  }

  /** The same updates one after the other, each applied to the contents the one before it left. */
  function Serial<D>(idents: nat -> Ident, c: Content<D>, updates: seq<Act<D>>): Content<D> {
    if updates == [] then c
    else
      var before := Serial(idents, c, updates[..|updates| - 1]);
      var last := updates[|updates| - 1];
      match last
      case CommitBy(i, update) => Stored(update(before), NextSeal(before, idents(i)))
      case ForceBy(i, data) => Stored(data, NextSeal(before, idents(i)))
      case ReadBy(_) => before
      case DeleteBy(_) => before
  }

  lemma {:induction false} NoDeletions<D>(idents: nat -> Ident, s: System<D>, acts: seq<Act<D>>)
    requires forall i :: 0 <= i < |acts| ==> !acts[i].DeleteBy?
    requires s.read == map[]
    ensures Run(idents, s, acts).deletions == s.deletions
    ensures forall i :: i in Run(idents, s, acts).read ==> Run(idents, s, acts).read[i].epoch == s.deletions
    decreases |acts|
  {
    if acts != [] {
      NoDeletions(idents, s, acts[..|acts| - 1]);
    }
  }

  /** With no deletion, any interleaving of concurrent writers is equivalent to running the successful updates
      one after the other: none is lost, none is computed from stale contents. */
  lemma {:induction false} NoLostUpdate<D>(idents: nat -> Ident, s: System<D>, acts: seq<Act<D>>)
    requires forall i :: 0 <= i < |acts| ==> !acts[i].DeleteBy?
    requires s.read == map[]
    ensures Run(idents, s, acts).file == Serial(idents, s.file, Successes(idents, s, acts))
    decreases |acts|
  {
    if acts != [] {
      var init, last := acts[..|acts| - 1], acts[|acts| - 1];
      NoLostUpdate(idents, s, init);
      NoDeletions(idents, s, init);
      var done := Successes(idents, s, init);
      var at := Run(idents, s, init);
      assert Run(idents, s, acts) == Step(idents, at, last);
      if (last.CommitBy? || last.ForceBy?) && Committed(at, idents(last.who), last).Some? {
        assert (done + [last])[..|done|] == done;
        assert Successes(idents, s, acts) == done + [last];
        if last.CommitBy? {
          CommitFromLatest(idents, s, init, last.who, last.update);
        }
      } else {
        assert !last.DeleteBy?;
        assert Successes(idents, s, acts) == done;
      }
    }
  }

  /** write_seq restarts at 1 after a deletion, so a seal can come back: here writer 1 reads, writer 0 deletes and
      writes again under the same seal, and writer 1's commit succeeds on contents it never saw. */
  lemma {:induction false} SealReturns(idents: nat -> Ident, update: Content<int> -> int)
    ensures var s0: System<int> := System(Absent, map[], 0);
            var s := Run(idents, s0, [ForceBy(0, 10), ReadBy(0), ReadBy(1), DeleteBy(0), ForceBy(0, 20)]);
            && Committed(s, idents(1), CommitBy(1, update)).Some?
            && s.read[1].seen.data == 10 && s.file.data == 20
  {
    var a: seq<Act<int>> := [ForceBy(0, 10), ReadBy(0), ReadBy(1), DeleteBy(0), ForceBy(0, 20)];
    var s0: System<int> := System(Absent, map[], 0);
    forall k | 0 <= k < 5
      ensures Run(idents, s0, a[..k + 1]) == Step(idents, Run(idents, s0, a[..k]), a[k])
    {
      assert a[..k + 1][..k] == a[..k];
    }
    assert a[..5] == a;
    assert Run(idents, s0, a[..0]) == s0;
    assert Run(idents, s0, a[..1]).file == Stored(10, Seal(idents(0).pid, idents(0).startedAt, 1));
    assert Run(idents, s0, a[..3]).read[1].seen == Run(idents, s0, a[..1]).file;
    assert Run(idents, s0, a[..4]).file == Absent;
  }
}
