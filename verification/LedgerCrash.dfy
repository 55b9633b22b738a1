/** Any number of writers over one directory. The file lock serialises their locked sections, so a run is a
    sequence of sections; the process inside a section can die after each of its file operations. */
module LedgerCrash {
  import opened LedgerChain

  /** How far an append, or a rotation, gets before its process dies; the last point is completion. */
  datatype AppendPoint = BeforeLine | TornLine | LineWritten | TipWritten
  datatype RotatePoint = BeforeRename | RenameDone | LinkTorn | LinkWritten | LinkTipWritten

  datatype Section =
    | Appending(ts: string, kind: Kind, actor: string, payload: Payload, upTo: AppendPoint)
    | Rotating(ts: string, actor: string, reached: RotatePoint)

  function AppendUpTo(cr: Crypto, d: Disk, ts: string, kind: Kind, actor: string, payload: Payload,
                      p: AppendPoint): Disk {
    match ReadTip(d)
    case Refused => d
    case At(s, h) =>
      var e := Sealed(cr, s, h, ts, kind, actor, payload);
      match p
      case BeforeLine => d
      case TornLine => WithLine(d, NotJson)
      case LineWritten => WithLine(d, Full(e))
      case TipWritten => WithTip(WithLine(d, Full(e)), e)
  }

  function RotateUpTo(cr: Crypto, d: Disk, ts: string, actor: string, p: RotatePoint): Disk {
    if !CanRotate(d) then (if p.BeforeRename? then d else FailedRotation(d))
    else
      var tip := ReadTip(d);
      var e := Sealed(cr, tip.seqNo, tip.hash, ts, LedgerRotated, actor, RotationLink(cr, d, tip.seqNo, tip.hash));
      match p
      case BeforeRename => d
      case RenameDone => Renamed(d)
      case LinkTorn => WithLine(Renamed(d), NotJson)
      case LinkWritten => WithLine(Renamed(d), Full(e))
      case LinkTipWritten => WithTip(WithLine(Renamed(d), Full(e)), e)
  }

  function Enter(cr: Crypto, d: Disk, s: Section): Disk {
    match s
    case Appending(ts, kind, actor, payload, p) => AppendUpTo(cr, d, ts, kind, actor, payload, p)
    case Rotating(ts, actor, p) => RotateUpTo(cr, d, ts, actor, p)
  }

  function Run(cr: Crypto, d: Disk, ss: seq<Section>): Disk {
    if ss == [] then d else Enter(cr, Run(cr, d, ss[..|ss| - 1]), ss[|ss| - 1])
  }

  // ------------------------------------------------------------------ what can be on disk

  /** How the files differ from those of a chain written in full: not at all, a torn last line,
      the active file just renamed, or renamed with a torn first line. */
  datatype Tail = Whole | Torn | Headless | HeadTorn

  /** What the files of a directory are read as: those of `held`, which holds the chain `es` cut at `cuts`, but for the
      tail. */
  datatype Shape = Shape(held: Disk, es: seq<Entry>, cuts: seq<nat>, tail: Tail)

  function FilesOf(h: Disk, t: Tail): map<Name, seq<Line>>
    requires t.Headless? || t.HeadTorn? ==> Active in h.files
  {
    match t
    case Whole => h.files
    case Torn => h.files[Active := FileOf(h, Active) + [NotJson]]
    case Headless => Renamed(h).files
    case HeadTorn => Renamed(h).files[Active := [NotJson]]
  }

  /** The entries on disk are exactly the chain of the shape, seqs 1..n in one line of descent. */
  ghost predicate OnDisk(cr: Crypto, d: Disk, p: Shape) {
    && (if p.es == [] then p.held == EMPTY_DISK && (p.tail.Whole? || p.tail.Torn?) else Holds(cr, p.held, p.es, p.cuts))
    && d.files == FilesOf(p.held, p.tail)
  }

  /** The invariant of every run: what is on disk is one chain, and the tip file either agrees with it or
      makes every later section refuse. */
  ghost predicate Sound(cr: Crypto, d: Disk, p: Shape) {
    && OnDisk(cr, d, p)
    && !d.tip.BadTip?
    && (p.tail.Headless? ==> d.tip.Tip?)
    && (d.tip.Tip? ==> d.tip.seqNo >= 1)
    && (ReadTip(d).At? ==> p.tail.Whole? && ReadTip(d) == At(|p.es|, LastHash(p.es)))
  }

  /** A rotation that dies right after its rename while no tip file exists yet. */
  predicate LosesHead(d: Disk, s: Section) {
    s.Rotating? && s.reached.RenameDone? && d.tip.NoTip? && CanRotate(d)
  }

  ghost predicate NeverLosesHead(cr: Crypto, d: Disk, ss: seq<Section>) {
    forall i :: 0 <= i < |ss| ==> !LosesHead(Run(cr, d, ss[..i]), ss[i])
  }

  /** Once the file tail and the tip disagree, nothing heals: every later section leaves the directory as it is. */
  lemma {:induction false} RefusedForever(cr: Crypto, d: Disk, ss: seq<Section>)
    requires ReadTip(d).Refused?
    ensures Run(cr, d, ss) == d
    decreases |ss|
  {
    if ss != [] {
      RefusedForever(cr, d, ss[..|ss| - 1]);
    }
  }

  lemma {:induction false} WholeHolds(cr: Crypto, d: Disk, p: Shape)
    requires Sound(cr, d, p) && p.tail.Whole? && p.es != []
    ensures var full := d.(tip := Tip(|p.es|, LastHash(p.es)));
            Holds(cr, full, p.es, p.cuts) && ReadTip(full) == At(|p.es|, LastHash(p.es)) && CanRotate(full)
  {
    HeldTip(cr, d.(tip := Tip(|p.es|, LastHash(p.es))), p.es, p.cuts);
  }

  lemma {:induction false} AppendSound(cr: Crypto, d: Disk, p: Shape, s: Section) returns (p': Shape)
    requires Sound(cr, d, p) && SignerAccepted(cr) && ReadTip(d).At? && s.Appending?
    ensures Sound(cr, Enter(cr, d, s), p') && p.es <= p'.es
  {
    hide Holds, Sealed;
    p' := p;
    if s.upTo.TornLine? {
      p' := p.(tail := Torn);
    } else if !s.upTo.BeforeLine? {
      if p.es == [] {
        p' := FirstWritten(cr, d, s);
      } else {
        WholeHolds(cr, d, p);
        p' := AppendWritten(cr, d, p.es, p.cuts, s);
      }
    }
  }

  lemma {:induction false} FirstWritten(cr: Crypto, d: Disk, s: Section) returns (p': Shape)
    requires s.Appending? && SignerAccepted(cr) && (s.upTo.LineWritten? || s.upTo.TipWritten?)
    requires d.files == map[] && ReadTip(d) == At(0, GENESIS) && !d.tip.BadTip? && (d.tip.Tip? ==> d.tip.seqNo >= 1)
    ensures Sound(cr, Enter(cr, d, s), p')
  {
    hide Holds, Sealed;
    var ts := (_: int) => s.ts;
    var e := FirstAppendHolds(cr, EMPTY_DISK, ts, s.kind, s.actor, s.payload);
    p' := Shape(Append(cr, EMPTY_DISK, ts, s.kind, s.actor, s.payload).value.0, [e], [0], Whole);
  }

  lemma {:induction false} AppendWritten(cr: Crypto, d: Disk, es: seq<Entry>, cuts: seq<nat>, s: Section)
    returns (p': Shape)
    requires s.Appending? && SignerAccepted(cr) && (s.upTo.LineWritten? || s.upTo.TipWritten?)
    requires es != [] && Holds(cr, d.(tip := Tip(|es|, LastHash(es))), es, cuts)
    requires ReadTip(d) == At(|es|, LastHash(es)) && (d.tip.NoTip? || (d.tip.Tip? && d.tip.seqNo >= 1))
    ensures Sound(cr, Enter(cr, d, s), p') && es <= p'.es
  {
    hide Holds, Sealed;
    var full := d.(tip := Tip(|es|, LastHash(es)));
    var ts := (_: int) => s.ts;
    HeldTip(cr, full, es, cuts);
    var e := AppendHolds(cr, full, es, cuts, ts, s.kind, s.actor, s.payload);
    p' := Shape(Append(cr, full, ts, s.kind, s.actor, s.payload).value.0, es + [e], cuts, Whole);
  }

  lemma {:induction false} RotateSound(cr: Crypto, d: Disk, p: Shape, s: Section) returns (p': Shape)
    requires Sound(cr, d, p) && SignerAccepted(cr) && ReadTip(d).At? && s.Rotating? && !LosesHead(d, s)
    ensures Sound(cr, Enter(cr, d, s), p') && p.es <= p'.es
  {
    hide Holds, Renamed, RotationLink, Sealed;
    p' := p;
    if p.es != [] && !s.reached.BeforeRename? {
      WholeHolds(cr, d, p);
      if s.reached.RenameDone? || s.reached.LinkTorn? {
        p' := Shape(d.(tip := Tip(|p.es|, LastHash(p.es))), p.es, p.cuts,
                    if s.reached.RenameDone? then Headless else HeadTorn);
        RotateDied(cr, d, p.es, p.cuts, s);
      } else {
        p' := RotateWritten(cr, d, p.es, p.cuts, s);
      }
    }
  }

  lemma {:induction false} RotateDied(cr: Crypto, d: Disk, es: seq<Entry>, cuts: seq<nat>, s: Section)
    requires s.Rotating? && !LosesHead(d, s) && (s.reached.RenameDone? || s.reached.LinkTorn?)
    requires es != [] && Holds(cr, d.(tip := Tip(|es|, LastHash(es))), es, cuts)
    requires CanRotate(d) && (d.tip.NoTip? || (d.tip.Tip? && d.tip.seqNo >= 1))
    ensures Sound(cr, Enter(cr, d, s), Shape(d.(tip := Tip(|es|, LastHash(es))), es, cuts,
                                             if s.reached.RenameDone? then Headless else HeadTorn))
  {
    hide Holds, FreeSegment, RotationLink, Sealed;
    assert [] + [NotJson] == [NotJson];
    assert Active in d.files;
    assert Active !in Renamed(d).files;
    assert WithLine(Renamed(d), NotJson).files[Active] == [NotJson];
  }

  lemma {:induction false} RotateWritten(cr: Crypto, d: Disk, es: seq<Entry>, cuts: seq<nat>, s: Section)
    returns (p': Shape)
    requires s.Rotating? && SignerAccepted(cr) && (s.reached.LinkWritten? || s.reached.LinkTipWritten?)
    requires es != [] && Holds(cr, d.(tip := Tip(|es|, LastHash(es))), es, cuts)
    requires CanRotate(d) && ReadTip(d) == At(|es|, LastHash(es)) && (d.tip.NoTip? || (d.tip.Tip? && d.tip.seqNo >= 1))
    ensures Sound(cr, Enter(cr, d, s), p') && es <= p'.es
  {
    hide Holds, FreeSegment, Sealed;
    var full := d.(tip := Tip(|es|, LastHash(es)));
    var ts := (_: int) => s.ts;
    HeldTip(cr, full, es, cuts);
    var e := RotateHolds(cr, full, es, cuts, ts, s.actor);
    p' := Shape(Rotate(cr, full, ts, s.actor).value.0, es + [e], cuts + [|es|], Whole);
    assert Renamed(d).files == Renamed(full).files;
  }

  lemma {:induction false} SectionSound(cr: Crypto, d: Disk, p: Shape, s: Section) returns (p': Shape)
    requires Sound(cr, d, p) && SignerAccepted(cr) && !LosesHead(d, s)
    ensures Sound(cr, Enter(cr, d, s), p') && p.es <= p'.es
  {
    hide Sound, Enter, LosesHead, ReadTip;
    p' := p;
    if ReadTip(d).Refused? {
      RefusedForever(cr, d, [s]);
      assert [s][..0] == [];
    } else if s.Appending? {
      p' := AppendSound(cr, d, p, s);
    } else {
      p' := RotateSound(cr, d, p, s);
    }
  }

  lemma {:induction false} TipStays(cr: Crypto, d: Disk, ss: seq<Section>)
    requires d.tip.Tip?
    ensures Run(cr, d, ss).tip.Tip?
    decreases |ss|
  {
    if ss != [] {
      TipStays(cr, d, ss[..|ss| - 1]);
    }
  }

  // ------------------------------------------------------------------ exactly when the chain forks

  /** The head of the chain: where it should be; lost, by a rotation behind which nothing was written since; or doubled
      by a full line written after that. A line torn there is not a head, and makes every later section refuse. */
  datatype Head = There | Lost | Doubled

  function HeadOf(cr: Crypto, d: Disk, ss: seq<Section>): Head {
    if ss == [] then There
    else
      var before, s := ss[..|ss| - 1], ss[|ss| - 1];
      match HeadOf(cr, d, before)
      case There => if LosesHead(Run(cr, d, before), s) then Lost else There
      case Lost => if s.Rotating? || s.upTo.BeforeLine? then Lost else if s.upTo.TornLine? then There else Doubled
      case Doubled => Doubled
  }

  predicate StartsChain(ls: seq<Line>) { ls != [] && ls[0].Full? && ls[0].entry.body.seqNo == 1 }

  /** Two files start a chain at seq 1. */
  ghost predicate TwoHeads(files: map<Name, seq<Line>>) {
    exists m, n :: m in files && n in files && m != n && StartsChain(files[m]) && StartsChain(files[n])
  }

  /** The entries on disk are one chain that extends `es`. */
  ghost predicate OneChainOf(cr: Crypto, d: Disk, es: seq<Entry>) {
    exists p :: OnDisk(cr, d, p) && es <= p.es
  }

  lemma {:induction false} OnlyHead(cr: Crypto, h: Disk, es: seq<Entry>, cuts: seq<nat>, t: Tail, n: Name)
    requires Holds(cr, h, es, cuts)
    requires n in FilesOf(h, t) && StartsChain(FilesOf(h, t)[n])
    ensures n == if |cuts| > 1 || t.Headless? || t.HeadTorn? then Segment(1) else Active
  {
    NextSegment(cr, h, es, cuts);
    var i := if n.Segment? then n.n - 1 else |cuts| - 1;
    assert ChainedAt(cr, es, cuts[i]);
    assert FilesOf(h, t)[n][0] == Full(es[cuts[i]]);
  }

  lemma {:induction false} NotTwoHeads(cr: Crypto, d: Disk, p: Shape)
    requires OnDisk(cr, d, p)
    ensures !TwoHeads(d.files)
  {
    hide Holds, FilesOf;
    if TwoHeads(d.files) {
      var m, n :| m in d.files && n in d.files && m != n && StartsChain(d.files[m]) && StartsChain(d.files[n]);
      if p.es == [] {
        EmptyFiles(p.tail, m);
      } else {
        OnlyHead(cr, p.held, p.es, p.cuts, p.tail, m);
        OnlyHead(cr, p.held, p.es, p.cuts, p.tail, n);
      }
    }
  }

  lemma {:induction false} EmptyFiles(t: Tail, n: Name)
    ensures (t.Whole? || t.Torn?) && n in FilesOf(EMPTY_DISK, t) ==> !StartsChain(FilesOf(EMPTY_DISK, t)[n])
  {
  }

  /** Nothing that is written later takes a head away. */
  lemma {:induction false} HeadsStay(cr: Crypto, d: Disk, s: Section)
    requires TwoHeads(d.files)
    ensures TwoHeads(Enter(cr, d, s).files)
  {
    var m, n :| m in d.files && n in d.files && m != n && StartsChain(d.files[m]) && StartsChain(d.files[n]);
    var files, closed := Enter(cr, d, s).files, Segment(FreeSegment(d.files, 1));
    HeadMoves(cr, d, s, m);
    HeadMoves(cr, d, s, n);
    hide Enter, StartsChain;
    var m' := if m == Active && closed in files then closed else m;
    var n' := if n == Active && closed in files then closed else n;
    assert m' in files && n' in files && m' != n' && StartsChain(files[m']) && StartsChain(files[n']);
  }

  lemma {:induction false} HeadMoves(cr: Crypto, d: Disk, s: Section, n: Name)
    requires n in d.files && StartsChain(d.files[n])
    ensures var files, closed := Enter(cr, d, s).files, Segment(FreeSegment(d.files, 1));
            var n' := if n == Active && closed in files then closed else n;
            n' in files && StartsChain(files[n'])
  {
    hide ReadTip, Sealed, RotationLink;
  }

  /** A directory whose head is lost. */
  ghost predicate HeadIsLost(cr: Crypto, d: Disk, p: Shape) {
    p.es != [] && p.tail.Headless? && OnDisk(cr, d, p) && d.tip.NoTip? && Active !in d.files
  }

  /** What the next section can do with it. */
  lemma {:induction false} WithoutHead(cr: Crypto, d: Disk, p: Shape, s: Section)
    requires HeadIsLost(cr, d, p)
    ensures s.Rotating? || s.upTo.BeforeLine? ==> Enter(cr, d, s) == d
    ensures s.Appending? && s.upTo.TornLine? ==> Sound(cr, Enter(cr, d, s), p.(tail := HeadTorn))
    ensures s.Appending? && (s.upTo.LineWritten? || s.upTo.TipWritten?) ==> TwoHeads(Enter(cr, d, s).files)
  {
    hide Holds;
    assert ReadTip(d) == At(0, GENESIS);
    assert [] + [NotJson] == [NotJson];
    if s.Appending? && (s.upTo.LineWritten? || s.upTo.TipWritten?) {
      var d' := Enter(cr, d, s);
      FirstClosed(cr, p.held, p.es, p.cuts);
      assert StartsChain(d'.files[Active]) && StartsChain(d'.files[Segment(1)]);
    }
  }

  lemma {:induction false} FirstClosed(cr: Crypto, h: Disk, es: seq<Entry>, cuts: seq<nat>)
    requires Holds(cr, h, es, cuts)
    ensures Segment(1) in Renamed(h).files && StartsChain(Renamed(h).files[Segment(1)])
  {
    NextSegment(cr, h, es, cuts);
    assert ChainedAt(cr, es, 0);
  }

  /** What is on disk after any run, by the head. */
  ghost predicate HeadTold(cr: Crypto, d: Disk, head: Head, p: Shape) {
    match head
    case There => Sound(cr, d, p)
    case Lost => HeadIsLost(cr, d, p)
    case Doubled => TwoHeads(d.files)
  }

  lemma {:induction false} HeadTells(cr: Crypto, ss: seq<Section>, d: Disk, p: Shape) returns (p': Shape)
    requires Sound(cr, d, p) && SignerAccepted(cr)
    ensures HeadTold(cr, Run(cr, d, ss), HeadOf(cr, d, ss), p') && p.es <= p'.es
    decreases |ss|
  {
    p' := p;
    if ss != [] {
      hide Sound, HeadIsLost, TwoHeads, Enter, LosesHead, ReadTip;
      var before, s := ss[..|ss| - 1], ss[|ss| - 1];
      p' := HeadTells(cr, before, d, p);
      var d1 := Run(cr, d, before);
      match HeadOf(cr, d, before)
      case There =>
        if LosesHead(d1, s) {
          HeadLost(cr, d1, p', s);
          p' := p'.(tail := Headless);
        } else {
          p' := SectionSound(cr, d1, p', s);
        }
      case Lost =>
        WithoutHead(cr, d1, p', s);
        if s.Appending? && s.upTo.TornLine? {
          p' := p'.(tail := HeadTorn);
        }
      case Doubled => HeadsStay(cr, d1, s);
    }
  }

  lemma {:induction false} HeadLost(cr: Crypto, d: Disk, p: Shape, s: Section)
    requires Sound(cr, d, p) && LosesHead(d, s)
    ensures HeadIsLost(cr, Enter(cr, d, s), p.(tail := Headless))
  {
    hide Holds;
    assert Active in d.files && d.files == p.held.files;
  }

  /** The condition is exact. After any run of sections, each dying wherever it likes, what is on disk is still one
      chain, extending the old one, unless a rotation lost the head and the first section to write after it wrote a
      full line, whether or not it lived to write the tip. */
  lemma {:induction false} ForksExactly(cr: Crypto, ss: seq<Section>, d: Disk, p: Shape)
    requires Sound(cr, d, p) && SignerAccepted(cr)
    ensures OneChainOf(cr, Run(cr, d, ss), p.es) <==> !HeadOf(cr, d, ss).Doubled?
    ensures HeadOf(cr, d, ss).Doubled? ==> TwoHeads(Run(cr, d, ss).files)
  {
    hide OnDisk, TwoHeads, Run, HeadOf;
    var p' := HeadTells(cr, ss, d, p);
    if HeadOf(cr, d, ss).Doubled? {
      forall q | OnDisk(cr, Run(cr, d, ss), q)
        ensures false
      {
        NotTwoHeads(cr, Run(cr, d, ss), q);
      }
    }
  }

  /** And the fork is reachable: a first append that dies before it writes the tip, then such a rotation, then any
      append that gets as far as its line. */
  lemma {:induction false} HeadCanBeLost(cr: Crypto)
    ensures var first := Appending("t1", UserNote, "a", Plain("x"), LineWritten);
            HeadOf(cr, EMPTY_DISK, [first, Rotating("t2", "a", RenameDone), first]) == Doubled
  {
    var first := Appending("t1", UserNote, "a", Plain("x"), LineWritten);
    var rotate := Rotating("t2", "a", RenameDone);
    var ss := [first, rotate, first];
    assert ss[..2] == [first, rotate] && ss[..2][..1] == [first] && [first][..0] == [];
    assert Run(cr, EMPTY_DISK, [first]) == Enter(cr, EMPTY_DISK, first);
    assert LosesHead(Run(cr, EMPTY_DISK, [first]), rotate);
    assert HeadOf(cr, EMPTY_DISK, [first]) == There;
  }

  lemma {:induction false} HeadNeverLost(cr: Crypto, d: Disk, ss: seq<Section>, n: nat)
    requires NeverLosesHead(cr, d, ss) && n <= |ss|
    ensures HeadOf(cr, d, ss[..n]).There?
    decreases n
  {
    hide LosesHead, Run;
    if n > 0 {
      HeadNeverLost(cr, d, ss, n - 1);
      assert ss[..n][..n - 1] == ss[..n - 1] && ss[..n][n - 1] == ss[n - 1];
    }
  }

  /** Interleaved writers with a crash at any step: as long as no rotation loses the head before the first tip
      file is written, the entries on disk form one unforked chain with consecutive seqs that only grows. */
  lemma {:induction false} OneChain(cr: Crypto, ss: seq<Section>, d: Disk, p: Shape) returns (p': Shape)
    requires Sound(cr, d, p) && SignerAccepted(cr) && NeverLosesHead(cr, d, ss)
    ensures Sound(cr, Run(cr, d, ss), p') && p.es <= p'.es
  {
    hide Sound, Run, NeverLosesHead;
    p' := HeadTells(cr, ss, d, p);
    HeadNeverLost(cr, d, ss, |ss|);
    assert ss[..|ss|] == ss;
  }

  /** Once one append has completed no rotation can lose the head, whatever crashes follow: the chain is never
      forked, and while the directory is not refused the tip file is exactly its end. */
  lemma {:induction false} OneChainAfterAppend(cr: Crypto, d: Disk, es: seq<Entry>, cuts: seq<nat>, ss: seq<Section>)
    returns (p': Shape)
    requires Holds(cr, d, es, cuts) && SignerAccepted(cr)
    ensures OnDisk(cr, Run(cr, d, ss), p') && es <= p'.es
    ensures ReadTip(Run(cr, d, ss)).At? ==> p'.tail.Whole? && Run(cr, d, ss).tip == Tip(|p'.es|, LastHash(p'.es))
  {
    HeldTip(cr, d, es, cuts);
    forall i | 0 <= i < |ss|
      ensures !LosesHead(Run(cr, d, ss[..i]), ss[i])
    {
      TipStays(cr, d, ss[..i]);
    }
    TipStays(cr, d, ss);
    p' := OneChain(cr, ss, d, Shape(d, es, cuts, Whole));
  }
}
