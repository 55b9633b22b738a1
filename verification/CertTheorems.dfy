/** What an exit code is worth. */
module CertTheorems {
  import opened Options
  import opened CertChain
  import opened CertClaims
  import opened CertVerdict

  // ------------------------------------------------------------------ exit 0

  /** Every claim the certificate states is what the events say. */
  ghost predicate Agrees(c: Cert, mine: Claims)
    requires c.Cert?
  {
    && (c.lockouts.Some? ==> c.lockouts.value == mine.lockouts)
    && (c.ordersRejected.Some? ==> c.ordersRejected.value == mine.ordersRejected)
    && (c.clock.Some? ==> c.clock.value == (mine.anomalies as int, mine.suspects as int))
    && (c.changeAttempts.Some? ==> c.changeAttempts.value == mine.changeAttempts)
    && (c.limit.Says? ==> mine.status.Undetermined? || c.limit.status == mine.status)
    && (c.limit.SaysFalse? ==> mine.status.Undetermined? || mine.status.Breached?)
    && !c.limit.LimitGarbled?
    && (c.episodes.Some? ==>
          && |c.episodes.value| == |mine.episodes|
          && forall i :: 0 <= i < |mine.episodes| ==> EpisodeAgrees(mine.episodes[i], c.episodes.value[i]))
  }

  predicate EpisodeAgrees(m: Published, t: ClaimedEpisode) {
    && (t.reasons.Some? ==> t.reasons.value == m.reasons) && t.open == m.open
    && (t.precedingEvent.Some? ==> t.precedingEvent.value == m.precedingEvent)
    && (t.precedingSeq.Some? ==> t.precedingSeq.value == m.precedingSeq)
  }

  lemma {:induction false} EpisodesAgree(ms: seq<Published>, ts: seq<ClaimedEpisode>)
    requires |ms| == |ts|
    ensures EpisodesFindings(ms, ts).contradictions == [] <==> forall i :: 0 <= i < |ms| ==> EpisodeAgrees(ms[i], ts[i])
    ensures EpisodesFindings(ms, ts).unevaluable == []
    decreases |ms|
  {
    if ms != [] {
      var init, tinit := ms[..|ms| - 1], ts[..|ts| - 1];
      EpisodesAgree(init, tinit);
      assert forall i :: 0 <= i < |init| ==> init[i] == ms[i] && tinit[i] == ts[i];
      EpisodeAgree(ms[|ms| - 1], ts[|ts| - 1]);
      hide EpisodeAgrees, EpisodeFindings;
      assert (forall i :: 0 <= i < |ms| ==> EpisodeAgrees(ms[i], ts[i]))
             <==>
             EpisodeAgrees(ms[|ms| - 1], ts[|ts| - 1])
             && forall i :: 0 <= i < |init| ==> EpisodeAgrees(init[i], tinit[i]);
    }
  }

  lemma {:induction false} EpisodeAgree(m: Published, t: ClaimedEpisode)
    ensures EpisodeFindings(m, t).contradictions == [] <==> EpisodeAgrees(m, t)
    ensures EpisodeFindings(m, t).unevaluable == []
  {
  }

  /** The comparison finds nothing exactly if every stated claim agrees; and an undetermined limit is never a charge. */
  lemma {:induction false} ClaimsCompared(c: Cert, mine: Claims)
    requires c.Cert?
    ensures ClaimFindings(c, mine).contradictions == [] <==> Agrees(c, mine)
    ensures ClaimFindings(c, mine).unevaluable == []
  {
    hide EpisodesFindings, EpisodeAgrees;
    if c.episodes.Some? && |c.episodes.value| == |mine.episodes| {
      EpisodesAgree(mine.episodes, c.episodes.value);
    }
  }

  predicate Silent(f: Findings) { f.contradictions == [] && f.unevaluable == [] }

  lemma {:induction false} SilentParts(a: Findings, b: Findings)
    ensures Silent(a.Plus(b)) <==> Silent(a) && Silent(b)
    ensures a.Plus(b).contradictions == [] <==> a.contradictions == [] && b.contradictions == []
    ensures a.Plus(b).unevaluable == [] <==> a.unevaluable == [] && b.unevaluable == []
  {
  }

  /** Every part of the ledger findings, silent or not. */
  lemma {:induction false} LedgerParts(c: Cert, d: Dialect, rows: seq<Row>, anchors: seq<Anchor>, a: int, b: int)
    requires c.Cert?
    ensures var loss := LossOf(d, rows, a, b);
            var upTo := if loss.Truncated(b) then loss.absent[0] - 1 else b;
            var mine := Recomputed(rows, a, upTo, loss.chain.ok);
            var checked := CheckAnchors(rows, anchors);
            var f := LedgerFindings(c, d, rows, anchors, a, b);
            && (f.contradictions == [] <==>
                  && CoverFindings(rows, c.dayKey, a, b).contradictions == []
                  && LossFindings(loss, b).contradictions == []
                  && (!loss.Truncated(b) ==> ClaimFindings(c, mine).contradictions == [])
                  && c.documentFaults == []
                  && checked.findings.contradictions == []
                  && !c.signature.BadSignature?
                  && LevelFindings(c.level, Reached(c, loss.chain.ok, checked)) == NONE)
            && (f.unevaluable == [] <==> !loss.Truncated(b))
  {
    hide Findings.Plus, CoverFindings, ClaimFindings, CheckAnchors, Reached, Recomputed, ChainFrom, Absent, UpTo,
         LossFindings, LevelFindings, UnknownFindings, DocumentCodes, EdgeFindings;
    var loss := LossOf(d, rows, a, b);
    var upTo := if loss.Truncated(b) then loss.absent[0] - 1 else b;
    var mine := Recomputed(rows, a, upTo, loss.chain.ok);
    var checked := CheckAnchors(rows, anchors);
    var f1 := UnknownFindings(rows, a, b);
    var f2 := f1.Plus(CoverFindings(rows, c.dayKey, a, b));
    SilentParts(f1, CoverFindings(rows, c.dayKey, a, b));
    var f3 := f2.Plus(LossFindings(loss, b));
    SilentParts(f2, LossFindings(loss, b));
    var claims := if loss.Truncated(b) then Findings([], [CLAIMS_NOT_COMPARABLE], []) else ClaimFindings(c, mine);
    var f4 := f3.Plus(claims);
    SilentParts(f3, claims);
    var f5 := f4.Plus(Findings(DocumentCodes(c.documentFaults), [], []));
    SilentParts(f4, Findings(DocumentCodes(c.documentFaults), [], []));
    var f6 := f5.Plus(checked.findings);
    SilentParts(f5, checked.findings);
    var f7 := f6.Plus(SignatureFindings(c.signature));
    SilentParts(f6, SignatureFindings(c.signature));
    var level := LevelFindings(c.level, Reached(c, loss.chain.ok, checked));
    var f8 := f7.Plus(level);
    SilentParts(f7, level);
    SilentParts(f8, EdgeFindings(checked, b));
    PartFacts(c, d, rows, anchors, a, b, mine);
  }

  lemma {:induction false} PartFacts(c: Cert, d: Dialect, rows: seq<Row>, anchors: seq<Anchor>, a: int, b: int,
                                     mine: Claims)
    requires c.Cert?
    ensures UnknownFindings(rows, a, b).contradictions == [] && UnknownFindings(rows, a, b).unevaluable == []
    ensures CoverFindings(rows, c.dayKey, a, b).unevaluable == []
    ensures ClaimFindings(c, mine).unevaluable == []
    ensures DocumentCodes(c.documentFaults) == [] <==> c.documentFaults == []
    ensures forall l: Loss :: LossFindings(l, b).unevaluable == [] <==> !l.Truncated(b)
    ensures forall l: Option<Level> ::
              LevelFindings(c.level, l).unevaluable == []
              && (LevelFindings(c.level, l).contradictions == [] <==> LevelFindings(c.level, l) == NONE)
    ensures forall k: AnchorCheck :: EdgeFindings(k, b).contradictions == [] && EdgeFindings(k, b).unevaluable == []
    ensures CheckAnchors(rows, anchors).findings.unevaluable == []
  {
    hide CoverFindings, ClaimFindings, CheckAnchors, LossFindings, LevelFindings, EdgeFindings, Agrees;
    CoverFacts(rows, c.dayKey, a, b);
    ClaimsCompared(c, mine);
    NoneUnevaluable(rows, anchors);
    LossFacts(b);
    GradeFacts(c.level, b);
  }

  lemma {:induction false} CoverFacts(rows: seq<Row>, day: Option<string>, a: int, b: int)
    ensures CoverFindings(rows, day, a, b).unevaluable == []
  {
    hide Hidden, ClosedAfter, OpenedBefore, MaterialAfter;
  }

  lemma {:induction false} LossFacts(b: int)
    ensures forall l: Loss :: LossFindings(l, b).unevaluable == [] <==> !l.Truncated(b)
  {
    hide UpTo;
  }

  lemma {:induction false} GradeFacts(level: Level, b: int)
    ensures forall l: Option<Level> ::
              LevelFindings(level, l).unevaluable == []
              && (LevelFindings(level, l).contradictions == [] <==> LevelFindings(level, l) == NONE)
    ensures forall k: AnchorCheck :: EdgeFindings(k, b).contradictions == [] && EdgeFindings(k, b).unevaluable == []
  {
  }

  lemma {:induction false} NoneUnevaluable(rows: seq<Row>, anchors: seq<Anchor>)
    ensures CheckAnchors(rows, anchors).findings.unevaluable == []
    decreases |anchors|
  {
    if anchors != [] {
      NoneUnevaluable(rows, anchors[..|anchors| - 1]);
    }
  }

  /** The anchor names a row of the file by seq and hash. */
  predicate Matches(rows: seq<Row>, a: Anchor) {
    a.seqNo.Some? && a.hash.Some? && BySeq(rows, a.seqNo.value).Some? && BySeq(rows, a.seqNo.value).value.hash == a.hash
  }

  /** Anchors contradict nothing exactly if every one of them matches; then all are counted, and the coverage is the
      highest seq among them. */
  lemma {:induction false} AnchorsMatch(rows: seq<Row>, anchors: seq<Anchor>)
    ensures var r := CheckAnchors(rows, anchors);
            && (r.findings.contradictions == [] <==> forall i :: 0 <= i < |anchors| ==> Matches(rows, anchors[i]))
            && (r.findings.contradictions == [] ==> r.checked == |anchors|)
            && (r.covered.Some? <==> r.checked > 0)
            && (r.findings.contradictions == [] && r.covered.Some? ==>
                  && (forall i :: 0 <= i < |anchors| ==> anchors[i].seqNo.value <= r.covered.value)
                  && (exists i :: 0 <= i < |anchors| && anchors[i].seqNo == r.covered))
    decreases |anchors|
  {
    hide BySeq;
    if anchors != [] {
      var init, a := anchors[..|anchors| - 1], anchors[|anchors| - 1];
      AnchorsMatch(rows, init);
      assert forall i :: 0 <= i < |init| ==> init[i] == anchors[i];
      var r, r0 := CheckAnchors(rows, anchors), CheckAnchors(rows, init);
      if Matches(rows, a) && r0.findings.contradictions == [] {
        assert anchors[|init|] == a;
        if r.covered != a.seqNo {
          var i :| 0 <= i < |init| && init[i].seqNo == r0.covered;
          assert anchors[i].seqNo == r.covered;
        }
      }
    }
  }

  /** The certificate declares a readable ledger and a range. */
  ghost predicate Judged(c: Cert, rows: seq<Row>) {
    c.Cert? && c.dialect.Named? && Conforming(rows) && c.from.Some? && c.to.Some? && c.from.value <= c.to.value
  }

  lemma {:induction false} ExitZeroParts(c: Cert, rows: seq<Row>, anchors: seq<Anchor>)
    ensures ExitCode(Verdict(c, rows, anchors)) == 0 <==>
            && Judged(c, rows) && c.hash.RightHash? && c.documentFaults == [] && !c.signature.BadSignature?
            && var a, b := c.from.value, c.to.value;
               var loss := LossOf(c.dialect.d, rows, a, b);
               var checked := CheckAnchors(rows, anchors);
               && loss.chain.ok && loss.absent == []
               && Agrees(c, Recomputed(rows, a, b, true))
               && checked.findings.contradictions == []
               && CoverFindings(rows, c.dayKey, a, b).contradictions == []
               && LevelFindings(c.level, Reached(c, true, checked)) == NONE
  {
    hide LedgerFindings, CheckAnchors, Recomputed, ChainFrom, Absent, UpTo, CoverFindings, Agrees, Reached,
         LevelFindings, ClaimFindings, Conforming;
    if c.Cert? && c.dialect.Named? && Conforming(rows) && c.from.Some? && c.to.Some? && c.from.value <= c.to.value {
      var a, b := c.from.value, c.to.value;
      var loss := LossOf(c.dialect.d, rows, a, b);
      LedgerParts(c, c.dialect.d, rows, anchors, a, b);
      ClaimsCompared(c, Recomputed(rows, a, b, loss.chain.ok));
    }
  }

  // ------------------------------------------------------------------ the session and the layer

  /** Row i is the one directly before seq s: no row below s has a higher seq, or the same one further down. */
  ghost predicate DirectlyBefore(rows: seq<Row>, s: int, i: nat)
    requires i < |rows|
  {
    && Earlier(rows[i], s)
    && forall j :: 0 <= j < |rows| && Earlier(rows[j], s) ==>
         rows[j].seqNo.value < rows[i].seqNo.value || (rows[j].seqNo == rows[i].seqNo && j <= i)
  }

  lemma {:induction false} BeforeIs(rows: seq<Row>, s: int)
    ensures RowBefore(rows, s).None? <==> forall i :: 0 <= i < |rows| ==> !Earlier(rows[i], s)
    ensures RowBefore(rows, s).Some? ==>
              exists i :: 0 <= i < |rows| && DirectlyBefore(rows, s, i) && RowBefore(rows, s) == Some(rows[i])
    decreases |rows|
  {
    if rows != [] {
      var init, last := rows[..|rows| - 1], rows[|rows| - 1];
      BeforeIs(init, s);
      assert forall j :: 0 <= j < |init| ==> init[j] == rows[j];
      if RowBefore(init, s).Some? {
        var i :| 0 <= i < |init| && DirectlyBefore(init, s, i) && RowBefore(init, s) == Some(init[i]);
        if Earlier(last, s) && init[i].seqNo.value <= last.seqNo.value {
          assert DirectlyBefore(rows, s, |init|);
        } else {
          assert DirectlyBefore(rows, s, i);
        }
      } else if Earlier(last, s) {
        assert DirectlyBefore(rows, s, |init|);
      }
    }
  }

  /** The ledger shows that the session of the certificate reaches past its range: a DAY_CLOSED after it, of that day
      if one is named, or the day's DAY_OPENED before it. */
  ghost predicate ReachesPast(rows: seq<Row>, day: Option<string>, a: int, b: int) {
    || (exists i ::
          0 <= i < |rows| && Later(rows[i], b) && rows[i].kind.DayClosed? && (day.Some? ==> rows[i].dayKey == day))
    || (day.Some? && exists i ::
          0 <= i < |rows| && Earlier(rows[i], a) && rows[i].kind.DayOpened? && rows[i].dayKey == day)
  }

  /** Nothing that would change what the certificate says lies outside the range: no material event, and before it no
      start of the guardian that was not preceded by a clean stop. */
  ghost predicate NothingCutOff(rows: seq<Row>, a: int, b: int) {
    && (forall i :: 0 <= i < |rows| && rows[i].seqNo.Some? && IsMaterial(rows[i].kind) ==> In(rows[i], a, b))
    && (forall i, j ::
          (0 <= i < |rows| && 0 <= j < |rows| && Earlier(rows[i], a) && rows[i].kind.GuardianStarted?
           && DirectlyBefore(rows, rows[i].seqNo.value, j)) ==> rows[j].kind.GuardianStopped?)
  }

  lemma {:induction false} OrphanedIs(rows: seq<Row>, i: nat)
    requires i < |rows| && rows[i].kind.GuardianStarted? && rows[i].seqNo.Some?
    ensures Orphaned(rows, rows[i]) <==>
              exists j ::
                0 <= j < |rows| && DirectlyBefore(rows, rows[i].seqNo.value, j) && !rows[j].kind.GuardianStopped?
  {
    BeforeIs(rows, rows[i].seqNo.value);
  }

  lemma {:induction false} HiddenIs(rows: seq<Row>, a: int, b: int)
    requires a <= b
    ensures Hidden(rows, a, b) <==> !NothingCutOff(rows, a, b)
  {
    hide Orphaned, DirectlyBefore, IsMaterial;
    forall i | 0 <= i < |rows| && rows[i].kind.GuardianStarted? && rows[i].seqNo.Some?
      ensures Orphaned(rows, rows[i]) <==>
              exists j ::
                0 <= j < |rows| && DirectlyBefore(rows, rows[i].seqNo.value, j) && !rows[j].kind.GuardianStopped?
    {
      OrphanedIs(rows, i);
    }
    forall i | 0 <= i < |rows|
      ensures Orphaned(rows, rows[i]) ==> rows[i].kind.GuardianStarted? && rows[i].seqNo.Some?
    {
      OrphanedStarts(rows, rows[i]);
    }
  }

  lemma {:induction false} OrphanedStarts(rows: seq<Row>, r: Row)
    ensures Orphaned(rows, r) ==> r.kind.GuardianStarted? && r.seqNo.Some?
  {
  }

  /** The coverage check contradicts exactly if the session reaches past the range and something is cut off it. */
  lemma {:induction false} SessionCovered(rows: seq<Row>, day: Option<string>, a: int, b: int)
    requires a <= b
    ensures CoverFindings(rows, day, a, b).contradictions == [] <==>
            (ReachesPast(rows, day, a, b) ==> NothingCutOff(rows, a, b))
  {
    hide Hidden, NothingCutOff, MaterialAfter;
    HiddenIs(rows, a, b);
  }

  /** The declared layer is one of the three, and L2 takes an anchor, L3 a good signature on top. */
  predicate Deserved(c: Cert, anchors: seq<Anchor>)
    requires c.Cert?
  {
    match c.level
    case BadLevel => false
    case L1 => true
    case L2 => anchors != []
    case L3 => anchors != [] && c.signature.GoodSignature?
  }

  /** Over a sound chain and anchors that all match, no finding about the layer exactly if it is deserved. */
  lemma {:induction false} LevelDeserved(c: Cert, rows: seq<Row>, anchors: seq<Anchor>)
    requires c.Cert? && c.hash.RightHash? && forall i :: 0 <= i < |anchors| ==> Matches(rows, anchors[i])
    ensures LevelFindings(c.level, Reached(c, true, CheckAnchors(rows, anchors))) == NONE <==> Deserved(c, anchors)
  {
    hide Matches, CheckAnchors;
    AnchorsMatch(rows, anchors);
  }

  /** Exit 0 means, and is had by: the document hashes to its certHash and breaks no rule, every row of the declared
      range is there and its chain recomputes, every claim it states is what the events say, every anchor names a row,
      the signature is not bad, the layer is deserved, and no session that reaches past the range is cut short by it. */
  lemma {:induction false} ExitZeroMeans(c: Cert, rows: seq<Row>, anchors: seq<Anchor>)
    ensures ExitCode(Verdict(c, rows, anchors)) == 0 <==>
            && Judged(c, rows) && c.hash.RightHash? && c.documentFaults == [] && !c.signature.BadSignature?
            && var a, b := c.from.value, c.to.value;
               && ChainFrom(c.dialect.d, rows, a, b, None, 0).ok && (forall s :: a <= s <= b ==> Present(rows, s))
               && Agrees(c, Recomputed(rows, a, b, true))
               && (forall i :: 0 <= i < |anchors| ==> Matches(rows, anchors[i]))
               && Deserved(c, anchors)
               && (ReachesPast(rows, c.dayKey, a, b) ==> NothingCutOff(rows, a, b))
  {
    hide Verdict, CheckAnchors, Recomputed, ChainFrom, Absent, UpTo, CoverFindings, Agrees, Reached, LevelFindings,
         Deserved, Conforming, Matches, ReachesPast, NothingCutOff, Present;
    ExitZeroParts(c, rows, anchors);
    AnchorsMatch(rows, anchors);
    if Judged(c, rows) {
      var a, b := c.from.value, c.to.value;
      NoneAbsent(rows, a, b);
      SessionCovered(rows, c.dayKey, a, b);
      if c.hash.RightHash? && forall i :: 0 <= i < |anchors| ==> Matches(rows, anchors[i]) {
        LevelDeserved(c, rows, anchors);
      }
    }
  }

  lemma {:induction false} NoneAbsent(rows: seq<Row>, a: int, b: int)
    ensures Absent(rows, a, b) == [] <==> forall s :: a <= s <= b ==> Present(rows, s)
  {
    hide Present;
    AbsentIs(rows, a, b);
    if Absent(rows, a, b) != [] {
      assert Absent(rows, a, b)[0] in Absent(rows, a, b);
    }
  }

  /** The lie the coverage check was written against: a range declared so that it ends before a breach of the limit, of
      a session the ledger shows closing later, is contradicted whatever else the certificate gets right. */
  lemma {:induction false} BreachCannotBeCutOff(c: Cert, rows: seq<Row>, anchors: seq<Anchor>, breach: nat, close: nat)
    requires Judged(c, rows) && breach < |rows| && close < |rows|
    requires rows[breach].kind.LimitBreached? && rows[breach].seqNo.Some? && !In(rows[breach], c.from.value, c.to.value)
    requires rows[close].kind.DayClosed? && Later(rows[close], c.to.value)
             && (c.dayKey.Some? ==> rows[close].dayKey == c.dayKey)
    ensures ExitCode(Verdict(c, rows, anchors)) == 1
  {
    hide LedgerFindings, CoverFindings, Conforming;
    var a, b := c.from.value, c.to.value;
    assert !NothingCutOff(rows, a, b);
    assert ReachesPast(rows, c.dayKey, a, b);
    SessionCovered(rows, c.dayKey, a, b);
    LedgerParts(c, c.dialect.d, rows, anchors, a, b);
  }

  /** A document whose hash is missing or wrong is contradicted whatever ledger it is handed with: an unreadable
      ledger is no way around the one check that needs none. */
  lemma {:induction false} ForgedStaysContradicted(c: Cert, rows: seq<Row>, anchors: seq<Anchor>)
    requires c.Cert? && !c.hash.RightHash?
    ensures ExitCode(Verdict(c, rows, anchors)) == 1
  {
    hide LedgerFindings;
  }

  // ------------------------------------------------------------------ a file cut short

  lemma {:induction false} PrefixPresent(d: Dialect, full: seq<Row>, m: nat, s: int)
    requires Honest(d, full) && m <= |full|
    ensures Present(full[..m], s) <==> 1 <= s <= m
  {
    if 1 <= s <= m {
      assert HonestAt(d, full, s - 1);
      assert full[..m][s - 1].seqNo == Some(s);
    }
    if Present(full[..m], s) {
      var i :| 0 <= i < m && full[..m][i].seqNo == Some(s);
      assert HonestAt(d, full, i);
    }
  }

  /** A chain that recomputes goes on recomputing when rows are taken off its end, as long as one in range is left. */
  lemma {:induction false} PrefixChain(d: Dialect, rows: seq<Row>, m: nat, a: int, b: int, prev: Option<string>,
                                       seen: nat)
    requires m <= |rows| && ChainFrom(d, rows, a, b, prev, seen).ok
    requires seen > 0 || exists i :: 0 <= i < m && In(rows[i], a, b)
    ensures ChainFrom(d, rows[..m], a, b, prev, seen).ok
    decreases |rows|
  {
    if m > 0 {
      var r := rows[0];
      assert rows[..m][1..] == rows[1..][..m - 1];
      if In(r, a, b) {
        PrefixChain(d, rows[1..], m - 1, a, b, r.hash, seen + 1);
      } else {
        if seen == 0 {
          var i :| 0 <= i < m && In(rows[i], a, b);
          assert In(rows[1..][i - 1], a, b);
        }
        PrefixChain(d, rows[1..], m - 1, a, b, prev, seen);
      }
    }
  }

  lemma {:induction false} PrefixAbsent(d: Dialect, full: seq<Row>, m: nat, a: int, b: int)
    requires Honest(d, full) && 1 <= a <= m < b && m <= |full|
    ensures Absent(full[..m], a, b) == UpTo(m + 1, b) && UpTo(m + 1, b) != [] && UpTo(m + 1, b)[0] == m + 1
  {
    hide Present, Honest;
    forall s
      ensures Present(full[..m], s) <==> 1 <= s <= m
    {
      PrefixPresent(d, full, m, s);
    }
    SuffixAbsent(full[..m], a, b, m + 1);
    AllAbsent(full[..m], m + 1, b);
    UpToIs(m + 1, b);
  }

  lemma {:induction false} BySeqPrefix(d: Dialect, full: seq<Row>, m: nat, s: int)
    requires Honest(d, full) && m <= |full| && s <= m
    ensures BySeq(full[..m], s) == BySeq(full, s)
    decreases |full|
  {
    if m < |full| {
      var init := full[..|full| - 1];
      assert HonestAt(d, full, |full| - 1);
      HonestShorter(d, full);
      BySeqPrefix(d, init, m, s);
      assert init[..m] == full[..m];
    } else {
      assert full[..m] == full;
    }
  }

  lemma {:induction false} HonestShorter(d: Dialect, full: seq<Row>)
    requires Honest(d, full) && full != []
    ensures Honest(d, full[..|full| - 1])
  {
    var init := full[..|full| - 1];
    forall i | 0 <= i < |init|
      ensures HonestAt(d, init, i)
    {
      assert HonestAt(d, full, i);
    }
  }

  lemma {:induction false} AnchorsPrefix(d: Dialect, full: seq<Row>, m: nat, anchors: seq<Anchor>)
    requires Honest(d, full) && m <= |full|
    requires forall i :: 0 <= i < |anchors| && anchors[i].seqNo.Some? ==> anchors[i].seqNo.value <= m
    ensures CheckAnchors(full[..m], anchors) == CheckAnchors(full, anchors)
    decreases |anchors|
  {
    hide BySeq, Honest;
    if anchors != [] {
      var init, a := anchors[..|anchors| - 1], anchors[|anchors| - 1];
      AnchorsPrefix(d, full, m, init);
      if a.seqNo.Some? {
        BySeqPrefix(d, full, m, a.seqNo.value);
      }
    }
  }

  lemma {:induction false} BeforePrefix(d: Dialect, full: seq<Row>, m: nat, s: int)
    requires Honest(d, full) && m <= |full| && s <= m
    ensures RowBefore(full[..m], s) == RowBefore(full, s)
    decreases |full|
  {
    if m < |full| {
      var init := full[..|full| - 1];
      assert HonestAt(d, full, |full| - 1);
      HonestShorter(d, full);
      BeforePrefix(d, init, m, s);
      assert init[..m] == full[..m];
    } else {
      assert full[..m] == full;
    }
  }

  /** What a prefix shows outside its range the whole ledger shows too. */
  lemma {:induction false} CoverPrefix(d: Dialect, full: seq<Row>, m: nat, day: Option<string>, a: int, b: int)
    requires Honest(d, full) && 1 <= a <= m < b && m <= |full|
    requires CoverFindings(full, day, a, b).contradictions == []
    ensures CoverFindings(full[..m], day, a, b).contradictions == []
  {
    hide RowBefore, Honest;
    var cut := full[..m];
    forall i | 0 <= i < m
      ensures cut[i] == full[i] && full[i].seqNo == Some(i + 1)
    {
      assert HonestAt(d, full, i) by { HonestGives(d, full, i); }
    }
    assert !ClosedAfter(cut, b, day);
    if day.Some? && OpenedBefore(cut, a, day.value) {
      var i :| 0 <= i < |cut| && Earlier(cut[i], a) && cut[i].kind.DayOpened? && cut[i].dayKey == day;
      assert Earlier(full[i], a) && full[i].kind.DayOpened? && full[i].dayKey == day;
      assert OpenedBefore(full, a, day.value);
      if Hidden(cut, a, b) {
        HiddenPrefix(d, full, m, a, b);
      }
    }
  }

  lemma {:induction false} HonestGives(d: Dialect, full: seq<Row>, i: nat)
    ensures Honest(d, full) && i < |full| ==> HonestAt(d, full, i)
  {
  }

  lemma {:induction false} HiddenPrefix(d: Dialect, full: seq<Row>, m: nat, a: int, b: int)
    requires Honest(d, full) && 1 <= a <= m < b && m <= |full| && Hidden(full[..m], a, b)
    ensures Hidden(full, a, b)
  {
    var cut := full[..m];
    var i :| 0 <= i < |cut| &&
      (((Earlier(cut[i], a) || Later(cut[i], b)) && IsMaterial(cut[i].kind))
       || (Earlier(cut[i], a) && Orphaned(cut, cut[i])));
    assert HonestAt(d, full, i);
    assert cut[i] == full[i];
    BeforePrefix(d, full, m, i + 1);
    assert Orphaned(cut, cut[i]) <==> Orphaned(full, full[i]);
  }

  /** A file cut short is not a lie: a certificate that exits 0 on the full ledger exits 2, with no contradiction, on
      every prefix that ends inside its range, as long as no anchor handed in lies past the cut. */
  lemma {:induction false} CutIsUnevaluable(c: Cert, full: seq<Row>, m: nat, anchors: seq<Anchor>)
    requires Judged(c, full) && Honest(c.dialect.d, full)
    requires c.from.value <= m < c.to.value && m <= |full|
    requires forall i :: 0 <= i < |anchors| && anchors[i].seqNo.Some? ==> anchors[i].seqNo.value <= m
    ensures ExitCode(Verdict(c, full, anchors)) == 0 ==>
              var f := Verdict(c, full[..m], anchors);
              ExitCode(f) == 2 && f.contradictions == []
  {
    hide LedgerFindings, CheckAnchors, Recomputed, CoverFindings, Agrees, Reached, LevelFindings, ClaimFindings,
         ChainFrom, Absent, UpTo, Honest;
    var d, a, b := c.dialect.d, c.from.value, c.to.value;
    var cut := full[..m];
    ExitZeroParts(c, full, anchors);
    if ExitCode(Verdict(c, full, anchors)) == 0 {
      RangePositive(d, full, a, b);
      CutChains(d, full, m, a, b);
      PrefixAbsent(d, full, m, a, b);
      AnchorsPrefix(d, full, m, anchors);
      CoverPrefix(d, full, m, c.dayKey, a, b);
      assert Conforming(cut);
      LedgerParts(c, d, cut, anchors, a, b);
    }
  }

  lemma {:induction false} RangePositive(d: Dialect, full: seq<Row>, a: int, b: int)
    requires Honest(d, full) && a <= b && Absent(full, a, b) == []
    ensures 1 <= a && b <= |full|
  {
    assert full[..|full|] == full;
    AbsentIs(full, a, b);
    PrefixPresent(d, full, |full|, a);
    PrefixPresent(d, full, |full|, b);
    assert a !in Absent(full, a, b) && b !in Absent(full, a, b);
  }

  lemma {:induction false} CutChains(d: Dialect, full: seq<Row>, m: nat, a: int, b: int)
    requires Honest(d, full) && 1 <= a <= m < b && m <= |full| && ChainFrom(d, full, a, b, None, 0).ok
    ensures ChainFrom(d, full[..m], a, b, None, 0).ok
  {
    assert HonestAt(d, full, m - 1);
    assert In(full[m - 1], a, b);
    PrefixChain(d, full, m, a, b, None, 0);
  }
}
