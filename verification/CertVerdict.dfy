/** verify_certificate: one certificate against one ledger file and the anchors a third party kept. What the
    document alone settles (its hash, the wording rules, the signature) comes in as fields of the certificate. */
module CertVerdict {
  import opened Options
  import opened CertChain
  import opened CertClaims

  datatype Code =
    | CERT_MALFORMED | CERTHASH_MISSING | CERTHASH_MISMATCH | DIALECT_MISSING | DIALECT_UNKNOWN | DIALECT_MISMATCH
    | NOTHING_ELSE_CHECKED | RANGE_MISSING | UNKNOWN_EVENT_KIND | SCOPE_MISSING | RANGE_TRUNCATED
    | SESSION_NOT_FULLY_COVERED | POST_RANGE_MATERIAL_EVENTS | CHAIN_BROKEN | LEDGER_TRUNCATED | RANGE_INCOMPLETE
    | CLAIMS_NOT_COMPARABLE | CLAIM_ABSENT | CLAIM_MISMATCH | LIMIT_UNDETERMINED | DOCUMENT(rule: string)
    | ANCHOR_MALFORMED | ANCHOR_MISMATCH | SIGNATURE_UNCHECKED | SIGNATURE_INVALID
    | TRUST_LEVEL_OVERSTATED | TRUST_LEVEL_INVALID
    | NO_EXTERNAL_ANCHOR | ANCHOR_COVERAGE_PARTIAL | OTHER_VENUES | PRE_START_BYPASS | TRADES_OBSERVED

  datatype HashState = NoHash | WrongHash | RightHash
  datatype DialectName = NoName | UnknownName | Named(d: Dialect)
  datatype LimitClaim = LimitAbsent | LimitGarbled | SaysFalse | Says(status: Status)
  datatype Level = L1 | L2 | L3 | BadLevel
  datatype Signature = Unsigned | Unchecked | BadSignature | GoodSignature

  /** A field the certificate may lack is an Option. */
  datatype ClaimedEpisode = ClaimedEpisode(reasons: Option<multiset<Kind>>, open: bool,
                                           precedingEvent: Option<Option<Kind>>, precedingSeq: Option<Option<int>>)

  datatype Cert =
    | NotAnObject
    | Cert(hash: HashState, dialect: DialectName, dayKey: Option<string>, from: Option<int>, to: Option<int>,
           limit: LimitClaim, lockouts: Option<int>, ordersRejected: Option<int>, clock: Option<(int, int)>,
           changeAttempts: Option<int>, episodes: Option<seq<ClaimedEpisode>>,
           documentFaults: seq<string>, level: Level, signature: Signature)

  datatype Anchor = Anchor(seqNo: Option<int>, hash: Option<string>)

  /** What the verifier holds against the certificate, could not verify, and could not evaluate. */
  datatype Findings = Findings(contradictions: seq<Code>, unverified: seq<Code>, unevaluable: seq<Code>) {
    function Plus(o: Findings): Findings {
      Findings(contradictions + o.contradictions, unverified + o.unverified, unevaluable + o.unevaluable)
    }
  }

  const NONE := Findings([], [], [])

  function Contradicts(c: Code): Findings { Findings([c], [], []) }
  function CannotVerify(c: Code): Findings { Findings([], [c], []) }
  function CannotEvaluate(c: Code): Findings { Findings([], [], [c]) }

  // ------------------------------------------------------------------ the pieces

  function HashFindings(c: Cert): Findings
    requires c.Cert?
  {
    match c.hash
    case NoHash => Contradicts(CERTHASH_MISSING)
    case WrongHash => Contradicts(CERTHASH_MISMATCH)
    case RightHash => NONE
  }

  predicate Conforming(rows: seq<Row>) { rows != [] && forall i :: 0 <= i < |rows| ==> rows[i].conforms }

  function UnknownFindings(rows: seq<Row>, a: int, b: int): Findings {
    if exists i :: 0 <= i < |rows| && In(rows[i], a, b) && rows[i].kind.Unheard?
    then CannotVerify(UNKNOWN_EVENT_KIND) else NONE
  }

  predicate Earlier(r: Row, a: int) { r.seqNo.Some? && r.seqNo.value < a }
  predicate Later(r: Row, b: int) { r.seqNo.Some? && r.seqNo.value > b }

  /** The row of the highest seq below s; of several, the one furthest down the file. */
  function RowBefore(rows: seq<Row>, s: int): Option<Row> {
    if rows == [] then None
    else
      var best := RowBefore(rows[..|rows| - 1], s);
      var last := rows[|rows| - 1];
      if Earlier(last, s) && (best.None? || best.value.seqNo.None? || best.value.seqNo.value <= last.seqNo.value)
      then Some(last) else best
  }

  /** A start with something before it that is not a clean stop. */
  predicate Orphaned(rows: seq<Row>, r: Row) {
    r.kind.GuardianStarted? && r.seqNo.Some? && RowBefore(rows, r.seqNo.value).Some?
    && !RowBefore(rows, r.seqNo.value).value.kind.GuardianStopped?
  }

  predicate Hidden(rows: seq<Row>, a: int, b: int) {
    exists i :: 0 <= i < |rows| &&
      (((Earlier(rows[i], a) || Later(rows[i], b)) && IsMaterial(rows[i].kind))
       || (Earlier(rows[i], a) && Orphaned(rows, rows[i])))
  }

  predicate OpenedBefore(rows: seq<Row>, a: int, day: string) {
    exists i :: 0 <= i < |rows| && Earlier(rows[i], a) && rows[i].kind.DayOpened? && rows[i].dayKey == Some(day)
  }

  predicate ClosedAfter(rows: seq<Row>, b: int, day: Option<string>) {
    exists i :: 0 <= i < |rows| && Later(rows[i], b) && rows[i].kind.DayClosed? && (day.Some? ==> rows[i].dayKey == day)
  }

  predicate MaterialAfter(rows: seq<Row>, b: int) {
    exists i :: 0 <= i < |rows| && Later(rows[i], b) && IsMaterial(rows[i].kind)
  }

  /** `_check_range_covers_its_day`. */
  function CoverFindings(rows: seq<Row>, day: Option<string>, a: int, b: int): Findings {
    var edge := ClosedAfter(rows, b, day) || (day.Some? && OpenedBefore(rows, a, day.value));
    var scope := if day.None? then CannotVerify(SCOPE_MISSING) else NONE;
    if edge then
      scope.Plus(if Hidden(rows, a, b) then Contradicts(RANGE_TRUNCATED) else CannotVerify(SESSION_NOT_FULLY_COVERED))
    else if MaterialAfter(rows, b) then scope.Plus(CannotVerify(POST_RANGE_MATERIAL_EVENTS))
    else scope
  }

  function LossFindings(l: Loss, b: int): Findings {
    (if l.chain.ok then NONE else Contradicts(CHAIN_BROKEN))
      .Plus(if l.Truncated(b) then CannotEvaluate(LEDGER_TRUNCATED)
            else if l.absent != [] then Contradicts(RANGE_INCOMPLETE)
            else NONE)
  }

  function Compare<T(==)>(mine: T, theirs: Option<T>): Findings {
    if theirs.None? then CannotVerify(CLAIM_ABSENT)
    else if theirs.value != mine then Contradicts(CLAIM_MISMATCH)
    else NONE
  }

  /** `_compare_limit`: an undetermined state is never a charge. */
  function LimitFindings(mine: Status, theirs: LimitClaim): Findings {
    match theirs
    case LimitAbsent => CannotVerify(CLAIM_ABSENT)
    case LimitGarbled => Contradicts(CLAIM_MISMATCH)
    case SaysFalse =>
      if mine.Undetermined? then CannotVerify(LIMIT_UNDETERMINED)
      else if mine.Breached? then NONE
      else Contradicts(CLAIM_MISMATCH)
    case Says(s) =>
      if mine.Undetermined? then CannotVerify(LIMIT_UNDETERMINED)
      else if s == mine then NONE
      else Contradicts(CLAIM_MISMATCH)
  }

  function EpisodeFindings(m: Published, t: ClaimedEpisode): Findings {
    (if t.reasons.Some? && t.reasons.value != m.reasons then Contradicts(CLAIM_MISMATCH) else NONE)
      .Plus(if t.open != m.open then Contradicts(CLAIM_MISMATCH) else NONE)
      .Plus(Compare(m.precedingEvent, t.precedingEvent))
      .Plus(if t.precedingSeq.Some? && t.precedingSeq.value != m.precedingSeq
            then Contradicts(CLAIM_MISMATCH) else NONE)
  }

  function EpisodesFindings(ms: seq<Published>, ts: seq<ClaimedEpisode>): Findings
    requires |ms| == |ts|
  {
    if ms == [] then NONE
    else EpisodesFindings(ms[..|ms| - 1], ts[..|ts| - 1]).Plus(EpisodeFindings(ms[|ms| - 1], ts[|ts| - 1]))
  }

  function ClaimFindings(c: Cert, mine: Claims): Findings
    requires c.Cert?
  {
    LimitFindings(mine.status, c.limit)
      .Plus(Compare(mine.lockouts as int, c.lockouts))
      .Plus(Compare(mine.ordersRejected as int, c.ordersRejected))
      .Plus(Compare((mine.anomalies as int, mine.suspects as int), c.clock))
      .Plus(Compare(mine.changeAttempts as int, c.changeAttempts))
      .Plus(if c.episodes.None? then CannotVerify(CLAIM_ABSENT)
            else if |c.episodes.value| != |mine.episodes| then Contradicts(CLAIM_MISMATCH)
            else EpisodesFindings(mine.episodes, c.episodes.value))
  }

  function DocumentCodes(faults: seq<string>): seq<Code> {
    seq(|faults|, i requires 0 <= i < |faults| => DOCUMENT(faults[i]))
  }

  /** The row an anchor's seq names: of several, the one furthest down the file. */
  function BySeq(rows: seq<Row>, s: int): Option<Row> {
    if rows == [] then None
    else if rows[|rows| - 1].seqNo == Some(s) then Some(rows[|rows| - 1])
    else BySeq(rows[..|rows| - 1], s)
  }

  datatype AnchorCheck = AnchorCheck(findings: Findings, checked: nat, covered: Option<int>)

  function AnchorStep(rows: seq<Row>, c: AnchorCheck, a: Anchor): AnchorCheck {
    if a.seqNo.None? || a.hash.None? then c.(findings := c.findings.Plus(Contradicts(ANCHOR_MALFORMED)))
    else
      var row := BySeq(rows, a.seqNo.value);
      if row.None? || row.value.hash != a.hash then c.(findings := c.findings.Plus(Contradicts(ANCHOR_MISMATCH)))
      else AnchorCheck(c.findings, c.checked + 1,
                       Some(if c.covered.None? || c.covered.value < a.seqNo.value then a.seqNo.value
                            else c.covered.value))
  }

  function CheckAnchors(rows: seq<Row>, anchors: seq<Anchor>): AnchorCheck {
    if anchors == [] then AnchorCheck(NONE, 0, None)
    else AnchorStep(rows, CheckAnchors(rows, anchors[..|anchors| - 1]), anchors[|anchors| - 1])
  }

  function SignatureFindings(s: Signature): Findings {
    match s
    case Unsigned => NONE
    case Unchecked => CannotVerify(SIGNATURE_UNCHECKED)
    case BadSignature => Contradicts(SIGNATURE_INVALID)
    case GoodSignature => NONE
  }

  function Rank(l: Level): nat { match l case L1 => 1 case L2 => 2 case L3 => 3 case BadLevel => 0 }

  /** The layer actually reached. */
  function Reached(c: Cert, chainOk: bool, anchors: AnchorCheck): Option<Level>
    requires c.Cert?
  {
    if !chainOk || !c.hash.RightHash? then None
    else if anchors.checked == 0 || anchors.findings.contradictions != [] then Some(L1)
    else if c.signature.GoodSignature? then Some(L3)
    else Some(L2)
  }

  function LevelFindings(declared: Level, reached: Option<Level>): Findings {
    if declared.BadLevel? then Contradicts(TRUST_LEVEL_INVALID)
    else if reached.Some? && Rank(declared) > Rank(reached.value) then Contradicts(TRUST_LEVEL_OVERSTATED)
    else NONE
  }

  function EdgeFindings(anchors: AnchorCheck, b: int): Findings {
    (if anchors.checked == 0 then CannotVerify(NO_EXTERNAL_ANCHOR)
     else if anchors.covered.Some? && anchors.covered.value < b then CannotVerify(ANCHOR_COVERAGE_PARTIAL) else NONE)
      .Plus(Findings([], [OTHER_VENUES, PRE_START_BYPASS, TRADES_OBSERVED], []))
  }

  /** The findings of the part that reads the ledger. */
  function LedgerFindings(c: Cert, d: Dialect, rows: seq<Row>, anchors: seq<Anchor>, a: int, b: int): Findings
    requires c.Cert?
  {
    var loss := LossOf(d, rows, a, b);
    var upTo := if loss.Truncated(b) then loss.absent[0] - 1 else b;
    var mine := Recomputed(rows, a, upTo, loss.chain.ok);
    var checked := CheckAnchors(rows, anchors);
    UnknownFindings(rows, a, b)
      .Plus(CoverFindings(rows, c.dayKey, a, b))
      .Plus(LossFindings(loss, b))
      .Plus(if loss.Truncated(b) then CannotVerify(CLAIMS_NOT_COMPARABLE) else ClaimFindings(c, mine))
      .Plus(Findings(DocumentCodes(c.documentFaults), [], []))
      .Plus(checked.findings)
      .Plus(SignatureFindings(c.signature))
      .Plus(LevelFindings(c.level, Reached(c, loss.chain.ok, checked)))
      .Plus(EdgeFindings(checked, b))
  }

  function Verdict(c: Cert, rows: seq<Row>, anchors: seq<Anchor>): Findings {
    if c.NotAnObject? then CannotEvaluate(CERT_MALFORMED)
    else
      HashFindings(c).Plus(
        match c.dialect
        case NoName => Contradicts(DIALECT_MISSING)
        case UnknownName => CannotEvaluate(DIALECT_UNKNOWN)
        case Named(d) =>
          if !Conforming(rows) then Findings([], [NOTHING_ELSE_CHECKED], [DIALECT_MISMATCH])
          else if c.from.None? || c.to.None? || c.from.value > c.to.value then Contradicts(RANGE_MISSING)
          else LedgerFindings(c, d, rows, anchors, c.from.value, c.to.value))
  }

  /** Contradicted outranks unevaluable. */
  function ExitCode(f: Findings): nat {
    if f.contradictions != [] then 1 else if f.unevaluable != [] then 2 else 0
  }

  // ------------------------------------------------------------------ the report, filled in place

  class CertReport {
    var contradictions: seq<Code>
    var unverified: seq<Code>
    var unevaluable: seq<Code>
    var chainOk: Option<bool>
    var effectiveTo: Option<int>
    var recomputed: Option<Claims>
    var anchorsChecked: nat
    var covered: Option<int>
    var reached: Option<Level>
    var stoppedBeforeTheLedger: bool

    constructor ()
      ensures Found() == NONE && chainOk.None? && anchorsChecked == 0 && covered.None?
    {
      contradictions, unverified, unevaluable := [], [], [];
      chainOk, effectiveTo, recomputed, anchorsChecked, covered, reached := None, None, None, 0, None, None;
      stoppedBeforeTheLedger := false;
    }

    function Found(): Findings
      reads this
    {
      Findings(contradictions, unverified, unevaluable)
    }

    method Contradict(c: Code)
      modifies this`contradictions
      ensures Found() == old(Found()).Plus(Contradicts(c))
    {
      contradictions := contradictions + [c];
    }

    method CannotVerify(c: Code)
      modifies this`unverified
      ensures Found() == old(Found()).Plus(Findings([], [c], []))
    {
      unverified := unverified + [c];
    }

    method CannotEvaluate(c: Code)
      modifies this`unevaluable
      ensures Found() == old(Found()).Plus(Findings([], [], [c]))
    {
      unevaluable := unevaluable + [c];
    }

    method ContradictIf(wrong: bool, c: Code)
      modifies this`contradictions
      ensures Found() == old(Found()).Plus(if wrong then Contradicts(c) else NONE)
    {
      if wrong { Contradict(c); }
    }

    method CheckHash(c: Cert)
      requires c.Cert?
      modifies this`contradictions
      ensures Found() == old(Found()).Plus(HashFindings(c))
    {
      if c.hash.NoHash? {
        Contradict(CERTHASH_MISSING);
      } else if c.hash.WrongHash? {
        Contradict(CERTHASH_MISMATCH);
      }
    }

    /** `_check_range_covers_its_day`. */
    method CheckCover(rows: seq<Row>, day: Option<string>, a: int, b: int)
      modifies this`contradictions, this`unverified
      ensures Found() == old(Found()).Plus(CoverFindings(rows, day, a, b))
    {
      hide ClosedAfter, OpenedBefore, Hidden, MaterialAfter;
      var edge := ClosedAfter(rows, b, day);
      if day.Some? {
        edge := edge || OpenedBefore(rows, a, day.value);
      } else {
        CannotVerify(SCOPE_MISSING);
      }
      if edge {
        if Hidden(rows, a, b) { Contradict(RANGE_TRUNCATED); } else { CannotVerify(SESSION_NOT_FULLY_COVERED); }
      } else if MaterialAfter(rows, b) {
        CannotVerify(POST_RANGE_MATERIAL_EVENTS);
      }
    }

    method CheckLoss(l: Loss, a: int, b: int)
      modifies this`contradictions, this`unevaluable, this`chainOk, this`effectiveTo
      ensures Found() == old(Found()).Plus(LossFindings(l, b))
      ensures chainOk == Some(l.chain.ok) && effectiveTo == Some(if l.Truncated(b) then l.absent[0] - 1 else b)
    {
      hide UpTo;
      chainOk := Some(l.chain.ok);
      if !l.chain.ok { Contradict(CHAIN_BROKEN); }
      var truncated := l.Truncated(b);
      if truncated {
        CannotEvaluate(LEDGER_TRUNCATED);
      } else if l.absent != [] {
        Contradict(RANGE_INCOMPLETE);
      }
      effectiveTo := Some(if truncated then l.absent[0] - 1 else b);
    }

    method CompareClaim<T(==)>(mine: T, theirs: Option<T>)
      modifies this`contradictions, this`unverified
      ensures Found() == old(Found()).Plus(Compare(mine, theirs))
    {
      if theirs.None? {
        CannotVerify(CLAIM_ABSENT);
      } else if theirs.value != mine {
        Contradict(CLAIM_MISMATCH);
      }
    }

    /** `_compare_limit`. */
    method CompareLimit(mine: Status, theirs: LimitClaim)
      modifies this`contradictions, this`unverified
      ensures Found() == old(Found()).Plus(LimitFindings(mine, theirs))
    {
      if theirs.LimitAbsent? { CannotVerify(CLAIM_ABSENT); return; }
      if theirs.LimitGarbled? { Contradict(CLAIM_MISMATCH); return; }
      if mine.Undetermined? { CannotVerify(LIMIT_UNDETERMINED); return; }
      var said := if theirs.SaysFalse? then Breached else theirs.status;
      if said != mine { Contradict(CLAIM_MISMATCH); }
    }

    method CompareEpisode(m: Published, t: ClaimedEpisode)
      modifies this`contradictions, this`unverified
      ensures Found() == old(Found()).Plus(EpisodeFindings(m, t))
    {
      hide Findings.Plus, Compare;
      ghost var f := Found();
      ContradictIf(t.reasons.Some? && t.reasons.value != m.reasons, CLAIM_MISMATCH);
      ContradictIf(t.open != m.open, CLAIM_MISMATCH);
      CompareClaim(m.precedingEvent, t.precedingEvent);
      ContradictIf(t.precedingSeq.Some? && t.precedingSeq.value != m.precedingSeq, CLAIM_MISMATCH);
      PlusFour(f, if t.reasons.Some? && t.reasons.value != m.reasons then Contradicts(CLAIM_MISMATCH) else NONE,
               if t.open != m.open then Contradicts(CLAIM_MISMATCH) else NONE,
               Compare(m.precedingEvent, t.precedingEvent),
               if t.precedingSeq.Some? && t.precedingSeq.value != m.precedingSeq
               then Contradicts(CLAIM_MISMATCH) else NONE);
    }

    method CompareEpisodes(ms: seq<Published>, ts: seq<ClaimedEpisode>)
      requires |ms| == |ts|
      modifies this`contradictions, this`unverified
      ensures Found() == old(Found()).Plus(EpisodesFindings(ms, ts))
    {
      hide EpisodeFindings, Findings.Plus;
      PlusNone(Found());
      var i := 0;
      while i < |ms|
        invariant 0 <= i <= |ms|
        invariant Found() == old(Found()).Plus(EpisodesFindings(ms[..i], ts[..i]))
      {
        assert ms[..i + 1][..i] == ms[..i] && ts[..i + 1][..i] == ts[..i];
        PlusAssociates(old(Found()), EpisodesFindings(ms[..i], ts[..i]), EpisodeFindings(ms[i], ts[i]));
        CompareEpisode(ms[i], ts[i]);
        i := i + 1;
      }
      assert ms[..|ms|] == ms && ts[..|ts|] == ts;
    }

    method CompareClaims(c: Cert, mine: Claims)
      requires c.Cert?
      modifies this`contradictions, this`unverified
      ensures Found() == old(Found()).Plus(ClaimFindings(c, mine))
    {
      hide LimitFindings, EpisodesFindings, Compare, Findings.Plus;
      ghost var f := Found();
      CompareLimit(mine.status, c.limit);
      CompareClaim(mine.lockouts as int, c.lockouts);
      CompareClaim(mine.ordersRejected as int, c.ordersRejected);
      CompareClaim((mine.anomalies as int, mine.suspects as int), c.clock);
      CompareClaim(mine.changeAttempts as int, c.changeAttempts);
      ghost var g := Found();
      if c.episodes.None? {
        CannotVerify(CLAIM_ABSENT);
      } else if |c.episodes.value| != |mine.episodes| {
        Contradict(CLAIM_MISMATCH);
      } else {
        CompareEpisodes(mine.episodes, c.episodes.value);
      }
      PlusSix(f, LimitFindings(mine.status, c.limit), Compare(mine.lockouts as int, c.lockouts),
              Compare(mine.ordersRejected as int, c.ordersRejected),
              Compare((mine.anomalies as int, mine.suspects as int), c.clock),
              Compare(mine.changeAttempts as int, c.changeAttempts),
              if c.episodes.None? then Findings([], [CLAIM_ABSENT], [])
              else if |c.episodes.value| != |mine.episodes| then Contradicts(CLAIM_MISMATCH)
              else EpisodesFindings(mine.episodes, c.episodes.value));
    }

    /** `_check_anchors`. */
    method CheckAnchorsAgainst(rows: seq<Row>, anchors: seq<Anchor>)
      requires anchorsChecked == 0 && covered.None?
      modifies this`contradictions, this`anchorsChecked, this`covered
      ensures var r := CheckAnchors(rows, anchors);
              Found() == old(Found()).Plus(r.findings) && anchorsChecked == r.checked && covered == r.covered
    {
      hide Findings.Plus, AnchorStep;
      PlusNone(Found());
      var i := 0;
      while i < |anchors|
        invariant 0 <= i <= |anchors|
        invariant var r := CheckAnchors(rows, anchors[..i]);
                  Found() == old(Found()).Plus(r.findings) && anchorsChecked == r.checked && covered == r.covered
      {
        assert anchors[..i + 1][..i] == anchors[..i];
        CheckAnchor(rows, anchors[i], old(Found()), CheckAnchors(rows, anchors[..i]));
        i := i + 1;
      }
      assert anchors[..|anchors|] == anchors;
    }

    method CheckAnchor(rows: seq<Row>, a: Anchor, ghost f: Findings, ghost r: AnchorCheck)
      requires Found() == f.Plus(r.findings) && anchorsChecked == r.checked && covered == r.covered
      modifies this`contradictions, this`anchorsChecked, this`covered
      ensures var r' := AnchorStep(rows, r, a);
              Found() == f.Plus(r'.findings) && anchorsChecked == r'.checked && covered == r'.covered
    {
      hide Findings.Plus, BySeq;
      PlusAssociates(f, r.findings, Contradicts(ANCHOR_MALFORMED));
      PlusAssociates(f, r.findings, Contradicts(ANCHOR_MISMATCH));
      if a.seqNo.None? || a.hash.None? {
        Contradict(ANCHOR_MALFORMED);
        return;
      }
      var row := BySeq(rows, a.seqNo.value);
      if row.None? || row.value.hash != a.hash {
        Contradict(ANCHOR_MISMATCH);
        return;
      }
      anchorsChecked := anchorsChecked + 1;
      covered := Some(if covered.None? || covered.value < a.seqNo.value then a.seqNo.value else covered.value);
    }

    method CheckDocument(faults: seq<string>)
      modifies this`contradictions
      ensures Found() == old(Found()).Plus(Findings(DocumentCodes(faults), [], []))
    {
      var i := 0;
      while i < |faults|
        invariant 0 <= i <= |faults|
        invariant Found() == old(Found()).Plus(Findings(DocumentCodes(faults)[..i], [], []))
      {
        Contradict(DOCUMENT(faults[i]));
        i := i + 1;
      }
      assert DocumentCodes(faults)[..|faults|] == DocumentCodes(faults);
    }

    method CheckSignature(sig: Signature)
      modifies this`contradictions, this`unverified
      ensures Found() == old(Found()).Plus(SignatureFindings(sig))
    {
      if sig.Unchecked? { CannotVerify(SIGNATURE_UNCHECKED); }
      if sig.BadSignature? { Contradict(SIGNATURE_INVALID); }
    }

    /** The level reached against the one declared. */
    method CheckLevel(c: Cert, check: AnchorCheck, ok: bool)
      requires c.Cert? && anchorsChecked == check.checked
      modifies this`contradictions, this`reached
      ensures Found() == old(Found()).Plus(LevelFindings(c.level, Reached(c, ok, check)))
      ensures reached == Reached(c, ok, check)
    {
      reached := None;
      if ok && c.hash.RightHash? {
        reached := Some(L1);
        if anchorsChecked > 0 && check.findings.contradictions == [] {
          reached := Some(if c.signature.GoodSignature? then L3 else L2);
        }
      }
      if c.level.BadLevel? {
        Contradict(TRUST_LEVEL_INVALID);
      } else if reached.Some? && Rank(c.level) > Rank(reached.value) {
        Contradict(TRUST_LEVEL_OVERSTATED);
      }
    }

    /** What could not be verified, stated even on success. */
    method StateEdges(check: AnchorCheck, b: int)
      requires anchorsChecked == check.checked && covered == check.covered
      modifies this`unverified
      ensures Found() == old(Found()).Plus(EdgeFindings(check, b))
    {
      if anchorsChecked == 0 {
        CannotVerify(NO_EXTERNAL_ANCHOR);
      } else if covered.Some? && covered.value < b {
        CannotVerify(ANCHOR_COVERAGE_PARTIAL);
      }
      unverified := unverified + [OTHER_VENUES, PRE_START_BYPASS, TRADES_OBSERVED];
    }

    method StateUnknown(rows: seq<Row>, a: int, b: int)
      modifies this`unverified
      ensures Found() == old(Found()).Plus(UnknownFindings(rows, a, b))
    {
      if exists i :: 0 <= i < |rows| && In(rows[i], a, b) && rows[i].kind.Unheard? { CannotVerify(UNKNOWN_EVENT_KIND); }
    }

    /** Recomputed over what is actually there; compared unless the file was cut short. */
    method CheckClaims(c: Cert, rows: seq<Row>, loss: Loss, a: int, b: int)
      requires c.Cert?
      modifies this`contradictions, this`unverified, this`recomputed
      ensures var upTo := if loss.Truncated(b) then loss.absent[0] - 1 else b;
              var mine := Recomputed(rows, a, upTo, loss.chain.ok);
              && recomputed == Some(mine)
              && Found() == old(Found()).Plus(if loss.Truncated(b) then Findings([], [CLAIMS_NOT_COMPARABLE], [])
                                              else ClaimFindings(c, mine))
    {
      hide ClaimFindings, Recomputed, UpTo, Findings.Plus;
      var mine := RecomputeClaims(rows, a, if loss.Truncated(b) then loss.absent[0] - 1 else b, loss.chain.ok);
      recomputed := Some(mine);
      if loss.Truncated(b) {
        CannotVerify(CLAIMS_NOT_COMPARABLE);
      } else {
        CompareClaims(c, mine);
      }
    }

    method JudgeLedger(c: Cert, d: Dialect, rows: seq<Row>, anchors: seq<Anchor>, a: int, b: int)
      requires c.Cert? && anchorsChecked == 0 && covered.None?
      modifies this
      ensures Found() == old(Found()).Plus(LedgerFindings(c, d, rows, anchors, a, b))
    {
      hide CoverFindings, LossFindings, ClaimFindings, CheckAnchors, SignatureFindings, LevelFindings, EdgeFindings,
           Reached, Recomputed, ChainFrom, Absent, UpTo, DocumentCodes, UnknownFindings, Findings.Plus, Loss.Truncated;
      ghost var f := Found();
      StateUnknown(rows, a, b);
      CheckCover(rows, c.dayKey, a, b);
      var chain := VerifyChain(d, rows, a, b);
      var loss := Loss(chain, Absent(rows, a, b));
      CheckLoss(loss, a, b);
      CheckClaims(c, rows, loss, a, b);
      CheckDocument(c.documentFaults);
      CheckAnchorsAgainst(rows, anchors);
      var check := CheckAnchors(rows, anchors);
      CheckSignature(c.signature);
      CheckLevel(c, check, chain.ok);
      StateEdges(check, b);
      ghost var claims := if loss.Truncated(b) then Findings([], [CLAIMS_NOT_COMPARABLE], [])
                          else ClaimFindings(c, recomputed.value);
      ghost var one, two := UnknownFindings(rows, a, b), CoverFindings(rows, c.dayKey, a, b);
      ghost var three := LossFindings(loss, b);
      ghost var five, seven := Findings(DocumentCodes(c.documentFaults), [], []), SignatureFindings(c.signature);
      ghost var eight, nine := LevelFindings(c.level, Reached(c, chain.ok, check)), EdgeFindings(check, b);
      PlusFour(f, one, two, three, claims);
      ghost var g := one.Plus(two).Plus(three).Plus(claims);
      PlusSix(f, g, five, check.findings, seven, eight, nine);
    }
  }

  /** `verify_certificate`. */
  method VerifyCertificate(c: Cert, rows: seq<Row>, anchors: seq<Anchor>) returns (rep: CertReport)
    ensures fresh(rep) && rep.Found() == Verdict(c, rows, anchors)
  {
    hide LedgerFindings, HashFindings;
    rep := new CertReport();
    if c.NotAnObject? {
      rep.CannotEvaluate(CERT_MALFORMED);
      rep.stoppedBeforeTheLedger := true;
      return;
    }
    rep.CheckHash(c);
    match c.dialect
    case NoName =>
      rep.Contradict(DIALECT_MISSING);
      rep.stoppedBeforeTheLedger := true;
    case UnknownName =>
      rep.CannotEvaluate(DIALECT_UNKNOWN);
      rep.stoppedBeforeTheLedger := true;
    case Named(d) =>
      if !Conforming(rows) {
        rep.CannotEvaluate(DIALECT_MISMATCH);
        rep.CannotVerify(NOTHING_ELSE_CHECKED);
        rep.stoppedBeforeTheLedger := true;
      } else if c.from.None? || c.to.None? || c.from.value > c.to.value {
        rep.Contradict(RANGE_MISSING);
        rep.stoppedBeforeTheLedger := true;
      } else {
        rep.JudgeLedger(c, d, rows, anchors, c.from.value, c.to.value);
      }
  }

  lemma {:induction false} PlusAssociates(a: Findings, b: Findings, c: Findings)
    ensures a.Plus(b).Plus(c) == a.Plus(b.Plus(c))
  {
  }

  lemma {:induction false} PlusNone(f: Findings)
    ensures f.Plus(NONE) == f
  {
  }

  lemma {:induction false} PlusFour(f: Findings, a: Findings, b: Findings, c: Findings, d: Findings)
    ensures f.Plus(a).Plus(b).Plus(c).Plus(d) == f.Plus(a.Plus(b).Plus(c).Plus(d))
  {
    hide Findings.Plus;
    PlusAssociates(f, a, b);
    PlusAssociates(f, a.Plus(b), c);
    PlusAssociates(f, a.Plus(b).Plus(c), d);
  }

  lemma {:induction false} PlusSix(f: Findings, a: Findings, b: Findings, c: Findings, d: Findings, e: Findings,
                                   g: Findings)
    ensures f.Plus(a).Plus(b).Plus(c).Plus(d).Plus(e).Plus(g) == f.Plus(a.Plus(b).Plus(c).Plus(d).Plus(e).Plus(g))
  {
    hide Findings.Plus;
    PlusFour(f, a, b, c, d);
    var four := a.Plus(b).Plus(c).Plus(d);
    PlusAssociates(f, four, e);
    PlusAssociates(f, four.Plus(e), g);
  }
}
