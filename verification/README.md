# Deadman verification

A Dafny model of the three parts of the `deadman` package that keep state on disk across crashes, and proofs of what
they promise.

**The hash-chained ledger.** `LedgerChain` has the directory (segment files, tip file, anchors, stale flag) and its
two writers, append and rotate. `LedgerVerify` is `verify` as a backward walk; `LedgerTheorems` proves what its report
is worth. `LedgerWriter` adds one process with its anchoring policy and its whole runs, `LedgerProcess` is the class
that does the same in place, and `LedgerCrash` interleaves any number of writers that may die after each file
operation.

**The honest executor and its files.** `StateFiles` is the writer-seal protocol, `EntryHalts` the persistent halt,
`DailyLimits` the daily counters. `Executor` is the order state machine as a function of its state and of an
environment that answers every broker call, decides the fate of every ledger append and every write of the halt and
counter files, and may kill the process after any act; every answer may depend on everything done so far.
`ExecutorIndex` proves write-ahead and what a successor can know, `ExecutorAttempt` what one attempt costs and
concludes, `ExecutorGates` what the halt and the limits can and cannot influence, `ExecutorDollars` the money,
`ExecutorStartup` reconciliation, `ExecutorExposure` what all that means at a broker whose adapter keeps its
guarantees; `ExecutorExamples` holds runs that show where the promises end, and `ExecutorProcess` is the class that
runs the machine in place.

**The certificate verifier.** `CertChain` reads a ledger file and tells a truncation from a forgery, `CertClaims`
recomputes the claims, `CertVerdict` collects the findings and fills the report, `CertTheorems` says what an exit code
means, `CertSeries` checks the chain of daily certificates.

Where the source loops or updates fields, a class or method does so here and is proved to compute a function of its
old state; the theorems are lemmas about that function. Digests are parameters and nothing assumes them injective:
the anchored-prefix theorem ends in equal prefixes or in two concrete bodies with one digest.

Facts of the code that limit a promise are stated as lemmas of their own, beside the exact condition under which the
promise holds: `RotatedGenesisNeverComplete`, `ForksExactly`, `SealReturns`, `DowngradeAfterDeletion`,
`LossLimitReopens`, `ResetLost`, `RebuildForgets`, `LateFailure`, `FillMissed`, `UnknownWithoutHalt`. The startup
documentation says an automatic halt is cleared when the broker book is empty; the code clears it when every open order
returned is already in the ledger (`deadman/executor.py:460-490`). The model follows the code, and
`ClearedOverOpenOrder` is a run in which the two differ.

## Model

| member | source | states |
|---|---|---|
| LedgerChain.FreeSegment | deadman/ledger.py:417-419 | the closed segment gets the first free number: every smaller one is taken |
| LedgerChain.FirstAppendHolds | deadman/ledger.py:283-309 | an append to an empty directory leaves a chain of one entry with seq 1 from genesis and the tip at it |
| LedgerChain.AppendHolds | deadman/ledger.py:283-309 | an append to a directory that holds a chain extends it by exactly one entry of the given kind, closed segments and links untouched, tip at the new end |
| LedgerChain.RotateWrites | deadman/ledger.py:411-429 | a rotation moves the active file whole to the next segment and opens the new file with a link naming that segment, its first and last seq, last hash and file digest |
| LedgerChain.RotateHolds | deadman/ledger.py:411-432 | after a rotation the directory holds the same chain plus the LEDGER_ROTATED entry, cut at the old end |
| LedgerVerify.ScanDown | deadman/ledger.py:476-503 | the backward scan of a segment stops at the highest line that does not pass; every line above it does |
| LedgerVerify.PassedSpan | deadman/ledger.py:476-518 | a segment that passes is non-empty, every line of it is a good entry, and its seqs are consecutive |
| LedgerVerify.FirstSeqFalls | deadman/ledger.py:504-513 | across a rotation link the first seq strictly falls, so a followed link never leads back to a file already walked; no property of the digests is used |
| LedgerVerify.WalkSound | deadman/ledger.py:448-518 | a walk that reports OK visited one gap-free chain from seq 1, counted every entry of it, and each segment ended where the link promised |
| LedgerVerify.WalkSeen | deadman/ledger.py:502-503 | the seq-to-hash notes of such a walk are exactly those of the chain it visited |
| LedgerTheorems.AnchorsJudged | deadman/ledger.py:519-535 | anchors pass exactly if every one whose seq was seen agrees; absent seqs are not counted; otherwise ANCHOR_MISMATCH; the rest of the report is the walk's |
| LedgerTheorems.VerifySound | deadman/ledger.py:435-535 | ok with code OK implies the visited segments are one contiguous chain 1..n from genesis, all n entries checked, and no anchor into it contradicts it |
| LedgerTheorems.CompleteMeansGenesis | deadman/ledger.py:436-438 | a clean report that claims a complete chain is the empty ledger or one that reached genesis |
| LedgerTheorems.VerifyBounded | deadman/ledger.py:448-518 | on any directory contents, tampered or cyclic links included, no file is walked twice: at most one segment more than there are files is opened |
| LedgerTheorems.SameBelow | deadman/ledger.py:134-140 | two genuine chains with one hash at seq k have equal bodies below it, or exhibit two different bodies with one digest |
| LedgerTheorems.AnchorHeld | deadman/ledger.py:519-531 | a ledger that verifies with an anchor that points into it holds exactly the anchored entry |
| LedgerTheorems.AnchoredPrefix | deadman/ledger.py:435-535 | two ledgers that both verify with a common anchor (seq k) agree on their first k entries apart from sig, or exhibit a digest collision |
| LedgerTheorems.HeldJudge | deadman/ledger.py:451-517 | every segment of a directory built by append and rotate passes, and its first entry leads to the segment before it |
| LedgerTheorems.HeldReport | deadman/ledger.py:435-535 | on such a directory verify is complete from seq 1, counts every entry and every segment, and is ok exactly if no anchor that points into the chain disagrees |
| LedgerTheorems.RotatedGenesisNeverComplete | deadman/ledger.py:504-513 | the one exception: a ledger whose very first entry is a user-written LEDGER_ROTATED never verifies complete |
| LedgerTheorems.RewriteChains | deadman/ledger.py:134-140 | a rewrite of one entry with every later hash recomputed is itself a genuine chain |
| LedgerTheorems.RewriteNeedsAnchor | deadman/ledger.py:435-535 | in a single-segment ledger such a rewrite verifies OK and complete without anchors, and with original anchors is ANCHOR_MISMATCH exactly if one of them is at or past the rewritten entry (collisions excepted) |
| LedgerWriter.RefusedEverywhere | deadman/ledger.py:215-235 | when tip file and file tail disagree every append and rotation raises, and every anchor call of a ledger with a publisher, writing and publishing nothing |
| LedgerWriter.LogBuilds | deadman/ledger.py:283-309 | every internal append keeps the directory one chain and counts one more entry since the last anchor |
| LedgerWriter.CheckStaleKeeps | deadman/ledger.py:365-382 | ANCHOR_STALE and its flag are written at most once until recovery |
| LedgerWriter.PublishKeeps | deadman/ledger.py:325-363 | anchor() on a good directory never raises; a success publishes the exact tip and leaves it one or two entries behind |
| LedgerWriter.MaybeKeeps | deadman/ledger.py:312-323 | after the anchoring decision every forcing entry is covered and the tip is within the window again |
| LedgerWriter.StepKeeps | deadman/ledger.py:275-432 | what every append, rotation, anchor call and restart keeps: one chain, anchors of it, alternating stale marks, the anchor window; and exactly when each returns |
| LedgerWriter.BuiltVerifies | deadman/ledger.py:435-535 | every non-empty ledger any run of appends, rotations, anchor calls and restarts builds verifies OK and complete, entries checked = last seq, segments = rotations + 1, every local anchor matched - if and only if its first entry is not a user-written LEDGER_ROTATED |
| LedgerWriter.AnchorWindow | deadman/ledger.py:312-363 | with a publisher that never fails and no user-written ANCHOR_* kind, after every append or rotation the tip is at most max(anchor_every_n - 1, 2) past the last published anchor and every ANCHOR_AFTER entry is covered |
| LedgerWriter.StaleAlternates | deadman/ledger.py:356-382 | with arbitrary publisher failures STALE and RECOVERED strictly alternate, STALE first, and the flag file exists exactly when the last is STALE |
| LedgerProcess.Ledger.constructor | deadman/ledger.py:159-178 | a fresh process: counters at zero, the stale flag read from the directory |
| LedgerProcess.Ledger.AppendUnlocked | deadman/ledger.py:283-309 | the new directory state, field by field: one sealed line after the tip, then the tip; or nothing if the tip is refused |
| LedgerProcess.Ledger.CheckStale | deadman/ledger.py:365-382 | does exactly what the policy function says of the old state |
| LedgerProcess.Ledger.PublishSucceeded | deadman/ledger.py:346-363 | keeps the anchor, resets the counters, records it, recovers if stale |
| LedgerProcess.Ledger.PublishFailed | deadman/ledger.py:338-345 | counts and records the failure, then the stale check |
| LedgerProcess.Ledger.PublishTip | deadman/ledger.py:325-363 | publishes the tip or records why not |
| LedgerProcess.Ledger.MaybeAnchor | deadman/ledger.py:312-323 | asks the clock only when needed and anchors exactly when due |
| LedgerProcess.Ledger.Append | deadman/ledger.py:275-281 | refuses unknown kinds, appends, then anchors if due; over a directory that holds one chain it holds that chain and more after, with the anchoring policy kept; over a refused tip nothing changes |
| LedgerProcess.Ledger.NextSegment | deadman/ledger.py:417-419 | the counting loop finds the first free segment number |
| LedgerProcess.Ledger.RotateUnlocked | deadman/ledger.py:412-429 | renames, then appends the link after the tip it read; the state when it raises half-way too |
| LedgerProcess.Ledger.Rotate | deadman/ledger.py:411-432 | the rotation, then the anchoring decision, with the same guarantees |
| LedgerProcess.Ledger.ScanSegment | deadman/ledger.py:476-503 | the backward loop over the lines of a segment: first failing line, count, notes |
| LedgerProcess.Ledger.JudgeLines | deadman/ledger.py:476-517 | the scan and the first-entry decision of one readable segment |
| LedgerProcess.Ledger.JudgeSegment | deadman/ledger.py:448-517 | everything verify does with one segment file |
| LedgerProcess.Ledger.Verify | deadman/ledger.py:435-535 | the whole loop: OK means one contiguous chain from genesis that no anchor contradicts, and over a held chain it is OK exactly if no anchor does |
| LedgerProcess.Ledger.CheckAnchors | deadman/ledger.py:519-531 | the anchor loop: first mismatch, count, highest seq |
| LedgerCrash.RefusedForever | deadman/ledger.py:215-235 | once file tail and tip disagree every later section leaves the directory exactly as it is: nothing is healed |
| LedgerCrash.AppendSound | deadman/ledger.py:283-309 | an append that dies after any of its file operations leaves one chain on disk, with the tip at its end or refused |
| LedgerCrash.RotateSound | deadman/ledger.py:411-432 | the same for a rotation, unless it loses the head before the first tip file exists |
| LedgerCrash.OneChain | deadman/ledger.py:205-243 | any interleaving of writers with a crash at any step keeps the entries on disk one unforked chain with consecutive seqs that only grows |
| LedgerCrash.OneChainAfterAppend | deadman/ledger.py:205-243 | once one append has completed this needs no condition, and while the directory is not refused the tip file is exactly the end of the chain |
| LedgerCrash.ForksExactly | deadman/ledger.py:411-432 | the condition is exact: after any run of sections, each dying wherever it likes, what is on disk is one chain that extends the old one if and only if no rotation lost the head with a full line the first thing written after it; otherwise two files start at seq 1 |
| LedgerCrash.HeadCanBeLost | deadman/ledger.py:295-302 | the fork is reachable: a first append that dies before its tip, a rotation that dies behind its rename, an append that gets as far as its line |
| StateFiles.StateFile.Write | deadman/statefile.py:101-123 | replaces contents and seal exactly if the seal on disk is the expected one or force is given; write_seq goes up by one, or restarts at 1 without a seal |
| StateFiles.StateFile.Delete | deadman/statefile.py:125-135 | removes the file exactly if it is there and its seal is the expected one |
| StateFiles.CommitFromLatest | deadman/statefile.py:101-123 | whatever the other writers did since its read, a commit that succeeds was computed from exactly the contents it replaces, unless a deletion happened in between |
| StateFiles.NoLostUpdate | deadman/statefile.py:101-123 | with no deletion any interleaving of writers ends as if the successful updates had run one after the other |
| StateFiles.SealReturns | deadman/statefile.py:111 | write_seq restarts at 1 after a deletion, so a seal can repeat and a stale commit can succeed: a concrete run |
| EntryHalts.EntryHalt.Active | deadman/entry_halt.py:47-57 | an absent or inactive file is no halt, an unreadable one is a manual halt |
| EntryHalts.EntryHalt.Set | deadman/entry_halt.py:60-79 | a halt is active afterwards whatever races; automatic only if asked for and nothing manual was found; a race is escalated to a manual halt |
| EntryHalts.EntryHalt.Force | deadman/entry_halt.py:81-85 | the forced write replaces whatever is there and is recorded |
| EntryHalts.EntryHalt.Clear | deadman/entry_halt.py:87-108 | refuses an unreadable file and, on request, a manual halt; deletes only what it read; a race is escalated to a manual halt |
| EntryHalts.QuietSet | deadman/entry_halt.py:60-79 | alone: a manual halt stays manual, an automatic set over nothing manual is automatic |
| EntryHalts.QuietClear | deadman/entry_halt.py:87-108 | alone: an automatic-only clear removes the halt exactly if one is active and not manual |
| EntryHalts.ManualKept | deadman/entry_halt.py:60-108 | with no deletion inside its window, an interleaved set never downgrades a manual halt and an automatic-only clear never removes one |
| EntryHalts.ManualSurvives | deadman/entry_halt.py:60-108 | once a manual halt stands, any number of processes setting and auto-clearing in any interleaving leave it standing |
| EntryHalts.DowngradeAfterDeletion | deadman/entry_halt.py:63-70 | the window matters: a full clear and a manual halt under the same seal inside it, and the manual halt is overwritten by an automatic one |
| DailyLimits.DailyLimiter.Load | deadman/daily_limits.py:96-126 | status and counters; an older day is replaced in the file first and handed to the ledger after that, where the entry may fail, swallowed, or the process die before or behind it; a later day is left untouched |
| DailyLimits.DailyLimiter.Check | deadman/daily_limits.py:144-170 | exits are allowed without touching the file; an entry gets the verdict of the loaded counters, unless the process dies in the rollover |
| DailyLimits.DailyLimiter.CurrentForWrite | deadman/daily_limits.py:177-184 | a clock that went backwards still records on the stored day; an unusable file raises |
| DailyLimits.DailyLimiter.RecordFill | deadman/daily_limits.py:186-205 | one trade and its dollars and fee more, or the worst case, or an unverified day; a negative amount is refused |
| DailyLimits.DailyLimiter.RecordPnl | deadman/daily_limits.py:207-215 | the gross P&L moves by exactly the amount |
| DailyLimits.AllowedExactly | deadman/daily_limits.py:144-170 | an entry is allowed exactly if the counters of the clock's own day are verified and every configured limit has room |
| DailyLimits.Conservation | deadman/daily_limits.py:96-126 | after any sequence of rollovers and records every trade, dollar, fee and gross dollar recorded is in the file, in a DAILY_STATS_RESET entry, or in a day whose entry was lost |
| DailyLimits.BalancedIffNothingLost | deadman/daily_limits.py:120-125 | reset entries plus file are everything recorded exactly if the lost days add up to nothing; if each of them had a trade, exactly if no day was lost |
| DailyLimits.RunAccounted | deadman/daily_limits.py:96-215 | over any run of checks and records, any clock, any failed appends and deaths in a rollover: the accounts follow file and ledger, nothing is lost exactly if every rollover's entry was written, the stored day never goes back |
| DailyLimits.RunBalanced | deadman/daily_limits.py:96-126 | what the reset entries in the ledger and the file add up to after such a run: everything recorded, exactly if the lost days add up to nothing |
| DailyLimits.ResetLost | deadman/daily_limits.py:218-224 | one rollover whose entry does not reach the ledger, over a day with a trade, breaks the balance |
| DailyLimits.OnlyForward | deadman/daily_limits.py:96-126 | the stored day never decreases; within a day trades never fall and fees_unverified is sticky |
| DailyLimits.DeniedForTheDay | deadman/daily_limits.py:144-170 | after DAILY_MAX_TRADES or DAILY_FEES_UNVERIFIED every later entry is denied until the stored day strictly increases, whatever the clock does |
| DailyLimits.LossLimitReopens | deadman/daily_limits.py:166-169 | DAILY_LOSS_LIMIT is not sticky: recording a P&L re-opens the day exactly if it lifts the net above the limit |
| DailyLimits.AllowedMeansWithinLoss | deadman/daily_limits.py:166-205 | if unreported fees stay within worst_case_fee_bps, an allowed entry implies the true net P&L of the stored day is above -max_daily_loss_usd |
| DailyLimits.NoRecordLost | deadman/daily_limits.py:128-135 | several processes on one file: the accounts hold exactly the commits that succeeded |
| Executor.PollTakesTime | deadman/executor.py:351-355 | one poll uses up at least one poll interval of the timeout, so the poll loop ends |
| ExecutorIndex.RebuiltTracks | deadman/executor.py:128-169 | after a rebuild an id is pending exactly if something was sent and nothing ever ended it |
| ExecutorIndex.ExecuteSafe | deadman/executor.py:250-397 | execute keeps the write-ahead invariant between acts, memory and ledger, whatever gates, broker, ledger failures and crashes do |
| ExecutorIndex.StartupSafe | deadman/executor.py:400-492 | startup establishes it from the ledger alone |
| ExecutorIndex.StrangersProper | deadman/executor.py:467-480 | ids made up for orders found at the broker are only ever recorded as unknown, under that order's id |
| ExecutorIndex.WriteAheadFirst | deadman/executor.py:282-304 | every create_order, over any crashed lives and ledger failures, stands directly behind its own write-ahead entry, written |
| ExecutorIndex.CreatesSeparated | deadman/executor.py:282-333 | while no append fails, two creates with one client id have a terminal entry between them: in one life always, across crashes and restarts unless the id had a terminal entry before the first |
| ExecutorIndex.RebuildForgets | deadman/executor.py:153-166 | the exception is exactly this: an open attempt is pending after a rebuild if and only if its id had no terminal entry before |
| ExecutorIndex.SuccessorKnows | deadman/executor.py:128-204 | for an id never reused, under any ledger failures and crashes: pending in memory but not for a successor that rebuilds from the ledger, exactly if a fill, a cancel or a resolution of it was written in this life by an append that raised out of the call; if no append fails the two agree, stage included |
| ExecutorAttempt.SettleConcludes | deadman/executor.py:342-372 | the poll loop ends in one terminal entry within the polls that fit the timeout, one cancel and one re-read |
| ExecutorAttempt.AttemptConcludes | deadman/executor.py:301-397 | an execute that reaches create_order calls it once and writes exactly one terminal record, as its last act, saying what it returned and backed by what the broker reported; FILLED or PARTIAL implies 0 < filled <= requested*(1+1e-6)+1e-12; it raises only if the counters cannot be rolled over, before anything is sent, or if a race on them cannot be put behind a halt, after the fill entry |
| ExecutorAttempt.SentIffAllowed | deadman/executor.py:254-294 | create_order is called exactly if every gate allows: started, kill switch, units, sanity, no attempt in flight, and for entries the halt and the daily limits |
| ExecutorGates.ExitsAreBlind | deadman/executor.py:254-275 | for an exit the broker calls and ledger entries are the same for any halt file and any daily-stats file, and so is the result if both calls return; both return unless bookkeeping kills the process or ends in a halt that cannot be written |
| ExecutorGates.ExitRunsAreBlind | deadman/executor.py:254-275 | and so over any sequence of exits |
| ExecutorGates.UnknownHalts | deadman/executor.py:189-204 | behind an UNKNOWN result a halt is active exactly if one was active before or the halt file could be written; a failing halt is logged and the call returns all the same |
| ExecutorGates.NoEntryUntilCleared | deadman/executor.py:254-263 | behind a halt no non-exit intent reaches create_order, in this process or a restarted one, until a clear succeeds |
| ExecutorGates.StartupKeepsManual | deadman/executor.py:481-490 | a manual halt survives every startup |
| ExecutorDollars.DistinctOnce | deadman/executor.py:206-219 | the deduplicated fills hold every fill id once |
| ExecutorDollars.DuplicateIgnored | deadman/executor.py:206-226 | a fill id reported again changes neither quantity, price nor fee and is noted as a duplicate |
| ExecutorDollars.RollKept | deadman/daily_limits.py:120-125 | a rollover moves the day out of the file and into the ledger, or among the lost days, and nothing else |
| ExecutorDollars.DollarsAreFills | deadman/executor.py:228-247 | over every run under every environment: the fills taken are in the file, in reset entries or in lost days; they are the dollars of the FILL and PARTIAL_FILL entries but those missed; and a fill is taken exactly if its append returned, its dollars are not negative (a negative price is refused, and only logged), the process lived on and the counters' file could be replaced |
| ExecutorDollars.AllDollarsTaken | deadman/executor.py:228-247 | with no negative price, the counters took all fill dollars if and only if no fill with dollars was late, died behind or refused by a race or an I/O failure |
| ExecutorStartup.StartupReconciles | deadman/executor.py:400-492 | startup returns; every pending id is ended in the ledger or an exit listed as left open; a halt is set exactly unless nothing was pending, every listing succeeded and every open order returned was already in the ledger; in that case, and only then, an automatic halt is cleared |
| ExecutorStartup.NothingLeft | deadman/executor.py:404-480 | after a startup that left no exit open nothing is pending and every order it was shown is in the ledger |
| ExecutorStartup.SecondFindsNothing | deadman/executor.py:400-492 | an immediate second startup finds nothing and sets no halt if no exit was left open and the listings succeed with orders the first was shown or the ledger knows |
| ExecutorExposure.NoDoubleExposure | deadman/executor.py:282-333 | with an adapter that keeps G1, G4 (closed or canceled is the truth about the one order it is said of) and G9 and appends succeeding, whenever create_order is called no order of that client id is live at the broker, or can still become live, unless its state was declared unknown or a startup had forgotten it because its id carried an older terminal entry |
| ExecutorExposure.LiveOnlyIfUnknown | deadman/executor.py:282-333 | for an id never reused after its terminal entry, only an UNKNOWN_STATE of it leaves that possible |
| ExecutorExamples.GuaranteesCanBeKept | deadman/broker.py:10-27 | the guarantees can be kept: an adapter that keeps them over a run in which its order is live and is then canceled and recorded so |
| ExecutorExamples.LateFailure | deadman/executor.py:228-238 | a run in which the fill's append raises after the line was written: pending in memory, ended in the ledger |
| ExecutorExamples.FillMissed | deadman/executor.py:235-245 | a run in which the process dies right behind its fill entry: a hundred dollars in the ledger the counters never saw |
| ExecutorExamples.UnknownWithoutHalt | deadman/executor.py:196-199 | an execute that returns UNKNOWN while the halt file cannot be written: no halt stands behind it |
| ExecutorExamples.ClearedOverOpenOrder | deadman/executor.py:460-490 | a run in which startup is shown an open order of an id the ledger has as unknown, finds nothing and clears the halt |
| ExecutorProcess.HonestExecutor.RebuildIndex | deadman/executor.py:128-166 | the loop over the entries computes the rebuilt index |
| ExecutorProcess.HonestExecutor.EffectiveFill | deadman/executor.py:206-226 | the deduplicating loop: quantity, average, fee and duplicate ids |
| ExecutorProcess.HonestExecutor.Settle | deadman/executor.py:342-372 | the poll loop, with its exits |
| ExecutorProcess.HonestExecutor.Execute | deadman/executor.py:250-397 | every client id keeps its write-ahead invariant, an UNKNOWN result stands behind a halt exactly if one stood or could be written, and behind a halt no entry is created |
| ExecutorProcess.HonestExecutor.Startup | deadman/executor.py:400-492 | the write-ahead invariant is established from the ledger alone, a manual halt survives, and when every write succeeds and the exit predicate answers startup returns reconciled |
| CertChain.VerifyChain | deadman/verify_certificate.py:676-698 | the loop checks links and digests of the rows in range and returns the first broken seq; an empty range fails |
| CertChain.ChainOfKept | deadman/verify_certificate.py:676-698 | on what is left of an honest history the check succeeds exactly if some row in range is left and none is missing between the first and last of them |
| CertChain.Classified | deadman/verify_certificate.py:1543-1592 | LEDGER_TRUNCATED exactly when the rows missing in a..b are k..b with a < k; an interior gap or an empty range is CHAIN_BROKEN; any loss that is not a truncation is RANGE_INCOMPLETE |
| CertClaims.RecomputeClaims | deadman/verify_certificate.py:1195-1290 | the claims as the function of the rows in range the theorems are about |
| CertClaims.TellEpisodes | deadman/verify_certificate.py:1217-1252 | the loop over the rows builds the episodes |
| CertClaims.Open | deadman/verify_certificate.py:1223-1240 | the look back past testimony finds the preceding row of an episode |
| CertClaims.RangeWithout | deadman/verify_certificate.py:735-740 | sorting the range by seq and leaving HUMAN_* rows out commute |
| CertClaims.TestimonyChangesNothing | deadman/verify_certificate.py:709-724 | deleting all HUMAN_* rows leaves the recomputed claims unchanged for every ledger and range |
| CertClaims.EpisodesAccounted | deadman/verify_certificate.py:1212-1252 | episodes are disjoint and ordered, only the last may be open, the reasons of each are exactly the non-boundary non-human rows inside plus the preceding one if any, and no row is counted in two |
| CertVerdict.CertReport.CheckLoss | deadman/verify_certificate.py:1559-1605 | chain, truncation and the effective end of the range |
| CertVerdict.CertReport.CompareLimit | deadman/verify_certificate.py:1404-1445 | limitRespected compared; an undetermined state is never a charge |
| CertVerdict.CertReport.CompareClaims | deadman/verify_certificate.py:1646-1698 | every stated claim compared with the recomputed one, episodes one by one |
| CertVerdict.CertReport.CheckAnchorsAgainst | deadman/verify_certificate.py:1313-1335 | anchors counted, contradicted or malformed; the highest covered seq |
| CertVerdict.CertReport.JudgeLedger | deadman/verify_certificate.py:1543-1769 | all findings of the part that reads the ledger, in order |
| CertVerdict.VerifyCertificate | deadman/verify_certificate.py:1448-1770 | the report filled in place holds exactly the findings the theorems are about, early exits included |
| CertTheorems.ClaimsCompared | deadman/verify_certificate.py:1637-1698 | the comparison finds no contradiction exactly if every stated claim agrees with the events |
| CertTheorems.AnchorsMatch | deadman/verify_certificate.py:1313-1335 | anchors contradict nothing exactly if each names a row by seq and hash; then all are counted and the coverage is the highest seq |
| CertTheorems.SessionCovered | deadman/verify_certificate.py:743-861 | the coverage check contradicts exactly if the ledger shows the session reaching past the range and a material event, or an unclean start before it, lies outside |
| CertTheorems.LevelDeserved | deadman/verify_certificate.py:1730-1748 | over a sound chain and matching anchors the declared layer draws no finding exactly if it is L1, or L2 with an anchor, or L3 with an anchor and a good signature |
| CertTheorems.BreachCannotBeCutOff | deadman/verify_certificate.py:743-861 | a range that leaves out a LIMIT_BREACHED of a session the ledger shows closing later is contradicted, whatever else holds |
| CertTheorems.ExitZeroMeans | deadman/verify_certificate.py:398-416 | exit 0 exactly if the document hashes right and breaks no rule, every row of the range is there and chains, every stated claim agrees, every anchor names a row, the signature is not bad, the layer is deserved, and nothing is cut off a session that reaches past the range |
| CertTheorems.ForgedStaysContradicted | deadman/verify_certificate.py:1467-1488 | a missing or wrong certHash exits 1 whatever ledger is handed in |
| CertTheorems.CutIsUnevaluable | deadman/verify_certificate.py:1565-1606 | a certificate that exits 0 on the full ledger exits 2 with no contradiction on any prefix cut inside its range, if no anchor lies past the cut |
| CertSeries.FirstUndeclared | deadman/verify_certificate.py:1812-1818 | the loop over the days between finds the first undeclared one, if any |
| CertSeries.VerifySeries | deadman/verify_certificate.py:1773-1830 | the loop over the ordered certificates returns exactly the findings of the series |
| CertSeries.SeriesSound | deadman/verify_certificate.py:1773-1847 | no contradiction exactly if, in day order, days strictly increase, each certificate carries its predecessor's certHash, none names itself and every gap is declared with reasons; then every day from first to last is certified or declared |
| CertSeries.OrderDoesNotMatter | deadman/verify_certificate.py:1780 | for distinct days the verdict does not depend on the input order |

## Left out

- File-system details: JSON text, fsync, lock calls, temporary names, Windows retries. Atomic replacement, appending a line, and the lock's mutual exclusion are kept.
- A ledger line that carries every hashed field but no `hash` at all; a line either lacks a required field or is complete.
- Real SHA-256, canonical JSON bytes, Ed25519 and signer callables: digests, file digests, signer and verifier are function parameters.
- Floating-point rounding: amounts and times are reals; NaN and infinities reach the model only as a missing fee.
- Texts of reasons and details, timestamps of executor entries, and the ledger seq carried by an ExecResult.
- The `segment` and `schema_version` fields of an anchor, and `on_append` hooks.
- I/O failures of the flag file and of the anchors file, and of reading a file; failures of ledger appends, of writing the halt file and the counters, and death of the process are modelled.
- The halt's own ledger entries and the daily limits' denials and race notes as executor events: they carry no client_order_id, so the index ignores them. DAILY_STATS_RESET is modelled.
- Kill switch, unit resolution, order sanity, quantize and the exit predicate beyond their answers, which are arbitrary; in execute they answer, on an order found at startup the exit predicate may raise.
- Startup for ledger records that lack the intent payload beyond what the index needs; the executor always writes it.
- ExecutorGates.ExitsAreBlind: speaks of the process's own calls; another process writing the daily-stats file is an answer of the environment, and what that process wrote is not in the model.
- ExecutorIndex.CreatesSeparated: assumes no append fails, because a denial or an unknown whose entry was lost still ends the attempt in memory.
- ExecutorStartup.StartupReconciles: speaks of a startup that returns: ledger and halt writes succeed, the process lives and the exit predicate answers.
- ExecutorStartup.NothingLeft: assumes besides that the broker returns under an order id the order of that id and never an empty id, because the ledger remembers orders by id.
- ExecutorExposure.NoDoubleExposure: assumes no append fails, as two creates of one id are separated only then.
- recompute_continuity, find_backwards_timestamps, report rendering, the command line and examples.
- Rule-5 wording checks, required limitations and privacy probes: they read the certificate alone and enter as a list of document faults; the signature enters as its outcome.
- The stage of `verify_series` that only records its scope, and day keys that are not valid dates.
- Starting a halt or limits object over a file owned by another live process.
