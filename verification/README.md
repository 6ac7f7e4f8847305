# Brain batch, index, resolver and splicer model

A Dafny model of the hard logic of an agent framework's knowledge pipeline, with
proofs of what it guarantees. Four components are modelled.

**The backfill batch protocol.** A batch of meetings is dry-run, digested, signed
and applied. Every stage checkpoints a whole progress file after every effect and
can be killed anywhere. `DryRunLedger`, `DryRunAudit` and `DryRunBudget` hold the
spend ledger, `DryRunPlan` what it attempts and records; `DigestTable`,
`DigestPublish` and `DigestPublishSafety` the review surface a human signs,
`DigestShows` and `DigestPublishEffects` what it shows and leaves on disk,
`DigestReview` its printed table as the signer checks it; `BatchSign` and
`BatchSignSafety` the signature and the two gates that read it, `BatchSignEffects`
what each of them requires and does; `BatchApply`, `BatchApplySafety` and
`BatchCampaign` the apply command and its post-batch stage, `BatchPlan` its effects
and records read against each other; `MeetingApply` and `MeetingApplySafety` the
eight checkpointed steps of one meeting, `MeetingPlan` the table they follow.

**The index against the disk.** `Reconcile` makes the vector index mirror the
disk, `ReconcileOutcome` says what failing operations and `ReconcileCrash` what
killed runs leave of it; `StoreBuild` fills a side store
past a checkpoint, session by session, `Rebuild` swaps it in and `RebuildMirror`
joins the two; `Promotion` promotes and rolls back a recovered store; `Recovery` and
`RecoveryChunks` ingest a corpus in supervised batches, `RecoveryOutcome` says when
they refuse and what they leave; `Chunking` cuts texts and recordings and
`ChunkContent` says what the pieces hold.

**The meeting resolver.** `Resolver` collects candidates, `ResolverLadder` holds
the thirteen rules, `ResolverTheorems` what holds across all of them,
`ResolverRules` what candidates, votes and lookups mean and `ResolverDoors` when each
rule answers and with what.

**Text splicers and row parsers.** `RowCells` has the two independent row
splitters and the row writer; `Regions`, `StateRegion` and `ManagedIndex` the
three block rewriters, `RegionOutcome` what they leave character by character;
`Sections` and `Reporting` the section splitter and the one-line rewrite of a
section, `LastUpdate` what it writes; `StateSections` the grouping of the state block and
the two engagement lookups.

## How it is modelled

Each component is a set of functions on values that say what one run does, a
class (or loops) that does it step by step the way the program does and is proved
equal to those functions, and lemmas about the functions over all inputs, all
runs and all crash points.

- *Crashes.* A world carries `life`, the number of writes and effects a process
  still lives to make; at zero nothing reaches the disk. Quantifying over `life`
  is quantifying over every crash point. Campaigns are arbitrary sequences of
  such runs.
- *Outside processes.* Child commands, git, workers and HTTP clients are given by
  their answers, which are parameters; what was asked of them is kept in a log.
- *Hashes* are the bytes they are taken of, so equal hashes mean equal bytes.
- *Text functions* such as slugs, registrable labels and title matching are
  function parameters of the resolver: its theorems hold for all of them.

Where code and comments disagree the code is followed. The comment in
`scripts/brain/backfill.py` that there is never a moment with a digest but no
complete sample is false when a run prints the digest already announced over a
directory whose captures have drifted, and is killed between two renames:
`DigestPublishSafety.WindowOpensIff` says exactly when, `SwapWindowExists` that
this is reachable with nothing but a capture changing, and the signer refuses the
state whenever there is anything to sign. Other statements that are false of the
code, each with the exact condition under which it holds, are
`BatchCampaign.CommittedReentryClosesIff`, `ReconcileTheorems.MirrorsIff`,
`ReconcileCrash.InterruptedRunIsRepairedIff`, `StoreBuild.ResumedBuildMirrorsIff`,
`RebuildMirror.LiveStoreMirrorsIff`, `Regions.LastWriterWinsIff`,
`StateSections.ResolversAgreeIff`, `ManagedIndex.IndexLastWriterWinsIff`,
`RowCells.RowRoundTrip`, `RowCells.ReadersAgreeOnRow`, `Chunking.AdvancesIff`,
`Chunking.EverythingRecordedIff`, `Promotion.RollbackRestoresStoreIff`,
`Promotion.RollbackRestoresConfigIff`, `DigestTable.AllIdsRecoveredIff`,
`DigestReview.PrintedDigestIsCurrentIff` and
`MeetingApplySafety.BackfillKeepsCreatedTasksIff`.

`dafny verify dfyconfig.toml` checks the whole project.

## Model

| member | source | states |
|---|---|---|
| `BatchCampaign.CommitFreezesBatch` | scripts/brain/backfill.py:1166-1187 | Over any sequence of apply runs, dry-runs and kills: once post-batch has recorded a commit, no meeting is launched again and the applied set is frozen. |
| `BatchCampaign.AppliedOnlyGrows` | scripts/brain/backfill.py:1168-1196 | In every reachable crash state the applied set has only grown and no (client, engagement) pair has two status rows. |
| `BatchCampaign.EffectsAtMostOncePerSet` | scripts/brain/backfill.py:1222-1293 | Unless a process died between an effect and its checkpoint: rollup succeeds at most once per set of applied meetings, a pair's status run at most once per set of contributing meetings, nothing is launched after a commit, and every status record ever made is current or in the history. |
| `BatchCampaign.ExitZeroMeansAllApplied` | scripts/brain/backfill.py:1168-1298 | A run counts as failed exactly the authorized meetings it leaves unapplied, so it exits 0 exactly when it leaves none. |
| `BatchCampaign.ClosedBatchIsLeftAlone` | scripts/brain/backfill.py:1210-1222 | A batch that is committed with every effect verified is never acted on again: neither its log nor its progress changes. |
| `BatchCampaign.CleanRunClosesBatch` | scripts/brain/backfill.py:1151-1298 | From every state a campaign of killed runs and dry-runs reaches, checkpoints lost or not: a run that is not killed and whose children all succeed applies every authorized meeting, closes the batch and exits 0. |
| `BatchCampaign.CommittedReentryClosesIff` | scripts/brain/backfill.py:1210-1293 | A committed batch with outstanding effects, in any reachable state: a clean run retries them to the end exactly when every authorized meeting has been attempted. |
| `BatchCampaign.LateRowFreezesPostBatch` | scripts/brain/backfill.py:1158-1222 | A meeting whose dry-run comes after the commit is never launched, and from then on no sequence of runs and dry-runs changes the post-batch record or has any effect at all. |
| `BatchApplySafety.ApplyRunKeepsSafe` | scripts/brain/backfill.py:1083-1298 | One run, killed at any write or effect, keeps the invariant behind the claims above: log order, recorded effects and conserved status records. |
| `BatchApplySafety.AfterStatusConserves` | scripts/brain/backfill.py:1262-1268 | Recording a status run, with the stale row of its pair moved to the history, keeps the records made so far as a multiset. |
| `BatchApplySafety.StatusExtends` | scripts/brain/backfill.py:1250-1269 | A status run happens only when its pair has no verified row for exactly the current contributing set, so its set is new. |
| `BatchApplySafety.RollupExtends` | scripts/brain/backfill.py:1235-1244 | A rollup happens only when its set differs from the last successful one, and the sets grow strictly. |
| `BatchRunner.Runner.ApplyMeetings` | scripts/brain/backfill.py:1168-1196 | The meeting loop, mutating the progress in memory and saving it whole after each launch, does what the run function says. |
| `BatchRunner.Runner.RunRollup` | scripts/brain/backfill.py:1235-1244 | The rollup step with its checkpoint, on success and on failure. |
| `BatchRunner.Runner.RunStatusPairs` | scripts/brain/backfill.py:1259-1269 | The loop over pairs: skip, move the stale row to the history, run, record, save. |
| `BatchRunner.Runner.CommitPostBatch` | scripts/brain/backfill.py:1284-1290 | The commit outcome is recorded under its own key; a failure leaves an older commit record in place. |
| `BatchRunner.Runner.ApplyLocked` | scripts/brain/backfill.py:1151-1298 | A whole apply run after its preflight, and its exit code. |
| `BatchCampaign.RunKeepsStageOrder` | scripts/brain/backfill.py:1168-1290 | The effects of one run, wherever it is killed: all launches, then at most one rollup, then the status runs, then at most one commit attempt, and nothing after. |
| `BatchCampaign.RecordIsLastSuccess` | scripts/brain/backfill.py:1284-1290 | The recorded commit is the outcome of the last attempt when that succeeded; when it failed, the record of the last success before it is left standing. |
| `BatchPlan.FileIsTheLogReadBack` | scripts/brain/backfill.py:1188-1290 | Unless an effect lost its checkpoint, the progress file of every crash state is the effect log read back: a row's apply exit is the answer of its last launch, the rollup record the set and failure of the last rollups, the commit record that of the last commits, the standing row of a pair its last status run with its answer; so a meeting counts as applied exactly when its last launch returned 0. |
| `BatchPlan.RunFollowsPlan` | scripts/brain/backfill.py:1151-1298 | From every state a campaign reaches, the effects of a run are exactly those planned from the progress it starts with and the answers of its children, cut short only by its death: launches of the authorized unapplied meetings in manifest order unless committed, a rollup for a new set, a status run for every pair not verified for its contributing set, a commit; a live run with anything to do records the authorized meetings left unapplied as failed. |
| `BatchPlan.NothingAuthorized` | scripts/brain/backfill.py:1217-1224 | With nothing authorized a run launches nothing, has no effect and only notes, once, that post-batch was skipped. |
| `BatchPlan.WhoCounts` | scripts/brain/backfill.py:1103-1106 | Who is authorized, attempted, applied and contributing to a pair, and when the effects are verified, in terms of rows and exit codes. |
| `DryRunAudit.LedgerMatchesAudit` | scripts/brain/backfill.py:494-583 | In every crash state of every campaign a row's recorded cost is exactly what an audit of the events (extractions produced, attempts completed) charges it. |
| `DryRunAudit.ChargedExactlyOnce` | scripts/brain/backfill.py:801-830 | An extraction produced inside the batch has its measured cost charged to its row exactly once, by the first attempt completed after it; the nominal charge is added only for completed failing attempts past the fetch with no extraction before or after. |
| `DryRunAudit.OlderExtractionIsFree` | scripts/brain/backfill.py:513-558 | What a completed attempt adds to the row of a meeting whose extraction carries the stamp taken before it: nothing exactly when that stamp is not empty, or the measured charge is zero and the attempt does not fail past the fetch. |
| `DryRunAudit.UnstampedExtractionIsCharged` | scripts/brain/backfill.py:513-558 | Without a stamp, an extraction older than the batch is charged. |
| `DryRunAudit.CampaignKeeps` | scripts/brain/extract_meeting.py:340-352 | Any sequence of dry-runs killed anywhere, with children that reuse an extraction of the same input, keeps ledger and audit in agreement. |
| `DryRunPlan.RowIsLastAttempt` | scripts/brain/backfill.py:494-583 | In every crash state of every campaign a row records its meeting's last completed attempt: the child's exit code, how many attempts there were, a nominal charge exactly for a failure past the fetch with no extraction, a reuse exactly for an extraction there before. |
| `DryRunPlan.AttemptLeaves` | scripts/brain/backfill.py:494-583 | What one attempt that is not killed costs, from what was there before and what the child did: the nominal charge for a failure past the fetch that neither found nor left a stamped extraction, nothing for an extraction that keeps its stamp, else the recorded cost if it is a usable number; and every other meeting is left alone. |
| `DryRunPlan.DryRunAttemptsDue` | scripts/brain/backfill.py:773-850 | A dry-run attempts, in manifest order, exactly the meetings neither applied nor dry-run with success, unless it dies or stops; it stops with 12 only over the cap and with 2 only after an authentication failure. |
| `DryRunBudget.BudgetHolds` | scripts/brain/backfill.py:778-850 | Wherever a dry-run is killed: no row's cost falls, no attempt starts once recorded spend exceeds the cap, and spend is at most the larger of spend at entry and the cap plus the largest single charge. |
| `DryRunBudget.HaltedStaysHalted` | scripts/brain/backfill.py:797-804 | A dry-run that starts over its cap makes no attempt and changes nothing. |
| `DryRunLedger.SpendUpdate` | scripts/brain/backfill.py:778-779 | Recorded spend is the sum over the rows: replacing one row changes it by the difference of that row's cost. |
| `DryRunner.ComputeSpend` | scripts/brain/backfill.py:778-779 | The summation loop gives that sum. |
| `DryRunner.Runner.AttemptMeeting` | scripts/brain/backfill.py:801-830 | One attempt: the pending stamp saved before the child starts, the record computed from it, the row saved. |
| `DryRunner.Runner.DryRunLocked` | scripts/brain/backfill.py:773-850 | The whole loop with its budget halts before and after each meeting and its stop on an authentication failure. |
| `MeetingApplySafety.ReachableIsSound` | scripts/brain/run_meeting.py:618-1088 | In every state any mix of killed and completed applies can reach, a step marked done has had its effect, and no step's effect runs before every earlier required step had its own. |
| `MeetingApplySafety.ApplyKeeps` | scripts/brain/run_meeting.py:672-1088 | One apply, killed anywhere, repeats no step that is done (except writeback when its page marker is missing and the commit on a dirty pathspec), lets the created-task map only grow in a live run, and never forgets when the meeting was first applied or that it has a commit. |
| `MeetingApplySafety.CampaignKeeps` | scripts/brain/progress.py:757-808 | Over any sequence of applies `first_applied_at` and a non-null `vault_sha` never regress, and without backfill runs the created-task map only grows. |
| `MeetingApplySafety.SmoothApplyFinishes` | scripts/brain/run_meeting.py:672-1088 | Wherever earlier runs were killed, a live apply that meets no failure finishes with every step done and a receipt. |
| `MeetingApplySafety.BackfillKeepsCreatedTasksIff` | scripts/brain/run_meeting.py:658-670 | A whole backfill apply that gets past the CRM step leaves the created-task map as it found it exactly when `tasks` was done or already skipped, or the map was empty. |
| `MeetingApplySafety.BackfillForgets` | scripts/brain/run_meeting.py:741-743 | Any backfill apply that gets past the CRM step with `tasks` unfinished empties the created-task map. |
| `MeetingApplySafety.HalfwayFanOut` | scripts/brain/run_meeting.py:772-788 | A concrete live run whose fan-out fails halfway leaves such a map behind. |
| `MeetingPlan.ApplyFollowsPlan` | scripts/brain/run_meeting.py:490-1088 | One apply, from any state and killed anywhere: its events are those of a table of eleven stations (steps, signature, nodes, minimums) read from the checkpoints and the answers, cut short by the first failing station or its death; living, it returns that station's code or 0. A gate, or an apply already on the receipt, lets nothing happen. |
| `MeetingPlan.FinishedApplyIsOnRecord` | scripts/brain/run_meeting.py:1030-1088 | An apply that lives through every station leaves each step done or left out, the created-task map of the table, as commit the sha git answered (with nothing to commit the prior receipt's, else the history's; a trusted commit keeps its own) and a receipt that shows it and keeps the first-applied time. |
| `MeetingPlan.PartialFanOutIsKept` | scripts/brain/run_meeting.py:772-788 | A fan-out that fails part way stops the apply with 8, with every task it did report on record and the receipt untouched. |
| `MeetingPlan.RefusedAtGate` | scripts/brain/run_meeting.py:496-578 | An apply refused at a gate, or already applied and not forced, returns that code and changes nothing. |
| `MeetingPlan.BackfillIsRemembered` | scripts/brain/run_meeting.py:644-656 | The first backfill apply past the gates notes that there was one and then which of the skipped steps were done before; no other apply touches either note, so a kill between the two writes loses the second for good. |
| `MeetingApplier.Applier.FanOutTasks` | scripts/brain/run_meeting.py:743-828 | The fan-out step: the map saved on partial failure, duplicates recovered from the bus or refused, all pairs merged with those already recorded. |
| `MeetingApplier.Applier.SkipForBackfill` | scripts/brain/run_meeting.py:658-670 | The backfill skip never downgrades a step that ran live. |
| `MeetingApplier.Applier.UpdateStatus` | scripts/brain/run_meeting.py:978-1008 | The status step: skipped in a backfill, done without an effect when there is no engagement, else run and marked. |
| `MeetingApplier.Applier.Finish` | scripts/brain/run_meeting.py:1030-1088 | Minimums, the commit with its sha resolved from the prior receipt or the history, and the receipt. |
| `MeetingApplier.Applier.ApplyWrites` | scripts/brain/run_meeting.py:490-1088 | The whole apply: gates, the eight steps in order, commit and receipt. |
| `BatchSignSafety.OnlyReviewedMeetingsLaunch` | scripts/brain/backfill.py:1085-1150 | From a batch nobody has signed, over any signings, applies and changes to the batch files, each process killed anywhere: every meeting launched passes its own gate at that moment and was a candidate of a signing whose digest and manifest are byte for byte the current ones, whose table showed it, and whose capture of it was complete. |
| `BatchSignSafety.CandidatesAreAuthorized` | scripts/brain/sign_batch.py:385-402 | The signer's walk over the progress file and apply's walk over the manifest name the same meetings, each once. |
| `BatchSignSafety.PreflightIsEveryChildGate` | scripts/brain/progress.py:277-328 | When there is something to apply, apply's preflight accepts exactly when the identity chain and the signed set match and every authorized meeting would pass its own marker gate. |
| `BatchSignSafety.CompleteSigningIsAccepted` | scripts/brain/sign_batch.py:454-501 | A signing that is not killed is accepted by apply as it stands. |
| `BatchSignSafety.KilledSigningIsRefused` | scripts/brain/sign_batch.py:454-501 | A signing killed after its first write and before its last leaves a batch apply refuses, whatever was signed before. |
| `BatchSignSafety.DriftIsRefused` | scripts/brain/backfill.py:1088-1109 | If the exit-0 set, the digest or the manifest differs from the signed record, apply leaves the world alone. |
| `BatchSignSafety.FanOutEffect` | scripts/brain/sign_batch.py:477-490 | The marker fan-out, killed anywhere, writes only markers of its own list and keeps the rest. |
| `BatchSignEffects.SigningIsAcceptedIff` | scripts/brain/sign_batch.py:179-443 | A signing is accepted exactly when batch, kind and manifest order are its own, nothing is unattempted or partial signing is allowed, date and signer are fit, digest, sidecar and link are one and show exactly the attempted meetings and the right count of unattempted ones, the sample is the recorded one of current candidate captures in the contracted number, and every candidate's capture is complete. |
| `BatchSignEffects.SigningLeaves` | scripts/brain/sign_batch.py:454-501 | An accepted signing that is not killed leaves a finished record of batch, digest, manifest, candidates, sample, signer, date and unattempted meetings, a marker bound to batch and digest for every candidate with its current capture, and every other file as it was. |
| `BatchSignEffects.ApplyLaunchesWhatIsLeft` | scripts/brain/backfill.py:1085-1196 | An apply that passes its preflight launches the authorized meetings still to do, in manifest order, all of them or as many as it lives for; one that does not pass launches nothing. |
| `BatchSignEffects.UnattemptedAre` | scripts/brain/sign_batch.py:302-306 | Unattempted are exactly the manifest rows not applied already whose meeting has no dry-run with an exit code. |
| `BatchSignEffects.AuthorizedAre` | scripts/brain/backfill.py:1103-1106 | Authorized are exactly the manifest rows not applied already whose dry-run ended with 0. |
| `BatchSignEffects.CandidatesAre` | scripts/brain/sign_batch.py:385-400 | Candidates are exactly the pending meetings with a dry-run that ended with 0. |
| `BatchSigner.UnattemptedRows` | scripts/brain/sign_batch.py:302-306 | The manifest rows no real dry-run has reached. |
| `BatchSigner.AttemptedRows` | scripts/brain/sign_batch.py:349-353 | The ids the progress file says were attempted under this kind. |
| `BatchSigner.CollectCandidates` | scripts/brain/sign_batch.py:385-400 | The candidate loop; it refuses a ledger that names another kind. |
| `BatchSigner.AuthorizedRows` | scripts/brain/backfill.py:1103-1106 | The authorized meetings, from the manifest side. |
| `BatchSigner.Signer.SignLocked` | scripts/brain/sign_batch.py:179-501 | The signing command: every check, then the record, the markers one by one, then the finished record; it returns 0 exactly when every check passed. |
| `BatchSigner.Signer.ApplyLocked` | scripts/brain/backfill.py:1085-1196 | Apply refuses with 15 exactly when its preflight fails, else launches the authorized meetings still to do. |
| `DigestPublishSafety.AcceptedSampleIsComplete` | scripts/brain/sign_batch.py:404-443 | In every crash state of any publications, with rows and captures changing in any way between them, that has an announced digest and something to sign: the signer's sample checks pass exactly when the directory is there, the recorded ids are those of the sample placed for that digest, these are candidates in the contracted number, and no capture of theirs has changed or gone since. |
| `DigestPublishSafety.PublishedSampleIsWhole` | scripts/brain/backfill.py:683-724 | In every such state a directory named by the recorded digest is never seen half filled: it is, byte for byte, the sample last placed for that digest. |
| `DigestPublishSafety.FinishedPublicationIsAcceptedIff` | scripts/brain/sign_batch.py:404-443 | A publication that is not killed, from any state of directories and captures, passes every sample check of the signer exactly when its picks are candidates in the contracted number. |
| `DigestPublishSafety.WindowOpensIff` | scripts/brain/backfill.py:671-702 | The stated promise that there is never a digest without its sample: a run can be killed so as to break it exactly when it finds its own digest announced and the directory missing or not the sample it would place. |
| `DigestPublishSafety.StaleGuard` | scripts/brain/backfill.py:683-702 | With the directory there, that is the code's own test for a stale one, readable before the call. |
| `DigestPublishSafety.DriftOpensWindow` | scripts/brain/backfill.py:671-676 | After any finished publication, a change in one sampled meeting's capture, and nothing else, leaves the digest the same and makes that test true. |
| `DigestPublishSafety.SwapWindowExists` | scripts/brain/backfill.py:696-702 | So the window is reachable for every wording, seeded choice and meeting: dry-run, publish, the capture drifts, publish again and die between the two renames. |
| `DigestPublishSafety.PublishKeeps` | scripts/brain/backfill.py:652-738 | One publication from any state, killed before any file-system operation, keeps the invariant; run to its end it leaves link, digest, sidecar, the current sample's directory and the recorded ids agreeing. |
| `DigestPublishEffects.PublicationLeaves` | scripts/brain/backfill.py:652-738 | A publication that is not killed leaves the digest of the rows with its sidecar, the link on that digest's directory, in it the current capture of every pick and nothing else, the picks on record, and none of the directories it was to clean up. |
| `DigestPublishEffects.LinkIsSwapped` | scripts/brain/backfill.py:705-711 | Wherever the swap is killed the link is the old one or the new one, except that a plain directory of the old layout in its place leaves none for one step. |
| `DigestPublishEffects.EligibleAre` | scripts/brain/backfill.py:652-668 | Eligible for the sample are exactly the meetings whose dry-run ended with 0 and left a capture. |
| `DigestPublish.Publisher.BuildSample` | scripts/brain/backfill.py:690-695 | The sample is built file by file in a directory of its own. |
| `DigestPublish.Publisher.PlaceReviewSample` | scripts/brain/backfill.py:683-705 | Reuse, install, or swap out a stale directory of the same digest. |
| `DigestPublish.Publisher.PruneOld` | scripts/brain/backfill.py:721-723 | The clean-up removes every other sample directory. |
| `DigestPublish.Publisher.WriteDigest` | scripts/brain/backfill.py:652-738 | The whole publication in its order of operations. |
| `DigestTable.ReaderRecoversIds` | scripts/brain/sign_batch.py:103-132 | From a published digest the signer's parser recovers exactly the ids of the attempted meetings whose cells hold no line separator other than a newline, except the literal id `id`. |
| `DigestTable.AllIdsRecoveredIff` | scripts/brain/sign_batch.py:103-132 | So it recovers every attempted id exactly when every attempted row is of that kind. |
| `DigestReview.PrintedDigestIsCurrentIff` | scripts/brain/sign_batch.py:337-372 | A published digest printed from the current progress file passes the signer's digest checks exactly when every row with an exit is readable and no other row is. |
| `DigestTable.RowReadsBack` | scripts/brain/backfill.py:589-630 | A printed row always splits into as many cells as were printed, each reading back as the original with newlines flattened and outer blanks removed. |
| `DigestTable.BrokenRowIsLost` | scripts/brain/sign_batch.py:119-131 | A row with any other line separator in a middle cell yields no id at all, and no false one. |
| `DigestTable.CellReadsBack` | scripts/brain/backfill.py:589-590 | Escaping a cell and reading it back undo each other, backslashes before pipes included. |
| `DigestShows.HeaderCounts` | scripts/brain/backfill.py:625-650 | The header counts the rows that ended with exit 0 and those that ended otherwise, and the table follows it. |
| `DigestShows.AttemptedAreShown` | scripts/brain/backfill.py:606-624 | The table has one row for every attempted meeting, in the order of the entries, and no other. |
| `DigestShows.RowShowsFields` | scripts/brain/backfill.py:620-623 | Each of the eight cells of a printed row reads back as its own field, the exit code as that number in decimal. |
| `DigestTable.WriteDigest` | scripts/brain/backfill.py:593-650 | The digest loop: rows rendered, successes and failures counted, untouched rows passed over. |
| `DigestTable.DigestRowIds` | scripts/brain/sign_batch.py:103-132 | The parser loop collects the first cells of the data lines. |
| `RowCells.SplitRowCells` | scripts/brain/brain_rollup.py:147-166 | The pair-consuming splitter cuts exactly at the pipes preceded by an even run of backslashes. |
| `RowCells.SplitUnescapedPipes` | scripts/brain/status_plan.ts:162-182 | The parity-counting splitter cuts at exactly the same pipes, so the two return the same cells on every string. |
| `RowCells.SplitAtDelimiter` | scripts/brain/brain_rollup.py:134-146 | A pipe after an even run of backslashes splits a row into the cells of its two sides. |
| `RowCells.ReadersAgreeOnRow` | scripts/brain/status_plan.ts:215-218 | The two row readers, one dropping the outer pipes first and one the outer cells last, agree on a piped row exactly when its closing pipe is not itself escaped. |
| `RowCells.UnescapePipeCell` | scripts/brain/brain_rollup.py:169-181 | The unescaping loop takes a backslash away only before a backslash or a pipe, and takes both characters at once. |
| `RowCells.SplitUndoesJoin` | scripts/brain/brain_rollup.py:147-181 | Split, trim and unescape undo the join of any fully escaped, trimmed cells. |
| `RowCells.HeaderWord` | scripts/brain/brain_rollup.py:194-195 | A row is taken for the header exactly when its first cell is `item` in any mix of cases. |
| `RowCells.CellSurvives` | scripts/brain/writeback_render.py:15-31 | One cell survives the page writer and the reader exactly when it is trimmed, has no backslash before a backslash or a pipe, and does not start with `#` or `-`. |
| `RowCells.RowRoundTrip` | scripts/brain/writeback_render.py:92-111 | Reading back a printed Open Items row gives its five cells exactly when every cell is of that kind and the first is not the header word. |
| `ResolverTheorems.ResolveIsTotal` | scripts/brain/resolve_meeting.py:1286-1448 | With participants or text, `resolve` gives a home or the explicit ambiguous relationship, never the empty result; the latter only when no client is a candidate and the picked org page leaves the relationship open. |
| `ResolverTheorems.HardIsCollected` | scripts/brain/resolve_meeting.py:701-722 | Every participant with a company address lands in the client, org or unknown candidates. |
| `ResolverTheorems.UnknownLabelIsNoPage` | scripts/brain/resolve_meeting.py:720-722 | An unknown label is never an existing org or client page. |
| `ResolverTheorems.Rule6FilesUnderLabel` | scripts/brain/resolve_meeting.py:1340-1367 | So the branch of rule 6 for a label that is already an org is unreachable: it always files under the label itself, a new page that is no client. |
| `ResolverTheorems.ResolutionIsSound` | scripts/brain/resolve_meeting.py:925-1468 | Over all thirteen rules a page is created exactly when the returned home does not exist, and it is that home; rules 6, 9 and 10 never create an org page named like a client. |
| `ResolverTheorems.EarlierRulesAreSilent` | scripts/brain/resolve_meeting.py:925-1468 | The reported rule number names the first rule that had an answer: every rule before it in the order 13, 1, 2, 11, 10, 12, 4 by name, 9, 3 or 4, 5, 6, 7, 8 had none. |
| `ResolverTheorems.ClientHitSound` | scripts/brain/resolve_meeting.py:1495-1515 | Filing under a client lands on its page or on an open node of that very client. |
| `ResolverRules.Rule3TakesTheMajority` | scripts/brain/resolve_meeting.py:750-770 | When rule 3 decides, the home is a client some external participant's company address points to, and no other such client has more participants; against any other the key prefers it: tier, votes, the classification's match, open nodes, alphabet. |
| `ResolverRules.Rule6TakesTheMajority` | scripts/brain/resolve_meeting.py:1315-1367 | When rule 6 decides there is no client candidate, and the home is the preferred org candidate, or without one the unknown label most participants have, the first in the alphabet among equals. |
| `ResolverRules.VotesAreSupport` | scripts/brain/resolve_meeting.py:731-745 | The votes of a candidate are the number of external participants whose company address speaks for it: through what its domain is mapped to, else through its own label. |
| `ResolverRules.PickPrefers` | scripts/brain/resolve_meeting.py:750-770 | The pick has, against every other candidate, the better tier, or as good a one and more votes, or as many and the classification's match, or as good a one and more open nodes, or as many and the earlier name. |
| `ResolverRules.OpenNodesCount` | scripts/brain/resolve_meeting.py:762-768 | Open nodes are counted over the client's nodes in an open or active state. |
| `ResolverRules.LexIsAlphabetical` | scripts/brain/resolve_meeting.py:769 | The last tie is broken by the first differing character, a prefix coming first. |
| `ResolverRules.CandidatesAre` | scripts/brain/resolve_meeting.py:700-722 | A slug is a client, org or unknown candidate exactly when the address of some external participant points to it, by the mapped domain or by the label. |
| `ResolverRules.AddressSplits` | scripts/brain/resolve_meeting.py:701-707 | The domain of an address is what follows its first at sign. |
| `ResolverRules.DomainSplits` | scripts/brain/resolve_meeting.py:709 | The last label of a domain is what follows its last dot. |
| `ResolverRules.CompanyAddressIs` | scripts/brain/resolve_meeting.py:700-711 | A company address is one whose domain, in lower case, is no free-mail domain; its label and the page it is mapped to are looked up from that. |
| `ResolverRules.NoAddressIsNoCompany` | scripts/brain/resolve_meeting.py:701-707 | Without an at sign a participant has no company address and no free-mail address either. |
| `ResolverRules.ContactsAre` | scripts/brain/resolve_meeting.py:841-924 | The clients and orgs that contacts bring in: the dated employer or else the company of anybody identified, by name only for those without an address, an org only for those whose own address is on the contact row. |
| `ResolverRules.ExternalsAre` | scripts/brain/resolve_meeting.py:476-501 | External are exactly the participants on the other side, or on an unknown side and heard, who are no note-taker and not on the roster. |
| `ResolverRules.UnknownCountIs` | scripts/brain/resolve_meeting.py:720-722 | The count behind an unknown label is the number of external participants with a company address under it that names no page. |
| `ResolverRules.ClientHitMeans` | scripts/brain/resolve_meeting.py:1495-1515 | A meeting filed under a client goes to the client's only node in progress, or, with none or several, to the client's page. |
| `ResolverRules.ExistingPageMeans` | scripts/brain/resolve_meeting.py:189-204 | The page an organisation name means: an equal name beats one that only begins alike, a client beats an org, the first in the directory the rest; a name of fewer than four letters means none. |
| `ResolverDoors.Rule13Door` | scripts/brain/resolve_meeting.py:925-991 | Rule 13 answers exactly for an override onto an existing page of an unprotected meeting, and where it files: a node in the title refines it only within the same client. |
| `ResolverDoors.Rule1Door` | scripts/brain/resolve_meeting.py:992-995 | Rule 1 answers exactly when the title names a node, with the first such node. |
| `ResolverDoors.Rule2Door` | scripts/brain/resolve_meeting.py:996-1010 | Rule 2 answers exactly when one node alone has an alias in the title and its client is a candidate or nobody external took part. |
| `ResolverDoors.Rule11Door` | scripts/brain/resolve_meeting.py:1011-1023 | Rule 11 answers exactly for the office-hours title of an unprotected meeting, with the internal page. |
| `ResolverDoors.Rule10Door` | scripts/brain/resolve_meeting.py:1024-1106 | Rule 10 answers exactly for two or more external people without any address in a meeting called collegial or personal and named, and files under the client, the declared page, or the community page. |
| `ResolverDoors.Rule12Door` | scripts/brain/resolve_meeting.py:1107-1150 | Rule 12 answers exactly for a declared name of an unprotected meeting, unless two participants agree on a client and the declared page is no candidate. |
| `ResolverDoors.Rule4Door` | scripts/brain/resolve_meeting.py:1151-1196 | Rule 4 by name: another existing page the classification names wins over the contact known by name unless a dated employer says otherwise; else the contact wins over the default. |
| `ResolverDoors.Rule9Door` | scripts/brain/resolve_meeting.py:1206-1285 | Rule 9 answers exactly when a classification of at least 0.8 names something other than the default and more participants have its domain than speak for the default; and the seven places where it files, in order. |
| `ResolverDoors.Rule34Door` | scripts/brain/resolve_meeting.py:1197-1205 | Rules 3 and 4 answer exactly when there is a client candidate or a contact's client, with the preferred one, 3 when it comes from a domain. |
| `ResolverDoors.Rule5Door` | scripts/brain/resolve_meeting.py:1290-1313 | Rule 5 answers with the first external participant with a free-mail address that a contact row lists, on the first such row's own page. |
| `ResolverDoors.FreeMailContactIs` | scripts/brain/resolve_meeting.py:1290-1299 | The contact rule 5 finds for a participant: the first row that lists the address in any case, only for a free-mail address. |
| `ResolverDoors.Rule6OrgDoor` | scripts/brain/resolve_meeting.py:1315-1342 | Rule 6 on an org page: the page's own relationship, else the classification's; with neither the run ends as ambiguous. |
| `ResolverDoors.Rule6NewDoor` | scripts/brain/resolve_meeting.py:1343-1367 | Rule 6 on an unknown label: a new org page, a prospect unless the classification says vendor, partner or personal. |
| `ResolverDoors.Rule78Door` | scripts/brain/resolve_meeting.py:1368-1447 | Rule 7 answers exactly for external participants of whom none has a company address, on a known page of the classification's name, else the first real person's own page, else the internal page; rule 8 exactly for nobody external. |
| `ResolverTheorems.ExistingPageExists` | scripts/brain/resolve_meeting.py:189-204 | The page an organisation name is matched to exists, in the kind reported. |
| `ResolverTheorems.OrderDoesNotMatter` | scripts/brain/resolve_meeting.py:701-923 | Permuting the participants never changes which rule decides, and leaves the whole resolution unchanged unless that rule is 5 or 7. |
| `ResolverTheorems.PickPermutes` | scripts/brain/resolve_meeting.py:750-770 | The pick minimises over a key no two slugs share, so it does not depend on the order. |
| `ResolverTheorems.FactsPermute` | scripts/brain/resolve_meeting.py:696-923 | Candidate sets and counts do not depend on the order of the participants. |
| `ResolverLoops.ExternalParticipants` | scripts/brain/resolve_meeting.py:476-497 | The filter keeps, in order, everyone on the other side or unknown but speaking who is no notetaker and not on the roster. |
| `ResolverLoops.CollectDomains` | scripts/brain/resolve_meeting.py:701-722 | The candidate loop, filling two sets and three dictionaries participant by participant. |
| `ResolverLoops.IdentifyContacts` | scripts/brain/resolve_meeting.py:885-923 | The contact loop, filling the contact, name-only, org and dated-employer sets. |
| `ResolverLoops.Collect` | scripts/brain/resolve_meeting.py:676-923 | Both loops together give every fact the rules read, as set comprehensions and counts. |
| `ResolverLoops.CountVotes` | scripts/brain/resolve_meeting.py:731-745 | The vote dictionary holds, for every candidate, how many participants vote for it. |
| `ResolverLoops.PickCandidate` | scripts/brain/resolve_meeting.py:750-770 | The minimum over the candidates visited in any order is the pick. |
| `ReconcileTheorems.MirrorsIff` | knowledge-base/scripts/mmrag.py:1939-2075 | After a run in which nothing failed the index mirrors the disk exactly when every source its hashes call current was whole and every file the checkpoint skips yields no chunks; the checkpoint is then cleared. |
| `ReconcileTheorems.SoundCheckpointMirrors` | knowledge-base/scripts/mmrag.py:1939-2075 | With a sound checkpoint and whole kept sources a clean run leaves the index equal to the disk. |
| `ReconcileTheorems.SecondRunDoesNothing` | knowledge-base/scripts/mmrag.py:1939-2075 | Reconciling a mirrored index deletes nothing and stores nothing: the same rows in the same order. |
| `ReconcileTheorems.SourceOutcome` | knowledge-base/scripts/mmrag.py:1964-2046 | What a reconcile leaves of one source, whatever fails elsewhere: its rows if kept, none if checkpointed or not on disk, else exactly its current chunks. |
| `ReconcileTheorems.PartialFileIsNeverRepaired` | knowledge-base/scripts/mmrag.py:1981-1985 | A file whose ingest stopped part way, with the right hash on what it stored, is left as it is by every later run. |
| `ReconcileTheorems.StaleCheckpointLosesFile` | knowledge-base/scripts/mmrag.py:2029-2034 | A checkpoint entry that outlived its file makes a restored file of the same content stay out of the index. |
| `ReconcileTheorems.RemovedSourceKeepsEntry` | knowledge-base/scripts/mmrag.py:1999-2014 | How such an entry comes about: when a run is not clean, a removed source keeps its entry though its rows are gone. |
| `ReconcileTheorems.BatchesMembers` | knowledge-base/scripts/mmrag.py:1843-1872 | Batches that all succeed remove exactly the listed ids; failing batches remove fewer and nothing else. |
| `ReconcileOutcome.BatchesExactly` | knowledge-base/scripts/mmrag.py:1843-1872 | A row is deleted exactly when its id stands in some batch of five hundred that succeeds. |
| `ReconcileOutcome.DeletedIff` | knowledge-base/scripts/mmrag.py:1843-1872 | The deletion of a source succeeds exactly when every batch of five hundred of its ids does. |
| `ReconcileOutcome.FailedIngestLeaves` | knowledge-base/scripts/mmrag.py:2030-2052 | A file whose ingest raises part way keeps exactly the chunks stored before that. |
| `ReconcileOutcome.CheckpointOutcome` | knowledge-base/scripts/mmrag.py:2030-2058 | The checkpoint after a run: empty when nothing failed, else every file whose ingest was due and did not fail at its current hash, and for all others what it held before. |
| `Reconciler.Collection.GetAllRows` | knowledge-base/scripts/mmrag.py:1816-1835 | Paged reading returns every row in order. |
| `Reconciler.Collection.CollectIndexState` | knowledge-base/scripts/mmrag.py:1798-1813 | The rows grouped by source. |
| `Reconciler.GroupEntry` | knowledge-base/scripts/mmrag.py:1804-1812 | Each group holds the ids of its source in order and its set of hashes. |
| `Reconciler.Collection.DeleteIdsInBatches` | knowledge-base/scripts/mmrag.py:1843-1872 | The delete loop goes on after a failing batch and reports success exactly when every batch succeeded. |
| `Reconciler.Collection.IngestFile` | knowledge-base/scripts/mmrag.py:2480-2516 | Chunks are stored one by one, existing ids skipped, until done or until the ingest raises. |
| `Reconciler.ClassifySources` | knowledge-base/scripts/mmrag.py:1970-1993 | Ignored, removed, changed and unchanged sources told apart in index order. |
| `Reconciler.Collection.ReconcileCollection` | knowledge-base/scripts/mmrag.py:1939-2075 | The whole reconcile, with its checkpoint cleared exactly after a clean run. |
| `ReconcileCrash.ReachableMirrorsIff` | knowledge-base/scripts/mmrag.py:1939-2075 | From any index that reconciles killed at any delete batch, stored chunk or checkpoint write, failing anywhere, over disks that change between them, can leave: a run in which nothing fails mirrors its disk exactly when no file of it is stored in part and every file the checkpoint wrongly skips is empty. |
| `ReconcileCrash.InterruptedRunIsRepairedIff` | knowledge-base/scripts/mmrag.py:2024-2055 | One run killed or failing anywhere after a clean one, then a clean run over whatever the disk has become: it repairs the index exactly when no file of that disk was left stored in part. |
| `ReconcileCrash.KillLeavesAtMostOnePartial` | knowledge-base/scripts/mmrag.py:2024-2046 | A run over a mirrored index in which nothing fails, killed anywhere, leaves at most one file of its disk stored in part. |
| `ReconcileCrash.CutRunIsBacked` | knowledge-base/scripts/mmrag.py:2029-2034 | A run that starts without a checkpoint leaves one whose every entry has exactly its chunks in the index, wherever it is killed and whatever fails. |
| `ReconcileCrash.SurvivedRunIsRun` | knowledge-base/scripts/mmrag.py:1939-2075 | A killable run that lives through its last write is the run the reconcile rows above are about. |
| `Rebuild.OriginalNeverLost` | knowledge-base/scripts/mmrag.py:2211-2289 | At every exception point and every kill point the original store is live or the newest backup, older backups are untouched, and the live directory is the original, the fully built store, or absent while the original waits in the backup. |
| `Rebuild.LiveOnReturn` | knowledge-base/scripts/mmrag.py:2274-2285 | Unless the process is killed or the rename back fails, a live store is followed by a live store. |
| `Rebuild.SwapIff` | knowledge-base/scripts/mmrag.py:2224-2272 | The rebuilt store goes live exactly when the run got that far and every count, size and failure-ratio guard passed or was overridden. |
| `Rebuild.GuardsMean` | knowledge-base/scripts/mmrag.py:2224-2246 | The guards in numbers: a built store that is not empty, at least a quarter of the live rows unless shrinking is allowed, at most twenty times the live size, at most one file in five failed unless forced. |
| `Rebuild.RebuildLeaves` | knowledge-base/scripts/mmrag.py:2211-2289 | A rebuild whose renames all work swaps whole, the built store live and the original the newest backup, or leaves everything but the directory it built in as it was. |
| `Rebuild.NoStoreIsEverLost` | knowledge-base/scripts/mmrag.py:2211-2289 | Over any number of rebuilds, failing or killed anywhere, no store that was ever live or kept is lost. |
| `Rebuild.EveryStoreIsAccountedFor` | knowledge-base/scripts/mmrag.py:2211-2289 | Every store that is live or kept was so at the start or is the complete result of a build some run let through its guards. |
| `Rebuild.KilledSwapDisarmsGuards` | knowledge-base/scripts/mmrag.py:2156-2164 | A run killed between its two renames leaves nothing live, so the next one's shrink and size guards compare with nothing. |
| `Rebuild.Rebuilder.Guards` | knowledge-base/scripts/mmrag.py:2224-2246 | The list of abort reasons is empty exactly when every guard passes or is overridden. |
| `Rebuild.Rebuilder.RebuildCollection` | knowledge-base/scripts/mmrag.py:2119-2289 | The rebuild with its exception handler equals the run the rows above are about, at every exception and kill point. |
| `StoreBuild.ResumedBuildMirrorsIff` | knowledge-base/scripts/mmrag.py:2078-2103 | A build session that runs to its end leaves a store that mirrors the disk exactly when the store it resumed held no row of a gone file or of an older version of a file (chunk ids are reused and nothing is deleted, so such rows are never replaced) and whatever a failing file could not store now had been stored before. |
| `StoreBuild.StableDiskIsMirrored` | knowledge-base/scripts/mmrag.py:2166-2205 | However often the build of an unchanged disk is killed at any write or fails on any file, the first session that ends without a failure leaves exactly the disk. |
| `StoreBuild.StaleRowIsNeverReplaced` | knowledge-base/scripts/mmrag.py:2472-2477 | Once a row of an older version is stored, no number of resumed sessions ever mirrors the changed disk. |
| `StoreBuild.SessionsKeep` | knowledge-base/scripts/mmrag.py:2086-2094 | In every crash state of any sessions on any disks every row is a chunk of some version of its file, every completed file has a row under each of its ids, and nothing stored is lost. |
| `StoreBuild.BuildOneKeeps` | knowledge-base/scripts/mmrag.py:2086-2094 | One file: what is added is current, other files' checkpoint entries stay, and a file that does not fail is complete unless the session dies. |
| `StoreBuild.CheckpointCounts` | knowledge-base/scripts/mmrag.py:2192-2207 | A session adds no row of a file its checkpoint names at the current version while the store holds anything; with an empty store the checkpoint is dropped and the session is that of a fresh start. |
| `StoreBuild.Builder.BuildCollectionFromDisk` | knowledge-base/scripts/mmrag.py:2078-2103 | The build loop: an orphaned checkpoint dropped, completed files skipped, chunks stored one by one, the entry written after the last. |
| `RebuildMirror.LiveStoreMirrorsIff` | knowledge-base/scripts/mmrag.py:2166-2272 | After any rebuilds, killed or refused anywhere, over any disks: a store a rebuild makes live mirrors the disk it saw exactly when the side store it resumed held nothing out of date and whatever failed this time had been stored before. |
| `RebuildMirror.RebuildAfterSwapMirrorsIff` | knowledge-base/scripts/mmrag.py:2239-2272 | A rebuild that follows a swap makes a mirror of its disk live exactly when no file of that disk fails part way, however many failures the guards let through. |
| `RebuildMirror.SwappedInIsBuilt` | knowledge-base/scripts/mmrag.py:2224-2272 | A swap makes live exactly what the session built, only if the session ran to its end and every guard passed or was overridden, and leaves nothing to resume. |
| `Promotion.PromotionLosesNothing` | knowledge-base/scripts/mmrag_recovery.py:1309-1362 | Wherever promotion stops, both stores still exist and the side store is never live before the original is kept. |
| `Promotion.FailedPromotionUndoesItself` | knowledge-base/scripts/mmrag_recovery.py:1320-1341 | A promotion that is refused, or whose second rename fails, changes nothing. |
| `Promotion.PromotionIsRefusedIff` | knowledge-base/scripts/mmrag_recovery.py:1319-1333 | A promotion is refused exactly when a gate did not pass, a store is missing or a rollback store is in the way. |
| `Promotion.FinishedPromotionLeaves` | knowledge-base/scripts/mmrag_recovery.py:1334-1362 | A promotion that is not killed leaves the side store live, the original kept for rollback, the promoted collection in the configuration with every other key as it was, and the prior one on the receipt. |
| `Promotion.FinishedRollbackLeaves` | knowledge-base/scripts/mmrag_recovery.py:1365-1393 | A rollback that is not killed makes the kept store live, sets the other aside and restores the collection on the receipt, if there is one. |
| `Promotion.RollbackRestoresStoreIff` | knowledge-base/scripts/mmrag_recovery.py:1365-1393 | Rolling back a promotion killed anywhere, itself killed anywhere, from any state a promotion may start in: refused exactly when nothing was promoted or a store failed earlier still stands aside; the original is live again exactly when promotion had not begun or the renames that bring it back were made. |
| `Promotion.RollbackRestoresConfigIff` | knowledge-base/scripts/mmrag_recovery.py:1379-1392 | When the configuration is as before the promotion, wherever both are killed and whatever receipt an earlier promotion left: until promotion writes it, and after that exactly when the receipt the rollback reads names the collection of then. |
| `Promotion.StaleReceiptMisleads` | knowledge-base/scripts/mmrag_recovery.py:1379-1384 | With an older receipt, a promotion killed before writing its own is rolled back to the older prior. |
| `Promotion.NoStoreIsLost` | knowledge-base/scripts/mmrag_recovery.py:1309-1393 | Over any promotions and rollbacks, failing or killed anywhere, and any new side stores, the stores kept are exactly those there were and those added: none lost, overwritten or duplicated. |
| `Promotion.AlwaysRecoverable` | knowledge-base/scripts/mmrag_recovery.py:1309-1393 | In every such crash state there is a live store, or one kept for rollback that the next rollback's first write makes live. |
| `Promotion.KilledRollbackIsStuck` | knowledge-base/scripts/mmrag_recovery.py:1365-1393 | A rollback killed after its last rename leaves the original live with the configuration naming the promoted collection, and no number of reruns changes that. |
| `Promotion.KnowledgeBase.PromoteSideStore` | knowledge-base/scripts/mmrag_recovery.py:1309-1362 | Gates, two renames with the first undone when the second fails, then configuration and receipt, killed at any write: equal to the promotion the rows above are about. |
| `Promotion.KnowledgeBase.RollbackPromotedStore` | knowledge-base/scripts/mmrag_recovery.py:1365-1393 | Refusals, the live store moved aside, the original moved back, the configuration restored from the receipt, killed at any write: equal to the rollback the rows above are about. |
| `Recovery.PlanSupervisedBatches` | knowledge-base/scripts/mmrag_recovery.py:846-864 | The planning loop yields the plan whose conservation, shape and resumption the following rows state. |
| `Recovery.PlanConserves` | knowledge-base/scripts/mmrag_recovery.py:846-864 | The concatenated batches are the input: nothing lost, nothing repeated, order kept. |
| `Recovery.PlanProper` | knowledge-base/scripts/mmrag_recovery.py:846-864 | Every batch is non-empty and of one kind; a special file is alone, a plain batch within the limit. |
| `Recovery.PlanTight` | knowledge-base/scripts/mmrag_recovery.py:853-863 | A plain batch is cut short only by the end or by a file of another kind. |
| `Recovery.ResumePlansTheRest` | knowledge-base/scripts/mmrag_recovery.py:846-864 | Planning the files of any suffix of a plan gives that very suffix. |
| `Recovery.Supervisor.SupervisedSideIngest` | knowledge-base/scripts/mmrag_recovery.py:1160-1245 | The supervised run: refusals, pending files, batches submitted until one fails, progress written after each success. |
| `Recovery.FailureKeepsConfirmed` | knowledge-base/scripts/mmrag_recovery.py:1221-1228 | A failed worker leaves the progress at the batches confirmed before it. |
| `Recovery.ResumeContinues` | knowledge-base/scripts/mmrag_recovery.py:1195-1245 | A failed run resumed with the same distinct files submits exactly the batches it left, in the same shape. |
| `Recovery.ConfirmedNeverResubmitted` | knowledge-base/scripts/mmrag_recovery.py:1202-1203 | Nothing already confirmed is submitted again. |
| `Recovery.SuccessConfirmsAll` | knowledge-base/scripts/mmrag_recovery.py:1229-1245 | A run that ends well has confirmed every file it was given. |
| `RecoveryOutcome.RunIsRefusedIff` | knowledge-base/scripts/mmrag_recovery.py:1176-1202 | A supervised run is refused exactly for a limit of six hours, more than eighty files a batch, no store named, a path that is no file or the checkpoint of another store; and then it does nothing. |
| `RecoveryOutcome.RunSubmitsUntilFailure` | knowledge-base/scripts/mmrag_recovery.py:1203-1245 | Any other run submits the planned batches in order up to the first that fails, adds the files of the earlier ones to the checkpoint of its store, and reports how many files that holds. |
| `RecoveryOutcome.PendingIs` | knowledge-base/scripts/mmrag_recovery.py:1203-1204 | What is submitted is the input without the confirmed files, in its order. |
| `RecoveryChunks.ChunkRunner.RunOneRecoveryChunk` | knowledge-base/scripts/mmrag_recovery.py:1077-1149 | One recovery chunk: replay refused, the first batch submitted alone, progress written only on success. |
| `RecoveryChunks.StepEffect` | knowledge-base/scripts/mmrag_recovery.py:1041-1149 | One round submits nothing confirmed; a success confirms exactly its chunk, anything else leaves the progress as it is. |
| `RecoveryChunks.RecoveryFinishes` | knowledge-base/scripts/mmrag_recovery.py:1041-1149 | Over any rounds, from any checkpoint and store: no file confirmed before or during them is submitted again, at most as many chunks succeed as files were left, and once that many have, every file is stored or confirmed. |
| `RecoveryChunks.LateRefusalIsUnreachable` | knowledge-base/scripts/mmrag_recovery.py:1138-1140 | The second check for confirmed files, after the worker has run, never fires. |
| `RecoveryOutcome.ChunkOutcome` | knowledge-base/scripts/mmrag_recovery.py:1077-1149 | Exactly when a chunk is refused, and what any other one leaves: one submission, a retry with the checkpoint as it was, or a success added behind what the checkpoint, else the list of confirmed files, holds. |
| `RecoveryOutcome.NextChunkIs` | knowledge-base/scripts/mmrag_recovery.py:1060-1074 | The next chunk is the beginning of what is left: one special file, or plain files up to the limit, the end or the next special file; and its time limit goes by its first file. |
| `RecoveryOutcome.RemainingIs` | knowledge-base/scripts/mmrag_recovery.py:1041-1057 | What is left is the inventory without stored and confirmed files, in its order. |
| `Chunking.ChunkText` | knowledge-base/scripts/mmrag.py:1256-1287 | `chunk_text` terminates for every text when the overlap is at most half the size, and returns the trimmed text of every window that is not blank. |
| `ChunkContent.ShortText` | knowledge-base/scripts/mmrag.py:1258-1259 | A text of at most one size gives itself as its only chunk, or no chunk when it is blank. |
| `ChunkContent.LongText` | knowledge-base/scripts/mmrag.py:1261-1287 | A longer text gives the trimmed text of every window that is not blank, in order, and nothing else. |
| `ChunkContent.NothingVisibleIsLost` | knowledge-base/scripts/mmrag.py:1256-1287 | Every visible character of every text lies in some returned chunk, in its place. |
| `Chunking.WindowEnd` | knowledge-base/scripts/mmrag.py:1264-1279 | A window ends more than half and at most one full size after its start. |
| `Chunking.WindowPrefersBreaks` | knowledge-base/scripts/mmrag.py:1266-1279 | In the second half of a window a blank line is preferred to a newline and a newline to the full size, and the last of each kind to any earlier one. |
| `Chunking.WindowsShape` | knowledge-base/scripts/mmrag.py:1263-1285 | Consecutive windows overlap by exactly the overlap, none is longer than the size, the last reaches the end. |
| `Chunking.WindowsCover` | knowledge-base/scripts/mmrag.py:1263-1285 | Every position lies in some window. |
| `Chunking.WindowsRebuildText` | knowledge-base/scripts/mmrag.py:1263-1285 | The windows, less their overlaps, are the text. |
| `Chunking.ChunkCountBound` | knowledge-base/scripts/mmrag.py:1256-1287 | The number of chunks is bounded by length over minimum progress. |
| `Chunking.AdvancesIff` | knowledge-base/scripts/mmrag.py:1283-1285 | Every window of every text advances exactly when the overlap is at most half the size; beyond that a concrete text makes the loop stand still or go back. |
| `Chunking.ChunkIntervals` | knowledge-base/scripts/mmrag.py:1306-1347 | The interval loop: one interval every chunk minus overlap seconds, a tail under five seconds dropped unless it is the first. |
| `ChunkContent.IntervalsAre` | knowledge-base/scripts/mmrag.py:1306-1347 | Interval k starts k steps in and is one chunk long unless the recording ends; the first is there when anything is, a later one exactly when at least five seconds are left for it. |
| `Chunking.EverythingRecordedIff` | knowledge-base/scripts/mmrag.py:1320-1347 | Every moment of every recording is in some interval exactly when the overlap is at least the five seconds a dropped tail may last. |
| `Regions.LastWriterWinsIff` | scripts/brain/brain_rollup.py:335-349 | For bodies without the closing marker, writing a second body over a first gives what the second alone gives exactly when the region is there with a closing marker or no stray opening marker stands before the insertion point. |
| `Regions.OutsideIsKept` | scripts/brain/brain_rollup.py:335-349 | The text before the opening and after the closing marker, or the whole old text around a new block, is kept in order; only newlines are added. |
| `Regions.StrayOpeningSwallows` | scripts/brain/brain_rollup.py:339-349 | A stray unterminated opening marker swallows what stands between it and the new block. |
| `RegionOutcome.RegionIsReplaced` | scripts/brain/brain_rollup.py:335-343 | With both markers in the text, what stands between the first opening marker and the first closing one after it is replaced by the body on lines of its own, and every other character stays. |
| `RegionOutcome.RegionIsAdded` | scripts/brain/brain_rollup.py:344-349 | Without both markers the block goes after the first anchor, else to the end, set off by the fewest newlines that give a blank line before it. |
| `RegionOutcome.RegionIsRefused` | scripts/brain/brain_rollup.py:339-343 | With the only closing markers before the opening one, the write fails. |
| `StateRegion.StateBlockEndsFile` | scripts/brain/brain_rollup.py:352-382 | A rewrite of the state block is accepted exactly when there is no block yet or the first marker after its opening is a closing one; the result is the remaining text and the new block at the very end. |
| `RegionOutcome.StateIsRewritten` | scripts/brain/brain_rollup.py:352-382 | The old state block, from its first opening to the first closing after it, is cut out, what is left is bared of newlines, and the new block follows after one blank line. |
| `RegionOutcome.StateIsAdded` | scripts/brain/brain_rollup.py:378-382 | Without one, the block follows the bared text in the same way. |
| `StateRegion.StateLastWriterWins` | scripts/brain/brain_rollup.py:352-382 | With marker-free bodies and no second own block, the last writer wins. |
| `StateRegion.LastRollupStands` | scripts/brain/brain_rollup.py:352-382 | Instantiated at the markers of the state page: the second of two rollups is all that shows. |
| `StateSections.EveryOpenNodeOnce` | scripts/brain/brain_rollup.py:226-300 | Every open engagement and every open project contributes to the state block exactly once, and no closed node ever does. |
| `StateSections.EveryProjectUnderItsParent` | scripts/brain/brain_rollup.py:256-289 | Every open project stands under its parent, open or not, or under the heading for projects whose parent does not exist. |
| `StateSections.EveryOpenItemOnce` | scripts/brain/brain_rollup.py:235-251 | Every open row of every open node is on exactly one of the two item lists, once, by its owner's side; no other row is listed. |
| `StateSections.RendersIff` | scripts/brain/brain_rollup.py:262-275 | The section renders exactly when no open engagement lacks an id; otherwise the lookup of its group fails. |
| `StateSections.ByParentMembers` | scripts/brain/brain_rollup.py:265-272 | Grouping with default-and-append gives, for every parent that exists, exactly the projects that name it. |
| `StateSections.RenderActive` | scripts/brain/brain_rollup.py:226-289 | The grouping loops and the emission loop produce the lines that the statements above are about. |
| `StateSections.SortItems` | scripts/brain/brain_rollup.py:235-251 | The row loops fill the waiting list and the next list in emission order. |
| `StateSections.ResolversAgreeIff` | scripts/brain/status_plan.ts:105-114 | The planner's engagement lookup agrees with the apply's on a node exactly when the node is not called `none`, an engagement states its id, and a project's parent is none or an existing engagement. |
| `StateSections.PlannerOpensTheEngagement` | scripts/brain/run_meeting.py:597-615 | Given the engagement the apply found, the planner opens that very page exactly when the page states its id. |
| `ManagedIndex.IndexLastWriterWinsIff` | knowledge-base/scripts/mmrag.py:1626-1645 | The wiki page shows the last managed block alone exactly when it had a block or no stray marker. |
| `ManagedIndex.PartsComeBack` | knowledge-base/scripts/mmrag.py:1628-1640 | The prose before and after a block comes back unchanged from the text it was put into. |
| `RegionOutcome.IndexIsReplaced` | knowledge-base/scripts/mmrag.py:1628-1640 | A managed block is replaced in its place, the prose before and after it bared of newlines where it meets the block, one blank line apart. |
| `RegionOutcome.IndexIsAdded` | knowledge-base/scripts/mmrag.py:1642-1645 | Without one, the block goes to the end as it is, one blank line after the text. |
| `ManagedIndex.StrayMarkerShows` | knowledge-base/scripts/mmrag.py:1628-1645 | With a stray marker a second write never gives what a single one gives: it appends again or swallows text. |
| `Sections.SplitSections` | scripts/brain/status_plan.ts:73-90 | The line loop cuts the page into exactly the parts that start at its headings. |
| `Sections.SplitIsLossless` | scripts/brain/status_plan.ts:66-90 | Splitting loses nothing. |
| `Sections.SplitUndoesJoin` | scripts/brain/status_plan.ts:73-90 | Joining and splitting again gives the same page. |
| `Reporting.OnlyReportingChanges` | scripts/brain/status_plan.ts:334-350 | Setting the date changes only the Reporting section: preamble, number of sections and every other section stay, and the same section is found again. |
| `Reporting.SetLastUpdateIsIdempotent` | scripts/brain/status_plan.ts:334-350 | Setting the same date again changes nothing. |
| `Reporting.LastUpdateInUse` | scripts/brain/status_plan.ts:334-350 | Instantiated at `last_update` and `Reporting`: only the Reporting section of a page changes, and setting the same date again changes nothing. |
| `LastUpdate.DateIsReplaced` | scripts/brain/status_plan.ts:332-350 | With a `last_update` line in the Reporting section, what follows its colon becomes a space and the date up to the end of the line; every other character of the page stays. |
| `LastUpdate.DateIsAdded` | scripts/brain/status_plan.ts:343-350 | Without one, a line for it goes directly under a plainly written heading; under any other spelling nothing is set. |
| `LastUpdate.KeyEndIff` | scripts/brain/status_plan.ts:332 | The search finds exactly the lines of blanks, perhaps a dash, blanks, the key, blanks and a colon. |
| `LastUpdate.UnendedHeading` | scripts/brain/status_plan.ts:346 | A section that is only an unended heading line is left alone. |
| `LastUpdate.NothingToSet` | scripts/brain/status_plan.ts:340-341 | A page without such a section is left alone. |
| `Reporting.RewriteStaysReporting` | scripts/brain/status_plan.ts:342-346 | The rewritten section is still one section with the same title and line ending. |
| `Reporting.MatchIsBelowHeading` | scripts/brain/status_plan.ts:332-343 | The `last_update` line is never taken for part of the heading line. |

## Left out

- BatchCampaign.CleanRunClosesBatch: the pair of each meeting is fixed for the life of a batch; a resolution file rewritten between runs is not modelled.
- DryRunAudit.ChargedExactlyOnce: costs are exact rationals, so float rounding of the summed ledger is not modelled.
- MeetingApplySafety.ApplyKeeps: the pending-fanout file, the acceptance minimums' own arithmetic and the receipt's display fields are not modelled; minimums are an outcome.
- BatchSignSafety.OnlyReviewedMeetingsLaunch: allow-list, date and capture-completeness checks are predicates, the digest's unattempted count is a parsed number, and an I/O error during fan-out is the same as a kill at that point.
- BatchSignSafety.PreflightIsEveryChildGate: the capture, source and extraction hashes a single meeting's marker also binds are not modelled.
- DigestPublishSafety.AcceptedSampleIsComplete: directory names use the whole digest rather than twelve digits of its hash; rows and captures change in any way between publications, the published directories themselves only by the program.
- DigestTable.ReaderRecoversIds: the wording of the title, counts and status lines and of the column captions after the first is a parameter.
- RowCells.RowRoundTrip: stated for one line; a cell with a line break is split before the reader sees a row. Both readers trim with Python's blanks; the few characters only JavaScript's trim treats differently are not modelled.
- ResolverTheorems.OrderDoesNotMatter: the contact book lookup of one participant (by address, by name, by stripped name) is one function per participant and not modelled further.
- ResolverTheorems.ResolutionIsSound: rules 5, 7, 8 and 11 may create a page whose slug is also a client; the code does not prevent it and nothing is claimed.
- ReconcileTheorems.MirrorsIff: ingest of images, PDFs, audio and video is a number of chunks per source and content; embeddings and their cache are not modelled.
- Rebuild.OriginalNeverLost: a rename either happens whole or not at all, also across the exception handler; one collection per store is counted, and the live store is read without error.
- Recovery.ResumeContinues: stated for distinct files; a list that names a file twice submits it twice.
- Chunking.ChunkText: overlaps above half the size, for which the loop need not end, are outside the method and are settled by the lemma on progress.
- Reporting.OnlyReportingChanges: the date is text without line terminators and without replacement patterns.
- Batch locking, list, the quote gate, promotion of delivery states, conservation comparison and gold queries are not modelled: single decisions or plain filters.
- StateSections.EveryOpenItemOnce: the text of the lines, the decisions and the final sort of the next priorities are not modelled.
- StoreBuild.ResumedBuildMirrorsIff: the embed cache and the choice of the side directory are not modelled; a `fresh` build starts from the empty store.
- RebuildMirror.LiveStoreMirrorsIff: dry runs, which build in a directory of their own, are in the swap's own model only.
- Contact display, recency ranking, embedding, the media and chat clients, migration scripts, dashboards and prompts are not modelled.
- Concurrency beyond kills: the batch lock is taken as mutual exclusion.
