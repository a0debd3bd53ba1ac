# Scan ingest, asset identity and dispatch: a verified model

The project models the stateful core of a network-scanning dashboard: workers that spool and upload
scan results through crashes, a server that turns results into findings and assets, and the engines
that schedule, dispatch, exclude, alert and apply policy. Database tables are maps and sequences,
unique constraints are invariants, clocks are non-decreasing integers, hashes and keys are opaque.

How the modules fit together:

- `FindingModel` defines the findings store, what each lifecycle operation does to it, and a batch with
  the findings its index remembers; `FindingInvariant` proves what every operation keeps;
  `FindingBatches` proves what batches keep although remembered findings can be out of date, and exactly
  when a batch does what queries would do; `FindingRuns` states whole histories and what the catalogue
  is after them; `FindingCounts` proves when findings resolve, `FindingEvidence` where evidence can hang
  and `FindingSplits` what that means for splits and for openness; `FindingExamples` shows histories;
  `FindingDb` is the store and the index's asset findings updated in place, each method proved equal to
  its definition.
- `RunIndex` is the rest of the write-through index of one ingest batch: known CVEs, evidence,
  coverage, assets and supporting rows, and when each answers like the query.
- `Chunks` batches records; `SpoolNames`, `SpoolDir` and `Listing` are the chunk files and their
  listing; `Spool` is the job directory; `Upload` and `UploadRuns` are delivery under crashes; `JobFinish` runs it.
- `Networks` and `Collapse` are IP blocks and the `ipaddress` operations; `Exclusions` is the
  subtraction on the server and again on the worker.
- `CronFields` reads cron fields, `Calendar` and `Schedule` find next occurrences, and `ScheduledRuns`
  queues them. `Dispatch` is the lock-then-claim protocol.
- `Projection` and `AssetRecords` are asset rows and the log they can be rebuilt from, and `Snapshots` what
  one report leaves in the rows, field by field; `AssetMerge` is merge pointers; `Correlation` scores and
  decides links.
- `Alerts` is leased delivery with bounded retries; `Policy` is rule resolution.

Methods follow the loops and in-place updates of the source and are proved against functions; the
lemmas then prove what those functions mean.

What the proofs found where the code and an expectation about it differ (the model keeps the code's
behaviour in each case):

- A finding's clean count does not run from its latest detection: finalizing the detecting run
  records it as detected and resets the count once more (`FindingExamples.SecondResetExample`). Over
  every history the count is exactly the clean runs since the last such reset, where a merged finding
  takes over the runs of the side whose count it keeps (`FindingCounts.CounterIsCleanRuns`).
- A batch's index remembers which finding is at an asset and vulnerability, and a retarget in the same
  batch does not tell it when that finding is retitled or merged away. A report that asks for such a
  slot attaches its evidence to a finding of another vulnerability
  (`FindingExamples.StaleBatchExample`), or the whole batch is refused because the finding is gone
  (`FindingExamples.RefusedBatchExample`). A batch goes through the states that queries would give
  exactly if every report asks for a slot that is not remembered or still right
  (`FindingBatches.BatchIsQueriedIff`), which holds whenever no report retargets a finding out of a
  slot that an earlier report detected (`FindingBatches.VacatingNoneIsFresh`). Rows stay on the finding
  their detector maps to exactly for such batches (`FindingRuns.HistoryLinkedIff`). Results below that
  need such batches say so; the others hold for all.
- The branch that splits evidence onto a finding that exists already would leave a resolved one
  resolved (`FindingInvariant.PartitionOpenness` says exactly when). No history reaches it, not even
  with out-of-date slots: a split always makes a new finding (`FindingSplits.SplitsMakeNewFindings`), so
  evidence leaves the open findings only when a run resolves them (`FindingSplits.OnlyRunsResolve`).
- The server measures a batch after parsing, which adds defaults, so it can refuse a batch that the
  worker measured as fitting; exactly when is `Chunks.ServerAcceptsIff`.
- Chunk file names are padded to six digits, so chunk 1000000 is listed before 999999
  (`SpoolNames.NameOrderBreaks`, exact condition in `SpoolNames.NameOrderExact`). No record is lost or
  doubled, but beyond that number records are sent in listing order, not in append order.
- A cron schedule looks one year ahead, so 29 February is not found from any time in a year that is
  neither a leap year nor followed by one (`Schedule.LeapDayMissed`; exactly when is
  `Schedule.LeapDayMissedIff`). Cron weekdays count from Monday as 0, and the day of month and the
  weekday must both match; a single value with a step names only itself. When the search gives up
  while a run is queued, the error is not the kind the scheduler tick expects, so the whole tick is
  rolled back.
- A stored preferred-agent grace of zero is read as the default of 60 seconds.
- Only the runner-up is compared with the best candidate, so a third asset that shares its name
  within the gap can go unseen (exactly when is `Correlation.UnseenIff`), depending on ids
  (`Correlation.UnseenCompetitor`).
- A worker that stalls before sending can put an already delivered alert back into the queue, to be
  sent again (`Alerts.SentAfterDelivery`, `Alerts.LateFailureReopens`; exactly when a delivered alert
  can be sent again is `Alerts.ResentIff`); the total is still bounded.
- The per-run index knows a detector's earlier CVEs only if the batch loaded that detector
  (`RunIndex.FindingRunIndex.AskCves` says exactly when it answers like the query); ingest always does.

## Model

| member | source | states |
|---|---|---|
| FindingDb.FindingDb.FindRow | backend/app/finding_lifecycle.py:802-809 | the row an asset and vulnerability query returns |
| FindingDb.FindingIndex.AssetFindingFor | backend/app/finding_ingest.py:316-327 | the remembered row whatever it is titled by now, else the queried one, which is remembered |
| FindingDb.FindingIndex.RememberAssetFinding | backend/app/finding_ingest.py:329-330 | a row is remembered under its own asset and vulnerability |
| FindingDb.FindingDb.ApplyDetection | backend/app/finding_lifecycle.py:787-888 | with or without an index, a detection creates an open row, or resets the count and reopens the row found; the whole new store and index |
| FindingDb.FindingDb.MergeDuplicate | backend/app/finding_lifecycle.py:1651-1716 | merging a donor into a keeper is the specified merge of rows, evidence and evaluations |
| FindingDb.FindingDb.HandOverEvaluations | backend/app/finding_lifecycle.py:1688-1710 | the loop over the donor's evaluations leaves exactly the joined evaluations |
| FindingDb.FindingDb.PartitionForMapping | backend/app/finding_lifecycle.py:579-671 | a finding is retitled, merged or split for a new mapping as specified, branch by branch |
| FindingDb.FindingDb.RetargetMapping | backend/app/finding_lifecycle.py:674-709 | visiting the donor rows in any order gives the specified retarget |
| FindingDb.FindingDb.UpsertDetectorCatalog | backend/app/finding_lifecycle.py:483-544 | the mapping becomes the desired identity and affected findings are retargeted |
| FindingDb.FindingDb.IngestFinding | backend/app/finding_lifecycle.py:961-1002 | one report of a batch: skipped by key, or catalogued, detected through the index and recorded; fails iff the remembered finding is gone |
| FindingDb.FindingDb.IngestFindings | backend/app/finding_lifecycle.py:942-1016 | a batch with one index is one step of a history, and counts the new rows; it goes through as a whole or changes nothing |
| FindingDb.FindingDb.Finalize | backend/app/finding_lifecycle.py:1325-1420 | the loop over open and detected findings gives each its verdict, count and, at its own number of clean scans, resolution |
| FindingDb.FindingDb.MergeAssetFindings | backend/app/finding_lifecycle.py:1619-1648 | every finding of the source asset is moved or merged into the target's |
| FindingInvariant.LookupUnique | backend/app/finding_lifecycle.py:800-809 | with the unique key kept, a lookup finds the one row for its slot |
| FindingInvariant.DesiredIs | backend/app/finding_lifecycle.py:459-469 | a detector is catalogued under a CVE iff that is its one CVE, else under itself |
| FindingInvariant.MergeJoinsEvaluations | backend/app/finding_lifecycle.py:1688-1710 | each run's merged evaluation is the join, detected over clean, and nobody else's changes |
| FindingInvariant.MergeVerdict | backend/app/finding_lifecycle.py:1663-1671 | merged is open iff either was, with the smaller count; else the later stamp; symmetric in the two |
| FindingInvariant.MergeSound | backend/app/finding_lifecycle.py:1651-1716 | a merge loses no evidence and keeps the unique key, resolved_at iff resolved, and open counts below the most any finding needs |
| FindingInvariant.MergeMovesEvidence | backend/app/finding_lifecycle.py:1675-1687 | the evidence of both findings ends up on the keeper, and no other row moves |
| FindingInvariant.PartitionSound | backend/app/finding_lifecycle.py:579-671 | every branch of a partition moves the detector's rows to its new vulnerability and keeps all else |
| FindingInvariant.RetargetSound | backend/app/finding_lifecycle.py:674-709 | in any donor order, a retarget conserves evidence and every row's asset, and leaves a linked store's rows on their detectors' mappings |
| FindingInvariant.UpsertSound | backend/app/finding_lifecycle.py:483-544 | after cataloguing, the mapping is the desired identity and the store is sound |
| FindingInvariant.DetectionSound | backend/app/finding_lifecycle.py:787-888 | a detection opens and resets one row of the asset, of the vulnerability detected unless the row found was titled otherwise, and touches no other |
| FindingInvariant.RecordInv | backend/app/finding_lifecycle.py:979-1000 | recording keeps the invariant, and the links iff it goes through a row titled as asked |
| FindingBatches.IngestInv | backend/app/finding_lifecycle.py:961-1002 | one report of a batch keeps the invariant, and keeps a linked store linked iff its slot is fresh |
| FindingBatches.IngestAllInv | backend/app/finding_lifecycle.py:942-1016 | a whole batch keeps the invariant, and the links if all its slots are fresh |
| FindingBatches.LinkedThroughoutIff | backend/app/finding_lifecycle.py:942-1016 | a batch leaves every row on its mapping after each report iff every report asks for a fresh slot |
| FindingBatches.RecordsAlikeIff | backend/app/finding_lifecycle.py:799-810 | a detection through the index is the queried one iff the slot is not remembered or the row is still at it |
| FindingBatches.StaleRecord | backend/app/finding_lifecycle.py:799-810 | through a row titled otherwise the evidence goes to another finding than queries would give |
| FindingBatches.BatchIsQueriedIff | backend/app/finding_lifecycle.py:942-1016 | a batch goes through the stores of the query path, report by report, iff every report asks for a fresh slot |
| FindingBatches.VacatingNoneIsFresh | backend/app/finding_lifecycle.py:674-709 | that holds when no retarget moves a finding out of a slot an earlier report of the batch detected |
| FindingBatches.NoDonorsVacateNone | backend/app/finding_lifecycle.py:674-709 | a report whose cataloguing retargets no finding vacates no slot |
| FindingInvariant.FinalizeInv | backend/app/finding_lifecycle.py:1325-1420 | finalizing any run keeps the invariant and the links |
| FindingInvariant.FinalizeRows | backend/app/finding_lifecycle.py:1282-1322 | finalized rows keep resolved_at iff resolved, and open counts below the most any finding needs |
| FindingInvariant.RehomeAllInv | backend/app/finding_lifecycle.py:1619-1648 | moving a whole asset's findings keeps the invariant, the links and all evidence |
| FindingInvariant.RehomedAway | backend/app/finding_lifecycle.py:1619-1648 | afterwards the source asset has no finding left, and other assets keep theirs |
| FindingInvariant.PartitionOpenness | backend/app/finding_lifecycle.py:579-671 | exactly when a row of an open finding is on an open finding after a partition |
| FindingRuns.HistoryInv | backend/app/finding_lifecycle.py:942-1420 | over every history of batches, refused batches, finalizations and asset merges the invariant holds and evidence is the first report under each key, attached to a finding iff it has a detector and an asset |
| FindingRuns.HistoryLinkedIff | backend/app/finding_lifecycle.py:942-1016 | over every history, rows stay on their detectors' mappings all through every batch iff batches ask for fresh slots only |
| FindingRuns.HistoryLinked | backend/app/finding_lifecycle.py:942-1420 | then every row is on the finding its detector maps to in the last state too |
| FindingRuns.MappingIsHistory | backend/app/finding_lifecycle.py:459-544 | after any history a detector is mapped to cve:X iff X is the one CVE its evidence ever named, else to its type and key |
| FindingRuns.MappingIgnoresOrder | backend/app/finding_lifecycle.py:459-709 | histories that kept the same reports agree on every mapping, and with fresh slots on every row's vulnerability, whatever asset the row is on |
| FindingRuns.KeptAreReports | backend/app/finding_lifecycle.py:961-970 | where a key stands for one report the kept reports are exactly the reports |
| FindingRuns.KeptIsOrderFree | backend/app/finding_lifecycle.py:961-970 | histories that took in the same reports, in any order and any number of times, keep the same ones |
| FindingCounts.CounterIsCleanRuns | backend/app/finding_lifecycle.py:1243-1322 | over every history, retargets, splits and merges included, each counter is the number of distinct clean runs since the last reset |
| FindingCounts.ResolvesExactlyAtThreshold | backend/app/finding_lifecycle.py:1282-1420 | over every history a step turns a finding resolved iff it finishes a run that makes at least as many distinct clean runs since the last reset as that run needs for it; where all need T it is the T-th |
| FindingCounts.MergeCounted | backend/app/finding_lifecycle.py:1663-1710 | a merge keeps the counter equal to the runs of the side whose count is kept |
| FindingCounts.PartitionCounted | backend/app/finding_lifecycle.py:579-671 | retitles and splits keep every counter and its runs |
| FindingCounts.OthersTurnNothing | backend/app/finding_lifecycle.py:579-1016 | ingests, retargets and asset merges resolve nothing |
| FindingEvidence.HistoryEvidenced | backend/app/finding_lifecycle.py:579-1016 | after any history every finding has evidence, and one titled after a detector is where that detector is mapped, alone until it names a CVE |
| FindingSplits.OnlyRunsResolve | backend/app/finding_lifecycle.py:579-1420 | over every history evidence on an open finding stays on an open finding through every step but the finishing of a run |
| FindingSplits.SplitsMakeNewFindings | backend/app/finding_lifecycle.py:606-640 | at any point of any batch after any history a donor that keeps other evidence never finds a finding to join |
| FindingRuns.FinalizeTwice | backend/app/finding_lifecycle.py:1373-1420 | finalizing a run again immediately changes nothing, whatever the clean scans needed |
| FindingExamples.SecondResetExample | backend/app/finding_lifecycle.py:1373-1420 | T clean runs since the latest detection need not resolve: a history from the empty store |
| FindingExamples.StaleBatchExample | backend/app/finding_lifecycle.py:799-810 | a batch from the empty store after which evidence hangs on a finding its detector does not map to |
| FindingExamples.RefusedBatchExample | backend/app/finding_lifecycle.py:799-810 | a batch from the empty store that is refused as a whole where queries would take it in |
| RunIndex.FindingRunIndex.constructor | backend/app/finding_ingest.py:91-166 | the loaded index agrees with the tables |
| RunIndex.FindingRunIndex.AskCves | backend/app/finding_ingest.py:192-199 | once noted CVEs have been inserted, what the answer is for any detector, and that it is the query's iff the detector was loaded or this run and the report name all its CVEs |
| RunIndex.FindingRunIndex.RememberFinding | backend/app/finding_ingest.py:175-184 | writing through an inserted row keeps agreement with the longer table |
| RunIndex.FindingRunIndex.RememberCoverage | backend/app/finding_ingest.py:168-170 | writing through a coverage row keeps agreement |
| RunIndex.FindingRunIndex.IngestOne | backend/app/finding_lifecycle.py:961-971 | one report, with or without a detector, gets the CVEs visible to the batch, the query's for a loaded detector, and leaves the index settled |
| RunIndex.FindingRunIndex.SupportingFindings | backend/app/finding_ingest.py:338-352 | cached or loaded, the rows are the table's for every detector |
| RunIndex.FindingRunIndex.AskLatestSupporting | backend/app/finding_ingest.py:354-361 | the latest supporting evidence is the one the ordered query returns |
| RunIndex.FindingRunIndex.AskAssetCovered | backend/app/finding_ingest.py:266-282 | coverage is answered as the query answers it |
| RunIndex.FindingRunIndex.AskAsset | backend/app/finding_ingest.py:234-256 | asset resolution is answered as the query answers it, with or without the cache |
| RunIndex.KnownIff | backend/app/finding_lifecycle.py:437-456 | the known CVEs are the report's own and those some row of the detector names |
| RunIndex.CoveredIff | backend/app/finding_ingest.py:266-282 | an asset is covered iff host-level coverage names a host that an observation of it goes by |
| RunIndex.ResolvesIff | backend/app/finding_ingest.py:234-256 | a report resolves to an asset iff it shares a token with observations of that asset and of no other |
| RunIndex.NewestFrom | backend/app/finding_ingest.py:354-361 | one pass over cached rows finds the newest row of a detector |
| RunIndex.NewestIs | backend/app/finding_lifecycle.py:1086-1106 | the newest row is one of the rows; a row without a time comes first, then later times, then later ids |
| RunIndex.CvesOfRun | backend/app/finding_ingest.py:131-138 | the loop over this run's rows collects exactly the CVEs they name |
| RunIndex.OfRunCves | backend/app/finding_ingest.py:139-156 | what this run's rows name is part of what all rows name |
| RunIndex.SupportSnoc | backend/app/finding_ingest.py:175-184 | appending to the cached rows follows inserting into the table |
| RunIndex.NamedRows | backend/app/finding_ingest.py:338-352 | leaving out rows without a detector name loses nothing looked for by name |
| Chunks.IterIngestChunks | scan_runtime/ingest_chunks.py:38-65 | yields the greedy batches, or stops at the first record too large for any batch |
| Chunks.ValidateIngestBatch | backend/app/ingest_chunks.py:52-60 | accepts iff the parsed batch and every parsed record fit |
| Chunks.ChunksPartition | scan_runtime/ingest_chunks.py:38-65 | batches concatenate to the input, none is empty, all fit both ceilings |
| Chunks.GreedyStaysAhead | scan_runtime/ingest_chunks.py:38-65 | against any other split the greedy one has used fewer batches or has a shorter open one |
| Chunks.ChunksMinimal | scan_runtime/ingest_chunks.py:38-65 | no split into fewer fitting batches exists |
| Chunks.ServerAcceptsIff | backend/app/ingest_chunks.py:30-60 | the server accepts a worker's batch iff its parsed size fits |
| Chunks.RefusedBatchExample | backend/app/ingest_chunks.py:30-60 | a batch the worker may send and the server refuses |
| SpoolNames.NameOrderExact | scan_runtime/spool.py:188-189 | exactly when an earlier chunk's name sorts first |
| SpoolNames.NameOrderSmall | scan_runtime/spool.py:188-189 | up to 999999 names sort by sequence number |
| SpoolNames.NameOrderBreaks | scan_runtime/spool.py:188-189 | chunk 1000000 sorts before 999999 |
| SpoolDir.ListingKeepsOrder | scan_runtime/spool.py:188-189 | within six digits the sorted listing is the order of sealing |
| Listing.ListingRest | scan_runtime/spool.py:188-198 | whatever the numbers, deleting the first listed chunk leaves the rest of the listing |
| Listing.ListingRows | scan_runtime/spool.py:188-189 | the listing holds each record as often as the directory |
| SpoolDir.ListingKeepsFiles | scan_runtime/spool.py:188-189 | the listing is a permutation of the files |
| Spool.SealedMeans | scan_runtime/spool.py:173-182 | sealing moves the open records into a file without changing what is pending |
| Spool.AppendedMeans | scan_runtime/spool.py:155-171 | an append adds its record at the end of what is pending and keeps lanes well formed |
| Spool.AckedMeans | scan_runtime/spool.py:197-198 | acknowledging the first listed chunk removes exactly its records from the front |
| Spool.InOrder | scan_runtime/spool.py:212-215 | listed chunks then open records are the pending records in append order |
| Spool.JobSpool.Append | scan_runtime/spool.py:155-171 | appends, sealing first when a ceiling would be passed; which error it meets, if any, and what it leaves |
| Spool.JobSpool.WriteTmp | scan_runtime/spool.py:232-245 | the cap refuses exactly the writes that would pass it; a write cut short leaves its bytes, and the cap still holds |
| Spool.JobSpool.Seal | scan_runtime/spool.py:173-182 | writes the open records as the next chunk, or keeps them open with the number used up; refused iff the cap would be passed |
| Spool.JobSpool.SpoolRows | scan_runtime/spool.py:155-171 | appending a list feeds the lane as the chunker would be fed and adds the records at the end |
| Spool.SpoolThenSeal | scan_runtime/spool.py:155-186 | appending a list and sealing all writes exactly the chunker's batches |
| Spool.JobSpool.SealAll | scan_runtime/spool.py:184-186 | succeeds iff there is room for all open batches and no write is cut short; then nothing is open; pending records never change |
| Spool.JobSpool.MarkPipelineComplete | scan_runtime/spool.py:151-153 | done appears iff there is room for it beside all open batches and no write is cut short, and then nothing is left unsealed |
| Spool.JobSpool.AckDelete | scan_runtime/spool.py:197-198 | deletes the chunk and nothing else |
| Spool.JobSpool.IterRecords | scan_runtime/spool.py:212-215 | within six digits yields exactly the unacknowledged records in append order |
| Upload.FirstRowWins | backend/app/finding_lifecycle.py:942-1016 | after a batch the table holds its old rows unchanged and, under every other key the batch names, the body named first; no other key |
| Upload.EntriesAre | scan_runtime/job_finish.py:77-99 | the entries of a list are its records' entries, in order |
| Upload.StoreRowsAgain | backend/app/finding_lifecycle.py:961-970 | a batch sent twice is stored once |
| Upload.ResendPrefix | scan_runtime/job_finish.py:77-99 | resending part of a chunk after a crash leaves the tables as if sent once |
| UploadRuns.StepInv | scan_runtime/spool.py:151-245 | every step, crash and recovery keeps the delivery invariant, including that pipeline.done implies nothing unsealed |
| UploadRuns.RunInv | scan_runtime/spool.py:270-282 | the invariant over every schedule |
| UploadRuns.AppendedIsHistory | scan_runtime/spool.py:155-171 | the records to deliver are those the actions appended since the directory was created |
| UploadRuns.PlanIsHistory | scan_runtime/job_finish.py:77-99 | the plan is the listing when the first request was sent |
| UploadRuns.BaseIsHistory | scan_runtime/spool.py:98-103 | the tables a delivery starts from are those when its directory was created |
| UploadRuns.CompletedMeansDelivered | scan_runtime/job_finish.py:77-157 | a run completed with success has delivered every appended record, and the tables equal one crash-free delivery of the chunks as listed when sending began: each record once, and up to six-digit numbers in append order |
| UploadRuns.CompletedTables | backend/app/finding_lifecycle.py:916-1016 | after a completed run a key is in the table iff it was there before or an appended record names it; old rows are unchanged and any other key holds the body sent first under it |
| UploadRuns.NeverStuck | scan_runtime/job_finish.py:77-157 | from any point of any schedule that has not ended, a worker left undisturbed can still complete with success |
| UploadRuns.CrashIs | scan_runtime/spool.py:106-126 | a crash leaves the sealed files and nothing that was in memory |
| UploadRuns.ComingBackIs | scan_runtime/spool.py:270-282 | a worker that comes back resumes from the files if pipeline.done is there, else the directory is deleted |
| UploadRuns.PipelineEnds | scan_runtime/spool.py:151-153 | pipeline.done appears with nothing unsealed, and ends appending |
| UploadRuns.DoneIsFinal | scan_runtime/spool.py:270-282 | once pipeline.done has appeared nothing is appended and the directory is not deleted |
| JobFinish.PostEach | scan_runtime/job_finish.py:77-99 | rows are posted one by one until one is not accepted; succeeds iff all are, and the server holds exactly those reached |
| JobFinish.SubmitKind | scan_runtime/job_finish.py:77-99 | chunks are sent in listing order and deleted once accepted; succeeds iff every request is accepted; nothing is lost on failure |
| JobFinish.SubmitSpool | scan_runtime/job_finish.py:77-99 | succeeds iff what is open can be sealed and every request is accepted; then every kind is empty and stored, else nothing is lost |
| JobFinish.FinishPipelineRun | scan_runtime/job_finish.py:102-157 | reports success iff no stage failed, what is open can be sealed and every request is accepted; what is pending is delivered also if a stage failed, and never lost |
| Networks.NetsNest | backend/app/scan_exclusions.py:91-97 | overlapping aligned blocks nest |
| Networks.SiblingsMerge | backend/app/scan_exclusions.py:75-88 | two blocks under one supernet make it up |
| Networks.AddressExcludeDenotes | backend/app/scan_exclusions.py:91-97 | address_exclude yields valid blocks for exactly the difference |
| Networks.SummarizeDenotes | backend/app/scan_exclusions.py:63-72 | a summarized range covers exactly the range |
| Networks.SummarizeGreedy | backend/app/scan_exclusions.py:63-72 | each block of a summary is the largest that is aligned at its place and fits |
| Networks.AddressSpace | backend/app/scan_exclusions.py:63-72 | there are 2^32 addresses of version 4 and 2^128 of version 6 |
| Networks.SupernetOfAll | backend/app/scan_exclusions.py:75-88 | the block of all addresses is its own supernet |
| Collapse.CollapseDenotes | backend/app/scan_exclusions.py:75-88 | collapsing keeps the address set and yields sorted, disjoint, unmergeable blocks |
| Collapse.CollapseCanonical | backend/app/scan_exclusions.py:75-88 | collapsing a canonical list changes nothing |
| Exclusions.RowNetworksDenote | backend/app/scan_exclusions.py:63-72 | an address, prefix or range row becomes blocks for exactly its addresses |
| Exclusions.AllNetworksDenote | backend/app/scan_exclusions.py:193-200 | all rows together cover exactly what some row has |
| Exclusions.SubtractNetworks | backend/app/scan_exclusions.py:75-88 | the nested loops compute the collapsed subtraction, or refuse mixed versions |
| Exclusions.PiecesDenote | backend/app/scan_exclusions.py:91-127 | one subtraction yields exactly the difference; the partial-overlap branch is never reached |
| Exclusions.SubtractAllDenotes | backend/app/scan_exclusions.py:75-88 | what remains is the target addresses minus the excluded ones |
| Exclusions.CentralDenotes | backend/app/scan_exclusions.py:203-208 | the central reduction denotes the difference in canonical form and never refuses one version |
| Exclusions.WorkerPiecesSame | scan_runtime/runner.py:563-571 | the worker's bare continue loses no address |
| Exclusions.ResolveExecutionTargets | scan_runtime/runner.py:534-590 | the worker's loops compute the subtraction per target, or report that nothing is left |
| Exclusions.ResolveAllDenotes | scan_runtime/runner.py:534-590 | the worker's targets denote exactly the difference |
| Exclusions.WorkerAgreesWithCentral | scan_runtime/runner.py:534-590 | worker and server agree on every address |
| Exclusions.ReducingAgain | backend/app/scan_exclusions.py:203-208 | re-applying exclusions to a reduced list changes nothing, on either side |
| Calendar.DateIff | backend/app/scan_schedule.py:184-196 | a day has a date iff it is that many days after the first of the month |
| Calendar.MonthFirstIs | backend/app/scan_schedule.py:184-196 | where every month begins, in closed form: 365 days a year, the leap-year rule, and the month starts |
| Calendar.KnownDay | backend/app/scan_schedule.py:168-181 | the date and weekday of a known day |
| Schedule.NextClock | backend/app/scan_schedule.py:157-165 | the least daily instant strictly after |
| Schedule.NextWeekly | backend/app/scan_schedule.py:168-181 | the least weekly instant strictly after; the fourteen probes are never exhausted |
| Schedule.NextMonthly | backend/app/scan_schedule.py:184-196 | the least monthly instant, clamped to month end, strictly after; the months are never exhausted |
| Schedule.NextCron | backend/app/scan_schedule.py:199-214 | the least cron minute strictly after, or failure iff the search window holds none |
| Schedule.BarrenIff | backend/app/scan_schedule.py:199-214 | the search looks at the minutes of 366 days and one minute |
| Schedule.NextOccurrence | backend/app/scan_schedule.py:125-147 | least scheduled instant in UTC, the fixed step for intervals, and when it fails |
| Schedule.NextAfterCatchup | backend/app/scan_schedule.py:217-228 | ends with the least instant after both times, or the least due + k * interval after now; fails iff an occurrence on the way is barren |
| CronFields.ParseField | backend/app/scan_schedule.py:94-122 | refused iff some chunk is invalid; else exactly the values its chunks name, in range and not empty |
| CronFields.ChunkValues | backend/app/scan_schedule.py:98-119 | the stepped loop collects exactly the values on the chunk's grid |
| CronFields.ChunkMeans | backend/app/scan_schedule.py:98-119 | a star steps through the whole range, a dash through its own, and a single value is itself with or without a step |
| CronFields.ValidIff | backend/app/scan_schedule.py:98-119 | which chunks are valid |
| ScheduledRuns.ScheduledScan.QueueScheduledRun | backend/app/jobs.py:190-225 | one tick queues at most one run, for its due time and never twice, and moves past both now and the due time; fails with nothing changed iff the search gives up |
| ScheduledRuns.NoRepeatSnoc | backend/app/jobs.py:204-212 | queueing a due time not queued before keeps all due times distinct |
| ScheduledRuns.NoRepeatIff | backend/app/jobs.py:204-212 | no due time is queued twice means that all queued due times differ |
| Schedule.WeeklyNone | backend/app/scan_schedule.py:168-181 | no weekly instant lies between a time and the next matching weekday |
| Schedule.MonthStep | backend/app/scan_schedule.py:184-196 | a month's own instant is its only one, so it is the least after, or the month has none left |
| Schedule.LeapDayMissedIff | backend/app/scan_schedule.py:199-214 | the search for 29 February fails iff no leap day begins within its window |
| Schedule.LeapDayMissed | backend/app/scan_schedule.py:199-214 | it fails from any time in a year neither leap nor followed by a leap year |
| Dispatch.StepInv | backend/app/scan_dispatch.py:176-291 | every lock, check, claim, commit, rollback and foreign write keeps the protocol invariant |
| Dispatch.OthersUndisturbed | backend/app/scan_dispatch.py:185-207 | a commit leaves every other open transaction's check and claim true |
| Dispatch.ClaimsAreExclusive | backend/app/scan_dispatch.py:185-283 | over every interleaving an agent owns at most one running job, a job is claimed at most once, and it runs for its claimer |
| Dispatch.EndedStaysEnded | backend/app/jobs.py:55-94 | an ended job stays ended and is never claimed again, even by writers with an old view |
| Dispatch.CommitTakesWaiting | backend/app/scan_dispatch.py:235-283 | a claim is committed on an unowned job that is queued, or waiting for an agent, and it then runs for its claimer |
| Dispatch.ClaimSucceeds | backend/app/scan_dispatch.py:185-283 | an agent that is unlocked and runs nothing can claim any unlocked queued or waiting job |
| Dispatch.CentralClaims | backend/app/scan_dispatch.py:235-255 | the central worker takes exactly unowned queued jobs |
| Dispatch.WritersAre | backend/app/jobs.py:55-94 | what failing, cancelling, missing and completing leave of a job, and on which jobs they act |
| Dispatch.CreateIs | backend/app/scan_dispatch.py:128-139 | a new job is queued or waits for an agent, and belongs to nobody |
| Dispatch.JobRow.TryClaim | backend/app/scan_dispatch.py:235-283 | claims iff unclaimed and in a claimable status |
| Dispatch.JobRow.TransitionToFailed | backend/app/jobs.py:59-75 | the whole row after a failure, and when nothing changes |
| Dispatch.JobRow.TransitionToCancelled | backend/app/jobs.py:78-94 | the whole row after a cancellation, and when nothing changes |
| Dispatch.PreferredIsEligible | backend/app/scan_dispatch.py:93-109 | a policy prefers an agent iff all failover networks name one eligible agent, and then that one |
| Dispatch.MayClaimExactly | backend/app/scan_dispatch.py:143-173 | while the preferred agent has reported within 90 seconds and the grace runs it alone may claim; otherwise exactly the healthy pool |
| Dispatch.SomeoneMayClaim | backend/app/scan_dispatch.py:93-173 | whenever a healthy eligible agent exists, some agent may claim |
| Projection.UpsertProjected | backend/app/assets.py:294-497 | an upsert keeps the rows equal to the replay of the longer log |
| Projection.RebuiltProjected | backend/app/assets.py:660-708 | rebuilding from any rows gives rows a second rebuild would not change |
| Projection.ProjectionIsReplay | backend/app/assets.py:566-758 | after any run the kept rows, first and last seen and lifecycle are what a rebuild computes |
| Projection.RebuildTwice | backend/app/assets.py:660-721 | rebuilding twice equals once, from any state |
| Projection.IncorrectStays | backend/app/assets.py:342-343 | a row marked incorrect is frozen through ingests and rebuilds |
| Projection.SeenBounds | backend/app/assets.py:645-657 | first and last seen bound every observation |
| Projection.SeenInOrder | backend/app/assets.py:645-657 | in an ordered log they are the first and the last time |
| Projection.SeenThroughout | backend/app/assets.py:645-657 | in any state of a run first and last seen are those of the log, and the lifecycle is unseen iff it is empty |
| Projection.OperatorIs | backend/app/identity_ops.py:418-459 | marking a row incorrect, adding one by hand and setting the asset inactive change that and nothing else |
| Projection.IngestTwice | backend/app/assets.py:855-872 | ingesting a report again changes nothing |
| AssetRecords.AssetRecord.UpsertIdentifier | backend/app/assets.py:294-350 | inserts, freezes or updates the identifier row, or ignores the value |
| AssetRecords.AssetRecord.UpsertAddress | backend/app/assets.py:353-405 | the address row, with site and network only overwritten when given |
| AssetRecords.AssetRecord.UpsertServices | backend/app/assets.py:434-497 | the service rows, with details only overwritten when given |
| AssetRecords.AssetRecord.ApplySnapshot | backend/app/assets.py:566-642 | one observation's upserts in order |
| Snapshots.IngestName | backend/app/assets.py:566-614 | a new report leaves each name it gives under its own kind and normalised value, with the raw value and its time; a row marked incorrect is left alone |
| Snapshots.IngestAddress | backend/app/assets.py:353-405 | a new report from a valid address leaves its row with its time and the site and network given |
| Snapshots.IngestService | backend/app/assets.py:434-497 | a new report leaves each port's service row with its time, the last product and version given for it, and the title and technology given |
| Snapshots.IngestOthers | backend/app/assets.py:566-642 | no row that the report does not mention changes, and none at all for a report decided before |
| AssetRecords.AssetRecord.RecalculateSeen | backend/app/assets.py:645-657 | first and last seen and lifecycle from the log |
| AssetRecords.AssetRecord.Rebuild | backend/app/assets.py:660-708 | deletes active scanner rows and replays the log |
| AssetRecords.AssetRecord.Ingest | backend/app/assets.py:724-786 | one report on its asset: seen times, upserts, then the log; a report with a stored decision changes nothing |
| AssetMerge.PointersClimb | backend/app/identity_ops.py:224-229 | a merged asset points to one merged later or never, so there is no cycle |
| AssetMerge.RootFollows | backend/app/correlation.py:214-231 | following a pointer keeps the representative, which is unmerged |
| AssetMerge.SameRootIffConnected | backend/app/correlation.py:214-231 | two assets share a canonical id iff accepted merges connect them |
| AssetMerge.CanonicalTwice | backend/app/correlation.py:214-231 | canonical ids are idempotent |
| AssetMerge.AssetTable.CanonicalAssetId | backend/app/correlation.py:214-231 | the loop ends on any table and finds the live representative on a valid one |
| AssetMerge.AssetTable.MergeAssets | backend/app/identity_ops.py:127-147 | which merges are accepted, and the pointers afterwards; a refusal changes nothing |
| AssetMerge.MergedIff | backend/app/identity_ops.py:127-147 | a merge is accepted iff it has sources, and they and the target are distinct unmerged assets of one tenant |
| AssetMerge.ExtendedPointers | backend/app/identity_ops.py:127-147 | afterwards every source points to the target and no other pointer has changed |
| Correlation.ScoreCandidate | backend/app/correlation.py:343-429 | the score is the sum of the facts that hold; blocked, strong, named and corroborated mean what they say |
| Correlation.ScoreIs | backend/app/correlation.py:343-429 | what each piece of evidence is worth |
| Correlation.EvidenceIs | backend/app/correlation.py:343-429 | when names and identifiers match, conflict or clash, value by value |
| Correlation.PlaceIs | backend/app/correlation.py:343-429 | on a LAN with a known site, site and address count only at that site; elsewhere the address counts anywhere |
| Correlation.DecisionIs | backend/app/correlation.py:432-504 | the whole decision, from the candidates' flags and scores: which candidate it is about, and when that is linked, left open or a new asset |
| Correlation.LinkedIff | backend/app/correlation.py:432-504 | a candidate is linked iff it is the best of those known without doubt and its runner-up is not too close |
| Correlation.SoleCandidate | backend/app/correlation.py:432-504 | a sole viable candidate is linked iff it has a strong match, or a name with corroboration, and 50 points |
| Correlation.LinkedMeans | backend/app/correlation.py:432-504 | a linked candidate is unblocked, has a strong match or a corroborated name, scores at least 50, leads all by 11 and reviewable ones by 15 |
| Correlation.LocalityNeverLinks | backend/app/correlation.py:432-438 | address, site and services alone never link |
| Correlation.OrderIndependent | backend/app/correlation.py:462-504 | the decision does not depend on candidate order |
| Correlation.UnseenIff | backend/app/correlation.py:441-482 | where some candidate is too close to the best, the best is let through iff a runner-up that is not too close ranks before it; the unseen one then scores below review |
| Correlation.UnseenCompetitor | backend/app/correlation.py:441-482 | of three scored assets a blocking one is overlooked or not depending on ids |
| Alerts.StepInv | backend/app/alert_engine.py:631-774 | every claim, look, send, finish, stall and crash keeps claim numbers distinct and sends counted |
| Alerts.SendsBounded | backend/app/alert_engine.py:631-774 | over every interleaving an alert is sent at most five times and never under a claim above the limit |
| Alerts.SpentClaims | backend/app/alert_engine.py:718-727 | once five claims were used, nothing more is sent |
| Alerts.ClaimableIff | backend/app/alert_engine.py:631-668 | an alert is claimable iff pending and due, or 120 seconds after its last claim |
| Alerts.LookedIs | backend/app/alert_engine.py:718-727 | a worker that has looked sends under the first five claims and marks the alert failed under a later one |
| Alerts.FinishedIs | backend/app/alert_engine.py:681-696 | when a delivery ends as sent, failed or pending, and how long a pending one waits |
| Alerts.DueIsDelivered | backend/app/alert_engine.py:631-774 | a due alert that nobody is at work on can be delivered |
| Alerts.ResentIff | backend/app/alert_engine.py:681-774 | a delivered alert can be sent again iff some worker has still to look, to send, or to report a failure that requeues, with attempts left |
| Alerts.DeliveredStays | backend/app/alert_engine.py:631-774 | with nobody at work a delivered alert is never sent again and its row never changes |
| Alerts.SentAfterDelivery | backend/app/alert_engine.py:681-774 | a run in which a delivered alert is sent twice more |
| Alerts.LateFailureReopens | backend/app/alert_engine.py:681-696 | a late failure requeues a delivered alert iff its view was below the limit |
| Alerts.DeliveryRow.TryClaim | backend/app/alert_engine.py:631-668 | claims iff due or past the lease, with a fresh attempt number |
| Alerts.DeliveryRow.FinishDelivery | backend/app/alert_engine.py:681-696 | sent, failed or pending with the table's backoff |
| Policy.WinnerIsGreatest | backend/app/policy.py:525-612 | the fold's winner is the rule with a say that outranks all others, by scope, priority and age |
| Policy.InEffectIs | backend/app/policy.py:696-858 | the value in effect is that rule's, or the fallback if no rule has a say |
| Policy.Governs | backend/app/policy.py:103-108 | which category decides an action, and that no action belongs to two |
| Policy.OnlyMatchingRulesCount | backend/app/policy.py:696-791 | neither load order nor non-matching rules change a value in effect |
| Policy.DraftWinsTies | backend/app/policy.py:1553-1589 | a draft takes effect iff no stored rule outranks it on scope and priority, and otherwise changes nothing |
| Policy.NarrowerScopeWins | backend/app/policy.py:611-612 | a rule with a say is never beaten by a wider scope, nor within its scope by a lower priority |
| Policy.Evaluate | backend/app/policy.py:696-858 | each action of the category gets the greatest rule's value, else the fallback |

## Left out

- FindingDb.FindingDb.ApplyDetection: the sighting times and the reopen count of a finding are not part of the model.
- FindingDb.FindingDb.MergeDuplicate: merged sighting times and reopen counts are not part of the model.
- FindingDb.FindingDb.Finalize: which findings a run was able to re-check, and the clean scans the policy makes each need, are inputs.
- FindingDb.FindingDb.IngestFindings: a refused batch uses up no finding numbers; the foreign key on evidence is what refuses it.
- Correlation.OrderIndependent: candidates have distinct asset ids, as the candidate lookup guarantees.
- Schedule.NextOccurrence: one fixed zone offset; daylight saving, zone lookup, years past 9999 and the splitting of cron text into chunks are not modelled.
- RunIndex.FindingRunIndex.constructor: evidence keys, mappings and evaluations that are loaded ahead are not part of that class; evidence keys are the stored ones.
- RunIndex.FindingRunIndex.IngestOne: the asset findings the index remembers are FindingDb.FindingIndex.
- RunIndex.FindingRunIndex.AskLatestSupporting: rows cached before a retarget moved them are not covered.
- Findings: history and event rows, priorities, treatments and tenants.
- Spool: JSON text, file system calls and fsync are atomic steps; directories of other jobs and raw artifact files are not modelled; an unfinished pipeline.done counts as one more left-over file, and an error after the rename itself is not modelled.
- Spool and upload: how the disk's writes end and how the server meets requests are lists given from outside.
- Upload: HTTP details, provenance and artifact requests are outcomes; the order of device, finding and coverage requests across kinds is not modelled.
- Worker: targets that are host names and their DNS pinning.
- Assets: display name, classification, surrogate keys between rows and time-stamped corrections; an operator setting a lifecycle state on an asset never observed; how a merge moves individual rows before its rebuild, which is any rows and any log in the model.
- Correlation: candidate lookup limits and eligibility filters before scoring.
- Dispatch: deadlines, wait expiry times and the check of authorization before a claim.
- Alerts: routing of events, coalescing and the text of messages.
- Policy: condition matching, which is a set of met conditions, and explanations.
- Scheduled runs: whether an earlier run is active and whether the definition is valid are inputs.
- Compliance data, reports, settings and the user interface.
