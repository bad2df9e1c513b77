# Connectivity pipeline of RoSeMAN, in Dafny

RoSeMAN follows the Robonomics chain, discovers CPS nodes whose payloads are batches of signed sensor messages, stores
every message as a canonical record, projects the sensors' positions, and serves the records page by page. All of it
works on a shared document store, in processes that may fail at any awaited call. This project models that pipeline and
proves what it keeps.

One module per component:

- `CpsKeys`, `Protocol`, `Records`, `Archive`, `AnchorQueue`: node ids and keys, batches and messages, and the three
  collections with their updates. A collection is a class; each update is atomic, and a call that fails may or may not
  have taken effect.
- `Pipeline`: which records an attempt at an anchor writes, as a function of its payload. `Processor` and `Backfill` are
  the two services, proved against it with a fault possible at every awaited call. `Convergence` says what any mixture
  of attempts leaves behind, `Counting` what the counters and statuses mean.
- `Leases`: any number of processes that claim, finish and abandon anchors. `SecondReports`: when they report an anchor
  again. `LeasedRecords`: the same processes with the records they write.
- `BlockIndexer`: catch-up, realtime queue, reconnection and checkpoint, interleaved at every await. `SkippedBlocks`:
  which blocks it may pass over. `RealtimeHeads`: what becomes of every finalised head. `CpsTree`: the walk down over
  children and the walks up over parents. `CpsDiscovery`: the event handler the indexer replays, and the start-up
  snapshot.
- `SensorLocations`: the last-writer-wins projection and its concurrent geocoding. `SensorProjection`: the projection
  while records are being written.
- `Cursor`, `Pagination`, `OwnerLookup`: what the API reads. `StoredMessages`: what all readers find of a batch, told by
  the batch itself. `TextOrder`: how texts sort.

Fetching, decompression, protobuf parsing, signature checks, digests and the chain are functions or parameters of the
model: deterministic where the original is, otherwise arbitrary. An `if *` in a method is a call that may throw, or
during which the process may die; the `faults` of an object count its calls that did.

`dafny verify dfyconfig.toml` checks everything.

## What the proofs brought to light

- A finished anchor can be reopened exactly while some process still holds it with attempts left
  (`Leases.FinalExactly`). Two kinds of runs get there: a completing status write takes effect while its call throws,
  and the outer catch records a failure over it (`Leases.UnseenCompletionReopens`); or a process writes after its lease
  expired, since status writes are not fenced by the lease (`Leases.LateWriteReopens`). A completion can be reported a
  second time in more cases, namely also by a late holder without attempts left that completes the anchor itself
  (`SecondReports.ReportedAgainExactly`, `Leases.LateWriteReportsTwice`). Only finality needs acknowledged completions
  (`Leases.Orderly`); exclusion, the bounds on claims and reports, the backoff and the end of the work hold whenever
  leases are respected (`Leases.TimelyRun`). Record writes are not fenced either (`Convergence.StaleWriterUnsettles`).
- An empty projection poll does not mean that every sensor stands at its latest GPS event: while the record a location
  was taken from is being written anew by a retry or a backfill, the query does not see it, and the location is ahead
  (`SensorProjection.ReplayHidesLatest`). It is so where no write changes a document the query finds
  (`SensorProjection.EmptyPollInOrdinaryRun`).
- The realtime walk over parents answers "no" only for chains of at most 32 steps. A chain of 33 steps without a root
  makes it throw, and so does a root more than 33 steps up, although the snapshot visits such a node
  (`CpsTree.RealtimeAgreesWithSnapshot`, `CpsTree.DeepNodeIsRefused`, `CpsTree.UnreachableNodeIsRefused`). A block with
  such an event is never completed.
- The online processor reports a missing owner before it looks at the payload type, so an unsupported message of an
  anchor without owner is rejected for the owner. The backfill counts unsupported and rejected messages differently;
  `Counting.StatusAgreement` gives the exact difference.
- The rejected-envelope counter adds structural errors, up to four for one envelope, to rejected envelopes; it is zero
  exactly when every envelope was projected.
- Until a checkpoint is saved, a block that fails is not made up for, neither in catch-up from the finalised head nor as
  a realtime head, unless the indexer is configured to start at block 0 (`SkippedBlocks.PassedOverExactly`). The absence
  of gaps is stated from the first block ever checkpointed.
- After the alphabet check of a cursor, the checks of its decoded length and of its re-encoding cannot fail
  (`Cursor.AcceptedCursors`).

## Model

| member | source | states |
|---|---|---|
| `CpsKeys.NormalizeCpsNodeId` | src/common/utils/cps-node-id.util.ts:13-26 | accepts exactly the inputs that denote a number of at most 64 bits, and returns canonical decimal text of that number |
| `CpsKeys.NormalizeInjective` | src/common/utils/cps-node-id.util.ts:13-26 | two inputs normalise to the same text exactly when they denote the same number |
| `CpsKeys.DecimalParse` | src/common/utils/cps-node-id.util.ts:16-18 | canonical decimal text and numbers correspond one to one |
| `CpsKeys.SourceKeyInjective` | src/common/utils/cps-node-id.util.ts:34-70 | source keys agree exactly when the node is the same and the CID, or the chain digest, is the same |
| `CpsKeys.SourceKeyAccepts` | src/common/utils/cps-node-id.util.ts:34-70 | a source key is made exactly for a node id in range and a CID, or a chain payload of 1 to 8192 bytes; which error comes first |
| `CpsKeys.RecordKeyInjective` | src/measurement/connectivity-record.mapper.ts:170-178 | records of different sources or of different envelopes of one source never share a key |
| `Protocol.ValidateEnvelope` | src/measurement/protocol/signed-envelope-batch.decoder.ts:130-172 | reports the structural errors of an envelope, up to four, in the order of the checks, under its index |
| `Protocol.EnvelopeErrorsMeaning` | src/measurement/protocol/signed-envelope-batch.decoder.ts:130-172 | each structural code is reported exactly when its own field has a wrong length, in the order of the checks |
| `Protocol.DecodeBatch` | src/measurement/protocol/signed-envelope-batch.decoder.ts:60-101 | splits an opened batch into untrusted envelopes and indexed errors, or returns the code of the fault that makes it unusable |
| `Protocol.DecodePayload` | src/measurement/protocol/signed-envelope-batch-payload.decoder.ts:71-108 | decompresses by wire format in front of the batch decoder, with the size limit and the error code of each failure |
| `Protocol.OpensExactly` | src/measurement/protocol/signed-envelope-batch-payload.decoder.ts:71-108 | a payload opens exactly when it unpacks within the limits to a parsed batch of 1 to the maximal number of envelopes, which are then what it yields; otherwise the code of the first check that fails |
| `Protocol.DecodePartitions` | src/measurement/protocol/signed-envelope-batch.decoder.ts:89-101 | every position is either an envelope or carries an error, never both; nothing else appears, and the counts add up |
| `Protocol.GroupStructuralErrors` | src/measurement/cps-anchor-processor.service.ts:186-191 | collects the flat error list into a map from envelope index to codes, in insertion order |
| `Protocol.GroupsAreEnvelopes` | src/measurement/cps-anchor-processor.service.ts:186-192 | these groups are exactly the invalid envelopes, in batch order, each with all of its own codes |
| `Protocol.ValidateMessageMetadata` | src/measurement/protocol/message-metadata.validator.ts:31-57 | accepts exactly the messages with the expected node and a timestamp from 1 to the largest date, and reports the node fault first |
| `Protocol.CollectPublicMeasurements` | src/measurement/cps-measurement.transformer.ts:117-151 | the loop over the public sections computes position, readings and the invalid flag |
| `Protocol.CollectMeaning` | src/measurement/cps-measurement.transformer.ts:117-178 | the position is that of the last GPS section, if there is one; the flag tells exactly whether a mapped reading is not finite |
| `Protocol.CollectedReadings` | src/measurement/cps-measurement.transformer.ts:124-151 | a kind is present exactly when a finite reading of it occurs, and holds the last one, scaled |
| `Protocol.TransformRejects` | src/measurement/cps-measurement.transformer.ts:56-95 | the code of a rejected message is that of the first check that fails: node, time, owner, payload type, an unusable reading, a position off the globe, no reading at all |
| `Protocol.TransformAccepts` | src/measurement/cps-measurement.transformer.ts:56-110 | a message is accepted exactly when all checks hold; the measurement has the last reading of each kind, the last position, the owner, the sensor, the source and the time in seconds |
| `Protocol.LegacyUnits` | src/measurement/cps-measurement.transformer.ts:153-178 | the unit of each of the eight kinds: hundredths, tenths or whole units; no other kind is kept |
| `Records.MapMeasurementTypes` | src/measurement/connectivity-record.mapper.ts:196-213 | the loop that collects the measurement types of a message |
| `Records.MeasurementTypesMeaning` | src/measurement/connectivity-record.mapper.ts:196-213 | a type is listed exactly when some public section carries it, and once |
| `Records.HexMeaning` | src/measurement/connectivity-record.mapper.ts:62 | the text of a sensor id is its bytes, two lower-case hexadecimal digits each |
| `Records.HexInjective` | src/measurement/connectivity-record.mapper.ts:62 | different sensor ids have different texts |
| `Records.SetAndUnset` | src/database/repositories/connectivity-record.repository.ts:119-134 | the update replaces the document: no optional field and no legacy owner of the old one survives |
| `Records.PutAllIsLastWrite` | src/database/repositories/connectivity-record.repository.ts:199-219 | after any sequence of upserts a key holds the last record written to it and nothing of older ones; other keys and existing ids stay |
| `Records.RecordCollection.UpsertRecord` | src/database/repositories/connectivity-record.repository.ts:199-219 | one atomic upsert; a call that fails may or may not have taken effect |
| `AnchorQueue.AnchorCollection.UpsertAnchor` | src/database/repositories/cps-anchor.repository.ts:153-198 | inserts a pending anchor with the given data on first sight and otherwise only sets its wire format; rejects invalid blocks, nodes and contents without a write |
| `AnchorQueue.RediscoveryKeepsState` | src/database/repositories/cps-anchor.repository.ts:165-197 | rediscovery changes nothing of an anchor but its wire format, touches no other, and is idempotent |
| `AnchorQueue.AnchorCollection.ClaimNext` | src/database/repositories/cps-anchor.repository.ts:207-242 | leases the first claimable anchor in the order of block and creation: PROCESSING with a lease to now plus leaseMs, one more attempt, no error code, nothing else changed; None means that none is claimable |
| `AnchorQueue.AnchorCollection.UpdateStatus` | src/database/repositories/cps-anchor.repository.ts:251-318 | a write that took effect, whoever made it, leaves the stored anchor with its status, without a lease and with every detail it gave, a detail not given as before; all else and all other anchors stay |
| `AnchorQueue.StatusWritesTell` | src/database/repositories/cps-anchor.repository.ts:273-317 | after any sequence of status writes a stored anchor has the status of the last write to its key, its counters, error code and time each from the last write to it that gave one or else as before, and no lease once there was a write to it; nothing else changes |
| `AnchorQueue.AnchorCollection.MarkBackfillStarted` | src/database/repositories/cps-anchor.repository.ts:376-393 | starts a backfill attempt, counts it and removes an old error code, without touching the queue fields |
| `AnchorQueue.AnchorCollection.UpdateBackfillResult` | src/database/repositories/cps-anchor.repository.ts:401-438 | records status, the five counts and the error code of a backfill, removing an old code, without touching the queue fields |
| `AnchorQueue.UpdatesKeepWellFormed` | src/database/repositories/cps-anchor.repository.ts:251-318 | no sequence of status writes breaks: PROCESSING exactly with a lease, RETRY_PENDING only with a time |
| `AnchorQueue.EventuallyClaimable` | src/database/repositories/cps-anchor.repository.ts:217-230 | every anchor that is not finished becomes claimable at a time that can be told now, and stays so |
| `Archive.PayloadCollection.UpsertFetched` | src/database/repositories/connectivity-payload.repository.ts:66-107 | inserts an archive entry once; a re-store of other size or digest is a conflict |
| `Archive.PayloadCollection.UpdateDecodeStatus` | src/database/repositories/connectivity-payload.repository.ts:115-138 | changes only status and error of an entry |
| `Archive.FirstBytesForever` | src/database/repositories/connectivity-payload.repository.ts:66-138 | over any sequence of archive operations a key keeps the bytes of its first store, and a re-store conflicts exactly when size or digest differ |
| `Archive.LastMarkStands` | src/database/repositories/connectivity-payload.repository.ts:115-138 | over any sequence of archive operations an entry says what its last decode mark says, is pending without an error before the first, and keeps the format of its first store |
| `Pipeline.CompleteAttempt` | src/measurement/cps-anchor-processor.service.ts:201-295 | a complete attempt of either pipeline writes every position of the batch and ends each on its final record |
| `Pipeline.AttemptWritesOwnKeys` | src/measurement/cps-anchor-processor.service.ts:201-311 | nothing an attempt writes, complete or cut, lies outside the anchor and the positions of its batch |
| `Pipeline.AttemptUnder` | src/measurement/cps-anchor-processor.service.ts:201-311 | among all writes of an attempt those under a position are its diagnostic or the stages of its envelope, in order, and then its failure mark |
| `Convergence.ReplayConverges` | src/measurement/cps-anchor-processor.service.ts:145-311 | aborts anywhere, any number of times, then one full attempt: every position holds what one clean attempt leaves in any other collection, existing ids stay, all other keys are untouched |
| `Convergence.LastWriterDecides` | src/database/repositories/connectivity-record.repository.ts:199-219 | however attempts interleave, a key holds what its last writer wrote last to it |
| `Convergence.SettledByLastWriter` | src/measurement/cps-anchor-processor.service.ts:201-295 | a position is settled as soon as its last writer is a complete attempt |
| `Convergence.SettledExactly` | src/database/repositories/connectivity-record.repository.ts:199-219 | a position is settled exactly when what its last writer wrote last to it is its final record, and stays as it was if nobody wrote to it |
| `Convergence.InterruptedSettles` | src/measurement/cps-anchor-processor.service.ts:215-311 | how far an interrupted last writer must have got: the position is settled exactly when the attempt has made all of its writes to it and has not marked it for a failed projection |
| `Convergence.ConcurrentAttemptsSettle` | src/measurement/cps-anchor-processor.service.ts:201-295 | complete attempts that overlap freely, without any lease, settle every position |
| `Convergence.StaleWriterUnsettles` | src/measurement/cps-anchor-processor.service.ts:219-221 | record writes are not fenced: a position settled by a complete attempt is no longer settled after the first write of a stale worker that dies |
| `Convergence.BackfillAgrees` | src/measurement/cps-backfill.service.ts:222-308 | completed runs of the online processor and of the backfill leave the same record at every position, up to the projection error |
| `Convergence.MixedAttemptsSettle` | src/measurement/cps-backfill.service.ts:222-308 | attempts of both pipelines at one anchor, interleaved and cut anywhere: a position holds its final record up to the projection error exactly when its last writer got as far as the canonical record |
| `Convergence.ConcurrentPipelinesSettle` | src/measurement/cps-backfill.service.ts:222-308 | complete attempts of both pipelines that overlap freely settle every position up to the projection error |
| `Counting.CounterConservation` | src/measurement/cps-anchor-processor.service.ts:185-340 | envelopes equal the batch; signatures add up to the structurally valid ones; projected and rejected add up to these plus the structural errors; PROCESSED exactly when all were projected |
| `Counting.CountersMeaning` | src/measurement/cps-anchor-processor.service.ts:185-340 | each counter of a batch as the number of its envelopes of one kind, told by what signature check, parser and transformer say of them |
| `Counting.StoredRecordCount` | src/measurement/cps-anchor-processor.service.ts:192-223 | the stored-record counter is the number of distinct record keys an attempt writes, and 0 when storage is off; either pipeline writes as many keys as the batch has positions |
| `Counting.BackfillConservation` | src/measurement/cps-backfill.service.ts:212-308 | every position counts as one record and in at most one of invalid, unsupported and private-only; the unsupported messages and private sections are among those the online processor counts, and its bad signatures among the invalid ones |
| `Counting.BackfillCountsMeaning` | src/measurement/cps-backfill.service.ts:212-308 | each count of the backfill as the number of envelopes of one kind, told by what signature check and parser say of them and by the metadata |
| `Counting.StatusAgreement` | src/measurement/cps-backfill.service.ts:143-149 | when the two pipelines end clean: the backfill tolerates exactly the rejections that concern only the legacy projection, so an online PROCESSED implies a backfill Processed |
| `Processor.CpsAnchorProcessor.ProcessEnvelope` | src/measurement/cps-anchor-processor.service.ts:215-295 | stores a record at each stage of one envelope and counts the first; wherever it stops, it wrote a prefix of the specified writes, and all of them if it returns |
| `Processor.CpsAnchorProcessor.StoreStructuralErrors` | src/measurement/cps-anchor-processor.service.ts:203-213 | writes the diagnostic record of each group, in order, and counts them; nothing and 0 when storage is off |
| `Processor.CpsAnchorProcessor.ProcessEnvelopes` | src/measurement/cps-anchor-processor.service.ts:215-295 | the envelope loop: all counters, the stored-record counter among them, measurements and projected records are those of the specification |
| `Processor.CpsAnchorProcessor.MarkProjectionFailed` | src/measurement/cps-anchor-processor.service.ts:302-310 | marks the projected records one by one when the legacy projection fails: all of them if no call fails, otherwise the first ones |
| `Processor.CpsAnchorProcessor.StoreBatch` | src/measurement/cps-anchor-processor.service.ts:185-311 | the part of an attempt that writes records: the counters of the specification and every write, or, exactly if a call failed, some beginning of them |
| `Processor.CpsAnchorProcessor.OpenPayload` | src/measurement/cps-anchor-processor.service.ts:145-184 | resolves, archives and decodes the payload; an unusable batch and a transient failure are told apart; the archive then holds the payload by size and digest, keeps the bytes it had, carries the code of an unusable batch, and nothing else in it changes |
| `Processor.CpsAnchorProcessor.Finish` | src/measurement/cps-anchor-processor.service.ts:313-347 | the archived payload is marked as decoded, with errors exactly if an envelope was rejected, when raw storage is on, and nothing else changes there; then the completing status write with the counters, then the metrics |
| `Processor.CpsAnchorProcessor.Attempt` | src/measurement/cps-anchor-processor.service.ts:146-347 | one attempt: at most one completing write, and only after the full trace of record writes |
| `Processor.CpsAnchorProcessor.ProcessAnchor` | src/measurement/cps-anchor-processor.service.ts:145-365 | one leased anchor under a fault at any awaited call: which record and status writes took effect; a completion leaves every position of the batch settled and the stored anchor with the counters of the batch, their conservation laws and the status that fits them; a failure leaves the stored anchor with the code of the batch, the exhaustion, or the retry and its time. When no call failed it is a completion exactly if the payload can be opened and archived |
| `Processor.CpsAnchorProcessor.RecordFailure` | src/measurement/cps-anchor-processor.service.ts:351-403 | the terminal error with its own code for an unusable batch, which is never retried; otherwise a retry with backoff exactly while attempts are left |
| `Processor.CpsAnchorProcessor.RunOnce` | src/measurement/cps-anchor-processor.service.ts:124-142 | a poll turn by turn: each claims the first claimable anchor of the queue the turn before left, at a new reading of the clock, and the status and record writes of the poll are those of its turns, each justified by its anchor. If the poll returns, every claimed anchor has its completion or failure and carries no lease, a completed one was settled when its turn ended, and the limit is reached or nothing was claimable at the last reading; if it throws, at most the last claimed anchor lacks its status write. It throws only when a call failed; when none did, an anchor is completed exactly if its payload can be opened and archived, and otherwise gets the failure its payload accounts for. A poll never overlaps itself, the queue stays well formed, the archive loses nothing, and the metrics count the completed turns |
| `Processor.ResolvesTo` | src/measurement/cps-anchor-payload.resolver.ts:22-55 | the payload bytes of an anchor, from the chain within the limit or from IPFS, and the format to open them with |
| `Processor.BatchOfAnchor` | src/measurement/cps-anchor-processor.service.ts:146-184 | the envelopes of an anchor are exactly those its bytes hold when they unpack within the limits |
| `Backfill.CpsBackfill.StoreEnvelope` | src/measurement/cps-backfill.service.ts:245-308 | the two writes of an envelope and all five of its counts, or a beginning of the writes |
| `Backfill.CpsBackfill.StoreRecords` | src/measurement/cps-backfill.service.ts:222-308 | all record writes of the specification and all five counts of the batch |
| `Backfill.CpsBackfill.StoreCanonical` | src/measurement/cps-backfill.service.ts:189-310 | the second implementation of the canonical pipeline writes exactly the specified records and returns the counts, and marks the archived payload by them; it calls a batch unusable only if it is, and marks the payload with its code |
| `Backfill.CpsBackfill.ProcessAnchor` | src/measurement/cps-backfill.service.ts:137-186 | counts a candidate once; one whose result was recorded is reported Processed exactly when its stored batch is clean, and every position of it then holds its canonical record; its backfill fields show one more attempt, the counts of the batch and the fitting status and code, or the code of the failure; the queue fields and all other anchors stay |
| `Backfill.CpsBackfill.Run` | src/measurement/cps-backfill.service.ts:113-134 | a dry run changes nothing. A full run candidate by candidate: each starts where the one before ended, its backfill fields tell how it ended, and if it was stored its records were canonical when it was done; the report has the totals and failures of exactly these endings. Without a failing call every candidate is dealt with, and stored unless its payload is missing, too large, no batch or in conflict with the archive, with the code of that fault; a run stops only when a call failed |
| `Backfill.ReportAddsUp` | src/measurement/cps-backfill.service.ts:151-185 | the report counts every candidate exactly once, in its class, and lists exactly the failed ones |
| `Backfill.TotalsAddUp` | src/measurement/cps-backfill.service.ts:157-163 | each of the five totals is the sum over the candidates whose records were stored, with or without errors |
| `Backfill.DecodeStatusTells` | src/measurement/cps-backfill.service.ts:264-283 | the counter an envelope goes to can be read off the status of its stored record |
| `Leases.AlwaysClaimableLater` | src/database/repositories/cps-anchor.repository.ts:207-318 | in every run with any number of processes, late writes and crashes included: PROCESSING exactly with a lease, and every unfinished anchor becomes claimable at a known time |
| `Leases.LeaseIsExclusive` | src/database/repositories/cps-anchor.repository.ts:207-242 | if holders write before their lease expires, no anchor has two holders, and the holder has the lease the collection shows or has completed the anchor without knowing it |
| `Leases.FinalExactly` | src/database/repositories/cps-anchor.repository.ts:251-318 | a finished anchor can be reopened exactly when some process that holds it has attempts left, and a status write can still take effect on it exactly when a process holds it |
| `SecondReports.ReportedAgainExactly` | src/measurement/cps-anchor-processor.service.ts:326-402 | a finished anchor can be reported once more exactly when some process holds it that has not completed it unseen or has attempts left |
| `Leases.UnheldTerminalStays` | src/database/repositories/cps-anchor.repository.ts:207-318 | in every run, late and unacknowledged writes included, a finished anchor that nobody holds never changes but for its wire format, is reported no more and never held again |
| `Leases.TerminalIsAbsorbing` | src/measurement/cps-anchor-processor.service.ts:326-364 | if holders write before their lease expires and every completion is acknowledged, nobody holds a finished anchor, so that it is final |
| `Leases.ClaimsAreBounded` | src/measurement/cps-anchor-processor.service.ts:384-402 | if holders write before their lease expires, claims of an anchor are at most max(maxAttempts, 1) plus the abandoned ones, and its completion is reported once at most |
| `Leases.ClaimsBackOff` | src/measurement/cps-anchor-processor.service.ts:391-395 | if holders write before their lease expires and no claim was abandoned, the k-th claim comes base*(2^(k-1)-1) ms after the first or later, for k up to 22, and linearly later beyond |
| `Leases.WorkIsBounded` | src/measurement/cps-anchor-processor.service.ts:384-402 | if holders write before their lease expires, processes make at most three steps at an anchor for every attempt granted and every claim abandoned: the work ends |
| `Leases.BackoffDoubles` | src/measurement/cps-anchor-processor.service.ts:391-395 | closed form of the total backoff up to the clamp |
| `Leases.BackoffGrowsLinearly` | src/measurement/cps-anchor-processor.service.ts:391-395 | closed form of the total backoff beyond the clamp |
| `Leases.UnseenCompletionReopens` | src/measurement/cps-anchor-processor.service.ts:326-364 | a run in which every lease is respected and a completed anchor is reopened, because its completing call threw after taking effect |
| `Leases.LateWriteReopens` | src/database/repositories/cps-anchor.repository.ts:313-318 | a run in which a write after the expiry of the lease overwrites the completion of another process |
| `Leases.LateWriteReportsTwice` | src/measurement/cps-anchor-processor.service.ts:326-347 | a run in which the late process completes the anchor itself and it is reported a second time, even when no attempt is left and it can no longer be reopened |
| `LeasedRecords.CompletedIsSettled` | src/measurement/cps-anchor-processor.service.ts:201-347 | processors that lease anchors and write their records, with faults anywhere: if holders write before their lease expires, then whenever an anchor shows as completed, every position of the batch its completer read holds its final record |
| `BlockIndexer.NoGapBelowCheckpoint` | src/robonomics/block-indexer.service.ts:107-137 | in every run with failures, crashes, reconnects and arbitrary heads, all blocks from the first checkpointed one to the checkpoint were processed to their end |
| `BlockIndexer.CheckpointNeverDecreases` | src/robonomics/block-indexer.service.ts:347-372 | the checkpoint never decreases and moves one block at a time; the first checkpointed block stays the first |
| `SkippedBlocks.PassedOverExactly` | src/robonomics/block-indexer.service.ts:98-137 | at any moment of any run: with a checkpoint saved no block behind it is ever passed over; without one, an unprocessed block can be passed over exactly when the start block is not 0 and some later block completes |
| `SkippedBlocks.FirstHeadMayBeSkipped` | src/robonomics/block-indexer.service.ts:347-349 | a run without a checkpoint in which a realtime head fails and a later one becomes the base, for any two such heads |
| `SkippedBlocks.FirstCaughtUpMayBeSkipped` | src/robonomics/block-indexer.service.ts:110-113 | a run in which catch-up fails at the finalised head it started from and starts over at a later one |
| `BlockIndexer.SingleWriterNoLostWakeUp` | src/robonomics/block-indexer.service.ts:179-339 | at every await one writer at most, one start or reconnect chain, one worker; a waiting head has a running worker |
| `RealtimeHeads.HeadIsServed` | src/robonomics/block-indexer.service.ts:131-137 | no head gets lost: from its notification on, until a call fails or the connection or the process is lost, a head is waiting, being filled up to, or passed by the checkpoint |
| `RealtimeHeads.WorkerServes` | src/robonomics/block-indexer.service.ts:319-372 | the worker leaves a head only for the next one in order, and only when a call failed or the checkpoint has passed it |
| `RealtimeHeads.OthersLeaveHeads` | src/robonomics/block-indexer.service.ts:161-205 | every other step leaves the waiting heads alone, except that a reconnect forgets those not yet taken |
| `RealtimeHeads.CatchUpHandsOver` | src/robonomics/block-indexer.service.ts:118-137 | in every run catch-up goes on at the block after the checkpoint, at most ten blocks at a time and never beyond the finalised head, and subscribes exactly when it has passed the head it was told |
| `BlockIndexer.ReplayEqualsCleanPass` | src/robonomics/block-indexer.service.ts:226-279 | the discovered anchors are those of one clean ascending pass over the checkpointed blocks plus a beginning of the next block |
| `BlockIndexer.LowestOccurrenceStays` | src/database/repositories/cps-anchor.repository.ts:165-197 | after a clean pass an anchor has the node, block, content and owner of its lowest occurrence |
| `BlockIndexer.LatestWireFormatWins` | src/database/repositories/cps-anchor.repository.ts:186-197 | after a clean pass an anchor has the wire format of its latest occurrence that names one |
| `BlockIndexer.IndexedAnchor` | src/robonomics/block-indexer.service.ts:226-372 | at any moment of any run, whatever failed on the way: an anchor first mentioned above the first checkpointed block stands with the node, block, content and owner of that mention |
| `BlockIndexer.IndexedWireFormat` | src/database/repositories/cps-anchor.repository.ts:186-197 | at any moment of any run its wire format is the one named last: by the part of the next block that took effect, or else by the latest block up to the checkpoint that names one |
| `BlockIndexer.AttemptsAddUp` | src/robonomics/block-indexer.service.ts:226-279 | attempts at a block, cut anywhere and repeated from its start, leave what the furthest of them alone leaves |
| `BlockIndexer.BlockIndexerService.ProcessBlock` | src/robonomics/block-indexer.service.ts:226-279 | re-running the operations of a block from the start keeps the record of the database |
| `BlockIndexer.BlockIndexerService.ProcessNewFinalizedBlock` | src/robonomics/block-indexer.service.ts:347-372 | a processed head leaves the database as it was; otherwise the gap is filled in order, and if it returns, the checkpoint is the head; it returns if no call fails and the blocks can be completed |
| `BlockIndexer.BlockIndexerService.CatchUp` | src/robonomics/block-indexer.service.ts:118-137 | the batched loop leaves no gap and ends only at a head it has passed; if nothing fails, every head it has not passed takes it at least one block further |
| `CpsTree.IsCpsNodeInSubtreesAt` | src/robonomics/cps-node.reader.ts:140-174 | true exactly with a root at most 33 parent steps up, false exactly when the chain ends first, otherwise it throws |
| `CpsTree.ResolveScopeOwner` | src/robonomics/cps-node.reader.ts:230-255 | returns the owner of the nearest scope at most 32 steps up, nothing when the chain ends without one, and throws beyond |
| `CpsTree.OwnerIsUnique` | src/robonomics/cps-node.reader.ts:230-255 | the specification of owner resolution admits one result only |
| `CpsTree.ReadSplitCpsNode` | src/robonomics/cps-node.reader.ts:182-207 | reads a node as specified: nothing without payload, an error without owner |
| `CpsTree.NodeMeaning` | src/robonomics/cps-node.reader.ts:182-207 | a node is returned exactly when it has a payload and its nearest scope a non-empty owner, with that owner and its own payload and meta; without such an owner it is an error |
| `CpsTree.ReadCpsSubtreesAt` | src/robonomics/cps-node.reader.ts:93-129 | ends on every graph; visits exactly the nodes reachable from the roots, reads each once, returns those with a payload, nearer ones first; fails only for a reachable node that cannot be read |
| `CpsTree.UpMeetsDown` | src/robonomics/cps-node.reader.ts:109-171 | a root lies at most k parent steps up exactly when the node lies at most k child steps below a root |
| `CpsTree.RealtimeAgreesWithSnapshot` | src/robonomics/cps-node.reader.ts:93-174 | when children is the inverse of parent: yes exactly for nodes the snapshot visits at depth 33 or less, no only for nodes it never visits; it throws exactly when the chain has 33 steps and the node is not visited that early; on shorter chains the two agree |
| `CpsTree.DeepNodeIsRefused` | src/robonomics/cps-node.reader.ts:161-173 | a node 34 steps below the root: visited by the snapshot, and refused by the realtime walk |
| `CpsTree.UnreachableNodeIsRefused` | src/robonomics/cps-node.reader.ts:161-173 | a node on a chain that meets no root: never visited by the snapshot, and refused rather than denied by the realtime walk |
| `CpsDiscovery.Handle` | src/robonomics/handlers/cps-payload-set.handler.ts:55-124 | the handler makes the one upsert the state of the block prescribes, or none; it throws only for a state that cannot be handled, or when a call failed |
| `CpsDiscovery.EventQueues` | src/robonomics/handlers/cps-payload-set.handler.ts:60-124 | an event queues an anchor exactly if it is a successful PayloadSet of an allowed node that has a payload and an owner: the reference in the payload, the format named by the meta, the owner of the nearest scope, in this block |
| `CpsDiscovery.ExtrinsicOutcomes` | src/robonomics/block-indexer.service.ts:237-262 | the map of extrinsic results holds the last status event of each extrinsic |
| `CpsDiscovery.OutcomeMeaning` | src/robonomics/block-indexer.service.ts:245-254 | an extrinsic counts as failed exactly when its last status event is a failure |
| `CpsDiscovery.EventFails` | src/robonomics/block-indexer.service.ts:245-279 | an event is handled as failed exactly when its extrinsic failed |
| `CpsDiscovery.ProcessBlock` | src/robonomics/block-indexer.service.ts:226-279 | wherever a block stops, the anchors are those after a beginning of the operations the indexer has for the block; it passes only with all of them, and without a failing call exactly if every event can be handled |
| `CpsDiscovery.SameKeySameInput` | src/robonomics/handlers/cps-payload-set.handler.ts:75-118 | within a block, upserts with the same key are the same |
| `CpsDiscovery.ChainIsConsistent` | src/robonomics/handlers/cps-payload-set.handler.ts:75-118 | on every chain, within a block the key decides the upsert, which is all the replay theorem of the indexer assumes |
| `CpsDiscovery.UpsertIsSee` | src/database/repositories/cps-anchor.repository.ts:153-198 | an upsert of the collection is a step of the indexer on the discovered part of the anchors |
| `CpsDiscovery.QueueKeepsSight` | src/database/repositories/cps-anchor.repository.ts:207-318 | claims and status writes leave the discovered part of the anchors alone |
| `CpsDiscovery.Snapshot` | src/robonomics/cps-snapshot.service.ts:37-79 | queues everything the walk found, in order, and counts it; it throws only for a tree that cannot be read, a node the queue does not take, or a failing call |
| `CpsDiscovery.SnapshotCoversEvents` | src/robonomics/cps-snapshot.service.ts:45-79 | whatever the handler would queue for an event of a block, the snapshot of that block queues too |
| `SensorLocations.NewestSourceWins` | src/database/repositories/sensor-location.repository.ts:45-128 | after any candidates a sensor stands at a source none of them is newer than |
| `SensorLocations.OrderDoesNotMatter` | src/database/repositories/sensor-location.repository.ts:42-129 | order, repetition and interleaving of the candidates do not change the positions |
| `SensorLocations.StatusFollowsCoordinates` | src/database/repositories/sensor-location.repository.ts:60-122 | over any sequence of candidates a stored location keeps its status exactly if every candidate that becomes its source has its coordinates, and waits for geocoding otherwise |
| `SensorLocations.NewSensorWaits` | src/database/repositories/sensor-location.repository.ts:110-122 | a sensor seen for the first time waits for geocoding |
| `SensorLocations.AddressIsKept` | src/database/repositories/sensor-location.repository.ts:60-122 | a resolved sensor all of whose newer fixes have its coordinates keeps its address |
| `SensorLocations.AddressFitsCoordinates` | src/database/repositories/sensor-location.repository.ts:162-221 | with any number of geocoders and updates in any interleaving, a resolved address is an answer obtained for the current coordinates |
| `SensorLocations.MarkLandsExactly` | src/database/repositories/sensor-location.repository.ts:162-221 | in every run with any number of geocoders a mark takes effect exactly when the location still stands at the source that was read and still waits, and then gives it that answer; every other location stays |
| `SensorLocations.LatestExists` | src/database/repositories/connectivity-record.repository.ts:227-287 | every sensor with a valid GPS event has a latest one |
| `SensorLocations.LatestIsUnique` | src/database/repositories/connectivity-record.repository.ts:265-286 | a sensor has at most one latest valid GPS event |
| `SensorLocations.FindLatestUnprojectedSensorLocations` | src/database/repositories/connectivity-record.repository.ts:227-335 | the stages of the query return the latest GPS events of lagging sensors, each sensor once, as many as the limit lets |
| `SensorLocations.GroupLatest` | src/database/repositories/connectivity-record.repository.ts:231-287 | match, unwind, match, sort and group: the first row of each sensor is its latest valid GPS event, and no sensor with one is lost |
| `SensorLocations.PollShrinks` | src/database/repositories/connectivity-record.repository.ts:287-335 | each poll catches up with as many lagging sensors as the limit lets, and exactly with the returned ones |
| `SensorLocations.PollsCatchUp` | src/geocoding/geocoding.service.ts:98-121 | n polls of unchanging records reduce the backlog by n times the limit, or to nothing |
| `SensorLocations.PollKeepsSourced` | src/database/repositories/connectivity-record.repository.ts:227-335 | a poll keeps every location at the latest GPS event of its sensor or at an older source |
| `SensorLocations.EmptyPollMeansCurrent` | src/database/repositories/connectivity-record.repository.ts:227-335 | an empty result means that no sensor stands at an older source than its latest valid GPS event; it stands exactly there if and only if its location comes from an event no newer than that |
| `SensorProjection.SourcedThroughout` | src/database/repositories/connectivity-record.repository.ts:227-335 | writers and pollers in any interleaving, results applied late or in part: as long as records the query finds keep their events, every location stands at the latest GPS event of its sensor or at an older source |
| `SensorProjection.EmptyPollInOrdinaryRun` | src/database/repositories/connectivity-record.repository.ts:227-335 | in such runs an empty result means that every sensor stands at its latest valid GPS event |
| `SensorProjection.FirstAttemptIsOrdinary` | src/measurement/cps-anchor-processor.service.ts:201-311 | every write of an attempt at positions the query has not found yet keeps the events, whatever is written in between elsewhere |
| `SensorProjection.PutKeepsListed` | src/database/repositories/connectivity-record.repository.ts:199-219 | a record write keeps the events exactly when it does not change a document the query finds |
| `SensorProjection.ReplayHidesLatest` | src/database/repositories/connectivity-record.repository.ts:227-335 | when the record a location was taken from is written anew from its first stage, the poll stays empty and the sensor is not at its latest event |
| `SensorProjection.EmptyPollMayBeAhead` | src/database/repositories/connectivity-record.repository.ts:227-335 | two records and a replay of the newer one in which this happens |
| `SensorProjection.KeysNameSources` | src/measurement/connectivity-record.mapper.ts:170-178 | whatever attempts of both pipelines write, a record key names one id and one time at every moment the query finds the record |
| `SensorProjection.AddressesFit` | src/database/repositories/sensor-location.repository.ts:162-221 | so the addresses fit for all candidates taken from records of the pipelines, whenever they were read |
| `SensorLocations.LocationCollection.UpsertCandidates` | src/database/repositories/sensor-location.repository.ts:42-129 | applies the candidates in order, or some beginning of them if it fails; a location keeps its status exactly if its coordinates did not change on the way, and otherwise waits; new sensors wait |
| `SensorLocations.LocationCollection.FindPending` | src/database/repositories/sensor-location.repository.ts:135-153 | returns waiting locations up to the limit, and none only if none waits |
| `SensorLocations.LocationCollection.Mark` | src/database/repositories/sensor-location.repository.ts:162-221 | a mark that passed gives its status to the location if that still waits at the source key that was read; a location at another key, one already resolved or not found, and every other one keep their place |
| `SensorLocations.GeocodingService.GeocodeLocation` | src/geocoding/geocoding.service.ts:128-150 | if it passes, a location that waited is resolved with the address found, or not found, or waits on after a temporary failure; positions and all other locations stay, addresses keep fitting |
| `SensorLocations.GeocodingService.RunOnce` | src/geocoding/geocoding.service.ts:98-121 | one poll: queries, projects, then geocodes as many waiting locations as the limit lets; each of these is then resolved, not found or waiting by its own reply, and exactly as many fewer wait as replies were final; never overlaps itself; takes exactly the returned sensors off the backlog |
| `SensorLocations.MarkedAllMeaning` | src/geocoding/geocoding.service.ts:113-150 | each location of a batch is resolved with the address its own reply found, or not found, or still waits after a temporary failure, at its position; every other one stays as it is |
| `SensorLocations.BatchShrinksWaiting` | src/geocoding/geocoding.service.ts:113-150 | a batch takes exactly the sensors whose replies are final off the waiting ones |
| `Cursor.EncodeConnectivityCursor` | src/api/connectivity/connectivity-cursor.ts:30-47 | fills the 21-byte buffer and returns its base64url text, exactly for times in range |
| `Cursor.DecodeUndoesEncode` | src/api/connectivity/connectivity-cursor.ts:30-88 | decoding an encoded position gives it back |
| `Cursor.EncodeUndoesDecode` | src/api/connectivity/connectivity-cursor.ts:54-88 | every accepted text is the encoding of what it decodes to |
| `Cursor.AcceptedCursors` | src/api/connectivity/connectivity-cursor.ts:59-80 | accepted are exactly 28 characters of the alphabet with the version byte and a time in range; the length and re-encoding checks never fail after the pattern |
| `Cursor.CursorLayout` | src/api/connectivity/connectivity-cursor.ts:30-47 | the 21 bytes of a cursor are the version 2, the time in eight bytes and the document id in twelve, big-endian; exactly times from 0 to the largest date are encoded |
| `Cursor.WriteBigEndian` | src/api/connectivity/connectivity-cursor.ts:43-45 | writes a big-endian number at an offset and leaves the rest of the buffer |
| `Cursor.DecodeEncode` | src/api/connectivity/connectivity-cursor.ts:46-66 | base64url of RFC 4648, section 5, decodes to the bytes it encodes |
| `Cursor.EncodeDecode` | src/api/connectivity/connectivity-cursor.ts:63-69 | every text of whole groups over the alphabet is the encoding of what it decodes to |
| `Cursor.AlphabetInOrder` | src/api/connectivity/connectivity-cursor.ts:46 | the alphabet of base64url in its order |
| `Cursor.SplitMeaning` | src/api/connectivity/connectivity-cursor.ts:46 | four characters carry the 24 bits of three bytes, most significant first |
| `StoredMessages.LastCompleteStores` | src/measurement/cps-anchor-processor.service.ts:201-295 | whatever went before, when the last writer of a position is a complete attempt of either pipeline, the position holds what the rows below describe |
| `StoredMessages.EnvelopeIsKept` | src/measurement/connectivity-record.mapper.ts:55-96 | the record names the node, block, content address and place of its envelope; a sound envelope can be recovered from it field by field, of an unsound one it keeps the codes of all its faults |
| `StoredMessages.StatusesTell` | src/measurement/connectivity-record.mapper.ts:103-154 | the three statuses and the error code of a stored record say exactly how far its envelope got: structure, signature, parsing, metadata, payload type |
| `StoredMessages.MetadataErrorTells` | src/measurement/connectivity-record.mapper.ts:112-126 | a message with a wrong node or time is stored with its rendering, its raw time and the code of the fault, and without a record time |
| `StoredMessages.MessageIsKept` | src/measurement/connectivity-record.mapper.ts:128-153 | a public message is stored with its rendering, its time, its payload type, and exactly the measurement types its sections have |
| `StoredMessages.ServedExactly` | src/database/repositories/connectivity-record.repository.ts:343-361 | under every filter the API finds a stored position exactly if its envelope is sound, rightly signed, parsed, of this node and an accepted time, with an Urban or Insight payload, and its message meets the filter |
| `StoredMessages.ListedInPages` | src/database/repositories/connectivity-record.repository.ts:343-372 | so the rows the pages are cut from contain exactly these positions |
| `StoredMessages.LookedUpExactly` | src/database/repositories/cps-anchor.repository.ts:82-147 | the owner lookup regards exactly the same messages |
| `StoredMessages.ProjectedExactly` | src/database/repositories/connectivity-record.repository.ts:231-240 | the projection query looks at exactly those of them with a GPS section |
| `StoredMessages.EventsAreSections` | src/database/repositories/connectivity-record.repository.ts:241-264 | the GPS events it finds are the GPS sections on the globe of public messages, with their sensor, coordinates and time |
| `StoredMessages.RejectionIsKept` | src/measurement/cps-anchor-processor.service.ts:265-276 | after a complete attempt a record carries the code with which the legacy projection rejected its message, and no code otherwise |
| `StoredMessages.FailureIsKept` | src/measurement/cps-anchor-processor.service.ts:301-311 | after a failed projection exactly the records of the accepted messages are marked, and nothing else of them changes |
| `StoredMessages.CompletedIsServed` | src/measurement/cps-anchor-processor.service.ts:145-347 | after the completion of an anchor every filter finds exactly the public messages of its payload that meet it, in records that name the anchor, its node, block and content address |
| `Pagination.DecodedRecordsAreTimed` | src/measurement/protocol/message-metadata.validator.ts:44-57 | the time of every record the mapper marks as decoded is one the cursor accepts; what else such a record says is in the rows of StoredMessages |
| `Pagination.AttemptsAreTimed` | src/measurement/cps-anchor-processor.service.ts:201-311 | every record either pipeline writes, complete or failed, has a time the cursor accepts if it is decoded |
| `Pagination.WritesKeepServable` | src/database/repositories/connectivity-record.repository.ts:199-219 | whatever attempts of both pipelines write, in any order and cut anywhere, leaves a collection the pagination theorems apply to, as long as its ids fit |
| `Pagination.BinaryCursorRoundTrips` | src/api/connectivity/connectivity-cursor.ts:30-88 | the binary cursor is a codec the walk may use |
| `Pagination.Listing` | src/database/repositories/connectivity-record.repository.ts:362-366 | the sort order: strictly descending by time and id, each row once |
| `Pagination.ListingOrder` | src/database/repositories/connectivity-record.repository.ts:366 | newest first, and of two records of the same time the one with the larger id first |
| `Pagination.ListingIsUnique` | src/database/repositories/connectivity-record.repository.ts:362-366 | there is only one strictly descending listing of a set of rows |
| `Pagination.PageMeaning` | src/api/connectivity/connectivity.service.ts:232-272 | a page is the next rows after its cursor, and has a next cursor exactly when more remain |
| `Pagination.RequestRefused` | src/api/connectivity/connectivity.service.ts:240-253 | a request is refused exactly for an empty time range or a cursor that does not decode, the range first |
| `Pagination.PagesAreTheResult` | src/api/connectivity/connectivity.service.ts:232-272 | following the cursors of an unchanging collection yields the whole filtered result in order, each row once |
| `Pagination.NumberOfRequests` | src/api/connectivity/connectivity.service.ts:257-270 | following the cursors of an unchanging collection takes max(1, ceil(n/limit)) requests |
| `Pagination.WalkEnds` | src/api/connectivity/connectivity.service.ts:257-270 | following the cursors of an unchanging collection comes to an end |
| `Pagination.NothingRepeats` | src/database/repositories/connectivity-record.repository.ts:343-372 | with arbitrary changes between the requests positions strictly descend over all pages |
| `Pagination.NothingMissed` | src/database/repositories/connectivity-record.repository.ts:343-372 | with arbitrary changes between the requests, every record that matches at every request is returned |
| `OwnerLookup.FindCurrentSensorIdsByOwner` | src/database/repositories/cps-anchor.repository.ts:82-147 | returns, ascending and without duplicates, exactly the sensors whose newest valid record belongs to an anchor of the owner |
| `OwnerLookup.FindNewest` | src/database/repositories/cps-anchor.repository.ts:113-131 | the newest valid record of a sensor |
| `OwnerLookup.NewestIsLatest` | src/database/repositories/cps-anchor.repository.ts:113-131 | the newest valid record of a sensor has the latest time, and the largest id among those of that time |
| `OwnerLookup.OwnersAreDisjoint` | src/database/repositories/cps-anchor.repository.ts:82-147 | results of different owners are disjoint |

## Left out

- Polkadot RPC and WebSocket, HTTP, IPFS gateways and Nominatim: they appear as values, functions or failures; a failing
  read in the tree walks fails the whole call and is not modelled separately.
- Protobuf, zstd, xz, lz4, zlib, SHA-256, Ed25519 and SS58: deterministic functions of the model; a digest has 64
  hexadecimal characters, and equal digests are treated as equal contents where the original does.
- MongoDB itself: updates of one document are atomic, unique indexes hold, sorting and limits are correct.
- The block indexer's interleaving is a state machine on values, since a run across awaits of several activities is its
  subject; its loops are methods of `BlockIndexer.BlockIndexerService`. The timers' lengths play no part.
- `startBlockForce`, which is meant to break the checkpoint's order, and head callbacks after unsubscription.
- Extrinsic handlers, the Datalog and RWS handlers, the Sensor and Story services, the marker list, the deduplication
  script, CSV output, the queries for latest and largest messages, configuration, metrics plumbing and command lines.
- The legacy collections behind the projection of measurements and sensors: their writes either succeed or fail.
- Snapshot upserts concurrent with the indexer: the replay theorem is about the indexer's own upserts.
- Private sections beyond their number, and the contents of measurements beyond their kinds and scaling.
- The query that selects anchors for the backfill: its result is a parameter.
- Texts of error messages, and log lines.
- Legacy locations resolved without a region, and old documents without a payload source.
- Dates beyond the range of JavaScript's Date, which a huge retry delay could reach.
- The order in which pending locations are geocoded, and the grouping of cities for display.
- AnchorQueue.AnchorCollection.ClaimNext: does not say which of several anchors with equal block and creation time is
  taken, because the original leaves it open.
- Pagination.NothingRepeats: speaks of positions (time and id), since a record whose time changed between two requests
  has another position.
- StoredMessages.EventsAreSections: assumes that the stored rendering gives back the public sections; a rendering that
  leaves out a coordinate of exactly 0, as protobuf JSON may, would hide that fix from the query.
- SensorProjection.AddressesFit: takes one batch for all attempts at an anchor; a payload that decodes differently under
  two wire formats is not considered.
- LeasedRecords.CompletedIsSettled: speaks of online processors; a backfill of a completed anchor writes its records
  anew, for which see `Convergence.MixedAttemptsSettle`.
- CpsTree.RealtimeAgreesWithSnapshot: assumes that children is the inverse of parent, which the pallet keeps.
- SkippedBlocks.PassedOverExactly: takes the finalised heads the chain reports as arbitrary, so a node asked after a
  reconnect may be behind the one asked before.
