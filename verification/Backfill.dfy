/** The canonical backfill: a second implementation of the record pipeline, run over completed anchors. */
module Backfill {
  import opened Wrappers
  import opened CpsKeys
  import opened Protocol
  import opened Records
  import opened Archive
  import opened AnchorQueue
  import opened Pipeline
  import opened Counting
  import opened Convergence
  import opened Processor

  /** A failed candidate, as the report lists it. */
  datatype Failure = Failure(sourceKey: string, cid: Option<string>, code: BackfillErrorCode)

  datatype Report = Report(
    anchors: nat, processed: nat, processedWithErrors: nat, failed: nat, totals: BackfillCounts, failures: seq<Failure>)

  /** How one candidate ended: stored and counted, or failed. */
  datatype Ending = Stored(counts: BackfillCounts) | NotStored(failure: Failure)

  function BackfillStatusOf(c: BackfillCounts): BackfillStatus {
    if c.invalid > 0 || c.unsupported > 0 then BackfillProcessedWithErrors else BackfillProcessed
  }

  function ErrorOf(c: BackfillCounts): Option<BackfillErrorCode> {
    if BackfillStatusOf(c).BackfillProcessed? then None else Some(PartialErrors)
  }

  function WithEnding(report: Report, ending: Ending): Report {
    match ending
    case NotStored(f) => report.(failed := report.failed + 1, failures := report.failures + [f])
    case Stored(c) =>
      if BackfillStatusOf(c).BackfillProcessed?
      then report.(processed := report.processed + 1, totals := Plus(report.totals, c))
      else report.(processedWithErrors := report.processedWithErrors + 1, totals := Plus(report.totals, c))
  }

  /** The report on candidates that ended so. */
  function ReportOf(anchors: nat, endings: seq<Ending>): Report {
    if endings == [] then Report(anchors, 0, 0, 0, NO_BACKFILL_COUNTS, [])
    else WithEnding(ReportOf(anchors, endings[..|endings| - 1]), endings[|endings| - 1])
  }

  lemma OneMoreEnding(anchors: nat, endings: seq<Ending>, ending: Ending)
    ensures ReportOf(anchors, endings + [ending]) == WithEnding(ReportOf(anchors, endings), ending)
  {
    assert (endings + [ending])[..|endings|] == endings;
  }

  function EndedWith(endings: seq<Ending>, status: BackfillStatus): nat {
    if endings == [] then 0
    else
      var last := endings[|endings| - 1];
      EndedWith(endings[..|endings| - 1], status) +
      if (if last.Stored? then BackfillStatusOf(last.counts) else BackfillError) == status then 1 else 0
  }

  /** Every candidate is counted exactly once, in its class; exactly the failed ones are listed, in order. */
  lemma {:induction false} ReportAddsUp(anchors: nat, endings: seq<Ending>)
    ensures
      var r := ReportOf(anchors, endings);
      && r.anchors == anchors && r.processed + r.processedWithErrors + r.failed == |endings|
      && r.processed == EndedWith(endings, BackfillProcessed)
      && r.processedWithErrors == EndedWith(endings, BackfillProcessedWithErrors)
      && r.failed == EndedWith(endings, BackfillError) == |r.failures|
    ensures forall f :: f in ReportOf(anchors, endings).failures <==> NotStored(f) in endings
    decreases |endings|
  {
    if endings != [] {
      var front, last := endings[..|endings| - 1], endings[|endings| - 1];
      ReportAddsUp(anchors, front);
      assert forall e :: e in endings <==> e in front || e == last;
    }
  }

  datatype Column = ItsRecords | ItsInvalid | ItsUnsupported | ItsPrivateSections | ItsPrivateOnly

  function Entry(c: BackfillCounts, column: Column): nat {
    match column
    case ItsRecords => c.records
    case ItsInvalid => c.invalid
    case ItsUnsupported => c.unsupported
    case ItsPrivateSections => c.privateSections
    case ItsPrivateOnly => c.privateOnly
  }

  function Sum(endings: seq<Ending>, column: Column): nat {
    if endings == [] then 0
    else
      var last := endings[|endings| - 1];
      Sum(endings[..|endings| - 1], column) + if last.Stored? then Entry(last.counts, column) else 0
  }

  /** The totals of the report are the sums over all candidates whose records were stored, with or without errors. */
  lemma {:induction false} TotalsAddUp(anchors: nat, endings: seq<Ending>, column: Column)
    ensures Entry(ReportOf(anchors, endings).totals, column) == Sum(endings, column)
    decreases |endings|
  {
    if endings != [] { TotalsAddUp(anchors, endings[..|endings| - 1], column); }
  }

  lemma {:induction false} BackfillWritesGrow(job: Job, envelopes: seq<Envelope>, k: nat)
    requires k <= |envelopes|
    ensures BackfillEnvelopesWrites(job, envelopes[..k]) <= BackfillEnvelopesWrites(job, envelopes)
  {
    if k < |envelopes| {
      BackfillWritesGrow(job, envelopes[..|envelopes| - 1], k);
      assert envelopes[..|envelopes| - 1][..k] == envelopes[..k];
    } else {
      assert envelopes[..k] == envelopes;
    }
  }

  lemma BackfillStep(job: Job, envelopes: seq<Envelope>, k: nat)
    requires k < |envelopes|
    ensures BackfillEnvelopesWrites(job, envelopes[..k + 1])
              == BackfillEnvelopesWrites(job, envelopes[..k]) + BackfillEnvelopeWrites(job, envelopes[k])
    ensures BackfillEnvelopesWrites(job, envelopes[..k]) + BackfillEnvelopeWrites(job, envelopes[k])
              <= BackfillEnvelopesWrites(job, envelopes)
    ensures BackfillTally(job, envelopes[..k + 1])
              == Plus(BackfillTally(job, envelopes[..k]), BackfillVerdict(job, envelopes[k]))
  {
    assert envelopes[..k + 1][..k] == envelopes[..k];
    BackfillWritesGrow(job, envelopes, k + 1);
  }

  lemma BackfillProgress(job: Job, envelopes: seq<Envelope>, k: nat, now: seq<Record>)
    requires k < |envelopes| && now <= BackfillEnvelopeWrites(job, envelopes[k])
    ensures BackfillEnvelopesWrites(job, envelopes[..k]) + now <= BackfillEnvelopesWrites(job, envelopes)
    ensures now == BackfillEnvelopeWrites(job, envelopes[k]) ==>
      BackfillEnvelopesWrites(job, envelopes[..k]) + now == BackfillEnvelopesWrites(job, envelopes[..k + 1])
    ensures BackfillTally(job, envelopes[..k + 1])
              == Plus(BackfillTally(job, envelopes[..k]), BackfillVerdict(job, envelopes[k]))
  {
    BackfillStep(job, envelopes, k);
    PrefixOfPart(BackfillEnvelopesWrites(job, envelopes[..k]), now, BackfillEnvelopeWrites(job, envelopes[k]),
      BackfillEnvelopesWrites(job, envelopes));
  }

  /** The decode status of the stored record tells the backfill how to count the message. */
  lemma DecodeStatusTells(job: Job, e: Envelope, m: Message)
    ensures
      var status := ApplyDecodedMessage(CreateEnvelopeRecord(job.provenance, e), m).decodeStatus;
      && (status.DecodeError? <==> BackfillMessage(job, m) == ONE_RECORD.(invalid := 1))
      && (!status.DecodeError? && !m.payload.Supported() <==> BackfillMessage(job, m) == ONE_RECORD.(unsupported := 1))
      && (!status.DecodeError? && m.payload.Supported() ==>
            BackfillMessage(job, m).privateSections == m.payload.privateCount && Clean(BackfillMessage(job, m)))
  {
  }

  /** One candidate of a run: the anchors and the archive before it, how it ended and what was written for it. */
  datatype Round = Round(
    before: Anchors, archived: Payloads, anchor: Anchor, ending: Ending, written: seq<Record>)

  function EndingsOf(rounds: seq<Round>): seq<Ending> {
    if rounds == [] then [] else EndingsOf(rounds[..|rounds| - 1]) + [rounds[|rounds| - 1].ending]
  }

  function RoundsWritten(rounds: seq<Round>): seq<Record> {
    if rounds == [] then [] else RoundsWritten(rounds[..|rounds| - 1]) + rounds[|rounds| - 1].written
  }

  lemma OneMoreRound(rounds: seq<Round>, x: Round)
    ensures EndingsOf(rounds + [x]) == EndingsOf(rounds) + [x.ending]
    ensures RoundsWritten(rounds + [x]) == RoundsWritten(rounds) + x.written
  {
    assert (rounds + [x])[..|rounds|] == rounds;
  }

  lemma SameQueueTransitive(a: Anchors, b: Anchors, c: Anchors)
    requires SameQueue(a, b) && SameQueue(b, c)
    ensures SameQueue(a, c)
  {
  }

  /** Why the records of an anchor were not stored: a code for the report, unless the process died. */
  datatype StoreError = Coded(code: BackfillErrorCode) | ProcessDied

  function AsStoreError(f: Fault): StoreError { if f.Thrown? then Coded(BackfillFailed) else ProcessDied }

  class CpsBackfill {
    const config: Config
    const world: World
    const anchors: AnchorCollection
    const archive: PayloadCollection
    const records: RecordCollection
    /** How many calls outside the collections have failed: IPFS and the signature backend. */
    ghost var faults: nat

    /** All calls that have failed. */
    ghost function Faults(): nat
      reads this, anchors, archive, records
    {
      faults + anchors.faults + archive.faults + records.faults
    }

    constructor (
        config: Config, world: World, anchors: AnchorCollection, archive: PayloadCollection, records: RecordCollection)
      ensures this.config == config && this.world == world && this.anchors == anchors
      ensures this.archive == archive && this.records == records && faults == 0
    {
      faults := 0;
      this.config, this.world, this.anchors, this.archive, this.records := config, world, anchors, archive, records;
    }

    /** Stores one envelope's records and counts them and the message. */
    method StoreEnvelope(job: Job, e: Envelope) returns (r: Result<BackfillCounts, Fault>, ghost written: seq<Record>)
      requires records.Valid()
      modifies this`faults, records
      ensures records.Valid() && records.log == old(records.log) + written
      ensures written <= BackfillEnvelopeWrites(job, e)
      ensures r.Ok? ==> r.value == BackfillVerdict(job, e) && written == BackfillEnvelopeWrites(job, e)
      ensures Faults() >= old(Faults()) && (r.Err? <==> Faults() > old(Faults()))
    {
      var first := CreateEnvelopeRecord(job.provenance, e);
      var count := NO_BACKFILL_COUNTS;
      var o;
      o, written := records.UpsertRecord(first);
      if o.Fail? { return Err(o.error), written; }
      count := count.(records := count.records + 1);
      if * { faults := faults + 1; return Err(Thrown), written; }  // the Ed25519 backend is unavailable
      var last;
      count, last := Classify(job, e, first, count);
      ghost var more;
      o, more := records.UpsertRecord(last);
      PrefixOfPart([first], more, [last], [first] + [last]);
      ConcatAssociates(old(records.log), written, more);
      written := written + more;
      if o.Fail? { return Err(o.error), written; }
      return Ok(count), written;
    }

    /** The second record of an envelope, and its count with the message in it. */
    method Classify(job: Job, e: Envelope, first: Record, count: BackfillCounts)
      returns (counted: BackfillCounts, last: Record)
      requires first == CreateEnvelopeRecord(job.provenance, e) && count == ONE_RECORD
      ensures counted == BackfillVerdict(job, e) && last == CanonicalRecord(job, e)
    {
      counted := count;
      var failure := job.codec.signatureError(e.fields);
      if failure.Some? { return count.(invalid := count.invalid + 1), WithBadSignature(first, failure.value); }
      var message := job.codec.parseMessage(e.fields.message);
      if message.None? { return count.(invalid := count.invalid + 1), WithMalformedMessage(first); }
      DecodeStatusTells(job, e, message.value);
      last := ApplyDecodedMessage(first, message.value);
      if last.decodeStatus.DecodeError? {
        counted := counted.(invalid := counted.invalid + 1);
      } else if !message.value.payload.Supported() {
        counted := counted.(unsupported := counted.unsupported + 1);
      } else {
        var privateCount := message.value.payload.privateCount;
        counted := counted.(privateSections := counted.privateSections + privateCount);
        if |message.value.payload.public| == 0 && privateCount > 0 {
          counted := counted.(privateOnly := counted.privateOnly + 1);
        }
      }
    }

    method StoreEnvelopes(job: Job, envelopes: seq<Envelope>)
      returns (r: Result<BackfillCounts, Fault>, ghost written: seq<Record>)
      requires records.Valid()
      modifies this`faults, records
      ensures records.Valid() && records.log == old(records.log) + written
      ensures written <= BackfillEnvelopesWrites(job, envelopes)
      ensures r.Ok? ==> r.value == BackfillTally(job, envelopes) && written == BackfillEnvelopesWrites(job, envelopes)
      ensures Faults() >= old(Faults()) && (r.Err? <==> Faults() > old(Faults()))
    {
      written := [];
      var counts := NO_BACKFILL_COUNTS;
      for k := 0 to |envelopes|
        invariant records.Valid() && records.log == old(records.log) + written
        invariant written == BackfillEnvelopesWrites(job, envelopes[..k])
        invariant counts == BackfillTally(job, envelopes[..k]) && Faults() == old(Faults())
      {
        var count;
        ghost var w;
        count, w := StoreEnvelope(job, envelopes[k]);
        BackfillProgress(job, envelopes, k, w);
        ConcatAssociates(old(records.log), written, w);
        written := written + w;
        if count.Err? { return Err(count.error), written; }
        counts := Plus(counts, count.value);
      }
      assert envelopes[..|envelopes|] == envelopes;
      return Ok(counts), written;
    }

    /** Stores the diagnostic records and counts them. */
    method StoreStructuralErrors(p: Provenance, g: ErrorGroups)
      returns (r: Result<nat, Fault>, ghost written: seq<Record>)
      requires records.Valid() && forall i :: i in g.order ==> i in g.codes
      modifies records
      ensures records.Valid() && records.log == old(records.log) + written
      ensures written <= GroupWrites(p, g, g.order)
      ensures r.Ok? ==> written == GroupWrites(p, g, g.order) && r.value == |g.order|
      ensures Faults() >= old(Faults()) && (r.Err? <==> Faults() > old(Faults()))
    {
      written := [];
      var stored := 0;
      for k := 0 to |g.order|
        invariant records.Valid() && records.log == old(records.log) + written
        invariant written == GroupWrites(p, g, g.order[..k]) && stored == k && Faults() == old(Faults())
      {
        var record := CreateInvalidEnvelopeRecord(p, g.order[k], g.codes[g.order[k]]);
        var o;
        ghost var w;
        o, w := records.UpsertRecord(record);
        GroupProgress(p, g, k, written, w);
        ConcatAssociates(old(records.log), written, w);
        written := written + w;
        if o.Fail? { return Err(o.error), written; }
        stored := stored + 1;
      }
      assert g.order[..|g.order|] == g.order;
      return Ok(stored), written;
    }

    /** Stores all records of a decoded batch and counts them. */
    method StoreRecords(job: Job, ghost batch: seq<RawEnvelope>, decoded: DecodedBatch)
      returns (r: Result<BackfillCounts, Fault>, ghost written: seq<Record>)
      requires records.Valid() && decoded == DecodedOf(batch)
      modifies this`faults, records
      ensures records.Valid() && records.log == old(records.log) + written
      ensures written <= BackfillWrites(job, batch)
      ensures r.Ok? ==> r.value == BackfillCountsOf(job, batch) && written == BackfillWrites(job, batch)
      ensures Faults() >= old(Faults()) && (r.Err? <==> Faults() > old(Faults()))
    {
      var g := GroupStructuralErrors(decoded.errors);
      ghost var structural := StructuralWrites(job.provenance, batch);
      ghost var rest := BackfillEnvelopesWrites(job, ValidEnvelopes(batch));
      BatchGroups(job.provenance, batch);
      AttemptParts(structural, rest, []);
      var stored;
      stored, written := StoreStructuralErrors(job.provenance, g);
      if stored.Err? { return Err(stored.error), written; }
      var counts;
      ghost var more;
      counts, more := StoreEnvelopes(job, decoded.envelopes);
      PrefixOfPart(written, more, rest, structural + rest);
      ConcatAssociates(old(records.log), written, more);
      written := written + more;
      if counts.Err? { return Err(counts.error), written; }
      return Ok(Plus(BackfillCounts(stored.value, |g.order|, 0, 0, 0), counts.value)), written;
    }

    /** The archive holds other content under the anchor's key. */
    ghost predicate Conflicts(anchor: Anchor, docs: Payloads) {
      var key, payload := anchor.sourceKey, Resolve(anchor, world, config.ipfsWireFormat);
      payload.Ok? && key in docs
      && (docs[key].size != |payload.value.bytes| || docs[key].digest != world.sha256(payload.value.bytes))
    }

    ghost predicate Usable(anchor: Anchor, docs: Payloads) {
      Opens(anchor, world, config) && !Conflicts(anchor, docs)
    }

    /** The code of a candidate that cannot be stored although no call fails. */
    ghost predicate FailsOf(anchor: Anchor, docs: Payloads, code: BackfillErrorCode) {
      if Resolve(anchor, world, config.ipfsWireFormat).Err? then code == BackfillFailed
      else if Conflicts(anchor, docs) then code == PayloadConflict
      else EnvelopesIn(anchor, world, config).Err? && code == BatchUnusable(EnvelopesIn(anchor, world, config).error)
    }

    /** How a candidate ends when no call fails. */
    ghost predicate Undisturbed(anchor: Anchor, archived: Payloads, ending: Ending) {
      if Usable(anchor, archived) then ending.Stored?
      else ending.NotStored? && FailsOf(anchor, archived, ending.failure.code)
    }

    /** Archives the payload and stores its canonical records; the archive is written whatever the configuration
        says. */
    method StoreCanonical(anchor: Anchor) returns (r: Result<BackfillCounts, StoreError>, ghost written: seq<Record>)
      requires records.Valid()
      modifies this`faults, archive, records
      ensures records.Valid() && records.log == old(records.log) + written
      ensures !Opens(anchor, world, config) ==> r.Err? && written == []
      ensures Opens(anchor, world, config) ==>
                written <= BackfillWrites(JobOf(anchor, world), PayloadBatch(anchor, world, config))
      ensures r.Ok? ==>
                && Opens(anchor, world, config)
                && r.value == BackfillCountsOf(JobOf(anchor, world), PayloadBatch(anchor, world, config))
      ensures r.Ok? ==> written == BackfillWrites(JobOf(anchor, world), PayloadBatch(anchor, world, config))
      ensures r.Err? ==> Explained(anchor, r.error)
      ensures r.Ok? ==>
        && anchor.sourceKey in archive.docs && archive.docs[anchor.sourceKey].errorCode == None
        && archive.docs[anchor.sourceKey].status
          == if r.value.invalid == 0 && r.value.unsupported == 0 then PayloadDecoded else PayloadDecodedWithErrors
      ensures r.Err? && r.error.Coded? && r.error.code.BatchUnusable? ==>
        && anchor.sourceKey in archive.docs && archive.docs[anchor.sourceKey].status == PayloadError
        && archive.docs[anchor.sourceKey].errorCode == Some(r.error.code.code)
      ensures Faults() >= old(Faults()) && Keeps(old(archive.docs), archive.docs)
      ensures Faults() == old(Faults()) ==>
                && (r.Ok? <==> Usable(anchor, old(archive.docs)))
                && (r.Err? ==> r.error.Coded? && FailsOf(anchor, old(archive.docs), r.error.code))
    {
      var batch := OpenAndArchive(anchor);
      if batch.Err? { return Err(batch.error), []; }
      var counts;
      counts, written := StoreRecords(JobOf(anchor, world), PayloadBatch(anchor, world, config), batch.value);
      if counts.Err? { return Err(AsStoreError(counts.error)), written; }
      var marked := archive.UpdateDecodeStatus(anchor.sourceKey,
        if BackfillStatusOf(counts.value).BackfillProcessed? then PayloadDecoded else PayloadDecodedWithErrors, None);
      if marked.Fail? { return Err(AsStoreError(marked.error)), written; }
      return Ok(counts.value), written;
    }

    /** A batch is called unusable only if it is, and with its code. */
    ghost predicate Explained(anchor: Anchor, error: StoreError) {
      error.Coded? && error.code.BatchUnusable? ==>
        Resolve(anchor, world, config.ipfsWireFormat).Ok? && EnvelopesIn(anchor, world, config) == Err(error.code.code)
    }

    method OpenAndArchive(anchor: Anchor) returns (r: Result<DecodedBatch, StoreError>)
      modifies this`faults, archive
      ensures r.Ok? ==>
                Opens(anchor, world, config) && r.value == DecodedOf(PayloadBatch(anchor, world, config))
      ensures r.Err? ==> Explained(anchor, r.error)
      ensures r.Ok? || (r.error.Coded? && r.error.code.BatchUnusable?) ==> anchor.sourceKey in archive.docs
      ensures r.Err? && r.error.Coded? && r.error.code.BatchUnusable? ==>
        && archive.docs[anchor.sourceKey].status == PayloadError
        && archive.docs[anchor.sourceKey].errorCode == Some(r.error.code.code)
      ensures Faults() >= old(Faults()) && Keeps(old(archive.docs), archive.docs)
      ensures Faults() == old(Faults()) ==>
                && (r.Ok? <==> Usable(anchor, old(archive.docs)))
                && (r.Err? ==> r.error.Coded? && FailsOf(anchor, old(archive.docs), r.error.code))
    {
      var resolved := Resolve(anchor, world, config.ipfsWireFormat);
      if resolved.Err? { return Err(Coded(BackfillFailed)); }
      if * { faults := faults + 1; return Err(Coded(BackfillFailed)); }  // every IPFS gateway failed
      var stored := archive.UpsertFetched(anchor.sourceKey, resolved.value.bytes, resolved.value.format, world.sha256);
      if stored == Fail(ContentConflict) { return Err(Coded(PayloadConflict)); }
      if stored.Fail? { return Err(AsStoreError(stored.error.fault)); }
      var batch := DecodePayload(world.codec, config.limits, resolved.value.bytes, resolved.value.format);
      if batch.Err? {
        var marked := archive.UpdateDecodeStatus(anchor.sourceKey, PayloadError, Some(batch.error));
        if marked.Fail? { return Err(AsStoreError(marked.error)); }
        return Err(Coded(BatchUnusable(batch.error)));
      }
      return Ok(batch.value);
    }

    /** The collection after one candidate: its backfill fields tell how it ended, the queue is untouched. */
    function Recorded(docs: Anchors, key: string, ending: Ending): Anchors {
      var started := BackfillStarted(docs, key);
      match ending
      case Stored(c) => BackfillFinished(started, key, BackfillStatusOf(c), c, ErrorOf(c))
      case NotStored(f) => BackfillFinished(started, key, BackfillError, NO_BACKFILL_COUNTS, Some(f.code))
    }

    ghost predicate StoredAs(anchor: Anchor, c: BackfillCounts, written: seq<Record>) {
      && Opens(anchor, world, config)
      && c == BackfillCountsOf(JobOf(anchor, world), PayloadBatch(anchor, world, config))
      && written == BackfillWrites(JobOf(anchor, world), PayloadBatch(anchor, world, config))
    }

    /** The ending is one the candidate and what was written for it account for. */
    ghost predicate Accounted(anchor: Anchor, ending: Ending, written: seq<Record>) {
      match ending
      case Stored(c) => StoredAs(anchor, c, written)
      case NotStored(f) =>
        && f.sourceKey == anchor.sourceKey && f.cid == (if anchor.ref.Ipfs? then Some(anchor.ref.cid) else None)
        && Explained(anchor, Coded(f.code))
        && if Opens(anchor, world, config) then
             written <= BackfillWrites(JobOf(anchor, world), PayloadBatch(anchor, world, config))
           else written == []
    }

    /** What the candidate's backfill fields say afterwards: one more attempt, and how it ended; complete counts with an
        error code exactly if something was invalid or unsupported, or the code of the failure. */
    ghost predicate Tells(before: BackfillState, after: BackfillState, anchor: Anchor, ending: Ending) {
      && after.attempts == before.attempts + 1
      && match ending
         case Stored(_) =>
           && Opens(anchor, world, config)
           && BackfillCountsBatch(after.counts, JobOf(anchor, world), PayloadBatch(anchor, world, config))
           && if after.counts.invalid == 0 && after.counts.unsupported == 0 then
                after.status == Some(BackfillProcessed) && after.errorCode == None
              else
                after.status == Some(BackfillProcessedWithErrors) && after.errorCode == Some(PartialErrors)
         case NotStored(f) =>
           after == BackfillState(Some(BackfillError), after.attempts, NO_BACKFILL_COUNTS, Some(f.code))
    }

    lemma RecordedTells(docs: Anchors, anchor: Anchor, ending: Ending, written: seq<Record>)
      requires Accounted(anchor, ending, written) && anchor.sourceKey in docs
      ensures
        var after := Recorded(docs, anchor.sourceKey, ending);
        && anchor.sourceKey in after
        && Tells(docs[anchor.sourceKey].backfill, after[anchor.sourceKey].backfill, anchor, ending)
    {
      if ending.Stored? { BackfillCountsMeaning(JobOf(anchor, world), PayloadBatch(anchor, world, config)); }
    }

    /** Every position of the anchor's batch holds its canonical record. */
    ghost predicate Canonical(anchor: Anchor, store: Store) {
      && Opens(anchor, world, config)
      && var batch := PayloadBatch(anchor, world, config);
         forall i :: 0 <= i < |batch| ==> CanonicallySettled(JobOf(anchor, world), batch, store, i)
    }

    lemma StoredIsCanonical(anchor: Anchor, ending: Ending, written: seq<Record>, store: Store)
      requires ending.Stored? && Accounted(anchor, ending, written)
      ensures Canonical(anchor, PutAll(store, written))
    {
      var job, batch := JobOf(anchor, world), PayloadBatch(anchor, world, config);
      forall i | 0 <= i < |batch| ensures CanonicallySettled(job, batch, PutAll(store, written), i) {
        CompleteAttempt(job, batch, i);
        CanonicalRecordKey(job, Envelope(i, batch[i]));
        PutAllIsLastWrite(store, written, RecordKey(job.provenance.sourceKey, i));
      }
    }

    /** A candidate is reported as processed exactly when its stored batch is clean. */
    lemma EndingIsReported(anchor: Anchor, report: Report, ending: Ending, written: seq<Record>)
      requires ending.Stored? ==> StoredAs(anchor, ending.counts, written)
      ensures
        var updated := WithEnding(report, ending);
        && (updated.processed == report.processed + 1 ==> CleanRun(anchor, written))
        && (updated.processedWithErrors == report.processedWithErrors + 1 ==>
              && Opens(anchor, world, config)
              && !BackfillClean(JobOf(anchor, world), PayloadBatch(anchor, world, config)))
    {
    }

    /** One candidate. Its failure is recorded and does not stop the others; the queue's own status, lease and counters
        never change. It is reported as processed exactly when its batch was stored and is clean. */
    method ProcessAnchor(anchor: Anchor, report: Report)
      returns (o: Outcome<Fault>, updated: Report, ghost ending: Ending, ghost written: seq<Record>)
      requires records.Valid()
      modifies this`faults, anchors`docs, anchors`faults, archive, records
      ensures records.Valid() && records.log == old(records.log) + written
      ensures SameQueue(anchors.docs, old(anchors.docs))
      ensures o.Pass? ==> updated == WithEnding(report, ending) && Accounted(anchor, ending, written)
      ensures o.Pass? ==> anchors.docs == Recorded(old(anchors.docs), anchor.sourceKey, ending)
      ensures o.Pass? && anchor.sourceKey in anchors.docs ==>
                Tells(old(anchors.docs)[anchor.sourceKey].backfill, anchors.docs[anchor.sourceKey].backfill, anchor,
                  ending)
      ensures o.Pass? ==>
                forall k :: k in anchors.docs && k != anchor.sourceKey ==> anchors.docs[k] == old(anchors.docs)[k]
      ensures o.Pass? && ending.Stored? ==> Canonical(anchor, records.store)
      ensures o.Pass? && updated.processed == report.processed + 1 ==> CleanRun(anchor, written)
      ensures o.Pass? && updated.processedWithErrors == report.processedWithErrors + 1 ==>
                && Opens(anchor, world, config)
                && !BackfillClean(JobOf(anchor, world), PayloadBatch(anchor, world, config))
      ensures Faults() >= old(Faults()) && Keeps(old(archive.docs), archive.docs)
      ensures Faults() == old(Faults()) ==> o.Pass? && Undisturbed(anchor, old(archive.docs), ending)
    {
      o, updated, ending, written := ProcessCandidate(anchor, report);
      if o.Pass? {
        EndingIsReported(anchor, report, ending, written);
        PutAllConcat(records.initial, old(records.log), written);
        if ending.Stored? { StoredIsCanonical(anchor, ending, written, old(records.store)); }
        if anchor.sourceKey in anchors.docs { RecordedTells(old(anchors.docs), anchor, ending, written); }
      }
    }

    method ProcessCandidate(anchor: Anchor, report: Report)
      returns (o: Outcome<Fault>, updated: Report, ghost ending: Ending, ghost written: seq<Record>)
      requires records.Valid()
      modifies this`faults, anchors`docs, anchors`faults, archive, records
      ensures records.Valid() && records.log == old(records.log) + written
      ensures SameQueue(anchors.docs, old(anchors.docs))
      ensures o.Pass? ==> updated == WithEnding(report, ending) && Accounted(anchor, ending, written)
      ensures o.Pass? ==> anchors.docs == Recorded(old(anchors.docs), anchor.sourceKey, ending)
      ensures Faults() >= old(Faults()) && Keeps(old(archive.docs), archive.docs)
      ensures Faults() == old(Faults()) ==> o.Pass? && Undisturbed(anchor, old(archive.docs), ending)
    {
      updated, written := report, [];
      ghost var before := anchors.docs;
      ending := NotStored(Failure(anchor.sourceKey, None, BackfillFailed));
      BackfillKeepsQueue(before, anchor.sourceKey);
      o := anchors.MarkBackfillStarted(anchor.sourceKey);
      if o.Fail? { return; }
      var result;
      result, written := StoreCanonical(anchor);
      if result.Err? && result.error.ProcessDied? { return Fail(Crashed), report, ending, written; }
      o, updated, ending :=
        Conclude(before, anchor, if result.Ok? then Ok(result.value) else Err(result.error.code), report);
    }

    /** How the candidate is listed if it failed. */
    function FailureOf(anchor: Anchor, code: BackfillErrorCode): Failure {
      Failure(anchor.sourceKey, if anchor.ref.Ipfs? then Some(anchor.ref.cid) else None, code)
    }

    /** Records how a candidate ended. A result that cannot be recorded counts as a failure. */
    method Conclude(ghost before: Anchors, anchor: Anchor, result: Result<BackfillCounts, BackfillErrorCode>,
      report: Report) returns (o: Outcome<Fault>, updated: Report, ghost ending: Ending)
      requires anchors.docs == BackfillStarted(before, anchor.sourceKey)
      modifies anchors`docs, anchors`faults
      ensures SameQueue(anchors.docs, before) && anchors.faults >= old(anchors.faults)
      ensures o.Pass? ==>
                updated == WithEnding(report, ending) && anchors.docs == Recorded(before, anchor.sourceKey, ending)
      ensures o.Pass? && ending.Stored? ==> result.Ok? && ending.counts == result.value
      ensures o.Pass? && ending.NotStored? ==>
                ending.failure == FailureOf(anchor, if result.Err? then result.error else BackfillFailed)
      ensures anchors.faults == old(anchors.faults) ==> o.Pass? && (ending.Stored? <==> result.Ok?)
    {
      var key := anchor.sourceKey;
      updated := report;
      BackfillKeepsQueue(before, key);
      var code := if result.Err? then result.error else BackfillFailed;
      ending := NotStored(FailureOf(anchor, code));
      if result.Ok? {
        var c := result.value;
        o := anchors.UpdateBackfillResult(key, BackfillStatusOf(c), c, ErrorOf(c));
        if o.Pass? { return Pass, WithEnding(report, Stored(c)), Stored(c); }
        if o.error.Crashed? { return; }
        BackfillFinishedTwice(BackfillStarted(before, key), key, BackfillStatusOf(c), c, ErrorOf(c), BackfillError,
          NO_BACKFILL_COUNTS, Some(code));
      }
      o := anchors.UpdateBackfillResult(key, BackfillError, NO_BACKFILL_COUNTS, Some(code));
      if o.Pass? { updated := WithEnding(report, NotStored(FailureOf(anchor, code))); }
    }

    /** Nothing the backfill does to the collection touches the queue. */
    lemma BackfillKeepsQueue(docs: Anchors, key: string)
      ensures SameQueue(BackfillStarted(docs, key), docs)
      ensures forall status, counts, error ::
                SameQueue(BackfillFinished(BackfillStarted(docs, key), key, status, counts, error), docs)
    {
    }

    /** A run that stored the whole batch without a single error. */
    ghost predicate CleanRun(anchor: Anchor, written: seq<Record>) {
      && Opens(anchor, world, config) && BackfillClean(JobOf(anchor, world), PayloadBatch(anchor, world, config))
      && written == BackfillWrites(JobOf(anchor, world), PayloadBatch(anchor, world, config))
    }

    /** Where a run has got to. */
    ghost function Now(): Moment
      reads this, anchors, archive, records
    {
      Moment(anchors.docs, archive.docs, anchors.log, records.log, records.store, 0, Faults())
    }

    /** The anchors when a candidate is done. */
    function After(x: Round): Anchors {
      Recorded(x.before, x.anchor.sourceKey, x.ending)
    }

    function AnchorsAfter(docs: Anchors, rounds: seq<Round>): Anchors {
      if rounds == [] then docs else After(rounds[|rounds| - 1])
    }

    /** One candidate takes the run from one moment to the next. */
    ghost predicate Rounding(before: Moment, x: Round, now: Moment) {
      && x.before == before.docs && x.archived == before.archived && Accounted(x.anchor, x.ending, x.written)
      && now.docs == After(x) && now.written == before.written + x.written
      && now.store == PutAll(before.store, x.written) && Keeps(before.archived, now.archived)
      && before.faults <= now.faults
      && (now.faults == before.faults ==> Undisturbed(x.anchor, x.archived, x.ending))
    }

    /** Each candidate starts where the one before ended and is accounted for; its backfill fields tell how it ended,
        and if it was stored, its records were canonical when it was done. */
    ghost predicate RoundAt(s: Moment, rounds: seq<Round>, k: nat)
      requires k < |rounds|
    {
      var x := rounds[k];
      && x.before == AnchorsAfter(s.docs, rounds[..k]) && Accounted(x.anchor, x.ending, x.written)
      && TellsAfter(x)
      && (x.ending.Stored? ==> Canonical(x.anchor, PutAll(s.store, RoundsWritten(rounds[..k + 1]))))
    }

    ghost predicate TellsAfter(x: Round) {
      var key := x.anchor.sourceKey;
      key in x.before ==>
        key in After(x) && Tells(x.before[key].backfill, After(x)[key].backfill, x.anchor, x.ending)
    }

    lemma RoundTells(x: Round)
      requires Accounted(x.anchor, x.ending, x.written)
      ensures TellsAfter(x)
    {
      if x.anchor.sourceKey in x.before { RecordedTells(x.before, x.anchor, x.ending, x.written); }
    }

    lemma RoundIsCanonical(store: Store, rounds: seq<Round>, x: Round)
      requires Accounted(x.anchor, x.ending, x.written) && x.ending.Stored?
      ensures Canonical(x.anchor, PutAll(store, RoundsWritten(rounds + [x])))
    {
      OneMoreRound(rounds, x);
      PutAllConcat(store, RoundsWritten(rounds), x.written);
      StoredIsCanonical(x.anchor, x.ending, x.written, PutAll(store, RoundsWritten(rounds)));
    }

    ghost predicate ArchivedAt(before: Payloads, rounds: seq<Round>, k: nat, after: Payloads)
      requires k < |rounds|
    {
      Keeps(before, rounds[k].archived) && Keeps(rounds[k].archived, after)
    }

    ghost predicate UndisturbedAt(rounds: seq<Round>, k: nat)
      requires k < |rounds|
    {
      Undisturbed(rounds[k].anchor, rounds[k].archived, rounds[k].ending)
    }

    /** What a run has done from one moment to another. */
    ghost predicate Ran(s: Moment, rounds: seq<Round>, now: Moment) {
      && (forall k :: 0 <= k < |rounds| ==> RoundAt(s, rounds, k) && ArchivedAt(s.archived, rounds, k, now.archived))
      && now.docs == AnchorsAfter(s.docs, rounds) && now.written == s.written + RoundsWritten(rounds)
      && now.store == PutAll(s.store, RoundsWritten(rounds)) && Keeps(s.archived, now.archived)
      && s.faults <= now.faults
      && (now.faults == s.faults ==> forall k :: 0 <= k < |rounds| ==> UndisturbedAt(rounds, k))
    }

    lemma LastRound(s: Moment, rounds: seq<Round>, x: Round)
      requires x.before == AnchorsAfter(s.docs, rounds) && Accounted(x.anchor, x.ending, x.written)
      ensures RoundAt(s, rounds + [x], |rounds|)
    {
      var more := rounds + [x];
      assert more[..|rounds|] == rounds && more[..|rounds| + 1] == more;
      RoundTells(x);
      if x.ending.Stored? { RoundIsCanonical(s.store, rounds, x); }
    }

    lemma RoundsGrow(s: Moment, rounds: seq<Round>, x: Round, middle: Payloads, after: Payloads)
      requires forall k :: 0 <= k < |rounds| ==> RoundAt(s, rounds, k) && ArchivedAt(s.archived, rounds, k, middle)
      requires RoundAt(s, rounds + [x], |rounds|)
      requires Keeps(s.archived, middle) && x.archived == middle && Keeps(middle, after)
      ensures forall k :: 0 <= k < |rounds + [x]| ==>
                RoundAt(s, rounds + [x], k) && ArchivedAt(s.archived, rounds + [x], k, after)
      ensures Keeps(s.archived, after)
    {
      var more := rounds + [x];
      forall k | 0 <= k < |more|
        ensures RoundAt(s, more, k) && ArchivedAt(s.archived, more, k, after)
      {
        if k < |rounds| {
          assert RoundAt(s, rounds, k) && ArchivedAt(s.archived, rounds, k, middle);
          assert more[..k] == rounds[..k] && more[..k + 1] == rounds[..k + 1];
        }
      }
    }

    lemma RunGrows(s: Moment, rounds: seq<Round>, before: Moment, x: Round, now: Moment)
      requires Ran(s, rounds, before) && Rounding(before, x, now)
      ensures Ran(s, rounds + [x], now)
    {
      LastRound(s, rounds, x);
      RoundsGrow(s, rounds, x, before.archived, now.archived);
      OneMoreRound(rounds, x);
      PutAllConcat(s.store, RoundsWritten(rounds), x.written);
      ConcatAssociates(s.written, RoundsWritten(rounds), x.written);
      if now.faults == s.faults { UndisturbedGrow(rounds, x); }
    }

    lemma UndisturbedGrow(rounds: seq<Round>, x: Round)
      requires forall k :: 0 <= k < |rounds| ==> UndisturbedAt(rounds, k)
      requires Undisturbed(x.anchor, x.archived, x.ending)
      ensures forall k :: 0 <= k < |rounds + [x]| ==> UndisturbedAt(rounds + [x], k)
    {
      forall k | 0 <= k < |rounds + [x]| ensures UndisturbedAt(rounds + [x], k) {
        assert k < |rounds| ==> UndisturbedAt(rounds, k);
      }
    }

    /** The rounds are those of the first candidates, in order. */
    ghost predicate OfCandidates(candidates: seq<Anchor>, rounds: seq<Round>) {
      |rounds| <= |candidates| && forall k :: 0 <= k < |rounds| ==> rounds[k].anchor == candidates[k]
    }

    /** One bounded batch of candidates, unless it is a dry run. `rounds` are the candidates that were dealt with;
        without a failing call these are all of them, and each is stored unless its payload cannot be. A run fails only
        in the middle of a candidate; `reached` is the moment before it. */
    method Run(candidates: seq<Anchor>, dryRun: bool)
      returns (o: Outcome<Fault>, report: Report, ghost rounds: seq<Round>, ghost reached: Moment)
      requires records.Valid()
      modifies this`faults, anchors`docs, anchors`faults, archive, records
      ensures records.Valid() && SameQueue(anchors.docs, old(anchors.docs))
      ensures dryRun ==> o.Pass? && rounds == [] && report == ReportOf(|candidates|, []) && Now() == old(Now())
      ensures OfCandidates(candidates, rounds) && Ran(old(Now()), rounds, reached)
      ensures !dryRun && o.Pass? ==> |rounds| == |candidates|
      ensures o.Pass? ==> reached == Now() && report == ReportOf(|candidates|, EndingsOf(rounds))
      ensures o.Fail? ==> |rounds| < |candidates| && Faults() > old(Faults()) && reached.written <= records.log
    {
      rounds, reached, o := [], Now(), Pass;
      report := Report(|candidates|, 0, 0, 0, NO_BACKFILL_COUNTS, []);
      if !dryRun { o, report, rounds, reached := RunAll(candidates); }
    }

    method RunAll(candidates: seq<Anchor>)
      returns (o: Outcome<Fault>, report: Report, ghost rounds: seq<Round>, ghost reached: Moment)
      requires records.Valid()
      modifies this`faults, anchors`docs, anchors`faults, archive, records
      ensures records.Valid() && SameQueue(anchors.docs, old(anchors.docs))
      ensures OfCandidates(candidates, rounds) && Ran(old(Now()), rounds, reached)
      ensures o.Pass? ==>
                && |rounds| == |candidates| && reached == Now()
                && report == ReportOf(|candidates|, EndingsOf(rounds))
      ensures o.Fail? ==> |rounds| < |candidates| && Faults() > old(Faults()) && reached.written <= records.log
    {
      rounds, reached, o := [], Now(), Pass;
      report := Report(|candidates|, 0, 0, 0, NO_BACKFILL_COUNTS, []);
      var k := 0;
      while k < |candidates|
        invariant records.Valid() && SameQueue(anchors.docs, old(anchors.docs)) && o.Pass?
        invariant |rounds| == k <= |candidates| && OfCandidates(candidates, rounds)
        invariant Ran(old(Now()), rounds, reached) && reached == Now()
        invariant report == ReportOf(|candidates|, EndingsOf(rounds))
      {
        o, report, rounds := NextRound(old(Now()), rounds, candidates, k, report);
        if o.Fail? { break; }
        k, reached := k + 1, Now();
      }
    }

    lemma {:induction false} CandidatesGrow(candidates: seq<Anchor>, rounds: seq<Round>, x: Round)
      requires OfCandidates(candidates, rounds) && |rounds| < |candidates| && x.anchor == candidates[|rounds|]
      ensures OfCandidates(candidates, rounds + [x])
      ensures ReportOf(|candidates|, EndingsOf(rounds + [x]))
              == WithEnding(ReportOf(|candidates|, EndingsOf(rounds)), x.ending)
    {
      OneMoreRound(rounds, x);
      OneMoreEnding(|candidates|, EndingsOf(rounds), x.ending);
    }

    /** One more candidate. */
    method NextRound(
      ghost s: Moment, ghost rounds: seq<Round>, candidates: seq<Anchor>, k: nat, report: Report)
      returns (o: Outcome<Fault>, updated: Report, ghost more: seq<Round>)
      requires records.Valid() && OfCandidates(candidates, rounds) && k == |rounds| < |candidates|
      requires Ran(s, rounds, Now()) && SameQueue(anchors.docs, s.docs)
      requires report == ReportOf(|candidates|, EndingsOf(rounds))
      modifies this`faults, anchors`docs, anchors`faults, archive, records
      ensures records.Valid() && SameQueue(anchors.docs, s.docs) && old(records.log) <= records.log
      ensures o.Pass? ==>
                && Ran(s, more, Now()) && OfCandidates(candidates, more) && |more| == k + 1
                && updated == ReportOf(|candidates|, EndingsOf(more))
      ensures o.Fail? ==> more == rounds && Faults() > old(Faults())
    {
      ghost var before := Now();
      ghost var x;
      o, updated, x := RunOne(s.docs, candidates[k], report);
      more := rounds;
      if o.Pass? {
        RunGrows(s, rounds, before, x, Now());
        CandidatesGrow(candidates, rounds, x);
        more := rounds + [x];
      }
    }

    method RunOne(ghost docs: Anchors, anchor: Anchor, report: Report)
      returns (o: Outcome<Fault>, updated: Report, ghost x: Round)
      requires records.Valid() && SameQueue(anchors.docs, docs)
      modifies this`faults, anchors`docs, anchors`faults, archive, records
      ensures records.Valid() && SameQueue(anchors.docs, docs) && old(records.log) <= records.log
      ensures o.Pass? ==>
                Rounding(old(Now()), x, Now()) && x.anchor == anchor && updated == WithEnding(report, x.ending)
      ensures Faults() >= old(Faults()) && (o.Fail? ==> Faults() > old(Faults()))
    {
      ghost var ending, written;
      ghost var before := Now();
      o, updated, ending, written := ProcessAnchor(anchor, report);
      SameQueueTransitive(anchors.docs, before.docs, docs);
      x := Round(before.docs, before.archived, anchor, ending, written);
      PutAllConcat(records.initial, before.written, written);
    }
  }
}
