/** The online CPS anchor processor: an attempt at one leased anchor, with a fault possible at every awaited call. */
module Processor {
  import opened Wrappers
  import opened CpsKeys
  import opened Protocol
  import opened Records
  import opened Archive
  import opened AnchorQueue
  import opened Pipeline
  import opened Counting
  import opened Convergence

  datatype Config = Config(
    canonicalStorage: bool, rawStorage: bool, leaseMs: int, maxAnchorsPerPoll: nat, maxAttempts: int,
    retryBaseMs: nat, ipfsWireFormat: WireFormat, limits: Limits)

  /** The outside world: libraries, the digest, and the content behind a CID. */
  datatype World = World(codec: Codec, sha256: Bytes -> Digest, ipfs: string -> Bytes)

  datatype ResolvedPayload = ResolvedPayload(bytes: Bytes, format: WireFormat)

  datatype ResolveError = MissingChainBytes | ChainPayloadTooLarge

  /** The exact transport bytes of an anchor and the format to open them with. */
  function Resolve(a: Anchor, w: World, ipfsWireFormat: WireFormat): (r: Result<ResolvedPayload, ResolveError>) {
    match a.ref
    case Chain(payload) =>
      if |payload| == 0 then Err(MissingChainBytes)
      else if |payload| > MAX_CPS_CHAIN_PAYLOAD_BYTES then Err(ChainPayloadTooLarge)
      else Ok(ResolvedPayload(payload, if a.wireFormat.Some? then a.wireFormat.value else Xz))
    case Ipfs(cid) =>
      Ok(ResolvedPayload(w.ipfs(cid), if a.wireFormat.Some? then a.wireFormat.value else ipfsWireFormat))
  }

  /** The bytes come from the chain when they are there, within the limit, and otherwise from IPFS; the format is the
      anchor's own, or else XZ on chain and the configured one on IPFS. */
  lemma ResolvesTo(a: Anchor, w: World, ipfsWireFormat: WireFormat)
    ensures
      var r := Resolve(a, w, ipfsWireFormat);
      && (r.Err? <==> a.ref.Chain? && !(0 < |a.ref.payload| <= 8 * 1024))
      && (r.Ok? ==> r.value.bytes == if a.ref.Chain? then a.ref.payload else w.ipfs(a.ref.cid))
      && (r.Ok? && a.wireFormat.Some? ==> r.value.format == a.wireFormat.value)
      && (r.Ok? && a.wireFormat.None? ==> r.value.format == if a.ref.Chain? then Xz else ipfsWireFormat)
  {
  }

  /** The envelopes of an anchor are those its bytes hold. */
  lemma BatchOfAnchor(a: Anchor, w: World, c: Config, batch: seq<RawEnvelope>)
    ensures (Opens(a, w, c) && PayloadBatch(a, w, c) == batch) <==>
      && Resolve(a, w, c.ipfsWireFormat).Ok?
      && var p := Resolve(a, w, c.ipfsWireFormat).value;
         exists u :: Unpacks(w.codec, c.limits, p.bytes, p.format, u) && HoldsBatch(w.codec, c.limits, u, batch)
  {
    if Resolve(a, w, c.ipfsWireFormat).Ok? {
      var p := Resolve(a, w, c.ipfsWireFormat).value;
      OpensExactly(w.codec, c.limits, p.bytes, p.format, [], batch);
    }
  }

  function JobOf(a: Anchor, w: World): Job {
    Job(w.codec, Provenance(a.sourceKey, a.nodeId, a.block, if a.ref.Ipfs? then Some(a.ref.cid) else None), a.owner)
  }

  /** The envelopes of an anchor's payload; an unopenable batch is a terminal error. */
  function EnvelopesIn(a: Anchor, w: World, c: Config): Result<seq<RawEnvelope>, BatchErrorCode>
    requires Resolve(a, w, c.ipfsWireFormat).Ok?
  {
    var p := Resolve(a, w, c.ipfsWireFormat).value;
    EnvelopesOf(w.codec, c.limits, p.bytes, p.format)
  }

  /** The payload resolves and opens as a batch. */
  predicate Opens(a: Anchor, w: World, c: Config) {
    Resolve(a, w, c.ipfsWireFormat).Ok? && EnvelopesIn(a, w, c).Ok?
  }

  function PayloadBatch(a: Anchor, w: World, c: Config): seq<RawEnvelope>
    requires Opens(a, w, c)
  {
    EnvelopesIn(a, w, c).value
  }

  /** What the decoder makes of it. */
  function DecodedOf(batch: seq<RawEnvelope>): DecodedBatch {
    DecodedBatch(ValidEnvelopes(batch), AllErrors(batch))
  }

  /** The records an attempt may have written when it stops, in order: everything up to some point. */
  ghost predicate Trace(a: Anchor, w: World, c: Config, trace: seq<Record>) {
    if c.canonicalStorage && Opens(a, w, c) then
      var batch := PayloadBatch(a, w, c);
      trace <= OnlineWrites(JobOf(a, w), batch) + FailureWrites(JobOf(a, w), batch)
    else
      trace == []
  }

  /** ... and all of them. */
  ghost predicate FullTrace(a: Anchor, w: World, c: Config, trace: seq<Record>) {
    && Opens(a, w, c)
    && trace == if c.canonicalStorage then OnlineWrites(JobOf(a, w), PayloadBatch(a, w, c)) else []
  }

  function CompletionOf(a: Anchor, counts: Counters): StatusWrite {
    StatusWrite(a.sourceKey, CompletedStatus(counts),
      Details(Some(counts), if counts.invalidEnvelopes > 0 then Some(EnvelopeErrorsFound) else None, None))
  }

  function CompletedWrite(a: Anchor, w: World, c: Config): StatusWrite
    requires Opens(a, w, c)
  {
    CompletionOf(a, CountersOf(JobOf(a, w), c.canonicalStorage, PayloadBatch(a, w, c)))
  }

  function Power2(n: nat): nat { if n == 0 then 1 else 2 * Power2(n - 1) }

  /** Milliseconds until the next attempt, after a failed attempt with this number. */
  function RetryDelay(baseMs: nat, attemptCount: nat): nat {
    var exponent := if attemptCount <= 1 then 0 else if attemptCount - 1 > 20 then 20 else attemptCount - 1;
    baseMs * Power2(exponent)
  }

  function RetryWrite(a: Anchor, c: Config, now: int): StatusWrite {
    if a.attemptCount >= c.maxAttempts then
      StatusWrite(a.sourceKey, Error, Details(None, Some(MaxAttemptsExceeded), None))
    else
      StatusWrite(a.sourceKey, RetryPending,
        Details(None, Some(TransientError), Some(now + RetryDelay(c.retryBaseMs, a.attemptCount))))
  }

  /** The terminal error of a batch that cannot be opened. */
  function RejectionOf(a: Anchor, code: BatchErrorCode): StatusWrite {
    StatusWrite(a.sourceKey, Error, Details(None, Some(BatchError(code)), None))
  }

  datatype AttemptError = UnusableBatch(code: BatchErrorCode) | Transient | Died

  function AsAttemptError(f: Fault): AttemptError { if f.Thrown? then Transient else Died }

  lemma {:induction false} WritesGrow(job: Job, envelopes: seq<Envelope>, k: nat)
    requires k <= |envelopes|
    ensures EnvelopesWrites(job, envelopes[..k]) <= EnvelopesWrites(job, envelopes)
  {
    if k < |envelopes| {
      WritesGrow(job, envelopes[..|envelopes| - 1], k);
      assert envelopes[..|envelopes| - 1][..k] == envelopes[..k];
    } else {
      assert envelopes[..k] == envelopes;
    }
  }

  lemma {:induction false} GroupPrefixGrows(p: Provenance, g: ErrorGroups, order: seq<nat>, k: nat)
    requires k <= |order| && forall i :: i in order ==> i in g.codes
    ensures GroupWrites(p, g, order[..k]) <= GroupWrites(p, g, order)
  {
    if k < |order| {
      GroupPrefixGrows(p, g, order[..|order| - 1], k);
      assert order[..|order| - 1][..k] == order[..k];
    } else {
      assert order[..k] == order;
    }
  }

  lemma EnvelopeStep(job: Job, envelopes: seq<Envelope>, k: nat, stored: bool)
    requires k < |envelopes|
    ensures EnvelopesWrites(job, envelopes[..k + 1])
              == EnvelopesWrites(job, envelopes[..k]) + EnvelopeWrites(job, envelopes[k])
    ensures EnvelopesWrites(job, envelopes[..k]) + EnvelopeWrites(job, envelopes[k]) <= EnvelopesWrites(job, envelopes)
    ensures ResultsOf(job, envelopes[..k + 1], stored) ==
      AddVerdict(ResultsOf(job, envelopes[..k], stored), job, envelopes[k], Judge(job, envelopes[k]), stored,
        OneIf(stored))
  {
    assert envelopes[..k + 1][..k] == envelopes[..k];
    WritesGrow(job, envelopes, k + 1);
  }

  lemma GroupStep(p: Provenance, g: ErrorGroups, k: nat)
    requires k < |g.order| && forall i :: i in g.order ==> i in g.codes
    ensures
      var write := [CreateInvalidEnvelopeRecord(p, g.order[k], g.codes[g.order[k]])];
      && GroupWrites(p, g, g.order[..k + 1]) == GroupWrites(p, g, g.order[..k]) + write
      && GroupWrites(p, g, g.order[..k]) + write <= GroupWrites(p, g, g.order)
  {
    assert g.order[..k + 1][..k] == g.order[..k];
    GroupPrefixGrows(p, g, g.order, k + 1);
  }

  /** One more group after everything up to it. */
  lemma GroupProgress(p: Provenance, g: ErrorGroups, k: nat, done: seq<Record>, now: seq<Record>)
    requires k < |g.order| && forall i :: i in g.order ==> i in g.codes
    requires done == GroupWrites(p, g, g.order[..k])
    requires now <= [CreateInvalidEnvelopeRecord(p, g.order[k], g.codes[g.order[k]])]
    ensures done + now <= GroupWrites(p, g, g.order)
    ensures now == [CreateInvalidEnvelopeRecord(p, g.order[k], g.codes[g.order[k]])] ==>
              done + now == GroupWrites(p, g, g.order[..k + 1])
  {
    GroupStep(p, g, k);
    PrefixOfPart(done, now, [CreateInvalidEnvelopeRecord(p, g.order[k], g.codes[g.order[k]])],
      GroupWrites(p, g, g.order));
  }

  /** The writes that happen at all: none unless canonical storage is on. */
  function KeptIf<T>(stored: bool, writes: seq<T>): seq<T> {
    if stored then writes else []
  }

  /** One more envelope in an attempt that has written everything up to it. */
  lemma EnvelopeProgress(job: Job, envelopes: seq<Envelope>, k: nat, stored: bool, done: seq<Record>, now: seq<Record>)
    requires k < |envelopes| && done == KeptIf(stored, EnvelopesWrites(job, envelopes[..k]))
    requires now <= KeptIf(stored, EnvelopeWrites(job, envelopes[k]))
    ensures done + now <= KeptIf(stored, EnvelopesWrites(job, envelopes))
    ensures now == KeptIf(stored, EnvelopeWrites(job, envelopes[k])) ==>
              done + now == KeptIf(stored, EnvelopesWrites(job, envelopes[..k + 1]))
  {
    EnvelopeStep(job, envelopes, k, stored);
  }

  /** The rest of an envelope's writes behind its first. */
  lemma FirstThenRest(stored: bool, first: Record, rest: seq<Record>, done: seq<Record>, more: seq<Record>)
    requires done == KeptIf(stored, [first]) && more <= KeptIf(stored, rest)
    ensures done + more <= KeptIf(stored, [first] + rest)
    ensures more == KeptIf(stored, rest) ==> done + more == KeptIf(stored, [first] + rest)
  {
  }

  lemma ConcatAssociates<T>(a: seq<T>, b: seq<T>, c: seq<T>)
    ensures a + (b + c) == a + b + c
  {
  }

  lemma PrefixOfPart<T>(done: seq<T>, now: seq<T>, part: seq<T>, all: seq<T>)
    requires now <= part && done + part <= all
    ensures done + now <= all
  {
  }

  lemma IndicesBelow(batch: seq<RawEnvelope>)
    ensures forall k :: k in InvalidIndices(batch) ==> k < |batch| && EnvelopeErrors(batch[k]) != []
  {
  }

  lemma GroupWritesAppend(p: Provenance, g: ErrorGroups, order: seq<nat>, i: nat)
    requires i in g.codes && forall k :: k in order ==> k in g.codes
    ensures GroupWrites(p, g, order + [i]) == GroupWrites(p, g, order) + [CreateInvalidEnvelopeRecord(p, i, g.codes[i])]
  {
  }

  /** Writing the grouped errors is writing the diagnostic record of every invalid envelope, in batch order. */
  lemma {:induction false} GroupWritesAreStructural(p: Provenance, g: ErrorGroups, batch: seq<RawEnvelope>)
    requires forall i :: i in InvalidIndices(batch) ==>
              i in g.codes && i < |batch| && g.codes[i] == EnvelopeErrors(batch[i])
    ensures GroupWrites(p, g, InvalidIndices(batch)) == StructuralWrites(p, batch)
    decreases |batch|
  {
    if batch != [] {
      var n := |batch| - 1;
      var front, order := batch[..n], InvalidIndices(batch[..n]);
      IndicesBelow(front);
      var codes := EnvelopeErrors(batch[n]);
      assert InvalidIndices(batch) == if codes == [] then order else order + [n];
      forall i | i in order
        ensures i in g.codes && g.codes[i] == EnvelopeErrors(front[i])
      {
        assert i in InvalidIndices(batch);
      }
      GroupWritesAreStructural(p, g, front);
      if codes != [] { GroupWritesAppend(p, g, order, n); }
    }
  }

  /** What remains to be written for an envelope once its signature is verified. */
  lemma VerifiedWrites(job: Job, e: Envelope)
    requires job.codec.signatureError(e.fields).None?
    ensures
      var record := CreateEnvelopeRecord(job.provenance, e);
      var rest := EnvelopeWrites(job, e)[1..];
      match Judge(job, e)
      case BadSignature(_) => false
      case Malformed => rest == [WithMalformedMessage(record)]
      case Projected(m, _) => rest == [ApplyDecodedMessage(record, m)]
      case NotProjected(m, code) =>
        rest == [ApplyDecodedMessage(record, m)] + [WithProjectionError(ApplyDecodedMessage(record, m), Rejected(code))]
  {
  }

  lemma EnvelopeShape(job: Job, e: Envelope)
    ensures
      var record := CreateEnvelopeRecord(job.provenance, e);
      && EnvelopeWrites(job, e) == [record] + EnvelopeWrites(job, e)[1..]
      && match job.codec.signatureError(e.fields)
         case None => true
         case Some(reason) =>
           Judge(job, e) == BadSignature(reason) && EnvelopeWrites(job, e)[1..] == [WithBadSignature(record, reason)]
  {
  }

  lemma {:induction false} MarkFailedGrows(records: seq<Record>, k: nat)
    requires k <= |records|
    ensures MarkFailed(records[..k]) <= MarkFailed(records)
  {
    if k < |records| {
      MarkFailedGrows(records[..|records| - 1], k);
      assert records[..|records| - 1][..k] == records[..k];
    } else {
      assert records[..k] == records;
    }
  }

  lemma BatchGroups(p: Provenance, batch: seq<RawEnvelope>)
    ensures
      var g := GroupErrors(AllErrors(batch));
      && g.order == InvalidIndices(batch) && (forall i :: i in g.order ==> i in g.codes)
      && GroupWrites(p, g, g.order) == StructuralWrites(p, batch)
  {
    var g := GroupErrors(AllErrors(batch));
    GroupsAreEnvelopes(batch);
    DecodePartitions(batch);
    GroupWritesAreStructural(p, g, batch);
  }

  /** The counters at the end of the loops: the results of the envelopes, the structurally invalid positions, and the
      records counted while they were stored. */
  function CountersFrom(
      results: EnvelopeResults, decoded: DecodedBatch, invalidPositions: nat, storedErrors: nat): Counters
  {
    var t := results.tally;
    Counters(|results.measurements|, |decoded.errors| + t.invalid, |decoded.envelopes| + invalidPositions,
      storedErrors + results.stored,
      t.validSignatures, t.invalidSignatures, t.decoded, t.unsupported, t.privateSections)
  }

  lemma AttemptParts<T>(a: seq<T>, b: seq<T>, c: seq<T>)
    ensures a <= (a + b) + c && a + b <= (a + b) + c
  {
  }

  /** What the envelope loop counts, and what it hands to the legacy projection. */
  datatype EnvelopeResults = EnvelopeResults(
    tally: Tally, stored: nat, measurements: seq<Measurement>, projected: seq<Record>)

  const NO_RESULTS := EnvelopeResults(Tally(0, 0, 0, 0, 0, 0, 0), 0, [], [])

  function OneIf(stored: bool): nat { if stored then 1 else 0 }

  /** One more envelope, with the number of records it added to the collection. */
  function AddVerdict(
      results: EnvelopeResults, job: Job, e: Envelope, v: Verdict, stored: bool, count: nat): EnvelopeResults
  {
    EnvelopeResults(CountVerdict(results.tally, v), results.stored + count,
      results.measurements + (if v.Projected? then [v.measurement] else []),
      results.projected + (if v.Projected? && stored then [CanonicalRecord(job, e)] else []))
  }

  function ResultsOf(job: Job, envelopes: seq<Envelope>, stored: bool): EnvelopeResults {
    if envelopes == [] then NO_RESULTS
    else
      var e := envelopes[|envelopes| - 1];
      AddVerdict(ResultsOf(job, envelopes[..|envelopes| - 1], stored), job, e, Judge(job, e), stored, OneIf(stored))
  }

  lemma {:induction false} ResultsMeaning(job: Job, envelopes: seq<Envelope>, stored: bool)
    ensures
      var r := ResultsOf(job, envelopes, stored);
      && r.tally == TallyOf(job, envelopes) && |r.measurements| == r.tally.projected
      && r.stored == |KeptIf(stored, envelopes)|
      && r.projected == KeptIf(stored, ProjectedRecords(job, envelopes))
  {
    if envelopes != [] {
      ResultsMeaning(job, envelopes[..|envelopes| - 1], stored);
    }
  }

  lemma PartKept(stored: bool, online: seq<Record>, failure: seq<Record>, written: seq<Record>)
    requires written <= KeptIf(stored, online)
    ensures written <= KeptIf(stored, online + failure)
  {
  }

  /** Everything is written; marks may follow. */
  lemma AllThenMarks(
      stored: bool, online: seq<Record>, failure: seq<Record>, written: seq<Record>, marked: seq<Record>)
    requires written == KeptIf(stored, online) && marked <= KeptIf(stored, failure)
    ensures written + marked <= KeptIf(stored, online + failure)
    ensures marked == [] ==> written + marked == KeptIf(stored, online)
  {
  }

  /** What the loops counted are the counters of the batch. */
  lemma CountersAgree(
      job: Job, batch: seq<RawEnvelope>, stored: bool, results: EnvelopeResults, invalidPositions: nat,
      storedErrors: nat)
    requires results == ResultsOf(job, ValidEnvelopes(batch), stored)
    requires invalidPositions == |InvalidIndices(batch)| && storedErrors == |KeptIf(stored, InvalidIndices(batch))|
    ensures CountersFrom(results, DecodedOf(batch), invalidPositions, storedErrors) == CountersOf(job, stored, batch)
  {
    ResultsMeaning(job, ValidEnvelopes(batch), stored);
  }

  // ---------- polls ----------

  /** One turn of a poll: the queue, the archive and the key at the moment of the claim, the anchor as claimed, and what
      processing it wrote; `passed` tells that processing returned. */
  datatype Turn = Turn(
    before: Anchors, archived: Payloads, key: string, anchor: Anchor, written: seq<Record>,
    completion: seq<StatusWrite>, failure: seq<StatusWrite>, passed: bool)
  {
    /** The status writes of the turn, in order. */
    function Statuses(): seq<StatusWrite> { completion + failure }

    /** The queue when the turn is over. */
    function After(): Anchors { UpdatedAll(before[key := anchor], Statuses()) }

    /** The turn is reported to the metrics as a completion. */
    predicate Reported() { passed && failure == [] }
  }

  function AllStatuses(turns: seq<Turn>): seq<StatusWrite> {
    if turns == [] then [] else AllStatuses(turns[..|turns| - 1]) + turns[|turns| - 1].Statuses()
  }

  function AllWritten(turns: seq<Turn>): seq<Record> {
    if turns == [] then [] else AllWritten(turns[..|turns| - 1]) + turns[|turns| - 1].written
  }

  function Reports(turns: seq<Turn>): nat {
    if turns == [] then 0 else Reports(turns[..|turns| - 1]) + if turns[|turns| - 1].Reported() then 1 else 0
  }

  /** The queue after some turns. */
  function QueueAfter(docs: Anchors, turns: seq<Turn>): Anchors {
    if turns == [] then docs else turns[|turns| - 1].After()
  }

  lemma OneMoreTurn(turns: seq<Turn>, t: Turn)
    ensures AllStatuses(turns + [t]) == AllStatuses(turns) + t.Statuses()
    ensures AllWritten(turns + [t]) == AllWritten(turns) + t.written
    ensures Reports(turns + [t]) == Reports(turns) + if t.Reported() then 1 else 0
  {
    assert (turns + [t])[..|turns|] == turns;
  }

  /** Documents are filed under their own source keys. */
  ghost predicate Keyed(docs: Anchors) {
    forall k :: k in docs ==> docs[k].sourceKey == k
  }

  /** What a poll starts from, and where it has got to. */
  datatype Moment = Moment(
    docs: Anchors, archived: Payloads, statuses: seq<StatusWrite>, written: seq<Record>, store: Store, completed: nat,
    faults: nat)

  ghost predicate WritesOnly(writes: seq<StatusWrite>, key: string) {
    forall w :: w in writes ==> w.key == key && !w.status.Processing?
  }

  lemma OneIssuable(writes: seq<StatusWrite>)
    requires |writes| <= 1 && (writes != [] ==> Issuable(writes[0]))
    ensures forall w :: w in writes ==> Issuable(w)
  {
  }

  lemma OneOrNone(writes: seq<StatusWrite>, key: string)
    requires |writes| <= 1
    requires writes != [] ==> writes[0].key == key && !writes[0].status.Processing?
    ensures WritesOnly(writes, key)
  {
  }

  /** Such writes touch no other anchor, and take the lease off this one. */
  lemma OwnWritesOnly(docs: Anchors, writes: seq<StatusWrite>, key: string)
    requires WritesOnly(writes, key) && key in docs
    ensures
      var after := UpdatedAll(docs, writes);
      && after.Keys == docs.Keys && (forall k :: k in docs && k != key ==> after[k] == docs[k])
      && (writes != [] ==> !after[key].status.Processing?)
  {
    StatusWritesTell(docs, writes, key);
    LastGivesStatus(writes, key);
    forall k | k in docs && k != key
      ensures UpdatedAll(docs, writes)[k] == docs[k]
    {
      OthersUntouched(docs, writes, key, k);
    }
  }

  lemma LastGivesStatus(writes: seq<StatusWrite>, key: string)
    requires WritesOnly(writes, key)
    ensures writes != [] ==> LastGiving(writes, key, ItsStatus).Some?
  {
  }

  lemma {:induction false} OthersUntouched(docs: Anchors, writes: seq<StatusWrite>, key: string, k: string)
    requires WritesOnly(writes, key) && k in docs && k != key
    ensures k in UpdatedAll(docs, writes) && UpdatedAll(docs, writes)[k] == docs[k]
    decreases |writes|
  {
    if writes != [] { OthersUntouched(docs, writes[..|writes| - 1], key, k); }
  }

  lemma UpdatesKeepKeyed(docs: Anchors, writes: seq<StatusWrite>)
    requires Keyed(docs)
    ensures Keyed(UpdatedAll(docs, writes))
  {
    forall k | k in UpdatedAll(docs, writes)
      ensures UpdatedAll(docs, writes)[k].sourceKey == k
    {
      StatusWritesTell(docs, writes, k);
    }
  }

  class CpsAnchorProcessor {
    const config: Config
    const world: World
    const anchors: AnchorCollection
    const archive: PayloadCollection
    const records: RecordCollection
    var polling: bool
    /** Completed anchors reported to the metrics. */
    var completedAnchors: nat
    /** How many calls outside the collections have failed: IPFS, the signature backend, the legacy collections. */
    ghost var faults: nat

    /** All calls that have failed. */
    ghost function Faults(): nat
      reads this, anchors, archive, records
    {
      faults + anchors.faults + archive.faults + records.faults
    }

    constructor (
        config: Config, world: World, anchors: AnchorCollection, archive: PayloadCollection, records: RecordCollection)
      ensures this.config == config && this.world == world && this.anchors == anchors
      ensures this.archive == archive && this.records == records && !polling && completedAnchors == faults == 0
    {
      this.config, this.world, this.anchors, this.archive, this.records := config, world, anchors, archive, records;
      polling, completedAnchors, faults := false, 0, 0;
    }

    /** Upserts one record, when canonical storage is on. */
    method Keep(r: Record) returns (o: Outcome<Fault>, ghost written: seq<Record>)
      requires records.Valid()
      modifies records
      ensures records.Valid() && records.log == old(records.log) + written
      ensures written == KeptIf(config.canonicalStorage, [r]) || (written == [] && o.Fail?)
      ensures Faults() >= old(Faults()) && (o.Fail? <==> Faults() > old(Faults()))
    {
      if !config.canonicalStorage { return Pass, []; }
      o, written := records.UpsertRecord(r);
    }

    /** Decodes and projects a verified envelope, storing its record at every stage. */
    method ProcessVerified(job: Job, e: Envelope, record: Record)
      returns (r: Result<Verdict, Fault>, ghost written: seq<Record>)
      requires records.Valid() && job.codec.signatureError(e.fields).None?
      requires record == CreateEnvelopeRecord(job.provenance, e)
      modifies records
      ensures records.Valid() && records.log == old(records.log) + written
      ensures written <= KeptIf(config.canonicalStorage, EnvelopeWrites(job, e)[1..])
      ensures r.Ok? ==>
                r.value == Judge(job, e) && written == KeptIf(config.canonicalStorage, EnvelopeWrites(job, e)[1..])
      ensures Faults() >= old(Faults()) && (r.Err? <==> Faults() > old(Faults()))
    {
      VerifiedWrites(job, e);
      var message := job.codec.parseMessage(e.fields.message);
      var o;
      if message.None? {
        o, written := Keep(WithMalformedMessage(record));
        if o.Fail? { return Err(o.error), written; }
        return Ok(Malformed), written;
      }
      var decoded := ApplyDecodedMessage(record, message.value);
      o, written := Keep(decoded);
      if o.Fail? { return Err(o.error), written; }
      var transformed := Transform(e, message.value, job.provenance.nodeId, job.owner, job.provenance.sourceKey);
      if transformed.Ok? { return Ok(Projected(message.value, transformed.value)), written; }
      var rejected := WithProjectionError(decoded, Rejected(transformed.error));
      ghost var marked;
      o, marked := Keep(rejected);
      PrefixOfPart(written, marked, KeptIf(config.canonicalStorage, [rejected]),
        KeptIf(config.canonicalStorage, [decoded] + [rejected]));
      ConcatAssociates(old(records.log), written, marked);
      written := written + marked;
      if o.Fail? { return Err(o.error), written; }
      return Ok(NotProjected(message.value, transformed.error)), written;
    }

    /** Processes one envelope; also returns how many records it added to the collection. */
    method ProcessEnvelope(job: Job, e: Envelope)
      returns (r: Result<Verdict, Fault>, stored: nat, ghost written: seq<Record>)
      requires records.Valid()
      modifies this`faults, records
      ensures records.Valid() && records.log == old(records.log) + written
      ensures written <= KeptIf(config.canonicalStorage, EnvelopeWrites(job, e))
      ensures r.Ok? ==> r.value == Judge(job, e) && written == KeptIf(config.canonicalStorage, EnvelopeWrites(job, e))
      ensures r.Ok? ==> stored == OneIf(config.canonicalStorage)
      ensures Faults() >= old(Faults()) && (r.Err? <==> Faults() > old(Faults()))
    {
      EnvelopeShape(job, e);
      var record := CreateEnvelopeRecord(job.provenance, e);
      ghost var others := EnvelopeWrites(job, e)[1..];
      var o;
      stored := 0;
      o, written := Keep(record);
      if o.Fail? {
        FirstThenRest(config.canonicalStorage, record, others, KeptIf(config.canonicalStorage, [record]), []);
        return Err(o.error), stored, written;
      }
      if config.canonicalStorage { stored := stored + 1; }
      ghost var rest;
      r, rest := ProcessChecked(job, e, record);
      ConcatAssociates(old(records.log), written, rest);
      FirstThenRest(config.canonicalStorage, record, others, written, rest);
      written := written + rest;
    }

    method ProcessChecked(job: Job, e: Envelope, record: Record)
      returns (r: Result<Verdict, Fault>, ghost written: seq<Record>)
      requires records.Valid() && record == CreateEnvelopeRecord(job.provenance, e)
      modifies this`faults, records
      ensures records.Valid() && records.log == old(records.log) + written
      ensures written <= KeptIf(config.canonicalStorage, EnvelopeWrites(job, e)[1..])
      ensures r.Ok? ==>
                r.value == Judge(job, e) && written == KeptIf(config.canonicalStorage, EnvelopeWrites(job, e)[1..])
      ensures Faults() >= old(Faults()) && (r.Err? <==> Faults() > old(Faults()))
    {
      EnvelopeShape(job, e);
      if * { faults := faults + 1; return Err(Thrown), []; }  // the Ed25519 backend is unavailable
      var failure := job.codec.signatureError(e.fields);
      if failure.Some? {
        var o;
        o, written := Keep(WithBadSignature(record, failure.value));
        if o.Fail? { return Err(o.error), written; }
        return Ok(BadSignature(failure.value)), written;
      }
      r, written := ProcessVerified(job, e, record);
    }

    /** Stores the diagnostic records of the structurally invalid envelopes, when canonical storage is on, and counts
        them. */
    method StoreStructuralErrors(p: Provenance, g: ErrorGroups)
      returns (r: Result<nat, Fault>, ghost written: seq<Record>)
      requires records.Valid() && forall i :: i in g.order ==> i in g.codes
      modifies records
      ensures records.Valid() && records.log == old(records.log) + written
      ensures written <= KeptIf(config.canonicalStorage, GroupWrites(p, g, g.order))
      ensures r.Ok? ==> written == KeptIf(config.canonicalStorage, GroupWrites(p, g, g.order))
      ensures r.Ok? ==> r.value == |KeptIf(config.canonicalStorage, g.order)|
      ensures Faults() >= old(Faults()) && (r.Err? <==> Faults() > old(Faults()))
    {
      written := [];
      if !config.canonicalStorage { return Ok(0), []; }
      var stored := 0;
      for k := 0 to |g.order|
        invariant records.Valid() && records.log == old(records.log) + written
        invariant written == GroupWrites(p, g, g.order[..k]) && stored == k && Faults() == old(Faults())
      {
        var record := CreateInvalidEnvelopeRecord(p, g.order[k], g.codes[g.order[k]]);
        var o;
        ghost var w;
        o, w := records.UpsertRecord(record);
        GroupProgress(p, g, k, written, w);
        ConcatAssociates(old(records.log), written, w);
        written := written + w;
        if o.Fail? { return Err(o.error), written; }
        stored := stored + 1;
      }
      assert g.order[..|g.order|] == g.order;
      return Ok(stored), written;
    }

    /** Processes the untrusted envelopes one by one, counting the verdicts and the records stored. */
    method ProcessEnvelopes(job: Job, envelopes: seq<Envelope>)
      returns (r: Result<EnvelopeResults, Fault>, ghost written: seq<Record>)
      requires records.Valid()
      modifies this`faults, records
      ensures records.Valid() && records.log == old(records.log) + written
      ensures written <= KeptIf(config.canonicalStorage, EnvelopesWrites(job, envelopes))
      ensures r.Ok? ==> r.value == ResultsOf(job, envelopes, config.canonicalStorage)
      ensures r.Ok? ==> written == KeptIf(config.canonicalStorage, EnvelopesWrites(job, envelopes))
      ensures Faults() >= old(Faults()) && (r.Err? <==> Faults() > old(Faults()))
    {
      written := [];
      var results := NO_RESULTS;
      for k := 0 to |envelopes|
        invariant records.Valid() && records.log == old(records.log) + written
        invariant written == KeptIf(config.canonicalStorage, EnvelopesWrites(job, envelopes[..k]))
        invariant results == ResultsOf(job, envelopes[..k], config.canonicalStorage) && Faults() == old(Faults())
      {
        var verdict, stored;
        ghost var w;
        verdict, stored, w := ProcessEnvelope(job, envelopes[k]);
        EnvelopeProgress(job, envelopes, k, config.canonicalStorage, written, w);
        EnvelopeStep(job, envelopes, k, config.canonicalStorage);
        ConcatAssociates(old(records.log), written, w);
        written := written + w;
        if verdict.Err? { return Err(verdict.error), written; }
        results := AddVerdict(results, job, envelopes[k], verdict.value, config.canonicalStorage, stored);
      }
      assert envelopes[..|envelopes|] == envelopes;
      return Ok(results), written;
    }

    /** Marks the records whose legacy projection failed: all of them, if no call fails. */
    method MarkProjectionFailed(projected: seq<Record>) returns (o: Outcome<Fault>, ghost written: seq<Record>)
      requires records.Valid() && (projected != [] ==> config.canonicalStorage)
      modifies records
      ensures records.Valid() && records.log == old(records.log) + written
      ensures written <= MarkFailed(projected) && (o.Pass? ==> written == MarkFailed(projected))
      ensures Faults() >= old(Faults()) && (o.Fail? <==> Faults() > old(Faults()))
    {
      written := [];
      for k := 0 to |projected|
        invariant records.Valid() && records.log == old(records.log) + written
        invariant written == MarkFailed(projected[..k]) && Faults() == old(Faults())
      {
        assert projected[..k + 1][..k] == projected[..k];
        MarkFailedGrows(projected, k + 1);
        ghost var w;
        o, w := Keep(WithProjectionError(projected[k], LegacyProjectionFailed));
        ConcatAssociates(old(records.log), written, w);
        written := written + w;
        if o.Fail? { return o, written; }
      }
      assert projected[..|projected|] == projected;
      o := Pass;
    }

    /** Writes measurements and sensors to the legacy collections, which may fail as a whole. */
    method Project(results: EnvelopeResults) returns (o: Outcome<Fault>, ghost written: seq<Record>)
      requires records.Valid() && (results.projected != [] ==> config.canonicalStorage)
      modifies this`faults, records
      ensures records.Valid() && records.log == old(records.log) + written
      ensures written <= MarkFailed(results.projected) && (o.Pass? ==> written == [])
      ensures Faults() >= old(Faults()) && (o.Fail? <==> Faults() > old(Faults()))
    {
      written := [];
      if |results.measurements| > 0 {
        if * { faults := faults + 1; return Fail(Crashed), []; }
        if * {
          faults := faults + 1;
          o, written := MarkProjectionFailed(results.projected);
          if o.Fail? { return o, written; }
          return Fail(Thrown), written;
        }
      }
      o := Pass;
    }

    /** Stores every record of a decoded batch, then projects its measurements. */
    method StoreBatch(job: Job, ghost batch: seq<RawEnvelope>, decoded: DecodedBatch)
      returns (r: Result<Counters, Fault>, ghost written: seq<Record>)
      requires records.Valid() && decoded == DecodedOf(batch)
      modifies this`faults, records
      ensures records.Valid() && records.log == old(records.log) + written
      ensures written <= KeptIf(config.canonicalStorage, OnlineWrites(job, batch) + FailureWrites(job, batch))
      ensures r.Ok? ==> r.value == CountersOf(job, config.canonicalStorage, batch)
      ensures r.Ok? ==> written == KeptIf(config.canonicalStorage, OnlineWrites(job, batch))
      ensures Faults() >= old(Faults()) && (r.Err? <==> Faults() > old(Faults()))
    {
      var results, invalidPositions, storedErrors;
      results, invalidPositions, storedErrors, written := StoreRecords(job, batch, decoded);
      PartKept(config.canonicalStorage, OnlineWrites(job, batch), FailureWrites(job, batch), written);
      if results.Err? { return Err(results.error), written; }
      ResultsMeaning(job, decoded.envelopes, config.canonicalStorage);
      CountersAgree(job, batch, config.canonicalStorage, results.value, invalidPositions, storedErrors);
      var o;
      ghost var marked;
      o, marked := Project(results.value);
      AllThenMarks(config.canonicalStorage, OnlineWrites(job, batch), FailureWrites(job, batch), written, marked);
      ConcatAssociates(old(records.log), written, marked);
      written := written + marked;
      if o.Fail? { return Err(o.error), written; }
      return Ok(CountersFrom(results.value, decoded, invalidPositions, storedErrors)), written;
    }

    /** Stores the diagnostic records, then every envelope's records; also returns the number of invalid positions and
        of diagnostic records stored. */
    method StoreRecords(job: Job, ghost batch: seq<RawEnvelope>, decoded: DecodedBatch)
      returns (r: Result<EnvelopeResults, Fault>, invalidPositions: nat, storedErrors: nat, ghost written: seq<Record>)
      requires records.Valid() && decoded == DecodedOf(batch)
      modifies this`faults, records
      ensures records.Valid() && records.log == old(records.log) + written
      ensures written <= KeptIf(config.canonicalStorage, OnlineWrites(job, batch))
      ensures r.Ok? ==> r.value == ResultsOf(job, decoded.envelopes, config.canonicalStorage)
      ensures r.Ok? ==> invalidPositions == |InvalidIndices(batch)|
      ensures r.Ok? ==> storedErrors == |KeptIf(config.canonicalStorage, InvalidIndices(batch))|
      ensures r.Ok? ==> written == KeptIf(config.canonicalStorage, OnlineWrites(job, batch))
      ensures Faults() >= old(Faults()) && (r.Err? <==> Faults() > old(Faults()))
    {
      var g := GroupStructuralErrors(decoded.errors);
      ghost var structural := StructuralWrites(job.provenance, batch);
      ghost var online := EnvelopesWrites(job, ValidEnvelopes(batch));
      BatchGroups(job.provenance, batch);
      AttemptParts(structural, online, []);
      invalidPositions, storedErrors := |g.order|, 0;
      var stored;
      stored, written := StoreStructuralErrors(job.provenance, g);
      if stored.Err? { return Err(stored.error), invalidPositions, storedErrors, written; }
      storedErrors := stored.value;
      ghost var more;
      r, more := ProcessEnvelopes(job, decoded.envelopes);
      PrefixOfPart(written, more, KeptIf(config.canonicalStorage, online),
        KeptIf(config.canonicalStorage, structural + online));
      ConcatAssociates(old(records.log), written, more);
      written := written + more;
    }

    /** The archive holds other content under the anchor's key. */
    ghost predicate Conflicts(anchor: Anchor, docs: Payloads) {
      var key, payload := anchor.sourceKey, Resolve(anchor, world, config.ipfsWireFormat);
      config.rawStorage && payload.Ok? && key in docs
      && (docs[key].size != |payload.value.bytes| || docs[key].digest != world.sha256(payload.value.bytes))
    }

    /** The payload can be opened and archived. */
    ghost predicate Usable(anchor: Anchor, docs: Payloads) {
      Opens(anchor, world, config) && !Conflicts(anchor, docs)
    }

    /** What an attempt fails with when no call does: a payload that is missing, too large or in conflict with the
        archive is tried again, one that is no batch is not. */
    ghost function FailureOf(anchor: Anchor, docs: Payloads): AttemptError
      requires !Usable(anchor, docs)
    {
      if Resolve(anchor, world, config.ipfsWireFormat).Err? || Conflicts(anchor, docs) then Transient
      else UnusableBatch(EnvelopesIn(anchor, world, config).error)
    }

    /** The archive holds the payload of the anchor, by size and digest; what it held before it still holds. */
    twostate predicate Archived(anchor: Anchor)
      reads archive
    {
      var key, payload := anchor.sourceKey, Resolve(anchor, world, config.ipfsWireFormat);
      && payload.Ok? && key in archive.docs && archive.docs[key].size == |payload.value.bytes|
      && archive.docs[key].digest == world.sha256(payload.value.bytes)
      && archive.docs[key].raw == if key in old(archive.docs) then old(archive.docs)[key].raw else payload.value.bytes
    }

    /** Fetches, archives and decodes the payload; a batch that cannot be opened is reported apart from other faults. */
    method OpenPayload(anchor: Anchor) returns (r: Result<DecodedBatch, AttemptError>)
      modifies this`faults, archive
      ensures r.Ok? ==> Opens(anchor, world, config) && r.value == DecodedOf(PayloadBatch(anchor, world, config))
      ensures r.Err? ==> Explained(anchor, r.error)
      ensures !config.rawStorage ==> archive.docs == old(archive.docs)
      ensures forall k :: k in archive.docs && k != anchor.sourceKey ==>
                k in old(archive.docs) && archive.docs[k] == old(archive.docs)[k]
      ensures (r.Ok? || r.error.UnusableBatch?) && config.rawStorage ==> Archived(anchor)
      ensures r.Err? && r.error.UnusableBatch? && config.rawStorage ==>
        && archive.docs[anchor.sourceKey].status == PayloadError
        && archive.docs[anchor.sourceKey].errorCode == Some(r.error.code)
      ensures Faults() >= old(Faults())
      ensures Faults() == old(Faults()) ==>
                && (r.Ok? <==> Usable(anchor, old(archive.docs)))
                && (r.Err? ==> r.error == FailureOf(anchor, old(archive.docs)))
      ensures Keeps(old(archive.docs), archive.docs)
    {
      var resolved := Resolve(anchor, world, config.ipfsWireFormat);
      if resolved.Err? { return Err(Transient); }
      if * { faults := faults + 1; return Err(Transient); }  // every IPFS gateway failed
      var payload := resolved.value;
      if config.rawStorage {
        var stored := archive.UpsertFetched(anchor.sourceKey, payload.bytes, payload.format, world.sha256);
        if stored == Fail(ArchiveFailed(Crashed)) { return Err(Died); }
        if stored.Fail? { return Err(Transient); }
      }
      var batch := DecodePayload(world.codec, config.limits, payload.bytes, payload.format);
      if batch.Err? {
        if config.rawStorage {
          var marked := archive.UpdateDecodeStatus(anchor.sourceKey, PayloadError, Some(batch.error));
          if marked.Fail? { return Err(AsAttemptError(marked.error)); }
        }
        return Err(UnusableBatch(batch.error));
      }
      return Ok(batch.value);
    }

    /** Completion is written with the counters of the whole batch, once all of its records are stored. */
    ghost predicate CompletionJustified(anchor: Anchor, written: seq<Record>, w: StatusWrite) {
      FullTrace(anchor, world, config, written) && w == CompletedWrite(anchor, world, config)
    }

    /** The failure of an attempt and the status write it leads to: the terminal error of a batch that cannot be opened,
        otherwise a retry or exhaustion. */
    function FailureWrite(anchor: Anchor, error: AttemptError, now: int): StatusWrite {
      if error.UnusableBatch? then RejectionOf(anchor, error.code) else RetryWrite(anchor, config, now)
    }

    /** An attempt may fail for a batch that cannot be opened only if the payload is one, and with its code. */
    ghost predicate Explained(anchor: Anchor, error: AttemptError) {
      error.UnusableBatch? ==>
        Resolve(anchor, world, config.ipfsWireFormat).Ok? && EnvelopesIn(anchor, world, config) == Err(error.code)
    }

    /** A batch that cannot be opened is never retried for that; any other failure is the retry or the exhaustion. */
    ghost predicate FailureJustified(anchor: Anchor, now: int, w: StatusWrite) {
      || w == RetryWrite(anchor, config, now)
      || (Resolve(anchor, world, config.ipfsWireFormat).Ok? && EnvelopesIn(anchor, world, config).Err?
          && w == RejectionOf(anchor, EnvelopesIn(anchor, world, config).error))
    }

    lemma StoredIsTraced(anchor: Anchor, counts: Result<Counters, Fault>, written: seq<Record>)
      requires Opens(anchor, world, config)
      requires
        var job, batch := JobOf(anchor, world), PayloadBatch(anchor, world, config);
        && written <= KeptIf(config.canonicalStorage, OnlineWrites(job, batch) + FailureWrites(job, batch))
        && (counts.Ok? ==>
          counts.value == CountersOf(job, config.canonicalStorage, batch)
          && written == KeptIf(config.canonicalStorage, OnlineWrites(job, batch)))
      ensures Trace(anchor, world, config, written)
      ensures counts.Ok? ==> CompletionJustified(anchor, written, CompletionOf(anchor, counts.value))
    {
    }

    /** Stores an opened batch and finishes the anchor. */
    method StoreAndFinish(anchor: Anchor, decoded: DecodedBatch)
      returns (o: Outcome<Fault>, ghost written: seq<Record>, ghost statuses: seq<StatusWrite>)
      requires records.Valid() && Opens(anchor, world, config)
      requires decoded == DecodedOf(PayloadBatch(anchor, world, config))
      modifies this`completedAnchors, this`faults, anchors, archive, records
      ensures records.Valid() && records.log == old(records.log) + written && Trace(anchor, world, config, written)
      ensures anchors.log == old(anchors.log) + statuses && anchors.docs == UpdatedAll(old(anchors.docs), statuses)
      ensures statuses == [] || (|statuses| == 1 && CompletionJustified(anchor, written, statuses[0]))
      ensures o.Pass? ==> statuses != []
      ensures completedAnchors == old(completedAnchors) + if o.Pass? then 1 else 0
      ensures Faults() >= old(Faults()) && (o.Fail? <==> Faults() > old(Faults()))
      ensures Keeps(old(archive.docs), archive.docs)
    {
      statuses := [];
      var counts;
      counts, written := StoreBatch(JobOf(anchor, world), PayloadBatch(anchor, world, config), decoded);
      StoredIsTraced(anchor, counts, written);
      o := Pass;
      if counts.Err? { o := Fail(counts.error); } else { o, statuses := Finish(anchor, counts.value); }
    }

    /** The body of one attempt: everything inside the outer try. */
    method Attempt(anchor: Anchor)
      returns (o: Outcome<AttemptError>, ghost written: seq<Record>, ghost statuses: seq<StatusWrite>)
      requires records.Valid()
      modifies this`completedAnchors, this`faults, anchors, archive, records
      ensures records.Valid() && records.log == old(records.log) + written && Trace(anchor, world, config, written)
      ensures anchors.log == old(anchors.log) + statuses && anchors.docs == UpdatedAll(old(anchors.docs), statuses)
      ensures statuses == [] || (|statuses| == 1 && CompletionJustified(anchor, written, statuses[0]))
      ensures o.Pass? ==> statuses != []
      ensures o.Fail? ==> Explained(anchor, o.error) && (o.error.UnusableBatch? ==> statuses == [])
      ensures completedAnchors == old(completedAnchors) + if o.Pass? then 1 else 0
      ensures Faults() >= old(Faults())
      ensures Faults() == old(Faults()) ==>
                && (o.Pass? <==> Usable(anchor, old(archive.docs))) && (o.Pass? <==> statuses != [])
                && (o.Fail? ==> o.error == FailureOf(anchor, old(archive.docs)))
      ensures Keeps(old(archive.docs), archive.docs)
    {
      written, statuses := [], [];
      var payload := OpenPayload(anchor);
      if payload.Err? { return Fail(payload.error), [], []; }
      var stored;
      stored, written, statuses := StoreAndFinish(anchor, payload.value);
      if stored.Fail? { return Fail(AsAttemptError(stored.error)), written, statuses; }
      return Pass, written, statuses;
    }

    /** The archive with the anchor's payload marked as decoded, with or without errors. */
    function Marked(docs: Payloads, anchor: Anchor, counts: Counters): Payloads {
      WithDecodeStatus(
        docs, anchor.sourceKey, if counts.invalidEnvelopes == 0 then PayloadDecoded else PayloadDecodedWithErrors, None)
    }

    /** Marks the archived payload when raw storage is on, writes the final status and reports the metrics. */
    method Finish(anchor: Anchor, counts: Counters) returns (o: Outcome<Fault>, ghost statuses: seq<StatusWrite>)
      modifies this`completedAnchors, anchors, archive
      ensures anchors.log == old(anchors.log) + statuses && anchors.docs == UpdatedAll(old(anchors.docs), statuses)
      ensures statuses == [CompletionOf(anchor, counts)] || (statuses == [] && o.Fail?)
      ensures completedAnchors == old(completedAnchors) + if o.Pass? then 1 else 0
      ensures archive.docs == old(archive.docs)
                || (config.rawStorage && archive.docs == Marked(old(archive.docs), anchor, counts))
      ensures statuses != [] && config.rawStorage ==> archive.docs == Marked(old(archive.docs), anchor, counts)
      ensures statuses != [] && config.rawStorage && anchor.sourceKey in archive.docs ==>
                var d := archive.docs[anchor.sourceKey];
                && d.errorCode == None
                && d.status == if counts.invalidEnvelopes == 0 then PayloadDecoded else PayloadDecodedWithErrors
      ensures Faults() >= old(Faults()) && (o.Fail? <==> Faults() > old(Faults()))
      ensures Keeps(old(archive.docs), archive.docs)
    {
      if config.rawStorage {
        var marked := archive.UpdateDecodeStatus(
          anchor.sourceKey, if counts.invalidEnvelopes == 0 then PayloadDecoded else PayloadDecodedWithErrors, None);
        if marked.Fail? { return marked, []; }
      }
      var status := if counts.invalidEnvelopes == 0 then Processed else ProcessedWithErrors;
      var error := if counts.invalidEnvelopes > 0 then Some(EnvelopeErrorsFound) else None;
      o, statuses := anchors.UpdateStatus(StatusWrite(anchor.sourceKey, status, Details(Some(counts), error, None)));
      if o.Pass? { completedAnchors := completedAnchors + 1; }
    }

    /** The counters are those of the anchor's batch. */
    ghost predicate Counted(c: Counters, anchor: Anchor) {
      && Opens(anchor, world, config)
      && CountsOf(c, JobOf(anchor, world), config.canonicalStorage, PayloadBatch(anchor, world, config))
      && Conserved(c, PayloadBatch(anchor, world, config))
    }

    /** What a stored anchor says after its completion: the counters of its batch, and a status and an error code that
        fit them. */
    ghost predicate HoldsCompletion(stored: Anchor, anchor: Anchor) {
      && Counted(stored.counts, anchor) && stored.leaseExpiresAt.None?
      && stored.status == (if stored.counts.validEnvelopes == stored.counts.envelopes then Processed
                           else ProcessedWithErrors)
      && (stored.status.ProcessedWithErrors? ==> stored.errorCode == Some(EnvelopeErrorsFound))
    }

    /** What it says after a failure at some time: the code of a batch that cannot be opened, the exhaustion, or the
        retry with its backoff. */
    ghost predicate HoldsFailure(stored: Anchor, anchor: Anchor, now: int) {
      && stored.leaseExpiresAt.None?
      && if stored.status.RetryPending? then
           && anchor.attemptCount < config.maxAttempts && stored.errorCode == Some(TransientError)
           && stored.availableAt == Some(now + RetryDelay(config.retryBaseMs, anchor.attemptCount))
         else if stored.errorCode == Some(MaxAttemptsExceeded) then
           stored.status.Error? && anchor.attemptCount >= config.maxAttempts
         else
           && stored.status.Error? && Resolve(anchor, world, config.ipfsWireFormat).Ok?
           && EnvelopesIn(anchor, world, config).Err?
           && stored.errorCode == Some(BatchError(EnvelopesIn(anchor, world, config).error))
    }

    lemma CompletionIsStored(docs: Anchors, anchor: Anchor, written: seq<Record>, w: StatusWrite)
      requires anchor.sourceKey in docs && CompletionJustified(anchor, written, w)
      ensures
        var after := UpdatedAll(docs, [w]);
        anchor.sourceKey in after && HoldsCompletion(after[anchor.sourceKey], anchor)
    {
      var job, batch := JobOf(anchor, world), PayloadBatch(anchor, world, config);
      StatusWritesTell(docs, [w], anchor.sourceKey);
      LastOfOne(w);
      CountersMeaning(job, config.canonicalStorage, batch);
      CounterConservation(job, config.canonicalStorage, batch);
    }

    lemma LastOfOne(w: StatusWrite)
      ensures forall part :: LastGiving([w], w.key, part) == if Gives(w, w.key, part) then Some(w) else None
    {
    }

    /** A failure leaves the counters alone. */
    lemma FailureIsStored(docs: Anchors, anchor: Anchor, now: int, w: StatusWrite)
      requires anchor.sourceKey in docs && FailureJustified(anchor, now, w)
      ensures
        var after := UpdatedAll(docs, [w]);
        && anchor.sourceKey in after && HoldsFailure(after[anchor.sourceKey], anchor, now)
        && after[anchor.sourceKey].counts == docs[anchor.sourceKey].counts
    {
      StatusWritesTell(docs, [w], anchor.sourceKey);
      LastOfOne(w);
    }

    /** What the status writes of an attempt leave of the anchor. */
    ghost predicate Ends(
      stored: Anchor, anchor: Anchor, completion: seq<StatusWrite>, failure: seq<StatusWrite>, now: int)
    {
      && (completion != [] ==> Counted(stored.counts, anchor))
      && (completion != [] && failure == [] ==> HoldsCompletion(stored, anchor))
      && (failure != [] ==> HoldsFailure(stored, anchor, now))
    }

    lemma AttemptIsStored(
      docs: Anchors, anchor: Anchor, now: int, written: seq<Record>, completion: seq<StatusWrite>,
      failure: seq<StatusWrite>)
      requires anchor.sourceKey in docs
      requires completion == [] || (|completion| == 1 && CompletionJustified(anchor, written, completion[0]))
      requires failure == [] || (|failure| == 1 && FailureJustified(anchor, now, failure[0]))
      ensures anchor.sourceKey in UpdatedAll(docs, completion + failure)
      ensures Ends(UpdatedAll(docs, completion + failure)[anchor.sourceKey], anchor, completion, failure, now)
    {
      UpdatedAllConcat(docs, completion, failure);
      StatusWritesTell(docs, completion, anchor.sourceKey);
      StatusWritesTell(docs, completion + failure, anchor.sourceKey);
      if completion != [] {
        assert completion == [completion[0]];
        CompletionIsStored(docs, anchor, written, completion[0]);
      }
      if failure != [] {
        assert failure == [failure[0]];
        FailureIsStored(UpdatedAll(docs, completion), anchor, now, failure[0]);
      }
    }

    /** When no call fails, an anchor is completed exactly if its payload can be opened and archived, and otherwise gets
        the failure its payload accounts for. */
    ghost predicate Undisturbed(
      anchor: Anchor, archived: Payloads, completion: seq<StatusWrite>, failure: seq<StatusWrite>, now: int)
    {
      if Usable(anchor, archived) then completion != [] && failure == []
      else completion == [] && failure == [FailureWrite(anchor, FailureOf(anchor, archived), now)]
    }

    /** One attempt and, if it fails, the failure. A completion that reached the collection although its call threw is
        followed by the failure's own status write. */
    method RunAttempt(anchor: Anchor, now: int)
      returns (o: Outcome<Fault>, ghost written: seq<Record>, ghost completion: seq<StatusWrite>,
        ghost failure: seq<StatusWrite>)
      requires records.Valid()
      modifies this`completedAnchors, this`faults, anchors, archive, records
      ensures records.Valid() && records.log == old(records.log) + written && Trace(anchor, world, config, written)
      ensures anchors.log == old(anchors.log) + (completion + failure)
      ensures anchors.docs == UpdatedAll(old(anchors.docs), completion + failure)
      ensures completion == [] || (|completion| == 1 && CompletionJustified(anchor, written, completion[0]))
      ensures failure == [] || (|failure| == 1 && FailureJustified(anchor, now, failure[0]))
      ensures completion != [] && failure != [] ==> failure == [RetryWrite(anchor, config, now)]
      ensures o.Pass? ==> completion != [] || failure != []
      ensures completedAnchors == old(completedAnchors) + if o.Pass? && failure == [] then 1 else 0
      ensures Faults() >= old(Faults())
      ensures Faults() == old(Faults()) ==> o.Pass? && Undisturbed(anchor, old(archive.docs), completion, failure, now)
      ensures Keeps(old(archive.docs), archive.docs)
    {
      var attempt;
      failure := [];
      attempt, written, completion := Attempt(anchor);
      assert completion + [] == completion;
      if attempt.Pass? { return Pass, written, completion, []; }
      if attempt.error.Died? { return Fail(Crashed), written, completion, []; }
      o, failure := RecordFailure(anchor, attempt.error, now);
      UpdatedAllConcat(old(anchors.docs), completion, failure);
      ConcatAssociates(old(anchors.log), completion, failure);
    }

    /** Processes one leased anchor to a status write, or dies trying; and what that leaves in the collections. */
    method ProcessAnchor(anchor: Anchor, now: int)
      returns (o: Outcome<Fault>, ghost written: seq<Record>, ghost completion: seq<StatusWrite>,
        ghost failure: seq<StatusWrite>)
      requires records.Valid()
      modifies this`completedAnchors, this`faults, anchors, archive, records
      ensures records.Valid() && records.log == old(records.log) + written && Trace(anchor, world, config, written)
      ensures records.store == PutAll(old(records.store), written)
      ensures anchors.log == old(anchors.log) + (completion + failure)
      ensures anchors.docs == UpdatedAll(old(anchors.docs), completion + failure)
      ensures completion == [] || (|completion| == 1 && CompletionJustified(anchor, written, completion[0]))
      ensures failure == [] || (|failure| == 1 && FailureJustified(anchor, now, failure[0]))
      ensures completion != [] && failure != [] ==> failure == [RetryWrite(anchor, config, now)]
      ensures completion != [] && config.canonicalStorage ==> Settles(anchor, records.store)
      ensures anchor.sourceKey in anchors.docs ==>
                Ends(anchors.docs[anchor.sourceKey], anchor, completion, failure, now)
      ensures o.Pass? ==> completion != [] || failure != []
      ensures completedAnchors == old(completedAnchors) + if o.Pass? && failure == [] then 1 else 0
      ensures Faults() >= old(Faults())
      ensures Faults() == old(Faults()) ==> o.Pass? && Undisturbed(anchor, old(archive.docs), completion, failure, now)
      ensures Keeps(old(archive.docs), archive.docs)
    {
      o, written, completion, failure := RunAttempt(anchor, now);
      PutAllConcat(records.initial, old(records.log), written);
      if completion != [] && config.canonicalStorage { WritesSettle(anchor, old(records.store), written); }
      StatusWritesTell(old(anchors.docs), completion + failure, anchor.sourceKey);
      if anchor.sourceKey in anchors.docs {
        AttemptIsStored(old(anchors.docs), anchor, now, written, completion, failure);
      }
    }

    /** Every position of the anchor's batch holds its final record, and nothing else survives in those documents. */
    ghost predicate Settles(anchor: Anchor, store: Store) {
      && Opens(anchor, world, config)
      && var batch := PayloadBatch(anchor, world, config);
         forall i :: 0 <= i < |batch| ==> Settled(JobOf(anchor, world), batch, store, i)
    }

    lemma WritesSettle(anchor: Anchor, store: Store, written: seq<Record>)
      requires config.canonicalStorage && FullTrace(anchor, world, config, written)
      ensures Settles(anchor, PutAll(store, written))
    {
      var job, batch := JobOf(anchor, world), PayloadBatch(anchor, world, config);
      forall i | 0 <= i < |batch| ensures Settled(job, batch, PutAll(store, written), i) {
        CompleteAttempt(job, batch, i);
        PutAllIsLastWrite(store, written, RecordKey(job.provenance.sourceKey, i));
      }
    }

    /** The outer catch: the terminal error of an unusable batch, otherwise a retry or exhaustion. */
    method RecordFailure(anchor: Anchor, error: AttemptError, now: int)
      returns (o: Outcome<Fault>, ghost statuses: seq<StatusWrite>)
      requires !error.Died?
      modifies anchors
      ensures anchors.log == old(anchors.log) + statuses && anchors.docs == UpdatedAll(old(anchors.docs), statuses)
      ensures statuses == [FailureWrite(anchor, error, now)] || (statuses == [] && o.Fail?)
      ensures
        var w := FailureWrite(anchor, error, now);
        && w.key == anchor.sourceKey && (w.status.Error? || w.status.RetryPending?)
        && (w.status.RetryPending? <==> !error.UnusableBatch? && anchor.attemptCount < config.maxAttempts)
        && (error.UnusableBatch? ==> w.status.Error? && w.details.errorCode == Some(BatchError(error.code)))
      ensures Faults() >= old(Faults()) && (o.Fail? <==> Faults() > old(Faults()))
    {
      var w := if error.UnusableBatch? then RejectionOf(anchor, error.code) else RetryWrite(anchor, config, now);
      o, statuses := anchors.UpdateStatus(w);
    }

    /** A turn that claims at one time and, should it fail, says so at another. */
    ghost predicate Taken(t: Turn, claimedAt: int, failedAt: int) {
      && FirstClaimable(t.before, claimedAt, t.key)
      && t.anchor == Claimed(t.before[t.key], claimedAt + config.leaseMs)
      && Handled(t, failedAt) && (t.passed ==> t.Statuses() != [])
    }

    /** What was written in a turn is justified by its anchor. */
    ghost predicate Handled(t: Turn, failedAt: int) {
      && Trace(t.anchor, world, config, t.written)
      && (t.completion == [] || (|t.completion| == 1 && CompletionJustified(t.anchor, t.written, t.completion[0])))
      && (t.failure == [] || (|t.failure| == 1 && FailureJustified(t.anchor, failedAt, t.failure[0])))
    }

    /** Processes the anchor of a turn. */
    method ProcessClaimed(ghost before: Moment, ghost key: string, anchor: Anchor, now: int)
      returns (o: Outcome<Fault>, ghost t: Turn)
      requires records.Valid() && Now() == before.(docs := before.docs[key := anchor])
      modifies this`completedAnchors, this`faults, anchors, archive, records
      ensures records.Valid() && t.before == before.docs && t.key == key && t.anchor == anchor
      ensures (t.passed <==> o.Pass?) && (t.passed ==> t.Statuses() != [])
      ensures Handled(t, now) && Turned(before, t, now, Now())
    {
      ghost var written, completion, failure;
      o, written, completion, failure := ProcessAnchor(anchor, now);
      t := Turn(before.docs, before.archived, key, anchor, written, completion, failure, o.Pass?);
    }

    lemma WritesKeepWellFormed(
      docs: Anchors, anchor: Anchor, now: int, written: seq<Record>, completion: seq<StatusWrite>,
      failure: seq<StatusWrite>)
      requires AllWellFormed(docs)
      requires completion == [] || (|completion| == 1 && CompletionJustified(anchor, written, completion[0]))
      requires failure == [] || (|failure| == 1 && FailureJustified(anchor, now, failure[0]))
      ensures AllWellFormed(UpdatedAll(docs, completion + failure))
    {
      if completion != [] { CompletionIsOwn(anchor, written, completion[0]); }
      if failure != [] { FailureIsOwn(anchor, now, failure[0]); }
      OneIssuable(completion);
      OneIssuable(failure);
      UpdatesKeepWellFormed(docs, completion + failure);
    }

    /** A claim that took effect, although its answer was lost. */
    ghost predicate ClaimLeft(docs: Anchors, now: int, after: Anchors) {
      exists key :: FirstClaimable(docs, now, key) && after == docs[key := Claimed(docs[key], now + config.leaseMs)]
    }

    /** The turns of a poll: each begins where the one before ended, which must have passed; the clock is read anew for
        every claim and for every failure. */
    ghost predicate Poll(docs: Anchors, turns: seq<Turn>, clock: nat -> int) {
      forall k :: 0 <= k < |turns| ==> TurnAt(docs, turns, clock, k)
    }

    ghost predicate TurnAt(docs: Anchors, turns: seq<Turn>, clock: nat -> int, k: nat)
      requires k < |turns|
    {
      && turns[k].before == QueueAfter(docs, turns[..k]) && (k > 0 ==> turns[k - 1].passed)
      && Taken(turns[k], clock(2 * k), clock(2 * k + 1))
    }

    /** A completed turn has settled its anchor when it ends. */
    ghost predicate SettlesAt(store: Store, turns: seq<Turn>, k: nat)
      requires k < |turns|
    {
      turns[k].completion != [] && config.canonicalStorage ==>
        Settles(turns[k].anchor, PutAll(store, AllWritten(turns[..k + 1])))
    }

    /** The stored anchor says how its turn ended. */
    ghost predicate EndsAt(turns: seq<Turn>, clock: nat -> int, k: nat)
      requires k < |turns|
    {
      var t := turns[k];
      t.key in t.After() && Ends(t.After()[t.key], t.anchor, t.completion, t.failure, clock(2 * k + 1))
    }

    lemma PollGrows(docs: Anchors, turns: seq<Turn>, clock: nat -> int, t: Turn)
      requires Poll(docs, turns, clock) && t.before == QueueAfter(docs, turns)
      requires forall k :: 0 <= k < |turns| ==> turns[k].passed
      requires Taken(t, clock(2 * |turns|), clock(2 * |turns| + 1))
      ensures Poll(docs, turns + [t], clock)
    {
      var more := turns + [t];
      forall k | 0 <= k < |more| ensures TurnAt(docs, more, clock, k) {
        if k < |turns| {
          assert TurnAt(docs, turns, clock, k) && more[..k] == turns[..k];
        } else {
          assert more[..k] == turns;
        }
      }
    }

    lemma SettlesGrow(store: Store, turns: seq<Turn>, t: Turn)
      requires forall k :: 0 <= k < |turns| ==> SettlesAt(store, turns, k)
      requires t.completion != [] && config.canonicalStorage ==>
                 Settles(t.anchor, PutAll(store, AllWritten(turns) + t.written))
      ensures forall k :: 0 <= k < |turns + [t]| ==> SettlesAt(store, turns + [t], k)
    {
      var more := turns + [t];
      OneMoreTurn(turns, t);
      forall k | 0 <= k < |more| ensures SettlesAt(store, more, k) {
        if k < |turns| {
          assert SettlesAt(store, turns, k) && more[..k + 1] == turns[..k + 1];
        } else {
          assert more[..k + 1] == more;
        }
      }
    }

    lemma TurnWrites(t: Turn, failedAt: int)
      requires Handled(t, failedAt)
      ensures WritesOnly(t.Statuses(), t.anchor.sourceKey)
    {
      if t.completion != [] { CompletionIsOwn(t.anchor, t.written, t.completion[0]); }
      if t.failure != [] { FailureIsOwn(t.anchor, failedAt, t.failure[0]); }
      OneOrNone(t.completion, t.anchor.sourceKey);
      OneOrNone(t.failure, t.anchor.sourceKey);
    }

    lemma CompletionIsOwn(anchor: Anchor, written: seq<Record>, w: StatusWrite)
      requires CompletionJustified(anchor, written, w)
      ensures w.key == anchor.sourceKey && w.status.Completed() && Issuable(w)
    {
    }

    lemma FailureIsOwn(anchor: Anchor, now: int, w: StatusWrite)
      requires FailureJustified(anchor, now, w)
      ensures w.key == anchor.sourceKey && (w.status.Error? || w.status.RetryPending?) && Issuable(w)
    {
    }

    /** A turn concerns its own anchor alone, and if it passed it has written a status. */
    ghost predicate OwnTurn(t: Turn) {
      && t.key in t.before && t.anchor.sourceKey == t.key && WritesOnly(t.Statuses(), t.key)
      && (t.passed ==> t.Statuses() != [])
    }

    lemma TakenIsOwn(t: Turn, claimedAt: int, failedAt: int)
      requires Keyed(t.before) && Taken(t, claimedAt, failedAt)
      ensures OwnTurn(t)
    {
      TurnWrites(t, failedAt);
    }

    /** A turn that passed leaves its anchor without a lease, and touches no other. */
    lemma TurnLeavesOthers(t: Turn)
      requires Keyed(t.before) && OwnTurn(t)
      ensures t.After().Keys == t.before.Keys && Keyed(t.After())
      ensures forall k :: k in t.before && k != t.key ==> t.After()[k] == t.before[k]
      ensures t.passed ==> !t.After()[t.key].status.Processing?
    {
      var docs := t.before[t.key := t.anchor];
      UpdatesKeepKeyed(docs, t.Statuses());
      OwnWritesOnly(docs, t.Statuses(), t.key);
    }

    /** A turn keeps the queue well formed. */
    lemma TurnKeepsQueue(t: Turn, claimedAt: int, failedAt: int)
      requires AllWellFormed(t.before) && Keyed(t.before) && Taken(t, claimedAt, failedAt)
      ensures AllWellFormed(t.After()) && Keyed(t.After())
    {
      ClaimKeeps(t.before, claimedAt, t.before[t.key := t.anchor]);
      WritesKeepWellFormed(t.before[t.key := t.anchor], t.anchor, failedAt, t.written, t.completion, t.failure);
      TakenIsOwn(t, claimedAt, failedAt);
      TurnLeavesOthers(t);
    }

    ghost function Now(): Moment
      reads this, anchors, archive, records
    {
      Moment(anchors.docs, archive.docs, anchors.log, records.log, records.store, completedAnchors, Faults())
    }

    /** What the turns of a poll have done since a moment. */
    ghost predicate Polled(s: Moment, turns: seq<Turn>, clock: nat -> int, now: Moment) {
      && Poll(s.docs, turns, clock)
      && now.statuses == s.statuses + AllStatuses(turns) && now.written == s.written + AllWritten(turns)
      && now.store == PutAll(s.store, AllWritten(turns)) && now.completed == s.completed + Reports(turns)
      && (forall k :: 0 <= k < |turns| ==> SettlesAt(s.store, turns, k) && EndsAt(turns, clock, k))
      && s.faults <= now.faults && Keeps(s.archived, now.archived)
      && (forall k :: 0 <= k < |turns| ==> ArchivedAt(s.archived, turns, k, now.archived))
      && (now.faults == s.faults ==> forall k :: 0 <= k < |turns| ==> UndisturbedAt(turns, clock, k))
    }

    /** The archive of a turn lies between those of the poll. */
    ghost predicate ArchivedAt(before: Payloads, turns: seq<Turn>, k: nat, after: Payloads)
      requires k < |turns|
    {
      Keeps(before, turns[k].archived) && Keeps(turns[k].archived, after)
    }

    ghost predicate UndisturbedAt(turns: seq<Turn>, clock: nat -> int, k: nat)
      requires k < |turns|
    {
      var t := turns[k];
      Undisturbed(t.anchor, t.archived, t.completion, t.failure, clock(2 * k + 1))
    }

    lemma ArchivesGrow(before: Payloads, turns: seq<Turn>, t: Turn, middle: Payloads, after: Payloads)
      requires forall k :: 0 <= k < |turns| ==> ArchivedAt(before, turns, k, middle)
      requires Keeps(before, middle) && t.archived == middle && Keeps(middle, after)
      ensures Keeps(before, after) && forall k :: 0 <= k < |turns + [t]| ==> ArchivedAt(before, turns + [t], k, after)
    {
      forall k | 0 <= k < |turns + [t]| ensures ArchivedAt(before, turns + [t], k, after) {
        assert k < |turns| ==> ArchivedAt(before, turns, k, middle);
      }
    }

    lemma UndisturbedGrow(turns: seq<Turn>, clock: nat -> int, t: Turn)
      requires forall k :: 0 <= k < |turns| ==> UndisturbedAt(turns, clock, k)
      requires Undisturbed(t.anchor, t.archived, t.completion, t.failure, clock(2 * |turns| + 1))
      ensures forall k :: 0 <= k < |turns + [t]| ==> UndisturbedAt(turns + [t], clock, k)
    {
      forall k | 0 <= k < |turns + [t]| ensures UndisturbedAt(turns + [t], clock, k) {
        assert k < |turns| ==> UndisturbedAt(turns, clock, k);
      }
    }

    /** What one turn has done since a moment. */
    ghost predicate Turned(before: Moment, t: Turn, failedAt: int, now: Moment) {
      && t.archived == before.archived && Keeps(before.archived, now.archived) && before.faults <= now.faults
      && (now.faults == before.faults ==>
            t.passed && Undisturbed(t.anchor, t.archived, t.completion, t.failure, failedAt))
      && now.docs == t.After() && now.statuses == before.statuses + t.Statuses()
      && now.written == before.written + t.written && now.store == PutAll(before.store, t.written)
      && now.completed == before.completed + (if t.Reported() then 1 else 0)
    }

    lemma TurnSettles(store: Store, t: Turn, failedAt: int)
      requires Handled(t, failedAt) && t.completion != [] && config.canonicalStorage
      ensures Settles(t.anchor, PutAll(store, t.written))
    {
      WritesSettle(t.anchor, store, t.written);
    }

    lemma TurnIsStored(t: Turn, claimedAt: int, failedAt: int)
      requires Keyed(t.before) && Taken(t, claimedAt, failedAt)
      ensures t.key in t.After() && Ends(t.After()[t.key], t.anchor, t.completion, t.failure, failedAt)
    {
      AttemptIsStored(t.before[t.key := t.anchor], t.anchor, failedAt, t.written, t.completion, t.failure);
    }

    lemma TurnJoins(s: Moment, turns: seq<Turn>, clock: nat -> int, before: Moment, t: Turn, now: Moment)
      requires Polled(s, turns, clock, before) && before.docs == QueueAfter(s.docs, turns) == t.before
      requires Keyed(before.docs) && (forall k :: 0 <= k < |turns| ==> turns[k].passed)
      requires Taken(t, clock(2 * |turns|), clock(2 * |turns| + 1)) && Turned(before, t, clock(2 * |turns| + 1), now)
      ensures Polled(s, turns + [t], clock, now)
    {
      PollGrows(s.docs, turns, clock, t);
      OneMoreTurn(turns, t);
      PutAllConcat(s.store, AllWritten(turns), t.written);
      ConcatAssociates(s.statuses, AllStatuses(turns), t.Statuses());
      ConcatAssociates(s.written, AllWritten(turns), t.written);
      if t.completion != [] && config.canonicalStorage {
        TurnSettles(before.store, t, clock(2 * |turns| + 1));
      }
      SettlesGrow(s.store, turns, t);
      TurnIsStored(t, clock(2 * |turns|), clock(2 * |turns| + 1));
      EndsGrow(turns, clock, t);
      ArchivesGrow(s.archived, turns, t, before.archived, now.archived);
      if now.faults == s.faults { UndisturbedGrow(turns, clock, t); }
    }

    lemma TurnPasses(docs: Anchors, turns: seq<Turn>, t: Turn)
      requires Keyed(t.before) && OwnTurn(t) && AllPassed(t.before, turns)
      ensures Keyed(t.After()) && t.After() == QueueAfter(docs, turns + [t])
      ensures t.passed ==> AllPassed(t.After(), turns + [t])
    {
      TurnLeavesOthers(t);
      if t.passed { PassedGrow(turns, t); }
    }

    /** Every turn has passed, and its anchor carries no lease. */
    ghost predicate AllPassed(docs: Anchors, turns: seq<Turn>) {
      forall k :: 0 <= k < |turns| ==> turns[k].passed && Unleased(docs, turns[k].key)
    }

    ghost predicate Unleased(docs: Anchors, key: string) {
      key in docs && !docs[key].status.Processing?
    }

    lemma PassedGrow(turns: seq<Turn>, t: Turn)
      requires Keyed(t.before) && OwnTurn(t) && AllPassed(t.before, turns) && t.passed
      ensures AllPassed(t.After(), turns + [t])
    {
      TurnLeavesOthers(t);
      forall k | 0 <= k < |turns + [t]|
        ensures (turns + [t])[k].passed && Unleased(t.After(), (turns + [t])[k].key)
      {
        if k < |turns| { assert Unleased(t.before, turns[k].key); }
      }
    }

    lemma EndsGrow(turns: seq<Turn>, clock: nat -> int, t: Turn)
      requires forall k :: 0 <= k < |turns| ==> EndsAt(turns, clock, k)
      requires t.key in t.After()
      requires Ends(t.After()[t.key], t.anchor, t.completion, t.failure, clock(2 * |turns| + 1))
      ensures forall k :: 0 <= k < |turns + [t]| ==> EndsAt(turns + [t], clock, k)
    {
      forall k | 0 <= k < |turns + [t]| ensures EndsAt(turns + [t], clock, k) {
        assert k < |turns| ==> EndsAt(turns, clock, k);
      }
    }

    /** A turn takes a poll from one moment to the next. */
    ghost predicate Turning(before: Moment, t: Turn, clock: nat -> int, k: nat, now: Moment) {
      && t.before == before.docs && Taken(t, clock(2 * k), clock(2 * k + 1))
      && Turned(before, t, clock(2 * k + 1), now)
    }

    /** What the turns of a poll, which all passed, amount to. */
    ghost predicate Amounts(s: Moment, turns: seq<Turn>, clock: nat -> int, now: Moment) {
      Polled(s, turns, clock, now) && now.docs == QueueAfter(s.docs, turns) && AllPassed(now.docs, turns)
    }

    lemma AmountsGrow(s: Moment, turns: seq<Turn>, clock: nat -> int, before: Moment, t: Turn, now: Moment)
      requires Amounts(s, turns, clock, before) && Keyed(before.docs) && Turning(before, t, clock, |turns|, now)
      ensures Polled(s, turns + [t], clock, now) && now.docs == QueueAfter(s.docs, turns + [t])
      ensures t.passed ==> Amounts(s, turns + [t], clock, now)
    {
      TakenIsOwn(t, clock(2 * |turns|), clock(2 * |turns| + 1));
      TurnJoins(s, turns, clock, before, t, now);
      TurnPasses(s.docs, turns, t);
    }

    /** One turn, if there is something to claim. */
    method TakeTurn(claimed: nat, clock: nat -> int) returns (r: Result<bool, QueueError>, ghost taken: Option<Turn>)
      requires records.Valid()
      modifies this`completedAnchors, this`faults, anchors, archive, records
      ensures records.Valid()
      ensures taken.Some? ==> Turning(old(Now()), taken.value, clock, claimed, Now())
      ensures taken.Some? ==> r == Ok(true) || (r.Err? && !taken.value.passed)
      ensures r == Ok(true) ==> taken.Some? && taken.value.passed
      ensures taken.None? ==> Now() == old(Now()).(docs := anchors.docs, faults := Faults())
      ensures taken.None? && anchors.docs != old(anchors.docs) ==>
                r.Err? && ClaimLeft(old(anchors.docs), clock(2 * claimed), anchors.docs)
      ensures r == Ok(false) ==> forall k :: k in anchors.docs ==> !Claimable(anchors.docs[k], clock(2 * claimed))
      ensures Faults() >= old(Faults()) && (r.Err? && config.leaseMs > 0 ==> Faults() > old(Faults()))
    {
      ghost var before := Now();
      r, taken := Ok(false), None;
      var anchor;
      ghost var key;
      anchor, key := anchors.ClaimNext(clock(2 * claimed), config.leaseMs);
      if anchor.Err? {
        r := Err(anchor.error);
      } else if anchor.value.Some? {
        var o;
        ghost var t;
        o, t := ProcessClaimed(before, key, anchor.value.value, clock(2 * claimed + 1));
        r, taken := if o.Fail? then Err(CallFailed(o.error)) else Ok(true), Some(t);
      }
    }

    lemma ClaimKeeps(docs: Anchors, now: int, after: Anchors)
      requires AllWellFormed(docs) && Keyed(docs) && (after == docs || ClaimLeft(docs, now, after))
      ensures AllWellFormed(after) && Keyed(after)
    {
    }

    /** One more turn after those that passed. */
    method NextTurn(ghost s: Moment, ghost turns: seq<Turn>, claimed: nat, clock: nat -> int)
      returns (r: Result<bool, QueueError>, ghost more: seq<Turn>)
      requires records.Valid() && AllWellFormed(anchors.docs) && Keyed(anchors.docs)
      requires claimed == |turns| && Amounts(s, turns, clock, Now())
      modifies this`completedAnchors, this`faults, anchors, archive, records
      ensures records.Valid() && AllWellFormed(anchors.docs) && Keyed(anchors.docs)
      ensures Polled(s, more, clock, Now()) && (more == turns || |more| == claimed + 1)
      ensures r.Ok? ==> Amounts(s, more, clock, Now()) && (r.value <==> |more| == claimed + 1)
      ensures r == Ok(false) ==> forall k :: k in anchors.docs ==> !Claimable(anchors.docs[k], clock(2 * claimed))
      ensures anchors.docs != QueueAfter(s.docs, more) ==>
                r.Err? && more == turns && ClaimLeft(QueueAfter(s.docs, turns), clock(2 * claimed), anchors.docs)
      ensures Faults() >= old(Faults()) && (r.Err? && config.leaseMs > 0 ==> Faults() > old(Faults()))
    {
      ghost var before := Now();
      ghost var taken;
      r, taken := TakeTurn(claimed, clock);
      if taken.Some? {
        TurnKeepsQueue(taken.value, clock(2 * claimed), clock(2 * claimed + 1));
        AmountsGrow(s, turns, clock, before, taken.value, Now());
        more := turns + [taken.value];
      } else {
        ClaimKeeps(before.docs, clock(2 * claimed), anchors.docs);
        PolledApartFromDocs(s, turns, clock, before, Now());
        more := turns;
      }
    }

    /** The turns of a poll. */
    method TakeTurns(clock: nat -> int) returns (r: Result<nat, QueueError>, ghost turns: seq<Turn>)
      requires records.Valid() && AllWellFormed(anchors.docs) && Keyed(anchors.docs)
      modifies this`completedAnchors, this`faults, anchors, archive, records
      ensures records.Valid() && AllWellFormed(anchors.docs) && |turns| <= config.maxAnchorsPerPoll
      ensures Polled(old(Now()), turns, clock, Now())
      ensures r.Ok? ==>
        && r.value == |turns| && Amounts(old(Now()), turns, clock, Now())
        && (|turns| == config.maxAnchorsPerPoll
            || forall k :: k in anchors.docs ==> !Claimable(anchors.docs[k], clock(2 * |turns|)))
      ensures r.Err? && config.leaseMs > 0 ==> Faults() > old(Faults())
      ensures r.Err? && anchors.docs != QueueAfter(old(anchors.docs), turns) ==>
        && (turns == [] || turns[|turns| - 1].passed)
        && ClaimLeft(QueueAfter(old(anchors.docs), turns), clock(2 * |turns|), anchors.docs)
    {
      turns := [];
      r := Ok(0);
      var claimed := 0;
      while claimed < config.maxAnchorsPerPoll
        invariant records.Valid() && AllWellFormed(anchors.docs) && Keyed(anchors.docs) && r.Ok?
        invariant claimed == |turns| <= config.maxAnchorsPerPoll && Faults() >= old(Faults())
        invariant Amounts(old(Now()), turns, clock, Now())
      {
        var more;
        more, turns := NextTurn(old(Now()), turns, claimed, clock);
        if more.Err? {
          r := Err(more.error);
          break;
        }
        if !more.value { break; }
        claimed := claimed + 1;
      }
      if r.Ok? { r := Ok(claimed); }
    }

    lemma PolledApartFromDocs(s: Moment, turns: seq<Turn>, clock: nat -> int, a: Moment, b: Moment)
      requires Polled(s, turns, clock, a) && b == a.(docs := b.docs, faults := b.faults) && a.faults <= b.faults
      ensures Polled(s, turns, clock, b)
    {
    }

    /** One poll: claims and processes anchors until none is claimable or the limit is reached. A poll that overlaps
        another does nothing, and a call that throws ends the poll. However it ends, the queue stays well formed.
        `turns` are the anchors claimed, each with what processing it wrote. If no call failed, every one of them has
        its status write, and either the limit is reached or nothing was claimable at the last reading of the clock; a
        failing claim may have leased one more anchor, and a turn that did not pass is the last. */
    method RunOnce(enabled: bool, clock: nat -> int) returns (r: Result<nat, QueueError>, ghost turns: seq<Turn>)
      requires records.Valid() && AllWellFormed(anchors.docs) && Keyed(anchors.docs)
      modifies this, anchors, archive, records
      ensures records.Valid() && AllWellFormed(anchors.docs) && polling == old(polling)
      ensures old(polling) || !enabled ==> r == Ok(0) && turns == []
      ensures |turns| <= config.maxAnchorsPerPoll && Poll(old(anchors.docs), turns, clock)
      ensures anchors.log == old(anchors.log) + AllStatuses(turns)
      ensures records.log == old(records.log) + AllWritten(turns)
      ensures completedAnchors == old(completedAnchors) + Reports(turns)
      ensures forall k :: 0 <= k < |turns| ==> SettlesAt(old(records.store), turns, k) && EndsAt(turns, clock, k)
      ensures r.Ok? ==>
                && r.value == |turns| && anchors.docs == QueueAfter(old(anchors.docs), turns)
                && forall k :: 0 <= k < |turns| ==>
                  turns[k].passed && turns[k].key in anchors.docs && !anchors.docs[turns[k].key].status.Processing?
      ensures r.Ok? && !old(polling) && enabled ==>
                || |turns| == config.maxAnchorsPerPoll
                || forall k :: k in anchors.docs ==> !Claimable(anchors.docs[k], clock(2 * |turns|))
      ensures Keeps(old(archive.docs), archive.docs)
      ensures forall k :: 0 <= k < |turns| ==> ArchivedAt(old(archive.docs), turns, k, archive.docs)
      ensures Faults() == old(Faults()) ==>
                && (config.leaseMs > 0 ==> r.Ok?) && forall k :: 0 <= k < |turns| ==> UndisturbedAt(turns, clock, k)
      ensures r.Err? && anchors.docs != QueueAfter(old(anchors.docs), turns) ==>
                && (turns == [] || turns[|turns| - 1].passed)
                && ClaimLeft(QueueAfter(old(anchors.docs), turns), clock(2 * |turns|), anchors.docs)
    {
      r, turns := Ok(0), [];
      if enabled && !polling {
        polling := true;
        r, turns := TakeTurns(clock);
        polling := false;
      }
    }
  }
}
