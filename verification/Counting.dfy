/** The counters an attempt reports, and what they add up to. */
module Counting {
  import opened Wrappers
  import opened CpsKeys
  import opened Protocol
  import opened Records
  import opened Pipeline
  import opened AnchorQueue

  datatype Tally = Tally(
    invalid: nat, validSignatures: nat, invalidSignatures: nat, decoded: nat, unsupported: nat,
    privateSections: nat, projected: nat)

  function CountMessage(t: Tally, m: Message): Tally {
    if m.payload.Supported() then
      t.(decoded := t.decoded + 1, privateSections := t.privateSections + m.payload.privateCount)
    else t.(unsupported := t.unsupported + 1)
  }

  function CountVerdict(t: Tally, v: Verdict): Tally {
    match v
    case BadSignature(_) => t.(invalid := t.invalid + 1, invalidSignatures := t.invalidSignatures + 1)
    case Malformed => t.(invalid := t.invalid + 1, validSignatures := t.validSignatures + 1)
    case NotProjected(m, _) => CountMessage(t.(invalid := t.invalid + 1, validSignatures := t.validSignatures + 1), m)
    case Projected(m, _) => CountMessage(t.(projected := t.projected + 1, validSignatures := t.validSignatures + 1), m)
  }

  function TallyOf(job: Job, envelopes: seq<Envelope>): Tally {
    if envelopes == [] then Tally(0, 0, 0, 0, 0, 0, 0)
    else CountVerdict(TallyOf(job, envelopes[..|envelopes| - 1]), Judge(job, envelopes[|envelopes| - 1]))
  }

  /** What a structurally valid envelope turns out to be. */
  datatype Class =
    | SignatureFails | SignatureHolds | KnownPayload | OtherKind | ForLegacy
    | Refused | FitsOther | FitsKnown | OnlyPrivate

  /** The message of an envelope whose signature holds. */
  function Verified(job: Job, e: Envelope): Option<Message> {
    if job.codec.signatureError(e.fields).None? then job.codec.parseMessage(e.fields.message) else None
  }

  predicate Falls(job: Job, e: Envelope, kind: Class) {
    var m := Verified(job, e);
    match kind
    case SignatureFails => job.codec.signatureError(e.fields).Some?
    case SignatureHolds => job.codec.signatureError(e.fields).None?
    case KnownPayload => m.Some? && m.value.payload.Supported()
    case OtherKind => m.Some? && !m.value.payload.Supported()
    case ForLegacy =>
      m.Some? && Transform(e, m.value, job.provenance.nodeId, job.owner, job.provenance.sourceKey).Ok?
    case Refused => m.None? || !MetadataFits(m.value, job.provenance.nodeId)
    case FitsOther => m.Some? && MetadataFits(m.value, job.provenance.nodeId) && m.value.payload.OtherPayload?
    case FitsKnown => m.Some? && MetadataFits(m.value, job.provenance.nodeId) && m.value.payload.Supported()
    case OnlyPrivate =>
      && m.Some? && MetadataFits(m.value, job.provenance.nodeId) && m.value.payload.Supported()
      && m.value.payload.public == [] && m.value.payload.privateCount > 0
  }

  /** How many of the envelopes fall into a class. */
  function HowMany(job: Job, envelopes: seq<Envelope>, kind: Class): nat {
    if envelopes == [] then 0
    else
      HowMany(job, envelopes[..|envelopes| - 1], kind)
      + if Falls(job, envelopes[|envelopes| - 1], kind) then 1 else 0
  }

  /** The private sections of the known messages among those of a class. */
  function PrivateSections(job: Job, envelopes: seq<Envelope>, kind: Class): nat {
    if envelopes == [] then 0
    else
      var e := envelopes[|envelopes| - 1];
      PrivateSections(job, envelopes[..|envelopes| - 1], kind)
      + if Falls(job, e, kind) && Falls(job, e, KnownPayload) then Verified(job, e).value.payload.privateCount else 0
  }

  /** Every counter of the tally is a number of envelopes, told by what the libraries say of them. */
  lemma {:induction false} TallyMeaning(job: Job, envelopes: seq<Envelope>)
    ensures
      var t := TallyOf(job, envelopes);
      && t.validSignatures == HowMany(job, envelopes, SignatureHolds)
      && t.invalidSignatures == HowMany(job, envelopes, SignatureFails)
      && t.decoded == HowMany(job, envelopes, KnownPayload) && t.unsupported == HowMany(job, envelopes, OtherKind)
      && t.projected == HowMany(job, envelopes, ForLegacy) && t.invalid == |envelopes| - t.projected
      && t.privateSections == PrivateSections(job, envelopes, KnownPayload)
    decreases |envelopes|
  {
    if envelopes != [] {
      var front, e := envelopes[..|envelopes| - 1], envelopes[|envelopes| - 1];
      TallyMeaning(job, front);
      VerdictMeaning(job, e, TallyOf(job, front));
    }
  }

  /** What one envelope adds. */
  lemma VerdictMeaning(job: Job, e: Envelope, t: Tally)
    ensures
      var after := CountVerdict(t, Judge(job, e));
      && after.validSignatures == t.validSignatures + One(Falls(job, e, SignatureHolds))
      && after.invalidSignatures == t.invalidSignatures + One(Falls(job, e, SignatureFails))
      && after.decoded == t.decoded + One(Falls(job, e, KnownPayload))
      && after.unsupported == t.unsupported + One(Falls(job, e, OtherKind))
      && after.projected == t.projected + One(Falls(job, e, ForLegacy))
      && after.invalid == t.invalid + One(!Falls(job, e, ForLegacy))
      && after.privateSections == t.privateSections
        + if Falls(job, e, KnownPayload) then Verified(job, e).value.payload.privateCount else 0
  {
  }

  function One(holds: bool): nat { if holds then 1 else 0 }

  /** The counters are those of a batch, each told by what it counts. */
  ghost predicate CountsOf(c: Counters, job: Job, stored: bool, batch: seq<RawEnvelope>) {
    var valid := ValidEnvelopes(batch);
    && c.envelopes == |batch| && c.storedRecords == (if stored then |batch| else 0)
    && c.validEnvelopes == HowMany(job, valid, ForLegacy)
    && c.invalidEnvelopes == |AllErrors(batch)| + |valid| - c.validEnvelopes
    && c.validSignatures == HowMany(job, valid, SignatureHolds)
    && c.invalidSignatures == HowMany(job, valid, SignatureFails)
    && c.decoded == HowMany(job, valid, KnownPayload) && c.unsupported == HowMany(job, valid, OtherKind)
    && c.privateSections == PrivateSections(job, valid, KnownPayload)
  }

  /** What every completed batch keeps. */
  ghost predicate Conserved(c: Counters, batch: seq<RawEnvelope>) {
    && c.envelopes == |batch|
    && c.validSignatures + c.invalidSignatures == |ValidEnvelopes(batch)|
    && c.validEnvelopes + c.invalidEnvelopes == |ValidEnvelopes(batch)| + |AllErrors(batch)|
    && |batch| - c.validEnvelopes <= c.invalidEnvelopes <= |batch| - c.validEnvelopes + 3 * |InvalidIndices(batch)|
  }

  lemma CountersMeaning(job: Job, stored: bool, batch: seq<RawEnvelope>)
    ensures CountsOf(CountersOf(job, stored, batch), job, stored, batch)
  {
    ErrorsBound(batch);
    TallyMeaning(job, ValidEnvelopes(batch));
  }

  /** The counters stored with a completed anchor. */
  function CountersOf(job: Job, stored: bool, batch: seq<RawEnvelope>): Counters {
    var t := TallyOf(job, ValidEnvelopes(batch));
    var envelopes := |ValidEnvelopes(batch)| + |InvalidIndices(batch)|;
    Counters(t.projected, |AllErrors(batch)| + t.invalid, envelopes, if stored then envelopes else 0,
      t.validSignatures, t.invalidSignatures, t.decoded, t.unsupported, t.privateSections)
  }

  function CompletedStatus(c: Counters): Status {
    if c.invalidEnvelopes == 0 then Processed else ProcessedWithErrors
  }

  lemma {:induction false} ErrorsBound(batch: seq<RawEnvelope>)
    ensures |InvalidIndices(batch)| <= |AllErrors(batch)| <= 4 * |InvalidIndices(batch)|
    ensures |ValidEnvelopes(batch)| + |InvalidIndices(batch)| == |batch|
    decreases |batch|
  {
    if batch != [] {
      var front, e := batch[..|batch| - 1], batch[|batch| - 1];
      ErrorsBound(front);
      SplitStep(batch);
      TaggedLength(|front|, EnvelopeErrors(e));
      assert AllErrors(batch) == AllErrors(front) + Tagged(|front|, EnvelopeErrors(e));
    }
  }

  lemma TaggedLength(index: nat, codes: seq<EnvelopeErrorCode>)
    ensures |Tagged(index, codes)| == |codes|
  {
    TaggedIs(index, codes);
  }

  lemma {:induction false} TallyBalance(job: Job, envelopes: seq<Envelope>)
    ensures
      var t := TallyOf(job, envelopes);
      && t.validSignatures + t.invalidSignatures == |envelopes|
      && t.projected + t.invalid == |envelopes|
      && t.invalidSignatures <= t.invalid
      && t.decoded + t.unsupported <= t.validSignatures
      && t.projected <= t.decoded
  {
    if envelopes != [] {
      TallyBalance(job, envelopes[..|envelopes| - 1]);
    }
  }

  /** Conservation on every completed batch. Structural errors are counted one by one, up to four per envelope, so
      the rejected count is not a number of envelopes; still it is zero exactly when every envelope was projected. */
  lemma CounterConservation(job: Job, stored: bool, batch: seq<RawEnvelope>)
    ensures
      var c := CountersOf(job, stored, batch);
      Conserved(c, batch) && (CompletedStatus(c).Processed? <==> c.validEnvelopes == c.envelopes)
  {
    ErrorsBound(batch);
    TallyBalance(job, ValidEnvelopes(batch));
    var valid := ValidEnvelopes(batch);
    TotalsAdd(TallyOf(job, valid), |valid|, |InvalidIndices(batch)|, |AllErrors(batch)|, |batch|);
  }

  /** What the counters keep, as numbers. */
  lemma TotalsAdd(t: Tally, valid: nat, invalid: nat, errors: nat, n: nat)
    requires t.projected + t.invalid == valid && valid + invalid == n && invalid <= errors <= 4 * invalid
    ensures n - t.projected <= errors + t.invalid <= n - t.projected + 3 * invalid
    ensures errors + t.invalid == 0 <==> t.projected == valid + invalid
  {
  }

  // ---------- stored records ----------

  function Keys(writes: seq<Record>): set<string> {
    set r | r in writes :: r.recordKey
  }

  function OwnKeys(sourceKey: string, n: nat): set<string> {
    if n == 0 then {} else OwnKeys(sourceKey, n - 1) + {RecordKey(sourceKey, n - 1)}
  }

  lemma {:induction false} OwnKeysMembers(sourceKey: string, n: nat, k: string)
    ensures k in OwnKeys(sourceKey, n) <==> exists i: nat :: i < n && k == RecordKey(sourceKey, i)
  {
    if n > 0 {
      OwnKeysMembers(sourceKey, n - 1, k);
    }
  }

  lemma {:induction false} OwnKeysSize(sourceKey: string, n: nat)
    ensures |OwnKeys(sourceKey, n)| == n
  {
    if n > 0 {
      OwnKeysSize(sourceKey, n - 1);
      OwnKeysMembers(sourceKey, n - 1, RecordKey(sourceKey, n - 1));
      if RecordKey(sourceKey, n - 1) in OwnKeys(sourceKey, n - 1) {
        var i: nat :| i < n - 1 && RecordKey(sourceKey, n - 1) == RecordKey(sourceKey, i);
        RecordKeyInjective(sourceKey, n - 1, sourceKey, i);
      }
    }
  }

  /** The reported number of stored records is the number of distinct documents the attempt wrote: every position of
      the batch, or none when canonical storage is off. */
  lemma StoredRecordCount(job: Job, stored: bool, batch: seq<RawEnvelope>)
    ensures CountersOf(job, stored, batch).storedRecords == |Keys(if stored then OnlineWrites(job, batch) else [])|
    ensures |Keys(OnlineWrites(job, batch))| == |batch| == |Keys(BackfillWrites(job, batch))|
  {
    ErrorsBound(batch);
    AttemptWritesOwnKeys(job, batch);
    WritesCoverKeys(job, batch, OnlineWrites(job, batch));
    WritesCoverKeys(job, batch, BackfillWrites(job, batch));
  }

  /** Writes to every position and to nothing else. */
  lemma WritesCoverKeys(job: Job, batch: seq<RawEnvelope>, writes: seq<Record>)
    requires writes == OnlineWrites(job, batch) || writes == BackfillWrites(job, batch)
    ensures |Keys(writes)| == |batch|
  {
    OwnKeysSize(job.provenance.sourceKey, |batch|);
    AttemptWritesOwnKeys(job, batch);
    forall k ensures k in Keys(writes) <==> k in OwnKeys(job.provenance.sourceKey, |batch|) {
      OwnKeysMembers(job.provenance.sourceKey, |batch|, k);
      if k in Keys(writes) {
        var r :| r in writes && r.recordKey == k;
        assert r in OnlineWrites(job, batch) + FailureWrites(job, batch) || r in BackfillWrites(job, batch);
      }
      if k in OwnKeys(job.provenance.sourceKey, |batch|) {
        var i: nat :| i < |batch| && k == RecordKey(job.provenance.sourceKey, i);
        CompleteAttempt(job, batch, i);
        LastForIsMember(writes, k);
      }
    }
    assert Keys(writes) == OwnKeys(job.provenance.sourceKey, |batch|);
  }

  // ---------- backfill ----------

  function Plus(a: BackfillCounts, b: BackfillCounts): BackfillCounts {
    BackfillCounts(a.records + b.records, a.invalid + b.invalid, a.unsupported + b.unsupported,
      a.privateSections + b.privateSections, a.privateOnly + b.privateOnly)
  }

  /** The count of an envelope whose first record is stored and nothing else known. */
  const ONE_RECORD := BackfillCounts(1, 0, 0, 0, 0)

  /** How the backfill counts one envelope. */
  function BackfillVerdict(job: Job, e: Envelope): BackfillCounts {
    match Judge(job, e)
    case BadSignature(_) | Malformed => ONE_RECORD.(invalid := 1)
    case NotProjected(m, _) => BackfillMessage(job, m)
    case Projected(m, _) => BackfillMessage(job, m)
  }

  function BackfillMessage(job: Job, m: Message): BackfillCounts {
    if ValidateMessageMetadata(m, job.provenance.nodeId).Err? then ONE_RECORD.(invalid := 1)
    else if !m.payload.Supported() then ONE_RECORD.(unsupported := 1)
    else
      ONE_RECORD.(privateSections := m.payload.privateCount,
                  privateOnly := if m.payload.public == [] && m.payload.privateCount > 0 then 1 else 0)
  }

  function BackfillTally(job: Job, envelopes: seq<Envelope>): BackfillCounts {
    if envelopes == [] then NO_BACKFILL_COUNTS
    else Plus(BackfillTally(job, envelopes[..|envelopes| - 1]), BackfillVerdict(job, envelopes[|envelopes| - 1]))
  }

  /** What the backfill counts for a batch. */
  function BackfillCountsOf(job: Job, batch: seq<RawEnvelope>): BackfillCounts {
    var invalid := |InvalidIndices(batch)|;
    Plus(BackfillCounts(invalid, invalid, 0, 0, 0), BackfillTally(job, ValidEnvelopes(batch)))
  }

  /** Every count of the backfill, told by what the libraries say of the envelopes. */
  lemma {:induction false} BackfillTallyMeaning(job: Job, envelopes: seq<Envelope>)
    ensures
      var b := BackfillTally(job, envelopes);
      && b.records == |envelopes| && b.invalid == HowMany(job, envelopes, Refused)
      && b.unsupported == HowMany(job, envelopes, FitsOther)
      && b.privateOnly == HowMany(job, envelopes, OnlyPrivate)
      && b.privateSections == PrivateSections(job, envelopes, FitsKnown)
    decreases |envelopes|
  {
    if envelopes != [] {
      var front, e := envelopes[..|envelopes| - 1], envelopes[|envelopes| - 1];
      BackfillTallyMeaning(job, front);
      BackfillVerdictMeaning(job, e);
    }
  }

  lemma BackfillVerdictMeaning(job: Job, e: Envelope)
    ensures
      var b := BackfillVerdict(job, e);
      && b.records == 1 && b.invalid == One(Falls(job, e, Refused)) && b.unsupported == One(Falls(job, e, FitsOther))
      && b.privateOnly == One(Falls(job, e, OnlyPrivate))
      && b.privateSections == if Falls(job, e, FitsKnown) then Verified(job, e).value.payload.privateCount else 0
  {
  }

  /** The counts of a batch: every position is a record; the structurally invalid ones are among the invalid. */
  ghost predicate BackfillCountsBatch(b: BackfillCounts, job: Job, batch: seq<RawEnvelope>) {
    var valid := ValidEnvelopes(batch);
    && b.records == |batch| && b.invalid == |InvalidIndices(batch)| + HowMany(job, valid, Refused)
    && b.unsupported == HowMany(job, valid, FitsOther) && b.privateOnly == HowMany(job, valid, OnlyPrivate)
    && b.privateSections == PrivateSections(job, valid, FitsKnown)
  }

  lemma BackfillCountsMeaning(job: Job, batch: seq<RawEnvelope>)
    ensures BackfillCountsBatch(BackfillCountsOf(job, batch), job, batch)
  {
    ErrorsBound(batch);
    BackfillTallyMeaning(job, ValidEnvelopes(batch));
    PlusInvalid(|InvalidIndices(batch)|, BackfillTally(job, ValidEnvelopes(batch)));
  }

  lemma PlusInvalid(invalid: nat, b: BackfillCounts)
    ensures Plus(BackfillCounts(invalid, invalid, 0, 0, 0), b)
            == b.(records := b.records + invalid, invalid := b.invalid + invalid)
  {
  }

  predicate Clean(c: BackfillCounts) {
    c.invalid == 0 && c.unsupported == 0
  }

  /** The batch is one the backfill reports as processed, without errors. */
  predicate BackfillClean(job: Job, batch: seq<RawEnvelope>) {
    Clean(BackfillCountsOf(job, batch))
  }

  /** The counts of n envelopes, in the backfill and online. */
  predicate Comparable(b: BackfillCounts, t: Tally, n: nat) {
    && b.records == n && b.invalid + b.unsupported + b.privateOnly <= n
    && t.invalidSignatures <= b.invalid && b.unsupported <= t.unsupported
    && b.privateOnly <= b.privateSections <= t.privateSections
  }

  lemma CompareOne(job: Job, e: Envelope, b: BackfillCounts, t: Tally, n: nat)
    requires Comparable(b, t, n)
    ensures Comparable(Plus(b, BackfillVerdict(job, e)), CountVerdict(t, Judge(job, e)), n + 1)
  {
  }

  lemma {:induction false} TalliesCompare(job: Job, envelopes: seq<Envelope>)
    ensures Comparable(BackfillTally(job, envelopes), TallyOf(job, envelopes), |envelopes|)
    decreases |envelopes|
  {
    if envelopes != [] {
      var front, e := envelopes[..|envelopes| - 1], envelopes[|envelopes| - 1];
      TalliesCompare(job, front);
      CompareOne(job, e, BackfillTally(job, front), TallyOf(job, front), |front|);
    }
  }

  /** Conservation in the backfill, and its counters against the online ones: every position counts as one record and
      in at most one of the three classes; what it calls unsupported and the private sections it finds the online
      processor has counted too, which looks at messages before their metadata. */
  lemma BackfillConservation(job: Job, batch: seq<RawEnvelope>)
    ensures
      var b, c := BackfillCountsOf(job, batch), CountersOf(job, true, batch);
      && b.records == c.storedRecords == |batch|
      && b.invalid + b.unsupported + b.privateOnly <= b.records
      && |InvalidIndices(batch)| + c.invalidSignatures <= b.invalid
      && b.unsupported <= c.unsupported && b.privateOnly <= b.privateSections <= c.privateSections
  {
    ErrorsBound(batch);
    TalliesCompare(job, ValidEnvelopes(batch));
  }

  lemma {:induction false} TallyClean(job: Job, envelopes: seq<Envelope>)
    ensures TallyOf(job, envelopes).invalid == 0 <==> forall e :: e in envelopes ==> Judge(job, e).Projected?
    decreases |envelopes|
  {
    if envelopes != [] {
      var front, last := envelopes[..|envelopes| - 1], envelopes[|envelopes| - 1];
      assert envelopes == front + [last];
      assert forall e :: e in envelopes <==> e in front || e == last;
      TallyClean(job, front);
      assert TallyOf(job, envelopes).invalid
        == TallyOf(job, front).invalid + if Judge(job, last).Projected? then 0 else 1;
    }
  }

  lemma PlusIsClean(a: BackfillCounts, b: BackfillCounts)
    ensures Clean(Plus(a, b)) <==> Clean(a) && Clean(b)
  {
  }

  /** A rejection that concerns only the legacy projection: the owner, the position or the readings of a supported
      message whose metadata is accepted. A missing owner is reported even for an unsupported message. */
  predicate LegacyOnly(v: Verdict) {
    v.NotProjected? && v.message.payload.Supported() && !v.code.Metadata?
  }

  /** An online run that ends PROCESSED is one the backfill reports as processed. The backfill accepts a batch exactly
      when every envelope is structurally valid and each is either projected online or rejected there for a reason of
      the legacy projection alone; those rejections are the whole difference between the two statuses. */
  lemma StatusAgreement(job: Job, stored: bool, batch: seq<RawEnvelope>)
    ensures CompletedStatus(CountersOf(job, stored, batch)).Processed? <==>
      InvalidIndices(batch) == [] && forall e :: e in ValidEnvelopes(batch) ==> Judge(job, e).Projected?
    ensures BackfillClean(job, batch) <==>
      InvalidIndices(batch) == [] && forall e :: e in ValidEnvelopes(batch) ==> Tolerated(Judge(job, e))
    ensures CompletedStatus(CountersOf(job, stored, batch)).Processed? ==> BackfillClean(job, batch)
  {
    OnlineClean(job, stored, batch);
    BackfillCleanMeans(job, batch);
    assert forall v: Verdict :: v.Projected? ==> Tolerated(v);
  }

  lemma OnlineClean(job: Job, stored: bool, batch: seq<RawEnvelope>)
    ensures CompletedStatus(CountersOf(job, stored, batch)).Processed? <==>
      InvalidIndices(batch) == [] && forall e :: e in ValidEnvelopes(batch) ==> Judge(job, e).Projected?
  {
    ErrorsBound(batch);
    TallyClean(job, ValidEnvelopes(batch));
  }

  ghost predicate AllTolerated(job: Job, envelopes: seq<Envelope>) {
    forall e :: e in envelopes ==> Tolerated(Judge(job, e))
  }

  lemma {:induction false} CleanTally(job: Job, envelopes: seq<Envelope>)
    ensures Clean(BackfillTally(job, envelopes)) <==> AllTolerated(job, envelopes)
    decreases |envelopes|
  {
    if envelopes != [] {
      var front, last := envelopes[..|envelopes| - 1], envelopes[|envelopes| - 1];
      assert forall e :: e in envelopes <==> e in front || e == last;
      CleanTally(job, front);
      VerdictAgreement(job, last);
      PlusIsClean(BackfillTally(job, front), BackfillVerdict(job, last));
    }
  }

  lemma BackfillCleanMeans(job: Job, batch: seq<RawEnvelope>)
    ensures BackfillClean(job, batch) <==> InvalidIndices(batch) == [] && AllTolerated(job, ValidEnvelopes(batch))
  {
    var invalid := |InvalidIndices(batch)|;
    CleanTally(job, ValidEnvelopes(batch));
    PlusIsClean(BackfillCounts(invalid, invalid, 0, 0, 0), BackfillTally(job, ValidEnvelopes(batch)));
  }

  predicate Tolerated(v: Verdict) {
    v.Projected? || LegacyOnly(v)
  }

  lemma VerdictAgreement(job: Job, e: Envelope)
    ensures Clean(BackfillVerdict(job, e)) <==> Tolerated(Judge(job, e))
  {
  }
}
