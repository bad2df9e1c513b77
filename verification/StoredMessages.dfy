/** What readers find of a batch once an attempt has stored it, told by the batch and by what the libraries say of its
    envelopes. */
module StoredMessages {
  import opened Wrappers
  import opened CpsKeys
  import opened Protocol
  import opened Records
  import opened Pipeline
  import opened Convergence
  import Pagination
  import SensorLocations
  import OwnerLookup
  import opened AnchorQueue
  import opened Processor

  /** A structurally sound envelope, by the lengths of its fields. */
  predicate Sound(e: RawEnvelope) {
    |e.sensorId| == 32 && 16 <= |e.nonce| <= 32 && |e.message| > 0 && |e.signature| == 64
  }

  /** The signature of a sound envelope holds. */
  predicate Signed(job: Job, e: RawEnvelope) {
    Sound(e) && job.codec.signatureError(e).None?
  }

  /** ... it holds a message of the anchor's node, with an accepted time ... */
  predicate Timely(job: Job, e: RawEnvelope) {
    && Signed(job, e) && job.codec.parseMessage(e.message).Some?
    && MetadataFits(job.codec.parseMessage(e.message).value, job.provenance.nodeId)
  }

  /** ... and the message has a payload the service knows: this is what readers may see. */
  predicate Public(job: Job, e: RawEnvelope) {
    Timely(job, e) && job.codec.parseMessage(e.message).value.payload.Supported()
  }

  function MessageIn(job: Job, e: RawEnvelope): Message
    requires Public(job, e)
  {
    job.codec.parseMessage(e.message).value
  }

  /** A public section is of a measurement type. */
  predicate Carries(entry: PublicEntry, t: MeasurementType) {
    if t.Location? then entry.Gps? else entry.Scalar? && entry.kind == t.kind && !t.kind.UnknownKind?
  }

  ghost predicate CarriesSome(entries: seq<PublicEntry>, t: MeasurementType) {
    exists k :: 0 <= k < |entries| && Carries(entries[k], t)
  }

  /** The message meets the public filters. */
  ghost predicate Passes(job: Job, e: RawEnvelope, f: Pagination.Filter)
    requires Public(job, e)
  {
    var m := MessageIn(job, e);
    var t := m.metadata.value.timestamp;
    && (f.start.Some? ==> f.start.value <= t) && (f.end.Some? ==> t < f.end.value)
    && (f.sensorId.Some? ==> f.sensorId.value == "" || f.sensorId.value == Hex(e.sensorId))
    && (f.nodeId.Some? ==> f.nodeId.value == "" || f.nodeId.value == job.provenance.nodeId)
    && (f.payloadType.Some? ==>
          (f.payloadType.value.UrbanPayload? && m.payload.Urban?)
          || (f.payloadType.value.InsightPayload? && m.payload.Insight?))
    && (f.measurementType.Some? ==> CarriesSome(m.payload.public, f.measurementType.value))
  }

  // ---------- the stored record ----------

  /** The position holds what a complete attempt of either pipeline leaves there. */
  ghost predicate Stored(job: Job, batch: seq<RawEnvelope>, s: Store, i: nat, r: Record)
    requires i < |batch|
  {
    && CanonicallySettled(job, batch, s, i) && r == s.docs[RecordKey(job.provenance.sourceKey, i)].record
  }

  /** Whatever went before or in between, in whatever collection: when the attempt that wrote to a position last is a
      complete one of either pipeline, the position holds what such an attempt leaves. */
  lemma LastCompleteStores(job: Job, batch: seq<RawEnvelope>, s: Store, log: seq<Write>, i: nat)
    requires i < |batch|
    requires
      var last := LastWriter(log, RecordKey(job.provenance.sourceKey, i));
      last.Some? && CompleteEither(job, batch, log, last.value)
    ensures CanonicallySettled(job, batch, PutAll(s, Written(log)), i)
  {
    AttemptUnder(job, batch, i);
    EnoughWrites(job, batch, i);
    MixedAttemptsSettle(job, batch, s, log, i, LastWriter(log, RecordKey(job.provenance.sourceKey, i)).value);
  }

  /** One uninterrupted attempt does. */
  lemma AttemptStores(job: Job, batch: seq<RawEnvelope>, s: Store, writes: seq<Record>, i: nat)
    requires i < |batch| && (writes == OnlineWrites(job, batch) || writes == BackfillWrites(job, batch))
    ensures CanonicallySettled(job, batch, PutAll(s, writes), i)
  {
    CompleteAttempt(job, batch, i);
    FinalsAgree(job, batch, i);
    PutAllIsLastWrite(s, writes, RecordKey(job.provenance.sourceKey, i));
  }

  /** Every envelope can be recovered from its record if it is sound; of an unsound one nothing is kept but its place
      and its faults. */
  lemma EnvelopeIsKept(job: Job, batch: seq<RawEnvelope>, s: Store, i: nat, r: Record)
    requires i < |batch| && Stored(job, batch, s, i, r)
    ensures r.payloadKey == job.provenance.sourceKey && r.envelopeIndex == i && r.cid == job.provenance.cid
    ensures r.nodeId == Some(job.provenance.nodeId) && r.block == Some(job.provenance.block)
    ensures Sound(batch[i]) ==>
      && r.sensorIdRaw.Some? && r.nonce.Some? && r.messageRaw.Some? && r.signature.Some?
      && RawEnvelope(r.sensorIdRaw.value, r.nonce.value, r.messageRaw.value, r.signature.value) == batch[i]
      && r.sensorId == Some(Hex(batch[i].sensorId))
    ensures !Sound(batch[i]) ==>
      && r.sensorIdRaw == r.nonce == r.messageRaw == r.signature == None && r.sensorId == r.messageJson == None
      && r.errorCode == Some(StructuralCodes(EnvelopeErrors(batch[i])))
  {
  }

  /** The three statuses tell how far an envelope got, and the error code what stopped it. */
  lemma StatusesTell(job: Job, batch: seq<RawEnvelope>, s: Store, i: nat, r: Record)
    requires i < |batch| && Stored(job, batch, s, i, r)
    ensures r.structureStatus.StructureValid? <==> Sound(batch[i])
    ensures r.signatureStatus.SignatureValid? <==> Signed(job, batch[i])
    ensures r.signatureStatus.SignatureNotChecked? <==> !Sound(batch[i])
    ensures r.signatureStatus.SignatureInvalid? <==> Sound(batch[i]) && !Signed(job, batch[i])
    ensures r.decodeStatus.Decoded? <==> Public(job, batch[i])
    ensures r.decodeStatus.DecodeUnsupported? <==> Timely(job, batch[i]) && !Public(job, batch[i])
    ensures r.decodeStatus.DecodeError? <==> Signed(job, batch[i]) && !Timely(job, batch[i])
    ensures r.decodeStatus.DecodeNotAttempted? <==> !Signed(job, batch[i])
    ensures r.errorCode.None? <==> Timely(job, batch[i])
    ensures Sound(batch[i]) && !Signed(job, batch[i]) ==>
              r.errorCode == Some(Signature(job.codec.signatureError(batch[i]).value))
    ensures Signed(job, batch[i]) ==>
              (r.errorCode == Some(MalformedMessage) <==> job.codec.parseMessage(batch[i].message).None?)
  {
    CanonicalRecordKey(job, Envelope(i, batch[i]));
  }

  /** A rejected message says whether its node or its time is wrong. */
  lemma MetadataErrorTells(job: Job, batch: seq<RawEnvelope>, s: Store, i: nat, r: Record)
    requires i < |batch| && Stored(job, batch, s, i, r)
    requires Signed(job, batch[i]) && job.codec.parseMessage(batch[i].message).Some? && !Timely(job, batch[i])
    ensures
      var m := job.codec.parseMessage(batch[i].message).value;
      && r.messageJson == Some(m.json) && r.recordedAt.None? && r.payloadType.None? && r.measurementTypes == []
      && r.errorCode == Some(MetadataRejected(
           if Decimal(NodeIdOf(m)) != job.provenance.nodeId then NodeIdMismatch else InvalidTimestamp))
      && r.timestampMs == (if m.metadata.Some? then Some(m.metadata.value.timestamp) else None)
  {
  }

  lemma EntryTypeMeans(entry: PublicEntry, t: MeasurementType)
    ensures EntryType(entry) == Some(t) <==> Carries(entry, t)
  {
  }

  lemma TypesMean(entries: seq<PublicEntry>, t: MeasurementType)
    ensures t in MeasurementTypes(entries) <==> CarriesSome(entries, t)
  {
    MeasurementTypesMeaning(entries, t);
    forall k | 0 <= k < |entries|
      ensures EntryType(entries[k]) == Some(t) <==> Carries(entries[k], t)
    {
      EntryTypeMeans(entries[k], t);
    }
  }

  /** A public message is stored as it was sent: its rendering, its time, its payload type, and every type of
      measurement it carries. */
  lemma MessageIsKept(job: Job, batch: seq<RawEnvelope>, s: Store, i: nat, r: Record, t: MeasurementType)
    requires i < |batch| && Stored(job, batch, s, i, r) && Public(job, batch[i])
    ensures
      var m := MessageIn(job, batch[i]);
      && r.messageJson == Some(m.json) && r.recordedAt == r.timestampMs == Some(m.metadata.value.timestamp)
      && (r.payloadType == Some(UrbanPayload) <==> m.payload.Urban?)
      && (r.payloadType == Some(InsightPayload) <==> m.payload.Insight?)
      && (t in r.measurementTypes <==> CarriesSome(m.payload.public, t))
  {
    TypesMean(MessageIn(job, batch[i]).payload.public, t);
  }

  /** A position the online processor has settled is one of these. */
  lemma SettledIsStored(job: Job, batch: seq<RawEnvelope>, s: Store, i: nat)
    requires i < |batch| && Settled(job, batch, s, i)
    ensures CanonicallySettled(job, batch, s, i)
  {
    FinalsAgree(job, batch, i);
  }

  // ---------- what readers find ----------

  /** The API serves exactly the public messages that meet the filters. */
  lemma ServedExactly(job: Job, batch: seq<RawEnvelope>, s: Store, i: nat, f: Pagination.Filter)
    requires i < |batch| && CanonicallySettled(job, batch, s, i)
    ensures
      var d := s.docs[RecordKey(job.provenance.sourceKey, i)];
      Pagination.Matches(d, f) <==> Public(job, batch[i]) && Passes(job, batch[i], f)
  {
    var r := s.docs[RecordKey(job.provenance.sourceKey, i)].record;
    StatusesTell(job, batch, s, i, r);
    EnvelopeIsKept(job, batch, s, i, r);
    if Public(job, batch[i]) {
      MessageIsKept(job, batch, s, i, r, if f.measurementType.Some? then f.measurementType.value else Location);
    }
  }

  /** So does the listing the pages are cut from. */
  lemma ListedInPages(job: Job, batch: seq<RawEnvelope>, s: Store, i: nat, f: Pagination.Filter)
    requires i < |batch| && CanonicallySettled(job, batch, s, i) && Pagination.Servable(s)
    ensures
      var key := RecordKey(job.provenance.sourceKey, i);
      (exists row :: row in Pagination.Select(s, f, None) && row.record.recordKey == key)
        <==> Public(job, batch[i]) && Passes(job, batch[i], f)
  {
    var key := RecordKey(job.provenance.sourceKey, i);
    ServedExactly(job, batch, s, i, f);
    if Pagination.Matches(s.docs[key], f) {
      assert Pagination.Timed(s.docs[key].record);
      assert Pagination.RowOf(s.docs[key]) in Pagination.Select(s, f, None);
    }
  }

  /** The owner lookup regards exactly the public messages. */
  lemma LookedUpExactly(job: Job, batch: seq<RawEnvelope>, s: Store, i: nat, sensor: string)
    requires i < |batch| && CanonicallySettled(job, batch, s, i)
    ensures OwnerLookup.MessageOf(s, RecordKey(job.provenance.sourceKey, i), sensor) <==>
            Public(job, batch[i]) && sensor == Hex(batch[i].sensorId)
  {
    var r := s.docs[RecordKey(job.provenance.sourceKey, i)].record;
    StatusesTell(job, batch, s, i, r);
    EnvelopeIsKept(job, batch, s, i, r);
    if Public(job, batch[i]) { MessageIsKept(job, batch, s, i, r, Location); }
  }

  /** The projection query looks at exactly the public messages with a GPS section. */
  lemma ProjectedExactly(job: Job, batch: seq<RawEnvelope>, s: Store, i: nat)
    requires i < |batch| && CanonicallySettled(job, batch, s, i)
    ensures
      var d := s.docs[RecordKey(job.provenance.sourceKey, i)];
      SensorLocations.Listed(d) <==>
        Public(job, batch[i]) && CarriesSome(MessageIn(job, batch[i]).payload.public, Location)
  {
    var r := s.docs[RecordKey(job.provenance.sourceKey, i)].record;
    StatusesTell(job, batch, s, i, r);
    EnvelopeIsKept(job, batch, s, i, r);
    if Public(job, batch[i]) { MessageIsKept(job, batch, s, i, r, Location); }
  }

  /** Where the stored rendering gives back the public sections, the GPS events of a position are the valid GPS sections
      of its message, at the sensor, the coordinates and the time the message has. */
  lemma EventsAreSections(
      job: Job, batch: seq<RawEnvelope>, s: Store, json: SensorLocations.Json, i: nat, k: nat, sensor: string)
    requires i < |batch| && CanonicallySettled(job, batch, s, i)
    requires Public(job, batch[i]) ==>
               json(MessageIn(job, batch[i]).json) == MessageIn(job, batch[i]).payload.public
    ensures
      var key := RecordKey(job.provenance.sourceKey, i);
      && (SensorLocations.GpsEvent(s, json, key, k, sensor) <==>
            && Public(job, batch[i]) && sensor == Hex(batch[i].sensorId)
            && var public := MessageIn(job, batch[i]).payload.public;
               k < |public| && public[k].Gps? && OnGlobe(public[k].lat, public[k].lng))
      && (SensorLocations.GpsEvent(s, json, key, k, sensor) ==>
            var m := MessageIn(job, batch[i]);
            SensorLocations.PositionOf(s, json, key, k)
              == SensorLocations.Position(Geo(m.payload.public[k].lat, m.payload.public[k].lng), key, s.docs[key].id,
                   m.metadata.value.timestamp))
  {
    var key := RecordKey(job.provenance.sourceKey, i);
    var r := s.docs[key].record;
    ProjectedExactly(job, batch, s, i);
    EnvelopeIsKept(job, batch, s, i, r);
    if Public(job, batch[i]) {
      var m := MessageIn(job, batch[i]);
      MessageIsKept(job, batch, s, i, r, Location);
      if k < |m.payload.public| && m.payload.public[k].Gps? {
        assert Carries(m.payload.public[k], Location);
      }
    }
  }

  // ---------- the legacy projection's verdict ----------

  /** What the transformer says of the message at a position, if it gets to see one. */
  function Transformed(job: Job, batch: seq<RawEnvelope>, i: nat): Option<Result<Measurement, ProjectionErrorCode>>
    requires i < |batch|
  {
    if Signed(job, batch[i]) && job.codec.parseMessage(batch[i].message).Some? then
      Some(Transform(Envelope(i, batch[i]), job.codec.parseMessage(batch[i].message).value, job.provenance.nodeId,
        job.owner, job.provenance.sourceKey))
    else None
  }

  /** After a complete online attempt the record says why the legacy projection rejected its message, if it did. */
  lemma RejectionIsKept(job: Job, batch: seq<RawEnvelope>, s: Store, i: nat)
    requires i < |batch|
    ensures
      var key, transformed := RecordKey(job.provenance.sourceKey, i), Transformed(job, batch, i);
      var t := PutAll(s, OnlineWrites(job, batch));
      && key in t.docs
      && (transformed.Some? && transformed.value.Err? ==>
            t.docs[key].record.projectionErrorCode == Some(Rejected(transformed.value.error)))
      && (transformed.None? || transformed.value.Ok? ==> t.docs[key].record.projectionErrorCode == None)
  {
    CompleteAttempt(job, batch, i);
    CanonicalRecordKey(job, Envelope(i, batch[i]));
    PutAllIsLastWrite(s, OnlineWrites(job, batch), RecordKey(job.provenance.sourceKey, i));
  }

  /** What the marks of a failed projection change. */
  lemma LastMarkOf(job: Job, batch: seq<RawEnvelope>, i: nat)
    requires i < |batch|
    ensures
      var marks, transformed := PositionMarks(job, batch, i), Transformed(job, batch, i);
      marks == if transformed.Some? && transformed.value.Ok? then
          [FinalOnline(job, batch, i).(projectionErrorCode := Some(LegacyProjectionFailed))]
        else []
  {
  }

  /** If the projection fails as a whole after that, the records of the accepted messages say so, and no other record
      changes. */
  lemma FailureIsKept(job: Job, batch: seq<RawEnvelope>, s: Store, i: nat)
    requires i < |batch|
    ensures
      var key, transformed := RecordKey(job.provenance.sourceKey, i), Transformed(job, batch, i);
      var complete := PutAll(s, OnlineWrites(job, batch));
      var failed := PutAll(s, OnlineWrites(job, batch) + FailureWrites(job, batch));
      && key in complete.docs && key in failed.docs
      && failed.docs[key].record ==
         if transformed.Some? && transformed.value.Ok? then
           complete.docs[key].record.(projectionErrorCode := Some(LegacyProjectionFailed))
         else complete.docs[key].record
  {
    var key := RecordKey(job.provenance.sourceKey, i);
    var all := OnlineWrites(job, batch) + FailureWrites(job, batch);
    CompleteAttempt(job, batch, i);
    PutAllIsLastWrite(s, OnlineWrites(job, batch), key);
    AttemptUnder(job, batch, i);
    LastOfPosition(job, batch, i);
    LastMarkOf(job, batch, i);
    LastForIsLastUnder(all, key);
    PutAllIsLastWrite(s, all, key);
  }

  // ---------- from the anchor to the readers ----------

  /** A completed anchor is served: its records name its node, block and content address, and every filter finds exactly
      the public messages of its payload that meet it. */
  lemma CompletedIsServed(p: CpsAnchorProcessor, anchor: Anchor, s: Store, i: nat, f: Pagination.Filter)
    requires p.Settles(anchor, s) && i < |PayloadBatch(anchor, p.world, p.config)|
    ensures
      var job, e := JobOf(anchor, p.world), PayloadBatch(anchor, p.world, p.config)[i];
      var key := RecordKey(anchor.sourceKey, i);
      && key in s.docs && s.docs[key].record.payloadKey == anchor.sourceKey
      && s.docs[key].record.nodeId == Some(anchor.nodeId) && s.docs[key].record.block == Some(anchor.block)
      && s.docs[key].record.cid == (if anchor.ref.Ipfs? then Some(anchor.ref.cid) else None)
      && job.codec == p.world.codec && job.provenance.nodeId == anchor.nodeId && job.owner == anchor.owner
      && (Pagination.Matches(s.docs[key], f) <==> Public(job, e) && Passes(job, e, f))
  {
    var job, batch := JobOf(anchor, p.world), PayloadBatch(anchor, p.world, p.config);
    assert Settled(job, batch, s, i);
    SettledIsStored(job, batch, s, i);
    ServedExactly(job, batch, s, i, f);
    EnvelopeIsKept(job, batch, s, i, s.docs[RecordKey(anchor.sourceKey, i)].record);
  }
}
