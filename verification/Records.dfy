/** Canonical connectivity records: how they are built, and the collection that stores them. */
module Records {
  import opened Wrappers
  import opened CpsKeys
  import opened Protocol

  datatype StructureStatus = StructureValid | StructureInvalid

  datatype SignatureStatus = SignaturePending | SignatureValid | SignatureInvalid | SignatureNotChecked

  datatype DecodeStatus = DecodePending | Decoded | DecodeUnsupported | DecodeError | DecodeNotAttempted

  datatype PayloadType = UrbanPayload | InsightPayload | UnknownPayload

  datatype MeasurementType = Location | Reading(kind: MeasurementKind)

  /** What the error_code field says. */
  datatype RecordError =
    | StructuralCodes(codes: seq<EnvelopeErrorCode>)
    | Signature(reason: SignatureFailure)
    | MalformedMessage
    | MetadataRejected(code: MetadataErrorCode)

  /** What the projection_error_code field says. */
  datatype ProjectionError = Rejected(code: ProjectionErrorCode) | LegacyProjectionFailed

  datatype Record = Record(
    recordKey: string,
    payloadKey: string,
    envelopeIndex: nat,
    nodeId: Option<string>,
    block: Option<nat>,
    cid: Option<string>,
    sensorId: Option<string>,
    sensorIdRaw: Option<Bytes>,
    timestampMs: Option<nat>,
    recordedAt: Option<nat>,
    nonce: Option<Bytes>,
    messageRaw: Option<Bytes>,
    messageJson: Option<string>,
    signature: Option<Bytes>,
    structureStatus: StructureStatus,
    signatureStatus: SignatureStatus,
    decodeStatus: DecodeStatus,
    errorCode: Option<RecordError>,
    payloadType: Option<PayloadType>,
    measurementTypes: seq<MeasurementType>,
    projectionErrorCode: Option<ProjectionError>)

  /** The anchor fields a record takes its identity and provenance from. */
  datatype Provenance = Provenance(sourceKey: string, nodeId: string, block: nat, cid: Option<string>)

  // ---------- mapper ----------

  function HexDigit(d: nat): char
    requires d < 16
  {
    if d < 10 then Digit(d) else 'a' + (d - 10) as char
  }

  function Hex(bytes: Bytes): string {
    if bytes == [] then ""
    else Hex(bytes[..|bytes| - 1]) + [HexDigit(bytes[|bytes| - 1] / 16), HexDigit(bytes[|bytes| - 1] % 16)]
  }

  /** The value of a lower-case hexadecimal digit. */
  function HexValue(c: char): Option<nat> {
    if '0' <= c <= '9' then Some(c as nat - '0' as nat)
    else if 'a' <= c <= 'f' then Some(c as nat - 'a' as nat + 10)
    else None
  }

  /** The text of a byte string is its bytes, two lower-case digits each. */
  lemma {:induction false} HexMeaning(bytes: Bytes, i: nat)
    requires i < |bytes|
    ensures |Hex(bytes)| == 2 * |bytes|
    ensures
      var high, low := HexValue(Hex(bytes)[2 * i]), HexValue(Hex(bytes)[2 * i + 1]);
      high.Some? && low.Some? && low.value < 16 && 16 * high.value + low.value == bytes[i] as nat
    decreases |bytes|
  {
    var n := |bytes| - 1;
    var rest := Hex(bytes[..n]);
    if n > 0 { HexMeaning(bytes[..n], if i < n then i else 0); }
    assert |rest| == 2 * n;
    assert Hex(bytes) == rest + [HexDigit(bytes[n] / 16), HexDigit(bytes[n] % 16)];
  }

  /** Different byte strings have different texts. */
  lemma HexInjective(a: Bytes, b: Bytes)
    ensures Hex(a) == Hex(b) <==> a == b
  {
    if Hex(a) == Hex(b) {
      if a != [] { HexMeaning(a, 0); }
      if b != [] { HexMeaning(b, 0); }
      forall i | 0 <= i < |a| ensures i < |b| && a[i] == b[i] {
        HexMeaning(a, i);
        HexMeaning(b, i);
      }
    }
  }

  function CreateEnvelopeRecord(p: Provenance, e: Envelope): Record {
    Record(RecordKey(p.sourceKey, e.index), p.sourceKey, e.index, Some(p.nodeId), Some(p.block), p.cid,
      Some(Hex(e.fields.sensorId)), Some(e.fields.sensorId), None, None,
      Some(e.fields.nonce), Some(e.fields.message), None, Some(e.fields.signature),
      StructureValid, SignaturePending, DecodePending, None, None, [], None)
  }

  function CreateInvalidEnvelopeRecord(p: Provenance, index: nat, codes: seq<EnvelopeErrorCode>): Record {
    Record(RecordKey(p.sourceKey, index), p.sourceKey, index, Some(p.nodeId), Some(p.block), p.cid,
      None, None, None, None, None, None, None, None,
      StructureInvalid, SignatureNotChecked, DecodeNotAttempted, Some(StructuralCodes(codes)), None, [], None)
  }

  function AddType(types: seq<MeasurementType>, t: MeasurementType): seq<MeasurementType> {
    if t in types then types else types + [t]
  }

  function EntryType(e: PublicEntry): Option<MeasurementType> {
    match e
    case Gps(_, _) => Some(Location)
    case Scalar(kind, _) => if Divisor(kind).Some? then Some(Reading(kind)) else None
    case Blank => None
  }

  function MeasurementTypes(sensors: seq<PublicEntry>): seq<MeasurementType> {
    if sensors == [] then []
    else
      var types := MeasurementTypes(sensors[..|sensors| - 1]);
      match EntryType(sensors[|sensors| - 1])
      case Some(t) => AddType(types, t)
      case None => types
  }

  method MapMeasurementTypes(sensors: seq<PublicEntry>) returns (types: seq<MeasurementType>)
    ensures types == MeasurementTypes(sensors)
  {
    types := [];
    for i := 0 to |sensors|
      invariant types == MeasurementTypes(sensors[..i])
    {
      assert sensors[..i + 1][..i] == sensors[..i];
      match sensors[i]
      case Gps(_, _) => types := AddType(types, Location);
      case Scalar(kind, _) =>
        if Divisor(kind).Some? {
          types := AddType(types, Reading(kind));
        }
      case Blank =>
    }
    assert sensors[..|sensors|] == sensors;
  }

  /** A type is listed exactly when some public section carries it, and only once. */
  lemma {:induction false} MeasurementTypesMeaning(sensors: seq<PublicEntry>, t: MeasurementType)
    ensures t in MeasurementTypes(sensors) <==> exists i :: 0 <= i < |sensors| && EntryType(sensors[i]) == Some(t)
    ensures forall i, j :: 0 <= i < j < |MeasurementTypes(sensors)| ==>
              MeasurementTypes(sensors)[i] != MeasurementTypes(sensors)[j]
  {
    if sensors != [] {
      MeasurementTypesMeaning(sensors[..|sensors| - 1], t);
    }
  }

  function ApplyDecodedMessage(r: Record, m: Message): Record {
    var metadata := ValidateMessageMetadata(m, if r.nodeId.Some? then r.nodeId.value else "");
    if metadata.Err? then
      r.(timestampMs := if m.metadata.Some? then Some(m.metadata.value.timestamp) else r.timestampMs,
         messageJson := Some(m.json), signatureStatus := SignatureValid, decodeStatus := DecodeError,
         errorCode := Some(MetadataRejected(metadata.error)))
    else if !m.payload.Supported() then
      r.(timestampMs := Some(metadata.value), recordedAt := Some(metadata.value), messageJson := Some(m.json),
         signatureStatus := SignatureValid, decodeStatus := DecodeUnsupported, payloadType := Some(UnknownPayload))
    else
      r.(timestampMs := Some(metadata.value), recordedAt := Some(metadata.value), messageJson := Some(m.json),
         signatureStatus := SignatureValid, decodeStatus := Decoded,
         payloadType := Some(if m.payload.Urban? then UrbanPayload else InsightPayload),
         measurementTypes := MeasurementTypes(m.payload.public))
  }

  function WithBadSignature(r: Record, reason: SignatureFailure): Record {
    r.(signatureStatus := SignatureInvalid, decodeStatus := DecodeNotAttempted, errorCode := Some(Signature(reason)))
  }

  function WithMalformedMessage(r: Record): Record {
    r.(signatureStatus := SignatureValid, decodeStatus := DecodeError, errorCode := Some(MalformedMessage))
  }

  function WithProjectionError(r: Record, error: ProjectionError): Record {
    r.(projectionErrorCode := Some(error))
  }

  // ---------- stored documents ----------

  datatype OptionalField =
    | FNodeId | FBlock | FCid | FSensorId | FSensorIdRaw | FTimestampMs | FRecordedAt | FNonce | FMessageRaw
    | FMessageJson | FSignature | FErrorCode | FPayloadType | FProjectionErrorCode

  /** The optional fields an upsert removes when the new record does not carry them. */
  const OPTIONAL_RECORD_FIELDS: set<OptionalField> := {
    FNodeId, FBlock, FCid, FSensorId, FSensorIdRaw, FTimestampMs, FRecordedAt, FNonce, FMessageRaw,
    FMessageJson, FSignature, FErrorCode, FPayloadType, FProjectionErrorCode }

  /** A stored document: its _id, the record fields, and the two owner fields older versions left behind. */
  datatype Document = Document(id: nat, record: Record, owner: Option<string>, ownerRaw: Option<Bytes>)

  /** One optional field under $set of a given value and $unset of an absent one. */
  function Merge<T>(field: OptionalField, stored: Option<T>, given: Option<T>): Option<T> {
    if given.Some? then given else if field in OPTIONAL_RECORD_FIELDS then None else stored
  }

  /** The update of an existing document: required fields are set, optional ones set or unset. */
  function SetAndUnset(d: Document, r: Record): (updated: Document)
    ensures updated == Document(d.id, r, None, None)
  {
    var s := d.record;
    Document(d.id,
      Record(r.recordKey, r.payloadKey, r.envelopeIndex,
        Merge(FNodeId, s.nodeId, r.nodeId), Merge(FBlock, s.block, r.block), Merge(FCid, s.cid, r.cid),
        Merge(FSensorId, s.sensorId, r.sensorId), Merge(FSensorIdRaw, s.sensorIdRaw, r.sensorIdRaw),
        Merge(FTimestampMs, s.timestampMs, r.timestampMs), Merge(FRecordedAt, s.recordedAt, r.recordedAt),
        Merge(FNonce, s.nonce, r.nonce), Merge(FMessageRaw, s.messageRaw, r.messageRaw),
        Merge(FMessageJson, s.messageJson, r.messageJson), Merge(FSignature, s.signature, r.signature),
        r.structureStatus, r.signatureStatus, r.decodeStatus,
        Merge(FErrorCode, s.errorCode, r.errorCode), Merge(FPayloadType, s.payloadType, r.payloadType),
        r.measurementTypes, Merge(FProjectionErrorCode, s.projectionErrorCode, r.projectionErrorCode)),
      None, None)
  }

  /** The collection connectivity_records, keyed by record_key; nextId is the next unused _id. */
  datatype Store = Store(docs: map<string, Document>, nextId: nat) {
    ghost predicate Valid() {
      && (forall k :: k in docs ==> docs[k].record.recordKey == k && docs[k].id < nextId)
      && (forall k, l :: k in docs && l in docs && docs[k].id == docs[l].id ==> k == l)
    }
  }

  /** The atomic upsert by record_key. */
  function Put(s: Store, r: Record): Store {
    if r.recordKey in s.docs then s.(docs := s.docs[r.recordKey := SetAndUnset(s.docs[r.recordKey], r)])
    else Store(s.docs[r.recordKey := Document(s.nextId, r, None, None)], s.nextId + 1)
  }

  function PutAll(s: Store, writes: seq<Record>): Store {
    if writes == [] then s else Put(PutAll(s, writes[..|writes| - 1]), writes[|writes| - 1])
  }

  /** The last of a sequence of writes that addresses a key. */
  function LastFor(writes: seq<Record>, key: string): Option<Record> {
    if writes == [] then None
    else if writes[|writes| - 1].recordKey == key then Some(writes[|writes| - 1])
    else LastFor(writes[..|writes| - 1], key)
  }

  /** What any sequence of upserts leaves: the last record written under each key, with nothing else surviving
      in its document; untouched keys unchanged; an existing document keeps its _id. */
  lemma {:induction false} PutAllIsLastWrite(s: Store, writes: seq<Record>, key: string)
    ensures
      var t := PutAll(s, writes);
      match LastFor(writes, key)
      case None => (key in t.docs <==> key in s.docs) && (key in s.docs ==> t.docs[key] == s.docs[key])
      case Some(r) =>
        && key in t.docs && t.docs[key] == Document(t.docs[key].id, r, None, None)
        && (key in s.docs ==> t.docs[key].id == s.docs[key].id)
    ensures s.Valid() ==> PutAll(s, writes).Valid()
  {
    if writes != [] {
      PutAllIsLastWrite(s, writes[..|writes| - 1], key);
      PutKeepsValid(PutAll(s, writes[..|writes| - 1]), writes[|writes| - 1]);
    }
  }

  lemma PutKeepsValid(s: Store, r: Record)
    ensures s.Valid() ==> Put(s, r).Valid()
  {
  }

  lemma {:induction false} PutAllConcat(s: Store, xs: seq<Record>, ys: seq<Record>)
    ensures PutAll(s, xs + ys) == PutAll(PutAll(s, xs), ys)
  {
    if ys == [] {
      assert xs + ys == xs;
    } else {
      PutAllConcat(s, xs, ys[..|ys| - 1]);
      assert (xs + ys)[..|xs + ys| - 1] == xs + ys[..|ys| - 1];
    }
  }

  lemma {:induction false} LastForConcat(xs: seq<Record>, ys: seq<Record>, key: string)
    ensures LastFor(xs + ys, key) == if LastFor(ys, key).Some? then LastFor(ys, key) else LastFor(xs, key)
  {
    if ys == [] {
      assert xs + ys == xs;
    } else {
      LastForConcat(xs, ys[..|ys| - 1], key);
      assert (xs + ys)[..|xs + ys| - 1] == xs + ys[..|ys| - 1];
    }
  }

  lemma {:induction false} LastForIsMember(writes: seq<Record>, key: string)
    ensures LastFor(writes, key).Some? ==>
              LastFor(writes, key).value in writes && LastFor(writes, key).value.recordKey == key
    ensures LastFor(writes, key).None? <==> forall r :: r in writes ==> r.recordKey != key
  {
    if writes != [] {
      LastForIsMember(writes[..|writes| - 1], key);
    }
  }

  /** The writes under one key, in order. */
  function Under(writes: seq<Record>, key: string): seq<Record> {
    if writes == [] then []
    else
      var last := writes[|writes| - 1];
      Under(writes[..|writes| - 1], key) + if last.recordKey == key then [last] else []
  }

  lemma {:induction false} UnderConcat(xs: seq<Record>, ys: seq<Record>, key: string)
    ensures Under(xs + ys, key) == Under(xs, key) + Under(ys, key)
    decreases |ys|
  {
    if ys == [] {
      assert xs + ys == xs;
    } else {
      UnderConcat(xs, ys[..|ys| - 1], key);
      assert (xs + ys)[..|xs + ys| - 1] == xs + ys[..|ys| - 1];
    }
  }

  lemma PrefixUnder(done: seq<Record>, all: seq<Record>, key: string)
    requires done <= all
    ensures Under(done, key) <= Under(all, key)
  {
    assert all == done + all[|done|..];
    UnderConcat(done, all[|done|..], key);
  }

  lemma {:induction false} LastForIsLastUnder(writes: seq<Record>, key: string)
    ensures
      var own := Under(writes, key);
      LastFor(writes, key) == if own == [] then None else Some(own[|own| - 1])
  {
    if writes != [] { LastForIsLastUnder(writes[..|writes| - 1], key); }
  }

  /** The repository. A failing upsert may or may not have reached the collection. */
  class RecordCollection {
    var store: Store
    /** What the collection held at first, and every write that took effect since. */
    ghost const initial: Store
    ghost var log: seq<Record>
    /** How many calls have failed. */
    ghost var faults: nat

    ghost predicate Valid()
      reads this
    {
      store == PutAll(initial, log)
    }

    constructor (store: Store)
      ensures Valid() && this.store == initial == store && log == [] && faults == 0
    {
      this.store, initial := store, store;
      log, faults := [], 0;
    }

    method UpsertRecord(r: Record) returns (o: Outcome<Fault>, ghost written: seq<Record>)
      requires Valid()
      modifies this
      ensures Valid() && log == old(log) + written
      ensures written == [r] || (written == [] && o.Fail?)
      ensures faults == old(faults) + if o.Fail? then 1 else 0
    {
      if * { faults := faults + 1; return Fail(Thrown), []; }
      if * { faults := faults + 1; return Fail(Crashed), []; }
      store := Put(store, r);
      assert (log + [r])[..|log|] == log;
      log := log + [r];
      if * { faults := faults + 1; return Fail(Thrown), [r]; }
      if * { faults := faults + 1; return Fail(Crashed), [r]; }
      return Pass, [r];
    }
  }
}
