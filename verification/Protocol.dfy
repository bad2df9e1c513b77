/** Connectivity Protocol batches: structural validation, message metadata and the measurement projection. */
module Protocol {
  import opened Wrappers
  import opened CpsKeys

  const SENSOR_ID_LENGTH := 32
  const SIGNATURE_LENGTH := 64
  const MIN_NONCE_LENGTH := 16
  const MAX_NONCE_LENGTH := 32
  const MAX_DATE_MILLISECONDS: nat := 8_640_000_000_000_000

  datatype WireFormat = Raw | Xz | Zstd | Lz4 | Zlib | Unsupported

  /** Structural fault of one envelope. */
  datatype EnvelopeErrorCode = InvalidSensorIdLength | InvalidNonceLength | EmptyMessage | InvalidSignatureLength

  /** Fault that makes a whole batch unusable. */
  datatype BatchErrorCode =
    | EmptyInput | BatchTooLarge | CompressedBatchTooLarge | DecompressionFailed
    | UnsupportedWireFormat | MalformedProtobuf | EmptyBatch | TooManyEnvelopes

  datatype SignatureFailure = ContractUnavailable | InvalidSignature

  datatype MetadataErrorCode = NodeIdMismatch | InvalidTimestamp

  /** Reasons to reject a decoded message for the legacy measurements collection. */
  datatype ProjectionErrorCode =
    | Metadata(code: MetadataErrorCode) | MissingOwner | UnsupportedPayload
    | InvalidMeasurement | InvalidGeo | NoMeasurements

  /** The measurement oneof: the eight cases the service knows, and any other. */
  datatype MeasurementKind =
    | Temperature | Humidity | Pressure | Co2 | Pm25 | Pm10 | NoiseMax | NoiseAvg | UnknownKind(name: string)

  datatype RawEnvelope = RawEnvelope(sensorId: Bytes, nonce: Bytes, message: Bytes, signature: Bytes)

  /** A structurally valid envelope together with its position in the batch. */
  datatype Envelope = Envelope(index: nat, fields: RawEnvelope)

  datatype ValidationError = ValidationError(envelopeIndex: nat, code: EnvelopeErrorCode)

  datatype DecodedBatch = DecodedBatch(envelopes: seq<Envelope>, errors: seq<ValidationError>)

  datatype Limits = Limits(maxCompressedBytes: nat, maxBatchBytes: nat, maxEnvelopeCount: nat)

  datatype MessageMetadata = MessageMetadata(nodeId: nat, timestamp: nat)

  /** A JavaScript number: a finite value, or NaN or an infinity. */
  datatype Num = Finite(value: real) | NotFinite

  /** One public section: a GPS fix, a scalar reading named by its oneof case, or anything else. */
  datatype PublicEntry = Gps(lat: Num, lng: Num) | Scalar(kind: MeasurementKind, raw: Num) | Blank

  datatype Payload =
    | Urban(public: seq<PublicEntry>, privateCount: nat)
    | Insight(public: seq<PublicEntry>, privateCount: nat)
    | OtherPayload
  {
    predicate Supported() { Urban? || Insight? }
  }

  /** A decoded core.v1.Message; json is its protobuf JSON rendering. */
  datatype Message = Message(metadata: Option<MessageMetadata>, payload: Payload, json: string)

  /** The libraries the pipeline calls, as deterministic functions. */
  datatype Codec = Codec(
    decompress: (Bytes, WireFormat) -> Result<Bytes, BatchErrorCode>,
    parseBatch: Bytes -> Option<seq<RawEnvelope>>,
    signatureError: RawEnvelope -> Option<SignatureFailure>,
    parseMessage: Bytes -> Option<Message>)

  // ---------- structural validation ----------

  function AddIf(codes: seq<EnvelopeErrorCode>, invalid: bool, code: EnvelopeErrorCode): seq<EnvelopeErrorCode> {
    if invalid then codes + [code] else codes
  }

  /** The structural faults of an envelope, in the order of the checks. */
  function EnvelopeErrors(e: RawEnvelope): (codes: seq<EnvelopeErrorCode>)
    ensures |codes| <= 4
    ensures codes == [] <==>
      && |e.sensorId| == SENSOR_ID_LENGTH && MIN_NONCE_LENGTH <= |e.nonce| <= MAX_NONCE_LENGTH
      && |e.message| > 0 && |e.signature| == SIGNATURE_LENGTH
  {
    var sensorId := AddIf([], |e.sensorId| != SENSOR_ID_LENGTH, InvalidSensorIdLength);
    var nonce := AddIf(sensorId, |e.nonce| < MIN_NONCE_LENGTH || |e.nonce| > MAX_NONCE_LENGTH, InvalidNonceLength);
    var message := AddIf(nonce, |e.message| == 0, EmptyMessage);
    AddIf(message, |e.signature| != SIGNATURE_LENGTH, InvalidSignatureLength)
  }

  /** The order in which the faults are looked for. */
  function Rank(code: EnvelopeErrorCode): nat {
    match code
    case InvalidSensorIdLength => 0
    case InvalidNonceLength => 1
    case EmptyMessage => 2
    case InvalidSignatureLength => 3
  }

  /** Each code stands for its own fault, is reported exactly when the envelope has it, and in the order of the
      checks. */
  lemma EnvelopeErrorsMeaning(e: RawEnvelope)
    ensures InvalidSensorIdLength in EnvelopeErrors(e) <==> |e.sensorId| != 32
    ensures InvalidNonceLength in EnvelopeErrors(e) <==> !(16 <= |e.nonce| <= 32)
    ensures EmptyMessage in EnvelopeErrors(e) <==> e.message == []
    ensures InvalidSignatureLength in EnvelopeErrors(e) <==> |e.signature| != 64
    ensures forall i, j :: 0 <= i < j < |EnvelopeErrors(e)| ==> Rank(EnvelopeErrors(e)[i]) < Rank(EnvelopeErrors(e)[j])
  {
  }

  function Tagged(index: nat, codes: seq<EnvelopeErrorCode>): seq<ValidationError> {
    if codes == [] then []
    else Tagged(index, codes[..|codes| - 1]) + [ValidationError(index, codes[|codes| - 1])]
  }

  function AllErrors(batch: seq<RawEnvelope>): seq<ValidationError> {
    if batch == [] then []
    else
      var n := |batch| - 1;
      AllErrors(batch[..n]) + Tagged(n, EnvelopeErrors(batch[n]))
  }

  function ValidEnvelopes(batch: seq<RawEnvelope>): seq<Envelope> {
    if batch == [] then []
    else
      var n := |batch| - 1;
      ValidEnvelopes(batch[..n]) + if EnvelopeErrors(batch[n]) == [] then [Envelope(n, batch[n])] else []
  }

  /** Positions of the structurally invalid envelopes, ascending. */
  function InvalidIndices(batch: seq<RawEnvelope>): seq<nat> {
    if batch == [] then []
    else
      var n := |batch| - 1;
      InvalidIndices(batch[..n]) + if EnvelopeErrors(batch[n]) == [] then [] else [n]
  }

  lemma TaggedAppend(index: nat, codes: seq<EnvelopeErrorCode>, code: EnvelopeErrorCode)
    ensures Tagged(index, codes + [code]) == Tagged(index, codes) + [ValidationError(index, code)]
  {
    assert (codes + [code])[..|codes|] == codes;
  }

  lemma TaggedAddIf(index: nat, codes: seq<EnvelopeErrorCode>, fails: bool, code: EnvelopeErrorCode)
    ensures Tagged(index, AddIf(codes, fails, code))
            == Tagged(index, codes) + if fails then [ValidationError(index, code)] else []
  {
    if fails { TaggedAppend(index, codes, code); }
  }

  method ValidateEnvelope(e: RawEnvelope, index: nat) returns (errors: seq<ValidationError>)
    ensures errors == Tagged(index, EnvelopeErrors(e))
  {
    errors := [];
    ghost var codes: seq<EnvelopeErrorCode> := [];
    var sensorId := |e.sensorId| != SENSOR_ID_LENGTH;
    TaggedAddIf(index, codes, sensorId, InvalidSensorIdLength);
    if sensorId { errors := errors + [ValidationError(index, InvalidSensorIdLength)]; }
    codes := AddIf(codes, sensorId, InvalidSensorIdLength);
    var nonce := |e.nonce| < MIN_NONCE_LENGTH || |e.nonce| > MAX_NONCE_LENGTH;
    TaggedAddIf(index, codes, nonce, InvalidNonceLength);
    if nonce { errors := errors + [ValidationError(index, InvalidNonceLength)]; }
    codes := AddIf(codes, nonce, InvalidNonceLength);
    var message := |e.message| == 0;
    TaggedAddIf(index, codes, message, EmptyMessage);
    if message { errors := errors + [ValidationError(index, EmptyMessage)]; }
    codes := AddIf(codes, message, EmptyMessage);
    var signature := |e.signature| != SIGNATURE_LENGTH;
    TaggedAddIf(index, codes, signature, InvalidSignatureLength);
    if signature { errors := errors + [ValidationError(index, InvalidSignatureLength)]; }
    codes := AddIf(codes, signature, InvalidSignatureLength);
    assert codes == EnvelopeErrors(e);
  }

  /** Tagging keeps the codes in order and gives each the same position. */
  lemma {:induction false} TaggedIs(index: nat, codes: seq<EnvelopeErrorCode>)
    ensures Tagged(index, codes) == seq(|codes|, k requires 0 <= k < |codes| => ValidationError(index, codes[k]))
  {
    if codes != [] {
      TaggedIs(index, codes[..|codes| - 1]);
    }
  }

  /** Splits the serialised batch into untrusted envelopes and indexed errors. */
  method DecodeBatch(codec: Codec, limits: Limits, bytes: Bytes) returns (r: Result<DecodedBatch, BatchErrorCode>)
    ensures r == BatchOf(codec, limits, bytes)
  {
    if |bytes| == 0 { return Err(EmptyInput); }
    if |bytes| > limits.maxBatchBytes { return Err(BatchTooLarge); }
    var parsed := codec.parseBatch(bytes);
    if parsed.None? { return Err(MalformedProtobuf); }
    var batch := parsed.value;
    if |batch| == 0 { return Err(EmptyBatch); }
    if |batch| > limits.maxEnvelopeCount { return Err(TooManyEnvelopes); }
    var envelopes, errors := [], [];
    for index := 0 to |batch|
      invariant envelopes == ValidEnvelopes(batch[..index]) && errors == AllErrors(batch[..index])
    {
      assert batch[..index + 1][..index] == batch[..index];
      var envelopeErrors := ValidateEnvelope(batch[index], index);
      TaggedIs(index, EnvelopeErrors(batch[index]));
      errors := errors + envelopeErrors;
      if |envelopeErrors| == 0 {
        envelopes := envelopes + [Envelope(index, batch[index])];
      }
    }
    assert batch[..|batch|] == batch;
    return Ok(DecodedBatch(envelopes, errors));
  }

  /** The envelopes a serialised batch holds, when it can be opened at all. */
  function Opened(codec: Codec, limits: Limits, bytes: Bytes): (r: Result<seq<RawEnvelope>, BatchErrorCode>)
    ensures r.Ok? ==> 0 < |r.value| <= limits.maxEnvelopeCount
  {
    if |bytes| == 0 then Err(EmptyInput)
    else if |bytes| > limits.maxBatchBytes then Err(BatchTooLarge)
    else match codec.parseBatch(bytes)
      case None => Err(MalformedProtobuf)
      case Some(batch) =>
        if |batch| == 0 then Err(EmptyBatch)
        else if |batch| > limits.maxEnvelopeCount then Err(TooManyEnvelopes)
        else Ok(batch)
  }

  function BatchOf(codec: Codec, limits: Limits, bytes: Bytes): Result<DecodedBatch, BatchErrorCode> {
    var batch :- Opened(codec, limits, bytes);
    Ok(DecodedBatch(ValidEnvelopes(batch), AllErrors(batch)))
  }

  /** Decompression in front of the batch decoder. */
  function Unpacked(codec: Codec, limits: Limits, bytes: Bytes, format: WireFormat): Result<Bytes, BatchErrorCode> {
    if format == Raw then Ok(bytes)
    else if format == Unsupported then Err(UnsupportedWireFormat)
    else if |bytes| > limits.maxCompressedBytes then Err(CompressedBatchTooLarge)
    else codec.decompress(bytes, format)
  }

  method DecodePayload(codec: Codec, limits: Limits, bytes: Bytes, format: WireFormat)
    returns (r: Result<DecodedBatch, BatchErrorCode>)
    ensures r == match Unpacked(codec, limits, bytes, format)
                 case Ok(unpacked) => BatchOf(codec, limits, unpacked)
                 case Err(code) => Err(code)
  {
    if format == Raw {
      r := DecodeBatch(codec, limits, bytes);
      return;
    }
    if format == Unsupported { return Err(UnsupportedWireFormat); }
    if |bytes| > limits.maxCompressedBytes { return Err(CompressedBatchTooLarge); }
    var unpacked :- codec.decompress(bytes, format);
    r := DecodeBatch(codec, limits, unpacked);
  }

  /** The raw envelopes of a transport payload, or the code of the terminal decode error. */
  function EnvelopesOf(
      codec: Codec, limits: Limits, bytes: Bytes, format: WireFormat): Result<seq<RawEnvelope>, BatchErrorCode>
  {
    var unpacked :- Unpacked(codec, limits, bytes, format);
    Opened(codec, limits, unpacked)
  }

  /** The bytes unpack: raw ones as they are, compressed ones within the limit and by a known format. */
  predicate Unpacks(codec: Codec, limits: Limits, bytes: Bytes, format: WireFormat, unpacked: Bytes) {
    if format.Raw? then unpacked == bytes
    else !format.Unsupported? && |bytes| <= limits.maxCompressedBytes && codec.decompress(bytes, format) == Ok(unpacked)
  }

  /** ... to a batch within the limits. */
  predicate HoldsBatch(codec: Codec, limits: Limits, unpacked: Bytes, batch: seq<RawEnvelope>) {
    && 0 < |unpacked| <= limits.maxBatchBytes && codec.parseBatch(unpacked) == Some(batch)
    && 0 < |batch| <= limits.maxEnvelopeCount
  }

  /** When a payload opens, and why it does not. */
  lemma OpensExactly(
      codec: Codec, limits: Limits, bytes: Bytes, format: WireFormat, unpacked: Bytes, batch: seq<RawEnvelope>)
    ensures EnvelopesOf(codec, limits, bytes, format) == Ok(batch) <==>
            exists u :: Unpacks(codec, limits, bytes, format, u) && HoldsBatch(codec, limits, u, batch)
    ensures Unpacks(codec, limits, bytes, format, unpacked) ==>
      var r := EnvelopesOf(codec, limits, bytes, format);
      && (unpacked == [] ==> r == Err(EmptyInput))
      && (unpacked != [] && |unpacked| > limits.maxBatchBytes ==> r == Err(BatchTooLarge))
      && (0 < |unpacked| <= limits.maxBatchBytes && codec.parseBatch(unpacked).None? ==> r == Err(MalformedProtobuf))
      && (0 < |unpacked| <= limits.maxBatchBytes && codec.parseBatch(unpacked) == Some([]) ==> r == Err(EmptyBatch))
      && (0 < |unpacked| <= limits.maxBatchBytes && codec.parseBatch(unpacked) == Some(batch) && batch != [] ==>
            (r == Err(TooManyEnvelopes) <==> |batch| > limits.maxEnvelopeCount))
    ensures format.Unsupported? ==> EnvelopesOf(codec, limits, bytes, format) == Err(UnsupportedWireFormat)
    ensures !format.Raw? && !format.Unsupported? && |bytes| > limits.maxCompressedBytes ==>
              EnvelopesOf(codec, limits, bytes, format) == Err(CompressedBatchTooLarge)
    ensures !format.Raw? && !format.Unsupported? && |bytes| <= limits.maxCompressedBytes ==>
              codec.decompress(bytes, format).Err? ==>
              EnvelopesOf(codec, limits, bytes, format) == Err(codec.decompress(bytes, format).error)
  {
    if EnvelopesOf(codec, limits, bytes, format) == Ok(batch) {
      var u := if format.Raw? then bytes else codec.decompress(bytes, format).value;
      assert Unpacks(codec, limits, bytes, format, u) && HoldsBatch(codec, limits, u, batch);
    }
  }

  /** Every position is either an untrusted envelope or carries an error, never both, and nothing else appears. */
  ghost predicate Partitioned(batch: seq<RawEnvelope>, valid: seq<Envelope>, invalid: seq<nat>) {
    && (forall i :: 0 <= i < |batch| ==> (Envelope(i, batch[i]) in valid <==> EnvelopeErrors(batch[i]) == []))
    && (forall i :: 0 <= i < |batch| ==> (i in invalid <==> EnvelopeErrors(batch[i]) != []))
    && (forall e :: e in valid ==> e.index < |batch| && e.fields == batch[e.index])
    && (forall k :: k in invalid ==> k < |batch| && EnvelopeErrors(batch[k]) != [])
    && |valid| + |invalid| == |batch|
  }

  lemma PartitionGrows(batch: seq<RawEnvelope>, e: RawEnvelope, valid: seq<Envelope>, invalid: seq<nat>)
    requires Partitioned(batch, valid, invalid)
    ensures EnvelopeErrors(e) == [] ==> Partitioned(batch + [e], valid + [Envelope(|batch|, e)], invalid)
    ensures EnvelopeErrors(e) != [] ==> Partitioned(batch + [e], valid, invalid + [|batch|])
  {
  }

  lemma SplitStep(batch: seq<RawEnvelope>)
    requires batch != []
    ensures
      var front, e := batch[..|batch| - 1], batch[|batch| - 1];
      if EnvelopeErrors(e) == [] then
        ValidEnvelopes(batch) == ValidEnvelopes(front) + [Envelope(|front|, e)]
          && InvalidIndices(batch) == InvalidIndices(front)
      else
        ValidEnvelopes(batch) == ValidEnvelopes(front) && InvalidIndices(batch) == InvalidIndices(front) + [|front|]
  {
  }

  lemma {:induction false} DecodePartitions(batch: seq<RawEnvelope>)
    ensures Partitioned(batch, ValidEnvelopes(batch), InvalidIndices(batch))
    decreases |batch|
  {
    if batch != [] {
      var front, e := batch[..|batch| - 1], batch[|batch| - 1];
      var valid, invalid := ValidEnvelopes(front), InvalidIndices(front);
      DecodePartitions(front);
      PartitionGrows(front, e, valid, invalid);
      SplitStep(batch);
      assert batch == front + [e];
    }
  }

  // ---------- grouping of structural errors ----------

  /** A JavaScript Map from envelope index to codes: keys in insertion order, and their values. */
  datatype ErrorGroups = ErrorGroups(order: seq<nat>, codes: map<nat, seq<EnvelopeErrorCode>>)

  function AddError(g: ErrorGroups, e: ValidationError): ErrorGroups {
    if e.envelopeIndex in g.codes then
      g.(codes := g.codes[e.envelopeIndex := g.codes[e.envelopeIndex] + [e.code]])
    else
      ErrorGroups(g.order + [e.envelopeIndex], g.codes[e.envelopeIndex := [e.code]])
  }

  function GroupErrors(errors: seq<ValidationError>): ErrorGroups {
    if errors == [] then ErrorGroups([], map[])
    else AddError(GroupErrors(errors[..|errors| - 1]), errors[|errors| - 1])
  }

  method GroupStructuralErrors(errors: seq<ValidationError>) returns (g: ErrorGroups)
    ensures g == GroupErrors(errors)
  {
    var order: seq<nat>, codes: map<nat, seq<EnvelopeErrorCode>> := [], map[];
    for k := 0 to |errors|
      invariant ErrorGroups(order, codes) == GroupErrors(errors[..k])
    {
      assert errors[..k + 1][..k] == errors[..k];
      var e := errors[k];
      if e.envelopeIndex !in codes {
        order := order + [e.envelopeIndex];
      }
      var known := if e.envelopeIndex in codes then codes[e.envelopeIndex] else [];
      assert known == [] ==> known + [e.code] == [e.code];
      codes := codes[e.envelopeIndex := known + [e.code]];
    }
    assert errors[..|errors|] == errors;
    g := ErrorGroups(order, codes);
  }

  function WithGroup(g: ErrorGroups, index: nat, codes: seq<EnvelopeErrorCode>): ErrorGroups {
    if codes == [] then g else ErrorGroups(g.order + [index], g.codes[index := codes])
  }

  lemma AddToGroup(g: ErrorGroups, index: nat, codes: seq<EnvelopeErrorCode>, code: EnvelopeErrorCode)
    requires index !in g.codes
    ensures AddError(WithGroup(g, index, codes), ValidationError(index, code)) == WithGroup(g, index, codes + [code])
  {
    if codes == [] {
      assert codes + [code] == [code];
    } else {
      assert g.codes[index := codes][index := codes + [code]] == g.codes[index := codes + [code]];
    }
  }

  lemma GroupAppend(errors: seq<ValidationError>, e: ValidationError)
    ensures GroupErrors(errors + [e]) == AddError(GroupErrors(errors), e)
  {
  }

  lemma TaggedAfter(errors: seq<ValidationError>, index: nat, codes: seq<EnvelopeErrorCode>)
    requires codes != []
    ensures
      var n := |codes| - 1;
      errors + Tagged(index, codes) == errors + Tagged(index, codes[..n]) + [ValidationError(index, codes[n])]
  {
  }

  lemma {:induction false} GroupTagged(errors: seq<ValidationError>, index: nat, codes: seq<EnvelopeErrorCode>)
    requires index !in GroupErrors(errors).codes
    ensures GroupErrors(errors + Tagged(index, codes)) == WithGroup(GroupErrors(errors), index, codes)
    decreases |codes|
  {
    if codes == [] {
      assert errors + Tagged(index, codes) == errors;
    } else {
      var front, code := codes[..|codes| - 1], codes[|codes| - 1];
      GroupTagged(errors, index, front);
      TaggedAfter(errors, index, codes);
      GroupAppend(errors + Tagged(index, front), ValidationError(index, code));
      AddToGroup(GroupErrors(errors), index, front, code);
      assert codes == front + [code];
    }
  }

  /** The groups are the invalid envelopes of the batch, each with its own codes, in batch order. */
  ghost predicate GroupsOf(g: ErrorGroups, batch: seq<RawEnvelope>) {
    && g.order == InvalidIndices(batch)
    && (forall i :: i in g.codes <==> 0 <= i < |batch| && EnvelopeErrors(batch[i]) != [])
    && (forall i :: i in g.codes ==> g.codes[i] == EnvelopeErrors(batch[i]))
  }

  lemma WithGroupExtends(g: ErrorGroups, batch: seq<RawEnvelope>)
    requires batch != [] && GroupsOf(g, batch[..|batch| - 1])
    ensures GroupsOf(WithGroup(g, |batch| - 1, EnvelopeErrors(batch[|batch| - 1])), batch)
  {
  }

  /** Grouping the decoder's flat error list recovers each invalid envelope's own codes. */
  lemma {:induction false} GroupsAreEnvelopes(batch: seq<RawEnvelope>)
    ensures GroupsOf(GroupErrors(AllErrors(batch)), batch)
    decreases |batch|
  {
    if batch != [] {
      var n := |batch| - 1;
      GroupsAreEnvelopes(batch[..n]);
      WithGroupExtends(GroupErrors(AllErrors(batch[..n])), batch);
      GroupTagged(AllErrors(batch[..n]), n, EnvelopeErrors(batch[n]));
    }
  }

  // ---------- message metadata ----------

  function NodeIdOf(m: Message): nat { if m.metadata.Some? then m.metadata.value.nodeId else 0 }

  function TimestampOf(m: Message): nat { if m.metadata.Some? then m.metadata.value.timestamp else 0 }

  /** The accepted timestamp in milliseconds, or the code of the metadata error. */
  function ValidateMessageMetadata(m: Message, expectedNodeId: string): (r: Result<nat, MetadataErrorCode>)
    ensures r.Ok? <==> Decimal(NodeIdOf(m)) == expectedNodeId && 0 < TimestampOf(m) <= MAX_DATE_MILLISECONDS
    ensures r.Ok? ==> m.metadata.Some? && 0 < r.value == TimestampOf(m)
    ensures r.Err? ==> r.error == (if Decimal(NodeIdOf(m)) != expectedNodeId then NodeIdMismatch else InvalidTimestamp)
  {
    if Decimal(NodeIdOf(m)) != expectedNodeId then Err(NodeIdMismatch)
    else if TimestampOf(m) <= 0 || TimestampOf(m) > MAX_DATE_MILLISECONDS then Err(InvalidTimestamp)
    else Ok(TimestampOf(m))
  }

  // ---------- legacy measurement projection ----------

  datatype Geo = Geo(lat: Num, lng: Num)

  datatype Collected = Collected(geo: Option<Geo>, measurement: map<MeasurementKind, real>, invalidMeasurement: bool)

  datatype Measurement = Measurement(
    sensorId: Bytes, measurement: map<MeasurementKind, real>, geo: Option<Geo>, owner: string, timestamp: nat,
    sourceId: string)

  /** The divisor that takes a protobuf reading to the legacy unit; None for a case that is not stored. */
  function Divisor(kind: MeasurementKind): (divisor: Option<real>)
    ensures divisor.Some? ==> divisor.value > 0.0
  {
    match kind
    case Temperature | Humidity => Some(100.0)
    case Pressure | Pm25 | Pm10 => Some(10.0)
    case Co2 | NoiseMax | NoiseAvg => Some(1.0)
    case UnknownKind(_) => None
  }

  function Scaled(raw: Num, divisor: real): real
    requires raw.Finite? && divisor > 0.0
  {
    raw.value / divisor
  }

  function CollectEntry(c: Collected, e: PublicEntry): Collected {
    match e
    case Gps(lat, lng) => c.(geo := Some(Geo(lat, lng)))
    case Blank => c
    case Scalar(kind, raw) =>
      var divisor := Divisor(kind);
      if divisor.None? then c
      else if raw.NotFinite? then c.(invalidMeasurement := true)
      else c.(measurement := c.measurement[kind := Scaled(raw, divisor.value)])
  }

  function Collect(entries: seq<PublicEntry>): Collected {
    if entries == [] then Collected(None, map[], false)
    else CollectEntry(Collect(entries[..|entries| - 1]), entries[|entries| - 1])
  }

  method CollectPublicMeasurements(sensors: seq<PublicEntry>) returns (c: Collected)
    ensures c == Collect(sensors)
  {
    var geo: Option<Geo> := None;
    var measurement: map<MeasurementKind, real> := map[];
    var invalidMeasurement := false;
    for i := 0 to |sensors|
      invariant Collected(geo, measurement, invalidMeasurement) == Collect(sensors[..i])
    {
      assert sensors[..i + 1][..i] == sensors[..i];
      match sensors[i]
      case Gps(lat, lng) => geo := Some(Geo(lat, lng));
      case Blank =>
      case Scalar(kind, raw) =>
        var divisor := Divisor(kind);
        if divisor.Some? {
          if raw.NotFinite? {
            invalidMeasurement := true;
          } else {
            measurement := measurement[kind := Scaled(raw, divisor.value)];
          }
        }
    }
    assert sensors[..|sensors|] == sensors;
    c := Collected(geo, measurement, invalidMeasurement);
  }

  predicate IsValidGeo(g: Geo) {
    g.lat.Finite? && g.lng.Finite? && -90.0 <= g.lat.value <= 90.0 && -180.0 <= g.lng.value <= 180.0
  }

  /** Accepts or rejects a verified message for the legacy measurements collection. */
  function Transform(e: Envelope, m: Message, nodeId: string, owner: Option<string>, sourceKey: string)
    : (r: Result<Measurement, ProjectionErrorCode>)
    ensures r.Ok? ==> ValidateMessageMetadata(m, nodeId).Ok? && m.payload.Supported()
    ensures r.Ok? ==>
              r.value.timestamp == TimestampOf(m) / 1000 && r.value.sourceId == sourceKey
              && r.value.measurement != map[]
  {
    var metadata := ValidateMessageMetadata(m, nodeId);
    if metadata.Err? then Err(Metadata(metadata.error))
    else if owner.None? || owner.value == "" then Err(MissingOwner)
    else if !m.payload.Supported() then Err(UnsupportedPayload)
    else
      var collected := Collect(m.payload.public);
      if collected.invalidMeasurement then Err(InvalidMeasurement)
      else if collected.geo.Some? && !IsValidGeo(collected.geo.value) then Err(InvalidGeo)
      else if collected.measurement == map[] then Err(NoMeasurements)
      else Ok(Measurement(e.fields.sensorId, collected.measurement, collected.geo, owner.value, metadata.value / 1000,
        sourceKey))
  }

  ghost predicate LastGps(entries: seq<PublicEntry>, i: int) {
    0 <= i < |entries| && entries[i].Gps? && forall j :: i < j < |entries| ==> !entries[j].Gps?
  }

  /** A reading of a mapped kind that is not finite. */
  predicate Unusable(e: PublicEntry) {
    e.Scalar? && Divisor(e.kind).Some? && e.raw.NotFinite?
  }

  /** The kept position is the last GPS section's; one unusable mapped reading is enough to reject the envelope. */
  lemma {:induction false} CollectMeaning(entries: seq<PublicEntry>)
    ensures Collect(entries).invalidMeasurement <==>
      exists i :: 0 <= i < |entries| && Unusable(entries[i])
    ensures Collect(entries).geo.None? <==> forall i :: 0 <= i < |entries| ==> !entries[i].Gps?
    ensures forall i :: LastGps(entries, i) ==> Collect(entries).geo == Some(Geo(entries[i].lat, entries[i].lng))
  {
    if entries != [] {
      var n := |entries| - 1;
      CollectMeaning(entries[..n]);
      assert forall i :: LastGps(entries, i) && i < n ==> LastGps(entries[..n], i);
    }
  }

  /** A finite reading of the kind, of a kind that is mapped. */
  predicate Usable(e: PublicEntry, kind: MeasurementKind) {
    e.Scalar? && e.kind == kind && Divisor(kind).Some? && e.raw.Finite?
  }

  ghost predicate LastUsable(entries: seq<PublicEntry>, i: int, kind: MeasurementKind) {
    0 <= i < |entries| && Usable(entries[i], kind) && forall j :: i < j < |entries| ==> !Usable(entries[j], kind)
  }

  lemma EntryReading(c: Collected, e: PublicEntry, kind: MeasurementKind)
    ensures
      var after := CollectEntry(c, e).measurement;
      if Usable(e, kind) then kind in after && after[kind] == Scaled(e.raw, Divisor(kind).value)
      else (kind in after <==> kind in c.measurement) && (kind in after ==> after[kind] == c.measurement[kind])
  {
  }

  lemma UsableInFront(entries: seq<PublicEntry>, kind: MeasurementKind)
    requires entries != []
    ensures
      var n := |entries| - 1;
      && (forall i :: 0 <= i < n && LastUsable(entries, i, kind) ==> LastUsable(entries[..n], i, kind))
      && ((exists i :: 0 <= i < |entries| && Usable(entries[i], kind)) <==>
            Usable(entries[n], kind) || exists i :: 0 <= i < n && Usable(entries[..n][i], kind))
  {
    var n := |entries| - 1;
    assert forall i :: 0 <= i < n ==> entries[..n][i] == entries[i];
  }

  lemma {:induction false} ReadingPresent(entries: seq<PublicEntry>, kind: MeasurementKind)
    ensures kind in Collect(entries).measurement <==> exists i :: 0 <= i < |entries| && Usable(entries[i], kind)
    decreases |entries|
  {
    if entries != [] {
      var n := |entries| - 1;
      ReadingPresent(entries[..n], kind);
      EntryReading(Collect(entries[..n]), entries[n], kind);
      UsableInFront(entries, kind);
    }
  }

  lemma {:induction false} ReadingIsLast(entries: seq<PublicEntry>, i: int, kind: MeasurementKind)
    requires LastUsable(entries, i, kind)
    ensures kind in Collect(entries).measurement
    ensures Collect(entries).measurement[kind] == Scaled(entries[i].raw, Divisor(kind).value)
    decreases |entries|
  {
    var n := |entries| - 1;
    EntryReading(Collect(entries[..n]), entries[n], kind);
    if i < n {
      UsableInFront(entries, kind);
      ReadingIsLast(entries[..n], i, kind);
    }
  }

  /** A kind is present exactly when a finite reading of it occurs, and holds the last one, scaled. */
  lemma CollectedReadings(entries: seq<PublicEntry>, kind: MeasurementKind)
    ensures kind in Collect(entries).measurement <==> exists i :: 0 <= i < |entries| && Usable(entries[i], kind)
    ensures forall i :: LastUsable(entries, i, kind) ==>
              Collect(entries).measurement[kind] == Scaled(entries[i].raw, Divisor(kind).value)
  {
    ReadingPresent(entries, kind);
    forall i | LastUsable(entries, i, kind)
      ensures Collect(entries).measurement[kind] == Scaled(entries[i].raw, Divisor(kind).value)
    {
      ReadingIsLast(entries, i, kind);
    }
  }

  // ---------- what the projection accepts ----------

  /** The message is for this node and carries a time JavaScript can hold. */
  predicate MetadataFits(m: Message, nodeId: string) {
    && m.metadata.Some? && Decimal(m.metadata.value.nodeId) == nodeId
    && 0 < m.metadata.value.timestamp <= 8_640_000_000_000_000
  }

  /** Everything the projection looks at before the sections. */
  predicate Projectable(m: Message, nodeId: string, owner: Option<string>) {
    MetadataFits(m, nodeId) && owner.Some? && owner.value != "" && m.payload.Supported()
  }

  ghost predicate SomeUnusable(entries: seq<PublicEntry>) {
    exists i :: 0 <= i < |entries| && Unusable(entries[i])
  }

  /** The last GPS section, if there is one, lies on the globe. */
  ghost predicate GeoInRange(entries: seq<PublicEntry>) {
    forall i :: LastGps(entries, i) ==> OnGlobe(entries[i].lat, entries[i].lng)
  }

  predicate OnGlobe(lat: Num, lng: Num) {
    lat.Finite? && lng.Finite? && -90.0 <= lat.value && lat.value <= 90.0 && -180.0 <= lng.value && lng.value <= 180.0
  }

  ghost predicate SomeUsable(entries: seq<PublicEntry>) {
    exists i, kind :: 0 <= i < |entries| && Usable(entries[i], kind)
  }

  lemma {:induction false} LastGpsExists(entries: seq<PublicEntry>) returns (i: int)
    requires exists k :: 0 <= k < |entries| && entries[k].Gps?
    ensures LastGps(entries, i)
    decreases |entries|
  {
    var n := |entries| - 1;
    if entries[n].Gps? {
      i := n;
    } else {
      var k :| 0 <= k < |entries| && entries[k].Gps?;
      assert entries[..n][k].Gps?;
      i := LastGpsExists(entries[..n]);
      assert forall j :: 0 <= j < n ==> entries[..n][j] == entries[j];
    }
  }

  lemma CollectedGeo(entries: seq<PublicEntry>)
    ensures
      var geo := Collect(entries).geo;
      geo.Some? && !IsValidGeo(geo.value) <==> !GeoInRange(entries)
  {
    CollectMeaning(entries);
    if Collect(entries).geo.Some? { var i := LastGpsExists(entries); }
  }

  lemma CollectedSome(entries: seq<PublicEntry>)
    ensures Collect(entries).measurement == map[] <==> !SomeUsable(entries)
  {
    forall kind
      ensures kind in Collect(entries).measurement <==> exists i :: 0 <= i < |entries| && Usable(entries[i], kind)
    {
      ReadingPresent(entries, kind);
    }
    if SomeUsable(entries) {
      var i, kind :| 0 <= i < |entries| && Usable(entries[i], kind);
      assert kind in Collect(entries).measurement;
    }
  }

  /** When a message is rejected, and with which code: the first of the checks that fails decides. */
  lemma TransformRejects(e: Envelope, m: Message, nodeId: string, owner: Option<string>, sourceKey: string)
    ensures
      var r := Transform(e, m, nodeId, owner, sourceKey);
      var public := if m.payload.Supported() then m.payload.public else [];
      && (r.Err? && r.error.Metadata? <==> !MetadataFits(m, nodeId))
      && (r == Err(MissingOwner) <==> MetadataFits(m, nodeId) && (owner == None || owner == Some("")))
      && (r == Err(UnsupportedPayload) <==>
            MetadataFits(m, nodeId) && owner.Some? && owner.value != "" && m.payload.OtherPayload?)
      && (r == Err(InvalidMeasurement) <==> Projectable(m, nodeId, owner) && SomeUnusable(public))
      && (r == Err(InvalidGeo) <==> Projectable(m, nodeId, owner) && !SomeUnusable(public) && !GeoInRange(public))
      && (r == Err(NoMeasurements) <==>
            Projectable(m, nodeId, owner) && !SomeUnusable(public) && GeoInRange(public) && !SomeUsable(public))
      && (r.Err? && r.error.Metadata? ==>
            (r.error.code.NodeIdMismatch? <==> Decimal(NodeIdOf(m)) != nodeId))
  {
    if m.payload.Supported() {
      CollectMeaning(m.payload.public);
      CollectedGeo(m.payload.public);
      CollectedSome(m.payload.public);
    }
  }

  /** When it is accepted, and what the measurement then says: readings in legacy units, the last of each kind, the
      last position, and seconds. */
  lemma TransformAccepts(e: Envelope, m: Message, nodeId: string, owner: Option<string>, sourceKey: string)
    ensures
      var r := Transform(e, m, nodeId, owner, sourceKey);
      && (r.Ok? <==>
            && Projectable(m, nodeId, owner) && !SomeUnusable(m.payload.public) && GeoInRange(m.payload.public)
            && SomeUsable(m.payload.public))
      && (r.Ok? ==>
            && r.value.sensorId == e.fields.sensorId && Some(r.value.owner) == owner && r.value.sourceId == sourceKey
            && r.value.timestamp == m.metadata.value.timestamp / 1000
            && HasReadings(r.value.measurement, m.payload.public) && HasPosition(r.value.geo, m.payload.public))
  {
    TransformRejects(e, m, nodeId, owner, sourceKey);
    if Transform(e, m, nodeId, owner, sourceKey).Ok? {
      forall kind
        ensures ReadingOf(Collect(m.payload.public).measurement, m.payload.public, kind)
      {
        CollectedReadings(m.payload.public, kind);
      }
      CollectMeaning(m.payload.public);
    }
  }

  ghost predicate HasPosition(geo: Option<Geo>, entries: seq<PublicEntry>) {
    && (geo.None? <==> forall i :: 0 <= i < |entries| ==> !entries[i].Gps?)
    && forall i :: LastGps(entries, i) ==> geo == Some(Geo(entries[i].lat, entries[i].lng))
  }

  /** The readings hold a kind exactly when a section gives one, and then the last one, scaled. */
  ghost predicate ReadingOf(readings: map<MeasurementKind, real>, entries: seq<PublicEntry>, kind: MeasurementKind) {
    && (kind in readings <==> exists i :: 0 <= i < |entries| && Usable(entries[i], kind))
    && forall i :: LastUsable(entries, i, kind) ==>
      kind in readings && readings[kind] == Scaled(entries[i].raw, Divisor(kind).value)
  }

  ghost predicate HasReadings(readings: map<MeasurementKind, real>, entries: seq<PublicEntry>) {
    forall kind :: ReadingOf(readings, entries, kind)
  }

  /** What is collected from a single reading. */
  function Single(kind: MeasurementKind, raw: real): map<MeasurementKind, real> {
    Collect([Scalar(kind, Finite(raw))]).measurement
  }

  lemma CollectSingle(e: PublicEntry)
    ensures Collect([e]) == CollectEntry(Collected(None, map[], false), e)
  {
    assert [e][..0] == [] && Collect([]) == Collected(None, map[], false);
  }

  lemma SingleReading(kind: MeasurementKind, raw: real, unit: real)
    requires Divisor(kind) == Some(unit)
    ensures Single(kind, raw * unit) == map[kind := raw]
  {
    CollectSingle(Scalar(kind, Finite(raw * unit)));
  }

  /** Readings come in hundredths, tenths or whole units of what the legacy collection holds; others are not kept. */
  lemma LegacyUnits(kind: MeasurementKind, value: real)
    ensures kind.UnknownKind? ==> Single(kind, value) == map[]
    ensures kind.Temperature? || kind.Humidity? ==> Single(kind, value * 100.0) == map[kind := value]
    ensures kind.Pressure? || kind.Pm25? || kind.Pm10? ==> Single(kind, value * 10.0) == map[kind := value]
    ensures kind.Co2? || kind.NoiseMax? || kind.NoiseAvg? ==> Single(kind, value) == map[kind := value]
  {
    match Divisor(kind)
    case None => CollectSingle(Scalar(kind, Finite(value)));
    case Some(unit) => SingleReading(kind, value, unit);
  }
}
