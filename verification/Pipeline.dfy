/** What one attempt at an anchor writes, as a function of its payload; the services are proved against it. */
module Pipeline {
  import opened Wrappers
  import opened CpsKeys
  import opened Protocol
  import opened Records

  /** Everything that fixes the outcome of an anchor apart from its envelopes. */
  datatype Job = Job(codec: Codec, provenance: Provenance, owner: Option<string>)

  datatype Verdict =
    | BadSignature(reason: SignatureFailure)
    | Malformed
    | NotProjected(message: Message, code: ProjectionErrorCode)
    | Projected(message: Message, measurement: Measurement)

  function Judge(job: Job, e: Envelope): Verdict {
    match job.codec.signatureError(e.fields)
    case Some(reason) => BadSignature(reason)
    case None =>
      match job.codec.parseMessage(e.fields.message)
      case None => Malformed
      case Some(m) =>
        match Transform(e, m, job.provenance.nodeId, job.owner, job.provenance.sourceKey)
        case Err(code) => NotProjected(m, code)
        case Ok(x) => Projected(m, x)
  }

  /** The record the canonical pipeline ends with for a structurally valid envelope. */
  function CanonicalRecord(job: Job, e: Envelope): Record {
    var first := CreateEnvelopeRecord(job.provenance, e);
    match Judge(job, e)
    case BadSignature(reason) => WithBadSignature(first, reason)
    case Malformed => WithMalformedMessage(first)
    case NotProjected(m, _) => ApplyDecodedMessage(first, m)
    case Projected(m, _) => ApplyDecodedMessage(first, m)
  }

  /** ... and the one the online processor ends with. */
  function OnlineRecord(job: Job, e: Envelope): Record {
    match Judge(job, e)
    case NotProjected(_, code) => WithProjectionError(CanonicalRecord(job, e), Rejected(code))
    case _ => CanonicalRecord(job, e)
  }

  /** The upserts of one envelope, in order. */
  function EnvelopeWrites(job: Job, e: Envelope): seq<Record> {
    [CreateEnvelopeRecord(job.provenance, e), CanonicalRecord(job, e)]
    + if Judge(job, e).NotProjected? then [OnlineRecord(job, e)] else []
  }

  function BackfillEnvelopeWrites(job: Job, e: Envelope): seq<Record> {
    [CreateEnvelopeRecord(job.provenance, e), CanonicalRecord(job, e)]
  }

  function EnvelopesWrites(job: Job, envelopes: seq<Envelope>): seq<Record> {
    if envelopes == [] then []
    else EnvelopesWrites(job, envelopes[..|envelopes| - 1]) + EnvelopeWrites(job, envelopes[|envelopes| - 1])
  }

  function BackfillEnvelopesWrites(job: Job, envelopes: seq<Envelope>): seq<Record> {
    if envelopes == [] then []
    else
      var e := envelopes[|envelopes| - 1];
      BackfillEnvelopesWrites(job, envelopes[..|envelopes| - 1]) + BackfillEnvelopeWrites(job, e)
  }

  /** The diagnostic records of the structurally invalid envelopes. */
  function GroupWrites(p: Provenance, g: ErrorGroups, order: seq<nat>): seq<Record>
    requires forall i :: i in order ==> i in g.codes
  {
    if order == [] then []
    else
      var i := order[|order| - 1];
      GroupWrites(p, g, order[..|order| - 1]) + [CreateInvalidEnvelopeRecord(p, i, g.codes[i])]
  }

  function StructuralWrites(p: Provenance, batch: seq<RawEnvelope>): seq<Record> {
    if batch == [] then []
    else
      var n := |batch| - 1;
      StructuralWrites(p, batch[..n]) +
      if EnvelopeErrors(batch[n]) == [] then [] else [CreateInvalidEnvelopeRecord(p, n, EnvelopeErrors(batch[n]))]
  }

  /** All record writes of an uninterrupted online attempt. */
  function OnlineWrites(job: Job, batch: seq<RawEnvelope>): seq<Record> {
    StructuralWrites(job.provenance, batch) + EnvelopesWrites(job, ValidEnvelopes(batch))
  }

  function BackfillWrites(job: Job, batch: seq<RawEnvelope>): seq<Record> {
    StructuralWrites(job.provenance, batch) + BackfillEnvelopesWrites(job, ValidEnvelopes(batch))
  }

  /** The records an attempt marks when the legacy projection fails after all of them were written. */
  function ProjectedRecords(job: Job, envelopes: seq<Envelope>): seq<Record> {
    if envelopes == [] then []
    else
      var e := envelopes[|envelopes| - 1];
      ProjectedRecords(job, envelopes[..|envelopes| - 1])
      + if Judge(job, e).Projected? then [CanonicalRecord(job, e)] else []
  }

  function MarkFailed(records: seq<Record>): seq<Record> {
    if records == [] then []
    else MarkFailed(records[..|records| - 1]) + [WithProjectionError(records[|records| - 1], LegacyProjectionFailed)]
  }

  function FailureWrites(job: Job, batch: seq<RawEnvelope>): seq<Record> {
    MarkFailed(ProjectedRecords(job, ValidEnvelopes(batch)))
  }

  /** The record position i of the batch ends with. */
  function FinalOnline(job: Job, batch: seq<RawEnvelope>, i: nat): Record
    requires i < |batch|
  {
    if EnvelopeErrors(batch[i]) != [] then CreateInvalidEnvelopeRecord(job.provenance, i, EnvelopeErrors(batch[i]))
    else OnlineRecord(job, Envelope(i, batch[i]))
  }

  function FinalBackfill(job: Job, batch: seq<RawEnvelope>, i: nat): Record
    requires i < |batch|
  {
    if EnvelopeErrors(batch[i]) != [] then CreateInvalidEnvelopeRecord(job.provenance, i, EnvelopeErrors(batch[i]))
    else CanonicalRecord(job, Envelope(i, batch[i]))
  }

  // ---------- keys ----------

  /** Every record of an envelope is filed under the envelope's own key. */
  lemma CanonicalRecordKey(job: Job, e: Envelope)
    ensures CanonicalRecord(job, e).recordKey == RecordKey(job.provenance.sourceKey, e.index)
    ensures CanonicalRecord(job, e).projectionErrorCode == None
  {
  }

  /** The key is one of the anchor's: its source key and a batch position below n. */
  ghost predicate OwnKey(job: Job, n: nat, key: string) {
    exists i: nat :: i < n && key == RecordKey(job.provenance.sourceKey, i)
  }

  // ---------- passes over the batch ----------

  /** The passes in which attempts write: diagnostics first, then the envelopes of either pipeline; marks if the legacy
      projection fails. */
  datatype Pass = Diagnostics | OnlineEnvelopes | BackfillEnvelopes | Marks

  function WritesOf(pass: Pass, job: Job, batch: seq<RawEnvelope>): seq<Record> {
    match pass
    case Diagnostics => StructuralWrites(job.provenance, batch)
    case OnlineEnvelopes => EnvelopesWrites(job, ValidEnvelopes(batch))
    case BackfillEnvelopes => BackfillEnvelopesWrites(job, ValidEnvelopes(batch))
    case Marks => FailureWrites(job, batch)
  }

  /** What a pass writes for position i, where the batch has e. */
  function Piece(pass: Pass, job: Job, i: nat, e: RawEnvelope): seq<Record> {
    if EnvelopeErrors(e) != [] then
      if pass.Diagnostics? then [CreateInvalidEnvelopeRecord(job.provenance, i, EnvelopeErrors(e))] else []
    else
      match pass
      case Diagnostics => []
      case OnlineEnvelopes => EnvelopeWrites(job, Envelope(i, e))
      case BackfillEnvelopes => BackfillEnvelopeWrites(job, Envelope(i, e))
      case Marks =>
        if Judge(job, Envelope(i, e)).Projected? then
          [WithProjectionError(CanonicalRecord(job, Envelope(i, e)), LegacyProjectionFailed)]
        else []
  }

  function At(pass: Pass, job: Job, batch: seq<RawEnvelope>, i: nat): seq<Record> {
    if i < |batch| then Piece(pass, job, i, batch[i]) else []
  }

  function Pieces(pass: Pass, job: Job, batch: seq<RawEnvelope>): (pieces: seq<seq<Record>>)
    ensures |pieces| == |batch| && forall i :: 0 <= i < |batch| ==> pieces[i] == Piece(pass, job, i, batch[i])
  {
    seq(|batch|, i requires 0 <= i < |batch| => Piece(pass, job, i, batch[i]))
  }

  function Joined(pieces: seq<seq<Record>>): seq<Record> {
    if pieces == [] then [] else Joined(pieces[..|pieces| - 1]) + pieces[|pieces| - 1]
  }

  lemma EnvelopesGrow(job: Job, envelopes: seq<Envelope>, e: Envelope)
    ensures EnvelopesWrites(job, envelopes + [e]) == EnvelopesWrites(job, envelopes) + EnvelopeWrites(job, e)
    ensures BackfillEnvelopesWrites(job, envelopes + [e])
            == BackfillEnvelopesWrites(job, envelopes) + BackfillEnvelopeWrites(job, e)
  {
    assert (envelopes + [e])[..|envelopes|] == envelopes;
  }

  lemma MarksGrow(job: Job, envelopes: seq<Envelope>, e: Envelope)
    ensures
      var mark := WithProjectionError(CanonicalRecord(job, e), LegacyProjectionFailed);
      MarkFailed(ProjectedRecords(job, envelopes + [e]))
        == MarkFailed(ProjectedRecords(job, envelopes)) + if Judge(job, e).Projected? then [mark] else []
  {
    var records := ProjectedRecords(job, envelopes);
    assert (envelopes + [e])[..|envelopes|] == envelopes;
    assert (records + [CanonicalRecord(job, e)])[..|records|] == records;
    assert records + [] == records;
  }

  lemma PassGrows(pass: Pass, job: Job, batch: seq<RawEnvelope>)
    requires batch != []
    ensures
      var n := |batch| - 1;
      WritesOf(pass, job, batch) == WritesOf(pass, job, batch[..n]) + Piece(pass, job, n, batch[n])
  {
    var n := |batch| - 1;
    SplitStep(batch);
    if EnvelopeErrors(batch[n]) == [] {
      match pass
      case Diagnostics =>
      case Marks => MarksGrow(job, ValidEnvelopes(batch[..n]), Envelope(n, batch[n]));
      case _ => EnvelopesGrow(job, ValidEnvelopes(batch[..n]), Envelope(n, batch[n]));
    }
  }

  lemma PiecesGrow(pass: Pass, job: Job, batch: seq<RawEnvelope>)
    requires batch != []
    ensures
      var n, pieces := |batch| - 1, Pieces(pass, job, batch);
      && pieces[..n] == Pieces(pass, job, batch[..n]) && pieces[n] == Piece(pass, job, n, batch[n])
  {
  }

  /** A pass is its pieces, position after position. */
  lemma {:induction false} PassJoined(pass: Pass, job: Job, batch: seq<RawEnvelope>)
    ensures WritesOf(pass, job, batch) == Joined(Pieces(pass, job, batch))
    decreases |batch|
  {
    if batch != [] {
      var n := |batch| - 1;
      PassGrows(pass, job, batch);
      PassJoined(pass, job, batch[..n]);
      PiecesGrow(pass, job, batch);
    }
  }

  ghost predicate FiledAt(records: seq<Record>, key: string) {
    forall r :: r in records ==> r.recordKey == key
  }

  ghost predicate Files(records: seq<Record>, job: Job, i: nat) {
    FiledAt(records, RecordKey(job.provenance.sourceKey, i))
  }

  lemma PieceFiles(pass: Pass, job: Job, i: nat, e: RawEnvelope)
    ensures Files(Piece(pass, job, i, e), job, i)
  {
    CanonicalRecordKey(job, Envelope(i, e));
  }

  // ---------- the writes of one position ----------

  /** Records filed under a position are found under it, and under no other. */
  lemma {:induction false} FiledUnder(records: seq<Record>, own: string, key: string)
    requires FiledAt(records, own)
    ensures Under(records, key) == if own == key then records else []
    decreases |records|
  {
    if records != [] { FiledUnder(records[..|records| - 1], own, key); }
  }

  lemma {:induction false} JoinedUnder(job: Job, pieces: seq<seq<Record>>, i: nat)
    requires forall k :: 0 <= k < |pieces| ==> Files(pieces[k], job, k)
    ensures Under(Joined(pieces), RecordKey(job.provenance.sourceKey, i)) == if i < |pieces| then pieces[i] else []
    decreases |pieces|
  {
    if pieces != [] {
      var n := |pieces| - 1;
      JoinedUnder(job, pieces[..n], i);
      var own, key := RecordKey(job.provenance.sourceKey, n), RecordKey(job.provenance.sourceKey, i);
      assert Files(pieces[n], job, n);
      RecordKeyInjective(job.provenance.sourceKey, n, job.provenance.sourceKey, i);
      FiledUnder(pieces[n], own, key);
      UnderConcat(Joined(pieces[..n]), pieces[n], key);
    }
  }

  lemma PassUnder(pass: Pass, job: Job, batch: seq<RawEnvelope>, i: nat)
    ensures Under(WritesOf(pass, job, batch), RecordKey(job.provenance.sourceKey, i)) == At(pass, job, batch, i)
  {
    PassJoined(pass, job, batch);
    forall k | 0 <= k < |batch|
      ensures Files(Pieces(pass, job, batch)[k], job, k)
    {
      PieceFiles(pass, job, k, batch[k]);
    }
    JoinedUnder(job, Pieces(pass, job, batch), i);
  }

  /** What an online attempt writes for position i, in order: its diagnostic, or the writes of its envelope ... */
  function PositionWrites(job: Job, batch: seq<RawEnvelope>, i: nat): seq<Record> {
    At(Diagnostics, job, batch, i) + At(OnlineEnvelopes, job, batch, i)
  }

  /** ... and what it adds if the legacy projection fails. */
  function PositionMarks(job: Job, batch: seq<RawEnvelope>, i: nat): seq<Record> {
    At(Marks, job, batch, i)
  }

  function BackfillPositionWrites(job: Job, batch: seq<RawEnvelope>, i: nat): seq<Record> {
    At(Diagnostics, job, batch, i) + At(BackfillEnvelopes, job, batch, i)
  }

  /** Among all the writes of an attempt, those of a position are its own ones, in order, and then its mark. */
  lemma AttemptUnder(job: Job, batch: seq<RawEnvelope>, i: nat)
    ensures
      var key := RecordKey(job.provenance.sourceKey, i);
      && Under(OnlineWrites(job, batch), key) == PositionWrites(job, batch, i)
      && Under(OnlineWrites(job, batch) + FailureWrites(job, batch), key)
           == PositionWrites(job, batch, i) + PositionMarks(job, batch, i)
      && Under(BackfillWrites(job, batch), key) == BackfillPositionWrites(job, batch, i)
  {
    var key := RecordKey(job.provenance.sourceKey, i);
    PassUnder(Diagnostics, job, batch, i);
    PassUnder(OnlineEnvelopes, job, batch, i);
    PassUnder(BackfillEnvelopes, job, batch, i);
    PassUnder(Marks, job, batch, i);
    UnderConcat(WritesOf(Diagnostics, job, batch), WritesOf(OnlineEnvelopes, job, batch), key);
    UnderConcat(WritesOf(Diagnostics, job, batch), WritesOf(BackfillEnvelopes, job, batch), key);
    UnderConcat(OnlineWrites(job, batch), WritesOf(Marks, job, batch), key);
  }

  lemma LastOfPosition(job: Job, batch: seq<RawEnvelope>, i: nat)
    ensures
      var online, backfill := PositionWrites(job, batch, i), BackfillPositionWrites(job, batch, i);
      if i < |batch| then
        && online != [] && online[|online| - 1] == FinalOnline(job, batch, i)
        && backfill != [] && backfill[|backfill| - 1] == FinalBackfill(job, batch, i)
      else online == backfill == []
  {
  }

  /** A complete attempt writes every position of the batch, and ends each on its final record. */
  lemma CompleteAttempt(job: Job, batch: seq<RawEnvelope>, i: nat)
    ensures LastFor(OnlineWrites(job, batch), RecordKey(job.provenance.sourceKey, i)) ==
      if i < |batch| then Some(FinalOnline(job, batch, i)) else None
    ensures LastFor(BackfillWrites(job, batch), RecordKey(job.provenance.sourceKey, i)) ==
      if i < |batch| then Some(FinalBackfill(job, batch, i)) else None
  {
    AttemptUnder(job, batch, i);
    LastOfPosition(job, batch, i);
    LastForIsLastUnder(OnlineWrites(job, batch), RecordKey(job.provenance.sourceKey, i));
    LastForIsLastUnder(BackfillWrites(job, batch), RecordKey(job.provenance.sourceKey, i));
  }

  /** A beginning of these writes ends on the final record exactly when it has all of the position's own writes and not
      its mark. */
  lemma FinalOnlyAtTheEnd(job: Job, batch: seq<RawEnvelope>, i: nat, own: seq<Record>)
    requires i < |batch| && own <= PositionWrites(job, batch, i) + PositionMarks(job, batch, i)
    ensures own != [] && own[|own| - 1] == FinalOnline(job, batch, i) <==> own == PositionWrites(job, batch, i)
  {
    var writes, marks := PositionWrites(job, batch, i), PositionMarks(job, batch, i);
    assert |own| == |writes| ==> own == writes;
    if EnvelopeErrors(batch[i]) == [] {
      var e := Envelope(i, batch[i]);
      CanonicalRecordKey(job, e);
      assert CreateEnvelopeRecord(job.provenance, e).signatureStatus != CanonicalRecord(job, e).signatureStatus;
      assert OnlineRecord(job, e).signatureStatus == CanonicalRecord(job, e).signatureStatus;
    }
  }

  // ---------- nothing else is written ----------

  ghost predicate AllOwn(job: Job, n: nat, writes: seq<Record>) {
    forall r :: r in writes ==> OwnKey(job, n, r.recordKey)
  }

  lemma {:induction false} JoinedOwn(job: Job, pieces: seq<seq<Record>>, n: nat)
    requires |pieces| <= n && forall k :: 0 <= k < |pieces| ==> Files(pieces[k], job, k)
    ensures AllOwn(job, n, Joined(pieces))
    decreases |pieces|
  {
    if pieces != [] {
      var last: nat := |pieces| - 1;
      JoinedOwn(job, pieces[..last], n);
      assert OwnKey(job, n, RecordKey(job.provenance.sourceKey, last));
    }
  }

  lemma OwnTogether(job: Job, n: nat, xs: seq<Record>, ys: seq<Record>)
    requires AllOwn(job, n, xs) && AllOwn(job, n, ys)
    ensures AllOwn(job, n, xs + ys)
  {
  }

  lemma PassOwn(pass: Pass, job: Job, batch: seq<RawEnvelope>)
    ensures AllOwn(job, |batch|, WritesOf(pass, job, batch))
  {
    PassJoined(pass, job, batch);
    forall k | 0 <= k < |batch|
      ensures Files(Pieces(pass, job, batch)[k], job, k)
    {
      PieceFiles(pass, job, k, batch[k]);
    }
    JoinedOwn(job, Pieces(pass, job, batch), |batch|);
  }

  /** Nothing an attempt writes, complete or not, is filed outside the anchor's own positions. */
  lemma AttemptWritesOwnKeys(job: Job, batch: seq<RawEnvelope>)
    ensures AllOwn(job, |batch|, OnlineWrites(job, batch) + FailureWrites(job, batch))
    ensures AllOwn(job, |batch|, BackfillWrites(job, batch))
  {
    PassOwn(Diagnostics, job, batch);
    PassOwn(OnlineEnvelopes, job, batch);
    PassOwn(BackfillEnvelopes, job, batch);
    PassOwn(Marks, job, batch);
    OwnTogether(job, |batch|, WritesOf(Diagnostics, job, batch), WritesOf(OnlineEnvelopes, job, batch));
    OwnTogether(job, |batch|, WritesOf(Diagnostics, job, batch), WritesOf(BackfillEnvelopes, job, batch));
    OwnTogether(job, |batch|, OnlineWrites(job, batch), WritesOf(Marks, job, batch));
  }
}
