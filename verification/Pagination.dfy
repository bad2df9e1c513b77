/** Keyset pagination over the public messages: one page, and the walk along its cursors. */
module Pagination {
  import opened Wrappers
  import opened Protocol
  import opened Records
  import opened Cursor
  import opened Pipeline

  // ---------- the query ----------

  /** Public filters; an absent field does not filter. */
  datatype Filter = Filter(
    start: Option<int>, end: Option<int>, sensorId: Option<string>, nodeId: Option<string>,
    payloadType: Option<PayloadType>, measurementType: Option<MeasurementType>)

  /** A valid, decoded message that passes the filters. */
  predicate Matches(d: Document, f: Filter) {
    var r := d.record;
    && r.structureStatus.StructureValid? && r.signatureStatus.SignatureValid? && r.decodeStatus.Decoded?
    && r.messageJson.Some?
    && (f.start.Some? ==> r.recordedAt.Some? && f.start.value <= r.recordedAt.value)
    && (f.end.Some? ==> r.recordedAt.Some? && r.recordedAt.value < f.end.value)
    && (f.sensorId.Some? && f.sensorId.value != "" ==> r.sensorId == f.sensorId)
    && (f.nodeId.Some? && f.nodeId.value != "" ==> r.nodeId == f.nodeId)
    && (f.payloadType.Some? ==> r.payloadType == f.payloadType)
    && (f.measurementType.Some? ==> f.measurementType.value in r.measurementTypes)
  }

  /** A decoded record carries a time the cursor can hold. */
  predicate Timed(r: Record) {
    r.decodeStatus.Decoded? ==> r.recordedAt.Some? && TimeAccepted(r.recordedAt.value)
  }

  /** ... and the ids of the documents have twelve bytes. */
  ghost predicate Servable(store: Store) {
    && store.Valid() && store.nextId <= OBJECT_ID_LIMIT
    && forall k :: k in store.docs ==> Timed(store.docs[k].record)
  }

  // ---------- every store the pipelines write can be served ----------

  ghost predicate AllTimed(writes: seq<Record>) {
    forall r :: r in writes ==> Timed(r)
  }

  /** Whatever the mapper marks as decoded has such a time. */
  lemma DecodedRecordsAreTimed(r: Record, m: Message)
    ensures ApplyDecodedMessage(r, m).decodeStatus.Decoded? ==>
      ApplyDecodedMessage(r, m).recordedAt.Some? && 0 < ApplyDecodedMessage(r, m).recordedAt.value
      && TimeAccepted(ApplyDecodedMessage(r, m).recordedAt.value)
  {
  }

  lemma CanonicalIsTimed(job: Job, e: Envelope)
    ensures Timed(CanonicalRecord(job, e)) && Timed(OnlineRecord(job, e))
    ensures AllTimed(EnvelopeWrites(job, e)) && AllTimed(BackfillEnvelopeWrites(job, e))
  {
    match Judge(job, e)
    case NotProjected(m, _) => DecodedRecordsAreTimed(CreateEnvelopeRecord(job.provenance, e), m);
    case Projected(m, _) => DecodedRecordsAreTimed(CreateEnvelopeRecord(job.provenance, e), m);
    case _ =>
  }

  lemma {:induction false} StructuralTimed(p: Provenance, batch: seq<RawEnvelope>)
    ensures AllTimed(StructuralWrites(p, batch))
    decreases |batch|
  {
    if batch != [] { StructuralTimed(p, batch[..|batch| - 1]); }
  }

  lemma {:induction false} EnvelopesTimed(job: Job, envelopes: seq<Envelope>)
    ensures AllTimed(EnvelopesWrites(job, envelopes)) && AllTimed(BackfillEnvelopesWrites(job, envelopes))
    ensures AllTimed(ProjectedRecords(job, envelopes))
    decreases |envelopes|
  {
    if envelopes != [] {
      var e := envelopes[|envelopes| - 1];
      EnvelopesTimed(job, envelopes[..|envelopes| - 1]);
      CanonicalIsTimed(job, e);
    }
  }

  lemma {:induction false} MarkedAreTimed(records: seq<Record>)
    requires AllTimed(records)
    ensures AllTimed(MarkFailed(records))
    decreases |records|
  {
    if records != [] {
      assert records[|records| - 1] in records && Timed(records[|records| - 1]);
      MarkedAreTimed(records[..|records| - 1]);
    }
  }

  /** All writes of both pipelines, complete or not, failed or not, are timed. */
  lemma AttemptsAreTimed(job: Job, batch: seq<RawEnvelope>)
    ensures AllTimed(OnlineWrites(job, batch) + FailureWrites(job, batch))
    ensures AllTimed(BackfillWrites(job, batch))
  {
    StructuralTimed(job.provenance, batch);
    EnvelopesTimed(job, ValidEnvelopes(batch));
    MarkedAreTimed(ProjectedRecords(job, ValidEnvelopes(batch)));
  }

  /** The record is one that an attempt of either pipeline at some anchor writes. */
  ghost predicate Issued(r: Record) {
    exists job: Job, batch: seq<RawEnvelope> ::
      r in OnlineWrites(job, batch) + FailureWrites(job, batch) || r in BackfillWrites(job, batch)
  }

  /** Whatever attempts of both pipelines at any anchors write, in whatever order and however interrupted: the
      collection stays one that can be served, as long as its ids fit. */
  lemma {:induction false} WritesKeepServable(s: Store, log: seq<Record>)
    requires Servable(s) && (forall r :: r in log ==> Issued(r)) && PutAll(s, log).nextId <= OBJECT_ID_LIMIT
    ensures Servable(PutAll(s, log))
    decreases |log|
  {
    if log != [] {
      var front, last := log[..|log| - 1], log[|log| - 1];
      assert last in log && forall r :: r in front ==> r in log;
      WritesKeepServable(s, front);
      IssuedIsTimed(last);
      PutKeepsValid(PutAll(s, front), last);
    }
  }

  lemma IssuedIsTimed(r: Record)
    requires Issued(r)
    ensures Timed(r)
  {
    var job: Job, batch: seq<RawEnvelope> :|
      r in OnlineWrites(job, batch) + FailureWrites(job, batch) || r in BackfillWrites(job, batch);
    AttemptsAreTimed(job, batch);
  }

  // ---------- rows ----------

  /** A record of the result, with the position the sort clause gives it. */
  datatype Row = Row(position: CursorPosition, record: Record)

  function RowOf(d: Document): Row
    requires d.record.recordedAt.Some?
  {
    Row(CursorPosition(d.record.recordedAt.value, d.id), d.record)
  }

  /** p comes after q in a descending listing. */
  predicate Below(p: CursorPosition, q: CursorPosition) {
    p.recordedAt < q.recordedAt || (p.recordedAt == q.recordedAt && p.recordId < q.recordId)
  }

  predicate Past(p: CursorPosition, cursor: Option<CursorPosition>) {
    cursor.Some? ==> Below(p, cursor.value)
  }

  lemma RowsHaveOwnPositions(store: Store, s: set<Row>)
    requires Servable(store) && forall r :: r in s ==> exists k :: IsRowOf(store, k, r)
    ensures Sortable(s)
  {
  }

  predicate IsRowOf(store: Store, k: string, r: Row) {
    k in store.docs && store.docs[k].record.recordedAt.Some? && r == RowOf(store.docs[k])
  }

  ghost function Select(store: Store, f: Filter, cursor: Option<CursorPosition>): (s: set<Row>)
    requires Servable(store)
    ensures Sortable(s)
    ensures forall r :: r in s ==> TimeAccepted(r.position.recordedAt) && r.position.recordId < OBJECT_ID_LIMIT
  {
    var s := set k | k in store.docs && Matches(store.docs[k], f) && Past(RowOf(store.docs[k]).position, cursor) ::
      RowOf(store.docs[k]);
    assert Sortable(s) by {
      forall r | r in s
        ensures exists k :: IsRowOf(store, k, r)
      {
        var k :| k in store.docs && Matches(store.docs[k], f) && r == RowOf(store.docs[k]);
        assert IsRowOf(store, k, r);
      }
      RowsHaveOwnPositions(store, s);
    }
    s
  }

  // ---------- sorting ----------

  ghost predicate Sortable(s: set<Row>) {
    forall r, q :: r in s && q in s && r.position == q.position ==> r == q
  }

  /** Newest first, strictly. */
  ghost predicate Descending(s: seq<Row>) {
    forall i, j :: 0 <= i < j < |s| ==> Below(s[j].position, s[i].position)
  }

  ghost predicate IsNewest(s: set<Row>, r: Row) {
    r in s && forall q :: q in s && q != r ==> Below(q.position, r.position)
  }

  lemma {:induction false} Newest(s: set<Row>) returns (r: Row)
    requires s != {} && Sortable(s)
    ensures IsNewest(s, r)
    decreases |s|
  {
    r :| r in s;
    var first, rest := r, s - {r};
    assert s == rest + {first};
    if rest != {} {
      var q := Newest(rest);
      assert q in s && q.position != r.position;
      if Below(r.position, q.position) { r := q; }
      forall t | t in s && t != r
        ensures Below(t.position, r.position)
      {
        assert t == first || t == q || Below(t.position, q.position);
      }
    }
  }

  /** The rows of a set in the order of the sort clause. */
  ghost function Listing(s: set<Row>): (l: seq<Row>)
    requires Sortable(s)
    ensures Descending(l) && |l| == |s| && forall r :: r in l <==> r in s
    decreases |s|
  {
    if s == {} then []
    else
      assert exists r :: IsNewest(s, r) by { var r := Newest(s); }
      var r :| IsNewest(s, r);
      var rest := Listing(s - {r});
      assert forall q :: q in s <==> q == r || q in rest;
      [r] + rest
  }

  /** Newest first; of two records of the same time the one stored later comes first. */
  lemma ListingOrder(s: set<Row>, i: nat, j: nat)
    requires Sortable(s) && i < j < |Listing(s)|
    ensures
      var p, q := Listing(s)[i].position, Listing(s)[j].position;
      q.recordedAt < p.recordedAt || (q.recordedAt == p.recordedAt && q.recordId < p.recordId)
  {
  }

  lemma NoMembers(t: seq<Row>)
    requires |t| > 0 ==> t[0] !in t
    ensures t == []
  {
  }

  /** There is only one descending listing. */
  lemma {:induction false} ListingIsUnique(s: seq<Row>, t: seq<Row>)
    requires Descending(s) && Descending(t) && forall r :: r in s <==> r in t
    ensures s == t
    decreases |s|
  {
    if s == [] {
      NoMembers(t);
    } else {
      assert s[0] in t && t[0] in s && s[0] == t[0];
      TailMembers(s);
      TailMembers(t);
      ListingIsUnique(s[1..], t[1..]);
      assert s == [s[0]] + s[1..] && t == [t[0]] + t[1..];
    }
  }

  lemma TailMembers(s: seq<Row>)
    requires Descending(s) && s != []
    ensures forall r :: r in s[1..] <==> r in s && r != s[0]
  {
  }

  // ---------- one page ----------

  /** The two functions of the cursor; the walk only needs that decoding undoes encoding, and that no cursor is
      empty. */
  datatype CursorCodec = CursorCodec(
    encode: CursorPosition -> Result<string, InvalidCursor>, decode: string -> Result<CursorPosition, InvalidCursor>)

  ghost predicate RoundTrips(c: CursorCodec) {
    forall p: CursorPosition :: TimeAccepted(p.recordedAt) && p.recordId < OBJECT_ID_LIMIT ==>
      c.encode(p).Ok? && c.encode(p).value != "" && c.decode(c.encode(p).value) == Ok(p)
  }

  /** The binary cursor does. */
  lemma BinaryCursorRoundTrips()
    ensures RoundTrips(CursorCodec(Encoded, DecodeConnectivityCursor))
  {
    forall p: CursorPosition | TimeAccepted(p.recordedAt) && p.recordId < OBJECT_ID_LIMIT
      ensures Encoded(p).Ok? && Encoded(p).value != "" && DecodeConnectivityCursor(Encoded(p).value) == Ok(p)
    {
      DecodeUndoesEncode(p);
    }
  }

  datatype Page = Page(items: seq<Row>, nextCursor: Option<string>)

  datatype PageError = BadRange | BadCursor | Unencodable

  function Take<T>(s: seq<T>, n: nat): seq<T> {
    if |s| <= n then s else s[..n]
  }

  /** The repository query: one document more than the limit. */
  ghost function FindMessagePage(store: Store, f: Filter, cursor: Option<CursorPosition>, limit: nat): seq<Row>
    requires Servable(store)
  {
    Take(Listing(Select(store, f, cursor)), limit + 1)
  }

  /** The cut of the surplus document, and the cursor of the last one kept. */
  function Cut(c: CursorCodec, records: seq<Row>, limit: nat): Result<Page, PageError> {
    var items := Take(records, limit);
    if |records| > limit && items != [] then
      var next := c.encode(items[|items| - 1].position);
      if next.Err? then Err(Unencodable) else Ok(Page(items, Some(next.value)))
    else Ok(Page(items, None))
  }

  /** An empty cursor counts as none. */
  predicate Given(cursor: Option<string>) {
    cursor.Some? && cursor.value != ""
  }

  ghost function GetMessageRecords(c: CursorCodec, store: Store, f: Filter, limit: nat, cursor: Option<string>)
    : Result<Page, PageError>
    requires Servable(store)
  {
    if f.start.Some? && f.end.Some? && f.start.value >= f.end.value then Err(BadRange)
    else if Given(cursor) && c.decode(cursor.value).Err? then Err(BadCursor)
    else
      var position := if Given(cursor) then Some(c.decode(cursor.value).value) else None;
      Cut(c, FindMessagePage(store, f, position, limit), limit)
  }

  predicate ValidRange(f: Filter) {
    f.start.Some? && f.end.Some? ==> f.start.value < f.end.value
  }

  /** A page is the next documents, and has a cursor exactly when more remain; the cursor decodes to its last
      position. */
  ghost predicate PageOf(c: CursorCodec, all: seq<Row>, limit: nat, page: Page)
    requires limit >= 1
  {
    && page.items == Take(all, limit)
    && (page.nextCursor.Some? <==> |all| > limit)
    && (|all| > limit ==> Given(page.nextCursor) && c.decode(page.nextCursor.value) == Ok(all[limit - 1].position))
  }

  lemma CutMeaning(c: CursorCodec, all: seq<Row>, limit: nat)
    requires RoundTrips(c) && limit >= 1
    requires forall r :: r in all ==> TimeAccepted(r.position.recordedAt) && r.position.recordId < OBJECT_ID_LIMIT
    ensures Cut(c, Take(all, limit + 1), limit).Ok? && PageOf(c, all, limit, Cut(c, Take(all, limit + 1), limit).value)
  {
  }

  /** What a request returns, after the position its cursor stands for. */
  lemma PageMeaning(
      c: CursorCodec, store: Store, f: Filter, limit: nat, cursor: Option<string>, at: Option<CursorPosition>)
    requires RoundTrips(c) && Servable(store) && ValidRange(f) && limit >= 1
    requires StandsFor(c, cursor, at)
    ensures GetMessageRecords(c, store, f, limit, cursor).Ok?
    ensures PageOf(c, Listing(Select(store, f, at)), limit, GetMessageRecords(c, store, f, limit, cursor).value)
  {
    CutMeaning(c, Listing(Select(store, f, at)), limit);
  }

  /** A request is refused exactly for an empty range or a cursor that cannot be decoded, the range first. */
  lemma RequestRefused(c: CursorCodec, store: Store, f: Filter, limit: nat, cursor: Option<string>)
    requires RoundTrips(c) && Servable(store) && limit >= 1
    ensures
      var r := GetMessageRecords(c, store, f, limit, cursor);
      && (r == Err(BadRange) <==> f.start.Some? && f.end.Some? && f.end.value <= f.start.value)
      && (r == Err(BadCursor) <==>
            ValidRange(f) && cursor.Some? && cursor.value != "" && c.decode(cursor.value).Err?)
      && r != Err(Unencodable)
  {
    if ValidRange(f) && !(Given(cursor) && c.decode(cursor.value).Err?) {
      var position := if Given(cursor) then Some(c.decode(cursor.value).value) else None;
      CutMeaning(c, Listing(Select(store, f, position)), limit);
    }
  }

  // ---------- chunks of a changing set ----------

  ghost function Rest(s: set<Row>, at: Option<CursorPosition>): set<Row> {
    set r | r in s && Past(r.position, at)
  }

  /** The position the i-th chunk starts after: that of the last row of the chunk before. */
  function Start(chunks: seq<seq<Row>>, i: nat): Option<CursorPosition>
    requires i <= |chunks|
  {
    if i == 0 || chunks[i - 1] == [] then None else Some(chunks[i - 1][|chunks[i - 1]| - 1].position)
  }

  /** The newest rows of a set, as many as the limit lets; `last` when nothing remains. */
  ghost predicate ChunkOf(s: set<Row>, limit: nat, chunk: seq<Row>, last: bool) {
    && Descending(chunk) && |chunk| <= limit && (forall r :: r in chunk ==> r in s)
    && (last ==> forall r :: r in s ==> r in chunk)
    && (!last ==>
          && |chunk| == limit >= 1
          && (forall r :: r in s && r !in chunk ==> Below(r.position, chunk[limit - 1].position))
          && exists r :: r in s && r !in chunk)
  }

  /** Each chunk is the newest part of what the set of its moment holds below the chunk before, and is the last one
      exactly when nothing remains. */
  ghost predicate Chunked(sets: seq<set<Row>>, limit: nat, chunks: seq<seq<Row>>) {
    && |sets| == |chunks| > 0 && limit >= 1
    && forall i :: 0 <= i < |chunks| ==> ChunkAt(sets, limit, chunks, i)
  }

  ghost predicate ChunkAt(sets: seq<set<Row>>, limit: nat, chunks: seq<seq<Row>>, i: nat)
    requires |sets| == |chunks| && i < |chunks|
  {
    Sortable(sets[i]) && ChunkOf(Rest(sets[i], Start(chunks, i)), limit, chunks[i], i == |chunks| - 1)
  }

  lemma TakeIsChunk(s: set<Row>, all: seq<Row>, limit: nat)
    requires limit >= 1 && Descending(all) && forall r :: r in all <==> r in s
    ensures ChunkOf(s, limit, Take(all, limit), |all| <= limit)
  {
    var chunk := Take(all, limit);
    if |all| > limit {
      assert forall r :: r in chunk ==> r in all;
      assert all == chunk + all[limit..];
      assert all[limit] in s && all[limit] !in chunk;
    }
  }

  function Concat(chunks: seq<seq<Row>>): seq<Row> {
    if chunks == [] then [] else Concat(chunks[..|chunks| - 1]) + chunks[|chunks| - 1]
  }

  lemma ChunkRows(sets: seq<set<Row>>, limit: nat, chunks: seq<seq<Row>>, i: nat)
    requires Chunked(sets, limit, chunks) && i < |chunks|
    ensures Descending(chunks[i]) && |chunks[i]| <= limit
    ensures forall r :: r in chunks[i] ==> r in sets[i] && Past(r.position, Start(chunks, i))
    ensures i < |chunks| - 1 ==> |chunks[i]| == limit && Start(chunks, i + 1).Some?
    ensures forall r :: r in chunks[i] && i < |chunks| - 1 ==> !Below(r.position, Start(chunks, i + 1).value)
  {
    assert ChunkAt(sets, limit, chunks, i);
  }

  lemma {:induction false} RowsSoFar(sets: seq<set<Row>>, limit: nat, chunks: seq<seq<Row>>, n: nat)
    requires Chunked(sets, limit, chunks) && n <= |chunks|
    ensures Descending(Concat(chunks[..n]))
    ensures forall r :: r in Concat(chunks[..n]) && n < |chunks| ==>
              Start(chunks, n).Some? && !Below(r.position, Start(chunks, n).value)
    decreases n
  {
    if n > 0 {
      var before, chunk := Concat(chunks[..n - 1]), chunks[n - 1];
      RowsSoFar(sets, limit, chunks, n - 1);
      ChunkRows(sets, limit, chunks, n - 1);
      assert chunks[..n][..n - 1] == chunks[..n - 1];
      Appended(before, chunk, Start(chunks, n - 1));
      if n < |chunks| { assert chunk[limit - 1] in chunk; }
    }
  }

  lemma Appended(before: seq<Row>, chunk: seq<Row>, at: Option<CursorPosition>)
    requires Descending(before) && Descending(chunk)
    requires forall r :: r in before ==> at.Some? && !Below(r.position, at.value)
    requires forall r :: r in chunk ==> Past(r.position, at)
    ensures Descending(before + chunk)
  {
  }

  lemma ChunksDescend(sets: seq<set<Row>>, limit: nat, chunks: seq<seq<Row>>)
    requires Chunked(sets, limit, chunks)
    ensures Descending(Concat(chunks))
  {
    RowsSoFar(sets, limit, chunks, |chunks|);
    assert chunks[..|chunks|] == chunks;
  }

  ghost predicate HasPosition(s: set<Row>, p: CursorPosition) {
    exists r :: r in s && r.position == p
  }

  lemma {:induction false} FoundFrom(sets: seq<set<Row>>, limit: nat, chunks: seq<seq<Row>>, p: CursorPosition, i: nat)
    returns (j: nat, r: Row)
    requires Chunked(sets, limit, chunks) && i < |chunks| && Past(p, Start(chunks, i))
    requires forall k :: 0 <= k < |sets| ==> HasPosition(sets[k], p)
    ensures i <= j < |chunks| && r in chunks[j] && r.position == p
    decreases |chunks| - i
  {
    assert ChunkAt(sets, limit, chunks, i) && HasPosition(sets[i], p);
    r :| r in sets[i] && r.position == p;
    if r in chunks[i] {
      j := i;
    } else {
      assert r in Rest(sets[i], Start(chunks, i));
      j, r := FoundFrom(sets, limit, chunks, p, i + 1);
    }
  }

  lemma {:induction false} ConcatMembers(chunks: seq<seq<Row>>, r: Row)
    ensures r in Concat(chunks) <==> exists i :: 0 <= i < |chunks| && r in chunks[i]
  {
    if chunks != [] {
      var front := chunks[..|chunks| - 1];
      ConcatMembers(front, r);
      assert forall i :: 0 <= i < |front| ==> front[i] == chunks[i];
    }
  }

  // ---------- chunks of one set ----------

  ghost predicate AllAre<T>(s: seq<T>, x: T) {
    forall i :: 0 <= i < |s| ==> s[i] == x
  }

  lemma ChunksMakeTheListing(s: set<Row>, sets: seq<set<Row>>, limit: nat, chunks: seq<seq<Row>>)
    requires Chunked(sets, limit, chunks) && AllAre(sets, s) && Sortable(s)
    ensures Concat(chunks) == Listing(s)
  {
    ChunksDescend(sets, limit, chunks);
    forall r
      ensures r in Concat(chunks) <==> r in s
    {
      ConcatMembers(chunks, r);
      if i :| 0 <= i < |chunks| && r in chunks[i] { ChunkRows(sets, limit, chunks, i); }
      if r in s {
        assert HasPosition(s, r.position);
        var j, q := FoundFrom(sets, limit, chunks, r.position, 0);
        ChunkRows(sets, limit, chunks, j);
      }
    }
    ListingIsUnique(Concat(chunks), Listing(s));
  }

  lemma {:induction false} FullChunks(sets: seq<set<Row>>, limit: nat, chunks: seq<seq<Row>>, n: nat)
    requires Chunked(sets, limit, chunks) && n < |chunks|
    ensures |Concat(chunks[..n])| == n * limit
    decreases n
  {
    if n > 0 {
      FullChunks(sets, limit, chunks, n - 1);
      ChunkRows(sets, limit, chunks, n - 1);
      assert chunks[..n][..n - 1] == chunks[..n - 1];
      assert (n - 1) * limit + limit == n * limit;
    }
  }

  /** The last of several chunks is not empty. */
  lemma LastChunkIsNotEmpty(s: set<Row>, sets: seq<set<Row>>, limit: nat, chunks: seq<seq<Row>>)
    requires Chunked(sets, limit, chunks) && AllAre(sets, s) && |chunks| > 1
    ensures chunks[|chunks| - 1] != []
  {
    var i := |chunks| - 2;
    assert ChunkAt(sets, limit, chunks, i) && ChunkAt(sets, limit, chunks, i + 1);
    var r :| r in Rest(s, Start(chunks, i)) && r !in chunks[i];
    assert r in Rest(s, Start(chunks, i + 1));
  }

  lemma CeilingDivision(n: nat, limit: nat, full: nat, last: nat)
    requires limit >= 1 && n == full * limit + last && last <= limit && (full > 0 ==> last > 0)
    ensures full + 1 == if n == 0 then 1 else (n + limit - 1) / limit
  {
    if n > 0 {
      assert n + limit - 1 == (full + 1) * limit + (last - 1);
      Quotient(full + 1, limit, last - 1);
    }
  }

  lemma Quotient(q: nat, d: nat, r: int)
    requires 0 <= r < d
    ensures (q * d + r) / d == q
  {
    var n := q * d + r;
    var quotient := n / d;
    assert n == d * quotient + n % d;
    assert d * (quotient - q) == r - n % d;
    assert quotient - q >= 1 ==> d * (quotient - q) >= d;
    assert q - quotient >= 1 ==> d * (q - quotient) >= d;
  }

  lemma NumberOfChunks(s: set<Row>, sets: seq<set<Row>>, limit: nat, chunks: seq<seq<Row>>)
    requires Chunked(sets, limit, chunks) && AllAre(sets, s) && Sortable(s)
    ensures |chunks| == if |s| == 0 then 1 else (|s| + limit - 1) / limit
  {
    var last := |chunks| - 1;
    ChunksMakeTheListing(s, sets, limit, chunks);
    FullChunks(sets, limit, chunks, last);
    assert |Concat(chunks)| == last * limit + |chunks[last]|;
    ChunkRows(sets, limit, chunks, last);
    if last > 0 { LastChunkIsNotEmpty(s, sets, limit, chunks); }
    CeilingDivision(|s|, limit, last, |chunks[last]|);
  }

  // ---------- following the cursors ----------

  /** The requests of a client that follows next_cursor to its end; the collection may differ at every request. */
  ghost predicate Follows(c: CursorCodec, stores: seq<Store>, f: Filter, limit: nat, pages: seq<Page>) {
    && |stores| == |pages| > 0
    && (forall i :: 0 <= i < |stores| ==> Servable(stores[i]))
    && (forall i :: 0 <= i < |pages| ==> Requested(c, stores[i], f, limit, None, pages, i))
  }

  /** The i-th request and its page; only the last page has no cursor. */
  ghost predicate Requested(
      c: CursorCodec, store: Store, f: Filter, limit: nat, first: Option<string>, pages: seq<Page>, i: nat)
    requires Servable(store) && i < |pages|
  {
    && GetMessageRecords(c, store, f, limit, CursorBefore(first, pages, i)) == Ok(pages[i])
    && (pages[i].nextCursor.None? <==> i == |pages| - 1)
  }

  /** The cursor of the i-th request, when the first one has the given cursor. */
  function CursorBefore(first: Option<string>, pages: seq<Page>, i: nat): Option<string>
    requires i < |pages|
  {
    if i == 0 then first else pages[i - 1].nextCursor
  }

  function Items(pages: seq<Page>): (chunks: seq<seq<Row>>)
    ensures |chunks| == |pages| && forall i :: 0 <= i < |pages| ==> chunks[i] == pages[i].items
  {
    seq(|pages|, i requires 0 <= i < |pages| => pages[i].items)
  }

  ghost function Results(stores: seq<Store>, f: Filter): (sets: seq<set<Row>>)
    requires forall i :: 0 <= i < |stores| ==> Servable(stores[i])
    ensures |sets| == |stores| && forall i :: 0 <= i < |stores| ==> sets[i] == Select(stores[i], f, None)
  {
    seq(|stores|, i requires 0 <= i < |stores| => Select(stores[i], f, None))
  }

  lemma SelectIsRest(store: Store, f: Filter, at: Option<CursorPosition>)
    requires Servable(store)
    ensures Select(store, f, at) == Rest(Select(store, f, None), at)
  {
  }

  /** The i-th page is the next one of what the collection holds at that moment, and its cursor stands for its end. */
  ghost predicate Paged(c: CursorCodec, store: Store, f: Filter, limit: nat, pages: seq<Page>, i: nat)
    requires Servable(store) && limit >= 1 && i < |pages|
  {
    && PageOf(c, Listing(Select(store, f, Start(Items(pages), i))), limit, pages[i])
    && (pages[i].nextCursor.Some? ==> StandsFor(c, pages[i].nextCursor, Start(Items(pages), i + 1)))
  }

  ghost predicate StandsFor(c: CursorCodec, cursor: Option<string>, at: Option<CursorPosition>) {
    if at.Some? then Given(cursor) && c.decode(cursor.value) == Ok(at.value) else !Given(cursor)
  }

  lemma OnePage(c: CursorCodec, store: Store, f: Filter, limit: nat, pages: seq<Page>, i: nat)
    requires RoundTrips(c) && Servable(store) && ValidRange(f) && limit >= 1 && i < |pages|
    requires Requested(c, store, f, limit, None, pages, i)
              && StandsFor(c, CursorBefore(None, pages, i), Start(Items(pages), i))
    ensures Paged(c, store, f, limit, pages, i)
  {
    PageMeaning(c, store, f, limit, CursorBefore(None, pages, i), Start(Items(pages), i));
    if pages[i].nextCursor.Some? { EndOfPage(c, Listing(Select(store, f, Start(Items(pages), i))), limit, pages, i); }
  }

  lemma EndOfPage(c: CursorCodec, all: seq<Row>, limit: nat, pages: seq<Page>, i: nat)
    requires limit >= 1 && i < |pages| && PageOf(c, all, limit, pages[i]) && pages[i].nextCursor.Some?
    ensures StandsFor(c, pages[i].nextCursor, Start(Items(pages), i + 1))
  {
  }

  lemma CursorAfter(c: CursorCodec, store: Store, f: Filter, limit: nat, pages: seq<Page>, i: nat)
    requires Servable(store) && limit >= 1 && i + 1 < |pages| && Paged(c, store, f, limit, pages, i)
              && pages[i].nextCursor.Some?
    ensures StandsFor(c, CursorBefore(None, pages, i + 1), Start(Items(pages), i + 1))
  {
  }

  lemma {:induction false} EachPage(c: CursorCodec, stores: seq<Store>, f: Filter, limit: nat, pages: seq<Page>, i: nat)
    requires RoundTrips(c) && Follows(c, stores, f, limit, pages) && ValidRange(f) && limit >= 1 && i < |pages|
    ensures Paged(c, stores[i], f, limit, pages, i)
    decreases i
  {
    assert Requested(c, stores[i], f, limit, None, pages, i);
    if i > 0 {
      var before: nat := i - 1;
      EachPage(c, stores, f, limit, pages, before);
      assert Requested(c, stores[before], f, limit, None, pages, before);
      CursorAfter(c, stores[before], f, limit, pages, before);
    }
    OnePage(c, stores[i], f, limit, pages, i);
  }

  lemma PagesAreChunks(c: CursorCodec, stores: seq<Store>, f: Filter, limit: nat, pages: seq<Page>)
    requires RoundTrips(c) && Follows(c, stores, f, limit, pages) && ValidRange(f) && limit >= 1
    ensures Chunked(Results(stores, f), limit, Items(pages))
  {
    forall i | 0 <= i < |pages|
      ensures ChunkAt(Results(stores, f), limit, Items(pages), i)
    {
      EachPage(c, stores, f, limit, pages, i);
      SelectIsRest(stores[i], f, Start(Items(pages), i));
      var rows := Select(stores[i], f, Start(Items(pages), i));
      TakeIsChunk(rows, Listing(rows), limit);
    }
  }

  /** However the collection changes between the requests, positions only go down: no record is returned twice. */
  lemma NothingRepeats(c: CursorCodec, stores: seq<Store>, f: Filter, limit: nat, pages: seq<Page>)
    requires RoundTrips(c) && Follows(c, stores, f, limit, pages) && ValidRange(f) && limit >= 1
    ensures Descending(Concat(Items(pages)))
  {
    PagesAreChunks(c, stores, f, limit, pages);
    ChunksDescend(Results(stores, f), limit, Items(pages));
  }

  /** ... and every record that matches at every request is returned. */
  lemma NothingMissed(c: CursorCodec, stores: seq<Store>, f: Filter, limit: nat, pages: seq<Page>, p: CursorPosition)
    returns (j: nat, r: Row)
    requires RoundTrips(c) && Follows(c, stores, f, limit, pages) && ValidRange(f) && limit >= 1
    requires forall k :: 0 <= k < |stores| ==> HasPosition(Select(stores[k], f, None), p)
    ensures j < |pages| && r in pages[j].items && r.position == p && r in Select(stores[j], f, None)
  {
    PagesAreChunks(c, stores, f, limit, pages);
    j, r := FoundFrom(Results(stores, f), limit, Items(pages), p, 0);
    ChunkRows(Results(stores, f), limit, Items(pages), j);
  }

  lemma SameResults(stores: seq<Store>, store: Store, f: Filter)
    requires AllAre(stores, store) && Servable(store)
    ensures (forall i :: 0 <= i < |stores| ==> Servable(stores[i]))
              && AllAre(Results(stores, f), Select(store, f, None))
  {
  }

  /** Over an unchanging collection the pages put together are the whole result in its order. */
  lemma PagesAreTheResult(c: CursorCodec, store: Store, stores: seq<Store>, f: Filter, limit: nat, pages: seq<Page>)
    requires RoundTrips(c) && Follows(c, stores, f, limit, pages) && ValidRange(f) && limit >= 1
    requires AllAre(stores, store) && Servable(store)
    ensures Concat(Items(pages)) == Listing(Select(store, f, None))
  {
    PagesAreChunks(c, stores, f, limit, pages);
    SameResults(stores, store, f);
    ChunksMakeTheListing(Select(store, f, None), Results(stores, f), limit, Items(pages));
  }

  /** It takes as many requests as there are pages to fill, and one for an empty result. */
  lemma NumberOfRequests(c: CursorCodec, store: Store, stores: seq<Store>, f: Filter, limit: nat, pages: seq<Page>)
    requires RoundTrips(c) && Follows(c, stores, f, limit, pages) && ValidRange(f) && limit >= 1
    requires AllAre(stores, store) && Servable(store)
    ensures
      var n := |Select(store, f, None)|;
      |pages| == if n == 0 then 1 else (n + limit - 1) / limit
  {
    PagesAreChunks(c, stores, f, limit, pages);
    SameResults(stores, store, f);
    NumberOfChunks(Select(store, f, None), Results(stores, f), limit, Items(pages));
  }

  /** The pages from a cursor to the end, over one collection. */
  ghost predicate Walked(c: CursorCodec, store: Store, f: Filter, limit: nat, cursor: Option<string>, pages: seq<Page>)
    requires Servable(store)
  {
    |pages| > 0 && forall i :: 0 <= i < |pages| ==> Requested(c, store, f, limit, cursor, pages, i)
  }

  lemma Prepended(
      c: CursorCodec, store: Store, f: Filter, limit: nat, cursor: Option<string>, page: Page, rest: seq<Page>)
    requires Servable(store) && GetMessageRecords(c, store, f, limit, cursor) == Ok(page) && page.nextCursor.Some?
    requires Walked(c, store, f, limit, page.nextCursor, rest)
    ensures Walked(c, store, f, limit, cursor, [page] + rest)
  {
    var pages := [page] + rest;
    forall i | 0 <= i < |pages|
      ensures Requested(c, store, f, limit, cursor, pages, i)
    {
      if i > 0 { Shifted(c, store, f, limit, cursor, page, rest, i - 1); }
    }
  }

  lemma Shifted(
      c: CursorCodec, store: Store, f: Filter, limit: nat, cursor: Option<string>, page: Page, rest: seq<Page>, i: nat)
    requires Servable(store) && i < |rest| && Requested(c, store, f, limit, page.nextCursor, rest, i)
    ensures Requested(c, store, f, limit, cursor, [page] + rest, i + 1)
  {
    CursorShifts(cursor, page, rest, i);
  }

  lemma CursorShifts(cursor: Option<string>, page: Page, rest: seq<Page>, i: nat)
    requires i < |rest|
    ensures ([page] + rest)[i + 1] == rest[i]
    ensures CursorBefore(cursor, [page] + rest, i + 1) == CursorBefore(page.nextCursor, rest, i)
  {
    assert i > 0 ==> ([page] + rest)[i] == rest[i - 1];
  }

  /** One request of a walk: its page, and if the page has a cursor, the row it stands for. */
  lemma NextRequest(
      c: CursorCodec, store: Store, f: Filter, limit: nat, cursor: Option<string>, at: Option<CursorPosition>)
    returns (page: Page, row: Option<Row>)
    requires RoundTrips(c) && Servable(store) && ValidRange(f) && limit >= 1 && StandsFor(c, cursor, at)
    ensures GetMessageRecords(c, store, f, limit, cursor) == Ok(page) && (page.nextCursor.Some? <==> row.Some?)
    ensures row.Some? ==> row.value in Select(store, f, at) && StandsFor(c, page.nextCursor, Some(row.value.position))
  {
    PageMeaning(c, store, f, limit, cursor, at);
    page := GetMessageRecords(c, store, f, limit, cursor).value;
    row := if page.nextCursor.None? then None else Some(Listing(Select(store, f, at))[limit - 1]);
  }

  lemma OnlyPage(c: CursorCodec, store: Store, f: Filter, limit: nat, cursor: Option<string>, page: Page)
    requires Servable(store) && GetMessageRecords(c, store, f, limit, cursor) == Ok(page) && page.nextCursor.None?
    ensures Walked(c, store, f, limit, cursor, [page])
  {
  }

  lemma {:induction false} WalkFrom(
      c: CursorCodec, store: Store, f: Filter, limit: nat, cursor: Option<string>, at: Option<CursorPosition>)
    returns (pages: seq<Page>)
    requires RoundTrips(c) && Servable(store) && ValidRange(f) && limit >= 1 && StandsFor(c, cursor, at)
    ensures Walked(c, store, f, limit, cursor, pages)
    decreases |Select(store, f, at)|
  {
    var page, row := NextRequest(c, store, f, limit, cursor, at);
    if row.None? {
      pages := [page];
      OnlyPage(c, store, f, limit, cursor, page);
    } else {
      FewerRemain(store, f, at, row.value);
      var rest := WalkFrom(c, store, f, limit, page.nextCursor, Some(row.value.position));
      Prepended(c, store, f, limit, cursor, page, rest);
      pages := [page] + rest;
    }
  }

  lemma FewerRemain(store: Store, f: Filter, at: Option<CursorPosition>, row: Row)
    requires Servable(store) && row in Select(store, f, at)
    ensures |Select(store, f, Some(row.position))| < |Select(store, f, at)|
  {
    var fewer, all := Select(store, f, Some(row.position)), Select(store, f, at);
    assert fewer <= all && row !in fewer;
    SubsetSize(fewer, all - {row});
  }

  lemma {:induction false} SubsetSize(a: set<Row>, b: set<Row>)
    requires a <= b
    ensures |a| <= |b|
    decreases |a|
  {
    if a != {} {
      var r :| r in a;
      SubsetSize(a - {r}, b - {r});
    }
  }

  /** Following the cursors of an unchanging collection comes to an end. */
  lemma WalkEnds(c: CursorCodec, store: Store, f: Filter, limit: nat) returns (stores: seq<Store>, pages: seq<Page>)
    requires RoundTrips(c) && Servable(store) && ValidRange(f) && limit >= 1
    ensures Follows(c, stores, f, limit, pages) && AllAre(stores, store)
  {
    pages := WalkFrom(c, store, f, limit, None, None);
    stores := seq(|pages|, _ => store);
  }
}
