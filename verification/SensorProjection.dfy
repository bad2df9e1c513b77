/** The projection of sensor locations while the pipelines go on writing records. */
module SensorProjection {
  import opened Wrappers
  import opened CpsKeys
  import opened Protocol
  import opened Records
  import opened Pipeline
  import opened SensorLocations

  // ---------- writes that keep the events ----------

  /** The document is found by the query, with the same events, as before. */
  predicate SameListing(d: Document, e: Document) {
    && Listed(e) && e.id == d.id && e.record.sensorId == d.record.sensorId
    && e.record.recordedAt == d.record.recordedAt && e.record.messageJson == d.record.messageJson
  }

  /** Every document the query finds stays as found; others may come, change or be found from now on. */
  ghost predicate KeepsListed(store: Store, after: Store) {
    forall k :: k in store.docs && Listed(store.docs[k]) ==>
      k in after.docs && SameListing(store.docs[k], after.docs[k])
  }

  lemma ListedEvents(store: Store, after: Store, json: Json, k: string, i: nat, s: string)
    requires KeepsListed(store, after) && k in store.docs && Listed(store.docs[k])
    ensures GpsEvent(store, json, k, i, s) <==> GpsEvent(after, json, k, i, s)
    ensures GpsEvent(store, json, k, i, s) ==> PositionOf(store, json, k, i) == PositionOf(after, json, k, i)
  {
  }

  /** The latest event stays the latest or is followed by a newer one. */
  lemma LatestMovesOn(store: Store, after: Store, json: Json, s: string, k: string, i: nat) returns (latest: Position)
    requires after.Valid() && KeepsListed(store, after)
    requires GpsEvent(store, json, k, i, s) && LastEvent(store, json, s, k, i)
    ensures LatestGps(after, json, s, latest)
    ensures latest == PositionOf(store, json, k, i) || Older(PositionOf(store, json, k, i), latest)
  {
    ListedEvents(store, after, json, k, i, s);
    latest := LatestExists(after, json, s, k, i);
    var m, j :|
      GpsEvent(after, json, m, j, s) && latest == PositionOf(after, json, m, j) && LastEvent(after, json, s, m, j);
    if m == k { ListedEvents(store, after, json, k, j, s); }
  }

  lemma OlderIsTransitive(p: Position, q: Position, r: Position)
    requires p == q || Older(p, q)
    requires q == r || Older(q, r)
    ensures p == r || Older(p, r)
  {
  }

  /** A position taken from the records stays one while listed records keep their events. */
  lemma SourcedStays(store: Store, after: Store, json: Json, s: string, p: Position)
    requires after.Valid() && KeepsListed(store, after) && SourcedAt(store, json, s, p)
    ensures SourcedAt(after, json, s, p)
  {
    var q :| LatestGps(store, json, s, q) && (p == q || Older(p, q));
    var k, i :| GpsEvent(store, json, k, i, s) && q == PositionOf(store, json, k, i) && LastEvent(store, json, s, k, i);
    var latest := LatestMovesOn(store, after, json, s, k, i);
    OlderIsTransitive(p, q, latest);
  }

  /** A write keeps the events exactly when it does not change a document the query finds. */
  lemma PutKeepsListed(store: Store, r: Record)
    ensures KeepsListed(store, Put(store, r)) <==>
            (r.recordKey in store.docs && Listed(store.docs[r.recordKey]) ==>
              SameListing(store.docs[r.recordKey], Document(store.docs[r.recordKey].id, r, None, None)))
  {
  }

  // ---------- ordinary runs ----------

  /** The collections, and what queries have returned so far; it may be applied late, in part, or never. */
  datatype Projection = Projection(store: Store, locs: Locations, found: set<Candidate>)

  datatype Step = Stored(r: Record) | Queried(limit: nat, result: seq<Candidate>) | Upserted(c: Candidate)

  ghost predicate Proceeds(json: Json, before: Projection, step: Step, after: Projection) {
    match step
    case Stored(r) =>
      KeepsListed(before.store, Put(before.store, r)) && after == before.(store := Put(before.store, r))
    case Queried(limit, r) =>
      && PollResult(before.store, json, before.locs, limit, r)
      && after == before.(found := before.found + set c | c in r)
    case Upserted(c) => c in before.found && after == before.(locs := Applied(before.locs, c))
  }

  /** Writers and pollers in any interleaving, from empty collections, where no write changes a document the query
      finds. */
  ghost predicate OrdinaryRun(json: Json, states: seq<Projection>, steps: seq<Step>) {
    && |states| == |steps| + 1 && states[0] == Projection(Store(map[], 0), map[], {})
    && forall i :: 0 <= i < |steps| ==> Proceeds(json, states[i], steps[i], states[i + 1])
  }

  ghost predicate AllSourced(json: Json, x: Projection) {
    && x.store.Valid() && Sourced(x.store, json, x.locs)
    && forall c :: c in x.found ==> SourcedAt(x.store, json, c.sensorId, c.position)
  }

  lemma StoringKeepsSourced(json: Json, x: Projection, r: Record)
    requires AllSourced(json, x) && KeepsListed(x.store, Put(x.store, r))
    ensures AllSourced(json, x.(store := Put(x.store, r)))
  {
    PutKeepsValid(x.store, r);
    forall s, p | SourcedAt(x.store, json, s, p)
      ensures SourcedAt(Put(x.store, r), json, s, p)
    {
      SourcedStays(x.store, Put(x.store, r), json, s, p);
    }
  }

  /** What a query returns is taken from the records. */
  lemma QueriedIsSourced(store: Store, json: Json, locs: Locations, limit: nat, result: seq<Candidate>, c: Candidate)
    requires PollResult(store, json, locs, limit, result) && c in result
    ensures SourcedAt(store, json, c.sensorId, c.position)
  {
    var i :| 0 <= i < |result| && result[i] == c;
    assert LatestGps(store, json, result[i].sensorId, result[i].position);
  }

  /** At every moment of every ordinary run, each location stands at its sensor's latest GPS event or at an older
      source. */
  lemma {:induction false} SourcedThroughout(json: Json, states: seq<Projection>, steps: seq<Step>, i: nat)
    requires OrdinaryRun(json, states, steps) && i < |states|
    ensures AllSourced(json, states[i])
    decreases i
  {
    if i > 0 {
      var before: nat := i - 1;
      SourcedThroughout(json, states, steps, before);
      var x := states[before];
      assert Proceeds(json, x, steps[before], states[i]);
      match steps[before]
      case Stored(r) => StoringKeepsSourced(json, x, r);
      case Upserted(c) =>
      case Queried(limit, result) =>
        forall c | c in result
          ensures SourcedAt(x.store, json, c.sensorId, c.position)
        {
          QueriedIsSourced(x.store, json, x.locs, limit, result, c);
        }
    }
  }

  /** In an ordinary run a query that comes back empty finds the projection current: every sensor with a valid GPS event
      stands at its latest one. */
  lemma EmptyPollInOrdinaryRun(
      json: Json, states: seq<Projection>, steps: seq<Step>, i: nat, limit: nat, s: string, key: string, j: nat)
    requires OrdinaryRun(json, states, steps) && i < |states| && limit >= 1
    requires PollResult(states[i].store, json, states[i].locs, limit, [])
    requires GpsEvent(states[i].store, json, key, j, s)
    ensures s in states[i].locs && LatestGps(states[i].store, json, s, states[i].locs[s].position)
  {
    SourcedThroughout(json, states, steps, i);
    var p := EmptyPollMeansCurrent(states[i].store, json, states[i].locs, limit, s, key, j);
  }

  // ---------- which writes are ordinary ----------

  /** All writes of an online attempt, with the marks it may add. */
  function AttemptWrites(job: Job, batch: seq<RawEnvelope>): seq<Record> {
    OnlineWrites(job, batch) + FailureWrites(job, batch)
  }

  /** The attempt's next write finds its position as the attempt left it; if it has not written to it yet, the query
      does not find the position either. */
  ghost predicate OnItsOwn(store: Store, done: seq<Record>, key: string) {
    match LastFor(done, key)
    case None => key in store.docs ==> !Listed(store.docs[key])
    case Some(r) => key in store.docs && store.docs[key].record == r
  }

  /** The writes of an envelope and its mark: the query does not find the first, and the others have the same events. */
  lemma EnvelopeStages(job: Job, e: Envelope, id: nat)
    ensures !Listed(Document(id, CreateEnvelopeRecord(job.provenance, e), None, None))
    ensures
      var d := Document(id, CanonicalRecord(job, e), None, None);
      forall code :: Listed(d) ==> SameListing(d, Document(id, WithProjectionError(d.record, code), None, None))
  {
  }

  /** All the writes a position can get. */
  function Stages(job: Job, batch: seq<RawEnvelope>, i: nat): seq<Record> {
    PositionWrites(job, batch, i) + PositionMarks(job, batch, i)
  }

  /** Behind the first of several come the canonical record and, at most, the same with a projection error. */
  lemma StagesShape(job: Job, batch: seq<RawEnvelope>, i: nat)
    requires |Stages(job, batch, i)| > 1
    ensures
      var stages, e := Stages(job, batch, i), Envelope(i, batch[i]);
      && i < |batch| && |stages| <= 3 && stages[0] == CreateEnvelopeRecord(job.provenance, e)
      && stages[1] == CanonicalRecord(job, e)
      && (|stages| == 3 ==> exists code :: stages[2] == WithProjectionError(stages[1], code))
  {
    var stages, e := Stages(job, batch, i), Envelope(i, batch[i]);
    assert stages == EnvelopeWrites(job, e) + PositionMarks(job, batch, i);
    match Judge(job, e)
    case NotProjected(_, code) => assert |stages| == 3 && stages[2] == WithProjectionError(stages[1], Rejected(code));
    case Projected(_, _) => assert |stages| == 3 && stages[2] == WithProjectionError(stages[1], LegacyProjectionFailed);
    case _ =>
  }

  /** Consecutive writes of a position: from a stage the query does not find, or to one with the same events. */
  lemma PositionAdvances(job: Job, batch: seq<RawEnvelope>, i: nat, n: nat, id: nat)
    requires 0 < n < |Stages(job, batch, i)|
    ensures
      var stages := Stages(job, batch, i);
      var d, e := Document(id, stages[n - 1], None, None), Document(id, stages[n], None, None);
      Listed(d) ==> SameListing(d, e)
  {
    StagesShape(job, batch, i);
    EnvelopeStages(job, Envelope(i, batch[i]), id);
  }

  lemma NextUnder(all: seq<Record>, n: nat, key: string)
    requires n < |all| && all[n].recordKey == key
    ensures Under(all[..n], key) + [all[n]] <= Under(all, key)
  {
    assert all == all[..n] + [all[n]] + all[n + 1..];
    UnderConcat(all[..n], [all[n]], key);
    UnderConcat(all[..n] + [all[n]], all[n + 1..], key);
    assert [all[n]][..0] == [];
  }

  /** What an attempt has written to a position, and what it writes to it next. */
  lemma NextOfPosition(job: Job, batch: seq<RawEnvelope>, n: nat) returns (i: nat)
    requires n < |AttemptWrites(job, batch)|
    ensures
      var all := AttemptWrites(job, batch);
      var r := all[n];
      var own := Under(all[..n], r.recordKey);
      && own + [r] <= Stages(job, batch, i)
      && LastFor(all[..n], r.recordKey) == if own == [] then None else Some(own[|own| - 1])
  {
    var all := AttemptWrites(job, batch);
    AttemptWritesOwnKeys(job, batch);
    assert OwnKey(job, |batch|, all[n].recordKey);
    i :| i < |batch| && all[n].recordKey == RecordKey(job.provenance.sourceKey, i);
    AttemptUnder(job, batch, i);
    NextUnder(all, n, all[n].recordKey);
    LastForIsLastUnder(all[..n], all[n].recordKey);
  }

  lemma NextStageKeepsListed(
      job: Job, batch: seq<RawEnvelope>, store: Store, i: nat, own: seq<Record>, r: Record)
    requires own != [] && own + [r] <= Stages(job, batch, i)
    requires r.recordKey in store.docs && store.docs[r.recordKey].record == own[|own| - 1]
    ensures KeepsListed(store, Put(store, r))
  {
    assert (own + [r])[|own|] == r && (own + [r])[|own| - 1] == own[|own| - 1];
    PositionAdvances(job, batch, i, |own|, store.docs[r.recordKey].id);
    PutKeepsListed(store, r);
  }

  /** The writes of attempts at anchors the query has not found yet are ordinary, however they interleave with each
      other and with polls. */
  lemma FirstAttemptIsOrdinary(job: Job, batch: seq<RawEnvelope>, store: Store, n: nat)
    requires n < |AttemptWrites(job, batch)|
    requires OnItsOwn(store, AttemptWrites(job, batch)[..n], AttemptWrites(job, batch)[n].recordKey)
    ensures KeepsListed(store, Put(store, AttemptWrites(job, batch)[n]))
  {
    var done, r := AttemptWrites(job, batch)[..n], AttemptWrites(job, batch)[n];
    var i := NextOfPosition(job, batch, n);
    if Under(done, r.recordKey) == [] {
      PutKeepsListed(store, r);
    } else {
      NextStageKeepsListed(job, batch, store, i, Under(done, r.recordKey), r);
    }
  }

  // ---------- where an empty poll is not current ----------

  lemma LatestAfterAll(store: Store, after: Store, json: Json, s: string, p: Position, q: Position)
    requires LatestGps(store, json, s, p) && LatestGps(after, json, s, q)
    requires forall k, i: nat :: GpsEvent(after, json, k, i, s) ==>
               GpsEvent(store, json, k, i, s) && PositionOf(store, json, k, i) == PositionOf(after, json, k, i)
    ensures q == p || Older(q, p) || (q.at == p.at && q.id == p.id)
  {
  }

  /** A write that takes a document away from the query changes none of the other events. */
  lemma HiddenEvents(store: Store, json: Json, r: Record, k: string, i: nat, s: string)
    requires r.recordKey in store.docs && !Listed(Document(store.docs[r.recordKey].id, r, None, None))
    ensures GpsEvent(Put(store, r), json, k, i, s) <==> GpsEvent(store, json, k, i, s) && k != r.recordKey
    ensures GpsEvent(Put(store, r), json, k, i, s) ==>
              PositionOf(store, json, k, i) == PositionOf(Put(store, r), json, k, i)
  {
  }

  /** Taking a document away from the query leaves nobody behind who was not. */
  lemma HidingLeavesNoneBehind(store: Store, json: Json, locs: Locations, r: Record, s: string)
    requires store.Valid() && r.recordKey in store.docs
    requires !Listed(Document(store.docs[r.recordKey].id, r, None, None))
    requires !Behind(store, json, locs, s)
    ensures !Behind(Put(store, r), json, locs, s)
  {
    var after := Put(store, r);
    if q :| LatestGps(after, json, s, q) && (s !in locs || Older(locs[s].position, q)) {
      var k, i :|
        GpsEvent(after, json, k, i, s) && q == PositionOf(after, json, k, i) && LastEvent(after, json, s, k, i);
      forall m, j: nat
        ensures GpsEvent(after, json, m, j, s) ==>
                  GpsEvent(store, json, m, j, s) && PositionOf(store, json, m, j) == PositionOf(after, json, m, j)
      {
        HiddenEvents(store, json, r, m, j, s);
      }
      var p := LatestExists(store, json, s, k, i);
      LatestAfterAll(store, after, json, s, p, q);
    }
  }

  /** A replay of the record a location was taken from: when a retry or a backfill makes its first write to it, the
      sensor still has an older event, the query finds nobody lagging, and yet the location is not at the sensor's
      latest event. */
  lemma ReplayHidesLatest(
      store: Store, json: Json, locs: Locations, limit: nat, r: Record, s: string, older: string, i: nat)
    requires store.Valid() && PollResult(store, json, locs, limit, []) && limit >= 1
    requires r.recordKey in store.docs && !Listed(Document(store.docs[r.recordKey].id, r, None, None))
    requires s in locs && locs[s].position.key == r.recordKey
    requires GpsEvent(store, json, older, i, s) && older != r.recordKey
    ensures
      var after := Put(store, r);
      && PollResult(after, json, locs, limit, []) && GpsEvent(after, json, older, i, s)
      && !LatestGps(after, json, s, locs[s].position)
  {
    var after := Put(store, r);
    HiddenEvents(store, json, r, older, i, s);
    forall t
      ensures t !in Unprojected(after, json, locs)
    {
      UnprojectedMeaning(store, json, locs, t);
      UnprojectedMeaning(after, json, locs, t);
      assert Unprojected(store, json, locs) == {};
      HidingLeavesNoneBehind(store, json, locs, r, t);
    }
    assert Unprojected(after, json, locs) == {};
    assert !Listed(after.docs[r.recordKey]);
  }

  // ---------- ... and a collection in which it happens ----------

  const PLACE := Geo(Finite(0.0), Finite(0.0))

  /** The public sections of every message: one position. */
  function OneFix(): Json { _ => [Gps(PLACE.lat, PLACE.lng)] }

  /** A decoded record of sensor "s" with a position. */
  function Located(key: string, at: nat): Record {
    Record(key, key, 0, Some("0"), Some(0), None, Some("s"), Some([]), Some(at), Some(at), Some([]), Some([]),
      Some("{}"), Some([]), StructureValid, SignatureValid, Decoded, None, Some(UrbanPayload), [Location], None)
  }

  /** What a replay writes first. */
  function Restarted(key: string): Record {
    Record(key, key, 0, Some("0"), Some(0), None, Some("s"), Some([]), None, None, Some([]), Some([]), None,
      Some([]), StructureValid, SignaturePending, DecodePending, None, None, [], None)
  }

  function TwoRecords(): Store {
    Store(map["a" := Document(0, Located("a", 1), None, None), "b" := Document(1, Located("b", 2), None, None)], 2)
  }

  function AtTheSecond(): Locations {
    map["s" := Place(Position(PLACE, "b", 1, 2), Waiting)]
  }

  lemma EventsOfTwo(k: string, i: nat, s: string)
    ensures GpsEvent(TwoRecords(), OneFix(), k, i, s) <==> s == "s" && i == 0 && (k == "a" || k == "b")
  {
    assert Location in [Location];
  }

  lemma SecondIsLatest()
    ensures LatestGps(TwoRecords(), OneFix(), "s", Position(PLACE, "b", 1, 2))
  {
    EventsOfTwo("b", 0, "s");
    forall k, j: nat | GpsEvent(TwoRecords(), OneFix(), k, j, "s")
      ensures k == "a" || (k == "b" && j == 0)
    {
      EventsOfTwo(k, j, "s");
    }
    assert LastEvent(TwoRecords(), OneFix(), "s", "b", 0);
  }

  lemma NobodyLags()
    ensures PollResult(TwoRecords(), OneFix(), AtTheSecond(), 1, [])
  {
    SecondIsLatest();
    forall s
      ensures s !in Unprojected(TwoRecords(), OneFix(), AtTheSecond())
    {
      UnprojectedMeaning(TwoRecords(), OneFix(), AtTheSecond(), s);
      if p :| LatestGps(TwoRecords(), OneFix(), s, p) {
        var k, i :| GpsEvent(TwoRecords(), OneFix(), k, i, s) && p == PositionOf(TwoRecords(), OneFix(), k, i);
        EventsOfTwo(k, i, s);
        LatestIsUnique(TwoRecords(), OneFix(), "s", p, Position(PLACE, "b", 1, 2));
      }
    }
    assert Unprojected(TwoRecords(), OneFix(), AtTheSecond()) == {};
  }

  /** Two records of a sensor that stands at the newer one, which is then replayed: the poll is empty, and the sensor is
      not at its latest event. */
  lemma EmptyPollMayBeAhead()
    ensures
      var after, at := Put(TwoRecords(), Restarted("b")), AtTheSecond()["s"].position;
      && PollResult(after, OneFix(), AtTheSecond(), 1, []) && GpsEvent(after, OneFix(), "a", 0, "s")
      && !LatestGps(after, OneFix(), "s", at)
  {
    NobodyLags();
    EventsOfTwo("a", 0, "s");
    ReplayHidesLatest(TwoRecords(), OneFix(), AtTheSecond(), 1, Restarted("b"), "s", "a", 0);
  }

  // ---------- a record key names one record ----------

  /** What decides the records of an anchor: its job and its batch, the same for all attempts. */
  datatype Origin = Origin(job: Job, batch: seq<RawEnvelope>)

  /** The record is one an attempt of either pipeline at its anchor writes. */
  ghost predicate IssuedBy(origins: string -> Origin, r: Record) {
    var o := origins(r.payloadKey);
    && o.job.provenance.sourceKey == r.payloadKey
    && (r in AttemptWrites(o.job, o.batch) || r in BackfillWrites(o.job, o.batch))
  }

  ghost predicate AllIssued(origins: string -> Origin, log: seq<Record>) {
    forall r :: r in log ==> IssuedBy(origins, r)
  }

  /** Every decoded record of a position carries the time of the position's final record. */
  lemma StageTime(job: Job, batch: seq<RawEnvelope>, i: nat, r: Record)
    requires i < |batch| && (r in Stages(job, batch, i) || r in BackfillPositionWrites(job, batch, i))
    ensures r.decodeStatus.Decoded? ==> r.recordedAt == FinalBackfill(job, batch, i).recordedAt
  {
  }

  lemma {:induction false} MemberUnder(writes: seq<Record>, r: Record)
    requires r in writes
    ensures r in Under(writes, r.recordKey)
    decreases |writes|
  {
    if writes[|writes| - 1] != r { MemberUnder(writes[..|writes| - 1], r); }
  }

  lemma IssuedTime(origins: string -> Origin, r: Record) returns (i: nat)
    requires IssuedBy(origins, r)
    ensures
      var o := origins(r.payloadKey);
      && i < |o.batch| && r.recordKey == RecordKey(r.payloadKey, i)
      && (r.decodeStatus.Decoded? ==> r.recordedAt == FinalBackfill(o.job, o.batch, i).recordedAt)
  {
    var o := origins(r.payloadKey);
    AttemptWritesOwnKeys(o.job, o.batch);
    assert OwnKey(o.job, |o.batch|, r.recordKey);
    i :| i < |o.batch| && r.recordKey == RecordKey(o.job.provenance.sourceKey, i);
    AttemptUnder(o.job, o.batch, i);
    if r in AttemptWrites(o.job, o.batch) {
      MemberUnder(AttemptWrites(o.job, o.batch), r);
    } else {
      MemberUnder(BackfillWrites(o.job, o.batch), r);
    }
    StageTime(o.job, o.batch, i, r);
  }

  /** Decoded records under one key have one time. */
  lemma SameKeySameTime(origins: string -> Origin, r: Record, q: Record)
    requires IssuedBy(origins, r) && IssuedBy(origins, q) && r.recordKey == q.recordKey
    requires r.decodeStatus.Decoded? && q.decodeStatus.Decoded?
    ensures r.recordedAt == q.recordedAt
  {
    var i := IssuedTime(origins, r);
    var j := IssuedTime(origins, q);
    RecordKeyInjective(r.payloadKey, i, q.payloadKey, j);
  }

  /** The collection after the first n writes, from an empty one. */
  function After(log: seq<Record>, n: nat): Store
    requires n <= |log|
  {
    PutAll(Store(map[], 0), log[..n])
  }

  /** A document stays under its id, and shows a record of the log. */
  lemma DocumentStays(log: seq<Record>, n: nat, k: string)
    requires n <= |log| && k in After(log, n).docs
    ensures After(log, n).docs[k].record in log && After(log, n).docs[k].record.recordKey == k
    ensures k in After(log, |log|).docs && After(log, |log|).docs[k].id == After(log, n).docs[k].id
  {
    assert log == log[..n] + log[n..] && log[..|log|] == log;
    PutAllIsLastWrite(Store(map[], 0), log[..n], k);
    LastForIsMember(log[..n], k);
    PutAllConcat(Store(map[], 0), log[..n], log[n..]);
    PutAllIsLastWrite(After(log, n), log[n..], k);
  }

  predicate DecodedAt(r: Record, k: string) {
    r.recordKey == k && r.decodeStatus.Decoded? && r.recordedAt.Some?
  }

  /** The time of the decoded records under a key, as one of them has it. */
  function TimeOf(log: seq<Record>, k: string): nat {
    if log == [] then 0
    else if DecodedAt(log[|log| - 1], k) then log[|log| - 1].recordedAt.value
    else TimeOf(log[..|log| - 1], k)
  }

  lemma {:induction false} TimeIsOfOne(log: seq<Record>, k: string, r: Record) returns (q: Record)
    requires r in log && DecodedAt(r, k)
    ensures q in log && DecodedAt(q, k) && q.recordedAt == Some(TimeOf(log, k))
    decreases |log|
  {
    q := log[|log| - 1];
    if !DecodedAt(q, k) { q := TimeIsOfOne(log[..|log| - 1], k, r); }
  }

  lemma TimeIs(origins: string -> Origin, log: seq<Record>, k: string, r: Record)
    requires AllIssued(origins, log) && r in log && DecodedAt(r, k)
    ensures r.recordedAt == Some(TimeOf(log, k))
  {
    var q := TimeIsOfOne(log, k, r);
    SameKeySameTime(origins, r, q);
  }

  /** The id and time each record key names. */
  function SourcesOf(log: seq<Record>): map<string, (nat, nat)> {
    map k | k in After(log, |log|).docs :: (TimeOf(log, k), After(log, |log|).docs[k].id)
  }

  /** Whatever attempts write, in any order and cut anywhere: a record key names one id and one time, at every moment at
      which the query finds the record. */
  lemma KeysNameSources(origins: string -> Origin, log: seq<Record>, n: nat, json: Json, k: string, i: nat, s: string)
    requires AllIssued(origins, log) && n <= |log| && GpsEvent(After(log, n), json, k, i, s)
    ensures KeyedBySource(SourcesOf(log), PositionOf(After(log, n), json, k, i))
  {
    DocumentStays(log, n, k);
    TimeIs(origins, log, k, After(log, n).docs[k].record);
  }

  /** The candidate is a GPS event of the records at some moment. */
  ghost predicate TakenFrom(log: seq<Record>, json: Json, c: Candidate) {
    exists n: nat, i: nat :: n <= |log| && TakenAt(After(log, n), json, c, i)
  }

  ghost predicate TakenAt(store: Store, json: Json, c: Candidate, i: nat) {
    && GpsEvent(store, json, c.position.key, i, c.sensorId)
    && c.position == PositionOf(store, json, c.position.key, i)
  }

  /** So an address never belongs to old coordinates, as long as what is projected are GPS events of records the
      pipelines wrote, whenever they were read. */
  lemma AddressesFit(
      origins: string -> Origin, log: seq<Record>, json: Json, states: seq<Sys>, labels: seq<Label>, at: nat)
    requires AllIssued(origins, log) && at < |states| && |states| == |labels| + 1 && states[0] == Sys(map[], map[], {})
    requires forall i :: 0 <= i < |labels| ==> Next(states[i], labels[i]) == Some(states[i + 1])
    requires forall i :: 0 <= i < |labels| && labels[i].Project? ==> TakenFrom(log, json, labels[i].c)
    ensures Fitting(states[at].locs, states[at].answers)
  {
    forall i | 0 <= i < |labels| && labels[i].Project?
      ensures KeyedBySource(SourcesOf(log), labels[i].c.position)
    {
      var c := labels[i].c;
      assert TakenFrom(log, json, c);
      var n: nat, j: nat :| n <= |log| && TakenAt(After(log, n), json, c, j);
      KeysNameSources(origins, log, n, json, c.position.key, j, c.sensorId);
    }
    AddressFitsCoordinates(SourcesOf(log), states, labels, at);
  }
}
