/** The current place of every sensor: a last-writer-wins projection of the records, and its concurrent geocoding. */
module SensorLocations {
  import opened Wrappers
  import opened Protocol
  import opened Records
  import opened TextOrder

  /** A GPS event with the record it comes from; ids and times are ordered. */
  datatype Position = Position(geo: Geo, key: string, id: nat, at: nat)

  datatype Candidate = Candidate(sensorId: string, position: Position)

  datatype Address = Address(city: string, region: string, country: string)

  datatype GeocodingStatus = Waiting | Resolved(address: Address) | NotFound

  /** A document of sensor_locations. */
  datatype Place = Place(position: Position, status: GeocodingStatus)

  type Locations = map<string, Place>

  /** The lexicographic order of sources: time first, then record id. */
  predicate Older(p: Position, q: Position) {
    p.at < q.at || (p.at == q.at && p.id < q.id)
  }

  // ---------- the projection register ----------

  /** One candidate: a newer source replaces the position, and changed coordinates reset the address. */
  function Applied(locs: Locations, c: Candidate): Locations {
    if c.sensorId !in locs then locs[c.sensorId := Place(c.position, Waiting)]
    else
      var stored := locs[c.sensorId];
      if !Older(stored.position, c.position) then locs
      else locs[c.sensorId :=
        Place(c.position, if stored.position.geo != c.position.geo then Waiting else stored.status)]
  }

  function AppliedAll(locs: Locations, cs: seq<Candidate>): Locations {
    if cs == [] then locs else Applied(AppliedAll(locs, cs[..|cs| - 1]), cs[|cs| - 1])
  }

  /** Candidates of one sensor with the same source are the same. */
  ghost predicate Agree(cs: seq<Candidate>) {
    forall i, j ::
      0 <= i < |cs| && 0 <= j < |cs| && SameOrigin(cs[i], cs[j]) ==> cs[i] == cs[j]
  }

  predicate SameOrigin(c: Candidate, d: Candidate) {
    c.sensorId == d.sensorId && c.position.at == d.position.at && c.position.id == d.position.id
  }

  /** The sensor's position comes from one of the candidates or was there before, and none of them is newer. */
  lemma {:induction false} NewestSourceWins(locs: Locations, cs: seq<Candidate>, s: string)
    ensures s in AppliedAll(locs, cs) <==> s in locs || exists i :: 0 <= i < |cs| && cs[i].sensorId == s
    ensures s in AppliedAll(locs, cs) ==>
      var p := AppliedAll(locs, cs)[s].position;
      && ((s in locs && p == locs[s].position) || exists i :: 0 <= i < |cs| && cs[i] == Candidate(s, p))
      && (s in locs ==> !Older(p, locs[s].position))
      && forall i :: 0 <= i < |cs| && cs[i].sensorId == s ==> !Older(p, cs[i].position)
  {
    if cs != [] {
      var front, c := cs[..|cs| - 1], cs[|cs| - 1];
      NewestSourceWins(locs, front, s);
      assert forall i :: 0 <= i < |front| ==> front[i] == cs[i];
      if c.sensorId == s { assert cs[|cs| - 1].sensorId == s; }
    }
  }

  /** Whatever the order, repetition and interleaving of the candidates, the positions are the same. */
  lemma OrderDoesNotMatter(cs: seq<Candidate>, ds: seq<Candidate>, s: string)
    requires Agree(cs) && forall c :: c in cs <==> c in ds
    ensures s in AppliedAll(map[], cs) <==> s in AppliedAll(map[], ds)
    ensures s in AppliedAll(map[], cs) ==> AppliedAll(map[], cs)[s].position == AppliedAll(map[], ds)[s].position
  {
    NewestSourceWins(map[], cs, s);
    NewestSourceWins(map[], ds, s);
    MembersMention(cs, ds, s);
    MembersMention(ds, cs, s);
    if s in AppliedAll(map[], cs) {
      var p, q := AppliedAll(map[], cs)[s].position, AppliedAll(map[], ds)[s].position;
      assert Candidate(s, p) in cs && Candidate(s, q) in cs && Candidate(s, p) in ds;
    }
  }

  lemma MembersMention(cs: seq<Candidate>, ds: seq<Candidate>, s: string)
    requires forall c :: c in cs ==> c in ds
    ensures (exists i :: 0 <= i < |cs| && cs[i].sensorId == s) ==> exists i :: 0 <= i < |ds| && ds[i].sensorId == s
  {
    if i :| 0 <= i < |cs| && cs[i].sensorId == s {
      assert cs[i] in ds;
      var j :| 0 <= j < |ds| && ds[j] == cs[i];
      assert ds[j].sensorId == s;
    }
  }

  // ---------- what the register does to an address ----------

  /** The i-th candidate becomes the source of its sensor: it is newer than what was stored and than every candidate
      before it. */
  ghost predicate BecomesSource(locs: Locations, cs: seq<Candidate>, i: nat)
    requires i < |cs|
  {
    var c := cs[i];
    && (c.sensorId in locs ==> Older(locs[c.sensorId].position, c.position))
    && forall j :: 0 <= j < i && cs[j].sensorId == c.sensorId ==> Older(cs[j].position, c.position)
  }

  /** Every candidate that becomes the sensor's source has the stored coordinates. */
  ghost predicate StaysPut(locs: Locations, cs: seq<Candidate>, s: string)
    requires s in locs
  {
    forall i :: 0 <= i < |cs| && cs[i].sensorId == s && BecomesSource(locs, cs, i) ==>
      cs[i].position.geo == locs[s].position.geo
  }

  lemma SourcesInFront(locs: Locations, cs: seq<Candidate>)
    requires cs != []
    ensures
      var front := cs[..|cs| - 1];
      && (forall i :: 0 <= i < |front| ==> front[i] == cs[i])
      && forall i :: 0 <= i < |front| ==> (BecomesSource(locs, front, i) <==> BecomesSource(locs, cs, i))
  {
  }

  /** The last candidate becomes the source exactly when it is newer than the position so far. */
  lemma LastBecomesSource(locs: Locations, cs: seq<Candidate>, s: string)
    requires cs != [] && s in locs && cs[|cs| - 1].sensorId == s
    ensures s in AppliedAll(locs, cs[..|cs| - 1])
    ensures BecomesSource(locs, cs, |cs| - 1) <==>
            Older(AppliedAll(locs, cs[..|cs| - 1])[s].position, cs[|cs| - 1].position)
  {
    var front := cs[..|cs| - 1];
    NewestSourceWins(locs, front, s);
    assert forall i :: 0 <= i < |front| ==> front[i] == cs[i];
  }

  /** A stored location keeps its status exactly as long as its coordinates do not change: if every candidate that
      becomes its source has the stored coordinates it is as before, and if any of them has others it waits. */
  lemma {:induction false} StatusFollowsCoordinates(locs: Locations, cs: seq<Candidate>, s: string)
    requires s in locs
    ensures s in AppliedAll(locs, cs)
    ensures
      var after := AppliedAll(locs, cs)[s];
      if StaysPut(locs, cs, s) then
        after.status == locs[s].status && after.position.geo == locs[s].position.geo
      else after.status == Waiting
    decreases |cs|
  {
    if cs != [] {
      var front, c := cs[..|cs| - 1], cs[|cs| - 1];
      StatusFollowsCoordinates(locs, front, s);
      SourcesInFront(locs, cs);
      if c.sensorId == s { LastBecomesSource(locs, cs, s); }
      assert StaysPut(locs, cs, s) <==>
        && StaysPut(locs, front, s)
        && (c.sensorId == s && BecomesSource(locs, cs, |cs| - 1) ==> c.position.geo == locs[s].position.geo);
    }
  }

  /** A sensor seen for the first time waits, whatever else is known of it. */
  lemma {:induction false} NewSensorWaits(locs: Locations, cs: seq<Candidate>, s: string)
    requires s !in locs
    ensures s in AppliedAll(locs, cs) ==> AppliedAll(locs, cs)[s].status == Waiting
    decreases |cs|
  {
    if cs != [] { NewSensorWaits(locs, cs[..|cs| - 1], s); }
  }

  /** A sensor that stays where it is keeps the address once found, however many fixes of it come in. */
  lemma AddressIsKept(locs: Locations, cs: seq<Candidate>, s: string)
    requires s in locs && locs[s].status.Resolved?
    requires forall i :: 0 <= i < |cs| && cs[i].sensorId == s && Older(locs[s].position, cs[i].position) ==>
               cs[i].position.geo == locs[s].position.geo
    ensures s in AppliedAll(locs, cs) && AppliedAll(locs, cs)[s].status == Resolved(locs[s].status.address)
  {
    StatusFollowsCoordinates(locs, cs, s);
  }

  // ---------- geocoding by any number of processes ----------

  /** What a geocoder read of a waiting location, and the answer it has got since, if any. */
  datatype Sighting = Sighting(sensorId: string, position: Position, answer: Option<Address>)

  /** The collection, the geocoders at work, and every answer ever obtained. */
  datatype Sys = Sys(locs: Locations, readers: map<nat, Sighting>, answers: set<(Geo, Address)>)

  datatype Label =
    | Project(c: Candidate) | Read(g: nat, sensorId: string) | Answer(g: nat, address: Address)
    | MarkResolved(g: nat) | MarkNotFound(g: nat) | GiveUp(g: nat)

  /** The update filter: still the same source key, and still waiting. */
  predicate Current(locs: Locations, r: Sighting) {
    r.sensorId in locs && locs[r.sensorId].position.key == r.position.key && locs[r.sensorId].status.Waiting?
  }

  function Marked(locs: Locations, r: Sighting, status: GeocodingStatus): Locations {
    if Current(locs, r) then locs[r.sensorId := locs[r.sensorId].(status := status)] else locs
  }

  function Next(s: Sys, l: Label): Option<Sys> {
    match l
    case Project(c) => Some(s.(locs := Applied(s.locs, c)))
    case Read(g, id) =>
      if g !in s.readers && id in s.locs && s.locs[id].status.Waiting? then
        Some(s.(readers := s.readers[g := Sighting(id, s.locs[id].position, None)]))
      else None
    case Answer(g, address) =>
      if g in s.readers && s.readers[g].answer.None? then
        Some(s.(readers := s.readers[g := s.readers[g].(answer := Some(address))],
                answers := s.answers + {(s.readers[g].position.geo, address)}))
      else None
    case MarkResolved(g) =>
      if g in s.readers && s.readers[g].answer.Some? then
        Some(s.(locs := Marked(s.locs, s.readers[g], Resolved(s.readers[g].answer.value)), readers := s.readers - {g}))
      else None
    case MarkNotFound(g) =>
      if g in s.readers then Some(s.(locs := Marked(s.locs, s.readers[g], NotFound), readers := s.readers - {g}))
      else None
    case GiveUp(g) => if g in s.readers then Some(s.(readers := s.readers - {g})) else None
  }

  /** A record key names one record: its id and time. */
  ghost predicate KeyedBySource(sources: map<string, (nat, nat)>, p: Position) {
    p.key in sources && sources[p.key] == (p.at, p.id)
  }

  ghost predicate Run(sources: map<string, (nat, nat)>, states: seq<Sys>, labels: seq<Label>) {
    && |states| == |labels| + 1 && states[0] == Sys(map[], map[], {})
    && (forall i :: 0 <= i < |labels| ==> Next(states[i], labels[i]) == Some(states[i + 1]))
    && (forall i :: 0 <= i < |labels| && labels[i].Project? ==> KeyedBySource(sources, labels[i].c.position))
  }

  /** A reading is of the sensor's current position or of an older source. */
  ghost predicate Inv(sources: map<string, (nat, nat)>, s: Sys) {
    && (forall id :: id in s.locs ==> KeyedBySource(sources, s.locs[id].position))
    && (forall id :: id in s.locs && s.locs[id].status.Resolved? ==>
      (s.locs[id].position.geo, s.locs[id].status.address) in s.answers)
    && (forall g :: g in s.readers ==>
          var r := s.readers[g];
          && r.sensorId in s.locs && KeyedBySource(sources, r.position)
          && (s.locs[r.sensorId].position == r.position || Older(r.position, s.locs[r.sensorId].position))
          && (r.answer.Some? ==> (r.position.geo, r.answer.value) in s.answers))
  }

  lemma StepKeeps(sources: map<string, (nat, nat)>, s: Sys, l: Label)
    requires Inv(sources, s) && Next(s, l).Some? && (l.Project? ==> KeyedBySource(sources, l.c.position))
    ensures Inv(sources, Next(s, l).value)
  {
  }

  /** An address never belongs to old coordinates: at every moment of every run, a resolved location shows an answer
      that was obtained for the coordinates it shows. */
  lemma {:induction false} AddressFitsCoordinates(
      sources: map<string, (nat, nat)>, states: seq<Sys>, labels: seq<Label>, i: nat)
    requires Run(sources, states, labels) && i < |states|
    ensures Inv(sources, states[i])
    ensures forall id :: id in states[i].locs && states[i].locs[id].status.Resolved? ==>
      (states[i].locs[id].position.geo, states[i].locs[id].status.address) in states[i].answers
    decreases i
  {
    if i > 0 {
      AddressFitsCoordinates(sources, states, labels, i - 1);
      assert Next(states[i - 1], labels[i - 1]) == Some(states[i]);
      StepKeeps(sources, states[i - 1], labels[i - 1]);
    }
  }

  /** In every run a mark takes effect exactly when the location still stands at the source that was read and still
      waits: then it gets the answer, at the position read. A location that has moved on, or has been marked by another
      process, stays as it is, and so does every other one. */
  lemma MarkLandsExactly(
      sources: map<string, (nat, nat)>, states: seq<Sys>, labels: seq<Label>, i: nat, id: string)
    requires Run(sources, states, labels) && i < |labels| && (labels[i].MarkResolved? || labels[i].MarkNotFound?)
    requires id in states[i].locs
    ensures labels[i].g in states[i].readers && id in states[i + 1].locs
    ensures
      var r, before := states[i].readers[labels[i].g], states[i].locs[id];
      if id == r.sensorId && !Older(r.position, before.position) && before.status == Waiting then
        && before.position == r.position
        && states[i + 1].locs[id].position == r.position
        && (labels[i].MarkNotFound? ==> states[i + 1].locs[id].status == NotFound)
        && (labels[i].MarkResolved? ==>
              r.answer.Some? && states[i + 1].locs[id].status == Resolved(r.answer.value)
              && (r.position.geo, r.answer.value) in states[i].answers)
      else states[i + 1].locs[id] == before
  {
    AddressFitsCoordinates(sources, states, labels, i);
    assert Next(states[i], labels[i]) == Some(states[i + 1]);
  }

  // ---------- which candidates the records give ----------

  /** Reads the public section list out of a stored message. */
  type Json = string -> seq<PublicEntry>

  predicate ValidGps(e: PublicEntry) {
    && e.Gps? && e.lat.Finite? && -90.0 <= e.lat.value <= 90.0 && e.lng.Finite? && -180.0 <= e.lng.value <= 180.0
  }

  /** The documents the projection query looks at. */
  predicate Listed(d: Document) {
    && d.record.structureStatus.StructureValid? && d.record.signatureStatus.SignatureValid?
    && d.record.decodeStatus.Decoded?
    && d.record.sensorId.Some? && d.record.recordedAt.Some? && MeasurementType.Location in d.record.measurementTypes
  }

  function EventsOf(d: Document, json: Json): seq<PublicEntry> {
    if d.record.messageJson.Some? then json(d.record.messageJson.value) else []
  }

  /** The i-th public section of the document is a GPS event of the sensor. */
  predicate GpsEvent(store: Store, json: Json, key: string, i: nat, s: string) {
    && key in store.docs && Listed(store.docs[key]) && store.docs[key].record.sensorId == Some(s)
    && i < |EventsOf(store.docs[key], json)| && ValidGps(EventsOf(store.docs[key], json)[i])
  }

  function PositionOf(store: Store, json: Json, key: string, i: nat): Position
    requires key in store.docs && Listed(store.docs[key]) && i < |EventsOf(store.docs[key], json)|
    requires ValidGps(EventsOf(store.docs[key], json)[i])
  {
    var d := store.docs[key];
    var e := EventsOf(d, json)[i];
    Position(Geo(e.lat, e.lng), key, d.id, d.record.recordedAt.value)
  }

  /** The sensor's latest valid GPS event: by time, then record id, then place in the message. */
  ghost predicate LatestGps(store: Store, json: Json, s: string, p: Position) {
    exists key, i ::
      GpsEvent(store, json, key, i, s) && p == PositionOf(store, json, key, i) && LastEvent(store, json, s, key, i)
  }

  ghost predicate LastEvent(store: Store, json: Json, s: string, key: string, i: nat)
    requires GpsEvent(store, json, key, i, s)
  {
    forall k, j: nat :: GpsEvent(store, json, k, j, s) ==>
      || Older(PositionOf(store, json, k, j), PositionOf(store, json, key, i)) || (k == key && j <= i)
  }

  /** There is one at most. */
  lemma LatestIsUnique(store: Store, json: Json, s: string, p: Position, q: Position)
    requires LatestGps(store, json, s, p) && LatestGps(store, json, s, q)
    ensures p == q
  {
  }

  /** The sensor's location lags behind its latest GPS event. */
  ghost predicate Behind(store: Store, json: Json, locs: Locations, s: string) {
    exists p :: LatestGps(store, json, s, p) && (s !in locs || Older(locs[s].position, p))
  }

  lemma {:induction false} LastOf(store: Store, json: Json, s: string, key: string, n: nat) returns (i: nat)
    requires key in store.docs && n <= |EventsOf(store.docs[key], json)|
    requires exists j: nat :: j < n && GpsEvent(store, json, key, j, s)
    ensures GpsEvent(store, json, key, i, s) && forall j: nat :: j < n && GpsEvent(store, json, key, j, s) ==> j <= i
  {
    if n > 0 && GpsEvent(store, json, key, n - 1, s) { i := n - 1; } else { i := LastOf(store, json, s, key, n - 1); }
  }

  /** Every sensor with a valid GPS event has a latest one. */
  lemma {:induction false} LatestAmong(store: Store, json: Json, s: string, keys: set<string>, k0: string, i0: nat)
    returns (key: string, i: nat)
    requires store.Valid() && k0 in keys && GpsEvent(store, json, k0, i0, s)
    ensures key in keys && GpsEvent(store, json, key, i, s)
    ensures forall k, j: nat :: k in keys && GpsEvent(store, json, k, j, s) ==>
      Older(PositionOf(store, json, k, j), PositionOf(store, json, key, i)) || (k == key && j <= i)
    decreases |keys|
  {
    key := k0;
    i := LastOf(store, json, s, k0, |EventsOf(store.docs[k0], json)|);
    var rest := keys - {k0};
    if k1, i1 :| k1 in rest && GpsEvent(store, json, k1, i1, s) {
      var m, j := LatestAmong(store, json, s, rest, k1, i1);
      if !Older(PositionOf(store, json, m, j), PositionOf(store, json, k0, i)) { key, i := m, j; }
    }
  }

  lemma LatestExists(store: Store, json: Json, s: string, k0: string, i0: nat) returns (p: Position)
    requires store.Valid() && GpsEvent(store, json, k0, i0, s)
    ensures LatestGps(store, json, s, p)
  {
    var key, i := LatestAmong(store, json, s, store.docs.Keys, k0, i0);
    p := PositionOf(store, json, key, i);
    assert LastEvent(store, json, s, key, i);
  }

  // ---------- polling ----------

  ghost function Unprojected(store: Store, json: Json, locs: Locations): set<string> {
    set k | k in store.docs && store.docs[k].record.sensorId.Some?
      && Behind(store, json, locs, store.docs[k].record.sensorId.value)
      :: store.docs[k].record.sensorId.value
  }

  lemma UnprojectedMeaning(store: Store, json: Json, locs: Locations, s: string)
    ensures s in Unprojected(store, json, locs) <==> Behind(store, json, locs, s)
  {
  }

  /** What the query must return: the latest GPS events of lagging sensors, each sensor once, as many as the limit
      lets. */
  ghost predicate PollResult(store: Store, json: Json, locs: Locations, limit: nat, r: seq<Candidate>) {
    && (forall i :: 0 <= i < |r| ==>
      Behind(store, json, locs, r[i].sensorId) && LatestGps(store, json, r[i].sensorId, r[i].position))
    && Distinct(r)
    && |r| == if |Unprojected(store, json, locs)| < limit then |Unprojected(store, json, locs)| else limit
  }

  // ---------- the stages of the query ----------

  /** A document unwound to one of its GPS events. */
  datatype Row = Row(sensorId: string, position: Position, index: nat)

  predicate RowOf(store: Store, json: Json, row: Row) {
    && GpsEvent(store, json, row.position.key, row.index, row.sensorId)
    && row.position == PositionOf(store, json, row.position.key, row.index)
  }

  /** $sort: by sensor, the latest first. */
  predicate SortsBefore(a: Row, b: Row) {
    || TextBelow(a.sensorId, b.sensorId)
    || (a.sensorId == b.sensorId && a.position.at > b.position.at)
    || (a.sensorId == b.sensorId && a.position.at == b.position.at && a.position.id > b.position.id)
    || (a.sensorId == b.sensorId && a.position.at == b.position.at && a.position.id == b.position.id
      && a.index > b.index)
  }

  ghost predicate RowsOf(store: Store, json: Json, rows: set<Row>) {
    forall row :: row in rows ==> RowOf(store, json, row)
  }

  ghost predicate SortedRows(rows: seq<Row>) {
    forall i, j :: 0 <= i < j < |rows| ==> SortsBefore(rows[i], rows[j])
  }

  lemma RowsAreOrdered(store: Store, json: Json, a: Row, b: Row)
    requires store.Valid() && RowOf(store, json, a) && RowOf(store, json, b) && a != b
    ensures SortsBefore(a, b) || SortsBefore(b, a)
  {
    TextOrderIsTotal(a.sensorId, b.sensorId);
  }

  lemma SortIsTransitive(a: Row, b: Row, c: Row)
    requires SortsBefore(a, b) && SortsBefore(b, c)
    ensures SortsBefore(a, c)
  {
    if TextBelow(a.sensorId, b.sensorId) && TextBelow(b.sensorId, c.sensorId) {
      TextOrderIsTransitive(a.sensorId, b.sensorId, c.sensorId);
    }
  }

  lemma {:induction false} FirstRow(store: Store, json: Json, rows: set<Row>) returns (first: Row)
    requires store.Valid() && RowsOf(store, json, rows) && rows != {}
    ensures first in rows && forall row :: row in rows && row != first ==> SortsBefore(first, row)
    decreases |rows|
  {
    var one :| one in rows;
    var rest := rows - {one};
    if rest == {} {
      first := one;
      assert forall row :: row in rows ==> row == first || row in rest;
    } else {
      var next := FirstRow(store, json, rest);
      RowsAreOrdered(store, json, one, next);
      first := if SortsBefore(next, one) then next else one;
      forall row | row in rows && row != first
        ensures SortsBefore(first, row)
      {
        if first == one && row != next { SortIsTransitive(one, next, row); }
      }
    }
  }

  ghost predicate AllBefore(sorted: seq<Row>, rest: set<Row>) {
    forall a, b :: a in sorted && b in rest ==> SortsBefore(a, b)
  }

  lemma SortStep(sorted: seq<Row>, rest: set<Row>, first: Row)
    requires SortedRows(sorted) && AllBefore(sorted, rest) && first in rest
    requires forall row :: row in rest && row != first ==> SortsBefore(first, row)
    ensures SortedRows(sorted + [first]) && AllBefore(sorted + [first], rest - {first})
  {
  }

  method Sort(store: Store, json: Json, rows: set<Row>) returns (sorted: seq<Row>)
    requires store.Valid() && RowsOf(store, json, rows)
    ensures SortedRows(sorted) && forall row :: row in sorted <==> row in rows
  {
    sorted := [];
    var rest := rows;
    while rest != {}
      invariant rest <= rows && SortedRows(sorted) && AllBefore(sorted, rest)
      invariant forall row :: row in rows <==> row in sorted || row in rest
      decreases rest
    {
      ghost var least := FirstRow(store, json, rest);
      var first :| first in rest && forall row :: row in rest && row != first ==> SortsBefore(first, row);
      SortStep(sorted, rest, first);
      sorted := sorted + [first];
      rest := rest - {first};
    }
  }

  predicate LedBy(first: map<string, Row>, row: Row) {
    row.sensorId in first && (row == first[row.sensorId] || SortsBefore(first[row.sensorId], row))
  }

  /** $group with $first. */
  method FirstOfEach(sorted: seq<Row>) returns (first: map<string, Row>)
    requires SortedRows(sorted)
    ensures forall s :: s in first ==> first[s] in sorted && first[s].sensorId == s
    ensures forall row :: row in sorted ==> LedBy(first, row)
  {
    first := map[];
    for i := 0 to |sorted|
      invariant forall s :: s in first ==> first[s] in sorted[..i] && first[s].sensorId == s
      invariant forall j :: 0 <= j < i ==> LedBy(first, sorted[j])
    {
      if sorted[i].sensorId !in first { first := first[sorted[i].sensorId := sorted[i]]; }
    }
  }

  /** The candidates among all GPS events: the first row of each sensor is its latest GPS event. */
  ghost predicate LatestOfEach(store: Store, json: Json, first: map<string, Row>) {
    && (forall s :: s in first ==> LatestGps(store, json, s, first[s].position))
    && (forall key, i: nat, s :: GpsEvent(store, json, key, i, s) ==> s in first)
  }

  lemma FirstIsLatest(store: Store, json: Json, sorted: seq<Row>, s: string, row: Row)
    requires store.Valid() && (forall r :: r in sorted <==> RowOf(store, json, r)) && row in sorted && row.sensorId == s
    requires forall r :: r in sorted && r.sensorId == s ==> r == row || SortsBefore(row, r)
    ensures LatestGps(store, json, s, row.position)
  {
    forall k, j: nat | GpsEvent(store, json, k, j, s)
      ensures Older(PositionOf(store, json, k, j), row.position) || (k == row.position.key && j <= row.index)
    {
      var other := Row(s, PositionOf(store, json, k, j), j);
      assert RowOf(store, json, other);
      TextOrderIsIrreflexive(s);
    }
    assert LastEvent(store, json, s, row.position.key, row.index);
  }

  /** The stages up to $group: match, unwind, match, sort, group. */
  method GroupLatest(store: Store, json: Json) returns (first: map<string, Row>)
    requires store.Valid()
    ensures LatestOfEach(store, json, first)
  {
    var rows := set k, i | k in store.docs && Listed(store.docs[k]) && 0 <= i < |EventsOf(store.docs[k], json)|
                           && ValidGps(EventsOf(store.docs[k], json)[i])
      :: Row(store.docs[k].record.sensorId.value, PositionOf(store, json, k, i), i);
    assert forall row :: row in rows <==> RowOf(store, json, row);
    var sorted := Sort(store, json, rows);
    first := FirstOfEach(sorted);
    forall s | s in first
      ensures LatestGps(store, json, s, first[s].position)
    {
      FirstIsLatest(store, json, sorted, s, first[s]);
    }
    forall key, i: nat, s | GpsEvent(store, json, key, i, s)
      ensures s in first
    {
      assert RowOf(store, json, Row(s, PositionOf(store, json, key, i), i));
    }
  }

  lemma LaggingAreUnprojected(store: Store, json: Json, locs: Locations, first: map<string, Row>, lagging: set<string>)
    requires LatestOfEach(store, json, first)
    requires forall s :: s in lagging <==> s in first && (s !in locs || Older(locs[s].position, first[s].position))
    ensures lagging == Unprojected(store, json, locs) && forall s :: s in lagging ==> Behind(store, json, locs, s)
  {
    forall s
      ensures s in lagging <==> Behind(store, json, locs, s)
      ensures s in Unprojected(store, json, locs) <==> Behind(store, json, locs, s)
    {
      UnprojectedMeaning(store, json, locs, s);
      if p :| LatestGps(store, json, s, p) {
        assert s in first;
        forall q | LatestGps(store, json, s, q)
          ensures q == first[s].position
        {
          LatestIsUnique(store, json, s, q, first[s].position);
        }
      }
    }
  }

  /** $limit. */
  method Take(lagging: set<string>, first: map<string, Row>, limit: nat) returns (found: seq<Candidate>)
    requires lagging <= first.Keys
    ensures Distinct(found) && |found| == if |lagging| < limit then |lagging| else limit
    ensures forall i :: 0 <= i < |found| ==> found[i].sensorId in lagging
    ensures forall i :: 0 <= i < |found| ==> found[i].position == first[found[i].sensorId].position
  {
    found := [];
    var rest := lagging;
    while |found| < limit && rest != {}
      invariant |found| <= limit && rest <= lagging && |found| + |rest| == |lagging| && Distinct(found)
      invariant forall i :: 0 <= i < |found| ==> found[i].sensorId in lagging && found[i].sensorId !in rest
      invariant forall i :: 0 <= i < |found| ==> found[i].position == first[found[i].sensorId].position
      decreases rest
    {
      var s :| s in rest;
      found := found + [Candidate(s, first[s].position)];
      rest := rest - {s};
    }
  }

  /** The query: the latest GPS event of each sensor, those the projection lags behind, as many as the limit lets;
      which ones, and in what order, is left open. */
  method FindLatestUnprojectedSensorLocations(store: Store, json: Json, locs: Locations, limit: nat)
    returns (found: seq<Candidate>)
    requires store.Valid()
    ensures PollResult(store, json, locs, limit, found)
  {
    var first := GroupLatest(store, json);
    var lagging := set s | s in first && (s !in locs || Older(locs[s].position, first[s].position));
    LaggingAreUnprojected(store, json, locs, first, lagging);
    found := Take(lagging, first, limit);
    forall i | 0 <= i < |found|
      ensures Behind(store, json, locs, found[i].sensorId)
      ensures LatestGps(store, json, found[i].sensorId, found[i].position)
    {
      assert found[i].sensorId in lagging;
    }
  }

  // ---------- what a poll does ----------

  ghost predicate Distinct(r: seq<Candidate>) {
    forall i, j :: 0 <= i < j < |r| ==> r[i].sensorId != r[j].sensorId
  }

  function SensorsOf(r: seq<Candidate>): set<string> {
    set i | 0 <= i < |r| :: r[i].sensorId
  }

  lemma {:induction false} SensorsCount(r: seq<Candidate>)
    requires Distinct(r)
    ensures |SensorsOf(r)| == |r|
  {
    if r != [] {
      var front := r[..|r| - 1];
      SensorsCount(front);
      SensorsGrow(front, r[|r| - 1]);
      assert front + [r[|r| - 1]] == r;
    }
  }

  lemma SensorsGrow(r: seq<Candidate>, c: Candidate)
    ensures SensorsOf(r + [c]) == SensorsOf(r) + {c.sensorId}
  {
    forall s
      ensures s in SensorsOf(r + [c]) <==> s in SensorsOf(r) || s == c.sensorId
    {
      if s == c.sensorId { assert (r + [c])[|r|].sensorId == s; }
      if i :| 0 <= i < |r| && r[i].sensorId == s { assert (r + [c])[i].sensorId == s; }
    }
  }

  /** After a poll, exactly the returned sensors no longer lag. */
  lemma PolledSensor(store: Store, json: Json, locs: Locations, limit: nat, r: seq<Candidate>, s: string)
    requires PollResult(store, json, locs, limit, r)
    ensures Behind(store, json, AppliedAll(locs, r), s) <==> Behind(store, json, locs, s) && s !in SensorsOf(r)
    ensures s in SensorsOf(r) ==> s in AppliedAll(locs, r) && LatestGps(store, json, s, AppliedAll(locs, r)[s].position)
    ensures s !in SensorsOf(r) ==>
              (s in AppliedAll(locs, r) <==> s in locs)
              && (s in locs ==> AppliedAll(locs, r)[s].position == locs[s].position)
  {
    NewestSourceWins(locs, r, s);
    forall p, q | LatestGps(store, json, s, p) && LatestGps(store, json, s, q)
      ensures p == q
    {
      LatestIsUnique(store, json, s, p, q);
    }
    if s in SensorsOf(r) {
      var i :| 0 <= i < |r| && r[i].sensorId == s;
      assert AppliedAll(locs, r)[s].position == r[i].position;
    }
  }

  /** Each poll catches up with as many sensors as the limit lets. */
  lemma PollShrinks(store: Store, json: Json, locs: Locations, limit: nat, r: seq<Candidate>)
    requires PollResult(store, json, locs, limit, r)
    ensures Unprojected(store, json, AppliedAll(locs, r)) == Unprojected(store, json, locs) - SensorsOf(r)
    ensures |Unprojected(store, json, AppliedAll(locs, r))| == |Unprojected(store, json, locs)| - |r|
  {
    var before, after := Unprojected(store, json, locs), Unprojected(store, json, AppliedAll(locs, r));
    forall s
      ensures s in after <==> s in before && s !in SensorsOf(r)
      ensures s in SensorsOf(r) ==> s in before
    {
      PolledUnprojected(store, json, locs, limit, r, s);
    }
    SensorsCount(r);
    Removed(before, SensorsOf(r), after);
  }

  lemma Removed(before: set<string>, gone: set<string>, after: set<string>)
    requires gone <= before && forall s :: s in after <==> s in before && s !in gone
    ensures after == before - gone && |after| == |before| - |gone|
  {
  }

  lemma PolledUnprojected(store: Store, json: Json, locs: Locations, limit: nat, r: seq<Candidate>, s: string)
    requires PollResult(store, json, locs, limit, r)
    ensures s in Unprojected(store, json, AppliedAll(locs, r)) <==>
              s in Unprojected(store, json, locs) && s !in SensorsOf(r)
    ensures s in SensorsOf(r) ==> s in Unprojected(store, json, locs)
  {
    PolledSensor(store, json, locs, limit, r, s);
    UnprojectedMeaning(store, json, locs, s);
    UnprojectedMeaning(store, json, AppliedAll(locs, r), s);
  }

  /** The i-th poll queries and projects. */
  ghost predicate Polls(
      store: Store, json: Json, limit: nat, polls: seq<seq<Candidate>>, states: seq<Locations>, i: nat)
    requires i < |polls| && i + 1 < |states|
  {
    PollResult(store, json, states[i], limit, polls[i]) && states[i + 1] == AppliedAll(states[i], polls[i])
  }

  ghost function Backlog(store: Store, json: Json, locs: Locations): nat {
    |Unprojected(store, json, locs)|
  }

  lemma PollLeaves(store: Store, json: Json, limit: nat, polls: seq<seq<Candidate>>, states: seq<Locations>, i: nat)
    requires i < |polls| && i + 1 < |states| && Polls(store, json, limit, polls, states, i)
    ensures
      var before, after := Backlog(store, json, states[i]), Backlog(store, json, states[i + 1]);
      after == if before < limit then 0 else before - limit
  {
    PollShrinks(store, json, states[i], limit, polls[i]);
  }

  lemma OneMoreLimit(m: nat, limit: nat)
    ensures (m + 1) * limit == m * limit + limit
  {
  }

  /** Polls of an unchanging collection of records catch up as fast as the limit lets. */
  lemma {:induction false} PollsCatchUp(
      store: Store, json: Json, limit: nat, polls: seq<seq<Candidate>>, states: seq<Locations>, n: nat)
    requires |states| == |polls| + 1 && n <= |polls|
    requires forall i :: 0 <= i < |polls| ==> Polls(store, json, limit, polls, states, i)
    ensures
      var before, after := Backlog(store, json, states[0]), Backlog(store, json, states[n]);
      after == if before < n * limit then 0 else before - n * limit
    decreases n
  {
    if n > 0 {
      var m: nat := n - 1;
      PollsCatchUp(store, json, limit, polls, states, m);
      PollLeaves(store, json, limit, polls, states, m);
      OneMoreLimit(m, limit);
    }
  }

  /** The position is that of the sensor's latest GPS event or of an older source. */
  ghost predicate SourcedAt(store: Store, json: Json, s: string, p: Position) {
    exists q :: LatestGps(store, json, s, q) && (p == q || Older(p, q))
  }

  /** Every location is; it holds of an empty collection. */
  ghost predicate Sourced(store: Store, json: Json, locs: Locations) {
    forall s :: s in locs ==> SourcedAt(store, json, s, locs[s].position)
  }

  lemma PollKeepsSourced(store: Store, json: Json, locs: Locations, limit: nat, r: seq<Candidate>)
    requires PollResult(store, json, locs, limit, r) && Sourced(store, json, locs)
    ensures Sourced(store, json, AppliedAll(locs, r))
  {
    forall s | s in AppliedAll(locs, r)
      ensures SourcedAt(store, json, s, AppliedAll(locs, r)[s].position)
    {
      PolledSensor(store, json, locs, limit, r, s);
    }
  }

  /** What an empty result says, whatever the locations are: no sensor stands at an older source than its latest valid
      GPS event. Where a location is sourced, it stands exactly there. */
  lemma EmptyPollMeansCurrent(store: Store, json: Json, locs: Locations, limit: nat, s: string, key: string, i: nat)
    returns (p: Position)
    requires store.Valid() && PollResult(store, json, locs, limit, []) && limit >= 1
    requires GpsEvent(store, json, key, i, s)
    ensures LatestGps(store, json, s, p) && s in locs && !Older(locs[s].position, p)
    ensures locs[s].position == p <==> SourcedAt(store, json, s, locs[s].position)
  {
    p := LatestExists(store, json, s, key, i);
    UnprojectedMeaning(store, json, locs, s);
    assert Unprojected(store, json, locs) == {};
    if q :| LatestGps(store, json, s, q) && (locs[s].position == q || Older(locs[s].position, q)) {
      LatestIsUnique(store, json, s, p, q);
    }
  }

  // ---------- the repository and the service ----------

  function WaitingIn(locs: Locations): set<string> {
    set s | s in locs && locs[s].status.Waiting?
  }

  function AtMost(limit: nat, n: nat): nat {
    if n < limit then n else limit
  }

  class LocationCollection {
    var locs: Locations
    /** How many calls have failed. */
    ghost var faults: nat

    constructor ()
      ensures locs == map[] && faults == 0
    {
      locs, faults := map[], 0;
    }

    /** Applies the candidates one by one; a failing update ends the call. */
    method UpsertCandidates(cs: seq<Candidate>) returns (o: Outcome<Fault>, ghost k: nat)
      modifies this
      ensures k <= |cs| && locs == AppliedAll(old(locs), cs[..k])
      ensures o.Pass? ==> k == |cs|
      ensures forall s :: s in old(locs) ==>
        s in locs && locs[s].status == if StaysPut(old(locs), cs[..k], s) then old(locs)[s].status else Waiting
      ensures forall s :: s in locs && s !in old(locs) ==> locs[s].status == Waiting
      ensures faults >= old(faults) && (o.Fail? <==> faults > old(faults))
    {
      o, k := ApplyEach(cs);
      forall s | s in old(locs)
        ensures s in locs && locs[s].status == if StaysPut(old(locs), cs[..k], s) then old(locs)[s].status else Waiting
      {
        StatusFollowsCoordinates(old(locs), cs[..k], s);
      }
      forall s | s in locs && s !in old(locs)
        ensures locs[s].status == Waiting
      {
        NewSensorWaits(old(locs), cs[..k], s);
      }
    }

    method ApplyEach(cs: seq<Candidate>) returns (o: Outcome<Fault>, ghost k: nat)
      modifies this
      ensures k <= |cs| && locs == AppliedAll(old(locs), cs[..k])
      ensures o.Pass? ==> k == |cs|
      ensures faults >= old(faults) && (o.Fail? <==> faults > old(faults))
    {
      k := 0;
      for i := 0 to |cs|
        invariant k == i && locs == AppliedAll(old(locs), cs[..i]) && faults == old(faults)
      {
        assert cs[..i + 1][..i] == cs[..i];
        if * { faults := faults + 1; return Fail(Thrown), i; }
        locs := Applied(locs, cs[i]);
        k := k + 1;
        if * { faults := faults + 1; return Fail(Thrown), i + 1; }
      }
      return Pass, |cs|;
    }

    /** Up to `limit` waiting locations, each once. */
    method FindPending(limit: nat) returns (r: Result<seq<Sighting>, Fault>)
      modifies this`faults
      ensures r.Ok? ==> AllWait(locs, r.value) && |r.value| == AtMost(limit, |WaitingIn(locs)|)
      ensures faults == old(faults) + if r.Err? then 1 else 0
    {
      if * { faults := faults + 1; return Err(Thrown); }
      var found: seq<Sighting>, rest := [], WaitingIn(locs);
      while |found| < limit && rest != {}
        invariant |found| <= limit && AllWait(locs, found) && |found| + |rest| == |WaitingIn(locs)|
        invariant rest <= WaitingIn(locs) && forall i :: 0 <= i < |found| ==> found[i].sensorId !in rest
        decreases rest
      {
        var s :| s in rest;
        found := found + [Sighting(s, locs[s].position, None)];
        rest := rest - {s};
      }
      return Ok(found);
    }

    method Mark(r: Sighting, status: GeocodingStatus) returns (o: Outcome<Fault>)
      modifies this
      ensures locs == old(locs) || locs == Marked(old(locs), r, status)
      ensures o.Pass? ==> locs == Marked(old(locs), r, status)
      ensures locs.Keys == old(locs).Keys
      ensures o.Pass? ==> forall s :: s in locs ==>
        var p := old(locs)[s];
        locs[s] == if s == r.sensorId && p.position.key == r.position.key && p.status == Waiting
          then Place(p.position, status) else p
      ensures faults >= old(faults) && (o.Fail? <==> faults > old(faults))
    {
      if * { faults := faults + 1; return Fail(Thrown); }
      locs := Marked(locs, r, status);
      if * { faults := faults + 1; return Fail(Thrown); }
      o := Pass;
    }
  }

  predicate Waits(locs: Locations, r: Sighting) {
    r.sensorId in locs && locs[r.sensorId] == Place(r.position, Waiting) && r.answer.None?
  }

  /** What Nominatim answered. */
  datatype Reply = Retry | NoAddress | Found(address: Address)

  /** What a reply makes of a location that still waits. */
  function MarkedBy(locs: Locations, r: Sighting, reply: Reply): Locations {
    match reply
    case Retry => locs
    case NoAddress => Marked(locs, r, NotFound)
    case Found(address) => Marked(locs, r, Resolved(address))
  }

  function MarkedAll(locs: Locations, rs: seq<Sighting>, replies: Geo -> Reply): Locations {
    if rs == [] then locs
    else
      var r := rs[|rs| - 1];
      MarkedBy(MarkedAll(locs, rs[..|rs| - 1], replies), r, replies(r.position.geo))
  }

  lemma MarkedOneMore(locs: Locations, rs: seq<Sighting>, i: nat, replies: Geo -> Reply)
    requires i < |rs|
    ensures MarkedAll(locs, rs[..i + 1], replies)
            == MarkedBy(MarkedAll(locs, rs[..i], replies), rs[i], replies(rs[i].position.geo))
  {
    assert rs[..i + 1][..i] == rs[..i];
  }

  ghost predicate AllWait(locs: Locations, rs: seq<Sighting>) {
    && (forall i :: 0 <= i < |rs| ==> Waits(locs, rs[i]))
    && (forall i, j :: 0 <= i < j < |rs| ==> rs[i].sensorId != rs[j].sensorId)
  }

  /** The status of a location that waited, after a reply. */
  ghost predicate Answered(status: GeocodingStatus, reply: Reply) {
    && (forall address :: reply == Found(address) ==> status == Resolved(address))
    && (reply == NoAddress ==> status == NotFound)
    && (reply == Retry ==> status == Waiting)
  }

  /** The location of a batch as its own reply leaves it. */
  ghost predicate GotAnswer(locs: Locations, r: Sighting, replies: Geo -> Reply) {
    && r.sensorId in locs && locs[r.sensorId].position == r.position
    && Answered(locs[r.sensorId].status, replies(r.position.geo))
  }

  lemma OneMark(locs: Locations, r: Sighting, reply: Reply, s: string)
    requires s in locs
    ensures s in MarkedBy(locs, r, reply)
    ensures
      var after := MarkedBy(locs, r, reply)[s];
      && after.position == locs[s].position
      && if s == r.sensorId && r.position.key == locs[s].position.key && locs[s].status == Waiting
         then Answered(after.status, reply) else after == locs[s]
  {
  }

  /** Locations that wait, each once: each gets the address of its own reply, or is marked as not found, or waits on
      after a temporary failure; its position stays, and so does every other location. */
  lemma {:induction false} MarkedAllMeaning(locs: Locations, rs: seq<Sighting>, replies: Geo -> Reply, s: string)
    requires AllWait(locs, rs)
    ensures s in MarkedAll(locs, rs, replies) <==> s in locs
    ensures (forall i :: 0 <= i < |rs| ==> rs[i].sensorId != s) && s in locs ==>
              MarkedAll(locs, rs, replies)[s] == locs[s]
    ensures forall i :: 0 <= i < |rs| && rs[i].sensorId == s ==>
              var after := MarkedAll(locs, rs, replies)[s];
              after.position == rs[i].position && Answered(after.status, replies(rs[i].position.geo))
    decreases |rs|
  {
    if rs != [] {
      var front, r := rs[..|rs| - 1], rs[|rs| - 1];
      assert AllWait(locs, front);
      assert forall i :: 0 <= i < |front| ==> front[i] == rs[i];
      assert Waits(locs, r);
      MarkedAllMeaning(locs, front, replies, s);
      MarkedOneMore(locs, rs, |front|, replies);
      assert rs[..|rs|] == rs;
      if s in locs { OneMark(MarkedAll(locs, front, replies), r, replies(r.position.geo), s); }
    }
  }

  lemma AllGotAnswers(locs: Locations, rs: seq<Sighting>, replies: Geo -> Reply)
    requires AllWait(locs, rs)
    ensures forall i :: 0 <= i < |rs| ==> GotAnswer(MarkedAll(locs, rs, replies), rs[i], replies)
  {
    forall i | 0 <= i < |rs| ensures GotAnswer(MarkedAll(locs, rs, replies), rs[i], replies) {
      assert Waits(locs, rs[i]);
      MarkedAllMeaning(locs, rs, replies, rs[i].sensorId);
    }
  }

  /** The sensors of a batch that got an answer for good, and their number. */
  function Settled(rs: seq<Sighting>, replies: Geo -> Reply): set<string> {
    set i | 0 <= i < |rs| && !replies(rs[i].position.geo).Retry? :: rs[i].sensorId
  }

  function Definite(rs: seq<Sighting>, replies: Geo -> Reply): nat {
    if rs == [] then 0
    else Definite(rs[..|rs| - 1], replies) + if replies(rs[|rs| - 1].position.geo).Retry? then 0 else 1
  }

  lemma SettledGrows(locs: Locations, rs: seq<Sighting>, replies: Geo -> Reply)
    requires rs != [] && AllWait(locs, rs)
    ensures
      var front, r := rs[..|rs| - 1], rs[|rs| - 1];
      && AllWait(locs, front) && r.sensorId !in Settled(front, replies)
      && Settled(rs, replies)
        == Settled(front, replies) + if replies(r.position.geo).Retry? then {} else {r.sensorId}
  {
    var front, r := rs[..|rs| - 1], rs[|rs| - 1];
    assert forall i :: 0 <= i < |front| ==> front[i] == rs[i];
  }

  lemma {:induction false} SettledSize(locs: Locations, rs: seq<Sighting>, replies: Geo -> Reply)
    requires AllWait(locs, rs)
    ensures |Settled(rs, replies)| == Definite(rs, replies) && Settled(rs, replies) <= WaitingIn(locs)
    decreases |rs|
  {
    if rs != [] {
      SettledGrows(locs, rs, replies);
      SettledSize(locs, rs[..|rs| - 1], replies);
      assert Waits(locs, rs[|rs| - 1]);
    }
  }

  /** A batch takes exactly those of its sensors off the waiting ones whose replies are final. */
  lemma BatchShrinksWaiting(locs: Locations, rs: seq<Sighting>, replies: Geo -> Reply)
    requires AllWait(locs, rs)
    ensures WaitingIn(MarkedAll(locs, rs, replies)) == WaitingIn(locs) - Settled(rs, replies)
    ensures |WaitingIn(MarkedAll(locs, rs, replies))| == |WaitingIn(locs)| - Definite(rs, replies)
  {
    forall s
      ensures s in WaitingIn(MarkedAll(locs, rs, replies)) <==> s in WaitingIn(locs) && s !in Settled(rs, replies)
    {
      WaitsOn(locs, rs, replies, s);
    }
    SettledSize(locs, rs, replies);
    assert |WaitingIn(locs)| == |WaitingIn(locs) - Settled(rs, replies)| + |Settled(rs, replies)|;
  }

  lemma WaitsOn(locs: Locations, rs: seq<Sighting>, replies: Geo -> Reply, s: string)
    requires AllWait(locs, rs)
    ensures s in WaitingIn(MarkedAll(locs, rs, replies)) <==> s in WaitingIn(locs) && s !in Settled(rs, replies)
  {
    MarkedAllMeaning(locs, rs, replies, s);
    if i :| 0 <= i < |rs| && rs[i].sensorId == s {
      assert Waits(locs, rs[i]);
      assert forall j :: 0 <= j < |rs| && rs[j].sensorId == s ==> j == i;
    }
  }

  ghost predicate SamePlaces(a: Locations, b: Locations) {
    a.Keys == b.Keys && forall s :: s in a ==> a[s].position == b[s].position
  }

  ghost predicate Fitting(locs: Locations, answers: set<(Geo, Address)>) {
    forall s :: s in locs && locs[s].status.Resolved? ==> (locs[s].position.geo, locs[s].status.address) in answers
  }

  class GeocodingService {
    var running: bool
    const batchSize: nat
    const locations: LocationCollection
    /** Every answer this service has got. */
    ghost var answers: set<(Geo, Address)>
    /** How many queries of the records have failed. */
    ghost var faults: nat

    constructor (locations: LocationCollection, batchSize: nat)
      ensures !running && this.locations == locations && this.batchSize == batchSize && answers == {}
      ensures faults == 0
    {
      this.locations, this.batchSize := locations, batchSize;
      running := false;
      answers, faults := {}, 0;
    }

    /** Geocodes one location that was waiting; the reply comes from outside. */
    method GeocodeLocation(r: Sighting, reply: Reply) returns (o: Outcome<Fault>)
      requires Fitting(locations.locs, answers)
      requires r.sensorId in locations.locs && locations.locs[r.sensorId].position == r.position
      modifies this`answers, locations
      ensures Fitting(locations.locs, answers) && SamePlaces(old(locations.locs), locations.locs)
      ensures old(answers) <= answers
      ensures locations.locs == old(locations.locs) || locations.locs == MarkedBy(old(locations.locs), r, reply)
      ensures o.Pass? ==> locations.locs == MarkedBy(old(locations.locs), r, reply)
      ensures o.Pass? && old(locations.locs)[r.sensorId].status == Waiting ==>
                r.sensorId in locations.locs && Answered(locations.locs[r.sensorId].status, reply)
      ensures forall s :: s in locations.locs && (s != r.sensorId || !old(locations.locs)[s].status.Waiting?) ==>
                locations.locs[s] == old(locations.locs)[s]
      ensures locations.faults >= old(locations.faults) && (o.Fail? <==> locations.faults > old(locations.faults))
    {
      match reply
      case Retry => o := Pass;
      case NoAddress => o := locations.Mark(r, NotFound);
      case Found(address) =>
        answers := answers + {(r.position.geo, address)};
        o := locations.Mark(r, Resolved(address));
    }

    /** One poll: queries and projects, then geocodes a batch; `replies` is what the geocoder will answer. An
        overlapping poll does nothing. */
    method RunOnce(store: Store, json: Json, replies: Geo -> Reply)
      returns (o: Outcome<Fault>, ghost found: seq<Candidate>, ghost k: nat, ghost geocoded: seq<Sighting>)
      requires store.Valid() && Fitting(locations.locs, answers)
      modifies this, locations
      ensures running == old(running) && Fitting(locations.locs, answers)
      ensures old(running) ==> locations.locs == old(locations.locs)
      ensures k <= |found| && |geocoded| <= batchSize
      ensures
        var projected := AppliedAll(old(locations.locs), found[..k]);
        && AllWait(projected, geocoded) && locations.locs == MarkedAll(projected, geocoded, replies)
        && SamePlaces(projected, locations.locs)
        && (!old(running) && o.Pass? ==> |geocoded| == AtMost(batchSize, |WaitingIn(projected)|))
        && |WaitingIn(locations.locs)| == |WaitingIn(projected)| - Definite(geocoded, replies)
        && forall i :: 0 <= i < |geocoded| ==> GotAnswer(locations.locs, geocoded[i], replies)
      ensures found == [] || PollResult(store, json, old(locations.locs), batchSize, found)
      ensures !old(running) && o.Pass? ==>
                && k == |found| && PollResult(store, json, old(locations.locs), batchSize, found)
                && Unprojected(store, json, locations.locs)
                  == Unprojected(store, json, old(locations.locs)) - SensorsOf(found)
      ensures faults >= old(faults) && locations.faults >= old(locations.faults)
      ensures o.Fail? <==> faults > old(faults) || locations.faults > old(locations.faults)
    {
      o, found, k, geocoded := Pass, [], 0, [];
      if !running {
        running := true;
        o, found, k, geocoded := Poll(store, json, replies);
        running := false;
      }
    }

    method Poll(store: Store, json: Json, replies: Geo -> Reply)
      returns (o: Outcome<Fault>, ghost found: seq<Candidate>, ghost k: nat, ghost geocoded: seq<Sighting>)
      requires store.Valid() && Fitting(locations.locs, answers)
      modifies this`answers, this`faults, locations
      ensures Fitting(locations.locs, answers)
      ensures k <= |found| && |geocoded| <= batchSize
      ensures
        var projected := AppliedAll(old(locations.locs), found[..k]);
        && AllWait(projected, geocoded) && locations.locs == MarkedAll(projected, geocoded, replies)
        && SamePlaces(projected, locations.locs)
        && (o.Pass? ==> |geocoded| == AtMost(batchSize, |WaitingIn(projected)|))
        && |WaitingIn(locations.locs)| == |WaitingIn(projected)| - Definite(geocoded, replies)
        && forall i :: 0 <= i < |geocoded| ==> GotAnswer(locations.locs, geocoded[i], replies)
      ensures found == [] || PollResult(store, json, old(locations.locs), batchSize, found)
      ensures o.Pass? ==>
                && k == |found| && PollResult(store, json, old(locations.locs), batchSize, found)
                && Unprojected(store, json, locations.locs)
                  == Unprojected(store, json, old(locations.locs)) - SensorsOf(found)
      ensures faults >= old(faults) && locations.faults >= old(locations.faults)
      ensures o.Fail? <==> faults > old(faults) || locations.faults > old(locations.faults)
    {
      found, k, geocoded := [], 0, [];
      if * {
        faults := faults + 1;
        return Fail(Thrown), [], 0, [];
      }
      var candidates := FindLatestUnprojectedSensorLocations(store, json, locations.locs, batchSize);
      found := candidates;
      o, k := Project(candidates);
      if o.Pass? {
        PollShrinks(store, json, old(locations.locs), batchSize, found);
        assert found[..|found|] == found;
        ghost var projected := locations.locs;
        o, geocoded := GeocodeBatch(replies);
        PlacesDecideUnprojected(store, json, projected, locations.locs);
      }
    }

    method Project(cs: seq<Candidate>) returns (o: Outcome<Fault>, ghost k: nat)
      requires Fitting(locations.locs, answers)
      modifies locations
      ensures k <= |cs| && locations.locs == AppliedAll(old(locations.locs), cs[..k])
                && Fitting(locations.locs, answers)
      ensures o.Pass? ==> k == |cs|
      ensures locations.faults >= old(locations.faults) && (o.Fail? <==> locations.faults > old(locations.faults))
    {
      o, k := locations.UpsertCandidates(cs);
      ApplyingKeepsFitting(old(locations.locs), cs[..k], answers);
    }

    /** Geocodes waiting locations one by one; `geocoded` are those whose marks took effect. */
    method GeocodeBatch(replies: Geo -> Reply) returns (o: Outcome<Fault>, ghost geocoded: seq<Sighting>)
      requires Fitting(locations.locs, answers)
      modifies this`answers, locations
      ensures Fitting(locations.locs, answers) && SamePlaces(old(locations.locs), locations.locs)
      ensures |geocoded| <= batchSize && AllWait(old(locations.locs), geocoded)
      ensures locations.locs == MarkedAll(old(locations.locs), geocoded, replies)
      ensures o.Pass? ==> |geocoded| == AtMost(batchSize, |WaitingIn(old(locations.locs))|)
      ensures |WaitingIn(locations.locs)| == |WaitingIn(old(locations.locs))| - Definite(geocoded, replies)
      ensures forall i :: 0 <= i < |geocoded| ==> GotAnswer(locations.locs, geocoded[i], replies)
      ensures locations.faults >= old(locations.faults) && (o.Fail? <==> locations.faults > old(locations.faults))
    {
      o, geocoded := GeocodePending(replies);
      AllGotAnswers(old(locations.locs), geocoded, replies);
      BatchShrinksWaiting(old(locations.locs), geocoded, replies);
    }

    method GeocodePending(replies: Geo -> Reply) returns (o: Outcome<Fault>, ghost geocoded: seq<Sighting>)
      requires Fitting(locations.locs, answers)
      modifies this`answers, locations
      ensures Fitting(locations.locs, answers) && SamePlaces(old(locations.locs), locations.locs)
      ensures |geocoded| <= batchSize && AllWait(old(locations.locs), geocoded)
      ensures locations.locs == MarkedAll(old(locations.locs), geocoded, replies)
      ensures o.Pass? ==> |geocoded| == AtMost(batchSize, |WaitingIn(old(locations.locs))|)
      ensures locations.faults >= old(locations.faults) && (o.Fail? <==> locations.faults > old(locations.faults))
    {
      geocoded := [];
      var pending := locations.FindPending(batchSize);
      if pending.Err? { return Fail(pending.error), []; }
      for i := 0 to |pending.value|
        invariant Fitting(locations.locs, answers) && SamePlaces(old(locations.locs), locations.locs)
        invariant geocoded == pending.value[..i] && locations.faults == old(locations.faults)
        invariant locations.locs == MarkedAll(old(locations.locs), geocoded, replies)
      {
        ghost var before := locations.locs;
        o := GeocodeLocation(pending.value[i], replies(pending.value[i].position.geo));
        MarkedOneMore(old(locations.locs), pending.value, i, replies);
        if o.Fail? {
          geocoded := if locations.locs == before then geocoded else pending.value[..i + 1];
          return;
        }
        geocoded := pending.value[..i + 1];
      }
      o := Pass;
    }
  }

  lemma PlacesDecideUnprojected(store: Store, json: Json, a: Locations, b: Locations)
    requires SamePlaces(a, b)
    ensures Unprojected(store, json, a) == Unprojected(store, json, b)
  {
  }

  lemma {:induction false} ApplyingKeepsFitting(locs: Locations, cs: seq<Candidate>, answers: set<(Geo, Address)>)
    requires Fitting(locs, answers)
    ensures Fitting(AppliedAll(locs, cs), answers)
  {
    if cs != [] { ApplyingKeepsFitting(locs, cs[..|cs| - 1], answers); }
  }
}
