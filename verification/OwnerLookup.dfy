/** Which sensors an owner has now: candidates from the owner's anchors, checked against each sensor's newest record. */
module OwnerLookup {
  import opened Wrappers
  import opened Records
  import opened AnchorQueue
  import opened TextOrder

  /** A valid public message of a known sensor. */
  predicate ValidMessage(d: Document) {
    && d.record.structureStatus.StructureValid? && d.record.signatureStatus.SignatureValid?
    && d.record.decodeStatus.Decoded?
    && d.record.messageJson.Some? && d.record.sensorId.Some?
  }

  predicate MessageOf(store: Store, key: string, s: string) {
    key in store.docs && ValidMessage(store.docs[key]) && store.docs[key].record.sensorId == Some(s)
  }

  /** The record's anchor belongs to the owner. */
  predicate Owned(anchors: Anchors, owner: string, d: Document) {
    d.record.payloadKey in anchors && anchors[d.record.payloadKey].owner == Some(owner)
  }

  /** The sort order, ascending; a missing time comes first. */
  predicate Earlier(d: Document, e: Document) {
    var t, u := d.record.recordedAt, e.record.recordedAt;
    || (t.None? && u.Some?) || (t.Some? && u.Some? && t.value < u.value) || (t == u && d.id < e.id)
  }

  /** The sensor's newest valid record, among some of the keys. */
  ghost predicate NewestAmong(store: Store, keys: set<string>, s: string, key: string) {
    && key in keys && MessageOf(store, key, s)
    && forall k :: k in keys && k != key && MessageOf(store, k, s) ==> Earlier(store.docs[k], store.docs[key])
  }

  ghost predicate Newest(store: Store, s: string, key: string) {
    NewestAmong(store, store.docs.Keys, s, key)
  }

  /** What "the owner's sensor" means: its newest valid record belongs to an anchor of the owner. */
  ghost predicate Current(store: Store, anchors: Anchors, owner: string, s: string) {
    exists key :: Newest(store, s, key) && Owned(anchors, owner, store.docs[key])
  }

  /** A sensor is current for one owner at most. */
  lemma OwnersAreDisjoint(store: Store, anchors: Anchors, s: string, a: string, b: string)
    requires store.Valid() && Current(store, anchors, a, s) && Current(store, anchors, b, s)
    ensures a == b
  {
  }

  /** The newest record has the latest time, and among those of its time the largest id. */
  lemma NewestIsLatest(store: Store, s: string, key: string, k: string)
    requires Newest(store, s, key) && MessageOf(store, k, s)
    ensures
      var t, u := store.docs[k].record.recordedAt, store.docs[key].record.recordedAt;
      && (t.Some? ==> u.Some? && t.value <= u.value)
      && (t == u ==> k == key || store.docs[k].id < store.docs[key].id)
  {
  }

  method FindNewest(store: Store, s: string) returns (r: Option<string>)
    requires store.Valid()
    ensures r.Some? ==> Newest(store, s, r.value)
    ensures r.None? ==> forall k :: !MessageOf(store, k, s)
  {
    r := None;
    var rest := store.docs.Keys;
    while rest != {}
      invariant rest <= store.docs.Keys
      invariant r.Some? ==> NewestAmong(store, store.docs.Keys - rest, s, r.value)
      invariant r.None? ==> forall k :: k in store.docs.Keys - rest ==> !MessageOf(store, k, s)
      decreases rest
    {
      var k :| k in rest;
      assert store.docs.Keys - (rest - {k}) == store.docs.Keys - rest + {k};
      if MessageOf(store, k, s) && (r.None? || Earlier(store.docs[r.value], store.docs[k])) {
        r := Some(k);
      }
      rest := rest - {k};
    }
    assert store.docs.Keys - {} == store.docs.Keys;
  }

  // ---------- the order of sensor ids ----------

  /** Ascending and without duplicates. */
  ghost predicate Ascending(r: seq<string>) {
    (forall i, j :: 0 <= i < j < |r| ==> TextBelow(r[i], r[j])) && (forall i, j :: 0 <= i < j < |r| ==> r[i] != r[j])
  }

  lemma {:induction false} LeastText(s: set<string>) returns (m: string)
    requires s != {}
    ensures m in s && forall t :: t in s && t != m ==> TextBelow(m, t)
    decreases |s|
  {
    m :| m in s;
    var rest := s - {m};
    if rest != {} {
      var n := LeastText(rest);
      TextOrderIsTotal(m, n);
      if TextBelow(n, m) {
        m := n;
      } else {
        forall t | t in rest && t != n
          ensures TextBelow(m, t)
        {
          TextOrderIsTransitive(m, n, t);
        }
      }
    }
  }

  ghost predicate AllBelow(r: seq<string>, candidates: set<string>) {
    forall s, t :: s in r && t in candidates ==> TextBelow(s, t) && s != t
  }

  lemma Extends(r: seq<string>, candidates: set<string>, s: string)
    requires Ascending(r) && AllBelow(r, candidates) && s in candidates
    requires forall t :: t in candidates - {s} ==> TextBelow(s, t)
    ensures Ascending(r + [s]) && AllBelow(r + [s], candidates - {s}) && AllBelow(r, candidates - {s})
  {
  }

  method Least(s: set<string>) returns (m: string)
    requires s != {}
    ensures m in s && forall t :: t in s - {m} ==> TextBelow(m, t)
  {
    ghost var least := LeastText(s);
    m :| m in s && forall t :: t in s && t != m ==> TextBelow(m, t);
  }

  /** The query: the owner's records name candidates, each sensor once; those whose newest record belongs to an anchor
      of the owner stay, in ascending order. It finds exactly the owner's current sensors. */
  method FindCurrentSensorIdsByOwner(store: Store, anchors: Anchors, owner: string) returns (r: seq<string>)
    requires store.Valid()
    ensures Ascending(r)
    ensures owner == "" ==> r == []
    ensures owner != "" ==> forall s :: s in r <==> Current(store, anchors, owner, s)
  {
    if owner == "" { return []; }
    var candidates := set k | k in store.docs && ValidMessage(store.docs[k]) && Owned(anchors, owner, store.docs[k])
      :: store.docs[k].record.sensorId.value;
    CurrentAreCandidates(store, anchors, owner, candidates);
    r := [];
    while candidates != {}
      invariant Ascending(r) && AllBelow(r, candidates)
      invariant forall s :: s in r ==> Current(store, anchors, owner, s)
      invariant forall s :: Current(store, anchors, owner, s) ==> s in r || s in candidates
      decreases candidates
    {
      var s := Least(candidates);
      var newest := FindNewest(store, s);
      CurrentByNewest(store, anchors, owner, s, newest);
      Extends(r, candidates, s);
      if newest.Some? && Owned(anchors, owner, store.docs[newest.value]) { r := r + [s]; }
      candidates := candidates - {s};
    }
  }

  lemma CurrentAreCandidates(store: Store, anchors: Anchors, owner: string, candidates: set<string>)
    requires candidates ==
      set k | k in store.docs && ValidMessage(store.docs[k]) && Owned(anchors, owner, store.docs[k])
        :: store.docs[k].record.sensorId.value
    ensures forall s :: Current(store, anchors, owner, s) ==> s in candidates
  {
  }

  lemma CurrentByNewest(store: Store, anchors: Anchors, owner: string, s: string, newest: Option<string>)
    requires store.Valid() && (newest.Some? ==> Newest(store, s, newest.value))
    requires newest.None? ==> forall k :: !MessageOf(store, k, s)
    ensures Current(store, anchors, owner, s) <==> newest.Some? && Owned(anchors, owner, store.docs[newest.value])
  {
    if key :| Newest(store, s, key) && Owned(anchors, owner, store.docs[key]) {
      assert MessageOf(store, key, s);
    }
  }
}
