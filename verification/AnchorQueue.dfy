/** The collection cps_anchors: discovery, leasing and status updates. */
module AnchorQueue {
  import opened Wrappers
  import opened CpsKeys
  import opened Protocol

  const MAX_SAFE_INTEGER: nat := 0x1F_FFFF_FFFF_FFFF

  datatype Status = Pending | Processing | Processed | ProcessedWithErrors | RetryPending | Error {
    predicate Terminal() { Processed? || ProcessedWithErrors? || Error? }
    predicate Completed() { Processed? || ProcessedWithErrors? }
  }

  datatype AnchorError = BatchError(code: BatchErrorCode) | EnvelopeErrorsFound | MaxAttemptsExceeded | TransientError

  datatype Counters = Counters(
    validEnvelopes: nat, invalidEnvelopes: nat, envelopes: nat, storedRecords: nat, validSignatures: nat,
    invalidSignatures: nat, decoded: nat, unsupported: nat, privateSections: nat)

  const NO_COUNTS := Counters(0, 0, 0, 0, 0, 0, 0, 0, 0)

  datatype BackfillStatus = BackfillProcessing | BackfillProcessed | BackfillProcessedWithErrors | BackfillError

  datatype BackfillErrorCode = PartialErrors | BatchUnusable(code: BatchErrorCode) | PayloadConflict | BackfillFailed

  datatype BackfillCounts = BackfillCounts(
    records: nat, invalid: nat, unsupported: nat, privateSections: nat, privateOnly: nat)

  const NO_BACKFILL_COUNTS := BackfillCounts(0, 0, 0, 0, 0)

  /** The backfill_* fields, kept apart from the queue's own status. */
  datatype BackfillState = BackfillState(
    status: Option<BackfillStatus>, attempts: nat, counts: BackfillCounts, errorCode: Option<BackfillErrorCode>)

  const NO_BACKFILL := BackfillState(None, 0, NO_BACKFILL_COUNTS, None)

  datatype Anchor = Anchor(
    sourceKey: string, nodeId: string, block: nat, createdAt: int, ref: PayloadRef, owner: Option<string>,
    wireFormat: Option<WireFormat>, status: Status, attemptCount: nat, availableAt: Option<int>,
    leaseExpiresAt: Option<int>, errorCode: Option<AnchorError>, counts: Counters, backfill: BackfillState)

  /** Data of a finalised CPS event or of a snapshot. */
  datatype AnchorInput = AnchorInput(
    nodeId: NodeIdInput, block: int, ref: PayloadRef, owner: Option<string>, wireFormat: Option<WireFormat>)

  datatype QueueError = BlockOutOfRange | BadKey(code: KeyError) | BadLease | CallFailed(fault: Fault)

  type Anchors = map<string, Anchor>

  // ---------- discovery ----------

  function NewAnchor(key: string, node: string, data: AnchorInput, now: int): Anchor
    requires data.block >= 0
  {
    Anchor(key, node, data.block, now, data.ref, data.owner, data.wireFormat, Pending, 0, None, None, None, NO_COUNTS,
      NO_BACKFILL)
  }

  /** $setOnInsert of the anchor, $set of the wire format when there is one. */
  function Discovered(docs: Anchors, key: string, inserted: Anchor, wireFormat: Option<WireFormat>): Anchors {
    if key !in docs then docs[key := inserted]
    else if wireFormat.Some? then docs[key := docs[key].(wireFormat := wireFormat)]
    else docs
  }

  /** Rediscovery keeps everything an anchor already has except its wire format, and never touches another anchor. */
  lemma RediscoveryKeepsState(docs: Anchors, key: string, inserted: Anchor, wireFormat: Option<WireFormat>, k: string)
    requires inserted.wireFormat == wireFormat
    ensures
      var after := Discovered(docs, key, inserted, wireFormat);
      && after.Keys == docs.Keys + {key}
      && (k in docs ==>
        after[k] == docs[k].(wireFormat := if k == key && wireFormat.Some? then wireFormat else docs[k].wireFormat))
      && (key !in docs ==> after[key] == inserted)
      && Discovered(after, key, inserted, wireFormat) == after
  {
  }

  // ---------- leasing ----------

  predicate Claimable(a: Anchor, now: int) {
    || a.status.Pending?
    || (a.status.RetryPending? && a.availableAt.Some? && a.availableAt.value <= now)
    || (a.status.Processing? && a.leaseExpiresAt.Some? && a.leaseExpiresAt.value <= now)
  }

  function Claimed(a: Anchor, until: int): Anchor {
    a.(status := Processing, leaseExpiresAt := Some(until), attemptCount := a.attemptCount + 1, errorCode := None)
  }

  /** The same anchor, apart from what a claim changes. */
  predicate SameButLease(a: Anchor, b: Anchor) {
    && a.sourceKey == b.sourceKey && a.nodeId == b.nodeId && a.block == b.block && a.createdAt == b.createdAt
    && a.ref == b.ref && a.owner == b.owner && a.wireFormat == b.wireFormat && a.availableAt == b.availableAt
    && a.counts == b.counts && a.backfill == b.backfill
  }

  /** The claim order: block first, then creation time. */
  predicate Precedes(a: Anchor, b: Anchor) {
    a.block < b.block || (a.block == b.block && a.createdAt <= b.createdAt)
  }

  /** The key is one the claim query may pick. */
  ghost predicate FirstClaimable(docs: Anchors, now: int, key: string) {
    && key in docs && Claimable(docs[key], now)
    && forall k :: k in docs && Claimable(docs[k], now) ==> Precedes(docs[key], docs[k])
  }

  // ---------- status ----------

  datatype Details = Details(counts: Option<Counters>, errorCode: Option<AnchorError>, availableAt: Option<int>)

  datatype StatusWrite = StatusWrite(key: string, status: Status, details: Details)

  /** $set of the status and of the details given, $unset of the lease. */
  function WithStatus(a: Anchor, w: StatusWrite): Anchor {
    a.(status := w.status, leaseExpiresAt := None,
       counts := if w.details.counts.Some? then w.details.counts.value else a.counts,
       errorCode := if w.details.errorCode.Some? then w.details.errorCode else a.errorCode,
       availableAt := if w.details.availableAt.Some? then w.details.availableAt else a.availableAt)
  }

  function Updated(docs: Anchors, w: StatusWrite): Anchors {
    if w.key in docs then docs[w.key := WithStatus(docs[w.key], w)] else docs
  }

  function UpdatedAll(docs: Anchors, writes: seq<StatusWrite>): Anchors {
    if writes == [] then docs else Updated(UpdatedAll(docs, writes[..|writes| - 1]), writes[|writes| - 1])
  }

  lemma UpdatedAllAppend(docs: Anchors, writes: seq<StatusWrite>, w: StatusWrite)
    ensures UpdatedAll(docs, writes + [w]) == Updated(UpdatedAll(docs, writes), w)
    ensures UpdatedAll(docs, [w]) == Updated(docs, w)
  {
  }

  lemma {:induction false} UpdatedAllConcat(docs: Anchors, xs: seq<StatusWrite>, ys: seq<StatusWrite>)
    ensures UpdatedAll(docs, xs + ys) == UpdatedAll(UpdatedAll(docs, xs), ys)
  {
    if ys == [] {
      assert xs + ys == xs;
    } else {
      UpdatedAllConcat(docs, xs, ys[..|ys| - 1]);
      assert (xs + ys)[..|xs + ys| - 1] == xs + ys[..|ys| - 1];
    }
  }

  /** The parts of an anchor a status write may give: its status always, the details if they are there. */
  datatype Part = ItsStatus | ItsCounts | ItsError | ItsTime

  predicate Gives(w: StatusWrite, key: string, part: Part) {
    && w.key == key
    && match part
       case ItsStatus => true
       case ItsCounts => w.details.counts.Some?
       case ItsError => w.details.errorCode.Some?
       case ItsTime => w.details.availableAt.Some?
  }

  /** The last write that gives a part of an anchor. */
  function LastGiving(writes: seq<StatusWrite>, key: string, part: Part): (w: Option<StatusWrite>)
    ensures w.Some? ==> Gives(w.value, key, part) && w.value in writes
  {
    if writes == [] then None
    else if Gives(writes[|writes| - 1], key, part) then Some(writes[|writes| - 1])
    else LastGiving(writes[..|writes| - 1], key, part)
  }

  /** What any sequence of status writes leaves of a stored anchor: the status of the last write to its key; counters,
      error code and time each of the last write to it that gave one, or else as before; no lease once there was a
      write to it. Nothing else of it changes, and no anchor comes or goes. */
  lemma {:induction false} StatusWritesTell(docs: Anchors, writes: seq<StatusWrite>, key: string)
    ensures UpdatedAll(docs, writes).Keys == docs.Keys
    ensures key in docs ==>
      var before, after := docs[key], UpdatedAll(docs, writes)[key];
      var status, counts := LastGiving(writes, key, ItsStatus), LastGiving(writes, key, ItsCounts);
      var error, time := LastGiving(writes, key, ItsError), LastGiving(writes, key, ItsTime);
      && after.status == (if status.Some? then status.value.status else before.status)
      && after.leaseExpiresAt == (if status.Some? then None else before.leaseExpiresAt)
      && after.counts == (if counts.Some? then counts.value.details.counts.value else before.counts)
      && after.errorCode == (if error.Some? then error.value.details.errorCode else before.errorCode)
      && after.availableAt == (if time.Some? then time.value.details.availableAt else before.availableAt)
      && SameButStatus(after, before)
    decreases |writes|
  {
    if writes != [] { StatusWritesTell(docs, writes[..|writes| - 1], key); }
  }

  /** The same anchor, apart from what status writes may change. */
  predicate SameButStatus(a: Anchor, b: Anchor) {
    && a.sourceKey == b.sourceKey && a.nodeId == b.nodeId && a.block == b.block && a.createdAt == b.createdAt
    && a.ref == b.ref && a.owner == b.owner && a.wireFormat == b.wireFormat
    && a.attemptCount == b.attemptCount && a.backfill == b.backfill
  }

  // ---------- backfill ----------

  function BackfillStarted(docs: Anchors, key: string): Anchors {
    if key in docs then
      docs[key := docs[key].(backfill := docs[key].backfill.(
        status := Some(BackfillProcessing), attempts := docs[key].backfill.attempts + 1, errorCode := None))]
    else docs
  }

  /** $set of status and counts, $set or $unset of the error code. */
  function BackfillFinished(
      docs: Anchors, key: string, status: BackfillStatus, counts: BackfillCounts, error: Option<BackfillErrorCode>)
    : Anchors
  {
    if key in docs then
      docs[key := docs[key].(backfill := BackfillState(Some(status), docs[key].backfill.attempts, counts, error))]
    else docs
  }

  /** A later result replaces an earlier one, and neither touches the queue. */
  lemma BackfillFinishedTwice(
      docs: Anchors, key: string, status: BackfillStatus, counts: BackfillCounts, error: Option<BackfillErrorCode>,
      again: BackfillStatus, more: BackfillCounts, code: Option<BackfillErrorCode>)
    ensures BackfillFinished(BackfillFinished(docs, key, status, counts, error), key, again, more, code)
            == BackfillFinished(docs, key, again, more, code)
    ensures SameQueue(BackfillStarted(docs, key), docs)
    ensures SameQueue(BackfillFinished(docs, key, status, counts, error), docs)
  {
  }

  /** The same anchors, up to their backfill fields. */
  ghost predicate SameQueue(a: Anchors, b: Anchors) {
    a.Keys == b.Keys && forall k :: k in a ==> a[k] == b[k].(backfill := a[k].backfill)
  }

  /** What holds of every stored anchor, whoever writes and however late: an anchor is being processed exactly when
      it carries a lease, and one waiting for a retry says when. */
  ghost predicate WellFormed(a: Anchor) {
    && (a.status.Processing? <==> a.leaseExpiresAt.Some?)
    && (a.status.RetryPending? ==> a.availableAt.Some?)
    && (a.status.Pending? ==> a.attemptCount == 0)
  }

  /** A status write the processor can issue. */
  predicate Issuable(w: StatusWrite) {
    && (w.status.Terminal() || w.status.RetryPending?)
    && (w.status.RetryPending? ==> w.details.availableAt.Some?)
  }

  ghost predicate AllWellFormed(docs: Anchors) {
    forall k :: k in docs ==> WellFormed(docs[k])
  }

  /** No operation on the queue breaks well-formedness, in whatever order and from whichever worker it comes. */
  lemma {:induction false} UpdatesKeepWellFormed(docs: Anchors, writes: seq<StatusWrite>)
    requires AllWellFormed(docs) && forall w :: w in writes ==> Issuable(w)
    ensures AllWellFormed(UpdatedAll(docs, writes))
  {
    if writes != [] {
      var front, last := writes[..|writes| - 1], writes[|writes| - 1];
      assert last in writes && forall w :: w in front ==> w in writes;
      UpdatesKeepWellFormed(docs, front);
    }
  }

  /** Every anchor that is not finished becomes claimable at some time and stays so until somebody claims it. */
  lemma EventuallyClaimable(a: Anchor) returns (from: int)
    requires WellFormed(a) && !a.status.Terminal()
    ensures forall now :: now >= from ==> Claimable(a, now)
  {
    from := if a.status.RetryPending? then a.availableAt.value
            else if a.status.Processing? then a.leaseExpiresAt.value else 0;
  }

  lemma {:induction false} MinimalExists(docs: Anchors, keys: set<string>) returns (key: string)
    requires keys != {} && keys <= docs.Keys
    ensures key in keys && forall k :: k in keys ==> Precedes(docs[key], docs[k])
    decreases |keys|
  {
    var k0 :| k0 in keys;
    var rest := keys - {k0};
    assert keys == rest + {k0};
    if rest == {} {
      key := k0;
    } else {
      var m := MinimalExists(docs, rest);
      key := if Precedes(docs[k0], docs[m]) then k0 else m;
      assert forall k :: k in rest ==> Precedes(docs[m], docs[k]);
    }
  }

  /** The repository. A failing call may or may not have reached the collection. */
  class AnchorCollection {
    var docs: Anchors
    /** Every status write that took effect, in order. */
    ghost var log: seq<StatusWrite>
    /** How many calls have failed on the way to the collection or back. */
    ghost var faults: nat

    constructor (docs: Anchors)
      ensures this.docs == docs && log == [] && faults == 0
    {
      this.docs := docs;
      log, faults := [], 0;
    }

    method UpsertAnchor(data: AnchorInput, now: int, sha256: Bytes -> Digest) returns (o: Outcome<QueueError>)
      modifies this`docs, this`faults
      ensures
        var valid := 0 <= data.block <= MAX_SAFE_INTEGER && NormalizeCpsNodeId(data.nodeId).Ok?
          && SourceKey(data.nodeId, data.ref, sha256).Ok?;
        && (!valid ==> docs == old(docs) && o.Fail? && faults == old(faults))
        && (valid ==> faults == old(faults) + if o.Fail? then 1 else 0)
        && (valid ==>
              var key := SourceKey(data.nodeId, data.ref, sha256).value;
              var next := Discovered(old(docs), key, NewAnchor(key, NormalizeCpsNodeId(data.nodeId).value, data, now),
                data.wireFormat);
              (docs == old(docs) || docs == next) && (o.Pass? ==> docs == next))
      ensures o.Pass? ==>
        var key, node := SourceKey(data.nodeId, data.ref, sha256).value, NormalizeCpsNodeId(data.nodeId).value;
        && key in docs
        && (key !in old(docs) ==>
          docs[key] == Anchor(key, node, data.block, now, data.ref, data.owner, data.wireFormat, Pending, 0, None,
            None, None, NO_COUNTS, NO_BACKFILL))
    {
      if data.block < 0 || data.block > MAX_SAFE_INTEGER { return Fail(BlockOutOfRange); }
      var node := NormalizeCpsNodeId(data.nodeId);
      if node.Err? { return Fail(BadKey(node.error)); }
      var key := SourceKey(data.nodeId, data.ref, sha256);
      if key.Err? { return Fail(BadKey(key.error)); }
      if * { faults := faults + 1; return Fail(CallFailed(Thrown)); }
      docs := Discovered(docs, key.value, NewAnchor(key.value, node.value, data, now), data.wireFormat);
      if * { faults := faults + 1; return Fail(CallFailed(Thrown)); }
      o := Pass;
    }

    /** Atomically leases the first claimable anchor, the one under `key`; a call that fails may have leased it too. */
    method ClaimNext(now: int, leaseMs: int) returns (r: Result<Option<Anchor>, QueueError>, ghost key: string)
      modifies this`docs, this`faults
      ensures leaseMs <= 0 ==> r.Err? && docs == old(docs) && faults == old(faults)
      ensures leaseMs > 0 ==> faults == old(faults) + if r.Err? then 1 else 0
      ensures docs == old(docs)
                || (FirstClaimable(old(docs), now, key)
                    && docs == old(docs)[key := Claimed(old(docs)[key], now + leaseMs)])
      ensures r.Ok? && r.value.None? ==> docs == old(docs) && forall k :: k in docs ==> !Claimable(docs[k], now)
      ensures r.Ok? && r.value.Some? ==>
        && FirstClaimable(old(docs), now, key) && r.value.value == Claimed(old(docs)[key], now + leaseMs)
        && docs == old(docs)[key := r.value.value]
      ensures r.Ok? && r.value.Some? ==> forall k :: k in old(docs) && Claimable(old(docs)[k], now) ==>
                || r.value.value.block < old(docs)[k].block
                || (r.value.value.block == old(docs)[k].block && r.value.value.createdAt <= old(docs)[k].createdAt)
      ensures r.Ok? && r.value.Some? && key in old(docs) ==>
        var a := r.value.value;
        && a.status.Processing? && a.leaseExpiresAt == Some(now + leaseMs) && a.errorCode == None
        && a.attemptCount == old(docs)[key].attemptCount + 1 && SameButLease(a, old(docs)[key])
    {
      key := "";
      if leaseMs <= 0 { return Err(BadLease), key; }
      if * { faults := faults + 1; return Err(CallFailed(Thrown)), key; }
      var ready := set k | k in docs && Claimable(docs[k], now);
      if ready == {} {
        assert forall k :: k in docs && Claimable(docs[k], now) ==> k in ready;
        return Ok(None), key;
      }
      ghost var first := MinimalExists(docs, ready);
      assert first in ready && forall k :: k in ready ==> Precedes(docs[first], docs[k]);
      var next :| next in ready && forall k :: k in ready ==> Precedes(docs[next], docs[k]);
      assert FirstClaimable(docs, now, next);
      key := next;
      var claimed := Claimed(docs[next], now + leaseMs);
      docs := docs[next := claimed];
      if * { faults := faults + 1; return Err(CallFailed(Crashed)), key; }
      r := Ok(Some(claimed));
    }

    method MarkBackfillStarted(key: string) returns (o: Outcome<Fault>)
      modifies this`docs, this`faults
      ensures docs == old(docs) || docs == BackfillStarted(old(docs), key)
      ensures faults == old(faults) + if o.Fail? then 1 else 0
      ensures o.Pass? ==> docs == BackfillStarted(old(docs), key)
      ensures o.Pass? && key in docs ==>
        var before, after := old(docs)[key].backfill, docs[key].backfill;
        after == BackfillState(Some(BackfillProcessing), before.attempts + 1, before.counts, None)
    {
      if * { faults := faults + 1; return Fail(Thrown); }
      docs := BackfillStarted(docs, key);
      if * { faults := faults + 1; return Fail(Crashed); }
      o := Pass;
    }

    method UpdateBackfillResult(
      key: string, status: BackfillStatus, counts: BackfillCounts, error: Option<BackfillErrorCode>)
      returns (o: Outcome<Fault>)
      modifies this`docs, this`faults
      ensures docs == old(docs) || docs == BackfillFinished(old(docs), key, status, counts, error)
      ensures faults == old(faults) + if o.Fail? then 1 else 0
      ensures o.Pass? ==> docs == BackfillFinished(old(docs), key, status, counts, error)
      ensures o.Pass? && key in docs ==>
                docs[key].backfill == BackfillState(Some(status), old(docs)[key].backfill.attempts, counts, error)
    {
      if * { faults := faults + 1; return Fail(Thrown); }
      docs := BackfillFinished(docs, key, status, counts, error);
      if * { faults := faults + 1; return Fail(Crashed); }
      o := Pass;
    }

    method UpdateStatus(w: StatusWrite) returns (o: Outcome<Fault>, ghost written: seq<StatusWrite>)
      modifies this
      ensures log == old(log) + written && docs == UpdatedAll(old(docs), written)
      ensures written == [w] || (written == [] && o.Fail?)
      ensures faults == old(faults) + if o.Fail? then 1 else 0
      ensures docs.Keys == old(docs).Keys && forall k :: k in docs && (k != w.key || written == []) ==>
                docs[k] == old(docs)[k]
      ensures written != [] && w.key in docs ==>
        var before, after := old(docs)[w.key], docs[w.key];
        && after.status == w.status && after.leaseExpiresAt == None && SameButStatus(after, before)
        && (match w.details.counts case Some(c) => after.counts == c case None => after.counts == before.counts)
        && after.errorCode == (if w.details.errorCode.Some? then w.details.errorCode else before.errorCode)
        && after.availableAt == (if w.details.availableAt.Some? then w.details.availableAt else before.availableAt)
    {
      if * { faults := faults + 1; return Fail(Thrown), []; }
      if * { faults := faults + 1; return Fail(Crashed), []; }
      UpdatedAllAppend(docs, [], w);
      docs := Updated(docs, w);
      log := log + [w];
      if * { faults := faults + 1; return Fail(Thrown), [w]; }
      if * { faults := faults + 1; return Fail(Crashed), [w]; }
      return Pass, [w];
    }
  }
}
