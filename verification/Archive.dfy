/** The write-once archive connectivity_payloads. */
module Archive {
  import opened Wrappers
  import opened CpsKeys
  import opened Protocol

  datatype PayloadStatus = PayloadPending | PayloadDecoded | PayloadDecodedWithErrors | PayloadError

  datatype PayloadDoc = PayloadDoc(
    raw: Bytes, size: nat, digest: Digest, wireFormat: WireFormat, status: PayloadStatus,
    errorCode: Option<BatchErrorCode>)

  type Payloads = map<string, PayloadDoc>

  datatype ArchiveError = ContentConflict | ArchiveFailed(fault: Fault)

  /** The upsert filtered by key, size and digest: an existing document matches, collides, or is absent. */
  function Fetched(docs: Payloads, key: string, bytes: Bytes, digest: Digest, format: WireFormat)
    : Result<Payloads, ArchiveError>
  {
    if key !in docs then Ok(docs[key := PayloadDoc(bytes, |bytes|, digest, format, PayloadPending, None)])
    else if docs[key].size == |bytes| && docs[key].digest == digest then Ok(docs)
    else Err(ContentConflict)
  }

  function WithDecodeStatus(docs: Payloads, key: string, status: PayloadStatus, error: Option<BatchErrorCode>): Payloads
  {
    if key in docs then docs[key := docs[key].(status := status, errorCode := error)] else docs
  }

  /** Every entry keeps its content and the format it was stored in. */
  ghost predicate Keeps(before: Payloads, after: Payloads) {
    forall k :: k in before ==> k in after && SameEntry(before[k], after[k])
  }

  predicate SameEntry(d: PayloadDoc, e: PayloadDoc) {
    d.raw == e.raw && d.size == e.size && d.digest == e.digest && d.wireFormat == e.wireFormat
  }

  class PayloadCollection {
    var docs: Payloads
    /** How many calls have failed on the way to the collection or back. */
    ghost var faults: nat

    constructor (docs: Payloads)
      ensures this.docs == docs && faults == 0
    {
      this.docs := docs;
      faults := 0;
    }

    method UpsertFetched(key: string, bytes: Bytes, format: WireFormat, sha256: Bytes -> Digest)
      returns (o: Outcome<ArchiveError>)
      modifies this
      ensures docs == old(docs) || Fetched(old(docs), key, bytes, sha256(bytes), format) == Ok(docs)
      ensures o.Pass? ==> Fetched(old(docs), key, bytes, sha256(bytes), format) == Ok(docs)
      ensures o == Fail(ContentConflict) ==> Fetched(old(docs), key, bytes, sha256(bytes), format).Err?
      ensures faults == old(faults) + if o.Fail? && o.error.ArchiveFailed? then 1 else 0
      ensures Keeps(old(docs), docs)
    {
      if * { faults := faults + 1; return Fail(ArchiveFailed(Thrown)); }
      if * { faults := faults + 1; return Fail(ArchiveFailed(Crashed)); }
      var stored := Fetched(docs, key, bytes, sha256(bytes), format);
      if stored.Err? { return Fail(stored.error); }
      docs := stored.value;
      if * { faults := faults + 1; return Fail(ArchiveFailed(Thrown)); }
      if * { faults := faults + 1; return Fail(ArchiveFailed(Crashed)); }
      o := Pass;
    }

    method UpdateDecodeStatus(key: string, status: PayloadStatus, error: Option<BatchErrorCode>)
      returns (o: Outcome<Fault>)
      modifies this
      ensures docs == old(docs) || docs == WithDecodeStatus(old(docs), key, status, error)
      ensures faults == old(faults) + if o.Fail? then 1 else 0
      ensures Keeps(old(docs), docs)
      ensures o.Pass? ==> docs == WithDecodeStatus(old(docs), key, status, error)
    {
      if * { faults := faults + 1; return Fail(Thrown); }
      if * { faults := faults + 1; return Fail(Crashed); }
      docs := WithDecodeStatus(docs, key, status, error);
      if * { faults := faults + 1; return Fail(Thrown); }
      if * { faults := faults + 1; return Fail(Crashed); }
      o := Pass;
    }
  }

  // ---------- runs ----------

  datatype ArchiveOp =
    | Store(key: string, bytes: Bytes, format: WireFormat)
    | SetStatus(key: string, status: PayloadStatus, error: Option<BatchErrorCode>)

  function Step(docs: Payloads, op: ArchiveOp, sha256: Bytes -> Digest): Payloads {
    match op
    case Store(key, bytes, format) =>
      (match Fetched(docs, key, bytes, sha256(bytes), format) case Ok(next) => next case Err(_) => docs)
    case SetStatus(key, status, error) => WithDecodeStatus(docs, key, status, error)
  }

  function Run(docs: Payloads, ops: seq<ArchiveOp>, sha256: Bytes -> Digest): Payloads {
    if ops == [] then docs else Step(Run(docs, ops[..|ops| - 1], sha256), ops[|ops| - 1], sha256)
  }

  /** Position of the first operation that stores under a key. */
  ghost predicate FirstStore(ops: seq<ArchiveOp>, i: int, key: string) {
    && 0 <= i < |ops| && ops[i].Store? && ops[i].key == key
    && forall j :: 0 <= j < i ==> !(ops[j].Store? && ops[j].key == key)
  }

  /** From an empty archive, after any operations, a key holds exactly the bytes of its first store; a further
      store conflicts exactly when its size or digest differs from those bytes. */
  lemma {:induction false} FirstBytesForever(
      ops: seq<ArchiveOp>, key: string, bytes: Bytes, format: WireFormat, sha256: Bytes -> Digest)
    ensures key in Run(map[], ops, sha256) <==> exists i :: FirstStore(ops, i, key)
    ensures forall i :: FirstStore(ops, i, key) ==>
      && Run(map[], ops, sha256)[key].raw == ops[i].bytes
      && (Fetched(Run(map[], ops, sha256), key, bytes, sha256(bytes), format).Err? <==>
            |bytes| != |ops[i].bytes| || sha256(bytes) != sha256(ops[i].bytes))
  {
    ArchiveHolds(ops, key, sha256);
  }

  lemma {:induction false} ArchiveHolds(ops: seq<ArchiveOp>, key: string, sha256: Bytes -> Digest)
    ensures key in Run(map[], ops, sha256) <==> exists i :: FirstStore(ops, i, key)
    ensures forall i :: FirstStore(ops, i, key) ==>
      var d := Run(map[], ops, sha256)[key];
      d.raw == ops[i].bytes && d.size == |d.raw| && d.digest == sha256(d.raw)
  {
    if ops != [] {
      var n := |ops| - 1;
      ArchiveHolds(ops[..n], key, sha256);
      forall i | 0 <= i < n
        ensures FirstStore(ops, i, key) <==> FirstStore(ops[..n], i, key)
      {
        assert forall j :: 0 <= j <= i ==> ops[..n][j] == ops[j];
      }
      if key in Run(map[], ops[..n], sha256) {
        var i :| FirstStore(ops[..n], i, key);
        assert FirstStore(ops, i, key);
      } else {
        NoStore(ops, n, key, sha256);
        assert FirstStore(ops, n, key) <==> ops[n].Store? && ops[n].key == key;
      }
    }
  }

  lemma {:induction false} NoStore(ops: seq<ArchiveOp>, n: nat, key: string, sha256: Bytes -> Digest)
    requires n <= |ops| && key !in Run(map[], ops[..n], sha256)
    ensures forall j :: 0 <= j < n ==> !(ops[j].Store? && ops[j].key == key)
  {
    if n > 0 {
      assert ops[..n][..n - 1] == ops[..n - 1];
      NoStore(ops, n - 1, key, sha256);
    }
  }

  predicate Marks(op: ArchiveOp, key: string) {
    op.SetStatus? && op.key == key
  }

  /** The last operation behind position i that marks an entry. */
  function LastMark(ops: seq<ArchiveOp>, i: int, key: string): (op: Option<ArchiveOp>)
    ensures op.Some? ==> Marks(op.value, key) && op.value in ops
  {
    if ops == [] || |ops| - 1 <= i then None
    else if Marks(ops[|ops| - 1], key) then Some(ops[|ops| - 1])
    else LastMark(ops[..|ops| - 1], i, key)
  }

  lemma StepOnEntry(docs: Payloads, op: ArchiveOp, key: string, sha256: Bytes -> Digest)
    requires key in docs
    ensures key in Step(docs, op, sha256)
    ensures Step(docs, op, sha256)[key].wireFormat == docs[key].wireFormat
    ensures
      var d := Step(docs, op, sha256)[key];
      if Marks(op, key) then d.status == op.status && d.errorCode == op.error else d == docs[key]
  {
  }

  /** An entry says what its last mark says, and is pending without an error before the first; its format is that of its
      first store. */
  lemma {:induction false} LastMarkStands(ops: seq<ArchiveOp>, key: string, i: int, sha256: Bytes -> Digest)
    requires FirstStore(ops, i, key)
    ensures key in Run(map[], ops, sha256)
    ensures
      var d := Run(map[], ops, sha256)[key];
      && d.wireFormat == ops[i].format
      && match LastMark(ops, i, key)
         case None => d.status == PayloadPending && d.errorCode == None
         case Some(op) => d.status == op.status && d.errorCode == op.error
    decreases |ops|
  {
    var n := |ops| - 1;
    if i == n {
      NotStoredYet(ops, key, sha256);
    } else {
      FirstInFront(ops, i, key);
      LastMarkStands(ops[..n], key, i, sha256);
      StepOnEntry(Run(map[], ops[..n], sha256), ops[n], key, sha256);
    }
  }

  lemma FirstInFront(ops: seq<ArchiveOp>, i: int, key: string)
    requires FirstStore(ops, i, key) && i < |ops| - 1
    ensures FirstStore(ops[..|ops| - 1], i, key)
  {
    assert forall j :: 0 <= j < |ops| - 1 ==> ops[..|ops| - 1][j] == ops[j];
  }

  lemma NotStoredYet(ops: seq<ArchiveOp>, key: string, sha256: Bytes -> Digest)
    requires ops != [] && FirstStore(ops, |ops| - 1, key)
    ensures key !in Run(map[], ops[..|ops| - 1], sha256)
  {
    var front := ops[..|ops| - 1];
    ArchiveHolds(front, key, sha256);
    assert forall i :: 0 <= i < |front| ==> front[i] == ops[i];
  }
}
