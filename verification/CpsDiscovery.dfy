/** How anchors are discovered: the PayloadSet handler under the block indexer, and the start-up snapshot. */
module CpsDiscovery {
  import opened Wrappers
  import opened CpsKeys
  import opened Protocol
  import opened AnchorQueue
  import opened CpsTree
  import opened BlockIndexer

  datatype EventKind = ExtrinsicSuccess | ExtrinsicFailed | PayloadSet(node: NodeId) | OtherEvent

  /** A system event; `extrinsic` is the index of the extrinsic that raised it, if one did. */
  datatype Event = Event(extrinsic: Option<nat>, kind: EventKind)

  datatype Block = Block(number: nat, cps: Option<CpsState>, events: seq<Event>)

  /** The multiformats and compression-meta decoders; both are total. */
  datatype Decoders = Decoders(reference: Bytes -> PayloadRef, wireFormat: Option<Bytes> -> WireFormat,
    sha256: Bytes -> Digest)

  datatype Settings = Settings(enabled: bool, roots: set<NodeId>, decoders: Decoders)

  datatype HandlerError = Tree(error: TreeError) | NotAccepted | CallFails(fault: Fault)

  /** The connection to the chain; `faults` counts its calls that failed. */
  class ChainApi {
    ghost var faults: nat

    constructor ()
      ensures faults == 0
    {
      faults := 0;
    }
  }

  /** All calls that have failed. */
  ghost function Faults(api: ChainApi, anchors: AnchorCollection): nat
    reads api, anchors
  {
    api.faults + anchors.faults
  }

  // ---------- one event ----------

  function InputOf(node: NodeState, block: nat, d: Decoders): AnchorInput {
    AnchorInput(Numeric(node.nodeId), block, d.reference(node.payload), Some(node.owner), Some(d.wireFormat(node.meta)))
  }

  predicate Accepts(data: AnchorInput, sha256: Bytes -> Digest) {
    0 <= data.block <= MAX_SAFE_INTEGER && SourceKey(data.nodeId, data.ref, sha256).Ok?
  }

  function OpOf(data: AnchorInput, sha256: Bytes -> Digest): Op
    requires Accepts(data, sha256)
  {
    SourceKeyParts(data.nodeId, data.ref, sha256);
    Op(SourceKey(data.nodeId, data.ref, sha256).value,
       Seen(NormalizeCpsNodeId(data.nodeId).value, data.block, data.ref, data.owner, data.wireFormat))
  }

  /** The discovery part of the stored anchors. */
  function Sight(docs: Anchors): View {
    map k | k in docs :: Seen(docs[k].nodeId, docs[k].block, docs[k].ref, docs[k].owner, docs[k].wireFormat)
  }

  /** An upsert is one step of the indexer's view; queue operations are none. */
  lemma UpsertIsSee(docs: Anchors, data: AnchorInput, now: int, sha256: Bytes -> Digest)
    requires Accepts(data, sha256)
    ensures
      var op := OpOf(data, sha256);
      NormalizeCpsNodeId(data.nodeId).Ok?
      && var inserted := NewAnchor(op.key, NormalizeCpsNodeId(data.nodeId).value, data, now);
         Sight(Discovered(docs, op.key, inserted, data.wireFormat)) == See(Sight(docs), op)
  {
  }

  lemma QueueKeepsSight(docs: Anchors, key: string, until: int, w: StatusWrite)
    requires key in docs
    ensures Sight(docs[key := Claimed(docs[key], until)]) == Sight(docs)
    ensures Sight(Updated(docs, w)) == Sight(docs)
  {
  }

  /** The upsert a handled event must make: the node's payload in the state of the block, if the node is allowed. */
  ghost function EventInput(b: Block, e: Event, success: bool, s: Settings)
    : (r: Result<Option<AnchorInput>, HandlerError>)
    ensures r.Ok? && r.value.Some? ==> Accepts(r.value.value, s.decoders.sha256)
  {
    if !success || !s.enabled || !e.kind.PayloadSet? then Ok(None)
    else
      match SubtreeAnswer(b.cps, Numeric(e.kind.node), s.roots)
      case Err(error) => Err(Tree(error))
      case Ok(allowed) =>
        if !allowed then Ok(None)
        else if b.cps.None? then Err(Tree(StorageUnavailable))
        else
          match NodeOf(b.cps.value, e.kind.node)
          case Err(error) => Err(Tree(error))
          case Ok(node) =>
            if node.None? then Ok(None)
            else if !Accepts(InputOf(node.value, b.number, s.decoders), s.decoders.sha256) then Err(NotAccepted)
            else Ok(Some(InputOf(node.value, b.number, s.decoders)))
  }

  /** Which events queue an anchor, and with what: successful PayloadSet events of allowed nodes that have a payload;
      the payload's reference and the format the node's meta names, under the owner of its scope, in this block. */
  lemma EventQueues(b: Block, e: Event, success: bool, s: Settings)
    ensures
      var r := EventInput(b, e, success, s);
      && (r.Ok? && r.value.Some? ==>
            && success && s.enabled && e.kind.PayloadSet?
            && SubtreeAnswer(b.cps, Numeric(e.kind.node), s.roots) == Ok(true)
            && b.cps.Some? && CompleteLayout(b.cps.value) && e.kind.node in b.cps.value.payload.value
            && InputFits(r.value.value, b, e.kind.node, s))
      && (r == Ok(None) <==>
            || !success || !s.enabled || !e.kind.PayloadSet?
            || SubtreeAnswer(b.cps, Numeric(e.kind.node), s.roots) == Ok(false)
            || (SubtreeAnswer(b.cps, Numeric(e.kind.node), s.roots) == Ok(true) && b.cps.Some?
                && CompleteLayout(b.cps.value) && e.kind.node !in b.cps.value.payload.value))
  {
    if e.kind.PayloadSet? && b.cps.Some? && CompleteLayout(b.cps.value) {
      var n := NodeOf(b.cps.value, e.kind.node);
      NodeMeaning(b.cps.value, e.kind.node, if n.Ok? && n.value.Some? then n.value.value.owner else "");
    }
  }

  /** The input says what the state of the block says of the node. */
  ghost predicate InputFits(x: AnchorInput, b: Block, n: NodeId, s: Settings) {
    && b.cps.Some? && CompleteLayout(b.cps.value) && n in b.cps.value.payload.value
    && x.nodeId == Numeric(n) && x.block == b.number && x.ref == s.decoders.reference(b.cps.value.payload.value[n])
    && x.owner.Some? && x.owner.value != ""
    && OwnerResolved(b.cps.value.nodes.value, b.cps.value.scopes.value, n, Ok(x.owner))
    && x.wireFormat == Some(s.decoders.wireFormat(
         if n in b.cps.value.meta.value then Some(b.cps.value.meta.value[n]) else None))
  }

  /** What handling an event does to the discovered anchors. */
  ghost function Effect(view: View, input: Result<Option<AnchorInput>, HandlerError>, s: Settings): View
    requires input.Ok? && input.value.Some? ==> Accepts(input.value.value, s.decoders.sha256)
  {
    if input.Ok? && input.value.Some? then See(view, OpOf(input.value.value, s.decoders.sha256)) else view
  }

  /** The handler. A call that fails may or may not have reached the collection. */
  method Handle(
    b: Block, e: Event, success: bool, s: Settings, api: ChainApi, anchors: AnchorCollection, now: int)
    returns (r: Result<bool, HandlerError>)
    modifies api, anchors`docs, anchors`faults
    ensures
      var input := EventInput(b, e, success, s);
      && (Sight(anchors.docs) == Sight(old(anchors.docs))
        || Sight(anchors.docs) == Effect(Sight(old(anchors.docs)), input, s))
      && (r.Ok? ==>
        input.Ok? && r.value == input.value.Some? && Sight(anchors.docs) == Effect(Sight(old(anchors.docs)), input, s))
      && (r.Err? && !r.error.CallFails? ==> input == Err(r.error))
    ensures Faults(api, anchors) >= old(Faults(api, anchors))
    ensures Faults(api, anchors) == old(Faults(api, anchors)) ==> (r.Ok? <==> EventInput(b, e, success, s).Ok?)
  {
    if !success || !s.enabled || !e.kind.PayloadSet? { return Ok(false); }
    if * { api.faults := api.faults + 1; return Err(CallFails(Thrown)); }
    var allowed := IsCpsNodeInSubtreesAt(b.cps, Numeric(e.kind.node), s.roots);
    if allowed.Err? { return Err(Tree(allowed.error)); }
    if !allowed.value { return Ok(false); }
    if b.cps.None? { return Err(Tree(StorageUnavailable)); }
    var node := ReadSplitCpsNode(b.cps.value, e.kind.node);
    if node.Err? { return Err(Tree(node.error)); }
    if node.value.None? { return Ok(false); }
    var input := InputOf(node.value.value, b.number, s.decoders);
    if Accepts(input, s.decoders.sha256) { UpsertIsSee(anchors.docs, input, now, s.decoders.sha256); }
    var o := anchors.UpsertAnchor(input, now, s.decoders.sha256);
    if o.Fail? { return Err(CallFails(Thrown)); }
    return Ok(true);
  }

  // ---------- the events of a block ----------

  /** The extrinsic's outcome as its last status event tells; without one it counts as successful. */
  function ExtrinsicOutcome(events: seq<Event>, extrinsic: nat): bool {
    if events == [] then true
    else
      var e := events[|events| - 1];
      if e.extrinsic == Some(extrinsic) && (e.kind.ExtrinsicSuccess? || e.kind.ExtrinsicFailed?) then
        e.kind.ExtrinsicSuccess?
      else ExtrinsicOutcome(events[..|events| - 1], extrinsic)
  }

  /** The i-th event is a failure of the extrinsic, and no later one its success. */
  ghost predicate FailsAt(events: seq<Event>, i: int, extrinsic: nat) {
    && 0 <= i < |events| && events[i] == Event(Some(extrinsic), ExtrinsicFailed)
    && forall j :: i < j < |events| ==> events[j] != Event(Some(extrinsic), ExtrinsicSuccess)
  }

  /** An extrinsic fails exactly when its last status event says so. */
  lemma {:induction false} OutcomeMeaning(events: seq<Event>, extrinsic: nat)
    ensures !ExtrinsicOutcome(events, extrinsic) <==> exists i :: FailsAt(events, i, extrinsic)
    decreases |events|
  {
    if events != [] {
      var n := |events| - 1;
      var front, last := events[..n], events[n];
      OutcomeMeaning(front, extrinsic);
      if last == Event(Some(extrinsic), ExtrinsicFailed) {
        assert FailsAt(events, n, extrinsic);
      } else {
        forall i
          ensures FailsAt(events, i, extrinsic) <==>
                  FailsAt(front, i, extrinsic) && last != Event(Some(extrinsic), ExtrinsicSuccess)
        {
          if FailsAt(front, i, extrinsic) && last != Event(Some(extrinsic), ExtrinsicSuccess) {
            assert forall j :: i < j < n ==> front[j] == events[j];
          }
        }
      }
    }
  }

  method ExtrinsicOutcomes(events: seq<Event>) returns (m: map<nat, bool>)
    ensures forall x: nat :: (if x in m then m[x] else true) == ExtrinsicOutcome(events, x)
  {
    m := map[];
    for k := 0 to |events|
      invariant forall x: nat :: (if x in m then m[x] else true) == ExtrinsicOutcome(events[..k], x)
    {
      assert events[..k + 1][..k] == events[..k];
      var e := events[k];
      if e.extrinsic.Some? {
        if e.kind.ExtrinsicSuccess? {
          m := m[e.extrinsic.value := true];
        } else if e.kind.ExtrinsicFailed? {
          m := m[e.extrinsic.value := false];
        }
      }
    }
    assert events[..|events|] == events;
  }

  /** Events outside extrinsics always count as successful. */
  function EventOutcome(events: seq<Event>, e: Event): bool {
    e.extrinsic.None? || ExtrinsicOutcome(events, e.extrinsic.value)
  }

  /** An event is handled as failed exactly when it belongs to an extrinsic that failed. */
  lemma EventFails(events: seq<Event>, e: Event)
    ensures !EventOutcome(events, e) <==> e.extrinsic.Some? && exists i :: FailsAt(events, i, e.extrinsic.value)
  {
    if e.extrinsic.Some? { OutcomeMeaning(events, e.extrinsic.value); }
  }

  /** What the k-th event of the block must do. */
  ghost function EventAt(b: Block, k: nat, s: Settings): (r: Result<Option<AnchorInput>, HandlerError>)
    requires k < |b.events|
    ensures r.Ok? && r.value.Some? ==> Accepts(r.value.value, s.decoders.sha256)
  {
    EventInput(b, b.events[k], EventOutcome(b.events, b.events[k]), s)
  }

  ghost predicate Handled(b: Block, k: nat, s: Settings) {
    k <= |b.events| && forall i :: 0 <= i < k ==> EventAt(b, i, s).Ok?
  }

  /** The upserts of the first k events, in order, up to the first event that cannot be handled. */
  ghost function BlockInputs(b: Block, k: nat, s: Settings): seq<AnchorInput>
    requires k <= |b.events|
  {
    if k == 0 then []
    else if Handled(b, k, s) && EventAt(b, k - 1, s).value.Some? then
      BlockInputs(b, k - 1, s) + [EventAt(b, k - 1, s).value.value]
    else BlockInputs(b, k - 1, s)
  }

  /** Every upsert of a block comes from the state of one node in it. */
  lemma {:induction false} InputsComeFromNodes(b: Block, k: nat, s: Settings, i: nat) returns (n: NodeId)
    requires k <= |b.events| && i < |BlockInputs(b, k, s)|
    ensures b.cps.Some? && NodeOf(b.cps.value, n).Ok? && NodeOf(b.cps.value, n).value.Some?
    ensures BlockInputs(b, k, s)[i] == InputOf(NodeOf(b.cps.value, n).value.value, b.number, s.decoders)
    ensures Accepts(BlockInputs(b, k, s)[i], s.decoders.sha256)
  {
    if i < |BlockInputs(b, k - 1, s)| {
      n := InputsComeFromNodes(b, k - 1, s, i);
    } else {
      n := b.events[k - 1].kind.node;
    }
  }

  /** Within a block, upserts with the same key are the same. */
  lemma SameKeySameInput(b: Block, k: nat, s: Settings, i: nat, j: nat)
    requires k <= |b.events| && i < |BlockInputs(b, k, s)| && j < |BlockInputs(b, k, s)|
    ensures
      var x, y, h := BlockInputs(b, k, s)[i], BlockInputs(b, k, s)[j], s.decoders.sha256;
      Accepts(x, h) && Accepts(y, h) && (OpOf(x, h).key == OpOf(y, h).key ==> x == y)
  {
    var n := InputsComeFromNodes(b, k, s, i);
    var m := InputsComeFromNodes(b, k, s, j);
    var x, y := BlockInputs(b, k, s)[i], BlockInputs(b, k, s)[j];
    SourceKeyInjective(x.nodeId, x.ref, y.nodeId, y.ref, s.decoders.sha256);
    SourceKeyParts(x.nodeId, x.ref, s.decoders.sha256);
    SourceKeyParts(y.nodeId, y.ref, s.decoders.sha256);
    NormalizeInjective(x.nodeId, y.nodeId);
  }

  ghost function BlockOps(b: Block, k: nat, s: Settings): seq<Op>
    requires k <= |b.events|
  {
    if k == 0 then []
    else if Handled(b, k, s) && EventAt(b, k - 1, s).value.Some? then
      BlockOps(b, k - 1, s) + [OpOf(EventAt(b, k - 1, s).value.value, s.decoders.sha256)]
    else BlockOps(b, k - 1, s)
  }

  lemma {:induction false} OpsOfInputs(b: Block, k: nat, s: Settings)
    requires k <= |b.events|
    ensures |BlockOps(b, k, s)| == |BlockInputs(b, k, s)|
    ensures forall i :: 0 <= i < |BlockOps(b, k, s)| ==>
      Accepts(BlockInputs(b, k, s)[i], s.decoders.sha256)
        && BlockOps(b, k, s)[i] == OpOf(BlockInputs(b, k, s)[i], s.decoders.sha256)
  {
    if k > 0 { OpsOfInputs(b, k - 1, s); }
  }

  lemma BlockKeyDecides(b: Block, s: Settings)
    ensures KeyDecidesOp(BlockOps(b, |b.events|, s))
  {
    var ops := BlockOps(b, |b.events|, s);
    forall i, j | 0 <= i < |ops| && 0 <= j < |ops| && ops[i].key == ops[j].key
      ensures ops[i] == ops[j]
    {
      OpsOfInputs(b, |b.events|, s);
      SameKeySameInput(b, |b.events|, s, i, j);
    }
  }

  /** The chain as the indexer meets it. */
  ghost function ChainOf(blocks: nat -> Block, s: Settings): Chain {
    BlockIndexer.Chain.Chain(
      (n: nat) => BlockOps(blocks(n), |blocks(n).events|, s),
      (n: nat) => Handled(blocks(n), |blocks(n).events|, s))
  }

  /** The indexer's replays are harmless on every chain. */
  lemma ChainIsConsistent(blocks: nat -> Block, s: Settings)
    ensures Consistent(ChainOf(blocks, s))
  {
    forall n: nat
      ensures KeyDecidesOp(ChainOf(blocks, s).ops(n))
    {
      BlockKeyDecides(blocks(n), s);
    }
  }

  lemma HandledOneMore(b: Block, k: nat, s: Settings)
    requires k < |b.events| && Handled(b, k, s)
    ensures Handled(b, k + 1, s) <==> EventAt(b, k, s).Ok?
  {
  }

  lemma OneMoreEvent(b: Block, k: nat, s: Settings, view: View)
    requires k < |b.events| && Handled(b, k, s)
    ensures SeeAll(view, BlockOps(b, k + 1, s)) == Effect(SeeAll(view, BlockOps(b, k, s)), EventAt(b, k, s), s)
    ensures EventAt(b, k, s).Ok? ==> Handled(b, k + 1, s)
  {
    HandledOneMore(b, k, s);
    if EventAt(b, k, s).Ok? && EventAt(b, k, s).value.Some? {
      SeeOneMore(view, BlockOps(b, k, s), OpOf(EventAt(b, k, s).value.value, s.decoders.sha256));
    }
  }

  lemma SeeOneMore(view: View, ops: seq<Op>, op: Op)
    ensures SeeAll(view, ops + [op]) == See(SeeAll(view, ops), op)
  {
  }

  /** What any attempt has done of a block is the beginning of what the block does. */
  lemma {:induction false} AttemptsArePrefixes(b: Block, k: nat, m: nat, s: Settings)
    requires k <= m <= |b.events|
    ensures BlockOps(b, k, s) <= BlockOps(b, m, s)
    decreases m
  {
    if k < m { AttemptsArePrefixes(b, k, m - 1, s); }
  }

  /** The operations of the block, as the indexer's chain has them. */
  ghost function AllOps(b: Block, s: Settings): seq<Op> {
    BlockOps(b, |b.events|, s)
  }

  /** How many operations of the block took effect when its i-th event failed. */
  lemma StoppedAt(b: Block, i: nat, s: Settings, before: View, after: View) returns (m: nat)
    requires i < |b.events| && Handled(b, i, s)
    requires
      || after == SeeAll(before, BlockOps(b, i, s))
      || after == Effect(SeeAll(before, BlockOps(b, i, s)), EventAt(b, i, s), s)
    ensures m <= |AllOps(b, s)| && after == SeeAll(before, AllOps(b, s)[..m])
  {
    OneMoreEvent(b, i, s, before);
    m := OpsSoFar(b, if after == SeeAll(before, BlockOps(b, i, s)) then i else i + 1, s);
  }

  lemma OpsSoFar(b: Block, k: nat, s: Settings) returns (m: nat)
    requires k <= |b.events|
    ensures m <= |AllOps(b, s)| && AllOps(b, s)[..m] == BlockOps(b, k, s)
  {
    AttemptsArePrefixes(b, k, |b.events|, s);
    m := |BlockOps(b, k, s)|;
  }

  lemma StoppedAtEnd(b: Block, s: Settings) returns (m: nat)
    ensures m == |AllOps(b, s)| && AllOps(b, s)[..m] == BlockOps(b, |b.events|, s)
  {
    m := |AllOps(b, s)|;
  }

  /** An event that was handled leaves the operations of one event more. */
  lemma EventHandled(b: Block, i: nat, s: Settings, before: View)
    requires i < |b.events| && Handled(b, i, s)
    ensures EventAt(b, i, s).Ok? ==>
              && Handled(b, i + 1, s)
              && Effect(SeeAll(before, BlockOps(b, i, s)), EventAt(b, i, s), s) == SeeAll(before, BlockOps(b, i + 1, s))
  {
    OneMoreEvent(b, i, s, before);
  }

  /** One block: wherever it stops, the first m of the operations that the indexer's chain has for it took effect, and
      nothing else; it passes only if the block can be completed, and then all of them did. */
  method ProcessBlock(b: Block, s: Settings, api: ChainApi, anchors: AnchorCollection, now: int)
    returns (o: Outcome<HandlerError>, ghost m: nat)
    modifies api, anchors`docs, anchors`faults
    ensures m <= |AllOps(b, s)| && Sight(anchors.docs) == SeeAll(Sight(old(anchors.docs)), AllOps(b, s)[..m])
    ensures o.Pass? ==> m == |AllOps(b, s)| && Handled(b, |b.events|, s)
    ensures Faults(api, anchors) >= old(Faults(api, anchors))
    ensures Faults(api, anchors) == old(Faults(api, anchors)) ==> (o.Pass? <==> Handled(b, |b.events|, s))
  {
    ghost var before := Sight(anchors.docs);
    m := 0;
    if * { api.faults := api.faults + 1; return Fail(CallFails(Thrown)), 0; }
    var outcomes := ExtrinsicOutcomes(b.events);
    for i := 0 to |b.events|
      invariant Handled(b, i, s) && Sight(anchors.docs) == SeeAll(before, BlockOps(b, i, s))
      invariant Faults(api, anchors) >= old(Faults(api, anchors))
    {
      var e := b.events[i];
      var success := e.extrinsic.None? || e.extrinsic.value !in outcomes || outcomes[e.extrinsic.value];
      assert success == EventOutcome(b.events, e);
      EventHandled(b, i, s, before);
      var r := Handle(b, e, success, s, api, anchors, now);
      if r.Err? {
        m := StoppedAt(b, i, s, before, Sight(anchors.docs));
        return Fail(r.error), m;
      }
    }
    m := StoppedAtEnd(b, s);
    return Pass, m;
  }

  // ---------- the snapshot ----------

  ghost function NodeInputs(nodes: seq<NodeState>, number: nat, s: Settings): (inputs: seq<AnchorInput>)
    ensures |inputs| == |nodes|
  {
    seq(|nodes|, i requires 0 <= i < |nodes| => InputOf(nodes[i], number, s.decoders))
  }

  /** The discovered anchors after the inputs, as far as the collection accepts them. */
  ghost function SeeInputs(view: View, inputs: seq<AnchorInput>, s: Settings): View {
    if inputs == [] then view
    else
      SeeInput(SeeInputs(view, inputs[..|inputs| - 1], s), inputs[|inputs| - 1], s)
  }

  ghost function SeeInput(view: View, x: AnchorInput, s: Settings): View {
    if Accepts(x, s.decoders.sha256) then See(view, OpOf(x, s.decoders.sha256)) else view
  }

  lemma SeeNextInput(view: View, inputs: seq<AnchorInput>, i: nat, s: Settings)
    requires i < |inputs|
    ensures SeeInputs(view, inputs[..i + 1], s) == SeeInput(SeeInputs(view, inputs[..i], s), inputs[i], s)
  {
    assert inputs[..i + 1][..i] == inputs[..i];
  }

  /** Queues one node; `done` tells whether the upsert took effect. */
  method QueueNode(x: AnchorInput, s: Settings, api: ChainApi, anchors: AnchorCollection, now: int)
    returns (o: Outcome<HandlerError>, ghost done: bool)
    modifies api, anchors`docs, anchors`faults
    ensures Sight(anchors.docs) == if done then SeeInput(Sight(old(anchors.docs)), x, s) else Sight(old(anchors.docs))
    ensures o.Pass? ==> done
    ensures Faults(api, anchors) >= old(Faults(api, anchors))
    ensures Faults(api, anchors) == old(Faults(api, anchors)) ==> (o.Pass? <==> Accepts(x, s.decoders.sha256))
    ensures o.Pass? ==> Accepts(x, s.decoders.sha256)
  {
    ghost var before := anchors.docs;
    if Accepts(x, s.decoders.sha256) { UpsertIsSee(anchors.docs, x, now, s.decoders.sha256); }
    var queued := anchors.UpsertAnchor(x, now, s.decoders.sha256);
    if queued.Fail? { return Fail(CallFails(Thrown)), anchors.docs != before; }
    return Pass, true;
  }

  ghost predicate AllAccepted(inputs: seq<AnchorInput>, s: Settings) {
    forall i :: 0 <= i < |inputs| ==> Accepts(inputs[i], s.decoders.sha256)
  }

  /** Queues what the walk found; stops at the first upsert that fails. */
  method QueueNodes(
    nodes: seq<NodeState>, number: nat, s: Settings, api: ChainApi, anchors: AnchorCollection, now: int)
    returns (r: Result<nat, HandlerError>, ghost k: nat)
    modifies api, anchors`docs, anchors`faults
    ensures k <= |nodes|
              && Sight(anchors.docs) == SeeInputs(Sight(old(anchors.docs)), NodeInputs(nodes, number, s)[..k], s)
    ensures r.Ok? ==> r.value == k == |nodes|
    ensures Faults(api, anchors) >= old(Faults(api, anchors))
    ensures Faults(api, anchors) == old(Faults(api, anchors)) && AllAccepted(NodeInputs(nodes, number, s), s) ==> r.Ok?
  {
    var queued := 0;
    ghost var inputs := NodeInputs(nodes, number, s);
    k := 0;
    for i := 0 to |nodes|
      invariant queued == k == i && Faults(api, anchors) >= old(Faults(api, anchors))
      invariant Sight(anchors.docs) == SeeInputs(Sight(old(anchors.docs)), inputs[..i], s)
    {
      var o;
      ghost var done;
      SeeNextInput(Sight(old(anchors.docs)), inputs, i, s);
      o, done := QueueNode(InputOf(nodes[i], number, s.decoders), s, api, anchors, now);
      if o.Fail? { return Err(o.error), if done then i + 1 else i; }
      queued, k := queued + 1, k + 1;
    }
    assert inputs[..|nodes|] == inputs;
    return Ok(queued), k;
  }

  /** The start-up snapshot of one finalised state. */
  method Snapshot(b: Block, ids: seq<NodeIdInput>, s: Settings, api: ChainApi, anchors: AnchorCollection, now: int)
    returns (r: Result<nat, HandlerError>, ghost roots: seq<NodeId>, ghost visited: set<NodeId>,
      ghost nodes: seq<NodeState>, ghost k: nat)
    modifies api, anchors`docs, anchors`faults
    ensures k <= |nodes|
              && Sight(anchors.docs) == SeeInputs(Sight(old(anchors.docs)), NodeInputs(nodes, b.number, s)[..k], s)
    ensures r.Ok? ==> r.value == k == |nodes|
    ensures r.Ok? && ids != [] ==>
      && b.cps.Some? && b.cps.value.children.Some? && RootsAre(ids, roots)
      && (forall n :: n in visited <==> Reachable(b.cps.value.children.value, AsSet(roots), n))
      && ReadOnce(b.cps.value, b.cps.value.children.value, AsSet(roots), visited, nodes)
    ensures Faults(api, anchors) >= old(Faults(api, anchors))
    ensures Faults(api, anchors) == old(Faults(api, anchors)) && r.Err? ==>
              r.error.Tree? || !AllAccepted(NodeInputs(nodes, b.number, s), s)
  {
    roots, visited, nodes, k := [], {}, [], 0;
    if ids == [] { return Ok(0), [], {}, [], 0; }
    if * { api.faults := api.faults + 1; return Err(CallFails(Thrown)), [], {}, [], 0; }
    var found;
    found, roots, visited := ReadCpsSubtreesAt(b.cps, ids);
    if found.Err? { return Err(Tree(found.error)), roots, visited, [], 0; }
    nodes := found.value;
    r, k := QueueNodes(found.value, b.number, s, api, anchors, now);
  }

  /** Whatever the handler would queue for an event of a block, the snapshot of that block queues too. */
  lemma SnapshotCoversEvents(
      b: Block, e: Event, s: Settings, roots: seq<NodeId>, visited: set<NodeId>, nodes: seq<NodeState>)
    returns (i: nat)
    requires b.cps.Some? && b.cps.value.children.Some? && b.cps.value.nodes.Some?
              && InverseOf(b.cps.value.children.value, b.cps.value.nodes.value)
    requires s.roots == AsSet(roots) && roots != []
    requires forall n :: n in visited <==> Reachable(b.cps.value.children.value, s.roots, n)
    requires ReadOnce(b.cps.value, b.cps.value.children.value, s.roots, visited, nodes)
    requires EventInput(b, e, true, s).Ok? && EventInput(b, e, true, s).value.Some?
    ensures i < |nodes| && EventInput(b, e, true, s) == Ok(Some(InputOf(nodes[i], b.number, s.decoders)))
  {
    var n, children := e.kind.node, b.cps.value.children.value;
    ParseDecimal(n);
    assert roots[0] in s.roots;
    if n in s.roots {
      assert n in Within(children, s.roots, 0);
    } else {
      RealtimeAgreesWithSnapshot(children, b.cps.value.nodes.value, s.roots, n,
        WalkAnswer(b.cps.value.nodes.value, s.roots, n));
    }
    assert Reachable(children, s.roots, n);
    i :| 0 <= i < |nodes| && nodes[i].nodeId == n;
  }
}
