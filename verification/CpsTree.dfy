/** The CPS pallet as a graph: the snapshot's walk down over children and the realtime walk up over parents. */
module CpsTree {
  import opened Wrappers
  import opened CpsKeys

  const MAX_CPS_TREE_DEPTH: nat := 32

  /** A node id. The original keeps its canonical decimal text; the two correspond one to one
      (`CpsKeys.NormalizeInjective`). */
  type NodeId = n: nat | n <= MAX_CPS_NODE_ID
  type ScopeId = nat

  datatype NodeInfo = NodeInfo(parent: Option<NodeId>, scope: Option<ScopeId>)

  /** The state of the pallet at one block; an absent map is a storage entry the runtime does not have. */
  datatype CpsState = CpsState(
    nodes: Option<map<NodeId, NodeInfo>>, scopes: Option<map<ScopeId, string>>, payload: Option<map<NodeId, Bytes>>,
    meta: Option<map<NodeId, Bytes>>, children: Option<map<NodeId, seq<NodeId>>>)

  datatype NodeState = NodeState(nodeId: NodeId, owner: string, meta: Option<Bytes>, payload: Bytes)

  datatype TreeError = StorageUnavailable | IncompleteLayout | BadNodeId(code: KeyError) | OwnerNotFound | DepthExceeded

  function NodeIdOf(id: NodeIdInput): Result<NodeId, TreeError> {
    var text := NormalizeCpsNodeId(id);
    if text.Err? then Err(BadNodeId(text.error)) else Ok(Parse(text.value))
  }

  // ---------- the walk up ----------

  /** The node k parent steps above n, if the chain is that long. */
  function Ancestor(nodes: map<NodeId, NodeInfo>, n: NodeId, k: nat): Option<NodeId> {
    if k == 0 then Some(n)
    else
      var below := Ancestor(nodes, n, k - 1);
      if below.Some? && below.value in nodes then nodes[below.value].parent else None
  }

  lemma {:induction false} ChainsEndOnce(nodes: map<NodeId, NodeInfo>, n: NodeId, i: nat, k: nat)
    requires i <= k && Ancestor(nodes, n, k).Some?
    ensures Ancestor(nodes, n, i).Some?
  {
    if i < k { ChainsEndOnce(nodes, n, i, k - 1); }
  }

  lemma {:induction false} AncestorFromParent(nodes: map<NodeId, NodeInfo>, n: NodeId, k: nat)
    requires n in nodes && nodes[n].parent.Some?
    ensures Ancestor(nodes, n, k + 1) == Ancestor(nodes, nodes[n].parent.value, k)
  {
    assert Ancestor(nodes, n, 0) == Some(n);
    if k > 0 { AncestorFromParent(nodes, n, k - 1); }
  }

  /** A root is at most k parent steps above the node. */
  ghost predicate RootWithin(nodes: map<NodeId, NodeInfo>, roots: set<NodeId>, n: NodeId, k: nat) {
    exists i: nat :: i <= k && Ancestor(nodes, n, i).Some? && Ancestor(nodes, n, i).value in roots
  }

  /** What the walk up from n must answer: yes when a root is near enough, no when the chain ends first. */
  ghost function WalkAnswer(nodes: map<NodeId, NodeInfo>, roots: set<NodeId>, n: NodeId): Result<bool, TreeError> {
    if RootWithin(nodes, roots, n, MAX_CPS_TREE_DEPTH + 1) then Ok(true)
    else if Ancestor(nodes, n, MAX_CPS_TREE_DEPTH + 1).None? then Ok(false)
    else Err(DepthExceeded)
  }

  /** The whole answer. Without roots everything is allowed, and a root is allowed without reading the chain. */
  ghost function SubtreeAnswer(cps: Option<CpsState>, id: NodeIdInput, roots: set<NodeId>): Result<bool, TreeError> {
    var n :- NodeIdOf(id);
    if roots == {} || n in roots then Ok(true)
    else if cps.None? then Err(StorageUnavailable)
    else if cps.value.nodes.None? then Err(IncompleteLayout)
    else WalkAnswer(cps.value.nodes.value, roots, n)
  }

  method IsCpsNodeInSubtreesAt(cps: Option<CpsState>, id: NodeIdInput, roots: set<NodeId>)
    returns (r: Result<bool, TreeError>)
    ensures r == SubtreeAnswer(cps, id, roots)
  {
    var n :- NodeIdOf(id);
    if roots == {} || n in roots { return Ok(true); }
    if cps.None? { return Err(StorageUnavailable); }
    if cps.value.nodes.None? { return Err(IncompleteLayout); }
    var nodes := cps.value.nodes.value;
    var current := n;
    for depth := 0 to MAX_CPS_TREE_DEPTH + 1
      invariant Ancestor(nodes, n, depth) == Some(current)
      invariant !RootWithin(nodes, roots, n, depth)
    {
      if current !in nodes || nodes[current].parent.None? {
        NoRootAbove(nodes, roots, n, depth);
        return Ok(false);
      }
      current := nodes[current].parent.value;
      assert Ancestor(nodes, n, depth + 1) == Some(current);
      if current in roots { return Ok(true); }
    }
    return Err(DepthExceeded);
  }

  lemma NoRootAbove(nodes: map<NodeId, NodeInfo>, roots: set<NodeId>, n: NodeId, depth: nat)
    requires !RootWithin(nodes, roots, n, depth) && Ancestor(nodes, n, depth + 1).None?
    ensures forall k :: k >= depth ==> !RootWithin(nodes, roots, n, k)
    ensures forall k :: k > depth ==> Ancestor(nodes, n, k).None?
  {
    forall k | k > depth
      ensures Ancestor(nodes, n, k).None?
    {
      if Ancestor(nodes, n, k).Some? { ChainsEndOnce(nodes, n, depth + 1, k); }
    }
  }

  // ---------- owners ----------

  /** The nearest node above n, itself included, that names a scope is k steps up. */
  ghost predicate NearestScope(nodes: map<NodeId, NodeInfo>, n: NodeId, k: nat, scope: ScopeId) {
    && HasScope(nodes, n, k) && nodes[Ancestor(nodes, n, k).value].scope == Some(scope)
    && forall i :: 0 <= i < k ==> !HasScope(nodes, n, i)
  }

  ghost predicate HasScope(nodes: map<NodeId, NodeInfo>, n: NodeId, k: nat) {
    var a := Ancestor(nodes, n, k);
    a.Some? && a.value in nodes && nodes[a.value].scope.Some?
  }

  /** What resolving an owner must return: the owner of the nearest scope, if one is near enough. */
  ghost predicate OwnerResolved(
      nodes: map<NodeId, NodeInfo>, scopes: map<ScopeId, string>, n: NodeId, r: Result<Option<string>, TreeError>)
  {
    || (exists k: nat, scope :: k <= MAX_CPS_TREE_DEPTH && NearestScope(nodes, n, k, scope)
          && r == Ok(if scope in scopes then Some(scopes[scope]) else None))
    || ((forall i :: 0 <= i <= MAX_CPS_TREE_DEPTH ==> !HasScope(nodes, n, i))
        && r == if Ancestor(nodes, n, MAX_CPS_TREE_DEPTH + 1).Some? then Err(DepthExceeded) else Ok(None))
  }

  /** The owner is well defined: only one result resolves it. */
  lemma OwnerIsUnique(
    nodes: map<NodeId, NodeInfo>, scopes: map<ScopeId, string>, n: NodeId,
    r: Result<Option<string>, TreeError>, q: Result<Option<string>, TreeError>)
    requires OwnerResolved(nodes, scopes, n, r) && OwnerResolved(nodes, scopes, n, q)
    ensures r == q
  {
  }

  lemma {:induction false} OwnerExists(nodes: map<NodeId, NodeInfo>, scopes: map<ScopeId, string>, n: NodeId, k: nat)
    returns (r: Result<Option<string>, TreeError>)
    requires k <= MAX_CPS_TREE_DEPTH + 1 && forall i :: 0 <= i < k ==> !HasScope(nodes, n, i)
    ensures OwnerResolved(nodes, scopes, n, r)
    decreases MAX_CPS_TREE_DEPTH + 1 - k
  {
    if k > MAX_CPS_TREE_DEPTH {
      r := if Ancestor(nodes, n, MAX_CPS_TREE_DEPTH + 1).Some? then Err(DepthExceeded) else Ok(None);
    } else if HasScope(nodes, n, k) {
      var scope := nodes[Ancestor(nodes, n, k).value].scope.value;
      assert NearestScope(nodes, n, k, scope);
      r := Ok(if scope in scopes then Some(scopes[scope]) else None);
    } else {
      r := OwnerExists(nodes, scopes, n, k + 1);
    }
  }

  ghost function OwnerOf(nodes: map<NodeId, NodeInfo>, scopes: map<ScopeId, string>, n: NodeId)
    : (r: Result<Option<string>, TreeError>)
    ensures OwnerResolved(nodes, scopes, n, r)
  {
    assert exists r :: OwnerResolved(nodes, scopes, n, r) by { var r := OwnerExists(nodes, scopes, n, 0); }
    var r :| OwnerResolved(nodes, scopes, n, r);
    r
  }

  method ResolveScopeOwner(nodes: map<NodeId, NodeInfo>, scopes: map<ScopeId, string>, n: NodeId)
    returns (r: Result<Option<string>, TreeError>)
    ensures OwnerResolved(nodes, scopes, n, r)
  {
    var current := n;
    for depth := 0 to MAX_CPS_TREE_DEPTH + 1
      invariant Ancestor(nodes, n, depth) == Some(current)
      invariant forall i :: 0 <= i < depth ==> !HasScope(nodes, n, i)
    {
      if current !in nodes {
        NoScopeAbove(nodes, n, depth);
        return Ok(None);
      }
      var info := nodes[current];
      if info.scope.Some? {
        assert NearestScope(nodes, n, depth, info.scope.value);
        return Ok(if info.scope.value in scopes then Some(scopes[info.scope.value]) else None);
      }
      if info.parent.None? {
        NoScopeAbove(nodes, n, depth);
        return Ok(None);
      }
      current := info.parent.value;
    }
    return Err(DepthExceeded);
  }

  lemma NoScopeAbove(nodes: map<NodeId, NodeInfo>, n: NodeId, depth: nat)
    requires Ancestor(nodes, n, depth + 1).None? && !HasScope(nodes, n, depth)
    ensures forall k :: k >= depth ==> !HasScope(nodes, n, k)
    ensures forall k :: k > depth ==> Ancestor(nodes, n, k).None?
  {
    forall k | k > depth
      ensures Ancestor(nodes, n, k).None?
    {
      if Ancestor(nodes, n, k).Some? { ChainsEndOnce(nodes, n, depth + 1, k); }
    }
  }

  // ---------- one node ----------

  predicate CompleteLayout(st: CpsState) {
    st.payload.Some? && st.meta.Some? && st.nodes.Some? && st.scopes.Some?
  }

  /** What reading a node returns: nothing without a payload, and otherwise the payload under the owner of its scope. */
  ghost function NodeOf(st: CpsState, n: NodeId): (r: Result<Option<NodeState>, TreeError>)
    ensures r.Ok? && r.value.Some? ==> r.value.value.nodeId == n
  {
    if !CompleteLayout(st) then Err(IncompleteLayout)
    else if n !in st.payload.value then Ok(None)
    else
      match OwnerOf(st.nodes.value, st.scopes.value, n)
      case Err(e) => Err(e)
      case Ok(o) =>
        if o.None? || o.value == "" then Err(OwnerNotFound)
        else
          var meta := if n in st.meta.value then Some(st.meta.value[n]) else None;
          Ok(Some(NodeState(n, o.value, meta, st.payload.value[n])))
  }

  /** When a node is read, what of it, and why not: its owner is that of its nearest scope. */
  lemma NodeMeaning(st: CpsState, n: NodeId, owner: string)
    requires CompleteLayout(st)
    ensures
      var nodes, scopes, r := st.nodes.value, st.scopes.value, NodeOf(st, n);
      && (r == Ok(None) <==> n !in st.payload.value)
      && (r.Ok? && r.value.Some? && r.value.value.owner == owner <==>
            n in st.payload.value && owner != "" && OwnerResolved(nodes, scopes, n, Ok(Some(owner))))
      && (r.Ok? && r.value.Some? ==>
            && r.value.value.nodeId == n && r.value.value.payload == st.payload.value[n]
            && (r.value.value.meta.Some? <==> n in st.meta.value)
            && (n in st.meta.value ==> r.value.value.meta == Some(st.meta.value[n])))
      && (r == Err(OwnerNotFound) <==>
            && n in st.payload.value
            && (OwnerResolved(nodes, scopes, n, Ok(None)) || OwnerResolved(nodes, scopes, n, Ok(Some("")))))
  {
    var nodes, scopes := st.nodes.value, st.scopes.value;
    forall r | OwnerResolved(nodes, scopes, n, r) ensures r == OwnerOf(nodes, scopes, n) {
      OwnerIsUnique(nodes, scopes, n, r, OwnerOf(nodes, scopes, n));
    }
  }

  method ReadSplitCpsNode(st: CpsState, n: NodeId) returns (r: Result<Option<NodeState>, TreeError>)
    ensures r == NodeOf(st, n)
  {
    if !CompleteLayout(st) { return Err(IncompleteLayout); }
    if n !in st.payload.value { return Ok(None); }
    var owner := ResolveScopeOwner(st.nodes.value, st.scopes.value, n);
    OwnerIsUnique(st.nodes.value, st.scopes.value, n, owner, OwnerOf(st.nodes.value, st.scopes.value, n));
    if owner.Err? { return Err(owner.error); }
    if owner.value.None? || owner.value.value == "" { return Err(OwnerNotFound); }
    var meta := if n in st.meta.value then Some(st.meta.value[n]) else None;
    return Ok(Some(NodeState(n, owner.value.value, meta, st.payload.value[n])));
  }

  // ---------- the walk down ----------

  function ChildrenOf(children: map<NodeId, seq<NodeId>>, n: NodeId): seq<NodeId> {
    if n in children then children[n] else []
  }

  /** The nodes at most d child steps below a root. */
  ghost function Within(children: map<NodeId, seq<NodeId>>, roots: set<NodeId>, d: nat): set<NodeId> {
    if d == 0 then roots
    else
      var above := Within(children, roots, d - 1);
      above + set m, w | m in above && w in ChildrenOf(children, m) :: w
  }

  predicate IsChild(children: map<NodeId, seq<NodeId>>, m: NodeId, w: NodeId) {
    w in ChildrenOf(children, m)
  }

  ghost predicate Near(children: map<NodeId, seq<NodeId>>, roots: set<NodeId>, n: NodeId, d: nat) {
    n in Within(children, roots, d)
  }

  ghost predicate Reachable(children: map<NodeId, seq<NodeId>>, roots: set<NodeId>, n: NodeId) {
    exists d: nat :: n in Within(children, roots, d)
  }

  lemma {:induction false} WithinGrows(children: map<NodeId, seq<NodeId>>, roots: set<NodeId>, d: nat, e: nat)
    requires d <= e
    ensures Within(children, roots, d) <= Within(children, roots, e)
  {
    if d < e { WithinGrows(children, roots, d, e - 1); }
  }

  lemma ChildWithin(children: map<NodeId, seq<NodeId>>, roots: set<NodeId>, d: nat, m: NodeId, w: NodeId)
    requires m in Within(children, roots, d) && w in ChildrenOf(children, m)
    ensures w in Within(children, roots, d + 1)
  {
  }

  /** Everything the walk can ever put in its queue. */
  ghost function Universe(children: map<NodeId, seq<NodeId>>, roots: set<NodeId>): set<NodeId> {
    roots + set m, w | m in children && w in children[m] :: w
  }

  lemma {:induction false} WithinUniverse(children: map<NodeId, seq<NodeId>>, roots: set<NodeId>, d: nat)
    ensures Within(children, roots, d) <= Universe(children, roots)
  {
    if d > 0 { WithinUniverse(children, roots, d - 1); }
  }

  ghost predicate NonDecreasing(depths: seq<nat>) {
    forall i, j :: 0 <= i < j < |depths| ==> depths[i] <= depths[j]
  }

  ghost predicate QueuedBy(queue: seq<NodeId>, depths: seq<nat>, n: NodeId, d: nat)
    requires |queue| == |depths|
  {
    exists k :: 0 <= k < |queue| && queue[k] == n && depths[k] <= d
  }

  /** Everything queued is tagged with a depth at which it lies below the roots; tags never decrease, and span two
      levels at most from the cursor on. */
  ghost predicate Tagged(
      children: map<NodeId, seq<NodeId>>, roots: set<NodeId>, queue: seq<NodeId>, depths: seq<nat>, cursor: nat)
  {
    && |queue| == |depths| && cursor <= |queue|
    && NonDecreasing(depths)
    && (forall i :: 0 <= i < |queue| ==> queue[i] in Within(children, roots, depths[i]))
    && (cursor < |queue| ==> forall i :: 0 <= i < |queue| ==> depths[i] <= depths[cursor] + 1)
  }

  /** What was visited is what precedes the cursor, and its children are queued at most one step deeper. */
  ghost predicate Expanded(
    children: map<NodeId, seq<NodeId>>, roots: set<NodeId>, queue: seq<NodeId>, depths: seq<nat>,
    cursor: nat, visited: set<NodeId>)
    requires |queue| == |depths| && cursor <= |queue|
  {
    && (forall n :: n in visited <==> n in queue[..cursor])
    && (forall n :: n in roots ==> QueuedBy(queue, depths, n, 0))
    && (forall m, w, d: nat :: m in visited && Near(children, roots, m, d) && IsChild(children, m, w) ==>
      QueuedBy(queue, depths, w, d + 1))
  }

  lemma QueuedBelowIsVisited(queue: seq<NodeId>, depths: seq<nat>, cursor: nat, n: NodeId, d: nat)
    requires |queue| == |depths| && cursor <= |queue| && QueuedBy(queue, depths, n, d)
    requires cursor < |queue| ==> d < depths[cursor]
    requires NonDecreasing(depths)
    ensures n in queue[..cursor]
  {
  }

  lemma NextLevelComplete(
    children: map<NodeId, seq<NodeId>>, roots: set<NodeId>, queue: seq<NodeId>, depths: seq<nat>,
    cursor: nat, visited: set<NodeId>, d: nat, n: NodeId)
    requires |queue| == |depths| && cursor <= |queue| && NonDecreasing(depths)
    requires Expanded(children, roots, queue, depths, cursor, visited)
    requires cursor < |queue| ==> d + 1 < depths[cursor]
    requires Within(children, roots, d) <= visited && n in Within(children, roots, d + 1)
    ensures n in visited
  {
    if n !in Within(children, roots, d) {
      var m := ParentIn(children, roots, d, n);
      assert QueuedBy(queue, depths, n, d + 1);
      QueuedBelowIsVisited(queue, depths, cursor, n, d + 1);
    }
  }

  /** Once the walk reaches tags above d, it has visited everything at most d steps below a root. */
  lemma {:induction false} LevelsComplete(
    children: map<NodeId, seq<NodeId>>, roots: set<NodeId>, queue: seq<NodeId>, depths: seq<nat>,
    cursor: nat, visited: set<NodeId>, d: nat)
    requires |queue| == |depths| && cursor <= |queue| && NonDecreasing(depths)
    requires Expanded(children, roots, queue, depths, cursor, visited)
    requires cursor < |queue| ==> d < depths[cursor]
    ensures Within(children, roots, d) <= visited
    decreases d
  {
    if d > 0 { LevelsComplete(children, roots, queue, depths, cursor, visited, d - 1); }
    forall n | n in Within(children, roots, d)
      ensures n in visited
    {
      if d == 0 {
        QueuedBelowIsVisited(queue, depths, cursor, n, 0);
      } else {
        NextLevelComplete(children, roots, queue, depths, cursor, visited, d - 1, n);
      }
    }
  }

  lemma ParentIn(children: map<NodeId, seq<NodeId>>, roots: set<NodeId>, d: nat, n: NodeId) returns (m: NodeId)
    requires n in Within(children, roots, d + 1) && n !in Within(children, roots, d)
    ensures m in Within(children, roots, d) && Near(children, roots, m, d) && IsChild(children, m, n)
  {
    m :| m in Within(children, roots, d) && n in ChildrenOf(children, m);
  }

  /** A node reached for the first time carries the least tag it can: everything visited before it is at least as
      near. */
  lemma FirstVisitIsNearest(
    children: map<NodeId, seq<NodeId>>, roots: set<NodeId>, queue: seq<NodeId>, depths: seq<nat>,
    cursor: nat, visited: set<NodeId>)
    requires Tagged(children, roots, queue, depths, cursor) && Expanded(children, roots, queue, depths, cursor, visited)
    requires cursor < |queue| && queue[cursor] !in visited
    ensures forall d: nat :: queue[cursor] in Within(children, roots, d) ==>
              depths[cursor] <= d && visited <= Within(children, roots, d)
  {
    forall d: nat | queue[cursor] in Within(children, roots, d)
      ensures depths[cursor] <= d && visited <= Within(children, roots, d)
    {
      if d < depths[cursor] { LevelsComplete(children, roots, queue, depths, cursor, visited, d); }
      forall n | n in visited
        ensures n in Within(children, roots, d)
      {
        var k :| 0 <= k < cursor && queue[k] == n;
        WithinGrows(children, roots, depths[k], d);
      }
    }
  }

  /** What the walk has read: each visited node, once, nearer ones first, and of those the ones with a payload. */
  ghost predicate ReadOnce(
      st: CpsState, children: map<NodeId, seq<NodeId>>, roots: set<NodeId>, visited: set<NodeId>,
      result: seq<NodeState>)
  {
    && (forall n :: n in visited ==>
      NodeOf(st, n) == Ok(None) || exists i :: 0 <= i < |result| && result[i].nodeId == n)
    && (forall i :: 0 <= i < |result| ==>
      result[i].nodeId in visited && NodeOf(st, result[i].nodeId) == Ok(Some(result[i])))
    && (forall i, j :: 0 <= i < j < |result| ==> result[i].nodeId != result[j].nodeId)
    && (forall i, j, d: nat :: 0 <= i < j < |result| && result[j].nodeId in Within(children, roots, d) ==>
      result[i].nodeId in Within(children, roots, d))
  }

  lemma CollectOne(
    st: CpsState, children: map<NodeId, seq<NodeId>>, roots: set<NodeId>, visited: set<NodeId>, result: seq<NodeState>,
    n: NodeId, node: Option<NodeState>)
    requires ReadOnce(st, children, roots, visited, result) && n !in visited && NodeOf(st, n) == Ok(node)
    requires forall d: nat :: n in Within(children, roots, d) ==> visited <= Within(children, roots, d)
    ensures ReadOnce(st, children, roots, visited + {n}, if node.Some? then result + [node.value] else result)
  {
    if node.Some? {
      var after := result + [node.value];
      assert after[|result|].nodeId == n;
      forall m | m in visited + {n}
        ensures NodeOf(st, m) == Ok(None) || exists i :: 0 <= i < |after| && after[i].nodeId == m
      {
        if m in visited && NodeOf(st, m) != Ok(None) {
          var i :| 0 <= i < |result| && result[i].nodeId == m;
          assert after[i].nodeId == m;
        }
      }
    }
  }

  method QueueChildren(queue: seq<NodeId>, ghost depths: seq<nat>, ids: seq<NodeId>, visited: set<NodeId>, ghost d: nat)
    returns (q: seq<NodeId>, ghost ds: seq<nat>)
    requires |queue| == |depths|
    ensures |q| == |ds| && queue <= q && depths <= ds
    ensures forall i :: |queue| <= i < |q| ==> q[i] in ids && ds[i] == d
    ensures forall w :: w in ids && w !in visited ==> w in q[|queue|..]
  {
    q, ds := queue, depths;
    for k := 0 to |ids|
      invariant |q| == |ds| && queue <= q && depths <= ds
      invariant forall i :: |queue| <= i < |q| ==> q[i] in ids && ds[i] == d
      invariant forall w :: w in ids[..k] && w !in visited ==> w in q[|queue|..]
    {
      assert ids[..k + 1] == ids[..k] + [ids[k]];
      if ids[k] !in visited {
        assert (q + [ids[k]])[|queue|..] == q[|queue|..] + [ids[k]];
        q, ds := q + [ids[k]], ds + [d];
      }
    }
    assert ids[..|ids|] == ids;
  }

  /** What expanding the node at the cursor does to the queue. */
  ghost predicate Extends(
    children: map<NodeId, seq<NodeId>>, queue: seq<NodeId>, depths: seq<nat>, cursor: nat, visited: set<NodeId>,
    q: seq<NodeId>, ds: seq<nat>)
    requires |queue| == |depths| && cursor < |queue|
  {
    && |q| == |ds| && queue <= q && depths <= ds
    && (forall i :: |queue| <= i < |q| ==> q[i] in ChildrenOf(children, queue[cursor]) && ds[i] == depths[cursor] + 1)
    && (forall w :: w in ChildrenOf(children, queue[cursor]) && w !in visited + {queue[cursor]} ==> w in q[|queue|..])
  }

  lemma StepKeepsTags(
    children: map<NodeId, seq<NodeId>>, roots: set<NodeId>, queue: seq<NodeId>, depths: seq<nat>,
    cursor: nat, visited: set<NodeId>,
    q: seq<NodeId>, ds: seq<nat>)
    requires Tagged(children, roots, queue, depths, cursor) && cursor < |queue|
    requires Extends(children, queue, depths, cursor, visited, q, ds)
    ensures Tagged(children, roots, q, ds, cursor + 1)
  {
  }

  lemma QueuedStays(queue: seq<NodeId>, depths: seq<nat>, q: seq<NodeId>, ds: seq<nat>, n: NodeId, d: nat)
    requires |queue| == |depths| && |q| == |ds| && queue <= q && depths <= ds && QueuedBy(queue, depths, n, d)
    ensures QueuedBy(q, ds, n, d)
  {
  }

  lemma NewChildQueued(
      queue: seq<NodeId>, depths: seq<nat>, cursor: nat, q: seq<NodeId>, ds: seq<nat>, w: NodeId, d: nat)
    requires |queue| == |depths| && cursor < |queue| && |q| == |ds| && queue <= q && depths <= ds && depths[cursor] <= d
    requires forall i :: 0 <= i < cursor ==> depths[i] <= depths[cursor]
    requires forall i :: |queue| <= i < |q| ==> ds[i] == depths[cursor] + 1
    requires w in queue[..cursor + 1] || w in q[|queue|..]
    ensures QueuedBy(q, ds, w, d + 1)
  {
  }

  lemma StepKeepsExpanded(
    children: map<NodeId, seq<NodeId>>, roots: set<NodeId>, queue: seq<NodeId>, depths: seq<nat>,
    cursor: nat, visited: set<NodeId>,
    q: seq<NodeId>, ds: seq<nat>)
    requires Tagged(children, roots, queue, depths, cursor) && Expanded(children, roots, queue, depths, cursor, visited)
    requires cursor < |queue| && queue[cursor] !in visited && Extends(children, queue, depths, cursor, visited, q, ds)
    ensures Expanded(children, roots, q, ds, cursor + 1, visited + {queue[cursor]})
  {
    var n := queue[cursor];
    assert q[..cursor + 1] == queue[..cursor + 1] == queue[..cursor] + [n];
    FirstVisitIsNearest(children, roots, queue, depths, cursor, visited);
    forall m | m in roots
      ensures QueuedBy(q, ds, m, 0)
    {
      QueuedStays(queue, depths, q, ds, m, 0);
    }
    forall m, w, d: nat | m in visited + {n} && Near(children, roots, m, d) && IsChild(children, m, w)
      ensures QueuedBy(q, ds, w, d + 1)
    {
      if m in visited {
        QueuedStays(queue, depths, q, ds, w, d + 1);
      } else {
        assert w in visited + {n} ==> w in queue[..cursor + 1];
        NewChildQueued(queue, depths, cursor, q, ds, w, d);
      }
    }
  }

  /** The loop invariant of the walk. */
  ghost predicate Walking(
    st: CpsState, children: map<NodeId, seq<NodeId>>, roots: set<NodeId>, queue: seq<NodeId>, depths: seq<nat>,
    cursor: nat, visited: set<NodeId>, result: seq<NodeState>)
  {
    && Tagged(children, roots, queue, depths, cursor) && Expanded(children, roots, queue, depths, cursor, visited)
    && ReadOnce(st, children, roots, visited, result) && visited <= Universe(children, roots)
  }

  lemma WalkStarts(st: CpsState, children: map<NodeId, seq<NodeId>>, roots: seq<NodeId>)
    ensures Walking(st, children, AsSet(roots), roots, seq(|roots|, _ => 0), 0, {}, [])
  {
  }

  lemma WalkSkips(
    st: CpsState, children: map<NodeId, seq<NodeId>>, roots: set<NodeId>, queue: seq<NodeId>, depths: seq<nat>,
    cursor: nat, visited: set<NodeId>, result: seq<NodeState>)
    requires Walking(st, children, roots, queue, depths, cursor, visited, result) && cursor < |queue|
              && queue[cursor] in visited
    ensures Walking(st, children, roots, queue, depths, cursor + 1, visited, result)
  {
  }

  lemma Shrinks(universe: set<NodeId>, visited: set<NodeId>, n: NodeId)
    requires n in universe && n !in visited
    ensures |universe - (visited + {n})| < |universe - visited|
  {
    assert universe - (visited + {n}) == universe - visited - {n};
  }

  lemma WalkExpands(
    st: CpsState, children: map<NodeId, seq<NodeId>>, roots: set<NodeId>, queue: seq<NodeId>, depths: seq<nat>,
    cursor: nat, visited: set<NodeId>, result: seq<NodeState>, node: Option<NodeState>, q: seq<NodeId>, ds: seq<nat>)
    requires Walking(st, children, roots, queue, depths, cursor, visited, result) && cursor < |queue|
              && queue[cursor] !in visited
    requires NodeOf(st, queue[cursor]) == Ok(node) && Extends(children, queue, depths, cursor, visited, q, ds)
    ensures
      var collected := if node.Some? then result + [node.value] else result;
      Walking(st, children, roots, q, ds, cursor + 1, visited + {queue[cursor]}, collected)
    ensures |Universe(children, roots) - (visited + {queue[cursor]})| < |Universe(children, roots) - visited|
  {
    FirstVisitIsNearest(children, roots, queue, depths, cursor, visited);
    WithinUniverse(children, roots, depths[cursor]);
    CollectOne(st, children, roots, visited, result, queue[cursor], node);
    StepKeepsTags(children, roots, queue, depths, cursor, visited, q, ds);
    StepKeepsExpanded(children, roots, queue, depths, cursor, visited, q, ds);
    Shrinks(Universe(children, roots), visited, queue[cursor]);
  }

  lemma VisitedIsReachable(
    children: map<NodeId, seq<NodeId>>, roots: set<NodeId>, queue: seq<NodeId>, depths: seq<nat>, visited: set<NodeId>,
    n: NodeId)
    requires Tagged(children, roots, queue, depths, |queue|)
              && Expanded(children, roots, queue, depths, |queue|, visited)
    ensures n in visited <==> Reachable(children, roots, n)
  {
    if n in visited {
      var k :| 0 <= k < |queue| && queue[k] == n;
      assert n in Within(children, roots, depths[k]);
    }
    if d: nat :| n in Within(children, roots, d) {
      LevelsComplete(children, roots, queue, depths, |queue|, visited, d);
    }
  }

  /** The roots as the callers configure them. */
  ghost predicate RootsAre(ids: seq<NodeIdInput>, roots: seq<NodeId>) {
    |ids| == |roots| && forall i :: 0 <= i < |ids| ==> NodeIdOf(ids[i]) == Ok(roots[i])
  }

  method NormalizeRoots(ids: seq<NodeIdInput>) returns (r: Result<seq<NodeId>, TreeError>)
    ensures r.Ok? ==> RootsAre(ids, r.value)
    ensures r.Err? ==> exists i :: 0 <= i < |ids| && NodeIdOf(ids[i]) == Err(r.error)
  {
    var roots: seq<NodeId> := [];
    for k := 0 to |ids|
      invariant RootsAre(ids[..k], roots)
    {
      var n := NodeIdOf(ids[k]);
      if n.Err? { return Err(n.error); }
      assert ids[..k + 1] == ids[..k] + [ids[k]];
      roots := roots + [n.value];
    }
    assert ids[..|ids|] == ids;
    return Ok(roots);
  }

  ghost function AsSet(s: seq<NodeId>): set<NodeId> { set n | n in s }

  /** The breadth-first walk. It ends on every graph, cyclic or with overlapping roots; a successful one has read each
      node reachable from the roots exactly once. */
  method ReadCpsSubtreesAt(cps: Option<CpsState>, rootIds: seq<NodeIdInput>)
    returns (r: Result<seq<NodeState>, TreeError>, ghost roots: seq<NodeId>, ghost visited: set<NodeId>)
    ensures cps.None? ==> r == Err(StorageUnavailable)
    ensures cps.Some? && cps.value.children.None? ==> r == Err(IncompleteLayout)
    ensures cps.Some? && cps.value.children.Some? ==>
      if exists i :: 0 <= i < |rootIds| && NodeIdOf(rootIds[i]).Err? then r.Err? && r.error.BadNodeId?
      else
        var st, children, rs := cps.value, cps.value.children.value, AsSet(roots);
        && RootsAre(rootIds, roots)
        && (r.Ok? ==>
          (forall n :: n in visited <==> Reachable(children, rs, n)) && ReadOnce(st, children, rs, visited, r.value))
        && (r.Err? ==> exists n :: Reachable(children, rs, n) && NodeOf(st, n) == Err(r.error))
  {
    visited, roots := {}, [];
    if cps.None? { return Err(StorageUnavailable), [], {}; }
    var st := cps.value;
    if st.children.None? { return Err(IncompleteLayout), [], {}; }
    var normalized := NormalizeRoots(rootIds);
    if normalized.Err? { return Err(normalized.error), [], {}; }
    roots := normalized.value;
    r, visited := Walk(st, st.children.value, normalized.value);
  }

  lemma QueuedIsReachable(
      children: map<NodeId, seq<NodeId>>, roots: set<NodeId>, queue: seq<NodeId>, depths: seq<nat>, cursor: nat)
    requires Tagged(children, roots, queue, depths, cursor) && cursor < |queue|
    ensures Reachable(children, roots, queue[cursor])
  {
  }

  /** Reads the node at the cursor and queues its children. */
  method Visit(
    st: CpsState, children: map<NodeId, seq<NodeId>>, ghost roots: set<NodeId>, queue: seq<NodeId>,
    ghost depths: seq<nat>, cursor: nat, visited: set<NodeId>, result: seq<NodeState>)
    returns (o: Outcome<TreeError>, q: seq<NodeId>, ghost ds: seq<nat>, v: set<NodeId>, collected: seq<NodeState>)
    requires Walking(st, children, roots, queue, depths, cursor, visited, result) && cursor < |queue|
              && queue[cursor] !in visited
    ensures o.Pass? ==> Walking(st, children, roots, q, ds, cursor + 1, v, collected)
    ensures o.Pass? ==> |Universe(children, roots) - v| < |Universe(children, roots) - visited|
    ensures o.Fail? ==> Reachable(children, roots, queue[cursor]) && NodeOf(st, queue[cursor]) == Err(o.error)
  {
    q, ds, v, collected := queue, depths, visited, result;
    var nodeId := queue[cursor];
    var node := ReadSplitCpsNode(st, nodeId);
    if node.Err? {
      QueuedIsReachable(children, roots, queue, depths, cursor);
      o := Fail(node.error);
      return;
    }
    v := visited + {nodeId};
    q, ds := QueueChildren(queue, depths, ChildrenOf(children, nodeId), v, depths[cursor] + 1);
    WalkExpands(st, children, roots, queue, depths, cursor, visited, result, node.value, q, ds);
    collected := if node.value.Some? then result + [node.value.value] else result;
    o := Pass;
  }

  lemma WalkVisitsReachable(
    st: CpsState, children: map<NodeId, seq<NodeId>>, roots: set<NodeId>, queue: seq<NodeId>, depths: seq<nat>,
    visited: set<NodeId>, result: seq<NodeState>)
    requires Walking(st, children, roots, queue, depths, |queue|, visited, result)
    ensures forall n :: n in visited <==> Reachable(children, roots, n)
  {
    forall n
      ensures n in visited <==> Reachable(children, roots, n)
    {
      VisitedIsReachable(children, roots, queue, depths, visited, n);
    }
  }

  method Walk(st: CpsState, children: map<NodeId, seq<NodeId>>, roots: seq<NodeId>)
    returns (r: Result<seq<NodeState>, TreeError>, ghost reached: set<NodeId>)
    ensures r.Ok? ==>
              (forall n :: n in reached <==> Reachable(children, AsSet(roots), n))
              && ReadOnce(st, children, AsSet(roots), reached, r.value)
    ensures r.Err? ==> exists n :: Reachable(children, AsSet(roots), n) && NodeOf(st, n) == Err(r.error)
  {
    ghost var rs, depths := AsSet(roots), seq(|roots|, _ => 0);
    var queue, visited, result, cursor := roots, {}, [], 0;
    WalkStarts(st, children, roots);
    while cursor < |queue|
      invariant Walking(st, children, rs, queue, depths, cursor, visited, result)
      decreases |Universe(children, rs) - visited|, |queue| - cursor
    {
      if queue[cursor] in visited {
        WalkSkips(st, children, rs, queue, depths, cursor, visited, result);
      } else {
        var o, q, ds, v, collected := Visit(st, children, rs, queue, depths, cursor, visited, result);
        if o.Fail? { return Err(o.error), visited; }
        queue, depths, visited, result := q, ds, v, collected;
      }
      cursor := cursor + 1;
    }
    WalkVisitsReachable(st, children, rs, queue, depths, visited, result);
    return Ok(result), visited;
  }

  // ---------- the two walks agree ----------

  ghost predicate InverseOf(children: map<NodeId, seq<NodeId>>, nodes: map<NodeId, NodeInfo>) {
    forall m: NodeId, w: NodeId :: IsChild(children, m, w) <==> w in nodes && nodes[w].parent == Some(m)
  }

  lemma RootWithinStep(nodes: map<NodeId, NodeInfo>, roots: set<NodeId>, n: NodeId, k: nat)
    ensures RootWithin(nodes, roots, n, k + 1) <==>
      n in roots || (n in nodes && nodes[n].parent.Some? && RootWithin(nodes, roots, nodes[n].parent.value, k))
  {
    assert Ancestor(nodes, n, 0) == Some(n);
    if i: nat :| 0 < i <= k + 1 && Ancestor(nodes, n, i).Some? && Ancestor(nodes, n, i).value in roots {
      ChainsEndOnce(nodes, n, 1, i);
      AncestorFromParent(nodes, n, i - 1);
    }
    if n in nodes && nodes[n].parent.Some? {
      var p := nodes[n].parent.value;
      if i: nat :| i <= k && Ancestor(nodes, p, i).Some? && Ancestor(nodes, p, i).value in roots {
        AncestorFromParent(nodes, n, i);
        assert Ancestor(nodes, n, i + 1).value in roots;
      }
    }
  }

  lemma {:induction false} WithinStep(
      children: map<NodeId, seq<NodeId>>, nodes: map<NodeId, NodeInfo>, roots: set<NodeId>, n: NodeId, k: nat)
    requires InverseOf(children, nodes)
    ensures n in Within(children, roots, k + 1) <==>
      n in roots || (n in nodes && nodes[n].parent.Some? && nodes[n].parent.value in Within(children, roots, k))
    decreases k
  {
    WithinGrows(children, roots, 0, k + 1);
    if n in nodes && nodes[n].parent.Some? && nodes[n].parent.value in Within(children, roots, k) {
      assert IsChild(children, nodes[n].parent.value, n);
      ChildWithin(children, roots, k, nodes[n].parent.value, n);
    }
    if n in Within(children, roots, k + 1) {
      if n !in Within(children, roots, k) {
        var m := ParentIn(children, roots, k, n);
        assert IsChild(children, m, n);
      } else if k > 0 {
        WithinStep(children, nodes, roots, n, k - 1);
      }
    }
  }

  /** Walking up k steps meets a root exactly when walking down k steps from the roots meets the node. */
  lemma {:induction false} UpMeetsDown(
      children: map<NodeId, seq<NodeId>>, nodes: map<NodeId, NodeInfo>, roots: set<NodeId>, n: NodeId, k: nat)
    requires InverseOf(children, nodes)
    ensures RootWithin(nodes, roots, n, k) <==> n in Within(children, roots, k)
    decreases k
  {
    if k == 0 {
      assert Ancestor(nodes, n, 0) == Some(n);
    } else {
      var before: nat := k - 1;
      RootWithinStep(nodes, roots, n, before);
      WithinStep(children, nodes, roots, n, before);
      if n in nodes && nodes[n].parent.Some? { UpMeetsDown(children, nodes, roots, nodes[n].parent.value, before); }
    }
  }

  /** The realtime answer against the snapshot. Yes means the snapshot visits the node at depth 33 or less, no means it
      never does. The walk throws exactly when the chain has 33 steps and the snapshot does not visit the node that
      early: for every node it visits only deeper, and for some it never visits. */
  lemma RealtimeAgreesWithSnapshot(
    children: map<NodeId, seq<NodeId>>, nodes: map<NodeId, NodeInfo>, roots: set<NodeId>, n: NodeId,
    r: Result<bool, TreeError>)
    requires InverseOf(children, nodes) && r == WalkAnswer(nodes, roots, n)
    ensures r == Ok(true) <==> n in Within(children, roots, 33)
    ensures r == Ok(false) ==> !Reachable(children, roots, n)
    ensures r == Err(DepthExceeded) <==>
              Ancestor(nodes, n, 33).Some? && n !in Within(children, roots, 33)
    ensures Reachable(children, roots, n) && r != Ok(true) ==> r == Err(DepthExceeded)
    ensures Ancestor(nodes, n, 34).None? ==> (r == Ok(true) <==> Reachable(children, roots, n))
  {
    UpMeetsDown(children, nodes, roots, n, MAX_CPS_TREE_DEPTH + 1);
    if d: nat :| n in Within(children, roots, d) {
      UpMeetsDown(children, nodes, roots, n, d);
      var i: nat :| i <= d && Ancestor(nodes, n, i).Some? && Ancestor(nodes, n, i).value in roots;
      if i > MAX_CPS_TREE_DEPTH + 1 { ChainsEndOnce(nodes, n, MAX_CPS_TREE_DEPTH + 2, i); }
      if Ancestor(nodes, n, MAX_CPS_TREE_DEPTH + 1).None? && i > MAX_CPS_TREE_DEPTH {
        ChainsEndOnce(nodes, n, MAX_CPS_TREE_DEPTH + 1, i);
      }
    }
  }

  const DEEP: nat := 34

  /** A chain of nodes 0, 1, ..., 34, each the parent of the next. */
  function DeepChain(): map<NodeId, NodeInfo> {
    map n: NodeId | n <= DEEP && InChain(n) :: NodeInfo(if n == 0 then None else Some(n - 1), None)
  }

  predicate InChain(n: NodeId) { n <= DEEP }

  lemma {:induction false} DeepChainAncestor(k: nat)
    requires k <= DEEP
    ensures Ancestor(DeepChain(), DEEP, k) == Some(DEEP - k)
  {
    if k > 0 { DeepChainAncestor(k - 1); }
  }

  function DeepChildren(): map<NodeId, seq<NodeId>> {
    map m: NodeId | m < DEEP && InChain(m) :: [(m + 1) as NodeId]
  }

  lemma DeepChildrenAreInverse()
    ensures InverseOf(DeepChildren(), DeepChain())
  {
    forall m: NodeId, w: NodeId
      ensures IsChild(DeepChildren(), m, w) <==> w in DeepChain() && DeepChain()[w].parent == Some(m)
    {
      assert m in DeepChildren() ==> DeepChildren()[m] == [(m + 1) as NodeId];
    }
  }

  /** It may throw for a node the snapshot never visits. */
  lemma UnreachableNodeIsRefused()
    ensures InverseOf(DeepChildren(), DeepChain())
    ensures WalkAnswer(DeepChain(), {DEEP + 1}, DEEP) == Err(DepthExceeded)
    ensures !Reachable(DeepChildren(), {DEEP + 1}, DEEP)
  {
    DeepChildrenAreInverse();
    DeepChainAncestor(DEEP - 1);
    forall i: nat | Ancestor(DeepChain(), DEEP, i).Some?
      ensures Ancestor(DeepChain(), DEEP, i).value != DEEP + 1
    {
      if i <= DEEP { DeepChainAncestor(i); } else { DeepChainEnds(i); }
    }
    var roots: set<NodeId> := {DEEP + 1};
    if Reachable(DeepChildren(), roots, DEEP) {
      var d: nat :| DEEP in Within(DeepChildren(), roots, d);
      UpMeetsDown(DeepChildren(), DeepChain(), roots, DEEP, d);
    }
  }

  lemma DeepChainEnds(i: nat)
    requires i > DEEP
    ensures Ancestor(DeepChain(), DEEP, i).None?
  {
    DeepChainAncestor(DEEP);
    if Ancestor(DeepChain(), DEEP, i).Some? { ChainsEndOnce(DeepChain(), DEEP, DEEP + 1, i); }
  }

  /** The bound is met: a node 34 steps below the only root is reachable, but the realtime walk gives up on it. */
  lemma DeepNodeIsRefused()
    ensures InverseOf(DeepChildren(), DeepChain()) && Reachable(DeepChildren(), {0}, DEEP)
    ensures WalkAnswer(DeepChain(), {0}, DEEP) == Err(DepthExceeded)
  {
    DeepChildrenAreInverse();
    DeepChainAncestor(DEEP);
    DeepChainAncestor(DEEP - 1);
    UpMeetsDown(DeepChildren(), DeepChain(), {0}, DEEP, DEEP);
    if RootWithin(DeepChain(), {0}, DEEP, DEEP - 1) {
      var i: nat :| i <= DEEP - 1 && Ancestor(DeepChain(), DEEP, i).Some?
        && Ancestor(DeepChain(), DEEP, i).value in {0};
      DeepChainAncestor(i);
      assert false;
    }
  }
}
