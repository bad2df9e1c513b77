/** The block indexer: catch-up, the realtime queue, reconnection and the checkpoint, interleaved at every await. */
module BlockIndexer {
  import opened Wrappers
  import opened CpsKeys
  import opened Protocol

  const BATCH_SIZE: nat := 10

  // ---------- what indexing a block does ----------

  /** The part of an anchor that discovery writes. */
  datatype Seen = Seen(nodeId: string, block: nat, ref: PayloadRef, owner: Option<string>,
    wireFormat: Option<WireFormat>)

  type View = map<string, Seen>

  /** One upsert of an anchor by an event handler. */
  datatype Op = Op(key: string, seen: Seen)

  /** The finalised chain: what the handlers do for each block, in order, and whether they all succeed. */
  datatype Chain = Chain(ops: nat -> seq<Op>, completes: nat -> bool)

  function See(view: View, op: Op): View {
    if op.key !in view then view[op.key := op.seen]
    else if op.seen.wireFormat.Some? then view[op.key := view[op.key].(wireFormat := op.seen.wireFormat)]
    else view
  }

  function SeeAll(view: View, ops: seq<Op>): View {
    if ops == [] then view else See(SeeAll(view, ops[..|ops| - 1]), ops[|ops| - 1])
  }

  /** One clean ascending pass over the blocks from `from` up to, but without, `to`. */
  function CleanPass(chain: Chain, view: View, from: nat, to: nat): View {
    if to <= from then view else SeeAll(CleanPass(chain, view, from, to - 1), chain.ops(to - 1))
  }

  /** Handlers read a node in the state of the block, so within a block the key decides the whole operation. */
  ghost predicate KeyDecidesOp(ops: seq<Op>) {
    forall i, j :: 0 <= i < |ops| && 0 <= j < |ops| && ops[i].key == ops[j].key ==> ops[i] == ops[j]
  }

  ghost predicate Consistent(chain: Chain) {
    forall n :: KeyDecidesOp(chain.ops(n))
  }

  lemma SeeNext(view: View, ops: seq<Op>, m: nat)
    requires m < |ops|
    ensures SeeAll(view, ops[..m + 1]) == See(SeeAll(view, ops[..m]), ops[m])
  {
    assert ops[..m + 1][..m] == ops[..m];
  }

  lemma {:induction false} SeenStays(view: View, ops: seq<Op>, m: nat, i: nat)
    requires i < m <= |ops| && KeyDecidesOp(ops)
    ensures ops[i].key in SeeAll(view, ops[..m])
    ensures ops[i].seen.wireFormat.Some? ==> SeeAll(view, ops[..m])[ops[i].key].wireFormat == ops[i].seen.wireFormat
  {
    SeeNext(view, ops, m - 1);
    if i < m - 1 { SeenStays(view, ops, m - 1, i); }
  }

  /** Repeating an operation of the block that already took effect changes nothing. */
  lemma ReplayIsIdempotent(view: View, ops: seq<Op>, m: nat, i: nat)
    requires i < m <= |ops| && KeyDecidesOp(ops)
    ensures See(SeeAll(view, ops[..m]), ops[i]) == SeeAll(view, ops[..m])
  {
    SeenStays(view, ops, m, i);
  }

  /** Repeating an attempt that stopped after m operations, up to j of them, leaves what the further one alone leaves:
      this is why the indexer's data need only say how far the operations of a block ever got. */
  lemma {:induction false} AttemptsAddUp(view: View, ops: seq<Op>, m: nat, j: nat)
    requires KeyDecidesOp(ops) && m <= |ops| && j <= |ops|
    ensures SeeAll(SeeAll(view, ops[..m]), ops[..j]) == SeeAll(view, ops[..if m < j then j else m])
    decreases j
  {
    if j > 0 {
      var i: nat := j - 1;
      AttemptsAddUp(view, ops, m, i);
      RepeatedOne(view, ops, m, i);
      SeeNext(SeeAll(view, ops[..m]), ops, i);
    }
  }

  /** One more operation of the repetition: done before, or the next one of all. */
  lemma RepeatedOne(view: View, ops: seq<Op>, m: nat, i: nat)
    requires KeyDecidesOp(ops) && m <= |ops| && i < |ops|
    ensures See(SeeAll(view, ops[..if m < i then i else m]), ops[i])
            == SeeAll(view, ops[..if m < i + 1 then i + 1 else m])
  {
    if i < m { ReplayIsIdempotent(view, ops, m, i); } else { SeeNext(view, ops, i); }
  }

  // ---------- the running indexer ----------

  /** Where one `start()` call, or the reconnect chain that follows it, is suspended. */
  datatype Task =
    | Connecting
    | ReadingState
    | FindingStart
    | FindingHead(from: nat)
    | Indexing(n: nat, to: nat, done: nat)
    | SavingBlock(n: nat, to: nat)
    | Subscribing
    | Draining(promise: nat)
    | Waiting
  {
    predicate Reconnect() { Draining? || Waiting? }
    predicate Writes() { Indexing? || SavingBlock? }
  }

  /** Where a worker of the realtime queue is suspended: on the head b, at block n. */
  datatype Worker = Reading(b: nat) | Filling(b: nat, n: nat, done: nat) | Storing(b: nat, n: nat)

  /** The database (checkpoint, view) and its history: the blocks processed to their end, the first block ever
      checkpointed with the view at that time, and how far the operations of the next block ever got. */
  datatype Data = Data(checkpoint: Option<nat>, view: View, processed: set<nat>, base: Option<nat>, start: View,
    progress: nat)

  /** What lives in the process. */
  datatype Memory = Memory(
    tasks: seq<Task>, workers: map<nat, Worker>, queue: seq<nat>,
    reconnecting: bool, realtimeProcessing: bool, promise: nat, nextWorker: nat, subscribed: bool, live: bool)

  datatype Sys = Sys(data: Data, mem: Memory)

  /** `startBlock` is None for "latest". */
  datatype Config = Config(chain: Chain, startBlock: Option<nat>)

  datatype Label =
    | Connected(t: nat) | StateRead(t: nat) | StartFound(t: nat, finalized: nat) | HeadFound(t: nat, finalized: nat)
    | Subscribed(t: nat) | TaskFails(t: nat) | Drained(t: nat) | Reconnected(t: nat)
    | TaskOp(t: nat, acknowledged: bool) | TaskBlockDone(t: nat) | TaskSaved(t: nat, acknowledged: bool)
    | WorkerRead(w: nat) | WorkerOp(w: nat, acknowledged: bool) | WorkerBlockDone(w: nat)
    | WorkerSaved(w: nat, acknowledged: bool) | WorkerFails(w: nat)
    | FinalizedHead(b: nat) | ConnectionLost | Crash

  // ---------- effects on the database ----------

  function Operate(cfg: Config, d: Data, n: nat, i: nat): Data
    requires i < |cfg.chain.ops(n)|
  {
    d.(view := See(d.view, cfg.chain.ops(n)[i]), progress := if d.progress <= i then i + 1 else d.progress)
  }

  function Done(d: Data, n: nat): Data {
    d.(processed := d.processed + {n})
  }

  function Save(d: Data, n: nat): Data {
    d.(checkpoint := Some(n), progress := 0,
       base := if d.base.None? then Some(n) else d.base, start := if d.base.None? then d.view else d.start)
  }

  // ---------- effects on the process ----------

  function Without(tasks: seq<Task>, t: nat): seq<Task>
    requires t < |tasks|
  {
    tasks[..t] + tasks[t + 1..]
  }

  /** The synchronous part of `scheduleReconnect` and `cleanup`. */
  function ScheduleReconnect(m: Memory): Memory {
    if m.reconnecting then m
    else
      m.(reconnecting := true, subscribed := false, live := false, queue := [],
         tasks := m.tasks + [Draining(m.promise)])
  }

  /** The start() call at t threw. */
  function StartFails(m: Memory, t: nat): Memory
    requires t < |m.tasks|
  {
    ScheduleReconnect(m.(tasks := Without(m.tasks, t)))
  }

  function Move(m: Memory, t: nat, task: Task): Memory
    requires t < |m.tasks|
  {
    m.(tasks := m.tasks[t := task])
  }

  function Assign(m: Memory, w: nat, worker: Worker): Memory {
    m.(workers := m.workers[w := worker])
  }

  /** A worker takes the next head, or ends when there is none. */
  function TakeNext(m: Memory, w: nat): Memory {
    if m.queue != [] then Assign(m.(queue := m.queue[1..]), w, Reading(m.queue[0]))
    else m.(workers := m.workers - {w}, realtimeProcessing := false)
  }

  /** `processRealtimeQueue`, up to its first await. */
  function WakeWorker(m: Memory): Memory {
    if m.realtimeProcessing then m
    else TakeNext(m.(realtimeProcessing := true, promise := m.nextWorker, nextWorker := m.nextWorker + 1), m.nextWorker)
  }

  /** A new process. */
  const BOOT := Memory([Connecting], map[], [], false, false, 0, 1, false, false)

  // ---------- steps ----------

  /** A start() call or reconnect chain resumes, outside the catch-up loop. */
  function StartStep(cfg: Config, d: Data, m: Memory, l: Label): Option<Memory>
    requires l.Connected? || l.StateRead? || l.StartFound? || l.HeadFound? || l.Subscribed? || l.TaskFails?
              || l.Drained? || l.Reconnected?
  {
    if l.t >= |m.tasks| then None
    else
      var task := m.tasks[l.t];
      match l
      case Connected(t) => if task.Connecting? then Some(Move(m, t, ReadingState)) else None
      case StateRead(t) =>
        if !task.ReadingState? then None
        else if d.checkpoint.Some? then Some(Move(m, t, FindingHead(d.checkpoint.value + 1)))
        else if cfg.startBlock.None? then Some(Move(m, t, FindingStart))
        else Some(Move(m, t, FindingHead(cfg.startBlock.value)))
      case StartFound(t, finalized) => if task.FindingStart? then Some(Move(m, t, FindingHead(finalized))) else None
      case HeadFound(t, finalized) =>
        if !task.FindingHead? then None
        else if task.from > finalized then Some(Move(m, t, Subscribing).(subscribed := true))
        else
          var last := task.from + BATCH_SIZE - 1;
          Some(Move(m, t, Indexing(task.from, if last <= finalized then last else finalized, 0)))
      case Subscribed(t) => if task.Subscribing? then Some(m.(tasks := Without(m.tasks, t), live := true)) else None
      case TaskFails(t) => if task.Reconnect() then None else Some(StartFails(m, t))
      case Drained(t) => if task.Draining? && task.promise !in m.workers then Some(Move(m, t, Waiting)) else None
      case Reconnected(t) =>
        if task.Waiting? then Some(m.(tasks := Without(m.tasks, t) + [Connecting], reconnecting := false)) else None
  }

  function CatchUpStep(cfg: Config, d: Data, m: Memory, l: Label): Option<Sys>
    requires l.TaskOp? || l.TaskBlockDone? || l.TaskSaved?
  {
    if l.t >= |m.tasks| then None
    else
      var task := m.tasks[l.t];
      match l
      case TaskOp(t, acknowledged) =>
        if !(task.Indexing? && task.done < |cfg.chain.ops(task.n)|) then None
        else Some(Sys(Operate(cfg, d, task.n, task.done),
                      if acknowledged then Move(m, t, Indexing(task.n, task.to, task.done + 1)) else StartFails(m, t)))
      case TaskBlockDone(t) =>
        if task.Indexing? && task.done == |cfg.chain.ops(task.n)| && cfg.chain.completes(task.n) then
          Some(Sys(Done(d, task.n), Move(m, t, SavingBlock(task.n, task.to))))
        else None
      case TaskSaved(t, acknowledged) =>
        if !task.SavingBlock? then None
        else Some(Sys(Save(d, task.n),
                      if !acknowledged then StartFails(m, t)
                      else if task.n < task.to then Move(m, t, Indexing(task.n + 1, task.to, 0))
                      else Move(m, t, FindingHead(task.to + 1))))
  }

  function WorkerStep(cfg: Config, d: Data, m: Memory, l: Label): Option<Sys>
    requires l.WorkerRead? || l.WorkerOp? || l.WorkerBlockDone? || l.WorkerSaved? || l.WorkerFails?
  {
    if l.w !in m.workers then None
    else
      var worker := m.workers[l.w];
      match l
      case WorkerRead(w) =>
        if !worker.Reading? then None
        else
          var next := if d.checkpoint.Some? then d.checkpoint.value + 1 else worker.b;
          Some(Sys(d, if worker.b < next then TakeNext(m, w) else Assign(m, w, Filling(worker.b, next, 0))))
      case WorkerOp(w, acknowledged) =>
        if !(worker.Filling? && worker.done < |cfg.chain.ops(worker.n)|) then None
        else Some(Sys(Operate(cfg, d, worker.n, worker.done),
                      if acknowledged then Assign(m, w, Filling(worker.b, worker.n, worker.done + 1))
                      else TakeNext(m, w)))
      case WorkerBlockDone(w) =>
        if worker.Filling? && worker.done == |cfg.chain.ops(worker.n)| && cfg.chain.completes(worker.n) then
          Some(Sys(Done(d, worker.n), Assign(m, w, Storing(worker.b, worker.n))))
        else None
      case WorkerSaved(w, acknowledged) =>
        if !worker.Storing? then None
        else Some(Sys(Save(d, worker.n),
                      if acknowledged && worker.n < worker.b then Assign(m, w, Filling(worker.b, worker.n + 1, 0))
                      else TakeNext(m, w)))
      case WorkerFails(w) => Some(Sys(d, TakeNext(m, w)))
  }

  function Next(cfg: Config, s: Sys, l: Label): Option<Sys> {
    if l.Crash? then Some(Sys(s.data, BOOT))
    else if l.ConnectionLost? then if s.mem.live then Some(Sys(s.data, ScheduleReconnect(s.mem))) else None
    else if l.FinalizedHead? then
      if s.mem.subscribed then Some(Sys(s.data, WakeWorker(s.mem.(queue := s.mem.queue + [l.b])))) else None
    else if l.TaskOp? || l.TaskBlockDone? || l.TaskSaved? then CatchUpStep(cfg, s.data, s.mem, l)
    else if l.WorkerRead? || l.WorkerOp? || l.WorkerBlockDone? || l.WorkerSaved? || l.WorkerFails? then
      WorkerStep(cfg, s.data, s.mem, l)
    else
      match StartStep(cfg, s.data, s.mem, l)
      case None => None
      case Some(mem) => Some(Sys(s.data, mem))
  }

  ghost predicate Initial(s: Sys) {
    s.mem == BOOT && s.data.checkpoint.None? && s.data.base.None? && s.data.processed == {}
  }

  /** Consecutive steps from any state. */
  ghost predicate Steps(cfg: Config, states: seq<Sys>, labels: seq<Label>) {
    && |states| == |labels| + 1
    && forall i :: 0 <= i < |labels| ==> Next(cfg, states[i], labels[i]) == Some(states[i + 1])
  }

  ghost predicate Run(cfg: Config, states: seq<Sys>, labels: seq<Label>) {
    Steps(cfg, states, labels) && Initial(states[0])
  }

  // ---------- invariants ----------

  /** One start() call or reconnect chain at most, one worker at most, none of them where it must not be. */
  ghost predicate Disciplined(m: Memory) {
    && |m.tasks| <= 1
    && (m.live <==> m.tasks == [])
    && (m.reconnecting <==> m.tasks != [] && m.tasks[0].Reconnect())
    && (m.subscribed <==> m.tasks == [] || m.tasks[0].Subscribing?)
    && m.promise < m.nextWorker
    && m.workers.Keys == (if m.realtimeProcessing then {m.promise} else {})
    && (m.queue != [] ==> m.realtimeProcessing && m.subscribed)
    && (m.realtimeProcessing ==> m.subscribed || m.tasks[0] == Draining(m.promise))
  }

  /** n is the block after the checkpoint, if there is a checkpoint. */
  predicate IsNext(d: Data, n: nat) {
    d.checkpoint.Some? ==> n == d.checkpoint.value + 1
  }

  ghost predicate At(cfg: Config, d: Data, n: nat, done: nat) {
    && IsNext(d, n) && done <= |cfg.chain.ops(n)| && (d.checkpoint.Some? ==> done <= d.progress)
  }

  ghost predicate Through(cfg: Config, d: Data, n: nat) {
    && IsNext(d, n) && n in d.processed && (d.checkpoint.Some? ==> d.progress == |cfg.chain.ops(n)|)
  }

  ghost predicate TaskPlaced(cfg: Config, d: Data, t: Task) {
    match t
    case FindingStart => d.checkpoint.None?
    case FindingHead(from) => IsNext(d, from)
    case Indexing(n, to, done) => n <= to && At(cfg, d, n, done)
    case SavingBlock(n, to) => n <= to && Through(cfg, d, n)
    case _ => true
  }

  ghost predicate WorkerPlaced(cfg: Config, d: Data, w: Worker) {
    match w
    case Reading(b) => true
    case Filling(b, n, done) => At(cfg, d, n, done)
    case Storing(b, n) => Through(cfg, d, n)
  }

  /** Everything from the first block ever checkpointed up to the checkpoint was processed, and the anchors are those of
      a clean pass over these blocks followed by part of the next one. */
  ghost predicate Recorded(cfg: Config, d: Data) {
    && (d.checkpoint.Some? <==> d.base.Some?)
    && (d.checkpoint.Some? ==>
          var next := d.checkpoint.value + 1;
          && d.base.value <= d.checkpoint.value
          && (forall n :: d.base.value <= n <= d.checkpoint.value ==> n in d.processed)
          && d.progress <= |cfg.chain.ops(next)|
          && d.view == SeeAll(CleanPass(cfg.chain, d.start, d.base.value + 1, next), cfg.chain.ops(next)[..d.progress]))
  }

  ghost predicate Placed(cfg: Config, d: Data, m: Memory) {
    && (m.tasks != [] ==> TaskPlaced(cfg, d, m.tasks[0]))
    && (forall w :: w in m.workers ==> WorkerPlaced(cfg, d, m.workers[w]))
  }

  ghost predicate Inv(cfg: Config, s: Sys) {
    Disciplined(s.mem) && Recorded(cfg, s.data) && Placed(cfg, s.data, s.mem)
  }

  /** The checkpoint stays or moves to the next block, and what came first stays what came first. */
  ghost predicate Advances(d: Data, after: Data) {
    || (after.checkpoint == d.checkpoint && after.base == d.base && after.start == d.start)
    || (after.checkpoint.Some? && IsNext(d, after.checkpoint.value)
      && (d.base.Some? ==> after.base == d.base && after.start == d.start))
  }

  // ---------- the database keeps its record ----------

  lemma OperateKeeps(cfg: Config, d: Data, n: nat, i: nat)
    requires Consistent(cfg.chain) && Recorded(cfg, d) && At(cfg, d, n, i) && i < |cfg.chain.ops(n)|
    ensures Recorded(cfg, Operate(cfg, d, n, i)) && At(cfg, Operate(cfg, d, n, i), n, i + 1)
    ensures Advances(d, Operate(cfg, d, n, i))
  {
    if d.checkpoint.Some? {
      var ops := cfg.chain.ops(n);
      var before := CleanPass(cfg.chain, d.start, d.base.value + 1, n);
      RepeatedOne(before, ops, d.progress, i);
    }
  }

  lemma DoneKeeps(cfg: Config, d: Data, n: nat)
    requires Recorded(cfg, d) && At(cfg, d, n, |cfg.chain.ops(n)|)
    ensures Recorded(cfg, Done(d, n)) && Through(cfg, Done(d, n), n)
    ensures Advances(d, Done(d, n))
  {
  }

  lemma SaveKeeps(cfg: Config, d: Data, n: nat)
    requires Recorded(cfg, d) && Through(cfg, d, n)
    ensures Recorded(cfg, Save(d, n)) && At(cfg, Save(d, n), n + 1, 0)
    ensures Advances(d, Save(d, n))
  {
    assert cfg.chain.ops(n + 1)[..0] == [];
    if d.checkpoint.Some? { assert cfg.chain.ops(n)[..d.progress] == cfg.chain.ops(n); }
  }

  // ---------- the process keeps its discipline ----------

  lemma WakeKeeps(m: Memory, b: nat)
    requires Disciplined(m) && m.subscribed
    ensures
      var after := WakeWorker(m.(queue := m.queue + [b]));
      && Disciplined(after) && after.tasks == m.tasks
      && forall w :: w in after.workers ==>
        after.workers[w].Reading? || (w in m.workers && after.workers[w] == m.workers[w])
  {
  }

  // ---------- every step keeps the invariant ----------

  lemma StartStepKeeps(cfg: Config, d: Data, m: Memory, l: Label)
    requires Inv(cfg, Sys(d, m))
    requires l.Connected? || l.StateRead? || l.StartFound? || l.HeadFound? || l.Subscribed? || l.TaskFails?
              || l.Drained? || l.Reconnected?
    requires StartStep(cfg, d, m, l).Some?
    ensures Inv(cfg, Sys(d, StartStep(cfg, d, m, l).value))
  {
  }

  /** After whatever the catch-up loop did to the database, it moves on, or start() fails. */
  lemma CatchUpGoesOn(cfg: Config, d: Data, after: Data, m: Memory, task: Task)
    requires Inv(cfg, Sys(d, m)) && m.tasks != [] && m.tasks[0].Writes() && Recorded(cfg, after)
    ensures Inv(cfg, Sys(after, StartFails(m, 0)))
    ensures TaskPlaced(cfg, after, task) && !task.Subscribing? && !task.Reconnect() ==>
              Inv(cfg, Sys(after, Move(m, 0, task)))
  {
  }

  lemma TaskOpKeeps(cfg: Config, d: Data, m: Memory, acknowledged: bool)
    requires Consistent(cfg.chain) && Inv(cfg, Sys(d, m)) && CatchUpStep(cfg, d, m, TaskOp(0, acknowledged)).Some?
    ensures
      var after := CatchUpStep(cfg, d, m, TaskOp(0, acknowledged)).value;
      Inv(cfg, after) && Advances(d, after.data)
  {
    var task := m.tasks[0];
    OperateKeeps(cfg, d, task.n, task.done);
    CatchUpGoesOn(cfg, d, Operate(cfg, d, task.n, task.done), m, Indexing(task.n, task.to, task.done + 1));
  }

  lemma TaskBlockDoneKeeps(cfg: Config, d: Data, m: Memory)
    requires Inv(cfg, Sys(d, m)) && CatchUpStep(cfg, d, m, TaskBlockDone(0)).Some?
    ensures
      var after := CatchUpStep(cfg, d, m, TaskBlockDone(0)).value;
      Inv(cfg, after) && Advances(d, after.data)
  {
  }

  lemma TaskSavedKeeps(cfg: Config, d: Data, m: Memory, acknowledged: bool)
    requires Inv(cfg, Sys(d, m)) && CatchUpStep(cfg, d, m, TaskSaved(0, acknowledged)).Some?
    ensures
      var after := CatchUpStep(cfg, d, m, TaskSaved(0, acknowledged)).value;
      Inv(cfg, after) && Advances(d, after.data)
  {
    var task := m.tasks[0];
    SaveKeeps(cfg, d, task.n);
    var next := if task.n < task.to then Indexing(task.n + 1, task.to, 0) else FindingHead(task.to + 1);
    CatchUpGoesOn(cfg, d, Save(d, task.n), m, next);
  }

  lemma CatchUpStepKeeps(cfg: Config, d: Data, m: Memory, l: Label)
    requires Consistent(cfg.chain) && Inv(cfg, Sys(d, m))
    requires l.TaskOp? || l.TaskBlockDone? || l.TaskSaved?
    requires CatchUpStep(cfg, d, m, l).Some?
    ensures
      var after := CatchUpStep(cfg, d, m, l).value;
      Inv(cfg, after) && Advances(d, after.data)
  {
    assert l.t == 0;
    match l
    case TaskOp(_, acknowledged) => TaskOpKeeps(cfg, d, m, acknowledged);
    case TaskBlockDone(_) => TaskBlockDoneKeeps(cfg, d, m);
    case TaskSaved(_, acknowledged) => TaskSavedKeeps(cfg, d, m, acknowledged);
  }

  lemma WorkerOpKeeps(cfg: Config, d: Data, m: Memory, w: nat, acknowledged: bool)
    requires Consistent(cfg.chain) && Inv(cfg, Sys(d, m)) && WorkerStep(cfg, d, m, WorkerOp(w, acknowledged)).Some?
    ensures
      var after := WorkerStep(cfg, d, m, WorkerOp(w, acknowledged)).value;
      Inv(cfg, after) && Advances(d, after.data)
  {
    var worker := m.workers[w];
    OperateKeeps(cfg, d, worker.n, worker.done);
    WorkerGoesOn(cfg, d, Operate(cfg, d, worker.n, worker.done), m, w, Filling(worker.b, worker.n, worker.done + 1));
  }

  lemma WorkerBlockDoneKeeps(cfg: Config, d: Data, m: Memory, w: nat)
    requires Inv(cfg, Sys(d, m)) && WorkerStep(cfg, d, m, WorkerBlockDone(w)).Some?
    ensures
      var after := WorkerStep(cfg, d, m, WorkerBlockDone(w)).value;
      Inv(cfg, after) && Advances(d, after.data)
  {
  }

  lemma WorkerSavedKeeps(cfg: Config, d: Data, m: Memory, w: nat, acknowledged: bool)
    requires Inv(cfg, Sys(d, m)) && WorkerStep(cfg, d, m, WorkerSaved(w, acknowledged)).Some?
    ensures
      var after := WorkerStep(cfg, d, m, WorkerSaved(w, acknowledged)).value;
      Inv(cfg, after) && Advances(d, after.data)
  {
    var worker := m.workers[w];
    SaveKeeps(cfg, d, worker.n);
    WorkerGoesOn(cfg, d, Save(d, worker.n), m, w, Filling(worker.b, worker.n + 1, 0));
  }

  lemma WorkerStepKeeps(cfg: Config, d: Data, m: Memory, l: Label)
    requires Consistent(cfg.chain) && Inv(cfg, Sys(d, m))
    requires l.WorkerRead? || l.WorkerOp? || l.WorkerBlockDone? || l.WorkerSaved? || l.WorkerFails?
    requires WorkerStep(cfg, d, m, l).Some?
    ensures
      var after := WorkerStep(cfg, d, m, l).value;
      Inv(cfg, after) && Advances(d, after.data)
  {
    match l
    case WorkerRead(w) =>
      var b := m.workers[w].b;
      WorkerGoesOn(cfg, d, d, m, w, Filling(b, if d.checkpoint.Some? then d.checkpoint.value + 1 else b, 0));
    case WorkerFails(w) => WorkerGoesOn(cfg, d, d, m, w, Reading(0));
    case WorkerOp(w, acknowledged) => WorkerOpKeeps(cfg, d, m, w, acknowledged);
    case WorkerBlockDone(w) => WorkerBlockDoneKeeps(cfg, d, m, w);
    case WorkerSaved(w, acknowledged) => WorkerSavedKeeps(cfg, d, m, w, acknowledged);
  }

  /** After whatever a worker did to the database, it moves on, or takes the next head. */
  lemma WorkerGoesOn(cfg: Config, d: Data, after: Data, m: Memory, w: nat, worker: Worker)
    requires Inv(cfg, Sys(d, m)) && w in m.workers && Recorded(cfg, after)
    ensures Inv(cfg, Sys(after, TakeNext(m, w)))
    ensures WorkerPlaced(cfg, after, worker) ==> Inv(cfg, Sys(after, Assign(m, w, worker)))
  {
  }

  lemma StepKeeps(cfg: Config, s: Sys, l: Label)
    requires Consistent(cfg.chain) && Inv(cfg, s) && Next(cfg, s, l).Some?
    ensures Inv(cfg, Next(cfg, s, l).value) && Advances(s.data, Next(cfg, s, l).value.data)
  {
    if l.Crash? || l.ConnectionLost? {
    } else if l.FinalizedHead? {
      WakeKeeps(s.mem, l.b);
    } else if l.TaskOp? || l.TaskBlockDone? || l.TaskSaved? {
      CatchUpStepKeeps(cfg, s.data, s.mem, l);
    } else if l.WorkerRead? || l.WorkerOp? || l.WorkerBlockDone? || l.WorkerSaved? || l.WorkerFails? {
      WorkerStepKeeps(cfg, s.data, s.mem, l);
    } else {
      StartStepKeeps(cfg, s.data, s.mem, l);
    }
  }

  /** Along a run, the invariant holds everywhere. */
  lemma {:induction false} RunKeeps(cfg: Config, states: seq<Sys>, labels: seq<Label>, i: nat)
    requires Consistent(cfg.chain) && Run(cfg, states, labels) && i < |states|
    ensures Inv(cfg, states[i])
    ensures i > 0 ==> Advances(states[i - 1].data, states[i].data)
    decreases i
  {
    if i > 0 {
      RunKeeps(cfg, states, labels, i - 1);
      StepKeeps(cfg, states[i - 1], labels[i - 1]);
    }
  }

  // ---------- the loops of one activity ----------

  /** A later state of the same database: the checkpoint did not go back, what came first stayed. */
  ghost predicate Later(d: Data, after: Data) {
    && (d.checkpoint.Some? ==> after.checkpoint.Some? && d.checkpoint.value <= after.checkpoint.value)
    && (d.base.Some? ==> after.base == d.base && after.start == d.start)
  }

  /** The loops between two awaits of the single writer, run without interruption; any awaited call may throw. */
  class BlockIndexerService {
    const cfg: Config
    var data: Data
    /** How many calls have failed. */
    ghost var faults: nat

    constructor (cfg: Config, data: Data)
      ensures this.cfg == cfg && this.data == data && faults == 0
    {
      this.cfg, this.data, faults := cfg, data, 0;
    }

    /** All operations of one block, from the first, whatever an earlier attempt already did. */
    method ProcessBlock(n: nat) returns (o: Outcome<Fault>)
      requires Consistent(cfg.chain) && Recorded(cfg, data) && IsNext(data, n)
      modifies this`data, this`faults
      ensures Recorded(cfg, data) && data.checkpoint == old(data.checkpoint) && Later(old(data), data)
      ensures o.Pass? ==> Through(cfg, data, n)
      ensures faults >= old(faults) && (o.Fail? ==> faults > old(faults) || !cfg.chain.completes(n))
      ensures o.Pass? ==> faults == old(faults) && cfg.chain.completes(n)
    {
      if * { faults := faults + 1; return Fail(Thrown); }
      var i := 0;
      while i < |cfg.chain.ops(n)|
        invariant i <= |cfg.chain.ops(n)| && Recorded(cfg, data) && At(cfg, data, n, i) && faults == old(faults)
        invariant data.checkpoint == old(data.checkpoint) && data.base == old(data.base)
                  && data.start == old(data.start)
      {
        if * { faults := faults + 1; return Fail(Thrown); }
        OperateKeeps(cfg, data, n, i);
        data := Operate(cfg, data, n, i);
        if * { faults := faults + 1; return Fail(Thrown); }
        i := i + 1;
      }
      if !cfg.chain.completes(n) { return Fail(Thrown); }
      DoneKeeps(cfg, data, n);
      data := Done(data, n);
      o := Pass;
    }

    /** Processes one block and saves it. */
    method IndexBlock(n: nat) returns (o: Outcome<Fault>)
      requires Consistent(cfg.chain) && Recorded(cfg, data) && IsNext(data, n)
      modifies this`data, this`faults
      ensures Recorded(cfg, data) && Later(old(data), data)
      ensures o.Pass? ==> data.checkpoint == Some(n)
      ensures faults >= old(faults) && (o.Fail? ==> faults > old(faults) || !cfg.chain.completes(n))
      ensures o.Pass? ==> faults == old(faults) && cfg.chain.completes(n)
    {
      o := ProcessBlock(n);
      if o.Fail? { return; }
      if * { faults := faults + 1; return Fail(Thrown); }
      SaveKeeps(cfg, data, n);
      data := Save(data, n);
      if * { faults := faults + 1; return Fail(Thrown); }
    }

    /** A finalised head, and every block before it that no notification announced. */
    method ProcessNewFinalizedBlock(b: nat) returns (o: Outcome<Fault>)
      requires Consistent(cfg.chain) && Recorded(cfg, data)
      modifies this`data, this`faults
      ensures Recorded(cfg, data) && Later(old(data), data)
      ensures o.Pass? ==> data.checkpoint.Some? && b <= data.checkpoint.value
      ensures old(data.checkpoint).Some? && b <= old(data.checkpoint).value ==> data == old(data)
      ensures o.Pass? && (old(data.checkpoint).Some? ==> b > old(data.checkpoint).value) ==> data.checkpoint == Some(b)
      ensures faults >= old(faults)
      ensures faults == old(faults) && (forall n: nat :: n <= b ==> cfg.chain.completes(n)) ==> o.Pass?
    {
      if * { faults := faults + 1; return Fail(Thrown); }
      var next := if data.checkpoint.Some? then data.checkpoint.value + 1 else b;
      if b < next { return Pass; }
      for n := next to b
        invariant Recorded(cfg, data) && IsNext(data, n) && Later(old(data), data)
        invariant n > next ==> data.checkpoint.Some?
        invariant faults == old(faults)
      {
        var indexed := IndexBlock(n);
        if indexed.Fail? { return indexed; }
      }
      o := IndexBlock(b);
    }

    /** The catch-up loop, in batches, against the heads the chain reports in turn; it ends at a head already passed. If
        nothing fails and no such head is reported, it goes on with each of them. */
    method CatchUp(from: nat, heads: seq<nat>) returns (o: Outcome<Fault>, next: nat)
      requires Consistent(cfg.chain) && Recorded(cfg, data) && IsNext(data, from)
      modifies this`data, this`faults
      ensures Recorded(cfg, data) && Later(old(data), data)
      ensures o.Pass? ==> from <= next && IsNext(data, next) && exists h :: h in heads && h < next
      ensures o.Pass? && from < next ==> data.checkpoint == Some(next - 1)
      ensures faults >= old(faults)
      ensures faults == old(faults) && (forall n :: cfg.chain.completes(n)) ==> o.Pass? || from + |heads| <= next
      ensures o.Fail? && faults == old(faults) && (forall n :: cfg.chain.completes(n)) && heads != [] ==>
                data.checkpoint == Some(next - 1)
    {
      next := from;
      for round := 0 to |heads|
        invariant from <= next && Recorded(cfg, data) && IsNext(data, next) && Later(old(data), data)
        invariant from < next ==> data.checkpoint == Some(next - 1)
        invariant from + round <= next && faults == old(faults)
      {
        var finalized := heads[round];
        assert finalized in heads;
        if next > finalized { return Pass, next; }
        var last := if next + BATCH_SIZE - 1 <= finalized then next + BATCH_SIZE - 1 else finalized;
        for n := next to last + 1
          invariant Recorded(cfg, data) && IsNext(data, n) && Later(old(data), data)
          invariant from < n ==> data.checkpoint == Some(n - 1)
          invariant faults == old(faults)
        {
          var indexed := IndexBlock(n);
          if indexed.Fail? { return indexed, n; }
        }
        next := last + 1;
      }
      return Fail(Thrown), next;
    }
  }

  // ---------- what holds at every moment of every run ----------

  /** No gap: every block from the first one ever checkpointed up to the checkpoint has been processed to its end. */
  lemma NoGapBelowCheckpoint(cfg: Config, states: seq<Sys>, labels: seq<Label>, i: nat)
    requires Consistent(cfg.chain) && Run(cfg, states, labels) && i < |states|
    ensures
      var d := states[i].data;
      d.checkpoint.Some? ==>
        && d.base.Some? && d.base.value <= d.checkpoint.value
        && forall n :: d.base.value <= n <= d.checkpoint.value ==> n in d.processed
  {
    RunKeeps(cfg, states, labels, i);
  }

  /** The checkpoint never decreases and moves one block at a time; the first checkpointed block stays the first. */
  lemma {:induction false} CheckpointNeverDecreases(cfg: Config, states: seq<Sys>, labels: seq<Label>, i: nat, j: nat)
    requires Consistent(cfg.chain) && Run(cfg, states, labels) && i <= j < |states| && states[i].data.checkpoint.Some?
    ensures
      var d, e := states[i].data, states[j].data;
      && e.checkpoint.Some? && d.checkpoint.value <= e.checkpoint.value <= d.checkpoint.value + (j - i)
      && e.base == d.base && e.start == d.start
    decreases j
  {
    RunKeeps(cfg, states, labels, j);
    if i < j {
      CheckpointNeverDecreases(cfg, states, labels, i, j - 1);
      RunKeeps(cfg, states, labels, j - 1);
    }
  }

  /** The number of suspended activities that are about to write anchors or the checkpoint. */
  function Writers(m: Memory): nat {
    |set t | 0 <= t < |m.tasks| && m.tasks[t].Writes()| + |m.workers|
  }

  lemma DisciplinedWriters(m: Memory)
    requires Disciplined(m)
    ensures Writers(m) <= 1 && |m.workers| <= 1
  {
    var writing := set t | 0 <= t < |m.tasks| && m.tasks[t].Writes();
    assert |m.workers| == |m.workers.Keys|;
    assert writing <= {0};
    if writing != {} { assert writing == {0}; }
  }

  /** One writer at a time, one start() call or reconnect at a time, and no head waits without a worker to take it. */
  lemma SingleWriterNoLostWakeUp(cfg: Config, states: seq<Sys>, labels: seq<Label>, i: nat)
    requires Consistent(cfg.chain) && Run(cfg, states, labels) && i < |states|
    ensures
      var m := states[i].mem;
      && Writers(m) <= 1 && |m.tasks| <= 1 && |m.workers| <= 1
      && (m.queue != [] ==> m.workers != map[]) && (m.tasks == [] <==> m.live)
  {
    RunKeeps(cfg, states, labels, i);
    DisciplinedWriters(states[i].mem);
  }

  /** Failures and replays leave the anchors of one clean pass over the checkpointed blocks, and part of the next. */
  lemma ReplayEqualsCleanPass(cfg: Config, states: seq<Sys>, labels: seq<Label>, i: nat)
    requires Consistent(cfg.chain) && Run(cfg, states, labels) && i < |states| && states[i].data.checkpoint.Some?
    ensures
      var d, next := states[i].data, states[i].data.checkpoint.value + 1;
      && d.base.Some? && d.progress <= |cfg.chain.ops(next)|
      && d.view == SeeAll(CleanPass(cfg.chain, d.start, d.base.value + 1, next), cfg.chain.ops(next)[..d.progress])
  {
    RunKeeps(cfg, states, labels, i);
  }

  // ---------- what a clean pass leaves ----------

  ghost predicate Occurs(ops: seq<Op>, key: string) {
    exists i :: 0 <= i < |ops| && ops[i].key == key
  }

  function Met(view: View, op: Op): Seen {
    if op.key !in view then op.seen
    else if op.seen.wireFormat.Some? then view[op.key].(wireFormat := op.seen.wireFormat)
    else view[op.key]
  }

  /** What a sequence of operations must have done to a key. */
  ghost predicate SeenAs(view: View, after: View, ops: seq<Op>, m: nat, key: string)
    requires m <= |ops|
  {
    && (key in after <==> key in view || Occurs(ops[..m], key))
    && (!Occurs(ops[..m], key) && key in view ==> after[key] == view[key])
    && (forall i :: 0 <= i < m && ops[i].key == key ==> key in after && after[key] == Met(view, ops[i]))
  }

  lemma OccursNext(ops: seq<Op>, m: nat, key: string)
    requires m < |ops|
    ensures Occurs(ops[..m + 1], key) <==> Occurs(ops[..m], key) || ops[m].key == key
  {
    if Occurs(ops[..m], key) {
      var i :| 0 <= i < |ops[..m]| && ops[..m][i].key == key;
      assert ops[..m + 1][i].key == key;
    }
    if ops[m].key == key { assert ops[..m + 1][m].key == key; }
  }

  lemma OneMoreSeen(view: View, after: View, ops: seq<Op>, m: nat, key: string)
    requires KeyDecidesOp(ops) && m < |ops| && SeenAs(view, after, ops, m, key)
    ensures SeenAs(view, See(after, ops[m]), ops, m + 1, key)
  {
    OccursNext(ops, m, key);
    if Occurs(ops[..m], key) && ops[m].key == key {
      var i :| 0 <= i < |ops[..m]| && ops[..m][i].key == key;
      assert ops[i] == ops[m];
    }
  }

  lemma {:induction false} SeeAllMeaning(view: View, ops: seq<Op>, m: nat, key: string)
    requires KeyDecidesOp(ops) && m <= |ops|
    ensures SeenAs(view, SeeAll(view, ops[..m]), ops, m, key)
    decreases m
  {
    if m > 0 {
      var before: nat := m - 1;
      SeeAllMeaning(view, ops, before, key);
      OneMoreSeen(view, SeeAll(view, ops[..before]), ops, before, key);
      SeeNext(view, ops, before);
    }
  }

  /** No block from `from` up to, but without, `end` mentions the key. */
  ghost predicate Unmentioned(chain: Chain, from: nat, end: nat, key: string) {
    forall n :: from <= n < end ==> !Occurs(chain.ops(n), key)
  }

  lemma BlockMeaning(chain: Chain, view: View, n: nat, key: string)
    requires Consistent(chain)
    ensures key in SeeAll(view, chain.ops(n)) <==> key in view || Occurs(chain.ops(n), key)
    ensures !Occurs(chain.ops(n), key) && key in view ==> SeeAll(view, chain.ops(n))[key] == view[key]
    ensures forall i :: 0 <= i < |chain.ops(n)| && chain.ops(n)[i].key == key ==>
              key in SeeAll(view, chain.ops(n)) && SeeAll(view, chain.ops(n))[key] == Met(view, chain.ops(n)[i])
  {
    var ops := chain.ops(n);
    assert ops[..|ops|] == ops;
    SeeAllMeaning(view, ops, |ops|, key);
  }

  lemma {:induction false} UnmentionedStays(chain: Chain, view: View, from: nat, end: nat, key: string)
    requires Consistent(chain) && Unmentioned(chain, from, end, key)
    ensures key in CleanPass(chain, view, from, end) <==> key in view
    ensures key in view ==> CleanPass(chain, view, from, end)[key] == view[key]
    decreases end
  {
    if from < end {
      UnmentionedStays(chain, view, from, end - 1, key);
      BlockMeaning(chain, CleanPass(chain, view, from, end - 1), end - 1, key);
    }
  }

  /** A new anchor keeps the node, block, content and owner of its lowest occurrence. */
  lemma {:induction false} LowestOccurrenceStays(
      chain: Chain, view: View, from: nat, end: nat, key: string, first: nat, i: nat)
    requires Consistent(chain) && key !in view && from <= first < end && Unmentioned(chain, from, first, key)
    requires i < |chain.ops(first)| && chain.ops(first)[i].key == key
    ensures key in CleanPass(chain, view, from, end)
    ensures CleanPass(chain, view, from, end)[key].(wireFormat := None) == chain.ops(first)[i].seen.(wireFormat := None)
    decreases end
  {
    var before := CleanPass(chain, view, from, end - 1);
    BlockMeaning(chain, before, end - 1, key);
    if first == end - 1 {
      UnmentionedStays(chain, view, from, end - 1, key);
    } else {
      LowestOccurrenceStays(chain, view, from, end - 1, key, first, i);
      if Occurs(chain.ops(end - 1), key) {
        var j :| 0 <= j < |chain.ops(end - 1)| && chain.ops(end - 1)[j].key == key;
        assert SeeAll(before, chain.ops(end - 1))[key] == Met(before, chain.ops(end - 1)[j]);
      }
    }
  }

  /** No block from `from` up to, but without, `end` names a wire format for the key. */
  ghost predicate Unnamed(chain: Chain, from: nat, end: nat, key: string) {
    forall n :: from <= n < end ==> !Names(chain.ops(n), key)
  }

  ghost predicate Names(ops: seq<Op>, key: string) {
    exists i :: 0 <= i < |ops| && ops[i].key == key && ops[i].seen.wireFormat.Some?
  }

  /** Its wire format is that of the latest occurrence that names one. */
  lemma {:induction false} LatestWireFormatWins(
      chain: Chain, view: View, from: nat, end: nat, key: string, last: nat, i: nat)
    requires Consistent(chain) && from <= last < end && Unnamed(chain, last + 1, end, key)
    requires i < |chain.ops(last)| && chain.ops(last)[i].key == key && chain.ops(last)[i].seen.wireFormat.Some?
    ensures key in CleanPass(chain, view, from, end)
    ensures CleanPass(chain, view, from, end)[key].wireFormat == chain.ops(last)[i].seen.wireFormat
    decreases end
  {
    var before: nat := end - 1;
    var earlier := CleanPass(chain, view, from, before);
    BlockMeaning(chain, earlier, before, key);
    if last < before {
      LatestWireFormatWins(chain, view, from, before, key, last, i);
      assert !Names(chain.ops(before), key);
      if Occurs(chain.ops(before), key) {
        var j :| 0 <= j < |chain.ops(before)| && chain.ops(before)[j].key == key;
        assert SeeAll(earlier, chain.ops(before))[key] == Met(earlier, chain.ops(before)[j]);
      }
    }
  }

  /** Together: whatever failed and was replayed on the way, an anchor first mentioned above the first checkpointed
      block stands with the node, block, content and owner of that mention. */
  lemma IndexedAnchor(cfg: Config, states: seq<Sys>, labels: seq<Label>, at: nat, key: string, first: nat, i: nat)
    requires Consistent(cfg.chain) && Run(cfg, states, labels) && at < |states|
    requires
      var d := states[at].data;
      && d.checkpoint.Some? && d.base.Some? && d.base.value < first <= d.checkpoint.value
      && key !in d.start && Unmentioned(cfg.chain, d.base.value + 1, first, key)
    requires i < |cfg.chain.ops(first)| && cfg.chain.ops(first)[i].key == key
    ensures key in states[at].data.view
    ensures states[at].data.view[key].(wireFormat := None) == cfg.chain.ops(first)[i].seen.(wireFormat := None)
  {
    var d := states[at].data;
    var next := d.checkpoint.value + 1;
    var clean := CleanPass(cfg.chain, d.start, d.base.value + 1, next);
    ReplayEqualsCleanPass(cfg, states, labels, at);
    LowestOccurrenceStays(cfg.chain, d.start, d.base.value + 1, next, key, first, i);
    StartedBlock(clean, cfg.chain.ops(next), d.progress, key);
  }

  /** What the part of the next block that took effect adds to an anchor: at most its wire format. */
  lemma StartedBlock(clean: View, ops: seq<Op>, progress: nat, key: string)
    requires KeyDecidesOp(ops) && progress <= |ops| && key in clean
    ensures
      var view := SeeAll(clean, ops[..progress]);
      && key in view && view[key].(wireFormat := None) == clean[key].(wireFormat := None)
      && (forall j :: 0 <= j < progress && ops[j].key == key && ops[j].seen.wireFormat.Some? ==>
            view[key].wireFormat == ops[j].seen.wireFormat)
      && (!Names(ops[..progress], key) ==> view[key].wireFormat == clean[key].wireFormat)
  {
    SeeAllMeaning(clean, ops, progress, key);
    forall j | 0 <= j < progress && ops[j].key == key
      ensures ops[..progress][j] == ops[j] && Occurs(ops[..progress], key)
    {
      assert ops[..progress][j].key == key;
    }
    if Occurs(ops[..progress], key) {
      var j :| 0 <= j < |ops[..progress]| && ops[..progress][j].key == key;
      assert ops[j].key == key;
    }
  }

  /** ... and with the wire format named last: by the part of the next block that took effect already, if it names one,
      otherwise by the latest block up to the checkpoint that does. */
  lemma IndexedWireFormat(cfg: Config, states: seq<Sys>, labels: seq<Label>, at: nat, key: string, last: nat, i: nat)
    requires Consistent(cfg.chain) && Run(cfg, states, labels) && at < |states|
    requires
      var d := states[at].data;
      && d.checkpoint.Some? && d.base.Some? && d.base.value < last <= d.checkpoint.value
      && Unnamed(cfg.chain, last + 1, d.checkpoint.value + 1, key)
    requires
      var ops := cfg.chain.ops(last);
      i < |ops| && ops[i].key == key && ops[i].seen.wireFormat.Some?
    ensures
      var d := states[at].data;
      var ops := cfg.chain.ops(d.checkpoint.value + 1);
      && key in d.view && d.progress <= |ops|
      && (forall j :: 0 <= j < d.progress && ops[j].key == key && ops[j].seen.wireFormat.Some? ==>
            d.view[key].wireFormat == ops[j].seen.wireFormat)
      && (!Names(ops[..d.progress], key) ==> d.view[key].wireFormat == cfg.chain.ops(last)[i].seen.wireFormat)
  {
    var d := states[at].data;
    var next := d.checkpoint.value + 1;
    var clean := CleanPass(cfg.chain, d.start, d.base.value + 1, next);
    ReplayEqualsCleanPass(cfg, states, labels, at);
    LatestWireFormatWins(cfg.chain, d.start, d.base.value + 1, next, key, last, i);
    StartedBlock(clean, cfg.chain.ops(next), d.progress, key);
  }
}
