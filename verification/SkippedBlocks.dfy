/** Which blocks the indexer may pass over, and when. */
module SkippedBlocks {
  import opened Wrappers
  import opened BlockIndexer

  /** The checkpoint has passed the block, which was never processed to its end. */
  predicate PassedOver(d: Data, b: nat) {
    d.checkpoint.Some? && b <= d.checkpoint.value && b !in d.processed
  }

  /** Steps from this state on can pass over the block. */
  ghost predicate MayBePassedOver(cfg: Config, s: Sys, b: nat) {
    exists states: seq<Sys>, labels: seq<Label> :: PassesOver(cfg, s, b, states, labels)
  }

  ghost predicate PassesOver(cfg: Config, s: Sys, b: nat, states: seq<Sys>, labels: seq<Label>) {
    Steps(cfg, states, labels) && states[0] == s && PassedOver(states[|labels|].data, b)
  }

  // ---------- what every run keeps ----------

  /** A start block of 0 is where the checkpoint starts: until it is saved, nothing else is indexed and no head
      heard. */
  ghost predicate FromZero(s: Sys) {
    && (s.data.checkpoint.Some? <==> s.data.base == Some(0))
    && (s.data.checkpoint.None? ==>
          && !s.mem.subscribed && s.mem.workers == map[] && s.data.base.None?
          && forall t :: t in s.mem.tasks ==> TaskAtZero(t))
  }

  predicate TaskAtZero(t: Task) {
    match t
    case FindingStart => false
    case FindingHead(from) => from == 0
    case Indexing(n, to, done) => n == 0
    case SavingBlock(n, to) => n == 0
    case Subscribing => false
    case _ => true
  }

  /** Only blocks that complete are processed. */
  ghost predicate Grounded(cfg: Config, s: Sys) {
    && (forall n :: n in s.data.processed ==> cfg.chain.completes(n))
    && (cfg.startBlock == Some(0) ==> FromZero(s))
  }

  lemma StartStepKeepsGrounded(cfg: Config, s: Sys, l: Label)
    requires Grounded(cfg, s)
    requires l.Connected? || l.StateRead? || l.StartFound? || l.HeadFound? || l.Subscribed? || l.TaskFails?
              || l.Drained? || l.Reconnected?
    requires StartStep(cfg, s.data, s.mem, l).Some?
    ensures Grounded(cfg, Sys(s.data, StartStep(cfg, s.data, s.mem, l).value))
  {
    assert s.mem.tasks[l.t] in s.mem.tasks;
    forall t, task | 0 <= t < |s.mem.tasks| && task in Without(s.mem.tasks, t)
      ensures task in s.mem.tasks
    {
    }
  }

  lemma CatchUpStepKeepsGrounded(cfg: Config, s: Sys, l: Label)
    requires Grounded(cfg, s) && (l.TaskOp? || l.TaskBlockDone? || l.TaskSaved?)
    requires CatchUpStep(cfg, s.data, s.mem, l).Some?
    ensures Grounded(cfg, CatchUpStep(cfg, s.data, s.mem, l).value)
  {
    assert s.mem.tasks[l.t] in s.mem.tasks;
    forall task | task in Without(s.mem.tasks, l.t)
      ensures task in s.mem.tasks
    {
    }
  }

  lemma StepKeepsGrounded(cfg: Config, s: Sys, l: Label)
    requires Grounded(cfg, s) && Next(cfg, s, l).Some?
    ensures Grounded(cfg, Next(cfg, s, l).value)
  {
    if l.TaskOp? || l.TaskBlockDone? || l.TaskSaved? {
      CatchUpStepKeepsGrounded(cfg, s, l);
    } else if l.Connected? || l.StateRead? || l.StartFound? || l.HeadFound? || l.Subscribed? || l.TaskFails?
              || l.Drained? || l.Reconnected?
    {
      StartStepKeepsGrounded(cfg, s, l);
    }
  }

  lemma {:induction false} RunKeepsGrounded(cfg: Config, states: seq<Sys>, labels: seq<Label>, i: nat)
    requires Run(cfg, states, labels) && i < |states|
    ensures Grounded(cfg, states[i])
    decreases i
  {
    if i > 0 {
      var before: nat := i - 1;
      RunKeepsGrounded(cfg, states, labels, before);
      assert Next(cfg, states[before], labels[before]) == Some(states[i]);
      StepKeepsGrounded(cfg, states[before], labels[before]);
    }
  }

  /** A run up to some moment, and any steps from there, make a run. */
  lemma Continued(cfg: Config, states: seq<Sys>, labels: seq<Label>, at: nat, on: seq<Sys>, taken: seq<Label>)
    returns (longer: seq<Sys>, more: seq<Label>)
    requires Run(cfg, states, labels) && at < |states| && Steps(cfg, on, taken) && on[0] == states[at]
    ensures Run(cfg, longer, more) && |longer| == at + |on| && longer[at] == states[at]
    ensures longer[|longer| - 1] == on[|taken|]
  {
    longer, more := states[..at] + on, labels[..at] + taken;
    forall i | 0 <= i < |more|
      ensures Next(cfg, longer[i], more[i]) == Some(longer[i + 1])
    {
      if i < at {
        assert Next(cfg, states[i], labels[i]) == Some(states[i + 1]);
      } else {
        assert Next(cfg, on[i - at], taken[i - at]) == Some(on[i - at + 1]);
      }
    }
  }

  /** What a passed-over block tells of a moment of a run: a later block, the base, completes, and the start was
      not 0. */
  lemma PassedOverMeans(cfg: Config, states: seq<Sys>, labels: seq<Label>, i: nat, b: nat)
    requires Consistent(cfg.chain) && Run(cfg, states, labels) && i < |states| && PassedOver(states[i].data, b)
    ensures
      var d := states[i].data;
      d.base.Some? && b < d.base.value && cfg.chain.completes(d.base.value) && cfg.startBlock != Some(0)
  {
    NoGapBelowCheckpoint(cfg, states, labels, i);
    RunKeepsGrounded(cfg, states, labels, i);
  }

  // ---------- how a block is passed over ----------

  lemma StepAdded(cfg: Config, states: seq<Sys>, labels: seq<Label>, l: Label)
    returns (longer: seq<Sys>, more: seq<Label>)
    requires Steps(cfg, states, labels) && Next(cfg, states[|labels|], l).Some?
    ensures Steps(cfg, longer, more) && |more| == |labels| + 1 && states <= longer && labels <= more
    ensures longer[|more|] == Next(cfg, states[|labels|], l).value && more[|labels|] == l
  {
    longer, more := states + [Next(cfg, states[|labels|], l).value], labels + [l];
  }

  /** The process has one start() call and nothing else, before or after some awaits. */
  ghost predicate Alone(s: Sys, d: Data, task: Task) {
    s.data == d && s.mem.tasks == [task] && s.mem.workers == map[] && !s.mem.reconnecting
  }

  /** Nothing but the view and the progress differ. */
  ghost predicate SameCheckpoint(d: Data, after: Data) {
    after.checkpoint == d.checkpoint && after.processed == d.processed
  }

  lemma Replaced(task: Task, other: Task)
    ensures [task][0 := other] == [other] && Without([task], 0) == [] && Without([task], 0) + [other] == [other]
  {
  }

  /** Up to the decision where to start. */
  lemma Connects(cfg: Config, states: seq<Sys>, labels: seq<Label>, d: Data)
    returns (longer: seq<Sys>, more: seq<Label>)
    requires Steps(cfg, states, labels) && Alone(states[|labels|], d, Connecting) && d.checkpoint.None?
    ensures Steps(cfg, longer, more) && states <= longer && labels <= more
    ensures Alone(longer[|more|], d, if cfg.startBlock.None? then FindingStart else FindingHead(cfg.startBlock.value))
  {
    Replaced(Connecting, ReadingState);
    Replaced(ReadingState, FindingStart);
    if cfg.startBlock.Some? { Replaced(ReadingState, FindingHead(cfg.startBlock.value)); }
    longer, more := StepAdded(cfg, states, labels, Connected(0));
    longer, more := StepAdded(cfg, longer, more, StateRead(0));
  }

  /** All operations of a block in the catch-up loop, and the block's end. */
  lemma {:induction false} CatchesUp(
      cfg: Config, states: seq<Sys>, labels: seq<Label>, d: Data, n: nat, done: nat)
    returns (longer: seq<Sys>, more: seq<Label>)
    requires Steps(cfg, states, labels) && Alone(states[|labels|], d, Indexing(n, n, done))
    requires done <= |cfg.chain.ops(n)| && cfg.chain.completes(n)
    ensures Steps(cfg, longer, more) && states <= longer && labels <= more
    ensures longer[|more|].data.checkpoint == Some(n) && longer[|more|].data.processed == d.processed + {n}
    decreases |cfg.chain.ops(n)| - done
  {
    if done < |cfg.chain.ops(n)| {
      Replaced(Indexing(n, n, done), Indexing(n, n, done + 1));
      longer, more := StepAdded(cfg, states, labels, TaskOp(0, true));
      longer, more := CatchesUp(cfg, longer, more, Operate(cfg, d, n, done), n, done + 1);
    } else {
      Replaced(Indexing(n, n, done), SavingBlock(n, n));
      longer, more := StepAdded(cfg, states, labels, TaskBlockDone(0));
      longer, more := StepAdded(cfg, longer, more, TaskSaved(0, true));
    }
  }

  /** Started at "latest" when block n is the finalised head, the indexer begins there. */
  lemma StartsAtHead(cfg: Config, states: seq<Sys>, labels: seq<Label>, d: Data, n: nat)
    returns (longer: seq<Sys>, more: seq<Label>)
    requires Steps(cfg, states, labels) && Alone(states[|labels|], d, Connecting) && d.checkpoint.None?
    requires cfg.startBlock.None?
    ensures Steps(cfg, longer, more) && states <= longer && labels <= more && StartFound(0, n) in more
    ensures Alone(longer[|more|], d, Indexing(n, n, 0))
  {
    Replaced(FindingStart, FindingHead(n));
    Replaced(FindingHead(n), Indexing(n, n, 0));
    longer, more := Connects(cfg, states, labels, d);
    longer, more := StepAdded(cfg, longer, more, StartFound(0, n));
    var k := |more| - 1;
    assert more[k] == StartFound(0, n);
    longer, more := StepAdded(cfg, longer, more, HeadFound(0, n));
    assert more[k] == StartFound(0, n);
  }

  /** The worker is on block n, announced as a head. */
  ghost predicate Works(s: Sys, d: Data, w: nat, worker: Worker) {
    s.data == d && w in s.mem.workers && s.mem.workers[w] == worker && s.mem.queue == []
  }

  lemma {:induction false} WorkerIndexes(
      cfg: Config, states: seq<Sys>, labels: seq<Label>, d: Data, w: nat, n: nat, done: nat)
    returns (longer: seq<Sys>, more: seq<Label>)
    requires Steps(cfg, states, labels) && Works(states[|labels|], d, w, Filling(n, n, done))
    requires done <= |cfg.chain.ops(n)| && cfg.chain.completes(n)
    ensures Steps(cfg, longer, more) && states <= longer && labels <= more
    ensures longer[|more|].data.checkpoint == Some(n) && longer[|more|].data.processed == d.processed + {n}
    decreases |cfg.chain.ops(n)| - done
  {
    if done < |cfg.chain.ops(n)| {
      longer, more := StepAdded(cfg, states, labels, WorkerOp(w, true));
      longer, more := WorkerIndexes(cfg, longer, more, Operate(cfg, d, n, done), w, n, done + 1);
    } else {
      longer, more := StepAdded(cfg, states, labels, WorkerBlockDone(w));
      longer, more := StepAdded(cfg, longer, more, WorkerSaved(w, true));
    }
  }

  /** A subscribed process without a checkpoint and with an idle queue. */
  ghost predicate Idle(s: Sys, d: Data) {
    && s.data == d && d.checkpoint.None? && s.mem.subscribed && s.mem.queue == [] && s.mem.workers == map[]
    && !s.mem.realtimeProcessing
  }

  /** A head arrives and the worker takes it. */
  lemma HeadTaken(cfg: Config, states: seq<Sys>, labels: seq<Label>, d: Data, n: nat)
    returns (longer: seq<Sys>, more: seq<Label>, w: nat)
    requires Steps(cfg, states, labels) && Idle(states[|labels|], d)
    ensures Steps(cfg, longer, more) && states <= longer && labels <= more && |more| == |labels| + 1
    ensures more[|labels|] == FinalizedHead(n)
    ensures Works(longer[|more|], d, w, Reading(n)) && longer[|more|].mem.subscribed
    ensures longer[|more|].mem.workers == map[w := Reading(n)]
  {
    var m := states[|labels|].mem;
    w := m.nextWorker;
    assert (m.queue + [n])[1..] == m.queue && (m.queue + [n])[0] == n;
    longer, more := StepAdded(cfg, states, labels, FinalizedHead(n));
  }

  /** A head arrives and is processed to its end. */
  lemma HeadIndexed(cfg: Config, states: seq<Sys>, labels: seq<Label>, d: Data, n: nat)
    returns (longer: seq<Sys>, more: seq<Label>)
    requires Steps(cfg, states, labels) && Idle(states[|labels|], d) && cfg.chain.completes(n)
    ensures Steps(cfg, longer, more) && states <= longer && labels <= more
    ensures longer[|more|].data.checkpoint == Some(n) && longer[|more|].data.processed == d.processed + {n}
  {
    var w;
    longer, more, w := HeadTaken(cfg, states, labels, d, n);
    longer, more := StepAdded(cfg, longer, more, WorkerRead(w));
    longer, more := WorkerIndexes(cfg, longer, more, d, w, n, 0);
  }

  /** Configured to start ahead of the chain, the indexer subscribes without a checkpoint. */
  lemma SubscribesEarly(cfg: Config, states: seq<Sys>, labels: seq<Label>, d: Data)
    returns (longer: seq<Sys>, more: seq<Label>)
    requires Steps(cfg, states, labels) && states[|labels|] == Sys(d, BOOT) && d.checkpoint.None?
    requires cfg.startBlock.Some? && cfg.startBlock.value > 0
    ensures Steps(cfg, longer, more) && states <= longer && labels <= more && Idle(longer[|more|], d)
  {
    var x := cfg.startBlock.value;
    Replaced(Connecting, ReadingState);
    Replaced(ReadingState, FindingHead(x));
    Replaced(FindingHead(x), Subscribing);
    longer, more := StepAdded(cfg, states, labels, Connected(0));
    longer, more := StepAdded(cfg, longer, more, StateRead(0));
    longer, more := StepAdded(cfg, longer, more, HeadFound(0, x - 1));
  }

  /** From any state without a checkpoint, a restart can make a later block the first one saved. */
  lemma BaseAtLaterBlock(cfg: Config, s: Sys, n: nat) returns (states: seq<Sys>, labels: seq<Label>)
    requires s.data.checkpoint.None? && cfg.startBlock != Some(0) && cfg.chain.completes(n)
    ensures Steps(cfg, states, labels) && states[0] == s
    ensures
      var d := states[|labels|].data;
      d.checkpoint == Some(n) && d.processed == s.data.processed + {n}
  {
    states, labels := StepAdded(cfg, [s], [], Crash);
    if cfg.startBlock.None? {
      states, labels := StartsAtHead(cfg, states, labels, s.data, n);
      states, labels := CatchesUp(cfg, states, labels, s.data, n, 0);
    } else {
      states, labels := SubscribesEarly(cfg, states, labels, s.data);
      states, labels := HeadIndexed(cfg, states, labels, s.data, n);
    }
  }

  // ---------- exactly when ----------

  /** At any moment of any run: once a checkpoint is saved, no block behind it is ever passed over. Before that, a block
      not yet processed can be passed over exactly when the indexer is not configured to start at block 0 and some later
      block can be completed. */
  lemma PassedOverExactly(cfg: Config, states: seq<Sys>, labels: seq<Label>, at: nat, b: nat)
    requires Consistent(cfg.chain) && Run(cfg, states, labels) && at < |states|
    requires b !in states[at].data.processed
    ensures
      var d := states[at].data;
      d.checkpoint.Some? ==> (MayBePassedOver(cfg, states[at], b) <==> b <= d.checkpoint.value)
    ensures states[at].data.checkpoint.None? ==>
              (MayBePassedOver(cfg, states[at], b) <==>
                cfg.startBlock != Some(0) && exists n :: n > b && cfg.chain.completes(n))
  {
    var s := states[at];
    forall on: seq<Sys>, taken: seq<Label> | PassesOver(cfg, s, b, on, taken)
      ensures s.data.checkpoint.Some? ==> b <= s.data.checkpoint.value
      ensures cfg.startBlock != Some(0) && exists n :: n > b && cfg.chain.completes(n)
    {
      OnlyThen(cfg, states, labels, at, b, on, taken);
    }
    if s.data.checkpoint.Some? && b <= s.data.checkpoint.value {
      assert PassesOver(cfg, s, b, [s], []);
    }
    if s.data.checkpoint.None? && cfg.startBlock != Some(0) {
      if n :| n > b && cfg.chain.completes(n) {
        var on, taken := BaseAtLaterBlock(cfg, s, n);
        assert PassesOver(cfg, s, b, on, taken);
      }
    }
  }

  lemma OnlyThen(
      cfg: Config, states: seq<Sys>, labels: seq<Label>, at: nat, b: nat, on: seq<Sys>, taken: seq<Label>)
    requires Consistent(cfg.chain) && Run(cfg, states, labels) && at < |states|
    requires PassesOver(cfg, states[at], b, on, taken)
    ensures states[at].data.checkpoint.Some? ==> b <= states[at].data.checkpoint.value
    ensures cfg.startBlock != Some(0) && exists n :: n > b && cfg.chain.completes(n)
  {
    var longer, more := Continued(cfg, states, labels, at, on, taken);
    PassedOverMeans(cfg, longer, more, |longer| - 1, b);
    if states[at].data.checkpoint.Some? {
      CheckpointNeverDecreases(cfg, longer, more, at, |longer| - 1);
      NoGapBelowCheckpoint(cfg, longer, more, at);
    }
  }

  // ---------- two runs in which it happens ----------

  const NO_DATA := Data(None, map[], {}, None, map[], 0)

  /** A first head that fails is not made up for: the next head that is processed becomes the base. */
  lemma FirstHeadMayBeSkipped(cfg: Config, b: nat, n: nat) returns (states: seq<Sys>, labels: seq<Label>)
    requires cfg.startBlock.Some? && cfg.startBlock.value > 0 && b < n && cfg.chain.completes(n)
    ensures Run(cfg, states, labels) && FinalizedHead(b) in labels
    ensures PassedOver(states[|labels|].data, b)
  {
    states, labels := SubscribesEarly(cfg, [Sys(NO_DATA, BOOT)], [], NO_DATA);
    var k, w := |labels|, 0;
    states, labels, w := HeadTaken(cfg, states, labels, NO_DATA, b);
    states, labels := StepAdded(cfg, states, labels, WorkerFails(w));
    assert map[w := Reading(b)] - {w} == map[];
    assert labels[k] == FinalizedHead(b);
    states, labels := HeadIndexed(cfg, states, labels, NO_DATA, n);
    assert labels[k] == FinalizedHead(b);
  }

  /** Nor is the block at which catch-up starts: if it fails, the reconnect asks for the finalised head again. */
  lemma FirstCaughtUpMayBeSkipped(cfg: Config, b: nat, n: nat) returns (states: seq<Sys>, labels: seq<Label>)
    requires cfg.startBlock.None? && b < n && cfg.chain.completes(n)
    ensures Run(cfg, states, labels) && StartFound(0, b) in labels
    ensures PassedOver(states[|labels|].data, b)
  {
    states, labels := StartsAtHead(cfg, [Sys(NO_DATA, BOOT)], [], NO_DATA, b);
    states, labels := Reconnects(cfg, states, labels, NO_DATA, b);
    states, labels := StartsAtHead(cfg, states, labels, NO_DATA, n);
    states, labels := CatchesUp(cfg, states, labels, NO_DATA, n, 0);
  }

  /** start() throws, and the reconnect calls it again. */
  lemma Reconnects(cfg: Config, states: seq<Sys>, labels: seq<Label>, d: Data, b: nat)
    returns (longer: seq<Sys>, more: seq<Label>)
    requires Steps(cfg, states, labels) && Alone(states[|labels|], d, Indexing(b, b, 0))
    ensures Steps(cfg, longer, more) && states <= longer && labels <= more && Alone(longer[|more|], d, Connecting)
  {
    var promise := states[|labels|].mem.promise;
    Replaced(Indexing(b, b, 0), Draining(promise));
    Replaced(Draining(promise), Waiting);
    Replaced(Waiting, Connecting);
    longer, more := StepAdded(cfg, states, labels, TaskFails(0));
    longer, more := StepAdded(cfg, longer, more, Drained(0));
    longer, more := StepAdded(cfg, longer, more, Reconnected(0));
  }
}
