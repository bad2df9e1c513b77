/** What becomes of the finalised heads: the realtime queue serves them in order, and catch-up hands over to it without
    leaving one out. */
module RealtimeHeads {
  import opened Wrappers
  import opened BlockIndexer

  /** The head the worker is at. */
  function Current(m: Memory): seq<nat> {
    if m.promise in m.workers then [m.workers[m.promise].b] else []
  }

  /** The heads not yet dealt with, in order: the one the worker is at, then the queue. */
  function Pending(m: Memory): seq<nat> {
    Current(m) + m.queue
  }

  predicate OfWorker(l: Label) {
    l.WorkerRead? || l.WorkerOp? || l.WorkerBlockDone? || l.WorkerSaved? || l.WorkerFails?
  }

  /** A call of the worker failed. */
  predicate WorkerFailed(l: Label) {
    l.WorkerFails? || (l.WorkerOp? && !l.acknowledged) || (l.WorkerSaved? && !l.acknowledged)
  }

  /** Everything that can make the indexer drop a head: a failing call, a lost connection, the end of the process. */
  predicate Disrupts(l: Label) {
    || WorkerFailed(l) || l.Crash? || l.ConnectionLost? || l.TaskFails?
    || (l.TaskOp? && !l.acknowledged) || (l.TaskSaved? && !l.acknowledged)
  }

  /** The checkpoint has passed the head. */
  predicate Covered(d: Data, b: nat) {
    d.checkpoint.Some? && b <= d.checkpoint.value
  }

  ghost predicate Stepping(cfg: Config, s: Sys, l: Label, after: Sys) {
    Consistent(cfg.chain) && Inv(cfg, s) && Next(cfg, s, l) == Some(after)
  }

  /** A new head goes to the end. */
  lemma HeadJoins(cfg: Config, s: Sys, l: Label, after: Sys)
    requires Stepping(cfg, s, l, after) && l.FinalizedHead?
    ensures Pending(after.mem) == Pending(s.mem) + [l.b]
  {
  }

  /** The worker goes on with its head, or leaves it for the next one: when a call failed, or when the checkpoint has
      passed it. */
  lemma WorkerServes(cfg: Config, s: Sys, l: Label, after: Sys)
    requires Stepping(cfg, s, l, after) && OfWorker(l)
    ensures Current(s.mem) != []
    ensures
      var b := Current(s.mem)[0];
      || Pending(after.mem) == Pending(s.mem)
      || (Pending(after.mem) == Pending(s.mem)[1..] && (WorkerFailed(l) || Covered(after.data, b)))
  {
    assert l.w == s.mem.promise;
    assert s.mem.queue != [] ==> s.mem.queue == [s.mem.queue[0]] + s.mem.queue[1..];
  }

  /** The same heads, worker and queue. */
  predicate SameHeads(m: Memory, after: Memory) {
    after.workers == m.workers && after.queue == m.queue && after.promise == m.promise
  }

  lemma StartLeavesHeads(cfg: Config, s: Sys, l: Label, after: Sys)
    requires Stepping(cfg, s, l, after) && !OfWorker(l) && !l.FinalizedHead? && !l.Crash? && !l.ConnectionLost?
    requires !l.TaskOp? && !l.TaskBlockDone? && !l.TaskSaved?
    ensures if l.TaskFails? then after.mem == StartFails(s.mem, l.t) else SameHeads(s.mem, after.mem)
    ensures l.TaskFails? ==> l.t < |s.mem.tasks| && !s.mem.reconnecting
  {
  }

  lemma CatchUpLeavesHeads(cfg: Config, s: Sys, l: Label, after: Sys)
    requires Stepping(cfg, s, l, after) && (l.TaskOp? || l.TaskBlockDone? || l.TaskSaved?)
    ensures l.t < |s.mem.tasks| && !s.mem.reconnecting
    ensures if Disrupts(l) then after.mem == StartFails(s.mem, l.t) else SameHeads(s.mem, after.mem)
  {
  }

  lemma FailureForgets(m: Memory, t: nat)
    requires Disciplined(m) && t < |m.tasks| && !m.reconnecting
    ensures Pending(StartFails(m, t)) == Current(m)
  {
    assert Pending(StartFails(m, t)) == Current(m) + [];
  }

  /** Every other step leaves the heads alone, except that a reconnect forgets those the worker has not taken, and a new
      process knows of none. */
  lemma OthersLeaveHeads(cfg: Config, s: Sys, l: Label, after: Sys)
    requires Stepping(cfg, s, l, after) && !OfWorker(l) && !l.FinalizedHead?
    ensures l.Crash? ==> Pending(after.mem) == []
    ensures !l.Crash? ==> Pending(after.mem) == if Disrupts(l) then Current(s.mem) else Pending(s.mem)
  {
    if l.Crash? {
    } else if l.ConnectionLost? {
      assert Pending(after.mem) == Current(s.mem) + [];
    } else if l.TaskOp? || l.TaskBlockDone? || l.TaskSaved? {
      CatchUpLeavesHeads(cfg, s, l, after);
      if Disrupts(l) { FailureForgets(s.mem, l.t); }
    } else {
      StartLeavesHeads(cfg, s, l, after);
      if l.TaskFails? { FailureForgets(s.mem, l.t); }
    }
  }

  /** No head gets lost: from its notification on, as long as no call fails and neither the connection nor the process
      is lost, it is waiting, being filled up to, or passed by the checkpoint. */
  lemma {:induction false} HeadIsServed(cfg: Config, states: seq<Sys>, labels: seq<Label>, i: nat, j: nat)
    requires Consistent(cfg.chain) && Run(cfg, states, labels) && i < j < |states| && labels[i].FinalizedHead?
    requires forall k :: i < k < j ==> !Disrupts(labels[k])
    ensures labels[i].b in Pending(states[j].mem) || Covered(states[j].data, labels[i].b)
    decreases j
  {
    var last: nat := j - 1;
    RunKeeps(cfg, states, labels, last);
    RunKeeps(cfg, states, labels, j);
    assert Stepping(cfg, states[last], labels[last], states[j]);
    if last == i {
      HeadJoins(cfg, states[i], labels[i], states[j]);
    } else {
      HeadIsServed(cfg, states, labels, i, last);
      HeadStays(cfg, states[last], labels[last], states[j], labels[i].b);
    }
  }

  lemma HeadStays(cfg: Config, s: Sys, l: Label, after: Sys, b: nat)
    requires Stepping(cfg, s, l, after) && !Disrupts(l) && Advances(s.data, after.data)
    requires b in Pending(s.mem) || Covered(s.data, b)
    ensures b in Pending(after.mem) || Covered(after.data, b)
  {
    if l.FinalizedHead? {
      HeadJoins(cfg, s, l, after);
    } else if OfWorker(l) {
      WorkerServes(cfg, s, l, after);
      assert Pending(s.mem) == [Current(s.mem)[0]] + Pending(s.mem)[1..];
    } else {
      OthersLeaveHeads(cfg, s, l, after);
    }
  }

  /** Catch-up goes from the block after the checkpoint, at most ten blocks at a time, to the finalised head, and
      subscribes only when the checkpoint has passed the head it was told. */
  lemma CatchUpHandsOver(cfg: Config, states: seq<Sys>, labels: seq<Label>, i: nat)
    requires Consistent(cfg.chain) && Run(cfg, states, labels) && i < |labels| && labels[i].HeadFound?
    ensures |states[i].mem.tasks| == 1 && states[i].mem.tasks[0].FindingHead? && |states[i + 1].mem.tasks| == 1
    ensures
      var d, from, finalized := states[i].data, states[i].mem.tasks[0].from, labels[i].finalized;
      var task := states[i + 1].mem.tasks[0];
      && states[i + 1].data == d && IsNext(d, from)
      && (task.Subscribing? <==> finalized < from)
      && (d.checkpoint.Some? ==> (task.Subscribing? <==> Covered(d, finalized)))
      && (!task.Subscribing? ==>
            && task == Indexing(from, task.to, 0) && from <= task.to <= finalized
            && (task.to < finalized ==> task.to + 1 == from + 10))
  {
    RunKeeps(cfg, states, labels, i);
    assert Next(cfg, states[i], labels[i]) == Some(states[i + 1]);
  }
}
