/** Leases and records together: any number of processors that claim anchors and write their records. */
module LeasedRecords {
  import opened Wrappers
  import opened CpsKeys
  import opened Protocol
  import opened Records
  import opened AnchorQueue
  import opened Pipeline
  import opened Convergence
  import opened Processor
  import Leases

  /** The queue with its processes, the records, how many record writes each process has made, and for each anchor the
      claim under which it was completed last. */
  datatype Sys = Sys(queue: Leases.Sys, store: Store, progress: map<nat, nat>, completed: map<string, Anchor>)

  datatype Label =
    | Queue(l: Leases.Label)
    /** The process makes the next record write of its attempt. */
    | Keep(w: nat)

  /** All record writes of an attempt at a claimed anchor, with the marks it makes if the legacy projection fails. */
  function Attempt(cfg: Config, world: World, a: Anchor): seq<Record> {
    if Opens(a, world, cfg) then
      OnlineWrites(JobOf(a, world), PayloadBatch(a, world, cfg))
      + FailureWrites(JobOf(a, world), PayloadBatch(a, world, cfg))
    else []
  }

  /** The attempt has made all of its record writes and no mark. */
  predicate MadeAll(cfg: Config, world: World, a: Anchor, n: nat) {
    Opens(a, world, cfg) && n == |OnlineWrites(JobOf(a, world), PayloadBatch(a, world, cfg))|
  }

  function Progress(s: Sys, w: nat): nat {
    if w in s.progress then s.progress[w] else 0
  }

  predicate Completes(l: Leases.Label) { l.Complete? || l.CompleteUnseen? }

  /** Completion is written after all records of the attempt. */
  predicate Allowed(cfg: Config, world: World, s: Sys, l: Leases.Label) {
    Completes(l) && l.w in s.queue.holders ==>
      MadeAll(cfg, world, s.queue.holders[l.w].anchor, Progress(s, l.w))
  }

  predicate CanKeep(cfg: Config, world: World, s: Sys, w: nat) {
    && w in s.queue.holders && !s.queue.holders[w].completed
    && Progress(s, w) < |Attempt(cfg, world, s.queue.holders[w].anchor)|
  }

  /** The next record of the process's attempt. */
  function NextRecord(cfg: Config, world: World, s: Sys, w: nat): Record
    requires CanKeep(cfg, world, s, w)
  {
    Attempt(cfg, world, s.queue.holders[w].anchor)[Progress(s, w)]
  }

  /** What a queue step does beside the queue: a claim starts a new attempt, a completion is remembered. */
  function Aside(s: Sys, l: Leases.Label, queue: Leases.Sys): Sys {
    if l.Claim? then s.(queue := queue, progress := s.progress[l.w := 0])
    else if Completes(l) && l.w in s.queue.holders then
      var a := s.queue.holders[l.w].anchor;
      s.(queue := queue, completed := s.completed[a.sourceKey := a])
    else s.(queue := queue)
  }

  ghost function Next(cfg: Config, world: World, s: Sys, l: Label): Option<Sys> {
    match l
    case Queue(q) =>
      if !Allowed(cfg, world, s, q) then None
      else
        (match Leases.Next(cfg, s.queue, q)
         case None => None
         case Some(after) => Some(Aside(s, q, after)))
    case Keep(w) =>
      if CanKeep(cfg, world, s, w) then
        Some(s.(store := Put(s.store, NextRecord(cfg, world, s, w)), progress := s.progress[w := Progress(s, w) + 1]))
      else None
  }

  /** From an empty queue and any records; whoever holds an anchor finishes before its lease expires. */
  ghost predicate TimelyRun(cfg: Config, world: World, states: seq<Sys>, labels: seq<Label>) {
    && |states| == |labels| + 1 && cfg.leaseMs > 0
    && states[0].queue == Leases.Sys(states[0].queue.now, map[], map[], map[])
    && (forall i :: 0 <= i < |labels| ==> Next(cfg, world, states[i], labels[i]) == Some(states[i + 1]))
    && (forall i :: 0 <= i < |states| ==> Leases.Timely(states[i].queue))
  }

  // ---------- the invariant ----------

  /** The records show what the first n writes of the attempt left. */
  ghost predicate Shows(store: Store, attempt: seq<Record>, n: nat) {
    n <= |attempt| && forall key :: ShowsAt(store, attempt[..n], key)
  }

  ghost predicate ShowsAt(store: Store, done: seq<Record>, key: string) {
    match LastFor(done, key)
    case None => true
    case Some(r) => key in store.docs && store.docs[key] == Document(store.docs[key].id, r, None, None)
  }

  /** All positions of the anchor's batch hold their final records. */
  ghost predicate AllSettled(cfg: Config, world: World, store: Store, a: Anchor) {
    && Opens(a, world, cfg)
    && forall i :: 0 <= i < |PayloadBatch(a, world, cfg)| ==>
         Settled(JobOf(a, world), PayloadBatch(a, world, cfg), store, i)
  }

  ghost predicate HolderShown(cfg: Config, world: World, s: Sys, w: nat)
    requires w in s.queue.holders
  {
    !s.queue.holders[w].completed ==> Shows(s.store, Attempt(cfg, world, s.queue.holders[w].anchor), Progress(s, w))
  }

  ghost predicate CompletedSettled(cfg: Config, world: World, s: Sys, key: string)
    requires key in s.queue.docs
  {
    s.queue.docs[key].status.Completed() ==>
      && key in s.completed && s.completed[key].sourceKey == key
      && s.completed[key].attemptCount == s.queue.docs[key].attemptCount
      && AllSettled(cfg, world, s.store, s.completed[key])
  }

  ghost predicate Inv(cfg: Config, world: World, s: Sys) {
    && Leases.Inv(cfg, s.queue)
    && (forall w :: w in s.queue.holders ==> HolderShown(cfg, world, s, w))
    && (forall key :: key in s.queue.docs ==> CompletedSettled(cfg, world, s, key))
  }

  // ---------- record writes ----------

  /** Every record of an attempt is filed under its anchor. */
  ghost predicate FiledWith(r: Record, sourceKey: string) {
    exists i: nat :: r.recordKey == RecordKey(sourceKey, i)
  }

  lemma AttemptFiles(cfg: Config, world: World, a: Anchor, n: nat)
    requires n < |Attempt(cfg, world, a)|
    ensures FiledWith(Attempt(cfg, world, a)[n], a.sourceKey)
  {
    var job, batch := JobOf(a, world), PayloadBatch(a, world, cfg);
    AttemptWritesOwnKeys(job, batch);
    assert OwnKey(job, |batch|, Attempt(cfg, world, a)[n].recordKey);
  }

  /** Records of different anchors have different keys. */
  lemma FiledApart(r: Record, a: string, b: string, i: nat)
    requires FiledWith(r, a) && a != b
    ensures r.recordKey != RecordKey(b, i)
  {
    var j: nat :| r.recordKey == RecordKey(a, j);
    RecordKeyInjective(a, j, b, i);
  }

  lemma OwnWriteShows(store: Store, attempt: seq<Record>, n: nat)
    requires n < |attempt| && Shows(store, attempt, n)
    ensures Shows(Put(store, attempt[n]), attempt, n + 1)
  {
    var after, done := Put(store, attempt[n]), attempt[..n + 1];
    assert done[..n] == attempt[..n];
    forall key
      ensures ShowsAt(after, done, key)
    {
      assert ShowsAt(store, attempt[..n], key);
    }
  }

  /** A record of another anchor changes nothing of what is shown of an attempt ... */
  lemma OtherWriteShows(cfg: Config, world: World, store: Store, r: Record, a: Anchor, n: nat)
    requires Shows(store, Attempt(cfg, world, a), n)
    requires forall i: nat :: r.recordKey != RecordKey(a.sourceKey, i)
    ensures Shows(Put(store, r), Attempt(cfg, world, a), n)
  {
    var done, after := Attempt(cfg, world, a)[..n], Put(store, r);
    forall key
      ensures ShowsAt(after, done, key)
    {
      assert ShowsAt(store, done, key);
      LastForIsMember(done, key);
      if LastFor(done, key).Some? {
        var k :| 0 <= k < n && done[k] == LastFor(done, key).value;
        AttemptFiles(cfg, world, a, k);
      }
    }
  }

  /** ... and of positions that are settled. */
  lemma OtherWriteSettled(cfg: Config, world: World, store: Store, r: Record, a: Anchor)
    requires AllSettled(cfg, world, store, a)
    requires forall i: nat :: r.recordKey != RecordKey(a.sourceKey, i)
    ensures AllSettled(cfg, world, Put(store, r), a)
  {
    forall i | 0 <= i < |PayloadBatch(a, world, cfg)|
      ensures Settled(JobOf(a, world), PayloadBatch(a, world, cfg), Put(store, r), i)
    {
      assert Settled(JobOf(a, world), PayloadBatch(a, world, cfg), store, i);
      assert r.recordKey != RecordKey(a.sourceKey, i);
    }
  }

  lemma KeepFiles(cfg: Config, world: World, s: Sys, w: nat, other: string)
    requires CanKeep(cfg, world, s, w) && other != s.queue.holders[w].anchor.sourceKey
    ensures forall i: nat :: NextRecord(cfg, world, s, w).recordKey != RecordKey(other, i)
  {
    AttemptFiles(cfg, world, s.queue.holders[w].anchor, Progress(s, w));
    forall i: nat
      ensures NextRecord(cfg, world, s, w).recordKey != RecordKey(other, i)
    {
      FiledApart(NextRecord(cfg, world, s, w), s.queue.holders[w].anchor.sourceKey, other, i);
    }
  }

  /** A holder that may write is alone with its anchor, which is not completed. */
  lemma WritesAlone(cfg: Config, world: World, s: Sys, w: nat)
    requires Inv(cfg, world, s) && CanKeep(cfg, world, s, w)
    ensures
      var key := s.queue.holders[w].anchor.sourceKey;
      && key in s.queue.docs && !s.queue.docs[key].status.Completed()
      && forall v :: v in s.queue.holders && v != w ==> s.queue.holders[v].anchor.sourceKey != key
  {
    var key := s.queue.holders[w].anchor.sourceKey;
    assert Leases.AnchorInv(cfg, s.queue, key) && Leases.Holds(s.queue, w, key);
    forall v | v in s.queue.holders && v != w
      ensures s.queue.holders[v].anchor.sourceKey != key
    {
      assert Leases.Holds(s.queue, v, key) ==> v == w;
    }
  }

  lemma OwnKeepShows(cfg: Config, world: World, s: Sys, w: nat)
    requires CanKeep(cfg, world, s, w) && HolderShown(cfg, world, s, w)
    ensures HolderShown(cfg, world, Next(cfg, world, s, Keep(w)).value, w)
  {
    OwnWriteShows(s.store, Attempt(cfg, world, s.queue.holders[w].anchor), Progress(s, w));
  }

  lemma OtherKeepShows(cfg: Config, world: World, s: Sys, w: nat, v: nat)
    requires CanKeep(cfg, world, s, w) && v in s.queue.holders && v != w && HolderShown(cfg, world, s, v)
    requires s.queue.holders[v].anchor.sourceKey != s.queue.holders[w].anchor.sourceKey
    ensures HolderShown(cfg, world, Next(cfg, world, s, Keep(w)).value, v)
  {
    var h := s.queue.holders[v];
    if !h.completed {
      KeepFiles(cfg, world, s, w, h.anchor.sourceKey);
      OtherWriteShows(cfg, world, s.store, NextRecord(cfg, world, s, w), h.anchor, Progress(s, v));
    }
  }

  lemma KeepSettles(cfg: Config, world: World, s: Sys, w: nat, key: string)
    requires Inv(cfg, world, s) && CanKeep(cfg, world, s, w) && key in s.queue.docs
    ensures CompletedSettled(cfg, world, Next(cfg, world, s, Keep(w)).value, key)
  {
    assert CompletedSettled(cfg, world, s, key);
    if s.queue.docs[key].status.Completed() {
      WritesAlone(cfg, world, s, w);
      KeepFiles(cfg, world, s, w, key);
      OtherWriteSettled(cfg, world, s.store, NextRecord(cfg, world, s, w), s.completed[key]);
    }
  }

  lemma KeepKeeps(cfg: Config, world: World, s: Sys, w: nat)
    requires Inv(cfg, world, s) && CanKeep(cfg, world, s, w)
    ensures Inv(cfg, world, Next(cfg, world, s, Keep(w)).value)
  {
    var after := Next(cfg, world, s, Keep(w)).value;
    WritesAlone(cfg, world, s, w);
    forall v | v in after.queue.holders
      ensures HolderShown(cfg, world, after, v)
    {
      if v == w { OwnKeepShows(cfg, world, s, w); } else { OtherKeepShows(cfg, world, s, w, v); }
    }
    forall key | key in after.queue.docs
      ensures CompletedSettled(cfg, world, after, key)
    {
      KeepSettles(cfg, world, s, w, key);
    }
  }

  // ---------- queue steps ----------

  /** When all record writes of an attempt are made and shown, its positions are settled. */
  lemma MadeAllSettles(cfg: Config, world: World, store: Store, a: Anchor, n: nat)
    requires MadeAll(cfg, world, a, n) && Shows(store, Attempt(cfg, world, a), n)
    ensures AllSettled(cfg, world, store, a)
  {
    var job, batch := JobOf(a, world), PayloadBatch(a, world, cfg);
    assert Attempt(cfg, world, a)[..n] == OnlineWrites(job, batch);
    forall i | 0 <= i < |batch|
      ensures Settled(job, batch, store, i)
    {
      CompleteAttempt(job, batch, i);
      assert ShowsAt(store, Attempt(cfg, world, a)[..n], RecordKey(a.sourceKey, i));
    }
  }

  /** Holders after a queue step are holders from before, or have just claimed. */
  lemma HoldersStay(cfg: Config, s: Leases.Sys, l: Leases.Label, w: nat)
    requires Leases.Next(cfg, s, l).Some? && w in Leases.Next(cfg, s, l).value.holders
    ensures
      var h := Leases.Next(cfg, s, l).value.holders[w];
      || (l.Claim? && l.w == w)
      || (w in s.holders && h.anchor == s.holders[w].anchor && (!h.completed ==> !s.holders[w].completed))
  {
  }

  lemma QueueStepShows(cfg: Config, world: World, s: Sys, l: Leases.Label, w: nat, queue: Leases.Sys)
    requires Leases.Next(cfg, s.queue, l) == Some(queue) && w in queue.holders
    requires w in s.queue.holders ==> HolderShown(cfg, world, s, w)
    ensures HolderShown(cfg, world, Aside(s, l, queue), w)
  {
    HoldersStay(cfg, s.queue, l, w);
    if l.Claim? && l.w == w {
      NothingShown(s.store, Attempt(cfg, world, queue.holders[w].anchor));
    } else {
      assert Progress(Aside(s, l, queue), w) == Progress(s, w);
    }
  }

  lemma NothingShown(store: Store, attempt: seq<Record>)
    ensures Shows(store, attempt, 0)
  {
    assert attempt[..0] == [];
  }

  /** Only a completion by its holder makes an anchor completed; other steps leave a completed one's attempt alone. */
  lemma StaysCompleted(cfg: Config, s: Leases.Sys, l: Leases.Label, key: string)
    requires Leases.Inv(cfg, s) && Leases.Next(cfg, s, l).Some? && key in Leases.Next(cfg, s, l).value.docs
    requires Leases.Next(cfg, s, l).value.docs[key].status.Completed()
    requires !(Completes(l) && Leases.Holds(s, l.w, key))
    ensures
      var after := Leases.Next(cfg, s, l).value;
      key in s.docs && s.docs[key].status.Completed() && after.docs[key].attemptCount == s.docs[key].attemptCount
  {
    if Leases.Finishing(s, l) { FinishLeavesOthers(cfg, s, l, key); }
  }

  /** A status write leaves other anchors alone, and completes none unless it is a completion. */
  lemma FinishLeavesOthers(cfg: Config, s: Leases.Sys, l: Leases.Label, key: string)
    requires Leases.Finishing(s, l) && Leases.Next(cfg, s, l).Some? && key in Leases.Next(cfg, s, l).value.docs
    requires !(Completes(l) && Leases.Holds(s, l.w, key))
    ensures
      var after := Leases.Next(cfg, s, l).value;
      key in s.docs && (after.docs[key] == s.docs[key] || !after.docs[key].status.Completed())
  {
  }

  lemma HolderCompletes(cfg: Config, s: Leases.Sys, l: Leases.Label, key: string)
    requires Leases.Inv(cfg, s) && Leases.Next(cfg, s, l).Some? && Completes(l) && Leases.Holds(s, l.w, key)
    ensures
      var after := Leases.Next(cfg, s, l).value;
      && !s.holders[l.w].completed && key in after.docs
      && after.docs[key].attemptCount == s.holders[l.w].anchor.attemptCount
  {
    assert Leases.AnchorInv(cfg, s, key);
  }

  lemma QueueStepSettles(cfg: Config, world: World, s: Sys, l: Leases.Label, key: string)
    requires Inv(cfg, world, s) && Next(cfg, world, s, Queue(l)).Some?
    requires key in Next(cfg, world, s, Queue(l)).value.queue.docs
    ensures CompletedSettled(cfg, world, Next(cfg, world, s, Queue(l)).value, key)
  {
    var after := Next(cfg, world, s, Queue(l)).value;
    if after.queue.docs[key].status.Completed() {
      if Completes(l) && Leases.Holds(s.queue, l.w, key) {
        HolderCompletes(cfg, s.queue, l, key);
        assert HolderShown(cfg, world, s, l.w);
        MadeAllSettles(cfg, world, s.store, s.queue.holders[l.w].anchor, Progress(s, l.w));
      } else {
        StaysCompleted(cfg, s.queue, l, key);
        assert CompletedSettled(cfg, world, s, key);
      }
    }
  }

  lemma StepKeeps(cfg: Config, world: World, s: Sys, l: Label)
    requires Inv(cfg, world, s) && Leases.Timely(s.queue) && Next(cfg, world, s, l).Some?
    ensures Inv(cfg, world, Next(cfg, world, s, l).value)
  {
    match l
    case Keep(w) => KeepKeeps(cfg, world, s, w);
    case Queue(q) =>
      var after := Next(cfg, world, s, l).value;
      Leases.StepKeeps(cfg, s.queue, q);
      forall w | w in after.queue.holders
        ensures HolderShown(cfg, world, after, w)
      {
        QueueStepShows(cfg, world, s, q, w, after.queue);
      }
      forall key | key in after.queue.docs
        ensures CompletedSettled(cfg, world, after, key)
      {
        QueueStepSettles(cfg, world, s, q, key);
      }
  }

  lemma {:induction false} RunKeeps(cfg: Config, world: World, states: seq<Sys>, labels: seq<Label>, i: nat)
    requires TimelyRun(cfg, world, states, labels) && i < |states|
    ensures Inv(cfg, world, states[i])
    decreases i
  {
    if i > 0 {
      var before: nat := i - 1;
      RunKeeps(cfg, world, states, labels, before);
      assert Next(cfg, world, states[before], labels[before]) == Some(states[i]);
      StepKeeps(cfg, world, states[before], labels[before]);
    }
  }

  /** At every moment of every run in which leases are respected, whatever throws or dies on the way: when an anchor
      shows as completed, each position of the batch its completer read holds its final record, and nothing of older
      documents survives there. */
  lemma CompletedIsSettled(
      cfg: Config, world: World, states: seq<Sys>, labels: seq<Label>, i: nat, key: string, p: nat)
    requires TimelyRun(cfg, world, states, labels) && i < |states| && key in states[i].queue.docs
    requires states[i].queue.docs[key].status.Completed()
    ensures
      var s := states[i];
      && key in s.completed && s.completed[key].sourceKey == key
      && s.completed[key].attemptCount == s.queue.docs[key].attemptCount
      && Opens(s.completed[key], world, cfg)
      && var batch := PayloadBatch(s.completed[key], world, cfg);
         p < |batch| ==> Settled(JobOf(s.completed[key], world), batch, s.store, p)
  {
    RunKeeps(cfg, world, states, labels, i);
    assert CompletedSettled(cfg, world, states[i], key);
  }
}
