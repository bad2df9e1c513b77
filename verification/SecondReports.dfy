/** When the completion of a finished anchor can be reported once more. */
module SecondReports {
  import opened Wrappers
  import opened AnchorQueue
  import opened Processor
  import opened Leases

  /** Steps from this state on can report the anchor once more. */
  ghost predicate Rereportable(cfg: Config, s: Sys, key: string) {
    exists states: seq<Sys>, labels: seq<Label> :: Rereports(cfg, s, key, states, labels)
  }

  ghost predicate Rereports(cfg: Config, s: Sys, key: string, states: seq<Sys>, labels: seq<Label>) {
    Steps(cfg, states, labels) && states[0] == s && PastOf(states[|labels|], key).reports > PastOf(s, key).reports
  }

  /** The process can still complete the anchor, or schedule a retry that somebody may complete. */
  ghost predicate CanStillReport(cfg: Config, s: Sys, w: nat, key: string) {
    Holds(s, w, key) && (!s.holders[w].completed || s.holders[w].anchor.attemptCount < cfg.maxAttempts)
  }

  /** Nobody can: all holders completed the anchor unseen and have no attempts left. */
  ghost predicate Spent(cfg: Config, s: Sys, key: string) {
    forall w :: !CanStillReport(cfg, s, w, key)
  }

  lemma SpentStep(cfg: Config, s: Sys, l: Label, key: string)
    requires Finished(s, key) && Spent(cfg, s, key) && Next(cfg, s, l).Some?
    ensures
      var after := Next(cfg, s, l).value;
      && key in after.docs && after.docs[key].status.Terminal() && Spent(cfg, after, key)
      && PastOf(after, key).reports == PastOf(s, key).reports
  {
    var after := Next(cfg, s, l).value;
    forall w
      ensures !CanStillReport(cfg, after, w, key)
    {
      assert !CanStillReport(cfg, s, w, key);
    }
    if Finishing(s, l) { assert !CanStillReport(cfg, s, l.w, key); }
  }

  lemma {:induction false} SpentSteps(cfg: Config, states: seq<Sys>, labels: seq<Label>, j: nat, key: string)
    requires Steps(cfg, states, labels) && j < |states| && Finished(states[0], key) && Spent(cfg, states[0], key)
    ensures Finished(states[j], key) && Spent(cfg, states[j], key)
    ensures PastOf(states[j], key).reports == PastOf(states[0], key).reports
    decreases j
  {
    if j > 0 {
      var before: nat := j - 1;
      SpentSteps(cfg, states, labels, before, key);
      assert Next(cfg, states[before], labels[before]) == Some(states[j]);
      StepKeepsWellFormed(cfg, states[before], labels[before]);
      SpentStep(cfg, states[before], labels[before], key);
    }
  }

  lemma StepAdded(cfg: Config, states: seq<Sys>, labels: seq<Label>, l: Label)
    returns (longer: seq<Sys>, more: seq<Label>)
    requires Steps(cfg, states, labels) && Next(cfg, states[|labels|], l).Some?
    ensures Steps(cfg, longer, more) && |more| == |labels| + 1 && longer[0] == states[0]
    ensures longer[|more|] == Next(cfg, states[|labels|], l).value
  {
    longer, more := states + [Next(cfg, states[|labels|], l).value], labels + [l];
  }

  /** The claimable anchors. */
  function Ready(s: Sys): set<string> {
    set k | k in s.docs && Claimable(s.docs[k], s.now)
  }

  /** Everything about the anchor and its holders is as before, and the clock stands. */
  ghost predicate Undisturbed(s: Sys, after: Sys, key: string) {
    && after.now == s.now && after.holders == s.holders && key in s.docs && key in after.docs
    && after.docs[key] == s.docs[key] && PastOf(after, key) == PastOf(s, key)
  }

  /** One earlier anchor is claimed by somebody whose call throws. */
  lemma OneOutOfTheWay(cfg: Config, s: Sys, key: string, m: string)
    requires cfg.leaseMs > 0 && key in s.docs && FirstClaimable(s.docs, s.now, m) && m != key && m in Ready(s)
    ensures
      var after := Abandons(Claims(cfg, s, m), m);
      Undisturbed(s, after, key) && Ready(after) == Ready(s) - {m}
  {
  }

  /** The other anchors can be claimed out of the way of a claimable one. */
  lemma {:induction false} ClearTheWay(cfg: Config, states: seq<Sys>, labels: seq<Label>, key: string)
    returns (longer: seq<Sys>, more: seq<Label>)
    requires Steps(cfg, states, labels) && cfg.leaseMs > 0 && key in Ready(states[|labels|])
    ensures Steps(cfg, longer, more) && longer[0] == states[0] && Undisturbed(states[|labels|], longer[|more|], key)
    ensures FirstClaimable(longer[|more|].docs, longer[|more|].now, key)
    decreases |Ready(states[|labels|])|
  {
    var s := states[|labels|];
    var m := MinimalExists(s.docs, Ready(s));
    FirstOfReady(s, m);
    if m == key {
      longer, more := states, labels;
    } else {
      OneOutOfTheWay(cfg, s, key, m);
      longer, more := StepAdded(cfg, states, labels, ClaimUnseen(m));
      longer, more := ClearTheWay(cfg, longer, more, key);
    }
  }

  lemma FirstOfReady(s: Sys, m: string)
    requires m in Ready(s) && forall k :: k in Ready(s) ==> Precedes(s.docs[m], s.docs[k])
    ensures FirstClaimable(s.docs, s.now, m)
  {
    assert forall k :: k in s.docs && Claimable(s.docs[k], s.now) ==> k in Ready(s);
  }

  /** A process that has nothing to do claims and completes a claimable anchor. */
  lemma ClaimAndComplete(cfg: Config, states: seq<Sys>, labels: seq<Label>, key: string, w: nat)
    returns (longer: seq<Sys>, more: seq<Label>)
    requires Steps(cfg, states, labels) && cfg.leaseMs > 0 && key in Ready(states[|labels|])
    requires w !in states[|labels|].holders && states[|labels|].docs[key].sourceKey == key
    ensures Steps(cfg, longer, more) && longer[0] == states[0]
    ensures PastOf(longer[|more|], key).reports == PastOf(states[|labels|], key).reports + 1
  {
    longer, more := ClearTheWay(cfg, states, labels, key);
    longer, more := StepAdded(cfg, longer, more, Claim(w, key));
    longer, more := StepAdded(cfg, longer, more, Complete(w, NO_COUNTS));
  }

  /** A holder with attempts left records a failure; when the retry is due, the anchor can be claimed. */
  lemma RetryBecomesReady(cfg: Config, s: Sys, w: nat, key: string) returns (states: seq<Sys>, labels: seq<Label>)
    requires Finished(s, key) && HasAttemptsLeft(cfg, s, w, key)
    ensures Steps(cfg, states, labels) && states[0] == s
    ensures
      var after := states[|labels|];
      && key in Ready(after) && w !in after.holders && after.docs[key].sourceKey == key
      && PastOf(after, key).reports == PastOf(s, key).reports
  {
    states, labels := StepAdded(cfg, [s], [], RecordFailure(w));
    var due := states[|labels|].docs[key].availableAt.value;
    states, labels := StepAdded(cfg, states, labels, Tick(if due > s.now then due - s.now else 0));
  }

  lemma HolderReports(cfg: Config, s: Sys, w: nat, key: string) returns (states: seq<Sys>, labels: seq<Label>)
    requires cfg.leaseMs > 0 && Finished(s, key) && CanStillReport(cfg, s, w, key)
    ensures Rereports(cfg, s, key, states, labels)
  {
    if !s.holders[w].completed {
      states, labels := StepAdded(cfg, [s], [], Complete(w, NO_COUNTS));
    } else {
      states, labels := RetryBecomesReady(cfg, s, w, key);
      states, labels := ClaimAndComplete(cfg, states, labels, key, w);
    }
  }

  /** When the completion of a finished anchor can be reported once more: exactly when some process holds it that does
      not know of a completion of its own, or has attempts left. */
  lemma ReportedAgainExactly(cfg: Config, s: Sys, key: string)
    requires cfg.leaseMs > 0 && Finished(s, key)
    ensures Rereportable(cfg, s, key) <==> exists w :: CanStillReport(cfg, s, w, key)
  {
    if w :| CanStillReport(cfg, s, w, key) {
      var states, labels := HolderReports(cfg, s, w, key);
      assert Rereports(cfg, s, key, states, labels);
    } else {
      forall states: seq<Sys>, labels: seq<Label>
        ensures !Rereports(cfg, s, key, states, labels)
      {
        if Rereports(cfg, s, key, states, labels) { SpentSteps(cfg, states, labels, |labels|, key); }
      }
    }
  }
}
