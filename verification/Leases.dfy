/** Any number of processes claiming, finishing and abandoning anchors: what the lease protects, and what it does
    not. */
module Leases {
  import opened Wrappers
  import opened CpsKeys
  import opened Protocol
  import opened AnchorQueue
  import opened Processor

  /** What happened to one anchor so far: its claims, those of them nobody finished, how often its completion was
      reported, and when it was first and last claimed. */
  datatype Past = Past(claims: nat, abandoned: nat, reports: nat, firstAt: int, claimedAt: int)

  const NOTHING := Past(0, 0, 0, 0, 0)

  /** What a busy process has: the anchor as its claim returned it, and whether its completion took effect although the
      call threw. */
  datatype Hold = Hold(anchor: Anchor, completed: bool)

  /** The clock, the collection, what each busy process holds, and history. */
  datatype Sys = Sys(now: int, docs: Anchors, holders: map<nat, Hold>, past: map<string, Past>)

  datatype Label =
    | Tick(d: nat)
    | Discover(anchor: Anchor)
    | Claim(w: nat, key: string)
    /** The claim reached the collection but its call threw. */
    | ClaimUnseen(key: string)
    | Complete(w: nat, counts: Counters)
    /** The completion reached the collection but its call threw: a failure is recorded next, or the process dies. */
    | CompleteUnseen(w: nat, counts: Counters)
    | RecordFailure(w: nat)
    | Reject(w: nat, code: BatchErrorCode)
    /** The process dies, or its last status write does not get through. */
    | Abandon(w: nat)

  function PastOf(s: Sys, key: string): Past {
    if key in s.past then s.past[key] else NOTHING
  }

  predicate IsNew(a: Anchor) {
    a.status.Pending? && a.attemptCount == 0 && a.availableAt.None? && a.leaseExpiresAt.None?
  }

  function Claims(cfg: Config, s: Sys, key: string): Sys
    requires key in s.docs
  {
    var p := PastOf(s, key);
    s.(docs := s.docs[key := Claimed(s.docs[key], s.now + cfg.leaseMs)],
       past := s.past[key := ClaimedPast(p, s.now)])
  }

  function ClaimedPast(p: Past, now: int): Past {
    p.(claims := p.claims + 1, claimedAt := now, firstAt := if p.claims == 0 then now else p.firstAt)
  }

  function Abandons(s: Sys, key: string): Sys {
    s.(past := s.past[key := PastOf(s, key).(abandoned := PastOf(s, key).abandoned + 1)])
  }

  /** The status write of a finishing process; it is not checked against the lease. */
  function Writes(s: Sys, write: StatusWrite): Sys {
    s.(docs := Updated(s.docs, write))
  }

  function Releases(s: Sys, w: nat): Sys {
    s.(holders := s.holders - {w})
  }

  function Reports(s: Sys, key: string): Sys {
    s.(past := s.past[key := PastOf(s, key).(reports := PastOf(s, key).reports + 1)])
  }

  function Holding(cfg: Config, s: Sys, w: nat, key: string): Sys
    requires key in s.docs
  {
    var after := Claims(cfg, s, key);
    after.(holders := s.holders[w := Hold(after.docs[key], false)])
  }

  function Finishes(s: Sys, w: nat, write: StatusWrite, reports: bool): Sys {
    var after := Releases(Writes(s, write), w);
    if reports then Reports(after, write.key) else after
  }

  /** A completion its process does not know of. */
  function CompletesUnseen(s: Sys, w: nat, counts: Counters): Sys
    requires w in s.holders
  {
    Writes(s, CompletionOf(s.holders[w].anchor, counts)).(holders := s.holders[w := s.holders[w].(completed := true)])
  }

  function Leaves(s: Sys, w: nat): Sys
    requires w in s.holders
  {
    Releases(if s.holders[w].completed then s else Abandons(s, s.holders[w].anchor.sourceKey), w)
  }

  /** A finishing step of a process that has something to finish; after an unseen completion only the failure of its
      call is left to record. */
  predicate Finishing(s: Sys, l: Label) {
    && (l.Complete? || l.CompleteUnseen? || l.RecordFailure? || l.Reject?) && l.w in s.holders
    && (s.holders[l.w].completed ==> l.RecordFailure?)
  }

  /** The status write of a finishing step. */
  function FinishOf(cfg: Config, s: Sys, l: Label): StatusWrite
    requires Finishing(s, l)
  {
    match l
    case Complete(w, counts) => CompletionOf(s.holders[w].anchor, counts)
    case CompleteUnseen(w, counts) => CompletionOf(s.holders[w].anchor, counts)
    case RecordFailure(w) => RetryWrite(s.holders[w].anchor, cfg, s.now)
    case Reject(w, code) => RejectionOf(s.holders[w].anchor, code)
  }

  ghost function Next(cfg: Config, s: Sys, l: Label): Option<Sys> {
    match l
    case Tick(d) => Some(s.(now := s.now + d))
    case Discover(a) => if IsNew(a) then Some(s.(docs := Discovered(s.docs, a.sourceKey, a, a.wireFormat))) else None
    case Claim(w, key) =>
      if w !in s.holders && FirstClaimable(s.docs, s.now, key) then Some(Holding(cfg, s, w, key)) else None
    case ClaimUnseen(key) =>
      if FirstClaimable(s.docs, s.now, key) then Some(Abandons(Claims(cfg, s, key), key)) else None
    case CompleteUnseen(w, counts) => if Finishing(s, l) then Some(CompletesUnseen(s, w, counts)) else None
    case Abandon(w) => if w in s.holders then Some(Leaves(s, w)) else None
    case _ => if Finishing(s, l) then Some(Finishes(s, l.w, FinishOf(cfg, s, l), l.Complete?)) else None
  }

  /** Consecutive steps from any state. */
  ghost predicate Steps(cfg: Config, states: seq<Sys>, labels: seq<Label>) {
    && |states| == |labels| + 1
    && forall i :: 0 <= i < |labels| ==> Next(cfg, states[i], labels[i]) == Some(states[i + 1])
  }

  ghost predicate Run(cfg: Config, states: seq<Sys>, labels: seq<Label>) {
    && Steps(cfg, states, labels) && cfg.leaseMs > 0
    && states[0] == Sys(states[0].now, map[], map[], map[])
  }

  /** Whoever holds an anchor finishes before its lease expires. */
  ghost predicate Timely(s: Sys) {
    forall w :: w in s.holders ==>
      s.holders[w].anchor.leaseExpiresAt.Some? && s.now < s.holders[w].anchor.leaseExpiresAt.value
  }

  /** The runs in which leases are respected. */
  ghost predicate TimelyRun(cfg: Config, states: seq<Sys>, labels: seq<Label>) {
    Run(cfg, states, labels) && forall i :: 0 <= i < |states| ==> Timely(states[i])
  }

  /** ... and no completion gets lost on its way back. */
  ghost predicate Orderly(cfg: Config, states: seq<Sys>, labels: seq<Label>) {
    TimelyRun(cfg, states, labels) && forall i :: 0 <= i < |labels| ==> !labels[i].CompleteUnseen?
  }

  // ---------- without any hypothesis ----------

  ghost predicate KeyedWellFormed(docs: Anchors) {
    forall k :: k in docs ==> WellFormed(docs[k]) && docs[k].sourceKey == k
  }

  lemma StepKeepsWellFormed(cfg: Config, s: Sys, l: Label)
    requires KeyedWellFormed(s.docs) && Next(cfg, s, l).Some?
    ensures KeyedWellFormed(Next(cfg, s, l).value.docs)
  {
  }

  /** However many processes, late writes and crashes: an anchor is PROCESSING exactly when it has a lease, one waiting
      for a retry says when, and so every unfinished anchor becomes claimable at a time that can be told now. */
  lemma {:induction false} AlwaysClaimableLater(cfg: Config, states: seq<Sys>, labels: seq<Label>, i: nat)
    requires Run(cfg, states, labels) && i < |states|
    ensures KeyedWellFormed(states[i].docs)
    ensures forall k :: k in states[i].docs && !states[i].docs[k].status.Terminal() ==>
              exists from: int :: ClaimableFrom(states[i].docs[k], from)
    decreases i
  {
    if i > 0 {
      AlwaysClaimableLater(cfg, states, labels, i - 1);
      assert Next(cfg, states[i - 1], labels[i - 1]) == Some(states[i]);
      StepKeepsWellFormed(cfg, states[i - 1], labels[i - 1]);
    }
    forall k | k in states[i].docs && !states[i].docs[k].status.Terminal()
      ensures exists from: int :: ClaimableFrom(states[i].docs[k], from)
    {
      var from := EventuallyClaimable(states[i].docs[k]);
      assert ClaimableFrom(states[i].docs[k], from);
    }
  }

  ghost predicate ClaimableFrom(a: Anchor, from: int) {
    forall now :: now >= from ==> Claimable(a, now)
  }

  ghost predicate Holds(s: Sys, w: nat, key: string) {
    w in s.holders && s.holders[w].anchor.sourceKey == key
  }

  ghost predicate Held(s: Sys, key: string) {
    exists w :: Holds(s, w, key)
  }

  // ---------- when a finished anchor is final ----------

  ghost predicate SameButWireFormat(s: Sys, after: Sys, key: string) {
    && key in s.docs && key in after.docs && after.docs[key] == s.docs[key].(wireFormat := after.docs[key].wireFormat)
    && PastOf(after, key).reports == PastOf(s, key).reports
  }

  ghost predicate Finished(s: Sys, key: string) {
    KeyedWellFormed(s.docs) && key in s.docs && s.docs[key].status.Terminal()
  }

  lemma UnheldTerminalStep(cfg: Config, s: Sys, l: Label, key: string)
    requires Finished(s, key) && !Held(s, key) && Next(cfg, s, l).Some?
    ensures SameButWireFormat(s, Next(cfg, s, l).value, key) && !Held(Next(cfg, s, l).value, key)
  {
    var after := Next(cfg, s, l).value;
    forall w
      ensures !Holds(after, w, key)
    {
      assert !Holds(s, w, key);
    }
    if Finishing(s, l) { assert !Holds(s, l.w, key); }
  }

  lemma {:induction false} UnheldTerminalSteps(cfg: Config, states: seq<Sys>, labels: seq<Label>, j: nat, key: string)
    requires Steps(cfg, states, labels) && j < |states| && Finished(states[0], key) && !Held(states[0], key)
    ensures Finished(states[j], key) && !Held(states[j], key) && SameButWireFormat(states[0], states[j], key)
    decreases j
  {
    if j > 0 {
      var before: nat := j - 1;
      UnheldTerminalSteps(cfg, states, labels, before, key);
      assert Next(cfg, states[before], labels[before]) == Some(states[j]);
      StepKeepsWellFormed(cfg, states[before], labels[before]);
      UnheldTerminalStep(cfg, states[before], labels[before], key);
    }
  }

  /** In every run, without any hypothesis on leases or faults: a finished anchor that nobody holds stays exactly as it
      is, but for its wire format, is never reported again, and is never held again. */
  lemma UnheldTerminalStays(cfg: Config, states: seq<Sys>, labels: seq<Label>, i: nat, j: nat, key: string)
    requires Run(cfg, states, labels) && i <= j < |states| && key in states[i].docs
    requires states[i].docs[key].status.Terminal() && !Held(states[i], key)
    ensures SameButWireFormat(states[i], states[j], key) && !Held(states[j], key)
  {
    AlwaysClaimableLater(cfg, states, labels, i);
    UnheldTerminalSteps(cfg, states[i..], labels[i..], j - i, key);
  }

  /** Steps from this state on can leave the anchor unfinished. */
  ghost predicate Reopenable(cfg: Config, s: Sys, key: string) {
    exists states: seq<Sys>, labels: seq<Label> :: Reopens(cfg, s, key, states, labels)
  }

  ghost predicate Reopens(cfg: Config, s: Sys, key: string, states: seq<Sys>, labels: seq<Label>) {
    && Steps(cfg, states, labels) && states[0] == s
    && key in states[|labels|].docs && !states[|labels|].docs[key].status.Terminal()
  }

  /** Steps from this state on can contain a status write that takes effect on the anchor. */
  ghost predicate Rewritable(cfg: Config, s: Sys, key: string) {
    exists states: seq<Sys>, labels: seq<Label>, i: nat :: Rewrites(cfg, s, key, states, labels, i)
  }

  ghost predicate Rewrites(cfg: Config, s: Sys, key: string, states: seq<Sys>, labels: seq<Label>, i: nat) {
    && Steps(cfg, states, labels) && states[0] == s && i < |labels|
    && Finishing(states[i], labels[i]) && Holds(states[i], labels[i].w, key)
  }

  /** The process holds the anchor and may still schedule a retry. */
  ghost predicate HasAttemptsLeft(cfg: Config, s: Sys, w: nat, key: string) {
    Holds(s, w, key) && s.holders[w].anchor.attemptCount < cfg.maxAttempts
  }

  ghost predicate Exhausted(cfg: Config, s: Sys, key: string) {
    forall w :: !HasAttemptsLeft(cfg, s, w, key)
  }

  lemma ExhaustedStep(cfg: Config, s: Sys, l: Label, key: string)
    requires Finished(s, key) && Exhausted(cfg, s, key) && Next(cfg, s, l).Some?
    ensures
      var after := Next(cfg, s, l).value;
      key in after.docs && after.docs[key].status.Terminal() && Exhausted(cfg, after, key)
  {
    var after := Next(cfg, s, l).value;
    forall w
      ensures !HasAttemptsLeft(cfg, after, w, key)
    {
      assert !HasAttemptsLeft(cfg, s, w, key);
    }
    if Finishing(s, l) { assert !HasAttemptsLeft(cfg, s, l.w, key); }
  }

  lemma {:induction false} ExhaustedSteps(cfg: Config, states: seq<Sys>, labels: seq<Label>, j: nat, key: string)
    requires Steps(cfg, states, labels) && j < |states| && Finished(states[0], key) && Exhausted(cfg, states[0], key)
    ensures Finished(states[j], key) && Exhausted(cfg, states[j], key)
    decreases j
  {
    if j > 0 {
      var before: nat := j - 1;
      ExhaustedSteps(cfg, states, labels, before, key);
      assert Next(cfg, states[before], labels[before]) == Some(states[j]);
      StepKeepsWellFormed(cfg, states[before], labels[before]);
      ExhaustedStep(cfg, states[before], labels[before], key);
    }
  }

  lemma HolderRecordsFailure(cfg: Config, s: Sys, w: nat, key: string) returns (states: seq<Sys>, labels: seq<Label>)
    requires Holds(s, w, key)
    ensures Rewrites(cfg, s, key, states, labels, 0) && |labels| == 1
    ensures Finished(s, key) && HasAttemptsLeft(cfg, s, w, key) ==> Reopens(cfg, s, key, states, labels)
  {
    labels := [RecordFailure(w)];
    states := [s, Next(cfg, s, labels[0]).value];
  }

  /** When a finished anchor is final. Exactly when some holder has attempts left can it be reopened; exactly when it
      is held at all can a status write still take effect on it. */
  lemma FinalExactly(cfg: Config, s: Sys, key: string)
    requires Finished(s, key)
    ensures Reopenable(cfg, s, key) <==> exists w :: HasAttemptsLeft(cfg, s, w, key)
    ensures Rewritable(cfg, s, key) <==> Held(s, key)
  {
    if w :| HasAttemptsLeft(cfg, s, w, key) {
      var states, labels := HolderRecordsFailure(cfg, s, w, key);
      assert Reopens(cfg, s, key, states, labels);
    } else {
      forall states: seq<Sys>, labels: seq<Label>
        ensures !Reopens(cfg, s, key, states, labels)
      {
        if Reopens(cfg, s, key, states, labels) { ExhaustedSteps(cfg, states, labels, |labels|, key); }
      }
    }
    if w :| Holds(s, w, key) {
      var states, labels := HolderRecordsFailure(cfg, s, w, key);
      assert Rewrites(cfg, s, key, states, labels, 0);
    } else {
      forall states: seq<Sys>, labels: seq<Label>, i: nat
        ensures !Rewrites(cfg, s, key, states, labels, i)
      {
        if Rewrites(cfg, s, key, states, labels, i) { UnheldTerminalSteps(cfg, states, labels, i, key); }
      }
    }
  }

  // ---------- backoff ----------

  /** Milliseconds that must pass between the first and the k-th claim. */
  function Backoff(base: nat, k: nat): nat {
    if k <= 1 then 0 else Backoff(base, k - 1) + RetryDelay(base, k - 1)
  }

  lemma {:induction false} PowerStep(n: nat)
    ensures Power2(n + 1) == 2 * Power2(n) && Power2(n) >= 1
  {
    if n > 0 { PowerStep(n - 1); }
  }

  /** It doubles with every attempt up to the twenty-second ... */
  lemma {:induction false} BackoffDoubles(base: nat, k: nat)
    requires 1 <= k <= 22
    ensures Backoff(base, k) == base * (Power2(k - 1) - 1)
  {
    if k > 1 {
      BackoffDoubles(base, k - 1);
      PowerStep(k - 2);
      assert RetryDelay(base, k - 1) == base * Power2(k - 2);
      Distribute(base, Power2(k - 2));
    }
  }

  lemma OneMore(n: nat, step: nat)
    ensures n * step + step == (n + 1) * step
  {
  }

  lemma Distribute(base: nat, p: nat)
    ensures base * (p - 1) + base * p == base * (2 * p - 1)
  {
  }

  /** ... and grows linearly from there. */
  lemma {:induction false} BackoffGrowsLinearly(base: nat, k: nat)
    requires k >= 22
    ensures Backoff(base, k) == base * (Power2(21) - 1) + (k - 22) * (base * Power2(20))
  {
    if k == 22 {
      BackoffDoubles(base, 22);
    } else {
      BackoffGrowsLinearly(base, k - 1);
      assert RetryDelay(base, k - 1) == base * Power2(20);
      OneMore(k - 23, base * Power2(20));
    }
  }

  // ---------- timely runs ----------

  /** The number of attempts granted to an anchor nobody abandons. */
  function Granted(cfg: Config): nat {
    if cfg.maxAttempts >= 1 then cfg.maxAttempts else 1
  }

  /** The anchor is as its holder claimed it, or completed by the holder without its knowledge and not yet reported. */
  ghost predicate AsHeld(a: Anchor, h: Hold, p: Past) {
    && h.anchor.attemptCount == a.attemptCount
    && (if h.completed then a.status.Completed() && p.reports == 0
        else a.status.Processing? && h.anchor.leaseExpiresAt == a.leaseExpiresAt)
  }

  /** Its holder is the only one and has the lease the collection shows. */
  ghost predicate Leased(s: Sys, key: string)
    requires key in s.docs
  {
    && (forall w :: Holds(s, w, key) ==> AsHeld(s.docs[key], s.holders[w], PastOf(s, key)))
    && (forall v, w :: Holds(s, v, key) && Holds(s, w, key) ==> v == w)
  }

  /** Its claims, against the attempts granted and those abandoned. */
  ghost predicate Accounted(cfg: Config, a: Anchor, p: Past, held: bool) {
    && a.attemptCount == p.claims
    && (a.status.RetryPending? ==> 1 <= p.claims < cfg.maxAttempts)
    && (a.status.Processing? || held ==> p.claims >= 1)
    && (a.status.Processing? && !held ==> p.claims + 1 <= Granted(cfg) + p.abandoned)
    && p.claims <= Granted(cfg) + p.abandoned
    && p.reports <= (if a.status.Completed() then 1 else 0)
  }

  /** Its claims against the clock, if none was abandoned. */
  ghost predicate Delayed(cfg: Config, now: int, a: Anchor, p: Past, held: bool) {
    && (p.claims >= 1 ==> p.claimedAt <= now)
    && (p.abandoned == 0 ==>
          && (p.claims >= 1 ==> p.claimedAt >= p.firstAt + Backoff(cfg.retryBaseMs, p.claims))
          && (a.status.RetryPending? ==>
                a.availableAt.Some? && a.availableAt.value >= p.firstAt + Backoff(cfg.retryBaseMs, p.claims + 1))
          && (a.status.Processing? ==> held))
  }

  ghost predicate AnchorInv(cfg: Config, s: Sys, key: string)
    requires key in s.docs
  {
    && WellFormed(s.docs[key]) && s.docs[key].sourceKey == key && Leased(s, key)
    && Accounted(cfg, s.docs[key], PastOf(s, key), Held(s, key))
    && Delayed(cfg, s.now, s.docs[key], PastOf(s, key), Held(s, key))
  }

  ghost predicate Inv(cfg: Config, s: Sys) {
    && (forall k :: k in s.docs ==> AnchorInv(cfg, s, k))
    && (forall w :: w in s.holders ==> s.holders[w].anchor.sourceKey in s.docs)
    && (forall k :: k !in s.docs ==> PastOf(s, k) == NOTHING)
  }

  /** What a step does not concern stays as it is. */
  lemma Untouched(cfg: Config, s: Sys, after: Sys, key: string)
    requires key in s.docs && AnchorInv(cfg, s, key) && s.now <= after.now
    requires key in after.docs && after.docs[key] == s.docs[key].(wireFormat := after.docs[key].wireFormat)
    requires PastOf(after, key) == PastOf(s, key)
    requires forall w :: Holds(s, w, key) <==> Holds(after, w, key)
    requires forall w :: Holds(s, w, key) && Holds(after, w, key) ==> after.holders[w] == s.holders[w]
    ensures AnchorInv(cfg, after, key)
  {
  }

  lemma UnexpiredIsNotClaimable(cfg: Config, s: Sys, key: string)
    requires Inv(cfg, s) && Timely(s) && FirstClaimable(s.docs, s.now, key)
    ensures !Held(s, key)
  {
  }

  /** The anchor after one more claim. */
  lemma ClaimedAnchor(cfg: Config, s: Sys, key: string)
    requires Inv(cfg, s) && Timely(s) && FirstClaimable(s.docs, s.now, key)
    ensures
      var a, p := Claims(cfg, s, key).docs[key], PastOf(Claims(cfg, s, key), key);
      && WellFormed(a) && a.sourceKey == key && Accounted(cfg, a, p, true) && Delayed(cfg, s.now, a, p, true)
  {
  }

  /** A step that concerns one anchor leaves the others alone. */
  ghost predicate ConcernsOnly(s: Sys, after: Sys, key: string) {
    && after.now == s.now && after.docs.Keys == s.docs.Keys
    && (forall k :: k in s.docs && k != key ==> after.docs[k] == s.docs[k])
    && (forall k :: k != key ==> PastOf(after, k) == PastOf(s, k))
    && (forall w, k :: k != key ==> (Holds(after, w, k) <==> Holds(s, w, k)))
    && (forall w :: w in after.holders && after.holders[w].anchor.sourceKey != key ==>
          w in s.holders && after.holders[w] == s.holders[w])
  }

  lemma ClaimConcerns(cfg: Config, s: Sys, w: nat, key: string)
    requires key in s.docs && w !in s.holders && s.docs[key].sourceKey == key
    ensures ConcernsOnly(s, Holding(cfg, s, w, key), key)
  {
  }

  lemma ClaimUnseenConcerns(cfg: Config, s: Sys, key: string)
    requires key in s.docs
    ensures ConcernsOnly(s, Abandons(Claims(cfg, s, key), key), key)
  {
  }

  lemma FinishConcerns(s: Sys, w: nat, write: StatusWrite, reports: bool)
    requires w in s.holders && write.key == s.holders[w].anchor.sourceKey && write.key in s.docs
    ensures ConcernsOnly(s, Finishes(s, w, write, reports), write.key)
  {
  }

  lemma OneAnchorKeeps(cfg: Config, s: Sys, after: Sys, key: string)
    requires Inv(cfg, s) && ConcernsOnly(s, after, key) && key in s.docs && AnchorInv(cfg, after, key)
    ensures Inv(cfg, after)
  {
    forall k | k in after.docs
      ensures AnchorInv(cfg, after, k)
    {
      if k != key { Untouched(cfg, s, after, k); }
    }
  }

  lemma ClaimKeeps(cfg: Config, s: Sys, w: nat, key: string)
    requires Inv(cfg, s) && Timely(s) && w !in s.holders && FirstClaimable(s.docs, s.now, key)
    ensures Inv(cfg, Holding(cfg, s, w, key))
  {
    var after := Holding(cfg, s, w, key);
    UnexpiredIsNotClaimable(cfg, s, key);
    ClaimedAnchor(cfg, s, key);
    assert Holds(after, w, key);
    forall v | Holds(after, v, key)
      ensures v == w
    {
      assert v == w || Holds(s, v, key);
    }
    ClaimConcerns(cfg, s, w, key);
    OneAnchorKeeps(cfg, s, after, key);
  }

  lemma ClaimUnseenKeeps(cfg: Config, s: Sys, key: string)
    requires Inv(cfg, s) && Timely(s) && FirstClaimable(s.docs, s.now, key)
    ensures Inv(cfg, Abandons(Claims(cfg, s, key), key))
  {
    var after := Abandons(Claims(cfg, s, key), key);
    UnexpiredIsNotClaimable(cfg, s, key);
    ClaimedAnchor(cfg, s, key);
    assert forall v :: Holds(after, v, key) <==> Holds(s, v, key);
    ClaimUnseenConcerns(cfg, s, key);
    OneAnchorKeeps(cfg, s, after, key);
  }

  lemma DiscoverKeeps(cfg: Config, s: Sys, a: Anchor)
    requires Inv(cfg, s) && IsNew(a)
    ensures Inv(cfg, Next(cfg, s, Discover(a)).value)
  {
    var after := Next(cfg, s, Discover(a)).value;
    forall k | k in after.docs
      ensures AnchorInv(cfg, after, k)
    {
      if k in s.docs { Untouched(cfg, s, after, k); }
    }
  }

  lemma TickKeeps(cfg: Config, s: Sys, d: nat)
    requires Inv(cfg, s)
    ensures Inv(cfg, Next(cfg, s, Tick(d)).value)
  {
    var after := Next(cfg, s, Tick(d)).value;
    forall k | k in after.docs
      ensures AnchorInv(cfg, after, k)
    {
      Untouched(cfg, s, after, k);
    }
  }

  lemma ReleasedIsNotHeld(s: Sys, after: Sys, w: nat, key: string)
    requires key in s.docs && Leased(s, key) && Holds(s, w, key) && after.holders == s.holders - {w}
    ensures !Held(after, key)
    ensures forall v, k :: k != key ==> (Holds(after, v, k) <==> Holds(s, v, k))
  {
    forall v
      ensures !Holds(after, v, key)
    {
      assert Holds(after, v, key) ==> Holds(s, v, key);
    }
  }

  lemma FinishedAnchor(cfg: Config, s: Sys, l: Label)
    requires Inv(cfg, s) && Finishing(s, l) && !l.CompleteUnseen?
    ensures
      var write := FinishOf(cfg, s, l);
      var after := Finishes(s, l.w, write, l.Complete?);
      var a, p := after.docs[write.key], PastOf(after, write.key);
      WellFormed(a) && a.sourceKey == write.key && Accounted(cfg, a, p, false) && Delayed(cfg, s.now, a, p, false)
  {
    assert Holds(s, l.w, FinishOf(cfg, s, l).key);
  }

  /** The holder's status write and release. */
  lemma FinishKeeps(cfg: Config, s: Sys, l: Label)
    requires Inv(cfg, s) && Finishing(s, l) && !l.CompleteUnseen?
    ensures Inv(cfg, Finishes(s, l.w, FinishOf(cfg, s, l), l.Complete?))
  {
    var write := FinishOf(cfg, s, l);
    var after := Finishes(s, l.w, write, l.Complete?);
    assert Holds(s, l.w, write.key);
    ReleasedIsNotHeld(s, after, l.w, write.key);
    FinishedAnchor(cfg, s, l);
    FinishConcerns(s, l.w, write, l.Complete?);
    OneAnchorKeeps(cfg, s, after, write.key);
  }

  lemma UnseenConcerns(s: Sys, w: nat, counts: Counters)
    requires w in s.holders && s.holders[w].anchor.sourceKey in s.docs
    ensures ConcernsOnly(s, CompletesUnseen(s, w, counts), s.holders[w].anchor.sourceKey)
    ensures forall v, k :: Holds(CompletesUnseen(s, w, counts), v, k) <==> Holds(s, v, k)
  {
  }

  /** A completion that takes effect although its call threw leaves the anchor with its holder. */
  lemma UnseenKeeps(cfg: Config, s: Sys, w: nat, counts: Counters)
    requires Inv(cfg, s) && w in s.holders && !s.holders[w].completed
    ensures Inv(cfg, CompletesUnseen(s, w, counts))
  {
    var key, after := s.holders[w].anchor.sourceKey, CompletesUnseen(s, w, counts);
    assert Holds(s, w, key);
    UnseenConcerns(s, w, counts);
    assert Held(after, key) by { assert Holds(after, w, key); }
    OneAnchorKeeps(cfg, s, after, key);
  }

  lemma AbandonKeeps(cfg: Config, s: Sys, w: nat)
    requires Inv(cfg, s) && w in s.holders
    ensures Inv(cfg, Leaves(s, w))
  {
    var key, after := s.holders[w].anchor.sourceKey, Leaves(s, w);
    assert Holds(s, w, key);
    ReleasedIsNotHeld(s, after, w, key);
    OneAnchorKeeps(cfg, s, after, key);
  }

  lemma StepKeeps(cfg: Config, s: Sys, l: Label)
    requires Inv(cfg, s) && Timely(s) && Next(cfg, s, l).Some?
    ensures Inv(cfg, Next(cfg, s, l).value)
  {
    match l
    case Tick(d) => TickKeeps(cfg, s, d);
    case Discover(a) => DiscoverKeeps(cfg, s, a);
    case Claim(w, key) => ClaimKeeps(cfg, s, w, key);
    case ClaimUnseen(key) => ClaimUnseenKeeps(cfg, s, key);
    case CompleteUnseen(w, counts) => UnseenKeeps(cfg, s, w, counts);
    case Abandon(w) => AbandonKeeps(cfg, s, w);
    case _ => FinishKeeps(cfg, s, l);
  }

  lemma {:induction false} RunKeeps(cfg: Config, states: seq<Sys>, labels: seq<Label>, i: nat)
    requires TimelyRun(cfg, states, labels) && i < |states|
    ensures Inv(cfg, states[i])
    decreases i
  {
    if i > 0 {
      var before: nat := i - 1;
      RunKeeps(cfg, states, labels, before);
      assert Next(cfg, states[before], labels[before]) == Some(states[i]);
      StepKeeps(cfg, states[before], labels[before]);
    }
  }

  // ---------- what holds at every moment of every timely run ----------

  /** No anchor ever has two holders. The holder's lease is the one in the collection, unless its completion already
      took effect without its knowledge. */
  lemma LeaseIsExclusive(cfg: Config, states: seq<Sys>, labels: seq<Label>, i: nat, v: nat, w: nat)
    requires TimelyRun(cfg, states, labels) && i < |states| && v in states[i].holders && w in states[i].holders
    ensures states[i].holders[v].anchor.sourceKey == states[i].holders[w].anchor.sourceKey ==> v == w
    ensures
      var held, docs := states[i].holders[v].anchor, states[i].docs;
      && held.sourceKey in docs && docs[held.sourceKey].attemptCount == held.attemptCount
      && (if states[i].holders[v].completed then docs[held.sourceKey].status.Completed()
          else docs[held.sourceKey].status.Processing? && docs[held.sourceKey].leaseExpiresAt == held.leaseExpiresAt)
  {
    RunKeeps(cfg, states, labels, i);
    var s := states[i];
    assert Holds(s, v, s.holders[v].anchor.sourceKey) && Holds(s, w, s.holders[w].anchor.sourceKey);
  }

  lemma {:induction false} NothingUnseen(cfg: Config, states: seq<Sys>, labels: seq<Label>, i: nat)
    requires Orderly(cfg, states, labels) && i < |states|
    ensures forall w :: w in states[i].holders ==> !states[i].holders[w].completed
    decreases i
  {
    if i > 0 {
      var before: nat := i - 1;
      NothingUnseen(cfg, states, labels, before);
      assert Next(cfg, states[before], labels[before]) == Some(states[i]);
    }
  }

  /** When leases are respected and no completion gets lost on its way back, nobody holds a finished anchor, so that it
      is final. */
  lemma TerminalIsAbsorbing(cfg: Config, states: seq<Sys>, labels: seq<Label>, i: nat, j: nat, key: string)
    requires Orderly(cfg, states, labels) && i <= j < |states|
    requires key in states[i].docs && states[i].docs[key].status.Terminal()
    ensures !Held(states[i], key) && SameButWireFormat(states[i], states[j], key)
  {
    RunKeeps(cfg, states, labels, i);
    NothingUnseen(cfg, states, labels, i);
    UnheldTerminalStays(cfg, states, labels, i, j, key);
  }

  /** At most max(maxAttempts, 1) claims, and one more for every abandoned one; at most one report. */
  lemma ClaimsAreBounded(cfg: Config, states: seq<Sys>, labels: seq<Label>, i: nat, key: string)
    requires TimelyRun(cfg, states, labels) && i < |states| && key in states[i].docs
    ensures states[i].docs[key].attemptCount == PastOf(states[i], key).claims
    ensures PastOf(states[i], key).claims <= Granted(cfg) + PastOf(states[i], key).abandoned
    ensures PastOf(states[i], key).reports <= (if states[i].docs[key].status.Completed() then 1 else 0)
  {
    RunKeeps(cfg, states, labels, i);
  }

  // ---------- work ends ----------

  /** What a holder may still do: complete unseen and record a failure, or only the latter. */
  ghost function Owed(s: Sys, key: string): nat {
    if exists w :: Holds(s, w, key) && !s.holders[w].completed then 2 else if Held(s, key) then 1 else 0
  }

  /** What is left to do for an anchor: at most three steps for every claim still granted. */
  ghost function Remaining(cfg: Config, s: Sys, key: string): int {
    3 * (Granted(cfg) + PastOf(s, key).abandoned - PastOf(s, key).claims) + Owed(s, key)
  }

  /** A step of a process at this anchor. */
  ghost predicate WorksOn(s: Sys, l: Label, key: string) {
    (l.Claim? && l.key == key) || (Finishing(s, l) && Holds(s, l.w, key))
  }

  lemma ClaimLeavesLess(cfg: Config, s: Sys, w: nat, key: string)
    requires Inv(cfg, s) && Timely(s) && w !in s.holders && FirstClaimable(s.docs, s.now, key)
    ensures Remaining(cfg, Holding(cfg, s, w, key), key) < Remaining(cfg, s, key)
  {
    UnexpiredIsNotClaimable(cfg, s, key);
  }

  lemma FinishLeavesLess(cfg: Config, s: Sys, l: Label)
    requires Inv(cfg, s) && Finishing(s, l) && !l.CompleteUnseen?
    ensures
      var key := FinishOf(cfg, s, l).key;
      Remaining(cfg, Finishes(s, l.w, FinishOf(cfg, s, l), l.Complete?), key) < Remaining(cfg, s, key)
  {
    var key := FinishOf(cfg, s, l).key;
    assert Holds(s, l.w, key);
    ReleasedIsNotHeld(s, Finishes(s, l.w, FinishOf(cfg, s, l), l.Complete?), l.w, key);
  }

  lemma UnseenLeavesLess(cfg: Config, s: Sys, w: nat, counts: Counters)
    requires Inv(cfg, s) && w in s.holders && !s.holders[w].completed
    ensures
      var key := s.holders[w].anchor.sourceKey;
      Remaining(cfg, CompletesUnseen(s, w, counts), key) < Remaining(cfg, s, key)
  {
    var key, after := s.holders[w].anchor.sourceKey, CompletesUnseen(s, w, counts);
    assert Holds(s, w, key);
    UnseenConcerns(s, w, counts);
    assert forall v :: Holds(after, v, key) ==> v == w;
  }

  /** Every step of a process at an anchor leaves less to do for it. */
  lemma WorkDecreases(cfg: Config, s: Sys, l: Label, key: string)
    requires Inv(cfg, s) && Timely(s) && Next(cfg, s, l).Some? && WorksOn(s, l, key)
    ensures Remaining(cfg, Next(cfg, s, l).value, key) < Remaining(cfg, s, key)
    ensures PastOf(Next(cfg, s, l).value, key).abandoned == PastOf(s, key).abandoned
  {
    if l.Claim? {
      ClaimLeavesLess(cfg, s, l.w, key);
    } else if l.CompleteUnseen? {
      UnseenLeavesLess(cfg, s, l.w, l.counts);
    } else {
      FinishLeavesLess(cfg, s, l);
    }
  }

  lemma FewerHoldersOweLess(s: Sys, after: Sys, key: string)
    requires forall w :: Holds(after, w, key) ==> Holds(s, w, key) && after.holders[w] == s.holders[w]
    ensures Owed(after, key) <= Owed(s, key)
  {
  }

  /** Any other step leaves at most as much to do as before, and three steps more for a newly abandoned claim. */
  lemma OtherStepsAddNothing(cfg: Config, s: Sys, l: Label, key: string)
    requires Inv(cfg, s) && Timely(s) && Next(cfg, s, l).Some? && !WorksOn(s, l, key)
    ensures
      var after := Next(cfg, s, l).value;
      Remaining(cfg, after, key) - Remaining(cfg, s, key)
        <= 3 * (PastOf(after, key).abandoned - PastOf(s, key).abandoned)
  {
    var after := Next(cfg, s, l).value;
    OtherStepsReleaseOnly(cfg, s, l, key);
    FewerHoldersOweLess(s, after, key);
  }

  lemma OtherStepsReleaseOnly(cfg: Config, s: Sys, l: Label, key: string)
    requires KeyedWellFormed(s.docs) && Next(cfg, s, l).Some? && !WorksOn(s, l, key)
    ensures
      var after := Next(cfg, s, l).value;
      && (forall w :: Holds(after, w, key) ==> Holds(s, w, key) && after.holders[w] == s.holders[w])
      && PastOf(after, key).claims >= PastOf(s, key).claims
  {
  }

  /** The steps of processes at an anchor so far. */
  ghost function Work(states: seq<Sys>, labels: seq<Label>, n: nat, key: string): nat
    requires n <= |labels| < |states|
  {
    if n == 0 then 0
    else Work(states, labels, n - 1, key) + (if WorksOn(states[n - 1], labels[n - 1], key) then 1 else 0)
  }

  lemma {:induction false} WorkIsAccounted(cfg: Config, states: seq<Sys>, labels: seq<Label>, n: nat, key: string)
    requires TimelyRun(cfg, states, labels) && n <= |labels|
    ensures Work(states, labels, n, key) + Remaining(cfg, states[n], key)
            <= 3 * (Granted(cfg) + PastOf(states[n], key).abandoned)
    decreases n
  {
    if n > 0 {
      var before: nat := n - 1;
      WorkIsAccounted(cfg, states, labels, before, key);
      RunKeeps(cfg, states, labels, before);
      assert Next(cfg, states[before], labels[before]) == Some(states[n]);
      if WorksOn(states[before], labels[before], key) {
        WorkDecreases(cfg, states[before], labels[before], key);
      } else {
        OtherStepsAddNothing(cfg, states[before], labels[before], key);
      }
    }
  }

  /** Work ends: in no timely run do the processes make more than three steps at an anchor for every attempt granted,
      and three more for every abandoned one. */
  lemma WorkIsBounded(cfg: Config, states: seq<Sys>, labels: seq<Label>, n: nat, key: string)
    requires TimelyRun(cfg, states, labels) && n <= |labels|
    ensures Work(states, labels, n, key) <= 3 * (Granted(cfg) + PastOf(states[n], key).abandoned)
  {
    WorkIsAccounted(cfg, states, labels, n, key);
    RunKeeps(cfg, states, labels, n);
    assert key in states[n].docs ==> AnchorInv(cfg, states[n], key);
  }

  /** Without abandoned claims, the latest claim of an anchor keeps the whole backoff from the first. */
  lemma ClaimsBackOff(cfg: Config, states: seq<Sys>, labels: seq<Label>, i: nat, key: string)
    requires TimelyRun(cfg, states, labels) && i < |states| && key in states[i].docs
    requires PastOf(states[i], key).abandoned == 0 && PastOf(states[i], key).claims >= 1
    ensures
      var p, base := PastOf(states[i], key), cfg.retryBaseMs;
      && (p.claims <= 22 ==> p.claimedAt - p.firstAt >= base * (Power2(p.claims - 1) - 1))
      && (p.claims >= 22 ==>
            p.claimedAt - p.firstAt >= base * (Power2(21) - 1) + (p.claims - 22) * (base * Power2(20)))
  {
    RunKeeps(cfg, states, labels, i);
    var p := PastOf(states[i], key);
    if p.claims <= 22 { BackoffDoubles(cfg.retryBaseMs, p.claims); }
    if p.claims >= 22 { BackoffGrowsLinearly(cfg.retryBaseMs, p.claims); }
  }

  // ---------- why both hypotheses are needed ----------

  function FirstSight(key: string): Anchor {
    Anchor(key, "0", 0, 0, Chain([0]), None, None, Pending, 0, None, None, None, NO_COUNTS,
      NO_BACKFILL)
  }

  /** A system with one anchor. */
  function One(now: int, a: Anchor, holders: map<nat, Hold>, p: Past): Sys {
    Sys(now, map[a.sourceKey := a], holders, map[a.sourceKey := p])
  }

  lemma ClaimOne(cfg: Config, now: int, a: Anchor, holders: map<nat, Hold>, p: Past, w: nat)
    requires w !in holders && Claimable(a, now)
    ensures
      var claimed := Claimed(a, now + cfg.leaseMs);
      Next(cfg, One(now, a, holders, p), Claim(w, a.sourceKey))
        == Some(One(now, claimed, holders[w := Hold(claimed, false)], ClaimedPast(p, now)))
  {
    var s, key := One(now, a, holders, p), a.sourceKey;
    assert FirstClaimable(s.docs, now, key);
    Overwritten(key, a, Claimed(a, now + cfg.leaseMs));
    Overwritten(key, p, ClaimedPast(p, now));
  }

  lemma Overwritten<T>(key: string, x: T, y: T)
    ensures map[key := x][key := y] == map[key := y]
  {
  }

  lemma CompleteOne(cfg: Config, now: int, a: Anchor, holders: map<nat, Hold>, p: Past, w: nat, counts: Counters)
    requires w in holders && holders[w].anchor.sourceKey == a.sourceKey && !holders[w].completed
    ensures
      var s, done := One(now, a, holders, p), WithStatus(a, CompletionOf(holders[w].anchor, counts));
      && Next(cfg, s, Complete(w, counts)) == Some(One(now, done, holders - {w}, p.(reports := p.reports + 1)))
      && Next(cfg, s, CompleteUnseen(w, counts))
           == Some(One(now, done, holders[w := holders[w].(completed := true)], p))
  {
    Overwritten(a.sourceKey, a, WithStatus(a, CompletionOf(holders[w].anchor, counts)));
    Overwritten(a.sourceKey, p, p.(reports := p.reports + 1));
  }

  lemma FailOne(cfg: Config, now: int, a: Anchor, holders: map<nat, Hold>, p: Past, w: nat)
    requires w in holders && holders[w].anchor.sourceKey == a.sourceKey
    ensures
      Next(cfg, One(now, a, holders, p), RecordFailure(w))
        == Some(One(now, WithStatus(a, RetryWrite(holders[w].anchor, cfg, now)), holders - {w}, p))
  {
    Overwritten(a.sourceKey, a, WithStatus(a, RetryWrite(holders[w].anchor, cfg, now)));
  }

  lemma DiscoverOne(cfg: Config, key: string)
    ensures Next(cfg, Sys(0, map[], map[], map[]), Discover(FirstSight(key)))
            == Some(Sys(0, map[key := FirstSight(key)], map[], map[]))
  {
  }

  lemma FirstClaim(cfg: Config, key: string, w: nat)
    ensures
      var claimed := Claimed(FirstSight(key), cfg.leaseMs);
      Next(cfg, Sys(0, map[key := FirstSight(key)], map[], map[]), Claim(w, key))
        == Some(One(0, claimed, map[w := Hold(claimed, false)], ClaimedPast(NOTHING, 0)))
  {
    assert FirstClaimable(map[key := FirstSight(key)], 0, key);
    Overwritten(key, FirstSight(key), Claimed(FirstSight(key), cfg.leaseMs));
  }

  lemma Extended(cfg: Config, states: seq<Sys>, labels: seq<Label>, l: Label, s: Sys)
    returns (longer: seq<Sys>, more: seq<Label>)
    requires Run(cfg, states, labels) && Next(cfg, states[|states| - 1], l) == Some(s)
    ensures Run(cfg, longer, more) && longer == states + [s] && more == labels + [l]
  {
    longer, more := states + [s], labels + [l];
  }

  /** One process discovers nothing else than this anchor and claims it. */
  lemma OpeningRun(cfg: Config, key: string) returns (states: seq<Sys>, labels: seq<Label>)
    requires cfg.leaseMs > 0
    ensures Run(cfg, states, labels) && |states| == 3 && labels == [Discover(FirstSight(key)), Claim(0, key)]
    ensures
      var a := Claimed(FirstSight(key), cfg.leaseMs);
      states[2] == One(0, a, map[0 := Hold(a, false)], ClaimedPast(NOTHING, 0))
    ensures forall i :: 0 <= i < 3 ==> Timely(states[i])
  {
    var a, p := Claimed(FirstSight(key), cfg.leaseMs), ClaimedPast(NOTHING, 0);
    var seen := Sys(0, map[key := FirstSight(key)], map[], map[]);
    DiscoverOne(cfg, key);
    FirstClaim(cfg, key, 0);
    states, labels := Extended(cfg, [Sys(0, map[], map[], map[])], [], Discover(FirstSight(key)), seen);
    states, labels := Extended(cfg, states, labels, Claim(0, key), One(0, a, map[0 := Hold(a, false)], p));
  }

  /** A completion that reached the collection although its call threw is overwritten by the failure recorded next: all
      leases are respected, and still a finished anchor is reopened. */
  lemma UnseenCompletionReopens(cfg: Config, key: string) returns (states: seq<Sys>, labels: seq<Label>)
    requires cfg.leaseMs > 0 && cfg.maxAttempts >= 2
    ensures TimelyRun(cfg, states, labels) && |states| == 5
    ensures key in states[3].docs && key in states[4].docs
    ensures states[3].docs[key].status.Processed? && states[4].docs[key].status.RetryPending?
  {
    var a, p := Claimed(FirstSight(key), cfg.leaseMs), ClaimedPast(NOTHING, 0);
    var done, unseen := WithStatus(a, CompletionOf(a, NO_COUNTS)), Hold(a, true);
    var held: map<nat, Hold> := map[0 := Hold(a, false)];
    assert held[0 := unseen] == map[0 := unseen];
    CompleteOne(cfg, 0, a, held, p, 0, NO_COUNTS);
    FailOne(cfg, 0, done, held[0 := unseen], p, 0);
    var reopened := One(0, WithStatus(done, RetryWrite(a, cfg, 0)), held[0 := unseen] - {0}, p);
    states, labels := OpeningRun(cfg, key);
    states, labels := Extended(cfg, states, labels, CompleteUnseen(0, NO_COUNTS), One(0, done, held[0 := unseen], p));
    states, labels := Extended(cfg, states, labels, RecordFailure(0), reopened);
  }

  /** The anchor that was claimed, claimed again after the lease expired, completed by the second process, and then
      written by the first. */
  function TakenOver(cfg: Config, key: string): Anchor {
    Claimed(Claimed(FirstSight(key), cfg.leaseMs), cfg.leaseMs + cfg.leaseMs)
  }

  function CompletedOnce(cfg: Config, key: string): Anchor {
    WithStatus(TakenOver(cfg, key), CompletionOf(TakenOver(cfg, key), NO_COUNTS))
  }

  function Reopened(cfg: Config, key: string): Anchor {
    WithStatus(CompletedOnce(cfg, key), RetryWrite(Claimed(FirstSight(key), cfg.leaseMs), cfg, cfg.leaseMs))
  }

  function ReportedOnce(cfg: Config): Past {
    ClaimedPast(ClaimedPast(NOTHING, 0), cfg.leaseMs).(reports := 1)
  }

  function LateHolder(cfg: Config, key: string): map<nat, Hold> {
    map[0 := Hold(Claimed(FirstSight(key), cfg.leaseMs), false)]
  }

  /** The second process takes over an expired lease and completes the anchor, while the first still holds on. */
  lemma TakeoverRun(cfg: Config, key: string) returns (states: seq<Sys>, labels: seq<Label>)
    requires cfg.leaseMs > 0
    ensures Run(cfg, states, labels) && |states| == 6 && forall i :: 0 <= i < |labels| ==> !labels[i].CompleteUnseen?
    ensures states[5] == One(cfg.leaseMs, CompletedOnce(cfg, key), LateHolder(cfg, key), ReportedOnce(cfg))
  {
    var lease, late := cfg.leaseMs, LateHolder(cfg, key);
    var a, p := Claimed(FirstSight(key), lease), ClaimedPast(NOTHING, 0);
    var b, q := TakenOver(cfg, key), ClaimedPast(p, lease);
    var both := late[1 := Hold(b, false)];
    ClaimOne(cfg, lease, a, late, p, 1);
    CompleteOne(cfg, lease, b, both, q, 1, NO_COUNTS);
    assert both - {1} == late;
    states, labels := OpeningRun(cfg, key);
    states, labels := Extended(cfg, states, labels, Tick(lease), One(lease, a, late, p));
    states, labels := Extended(cfg, states, labels, Claim(1, key), One(lease, b, both, q));
    states, labels := Extended(cfg, states, labels, Complete(1, NO_COUNTS),
      One(lease, CompletedOnce(cfg, key), late, ReportedOnce(cfg)));
  }

  /** A process that writes after its lease expired overwrites the completion of the process that took over. */
  lemma LateWriteReopens(cfg: Config, key: string) returns (states: seq<Sys>, labels: seq<Label>)
    requires cfg.leaseMs > 0 && cfg.maxAttempts >= 2
    ensures Run(cfg, states, labels) && |states| == 7 && forall i :: 0 <= i < |labels| ==> !labels[i].CompleteUnseen?
    ensures key in states[5].docs && states[5].docs[key].status.Processed?
    ensures states[6] == One(cfg.leaseMs, Reopened(cfg, key), map[], ReportedOnce(cfg))
    ensures Reopened(cfg, key).status.RetryPending?
  {
    var late := LateHolder(cfg, key);
    FailOne(cfg, cfg.leaseMs, CompletedOnce(cfg, key), late, ReportedOnce(cfg), 0);
    assert late - {0} == map[];
    states, labels := TakeoverRun(cfg, key);
    states, labels := Extended(cfg, states, labels, RecordFailure(0),
      One(cfg.leaseMs, Reopened(cfg, key), map[], ReportedOnce(cfg)));
  }

  /** ... or reports it a second time, when it completes the anchor itself; no attempt need be left for that. */
  lemma LateWriteReportsTwice(cfg: Config, key: string) returns (states: seq<Sys>, labels: seq<Label>)
    requires cfg.leaseMs > 0
    ensures Run(cfg, states, labels) && |states| == 7 && forall i :: 0 <= i < |labels| ==> !labels[i].CompleteUnseen?
    ensures PastOf(states[5], key).reports == 1 && PastOf(states[6], key).reports == 2
    ensures cfg.maxAttempts <= 1 ==> Finished(states[5], key) && !Reopenable(cfg, states[5], key)
  {
    var lease, a, late := cfg.leaseMs, CompletedOnce(cfg, key), LateHolder(cfg, key);
    var again := WithStatus(a, CompletionOf(late[0].anchor, NO_COUNTS));
    CompleteOne(cfg, lease, a, late, ReportedOnce(cfg), 0, NO_COUNTS);
    states, labels := TakeoverRun(cfg, key);
    FinalExactly(cfg, states[5], key);
    states, labels := Extended(cfg, states, labels, Complete(0, NO_COUNTS),
      One(lease, again, late - {0}, ReportedOnce(cfg).(reports := 2)));
  }
}
