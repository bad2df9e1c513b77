/** Crash and replay: what the record collection holds after any mixture of attempts at one anchor. */
module Convergence {
  import opened Wrappers
  import opened CpsKeys
  import opened Protocol
  import opened Records
  import opened Pipeline

  /** A record write that took effect, and the attempt that issued it. */
  datatype Write = Write(attempt: nat, record: Record)

  function Written(log: seq<Write>): seq<Record> {
    if log == [] then [] else Written(log[..|log| - 1]) + [log[|log| - 1].record]
  }

  /** The writes of one attempt, in the order it issued them. */
  function Of(log: seq<Write>, attempt: nat): seq<Record> {
    if log == [] then []
    else
      var w := log[|log| - 1];
      Of(log[..|log| - 1], attempt) + if w.attempt == attempt then [w.record] else []
  }

  function LastWriter(log: seq<Write>, key: string): Option<nat> {
    if log == [] then None
    else if log[|log| - 1].record.recordKey == key then Some(log[|log| - 1].attempt)
    else LastWriter(log[..|log| - 1], key)
  }

  /** The attempt ran to its end without being interrupted. */
  ghost predicate Complete(job: Job, batch: seq<RawEnvelope>, log: seq<Write>, attempt: nat) {
    Of(log, attempt) == OnlineWrites(job, batch)
  }

  /** The attempt was cut somewhere: before its end, or while marking a failed legacy projection. */
  ghost predicate Interrupted(job: Job, batch: seq<RawEnvelope>, log: seq<Write>, attempt: nat) {
    Of(log, attempt) <= OnlineWrites(job, batch) + FailureWrites(job, batch)
  }

  lemma OneMoreWritten(log: seq<Write>, key: string)
    requires log != []
    ensures
      var front, r := log[..|log| - 1], log[|log| - 1].record;
      LastFor(Written(log), key) == if r.recordKey == key then Some(r) else LastFor(Written(front), key)
  {
    LastForConcat(Written(log[..|log| - 1]), [log[|log| - 1].record], key);
  }

  lemma OneMoreOf(log: seq<Write>, a: nat, key: string)
    requires log != []
    ensures
      var front, w := log[..|log| - 1], log[|log| - 1];
      LastFor(Of(log, a), key)
        == if w.attempt == a && w.record.recordKey == key then Some(w.record) else LastFor(Of(front, a), key)
  {
    var front, w := log[..|log| - 1], log[|log| - 1];
    LastForConcat(Of(front, a), if w.attempt == a then [w.record] else [], key);
  }

  lemma {:induction false} NeverWrote(log: seq<Write>, key: string, a: nat)
    requires LastWriter(log, key).None?
    ensures LastFor(Of(log, a), key).None?
    decreases |log|
  {
    if log != [] {
      NeverWrote(log[..|log| - 1], key, a);
      OneMoreOf(log, a, key);
    }
  }

  /** However attempts interleave, a key holds what its last writer wrote last to it. */
  lemma {:induction false} LastWriterDecides(log: seq<Write>, key: string)
    ensures LastFor(Written(log), key) ==
      match LastWriter(log, key) case None => None case Some(a) => LastFor(Of(log, a), key)
    ensures LastWriter(log, key).None? ==> forall a :: LastFor(Of(log, a), key).None?
  {
    if log != [] {
      var front, w := log[..|log| - 1], log[|log| - 1];
      LastWriterDecides(front, key);
      OneMoreWritten(log, key);
      if LastWriter(log, key).Some? { OneMoreOf(log, LastWriter(log, key).value, key); }
    }
    forall a | LastWriter(log, key).None?
      ensures LastFor(Of(log, a), key).None?
    {
      NeverWrote(log, key, a);
    }
  }

  /** The stored document of a position is exactly its final record. */
  ghost predicate Settled(job: Job, batch: seq<RawEnvelope>, s: Store, i: nat)
    requires i < |batch|
  {
    var key := RecordKey(job.provenance.sourceKey, i);
    key in s.docs && s.docs[key] == Document(s.docs[key].id, FinalOnline(job, batch, i), None, None)
  }

  /** A position is settled as soon as the attempt that wrote to it last is a complete one, whatever else
      happened before or in between. */
  lemma SettledByLastWriter(job: Job, batch: seq<RawEnvelope>, s: Store, log: seq<Write>, i: nat)
    requires i < |batch|
    requires
      var last := LastWriter(log, RecordKey(job.provenance.sourceKey, i));
      last.Some? && Complete(job, batch, log, last.value)
    ensures Settled(job, batch, PutAll(s, Written(log)), i)
  {
    var key := RecordKey(job.provenance.sourceKey, i);
    LastWriterDecides(log, key);
    CompleteAttempt(job, batch, i);
    PutAllIsLastWrite(s, Written(log), key);
  }

  /** ... and exactly when what that attempt wrote last to it is the position's final record. A position nobody wrote to
      is as it was. */
  lemma SettledExactly(job: Job, batch: seq<RawEnvelope>, s: Store, log: seq<Write>, i: nat)
    requires i < |batch|
    ensures
      var key := RecordKey(job.provenance.sourceKey, i);
      Settled(job, batch, PutAll(s, Written(log)), i) <==>
      match LastWriter(log, key)
      case None => Settled(job, batch, s, i)
      case Some(a) => LastFor(Of(log, a), key) == Some(FinalOnline(job, batch, i))
  {
    var key := RecordKey(job.provenance.sourceKey, i);
    LastWriterDecides(log, key);
    LastWriterWrote(log, key);
    PutAllIsLastWrite(s, Written(log), key);
  }

  lemma {:induction false} LastWriterWrote(log: seq<Write>, key: string)
    ensures LastWriter(log, key).Some? ==> LastFor(Of(log, LastWriter(log, key).value), key).Some?
  {
    if log != [] {
      var front, w := log[..|log| - 1], log[|log| - 1];
      LastWriterWrote(front, key);
      if LastWriter(log, key).Some? { OneMoreOf(log, LastWriter(log, key).value, key); }
    }
  }

  /** How far an interrupted attempt must have got: when it was the last to write to a position, the position is settled
      exactly when the attempt has made all of its writes to it and has not marked it for a failed projection. */
  lemma InterruptedSettles(job: Job, batch: seq<RawEnvelope>, s: Store, log: seq<Write>, i: nat, a: nat)
    requires i < |batch| && LastWriter(log, RecordKey(job.provenance.sourceKey, i)) == Some(a)
    requires Interrupted(job, batch, log, a)
    ensures Settled(job, batch, PutAll(s, Written(log)), i) <==>
            Under(Of(log, a), RecordKey(job.provenance.sourceKey, i)) == PositionWrites(job, batch, i)
  {
    FinalAfterOwnWrites(job, batch, Of(log, a), i);
    SettledExactly(job, batch, s, log, i);
  }

  /** Part of an attempt has written the final record of a position last exactly when it has made all of its writes. */
  lemma FinalAfterOwnWrites(job: Job, batch: seq<RawEnvelope>, done: seq<Record>, i: nat)
    requires i < |batch| && done <= OnlineWrites(job, batch) + FailureWrites(job, batch)
    ensures
      var key := RecordKey(job.provenance.sourceKey, i);
      LastFor(done, key) == Some(FinalOnline(job, batch, i)) <==> Under(done, key) == PositionWrites(job, batch, i)
  {
    var key := RecordKey(job.provenance.sourceKey, i);
    AttemptUnder(job, batch, i);
    PrefixUnder(done, OnlineWrites(job, batch) + FailureWrites(job, batch), key);
    FinalOnlyAtTheEnd(job, batch, i, Under(done, key));
    LastForIsLastUnder(done, key);
  }

  /** Attempts of any number of workers, overlapping freely without any lease, settle every position when each of
      them runs to its end. */
  lemma ConcurrentAttemptsSettle(job: Job, batch: seq<RawEnvelope>, s: Store, log: seq<Write>, i: nat)
    requires i < |batch| && log != []
    requires forall k :: 0 <= k < |log| ==> Complete(job, batch, log, log[k].attempt)
    ensures Settled(job, batch, PutAll(s, Written(log)), i)
  {
    var key := RecordKey(job.provenance.sourceKey, i);
    var a := log[0].attempt;
    CompleteAttempt(job, batch, i);
    assert LastFor(Of(log, a), key).Some?;
    LastWriterDecides(log, key);
    LastWriterIsWriter(log, key);
    SettledByLastWriter(job, batch, s, log, i);
  }

  lemma {:induction false} LastWriterIsWriter(log: seq<Write>, key: string)
    ensures LastWriter(log, key).Some? ==> exists k :: 0 <= k < |log| && log[k].attempt == LastWriter(log, key).value
  {
    if log != [] {
      LastWriterIsWriter(log[..|log| - 1], key);
      if LastWriter(log, key).Some? && log[|log| - 1].record.recordKey != key {
        var k :| 0 <= k < |log| - 1 && log[..|log| - 1][k].attempt == LastWriter(log, key).value;
        assert log[k].attempt == LastWriter(log, key).value;
      }
    }
  }

  /** Interrupt any attempts anywhere, as often as you like, then let one run to its end: every position holds the
      record a single clean attempt leaves in any other collection, nothing of the aborted attempts or of the older
      documents survives in it, documents that existed keep their _id, and every other key is untouched. */
  lemma ReplayConverges(job: Job, batch: seq<RawEnvelope>, s: Store, clean: Store, aborted: seq<Write>, key: string)
    requires forall k :: 0 <= k < |aborted| ==> Interrupted(job, batch, aborted, aborted[k].attempt)
    ensures
      var after := PutAll(PutAll(s, Written(aborted)), OnlineWrites(job, batch));
      var reference := PutAll(clean, OnlineWrites(job, batch));
      && (OwnKey(job, |batch|, key) ==>
            && key in after.docs && key in reference.docs
            && after.docs[key] == reference.docs[key].(id := after.docs[key].id)
            && (key in s.docs ==> after.docs[key].id == s.docs[key].id))
      && (!OwnKey(job, |batch|, key) ==>
            (key in after.docs <==> key in s.docs) && (key in s.docs ==> after.docs[key] == s.docs[key]))
  {
    var last := OnlineWrites(job, batch);
    PutAllConcat(s, Written(aborted), last);
    LastForConcat(Written(aborted), last, key);
    PutAllIsLastWrite(s, Written(aborted) + last, key);
    PutAllIsLastWrite(clean, last, key);
    if OwnKey(job, |batch|, key) {
      var i: nat :| i < |batch| && key == RecordKey(job.provenance.sourceKey, i);
      CompleteAttempt(job, batch, i);
    } else {
      InterruptedWritesOwn(job, batch, aborted);
      AttemptWritesOwnKeys(job, batch);
      LastForIsMember(Written(aborted) + last, key);
      assert forall r :: r in last ==> r in last + FailureWrites(job, batch);
    }
  }

  lemma {:induction false} InterruptedWritesOwn(job: Job, batch: seq<RawEnvelope>, log: seq<Write>)
    requires forall k :: 0 <= k < |log| ==> Interrupted(job, batch, log, log[k].attempt)
    ensures AllOwn(job, |batch|, Written(log))
  {
    AttemptWritesOwnKeys(job, batch);
    forall r | r in Written(log) ensures OwnKey(job, |batch|, r.recordKey) {
      var k := WriterOf(log, r);
      var all := OnlineWrites(job, batch) + FailureWrites(job, batch);
      var own := Of(log, log[k].attempt);
      assert own <= all && r in own;
      assert r in all;
    }
  }

  lemma {:induction false} WriterOf(log: seq<Write>, r: Record) returns (k: nat)
    requires r in Written(log)
    ensures k < |log| && r in Of(log, log[k].attempt)
  {
    if log[|log| - 1].record == r {
      k := |log| - 1;
    } else {
      k := WriterOf(log[..|log| - 1], r);
      assert log[..|log| - 1][k] == log[k];
    }
  }

  /** Record writes are not fenced by the lease: a position that a complete attempt has settled turns back to pending
      when a worker that lost its lease makes its first write to it and dies. */
  lemma StaleWriterUnsettles(job: Job, batch: seq<RawEnvelope>, s: Store, log: seq<Write>, i: nat, stale: nat)
    requires i < |batch| && EnvelopeErrors(batch[i]) == []
    requires
      var last := LastWriter(log, RecordKey(job.provenance.sourceKey, i));
      last.Some? && Complete(job, batch, log, last.value)
    ensures
      var first := CreateEnvelopeRecord(job.provenance, Envelope(i, batch[i]));
      && Settled(job, batch, PutAll(s, Written(log)), i)
      && !Settled(job, batch, PutAll(s, Written(log + [Write(stale, first)])), i)
  {
    var e := Envelope(i, batch[i]);
    var first := CreateEnvelopeRecord(job.provenance, e);
    var longer := log + [Write(stale, first)];
    assert longer[..|log|] == log;
    SettledByLastWriter(job, batch, s, log, i);
    LastForConcat(Written(log), [first], first.recordKey);
    PutAllIsLastWrite(s, Written(longer), first.recordKey);
    assert FinalOnline(job, batch, i).signatureStatus != SignaturePending;
  }

  // ---------- agreement of the two pipelines ----------

  /** For one anchor and one batch, completed runs of the online processor and of the backfill leave the same record
      at every position, up to the projection error only the online one records. */
  lemma BackfillAgrees(job: Job, batch: seq<RawEnvelope>, s: Store, t: Store, i: nat)
    requires i < |batch|
    ensures
      var key := RecordKey(job.provenance.sourceKey, i);
      var online := PutAll(s, OnlineWrites(job, batch));
      var backfill := PutAll(t, BackfillWrites(job, batch));
      && key in online.docs && key in backfill.docs
      && backfill.docs[key].record == online.docs[key].record.(projectionErrorCode := None)
      && backfill.docs[key].record.projectionErrorCode == None
  {
    var key := RecordKey(job.provenance.sourceKey, i);
    CompleteAttempt(job, batch, i);
    PutAllIsLastWrite(s, OnlineWrites(job, batch), key);
    PutAllIsLastWrite(t, BackfillWrites(job, batch), key);
    FinalsAgree(job, batch, i);
  }

  lemma FinalsAgree(job: Job, batch: seq<RawEnvelope>, i: nat)
    requires i < |batch|
    ensures FinalBackfill(job, batch, i) == FinalOnline(job, batch, i).(projectionErrorCode := None)
  {
    CanonicalRecordKey(job, Envelope(i, batch[i]));
  }

  // ---------- both pipelines at one anchor ----------

  /** The stored document of a position is its final record, up to the projection error. */
  ghost predicate CanonicallySettled(job: Job, batch: seq<RawEnvelope>, s: Store, i: nat)
    requires i < |batch|
  {
    var key := RecordKey(job.provenance.sourceKey, i);
    && key in s.docs && s.docs[key] == Document(s.docs[key].id, s.docs[key].record, None, None)
    && s.docs[key].record.(projectionErrorCode := None) == FinalBackfill(job, batch, i)
  }

  /** The attempt is one of either pipeline, cut somewhere or not at all. */
  ghost predicate InterruptedEither(job: Job, batch: seq<RawEnvelope>, log: seq<Write>, attempt: nat) {
    Interrupted(job, batch, log, attempt) || Of(log, attempt) <= BackfillWrites(job, batch)
  }

  ghost predicate CompleteEither(job: Job, batch: seq<RawEnvelope>, log: seq<Write>, attempt: nat) {
    Complete(job, batch, log, attempt) || Of(log, attempt) == BackfillWrites(job, batch)
  }

  /** A beginning of a position's writes ends on its canonical record exactly when it got as far as the backfill
      does. */
  lemma CanonicalFromThere(job: Job, batch: seq<RawEnvelope>, i: nat, own: seq<Record>)
    requires i < |batch| && own != []
    requires own <= PositionWrites(job, batch, i) + PositionMarks(job, batch, i)
             || own <= BackfillPositionWrites(job, batch, i)
    ensures own[|own| - 1].(projectionErrorCode := None) == FinalBackfill(job, batch, i)
            <==> |own| >= |BackfillPositionWrites(job, batch, i)|
  {
    var e := Envelope(i, batch[i]);
    CanonicalRecordKey(job, e);
    if EnvelopeErrors(batch[i]) == [] {
      assert own[0] == CreateEnvelopeRecord(job.provenance, e);
      assert own[0].signatureStatus != CanonicalRecord(job, e).signatureStatus;
      assert |own| >= 2 ==> own[1] == CanonicalRecord(job, e);
    }
  }

  lemma OwnWrites(job: Job, batch: seq<RawEnvelope>, log: seq<Write>, i: nat, a: nat)
    requires InterruptedEither(job, batch, log, a)
    ensures
      var own := Under(Of(log, a), RecordKey(job.provenance.sourceKey, i));
      || own <= PositionWrites(job, batch, i) + PositionMarks(job, batch, i)
      || own <= BackfillPositionWrites(job, batch, i)
  {
    var key := RecordKey(job.provenance.sourceKey, i);
    AttemptUnder(job, batch, i);
    if Interrupted(job, batch, log, a) {
      PrefixUnder(Of(log, a), OnlineWrites(job, batch) + FailureWrites(job, batch), key);
    } else {
      PrefixUnder(Of(log, a), BackfillWrites(job, batch), key);
    }
  }

  /** Attempts of both pipelines at one anchor, interleaved and cut anywhere: a position holds its final record, up to
      the projection error, exactly when the attempt that wrote to it last got as far as its canonical record. */
  lemma MixedAttemptsSettle(job: Job, batch: seq<RawEnvelope>, s: Store, log: seq<Write>, i: nat, a: nat)
    requires i < |batch| && LastWriter(log, RecordKey(job.provenance.sourceKey, i)) == Some(a)
    requires InterruptedEither(job, batch, log, a)
    ensures CanonicallySettled(job, batch, PutAll(s, Written(log)), i) <==>
            |Under(Of(log, a), RecordKey(job.provenance.sourceKey, i))| >= |BackfillPositionWrites(job, batch, i)|
  {
    var key := RecordKey(job.provenance.sourceKey, i);
    LastWriterDecides(log, key);
    LastWriterWrote(log, key);
    LastForIsLastUnder(Of(log, a), key);
    OwnWrites(job, batch, log, i, a);
    CanonicalFromThere(job, batch, i, Under(Of(log, a), key));
    PutAllIsLastWrite(s, Written(log), key);
  }

  /** Complete attempts of both pipelines, overlapping freely, settle every position up to the projection error. */
  lemma ConcurrentPipelinesSettle(job: Job, batch: seq<RawEnvelope>, s: Store, log: seq<Write>, i: nat)
    requires i < |batch| && log != []
    requires forall k :: 0 <= k < |log| ==> CompleteEither(job, batch, log, log[k].attempt)
    ensures CanonicallySettled(job, batch, PutAll(s, Written(log)), i)
  {
    var key := RecordKey(job.provenance.sourceKey, i);
    AttemptUnder(job, batch, i);
    CompleteAttempt(job, batch, i);
    assert CompleteEither(job, batch, log, log[0].attempt);
    assert LastFor(Of(log, log[0].attempt), key).Some?;
    LastWriterDecides(log, key);
    LastWriterIsWriter(log, key);
    var a := LastWriter(log, key).value;
    assert CompleteEither(job, batch, log, a);
    EnoughWrites(job, batch, i);
    MixedAttemptsSettle(job, batch, s, log, i, a);
  }

  lemma EnoughWrites(job: Job, batch: seq<RawEnvelope>, i: nat)
    ensures |PositionWrites(job, batch, i)| >= |BackfillPositionWrites(job, batch, i)|
  {
  }
}
