/**
 The shutdown of the pool, worker by worker: how far it has come fixes each worker's abort flags, and a worker it has
 passed is idle, joined, and keeps both queues empty for ever.
 */
module PoolShutdown {
  import opened ThreadPool
  import opened PoolOwnership

  /** worker.shutdown() has returned for w. */
  predicate Passed(s: State, w: nat) {
    s.shutdown == Finished || (s.shutdown.At? && w < s.shutdown.w)
  }

  predicate Current(s: State, w: nat) {
    s.shutdown.At? && w == s.shutdown.w
  }

  predicate Joined(stage: Stage) {
    stage == TakeQueues || stage == Clear
  }

  predicate AtomicSet(s: State, w: nat) {
    Passed(s, w) || (Current(s, w) && s.shutdown.stage != StoreAtomic)
  }

  predicate AbortSet(s: State, w: nat) {
    Passed(s, w) || (Current(s, w) && s.shutdown.stage != StoreAtomic && s.shutdown.stage != SetAbort)
  }

  ghost predicate StageOk(s: State, w: nat)
    requires w < |s.workers|
  {
    var x := s.workers[w];
    && (x.atomicAbort <==> AtomicSet(s, w))
    && (x.abort <==> AbortSet(s, w))
    && (Passed(s, w) || (Current(s, w) && Joined(s.shutdown.stage)) ==> x.idle && x.handle == NoThread)
    && (Passed(s, w) || (Current(s, w) && s.shutdown.stage == Clear) ==> x.privateQueue == [] && x.publicQueue == [])
  }

  ghost predicate Stages(s: State) {
    && (s.shutdown.At? ==> s.shutdown.w < |s.workers|)
    && forall w: nat :: w < |s.workers| ==> StageOk(s, w)
  }

  lemma UpdateStages(s: State, t: nat, w: nat, l: Local)
    requires Owned(s) && Stages(s) && t < |s.threads| && s.threads[t].role == WorkerOf(w) && w < |s.workers|
    requires l.x.abort == s.workers[w].abort && l.x.atomicAbort == s.workers[w].atomicAbort
    requires Active(s.threads[t].at) || l.x == s.workers[w]
    ensures Stages(Update(s, t, w, l))
  {
    var s' := Update(s, t, w, l);
    assert ThreadOwn(s, t);
    forall v: nat | v < |s'.workers| ensures StageOk(s', v) {
      assert StageOk(s, v);
    }
  }

  lemma DeliverStages(s: State, t: nat, v: nat, slots: seq<Slot>)
    requires Stages(s) && t < |s.threads| && v < |s.workers| && !s.workers[v].abort
    ensures Stages(Deliver(s, t, v, slots))
  {
    var s' := Deliver(s, t, v, slots);
    forall w: nat | w < |s'.workers| ensures StageOk(s', w) {
      assert StageOk(s, w);
    }
  }

  lemma QuietStages(s: State, s': State)
    requires Stages(s) && s'.shutdown == s.shutdown && |s'.workers| == |s.workers|
    requires forall w :: 0 <= w < |s.workers| ==>
      s'.workers[w] == s.workers[w].(semaphore := s'.workers[w].semaphore)
    ensures Stages(s')
  {
    forall w: nat | w < |s'.workers| ensures StageOk(s', w) {
      assert StageOk(s, w);
    }
  }

  lemma LocalStages(w: nat, pool: nat, l: Local, claimed: seq<nat>)
    requires LocalEnabled(w, pool, l, claimed)
    ensures var l' := LocalStep(w, pool, l, claimed);
      l'.x.abort == l.x.abort && l'.x.atomicAbort == l.x.atomicAbort && (Active(l.at) || l'.x == l.x)
  {
  }

  lemma ShutdownStages(s: State, s': State)
    requires Owned(s) && Stages(s) && Step(s, ShutdownStep, s')
    ensures Stages(s')
  {
    var w := s.shutdown.w;
    assert WorkerOwn(s, w);
    forall v: nat | v < |s'.workers| ensures StageOk(s', v) {
      assert StageOk(s, v);
    }
  }

  lemma DonateStages(s: State, t: nat, s': State)
    requires Owned(s) && Stages(s) && Step(s, Donate(t), s')
    ensures Stages(s')
  {
    var w := s.threads[t].role.w;
    var x := s.workers[w];
    var k := s.threads[t].at.k;
    if s.workers[x.targets[k]].abort {
      UpdateStages(s, t, w, Local(x, Thrown));
    } else {
      UpdateStages(s, t, w, Donor(x, k));
      DeliverStages(Update(s, t, w, Donor(x, k)), t, x.targets[k], ChunkOf(x, k));
    }
  }

  lemma EnqueueLocalStages(s: State, t: nat, slots: seq<Slot>, s': State)
    requires Owned(s) && Stages(s) && Step(s, EnqueueLocal(t, slots), s')
    ensures Stages(s')
  {
    var w := s.threads[t].role.w;
    assert ThreadOwn(s, t);
    if !s.workers[w].atomicAbort {
      UpdateStages(s, t, w, Local(s'.workers[w], s.threads[t].at));
      QuietStages(Update(s, t, w, Local(s'.workers[w], s.threads[t].at)), s');
    }
  }

  lemma StepStages(s: State, e: Event, s': State)
    requires Owned(s) && Stages(s) && Step(s, e, s')
    ensures Stages(s')
  {
    match e
    case AddCaller => QuietStages(s, s');
    case Enqueue(t, v, slots) =>
      if !s.workers[v].abort {
        DeliverStages(s, t, v, slots);
        QuietStages(Deliver(s, t, v, slots), s');
      }
    case EnqueueLocal(t, slots) => EnqueueLocalStages(s, t, slots, s');
    case PayDebt(t) => QuietStages(s, s');
    case Work(t, claimed) =>
      var w := s.threads[t].role.w;
      LocalStages(w, |s.workers|, LocalOf(s, t), claimed);
      var l := LocalStep(w, |s.workers|, LocalOf(s, t), claimed);
      UpdateStages(s, t, w, l);
      QuietStages(Update(s, t, w, l), s');
    case Donate(t) => DonateStages(s, t, s');
    case Timeout(t) => QuietStages(s, s');
    case RequestShutdown =>
      forall w: nat | w < |s'.workers| ensures StageOk(s', w) {
        assert StageOk(s, w);
      }
    case ShutdownStep => ShutdownStages(s, s');
  }
}
