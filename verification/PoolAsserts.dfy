/**
 The contents of the queues while a worker drains and donates: what the source asserts about them before a shutdown is
 requested, and the part of it that conservation needs at any time.
 */
module PoolAsserts {
  import opened WorkSplit
  import opened ThreadPool
  import opened PoolOwnership
  import opened PoolShutdown
  import opened PoolDonation
  import opened PoolWakeUp
  import opened PoolConservation

  ghost predicate AllFull(q: seq<Slot>) {
    forall i :: 0 <= i < |q| ==> q[i].Full?
  }

  /** A worker without a shutdown: nothing is left in the private queue when the loop comes around. */
  ghost predicate CalmOk(l: Local) {
    && l.at != AbortExit && l.at != Thrown
    && (Waiting(l.at) || l.at == Starting || l.at == Exited ==> l.x.privateQueue == [])
  }

  /** ... and, if only non-empty tasks are enqueued, all that is not donated yet is non-empty. */
  ghost predicate FullOk(l: Local) {
    && AllFull(l.x.publicQueue)
    && match l.at
       case Donating(k, n) => ChunkStart(l.x, k, n) <= |l.x.privateQueue| && AllFull(l.x.privateQueue[ChunkStart(l.x, k, n)..])
       case Erasing(n) =>
         ChunkStart(l.x, |l.x.targets|, n) <= |l.x.privateQueue|
         && AllFull(l.x.privateQueue[ChunkStart(l.x, |l.x.targets|, n)..])
       case Running(slot) => slot.Full? && AllFull(l.x.privateQueue)
       case _ => AllFull(l.x.privateQueue)
  }

  ghost predicate QueuesOk(l: Local, calm: bool, full: bool) {
    EmptiedOk(l) && (calm ==> CalmOk(l)) && (calm && full ==> FullOk(l))
  }

  ghost predicate Queues(s: State, full: bool) {
    forall w: nat :: w < |s.workers| ==>
      QueuesOk(Local(s.workers[w], PlaceOf(s, w)), s.shutdown == NotRequested, full)
  }

  lemma LocalQueues(w: nat, pool: nat, l: Local, claimed: seq<nat>, calm: bool, full: bool)
    requires LocalEnabled(w, pool, l, claimed) && QueuesOk(l, calm, full)
    requires calm ==> !l.x.atomicAbort && !l.x.abort
    ensures QueuesOk(LocalStep(w, pool, l, claimed), calm, full)
  {
    LocalEmptied(w, pool, l, claimed);
    var l' := LocalStep(w, pool, l, claimed);
    if l'.at.Donating? {
      OffsetEnds(|l'.x.privateQueue|, |l'.x.targets| + 1);
    } else if l.at.Erasing? {
      OffsetBounds(|l.x.privateQueue|, |l.x.targets| + 1, |l.x.targets|);
    }
  }

  lemma DonorFull(x: Worker, k: nat)
    requires k < |x.targets| && FullOk(Local(x, Donating(k, |x.privateQueue|)))
    ensures FullOk(Donor(x, k)) && AllFull(ChunkOf(x, k))
  {
    var n := |x.privateQueue|;
    OffsetBounds(n, |x.targets| + 1, k);
    var from, to := ChunkStart(x, k, n), ChunkStart(x, k + 1, n);
    var q := x.privateQueue[from..];
    assert ChunkOf(x, k) == q[..to - from];
    assert Donor(x, k).x.privateQueue[to..] == q[to - from..];
  }

  lemma DonorQueues(x: Worker, k: nat, calm: bool, full: bool)
    requires k < |x.targets| && QueuesOk(Local(x, Donating(k, |x.privateQueue|)), calm, full)
    ensures QueuesOk(Donor(x, k), calm, full)
    ensures calm && full ==> AllFull(ChunkOf(x, k))
  {
    DonorEmptied(x, k);
    if calm && full {
      DonorFull(x, k);
    }
  }

  /** Steps after which each worker has the same queues, in the same or a neighbouring place. */
  lemma QuietQueues(s: State, s': State, full: bool)
    requires Queues(s, full) && |s'.workers| == |s.workers|
    requires s'.shutdown == NotRequested ==> s.shutdown == NotRequested
    requires forall w :: 0 <= w < |s.workers| ==>
      && s'.workers[w].targets == s.workers[w].targets
      && s'.workers[w].privateQueue == s.workers[w].privateQueue
      && (full && s'.shutdown == NotRequested ==> AllFull(s'.workers[w].publicQueue))
      && (|| PlaceOf(s', w) == PlaceOf(s, w)
          || (PlaceOf(s', w).Starting? && PlaceOf(s, w).Exited?)
          || (PlaceOf(s, w).Parked? && PlaceOf(s', w).TimedOut?))
    ensures Queues(s', full)
  {
    forall w: nat | w < |s'.workers|
      ensures QueuesOk(Local(s'.workers[w], PlaceOf(s', w)), s'.shutdown == NotRequested, full)
    {
      assert QueuesOk(Local(s.workers[w], PlaceOf(s, w)), s.shutdown == NotRequested, full);
    }
  }

  lemma UpdateQueues(s: State, t: nat, w: nat, l: Local, full: bool)
    requires Owned(s) && Queues(s, full) && t < |s.threads| && s.threads[t].role == WorkerOf(w) && w < |s.workers|
    requires Active(s.threads[t].at) && l.x.handle == s.workers[w].handle
    requires Active(l.at) <==> !l.x.idle
    requires QueuesOk(Local(l.x, if Active(l.at) then l.at else Exited), s.shutdown == NotRequested, full)
    ensures Queues(Update(s, t, w, l), full)
  {
    var s' := Update(s, t, w, l);
    assert ThreadOwn(s, t);
    forall v: nat | v < |s'.workers|
      ensures QueuesOk(Local(s'.workers[v], PlaceOf(s', v)), s'.shutdown == NotRequested, full)
    {
      if v != w {
        assert WorkerOwn(s, v);
        assert PlaceOf(s', v) == PlaceOf(s, v);
      }
    }
  }

  lemma DeliverQueues(s: State, t: nat, v: nat, slots: seq<Slot>, full: bool)
    requires Owned(s) && Queues(s, full) && t < |s.threads| && v < |s.workers|
    requires full && s.shutdown == NotRequested ==> AllFull(slots)
    ensures Queues(Deliver(s, t, v, slots), full)
  {
    var s' := Deliver(s, t, v, slots);
    forall w: nat | w < |s.workers|
      ensures PlaceOf(s', w) == PlaceOf(s, w) || (PlaceOf(s', w).Starting? && PlaceOf(s, w).Exited?)
      ensures full && s'.shutdown == NotRequested ==> AllFull(s'.workers[w].publicQueue)
    {
      assert WorkerOwn(s, w);
      assert QueuesOk(Local(s.workers[w], PlaceOf(s, w)), s.shutdown == NotRequested, full);
    }
    QuietQueues(s, s', full);
  }

  /** The event enqueues no empty task. */
  ghost predicate EnqueuesFull(e: Event) {
    (e.Enqueue? || e.EnqueueLocal?) ==> AllFull(e.slots)
  }

  lemma EnqueueLocalQueues(s: State, t: nat, slots: seq<Slot>, s': State, full: bool)
    requires Owned(s) && Queues(s, full) && Step(s, EnqueueLocal(t, slots), s')
    requires full ==> AllFull(slots)
    ensures Queues(s', full)
  {
    var w := s.threads[t].role.w;
    assert ThreadOwn(s, t);
    assert QueuesOk(Local(s.workers[w], PlaceOf(s, w)), s.shutdown == NotRequested, full);
    if !s.workers[w].atomicAbort {
      var l := Local(s'.workers[w], s.threads[t].at);
      UpdateQueues(s, t, w, l, full);
      assert Update(s, t, w, l).workers == s'.workers;
      assert forall v: nat :: v < |s.workers| ==> PlaceOf(s', v) == PlaceOf(Update(s, t, w, l), v);
    }
  }

  lemma WorkQueues(s: State, t: nat, claimed: seq<nat>, s': State, full: bool)
    requires Owned(s) && Stages(s) && Queues(s, full) && Step(s, Work(t, claimed), s')
    ensures Queues(s', full)
  {
    var w := s.threads[t].role.w;
    var l := LocalOf(s, t);
    var l' := LocalStep(w, |s.workers|, l, claimed);
    LocalKeeps(w, |s.workers|, l, claimed);
    assert ThreadOwn(s, t) && StageOk(s, w);
    forall v: nat | v < |s.workers| ensures s'.workers[v] == Update(s, t, w, l').workers[v] {
    }
    if Active(l.at) {
      assert PlaceOf(s, w) == l.at;
      LocalQueues(w, |s.workers|, l, claimed, s.shutdown == NotRequested, full);
      UpdateQueues(s, t, w, l', full);
      assert forall v: nat :: v < |s.workers| ==> PlaceOf(s', v) == PlaceOf(Update(s, t, w, l'), v);
    } else {
      forall v: nat | v < |s'.workers|
        ensures QueuesOk(Local(s'.workers[v], PlaceOf(s', v)), s'.shutdown == NotRequested, full)
      {
        assert WorkerOwn(s, v);
        assert PlaceOf(s', v) == PlaceOf(s, v);
      }
    }
  }

  lemma DonateQueues(s: State, t: nat, s': State, full: bool)
    requires Owned(s) && Stages(s) && Queues(s, full) && Step(s, Donate(t), s')
    ensures Queues(s', full)
  {
    var w := s.threads[t].role.w;
    var x := s.workers[w];
    var k := s.threads[t].at.k;
    assert ThreadOwn(s, t);
    assert PlaceOf(s, w) == s.threads[t].at;
    assert QueuesOk(LocalOf(s, t), s.shutdown == NotRequested, full);
    if s.workers[x.targets[k]].abort {
      assert StageOk(s, x.targets[k]);
      UpdateQueues(s, t, w, Local(x, Thrown), full);
    } else {
      DonorQueues(x, k, s.shutdown == NotRequested, full);
      UpdateQueues(s, t, w, Donor(x, k), full);
      UpdateOwned(s, t, w, Donor(x, k));
      DeliverQueues(Update(s, t, w, Donor(x, k)), t, x.targets[k], ChunkOf(x, k), full);
    }
  }

  lemma ShutdownQueues(s: State, s': State, full: bool)
    requires Owned(s) && Stages(s) && Queues(s, full) && Step(s, ShutdownStep, s')
    ensures Queues(s', full)
  {
    var w0 := s.shutdown.w;
    assert StageOk(s, w0) && WorkerOwn(s, w0);
    forall w: nat | w < |s'.workers|
      ensures QueuesOk(Local(s'.workers[w], PlaceOf(s', w)), s'.shutdown == NotRequested, full)
    {
      assert WorkerOwn(s, w);
      assert QueuesOk(Local(s.workers[w], PlaceOf(s, w)), s.shutdown == NotRequested, full);
      assert PlaceOf(s', w) == PlaceOf(s, w);
    }
  }

  lemma StepQueues(s: State, e: Event, s': State, full: bool)
    requires Owned(s) && Stages(s) && Queues(s, full) && Step(s, e, s')
    requires full ==> EnqueuesFull(e)
    ensures Queues(s', full)
  {
    match e
    case Enqueue(t, v, slots) =>
      if !s.workers[v].abort {
        DeliverQueues(s, t, v, slots, full);
        assert Deliver(s, t, v, slots).workers == s'.workers;
        assert forall w: nat :: w < |s.workers| ==> PlaceOf(s', w) == PlaceOf(Deliver(s, t, v, slots), w);
      }
    case EnqueueLocal(t, slots) => EnqueueLocalQueues(s, t, slots, s', full);
    case Work(t, claimed) => WorkQueues(s, t, claimed, s', full);
    case Donate(t) => DonateQueues(s, t, s', full);
    case ShutdownStep => ShutdownQueues(s, s', full);
    case _ =>
      forall w: nat | w < |s.workers|
        ensures PlaceOf(s', w) == PlaceOf(s, w) || (PlaceOf(s, w).Parked? && PlaceOf(s', w).TimedOut?)
        ensures full && s'.shutdown == NotRequested ==> AllFull(s'.workers[w].publicQueue)
      {
        assert WorkerOwn(s, w);
        assert QueuesOk(Local(s.workers[w], PlaceOf(s, w)), s.shutdown == NotRequested, full);
      }
      QuietQueues(s, s', full);
  }
}
