/**
 Wake-ups: a worker parked on its semaphore with tasks in its public queue always has a permit to take, or a thread that
 owes it one; the same holds for a parked worker that is being shut down.
 */
module PoolWakeUp {
  import opened ThreadPool
  import opened PoolOwnership
  import opened PoolShutdown
  import opened PoolDonation

  ghost predicate Owed(s: State, w: nat) {
    exists t :: 0 <= t < |s.threads| && s.threads[t].debt == OwesRelease(w)
  }

  /** The shutdown of w has set the abort flag and is still to store the found flag. */
  ghost predicate Unstored(s: State, w: nat) {
    Current(s, w) && s.shutdown.stage == StoreFound
  }

  /** ... and is still to release the semaphore. */
  ghost predicate Unreleased(s: State, w: nat) {
    Current(s, w) && (s.shutdown.stage == StoreFound || s.shutdown.stage == ReleaseSemaphore)
  }

  predicate Waiting(at: Place) {
    at == Parked || at == Woken || at == Rechecking || at == TimedOut
  }

  ghost predicate WakeOk(l: Local, owed: bool, unstored: bool, unreleased: bool) {
    var x := l.x;
    && (Waiting(l.at) && x.publicQueue != [] && !x.abort ==> x.found)
    && (l.at == Parked && x.publicQueue != [] && !x.abort ==> 0 < x.semaphore || owed)
    && (l.at == Parked && x.abort ==> 0 < x.semaphore || unreleased)
    && ((l.at == Parked || l.at == Woken) && x.abort ==> x.found || unstored)
  }

  ghost predicate WakeUp(s: State, w: nat)
    requires w < |s.workers|
  {
    WakeOk(Local(s.workers[w], PlaceOf(s, w)), Owed(s, w), Unstored(s, w), Unreleased(s, w))
  }

  ghost predicate WakeUps(s: State) {
    forall w: nat :: w < |s.workers| ==> WakeUp(s, w)
  }

  lemma LocalWake(w: nat, pool: nat, l: Local, claimed: seq<nat>, owed: bool, unstored: bool, unreleased: bool)
    requires LocalEnabled(w, pool, l, claimed) && WakeOk(l, owed, unstored, unreleased) && (unstored ==> unreleased)
    ensures WakeOk(LocalStep(w, pool, l, claimed), owed, unstored, unreleased)
  {
  }

  lemma OwedKept(s: State, s': State, w: nat)
    requires Owed(s, w) && |s.threads| <= |s'.threads|
    requires forall t :: 0 <= t < |s.threads| && s.threads[t].debt == OwesRelease(w) ==> s'.threads[t].debt == OwesRelease(w)
    ensures Owed(s', w)
  {
    var t :| 0 <= t < |s.threads| && s.threads[t].debt == OwesRelease(w);
    assert s'.threads[t].debt == OwesRelease(w);
  }

  /** Steps that keep queues, flags, permits, debts and the stage of the shutdown. */
  lemma QuietWakeUps(s: State, s': State)
    requires WakeUps(s) && s'.shutdown == s.shutdown && |s'.workers| == |s.workers| && |s'.threads| >= |s.threads|
    requires forall t :: 0 <= t < |s.threads| ==> s'.threads[t].debt == s.threads[t].debt
    requires forall w :: 0 <= w < |s.workers| ==>
      && s'.workers[w] == s.workers[w]
      && (PlaceOf(s', w) == PlaceOf(s, w) || (PlaceOf(s, w).Parked? && PlaceOf(s', w).TimedOut?))
    ensures WakeUps(s')
  {
    forall w: nat | w < |s'.workers| ensures WakeUp(s', w) {
      assert WakeUp(s, w);
      if Owed(s, w) {
        OwedKept(s, s', w);
      }
    }
  }

  lemma UpdateWakeUps(s: State, t: nat, w: nat, l: Local)
    requires Owned(s) && WakeUps(s) && t < |s.threads| && s.threads[t].role == WorkerOf(w) && w < |s.workers|
    requires Active(s.threads[t].at) && l.x.handle == s.workers[w].handle
    requires WakeOk(l, Owed(s, w), Unstored(s, w), Unreleased(s, w))
    ensures WakeUps(Update(s, t, w, l))
  {
    var s' := Update(s, t, w, l);
    assert ThreadOwn(s, t);
    forall v: nat | v < |s'.workers| ensures WakeUp(s', v) {
      assert WakeUp(s, v) && WorkerOwn(s, v);
      if Owed(s, v) {
        OwedKept(s, s', v);
      }
      if v != w {
        assert PlaceOf(s', v) == PlaceOf(s, v);
      }
    }
  }

  lemma DeliverWakeUps(s: State, t: nat, v: nat, slots: seq<Slot>)
    requires Owned(s) && WakeUps(s) && t < |s.threads| && v < |s.workers|
    requires s.threads[t].debt == NoDebt && !s.workers[v].abort
    ensures WakeUps(Deliver(s, t, v, slots))
  {
    var s' := Deliver(s, t, v, slots);
    forall w: nat | w < |s'.workers| ensures WakeUp(s', w) {
      assert WakeUp(s, w) && WorkerOwn(s, w);
      if Owed(s, w) {
        OwedKept(s, s', w);
      }
      if w == v && !s.workers[v].idle && s.workers[v].publicQueue == [] {
        assert s'.threads[t].debt == OwesRelease(v);
      }
    }
  }

  lemma PayWakeUps(s: State, t: nat, s': State)
    requires Owned(s) && WakeUps(s) && Step(s, PayDebt(t), s')
    ensures WakeUps(s')
  {
    forall w: nat | w < |s'.workers| ensures WakeUp(s', w) {
      assert WakeUp(s, w);
      if Owed(s, w) && s.threads[t].debt != OwesRelease(w) {
        OwedKept(s, s', w);
      }
    }
  }

  lemma EnqueueLocalWakeUps(s: State, t: nat, slots: seq<Slot>, s': State)
    requires Owned(s) && WakeUps(s) && Step(s, EnqueueLocal(t, slots), s')
    ensures WakeUps(s')
  {
    var w := s.threads[t].role.w;
    assert ThreadOwn(s, t);
    if !s.workers[w].atomicAbort {
      var l := Local(s'.workers[w], s.threads[t].at);
      UpdateWakeUps(s, t, w, l);
      QuietWakeUps(Update(s, t, w, l), s');
    }
  }

  lemma WorkWakeUps(s: State, t: nat, claimed: seq<nat>, s': State)
    requires Owned(s) && WakeUps(s) && Step(s, Work(t, claimed), s')
    ensures WakeUps(s')
  {
    var w := s.threads[t].role.w;
    var l := LocalOf(s, t);
    var l' := LocalStep(w, |s.workers|, l, claimed);
    LocalKeeps(w, |s.workers|, l, claimed);
    assert ThreadOwn(s, t);
    if Active(l.at) {
      assert PlaceOf(s, w) == l.at;
      assert WakeUp(s, w);
      LocalWake(w, |s.workers|, l, claimed, Owed(s, w), Unstored(s, w), Unreleased(s, w));
      UpdateWakeUps(s, t, w, l');
      QuietWakeUps(Update(s, t, w, l'), s');
    } else {
      forall v: nat | v < |s.workers| ensures PlaceOf(s', v) == PlaceOf(s, v) {
        assert WorkerOwn(s, v);
      }
      QuietWakeUps(s, s');
    }
  }

  lemma DonateWakeUps(s: State, t: nat, s': State)
    requires Owned(s) && WakeUps(s) && Step(s, Donate(t), s')
    ensures WakeUps(s')
  {
    var w := s.threads[t].role.w;
    var x := s.workers[w];
    var k := s.threads[t].at.k;
    assert ThreadOwn(s, t);
    if s.workers[x.targets[k]].abort {
      UpdateWakeUps(s, t, w, Local(x, Thrown));
    } else {
      UpdateWakeUps(s, t, w, Donor(x, k));
      UpdateOwned(s, t, w, Donor(x, k));
      DeliverWakeUps(Update(s, t, w, Donor(x, k)), t, x.targets[k], ChunkOf(x, k));
    }
  }

  lemma ShutdownWakeUps(s: State, s': State)
    requires Owned(s) && Stages(s) && WakeUps(s) && Step(s, ShutdownStep, s')
    ensures WakeUps(s')
  {
    var w0 := s.shutdown.w;
    assert StageOk(s, w0) && WorkerOwn(s, w0);
    forall w: nat | w < |s'.workers| ensures WakeUp(s', w) {
      assert WakeUp(s, w) && WorkerOwn(s, w);
      assert PlaceOf(s', w) == PlaceOf(s, w);
      if Owed(s, w) {
        OwedKept(s, s', w);
      }
    }
  }

  lemma StepWakeUps(s: State, e: Event, s': State)
    requires Owned(s) && Stages(s) && WakeUps(s) && Step(s, e, s')
    ensures WakeUps(s')
  {
    match e
    case Enqueue(t, v, slots) =>
      if !s.workers[v].abort {
        DeliverWakeUps(s, t, v, slots);
        QuietWakeUps(Deliver(s, t, v, slots), s');
      }
    case EnqueueLocal(t, slots) => EnqueueLocalWakeUps(s, t, slots, s');
    case PayDebt(t) => PayWakeUps(s, t, s');
    case Work(t, claimed) => WorkWakeUps(s, t, claimed, s');
    case Donate(t) => DonateWakeUps(s, t, s');
    case ShutdownStep => ShutdownWakeUps(s, s');
    case RequestShutdown =>
      forall w: nat | w < |s'.workers| ensures WakeUp(s', w) {
        assert WakeUp(s, w) && StageOk(s, w);
        if Owed(s, w) {
          OwedKept(s, s', w);
        }
      }
    case _ =>
      forall w: nat | w < |s.workers|
        ensures PlaceOf(s', w) == PlaceOf(s, w) || (PlaceOf(s, w).Parked? && PlaceOf(s', w).TimedOut?)
      {
        assert WorkerOwn(s, w);
      }
      QuietWakeUps(s, s');
  }
}
