/**
 Who may touch a worker's private queue: in every run a worker is not idle exactly when one thread, the one it holds
 the handle of, is inside its work loop; and every thread ever started is joined at most once, by somebody else.
 */
module PoolOwnership {
  import opened ThreadPool

  /** Inside the work loop: such a thread may still touch its worker's private queue. */
  predicate Active(place: Place) {
    place != Outside && place != Exited && place != Terminated
  }

  ghost predicate ThreadOwn(s: State, t: nat)
    requires t < |s.threads|
  {
    var th := s.threads[t];
    && (th.role == External <==> th.at == Outside)
    && (th.role.WorkerOf? ==> th.role.w < |s.workers|)
    && (Active(th.at) ==> !s.workers[th.role.w].idle && s.workers[th.role.w].handle == Joinable(t))
  }

  ghost predicate WorkerOwn(s: State, w: nat)
    requires w < |s.workers|
  {
    var x := s.workers[w];
    && (!x.idle ==> x.handle.Joinable?)
    && (x.handle.Joinable? ==> x.handle.t < |s.threads| && s.threads[x.handle.t].role == WorkerOf(w))
    && (!x.idle ==> Active(s.threads[x.handle.t].at))
  }

  ghost predicate Owned(s: State) {
    && (forall t: nat :: t < |s.threads| ==> ThreadOwn(s, t))
    && (forall w: nat :: w < |s.workers| ==> WorkerOwn(s, w))
  }

  // -- what each kind of step does to ownership --

  lemma LocalOwn(w: nat, pool: nat, l: Local, claimed: seq<nat>)
    requires LocalEnabled(w, pool, l, claimed)
    ensures var l' := LocalStep(w, pool, l, claimed);
      && l'.x.handle == l.x.handle && l'.at != Outside
      && (Active(l.at) && Active(l'.at) ==> l'.x.idle == l.x.idle)
      && (Active(l.at) && !Active(l'.at) ==> l'.x.idle)
      && (!Active(l.at) ==> !Active(l'.at) && l'.x.idle == l.x.idle)
  {
  }

  lemma UpdateOwned(s: State, t: nat, w: nat, l: Local)
    requires Owned(s) && t < |s.threads| && s.threads[t].role == WorkerOf(w)
    requires w < |s.workers|
    requires l.x.handle == s.workers[w].handle && l.at != Outside
    requires Active(s.threads[t].at) && Active(l.at) ==> l.x.idle == s.workers[w].idle
    requires Active(s.threads[t].at) && !Active(l.at) ==> l.x.idle
    requires !Active(s.threads[t].at) ==> !Active(l.at) && l.x.idle == s.workers[w].idle
    ensures Owned(Update(s, t, w, l))
  {
    var s' := Update(s, t, w, l);
    assert ThreadOwn(s, t) && WorkerOwn(s, w);
    forall u: nat | u < |s'.threads| ensures ThreadOwn(s', u) {
      assert ThreadOwn(s, u);
    }
    forall v: nat | v < |s'.workers| ensures WorkerOwn(s', v) {
      assert WorkerOwn(s, v);
    }
  }

  lemma DeliverOwned(s: State, t: nat, v: nat, slots: seq<Slot>)
    requires Owned(s) && t < |s.threads| && v < |s.workers|
    ensures Owned(Deliver(s, t, v, slots))
  {
    var s' := Deliver(s, t, v, slots);
    assert WorkerOwn(s, v);
    forall u: nat | u < |s'.threads| ensures ThreadOwn(s', u) {
      if u < |s.threads| {
        assert ThreadOwn(s, u);
      }
    }
    forall w: nat | w < |s'.workers| ensures WorkerOwn(s', w) {
      assert WorkerOwn(s, w);
    }
  }

  /** Steps that leave idle flags, handles, roles and places alone. */
  lemma QuietOwned(s: State, s': State)
    requires Owned(s) && |s'.workers| == |s.workers| && |s'.threads| == |s.threads|
    requires forall w :: 0 <= w < |s.workers| ==>
      s'.workers[w].idle == s.workers[w].idle && s'.workers[w].handle == s.workers[w].handle
    requires forall t :: 0 <= t < |s.threads| ==>
      s'.threads[t].role == s.threads[t].role && s'.threads[t].at == s.threads[t].at
    ensures Owned(s')
  {
    forall t: nat | t < |s'.threads| ensures ThreadOwn(s', t) {
      assert ThreadOwn(s, t);
    }
    forall w: nat | w < |s'.workers| ensures WorkerOwn(s', w) {
      assert WorkerOwn(s, w);
    }
  }

  lemma JoinOwned(s: State, w: nat)
    requires Owned(s) && w < |s.workers|
    requires s.workers[w].handle.Joinable? ==>
      s.workers[w].handle.t < |s.threads| && s.threads[s.workers[w].handle.t].at == Terminated
    ensures Owned(SetWorker(s, w, s.workers[w].(handle := NoThread)))
  {
    var s' := SetWorker(s, w, s.workers[w].(handle := NoThread));
    assert WorkerOwn(s, w);
    forall t: nat | t < |s'.threads| ensures ThreadOwn(s', t) {
      assert ThreadOwn(s, t);
    }
    forall v: nat | v < |s'.workers| ensures WorkerOwn(s', v) {
      assert WorkerOwn(s, v);
    }
  }

  lemma ShutdownOwned(s: State, s': State)
    requires Owned(s) && Step(s, ShutdownStep, s')
    ensures Owned(s')
  {
    var w := s.shutdown.w;
    if s.shutdown.stage == Join {
      JoinOwned(s, w);
      QuietOwned(SetWorker(s, w, s.workers[w].(handle := NoThread)), s');
    } else {
      QuietOwned(s, s');
    }
  }

  lemma CallerOwned(s: State, s': State)
    requires Owned(s) && Step(s, AddCaller, s')
    ensures Owned(s')
  {
    forall t: nat | t < |s'.threads| ensures ThreadOwn(s', t) {
      if t < |s.threads| {
        assert ThreadOwn(s, t);
      }
    }
    forall w: nat | w < |s'.workers| ensures WorkerOwn(s', w) {
      assert WorkerOwn(s, w);
    }
  }

  lemma WorkOwned(s: State, t: nat, claimed: seq<nat>, s': State)
    requires Owned(s) && Step(s, Work(t, claimed), s')
    ensures Owned(s')
  {
    var w := s.threads[t].role.w;
    LocalOwn(w, |s.workers|, LocalOf(s, t), claimed);
    var l := LocalStep(w, |s.workers|, LocalOf(s, t), claimed);
    UpdateOwned(s, t, w, l);
    QuietOwned(Update(s, t, w, l), s');
  }

  lemma DonateOwned(s: State, t: nat, s': State)
    requires Owned(s) && Step(s, Donate(t), s')
    ensures Owned(s')
  {
    var w := s.threads[t].role.w;
    var x := s.workers[w];
    var k := s.threads[t].at.k;
    if s.workers[x.targets[k]].abort {
      UpdateOwned(s, t, w, Local(x, Thrown));
    } else {
      UpdateOwned(s, t, w, Donor(x, k));
      DeliverOwned(Update(s, t, w, Donor(x, k)), t, x.targets[k], ChunkOf(x, k));
    }
  }

  lemma StepOwned(s: State, e: Event, s': State)
    requires Owned(s) && Step(s, e, s')
    ensures Owned(s')
  {
    match e
    case AddCaller => CallerOwned(s, s');
    case Enqueue(t, v, slots) =>
      if !s.workers[v].abort {
        DeliverOwned(s, t, v, slots);
        QuietOwned(Deliver(s, t, v, slots), s');
      }
    case EnqueueLocal(t, slots) => QuietOwned(s, s');
    case PayDebt(t) => QuietOwned(s, s');
    case Work(t, claimed) => WorkOwned(s, t, claimed, s');
    case Donate(t) => DonateOwned(s, t, s');
    case Timeout(t) =>
      assert ThreadOwn(s, t);
      UpdateOwned(s, t, s.threads[t].role.w, Local(s.workers[s.threads[t].role.w], TimedOut));
      QuietOwned(Update(s, t, s.threads[t].role.w, Local(s.workers[s.threads[t].role.w], TimedOut)), s');
    case RequestShutdown => QuietOwned(s, s');
    case ShutdownStep => ShutdownOwned(s, s');
  }
}
