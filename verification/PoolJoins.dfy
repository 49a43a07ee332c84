/**
 Every thread the pool ever started is accounted for: it is the current thread of its worker, or exactly one other
 thread owes its join, or it has terminated and been joined. Nobody joins a thread that could still wait for anything.
 */
module PoolJoins {
  import opened ThreadPool
  import opened PoolOwnership

  predicate MayOwe(place: Place) {
    place == Outside || place.Running? || place.Donating? || place.Erasing?
  }

  ghost predicate DebtOk(s: State, t: nat)
    requires t < |s.threads|
  {
    var debt := s.threads[t].debt;
    && (debt != NoDebt ==> MayOwe(s.threads[t].at))
    && (debt.OwesRelease? ==> debt.w < |s.workers|)
    && (debt.OwesJoin? ==>
          && debt.t < |s.threads| && s.threads[debt.t].role.WorkerOf? && s.threads[debt.t].role.w < |s.workers|
          && !Active(s.threads[debt.t].at) && debt.t !in s.joined
          && s.workers[s.threads[debt.t].role.w].handle != Joinable(debt.t))
  }

  ghost predicate OneDebtor(s: State) {
    forall t, u | 0 <= t < |s.threads| && 0 <= u < |s.threads| ::
      s.threads[t].debt.OwesJoin? && s.threads[u].debt == s.threads[t].debt ==> t == u
  }

  ghost predicate JoinedOk(s: State) {
    forall u :: u in s.joined ==>
      && u < |s.threads| && s.threads[u].at == Terminated && s.threads[u].role.WorkerOf?
      && s.threads[u].role.w < |s.workers| && s.workers[s.threads[u].role.w].handle != Joinable(u)
  }

  ghost predicate Owing(s: State, u: nat) {
    exists t :: 0 <= t < |s.threads| && s.threads[t].debt == OwesJoin(u)
  }

  ghost predicate Accounted(s: State, u: nat)
    requires u < |s.threads|
  {
    s.threads[u].role.WorkerOf? && s.threads[u].role.w < |s.workers| ==>
      s.workers[s.threads[u].role.w].handle == Joinable(u) || u in s.joined || Owing(s, u)
  }

  ghost predicate Joins(s: State) {
    && (forall t: nat :: t < |s.threads| ==> DebtOk(s, t) && Accounted(s, t))
    && OneDebtor(s) && JoinedOk(s)
  }

  /** Roles, handles, debts and joins are kept; threads only move forward out of the work loop. */
  ghost predicate JoinFrame(s: State, s': State) {
    && |s'.workers| == |s.workers| && |s'.threads| == |s.threads| && s'.joined == s.joined
    && (forall w :: 0 <= w < |s.workers| ==> s'.workers[w].handle == s.workers[w].handle)
    && (forall t :: 0 <= t < |s.threads| ==>
          && s'.threads[t].role == s.threads[t].role && s'.threads[t].debt == s.threads[t].debt
          && (s.threads[t].debt != NoDebt ==> s'.threads[t].at == s.threads[t].at)
          && (!Active(s.threads[t].at) ==> !Active(s'.threads[t].at))
          && (s.threads[t].at == Terminated ==> s'.threads[t].at == Terminated))
  }

  lemma FrameJoins(s: State, s': State)
    requires Joins(s) && JoinFrame(s, s')
    ensures Joins(s')
  {
    forall t: nat | t < |s'.threads| ensures DebtOk(s', t) && Accounted(s', t) {
      assert DebtOk(s, t) && Accounted(s, t);
      if Owing(s, t) {
        var d :| 0 <= d < |s.threads| && s.threads[d].debt == OwesJoin(t);
        assert s'.threads[d].debt == OwesJoin(t);
      }
    }
    assert OneDebtor(s') by {
      forall t, u | 0 <= t < |s'.threads| && 0 <= u < |s'.threads| && s'.threads[t].debt.OwesJoin?
                    && s'.threads[u].debt == s'.threads[t].debt
        ensures t == u
      {
        assert s.threads[t].debt.OwesJoin? && s.threads[u].debt == s.threads[t].debt;
      }
    }
  }

  lemma DeliverDebt(s: State, t: nat, v: nat, slots: seq<Slot>, u: nat)
    requires Owned(s) && Joins(s) && t < |s.threads| && v < |s.workers|
    requires s.threads[t].debt == NoDebt && MayOwe(s.threads[t].at)
    requires u < |Deliver(s, t, v, slots).threads|
    ensures DebtOk(Deliver(s, t, v, slots), u)
  {
    assert WorkerOwn(s, v);
    if u < |s.threads| {
      assert DebtOk(s, u);
    }
    if s.workers[v].idle && s.workers[v].handle.Joinable? {
      assert ThreadOwn(s, s.workers[v].handle.t);
    }
  }

  lemma DeliverAccounted(s: State, t: nat, v: nat, slots: seq<Slot>, u: nat)
    requires Owned(s) && Joins(s) && t < |s.threads| && v < |s.workers|
    requires s.threads[t].debt == NoDebt
    requires u < |Deliver(s, t, v, slots).threads|
    ensures Accounted(Deliver(s, t, v, slots), u)
  {
    var s' := Deliver(s, t, v, slots);
    if u < |s.threads| {
      assert Accounted(s, u);
      if Owing(s, u) {
        var d :| 0 <= d < |s.threads| && s.threads[d].debt == OwesJoin(u);
        assert s'.threads[d].debt == OwesJoin(u);
      } else if s.workers[v].idle && s.workers[v].handle == Joinable(u) {
        assert s'.threads[t].debt == OwesJoin(u);
      }
    }
  }

  lemma DeliverJoins(s: State, t: nat, v: nat, slots: seq<Slot>)
    requires Owned(s) && Joins(s) && t < |s.threads| && v < |s.workers|
    requires s.threads[t].debt == NoDebt && MayOwe(s.threads[t].at)
    ensures Joins(Deliver(s, t, v, slots))
  {
    var s' := Deliver(s, t, v, slots);
    assert WorkerOwn(s, v);
    forall u: nat | u < |s'.threads| ensures DebtOk(s', u) && Accounted(s', u) {
      DeliverDebt(s, t, v, slots, u);
      DeliverAccounted(s, t, v, slots, u);
    }
    forall a, b | 0 <= a < |s'.threads| && 0 <= b < |s'.threads| && s'.threads[a].debt.OwesJoin?
                  && s'.threads[b].debt == s'.threads[a].debt
      ensures a == b
    {
      assert a < |s.threads| ==> DebtOk(s, a);
      assert b < |s.threads| ==> DebtOk(s, b);
    }
  }

  lemma PayJoins(s: State, t: nat, s': State)
    requires Owned(s) && Joins(s) && Step(s, PayDebt(t), s')
    ensures Joins(s')
  {
    assert DebtOk(s, t);
    forall u: nat | u < |s'.threads| ensures DebtOk(s', u) && Accounted(s', u) {
      assert DebtOk(s, u) && Accounted(s, u);
      if Owing(s, u) && u !in s'.joined {
        var d :| 0 <= d < |s.threads| && s.threads[d].debt == OwesJoin(u);
        assert s'.threads[d].debt == OwesJoin(u);
      }
    }
  }

  lemma CallerJoins(s: State, s': State)
    requires Owned(s) && Joins(s) && Step(s, AddCaller, s')
    ensures Joins(s')
  {
    forall u: nat | u < |s'.threads| ensures DebtOk(s', u) && Accounted(s', u) {
      if u < |s.threads| {
        assert DebtOk(s, u) && Accounted(s, u);
        if Owing(s, u) {
          var d :| 0 <= d < |s.threads| && s.threads[d].debt == OwesJoin(u);
          assert s'.threads[d].debt == OwesJoin(u);
        }
      }
    }
  }

  lemma ShutdownJoins(s: State, s': State)
    requires Owned(s) && Joins(s) && Step(s, ShutdownStep, s')
    ensures Joins(s')
  {
    var w := s.shutdown.w;
    if s.shutdown.stage == Join && s.workers[w].handle.Joinable? {
      assert WorkerOwn(s, w);
      forall u: nat | u < |s'.threads| ensures DebtOk(s', u) && Accounted(s', u) {
        assert DebtOk(s, u) && Accounted(s, u);
        if Owing(s, u) {
          var d :| 0 <= d < |s.threads| && s.threads[d].debt == OwesJoin(u);
          assert s'.threads[d].debt == OwesJoin(u);
        }
      }
    } else {
      FrameJoins(s, s');
    }
  }

  lemma LocalJoins(w: nat, pool: nat, l: Local, claimed: seq<nat>)
    requires LocalEnabled(w, pool, l, claimed)
    ensures var l' := LocalStep(w, pool, l, claimed);
      l'.x.handle == l.x.handle && (!Active(l.at) ==> !Active(l'.at)) && l.at != Terminated
  {
  }

  lemma WorkJoins(s: State, t: nat, claimed: seq<nat>, s': State)
    requires Joins(s) && Step(s, Work(t, claimed), s')
    ensures Joins(s')
  {
    LocalJoins(s.threads[t].role.w, |s.workers|, LocalOf(s, t), claimed);
    FrameJoins(s, s');
  }

  lemma DonateJoins(s: State, t: nat, s': State)
    requires Owned(s) && Joins(s) && Step(s, Donate(t), s')
    ensures Joins(s')
  {
    var w := s.threads[t].role.w;
    var x := s.workers[w];
    var k := s.threads[t].at.k;
    if s.workers[x.targets[k]].abort {
      FrameJoins(s, s');
    } else {
      var s1 := Update(s, t, w, Donor(x, k));
      UpdateOwned(s, t, w, Donor(x, k));
      FrameJoins(s, s1);
      DeliverJoins(s1, t, x.targets[k], ChunkOf(x, k));
    }
  }

  lemma StepJoins(s: State, e: Event, s': State)
    requires Owned(s) && Joins(s) && Step(s, e, s')
    ensures Joins(s')
  {
    match e
    case AddCaller => CallerJoins(s, s');
    case Enqueue(t, v, slots) =>
      if !s.workers[v].abort {
        DeliverJoins(s, t, v, slots);
        FrameJoins(Deliver(s, t, v, slots), s');
      }
    case EnqueueLocal(t, slots) => FrameJoins(s, s');
    case PayDebt(t) => PayJoins(s, t, s');
    case Work(t, claimed) => WorkJoins(s, t, claimed, s');
    case Donate(t) => DonateJoins(s, t, s');
    case Timeout(t) =>
      assert DebtOk(s, t);
      FrameJoins(s, s');
    case RequestShutdown => FrameJoins(s, s');
    case ShutdownStep => ShutdownJoins(s, s');
  }
}
