/**
 Donation keeps the donor supplied: in every run, also when a donation throws half-way during a shutdown and the
 claimed peers are left over for the next attempt, the worker never pops from an empty private queue.
 */
module PoolDonation {
  import opened WorkSplit
  import opened ThreadPool
  import opened PoolOwnership
  import opened PoolShutdown

  ghost function Aborted(s: State): set<nat> {
    set w: nat | w < |s.workers| && s.workers[w].abort
  }

  /** Some peer claimed at position i or later has been shut down, so this donation will throw. */
  ghost predicate WillThrow(x: Worker, aborted: set<nat>, i: nat) {
    exists j :: i <= j < |x.targets| && x.targets[j] in aborted
  }

  ghost predicate DonationOk(w: nat, pool: nat, l: Local, aborted: set<nat>) {
    var x := l.x;
    && (forall j :: 0 <= j < |x.targets| ==> x.targets[j] < pool && x.targets[j] != w)
    && match l.at
       case Donating(k, n) =>
         && k < |x.targets| && n == |x.privateQueue| && 2 <= n
         && (|x.targets| <= n - 1 || WillThrow(x, aborted, k))
       case Erasing(n) => n == |x.privateQueue| && x.targets != [] && |x.targets| <= n - 1
       case CheckAbort => x.privateQueue != [] && (x.targets == [] || WillThrow(x, aborted, 0))
       case _ => x.targets == [] || WillThrow(x, aborted, 0)
  }

  lemma EraseKeepsTask(x: Worker)
    requires |x.targets| <= |x.privateQueue| - 1
    ensures |Erase(x).x.privateQueue| == |x.privateQueue| / (|x.targets| + 1)
    ensures Erase(x).x.privateQueue != []
  {
    OffsetEnds(|x.privateQueue|, |x.targets| + 1);
    QuotientBounds(|x.privateQueue|, |x.targets| + 1);
    OffsetBounds(|x.privateQueue|, |x.targets| + 1, |x.targets|);
  }

  lemma LocalDonation(w: nat, pool: nat, l: Local, claimed: seq<nat>, aborted: set<nat>)
    requires DonationOk(w, pool, l, aborted) && LocalEnabled(w, pool, l, claimed)
    ensures DonationOk(w, pool, LocalStep(w, pool, l, claimed), aborted)
  {
    if l.at.Erasing? {
      EraseKeepsTask(l.x);
    } else if l.at.Draining? {
      var targets := l.x.targets + claimed;
      if WillThrow(l.x, aborted, 0) {
        var j :| 0 <= j < |l.x.targets| && l.x.targets[j] in aborted;
        assert targets[j] in aborted;
        assert WillThrow(l.x.(targets := targets), aborted, 0);
      }
    } else {
      assert LocalStep(w, pool, l, claimed).x.targets == l.x.targets;
    }
  }

  lemma DonorOk(w: nat, pool: nat, l: Local, aborted: set<nat>)
    requires DonationOk(w, pool, l, aborted) && l.at.Donating? && l.x.targets[l.at.k] !in aborted
    ensures DonationOk(w, pool, Donor(l.x, l.at.k), aborted)
  {
    var x := l.x;
    OffsetBounds(|x.privateQueue|, |x.targets| + 1, l.at.k);
    if WillThrow(x, aborted, l.at.k) {
      var j :| l.at.k <= j < |x.targets| && x.targets[j] in aborted;
      assert j > l.at.k && Donor(x, l.at.k).x.targets[j] in aborted;
    }
  }

  /** Where the thread of worker w is, or Exited if no thread is inside its work loop. */
  ghost function PlaceOf(s: State, w: nat): Place
    requires w < |s.workers|
  {
    var x := s.workers[w];
    if !x.idle && x.handle.Joinable? && x.handle.t < |s.threads| then s.threads[x.handle.t].at else Exited
  }

  ghost predicate Donations(s: State) {
    forall w: nat :: w < |s.workers| ==>
      DonationOk(w, |s.workers|, Local(s.workers[w], PlaceOf(s, w)), Aborted(s))
  }

  /** Only queues, targets and places matter, and aborts only grow. */
  lemma MoreAborted(w: nat, pool: nat, l: Local, l': Local, aborted: set<nat>, aborted': set<nat>)
    requires DonationOk(w, pool, l, aborted) && aborted <= aborted'
    requires l'.x.targets == l.x.targets && l'.x.privateQueue == l.x.privateQueue
    requires l'.at == l.at || (l'.at.Starting? && l.at.Exited?) || (l.at.Parked? && l'.at.TimedOut?)
    ensures DonationOk(w, pool, l', aborted')
  {
    if WillThrow(l.x, aborted, 0) {
      var j :| 0 <= j < |l.x.targets| && l.x.targets[j] in aborted;
      assert l'.x.targets[j] in aborted';
    }
    if l.at.Donating? && WillThrow(l.x, aborted, l.at.k) {
      var j :| l.at.k <= j < |l.x.targets| && l.x.targets[j] in aborted;
      assert l'.x.targets[j] in aborted';
    }
  }

  lemma QuietDonations(s: State, s': State)
    requires Donations(s) && |s'.workers| == |s.workers| && Aborted(s) <= Aborted(s')
    requires forall w :: 0 <= w < |s.workers| ==>
      && s'.workers[w].targets == s.workers[w].targets && s'.workers[w].privateQueue == s.workers[w].privateQueue
      && (|| PlaceOf(s', w) == PlaceOf(s, w)
          || (PlaceOf(s', w).Starting? && PlaceOf(s, w).Exited?)
          || (PlaceOf(s, w).Parked? && PlaceOf(s', w).TimedOut?))
    ensures Donations(s')
  {
    forall w: nat | w < |s'.workers|
      ensures DonationOk(w, |s'.workers|, Local(s'.workers[w], PlaceOf(s', w)), Aborted(s'))
    {
      MoreAborted(w, |s.workers|, Local(s.workers[w], PlaceOf(s, w)), Local(s'.workers[w], PlaceOf(s', w)),
                  Aborted(s), Aborted(s'));
    }
  }

  lemma UpdateDonations(s: State, t: nat, w: nat, l: Local)
    requires Owned(s) && Donations(s) && t < |s.threads| && s.threads[t].role == WorkerOf(w) && w < |s.workers|
    requires Active(s.threads[t].at) && l.x.handle == s.workers[w].handle && l.x.abort == s.workers[w].abort
    requires Active(l.at) <==> !l.x.idle
    requires DonationOk(w, |s.workers|, Local(l.x, if Active(l.at) then l.at else Exited), Aborted(s))
    ensures Donations(Update(s, t, w, l))
  {
    var s' := Update(s, t, w, l);
    assert ThreadOwn(s, t);
    assert Aborted(s') == Aborted(s);
    forall v: nat | v < |s'.workers|
      ensures DonationOk(v, |s'.workers|, Local(s'.workers[v], PlaceOf(s', v)), Aborted(s'))
    {
      if v != w {
        assert WorkerOwn(s, v);
        assert PlaceOf(s', v) == PlaceOf(s, v);
      }
    }
  }

  lemma DeliverDonations(s: State, t: nat, v: nat, slots: seq<Slot>)
    requires Owned(s) && Donations(s) && t < |s.threads| && v < |s.workers|
    ensures Donations(Deliver(s, t, v, slots))
  {
    var s' := Deliver(s, t, v, slots);
    forall w: nat | w < |s.workers|
      ensures PlaceOf(s', w) == PlaceOf(s, w) || (PlaceOf(s', w).Starting? && PlaceOf(s, w).Exited?)
    {
      assert WorkerOwn(s, w);
    }
    QuietDonations(s, s');
  }

  lemma EnqueueLocalDonations(s: State, t: nat, slots: seq<Slot>, s': State)
    requires Owned(s) && Donations(s) && Step(s, EnqueueLocal(t, slots), s')
    ensures Donations(s')
  {
    var w := s.threads[t].role.w;
    assert ThreadOwn(s, t);
    if !s.workers[w].atomicAbort {
      var l := Local(s'.workers[w], s.threads[t].at);
      UpdateDonations(s, t, w, l);
      QuietDonations(Update(s, t, w, l), s');
    }
  }

  lemma LocalKeeps(w: nat, pool: nat, l: Local, claimed: seq<nat>)
    requires LocalEnabled(w, pool, l, claimed)
    ensures var l' := LocalStep(w, pool, l, claimed);
      && l'.x.handle == l.x.handle && l'.x.abort == l.x.abort
      && (Active(l.at) && !l.x.idle ==> (Active(l'.at) <==> !l'.x.idle) && (Active(l'.at) || l'.at == Exited))
      && (!Active(l.at) ==> l'.x == l.x && !Active(l'.at))
  {
  }

  lemma WorkDonations(s: State, t: nat, claimed: seq<nat>, s': State)
    requires Owned(s) && Donations(s) && Step(s, Work(t, claimed), s')
    ensures Donations(s')
  {
    var w := s.threads[t].role.w;
    var l := LocalOf(s, t);
    var l' := LocalStep(w, |s.workers|, l, claimed);
    LocalKeeps(w, |s.workers|, l, claimed);
    assert ThreadOwn(s, t);
    if Active(l.at) {
      assert PlaceOf(s, w) == l.at;
      LocalDonation(w, |s.workers|, l, claimed, Aborted(s));
      UpdateDonations(s, t, w, l');
      QuietDonations(Update(s, t, w, l'), s');
    } else {
      forall v: nat | v < |s.workers| ensures PlaceOf(s', v) == PlaceOf(s, v) {
        assert WorkerOwn(s, v);
      }
      QuietDonations(s, s');
    }
  }

  lemma DonateDonations(s: State, t: nat, s': State)
    requires Owned(s) && Donations(s) && Step(s, Donate(t), s')
    ensures Donations(s')
  {
    var w := s.threads[t].role.w;
    var x := s.workers[w];
    var k := s.threads[t].at.k;
    assert ThreadOwn(s, t);
    assert PlaceOf(s, w) == s.threads[t].at;
    if s.workers[x.targets[k]].abort {
      assert x.targets[k] in Aborted(s);
      assert WillThrow(x, Aborted(s), 0);
      UpdateDonations(s, t, w, Local(x, Thrown));
    } else {
      DonorOk(w, |s.workers|, LocalOf(s, t), Aborted(s));
      UpdateDonations(s, t, w, Donor(x, k));
      UpdateOwned(s, t, w, Donor(x, k));
      DeliverDonations(Update(s, t, w, Donor(x, k)), t, x.targets[k], ChunkOf(x, k));
    }
  }

  lemma ShutdownDonations(s: State, s': State)
    requires Owned(s) && Stages(s) && Donations(s) && Step(s, ShutdownStep, s')
    ensures Donations(s')
  {
    var w0 := s.shutdown.w;
    assert StageOk(s, w0) && WorkerOwn(s, w0);
    assert Aborted(s) <= Aborted(s');
    forall w: nat | w < |s.workers| ensures PlaceOf(s', w) == PlaceOf(s, w) {
      assert WorkerOwn(s, w);
    }
    if s.shutdown.stage == TakeQueues {
      assert Aborted(s') == Aborted(s);
      forall w: nat | w < |s'.workers|
        ensures DonationOk(w, |s'.workers|, Local(s'.workers[w], PlaceOf(s', w)), Aborted(s'))
      {
        assert DonationOk(w, |s.workers|, Local(s.workers[w], PlaceOf(s, w)), Aborted(s));
      }
    } else {
      QuietDonations(s, s');
    }
  }

  lemma StepDonations(s: State, e: Event, s': State)
    requires Owned(s) && Stages(s) && Donations(s) && Step(s, e, s')
    ensures Donations(s')
  {
    match e
    case Enqueue(t, v, slots) =>
      if !s.workers[v].abort {
        DeliverDonations(s, t, v, slots);
        QuietDonations(Deliver(s, t, v, slots), s');
      }
    case EnqueueLocal(t, slots) => EnqueueLocalDonations(s, t, slots, s');
    case Work(t, claimed) => WorkDonations(s, t, claimed, s');
    case Donate(t) => DonateDonations(s, t, s');
    case ShutdownStep => ShutdownDonations(s, s');
    case _ =>
      forall w: nat | w < |s.workers|
        ensures PlaceOf(s', w) == PlaceOf(s, w) || (PlaceOf(s, w).Parked? && PlaceOf(s', w).TimedOut?)
      {
        assert WorkerOwn(s, w);
      }
      QuietDonations(s, s');
  }
}
