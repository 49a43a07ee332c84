/**
 thread_pool_worker as an object whose sections update its fields. The workers of a pool share a ghost record of the whole
 system; each section is proved to be an event of ThreadPool's step system, so it keeps everything that holds in every
 run, and the source's assertions hold where they stand.
 */
module PoolWorker {
  import Runs
  import opened WorkSplit
  import T = ThreadPool
  import D = PoolDonation
  import A = PoolAsserts
  import C = PoolConservation
  import P = PoolTheorems
  import opened PoolOwnership
  import opened PoolShutdown

  /** Some run leads here; `full` says that it enqueued no empty task. */
  ghost predicate Reachable(s: T.State, full: bool) {
    exists states, events :: Leads(states, events, s, full)
  }

  ghost predicate Leads(states: seq<T.State>, events: seq<T.Event>, s: T.State, full: bool) {
    && T.IsRun(states, events) && states[|events|] == s
    && (full ==> forall i :: 0 <= i < |events| ==> A.EnqueuesFull(events[i]))
  }

  lemma ReachableInv(s: T.State, full: bool)
    requires Reachable(s, full)
    ensures P.Inv(s) && (full ==> A.Queues(s, true))
  {
    var states, events :| Leads(states, events, s, full);
    P.RunInv(states, events, |events|);
    if full {
      P.FullRuns(states, events, |events|);
    }
  }

  lemma ReachableStep(s: T.State, full: bool, e: T.Event, s': T.State)
    requires Reachable(s, full) && T.Step(s, e, s')
    ensures Reachable(s', full && A.EnqueuesFull(e))
  {
    var states, events :| Leads(states, events, s, full);
    Runs.Extend(T.Init, T.Step, states, events, e, s');
    assert Leads(states + [s'], events + [e], s', full && A.EnqueuesFull(e));
  }

  /** The whole system, which all workers of a pool share. */
  class Pool {
    ghost var state: T.State
    ghost var full: bool

    ghost predicate Valid()
      reads this
    {
      Reachable(state, full)
    }

    constructor (workers: nat)
      ensures Valid() && T.Init(state) && |state.workers| == workers && full
    {
      var idle := T.Worker([], [], 0, true, false, false, false, T.NoThread, []);
      state := T.State(seq(workers, _ => idle), [], T.NotRequested, {}, multiset{}, multiset{}, multiset{});
      full := true;
      new;
      assert Leads([state], [], state, true);
    }

    ghost method Advance(e: T.Event)
      requires Valid() && T.Enabled(state, e)
      modifies this
      ensures Valid() && T.Step(old(state), e, state) && full == (old(full) && A.EnqueuesFull(e))
    {
      var s' := T.Apply(state, e);
      ReachableStep(state, full, e, s');
      state, full := s', full && A.EnqueuesFull(e);
    }
  }

  // ---------- what holds in every run, for a thread in its worker ----------

  ghost predicate RunsAt(s: T.State, t: nat, w: nat, place: T.Place) {
    t < |s.threads| && w < |s.workers| && s.threads[t] == T.Thread(T.WorkerOf(w), place, T.NoDebt)
  }

  ghost predicate Calm(s: T.State) {
    s.shutdown == T.NotRequested
  }

  lemma DonationFacts(s: T.State, full: bool, t: nat, w: nat, place: T.Place)
    requires Reachable(s, full) && RunsAt(s, t, w, place) && Active(place)
    ensures D.DonationOk(w, |s.workers|, T.Local(s.workers[w], place), D.Aborted(s))
    ensures Calm(s) ==> D.Aborted(s) == {}
  {
    ReachableInv(s, full);
    assert ThreadOwn(s, t);
    assert D.PlaceOf(s, w) == place;
    if Calm(s) {
      forall v: nat | v < |s.workers| ensures !s.workers[v].abort {
        assert StageOk(s, v);
      }
    }
  }

  lemma QueueFacts(s: T.State, full: bool, t: nat, w: nat, place: T.Place)
    requires Reachable(s, full) && RunsAt(s, t, w, place) && Active(place)
    ensures A.QueuesOk(T.Local(s.workers[w], place), Calm(s), full)
  {
    ReachableInv(s, full);
    assert ThreadOwn(s, t);
    assert D.PlaceOf(s, w) == place;
  }

  /** Before a shutdown a donation has a task for everybody and nobody refuses. */
  lemma CalmDonation(s: T.State, full: bool, t: nat, w: nat, k: nat, n: nat)
    requires Reachable(s, full) && RunsAt(s, t, w, T.Donating(k, n))
    ensures var x := s.workers[w];
      && k < |x.targets| && n == |x.privateQueue| && x.targets[k] < |s.workers| && x.targets[k] != w
      && (Calm(s) ==> |x.targets| < n && !s.workers[x.targets[k]].abort)
  {
    ReachableInv(s, full);
    DonationFacts(s, full, t, w, T.Donating(k, n));
    assert StageOk(s, s.workers[w].targets[k]);
  }

  /** What a step of the work loop leaves in the record: the worker's and its thread's part, and nobody else's. */
  lemma WorkStep(s: T.State, t: nat, w: nat, place: T.Place, claimed: seq<nat>, s': T.State)
    requires RunsAt(s, t, w, place) && T.Step(s, T.Work(t, claimed), s')
    ensures var l := T.LocalStep(w, |s.workers|, T.Local(s.workers[w], place), claimed);
      && |s'.workers| == |s.workers| && s'.workers[w] == l.x && RunsAt(s', t, w, l.at)
      && forall v :: 0 <= v < |s.workers| && v != w ==> s'.workers[v] == s.workers[v]
  {
  }

  ghost function NextPlace(peers: nat, k: nat, n: nat): T.Place {
    if k + 1 < peers then T.Donating(k + 1, n) else T.Erasing(n)
  }

  /** What a turn of the donation loop leaves in the record. */
  lemma DonateStep(s: T.State, t: nat, w: nat, k: nat, n: nat, s': T.State)
    requires RunsAt(s, t, w, T.Donating(k, n)) && T.Step(s, T.Donate(t), s')
    ensures var x, v := s.workers[w], s.workers[w].targets[k];
      && |s'.workers| == |s.workers| && t < |s'.threads|
      && (s.workers[v].abort ==> s'.workers == s.workers && RunsAt(s', t, w, T.Thrown))
      && (!s.workers[v].abort ==>
            && s'.workers[w] == T.Donor(x, k).x
            && s'.workers[v] == T.Delivered(s.workers[v], T.ChunkOf(x, k), |s.threads|)
            && s'.threads[t] == T.Thread(T.WorkerOf(w), NextPlace(|x.targets|, k, n), T.DebtAfter(s.workers[v], v)))
  {
  }

  // ---------- the cursors of balance_work ----------

  /** begin, end and extra before the donation loop comes to receiver k of the queue's n tasks. */
  ghost predicate Cursors(n: nat, receivers: nat, k: nat, begin: nat, end: nat, extra: nat) {
    && k < receivers
    && begin == Offset(n, receivers, k) && end == begin + n / receivers
    && extra == if k < n % receivers then n % receivers - k else 0
  }

  lemma FirstCursors(n: nat, receivers: nat)
    requires 0 < receivers
    ensures 0 <= n - n / receivers * receivers
    ensures Cursors(n, receivers, 0, 0, n / receivers, n - n / receivers * receivers)
  {
    OffsetEnds(n, receivers);
    assert n == receivers * (n / receivers) + n % receivers;
  }

  lemma NextCursors(n: nat, receivers: nat, k: nat, begin: nat, end: nat, extra: nat)
    requires Cursors(n, receivers, k, begin, end, extra)
    ensures var e := if extra != 0 then end + 1 else end;
      && begin <= e <= n && e == Offset(n, receivers, k + 1) && (receivers <= n ==> begin < e)
      && (k + 1 < receivers ==> Cursors(n, receivers, k + 1, e, e + n / receivers, if extra != 0 then extra - 1 else 0))
  {
    OffsetStep(n, receivers, k);
    OffsetBounds(n, receivers, k);
    QuotientBounds(n, receivers);
  }

  class PoolWorker {
    const pool: Pool
    const index: nat
    const poolSize: nat
    var privateQueue: seq<T.Slot>
    var publicQueue: seq<T.Slot>
    var semaphore: nat
    var idle: bool
    var abort: bool
    var atomicAbort: bool
    var taskFoundOrAbort: bool
    var thread: T.Handle
    var idleWorkerList: seq<nat>

    ghost function View(): T.Worker
      reads this
    {
      T.Worker(privateQueue, publicQueue, semaphore, idle, abort, atomicAbort, taskFoundOrAbort, thread, idleWorkerList)
    }

    ghost predicate Valid()
      reads this, pool
    {
      pool.Valid() && Recorded()
    }

    /** The fields are what the record says about this worker. */
    ghost predicate Recorded()
      reads this, pool
    {
      poolSize == |pool.state.workers| && index < poolSize && pool.state.workers[index] == View()
    }

    /** Thread t is this worker's and has come to this place. */
    ghost predicate At(t: nat, place: T.Place)
      reads this, pool
    {
      RunsAt(pool.state, t, index, place)
    }

    constructor (pool: Pool, index: nat, poolSize: nat)
      requires pool.Valid() && T.Init(pool.state) && index < poolSize == |pool.state.workers|
      ensures Valid() && this.pool == pool && this.index == index
    {
      this.pool, this.index, this.poolSize := pool, index, poolSize;
      privateQueue, publicQueue, semaphore, idle := [], [], 0, true;
      abort, atomicAbort, taskFoundOrAbort, thread, idleWorkerList := false, false, false, T.NoThread, [];
    }

    /** The step of thread t from this place, with these peers claimed, in the record. */
    ghost method Work(t: nat, place: T.Place, claimed: seq<nat>)
      requires Valid() && At(t, place) && T.LocalEnabled(index, poolSize, T.Local(View(), place), claimed)
      modifies pool
      ensures pool.Valid() && T.Step(old(pool.state), T.Work(t, claimed), pool.state)
      ensures var l := T.LocalStep(index, poolSize, T.Local(View(), place), claimed);
        |pool.state.workers| == poolSize && pool.state.workers[index] == l.x && At(t, l.at)
    {
      ghost var before := pool.state;
      pool.Advance(T.Work(t, claimed));
      WorkStep(before, t, index, place, claimed, pool.state);
    }

    // ---------- the work loop ----------

    /** The rest of drain_queue's first section, once there is something to see; `calm` if no shutdown was requested. */
    method TakePublic(ghost calm: bool) returns (next: T.Place)
      requires publicQueue != [] || abort
      requires calm ==> privateQueue == []
      modifies this
      ensures T.Local(View(), next) == T.TakePublic(old(View()))
      ensures calm && next == T.Draining ==> publicQueue == [] && privateQueue != []
    {
      taskFoundOrAbort := false;
      if abort {
        idle := true;
        return T.Exited;
      }
      assert calm ==> privateQueue == [];
      privateQueue, publicQueue := publicQueue, privateQueue;
      next := T.Draining;
    }

    /** drain_queue takes the lock; wait_for_task returns at once or gives it up to wait. */
    method BeginDrain(t: nat) returns (next: T.Place)
      requires Valid() && At(t, T.Starting)
      modifies this, pool
      ensures Valid() && At(t, next) && T.Step(old(pool.state), T.Work(t, []), pool.state)
      ensures if abort then next == T.Exited && idle
              else if old(publicQueue) == [] then next == T.Parked && View() == old(View())
              else next == T.Draining && privateQueue == old(publicQueue) && publicQueue == old(privateQueue)
    {
      ghost var calm := Calm(pool.state);
      QueueFacts(pool.state, pool.full, t, index, T.Starting);
      Work(t, T.Starting, []);
      if publicQueue != [] || abort {
        next := TakePublic(calm);
      } else {
        next := T.Parked;
      }
    }

    /** try_acquire_until succeeds. */
    method Acquire(t: nat) returns (next: T.Place)
      requires Valid() && At(t, T.Parked) && 0 < semaphore
      modifies this, pool
      ensures Valid() && At(t, next) && T.Step(old(pool.state), T.Work(t, []), pool.state)
    {
      Work(t, T.Parked, []);
      semaphore := semaphore - 1;
      next := T.Woken;
    }

    method LoadFound(t: nat) returns (next: T.Place)
      requires Valid() && At(t, T.Woken)
      modifies pool
      ensures Valid() && At(t, next) && T.Step(old(pool.state), T.Work(t, []), pool.state)
    {
      Work(t, T.Woken, []);
      next := if taskFoundOrAbort then T.Rechecking else T.Parked;
    }

    /** wait_for_task takes the lock again and looks; if it is satisfied, drain_queue goes on in the same section. */
    method LookAgain(t: nat) returns (next: T.Place)
      requires Valid() && At(t, T.Rechecking)
      modifies this, pool
      ensures Valid() && At(t, next) && T.Step(old(pool.state), T.Work(t, []), pool.state)
      ensures if abort then next == T.Exited && idle
              else if old(publicQueue) == [] then next == T.Parked && View() == old(View())
              else next == T.Draining && privateQueue == old(publicQueue) && publicQueue == old(privateQueue)
    {
      ghost var calm := Calm(pool.state);
      QueueFacts(pool.state, pool.full, t, index, T.Rechecking);
      Work(t, T.Rechecking, []);
      if publicQueue == [] && !abort {
        return T.Parked;
      }
      if abort {
        idle := true;
        return T.Exited;
      }
      assert publicQueue != [];
      next := TakePublic(calm);
    }

    /** The section that the timeout, the abort and an exception end in. */
    method GoIdle(t: nat, place: T.Place) returns (next: T.Place)
      requires Valid() && At(t, place) && (place == T.TimedOut || place == T.AbortExit || place == T.Thrown)
      modifies this, pool
      ensures Valid() && At(t, next) && T.Step(old(pool.state), T.Work(t, []), pool.state)
    {
      Work(t, place, []);
      idle := true;
      next := T.Exited;
    }

    /** The loop condition of drain_queue_impl and the head of balance_work, on the fields. */
    method ClaimPeers(claimed: seq<nat>) returns (next: T.Place)
      modifies this
      ensures T.Local(View(), next) == T.Balance(poolSize, old(View()), claimed)
    {
      if privateQueue == [] {
        return T.Starting;
      }
      var taskCount := |privateQueue|;
      if taskCount < 2 || poolSize == 1 {
        return T.CheckAbort;
      }
      if |idleWorkerList + claimed| == 0 {
        return T.CheckAbort;
      }
      idleWorkerList := idleWorkerList + claimed;
      next := T.Donating(0, taskCount);
    }

    /** The same with the peers that find_idle_workers claimed; returns the cursors of the donation loop. */
    method BeginBalance(t: nat, claimed: seq<nat>) returns (next: T.Place, begin: nat, end: nat, extra: nat)
      requires Valid() && At(t, T.Draining)
      requires 2 <= |privateQueue| ==> T.Claimable(index, poolSize, View(), claimed)
      modifies this, pool
      ensures Valid() && At(t, next) && T.Step(old(pool.state), T.Work(t, claimed), pool.state)
      ensures privateQueue == old(privateQueue)
      ensures next.Donating? <==> 2 <= |privateQueue| && poolSize != 1 && old(idleWorkerList) + claimed != []
      ensures next.Donating? ==> next == T.Donating(0, |privateQueue|)
      ensures next.Donating? ==> idleWorkerList == old(idleWorkerList) + claimed
      ensures next.Donating? ==> Cursors(|privateQueue|, |idleWorkerList| + 1, 0, begin, end, extra)
      ensures next.Donating? && Calm(pool.state) ==> |idleWorkerList| < |privateQueue|
    {
      Work(t, T.Draining, claimed);
      next := ClaimPeers(claimed);
      begin, end, extra := 0, 0, 0;
      if next.Donating? {
        CalmDonation(pool.state, pool.full, t, index, 0, |privateQueue|);
        begin, end, extra := StartCursors();
      }
    }

    method StartCursors() returns (begin: nat, end: nat, extra: nat)
      ensures Cursors(|privateQueue|, |idleWorkerList| + 1, 0, begin, end, extra)
    {
      var workers := |idleWorkerList| + 1;
      FirstCursors(|privateQueue|, workers);
      var donationCount := |privateQueue| / workers;
      begin, end, extra := 0, donationCount, |privateQueue| - donationCount * workers;
    }

    /** What enqueue_foreign does to this worker once it is not refused; `newThread` is the thread it starts, if any. */
    method Receive(tasks: seq<T.Slot>, newThread: nat) returns (debt: T.Debt)
      modifies this
      ensures View() == T.Delivered(old(View()), tasks, newThread) && debt == T.DebtAfter(old(View()), index)
    {
      taskFoundOrAbort := true;
      var isEmpty := publicQueue == [];
      publicQueue := publicQueue + tasks;
      if !idle {
        return if isEmpty then T.OwesRelease(index) else T.NoDebt;
      }
      var staleWorker := thread;
      thread := T.Joinable(newThread);
      idle := false;
      return match staleWorker case NoThread => T.NoDebt case Joinable(u) => T.OwesJoin(u);
    }

    /** Moves chunk k out of the private queue and advances the cursors. */
    method MoveChunk(k: nat, begin: nat, end: nat, extra: nat)
      returns (chunk: seq<T.Slot>, begin': nat, end': nat, extra': nat)
      requires k < |idleWorkerList| && Cursors(|privateQueue|, |idleWorkerList| + 1, k, begin, end, extra)
      modifies this`privateQueue
      ensures View() == T.Donor(old(View()), k).x && chunk == T.ChunkOf(old(View()), k)
      ensures |privateQueue| == |old(privateQueue)|
      ensures Cursors(|privateQueue|, |idleWorkerList| + 1, k + 1, begin', end', extra')
      ensures begin <= begin' <= |old(privateQueue)| && chunk == old(privateQueue)[begin..begin']
      ensures |idleWorkerList| < |privateQueue| ==> begin < |privateQueue| && chunk != []
    {
      var taskCount, workers := |privateQueue|, |idleWorkerList| + 1;
      NextCursors(taskCount, workers, k, begin, end, extra);
      end', extra' := end, extra;
      if extra != 0 {
        end', extra' := end + 1, extra - 1;
      }
      assert end' <= taskCount;
      chunk := privateQueue[begin..end'];
      privateQueue := privateQueue[..begin] + T.Shells(end' - begin) + privateQueue[end'..];
      assert |privateQueue| == taskCount;
      begin', end' := end', end' + taskCount / workers;
    }

    /** Chunk k goes from this worker's private queue to the peer's public queue. */
    method HandOver(k: nat, begin: nat, end: nat, extra: nat, peer: PoolWorker, newThread: nat)
      returns (debt: T.Debt, begin': nat, end': nat, extra': nat)
      requires peer != this
      requires k < |idleWorkerList| && Cursors(|privateQueue|, |idleWorkerList| + 1, k, begin, end, extra)
      modifies this`privateQueue, peer
      ensures View() == T.Donor(old(View()), k).x && |privateQueue| == |old(privateQueue)|
      ensures peer.View() == T.Delivered(old(peer.View()), T.ChunkOf(old(View()), k), newThread)
      ensures debt == T.DebtAfter(old(peer.View()), peer.index)
      ensures Cursors(|privateQueue|, |idleWorkerList| + 1, k + 1, begin', end', extra')
      ensures begin <= begin' <= |old(privateQueue)|
      ensures peer.publicQueue == old(peer.publicQueue) + old(privateQueue)[begin..begin']
      ensures |idleWorkerList| < |privateQueue| ==> begin < |privateQueue|
    {
      var chunk;
      chunk, begin', end', extra' := MoveChunk(k, begin, end, extra);
      debt := peer.Receive(chunk, newThread);
    }

    /** A turn of balance_work's loop whose peer was shut down: enqueue_foreign throws, and nothing has moved. */
    method ChunkRefused(t: nat, k: nat, peer: PoolWorker) returns (next: T.Place)
      requires Valid() && At(t, T.Donating(k, |privateQueue|)) && k < |idleWorkerList|
      requires peer.pool == pool && peer.Recorded() && peer.index == idleWorkerList[k] && peer.abort
      modifies pool
      ensures Valid() && peer.Recorded() && At(t, next) && T.Step(old(pool.state), T.Donate(t), pool.state)
      ensures !Calm(old(pool.state))
    {
      ghost var before := pool.state;
      CalmDonation(before, pool.full, t, index, k, |privateQueue|);
      pool.Advance(T.Donate(t));
      DonateStep(before, t, index, k, |privateQueue|, pool.state);
      next := T.Thrown;
    }

    /** The peer takes the chunk: the turn in the record. */
    ghost method Taken(t: nat, k: nat, peer: PoolWorker)
      requires Valid() && At(t, T.Donating(k, |privateQueue|)) && k < |idleWorkerList|
      requires peer.pool == pool && peer.Recorded() && peer.index == idleWorkerList[k] && !peer.abort
      modifies pool
      ensures pool.Valid() && T.Step(old(pool.state), T.Donate(t), pool.state)
      ensures peer != this && |pool.state.workers| == poolSize && t < |pool.state.threads|
      ensures Calm(old(pool.state)) ==> |idleWorkerList| < |privateQueue|
      ensures pool.state.workers[index] == T.Donor(View(), k).x
      ensures pool.state.workers[peer.index] == T.Delivered(peer.View(), T.ChunkOf(View(), k), |old(pool.state.threads)|)
      ensures pool.state.threads[t] ==
        T.Thread(T.WorkerOf(index), NextPlace(|idleWorkerList|, k, |privateQueue|), T.DebtAfter(peer.View(), peer.index))
    {
      ghost var before := pool.state;
      CalmDonation(before, pool.full, t, index, k, |privateQueue|);
      pool.Advance(T.Donate(t));
      DonateStep(before, t, index, k, |privateQueue|, pool.state);
    }

    /**
     A turn of balance_work's loop: the next chunk goes to the peer it is meant for. Returns what the thread owes the peer,
     and the cursors of the next turn.
     */
    method GiveChunk(t: nat, k: nat, begin: nat, end: nat, extra: nat, peer: PoolWorker, newThread: nat)
      returns (debt: T.Debt, begin': nat, end': nat, extra': nat)
      requires Valid() && At(t, T.Donating(k, |privateQueue|))
      requires k < |idleWorkerList| && Cursors(|privateQueue|, |idleWorkerList| + 1, k, begin, end, extra)
      requires peer.pool == pool && peer.Recorded() && peer.index == idleWorkerList[k] && !peer.abort
      requires newThread == |pool.state.threads|
      modifies this, peer, pool
      ensures Valid() && peer.Recorded() && T.Step(old(pool.state), T.Donate(t), pool.state)
      ensures t < |pool.state.threads| && pool.state.threads[t].debt == debt
      ensures pool.state.threads[t].at == NextPlace(|idleWorkerList|, k, |privateQueue|)
      ensures Cursors(|privateQueue|, |idleWorkerList| + 1, k + 1, begin', end', extra')
      ensures begin <= begin' <= |old(privateQueue)|
      ensures peer.publicQueue == old(peer.publicQueue) + old(privateQueue)[begin..begin']
      ensures Calm(old(pool.state)) ==> begin < |privateQueue|
    {
      Taken(t, k, peer);
      debt, begin', end', extra' := HandOver(k, begin, end, extra, peer, newThread);
    }

    /** The tail of balance_work: what was given away is erased, and something is left. */
    method EraseDonated(t: nat, begin: nat) returns (next: T.Place)
      requires Valid() && At(t, T.Erasing(|privateQueue|))
      requires begin == Offset(|privateQueue|, |idleWorkerList| + 1, |idleWorkerList|)
      modifies this, pool
      ensures Valid() && At(t, next) && T.Step(old(pool.state), T.Work(t, []), pool.state)
      ensures |privateQueue| == |old(privateQueue)| / (|old(idleWorkerList)| + 1) && privateQueue != []
      ensures begin + |privateQueue| == |old(privateQueue)| && privateQueue == old(privateQueue)[begin..]
    {
      ghost var n := |privateQueue|;
      DonationFacts(pool.state, pool.full, t, index, T.Erasing(n));
      QueueFacts(pool.state, pool.full, t, index, T.Erasing(n));
      D.EraseKeepsTask(View());
      assert C.AllEmpty(privateQueue[..begin]);
      assert Calm(pool.state) && pool.full ==> A.AllFull(privateQueue[begin..]);
      Work(t, T.Erasing(n), []);
      privateQueue := privateQueue[begin..];
      assert privateQueue != [];
      idleWorkerList := [];
      next := T.CheckAbort;
    }

    method CheckAbortAndPop(t: nat) returns (next: T.Place)
      requires Valid() && At(t, T.CheckAbort)
      modifies this, pool
      ensures Valid() && At(t, next) && T.Step(old(pool.state), T.Work(t, []), pool.state)
      ensures if atomicAbort then next == T.AbortExit && privateQueue == old(privateQueue)
              else next.Running? && privateQueue + [next.slot] == old(privateQueue)
    {
      DonationFacts(pool.state, pool.full, t, index, T.CheckAbort);
      assert privateQueue != [];
      Work(t, T.CheckAbort, []);
      if atomicAbort {
        return T.AbortExit;
      }
      var task := privateQueue[|privateQueue| - 1];
      privateQueue := privateQueue[..|privateQueue| - 1];
      next := T.Running(task);
    }

    // ---------- enqueue ----------

    /** enqueue_foreign by thread t, which has nothing to pay at the moment. */
    method EnqueueForeign(t: nat, tasks: seq<T.Slot>, newThread: nat) returns (accepted: bool, debt: T.Debt)
      requires Valid() && T.EnqueueEnabled(pool.state, t, index) && newThread == |pool.state.threads|
      modifies this, pool
      ensures Valid() && T.Step(old(pool.state), T.Enqueue(t, index, tasks), pool.state)
      ensures accepted == !old(abort)
      ensures publicQueue == old(publicQueue) + (if accepted then tasks else []) && privateQueue == old(privateQueue)
      ensures pool.state.accepted == old(pool.state.accepted) + (if accepted then T.Tasks(tasks) else multiset{})
      ensures if accepted then !idle && taskFoundOrAbort else pool.state == old(pool.state)
      ensures t < |pool.state.threads| && pool.state.threads[t].debt == debt
      ensures pool.full <==> old(pool.full) && A.AllFull(tasks)
    {
      pool.Advance(T.Enqueue(t, index, tasks));
      if abort {
        return false, T.NoDebt;
      }
      debt := Receive(tasks, newThread);
      accepted := true;
    }

    /** enqueue_local by a task that the worker's own thread runs. */
    method EnqueueLocal(t: nat, slot: T.Slot, tasks: seq<T.Slot>) returns (accepted: bool)
      requires Valid() && At(t, T.Running(slot))
      modifies this, pool
      ensures Valid() && At(t, T.Running(slot)) && T.Step(old(pool.state), T.EnqueueLocal(t, tasks), pool.state)
      ensures accepted == !old(atomicAbort)
      ensures privateQueue == old(privateQueue) + (if accepted then tasks else []) && publicQueue == old(publicQueue)
      ensures pool.state.accepted == old(pool.state.accepted) + (if accepted then T.Tasks(tasks) else multiset{})
    {
      pool.Advance(T.EnqueueLocal(t, tasks));
      accepted := !atomicAbort;
      if accepted {
        privateQueue := privateQueue + tasks;
      }
    }

    // ---------- shutdown ----------

    /** One stage of shutdown; the queues it takes away are cleared after the last section. */
    method ShutdownStage(stage: T.Stage, ghost doomed: seq<T.Slot>) returns (taken: seq<T.Slot>)
      requires Valid() && pool.state.shutdown == T.At(index, stage, doomed) && T.ShutdownEnabled(pool.state)
      modifies this, pool
      ensures Valid() && T.Step(old(pool.state), T.ShutdownStep, pool.state)
      ensures stage == T.TakeQueues ==> pool.state.shutdown == T.At(index, T.Clear, taken)
      ensures taken == if stage == T.TakeQueues then old(publicQueue) + old(privateQueue) else []
      ensures stage == T.TakeQueues || stage == T.Clear ==>
        idle && thread == T.NoThread && privateQueue == [] && publicQueue == []
      ensures stage == T.Clear ==> Passed(pool.state, index)
    {
      ReachableInv(pool.state, pool.full);
      assert StageOk(pool.state, index);
      pool.Advance(T.ShutdownStep);
      taken := [];
      match stage
      case StoreAtomic =>
        assert !atomicAbort;
        atomicAbort := true;
      case SetAbort => abort := true;
      case StoreFound => taskFoundOrAbort := true;
      case ReleaseSemaphore => semaphore := semaphore + 1;
      case Join => thread := T.NoThread;
      case TakeQueues =>
        taken := publicQueue + privateQueue;
        publicQueue, privateQueue := [], [];
      case Clear =>
    }
  }
}
