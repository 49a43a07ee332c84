/**
 Task conservation: in every run, what the pool accepted is exactly what was executed, what was destroyed, what the
 queues hold, what a thread is running, and what a shutdown has taken out of the queues.
 */
module PoolConservation {
  import opened WorkSplit
  import opened ThreadPool
  import opened PoolOwnership
  import opened PoolShutdown
  import opened PoolDonation

  // -- how often one task occurs in a queue --

  ghost function Is(x: Slot, id: nat): nat {
    if x == Full(id) then 1 else 0
  }

  ghost function InQueue(q: seq<Slot>, id: nat): nat {
    if q == [] then 0 else InQueue(q[..|q| - 1], id) + Is(q[|q| - 1], id)
  }

  lemma {:induction false} TasksCount(q: seq<Slot>, id: nat)
    ensures Tasks(q)[id] == InQueue(q, id)
  {
    if q != [] {
      TasksCount(q[..|q| - 1], id);
    }
  }

  lemma {:induction false} QueueAppend(a: seq<Slot>, b: seq<Slot>, id: nat)
    ensures InQueue(a + b, id) == InQueue(a, id) + InQueue(b, id)
  {
    if b == [] {
      assert a + b == a;
    } else {
      var last := |b| - 1;
      QueueAppend(a, b[..last], id);
      assert (a + b)[..|a + b| - 1] == a + b[..last];
    }
  }

  ghost predicate AllEmpty(q: seq<Slot>) {
    forall i :: 0 <= i < |q| ==> q[i] == Empty
  }

  lemma {:induction false} EmptyQueue(q: seq<Slot>, id: nat)
    requires AllEmpty(q)
    ensures InQueue(q, id) == 0
  {
    if q != [] {
      EmptyQueue(q[..|q| - 1], id);
    }
  }

  lemma QueueSplit(q: seq<Slot>, i: nat, id: nat)
    requires i <= |q|
    ensures InQueue(q, id) == InQueue(q[..i], id) + InQueue(q[i..], id)
  {
    assert q == q[..i] + q[i..];
    QueueAppend(q[..i], q[i..], id);
  }

  /** What is moved out of a queue is what the queue loses. */
  lemma QueueMovedOut(q: seq<Slot>, from: nat, to: nat, id: nat)
    requires from <= to <= |q|
    ensures InQueue(q, id) == InQueue(MovedOut(q, from, to), id) + InQueue(q[from..to], id)
  {
    QueueSplit(q, to, id);
    QueueSplit(q[..to], from, id);
    assert q[..to][..from] == q[..from] && q[..to][from..] == q[from..to];
    EmptyQueue(Shells(to - from), id);
    QueueAppend(q[..from], Shells(to - from), id);
    QueueAppend(q[..from] + Shells(to - from), q[to..], id);
  }

  // -- ... in a worker, in all workers, in all threads --

  ghost function InWorker(x: Worker, id: nat): nat {
    InQueue(x.privateQueue, id) + InQueue(x.publicQueue, id)
  }

  ghost function InWorkers(ws: seq<Worker>, id: nat): nat {
    if ws == [] then 0 else InWorkers(ws[..|ws| - 1], id) + InWorker(ws[|ws| - 1], id)
  }

  ghost function Held(at: Place, id: nat): nat {
    if at.Running? then Is(at.slot, id) else 0
  }

  ghost function InThreads(ts: seq<Thread>, id: nat): nat {
    if ts == [] then 0 else InThreads(ts[..|ts| - 1], id) + Held(ts[|ts| - 1].at, id)
  }

  lemma {:induction false} WorkersUpdate(ws: seq<Worker>, i: nat, x: Worker, id: nat)
    requires i < |ws|
    ensures InWorkers(ws[i := x], id) == InWorkers(ws, id) - InWorker(ws[i], id) + InWorker(x, id)
  {
    var last := |ws| - 1;
    if i == last {
      assert ws[i := x][..last] == ws[..last];
    } else {
      WorkersUpdate(ws[..last], i, x, id);
      assert ws[i := x][..last] == ws[..last][i := x];
    }
  }

  lemma {:induction false} ThreadsUpdate(ts: seq<Thread>, i: nat, th: Thread, id: nat)
    requires i < |ts|
    ensures InThreads(ts[i := th], id) == InThreads(ts, id) - Held(ts[i].at, id) + Held(th.at, id)
  {
    var last := |ts| - 1;
    if i == last {
      assert ts[i := th][..last] == ts[..last];
    } else {
      ThreadsUpdate(ts[..last], i, th, id);
      assert ts[i := th][..last] == ts[..last][i := th];
    }
  }

  lemma ThreadsAppend(ts: seq<Thread>, th: Thread, id: nat)
    ensures InThreads(ts + [th], id) == InThreads(ts, id) + Held(th.at, id)
  {
    assert (ts + [th])[..|ts|] == ts;
  }

  ghost function Doomed(d: Shutdown, id: nat): nat {
    if d.At? then InQueue(d.doomed, id) else 0
  }

  /** Every occurrence of a task that was accepted is in exactly one place. */
  ghost predicate ConservedFor(s: State, id: nat) {
    s.accepted[id] == s.executed[id] + s.destroyed[id]
                      + InWorkers(s.workers, id) + InThreads(s.threads, id) + Doomed(s.shutdown, id)
  }

  // -- one worker and its thread --

  /** What was donated so far left only shells in front of the private queue. */
  ghost predicate EmptiedOk(l: Local) {
    match l.at
    case Donating(k, n) =>
      && n == |l.x.privateQueue| && k < |l.x.targets| && ChunkStart(l.x, k, n) <= n
      && AllEmpty(l.x.privateQueue[..ChunkStart(l.x, k, n)])
    case Erasing(n) =>
      && n == |l.x.privateQueue| && ChunkStart(l.x, |l.x.targets|, n) <= n
      && AllEmpty(l.x.privateQueue[..ChunkStart(l.x, |l.x.targets|, n)])
    case _ => true
  }

  ghost function InLocal(l: Local, id: nat): nat {
    InWorker(l.x, id) + Held(l.at, id)
  }

  lemma LocalConserves(w: nat, pool: nat, l: Local, claimed: seq<nat>, id: nat)
    requires LocalEnabled(w, pool, l, claimed) && EmptiedOk(l)
    ensures InLocal(LocalStep(w, pool, l, claimed), id) + Held(l.at, id) == InLocal(l, id)
  {
    if l.at.Erasing? {
      var from := ChunkStart(l.x, |l.x.targets|, |l.x.privateQueue|);
      QueueSplit(l.x.privateQueue, from, id);
      EmptyQueue(l.x.privateQueue[..from], id);
    }
  }

  lemma LocalEmptied(w: nat, pool: nat, l: Local, claimed: seq<nat>)
    requires LocalEnabled(w, pool, l, claimed)
    ensures EmptiedOk(LocalStep(w, pool, l, claimed))
  {
    var l' := LocalStep(w, pool, l, claimed);
    if l'.at.Donating? {
      OffsetEnds(|l'.x.privateQueue|, |l'.x.targets| + 1);
      assert l'.x.privateQueue[..0] == [];
    }
  }

  lemma DonorEmptied(x: Worker, k: nat)
    requires k < |x.targets| && EmptiedOk(Local(x, Donating(k, |x.privateQueue|)))
    ensures EmptiedOk(Donor(x, k))
  {
    OffsetBounds(|x.privateQueue|, |x.targets| + 1, k);
    var from, to := ChunkStart(x, k, |x.privateQueue|), ChunkStart(x, k + 1, |x.privateQueue|);
    assert Donor(x, k).x.privateQueue[..to] == MovedOut(x.privateQueue, from, to)[..to];
  }

  lemma DonorConserves(x: Worker, k: nat, id: nat)
    requires k < |x.targets|
    ensures InLocal(Donor(x, k), id) + InQueue(ChunkOf(x, k), id) == InWorker(x, id)
  {
    OffsetBounds(|x.privateQueue|, |x.targets| + 1, k);
    QueueMovedOut(x.privateQueue, ChunkStart(x, k, |x.privateQueue|), ChunkStart(x, k + 1, |x.privateQueue|), id);
  }

  ghost predicate Emptied(s: State) {
    forall w: nat :: w < |s.workers| ==> EmptiedOk(Local(s.workers[w], PlaceOf(s, w)))
  }

  // -- whole steps --

  lemma UpdateConserves(s: State, t: nat, w: nat, l: Local, id: nat)
    requires t < |s.threads| && w < |s.workers|
    ensures var s' := Update(s, t, w, l);
      InWorkers(s'.workers, id) + InThreads(s'.threads, id)
      == InWorkers(s.workers, id) + InThreads(s.threads, id)
         - InLocal(Local(s.workers[w], s.threads[t].at), id) + InLocal(l, id)
  {
    WorkersUpdate(s.workers, w, l.x, id);
    ThreadsUpdate(s.threads, t, s.threads[t].(at := l.at), id);
  }

  lemma DeliverConserves(s: State, t: nat, v: nat, slots: seq<Slot>, id: nat)
    requires t < |s.threads| && v < |s.workers|
    ensures var s' := Deliver(s, t, v, slots);
      && InWorkers(s'.workers, id) == InWorkers(s.workers, id) + InQueue(slots, id)
      && InThreads(s'.threads, id) == InThreads(s.threads, id)
  {
    var x := s.workers[v];
    QueueAppend(x.publicQueue, slots, id);
    WorkersUpdate(s.workers, v, Delivered(x, slots, |s.threads|), id);
    var th := s.threads[t].(debt := DebtAfter(x, v));
    ThreadsUpdate(s.threads, t, th, id);
    ThreadsAppend(s.threads[t := th], Thread(WorkerOf(v), Starting, NoDebt), id);
  }

  lemma WorkConserves(s: State, t: nat, claimed: seq<nat>, s': State, id: nat)
    requires Owned(s) && Emptied(s) && ConservedFor(s, id) && Step(s, Work(t, claimed), s')
    ensures ConservedFor(s', id)
  {
    var w := s.threads[t].role.w;
    var l := LocalOf(s, t);
    assert ThreadOwn(s, t);
    assert EmptiedOk(l) by {
      assert Active(l.at) ==> PlaceOf(s, w) == l.at;
    }
    LocalConserves(w, |s.workers|, l, claimed, id);
    UpdateConserves(s, t, w, LocalStep(w, |s.workers|, l, claimed), id);
  }

  lemma DonateConserves(s: State, t: nat, s': State, id: nat)
    requires ConservedFor(s, id) && Step(s, Donate(t), s')
    ensures ConservedFor(s', id)
  {
    var w := s.threads[t].role.w;
    var x := s.workers[w];
    var k := s.threads[t].at.k;
    if s.workers[x.targets[k]].abort {
      UpdateConserves(s, t, w, Local(x, Thrown), id);
    } else {
      DonorConserves(x, k, id);
      UpdateConserves(s, t, w, Donor(x, k), id);
      DeliverConserves(Update(s, t, w, Donor(x, k)), t, x.targets[k], ChunkOf(x, k), id);
    }
  }

  ghost predicate DoomedOk(s: State) {
    s.shutdown.At? && s.shutdown.stage != Clear ==> s.shutdown.doomed == []
  }

  lemma ShutdownConserves(s: State, s': State, id: nat)
    requires ConservedFor(s, id) && DoomedOk(s) && Step(s, ShutdownStep, s')
    ensures ConservedFor(s', id)
  {
    var w := s.shutdown.w;
    var x := s.workers[w];
    StageCount(x, s.shutdown.stage, id);
    WorkersUpdate(s.workers, w, StageWorker(x, s.shutdown.stage), id);
    if s.shutdown.stage == TakeQueues {
      QueueAppend(x.publicQueue, x.privateQueue, id);
    } else if s.shutdown.stage == Clear {
      TasksCount(s.shutdown.doomed, id);
    }
  }

  lemma StageCount(x: Worker, stage: Stage, id: nat)
    ensures InWorker(StageWorker(x, stage), id) == if stage == TakeQueues then 0 else InWorker(x, id)
  {
  }

  lemma EnqueueLocalConserves(s: State, t: nat, slots: seq<Slot>, s': State, id: nat)
    requires ConservedFor(s, id) && Step(s, EnqueueLocal(t, slots), s')
    ensures ConservedFor(s', id)
  {
    var w := s.threads[t].role.w;
    var x := s.workers[w];
    QueueAppend(x.privateQueue, slots, id);
    TasksCount(slots, id);
    WorkersUpdate(s.workers, w, x.(privateQueue := x.privateQueue + slots), id);
  }

  lemma PayConserves(s: State, t: nat, s': State, id: nat)
    requires ConservedFor(s, id) && Step(s, PayDebt(t), s')
    ensures ConservedFor(s', id)
  {
    ThreadsUpdate(s.threads, t, s.threads[t].(debt := NoDebt), id);
    if s.threads[t].debt.OwesRelease? {
      var w := s.threads[t].debt.w;
      WorkersUpdate(s.workers, w, s'.workers[w], id);
    }
  }

  lemma StepConserved(s: State, e: Event, s': State, id: nat)
    requires Owned(s) && Emptied(s) && DoomedOk(s) && ConservedFor(s, id) && Step(s, e, s')
    ensures ConservedFor(s', id)
  {
    match e
    case AddCaller => ThreadsAppend(s.threads, Thread(External, Outside, NoDebt), id);
    case Enqueue(t, v, slots) =>
      DeliverConserves(s, t, v, slots, id);
      TasksCount(slots, id);
    case EnqueueLocal(t, slots) => EnqueueLocalConserves(s, t, slots, s', id);
    case PayDebt(t) => PayConserves(s, t, s', id);
    case Work(t, claimed) => WorkConserves(s, t, claimed, s', id);
    case Donate(t) => DonateConserves(s, t, s', id);
    case Timeout(t) => ThreadsUpdate(s.threads, t, s.threads[t].(at := TimedOut), id);
    case RequestShutdown =>
    case ShutdownStep => ShutdownConserves(s, s', id);
  }
}
