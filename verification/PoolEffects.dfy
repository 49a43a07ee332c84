/**
 What the operations of the thread pool do, field by field, in every run: which tasks are accepted, where they go, which
 one runs next, when tasks count as executed or destroyed, and that nothing else moves.
 */
module PoolEffects {
  import opened WorkSplit
  import opened ThreadPool
  import opened PoolConservation
  import P = PoolTheorems

  // ---------- the account of a run ----------

  /** The tasks that an event puts into the pool: all of an enqueue call that is not refused. */
  ghost function EnqueuedBy(s: State, e: Event): multiset<nat> {
    match e
    case Enqueue(_, v, slots) => if v < |s.workers| && !s.workers[v].abort then Tasks(slots) else multiset{}
    case EnqueueLocal(t, slots) =>
      if OwnWorker(s, t) && !s.workers[s.threads[t].role.w].atomicAbort then Tasks(slots) else multiset{}
    case _ => multiset{}
  }

  /** The task that an event ends. */
  ghost function FinishedBy(s: State, e: Event): multiset<nat> {
    if e.Work? && e.t < |s.threads| && s.threads[e.t].at.Running? then SlotTasks(s.threads[e.t].at.slot) else multiset{}
  }

  /** The tasks that an event destroys: those a worker's shutdown took out of its queues, when it clears them. */
  ghost function DestroyedBy(s: State, e: Event): multiset<nat> {
    if e == ShutdownStep && s.shutdown.At? && s.shutdown.stage == Clear then Tasks(s.shutdown.doomed) else multiset{}
  }

  ghost function Total(of: (State, Event) -> multiset<nat>, states: seq<State>, events: seq<Event>, n: nat): multiset<nat>
    requires n <= |events| < |states|
  {
    if n == 0 then multiset{} else Total(of, states, events, n - 1) + of(states[n - 1], events[n - 1])
  }

  lemma RecordsStep(s: State, e: Event, s': State)
    requires Step(s, e, s')
    ensures s'.accepted == s.accepted + EnqueuedBy(s, e)
    ensures s'.executed == s.executed + FinishedBy(s, e)
    ensures s'.destroyed == s.destroyed + DestroyedBy(s, e)
  {
  }

  lemma {:induction false} AddsUp(
      record: State -> multiset<nat>, of: (State, Event) -> multiset<nat>, states: seq<State>, events: seq<Event>, n: nat)
    requires n <= |events| < |states| && record(states[0]) == multiset{}
    requires forall i :: 0 <= i < n ==> record(states[i + 1]) == record(states[i]) + of(states[i], events[i])
    ensures record(states[n]) == Total(of, states, events, n)
  {
    if n > 0 {
      AddsUp(record, of, states, events, n - 1);
    }
  }

  /** The three records are what the events of the run add up to. */
  lemma RecordsAreTotals(states: seq<State>, events: seq<Event>, n: nat)
    requires IsRun(states, events) && n <= |events|
    ensures states[n].accepted == Total(EnqueuedBy, states, events, n)
    ensures states[n].executed == Total(FinishedBy, states, events, n)
    ensures states[n].destroyed == Total(DestroyedBy, states, events, n)
  {
    var accepted, executed, destroyed := (s: State) => s.accepted, (s: State) => s.executed, (s: State) => s.destroyed;
    forall i | 0 <= i < n
      ensures accepted(states[i + 1]) == accepted(states[i]) + EnqueuedBy(states[i], events[i])
      ensures executed(states[i + 1]) == executed(states[i]) + FinishedBy(states[i], events[i])
      ensures destroyed(states[i + 1]) == destroyed(states[i]) + DestroyedBy(states[i], events[i])
    {
      RecordsStep(states[i], events[i], states[i + 1]);
    }
    AddsUp(accepted, EnqueuedBy, states, events, n);
    AddsUp(executed, FinishedBy, states, events, n);
    AddsUp(destroyed, DestroyedBy, states, events, n);
  }

  /**
   The account without any record: at every moment of every run, each task was put in by enqueue calls that were not refused
   as often as it has finished, was destroyed by a shutdown, or is still queued, running or taken out by a shutdown.
   */
  lemma EveryTaskIsAccountedFor(states: seq<State>, events: seq<Event>, n: nat, id: nat)
    requires IsRun(states, events) && n <= |events|
    ensures Total(EnqueuedBy, states, events, n)[id] ==
      Total(FinishedBy, states, events, n)[id] + Total(DestroyedBy, states, events, n)[id]
      + InWorkers(states[n].workers, id) + InThreads(states[n].threads, id) + Doomed(states[n].shutdown, id)
  {
    RecordsAreTotals(states, events, n);
    P.TasksAreConserved(states, events, n, id);
  }

  // ---------- enqueue ----------

  /**
   enqueue_foreign: an aborted worker refuses and nothing changes; otherwise all tasks are appended in order, nobody else's
   queues change, and an idle worker gets a new thread while a busy one with an empty queue is owed a permit.
   */
  lemma EnqueueDelivers(states: seq<State>, events: seq<Event>, n: nat)
    requires IsRun(states, events) && n < |events| && events[n].Enqueue?
    ensures var s, s', t, v, slots := states[n], states[n + 1], events[n].t, events[n].v, events[n].slots;
      && v < |s.workers| == |s'.workers| && t < |s.threads| <= |s'.threads|
      && (s.workers[v].abort ==> s' == s)
      && (!s.workers[v].abort ==> Received(s, s', t, v, slots))
  {
    assert Step(states[n], events[n], states[n + 1]);
  }

  /** Worker v has taken these tasks from thread t. */
  ghost predicate Received(s: State, s': State, t: nat, v: nat, slots: seq<Slot>)
    requires v < |s.workers| == |s'.workers| && t < |s.threads| <= |s'.threads|
  {
    var x, x' := s.workers[v], s'.workers[v];
    && x'.publicQueue == x.publicQueue + slots && x'.privateQueue == x.privateQueue && x'.found && !x'.idle
    && x'.semaphore == x.semaphore && x'.abort == x.abort && x'.atomicAbort == x.atomicAbort && x'.targets == x.targets
    && (if x.idle then
          && s'.threads[|s'.threads| - 1] == Thread(WorkerOf(v), Starting, NoDebt) && |s'.threads| == |s.threads| + 1
          && x'.handle == Joinable(|s.threads|)
          && s'.threads[t].debt == (match x.handle case Joinable(u) => OwesJoin(u) case NoThread => NoDebt)
        else
          && |s'.threads| == |s.threads| && x'.handle == x.handle
          && s'.threads[t].debt == (if x.publicQueue == [] then OwesRelease(v) else NoDebt))
    && (forall w :: 0 <= w < |s.workers| && w != v ==> s'.workers[w] == s.workers[w])
    && (forall u :: 0 <= u < |s.threads| && u != t ==> s'.threads[u] == s.threads[u])
    && s'.shutdown == s.shutdown && s'.joined == s.joined
  }

  /** enqueue_local appends all tasks to the private queue of the thread's own worker, unless that is aborted. */
  lemma EnqueueLocalAppends(states: seq<State>, events: seq<Event>, n: nat)
    requires IsRun(states, events) && n < |events| && events[n].EnqueueLocal?
    ensures var s, s', t := states[n], states[n + 1], events[n].t;
      && t < |s.threads| && s.threads[t].role.WorkerOf? && s.threads[t].role.w < |s.workers|
      && var w := s.threads[t].role.w;
         var x := s.workers[w];
      && (x.atomicAbort ==> s' == s)
      && (!x.atomicAbort ==>
            && s'.workers == s.workers[w := x.(privateQueue := x.privateQueue + events[n].slots)]
            && s'.threads == s.threads && s'.shutdown == s.shutdown && s'.joined == s.joined)
  {
    assert Step(states[n], events[n], states[n + 1]);
  }

  /** What is owed is paid in full: one permit for the worker it is owed to, or one join. */
  lemma DebtsArePaid(states: seq<State>, events: seq<Event>, n: nat)
    requires IsRun(states, events) && n < |events| && events[n].PayDebt?
    ensures var s, s', t := states[n], states[n + 1], events[n].t;
      && t < |s.threads| && s.threads[t].debt != NoDebt && s'.threads == s.threads[t := s.threads[t].(debt := NoDebt)]
      && s'.shutdown == s.shutdown
      && (match s.threads[t].debt
          case OwesRelease(w) =>
            && w < |s.workers| && s'.joined == s.joined
            && s'.workers == s.workers[w := s.workers[w].(semaphore := s.workers[w].semaphore + 1)]
          case OwesJoin(u) => s'.workers == s.workers && s'.joined == s.joined + {u}
          case NoDebt => true)
  {
    assert Step(states[n], events[n], states[n + 1]);
  }

  // ---------- the work loop ----------

  /** A step of a work loop touches its own worker and its own thread's place only. */
  lemma WorkIsLocal(states: seq<State>, events: seq<Event>, n: nat)
    requires IsRun(states, events) && n < |events| && events[n].Work?
    ensures var s, s', t := states[n], states[n + 1], events[n].t;
      && OwnWorker(s, t) && |s'.workers| == |s.workers| && |s'.threads| == |s.threads|
      && (forall v :: 0 <= v < |s.workers| && v != s.threads[t].role.w ==> s'.workers[v] == s.workers[v])
      && (forall u :: 0 <= u < |s.threads| && u != t ==> s'.threads[u] == s.threads[u])
      && s'.threads[t] == s.threads[t].(at := s'.threads[t].at)
      && s'.shutdown == s.shutdown && s'.joined == s.joined
  {
    assert Step(states[n], events[n], states[n + 1]);
  }

  ghost predicate OwnWorker(s: State, t: nat) {
    t < |s.threads| && s.threads[t].role.WorkerOf? && s.threads[t].role.w < |s.workers|
  }

  /** What a step of the work loop does to its worker and where it leads, place by place. */
  ghost predicate LoopDoes(pool: nat, x: Worker, at: Place, claimed: seq<nat>, x': Worker, at': Place) {
    match at
    case Starting =>
      if x.publicQueue == [] && !x.abort then x' == x && at' == Parked
      else if x.abort then x' == x.(found := false, idle := true) && at' == Exited
      else x' == x.(found := false, privateQueue := x.publicQueue, publicQueue := x.privateQueue) && at' == Draining
    case Parked => 0 < x.semaphore && x' == x.(semaphore := x.semaphore - 1) && at' == Woken
    case Woken => x' == x && at' == (if x.found then Rechecking else Parked)
    case Rechecking =>
      if x.publicQueue == [] && !x.abort then x' == x && at' == Parked
      else if x.abort then x' == x.(idle := true) && at' == Exited
      else x' == x.(found := false, privateQueue := x.publicQueue, publicQueue := x.privateQueue) && at' == Draining
    case TimedOut => x' == x.(idle := true) && at' == Exited
    case Draining =>
      if x.privateQueue == [] then x' == x && at' == Starting
      else if 2 <= |x.privateQueue| && pool != 1 && x.targets + claimed != []
      then x' == x.(targets := x.targets + claimed) && at' == Donating(0, |x.privateQueue|)
      else x' == x && at' == CheckAbort
    case Erasing(n) =>
      && Offset(n, |x.targets| + 1, |x.targets|) <= n == |x.privateQueue|
      && x' == x.(privateQueue := x.privateQueue[Offset(n, |x.targets| + 1, |x.targets|)..], targets := [])
      && at' == CheckAbort
    case CheckAbort =>
      if x.atomicAbort then x' == x && at' == AbortExit
      else x.privateQueue != [] && x'.privateQueue + [x.privateQueue[|x.privateQueue| - 1]] == x.privateQueue
           && x' == x.(privateQueue := x'.privateQueue) && at' == Running(x.privateQueue[|x.privateQueue| - 1])
    case Running(_) => x' == x && at' == Draining
    case AbortExit => x' == x.(idle := true) && at' == Exited
    case Thrown => x' == x.(idle := true) && at' == Exited
    case Exited => x' == x && at' == Terminated
    case _ => false
  }

  /**
   The work loop: it waits without work, swaps its queues, donates whenever it has two tasks and somebody to donate to,
   runs its newest task, and exits on abort.
   */
  lemma LoopSteps(states: seq<State>, events: seq<Event>, n: nat)
    requires IsRun(states, events) && n < |events| && events[n].Work?
    ensures var s, s', t := states[n], states[n + 1], events[n].t;
      && OwnWorker(s, t) && |s'.workers| == |s.workers| && |s'.threads| == |s.threads|
      && var w := s.threads[t].role.w;
         LoopDoes(|s.workers|, s.workers[w], s.threads[t].at, events[n].claimed, s'.workers[w], s'.threads[t].at)
  {
    var s, s', t := states[n], states[n + 1], events[n].t;
    assert Step(s, events[n], s');
    var w := s.threads[t].role.w;
    LocalDoes(w, |s.workers|, LocalOf(s, t), events[n].claimed);
  }

  lemma LocalDoes(w: nat, pool: nat, l: Local, claimed: seq<nat>)
    requires LocalEnabled(w, pool, l, claimed)
    ensures var l' := LocalStep(w, pool, l, claimed);
      LoopDoes(pool, l.x, l.at, claimed, l'.x, l'.at)
  {
    if l.at.Erasing? {
      OffsetBounds(|l.x.privateQueue|, |l.x.targets| + 1, |l.x.targets|);
    }
  }

  /** drain_queue takes all tasks that have arrived, in order; it waits if there are none and leaves if it is aborted. */
  lemma TakesAllThatArrived(states: seq<State>, events: seq<Event>, n: nat)
    requires IsRun(states, events) && n < |events| && events[n].Work?
    requires OwnWorker(states[n], events[n].t)
    requires states[n].threads[events[n].t].at in {Starting, Rechecking}
    ensures var s, s', t := states[n], states[n + 1], events[n].t;
      && |s'.workers| == |s.workers| && |s'.threads| == |s.threads|
      && var x, x' := s.workers[s.threads[t].role.w], s'.workers[s.threads[t].role.w];
      && (s'.threads[t].at == Exited <==> x.abort) && (x.abort ==> x'.idle)
      && (s'.threads[t].at == Draining <==> !x.abort && x.publicQueue != [])
      && (s'.threads[t].at == Parked <==> !x.abort && x.publicQueue == [])
      && (s'.threads[t].at == Draining ==> x'.privateQueue == x.publicQueue && x'.publicQueue == x.privateQueue)
      && (s'.threads[t].at == Draining ==> !x'.found)
  {
    LoopSteps(states, events, n);
  }

  /** balance_work donates exactly when there are two tasks and somebody to give to, and then to everybody claimed. */
  lemma DonatesWhenItCan(states: seq<State>, events: seq<Event>, n: nat)
    requires IsRun(states, events) && n < |events| && events[n].Work?
    requires OwnWorker(states[n], events[n].t) && states[n].threads[events[n].t].at == Draining
    ensures var s, s', t := states[n], states[n + 1], events[n].t;
      && |s'.workers| == |s.workers| && |s'.threads| == |s.threads|
      && var x, x' := s.workers[s.threads[t].role.w], s'.workers[s.threads[t].role.w];
         var peers := x.targets + events[n].claimed;
      && (s'.threads[t].at == Donating(0, |x.privateQueue|) <==>
            2 <= |x.privateQueue| && |s.workers| != 1 && peers != [])
      && x'.privateQueue == x.privateQueue
      && (s'.threads[t].at.Donating? ==> x'.targets == peers)
      && (s'.threads[t].at == Starting <==> x.privateQueue == [])
      && s'.threads[t].at in {Donating(0, |x.privateQueue|), CheckAbort, Starting}
  {
    LoopSteps(states, events, n);
  }

  /** The task that runs next is the newest of the private queue; after an abort none is taken. */
  lemma RunsTheNewest(states: seq<State>, events: seq<Event>, n: nat)
    requires IsRun(states, events) && n < |events| && events[n].Work?
    requires OwnWorker(states[n], events[n].t) && states[n].threads[events[n].t].at == CheckAbort
    ensures var s, s', t := states[n], states[n + 1], events[n].t;
      && |s'.workers| == |s.workers| && |s'.threads| == |s.threads|
      && var x, x' := s.workers[s.threads[t].role.w], s'.workers[s.threads[t].role.w];
      && (s'.threads[t].at.Running? <==> !x.atomicAbort)
      && (s'.threads[t].at.Running? ==> x'.privateQueue + [s'.threads[t].at.slot] == x.privateQueue)
      && (x.atomicAbort ==> s'.threads[t].at == AbortExit && x'.privateQueue == x.privateQueue)
  {
    LoopSteps(states, events, n);
  }

  /** A wait times out without touching anything; what follows is the section of LoopDoes. */
  lemma TimeoutOnlyMoves(states: seq<State>, events: seq<Event>, n: nat)
    requires IsRun(states, events) && n < |events| && events[n].Timeout?
    ensures var s, t := states[n], events[n].t;
      && t < |s.threads| && s.threads[t].at == Parked
      && states[n + 1] == s.(threads := s.threads[t := s.threads[t].(at := TimedOut)])
  {
    assert Step(states[n], events[n], states[n + 1]);
  }

  // ---------- donation ----------

  /**
   A turn of the donation loop: the peer claimed for turn k receives the tasks from Offset(k) to Offset(k + 1) of the donor's
   queue and the donor keeps empty ones in their place; or the peer was shut down, nothing moves and the loop is left.
   */
  lemma DonationDelivers(states: seq<State>, events: seq<Event>, n: nat)
    requires IsRun(states, events) && n < |events| && events[n].Donate?
    ensures var s, s', t := states[n], states[n + 1], events[n].t;
      && OwnWorker(s, t) && s.threads[t].at.Donating? && |s'.workers| == |s.workers| && |s.threads| <= |s'.threads|
      && var w, k, m := s.threads[t].role.w, s.threads[t].at.k, s.threads[t].at.n;
         var x := s.workers[w];
      && m == |x.privateQueue| && k < |x.targets| && x.targets[k] < |s.workers| && x.targets[k] != w
      && var begin, end := Offset(m, |x.targets| + 1, k), Offset(m, |x.targets| + 1, k + 1);
         var v := x.targets[k];
      && begin <= end <= m
      && (s.workers[v].abort ==> s' == s.(threads := s.threads[t := s.threads[t].(at := Thrown)]))
      && (!s.workers[v].abort ==>
            && Received(s.(workers := s.workers[w := s'.workers[w]]), s', t, v, x.privateQueue[begin..end])
            && s'.workers[w] == x.(privateQueue := s'.workers[w].privateQueue)
            && HandedOut(x.privateQueue, begin, end, s'.workers[w].privateQueue)
            && s'.threads[t].at == (if k + 1 < |x.targets| then Donating(k + 1, m) else Erasing(m)))
  {
    var s, s', t := states[n], states[n + 1], events[n].t;
    assert Step(s, events[n], s');
    ChunkMoves(s.workers[s.threads[t].role.w], s.threads[t].at.k);
  }

  lemma ChunkMoves(x: Worker, k: nat)
    requires k < |x.targets|
    ensures var n, peers := |x.privateQueue|, |x.targets| + 1;
      var begin, end := Offset(n, peers, k), Offset(n, peers, k + 1);
      && begin <= end <= |x.privateQueue| && ChunkOf(x, k) == x.privateQueue[begin..end]
      && Donor(x, k).x == x.(privateQueue := Donor(x, k).x.privateQueue)
      && HandedOut(x.privateQueue, begin, end, Donor(x, k).x.privateQueue)
  {
    OffsetBounds(|x.privateQueue|, |x.targets| + 1, k);
  }

  /** The queue after a range was moved out of it. */
  ghost predicate HandedOut(q: seq<Slot>, begin: nat, end: nat, q': seq<Slot>) {
    |q'| == |q| && forall i :: 0 <= i < |q| ==> q'[i] == if begin <= i < end then Empty else q[i]
  }

  // ---------- shutdown ----------

  /** What a stage of a worker's shutdown changes. */
  ghost predicate StageDoes(x: Worker, stage: Stage, x': Worker) {
    match stage
    case StoreAtomic => x' == x.(atomicAbort := true)
    case SetAbort => x' == x.(abort := true)
    case StoreFound => x' == x.(found := true)
    case ReleaseSemaphore => x' == x.(semaphore := x.semaphore + 1)
    case Join => x' == x.(handle := NoThread)
    case TakeQueues => x' == x.(privateQueue := [], publicQueue := [])
    case Clear => x' == x
  }

  predicate Follows(stage: Stage, next: Stage) {
    match stage
    case StoreAtomic => next == SetAbort
    case SetAbort => next == StoreFound
    case StoreFound => next == ReleaseSemaphore
    case ReleaseSemaphore => next == Join
    case Join => next == TakeQueues
    case TakeQueues => next == Clear
    case Clear => false
  }

  /**
   The shutdown of the pool goes through the workers in order and through the stages of each in order; it joins a worker's
   thread only when that has terminated, and what it takes out of the queues is all that is in them.
   */
  lemma ShutdownSteps(states: seq<State>, events: seq<Event>, n: nat)
    requires IsRun(states, events) && n < |events| && events[n].ShutdownStep?
    ensures var s, s' := states[n], states[n + 1];
      && s.shutdown.At? && s.shutdown.w < |s.workers| == |s'.workers| && s'.threads == s.threads
      && var w, stage := s.shutdown.w, s.shutdown.stage;
         var x := s.workers[w];
      && s'.workers == s.workers[w := s'.workers[w]] && StageDoes(x, stage, s'.workers[w])
      && (if stage == Clear then s'.shutdown == (if w + 1 < |s.workers| then At(w + 1, StoreAtomic, []) else Finished)
          else s'.shutdown.At? && s'.shutdown.w == w && Follows(stage, s'.shutdown.stage))
      && (stage == TakeQueues ==> s'.shutdown.doomed == x.publicQueue + x.privateQueue)
      && s'.joined == (if stage == Join && x.handle.Joinable? then s.joined + {x.handle.t} else s.joined)
  {
    assert Step(states[n], events[n], states[n + 1]);
  }

  /** A shutdown is requested once, and starts with the first worker. */
  lemma ShutdownStarts(states: seq<State>, events: seq<Event>, n: nat)
    requires IsRun(states, events) && n < |events|
    ensures events[n] == RequestShutdown ==>
      && states[n].shutdown == NotRequested
      && states[n + 1] == states[n].(shutdown := if states[n].workers == [] then Finished else At(0, StoreAtomic, []))
    ensures events[n] == AddCaller ==>
      states[n + 1] == states[n].(threads := states[n].threads + [Thread(External, Outside, NoDebt)])
  {
    assert Step(states[n], events[n], states[n + 1]);
  }
}
