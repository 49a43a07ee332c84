/**
 thread_pool_executor: any number of workers, each with a private queue only its own thread touches, a public queue
 under its mutex, a semaphore, an idle flag and a restartable OS thread; any number of threads enqueue, workers donate
 tasks to each other, and one thread shuts the pool down, worker by worker. One event is one mutex section, one
 semaphore or atomic operation, one join, or one stretch of code that only the worker's own thread can observe.
 */
module ThreadPool {
  import Runs
  import opened WorkSplit

  /** A task object: moved-from and default-constructed tasks are empty, and running them does nothing. */
  datatype Slot = Empty | Full(task: nat)

  /** m_thread of a worker. */
  datatype Handle = NoThread | Joinable(t: nat)

  /** `targets` is m_idle_worker_list, the peers claimed for the donation in progress. */
  datatype Worker = Worker(privateQueue: seq<Slot>, publicQueue: seq<Slot>, semaphore: nat, idle: bool, abort: bool,
                           atomicAbort: bool, found: bool, handle: Handle, targets: seq<nat>)

  datatype Role = External | WorkerOf(w: nat)

  /** What a thread still owes after a section of enqueue_foreign: the release of a semaphore, or a join. */
  datatype Debt = NoDebt | OwesRelease(w: nat) | OwesJoin(t: nat)

  datatype Place =
    | Outside              // a thread that is not running a work loop
    | Starting             // about to lock in drain_queue
    | Parked               // waiting on the semaphore
    | Woken                // got a permit, about to load m_task_found_or_abort
    | Rechecking           // about to lock and look at the public queue again
    | TimedOut             // gave up waiting, about to lock and go idle
    | Draining             // top of the loop over the private queue
    | Donating(k: nat, n: nat) // about to give chunk k of n tasks away
    | Erasing(n: nat)      // all chunks given away, about to erase them
    | CheckAbort           // about to load m_atomic_abort, then pop
    | Running(slot: Slot)  // inside a task
    | AbortExit            // saw the abort, about to lock and go idle
    | Thrown               // a donation threw, about to lock and go idle
    | Exited               // left the work loop
    | Terminated

  datatype Thread = Thread(role: Role, at: Place, debt: Debt)

  datatype Stage = StoreAtomic | SetAbort | StoreFound | ReleaseSemaphore | Join | TakeQueues | Clear

  datatype Shutdown = NotRequested | At(w: nat, stage: Stage, doomed: seq<Slot>) | Finished

  /** The last three fields record which tasks were accepted, executed and destroyed unexecuted. */
  datatype State = State(workers: seq<Worker>, threads: seq<Thread>, shutdown: Shutdown, joined: set<nat>,
                         accepted: multiset<nat>, executed: multiset<nat>, destroyed: multiset<nat>)

  datatype Event =
    | AddCaller
    | Enqueue(t: nat, v: nat, slots: seq<Slot>)
    | EnqueueLocal(t: nat, slots: seq<Slot>)
    | PayDebt(t: nat)
    | Work(t: nat, claimed: seq<nat>)
    | Donate(t: nat)
    | Timeout(t: nat)
    | RequestShutdown
    | ShutdownStep

  /** The tasks a queue still holds. */
  ghost function Tasks(q: seq<Slot>): multiset<nat> {
    if q == [] then multiset{}
    else Tasks(q[..|q| - 1]) + SlotTasks(q[|q| - 1])
  }

  ghost function SlotTasks(x: Slot): multiset<nat> {
    match x
    case Empty => multiset{}
    case Full(task) => multiset{task}
  }

  function SetWorker(s: State, w: nat, x: Worker): State
    requires w < |s.workers|
  {
    s.(workers := s.workers[w := x])
  }

  function SetThread(s: State, t: nat, x: Thread): State
    requires t < |s.threads|
  {
    s.(threads := s.threads[t := x])
  }

  function MoveTo(s: State, t: nat, place: Place): State
    requires t < |s.threads|
  {
    SetThread(s, t, s.threads[t].(at := place))
  }

  // ---------- enqueue_foreign and ensure_worker_active ----------

  /** What thread t owes after handing tasks to worker x, which is number v. */
  function DebtAfter(x: Worker, v: nat): Debt {
    if !x.idle then (if x.publicQueue == [] then OwesRelease(v) else NoDebt)
    else match x.handle
         case NoThread => NoDebt
         case Joinable(stale) => OwesJoin(stale)
  }

  function Delivered(x: Worker, slots: seq<Slot>, newThread: nat): Worker {
    var x1 := x.(publicQueue := x.publicQueue + slots, found := true);
    if x.idle then x1.(idle := false, handle := Joinable(newThread)) else x1
  }

  /** The section of enqueue_foreign on worker v: an idle worker gets a new thread. */
  function Deliver(s: State, t: nat, v: nat, slots: seq<Slot>): State
    requires t < |s.threads| && v < |s.workers|
  {
    var x := s.workers[v];
    var threads := s.threads[t := s.threads[t].(debt := DebtAfter(x, v))];
    s.(workers := s.workers[v := Delivered(x, slots, |s.threads|)],
       threads := if x.idle then threads + [Thread(WorkerOf(v), Starting, NoDebt)] else threads)
  }

  predicate EnqueueEnabled(s: State, t: nat, v: nat) {
    && t < |s.threads| && v < |s.workers|
    && (s.threads[t].at == Outside || s.threads[t].at.Running?)
    && s.threads[t].debt == NoDebt
  }

  /** An aborted worker rejects the tasks by throwing. */
  ghost function ApplyEnqueue(s: State, t: nat, v: nat, slots: seq<Slot>): State
    requires EnqueueEnabled(s, t, v)
  {
    if s.workers[v].abort then s
    else Deliver(s, t, v, slots).(accepted := s.accepted + Tasks(slots))
  }

  predicate EnqueueLocalEnabled(s: State, t: nat) {
    && t < |s.threads| && s.threads[t].at.Running?
    && s.threads[t].role.WorkerOf? && s.threads[t].role.w < |s.workers|
    && s.threads[t].debt == NoDebt
  }

  ghost function ApplyEnqueueLocal(s: State, t: nat, slots: seq<Slot>): State
    requires EnqueueLocalEnabled(s, t)
  {
    var w := s.threads[t].role.w;
    var x := s.workers[w];
    if x.atomicAbort then s
    else SetWorker(s, w, x.(privateQueue := x.privateQueue + slots)).(accepted := s.accepted + Tasks(slots))
  }

  predicate PayDebtEnabled(s: State, t: nat) {
    && t < |s.threads|
    && match s.threads[t].debt
       case NoDebt => false
       case OwesRelease(w) => w < |s.workers|
       case OwesJoin(u) => u < |s.threads| && s.threads[u].at == Terminated
  }

  function ApplyPayDebt(s: State, t: nat): State
    requires PayDebtEnabled(s, t)
  {
    var s1 := SetThread(s, t, s.threads[t].(debt := NoDebt));
    match s.threads[t].debt
    case NoDebt => s
    case OwesRelease(w) => SetWorker(s1, w, s.workers[w].(semaphore := s.workers[w].semaphore + 1))
    case OwesJoin(u) => s1.(joined := s.joined + {u})
  }

  // ---------- the work loop ----------

  /** A worker and where its thread is: all that a step outside of a donation reads or writes. */
  datatype Local = Local(x: Worker, at: Place)

  /** find_idle_workers: distinct peers of worker w, no more than it can serve while keeping a task. */
  predicate Claimable(w: nat, pool: nat, x: Worker, claimed: seq<nat>) {
    && |claimed| <= Min(pool - 1, |x.privateQueue| - 1)
    && (forall i :: 0 <= i < |claimed| ==> claimed[i] < pool && claimed[i] != w)
    && (forall i, j :: 0 <= i < j < |claimed| ==> claimed[i] != claimed[j])
  }

  predicate LocalEnabled(w: nat, pool: nat, l: Local, claimed: seq<nat>) {
    match l.at
    case Outside => false
    case Parked => 0 < l.x.semaphore
    case Draining => 2 <= |l.x.privateQueue| ==> Claimable(w, pool, l.x, claimed)
    case Donating(_, _) => false
    case Erasing(n) => n == |l.x.privateQueue|
    case CheckAbort => l.x.atomicAbort || l.x.privateQueue != []
    case Terminated => false
    case _ => true
  }

  /** Leaves the work loop, marking the worker idle in the same section. */
  function GoIdle(x: Worker): Local {
    Local(x.(idle := true), Exited)
  }

  /** drain_queue's section once there is something to see: abort, or the two queues change places. */
  function TakePublic(x: Worker): Local {
    if x.abort then GoIdle(x.(found := false))
    else Local(x.(found := false, privateQueue := x.publicQueue, publicQueue := x.privateQueue), Draining)
  }

  /** The head of balance_work: whom to donate to, if to anybody. */
  function Balance(pool: nat, x: Worker, claimed: seq<nat>): Local {
    if x.privateQueue == [] then Local(x, Starting)
    else if |x.privateQueue| < 2 || pool == 1 then Local(x, CheckAbort)
    else if x.targets + claimed == [] then Local(x, CheckAbort)
    else Local(x.(targets := x.targets + claimed), Donating(0, |x.privateQueue|))
  }

  function ChunkStart(x: Worker, k: nat, n: nat): nat {
    Offset(n, |x.targets| + 1, k)
  }

  /** The tail of balance_work: what was given away is erased. */
  function Erase(x: Worker): Local {
    OffsetBounds(|x.privateQueue|, |x.targets| + 1, |x.targets|);
    Local(x.(privateQueue := x.privateQueue[ChunkStart(x, |x.targets|, |x.privateQueue|)..], targets := []), CheckAbort)
  }

  /** After the abort check the newest task is popped. */
  function Pop(x: Worker): Local
    requires x.atomicAbort || x.privateQueue != []
  {
    var last := |x.privateQueue| - 1;
    if x.atomicAbort then Local(x, AbortExit)
    else Local(x.(privateQueue := x.privateQueue[..last]), Running(x.privateQueue[last]))
  }

  /** One step of the work loop of worker w, apart from donations. */
  function LocalStep(w: nat, pool: nat, l: Local, claimed: seq<nat>): Local
    requires LocalEnabled(w, pool, l, claimed)
  {
    var x := l.x;
    match l.at
    case Starting => if x.publicQueue == [] && !x.abort then Local(x, Parked) else TakePublic(x)
    case Parked => Local(x.(semaphore := x.semaphore - 1), Woken)
    case Woken => Local(x, if x.found then Rechecking else Parked)
    case Rechecking =>
      if x.publicQueue == [] && !x.abort then Local(x, Parked)
      else if x.abort then GoIdle(x)
      else TakePublic(x)
    case TimedOut => GoIdle(x)
    case Draining => Balance(pool, x, claimed)
    case Erasing(n) => Erase(x)
    case CheckAbort => Pop(x)
    case Running(_) => Local(x, Draining)
    case AbortExit => GoIdle(x)
    case Thrown => GoIdle(x)
    case Exited => Local(x, Terminated)
    case _ => l
  }

  predicate IsWorkerThread(s: State, t: nat) {
    && t < |s.threads| && s.threads[t].role.WorkerOf? && s.threads[t].role.w < |s.workers|
    && s.threads[t].debt == NoDebt
  }

  function LocalOf(s: State, t: nat): Local
    requires IsWorkerThread(s, t)
  {
    Local(s.workers[s.threads[t].role.w], s.threads[t].at)
  }

  predicate WorkEnabled(s: State, t: nat, claimed: seq<nat>) {
    && IsWorkerThread(s, t)
    && LocalEnabled(s.threads[t].role.w, |s.workers|, LocalOf(s, t), claimed)
  }

  /** Thread t of worker w replaces its worker's record and moves on. */
  function Update(s: State, t: nat, w: nat, l: Local): State
    requires t < |s.threads| && w < |s.workers|
  {
    s.(workers := s.workers[w := l.x], threads := s.threads[t := s.threads[t].(at := l.at)])
  }

  ghost function Completed(at: Place): multiset<nat> {
    if at.Running? then SlotTasks(at.slot) else multiset{}
  }

  ghost function ApplyWork(s: State, t: nat, claimed: seq<nat>): State
    requires WorkEnabled(s, t, claimed)
  {
    var w := s.threads[t].role.w;
    Update(s, t, w, LocalStep(w, |s.workers|, LocalOf(s, t), claimed))
      .(executed := s.executed + Completed(s.threads[t].at))
  }

  // ---------- donation ----------

  predicate DonateEnabled(s: State, t: nat) {
    && IsWorkerThread(s, t) && s.threads[t].at.Donating?
    && var w := s.threads[t].role.w;
       var x := s.workers[w];
       var k := s.threads[t].at.k;
       && k < |x.targets| && x.targets[k] < |s.workers| && x.targets[k] != w
       && s.threads[t].at.n == |x.privateQueue|
  }

  function Shells(n: nat): seq<Slot> {
    seq(n, _ => Empty)
  }

  /** A queue after the tasks in a range were moved out of it: their shells stay. */
  function MovedOut(q: seq<Slot>, from: nat, to: nat): seq<Slot>
    requires from <= to <= |q|
  {
    q[..from] + Shells(to - from) + q[to..]
  }

  /** The donor after chunk k was moved out of its private queue. */
  function Donor(x: Worker, k: nat): Local
    requires k < |x.targets|
  {
    var n := |x.privateQueue|;
    OffsetBounds(n, |x.targets| + 1, k);
    Local(x.(privateQueue := MovedOut(x.privateQueue, ChunkStart(x, k, n), ChunkStart(x, k + 1, n))),
          if k + 1 < |x.targets| then Donating(k + 1, n) else Erasing(n))
  }

  function ChunkOf(x: Worker, k: nat): seq<Slot>
    requires k < |x.targets|
  {
    OffsetBounds(|x.privateQueue|, |x.targets| + 1, k);
    x.privateQueue[ChunkStart(x, k, |x.privateQueue|)..ChunkStart(x, k + 1, |x.privateQueue|)]
  }

  /** One iteration of balance_work's loop; it throws if the receiver was shut down. */
  function ApplyDonate(s: State, t: nat): State
    requires DonateEnabled(s, t)
  {
    var w := s.threads[t].role.w;
    var x := s.workers[w];
    var k := s.threads[t].at.k;
    if s.workers[x.targets[k]].abort then Update(s, t, w, Local(x, Thrown))
    else Deliver(Update(s, t, w, Donor(x, k)), t, x.targets[k], ChunkOf(x, k))
  }

  predicate TimeoutEnabled(s: State, t: nat) {
    t < |s.threads| && s.threads[t].at == Parked
  }

  // ---------- shutdown ----------

  predicate ShutdownEnabled(s: State) {
    && s.shutdown.At? && s.shutdown.w < |s.workers|
    && (s.shutdown.stage == Join && s.workers[s.shutdown.w].handle.Joinable? ==>
          var t := s.workers[s.shutdown.w].handle.t;
          t < |s.threads| && s.threads[t].at == Terminated)
  }

  function Reached(s: State, w: nat): Shutdown {
    if w < |s.workers| then At(w, StoreAtomic, []) else Finished
  }

  function StageWorker(x: Worker, stage: Stage): Worker {
    match stage
    case StoreAtomic => x.(atomicAbort := true)
    case SetAbort => x.(abort := true)
    case StoreFound => x.(found := true)
    case ReleaseSemaphore => x.(semaphore := x.semaphore + 1)
    case Join => x.(handle := NoThread)
    case TakeQueues => x.(privateQueue := [], publicQueue := [])
    case Clear => x
  }

  function NextStage(s: State): Shutdown
    requires ShutdownEnabled(s)
  {
    var w := s.shutdown.w;
    match s.shutdown.stage
    case StoreAtomic => At(w, SetAbort, [])
    case SetAbort => At(w, StoreFound, [])
    case StoreFound => At(w, ReleaseSemaphore, [])
    case ReleaseSemaphore => At(w, Join, [])
    case Join => At(w, TakeQueues, [])
    case TakeQueues => At(w, Clear, s.workers[w].publicQueue + s.workers[w].privateQueue)
    case Clear => Reached(s, w + 1)
  }

  /** One step of thread_pool_worker::shutdown on the worker the pool's shutdown has come to. */
  ghost function ApplyShutdown(s: State): State
    requires ShutdownEnabled(s)
  {
    var w := s.shutdown.w;
    var x := s.workers[w];
    var stage := s.shutdown.stage;
    SetWorker(s, w, StageWorker(x, stage))
      .(shutdown := NextStage(s),
        joined := if stage == Join && x.handle.Joinable? then s.joined + {x.handle.t} else s.joined,
        destroyed := if stage == Clear then s.destroyed + Tasks(s.shutdown.doomed) else s.destroyed)
  }

  // ---------- the step system ----------

  predicate Enabled(s: State, e: Event) {
    match e
    case AddCaller => true
    case Enqueue(t, v, _) => EnqueueEnabled(s, t, v)
    case EnqueueLocal(t, _) => EnqueueLocalEnabled(s, t)
    case PayDebt(t) => PayDebtEnabled(s, t)
    case Work(t, claimed) => WorkEnabled(s, t, claimed)
    case Donate(t) => DonateEnabled(s, t)
    case Timeout(t) => TimeoutEnabled(s, t)
    case RequestShutdown => s.shutdown == NotRequested
    case ShutdownStep => ShutdownEnabled(s)
  }

  ghost function Apply(s: State, e: Event): State
    requires Enabled(s, e)
  {
    match e
    case AddCaller => s.(threads := s.threads + [Thread(External, Outside, NoDebt)])
    case Enqueue(t, v, slots) => ApplyEnqueue(s, t, v, slots)
    case EnqueueLocal(t, slots) => ApplyEnqueueLocal(s, t, slots)
    case PayDebt(t) => ApplyPayDebt(s, t)
    case Work(t, claimed) => ApplyWork(s, t, claimed)
    case Donate(t) => ApplyDonate(s, t)
    case Timeout(t) => MoveTo(s, t, TimedOut)
    case RequestShutdown => s.(shutdown := Reached(s, 0))
    case ShutdownStep => ApplyShutdown(s)
  }

  ghost predicate Step(s: State, e: Event, s': State) {
    Enabled(s, e) && s' == Apply(s, e)
  }

  ghost predicate Init(s: State) {
    && s.threads == [] && s.shutdown == NotRequested && s.joined == {}
    && s.accepted == multiset{} && s.executed == multiset{} && s.destroyed == multiset{}
    && forall w :: 0 <= w < |s.workers| ==> s.workers[w] == Worker([], [], 0, true, false, false, false, NoThread, [])
  }

  ghost predicate IsRun(states: seq<State>, events: seq<Event>) {
    Runs.IsRun(Init, Step, states, events)
  }
}
