/**
 worker_thread_executor: one worker with a private and a public queue and a semaphore; any number of threads enqueue, and
 one thread shuts the executor down. One event is one section under the mutex, one atomic or semaphore operation, one
 task, or one step of the worker on its private queue, which no other thread touches while the worker runs.
 */
module WorkerThread {
  import Runs

  datatype Task = Task(id: nat, local: bool)

  datatype Place =
    | NotStarted
    | Starting             // about to lock in drain_queue
    | Parked               // about to acquire the semaphore
    | Relocking            // acquired it, about to lock and look again
    | Draining             // top of the loop over the private queue
    | Popped(task: Task)   // about to load m_private_atomic_abort
    | Running(task: Task)
    | Exited

  datatype Stage = NotRequested | SetAbort | StoreAbort | Release | Join | TakeQueues | Clear | Returned

  /**
   `owed` counts the threads that enqueued into an empty queue and have yet to release the semaphore; `doomed` are the
   queues shutdown has taken and not yet cleared. The last four fields record the past, in order.
   */
  datatype State = State(privateQueue: seq<Task>, publicQueue: seq<Task>, permits: nat, owed: nat, worker: Place,
                         abort: bool, privateAbort: bool, shutdown: Stage, doomed: seq<Task>,
                         ran: seq<Task>, destroyed: seq<Task>, foreign: seq<nat>, local: seq<nat>)

  datatype Event =
    | EnqueueForeign(ids: seq<nat>)
    | ReleaseSemaphore
    | EnqueueLocal(ids: seq<nat>)
    | Work
    | ShutdownStep

  function Tasks(ids: seq<nat>, local: bool): seq<Task> {
    seq(|ids|, i requires 0 <= i < |ids| => Task(ids[i], local))
  }

  predicate WorkEnabled(s: State) {
    match s.worker
    case NotStarted => false
    case Parked => 0 < s.permits
    case Exited => false
    case _ => true
  }

  /** The section after wait_for_task's check, or the decision to wait. */
  function Look(s: State): State {
    if s.abort then s.(worker := Exited)
    else if s.publicQueue == [] then s.(worker := Parked)
    else s.(worker := Draining, privateQueue := s.publicQueue, publicQueue := s.privateQueue)
  }

  function ApplyWork(s: State): State
    requires WorkEnabled(s)
  {
    match s.worker
    case Starting => Look(s)
    case Parked => if 0 < s.permits then s.(worker := Relocking, permits := s.permits - 1) else s
    case Relocking => Look(s)
    case Draining =>
      if s.privateQueue == [] then s.(worker := Starting)
      else s.(worker := Popped(s.privateQueue[0]), privateQueue := s.privateQueue[1..])
    case Popped(task) =>
      if s.privateAbort then s.(worker := Exited, destroyed := s.destroyed + [task]) else s.(worker := Running(task))
    case Running(task) => s.(worker := Draining, ran := s.ran + [task])
    case _ => s
  }

  predicate Enabled(s: State, e: Event) {
    match e
    case EnqueueForeign(ids) => true
    case ReleaseSemaphore => 0 < s.owed
    case EnqueueLocal(ids) => s.worker.Running?
    case Work => WorkEnabled(s)
    case ShutdownStep => s.shutdown != Returned && (s.shutdown == Join ==> s.worker == NotStarted || s.worker == Exited)
  }

  function ApplyForeign(s: State, ids: seq<nat>): State {
    if s.abort then s
    else
      var s' := s.(publicQueue := s.publicQueue + Tasks(ids, false), foreign := s.foreign + ids);
      if s.worker == NotStarted then s'.(worker := Starting)
      else if s.publicQueue == [] then s'.(owed := s.owed + 1)
      else s'
  }

  function ApplyShutdown(s: State): State {
    match s.shutdown
    case NotRequested => s.(shutdown := SetAbort)
    case SetAbort => s.(shutdown := StoreAbort, abort := true)
    case StoreAbort => s.(shutdown := Release, privateAbort := true)
    case Release => s.(shutdown := Join, permits := s.permits + 1)
    case Join => s.(shutdown := TakeQueues)
    case TakeQueues => s.(shutdown := Clear, doomed := s.privateQueue + s.publicQueue, privateQueue := [], publicQueue := [])
    case Clear => s.(shutdown := Returned, destroyed := s.destroyed + s.doomed, doomed := [])
    case Returned => s
  }

  function Apply(s: State, e: Event): State
    requires Enabled(s, e)
  {
    match e
    case EnqueueForeign(ids) => ApplyForeign(s, ids)
    case ReleaseSemaphore => if 0 < s.owed then s.(owed := s.owed - 1, permits := s.permits + 1) else s
    case EnqueueLocal(ids) =>
      if s.privateAbort then s else s.(privateQueue := s.privateQueue + Tasks(ids, true), local := s.local + ids)
    case Work => ApplyWork(s)
    case ShutdownStep => ApplyShutdown(s)
  }

  ghost predicate Init(s: State) {
    s == State([], [], 0, 0, NotStarted, false, false, NotRequested, [], [], [], [], [])
  }

  ghost predicate Step(s: State, e: Event, s': State) {
    Enabled(s, e) && s' == Apply(s, e)
  }

  ghost predicate IsRun(states: seq<State>, events: seq<Event>) {
    Runs.IsRun(Init, Step, states, events)
  }

  // ---------- control ----------

  ghost predicate Busy(p: Place) {
    p.Draining? || p.Popped? || p.Running?
  }

  ghost predicate AllForeign(q: seq<Task>) {
    forall i :: 0 <= i < |q| ==> !q[i].local
  }

  ghost predicate Control(s: State) {
    && (s.abort <==> !s.shutdown.NotRequested? && !s.shutdown.SetAbort?)
    && (s.privateAbort <==> s.abort && !s.shutdown.StoreAbort?)
    && (!Busy(s.worker) && s.worker != Exited ==> s.privateQueue == [])
    && (s.shutdown.TakeQueues? || s.shutdown.Clear? || s.shutdown.Returned? ==> s.worker == NotStarted || s.worker == Exited)
    && (s.shutdown.Clear? || s.shutdown.Returned? ==> s.privateQueue == [] && s.publicQueue == [])
    && (!s.shutdown.Clear? ==> s.doomed == [])
    && (s.destroyed != [] ==> s.worker == Exited || s.shutdown.Returned?)
    && (s.worker == NotStarted ==> s.publicQueue == [])
    && AllForeign(s.publicQueue)
  }

  /** A worker that waits has no reason to, or a permit for it exists or will be released. */
  ghost predicate WakeUp(s: State) {
    && (s.worker == Parked && s.publicQueue != [] ==> 0 < s.permits + s.owed)
    && (s.worker == Parked && s.abort ==> s.shutdown.StoreAbort? || s.shutdown.Release? || 0 < s.permits)
    && (s.worker == Exited ==> s.abort)
  }

  lemma StepControl(s: State, e: Event, s': State)
    requires Control(s) && WakeUp(s) && Step(s, e, s')
    ensures Control(s') && WakeUp(s')
  {
    match e
    case EnqueueForeign(ids) => ForeignControl(s, ids);
    case Work => WorkControl(s);
    case _ =>
  }

  lemma ForeignControl(s: State, ids: seq<nat>)
    requires Control(s) && WakeUp(s)
    ensures Control(ApplyForeign(s, ids)) && WakeUp(ApplyForeign(s, ids))
  {
  }

  lemma WorkControl(s: State)
    requires Control(s) && WakeUp(s) && WorkEnabled(s)
    ensures Control(ApplyWork(s)) && WakeUp(ApplyWork(s))
  {
  }

  // ---------- order ----------

  ghost function Ids(q: seq<Task>, local: bool): seq<nat> {
    if q == [] then [] else Ids(q[..|q| - 1], local) + (if q[|q| - 1].local == local then [q[|q| - 1].id] else [])
  }

  ghost function Held(p: Place): seq<Task> {
    if p.Popped? || p.Running? then [p.task] else []
  }

  /** All tasks ever accepted, those that ran first and those last in the public queue at the end. */
  ghost function Line(s: State): seq<Task> {
    Front(s) + s.publicQueue
  }

  ghost function Front(s: State): seq<Task> {
    s.ran + Held(s.worker) + s.destroyed + s.doomed + s.privateQueue
  }

  lemma {:induction false} IdsConcat(a: seq<Task>, b: seq<Task>, local: bool)
    ensures Ids(a + b, local) == Ids(a, local) + Ids(b, local)
  {
    if b == [] {
      assert a + b == a;
    } else {
      IdsConcat(a, b[..|b| - 1], local);
      assert (a + b)[..|a + b| - 1] == a + b[..|b| - 1];
    }
  }

  lemma {:induction false} IdsOfTasks(ids: seq<nat>, kind: bool, local: bool)
    ensures Ids(Tasks(ids, kind), local) == if kind == local then ids else []
  {
    if ids != [] {
      var last := |ids| - 1;
      IdsOfTasks(ids[..last], kind, local);
      assert Tasks(ids, kind)[..last] == Tasks(ids[..last], kind);
    }
  }

  lemma {:induction false} NoLocalIds(q: seq<Task>)
    requires AllForeign(q)
    ensures Ids(q, true) == []
  {
    if q != [] {
      NoLocalIds(q[..|q| - 1]);
    }
  }

  ghost predicate Ordered(s: State) {
    Ids(Line(s), false) == s.foreign && Ids(Line(s), true) == s.local
  }

  lemma LookLine(s: State)
    requires s.privateQueue == [] && Held(s.worker) == []
    ensures Line(Look(s)) == Line(s)
  {
    var s' := Look(s);
    if !s.abort && s.publicQueue != [] {
      assert Front(s') == Front(s) + s.publicQueue;
      assert s'.publicQueue == [];
    }
  }

  lemma PopLine(s: State)
    requires s.worker == Draining && s.privateQueue != [] && s.destroyed == [] && s.doomed == []
    ensures Front(ApplyWork(s)) == Front(s)
  {
    assert s.privateQueue == [s.privateQueue[0]] + s.privateQueue[1..];
  }

  lemma TaskLine(s: State)
    requires s.worker.Popped? || s.worker.Running?
    requires s.destroyed == [] && s.doomed == []
    ensures Front(ApplyWork(s)) == Front(s)
  {
    var task := s.worker.task;
    assert s.ran + [task] + [] + [] + s.privateQueue == s.ran + [] + [task] + [] + s.privateQueue;
    assert s.ran + [task] + [] + [] + s.privateQueue == (s.ran + [task]) + [] + [] + [] + s.privateQueue;
  }

  lemma WorkLine(s: State)
    requires Control(s) && WorkEnabled(s)
    ensures Line(ApplyWork(s)) == Line(s)
  {
    if s.worker == Starting || s.worker == Relocking {
      LookLine(s);
    } else if s.worker == Draining {
      if s.privateQueue != [] {
        PopLine(s);
      }
    } else if s.worker != Parked {
      TaskLine(s);
    }
  }

  lemma ShutdownLine(s: State)
    requires Control(s) && Enabled(s, ShutdownStep)
    ensures Line(ApplyShutdown(s)) == Line(s)
  {
    var before := s.ran + Held(s.worker) + s.destroyed;
    if s.shutdown == TakeQueues {
      assert before + [] + s.privateQueue + s.publicQueue == before + (s.privateQueue + s.publicQueue) + [] + [];
    } else if s.shutdown == Clear {
      assert s.ran + Held(s.worker) + (s.destroyed + s.doomed) == before + s.doomed;
      assert before + s.doomed + [] + [] == before + s.doomed;
    }
  }

  /** The worker and shutdown only move tasks along the line. */
  lemma LineKept(s: State, e: Event)
    requires Control(s) && Enabled(s, e) && !e.EnqueueForeign? && !e.EnqueueLocal?
    ensures Line(Apply(s, e)) == Line(s)
  {
    match e
    case Work => WorkLine(s);
    case ShutdownStep => ShutdownLine(s);
    case _ =>
  }

  lemma ForeignLine(s: State, ids: seq<nat>)
    requires Control(s) && !s.abort
    ensures Line(ApplyForeign(s, ids)) == Line(s) + Tasks(ids, false)
  {
  }

  lemma ForeignOrdered(s: State, ids: seq<nat>)
    requires Control(s) && Ordered(s) && !s.abort
    ensures Ordered(ApplyForeign(s, ids))
  {
    ForeignLine(s, ids);
    IdsConcat(Line(s), Tasks(ids, false), true);
    IdsConcat(Line(s), Tasks(ids, false), false);
    IdsOfTasks(ids, false, true);
    IdsOfTasks(ids, false, false);
  }

  /** Tasks inserted in front of tasks of the other kind only. */
  lemma Inserted(front: seq<Task>, middle: seq<Task>, back: seq<Task>, local: bool)
    requires Ids(middle, local) == [] || Ids(back, local) == []
    ensures Ids(front + middle + back, local) == Ids(front + back, local) + Ids(middle, local)
  {
    IdsConcat(front + middle, back, local);
    IdsConcat(front, middle, local);
    IdsConcat(front, back, local);
  }

  lemma LocalLine(s: State, ids: seq<nat>)
    requires s.worker.Running? && !s.privateAbort
    ensures Line(Apply(s, EnqueueLocal(ids))) == Front(s) + Tasks(ids, true) + s.publicQueue
  {
  }

  lemma LocalIds(s: State, ids: seq<nat>, local: bool)
    requires AllForeign(s.publicQueue)
    ensures Ids(Front(s) + Tasks(ids, true) + s.publicQueue, local) == Ids(Line(s), local) + (if local then ids else [])
  {
    IdsOfTasks(ids, true, local);
    if local {
      NoLocalIds(s.publicQueue);
    }
    Inserted(Front(s), Tasks(ids, true), s.publicQueue, local);
  }

  lemma LocalOrdered(s: State, ids: seq<nat>)
    requires Control(s) && Ordered(s) && s.worker.Running? && !s.privateAbort
    ensures Ordered(Apply(s, EnqueueLocal(ids)))
  {
    LocalLine(s, ids);
    LocalIds(s, ids, false);
    LocalIds(s, ids, true);
    var s' := Apply(s, EnqueueLocal(ids));
    assert s'.local == s.local + ids && s'.foreign == s.foreign;
  }

  ghost predicate Inv(s: State) {
    Control(s) && WakeUp(s) && Ordered(s)
  }

  lemma StepInv(s: State, e: Event, s': State)
    requires Inv(s) && Step(s, e, s')
    ensures Inv(s')
  {
    StepControl(s, e, s');
    StepOrdered(s, e);
  }

  lemma StepOrdered(s: State, e: Event)
    requires Control(s) && Ordered(s) && Enabled(s, e)
    ensures Ordered(Apply(s, e))
  {
    if e.EnqueueForeign? {
      if !s.abort {
        ForeignOrdered(s, e.ids);
      }
    } else if e.EnqueueLocal? {
      if !s.privateAbort {
        LocalOrdered(s, e.ids);
      }
    } else {
      OrderKept(s, e);
    }
  }

  lemma OrderKept(s: State, e: Event)
    requires Control(s) && Ordered(s) && Enabled(s, e) && !e.EnqueueForeign? && !e.EnqueueLocal?
    ensures Ordered(Apply(s, e))
  {
    LineKept(s, e);
    var s' := Apply(s, e);
    assert s'.foreign == s.foreign && s'.local == s.local;
  }

  lemma RunInv(states: seq<State>, events: seq<Event>, n: nat)
    requires IsRun(states, events) && n < |states|
    ensures Inv(states[n])
  {
    forall s, e, s' | Inv(s) && Step(s, e, s') ensures Inv(s') {
      StepInv(s, e, s');
    }
    Runs.InvariantHolds(Init, Step, Inv, states, events, n);
  }

  // ---------- what holds in every run ----------

  lemma LineSplits(s: State, local: bool)
    ensures Ids(Line(s), local)
         == Ids(s.ran, local) + Ids(Held(s.worker) + s.destroyed + s.doomed + s.privateQueue + s.publicQueue, local)
  {
    var rest := Held(s.worker) + s.destroyed + s.doomed + s.privateQueue + s.publicQueue;
    assert Line(s) == s.ran + rest;
    IdsConcat(s.ran, rest, local);
  }

  /** Foreign tasks run in the order in which the lock accepted them, local tasks in the order of their enqueues. */
  lemma RunsInOrder(states: seq<State>, events: seq<Event>, n: nat)
    requires IsRun(states, events) && n < |states|
    ensures Ids(states[n].ran, false) <= states[n].foreign
    ensures Ids(states[n].ran, true) <= states[n].local
  {
    RunInv(states, events, n);
    LineSplits(states[n], false);
    LineSplits(states[n], true);
  }

  /** A parked worker with work to do, or one that should exit, has a permit available or owed to it. */
  lemma NoLostWakeUp(states: seq<State>, events: seq<Event>, n: nat)
    requires IsRun(states, events) && n < |states| && states[n].worker == Parked
    ensures states[n].publicQueue != [] ==> 0 < states[n].permits || Enabled(states[n], ReleaseSemaphore)
    ensures states[n].abort ==> 0 < states[n].permits || states[n].shutdown == StoreAbort || states[n].shutdown == Release
  {
    RunInv(states, events, n);
  }

  /** The assertions of drain_queue hold: it swaps only with an empty private queue. */
  lemma SwapsWithEmptyQueue(states: seq<State>, events: seq<Event>, n: nat)
    requires IsRun(states, events) && n < |states| && (states[n].worker == Starting || states[n].worker == Relocking)
    ensures states[n].privateQueue == []
  {
    RunInv(states, events, n);
  }

  /** When shutdown has returned, both queues are empty; the accepted tasks are those that ran, then those destroyed. */
  lemma ShutdownSettles(states: seq<State>, events: seq<Event>, n: nat)
    requires IsRun(states, events) && n < |states| && states[n].shutdown == Returned
    ensures states[n].privateQueue == [] && states[n].publicQueue == []
    ensures Ids(states[n].ran, false) + Ids(states[n].destroyed, false) == states[n].foreign
    ensures Ids(states[n].ran, true) + Ids(states[n].destroyed, true) == states[n].local
  {
    RunInv(states, events, n);
    var s := states[n];
    assert Line(s) == s.ran + s.destroyed;
    IdsConcat(s.ran, s.destroyed, false);
    IdsConcat(s.ran, s.destroyed, true);
  }

  /** And nothing is accepted, run or destroyed any more. */
  lemma ShutDownForEver(states: seq<State>, events: seq<Event>, m: nat, n: nat)
    requires IsRun(states, events) && m <= n < |states| && states[m].shutdown == Returned
    ensures states[n].(permits := 0, owed := 0) == states[m].(permits := 0, owed := 0)
    decreases n
  {
    if m < n {
      ShutDownForEver(states, events, m, n - 1);
      RunInv(states, events, n - 1);
      assert Step(states[n - 1], events[n - 1], states[n]);
    }
  }

  // ---------- what the events of a run come to ----------

  /** The tasks of the enqueue calls so far that were not refused, in order. */
  ghost function Offered(states: seq<State>, events: seq<Event>, n: nat, local: bool): seq<nat>
    requires n <= |events| < |states|
  {
    if n == 0 then []
    else
      var s, e := states[n - 1], events[n - 1];
      Offered(states, events, n - 1, local)
      + (if (local && e.EnqueueLocal? && !s.privateAbort) || (!local && e.EnqueueForeign? && !s.abort) then e.ids else [])
  }

  /** The tasks that the worker was running so far and is done with. */
  ghost function Done(states: seq<State>, events: seq<Event>, n: nat): seq<Task>
    requires n <= |events| < |states|
  {
    if n == 0 then []
    else Done(states, events, n - 1)
         + (if events[n - 1] == Work && states[n - 1].worker.Running? then [states[n - 1].worker.task] else [])
  }

  lemma RecordsStep(s: State, e: Event, s': State)
    requires Step(s, e, s')
    ensures s'.foreign == s.foreign + (if e.EnqueueForeign? && !s.abort then e.ids else [])
    ensures s'.local == s.local + (if e.EnqueueLocal? && !s.privateAbort then e.ids else [])
    ensures s'.ran == s.ran + (if e == Work && s.worker.Running? then [s.worker.task] else [])
  {
  }

  lemma {:induction false} RecordsAreExact(states: seq<State>, events: seq<Event>, n: nat)
    requires IsRun(states, events) && n <= |events|
    ensures states[n].foreign == Offered(states, events, n, false)
    ensures states[n].local == Offered(states, events, n, true)
    ensures states[n].ran == Done(states, events, n)
  {
    if n > 0 {
      RecordsAreExact(states, events, n - 1);
      RecordsStep(states[n - 1], events[n - 1], states[n]);
    }
  }

  /**
   The order of execution without any record: of the tasks of each kind, those the worker has run are the first of those
   enqueued; and when shutdown has returned, the rest of them are destroyed, in order.
   */
  lemma RunsWhatWasEnqueued(states: seq<State>, events: seq<Event>, n: nat, local: bool)
    requires IsRun(states, events) && n <= |events|
    ensures Ids(Done(states, events, n), local) <= Offered(states, events, n, local)
    ensures states[n].shutdown == Returned ==>
      Ids(Done(states, events, n), local) + Ids(states[n].destroyed, local) == Offered(states, events, n, local)
  {
    RecordsAreExact(states, events, n);
    RunsInOrder(states, events, n);
    if states[n].shutdown == Returned {
      ShutdownSettles(states, events, n);
    }
  }

  /** What a step of the worker leads to. */
  ghost predicate Leads(s: State, s': State) {
    match s.worker
    case NotStarted => false
    case Parked => s'.worker == Relocking
    case Draining =>
      if s.privateQueue == [] then s'.worker == Starting
      else s'.worker == Popped(s.privateQueue[0]) && [s.privateQueue[0]] + s'.privateQueue == s.privateQueue
    case Popped(task) =>
      if s.privateAbort then s'.worker == Exited && s'.destroyed == s.destroyed + [task] else s'.worker == Running(task)
    case Running(_) => s'.worker == Draining
    case Exited => false
    case _ => // about to look at the public queue
      if s.abort then s'.worker == Exited
      else if s.publicQueue == [] then s'.worker == Parked
      else s'.worker == Draining && s'.privateQueue == s.publicQueue && s'.publicQueue == []
  }

  /** The worker's way: it starts with the first enqueue, moves by its own steps only, and each leads on. */
  lemma WorkerLife(states: seq<State>, events: seq<Event>, n: nat)
    requires IsRun(states, events) && n < |events|
    ensures var s, e, s' := states[n], events[n], states[n + 1];
      && (e == Work ==> Leads(s, s'))
      && (e != Work ==> s'.worker == if s.worker == NotStarted && e.EnqueueForeign? && !s.abort then Starting else s.worker)
  {
    RunInv(states, events, n);
    assert Step(states[n], events[n], states[n + 1]);
  }

  /** Once shutdown has stored the abort flag, no task starts any more. */
  lemma {:induction false} NothingStartsAfterAbort(states: seq<State>, events: seq<Event>, m: nat, n: nat)
    requires IsRun(states, events) && m <= n < |states| && states[m].privateAbort && !states[m].worker.Running?
    ensures states[n].privateAbort && !states[n].worker.Running?
    ensures states[n].ran == states[m].ran && states[n].local == states[m].local && states[n].foreign == states[m].foreign
    decreases n
  {
    if m < n {
      NothingStartsAfterAbort(states, events, m, n - 1);
      RunInv(states, events, n - 1);
      assert Step(states[n - 1], events[n - 1], states[n]);
    }
  }

  // ---------- the executor as an object ----------

  /** Its sections update the fields; each is the event of the step system that it stands for. */
  class WorkerThreadExecutor {
    var privateQueue: seq<Task>
    var publicQueue: seq<Task>
    var semaphore: nat
    var abort: bool
    var privateAtomicAbort: bool
    var threadJoinable: bool

    /** The whole system; the real fields agree with it. */
    ghost var state: State

    ghost predicate Valid()
      reads this
    {
      && Inv(state)
      && privateQueue == state.privateQueue && publicQueue == state.publicQueue && semaphore == state.permits
      && abort == state.abort && privateAtomicAbort == state.privateAbort
      && threadJoinable == (state.worker != NotStarted)
    }

    constructor ()
      ensures Valid() && Init(state)
    {
      privateQueue, publicQueue, semaphore := [], [], 0;
      abort, privateAtomicAbort, threadJoinable := false, false, false;
      state := State([], [], 0, 0, NotStarted, false, false, NotRequested, [], [], [], [], []);
      new;
      RunInv([state], [], 0);
    }

    method EnqueueForeign(ids: seq<nat>) returns (accepted: bool, releases: bool)
      requires Valid()
      modifies this
      ensures Valid() && state == Apply(old(state), Event.EnqueueForeign(ids))
      ensures accepted == !old(abort) && releases == (state.owed == old(state.owed) + 1)
      ensures publicQueue == old(publicQueue) + (if accepted then Tasks(ids, false) else [])
      ensures privateQueue == old(privateQueue)
      ensures accepted ==> threadJoinable
    {
      StepInv(state, Event.EnqueueForeign(ids), Apply(state, Event.EnqueueForeign(ids)));
      state := Apply(state, Event.EnqueueForeign(ids));
      if abort {
        return false, false;
      }
      var isEmpty := publicQueue == [];
      publicQueue := publicQueue + Tasks(ids, false);
      if !threadJoinable {
        threadJoinable := true;
        return true, false;
      }
      return true, isEmpty;
    }

    method EnqueueLocal(ids: seq<nat>) returns (accepted: bool)
      requires Valid() && Enabled(state, Event.EnqueueLocal(ids))
      modifies this
      ensures Valid() && state == Apply(old(state), Event.EnqueueLocal(ids)) && accepted == !old(privateAtomicAbort)
      ensures privateQueue == old(privateQueue) + (if accepted then Tasks(ids, true) else [])
      ensures publicQueue == old(publicQueue)
    {
      StepInv(state, Event.EnqueueLocal(ids), Apply(state, Event.EnqueueLocal(ids)));
      state := Apply(state, Event.EnqueueLocal(ids));
      accepted := !privateAtomicAbort;
      if accepted {
        privateQueue := privateQueue + Tasks(ids, true);
      }
    }

    /** The lock in drain_queue or at the end of a wait: go on waiting, exit, or swap the queues. */
    method LookForTask() returns (next: Place)
      requires Valid() && (state.worker == Starting || state.worker == Relocking)
      modifies this
      ensures Valid() && state == Apply(old(state), Work) && next == state.worker
      ensures if abort then next == Exited
              else if old(publicQueue) == [] then next == Parked
              else next == Draining && privateQueue == old(publicQueue) && publicQueue == []
    {
      StepInv(state, Work, Apply(state, Work));
      state := Apply(state, Work);
      if publicQueue == [] && !abort {
        return Parked;
      }
      if abort {
        return Exited;
      }
      assert privateQueue == [];
      privateQueue, publicQueue := publicQueue, privateQueue;
      next := Draining;
    }

    /** The head of drain_queue_impl's loop. */
    method PopTask() returns (next: Place)
      requires Valid() && state.worker == Draining
      modifies this
      ensures Valid() && state == Apply(old(state), Work) && next == state.worker
      ensures if old(privateQueue) == [] then next == Starting
              else next.Popped? && [next.task] + privateQueue == old(privateQueue)
    {
      StepInv(state, Work, Apply(state, Work));
      state := Apply(state, Work);
      if privateQueue == [] {
        return Starting;
      }
      var task := privateQueue[0];
      privateQueue := privateQueue[1..];
      next := Popped(task);
    }

    /** The rest of the loop's body, up to the task. */
    method CheckAbort(task: Task) returns (next: Place)
      requires Valid() && state.worker == Popped(task)
      modifies this
      ensures Valid() && state == Apply(old(state), Work) && next == state.worker
      ensures next == if privateAtomicAbort then Exited else Running(task)
    {
      StepInv(state, Work, Apply(state, Work));
      state := Apply(state, Work);
      if privateAtomicAbort {
        return Exited;
      }
      next := Running(task);
    }

    /** shutdown's last section. */
    method TakeAllQueues() returns (taken: seq<Task>)
      requires Valid() && state.shutdown == TakeQueues
      modifies this
      ensures Valid() && state == Apply(old(state), ShutdownStep) && taken == state.doomed
      ensures taken == old(privateQueue) + old(publicQueue) && privateQueue == [] && publicQueue == []
    {
      StepInv(state, ShutdownStep, Apply(state, ShutdownStep));
      state := Apply(state, ShutdownStep);
      taken := privateQueue + publicQueue;
      privateQueue, publicQueue := [], [];
    }
  }
}
