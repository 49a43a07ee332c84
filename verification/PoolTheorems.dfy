/**
 What every run of the thread pool satisfies, with any number of workers, callers, tasks and donations, and with a
 shutdown at any point.
 */
module PoolTheorems {
  import Runs
  import opened WorkSplit
  import opened ThreadPool
  import opened PoolOwnership
  import opened PoolJoins
  import opened PoolShutdown
  import opened PoolDonation
  import opened PoolWakeUp
  import opened PoolConservation
  import opened PoolAsserts

  ghost predicate Inv(s: State) {
    && Owned(s) && Joins(s) && Stages(s) && Donations(s) && WakeUps(s) && Queues(s, false) && DoomedOk(s)
    && forall id: nat :: ConservedFor(s, id)
  }

  lemma {:induction false} NothingInNewWorkers(ws: seq<Worker>, id: nat)
    requires forall w :: 0 <= w < |ws| ==> ws[w].privateQueue == [] && ws[w].publicQueue == []
    ensures InWorkers(ws, id) == 0
  {
    if ws != [] {
      NothingInNewWorkers(ws[..|ws| - 1], id);
    }
  }

  lemma InitInv(s: State)
    requires Init(s)
    ensures Inv(s) && Queues(s, true)
  {
    forall id: nat ensures ConservedFor(s, id) {
      NothingInNewWorkers(s.workers, id);
    }
    forall w: nat | w < |s.workers| ensures DonationOk(w, |s.workers|, Local(s.workers[w], PlaceOf(s, w)), Aborted(s)) {
    }
  }

  lemma StepInv(s: State, e: Event, s': State)
    requires Inv(s) && Step(s, e, s')
    ensures Inv(s')
  {
    StepOwned(s, e, s');
    StepJoins(s, e, s');
    StepStages(s, e, s');
    StepDonations(s, e, s');
    StepWakeUps(s, e, s');
    StepQueues(s, e, s', false);
    forall id: nat ensures ConservedFor(s', id) {
      StepConserved(s, e, s', id);
    }
  }

  lemma RunInv(states: seq<State>, events: seq<Event>, n: nat)
    requires IsRun(states, events) && n < |states|
    ensures Inv(states[n])
  {
    forall s | Init(s) ensures Inv(s) {
      InitInv(s);
    }
    forall s, e, s' | Inv(s) && Step(s, e, s') ensures Inv(s') {
      StepInv(s, e, s');
    }
    Runs.InvariantHolds(Init, Step, Inv, states, events, n);
  }

  // ---------- conservation ----------

  /** Every accepted task is executed, destroyed, queued, running or taken out by a shutdown, and only one of these. */
  lemma TasksAreConserved(states: seq<State>, events: seq<Event>, n: nat, id: nat)
    requires IsRun(states, events) && n < |states|
    ensures var s := states[n];
      && s.accepted[id] == s.executed[id] + s.destroyed[id]
                           + InWorkers(s.workers, id) + InThreads(s.threads, id) + Doomed(s.shutdown, id)
      && s.executed[id] + s.destroyed[id] <= s.accepted[id]
  {
    RunInv(states, events, n);
    assert ConservedFor(states[n], id);
  }

  lemma {:induction false} NothingRunning(ts: seq<Thread>, id: nat)
    requires forall t :: 0 <= t < |ts| ==> !ts[t].at.Running?
    ensures InThreads(ts, id) == 0
  {
    if ts != [] {
      NothingRunning(ts[..|ts| - 1], id);
    }
  }

  /** When the shutdown of the pool has returned, every accepted task was executed or destroyed, each exactly once. */
  lemma ShutdownSettlesTasks(states: seq<State>, events: seq<Event>, n: nat)
    requires IsRun(states, events) && n < |states| && states[n].shutdown == Finished
    ensures states[n].accepted == states[n].executed + states[n].destroyed
  {
    RunInv(states, events, n);
    var s := states[n];
    forall t | 0 <= t < |s.threads| ensures !s.threads[t].at.Running? {
      assert ThreadOwn(s, t);
      if s.threads[t].role.WorkerOf? && s.threads[t].role.w < |s.workers| {
        assert StageOk(s, s.threads[t].role.w);
      }
    }
    forall id: nat ensures s.accepted[id] == s.executed[id] + s.destroyed[id] {
      assert ConservedFor(s, id);
      NothingRunning(s.threads, id);
      forall w | 0 <= w < |s.workers| ensures s.workers[w].privateQueue == [] && s.workers[w].publicQueue == [] {
        assert StageOk(s, w);
      }
      NothingInNewWorkers(s.workers, id);
    }
  }

  // ---------- ownership, joins and shutdown ----------

  /** A worker is not idle exactly when one thread is inside its work loop, and then it is the thread it holds. */
  lemma OneThreadPerBusyWorker(states: seq<State>, events: seq<Event>, n: nat, w: nat)
    requires IsRun(states, events) && n < |states| && w < |states[n].workers|
    ensures var s := states[n];
      && (!s.workers[w].idle <==>
            exists t :: 0 <= t < |s.threads| && s.threads[t].role == WorkerOf(w) && Active(s.threads[t].at))
      && (forall t, u | 0 <= t < |s.threads| && 0 <= u < |s.threads| ::
            (s.threads[t].role == s.threads[u].role == WorkerOf(w) && Active(s.threads[t].at) && Active(s.threads[u].at)
             ==> t == u))
      && (forall t :: 0 <= t < |s.threads| && s.threads[t].role == WorkerOf(w) && Active(s.threads[t].at) ==>
            s.workers[w].handle == Joinable(t))
  {
    RunInv(states, events, n);
    var s := states[n];
    assert WorkerOwn(s, w);
    forall t | 0 <= t < |s.threads| && s.threads[t].role == WorkerOf(w) && Active(s.threads[t].at)
      ensures !s.workers[w].idle && s.workers[w].handle == Joinable(t)
    {
      assert ThreadOwn(s, t);
    }
    if !s.workers[w].idle {
      var t := s.workers[w].handle.t;
      assert s.threads[t].role == WorkerOf(w) && Active(s.threads[t].at);
    }
  }

  /**
   Joins: a thread is joined only after it terminated, by exactly one other thread; the thread waited for has left its
   work loop and owes nothing itself, so no cycle of joins can form.
   */
  lemma JoinsAreSafe(states: seq<State>, events: seq<Event>, n: nat, t: nat)
    requires IsRun(states, events) && n < |states| && t < |states[n].threads|
    ensures var s := states[n];
      && (s.threads[t].debt.OwesJoin? ==>
            var u := s.threads[t].debt.t;
            && u < |s.threads| && u != t && !Active(s.threads[u].at) && s.threads[u].debt == NoDebt && u !in s.joined
            && (forall d :: 0 <= d < |s.threads| && s.threads[d].debt == OwesJoin(u) ==> d == t))
      && (t in s.joined ==> s.threads[t].at == Terminated)
      && (s.threads[t].role.WorkerOf? ==>
            && s.threads[t].role.w < |s.workers|
            && ExactlyOne(s.workers[s.threads[t].role.w].handle == Joinable(t), t in s.joined, Owing(s, t)))
  {
    RunInv(states, events, n);
    var s := states[n];
    assert DebtOk(s, t) && Accounted(s, t) && ThreadOwn(s, t);
    if s.threads[t].debt.OwesJoin? {
      assert DebtOk(s, s.threads[t].debt.t) && ThreadOwn(s, s.threads[t].debt.t);
    }
    if Owing(s, t) {
      var d :| 0 <= d < |s.threads| && s.threads[d].debt == OwesJoin(t);
      assert DebtOk(s, d);
    }
  }

  predicate ExactlyOne(a: bool, b: bool, c: bool) {
    (a || b || c) && !(a && b) && !(a && c) && !(b && c)
  }

  /** The thread that this event joins, if it joins one. */
  ghost predicate JoinsThread(s: State, e: Event, u: nat) {
    || (e.PayDebt? && e.t < |s.threads| && s.threads[e.t].debt == OwesJoin(u))
    || (e.ShutdownStep? && s.shutdown.At? && s.shutdown.stage == Join
        && s.shutdown.w < |s.workers| && s.workers[s.shutdown.w].handle == Joinable(u))
  }

  /** A join is always of a terminated thread that nobody has joined, and from then on it counts as joined. */
  lemma JoinedOnce(states: seq<State>, events: seq<Event>, n: nat, u: nat)
    requires IsRun(states, events) && n < |events|
    ensures JoinsThread(states[n], events[n], u) ==>
      u < |states[n].threads| && states[n].threads[u].at == Terminated && u !in states[n].joined
    ensures u in states[n + 1].joined <==> u in states[n].joined || JoinsThread(states[n], events[n], u)
  {
    RunInv(states, events, n);
    assert Step(states[n], events[n], states[n + 1]);
    JoinStep(states[n], events[n], states[n + 1], u);
  }

  lemma JoinStep(s: State, e: Event, s': State, u: nat)
    requires Joins(s) && Owned(s) && Step(s, e, s')
    ensures JoinsThread(s, e, u) ==> u < |s.threads| && s.threads[u].at == Terminated && u !in s.joined
    ensures u in s'.joined <==> u in s.joined || JoinsThread(s, e, u)
  {
    if e.PayDebt? {
      assert DebtOk(s, e.t);
    } else if e.ShutdownStep? {
      assert WorkerOwn(s, s.shutdown.w);
    }
  }

  lemma PassedStep(s: State, e: Event, s': State, w: nat)
    requires Step(s, e, s') && Passed(s, w)
    ensures Passed(s', w)
  {
  }

  /** Once shutdown has returned for a worker, it is idle and joined, and both its queues stay empty for ever. */
  lemma {:induction false} ShutDownForEver(states: seq<State>, events: seq<Event>, i: nat, j: nat, w: nat)
    requires IsRun(states, events) && i <= j < |states| && w < |states[j].workers| && Passed(states[i], w)
    ensures var x := states[j].workers[w];
      && Passed(states[j], w) && x.abort && x.atomicAbort && x.idle && x.handle == NoThread
      && x.privateQueue == [] && x.publicQueue == []
  {
    PassedStays(states, events, i, j, w);
    RunInv(states, events, j);
    assert StageOk(states[j], w);
  }

  lemma {:induction false} PassedStays(states: seq<State>, events: seq<Event>, i: nat, j: nat, w: nat)
    requires IsRun(states, events) && i <= j < |states| && Passed(states[i], w)
    ensures Passed(states[j], w)
    decreases j
  {
    if i < j {
      PassedStays(states, events, i, j - 1, w);
      assert Step(states[j - 1], events[j - 1], states[j]);
      PassedStep(states[j - 1], events[j - 1], states[j], w);
    }
  }

  // ---------- wake-ups ----------

  /** A parked worker with queued tasks, or under shutdown, has a permit waiting or somebody about to release one. */
  lemma ParkedWorkersAreWoken(states: seq<State>, events: seq<Event>, n: nat, t: nat)
    requires IsRun(states, events) && n < |states| && t < |states[n].threads| && states[n].threads[t].at == Parked
    ensures var s := states[n];
      && s.threads[t].role.WorkerOf? && s.threads[t].role.w < |s.workers|
      && var w := s.threads[t].role.w;
         var x := s.workers[w];
      && (x.publicQueue != [] && !x.abort ==> x.found && (0 < x.semaphore || Owed(s, w)))
      && (x.abort ==> (0 < x.semaphore || Unreleased(s, w)) && (x.found || Unstored(s, w)))
  {
    RunInv(states, events, n);
    var s := states[n];
    assert ThreadOwn(s, t);
    var w := s.threads[t].role.w;
    assert PlaceOf(s, w) == Parked;
    assert WakeUp(s, w);
  }

  /** An idle worker that was left with tasks in its public queue, while no shutdown was requested. */
  ghost predicate Stranded(s: State, w: nat)
    requires w < |s.workers|
  {
    s.workers[w].idle && s.workers[w].publicQueue != [] && s.shutdown == NotRequested
  }

  lemma CalmIdle(w: nat, pool: nat, l: Local, claimed: seq<nat>)
    requires LocalEnabled(w, pool, l, claimed) && CalmOk(l) && !l.x.abort && !l.x.atomicAbort
    ensures LocalStep(w, pool, l, claimed).x.idle && !l.x.idle ==> l.at == TimedOut
  {
  }

  /** The step by which a worker gives up at its idle timeout although tasks are queued. */
  ghost predicate GivesUp(s: State, e: Event, w: nat)
    requires w < |s.workers|
  {
    && e.Work? && e.t < |s.threads|
    && s.threads[e.t].role == WorkerOf(w) && s.threads[e.t].at == TimedOut
    && s.workers[w].publicQueue != []
  }

  lemma WorkStrands(s: State, t: nat, claimed: seq<nat>, s': State, w: nat)
    requires Owned(s) && Stages(s) && Queues(s, false)
    requires Step(s, Work(t, claimed), s') && w < |s.workers| == |s'.workers|
    requires Stranded(s', w) && !Stranded(s, w)
    ensures GivesUp(s, Work(t, claimed), w)
  {
    assert StageOk(s, w);
    var v := s.threads[t].role.w;
    LocalKeeps(v, |s.workers|, LocalOf(s, t), claimed);
    assert ThreadOwn(s, t);
    if v == w && Active(s.threads[t].at) {
      assert PlaceOf(s, w) == s.threads[t].at;
      assert QueuesOk(LocalOf(s, t), true, false);
      CalmIdle(w, |s.workers|, LocalOf(s, t), claimed);
    }
  }

  lemma GivingUpStrands(s: State, e: Event, s': State, w: nat)
    requires Step(s, e, s') && w < |s.workers| == |s'.workers| && GivesUp(s, e, w) && s.shutdown == NotRequested
    ensures Stranded(s', w)
  {
  }

  /** No other step does. */
  lemma OthersDoNotStrand(s: State, e: Event, s': State, w: nat)
    requires Owned(s) && Step(s, e, s') && !e.Work? && w < |s.workers| == |s'.workers|
    ensures Stranded(s', w) ==> Stranded(s, w)
  {
    match e
    case Donate(t) => DonationDoesNotStrand(s, t, s', w);
    case EnqueueLocal(t, slots) => assert ThreadOwn(s, t);
    case _ =>
  }

  lemma DonationDoesNotStrand(s: State, t: nat, s': State, w: nat)
    requires Owned(s) && Step(s, Donate(t), s') && w < |s.workers| == |s'.workers|
    ensures Stranded(s', w) ==> Stranded(s, w)
  {
    assert ThreadOwn(s, t);
  }

  lemma StepKeepsCalm(s: State, e: Event, s': State)
    requires Step(s, e, s') && s'.shutdown == NotRequested
    ensures s.shutdown == NotRequested
  {
  }

  lemma StepKeepsPool(s: State, e: Event, s': State)
    requires Step(s, e, s')
    ensures |s'.workers| == |s.workers|
  {
  }

  /**
   A step leaves a worker idle with tasks queued, where it was not before, if and only if the worker gives up at its idle
   timeout while tasks are queued.
   */
  lemma OnlyTimeoutStrands(states: seq<State>, events: seq<Event>, n: nat, w: nat)
    requires IsRun(states, events) && n < |events| && w < |states[n].workers| && !Stranded(states[n], w)
    ensures |states[n + 1].workers| == |states[n].workers|
    ensures Stranded(states[n + 1], w) <==> GivesUp(states[n], events[n], w) && states[n].shutdown == NotRequested
  {
    RunInv(states, events, n);
    assert Step(states[n], events[n], states[n + 1]);
    StepKeepsPool(states[n], events[n], states[n + 1]);
    if Stranded(states[n + 1], w) {
      if events[n].Work? {
        WorkStrands(states[n], events[n].t, events[n].claimed, states[n + 1], w);
      } else {
        OthersDoNotStrand(states[n], events[n], states[n + 1], w);
      }
      StepKeepsCalm(states[n], events[n], states[n + 1]);
    } else if GivesUp(states[n], events[n], w) && states[n].shutdown == NotRequested {
      GivingUpStrands(states[n], events[n], states[n + 1], w);
    }
  }

  /** The event hands tasks to worker w, by an enqueue or by a donation. */
  ghost predicate DeliversTo(s: State, e: Event, w: nat) {
    || (e.Enqueue? && e.v == w)
    || (e.Donate? && DonateEnabled(s, e.t) && s.workers[s.threads[e.t].role.w].targets[s.threads[e.t].at.k] == w)
  }

  lemma StrandedStep(s: State, e: Event, s': State, w: nat)
    requires Owned(s) && Stages(s) && Step(s, e, s') && w < |s.workers| == |s'.workers| && Stranded(s, w)
    requires e != RequestShutdown && !DeliversTo(s, e, w)
    ensures Stranded(s', w)
  {
    assert StageOk(s, w);
    match e
    case Work(t, claimed) =>
      assert ThreadOwn(s, t);
      LocalKeeps(s.threads[t].role.w, |s.workers|, LocalOf(s, t), claimed);
    case Donate(t) => assert ThreadOwn(s, t);
    case EnqueueLocal(t, slots) => assert ThreadOwn(s, t);
    case _ =>
  }

  lemma RescueStep(s: State, e: Event, s': State, w: nat)
    requires Stages(s) && Step(s, e, s') && w < |s.workers| == |s'.workers| && Stranded(s, w)
    requires e == RequestShutdown || DeliversTo(s, e, w)
    ensures !Stranded(s', w)
  {
    assert StageOk(s, w);
  }

  /** A worker left behind in that way is so until tasks are handed to it again or the pool is shut down, and no longer. */
  lemma StrandingEnds(states: seq<State>, events: seq<Event>, n: nat, w: nat)
    requires IsRun(states, events) && n < |events| && w < |states[n].workers| && Stranded(states[n], w)
    ensures |states[n + 1].workers| == |states[n].workers|
    ensures !Stranded(states[n + 1], w) <==> events[n] == RequestShutdown || DeliversTo(states[n], events[n], w)
  {
    RunInv(states, events, n);
    assert Step(states[n], events[n], states[n + 1]);
    StepKeepsPool(states[n], events[n], states[n + 1]);
    if events[n] == RequestShutdown || DeliversTo(states[n], events[n], w) {
      RescueStep(states[n], events[n], states[n + 1], w);
    } else {
      StrandedStep(states[n], events[n], states[n + 1], w);
    }
  }

  // A run that strands a task: the queue drains, the wait times out, and the next task comes before the section.

  function Caller(debt: Debt): Thread {
    Thread(External, Outside, debt)
  }

  function TheThread(at: Place): Thread {
    Thread(WorkerOf(0), at, NoDebt)
  }

  function TheWorker(privateQueue: seq<Slot>, publicQueue: seq<Slot>, found: bool): Worker {
    Worker(privateQueue, publicQueue, 0, false, false, false, found, Joinable(1), [])
  }

  ghost function Last(states: seq<State>): State
    requires states != []
  {
    states[|states| - 1]
  }

  lemma GoOn(states: seq<State>, events: seq<Event>, e: Event) returns (states': seq<State>, events': seq<Event>)
    requires IsRun(states, events) && Enabled(Last(states), e)
    ensures IsRun(states', events') && Last(states') == Apply(Last(states), e)
  {
    var s := Apply(Last(states), e);
    Runs.Extend(Init, Step, states, events, e, s);
    states', events' := states + [s], events + [e];
  }

  /** The first task starts the worker's thread. */
  lemma StartsThread() returns (states: seq<State>, events: seq<Event>)
    ensures IsRun(states, events) && Last(states).shutdown == NotRequested
    ensures Last(states).workers == [TheWorker([], [Full(1)], true)]
    ensures Last(states).threads == [Caller(NoDebt), TheThread(Starting)]
  {
    var x := Worker([], [], 0, true, false, false, false, NoThread, []);
    states, events := [State([x], [], NotRequested, {}, multiset{}, multiset{}, multiset{})], [];
    states, events := GoOn(states, events, AddCaller);
    states, events := GoOn(states, events, Enqueue(0, 0, [Full(1)]));
    assert x.publicQueue + [Full(1)] == [Full(1)];
    assert Last(states).workers == [TheWorker([], [Full(1)], true)];
  }

  /** The worker drains its one task. */
  lemma DrainsTask() returns (states: seq<State>, events: seq<Event>)
    ensures IsRun(states, events) && Last(states).shutdown == NotRequested
    ensures Last(states).workers == [TheWorker([], [], false)]
    ensures Last(states).threads == [Caller(NoDebt), TheThread(Running(Full(1)))]
  {
    states, events := StartsThread();
    states, events := GoOn(states, events, Work(1, []));
    assert Last(states).workers == [TheWorker([Full(1)], [], false)];
    assert Last(states).threads == [Caller(NoDebt), TheThread(Draining)];
    states, events := GoOn(states, events, Work(1, []));
    assert Last(states).workers == [TheWorker([Full(1)], [], false)];
    assert Last(states).threads == [Caller(NoDebt), TheThread(CheckAbort)];
    states, events := GoOn(states, events, Work(1, []));
    assert Last(states).workers == [TheWorker([], [], false)];
  }

  /** It parks. */
  lemma Parks() returns (states: seq<State>, events: seq<Event>)
    ensures IsRun(states, events) && Last(states).shutdown == NotRequested
    ensures Last(states).workers == [TheWorker([], [], false)]
    ensures Last(states).threads == [Caller(NoDebt), TheThread(Parked)]
  {
    states, events := DrainsTask();
    states, events := GoOn(states, events, Work(1, []));
    assert Last(states).workers == [TheWorker([], [], false)];
    assert Last(states).threads == [Caller(NoDebt), TheThread(Draining)];
    states, events := GoOn(states, events, Work(1, []));
    assert Last(states).workers == [TheWorker([], [], false)];
    assert Last(states).threads == [Caller(NoDebt), TheThread(Starting)];
    states, events := GoOn(states, events, Work(1, []));
    assert Last(states).workers == [TheWorker([], [], false)];
  }

  /** Its wait times out. */
  lemma TimesOut() returns (states: seq<State>, events: seq<Event>)
    ensures IsRun(states, events) && Last(states).shutdown == NotRequested
    ensures Last(states).workers == [TheWorker([], [], false)]
    ensures Last(states).threads == [Caller(NoDebt), TheThread(TimedOut)]
  {
    states, events := Parks();
    states, events := GoOn(states, events, Timeout(1));
  }

  /** A task arrives before it closes its thread. */
  lemma TaskArrives() returns (states: seq<State>, events: seq<Event>)
    ensures IsRun(states, events) && Last(states).shutdown == NotRequested
    ensures Last(states).workers == [TheWorker([], [Full(2)], true)]
    ensures Last(states).threads == [Caller(OwesRelease(0)), TheThread(TimedOut)]
  {
    states, events := TimesOut();
    assert TheWorker([], [], false).publicQueue + [Full(2)] == [Full(2)];
    states, events := GoOn(states, events, Enqueue(0, 0, [Full(2)]));
    assert Last(states).workers == [TheWorker([], [Full(2)], true)];
  }

  /** A worker can be stranded: the task that came between the timeout and the section stays behind. */
  lemma StrandingExists() returns (states: seq<State>, events: seq<Event>)
    ensures IsRun(states, events) && |Last(states).workers| == 1
    ensures Stranded(Last(states), 0) && Last(states).workers[0].publicQueue == [Full(2)]
  {
    states, events := TaskArrives();
    states, events := GoOn(states, events, Work(1, []));
  }

  // ---------- the work loop never gets stuck, nor pops from an empty queue ----------

  /**
   A thread inside a work loop that owes nothing can always go on, unless it is parked without a permit: donations find
   their chunk, erasing leaves a task, and the pop after the abort check finds one, also after a donation threw.
   */
  lemma WorkLoopNeverStuck(states: seq<State>, events: seq<Event>, n: nat, t: nat)
    requires IsRun(states, events) && n < |states| && t < |states[n].threads|
    requires Active(states[n].threads[t].at) && states[n].threads[t].debt == NoDebt
    ensures var s := states[n];
      && (s.threads[t].at.Donating? ==> DonateEnabled(s, t))
      && (!s.threads[t].at.Donating? && s.threads[t].at != Parked ==> WorkEnabled(s, t, []))
      && (s.threads[t].at == CheckAbort ==>
            s.threads[t].role.w < |s.workers| && s.workers[s.threads[t].role.w].privateQueue != [])
  {
    RunInv(states, events, n);
    var s := states[n];
    assert ThreadOwn(s, t);
    var w := s.threads[t].role.w;
    assert PlaceOf(s, w) == s.threads[t].at;
    assert DonationOk(w, |s.workers|, Local(s.workers[w], PlaceOf(s, w)), Aborted(s));
  }

  // ---------- the assertions on the queues before a shutdown ----------

  ghost predicate FullStep(s: State, e: Event, s': State) {
    Step(s, e, s') && EnqueuesFull(e)
  }

  ghost predicate FullInv(s: State) {
    Inv(s) && Queues(s, true)
  }

  lemma FullStepInv(s: State, e: Event, s': State)
    requires FullInv(s) && FullStep(s, e, s')
    ensures FullInv(s')
  {
    StepInv(s, e, s');
    StepQueues(s, e, s', true);
  }

  lemma FullRuns(states: seq<State>, events: seq<Event>, n: nat)
    requires IsRun(states, events) && n < |states|
    requires forall i :: 0 <= i < |events| ==> EnqueuesFull(events[i])
    ensures Queues(states[n], true)
  {
    forall s | Init(s) ensures FullInv(s) {
      InitInv(s);
    }
    forall s, e, s' | FullInv(s) && FullStep(s, e, s') ensures FullInv(s') {
      FullStepInv(s, e, s');
    }
    assert Runs.IsRun(Init, FullStep, states, events);
    Runs.InvariantHolds(Init, FullStep, FullInv, states, events, n);
  }

  /**
   If only non-empty tasks are enqueued and no shutdown was requested: a worker that takes its public queue has an empty
   private one; during a donation exactly the tasks given away are empty; and after it exactly n / (peers + 1) tasks stay.
   */
  lemma QueueAssertionsHold(states: seq<State>, events: seq<Event>, n: nat, t: nat)
    requires IsRun(states, events) && n < |states| && t < |states[n].threads|
    requires forall i :: 0 <= i < |events| ==> EnqueuesFull(events[i])
    requires states[n].shutdown == NotRequested && Active(states[n].threads[t].at)
    ensures var s := states[n];
      && s.threads[t].role.WorkerOf? && s.threads[t].role.w < |s.workers|
      && var x := s.workers[s.threads[t].role.w];
         var at := s.threads[t].at;
      && (at == Starting || Waiting(at) ==> x.privateQueue == [])
      && (at.Donating? ==>
            && at.n == |x.privateQueue| && |x.targets| < at.n && ChunkStart(x, at.k, at.n) < at.n
            && (forall i :: 0 <= i < at.n ==> (x.privateQueue[i].Full? <==> ChunkStart(x, at.k, at.n) <= i)))
      && (at.Erasing? ==>
            && at.n == |x.privateQueue|
            && (forall i :: 0 <= i < at.n ==> (x.privateQueue[i].Full? <==> ChunkStart(x, |x.targets|, at.n) <= i))
            && |Erase(x).x.privateQueue| == at.n / (|x.targets| + 1) >= 1)
  {
    RunInv(states, events, n);
    FullRuns(states, events, n);
    var s := states[n];
    assert ThreadOwn(s, t);
    var w := s.threads[t].role.w;
    var x, at := s.workers[w], s.threads[t].at;
    assert PlaceOf(s, w) == at;
    assert QueuesOk(Local(x, at), true, true);
    assert DonationOk(w, |s.workers|, Local(x, at), Aborted(s));
    if at.Erasing? {
      EraseKeepsTask(x);
      PrefixEmptySuffixFull(x.privateQueue, ChunkStart(x, |x.targets|, at.n));
    } else if at.Donating? {
      assert Aborted(s) == {} by {
        forall v: nat | v < |s.workers| ensures !s.workers[v].abort {
          assert StageOk(s, v);
        }
      }
      OffsetMonotone(at.n, |x.targets| + 1, at.k, |x.targets| + 1);
      OffsetEnds(at.n, |x.targets| + 1);
      PrefixEmptySuffixFull(x.privateQueue, ChunkStart(x, at.k, at.n));
    }
  }

  lemma PrefixEmptySuffixFull(q: seq<Slot>, k: nat)
    requires k <= |q| && AllEmpty(q[..k]) && AllFull(q[k..])
    ensures forall i :: 0 <= i < |q| ==> (q[i].Full? <==> k <= i)
  {
    forall i | 0 <= i < |q| ensures q[i].Full? <==> k <= i {
      if i < k {
        assert q[i] == q[..k][i];
      } else {
        assert q[i] == q[k..][i - k];
      }
    }
  }
}
