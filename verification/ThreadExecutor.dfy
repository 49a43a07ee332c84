/**
 thread_executor: every task gets a thread of its own. A thread that is done retires: it takes the handle of the thread
 that retired before it, leaves its own for the next one, and joins its predecessor; shutdown waits until no thread
 works and joins the last. One event is one section under the mutex, one atomic exchange or one join.
 */
module ThreadExecutor {
  import Runs
  import opened Sequences

  /** A retiring thread has left its section and still has to join `previous`, if there is one. */
  datatype Place = Working | Retiring(previous: seq<nat>) | Terminated

  datatype Shutdown = NotRequested | Requested | Waiting | Joining | Returned

  /** `workers` is m_workers, newest first. `retired` and `joined` record who retired and who was joined, in order. */
  datatype State = State(threads: seq<Place>, workers: seq<nat>, lastRetired: seq<nat>, abort: bool, shutdown: Shutdown,
                         retired: seq<nat>, joined: seq<nat>)

  datatype Event =
    | Enqueue(count: nat)
    | Retire(t: nat)
    | JoinPrevious(t: nat)
    | ShutdownStep

  predicate CanJoin(s: State, handles: seq<nat>) {
    forall i :: 0 <= i < |handles| ==> handles[i] < |s.threads| && s.threads[handles[i]] == Terminated
  }

  predicate Enabled(s: State, e: Event) {
    match e
    case Enqueue(count) => true
    case Retire(t) => t < |s.threads| && s.threads[t] == Working
    case JoinPrevious(t) => t < |s.threads| && s.threads[t].Retiring? && CanJoin(s, s.threads[t].previous)
    case ShutdownStep =>
      match s.shutdown
      case Waiting => s.workers == []
      case Joining => CanJoin(s, s.lastRetired)
      case Returned => false
      case _ => true
  }

  /** enqueue_impl for each task. */
  function Launch(s: State, count: nat): State
    decreases count
  {
    if count == 0 then s
    else Launch(s.(threads := s.threads + [Working], workers := [|s.threads|] + s.workers), count - 1)
  }

  function Without(workers: seq<nat>, t: nat): seq<nat> {
    if workers == [] then [] else (if workers[0] == t then [] else [workers[0]]) + Without(workers[1..], t)
  }

  function Apply(s: State, e: Event): State
    requires Enabled(s, e)
  {
    match e
    case Enqueue(count) => if s.abort then s else Launch(s, count)
    case Retire(t) =>
      s.(threads := s.threads[t := Retiring(s.lastRetired)], lastRetired := [t], workers := Without(s.workers, t),
         retired := s.retired + [t])
    case JoinPrevious(t) =>
      s.(threads := s.threads[t := Terminated], joined := s.joined + s.threads[t].previous)
    case ShutdownStep =>
      match s.shutdown
      case NotRequested => s.(shutdown := Requested)
      case Requested => s.(shutdown := Waiting, abort := true)
      case Waiting => s.(shutdown := if s.lastRetired == [] then Returned else Joining)
      case Joining => s.(shutdown := Returned, lastRetired := [], joined := s.joined + s.lastRetired)
      case Returned => s
  }

  ghost predicate Init(s: State) {
    s == State([], [], [], false, NotRequested, [], [])
  }

  ghost predicate Step(s: State, e: Event, s': State) {
    Enabled(s, e) && s' == Apply(s, e)
  }

  ghost predicate IsRun(states: seq<State>, events: seq<Event>) {
    Runs.IsRun(Init, Step, states, events)
  }

  // ---------- the chain ----------

  /** The handle that the k-th thread to retire finds in m_last_retired. */
  ghost function Predecessor(retired: seq<nat>, k: nat): seq<nat>
    requires k <= |retired|
  {
    if k == 0 then [] else [retired[k - 1]]
  }

  /** The k-th thread to retire joins the one before it and nobody else; once it has terminated, it has done so. */
  ghost predicate Link(s: State, k: nat)
    requires k < |s.retired|
  {
    var t := s.retired[k];
    && t < |s.threads| && s.threads[t] != Working
    && (s.threads[t].Retiring? ==> s.threads[t].previous == Predecessor(s.retired, k))
    && (t in s.joined <==> (if k + 1 < |s.retired| then Done(s, k + 1) else s.shutdown.Returned?))
    && (t in s.joined ==> s.threads[t] == Terminated)
  }

  ghost predicate Done(s: State, k: nat)
    requires k < |s.retired|
  {
    s.retired[k] < |s.threads| && s.threads[s.retired[k]] == Terminated
  }

  ghost predicate Chain(s: State) {
    && (forall k :: 0 <= k < |s.retired| ==> Link(s, k))
    && Distinct(s.retired) && Distinct(s.joined)
    && (forall t :: t in s.joined ==> t in s.retired)
    && (s.shutdown.Returned? ==> s.lastRetired == [])
    && (!s.shutdown.Returned? ==> s.lastRetired == Predecessor(s.retired, |s.retired|))
  }

  /** m_workers holds exactly the threads that have not retired. */
  ghost predicate Workers(s: State) {
    && (forall t :: t in s.workers <==> 0 <= t < |s.threads| && s.threads[t] == Working)
    && (forall t :: 0 <= t < |s.threads| && s.threads[t] != Working ==> t in s.retired)
    && (s.abort <==> s.shutdown.Waiting? || s.shutdown.Joining? || s.shutdown.Returned?)
    && (s.shutdown.Joining? || s.shutdown.Returned? ==> s.workers == [])
  }

  lemma {:induction false} WithoutElements(workers: seq<nat>, t: nat)
    ensures forall u :: u in Without(workers, t) <==> u in workers && u != t
  {
    if workers != [] {
      WithoutElements(workers[1..], t);
    }
  }

  lemma {:induction false} LaunchInv(s: State, count: nat)
    requires Chain(s) && Workers(s) && !s.abort
    ensures Chain(Launch(s, count)) && Workers(Launch(s, count))
    decreases count
  {
    if count != 0 {
      var s' := s.(threads := s.threads + [Working], workers := [|s.threads|] + s.workers);
      LaunchOne(s, s');
      LaunchInv(s', count - 1);
    }
  }

  lemma LaunchOne(s: State, s': State)
    requires Chain(s) && Workers(s) && !s.abort
    requires s' == s.(threads := s.threads + [Working], workers := [|s.threads|] + s.workers)
    ensures Chain(s') && Workers(s')
  {
    forall k | 0 <= k < |s'.retired| ensures Link(s', k) {
      assert Link(s, k);
      if k + 1 < |s.retired| {
        assert Link(s, k + 1);
      }
    }
  }

  lemma RetireChain(s: State, t: nat)
    requires Chain(s) && Workers(s) && Enabled(s, Retire(t))
    ensures Chain(Apply(s, Retire(t)))
  {
    var s' := Apply(s, Retire(t));
    var last := |s.retired|;
    assert t !in s.retired by {
      forall k | 0 <= k < last ensures s.retired[k] != t {
        assert Link(s, k);
      }
    }
    assert t in s.workers;
    forall k | 0 <= k <= last ensures Link(s', k) {
      if k < last {
        assert Link(s, k) && s'.retired[k] == s.retired[k];
      }
      if k + 1 < last {
        assert Link(s, k + 1);
      }
    }
  }

  lemma RetireWorkers(s: State, t: nat)
    requires Workers(s) && Enabled(s, Retire(t))
    ensures Workers(Apply(s, Retire(t)))
  {
    WithoutElements(s.workers, t);
    assert t in s.workers;
    var s' := Apply(s, Retire(t));
    assert s'.retired[|s.retired|] == t;
  }

  /** The thread to be joined has not been joined before. */
  lemma FirstJoin(s: State, t: nat) returns (k: nat)
    requires Chain(s) && Workers(s) && Enabled(s, JoinPrevious(t))
    ensures k < |s.retired| && s.retired[k] == t && s.threads[t].previous == Predecessor(s.retired, k)
    ensures t !in s.threads[t].previous
    ensures forall u :: u in s.threads[t].previous ==> u !in s.joined
  {
    assert t in s.retired;
    k :| 0 <= k < |s.retired| && s.retired[k] == t;
    assert Link(s, k);
    if k > 0 {
      assert Link(s, k - 1);
    }
  }

  lemma JoinChain(s: State, t: nat)
    requires Chain(s) && Workers(s) && Enabled(s, JoinPrevious(t))
    ensures Chain(Apply(s, JoinPrevious(t)))
  {
    var k := FirstJoin(s, t);
    var s' := Apply(s, JoinPrevious(t));
    if k > 0 {
      assert Link(s, k - 1);
      AppendFresh(s.joined, s.retired[k - 1]);
    } else {
      assert s'.joined == s.joined;
    }
    forall i | 0 <= i < |s.retired| ensures Link(s', i) {
      assert Link(s, i);
      if i + 1 < |s.retired| {
        assert Link(s, i + 1);
      }
      if i + 1 == k {
        assert s'.joined[|s.joined|] == s.retired[i];
      }
    }
  }

  lemma ShutdownJoinChain(s: State)
    requires Chain(s) && s.shutdown.Joining? && Enabled(s, ShutdownStep)
    ensures Chain(Apply(s, ShutdownStep))
  {
    var s' := Apply(s, ShutdownStep);
    var last := |s.retired| - 1;
    if s.retired != [] {
      assert Link(s, last);
      assert s'.joined == s.joined + [s.retired[last]];
      assert s'.joined[|s.joined|] == s.retired[last];
    }
    forall k | 0 <= k < |s.retired| ensures Link(s', k) {
      assert Link(s, k);
      if k + 1 < |s.retired| {
        assert Link(s, k + 1);
      }
    }
  }

  lemma ShutdownChain(s: State)
    requires Chain(s) && !s.shutdown.Joining? && Enabled(s, ShutdownStep)
    ensures Chain(Apply(s, ShutdownStep))
  {
    forall k | 0 <= k < |s.retired| ensures Link(Apply(s, ShutdownStep), k) {
      assert Link(s, k);
      if k + 1 < |s.retired| {
        assert Link(s, k + 1);
      }
    }
  }

  ghost predicate Inv(s: State) {
    Chain(s) && Workers(s)
  }

  lemma StepInv(s: State, e: Event, s': State)
    requires Inv(s) && Step(s, e, s')
    ensures Inv(s')
  {
    match e
    case Enqueue(count) =>
      if !s.abort {
        LaunchInv(s, count);
      }
    case Retire(t) =>
      RetireChain(s, t);
      RetireWorkers(s, t);
    case JoinPrevious(t) => JoinChain(s, t);
    case ShutdownStep =>
      if s.shutdown.Joining? {
        ShutdownJoinChain(s);
      } else {
        ShutdownChain(s);
      }
  }

  lemma RunInv(states: seq<State>, events: seq<Event>, n: nat)
    requires IsRun(states, events) && n < |states|
    ensures Inv(states[n])
  {
    forall s, e, s' | Inv(s) && Step(s, e, s') ensures Inv(s') {
      StepInv(s, e, s');
    }
    Runs.InvariantHolds(Init, Step, Inv, states, events, n);
  }

  // ---------- what holds in every run ----------

  /**
   m_last_retired never holds more than one thread, and every join is along the order of retirement: a thread joins its
   predecessor only, so not itself, and there are no cycles.
   */
  lemma JoinsPredecessor(states: seq<State>, events: seq<Event>, n: nat, t: nat)
    requires IsRun(states, events) && n < |states| && t < |states[n].threads| && states[n].threads[t].Retiring?
    ensures |states[n].lastRetired| <= 1
    ensures exists k :: && 0 <= k < |states[n].retired| && states[n].retired[k] == t
                        && states[n].threads[t].previous == Predecessor(states[n].retired, k)
    ensures t !in states[n].threads[t].previous && Distinct(states[n].retired)
  {
    RunInv(states, events, n);
    var s := states[n];
    assert t in s.retired;
    var k :| 0 <= k < |s.retired| && s.retired[k] == t;
    assert Link(s, k);
    if k > 0 {
      assert Link(s, k - 1);
    }
  }

  /** No thread is joined twice: the handle that a join names is of a thread nobody has joined. */
  lemma JoinedOnce(states: seq<State>, events: seq<Event>, n: nat)
    requires IsRun(states, events) && n < |events|
    ensures Distinct(states[n].joined) && Distinct(states[n + 1].joined)
    ensures events[n].JoinPrevious? && events[n].t < |states[n].threads| && states[n].threads[events[n].t].Retiring? ==>
              forall u :: u in states[n].threads[events[n].t].previous ==> u !in states[n].joined
  {
    RunInv(states, events, n);
    RunInv(states, events, n + 1);
    assert Step(states[n], events[n], states[n + 1]);
    if events[n].JoinPrevious? {
      var k := FirstJoin(states[n], events[n].t);
    }
  }

  /** The chain never locks up: unless all retired threads have terminated, the first one that has not can. */
  lemma ChainMoves(states: seq<State>, events: seq<Event>, n: nat, k: nat)
    requires IsRun(states, events) && n < |states| && k < |states[n].retired| && !Done(states[n], k)
    requires forall i :: 0 <= i < k ==> Done(states[n], i)
    ensures Enabled(states[n], JoinPrevious(states[n].retired[k]))
  {
    RunInv(states, events, n);
    assert Link(states[n], k);
    if k > 0 {
      assert Link(states[n], k - 1) && Done(states[n], k - 1);
    }
  }

  lemma {:induction false} AllJoined(s: State, k: nat)
    requires Chain(s) && s.shutdown.Returned? && k < |s.retired|
    ensures s.retired[k] in s.joined && Done(s, k)
    decreases |s.retired| - k
  {
    assert Link(s, k);
    if k + 1 < |s.retired| {
      AllJoined(s, k + 1);
    }
  }

  /** When shutdown has returned, every thread ever launched has terminated and was joined exactly once. */
  lemma ShutdownJoinsAll(states: seq<State>, events: seq<Event>, n: nat)
    requires IsRun(states, events) && n < |states| && states[n].shutdown.Returned?
    ensures forall t :: 0 <= t < |states[n].threads| ==> states[n].threads[t] == Terminated && t in states[n].joined
    ensures Distinct(states[n].joined) && states[n].workers == [] && states[n].lastRetired == []
  {
    RunInv(states, events, n);
    var s := states[n];
    forall t | 0 <= t < |s.threads| ensures s.threads[t] == Terminated && t in s.joined {
      assert t !in s.workers;
      assert t in s.retired;
      var k :| 0 <= k < |s.retired| && s.retired[k] == t;
      AllJoined(s, k);
    }
  }

  /** The assertions on |m_last_retired| hold, and one thread at most waits to be joined by shutdown. */
  lemma ShutdownFindsOne(states: seq<State>, events: seq<Event>, n: nat)
    requires IsRun(states, events) && n < |states| && states[n].shutdown.Joining?
    ensures |states[n].lastRetired| <= 1
    ensures forall u :: u in states[n].lastRetired ==> u !in states[n].joined
  {
    RunInv(states, events, n);
    var s := states[n];
    if s.retired != [] {
      assert Link(s, |s.retired| - 1);
    }
  }

  // ---------- a thread per task ----------

  /** What enqueue of `count` tasks leaves: as many new working threads, and the list with all of them, newest first. */
  ghost predicate Grown(s: State, count: nat, s': State) {
    && |s'.threads| == |s.threads| + count && s'.threads[..|s.threads|] == s.threads
    && (forall t :: |s.threads| <= t < |s'.threads| ==> s'.threads[t] == Working)
    && |s'.workers| == |s.workers| + count && s'.workers[count..] == s.workers
    && (forall i :: 0 <= i < count ==> s'.workers[i] == |s'.threads| - 1 - i)
    && s' == s.(threads := s'.threads, workers := s'.workers)
  }

  lemma {:induction false} LaunchGrows(s: State, count: nat)
    ensures Grown(s, count, Launch(s, count))
    decreases count
  {
    if count > 0 {
      var s1 := s.(threads := s.threads + [Working], workers := [|s.threads|] + s.workers);
      LaunchGrows(s1, count - 1);
      var s' := Launch(s, count);
      assert s'.threads[..|s.threads|] == s'.threads[..|s1.threads|][..|s.threads|];
      assert s'.workers[count..] == s'.workers[count - 1..][1..];
      assert s'.workers[count - 1] == s'.workers[count - 1..][0];
    }
  }

  /** The tasks of the enqueue calls so far that were not refused. */
  ghost function Accepted(states: seq<State>, events: seq<Event>, n: nat): nat
    requires n <= |events| < |states|
  {
    if n == 0 then 0
    else Accepted(states, events, n - 1)
         + (if events[n - 1].Enqueue? && !states[n - 1].abort then events[n - 1].count else 0)
  }

  /** Every task of every enqueue call that was not refused has a thread of its own, and there are no other threads. */
  lemma {:induction false} ThreadPerTask(states: seq<State>, events: seq<Event>, n: nat)
    requires IsRun(states, events) && n <= |events|
    ensures |states[n].threads| == Accepted(states, events, n)
  {
    if n > 0 {
      ThreadPerTask(states, events, n - 1);
      assert Step(states[n - 1], events[n - 1], states[n]);
      if events[n - 1].Enqueue? {
        LaunchGrows(states[n - 1], events[n - 1].count);
      }
    }
  }

  /**
   A thread works until it retires, and is retiring until it has joined whom it found in m_last_retired; in its own steps and
   in no others. A refused enqueue changes nothing, and only a refused one launches less than it was given.
   */
  lemma ThreadLife(states: seq<State>, events: seq<Event>, n: nat)
    requires IsRun(states, events) && n < |events|
    ensures var s, e, s' := states[n], events[n], states[n + 1];
      && |s.threads| <= |s'.threads|
      && (forall t: nat :: t < |s.threads| ==>
            && (s'.threads[t] == if e == Retire(t) then Retiring(s.lastRetired)
                                 else if e == JoinPrevious(t) then Terminated else s.threads[t]))
      && (e.Enqueue? ==> if s.abort then s' == s else Grown(s, e.count, s'))
      && (e.Retire? ==> s'.lastRetired == [e.t] && forall u :: u in s'.workers <==> u in s.workers && u != e.t)
  {
    var s, e, s' := states[n], events[n], states[n + 1];
    assert Step(s, e, s');
    if e.Enqueue? && !s.abort {
      LaunchGrows(s, e.count);
      forall t: nat | t < |s.threads| ensures s'.threads[t] == s.threads[t] {
        assert s'.threads[..|s.threads|][t] == s.threads[t];
      }
    } else if e.Retire? {
      WithoutElements(s.workers, e.t);
    }
  }

  // ---------- the executor as an object ----------

  /** Its sections update the two lists; each is the event of the step system that it stands for. */
  class ThreadExecutor {
    var workers: seq<nat>
    var lastRetired: seq<nat>
    var abort: bool
    var launched: nat

    /** The whole system; the real fields agree with it. */
    ghost var state: State

    ghost predicate Valid()
      reads this
    {
      && Inv(state)
      && workers == state.workers && lastRetired == state.lastRetired && abort == state.abort
      && launched == |state.threads|
    }

    constructor ()
      ensures Valid() && Init(state)
    {
      workers, lastRetired, abort, launched := [], [], false, 0;
      state := State([], [], [], false, NotRequested, [], []);
      new;
      RunInv([state], [], 0);
    }

    /** enqueue of a span of tasks: one new thread each. */
    method Enqueue(count: nat) returns (accepted: bool)
      requires Valid()
      modifies this
      ensures Valid() && state == Apply(old(state), Event.Enqueue(count)) && accepted == !old(abort)
      ensures if accepted then Grown(old(state), count, state) && launched == old(launched) + count
              else state == old(state)
    {
      LaunchGrows(state, count);
      StepInv(state, Event.Enqueue(count), Apply(state, Event.Enqueue(count)));
      accepted := !abort;
      if abort {
        return;
      }
      for i := 0 to count
        invariant workers == state.workers && lastRetired == state.lastRetired && abort == state.abort
        invariant launched == |state.threads| && Launch(state, count - i) == Launch(old(state), count)
      {
        workers := [launched] + workers;
        launched := launched + 1;
        state := state.(threads := state.threads + [Working], workers := [|state.threads|] + state.workers);
      }
    }

    /** retire_worker's section: returns the thread to join, if there is one. */
    method RetireWorker(t: nat) returns (previous: seq<nat>)
      requires Valid() && Enabled(state, Retire(t))
      modifies this
      ensures Valid() && state == Apply(old(state), Retire(t))
      ensures |previous| <= 1 && state.threads[t] == Retiring(previous)
      ensures previous == old(lastRetired) && lastRetired == [t]
    {
      StepInv(state, Retire(t), Apply(state, Retire(t)));
      state := Apply(state, Retire(t));
      previous := lastRetired;
      lastRetired := [t];
      workers := Without(workers, t);
    }

    /** shutdown after the wait: `last` is the thread it joins before it clears the list. */
    method EndShutdown() returns (last: seq<nat>)
      requires Valid() && state.shutdown == Waiting && Enabled(state, ShutdownStep)
      modifies this
      ensures Valid() && state == Apply(old(state), ShutdownStep)
      ensures |last| <= 1 && last == lastRetired && (last == [] <==> state.shutdown == Returned)
    {
      StepInv(state, ShutdownStep, Apply(state, ShutdownStep));
      state := Apply(state, ShutdownStep);
      last := lastRetired;
    }
  }
}
