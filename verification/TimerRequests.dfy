/**
 What becomes of the calls that make and cancel timers, in every run: a timer is in the queue's books exactly if a call made
 it before the abort, and no cancellation is lost.
 */
module TimerRequests {
  import Runs
  import opened TimerSet
  import opened TimerPass
  import opened TimerLifecycle

  // ---------- the calls of the past ----------

  ghost predicate MadeAt(states: seq<State>, events: seq<Event>, i: nat, timer: Timer)
    requires i < |events| < |states|
  {
    events[i] == MakeTimer(timer) && !states[i].abort
  }

  ghost predicate Made(states: seq<State>, events: seq<Event>, n: nat, timer: Timer)
    requires n <= |events| < |states|
  {
    exists i :: 0 <= i < n && MadeAt(states, events, i, timer)
  }

  ghost predicate CancelledBefore(events: seq<Event>, n: nat, timer: Timer)
    requires n <= |events|
  {
    exists i :: 0 <= i < n && events[i] == Cancel(timer)
  }

  /** A timer is accepted exactly if it was made before the abort, and cancelled exactly if cancel was called for it. */
  lemma {:induction false} CallsAreRecorded(states: seq<State>, events: seq<Event>, n: nat, timer: Timer)
    requires IsRun(states, events) && n <= |events|
    ensures timer in states[n].accepted <==> Made(states, events, n, timer)
    ensures timer in states[n].cancelled <==> CancelledBefore(events, n, timer)
  {
    if n > 0 {
      CallsAreRecorded(states, events, n - 1, timer);
      assert Step(states[n - 1], events[n - 1], states[n]);
      if MadeAt(states, events, n - 1, timer) {
        assert Made(states, events, n, timer);
      }
    }
  }

  /** Making a timer queues its request and leaves a worker running; after the abort it changes nothing. */
  lemma MakingQueuesTheRequest(states: seq<State>, events: seq<Event>, n: nat)
    requires IsRun(states, events) && n < |events| && events[n].MakeTimer?
    ensures var s, s', timer := states[n], states[n + 1], events[n].timer;
      && (s.abort ==> s' == s)
      && (!s.abort ==>
            && s'.requests == s.requests + [Request(timer, Add)] && !s'.idle && Current(s').at != Exited
            && s'.handle == Joinable(|s'.loops| - 1)
            && |s'.loops| == |s.loops| + (if s.idle then 1 else 0)
            && s'.joining == s.joining + (if s.idle && s.handle.Joinable? then {s.handle.t} else {}))
  {
    RunInv(states, events, n + 1);
    assert Step(states[n], events[n], states[n + 1]);
    if states[n + 1].loops != [] {
      assert Newest(states[n + 1], |states[n + 1].loops| - 1);
    }
    RunInv(states, events, n);
    if states[n].loops != [] {
      assert Newest(states[n], |states[n].loops| - 1);
    }
  }

  // ---------- no cancellation is lost ----------

  /** No add of this timer comes after a remove of it. */
  ghost predicate Ordered(requests: seq<Request>, timer: Timer) {
    forall i, j :: 0 <= i < j < |requests| && requests[i] == Request(timer, Remove) ==> requests[j] != Request(timer, Add)
  }

  /** What the worker has yet to apply. */
  ghost function Pending(s: State): seq<Request> {
    Current(s).batch + s.requests
  }

  ghost predicate CancelOk(s: State, timer: Timer) {
    && (timer in s.cancelled ==> timer in s.accepted)
    && Ordered(Pending(s), timer)
    && (timer !in s.cancelled ==> Request(timer, Remove) !in Pending(s))
    && (timer !in s.accepted ==> Request(timer, Add) !in Pending(s))
    && (timer in s.cancelled && !s.abort ==>
          timer in s.removing || timer in s.finished || Request(timer, Remove) in Pending(s))
  }

  /** A batch with a remove request takes the timer out of the set. */
  lemma {:induction false} RemoveTakesOut(timers: set<Timer>, batch: seq<Request>, timer: Timer)
    requires Request(timer, Remove) in batch && Ordered(batch, timer)
    ensures timer !in AfterRequests(timers, batch)
    decreases |batch|
  {
    var rest := batch[1..];
    forall i, j | 0 <= i < j < |rest| && rest[i] == Request(timer, Remove) ensures rest[j] != Request(timer, Add) {
      assert batch[i + 1] == rest[i] && batch[j + 1] == rest[j];
    }
    if Request(timer, Remove) in rest {
      RemoveTakesOut(AfterRequest(timers, batch[0]), rest, timer);
    } else {
      forall j | 0 <= j < |rest| ensures rest[j] != Request(timer, Add) {
        assert batch[j + 1] == rest[j];
      }
      NotMentioned(AfterRequest(timers, batch[0]), rest, timer);
    }
  }

  lemma {:induction false} NotMentioned(timers: set<Timer>, batch: seq<Request>, timer: Timer)
    requires timer !in timers && Request(timer, Add) !in batch
    ensures timer !in AfterRequests(timers, batch)
    decreases |batch|
  {
    if batch != [] {
      NotMentioned(AfterRequest(timers, batch[0]), batch[1..], timer);
    }
  }

  lemma OrderedAppend(requests: seq<Request>, r: Request, timer: Timer)
    requires Ordered(requests, timer)
    requires r == Request(timer, Add) ==> Request(timer, Remove) !in requests
    ensures Ordered(requests + [r], timer)
  {
    var after := requests + [r];
    forall i, j | 0 <= i < j < |after| && after[i] == Request(timer, Remove) ensures after[j] != Request(timer, Add) {
      assert after[i] == requests[i];
    }
  }

  /** The pass of a batch that removes the timer finishes it, unless it was finished before. */
  lemma PassCancels(s: State, t: nat, left: set<Timer>, timer: Timer)
    requires Inv(s) && Enabled(s, FirePass(t, left)) && CancelOk(s, timer) && timer in s.cancelled && !s.abort
    requires Request(timer, Remove) in s.loops[t].batch && s.destroyed == {}
    ensures timer in Apply(s, FirePass(t, left)).finished
  {
    assert LoopOk(s, t) && Conserved(s, timer);
    var batch := s.loops[t].batch;
    var i :| 0 <= i < |batch| && batch[i] == Request(timer, Remove);
    forall a, b | 0 <= a < b < |batch| && batch[a] == Request(timer, Remove) ensures batch[b] != Request(timer, Add) {
      assert Pending(s)[a] == batch[a] && Pending(s)[b] == batch[b];
    }
    RemoveTakesOut(s.loops[t].timers, batch, timer);
    forall j | 0 <= j < |s.requests| ensures s.requests[j] != Request(timer, Add) {
      assert Pending(s)[i] == batch[i] && Pending(s)[|batch| + j] == s.requests[j];
    }
    AddCountIsAdded(s.requests, timer);
    AddCountIsAdded(batch, timer);
  }

  ghost predicate Cancels(s: State) {
    Inv(s) && (!s.abort ==> s.destroyed == {}) && forall timer :: CancelOk(s, timer)
  }

  lemma StepCancelOk(s: State, e: Event, s': State, timer: Timer)
    requires Cancels(s) && Step(s, e, s')
    ensures CancelOk(s', timer)
  {
    assert CancelOk(s, timer);
    match e
    case MakeTimer(u) => MakeCancelOk(s, u, s', timer);
    case PushRemove(u) =>
      assert Pending(s') == Pending(s) + [Request(u, Remove)];
      OrderedAppend(Pending(s), Request(u, Remove), timer);
      assert Pending(s')[|Pending(s)|] == Request(u, Remove);
    case TakeBatch(t) =>
      assert LoopOk(s, t);
      assert Pending(s') == Pending(s);
    case IdleExit(t) =>
      assert LoopOk(s, t);
      assert Pending(s') == Pending(s);
    case AbortExit(t) =>
      assert LoopOk(s, t);
      assert Pending(s') == Pending(s);
    case FirePass(t, left) => PassCancelOk(s, t, left, s', timer);
    case ShutdownSection => SectionCancelOk(s, s', timer);
    case _ =>
      assert Pending(s') == Pending(s);
  }

  lemma MakeCancelOk(s: State, u: Timer, s': State, timer: Timer)
    requires Cancels(s) && CancelOk(s, timer) && Step(s, MakeTimer(u), s')
    ensures CancelOk(s', timer)
  {
    if s.loops != [] {
      assert LoopOk(s, |s.loops| - 1) && Newest(s, |s.loops| - 1);
    }
    if !s.abort {
      assert Pending(s') == Pending(s) + [Request(u, Add)];
      OrderedAppend(Pending(s), Request(u, Add), timer);
    }
  }

  /** What is left of a sequence keeps its order. */
  lemma OrderedSuffix(requests: seq<Request>, k: nat, timer: Timer)
    requires k <= |requests| && Ordered(requests, timer)
    ensures Ordered(requests[k..], timer)
  {
    var rest := requests[k..];
    forall i, j | 0 <= i < j < |rest| && rest[i] == Request(timer, Remove) ensures rest[j] != Request(timer, Add) {
      assert requests[k + i] == rest[i] && requests[k + j] == rest[j];
    }
  }

  lemma PassCancelOk(s: State, t: nat, left: set<Timer>, s': State, timer: Timer)
    requires Cancels(s) && CancelOk(s, timer) && Step(s, FirePass(t, left), s')
    ensures CancelOk(s', timer)
  {
    assert LoopOk(s, t);
    assert Pending(s') == s.requests == Pending(s)[|s.loops[t].batch|..];
    OrderedSuffix(Pending(s), |s.loops[t].batch|, timer);
    if timer in s.cancelled && !s.abort && Request(timer, Remove) in s.loops[t].batch {
      PassCancels(s, t, left, timer);
    }
  }

  lemma SectionCancelOk(s: State, s': State, timer: Timer)
    requires Cancels(s) && CancelOk(s, timer) && Step(s, ShutdownSection, s')
    ensures CancelOk(s', timer)
  {
    if s.handle != NoThread {
      var batch := Current(s).batch;
      assert Pending(s') == batch;
      forall i, j | 0 <= i < j < |batch| && batch[i] == Request(timer, Remove) ensures batch[j] != Request(timer, Add) {
        assert Pending(s)[i] == batch[i] && Pending(s)[j] == batch[j];
      }
    } else {
      assert Pending(s') == Pending(s);
    }
  }

  lemma RunCancels(states: seq<State>, events: seq<Event>, n: nat)
    requires IsRun(states, events) && n < |states|
    ensures Cancels(states[n])
  {
    forall s, e, s' | Cancels(s) && Step(s, e, s') ensures Cancels(s') {
      StepInv(s, e, s');
      forall timer ensures CancelOk(s', timer) {
        StepCancelOk(s, e, s', timer);
      }
    }
    Runs.InvariantHolds(Init, Step, Cancels, states, events, n);
  }

  /**
   No cancellation is lost before the abort: until a cancelled timer is out of the worker's hands for good, its cancel has yet
   to push the remove request, or the request waits to be applied. So a worker that has applied all requests holds no
   timer whose cancel has returned.
   */
  lemma CancelTakesEffect(states: seq<State>, events: seq<Event>, n: nat, timer: Timer)
    requires IsRun(states, events) && n <= |events|
    requires CancelledBefore(events, n, timer) && !states[n].abort
    ensures var s := states[n];
      && (timer in s.removing || timer in s.finished
          || Request(timer, Remove) in s.requests || Request(timer, Remove) in Current(s).batch)
      && (timer !in s.removing && s.requests == [] && Current(s).at == Waiting ==>
            timer in s.finished && timer !in Current(s).timers)
  {
    CallsAreRecorded(states, events, n, timer);
    RunCancels(states, events, n);
    var s := states[n];
    assert CancelOk(s, timer) && Conserved(s, timer);
    if s.loops != [] {
      assert LoopOk(s, |s.loops| - 1);
    }
  }
}
