/**
 timer_queue: threads that make and cancel timers, the worker thread that owns the timers, its idle exit and restart, and
 shutdown. One event is one section under the queue's mutex, one atomic store, one join, or one firing pass, which only
 touches what its own thread owns.
 */
module TimerLifecycle {
  import Runs
  import opened Sequences
  import opened TimerSet
  import opened TimerPass

  /** A work_loop: about to lock or waiting, processing a batch outside the lock, or returned. */
  datatype Place = Waiting | Processing | Exited

  datatype Loop = Loop(at: Place, batch: seq<Request>, timers: set<Timer>)

  datatype Handle = NoThread | Joinable(t: nat)

  datatype Shutdown = NotRequested | Requested | Joining | Returned

  /**
   `removing` are timers whose cancel has stored the flag and not yet pushed its request; `joining` are old workers that
   a thread making a timer has yet to join. The last four fields record the past.
   */
  datatype State = State(requests: seq<Request>, idle: bool, abort: bool, handle: Handle, loops: seq<Loop>,
                         cancelled: set<Timer>, removing: set<Timer>, joining: set<nat>, shutdown: Shutdown,
                         joined: seq<nat>, accepted: set<Timer>, finished: set<Timer>, destroyed: set<Timer>)

  datatype Event =
    | MakeTimer(timer: Timer)
    | JoinOldWorker(t: nat)
    | Cancel(timer: Timer)
    | PushRemove(timer: Timer)
    | TakeBatch(t: nat)
    | IdleExit(t: nat)
    | AbortExit(t: nat)
    | FirePass(t: nat, left: set<Timer>)
    | RequestShutdown
    | ShutdownSection
    | ShutdownJoin

  predicate Waits(s: State, t: nat) {
    t < |s.loops| && s.loops[t].at == Waiting
  }

  /** What a batch adds, whether or not it is removed again. */
  function Added(batch: seq<Request>): set<Timer> {
    set r | r in batch && r.op == Add :: r.timer
  }

  predicate Enabled(s: State, e: Event) {
    match e
    case MakeTimer(timer) => timer !in s.accepted
    case JoinOldWorker(t) => t in s.joining && t < |s.loops| && s.loops[t].at == Exited
    case Cancel(timer) => timer in s.accepted && timer !in s.cancelled
    case PushRemove(timer) => timer in s.removing
    case TakeBatch(t) => Waits(s, t) && !s.abort && (s.requests != [] || s.loops[t].timers != {})
    case IdleExit(t) => Waits(s, t) && !s.abort && s.requests == [] && s.loops[t].timers == {}
    case AbortExit(t) => Waits(s, t) && s.abort
    case FirePass(t, left) => t < |s.loops| && s.loops[t].at == Processing && IsPass(s.loops[t], s.cancelled, left)
    case RequestShutdown => s.shutdown == NotRequested
    case ShutdownSection => s.shutdown == Requested
    case ShutdownJoin =>
      s.shutdown == Joining && s.handle.Joinable? && s.handle.t < |s.loops| && s.loops[s.handle.t].at == Exited
  }

  /** A firing pass may drop one-shot and cancelled timers only. */
  predicate IsPass(l: Loop, cancelled: set<Timer>, left: set<Timer>) {
    && left <= AfterRequests(l.timers, l.batch)
    && forall t :: t in AfterRequests(l.timers, l.batch) - left ==> t.isOneshot || t in cancelled
  }

  /** add_timer once m_abort was found false. */
  function ApplyMakeTimer(s: State, timer: Timer): State {
    var s := s.(requests := s.requests + [Request(timer, Add)], accepted := s.accepted + {timer});
    if !s.idle then s
    else s.(idle := false, loops := s.loops + [Loop(Waiting, [], {})], handle := Joinable(|s.loops|),
            joining := if s.handle.Joinable? then s.joining + {s.handle.t} else s.joining)
  }

  function SetLoop(s: State, t: nat, l: Loop): State
    requires t < |s.loops|
  {
    s.(loops := s.loops[t := l])
  }

  function Apply(s: State, e: Event): State
    requires Enabled(s, e)
  {
    match e
    case MakeTimer(timer) => if s.abort then s else ApplyMakeTimer(s, timer)
    case JoinOldWorker(t) => s.(joining := s.joining - {t}, joined := s.joined + [t])
    case Cancel(timer) => s.(cancelled := s.cancelled + {timer}, removing := s.removing + {timer})
    case PushRemove(timer) =>
      s.(removing := s.removing - {timer}, requests := s.requests + [Request(timer, Remove)])
    case TakeBatch(t) => SetLoop(s, t, s.loops[t].(at := Processing, batch := s.requests)).(requests := [])
    case IdleExit(t) => SetLoop(s, t, Loop(Exited, [], {})).(idle := true)
    case AbortExit(t) => SetLoop(s, t, Loop(Exited, [], {})).(destroyed := s.destroyed + s.loops[t].timers)
    case FirePass(t, left) =>
      var l := s.loops[t];
      SetLoop(s, t, Loop(Waiting, [], left)).(finished := s.finished + (l.timers + Added(l.batch) - left))
    case RequestShutdown => s.(shutdown := Requested)
    case ShutdownSection =>
      if s.handle == NoThread then s.(abort := true, shutdown := Returned)
      else s.(abort := true, shutdown := Joining, requests := [], destroyed := s.destroyed + Added(s.requests))
    case ShutdownJoin =>
      s.(shutdown := Returned, joined := if s.handle.Joinable? then s.joined + [s.handle.t] else s.joined,
         handle := NoThread)
  }

  ghost predicate Init(s: State) {
    s == State([], true, false, NoThread, [], {}, {}, {}, NotRequested, [], {}, {}, {})
  }

  ghost predicate Step(s: State, e: Event, s': State) {
    Enabled(s, e) && s' == Apply(s, e)
  }

  ghost predicate IsRun(states: seq<State>, events: seq<Event>) {
    Runs.IsRun(Init, Step, states, events)
  }

  // ---------- who is alive and who is joined ----------

  ghost predicate Gone(l: Loop) {
    l == Loop(Exited, [], {})
  }

  ghost predicate LoopOk(s: State, t: nat)
    requires t < |s.loops|
  {
    && (s.loops[t].at != Processing ==> s.loops[t].batch == [])
    && (s.loops[t].at == Exited ==> Gone(s.loops[t]))
    && (t < |s.loops| - 1 ==> s.loops[t].at == Exited)
    && (t < |s.loops| - 1 ==> (t in s.joining <==> t !in s.joined))
  }

  ghost predicate Threads(s: State) {
    && (forall t :: 0 <= t < |s.loops| ==> LoopOk(s, t))
    && (forall t :: t in s.joining ==> t < |s.loops| - 1)
    && (forall t :: t in s.joined ==> t < |s.loops|) && Distinct(s.joined)
    && (s.loops == [] ==> s.handle == NoThread && s.idle)
    && (s.loops != [] ==> Newest(s, |s.loops| - 1))
    && (s.abort <==> s.shutdown.Joining? || s.shutdown.Returned?)
    && (s.shutdown.Joining? ==> s.handle.Joinable?)
  }

  /** The newest worker: it runs unless the queue is idle or aborting, and the handle names it until shutdown joins it. */
  ghost predicate Newest(s: State, t: nat)
    requires t < |s.loops|
  {
    && (!s.abort ==> (s.idle <==> s.loops[t].at == Exited))
    && (s.handle == Joinable(t) || s.handle == NoThread)
    && (s.handle == NoThread <==> s.shutdown.Returned?)
    && (s.handle == NoThread <==> t in s.joined)
    && (s.handle == NoThread ==> s.loops[t].at == Exited)
  }

  lemma StepThreads(s: State, e: Event, s': State)
    requires Threads(s) && Step(s, e, s')
    ensures Threads(s')
  {
    if e.TakeBatch? || e.IdleExit? || e.AbortExit? || e.FirePass? {
      assert LoopOk(s, e.t);
    }
    StepLoops(s, e, s');
    StepJoined(s, e, s');
  }

  /** Whoever is joined was not joined before. */
  lemma StepJoined(s: State, e: Event, s': State)
    requires Threads(s) && Step(s, e, s')
    ensures Distinct(s'.joined)
  {
    if e.JoinOldWorker? {
      assert LoopOk(s, e.t);
      AppendFresh(s.joined, e.t);
    } else if e.ShutdownJoin? {
      assert Newest(s, |s.loops| - 1);
      AppendFresh(s.joined, s.handle.t);
    }
  }

  lemma StepLoops(s: State, e: Event, s': State)
    requires Threads(s) && Step(s, e, s')
    ensures forall t :: 0 <= t < |s'.loops| ==> LoopOk(s', t)
  {
    forall t | 0 <= t < |s'.loops| ensures LoopOk(s', t) {
      if t < |s.loops| {
        assert LoopOk(s, t);
      }
    }
  }

  // ---------- requests ----------

  ghost predicate RemovesCancelled(requests: seq<Request>, cancelled: set<Timer>) {
    forall r :: r in requests && r.op == Remove ==> r.timer in cancelled
  }

  ghost predicate Requests(s: State) {
    && RemovesCancelled(s.requests, s.cancelled)
    && s.removing <= s.cancelled
    && (forall t :: 0 <= t < |s.loops| ==> RemovesCancelled(s.loops[t].batch, s.cancelled))
    && (forall t :: t in s.finished ==> t.isOneshot || t in s.cancelled)
    && (s.idle || s.abort ==> Added(s.requests) == {})
  }

  /** Only a remove request takes a timer away while a batch is applied. */
  lemma {:induction false} LostIsRemoved(timers: set<Timer>, batch: seq<Request>, t: Timer)
    requires t in timers + Added(batch) && t !in AfterRequests(timers, batch)
    ensures Request(t, Remove) in batch
    decreases |batch|
  {
    var r, rest := batch[0], batch[1..];
    assert r in batch;
    if r != Request(t, Remove) {
      if t in Added(batch) && r != Request(t, Add) {
        var q :| q in batch && q.op == Add && q.timer == t;
        assert q in rest;
      }
      LostIsRemoved(AfterRequest(timers, r), rest, t);
    }
  }

  lemma {:induction false} AfterIsKnown(timers: set<Timer>, batch: seq<Request>, t: Timer)
    requires t in AfterRequests(timers, batch)
    ensures t in timers + Added(batch)
    decreases |batch|
  {
    if batch != [] {
      assert batch[0] in batch;
      AfterIsKnown(AfterRequest(timers, batch[0]), batch[1..], t);
      if t in Added(batch[1..]) {
        var q :| q in batch[1..] && q.op == Add && q.timer == t;
        assert q in batch;
      }
    }
  }

  lemma PassFinishes(l: Loop, cancelled: set<Timer>, left: set<Timer>, t: Timer)
    requires IsPass(l, cancelled, left) && RemovesCancelled(l.batch, cancelled)
    requires t in l.timers + Added(l.batch) - left
    ensures t.isOneshot || t in cancelled
  {
    if t !in AfterRequests(l.timers, l.batch) {
      LostIsRemoved(l.timers, l.batch, t);
    }
  }

  lemma AddedAppend(requests: seq<Request>, r: Request)
    ensures Added(requests + [r]) == Added(requests) + (if r.op == Add then {r.timer} else {})
  {
    assert r in requests + [r];
  }

  lemma StepRequests(s: State, e: Event, s': State)
    requires Threads(s) && Requests(s) && Step(s, e, s')
    ensures Requests(s')
  {
    match e
    case FirePass(t, left) =>
      forall u | u in s'.finished ensures u.isOneshot || u in s'.cancelled {
        if u !in s.finished {
          PassFinishes(s.loops[t], s.cancelled, left, u);
        }
      }
    case PushRemove(timer) => AddedAppend(s.requests, Request(timer, Remove));
    case MakeTimer(timer) => AddedAppend(s.requests, Request(timer, Add));
    case _ =>
  }

  // ---------- every timer is in exactly one place ----------

  ghost function AddCount(requests: seq<Request>, timer: Timer): nat {
    if requests == [] then 0
    else AddCount(requests[..|requests| - 1], timer) + (if requests[|requests| - 1] == Request(timer, Add) then 1 else 0)
  }

  lemma {:induction false} AddCountIsAdded(requests: seq<Request>, timer: Timer)
    ensures timer in Added(requests) <==> 0 < AddCount(requests, timer)
  {
    if requests != [] {
      var last := |requests| - 1;
      AddCountIsAdded(requests[..last], timer);
      assert requests == requests[..last] + [requests[last]];
      AddedAppend(requests[..last], requests[last]);
    }
  }

  lemma AddCountAppend(requests: seq<Request>, r: Request, timer: Timer)
    ensures AddCount(requests + [r], timer) == AddCount(requests, timer) + (if r == Request(timer, Add) then 1 else 0)
  {
    assert (requests + [r])[..|requests|] == requests;
  }

  function In(timers: set<Timer>, timer: Timer): nat {
    if timer in timers then 1 else 0
  }

  /** The worker that may be alive. */
  ghost function Current(s: State): Loop {
    if s.loops == [] then Loop(Exited, [], {}) else s.loops[|s.loops| - 1]
  }

  ghost function Places(s: State, timer: Timer): nat {
    AddCount(s.requests, timer) + AddCount(Current(s).batch, timer) + In(Current(s).timers, timer)
    + In(s.finished, timer) + In(s.destroyed, timer)
  }

  ghost predicate Conserved(s: State, timer: Timer) {
    Places(s, timer) == In(s.accepted, timer)
  }

  lemma StepConserved(s: State, e: Event, s': State, timer: Timer)
    requires Threads(s) && Conserved(s, timer) && Step(s, e, s')
    ensures Conserved(s', timer)
  {
    match e
    case MakeTimer(u) => MakeConserved(s, u, timer);
    case PushRemove(u) => PushConserved(s, u, timer);
    case TakeBatch(t) => TakeConserved(s, t, timer);
    case IdleExit(t) => ExitConserved(s, t, timer);
    case AbortExit(t) => ExitConserved(s, t, timer);
    case FirePass(t, left) => PassConserved(s, t, left, timer);
    case ShutdownSection => SectionConserved(s, timer);
    case JoinOldWorker(t) =>
    case Cancel(u) =>
    case RequestShutdown =>
    case ShutdownJoin =>
  }

  lemma PushConserved(s: State, u: Timer, timer: Timer)
    requires Conserved(s, timer) && Enabled(s, PushRemove(u))
    ensures Conserved(Apply(s, PushRemove(u)), timer)
  {
    AddCountAppend(s.requests, Request(u, Remove), timer);
  }

  lemma TakeConserved(s: State, t: nat, timer: Timer)
    requires Threads(s) && Conserved(s, timer) && Enabled(s, TakeBatch(t))
    ensures Conserved(Apply(s, TakeBatch(t)), timer)
  {
    assert LoopOk(s, t);
  }

  lemma ExitConserved(s: State, t: nat, timer: Timer)
    requires Threads(s) && Conserved(s, timer)
    ensures Enabled(s, IdleExit(t)) ==> Conserved(Apply(s, IdleExit(t)), timer)
    ensures Enabled(s, AbortExit(t)) ==> Conserved(Apply(s, AbortExit(t)), timer)
  {
    if t < |s.loops| {
      assert LoopOk(s, t);
    }
  }

  lemma SectionConserved(s: State, timer: Timer)
    requires Threads(s) && Conserved(s, timer) && Enabled(s, ShutdownSection)
    ensures Conserved(Apply(s, ShutdownSection), timer)
  {
    AddCountIsAdded(s.requests, timer);
  }

  lemma MakeConserved(s: State, u: Timer, timer: Timer)
    requires Threads(s) && Conserved(s, timer) && Enabled(s, MakeTimer(u))
    ensures Conserved(Apply(s, MakeTimer(u)), timer)
  {
    AddCountAppend(s.requests, Request(u, Add), timer);
    if s.loops != [] {
      assert LoopOk(s, |s.loops| - 1) && Newest(s, |s.loops| - 1);
    }
  }

  lemma PassConserved(s: State, t: nat, left: set<Timer>, timer: Timer)
    requires Threads(s) && Conserved(s, timer) && Enabled(s, FirePass(t, left))
    ensures Conserved(Apply(s, FirePass(t, left)), timer)
  {
    assert LoopOk(s, t);
    AddCountIsAdded(s.loops[t].batch, timer);
    if timer in left {
      AfterIsKnown(s.loops[t].timers, s.loops[t].batch, timer);
    }
  }

  ghost predicate Inv(s: State) {
    Threads(s) && Requests(s) && forall timer :: Conserved(s, timer)
  }

  lemma StepInv(s: State, e: Event, s': State)
    requires Inv(s) && Step(s, e, s')
    ensures Inv(s')
  {
    StepThreads(s, e, s');
    StepRequests(s, e, s');
    forall timer ensures Conserved(s', timer) {
      StepConserved(s, e, s', timer);
    }
  }

  lemma RunInv(states: seq<State>, events: seq<Event>, n: nat)
    requires IsRun(states, events) && n < |states|
    ensures Inv(states[n])
  {
    forall s, e, s' | Inv(s) && Step(s, e, s') ensures Inv(s') {
      StepInv(s, e, s');
    }
    Runs.InvariantHolds(Init, Step, Inv, states, events, n);
  }

  // ---------- what holds in every run ----------

  /** At most one worker runs at any time; before the abort one runs exactly when the queue is not idle. */
  lemma OneWorker(states: seq<State>, events: seq<Event>, n: nat, t: nat, u: nat)
    requires IsRun(states, events) && n < |states| && t < |states[n].loops| && u < |states[n].loops|
    ensures var s := states[n];
            && (s.loops[t].at != Exited && s.loops[u].at != Exited ==> t == u)
            && (!s.abort && s.idle ==> s.loops[t].at == Exited)
            && (!s.abort && !s.idle ==> s.handle == Joinable(|s.loops| - 1) && Current(s).at != Exited)
  {
    RunInv(states, events, n);
    assert LoopOk(states[n], t) && LoopOk(states[n], u);
    assert Newest(states[n], |states[n].loops| - 1);
  }

  /** An idle queue has no timer anywhere: neither requested nor held by a worker. */
  lemma IdleMeansEmpty(states: seq<State>, events: seq<Event>, n: nat)
    requires IsRun(states, events) && n < |states| && states[n].idle && !states[n].abort
    ensures Added(states[n].requests) == {}
    ensures forall t :: 0 <= t < |states[n].loops| ==> Gone(states[n].loops[t])
  {
    RunInv(states, events, n);
    forall t | 0 <= t < |states[n].loops| ensures Gone(states[n].loops[t]) {
      assert LoopOk(states[n], t);
      OneWorker(states, events, n, t, t);
    }
  }

  /**
   Every timer made before the abort is still owned by a running worker, as a request, in its batch or in its set, and in
   one of them only, unless it is done with: a one-shot timer, or a cancelled one.
   */
  lemma EveryTimerIsOwned(states: seq<State>, events: seq<Event>, n: nat, timer: Timer)
    requires IsRun(states, events) && n < |states| && timer in states[n].accepted && !states[n].abort
    ensures var s := states[n];
            && AddCount(s.requests, timer) + AddCount(Current(s).batch, timer) + In(Current(s).timers, timer)
               == 1 - In(s.finished, timer)
            && (timer !in s.finished ==> Current(s).at != Exited)
            && (timer in s.finished ==> timer.isOneshot || timer in s.cancelled)
  {
    RunInv(states, events, n);
    var s := states[n];
    assert Conserved(s, timer);
    AddCountIsAdded(s.requests, timer);
    NothingDestroyed(states, events, n);
    if s.loops != [] {
      assert LoopOk(s, |s.loops| - 1);
      assert Newest(s, |s.loops| - 1);
    }
  }

  /** Before the abort nothing is destroyed. */
  lemma NothingDestroyed(states: seq<State>, events: seq<Event>, n: nat)
    requires IsRun(states, events) && n < |states| && !states[n].abort
    ensures states[n].destroyed == {}
  {
    var inv := (s: State) => !s.abort ==> s.destroyed == {};
    Runs.InvariantHolds(Init, Step, inv, states, events, n);
  }

  /** A timer that was removed or dropped never comes back. */
  lemma FinishedForEver(states: seq<State>, events: seq<Event>, m: nat, n: nat, timer: Timer)
    requires IsRun(states, events) && m <= n < |states| && timer in states[m].finished + states[m].destroyed
    ensures timer in states[n].finished + states[n].destroyed
    ensures timer !in Added(states[n].requests) && timer !in Added(Current(states[n]).batch)
    ensures timer !in Current(states[n]).timers
    decreases n
  {
    RunInv(states, events, n);
    AddCountIsAdded(states[n].requests, timer);
    AddCountIsAdded(Current(states[n]).batch, timer);
    if m < n {
      FinishedForEver(states, events, m, n - 1, timer);
      assert Step(states[n - 1], events[n - 1], states[n]);
    }
    assert Conserved(states[n], timer);
  }

  /** The queue's assertions hold when a batch is applied: no add is for a known timer, each remove for a cancelled one. */
  lemma BatchIsAcceptable(states: seq<State>, events: seq<Event>, n: nat, t: nat)
    requires IsRun(states, events) && n < |states| && t < |states[n].loops|
    ensures Acceptable(states[n].loops[t].timers, states[n].loops[t].batch)
    ensures forall r :: r in states[n].loops[t].batch && r.op == Remove ==> r.timer in states[n].cancelled
  {
    RunInv(states, events, n);
    var s := states[n];
    assert LoopOk(s, t);
    assert RemovesCancelled(s.loops[t].batch, s.cancelled);
    if t == |s.loops| - 1 {
      forall timer ensures AddCount(s.loops[t].batch, timer) + In(s.loops[t].timers, timer) <= 1 {
        assert Conserved(s, timer);
      }
      AcceptableBatch(s.loops[t].timers, s.loops[t].batch);
    }
  }

  lemma {:induction false} AddCountFirst(requests: seq<Request>, timer: Timer)
    requires requests != []
    ensures AddCount(requests, timer) == (if requests[0] == Request(timer, Add) then 1 else 0) + AddCount(requests[1..], timer)
  {
    var last := |requests| - 1;
    if last > 0 {
      AddCountFirst(requests[..last], timer);
      assert requests[1..][..last - 1] == requests[..last][1..];
    }
  }

  lemma {:induction false} AcceptableBatch(timers: set<Timer>, batch: seq<Request>)
    requires forall timer :: AddCount(batch, timer) + In(timers, timer) <= 1
    ensures Acceptable(timers, batch)
    decreases |batch|
  {
    if batch != [] {
      AddCountFirst(batch, batch[0].timer);
      forall timer ensures AddCount(batch[1..], timer) + In(AfterRequest(timers, batch[0]), timer) <= 1 {
        AddCountFirst(batch, timer);
      }
      AcceptableBatch(AfterRequest(timers, batch[0]), batch[1..]);
    }
  }

  /** What process_timers does to the timers is a pass of this system. */
  lemma OutcomeIsPass(l: Loop, cancelled: set<Timer>, deadline: Deadlines, now: int, fired: seq<Timer>,
                      skipped: set<Timer>, left: set<Timer>, deadline': Deadlines)
    requires Outcome(AfterRequests(l.timers, l.batch), deadline, now, fired, skipped, left, deadline')
    requires skipped <= cancelled
    ensures IsPass(l, cancelled, left)
  {
    assert Periodic(fired) <= Range(fired);
  }

  /** Once shutdown has returned, every worker has returned and is joined or about to be, and every timer is gone. */
  lemma ShutdownSettles(states: seq<State>, events: seq<Event>, n: nat)
    requires IsRun(states, events) && n < |states| && states[n].shutdown.Returned?
    ensures var s := states[n];
            && (forall t :: 0 <= t < |s.loops| ==> Gone(s.loops[t]) && (t in s.joined <==> t !in s.joining))
            && s.handle == NoThread && Distinct(s.joined)
            && s.accepted == s.finished + s.destroyed && s.finished !! s.destroyed
  {
    RunInv(states, events, n);
    var s := states[n];
    if s.loops != [] {
      assert Newest(s, |s.loops| - 1);
    }
    forall t | 0 <= t < |s.loops| ensures Gone(s.loops[t]) && (t in s.joined <==> t !in s.joining) {
      assert LoopOk(s, t);
    }
    forall timer ensures timer in s.accepted <==> (timer in s.finished || timer in s.destroyed)
                 ensures timer in s.finished ==> timer !in s.destroyed
    {
      assert Conserved(s, timer);
      AddCountIsAdded(s.requests, timer);
    }
  }

  // ---------- the queue as an object ----------

  /** Its sections update the fields; each is the event of the step system that it stands for. */
  class TimerQueue {
    var requestQueue: seq<Request>
    var worker: Handle
    var abort: bool
    var idle: bool

    /** The whole system; the real fields agree with it. */
    ghost var state: State

    ghost predicate Valid()
      reads this
    {
      && Inv(state)
      && requestQueue == state.requests && worker == state.handle && abort == state.abort && idle == state.idle
    }

    constructor ()
      ensures Valid() && Init(state)
    {
      requestQueue, worker, abort, idle := [], NoThread, false, true;
      state := State([], true, false, NoThread, [], {}, {}, {}, NotRequested, [], {}, {}, {});
      new;
      RunInv([state], [], 0);
    }

    /** add_timer with ensure_worker_thread; `newWorker` is the thread it starts, if it starts one. */
    method AddTimer(timer: Timer, newWorker: nat) returns (accepted: bool, oldWorker: Handle)
      requires Valid() && Enabled(state, MakeTimer(timer)) && newWorker == |state.loops|
      modifies this
      ensures Valid() && state == Apply(old(state), MakeTimer(timer)) && accepted == !old(abort)
      ensures oldWorker.Joinable? ==> oldWorker.t in state.joining
      ensures if accepted then requestQueue == old(requestQueue) + [Request(timer, Add)] && !idle && timer in state.accepted
              else state == old(state)
    {
      StepInv(state, MakeTimer(timer), Apply(state, MakeTimer(timer)));
      state := Apply(state, MakeTimer(timer));
      oldWorker := NoThread;
      if abort {
        return false, NoThread;
      }
      if idle {
        oldWorker := worker;
        worker := Joinable(newWorker);
        idle := false;
      }
      requestQueue := requestQueue + [Request(timer, Add)];
      accepted := true;
    }

    method RemoveInternalTimer(timer: Timer)
      requires Valid() && Enabled(state, PushRemove(timer))
      modifies this
      ensures Valid() && state == Apply(old(state), PushRemove(timer))
      ensures requestQueue == old(requestQueue) + [Request(timer, Remove)] && timer !in state.removing
    {
      StepInv(state, PushRemove(timer), Apply(state, PushRemove(timer)));
      state := Apply(state, PushRemove(timer));
      requestQueue := requestQueue + [Request(timer, Remove)];
    }

    /**
     The section of work_loop after its wait: `empty` tells whether the loop owns no timer, and the wait of one that does
     may end without a request. Returns whether the loop goes on, and with which batch.
     */
    method WorkSection(t: nat, empty: bool) returns (goesOn: bool, batch: seq<Request>)
      requires Valid() && Waits(state, t) && empty == (state.loops[t].timers == {})
      modifies this
      ensures Valid()
      ensures goesOn <==> !old(abort) && (old(requestQueue) != [] || !empty)
      ensures state == Apply(old(state),
                             if old(abort) then AbortExit(t) else if goesOn then TakeBatch(t) else IdleExit(t))
      ensures goesOn ==> batch == old(requestQueue)
    {
      batch := [];
      ghost var e := if abort then AbortExit(t) else if requestQueue == [] && empty then IdleExit(t) else TakeBatch(t);
      StepInv(state, e, Apply(state, e));
      state := Apply(state, e);
      var found := requestQueue != [] || abort;
      if empty && !found {
        idle := true;
        return false, [];
      }
      if abort {
        return false, [];
      }
      goesOn, batch := true, requestQueue;
      requestQueue := [];
    }

    /** shutdown's section. */
    method ShutDown() returns (joins: bool)
      requires Valid() && Enabled(state, ShutdownSection)
      modifies this
      ensures Valid() && state == Apply(old(state), ShutdownSection) && joins == (state.shutdown == Joining)
      ensures abort && joins == worker.Joinable? && requestQueue == if joins then [] else old(requestQueue)
    {
      StepInv(state, ShutdownSection, Apply(state, ShutdownSection));
      state := Apply(state, ShutdownSection);
      abort := true;
      joins := worker.Joinable?;
      if joins {
        requestQueue := [];
      }
    }
  }
}
