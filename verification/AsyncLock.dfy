/**
 async_lock: a mutex whose waiters are coroutines. One event is one section of m_awaiter_lock, one access
 to the critical-section counter, or one hand-over of a coroutine to or from an executor. Any number of
 coroutines take part; a coroutine that was popped from the waiter list has to compete again.
 */
module AsyncLock {
  import Runs
  import opened Sequences

  /** Where a coroutine is; `first` is resume_synchronously of lock_impl. */
  datatype Place =
    | Out
    | Trying
    | Attempt(first: bool)
    | Waiting
    | Popped
    | Hopping
    | HopFailed
    | Entering
    | Holding

  /** `pushed` and `popped` record the traffic through the waiter list. */
  datatype State = State(locked: bool, awaiters: seq<nat>, count: int, at: seq<Place>,
                         pushed: seq<nat>, popped: seq<nat>)

  datatype Event =
    | CallLock(c: nat)
    | CallTryLock(c: nat)
    | LockSection(c: nat)
    | TrySection(c: nat)
    | HopDone(c: nat)
    | HopBroken(c: nat)
    | FailSection(c: nat)
    | Enter(c: nat)
    | UnlockSection(c: nat)
    | UnlockNotOwned(c: nat)
    | Retry(c: nat)

  predicate Enabled(s: State, e: Event) {
    && e.c < |s.at|
    && match e
       case CallLock(c) => s.at[c] == Out
       case CallTryLock(c) => s.at[c] == Out
       case LockSection(c) => s.at[c].Attempt?
       case TrySection(c) => s.at[c] == Trying
       case HopDone(c) => s.at[c] == Hopping
       case HopBroken(c) => s.at[c] == Hopping
       case FailSection(c) => s.at[c] == HopFailed && InList(s)
       case Enter(c) => s.at[c] == Entering
       case UnlockSection(c) => s.at[c] == Holding && InList(s)
       case UnlockNotOwned(c) => s.at[c] == Out && !s.locked
       case Retry(c) => s.at[c] == Popped
  }

  predicate InList(s: State) {
    s.awaiters != [] ==> s.awaiters[0] < |s.at|
  }

  function Move(s: State, c: nat, place: Place): State
    requires c < |s.at|
  {
    s.(at := s.at[c := place])
  }

  /** m_locked = false, then pop_front: the popped coroutine still has to be retried. */
  function Release(s: State): State
    requires InList(s)
  {
    if s.awaiters == [] then s.(locked := false)
    else Move(s, s.awaiters[0], Popped)
           .(locked := false, awaiters := s.awaiters[1..], popped := s.popped + [s.awaiters[0]])
  }

  function Apply(s: State, e: Event): State
    requires Enabled(s, e)
  {
    match e
    case CallLock(c) => Move(s, c, Attempt(true))
    case CallTryLock(c) => Move(s, c, Trying)
    case LockSection(c) =>
      if !s.locked then Move(s, c, if s.at[c].first then Entering else Hopping).(locked := true)
      else Move(s, c, Waiting).(awaiters := s.awaiters + [c], pushed := s.pushed + [c])
    case TrySection(c) =>
      if !s.locked then Move(s, c, Entering).(locked := true) else Move(s, c, Out)
    case HopDone(c) => Move(s, c, Entering)
    case HopBroken(c) => Move(s, c, HopFailed)
    case FailSection(c) => Release(Move(s, c, Out))
    case Enter(c) => Move(s, c, Holding).(count := s.count + 1)
    case UnlockSection(c) => Release(Move(s, c, Out)).(count := s.count - 1)
    case UnlockNotOwned(c) => s
    case Retry(c) => Move(s, c, Attempt(false))
  }

  ghost predicate Step(s: State, e: Event, s': State) {
    Enabled(s, e) && s' == Apply(s, e)
  }

  ghost predicate Init(s: State) {
    && !s.locked && s.awaiters == [] && s.count == 0 && s.pushed == [] && s.popped == []
    && forall c :: 0 <= c < |s.at| ==> s.at[c] == Out
  }

  ghost predicate IsRun(states: seq<State>, events: seq<Event>) {
    Runs.IsRun(Init, Step, states, events)
  }

  // ---------- the invariant ----------

  /** The coroutine acquired the lock and did not release it yet, wherever it is executing. */
  predicate Owns(place: Place) {
    place == Hopping || place == HopFailed || place == Entering || place == Holding
  }

  /** A coroutine that left the waiter list and has not retried yet. */
  predicate Retrying(place: Place) {
    place == Popped || place == Attempt(false)
  }

  ghost predicate OwnersOk(s: State) {
    && (forall c, d :: 0 <= c < |s.at| && 0 <= d < |s.at| && Owns(s.at[c]) && Owns(s.at[d]) ==> c == d)
    && (s.locked <==> exists c :: 0 <= c < |s.at| && Owns(s.at[c]))
  }

  ghost predicate CountOk(s: State) {
    && (s.count == 0 || s.count == 1)
    && (s.count == 1 <==> exists c :: 0 <= c < |s.at| && s.at[c] == Holding)
  }

  ghost predicate ListOk(s: State) {
    && Distinct(s.awaiters)
    && (forall i :: 0 <= i < |s.awaiters| ==> s.awaiters[i] < |s.at|)
    && (forall c :: 0 <= c < |s.at| ==> (s.at[c] == Waiting <==> c in s.awaiters))
    && s.pushed == s.popped + s.awaiters
  }

  ghost predicate NotStranded(s: State) {
    s.awaiters == [] || s.locked || exists c :: 0 <= c < |s.at| && Retrying(s.at[c])
  }

  ghost predicate Inv(s: State) {
    OwnersOk(s) && CountOk(s) && ListOk(s) && NotStranded(s)
  }

  /** Every coroutine but the one of the event, and the one a release pops, stays where it is. */
  lemma StepMoves(s: State, e: Event, s': State)
    requires ListOk(s) && Step(s, e, s')
    ensures |s'.at| == |s.at|
    ensures forall c :: 0 <= c < |s.at| && c != e.c ==>
      s'.at[c] == s.at[c] || (s.at[c] == Waiting && s'.at[c] == Popped)
  {
  }

  /** A step changes who owns the lock only for the coroutine of the event. */
  lemma StepOwner(s: State, e: Event, s': State)
    requires ListOk(s) && Step(s, e, s')
    ensures |s'.at| == |s.at|
    ensures forall c :: 0 <= c < |s.at| && c != e.c ==> (Owns(s'.at[c]) <==> Owns(s.at[c]))
    ensures Owns(s.at[e.c]) && !Owns(s'.at[e.c]) ==> !s'.locked
    ensures Owns(s'.at[e.c]) && !Owns(s.at[e.c]) ==> !s.locked && s'.locked
    ensures (Owns(s.at[e.c]) <==> Owns(s'.at[e.c])) ==> s'.locked == s.locked
  {
    StepMoves(s, e, s');
  }

  lemma StepOwners(s: State, e: Event, s': State)
    requires OwnersOk(s) && ListOk(s) && Step(s, e, s')
    ensures OwnersOk(s')
  {
    StepOwner(s, e, s');
    if s'.locked {
      if s.locked {
        var c :| 0 <= c < |s.at| && Owns(s.at[c]);
        assert Owns(s'.at[c]);
      } else {
        assert Owns(s'.at[e.c]);
      }
    }
  }

  lemma StepCount(s: State, e: Event, s': State)
    requires OwnersOk(s) && CountOk(s) && ListOk(s) && Step(s, e, s')
    ensures CountOk(s')
  {
    StepMoves(s, e, s');
    if e.Enter? {
      assert s'.at[e.c] == Holding;
    } else if s'.count == 1 {
      var c :| 0 <= c < |s.at| && s.at[c] == Holding;
      assert s'.at[c] == Holding;
    }
  }

  lemma PushKeepsList(s: State, c: nat)
    requires ListOk(s) && c < |s.at| && s.at[c] != Waiting
    ensures ListOk(Move(s, c, Waiting).(awaiters := s.awaiters + [c], pushed := s.pushed + [c]))
  {
    AppendFresh(s.awaiters, c);
    assert s.popped + (s.awaiters + [c]) == s.popped + s.awaiters + [c];
  }

  lemma ReleaseKeepsList(s: State)
    requires ListOk(s)
    ensures ListOk(Release(s))
  {
    if s.awaiters != [] {
      assert s.awaiters[0] in s.awaiters;
      DropFirst(s.awaiters);
      assert s.popped + [s.awaiters[0]] + s.awaiters[1..] == s.popped + s.awaiters;
    }
  }

  lemma StepList(s: State, e: Event, s': State)
    requires ListOk(s) && Step(s, e, s')
    ensures ListOk(s')
  {
    if e.FailSection? || e.UnlockSection? {
      ReleaseKeepsList(Move(s, e.c, Out));
    } else if e.LockSection? && s.locked {
      PushKeepsList(s, e.c);
    }
  }

  lemma StepNotStranded(s: State, e: Event, s': State)
    requires OwnersOk(s) && ListOk(s) && NotStranded(s) && Step(s, e, s')
    ensures NotStranded(s')
  {
    StepMoves(s, e, s');
    if s'.awaiters != [] && !s'.locked {
      if e.FailSection? || e.UnlockSection? {
        assert Retrying(s'.at[s.awaiters[0]]);
      } else {
        var c :| 0 <= c < |s.at| && Retrying(s.at[c]);
        assert Retrying(s'.at[c]);
      }
    }
  }

  lemma StepInv(s: State, e: Event, s': State)
    requires Inv(s) && Step(s, e, s')
    ensures Inv(s')
  {
    StepOwners(s, e, s');
    StepCount(s, e, s');
    StepList(s, e, s');
    StepNotStranded(s, e, s');
  }

  lemma RunInv(states: seq<State>, events: seq<Event>, n: nat)
    requires IsRun(states, events) && n < |states|
    ensures Inv(states[n])
  {
    forall s, e, s' | Inv(s) && Step(s, e, s') ensures Inv(s') {
      StepInv(s, e, s');
    }
    Runs.InvariantHolds(Init, Step, Inv, states, events, n);
  }

  // ---------- theorems over every run ----------

  /** m_locked holds exactly when one coroutine has acquired and not released, and never two have. */
  lemma MutualExclusion(states: seq<State>, events: seq<Event>, n: nat)
    requires IsRun(states, events) && n < |states|
    ensures var s := states[n];
      && (s.locked <==> exists c :: 0 <= c < |s.at| && Owns(s.at[c]))
      && (forall c, d :: 0 <= c < |s.at| && 0 <= d < |s.at| && Owns(s.at[c]) && Owns(s.at[d]) ==> c == d)
  {
    RunInv(states, events, n);
  }

  /** The counter of the critical section reads 0 on every entry and 1 on every unlock; a failed hop finds the lock held. */
  lemma CounterAssertionsHold(states: seq<State>, events: seq<Event>, n: nat)
    requires IsRun(states, events) && n < |events|
    ensures events[n].Enter? ==> states[n].count == 0
    ensures events[n].UnlockSection? ==> states[n].count == 1 && states[n].locked
    ensures events[n].FailSection? ==> states[n].locked
  {
    RunInv(states, events, n);
    var s := states[n];
    var c := events[n].c;
    assert Step(s, events[n], states[n + 1]);
    if events[n].Enter? {
      assert Owns(s.at[c]);
    }
  }

  /**
   Waiters are never stranded: while the list is not empty, the lock is held or a popped waiter is about to
   retry. Waiters leave the list in the order they joined it, each exactly once per stay.
   */
  lemma NoStranding(states: seq<State>, events: seq<Event>, n: nat)
    requires IsRun(states, events) && n < |states|
    ensures var s := states[n];
      && (s.awaiters != [] ==> s.locked || exists c :: 0 <= c < |s.at| && Retrying(s.at[c]))
      && s.pushed == s.popped + s.awaiters
      && (forall c :: 0 <= c < |s.at| ==> (s.at[c] == Waiting <==> c in s.awaiters))
  {
    RunInv(states, events, n);
  }

  // ---------- the life of one coroutine, over every run ----------

  /** Inside lock: called, and neither holding the lock yet nor failed. */
  predicate Locking(place: Place) {
    place.Attempt? || place == Waiting || place == Popped || place == Hopping || place == HopFailed || place == Entering
  }

  /**
   A call of lock ends in one of two ways: the coroutine holds the lock, or its resume_on had failed and it has given the
   lock back. In particular a popped waiter always tries again.
   */
  lemma LockEndsHolding(states: seq<State>, events: seq<Event>, n: nat, c: nat)
    requires IsRun(states, events) && n < |events| && c < |states[n].at| && Locking(states[n].at[c])
    ensures c < |states[n + 1].at|
    ensures var after := states[n + 1].at[c];
      || Locking(after)
      || (after == Holding && events[n] == Enter(c) && states[n].at[c] == Entering)
      || (after == Out && events[n] == FailSection(c) && states[n].at[c] == HopFailed)
  {
    RunInv(states, events, n);
    assert Step(states[n], events[n], states[n + 1]);
    StepMoves(states[n], events[n], states[n + 1]);
  }

  /** try_lock ends at once: with the lock exactly if it was free. */
  lemma TryLockEnds(states: seq<State>, events: seq<Event>, n: nat, c: nat)
    requires IsRun(states, events) && n < |events| && c < |states[n].at| && states[n].at[c] == Trying
    ensures c < |states[n + 1].at|
    ensures states[n + 1].at[c] == Trying <==> events[n] != TrySection(c)
    ensures events[n] == TrySection(c) ==>
      && states[n + 1].at[c] == (if states[n].locked then Out else Entering)
      && states[n + 1].awaiters == states[n].awaiters && states[n + 1].locked
  {
    RunInv(states, events, n);
    assert Step(states[n], events[n], states[n + 1]);
    StepMoves(states[n], events[n], states[n + 1]);
  }

  /** How a coroutine may move on inside lock, and when. */
  ghost predicate Advances(s: State, e: Event, c: nat, after: Place)
    requires c < |s.at|
  {
    match s.at[c]
    case Out =>
      (e == CallLock(c) && after == Attempt(true)) || (e == CallTryLock(c) && after == Trying)
    case Attempt(first) =>
      e == LockSection(c) && after == (if s.locked then Waiting else if first then Entering else Hopping)
    case Waiting => (e.UnlockSection? || e.FailSection?) && s.awaiters != [] && s.awaiters[0] == c && after == Popped
    case Popped => e == Retry(c) && after == Attempt(false)
    case Hopping => (e == HopDone(c) && after == Entering) || (e == HopBroken(c) && after == HopFailed)
    case HopFailed => e == FailSection(c) && after == Out
    case Entering => e == Enter(c) && after == Holding
    case Holding => e == UnlockSection(c) && after == Out
    case Trying => e == TrySection(c) && after == (if s.locked then Out else Entering)
  }

  /** A coroutine moves only in these ways, and the event that moves it always does. */
  lemma Life(states: seq<State>, events: seq<Event>, n: nat, c: nat)
    requires IsRun(states, events) && n < |events| && c < |states[n].at|
    ensures c < |states[n + 1].at|
    ensures states[n + 1].at[c] == states[n].at[c] || Advances(states[n], events[n], c, states[n + 1].at[c])
    ensures events[n].c == c && !events[n].UnlockNotOwned? ==> states[n + 1].at[c] != states[n].at[c]
  {
    RunInv(states, events, n);
    assert Step(states[n], events[n], states[n + 1]);
    var s, e := states[n], events[n];
    if (e.UnlockSection? || e.FailSection?) && s.awaiters != [] {
      assert s.awaiters[0] in s.awaiters;
    }
  }

  /** The waiter list: a section that finds the lock taken appends, a release takes the first, and nothing else changes it. */
  lemma ListTraffic(states: seq<State>, events: seq<Event>, n: nat)
    requires IsRun(states, events) && n < |events|
    ensures var s, e, s' := states[n], events[n], states[n + 1];
      s'.awaiters ==
        if e.LockSection? && s.locked then s.awaiters + [e.c]
        else if (e.UnlockSection? || e.FailSection?) && s.awaiters != [] then s.awaiters[1..]
        else s.awaiters
    ensures var s, e, s' := states[n], events[n], states[n + 1];
      |s'.awaiters| < |s.awaiters| ==>
        s.awaiters[0] < |s'.at| && s'.at[s.awaiters[0]] == Popped && !s'.locked
  {
    RunInv(states, events, n);
    assert Step(states[n], events[n], states[n + 1]);
  }
}
