/**
 idle_worker_set: one atomic flag per worker and an approximate count of the idle ones. A flag and the counter change in
 two separate atomic steps, so the counter can lag behind and even be negative.
 */
module IdleWorkerSet {
  import Runs

  /** What a thread does next. */
  datatype Pending = Nothing | Exchange(w: nat) | Increment | Decrement

  /** `turnedIdle[w]` counts the changes of flag w to idle; `claims[w]` lists the threads that changed it to active. */
  datatype State = State(flags: seq<bool>, approxSize: int, pending: seq<Pending>,
                         turnedIdle: seq<nat>, claims: seq<seq<nat>>)

  datatype Event =
    | AddThread
    | SetIdle(t: nat, w: nat)
    | SetActive(t: nat, w: nat)
    | LoadFlag(t: nat, w: nat)
    | ExchangeFlag(t: nat)
    | Count(t: nat)

  predicate Enabled(s: State, e: Event) {
    match e
    case AddThread => true
    case SetIdle(t, w) => t < |s.pending| && w < |s.flags| && s.pending[t] == Nothing
    case SetActive(t, w) => t < |s.pending| && w < |s.flags| && s.pending[t] == Nothing
    case LoadFlag(t, w) => t < |s.pending| && w < |s.flags| && s.pending[t] == Nothing
    case ExchangeFlag(t) => t < |s.pending| && s.pending[t].Exchange?
    case Count(t) => t < |s.pending| && (s.pending[t].Increment? || s.pending[t].Decrement?)
  }

  predicate Shaped(s: State) {
    && |s.turnedIdle| == |s.claims| == |s.flags|
    && forall t :: 0 <= t < |s.pending| && s.pending[t].Exchange? ==> s.pending[t].w < |s.flags|
  }

  /** exchange(active) on flag w by thread t, in set_active and in try_acquire_flag. */
  function Claim(s: State, t: nat, w: nat): State
    requires Shaped(s) && t < |s.pending| && w < |s.flags|
  {
    if !s.flags[w] then s.(pending := s.pending[t := Nothing])
    else s.(flags := s.flags[w := false], pending := s.pending[t := Decrement],
            claims := s.claims[w := s.claims[w] + [t]])
  }

  function Apply(s: State, e: Event): State
    requires Shaped(s) && Enabled(s, e)
  {
    match e
    case AddThread => s.(pending := s.pending + [Nothing])
    case SetIdle(t, w) =>
      if s.flags[w] then s
      else s.(flags := s.flags[w := true], pending := s.pending[t := Increment],
              turnedIdle := s.turnedIdle[w := s.turnedIdle[w] + 1])
    case SetActive(t, w) => Claim(s, t, w)
    case LoadFlag(t, w) => if s.flags[w] then s.(pending := s.pending[t := Exchange(w)]) else s
    case ExchangeFlag(t) => Claim(s, t, s.pending[t].w)
    case Count(t) =>
      s.(approxSize := s.approxSize + (if s.pending[t].Increment? then 1 else -1), pending := s.pending[t := Nothing])
  }

  ghost predicate Init(s: State) {
    && s.approxSize == 0 && s.pending == []
    && |s.turnedIdle| == |s.claims| == |s.flags|
    && forall w :: 0 <= w < |s.flags| ==> !s.flags[w] && s.turnedIdle[w] == 0 && s.claims[w] == []
  }

  ghost predicate Step(s: State, e: Event, s': State) {
    Shaped(s) && Enabled(s, e) && s' == Apply(s, e)
  }

  ghost predicate IsRun(states: seq<State>, events: seq<Event>) {
    Runs.IsRun(Init, Step, states, events)
  }

  // ---------- the invariant ----------

  function Idle(flags: seq<bool>): nat {
    if flags == [] then 0 else Idle(flags[..|flags| - 1]) + (if flags[|flags| - 1] then 1 else 0)
  }

  /** The net change to the counter that threads still owe. */
  function Owed(pending: seq<Pending>): int {
    if pending == [] then 0 else Owed(pending[..|pending| - 1]) + Debt(pending[|pending| - 1])
  }

  function Debt(p: Pending): int {
    match p
    case Increment => 1
    case Decrement => -1
    case _ => 0
  }

  lemma {:induction false} IdleUpdate(flags: seq<bool>, w: nat, b: bool)
    requires w < |flags|
    ensures Idle(flags[w := b]) == Idle(flags) - (if flags[w] then 1 else 0) + (if b then 1 else 0)
  {
    var last := |flags| - 1;
    if w < last {
      IdleUpdate(flags[..last], w, b);
      assert flags[w := b][..last] == flags[..last][w := b];
    } else {
      assert flags[w := b][..last] == flags[..last];
    }
  }

  lemma {:induction false} OwedUpdate(pending: seq<Pending>, t: nat, p: Pending)
    requires t < |pending|
    ensures Owed(pending[t := p]) == Owed(pending) - Debt(pending[t]) + Debt(p)
  {
    var last := |pending| - 1;
    if t < last {
      OwedUpdate(pending[..last], t, p);
      assert pending[t := p][..last] == pending[..last][t := p];
    } else {
      assert pending[t := p][..last] == pending[..last];
    }
  }

  ghost predicate Inv(s: State) {
    && Shaped(s)
    && s.approxSize == Idle(s.flags) - Owed(s.pending)
    && forall w :: 0 <= w < |s.flags| ==> s.turnedIdle[w] == |s.claims[w]| + (if s.flags[w] then 1 else 0)
  }

  lemma {:induction false} NoneIdle(flags: seq<bool>)
    requires forall w :: 0 <= w < |flags| ==> !flags[w]
    ensures Idle(flags) == 0
  {
    if flags != [] {
      NoneIdle(flags[..|flags| - 1]);
    }
  }

  lemma StepInv(s: State, e: Event, s': State)
    requires Inv(s) && Step(s, e, s')
    ensures Inv(s')
  {
    match e
    case AddThread =>
      assert s'.pending[..|s'.pending| - 1] == s.pending;
    case SetIdle(t, w) =>
      SetIdleInv(s, t, w);
    case SetActive(t, w) =>
      ClaimInv(s, t, w);
    case LoadFlag(t, w) =>
      LoadFlagInv(s, t, w);
    case ExchangeFlag(t) =>
      ClaimInv(s, t, s.pending[t].w);
    case Count(t) =>
      OwedUpdate(s.pending, t, Nothing);
  }

  lemma SetIdleInv(s: State, t: nat, w: nat)
    requires Inv(s) && Enabled(s, SetIdle(t, w))
    ensures Inv(Apply(s, SetIdle(t, w)))
  {
    IdleUpdate(s.flags, w, true);
    OwedUpdate(s.pending, t, Increment);
  }

  lemma LoadFlagInv(s: State, t: nat, w: nat)
    requires Inv(s) && Enabled(s, LoadFlag(t, w))
    ensures Inv(Apply(s, LoadFlag(t, w)))
  {
    OwedUpdate(s.pending, t, Exchange(w));
  }

  lemma ClaimInv(s: State, t: nat, w: nat)
    requires Inv(s) && t < |s.pending| && w < |s.flags| && Debt(s.pending[t]) == 0
    ensures Inv(Claim(s, t, w))
  {
    IdleUpdate(s.flags, w, false);
    OwedUpdate(s.pending, t, Nothing);
    OwedUpdate(s.pending, t, Decrement);
  }

  lemma RunInv(states: seq<State>, events: seq<Event>, n: nat)
    requires IsRun(states, events) && n < |states|
    ensures Inv(states[n])
  {
    forall s | Init(s) ensures Inv(s) {
      NoneIdle(s.flags);
    }
    forall s, e, s' | Inv(s) && Step(s, e, s') ensures Inv(s') {
      StepInv(s, e, s');
    }
    Runs.InvariantHolds(Init, Step, Inv, states, events, n);
  }

  // ---------- what holds in every run ----------

  function Threads(pending: seq<Pending>, p: Pending): set<nat> {
    set t | 0 <= t < |pending| && pending[t] == p
  }

  lemma LastThread(pending: seq<Pending>, p: Pending)
    requires pending != []
    ensures var last := |pending| - 1;
            |Threads(pending, p)| == |Threads(pending[..last], p)| + (if pending[last] == p then 1 else 0)
  {
    var last := |pending| - 1;
    assert Threads(pending, p) == Threads(pending[..last], p) + (if pending[last] == p then {last} else {});
  }

  lemma {:induction false} OwedIsDifference(pending: seq<Pending>)
    ensures Owed(pending) == |Threads(pending, Increment)| - |Threads(pending, Decrement)|
  {
    if pending != [] {
      var last := |pending| - 1;
      OwedIsDifference(pending[..last]);
      LastThread(pending, Increment);
      LastThread(pending, Decrement);
    }
  }

  lemma {:induction false} IdleIsCount(flags: seq<bool>)
    ensures Idle(flags) == |set w | 0 <= w < |flags| && flags[w]|
  {
    if flags != [] {
      var last := |flags| - 1;
      IdleIsCount(flags[..last]);
      var before := set w | 0 <= w < last && flags[..last][w];
      assert (set w | 0 <= w < |flags| && flags[w]) == before + (if flags[last] then {last} else {});
    }
  }

  /** The event makes flag w idle, or active; whoever exchanges it has loaded it before. */
  ghost predicate Idles(e: Event, w: nat) {
    e.SetIdle? && e.w == w
  }

  ghost predicate Activates(s: State, e: Event, w: nat) {
    || (e.SetActive? && e.w == w)
    || (e.ExchangeFlag? && e.t < |s.pending| && s.pending[e.t] == Exchange(w))
  }

  /** What the last operation on flag w so far has written. */
  ghost function LastWritten(states: seq<State>, events: seq<Event>, n: nat, w: nat): bool
    requires n <= |events| < |states|
  {
    if n == 0 then false
    else if Idles(events[n - 1], w) then true
    else if Activates(states[n - 1], events[n - 1], w) then false
    else LastWritten(states, events, n - 1, w)
  }

  /** How often an operation so far turned flag w from active to idle. */
  ghost function Turned(states: seq<State>, events: seq<Event>, n: nat, w: nat): nat
    requires n <= |events| < |states|
  {
    if n == 0 then 0
    else Turned(states, events, n - 1, w)
         + (if Idles(events[n - 1], w) && !LastWritten(states, events, n - 1, w) then 1 else 0)
  }

  /** The threads whose operations so far turned flag w from idle to active. */
  ghost function Claimed(states: seq<State>, events: seq<Event>, n: nat, w: nat): seq<nat>
    requires n <= |events| < |states|
  {
    if n == 0 then []
    else Claimed(states, events, n - 1, w)
         + (if Activates(states[n - 1], events[n - 1], w) && LastWritten(states, events, n - 1, w)
            then [events[n - 1].t] else [])
  }

  /** One operation on flag w, or on another. */
  lemma FlagStep(s: State, e: Event, s': State, w: nat)
    requires Step(s, e, s') && w < |s.flags|
    ensures |s'.flags| == |s'.turnedIdle| == |s'.claims| == |s.flags|
    ensures s'.flags[w] == (Idles(e, w) || (s.flags[w] && !Activates(s, e, w)))
    ensures s'.turnedIdle[w] == s.turnedIdle[w] + (if Idles(e, w) && !s.flags[w] then 1 else 0)
    ensures s'.claims[w] == s.claims[w] + (if Activates(s, e, w) && s.flags[w] then [e.t] else [])
  {
  }

  /** A flag holds what was last written to it, and the two records are what the operations of the run come to. */
  lemma {:induction false} FlagIsLastWritten(states: seq<State>, events: seq<Event>, n: nat, w: nat)
    requires IsRun(states, events) && n <= |events| && w < |states[0].flags|
    ensures w < |states[n].flags| == |states[n].turnedIdle| == |states[n].claims|
    ensures states[n].flags[w] == LastWritten(states, events, n, w)
    ensures states[n].turnedIdle[w] == Turned(states, events, n, w)
    ensures states[n].claims[w] == Claimed(states, events, n, w)
  {
    if n > 0 {
      FlagIsLastWritten(states, events, n - 1, w);
      FlagStep(states[n - 1], events[n - 1], states[n], w);
    }
  }

  /** The counter is the number of idle flags, less the increments and plus the decrements that are still to come. */
  lemma CounterIsExact(states: seq<State>, events: seq<Event>, n: nat)
    requires IsRun(states, events) && n < |states|
    ensures var s := states[n];
            s.approxSize == |set w | 0 <= w < |s.flags| && s.flags[w]|
                            - |Threads(s.pending, Increment)| + |Threads(s.pending, Decrement)|
  {
    RunInv(states, events, n);
    OwedIsDifference(states[n].pending);
    IdleIsCount(states[n].flags);
  }

  /** A worker that turned idle k times was claimed k times, or k - 1 times and is idle now: no turn is claimed twice. */
  lemma EachTurnClaimedOnce(states: seq<State>, events: seq<Event>, n: nat, w: nat)
    requires IsRun(states, events) && n < |states| && w < |states[n].flags|
    ensures |states[n].claims| == |states[n].turnedIdle| == |states[n].flags|
    ensures |states[n].claims[w]| <= states[n].turnedIdle[w] <= |states[n].claims[w]| + 1
    ensures states[n].flags[w] <==> states[n].turnedIdle[w] == |states[n].claims[w]| + 1
  {
    RunInv(states, events, n);
  }
}

/**
 The two searches. What other threads do to the flags meanwhile is arbitrary, so each try_acquire_flag sees arbitrary
 values; `seen[i]` are the values the i-th one loads and exchanges.
 */
module IdleWorkerSearch {
  import S = IdleWorkerSet

  datatype Seen = Seen(loaded: bool, exchanged: bool) {
    predicate Acquired() {
      loaded && exchanged
    }
  }

  /** try_acquire_flag returns true iff it saw an idle flag and then replaced an idle flag. */
  method TryAcquireFlag(seen: Seen) returns (swapped: bool)
    ensures swapped == seen.Acquired()
  {
    if !seen.loaded {
      return false;
    }
    var before := seen.exchanged;
    swapped := before;
  }

  /** Between its two atomic operations a thread does nothing else. */
  ghost predicate Undisturbed(events: seq<S.Event>, i: nat, j: nat, t: nat) {
    forall k :: i < k < j && k < |events| ==> events[k].AddThread? || events[k].t != t
  }

  lemma {:induction false} PendingKept(states: seq<S.State>, events: seq<S.Event>, i: nat, j: nat, t: nat)
    requires S.IsRun(states, events) && i < j < |states| && Undisturbed(events, i, j, t) && t < |states[i + 1].pending|
    ensures t < |states[j].pending| && states[j].pending[t] == states[i + 1].pending[t]
    decreases j
  {
    if i + 1 < j {
      PendingKept(states, events, i, j - 1, t);
      assert S.Step(states[j - 1], events[j - 1], states[j]);
    }
  }

  /** A flag that was not seen idle is not touched. */
  lemma LoadOnly(states: seq<S.State>, events: seq<S.Event>, i: nat, t: nat, w: nat)
    requires S.IsRun(states, events) && i < |events| && events[i] == S.LoadFlag(t, w)
    ensures t < |states[i].pending| && w < |states[i].flags|
    ensures !states[i].flags[w] ==> states[i + 1] == states[i]
  {
    assert S.Step(states[i], events[i], states[i + 1]);
  }

  /**
   What TryAcquireFlag returns for the flags its load and its exchange meet in a run is what they do there: it claims
   the worker for its thread, once, exactly if it returns true, and changes nobody's claims otherwise.
   */
  lemma TryIsTwoEvents(states: seq<S.State>, events: seq<S.Event>, i: nat, j: nat, t: nat, w: nat)
    requires S.IsRun(states, events) && i < j < |events| && Undisturbed(events, i, j, t)
    requires events[i] == S.LoadFlag(t, w) && events[j] == S.ExchangeFlag(t)
    ensures w < |states[i].flags| == |states[j].flags| == |states[j].claims|
    ensures var seen := Seen(states[i].flags[w], states[j].flags[w]);
      states[j + 1].claims ==
        if seen.Acquired() then states[j].claims[w := states[j].claims[w] + [t]] else states[j].claims
    ensures !states[j + 1].flags[w]
  {
    assert S.Step(states[i], events[i], states[i + 1]);
    assert S.Step(states[j], events[j], states[j + 1]);
    PendingKept(states, events, i, j, t);
    SameWorkers(states, events, i, j);
    assert states[j].pending[t] == S.Exchange(w);
  }

  lemma {:induction false} SameWorkers(states: seq<S.State>, events: seq<S.Event>, i: nat, j: nat)
    requires S.IsRun(states, events) && i <= j < |states|
    ensures |states[j].flags| == |states[i].flags|
    decreases j
  {
    if i < j {
      SameWorkers(states, events, i, j - 1);
      assert S.Step(states[j - 1], events[j - 1], states[j]);
    }
  }

  function Index(start: nat, i: nat, size: nat): nat
    requires 0 < size
  {
    (start + i) % size
  }

  lemma IndexWraps(start: nat, i: nat, size: nat)
    requires start < size && i < size
    ensures Index(start, i, size) == if start + i < size then start + i else start + i - size
  {
  }

  lemma IndexInjective(start: nat, i: nat, j: nat, size: nat)
    requires start < size && i < j < size
    ensures Index(start, i, size) != Index(start, j, size)
  {
    IndexWraps(start, i, size);
    IndexWraps(start, j, size);
  }

  /** The positions that the search from `start` tries before visit n and acquires. */
  ghost predicate Takes(start: nat, size: nat, caller: int, seen: seq<Seen>, i: nat)
    requires |seen| == size && i < size
  {
    Index(start, i, size) != caller && seen[i].Acquired()
  }

  /** `caller` is -1 for a thread outside the pool; it starts at a position derived from its hashed id. */
  method FindIdleWorker(size: nat, caller: int, hashedId: nat, approxSize: int, seen: seq<Seen>) returns (found: int)
    requires -1 <= caller < size && 0 < size == |seen|
    ensures found == -1 || (0 <= found < size && found != caller)
    ensures var start := if caller != -1 then caller else hashedId % size;
            if found == -1 then approxSize <= 0 || forall i :: 0 <= i < size ==> !Takes(start, size, caller, seen, i)
            else && approxSize > 0
                 && exists i :: 0 <= i < size && found == Index(start, i, size) && Takes(start, size, caller, seen, i)
                           && forall j :: 0 <= j < i ==> !Takes(start, size, caller, seen, j)
  {
    if approxSize <= 0 {
      return -1;
    }
    var start := if caller != -1 then caller else hashedId % size;
    for i := 0 to size
      invariant forall j :: 0 <= j < i ==> !Takes(start, size, caller, seen, j)
    {
      var index := Index(start, i, size);
      if index != caller {
        var acquired := TryAcquireFlag(seen[i]);
        if acquired {
          assert Takes(start, size, caller, seen, i);
          return index;
        }
      }
    }
    return -1;
  }

  /**
   The found workers are distinct peers, at most as many as both limits allow. `visits` is how far the search got:
   exactly the flags acquired until then are in the result, and it stops early only when the result is full.
   */
  method FindIdleWorkers(size: nat, caller: nat, maxCount: nat, approxSize: int, seen: seq<Seen>)
    returns (found: seq<nat>, visits: nat)
    requires caller < size == |seen|
    ensures |found| <= maxCount && (found != [] ==> |found| <= approxSize)
    ensures forall k :: 0 <= k < |found| ==> found[k] < size && found[k] != caller
    ensures forall k, l :: 0 <= k < l < |found| ==> found[k] != found[l]
    ensures visits <= size
    ensures forall i :: 0 <= i < visits ==> (Takes(caller, size, caller, seen, i) <==> Index(caller, i, size) in found)
    ensures visits < size ==> approxSize <= 0 || |found| == maxCount || |found| == approxSize
  {
    found, visits := [], 0;
    if approxSize <= 0 {
      return;
    }
    var limit: nat := if approxSize < maxCount then approxSize else maxCount;
    ghost var at: seq<nat> := [];
    while visits < size && |found| < limit
      invariant visits <= size && |found| <= limit && |at| == |found|
      invariant forall k :: 0 <= k < |found| ==>
        at[k] < visits && found[k] == Index(caller, at[k], size) && Takes(caller, size, caller, seen, at[k])
      invariant forall k, l :: 0 <= k < l < |found| ==> at[k] < at[l]
      invariant forall i :: 0 <= i < visits && Takes(caller, size, caller, seen, i) ==> Index(caller, i, size) in found
    {
      var index := Index(caller, visits, size);
      if index != caller {
        var acquired := TryAcquireFlag(seen[visits]);
        if acquired {
          assert (found + [index])[|found|] == index;
          found, at := found + [index], at + [visits];
        }
      }
      visits := visits + 1;
    }
    forall k, l | 0 <= k < l < |found| ensures found[k] != found[l] {
      IndexInjective(caller, at[k], at[l], size);
    }
    forall i | 0 <= i < visits && Index(caller, i, size) in found ensures Takes(caller, size, caller, seen, i) {
      var k :| 0 <= k < |found| && found[k] == Index(caller, i, size);
      if i < at[k] {
        IndexInjective(caller, i, at[k], size);
      } else if at[k] < i {
        IndexInjective(caller, at[k], i, size);
      }
    }
  }
}
