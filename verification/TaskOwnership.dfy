/**
 concurrencpp::task as an owner: what building, moving, invoking and clearing tasks does to the callables they hold, and
 what follows for every sequence of such operations on any number of tasks.
 */
module TaskOwnership {
  import Runs

  /** The callable types that task tells apart: two of its own, and any other with the properties its vtable depends on. */
  datatype Kind =
    | CoroutineHandle
    | AwaitVia
    | Callable(inlinable: bool, triviallyCopyable: bool, triviallyDestructible: bool)

  /** What a task holds; `id` names the callable it was built from. */
  datatype Content = Empty | Full(kind: Kind, id: nat)

  /** Resumed: an await_via_functor resumed its coroutine, having set *interrupted or not. */
  datatype Effect = Invoked(id: nat) | Released(id: nat) | Resumed(id: nat, interrupted: bool)

  function InvokeEffects(c: Content): seq<Effect> {
    match c
    case Empty => []
    case Full(kind, id) =>
      if kind == AwaitVia then [Invoked(id), Resumed(id, false), Released(id)] else [Invoked(id), Released(id)]
  }

  function DropEffects(c: Content): seq<Effect> {
    match c
    case Empty => []
    case Full(kind, id) => if kind == AwaitVia then [Resumed(id, true), Released(id)] else [Released(id)]
  }

  function Moved(tasks: seq<Content>, i: nat, j: nat): seq<Content>
    requires i < |tasks| && j < |tasks|
  {
    if i == j then tasks else tasks[i := tasks[j]][j := Empty]
  }

  // ---------- any sequence of operations ----------

  datatype State = State(tasks: seq<Content>, log: seq<Effect>, built: map<nat, Kind>)

  datatype Event =
    | Default
    | Build(i: nat, kind: Kind, id: nat)
    | Construct(i: nat, j: nat)
    | Assign(i: nat, j: nat)
    | Invoke(i: nat)
    | Clear(i: nat)

  /** Construction, with a callable or from another task, makes a new task, which is empty until then. */
  predicate Enabled(s: State, e: Event) {
    match e
    case Default => true
    case Build(i, kind, id) => i < |s.tasks| && s.tasks[i] == Empty && id !in s.built
    case Construct(i, j) => i < |s.tasks| && j < |s.tasks| && i != j && s.tasks[i] == Empty
    case Assign(i, j) => i < |s.tasks| && j < |s.tasks|
    case Invoke(i) => i < |s.tasks|
    case Clear(i) => i < |s.tasks|
  }

  function Apply(s: State, e: Event): State
    requires Enabled(s, e)
  {
    match e
    case Default => s.(tasks := s.tasks + [Empty])
    case Build(i, kind, id) => s.(tasks := s.tasks[i := Full(kind, id)], built := s.built[id := kind])
    case Construct(i, j) => s.(tasks := Moved(s.tasks, i, j))
    case Assign(i, j) =>
      if i == j then s else s.(tasks := Moved(s.tasks, i, j), log := s.log + DropEffects(s.tasks[i]))
    case Invoke(i) => s.(tasks := s.tasks[i := Empty], log := s.log + InvokeEffects(s.tasks[i]))
    case Clear(i) => s.(tasks := s.tasks[i := Empty], log := s.log + DropEffects(s.tasks[i]))
  }

  ghost predicate Init(s: State) {
    s == State([], [], map[])
  }

  ghost predicate Step(s: State, e: Event, s': State) {
    Enabled(s, e) && s' == Apply(s, e)
  }

  ghost predicate IsRun(states: seq<State>, events: seq<Event>) {
    Runs.IsRun(Init, Step, states, events)
  }

  // ---------- counting ----------

  ghost function Count(log: seq<Effect>, e: Effect): nat {
    if log == [] then 0 else Count(log[..|log| - 1], e) + (if log[|log| - 1] == e then 1 else 0)
  }

  lemma CountAppend(log: seq<Effect>, x: Effect, e: Effect)
    ensures Count(log + [x], e) == Count(log, e) + (if x == e then 1 else 0)
  {
    assert (log + [x])[..|log|] == log;
  }

  ghost function InvokeGain(c: Content, e: Effect): nat {
    if c.Full? && (e == Invoked(c.id) || e == Released(c.id) || (c.kind == AwaitVia && e == Resumed(c.id, false)))
    then 1 else 0
  }

  ghost function DropGain(c: Content, e: Effect): nat {
    if c.Full? && (e == Released(c.id) || (c.kind == AwaitVia && e == Resumed(c.id, true))) then 1 else 0
  }

  lemma CountTwo(log: seq<Effect>, x: Effect, y: Effect, e: Effect)
    ensures Count(log + [x, y], e) == Count(log, e) + (if x == e then 1 else 0) + (if y == e then 1 else 0)
  {
    CountAppend(log, x, e);
    CountAppend(log + [x], y, e);
    assert log + [x, y] == log + [x] + [y];
  }

  lemma CountThree(log: seq<Effect>, x: Effect, y: Effect, z: Effect, e: Effect)
    ensures Count(log + [x, y, z], e)
         == Count(log, e) + (if x == e then 1 else 0) + (if y == e then 1 else 0) + (if z == e then 1 else 0)
  {
    CountTwo(log, x, y, e);
    CountAppend(log + [x, y], z, e);
    assert log + [x, y, z] == log + [x, y] + [z];
  }

  lemma CountInvoke(log: seq<Effect>, c: Content, e: Effect)
    ensures Count(log + InvokeEffects(c), e) == Count(log, e) + InvokeGain(c, e)
  {
    if c == Empty {
      assert log + [] == log;
    } else if c.kind == AwaitVia {
      CountThree(log, Invoked(c.id), Resumed(c.id, false), Released(c.id), e);
    } else {
      CountTwo(log, Invoked(c.id), Released(c.id), e);
    }
  }

  lemma CountDrop(log: seq<Effect>, c: Content, e: Effect)
    ensures Count(log + DropEffects(c), e) == Count(log, e) + DropGain(c, e)
  {
    if c == Empty {
      assert log + [] == log;
    } else if c.kind == AwaitVia {
      CountTwo(log, Resumed(c.id, true), Released(c.id), e);
    } else {
      CountAppend(log, Released(c.id), e);
    }
  }

  ghost function Holders(tasks: seq<Content>, id: nat): nat {
    if tasks == [] then 0 else Holders(tasks[..|tasks| - 1], id) + Holds(tasks[|tasks| - 1], id)
  }

  ghost function Holds(c: Content, id: nat): nat {
    if c.Full? && c.id == id then 1 else 0
  }

  lemma {:induction false} HoldersUpdate(tasks: seq<Content>, i: nat, c: Content, id: nat)
    requires i < |tasks|
    ensures Holders(tasks[i := c], id) == Holders(tasks, id) - Holds(tasks[i], id) + Holds(c, id)
  {
    var last := |tasks| - 1;
    if i < last {
      HoldersUpdate(tasks[..last], i, c, id);
      assert tasks[i := c][..last] == tasks[..last][i := c];
    } else {
      assert tasks[i := c][..last] == tasks[..last];
    }
  }

  lemma HoldersMove(tasks: seq<Content>, i: nat, j: nat, id: nat)
    requires i < |tasks| && j < |tasks| && i != j
    ensures Holders(Moved(tasks, i, j), id) == Holders(tasks, id) - Holds(tasks[i], id)
  {
    HoldersUpdate(tasks, i, tasks[j], id);
    HoldersUpdate(tasks[i := tasks[j]], j, Empty, id);
  }

  // ---------- the invariant ----------

  ghost predicate KindsKnown(s: State) {
    forall i :: 0 <= i < |s.tasks| && s.tasks[i].Full? ==> s.tasks[i].id in s.built && s.built[s.tasks[i].id] == s.tasks[i].kind
  }

  /** One callable: held by one task or released, never both and never twice. */
  ghost predicate Owned(s: State, id: nat) {
    && Holders(s.tasks, id) + Count(s.log, Released(id)) == (if id in s.built then 1 else 0)
    && Count(s.log, Invoked(id)) <= Count(s.log, Released(id))
    && (if id in s.built && s.built[id] == AwaitVia
        then && Count(s.log, Resumed(id, false)) == Count(s.log, Invoked(id))
             && Count(s.log, Resumed(id, true)) == Count(s.log, Released(id)) - Count(s.log, Invoked(id))
        else Count(s.log, Resumed(id, false)) == 0 == Count(s.log, Resumed(id, true)))
  }

  lemma InvokeOwned(s: State, i: nat, id: nat)
    requires KindsKnown(s) && Owned(s, id) && i < |s.tasks|
    ensures Owned(Apply(s, Invoke(i)), id)
  {
    HoldersUpdate(s.tasks, i, Empty, id);
    CountInvoke(s.log, s.tasks[i], Released(id));
    CountInvoke(s.log, s.tasks[i], Invoked(id));
    CountInvoke(s.log, s.tasks[i], Resumed(id, false));
    CountInvoke(s.log, s.tasks[i], Resumed(id, true));
    HoldersAtLeast(s.tasks, i, id);
  }

  lemma {:induction false} HoldersAtLeast(tasks: seq<Content>, i: nat, id: nat)
    requires i < |tasks|
    ensures Holds(tasks[i], id) <= Holders(tasks, id)
  {
    if i < |tasks| - 1 {
      HoldersAtLeast(tasks[..|tasks| - 1], i, id);
    }
  }

  /** Dropping what task i holds, whatever the tasks are afterwards. */
  lemma DropOwned(s: State, i: nat, s': State, id: nat)
    requires KindsKnown(s) && Owned(s, id) && i < |s.tasks|
    requires s' == s.(tasks := s'.tasks, log := s.log + DropEffects(s.tasks[i]))
    requires Holders(s'.tasks, id) == Holders(s.tasks, id) - Holds(s.tasks[i], id)
    ensures Owned(s', id)
  {
    CountDrop(s.log, s.tasks[i], Released(id));
    CountDrop(s.log, s.tasks[i], Invoked(id));
    CountDrop(s.log, s.tasks[i], Resumed(id, false));
    CountDrop(s.log, s.tasks[i], Resumed(id, true));
    HoldersAtLeast(s.tasks, i, id);
  }

  lemma BuildOwned(s: State, i: nat, kind: Kind, built: nat, id: nat)
    requires Owned(s, id) && Enabled(s, Build(i, kind, built))
    ensures Owned(Apply(s, Build(i, kind, built)), id)
  {
    HoldersUpdate(s.tasks, i, Full(kind, built), id);
  }

  lemma StepOwned(s: State, e: Event, s': State, id: nat)
    requires KindsKnown(s) && Owned(s, id) && Step(s, e, s')
    ensures Owned(s', id)
  {
    match e
    case Default => assert s'.tasks[..|s.tasks|] == s.tasks;
    case Build(i, kind, built) => BuildOwned(s, i, kind, built, id);
    case Construct(i, j) => HoldersMove(s.tasks, i, j, id);
    case Assign(i, j) =>
      if i != j {
        HoldersMove(s.tasks, i, j, id);
        DropOwned(s, i, s', id);
      }
    case Invoke(i) => InvokeOwned(s, i, id);
    case Clear(i) =>
      HoldersUpdate(s.tasks, i, Empty, id);
      DropOwned(s, i, s', id);
  }

  ghost predicate Inv(s: State) {
    KindsKnown(s) && forall id :: Owned(s, id)
  }

  lemma StepInv(s: State, e: Event, s': State)
    requires Inv(s) && Step(s, e, s')
    ensures Inv(s')
  {
    forall id ensures Owned(s', id) {
      StepOwned(s, e, s', id);
    }
  }

  lemma RunInv(states: seq<State>, events: seq<Event>, n: nat)
    requires IsRun(states, events) && n < |states|
    ensures Inv(states[n])
  {
    forall s, e, s' | Inv(s) && Step(s, e, s') ensures Inv(s') {
      StepInv(s, e, s');
    }
    Runs.InvariantHolds(Init, Step, Inv, states, events, n);
  }

  // ---------- what holds after every sequence of operations ----------

  /** Each callable is invoked at most once, and it is held by exactly one task until it is released, once. */
  lemma InvokedAtMostOnce(states: seq<State>, events: seq<Event>, n: nat, id: nat)
    requires IsRun(states, events) && n < |states| && id in states[n].built
    ensures Count(states[n].log, Invoked(id)) <= Count(states[n].log, Released(id)) <= 1
    ensures Holders(states[n].tasks, id) == 1 - Count(states[n].log, Released(id))
  {
    RunInv(states, events, n);
    assert Owned(states[n], id);
  }

  lemma {:induction false} NoHolders(tasks: seq<Content>, id: nat)
    requires forall i :: 0 <= i < |tasks| ==> tasks[i] == Empty
    ensures Holders(tasks, id) == 0
  {
    if tasks != [] {
      NoHolders(tasks[..|tasks| - 1], id);
    }
  }

  /** When all tasks are empty, as after their destruction, every callable has been released exactly once. */
  lemma ReleasedExactlyOnce(states: seq<State>, events: seq<Event>, n: nat, id: nat)
    requires IsRun(states, events) && n < |states| && id in states[n].built
    requires forall i :: 0 <= i < |states[n].tasks| ==> states[n].tasks[i] == Empty
    ensures Count(states[n].log, Released(id)) == 1
  {
    RunInv(states, events, n);
    assert Owned(states[n], id);
    NoHolders(states[n].tasks, id);
  }

  /**
   A coroutine held by an await_via_functor is resumed exactly once, when its task lets go of it: as interrupted if and
   only if it was not invoked.
   */
  lemma ResumedExactlyOnce(states: seq<State>, events: seq<Event>, n: nat, id: nat)
    requires IsRun(states, events) && n < |states| && id in states[n].built && states[n].built[id] == AwaitVia
    ensures Count(states[n].log, Resumed(id, false)) + Count(states[n].log, Resumed(id, true))
            == Count(states[n].log, Released(id)) == 1 - Holders(states[n].tasks, id)
    ensures Count(states[n].log, Resumed(id, true)) == 1
            <==> Count(states[n].log, Released(id)) == 1 && Count(states[n].log, Invoked(id)) == 0
  {
    RunInv(states, events, n);
    assert Owned(states[n], id);
  }

  // ---------- what the operations of a run come to ----------

  /** What task i holds after n operations, traced back to the callable it was built from. */
  ghost function Traced(events: seq<Event>, n: nat, i: nat): Content
    requires n <= |events|
  {
    if n == 0 then Empty
    else match events[n - 1]
      case Build(k, kind, id) => if k == i then Full(kind, id) else Traced(events, n - 1, i)
      case Construct(to, from) =>
        if to == i then Traced(events, n - 1, from) else if from == i then Empty else Traced(events, n - 1, i)
      case Assign(to, from) =>
        if to == from then Traced(events, n - 1, i)
        else if to == i then Traced(events, n - 1, from)
        else if from == i then Empty
        else Traced(events, n - 1, i)
      case Invoke(k) => if k == i then Empty else Traced(events, n - 1, i)
      case Clear(k) => if k == i then Empty else Traced(events, n - 1, i)
      case Default => Traced(events, n - 1, i)
  }

  ghost function Defaults(events: seq<Event>, n: nat): nat
    requires n <= |events|
  {
    if n == 0 then 0 else Defaults(events, n - 1) + (if events[n - 1] == Default then 1 else 0)
  }

  /** Task i holds what its trace says; a task that is not there yet holds nothing. */
  ghost predicate HoldsTrace(tasks: seq<Content>, events: seq<Event>, n: nat, i: nat)
    requires n <= |events|
  {
    Traced(events, n, i) == if i < |tasks| then tasks[i] else Empty
  }

  lemma TraceStep(s: State, events: seq<Event>, n: nat, s': State, i: nat)
    requires 0 < n <= |events| && Step(s, events[n - 1], s') && HoldsTrace(s.tasks, events, n - 1, i)
    requires events[n - 1].Construct? || events[n - 1].Assign? ==> HoldsTrace(s.tasks, events, n - 1, events[n - 1].j)
    ensures HoldsTrace(s'.tasks, events, n, i)
  {
  }

  /** Moves and assignments carry callables from task to task: each holds what a trace through them ends at. */
  lemma {:induction false} ContentsAreTraced(states: seq<State>, events: seq<Event>, n: nat, i: nat)
    requires IsRun(states, events) && n <= |events|
    ensures |states[n].tasks| == Defaults(events, n) && HoldsTrace(states[n].tasks, events, n, i)
  {
    if n > 0 {
      var e := events[n - 1];
      ContentsAreTraced(states, events, n - 1, i);
      if e.Construct? || e.Assign? {
        ContentsAreTraced(states, events, n - 1, e.j);
      }
      TraceStep(states[n - 1], events, n, states[n], i);
    }
  }

  /** How often the operations so far called a task that held this callable. */
  ghost function Invocations(events: seq<Event>, n: nat, id: nat): nat
    requires n <= |events|
  {
    if n == 0 then 0
    else Invocations(events, n - 1, id)
         + (if events[n - 1].Invoke? then Holds(Traced(events, n - 1, events[n - 1].i), id) else 0)
  }

  lemma InvokedStep(s: State, e: Event, s': State, id: nat)
    requires Step(s, e, s')
    ensures Count(s'.log, Invoked(id)) == Count(s.log, Invoked(id)) + (if e.Invoke? then Holds(s.tasks[e.i], id) else 0)
  {
    match e
    case Invoke(i) => CountInvoke(s.log, s.tasks[i], Invoked(id));
    case Clear(i) => CountDrop(s.log, s.tasks[i], Invoked(id));
    case Assign(i, j) => CountDrop(s.log, s.tasks[i], Invoked(id));
    case _ =>
  }

  /** A callable is invoked each time a task that holds it is called, and at no other time. */
  lemma {:induction false} InvokedWhenCalled(states: seq<State>, events: seq<Event>, n: nat, id: nat)
    requires IsRun(states, events) && n <= |events|
    ensures Count(states[n].log, Invoked(id)) == Invocations(events, n, id)
  {
    if n > 0 {
      InvokedWhenCalled(states, events, n - 1, id);
      InvokedStep(states[n - 1], events[n - 1], states[n], id);
      if events[n - 1].Invoke? {
        ContentsAreTraced(states, events, n - 1, events[n - 1].i);
      }
    }
  }
}
