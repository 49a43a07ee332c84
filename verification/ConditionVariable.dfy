/**
 async_condition_variable on top of async_lock. A waiter takes the mutex of the condition variable,
 releases the async lock and queues itself before it lets the mutex go; notifiers pop under that mutex and
 resume outside it. Every event below that touches the lock is one event of the lock's own step system.
 */
module ConditionVariable {
  import Runs
  import L = AsyncLock
  import opened Sequences

  /** Where a coroutine is in await; `loop` tells the predicate form from the plain one. */
  datatype Wait =
    | NotWaiting
    | Checking
    | WantMutex(loop: bool)
    | HasMutex(loop: bool)
    | Released(loop: bool)
    | Queued(loop: bool)
    | Taken(loop: bool, batch: nat)
    | Resumed(loop: bool)
    | Relocking(loop: bool)
    | Satisfied

  datatype Mutex = Free | HeldBy(c: nat)

  /** How often a coroutine released its lock to wait, was dequeued, and was resumed. */
  datatype Tally = Tally(released: nat, taken: nat, resumed: nat)

  /**
   `data` is the shared memory the lock protects and wants[c] the values c's predicate accepts.
   A batch is the list a notifier moved out of the queue; `pushed` and `left` record the queue's traffic.
   */
  datatype State = State(lock: L.State, mutex: Mutex, queue: seq<nat>, batches: seq<seq<nat>>,
                         waits: seq<Wait>, tally: seq<Tally>, pushed: seq<nat>, left: seq<nat>,
                         data: int, wants: seq<iset<int>>)

  datatype Event =
    | LockEvent(e: L.Event)
    | Write(c: nat, value: int)
    | Begin(c: nat, loop: bool)
    | Check(c: nat)
    | TakeMutex(c: nat)
    | ReleaseLock(c: nat)
    | PushWaiter(c: nat)
    | NotifyOne
    | NotifyAll
    | ResumeNext(b: nat)
    | HopDone(c: nat)
    | HopBroken(c: nat)
    | Relocked(c: nat)
    | RelockFailed(c: nat)

  ghost predicate Shape(s: State) {
    && |s.waits| == |s.lock.at| == |s.tally| == |s.wants|
    && (forall i :: 0 <= i < |s.queue| ==> s.queue[i] < |s.waits|)
  }

  /** Which events of the lock a coroutine may go through while it is in await. */
  ghost predicate Allowed(w: Wait, e: L.Event) {
    match w
    case NotWaiting => true
    case Satisfied => e.UnlockSection?
    case Relocking(_) => e.LockSection? || e.HopDone? || e.HopBroken? || e.FailSection? || e.Enter? || e.Retry?
    case _ => false
  }

  ghost predicate Enabled(s: State, e: Event) {
    && Shape(s)
    && match e
       case LockEvent(le) => L.Enabled(s.lock, le) && Allowed(s.waits[le.c], le)
       case Write(c, _) => c < |s.waits| && s.lock.at[c] == L.Holding && (s.waits[c] == NotWaiting || s.waits[c] == Satisfied)
       case Begin(c, _) => c < |s.waits| && s.lock.at[c] == L.Holding && (s.waits[c] == NotWaiting || s.waits[c] == Satisfied)
       case Check(c) => c < |s.waits| && s.waits[c] == Checking
       case TakeMutex(c) => c < |s.waits| && s.waits[c].WantMutex? && s.mutex == Free
       case ReleaseLock(c) => c < |s.waits| && s.waits[c].HasMutex? && L.Enabled(s.lock, L.UnlockSection(c))
       case PushWaiter(c) => c < |s.waits| && s.waits[c].Released?
       case NotifyOne => s.mutex == Free && (s.queue != [] ==> s.waits[s.queue[0]].Queued?)
       case NotifyAll => s.mutex == Free
       case ResumeNext(b) =>
         b < |s.batches| && s.batches[b] != [] && s.batches[b][0] < |s.waits| && s.waits[s.batches[b][0]].Taken?
       case HopDone(c) => c < |s.waits| && s.waits[c].Resumed? && L.Enabled(s.lock, L.CallLock(c))
       case HopBroken(c) => c < |s.waits| && s.waits[c].Resumed?
       case Relocked(c) => c < |s.waits| && s.waits[c].Relocking? && s.lock.at[c] == L.Holding
       case RelockFailed(c) => c < |s.waits| && s.waits[c].Relocking? && s.lock.at[c] == L.Out
  }

  ghost function Move(s: State, c: nat, w: Wait): State
    requires c < |s.waits|
  {
    s.(waits := s.waits[c := w])
  }

  ghost function Count(s: State, c: nat, t: Tally): State
    requires c < |s.tally|
  {
    s.(tally := s.tally[c := t])
  }

  /** The waiters of `q` all move into batch b. */
  ghost function TakenWait(w: Wait, b: nat): Wait {
    if w.Queued? then Taken(w.loop, b) else w
  }

  ghost function TakeAll(s: State): State
    requires Shape(s)
  {
    s.(queue := [], batches := s.batches + [s.queue], left := s.left + s.queue,
       waits := seq(|s.waits|, c requires 0 <= c < |s.waits| =>
                  if c in s.queue then TakenWait(s.waits[c], |s.batches|) else s.waits[c]),
       tally := seq(|s.tally|, c requires 0 <= c < |s.tally| =>
                  if c in s.queue then s.tally[c].(taken := s.tally[c].taken + 1) else s.tally[c]))
  }

  ghost function TakeFirst(s: State): State
    requires Shape(s) && s.queue != [] && s.waits[s.queue[0]].Queued?
  {
    var c := s.queue[0];
    Count(Move(s, c, Taken(s.waits[c].loop, |s.batches|)), c, s.tally[c].(taken := s.tally[c].taken + 1))
      .(queue := s.queue[1..], batches := s.batches + [[c]], left := s.left + [c])
  }

  ghost function Apply(s: State, e: Event): State
    requires Enabled(s, e)
  {
    match e
    case LockEvent(le) =>
      var s1 := s.(lock := L.Apply(s.lock, le));
      if le.UnlockSection? then Move(s1, le.c, NotWaiting) else s1
    case Write(c, value) => Move(s, c, NotWaiting).(data := value)
    case Begin(c, loop) => Move(s, c, if loop then Checking else WantMutex(false))
    case Check(c) => Move(s, c, if s.data in s.wants[c] then Satisfied else WantMutex(true))
    case TakeMutex(c) => Move(s, c, HasMutex(s.waits[c].loop)).(mutex := HeldBy(c))
    case ReleaseLock(c) =>
      Count(Move(s, c, Released(s.waits[c].loop)), c, s.tally[c].(released := s.tally[c].released + 1))
        .(lock := L.Apply(s.lock, L.UnlockSection(c)))
    case PushWaiter(c) =>
      Move(s, c, Queued(s.waits[c].loop)).(queue := s.queue + [c], pushed := s.pushed + [c], mutex := Free)
    case NotifyOne => if s.queue == [] then s else TakeFirst(s)
    case NotifyAll => TakeAll(s)
    case ResumeNext(b) =>
      var c := s.batches[b][0];
      Count(Move(s, c, Resumed(s.waits[c].loop)), c, s.tally[c].(resumed := s.tally[c].resumed + 1))
        .(batches := s.batches[b := s.batches[b][1..]])
    case HopDone(c) => Move(s, c, Relocking(s.waits[c].loop)).(lock := L.Apply(s.lock, L.CallLock(c)))
    case HopBroken(c) => Move(s, c, NotWaiting)
    case Relocked(c) => Move(s, c, if s.waits[c].loop then Checking else NotWaiting)
    case RelockFailed(c) => Move(s, c, NotWaiting)
  }

  ghost predicate Step(s: State, e: Event, s': State) {
    Enabled(s, e) && s' == Apply(s, e)
  }

  ghost predicate Init(s: State) {
    && L.Init(s.lock) && s.mutex == Free && s.queue == [] && s.batches == [] && s.pushed == [] && s.left == []
    && |s.waits| == |s.lock.at| == |s.tally| == |s.wants|
    && (forall c :: 0 <= c < |s.waits| ==> s.waits[c] == NotWaiting)
    && (forall c :: 0 <= c < |s.tally| ==> s.tally[c] == Tally(0, 0, 0))
  }

  ghost predicate IsRun(states: seq<State>, events: seq<Event>) {
    Runs.IsRun(Init, Step, states, events)
  }

  // ---------- the invariant ----------

  ghost predicate WithLock(w: Wait) {
    w == Checking || w.WantMutex? || w.HasMutex? || w == Satisfied
  }

  ghost predicate Suspended(w: Wait) {
    w.Released? || w.Queued? || w.Taken? || w.Resumed?
  }

  ghost predicate WaitOk(s: State, c: nat)
    requires Shape(s) && c < |s.waits|
  {
    var w := s.waits[c];
    var t := s.tally[c];
    && (WithLock(w) ==> s.lock.at[c] == L.Holding)
    && (Suspended(w) ==> s.lock.at[c] == L.Out)
    && (w == Satisfied ==> s.data in s.wants[c])
    && (s.mutex == HeldBy(c) <==> w.HasMutex? || w.Released?)
    && t.released == t.taken + (if w.Released? || w.Queued? then 1 else 0)
    && t.taken == t.resumed + (if w.Taken? then 1 else 0)
  }

  ghost predicate QueueOk(s: State)
    requires Shape(s)
  {
    && Distinct(s.queue)
    && (forall c :: 0 <= c < |s.waits| ==> (s.waits[c].Queued? <==> c in s.queue))
    && s.pushed == s.left + s.queue
    && (s.mutex.HeldBy? ==> s.mutex.c < |s.waits|)
  }

  ghost predicate BatchOk(s: State, b: nat)
    requires Shape(s) && b < |s.batches|
  {
    var q := s.batches[b];
    && Distinct(q)
    && (forall i :: 0 <= i < |q| ==> q[i] < |s.waits| && s.waits[q[i]].Taken? && s.waits[q[i]].batch == b)
  }

  ghost predicate TakenOk(s: State, c: nat)
    requires Shape(s) && c < |s.waits|
  {
    s.waits[c].Taken? ==> s.waits[c].batch < |s.batches| && c in s.batches[s.waits[c].batch]
  }

  ghost predicate Inv(s: State) {
    && Shape(s) && L.Inv(s.lock) && QueueOk(s)
    && (forall c: nat :: c < |s.waits| ==> WaitOk(s, c) && TakenOk(s, c))
    && (forall b: nat :: b < |s.batches| ==> BatchOk(s, b))
  }

  /** Every step is a step of the lock, or leaves the lock alone. */
  lemma RefinesLock(s: State, e: Event, s': State)
    requires Step(s, e, s')
    ensures s'.lock == s.lock || exists le :: L.Step(s.lock, le, s'.lock)
  {
    match e
    case LockEvent(le) => assert L.Step(s.lock, le, s'.lock);
    case ReleaseLock(c) => assert L.Step(s.lock, L.UnlockSection(c), s'.lock);
    case HopDone(c) => assert L.Step(s.lock, L.CallLock(c), s'.lock);
    case _ =>
  }

  lemma StepLock(s: State, e: Event, s': State)
    requires Inv(s) && Step(s, e, s')
    ensures L.Inv(s'.lock) && |s'.lock.at| == |s.lock.at|
  {
    RefinesLock(s, e, s');
    if s'.lock != s.lock {
      var le :| L.Step(s.lock, le, s'.lock);
      L.StepInv(s.lock, le, s'.lock);
      L.StepMoves(s.lock, le, s'.lock);
    }
  }

  /** The coroutine an event is about; the notify events move the waiters in the queue instead. */
  ghost predicate Actor(s: State, e: Event, c: nat) {
    match e
    case LockEvent(le) => le.c == c
    case NotifyOne => s.queue != [] && s.queue[0] == c
    case NotifyAll => c in s.queue
    case ResumeNext(b) => b < |s.batches| && s.batches[b] != [] && s.batches[b][0] == c
    case _ => e.c == c
  }

  /** What a step leaves alone of a coroutine it is not about. */
  ghost predicate Frame(s: State, e: Event, s': State, c: nat)
    requires Shape(s) && Shape(s') && c < |s.waits| == |s'.waits|
  {
    && s'.waits[c] == s.waits[c] && s'.tally[c] == s.tally[c] && s'.wants == s.wants
    && (s'.lock.at[c] == s.lock.at[c] || (s.lock.at[c] == L.Waiting && s'.lock.at[c] == L.Popped))
    && (s'.data == s.data || e.Write?)
    && (|| s'.mutex == s.mutex
        || (e.TakeMutex? && s.mutex == Free && s'.mutex == HeldBy(e.c))
        || (e.PushWaiter? && s.mutex == HeldBy(e.c) && s'.mutex == Free))
  }

  lemma StepShape(s: State, e: Event, s': State)
    requires Inv(s) && Step(s, e, s')
    ensures Shape(s') && |s'.waits| == |s.waits|
  {
    StepLock(s, e, s');
  }

  lemma StepFrame(s: State, e: Event, s': State, c: nat)
    requires Inv(s) && Step(s, e, s') && c < |s.waits| && !Actor(s, e, c)
    ensures Shape(s') && |s'.waits| == |s.waits| && Frame(s, e, s', c)
  {
    StepShape(s, e, s');
    match e
    case LockEvent(le) => L.StepMoves(s.lock, le, s'.lock);
    case ReleaseLock(d) => L.StepMoves(s.lock, L.UnlockSection(d), s'.lock);
    case HopDone(d) => L.StepMoves(s.lock, L.CallLock(d), s'.lock);
    case PushWaiter(d) => assert WaitOk(s, d);
    case _ =>
  }

  lemma OtherWait(s: State, e: Event, s': State, c: nat)
    requires Inv(s) && Step(s, e, s') && c < |s.waits| && !Actor(s, e, c)
    ensures Shape(s') && |s'.waits| == |s.waits| && WaitOk(s', c)
  {
    StepFrame(s, e, s', c);
    assert WaitOk(s, c);
    if e.Write? {
      assert L.Owns(s.lock.at[e.c]);
      assert c < |s.lock.at| && (L.Owns(s.lock.at[c]) || s.waits[c] != Satisfied);
    }
  }

  lemma LockWait(s: State, e: Event, s': State)
    requires Inv(s) && Step(s, e, s') && e.LockEvent?
    ensures Shape(s') && |s'.waits| == |s.waits| && WaitOk(s', e.e.c)
  {
    StepShape(s, e, s');
    assert WaitOk(s, e.e.c);
  }

  lemma ActorWait(s: State, e: Event, s': State)
    requires Inv(s) && Step(s, e, s')
    requires !e.LockEvent? && !e.NotifyOne? && !e.NotifyAll? && !e.ResumeNext?
    ensures Shape(s') && |s'.waits| == |s.waits| && WaitOk(s', e.c)
  {
    StepShape(s, e, s');
    assert WaitOk(s, e.c);
  }

  lemma TakenWaitOk(s: State, e: Event, s': State, c: nat)
    requires Inv(s) && Step(s, e, s') && (e.NotifyOne? || e.NotifyAll? || e.ResumeNext?)
    requires c < |s.waits| && Actor(s, e, c)
    ensures Shape(s') && |s'.waits| == |s.waits| && WaitOk(s', c)
  {
    StepShape(s, e, s');
    assert WaitOk(s, c);
  }

  lemma StepWait(s: State, e: Event, s': State, c: nat)
    requires Inv(s) && Step(s, e, s') && c < |s.waits|
    ensures Shape(s') && |s'.waits| == |s.waits| && WaitOk(s', c)
  {
    if !Actor(s, e, c) {
      OtherWait(s, e, s', c);
    } else if e.LockEvent? {
      LockWait(s, e, s');
    } else if e.NotifyOne? || e.NotifyAll? || e.ResumeNext? {
      TakenWaitOk(s, e, s', c);
    } else {
      ActorWait(s, e, s');
    }
  }

  // -- the queue and the batches --

  lemma PushQueue(s: State, c: nat, s': State)
    requires Inv(s) && Step(s, PushWaiter(c), s')
    ensures Shape(s') && QueueOk(s')
  {
    AppendFresh(s.queue, c);
    assert s.left + (s.queue + [c]) == s.left + s.queue + [c];
  }

  lemma TakeFirstQueue(s: State, s': State)
    requires Inv(s) && Step(s, NotifyOne, s')
    ensures Shape(s') && QueueOk(s')
  {
    if s.queue != [] {
      DropFirst(s.queue);
      assert s'.queue == s.queue[1..];
      assert s.left + [s.queue[0]] + s.queue[1..] == s.left + s.queue;
    }
  }

  lemma TakeAllQueue(s: State, s': State)
    requires Inv(s) && Step(s, NotifyAll, s')
    ensures Shape(s') && QueueOk(s')
  {
    forall d | 0 <= d < |s'.waits| ensures !s'.waits[d].Queued? {
      assert s.waits[d].Queued? ==> d in s.queue;
    }
    assert s.left + s.queue + [] == s.left + s.queue;
  }

  lemma StepQueue(s: State, e: Event, s': State)
    requires Inv(s) && Step(s, e, s')
    ensures Shape(s') && QueueOk(s')
  {
    StepShape(s, e, s');
    match e
    case PushWaiter(c) => PushQueue(s, c, s');
    case NotifyOne => TakeFirstQueue(s, s');
    case NotifyAll => TakeAllQueue(s, s');
    case LockEvent(le) => assert WaitOk(s, le.c);
    case _ =>
      assert s'.queue == s.queue && s'.pushed == s.pushed && s'.left == s.left;
      forall c | 0 <= c < |s.waits| ensures s'.waits[c].Queued? <==> s.waits[c].Queued? {
        if !Actor(s, e, c) {
          StepFrame(s, e, s', c);
        }
      }
  }

  /** Only the notify events and ResumeNext move a coroutine in or out of a batch. */
  lemma BatchFrame(s: State, e: Event, s': State, c: nat)
    requires Inv(s) && Step(s, e, s') && c < |s.waits| && !e.NotifyOne? && !e.NotifyAll? && !e.ResumeNext?
    ensures s'.batches == s.batches && |s'.waits| == |s.waits|
    ensures s.waits[c].Taken? || s'.waits[c].Taken? ==> s'.waits[c] == s.waits[c]
  {
    if !Actor(s, e, c) {
      StepFrame(s, e, s', c);
    }
  }

  lemma NotifyBatch(s: State, e: Event, s': State, b: nat)
    requires Inv(s) && Step(s, e, s') && (e.NotifyOne? || e.NotifyAll?) && Shape(s') && b < |s'.batches|
    ensures BatchOk(s', b)
  {
    if b < |s.batches| {
      assert BatchOk(s, b);
    }
  }

  lemma NotifyTaken(s: State, e: Event, s': State, c: nat)
    requires Inv(s) && Step(s, e, s') && (e.NotifyOne? || e.NotifyAll?) && Shape(s') && c < |s'.waits|
    ensures TakenOk(s', c)
  {
    assert TakenOk(s, c);
  }

  lemma ResumeBatch(s: State, b0: nat, s': State, b: nat)
    requires Inv(s) && Step(s, ResumeNext(b0), s') && Shape(s') && b < |s'.batches|
    ensures BatchOk(s', b)
  {
    assert BatchOk(s, b) && BatchOk(s, b0);
  }

  lemma ResumeTaken(s: State, b0: nat, s': State, c: nat)
    requires Inv(s) && Step(s, ResumeNext(b0), s') && Shape(s') && c < |s'.waits|
    ensures TakenOk(s', c)
  {
    assert TakenOk(s, c) && BatchOk(s, b0);
    var q := s.batches[b0];
    if s'.waits[c].Taken? && s'.waits[c].batch == b0 {
      assert c in q && c != q[0];
      assert q == [q[0]] + q[1..];
    }
  }

  lemma StepBatch(s: State, e: Event, s': State, b: nat)
    requires Inv(s) && Step(s, e, s') && Shape(s') && b < |s'.batches|
    ensures BatchOk(s', b)
  {
    if e.NotifyOne? || e.NotifyAll? {
      NotifyBatch(s, e, s', b);
    } else if e.ResumeNext? {
      ResumeBatch(s, e.b, s', b);
    } else {
      StepShape(s, e, s');
      assert s'.batches == s.batches;
      assert BatchOk(s, b);
      forall i | 0 <= i < |s.batches[b]| ensures s'.waits[s.batches[b][i]] == s.waits[s.batches[b][i]] {
        BatchFrame(s, e, s', s.batches[b][i]);
      }
    }
  }

  lemma StepTaken(s: State, e: Event, s': State, c: nat)
    requires Inv(s) && Step(s, e, s') && Shape(s') && c < |s'.waits| == |s.waits|
    ensures TakenOk(s', c)
  {
    if e.NotifyOne? || e.NotifyAll? {
      NotifyTaken(s, e, s', c);
    } else if e.ResumeNext? {
      ResumeTaken(s, e.b, s', c);
    } else {
      assert TakenOk(s, c);
      BatchFrame(s, e, s', c);
    }
  }

  lemma StepInv(s: State, e: Event, s': State)
    requires Inv(s) && Step(s, e, s')
    ensures Inv(s')
  {
    StepLock(s, e, s');
    StepQueue(s, e, s');
    StepShape(s, e, s');
    forall c: nat | c < |s'.waits| ensures WaitOk(s', c) && TakenOk(s', c) {
      StepWait(s, e, s', c);
      StepTaken(s, e, s', c);
    }
    forall b: nat | b < |s'.batches| ensures BatchOk(s', b) {
      StepBatch(s, e, s', b);
    }
  }

  lemma RunInv(states: seq<State>, events: seq<Event>, n: nat)
    requires IsRun(states, events) && n < |states|
    ensures Inv(states[n])
  {
    forall s, e, s' | Inv(s) && Step(s, e, s') ensures Inv(s') {
      StepInv(s, e, s');
    }
    Runs.InvariantHolds(Init, Step, Inv, states, events, n);
  }

  // ---------- theorems over every run ----------

  /** With a condition variable in use, the lock still excludes, and still strands nobody. */
  lemma LockStaysSafe(states: seq<State>, events: seq<Event>, n: nat)
    requires IsRun(states, events) && n < |states|
    ensures var l := states[n].lock;
      && (forall c, d :: 0 <= c < |l.at| && 0 <= d < |l.at| && L.Owns(l.at[c]) && L.Owns(l.at[d]) ==> c == d)
      && (l.locked <==> exists c :: 0 <= c < |l.at| && L.Owns(l.at[c]))
      && (l.awaiters != [] ==> l.locked || exists c :: 0 <= c < |l.at| && L.Retrying(l.at[c]))
  {
    RunInv(states, events, n);
  }

  /**
   No notification is lost: when a notifier can pop at all, every coroutine that released its lock to wait
   and was not dequeued yet is in the queue; so after notify_all's section none of them is left behind.
   */
  lemma NoLostNotification(states: seq<State>, events: seq<Event>, n: nat, c: nat)
    requires IsRun(states, events) && n < |events| && (events[n].NotifyOne? || events[n].NotifyAll?)
    requires c < |states[n].waits|
    ensures |states[n + 1].waits| == |states[n].waits| == |states[n].tally| == |states[n + 1].tally|
    ensures states[n].tally[c].released == states[n].tally[c].taken + (if c in states[n].queue then 1 else 0)
    ensures events[n].NotifyAll? ==> states[n + 1].tally[c].taken == states[n].tally[c].released
    ensures events[n].NotifyOne? && states[n].queue != [] ==>
      states[n + 1].left == states[n].left + [states[n].queue[0]]
  {
    RunInv(states, events, n);
    var s := states[n];
    assert Step(s, events[n], states[n + 1]);
    StepShape(s, events[n], states[n + 1]);
    assert WaitOk(s, c);
    assert s.waits[c].Queued? <==> c in s.queue;
  }

  /** Waiters leave the queue in the order they joined it, and each is resumed once per wait. */
  lemma FifoAndOncePerWait(states: seq<State>, events: seq<Event>, n: nat)
    requires IsRun(states, events) && n < |states|
    ensures states[n].pushed == states[n].left + states[n].queue
    ensures forall c :: 0 <= c < |states[n].tally| ==>
      states[n].tally[c].resumed <= states[n].tally[c].taken <= states[n].tally[c].released
        <= states[n].tally[c].resumed + 1
  {
    RunInv(states, events, n);
    var s := states[n];
    forall c | 0 <= c < |s.tally|
      ensures s.tally[c].resumed <= s.tally[c].taken <= s.tally[c].released <= s.tally[c].resumed + 1
    {
      assert WaitOk(s, c);
    }
  }

  /** The predicate form returns only with the lock held and the predicate true, and nobody else holds the lock then. */
  lemma AwaitReturnsWithLock(states: seq<State>, events: seq<Event>, n: nat, c: nat)
    requires IsRun(states, events) && n < |states| && c < |states[n].waits|
    ensures var s := states[n];
      && |s.lock.at| == |s.waits| == |s.wants|
      && (s.waits[c] == Satisfied ==> s.lock.at[c] == L.Holding && s.data in s.wants[c])
      && (s.waits[c] == Checking ==> s.lock.at[c] == L.Holding)
      && (s.waits[c] == Satisfied || s.waits[c] == Checking ==>
            forall d :: 0 <= d < |s.lock.at| && d != c ==> !L.Owns(s.lock.at[d]))
  {
    RunInv(states, events, n);
    var s := states[n];
    assert WaitOk(s, c);
    if s.waits[c] == Satisfied || s.waits[c] == Checking {
      assert L.Owns(s.lock.at[c]);
    }
  }

  // ---------- the life of one wait, over every run ----------

  /** Inside await: from the first step towards the condition variable until the lock is taken again. */
  ghost predicate Awaiting(w: Wait) {
    w.WantMutex? || w.HasMutex? || w.Released? || w.Queued? || w.Taken? || w.Resumed? || w.Relocking?
  }

  /** A wait ends only with the lock held and nobody else holding it, unless resume_on or relocking failed. */
  lemma AwaitEndsWithLock(states: seq<State>, events: seq<Event>, n: nat, c: nat)
    requires IsRun(states, events) && n < |events| && c < |states[n].waits| && Awaiting(states[n].waits[c])
    ensures c < |states[n + 1].waits| == |states[n + 1].lock.at|
    ensures !Awaiting(states[n + 1].waits[c]) && events[n] != HopBroken(c) && events[n] != RelockFailed(c) ==>
      && states[n].waits[c].Relocking?
      && states[n + 1].waits[c] == (if states[n].waits[c].loop then Checking else NotWaiting)
      && SoleHolder(states[n + 1].lock, c)
  {
    RunInv(states, events, n);
    RunInv(states, events, n + 1);
    assert Step(states[n], events[n], states[n + 1]);
    StepShape(states[n], events[n], states[n + 1]);
    if !Awaiting(states[n + 1].waits[c]) && events[n] != HopBroken(c) && events[n] != RelockFailed(c) {
      AwaitEnds(states[n], events[n], states[n + 1], c);
      HolderIsSole(states[n + 1].lock, c);
    }
  }

  ghost predicate SoleHolder(l: L.State, c: nat) {
    c < |l.at| && l.at[c] == L.Holding && forall d :: 0 <= d < |l.at| && d != c ==> !L.Owns(l.at[d])
  }

  lemma HolderIsSole(l: L.State, c: nat)
    requires L.OwnersOk(l) && c < |l.at| && l.at[c] == L.Holding
    ensures SoleHolder(l, c)
  {
    assert L.Owns(l.at[c]);
  }

  lemma AwaitEnds(s: State, e: Event, s': State, c: nat)
    requires Inv(s) && Step(s, e, s') && c < |s.waits| == |s'.waits| && |s'.lock.at| == |s.lock.at| && Awaiting(s.waits[c])
    requires !Awaiting(s'.waits[c]) && e != HopBroken(c) && e != RelockFailed(c)
    ensures s.waits[c].Relocking? && s'.waits[c] == (if s.waits[c].loop then Checking else NotWaiting)
    ensures s'.lock.at[c] == L.Holding
  {
    assert WaitOk(s, c);
    if !Actor(s, e, c) {
      StepFrame(s, e, s', c);
    }
  }

  /** How a wait goes on, and when. */
  ghost predicate Advances(s: State, e: Event, c: nat, after: Wait)
    requires Shape(s) && c < |s.waits|
  {
    match s.waits[c]
    case NotWaiting => e.Begin? && e.c == c && after == (if e.loop then Checking else WantMutex(false))
    case Satisfied =>
      || (e.Begin? && e.c == c && after == (if e.loop then Checking else WantMutex(false)))
      || ((e == LockEvent(L.UnlockSection(c)) || (e.Write? && e.c == c)) && after == NotWaiting)
    case Checking => e == Check(c) && after == (if s.data in s.wants[c] then Satisfied else WantMutex(true))
    case WantMutex(loop) => e == TakeMutex(c) && after == HasMutex(loop)
    case HasMutex(loop) => e == ReleaseLock(c) && after == Released(loop)
    case Released(loop) => e == PushWaiter(c) && after == Queued(loop)
    case Queued(loop) => (e == NotifyAll || (e == NotifyOne && s.queue != [] && s.queue[0] == c))
                         && after == Taken(loop, |s.batches|)
    case Taken(loop, b) => e == ResumeNext(b) && b < |s.batches| && s.batches[b] != [] && s.batches[b][0] == c
                           && after == Resumed(loop)
    case Resumed(loop) => (e == HopDone(c) && after == Relocking(loop)) || (e == HopBroken(c) && after == NotWaiting)
    case Relocking(loop) =>
      || (e == Relocked(c) && after == (if loop then Checking else NotWaiting))
      || (e == RelockFailed(c) && after == NotWaiting)
  }

  /** A coroutine's wait moves only in these ways. */
  lemma Life(states: seq<State>, events: seq<Event>, n: nat, c: nat)
    requires IsRun(states, events) && n < |events| && c < |states[n].waits|
    ensures Shape(states[n]) && c < |states[n + 1].waits|
    ensures states[n + 1].waits[c] == states[n].waits[c] || Advances(states[n], events[n], c, states[n + 1].waits[c])
  {
    RunInv(states, events, n);
    assert Step(states[n], events[n], states[n + 1]);
    StepShape(states[n], events[n], states[n + 1]);
    LifeStep(states[n], events[n], states[n + 1], c);
  }

  lemma LifeStep(s: State, e: Event, s': State, c: nat)
    requires Inv(s) && Step(s, e, s') && c < |s.waits| == |s'.waits|
    ensures s'.waits[c] == s.waits[c] || Advances(s, e, c, s'.waits[c])
  {
    if e == NotifyOne || e == NotifyAll {
      NotifyLife(s, e, s', c);
    } else if e.ResumeNext? {
      assert BatchOk(s, e.b);
      ResumeLife(s, e.b, s', c);
    } else {
      OwnLife(s, e, s', c);
    }
  }

  lemma NotifyLife(s: State, e: Event, s': State, c: nat)
    requires Shape(s) && QueueOk(s) && Step(s, e, s') && (e == NotifyOne || e == NotifyAll)
    requires c < |s.waits| == |s'.waits|
    ensures s'.waits[c] == s.waits[c] || Advances(s, e, c, s'.waits[c])
  {
    assert s.waits[c].Queued? <==> c in s.queue;
  }

  lemma ResumeLife(s: State, b: nat, s': State, c: nat)
    requires Shape(s) && b < |s.batches| && BatchOk(s, b) && Step(s, ResumeNext(b), s')
    requires c < |s.waits| == |s'.waits|
    ensures s'.waits[c] == s.waits[c] || Advances(s, ResumeNext(b), c, s'.waits[c])
  {
  }

  lemma OwnLife(s: State, e: Event, s': State, c: nat)
    requires Inv(s) && Step(s, e, s') && !e.NotifyOne? && !e.NotifyAll? && !e.ResumeNext?
    requires c < |s.waits| == |s'.waits|
    ensures s'.waits[c] == s.waits[c] || Advances(s, e, c, s'.waits[c])
  {
    assert WaitOk(s, c);
  }

  /** The events move the wait they are about: a true predicate ends it, a false one goes on to release the lock. */
  lemma EventsMove(states: seq<State>, events: seq<Event>, n: nat, c: nat)
    requires IsRun(states, events) && n < |events| && c < |states[n].waits|
    ensures c < |states[n + 1].waits| && Shape(states[n])
    ensures events[n] == Check(c) ==>
      states[n + 1].waits[c] == if states[n].data in states[n].wants[c] then Satisfied else WantMutex(true)
    ensures events[n] == NotifyAll && states[n].waits[c].Queued? ==> states[n + 1].waits[c].Taken?
    ensures events[n] == NotifyOne && states[n].queue != [] && states[n].queue[0] == c ==> states[n + 1].waits[c].Taken?
    ensures events[n] == TakeMutex(c) || events[n] == ReleaseLock(c) || events[n] == PushWaiter(c)
            || events[n] == HopDone(c) || events[n] == HopBroken(c) || events[n] == Relocked(c) || events[n] == RelockFailed(c)
            ==> states[n + 1].waits[c] != states[n].waits[c]
  {
    RunInv(states, events, n);
    assert Step(states[n], events[n], states[n + 1]);
    StepShape(states[n], events[n], states[n + 1]);
    assert states[n].waits[c].Queued? <==> c in states[n].queue;
  }

  /** What each event does to the lock: waiting releases it, a resumed waiter calls lock again. */
  ghost function LockAfter(s: State, e: Event): L.State
    requires Enabled(s, e)
  {
    match e
    case LockEvent(le) => L.Apply(s.lock, le)
    case ReleaseLock(c) => L.Apply(s.lock, L.UnlockSection(c))
    case HopDone(c) => L.Apply(s.lock, L.CallLock(c))
    case _ => s.lock
  }

  /** The lists, the mutex, the data and the lock change in these ways and no others. */
  lemma Traffic(states: seq<State>, events: seq<Event>, n: nat)
    requires IsRun(states, events) && n < |events|
    ensures Enabled(states[n], events[n]) && states[n + 1].lock == LockAfter(states[n], events[n])
    ensures var s, e, s' := states[n], events[n], states[n + 1];
      && s'.queue == (match e case PushWaiter(c) => s.queue + [c]
                              case NotifyAll => []
                              case NotifyOne => if s.queue == [] then [] else s.queue[1..]
                              case _ => s.queue)
      && s'.batches == (match e case NotifyAll => s.batches + [s.queue]
                                case NotifyOne => if s.queue == [] then s.batches else s.batches + [[s.queue[0]]]
                                case ResumeNext(b) => s.batches[b := s.batches[b][1..]]
                                case _ => s.batches)
      && s'.mutex == (match e case TakeMutex(c) => HeldBy(c) case PushWaiter(c) => Free case _ => s.mutex)
      && s'.data == (if e.Write? then e.value else s.data) && s'.wants == s.wants
  {
    assert Step(states[n], events[n], states[n + 1]);
  }
}
