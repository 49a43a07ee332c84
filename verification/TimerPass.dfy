/**
 timer_queue_internal: applying a batch of requests and firing the expired timers. The clock, cancellation and the
 frequencies belong to other threads: a clock reading is any value not below the last one, a timer may turn out
 cancelled at any time but never the other way round, and the frequency of a periodic timer may be any number of
 milliseconds from 1 on. A one-shot timer has frequency 0.
 */
module TimerPass {
  import opened TimerSet
  import opened TimerTurn

  const DAY := 24 * 60 * 60 * 1000 * MILLISECOND

  datatype Operation = Add | Remove

  datatype Request = Request(timer: Timer, op: Operation)

  /** Each add is for a timer that is not in the set by then. */
  ghost predicate Acceptable(timers: set<Timer>, requests: seq<Request>)
    decreases |requests|
  {
    requests == [] || (
      && (requests[0].op == Add ==> requests[0].timer !in timers)
      && Acceptable(AfterRequest(timers, requests[0]), requests[1..]))
  }

  function AfterRequest(timers: set<Timer>, r: Request): set<Timer> {
    match r.op
    case Add => timers + {r.timer}
    case Remove => timers - {r.timer}
  }

  function AfterRequests(timers: set<Timer>, requests: seq<Request>): set<Timer>
    decreases |requests|
  {
    if requests == [] then timers else AfterRequests(AfterRequest(timers, requests[0]), requests[1..])
  }

  ghost function Expired(timers: set<Timer>, deadline: Deadlines, now: int): set<Timer> {
    set t | t in timers && At(deadline, t) <= now
  }

  ghost function Periodic(fired: seq<Timer>): set<Timer> {
    set t | t in fired && !t.isOneshot
  }

  ghost function Range(s: seq<Timer>): set<Timer> {
    set t | t in s
  }

  /**
   What a firing pass at time `now` does to a set of timers: each expired one is either fired, once, or skipped, in
   deadline order; those fired again later stay, with a deadline past `now`; nothing else changes.
   */
  ghost predicate Outcome(before: set<Timer>, deadline: Deadlines, now: int, fired: seq<Timer>, skipped: set<Timer>,
                          after: set<Timer>, deadline': Deadlines)
  {
    && Range(fired) + skipped == Expired(before, deadline, now)
    && Progress(before, deadline, now, fired, skipped, after, deadline')
  }

  /** The same while the pass is under way. */
  ghost predicate Progress(before: set<Timer>, deadline: Deadlines, now: int, fired: seq<Timer>, skipped: set<Timer>,
                           after: set<Timer>, deadline': Deadlines)
  {
    && Range(fired) + skipped <= Expired(before, deadline, now)
    && (forall i, j :: 0 <= i < j < |fired| ==> fired[i] != fired[j])
    && (forall i, j :: 0 <= i < j < |fired| ==> At(deadline, fired[i]) <= At(deadline, fired[j]))
    && Range(fired) !! skipped
    && after == (before - Range(fired) - skipped) + Periodic(fired)
    && (forall t :: t !in Range(fired) ==> At(deadline', t) == At(deadline, t))
    && (forall t :: t in Range(fired) && !t.isOneshot ==> now < At(deadline', t))
  }

  ghost function Unexamined(before: set<Timer>, deadline: Deadlines, now: int, fired: seq<Timer>,
                            skipped: set<Timer>): set<Timer>
  {
    Expired(before, deadline, now) - Range(fired) - skipped
  }

  ghost predicate IsEarliest(t: Timer, others: set<Timer>, deadline: Deadlines) {
    forall u :: u in others ==> At(deadline, t) <= At(deadline, u)
  }

  ghost predicate InOrder(fired: seq<Timer>, later: set<Timer>, deadline: Deadlines) {
    forall t :: t in fired ==> IsEarliest(t, later, deadline)
  }

  lemma ReinsertKeeps(nodes: seq<Node>, mapper: map<Timer, nat>, nextNode: nat, deadline: Deadlines, t: Timer)
    requires Agree(nodes, mapper - {t}, nextNode) && Sorted(nodes, deadline) && t !in Elements(nodes)
    ensures var after := Insert(nodes, deadline, Node(nextNode, t));
            && Agree(after, mapper[t := nextNode], nextNode + 1) && Sorted(after, deadline)
            && Elements(after) == Elements(nodes) + {t}
  {
    InsertKeeps(nodes, mapper - {t}, nextNode, deadline, t);
    assert (mapper - {t})[t := nextNode] == mapper[t := nextNode];
  }

  /** What held when the firing loop began. */
  datatype Pass = Pass(before: set<Timer>, deadline: Deadlines, now: int, cancelled: set<Timer>, posted: seq<Timer>)

  /** Everything the firing loop keeps. */
  ghost predicate UnderWay(p: Pass, fired: seq<Timer>, skipped: set<Timer>, timers: set<Timer>, deadline: Deadlines) {
    && Progress(p.before, p.deadline, p.now, fired, skipped, timers, deadline)
    && InOrder(fired, Left(p, fired, skipped), p.deadline)
  }

  ghost function Left(p: Pass, fired: seq<Timer>, skipped: set<Timer>): set<Timer> {
    Unexamined(p.before, p.deadline, p.now, fired, skipped)
  }

  /** A timer is fired only if it was not cancelled when the pass began, and skipped only if it is cancelled. */
  ghost predicate Heeds(p: Pass, fired: seq<Timer>, skipped: set<Timer>, cancelled: set<Timer>, posted: seq<Timer>) {
    p.cancelled <= cancelled && Range(fired) !! p.cancelled && skipped <= cancelled && posted == p.posted + fired
  }

  lemma HeedsStep(p: Pass, fired: seq<Timer>, skipped: set<Timer>, cancelled: set<Timer>, posted: seq<Timer>, t: Timer,
                  wasFired: bool, cancelled': set<Timer>, posted': seq<Timer>)
    requires Heeds(p, fired, skipped, cancelled, posted) && cancelled <= cancelled'
    requires if wasFired then t !in cancelled else t in cancelled'
    requires posted' == posted + (if wasFired then [t] else [])
    ensures wasFired ==> Heeds(p, fired + [t], skipped, cancelled', posted')
    ensures !wasFired ==> Heeds(p, fired, skipped + {t}, cancelled', posted')
  {
    assert Range(fired + [t]) == Range(fired) + {t};
    assert posted + [t] == p.posted + (fired + [t]);
  }

  /** What fire read: the timer's frequency in milliseconds, and the clock. */
  datatype Firing = Firing(frequency: nat, reading: int)

  /** A firing with readings of the timer's own kind, the clock between these times. */
  ghost predicate IsFiring(t: Timer, f: Firing, from: int, until: int) {
    (if t.isOneshot then f.frequency == 0 else 1 <= f.frequency) && from <= f.reading <= until
  }

  /** Timer t is due the frequency's milliseconds after the clock was read. */
  ghost predicate DueAfter(t: Timer, f: Firing, deadline: Deadlines) {
    At(deadline, t) == f.reading + f.frequency * 1_000_000
  }

  /** Every timer fired in a pass is due again as its firing says. */
  ghost predicate Rearmed(fired: seq<Timer>, firings: seq<Firing>, now: int, time: int, deadline: Deadlines) {
    && |firings| == |fired|
    && (forall i :: 0 <= i < |fired| ==> IsFiring(fired[i], firings[i], now, time))
    && (forall i :: 0 <= i < |fired| ==> DueAfter(fired[i], firings[i], deadline))
  }

  lemma RearmedStep(fired: seq<Timer>, firings: seq<Firing>, now: int, time: int, deadline: Deadlines, t: Timer, f: Firing,
                    time': int, deadline': Deadlines)
    requires Rearmed(fired, firings, now, time, deadline) && t !in fired && time <= time'
    requires IsFiring(t, f, now, time') && DueAfter(t, f, deadline')
    requires forall u :: u != t ==> At(deadline', u) == At(deadline, u)
    ensures Rearmed(fired + [t], firings + [f], now, time', deadline')
  {
    var fired', firings' := fired + [t], firings + [f];
    forall i | 0 <= i < |fired'|
      ensures IsFiring(fired'[i], firings'[i], now, time') && DueAfter(fired'[i], firings'[i], deadline')
    {
      if i < |fired| {
        assert fired[i] in fired && IsFiring(fired[i], firings[i], now, time) && DueAfter(fired[i], firings[i], deadline);
      }
    }
  }

  lemma RearmedStays(fired: seq<Timer>, firings: seq<Firing>, now: int, time: int, deadline: Deadlines,
                     time': int, deadline': Deadlines)
    requires Rearmed(fired, firings, now, time, deadline) && time <= time'
    requires forall u :: At(deadline', u) == At(deadline, u)
    ensures Rearmed(fired, firings, now, time', deadline')
  {
    forall i | 0 <= i < |fired|
      ensures IsFiring(fired[i], firings[i], now, time') && DueAfter(fired[i], firings[i], deadline')
    {
      assert IsFiring(fired[i], firings[i], now, time) && DueAfter(fired[i], firings[i], deadline);
    }
  }

  class TimerQueueInternal {
    var timers: seq<Node>
    var mapper: map<Timer, nat>
    var nextNode: nat

    // The state of the timers themselves, the clock, and the timers handed to their executors so far.
    var deadline: Deadlines
    var cancelled: set<Timer>
    var time: int
    var posted: seq<Timer>

    ghost predicate Valid()
      reads this
    {
      Agree(timers, mapper, nextNode) && Sorted(timers, deadline)
    }

    /** What the firing loop works on. */
    ghost function View(): Loop
      reads this
    {
      Loop(timers, nextNode, deadline)
    }

    constructor (deadline: Deadlines, cancelled: set<Timer>, time: int)
      ensures Valid() && timers == [] && posted == []
      ensures this.deadline == deadline && this.cancelled == cancelled && this.time == time
    {
      timers, mapper, nextNode := [], map[], 0;
      this.deadline, this.cancelled, this.time, posted := deadline, cancelled, time, [];
    }

    // ---------- the environment ----------

    method ReadClock() returns (now: int)
      modifies this`time
      ensures now == time && old(time) <= time
    {
      var reading: int := *;
      if time < reading {
        time := reading;
      }
      now := time;
    }

    method IsCancelled(t: Timer) returns (c: bool)
      modifies this`cancelled
      ensures c == (t in cancelled) && old(cancelled) <= cancelled
    {
      var justNow: bool := *;
      if justNow {
        cancelled := cancelled + {t};
      }
      c := t in cancelled;
    }

    /** One-shot timers are made with frequency 0. */
    method ReadFrequency(t: Timer) returns (frequency: nat)
      ensures if t.isOneshot then frequency == 0 else 1 <= frequency
    {
      var f: int := *;
      frequency := if t.isOneshot then 0 else if 1 <= f then f else 1;
    }

    // ---------- the queue ----------

    method AddTimerInternal(t: Timer)
      requires Valid() && t !in mapper
      modifies this`timers, this`mapper, this`nextNode
      ensures Valid() && Elements(timers) == old(Elements(timers)) + {t}
    {
      AddKeeps(timers, mapper, nextNode, deadline, t);
      timers, mapper, nextNode := Insert(timers, deadline, Node(nextNode, t)), mapper[t := nextNode], nextNode + 1;
    }

    method RemoveTimerInternal(t: Timer)
      requires Valid() && t in cancelled
      modifies this`timers, this`mapper
      ensures Valid() && Elements(timers) == old(Elements(timers)) - {t}
    {
      if t !in mapper {
        assert t.isOneshot || t in cancelled;
        return;
      }
      EntryPoints(timers, mapper, nextNode, t);
      var k := Find(timers, mapper[t]);
      EraseKeeps(timers, mapper, nextNode, deadline, k);
      timers, mapper := EraseAt(timers, k), mapper - {t};
    }

    method ProcessRequestQueue(requests: seq<Request>)
      requires Valid() && Acceptable(Elements(timers), requests)
      requires forall r :: r in requests && r.op == Remove ==> r.timer in cancelled
      modifies this`timers, this`mapper, this`nextNode
      ensures Valid() && Elements(timers) == AfterRequests(old(Elements(timers)), requests)
    {
      var rest := requests;
      while rest != []
        invariant Valid() && Acceptable(Elements(timers), rest)
        invariant forall r :: r in rest ==> r in requests
        invariant AfterRequests(Elements(timers), rest) == AfterRequests(old(Elements(timers)), requests)
        decreases |rest|
      {
        var r := rest[0];
        if r.op == Add {
          AddTimerInternal(r.timer);
        } else {
          assert r in requests;
          RemoveTimerInternal(r.timer);
        }
        rest := rest[1..];
      }
    }

    /** fire: the timer is out of the set, so its deadline may change; it is due its frequency after the clock reading. */
    method Fire(t: Timer) returns (ghost f: Firing)
      requires Sorted(timers, deadline) && t !in Elements(timers)
      modifies this`deadline, this`posted, this`time
      ensures Sorted(timers, deadline) && old(time) <= time
      ensures posted == old(posted) + [t]
      ensures IsFiring(t, f, old(time), time) && DueAfter(t, f, deadline)
      ensures deadline == old(deadline)[t := f.reading + f.frequency * MILLISECOND]
    {
      var frequency := ReadFrequency(t);
      var now := ReadClock();
      f := Firing(frequency, now);
      SortedElsewhere(timers, deadline, t, now + frequency * MILLISECOND);
      deadline := deadline[t := now + frequency * MILLISECOND];
      posted := posted + [t];
    }

    /** The timer is out of the set, but the map still has an entry for it. */
    ghost predicate Extracted(t: Timer)
      reads this
    {
      Agree(timers, mapper - {t}, nextNode) && Sorted(timers, deadline) && t in mapper && t !in Elements(timers)
    }

    method ExtractFirst() returns (t: Timer)
      requires Valid() && timers != []
      modifies this`timers
      ensures Extracted(t) && t == old(timers[0].timer) && Elements(timers) == old(Elements(timers)) - {t}
      ensures timers == old(timers)[1..]
      ensures t in old(Elements(timers))
    {
      t := timers[0].timer;
      EraseKeeps(timers, mapper, nextNode, deadline, 0);
      timers := EraseAt(timers, 0);
    }

    method Reinsert(t: Timer)
      requires Extracted(t)
      modifies this`timers, this`mapper, this`nextNode
      ensures Valid() && Elements(timers) == old(Elements(timers)) + {t}
      ensures View() == PutBack(old(View()), t)
    {
      ReinsertKeeps(timers, mapper, nextNode, deadline, t);
      timers, mapper, nextNode := Insert(timers, deadline, Node(nextNode, t)), mapper[t := nextNode], nextNode + 1;
    }

    /** The map lets go of a timer that is not coming back. */
    method Forget(t: Timer)
      requires Extracted(t)
      modifies this`mapper
      ensures Valid()
    {
      mapper := mapper - {t};
    }

    /** The first timer is extracted, and fired if it is not cancelled. */
    method Examine(now: int) returns (t: Timer, fired: bool, ghost f: Firing)
      requires Valid() && timers != []
      modifies this`timers, this`cancelled, this`deadline, this`posted, this`time
      ensures Extracted(t) && t == old(timers[0].timer) && Elements(timers) == old(Elements(timers)) - {t}
      ensures t in old(Elements(timers)) && old(time) <= time && old(cancelled) <= cancelled
      ensures fired <==> t !in cancelled
      ensures forall u :: u != t || !fired ==> At(deadline, u) == At(old(deadline), u)
      ensures posted == old(posted) + (if fired then [t] else [])
      ensures fired ==> IsFiring(t, f, old(time), time) && DueAfter(t, f, deadline)
      ensures View() == if fired then TakeFirst(old(View()), f.reading + f.frequency * MILLISECOND) else Drop(old(View()))
    {
      f := Firing(0, now);
      t := ExtractFirst();
      var c := IsCancelled(t);
      fired := !c;
      if fired {
        f := Fire(t);
      }
    }

    /**
     The body of the firing loop for an expired first timer; `fired` tells whether it was fired, and `f` what it read then.
     It is the turn of the loop with these readings.
     */
    method ProcessFirst(now: int) returns (t: Timer, fired: bool, ghost f: Firing)
      requires Valid() && timers != [] && now <= time && At(deadline, timers[0].timer) <= now
      modifies this
      ensures Valid() && old(time) <= time && old(cancelled) <= cancelled
      ensures t == old(timers[0].timer)
      ensures if fired then t !in old(cancelled) else t in cancelled
      ensures posted == old(posted) + (if fired then [t] else [])
      ensures Elements(timers) == old(Elements(timers)) - (if fired && !t.isOneshot then {} else {t})
      ensures forall u :: u != t || !fired ==> At(deadline, u) == At(old(deadline), u)
      ensures fired ==> IsFiring(t, f, old(time), time) && DueAfter(t, f, deadline)
      ensures View() == Turn(now, Setting(cancelled, map[t := f.frequency]), old(View()), f.reading)
    {
      ghost var before := View();
      t, fired, f := Examine(now);
      TurnFires(now, cancelled, before, f.frequency, f.reading);
      if t.isOneshot || !fired {
        Forget(t);
      } else {
        Reinsert(t);
      }
    }

    /** One turn of the loop, with what it means for the pass as a whole. */
    method ProcessNext(ghost p: Pass, now: int, ghost fired: seq<Timer>, ghost firings: seq<Firing>,
                       ghost skipped: set<Timer>)
      returns (ghost fired': seq<Timer>, ghost firings': seq<Firing>, ghost skipped': set<Timer>, ghost found: Reading)
      requires Valid() && timers != [] && p.now == now <= time && At(deadline, timers[0].timer) <= now
      requires UnderWay(p, fired, skipped, Elements(timers), deadline)
      requires Heeds(p, fired, skipped, cancelled, posted)
      requires Rearmed(fired, firings, now, time, deadline)
      modifies this
      ensures Valid() && now <= time
      ensures UnderWay(p, fired', skipped', Elements(timers), deadline)
      ensures Heeds(p, fired', skipped', cancelled, posted)
      ensures Rearmed(fired', firings', now, time, deadline)
      ensures View() == Turn(now, found.setting, old(View()), found.time)
      ensures Left(p, fired', skipped') < Left(p, fired, skipped)
    {
      FirstIsNext(timers, deadline, p.before, p.deadline, now, fired, skipped);
      ghost var timers0, deadline0, cancelled0, posted0, time0 := Elements(timers), deadline, cancelled, posted, time;
      ghost var f;
      var t, wasFired;
      t, wasFired, f := ProcessFirst(now);
      found := Reading(Setting(cancelled, map[t := f.frequency]), f.reading);
      HeedsStep(p, fired, skipped, cancelled0, posted0, t, wasFired, cancelled, posted);
      if wasFired {
        FiredStep(p, fired, skipped, timers0, deadline0, t, Elements(timers), deadline);
        RearmedStep(fired, firings, now, time0, deadline0, t, f, time, deadline);
        fired', firings', skipped' := fired + [t], firings + [f], skipped;
      } else {
        SkippedStep(p, fired, skipped, timers0, deadline0, t, Elements(timers), deadline);
        RearmedStays(fired, firings, now, time0, deadline0, time, deadline);
        fired', firings', skipped' := fired, firings, skipped + {t};
      }
    }

    /** The firing loop: the turns with the readings it found. */
    method FireExpired(now: int)
      returns (ghost p: Pass, ghost fired: seq<Timer>, ghost firings: seq<Firing>, ghost skipped: set<Timer>,
               ghost readings: seq<Reading>)
      requires Valid() && now <= time
      modifies this
      ensures Valid() && now <= time
      ensures p == old(Pass(Elements(timers), deadline, now, cancelled, posted))
      ensures UnderWay(p, fired, skipped, Elements(timers), deadline)
      ensures Heeds(p, fired, skipped, cancelled, posted)
      ensures Rearmed(fired, firings, now, time, deadline)
      ensures View() == After(now, old(View()), readings) && !Continues(now, View())
    {
      p, fired, firings, skipped, readings := Pass(Elements(timers), deadline, now, cancelled, posted), [], [], {}, [];
      assert Periodic([]) == {} && Range([]) == {};
      while timers != [] && At(deadline, timers[0].timer) <= now
        invariant Valid() && now <= time
        invariant UnderWay(p, fired, skipped, Elements(timers), deadline)
        invariant Heeds(p, fired, skipped, cancelled, posted)
        invariant Rearmed(fired, firings, now, time, deadline)
        invariant View() == After(now, old(View()), readings)
        decreases Left(p, fired, skipped)
      {
        ghost var found;
        fired, firings, skipped, found := ProcessNext(p, now, fired, firings, skipped);
        AfterOneMore(now, old(View()), readings, found);
        readings := readings + [found];
      }
    }

    /** `now` is the clock reading the pass goes by. */
    method ProcessTimers(requests: seq<Request>)
      returns (next: int, ghost now: int, ghost fired: seq<Timer>, ghost firings: seq<Firing>, ghost skipped: set<Timer>)
      requires Valid() && Acceptable(Elements(timers), requests)
      requires forall r :: r in requests && r.op == Remove ==> r.timer in cancelled
      modifies this
      ensures Valid() && old(time) <= now <= time && old(cancelled) <= cancelled
      ensures Outcome(AfterRequests(old(Elements(timers)), requests), old(deadline), now, fired, skipped,
                      Elements(timers), deadline)
      ensures Rearmed(fired, firings, now, time, deadline)
      ensures posted == old(posted) + fired
      ensures skipped <= cancelled && Range(fired) !! old(cancelled)
      ensures now < next
      ensures if timers == [] then next == now + DAY else IsNextDeadline(Elements(timers), deadline, next)
    {
      ProcessRequestQueue(requests);
      var now' := ReadClock();
      now := now';
      ghost var p, readings;
      p, fired, firings, skipped, readings := FireExpired(now');
      AllExamined(timers, deadline, p.before, p.deadline, now, fired, skipped);
      if timers == [] {
        next := now' + DAY;
      } else {
        next := At(deadline, timers[0].timer);
        FirstIsMinimal(timers, deadline);
      }
    }
  }

  ghost predicate IsNextDeadline(timers: set<Timer>, deadline: Deadlines, next: int) {
    (exists t :: t in timers && At(deadline, t) == next) && (forall t :: t in timers ==> next <= At(deadline, t))
  }

  lemma FirstIsMinimal(nodes: seq<Node>, deadline: Deadlines)
    requires Sorted(nodes, deadline) && nodes != []
    ensures nodes[0].timer in Elements(nodes)
    ensures forall t :: t in Elements(nodes) ==> At(deadline, nodes[0].timer) <= At(deadline, t)
  {
    assert nodes[0] in nodes;
    forall t | t in Elements(nodes) ensures At(deadline, nodes[0].timer) <= At(deadline, t) {
      var n :| n in nodes && n.timer == t;
      var i :| 0 <= i < |nodes| && nodes[i] == n;
      assert i != 0 ==> NotLater(nodes[0], nodes[i], deadline);
    }
  }

  /** An expired first timer has not been examined in this pass, and none of those is due earlier. */
  lemma FirstIsNext(nodes: seq<Node>, deadline: Deadlines, before: set<Timer>, deadline0: Deadlines, now: int,
                    fired: seq<Timer>, skipped: set<Timer>)
    requires Sorted(nodes, deadline) && nodes != [] && At(deadline, nodes[0].timer) <= now
    requires Progress(before, deadline0, now, fired, skipped, Elements(nodes), deadline)
    ensures nodes[0].timer in Unexamined(before, deadline0, now, fired, skipped)
    ensures IsEarliest(nodes[0].timer, Unexamined(before, deadline0, now, fired, skipped), deadline0)
  {
    FirstIsMinimal(nodes, deadline);
  }

  /** When the first timer is not expired, nothing expired is left. */
  lemma AllExamined(nodes: seq<Node>, deadline: Deadlines, before: set<Timer>, deadline0: Deadlines, now: int,
                    fired: seq<Timer>, skipped: set<Timer>)
    requires Sorted(nodes, deadline) && (nodes != [] ==> now < At(deadline, nodes[0].timer))
    requires Progress(before, deadline0, now, fired, skipped, Elements(nodes), deadline)
    ensures Outcome(before, deadline0, now, fired, skipped, Elements(nodes), deadline)
  {
    if nodes != [] {
      FirstIsMinimal(nodes, deadline);
    }
    forall t | t in Expired(before, deadline0, now) ensures t in Range(fired) + skipped {
      assert t in Range(fired) + skipped || t in Elements(nodes);
    }
  }

  lemma SkippedStep(p: Pass, fired: seq<Timer>, skipped: set<Timer>, timers: set<Timer>, deadline: Deadlines, t: Timer,
                    timers': set<Timer>, deadline': Deadlines)
    requires UnderWay(p, fired, skipped, timers, deadline) && t in Left(p, fired, skipped)
    requires timers' == timers - {t}
    requires forall u :: At(deadline', u) == At(deadline, u)
    ensures Left(p, fired, skipped + {t}) == Left(p, fired, skipped) - {t}
    ensures UnderWay(p, fired, skipped + {t}, timers', deadline')
  {
    assert t !in Periodic(fired);
  }

  lemma FiredStep(p: Pass, fired: seq<Timer>, skipped: set<Timer>, timers: set<Timer>, deadline: Deadlines, t: Timer,
                  timers': set<Timer>, deadline': Deadlines)
    requires UnderWay(p, fired, skipped, timers, deadline) && t in Left(p, fired, skipped)
    requires IsEarliest(t, Left(p, fired, skipped), p.deadline)
    requires timers' == timers - (if t.isOneshot then {t} else {})
    requires forall u :: u != t ==> At(deadline', u) == At(deadline, u)
    requires !t.isOneshot ==> p.now < At(deadline', t)
    ensures Left(p, fired + [t], skipped) == Left(p, fired, skipped) - {t}
    ensures UnderWay(p, fired + [t], skipped, timers', deadline')
  {
    var fired' := fired + [t];
    assert Range(fired') == Range(fired) + {t};
    assert Periodic(fired') == Periodic(fired) + (if t.isOneshot then {} else {t});
    assert t in timers && t !in Periodic(fired);
    forall i, j | 0 <= i < j < |fired'|
      ensures fired'[i] != fired'[j] && At(p.deadline, fired'[i]) <= At(p.deadline, fired'[j])
    {
      assert fired'[i] in fired;
      assert IsEarliest(fired'[i], Left(p, fired, skipped), p.deadline);
    }
  }
}
