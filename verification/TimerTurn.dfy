/**
 The turns of process_timers' firing loop as a function: what a turn makes of the set, given what it finds in fields that
 belong to other threads. A turn reads the clock when it fires a timer.
 */
module TimerTurn {
  import opened TimerSet

  /** In the clock's units, which are nanoseconds. */
  const MILLISECOND := 1_000_000

  /** What the loop changes; a timer that is put back gets the next node. */
  datatype Loop = Loop(timers: seq<Node>, nextNode: nat, deadline: Deadlines)

  /** What it only reads. */
  datatype Setting = Setting(cancelled: set<Timer>, frequency: map<Timer, nat>)

  function Frequency(g: Setting, t: Timer): nat {
    if t in g.frequency then g.frequency[t] else 0
  }

  predicate Continues(now: int, q: Loop) {
    q.timers != [] && At(q.deadline, q.timers[0].timer) <= now
  }

  /** The first timer leaves the set and its deadline becomes d. */
  function TakeFirst(q: Loop, d: int): Loop
    requires q.timers != []
  {
    q.(timers := q.timers[1..], deadline := q.deadline[q.timers[0].timer := d])
  }

  function PutBack(q: Loop, t: Timer): Loop {
    q.(timers := Insert(q.timers, q.deadline, Node(q.nextNode, t)), nextNode := q.nextNode + 1)
  }

  function Refire(q: Loop, d: int): Loop
    requires q.timers != []
  {
    PutBack(TakeFirst(q, d), q.timers[0].timer)
  }

  function Drop(q: Loop): Loop
    requires q.timers != []
  {
    q.(timers := q.timers[1..])
  }

  /** One turn with this clock reading; a loop that has ended stays as it is. */
  function Turn(now: int, g: Setting, q: Loop, reading: int): Loop {
    if !Continues(now, q) then q
    else
      var t := q.timers[0].timer;
      if t in g.cancelled then Drop(q)
      else
        var d := reading + Frequency(g, t) * MILLISECOND;
        if t.isOneshot then TakeFirst(q, d) else Refire(q, d)
  }

  lemma TurnCases(now: int, g: Setting, q: Loop, reading: int)
    requires Continues(now, q)
    ensures var t, q' := q.timers[0].timer, Turn(now, g, q, reading);
            var d := reading + Frequency(g, t) * MILLISECOND;
            q' == if t in g.cancelled then Drop(q) else if t.isOneshot then TakeFirst(q, d) else Refire(q, d)
  {
  }

  lemma TurnFires(now: int, cancelled: set<Timer>, q: Loop, frequency: nat, reading: int)
    requires Continues(now, q)
    ensures var t := q.timers[0].timer;
            var g, d := Setting(cancelled, map[t := frequency]), reading + frequency * MILLISECOND;
            Turn(now, g, q, reading) ==
              if t in cancelled then Drop(q) else if t.isOneshot then TakeFirst(q, d) else Refire(q, d)
  {
    var t := q.timers[0].timer;
    var g := Setting(cancelled, map[t := frequency]);
    assert Frequency(g, t) == frequency;
    TurnCases(now, g, q, reading);
  }

  /** What a turn found and read. */
  datatype Reading = Reading(setting: Setting, time: int)

  /** As many turns as there are readings. */
  function After(now: int, q: Loop, readings: seq<Reading>): Loop {
    if readings == [] then q
    else
      var last := readings[|readings| - 1];
      Turn(now, last.setting, After(now, q, readings[..|readings| - 1]), last.time)
  }

  lemma AfterOneMore(now: int, q: Loop, readings: seq<Reading>, last: Reading)
    ensures After(now, q, readings + [last]) == Turn(now, last.setting, After(now, q, readings), last.time)
  {
    assert (readings + [last])[..|readings|] == readings;
  }
}
