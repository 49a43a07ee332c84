/**
 When the firing loop of process_timers ends, for any frequencies, zero included. Other threads may change frequencies and
 cancel timers at any time: the i-th turn of the loop reads the clock as clock(i), and finds env(i).
 */
module TimerTermination {
  import opened TimerSet
  import opened TimerPass
  import opened TimerTurn

  function Turns(now: int, q: Loop, env: nat -> Setting, clock: nat -> int, n: nat): Loop {
    if n == 0 then q else Turn(now, env(n - 1), Turns(now, q, env, clock, n - 1), clock(n - 1))
  }

  /** The turns that a loop over its readings makes are these. */
  lemma {:induction false} AfterIsTurns(now: int, q: Loop, readings: seq<Reading>, env: nat -> Setting, clock: nat -> int)
    requires forall i :: 0 <= i < |readings| ==> readings[i] == Reading(env(i), clock(i))
    ensures After(now, q, readings) == Turns(now, q, env, clock, |readings|)
  {
    if readings != [] {
      AfterIsTurns(now, q, readings[..|readings| - 1], env, clock);
    }
  }

  /** A timer that fires now and is due again at once, unless the clock has moved on. */
  predicate Relentless(now: int, g: Setting, q: Loop, t: Timer) {
    At(q.deadline, t) <= now && t !in g.cancelled && !t.isOneshot && Frequency(g, t) == 0
  }

  ghost predicate WellFormed(q: Loop) {
    && Sorted(q.timers, q.deadline)
    && AllDiffer(q.timers)
  }

  ghost predicate Differ(m: Node, n: Node) {
    m.timer != n.timer
  }

  ghost predicate AllDiffer(nodes: seq<Node>) {
    forall i, j :: 0 <= i < j < |nodes| ==> Differ(nodes[i], nodes[j])
  }

  function Expiring(now: int, timers: seq<Node>, deadline: Deadlines): nat {
    if timers == [] then 0
    else (if At(deadline, timers[0].timer) <= now then 1 else 0) + Expiring(now, timers[1..], deadline)
  }

  function Left(now: int, q: Loop): nat {
    Expiring(now, q.timers, q.deadline)
  }

  // ---------- one turn ----------

  lemma FirstIsAlone(q: Loop)
    requires WellFormed(q) && q.timers != []
    ensures q.timers[0].timer !in Elements(q.timers[1..])
  {
    var rest := q.timers[1..];
    forall n | n in rest ensures n.timer != q.timers[0].timer {
      var i :| 0 <= i < |rest| && rest[i] == n;
      assert Differ(q.timers[0], q.timers[i + 1]);
    }
  }

  lemma InsertDistinct(nodes: seq<Node>, k: nat, n: Node)
    requires k <= |nodes| && n.timer !in Elements(nodes)
    requires AllDiffer(nodes)
    ensures AllDiffer(InsertAt(nodes, k, n))
  {
    var after := InsertAt(nodes, k, n);
    forall i, j | 0 <= i < j < |after| ensures Differ(after[i], after[j]) {
      InsertNodes(nodes, k, n, i);
      InsertNodes(nodes, k, n, j);
      if i == k {
        assert nodes[j - 1] in nodes;
      } else if j == k {
        assert nodes[i] in nodes;
      } else {
        assert Differ(nodes[if i < k then i else i - 1], nodes[if j < k then j else j - 1]);
      }
    }
  }

  lemma DropKeepsShape(q: Loop)
    requires WellFormed(q) && q.timers != []
    ensures WellFormed(Drop(q))
  {
    var rest := q.timers[1..];
    forall i, j | 0 <= i < j < |rest| ensures NotLater(rest[i], rest[j], q.deadline) && Differ(rest[i], rest[j]) {
      assert NotLater(q.timers[i + 1], q.timers[j + 1], q.deadline) && Differ(q.timers[i + 1], q.timers[j + 1]);
    }
  }

  lemma TakeKeepsShape(q: Loop, d: int)
    requires WellFormed(q) && q.timers != []
    ensures WellFormed(TakeFirst(q, d))
  {
    FirstIsAlone(q);
    DropKeepsShape(q);
    SortedElsewhere(q.timers[1..], q.deadline, q.timers[0].timer, d);
  }

  lemma InsertKeepsShape(q: Loop, t: Timer)
    requires WellFormed(q) && t !in Elements(q.timers)
    ensures WellFormed(PutBack(q, t))
  {
    var n := Node(q.nextNode, t);
    InsertSorted(q.timers, q.deadline, n);
    InsertDistinct(q.timers, UpperBound(q.timers, q.deadline, At(q.deadline, t)), n);
  }

  lemma RefireKeepsShape(q: Loop, d: int)
    requires WellFormed(q) && q.timers != []
    ensures WellFormed(Refire(q, d))
  {
    TakeKeepsShape(q, d);
    FirstIsAlone(q);
    InsertKeepsShape(TakeFirst(q, d), q.timers[0].timer);
  }

  lemma TurnKeepsShape(now: int, g: Setting, q: Loop, reading: int)
    requires WellFormed(q)
    ensures WellFormed(Turn(now, g, q, reading))
  {
    if Continues(now, q) {
      var d := reading + Frequency(g, q.timers[0].timer) * MILLISECOND;
      TurnCases(now, g, q, reading);
      if q.timers[0].timer in g.cancelled {
        DropKeepsShape(q);
      } else if q.timers[0].timer.isOneshot {
        TakeKeepsShape(q, d);
      } else {
        RefireKeepsShape(q, d);
      }
    }
  }

  lemma RestIsIncluded(nodes: seq<Node>, t: Timer)
    requires nodes != []
    ensures t in Elements(nodes) <==> t == nodes[0].timer || t in Elements(nodes[1..])
  {
    assert nodes[0] in nodes && forall m :: m in nodes <==> m == nodes[0] || m in nodes[1..];
  }

  /** A timer that is fired again stays, with its new deadline; the others keep theirs. */
  lemma RefireKeeps(q: Loop, d: int, t: Timer)
    requires q.timers != []
    ensures t in Elements(Refire(q, d).timers) <==> t in Elements(q.timers)
    ensures At(Refire(q, d).deadline, t) == if t == q.timers[0].timer then d else At(q.deadline, t)
  {
    var q', first := TakeFirst(q, d), q.timers[0].timer;
    InsertElements(q'.timers, UpperBound(q'.timers, q'.deadline, At(q'.deadline, first)), Node(q.nextNode, first));
    RestIsIncluded(q.timers, t);
  }

  // ---------- each turn leaves one expired timer less, or repeats ----------

  lemma {:induction false} ExpiringElsewhere(now: int, nodes: seq<Node>, deadline: Deadlines, t: Timer, d: int)
    requires t !in Elements(nodes)
    ensures Expiring(now, nodes, deadline[t := d]) == Expiring(now, nodes, deadline)
  {
    if nodes != [] {
      assert nodes[0] in nodes;
      forall n | n in nodes[1..] ensures n in nodes {}
      ExpiringElsewhere(now, nodes[1..], deadline, t, d);
    }
  }

  lemma {:induction false} ExpiringInsert(now: int, nodes: seq<Node>, deadline: Deadlines, k: nat, n: Node)
    requires k <= |nodes|
    ensures Expiring(now, InsertAt(nodes, k, n), deadline)
         == Expiring(now, nodes, deadline) + (if At(deadline, n.timer) <= now then 1 else 0)
  {
    var after := InsertAt(nodes, k, n);
    if k == 0 {
      assert after[1..] == nodes;
    } else {
      assert after[1..] == InsertAt(nodes[1..], k - 1, n);
      ExpiringInsert(now, nodes[1..], deadline, k - 1, n);
    }
  }

  lemma DropProgresses(now: int, q: Loop, d: int)
    requires WellFormed(q) && Continues(now, q)
    ensures Left(now, Drop(q)) == Left(now, q) - 1 && Left(now, TakeFirst(q, d)) == Left(now, q) - 1
  {
    FirstIsAlone(q);
    ExpiringElsewhere(now, q.timers[1..], q.deadline, q.timers[0].timer, d);
  }

  lemma RefireProgresses(now: int, q: Loop, d: int)
    requires WellFormed(q) && Continues(now, q)
    ensures Left(now, Refire(q, d)) == Left(now, q) - (if d <= now then 0 else 1)
  {
    var q' := TakeFirst(q, d);
    DropProgresses(now, q, d);
    var n := Node(q.nextNode, q.timers[0].timer);
    ExpiringInsert(now, q'.timers, q'.deadline, UpperBound(q'.timers, q'.deadline, d), n);
  }

  /** The turn fires its timer and puts it back as it was: expired. */
  predicate Repeats(now: int, g: Setting, q: Loop, reading: int) {
    Continues(now, q) && Relentless(now, g, q, q.timers[0].timer) && reading <= now
  }

  lemma TurnProgresses(now: int, g: Setting, q: Loop, reading: int)
    requires WellFormed(q) && Continues(now, q) && now <= reading
    ensures Left(now, Turn(now, g, q, reading)) == Left(now, q) - (if Repeats(now, g, q, reading) then 0 else 1)
  {
    var d := reading + Frequency(g, q.timers[0].timer) * MILLISECOND;
    TurnCases(now, g, q, reading);
    if q.timers[0].timer in g.cancelled || q.timers[0].timer.isOneshot {
      DropProgresses(now, q, d);
    } else {
      RefireProgresses(now, q, d);
    }
  }

  // ---------- the whole loop ----------

  ghost predicate Ends(now: int, q: Loop, env: nat -> Setting, clock: nat -> int) {
    exists n: nat :: !Continues(now, Turns(now, q, env, clock, n))
  }

  ghost predicate RepeatsAt(now: int, q: Loop, env: nat -> Setting, clock: nat -> int, i: nat) {
    Repeats(now, env(i), Turns(now, q, env, clock, i), clock(i))
  }

  ghost predicate RepeatsFrom(now: int, q: Loop, env: nat -> Setting, clock: nat -> int, n: nat) {
    forall i: nat :: n <= i ==> RepeatsAt(now, q, env, clock, i)
  }

  lemma {:induction false} TurnsKeepShape(now: int, q: Loop, env: nat -> Setting, clock: nat -> int, n: nat)
    requires WellFormed(q)
    ensures WellFormed(Turns(now, q, env, clock, n))
  {
    if n != 0 {
      TurnsKeepShape(now, q, env, clock, n - 1);
      TurnKeepsShape(now, env(n - 1), Turns(now, q, env, clock, n - 1), clock(n - 1));
    }
  }

  lemma TurnNeverAdds(now: int, g: Setting, q: Loop, reading: int)
    requires WellFormed(q) && now <= reading
    ensures Left(now, Turn(now, g, q, reading)) <= Left(now, q)
  {
    if Continues(now, q) {
      TurnProgresses(now, g, q, reading);
    }
  }

  lemma {:induction false} NeverRises(f: nat -> nat, n: nat, i: nat)
    requires n <= i && forall j: nat :: f(j + 1) <= f(j)
    ensures f(i) <= f(n)
    decreases i
  {
    if n < i {
      NeverRises(f, n, i - 1);
      assert f((i - 1) + 1) <= f(i - 1);
    }
  }

  lemma TurnsNeverAdd(now: int, q: Loop, env: nat -> Setting, clock: nat -> int, n: nat, i: nat)
    requires WellFormed(q) && n <= i && forall j: nat :: now <= clock(j)
    ensures Left(now, Turns(now, q, env, clock, i)) <= Left(now, Turns(now, q, env, clock, n))
  {
    var left: nat -> nat := j => Left(now, Turns(now, q, env, clock, j));
    forall j: nat ensures left(j + 1) <= left(j) {
      TurnsKeepShape(now, q, env, clock, j);
      TurnNeverAdds(now, env(j), Turns(now, q, env, clock, j), clock(j));
    }
    NeverRises(left, n, i);
  }

  /** If turns that do not repeat keep coming, the loop ends. */
  lemma {:induction false} ProgressEnds(now: int, q: Loop, env: nat -> Setting, clock: nat -> int, n: nat)
    requires WellFormed(q) && forall i: nat :: now <= clock(i)
    requires forall m: nat :: !RepeatsFrom(now, q, env, clock, m)
    ensures Ends(now, q, env, clock)
    decreases Left(now, Turns(now, q, env, clock, n))
  {
    assert !RepeatsFrom(now, q, env, clock, n);
    var i: nat :| n <= i && !RepeatsAt(now, q, env, clock, i);
    var p := Turns(now, q, env, clock, i);
    if Continues(now, p) {
      TurnsKeepShape(now, q, env, clock, i);
      TurnsNeverAdd(now, q, env, clock, n, i);
      TurnProgresses(now, env(i), p, clock(i));
      ProgressEnds(now, q, env, clock, i + 1);
    }
  }

  /** A loop that has ended stays ended. */
  lemma {:induction false} ContinuedBefore(now: int, q: Loop, env: nat -> Setting, clock: nat -> int, i: nat, n: nat)
    requires i <= n && Continues(now, Turns(now, q, env, clock, n))
    ensures Continues(now, Turns(now, q, env, clock, i))
    decreases n
  {
    if i < n {
      ContinuedBefore(now, q, env, clock, i, n - 1);
    }
  }

  /**
   Whatever other threads do to frequencies and cancellations, the loop ends unless from some turn on every turn finds a
   periodic, uncancelled timer with frequency 0 first and the clock has not moved past `now`.
   */
  lemma EndsUnlessRepeating(now: int, q: Loop, env: nat -> Setting, clock: nat -> int)
    requires WellFormed(q) && forall i: nat :: now <= clock(i)
    ensures Ends(now, q, env, clock) <==> !exists n: nat :: RepeatsFrom(now, q, env, clock, n)
  {
    if n: nat :| RepeatsFrom(now, q, env, clock, n) {
      forall i: nat ensures Continues(now, Turns(now, q, env, clock, i)) {
        assert RepeatsAt(now, q, env, clock, n + i);
        ContinuedBefore(now, q, env, clock, i, n + i);
      }
    } else {
      ProgressEnds(now, q, env, clock, 0);
    }
  }

  // ---------- settings that stay as they are ----------

  ghost predicate HasRelentless(now: int, g: Setting, q: Loop) {
    exists t :: t in Elements(q.timers) && Relentless(now, g, q, t)
  }

  ghost predicate StuckOn(now: int, g: Setting, q: Loop, t: Timer) {
    WellFormed(q) && t in Elements(q.timers) && Relentless(now, g, q, t)
  }

  lemma StuckContinues(now: int, g: Setting, q: Loop, t: Timer)
    requires StuckOn(now, g, q, t)
    ensures Continues(now, q)
  {
    FirstIsMinimal(q.timers, q.deadline);
  }

  /** A relentless timer stays while the clock reads no later than `now`, whatever becomes of the others. */
  lemma StuckTurn(now: int, g: Setting, q: Loop, reading: int, t: Timer)
    requires StuckOn(now, g, q, t) && reading <= now
    ensures StuckOn(now, g, Turn(now, g, q, reading), t)
  {
    var d := reading + Frequency(g, q.timers[0].timer) * MILLISECOND;
    StuckContinues(now, g, q, t);
    TurnKeepsShape(now, g, q, reading);
    TurnCases(now, g, q, reading);
    RestIsIncluded(q.timers, t);
    RefireKeeps(q, d, t);
  }

  /** While the clock stands still, a relentless timer keeps the loop going. */
  lemma {:induction false} Stuck(now: int, g: Setting, q: Loop, env: nat -> Setting, clock: nat -> int, t: Timer, n: nat)
    requires StuckOn(now, g, q, t) && forall i: nat :: env(i) == g && clock(i) == now
    ensures StuckOn(now, g, Turns(now, q, env, clock, n), t)
  {
    if n != 0 {
      Stuck(now, g, q, env, clock, t, n - 1);
      StuckTurn(now, g, Turns(now, q, env, clock, n - 1), clock(n - 1), t);
    }
  }

  /** No turn makes a timer relentless. */
  lemma TurnAddsNoRelentless(now: int, g: Setting, q: Loop, reading: int, t: Timer)
    requires Continues(now, q)
    requires t in Elements(Turn(now, g, q, reading).timers) && Relentless(now, g, Turn(now, g, q, reading), t)
    ensures t in Elements(q.timers) && Relentless(now, g, q, t)
  {
    var d := reading + Frequency(g, q.timers[0].timer) * MILLISECOND;
    TurnCases(now, g, q, reading);
    RestIsIncluded(q.timers, t);
    RefireKeeps(q, d, t);
  }

  lemma {:induction false} NoneBecomesRelentless(now: int, g: Setting, q: Loop, env: nat -> Setting, clock: nat -> int, n: nat)
    requires !HasRelentless(now, g, q) && forall i: nat :: env(i) == g
    ensures !HasRelentless(now, g, Turns(now, q, env, clock, n))
  {
    if n != 0 {
      NoneBecomesRelentless(now, g, q, env, clock, n - 1);
      var p, p' := Turns(now, q, env, clock, n - 1), Turns(now, q, env, clock, n);
      if Continues(now, p) {
        forall t | t in Elements(p'.timers) ensures !Relentless(now, g, p', t) {
          if Relentless(now, g, p', t) {
            TurnAddsNoRelentless(now, g, p, clock(n - 1), t);
          }
        }
      }
    }
  }

  /**
   With settings that stay as they are: the loop ends if and only if no timer is relentless or the clock moves past `now`
   at some point.
   */
  lemma EndsExactlyWhen(now: int, g: Setting, q: Loop, env: nat -> Setting, clock: nat -> int)
    requires WellFormed(q) && forall i: nat :: env(i) == g
    requires forall i: nat, j: nat :: i <= j ==> now <= clock(i) <= clock(j)
    ensures Ends(now, q, env, clock) <==> !HasRelentless(now, g, q) || exists i: nat :: now < clock(i)
  {
    EndsUnlessRepeating(now, q, env, clock);
    if m: nat :| now < clock(m) {
      forall n: nat ensures !RepeatsFrom(now, q, env, clock, n) {
        assert !RepeatsAt(now, q, env, clock, n + m);
      }
    } else if t :| t in Elements(q.timers) && Relentless(now, g, q, t) {
      forall n: nat ensures Continues(now, Turns(now, q, env, clock, n)) {
        Stuck(now, g, q, env, clock, t, n);
        StuckContinues(now, g, Turns(now, q, env, clock, n), t);
      }
    } else {
      forall n: nat ensures !RepeatsAt(now, q, env, clock, n) {
        NoneBecomesRelentless(now, g, q, env, clock, n);
        var p := Turns(now, q, env, clock, n);
        if p.timers != [] {
          assert p.timers[0] in p.timers;
        }
      }
      forall n: nat ensures !RepeatsFrom(now, q, env, clock, n) {
        assert !RepeatsAt(now, q, env, clock, n);
      }
    }
  }

  /** It does happen: one expired periodic timer with frequency 0, and a clock that stands still. */
  lemma EndlessPassExists() returns (now: int, g: Setting, q: Loop, env: nat -> Setting, clock: nat -> int)
    ensures WellFormed(q) && HasRelentless(now, g, q) && (forall i: nat :: env(i) == g && clock(i) == now)
    ensures !Ends(now, q, env, clock)
  {
    var t := Timer(0, false);
    now, g, q := 0, Setting({}, map[t := 0]), Loop([Node(0, t)], 1, map[t := 0]);
    var setting := g;
    env, clock := i => setting, i => 0;
    assert q.timers[0] in q.timers && t in Elements(q.timers) && Relentless(now, g, q, t);
    EndsExactlyWhen(now, g, q, env, clock);
  }
}
