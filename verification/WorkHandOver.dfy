/**
 The two loops that hand tasks to workers: bulk enqueue, which gives everything away, and balance_work, which keeps a
 share. Both walk begin and end over the tasks, spreading the remainder with `extra`, and both leave moved-from tasks
 behind. Each is proved to produce the split of WorkSplit; the source's assertions on begin and end hold on the way.
 */
module WorkHandOver {
  import opened WorkSplit
  import opened ThreadPool

  /** The part of enqueue_foreign that moves a range of tasks out. */
  method MoveOut(tasks: array<Slot>, begin: nat, end: nat) returns (part: seq<Slot>)
    requires begin <= end <= tasks.Length
    modifies tasks
    ensures part == old(tasks[begin..end])
    ensures forall i :: 0 <= i < tasks.Length ==> tasks[i] == if begin <= i < end then Empty else old(tasks[i])
  {
    part := tasks[begin..end];
    forall i | begin <= i < end {
      tasks[i] := Empty;
    }
  }

  /** The next part of the tasks, all of which have been there so far from `begin` on. */
  method NextPart(tasks: array<Slot>, begin: nat, end: nat, ghost all: seq<Slot>, ghost share: nat, ghost remainder: nat,
                  ghost parts: seq<seq<Slot>>)
    returns (part: seq<Slot>)
    requires begin <= end <= tasks.Length == |all|
    requires begin == Start(share, remainder, |parts|) && end == Start(share, remainder, |parts| + 1)
    requires Pieces(all, share, remainder, parts)
    requires forall j :: 0 <= j < tasks.Length ==> tasks[j] == if j < begin then Empty else all[j]
    modifies tasks
    ensures Pieces(all, share, remainder, parts + [part])
    ensures forall j :: 0 <= j < tasks.Length ==> tasks[j] == if j < end then Empty else all[j]
  {
    AddPiece(all, share, remainder, parts);
    part := MoveOut(tasks, begin, end);
    assert part == all[begin..end];
  }

  /**
   The loop both share, with donation_count and the remainder already computed: receiver i gets parts[i], `begin` ends
   up behind the last task given away.
   */
  method HandOut(tasks: array<Slot>, receivers: nat, share: nat, remainder: nat) returns (parts: seq<seq<Slot>>, begin: nat)
    requires 0 < share && Start(share, remainder, receivers) <= tasks.Length
    modifies tasks
    ensures |parts| == receivers && Pieces(old(tasks[..]), share, remainder, parts)
    ensures begin == Start(share, remainder, receivers)
    ensures forall i :: 0 <= i < tasks.Length ==> tasks[i] == if i < begin then Empty else old(tasks[i])
  {
    ghost var all := tasks[..];
    var extra := remainder;
    var end := share;
    begin, parts := 0, [];
    for i := 0 to receivers
      invariant begin == Start(share, remainder, i) && end == begin + share
      invariant extra == if i < remainder then remainder - i else 0
      invariant |parts| == i && Pieces(all, share, remainder, parts)
      invariant forall j :: 0 <= j < tasks.Length ==> tasks[j] == if j < begin then Empty else all[j]
    {
      StartMonotone(share, remainder, i + 1, receivers);
      assert begin < tasks.Length;
      if extra != 0 {
        end, extra := end + 1, extra - 1;
      }
      assert begin < end <= tasks.Length;
      var part := NextPart(tasks, begin, end, all, share, remainder, parts);
      parts := parts + [part];
      begin, end := end, end + share;
    }
  }

  /** Bulk enqueue of at least as many tasks as workers: worker i receives parts[i]. */
  method SplitAmongWorkers(tasks: array<Slot>, workers: nat) returns (parts: seq<seq<Slot>>)
    requires 0 < workers <= tasks.Length
    modifies tasks
    ensures IsSplit(old(tasks[..]), workers, parts)
    ensures forall i :: 0 <= i < tasks.Length ==> tasks[i] == Empty
  {
    var n := tasks.Length;
    SplitFacts(n, workers);
    var share := n / workers;
    var begin;
    parts, begin := HandOut(tasks, workers, share, n - share * workers);
    PiecesSplit(old(tasks[..]), workers, parts);
  }

  /**
   balance_work with `idle` peers found: peer i receives parts[i], and what the worker keeps is the last part of a split
   among all of them: never empty, and exactly the even share.
   */
  method Donate(queue: array<Slot>, idle: nat) returns (parts: seq<seq<Slot>>, kept: seq<Slot>)
    requires 0 < idle < queue.Length
    modifies queue
    ensures |parts| == idle && IsSplit(old(queue[..]), idle + 1, parts + [kept])
    ensures |kept| == queue.Length / (idle + 1) && kept != []
  {
    ghost var all := queue[..];
    var n := queue.Length;
    SplitFacts(n, idle + 1);
    var share := n / (idle + 1);
    var begin;
    parts, begin := HandOut(queue, idle, share, n - share * (idle + 1));
    kept := queue[begin..];
    assert kept == all[begin..n];
    AddPiece(all, share, n % (idle + 1), parts);
    PiecesSplit(all, idle + 1, parts + [kept]);
  }

  lemma {:induction false} StartMonotone(share: nat, extra: nat, i: nat, j: nat)
    requires i <= j
    ensures Start(share, extra, i) <= Start(share, extra, j)
    decreases j
  {
    if i < j {
      StartMonotone(share, extra, i, j - 1);
    }
  }

  lemma SplitFacts(n: nat, k: nat)
    requires 0 < k <= n
    ensures 0 < n / k && n - n / k * k == n % k
    ensures Start(n / k, n % k, k) == n && Start(n / k, n % k, k - 1) <= n
  {
    QuotientBounds(n, k);
    StartIsOffset(n, k, k);
    OffsetEnds(n, k);
    StartMonotone(n / k, n % k, k - 1, k);
  }
}
