/**
 The split of n tasks among k receivers that bulk enqueue and donation share: receiver i gets the tasks from
 Offset(n, k, i) up to Offset(n, k, i + 1). The remainder goes one by one to the first receivers.
 */
module WorkSplit {

  function Min(a: int, b: int): int {
    if a <= b then a else b
  }

  function Offset(n: nat, k: nat, i: nat): nat
    requires 0 < k
  {
    i * (n / k) + Min(i, n % k)
  }

  lemma OffsetStep(n: nat, k: nat, i: nat)
    requires i < k
    ensures Offset(n, k, i + 1) == Offset(n, k, i) + n / k + (if i < n % k then 1 else 0)
  {
    assert (i + 1) * (n / k) == i * (n / k) + n / k;
  }

  lemma {:induction false} OffsetMonotone(n: nat, k: nat, i: nat, j: nat)
    requires i <= j <= k && 0 < k
    ensures Offset(n, k, i) <= Offset(n, k, j)
    ensures k <= n ==> Offset(n, k, i) + (j - i) <= Offset(n, k, j)
    decreases j - i
  {
    if i < j {
      OffsetMonotone(n, k, i, j - 1);
      OffsetStep(n, k, j - 1);
      QuotientBounds(n, k);
    }
  }

  lemma ProductAtLeast(k: int, q: int)
    requires 1 <= k && 1 <= q
    ensures k <= k * q && q <= k * q
  {
  }

  lemma QuotientBounds(n: nat, k: nat)
    requires 0 < k
    ensures 0 <= n / k <= n
    ensures k <= n <==> 1 <= n / k
  {
    var q := n / k;
    var product := k * q;
    assert n == product + n % k;
    if q >= 1 {
      ProductAtLeast(k, q);
    }
  }

  /** The offsets run from 0 to n; the last receiver's share is the plain quotient. */
  lemma OffsetEnds(n: nat, k: nat)
    requires 0 < k
    ensures Offset(n, k, 0) == 0 && Offset(n, k, k) == n
    ensures Offset(n, k, k - 1) == n - n / k
  {
    assert n == k * (n / k) + n % k;
    OffsetStep(n, k, k - 1);
  }

  lemma OffsetBounds(n: nat, k: nat, i: nat)
    requires i < k
    ensures Offset(n, k, i) <= Offset(n, k, i + 1) <= n
  {
    OffsetMonotone(n, k, i, i + 1);
    OffsetMonotone(n, k, i + 1, k);
    OffsetEnds(n, k);
  }

  // ---------- the chunks ----------

  /** The size of part i when the first `extra` parts get one more than `share`. */
  function Size(share: nat, extra: nat, i: nat): nat {
    if i < extra then share + 1 else share
  }

  function Start(share: nat, extra: nat, i: nat): nat {
    if i == 0 then 0 else Start(share, extra, i - 1) + Size(share, extra, i - 1)
  }

  lemma {:induction false} StartIsOffset(n: nat, k: nat, i: nat)
    requires i <= k && 0 < k
    ensures Start(n / k, n % k, i) == Offset(n, k, i)
  {
    if i != 0 {
      StartIsOffset(n, k, i - 1);
      OffsetStep(n, k, i - 1);
    }
  }

  /** `parts` are consecutive pieces of `tasks`, from its first task on, with the sizes of the split. */
  ghost predicate Pieces<T>(tasks: seq<T>, share: nat, extra: nat, parts: seq<seq<T>>) {
    && Start(share, extra, |parts|) <= |tasks|
    && Flatten(parts) == tasks[..Start(share, extra, |parts|)]
    && forall i :: 0 <= i < |parts| ==> |parts[i]| == Size(share, extra, i)
  }

  ghost function Flatten<T>(parts: seq<seq<T>>): seq<T> {
    if parts == [] then [] else Flatten(parts[..|parts| - 1]) + parts[|parts| - 1]
  }

  lemma AddPiece<T>(tasks: seq<T>, share: nat, extra: nat, parts: seq<seq<T>>)
    requires Pieces(tasks, share, extra, parts) && Start(share, extra, |parts| + 1) <= |tasks|
    ensures Pieces(tasks, share, extra, parts + [tasks[Start(share, extra, |parts|)..Start(share, extra, |parts| + 1)]])
  {
    var i := |parts|;
    var piece := tasks[Start(share, extra, i)..Start(share, extra, i + 1)];
    assert (parts + [piece])[..i] == parts;
    assert Flatten(parts + [piece]) == tasks[..Start(share, extra, i + 1)];
  }

  /** The split of n tasks among k receivers: all tasks, in order, in pieces whose sizes differ by at most one. */
  ghost predicate IsSplit<T>(tasks: seq<T>, k: nat, parts: seq<seq<T>>) {
    && |parts| == k && Flatten(parts) == tasks
    && (forall i, j :: 0 <= i < j < k ==> |parts[j]| <= |parts[i]| <= |parts[j]| + 1)
    && (k <= |tasks| ==> forall i :: 0 <= i < k ==> parts[i] != [])
  }

  /** All k pieces are a split, and the last one has exactly n / k tasks. */
  lemma PiecesSplit<T>(tasks: seq<T>, k: nat, parts: seq<seq<T>>)
    requires 0 < k == |parts| && Pieces(tasks, |tasks| / k, |tasks| % k, parts)
    ensures IsSplit(tasks, k, parts) && |parts[k - 1]| == |tasks| / k
  {
    StartIsOffset(|tasks|, k, k);
    OffsetEnds(|tasks|, k);
    QuotientBounds(|tasks|, k);
  }

  // ---------- the split is unique ----------

  /** Where the longer parts end, given that all parts from i on have `share` tasks. */
  lemma {:induction false} Cut<T>(parts: seq<seq<T>>, share: nat, i: nat) returns (extra: nat)
    requires i < |parts| && |parts[|parts| - 1]| == share
    requires forall j :: i <= j < |parts| ==> |parts[j]| == share
    requires forall j, l :: 0 <= j < l < |parts| ==> |parts[l]| <= |parts[j]| <= |parts[l]| + 1
    ensures extra <= i && forall j :: 0 <= j < |parts| ==> |parts[j]| == Size(share, extra, j)
    decreases i
  {
    if i == 0 || |parts[i - 1]| == share + 1 {
      extra := i;
    } else {
      extra := Cut(parts, share, i - 1);
    }
  }

  lemma {:induction false} FlattenPrefix<T>(parts: seq<seq<T>>, i: nat)
    requires i < |parts|
    ensures |Flatten(parts[..i])| + |parts[i]| <= |Flatten(parts)|
    ensures Flatten(parts[..i]) + parts[i] == Flatten(parts)[..|Flatten(parts[..i])| + |parts[i]|]
  {
    var last := |parts| - 1;
    if i < last {
      FlattenPrefix(parts[..last], i);
      assert parts[..last][..i] == parts[..i];
    }
  }

  lemma {:induction false} PrefixPieces<T>(parts: seq<seq<T>>, share: nat, extra: nat, i: nat)
    requires i <= |parts| && forall j :: 0 <= j < |parts| ==> |parts[j]| == Size(share, extra, j)
    ensures Pieces(Flatten(parts), share, extra, parts[..i])
  {
    if i == 0 {
      assert Flatten(parts[..0]) == [];
    } else {
      PrefixPieces(parts, share, extra, i - 1);
      FlattenPrefix(parts, i - 1);
      assert parts[..i] == parts[..i - 1] + [parts[i - 1]];
      assert parts[..i][..i - 1] == parts[..i - 1];
      assert Flatten(parts[..i]) == Flatten(parts[..i - 1]) + parts[i - 1];
    }
  }

  lemma {:induction false} StartClosedForm(share: nat, extra: nat, i: nat)
    ensures Start(share, extra, i) == i * share + Min(i, extra)
  {
    if i != 0 {
      StartClosedForm(share, extra, i - 1);
      assert i * share == (i - 1) * share + share;
    }
  }

  lemma QuotientUnique(n: nat, k: nat, q: nat, r: nat)
    requires r < k && n == k * q + r
    ensures q == n / k && r == n % k
  {
    var d := n / k - q;
    assert k * d == r - n % k;
    FarMultiples(k, d);
  }

  lemma FarMultiples(k: int, d: int)
    requires 1 <= k
    ensures 1 <= d ==> k <= k * d
    ensures d <= -1 ==> k * d <= -k
  {
    if 1 <= d {
      ProductAtLeast(k, d);
    } else if d <= -1 {
      ProductAtLeast(k, -d);
      assert k * -d == -(k * d);
    }
  }

  lemma SplitIsPieces<T>(tasks: seq<T>, k: nat, parts: seq<seq<T>>)
    requires 0 < k && IsSplit(tasks, k, parts)
    ensures Pieces(tasks, |tasks| / k, |tasks| % k, parts)
  {
    var share := |parts[k - 1]|;
    var extra := Cut(parts, share, k - 1);
    PrefixPieces(parts, share, extra, k);
    assert parts[..k] == parts;
    StartClosedForm(share, extra, k);
    QuotientUnique(|tasks|, k, share, extra);
  }

  /** There is exactly one split of `tasks` among k receivers. */
  lemma SplitIsUnique<T>(tasks: seq<T>, k: nat, parts: seq<seq<T>>, parts': seq<seq<T>>)
    requires IsSplit(tasks, k, parts) && IsSplit(tasks, k, parts')
    ensures parts == parts'
  {
    if k != 0 {
      SplitIsPieces(tasks, k, parts);
      SplitIsPieces(tasks, k, parts');
      forall i | 0 <= i < k ensures parts[i] == parts'[i] {
        PieceAt(tasks, |tasks| / k, |tasks| % k, parts, i);
        PieceAt(tasks, |tasks| / k, |tasks| % k, parts', i);
      }
    }
  }

  lemma PieceAt<T>(tasks: seq<T>, share: nat, extra: nat, parts: seq<seq<T>>, i: nat)
    requires i < |parts| && Pieces(tasks, share, extra, parts)
    ensures Start(share, extra, i) <= Start(share, extra, i + 1) <= |tasks|
    ensures parts[i] == tasks[Start(share, extra, i)..Start(share, extra, i + 1)]
  {
    PrefixPieces(parts, share, extra, i);
    FlattenPrefix(parts, i);
    var f := Flatten(parts);
    assert f[..|f[..Start(share, extra, i)]| + |parts[i]|] == f[..Start(share, extra, i + 1)];
    assert parts[i] == (f[..Start(share, extra, i)] + parts[i])[Start(share, extra, i)..];
  }
}
