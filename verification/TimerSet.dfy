/**
 The two containers of timer_queue_internal: a multiset of timers ordered by deadline, and a map from each timer to its
 position in the multiset. A position is named by a number that no other insertion ever gets.
 */
module TimerSet {

  datatype Timer = Timer(id: nat, isOneshot: bool)

  datatype Node = Node(id: nat, timer: Timer)

  /** m_deadline of every timer. */
  type Deadlines = map<Timer, int>

  function At(deadline: Deadlines, t: Timer): int {
    if t in deadline then deadline[t] else 0
  }

  ghost predicate NotLater(m: Node, n: Node, deadline: Deadlines) {
    At(deadline, m.timer) <= At(deadline, n.timer)
  }

  ghost predicate Sorted(nodes: seq<Node>, deadline: Deadlines) {
    forall i, j :: 0 <= i < j < |nodes| ==> NotLater(nodes[i], nodes[j], deadline)
  }

  ghost function Elements(nodes: seq<Node>): set<Timer> {
    set n | n in nodes :: n.timer
  }

  ghost predicate Indexed(n: Node, mapper: map<Timer, nat>, nextNode: nat) {
    n.timer in mapper && mapper[n.timer] == n.id && n.id < nextNode
  }

  /** The map has exactly the timers of the set as keys, each leads to the node that holds it, and no two nodes agree. */
  ghost predicate Agree(nodes: seq<Node>, mapper: map<Timer, nat>, nextNode: nat) {
    && mapper.Keys == Elements(nodes)
    && (forall i :: 0 <= i < |nodes| ==> Indexed(nodes[i], mapper, nextNode))
    && (forall i, j :: 0 <= i < j < |nodes| ==> Apart(nodes[i], nodes[j]))
  }

  // ---------- insertion ----------

  /** Where multiset insertion puts a deadline: behind all that are not later. */
  function UpperBound(nodes: seq<Node>, deadline: Deadlines, d: int): (k: nat)
    ensures k <= |nodes|
    ensures 0 < k ==> At(deadline, nodes[k - 1].timer) <= d
    ensures forall i :: k <= i < |nodes| ==> d < At(deadline, nodes[i].timer)
  {
    if nodes == [] then 0
    else if d < At(deadline, nodes[|nodes| - 1].timer) then UpperBound(nodes[..|nodes| - 1], deadline, d)
    else |nodes|
  }

  function InsertAt(nodes: seq<Node>, k: nat, n: Node): seq<Node>
    requires k <= |nodes|
  {
    nodes[..k] + [n] + nodes[k..]
  }

  function Insert(nodes: seq<Node>, deadline: Deadlines, n: Node): seq<Node> {
    InsertAt(nodes, UpperBound(nodes, deadline, At(deadline, n.timer)), n)
  }

  lemma InsertElements(nodes: seq<Node>, k: nat, n: Node)
    requires k <= |nodes|
    ensures Elements(InsertAt(nodes, k, n)) == Elements(nodes) + {n.timer}
  {
    var after := InsertAt(nodes, k, n);
    assert after[k] == n;
    forall m | m in nodes ensures m in after {
      var i :| 0 <= i < |nodes| && nodes[i] == m;
      assert after[if i < k then i else i + 1] == m;
    }
    assert forall m :: m in after ==> m in nodes || m == n;
    assert n in after;
  }

  lemma InsertNodes(nodes: seq<Node>, k: nat, n: Node, i: nat)
    requires k <= |nodes| && i <= |nodes|
    ensures InsertAt(nodes, k, n)[i] == if i < k then nodes[i] else if i == k then n else nodes[i - 1]
  {
  }

  ghost predicate Apart(m: Node, n: Node) {
    m.id != n.id && m.timer != n.timer
  }

  /** A node of the set is unlike a new one. */
  lemma NewIsApart(nodes: seq<Node>, mapper: map<Timer, nat>, nextNode: nat, i: nat, t: Timer)
    requires Agree(nodes, mapper, nextNode) && i < |nodes| && t !in Elements(nodes)
    ensures Apart(nodes[i], Node(nextNode, t)) && Indexed(nodes[i], mapper[t := nextNode], nextNode + 1)
  {
    assert nodes[i] in nodes;
    assert Indexed(nodes[i], mapper, nextNode) && nodes[i].timer in Elements(nodes);
  }

  lemma InsertAgrees(nodes: seq<Node>, mapper: map<Timer, nat>, nextNode: nat, k: nat, t: Timer)
    requires Agree(nodes, mapper, nextNode) && k <= |nodes| && t !in Elements(nodes)
    ensures Agree(InsertAt(nodes, k, Node(nextNode, t)), mapper[t := nextNode], nextNode + 1)
  {
    var n := Node(nextNode, t);
    var after := InsertAt(nodes, k, n);
    InsertElements(nodes, k, n);
    forall i | 0 <= i < |after| ensures Indexed(after[i], mapper[t := nextNode], nextNode + 1) {
      InsertNodes(nodes, k, n, i);
      if i != k {
        NewIsApart(nodes, mapper, nextNode, if i < k then i else i - 1, t);
      }
    }
    forall i, j | 0 <= i < j < |after| ensures Apart(after[i], after[j]) {
      InsertNodes(nodes, k, n, i);
      InsertNodes(nodes, k, n, j);
      if i == k {
        NewIsApart(nodes, mapper, nextNode, j - 1, t);
      } else if j == k {
        NewIsApart(nodes, mapper, nextNode, i, t);
      }
    }
  }

  lemma InsertSorted(nodes: seq<Node>, deadline: Deadlines, n: Node)
    requires Sorted(nodes, deadline)
    ensures Sorted(Insert(nodes, deadline, n), deadline)
  {
    var k := UpperBound(nodes, deadline, At(deadline, n.timer));
    var after := InsertAt(nodes, k, n);
    forall i, j | 0 <= i < j < |after| ensures NotLater(after[i], after[j], deadline) {
      InsertNodes(nodes, k, n, i);
      InsertNodes(nodes, k, n, j);
      if j == k {
        assert i < k - 1 ==> NotLater(nodes[i], nodes[k - 1], deadline);
      } else if i != k {
        assert NotLater(nodes[if i < k then i else i - 1], nodes[if j < k then j else j - 1], deadline);
      }
    }
  }

  lemma InsertKeeps(nodes: seq<Node>, mapper: map<Timer, nat>, nextNode: nat, deadline: Deadlines, t: Timer)
    requires Agree(nodes, mapper, nextNode) && Sorted(nodes, deadline) && t !in Elements(nodes)
    ensures var after := Insert(nodes, deadline, Node(nextNode, t));
            && Agree(after, mapper[t := nextNode], nextNode + 1) && Sorted(after, deadline)
            && Elements(after) == Elements(nodes) + {t}
  {
    var k := UpperBound(nodes, deadline, At(deadline, t));
    InsertAgrees(nodes, mapper, nextNode, k, t);
    InsertSorted(nodes, deadline, Node(nextNode, t));
    InsertElements(nodes, k, Node(nextNode, t));
  }

  lemma AddKeeps(nodes: seq<Node>, mapper: map<Timer, nat>, nextNode: nat, deadline: Deadlines, t: Timer)
    requires Agree(nodes, mapper, nextNode) && Sorted(nodes, deadline) && t !in mapper
    ensures var after := Insert(nodes, deadline, Node(nextNode, t));
            && Agree(after, mapper[t := nextNode], nextNode + 1) && Sorted(after, deadline)
            && Elements(after) == Elements(nodes) + {t}
  {
    assert t !in Elements(nodes);
    InsertKeeps(nodes, mapper, nextNode, deadline, t);
  }

  // ---------- removal ----------

  function EraseAt(nodes: seq<Node>, k: nat): seq<Node>
    requires k < |nodes|
  {
    nodes[..k] + nodes[k + 1..]
  }

  /** The position of the node with this number. */
  function Find(nodes: seq<Node>, id: nat): (k: nat)
    requires exists n :: n in nodes && n.id == id
    ensures k < |nodes| && nodes[k].id == id
  {
    if nodes[0].id == id then 0 else 1 + Find(nodes[1..], id)
  }

  lemma EraseKept(nodes: seq<Node>, k: nat, i: nat)
    requires k < |nodes| && i < |nodes| && i != k
    ensures nodes[i] in EraseAt(nodes, k)
  {
    assert EraseAt(nodes, k)[if i < k then i else i - 1] == nodes[i];
  }

  lemma EraseLeft(nodes: seq<Node>, mapper: map<Timer, nat>, nextNode: nat, k: nat, i: nat)
    requires Agree(nodes, mapper, nextNode) && k < |nodes| && i < |nodes| - 1
    ensures EraseAt(nodes, k)[i] in nodes && EraseAt(nodes, k)[i].timer != nodes[k].timer
  {
    if i < k {
      assert EraseAt(nodes, k)[i] == nodes[i] && Apart(nodes[i], nodes[k]);
    } else {
      assert EraseAt(nodes, k)[i] == nodes[i + 1] && Apart(nodes[k], nodes[i + 1]);
    }
  }

  lemma EraseElements(nodes: seq<Node>, mapper: map<Timer, nat>, nextNode: nat, k: nat)
    requires Agree(nodes, mapper, nextNode) && k < |nodes|
    ensures Elements(EraseAt(nodes, k)) == Elements(nodes) - {nodes[k].timer}
  {
    var after := EraseAt(nodes, k);
    forall n | n in nodes && n.timer != nodes[k].timer ensures n in after {
      var i :| 0 <= i < |nodes| && nodes[i] == n;
      EraseKept(nodes, k, i);
    }
    forall n | n in after ensures n in nodes && n.timer != nodes[k].timer {
      var i :| 0 <= i < |after| && after[i] == n;
      EraseLeft(nodes, mapper, nextNode, k, i);
    }
  }

  lemma EraseAgrees(nodes: seq<Node>, mapper: map<Timer, nat>, nextNode: nat, k: nat)
    requires Agree(nodes, mapper, nextNode) && k < |nodes|
    ensures Agree(EraseAt(nodes, k), mapper - {nodes[k].timer}, nextNode)
  {
    var after := EraseAt(nodes, k);
    EraseElements(nodes, mapper, nextNode, k);
    assert forall i :: 0 <= i < |after| ==> after[i] == nodes[if i < k then i else i + 1];
    forall i | 0 <= i < |after| ensures Indexed(after[i], mapper - {nodes[k].timer}, nextNode) {
      assert Indexed(nodes[if i < k then i else i + 1], mapper, nextNode);
    }
  }

  lemma EraseSorted(nodes: seq<Node>, deadline: Deadlines, k: nat)
    requires Sorted(nodes, deadline) && k < |nodes|
    ensures Sorted(EraseAt(nodes, k), deadline)
  {
    var after := EraseAt(nodes, k);
    forall i, j | 0 <= i < j < |after| ensures NotLater(after[i], after[j], deadline) {
      assert NotLater(nodes[if i < k then i else i + 1], nodes[if j < k then j else j + 1], deadline);
    }
  }

  lemma EraseKeeps(nodes: seq<Node>, mapper: map<Timer, nat>, nextNode: nat, deadline: Deadlines, k: nat)
    requires Agree(nodes, mapper, nextNode) && Sorted(nodes, deadline) && k < |nodes|
    ensures var after, t := EraseAt(nodes, k), nodes[k].timer;
            && t in Elements(nodes) && t in mapper
            && Agree(after, mapper - {t}, nextNode) && Sorted(after, deadline)
            && Elements(after) == Elements(nodes) - {t}
  {
    assert nodes[k] in nodes;
    EraseAgrees(nodes, mapper, nextNode, k);
    EraseElements(nodes, mapper, nextNode, k);
    EraseSorted(nodes, deadline, k);
  }

  /** The map's entry for a timer is where the set holds it. */
  lemma EntryPoints(nodes: seq<Node>, mapper: map<Timer, nat>, nextNode: nat, t: Timer)
    requires Agree(nodes, mapper, nextNode) && t in mapper
    ensures exists n :: n in nodes && n.id == mapper[t]
    ensures nodes[Find(nodes, mapper[t])].timer == t
  {
    assert t in Elements(nodes);
    var n :| n in nodes && n.timer == t;
    var i :| 0 <= i < |nodes| && nodes[i] == n;
    assert Indexed(nodes[i], mapper, nextNode);
    var k := Find(nodes, mapper[t]);
    assert i == k;
  }

  /** The order is only about timers in the set: other deadlines may change freely. */
  lemma SortedElsewhere(nodes: seq<Node>, deadline: Deadlines, t: Timer, d: int)
    requires Sorted(nodes, deadline) && t !in Elements(nodes)
    ensures Sorted(nodes, deadline[t := d])
  {
    forall i, j | 0 <= i < j < |nodes| ensures NotLater(nodes[i], nodes[j], deadline[t := d]) {
      assert nodes[i].timer in Elements(nodes) && nodes[j].timer in Elements(nodes);
      assert NotLater(nodes[i], nodes[j], deadline);
    }
  }
}
