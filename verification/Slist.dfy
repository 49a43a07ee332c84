/** slist: an intrusive singly linked FIFO list. Its nodes are the awaiter objects themselves. */
module Slist {

  class Node {
    const id: nat
    var next: Node?

    constructor (id: nat)
      ensures this.id == id && next == null
    {
      this.id, next := id, null;
    }
  }

  class Slist {
    var head: Node?
    var tail: Node?

    /** The nodes of the list, in order. */
    ghost var nodes: seq<Node>

    ghost predicate Valid()
      reads this, nodes
    {
      && (nodes == [] ==> head == null && tail == null)
      && (nodes != [] ==> head == nodes[0] && tail == nodes[|nodes| - 1] && tail.next == null)
      && (forall i :: 0 <= i < |nodes| - 1 ==> nodes[i].next == nodes[i + 1])
      && (forall i, j :: 0 <= i < j < |nodes| ==> nodes[i] != nodes[j])
    }

    constructor ()
      ensures Valid() && nodes == []
    {
      head, tail, nodes := null, null, [];
    }

    /** The move constructor: the new list takes the nodes, the other one is left empty. */
    constructor Move(rhs: Slist)
      requires rhs.Valid()
      modifies rhs
      ensures Valid() && nodes == old(rhs.nodes) && rhs.Valid() && rhs.nodes == []
    {
      head, tail, nodes := rhs.head, rhs.tail, rhs.nodes;
      new;
      rhs.head, rhs.tail, rhs.nodes := null, null, [];
    }

    method IsEmpty() returns (empty: bool)
      requires Valid()
      ensures empty <==> nodes == []
    {
      assert head == null <==> tail == null;
      empty := head == null;
    }

    /**
     Appends a node that is not in the list. Its link is not reset, so the list stays well-formed exactly when the node
     came without one.
     */
    method PushBack(node: Node)
      requires Valid() && node !in nodes
      modifies this, if tail == null then {} else {tail}
      ensures nodes == old(nodes) + [node] && node.next == old(node.next)
      ensures Valid() <==> node.next == null
    {
      if head == null {
        head, tail := node, node;
      } else {
        tail.next := node;
        tail := node;
      }
      nodes := nodes + [node];
      assert tail == nodes[|nodes| - 1];
    }

    /** Takes the first node out; it keeps its link. */
    method PopFront() returns (node: Node?)
      requires Valid()
      modifies this
      ensures Valid()
      ensures node == null <==> old(nodes) == []
      ensures if node == null then nodes == [] else old(nodes) == [node] + nodes && node !in nodes
    {
      node := head;
      if node == null {
        return;
      }
      head := head.next;
      if head == null {
        tail := null;
      }
      nodes := nodes[1..];
    }
  }

  /** A popped node may not be pushed again as it is, unless it was the last: its old link would become part of the list. */
  method Requeue(list: Slist) returns (node: Node?)
    requires list.Valid()
    modifies list, list.nodes
    ensures node == null <==> old(list.nodes) == []
    ensures node != null ==> list.nodes == old(list.nodes)[1..] + [node] && (list.Valid() <==> |old(list.nodes)| == 1)
  {
    ghost var before := list.nodes;
    node := list.PopFront();
    if node != null {
      assert |before| > 1 ==> node.next == before[1];
      list.PushBack(node);
    }
  }

  /** Pops and resumes until the list is empty. */
  method Drain(list: Slist) returns (resumed: seq<Node>)
    requires list.Valid()
    modifies list
    ensures list.Valid() && list.nodes == [] && resumed == old(list.nodes)
  {
    resumed := [];
    ghost var all := list.nodes;
    while true
      invariant list.Valid() && resumed + list.nodes == all
      decreases |list.nodes|
    {
      ghost var left := list.nodes;
      var awaiter := list.PopFront();
      if awaiter == null {
        return;
      }
      assert resumed + left == (resumed + [awaiter]) + list.nodes;
      resumed := resumed + [awaiter];
    }
  }

  /** notify_all: the waiters are moved out under the mutex and then resumed one by one, in order, each once. */
  method NotifyAll(awaiters: Slist) returns (resumed: seq<Node>)
    requires awaiters.Valid()
    modifies awaiters
    ensures awaiters.Valid() && awaiters.nodes == [] && resumed == old(awaiters.nodes)
  {
    var taken := new Slist.Move(awaiters);
    resumed := Drain(taken);
  }
}
