/**
  include/aos/list.h: the circular doubly linked list with a head node.  A list in the
  heap is described by the ring of its nodes, head first.
 */
module DList {

  class Node<T> {
    var prev: Node<T>
    var next: Node<T>
    var data: T                     // the structure the links are embedded in

    /** A node of its own, as dlist_init leaves it. */
    constructor (data: T)
      ensures prev == this && next == this && this.data == data
    {
      this.prev, this.next, this.data := this, this, data;
    }
  }

  function After(i: nat, n: nat): nat
    requires i < n
  {
    if i + 1 == n then 0 else i + 1
  }

  ghost predicate Distinct<T>(r: seq<Node<T>>) {
    forall i, j :: 0 <= i < j < |r| ==> r[i] != r[j]
  }

  /** The nodes of r, and no others, are linked in a circle in this order. */
  ghost predicate Ring<T>(r: seq<Node<T>>)
    reads r
  {
    && |r| > 0 && Distinct(r)
    && (forall i :: 0 <= i < |r| ==> r[i].next == r[After(i, |r|)])
    && (forall i :: 0 <= i < |r| ==> r[After(i, |r|)].prev == r[i])
  }

  ghost function Inserted<T>(r: seq<Node<T>>, k: nat, node: Node<T>): seq<Node<T>>
    requires k <= |r|
  {
    r[..k] + [node] + r[k..]
  }

  ghost function Removed<T>(r: seq<Node<T>>, k: nat): seq<Node<T>>
    requires k < |r|
  {
    r[..k] + r[k + 1..]
  }

  /** __dlist_add between two neighbours. */
  method InsertBetween<T>(node: Node<T>, prev: Node<T>, next: Node<T>, ghost r: seq<Node<T>>, ghost k: nat)
    requires Ring(r) && node !in r && k < |r|
    requires prev == r[k] && next == r[After(k, |r|)]
    modifies node`prev, node`next, prev`next, next`prev
    ensures Ring(Inserted(r, k + 1, node))
  {
    node.next := next;
    node.prev := prev;
    prev.next := node;
    next.prev := node;
    ghost var s := Inserted(r, k + 1, node);
    DistinctInserted(r, k + 1, node);
    forall i | 0 <= i < |s|
      ensures s[i].next == s[After(i, |s|)] && s[After(i, |s|)].prev == s[i]
    {
      InsertedAt(r, k, node, i);
    }
  }

  /** Where each node and its successor stood before the insertion behind position k. */
  lemma InsertedAt<T>(r: seq<Node<T>>, k: nat, node: Node<T>, i: nat)
    requires Distinct(r) && k < |r| && i <= |r| && node !in r
    ensures var s := Inserted(r, k + 1, node);
            if i == k then s[i] == r[k] && s[After(i, |s|)] == node
            else if i == k + 1 then s[i] == node && s[After(i, |s|)] == r[After(k, |r|)]
            else
              var j := if i < k then i else i - 1;
              && s[i] == r[j] && s[After(i, |s|)] == r[After(j, |r|)]
              && r[j] != r[k] && r[After(j, |r|)] != r[After(k, |r|)]
              && r[j] != node && r[After(j, |r|)] != node
  {}

  lemma DistinctInserted<T>(r: seq<Node<T>>, k: nat, node: Node<T>)
    requires Distinct(r) && node !in r && k <= |r|
    ensures Distinct(Inserted(r, k, node))
  {}

  lemma DistinctRemoved<T>(r: seq<Node<T>>, k: nat)
    requires Distinct(r) && k < |r|
    ensures Distinct(Removed(r, k)) && r[k] !in Removed(r, k)
  {}

  /** dlist_add: right after the head. */
  method Add<T>(node: Node<T>, queue: Node<T>, ghost r: seq<Node<T>>)
    requires Ring(r) && node !in r && queue == r[0]
    modifies node`prev, node`next, queue`next, queue.next`prev
    ensures Ring([queue, node] + r[1..])
  {
    InsertBetween(node, queue, queue.next, r, 0);
    assert Inserted(r, 1, node) == [queue, node] + r[1..];
  }

  /** dlist_add_tail: right before a node; before the head that is the end of the list. */
  method AddTail<T>(node: Node<T>, queue: Node<T>, ghost r: seq<Node<T>>, ghost k: nat)
    requires Ring(r) && node !in r && k < |r| && queue == r[k]
    modifies node`prev, node`next, queue`prev, queue.prev`next
    ensures Ring(Inserted(r, if k == 0 then |r| else k, node))
  {
    ghost var before := if k == 0 then |r| - 1 else k - 1;
    assert After(before, |r|) == k;
    InsertBetween(node, queue.prev, queue, r, before);
  }

  /** dlist_del: the node leaves; its own links are left as they are. */
  method Del<T>(node: Node<T>, ghost r: seq<Node<T>>, ghost k: nat)
    requires Ring(r) && 0 < k < |r| && node == r[k]
    modifies node.prev`next, node.next`prev
    ensures Ring(Removed(r, k))
  {
    var prev, next := node.prev, node.next;
    assert prev == r[k - 1] by { assert After(k - 1, |r|) == k; }
    prev.next := next;
    next.prev := prev;
    ghost var s := Removed(r, k);
    DistinctRemoved(r, k);
    forall i | 0 <= i < |s|
      ensures s[i].next == s[After(i, |s|)] && s[After(i, |s|)].prev == s[i]
    {
      if i < k - 1 {
        assert s[i] == r[i];
      } else if i >= k {
        assert s[i] == r[i + 1];
      }
    }
  }

  /** dlist_empty. */
  method Empty<T>(head: Node<T>, ghost r: seq<Node<T>>) returns (e: bool)
    requires Ring(r) && head == r[0]
    ensures e <==> r == [head]
  {
    e := head.next == head;
  }

  /** dlist_for_each: visits the list in order. */
  method Forward<T>(head: Node<T>, ghost r: seq<Node<T>>) returns (visited: seq<Node<T>>)
    requires Ring(r) && head == r[0]
    ensures visited == r[1..]
  {
    visited := [];
    var pos := head.next;
    while pos != head
      invariant |visited| < |r| && visited == r[1..|visited| + 1]
      invariant pos == r[After(|visited|, |r|)]
      decreases |r| - |visited|
    {
      visited := visited + [pos];
      pos := pos.next;
    }
  }

  /** dlist_for_each_entry_reverse: visits it backwards. */
  method Backward<T>(head: Node<T>, ghost r: seq<Node<T>>) returns (visited: seq<Node<T>>)
    requires Ring(r) && head == r[0]
    ensures |visited| == |r| - 1
    ensures forall i :: 0 <= i < |visited| ==> visited[i] == r[|r| - 1 - i]
  {
    visited := [];
    var pos := head.prev;
    assert After(|r| - 1, |r|) == 0;
    while pos != head
      invariant |visited| < |r|
      invariant forall i :: 0 <= i < |visited| ==> visited[i] == r[|r| - 1 - i]
      invariant pos == r[|r| - 1 - |visited|]
      decreases |r| - |visited|
    {
      visited := visited + [pos];
      assert After(|r| - 1 - |visited|, |r|) == |r| - |visited|;
      pos := pos.prev;
    }
  }

  /** dlist_entry_number. */
  method EntryNumber<T>(queue: Node<T>, ghost r: seq<Node<T>>) returns (num: nat)
    requires Ring(r) && queue == r[0]
    ensures num == |r| - 1
  {
    num := 0;
    var cur := queue;
    while cur.next != queue
      invariant num < |r| && cur == r[num]
      decreases |r| - num
    {
      cur := cur.next;
      num := num + 1;
    }
  }

  /** Positions in the ring and in the list behind its head. */
  lemma BehindHead<T>(head: Node<T>, nodes: seq<Node<T>>, k: nat, node: Node<T>)
    requires k <= |nodes|
    ensures Inserted([head] + nodes, k + 1, node) == [head] + (nodes[..k] + [node] + nodes[k..])
    ensures k == 0 ==> [head, node] + ([head] + nodes)[1..] == [head] + ([node] + nodes)
    ensures k == |nodes| ==> nodes[..k] + [node] + nodes[k..] == nodes + [node]
  {}

  lemma RemovedBehindHead<T>(head: Node<T>, nodes: seq<Node<T>>, k: nat)
    requires k < |nodes|
    ensures Removed([head] + nodes, k + 1) == [head] + (nodes[..k] + nodes[k + 1..])
  {}

  /** A list in use: its head and, for the specification, its nodes in order. */
  class List<T> {
    const head: Node<T>
    ghost var nodes: seq<Node<T>>

    ghost function Footprint(): set<Node<T>>
      reads this
    {
      {head} + (set n | n in nodes)
    }

    ghost predicate Valid()
      reads this, Footprint()
    {
      Ring([head] + nodes)
    }

    constructor (dummy: T)
      ensures Valid() && nodes == [] && fresh(head)
    {
      head := new Node(dummy);
      nodes := [];
    }

    lemma Shape()
      requires Valid()
      ensures Distinct(nodes) && head !in nodes
      ensures head.next == if nodes == [] then head else nodes[0]
      ensures head.prev == if nodes == [] then head else nodes[|nodes| - 1]
      ensures head.next in Footprint() && head.prev in Footprint()
    {
      var r := [head] + nodes;
      assert r[0] == head && r[After(|r| - 1, |r|)] == head;
      assert forall i :: 0 <= i < |nodes| ==> nodes[i] == r[i + 1];
    }

    /** The neighbours of a node are in the list too. */
    lemma Neighbours(k: nat)
      requires Valid() && k < |nodes|
      ensures nodes[k].prev in Footprint() && nodes[k].next in Footprint()
    {
      var r := [head] + nodes;
      assert r[After(k, |r|)] == nodes[k] && r[k] in Footprint();
      assert r[After(k + 1, |r|)] in Footprint();
    }

    lemma HeadApart()
      requires Valid()
      ensures forall i :: 0 <= i < |nodes| ==> nodes[i] != head
    {
      Shape();
    }

    /** Following `next` from a node leads to the one after it, or back to the head. */
    lemma WalkAt(i: nat)
      requires Valid() && i < |nodes|
      ensures nodes[i].next == if i + 1 == |nodes| then head else nodes[i + 1]
    {
      var r := [head] + nodes;
      assert r[i + 1] == nodes[i];
      assert r[i + 1].next == r[After(i + 1, |r|)];
    }

    method IsEmpty() returns (e: bool)
      requires Valid()
      ensures e <==> nodes == []
    {
      Shape();
      e := head.next == head;
    }

    /** The first node; the head itself when the list is empty. */
    method First() returns (n: Node<T>)
      requires Valid()
      ensures n == if nodes == [] then head else nodes[0]
    {
      Shape();
      n := head.next;
    }

    method AddFirst(node: Node<T>)
      requires Valid() && node !in Footprint()
      modifies this`nodes, node`prev, node`next, Footprint()`prev, Footprint()`next
      ensures Valid() && nodes == [node] + old(nodes)
    {
      hide Ring, Distinct;
      Shape();
      ghost var r := [head] + nodes;
      Add(node, head, r);
      BehindHead(head, nodes, 0, node);
      nodes := [node] + nodes;
    }

    method AddLast(node: Node<T>)
      requires Valid() && node !in Footprint()
      modifies this`nodes, node`prev, node`next, Footprint()`prev, Footprint()`next
      ensures Valid() && nodes == old(nodes) + [node]
    {
      hide Ring, Distinct;
      Shape();
      ghost var r := [head] + nodes;
      AddTail(node, head, r, 0);
      BehindHead(head, nodes, |nodes|, node);
      nodes := nodes + [node];
    }

    /** dlist_add_tail on the cursor of an iteration: before node k, or at the end. */
    method AddBefore(node: Node<T>, cursor: Node<T>, ghost k: nat)
      requires Valid() && node !in Footprint() && k <= |nodes|
      requires cursor == if k == |nodes| then head else nodes[k]
      modifies this`nodes, node`prev, node`next, Footprint()`prev, Footprint()`next
      ensures Valid() && nodes == old(nodes)[..k] + [node] + old(nodes)[k..]
    {
      hide Ring, Distinct;
      Shape();
      ghost var r := [head] + nodes;
      if k < |nodes| {
        Neighbours(k);
      }
      AddTail(node, cursor, r, if k == |nodes| then 0 else k + 1);
      BehindHead(head, nodes, k, node);
      nodes := nodes[..k] + [node] + nodes[k..];
    }

    method Remove(node: Node<T>, ghost k: nat)
      requires Valid() && k < |nodes| && node == nodes[k]
      modifies this`nodes, Footprint()`prev, Footprint()`next
      ensures Valid() && nodes == old(nodes)[..k] + old(nodes)[k + 1..]
      ensures node !in nodes && node != head
      ensures node in old(Footprint()) && Footprint() == old(Footprint()) - {node}
    {
      hide Ring, Distinct;
      Shape();
      ghost var r := [head] + nodes;
      assert r[k + 1] == node;
      DistinctRemoved(nodes, k);
      Neighbours(k);
      Del(node, r, k + 1);
      RemovedBehindHead(head, nodes, k);
      ghost var was := nodes;
      nodes := nodes[..k] + nodes[k + 1..];
      assert was == was[..k] + [node] + was[k + 1..];
    }
  }
}
