/**
 The kernel's circular doubly linked list, as ch4 and spin_interrupt use it: `list_add_tail`,
 `list_del`, `list_empty`, and a `list_for_each_safe` loop that unlinks as it goes.
 */
module LinkedList {

  /** A list node together with the value of the structure that embeds it. */
  class Node<T> {
    var next: Node?<T>
    var prev: Node?<T>
    var value: T

    constructor (value: T)
      ensures this.value == value
    {
      this.value := value;
      next, prev := null, null;
    }
  }

  /** The sequence with one element taken out. */
  ghost function Without<A>(s: seq<A>, at: nat): seq<A>
    requires at < |s|
  {
    s[..at] + s[at + 1..]
  }

  class List<T(0)> {
    const head: Node<T>
    ghost var nodes: seq<Node<T>>   // the linked nodes, first to last

    /** The links form one ring through the head, in both directions. */
    ghost predicate Valid()
      reads this, head, nodes
    {
      Distinct() && Forward() && Backward()
    }

    ghost predicate Distinct()
      reads this
    {
      head !in nodes && forall i, j :: 0 <= i < j < |nodes| ==> nodes[i] != nodes[j]
    }

    ghost predicate Forward()
      reads this, head, nodes
    {
      && head.next == (if nodes == [] then head else nodes[0])
      && (forall i {:trigger nodes[i].next} :: 0 <= i < |nodes| ==>
            nodes[i].next == if i + 1 < |nodes| then nodes[i + 1] else head)
    }

    ghost predicate Backward()
      reads this, head, nodes
    {
      && head.prev == (if nodes == [] then head else nodes[|nodes| - 1])
      && (forall i {:trigger nodes[i].prev} :: 0 <= i < |nodes| ==>
            nodes[i].prev == if i > 0 then nodes[i - 1] else head)
    }

    ghost function Contents(): (r: seq<T>)
      reads this, nodes
      ensures |r| == |nodes|
    {
      seq(|nodes|, i requires 0 <= i < |nodes| reads this, nodes => nodes[i].value)
    }

    /** INIT_LIST_HEAD */
    constructor (dummy: T)
      ensures Valid() && nodes == [] && fresh(head)
    {
      var h := new Node(dummy);
      head := h;
      nodes := [];
      new;
      h.next, h.prev := h, h;
    }

    method IsEmpty() returns (b: bool)
      requires Valid()
      ensures b <==> nodes == []
    {
      b := head.next == head;
    }

    method AddTail(n: Node<T>)
      requires Valid() && n != head && n !in nodes
      modifies this`nodes, head`next, head`prev, nodes`next, nodes`prev, n`next, n`prev
      ensures Valid() && nodes == old(nodes) + [n]
      ensures Contents() == old(Contents()) + [n.value]
    {
      var prev := head.prev;
      head.prev := n;
      n.next := head;
      n.prev := prev;
      prev.next := n;
      nodes := nodes + [n];
    }

    ghost function Preceding(at: nat): Node<T>
      requires at < |nodes|
      reads this
    {
      if at == 0 then head else nodes[at - 1]
    }

    ghost function Following(at: nat): Node<T>
      requires at < |nodes|
      reads this
    {
      if at + 1 < |nodes| then nodes[at + 1] else head
    }

    /** Linking the neighbours of a node to each other leaves the ring of all other nodes. */
    twostate lemma RingWithout(at: nat)
      requires old(Valid() && at < |nodes|) && nodes == Without(old(nodes), at)
      requires old(Preceding(at)).next == old(Following(at)) && old(Following(at)).prev == old(Preceding(at))
      requires forall n :: n in old(nodes) + [head] ==>
        (n == old(Preceding(at)) || n.next == old(n.next)) && (n == old(Following(at)) || n.prev == old(n.prev))
      ensures Valid()
    {
      assert forall k :: 0 <= k < |nodes| ==> nodes[k] == old(nodes)[if k < at then k else k + 1];
    }

    /** __list_del: the neighbours of a node are linked to each other. */
    method Bypass(prev: Node<T>, next: Node<T>, ghost at: nat)
      requires Valid() && at < |nodes| && nodes[at].prev == prev && nodes[at].next == next
      modifies this`nodes, head`next, head`prev, nodes`next, nodes`prev
      ensures Valid() && nodes == Without(old(nodes), at) && old(nodes[at]) !in nodes
    {
      next.prev := prev;
      prev.next := next;
      nodes := Without(nodes, at);
      RingWithout(at);
    }

    /** list_del; the poison pointers are null. */
    method Del(n: Node<T>, ghost at: nat)
      requires Valid() && at < |nodes| && nodes[at] == n
      modifies this`nodes, head`next, head`prev, nodes`next, nodes`prev
      ensures Valid() && nodes == Without(old(nodes), at)
      ensures Contents() == Without(old(Contents()), at)
      ensures n.next == null && n.prev == null
    {
      Bypass(n.prev, n.next, at);
      n.next, n.prev := null, null;
    }

    /** list_del of the first node, as these drivers use it. */
    method DelFirst(n: Node<T>)
      requires Valid() && nodes != [] && nodes[0] == n
      modifies this`nodes, head`next, head`prev, nodes`next, nodes`prev
      ensures Valid() && nodes == old(nodes)[1..]
      ensures Contents() == old(Contents())[1..]
      ensures n.next == null && n.prev == null
    {
      Del(n, 0);
    }

    /** The exit loop: each node is unlinked in the body, after its successor has been saved. */
    method Drain() returns (visited: seq<Node<T>>)
      requires Valid()
      modifies this`nodes, head`next, head`prev, nodes`next, nodes`prev
      ensures Valid() && nodes == []
      ensures visited == old(nodes)
    {
      ghost var all := nodes;
      visited := [];
      var pos := head.next;
      var q := pos.next;
      while pos != head
        invariant Valid() && |visited| <= |all| && nodes == all[|visited|..] && visited == all[..|visited|]
        invariant pos == head.next && (nodes != [] ==> q == nodes[0].next)
        decreases |nodes|
      {
        DelFirst(pos);
        visited := visited + [pos];
        pos := q;
        q := pos.next;
      }
    }

    /** The read-only walk of spin_interrupt's release. */
    method Show() returns (values: seq<T>)
      requires Valid()
      ensures values == Contents()
    {
      values := [];
      var pos := head.next;
      while pos != head
        invariant |values| <= |nodes| && pos == if |values| < |nodes| then nodes[|values|] else head
        invariant values == Contents()[..|values|]
        decreases |nodes| - |values|
      {
        values := values + [pos.value];
        pos := pos.next;
      }
    }
  }
}
