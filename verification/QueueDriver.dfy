/** lab5/ch4 on the heap: the bodies of `ch4_write` and `ch4_read` over the linked list, and the exit drain. */
module QueueDriver {
  import opened LinkedList
  import opened Options
  import MQ = MessageQueue

  datatype Code = Ok | Enomem | Efault

  class Driver {
    const list: List<MQ.Msg>
    var live: int               // blocks obtained by kmalloc and not yet given to kfree

    /** Outside a call the only live blocks are the linked nodes and their messages. */
    ghost predicate Valid()
      reads this, list, list.head, list.nodes
    {
      list.Valid() && live == 2 * |list.nodes|
    }

    constructor ()
      ensures Valid() && list.nodes == [] && fresh(list) && fresh(list.head)
    {
      list := new List(MQ.Msg(0, ""));
      live := 0;
    }

    /** ch4_write; the flags say whether each allocation and the copy from the user succeed. */
    method Write(input: MQ.Msg, nodeOk: bool, msgOk: bool, copyOk: bool) returns (code: Code)
      requires Valid()
      modifies this, list, list.head, list.nodes
      ensures Valid() && old(list.nodes) <= list.nodes && fresh(list.nodes[|old(list.nodes)|..])
      ensures code == if nodeOk && msgOk then (if copyOk then Ok else Efault) else Enomem
      ensures list.Contents() == if code == Ok then old(list.Contents()) + [input] else old(list.Contents())
    {
      if !nodeOk {
        return Enomem;
      }
      var node := new Node(MQ.Msg(0, ""));
      live := live + 1;
      if !msgOk {
        live := live - 1;
        return Enomem;
      }
      live := live + 1;
      if !copyOk {
        live := live - 1;
        live := live - 1;
        return Efault;
      }
      node.value := input;
      list.AddTail(node);
      return Ok;
    }

    /** ch4_read from the lock on; `out` is what the user buffer receives. */
    method Read(copyOk: bool) returns (code: Code, out: Option<MQ.Msg>)
      requires Valid()
      modifies this, list, list.head, list.nodes
      ensures Valid() && list.nodes == if old(list.nodes) == [] then [] else old(list.nodes)[1..]
      ensures code == if old(list.nodes) != [] && copyOk then Ok else Efault
      ensures list.Contents() == if old(list.Contents()) == [] then [] else old(list.Contents())[1..]
      ensures out == if code == Ok then Some(old(list.Contents())[0]) else None
    {
      out := None;
      var empty := list.IsEmpty();
      if empty {
        return Efault, out;
      }
      var first := list.head.next;
      var temp := first.value;
      list.DelFirst(first);
      live := live - 2;
      if !copyOk {
        return Efault, out;
      }
      return Ok, Some(temp);
    }

    /** ch4_exit: every remaining node is visited once and freed with its message. */
    method Exit() returns (visited: seq<Node<MQ.Msg>>)
      requires Valid()
      modifies this, list, list.head, list.nodes
      ensures Valid() && list.nodes == [] && live == 0
      ensures visited == old(list.nodes)
      ensures forall i, j :: 0 <= i < j < |visited| ==> visited[i] != visited[j]
    {
      visited := list.Drain();
      live := live - 2 * |visited|;
    }

    /** List operations in the order the lock admits them; the results of the reads in order. */
    method Perform(ops: seq<MQ.Op>) returns (taken: seq<MQ.Msg>)
      requires Valid() && list.nodes == []
      modifies this, list, list.head
      ensures Valid()
      ensures taken == MQ.Pops([], ops)
      ensures list.Contents() == MQ.Leaves([], ops)
    {
      taken := [];
      for i := 0 to |ops|
        invariant Valid() && fresh(list.nodes)
        invariant MQ.Leaves(list.Contents(), ops[i..]) == MQ.Leaves([], ops)
        invariant taken + MQ.Pops(list.Contents(), ops[i..]) == MQ.Pops([], ops)
      {
        assert ops[i..][0] == ops[i] && ops[i..][1..] == ops[i + 1..];
        taken := PerformOne(ops[i], ops[i + 1..], taken);
        assert ops[i..] == [ops[i]] + ops[i + 1..];
      }
    }

    method PerformOne(op: MQ.Op, ghost rest: seq<MQ.Op>, before: seq<MQ.Msg>) returns (taken: seq<MQ.Msg>)
      requires Valid()
      modifies this, list, list.head, list.nodes
      ensures Valid() && fresh(set n | n in list.nodes && n !in old(list.nodes))
      ensures MQ.Leaves(list.Contents(), rest) == MQ.Leaves(old(list.Contents()), [op] + rest)
      ensures taken + MQ.Pops(list.Contents(), rest) == before + MQ.Pops(old(list.Contents()), [op] + rest)
    {
      taken := before;
      assert ([op] + rest)[1..] == rest;
      match op
      case Push(m) =>
        var code := Write(m, true, true, true);
        assert forall n :: n in list.nodes && n !in old(list.nodes) ==> n in list.nodes[|old(list.nodes)|..];
      case Pop =>
        var code, out := Read(true);
        if code == Ok { taken := taken + [out.value]; }
    }

    /**
     Whatever the interleaving, its list operations replayed on the heap hand out the same
     messages and leave the same queue as the step system.
     */
    method Replay(ops: seq<MQ.Op>, ghost run: seq<MQ.Step>) returns (taken: seq<MQ.Msg>)
      requires Valid() && list.nodes == []
      requires MQ.Legal(MQ.INIT, run) && MQ.After(MQ.INIT, run).loaded && ops == MQ.ListOps(MQ.INIT, run)
      modifies this, list, list.head
      ensures Valid()
      ensures taken == MQ.TakenMsgs(MQ.After(MQ.INIT, run))
      ensures list.Contents() == MQ.QueueMsgs(MQ.After(MQ.INIT, run))
    {
      MQ.HeapMirrorsRun(run);
      taken := Perform(ops);
    }
  }
}
