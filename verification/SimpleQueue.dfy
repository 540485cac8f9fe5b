/** `simple_queue_dummy`: the single-threaded queue with a dummy node on which the locked queues are built. */
module SimpleQueue {
  import opened Wrappers
  import opened LinearSpec

  class Node {
    var data: Option<Value>
    var next: Node?

    constructor ()
      ensures data == None && next == null
    {
      data, next := None, null;
    }
  }

  class SimpleQueueDummy {
    var head: Node
    var tail: Node
    ghost var nodes: seq<Node>

    /** The links lead from the head through `nodes` to the tail, the dummy, and all other nodes have values. */
    ghost predicate Valid()
      reads this, nodes
    {
      && nodes != [] && head == nodes[0] && tail == nodes[|nodes| - 1]
      && (forall i, j :: 0 <= i < j < |nodes| ==> nodes[i] != nodes[j])
      && (forall i, j :: 0 <= i < j < |nodes| && j == i + 1 ==> nodes[i].next == nodes[j])
      && (forall i :: 0 <= i < |nodes| - 1 ==> nodes[i].data.Some?)
      && tail.next == null
    }

    /** The queued values, the oldest first. */
    ghost function Contents(): (r: seq<Value>)
      requires Valid()
      reads this, nodes
    {
      seq(|nodes| - 1, i requires 0 <= i < |nodes| - 1 && nodes[i].data.Some? reads this, nodes => nodes[i].data.value)
    }

    constructor ()
      ensures Valid() && Contents() == [] && fresh(nodes[0])
    {
      var dummy := new Node();
      head, tail := dummy, dummy;
      nodes := [dummy];
    }

    /** The value goes into the old dummy, and a new dummy is linked behind it. */
    method Push(value: Value)
      requires Valid()
      modifies this, tail
      ensures Valid() && Contents() == old(Contents()) + [value]
      ensures nodes[..|nodes| - 1] == old(nodes) && fresh(nodes[|nodes| - 1])
    {
      var n := new Node();
      tail.data := Some(value);
      tail.next := n;
      tail := n;
      nodes := nodes + [n];
    }

    method TryPop() returns (res: Option<Value>)
      requires Valid()
      modifies this
      ensures Valid()
      ensures res == if old(Contents()) == [] then None else Some(old(Contents())[0])
      ensures Contents() == if old(Contents()) == [] then [] else old(Contents())[1..]
      ensures nodes == if old(Contents()) == [] then old(nodes) else old(nodes)[1..]
    {
      if head == tail {
        return None;
      }
      res := head.data;
      assert head.next == nodes[1];
      head := head.next;
      nodes := nodes[1..];
    }
  }
}
