/** `threadsafe_list` as seen by a thread that runs alone: the loops over the linked nodes, without the locks. */
module SequentialList {
  import opened Wrappers
  import opened LinearSpec

  /** The elements for which `p` does not hold, in their order. */
  function FilterOut(s: seq<Value>, p: Value -> bool): seq<Value> {
    if s == [] then []
    else
      var n := |s| - 1;
      FilterOut(s[..n], p) + if p(s[n]) then [] else [s[n]]
  }

  /** Filtering keeps every non-matching occurrence and no other. */
  lemma {:induction false} FilterOutExact(s: seq<Value>, p: Value -> bool, x: Value)
    ensures multiset(FilterOut(s, p))[x] == if p(x) then 0 else multiset(s)[x]
  {
    if s != [] {
      var n := |s| - 1;
      FilterOutExact(s[..n], p, x);
      assert s == s[..n] + [s[n]];
    }
  }

  /** Filtering keeps the order: it can be done piece by piece. */
  lemma {:induction false} FilterOutConcat(a: seq<Value>, b: seq<Value>, p: Value -> bool)
    ensures FilterOut(a + b, p) == FilterOut(a, p) + FilterOut(b, p)
  {
    if b == [] {
      assert a + b == a;
    } else {
      var n := |b| - 1;
      FilterOutConcat(a, b[..n], p);
      assert (a + b)[..|a + b| - 1] == a + b[..n];
    }
  }

  class Node {
    var data: Option<Value>
    var next: Node?

    constructor (data: Option<Value>)
      ensures this.data == data && next == null
    {
      this.data, next := data, null;
    }
  }

  ghost function After(nodes: seq<Node>, i: nat): Node? {
    if i + 1 < |nodes| then nodes[i + 1] else null
  }

  class List {
    const head: Node
    ghost var nodes: seq<Node>
    ghost var contents: seq<Value>

    /** The links lead from the head, which has no data, through `nodes`, which hold `contents`. */
    ghost predicate Valid()
      reads this, nodes
    {
      && nodes != [] && head == nodes[0] && |contents| == |nodes| - 1
      && (forall i, j :: 0 <= i < j < |nodes| ==> nodes[i] != nodes[j])
      && (forall i {:trigger After(nodes, i)} :: 0 <= i < |nodes| ==> nodes[i].next == After(nodes, i))
      && (forall i :: 0 < i < |nodes| ==> nodes[i].data == Some(contents[i - 1]))
    }

    constructor ()
      ensures Valid() && contents == [] && fresh(head)
    {
      head := new Node(None);
      contents := [];
      new;
      nodes := [head];
    }

    method PushFront(value: Value)
      requires Valid()
      modifies this, head
      ensures Valid() && contents == [value] + old(contents)
    {
      var n := new Node(Some(value));
      ghost var before := nodes;
      assert forall i {:trigger After(before, i)} :: 0 <= i < |before| ==> before[i].next == After(before, i);
      n.next := head.next;
      assert head.next == After(before, 0);
      head.next := n;
      nodes := [head, n] + nodes[1..];
      forall i | 0 <= i < |nodes| ensures nodes[i].next == After(nodes, i) {
        if 1 <= i {
          assert nodes[i].next == After(before, i - 1);
        }
      }
      contents := [value] + contents;
    }

    method ForEach(f: Value -> Value)
      requires Valid()
      modifies this, nodes
      ensures Valid() && nodes == old(nodes) && |contents| == |old(contents)|
      ensures forall i :: 0 <= i < |contents| ==> contents[i] == f(old(contents)[i])
    {
      ghost var before := contents;
      var current := head;
      ghost var i := 0;
      while current.next != null
        invariant 0 <= i < |nodes| && current == nodes[i] && nodes == old(nodes) && Valid()
        invariant |contents| == |before|
        invariant forall j :: 0 <= j < i ==> contents[j] == f(before[j])
        invariant forall j :: i <= j < |contents| ==> contents[j] == before[j]
        decreases |nodes| - i
      {
        var next: Node := current.next;
        assert next == After(nodes, i);
        i := i + 1;
        next.data := Some(f(next.data.value));
        contents := contents[i - 1 := f(contents[i - 1])];
        current := next;
      }
      assert current.next == After(nodes, i);
    }

    method FindFirstIf(p: Value -> bool) returns (res: Option<Value>)
      requires Valid()
      ensures res == None <==> forall i :: 0 <= i < |contents| ==> !p(contents[i])
      ensures res.Some? ==> exists i :: 0 <= i < |contents| && res.value == contents[i] && p(contents[i])
                                       && forall j :: 0 <= j < i ==> !p(contents[j])
    {
      var current := head;
      ghost var i := 0;
      while current.next != null
        invariant 0 <= i < |nodes| && current == nodes[i]
        invariant forall j :: 0 <= j < i ==> !p(contents[j])
        decreases |nodes| - i
      {
        var next: Node := current.next;
        assert next == After(nodes, i);
        i := i + 1;
        if p(next.data.value) {
          assert p(contents[i - 1]);
          return next.data;
        }
        current := next;
      }
      assert current.next == After(nodes, i);
      return None;
    }

    /** Unlinks the node after `current`. */
    method Unlink(current: Node, next: Node, ghost i: nat)
      requires Valid() && i + 1 < |nodes| && current == nodes[i] && next == nodes[i + 1]
      modifies this, current
      ensures Valid()
      ensures nodes == old(nodes)[..i + 1] + old(nodes)[i + 2..]
      ensures contents == old(contents)[..i] + old(contents)[i + 1..]
    {
      ghost var before := nodes;
      assert forall j {:trigger After(before, j)} :: 0 <= j < |before| ==> before[j].next == After(before, j);
      assert next.next == After(before, i + 1);
      current.next := next.next;
      nodes := nodes[..i + 1] + nodes[i + 2..];
      contents := contents[..i] + contents[i + 1..];
      forall j | 0 <= j < |nodes| ensures nodes[j].next == After(nodes, j) {
        if j < i {
          assert nodes[j].next == After(before, j);
        } else if i < j {
          assert nodes[j].next == After(before, j + 1);
        }
      }
    }

    /** Leaves exactly the non-matching elements, in order. */
    method RemoveIf(p: Value -> bool)
      requires Valid()
      modifies this, nodes
      ensures Valid() && contents == FilterOut(old(contents), p)
      ensures forall n :: n in nodes ==> n in old(nodes)
    {
      ghost var before := contents;
      var current := head;
      ghost var i, k := 0, 0;
      while current.next != null
        invariant 0 <= i < |nodes| && current == nodes[i] && Valid()
        invariant forall n :: n in nodes ==> n in old(nodes)
        invariant 0 <= k <= |before| && |before| - k == |contents| - i
        invariant contents[..i] == FilterOut(before[..k], p)
        invariant contents[i..] == before[k..]
        decreases |before| - k
      {
        var next: Node := current.next;
        assert next == After(nodes, i) && next.next == After(nodes, i + 1);
        assert contents[i] == contents[i..][0] == before[k];
        assert before[..k + 1][..k] == before[..k];
        if p(next.data.value) {
          assert current in nodes;
          Unlink(current, next, i);
        } else {
          current := next;
          i := i + 1;
        }
        k := k + 1;
      }
      assert current.next == After(nodes, i);
      assert before[..k] == before && contents[..i] == contents;
    }
  }
}
