/** The invariant of the two-lock queue, kept by every step. */
module TwoLockQueueInvariant {
  import opened Wrappers
  import opened LinearSpec
  import opened TwoLockQueue

  // ---------------------------------------------------------------- invariant

  predicate HoldsTail(p: Pc) {
    (p.Push? && (p.pushAt.Data? || p.pushAt.Next? || p.pushAt.Tail? || p.pushAt.Release?))
    || (p.Pop? && (p.popAt.TailRead? || p.popAt.TailUnlock?))
  }

  predicate HoldsHead(p: Pc) {
    p.Pop? && !p.popAt.HeadLock? && !p.popAt.TakePtr? && !p.popAt.Free? && !p.popAt.PopRet?
  }

  /** The thread has found the queue non-empty and has not moved the head yet. */
  predicate FoundData(p: Pc) {
    p.Pop? && (p.popAt.TakeValue? || p.popAt.MoveHead? || p.popAt.Relink?)
  }

  /** The node a push has allocated, or a pop has unlinked. */
  datatype Role = NoRole | Pusher(a: Addr, id: nat) | Popper(a: Addr, id: nat)

  function RoleOf(p: Pc): Role {
    match p
    case Idle => NoRole
    case Push(_, at) =>
      if at.Acquire? || at.Data? || at.Next? || at.Tail? then Pusher(at.n, at.id) else NoRole
    case Pop(_, at) =>
      if at.HeadUnlock? || at.TakePtr? || at.Free? then Popper(at.node, at.id) else NoRole
  }

  /** The nodes of `m` are linked in this order, and all but the last have data. */
  ghost predicate IsList(heap: map<Addr, Node>, m: seq<Addr>) {
    && (forall i, j :: 0 <= i < j < |m| ==> m[i] != m[j])
    && (forall i :: 0 <= i < |m| ==> m[i] in heap && heap[m[i]].place == Linked)
    && (forall i, j :: 0 <= i < j < |m| && j == i + 1 ==> heap[m[i]].next == m[j] && heap[m[i]].data.Some?)
  }

  /** All nodes from head to tail; the last is the dummy. */
  ghost predicate ChainInv(s: State) {
    && NULL !in s.heap && s.chain != [] && s.tail == s.chain[|s.chain| - 1]
    && IsList(s.heap, s.chain)
    && (forall a :: a in s.heap && s.heap[a].place == Linked ==> a in s.chain)
  }

  ghost predicate NodeInv(s: State, a: Addr)
    requires a in s.heap
  {
    var n := s.heap[a];
    match n.place
    case Fresh(t) => t in s.pc && RoleOf(s.pc[t]) == Pusher(a, n.id)
    case Linked => true
    case Popped(t) => t in s.pc && RoleOf(s.pc[t]) == Popper(a, n.id)
  }

  ghost predicate ThreadInv(s: State, t: Tid)
    requires t in s.pc && s.chain != []
  {
    var p := s.pc[t];
    && (HoldsTail(p) <==> s.tailMutex == Some(t))
    && (HoldsHead(p) <==> s.headMutex == Some(t))
    && (HoldsHead(p) && !p.popAt.Relink? ==> s.head == s.chain[0])
    && (p.Push? && (p.pushAt.Next? || p.pushAt.Tail?) ==> s.tail in s.heap && s.heap[s.tail].data == Some(p.v))
    && (p.Push? && p.pushAt.Tail? ==> s.tail in s.heap && s.heap[s.tail].next == p.pushAt.n)
    && (p.Pop? && (p.popAt.TailUnlock? || p.popAt.Test?) && p.popAt.seen != s.head ==> 2 <= |s.chain|)
    && (FoundData(p) ==> 2 <= |s.chain|)
    && (p.Pop? && p.popAt.MoveHead? && p.k.byValue ==> s.chain[0] in s.heap && p.popAt.res == s.heap[s.chain[0]].data)
    && (p.Pop? && p.popAt.Relink? ==>
          p.popAt.node == s.chain[0] && Live(s, p.popAt.node, p.popAt.id)
              && (p.k.byValue ==> p.popAt.res == s.heap[p.popAt.node].data))
    && (match RoleOf(p)
        case NoRole => true
        case Pusher(a, id) => Live(s, a, id) && s.heap[a].place == Fresh(t)
        case Popper(a, id) => Live(s, a, id) && s.heap[a].place == Popped(t) && s.heap[a].data.Some?)
    && (p.Pop? && p.k.byValue && (p.popAt.HeadUnlock? || p.popAt.Free?) ==>
          p.popAt.node in s.heap && p.popAt.res == s.heap[p.popAt.node].data)
  }

  ghost predicate Inv(s: State) {
    && !s.fault
    && ChainInv(s)
    && (s.headMutex == None ==> s.head == s.chain[0])
    && (s.tailMutex.Some? ==> s.tailMutex.value in s.pc) && (s.headMutex.Some? ==> s.headMutex.value in s.pc)
    && (forall a {:trigger NodeInv(s, a)} :: a in s.heap ==> NodeInv(s, a))
    && (forall t {:trigger ThreadInv(s, t)} :: t in s.pc ==> ThreadInv(s, t))
  }

  // ---------------------------------------------------------------- each step keeps the invariant

  /** `s'` differs from `s` in thread `t`, the mutexes it holds and what they protect, and the node at `a`. */
  ghost predicate Touches(s: State, s': State, t: Tid, a: Addr) {
    && t in s.pc && t in s'.pc && s'.pc == s.pc[t := s'.pc[t]]
    && (forall b :: b != a ==> (b in s'.heap <==> b in s.heap))
    && (forall b :: b != a && b in s.heap ==> s'.heap[b] == s.heap[b])
    && (s'.tailMutex == s.tailMutex || (s.tailMutex in {None, Some(t)} && s'.tailMutex in {None, Some(t)}))
    && (s'.headMutex == s.headMutex || (s.headMutex in {None, Some(t)} && s'.headMutex in {None, Some(t)}))
    && (s.tailMutex != Some(t) ==>
          s'.tail == s.tail && (a in s.heap && a == s.tail ==> a in s'.heap && s'.heap[a] == s.heap[a]))
    && s.chain != [] && s'.chain != []
    && (s.headMutex != Some(t) ==> s'.head == s.head && s'.chain[0] == s.chain[0] && |s.chain| <= |s'.chain|)
  }

  /** The node at `a` belongs to `t`, or is the dummy and `t` holds the tail mutex, or is the first node and
      `t` holds the head mutex. */
  ghost predicate Owns(s: State, t: Tid, a: Addr) {
    a in s.heap ==>
      || s.heap[a].place == Fresh(t) || s.heap[a].place == Popped(t)
      || (s.heap[a].place == Linked && a == s.tail && s.tailMutex == Some(t))
      || (s.heap[a].place == Linked && s.chain != [] && a == s.chain[0] && a != s.tail && s.headMutex == Some(t))
  }

  lemma OtherThread(s: State, s': State, t: Tid, a: Addr, u: Tid)
    requires Inv(s) && Touches(s, s', t, a) && Owns(s, t, a) && u in s.pc && u != t
    requires a in s.heap && a in s'.heap && s.heap[a].place == Linked ==> s'.heap[a].id == s.heap[a].id
    ensures ThreadInv(s', u)
  {
    assert ThreadInv(s, u);
    if FoundData(s.pc[u]) {
      assert s.chain[0] != s.chain[|s.chain| - 1];
    }
  }

  predicate RoleMove(x: Role, x': Role, a: Addr) {
    x == x' || ((x.NoRole? || x.a == a) && (x'.NoRole? || x'.a == a))
  }

  lemma Assemble(s: State, s': State, t: Tid, a: Addr)
    requires Inv(s) && Touches(s, s', t, a) && Owns(s, t, a)
    requires RoleMove(RoleOf(s.pc[t]), RoleOf(s'.pc[t]), a)
    requires a in s.heap && a in s'.heap && s.heap[a].place == Linked ==> s'.heap[a].id == s.heap[a].id
    requires !s'.fault && ChainInv(s') && (s'.headMutex == None ==> s'.head == s'.chain[0])
    requires a in s'.heap ==> NodeInv(s', a)
    requires ThreadInv(s', t)
    ensures Inv(s')
  {
    forall b {:trigger NodeInv(s', b)} | b in s'.heap ensures NodeInv(s', b) {
      if b != a {
        assert NodeInv(s, b);
      }
    }
    forall u {:trigger ThreadInv(s', u)} | u in s'.pc ensures ThreadInv(s', u) {
      if u != t {
        OtherThread(s, s', t, a, u);
      }
    }
  }

  /** A step that changes no node, no list, and at most a mutex. */
  lemma MoveStep(s: State, s': State, t: Tid)
    requires Inv(s) && t in s.pc && t in s'.pc
    requires s' == s.(pc := s.pc[t := s'.pc[t]], headMutex := s'.headMutex, tailMutex := s'.tailMutex)
    requires Touches(s, s', t, NULL) && RoleOf(s'.pc[t]) == RoleOf(s.pc[t]) && ThreadInv(s', t)
    requires s'.headMutex == None ==> s.head == s.chain[0]
    ensures Inv(s')
  {
    Assemble(s, s', t, NULL);
  }

  lemma ChainFrame(s: State, s': State, a: Addr)
    requires ChainInv(s) && s'.chain == s.chain && s'.tail == s.tail && NULL !in s'.heap
    requires forall b :: b != a ==> (b in s'.heap <==> b in s.heap)
    requires forall b :: b != a && b in s.heap ==> s'.heap[b] == s.heap[b]
    requires a in s.heap && s.heap[a].place == Linked ==> a == s.tail && a in s'.heap && s'.heap[a].place == Linked
    requires a in s.heap && s.heap[a].place != Linked && a in s'.heap ==> s'.heap[a].place != Linked
    requires a !in s.heap && a in s'.heap ==> s'.heap[a].place != Linked
    ensures ChainInv(s')
  {
    var m, last := s.chain, |s.chain| - 1;
    forall i | 0 <= i < last ensures m[i] != a {
      assert m[i] in s.heap && m[i] != m[last];
    }
    forall i, j | 0 <= i < j < |m| && j == i + 1 ensures s'.heap[m[i]].next == m[j] && s'.heap[m[i]].data.Some? {
      assert s.heap[m[i]].next == m[j] && s.heap[m[i]].data.Some?;
    }
  }

  lemma AllocInv(s: State, t: Tid, v: Value, c: Choice)
    requires Inv(s) && t in s.pc && s.pc[t] == Push(v, Alloc) && c.spare != NULL && c.spare !in s.heap
    ensures Inv(PushStep(s, t, v, Alloc, c))
  {
    var s' := PushStep(s, t, v, Alloc, c);
    assert ThreadInv(s, t);
    ChainFrame(s, s', c.spare);
    Assemble(s, s', t, c.spare);
  }

  /** `t` writes a field of the dummy node. */
  lemma DummyInv(s: State, s': State, t: Tid, n: Node)
    requires Inv(s) && t in s.pc && t in s'.pc && s.tailMutex == Some(t) && s.tail in s.heap
    requires n.id == s.heap[s.tail].id && n.place == s.heap[s.tail].place
    requires s' == s.(pc := s.pc[t := s'.pc[t]], heap := s.heap[s.tail := n])
    requires RoleOf(s'.pc[t]) == RoleOf(s.pc[t]) && ThreadInv(s', t)
    ensures Inv(s')
  {
    assert NodeInv(s, s.tail);
    ChainFrame(s, s', s.tail);
    Assemble(s, s', t, s.tail);
  }

  lemma AppendChain(s: State, s': State, n: Addr)
    requires ChainInv(s) && n in s.heap && s.heap[n].place != Linked
    requires s.tail in s.heap && s.heap[s.tail].next == n && s.heap[s.tail].data.Some?
    requires s'.heap == s.heap[n := s.heap[n].(place := Linked)] && s'.tail == n && s'.chain == s.chain + [n]
    ensures ChainInv(s')
  {
    var m, l := s'.chain, |s.chain|;
    forall i, j | 0 <= i < j < |m| && j == i + 1 ensures s'.heap[m[i]].next == m[j] && s'.heap[m[i]].data.Some? {
      if j < l {
        assert m[i] == s.chain[i] && m[j] == s.chain[j];
      } else {
        assert m[i] == s.tail;
      }
    }
  }

  lemma TailInv(s: State, t: Tid, v: Value, n: Addr, id: nat, c: Choice)
    requires Inv(s) && t in s.pc && s.pc[t] == Push(v, Tail(n, id))
    ensures Inv(PushStep(s, t, v, Tail(n, id), c))
  {
    var s' := PushStep(s, t, v, Tail(n, id), c);
    assert ThreadInv(s, t);
    AppendChain(s, s', n);
    Assemble(s, s', t, n);
  }

  lemma PushStepInv(s: State, t: Tid, v: Value, at: PushAt, c: Choice)
    requires Inv(s) && t in s.pc && s.pc[t] == Push(v, at)
    ensures Inv(PushStep(s, t, v, at, c))
  {
    var s' := PushStep(s, t, v, at, c);
    assert ThreadInv(s, t);
    match at
    case Alloc =>
      if c.spare != NULL && c.spare !in s.heap {
        AllocInv(s, t, v, c);
      }
    case Acquire(n, id) =>
      if s.tailMutex.None? {
        MoveStep(s, s', t);
      }
    case Data(n, id) => DummyInv(s, s', t, s.heap[s.tail].(data := Some(v)));
    case Next(n, id) => DummyInv(s, s', t, s.heap[s.tail].(next := n));
    case Tail(n, id) => TailInv(s, t, v, n, id, c);
    case Release => MoveStep(s, s', t);
    case PushRet => MoveStep(s, s', t);
  }

  lemma MoveHeadInv(s: State, s': State, t: Tid, p: Pc)
    requires Inv(s) && t in s.pc && FoundData(s.pc[t]) && s.headMutex == Some(t)
    requires s' == s.(pc := s.pc[t := p], head := NULL) && RoleOf(p) == NoRole && ThreadInv(s', t)
    ensures Inv(s')
  {
    assert ThreadInv(s, t);
    Assemble(s, s', t, NULL);
  }

  /** What is left of a list whose first node is taken off and changed. */
  lemma UnlinkLinks(heap: map<Addr, Node>, m: seq<Addr>, n: Node)
    requires m != [] && IsList(heap, m)
    ensures IsList(heap[m[0] := n], m[1..])
  {
    var m', heap' := m[1..], heap[m[0] := n];
    forall i | 0 <= i < |m'| ensures m'[i] in heap && heap'[m'[i]] == heap[m'[i]] {
      assert m'[i] == m[i + 1] && m[i + 1] != m[0];
    }
    forall i, j | 0 <= i < j < |m'| ensures m'[i] != m'[j] {
      assert m'[i] == m[i + 1] && m'[j] == m[j + 1];
    }
    forall i, j | 0 <= i < j < |m'| && j == i + 1 ensures heap[m'[i]].next == m'[j] && heap[m'[i]].data.Some? {
      var i', j' := i + 1, j + 1;
      assert m'[i] == m[i'] && m'[j] == m[j'];
    }
  }

  lemma UnlinkChain(s: State, s': State, t: Tid, a: Addr)
    requires ChainInv(s) && 2 <= |s.chain| && a == s.chain[0]
    requires s'.heap == s.heap[a := s.heap[a].(next := NULL, place := Popped(t))]
    requires s'.tail == s.tail && s'.chain == s.chain[1..]
    ensures ChainInv(s') && s'.chain[0] == s.heap[a].next
  {
    UnlinkLinks(s.heap, s.chain, s.heap[a].(next := NULL, place := Popped(t)));
    var i, j := 0, 1;
    assert s.heap[s.chain[i]].next == s.chain[j];
    forall b | b in s'.heap && s'.heap[b].place == Linked ensures b in s'.chain {
      assert b in s.chain && s.chain == [a] + s'.chain;
    }
  }

  lemma UnlinkStep(s: State, s': State, t: Tid, a: Addr)
    requires Inv(s) && t in s.pc && FoundData(s.pc[t]) && s.headMutex == Some(t) && a in s.heap && a == s.chain[0]
    requires t in s'.pc && RoleOf(s'.pc[t]) == Popper(a, s.heap[a].id)
    requires s' == s.(pc := s.pc[t := s'.pc[t]], head := s.heap[a].next, chain := s.chain[1..],
                      heap := s.heap[a := s.heap[a].(next := NULL, place := Popped(t))])
    requires 2 <= |s.chain| && ThreadInv(s', t)
    ensures Inv(s')
  {
    assert ThreadInv(s, t);
    UnlinkChain(s, s', t, a);
    Assemble(s, s', t, a);
  }

  lemma RelinkInv(s: State, t: Tid, k: Kind, a: Addr, id: nat, res: Option<Value>)
    requires Inv(s) && t in s.pc && s.pc[t] == Pop(k, Relink(a, id, res))
    ensures Inv(PopStep(s, t, k, Relink(a, id, res)))
  {
    var s' := PopStep(s, t, k, Relink(a, id, res));
    assert ThreadInv(s, t);
    assert s.heap[a].data.Some? && s.heap[a].next == s.chain[1];
    UnlinkStep(s, s', t, a);
  }

  lemma FreeInv(s: State, t: Tid, k: Kind, a: Addr, id: nat, res: Option<Value>)
    requires Inv(s) && t in s.pc && s.pc[t] == Pop(k, Free(a, id, res))
    ensures Inv(PopStep(s, t, k, Free(a, id, res)))
  {
    var s' := PopStep(s, t, k, Free(a, id, res));
    assert ThreadInv(s, t);
    ChainFrame(s, s', a);
    Assemble(s, s', t, a);
  }

  lemma SearchStepInv(s: State, t: Tid, k: Kind, at: PopAt)
    requires Inv(s) && t in s.pc && s.pc[t] == Pop(k, at)
    requires at.HeadLock? || at.TailLock? || at.TailRead? || at.TailUnlock?
    ensures Inv(PopStep(s, t, k, at))
  {
    match at
    case HeadLock => HeadLockInv(s, t, k);
    case TailLock => TailLockInv(s, t, k);
    case TailRead => GetTailInv(s, t, k, at);
    case TailUnlock(_) => GetTailInv(s, t, k, at);
  }

  lemma HeadLockInv(s: State, t: Tid, k: Kind)
    requires Inv(s) && t in s.pc && s.pc[t] == Pop(k, HeadLock)
    ensures Inv(PopStep(s, t, k, HeadLock))
  {
    assert ThreadInv(s, t);
    if s.headMutex.None? {
      MoveStep(s, PopStep(s, t, k, HeadLock), t);
    }
  }

  lemma TailLockInv(s: State, t: Tid, k: Kind)
    requires Inv(s) && t in s.pc && s.pc[t] == Pop(k, TailLock)
    ensures Inv(PopStep(s, t, k, TailLock))
  {
    assert ThreadInv(s, t);
    if s.tailMutex.None? {
      MoveStep(s, PopStep(s, t, k, TailLock), t);
    }
  }

  lemma GetTailInv(s: State, t: Tid, k: Kind, at: PopAt)
    requires Inv(s) && t in s.pc && s.pc[t] == Pop(k, at) && (at.TailRead? || at.TailUnlock?)
    ensures Inv(PopStep(s, t, k, at))
  {
    assert ThreadInv(s, t);
    MoveStep(s, PopStep(s, t, k, at), t);
  }

  lemma TestStepInv(s: State, t: Tid, k: Kind, at: PopAt)
    requires Inv(s) && t in s.pc && s.pc[t] == Pop(k, at) && (at.Test? || at.GiveUp?)
    ensures Inv(PopStep(s, t, k, at))
  {
    assert ThreadInv(s, t);
    MoveStep(s, PopStep(s, t, k, at), t);
  }

  lemma TakeStepInv(s: State, t: Tid, k: Kind, at: PopAt)
    requires Inv(s) && t in s.pc && s.pc[t] == Pop(k, at)
    requires !at.HeadLock? && !at.TailLock? && !at.TailRead? && !at.TailUnlock?
    ensures Inv(PopStep(s, t, k, at))
  {
    var s' := PopStep(s, t, k, at);
    assert ThreadInv(s, t);
    match at
    case Test(_) => TestStepInv(s, t, k, at);
    case GiveUp => TestStepInv(s, t, k, at);
    case MoveHead(_) => MoveHeadInv(s, s', t, s'.pc[t]);
    case Relink(a, id, res) => RelinkInv(s, t, k, a, id, res);
    case Free(a, id, res) => FreeInv(s, t, k, a, id, res);
    case _ => ReadStepInv(s, t, k, at);
  }

  lemma ReadStepInv(s: State, t: Tid, k: Kind, at: PopAt)
    requires Inv(s) && t in s.pc && s.pc[t] == Pop(k, at)
    requires at.TakeValue? || at.HeadUnlock? || at.TakePtr? || at.PopRet?
    ensures Inv(PopStep(s, t, k, at))
  {
    assert ThreadInv(s, t);
    MoveStep(s, PopStep(s, t, k, at), t);
  }

  lemma StepInv(s: State, t: Tid, c: Choice)
    requires Inv(s) && t in s.pc
    ensures Inv(Step(s, t, c))
  {
    match s.pc[t]
    case Idle =>
      assert ThreadInv(s, t);
      MoveStep(s, Step(s, t, c), t);
    case Push(v, at) => PushStepInv(s, t, v, at, c);
    case Pop(k, at) =>
      if at.HeadLock? || at.TailLock? || at.TailRead? || at.TailUnlock? {
        SearchStepInv(s, t, k, at);
      } else {
        TakeStepInv(s, t, k, at);
      }
  }
}
