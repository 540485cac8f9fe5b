/** The invariant of the reference-counted stack, kept by every step. */
module RcStackInvariant {
  import opened Wrappers
  import opened LinearSpec
  import opened RcStack

  /** Thread states in which a thread has counted node `a` and has not released it. */
  predicate Holds(p: Pc, a: Addr) {
    match p
    case PopNext(seen, _) => seen.ptr == a
    case PopCas(seen, _, _) => seen.ptr == a
    case PopSub(q, _, _) => q == a
    case _ => false
  }

  ghost function Holders(pc: map<Tid, Pc>, a: Addr): set<Tid> {
    set t | t in pc && Holds(pc[t], a)
  }

  /** `chain` lists the nodes reached from pointer `p`, each once, down to the null pointer. */
  ghost predicate IsChain(heap: map<Addr, Node>, p: Addr, chain: seq<Addr>) {
    && (forall i :: 0 <= i < |chain| ==> chain[i] in heap)
    && (forall i, j :: 0 <= i < j < |chain| ==> chain[i] != chain[j])
    && (if chain == [] then p == NULL else p == chain[0])
    && (forall i, j :: 0 <= i < j < |chain| && j == i + 1 ==> heap[chain[i]].next.ptr == chain[j])
    && (chain != [] ==> heap[chain[|chain| - 1]].next.ptr == NULL)
  }

  ghost predicate ChainInv(s: State) {
    && NULL !in s.heap
    && IsChain(s.heap, s.head.ptr, s.chain)
    && (forall a :: a in s.heap ==> (s.heap[a].place.Linked? <==> a in s.chain))
    && (s.chain != [] ==> s.heap[s.chain[0]].place == Linked(s.head.count))
    && (forall i, j :: 0 <= i < j < |s.chain| && j == i + 1 ==>
          s.heap[s.chain[j]].place == Linked(s.heap[s.chain[i]].next.count))
  }

  ghost predicate NodeInv(s: State, a: Addr)
    requires a in s.heap
  {
    var n := s.heap[a];
    var holders := |Holders(s.pc, a)|;
    match n.place
    case Fresh(t) =>
      holders == 0 && n.internal == 0 && t in s.pc
      && (s.pc[t].PushLoad? || s.pc[t].PushCas?) && s.pc[t].n == a
    case Linked(ext) =>
      ext + n.internal == 1 + holders && n.internal <= 0 && n.data.Some?
    case Popped(t, ext) =>
      ext - 2 + n.internal == holders && n.internal <= 0 && t in s.pc
      && (s.pc[t].PopData? || s.pc[t].PopAdd?) && s.pc[t].seen == Counted(ext, a)
    case Orphan =>
      n.internal == holders && 1 <= n.internal
    case Doomed(t) =>
      n.internal == 0 && holders == 0 && t in s.pc
      && (s.pc[t].PopFree? || s.pc[t].RetryFree?) && s.pc[t].p == a
  }

  ghost predicate PcInv(s: State, t: Tid)
    requires t in s.pc
  {
    match s.pc[t]
    case PushLoad(n, id, v) => Live(s, n, id) && s.heap[n].place == Fresh(t) && s.heap[n].data == Some(v)
    case PushCas(n, id, v) => Live(s, n, id) && s.heap[n].place == Fresh(t) && s.heap[n].data == Some(v)
    case PopNext(seen, id) => Live(s, seen.ptr, id)
    case PopCas(seen, id, nx) => Live(s, seen.ptr, id) && s.heap[seen.ptr].next == nx
    case PopData(seen, id) =>
      Live(s, seen.ptr, id) && s.heap[seen.ptr].place == Popped(t, seen.count) && s.heap[seen.ptr].data.Some?
    case PopAdd(seen, id, res) => Live(s, seen.ptr, id) && s.heap[seen.ptr].place == Popped(t, seen.count)
    case PopFree(p, id, res) => Live(s, p, id) && s.heap[p].place == Doomed(t)
    case PopSub(p, id, _) => Live(s, p, id)
    case RetryFree(p, id, _) => Live(s, p, id) && s.heap[p].place == Doomed(t)
    case _ => true
  }

  ghost predicate Inv(s: State) {
    && !s.fault
    && ChainInv(s)
    && (forall a {:trigger NodeInv(s, a)} :: a in s.heap ==> NodeInv(s, a))
    && (forall t {:trigger PcInv(s, t)} :: t in s.pc ==> PcInv(s, t))
  }

  /** How the holder sets change when one thread moves. */
  lemma HoldersMove(pc: map<Tid, Pc>, t: Tid, p: Pc, a: Addr)
    requires t in pc
    ensures |Holders(pc[t := p], a)| == |Holders(pc, a)|
              + (if Holds(p, a) then 1 else 0) - (if Holds(pc[t], a) then 1 else 0)
  {
    var h := Holders(pc, a);
    var h' := Holders(pc[t := p], a);
    if Holds(p, a) {
      assert h' == h + {t};
    } else {
      assert h' == h - {t};
    }
  }

  lemma HolderCounts(pc: map<Tid, Pc>, u: Tid, a: Addr)
    requires u in pc && Holds(pc[u], a)
    ensures 1 <= |Holders(pc, a)|
  {
    assert u in Holders(pc, a);
  }

  lemma NoHolders(s: State, a: Addr)
    requires Inv(s) && a !in s.heap
    ensures Holders(s.pc, a) == {}
  {
    forall u | u in s.pc ensures !Holds(s.pc[u], a) {
      assert PcInv(s, u);
    }
  }

  /** The one node that thread state `p` owns or holds, if any. */
  predicate Involves(p: Pc, a: Addr) {
    match p
    case PushLoad(n, _, _) => n == a
    case PushCas(n, _, _) => n == a
    case PopNext(seen, _) => seen.ptr == a
    case PopCas(seen, _, _) => seen.ptr == a
    case PopData(seen, _) => seen.ptr == a
    case PopAdd(seen, _, _) => seen.ptr == a
    case PopFree(q, _, _) => q == a
    case PopSub(q, _, _) => q == a
    case RetryFree(q, _, _) => q == a
    case _ => false
  }

  /** `s'` differs from `s` only in thread `t` and in the node at `a`, the only one `t` is involved with. */
  ghost predicate Touches(s: State, s': State, t: Tid, a: Addr) {
    && t in s.pc && t in s'.pc && s'.pc == s.pc[t := s'.pc[t]]
    && (forall b :: b != a ==> (b in s'.heap <==> b in s.heap))
    && (forall b :: b != a && b in s.heap ==> s'.heap[b] == s.heap[b])
    && (forall b :: b != a ==> !Involves(s.pc[t], b) && !Involves(s'.pc[t], b))
  }

  /** The node that a step of `t` works on; `NULL` when there is none. */
  function Focus(s: State, t: Tid, c: Choice): Addr
    requires t in s.pc
  {
    match s.pc[t]
    case PushAlloc(_) => if c.spare in s.heap then NULL else c.spare
    case PushLoad(n, _, _) => n
    case PushCas(n, _, _) => n
    case PopInc(seen) => if s.head == seen then seen.ptr else NULL
    case PopNext(seen, _) => seen.ptr
    case PopCas(seen, _, _) => seen.ptr
    case PopData(seen, _) => seen.ptr
    case PopAdd(seen, _, _) => seen.ptr
    case PopFree(p, _, _) => p
    case PopSub(p, _, _) => p
    case RetryFree(p, _, _) => p
    case _ => NULL
  }

  /** Every other node keeps its invariant. */
  lemma NodesInv(s: State, s': State, t: Tid, a: Addr)
    requires Inv(s) && Touches(s, s', t, a)
    requires a in s'.heap ==> NodeInv(s', a)
    ensures forall b {:trigger NodeInv(s', b)} :: b in s'.heap ==> NodeInv(s', b)
  {
    forall b {:trigger NodeInv(s', b)} | b in s'.heap ensures NodeInv(s', b) {
      if b != a {
        assert NodeInv(s, b);
        assert !Involves(s.pc[t], b) && !Involves(s'.pc[t], b);
        HoldersMove(s.pc, t, s'.pc[t], b);
      }
    }
  }

  /** What another thread `u` relies on about a node it is involved with. */
  ghost predicate Kept(n: Node, n': Node, u: Tid) {
    && n'.id == n.id && n'.next == n.next
    && ((n.place.Fresh? || n.place.Popped? || n.place.Doomed?) && n.place.t == u ==>
          n'.place == n.place && n'.data == n.data)
  }

  /** Every other thread keeps its invariant. */
  lemma PcsInv(s: State, s': State, t: Tid, a: Addr)
    requires Inv(s) && Touches(s, s', t, a)
    requires PcInv(s', t)
    requires forall u :: u in s.pc && u != t && Involves(s.pc[u], a) && a in s.heap ==>
               a in s'.heap && Kept(s.heap[a], s'.heap[a], u)
    ensures forall u {:trigger PcInv(s', u)} :: u in s'.pc ==> PcInv(s', u)
  {
    forall u {:trigger PcInv(s', u)} | u in s'.pc ensures PcInv(s', u) {
      assert PcInv(s, u);
    }
  }

  /** A node that is being pushed or deleted by `t` is nobody else's concern. */
  lemma Alone(s: State, t: Tid, a: Addr)
    requires Inv(s) && a in s.heap
    requires s.heap[a].place == Fresh(t) || s.heap[a].place == Doomed(t)
    ensures forall u :: u in s.pc && u != t ==> !Involves(s.pc[u], a)
  {
    assert NodeInv(s, a);
    forall u | u in s.pc && u != t ensures !Involves(s.pc[u], a) {
      assert PcInv(s, u);
      if Holds(s.pc[u], a) {
        HolderCounts(s.pc, u, a);
      }
    }
  }

  /** The chain is not affected by a step that leaves its links and counts alone. */
  lemma ChainFrame(s: State, s': State, a: Addr)
    requires ChainInv(s) && s'.head == s.head && s'.chain == s.chain && NULL !in s'.heap
    requires forall b :: b != a ==> (b in s'.heap <==> b in s.heap)
    requires forall b :: b != a && b in s.heap ==> s'.heap[b] == s.heap[b]
    requires a in s.heap && s.heap[a].place.Linked?
      ==> a in s'.heap && s'.heap[a].place == s.heap[a].place && s'.heap[a].next == s.heap[a].next
    requires a in s'.heap && s'.heap[a].place.Linked? ==> a in s.heap && s.heap[a].place.Linked?
    ensures ChainInv(s')
  {
  }

  lemma AllocInv(s: State, t: Tid, v: Value, a: Addr)
    requires Inv(s) && t in s.pc && s.pc[t] == PushAlloc(v)
    ensures Inv(DoAlloc(s, t, v, a))
    ensures Touches(s, DoAlloc(s, t, v, a), t, if a in s.heap then NULL else a)
  {
    var s' := DoAlloc(s, t, v, a);
    if a != NULL && a !in s.heap {
      NoHolders(s, a);
      HoldersMove(s.pc, t, s'.pc[t], a);
      ChainFrame(s, s', a);
      NodesInv(s, s', t, a);
      PcsInv(s, s', t, a);
    }
  }

  lemma PushLoadInv(s: State, t: Tid, n: Addr, id: nat, v: Value)
    requires Inv(s) && t in s.pc && s.pc[t] == PushLoad(n, id, v)
    ensures Inv(DoPushLoad(s, t, n, id, v))
    ensures Touches(s, DoPushLoad(s, t, n, id, v), t, n)
  {
    var s' := DoPushLoad(s, t, n, id, v);
    assert PcInv(s, t);
    assert NodeInv(s, n);
    Alone(s, t, n);
    HoldersMove(s.pc, t, s'.pc[t], n);
    ChainFrame(s, s', n);
    NodesInv(s, s', t, n);
    PcsInv(s, s', t, n);
  }

  lemma PushCasChain(s: State, s': State, n: Addr)
    requires ChainInv(s) && n in s.heap && !s.heap[n].place.Linked? && s.heap[n].next == s.head
    requires s'.heap == s.heap[n := s.heap[n].(place := Linked(1))]
    requires s'.head == Counted(1, n) && s'.chain == [n] + s.chain
    ensures ChainInv(s')
  {
    var m := s'.chain;
    forall i, j | 0 <= i < j < |m| && j == i + 1
      ensures s'.heap[m[i]].next.ptr == m[j] && s'.heap[m[j]].place == Linked(s'.heap[m[i]].next.count)
    {
      assert m[j] == s.chain[i];
      if 0 < i {
        assert m[i] == s.chain[i - 1];
      }
    }
  }

  lemma PushCasInv(s: State, t: Tid, n: Addr, id: nat, v: Value, spurious: bool)
    requires Inv(s) && t in s.pc && s.pc[t] == PushCas(n, id, v)
    ensures Inv(DoPushCas(s, t, n, id, v, spurious))
    ensures Touches(s, DoPushCas(s, t, n, id, v, spurious), t, n)
  {
    var s' := DoPushCas(s, t, n, id, v, spurious);
    assert PcInv(s, t);
    assert NodeInv(s, n);
    Alone(s, t, n);
    HoldersMove(s.pc, t, s'.pc[t], n);
    if s.head == s.heap[n].next && !spurious {
      PushCasChain(s, s', n);
    } else {
      ChainFrame(s, s', n);
    }
    NodesInv(s, s', t, n);
    PcsInv(s, s', t, n);
  }

  lemma PopIncInv(s: State, t: Tid, seen: Counted)
    requires Inv(s) && t in s.pc && s.pc[t] == PopInc(seen)
    ensures Inv(DoPopInc(s, t, seen))
    ensures Touches(s, DoPopInc(s, t, seen), t, if s.head == seen then seen.ptr else NULL)
  {
    var s' := DoPopInc(s, t, seen);
    if s.head == seen && seen.ptr != NULL {
      assert seen.ptr == s.chain[0];
      assert NodeInv(s, seen.ptr);
      HoldersMove(s.pc, t, s'.pc[t], seen.ptr);
      NodesInv(s, s', t, seen.ptr);
      PcsInv(s, s', t, seen.ptr);
    } else {
      NodesInv(s, s', t, NULL);
      PcsInv(s, s', t, NULL);
    }
  }

  lemma PopNextInv(s: State, t: Tid, seen: Counted, id: nat)
    requires Inv(s) && t in s.pc && s.pc[t] == PopNext(seen, id)
    ensures Inv(DoPopNext(s, t, seen, id))
    ensures Touches(s, DoPopNext(s, t, seen, id), t, seen.ptr)
  {
    var s' := DoPopNext(s, t, seen, id);
    assert PcInv(s, t);
    assert NodeInv(s, seen.ptr);
    HoldersMove(s.pc, t, s'.pc[t], seen.ptr);
    NodesInv(s, s', t, seen.ptr);
    PcsInv(s, s', t, seen.ptr);
  }

  lemma PopCasChain(s: State, s': State, t: Tid)
    requires ChainInv(s) && s.chain != []
    requires s'.heap == s.heap[s.head.ptr := s.heap[s.head.ptr].(place := Popped(t, s.head.count))]
    requires s'.head == s.heap[s.head.ptr].next && s'.chain == s.chain[1..]
    ensures ChainInv(s')
  {
    forall a | a in s'.heap ensures s'.heap[a].place.Linked? <==> a in s'.chain {
      assert a in s.chain <==> a == s.chain[0] || a in s.chain[1..];
    }
  }

  lemma PopCasInv(s: State, t: Tid, seen: Counted, id: nat, nx: Counted)
    requires Inv(s) && t in s.pc && s.pc[t] == PopCas(seen, id, nx)
    ensures Inv(DoPopCas(s, t, seen, id, nx))
    ensures Touches(s, DoPopCas(s, t, seen, id, nx), t, seen.ptr)
  {
    if s.head == seen {
      UnlinkInv(s, t, seen, id, nx, DoPopCas(s, t, seen, id, nx));
    } else {
      var s' := DoPopCas(s, t, seen, id, nx);
      assert PcInv(s, t);
      assert NodeInv(s, seen.ptr);
      HoldersMove(s.pc, t, s'.pc[t], seen.ptr);
      NodesInv(s, s', t, seen.ptr);
      PcsInv(s, s', t, seen.ptr);
    }
  }

  lemma UnlinkInv(s: State, t: Tid, seen: Counted, id: nat, nx: Counted, s': State)
    requires Inv(s) && t in s.pc && s.pc[t] == PopCas(seen, id, nx) && s.head == seen
             && s' == DoPopCas(s, t, seen, id, nx)
    ensures Inv(s') && Touches(s, s', t, seen.ptr)
  {
    assert PcInv(s, t);
    assert NodeInv(s, seen.ptr);
    HoldersMove(s.pc, t, s'.pc[t], seen.ptr);
    assert seen.ptr == s.chain[0];
    PopCasChain(s, s', t);
    NodesInv(s, s', t, seen.ptr);
    PcsInv(s, s', t, seen.ptr);
  }

  lemma PopDataInv(s: State, t: Tid, seen: Counted, id: nat)
    requires Inv(s) && t in s.pc && s.pc[t] == PopData(seen, id)
    ensures Inv(DoPopData(s, t, seen, id))
    ensures Touches(s, DoPopData(s, t, seen, id), t, seen.ptr)
  {
    var s' := DoPopData(s, t, seen, id);
    assert PcInv(s, t);
    assert NodeInv(s, seen.ptr);
    HoldersMove(s.pc, t, s'.pc[t], seen.ptr);
    ChainFrame(s, s', seen.ptr);
    NodesInv(s, s', t, seen.ptr);
    PcsInv(s, s', t, seen.ptr);
  }

  lemma PopAddInv(s: State, t: Tid, seen: Counted, id: nat, res: Option<Value>)
    requires Inv(s) && t in s.pc && s.pc[t] == PopAdd(seen, id, res)
    ensures Inv(DoPopAdd(s, t, seen, id, res))
    ensures Touches(s, DoPopAdd(s, t, seen, id, res), t, seen.ptr)
  {
    var s' := DoPopAdd(s, t, seen, id, res);
    assert PcInv(s, t);
    assert NodeInv(s, seen.ptr);
    HoldersMove(s.pc, t, s'.pc[t], seen.ptr);
    ChainFrame(s, s', seen.ptr);
    NodesInv(s, s', t, seen.ptr);
    PcsInv(s, s', t, seen.ptr);
  }

  lemma PopSubInv(s: State, t: Tid, p: Addr, id: nat, seen: Counted)
    requires Inv(s) && t in s.pc && s.pc[t] == PopSub(p, id, seen)
    ensures Inv(DoPopSub(s, t, p, id, seen))
    ensures Touches(s, DoPopSub(s, t, p, id, seen), t, p)
  {
    var s' := DoPopSub(s, t, p, id, seen);
    assert PcInv(s, t);
    assert NodeInv(s, p);
    HolderCounts(s.pc, t, p);
    HoldersMove(s.pc, t, s'.pc[t], p);
    ChainFrame(s, s', p);
    NodesInv(s, s', t, p);
    PcsInv(s, s', t, p);
  }

  lemma FreeInv(s: State, t: Tid, p: Addr, id: nat, then_: Pc)
    requires Inv(s) && t in s.pc
    requires (s.pc[t].PopFree? || s.pc[t].RetryFree?) && s.pc[t].p == p && s.pc[t].id == id
    requires then_.PopRet? || then_.PopInc?
    ensures Inv(DoFree(s, t, p, id, then_))
    ensures Touches(s, DoFree(s, t, p, id, then_), t, p)
  {
    var s' := DoFree(s, t, p, id, then_);
    assert PcInv(s, t);
    Alone(s, t, p);
    ChainFrame(s, s', p);
    NodesInv(s, s', t, p);
    PcsInv(s, s', t, p);
  }

  lemma LocalInv(s: State, t: Tid, p: Pc)
    requires Inv(s) && t in s.pc && (s.pc[t].Idle? || s.pc[t].PushRet? || s.pc[t].PopLoad? || s.pc[t].PopRet?)
    requires p.Idle? || p.PushAlloc? || p.PopLoad? || p.PopInc?
    ensures Inv(Goto(s, t, p))
    ensures Touches(s, Goto(s, t, p), t, NULL)
  {
    var s' := Goto(s, t, p);
    NodesInv(s, s', t, NULL);
    PcsInv(s, s', t, NULL);
  }

  predicate Quick(p: Pc) {
    p.Idle? || p.PushRet? || p.PopLoad? || p.PopRet?
  }

  lemma QuickStepInv(s: State, t: Tid, c: Choice)
    requires Inv(s) && t in s.pc && Quick(s.pc[t])
    ensures Inv(Step(s, t, c)) && Touches(s, Step(s, t, c), t, Focus(s, t, c))
  {
    match s.pc[t]
    case Idle => LocalInv(s, t, if c.op.DoPush? then PushAlloc(c.op.v) else PopLoad);
    case PushRet => LocalInv(s, t, Idle);
    case PopLoad => LocalInv(s, t, PopInc(s.head));
    case PopRet(res) => LocalInv(s, t, Idle);
  }

  predicate AtPush(p: Pc) {
    p.PushAlloc? || p.PushLoad? || p.PushCas?
  }

  lemma PushStepInv(s: State, t: Tid, c: Choice)
    requires Inv(s) && t in s.pc && AtPush(s.pc[t])
    ensures Inv(Step(s, t, c)) && Touches(s, Step(s, t, c), t, Focus(s, t, c))
  {
    match s.pc[t]
    case PushAlloc(v) => AllocInv(s, t, v, c.spare);
    case PushLoad(n, id, v) => PushLoadInv(s, t, n, id, v);
    case PushCas(n, id, v) => PushCasInv(s, t, n, id, v, c.spurious);
  }

  predicate AtTake(p: Pc) {
    p.PopInc? || p.PopNext? || p.PopCas? || p.PopData?
  }

  lemma TakeStepInv(s: State, t: Tid, c: Choice)
    requires Inv(s) && t in s.pc && AtTake(s.pc[t])
    ensures Inv(Step(s, t, c)) && Touches(s, Step(s, t, c), t, Focus(s, t, c))
  {
    match s.pc[t]
    case PopInc(seen) => PopIncInv(s, t, seen);
    case PopNext(seen, id) => PopNextInv(s, t, seen, id);
    case PopCas(seen, id, nx) => PopCasInv(s, t, seen, id, nx);
    case PopData(seen, id) => PopDataInv(s, t, seen, id);
  }

  lemma LeaveStepInv(s: State, t: Tid, c: Choice)
    requires Inv(s) && t in s.pc && !Quick(s.pc[t]) && !AtPush(s.pc[t]) && !AtTake(s.pc[t])
    ensures Inv(Step(s, t, c)) && Touches(s, Step(s, t, c), t, Focus(s, t, c))
  {
    match s.pc[t]
    case PopAdd(seen, id, res) => PopAddInv(s, t, seen, id, res);
    case PopFree(p, id, res) => FreeInv(s, t, p, id, PopRet(res));
    case PopSub(p, id, seen) => PopSubInv(s, t, p, id, seen);
    case RetryFree(p, id, seen) => FreeInv(s, t, p, id, PopInc(seen));
  }

  lemma StepInv(s: State, t: Tid, c: Choice)
    requires Inv(s) && t in s.pc
    ensures Inv(Step(s, t, c))
    ensures Touches(s, Step(s, t, c), t, Focus(s, t, c))
  {
    if Quick(s.pc[t]) {
      QuickStepInv(s, t, c);
    } else if AtPush(s.pc[t]) {
      PushStepInv(s, t, c);
    } else if AtTake(s.pc[t]) {
      TakeStepInv(s, t, c);
    } else {
      LeaveStepInv(s, t, c);
    }
  }
}
