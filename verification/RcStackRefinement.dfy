/** What the steps of the reference-counted stack do to the allocations and to the abstract stack. */
module RcStackRefinement {
  import opened Wrappers
  import opened Allocation
  import opened LinearSpec
  import opened RcStack
  import opened RcStackInvariant

  // ---------------------------------------------------------------- accounting of allocations

  ghost function Ids(heap: map<Addr, Node>): (ids: map<Addr, nat>)
    ensures |ids| == |heap|
  {
    var ids := map a | a in heap :: heap[a].id;
    assert ids.Keys == heap.Keys;
    ids
  }

  /** Serial numbers identify nodes, and every node ever allocated is live or has been deleted. */
  ghost predicate Account(s: State) {
    Accounts(Ids(s.heap), s.freed, s.serial)
  }

  ghost predicate SameIds(s: State, s': State) {
    Ids(s'.heap) == Ids(s.heap) && s'.freed == s.freed && s'.serial == s.serial
  }

  predicate Allocates(p: Pc) {
    p.PushAlloc? || p.PopFree? || p.RetryFree?
  }

  lemma PushIds(s: State, t: Tid, n: Addr, id: nat, v: Value, spurious: bool)
    ensures SameIds(s, DoPushLoad(s, t, n, id, v)) && SameIds(s, DoPushCas(s, t, n, id, v, spurious))
  {
  }

  lemma EnterIds(s: State, t: Tid, seen: Counted, id: nat)
    ensures SameIds(s, DoPopInc(s, t, seen)) && SameIds(s, DoPopNext(s, t, seen, id))
  {
  }

  lemma TakeIds(s: State, t: Tid, seen: Counted, id: nat, nx: Counted)
    ensures SameIds(s, DoPopCas(s, t, seen, id, nx)) && SameIds(s, DoPopData(s, t, seen, id))
  {
  }

  lemma AddIds(s: State, t: Tid, seen: Counted, id: nat, res: Option<Value>)
    ensures SameIds(s, DoPopAdd(s, t, seen, id, res))
  {
  }

  lemma SubIds(s: State, t: Tid, p: Addr, id: nat, seen: Counted)
    ensures SameIds(s, DoPopSub(s, t, p, id, seen))
  {
  }

  lemma KeepsIds(s: State, t: Tid, c: Choice)
    requires t in s.pc && !Allocates(s.pc[t])
    ensures SameIds(s, Step(s, t, c))
  {
    match s.pc[t]
    case PushLoad(n, id, v) => PushIds(s, t, n, id, v, c.spurious);
    case PushCas(n, id, v) => PushIds(s, t, n, id, v, c.spurious);
    case PopInc(seen) => EnterIds(s, t, seen, 0);
    case PopNext(seen, id) => EnterIds(s, t, seen, id);
    case PopCas(seen, id, nx) => TakeIds(s, t, seen, id, nx);
    case PopData(seen, id) => TakeIds(s, t, seen, id, seen);
    case PopAdd(seen, id, res) => AddIds(s, t, seen, id, res);
    case PopSub(p, id, seen) => SubIds(s, t, p, id, seen);
    case _ =>
  }

  lemma AllocAccount(s: State, t: Tid, v: Value, a: Addr)
    requires Account(s)
    ensures Account(DoAlloc(s, t, v, a))
  {
    if a != NULL && a !in s.heap {
      NewAccounted(Ids(s.heap), s.freed, s.serial, a);
      assert Ids(DoAlloc(s, t, v, a).heap) == Ids(s.heap)[a := s.serial];
    }
  }

  lemma FreeAccount(s: State, t: Tid, p: Addr, id: nat, then_: Pc)
    requires Account(s)
    ensures Account(DoFree(s, t, p, id, then_))
  {
    if Live(s, p, id) {
      FreeAccounted(Ids(s.heap), s.freed, s.serial, p);
      assert Ids(s.heap - {p}) == Ids(s.heap) - {p};
    }
  }

  lemma PushAllocAccount(s: State, t: Tid, c: Choice)
    requires Account(s) && t in s.pc && s.pc[t].PushAlloc?
    ensures Account(Step(s, t, c))
  {
    AllocAccount(s, t, s.pc[t].v, c.spare);
  }

  lemma PopFreeAccount(s: State, t: Tid, c: Choice)
    requires Account(s) && t in s.pc && s.pc[t].PopFree?
    ensures Account(Step(s, t, c))
  {
    FreeAccount(s, t, s.pc[t].p, s.pc[t].id, PopRet(s.pc[t].res));
  }

  lemma RetryFreeAccount(s: State, t: Tid, c: Choice)
    requires Account(s) && t in s.pc && s.pc[t].RetryFree?
    ensures Account(Step(s, t, c))
  {
    FreeAccount(s, t, s.pc[t].p, s.pc[t].id, PopInc(s.pc[t].seen));
  }

  lemma StepAccount(s: State, t: Tid, c: Choice)
    requires Account(s) && t in s.pc
    ensures Account(Step(s, t, c))
  {
    if s.pc[t].PushAlloc? {
      PushAllocAccount(s, t, c);
    } else if s.pc[t].PopFree? {
      PopFreeAccount(s, t, c);
    } else if s.pc[t].RetryFree? {
      RetryFreeAccount(s, t, c);
    } else {
      KeepsIds(s, t, c);
    }
  }

  // ---------------------------------------------------------------- refinement

  ghost function Items(heap: map<Addr, Node>, chain: seq<Addr>): seq<Value>
    requires forall i :: 0 <= i < |chain| ==> chain[i] in heap && heap[chain[i]].data.Some?
  {
    seq(|chain|, i requires 0 <= i < |chain| => heap[chain[i]].data.value)
  }

  ghost function PhaseOf(s: State, t: Tid): Phase
    requires t in s.pc
  {
    match s.pc[t]
    case Idle => Quiet
    case PushAlloc(v) => WantPut(v)
    case PushLoad(_, _, v) => WantPut(v)
    case PushCas(_, _, v) => WantPut(v)
    case PushRet => DonePut
    case PopData(seen, _) => DoneTake(if seen.ptr in s.heap then s.heap[seen.ptr].data else None)
    case PopAdd(_, _, res) => DoneTake(res)
    case PopFree(_, _, res) => DoneTake(res)
    case PopRet(res) => DoneTake(res)
    case _ => WantTake
  }

  lemma ChainData(s: State)
    requires Inv(s)
    ensures forall i :: 0 <= i < |s.chain| ==> s.chain[i] in s.heap && s.heap[s.chain[i]].data.Some?
  {
    forall i | 0 <= i < |s.chain| ensures s.heap[s.chain[i]].data.Some? {
      assert NodeInv(s, s.chain[i]);
    }
  }

  ghost function Abs(s: State): Spec
    requires Inv(s)
  {
    ChainData(s);
    Spec(Items(s.heap, s.chain), map t | t in s.pc :: PhaseOf(s, t))
  }

  lemma OtherPhase(s: State, t: Tid, c: Choice, u: Tid)
    requires Inv(s) && t in s.pc && u in s.pc && u != t
    ensures u in Step(s, t, c).pc && PhaseOf(Step(s, t, c), u) == PhaseOf(s, u)
  {
    assert PcInv(s, t);
    assert PcInv(s, u);
  }

  lemma ItemsSame(h: map<Addr, Node>, h': map<Addr, Node>, chain: seq<Addr>)
    requires forall i :: 0 <= i < |chain| ==> chain[i] in h && h[chain[i]].data.Some?
    requires forall i :: 0 <= i < |chain| ==> chain[i] in h' && h'[chain[i]].data == h[chain[i]].data
    ensures Items(h', chain) == Items(h, chain)
  {
  }

  /** No step changes the value in a linked node. */
  lemma KeepsData(s: State, t: Tid, c: Choice)
    requires Inv(s) && t in s.pc
    ensures forall a :: a in s.heap && s.heap[a].place.Linked? ==>
              a in Step(s, t, c).heap && Step(s, t, c).heap[a].data == s.heap[a].data
  {
    if AtPush(s.pc[t]) || Quick(s.pc[t]) {
      PushKeepsData(s, t, c);
    } else if AtTake(s.pc[t]) {
      TakeKeepsData(s, t, c);
    } else {
      LeaveKeepsData(s, t, c);
    }
  }

  lemma PushKeepsData(s: State, t: Tid, c: Choice)
    requires t in s.pc && (AtPush(s.pc[t]) || Quick(s.pc[t]))
    ensures forall a :: a in s.heap ==> a in Step(s, t, c).heap && Step(s, t, c).heap[a].data == s.heap[a].data
  {
  }

  lemma TakeKeepsData(s: State, t: Tid, c: Choice)
    requires Inv(s) && t in s.pc && AtTake(s.pc[t])
    ensures forall a :: a in s.heap && s.heap[a].place.Linked? ==>
              a in Step(s, t, c).heap && Step(s, t, c).heap[a].data == s.heap[a].data
  {
    assert PcInv(s, t);
  }

  lemma LeaveKeepsData(s: State, t: Tid, c: Choice)
    requires Inv(s) && t in s.pc && !AtPush(s.pc[t]) && !Quick(s.pc[t]) && !AtTake(s.pc[t])
    ensures forall a :: a in s.heap && s.heap[a].place.Linked? ==>
              a in Step(s, t, c).heap && Step(s, t, c).heap[a].data == s.heap[a].data
  {
    assert PcInv(s, t);
  }

  /** A successful compare-exchange of pop removes the top value, and returns the value it removed. */
  lemma PopItems(s: State, t: Tid, seen: Counted, id: nat, nx: Counted)
    requires Inv(s) && t in s.pc && s.pc[t] == PopCas(seen, id, nx) && s.head == seen
    requires Inv(DoPopCas(s, t, seen, id, nx))
    ensures Abs(s).items != []
    ensures Abs(DoPopCas(s, t, seen, id, nx)).items == Abs(s).items[1..]
    ensures PhaseOf(DoPopCas(s, t, seen, id, nx), t) == DoneTake(Some(Abs(s).items[0]))
  {
    assert PcInv(s, t);
    ChainData(s);
    ChainData(DoPopCas(s, t, seen, id, nx));
    assert seen.ptr == s.chain[0];
  }

  lemma PushItems(s: State, t: Tid, n: Addr, id: nat, v: Value)
    requires Inv(s) && t in s.pc && s.pc[t] == PushCas(n, id, v) && Live(s, n, id) && s.head == s.heap[n].next
    requires Inv(DoPushCas(s, t, n, id, v, false))
    ensures Abs(DoPushCas(s, t, n, id, v, false)).items == [v] + Abs(s).items
  {
    assert PcInv(s, t);
    ChainData(s);
    ChainData(DoPushCas(s, t, n, id, v, false));
  }

  /** All other steps leave the abstract stack alone. */
  lemma OtherItems(s: State, t: Tid, c: Choice)
    requires Inv(s) && t in s.pc && Inv(Step(s, t, c)) && Step(s, t, c).chain == s.chain
    ensures Abs(Step(s, t, c)).items == Abs(s).items
  {
    KeepsData(s, t, c);
    ChainData(s);
    ChainData(Step(s, t, c));
    ItemsSame(s.heap, Step(s, t, c).heap, s.chain);
  }

  lemma Phases(s: State, s': State, t: Tid)
    requires Inv(s) && Inv(s') && t in s.pc
    requires forall u :: u in s'.pc <==> u in s.pc
    requires forall u :: u in s.pc && u != t ==> PhaseOf(s', u) == PhaseOf(s, u)
    ensures Abs(s').phase == Abs(s).phase[t := PhaseOf(s', t)]
  {
  }

  lemma OwnPhase(s: State, t: Tid, c: Choice)
    requires Inv(s) && t in s.pc
    ensures t in Step(s, t, c).pc
    ensures var p, p' := PhaseOf(s, t), PhaseOf(Step(s, t, c), t);
      match Event(s, t, c)
      case Silent => p' == p
      case CallPut(u, v) => u == t && p == Quiet && p' == WantPut(v)
      case CallTake(u) => u == t && p == Quiet && p' == WantTake
      case EffectPut(u) => u == t && p.WantPut? && p' == DonePut
      case EffectTake(u) => u == t && p == WantTake
      case RetPut(u) => u == t && p == DonePut && p' == Quiet
      case RetTake(u, r) => u == t && p == DoneTake(r) && p' == Quiet
      case Abandon(_) => false
  {
    assert PcInv(s, t);
  }

  lemma StepItems(s: State, t: Tid, c: Choice, s': State)
    requires Inv(s) && t in s.pc && s' == Step(s, t, c) && Inv(s') && t in s'.pc
    ensures var e, items, items', p, p' := Event(s, t, c), Abs(s).items, Abs(s').items, PhaseOf(s, t), PhaseOf(s', t);
      if e.EffectPut? then p.WantPut? && items' == [p.v] + items
      else if e.EffectTake? && items != [] then p' == DoneTake(Some(items[0])) && items' == items[1..]
      else items' == items && (e.EffectTake? ==> p' == DoneTake(None))
  {
    var e := Event(s, t, c);
    if e.EffectPut? {
      PushItems(s, t, s.pc[t].n, s.pc[t].id, s.pc[t].v);
    } else if e.EffectTake? && s.pc[t].PopCas? {
      PopItems(s, t, s.pc[t].seen, s.pc[t].id, s.pc[t].nx);
    } else {
      OtherItems(s, t, c);
    }
  }

  lemma StepRefines(s: State, t: Tid, c: Choice)
    requires Inv(s) && t in s.pc
    ensures Inv(Step(s, t, c))
    ensures SpecStep(Lifo, Abs(s), Event(s, t, c)) == Some(Abs(Step(s, t, c)))
  {
    StepInv(s, t, c);
    var s', e := Step(s, t, c), Event(s, t, c);
    forall u | u in s.pc && u != t ensures PhaseOf(s', u) == PhaseOf(s, u) {
      OtherPhase(s, t, c, u);
    }
    OwnPhase(s, t, c);
    Phases(s, s', t);
    StepItems(s, t, c, s');
    MatchesStep(Lifo, Abs(s), Abs(s'), t, e);
  }
}
