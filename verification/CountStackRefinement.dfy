/** What the steps of the counting stack do to the abstract stack and to the allocations. */
module CountStackRefinement {
  import opened Wrappers
  import opened Allocation
  import opened LinearSpec
  import opened CountStack
  import opened CountStackInvariant

  // ---------------------------------------------------------------- refinement

  ghost function Items(heap: map<Addr, Node>, chain: seq<Addr>): seq<Value>
    requires forall i :: 0 <= i < |chain| ==> chain[i] in heap && heap[chain[i]].data.Some?
  {
    seq(|chain|, i requires 0 <= i < |chain| => heap[chain[i]].data.value)
  }

  ghost function PhaseOf(s: State, t: Tid): Phase
    requires t in s.pc
  {
    match s.pc[t]
    case Idle => Quiet
    case PushAlloc(v) => WantPut(v)
    case PushLoad(_, _, v) => WantPut(v)
    case PushCas(_, _, v) => WantPut(v)
    case PushRet => DonePut
    case PopData(seen, _) => DoneTake(if seen in s.heap then s.heap[seen].data else None)
    case Reclaim(_, _, res, _) => DoneTake(res)
    case PopRet(res) => DoneTake(res)
    case _ => WantTake
  }

  lemma ChainData(s: State)
    requires Inv(s)
    ensures forall i :: 0 <= i < |s.chain| ==> s.chain[i] in s.heap && s.heap[s.chain[i]].data.Some?
  {
    forall i | 0 <= i < |s.chain| ensures s.heap[s.chain[i]].data.Some? {
      assert NodeInv(s, s.chain[i]);
    }
  }

  ghost function Abs(s: State): Spec
    requires Inv(s)
  {
    ChainData(s);
    Spec(Items(s.heap, s.chain), map t | t in s.pc :: PhaseOf(s, t))
  }

  /** A step of `t` does not move another thread `u`, and does not change the value in a node that is
      linked or owned by another thread. */
  ghost predicate Gentle(s: State, s': State, t: Tid, b: Addr, u: Tid) {
    && t in s'.pc && (u in s'.pc <==> u in s.pc) && (u in s.pc && u != t ==> s'.pc[u] == s.pc[u])
    && (b in s.heap && (s.heap[b].place == Linked || (s.heap[b].place.Owned? && s.heap[b].place.t != t)) ==>
          b in s'.heap && s'.heap[b].data == s.heap[b].data)
  }

  predicate Deleting(p: Pc) {
    p.Reclaim? && (p.at.TakeList? || p.at.Leave? || p.at.DelNext? || p.at.DelFree? || p.at.FreeOld?)
  }

  predicate Chaining(p: Pc) {
    p.Reclaim? && (p.at.Walk? || p.at.ChainLoad? || p.at.ChainCas?)
  }

  /** Reclaiming is invisible: it changes neither the stack nor the result that pop will return. */
  ghost predicate KeepsResult(s: State, s': State, t: Tid)
    requires t in s.pc
  {
    s.pc[t].Reclaim? && t in s'.pc && s'.chain == s.chain
    && (s'.pc[t].Reclaim? || s'.pc[t].PopRet?) && s'.pc[t].res == s.pc[t].res
  }

  lemma DeletingKeeps(s: State, t: Tid, c: Choice, b: Addr, u: Tid)
    requires Inv(s) && t in s.pc && Deleting(s.pc[t])
    ensures Gentle(s, ReclaimStep(s, t, c), t, b, u) && KeepsResult(s, ReclaimStep(s, t, c), t)
  {
    assert ThreadInv(s, t);
  }

  lemma WalkKeeps(s: State, t: Tid, st: Stage, b: Addr, u: Tid)
    requires t in s.pc && s.pc[t].Reclaim? && s.pc[t].at == st && st.Walk?
    ensures var s' := DoWalk(s, t, s.pc[t].old_head, s.pc[t].oid, s.pc[t].res, st.first, st.last, st.mine);
      Gentle(s, s', t, b, u) && KeepsResult(s, s', t)
  {
  }

  lemma ChainLoadKeeps(s: State, t: Tid, first: Addr, last: Addr, mine: seq<Addr>, b: Addr, u: Tid)
    requires t in s.pc && s.pc[t].Reclaim?
    ensures var s' := DoChainLoad(s, t, s.pc[t].old_head, s.pc[t].oid, s.pc[t].res, first, last, mine);
      Gentle(s, s', t, b, u) && KeepsResult(s, s', t)
  {
  }

  lemma ChainCasKeeps(s: State, t: Tid, first: Addr, last: Addr, mine: seq<Addr>, spurious: bool, b: Addr, u: Tid)
    requires t in s.pc && s.pc[t].Reclaim?
    ensures var s' := DoChainCas(s, t, s.pc[t].old_head, s.pc[t].oid, s.pc[t].res, first, last, mine, spurious);
      Gentle(s, s', t, b, u) && KeepsResult(s, s', t)
  {
    ChainLoadKeeps(s, t, first, last, mine, b, u);
  }

  lemma ChainingKeeps(s: State, t: Tid, c: Choice, b: Addr, u: Tid)
    requires t in s.pc && Chaining(s.pc[t])
    ensures Gentle(s, ReclaimStep(s, t, c), t, b, u) && KeepsResult(s, ReclaimStep(s, t, c), t)
  {
    match s.pc[t].at
    case Walk(first, last, mine) => WalkKeeps(s, t, s.pc[t].at, b, u);
    case ChainLoad(first, last, mine) => ChainLoadKeeps(s, t, first, last, mine, b, u);
    case ChainCas(first, last, mine) => ChainCasKeeps(s, t, first, last, mine, c.spurious, b, u);
  }

  lemma ShareLoadKeeps(s: State, t: Tid, b: Addr, u: Tid)
    requires t in s.pc && s.pc[t].Reclaim?
    ensures var s' := DoShareLoad(s, t, s.pc[t].old_head, s.pc[t].oid, s.pc[t].res);
      Gentle(s, s', t, b, u) && KeepsResult(s, s', t)
  {
  }

  lemma ShareCasKeeps(s: State, t: Tid, spurious: bool, b: Addr, u: Tid)
    requires t in s.pc && s.pc[t].Reclaim?
    ensures var s' := DoShareCas(s, t, s.pc[t].old_head, s.pc[t].oid, s.pc[t].res, spurious);
      Gentle(s, s', t, b, u) && KeepsResult(s, s', t)
  {
    ShareLoadKeeps(s, t, b, u);
  }

  lemma SharingKeeps(s: State, t: Tid, c: Choice, b: Addr, u: Tid)
    requires t in s.pc && s.pc[t].Reclaim? && !Deleting(s.pc[t]) && !Chaining(s.pc[t])
    ensures Gentle(s, ReclaimStep(s, t, c), t, b, u) && KeepsResult(s, ReclaimStep(s, t, c), t)
  {
    match s.pc[t].at
    case ShareLoad => ShareLoadKeeps(s, t, b, u);
    case ShareCas => ShareCasKeeps(s, t, c.spurious, b, u);
    case _ =>
  }

  lemma ReclaimKeeps(s: State, t: Tid, c: Choice, b: Addr, u: Tid)
    requires Inv(s) && t in s.pc && s.pc[t].Reclaim?
    ensures Gentle(s, ReclaimStep(s, t, c), t, b, u) && KeepsResult(s, ReclaimStep(s, t, c), t)
  {
    if Deleting(s.pc[t]) {
      DeletingKeeps(s, t, c, b, u);
    } else if Chaining(s.pc[t]) {
      ChainingKeeps(s, t, c, b, u);
    } else {
      SharingKeeps(s, t, c, b, u);
    }
  }

  predicate AtPush(p: Pc) {
    p.Idle? || p.PushAlloc? || p.PushLoad? || p.PushCas? || p.PushRet?
  }

  lemma PushGentle(s: State, t: Tid, c: Choice, b: Addr, u: Tid)
    requires t in s.pc && AtPush(s.pc[t])
    ensures Gentle(s, Step(s, t, c), t, b, u)
  {
  }

  lemma PopGentle(s: State, t: Tid, c: Choice, b: Addr, u: Tid)
    requires Inv(s) && t in s.pc && !AtPush(s.pc[t]) && !s.pc[t].Reclaim?
    ensures Gentle(s, Step(s, t, c), t, b, u)
  {
    assert ThreadInv(s, t);
  }

  lemma StepGentle(s: State, t: Tid, c: Choice, b: Addr, u: Tid)
    requires Inv(s) && t in s.pc
    ensures Gentle(s, Step(s, t, c), t, b, u)
  {
    if s.crash {
    } else if s.pc[t].Reclaim? {
      ReclaimKeeps(s, t, c, b, u);
    } else if AtPush(s.pc[t]) {
      PushGentle(s, t, c, b, u);
    } else {
      PopGentle(s, t, c, b, u);
    }
  }

  lemma OtherPhase(s: State, s': State, t: Tid, u: Tid)
    requires Inv(s) && u in s.pc && u != t
    requires Gentle(s, s', t, if s.pc[u].PopData? then s.pc[u].seen else NULL, u)
    ensures u in s'.pc && PhaseOf(s', u) == PhaseOf(s, u)
  {
    assert ThreadInv(s, u);
  }

  lemma ItemsSame(h: map<Addr, Node>, h': map<Addr, Node>, chain: seq<Addr>)
    requires forall i :: 0 <= i < |chain| ==> chain[i] in h && h[chain[i]].data.Some?
    requires forall i :: 0 <= i < |chain| ==> chain[i] in h' && h'[chain[i]].data == h[chain[i]].data
    ensures Items(h', chain) == Items(h, chain)
  {
  }

  /** What a silent step, a call or a return does to the phase of the thread and to the chain. */
  ghost predicate Silently(s: State, s': State, t: Tid, e: Label)
    requires t in s.pc
  {
    t in s'.pc && s'.chain == s.chain && (e != Silent ==> e.t == t)
    && var p, p' := PhaseOf(s, t), PhaseOf(s', t);
       match e
       case Silent => p' == p
       case CallPut(_, v) => p == Quiet && p' == WantPut(v)
       case CallTake(_) => p == Quiet && p' == WantTake
       case EffectPut(_) => false
       case EffectTake(_) => p == WantTake && p' == DoneTake(None) && s.chain == []
       case RetPut(_) => p == DonePut && p' == Quiet
       case RetTake(_, r) => p == DoneTake(r) && p' == Quiet
       case Abandon(_) => false
  }

  lemma ReclaimSilent(s: State, s': State, t: Tid)
    requires t in s.pc && KeepsResult(s, s', t)
    ensures Silently(s, s', t, Silent)
  {
  }

  lemma PushSilent(s: State, t: Tid, c: Choice)
    requires t in s.pc && !s.crash && !Step(s, t, c).fault && !Event(s, t, c).EffectPut?
    requires AtPush(s.pc[t])
    ensures Silently(s, Step(s, t, c), t, Event(s, t, c))
  {
  }

  lemma PopSilent(s: State, t: Tid, c: Choice)
    requires ChainInv(s) && t in s.pc && !s.crash && !Step(s, t, c).fault
    requires s.pc[t].PopEnter? || s.pc[t].PopLoad? || s.pc[t].PopNext? || s.pc[t].PopCas? || s.pc[t].PopData?
             || s.pc[t].PopRet?
    requires !(s.pc[t].PopCas? && s.pc[t].seen == s.head && !c.spurious)
    ensures Silently(s, Step(s, t, c), t, Event(s, t, c))
  {
  }

  lemma StepSilent(s: State, t: Tid, c: Choice)
    requires Inv(s) && t in s.pc && !Step(s, t, c).fault
    requires !Event(s, t, c).EffectPut? && !(!s.crash && s.pc[t].PopCas? && s.pc[t].seen == s.head && !c.spurious)
    ensures Silently(s, Step(s, t, c), t, Event(s, t, c))
  {
    if s.crash {
    } else if s.pc[t].Reclaim? {
      ReclaimKeeps(s, t, c, NULL, t);
      ReclaimSilent(s, ReclaimStep(s, t, c), t);
    } else if AtPush(s.pc[t]) {
      PushSilent(s, t, c);
    } else {
      PopSilent(s, t, c);
    }
  }

  lemma RestItems(h: map<Addr, Node>, h': map<Addr, Node>, chain: seq<Addr>)
    requires chain != [] && forall i :: 0 <= i < |chain| ==> chain[i] in h && h[chain[i]].data.Some?
    requires forall i :: 0 <= i < |chain| ==> chain[i] in h' && h'[chain[i]].data == h[chain[i]].data
    ensures Items(h', chain[1..]) == Items(h, chain)[1..]
  {
  }

  lemma PopShape(s: State, t: Tid, seen: Addr, id: nat, nx: Addr)
    requires Inv(s) && t in s.pc && s.pc[t] == PopCas(seen, id, nx) && s.head == seen
    ensures var s' := DoPopCas(s, t, seen, id, nx, false);
      && s.chain != [] && seen == s.chain[0] && s'.chain == s.chain[1..] && t in s'.pc && s'.pc[t] == PopData(seen, id)
      && seen in s.heap && s'.heap == s.heap[seen := s.heap[seen].(place := Owned(t))]
  {
    assert ThreadInv(s, t);
  }

  /** A successful compare-exchange of pop removes the top value, and returns the value it removed. */
  lemma PopItems(s: State, t: Tid, seen: Addr, id: nat, nx: Addr, s': State)
    requires Inv(s) && t in s.pc && s.pc[t] == PopCas(seen, id, nx) && s.head == seen
    requires s' == DoPopCas(s, t, seen, id, nx, false) && Inv(s')
    ensures Abs(s).items != [] && Abs(s').items == Abs(s).items[1..]
    ensures t in s'.pc && PhaseOf(s', t) == DoneTake(Some(Abs(s).items[0]))
  {
    PopShape(s, t, seen, id, nx);
    ChainData(s);
    RestItems(s.heap, s'.heap, s.chain);
  }

  lemma PushItems(s: State, t: Tid, n: Addr, id: nat, v: Value)
    requires Inv(s) && t in s.pc && s.pc[t] == PushCas(n, id, v) && Live(s, n, id) && s.head == s.heap[n].next
    requires Inv(DoPushCas(s, t, n, id, v, false))
    ensures Abs(DoPushCas(s, t, n, id, v, false)).items == [v] + Abs(s).items
  {
    assert ThreadInv(s, t);
    ChainData(s);
    ChainData(DoPushCas(s, t, n, id, v, false));
  }

  lemma OtherItems(s: State, t: Tid, c: Choice)
    requires Inv(s) && t in s.pc && Inv(Step(s, t, c)) && Step(s, t, c).chain == s.chain
    ensures Abs(Step(s, t, c)).items == Abs(s).items
  {
    ChainData(s);
    ChainData(Step(s, t, c));
    forall i | 0 <= i < |s.chain| ensures Step(s, t, c).heap[s.chain[i]].data == s.heap[s.chain[i]].data {
      StepGentle(s, t, c, s.chain[i], t);
    }
    ItemsSame(s.heap, Step(s, t, c).heap, s.chain);
  }

  lemma Phases(s: State, s': State, t: Tid)
    requires Inv(s) && Inv(s') && t in s.pc
    requires forall u :: u in s'.pc <==> u in s.pc
    requires forall u :: u in s.pc && u != t ==> PhaseOf(s', u) == PhaseOf(s, u)
    ensures Abs(s').phase == Abs(s).phase[t := PhaseOf(s', t)]
  {
  }

  lemma PushMatches(s: State, t: Tid, c: Choice, s': State)
    requires Inv(s) && t in s.pc && s' == Step(s, t, c) && Inv(s') && t in s'.pc && Event(s, t, c).EffectPut?
    requires Abs(s').phase == Abs(s).phase[t := PhaseOf(s', t)]
    ensures Matches(Lifo, Abs(s), Abs(s'), t, EffectPut(t))
  {
    PushItems(s, t, s.pc[t].n, s.pc[t].id, s.pc[t].v);
  }

  lemma PopMatches(s: State, t: Tid, c: Choice, s': State)
    requires Inv(s) && t in s.pc && s' == Step(s, t, c) && Inv(s') && t in s'.pc
    requires !s.crash && s.pc[t].PopCas? && s.pc[t].seen == s.head && !c.spurious
    requires Abs(s').phase == Abs(s).phase[t := PhaseOf(s', t)]
    ensures Matches(Lifo, Abs(s), Abs(s'), t, EffectTake(t))
  {
    PopItems(s, t, s.pc[t].seen, s.pc[t].id, s.pc[t].nx, s');
  }

  lemma SilentMatches(s: State, s': State, t: Tid, e: Label)
    requires Inv(s) && Inv(s') && t in s.pc && Silently(s, s', t, e) && Abs(s').items == Abs(s).items
    requires Abs(s').phase == Abs(s).phase[t := PhaseOf(s', t)]
    ensures Matches(Lifo, Abs(s), Abs(s'), t, e)
  {
    assert Abs(s).phase[t] == PhaseOf(s, t);
    assert |Abs(s).items| == |s.chain|;
  }

  lemma StepMatches(s: State, t: Tid, c: Choice, s': State)
    requires Inv(s) && t in s.pc && s' == Step(s, t, c) && Inv(s') && t in s'.pc
    requires Abs(s').phase == Abs(s).phase[t := PhaseOf(s', t)]
    ensures Matches(Lifo, Abs(s), Abs(s'), t, Event(s, t, c))
  {
    if Event(s, t, c).EffectPut? {
      PushMatches(s, t, c, s');
    } else if !s.crash && s.pc[t].PopCas? && s.pc[t].seen == s.head && !c.spurious {
      PopMatches(s, t, c, s');
    } else {
      StepSilent(s, t, c);
      OtherItems(s, t, c);
      SilentMatches(s, s', t, Event(s, t, c));
    }
  }

  lemma StepRefines(s: State, t: Tid, c: Choice)
    requires Inv(s) && t in s.pc
    ensures Inv(Step(s, t, c))
    ensures SpecStep(Lifo, Abs(s), Event(s, t, c)) == Some(Abs(Step(s, t, c)))
  {
    StepInv(s, t, c);
    var s' := Step(s, t, c);
    forall u ensures u in s'.pc <==> u in s.pc {
      StepGentle(s, t, c, NULL, u);
    }
    forall u | u in s.pc && u != t ensures PhaseOf(s', u) == PhaseOf(s, u) {
      StepGentle(s, t, c, if s.pc[u].PopData? then s.pc[u].seen else NULL, u);
      OtherPhase(s, s', t, u);
    }
    Phases(s, s', t);
    StepMatches(s, t, c, s');
    MatchesStep(Lifo, Abs(s), Abs(s'), t, Event(s, t, c));
  }

  // ---------------------------------------------------------------- accounting for allocations

  ghost function Ids(heap: map<Addr, Node>): (ids: map<Addr, nat>)
    ensures |ids| == |heap|
  {
    var ids := map a | a in heap :: heap[a].id;
    assert ids.Keys == heap.Keys;
    ids
  }

  /** Every serial number handed out belongs to exactly one live or deleted node. */
  ghost predicate Account(s: State) {
    Accounts(Ids(s.heap), s.freed, s.serial)
  }

  predicate Allocates(p: Pc) {
    p.PushAlloc? || (p.Reclaim? && (p.at.DelFree? || p.at.FreeOld?))
  }

  ghost predicate SameIds(s: State, s': State) {
    && s'.heap.Keys == s.heap.Keys && (forall a :: a in s.heap ==> s'.heap[a].id == s.heap[a].id)
    && s'.freed == s.freed && s'.serial == s.serial
  }

  lemma SoleIds(s: State, t: Tid, c: Choice)
    requires t in s.pc && Alone(s.pc[t]) && !Allocates(s.pc[t])
    ensures SameIds(s, ReclaimStep(s, t, c))
  {
  }

  lemma SharedIds(s: State, t: Tid, c: Choice)
    requires t in s.pc && s.pc[t].Reclaim? && !Alone(s.pc[t])
    ensures SameIds(s, ReclaimStep(s, t, c))
  {
  }

  lemma OtherIds(s: State, t: Tid, c: Choice)
    requires t in s.pc && !Allocates(s.pc[t])
    ensures SameIds(s, Step(s, t, c))
  {
    if s.pc[t].Reclaim? {
      if Alone(s.pc[t]) {
        SoleIds(s, t, c);
      } else {
        SharedIds(s, t, c);
      }
    }
  }

  lemma NewAccount(s: State, t: Tid, v: Value, a: Addr)
    requires Account(s)
    ensures Account(DoAlloc(s, t, v, a))
  {
    if a != NULL && a !in s.heap {
      NewAccounted(Ids(s.heap), s.freed, s.serial, a);
      assert Ids(DoAlloc(s, t, v, a).heap) == Ids(s.heap)[a := s.serial];
    }
  }

  lemma FreeAccount(s: State, s': State, a: Addr)
    requires Account(s) && a in s.heap
    requires s'.heap == s.heap - {a} && s'.freed == s.freed + {s.heap[a].id} && s'.serial == s.serial
    ensures Account(s')
  {
    FreeAccounted(Ids(s.heap), s.freed, s.serial, a);
    assert Ids(s'.heap) == Ids(s.heap) - {a};
  }

  lemma DelFreeAccount(s: State, t: Tid, a: Addr, id: nat, res: Option<Value>,
                       first: Addr, cid: nat, next: Addr, mine: seq<Addr>)
    requires Account(s)
    ensures Account(DoDelFree(s, t, a, id, res, first, cid, next, mine))
  {
    if Live(s, first, cid) {
      FreeAccount(s, DoDelFree(s, t, a, id, res, first, cid, next, mine), first);
    }
  }

  lemma FreeOldAccount(s: State, t: Tid, a: Addr, id: nat, res: Option<Value>)
    requires Account(s)
    ensures Account(DoFreeOld(s, t, a, id, res))
  {
    if Live(s, a, id) && a != NULL {
      FreeAccount(s, DoFreeOld(s, t, a, id, res), a);
    }
  }

  lemma FreesAccount(s: State, t: Tid, c: Choice)
    requires Account(s) && t in s.pc && s.pc[t].Reclaim? && Allocates(s.pc[t])
    ensures Account(ReclaimStep(s, t, c))
  {
    var p := s.pc[t];
    match p.at
    case DelFree(first, cid, next, mine) => DelFreeAccount(s, t, p.old_head, p.oid, p.res, first, cid, next, mine);
    case FreeOld => FreeOldAccount(s, t, p.old_head, p.oid, p.res);
  }

  lemma SameAccount(s: State, s': State)
    requires Account(s) && SameIds(s, s')
    ensures Account(s')
  {
    assert Ids(s'.heap) == Ids(s.heap);
  }

  lemma NotFreed(s: State, a: Addr)
    requires Account(s) && a in s.heap
    ensures s.heap[a].id !in s.freed
  {
    assert Ids(s.heap)[a] == s.heap[a].id;
  }

  lemma StepAccount(s: State, t: Tid, c: Choice)
    requires Account(s) && t in s.pc
    ensures Account(Step(s, t, c))
  {
    if s.crash {
    } else if !Allocates(s.pc[t]) {
      OtherIds(s, t, c);
      SameAccount(s, Step(s, t, c));
    } else if s.pc[t].PushAlloc? {
      NewAccount(s, t, s.pc[t].v, c.spare);
    } else {
      FreesAccount(s, t, c);
    }
  }
}
