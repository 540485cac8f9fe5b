/** What the steps of the hazard-pointer stack do to the abstract stack and to the allocations. */
module HpStackRefinement {
  import opened Wrappers
  import opened LinearSpec
  import opened HpStack
  import opened HpStackInvariant

  // ---------------------------------------------------------------- refinement

  ghost function Items(heap: map<Addr, Node>, chain: seq<Addr>): seq<Value>
    requires forall i :: 0 <= i < |chain| ==> chain[i] in heap && heap[chain[i]].data.Some?
  {
    seq(|chain|, i requires 0 <= i < |chain| => heap[chain[i]].data.value)
  }

  ghost function PhaseOf(s: State, t: Tid): Phase
    requires t in s.pc
  {
    var p := s.pc[t];
    match Part(p)
    case InPush => if p.PushRet? then DonePut else WantPut(p.v)
    case InPop =>
      if p.PopRet? then DoneTake(p.res)
      else if p.PopClear? || p.PopData? then DoneTake(if p.seen in s.heap then s.heap[p.seen].data else None)
      else WantTake
    case InReclaim => DoneTake(p.res)
    case InSweep => DoneTake(p.res)
    case InSlot => if p.Claim? || p.Thrown? then WantTake else Quiet
  }

  lemma ChainData(s: State)
    requires Inv(s)
    ensures forall i :: 0 <= i < |s.chain| ==> s.chain[i] in s.heap && s.heap[s.chain[i]].data.Some?
  {
    forall i | 0 <= i < |s.chain| ensures s.heap[s.chain[i]].data.Some? {
      assert NodeInv(s, s.chain[i]);
    }
  }

  ghost function Abs(s: State): Spec
    requires Inv(s)
  {
    ChainData(s);
    Spec(Items(s.heap, s.chain), map t | t in s.pc :: PhaseOf(s, t))
  }

  /** A step of `t` does not move another thread `u`, and does not change the value in a node that is
      linked or owned by another thread. */
  ghost predicate Gentle(s: State, s': State, t: Tid, b: Addr, u: Tid) {
    && t in s'.pc && (u in s'.pc <==> u in s.pc) && (u in s.pc && u != t ==> s'.pc[u] == s.pc[u])
    && (b in s.heap && (s.heap[b].place == Linked || (s.heap[b].place.Popped? && s.heap[b].place.t != t)) ==>
          b in s'.heap && s'.heap[b].data == s.heap[b].data)
  }

  lemma LinkGentle(s: State, t: Tid, n: Addr, id: nat, v: Value, spurious: bool, b: Addr, u: Tid)
    requires t in s.pc
    ensures Gentle(s, DoPushCas(s, t, n, id, v, spurious), t, b, u) && Gentle(s, DoPushLoad(s, t, n, id, v), t, b, u)
  {
  }

  lemma PushGentle(s: State, t: Tid, c: Choice, b: Addr, u: Tid)
    requires t in s.pc && Part(s.pc[t]) == InPush
    ensures Gentle(s, PushStep(s, t, c), t, b, u)
  {
    match s.pc[t]
    case PushAlloc(_) =>
    case PushLoad(n, id, v) => LinkGentle(s, t, n, id, v, false, b, u);
    case PushCas(n, id, v) => LinkGentle(s, t, n, id, v, c.spurious, b, u);
    case PushRet =>
  }

  lemma UnlinkGentle(s: State, t: Tid, seen: Addr, id: nat, nx: Addr, b: Addr, u: Tid)
    requires t in s.pc
    ensures Gentle(s, DoPopCas(s, t, seen, id, nx), t, b, u)
  {
  }

  lemma PopDataGentle(s: State, t: Tid, seen: Addr, id: nat, b: Addr, u: Tid)
    requires Inv(s) && t in s.pc && s.pc[t] == PopData(seen, id)
    ensures Gentle(s, DoPopData(s, t, seen, id), t, b, u)
  {
    assert ThreadInv(s, t);
  }

  lemma StoreGentle(s: State, t: Tid, p: Addr, then_: Pc, b: Addr, u: Tid)
    requires t in s.pc
    ensures Gentle(s, Publish(s, t, p, then_), t, b, u)
  {
  }

  lemma PopGentle(s: State, t: Tid, b: Addr, u: Tid)
    requires Inv(s) && t in s.pc && Part(s.pc[t]) == InPop
    ensures Gentle(s, PopStep(s, t), t, b, u)
  {
    match s.pc[t]
    case PopPublish(seen) => StoreGentle(s, t, seen, PopCheck(seen), b, u);
    case PopCas(seen, id, nx) => UnlinkGentle(s, t, seen, id, nx, b, u);
    case PopClear(seen, id) => StoreGentle(s, t, NULL, if seen == NULL then PopRet(None) else PopData(seen, id), b, u);
    case PopData(seen, id) => PopDataGentle(s, t, seen, id, b, u);
    case _ =>
  }

  lemma ReclaimGentle(s: State, t: Tid, c: Choice, b: Addr, u: Tid)
    requires Inv(s) && t in s.pc && Part(s.pc[t]) == InReclaim
    ensures Gentle(s, ReclaimStep(s, t, c), t, b, u)
  {
    assert ThreadInv(s, t);
  }

  lemma AddGentle(s: State, t: Tid, r: Addr, rid: nat, next: Addr, mine: seq<Addr>, sweep: bool, res: Option<Value>,
                  b: Addr, u: Tid)
    requires t in s.pc
    ensures Gentle(s, DoAddLoad(s, t, r, rid, next, mine, sweep, res), t, b, u)
    ensures Gentle(s, DoAddCas(s, t, r, rid, next, mine, sweep, res), t, b, u)
  {
  }

  lemma SweepFreeGentle(s: State, t: Tid, r: Addr, rid: nat, p: Addr, next: Addr, mine: seq<Addr>, res: Option<Value>,
                        b: Addr, u: Tid)
    requires Inv(s) && t in s.pc && s.pc[t] == SweepFree(r, rid, p, next, mine, res)
    ensures Gentle(s, DoSweepFree(s, t, r, rid, p, next, mine, res), t, b, u)
  {
    assert ThreadInv(s, t);
    assert RecInv(s, r);
  }

  lemma SweepGentle(s: State, t: Tid, b: Addr, u: Tid)
    requires Inv(s) && t in s.pc && Part(s.pc[t]) == InSweep
    ensures Gentle(s, SweepStep(s, t), t, b, u)
  {
    var p := s.pc[t];
    if p.AddLoad? || p.AddCas? {
      AddGentle(s, t, p.r, p.rid, p.next, p.mine, p.sweep, p.res, b, u);
    } else if p.SweepFree? {
      SweepFreeGentle(s, t, p.r, p.rid, p.p, p.next, p.mine, p.res, b, u);
    } else {
      ReadGentle(s, t, b, u);
    }
  }

  lemma ReadGentle(s: State, t: Tid, b: Addr, u: Tid)
    requires t in s.pc && (s.pc[t].SweepNext? || s.pc[t].SweepScan?)
    ensures Gentle(s, SweepStep(s, t), t, b, u)
  {
  }

  lemma ClaimGentle(s: State, t: Tid, i: nat, b: Addr, u: Tid)
    requires t in s.pc
    ensures Gentle(s, DoClaim(s, t, i), t, b, u)
  {
  }

  lemma SlotGentle(s: State, t: Tid, c: Choice, b: Addr, u: Tid)
    requires t in s.pc && Part(s.pc[t]) == InSlot
    ensures Gentle(s, SlotStep(s, t, c), t, b, u)
  {
    match s.pc[t]
    case Idle =>
    case Claim(i) => ClaimGentle(s, t, i, b, u);
    case Thrown =>
    case ExitClear =>
    case ExitRelease =>
  }

  lemma StepGentle(s: State, t: Tid, c: Choice, b: Addr, u: Tid)
    requires Inv(s) && t in s.pc
    ensures Gentle(s, Step(s, t, c), t, b, u)
  {
    match Part(s.pc[t])
    case InPush => PushGentle(s, t, c, b, u);
    case InPop => PopGentle(s, t, b, u);
    case InReclaim => ReclaimGentle(s, t, c, b, u);
    case InSweep => SweepGentle(s, t, b, u);
    case InSlot => SlotGentle(s, t, c, b, u);
  }

  lemma OtherPhase(s: State, s': State, t: Tid, u: Tid)
    requires Inv(s) && u in s.pc && u != t
    requires Gentle(s, s', t, if RoleOf(s.pc[u]).Owner? then RoleOf(s.pc[u]).a else NULL, u)
    requires NULL !in s'.heap
    ensures u in s'.pc && PhaseOf(s', u) == PhaseOf(s, u)
  {
    assert ThreadInv(s, u);
  }

  lemma ItemsSame(h: map<Addr, Node>, h': map<Addr, Node>, chain: seq<Addr>)
    requires forall i :: 0 <= i < |chain| ==> chain[i] in h && h[chain[i]].data.Some?
    requires forall i :: 0 <= i < |chain| ==> chain[i] in h' && h'[chain[i]].data == h[chain[i]].data
    ensures Items(h', chain) == Items(h, chain)
  {
  }

  lemma RestItems(h: map<Addr, Node>, h': map<Addr, Node>, chain: seq<Addr>)
    requires chain != [] && forall i :: 0 <= i < |chain| ==> chain[i] in h && h[chain[i]].data.Some?
    requires forall i :: 0 <= i < |chain| ==> chain[i] in h' && h'[chain[i]].data == h[chain[i]].data
    ensures Items(h', chain[1..]) == Items(h, chain)[1..]
  {
  }

  lemma PopShape(s: State, t: Tid, seen: Addr, id: nat, nx: Addr)
    requires Inv(s) && t in s.pc && s.pc[t] == PopCas(seen, id, nx) && s.head == seen
    ensures var s' := DoPopCas(s, t, seen, id, nx);
      && s.chain != [] && seen == s.chain[0] && s'.chain == s.chain[1..] && t in s'.pc && s'.pc[t] == PopClear(seen, id)
      && seen in s.heap && s'.heap == s.heap[seen := s.heap[seen].(place := Popped(t))]
  {
    assert ThreadInv(s, t);
  }

  /** A successful compare-exchange of pop removes the top value, and returns the value it removed. */
  lemma PopItems(s: State, t: Tid, seen: Addr, id: nat, nx: Addr, s': State)
    requires Inv(s) && t in s.pc && s.pc[t] == PopCas(seen, id, nx) && s.head == seen
    requires s' == DoPopCas(s, t, seen, id, nx) && Inv(s')
    ensures Abs(s).items != [] && Abs(s').items == Abs(s).items[1..]
    ensures t in s'.pc && PhaseOf(s', t) == DoneTake(Some(Abs(s).items[0]))
  {
    PopShape(s, t, seen, id, nx);
    ChainData(s);
    RestItems(s.heap, s'.heap, s.chain);
  }

  lemma PushItems(s: State, t: Tid, n: Addr, id: nat, v: Value)
    requires Inv(s) && t in s.pc && s.pc[t] == PushCas(n, id, v) && Live(s, n, id) && s.head == s.heap[n].next
    requires Inv(DoPushCas(s, t, n, id, v, false))
    ensures Abs(DoPushCas(s, t, n, id, v, false)).items == [v] + Abs(s).items
  {
    assert ThreadInv(s, t);
    ChainData(s);
    ChainData(DoPushCas(s, t, n, id, v, false));
  }

  lemma OtherItems(s: State, t: Tid, c: Choice)
    requires Inv(s) && t in s.pc && Inv(Step(s, t, c)) && Step(s, t, c).chain == s.chain
    ensures Abs(Step(s, t, c)).items == Abs(s).items
  {
    ChainData(s);
    ChainData(Step(s, t, c));
    forall i | 0 <= i < |s.chain| ensures Step(s, t, c).heap[s.chain[i]].data == s.heap[s.chain[i]].data {
      StepGentle(s, t, c, s.chain[i], t);
    }
    ItemsSame(s.heap, Step(s, t, c).heap, s.chain);
  }

  lemma Phases(s: State, s': State, t: Tid)
    requires Inv(s) && Inv(s') && t in s.pc
    requires forall u :: u in s'.pc <==> u in s.pc
    requires forall u :: u in s.pc && u != t ==> PhaseOf(s', u) == PhaseOf(s, u)
    ensures Abs(s').phase == Abs(s).phase[t := PhaseOf(s', t)]
  {
  }

  /** What a silent step, a call or a return does to the phase of the thread and to the chain. */
  ghost predicate Silently(s: State, s': State, t: Tid, e: Label)
    requires t in s.pc
  {
    t in s'.pc && s'.chain == s.chain && (e != Silent ==> e.t == t)
    && var p, p' := PhaseOf(s, t), PhaseOf(s', t);
       match e
       case Silent => p' == p
       case CallPut(_, v) => p == Quiet && p' == WantPut(v)
       case CallTake(_) => p == Quiet && p' == WantTake
       case EffectPut(_) => false
       case EffectTake(_) => p == WantTake && p' == DoneTake(None) && s.chain == []
       case RetPut(_) => p == DonePut && p' == Quiet
       case RetTake(_, r) => p == DoneTake(r) && p' == Quiet
       case Abandon(_) => p == WantTake && p' == Quiet
  }

  lemma AllocSilent(s: State, t: Tid, v: Value, a: Addr)
    requires t in s.pc && s.pc[t] == PushAlloc(v)
    ensures Silently(s, DoAlloc(s, t, v, a), t, Silent)
  {
  }

  lemma LoadSilent(s: State, t: Tid, n: Addr, id: nat, v: Value)
    requires t in s.pc && (s.pc[t] == PushLoad(n, id, v) || s.pc[t] == PushCas(n, id, v)) && Live(s, n, id)
    ensures Silently(s, DoPushLoad(s, t, n, id, v), t, Silent)
  {
  }

  lemma PushRetSilent(s: State, t: Tid)
    requires t in s.pc && s.pc[t] == PushRet
    ensures Silently(s, Goto(s, t, Idle), t, RetPut(t))
  {
  }

  lemma PushSilent(s: State, t: Tid, c: Choice)
    requires t in s.pc && Part(s.pc[t]) == InPush && !PushStep(s, t, c).fault && !Event(s, t, c).EffectPut?
    ensures Silently(s, PushStep(s, t, c), t, Event(s, t, c))
  {
    match s.pc[t]
    case PushAlloc(v) => AllocSilent(s, t, v, c.spare);
    case PushLoad(n, id, v) => LoadSilent(s, t, n, id, v);
    case PushCas(n, id, v) => LoadSilent(s, t, n, id, v);
    case PushRet => PushRetSilent(s, t);
  }

  lemma MissSilent(s: State, t: Tid, p: Pc)
    requires t in s.pc && Part(s.pc[t]) == InPop && Part(p) == InPop && PhaseOf(s, t) == WantTake
    requires !p.PopRet? && !p.PopClear? && !p.PopData?
    ensures Silently(s, Goto(s, t, p), t, Silent)
  {
  }

  lemma PopClearSilent(s: State, t: Tid, seen: Addr, id: nat)
    requires NULL !in s.heap && t in s.pc && s.pc[t] == PopClear(seen, id) && !PopStep(s, t).fault
    ensures Silently(s, PopStep(s, t), t, Silent)
  {
  }

  lemma PopDataSilent(s: State, t: Tid, seen: Addr, id: nat)
    requires t in s.pc && s.pc[t] == PopData(seen, id) && !PopStep(s, t).fault
    ensures Silently(s, PopStep(s, t), t, Silent)
  {
  }

  lemma PopRetSilent(s: State, t: Tid, c: Choice, res: Option<Value>)
    requires t in s.pc && s.pc[t] == PopRet(res)
    ensures Silently(s, Goto(s, t, Idle), t, Event(s, t, c))
  {
  }

  lemma PopEmptySilent(s: State, t: Tid)
    requires ChainInv(s) && t in s.pc && s.pc[t] == PopCheck(NULL) && s.head == NULL
    ensures Silently(s, Goto(s, t, PopClear(NULL, 0)), t, EffectTake(t))
  {
  }

  lemma PopCheckSilent(s: State, t: Tid, c: Choice, seen: Addr)
    requires ChainInv(s) && t in s.pc && s.pc[t] == PopCheck(seen) && !DoPopCheck(s, t, seen).fault
    ensures Silently(s, DoPopCheck(s, t, seen), t, Event(s, t, c))
  {
    if s.head != seen {
      MissSilent(s, t, PopPublish(s.head));
    } else if seen != NULL {
      MissSilent(s, t, PopNext(seen, s.heap[seen].id));
    } else {
      PopEmptySilent(s, t);
    }
  }

  lemma PopPublishSilent(s: State, t: Tid, seen: Addr)
    requires t in s.pc && s.pc[t] == PopPublish(seen) && !Publish(s, t, seen, PopCheck(seen)).fault
    ensures Silently(s, Publish(s, t, seen, PopCheck(seen)), t, Silent)
  {
  }

  lemma ReadSilent(s: State, t: Tid, c: Choice)
    requires t in s.pc && (s.pc[t].PopLoad? || s.pc[t].PopNext? || s.pc[t].PopCas?) && !PopStep(s, t).fault
    requires !(s.pc[t].PopCas? && s.pc[t].seen == s.head)
    ensures Silently(s, PopStep(s, t), t, Event(s, t, c))
  {
    match s.pc[t]
    case PopLoad => MissSilent(s, t, PopPublish(s.head));
    case PopNext(seen, id) => MissSilent(s, t, PopCas(seen, id, s.heap[seen].next));
    case PopCas(_, _, _) => MissSilent(s, t, PopPublish(s.head));
  }

  lemma PopSilent(s: State, t: Tid, c: Choice)
    requires ChainInv(s) && t in s.pc && Part(s.pc[t]) == InPop && !PopStep(s, t).fault
    requires !(s.pc[t].PopCas? && s.pc[t].seen == s.head)
    ensures Silently(s, PopStep(s, t), t, Event(s, t, c))
  {
    match s.pc[t]
    case PopPublish(seen) => PopPublishSilent(s, t, seen);
    case PopCheck(seen) => PopCheckSilent(s, t, c, seen);
    case PopClear(seen, id) => PopClearSilent(s, t, seen, id);
    case PopData(seen, id) => PopDataSilent(s, t, seen, id);
    case PopRet(res) => PopRetSilent(s, t, c, res);
    case _ => ReadSilent(s, t, c);
  }

  /** Reclaiming is invisible: it changes neither the stack nor the result that pop will return. */
  ghost predicate KeepsResult(s: State, s': State, t: Tid)
    requires t in s.pc
  {
    var p := s.pc[t];
    (Part(p) == InReclaim || Part(p) == InSweep) && t in s'.pc && s'.chain == s.chain
    && var p' := s'.pc[t]; (p'.PopRet? || Part(p') == InReclaim || Part(p') == InSweep) && p'.res == p.res
  }

  lemma RetireMoves(s: State, t: Tid, c: Choice, seen: Addr, id: nat, res: Option<Value>)
    requires t in s.pc && s.pc[t] == Retire(seen, id, res) && !DoRetire(s, t, seen, id, res, c.spare).fault
    ensures KeepsResult(s, DoRetire(s, t, seen, id, res, c.spare), t)
  {
  }

  lemma TakeMoves(s: State, t: Tid, res: Option<Value>)
    requires t in s.pc && s.pc[t] == Take(res)
    ensures KeepsResult(s, DoTake(s, t, res), t)
  {
  }

  lemma ReclaimMoves(s: State, t: Tid, c: Choice)
    requires t in s.pc && Part(s.pc[t]) == InReclaim && !ReclaimStep(s, t, c).fault
    ensures KeepsResult(s, ReclaimStep(s, t, c), t)
  {
    match s.pc[t]
    case PopScan(_, _, _, _) =>
    case PopFree(_, _, _) =>
    case Retire(seen, id, res) => RetireMoves(s, t, c, seen, id, res);
    case Take(res) => TakeMoves(s, t, res);
  }

  lemma AddLoadMoves(s: State, t: Tid, r: Addr, rid: nat, next: Addr, mine: seq<Addr>, sweep: bool, res: Option<Value>)
    requires t in s.pc && Part(s.pc[t]) == InSweep && s.pc[t].res == res && LiveRec(s, r, rid)
    ensures KeepsResult(s, DoAddLoad(s, t, r, rid, next, mine, sweep, res), t)
  {
  }

  lemma AddMoves(s: State, t: Tid, r: Addr, rid: nat, next: Addr, mine: seq<Addr>, sweep: bool, res: Option<Value>)
    requires t in s.pc && s.pc[t] == AddCas(r, rid, next, mine, sweep, res) && LiveRec(s, r, rid)
    ensures KeepsResult(s, DoAddCas(s, t, r, rid, next, mine, sweep, res), t)
  {
    AddLoadMoves(s, t, r, rid, next, mine, sweep, res);
  }

  lemma SweepScanMoves(s: State, t: Tid, p: Pc)
    requires t in s.pc && Part(s.pc[t]) == InSweep && Part(p) == InSweep && p.res == s.pc[t].res
    ensures KeepsResult(s, Goto(s, t, p), t)
  {
  }

  lemma SweepNextMoves(s: State, t: Tid, next: Addr, mine: seq<Addr>, res: Option<Value>)
    requires t in s.pc && s.pc[t] == SweepNext(next, mine, res) && !DoSweepNext(s, t, next, mine, res).fault
    ensures KeepsResult(s, DoSweepNext(s, t, next, mine, res), t)
  {
  }

  lemma SweepFreeMoves(s: State, t: Tid, r: Addr, rid: nat, p: Addr, next: Addr, mine: seq<Addr>, res: Option<Value>)
    requires t in s.pc && s.pc[t] == SweepFree(r, rid, p, next, mine, res)
             && !DoSweepFree(s, t, r, rid, p, next, mine, res).fault
    ensures KeepsResult(s, DoSweepFree(s, t, r, rid, p, next, mine, res), t)
  {
  }

  lemma AddStepMoves(s: State, t: Tid)
    requires t in s.pc && (s.pc[t].AddLoad? || s.pc[t].AddCas?) && !SweepStep(s, t).fault
    ensures KeepsResult(s, SweepStep(s, t), t)
  {
    var p := s.pc[t];
    if p.AddLoad? {
      AddLoadMoves(s, t, p.r, p.rid, p.next, p.mine, p.sweep, p.res);
    } else {
      AddMoves(s, t, p.r, p.rid, p.next, p.mine, p.sweep, p.res);
    }
  }

  lemma SweepMoves(s: State, t: Tid)
    requires t in s.pc && Part(s.pc[t]) == InSweep && !SweepStep(s, t).fault
    ensures KeepsResult(s, SweepStep(s, t), t)
  {
    match s.pc[t]
    case AddLoad(_, _, _, _, _, _) => AddStepMoves(s, t);
    case AddCas(_, _, _, _, _, _) => AddStepMoves(s, t);
    case SweepNext(next, mine, res) => SweepNextMoves(s, t, next, mine, res);
    case SweepScan(_, _, _, _, _, _, _) => SweepScanMoves(s, t, SweepStep(s, t).pc[t]);
    case SweepFree(r, rid, p, next, mine, res) => SweepFreeMoves(s, t, r, rid, p, next, mine, res);
  }

  lemma ResultSilent(s: State, s': State, t: Tid)
    requires t in s.pc && KeepsResult(s, s', t)
    ensures Silently(s, s', t, Silent)
  {
  }

  lemma ClaimSilent(s: State, t: Tid, i: nat)
    requires t in s.pc && s.pc[t] == Claim(i)
    ensures Silently(s, DoClaim(s, t, i), t, Silent)
  {
  }

  lemma ExitSilent(s: State, t: Tid)
    requires t in s.pc && s.pc[t] == ExitClear && !Publish(s, t, NULL, ExitRelease).fault
    ensures Silently(s, Publish(s, t, NULL, ExitRelease), t, Silent)
  {
  }

  lemma ReleaseSilent(s: State, t: Tid)
    requires t in s.pc && s.pc[t] == ExitRelease && !DoRelease(s, t).fault
    ensures Silently(s, DoRelease(s, t), t, Silent)
  {
  }

  lemma IdleSilent(s: State, t: Tid, c: Choice)
    requires t in s.pc && s.pc[t] == Idle
    ensures Silently(s, SlotStep(s, t, c), t, Event(s, t, c))
  {
  }

  lemma SlotSilent(s: State, t: Tid, c: Choice)
    requires t in s.pc && Part(s.pc[t]) == InSlot && !SlotStep(s, t, c).fault
    ensures Silently(s, SlotStep(s, t, c), t, Event(s, t, c))
  {
    match s.pc[t]
    case Idle => IdleSilent(s, t, c);
    case Claim(i) => ClaimSilent(s, t, i);
    case Thrown =>
    case ExitClear => ExitSilent(s, t);
    case ExitRelease => ReleaseSilent(s, t);
  }

  lemma StepSilent(s: State, t: Tid, c: Choice)
    requires ChainInv(s) && t in s.pc && !Step(s, t, c).fault
    requires !Event(s, t, c).EffectPut? && !(s.pc[t].PopCas? && s.pc[t].seen == s.head)
    ensures Silently(s, Step(s, t, c), t, Event(s, t, c))
  {
    match Part(s.pc[t])
    case InPush => PushSilent(s, t, c);
    case InPop => PopSilent(s, t, c);
    case InReclaim =>
      ReclaimMoves(s, t, c);
      ResultSilent(s, ReclaimStep(s, t, c), t);
    case InSweep =>
      SweepMoves(s, t);
      ResultSilent(s, SweepStep(s, t), t);
    case InSlot => SlotSilent(s, t, c);
  }

  lemma PushMatches(s: State, t: Tid, c: Choice, s': State)
    requires Inv(s) && t in s.pc && s' == Step(s, t, c) && Inv(s') && t in s'.pc && Event(s, t, c).EffectPut?
    requires Abs(s').phase == Abs(s).phase[t := PhaseOf(s', t)]
    ensures Matches(Lifo, Abs(s), Abs(s'), t, EffectPut(t))
  {
    PushItems(s, t, s.pc[t].n, s.pc[t].id, s.pc[t].v);
  }

  lemma PopMatches(s: State, t: Tid, s': State)
    requires Inv(s) && t in s.pc && s.pc[t].PopCas? && s.pc[t].seen == s.head
    requires s' == DoPopCas(s, t, s.pc[t].seen, s.pc[t].id, s.pc[t].nx) && Inv(s') && t in s'.pc
    requires Abs(s').phase == Abs(s).phase[t := PhaseOf(s', t)]
    ensures Matches(Lifo, Abs(s), Abs(s'), t, EffectTake(t))
  {
    PopItems(s, t, s.pc[t].seen, s.pc[t].id, s.pc[t].nx, s');
    assert Abs(s).phase[t] == PhaseOf(s, t) == WantTake;
  }

  /** Any other step: the phase moves as the event says, the items stay. */
  lemma SilentMatches(s: State, s': State, t: Tid, e: Label)
    requires Inv(s) && Inv(s') && t in s.pc && Silently(s, s', t, e) && Abs(s').items == Abs(s).items
    requires Abs(s').phase == Abs(s).phase[t := PhaseOf(s', t)]
    ensures Matches(Lifo, Abs(s), Abs(s'), t, e)
  {
    assert Abs(s).phase[t] == PhaseOf(s, t);
    assert |Abs(s).items| == |s.chain|;
  }

  lemma StepMatches(s: State, t: Tid, c: Choice, s': State)
    requires Inv(s) && t in s.pc && s' == Step(s, t, c) && Inv(s') && t in s'.pc
    requires Abs(s').phase == Abs(s).phase[t := PhaseOf(s', t)]
    ensures Matches(Lifo, Abs(s), Abs(s'), t, Event(s, t, c))
  {
    var p, e := s.pc[t], Event(s, t, c);
    if e.EffectPut? {
      PushMatches(s, t, c, s');
    } else if p.PopCas? && p.seen == s.head {
      PopIsTake(s, t, c);
      PopMatches(s, t, s');
    } else {
      SilentStep(s, t, c, s');
    }
  }

  lemma PopIsTake(s: State, t: Tid, c: Choice)
    requires t in s.pc && s.pc[t].PopCas? && s.pc[t].seen == s.head
    ensures Step(s, t, c) == DoPopCas(s, t, s.pc[t].seen, s.pc[t].id, s.pc[t].nx) && Event(s, t, c) == EffectTake(t)
  {
  }

  lemma SilentStep(s: State, t: Tid, c: Choice, s': State)
    requires Inv(s) && t in s.pc && s' == Step(s, t, c) && Inv(s') && t in s'.pc
    requires Abs(s').phase == Abs(s).phase[t := PhaseOf(s', t)]
    requires !Event(s, t, c).EffectPut? && !(s.pc[t].PopCas? && s.pc[t].seen == s.head)
    ensures Matches(Lifo, Abs(s), Abs(s'), t, Event(s, t, c))
  {
    StepSilent(s, t, c);
    OtherItems(s, t, c);
    SilentMatches(s, s', t, Event(s, t, c));
  }

  lemma StepRefines(s: State, t: Tid, c: Choice)
    requires Inv(s) && t in s.pc
    ensures Inv(Step(s, t, c))
    ensures SpecStep(Lifo, Abs(s), Event(s, t, c)) == Some(Abs(Step(s, t, c)))
  {
    StepInv(s, t, c);
    var s' := Step(s, t, c);
    forall u ensures u in s'.pc <==> u in s.pc {
      StepGentle(s, t, c, NULL, u);
    }
    forall u | u in s.pc && u != t ensures PhaseOf(s', u) == PhaseOf(s, u) {
      StepGentle(s, t, c, if RoleOf(s.pc[u]).Owner? then RoleOf(s.pc[u]).a else NULL, u);
      OtherPhase(s, s', t, u);
    }
    Phases(s, s', t);
    StepMatches(s, t, c, s');
    MatchesStep(Lifo, Abs(s), Abs(s'), t, Event(s, t, c));
  }

  // ---------------------------------------------------------------- accounting for allocations

  /** Every serial number handed out belongs to exactly one live node, one live record or one deleted object. */
  ghost predicate Accounts(heap: map<Addr, Node>, recs: map<Addr, Rec>, freed: set<nat>, serial: nat) {
    && (forall a :: a in heap ==> heap[a].id < serial && heap[a].id !in freed)
    && (forall r :: r in recs ==> recs[r].id < serial && recs[r].id !in freed)
    && (forall a, b :: a in heap && b in heap && a != b ==> heap[a].id != heap[b].id)
    && (forall q, r :: q in recs && r in recs && q != r ==> recs[q].id != recs[r].id)
    && (forall a, r :: a in heap && r in recs ==> heap[a].id != recs[r].id)
    && (forall x :: x in freed ==> x < serial)
    && |freed| + |heap| + |recs| == serial
  }

  ghost predicate Account(s: State) {
    Accounts(s.heap, s.recs, s.freed, s.serial)
  }

  lemma NodeAccount(heap: map<Addr, Node>, recs: map<Addr, Rec>, freed: set<nat>, serial: nat, a: Addr, n: Node)
    requires Accounts(heap, recs, freed, serial) && a !in heap && n.id == serial
    ensures Accounts(heap[a := n], recs, freed, serial + 1)
  {
    assert heap[a := n].Keys == heap.Keys + {a};
  }

  lemma RecAccount(heap: map<Addr, Node>, recs: map<Addr, Rec>, freed: set<nat>, serial: nat, r: Addr, x: Rec)
    requires Accounts(heap, recs, freed, serial) && r !in recs && x.id == serial
    ensures Accounts(heap, recs[r := x], freed, serial + 1)
  {
    assert recs[r := x].Keys == recs.Keys + {r};
  }

  lemma FreeNodeAccount(heap: map<Addr, Node>, recs: map<Addr, Rec>, freed: set<nat>, serial: nat, a: Addr)
    requires Accounts(heap, recs, freed, serial) && a in heap
    ensures Accounts(heap - {a}, recs, freed + {heap[a].id}, serial)
  {
    assert (heap - {a}).Keys == heap.Keys - {a};
  }

  lemma FreeRecAccount(heap: map<Addr, Node>, recs: map<Addr, Rec>, freed: set<nat>, serial: nat, r: Addr)
    requires Accounts(heap, recs, freed, serial) && r in recs
    ensures Accounts(heap, recs - {r}, freed + {recs[r].id}, serial)
  {
    assert (recs - {r}).Keys == recs.Keys - {r};
  }

  lemma SameAccount(heap: map<Addr, Node>, heap': map<Addr, Node>, recs: map<Addr, Rec>, recs': map<Addr, Rec>,
                    freed: set<nat>, serial: nat)
    requires Accounts(heap, recs, freed, serial) && heap'.Keys == heap.Keys && recs'.Keys == recs.Keys
    requires (forall a :: a in heap ==> heap'[a].id == heap[a].id)
             && (forall r :: r in recs ==> recs'[r].id == recs[r].id)
    ensures Accounts(heap', recs', freed, serial)
  {
    assert |heap'| == |heap'.Keys| && |recs'| == |recs'.Keys|;
  }

  ghost predicate SameIds(s: State, s': State) {
    && s'.heap.Keys == s.heap.Keys && (forall a :: a in s.heap ==> s'.heap[a].id == s.heap[a].id)
    && s'.recs.Keys == s.recs.Keys && (forall r :: r in s.recs ==> s'.recs[r].id == s.recs[r].id)
    && s'.freed == s.freed && s'.serial == s.serial
  }

  lemma PushIds(s: State, t: Tid, c: Choice)
    requires t in s.pc && Part(s.pc[t]) == InPush && !s.pc[t].PushAlloc?
    ensures SameIds(s, PushStep(s, t, c))
  {
    match s.pc[t]
    case PushLoad(n, id, v) => LinkIds(s, t, n, id, v, false);
    case PushCas(n, id, v) => LinkIds(s, t, n, id, v, c.spurious);
    case PushRet =>
  }

  lemma LinkIds(s: State, t: Tid, n: Addr, id: nat, v: Value, spurious: bool)
    ensures SameIds(s, DoPushLoad(s, t, n, id, v)) && SameIds(s, DoPushCas(s, t, n, id, v, spurious))
  {
  }

  lemma PopIds(s: State, t: Tid)
    requires t in s.pc && Part(s.pc[t]) == InPop
    ensures SameIds(s, PopStep(s, t))
  {
    match s.pc[t]
    case PopCas(seen, id, nx) => PopCasIds(s, t, seen, id, nx);
    case PopData(seen, id) => PopDataIds(s, t, seen, id);
    case _ =>
  }

  lemma PopCasIds(s: State, t: Tid, seen: Addr, id: nat, nx: Addr)
    ensures SameIds(s, DoPopCas(s, t, seen, id, nx))
  {
  }

  lemma PopDataIds(s: State, t: Tid, seen: Addr, id: nat)
    ensures SameIds(s, DoPopData(s, t, seen, id))
  {
  }

  lemma ReclaimIds(s: State, t: Tid, c: Choice)
    requires t in s.pc && (s.pc[t].PopScan? || s.pc[t].Take?)
    ensures SameIds(s, ReclaimStep(s, t, c))
  {
  }

  lemma AddIds(s: State, t: Tid, r: Addr, rid: nat, next: Addr, mine: seq<Addr>, sweep: bool, res: Option<Value>)
    requires LiveRec(s, r, rid) && s.rhead == s.recs[r].next
    ensures SameIds(s, DoAddCas(s, t, r, rid, next, mine, sweep, res))
  {
  }

  lemma SweepIds(s: State, t: Tid)
    requires t in s.pc && Part(s.pc[t]) == InSweep && !s.pc[t].SweepFree?
    ensures SameIds(s, SweepStep(s, t))
  {
    match s.pc[t]
    case AddLoad(_, _, _, _, _, _) =>
    case AddCas(r, rid, next, mine, sweep, res) =>
      if LiveRec(s, r, rid) && s.rhead == s.recs[r].next {
        AddIds(s, t, r, rid, next, mine, sweep, res);
      }
    case SweepNext(_, _, _) =>
    case SweepScan(_, _, _, _, _, _, _) =>
  }

  lemma SlotIds(s: State, t: Tid, c: Choice)
    requires t in s.pc && Part(s.pc[t]) == InSlot
    ensures SameIds(s, SlotStep(s, t, c))
  {
  }

  predicate Allocates(p: Pc) {
    p.PushAlloc? || p.PopFree? || p.Retire? || p.SweepFree?
  }

  lemma OtherIds(s: State, t: Tid, c: Choice)
    requires t in s.pc && !Allocates(s.pc[t])
    ensures SameIds(s, Step(s, t, c))
  {
    match Part(s.pc[t])
    case InPush => PushIds(s, t, c);
    case InPop => PopIds(s, t);
    case InReclaim => ReclaimIds(s, t, c);
    case InSweep => SweepIds(s, t);
    case InSlot => SlotIds(s, t, c);
  }

  lemma AllocAccount(s: State, t: Tid, v: Value, a: Addr)
    requires Account(s)
    ensures Account(DoAlloc(s, t, v, a))
  {
    if a != NULL && a !in s.heap {
      NodeAccount(s.heap, s.recs, s.freed, s.serial, a, DoAlloc(s, t, v, a).heap[a]);
    }
  }

  lemma FreeAccount(s: State, t: Tid, a: Addr, id: nat, res: Option<Value>)
    requires Account(s)
    ensures Account(DoPopFree(s, t, a, id, res))
  {
    if Live(s, a, id) {
      FreeNodeAccount(s.heap, s.recs, s.freed, s.serial, a);
    }
  }

  lemma RetireAccount(s: State, t: Tid, a: Addr, id: nat, res: Option<Value>, r: Addr)
    requires Account(s)
    ensures Account(DoRetire(s, t, a, id, res, r))
  {
    if r != NULL && r !in s.recs && Live(s, a, id) {
      var x := Rec(s.serial, a, id, NULL, Private(t));
      var heap' := s.heap[a := s.heap[a].(place := Retired(r))];
      RecAccount(s.heap, s.recs, s.freed, s.serial, r, x);
      SameAccount(s.heap, heap', s.recs[r := x], s.recs[r := x], s.freed, s.serial + 1);
    }
  }

  lemma SweepAccount(s: State, t: Tid, r: Addr, rid: nat, a: Addr, next: Addr, mine: seq<Addr>, res: Option<Value>)
    requires Account(s)
    ensures Account(DoSweepFree(s, t, r, rid, a, next, mine, res))
  {
    if LiveRec(s, r, rid) && Live(s, a, s.recs[r].nodeId) {
      FreeNodeAccount(s.heap, s.recs, s.freed, s.serial, a);
      FreeRecAccount(s.heap - {a}, s.recs, s.freed + {s.heap[a].id}, s.serial, r);
      assert s.freed + {s.heap[a].id} + {rid} == s.freed + {s.heap[a].id, rid};
    }
  }

  lemma OtherAccount(s: State, t: Tid, c: Choice, s': State)
    requires Account(s) && t in s.pc && !Allocates(s.pc[t]) && s' == Step(s, t, c)
    ensures Account(s')
  {
    OtherIds(s, t, c);
    SameAccount(s.heap, s'.heap, s.recs, s'.recs, s.freed, s.serial);
  }

  lemma PushAllocAccount(s: State, t: Tid, c: Choice)
    requires Account(s) && t in s.pc && s.pc[t].PushAlloc?
    ensures Account(Step(s, t, c))
  {
    AllocAccount(s, t, s.pc[t].v, c.spare);
  }

  lemma RetireStepAccount(s: State, t: Tid, c: Choice)
    requires Account(s) && t in s.pc && s.pc[t].Retire?
    ensures Account(Step(s, t, c))
  {
    assert Step(s, t, c) == DoRetire(s, t, s.pc[t].seen, s.pc[t].id, s.pc[t].res, c.spare);
    RetireAccount(s, t, s.pc[t].seen, s.pc[t].id, s.pc[t].res, c.spare);
  }

  lemma PopFreeAccount(s: State, t: Tid, c: Choice)
    requires Account(s) && t in s.pc && s.pc[t].PopFree?
    ensures Account(Step(s, t, c))
  {
    assert Step(s, t, c) == DoPopFree(s, t, s.pc[t].seen, s.pc[t].id, s.pc[t].res);
    FreeAccount(s, t, s.pc[t].seen, s.pc[t].id, s.pc[t].res);
  }

  lemma SweepFreeAccount(s: State, t: Tid, c: Choice)
    requires Account(s) && t in s.pc && s.pc[t].SweepFree?
    ensures Account(Step(s, t, c))
  {
    var p := s.pc[t];
    assert Step(s, t, c) == DoSweepFree(s, t, p.r, p.rid, p.p, p.next, p.mine, p.res);
    SweepAccount(s, t, p.r, p.rid, p.p, p.next, p.mine, p.res);
  }

  lemma StepAccount(s: State, t: Tid, c: Choice)
    requires Account(s) && t in s.pc
    ensures Account(Step(s, t, c))
  {
    if s.pc[t].PushAlloc? {
      PushAllocAccount(s, t, c);
    } else if s.pc[t].Retire? {
      RetireStepAccount(s, t, c);
    } else if s.pc[t].PopFree? {
      PopFreeAccount(s, t, c);
    } else if s.pc[t].SweepFree? {
      SweepFreeAccount(s, t, c);
    } else {
      OtherAccount(s, t, c, Step(s, t, c));
    }
  }
}
