/** The hazard-pointer stack is lock-free: from every reachable state there is a bound on the steps that all
    threads together can make before an operation takes effect or returns. */
module HpStackLockFree {
  import opened Wrappers
  import opened Finite
  import opened LinearSpec
  import opened HpStack
  import opened HpStackInvariant
  import opened HpStackRefinement
  import opened HpStackTheorems
  import opened HpStackRaces

  // ---------------------------------------------------------------- stretches without progress

  function After(s: State, x: (Tid, Choice)): State {
    if x.0 in s.pc then Step(s, x.0, x.1) else s
  }

  /** An operation takes effect, returns, or leaves by its exception; or a thread has ended. */
  predicate Progress(p: Pc, e: Label) {
    e.EffectPut? || e.EffectTake? || e.RetPut? || e.RetTake? || e.Abandon? || p.ExitRelease?
  }

  /** A step without progress that is not delayed by the environment: no compare-exchange fails spuriously,
      and `new` returns an address that can be used.  A thread that has no hazard slot has nothing to do at its
      end. */
  predicate Quiet(s: State, t: Tid, c: Choice) {
    && t in s.pc && !Progress(s.pc[t], Event(s, t, c)) && !c.spurious
    && (s.pc[t].PushAlloc? ==> c.spare != NULL && c.spare !in s.heap)
    && (s.pc[t].Retire? ==> c.spare != NULL && c.spare !in s.recs)
    && (s.pc[t].Idle? && c.op.DoExit? ==> t in s.hp)
  }

  predicate AllQuiet(s: State, seg: Schedule)
    decreases |seg|
  {
    seg == [] || (Quiet(s, seg[0].0, seg[0].1) && AllQuiet(After(s, seg[0]), seg[1..]))
  }

  // ---------------------------------------------------------------- the work left

  /** The thread may still create a reclaim record. */
  predicate MayRetire(p: Pc) {
    (p.PopClear? && p.seen != NULL) || p.PopData? || p.PopScan? || p.Retire?
  }

  ghost function Retirers(pc: map<Tid, Pc>): set<Tid> {
    set t | t in pc && MayRetire(pc[t])
  }

  /** A bound on the records that a thread can find when it takes the list. */
  ghost function Capacity(s: State): nat {
    |s.recs| + |Retirers(s.pc)|
  }

  const ROUND: nat := MAX_HAZARD_POINTERS + 10

  function Linked(s: State, n: Addr, p: Addr): bool {
    n in s.heap && s.heap[n].next == p
  }

  function Chained(s: State, r: Addr, p: Addr): bool {
    r in s.recs && s.recs[r].next == p
  }

  /** The slots that a scan has still to read. */
  function SlotsLeft(i: nat): nat {
    if i < MAX_HAZARD_POINTERS then MAX_HAZARD_POINTERS - i else 0
  }

  /** The steps of a thread that sweeps, or is about to, to its return. */
  ghost function ReclaimLeft(s: State, p: Pc): nat {
    var take := ROUND * Capacity(s) + 2;
    match p
    case PopClear(seen, _) => if seen == NULL then 1 else take + MAX_HAZARD_POINTERS + 8
    case PopData(_, _) => take + MAX_HAZARD_POINTERS + 7
    case PopScan(_, _, i, _) => take + 5 + SlotsLeft(i)
    case PopFree(_, _, _) => take + 1
    case Retire(_, _, _) => take + 4
    case AddLoad(_, _, _, mine, sweep, _) => (if sweep then ROUND * |mine| + 1 else take) + 3
    case AddCas(r, _, _, mine, sweep, _) =>
      (if sweep then ROUND * |mine| + 1 else take) + if Chained(s, r, s.rhead) then 1 else 2
    case Take(_) => take
    case SweepNext(_, mine, _) => ROUND * |mine| + 1
    case SweepScan(_, _, _, i, _, mine, _) => ROUND * |mine| + 5 + SlotsLeft(i)
    case SweepFree(_, _, _, _, mine, _) => ROUND * |mine| + 2
    case _ => 0
  }

  /** The quiet steps that a thread can make, if the head and the reclaim list stay as they are. */
  ghost function Own(s: State, p: Pc): nat {
    match p
    case Idle => MAX_HAZARD_POINTERS + 6
    case PushAlloc(_) => 2
    case PushLoad(_, _, _) => 1
    case PushCas(n, _, _) => if Linked(s, n, s.head) then 0 else 1
    case Claim(i) => SlotsLeft(i) + 5
    case PopLoad => 4
    case PopPublish(seen) => if seen == s.head then 3 else 5
    case PopCheck(seen) => if seen == s.head then 2 else 4
    case PopNext(seen, _) => if seen == s.head then 1 else 5
    case PopCas(seen, _, _) => if seen == s.head then 0 else 4
    case ExitClear => 1
    case _ => ReclaimLeft(s, p)
  }

  /** How often the thread may still change the reclaim list. */
  ghost function Changes(s: State, p: Pc): nat {
    match p
    case PopFree(_, _, _) => Capacity(s) + 1
    case AddLoad(_, _, _, mine, sweep, _) => if sweep then |mine| + 1 else Capacity(s) + 2
    case AddCas(_, _, _, mine, sweep, _) => if sweep then |mine| + 1 else Capacity(s) + 2
    case Take(_) => Capacity(s) + 1
    case SweepNext(_, mine, _) => |mine|
    case SweepScan(_, _, _, _, _, mine, _) => |mine| + 1
    case SweepFree(_, _, _, _, mine, _) => |mine|
    case _ => if MayRetire(p) then Capacity(s) + 2 else 0
  }

  /** A step less for `t`; and a change of the reclaim list less, if there is one. */
  ghost predicate Works(s: State, s': State, t: Tid) {
    && t in s.pc && t in s'.pc && Own(s', s'.pc[t]) < Own(s, s.pc[t])
    && Changes(s', s'.pc[t]) + (if s'.rhead == s.rhead then 0 else 1) <= Changes(s, s.pc[t])
  }

  // ---------------------------------------------------------------- the capacity

  lemma RetirersMove(pc: map<Tid, Pc>, t: Tid, p: Pc)
    requires t in pc
    ensures |Retirers(pc[t := p])| ==
            |Retirers(pc)| + (if MayRetire(p) then 1 else 0) - (if MayRetire(pc[t]) then 1 else 0)
  {
    var h, h' := Retirers(pc), Retirers(pc[t := p]);
    if MayRetire(p) {
      assert h' == h + {t};
    } else {
      assert h' == h - {t};
    }
  }

  /** What a step of `t` to `p` does to the capacity. */
  lemma CapacityMoves(s: State, s': State, t: Tid)
    requires t in s.pc && t in s'.pc && s'.pc == s.pc[t := s'.pc[t]]
    requires |s'.recs| <= |s.recs| + (if s.pc[t].Retire? && !MayRetire(s'.pc[t]) then 1 else 0)
    requires MayRetire(s'.pc[t]) ==> MayRetire(s.pc[t])
    ensures Capacity(s') <= Capacity(s)
  {
    RetirersMove(s.pc, t, s'.pc[t]);
  }

  predicate MayStay(p: Pc, p': Pc) {
    MayRetire(p') ==> MayRetire(p)
  }

  lemma PushStays(s: State, t: Tid, c: Choice)
    requires t in s.pc && Part(s.pc[t]) == InPush && t in PushStep(s, t, c).pc
    ensures MayStay(s.pc[t], PushStep(s, t, c).pc[t])
  {
  }

  lemma ClaimStays(s: State, t: Tid, i: nat)
    requires t in s.pc
    ensures t in DoClaim(s, t, i).pc && !MayRetire(DoClaim(s, t, i).pc[t])
  {
  }

  lemma SlotStays(s: State, t: Tid, c: Choice)
    requires t in s.pc && Part(s.pc[t]) == InSlot && t in SlotStep(s, t, c).pc
    ensures MayStay(s.pc[t], SlotStep(s, t, c).pc[t])
  {
    match s.pc[t]
    case Idle =>
    case Claim(i) => ClaimStays(s, t, i);
    case Thrown =>
    case ExitClear =>
    case ExitRelease =>
  }

  lemma StoreStays(s: State, t: Tid)
    requires t in s.pc && (s.pc[t].PopPublish? || s.pc[t].PopClear? || s.pc[t].PopLoad? || s.pc[t].PopRet?)
    requires t in PopStep(s, t).pc
    ensures MayStay(s.pc[t], PopStep(s, t).pc[t])
  {
  }

  lemma LookStays(s: State, t: Tid, c: Choice)
    requires Quiet(s, t, c) && (s.pc[t].PopCheck? || s.pc[t].PopNext? || s.pc[t].PopCas? || s.pc[t].PopData?)
    requires t in PopStep(s, t).pc
    ensures MayStay(s.pc[t], PopStep(s, t).pc[t])
  {
  }

  lemma PopStays(s: State, t: Tid, c: Choice)
    requires Quiet(s, t, c) && Part(s.pc[t]) == InPop && t in PopStep(s, t).pc
    ensures MayStay(s.pc[t], PopStep(s, t).pc[t])
  {
    if s.pc[t].PopCheck? || s.pc[t].PopNext? || s.pc[t].PopCas? || s.pc[t].PopData? {
      LookStays(s, t, c);
    } else {
      StoreStays(s, t);
    }
  }

  lemma ReclaimStays(s: State, t: Tid, c: Choice)
    requires t in s.pc && Part(s.pc[t]) == InReclaim && t in ReclaimStep(s, t, c).pc
    ensures MayStay(s.pc[t], ReclaimStep(s, t, c).pc[t])
  {
  }

  lemma AddStays(s: State, t: Tid)
    requires t in s.pc && (s.pc[t].AddLoad? || s.pc[t].AddCas?) && t in SweepStep(s, t).pc
    ensures MayStay(s.pc[t], SweepStep(s, t).pc[t])
  {
  }

  lemma SweepStays(s: State, t: Tid)
    requires t in s.pc && Part(s.pc[t]) == InSweep && t in SweepStep(s, t).pc
    ensures MayStay(s.pc[t], SweepStep(s, t).pc[t])
  {
    var p := s.pc[t];
    if p.AddLoad? || p.AddCas? {
      AddStays(s, t);
    } else if p.SweepScan? {
      ScanStays(s, t, p);
    }
  }

  lemma ScanStays(s: State, t: Tid, p: Pc)
    requires t in s.pc && s.pc[t] == p && p.SweepScan?
    ensures var s' := DoSweepScan(s, t, p.r, p.rid, p.p, p.i, p.next, p.mine, p.res);
            t in s'.pc && !MayRetire(s'.pc[t])
  {
  }

  lemma StepStays(s: State, t: Tid, c: Choice)
    requires Quiet(s, t, c) && t in Step(s, t, c).pc
    ensures MayStay(s.pc[t], Step(s, t, c).pc[t])
  {
    match Part(s.pc[t])
    case InPush => PushStays(s, t, c);
    case InSlot => SlotStays(s, t, c);
    case InPop => PopStays(s, t, c);
    case InReclaim => ReclaimStays(s, t, c);
    case InSweep => SweepStays(s, t);
  }

  lemma PcFrame(s: State, t: Tid, c: Choice)
    requires Inv(s) && t in s.pc
    ensures var s' := Step(s, t, c); t in s'.pc && s'.pc == s.pc[t := s'.pc[t]]
  {
    forall u
      ensures u in Step(s, t, c).pc <==> u in s.pc
      ensures u in s.pc && u != t ==> Step(s, t, c).pc[u] == s.pc[u]
    {
      StepGentle(s, t, c, NULL, u);
    }
    StepGentle(s, t, c, NULL, t);
  }

  /** No new record, but the one that `retire` has been waiting to create. */
  lemma StepRecs(s: State, t: Tid, c: Choice)
    requires Inv(s) && Quiet(s, t, c)
    ensures var s' := Step(s, t, c);
      |s'.recs| <= |s.recs| + if s.pc[t].Retire? && t in s'.pc && !MayRetire(s'.pc[t]) then 1 else 0
  {
    if !Allocates(s.pc[t]) {
      OtherIds(s, t, c);
      assert |Step(s, t, c).recs| == |Step(s, t, c).recs.Keys|;
      assert |s.recs| == |s.recs.Keys|;
    } else {
      AllocatorRecs(s, t, c);
    }
  }

  lemma AllocatorRecs(s: State, t: Tid, c: Choice)
    requires Inv(s) && Quiet(s, t, c) && Allocates(s.pc[t])
    ensures var s' := Step(s, t, c);
      |s'.recs| <= |s.recs| + if s.pc[t].Retire? && t in s'.pc && !MayRetire(s'.pc[t]) then 1 else 0
  {
    if s.pc[t].Retire? {
      RetireRecs(s, t, s.pc[t].seen, s.pc[t].id, s.pc[t].res, c.spare);
    } else if s.pc[t].SweepFree? {
      SweepFreeRecs(s, t, s.pc[t].r, s.pc[t].rid, s.pc[t].p, s.pc[t].next, s.pc[t].mine, s.pc[t].res);
    }
  }

  lemma RetireKeys(s: State, t: Tid, seen: Addr, id: nat, res: Option<Value>, r: Addr)
    requires Inv(s) && t in s.pc && s.pc[t] == Retire(seen, id, res) && r != NULL && r !in s.recs
    ensures var s' := DoRetire(s, t, seen, id, res, r);
            s'.recs.Keys == s.recs.Keys + {r} && t in s'.pc && s'.pc[t].AddLoad?
  {
    assert ThreadInv(s, t);
  }

  lemma RetireRecs(s: State, t: Tid, seen: Addr, id: nat, res: Option<Value>, r: Addr)
    requires Inv(s) && t in s.pc && s.pc[t] == Retire(seen, id, res) && r != NULL && r !in s.recs
    ensures var s' := DoRetire(s, t, seen, id, res, r); |s'.recs| <= |s.recs| + 1 && t in s'.pc && !MayRetire(s'.pc[t])
  {
    RetireKeys(s, t, seen, id, res, r);
  }

  lemma SweepFreeRecs(s: State, t: Tid, r: Addr, rid: nat, p: Addr, next: Addr, mine: seq<Addr>, res: Option<Value>)
    ensures |DoSweepFree(s, t, r, rid, p, next, mine, res).recs| <= |s.recs|
  {
    RemoveCard(s.recs, r);
  }

  lemma RemoveCard(recs: map<Addr, Rec>, r: Addr)
    ensures |recs - {r}| <= |recs|
  {
    var keys := (recs - {r}).Keys;
    assert recs.Keys == keys + (recs.Keys - keys);
  }

  lemma StepCapacity(s: State, t: Tid, c: Choice)
    requires Inv(s) && Quiet(s, t, c)
    ensures Capacity(Step(s, t, c)) <= Capacity(s)
  {
    PcFrame(s, t, c);
    StepStays(s, t, c);
    StepRecs(s, t, c);
    CapacityMoves(s, Step(s, t, c), t);
  }

  // ---------------------------------------------------------------- what a quiet step leaves of its own work

  /** `t` goes to `p`, and the reclaim list stays. */
  ghost predicate Shrinks(s: State, s': State, p: Pc, p': Pc) {
    Own(s', p') < Own(s, p) && Changes(s', p') <= Changes(s, p)
  }

  lemma PushDrops(s: State, t: Tid, c: Choice)
    requires Inv(s) && Quiet(s, t, c) && Part(s.pc[t]) == InPush
    ensures Works(s, PushStep(s, t, c), t)
  {
    assert ThreadInv(s, t);
  }

  /** A step that only moves the program counter and the slots. */
  lemma MoveDrops(s: State, s': State, t: Tid)
    requires t in s.pc && t in s'.pc && s'.rhead == s.rhead && Shrinks(s, s', s.pc[t], s'.pc[t])
    ensures Works(s, s', t)
  {
  }

  lemma ClaimDrops(s: State, t: Tid, i: nat)
    requires t in s.pc && s.pc[t] == Claim(i) && i < MAX_HAZARD_POINTERS
    ensures Works(s, DoClaim(s, t, i), t)
  {
  }

  lemma IdleDrops(s: State, t: Tid, c: Choice)
    requires Quiet(s, t, c) && s.pc[t].Idle?
    ensures Works(s, SlotStep(s, t, c), t)
  {
  }

  lemma ExitDrops(s: State, t: Tid)
    requires t in s.pc && s.pc[t] == ExitClear && t in s.hp && s.hp[t] < |s.slots|
    ensures Works(s, Publish(s, t, NULL, ExitRelease), t)
  {
  }

  lemma SlotDrops(s: State, t: Tid, c: Choice)
    requires Inv(s) && Quiet(s, t, c) && Part(s.pc[t]) == InSlot
    ensures Works(s, SlotStep(s, t, c), t)
  {
    assert ThreadInv(s, t);
    match s.pc[t]
    case Idle => IdleDrops(s, t, c);
    case Claim(i) => ClaimDrops(s, t, i);
    case ExitClear => ExitDrops(s, t);
  }

  lemma LoadDrops(s: State, t: Tid)
    requires t in s.pc && s.pc[t] == PopLoad
    ensures Works(s, Goto(s, t, PopPublish(s.head)), t)
  {
  }

  lemma PublishDrops(s: State, t: Tid, seen: Addr)
    requires t in s.pc && s.pc[t] == PopPublish(seen) && t in s.hp && s.hp[t] < |s.slots|
    ensures Works(s, Publish(s, t, seen, PopCheck(seen)), t)
  {
  }

  lemma CheckDrops(s: State, t: Tid, seen: Addr)
    requires t in s.pc && s.pc[t] == PopCheck(seen) && !(s.head == seen && seen == NULL)
             && (s.head != NULL ==> s.head in s.heap)
    ensures Works(s, DoPopCheck(s, t, seen), t)
  {
  }

  lemma NextDrops(s: State, t: Tid, seen: Addr, id: nat)
    requires t in s.pc && s.pc[t] == PopNext(seen, id) && Live(s, seen, id)
    ensures Works(s, DoPopNext(s, t, seen, id), t)
  {
  }

  lemma CasDrops(s: State, t: Tid, seen: Addr, id: nat, nx: Addr)
    requires t in s.pc && s.pc[t] == PopCas(seen, id, nx) && s.head != seen
    ensures Works(s, DoPopCas(s, t, seen, id, nx), t)
  {
  }

  lemma ClearDrops(s: State, t: Tid, seen: Addr, id: nat)
    requires t in s.pc && s.pc[t] == PopClear(seen, id) && t in s.hp && s.hp[t] < |s.slots|
    requires Capacity(PopStep(s, t)) <= Capacity(s)
    ensures Works(s, PopStep(s, t), t)
  {
  }

  lemma DataDrops(s: State, t: Tid, seen: Addr, id: nat)
    requires t in s.pc && s.pc[t] == PopData(seen, id) && Live(s, seen, id)
    requires Capacity(DoPopData(s, t, seen, id)) <= Capacity(s)
    ensures Works(s, DoPopData(s, t, seen, id), t)
  {
  }

  lemma PopDrops(s: State, t: Tid, c: Choice)
    requires Inv(s) && Quiet(s, t, c) && Part(s.pc[t]) == InPop && Capacity(PopStep(s, t)) <= Capacity(s)
    ensures Works(s, PopStep(s, t), t)
  {
    assert ThreadInv(s, t);
    assert s.chain != [] ==> s.head == s.chain[0] && s.chain[0] in s.heap;
    match s.pc[t]
    case PopLoad => LoadDrops(s, t);
    case PopPublish(seen) => PublishDrops(s, t, seen);
    case PopCheck(seen) => CheckDrops(s, t, seen);
    case PopNext(seen, id) => NextDrops(s, t, seen, id);
    case PopCas(seen, id, nx) => CasDrops(s, t, seen, id, nx);
    case PopClear(seen, id) => ClearDrops(s, t, seen, id);
    case PopData(seen, id) => DataDrops(s, t, seen, id);
  }

  lemma ScanDrops(s: State, t: Tid, seen: Addr, id: nat, i: nat, res: Option<Value>)
    requires t in s.pc && s.pc[t] == PopScan(seen, id, i, res) && i < MAX_HAZARD_POINTERS
    requires Capacity(DoPopScan(s, t, seen, id, i, res)) <= Capacity(s)
    ensures Works(s, DoPopScan(s, t, seen, id, i, res), t)
  {
  }

  lemma PopFreeDrops(s: State, t: Tid, seen: Addr, id: nat, res: Option<Value>)
    requires t in s.pc && s.pc[t] == PopFree(seen, id, res) && Live(s, seen, id)
    requires Capacity(DoPopFree(s, t, seen, id, res)) <= Capacity(s)
    ensures Works(s, DoPopFree(s, t, seen, id, res), t)
  {
  }

  lemma RetireDrops(s: State, t: Tid, seen: Addr, id: nat, res: Option<Value>, r: Addr)
    requires t in s.pc && s.pc[t] == Retire(seen, id, res) && Live(s, seen, id) && r != NULL && r !in s.recs
    requires Capacity(DoRetire(s, t, seen, id, res, r)) <= Capacity(s)
    ensures Works(s, DoRetire(s, t, seen, id, res, r), t)
  {
  }

  lemma TakeDrops(s: State, t: Tid, res: Option<Value>)
    requires Inv(s) && t in s.pc && s.pc[t] == Take(res)
    ensures Works(s, DoTake(s, t, res), t)
  {
    FitsIn(s.list, s.recs.Keys);
    assert |s.recs| == |s.recs.Keys|;
  }

  lemma AddLoadDrops(s: State, t: Tid, r: Addr, rid: nat, next: Addr, mine: seq<Addr>, sweep: bool, res: Option<Value>)
    requires t in s.pc && s.pc[t] == AddLoad(r, rid, next, mine, sweep, res) && LiveRec(s, r, rid)
    requires Capacity(DoAddLoad(s, t, r, rid, next, mine, sweep, res)) <= Capacity(s)
    ensures Works(s, DoAddLoad(s, t, r, rid, next, mine, sweep, res), t)
  {
  }

  lemma AddCasDrops(s: State, t: Tid, r: Addr, rid: nat, next: Addr, mine: seq<Addr>, sweep: bool, res: Option<Value>)
    requires t in s.pc && s.pc[t] == AddCas(r, rid, next, mine, sweep, res) && LiveRec(s, r, rid)
    requires Capacity(DoAddCas(s, t, r, rid, next, mine, sweep, res)) <= Capacity(s)
    ensures Works(s, DoAddCas(s, t, r, rid, next, mine, sweep, res), t)
  {
    if s.rhead == s.recs[r].next {
      assert DoAddCas(s, t, r, rid, next, mine, sweep, res).pc[t] == if sweep then SweepNext(next, mine, res)
        else Take(res);
    } else {
      assert DoAddCas(s, t, r, rid, next, mine, sweep, res) == DoAddLoad(s, t, r, rid, next, mine, sweep, res);
    }
  }

  lemma SweepNextDrops(s: State, t: Tid, next: Addr, mine: seq<Addr>, res: Option<Value>)
    requires t in s.pc && s.pc[t] == SweepNext(next, mine, res) && (if mine == [] then next == NULL else next in s.recs)
    requires mine != [] ==> next != NULL
    ensures Works(s, DoSweepNext(s, t, next, mine, res), t)
  {
  }

  lemma SweepScanDrops(s: State, t: Tid, r: Addr, rid: nat, p: Addr, i: nat, next: Addr, mine: seq<Addr>,
                       res: Option<Value>)
    requires t in s.pc && s.pc[t] == SweepScan(r, rid, p, i, next, mine, res) && i < MAX_HAZARD_POINTERS
    ensures Works(s, DoSweepScan(s, t, r, rid, p, i, next, mine, res), t)
  {
  }

  lemma SweepFreeDrops(s: State, t: Tid, r: Addr, rid: nat, p: Addr, next: Addr, mine: seq<Addr>, res: Option<Value>)
    requires t in s.pc && s.pc[t] == SweepFree(r, rid, p, next, mine, res) && LiveRec(s, r, rid)
             && Live(s, p, s.recs[r].nodeId)
    ensures Works(s, DoSweepFree(s, t, r, rid, p, next, mine, res), t)
  {
  }

  lemma ReclaimDrops(s: State, t: Tid, c: Choice)
    requires Inv(s) && Quiet(s, t, c) && Part(s.pc[t]) == InReclaim && Capacity(ReclaimStep(s, t, c)) <= Capacity(s)
    ensures Works(s, ReclaimStep(s, t, c), t)
  {
    assert ThreadInv(s, t);
    match s.pc[t]
    case PopScan(seen, id, i, res) => ScanDrops(s, t, seen, id, i, res);
    case PopFree(seen, id, res) => PopFreeDrops(s, t, seen, id, res);
    case Retire(seen, id, res) => RetireDrops(s, t, seen, id, res, c.spare);
    case Take(res) => TakeDrops(s, t, res);
  }

  lemma SweepDrops(s: State, t: Tid)
    requires Inv(s) && t in s.pc && Part(s.pc[t]) == InSweep && Capacity(SweepStep(s, t)) <= Capacity(s)
    ensures Works(s, SweepStep(s, t), t)
  {
    assert ThreadInv(s, t);
    match s.pc[t]
    case AddLoad(r, rid, next, mine, sweep, res) => AddLoadDrops(s, t, r, rid, next, mine, sweep, res);
    case AddCas(r, rid, next, mine, sweep, res) => AddCasDrops(s, t, r, rid, next, mine, sweep, res);
    case SweepNext(next, mine, res) =>
      assert mine != [] ==> mine[0] in s.recs;
      SweepNextDrops(s, t, next, mine, res);
    case SweepScan(r, rid, p, i, next, mine, res) => SweepScanDrops(s, t, r, rid, p, i, next, mine, res);
    case SweepFree(r, rid, p, next, mine, res) =>
      LastScanned(s, t, r, rid, p, next, mine, res);
      SweepFreeDrops(s, t, r, rid, p, next, mine, res);
  }

  /** A quiet step is one step less for its thread. */
  lemma StepDrops(s: State, t: Tid, c: Choice)
    requires Inv(s) && Quiet(s, t, c)
    ensures Works(s, Step(s, t, c), t)
  {
    StepCapacity(s, t, c);
    match Part(s.pc[t])
    case InPush => PushDrops(s, t, c);
    case InSlot => SlotDrops(s, t, c);
    case InPop => PopDrops(s, t, c);
    case InReclaim => ReclaimDrops(s, t, c);
    case InSweep => SweepDrops(s, t);
  }

  // ---------------------------------------------------------------- what it leaves to the others

  /** A step changes no node that another thread is pushing, and no record of another thread. */
  ghost predicate LeavesOthers(s: State, s': State, t: Tid) {
    && (forall a, u :: a in s.heap && u != t && s.heap[a].place == Fresh(u) ==>
          a in s'.heap && s'.heap[a].next == s.heap[a].next)
    && (forall r, u :: r in s.recs && u != t && s.recs[r].place == Private(u) ==>
          r in s'.recs && s'.recs[r].next == s.recs[r].next)
  }

  lemma ReclaimMono(s: State, s': State, p: Pc)
    requires Capacity(s') <= Capacity(s)
    requires p.AddCas? ==> p.r in s.recs && p.r in s'.recs && s'.recs[p.r].next == s.recs[p.r].next
    ensures ReclaimLeft(s', p) <= ReclaimLeft(s, p) + if s'.rhead == s.rhead then 0 else 1
  {
    assert ROUND * Capacity(s') <= ROUND * Capacity(s);
  }

  lemma ChangesMono(s: State, s': State, p: Pc)
    requires Capacity(s') <= Capacity(s)
    ensures Changes(s', p) <= Changes(s, p)
  {
  }

  lemma OwnMono(s: State, s': State, p: Pc)
    requires s'.head == s.head
    requires p.PushCas? ==> p.n in s.heap && p.n in s'.heap && s'.heap[p.n].next == s.heap[p.n].next
    requires ReclaimLeft(s', p) <= ReclaimLeft(s, p) + if s'.rhead == s.rhead then 0 else 1
    ensures Own(s', p) <= Own(s, p) + if s'.rhead == s.rhead then 0 else 1
  {
  }

  lemma KeepsMine(s: State, s': State, t: Tid, u: Tid)
    requires Inv(s) && LeavesOthers(s, s', t) && u in s.pc && u != t
    ensures var p := s.pc[u];
      && (p.PushCas? ==> p.n in s.heap && p.n in s'.heap && s'.heap[p.n].next == s.heap[p.n].next)
      && (p.AddCas? ==> p.r in s.recs && p.r in s'.recs && s'.recs[p.r].next == s.recs[p.r].next)
  {
    assert ThreadInv(s, u);
  }

  /** The work of another thread rises by one at most, if the reclaim list has changed. */
  lemma OtherOwn(s: State, s': State, t: Tid, u: Tid)
    requires Inv(s) && s'.head == s.head && Capacity(s') <= Capacity(s) && LeavesOthers(s, s', t) && u in s.pc && u != t
    ensures Own(s', s.pc[u]) <= Own(s, s.pc[u]) + if s'.rhead == s.rhead then 0 else 1
    ensures Changes(s', s.pc[u]) <= Changes(s, s.pc[u])
  {
    KeepsMine(s, s', t, u);
    ReclaimMono(s, s', s.pc[u]);
    ChangesMono(s, s', s.pc[u]);
    OwnMono(s, s', s.pc[u]);
  }

  lemma StepLeaves(s: State, t: Tid, c: Choice)
    requires Inv(s) && t in s.pc
    ensures LeavesOthers(s, Step(s, t, c), t)
  {
    WritesAll(s, t, c);
    forall a, u | a in s.heap && u != t && s.heap[a].place == Fresh(u) ensures NextOf(a) !in Writes(s, t) {
      if NextOf(a) in Writes(s, t) {
        WritesOwn(s, t, NextOf(a));
      }
    }
    forall r, u | r in s.recs && u != t && s.recs[r].place == Private(u) ensures RecordAt(r) !in Writes(s, t) {
      if RecordAt(r) in Writes(s, t) {
        WritesOwn(s, t, RecordAt(r));
      }
    }
  }

  lemma PushHead(s: State, t: Tid, c: Choice)
    requires Quiet(s, t, c) && Part(s.pc[t]) == InPush
    ensures PushStep(s, t, c).head == s.head
  {
  }

  lemma PopHead(s: State, t: Tid, c: Choice)
    requires Quiet(s, t, c) && Part(s.pc[t]) == InPop
    ensures PopStep(s, t).head == s.head
  {
  }

  lemma ReclaimHead(s: State, t: Tid, c: Choice)
    requires t in s.pc && Part(s.pc[t]) == InReclaim
    ensures ReclaimStep(s, t, c).head == s.head
  {
  }

  lemma SlotHead(s: State, t: Tid, c: Choice)
    requires t in s.pc && Part(s.pc[t]) == InSlot
    ensures SlotStep(s, t, c).head == s.head
  {
  }

  lemma SweepHead(s: State, t: Tid)
    requires t in s.pc && Part(s.pc[t]) == InSweep
    ensures SweepStep(s, t).head == s.head
  {
  }

  /** The head changes only by an effect. */
  lemma StepHead(s: State, t: Tid, c: Choice)
    requires Quiet(s, t, c)
    ensures Step(s, t, c).head == s.head
  {
    match Part(s.pc[t])
    case InPush => PushHead(s, t, c);
    case InPop => PopHead(s, t, c);
    case InSweep => SweepHead(s, t);
    case InReclaim => ReclaimHead(s, t, c);
    case InSlot => SlotHead(s, t, c);
  }

  // ---------------------------------------------------------------- all threads together

  /** The share of one thread; a change of the reclaim list counts for the compare-exchange that it makes
      every other thread repeat. */
  ghost function Share(s: State, u: Tid, n: nat): nat {
    if u in s.pc then Own(s, s.pc[u]) + n * Changes(s, s.pc[u]) else 0
  }

  ghost function Work(s: State, order: seq<Tid>, n: nat): nat {
    if order == [] then 0 else Share(s, order[0], n) + Work(s, order[1..], n)
  }

  /** What every quiet step does, seen from the threads. */
  ghost predicate Advances(s: State, s': State, t: Tid) {
    && Inv(s) && t in s.pc && t in s'.pc && s'.pc == s.pc[t := s'.pc[t]]
    && Works(s, s', t) && s'.head == s.head && Capacity(s') <= Capacity(s) && LeavesOthers(s, s', t)
  }

  lemma OtherShare(s: State, s': State, t: Tid, u: Tid, n: nat)
    requires Advances(s, s', t) && u != t
    ensures Share(s', u, n) <= Share(s, u, n) + if s'.rhead == s.rhead then 0 else 1
  {
    if u in s.pc {
      OtherOwn(s, s', t, u);
      Scaled(n, Changes(s, s.pc[u]), Changes(s', s.pc[u]));
    }
  }

  lemma OwnShare(s: State, s': State, t: Tid, n: nat)
    requires Works(s, s', t)
    ensures Share(s', t, n) + (if s'.rhead == s.rhead then 0 else n) < Share(s, t, n)
  {
    Spent(n, Changes(s, s.pc[t]), Changes(s', s'.pc[t]), s'.rhead != s.rhead, Own(s, s.pc[t]), Own(s', s'.pc[t]));
  }

  lemma {:induction false} OthersWork(s: State, s': State, t: Tid, order: seq<Tid>, n: nat)
    requires Advances(s, s', t) && t !in order
    ensures Work(s', order, n) <= Work(s, order, n) + if s'.rhead == s.rhead then 0 else |order|
  {
    if order != [] {
      OthersWork(s, s', t, order[1..], n);
      OtherShare(s, s', t, order[0], n);
    }
  }

  lemma {:induction false} WorkDrops(s: State, s': State, t: Tid, order: seq<Tid>, n: nat)
    requires Advances(s, s', t) && t in order && Distinct(order)
    ensures if s'.rhead == s.rhead then Work(s', order, n) + 1 <= Work(s, order, n)
            else Work(s', order, n) + 1 + n <= Work(s, order, n) + |order| - 1
  {
    var u := order[0];
    if u == t {
      OwnShare(s, s', t, n);
      assert forall i :: 0 <= i < |order[1..]| ==> order[1..][i] == order[i + 1];
      OthersWork(s, s', t, order[1..], n);
    } else {
      assert order == [u] + order[1..];
      WorkDrops(s, s', t, order[1..], n);
      OtherShare(s, s', t, u, n);
    }
  }

  lemma StepAdvances(s: State, t: Tid, c: Choice)
    requires Inv(s) && Quiet(s, t, c)
    ensures Advances(s, Step(s, t, c), t)
  {
    PcFrame(s, t, c);
    StepDrops(s, t, c);
    StepHead(s, t, c);
    StepCapacity(s, t, c);
    StepLeaves(s, t, c);
  }

  lemma {:induction false} SegmentBound(s: State, seg: Schedule, order: seq<Tid>)
    requires Inv(s) && AllQuiet(s, seg) && (forall t :: t in s.pc ==> t in order)
    requires Distinct(order)
    ensures |seg| <= Work(s, order, |order|)
    decreases |seg|
  {
    if seg != [] {
      var (t, c) := seg[0];
      StepInv(s, t, c);
      StepAdvances(s, t, c);
      WorkDrops(s, Step(s, t, c), t, order, |order|);
      SegmentBound(Step(s, t, c), seg[1..], order);
    }
  }

  /** Lock-freedom: from every reachable state there is a bound on the steps in which no operation takes effect
      or returns and no thread ends, whichever threads make them; so in every long enough stretch of a run some
      operation does, although threads hand retired nodes back and forth. */
  lemma LockFree(threads: set<Tid>, sched: Schedule) returns (b: nat)
    ensures forall seg :: AllQuiet(Run(threads, sched), seg) ==> |seg| <= b
  {
    RunInv(threads, sched);
    var s := Run(threads, sched);
    var order := Enumerate(s.pc.Keys);
    b := Work(s, order, |order|);
    forall seg | AllQuiet(s, seg) ensures |seg| <= b {
      SegmentBound(s, seg, order);
    }
  }
}
