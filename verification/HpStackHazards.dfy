/** What the hazard slots hold: only what a pop has published and not cleared. */
module HpStackHazards {
  import opened Wrappers
  import opened LinearSpec
  import opened HpStack
  import opened HpStackInvariant

  /** The states of a pop between publishing a pointer and clearing it. */
  predicate Publishing(p: Pc) {
    p.PopPublish? || p.PopCheck? || p.PopNext? || p.PopCas? || p.PopClear?
  }

  /** A slot that is not null is the slot of a thread that is publishing. */
  ghost predicate SlotClean(slots: seq<Slot>, hp: map<Tid, nat>, pc: map<Tid, Pc>, i: nat)
    requires i < |slots|
  {
    slots[i].pointer != NULL ==>
      slots[i].owner.Some? && var u := slots[i].owner.value; u in pc && Publishing(pc[u]) && u in hp && hp[u] == i
  }

  ghost predicate Clean(slots: seq<Slot>, hp: map<Tid, nat>, pc: map<Tid, Pc>) {
    && (forall i {:trigger SlotClean(slots, hp, pc, i)} :: 0 <= i < |slots| ==> SlotClean(slots, hp, pc, i))
    && (forall u :: u in hp ==> hp[u] < |slots| && slots[hp[u]].owner == Some(u))
  }

  ghost predicate CleanSlots(s: State) {
    Clean(s.slots, s.hp, s.pc)
  }

  /** A thread that moves without touching the slots, and does not leave the publishing states. */
  lemma MoveClean(slots: seq<Slot>, hp: map<Tid, nat>, pc: map<Tid, Pc>, t: Tid, p: Pc)
    requires Clean(slots, hp, pc) && t in pc && (Publishing(pc[t]) ==> Publishing(p))
    ensures Clean(slots, hp, pc[t := p])
  {
    forall i {:trigger SlotClean(slots, hp, pc[t := p], i)} | 0 <= i < |slots|
      ensures SlotClean(slots, hp, pc[t := p], i)
    {
      assert SlotClean(slots, hp, pc, i);
    }
  }

  /** A thread that stores `a` into its slot. */
  lemma StoreClean(slots: seq<Slot>, hp: map<Tid, nat>, pc: map<Tid, Pc>, t: Tid, p: Pc, a: Addr)
    requires Clean(slots, hp, pc) && t in pc && t in hp && (a == NULL || Publishing(p))
    ensures hp[t] < |slots| && Clean(slots[hp[t] := slots[hp[t]].(pointer := a)], hp, pc[t := p])
  {
    var slots' := slots[hp[t] := slots[hp[t]].(pointer := a)];
    forall i {:trigger SlotClean(slots', hp, pc[t := p], i)} | 0 <= i < |slots'|
      ensures SlotClean(slots', hp, pc[t := p], i)
    {
      assert SlotClean(slots, hp, pc, i);
    }
  }

  lemma ClaimClean(slots: seq<Slot>, hp: map<Tid, nat>, pc: map<Tid, Pc>, t: Tid, p: Pc, k: nat)
    requires Clean(slots, hp, pc) && t in pc && t !in hp && k < |slots| && slots[k].owner == None && !Publishing(pc[t])
    ensures Clean(slots[k := slots[k].(owner := Some(t))], hp[t := k], pc[t := p])
  {
    var slots' := slots[k := slots[k].(owner := Some(t))];
    forall i {:trigger SlotClean(slots', hp[t := k], pc[t := p], i)} | 0 <= i < |slots'|
      ensures SlotClean(slots', hp[t := k], pc[t := p], i)
    {
      assert SlotClean(slots, hp, pc, i);
    }
  }

  lemma ReleaseClean(slots: seq<Slot>, hp: map<Tid, nat>, pc: map<Tid, Pc>, t: Tid, p: Pc)
    requires Clean(slots, hp, pc) && t in pc && t in hp && !Publishing(pc[t])
    ensures hp[t] < |slots| && Clean(slots[hp[t] := slots[hp[t]].(owner := None)], hp - {t}, pc[t := p])
  {
    var slots', hp' := slots[hp[t] := slots[hp[t]].(owner := None)], hp - {t};
    assert SlotClean(slots, hp, pc, hp[t]);
    forall i {:trigger SlotClean(slots', hp', pc[t := p], i)} | 0 <= i < |slots'|
      ensures SlotClean(slots', hp', pc[t := p], i)
    {
      assert SlotClean(slots, hp, pc, i);
    }
  }

  /** Outside the slot operations, a step changes no slot and keeps a publishing thread publishing. */
  ghost predicate Still(s: State, s': State, t: Tid) {
    && t in s.pc && t in s'.pc && s'.pc == s.pc[t := s'.pc[t]] && s'.slots == s.slots && s'.hp == s.hp
    && (Publishing(s.pc[t]) ==> Publishing(s'.pc[t]))
  }

  lemma LinkStill(s: State, t: Tid, n: Addr, id: nat, v: Value, spurious: bool)
    requires t in s.pc && (s.pc[t].PushLoad? || s.pc[t].PushCas?)
    ensures Still(s, DoPushLoad(s, t, n, id, v), t) && Still(s, DoPushCas(s, t, n, id, v, spurious), t)
  {
  }

  lemma PushStill(s: State, t: Tid, c: Choice)
    requires t in s.pc && Part(s.pc[t]) == InPush
    ensures Still(s, PushStep(s, t, c), t)
  {
    match s.pc[t]
    case PushAlloc(_) =>
    case PushLoad(n, id, v) => LinkStill(s, t, n, id, v, false);
    case PushCas(n, id, v) => LinkStill(s, t, n, id, v, c.spurious);
    case PushRet =>
  }

  lemma PopFreeStill(s: State, t: Tid, seen: Addr, id: nat, res: Option<Value>)
    requires t in s.pc && s.pc[t] == PopFree(seen, id, res)
    ensures Still(s, DoPopFree(s, t, seen, id, res), t)
  {
  }

  lemma RetireStill(s: State, t: Tid, seen: Addr, id: nat, res: Option<Value>, r: Addr)
    requires t in s.pc && s.pc[t] == Retire(seen, id, res)
    ensures Still(s, DoRetire(s, t, seen, id, res, r), t)
  {
  }

  lemma TakeStill(s: State, t: Tid, res: Option<Value>)
    requires t in s.pc && s.pc[t] == Take(res)
    ensures Still(s, DoTake(s, t, res), t)
  {
  }

  lemma ReclaimStill(s: State, t: Tid, c: Choice)
    requires t in s.pc && Part(s.pc[t]) == InReclaim
    ensures Still(s, ReclaimStep(s, t, c), t)
  {
    match s.pc[t]
    case PopScan(_, _, _, _) =>
    case PopFree(seen, id, res) => PopFreeStill(s, t, seen, id, res);
    case Retire(seen, id, res) => RetireStill(s, t, seen, id, res, c.spare);
    case Take(res) => TakeStill(s, t, res);
  }

  lemma SweepStill(s: State, t: Tid)
    requires t in s.pc && Part(s.pc[t]) == InSweep
    ensures Still(s, SweepStep(s, t), t)
  {
    match s.pc[t]
    case AddLoad(r, rid, next, mine, sweep, res) => AddLoadStill(s, t, r, rid, next, mine, sweep, res);
    case AddCas(r, rid, next, mine, sweep, res) => AddStill(s, t, r, rid, next, mine, sweep, res);
    case SweepNext(next, mine, res) => SweepNextStill(s, t, next, mine, res);
    case SweepScan(_, _, _, _, _, _, _) =>
    case SweepFree(r, rid, p, next, mine, res) => SweepFreeStill(s, t, r, rid, p, next, mine, res);
  }

  lemma AddLoadStill(s: State, t: Tid, r: Addr, rid: nat, next: Addr, mine: seq<Addr>, sweep: bool, res: Option<Value>)
    requires t in s.pc && Part(s.pc[t]) == InSweep
    ensures Still(s, DoAddLoad(s, t, r, rid, next, mine, sweep, res), t)
  {
  }

  lemma SweepNextStill(s: State, t: Tid, next: Addr, mine: seq<Addr>, res: Option<Value>)
    requires t in s.pc && s.pc[t] == SweepNext(next, mine, res)
    ensures Still(s, DoSweepNext(s, t, next, mine, res), t)
  {
  }

  lemma SweepFreeStill(s: State, t: Tid, r: Addr, rid: nat, p: Addr, next: Addr, mine: seq<Addr>, res: Option<Value>)
    requires t in s.pc && s.pc[t] == SweepFree(r, rid, p, next, mine, res)
    ensures Still(s, DoSweepFree(s, t, r, rid, p, next, mine, res), t)
  {
  }

  lemma AddStill(s: State, t: Tid, r: Addr, rid: nat, next: Addr, mine: seq<Addr>, sweep: bool, res: Option<Value>)
    requires t in s.pc && s.pc[t] == AddCas(r, rid, next, mine, sweep, res)
    ensures Still(s, DoAddCas(s, t, r, rid, next, mine, sweep, res), t)
  {
    AddLoadStill(s, t, r, rid, next, mine, sweep, res);
  }

  lemma PopStill(s: State, t: Tid)
    requires t in s.pc && Part(s.pc[t]) == InPop && !s.pc[t].PopPublish? && !s.pc[t].PopClear?
    ensures Still(s, PopStep(s, t), t)
  {
    match s.pc[t]
    case PopLoad =>
    case PopCheck(_) =>
    case PopNext(_, _) =>
    case PopCas(seen, id, nx) => PopCasStill(s, t, seen, id, nx);
    case PopData(_, _) =>
    case PopRet(_) =>
  }

  lemma PopCasStill(s: State, t: Tid, seen: Addr, id: nat, nx: Addr)
    requires t in s.pc && s.pc[t] == PopCas(seen, id, nx)
    ensures Still(s, DoPopCas(s, t, seen, id, nx), t)
  {
  }

  lemma StillClean(s: State, s': State, t: Tid)
    requires CleanSlots(s) && Still(s, s', t)
    ensures CleanSlots(s')
  {
    MoveClean(s.slots, s.hp, s.pc, t, s'.pc[t]);
  }

  lemma SlotStepClean(s: State, t: Tid, c: Choice)
    requires Inv(s) && CleanSlots(s) && t in s.pc && Part(s.pc[t]) == InSlot
    ensures CleanSlots(SlotStep(s, t, c))
  {
    assert ThreadInv(s, t);
    match s.pc[t]
    case Idle => MoveClean(s.slots, s.hp, s.pc, t, SlotStep(s, t, c).pc[t]);
    case Claim(i) =>
      if i < |s.slots| && s.slots[i].owner == None {
        ClaimClean(s.slots, s.hp, s.pc, t, PopLoad, i);
      } else {
        MoveClean(s.slots, s.hp, s.pc, t, SlotStep(s, t, c).pc[t]);
      }
    case Thrown => MoveClean(s.slots, s.hp, s.pc, t, Idle);
    case ExitClear => StoreClean(s.slots, s.hp, s.pc, t, ExitRelease, NULL);
    case ExitRelease => ReleaseClean(s.slots, s.hp, s.pc, t, Idle);
  }

  lemma StoreStepClean(s: State, t: Tid)
    requires Inv(s) && CleanSlots(s) && t in s.pc && (s.pc[t].PopPublish? || s.pc[t].PopClear?)
    ensures CleanSlots(PopStep(s, t))
  {
    assert ThreadInv(s, t);
    var p := s.pc[t];
    if p.PopPublish? {
      StoreClean(s.slots, s.hp, s.pc, t, PopCheck(p.seen), p.seen);
    } else {
      StoreClean(s.slots, s.hp, s.pc, t, if p.seen == NULL then PopRet(None) else PopData(p.seen, p.id), NULL);
    }
  }

  lemma StepClean(s: State, t: Tid, c: Choice)
    requires Inv(s) && CleanSlots(s) && t in s.pc
    ensures CleanSlots(Step(s, t, c))
  {
    match Part(s.pc[t])
    case InPush =>
      PushStill(s, t, c);
      StillClean(s, PushStep(s, t, c), t);
    case InPop =>
      if s.pc[t].PopPublish? || s.pc[t].PopClear? {
        StoreStepClean(s, t);
      } else {
        PopStill(s, t);
        StillClean(s, PopStep(s, t), t);
      }
    case InReclaim =>
      ReclaimStill(s, t, c);
      StillClean(s, ReclaimStep(s, t, c), t);
    case InSweep =>
      SweepStill(s, t);
      StillClean(s, SweepStep(s, t), t);
    case InSlot => SlotStepClean(s, t, c);
  }
}
