/** What the steps of the two-lock queue do to the abstract queue. */
module TwoLockQueueRefinement {
  import opened Wrappers
  import opened LinearSpec
  import opened TwoLockQueue
  import opened TwoLockQueueInvariant

  /** The queued values: the data of all nodes but the dummy. */
  ghost function Items(s: State): seq<Value>
    requires ChainInv(s)
  {
    seq(|s.chain| - 1, i requires 0 <= i < |s.chain| - 1 => (DataAt(s, i); s.heap[s.chain[i]].data.value))
  }

  lemma DataAt(s: State, i: nat)
    requires ChainInv(s) && i < |s.chain| - 1
    ensures s.chain[i] in s.heap && s.heap[s.chain[i]].data.Some?
  {
    var j := i + 1;
    assert s.heap[s.chain[i]].next == s.chain[j];
  }

  ghost function PhaseOf(s: State, t: Tid): Phase
    requires t in s.pc
  {
    match s.pc[t]
    case Idle => Quiet
    case Push(v, at) => if at.Release? || at.PushRet? then DonePut else WantPut(v)
    case Pop(k, at) =>
      match at
      case TailUnlock(seen) => if seen == s.head && !k.wait then DoneTake(None) else WantTake
      case Test(seen) => if seen == s.head && !k.wait then DoneTake(None) else WantTake
      case GiveUp => if k.wait then WantTake else DoneTake(None)
      case HeadUnlock(a, _, _) => DoneTake(if a in s.heap then s.heap[a].data else None)
      case TakePtr(a, _) => DoneTake(if a in s.heap then s.heap[a].data else None)
      case Free(_, _, res) => DoneTake(res)
      case PopRet(res) => DoneTake(res)
      case _ => WantTake
  }

  ghost function Abs(s: State): Spec
    requires Inv(s)
  {
    Spec(Items(s), map t | t in s.pc :: PhaseOf(s, t))
  }

  /** A step of `t` does not move another thread `u`, nor the head while `u` has it locked, nor the value
      in a node that holds a queued value or belongs to another thread. */
  ghost predicate Gentle(s: State, s': State, t: Tid, b: Addr, u: Tid) {
    && t in s'.pc && (u in s'.pc <==> u in s.pc) && (u in s.pc && u != t ==> s'.pc[u] == s.pc[u])
    && (u in s.pc && u != t && HoldsHead(s.pc[u]) ==> s'.head == s.head)
    && (b in s.heap && b != s.tail && (s.heap[b].place == Linked
        || (s.heap[b].place.Popped? && s.heap[b].place.t != t)) ==>
          b in s'.heap && s'.heap[b].data == s.heap[b].data)
  }

  lemma PushGentle(s: State, t: Tid, v: Value, at: PushAt, c: Choice, b: Addr, u: Tid)
    requires Inv(s) && t in s.pc && s.pc[t] == Push(v, at)
    ensures Gentle(s, PushStep(s, t, v, at, c), t, b, u)
  {
    assert ThreadInv(s, t);
  }

  lemma PopGentle(s: State, t: Tid, k: Kind, at: PopAt, b: Addr, u: Tid)
    requires Inv(s) && t in s.pc && s.pc[t] == Pop(k, at)
    ensures Gentle(s, PopStep(s, t, k, at), t, b, u)
  {
    assert ThreadInv(s, t);
    if u in s.pc {
      assert ThreadInv(s, u);
    }
  }

  lemma StepGentle(s: State, t: Tid, c: Choice, b: Addr, u: Tid)
    requires Inv(s) && t in s.pc
    ensures Gentle(s, Step(s, t, c), t, b, u)
  {
    match s.pc[t]
    case Idle =>
    case Push(v, at) => PushGentle(s, t, v, at, c, b, u);
    case Pop(k, at) => PopGentle(s, t, k, at, b, u);
  }

  lemma OtherPhase(s: State, s': State, t: Tid, u: Tid)
    requires Inv(s) && u in s.pc && u != t
    requires Gentle(s, s', t, if RoleOf(s.pc[u]).Popper? then RoleOf(s.pc[u]).a else NULL, u)
    ensures u in s'.pc && PhaseOf(s', u) == PhaseOf(s, u)
  {
    assert ThreadInv(s, u);
  }

  lemma Phases(s: State, s': State, t: Tid)
    requires Inv(s) && Inv(s') && t in s.pc
    requires forall u :: u in s'.pc <==> u in s.pc
    requires forall u :: u in s.pc && u != t ==> PhaseOf(s', u) == PhaseOf(s, u)
    ensures Abs(s').phase == Abs(s).phase[t := PhaseOf(s', t)]
  {
  }

  /** What a step that does not change the list does to the phase of its thread. */
  ghost predicate Silently(s: State, s': State, t: Tid, e: Label)
    requires t in s.pc
  {
    t in s'.pc && s'.chain == s.chain && (e != Silent ==> e.t == t)
    && var p, p' := PhaseOf(s, t), PhaseOf(s', t);
       match e
       case Silent => p' == p
       case CallPut(_, v) => p == Quiet && p' == WantPut(v)
       case CallTake(_) => p == Quiet && p' == WantTake
       case EffectPut(_) => false
       case EffectTake(_) => p == WantTake && p' == DoneTake(None) && |s.chain| == 1
       case RetPut(_) => p == DonePut && p' == Quiet
       case RetTake(_, r) => p == DoneTake(r) && p' == Quiet
       case Abandon(_) => false
  }

  lemma PushSilent(s: State, t: Tid, c: Choice)
    requires Inv(s) && t in s.pc && s.pc[t].Push? && !s.pc[t].pushAt.Tail? && !Step(s, t, c).fault
    ensures Silently(s, Step(s, t, c), t, Event(s, t, c))
  {
    assert ThreadInv(s, t);
  }

  lemma ReadSilent(s: State, t: Tid, c: Choice)
    requires Inv(s) && t in s.pc && s.pc[t].Pop? && s.pc[t].popAt.TailRead?
    ensures Silently(s, Step(s, t, c), t, Event(s, t, c))
  {
    assert ThreadInv(s, t);
  }

  lemma PopSilent(s: State, t: Tid, c: Choice)
    requires Inv(s) && t in s.pc && s.pc[t].Pop? && !s.pc[t].popAt.TailRead? && !s.pc[t].popAt.Relink?
             && !Step(s, t, c).fault
    ensures Silently(s, Step(s, t, c), t, Event(s, t, c))
  {
    if Early(s.pc[t].popAt) {
      EarlySilent(s, t, c);
    } else {
      LateSilent(s, t, c);
    }
  }

  /** Before the head is moved. */
  predicate Early(at: PopAt) {
    at.HeadLock? || at.TailLock? || at.TailUnlock? || at.Test? || at.GiveUp?
  }

  lemma EarlySilent(s: State, t: Tid, c: Choice)
    requires Inv(s) && t in s.pc && s.pc[t].Pop? && Early(s.pc[t].popAt)
    ensures Silently(s, Step(s, t, c), t, Event(s, t, c))
  {
    assert ThreadInv(s, t);
  }

  lemma LateSilent(s: State, t: Tid, c: Choice)
    requires Inv(s) && t in s.pc && s.pc[t].Pop? && !Early(s.pc[t].popAt) && !s.pc[t].popAt.TailRead?
             && !s.pc[t].popAt.Relink?
    requires !Step(s, t, c).fault
    ensures Silently(s, Step(s, t, c), t, Event(s, t, c))
  {
    assert ThreadInv(s, t);
  }

  lemma StepSilent(s: State, t: Tid, c: Choice)
    requires Inv(s) && t in s.pc && !Step(s, t, c).fault
    requires !(s.pc[t].Push? && s.pc[t].pushAt.Tail?) && !(s.pc[t].Pop? && s.pc[t].popAt.Relink?)
    ensures Silently(s, Step(s, t, c), t, Event(s, t, c))
  {
    match s.pc[t]
    case Idle =>
    case Push(_, _) => PushSilent(s, t, c);
    case Pop(_, at) =>
      if at.TailRead? {
        ReadSilent(s, t, c);
      } else {
        PopSilent(s, t, c);
      }
  }

  lemma ItemsSame(s: State, s': State)
    requires ChainInv(s) && ChainInv(s') && s'.chain == s.chain
    requires forall i :: 0 <= i < |s.chain| - 1 ==> s'.heap[s.chain[i]].data == s.heap[s.chain[i]].data
    ensures Items(s') == Items(s)
  {
  }

  lemma OtherItems(s: State, t: Tid, c: Choice, s': State)
    requires Inv(s) && t in s.pc && s' == Step(s, t, c) && Inv(s') && s'.chain == s.chain
    ensures Items(s') == Items(s)
  {
    forall i | 0 <= i < |s.chain| - 1 ensures s'.heap[s.chain[i]].data == s.heap[s.chain[i]].data {
      StepGentle(s, t, c, s.chain[i], t);
    }
    ItemsSame(s, s');
  }

  /** Publishing the new dummy appends the value that was stored in the old one. */
  lemma PushMatches(s: State, t: Tid, c: Choice, s': State)
    requires Inv(s) && t in s.pc && s' == Step(s, t, c) && Inv(s') && t in s'.pc && s.pc[t].Push?
             && s.pc[t].pushAt.Tail?
    requires Abs(s').phase == Abs(s).phase[t := PhaseOf(s', t)]
    ensures Matches(Fifo, Abs(s), Abs(s'), t, EffectPut(t))
  {
    var v, n := s.pc[t].v, s.pc[t].pushAt.n;
    assert ThreadInv(s, t);
    assert forall i :: 0 <= i < |s.chain| ==> s.chain[i] != n;
    assert Items(s') == Items(s) + [v];
  }

  lemma RestItems(s: State, s': State)
    requires ChainInv(s) && ChainInv(s') && 2 <= |s.chain| && s'.chain == s.chain[1..]
    requires forall i :: 1 <= i < |s.chain| ==> s'.heap[s.chain[i]] == s.heap[s.chain[i]]
    ensures Items(s') == Items(s)[1..]
  {
  }

  lemma RelinkShape(s: State, t: Tid, k: Kind, a: Addr, id: nat, res: Option<Value>)
    requires Inv(s) && t in s.pc && s.pc[t] == Pop(k, Relink(a, id, res))
    ensures var s' := PopStep(s, t, k, Relink(a, id, res));
      && 2 <= |s.chain| && a == s.chain[0] && a in s.heap && s'.chain == s.chain[1..]
      && s'.heap == s.heap[a := s.heap[a].(next := NULL, place := Popped(t))]
      && t in s'.pc && s'.pc[t] == Pop(k, HeadUnlock(a, id, res))
  {
    assert ThreadInv(s, t);
  }

  /** Moving the head removes the first value, which is the one the pop returns. */
  lemma PopMatches(s: State, t: Tid, k: Kind, a: Addr, id: nat, res: Option<Value>, s': State)
    requires Inv(s) && t in s.pc && s.pc[t] == Pop(k, Relink(a, id, res)) && s' == PopStep(s, t, k, Relink(a, id, res))
    requires Inv(s') && t in s'.pc && Abs(s').phase == Abs(s).phase[t := PhaseOf(s', t)]
    ensures Matches(Fifo, Abs(s), Abs(s'), t, EffectTake(t))
  {
    RelinkShape(s, t, k, a, id, res);
    DataAt(s, 0);
    RestItems(s, s');
  }

  lemma SilentMatches(s: State, s': State, t: Tid, e: Label)
    requires Inv(s) && Inv(s') && t in s.pc && Silently(s, s', t, e) && Items(s') == Items(s)
    requires Abs(s').phase == Abs(s).phase[t := PhaseOf(s', t)]
    ensures Matches(Fifo, Abs(s), Abs(s'), t, e)
  {
    assert Abs(s).phase[t] == PhaseOf(s, t);
  }

  lemma StepRefines(s: State, t: Tid, c: Choice)
    requires Inv(s) && t in s.pc
    ensures Inv(Step(s, t, c))
    ensures SpecStep(Fifo, Abs(s), Event(s, t, c)) == Some(Abs(Step(s, t, c)))
  {
    StepInv(s, t, c);
    var s' := Step(s, t, c);
    forall u ensures u in s'.pc <==> u in s.pc {
      StepGentle(s, t, c, NULL, u);
    }
    forall u | u in s.pc && u != t ensures PhaseOf(s', u) == PhaseOf(s, u) {
      StepGentle(s, t, c, if RoleOf(s.pc[u]).Popper? then RoleOf(s.pc[u]).a else NULL, u);
      OtherPhase(s, s', t, u);
    }
    Phases(s, s', t);
    if s.pc[t].Push? && s.pc[t].pushAt.Tail? {
      PushMatches(s, t, c, s');
    } else if s.pc[t].Pop? && s.pc[t].popAt.Relink? {
      PopMatches(s, t, s.pc[t].k, s.pc[t].popAt.node, s.pc[t].popAt.id, s.pc[t].popAt.res, s');
    } else {
      StepSilent(s, t, c);
      OtherItems(s, t, c, s');
      SilentMatches(s, s', t, Event(s, t, c));
    }
    MatchesStep(Fifo, Abs(s), Abs(s'), t, Event(s, t, c));
  }
}
