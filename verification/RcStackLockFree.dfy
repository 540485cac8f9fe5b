/** When pop of the reference-counted stack is lock-free: exactly if at most one thread pops. */
module RcStackLockFree {
  import opened Wrappers
  import opened LinearSpec
  import opened RcStack
  import opened RcStackInvariant
  import opened RcStackTheorems
  import opened RcStackProgress

  // ---------------------------------------------------------------- stretches without progress

  function After(s: State, x: (Tid, Choice)): State {
    if x.0 in s.pc then Step(s, x.0, x.1) else s
  }

  function Exec(s: State, seg: Schedule): State
    decreases |seg|
  {
    if seg == [] then s else Exec(After(s, seg[0]), seg[1..])
  }

  /** Only the threads of `ps` are asked to pop. */
  predicate Allowed(seg: Schedule, ps: set<Tid>) {
    forall i :: 0 <= i < |seg| && seg[i].1.op.DoPop? ==> seg[i].0 in ps
  }

  predicate Progress(e: Label) {
    e.EffectPut? || e.EffectTake? || e.RetPut? || e.RetTake?
  }

  /** A step by which no operation takes effect or returns, and that is not delayed by the environment: no
      compare-exchange fails spuriously, and `new` returns an address that can be used. */
  predicate Quiet(s: State, t: Tid, c: Choice) {
    t in s.pc ==>
      && !Progress(Event(s, t, c))
      && (s.pc[t].PushCas? ==> !c.spurious)
      && (s.pc[t].PushAlloc? ==> c.spare != NULL && c.spare !in s.heap)
  }

  predicate AllQuiet(s: State, seg: Schedule)
    decreases |seg|
  {
    seg == [] || (Quiet(s, seg[0].0, seg[0].1) && AllQuiet(After(s, seg[0]), seg[1..]))
  }

  /** The number of steps of `t`. */
  function Steps(seg: Schedule, t: Tid): nat {
    if seg == [] then 0 else (if seg[0].0 == t then 1 else 0) + Steps(seg[1..], t)
  }

  /** If only threads of `ps` are asked to pop, then no thread ever makes more than `b` steps while no
      operation takes effect or returns. */
  ghost predicate Bounded(threads: set<Tid>, ps: set<Tid>, b: nat) {
    forall sched, seg, t ::
      Allowed(sched, ps) && Allowed(seg, ps) && AllQuiet(Run(threads, sched), seg) && t in threads ==>
        Steps(seg, t) <= b
  }

  // ---------------------------------------------------------------- one popper: the work left

  /** The quiet steps that `t` still can make if the head stays as it is. */
  function Own(s: State, t: Tid): nat {
    if t !in s.pc then 0
    else
      match s.pc[t]
      case Idle => 4
      case PushAlloc(_) => 2
      case PushLoad(_, _, _) => 1
      case PushCas(n, _, _) => if n in s.heap && s.heap[n].next == s.head then 0 else 1
      case PopFree(_, _, _) => 1
      case PopAdd(_, _, _) => 2
      case PopData(_, _) => 3
      case PopCas(seen, _, _) => if seen == s.head then 0 else 5
      case PopNext(seen, _) => if seen == s.head then 1 else 6
      case PopInc(seen) => if seen == s.head then 2 else 3
      case PopLoad => 3
      case RetryFree(_, _, seen) => if seen == s.head then 3 else 4
      case PopSub(_, _, seen) => if seen == s.head then 4 else 5
      case _ => 0
  }

  /** The sole popper can change the head, once more at most for each of its own steps. */
  function Potential(s: State, u: Tid, p: Tid): nat {
    Own(s, u) + if u == p then 0 else Own(s, p)
  }

  ghost predicate OnlyPops(s: State, p: Tid) {
    forall t :: t in s.pc && InPop(s.pc[t]) ==> t == p
  }

  lemma OwnDrops(s: State, t: Tid, c: Choice)
    requires Inv(s) && t in s.pc && Quiet(s, t, c) && !Step(s, t, c).fault
    ensures Own(Step(s, t, c), t) < Own(s, t)
  {
    assert PcInv(s, t);
  }

  /** What the step of `t` leaves to another thread `u`. */
  lemma OwnOfOther(s: State, t: Tid, c: Choice, u: Tid)
    requires Inv(s) && t in s.pc && u in s.pc && u != t && Quiet(s, t, c)
    requires InPop(s.pc[t]) ==> !InPop(s.pc[u])
    ensures Own(Step(s, t, c), u) <= Own(s, u) + if InPop(s.pc[t]) then 1 else 0
  {
    assert PcInv(s, t);
    assert PcInv(s, u);
  }

  lemma PcFrame(s: State, t: Tid, c: Choice)
    requires Inv(s) && t in s.pc
    ensures var s' := Step(s, t, c); t in s'.pc && s'.pc == s.pc[t := s'.pc[t]]
  {
    StepInv(s, t, c);
  }

  lemma EntersPop(s: State, t: Tid, c: Choice)
    requires t in s.pc && t in Step(s, t, c).pc && InPop(Step(s, t, c).pc[t])
    ensures InPop(s.pc[t]) || (s.pc[t] == Idle && c.op.DoPop?)
  {
  }

  /** A step that starts a pop is the popper's. */
  lemma StaysOnly(s: State, t: Tid, c: Choice, p: Tid)
    requires Inv(s) && t in s.pc && OnlyPops(s, p) && (s.pc[t] == Idle && c.op.DoPop? ==> t == p)
    ensures Step(s, t, c).pc.Keys == s.pc.Keys && OnlyPops(Step(s, t, c), p)
  {
    PcFrame(s, t, c);
    if InPop(Step(s, t, c).pc[t]) {
      EntersPop(s, t, c);
    }
  }

  /** Whoever moves, the potential of no thread rises, and that of the thread that moves drops. */
  lemma PotentialDrops(s: State, t: Tid, c: Choice, u: Tid, p: Tid)
    requires Inv(s) && OnlyPops(s, p) && t in s.pc && u in s.pc && Quiet(s, t, c) && !Step(s, t, c).fault
    ensures Potential(Step(s, t, c), u, p) <= Potential(s, u, p) - if t == u then 1 else 0
  {
    OwnDrops(s, t, c);
    if u != t {
      OwnOfOther(s, t, c, u);
    }
    if p in s.pc && p != t {
      OwnOfOther(s, t, c, p);
    } else if p !in s.pc {
      PcFrame(s, t, c);
    }
  }

  lemma {:induction false} StepsBound(s: State, seg: Schedule, ps: set<Tid>, u: Tid, p: Tid)
    requires Inv(s) && OnlyPops(s, p) && u in s.pc && AllQuiet(s, seg) && Allowed(seg, ps)
    requires forall t :: t in s.pc && t in ps ==> t == p
    ensures Steps(seg, u) <= Potential(s, u, p)
    decreases |seg|
  {
    if seg != [] {
      var (t, c) := seg[0];
      assert Allowed(seg[1..], ps);
      if t in s.pc {
        StepInv(s, t, c);
        StaysOnly(s, t, c, p);
        PotentialDrops(s, t, c, u, p);
      }
      StepsBound(After(s, seg[0]), seg[1..], ps, u, p);
    }
  }

  lemma {:induction false} RunOnly(threads: set<Tid>, sched: Schedule, ps: set<Tid>, p: Tid)
    requires Allowed(sched, ps) && forall t :: t in threads && t in ps ==> t == p
    ensures Run(threads, sched).pc.Keys == threads && OnlyPops(Run(threads, sched), p)
  {
    if sched == [] {
      assert Init(threads).pc.Keys == threads;
    } else {
      var n := |sched| - 1;
      var s := Run(threads, sched[..n]);
      RunOnly(threads, sched[..n], ps, p);
      RunInv(threads, sched[..n]);
      if sched[n].0 in s.pc {
        StaysOnly(s, sched[n].0, sched[n].1, p);
      }
    }
  }

  lemma SoleBounded(threads: set<Tid>, ps: set<Tid>, p: Tid)
    requires forall t :: t in threads && t in ps ==> t == p
    ensures Bounded(threads, ps, 12)
  {
    forall sched, seg, t | Allowed(sched, ps) && Allowed(seg, ps) && AllQuiet(Run(threads, sched), seg) && t in threads
      ensures Steps(seg, t) <= 12
    {
      RunInv(threads, sched);
      RunOnly(threads, sched, ps, p);
      StepsBound(Run(threads, sched), seg, ps, t, p);
    }
  }

  // ---------------------------------------------------------------- two poppers: no bound

  lemma {:induction false} StepsConcat(a: Schedule, b: Schedule, t: Tid)
    ensures Steps(a + b, t) == Steps(a, t) + Steps(b, t)
  {
    if a == [] {
      assert a + b == b;
    } else {
      assert (a + b)[1..] == a[1..] + b;
      StepsConcat(a[1..], b, t);
    }
  }

  lemma QuietCons(s: State, t: Tid, c: Choice, rest: Schedule)
    requires t in s.pc && Quiet(s, t, c) && AllQuiet(Step(s, t, c), rest)
    ensures AllQuiet(s, [(t, c)] + rest)
  {
    assert ([(t, c)] + rest)[1..] == rest;
  }

  lemma HalfCount(t: Tid, u: Tid, c: Choice)
    requires t != u
    ensures Steps(Half(t, u, c), t) == 2 && Steps(Half(t, u, c), u) == 2
  {
    var x, y := (t, c), (u, c);
    assert [x, y, y, x][1..] == [y, y, x] && [y, y, x][1..] == [y, x] && [y, x][1..] == [x];
    assert Steps([x], t) == 1 + Steps([x][1..], t) && Steps([x], u) == Steps([x][1..], u);
    assert Steps([y, x], t) == 1 && Steps([y, x], u) == 1;
    assert Steps([y, y, x], t) == 1 && Steps([y, y, x], u) == 2;
  }

  lemma {:induction false} DuelSteps(t: Tid, u: Tid, c: Choice, n: nat)
    requires t != u
    ensures Steps(Duel(t, u, c, n), t) == 2 * n && Steps(Duel(t, u, c, n), u) == 2 * n
    decreases n
  {
    if n != 0 {
      DuelSteps(u, t, c, n - 1);
      HalfCount(t, u, c);
      StepsConcat(Half(t, u, c), Duel(u, t, c, n - 1), t);
      StepsConcat(Half(t, u, c), Duel(u, t, c, n - 1), u);
    }
  }

  lemma HalfQuiet(s: State, t: Tid, u: Tid, c: Choice, rest: Schedule) returns (s4: State)
    requires Race(s, t, u)
    ensures Race(s4, u, t) && (AllQuiet(s4, rest) ==> AllQuiet(s, Half(t, u, c) + rest))
  {
    var s1, s2, s3;
    s1, s2, s3, s4 := HalfSteps(s, t, u, c);
    if AllQuiet(s4, rest) {
      var r3 := [(t, c)] + rest;
      var r2 := [(u, c)] + r3;
      var r1 := [(u, c)] + r2;
      QuietCons(s3, t, c, rest);
      QuietCons(s2, u, c, r3);
      QuietCons(s1, u, c, r2);
      QuietCons(s, t, c, r1);
      assert Half(t, u, c) + rest == [(t, c)] + r1;
    }
  }

  /** A duel makes no progress, however long it is. */
  lemma {:induction false} DuelQuiet(s: State, t: Tid, u: Tid, c: Choice, n: nat)
    requires Race(s, t, u)
    ensures AllQuiet(s, Duel(t, u, c, n))
    decreases n
  {
    if n != 0 {
      var s4 := HalfQuiet(s, t, u, c, Duel(u, t, c, n - 1));
      DuelQuiet(s4, u, t, c, n - 1);
    }
  }

  lemma {:induction false} DuelAllowed(t: Tid, u: Tid, n: nat, ps: set<Tid>)
    requires t in ps && u in ps
    ensures Allowed(Duel(t, u, POP, n), ps)
    decreases n
  {
    if n != 0 {
      DuelAllowed(u, t, n - 1, ps);
    }
  }

  lemma SetupAllowed(t: Tid, u: Tid, v: Value, ps: set<Tid>)
    requires t in ps && u in ps
    ensures Allowed(Setup(t, u, v), ps)
  {
  }

  lemma PairUnbounded(threads: set<Tid>, ps: set<Tid>, t: Tid, u: Tid, v: Value, b: nat)
    requires t in threads && t in ps && u in threads && u in ps && t != u
    ensures !Bounded(threads, ps, b)
  {
    var sched, seg := Setup(t, u, v), Duel(t, u, POP, b + 1);
    RaceStarts(threads, t, u, v);
    DuelQuiet(Run(threads, sched), t, u, POP, b + 1);
    DuelSteps(t, u, POP, b + 1);
    DuelAllowed(t, u, b + 1, ps);
    SetupAllowed(t, u, v, ps);
    assert b < Steps(seg, t);
  }

  /** The stack is lock-free, with a bound on the steps a thread makes while no operation takes effect or
      returns, if and only if no two threads pop. */
  lemma LockFreeExactly(threads: set<Tid>, ps: set<Tid>, v: Value)
    ensures (exists b: nat :: Bounded(threads, ps, b))
       <==> forall t, u :: t in threads && t in ps && u in threads && u in ps ==> t == u
    ensures (exists b: nat :: Bounded(threads, ps, b)) ==> Bounded(threads, ps, 12)
  {
    if t, u :| t in threads && t in ps && u in threads && u in ps && t != u {
      forall b: nat ensures !Bounded(threads, ps, b) {
        PairUnbounded(threads, ps, t, u, v, b);
      }
    } else {
      var p := if t :| t in threads && t in ps then t else 0;
      SoleBounded(threads, ps, p);
    }
  }
}
