/** The counting stack is lock-free: from every reachable state there is a bound on the steps that all threads
    together can make before an operation takes effect or returns. */
module CountStackLockFree {
  import opened Wrappers
  import opened Finite
  import opened LinearSpec
  import opened CountStack
  import opened CountStackInvariant
  import opened CountStackRefinement
  import opened CountStackTheorems

  // ---------------------------------------------------------------- stretches without progress

  function After(s: State, x: (Tid, Choice)): State {
    if x.0 in s.pc then Step(s, x.0, x.1) else s
  }

  predicate Progress(e: Label) {
    e.EffectPut? || e.EffectTake? || e.RetPut? || e.RetTake?
  }

  /** A step by which no operation takes effect or returns, and that is not delayed by the environment: no
      compare-exchange fails spuriously, and `new` returns an address that can be used.  Nor does the run
      crash. */
  predicate Quiet(s: State, t: Tid, c: Choice) {
    && t in s.pc && !Step(s, t, c).crash && !Progress(Event(s, t, c)) && !c.spurious
    && (s.pc[t].PushAlloc? ==> c.spare != NULL && c.spare !in s.heap)
  }

  predicate AllQuiet(s: State, seg: Schedule)
    decreases |seg|
  {
    seg == [] || (Quiet(s, seg[0].0, seg[0].1) && AllQuiet(After(s, seg[0]), seg[1..]))
  }

  // ---------------------------------------------------------------- the work left

  /** The nodes that are not about to be pushed. */
  ghost function Used(heap: map<Addr, Node>): set<Addr> {
    set a | a in heap && !heap[a].place.Fresh?
  }

  function Behind(m: seq<Addr>, a: Addr): seq<Addr> {
    if m == [] then [] else if m[0] == a then m[1..] else Behind(m[1..], a)
  }

  function Links(s: State, a: Addr, p: Addr): bool {
    a in s.heap && s.heap[a].next == p
  }

  /** The steps of a thread in `try_reclaim` to its return, if the pending list stays as it is. */
  ghost function ReclaimLeft(s: State, a: Addr, at: Stage): nat {
    match at
    case Check => 2 * |Used(s.heap)| + 7
    case TakeList => 2 * |Used(s.heap)| + 6
    case Leave(_, mine) => 2 * |mine| + 5
    case DelNext(_, mine) => 2 * |mine| + 2
    case DelFree(_, _, _, mine) => 2 * |mine| + 1
    case Walk(_, last, mine) => |Behind(mine, last)| + 4
    case ChainLoad(_, _, _) => 3
    case ChainCas(_, last, _) => if Links(s, last, s.tbd) then 2 else 3
    case FreeOld => 1
    case ShareLoad => 3
    case ShareCas => if Links(s, a, s.tbd) then 2 else 3
    case ShareLeave => 1
  }

  /** The quiet steps that a thread can make, if head and pending list stay as they are. */
  ghost function Own(s: State, p: Pc): nat {
    match p
    case Idle => 4
    case PushAlloc(_) => 2
    case PushLoad(_, _, _) => 1
    case PushCas(n, _, _) => if Links(s, n, s.head) then 0 else 1
    case PopEnter => 3
    case PopLoad => 2
    case PopNext(seen, _) => if seen == s.head then 1 else 3
    case PopCas(seen, _, _) => if seen == s.head then 0 else 2
    case PopData(_, _) => 2 * |Used(s.heap)| + 8
    case Reclaim(a, _, _, at) => ReclaimLeft(s, a, at)
    case _ => 0
  }

  /** How often the thread may still change the pending list. */
  function Changes(p: Pc): nat {
    match p
    case PopData(_, _) => 2
    case Reclaim(_, _, _, at) =>
      if at.Check? || at.TakeList? then 2
      else if at.Leave? || at.Walk? || at.ChainLoad? || at.ChainCas? || at.ShareLoad? || at.ShareCas? then 1
      else 0
    case _ => 0
  }

  // ---------------------------------------------------------------- what a quiet step leaves of its own work

  lemma PushDrops(s: State, t: Tid, c: Choice)
    requires Inv(s) && Quiet(s, t, c) && AtPush(s.pc[t])
    ensures Works(s, Step(s, t, c), t)
  {
    assert ThreadInv(s, t);
  }

  lemma UsedSame(heap: map<Addr, Node>, heap': map<Addr, Node>)
    requires heap'.Keys == heap.Keys && forall a :: a in heap ==> heap'[a].place.Fresh? == heap[a].place.Fresh?
    ensures Used(heap') == Used(heap)
  {
  }

  lemma PopDrops(s: State, t: Tid, c: Choice)
    requires Inv(s) && Quiet(s, t, c) && !AtPush(s.pc[t]) && !s.pc[t].Reclaim?
    ensures Works(s, Step(s, t, c), t)
  {
    assert ThreadInv(s, t);
    assert s.chain != [] ==> s.head == s.chain[0];
    if s.pc[t].PopData? {
      UsedSame(s.heap, Step(s, t, c).heap);
    }
  }

  /** `t` has changed the pending list, or not; if so it may do it once less. */
  ghost predicate Works(s: State, s': State, t: Tid) {
    && t in s.pc && t in s'.pc && Own(s', s'.pc[t]) < Own(s, s.pc[t])
    && Changes(s'.pc[t]) + (if s'.tbd == s.tbd then 0 else 1) <= Changes(s.pc[t])
  }

  lemma TakeDrops(s: State, t: Tid, a: Addr, id: nat, res: Option<Value>)
    requires Inv(s) && t in s.pc && s.pc[t] == Reclaim(a, id, res, TakeList)
    ensures Works(s, DoTakeList(s, t, a, id, res), t)
  {
    forall i | 0 <= i < |s.pending| ensures s.pending[i] in Used(s.heap) {
      assert s.pending[i] in s.pending;
    }
    FitsIn(s.pending, Used(s.heap));
  }

  lemma LeaveDrops(s: State, t: Tid, a: Addr, id: nat, res: Option<Value>, first: Addr, mine: seq<Addr>)
    requires Inv(s) && t in s.pc && s.pc[t] == Reclaim(a, id, res, Leave(first, mine))
    ensures Works(s, DoLeave(s, t, a, id, res, first, mine), t)
  {
    assert ThreadInv(s, t);
    BehindLength(mine, first);
  }

  lemma {:induction false} BehindLength(m: seq<Addr>, a: Addr)
    ensures |Behind(m, a)| <= |m|
  {
    if m != [] && m[0] != a {
      BehindLength(m[1..], a);
    }
  }

  lemma DelNextDrops(s: State, t: Tid, a: Addr, id: nat, res: Option<Value>, first: Addr, mine: seq<Addr>)
    requires Inv(s) && t in s.pc && s.pc[t] == Reclaim(a, id, res, DelNext(first, mine))
    ensures Works(s, DoDelNext(s, t, a, id, res, first, mine), t)
  {
    assert ThreadInv(s, t);
    assert mine != [] ==> mine[0] in s.heap;
  }

  lemma DelFreeDrops(s: State, t: Tid, a: Addr, id: nat, res: Option<Value>, first: Addr, cid: nat, next: Addr,
                     mine: seq<Addr>)
    requires Inv(s) && t in s.pc && s.pc[t] == Reclaim(a, id, res, DelFree(first, cid, next, mine))
    ensures Works(s, DoDelFree(s, t, a, id, res, first, cid, next, mine), t)
  {
    assert ThreadInv(s, t);
    assert first == mine[0];
  }

  lemma {:induction false} BehindIs(m: seq<Addr>, k: nat)
    requires k < |m| && forall i, j :: 0 <= i < j < |m| ==> m[i] != m[j]
    ensures Behind(m, m[k]) == m[k + 1..]
  {
    if k != 0 {
      assert m[0] != m[k] && m[1..][k - 1] == m[k];
      BehindIs(m[1..], k - 1);
      assert m[1..][k..] == m[k + 1..];
    }
  }

  lemma WalkDrops(s: State, t: Tid, a: Addr, id: nat, res: Option<Value>, first: Addr, last: Addr, mine: seq<Addr>)
    requires Inv(s) && t in s.pc && s.pc[t] == Reclaim(a, id, res, Walk(first, last, mine))
    ensures Works(s, DoWalk(s, t, a, id, res, first, last, mine), t)
  {
    assert ThreadInv(s, t);
    var k :| 0 <= k < |mine| && mine[k] == last;
    BehindIs(mine, k);
    if k + 1 < |mine| {
      var j := k + 1;
      assert s.heap[mine[k]].next == mine[j];
      BehindIs(mine, j);
    }
  }

  lemma ChainDrops(s: State, t: Tid, a: Addr, id: nat, res: Option<Value>, first: Addr, last: Addr, mine: seq<Addr>,
                   spurious: bool)
    requires Inv(s) && t in s.pc && s.pc[t].Reclaim? && s.pc[t] == Reclaim(a, id, res, s.pc[t].at) && !spurious
    ensures s.pc[t].at == ChainLoad(first, last, mine) ==> Works(s, DoChainLoad(s, t, a, id, res, first, last, mine), t)
    ensures s.pc[t].at == ChainCas(first, last, mine) ==>
              Works(s, DoChainCas(s, t, a, id, res, first, last, mine, spurious), t)
  {
    assert ThreadInv(s, t);
    if HoardOf(s.pc[t]).Open? {
      assert s.pc[t].at.last == s.pc[t].at.mine[|s.pc[t].at.mine| - 1];
    }
  }

  lemma ShareDrops(s: State, t: Tid, a: Addr, id: nat, res: Option<Value>, spurious: bool)
    requires Inv(s) && t in s.pc && s.pc[t].Reclaim? && s.pc[t] == Reclaim(a, id, res, s.pc[t].at) && !spurious
    ensures s.pc[t].at == ShareLoad && a != NULL ==> Works(s, DoShareLoad(s, t, a, id, res), t)
    ensures s.pc[t].at == ShareCas ==> Works(s, DoShareCas(s, t, a, id, res, spurious), t)
  {
    assert ThreadInv(s, t);
  }

  lemma EdgeDrops(s: State, t: Tid, c: Choice)
    requires Inv(s) && t in s.pc && s.pc[t].Reclaim?
             && (s.pc[t].at.Check? || s.pc[t].at.FreeOld? || s.pc[t].at.ShareLeave?)
    ensures Works(s, ReclaimStep(s, t, c), t)
  {
    assert ThreadInv(s, t);
  }

  lemma ReclaimDrops(s: State, t: Tid, c: Choice)
    requires Inv(s) && Quiet(s, t, c) && !s.crash && s.pc[t].Reclaim?
    ensures Works(s, ReclaimStep(s, t, c), t)
  {
    var a, id, res := s.pc[t].old_head, s.pc[t].oid, s.pc[t].res;
    match s.pc[t].at
    case TakeList => TakeDrops(s, t, a, id, res);
    case Leave(first, mine) => LeaveDrops(s, t, a, id, res, first, mine);
    case DelNext(first, mine) => DelNextDrops(s, t, a, id, res, first, mine);
    case DelFree(first, cid, next, mine) => DelFreeDrops(s, t, a, id, res, first, cid, next, mine);
    case Walk(first, last, mine) => WalkDrops(s, t, a, id, res, first, last, mine);
    case ChainLoad(first, last, mine) => ChainDrops(s, t, a, id, res, first, last, mine, c.spurious);
    case ChainCas(first, last, mine) => ChainDrops(s, t, a, id, res, first, last, mine, c.spurious);
    case ShareLoad => ShareDrops(s, t, a, id, res, c.spurious);
    case ShareCas => ShareDrops(s, t, a, id, res, c.spurious);
    case _ => EdgeDrops(s, t, c);
  }

  /** A quiet step is one step less for its thread. */
  lemma StepDrops(s: State, t: Tid, c: Choice)
    requires Inv(s) && Quiet(s, t, c)
    ensures Works(s, Step(s, t, c), t)
  {
    if s.crash {
    } else if s.pc[t].Reclaim? {
      ReclaimDrops(s, t, c);
    } else if AtPush(s.pc[t]) {
      PushDrops(s, t, c);
    } else {
      PopDrops(s, t, c);
    }
  }

  // ---------------------------------------------------------------- what it leaves to the others

  /** What the work of another thread depends on. */
  ghost predicate Mild(s: State, s': State, t: Tid) {
    && s'.head == s.head
    && (forall a :: a in s'.heap && !s'.heap[a].place.Fresh? ==> a in s.heap && !s.heap[a].place.Fresh?)
    && forall a, u :: a in s.heap && u != t && (s.heap[a].place == Fresh(u) || s.heap[a].place == Owned(u)) ==>
         a in s'.heap && s'.heap[a].next == s.heap[a].next
  }

  lemma OtherOwn(s: State, s': State, t: Tid, u: Tid)
    requires Inv(s) && Mild(s, s', t) && u in s.pc && u != t
    ensures Own(s', s.pc[u]) <= Own(s, s.pc[u]) + if s'.tbd == s.tbd then 0 else 1
  {
    assert ThreadInv(s, u);
    UsedLess(s.heap, s'.heap);
    if HoardOf(s.pc[u]).Open? {
      assert s.pc[u].at.last == s.pc[u].at.mine[|s.pc[u].at.mine| - 1];
    }
  }

  lemma UsedLess(heap: map<Addr, Node>, heap': map<Addr, Node>)
    requires forall a :: a in heap' && !heap'[a].place.Fresh? ==> a in heap && !heap[a].place.Fresh?
    ensures |Used(heap')| <= |Used(heap)|
  {
    Subset(Used(heap'), Used(heap));
  }

  lemma PushMild(s: State, t: Tid, c: Choice)
    requires Inv(s) && Quiet(s, t, c) && AtPush(s.pc[t])
    ensures Mild(s, Step(s, t, c), t)
  {
    assert ThreadInv(s, t);
  }

  lemma PopMild(s: State, t: Tid, c: Choice)
    requires Inv(s) && Quiet(s, t, c) && !AtPush(s.pc[t]) && !s.pc[t].Reclaim?
    ensures Mild(s, Step(s, t, c), t)
  {
    assert ThreadInv(s, t);
  }

  lemma LookMild(s: State, t: Tid, c: Choice)
    requires Inv(s) && t in s.pc && s.pc[t].Reclaim?
             && (s.pc[t].at.Check? || s.pc[t].at.Leave? || s.pc[t].at.DelNext? || s.pc[t].at.Walk?
                 || s.pc[t].at.ShareLeave?)
    ensures Mild(s, ReclaimStep(s, t, c), t)
  {
    assert ThreadInv(s, t);
  }

  lemma TakeMild(s: State, t: Tid, c: Choice)
    requires Inv(s) && t in s.pc && s.pc[t].Reclaim? && s.pc[t].at.TakeList?
    ensures Mild(s, ReclaimStep(s, t, c), t)
  {
    assert ThreadInv(s, t);
  }

  lemma FreeMild(s: State, t: Tid, c: Choice)
    requires Inv(s) && t in s.pc && s.pc[t].Reclaim? && (s.pc[t].at.DelFree? || s.pc[t].at.FreeOld?)
    ensures Mild(s, ReclaimStep(s, t, c), t)
  {
    assert ThreadInv(s, t);
  }

  lemma ChainMild(s: State, t: Tid, c: Choice)
    requires Inv(s) && t in s.pc && s.pc[t].Reclaim? && (s.pc[t].at.ChainLoad? || s.pc[t].at.ChainCas?)
    ensures Mild(s, ReclaimStep(s, t, c), t)
  {
    assert ThreadInv(s, t);
  }

  lemma ShareMild(s: State, t: Tid, c: Choice)
    requires Inv(s) && t in s.pc && s.pc[t].Reclaim? && (s.pc[t].at.ShareLoad? || s.pc[t].at.ShareCas?)
    ensures Mild(s, ReclaimStep(s, t, c), t)
  {
    assert ThreadInv(s, t);
  }

  lemma ReclaimMild(s: State, t: Tid, c: Choice)
    requires Inv(s) && t in s.pc && s.pc[t].Reclaim?
    ensures Mild(s, ReclaimStep(s, t, c), t)
  {
    var at := s.pc[t].at;
    if at.TakeList? {
      TakeMild(s, t, c);
    } else if at.DelFree? || at.FreeOld? {
      FreeMild(s, t, c);
    } else if at.ChainLoad? || at.ChainCas? {
      ChainMild(s, t, c);
    } else if at.ShareLoad? || at.ShareCas? {
      ShareMild(s, t, c);
    } else {
      LookMild(s, t, c);
    }
  }

  lemma StepMild(s: State, t: Tid, c: Choice)
    requires Inv(s) && Quiet(s, t, c)
    ensures Mild(s, Step(s, t, c), t)
  {
    if s.crash {
    } else if s.pc[t].Reclaim? {
      ReclaimMild(s, t, c);
    } else if AtPush(s.pc[t]) {
      PushMild(s, t, c);
    } else {
      PopMild(s, t, c);
    }
  }

  // ---------------------------------------------------------------- all threads together

  /** The work of the threads of `order`; a change of the pending list counts for the compare-exchange that it
      makes every other thread repeat. */
  ghost function Work(s: State, order: seq<Tid>, n: nat): nat {
    if order == [] then 0
    else Share(s, order[0], n) + Work(s, order[1..], n)
  }

  /** The share of one thread does not rise beyond the one repetition. */
  lemma {:induction false} OthersWork(s: State, s': State, t: Tid, order: seq<Tid>, n: nat)
    requires Inv(s) && Mild(s, s', t) && t in s.pc && t in s'.pc && s'.pc == s.pc[t := s'.pc[t]] && t !in order
    ensures Work(s', order, n) <= Work(s, order, n) + if s'.tbd == s.tbd then 0 else |order|
  {
    if order != [] {
      OthersWork(s, s', t, order[1..], n);
      OtherShare(s, s', t, order[0], n);
    }
  }

  /** The share of one thread. */
  ghost function Share(s: State, u: Tid, n: nat): nat {
    if u in s.pc then Own(s, s.pc[u]) + n * Changes(s.pc[u]) else 0
  }

  lemma OtherShare(s: State, s': State, t: Tid, u: Tid, n: nat)
    requires Inv(s) && Mild(s, s', t) && t in s.pc && t in s'.pc && s'.pc == s.pc[t := s'.pc[t]] && u != t
    ensures Share(s', u, n) <= Share(s, u, n) + if s'.tbd == s.tbd then 0 else 1
  {
    if u in s.pc {
      OtherOwn(s, s', t, u);
    }
  }

  lemma {:induction false} WorkDrops(s: State, s': State, t: Tid, order: seq<Tid>, n: nat)
    requires Inv(s) && Mild(s, s', t) && Works(s, s', t) && s'.pc == s.pc[t := s'.pc[t]]
    requires t in order && Distinct(order)
    ensures if s'.tbd == s.tbd then Work(s', order, n) + 1 <= Work(s, order, n)
            else Work(s', order, n) + 1 + n <= Work(s, order, n) + |order| - 1
  {
    var u := order[0];
    if u == t {
      OwnWork(s, s', t, n);
      assert forall i :: 0 <= i < |order[1..]| ==> order[1..][i] == order[i + 1];
      OthersWork(s, s', t, order[1..], n);
    } else {
      assert order == [u] + order[1..];
      WorkDrops(s, s', t, order[1..], n);
      OtherShare(s, s', t, u, n);
    }
  }

  lemma OwnWork(s: State, s': State, t: Tid, n: nat)
    requires Works(s, s', t)
    ensures Share(s', t, n) + (if s'.tbd == s.tbd then 0 else n) < Share(s, t, n)
  {
    Spent(n, Changes(s.pc[t]), Changes(s'.pc[t]), s'.tbd != s.tbd, Own(s, s.pc[t]), Own(s', s'.pc[t]));
  }

  lemma PcFrame(s: State, t: Tid, c: Choice)
    requires Inv(s) && t in s.pc
    ensures var s' := Step(s, t, c); t in s'.pc && s'.pc == s.pc[t := s'.pc[t]]
  {
    forall u
      ensures u in Step(s, t, c).pc <==> u in s.pc
      ensures u in s.pc && u != t ==> Step(s, t, c).pc[u] == s.pc[u]
    {
      StepGentle(s, t, c, NULL, u);
    }
    StepGentle(s, t, c, NULL, t);
  }

  /** Whoever moves, a quiet step is one step less for all together. */
  lemma StepWork(s: State, t: Tid, c: Choice, order: seq<Tid>)
    requires Inv(s) && Quiet(s, t, c) && t in order && Distinct(order)
    ensures Work(Step(s, t, c), order, |order|) < Work(s, order, |order|)
  {
    var s', n := Step(s, t, c), |order|;
    StepDrops(s, t, c);
    StepMild(s, t, c);
    PcFrame(s, t, c);
    WorkDrops(s, s', t, order, n);
  }

  lemma {:induction false} SegmentBound(s: State, seg: Schedule, order: seq<Tid>)
    requires Inv(s) && AllQuiet(s, seg) && (forall t :: t in s.pc ==> t in order)
    requires Distinct(order)
    ensures |seg| <= Work(s, order, |order|)
    decreases |seg|
  {
    if seg != [] {
      var (t, c) := seg[0];
      StepInv(s, t, c);
      PcFrame(s, t, c);
      StepWork(s, t, c, order);
      SegmentBound(Step(s, t, c), seg[1..], order);
    }
  }

  /** Lock-freedom: from every reachable state there is a bound on the steps in which no operation takes effect
      or returns, whichever threads make them; so in every long enough stretch of a run some operation does,
      unless the run crashes. */
  lemma LockFree(threads: set<Tid>, sched: Schedule) returns (b: nat)
    ensures forall seg :: AllQuiet(Run(threads, sched), seg) ==> |seg| <= b
  {
    RunInv(threads, sched);
    var s := Run(threads, sched);
    var order := Enumerate(s.pc.Keys);
    b := Work(s, order, |order|);
    forall seg | AllQuiet(s, seg) ensures |seg| <= b {
      SegmentBound(s, seg, order);
    }
  }
}
