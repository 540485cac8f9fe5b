/** What holds in every run of the two-lock queue. */
module TwoLockQueueTheorems {
  import opened Wrappers
  import opened Allocation
  import opened LinearSpec
  import opened TwoLockQueue
  import opened TwoLockQueueInvariant
  import opened TwoLockQueueRefinement

  ghost function Ids(heap: map<Addr, Node>): (ids: map<Addr, nat>)
    ensures |ids| == |heap|
  {
    var ids := map a | a in heap :: heap[a].id;
    assert ids.Keys == heap.Keys;
    ids
  }

  /** Every serial number handed out belongs to exactly one live or deleted node. */
  ghost predicate Account(s: State) {
    Accounts(Ids(s.heap), s.freed, s.serial)
  }

  ghost predicate SameIds(s: State, s': State) {
    && s'.heap.Keys == s.heap.Keys && (forall a :: a in s.heap ==> s'.heap[a].id == s.heap[a].id)
    && s'.freed == s.freed && s'.serial == s.serial
  }

  lemma AccountSame(s: State, s': State)
    requires Account(s) && SameIds(s, s')
    ensures Account(s')
  {
    assert Ids(s'.heap) == Ids(s.heap);
  }

  predicate Allocates(p: Pc) {
    (p.Push? && p.pushAt.Alloc?) || (p.Pop? && p.popAt.Free?)
  }

  lemma OtherIds(s: State, t: Tid, c: Choice)
    requires t in s.pc && !Allocates(s.pc[t])
    ensures SameIds(s, Step(s, t, c))
  {
  }

  lemma AllocAccount(s: State, s': State, a: Addr, n: Node)
    requires Account(s) && a !in s.heap && n.id == s.serial
    requires s'.heap == s.heap[a := n] && s'.freed == s.freed && s'.serial == s.serial + 1
    ensures Account(s')
  {
    NewAccounted(Ids(s.heap), s.freed, s.serial, a);
    assert Ids(s'.heap) == Ids(s.heap)[a := s.serial];
  }

  lemma FreeAccount(s: State, s': State, a: Addr)
    requires Account(s) && a in s.heap
    requires s'.heap == s.heap - {a} && s'.freed == s.freed + {s.heap[a].id} && s'.serial == s.serial
    ensures Account(s')
  {
    FreeAccounted(Ids(s.heap), s.freed, s.serial, a);
    assert Ids(s'.heap) == Ids(s.heap) - {a};
  }

  lemma StepAccount(s: State, t: Tid, c: Choice)
    requires Account(s) && t in s.pc
    ensures Account(Step(s, t, c))
  {
    var s' := Step(s, t, c);
    if !Allocates(s.pc[t]) {
      OtherIds(s, t, c);
      AccountSame(s, s');
    } else if s.pc[t].Push? {
      if c.spare != NULL && c.spare !in s.heap {
        AllocAccount(s, s', c.spare, s'.heap[c.spare]);
      }
    } else if Live(s, s.pc[t].popAt.node, s.pc[t].popAt.id) {
      FreeAccount(s, s', s.pc[t].popAt.node);
    }
  }

  /** Linearizability: a push takes effect when it publishes the new dummy, a successful pop when it
      moves the head, a failed try_pop when it reads the tail; no step reaches a deleted node. */
  lemma {:induction false} RunRefines(threads: set<Tid>, sched: Schedule)
    ensures Inv(Run(threads, sched)) && Account(Run(threads, sched))
    ensures SpecRun(Fifo, Empty(threads), Trace(threads, sched)) == Some(Abs(Run(threads, sched)))
  {
    if sched == [] {
      assert Inv(Init(threads));
      assert Abs(Init(threads)) == Empty(threads);
    } else {
      var before := sched[..|sched| - 1];
      RunRefines(threads, before);
      var s := Run(threads, before);
      var (t, c) := sched[|sched| - 1];
      if t in s.pc {
        StepRefines(s, t, c);
        StepAccount(s, t, c);
      }
      SpecRunSnoc(Fifo, Empty(threads), Trace(threads, before), if t in s.pc then Event(s, t, c) else Silent);
    }
  }

  /** No value is lost, duplicated or invented: pushed values are those popped and those still queued. */
  lemma RunConserves(threads: set<Tid>, sched: Schedule)
    ensures Inv(Run(threads, sched))
    ensures Puts(Fifo, Empty(threads), Trace(threads, sched))
         == Takes(Fifo, Empty(threads), Trace(threads, sched)) + multiset(Items(Run(threads, sched)))
  {
    RunRefines(threads, sched);
    Conservation(Fifo, Empty(threads), Trace(threads, sched));
  }

  /** When no operation is in progress, the live nodes are the listed ones, and all others were deleted once. */
  lemma NothingLeaks(threads: set<Tid>, sched: Schedule)
    requires forall t :: t in Run(threads, sched).pc ==> Run(threads, sched).pc[t] == Idle
    ensures var s := Run(threads, sched);
      && (forall a :: a in s.heap <==> a in s.chain)
      && |s.freed| + |s.heap| == s.serial
  {
    RunRefines(threads, sched);
    var s := Run(threads, sched);
    forall a | a in s.heap ensures a in s.chain {
      assert NodeInv(s, a);
    }
  }

  /** The shared locations that are not mutexes. */
  datatype Location = HeadPtr | TailPtr | NodeAt(a: Addr)

  /** What the next step of `t` writes, and what it reads. */
  function Writes(s: State, t: Tid): set<Location>
    requires t in s.pc
  {
    match s.pc[t]
    case Idle => {}
    case Push(_, at) => if at.Data? || at.Next? then {NodeAt(s.tail)} else if at.Tail? then {TailPtr} else {}
    case Pop(_, at) =>
      match at
      case TakeValue => {NodeAt(s.head)}
      case MoveHead(_) => {HeadPtr}
      case Relink(a, _, _) => {HeadPtr, NodeAt(a)}
      case Free(a, _, _) => {NodeAt(a)}
      case _ => {}
  }

  function Reads(s: State, t: Tid): set<Location>
    requires t in s.pc
  {
    match s.pc[t]
    case Idle => {}
    case Push(_, at) => if at.Data? || at.Next? then {TailPtr} else {}
    case Pop(_, at) =>
      match at
      case TailRead => {TailPtr}
      case Test(_) => {HeadPtr}
      case TakeValue => {HeadPtr}
      case MoveHead(_) => {HeadPtr}
      case TakePtr(a, _) => {NodeAt(a)}
      case _ => {}
  }

  predicate SameNode(n: Node, n': Node) {
    n'.data == n.data && n'.next == n.next
  }

  /** From `s` to `s'` only the locations in `w` have been written; at most the node at `spare` is new. */
  ghost predicate WritesOnly(s: State, s': State, w: set<Location>, spare: Addr) {
    && (HeadPtr in w || s'.head == s.head) && (TailPtr in w || s'.tail == s.tail)
    && (forall a :: a in s.heap && NodeAt(a) !in w ==> a in s'.heap && SameNode(s.heap[a], s'.heap[a]))
    && (forall a :: a in s'.heap && a !in s.heap ==> a == spare)
  }

  lemma PushWrites(s: State, t: Tid, c: Choice)
    requires t in s.pc && s.pc[t].Push?
    ensures WritesOnly(s, Step(s, t, c), Writes(s, t), c.spare)
  {
  }

  lemma PopWrites(s: State, t: Tid, c: Choice)
    requires t in s.pc && s.pc[t].Pop?
    ensures WritesOnly(s, Step(s, t, c), Writes(s, t), c.spare)
  {
  }

  /** `Writes` is all that a step writes. */
  lemma WritesAll(s: State, t: Tid, c: Choice)
    requires t in s.pc
    ensures WritesOnly(s, Step(s, t, c), Writes(s, t), c.spare)
  {
    match s.pc[t]
    case Idle =>
    case Push(_, _) => PushWrites(s, t, c);
    case Pop(_, _) => PopWrites(s, t, c);
  }

  /** `t` is at the same point in two states that have the same mutexes and allocations, and the same
      values in the locations of `l`. */
  ghost predicate SameFor(s: State, r: State, t: Tid, l: set<Location>) {
    && t in s.pc && t in r.pc && r.pc[t] == s.pc[t] && r.headMutex == s.headMutex && r.tailMutex == s.tailMutex
    && r.serial == s.serial && (forall a :: a in r.heap <==> a in s.heap)
        && (forall a :: a in s.heap ==> r.heap[a].id == s.heap[a].id)
    && (HeadPtr in l ==> r.head == s.head) && (TailPtr in l ==> r.tail == s.tail)
    && (forall a :: a in s.heap && NodeAt(a) in l ==> SameNode(s.heap[a], r.heap[a]))
  }

  /** `t` is at the same point, and the locations of `w` have the same values. */
  ghost predicate SameResult(s': State, r': State, t: Tid, w: set<Location>) {
    && t in s'.pc && t in r'.pc && r'.pc[t] == s'.pc[t] && r'.headMutex == s'.headMutex && r'.tailMutex == s'.tailMutex
    && (HeadPtr in w ==> r'.head == s'.head) && (TailPtr in w ==> r'.tail == s'.tail)
    && (forall a :: NodeAt(a) in w ==>
          (a in r'.heap <==> a in s'.heap) && (a in s'.heap ==> SameNode(s'.heap[a], r'.heap[a])))
  }

  /** The next step of the thread is on a mutex only. */
  predicate AtMutex(p: Pc) {
    match p
    case Idle => false
    case Push(_, at) => at.Acquire? || at.Release?
    case Pop(_, at) => at.HeadLock? || at.TailLock? || at.TailUnlock? || at.GiveUp? || at.HeadUnlock?
  }

  lemma MutexReads(s: State, r: State, t: Tid, c: Choice)
    requires t in s.pc && AtMutex(s.pc[t])
    requires SameFor(s, r, t, Reads(s, t) + Writes(s, t))
    ensures SameResult(Step(s, t, c), Step(r, t, c), t, Writes(s, t))
  {
  }

  lemma FillReads(s: State, r: State, t: Tid, c: Choice)
    requires t in s.pc && s.pc[t].Push? && (s.pc[t].pushAt.Data? || s.pc[t].pushAt.Next?)
    requires SameFor(s, r, t, Reads(s, t) + Writes(s, t))
    ensures SameResult(Step(s, t, c), Step(r, t, c), t, Writes(s, t))
  {
  }

  lemma PushReads(s: State, r: State, t: Tid, c: Choice)
    requires t in s.pc && s.pc[t].Push? && !AtMutex(s.pc[t]) && !s.pc[t].pushAt.Data? && !s.pc[t].pushAt.Next?
    requires SameFor(s, r, t, Reads(s, t) + Writes(s, t))
    ensures SameResult(Step(s, t, c), Step(r, t, c), t, Writes(s, t))
  {
  }

  lemma UnlinkReads(s: State, r: State, t: Tid, c: Choice)
    requires t in s.pc && s.pc[t].Pop? && (s.pc[t].popAt.MoveHead? || s.pc[t].popAt.Free?)
    requires SameFor(s, r, t, Reads(s, t) + Writes(s, t))
    ensures SameResult(Step(s, t, c), Step(r, t, c), t, Writes(s, t))
  {
  }

  lemma RelinkReads(s: State, r: State, t: Tid, c: Choice)
    requires t in s.pc && s.pc[t].Pop? && s.pc[t].popAt.Relink?
    requires SameFor(s, r, t, Reads(s, t) + Writes(s, t))
    ensures SameResult(Step(s, t, c), Step(r, t, c), t, Writes(s, t))
  {
  }

  lemma TestReads(s: State, r: State, t: Tid, c: Choice)
    requires t in s.pc && s.pc[t].Pop? && (s.pc[t].popAt.TailRead? || s.pc[t].popAt.Test? || s.pc[t].popAt.PopRet?)
    requires SameFor(s, r, t, Reads(s, t) + Writes(s, t))
    ensures SameResult(Step(s, t, c), Step(r, t, c), t, Writes(s, t))
  {
  }

  lemma TakeReads(s: State, r: State, t: Tid, c: Choice)
    requires t in s.pc && s.pc[t].Pop? && (s.pc[t].popAt.TakeValue? || s.pc[t].popAt.TakePtr?)
    requires SameFor(s, r, t, Reads(s, t) + Writes(s, t))
    ensures SameResult(Step(s, t, c), Step(r, t, c), t, Writes(s, t))
  {
  }

  /** `Reads` and `Writes` are all that a step depends on: where they have the same values, it does the same. */
  lemma ReadsAll(s: State, r: State, t: Tid, c: Choice)
    requires t in s.pc && SameFor(s, r, t, Reads(s, t) + Writes(s, t))
    ensures SameResult(Step(s, t, c), Step(r, t, c), t, Writes(s, t))
  {
    var p := s.pc[t];
    if p.Idle? {
    } else if AtMutex(p) {
      MutexReads(s, r, t, c);
    } else if p.Push? {
      if p.pushAt.Data? || p.pushAt.Next? {
        FillReads(s, r, t, c);
      } else {
        PushReads(s, r, t, c);
      }
    } else if p.popAt.Relink? {
      RelinkReads(s, r, t, c);
    } else if p.popAt.MoveHead? || p.popAt.Free? {
      UnlinkReads(s, r, t, c);
    } else if p.popAt.TakeValue? || p.popAt.TakePtr? {
      TakeReads(s, r, t, c);
    } else {
      TestReads(s, r, t, c);
    }
  }

  lemma Separate(s: State, t: Tid, u: Tid)
    requires Inv(s) && t in s.pc && u in s.pc && t != u
    ensures Writes(s, t) !! (Writes(s, u) + Reads(s, u))
  {
    assert ThreadInv(s, t);
    assert ThreadInv(s, u);
    var last := |s.chain| - 1;
    assert last != 0 ==> s.chain[0] != s.chain[last];
  }

  /** No data race: no thread is ever about to write a location that another is about to read or
      write.  In particular no pop touches the node that a push is writing. */
  lemma NoDataRace(threads: set<Tid>, sched: Schedule, t: Tid, u: Tid)
    requires t in Run(threads, sched).pc && u in Run(threads, sched).pc && t != u
    ensures Writes(Run(threads, sched), t) !! (Writes(Run(threads, sched), u) + Reads(Run(threads, sched), u))
  {
    RunRefines(threads, sched);
    Separate(Run(threads, sched), t, u);
  }

  predicate Blocked(s: State, t: Tid)
    requires t in s.pc
  {
    match s.pc[t]
    case Idle => false
    case Push(_, at) => at.Acquire? && s.tailMutex.Some?
    case Pop(_, at) => (at.HeadLock? && s.headMutex.Some?) || (at.TailLock? && s.tailMutex.Some?)
  }

  /** No deadlock: behind every blocked thread there is a thread that holds a mutex and can move. */
  lemma NoDeadlock(threads: set<Tid>, sched: Schedule, t: Tid) returns (u: Tid)
    requires t in Run(threads, sched).pc && Blocked(Run(threads, sched), t)
    ensures var s := Run(threads, sched);
      u in s.pc && !Blocked(s, u) && (s.headMutex == Some(u) || s.tailMutex == Some(u))
  {
    RunRefines(threads, sched);
    var s := Run(threads, sched);
    u := if s.tailMutex.Some? then s.tailMutex.value else s.headMutex.value;
    assert ThreadInv(s, u);
  }
}
