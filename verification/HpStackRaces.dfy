/** The hazard-pointer stack is free of data races on the fields of its nodes and of its reclaim records. */
module HpStackRaces {
  import opened Wrappers
  import opened LinearSpec
  import opened HpStack
  import opened HpStackInvariant
  import opened HpStackTheorems

  // ---------------------------------------------------------------- the accesses of a step

  /** What is not atomic: the fields of a node, and a reclaim record. */
  datatype Location = NextOf(a: Addr) | DataOf(a: Addr) | RecordAt(r: Addr)

  /** What the next step of `t` may write; a failing compare-exchange writes its expected value, and a
      deletion writes the whole object. */
  function Writes(s: State, t: Tid): set<Location>
    requires t in s.pc
  {
    match s.pc[t]
    case PushLoad(n, _, _) => {NextOf(n)}
    case PushCas(n, _, _) => {NextOf(n)}
    case PopData(seen, _) => {DataOf(seen)}
    case PopFree(seen, _, _) => {NextOf(seen), DataOf(seen)}
    case AddLoad(r, _, _, _, _, _) => {RecordAt(r)}
    case AddCas(r, _, _, _, _, _) => {RecordAt(r)}
    case SweepFree(r, _, p, _, _, _) => {NextOf(p), DataOf(p), RecordAt(r)}
    case _ => {}
  }

  /** What else it reads. */
  function Reads(s: State, t: Tid): set<Location>
    requires t in s.pc
  {
    match s.pc[t]
    case PopNext(seen, _) => {NextOf(seen)}
    case SweepNext(next, _, _) => if next == NULL then {} else {RecordAt(next)}
    case _ => {}
  }

  predicate SameRecord(x: Rec, x': Rec) {
    x'.node == x.node && x'.nodeId == x.nodeId && x'.next == x.next
  }

  /** From `s` to `s'` only the locations in `w` have been written; at most the objects at `spare` are new. */
  ghost predicate WritesOnly(s: State, s': State, w: set<Location>, spare: Addr) {
    && (forall a :: a in s.heap && NextOf(a) !in w ==> a in s'.heap && s'.heap[a].next == s.heap[a].next)
    && (forall a :: a in s.heap && DataOf(a) !in w ==> a in s'.heap && s'.heap[a].data == s.heap[a].data)
    && (forall r :: r in s.recs && RecordAt(r) !in w ==> r in s'.recs && SameRecord(s.recs[r], s'.recs[r]))
    && (forall a :: a in s'.heap && a !in s.heap ==> a == spare)
    && (forall r :: r in s'.recs && r !in s.recs ==> r == spare)
  }

  lemma AllocWrites(s: State, t: Tid, v: Value, a: Addr)
    ensures WritesOnly(s, DoAlloc(s, t, v, a), {}, a)
  {
  }

  lemma LinkWrites(s: State, t: Tid, n: Addr, id: nat, v: Value, spurious: bool, spare: Addr)
    ensures WritesOnly(s, DoPushCas(s, t, n, id, v, spurious), {NextOf(n)}, spare)
  {
  }

  lemma LoadWrites(s: State, t: Tid, n: Addr, id: nat, v: Value, spare: Addr)
    ensures WritesOnly(s, DoPushLoad(s, t, n, id, v), {NextOf(n)}, spare)
  {
  }

  lemma UnlinkWrites(s: State, t: Tid, seen: Addr, id: nat, nx: Addr, spare: Addr)
    ensures WritesOnly(s, DoPopCas(s, t, seen, id, nx), {}, spare)
  {
  }

  lemma DataWrites(s: State, t: Tid, seen: Addr, id: nat, spare: Addr)
    ensures WritesOnly(s, DoPopData(s, t, seen, id), {DataOf(seen)}, spare)
  {
  }

  lemma PopFreeWrites(s: State, t: Tid, seen: Addr, id: nat, res: Option<Value>, spare: Addr)
    ensures WritesOnly(s, DoPopFree(s, t, seen, id, res), {NextOf(seen), DataOf(seen)}, spare)
  {
  }

  lemma RetireWrites(s: State, t: Tid, seen: Addr, id: nat, res: Option<Value>, r: Addr)
    ensures WritesOnly(s, DoRetire(s, t, seen, id, res, r), {}, r)
  {
  }

  lemma TakeWrites(s: State, t: Tid, res: Option<Value>, spare: Addr)
    ensures WritesOnly(s, DoTake(s, t, res), {}, spare)
  {
  }

  lemma AddLoadWrites(s: State, t: Tid, r: Addr, rid: nat, next: Addr, mine: seq<Addr>, sweep: bool, res: Option<Value>,
                      spare: Addr)
    ensures WritesOnly(s, DoAddLoad(s, t, r, rid, next, mine, sweep, res), {RecordAt(r)}, spare)
  {
  }

  lemma AddCasWrites(s: State, t: Tid, r: Addr, rid: nat, next: Addr, mine: seq<Addr>, sweep: bool, res: Option<Value>,
                     spare: Addr)
    ensures WritesOnly(s, DoAddCas(s, t, r, rid, next, mine, sweep, res), {RecordAt(r)}, spare)
  {
    AddLoadWrites(s, t, r, rid, next, mine, sweep, res, spare);
  }

  lemma SweepFreeWrites(s: State, t: Tid, r: Addr, rid: nat, p: Addr, next: Addr, mine: seq<Addr>, res: Option<Value>,
                        spare: Addr)
    ensures WritesOnly(s, DoSweepFree(s, t, r, rid, p, next, mine, res), {NextOf(p), DataOf(p), RecordAt(r)}, spare)
  {
  }

  /** The steps that touch neither a node nor a record, except to read it. */
  predicate Light(p: Pc) {
    Part(p) == InSlot || p.PushRet? || p.PopLoad? || p.PopPublish? || p.PopCheck? || p.PopNext? || p.PopClear?
        || p.PopRet?
    || p.PopScan? || p.SweepNext? || p.SweepScan?
  }

  ghost predicate SameMemory(s: State, s': State) {
    s'.heap == s.heap && s'.recs == s.recs
  }

  lemma SlotLight(s: State, t: Tid, c: Choice)
    requires t in s.pc && Part(s.pc[t]) == InSlot
    ensures SameMemory(s, SlotStep(s, t, c))
  {
  }

  lemma PopLight(s: State, t: Tid)
    requires t in s.pc && Light(s.pc[t]) && Part(s.pc[t]) == InPop
    ensures SameMemory(s, PopStep(s, t))
  {
  }

  lemma SweepLight(s: State, t: Tid)
    requires t in s.pc && (s.pc[t].SweepNext? || s.pc[t].SweepScan?)
    ensures SameMemory(s, SweepStep(s, t))
  {
  }

  lemma LightWrites(s: State, t: Tid, c: Choice)
    requires t in s.pc && Light(s.pc[t])
    ensures SameMemory(s, Step(s, t, c))
  {
    match Part(s.pc[t])
    case InSlot => SlotLight(s, t, c);
    case InPop => PopLight(s, t);
    case InSweep => SweepLight(s, t);
    case InPush =>
    case InReclaim =>
  }

  lemma PushHeavy(s: State, t: Tid, c: Choice)
    requires t in s.pc && (s.pc[t].PushAlloc? || s.pc[t].PushLoad? || s.pc[t].PushCas?)
    ensures WritesOnly(s, Step(s, t, c), Writes(s, t), c.spare)
  {
    var p := s.pc[t];
    if p.PushAlloc? {
      AllocWrites(s, t, p.v, c.spare);
    } else if p.PushLoad? {
      LoadWrites(s, t, p.n, p.id, p.v, c.spare);
    } else {
      LinkWrites(s, t, p.n, p.id, p.v, c.spurious, c.spare);
    }
  }

  lemma UnlinkHeavy(s: State, t: Tid, c: Choice)
    requires t in s.pc && s.pc[t].PopCas?
    ensures WritesOnly(s, PopStep(s, t), Writes(s, t), c.spare)
  {
    UnlinkWrites(s, t, s.pc[t].seen, s.pc[t].id, s.pc[t].nx, c.spare);
    assert Writes(s, t) == {};
  }

  lemma PopHeavy(s: State, t: Tid, c: Choice)
    requires t in s.pc && (s.pc[t].PopData? || s.pc[t].PopFree?)
    ensures WritesOnly(s, Step(s, t, c), Writes(s, t), c.spare)
  {
    var p := s.pc[t];
    if p.PopData? {
      assert Step(s, t, c) == DoPopData(s, t, p.seen, p.id);
      DataWrites(s, t, p.seen, p.id, c.spare);
    } else {
      assert Step(s, t, c) == DoPopFree(s, t, p.seen, p.id, p.res);
      PopFreeWrites(s, t, p.seen, p.id, p.res, c.spare);
    }
  }

  lemma ListHeavy(s: State, t: Tid, c: Choice)
    requires t in s.pc && (s.pc[t].Retire? || s.pc[t].Take? || s.pc[t].SweepFree?)
    ensures WritesOnly(s, Step(s, t, c), Writes(s, t), c.spare)
  {
    var p := s.pc[t];
    if p.Retire? {
      RetireWrites(s, t, p.seen, p.id, p.res, c.spare);
    } else if p.Take? {
      TakeWrites(s, t, p.res, c.spare);
    } else {
      SweepFreeWrites(s, t, p.r, p.rid, p.p, p.next, p.mine, p.res, c.spare);
    }
  }

  lemma AddHeavy(s: State, t: Tid, c: Choice)
    requires t in s.pc && (s.pc[t].AddLoad? || s.pc[t].AddCas?)
    ensures WritesOnly(s, Step(s, t, c), Writes(s, t), c.spare)
  {
    var p := s.pc[t];
    if p.AddLoad? {
      AddLoadWrites(s, t, p.r, p.rid, p.next, p.mine, p.sweep, p.res, c.spare);
    } else {
      AddCasWrites(s, t, p.r, p.rid, p.next, p.mine, p.sweep, p.res, c.spare);
    }
  }

  lemma HeavyWrites(s: State, t: Tid, c: Choice)
    requires t in s.pc && !Light(s.pc[t])
    ensures WritesOnly(s, Step(s, t, c), Writes(s, t), c.spare)
  {
    var p := s.pc[t];
    if p.PushAlloc? || p.PushLoad? || p.PushCas? {
      PushHeavy(s, t, c);
    } else if p.PopCas? {
      UnlinkHeavy(s, t, c);
    } else if p.PopData? || p.PopFree? {
      PopHeavy(s, t, c);
    } else if p.AddLoad? || p.AddCas? {
      AddHeavy(s, t, c);
    } else {
      ListHeavy(s, t, c);
    }
  }

  /** `Writes` is all that a step writes. */
  lemma WritesAll(s: State, t: Tid, c: Choice)
    requires t in s.pc
    ensures WritesOnly(s, Step(s, t, c), Writes(s, t), c.spare)
  {
    if Light(s.pc[t]) {
      LightWrites(s, t, c);
    } else {
      HeavyWrites(s, t, c);
    }
  }

  /** `q` differs from `s` at most in fields and records that are not in `l`. */
  ghost predicate SameFor(s: State, q: State, l: set<Location>) {
    && q == s.(heap := q.heap, recs := q.recs) && q.heap.Keys == s.heap.Keys && q.recs.Keys == s.recs.Keys
    && (forall a :: a in s.heap ==> SameNode(s.heap[a], q.heap[a], NextOf(a) in l, DataOf(a) in l))
    && (forall r :: r in s.recs ==> q.recs[r].id == s.recs[r].id && (RecordAt(r) in l ==> q.recs[r] == s.recs[r]))
  }

  predicate SameNode(n: Node, n': Node, next: bool, data: bool) {
    n'.id == n.id && (next ==> n'.next == n.next) && (data ==> n'.data == n.data)
  }

  /** `q'` differs from `s'` at most in fields and records that are not in `w`. */
  ghost predicate SameResult(s': State, q': State, w: set<Location>) {
    && q' == s'.(heap := q'.heap, recs := q'.recs)
    && (forall a :: NextOf(a) in w && a in s'.heap ==> a in q'.heap && q'.heap[a].next == s'.heap[a].next)
    && (forall a :: DataOf(a) in w && a in s'.heap ==> a in q'.heap && q'.heap[a].data == s'.heap[a].data)
    && (forall r :: RecordAt(r) in w && r in s'.recs ==> r in q'.recs && q'.recs[r] == s'.recs[r])
  }

  lemma AllocReads(s: State, q: State, t: Tid, v: Value, a: Addr)
    requires SameFor(s, q, {})
    ensures SameResult(DoAlloc(s, t, v, a), DoAlloc(q, t, v, a), {})
  {
  }

  lemma LoadReads(s: State, q: State, t: Tid, n: Addr, id: nat, v: Value)
    requires SameFor(s, q, {NextOf(n)})
    ensures SameResult(DoPushLoad(s, t, n, id, v), DoPushLoad(q, t, n, id, v), {NextOf(n)})
  {
  }

  lemma LinkReads(s: State, q: State, t: Tid, n: Addr, id: nat, v: Value, spurious: bool)
    requires SameFor(s, q, {NextOf(n)})
    ensures SameResult(DoPushCas(s, t, n, id, v, spurious), DoPushCas(q, t, n, id, v, spurious), {NextOf(n)})
  {
    LoadReads(s, q, t, n, id, v);
  }

  lemma NextReads(s: State, q: State, t: Tid, seen: Addr, id: nat)
    requires SameFor(s, q, {NextOf(seen)})
    ensures SameResult(DoPopNext(s, t, seen, id), DoPopNext(q, t, seen, id), {})
  {
  }

  lemma UnlinkReads(s: State, q: State, t: Tid, seen: Addr, id: nat, nx: Addr)
    requires SameFor(s, q, {})
    ensures SameResult(DoPopCas(s, t, seen, id, nx), DoPopCas(q, t, seen, id, nx), {})
  {
  }

  lemma DataReads(s: State, q: State, t: Tid, seen: Addr, id: nat)
    requires SameFor(s, q, {DataOf(seen)})
    ensures SameResult(DoPopData(s, t, seen, id), DoPopData(q, t, seen, id), {DataOf(seen)})
  {
  }

  lemma PopFreeReads(s: State, q: State, t: Tid, seen: Addr, id: nat, res: Option<Value>)
    requires SameFor(s, q, {NextOf(seen), DataOf(seen)})
    ensures SameResult(DoPopFree(s, t, seen, id, res), DoPopFree(q, t, seen, id, res), {NextOf(seen), DataOf(seen)})
  {
  }

  lemma RetireReads(s: State, q: State, t: Tid, seen: Addr, id: nat, res: Option<Value>, r: Addr)
    requires SameFor(s, q, {})
    ensures SameResult(DoRetire(s, t, seen, id, res, r), DoRetire(q, t, seen, id, res, r), {})
  {
  }

  lemma TakeReads(s: State, q: State, t: Tid, res: Option<Value>)
    requires SameFor(s, q, {})
    ensures SameResult(DoTake(s, t, res), DoTake(q, t, res), {})
  {
  }

  lemma AddLoadReads(s: State, q: State, t: Tid, r: Addr, rid: nat, next: Addr, mine: seq<Addr>, sweep: bool,
                     res: Option<Value>)
    requires SameFor(s, q, {RecordAt(r)})
    ensures SameResult(DoAddLoad(s, t, r, rid, next, mine, sweep, res), DoAddLoad(q, t, r, rid, next, mine, sweep, res),
                       {RecordAt(r)})
  {
  }

  lemma AddCasReads(s: State, q: State, t: Tid, r: Addr, rid: nat, next: Addr, mine: seq<Addr>, sweep: bool,
                    res: Option<Value>)
    requires SameFor(s, q, {RecordAt(r)})
    ensures SameResult(DoAddCas(s, t, r, rid, next, mine, sweep, res), DoAddCas(q, t, r, rid, next, mine, sweep, res),
                       {RecordAt(r)})
  {
    if LiveRec(s, r, rid) && s.rhead == s.recs[r].next {
      AddedReads(s, q, t, r, rid, next, mine, sweep, res);
    } else {
      AddLoadReads(s, q, t, r, rid, next, mine, sweep, res);
    }
  }

  lemma AddedReads(s: State, q: State, t: Tid, r: Addr, rid: nat, next: Addr, mine: seq<Addr>, sweep: bool,
                   res: Option<Value>)
    requires SameFor(s, q, {RecordAt(r)}) && LiveRec(s, r, rid) && s.rhead == s.recs[r].next
    ensures SameResult(DoAddCas(s, t, r, rid, next, mine, sweep, res), DoAddCas(q, t, r, rid, next, mine, sweep, res),
                       {RecordAt(r)})
  {
  }

  lemma SweepNextReads(s: State, q: State, t: Tid, next: Addr, mine: seq<Addr>, res: Option<Value>)
    requires SameFor(s, q, (if next == NULL then {} else {RecordAt(next)}))
    ensures SameResult(DoSweepNext(s, t, next, mine, res), DoSweepNext(q, t, next, mine, res), {})
  {
  }

  lemma SweepFreeReads(s: State, q: State, t: Tid, r: Addr, rid: nat, p: Addr, next: Addr, mine: seq<Addr>,
                       res: Option<Value>)
    requires SameFor(s, q, {NextOf(p), DataOf(p), RecordAt(r)})
    ensures SameResult(DoSweepFree(s, t, r, rid, p, next, mine, res), DoSweepFree(q, t, r, rid, p, next, mine, res),
                       {NextOf(p), DataOf(p), RecordAt(r)})
  {
  }

  lemma PushHeavyReads(s: State, q: State, t: Tid, c: Choice)
    requires t in s.pc && (s.pc[t].PushAlloc? || s.pc[t].PushLoad? || s.pc[t].PushCas?)
    requires SameFor(s, q, Reads(s, t) + Writes(s, t))
    ensures SameResult(PushStep(s, t, c), PushStep(q, t, c), Writes(s, t))
  {
    var p := s.pc[t];
    if p.PushAlloc? {
      AllocReads(s, q, t, p.v, c.spare);
    } else if p.PushLoad? {
      LoadReads(s, q, t, p.n, p.id, p.v);
    } else {
      LinkReads(s, q, t, p.n, p.id, p.v, c.spurious);
    }
  }

  lemma PopHeavyReads(s: State, q: State, t: Tid, c: Choice)
    requires t in s.pc && (s.pc[t].PopNext? || s.pc[t].PopCas? || s.pc[t].PopData?)
    requires SameFor(s, q, Reads(s, t) + Writes(s, t))
    ensures SameResult(PopStep(s, t), PopStep(q, t), Writes(s, t))
  {
    var p := s.pc[t];
    if p.PopNext? {
      NextReads(s, q, t, p.seen, p.id);
    } else if p.PopCas? {
      UnlinkReads(s, q, t, p.seen, p.id, p.nx);
    } else {
      DataReads(s, q, t, p.seen, p.id);
    }
  }

  lemma PopFreeHeavyReads(s: State, q: State, t: Tid, c: Choice)
    requires t in s.pc && s.pc[t].PopFree?
    requires SameFor(s, q, Reads(s, t) + Writes(s, t))
    ensures SameResult(ReclaimStep(s, t, c), ReclaimStep(q, t, c), Writes(s, t))
  {
    var p := s.pc[t];
    assert Reads(s, t) + Writes(s, t) == {NextOf(p.seen), DataOf(p.seen)};
    PopFreeReads(s, q, t, p.seen, p.id, p.res);
  }

  lemma RetireHeavyReads(s: State, q: State, t: Tid, c: Choice)
    requires t in s.pc && s.pc[t].Retire?
    requires SameFor(s, q, Reads(s, t) + Writes(s, t))
    ensures SameResult(ReclaimStep(s, t, c), ReclaimStep(q, t, c), Writes(s, t))
  {
    var p := s.pc[t];
    assert Reads(s, t) + Writes(s, t) == {};
    RetireReads(s, q, t, p.seen, p.id, p.res, c.spare);
  }

  lemma TakeHeavyReads(s: State, q: State, t: Tid, c: Choice)
    requires t in s.pc && s.pc[t].Take?
    requires SameFor(s, q, Reads(s, t) + Writes(s, t))
    ensures SameResult(ReclaimStep(s, t, c), ReclaimStep(q, t, c), Writes(s, t))
  {
    var p := s.pc[t];
    assert Reads(s, t) + Writes(s, t) == {};
    TakeReads(s, q, t, p.res);
  }

  lemma AddLoadHeavyReads(s: State, q: State, t: Tid, c: Choice)
    requires t in s.pc && s.pc[t].AddLoad?
    requires SameFor(s, q, Reads(s, t) + Writes(s, t))
    ensures SameResult(SweepStep(s, t), SweepStep(q, t), Writes(s, t))
  {
    var p := s.pc[t];
    assert Reads(s, t) + Writes(s, t) == {RecordAt(p.r)};
    AddLoadReads(s, q, t, p.r, p.rid, p.next, p.mine, p.sweep, p.res);
  }

  lemma AddCasHeavyReads(s: State, q: State, t: Tid, c: Choice)
    requires t in s.pc && s.pc[t].AddCas?
    requires SameFor(s, q, Reads(s, t) + Writes(s, t))
    ensures SameResult(SweepStep(s, t), SweepStep(q, t), Writes(s, t))
  {
    var p := s.pc[t];
    assert Reads(s, t) + Writes(s, t) == {RecordAt(p.r)};
    AddCasReads(s, q, t, p.r, p.rid, p.next, p.mine, p.sweep, p.res);
  }

  lemma SweepNextHeavyReads(s: State, q: State, t: Tid, c: Choice)
    requires t in s.pc && s.pc[t].SweepNext?
    requires SameFor(s, q, Reads(s, t) + Writes(s, t))
    ensures SameResult(SweepStep(s, t), SweepStep(q, t), Writes(s, t))
  {
    var p := s.pc[t];
    assert Reads(s, t) + Writes(s, t) == if p.next == NULL then {} else {RecordAt(p.next)};
    SweepNextReads(s, q, t, p.next, p.mine, p.res);
  }

  lemma SweepFreeHeavyReads(s: State, q: State, t: Tid, c: Choice)
    requires t in s.pc && s.pc[t].SweepFree?
    requires SameFor(s, q, Reads(s, t) + Writes(s, t))
    ensures SameResult(SweepStep(s, t), SweepStep(q, t), Writes(s, t))
  {
    var p := s.pc[t];
    assert Reads(s, t) + Writes(s, t) == {NextOf(p.p), DataOf(p.p), RecordAt(p.r)};
    SweepFreeReads(s, q, t, p.r, p.rid, p.p, p.next, p.mine, p.res);
  }

  /** The steps that read neither a node nor a record. */
  predicate Local(p: Pc) {
    Light(p) && !p.PopNext? && !p.SweepNext?
  }

  lemma PublishLocal(s: State, q: State, t: Tid, p: Addr, then_: Pc)
    requires q == s.(heap := q.heap, recs := q.recs)
    ensures Publish(q, t, p, then_) == Publish(s, t, p, then_).(heap := q.heap, recs := q.recs)
  {
  }

  lemma GotoLocal(s: State, q: State, t: Tid, p: Pc)
    requires q == s.(heap := q.heap, recs := q.recs)
    ensures Goto(q, t, p) == Goto(s, t, p).(heap := q.heap, recs := q.recs)
  {
  }

  lemma ClaimLocal(s: State, q: State, t: Tid, i: nat)
    requires q == s.(heap := q.heap, recs := q.recs)
    ensures DoClaim(q, t, i) == DoClaim(s, t, i).(heap := q.heap, recs := q.recs)
  {
    if i < |s.slots| && s.slots[i].owner == None {
    } else {
      GotoLocal(s, q, t, if i + 1 < MAX_HAZARD_POINTERS then Claim(i + 1) else Thrown);
    }
  }

  lemma ReleaseLocal(s: State, q: State, t: Tid)
    requires q == s.(heap := q.heap, recs := q.recs)
    ensures DoRelease(q, t) == DoRelease(s, t).(heap := q.heap, recs := q.recs)
  {
  }

  lemma IdleLocal(s: State, q: State, t: Tid, c: Choice)
    requires t in s.pc && (s.pc[t].Idle? || s.pc[t].Thrown?) && q == s.(heap := q.heap, recs := q.recs)
    ensures SlotStep(q, t, c) == SlotStep(s, t, c).(heap := q.heap, recs := q.recs)
  {
    if SlotStep(s, t, c) != s {
      var p := if s.pc[t].Thrown? then Idle
               else if c.op.DoPush? then PushAlloc(c.op.v)
               else if c.op.DoPop? then if t in s.hp then PopLoad else Claim(0)
               else ExitClear;
      GotoLocal(s, q, t, p);
    }
  }

  lemma SlotLocal(s: State, q: State, t: Tid, c: Choice)
    requires t in s.pc && Part(s.pc[t]) == InSlot && q == s.(heap := q.heap, recs := q.recs)
    ensures SlotStep(q, t, c) == SlotStep(s, t, c).(heap := q.heap, recs := q.recs)
  {
    match s.pc[t]
    case Claim(i) => ClaimLocal(s, q, t, i);
    case ExitClear => PublishLocal(s, q, t, NULL, ExitRelease);
    case ExitRelease => ReleaseLocal(s, q, t);
    case _ => IdleLocal(s, q, t, c);
  }

  lemma CheckLocal(s: State, q: State, t: Tid, seen: Addr)
    requires SameFor(s, q, {})
    ensures DoPopCheck(q, t, seen) == DoPopCheck(s, t, seen).(heap := q.heap, recs := q.recs)
  {
    if s.head != seen {
      GotoLocal(s, q, t, PopPublish(s.head));
    } else if seen == NULL {
      GotoLocal(s, q, t, PopClear(NULL, 0));
    } else if seen in s.heap {
      GotoLocal(s, q, t, PopNext(seen, s.heap[seen].id));
    }
  }

  lemma PopLocal(s: State, q: State, t: Tid)
    requires t in s.pc && Part(s.pc[t]) == InPop && Local(s.pc[t])
    requires SameFor(s, q, {})
    ensures PopStep(q, t) == PopStep(s, t).(heap := q.heap, recs := q.recs)
  {
    match s.pc[t]
    case PopPublish(seen) => PublishLocal(s, q, t, seen, PopCheck(seen));
    case PopCheck(seen) => CheckLocal(s, q, t, seen);
    case PopClear(seen, id) => PublishLocal(s, q, t, NULL, if seen == NULL then PopRet(None) else PopData(seen, id));
    case PopLoad =>
    case PopRet(_) =>
  }

  lemma OtherLocal(s: State, q: State, t: Tid, c: Choice)
    requires t in s.pc && (s.pc[t].PushRet? || s.pc[t].PopScan? || s.pc[t].SweepScan?)
             && q == s.(heap := q.heap, recs := q.recs)
    ensures Step(q, t, c) == Step(s, t, c).(heap := q.heap, recs := q.recs)
  {
  }

  lemma LocalReads(s: State, q: State, t: Tid, c: Choice)
    requires t in s.pc && Local(s.pc[t]) && SameFor(s, q, {})
    ensures Step(q, t, c) == Step(s, t, c).(heap := q.heap, recs := q.recs)
  {
    match Part(s.pc[t])
    case InSlot => SlotLocal(s, q, t, c);
    case InPop => PopLocal(s, q, t);
    case _ => OtherLocal(s, q, t, c);
  }

  lemma ReclaimHeavyReads(s: State, q: State, t: Tid, c: Choice)
    requires t in s.pc && Part(s.pc[t]) == InReclaim && !Local(s.pc[t]) && SameFor(s, q, Reads(s, t) + Writes(s, t))
    ensures SameResult(ReclaimStep(s, t, c), ReclaimStep(q, t, c), Writes(s, t))
  {
    match s.pc[t]
    case PopFree(_, _, _) => PopFreeHeavyReads(s, q, t, c);
    case Retire(_, _, _) => RetireHeavyReads(s, q, t, c);
    case Take(_) => TakeHeavyReads(s, q, t, c);
  }

  lemma SweepHeavyReads(s: State, q: State, t: Tid, c: Choice)
    requires t in s.pc && Part(s.pc[t]) == InSweep && !Local(s.pc[t]) && SameFor(s, q, Reads(s, t) + Writes(s, t))
    ensures SameResult(SweepStep(s, t), SweepStep(q, t), Writes(s, t))
  {
    match s.pc[t]
    case AddLoad(_, _, _, _, _, _) => AddLoadHeavyReads(s, q, t, c);
    case AddCas(_, _, _, _, _, _) => AddCasHeavyReads(s, q, t, c);
    case SweepNext(_, _, _) => SweepNextHeavyReads(s, q, t, c);
    case SweepFree(_, _, _, _, _, _) => SweepFreeHeavyReads(s, q, t, c);
  }

  /** `Reads` and `Writes` are all that a step depends on. */
  lemma ReadsAll(s: State, q: State, t: Tid, c: Choice)
    requires t in s.pc && SameFor(s, q, Reads(s, t) + Writes(s, t))
    ensures SameResult(Step(s, t, c), Step(q, t, c), Writes(s, t))
  {
    if Local(s.pc[t]) {
      LocalReads(s, q, t, c);
    } else {
      match Part(s.pc[t])
      case InPush => PushHeavyReads(s, q, t, c);
      case InPop => PopHeavyReads(s, q, t, c);
      case InReclaim => ReclaimHeavyReads(s, q, t, c);
      case InSweep => SweepHeavyReads(s, q, t, c);
      case InSlot =>
    }
  }

  // ---------------------------------------------------------------- no race

  /** The node of an access: being pushed or unlinked by `t`, or set aside on a record of `t`. */
  ghost predicate Owns(s: State, t: Tid, a: Addr) {
    a in s.heap
    && match s.heap[a].place
       case Fresh(u) => u == t
       case Linked => false
       case Popped(u) => u == t
       case Retired(r) => r in s.recs && s.recs[r].place == Private(t)
  }

  lemma WritesOwn(s: State, t: Tid, x: Location)
    requires Inv(s) && t in s.pc && x in Writes(s, t)
    ensures if x.RecordAt? then x.r in s.recs && s.recs[x.r].place == Private(t) else Owns(s, t, x.a)
    ensures x.NextOf? ==> s.heap[x.a].place.Fresh? || ScanOf(s.pc[t]) == Scan(x.a, MAX_HAZARD_POINTERS)
  {
    assert ThreadInv(s, t);
    if s.pc[t].SweepFree? {
      assert RecInv(s, s.pc[t].r);
    }
  }

  lemma ReadsGuarded(s: State, u: Tid, x: Location)
    requires Inv(s) && u in s.pc && x in Reads(s, u)
    ensures !x.DataOf?
    ensures x.RecordAt? ==> x.r in s.recs && s.recs[x.r].place == Private(u)
    ensures x.NextOf? ==> RoleOf(s.pc[u]) == Guard(x.a) && x.a in s.heap && !s.heap[x.a].place.Fresh?
  {
    assert ThreadInv(s, u);
    if s.pc[u].SweepNext? && x.RecordAt? {
      assert s.pc[u].mine[0] == x.r;
    }
  }

  /** No data race: in every reachable state, no thread is about to write a field or a record that another
      is about to read or write; hazard pointers keep a node from being deleted under a reader. */
  lemma NoDataRace(threads: set<Tid>, sched: Schedule, t: Tid, u: Tid)
    requires t in Run(threads, sched).pc && u in Run(threads, sched).pc && t != u
    ensures Writes(Run(threads, sched), t) !! (Writes(Run(threads, sched), u) + Reads(Run(threads, sched), u))
  {
    RunInv(threads, sched);
    var s := Run(threads, sched);
    forall x | x in Writes(s, t) ensures x !in Writes(s, u) + Reads(s, u) {
      WritesOwn(s, t, x);
      if x in Writes(s, u) {
        WritesOwn(s, u, x);
      } else if x in Reads(s, u) {
        ReadsGuarded(s, u, x);
        if x.NextOf? {
          NoGuards(s, t);
        }
      }
    }
  }
}
