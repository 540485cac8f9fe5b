/** Data races of the counting stack: `next` is a plain field that chaining rewrites while a slower pop may
    still be about to read it. */
module CountStackRaces {
  import opened Wrappers
  import opened LinearSpec
  import opened CountStack
  import opened CountStackInvariant
  import opened CountStackRefinement
  import opened CountStackTheorems

  // ---------------------------------------------------------------- the accesses of a step

  /** The fields of a node that are not atomic. */
  datatype Location = NextOf(a: Addr) | DataOf(a: Addr)

  /** What the next step of `t` may write; a failing compare-exchange writes its expected value, and a
      deletion writes the whole node. */
  function Writes(s: State, t: Tid): set<Location>
    requires t in s.pc
  {
    match s.pc[t]
    case PushLoad(n, _, _) => {NextOf(n)}
    case PushCas(n, _, _) => {NextOf(n)}
    case PopData(seen, _) => {DataOf(seen)}
    case Reclaim(a, _, _, at) =>
      (match at
       case DelFree(first, _, _, _) => {NextOf(first), DataOf(first)}
       case ChainLoad(_, last, _) => {NextOf(last)}
       case ChainCas(_, last, _) => {NextOf(last)}
       case FreeOld => if a == NULL then {} else {NextOf(a), DataOf(a)}
       case ShareLoad => if a == NULL then {} else {NextOf(a)}
       case ShareCas => {NextOf(a)}
       case _ => {})
    case _ => {}
  }

  /** What else it reads. */
  function Reads(s: State, t: Tid): set<Location>
    requires t in s.pc
  {
    match s.pc[t]
    case PopNext(seen, _) => {NextOf(seen)}
    case Reclaim(_, _, _, at) =>
      if at.DelNext? && at.first != NULL then {NextOf(at.first)} else if at.Walk? then {NextOf(at.last)} else {}
    case _ => {}
  }

  ghost predicate Race(s: State, t: Tid, u: Tid) {
    t in s.pc && u in s.pc && t != u && !(Writes(s, t) !! (Writes(s, u) + Reads(s, u)))
  }

  /** From `s` to `s'` only the locations in `w` have been written; at most the node at `spare` is new. */
  ghost predicate WritesOnly(s: State, s': State, w: set<Location>, spare: Addr) {
    && (forall a :: a in s.heap && NextOf(a) !in w ==> a in s'.heap && s'.heap[a].next == s.heap[a].next)
    && (forall a :: a in s.heap && DataOf(a) !in w ==> a in s'.heap && s'.heap[a].data == s.heap[a].data)
    && (forall a :: a in s'.heap && a !in s.heap ==> a == spare)
  }

  lemma PushWrites(s: State, t: Tid, c: Choice)
    requires t in s.pc && !s.crash && AtPush(s.pc[t])
    ensures WritesOnly(s, Step(s, t, c), Writes(s, t), c.spare)
  {
  }

  lemma PopWrites(s: State, t: Tid, c: Choice)
    requires t in s.pc && !s.crash && !AtPush(s.pc[t]) && !s.pc[t].Reclaim?
    ensures WritesOnly(s, Step(s, t, c), Writes(s, t), c.spare)
  {
  }

  lemma TakeWrites(s: State, t: Tid, c: Choice)
    requires t in s.pc && !s.crash && s.pc[t].Reclaim?
             && (s.pc[t].at.Check? || s.pc[t].at.TakeList? || s.pc[t].at.Leave?)
    ensures WritesOnly(s, Step(s, t, c), Writes(s, t), c.spare)
  {
  }

  lemma DeleteWrites(s: State, t: Tid, c: Choice)
    requires t in s.pc && !s.crash && s.pc[t].Reclaim?
             && (s.pc[t].at.DelNext? || s.pc[t].at.DelFree? || s.pc[t].at.FreeOld?)
    ensures WritesOnly(s, Step(s, t, c), Writes(s, t), c.spare)
  {
  }

  lemma ChainWrites(s: State, t: Tid, c: Choice)
    requires t in s.pc && !s.crash && s.pc[t].Reclaim? && (s.pc[t].at.Walk? || s.pc[t].at.ChainLoad?)
    ensures WritesOnly(s, Step(s, t, c), Writes(s, t), c.spare)
  {
  }

  lemma RechainWrites(s: State, t: Tid, c: Choice)
    requires t in s.pc && !s.crash && s.pc[t].Reclaim? && s.pc[t].at.ChainCas?
    ensures WritesOnly(s, Step(s, t, c), Writes(s, t), c.spare)
  {
  }

  lemma ShareWrites(s: State, t: Tid, c: Choice)
    requires t in s.pc && !s.crash && s.pc[t].Reclaim?
             && (s.pc[t].at.ShareLoad? || s.pc[t].at.ShareCas? || s.pc[t].at.ShareLeave?)
    ensures WritesOnly(s, Step(s, t, c), Writes(s, t), c.spare)
  {
  }

  lemma ReclaimWrites(s: State, t: Tid, c: Choice)
    requires t in s.pc && !s.crash && s.pc[t].Reclaim?
    ensures WritesOnly(s, Step(s, t, c), Writes(s, t), c.spare)
  {
    match s.pc[t].at
    case Walk(_, _, _) => ChainWrites(s, t, c);
    case ChainLoad(_, _, _) => ChainWrites(s, t, c);
    case ChainCas(_, _, _) => RechainWrites(s, t, c);
    case DelNext(_, _) => DeleteWrites(s, t, c);
    case DelFree(_, _, _, _) => DeleteWrites(s, t, c);
    case FreeOld => DeleteWrites(s, t, c);
    case ShareLoad => ShareWrites(s, t, c);
    case ShareCas => ShareWrites(s, t, c);
    case ShareLeave => ShareWrites(s, t, c);
    case _ => TakeWrites(s, t, c);
  }

  /** `Writes` is all that a step writes. */
  lemma WritesAll(s: State, t: Tid, c: Choice)
    requires t in s.pc
    ensures WritesOnly(s, Step(s, t, c), Writes(s, t), c.spare)
  {
    if s.crash {
    } else if !s.pc[t].Reclaim? {
      if AtPush(s.pc[t]) {
        PushWrites(s, t, c);
      } else {
        PopWrites(s, t, c);
      }
    } else {
      ReclaimWrites(s, t, c);
    }
  }

  /** `r` differs from `s` at most in fields that are not in `l`. */
  ghost predicate SameFor(s: State, r: State, l: set<Location>) {
    && r == s.(heap := r.heap) && (forall a :: a in r.heap <==> a in s.heap)
    && (forall a :: a in s.heap ==> r.heap[a].id == s.heap[a].id && r.heap[a].place == s.heap[a].place)
    && (forall a :: a in s.heap && NextOf(a) in l ==> r.heap[a].next == s.heap[a].next)
    && (forall a :: a in s.heap && DataOf(a) in l ==> r.heap[a].data == s.heap[a].data)
  }

  /** `r'` differs from `s'` at most in fields that are not in `w`. */
  ghost predicate SameResult(s': State, r': State, w: set<Location>) {
    && r' == s'.(heap := r'.heap)
    && (forall a :: NextOf(a) in w && a in s'.heap ==> a in r'.heap && r'.heap[a].next == s'.heap[a].next)
    && (forall a :: DataOf(a) in w && a in s'.heap ==> a in r'.heap && r'.heap[a].data == s'.heap[a].data)
  }

  lemma PushReads(s: State, r: State, t: Tid, c: Choice)
    requires t in s.pc && !s.crash && AtPush(s.pc[t])
    requires SameFor(s, r, Reads(s, t) + Writes(s, t))
    ensures SameResult(Step(s, t, c), Step(r, t, c), Writes(s, t))
  {
  }

  lemma ArriveReads(s: State, r: State, t: Tid, c: Choice)
    requires t in s.pc && !s.crash && (s.pc[t].PopLoad? || s.pc[t].PopCas?)
    requires SameFor(s, r, Reads(s, t) + Writes(s, t))
    ensures SameResult(Step(s, t, c), Step(r, t, c), Writes(s, t))
  {
    if s.pc[t].PopCas? {
      var p := s.pc[t];
      assert Step(s, t, c) == DoPopCas(s, t, p.seen, p.id, p.nx, c.spurious);
      assert Step(r, t, c) == DoPopCas(r, t, p.seen, p.id, p.nx, c.spurious);
    } else {
      assert Step(s, t, c) == Arrive(s, t) && Step(r, t, c) == Arrive(r, t);
    }
  }

  lemma NodeReads(s: State, r: State, t: Tid, c: Choice)
    requires t in s.pc && !s.crash && (s.pc[t].PopNext? || s.pc[t].PopData?)
    requires SameFor(s, r, Reads(s, t) + Writes(s, t))
    ensures SameResult(Step(s, t, c), Step(r, t, c), Writes(s, t))
  {
  }

  lemma BorderReads(s: State, r: State, t: Tid, c: Choice)
    requires t in s.pc && !s.crash && (s.pc[t].PopEnter? || s.pc[t].PopRet?)
    requires SameFor(s, r, Reads(s, t) + Writes(s, t))
    ensures SameResult(Step(s, t, c), Step(r, t, c), Writes(s, t))
  {
  }

  lemma TakeReads(s: State, r: State, t: Tid, c: Choice)
    requires t in s.pc && !s.crash && s.pc[t].Reclaim?
             && (s.pc[t].at.Check? || s.pc[t].at.TakeList? || s.pc[t].at.Leave?)
    requires SameFor(s, r, Reads(s, t) + Writes(s, t))
    ensures SameResult(Step(s, t, c), Step(r, t, c), Writes(s, t))
  {
  }

  lemma NextReads(s: State, r: State, t: Tid, c: Choice)
    requires t in s.pc && !s.crash && s.pc[t].Reclaim? && s.pc[t].at.DelNext?
    requires SameFor(s, r, Reads(s, t) + Writes(s, t))
    ensures SameResult(Step(s, t, c), Step(r, t, c), Writes(s, t))
  {
  }

  lemma FreeReads(s: State, r: State, t: Tid, c: Choice)
    requires t in s.pc && !s.crash && s.pc[t].Reclaim? && (s.pc[t].at.DelFree? || s.pc[t].at.FreeOld?)
    requires SameFor(s, r, Reads(s, t) + Writes(s, t))
    ensures SameResult(Step(s, t, c), Step(r, t, c), Writes(s, t))
  {
  }

  lemma ChainReads(s: State, r: State, t: Tid, c: Choice)
    requires t in s.pc && !s.crash && s.pc[t].Reclaim? && (s.pc[t].at.Walk? || s.pc[t].at.ChainLoad?)
    requires SameFor(s, r, Reads(s, t) + Writes(s, t))
    ensures SameResult(Step(s, t, c), Step(r, t, c), Writes(s, t))
  {
  }

  lemma RechainReads(s: State, r: State, t: Tid, c: Choice)
    requires t in s.pc && !s.crash && s.pc[t].Reclaim? && s.pc[t].at.ChainCas?
    requires SameFor(s, r, Reads(s, t) + Writes(s, t))
    ensures SameResult(Step(s, t, c), Step(r, t, c), Writes(s, t))
  {
  }

  lemma ShareLoadReads(s: State, r: State, t: Tid, c: Choice)
    requires t in s.pc && !s.crash && s.pc[t].Reclaim? && (s.pc[t].at.ShareLoad? || s.pc[t].at.ShareLeave?)
    requires SameFor(s, r, Reads(s, t) + Writes(s, t))
    ensures SameResult(Step(s, t, c), Step(r, t, c), Writes(s, t))
  {
  }

  lemma ShareCasReads(s: State, r: State, t: Tid, c: Choice)
    requires t in s.pc && !s.crash && s.pc[t].Reclaim? && s.pc[t].at.ShareCas?
    requires SameFor(s, r, Reads(s, t) + Writes(s, t))
    ensures SameResult(Step(s, t, c), Step(r, t, c), Writes(s, t))
  {
  }

  lemma PopReads(s: State, r: State, t: Tid, c: Choice)
    requires t in s.pc && !s.crash && !AtPush(s.pc[t]) && !s.pc[t].Reclaim?
    requires SameFor(s, r, Reads(s, t) + Writes(s, t))
    ensures SameResult(Step(s, t, c), Step(r, t, c), Writes(s, t))
  {
    if s.pc[t].PopLoad? || s.pc[t].PopCas? {
      ArriveReads(s, r, t, c);
    } else if s.pc[t].PopNext? || s.pc[t].PopData? {
      NodeReads(s, r, t, c);
    } else {
      BorderReads(s, r, t, c);
    }
  }

  lemma ReclaimReads(s: State, r: State, t: Tid, c: Choice)
    requires t in s.pc && !s.crash && s.pc[t].Reclaim? && SameFor(s, r, Reads(s, t) + Writes(s, t))
    ensures SameResult(Step(s, t, c), Step(r, t, c), Writes(s, t))
  {
    match s.pc[t].at
    case Walk(_, _, _) => ChainReads(s, r, t, c);
    case ChainLoad(_, _, _) => ChainReads(s, r, t, c);
    case ChainCas(_, _, _) => RechainReads(s, r, t, c);
    case DelNext(_, _) => NextReads(s, r, t, c);
    case DelFree(_, _, _, _) => FreeReads(s, r, t, c);
    case FreeOld => FreeReads(s, r, t, c);
    case ShareLoad => ShareLoadReads(s, r, t, c);
    case ShareCas => ShareCasReads(s, r, t, c);
    case ShareLeave => ShareLoadReads(s, r, t, c);
    case _ => TakeReads(s, r, t, c);
  }

  /** `Reads` and `Writes` are all that a step depends on. */
  lemma ReadsAll(s: State, r: State, t: Tid, c: Choice)
    requires t in s.pc && SameFor(s, r, Reads(s, t) + Writes(s, t))
    ensures SameResult(Step(s, t, c), Step(r, t, c), Writes(s, t))
  {
    if s.crash {
    } else if !s.pc[t].Reclaim? {
      if AtPush(s.pc[t]) {
        PushReads(s, r, t, c);
      } else {
        PopReads(s, r, t, c);
      }
    } else {
      ReclaimReads(s, r, t, c);
    }
  }

  // ---------------------------------------------------------------- which accesses can be pending together

  /** The node a thread may write: one of its own. */
  lemma WritesOwn(s: State, t: Tid, x: Location)
    requires Inv(s) && t in s.pc && x in Writes(s, t)
    ensures x.a in s.heap && (s.heap[x.a].place == Fresh(t) || s.heap[x.a].place == Owned(t))
    ensures Uses(s.pc[t], x.a) && (s.heap[x.a].place == Owned(t) && x.NextOf? ==> s.pc[t].Reclaim?)
  {
    assert ThreadInv(s, t);
  }

  lemma ReadsUsed(s: State, u: Tid, x: Location)
    requires Inv(s) && u in s.pc && x in Reads(s, u)
    ensures Uses(s.pc[u], x.a) && (s.pc[u].PopNext? || (s.pc[u].Reclaim? && Hoards(HoardOf(s.pc[u]), x.a)))
  {
    assert ThreadInv(s, u);
  }

  lemma DeletesFreed(s: State, t: Tid, x: Location)
    requires Inv(s) && t in s.pc && x in Writes(s, t) && s.pc[t].Reclaim?
             && (s.pc[t].at.DelFree? || s.pc[t].at.FreeOld?)
    ensures x.a in s.heap && s.heap[x.a].place == Owned(t) && Frees(s.pc[t], x.a)
  {
    assert ThreadInv(s, t);
  }

  /** The only race: `t` chains a node, and `u` has loaded the node from the head but has not yet read its
      link. */
  ghost predicate ChainsUnread(s: State, t: Tid, u: Tid) {
    && t in s.pc && u in s.pc && t != u && s.pc[u].PopNext? && NextOf(s.pc[u].seen) in Writes(s, t)
    && s.pc[t].Reclaim? && (s.pc[t].at.ChainLoad? || s.pc[t].at.ChainCas? || s.pc[t].at.ShareLoad?
        || s.pc[t].at.ShareCas?)
  }

  lemma RaceIs(s: State, t: Tid, u: Tid)
    requires Inv(s)
    ensures Race(s, t, u) <==> ChainsUnread(s, t, u)
  {
    if Race(s, t, u) {
      var x :| x in Writes(s, t) && x in Writes(s, u) + Reads(s, u);
      WritesOwn(s, t, x);
      Others(s, t, x.a);
      if x in Writes(s, u) {
        WritesOwn(s, u, x);
        assert false;
      } else {
        ReadsUsed(s, u, x);
        assert s.pc[u].PopNext? && x == NextOf(s.pc[u].seen) && s.pc[t].Reclaim?;
        if s.pc[t].at.DelFree? || s.pc[t].at.FreeOld? {
          DeletesFreed(s, t, x);
          Unused(s, t, x.a);
        }
      }
    }
  }

  /** In every reachable state, two threads are about to access one field, one of them to write it, exactly
      if one chains a node whose link the other, which is in pop, has still to read. */
  lemma RacesAre(threads: set<Tid>, sched: Schedule, t: Tid, u: Tid)
    ensures var s := Run(threads, sched);
      && (Race(s, t, u) <==> ChainsUnread(s, t, u))
      && (Race(s, t, u) ==> Counted(s.pc[u]))
  {
    RunInv(threads, sched);
    RaceIs(Run(threads, sched), t, u);
  }

  // ---------------------------------------------------------------- a race can occur exactly if two threads pop

  /** Only the threads of `ps` are asked to pop. */
  predicate Allowed(sched: Schedule, ps: set<Tid>) {
    forall i :: 0 <= i < |sched| && sched[i].1.op.DoPop? ==> sched[i].0 in ps
  }

  ghost predicate RaceReachable(threads: set<Tid>, ps: set<Tid>) {
    exists sched, t, u :: Allowed(sched, ps) && Race(Run(threads, sched), t, u)
  }

  predicate InPop(p: Pc) {
    !AtPush(p)
  }

  lemma EntersPop(s: State, t: Tid, c: Choice)
    requires t in s.pc && t in Step(s, t, c).pc && !InPop(s.pc[t]) && InPop(Step(s, t, c).pc[t])
    ensures s.pc[t] == Idle && c.op.DoPop?
  {
  }

  lemma {:induction false} RunPoppers(threads: set<Tid>, sched: Schedule, ps: set<Tid>, u: Tid)
    requires Allowed(sched, ps)
    ensures var s := Run(threads, sched); (u in s.pc <==> u in threads) && (u in s.pc && InPop(s.pc[u]) ==> u in ps)
  {
    if sched != [] {
      var n := |sched| - 1;
      var s := Run(threads, sched[..n]);
      var (t, c) := sched[n];
      RunPoppers(threads, sched[..n], ps, u);
      RunInv(threads, sched[..n]);
      if t in s.pc {
        StepGentle(s, t, c, NULL, u);
        if u == t && u in s.pc && !InPop(s.pc[u]) && InPop(Step(s, t, c).pc[u]) {
          EntersPop(s, t, c);
        }
      }
    }
  }

  lemma Extend(threads: set<Tid>, sched: Schedule, s: State, t: Tid, c: Choice) returns (sched': Schedule, s': State)
    requires s == Run(threads, sched) && t in s.pc
    ensures sched' == sched + [(t, c)] && s' == Step(s, t, c) == Run(threads, sched')
  {
    RunSnoc(threads, sched, t, c);
    sched', s' := sched + [(t, c)], Step(s, t, c);
  }

  /** `u` pushes `v`. */
  lemma OnePushed(threads: set<Tid>, u: Tid, v: Value) returns (sched: Schedule, s: State)
    requires u in threads
    ensures s == Run(threads, sched) && forall i :: 0 <= i < |sched| ==> !sched[i].1.op.DoPop?
    ensures s.pc == Init(threads).pc && s.head == 1 && s.tip == 0 && !s.crash
    ensures s.heap == map[1 := Node(0, Some(v), NULL, Linked)]
  {
    var push := Choice(DoPush(v), 1, false);
    var pc: map<Tid, Pc> := Init(threads).pc;
    sched, s := [], Run(threads, []);
    sched, s := Extend(threads, sched, s, u, push);
    sched, s := Extend(threads, sched, s, u, push);
    assert s.heap == map[1 := Node(0, Some(v), NULL, Fresh(u))] && s.pc == pc[u := PushLoad(1, 0, v)];
    sched, s := Extend(threads, sched, s, u, push);
    assert s.heap == map[1 := Node(0, Some(v), NULL, Fresh(u))] && s.pc == pc[u := PushCas(1, 0, v)];
    sched, s := Extend(threads, sched, s, u, push);
    assert s.pc == pc[u := PushRet];
    sched, s := Extend(threads, sched, s, u, push);
    assert s.pc == pc;
  }

  /** `u` pops as far as reading the link of the top node. */
  lemma Enters(threads: set<Tid>, sched: Schedule, s: State, u: Tid) returns (sched': Schedule, s': State)
    requires s == Run(threads, sched) && !s.crash && u in s.pc && s.pc[u] == Idle && s.head != NULL && s.head in s.heap
    ensures s' == Run(threads, sched') && sched' == sched + [(u, ANY)] + [(u, ANY)] + [(u, ANY)]
    ensures s' == s.(pc := s.pc[u := PopNext(s.head, s.heap[s.head].id)], tip := s.tip + 1)
  {
    sched', s' := Extend(threads, sched, s, u, ANY);
    sched', s' := Extend(threads, sched', s', u, ANY);
    sched', s' := Extend(threads, sched', s', u, ANY);
  }

  /** `t` takes the node and finds that it is not alone in pop. */
  lemma FindsOther(threads: set<Tid>, sched: Schedule, s: State, t: Tid, id: nat) returns (sched': Schedule, s': State)
    requires s == Run(threads, sched) && !s.crash && t in s.pc && s.head != NULL && s.tip == 2
    requires s.pc[t] == PopNext(s.head, id) && Live(s, s.head, id)
    ensures s' == Run(threads, sched') && sched' == sched + [(t, ANY)] + [(t, ANY)] + [(t, ANY)] + [(t, ANY)]
    ensures t in s'.pc && s'.pc == s.pc[t := s'.pc[t]]
    ensures s'.pc[t].Reclaim? && s'.pc[t].at == ShareLoad && s'.pc[t].old_head == s.head
  {
    sched', s' := Extend(threads, sched, s, t, ANY);
    sched', s' := Extend(threads, sched', s', t, ANY);
    assert s'.pc[t] == PopData(s.head, id) && s'.tip == 2 && Live(s', s.head, id) && !s'.crash;
    sched', s' := Extend(threads, sched', s', t, ANY);
    sched', s' := Extend(threads, sched', s', t, ANY);
  }

  /** `u` pushes a value and loads it in a pop; `t` pops it and, as `u` is in pop, is about to chain it. */
  lemma RaceOccurs(threads: set<Tid>, ps: set<Tid>, t: Tid, u: Tid, v: Value)
    requires t in threads && u in threads && t != u && t in ps && u in ps
    ensures RaceReachable(threads, ps)
  {
    var sched0, s0 := OnePushed(threads, u, v);
    var sched1, s1 := Enters(threads, sched0, s0, u);
    var sched2, s2 := Enters(threads, sched1, s1, t);
    var sched3, s3 := FindsOther(threads, sched2, s2, t, 0);
    assert NextOf(1) in Writes(s3, t) && NextOf(1) in Reads(s3, u);
    assert Allowed(sched3, ps);
    assert Race(Run(threads, sched3), t, u);
  }

  /** A race can occur if and only if two different threads may pop. */
  lemma RaceExactly(threads: set<Tid>, ps: set<Tid>, v: Value)
    ensures RaceReachable(threads, ps)
       <==> exists t, u :: t in threads && t in ps && u in threads && u in ps && t != u
  {
    if RaceReachable(threads, ps) {
      var sched, t, u :| Allowed(sched, ps) && Race(Run(threads, sched), t, u);
      RacesAre(threads, sched, t, u);
      RunPoppers(threads, sched, ps, t);
      RunPoppers(threads, sched, ps, u);
    }
    forall t, u | t in threads && t in ps && u in threads && u in ps && t != u ensures RaceReachable(threads, ps) {
      RaceOccurs(threads, ps, t, u, v);
    }
  }
}
