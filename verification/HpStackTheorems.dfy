/** What holds in every run of the hazard-pointer stack. */
module HpStackTheorems {
  import opened Wrappers
  import opened LinearSpec
  import opened HpStack
  import opened HpStackInvariant
  import opened HpStackRefinement
  import opened HpStackHazards

  lemma {:induction false} RunInv(threads: set<Tid>, sched: Schedule)
    ensures Inv(Run(threads, sched)) && Account(Run(threads, sched)) && CleanSlots(Run(threads, sched))
  {
    if sched != [] {
      RunInv(threads, sched[..|sched| - 1]);
      var s := Run(threads, sched[..|sched| - 1]);
      var (t, c) := sched[|sched| - 1];
      if t in s.pc {
        StepInv(s, t, c);
        StepAccount(s, t, c);
        StepClean(s, t, c);
      }
    }
  }

  /** Memory safety: under every schedule no step reads or writes a node or a record after its
      deletion, no step deletes anything twice, and the records that a sweep of `t` walks over are on
      a list private to `t`. */
  lemma MemorySafety(threads: set<Tid>, sched: Schedule, t: Tid)
    requires t in Run(threads, sched).pc
    ensures var s := Run(threads, sched);
      && !s.fault
      && (s.pc[t].SweepNext? && s.pc[t].next != NULL ==>
            s.pc[t].next in s.recs && s.recs[s.pc[t].next].place == Private(t))
  {
    RunInv(threads, sched);
    assert ThreadInv(Run(threads, sched), t);
  }

  lemma Stays(s: State, t: Tid, c: Choice, a: Addr)
    requires t in s.pc && a in s.heap && !Allocates(s.pc[t])
    ensures a in Step(s, t, c).heap
  {
    OtherIds(s, t, c);
    assert a in s.heap.Keys;
  }

  lemma PopFreeDeletes(s: State, t: Tid, p: Addr, id: nat, res: Option<Value>)
    requires Inv(s) && t in s.pc && s.pc[t] == PopFree(p, id, res)
    ensures p in s.heap && ScanOf(s.pc[t]) == Scan(p, MAX_HAZARD_POINTERS)
    ensures var s' := DoPopFree(s, t, p, id, res); s'.heap == s.heap - {p} && s.heap[p].id in s'.freed
  {
    assert ThreadInv(s, t);
  }

  lemma SweepFreeDeletes(s: State, t: Tid, r: Addr, rid: nat, p: Addr, next: Addr, mine: seq<Addr>, res: Option<Value>)
    requires Inv(s) && t in s.pc && s.pc[t] == SweepFree(r, rid, p, next, mine, res)
    ensures p in s.heap && ScanOf(s.pc[t]) == Scan(p, MAX_HAZARD_POINTERS)
    ensures var s' := DoSweepFree(s, t, r, rid, p, next, mine, res); s'.heap == s.heap - {p} && s.heap[p].id in s'.freed
  {
    assert ThreadInv(s, t);
    assert RecInv(s, r);
  }

  lemma Remains(s: State, t: Tid, c: Choice, a: Addr)
    requires t in s.pc && a in s.heap && !s.pc[t].PopFree? && !s.pc[t].SweepFree?
    ensures a in Step(s, t, c).heap
  {
    if !Allocates(s.pc[t]) {
      Stays(s, t, c, a);
    }
  }

  lemma Deletes(s: State, t: Tid, c: Choice, a: Addr)
    requires Inv(s) && t in s.pc && a in s.heap && a !in Step(s, t, c).heap
    ensures ScanOf(s.pc[t]) == Scan(a, MAX_HAZARD_POINTERS)
    ensures s.heap[a].id in Step(s, t, c).freed
  {
    if s.pc[t].PopFree? {
      PopFreeDeletes(s, t, s.pc[t].seen, s.pc[t].id, s.pc[t].res);
    } else if s.pc[t].SweepFree? {
      var p := s.pc[t];
      SweepFreeDeletes(s, t, p.r, p.rid, p.p, p.next, p.mine, p.res);
    } else {
      Remains(s, t, c, a);
    }
  }

  /** Deletion safety: at the moment a node is deleted it is not linked, no thread that published
      and re-validated it can still read it, and it had not been deleted before. */
  lemma DeletionSafety(threads: set<Tid>, sched: Schedule, t: Tid, c: Choice, a: Addr)
    requires var s := Run(threads, sched); t in s.pc && a in s.heap && a !in Step(s, t, c).heap
    ensures var s := Run(threads, sched); var s' := Step(s, t, c);
      && a !in s.chain
      && (forall u :: u in s.pc && u != t ==> RoleOf(s.pc[u]).NoRole? || RoleOf(s.pc[u]).a != a)
      && RoleOf(s.pc[t]) != Guard(a)
      && s.heap[a].id !in s.freed && s.heap[a].id in s'.freed
  {
    RunInv(threads, sched);
    var s := Run(threads, sched);
    Deletes(s, t, c, a);
    NoGuards(s, t);
    NotScanned(s, t);
    forall u | u in s.pc && u != t && !RoleOf(s.pc[u]).NoRole? ensures RoleOf(s.pc[u]).a != a {
      Unscanned(s, t, u);
    }
  }

  /** A node that `t` is about to delete is not being pushed, and is owned by no other thread. */
  lemma Unscanned(s: State, t: Tid, u: Tid)
    requires Inv(s) && t in s.pc && u in s.pc && u != t && ScanOf(s.pc[t]).Scan?
    ensures RoleOf(s.pc[u]) != Pusher(ScanOf(s.pc[t]).a) && RoleOf(s.pc[u]) != Owner(ScanOf(s.pc[t]).a)
  {
    assert ThreadInv(s, t);
    assert ThreadInv(s, u);
    if s.pc[t].SweepScan? || s.pc[t].SweepFree? {
      assert RecInv(s, s.pc[t].r);
    }
  }

  /** No hazard is stale: a slot holds a pointer only while a pop of its owner is between publishing and
      clearing it; so a node is set aside instead of being deleted only because another thread has
      published it. */
  lemma NoStaleHazards(threads: set<Tid>, sched: Schedule, i: nat, t: Tid, c: Choice)
    requires i < |Run(threads, sched).slots| && t in Run(threads, sched).pc
    ensures var s := Run(threads, sched);
      && (s.slots[i].pointer != NULL ==>
            s.slots[i].owner.Some? && s.slots[i].owner.value in s.pc && Publishing(s.pc[s.slots[i].owner.value]))
      && (s.pc[t].PopScan? && s.pc[t].i == i && s.slots[i].pointer == s.pc[t].seen ==> s.slots[i].owner != Some(t))
      && (s.pc[t].SweepScan? && s.pc[t].i == i && s.slots[i].pointer == s.pc[t].p ==> s.slots[i].owner != Some(t))
  {
    RunInv(threads, sched);
    var s := Run(threads, sched);
    assert SlotClean(s.slots, s.hp, s.pc, i);
    assert ThreadInv(s, t);
    if s.pc[t].SweepScan? {
      assert RecInv(s, s.pc[t].r);
    }
  }

  /** Where a node can be while it is live. */
  datatype Spot =
    | OnStack
    | InPushOf(t: Tid)               // a push of t has allocated it
    | UnlinkedBy(t: Tid)             // a pop of t has unlinked it
    | OnReclaimList(r: Addr)         // record r on nodes_to_reclaim holds it
    | OnPrivateList(t: Tid, r: Addr) // record r, private to a sweep of t, holds it

  ghost predicate IsAt(s: State, a: Addr, w: Spot) {
    match w
    case OnStack => a in s.chain
    case InPushOf(t) => t in s.pc && RoleOf(s.pc[t]) == Pusher(a)
    case UnlinkedBy(t) => t in s.pc && RoleOf(s.pc[t]) == Owner(a)
    case OnReclaimList(r) => r in s.list && r in s.recs && s.recs[r].node == a
    case OnPrivateList(t, r) => t in s.pc && Keeps(WorkOf(s.pc[t]), r) && r in s.recs && s.recs[r].node == a
  }

  ghost function SpotOf(s: State, a: Addr): Spot
    requires a in s.heap
  {
    match s.heap[a].place
    case Linked => OnStack
    case Fresh(t) => InPushOf(t)
    case Popped(t) => UnlinkedBy(t)
    case Retired(r) =>
      if r in s.recs && s.recs[r].place.Private? then OnPrivateList(s.recs[r].place.t, r) else OnReclaimList(r)
  }

  lemma AtItsSpot(s: State, a: Addr)
    requires Inv(s) && a in s.heap
    ensures IsAt(s, a, SpotOf(s, a))
  {
    assert NodeInv(s, a);
    if s.heap[a].place.Retired? {
      assert RecInv(s, s.heap[a].place.r);
    }
  }

  lemma NowhereElse(s: State, a: Addr, w: Spot)
    requires Inv(s) && IsAt(s, a, w)
    ensures a in s.heap && w == SpotOf(s, a)
  {
    match w
    case OnStack =>
    case InPushOf(t) => assert ThreadInv(s, t);
    case UnlinkedBy(t) => assert ThreadInv(s, t);
    case OnReclaimList(r) => assert RecInv(s, r);
    case OnPrivateList(t, r) =>
      assert ThreadInv(s, t);
      assert RecInv(s, r);
  }

  /** Conservation: in every reachable state a node is in exactly one place as long as it is live, and
      in none once it has been deleted; and every allocation is either live or deleted. */
  lemma Conserved(threads: set<Tid>, sched: Schedule, a: Addr)
    ensures var s := Run(threads, sched);
      && (a in s.heap ==> exists w :: IsAt(s, a, w) && forall v :: IsAt(s, a, v) ==> v == w)
      && (a !in s.heap ==> forall v :: !IsAt(s, a, v))
      && |s.freed| + |s.heap| + |s.recs| == s.serial
  {
    RunInv(threads, sched);
    var s := Run(threads, sched);
    forall v | IsAt(s, a, v) ensures a in s.heap && v == SpotOf(s, a) {
      NowhereElse(s, a, v);
    }
    if a in s.heap {
      AtItsSpot(s, a);
    }
  }

  /** The ABA argument: a thread whose compare-exchange of pop is about to succeed still sees the
      very node it validated, and the `next` it read is the current second node. */
  lemma NextIsCurrent(threads: set<Tid>, sched: Schedule, t: Tid)
    requires var s := Run(threads, sched); t in s.pc && s.pc[t].PopCas? && s.head == s.pc[t].seen
    ensures var s := Run(threads, sched);
      && s.chain != [] && s.chain[0] == s.pc[t].seen && s.chain[0] in s.heap && s.heap[s.chain[0]].id == s.pc[t].id
      && s.pc[t].nx == if |s.chain| == 1 then NULL else s.chain[1]
  {
    RunInv(threads, sched);
    var s := Run(threads, sched);
    assert ThreadInv(s, t);
    assert NodeInv(s, s.pc[t].seen);
  }

  lemma {:induction false} RunSim(threads: set<Tid>, sched: Schedule)
    ensures Inv(Run(threads, sched))
    ensures SpecRun(Lifo, Empty(threads), Trace(threads, sched)) == Some(Abs(Run(threads, sched)))
  {
    RunInv(threads, sched);
    if sched == [] {
      assert Abs(Init(threads)) == Empty(threads);
    } else {
      var before := sched[..|sched| - 1];
      RunSim(threads, before);
      var s := Run(threads, before);
      var (t, c) := sched[|sched| - 1];
      if t in s.pc {
        StepRefines(s, t, c);
      }
      SpecRunSnoc(Lifo, Empty(threads), Trace(threads, before), if t in s.pc then Event(s, t, c) else Silent);
    }
  }

  /** Linearizability: the labels of every run are accepted by the sequential stack, whose items are
      then the values found by following the links from the head. */
  lemma RunRefines(threads: set<Tid>, sched: Schedule)
    ensures Inv(Run(threads, sched))
    ensures SpecRun(Lifo, Empty(threads), Trace(threads, sched)) == Some(Abs(Run(threads, sched)))
    ensures var s := Run(threads, sched); var items := Abs(s).items;
      && IsChain(s.heap, s.head, s.chain) && |items| == |s.chain|
      && forall i :: 0 <= i < |items| ==> s.heap[s.chain[i]].data == Some(items[i])
  {
    RunSim(threads, sched);
    ChainData(Run(threads, sched));
  }

  /** No value is lost or duplicated: pushed values are those popped and those still linked. */
  lemma RunConserves(threads: set<Tid>, sched: Schedule)
    ensures var start := Empty(threads);
      && Inv(Run(threads, sched))
      && Puts(Lifo, start, Trace(threads, sched))
         == LinearSpec.Takes(Lifo, start, Trace(threads, sched)) + multiset(Abs(Run(threads, sched)).items)
  {
    RunRefines(threads, sched);
    Conservation(Lifo, Empty(threads), Trace(threads, sched));
  }
}
