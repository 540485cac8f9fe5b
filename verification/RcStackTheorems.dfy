/** What holds in every run of the reference-counted stack. */
module RcStackTheorems {
  import opened Wrappers
  import opened Allocation
  import opened LinearSpec
  import opened RcStack
  import opened RcStackInvariant
  import opened RcStackRefinement

  lemma {:induction false} RunInv(threads: set<Tid>, sched: Schedule)
    ensures Inv(Run(threads, sched)) && Account(Run(threads, sched))
  {
    if sched != [] {
      RunInv(threads, sched[..|sched| - 1]);
      var s := Run(threads, sched[..|sched| - 1]);
      var (t, c) := sched[|sched| - 1];
      if t in s.pc {
        StepInv(s, t, c);
        StepAccount(s, t, c);
      }
    }
  }

  /** Memory safety: under every schedule of any number of threads, no step reaches a node through a
      pointer whose node has been deleted, even if the address was reused. */
  lemma MemorySafety(threads: set<Tid>, sched: Schedule)
    ensures !Run(threads, sched).fault
  {
    RunInv(threads, sched);
  }

  /** The counting law of linked nodes. */
  lemma CountLaw(threads: set<Tid>, sched: Schedule, i: nat)
    requires i < |Run(threads, sched).chain|
    ensures var s := Run(threads, sched);
      && IsChain(s.heap, s.head.ptr, s.chain)
      && (if i == 0 then s.head.count else s.heap[s.chain[i - 1]].next.count) + s.heap[s.chain[i]].internal
         == 1 + |Holders(s.pc, s.chain[i])|
  {
    RunInv(threads, sched);
    var s := Run(threads, sched);
    assert NodeInv(s, s.chain[i]);
    if 0 < i {
      var h := i - 1;
      assert s.heap[s.chain[i]].place == Linked(s.heap[s.chain[h]].next.count);
    }
  }

  /** What has been deleted between `s` and `s'` is at most one node, and had not been deleted before. */
  ghost predicate DeletesFresh(s: State, s': State) {
    && (forall a :: a in s.heap && a !in s'.heap ==> s.heap[a].id !in s.freed && s'.freed == s.freed + {s.heap[a].id})
    && ((forall a :: a in s.heap ==> a in s'.heap) ==> s'.freed == s.freed)
  }

  lemma AllocKeeps(s: State, t: Tid, v: Value, n: Addr)
    ensures DeletesFresh(s, DoAlloc(s, t, v, n))
  {
  }

  lemma FreeDeletes(s: State, t: Tid, p: Addr, id: nat, then_: Pc)
    requires Inv(s) && Account(s) && t in s.pc
    requires (s.pc[t].PopFree? || s.pc[t].RetryFree?) && s.pc[t].p == p && s.pc[t].id == id
    ensures DeletesFresh(s, DoFree(s, t, p, id, then_))
  {
    assert PcInv(s, t);
    assert Ids(s.heap)[p] == id;
  }

  lemma PopFreeDeletes(s: State, t: Tid, c: Choice)
    requires Inv(s) && Account(s) && t in s.pc && s.pc[t].PopFree?
    ensures DeletesFresh(s, Step(s, t, c))
  {
    FreeDeletes(s, t, s.pc[t].p, s.pc[t].id, PopRet(s.pc[t].res));
  }

  lemma RetryFreeDeletes(s: State, t: Tid, c: Choice)
    requires Inv(s) && Account(s) && t in s.pc && s.pc[t].RetryFree?
    ensures DeletesFresh(s, Step(s, t, c))
  {
    FreeDeletes(s, t, s.pc[t].p, s.pc[t].id, PopInc(s.pc[t].seen));
  }

  lemma OthersKeep(s: State, t: Tid, c: Choice)
    requires t in s.pc && !Allocates(s.pc[t])
    ensures DeletesFresh(s, Step(s, t, c))
  {
    KeepsIds(s, t, c);
    assert Step(s, t, c).heap.Keys == Ids(s.heap).Keys;
  }

  lemma StepDeletes(s: State, t: Tid, c: Choice)
    requires Inv(s) && Account(s) && t in s.pc
    ensures DeletesFresh(s, Step(s, t, c))
  {
    if s.pc[t].PushAlloc? {
      AllocKeeps(s, t, s.pc[t].v, c.spare);
    } else if s.pc[t].PopFree? {
      PopFreeDeletes(s, t, c);
    } else if s.pc[t].RetryFree? {
      RetryFreeDeletes(s, t, c);
    } else {
      OthersKeep(s, t, c);
    }
  }

  /** Every allocation is, at every moment, either one live node or deleted; a deletion always
      removes a node that had not been deleted before. */
  lemma DeletedOnce(threads: set<Tid>, sched: Schedule, t: Tid, c: Choice)
    requires t in Run(threads, sched).pc
    ensures var s := Run(threads, sched); |s.freed| + |s.heap| == s.serial && DeletesFresh(s, Step(s, t, c))
  {
    RunInv(threads, sched);
    StepDeletes(Run(threads, sched), t, c);
  }

  predicate Pushing(p: Pc, a: Addr) {
    (p.PushLoad? || p.PushCas?) && p.n == a
  }

  predicate InPop(p: Pc) {
    p.PopLoad? || p.PopInc? || p.PopNext? || p.PopCas? || p.PopData? || p.PopAdd? || p.PopFree? || p.PopSub?
    || p.RetryFree? || p.PopRet?
  }

  /** When no thread is inside pop, the only live nodes are the linked ones and those that a push is
      about to link: every unlinked node has been deleted. */
  lemma NothingLeaks(threads: set<Tid>, sched: Schedule, a: Addr)
    requires forall t :: t in Run(threads, sched).pc ==> !InPop(Run(threads, sched).pc[t])
    requires a in Run(threads, sched).heap
    ensures var s := Run(threads, sched); a in s.chain || exists t :: t in s.pc && Pushing(s.pc[t], a)
  {
    RunInv(threads, sched);
    var s := Run(threads, sched);
    assert NodeInv(s, a);
    if s.heap[a].place.Fresh? {
      assert Pushing(s.pc[s.heap[a].place.t], a);
    }
  }

  /** The ABA argument: when the compare-exchange of pop finds the head it expects, the `next` it
      read earlier is still the link of the top node, so it leads to the second linked node. */
  lemma NextIsCurrent(threads: set<Tid>, sched: Schedule, t: Tid)
    requires var s := Run(threads, sched); t in s.pc && s.pc[t].PopCas? && s.head == s.pc[t].seen
    ensures var s := Run(threads, sched);
      && s.chain != [] && s.chain[0] == s.pc[t].seen.ptr && s.chain[0] in s.heap
      && s.heap[s.chain[0]].id == s.pc[t].id && s.heap[s.chain[0]].next == s.pc[t].nx
      && s.pc[t].nx.ptr == if |s.chain| == 1 then NULL else s.chain[1]
  {
    RunInv(threads, sched);
    var s := Run(threads, sched);
    assert PcInv(s, t);
  }

  /** Linearizability: the labels of every run are accepted by the sequential stack, whose state is
      then the list of values linked from the head. */
  lemma {:induction false} RunRefines(threads: set<Tid>, sched: Schedule)
    ensures Inv(Run(threads, sched))
    ensures SpecRun(Lifo, Empty(threads), Trace(threads, sched)) == Some(Abs(Run(threads, sched)))
  {
    RunInv(threads, sched);
    if sched == [] {
      assert Abs(Init(threads)) == Empty(threads);
    } else {
      var before := sched[..|sched| - 1];
      RunRefines(threads, before);
      var s := Run(threads, before);
      var (t, c) := sched[|sched| - 1];
      if t in s.pc {
        StepRefines(s, t, c);
      }
      SpecRunSnoc(Lifo, Empty(threads), Trace(threads, before), if t in s.pc then Event(s, t, c) else Silent);
    }
  }

  /** No value is lost or duplicated: pushed values are those popped and those still linked. */
  lemma RunConserves(threads: set<Tid>, sched: Schedule)
    ensures var start := Empty(threads);
      && Inv(Run(threads, sched))
      && Puts(Lifo, start, Trace(threads, sched))
         == Takes(Lifo, start, Trace(threads, sched)) + multiset(Abs(Run(threads, sched)).items)
  {
    RunRefines(threads, sched);
    Conservation(Lifo, Empty(threads), Trace(threads, sched));
  }
}
