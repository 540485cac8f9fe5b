/** What holds in every run of the counting stack. */
module CountStackTheorems {
  import opened Wrappers
  import opened Allocation
  import opened LinearSpec
  import opened CountStack
  import opened CountStackInvariant
  import opened CountStackRefinement

  lemma RunSnoc(threads: set<Tid>, sched: Schedule, t: Tid, c: Choice)
    requires t in Run(threads, sched).pc
    ensures Run(threads, sched + [(t, c)]) == Step(Run(threads, sched), t, c)
  {
    assert (sched + [(t, c)])[..|sched|] == sched;
  }

  lemma {:induction false} RunInv(threads: set<Tid>, sched: Schedule)
    ensures Inv(Run(threads, sched)) && Account(Run(threads, sched))
  {
    if sched == [] {
      assert Counters(Init(threads).pc) == {};
    } else {
      RunInv(threads, sched[..|sched| - 1]);
      var s := Run(threads, sched[..|sched| - 1]);
      var (t, c) := sched[|sched| - 1];
      if t in s.pc {
        StepInv(s, t, c);
        StepAccount(s, t, c);
      }
    }
  }

  /** The nodes a thread walks over or deletes in `try_reclaim` are on a list of its own. */
  predicate OnOwnList(s: State, t: Tid, a: Addr) {
    a == NULL || (a in s.heap && s.heap[a].place == Owned(t))
  }

  /** Memory safety under every schedule, and the meaning of `_threads_in_pop`. */
  lemma MemorySafety(threads: set<Tid>, sched: Schedule, t: Tid)
    requires t in Run(threads, sched).pc
    ensures var s := Run(threads, sched);
      && !s.fault
      && s.tip == |Counters(s.pc)|
      && (HoardOf(s.pc[t]).Closed? ==> OnOwnList(s, t, HoardOf(s.pc[t]).first))
      && (HoardOf(s.pc[t]).Open? ==> OnOwnList(s, t, HoardOf(s.pc[t]).last))
      && (s.pc[t].Reclaim? && s.pc[t].at.Walk? ==> OnOwnList(s, t, s.pc[t].at.last))
  {
    RunInv(threads, sched);
    assert ThreadInv(Run(threads, sched), t);
  }

  /** `t` is about to link a null `old_head` into the pending list. */
  predicate ChainsNull(s: State, t: Tid) {
    !s.crash && t in s.pc && s.pc[t].Reclaim? && s.pc[t].at == ShareLoad && s.pc[t].old_head == NULL
  }

  lemma StepCrash(s: State, t: Tid, c: Choice)
    requires Inv(s) && t in s.pc && !s.crash
    ensures Step(s, t, c).crash <==> ChainsNull(s, t)
  {
    assert ThreadInv(s, t);
    if s.pc[t].Reclaim? {
      if Deleting(s.pc[t]) {
        assert !ReclaimStep(s, t, c).crash;
      } else if Chaining(s.pc[t]) {
        assert !ReclaimStep(s, t, c).crash;
      } else {
        assert ReclaimStep(s, t, c).crash <==> ChainsNull(s, t);
      }
    }
  }

  ghost predicate CrashesAt(threads: set<Tid>, sched: Schedule, k: nat)
    requires k < |sched|
  {
    ChainsNull(Run(threads, sched[..k]), sched[k].0)
  }

  lemma CrashesBefore(threads: set<Tid>, sched: Schedule, k: nat)
    requires k < |sched| - 1
    ensures CrashesAt(threads, sched[..|sched| - 1], k) == CrashesAt(threads, sched, k)
  {
    assert sched[..|sched| - 1][..k] == sched[..k];
  }

  /** A run crashes at a step that chains a null pointer. */
  lemma {:induction false} CrashStep(threads: set<Tid>, sched: Schedule)
    ensures Run(threads, sched).crash <==> exists k: nat :: k < |sched| && CrashesAt(threads, sched, k)
  {
    if sched != [] {
      var n := |sched| - 1;
      var s := Run(threads, sched[..n]);
      CrashStep(threads, sched[..n]);
      RunInv(threads, sched[..n]);
      assert Run(threads, sched).crash <==> s.crash || CrashesAt(threads, sched, n) by {
        if !s.crash && sched[n].0 in s.pc {
          StepCrash(s, sched[n].0, sched[n].1);
        }
      }
      forall k: nat | k < n ensures CrashesAt(threads, sched[..n], k) == CrashesAt(threads, sched, k) {
        CrashesBefore(threads, sched, k);
      }
    }
  }

  /** `t` has popped nothing and is about to test the counter while another thread is in pop. */
  ghost predicate SharedEmptyCheck(s: State, t: Tid) {
    && !s.crash && t in s.pc && s.pc[t].Reclaim? && s.pc[t].at == Check && s.pc[t].old_head == NULL
    && exists u :: u in s.pc && u != t && Counted(s.pc[u])
  }

  /** A step puts `t` before the fatal access exactly if it is the counter test of an empty pop that
      finds another thread in pop. */
  lemma EmptyPop(threads: set<Tid>, sched: Schedule, t: Tid, c: Choice)
    requires t in Run(threads, sched).pc && !ChainsNull(Run(threads, sched), t)
    ensures ChainsNull(Step(Run(threads, sched), t, c), t) <==> SharedEmptyCheck(Run(threads, sched), t)
  {
    RunInv(threads, sched);
    StepToNull(Run(threads, sched), t, c);
  }

  lemma StepToNull(s: State, t: Tid, c: Choice)
    requires Inv(s) && t in s.pc && !ChainsNull(s, t)
    ensures ChainsNull(Step(s, t, c), t) <==> SharedEmptyCheck(s, t)
  {
    if !s.pc[t].Reclaim? {
      OutsideNotNull(s, t, c);
    } else if s.pc[t].at == Check {
      CounterTest(s, t);
    } else {
      ReclaimNotNull(s, t, c);
    }
  }

  lemma OutsideNotNull(s: State, t: Tid, c: Choice)
    requires t in s.pc && !s.pc[t].Reclaim?
    ensures !ChainsNull(Step(s, t, c), t)
  {
  }

  lemma ReclaimNotNull(s: State, t: Tid, c: Choice)
    requires t in s.pc && s.pc[t].Reclaim? && s.pc[t].at != Check && !ChainsNull(s, t)
    ensures !ChainsNull(ReclaimStep(s, t, c), t)
  {
    var p, s' := s.pc[t], ReclaimStep(s, t, c);
    if p.at == ShareLoad {
      assert s' == DoShareLoad(s, t, p.old_head, p.oid, p.res);
    } else if p.at == ShareCas {
      assert s' == DoShareCas(s, t, p.old_head, p.oid, p.res, c.spurious);
    } else {
      assert t in s'.pc && (s'.pc[t].Reclaim? ==> s'.pc[t].at != ShareLoad);
    }
  }

  lemma CounterTest(s: State, t: Tid)
    requires Inv(s) && t in s.pc && s.pc[t].Reclaim? && s.pc[t].at == Check
    ensures s.tip != 1 <==> exists u :: u in s.pc && u != t && Counted(s.pc[u])
  {
    if s.tip != 1 {
      assert t in Counters(s.pc) && |Counters(s.pc) - {t}| != 0;
      var u :| u in Counters(s.pc) - {t};
      assert Counted(s.pc[u]);
    }
    forall u | u in s.pc && u != t && Counted(s.pc[u]) ensures s.tip != 1 {
      BothCounted(s.pc, t, u);
    }
  }

  /** Step `k` of the run is the counter test of an empty pop while another thread is in pop. */
  ghost predicate TestsAt(threads: set<Tid>, sched: Schedule, k: nat)
    requires k < |sched|
  {
    SharedEmptyCheck(Run(threads, sched[..k]), sched[k].0)
  }

  lemma SameTest(threads: set<Tid>, sched: Schedule, n: nat, k: nat)
    requires k < n <= |sched|
    ensures TestsAt(threads, sched[..n], k) == TestsAt(threads, sched, k)
  {
    assert sched[..n][..k] == sched[..k];
  }

  lemma KeepsOthers(s: State, t: Tid, c: Choice, u: Tid)
    requires Inv(s) && t in s.pc && u != t
    ensures u in Step(s, t, c).pc <==> u in s.pc
    ensures u in s.pc ==> Step(s, t, c).pc[u] == s.pc[u]
  {
    StepGentle(s, t, c, NULL, u);
  }

  /** A thread that is about to chain null has made such a test. */
  lemma {:induction false} TestBefore(threads: set<Tid>, sched: Schedule, t: Tid) returns (j: nat)
    requires ChainsNull(Run(threads, sched), t)
    ensures j < |sched| && sched[j].0 == t && TestsAt(threads, sched, j)
  {
    var n := |sched| - 1;
    var s := Run(threads, sched[..n]);
    var (u, c) := sched[n];
    RunInv(threads, sched[..n]);
    if u == t && u in s.pc && !ChainsNull(s, t) {
      EmptyPop(threads, sched[..n], t, c);
      j := n;
    } else {
      if u in s.pc {
        Persists(s, u, c, t);
      }
      j := TestBefore(threads, sched[..n], t);
      SameTest(threads, sched, n, j);
    }
  }

  /** Only its own next step, which crashes, takes a thread away from the fatal access. */
  lemma Persists(s: State, u: Tid, c: Choice, t: Tid)
    requires Inv(s) && u in s.pc && !Step(s, u, c).crash
    requires u == t ==> ChainsNull(s, t)
    ensures u != t && !s.crash && (ChainsNull(Step(s, u, c), t) <==> ChainsNull(s, t))
  {
    if !s.crash {
      StepCrash(s, u, c);
    }
    if u != t {
      KeepsOthers(s, u, c, t);
    }
  }

  /** Since its test at step `j`, the thread has not moved, and is before the fatal access. */
  ghost predicate Doomed(threads: set<Tid>, sched: Schedule, j: nat)
    requires j < |sched|
  {
    ChainsNull(Run(threads, sched), sched[j].0) && forall k :: j < k < |sched| ==> sched[k].0 != sched[j].0
  }

  /** After such a test a thread has no further step that is not the crash. */
  lemma {:induction false} TestDooms(threads: set<Tid>, sched: Schedule, j: nat)
    requires j < |sched| && TestsAt(threads, sched, j)
    ensures Run(threads, sched).crash || Doomed(threads, sched, j)
  {
    var n := |sched| - 1;
    if j == n {
      EmptyPop(threads, sched[..n], sched[n].0, sched[n].1);
    } else {
      SameTest(threads, sched, n, j);
      TestDooms(threads, sched[..n], j);
      if !Run(threads, sched).crash {
        StaysDoomed(threads, sched, j);
      }
    }
  }

  lemma StaysDoomed(threads: set<Tid>, sched: Schedule, j: nat)
    requires j < |sched| - 1 && !Run(threads, sched).crash
    requires Run(threads, sched[..|sched| - 1]).crash || Doomed(threads, sched[..|sched| - 1], j)
    ensures Doomed(threads, sched, j)
  {
    var n := |sched| - 1;
    LastStep(threads, sched, sched[j].0);
    assert sched[..n][j] == sched[j];
    forall k | j < k < n ensures sched[k].0 != sched[j].0 {
      assert sched[..n][k] == sched[k];
    }
  }

  lemma LastStep(threads: set<Tid>, sched: Schedule, t: Tid)
    requires sched != [] && !Run(threads, sched).crash
    ensures var s := Run(threads, sched[..|sched| - 1]);
      !s.crash && (ChainsNull(s, t) ==> sched[|sched| - 1].0 != t && ChainsNull(Run(threads, sched), t))
  {
    var n := |sched| - 1;
    var s := Run(threads, sched[..n]);
    RunInv(threads, sched[..n]);
    if sched[n].0 in s.pc && (sched[n].0 == t ==> ChainsNull(s, t)) {
      Persists(s, sched[n].0, sched[n].1, t);
    }
  }

  /** A run dereferences null exactly if some thread whose pop found the stack empty tests the counter
      while another thread is in pop, and is scheduled again after that. */
  lemma CrashExactly(threads: set<Tid>, sched: Schedule)
    ensures Run(threads, sched).crash <==>
            exists j: nat, k: nat :: j < k < |sched| && sched[j].0 == sched[k].0 && TestsAt(threads, sched, j)
  {
    CrashStep(threads, sched);
    if Run(threads, sched).crash {
      var k: nat :| k < |sched| && CrashesAt(threads, sched, k);
      var j := TestBefore(threads, sched[..k], sched[k].0);
      SameTest(threads, sched, k, j);
    }
    forall j: nat, k: nat | j < k < |sched| && sched[j].0 == sched[k].0 && TestsAt(threads, sched, j)
      ensures Run(threads, sched).crash
    {
      TestDooms(threads, sched, j);
    }
  }

  lemma BothCounted(pc: map<Tid, Pc>, t: Tid, u: Tid)
    requires t in pc && u in pc && t != u && Counted(pc[t]) && Counted(pc[u])
    ensures 2 <= |Counters(pc)|
  {
    assert Counters(pc) == (Counters(pc) - {t, u}) + {t, u} && |{t, u}| == 2;
  }

  const ANY := Choice(DoPop, NULL, false)

  lemma BothEnter(threads: set<Tid>, t: Tid, u: Tid)
    requires t in threads && u in threads && t != u
    ensures var s := Run(threads, [(t, ANY), (t, ANY), (u, ANY), (u, ANY)]);
      !s.crash && s.head == NULL && s.tip == 2 && t in s.pc && s.pc[t] == PopLoad
  {
    var x, y := (t, ANY), (u, ANY);
    RunSnoc(threads, [], t, ANY);
    assert [] + [x] == [x];
    RunSnoc(threads, [x], t, ANY);
    assert [x] + [x] == [x, x];
    var s2 := Run(threads, [x, x]);
    assert !s2.crash && s2.head == NULL && s2.tip == 1 && s2.pc[t] == PopLoad && s2.pc[u] == Idle;
    RunSnoc(threads, [x, x], u, ANY);
    assert [x, x] + [y] == [x, x, y];
    RunSnoc(threads, [x, x, y], u, ANY);
    assert [x, x, y] + [y] == [x, x, y, y];
  }

  /** Two threads, an empty stack: both enter pop, and the first one to go on crashes. */
  lemma TwoEmptyPopsCrash(threads: set<Tid>, t: Tid, u: Tid)
    requires t in threads && u in threads && t != u
    ensures Run(threads, [(t, ANY), (t, ANY), (u, ANY), (u, ANY), (t, ANY), (t, ANY), (t, ANY)]).crash
  {
    var x := (t, ANY);
    var z := [x, x, (u, ANY), (u, ANY)];
    BothEnter(threads, t, u);
    RunSnoc(threads, z, t, ANY);
    RunSnoc(threads, z + [x], t, ANY);
    RunSnoc(threads, z + [x] + [x], t, ANY);
    assert z + [x] + [x] + [x] == [x, x, (u, ANY), (u, ANY), x, x, x];
  }

  lemma Stays(s: State, t: Tid, c: Choice, a: Addr)
    requires t in s.pc && a in s.heap && !Allocates(s.pc[t])
    ensures a in Step(s, t, c).heap
  {
    OtherIds(s, t, c);
    assert a in s.heap.Keys;
  }

  lemma Deletes(s: State, t: Tid, c: Choice, a: Addr)
    requires Inv(s) && t in s.pc && a in s.heap && a !in Step(s, t, c).heap
    ensures Frees(s.pc[t], a) && s.heap[a].place == Owned(t) && s.heap[a].id in Step(s, t, c).freed
  {
    if !Allocates(s.pc[t]) {
      Stays(s, t, c, a);
    } else {
      assert ThreadInv(s, t);
    }
  }

  /** Deletion safety: a node is deleted only once, only after it has left the stack and the pending
      list, and only when no other thread in pop, or anywhere else, can still reach it. */
  lemma DeletionSafety(threads: set<Tid>, sched: Schedule, t: Tid, c: Choice, a: Addr)
    requires var s := Run(threads, sched); t in s.pc && a in s.heap && a !in Step(s, t, c).heap
    ensures var s := Run(threads, sched);
      && a !in s.chain && a !in s.pending
      && (forall u :: u in s.pc && u != t ==> !Uses(s.pc[u], a))
      && s.heap[a].id !in s.freed && s.heap[a].id in Step(s, t, c).freed
  {
    RunInv(threads, sched);
    var s := Run(threads, sched);
    Deletes(s, t, c, a);
    Unused(s, t, a);
    NotFreed(s, a);
  }

  /** Where a node can be while it is live. */
  datatype Spot =
    | OnStack
    | OnPending             // on `_to_be_deleted`
    | InPushOf(t: Tid)      // a push of t has allocated it
    | UnlinkedBy(t: Tid)    // it is the `old_head` of a pop of t
    | OnPrivateList(t: Tid) // t has taken it from `_to_be_deleted`

  ghost predicate IsAt(s: State, a: Addr, w: Spot) {
    match w
    case OnStack => a in s.chain
    case OnPending => a in s.pending
    case InPushOf(t) => t in s.pc && RoleOf(s.pc[t]) == Pusher(a)
    case UnlinkedBy(t) => t in s.pc && RoleOf(s.pc[t]) == Owner(a)
    case OnPrivateList(t) => t in s.pc && Hoards(HoardOf(s.pc[t]), a)
  }

  ghost function SpotOf(s: State, a: Addr): Spot
    requires a in s.heap
  {
    match s.heap[a].place
    case Linked => OnStack
    case Pending => OnPending
    case Fresh(t) => InPushOf(t)
    case Owned(t) => if t in s.pc && RoleOf(s.pc[t]) == Owner(a) then UnlinkedBy(t) else OnPrivateList(t)
  }

  lemma NowhereElse(s: State, a: Addr, w: Spot)
    requires Inv(s) && IsAt(s, a, w)
    ensures a in s.heap && w == SpotOf(s, a)
  {
    if !w.OnStack? && !w.OnPending? {
      assert ThreadInv(s, w.t);
    }
  }

  /** Conservation: in every reachable state a node is in exactly one place as long as it is live, and
      in none once it has been deleted; and every allocation is either live or deleted. */
  lemma Conserved(threads: set<Tid>, sched: Schedule, a: Addr)
    ensures var s := Run(threads, sched);
      && (a in s.heap ==> exists w :: IsAt(s, a, w) && forall v :: IsAt(s, a, v) ==> v == w)
      && (a !in s.heap ==> forall v :: !IsAt(s, a, v))
      && |s.freed| + |s.heap| == s.serial
  {
    RunInv(threads, sched);
    var s := Run(threads, sched);
    forall v | IsAt(s, a, v) ensures a in s.heap && v == SpotOf(s, a) {
      NowhereElse(s, a, v);
    }
    if a in s.heap {
      assert NodeInv(s, a);
      assert IsAt(s, a, SpotOf(s, a));
    }
  }

  /** The ABA argument: a thread whose compare-exchange of pop is about to succeed still sees the
      node it loaded, and the `next` it read is the current second node. */
  lemma NextIsCurrent(threads: set<Tid>, sched: Schedule, t: Tid)
    requires var s := Run(threads, sched); t in s.pc && s.pc[t].PopCas? && s.head == s.pc[t].seen
    ensures var s := Run(threads, sched);
      && s.chain != [] && s.chain[0] == s.pc[t].seen && s.chain[0] in s.heap && s.heap[s.chain[0]].id == s.pc[t].id
      && s.pc[t].nx == if |s.chain| == 1 then NULL else s.chain[1]
  {
    RunInv(threads, sched);
    var s := Run(threads, sched);
    assert ThreadInv(s, t);
    assert NodeInv(s, s.pc[t].seen);
  }

  lemma {:induction false} RunSim(threads: set<Tid>, sched: Schedule)
    ensures Inv(Run(threads, sched))
    ensures SpecRun(Lifo, Empty(threads), Trace(threads, sched)) == Some(Abs(Run(threads, sched)))
  {
    RunInv(threads, sched);
    if sched == [] {
      assert Abs(Init(threads)) == Empty(threads);
    } else {
      var before := sched[..|sched| - 1];
      RunSim(threads, before);
      var s := Run(threads, before);
      var (t, c) := sched[|sched| - 1];
      if t in s.pc {
        StepRefines(s, t, c);
      }
      SpecRunSnoc(Lifo, Empty(threads), Trace(threads, before), if t in s.pc then Event(s, t, c) else Silent);
    }
  }

  /** Linearizability: the labels of every run, up to the crash if there is one, are accepted by the
      sequential stack, and no value is lost or duplicated: the values pushed are those popped and
      those still linked. */
  lemma RunRefines(threads: set<Tid>, sched: Schedule)
    ensures Inv(Run(threads, sched))
    ensures SpecRun(Lifo, Empty(threads), Trace(threads, sched)) == Some(Abs(Run(threads, sched)))
    ensures Puts(Lifo, Empty(threads), Trace(threads, sched))
         == Takes(Lifo, Empty(threads), Trace(threads, sched)) + multiset(Abs(Run(threads, sched)).items)
  {
    RunSim(threads, sched);
    Conservation(Lifo, Empty(threads), Trace(threads, sched));
  }
}
