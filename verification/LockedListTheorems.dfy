/** What holds in every run of the hand-over-hand list. */
module LockedListTheorems {
  import opened Wrappers
  import opened LinearSpec
  import opened LockedList
  import opened LockedListInvariant

  // ---------------------------------------------------------------- what a step does to the elements

  /** The data of all listed nodes but the sentinel. */
  ghost function DataOf(heap: map<Addr, Node>, chain: seq<Addr>): seq<Value>
    requires chain != [] && forall i :: 0 < i < |chain| ==> chain[i] in heap && heap[chain[i]].data.Some?
  {
    seq(|chain| - 1, i requires 0 <= i < |chain| - 1 => heap[chain[i + 1]].data.value)
  }

  /** The elements of the list, in order. */
  ghost function Values(s: State): seq<Value>
    requires Inv(s)
  {
    HasData(s);
    DataOf(s.heap, s.chain)
  }

  lemma HasData(s: State)
    requires Inv(s)
    ensures forall i :: 0 < i < |s.chain| ==> s.chain[i] in s.heap && s.heap[s.chain[i]].data.Some?
  {
    forall i | 0 < i < |s.chain| ensures s.chain[i] in s.heap && s.heap[s.chain[i]].data.Some? {
      assert s.chain[i] in s.chain;
      assert NodeInv(s, s.chain[i]);
    }
  }

  ghost predicate Gentle(s: State, s': State, b: Addr) {
    b in s.heap && InList(s.heap[b]) ==> b in s'.heap && s'.heap[b].data == s.heap[b].data
  }

  lemma WalkGentle(s: State, t: Tid, k: Kind, at: At, b: Addr)
    requires Inv(s) && t in s.pc && s.pc[t] == Walk(k, at) && !(k.Each? && at.Visit?) && !at.Splice?
    ensures Gentle(s, WalkStep(s, t, k, at), b) && WalkStep(s, t, k, at).chain == s.chain
  {
    assert ThreadInv(s, t);
  }

  lemma StepGentle(s: State, t: Tid, c: Choice, b: Addr)
    requires Inv(s) && t in s.pc && !s.pc[t].PushLink?
    requires s.pc[t].Walk? ==> !(s.pc[t].k.Each? && s.pc[t].at.Visit?) && !s.pc[t].at.Splice?
    ensures Gentle(s, Step(s, t, c), b) && Step(s, t, c).chain == s.chain
  {
    assert ThreadInv(s, t);
    if s.pc[t].Walk? {
      WalkGentle(s, t, s.pc[t].k, s.pc[t].at, b);
    }
  }

  lemma SameValues(s: State, t: Tid, c: Choice, s': State)
    requires Inv(s) && t in s.pc && s' == Step(s, t, c) && Inv(s') && !s.pc[t].PushLink?
    requires s.pc[t].Walk? ==> !(s.pc[t].k.Each? && s.pc[t].at.Visit?) && !s.pc[t].at.Splice?
    ensures Values(s') == Values(s)
  {
    StepGentle(s, t, c, NULL);
    forall i | 0 < i < |s.chain| ensures s'.heap[s.chain[i]].data == s.heap[s.chain[i]].data {
      assert s.chain[i] in s.chain;
      StepGentle(s, t, c, s.chain[i]);
    }
    assert |Values(s')| == |Values(s)|;
  }

  lemma InsertedData(heap: map<Addr, Node>, heap': map<Addr, Node>, chain: seq<Addr>, n: Addr, v: Value)
    requires chain != [] && forall i :: 0 < i < |chain| ==> chain[i] in heap && heap[chain[i]].data.Some?
    requires n in heap' && heap'[n].data == Some(v)
    requires forall i :: 0 < i < |chain| ==> chain[i] in heap' && heap'[chain[i]].data == heap[chain[i]].data
    ensures var chain' := [chain[0], n] + chain[1..];
      (forall i :: 0 < i < |chain'| ==> chain'[i] in heap' && heap'[chain'[i]].data.Some?)
      && DataOf(heap', chain') == [v] + DataOf(heap, chain)
  {
    var chain' := [chain[0], n] + chain[1..];
    forall i | 2 <= i < |chain'| ensures chain'[i] == chain[i - 1] {
    }
  }

  lemma PushValues(s: State, t: Tid, n: Ref, v: Value, s': State)
    requires Inv(s) && t in s.pc && s.pc[t] == PushLink(n, v) && s' == DoPushLink(s, t, n, v) && Inv(s')
    ensures Values(s') == [v] + Values(s)
  {
    assert ThreadInv(s, t);
    HasData(s);
    forall i | 0 < i < |s.chain| ensures s'.heap[s.chain[i]].data == s.heap[s.chain[i]].data {
      assert s.chain[i] in s.chain;
    }
    InsertedData(s.heap, s'.heap, s.chain, n.a, v);
  }

  lemma VisitedData(heap: map<Addr, Node>, chain: seq<Addr>, j: nat, v: Value)
    requires 0 < j < |chain| && forall i :: 0 < i < |chain| ==> chain[i] in heap && heap[chain[i]].data.Some?
    requires forall i, k :: 0 <= i < k < |chain| ==> chain[i] != chain[k]
    ensures var heap' := heap[chain[j] := heap[chain[j]].(data := Some(v))];
      (forall i :: 0 < i < |chain| ==> chain[i] in heap' && heap'[chain[i]].data.Some?)
      && DataOf(heap', chain) == DataOf(heap, chain)[j - 1 := v]
  {
  }

  lemma Visited(s: State, t: Tid, k: Kind, next: Ref) returns (j: nat)
    requires Inv(s) && t in s.pc && s.pc[t] == Walk(k, Visit(next))
    ensures 0 < j < |s.chain| && s.chain[j] == next.a && Live(s, next)
  {
    assert ThreadInv(s, t);
    assert next.a in s.chain;
    j :| 0 <= j < |s.chain| && s.chain[j] == next.a;
  }

  lemma VisitValues(s: State, t: Tid, k: Kind, next: Ref, s': State) returns (i: nat)
    requires Inv(s) && t in s.pc && s.pc[t] == Walk(k, Visit(next)) && s' == DoVisit(s, t, k, next) && Inv(s')
    ensures i < |Values(s)| && s.chain[i + 1] == next.a && Values(s') == Values(s)[i := Image(k, Values(s)[i])]
  {
    var j := Visited(s, t, k, next);
    HasData(s);
    VisitedData(s.heap, s.chain, j, Image(k, s.heap[next.a].data.value));
    i := j - 1;
  }

  lemma RemovedData(heap: map<Addr, Node>, heap': map<Addr, Node>, chain: seq<Addr>, j: nat)
    requires 0 < j < |chain| && forall i :: 0 < i < |chain| ==> chain[i] in heap && heap[chain[i]].data.Some?
    requires forall i :: 0 < i < |chain| && i != j ==> chain[i] in heap' && heap'[chain[i]].data == heap[chain[i]].data
    ensures var chain' := chain[..j] + chain[j + 1..];
      (forall i :: 0 < i < |chain'| ==> chain'[i] in heap' && heap'[chain'[i]].data.Some?)
      && DataOf(heap', chain') == DataOf(heap, chain)[..j - 1] + DataOf(heap, chain)[j..]
  {
    var chain' := chain[..j] + chain[j + 1..];
    forall i | 0 < i < |chain'| ensures chain'[i] == if i < j then chain[i] else chain[i + 1] {
    }
  }

  lemma SpliceShape(s: State, t: Tid, k: Kind, cur: Ref, next: Ref, s': State, j: nat)
    requires Inv(s) && t in s.pc && s.pc[t] == Walk(k, Splice(cur, next)) && s' == DoSplice(s, t, k, cur, next)
    requires j < |s.chain| && s.chain[j] == next.a
    ensures s'.chain == s.chain[..j] + s.chain[j + 1..]
    ensures forall i :: 0 < i < |s.chain| && i != j ==>
              s.chain[i] in s.heap && s.chain[i] in s'.heap && s'.heap[s.chain[i]].data == s.heap[s.chain[i]].data
  {
    assert ThreadInv(s, t);
    WithoutAt(s.chain, j);
    forall i | 0 < i < |s.chain| ensures s.chain[i] in s.heap {
      assert s.chain[i] in s.chain;
    }
  }

  lemma SpliceValues(s: State, t: Tid, k: Kind, cur: Ref, next: Ref, s': State) returns (i: nat)
    requires Inv(s) && t in s.pc && s.pc[t] == Walk(k, Splice(cur, next)) && s' == DoSplice(s, t, k, cur, next)
             && Inv(s')
    ensures i < |Values(s)| && s.chain[i + 1] == next.a && Values(s') == Values(s)[..i] + Values(s)[i + 1..]
  {
    assert ThreadInv(s, t);
    var h, j :| 0 <= h < j < |s.chain| && j == h + 1 && s.chain[h] == cur.a && s.chain[j] == next.a;
    i := j - 1;
    HasData(s);
    SpliceShape(s, t, k, cur, next, s', j);
    RemovedData(s.heap, s'.heap, s.chain, j);
  }

  // ---------------------------------------------------------------- theorems about whole runs

  lemma {:induction false} RunInv(threads: set<Tid>, sched: Schedule)
    ensures Inv(Run(threads, sched))
  {
    if sched == [] {
      var s := Init(threads);
      assert NodeInv(s, HEAD);
    } else {
      RunInv(threads, sched[..|sched| - 1]);
      var s := Run(threads, sched[..|sched| - 1]);
      var (t, c) := sched[|sched| - 1];
      if t in s.pc {
        StepInv(s, t, c);
      }
    }
  }

  /** Every change of the list is one of three, each at one instant: a push puts its value in front, a
      for_each rewrites the element it visits, a remove_if takes out the element it has tested. */
  lemma StepElements(threads: set<Tid>, sched: Schedule, t: Tid, c: Choice) returns (i: nat)
    requires t in Run(threads, sched).pc
    ensures var s := Run(threads, sched); var s' := Step(s, t, c); var p := s.pc[t];
      && Inv(s) && Inv(s')
      && if p.PushLink? then Values(s') == [p.v] + Values(s)
         else if p.Walk? && p.k.Each? && p.at.Visit? then
           i < |Values(s)| && s.chain[i + 1] == p.at.next.a && Values(s') == Values(s)[i := Image(p.k, Values(s)[i])]
         else if p.Walk? && p.at.Splice? then
           i < |Values(s)| && s.chain[i + 1] == p.at.next.a && Values(s') == Values(s)[..i] + Values(s)[i + 1..]
         else Values(s') == Values(s)
  {
    RunInv(threads, sched);
    var s := Run(threads, sched);
    StepInv(s, t, c);
    var s', p := Step(s, t, c), s.pc[t];
    i := 0;
    if p.PushLink? {
      PushValues(s, t, p.n, p.v, s');
    } else if p.Walk? && p.k.Each? && p.at.Visit? {
      i := VisitValues(s, t, p.k, p.at.next, s');
    } else if p.Walk? && p.at.Splice? {
      i := SpliceValues(s, t, p.k, p.at.cur, p.at.next, s');
    } else {
      SameValues(s, t, c, s');
    }
  }

  /** The pointers into the list that a walking thread may still follow. */
  function Pointers(p: Pc): set<Ref> {
    if !p.Walk? then {}
    else
      match p.at
      case LockHead => {}
      case Next(cur) => {cur}
      case Visit(next) => {next}
      case Exit(cur, _) => {cur}
      case UnlockOld(cur, _) => {cur}
      case Free(cur, _) => {cur}
      case _ => {p.at.cur, p.at.next}
  }

  /** The thread is about to unlink `r`, or has unlinked it and is about to destroy it. */
  predicate Destroys(p: Pc, r: Ref) {
    RoleOf(p) == Remover(r) || (p.Walk? && (p.at.Detach? || p.at.Splice?) && p.at.next == r)
  }

  lemma Anchored(s: State, t: Tid, r: Ref)
    requires Inv(s) && t in s.pc && r in Pointers(s.pc[t])
    ensures Live(s, r) && InList(s.heap[r.a])
    ensures s.heap[r.a].mutex == Some(t)
            || exists q :: q in Pointers(s.pc[t]) && Live(s, q) && s.heap[q.a].mutex == Some(t)
                && Adjacent(s.chain, q.a, r.a)
  {
    assert ThreadInv(s, t);
    var at := s.pc[t].at;
    if at.LockNext? {
      NextInList(s, t, at.cur, at.next);
      assert at.cur in Pointers(s.pc[t]);
    }
  }

  lemma NotDestroyed(s: State, t: Tid, r: Ref, u: Tid)
    requires Inv(s) && t in s.pc && r in Pointers(s.pc[t]) && u in s.pc && u != t
    ensures !Destroys(s.pc[u], r)
  {
    Anchored(s, t, r);
    assert ThreadInv(s, u);
    if Destroys(s.pc[u], r) && s.pc[u].Walk? && s.pc[u].at.Detach? {
      NextInList(s, u, s.pc[u].at.cur, s.pc[u].at.next);
    }
  }

  /** Under every schedule: no deleted node is touched; a pointer into the list is to a linked node that is
      locked by the thread, or is the successor of one locked by it; and no other thread is destroying it. */
  lemma LockedPointers(threads: set<Tid>, sched: Schedule, t: Tid, r: Ref)
    requires t in Run(threads, sched).pc && r in Pointers(Run(threads, sched).pc[t])
    ensures var s := Run(threads, sched);
      && !s.fault && Live(s, r) && InList(s.heap[r.a])
      && (s.heap[r.a].mutex == Some(t)
          || exists q :: q in Pointers(s.pc[t]) && Live(s, q) && s.heap[q.a].mutex == Some(t)
              && Adjacent(s.chain, q.a, r.a))
      && forall u :: u in s.pc && u != t ==> !Destroys(s.pc[u], r)
  {
    RunInv(threads, sched);
    var s := Run(threads, sched);
    Anchored(s, t, r);
    forall u | u in s.pc && u != t ensures !Destroys(s.pc[u], r) {
      NotDestroyed(s, t, r, u);
    }
  }

  predicate Blocked(s: State, t: Tid)
    requires t in s.pc
  {
    match s.pc[t]
    case PushLock(_, _) => HEAD in s.heap && s.heap[HEAD].mutex.Some?
    case Walk(_, at) =>
      (at.LockHead? && HEAD in s.heap && s.heap[HEAD].mutex.Some?)
      || (at.LockNext? && at.next.a in s.heap && s.heap[at.next.a].mutex.Some?)
    case _ => false
  }

  /** Mutexes are requested in the order of the list, so the holder of a later one is found, and in the
      end one that can move. */
  lemma {:induction false} Unblocked(s: State, u: Tid, i: nat) returns (w: Tid)
    requires Inv(s) && u in s.pc && i < |s.chain| && s.chain[i] in Locked(s.pc[u])
    ensures w in s.pc && Locked(s.pc[w]) != {} && !Blocked(s, w)
    decreases |s.chain| - i
  {
    if Blocked(s, u) {
      assert ThreadInv(s, u);
      NextInList(s, u, s.pc[u].at.cur, s.pc[u].at.next);
      var x, j :| 0 <= x < j < |s.chain| && j == x + 1 && s.chain[x] == s.pc[u].at.cur.a
          && s.chain[j] == s.pc[u].at.next.a;
      assert x == i;
      assert NodeInv(s, s.chain[j]);
      w := Unblocked(s, s.heap[s.chain[j]].mutex.value, j);
    } else {
      w := u;
    }
  }

  /** No deadlock: whenever a thread is blocked, some thread that holds a mutex can move. */
  lemma NoDeadlock(threads: set<Tid>, sched: Schedule, t: Tid) returns (w: Tid)
    requires t in Run(threads, sched).pc && Blocked(Run(threads, sched), t)
    ensures var s := Run(threads, sched); w in s.pc && Locked(s.pc[w]) != {} && !Blocked(s, w)
  {
    RunInv(threads, sched);
    var s := Run(threads, sched);
    assert ThreadInv(s, t);
    if s.pc[t].Walk? && s.pc[t].at.LockNext? {
      NextInList(s, t, s.pc[t].at.cur, s.pc[t].at.next);
      var x, j :| 0 <= x < j < |s.chain| && j == x + 1 && s.chain[x] == s.pc[t].at.cur.a
          && s.chain[j] == s.pc[t].at.next.a;
      w := Unblocked(s, t, x);
    } else {
      assert NodeInv(s, HEAD);
      w := Unblocked(s, s.heap[HEAD].mutex.value, 0);
    }
  }

  /** When no operation is in progress, the live nodes are exactly the listed ones, all unlocked. */
  lemma NothingLeaks(threads: set<Tid>, sched: Schedule)
    requires forall t :: t in Run(threads, sched).pc ==> Run(threads, sched).pc[t] == Idle
    ensures var s := Run(threads, sched);
      forall a :: (a in s.heap <==> a in s.chain) && (a in s.heap ==> s.heap[a].mutex == None)
  {
    RunInv(threads, sched);
    var s := Run(threads, sched);
    forall a | a in s.heap ensures a in s.chain && s.heap[a].mutex == None {
      assert NodeInv(s, a);
    }
  }
}
