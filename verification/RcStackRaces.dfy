/** The reference-counted stack is free of data races on the fields of its nodes that are not atomic. */
module RcStackRaces {
  import opened Wrappers
  import opened LinearSpec
  import opened RcStack
  import opened RcStackInvariant
  import opened RcStackTheorems

  // ---------------------------------------------------------------- the accesses of a step

  /** The fields of a node that are not atomic. */
  datatype Location = NextOf(a: Addr) | DataOf(a: Addr)

  /** What the next step of `t` may write; a failing compare-exchange writes its expected value, and a
      deletion writes the whole node. */
  function Writes(s: State, t: Tid): set<Location>
    requires t in s.pc
  {
    match s.pc[t]
    case PushLoad(n, _, _) => {NextOf(n)}
    case PushCas(n, _, _) => {NextOf(n)}
    case PopData(seen, _) => {DataOf(seen.ptr)}
    case PopFree(p, _, _) => {NextOf(p), DataOf(p)}
    case RetryFree(p, _, _) => {NextOf(p), DataOf(p)}
    case _ => {}
  }

  /** What else it reads. */
  function Reads(s: State, t: Tid): set<Location>
    requires t in s.pc
  {
    match s.pc[t]
    case PopNext(seen, _) => {NextOf(seen.ptr)}
    case _ => {}
  }

  /** From `s` to `s'` only the locations in `w` have been written; at most the node at `spare` is new. */
  ghost predicate WritesOnly(s: State, s': State, w: set<Location>, spare: Addr) {
    && (forall a :: a in s.heap && NextOf(a) !in w ==> a in s'.heap && s'.heap[a].next == s.heap[a].next)
    && (forall a :: a in s.heap && DataOf(a) !in w ==> a in s'.heap && s'.heap[a].data == s.heap[a].data)
    && (forall a :: a in s'.heap && a !in s.heap ==> a == spare)
  }

  lemma PushWrites(s: State, t: Tid, c: Choice)
    requires t in s.pc && (AtPush(s.pc[t]) || Quick(s.pc[t]))
    ensures WritesOnly(s, Step(s, t, c), Writes(s, t), c.spare)
  {
  }

  lemma EnterWrites(s: State, t: Tid, c: Choice)
    requires t in s.pc && (s.pc[t].PopInc? || s.pc[t].PopNext?)
    ensures WritesOnly(s, Step(s, t, c), Writes(s, t), c.spare)
  {
  }

  lemma TakeWrites(s: State, t: Tid, c: Choice)
    requires t in s.pc && (s.pc[t].PopCas? || s.pc[t].PopData?)
    ensures WritesOnly(s, Step(s, t, c), Writes(s, t), c.spare)
  {
  }

  lemma ReleaseWrites(s: State, t: Tid, c: Choice)
    requires t in s.pc && (s.pc[t].PopAdd? || s.pc[t].PopSub?)
    ensures WritesOnly(s, Step(s, t, c), Writes(s, t), c.spare)
  {
  }

  lemma FreeWrites(s: State, t: Tid, c: Choice)
    requires t in s.pc && (s.pc[t].PopFree? || s.pc[t].RetryFree?)
    ensures WritesOnly(s, Step(s, t, c), Writes(s, t), c.spare)
  {
  }

  /** `Writes` is all that a step writes. */
  lemma WritesAll(s: State, t: Tid, c: Choice)
    requires t in s.pc
    ensures WritesOnly(s, Step(s, t, c), Writes(s, t), c.spare)
  {
    var p := s.pc[t];
    if AtPush(p) || Quick(p) {
      PushWrites(s, t, c);
    } else if p.PopInc? || p.PopNext? {
      EnterWrites(s, t, c);
    } else if p.PopCas? || p.PopData? {
      TakeWrites(s, t, c);
    } else if p.PopAdd? || p.PopSub? {
      ReleaseWrites(s, t, c);
    } else {
      FreeWrites(s, t, c);
    }
  }

  /** `r` differs from `s` at most in fields that are not in `l`. */
  ghost predicate SameFor(s: State, r: State, l: set<Location>) {
    && r == s.(heap := r.heap) && (forall a :: a in r.heap <==> a in s.heap)
    && (forall a :: a in s.heap ==>
          r.heap[a].id == s.heap[a].id && r.heap[a].place == s.heap[a].place
              && r.heap[a].internal == s.heap[a].internal)
    && (forall a :: a in s.heap && NextOf(a) in l ==> r.heap[a].next == s.heap[a].next)
    && (forall a :: a in s.heap && DataOf(a) in l ==> r.heap[a].data == s.heap[a].data)
  }

  /** `r'` differs from `s'` at most in fields that are not in `w`. */
  ghost predicate SameResult(s': State, r': State, w: set<Location>) {
    && r' == s'.(heap := r'.heap)
    && (forall a :: NextOf(a) in w && a in s'.heap ==> a in r'.heap && r'.heap[a].next == s'.heap[a].next)
    && (forall a :: DataOf(a) in w && a in s'.heap ==> a in r'.heap && r'.heap[a].data == s'.heap[a].data)
  }

  lemma PushReads(s: State, r: State, t: Tid, c: Choice)
    requires t in s.pc && (AtPush(s.pc[t]) || Quick(s.pc[t]))
    requires SameFor(s, r, Reads(s, t) + Writes(s, t))
    ensures SameResult(Step(s, t, c), Step(r, t, c), Writes(s, t))
  {
  }

  lemma EnterReads(s: State, r: State, t: Tid, c: Choice)
    requires t in s.pc && (s.pc[t].PopInc? || s.pc[t].PopNext?)
    requires SameFor(s, r, Reads(s, t) + Writes(s, t))
    ensures SameResult(Step(s, t, c), Step(r, t, c), Writes(s, t))
  {
  }

  lemma TakeReads(s: State, r: State, t: Tid, c: Choice)
    requires t in s.pc && (s.pc[t].PopCas? || s.pc[t].PopData?)
    requires SameFor(s, r, Reads(s, t) + Writes(s, t))
    ensures SameResult(Step(s, t, c), Step(r, t, c), Writes(s, t))
  {
  }

  lemma ReleaseReads(s: State, r: State, t: Tid, c: Choice)
    requires t in s.pc && (s.pc[t].PopAdd? || s.pc[t].PopSub?)
    requires SameFor(s, r, Reads(s, t) + Writes(s, t))
    ensures SameResult(Step(s, t, c), Step(r, t, c), Writes(s, t))
  {
  }

  lemma FreeReads(s: State, r: State, t: Tid, c: Choice)
    requires t in s.pc && (s.pc[t].PopFree? || s.pc[t].RetryFree?)
    requires SameFor(s, r, Reads(s, t) + Writes(s, t))
    ensures SameResult(Step(s, t, c), Step(r, t, c), Writes(s, t))
  {
  }

  /** `Reads` and `Writes` are all that a step depends on. */
  lemma ReadsAll(s: State, r: State, t: Tid, c: Choice)
    requires t in s.pc && SameFor(s, r, Reads(s, t) + Writes(s, t))
    ensures SameResult(Step(s, t, c), Step(r, t, c), Writes(s, t))
  {
    var p := s.pc[t];
    if AtPush(p) || Quick(p) {
      PushReads(s, r, t, c);
    } else if p.PopInc? || p.PopNext? {
      EnterReads(s, r, t, c);
    } else if p.PopCas? || p.PopData? {
      TakeReads(s, r, t, c);
    } else if p.PopAdd? || p.PopSub? {
      ReleaseReads(s, r, t, c);
    } else {
      FreeReads(s, r, t, c);
    }
  }

  // ---------------------------------------------------------------- no race

  /** A thread writes to a node that it is pushing, has unlinked, or is about to delete. */
  lemma WritesOwn(s: State, t: Tid, x: Location)
    requires Inv(s) && t in s.pc && x in Writes(s, t)
    ensures x.a in s.heap
    ensures var p := s.heap[x.a].place; (p.Fresh? || p.Popped? || p.Doomed?) && p.t == t && (p.Popped? ==> x.DataOf?)
  {
    assert PcInv(s, t);
  }

  lemma ReadsHeld(s: State, u: Tid, x: Location)
    requires Inv(s) && u in s.pc && x in Reads(s, u)
    ensures x.NextOf? && Involves(s.pc[u], x.a) && x.a in s.heap
  {
    assert PcInv(s, u);
  }

  /** No data race: in every reachable state, no thread is about to write a field that another is about to
      read or write. */
  lemma NoDataRace(threads: set<Tid>, sched: Schedule, t: Tid, u: Tid)
    requires t in Run(threads, sched).pc && u in Run(threads, sched).pc && t != u
    ensures Writes(Run(threads, sched), t) !! (Writes(Run(threads, sched), u) + Reads(Run(threads, sched), u))
  {
    RunInv(threads, sched);
    var s := Run(threads, sched);
    forall x | x in Writes(s, t) ensures x !in Writes(s, u) + Reads(s, u) {
      WritesOwn(s, t, x);
      if x in Writes(s, u) {
        WritesOwn(s, u, x);
      } else if x in Reads(s, u) {
        ReadsHeld(s, u, x);
        Alone(s, t, x.a);
      }
    }
  }
}
