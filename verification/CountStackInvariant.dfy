/** The invariant of the stack with a count of the threads in pop, kept by every step. */
module CountStackInvariant {
  import opened Wrappers
  import opened LinearSpec
  import opened CountStack

  // ---------------------------------------------------------------- invariant

  /** What a thread has to do with a single node. */
  datatype Role =
    | NoRole
    | Pusher(a: Addr)  // allocated it and has not linked it yet
    | Holder(a: Addr)  // has loaded it from the head and may still read it
    | Owner(a: Addr)   // has unlinked it

  function RoleOf(p: Pc): Role {
    match p
    case PushLoad(n, _, _) => Pusher(n)
    case PushCas(n, _, _) => Pusher(n)
    case PopNext(seen, _) => Holder(seen)
    case PopCas(seen, _, _) => Holder(seen)
    case PopData(seen, _) => Owner(seen)
    case Reclaim(a, _, _, at) => if a == NULL || at.ShareLeave? then NoRole else Owner(a)
    case _ => NoRole
  }

  /** The nodes a thread has taken from `_to_be_deleted`: a complete list, or one whose last link is being rewritten. */
  datatype Hoard = NoHoard | Closed(first: Addr, mine: seq<Addr>) | Open(first: Addr, last: Addr, mine: seq<Addr>)

  function HoardOf(p: Pc): Hoard {
    if !p.Reclaim? then NoHoard
    else
      match p.at
      case Leave(first, mine) => Closed(first, mine)
      case DelNext(first, mine) => Closed(first, mine)
      case DelFree(first, _, _, mine) => Closed(first, mine)
      case Walk(first, _, mine) => Closed(first, mine)
      case ChainLoad(first, last, mine) => Open(first, last, mine)
      case ChainCas(first, last, mine) => Open(first, last, mine)
      case _ => NoHoard
  }

  predicate Hoards(h: Hoard, a: Addr) {
    !h.NoHoard? && a in h.mine
  }

  /** The threads that `_threads_in_pop` counts. */
  predicate Counted(p: Pc) {
    p.PopLoad? || p.PopNext? || p.PopCas? || p.PopData?
    || (p.Reclaim? && (p.at.Check? || p.at.TakeList? || p.at.Leave? || p.at.ShareLoad? || p.at.ShareCas?
        || p.at.ShareLeave?))
  }

  ghost function Counters(pc: map<Tid, Pc>): set<Tid> {
    set t | t in pc && Counted(pc[t])
  }

  /** The thread has seen that it was the only one in pop after unlinking its node. */
  predicate Alone(p: Pc) {
    p.Reclaim? && !p.at.Check? && !p.at.ShareLoad? && !p.at.ShareCas? && !p.at.ShareLeave?
  }

  /** The thread has decided to delete node `a`. */
  predicate Frees(p: Pc, a: Addr) {
    (Alone(p) && RoleOf(p) == Owner(a))
    || (p.Reclaim? && (p.at.DelNext? || p.at.DelFree?) && a in p.at.mine)
  }

  /** `chain` lists the nodes reached from pointer `p`, each once, down to the null pointer. */
  ghost predicate IsChain(heap: map<Addr, Node>, p: Addr, chain: seq<Addr>) {
    && IsSegment(heap, chain)
    && (if chain == [] then p == NULL else p == chain[0])
    && (chain != [] ==> heap[chain[|chain| - 1]].next == NULL)
  }

  ghost predicate IsSegment(heap: map<Addr, Node>, m: seq<Addr>) {
    && (forall i :: 0 <= i < |m| ==> m[i] in heap)
    && (forall i, j :: 0 <= i < j < |m| ==> m[i] != m[j])
    && (forall i, j :: 0 <= i < j < |m| && j == i + 1 ==> heap[m[i]].next == m[j])
  }

  ghost predicate ChainInv(s: State) {
    && NULL !in s.heap
    && IsChain(s.heap, s.head, s.chain)
    && (forall a :: a in s.heap ==> (s.heap[a].place == Linked <==> a in s.chain))
  }

  ghost predicate PendingInv(s: State) {
    && IsChain(s.heap, s.tbd, s.pending)
    && (forall a :: a in s.heap ==> (s.heap[a].place == Pending <==> a in s.pending))
  }

  ghost predicate NodeInv(s: State, a: Addr)
    requires a in s.heap
  {
    match s.heap[a].place
    case Fresh(t) => t in s.pc && RoleOf(s.pc[t]) == Pusher(a)
    case Linked => s.heap[a].data.Some?
    case Pending => true
    case Owned(t) => t in s.pc && (RoleOf(s.pc[t]) == Owner(a) || Hoards(HoardOf(s.pc[t]), a))
  }

  ghost predicate RoleInv(s: State, t: Tid)
    requires t in s.pc
  {
    match RoleOf(s.pc[t])
    case NoRole => true
    case Pusher(a) => a in s.heap && s.heap[a].place == Fresh(t)
    case Holder(a) => a in s.heap && !s.heap[a].place.Fresh?
    case Owner(a) => a in s.heap && s.heap[a].place == Owned(t) && !Hoards(HoardOf(s.pc[t]), a)
  }

  ghost predicate HoardInv(s: State, t: Tid)
    requires t in s.pc
  {
    match HoardOf(s.pc[t])
    case NoHoard => true
    case Closed(first, mine) =>
      IsChain(s.heap, first, mine) && forall i :: 0 <= i < |mine| ==> s.heap[mine[i]].place == Owned(t)
    case Open(first, last, mine) =>
      IsSegment(s.heap, mine) && mine != [] && mine[0] == first && mine[|mine| - 1] == last
      && forall i :: 0 <= i < |mine| ==> s.heap[mine[i]].place == Owned(t)
  }

  ghost predicate PcInv(s: State, t: Tid)
    requires t in s.pc
  {
    match s.pc[t]
    case PushLoad(n, id, v) => Live(s, n, id) && s.heap[n].data == Some(v)
    case PushCas(n, id, v) => Live(s, n, id) && s.heap[n].data == Some(v)
    case PopNext(seen, id) => Live(s, seen, id)
    case PopCas(seen, id, nx) => Live(s, seen, id) && (s.heap[seen].place == Linked ==> s.heap[seen].next == nx)
    case PopData(seen, id) => Live(s, seen, id) && s.heap[seen].data.Some?
    case Reclaim(a, id, _, at) =>
      && (a != NULL && !at.ShareLeave? ==> Live(s, a, id))
      && (at.ShareCas? ==> a != NULL)
      && (at.Walk? ==> at.last in at.mine)
      && (at.DelFree? ==> Live(s, at.first, at.cid) && at.first != NULL && s.heap[at.first].next == at.next)
    case _ => true
  }

  ghost predicate ThreadInv(s: State, t: Tid)
    requires t in s.pc
  {
    RoleInv(s, t) && HoardInv(s, t) && PcInv(s, t)
  }

  /** Thread `d` does not delete a node that thread `u` may still read. */
  ghost predicate PairInv(pc: map<Tid, Pc>, d: Tid, u: Tid)
    requires d in pc && u in pc
  {
    RoleOf(pc[u]).Holder? ==> !Frees(pc[d], RoleOf(pc[u]).a)
  }

  ghost predicate Pairs(pc: map<Tid, Pc>) {
    forall d, u {:trigger PairInv(pc, d, u)} :: d in pc && u in pc ==> PairInv(pc, d, u)
  }

  ghost predicate Inv(s: State) {
    && !s.fault
    && ChainInv(s)
    && PendingInv(s)
    && s.tip == |Counters(s.pc)|
    && (forall a {:trigger NodeInv(s, a)} :: a in s.heap ==> NodeInv(s, a))
    && (forall t {:trigger ThreadInv(s, t)} :: t in s.pc ==> ThreadInv(s, t))
    && Pairs(s.pc)
  }

  // ---------------------------------------------------------------- frames

  lemma CountersMove(pc: map<Tid, Pc>, t: Tid, p: Pc)
    requires t in pc
    ensures |Counters(pc[t := p])| == |Counters(pc)| + (if Counted(p) then 1 else 0) - (if Counted(pc[t]) then 1 else 0)
  {
    var h, h' := Counters(pc), Counters(pc[t := p]);
    if Counted(p) {
      assert h' == h + {t};
    } else {
      assert h' == h - {t};
    }
  }

  lemma HolderCounts(pc: map<Tid, Pc>, t: Tid, u: Tid)
    requires t in pc && u in pc && u != t && RoleOf(pc[u]).Holder?
    ensures (if Counted(pc[t]) then 2 else 1) <= |Counters(pc)|
  {
    var h := Counters(pc);
    if Counted(pc[t]) {
      assert h == (h - {t, u}) + {t, u} && |{t, u}| == 2;
    } else {
      assert h == (h - {u}) + {u};
    }
  }

  /** `s'` differs from `s` only in thread `t` and in the node at `a`. */
  ghost predicate Touches(s: State, s': State, t: Tid, a: Addr) {
    && t in s.pc && t in s'.pc && s'.pc == s.pc[t := s'.pc[t]]
    && (forall b :: b != a ==> (b in s'.heap <==> b in s.heap))
    && (forall b :: b != a && b in s.heap ==> s'.heap[b] == s.heap[b])
  }

  /** A change of role that concerns no node other than `a`. */
  predicate RoleMove(x: Role, x': Role, a: Addr) {
    x == x' || ((x.NoRole? || x.a == a) && (x'.NoRole? || x'.a == a))
  }

  ghost predicate HoardMove(h: Hoard, h': Hoard, a: Addr) {
    forall b :: b != a ==> Hoards(h, b) == Hoards(h', b)
  }

  lemma NodesInv(s: State, s': State, t: Tid, a: Addr)
    requires Inv(s) && Touches(s, s', t, a)
    requires RoleMove(RoleOf(s.pc[t]), RoleOf(s'.pc[t]), a) && HoardMove(HoardOf(s.pc[t]), HoardOf(s'.pc[t]), a)
    requires a in s'.heap ==> NodeInv(s', a)
    ensures forall b {:trigger NodeInv(s', b)} :: b in s'.heap ==> NodeInv(s', b)
  {
    forall b {:trigger NodeInv(s', b)} | b in s'.heap ensures NodeInv(s', b) {
      if b != a {
        assert NodeInv(s, b);
        assert Hoards(HoardOf(s.pc[t]), b) == Hoards(HoardOf(s'.pc[t]), b);
      }
    }
  }

  /** What another thread `u` relies on about a node it may be using. */
  ghost predicate KeptNode(n: Node, n': Node, u: Tid) {
    && n'.id == n.id
    && (n.place == Fresh(u) || n.place == Owned(u) ==> n' == n)
    && (!n.place.Fresh? ==> !n'.place.Fresh?)
    && (!n.place.Fresh? && n'.place == Linked ==> n.place == Linked && n'.next == n.next)
  }

  predicate Uses(p: Pc, a: Addr) {
    (!RoleOf(p).NoRole? && RoleOf(p).a == a) || Hoards(HoardOf(p), a)
  }

  /** No other thread is disturbed by what happens to the node at `a`. */
  ghost predicate OthersKeep(s: State, s': State, t: Tid, a: Addr) {
    forall u :: u in s.pc && u != t && a in s.heap && Uses(s.pc[u], a) ==>
          a in s'.heap && KeptNode(s.heap[a], s'.heap[a], u)
  }

  lemma ThreadKept(s: State, s': State, u: Tid)
    requires u in s.pc && ThreadInv(s, u) && u in s'.pc && s'.pc[u] == s.pc[u]
    requires forall a :: a in s.heap && Uses(s.pc[u], a) ==> a in s'.heap && KeptNode(s.heap[a], s'.heap[a], u)
    ensures ThreadInv(s', u)
  {
    var h := HoardOf(s.pc[u]);
    if !h.NoHoard? {
      forall i | 0 <= i < |h.mine| ensures h.mine[i] in s'.heap && s'.heap[h.mine[i]] == s.heap[h.mine[i]] {
        assert Uses(s.pc[u], h.mine[i]);
      }
    }
  }

  lemma ThreadsInv(s: State, s': State, t: Tid, a: Addr)
    requires Inv(s) && Touches(s, s', t, a) && OthersKeep(s, s', t, a) && ThreadInv(s', t)
    ensures forall u {:trigger ThreadInv(s', u)} :: u in s'.pc ==> ThreadInv(s', u)
  {
    forall u {:trigger ThreadInv(s', u)} | u in s'.pc ensures ThreadInv(s', u) {
      if u != t {
        assert ThreadInv(s, u);
        ThreadKept(s, s', u);
      }
    }
  }

  /** `t` becomes neither a holder nor a deleter of anything new. */
  ghost predicate Calm(p: Pc, p': Pc) {
    && (RoleOf(p').Holder? ==> RoleOf(p') == RoleOf(p))
    && (forall a :: Frees(p', a) ==> Frees(p, a))
  }

  lemma PairsCalm(pc: map<Tid, Pc>, t: Tid, p: Pc)
    requires Pairs(pc) && t in pc && Calm(pc[t], p) && (RoleOf(p).Holder? ==> forall a :: !Frees(p, a))
    ensures Pairs(pc[t := p])
  {
    forall d, u {:trigger PairInv(pc[t := p], d, u)} | d in pc && u in pc ensures PairInv(pc[t := p], d, u) {
      assert PairInv(pc, d, u);
      assert PairInv(pc, t, u);
    }
  }

  /** The invariant after a step, from what the step does to its thread and its node. */
  lemma Assemble(s: State, s': State, t: Tid, a: Addr)
    requires Inv(s) && Touches(s, s', t, a)
    requires RoleMove(RoleOf(s.pc[t]), RoleOf(s'.pc[t]), a) && HoardMove(HoardOf(s.pc[t]), HoardOf(s'.pc[t]), a)
    requires !s'.fault && ChainInv(s') && PendingInv(s')
    requires s'.tip == s.tip + (if Counted(s'.pc[t]) then 1 else 0) - (if Counted(s.pc[t]) then 1 else 0)
    requires a in s'.heap ==> NodeInv(s', a)
    requires ThreadInv(s', t) && OthersKeep(s, s', t, a)
    requires Pairs(s'.pc)
    ensures Inv(s')
  {
    CountersMove(s.pc, t, s'.pc[t]);
    NodesInv(s, s', t, a);
    ThreadsInv(s, s', t, a);
  }

  /** Two lists kept when the node at `a`, which is on neither, changes. */
  lemma ListsFrame(s: State, s': State, a: Addr)
    requires ChainInv(s) && PendingInv(s) && NULL !in s'.heap
    requires s'.head == s.head && s'.chain == s.chain && s'.tbd == s.tbd && s'.pending == s.pending
    requires forall b :: b != a ==> (b in s'.heap <==> b in s.heap)
    requires forall b :: b != a && b in s.heap ==> s'.heap[b] == s.heap[b]
    requires a in s.heap ==> s.heap[a].place != Linked && s.heap[a].place != Pending
    requires a in s'.heap ==> s'.heap[a].place != Linked && s'.heap[a].place != Pending
    ensures ChainInv(s') && PendingInv(s')
  {
    assert a !in s.chain && a !in s.pending;
  }

  /** Another thread can be involved with a node of `t` only as a holder of an unlinked one. */
  lemma Others(s: State, t: Tid, a: Addr)
    requires Inv(s) && a in s.heap && (s.heap[a].place == Fresh(t) || s.heap[a].place == Owned(t))
    ensures forall u :: u in s.pc && u != t && Uses(s.pc[u], a) ==>
              RoleOf(s.pc[u]) == Holder(a) && s.heap[a].place == Owned(t)
    ensures forall u :: u in s.pc && u != t ==> !Hoards(HoardOf(s.pc[u]), a)
  {
    forall u | u in s.pc && u != t ensures !Hoards(HoardOf(s.pc[u]), a)
      && (Uses(s.pc[u], a) ==> RoleOf(s.pc[u]) == Holder(a) && s.heap[a].place == Owned(t))
    {
      assert ThreadInv(s, u);
    }
  }

  // ---------------------------------------------------------------- each kind of step keeps the invariant

  /** A thread that is the only one counted may decide to delete whatever it owns: nobody holds a node. */
  lemma PairsSole(pc: map<Tid, Pc>, t: Tid, p: Pc)
    requires Pairs(pc) && t in pc && Counted(pc[t]) && |Counters(pc)| == 1 && !RoleOf(p).Holder?
    ensures Pairs(pc[t := p])
  {
    forall d, u {:trigger PairInv(pc[t := p], d, u)} | d in pc && u in pc ensures PairInv(pc[t := p], d, u) {
      if u != t && RoleOf(pc[u]).Holder? {
        HolderCounts(pc, t, u);
      }
    }
  }

  /** A thread may start to hold a node that nobody is about to delete. */
  lemma PairsHold(pc: map<Tid, Pc>, t: Tid, p: Pc)
    requires Pairs(pc) && t in pc && RoleOf(p).Holder?
    requires forall d :: d in pc && d != t ==> !Frees(pc[d], RoleOf(p).a)
    ensures Pairs(pc[t := p])
  {
    forall d, u {:trigger PairInv(pc[t := p], d, u)} | d in pc && u in pc ensures PairInv(pc[t := p], d, u) {
      assert PairInv(pc, d, u);
    }
  }

  /** A step that moves the program counter and possibly the counter of threads in pop. */
  lemma MoveStep(s: State, s': State, t: Tid)
    requires Inv(s) && t in s.pc && t in s'.pc && s' == s.(pc := s.pc[t := s'.pc[t]], tip := s'.tip)
    requires s'.tip == s.tip + (if Counted(s'.pc[t]) then 1 else 0) - (if Counted(s.pc[t]) then 1 else 0)
    requires RoleMove(RoleOf(s.pc[t]), RoleOf(s'.pc[t]), NULL) && HoardMove(HoardOf(s.pc[t]), HoardOf(s'.pc[t]), NULL)
    requires ThreadInv(s', t) && Pairs(s'.pc)
    ensures Inv(s')
  {
    Assemble(s, s', t, NULL);
  }

  lemma CalmStep(s: State, s': State, t: Tid)
    requires Inv(s) && t in s.pc && t in s'.pc && s' == s.(pc := s.pc[t := s'.pc[t]], tip := s'.tip)
    requires s'.tip == s.tip + (if Counted(s'.pc[t]) then 1 else 0) - (if Counted(s.pc[t]) then 1 else 0)
    requires RoleOf(s.pc[t]) == RoleOf(s'.pc[t]) && HoardMove(HoardOf(s.pc[t]), HoardOf(s'.pc[t]), NULL)
    requires ThreadInv(s', t) && forall a :: Frees(s'.pc[t], a) ==> Frees(s.pc[t], a)
    ensures Inv(s')
  {
    PairsCalm(s.pc, t, s'.pc[t]);
    MoveStep(s, s', t);
  }

  /** A step by which `t` rewrites a node that it is pushing or owns. */
  lemma WriteStep(s: State, s': State, t: Tid, a: Addr)
    requires Inv(s) && t in s.pc && t in s'.pc && a in s.heap && a in s'.heap
    requires s.heap[a].place == Fresh(t) || s.heap[a].place == Owned(t)
    requires s' == s.(pc := s.pc[t := s'.pc[t]], heap := s.heap[a := s'.heap[a]])
    requires s'.heap[a].id == s.heap[a].id && s'.heap[a].place == s.heap[a].place
    requires RoleOf(s'.pc[t]) == RoleOf(s.pc[t]) && HoardMove(HoardOf(s.pc[t]), HoardOf(s'.pc[t]), NULL)
    requires Counted(s'.pc[t]) == Counted(s.pc[t]) && forall b :: Frees(s'.pc[t], b) ==> Frees(s.pc[t], b)
    requires ThreadInv(s', t)
    ensures Inv(s')
  {
    PairsCalm(s.pc, t, s'.pc[t]);
    Others(s, t, a);
    assert NodeInv(s, a);
    assert Hoards(HoardOf(s.pc[t]), NULL) == Hoards(HoardOf(s'.pc[t]), NULL) by { NoNull(s, s', t); }
    ListsFrame(s, s', a);
    Assemble(s, s', t, a);
  }

  lemma NoNull(s: State, s': State, t: Tid)
    requires NULL !in s.heap && NULL !in s'.heap && t in s.pc && ThreadInv(s, t) && t in s'.pc && ThreadInv(s', t)
    ensures !Hoards(HoardOf(s.pc[t]), NULL) && !Hoards(HoardOf(s'.pc[t]), NULL)
  {
  }

  lemma AllocInv(s: State, t: Tid, v: Value, a: Addr)
    requires Inv(s) && t in s.pc && s.pc[t] == PushAlloc(v) && a != NULL && a !in s.heap
    ensures Inv(DoAlloc(s, t, v, a))
  {
    var s' := DoAlloc(s, t, v, a);
    PairsCalm(s.pc, t, s'.pc[t]);
    ListsFrame(s, s', a);
    Assemble(s, s', t, a);
  }

  lemma PushLoadInv(s: State, t: Tid, n: Addr, id: nat, v: Value)
    requires Inv(s) && t in s.pc && (s.pc[t] == PushLoad(n, id, v) || s.pc[t] == PushCas(n, id, v))
    ensures Inv(DoPushLoad(s, t, n, id, v))
  {
    assert ThreadInv(s, t);
    WriteStep(s, DoPushLoad(s, t, n, id, v), t, n);
  }

  lemma LinkChain(heap: map<Addr, Node>, heap': map<Addr, Node>, p: Addr, m: seq<Addr>, a: Addr, place: Place)
    requires IsChain(heap, p, m) && a in heap && heap[a].next == p && heap' == heap[a := heap[a].(place := place)]
             && a !in m
    ensures IsChain(heap', a, [a] + m)
  {
    var m' := [a] + m;
    forall i, j | 0 <= i < j < |m'| && j == i + 1 ensures heap'[m'[i]].next == m'[j] {
      assert m'[j] == m[i];
      if 0 < i {
        assert m'[i] == m[i - 1];
      }
    }
  }

  lemma LinkLists(s: State, s': State, n: Addr)
    requires ChainInv(s) && PendingInv(s) && n in s.heap && s.heap[n].place.Fresh? && s.heap[n].next == s.head
    requires s'.heap == s.heap[n := s.heap[n].(place := Linked)] && s'.head == n && s'.chain == [n] + s.chain
    requires s'.tbd == s.tbd && s'.pending == s.pending
    ensures ChainInv(s') && PendingInv(s')
  {
    LinkChain(s.heap, s'.heap, s.head, s.chain, n, Linked);
  }

  lemma PushCasInv(s: State, t: Tid, n: Addr, id: nat, v: Value)
    requires Inv(s) && t in s.pc && s.pc[t] == PushCas(n, id, v) && Live(s, n, id) && s.head == s.heap[n].next
    ensures Inv(DoPushCas(s, t, n, id, v, false))
  {
    var s' := DoPushCas(s, t, n, id, v, false);
    assert ThreadInv(s, t);
    Others(s, t, n);
    PairsCalm(s.pc, t, s'.pc[t]);
    LinkLists(s, s', n);
    Assemble(s, s', t, n);
  }

  lemma ArriveInv(s: State, t: Tid)
    requires Inv(s) && t in s.pc && (s.pc[t].PopLoad? || s.pc[t].PopCas?)
    ensures Inv(Arrive(s, t))
  {
    var s' := Arrive(s, t);
    var a := if s.pc[t].PopCas? then s.pc[t].seen else NULL;
    assert ThreadInv(s, t);
    if s.head == NULL {
      PairsCalm(s.pc, t, s'.pc[t]);
    } else {
      HeadSafe(s, t);
      PairsHold(s.pc, t, s'.pc[t]);
    }
    MissInv(s, s', t, a);
  }

  lemma HeadSafe(s: State, t: Tid)
    requires Inv(s) && s.head != NULL
    ensures s.head in s.heap && s.heap[s.head].place == Linked
    ensures forall d :: d in s.pc && d != t ==> !Frees(s.pc[d], s.head)
  {
    assert s.head == s.chain[0];
    forall d | d in s.pc && d != t ensures !Frees(s.pc[d], s.head) {
      assert ThreadInv(s, d);
    }
  }

  /** A holder that goes on, with the head it has just loaded or with none. */
  lemma MissInv(s: State, s': State, t: Tid, a: Addr)
    requires Inv(s) && t in s.pc && t in s'.pc && s' == s.(pc := s.pc[t := s'.pc[t]])
    requires RoleOf(s.pc[t]) == (if a == NULL then NoRole else Holder(a))
             && RoleOf(s'.pc[t]) in {NoRole, Holder(s.head)}
    requires HoardOf(s.pc[t]) == NoHoard && HoardOf(s'.pc[t]) == NoHoard && Counted(s.pc[t]) && Counted(s'.pc[t])
    requires ThreadInv(s', t) && Pairs(s'.pc)
    ensures Inv(s')
  {
    CountersMove(s.pc, t, s'.pc[t]);
    assert ThreadInv(s, t);
    forall b {:trigger NodeInv(s', b)} | b in s'.heap ensures NodeInv(s', b) {
      assert NodeInv(s, b);
    }
    ThreadsInv(s, s', t, NULL);
  }

  lemma UnlinkChain(s: State, s': State, t: Tid)
    requires ChainInv(s) && s.chain != []
    requires s'.heap == s.heap[s.head := s.heap[s.head].(place := Owned(t))]
    requires s'.head == s.heap[s.head].next && s'.chain == s.chain[1..]
    requires PendingInv(s) && s'.tbd == s.tbd && s'.pending == s.pending
    ensures ChainInv(s') && PendingInv(s')
  {
    assert s.heap[s.chain[0]].place == Linked;
    forall a | a in s'.heap ensures s'.heap[a].place == Linked <==> a in s'.chain {
      assert a in s.chain <==> a == s.chain[0] || a in s.chain[1..];
    }
  }

  lemma UnlinkInv(s: State, t: Tid, seen: Addr, id: nat, nx: Addr)
    requires Inv(s) && t in s.pc && s.pc[t] == PopCas(seen, id, nx) && s.head == seen
    ensures Inv(DoPopCas(s, t, seen, id, nx, false))
  {
    assert ThreadInv(s, t);
    assert seen == s.chain[0];
    UnlinkStep(s, DoPopCas(s, t, seen, id, nx, false), t);
  }

  lemma UnlinkStep(s: State, s': State, t: Tid)
    requires Inv(s) && s.chain != [] && t in s.pc && s.pc[t].PopCas? && s.pc[t].seen == s.head && s.head in s.heap
    requires s' == s.(pc := s.pc[t := PopData(s.head, s.pc[t].id)], chain := s.chain[1..], head := s.heap[s.head].next,
                      heap := s.heap[s.head := s.heap[s.head].(place := Owned(t))])
    ensures Inv(s')
  {
    assert ThreadInv(s, t);
    assert NodeInv(s, s.head);
    UnlinkChain(s, s', t);
    PairsCalm(s.pc, t, s'.pc[t]);
    Assemble(s, s', t, s.head);
  }

  lemma PopNextInv(s: State, t: Tid, seen: Addr, id: nat)
    requires Inv(s) && t in s.pc && s.pc[t] == PopNext(seen, id)
    ensures Inv(DoPopNext(s, t, seen, id))
  {
    assert ThreadInv(s, t);
    CalmStep(s, DoPopNext(s, t, seen, id), t);
  }

  lemma PopDataInv(s: State, t: Tid, seen: Addr, id: nat)
    requires Inv(s) && t in s.pc && s.pc[t] == PopData(seen, id)
    ensures Inv(DoPopData(s, t, seen, id))
  {
    assert ThreadInv(s, t);
    WriteStep(s, DoPopData(s, t, seen, id), t, seen);
  }

  // ---------------------------------------------------------------- try_reclaim keeps the invariant

  lemma CheckInv(s: State, s': State, t: Tid, at: Stage)
    requires Inv(s) && t in s.pc && s.pc[t].Reclaim? && s.pc[t].at == Check
    requires at == (if s.tip == 1 then TakeList else ShareLoad) && s' == Goto(s, t, s.pc[t].(at := at))
    ensures Inv(s')
  {
    assert ThreadInv(s, t);
    if s.tip == 1 {
      PairsSole(s.pc, t, s'.pc[t]);
      MoveStep(s, s', t);
    } else {
      CalmStep(s, s', t);
    }
  }

  lemma LeaveInv(s: State, t: Tid, a: Addr, id: nat, res: Option<Value>, first: Addr, mine: seq<Addr>)
    requires Inv(s) && t in s.pc && s.pc[t] == Reclaim(a, id, res, Leave(first, mine))
    ensures Inv(DoLeave(s, t, a, id, res, first, mine))
  {
    var s' := DoLeave(s, t, a, id, res, first, mine);
    assert ThreadInv(s, t);
    if s.tip == 1 {
      PairsSole(s.pc, t, s'.pc[t]);
      MoveStep(s, s', t);
    } else {
      CalmStep(s, s', t);
    }
  }

  lemma DelNextInv(s: State, t: Tid, a: Addr, id: nat, res: Option<Value>, first: Addr, mine: seq<Addr>)
    requires Inv(s) && t in s.pc && s.pc[t] == Reclaim(a, id, res, DelNext(first, mine))
    ensures Inv(DoDelNext(s, t, a, id, res, first, mine))
  {
    var s' := DoDelNext(s, t, a, id, res, first, mine);
    assert ThreadInv(s, t);
    DelNextThread(s, t, a, id, res, first, mine);
    CalmStep(s, s', t);
  }

  lemma DelNextThread(s: State, t: Tid, a: Addr, id: nat, res: Option<Value>, first: Addr, mine: seq<Addr>)
    requires NULL !in s.heap && t in s.pc && ThreadInv(s, t) && s.pc[t] == Reclaim(a, id, res, DelNext(first, mine))
    ensures var s' := DoDelNext(s, t, a, id, res, first, mine); t in s'.pc && ThreadInv(s', t)
    ensures var s' := DoDelNext(s, t, a, id, res, first, mine);
      s' == s.(pc := s.pc[t := s'.pc[t]]) && s'.pc[t].Reclaim? && s'.pc[t].old_head == a
      && ((s'.pc[t].at == FreeOld && mine == []) || (s'.pc[t].at.DelFree? && HoardOf(s'.pc[t]) == HoardOf(s.pc[t])))
  {
    assert mine != [] ==> mine[0] in s.heap;
    if first != NULL {
      SameLists(s, t, s.pc[t].(at := DelFree(first, s.heap[first].id, s.heap[first].next, mine)));
    }
  }

  /** A change of stage that leaves the node and the list of `t` as they are. */
  lemma SameLists(s: State, t: Tid, p: Pc)
    requires t in s.pc && ThreadInv(s, t) && RoleOf(p) == RoleOf(s.pc[t]) && HoardOf(p) == HoardOf(s.pc[t])
    ensures RoleInv(Goto(s, t, p), t) && HoardInv(Goto(s, t, p), t)
  {
  }

  /** A node that `t` is about to delete is used by no other thread. */
  lemma Unused(s: State, t: Tid, a: Addr)
    requires Inv(s) && t in s.pc && a in s.heap && s.heap[a].place == Owned(t) && Frees(s.pc[t], a)
    ensures forall u :: u in s.pc && u != t ==> !Uses(s.pc[u], a)
  {
    Others(s, t, a);
    forall u | u in s.pc && u != t ensures !Uses(s.pc[u], a) {
      assert PairInv(s.pc, t, u);
    }
  }

  lemma FirstGone(heap: map<Addr, Node>, p: Addr, m: seq<Addr>)
    requires IsChain(heap, p, m) && m != [] && NULL !in heap
    ensures IsChain(heap - {p}, heap[p].next, m[1..])
    ensures forall b :: b in m[1..] <==> b in m && b != p
  {
    assert m == [p] + m[1..];
  }

  /** `t` deletes a node that it has decided to delete. */
  lemma FreeStep(s: State, s': State, t: Tid, a: Addr)
    requires Inv(s) && t in s.pc && a in s.heap && s.heap[a].place == Owned(t) && Frees(s.pc[t], a)
    requires t in s'.pc && s' == s.(pc := s.pc[t := s'.pc[t]], heap := s.heap - {a}, freed := s'.freed)
    requires RoleMove(RoleOf(s.pc[t]), RoleOf(s'.pc[t]), a) && HoardMove(HoardOf(s.pc[t]), HoardOf(s'.pc[t]), a)
    requires Calm(s.pc[t], s'.pc[t]) && !RoleOf(s'.pc[t]).Holder? && Counted(s'.pc[t]) == Counted(s.pc[t])
    requires ThreadInv(s', t)
    ensures Inv(s')
  {
    Unused(s, t, a);
    ListsFrame(s, s', a);
    PairsCalm(s.pc, t, s'.pc[t]);
    Assemble(s, s', t, a);
  }

  lemma DelFreeStep(s: State, s': State, t: Tid, first: Addr, mine: seq<Addr>)
    requires Inv(s) && t in s.pc && HoardOf(s.pc[t]) == Closed(first, mine) && first != NULL && Frees(s.pc[t], first)
    requires t in s'.pc && s' == s.(pc := s.pc[t := s'.pc[t]], heap := s.heap - {first}, freed := s'.freed)
    requires RoleOf(s'.pc[t]) == RoleOf(s.pc[t]) && !RoleOf(s'.pc[t]).Holder? && Counted(s'.pc[t]) == Counted(s.pc[t])
    requires first in s.heap && HoardOf(s'.pc[t]) == Closed(s.heap[first].next, Rest(mine))
    requires PcInv(s', t) && forall b :: Frees(s'.pc[t], b) ==> Frees(s.pc[t], b)
    ensures Inv(s')
  {
    assert ThreadInv(s, t);
    FirstGone(s.heap, first, mine);
    FreeStep(s, s', t, first);
  }

  lemma DelFreeInv(s: State, t: Tid, a: Addr, id: nat, res: Option<Value>, first: Addr, cid: nat, next: Addr,
                   mine: seq<Addr>)
    requires Inv(s) && t in s.pc && s.pc[t] == Reclaim(a, id, res, DelFree(first, cid, next, mine))
    ensures Inv(DoDelFree(s, t, a, id, res, first, cid, next, mine))
  {
    assert ThreadInv(s, t);
    assert first == mine[0];
    DelFreeStep(s, DoDelFree(s, t, a, id, res, first, cid, next, mine), t, first, mine);
  }

  lemma WalkOn(heap: map<Addr, Node>, first: Addr, last: Addr, mine: seq<Addr>)
    requires IsChain(heap, first, mine) && last in mine && NULL !in heap
    ensures last in heap
    ensures if heap[last].next == NULL then last == mine[|mine| - 1] else heap[last].next in mine
  {
    var k :| 0 <= k < |mine| && mine[k] == last;
    if k + 1 < |mine| {
      var j := k + 1;
      assert heap[last].next == mine[j];
    }
  }

  lemma WalkInv(s: State, t: Tid, a: Addr, id: nat, res: Option<Value>, first: Addr, last: Addr, mine: seq<Addr>)
    requires Inv(s) && t in s.pc && s.pc[t] == Reclaim(a, id, res, Walk(first, last, mine))
    ensures Inv(DoWalk(s, t, a, id, res, first, last, mine))
  {
    assert ThreadInv(s, t);
    WalkThread(s, t, a, id, res, first, last, mine);
    CalmStep(s, DoWalk(s, t, a, id, res, first, last, mine), t);
  }

  lemma WalkThread(s: State, t: Tid, a: Addr, id: nat, res: Option<Value>, first: Addr, last: Addr, mine: seq<Addr>)
    requires NULL !in s.heap && t in s.pc && ThreadInv(s, t) && s.pc[t] == Reclaim(a, id, res, Walk(first, last, mine))
    ensures var s' := DoWalk(s, t, a, id, res, first, last, mine); t in s'.pc && ThreadInv(s', t)
    ensures var s' := DoWalk(s, t, a, id, res, first, last, mine);
      s' == s.(pc := s.pc[t := s'.pc[t]]) && s'.pc[t].Reclaim? && s'.pc[t].old_head == a
      && (s'.pc[t].at.Walk? || s'.pc[t].at.ChainLoad?) && s'.pc[t].at.mine == mine
  {
    WalkOn(s.heap, first, last, mine);
  }

  lemma ChainLoadInv(s: State, t: Tid, a: Addr, id: nat, res: Option<Value>, first: Addr, last: Addr, mine: seq<Addr>)
    requires Inv(s) && t in s.pc
    requires s.pc[t].Reclaim? && (s.pc[t].at == ChainLoad(first, last, mine)
             || s.pc[t].at == ChainCas(first, last, mine))
    requires s.pc[t] == Reclaim(a, id, res, s.pc[t].at)
    ensures Inv(DoChainLoad(s, t, a, id, res, first, last, mine))
  {
    assert ThreadInv(s, t);
    ChainLoadThread(s, t, a, id, res, first, last, mine);
    WriteStep(s, DoChainLoad(s, t, a, id, res, first, last, mine), t, last);
  }

  lemma ChainLoadThread(s: State, t: Tid, a: Addr, id: nat, res: Option<Value>, first: Addr, last: Addr,
                        mine: seq<Addr>)
    requires t in s.pc && ThreadInv(s, t) && HoardOf(s.pc[t]) == Open(first, last, mine)
    requires s.pc[t] == Reclaim(a, id, res, s.pc[t].at)
    ensures var s' := DoChainLoad(s, t, a, id, res, first, last, mine);
      t in s'.pc && ThreadInv(s', t) && s'.pc[t] == Reclaim(a, id, res, ChainCas(first, last, mine))
      && last in s.heap && s' == s.(pc := s.pc[t := s'.pc[t]], heap := s.heap[last := s.heap[last].(next := s.tbd)])
  {
    assert last == mine[|mine| - 1];
  }

  /** `t` changes the role of the nodes of `m` between `Pending` and its own. */
  ghost predicate Swaps(s: State, s': State, t: Tid, m: seq<Addr>, p: Place) {
    && t in s.pc && t in s'.pc && s'.pc == s.pc[t := s'.pc[t]] && s'.heap == Replace(s.heap, m, p)
    && (p == Pending || p == Owned(t))
    && (forall i :: 0 <= i < |m| ==>
          m[i] in s.heap && (s.heap[m[i]].place == Pending || s.heap[m[i]].place == Owned(t)))
  }

  lemma SwapNodes(s: State, s': State, t: Tid, m: seq<Addr>, p: Place)
    requires Inv(s) && Swaps(s, s', t, m, p) && RoleOf(s'.pc[t]) == RoleOf(s.pc[t])
    requires forall b :: b !in m ==> Hoards(HoardOf(s.pc[t]), b) == Hoards(HoardOf(s'.pc[t]), b)
    requires p == Owned(t) ==> forall b :: b in m ==> Hoards(HoardOf(s'.pc[t]), b)
    ensures forall b {:trigger NodeInv(s', b)} :: b in s'.heap ==> NodeInv(s', b)
  {
    forall b {:trigger NodeInv(s', b)} | b in s'.heap ensures NodeInv(s', b) {
      assert NodeInv(s, b);
    }
  }

  lemma SwapThreads(s: State, s': State, t: Tid, m: seq<Addr>, p: Place)
    requires Inv(s) && Swaps(s, s', t, m, p) && ThreadInv(s', t)
    ensures forall u {:trigger ThreadInv(s', u)} :: u in s'.pc ==> ThreadInv(s', u)
  {
    forall u {:trigger ThreadInv(s', u)} | u in s'.pc ensures ThreadInv(s', u) {
      if u != t {
        assert ThreadInv(s, u);
        ThreadKept(s, s', u);
      }
    }
  }

  lemma SwapStep(s: State, s': State, t: Tid, m: seq<Addr>, p: Place)
    requires Inv(s) && Swaps(s, s', t, m, p) && ThreadInv(s', t) && ChainInv(s') && PendingInv(s') && !s'.fault
    requires RoleOf(s'.pc[t]) == RoleOf(s.pc[t]) && !RoleOf(s'.pc[t]).Holder? && Calm(s.pc[t], s'.pc[t])
    requires forall b :: b !in m ==> Hoards(HoardOf(s.pc[t]), b) == Hoards(HoardOf(s'.pc[t]), b)
    requires p == Owned(t) ==> forall b :: b in m ==> Hoards(HoardOf(s'.pc[t]), b)
    requires s'.tip == s.tip && Counted(s'.pc[t]) == Counted(s.pc[t])
    ensures Inv(s')
  {
    SwapNodes(s, s', t, m, p);
    SwapThreads(s, s', t, m, p);
    CountersMove(s.pc, t, s'.pc[t]);
    PairsCalm(s.pc, t, s'.pc[t]);
  }

  lemma SwapChain(heap: map<Addr, Node>, m: seq<Addr>, p: Place, q: Addr, chain: seq<Addr>)
    requires IsChain(heap, q, chain)
    ensures IsChain(Replace(heap, m, p), q, chain)
  {
  }

  lemma TakeLists(s: State, s': State, t: Tid)
    requires ChainInv(s) && PendingInv(s) && s'.head == s.head && s'.chain == s.chain && s'.tbd == NULL
             && s'.pending == []
    requires s'.heap == Replace(s.heap, s.pending, Owned(t))
    ensures ChainInv(s') && PendingInv(s') && IsChain(s'.heap, s.tbd, s.pending)
  {
    SwapChain(s.heap, s.pending, Owned(t), s.head, s.chain);
    SwapChain(s.heap, s.pending, Owned(t), s.tbd, s.pending);
  }

  lemma TakeThread(s: State, s': State, t: Tid)
    requires t in s.pc && ThreadInv(s, t) && s.pc[t].Reclaim? && s.pc[t].at == TakeList && PendingInv(s)
    requires IsChain(s'.heap, s.tbd, s.pending) && s'.heap == Replace(s.heap, s.pending, Owned(t))
    requires t in s'.pc && s'.pc[t] == s.pc[t].(at := Leave(s.tbd, s.pending))
    ensures ThreadInv(s', t)
  {
  }

  lemma TakeListInv(s: State, t: Tid, a: Addr, id: nat, res: Option<Value>)
    requires Inv(s) && t in s.pc && s.pc[t] == Reclaim(a, id, res, TakeList)
    ensures Inv(DoTakeList(s, t, a, id, res))
  {
    TakeInv(s, DoTakeList(s, t, a, id, res), t);
  }

  lemma TakeSwaps(s: State, s': State, t: Tid)
    requires PendingInv(s) && t in s.pc && t in s'.pc && s'.pc == s.pc[t := s'.pc[t]]
    requires s'.heap == Replace(s.heap, s.pending, Owned(t))
    ensures Swaps(s, s', t, s.pending, Owned(t))
  {
    forall i | 0 <= i < |s.pending| ensures s.heap[s.pending[i]].place == Pending {
      assert s.pending[i] in s.pending;
    }
  }

  lemma TakeInv(s: State, s': State, t: Tid)
    requires Inv(s) && t in s.pc && s.pc[t].Reclaim? && s.pc[t].at == TakeList
    requires s' == s.(pc := s.pc[t := s.pc[t].(at := Leave(s.tbd, s.pending))],
                      heap := Replace(s.heap, s.pending, Owned(t)), tbd := NULL, pending := [])
    ensures Inv(s')
  {
    assert ThreadInv(s, t);
    TakeLists(s, s', t);
    TakeThread(s, s', t);
    TakeSwaps(s, s', t);
    SwapStep(s, s', t, s.pending, Owned(t));
  }

  /** A list whose last node links to a second list makes one list with it. */
  lemma Joined(heap: map<Addr, Node>, heap': map<Addr, Node>, m: seq<Addr>, p: Addr, n: seq<Addr>)
    requires IsSegment(heap, m) && m != [] && IsChain(heap, p, n) && heap[m[|m| - 1]].next == p
    requires forall i :: 0 <= i < |m| ==> m[i] !in n
    requires forall b :: b in heap ==> b in heap' && heap'[b].next == heap[b].next
    ensures IsChain(heap', m[0], m + n)
  {
    var l := m + n;
    forall i, j | 0 <= i < j < |l| && j == i + 1 ensures heap'[l[i]].next == l[j] {
      if |m| <= i {
        assert l[i] == n[i - |m|] && l[j] == n[j - |m|];
      }
    }
    forall i, j | 0 <= i < j < |l| ensures l[i] != l[j] {
      if |m| <= i {
        assert l[i] == n[i - |m|] && l[j] == n[j - |m|];
      }
    }
  }

  /** The private nodes of `t` go back to the pending list. */
  lemma RechainStep(s: State, s': State, t: Tid, first: Addr, last: Addr, mine: seq<Addr>)
    requires Inv(s) && t in s.pc && HoardOf(s.pc[t]) == Open(first, last, mine) && last in s.heap
             && s.tbd == s.heap[last].next
    requires t in s'.pc && HoardOf(s'.pc[t]) == NoHoard && RoleOf(s'.pc[t]) == RoleOf(s.pc[t])
             && !RoleOf(s'.pc[t]).Holder?
    requires Calm(s.pc[t], s'.pc[t]) && Counted(s'.pc[t]) == Counted(s.pc[t])
    requires s' == s.(pc := s.pc[t := s'.pc[t]], heap := Replace(s.heap, mine, Pending), tbd := first,
                      pending := mine + s.pending)
    requires RoleInv(s', t) && PcInv(s', t)
    ensures Inv(s')
  {
    assert ThreadInv(s, t);
    Joined(s.heap, s'.heap, mine, s.tbd, s.pending);
    SwapChain(s.heap, mine, Pending, s.head, s.chain);
    SwapStep(s, s', t, mine, Pending);
  }

  lemma RechainInv(s: State, t: Tid, a: Addr, id: nat, res: Option<Value>, first: Addr, last: Addr, mine: seq<Addr>)
    requires Inv(s) && t in s.pc && s.pc[t] == Reclaim(a, id, res, ChainCas(first, last, mine))
    requires last in s.heap && s.tbd == s.heap[last].next
    ensures Inv(DoChainCas(s, t, a, id, res, first, last, mine, false))
  {
    assert ThreadInv(s, t);
    RechainStep(s, DoChainCas(s, t, a, id, res, first, last, mine, false), t, first, last, mine);
  }

  lemma FreeOldInv(s: State, t: Tid, a: Addr, id: nat, res: Option<Value>)
    requires Inv(s) && t in s.pc && s.pc[t] == Reclaim(a, id, res, FreeOld)
    ensures Inv(DoFreeOld(s, t, a, id, res))
  {
    assert ThreadInv(s, t);
    if a == NULL {
      CalmStep(s, DoFreeOld(s, t, a, id, res), t);
    } else {
      FreeOwnInv(s, t, a, id, res, DoFreeOld(s, t, a, id, res));
    }
  }

  lemma FreeOwnInv(s: State, t: Tid, a: Addr, id: nat, res: Option<Value>, s': State)
    requires Inv(s) && t in s.pc && s.pc[t] == Reclaim(a, id, res, FreeOld) && a != NULL && a in s.heap
    requires s' == s.(pc := s.pc[t := PopRet(res)], heap := s.heap - {a}, freed := s'.freed)
    ensures Inv(s')
  {
    assert ThreadInv(s, t);
    FreeStep(s, s', t, a);
  }

  lemma ShareLoadInv(s: State, t: Tid, a: Addr, id: nat, res: Option<Value>)
    requires Inv(s) && t in s.pc && a != NULL
    requires s.pc[t] == Reclaim(a, id, res, ShareLoad) || s.pc[t] == Reclaim(a, id, res, ShareCas)
    ensures Inv(DoShareLoad(s, t, a, id, res))
  {
    assert ThreadInv(s, t);
    ShareLoadThread(s, t, a, id, res);
    ShareWrite(s, DoShareLoad(s, t, a, id, res), t, a);
  }

  lemma ShareWrite(s: State, s': State, t: Tid, a: Addr)
    requires Inv(s) && t in s.pc && RoleOf(s.pc[t]) == Owner(a) && HoardOf(s.pc[t]) == NoHoard && a in s.heap
    requires t in s'.pc && RoleOf(s'.pc[t]) == Owner(a) && HoardOf(s'.pc[t]) == NoHoard && !Alone(s'.pc[t])
    requires s' == s.(pc := s.pc[t := s'.pc[t]], heap := s.heap[a := s.heap[a].(next := s.tbd)])
    requires Counted(s'.pc[t]) == Counted(s.pc[t]) && ThreadInv(s', t)
    ensures Inv(s')
  {
    assert ThreadInv(s, t);
    WriteStep(s, s', t, a);
  }

  lemma ShareLoadThread(s: State, t: Tid, a: Addr, id: nat, res: Option<Value>)
    requires t in s.pc && ThreadInv(s, t) && a != NULL
    requires s.pc[t] == Reclaim(a, id, res, ShareLoad) || s.pc[t] == Reclaim(a, id, res, ShareCas)
    ensures var s' := DoShareLoad(s, t, a, id, res);
      t in s'.pc && ThreadInv(s', t) && s'.pc[t] == Reclaim(a, id, res, ShareCas) && a in s'.heap
      && s' == s.(pc := s.pc[t := s'.pc[t]], heap := s.heap[a := s.heap[a].(next := s.tbd)])
  {
  }

  /** `t` puts the node it has unlinked on the pending list. */
  lemma PendStep(s: State, s': State, t: Tid, a: Addr)
    requires Inv(s) && t in s.pc && RoleOf(s.pc[t]) == Owner(a) && HoardOf(s.pc[t]) == NoHoard
    requires t in s'.pc && RoleOf(s'.pc[t]) == NoRole && HoardOf(s'.pc[t]) == NoHoard
    requires Calm(s.pc[t], s'.pc[t]) && Counted(s'.pc[t]) == Counted(s.pc[t])
    requires a in s.heap && s.tbd == s.heap[a].next
    requires s' == s.(pc := s.pc[t := s'.pc[t]], heap := s.heap[a := s.heap[a].(place := Pending)], tbd := a,
                      pending := [a] + s.pending)
    requires PcInv(s', t)
    ensures Inv(s')
  {
    assert ThreadInv(s, t);
    Others(s, t, a);
    PairsCalm(s.pc, t, s'.pc[t]);
    LinkChain(s.heap, s'.heap, s.tbd, s.pending, a, Pending);
    Assemble(s, s', t, a);
  }

  lemma ShareCasInv(s: State, t: Tid, a: Addr, id: nat, res: Option<Value>)
    requires Inv(s) && t in s.pc && s.pc[t] == Reclaim(a, id, res, ShareCas) && Live(s, a, id)
             && s.tbd == s.heap[a].next
    ensures Inv(DoShareCas(s, t, a, id, res, false))
  {
    assert ThreadInv(s, t);
    PendStep(s, DoShareCas(s, t, a, id, res, false), t, a);
  }

  lemma SoleStepInv(s: State, t: Tid, c: Choice)
    requires Inv(s) && t in s.pc && Alone(s.pc[t])
    ensures Inv(ReclaimStep(s, t, c))
  {
    var a, id, res := s.pc[t].old_head, s.pc[t].oid, s.pc[t].res;
    match s.pc[t].at
    case TakeList => TakeListInv(s, t, a, id, res);
    case Leave(first, mine) => LeaveInv(s, t, a, id, res, first, mine);
    case DelNext(first, mine) => DelNextInv(s, t, a, id, res, first, mine);
    case DelFree(first, cid, next, mine) => DelFreeInv(s, t, a, id, res, first, cid, next, mine);
    case Walk(first, last, mine) => WalkInv(s, t, a, id, res, first, last, mine);
    case ChainLoad(first, last, mine) => ChainLoadInv(s, t, a, id, res, first, last, mine);
    case ChainCas(first, last, mine) =>
      assert ThreadInv(s, t);
      if s.tbd == s.heap[last].next && !c.spurious {
        RechainInv(s, t, a, id, res, first, last, mine);
      } else {
        ChainLoadInv(s, t, a, id, res, first, last, mine);
      }
    case FreeOld => FreeOldInv(s, t, a, id, res);
  }

  lemma ShareTryInv(s: State, t: Tid, a: Addr, id: nat, res: Option<Value>, spurious: bool)
    requires Inv(s) && t in s.pc && s.pc[t] == Reclaim(a, id, res, ShareCas)
    ensures Inv(DoShareCas(s, t, a, id, res, spurious))
  {
    assert ThreadInv(s, t);
    if s.tbd == s.heap[a].next && !spurious {
      ShareCasInv(s, t, a, id, res);
    } else {
      ShareLoadInv(s, t, a, id, res);
    }
  }

  lemma SharedStepInv(s: State, t: Tid, c: Choice)
    requires Inv(s) && t in s.pc && s.pc[t].Reclaim? && !Alone(s.pc[t])
    ensures Inv(ReclaimStep(s, t, c))
  {
    var a, id, res := s.pc[t].old_head, s.pc[t].oid, s.pc[t].res;
    match s.pc[t].at
    case Check => CheckInv(s, ReclaimStep(s, t, c), t, if s.tip == 1 then TakeList else ShareLoad);
    case ShareLoad =>
      if a != NULL {
        ShareLoadInv(s, t, a, id, res);
      } else {
        CrashInv(s);
      }
    case ShareCas => ShareTryInv(s, t, a, id, res, c.spurious);
    case ShareLeave => ShareLeaveInv(s, t, a, id, res);
  }

  lemma ShareLeaveInv(s: State, t: Tid, a: Addr, id: nat, res: Option<Value>)
    requires Inv(s) && t in s.pc && s.pc[t] == Reclaim(a, id, res, ShareLeave)
    ensures Inv(DoShareLeave(s, t, res))
  {
    assert ThreadInv(s, t);
    CalmStep(s, DoShareLeave(s, t, res), t);
  }

  lemma CrashInv(s: State)
    requires Inv(s)
    ensures Inv(s.(crash := true))
  {
    var s' := s.(crash := true);
    forall a {:trigger NodeInv(s', a)} | a in s'.heap ensures NodeInv(s', a) {
      assert NodeInv(s, a);
    }
    forall t {:trigger ThreadInv(s', t)} | t in s'.pc ensures ThreadInv(s', t) {
      assert ThreadInv(s, t);
    }
  }

  lemma PushStepInv(s: State, t: Tid, c: Choice)
    requires Inv(s) && t in s.pc && !s.crash && (s.pc[t].PushAlloc? || s.pc[t].PushLoad? || s.pc[t].PushCas?)
    ensures Inv(Step(s, t, c))
  {
    match s.pc[t]
    case PushAlloc(v) =>
      if c.spare != NULL && c.spare !in s.heap {
        AllocInv(s, t, v, c.spare);
      }
    case PushLoad(n, id, v) => PushLoadInv(s, t, n, id, v);
    case PushCas(n, id, v) =>
      assert ThreadInv(s, t);
      if s.head == s.heap[n].next && !c.spurious {
        PushCasInv(s, t, n, id, v);
      } else {
        PushLoadInv(s, t, n, id, v);
      }
  }

  predicate Pops(p: Pc) {
    p.PopLoad? || p.PopNext? || p.PopCas? || p.PopData?
  }

  lemma PopStepInv(s: State, t: Tid, c: Choice)
    requires Inv(s) && t in s.pc && !s.crash && Pops(s.pc[t])
    ensures Inv(Step(s, t, c))
  {
    match s.pc[t]
    case PopLoad => ArriveInv(s, t);
    case PopNext(seen, id) => PopNextInv(s, t, seen, id);
    case PopCas(seen, id, nx) =>
      if s.head == seen && !c.spurious {
        UnlinkInv(s, t, seen, id, nx);
      } else {
        ArriveInv(s, t);
      }
    case PopData(seen, id) => PopDataInv(s, t, seen, id);
  }

  lemma QuickStepInv(s: State, t: Tid, c: Choice)
    requires Inv(s) && t in s.pc && !s.crash
             && (s.pc[t].Idle? || s.pc[t].PushRet? || s.pc[t].PopEnter? || s.pc[t].PopRet?)
    ensures Inv(Step(s, t, c))
  {
    CalmStep(s, Step(s, t, c), t);
  }

  lemma StepInv(s: State, t: Tid, c: Choice)
    requires Inv(s) && t in s.pc
    ensures Inv(Step(s, t, c))
  {
    if s.crash {
    } else if s.pc[t].Reclaim? {
      if Alone(s.pc[t]) {
        SoleStepInv(s, t, c);
      } else {
        SharedStepInv(s, t, c);
      }
    } else if s.pc[t].PushAlloc? || s.pc[t].PushLoad? || s.pc[t].PushCas? {
      PushStepInv(s, t, c);
    } else if Pops(s.pc[t]) {
      PopStepInv(s, t, c);
    } else {
      QuickStepInv(s, t, c);
    }
  }
}
