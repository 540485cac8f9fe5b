/** The invariant of the hazard-pointer stack, kept by every step. */
module HpStackInvariant {
  import opened Wrappers
  import opened LinearSpec
  import opened HpStack

  // ---------------------------------------------------------------- invariant

  /** What a thread has to do with a node. */
  datatype Role =
    | NoRole
    | Pusher(a: Addr)  // allocated it and has not linked it yet
    | Guard(a: Addr)   // has published it, has found it at the head again, and may still read it
    | Owner(a: Addr)   // has unlinked it and has neither deleted it nor handed it over

  function RoleOf(p: Pc): Role {
    match p
    case PushLoad(n, _, _) => Pusher(n)
    case PushCas(n, _, _) => Pusher(n)
    case PopNext(seen, _) => Guard(seen)
    case PopCas(seen, _, _) => Guard(seen)
    case PopClear(seen, _) => if seen == NULL then NoRole else Owner(seen)
    case PopData(seen, _) => Owner(seen)
    case PopScan(seen, _, _, _) => Owner(seen)
    case PopFree(seen, _, _) => Owner(seen)
    case Retire(seen, _, _) => Owner(seen)
    case _ => NoRole
  }

  /** The private records of a thread: a list `mine` linked from `next`, and possibly one detached from it. */
  datatype Work =
    | NoWork
    | Listed(next: Addr, mine: seq<Addr>)
    | Detached(r: Addr, rid: nat, next: Addr, mine: seq<Addr>)

  function WorkOf(p: Pc): Work {
    match p
    case AddLoad(r, rid, next, mine, _, _) => Detached(r, rid, next, mine)
    case AddCas(r, rid, next, mine, _, _) => Detached(r, rid, next, mine)
    case SweepNext(next, mine, _) => Listed(next, mine)
    case SweepScan(r, rid, _, _, next, mine, _) => Detached(r, rid, next, mine)
    case SweepFree(r, rid, _, next, mine, _) => Detached(r, rid, next, mine)
    case _ => NoWork
  }

  predicate Keeps(w: Work, q: Addr) {
    match w
    case NoWork => false
    case Listed(_, mine) => q in mine
    case Detached(r, _, _, mine) => q == r || q in mine
  }

  /** The node whose deletion a thread is deciding on, and the number of slots found not to hold it. */
  datatype Scan = NoScan | Scan(a: Addr, cleared: nat)

  function ScanOf(p: Pc): Scan {
    match p
    case PopScan(seen, _, i, _) => Scan(seen, i)
    case PopFree(seen, _, _) => Scan(seen, MAX_HAZARD_POINTERS)
    case SweepScan(_, _, q, i, _, _, _) => Scan(q, i)
    case SweepFree(_, _, q, _, _, _) => Scan(q, MAX_HAZARD_POINTERS)
    case _ => NoScan
  }

  /** The operations that need the hazard slot of the thread. */
  predicate NeedsSlot(p: Pc) {
    p.PopLoad? || p.PopPublish? || p.PopCheck? || p.PopNext? || p.PopCas? || p.PopClear? || p.ExitClear?
        || p.ExitRelease?
  }

  ghost predicate IsChain(heap: map<Addr, Node>, p: Addr, chain: seq<Addr>) {
    && (forall i :: 0 <= i < |chain| ==> chain[i] in heap)
    && (forall i, j :: 0 <= i < j < |chain| ==> chain[i] != chain[j])
    && (if chain == [] then p == NULL else p == chain[0])
    && (forall i, j :: 0 <= i < j < |chain| && j == i + 1 ==> heap[chain[i]].next == chain[j])
    && (chain != [] ==> heap[chain[|chain| - 1]].next == NULL)
  }

  /** `list` lists the records reached from `p`, all in role `place`. */
  ghost predicate IsList(recs: map<Addr, Rec>, p: Addr, list: seq<Addr>, place: RecPlace) {
    && (forall i :: 0 <= i < |list| ==> list[i] in recs && recs[list[i]].place == place)
    && (forall i, j :: 0 <= i < j < |list| ==> list[i] != list[j])
    && (if list == [] then p == NULL else p == list[0])
    && (forall i, j :: 0 <= i < j < |list| && j == i + 1 ==> recs[list[i]].next == list[j])
    && (list != [] ==> recs[list[|list| - 1]].next == NULL)
  }

  ghost predicate ChainInv(s: State) {
    && NULL !in s.heap
    && IsChain(s.heap, s.head, s.chain)
    && (forall a :: a in s.heap ==> (s.heap[a].place == Linked <==> a in s.chain))
  }

  ghost predicate ListInv(s: State) {
    && NULL !in s.recs
    && IsList(s.recs, s.rhead, s.list, Shared)
    && (forall r :: r in s.recs && s.recs[r].place == Shared ==> r in s.list)
  }

  ghost predicate SlotInv(s: State) {
    && |s.slots| == MAX_HAZARD_POINTERS
    && (forall t :: t in s.hp ==> s.hp[t] < MAX_HAZARD_POINTERS && s.slots[s.hp[t]].owner == Some(t))
  }

  ghost predicate NodeInv(s: State, a: Addr)
    requires a in s.heap
  {
    var n := s.heap[a];
    match n.place
    case Fresh(t) => t in s.pc && RoleOf(s.pc[t]) == Pusher(a)
    case Linked => n.data.Some?
    case Popped(t) => t in s.pc && RoleOf(s.pc[t]) == Owner(a)
    case Retired(r) => r in s.recs && s.recs[r].node == a && s.recs[r].nodeId == n.id
  }

  ghost predicate RecInv(s: State, r: Addr)
    requires r in s.recs
  {
    var x := s.recs[r];
    && Live(s, x.node, x.nodeId) && s.heap[x.node].place == Retired(r)
    && (x.place.Private? ==> x.place.t in s.pc && Keeps(WorkOf(s.pc[x.place.t]), r))
  }

  ghost predicate RoleInv(s: State, t: Tid)
    requires t in s.pc
  {
    match RoleOf(s.pc[t])
    case NoRole => true
    case Pusher(a) => a in s.heap && s.heap[a].place == Fresh(t)
    case Guard(a) =>
      a in s.heap && !s.heap[a].place.Fresh? && t in s.hp && s.hp[t] < |s.slots| && s.slots[s.hp[t]].pointer == a
    case Owner(a) => a in s.heap && s.heap[a].place == Popped(t)
  }

  ghost predicate WorkInv(s: State, t: Tid)
    requires t in s.pc
  {
    match WorkOf(s.pc[t])
    case NoWork => true
    case Listed(next, mine) => IsList(s.recs, next, mine, Private(t))
    case Detached(r, rid, next, mine) =>
      LiveRec(s, r, rid) && s.recs[r].place == Private(t) && r !in mine && IsList(s.recs, next, mine, Private(t))
  }

  /** What the local variables of a thread say about the node or record it deals with. */
  ghost predicate PcInv(s: State, t: Tid)
    requires t in s.pc
  {
    match s.pc[t]
    case PushLoad(n, id, v) => Live(s, n, id) && s.heap[n].data == Some(v)
    case PushCas(n, id, v) => Live(s, n, id) && s.heap[n].data == Some(v)
    case Claim(i) => i < MAX_HAZARD_POINTERS && t !in s.hp
    case PopCheck(seen) => t in s.hp && s.hp[t] < |s.slots| && s.slots[s.hp[t]].pointer == seen
    case PopNext(seen, id) => Live(s, seen, id)
    case PopCas(seen, id, nx) => Live(s, seen, id) && s.heap[seen].next == nx
    case PopClear(seen, id) => seen != NULL ==> Live(s, seen, id) && s.heap[seen].data.Some?
    case PopData(seen, id) => Live(s, seen, id) && s.heap[seen].data.Some?
    case PopScan(seen, id, i, _) => Live(s, seen, id) && i < MAX_HAZARD_POINTERS
    case PopFree(seen, id, _) => Live(s, seen, id)
    case Retire(seen, id, _) => Live(s, seen, id)
    case AddLoad(r, _, next, mine, sweep, _) => !sweep ==> mine == []
    case AddCas(r, _, next, mine, sweep, _) => !sweep ==> mine == []
    case SweepScan(r, _, p, i, _, _, _) => r in s.recs && s.recs[r].node == p && i < MAX_HAZARD_POINTERS
    case SweepFree(r, _, p, _, _, _) => r in s.recs && s.recs[r].node == p
    case _ => true
  }

  ghost predicate ThreadInv(s: State, t: Tid)
    requires t in s.pc
  {
    RoleInv(s, t) && WorkInv(s, t) && PcInv(s, t) && (NeedsSlot(s.pc[t]) ==> t in s.hp)
  }

  /** Thread `d` scanning on behalf of a node that thread `u` guards has not reached the slot of `u`. */
  ghost predicate PairInv(s: State, d: Tid, u: Tid)
    requires d in s.pc && u in s.pc
  {
    var x, r := ScanOf(s.pc[d]), RoleOf(s.pc[u]);
    x.Scan? && r == Guard(x.a) ==> u in s.hp && x.cleared <= s.hp[u]
  }

  ghost predicate Inv(s: State) {
    && !s.fault
    && ChainInv(s)
    && ListInv(s)
    && SlotInv(s)
    && (forall a {:trigger NodeInv(s, a)} :: a in s.heap ==> NodeInv(s, a))
    && (forall r {:trigger RecInv(s, r)} :: r in s.recs ==> RecInv(s, r))
    && (forall t {:trigger ThreadInv(s, t)} :: t in s.pc ==> ThreadInv(s, t))
    && (forall d, u {:trigger PairInv(s, d, u)} :: d in s.pc && u in s.pc ==> PairInv(s, d, u))
  }

  // ---------------------------------------------------------------- frames

  /** `s'` differs from `s` only in thread `t`, its hazard slot, the node at `a` and the record at `r`. */
  ghost predicate Touches(s: State, s': State, t: Tid, a: Addr, r: Addr) {
    && t in s.pc && t in s'.pc && s'.pc == s.pc[t := s'.pc[t]]
    && (forall b :: b != a ==> (b in s'.heap <==> b in s.heap))
    && (forall b :: b != a && b in s.heap ==> s'.heap[b] == s.heap[b])
    && (forall q :: q != r ==> (q in s'.recs <==> q in s.recs))
    && (forall q :: q != r && q in s.recs ==> s'.recs[q] == s.recs[q])
    && (forall u :: u != t ==> (u in s'.hp <==> u in s.hp))
    && (forall u :: u != t && u in s.hp ==>
          s'.hp[u] == s.hp[u] && s.hp[u] < |s.slots| && s.hp[u] < |s'.slots| && s'.slots[s.hp[u]] == s.slots[s.hp[u]])
  }

  /** A change of role that concerns no node other than `a`. */
  predicate RoleMove(x: Role, x': Role, a: Addr) {
    x == x' || ((x.NoRole? || x.a == a) && (x'.NoRole? || x'.a == a))
  }

  /** A change of private records that concerns no record other than `r`. */
  ghost predicate WorkMove(w: Work, w': Work, r: Addr) {
    forall q :: q != r ==> Keeps(w, q) == Keeps(w', q)
  }

  lemma NodesInv(s: State, s': State, t: Tid, a: Addr, r: Addr)
    requires Inv(s) && Touches(s, s', t, a, r) && RoleMove(RoleOf(s.pc[t]), RoleOf(s'.pc[t]), a)
    requires a in s'.heap ==> NodeInv(s', a)
    requires r in s.recs && s.recs[r].node != a ==>
               r in s'.recs && s'.recs[r].node == s.recs[r].node && s'.recs[r].nodeId == s.recs[r].nodeId
    ensures forall b {:trigger NodeInv(s', b)} :: b in s'.heap ==> NodeInv(s', b)
  {
    forall b {:trigger NodeInv(s', b)} | b in s'.heap ensures NodeInv(s', b) {
      if b != a {
        assert NodeInv(s, b);
      }
    }
  }

  lemma RecsInv(s: State, s': State, t: Tid, a: Addr, r: Addr)
    requires Inv(s) && Touches(s, s', t, a, r) && WorkMove(WorkOf(s.pc[t]), WorkOf(s'.pc[t]), r)
    requires r in s'.recs ==> RecInv(s', r)
    requires a in s.heap && s.heap[a].place.Retired? && s.heap[a].place.r != r ==>
               a in s'.heap && s'.heap[a] == s.heap[a]
    ensures forall q {:trigger RecInv(s', q)} :: q in s'.recs ==> RecInv(s', q)
  {
    forall q {:trigger RecInv(s', q)} | q in s'.recs ensures RecInv(s', q) {
      if q != r {
        assert RecInv(s, q);
        assert Keeps(WorkOf(s.pc[t]), q) == Keeps(WorkOf(s'.pc[t]), q);
      }
    }
  }

  /** What another thread `u` relies on about a node it may be using. */
  ghost predicate KeptNode(n: Node, n': Node, u: Tid) {
    && n'.id == n.id
    && (n.place == Fresh(u) || n.place == Popped(u) ==> n'.place == n.place && n'.data == n.data)
    && (!n.place.Fresh? ==> !n'.place.Fresh? && n'.next == n.next)
  }

  /** No other thread is disturbed by what happens to the node at `a`. */
  ghost predicate OthersKeep(s: State, s': State, t: Tid, a: Addr) {
    forall u :: u in s.pc && u != t && a in s.heap && !RoleOf(s.pc[u]).NoRole? && RoleOf(s.pc[u]).a == a ==>
      a in s'.heap && KeptNode(s.heap[a], s'.heap[a], u)
  }

  lemma ListKept(recs: map<Addr, Rec>, recs': map<Addr, Rec>, p: Addr, list: seq<Addr>, place: RecPlace)
    requires IsList(recs, p, list, place)
    requires forall q :: q in recs && recs[q].place == place ==> q in recs' && recs'[q] == recs[q]
    ensures IsList(recs', p, list, place)
  {
  }

  lemma ThreadsInv(s: State, s': State, t: Tid, a: Addr, r: Addr)
    requires Inv(s) && Touches(s, s', t, a, r) && OthersKeep(s, s', t, a)
    requires ThreadInv(s', t)
    requires r in s.recs ==> s.recs[r].place == Private(t)
    ensures forall u {:trigger ThreadInv(s', u)} :: u in s'.pc ==> ThreadInv(s', u)
  {
    forall u {:trigger ThreadInv(s', u)} | u in s'.pc ensures ThreadInv(s', u) {
      assert ThreadInv(s, u);
      if u != t {
        var w := WorkOf(s.pc[u]);
        if !w.NoWork? {
          ListKept(s.recs, s'.recs, w.next, w.mine, Private(u));
        }
      }
    }
  }

  /** The scans that involve `t`, as scanner or as guard, in the usual case: `t` guards nothing new
      and does not advance a scan. */
  ghost predicate Calm(s: State, s': State, t: Tid)
    requires t in s.pc && t in s'.pc
  {
    var x, x', r' := ScanOf(s.pc[t]), ScanOf(s'.pc[t]), RoleOf(s'.pc[t]);
    && (r'.Guard? ==> r' == RoleOf(s.pc[t]) && t in s.hp && t in s'.hp && s'.hp[t] == s.hp[t])
    && (x'.Scan? && x'.cleared != 0 ==> x.Scan? && x.a == x'.a && x'.cleared <= x.cleared)
  }

  ghost predicate Paired(s': State, t: Tid)
    requires t in s'.pc
  {
    && (forall u {:trigger PairInv(s', t, u)} :: u in s'.pc && u != t ==> PairInv(s', t, u))
    && (forall d {:trigger PairInv(s', d, t)} :: d in s'.pc && d != t ==> PairInv(s', d, t))
  }

  lemma PairsInv(s: State, s': State, t: Tid, a: Addr, r: Addr)
    requires Inv(s) && Touches(s, s', t, a, r) && (Calm(s, s', t) || Paired(s', t)) && RoleInv(s', t)
    requires RoleOf(s'.pc[t]).NoRole? || !ScanOf(s'.pc[t]).Scan? || RoleOf(s'.pc[t]).Owner?
    ensures forall d, u {:trigger PairInv(s', d, u)} :: d in s'.pc && u in s'.pc ==> PairInv(s', d, u)
  {
    forall d, u {:trigger PairInv(s', d, u)} | d in s'.pc && u in s'.pc ensures PairInv(s', d, u) {
      assert PairInv(s, d, u);
      assert ThreadInv(s, u);
    }
  }

  /** The invariant after a step, from what the step does to its thread, its node and its record. */
  lemma Assemble(s: State, s': State, t: Tid, a: Addr, r: Addr)
    requires Inv(s) && Touches(s, s', t, a, r)
    requires RoleMove(RoleOf(s.pc[t]), RoleOf(s'.pc[t]), a) && WorkMove(WorkOf(s.pc[t]), WorkOf(s'.pc[t]), r)
    requires !s'.fault && ChainInv(s') && ListInv(s') && SlotInv(s')
    requires a in s'.heap ==> NodeInv(s', a)
    requires r in s'.recs ==> RecInv(s', r)
    requires ThreadInv(s', t)
    requires Calm(s, s', t) || Paired(s', t)
    requires r in s.recs ==> s.recs[r].place == Private(t)
    requires r in s.recs && s.recs[r].node != a ==>
               r in s'.recs && s'.recs[r].node == s.recs[r].node && s'.recs[r].nodeId == s.recs[r].nodeId
    requires a in s.heap && s.heap[a].place.Retired? && s.heap[a].place.r != r ==>
               a in s'.heap && s'.heap[a] == s.heap[a]
    requires OthersKeep(s, s', t, a)
    ensures Inv(s')
  {
    NodesInv(s, s', t, a, r);
    RecsInv(s, s', t, a, r);
    ThreadsInv(s, s', t, a, r);
    PairsInv(s, s', t, a, r);
  }

  /** A step that only moves the program counter. */
  lemma GotoStep(s: State, t: Tid, p: Pc)
    requires Inv(s) && t in s.pc && RoleMove(RoleOf(s.pc[t]), RoleOf(p), NULL)
             && WorkMove(WorkOf(s.pc[t]), WorkOf(p), NULL)
    requires ThreadInv(Goto(s, t, p), t)
    requires Calm(s, Goto(s, t, p), t) || Paired(Goto(s, t, p), t)
    ensures Inv(Goto(s, t, p))
  {
    Assemble(s, Goto(s, t, p), t, NULL, NULL);
  }

  /** Another thread can be involved with a node of `t` only as a guard of an unlinked one. */
  lemma Alone(s: State, t: Tid, a: Addr)
    requires Inv(s) && a in s.heap && (s.heap[a].place == Fresh(t) || s.heap[a].place == Popped(t))
    ensures forall u :: u in s.pc && u != t && !RoleOf(s.pc[u]).NoRole? && RoleOf(s.pc[u]).a == a
              ==> RoleOf(s.pc[u]).Guard? && s.heap[a].place == Popped(t)
  {
    forall u | u in s.pc && u != t && !RoleOf(s.pc[u]).NoRole? && RoleOf(s.pc[u]).a == a
      ensures RoleOf(s.pc[u]).Guard? && s.heap[a].place == Popped(t)
    {
      assert ThreadInv(s, u);
    }
  }

  lemma ChainFrame(s: State, s': State, a: Addr)
    requires ChainInv(s) && s'.head == s.head && s'.chain == s.chain && NULL !in s'.heap
    requires forall b :: b != a ==> (b in s'.heap <==> b in s.heap)
    requires forall b :: b != a && b in s.heap ==> s'.heap[b] == s.heap[b]
    requires a in s.heap ==> s.heap[a].place != Linked
    requires a in s'.heap ==> s'.heap[a].place != Linked
    ensures ChainInv(s')
  {
    assert a !in s.chain;
  }

  /** The shared list is not affected by changes of a record that is private, before and after. */
  lemma ListFrame(s: State, s': State, r: Addr, t: Tid)
    requires ListInv(s) && s'.rhead == s.rhead && s'.list == s.list && NULL !in s'.recs
    requires forall q :: q != r ==> (q in s'.recs <==> q in s.recs)
    requires forall q :: q != r && q in s.recs ==> s'.recs[q] == s.recs[q]
    requires r in s.recs ==> s.recs[r].place == Private(t)
    requires r in s'.recs ==> s'.recs[r].place == Private(t)
    ensures ListInv(s')
  {
    ListKept(s.recs, s'.recs, s.rhead, s.list, Shared);
  }

  /** A step by which `t` rewrites a node that it is pushing or has unlinked. */
  lemma SetStep(s: State, s': State, t: Tid, a: Addr)
    requires Inv(s) && t in s.pc && a in s.heap && (s.heap[a].place == Fresh(t) || s.heap[a].place == Popped(t))
    requires t in s'.pc && a in s'.heap && s' == s.(pc := s.pc[t := s'.pc[t]], heap := s.heap[a := s'.heap[a]])
    requires s'.heap[a].id == s.heap[a].id && s'.heap[a].place == s.heap[a].place
    requires s.heap[a].place == Popped(t) ==> s'.heap[a].next == s.heap[a].next
    requires WorkOf(s.pc[t]).NoWork? && WorkOf(s'.pc[t]).NoWork? && RoleOf(s'.pc[t]) == RoleOf(s.pc[t])
    requires Calm(s, s', t) && ThreadInv(s', t)
    ensures Inv(s')
  {
    Alone(s, t, a);
    assert NodeInv(s, a);
    ChainFrame(s, s', a);
    Assemble(s, s', t, a, NULL);
  }

  // ---------------------------------------------------------------- each kind of step keeps the invariant

  /** Steps that change only the program counter and the hazard slot of a thread without node or record. */
  lemma SlotMove(s: State, s': State, t: Tid)
    requires Inv(s) && t in s.pc && t in s'.pc
    requires s' == s.(pc := s.pc[t := s'.pc[t]], slots := s'.slots, hp := s'.hp)
    requires Touches(s, s', t, NULL, NULL)
    requires RoleMove(RoleOf(s.pc[t]), RoleOf(s'.pc[t]), NULL) && WorkOf(s.pc[t]).NoWork? && WorkOf(s'.pc[t]).NoWork?
    requires SlotInv(s') && ThreadInv(s', t) && Calm(s, s', t)
    ensures Inv(s')
  {
    Assemble(s, s', t, NULL, NULL);
  }

  lemma ClaimInv(s: State, t: Tid, i: nat)
    requires Inv(s) && t in s.pc && s.pc[t] == Claim(i) && i < |s.slots| && s.slots[i].owner == None
    ensures Inv(DoClaim(s, t, i))
  {
    assert ThreadInv(s, t);
    SlotMove(s, DoClaim(s, t, i), t);
  }

  lemma ClaimMissInv(s: State, t: Tid, i: nat)
    requires Inv(s) && t in s.pc && s.pc[t] == Claim(i) && (i < |s.slots| ==> s.slots[i].owner != None)
    ensures Inv(DoClaim(s, t, i))
  {
    assert ThreadInv(s, t);
    GotoStep(s, t, if i + 1 < MAX_HAZARD_POINTERS then Claim(i + 1) else Thrown);
  }

  lemma PublishInv(s: State, t: Tid, p: Addr, then_: Pc)
    requires Inv(s) && t in s.pc && t in s.hp && !RoleOf(s.pc[t]).Guard? && ScanOf(then_) == NoScan
    requires WorkOf(s.pc[t]).NoWork? && WorkOf(then_).NoWork? && RoleOf(then_) == RoleOf(s.pc[t])
    requires ThreadInv(Publish(s, t, p, then_), t)
    ensures Inv(Publish(s, t, p, then_))
  {
    SlotMove(s, Publish(s, t, p, then_), t);
  }

  lemma ReleaseInv(s: State, t: Tid)
    requires Inv(s) && t in s.pc && s.pc[t].ExitRelease?
    ensures Inv(DoRelease(s, t))
  {
    assert ThreadInv(s, t);
    SlotMove(s, DoRelease(s, t), t);
  }

  lemma AllocStep(s: State, s': State, t: Tid, a: Addr)
    requires Inv(s) && t in s.pc && a !in s.heap && a != NULL
    requires RoleOf(s.pc[t]) == NoRole && WorkOf(s.pc[t]) == NoWork
    requires t in s'.pc && RoleOf(s'.pc[t]) == Pusher(a) && WorkOf(s'.pc[t]) == NoWork && ScanOf(s'.pc[t]) == NoScan
    requires PcInv(s', t) && !NeedsSlot(s'.pc[t])
    requires s' == s.(pc := s.pc[t := s'.pc[t]], heap := s.heap[a := s'.heap[a]], serial := s'.serial)
    requires s'.heap[a].place == Fresh(t)
    ensures Inv(s')
  {
    ChainFrame(s, s', a);
    Assemble(s, s', t, a, NULL);
  }

  lemma AllocInv(s: State, t: Tid, v: Value, a: Addr)
    requires Inv(s) && t in s.pc && s.pc[t] == PushAlloc(v) && a != NULL && a !in s.heap
    ensures Inv(DoAlloc(s, t, v, a))
  {
    AllocStep(s, DoAlloc(s, t, v, a), t, a);
  }

  lemma PushLoadInv(s: State, t: Tid, n: Addr, id: nat, v: Value)
    requires Inv(s) && t in s.pc && (s.pc[t] == PushLoad(n, id, v) || s.pc[t] == PushCas(n, id, v))
    ensures Inv(DoPushLoad(s, t, n, id, v))
  {
    assert ThreadInv(s, t);
    SetStep(s, DoPushLoad(s, t, n, id, v), t, n);
  }

  lemma LinkChain(s: State, s': State, n: Addr)
    requires ChainInv(s) && n in s.heap && s.heap[n].place != Linked && s.heap[n].next == s.head
    requires s'.heap == s.heap[n := s.heap[n].(place := Linked)]
    requires s'.head == n && s'.chain == [n] + s.chain
    ensures ChainInv(s')
  {
    var m := s'.chain;
    forall i, j | 0 <= i < j < |m| && j == i + 1 ensures s'.heap[m[i]].next == m[j] {
      assert m[j] == s.chain[i];
      if 0 < i {
        assert m[i] == s.chain[i - 1];
      }
    }
  }

  lemma LinkStep(s: State, s': State, t: Tid, a: Addr)
    requires Inv(s) && t in s.pc && RoleOf(s.pc[t]) == Pusher(a) && WorkOf(s.pc[t]) == NoWork
    requires t in s'.pc && RoleOf(s'.pc[t]) == NoRole && WorkOf(s'.pc[t]) == NoWork && ScanOf(s'.pc[t]) == NoScan
    requires PcInv(s', t) && !NeedsSlot(s'.pc[t])
    requires a in s.heap && s.heap[a].next == s.head && s.heap[a].data.Some?
    requires s' == s.(pc := s.pc[t := s'.pc[t]], heap := s.heap[a := s.heap[a].(place := Linked)], head := a,
                      chain := [a] + s.chain)
    ensures Inv(s')
  {
    assert ThreadInv(s, t);
    Alone(s, t, a);
    LinkChain(s, s', a);
    Assemble(s, s', t, a, NULL);
  }

  lemma PushCasInv(s: State, t: Tid, n: Addr, id: nat, v: Value)
    requires Inv(s) && t in s.pc && s.pc[t] == PushCas(n, id, v) && Live(s, n, id) && s.head == s.heap[n].next
    ensures Inv(DoPushCas(s, t, n, id, v, false))
  {
    assert ThreadInv(s, t);
    LinkStep(s, DoPushCas(s, t, n, id, v, false), t, n);
  }

  lemma NotScanned(s: State, d: Tid)
    requires Inv(s) && d in s.pc && ScanOf(s.pc[d]).Scan?
    ensures ScanOf(s.pc[d]).a !in s.chain
  {
    assert ThreadInv(s, d);
    if s.pc[d].SweepScan? || s.pc[d].SweepFree? {
      assert RecInv(s, s.pc[d].r);
    }
  }

  /** No scan is deciding on the node at the head. */
  lemma HeadNotScanned(s: State)
    requires Inv(s) && s.head != NULL
    ensures forall d :: d in s.pc && ScanOf(s.pc[d]).Scan? ==> ScanOf(s.pc[d]).a != s.head
  {
    assert s.head == s.chain[0];
    forall d | d in s.pc && ScanOf(s.pc[d]).Scan? ensures ScanOf(s.pc[d]).a != s.head {
      NotScanned(s, d);
    }
  }

  /** Validation succeeds only for a node at the head, and such a node is not being scanned. */
  lemma ValidateInv(s: State, t: Tid, seen: Addr)
    requires Inv(s) && t in s.pc && s.pc[t] == PopCheck(seen) && s.head == seen && seen != NULL
    ensures var s' := DoPopCheck(s, t, seen);
      Inv(s') && seen in s'.chain && forall d :: d in s'.pc && ScanOf(s'.pc[d]).Scan? ==> ScanOf(s'.pc[d]).a != seen
  {
    var s' := DoPopCheck(s, t, seen);
    assert ThreadInv(s, t);
    HeadNotScanned(s);
    assert seen == s.chain[0];
    assert NodeInv(s, seen);
    forall d {:trigger PairInv(s', d, t)} | d in s.pc && d != t ensures PairInv(s', d, t) {
    }
    Assemble(s, s', t, seen, NULL);
  }

  lemma PopNextInv(s: State, t: Tid, seen: Addr, id: nat)
    requires Inv(s) && t in s.pc && s.pc[t] == PopNext(seen, id)
    ensures Inv(DoPopNext(s, t, seen, id))
  {
    assert ThreadInv(s, t);
    GotoStep(s, t, PopCas(seen, id, s.heap[seen].next));
  }

  lemma UnlinkChain(s: State, s': State, t: Tid)
    requires ChainInv(s) && s.chain != []
    requires s'.heap == s.heap[s.head := s.heap[s.head].(place := Popped(t))]
    requires s'.head == s.heap[s.head].next && s'.chain == s.chain[1..]
    ensures ChainInv(s')
  {
    forall a | a in s'.heap ensures s'.heap[a].place == Linked <==> a in s'.chain {
      assert a in s.chain <==> a == s.chain[0] || a in s.chain[1..];
    }
  }

  lemma UnlinkStep(s: State, s': State, t: Tid, a: Addr)
    requires Inv(s) && t in s.pc && RoleOf(s.pc[t]) == Guard(a) && WorkOf(s.pc[t]) == NoWork && s.head == a
    requires t in s'.pc && RoleOf(s'.pc[t]) == Owner(a) && WorkOf(s'.pc[t]) == NoWork && ScanOf(s'.pc[t]) == NoScan
    requires PcInv(s', t) && a in s.heap
    requires s' == s.(pc := s.pc[t := s'.pc[t]], heap := s.heap[a := s.heap[a].(place := Popped(t))],
                      head := s.heap[a].next, chain := if s.chain == [] then [] else s.chain[1..])
    ensures Inv(s')
  {
    HeadGuard(s, t, a);
    UnlinkChain(s, s', t);
    Assemble(s, s', t, a, NULL);
  }

  lemma HeadGuard(s: State, t: Tid, a: Addr)
    requires Inv(s) && t in s.pc && RoleOf(s.pc[t]) == Guard(a) && s.head == a
    ensures s.chain != [] && a == s.chain[0] && a != NULL && a in s.heap && s.heap[a].place == Linked && t in s.hp
    ensures forall u :: u in s.pc && !RoleOf(s.pc[u]).NoRole? && RoleOf(s.pc[u]).a == a ==> RoleOf(s.pc[u]).Guard?
  {
    assert ThreadInv(s, t);
    forall u | u in s.pc && !RoleOf(s.pc[u]).NoRole? && RoleOf(s.pc[u]).a == a ensures RoleOf(s.pc[u]).Guard? {
      assert ThreadInv(s, u);
    }
  }

  lemma UnlinkInv(s: State, t: Tid, seen: Addr, id: nat, nx: Addr)
    requires Inv(s) && t in s.pc && s.pc[t] == PopCas(seen, id, nx) && s.head == seen
    ensures Inv(DoPopCas(s, t, seen, id, nx))
  {
    assert ThreadInv(s, t);
    assert NodeInv(s, seen);
    assert seen == s.chain[0];
    UnlinkStep(s, DoPopCas(s, t, seen, id, nx), t, seen);
  }

  /** A failed compare-exchange, or a validation that finds another head. */
  lemma MissInv(s: State, t: Tid)
    requires Inv(s) && t in s.pc && (s.pc[t].PopCas? || s.pc[t].PopCheck? || s.pc[t].PopLoad?)
    ensures Inv(Goto(s, t, PopPublish(s.head)))
  {
    assert ThreadInv(s, t);
    if s.pc[t].PopCas? {
      assert NodeInv(s, s.pc[t].seen);
    }
    Assemble(s, Goto(s, t, PopPublish(s.head)), t, if s.pc[t].PopCas? then s.pc[t].seen else NULL, NULL);
  }

  lemma PopDataInv(s: State, t: Tid, seen: Addr, id: nat)
    requires Inv(s) && t in s.pc && s.pc[t] == PopData(seen, id)
    ensures Inv(DoPopData(s, t, seen, id))
  {
    assert ThreadInv(s, t);
    SetStep(s, DoPopData(s, t, seen, id), t, seen);
  }

  /** Slot of a thread that guards the scanned node: not reached yet, and it holds the node. */
  lemma SlotRead(s: State, t: Tid, u: Tid)
    requires Inv(s) && t in s.pc && u in s.pc && ScanOf(s.pc[t]).Scan? && RoleOf(s.pc[u]) == Guard(ScanOf(s.pc[t]).a)
    ensures u in s.hp && ScanOf(s.pc[t]).cleared <= s.hp[u] < MAX_HAZARD_POINTERS
            && Hazard(s, s.hp[u], ScanOf(s.pc[t]).a)
  {
    assert ThreadInv(s, u);
    assert PairInv(s, t, u);
  }

  /** A step of a scan: the slot read does not hold the node, so the thread that owns it does not guard the node. */
  lemma ScanOn(s: State, t: Tid, p: Pc, a: Addr, i: nat)
    requires Inv(s) && t in s.pc && ScanOf(s.pc[t]) == Scan(a, i) && ScanOf(p) in {NoScan, Scan(a, i + 1)}
    requires ScanOf(p).Scan? ==> !Hazard(s, i, a)
    ensures forall u {:trigger PairInv(Goto(s, t, p), t, u)} :: u in s.pc && u != t ==> PairInv(Goto(s, t, p), t, u)
  {
    var s' := Goto(s, t, p);
    forall u {:trigger PairInv(s', t, u)} | u in s.pc && u != t ensures PairInv(s', t, u) {
      if RoleOf(s.pc[u]) == Guard(a) {
        SlotRead(s, t, u);
      }
    }
  }

  lemma PopScanInv(s: State, t: Tid, seen: Addr, id: nat, i: nat, res: Option<Value>)
    requires Inv(s) && t in s.pc && s.pc[t] == PopScan(seen, id, i, res)
    ensures Inv(DoPopScan(s, t, seen, id, i, res))
  {
    var s' := DoPopScan(s, t, seen, id, i, res);
    assert ThreadInv(s, t);
    ScanOn(s, t, s'.pc[t], seen, i);
    GotoStep(s, t, s'.pc[t]);
  }

  /** When the scan is complete, nobody guards the node any more. */
  lemma NoGuards(s: State, t: Tid)
    requires Inv(s) && t in s.pc && ScanOf(s.pc[t]).Scan? && ScanOf(s.pc[t]).cleared == MAX_HAZARD_POINTERS
    ensures forall u :: u in s.pc ==> RoleOf(s.pc[u]) != Guard(ScanOf(s.pc[t]).a)
  {
    forall u | u in s.pc ensures RoleOf(s.pc[u]) != Guard(ScanOf(s.pc[t]).a) {
      if RoleOf(s.pc[u]) == Guard(ScanOf(s.pc[t]).a) {
        SlotRead(s, t, u);
      }
    }
  }

  lemma FreeStep(s: State, s': State, t: Tid, a: Addr)
    requires Inv(s) && t in s.pc && RoleOf(s.pc[t]) == Owner(a) && WorkOf(s.pc[t]) == NoWork
    requires ScanOf(s.pc[t]) == Scan(a, MAX_HAZARD_POINTERS)
    requires t in s'.pc && RoleOf(s'.pc[t]) == NoRole && WorkOf(s'.pc[t]) == NoWork && ScanOf(s'.pc[t]) == NoScan
    requires PcInv(s', t) && !NeedsSlot(s'.pc[t])
    requires s' == s.(pc := s.pc[t := s'.pc[t]], heap := s.heap - {a}, freed := s'.freed)
    ensures Inv(s')
  {
    assert ThreadInv(s, t);
    Alone(s, t, a);
    NoGuards(s, t);
    ChainFrame(s, s', a);
    Assemble(s, s', t, a, NULL);
  }

  lemma PopFreeInv(s: State, t: Tid, seen: Addr, id: nat, res: Option<Value>)
    requires Inv(s) && t in s.pc && s.pc[t] == PopFree(seen, id, res)
    ensures Inv(DoPopFree(s, t, seen, id, res))
  {
    assert ThreadInv(s, t);
    FreeStep(s, DoPopFree(s, t, seen, id, res), t, seen);
  }

  lemma RetireStep(s: State, s': State, t: Tid, a: Addr, r: Addr)
    requires Inv(s) && t in s.pc && RoleOf(s.pc[t]) == Owner(a) && WorkOf(s.pc[t]) == NoWork
    requires r != NULL && r !in s.recs && a in s.heap && r in s'.recs
    requires t in s'.pc && RoleOf(s'.pc[t]) == NoRole && ScanOf(s'.pc[t]) == NoScan
    requires WorkOf(s'.pc[t]) == Detached(r, s'.recs[r].id, NULL, []) && PcInv(s', t) && !NeedsSlot(s'.pc[t])
    requires s' == s.(pc := s.pc[t := s'.pc[t]], heap := s.heap[a := s.heap[a].(place := Retired(r))],
                      recs := s.recs[r := s'.recs[r]], serial := s'.serial)
    requires s'.recs[r].node == a && s'.recs[r].nodeId == s.heap[a].id && s'.recs[r].place == Private(t)
    ensures Inv(s')
  {
    assert ThreadInv(s, t);
    Alone(s, t, a);
    ChainFrame(s, s', a);
    ListFrame(s, s', r, t);
    Assemble(s, s', t, a, r);
  }

  lemma RetireInv(s: State, t: Tid, seen: Addr, id: nat, res: Option<Value>, r: Addr)
    requires Inv(s) && t in s.pc && s.pc[t] == Retire(seen, id, res) && r != NULL && r !in s.recs
    ensures Inv(DoRetire(s, t, seen, id, res, r))
  {
    assert ThreadInv(s, t);
    RetireStep(s, DoRetire(s, t, seen, id, res, r), t, seen, r);
  }

  /** The remaining list of a thread is not affected by what happens to its detached record. */
  lemma RestKept(recs: map<Addr, Rec>, recs': map<Addr, Rec>, r: Addr, next: Addr, mine: seq<Addr>, t: Tid)
    requires IsList(recs, next, mine, Private(t)) && r !in mine
    requires forall q :: q in recs && q != r ==> q in recs' && recs'[q] == recs[q]
    ensures IsList(recs', next, mine, Private(t))
  {
    assert forall i :: 0 <= i < |mine| ==> mine[i] != r;
  }

  /** Thread `t` changes the link of its record `r`, which is not on its remaining list. */
  lemma RelinkStep(s: State, s': State, t: Tid, r: Addr)
    requires Inv(s) && t in s.pc && WorkOf(s.pc[t]).Detached? && WorkOf(s.pc[t]).r == r && RoleOf(s.pc[t]) == NoRole
    requires t in s'.pc && WorkOf(s'.pc[t]) == WorkOf(s.pc[t]) && RoleOf(s'.pc[t]) == NoRole
             && ScanOf(s'.pc[t]) == NoScan
    requires PcInv(s', t) && !NeedsSlot(s'.pc[t]) && r in s.recs
    requires s' == s.(pc := s.pc[t := s'.pc[t]], recs := s.recs[r := s.recs[r].(next := s.rhead)])
    ensures Inv(s')
  {
    assert ThreadInv(s, t);
    assert RecInv(s, r);
    RestKept(s.recs, s'.recs, r, WorkOf(s.pc[t]).next, WorkOf(s.pc[t]).mine, t);
    ListFrame(s, s', r, t);
    Assemble(s, s', t, NULL, r);
  }

  lemma AddLoadInv(s: State, t: Tid, r: Addr, rid: nat, next: Addr, mine: seq<Addr>, sweep: bool, res: Option<Value>)
    requires Inv(s) && t in s.pc && WorkOf(s.pc[t]) == Detached(r, rid, next, mine)
    requires RoleOf(s.pc[t]) == NoRole && (!sweep ==> mine == [])
    ensures var s' := DoAddLoad(s, t, r, rid, next, mine, sweep, res); Inv(s')
  {
    assert ThreadInv(s, t);
    RelinkStep(s, DoAddLoad(s, t, r, rid, next, mine, sweep, res), t, r);
  }

  lemma AddListInv(s: State, s': State, r: Addr)
    requires ListInv(s) && r in s.recs && s.recs[r].place != Shared && s.recs[r].next == s.rhead
    requires s'.recs == s.recs[r := s.recs[r].(place := Shared)]
    requires s'.rhead == r && s'.list == [r] + s.list
    ensures ListInv(s')
  {
    var m := s'.list;
    forall i, j | 0 <= i < j < |m| && j == i + 1 ensures s'.recs[m[i]].next == m[j] {
      assert m[j] == s.list[i];
      if 0 < i {
        assert m[i] == s.list[i - 1];
      }
    }
  }

  lemma AddStep(s: State, s': State, t: Tid, r: Addr)
    requires Inv(s) && t in s.pc && WorkOf(s.pc[t]).Detached? && WorkOf(s.pc[t]).r == r && RoleOf(s.pc[t]) == NoRole
    requires r in s.recs && s.recs[r].next == s.rhead
    requires t in s'.pc && RoleOf(s'.pc[t]) == NoRole && ScanOf(s'.pc[t]) == NoScan && PcInv(s', t)
             && !NeedsSlot(s'.pc[t])
    requires WorkOf(s'.pc[t]) == Listed(WorkOf(s.pc[t]).next, WorkOf(s.pc[t]).mine)
          || (WorkOf(s'.pc[t]) == NoWork && WorkOf(s.pc[t]).mine == [])
    requires s' == s.(pc := s.pc[t := s'.pc[t]], recs := s.recs[r := s.recs[r].(place := Shared)], rhead := r,
                      list := [r] + s.list)
    ensures Inv(s')
  {
    assert ThreadInv(s, t);
    assert RecInv(s, r);
    RestKept(s.recs, s'.recs, r, WorkOf(s.pc[t]).next, WorkOf(s.pc[t]).mine, t);
    AddListInv(s, s', r);
    Assemble(s, s', t, NULL, r);
  }

  lemma AddInv(s: State, t: Tid, r: Addr, rid: nat, next: Addr, mine: seq<Addr>, sweep: bool, res: Option<Value>)
    requires Inv(s) && t in s.pc && s.pc[t] == AddCas(r, rid, next, mine, sweep, res)
    requires LiveRec(s, r, rid) && s.rhead == s.recs[r].next
    ensures var s' := DoAddCas(s, t, r, rid, next, mine, sweep, res); Inv(s')
  {
    assert ThreadInv(s, t);
    AddStep(s, DoAddCas(s, t, r, rid, next, mine, sweep, res), t, r);
  }

  lemma DetachStep(s: State, t: Tid, p: Pc)
    requires Inv(s) && t in s.pc && RoleOf(s.pc[t]) == NoRole && RoleOf(p) == NoRole
    requires WorkOf(s.pc[t]).Listed? && WorkOf(s.pc[t]).next != NULL
    requires var next := WorkOf(s.pc[t]).next; var mine := WorkOf(s.pc[t]).mine;
      next in s.recs
      && WorkOf(p) == Detached(next, s.recs[next].id, s.recs[next].next, if mine == [] then [] else mine[1..])
    requires PcInv(Goto(s, t, p), t) && !NeedsSlot(p) && (ScanOf(p).Scan? ==> ScanOf(p).cleared == 0)
    ensures Inv(Goto(s, t, p))
  {
    var mine := WorkOf(s.pc[t]).mine;
    assert ThreadInv(s, t);
    assert mine == [WorkOf(s.pc[t]).next] + mine[1..];
    GotoStep(s, t, p);
  }

  lemma SweepNextInv(s: State, t: Tid, next: Addr, mine: seq<Addr>, res: Option<Value>)
    requires Inv(s) && t in s.pc && s.pc[t] == SweepNext(next, mine, res)
    ensures Inv(DoSweepNext(s, t, next, mine, res))
  {
    NextRecord(s, t, next, mine, res);
    if next == NULL {
      SweepDoneInv(s, t, mine, res);
    } else {
      DetachStep(s, t, DoSweepNext(s, t, next, mine, res).pc[t]);
    }
  }

  lemma SweepDoneInv(s: State, t: Tid, mine: seq<Addr>, res: Option<Value>)
    requires Inv(s) && t in s.pc && s.pc[t] == SweepNext(NULL, mine, res) && mine == []
    ensures Inv(Goto(s, t, PopRet(res)))
  {
    GotoStep(s, t, PopRet(res));
  }

  lemma NextRecord(s: State, t: Tid, next: Addr, mine: seq<Addr>, res: Option<Value>)
    requires Inv(s) && t in s.pc && s.pc[t] == SweepNext(next, mine, res)
    ensures if next == NULL then mine == [] else next in s.recs
  {
    assert ThreadInv(s, t);
  }

  lemma SweepScanInv(s: State, t: Tid, r: Addr, rid: nat, p: Addr, i: nat, next: Addr, mine: seq<Addr>,
                     res: Option<Value>)
    requires Inv(s) && t in s.pc && s.pc[t] == SweepScan(r, rid, p, i, next, mine, res)
    ensures Inv(DoSweepScan(s, t, r, rid, p, i, next, mine, res))
  {
    var s' := DoSweepScan(s, t, r, rid, p, i, next, mine, res);
    assert ThreadInv(s, t);
    ScanOn(s, t, s'.pc[t], p, i);
    GotoStep(s, t, s'.pc[t]);
  }

  lemma SweepFreeStep(s: State, s': State, t: Tid, r: Addr, a: Addr)
    requires Inv(s) && t in s.pc && WorkOf(s.pc[t]).Detached? && WorkOf(s.pc[t]).r == r && RoleOf(s.pc[t]) == NoRole
    requires ScanOf(s.pc[t]) == Scan(a, MAX_HAZARD_POINTERS) && r in s.recs && s.recs[r].node == a
    requires t in s'.pc && RoleOf(s'.pc[t]) == NoRole && ScanOf(s'.pc[t]) == NoScan && PcInv(s', t)
             && !NeedsSlot(s'.pc[t])
    requires WorkOf(s'.pc[t]) == Listed(WorkOf(s.pc[t]).next, WorkOf(s.pc[t]).mine)
    requires s' == s.(pc := s.pc[t := s'.pc[t]], heap := s.heap - {a}, recs := s.recs - {r}, freed := s'.freed)
    ensures Inv(s')
  {
    assert ThreadInv(s, t);
    assert RecInv(s, r);
    NoGuards(s, t);
    forall u | u in s.pc && u != t && !RoleOf(s.pc[u]).NoRole? ensures RoleOf(s.pc[u]).a != a {
      assert ThreadInv(s, u);
    }
    RestKept(s.recs, s'.recs, r, WorkOf(s.pc[t]).next, WorkOf(s.pc[t]).mine, t);
    ChainFrame(s, s', a);
    ListFrame(s, s', r, t);
    Assemble(s, s', t, a, r);
  }

  lemma LastScanned(s: State, t: Tid, r: Addr, rid: nat, p: Addr, next: Addr, mine: seq<Addr>, res: Option<Value>)
    requires Inv(s) && t in s.pc && s.pc[t] == SweepFree(r, rid, p, next, mine, res)
    ensures LiveRec(s, r, rid) && s.recs[r].node == p && Live(s, p, s.recs[r].nodeId)
  {
    assert ThreadInv(s, t);
    assert RecInv(s, r);
  }

  lemma SweepFreeInv(s: State, t: Tid, r: Addr, rid: nat, p: Addr, next: Addr, mine: seq<Addr>, res: Option<Value>)
    requires Inv(s) && t in s.pc && s.pc[t] == SweepFree(r, rid, p, next, mine, res)
    ensures Inv(DoSweepFree(s, t, r, rid, p, next, mine, res))
  {
    LastScanned(s, t, r, rid, p, next, mine, res);
    SweepFreeStep(s, DoSweepFree(s, t, r, rid, p, next, mine, res), t, r, p);
  }

  /** Taking the whole list makes every record on it private to `t`. */
  ghost predicate Takes(s: State, s': State, t: Tid) {
    && t in s.pc && t in s'.pc
    && s' == s.(pc := s.pc[t := s'.pc[t]], rhead := NULL, list := [], recs := s'.recs)
    && (forall r :: r in s'.recs <==> r in s.recs)
    && (forall r :: r in s.recs ==> s'.recs[r] == if r in s.list then s.recs[r].(place := Private(t)) else s.recs[r])
  }

  lemma TakeThreads(s: State, s': State, t: Tid)
    requires Inv(s) && Takes(s, s', t)
    requires RoleOf(s'.pc[t]) == NoRole && WorkOf(s'.pc[t]) == Listed(s.rhead, s.list) && PcInv(s', t)
             && !NeedsSlot(s'.pc[t])
    ensures forall u {:trigger ThreadInv(s', u)} :: u in s'.pc ==> ThreadInv(s', u)
  {
    forall u {:trigger ThreadInv(s', u)} | u in s'.pc ensures ThreadInv(s', u) {
      assert ThreadInv(s, u);
      var w := WorkOf(s.pc[u]);
      if u != t && !w.NoWork? {
        ListKept(s.recs, s'.recs, w.next, w.mine, Private(u));
      }
    }
  }

  lemma TakeStep(s: State, s': State, t: Tid)
    requires Inv(s) && Takes(s, s', t) && RoleOf(s.pc[t]) == NoRole && WorkOf(s.pc[t]) == NoWork
    requires RoleOf(s'.pc[t]) == NoRole && ScanOf(s'.pc[t]) == NoScan && PcInv(s', t) && !NeedsSlot(s'.pc[t])
    requires WorkOf(s'.pc[t]) == Listed(s.rhead, s.list)
    ensures Inv(s')
  {
    TakeThreads(s, s', t);
    forall a {:trigger NodeInv(s', a)} | a in s'.heap ensures NodeInv(s', a) {
      assert NodeInv(s, a);
    }
    forall r {:trigger RecInv(s', r)} | r in s'.recs ensures RecInv(s', r) {
      assert RecInv(s, r);
    }
    forall d, u {:trigger PairInv(s', d, u)} | d in s'.pc && u in s'.pc ensures PairInv(s', d, u) {
      assert PairInv(s, d, u);
    }
  }

  lemma TakeInv(s: State, t: Tid, res: Option<Value>)
    requires Inv(s) && t in s.pc && s.pc[t] == Take(res)
    ensures Inv(DoTake(s, t, res))
  {
    TakeStep(s, DoTake(s, t, res), t);
  }

  lemma IdleInv(s: State, t: Tid, c: Choice)
    requires Inv(s) && t in s.pc && s.pc[t] == Idle
    ensures Inv(SlotStep(s, t, c))
  {
    if c.op.DoPush? {
      GotoStep(s, t, PushAlloc(c.op.v));
    } else if c.op.DoPop? {
      GotoStep(s, t, if t in s.hp then PopLoad else Claim(0));
    } else if t in s.hp {
      GotoStep(s, t, ExitClear);
    }
  }

  lemma DoneInv(s: State, t: Tid)
    requires Inv(s) && t in s.pc && RoleOf(s.pc[t]) == NoRole && WorkOf(s.pc[t]) == NoWork
    ensures Inv(Goto(s, t, Idle))
  {
    GotoStep(s, t, Idle);
  }

  lemma ExitInv(s: State, t: Tid)
    requires Inv(s) && t in s.pc && s.pc[t] == ExitClear
    ensures Inv(Publish(s, t, NULL, ExitRelease))
  {
    assert ThreadInv(s, t);
    PublishInv(s, t, NULL, ExitRelease);
  }

  lemma PopPublishInv(s: State, t: Tid, seen: Addr)
    requires Inv(s) && t in s.pc && s.pc[t] == PopPublish(seen)
    ensures Inv(Publish(s, t, seen, PopCheck(seen)))
  {
    assert ThreadInv(s, t);
    PublishInv(s, t, seen, PopCheck(seen));
  }

  lemma PopClearInv(s: State, t: Tid, seen: Addr, id: nat)
    requires Inv(s) && t in s.pc && s.pc[t] == PopClear(seen, id)
    ensures Inv(Publish(s, t, NULL, if seen == NULL then PopRet(None) else PopData(seen, id)))
  {
    assert ThreadInv(s, t);
    PublishInv(s, t, NULL, if seen == NULL then PopRet(None) else PopData(seen, id));
  }

  lemma PopCheckInv(s: State, t: Tid, seen: Addr)
    requires Inv(s) && t in s.pc && s.pc[t] == PopCheck(seen)
    ensures Inv(DoPopCheck(s, t, seen))
  {
    if s.head != seen {
      MissInv(s, t);
    } else if seen == NULL {
      assert ThreadInv(s, t);
      GotoStep(s, t, PopClear(NULL, 0));
    } else {
      ValidateInv(s, t, seen);
    }
  }

  lemma PopCasInv(s: State, t: Tid, seen: Addr, id: nat, nx: Addr)
    requires Inv(s) && t in s.pc && s.pc[t] == PopCas(seen, id, nx)
    ensures Inv(DoPopCas(s, t, seen, id, nx))
  {
    if s.head == seen {
      UnlinkInv(s, t, seen, id, nx);
    } else {
      MissInv(s, t);
    }
  }

  lemma SlotStepInv(s: State, t: Tid, c: Choice)
    requires Inv(s) && t in s.pc && Part(s.pc[t]) == InSlot
    ensures Inv(SlotStep(s, t, c))
  {
    match s.pc[t]
    case Idle => IdleInv(s, t, c);
    case Claim(i) =>
      if i < |s.slots| && s.slots[i].owner == None {
        ClaimInv(s, t, i);
      } else {
        ClaimMissInv(s, t, i);
      }
    case Thrown => DoneInv(s, t);
    case ExitClear => ExitInv(s, t);
    case ExitRelease => ReleaseInv(s, t);
  }

  lemma PushStepInv(s: State, t: Tid, c: Choice)
    requires Inv(s) && t in s.pc && Part(s.pc[t]) == InPush
    ensures Inv(PushStep(s, t, c))
  {
    match s.pc[t]
    case PushAlloc(v) =>
      if c.spare != NULL && c.spare !in s.heap {
        AllocInv(s, t, v, c.spare);
      }
    case PushLoad(n, id, v) => PushLoadInv(s, t, n, id, v);
    case PushCas(n, id, v) =>
      assert ThreadInv(s, t);
      if s.head == s.heap[n].next && !c.spurious {
        PushCasInv(s, t, n, id, v);
      } else {
        PushLoadInv(s, t, n, id, v);
      }
    case PushRet => DoneInv(s, t);
  }

  lemma PopStepInv(s: State, t: Tid)
    requires Inv(s) && t in s.pc && Part(s.pc[t]) == InPop
    ensures Inv(PopStep(s, t))
  {
    match s.pc[t]
    case PopLoad => MissInv(s, t);
    case PopPublish(seen) => PopPublishInv(s, t, seen);
    case PopCheck(seen) => PopCheckInv(s, t, seen);
    case PopNext(seen, id) => PopNextInv(s, t, seen, id);
    case PopCas(seen, id, nx) => PopCasInv(s, t, seen, id, nx);
    case PopClear(seen, id) => PopClearInv(s, t, seen, id);
    case PopData(seen, id) => PopDataInv(s, t, seen, id);
    case PopRet(res) => DoneInv(s, t);
  }

  lemma ReclaimStepInv(s: State, t: Tid, c: Choice)
    requires Inv(s) && t in s.pc && Part(s.pc[t]) == InReclaim
    ensures Inv(ReclaimStep(s, t, c))
  {
    match s.pc[t]
    case PopScan(seen, id, i, res) => PopScanInv(s, t, seen, id, i, res);
    case PopFree(seen, id, res) => PopFreeInv(s, t, seen, id, res);
    case Retire(seen, id, res) =>
      if c.spare != NULL && c.spare !in s.recs {
        RetireInv(s, t, seen, id, res, c.spare);
      }
    case Take(res) => TakeInv(s, t, res);
  }

  lemma SweepStepInv(s: State, t: Tid)
    requires Inv(s) && t in s.pc && Part(s.pc[t]) == InSweep
    ensures Inv(SweepStep(s, t))
  {
    assert ThreadInv(s, t);
    match s.pc[t]
    case AddLoad(r, rid, next, mine, sweep, res) => AddLoadInv(s, t, r, rid, next, mine, sweep, res);
    case AddCas(r, rid, next, mine, sweep, res) =>
      if s.rhead == s.recs[r].next {
        AddInv(s, t, r, rid, next, mine, sweep, res);
      } else {
        AddLoadInv(s, t, r, rid, next, mine, sweep, res);
      }
    case SweepNext(next, mine, res) => SweepNextInv(s, t, next, mine, res);
    case SweepScan(r, rid, p, i, next, mine, res) => SweepScanInv(s, t, r, rid, p, i, next, mine, res);
    case SweepFree(r, rid, p, next, mine, res) => SweepFreeInv(s, t, r, rid, p, next, mine, res);
  }

  lemma StepInv(s: State, t: Tid, c: Choice)
    requires Inv(s) && t in s.pc
    ensures Inv(Step(s, t, c))
  {
    match Part(s.pc[t])
    case InPush => PushStepInv(s, t, c);
    case InPop => PopStepInv(s, t);
    case InReclaim => ReclaimStepInv(s, t, c);
    case InSweep => SweepStepInv(s, t);
    case InSlot => SlotStepInv(s, t, c);
  }
}
