/** The invariant of the hand-over-hand list, kept by every step. */
module LockedListInvariant {
  import opened Wrappers
  import opened LinearSpec
  import opened LockedList

  // ---------------------------------------------------------------- invariant

  /** The mutexes that a thread has locked. */
  function Locked(p: Pc): set<Addr> {
    match p
    case PushSet(_, _) => {HEAD}
    case PushLink(_, _) => {HEAD}
    case PushUnlock => {HEAD}
    case Walk(_, at) =>
      (match at
       case LockHead => {}
       case Visit(next) => {next.a}
       case Next(cur) => {cur.a}
       case LockNext(cur, _) => {cur.a}
       case Free(cur, _) => {cur.a}
       case Exit(cur, _) => {cur.a}
       case _ => {at.cur.a, at.next.a})
    case _ => {}
  }

  /** A node that belongs to one thread: not linked yet, or no longer linked. */
  datatype Role = NoRole | Pusher(r: Ref) | Remover(r: Ref)

  function RoleOf(p: Pc): Role {
    match p
    case PushLock(n, v) => Pusher(n)
    case PushSet(n, v) => Pusher(n)
    case PushLink(n, v) => Pusher(n)
    case Walk(_, at) => if at.UnlockOld? || at.Free? then Remover(at.next) else NoRole
    case _ => NoRole
  }

  /** The thread has moved out the link of `a` and is about to set it again. */
  predicate Cuts(p: Pc, a: Addr) {
    (p.PushLink? && a == HEAD) || (p.Walk? && p.at.Splice? && p.at.cur.a == a)
  }

  ghost predicate Adjacent(m: seq<Addr>, a: Addr, b: Addr) {
    exists i, j :: 0 <= i < j < |m| && j == i + 1 && m[i] == a && m[j] == b
  }

  predicate InList(n: Node) {
    n.place == Linked || n.place == Cut
  }

  /** The list: the sentinel first, each node linked to the following one unless it is cut. */
  ghost predicate ChainInv(s: State) {
    && NULL !in s.heap && s.chain != [] && s.chain[0] == HEAD && HEAD in s.heap && s.heap[HEAD].id == 0
    && (forall i, j :: 0 <= i < j < |s.chain| ==> s.chain[i] != s.chain[j])
    && (forall a :: a in s.chain ==> a in s.heap && InList(s.heap[a]))
    && (forall a :: a in s.heap && InList(s.heap[a]) ==> a in s.chain)
    && (forall i, j :: 0 <= i < j < |s.chain| && j == i + 1 && s.heap[s.chain[i]].place == Linked ==>
          s.heap[s.chain[i]].next == s.chain[j])
    && (s.heap[s.chain[|s.chain| - 1]].place == Linked ==> s.heap[s.chain[|s.chain| - 1]].next == NULL)
  }

  ghost predicate NodeInv(s: State, a: Addr)
    requires a in s.heap
  {
    var n := s.heap[a];
    && (n.mutex.Some? ==> n.mutex.value in s.pc && a in Locked(s.pc[n.mutex.value]))
    && (n.place.Fresh? ==> n.place.t in s.pc && RoleOf(s.pc[n.place.t]) == Pusher(Ref(a, n.id)) && n.mutex == None)
    && (n.place.Removed? ==> n.place.t in s.pc && RoleOf(s.pc[n.place.t]) == Remover(Ref(a, n.id)))
    && (n.place == Cut ==> n.mutex.Some? && Cuts(s.pc[n.mutex.value], a))
    && (a != HEAD ==> n.data.Some?)
  }

  /** A node that `t` has locked and whose link is in order. */
  ghost predicate Holds(s: State, t: Tid, r: Ref) {
    Live(s, r) && s.heap[r.a].mutex == Some(t) && s.heap[r.a].place == Linked
  }

  ghost predicate WalkInv(s: State, t: Tid, at: At) {
    match at
    case LockHead => true
    case Next(cur) => Holds(s, t, cur)
    case LockNext(cur, next) => Holds(s, t, cur) && Live(s, next) && s.heap[cur.a].next == next.a
    case Test(cur, next) => Holds(s, t, cur) && Holds(s, t, next) && s.heap[cur.a].next == next.a
    case UnlockCur(cur, next) => Holds(s, t, cur) && Holds(s, t, next) && cur.a != next.a && next.a != HEAD
    case Visit(next) => Holds(s, t, next) && next.a != HEAD
    case Detach(cur, next) => Holds(s, t, cur) && Holds(s, t, next) && s.heap[cur.a].next == next.a
    case Splice(cur, next) =>
      Live(s, cur) && s.heap[cur.a].mutex == Some(t) && s.heap[cur.a].place == Cut && Holds(s, t, next)
      && Adjacent(s.chain, cur.a, next.a)
    case UnlockOld(cur, next) => Holds(s, t, cur) && Live(s, next) && s.heap[next.a].mutex == Some(t)
        && s.heap[next.a].place == Removed(t)
    case Free(cur, next) => Holds(s, t, cur) && Live(s, next) && s.heap[next.a].mutex == None
        && s.heap[next.a].place == Removed(t)
    case Exit(cur, _) => Holds(s, t, cur)
  }

  ghost predicate ThreadInv(s: State, t: Tid)
    requires t in s.pc
  {
    match s.pc[t]
    case PushLock(n, v) => Live(s, n) && s.heap[n.a].place == Fresh(t) && s.heap[n.a].data == Some(v)
    case PushSet(n, v) => Live(s, n) && s.heap[n.a].place == Fresh(t) && s.heap[n.a].data == Some(v)
        && Holds(s, t, SENTINEL)
    case PushLink(n, v) =>
      && Live(s, n) && s.heap[n.a].place == Fresh(t) && s.heap[n.a].data == Some(v)
      && Live(s, SENTINEL) && s.heap[HEAD].mutex == Some(t) && s.heap[HEAD].place == Cut
      && s.chain != [] && s.heap[n.a].next == if |s.chain| == 1 then NULL else s.chain[1]
    case PushUnlock => Holds(s, t, SENTINEL)
    case Walk(_, at) => WalkInv(s, t, at)
    case _ => true
  }

  ghost predicate Inv(s: State) {
    && !s.fault
    && ChainInv(s)
    && (forall a {:trigger NodeInv(s, a)} :: a in s.heap ==> NodeInv(s, a))
    && (forall t {:trigger ThreadInv(s, t)} :: t in s.pc ==> ThreadInv(s, t))
  }

  // ---------------------------------------------------------------- frames

  /** `s'` differs from `s` only in thread `t` and in the nodes of `d`, all of which are unlocked, locked by
      `t`, or its own. */
  ghost predicate Touches(s: State, s': State, t: Tid, d: set<Addr>) {
    && t in s.pc && t in s'.pc && s'.pc == s.pc[t := s'.pc[t]]
    && (forall b :: b !in d ==> (b in s'.heap <==> b in s.heap) && (b in s.heap ==> s'.heap[b] == s.heap[b]))
    && (forall b :: b in d && b in s.heap ==>
          && (s.heap[b].mutex == None || s.heap[b].mutex == Some(t))
          && (s.heap[b].place.Fresh? || s.heap[b].place.Removed? ==> s.heap[b].place.t == t)
          && (InList(s.heap[b]) ==> b in s'.heap && s'.heap[b].id == s.heap[b].id))
  }

  /** What other threads rely on about the order of the list. */
  ghost predicate OrderKept(s: State, s': State, u: Tid)
    requires u in s.pc
  {
    match s.pc[u]
    case PushLink(_, _) => s.chain != [] && s'.chain != [] && (|s'.chain| == 1 <==> |s.chain| == 1)
        && (|s.chain| == 1 || s'.chain[1] == s.chain[1])
    case Walk(_, at) => at.Splice? && Adjacent(s.chain, at.cur.a, at.next.a) ==> Adjacent(s'.chain, at.cur.a, at.next.a)
    case _ => true
  }

  lemma OtherThread(s: State, s': State, t: Tid, d: set<Addr>, u: Tid)
    requires Inv(s) && Touches(s, s', t, d) && u in s.pc && u != t && OrderKept(s, s', u)
    ensures ThreadInv(s', u)
  {
    assert ThreadInv(s, u);
    if s.pc[u].Walk? && s.pc[u].at.LockNext? {
      NextInList(s, u, s.pc[u].at.cur, s.pc[u].at.next);
    }
  }

  /** What follows a locked node is in the list, so it has not been removed. */
  lemma NextInList(s: State, u: Tid, cur: Ref, next: Ref)
    requires ChainInv(s) && Holds(s, u, cur) && s.heap[cur.a].next == next.a && next.a != NULL
    ensures next.a in s.heap && InList(s.heap[next.a]) && next.a != HEAD && cur.a != next.a
            && Adjacent(s.chain, cur.a, next.a)
  {
    assert cur.a in s.chain;
    var i :| 0 <= i < |s.chain| && s.chain[i] == cur.a;
    var j := i + 1;
    if j < |s.chain| {
      assert s.heap[s.chain[i]].next == s.chain[j];
    }
  }

  lemma Assemble(s: State, s': State, t: Tid, d: set<Addr>)
    requires Inv(s) && Touches(s, s', t, d)
    requires !s'.fault && ChainInv(s') && ThreadInv(s', t)
    requires forall b :: b in d && b in s'.heap ==> NodeInv(s', b)
    requires forall b :: b !in d && b in Locked(s.pc[t]) ==>
               b in Locked(s'.pc[t]) && (Cuts(s.pc[t], b) ==> Cuts(s'.pc[t], b))
    requires RoleOf(s'.pc[t]) == RoleOf(s.pc[t]) || RoleOf(s.pc[t]).NoRole? || RoleOf(s.pc[t]).r.a in d
    requires forall u :: u in s.pc && u != t ==> OrderKept(s, s', u)
    ensures Inv(s')
  {
    forall b {:trigger NodeInv(s', b)} | b in s'.heap ensures NodeInv(s', b) {
      if b !in d {
        assert NodeInv(s, b);
      }
    }
    forall u {:trigger ThreadInv(s', u)} | u in s'.pc ensures ThreadInv(s', u) {
      if u != t {
        OtherThread(s, s', t, d, u);
      }
    }
  }

  lemma SameOrder(s: State, s': State, t: Tid)
    requires Inv(s) && s'.chain == s.chain
    ensures forall u :: u in s.pc && u != t ==> OrderKept(s, s', u)
  {
  }

  lemma ChainKept(s: State, s': State, a: Addr)
    requires ChainInv(s) && s'.chain == s.chain && a in s.heap && a in s'.heap && s'.heap == s.heap[a := s'.heap[a]]
    requires s'.heap[a].id == s.heap[a].id && InList(s'.heap[a]) == InList(s.heap[a])
    requires InList(s.heap[a]) ==>
               s'.heap[a].place == Cut || (s.heap[a].place == Linked && s'.heap[a].next == s.heap[a].next)
    ensures ChainInv(s')
  {
  }

  /** The list is not affected by the appearance or disappearance of a node that is not on it. */
  lemma OffChain(s: State, s': State, a: Addr)
    requires ChainInv(s) && s'.chain == s.chain && a != NULL
    requires forall b :: b != a ==> (b in s'.heap <==> b in s.heap)
    requires forall b :: b != a && b in s.heap ==> s'.heap[b] == s.heap[b]
    requires a in s.heap ==> !InList(s.heap[a])
    requires a in s'.heap ==> !InList(s'.heap[a])
    ensures ChainInv(s')
  {
    assert a !in s.chain;
  }

  /** A step that changes at most one node, and not the list. */
  lemma NodeStep(s: State, s': State, t: Tid, a: Addr)
    requires Inv(s) && t in s.pc && t in s'.pc && a in s.heap && a in s'.heap
    requires s.heap[a].mutex == None || s.heap[a].mutex == Some(t)
    requires s.heap[a].place.Fresh? || s.heap[a].place.Removed? ==>
               s.heap[a].place == Removed(t) && s'.heap[a].place == s.heap[a].place
    requires InList(s.heap[a]) ==> s.heap[a].place == Linked
    requires InList(s.heap[a]) ==>
               (s'.heap[a].place == Cut && Cuts(s'.pc[t], a))
               || (s'.heap[a].place == s.heap[a].place && s'.heap[a].next == s.heap[a].next)
    requires s'.heap[a].id == s.heap[a].id && (a != HEAD ==> s'.heap[a].data.Some?)
    requires s' == s.(pc := s.pc[t := s'.pc[t]], heap := s.heap[a := s'.heap[a]])
    requires s'.heap[a].mutex == if a in Locked(s'.pc[t]) then Some(t) else None
    requires forall b :: b != a && b in Locked(s.pc[t]) ==> b in Locked(s'.pc[t]) && !Cuts(s.pc[t], b)
    requires RoleOf(s'.pc[t]) == RoleOf(s.pc[t]) && ThreadInv(s', t)
    ensures Inv(s')
  {
    assert NodeInv(s, a);
    SameOrder(s, s', t);
    ChainKept(s, s', a);
    Assemble(s, s', t, {a});
  }

  lemma GotoStep(s: State, t: Tid, p: Pc)
    requires Inv(s) && t in s.pc && RoleOf(p) == RoleOf(s.pc[t]) && Locked(s.pc[t]) <= Locked(p)
    requires !s.pc[t].PushLink? && !(s.pc[t].Walk? && s.pc[t].at.Splice?)
    requires ThreadInv(Goto(s, t, p), t)
    ensures Inv(Goto(s, t, p))
  {
    SameOrder(s, Goto(s, t, p), t);
    Assemble(s, Goto(s, t, p), t, {});
  }

  // ---------------------------------------------------------------- the list

  lemma {:induction false} WithoutAt(m: seq<Addr>, j: nat)
    requires j < |m| && forall x, y :: 0 <= x < y < |m| ==> m[x] != m[y]
    ensures Without(m, m[j]) == m[..j] + m[j + 1..]
  {
    if j != 0 {
      var r := m[1..];
      WithoutAt(r, j - 1);
      assert r[..j - 1] + r[j..] == m[1..j] + m[j + 1..];
      assert m[..j] == [m[0]] + m[1..j];
    }
  }

  lemma {:induction false} WithoutAdjacent(m: seq<Addr>, j: nat, a: Addr, b: Addr)
    requires j < |m| && (forall x, y :: 0 <= x < y < |m| ==> m[x] != m[y]) && Adjacent(m, a, b) && a != m[j]
             && b != m[j]
    ensures Adjacent(m[..j] + m[j + 1..], a, b)
  {
    var x, y :| 0 <= x < y < |m| && y == x + 1 && m[x] == a && m[y] == b;
    var w := m[..j] + m[j + 1..];
    if y < j {
      assert w[x] == a && w[y] == b;
    } else {
      var x', y' := x - 1, y - 1;
      assert w[x'] == a && w[y'] == b;
    }
  }

  lemma InsertAdjacent(m: seq<Addr>, n: Addr, a: Addr, b: Addr)
    requires m != [] && (forall x, y :: 0 <= x < y < |m| ==> m[x] != m[y]) && Adjacent(m, a, b) && a != m[0]
    ensures Adjacent([m[0], n] + m[1..], a, b)
  {
    var x, y :| 0 <= x < y < |m| && y == x + 1 && m[x] == a && m[y] == b;
    var x', y' := x + 1, y + 1;
    var w := [m[0], n] + m[1..];
    assert w[x'] == a && w[y'] == b;
  }

  lemma InsertAt(l: seq<Addr>, n: Addr)
    requires l != [] && n !in l && forall x, y :: 0 <= x < y < |l| ==> l[x] != l[y]
    ensures var m := [l[0], n] + l[1..];
      && (forall x, y :: 0 <= x < y < |m| ==> m[x] != m[y])
      && (forall c :: c in m <==> c in l || c == n)
  {
    var m := [l[0], n] + l[1..];
    assert l == [l[0]] + l[1..];
  }

  lemma InsertLinks(s: State, s': State, n: Addr)
    requires ChainInv(s) && n in s.heap && n !in s.chain && s.heap[HEAD].place == Cut
    requires s.heap[n].next == if |s.chain| == 1 then NULL else s.chain[1]
    requires s'.heap == s.heap[n := s.heap[n].(place := Linked)][HEAD := s.heap[HEAD].(next := n, place := Linked)]
    requires s'.chain == [s.chain[0], n] + s.chain[1..]
    ensures forall x, y :: 0 <= x < y < |s'.chain| && y == x + 1 && s'.heap[s'.chain[x]].place == Linked ==>
              s'.heap[s'.chain[x]].next == s'.chain[y]
    ensures s'.heap[s'.chain[|s'.chain| - 1]].place == Linked ==> s'.heap[s'.chain[|s'.chain| - 1]].next == NULL
  {
    var m, l := s'.chain, s.chain;
    forall x, y | 0 <= x < y < |m| && y == x + 1 && s'.heap[m[x]].place == Linked ensures s'.heap[m[x]].next == m[y] {
      if 2 <= x {
        var x', y' := x - 1, y - 1;
        assert m[x] == l[x'] && m[y] == l[y'];
      }
    }
  }

  lemma InsertChain(s: State, s': State, n: Addr)
    requires ChainInv(s) && n in s.heap && s.heap[n].place.Fresh? && s.heap[HEAD].place == Cut
    requires s.heap[n].next == if |s.chain| == 1 then NULL else s.chain[1]
    requires s'.heap == s.heap[n := s.heap[n].(place := Linked)][HEAD := s.heap[HEAD].(next := n, place := Linked)]
    requires s'.chain == [s.chain[0], n] + s.chain[1..]
    ensures ChainInv(s')
  {
    assert n !in s.chain;
    InsertAt(s.chain, n);
    InsertLinks(s, s', n);
  }

  lemma DropAt(l: seq<Addr>, j: nat)
    requires j < |l| && forall x, y :: 0 <= x < y < |l| ==> l[x] != l[y]
    ensures var m := l[..j] + l[j + 1..];
      && (forall x, y :: 0 <= x < y < |m| ==> m[x] != m[y])
      && (forall c :: c in m <==> c in l && c != l[j])
  {
    var m := l[..j] + l[j + 1..];
    forall c | c in l && c != l[j] ensures c in m {
      var i :| 0 <= i < |l| && l[i] == c;
      assert if i < j then m[i] == c else m[i - 1] == c;
    }
  }

  /** The link that is spliced is the one to the node after the next. */
  lemma SpliceLinks(s: State, s': State, t: Tid, a: Addr, b: Addr, j: nat)
    requires ChainInv(s) && 0 < j < |s.chain| && s.chain[j - 1] == a && s.chain[j] == b && s.heap[b].place == Linked
    requires s'.heap == s.heap[a := s.heap[a].(next := s.heap[b].next, place := Linked)][b := s.heap[b].(next := NULL,
        place := Removed(t))]
    requires s'.chain == s.chain[..j] + s.chain[j + 1..]
    ensures forall x, y :: 0 <= x < y < |s'.chain| && y == x + 1 && s'.heap[s'.chain[x]].place == Linked ==>
              s'.heap[s'.chain[x]].next == s'.chain[y]
    ensures s'.heap[s'.chain[|s'.chain| - 1]].place == Linked ==> s'.heap[s'.chain[|s'.chain| - 1]].next == NULL
  {
    var m, l := s'.chain, s.chain;
    forall x, y | 0 <= x < y < |m| && y == x + 1 && s'.heap[m[x]].place == Linked ensures s'.heap[m[x]].next == m[y] {
      var y' := y + 1;
      if y < j {
        assert m[x] == l[x] && m[y] == l[y];
      } else {
        assert m[y] == l[y'] && m[x] == if x < j then l[j - 1] else l[y];
      }
    }
  }

  lemma SpliceMembers(s: State, s': State, t: Tid, a: Addr, b: Addr)
    requires ChainInv(s) && a in s.chain && b in s.chain && a != b
    requires s'.heap == s.heap[a := s.heap[a].(next := s.heap[b].next, place := Linked)][b := s.heap[b].(next := NULL,
        place := Removed(t))]
    requires forall c :: c in s'.chain <==> c in s.chain && c != b
    ensures forall c :: c in s'.chain ==> c in s'.heap && InList(s'.heap[c])
    ensures forall c :: c in s'.heap && InList(s'.heap[c]) ==> c in s'.chain
  {
  }

  lemma SpliceChain(s: State, s': State, t: Tid, a: Addr, b: Addr, j: nat)
    requires ChainInv(s) && 0 < j < |s.chain| && s.chain[j - 1] == a && s.chain[j] == b && s.heap[b].place == Linked
    requires s'.heap == s.heap[a := s.heap[a].(next := s.heap[b].next, place := Linked)][b := s.heap[b].(next := NULL,
        place := Removed(t))]
    requires s'.chain == s.chain[..j] + s.chain[j + 1..]
    ensures ChainInv(s')
  {
    DropAt(s.chain, j);
    SpliceMembers(s, s', t, a, b);
    SpliceLinks(s, s', t, a, b, j);
    assert s'.chain[0] == s.chain[0];
  }

  // ---------------------------------------------------------------- each step keeps the invariant

  /** A free mutex belongs to a list node that is intact. */
  lemma Intact(s: State, r: Ref)
    requires Inv(s) && Live(s, r) && InList(s.heap[r.a]) && s.heap[r.a].mutex == None
    ensures s.heap[r.a].place == Linked
  {
    assert NodeInv(s, r.a);
  }

  lemma LockInv(s: State, t: Tid, p: Pc, r: Ref)
    requires Inv(s) && t in s.pc && Live(s, r) && s.heap[r.a].mutex == None && InList(s.heap[r.a])
    requires !s.pc[t].PushLink? && !(s.pc[t].Walk? && s.pc[t].at.Splice?)
    requires RoleOf(p) == RoleOf(s.pc[t]) && Locked(p) == Locked(s.pc[t]) + {r.a}
    requires ThreadInv(Lock(s, t, p, r), t)
    ensures Inv(Lock(s, t, p, r))
  {
    assert NodeInv(s, r.a);
    NodeStep(s, Lock(s, t, p, r), t, r.a);
  }

  lemma UnlockInv(s: State, t: Tid, p: Pc, r: Ref)
    requires Inv(s) && t in s.pc && Holds(s, t, r)
    requires !s.pc[t].PushLink? && !(s.pc[t].Walk? && s.pc[t].at.Splice?)
    requires RoleOf(p) == RoleOf(s.pc[t]) && Locked(p) == Locked(s.pc[t]) - {r.a}
    requires ThreadInv(Unlock(s, t, p, r), t)
    ensures Inv(Unlock(s, t, p, r))
  {
    assert NodeInv(s, r.a);
    NodeStep(s, Unlock(s, t, p, r), t, r.a);
  }

  lemma AllocInv(s: State, t: Tid, v: Value, c: Choice)
    requires Inv(s) && t in s.pc && s.pc[t] == PushAlloc(v) && c.spare != NULL && c.spare !in s.heap
    ensures Inv(Step(s, t, c))
  {
    var s' := Step(s, t, c);
    SameOrder(s, s', t);
    OffChain(s, s', c.spare);
    Assemble(s, s', t, {c.spare});
  }

  lemma PushLockInv(s: State, t: Tid, n: Ref, v: Value)
    requires Inv(s) && t in s.pc && s.pc[t] == PushLock(n, v) && s.heap[HEAD].mutex == None
    ensures Inv(Lock(s, t, PushSet(n, v), SENTINEL))
  {
    assert ThreadInv(s, t);
    Intact(s, SENTINEL);
    LockInv(s, t, PushSet(n, v), SENTINEL);
  }

  lemma PushSetInv(s: State, t: Tid, n: Ref, v: Value)
    requires Inv(s) && t in s.pc && s.pc[t] == PushSet(n, v)
    ensures Inv(DoPushSet(s, t, n, v))
  {
    var s' := DoPushSet(s, t, n, v);
    assert ThreadInv(s, t);
    assert NodeInv(s, n.a) && NodeInv(s, HEAD);
    SameOrder(s, s', t);
    CutHead(s, s', n.a);
    Assemble(s, s', t, {n.a, HEAD});
  }

  lemma CutHead(s: State, s': State, n: Addr)
    requires ChainInv(s) && n in s.heap && s.heap[n].place.Fresh? && s.heap[HEAD].place == Linked
    requires s'.heap == s.heap[n := s.heap[n].(next := s.heap[HEAD].next)][HEAD := s.heap[HEAD].(next := NULL,
        place := Cut)]
    requires s'.chain == s.chain
    ensures s.heap[HEAD].next == (if |s.chain| == 1 then NULL else s.chain[1]) && ChainInv(s')
  {
    assert n !in s.chain;
  }

  lemma InsertOrder(s: State, s': State, t: Tid, n: Ref, v: Value)
    requires Inv(s) && t in s.pc && s.pc[t] == PushLink(n, v) && s'.chain == [s.chain[0], n.a] + s.chain[1..]
    ensures forall u :: u in s.pc && u != t ==> OrderKept(s, s', u)
  {
    assert ThreadInv(s, t);
    forall u | u in s.pc && u != t ensures OrderKept(s, s', u) {
      assert ThreadInv(s, u);
      if s.pc[u].Walk? && s.pc[u].at.Splice? {
        InsertAdjacent(s.chain, n.a, s.pc[u].at.cur.a, s.pc[u].at.next.a);
      }
    }
  }

  lemma PushLinkInv(s: State, t: Tid, n: Ref, v: Value)
    requires Inv(s) && t in s.pc && s.pc[t] == PushLink(n, v)
    ensures Inv(DoPushLink(s, t, n, v))
  {
    var s' := DoPushLink(s, t, n, v);
    assert ThreadInv(s, t);
    InsertChain(s, s', n.a);
    InsertOrder(s, s', t, n, v);
    InsertNodes(s, s', t, n, v);
  }

  lemma InsertNodes(s: State, s': State, t: Tid, n: Ref, v: Value)
    requires Inv(s) && t in s.pc && s.pc[t] == PushLink(n, v) && n.a in s.heap && n.a != HEAD
    requires !s'.fault && s'.pc == s.pc[t := PushUnlock]
    requires s'.heap == s.heap[n.a := s.heap[n.a].(place := Linked)][HEAD := s.heap[HEAD].(next := n.a,
        place := Linked)]
    requires ChainInv(s') && forall u :: u in s.pc && u != t ==> OrderKept(s, s', u)
    ensures Inv(s')
  {
    assert ThreadInv(s, t);
    assert NodeInv(s, n.a) && NodeInv(s, HEAD);
    Assemble(s, s', t, {n.a, HEAD});
  }

  lemma DetachInv(s: State, t: Tid, k: Kind, cur: Ref, next: Ref)
    requires Inv(s) && t in s.pc && s.pc[t] == Walk(k, Detach(cur, next))
    ensures Inv(DoDetach(s, t, k, cur, next))
  {
    assert ThreadInv(s, t);
    NextInList(s, t, cur, next);
    assert NodeInv(s, cur.a);
    NodeStep(s, DoDetach(s, t, k, cur, next), t, cur.a);
  }

  lemma SpliceOrder(s: State, s': State, t: Tid, k: Kind, cur: Ref, next: Ref, j: nat)
    requires Inv(s) && t in s.pc && s.pc[t] == Walk(k, Splice(cur, next))
    requires 0 < j < |s.chain| && s.chain[j - 1] == cur.a && s.chain[j] == next.a
    requires s'.chain == s.chain[..j] + s.chain[j + 1..]
    ensures forall u :: u in s.pc && u != t ==> OrderKept(s, s', u)
  {
    assert ThreadInv(s, t);
    forall u | u in s.pc && u != t ensures OrderKept(s, s', u) {
      assert ThreadInv(s, u);
      if s.pc[u].Walk? && s.pc[u].at.Splice? {
        WithoutAdjacent(s.chain, j, s.pc[u].at.cur.a, s.pc[u].at.next.a);
      }
    }
  }

  lemma SplicedNode(s: State, s': State, t: Tid, k: Kind, cur: Ref, next: Ref, b: Addr)
    requires Inv(s) && t in s.pc && s.pc[t] == Walk(k, Splice(cur, next)) && t in s'.pc
             && s'.pc[t] == Walk(k, UnlockOld(cur, next))
    requires cur.a in s.heap && next.a in s.heap && cur.a != next.a && !s'.fault && s'.pc == s.pc[t := s'.pc[t]]
    requires s'.heap == s.heap[cur.a := s.heap[cur.a].(next := s.heap[next.a].next, place := Linked)]
                              [next.a := s.heap[next.a].(next := NULL, place := Removed(t))]
    requires b == cur.a || b == next.a
    ensures b in s'.heap && NodeInv(s', b)
  {
    assert ThreadInv(s, t);
    assert NodeInv(s, b);
  }

  lemma SplicedThread(s: State, s': State, t: Tid, k: Kind, cur: Ref, next: Ref)
    requires Inv(s) && t in s.pc && s.pc[t] == Walk(k, Splice(cur, next)) && t in s'.pc
             && s'.pc[t] == Walk(k, UnlockOld(cur, next))
    requires cur.a in s.heap && next.a in s.heap && cur.a != next.a && !s'.fault && s'.pc == s.pc[t := s'.pc[t]]
    requires s'.heap == s.heap[cur.a := s.heap[cur.a].(next := s.heap[next.a].next, place := Linked)]
                              [next.a := s.heap[next.a].(next := NULL, place := Removed(t))]
    ensures ThreadInv(s', t) && Touches(s, s', t, {cur.a, next.a})
  {
    assert ThreadInv(s, t);
  }

  lemma SplicedLocks(s: State, s': State, t: Tid, k: Kind, cur: Ref, next: Ref)
    requires Inv(s) && t in s.pc && s.pc[t] == Walk(k, Splice(cur, next)) && t in s'.pc
             && s'.pc[t] == Walk(k, UnlockOld(cur, next))
    ensures forall b :: b !in {cur.a, next.a} && b in Locked(s.pc[t]) ==>
              b in Locked(s'.pc[t]) && (Cuts(s.pc[t], b) ==> Cuts(s'.pc[t], b))
    ensures RoleOf(s.pc[t]).NoRole?
  {
    assert ThreadInv(s, t);
  }

  lemma SpliceNodes(s: State, s': State, t: Tid, k: Kind, cur: Ref, next: Ref)
    requires Inv(s) && t in s.pc && s.pc[t] == Walk(k, Splice(cur, next)) && t in s'.pc
             && s'.pc[t] == Walk(k, UnlockOld(cur, next))
    requires cur.a in s.heap && next.a in s.heap && cur.a != next.a && !s'.fault && s'.pc == s.pc[t := s'.pc[t]]
    requires s'.heap == s.heap[cur.a := s.heap[cur.a].(next := s.heap[next.a].next, place := Linked)]
                              [next.a := s.heap[next.a].(next := NULL, place := Removed(t))]
    requires ChainInv(s') && forall u :: u in s.pc && u != t ==> OrderKept(s, s', u)
    ensures Inv(s')
  {
    SplicedThread(s, s', t, k, cur, next);
    SplicedNode(s, s', t, k, cur, next, cur.a);
    SplicedNode(s, s', t, k, cur, next, next.a);
    SplicedLocks(s, s', t, k, cur, next);
    Assemble(s, s', t, {cur.a, next.a});
  }

  lemma SpliceStep(s: State, s': State, t: Tid, k: Kind, cur: Ref, next: Ref, j: nat)
    requires Inv(s) && t in s.pc && s.pc[t] == Walk(k, Splice(cur, next)) && t in s'.pc
             && s'.pc[t] == Walk(k, UnlockOld(cur, next))
    requires 0 < j < |s.chain| && s.chain[j - 1] == cur.a && s.chain[j] == next.a && cur.a in s.heap && next.a in s.heap
    requires s' == s.(pc := s.pc[t := s'.pc[t]], chain := s.chain[..j] + s.chain[j + 1..],
                      heap := s.heap[cur.a := s.heap[cur.a].(next := s.heap[next.a].next, place := Linked)]
                                    [next.a := s.heap[next.a].(next := NULL, place := Removed(t))])
    ensures Inv(s')
  {
    assert ThreadInv(s, t);
    SpliceChain(s, s', t, cur.a, next.a, j);
    SpliceOrder(s, s', t, k, cur, next, j);
    SpliceNodes(s, s', t, k, cur, next);
  }

  lemma SpliceInv(s: State, t: Tid, k: Kind, cur: Ref, next: Ref)
    requires Inv(s) && t in s.pc && s.pc[t] == Walk(k, Splice(cur, next))
    ensures Inv(DoSplice(s, t, k, cur, next))
  {
    assert ThreadInv(s, t);
    var i, j :| 0 <= i < j < |s.chain| && j == i + 1 && s.chain[i] == cur.a && s.chain[j] == next.a;
    WithoutAt(s.chain, j);
    SpliceStep(s, DoSplice(s, t, k, cur, next), t, k, cur, next, j);
  }

  lemma UnlockOldInv(s: State, t: Tid, k: Kind, cur: Ref, next: Ref)
    requires Inv(s) && t in s.pc && s.pc[t] == Walk(k, UnlockOld(cur, next))
    ensures Inv(Unlock(s, t, Walk(k, Free(cur, next)), next))
  {
    assert ThreadInv(s, t);
    assert NodeInv(s, next.a);
    NodeStep(s, Unlock(s, t, Walk(k, Free(cur, next)), next), t, next.a);
  }

  lemma FreeInv(s: State, t: Tid, k: Kind, cur: Ref, next: Ref)
    requires Inv(s) && t in s.pc && s.pc[t] == Walk(k, Free(cur, next))
    ensures Inv(DoFree(s, t, k, cur, next))
  {
    var s' := DoFree(s, t, k, cur, next);
    assert ThreadInv(s, t);
    SameOrder(s, s', t);
    OffChain(s, s', next.a);
    Assemble(s, s', t, {next.a});
  }

  lemma VisitInv(s: State, t: Tid, k: Kind, next: Ref)
    requires Inv(s) && t in s.pc && s.pc[t] == Walk(k, Visit(next))
    ensures Inv(DoVisit(s, t, k, next))
  {
    assert ThreadInv(s, t);
    assert NodeInv(s, next.a);
    NodeStep(s, DoVisit(s, t, k, next), t, next.a);
  }

  lemma LockNextInv(s: State, t: Tid, k: Kind, cur: Ref, next: Ref, p: Pc)
    requires Inv(s) && t in s.pc && s.pc[t] == Walk(k, LockNext(cur, next)) && next.a in s.heap
             && s.heap[next.a].mutex == None
    requires p == Walk(k, if k.Remove? then Test(cur, next) else UnlockCur(cur, next))
    ensures Inv(Lock(s, t, p, next))
  {
    assert ThreadInv(s, t);
    NextInList(s, t, cur, next);
    Intact(s, next);
    LockInv(s, t, p, next);
  }

  lemma SearchStepInv(s: State, t: Tid, k: Kind, at: At)
    requires Inv(s) && t in s.pc && s.pc[t] == Walk(k, at)
             && (at.LockHead? || at.Next? || at.LockNext? || at.Test? || at.Exit?)
    ensures Inv(WalkStep(s, t, k, at))
  {
    var s' := WalkStep(s, t, k, at);
    assert ThreadInv(s, t);
    match at
    case LockHead =>
      if s.heap[HEAD].mutex.None? {
        Intact(s, SENTINEL);
        LockInv(s, t, Walk(k, Next(SENTINEL)), SENTINEL);
      }
    case Next(cur) => NextStepInv(s, t, k, cur);
    case LockNext(cur, next) =>
      if s.heap[next.a].mutex.None? {
        LockNextInv(s, t, k, cur, next, s'.pc[t]);
      }
    case Test(cur, next) => TestStepInv(s, t, k, cur, next);
    case Exit(cur, _) => UnlockInv(s, t, Idle, cur);
  }

  lemma NextStepInv(s: State, t: Tid, k: Kind, cur: Ref)
    requires Inv(s) && t in s.pc && s.pc[t] == Walk(k, Next(cur))
    ensures Inv(DoNext(s, t, k, cur))
  {
    assert ThreadInv(s, t);
    if s.heap[cur.a].next != NULL {
      NextInList(s, t, cur, Ref(s.heap[cur.a].next, 0));
    }
    GotoStep(s, t, DoNext(s, t, k, cur).pc[t]);
  }

  lemma TestStepInv(s: State, t: Tid, k: Kind, cur: Ref, next: Ref)
    requires Inv(s) && t in s.pc && s.pc[t] == Walk(k, Test(cur, next))
    ensures Inv(DoTest(s, t, k, cur, next))
  {
    assert ThreadInv(s, t);
    assert NodeInv(s, next.a);
    NextInList(s, t, cur, next);
    GotoStep(s, t, DoTest(s, t, k, cur, next).pc[t]);
  }

  lemma WalkStepInv(s: State, t: Tid, k: Kind, at: At)
    requires Inv(s) && t in s.pc && s.pc[t] == Walk(k, at)
    ensures Inv(WalkStep(s, t, k, at))
  {
    match at
    case UnlockCur(cur, next) => UnlockCurInv(s, t, k, cur, next);
    case Visit(next) => VisitInv(s, t, k, next);
    case Detach(cur, next) => DetachInv(s, t, k, cur, next);
    case Splice(cur, next) => SpliceInv(s, t, k, cur, next);
    case UnlockOld(cur, next) => UnlockOldInv(s, t, k, cur, next);
    case Free(cur, next) => FreeInv(s, t, k, cur, next);
    case _ => SearchStepInv(s, t, k, at);
  }

  lemma UnlockCurInv(s: State, t: Tid, k: Kind, cur: Ref, next: Ref)
    requires Inv(s) && t in s.pc && s.pc[t] == Walk(k, UnlockCur(cur, next))
    ensures Inv(Unlock(s, t, Walk(k, if k.Remove? then Next(next) else Visit(next)), cur))
  {
    assert ThreadInv(s, t);
    UnlockInv(s, t, Walk(k, if k.Remove? then Next(next) else Visit(next)), cur);
  }

  lemma StepInv(s: State, t: Tid, c: Choice)
    requires Inv(s) && t in s.pc
    ensures Inv(Step(s, t, c))
  {
    assert ThreadInv(s, t);
    match s.pc[t]
    case Idle => GotoStep(s, t, if c.op.DoPush? then PushAlloc(c.op.v) else Walk(c.op.k, LockHead));
    case PushAlloc(v) =>
      if c.spare != NULL && c.spare !in s.heap {
        AllocInv(s, t, v, c);
      }
    case PushLock(n, v) =>
      if s.heap[HEAD].mutex.None? {
        PushLockInv(s, t, n, v);
      }
    case PushSet(n, v) => PushSetInv(s, t, n, v);
    case PushLink(n, v) => PushLinkInv(s, t, n, v);
    case PushUnlock => UnlockInv(s, t, Idle, SENTINEL);
    case Walk(k, at) => WalkStepInv(s, t, k, at);
  }
}
