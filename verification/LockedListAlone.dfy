/** A walk over the hand-over-hand list when no other thread moves: it comes to its end, and leaves and answers
    what the sequential list says. */
module LockedListAlone {
  import opened Wrappers
  import opened LinearSpec
  import opened LockedList
  import opened LockedListInvariant
  import opened LockedListTheorems
  import opened LockedListRefinement
  import SequentialList

  // ---------------------------------------------------------------- the elements at rest

  lemma {:induction false} RestView(s: State, m: seq<Addr>)
    requires forall u :: u in s.pc ==> s.pc[u] == Idle
    requires m != [] && (forall i :: 0 < i < |m| ==> m[i] in s.heap && s.heap[m[i]].data.Some? && m[i] != HEAD)
    ensures View(s, m) == Own(s, m[0]) + DataOf(s.heap, m)
  {
    assert MarkAt(s, m[0]) == NoMark;
    if |m| == 1 {
      assert m[1..] == [];
    } else {
      RestView(s, m[1..]);
      assert DataOf(s.heap, m) == Own(s, m[1]) + DataOf(s.heap, m[1..]);
    }
  }

  /** With no operation in progress, the items of the abstract list are the elements. */
  lemma RestItems(s: State)
    requires Inv(s) && forall u :: u in s.pc ==> s.pc[u] == Idle
    ensures Abs(s).items == Values(s)
  {
    HasData(s);
    forall i | 0 < i < |s.chain| ensures s.chain[i] != HEAD {
      assert s.chain[0] != s.chain[i];
    }
    RestView(s, s.chain);
    assert Own(s, HEAD) == [];
    assert [] + Values(s) == Values(s);
  }

  // ---------------------------------------------------------------- one thread runs

  /** The state after `n` steps of `t` alone. */
  function Alone(s: State, t: Tid, c: Choice, n: nat): State
    decreases n
  {
    if n == 0 || t !in s.pc then s else Alone(Step(s, t, c), t, c, n - 1)
  }

  ghost predicate OthersIdle(s: State, t: Tid) {
    t in s.pc && forall u :: u in s.pc && u != t ==> s.pc[u] == Idle
  }

  /** Alone, a thread finds every mutex free that it has not locked itself. */
  lemma NotBlocked(s: State, t: Tid, a: Addr)
    requires Inv(s) && OthersIdle(s, t) && a in s.heap && a !in Locked(s.pc[t])
    ensures s.heap[a].mutex == None
  {
    assert NodeInv(s, a);
  }

  function Rank(at: At): nat {
    match at
    case LockHead => 3
    case LockNext(_, _) => 1
    case Next(_) => 2
    case Free(_, _) => 3
    case UnlockOld(_, _) => 4
    case Splice(_, _) => 5
    case Detach(_, _) => 6
    case Visit(_) => 6
    case UnlockCur(_, _) => 7
    case Test(_, _) => 8
    case Exit(_, _) => 1
  }

  /** A bound on the steps a walk needs to come to its exit. */
  function StepsLeft(s: State, p: Pc): nat {
    if !p.Walk? || p.at.Exit? then 0
    else if p.at.LockHead? then 8 * |s.chain| + 3
    else 8 * |Behind(s.chain, PlaceOf(p))| + Rank(p.at)
  }

  /** The walk comes nearer to its exit. */
  ghost predicate Advances(s: State, s': State, t: Tid) {
    && t in s.pc && t in s'.pc && s'.pc == s.pc[t := s'.pc[t]] && s'.pc[t].Walk? && !s'.pc[t].at.LockHead?
    && StepsLeft(s', s'.pc[t]) < StepsLeft(s, s.pc[t])
  }

  lemma NextAdvances(s: State, t: Tid, k: Kind, cur: Ref)
    requires Inv(s) && t in s.pc && s.pc[t] == Walk(k, Next(cur)) && !DoNext(s, t, k, cur).fault
    ensures Advances(s, DoNext(s, t, k, cur), t)
  {
  }

  lemma LockNextAdvances(s: State, t: Tid, k: Kind, cur: Ref, next: Ref)
    requires Inv(s) && OthersIdle(s, t) && s.pc[t] == Walk(k, LockNext(cur, next))
    ensures Advances(s, WalkStep(s, t, k, LockNext(cur, next)), t)
  {
    assert ThreadInv(s, t);
    var j := LocatePair(s, t, cur, next);
    NotBlocked(s, t, next.a);
  }

  lemma SpliceBehind(m: seq<Addr>, j: nat)
    requires j + 1 < |m| && Distinct(m)
    ensures |Behind(m[..j + 1] + m[j + 2..], m[j])| == |m| - j - 2
  {
    var m' := m[..j + 1] + m[j + 2..];
    assert m'[j] == m[j];
    BehindAt(m', j);
  }

  lemma SpliceAdvances(s: State, t: Tid, k: Kind, cur: Ref, next: Ref)
    requires Inv(s) && t in s.pc && s.pc[t] == Walk(k, Splice(cur, next))
    ensures Advances(s, DoSplice(s, t, k, cur, next), t)
  {
    var j := SpliceSpot(s, t, k, cur, next);
    SplicePair(s, t, cur, next, j);
    WithoutAt(s.chain, j + 1);
    SpliceBehind(s.chain, j);
  }

  lemma LockHeadAdvances(s: State, t: Tid, k: Kind)
    requires Inv(s) && OthersIdle(s, t) && s.pc[t] == Walk(k, LockHead)
    ensures Advances(s, WalkStep(s, t, k, LockHead), t)
  {
    NotBlocked(s, t, HEAD);
    BehindAt(s.chain, 0);
  }

  /** The steps that do not change the list, nor the place of the walk. */
  lemma OthersAdvance(s: State, t: Tid, k: Kind, at: At)
    requires Inv(s) && t in s.pc && s.pc[t] == Walk(k, at) && !WalkStep(s, t, k, at).fault
    requires at.Test? || at.Visit? || at.UnlockCur? || at.Detach? || at.UnlockOld? || at.Free?
    ensures Advances(s, WalkStep(s, t, k, at), t)
  {
    assert ThreadInv(s, t);
  }

  lemma WalkAdvances(s: State, t: Tid, k: Kind, at: At)
    requires Inv(s) && OthersIdle(s, t) && s.pc[t] == Walk(k, at) && !at.Exit? && !WalkStep(s, t, k, at).fault
    ensures Advances(s, WalkStep(s, t, k, at), t)
  {
    match at
    case LockHead => LockHeadAdvances(s, t, k);
    case Next(cur) => NextAdvances(s, t, k, cur);
    case LockNext(cur, next) => LockNextAdvances(s, t, k, cur, next);
    case Splice(cur, next) => SpliceAdvances(s, t, k, cur, next);
    case _ => OthersAdvance(s, t, k, at);
  }

  // ---------------------------------------------------------------- to the end

  lemma TauKeeps(a: ListSpec, b: ListSpec, t: Tid)
    requires Follows(a, b, t, Tau)
    ensures b == a
  {
    assert b.phase == a.phase;
  }

  /** Alone, a walk comes to its exit, and nothing more happens to the abstract list on the way. */
  lemma {:induction false} ToExit(s: State, t: Tid, c: Choice) returns (n: nat, s': State)
    requires Inv(s) && OthersIdle(s, t) && s.pc[t].Walk? && !s.pc[t].at.LockHead? && KindOk(s.pc[t])
    ensures s' == Alone(s, t, c, n) && Inv(s') && OthersIdle(s', t) && s'.pc[t].Walk? && s'.pc[t].at.Exit?
    ensures Abs(s') == Abs(s)
    decreases StepsLeft(s, s.pc[t])
  {
    if s.pc[t].at.Exit? {
      n, s' := 0, s;
    } else {
      var s1 := Step(s, t, c);
      StepInv(s, t, c);
      WalkAdvances(s, t, s.pc[t].k, s.pc[t].at);
      StepKind(s, t, c);
      StepMatches(s, t, c, s1);
      TauKeeps(Abs(s), Abs(s1), t);
      n, s' := ToExit(s1, t, c);
      n := n + 1;
    }
  }

  /** The call, and the step that locks the head. */
  lemma Starts(s: State, t: Tid, c: Choice, k: Kind) returns (s': State)
    requires Inv(s) && t in s.pc && (forall u :: u in s.pc ==> s.pc[u] == Idle) && c.op == DoWalk(k)
    ensures s' == Step(Goto(s, t, Walk(k, LockHead)), t, c) && Inv(s') && OthersIdle(s', t)
    ensures s'.pc[t] == Walk(k, Next(SENTINEL)) && Abs(s').items == Walked(k, Abs(s).items)
    ensures t in Abs(s').phase && Abs(s').phase[t] == Answered(Found(k, Abs(s).items))
  {
    var s1 := Step(s, t, c);
    StepInv(s, t, c);
    StepMatches(s, t, c, s1);
    s' := LocksHead(s1, t, c, k);
  }

  lemma LocksHead(s: State, t: Tid, c: Choice, k: Kind) returns (s': State)
    requires Inv(s) && OthersIdle(s, t) && s.pc[t] == Walk(k, LockHead)
    ensures s' == Step(s, t, c) && Inv(s') && OthersIdle(s', t)
    ensures s'.pc[t] == Walk(k, Next(SENTINEL)) && Abs(s').items == Walked(k, Abs(s).items)
    ensures t in Abs(s').phase && Abs(s').phase[t] == Answered(Found(k, Abs(s).items))
  {
    NotBlocked(s, t, HEAD);
    s' := Step(s, t, c);
    StepInv(s, t, c);
    StepMatches(s, t, c, s');
  }

  lemma Ends(s: State, t: Tid, c: Choice) returns (s': State)
    requires Inv(s) && OthersIdle(s, t) && s.pc[t].Walk? && s.pc[t].at.Exit?
    ensures s' == Step(s, t, c) && Inv(s') && t in s'.pc && (forall u :: u in s'.pc ==> s'.pc[u] == Idle)
    ensures Values(s') == Abs(s).items && Abs(s).phase[t] == Answered(s.pc[t].at.res)
  {
    s' := Step(s, t, c);
    assert ThreadInv(s, t);
    StepInv(s, t, c);
    StepMatches(s, t, c, s');
    RestItems(s');
  }

  /** The walk has been carried out: all threads are idle, `values` are the elements, and `res` was the answer. */
  ghost predicate Completes(s: State, t: Tid, c: Choice, n: nat, values: seq<Value>, res: Option<Value>) {
    var s1, s2 := Alone(s, t, c, n), Alone(s, t, c, n + 1);
    && t in s1.pc && s1.pc[t].Walk? && s1.pc[t].at.Exit? && s1.pc[t].at.res == res
    && Inv(s2) && t in s2.pc && (forall u :: u in s2.pc ==> s2.pc[u] == Idle) && Values(s2) == values
  }

  lemma {:induction false} AloneSnoc(s: State, t: Tid, c: Choice, n: nat)
    requires t in Alone(s, t, c, n).pc
    ensures Alone(s, t, c, n + 1) == Step(Alone(s, t, c, n), t, c)
    decreases n
  {
    if n != 0 && t in s.pc {
      AloneSnoc(Step(s, t, c), t, c, n - 1);
    } else if n == 0 {
      assert Alone(Step(s, t, c), t, c, 0) == Step(s, t, c);
    }
  }

  /** In every reachable state with no operation in progress, a walk of any kind that then runs alone ends,
      leaves what the sequential walk leaves of the elements, and answers what that finds. */
  lemma WalkAlone(threads: set<Tid>, sched: Schedule, t: Tid, k: Kind, c: Choice) returns (n: nat)
    requires t in Run(threads, sched).pc && forall u :: u in Run(threads, sched).pc ==>
               Run(threads, sched).pc[u] == Idle
    requires c.op == DoWalk(k)
    ensures Inv(Run(threads, sched))
    ensures Completes(Run(threads, sched), t, c, n, Walked(k, Values(Run(threads, sched))),
                      Found(k, Values(Run(threads, sched))))
  {
    RunInv(threads, sched);
    n := WalkFrom(Run(threads, sched), t, k, c);
  }

  lemma WalkFrom(s: State, t: Tid, k: Kind, c: Choice) returns (n: nat)
    requires Inv(s) && t in s.pc && (forall u :: u in s.pc ==> s.pc[u] == Idle) && c.op == DoWalk(k)
    ensures Completes(s, t, c, n, Walked(k, Values(s)), Found(k, Values(s)))
  {
    RestItems(s);
    var s1 := Starts(s, t, c, k);
    var m, s2 := ToExit(s1, t, c);
    var s3 := Ends(s2, t, c);
    n := WholeRun(s, t, c, k, m, s2, s3);
  }

  lemma WholeRun(s: State, t: Tid, c: Choice, k: Kind, m: nat, s2: State, s3: State) returns (n: nat)
    requires t in s.pc && s.pc[t] == Idle && c.op == DoWalk(k)
    requires s2 == Alone(Step(Goto(s, t, Walk(k, LockHead)), t, c), t, c, m) && t in s2.pc && s3 == Step(s2, t, c)
    ensures s2 == Alone(s, t, c, n) && s3 == Alone(s, t, c, n + 1)
  {
    n := m + 2;
    StartSteps(s, t, c, k, m);
    AloneSnoc(s, t, c, n);
  }

  lemma StartSteps(s: State, t: Tid, c: Choice, k: Kind, m: nat)
    requires t in s.pc && s.pc[t] == Idle && c.op == DoWalk(k)
    ensures Alone(s, t, c, m + 2) == Alone(Step(Goto(s, t, Walk(k, LockHead)), t, c), t, c, m)
  {
    var s1 := Goto(s, t, Walk(k, LockHead));
    assert Step(s, t, c) == s1;
    assert Alone(s, t, c, m + 2) == Alone(s1, t, c, m + 1);
  }

  // ---------------------------------------------------------------- function objects without state

  function Stateless(p: Value -> bool): (nat, Value) -> (nat, bool) {
    (st, v) => (st, p(v))
  }

  lemma {:induction false} WalkedRemove(st: nat, p: Value -> bool, l: seq<Value>)
    ensures Walked(Remove(st, Stateless(p)), l) == SequentialList.FilterOut(l, p)
    decreases |l|
  {
    var k := Remove(st, Stateless(p));
    if l != [] {
      var x := [l[0]];
      assert l == x + l[1..] && x[..0] == [];
      WalkedRemove(Called(k, l[0]).st, p, l[1..]);
      SequentialList.FilterOutConcat(x, l[1..], p);
      assert SequentialList.FilterOut(x, p) == if p(l[0]) then [] else x;
    }
  }

  /** A remove_if whose predicate has no state, run alone, leaves exactly the elements that do not match. */
  lemma RemoveIfAlone(threads: set<Tid>, sched: Schedule, t: Tid, p: Value -> bool, c: Choice) returns (n: nat)
    requires t in Run(threads, sched).pc && forall u :: u in Run(threads, sched).pc ==>
               Run(threads, sched).pc[u] == Idle
    requires c.op == DoWalk(Remove(0, Stateless(p)))
    ensures Inv(Run(threads, sched))
    ensures Completes(Run(threads, sched), t, c, n, SequentialList.FilterOut(Values(Run(threads, sched)), p), None)
  {
    n := WalkAlone(threads, sched, t, Remove(0, Stateless(p)), c);
    WalkedRemove(0, p, Values(Run(threads, sched)));
  }
}
