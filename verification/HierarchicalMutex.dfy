/** `hierarchical_mutex`: a mutex that may only be locked below every mutex its thread already holds.

    Any number of threads and mutexes.  One `Step` tests the hierarchy, locks or unlocks the wrapped
    mutex, or writes `_previous_hierarchy_value` or the thread's value.  The repository leaves the
    initial value of `_this_thread_hierarchy_value` open; here it is a value `top` above every mutex.

    `held` lists the mutexes that the value of a thread accounts for, in the order of acquisition; it is
    bookkeeping that no step reads.
*/
module HierarchicalMutex {
  import opened Wrappers

  type Tid = nat
  type MutexId = nat

  datatype Mutex = Mutex(hierarchy: nat, previous: nat, owner: Option<Tid>)

  datatype Pc =
    | Idle
    | Lock(m: MutexId)     // passed the test; before `_mutex.lock()`
    | TryLock(m: MutexId)  // passed the test; before `_mutex.try_lock()`
    | Save(m: MutexId)     // locked; before `_previous_hierarchy_value = _this_thread_hierarchy_value`
    | Enter(m: MutexId)    // before `_this_thread_hierarchy_value = _hierarchy_value`
    | Leave(m: MutexId)    // before `_this_thread_hierarchy_value = _previous_hierarchy_value`
    | Unlock(m: MutexId)   // before `_mutex.unlock()`

  datatype Thread = Thread(value: nat, pc: Pc, held: seq<MutexId>)

  datatype State = State(mutexes: seq<Mutex>, threads: map<Tid, Thread>)

  datatype Op = DoLock(m: MutexId) | DoTryLock(m: MutexId) | DoUnlock(m: MutexId)

  function Without(h: seq<MutexId>, m: MutexId): seq<MutexId> {
    if h == [] then [] else if h[|h| - 1] == m then h[..|h| - 1] else Without(h[..|h| - 1], m) + [h[|h| - 1]]
  }

  function Put(s: State, t: Tid, x: Thread): State {
    s.(threads := s.threads[t := x])
  }

  /** Locks the wrapped mutex. */
  function Acquire(s: State, t: Tid, m: MutexId): State
    requires t in s.threads && m < |s.mutexes|
  {
    s.(mutexes := s.mutexes[m := s.mutexes[m].(owner := Some(t))],
       threads := s.threads[t := s.threads[t].(pc := Save(m))])
  }

  /** One step of thread `t`.  An idle thread starts `op`; a failed test throws, and the thread is idle
      again.  Unlocking a mutex that the thread does not hold is undefined in the original and is not
      started here. */
  function Step(s: State, t: Tid, op: Op): State
    requires t in s.threads
  {
    var x := s.threads[t];
    match x.pc
    case Idle =>
      if |s.mutexes| <= op.m then s
      else
        (match op
         case DoLock(m) => if x.value <= s.mutexes[m].hierarchy then s else Put(s, t, x.(pc := Lock(m)))
         case DoTryLock(m) => if x.value <= s.mutexes[m].hierarchy then s else Put(s, t, x.(pc := TryLock(m)))
         case DoUnlock(m) => if s.mutexes[m].owner == Some(t) then Put(s, t, x.(pc := Leave(m))) else s)
    case Lock(m) => if |s.mutexes| <= m || s.mutexes[m].owner.Some? then s else Acquire(s, t, m)
    case TryLock(m) =>
      if |s.mutexes| <= m || s.mutexes[m].owner.Some? then Put(s, t, x.(pc := Idle)) else Acquire(s, t, m)
    case Save(m) =>
      if |s.mutexes| <= m then s
      else
        s.(mutexes := s.mutexes[m := s.mutexes[m].(previous := x.value)], threads := s.threads[t := x.(pc := Enter(m))])
    case Enter(m) =>
      if |s.mutexes| <= m then s
      else Put(s, t, x.(value := s.mutexes[m].hierarchy, pc := Idle, held := x.held + [m]))
    case Leave(m) =>
      if |s.mutexes| <= m then s
      else Put(s, t, x.(value := s.mutexes[m].previous, pc := Unlock(m), held := Without(x.held, m)))
    case Unlock(m) =>
      if |s.mutexes| <= m then s
      else
        s.(mutexes := s.mutexes[m := s.mutexes[m].(owner := None)],
           threads := s.threads[t := x.(pc := Idle)])
  }

  // ---------------------------------------------------------------- invariant

  /** The value of a thread that has acquired the mutexes of `h`, the lowest last. */
  ghost function Least(s: State, h: seq<MutexId>, top: nat): nat {
    if h == [] || |s.mutexes| <= h[|h| - 1] then top else s.mutexes[h[|h| - 1]].hierarchy
  }

  /** Acquired from the top down, each with the value before it saved. */
  ghost predicate Ladder(s: State, h: seq<MutexId>, top: nat) {
    && (forall i :: 0 <= i < |h| ==> h[i] < |s.mutexes|)
    && (forall i, j :: 0 <= i < j < |h| ==> s.mutexes[h[j]].hierarchy < s.mutexes[h[i]].hierarchy)
    && (h != [] ==> s.mutexes[h[0]].previous == top)
    && (forall i, j :: 0 <= i < j < |h| && j == i + 1 ==> s.mutexes[h[j]].previous == s.mutexes[h[i]].hierarchy)
  }

  /** The thread has `m` locked. */
  predicate Holds(x: Thread, m: MutexId) {
    m in x.held || x.pc == Save(m) || x.pc == Enter(m) || x.pc == Unlock(m)
  }

  ghost predicate ThreadInv(s: State, t: Tid, top: nat)
    requires t in s.threads
  {
    var x := s.threads[t];
    && Ladder(s, x.held, top) && x.value == Least(s, x.held, top)
    && (forall i :: 0 <= i < |x.held| ==> s.mutexes[x.held[i]].owner == Some(t))
    && (x.pc != Idle ==> x.pc.m < |s.mutexes|)
    && (x.pc.Lock? || x.pc.TryLock? || x.pc.Save? || x.pc.Enter? ==> s.mutexes[x.pc.m].hierarchy < x.value)
    && (x.pc.Save? || x.pc.Enter? || x.pc.Unlock? ==> s.mutexes[x.pc.m].owner == Some(t) && x.pc.m !in x.held)
    && (x.pc.Enter? ==> s.mutexes[x.pc.m].previous == x.value)
    && (x.pc.Leave? ==> x.held != [] && x.held[|x.held| - 1] == x.pc.m)
  }

  ghost predicate MutexInv(s: State, m: MutexId)
    requires m < |s.mutexes|
  {
    s.mutexes[m].owner.Some? ==> s.mutexes[m].owner.value in s.threads && Holds(s.threads[s.mutexes[m].owner.value], m)
  }

  ghost predicate Inv(s: State, top: nat) {
    && (forall m :: 0 <= m < |s.mutexes| ==> s.mutexes[m].hierarchy < top)
    && (forall m {:trigger MutexInv(s, m)} :: 0 <= m < |s.mutexes| ==> MutexInv(s, m))
    && (forall t {:trigger ThreadInv(s, t, top)} :: t in s.threads ==> ThreadInv(s, t, top))
  }

  /** The step follows the rule that a thread unlocks what it locked last. */
  predicate InOrder(s: State, t: Tid, op: Op)
    requires t in s.threads
  {
    var x := s.threads[t];
    x.pc == Idle && op.DoUnlock? ==> x.held != [] && x.held[|x.held| - 1] == op.m
  }

  // ---------------------------------------------------------------- steps keep the invariant

  /** The mutexes that `t` holds are not affected by a step of another thread. */
  lemma LadderKept(s: State, s': State, h: seq<MutexId>, top: nat)
    requires Ladder(s, h, top) && |s'.mutexes| == |s.mutexes|
    requires forall m :: m in h && m < |s.mutexes| ==>
               s'.mutexes[m].hierarchy == s.mutexes[m].hierarchy && s'.mutexes[m].previous == s.mutexes[m].previous
    ensures Ladder(s', h, top)
  {
    assert forall i :: 0 <= i < |h| ==> h[i] in h;
  }

  /** `s'` differs from `s` in thread `t` and in mutex `m`, which is free or held by `t`. */
  ghost predicate Touches(s: State, s': State, t: Tid, m: MutexId) {
    && t in s.threads && t in s'.threads && s'.threads == s.threads[t := s'.threads[t]]
    && m < |s.mutexes| && |s'.mutexes| == |s.mutexes| && s'.mutexes == s.mutexes[m := s'.mutexes[m]]
    && s'.mutexes[m].hierarchy == s.mutexes[m].hierarchy
    && (s'.mutexes[m] == s.mutexes[m] || s.mutexes[m].owner in {None, Some(t)})
  }

  lemma OtherThread(s: State, s': State, t: Tid, m: MutexId, u: Tid, top: nat)
    requires Inv(s, top) && Touches(s, s', t, m) && u in s.threads && u != t
    ensures ThreadInv(s', u, top)
  {
    assert ThreadInv(s, u, top);
    LadderKept(s, s', s.threads[u].held, top);
  }

  lemma Assemble(s: State, s': State, t: Tid, m: MutexId, top: nat)
    requires Inv(s, top) && Touches(s, s', t, m) && ThreadInv(s', t, top) && MutexInv(s', m)
    requires forall k :: k != m && Holds(s.threads[t], k) ==> Holds(s'.threads[t], k)
    ensures Inv(s', top)
  {
    forall k {:trigger MutexInv(s', k)} | 0 <= k < |s'.mutexes| ensures MutexInv(s', k) {
      if k != m {
        assert MutexInv(s, k);
      }
    }
    forall u {:trigger ThreadInv(s', u, top)} | u in s'.threads ensures ThreadInv(s', u, top) {
      if u != t {
        OtherThread(s, s', t, m, u, top);
      }
    }
  }

  lemma SaveInv(s: State, t: Tid, op: Op, m: MutexId, top: nat)
    requires Inv(s, top) && t in s.threads && s.threads[t].pc == Save(m)
    ensures Inv(Step(s, t, op), top)
  {
    var s', h := Step(s, t, op), s.threads[t].held;
    assert ThreadInv(s, t, top);
    assert forall i :: 0 <= i < |h| ==> h[i] in h;
    LadderKept(s, s', h, top);
    Assemble(s, s', t, m, top);
  }

  lemma EnterInv(s: State, t: Tid, op: Op, m: MutexId, top: nat)
    requires Inv(s, top) && t in s.threads && s.threads[t].pc == Enter(m)
    ensures Inv(Step(s, t, op), top)
  {
    var s', h := Step(s, t, op), s.threads[t].held;
    assert ThreadInv(s, t, top);
    LadderPush(s, h, m, top);
    assert MutexInv(s, m);
    Assemble(s, s', t, m, top);
  }

  lemma LadderPush(s: State, h: seq<MutexId>, m: MutexId, top: nat)
    requires Ladder(s, h, top) && m < |s.mutexes|
    requires s.mutexes[m].previous == Least(s, h, top) && s.mutexes[m].hierarchy < Least(s, h, top)
    ensures Ladder(s, h + [m], top)
  {
  }

  lemma LeaveInv(s: State, t: Tid, op: Op, m: MutexId, top: nat)
    requires Inv(s, top) && t in s.threads && s.threads[t].pc == Leave(m)
    ensures Inv(Step(s, t, op), top)
  {
    var s', h := Step(s, t, op), s.threads[t].held;
    assert ThreadInv(s, t, top);
    var n := |h| - 1;
    if n > 0 {
      var i := n - 1;
      assert s.mutexes[h[n]].previous == s.mutexes[h[i]].hierarchy;
    }
    assert MutexInv(s, m);
    assert forall k :: k in h <==> k in h[..n] || k == m;
    Assemble(s, s', t, m, top);
  }

  /** A step that only moves the program counter. */
  lemma MoveInv(s: State, t: Tid, p: Pc, top: nat)
    requires Inv(s, top) && t in s.threads && (p != Idle ==> p.m < |s.mutexes|)
    requires s.threads[t].pc.Idle? || s.threads[t].pc.TryLock?
    requires p.Idle? || p.Leave? || s.mutexes[p.m].hierarchy < s.threads[t].value
    requires p.Leave? ==> s.threads[t].held != [] && s.threads[t].held[|s.threads[t].held| - 1] == p.m
    requires p.Lock? || p.TryLock? || p.Leave? || (p.Idle? && s.threads[t].pc.TryLock?)
    ensures Inv(Put(s, t, s.threads[t].(pc := p)), top)
  {
    var s' := Put(s, t, s.threads[t].(pc := p));
    assert ThreadInv(s, t, top);
    LadderKept(s, s', s.threads[t].held, top);
    var m := if p.Idle? then s.threads[t].pc.m else p.m;
    assert MutexInv(s, m);
    Assemble(s, s', t, m, top);
  }

  lemma AcquireInv(s: State, t: Tid, m: MutexId, top: nat)
    requires Inv(s, top) && t in s.threads && m < |s.mutexes| && s.mutexes[m].owner.None?
    requires s.threads[t].pc == Lock(m) || s.threads[t].pc == TryLock(m)
    ensures Inv(Acquire(s, t, m), top)
  {
    var s', h := Acquire(s, t, m), s.threads[t].held;
    assert ThreadInv(s, t, top);
    LadderKept(s, s', h, top);
    Assemble(s, s', t, m, top);
  }

  lemma UnlockInv(s: State, t: Tid, op: Op, m: MutexId, top: nat)
    requires Inv(s, top) && t in s.threads && s.threads[t].pc == Unlock(m)
    ensures Inv(Step(s, t, op), top)
  {
    var s', h := Step(s, t, op), s.threads[t].held;
    assert ThreadInv(s, t, top);
    assert forall i :: 0 <= i < |h| ==> h[i] in h;
    LadderKept(s, s', h, top);
    Assemble(s, s', t, m, top);
  }

  lemma IdleInv(s: State, t: Tid, op: Op, top: nat)
    requires Inv(s, top) && t in s.threads && s.threads[t].pc == Idle && InOrder(s, t, op) && op.m < |s.mutexes|
    ensures Inv(Step(s, t, op), top)
  {
    var x := s.threads[t];
    match op
    case DoLock(m) =>
      if s.mutexes[m].hierarchy < x.value {
        MoveInv(s, t, Lock(m), top);
      }
    case DoTryLock(m) =>
      if s.mutexes[m].hierarchy < x.value {
        MoveInv(s, t, TryLock(m), top);
      }
    case DoUnlock(m) =>
      if s.mutexes[m].owner == Some(t) {
        MoveInv(s, t, Leave(m), top);
      }
  }

  lemma StepInv(s: State, t: Tid, op: Op, top: nat)
    requires Inv(s, top) && t in s.threads && InOrder(s, t, op)
    ensures Inv(Step(s, t, op), top)
  {
    assert ThreadInv(s, t, top);
    match s.threads[t].pc
    case Idle =>
      if op.m < |s.mutexes| {
        IdleInv(s, t, op, top);
      }
    case Lock(m) =>
      if s.mutexes[m].owner.None? {
        AcquireInv(s, t, m, top);
      }
    case TryLock(m) =>
      if s.mutexes[m].owner.None? {
        AcquireInv(s, t, m, top);
      } else {
        MoveInv(s, t, Idle, top);
      }
    case Save(m) => SaveInv(s, t, op, m, top);
    case Enter(m) => EnterInv(s, t, op, m, top);
    case Leave(m) => LeaveInv(s, t, op, m, top);
    case Unlock(m) => UnlockInv(s, t, op, m, top);
  }

  // ---------------------------------------------------------------- theorems about whole runs

  type Schedule = seq<(Tid, Op)>

  function Init(hierarchy: seq<nat>, threads: set<Tid>, top: nat): State {
    State(seq(|hierarchy|, m requires 0 <= m < |hierarchy| => Mutex(hierarchy[m], 0, None)),
          map t | t in threads :: Thread(top, Idle, []))
  }

  function Next(s: State, x: (Tid, Op)): State {
    if x.0 in s.threads then Step(s, x.0, x.1) else s
  }

  function Exec(s: State, sched: Schedule): State
    decreases |sched|
  {
    if sched == [] then s else Exec(Next(s, sched[0]), sched[1..])
  }

  /** Every unlock of the schedule is of the mutex locked last. */
  predicate Disciplined(s: State, sched: Schedule)
    decreases |sched|
  {
    sched == []
    || ((sched[0].0 in s.threads ==> InOrder(s, sched[0].0, sched[0].1)) && Disciplined(Next(s, sched[0]), sched[1..]))
  }

  lemma {:induction false} ExecInv(s: State, sched: Schedule, top: nat)
    requires Inv(s, top) && Disciplined(s, sched)
    ensures Inv(Exec(s, sched), top)
    decreases |sched|
  {
    if sched != [] {
      if sched[0].0 in s.threads {
        StepInv(s, sched[0].0, sched[0].1, top);
      }
      ExecInv(Next(s, sched[0]), sched[1..], top);
    }
  }

  lemma RunInv(hierarchy: seq<nat>, threads: set<Tid>, top: nat, sched: Schedule)
    requires forall m :: 0 <= m < |hierarchy| ==> hierarchy[m] < top
    requires Disciplined(Init(hierarchy, threads, top), sched)
    ensures Inv(Exec(Init(hierarchy, threads, top), sched), top)
  {
    ExecInv(Init(hierarchy, threads, top), sched, top);
  }

  /** Between operations, the value of a thread is the least value among the mutexes it has locked, and
      `top` if it has none; so it may lock exactly the mutexes below all of those. */
  lemma ValueIsLeast(hierarchy: seq<nat>, threads: set<Tid>, top: nat, sched: Schedule, t: Tid)
    requires forall m :: 0 <= m < |hierarchy| ==> hierarchy[m] < top
    requires Disciplined(Init(hierarchy, threads, top), sched)
    requires t in Exec(Init(hierarchy, threads, top), sched).threads
    requires Exec(Init(hierarchy, threads, top), sched).threads[t].pc == Idle
    ensures var s := Exec(Init(hierarchy, threads, top), sched);
      && (forall m :: 0 <= m < |s.mutexes| && s.mutexes[m].owner == Some(t) ==>
            s.threads[t].value <= s.mutexes[m].hierarchy)
      && (s.threads[t].value == top
          || exists m ::
               0 <= m < |s.mutexes| && s.mutexes[m].owner == Some(t) && s.mutexes[m].hierarchy == s.threads[t].value)
      && (s.threads[t].value == top <==> forall m :: 0 <= m < |s.mutexes| ==> s.mutexes[m].owner != Some(t))
  {
    RunInv(hierarchy, threads, top, sched);
    var s := Exec(Init(hierarchy, threads, top), sched);
    assert ThreadInv(s, t, top);
    var h := s.threads[t].held;
    forall m | 0 <= m < |s.mutexes| && s.mutexes[m].owner == Some(t)
      ensures m in h && s.threads[t].value <= s.mutexes[m].hierarchy
    {
      assert MutexInv(s, m);
    }
    if h != [] {
      assert s.mutexes[h[|h| - 1]].owner == Some(t);
    }
  }

  lemma {:induction false} WithoutLast(h: seq<MutexId>, i: nat)
    requires i < |h| && forall x, y :: 0 <= x < y < |h| ==> h[x] != h[y]
    ensures Without(h, h[i]) == h[..i] + h[i + 1..]
  {
    var n := |h| - 1;
    if i < n {
      WithoutLast(h[..n], i);
      assert h[..n][..i] + h[..n][i + 1..] + [h[n]] == h[..i] + h[i + 1..];
    } else {
      assert h[..i] + h[i + 1..] == h[..n];
    }
  }

  /** Unlocking `m` restores the value that accounts for the remaining mutexes exactly if `m` was locked
      last: out of order, the value becomes larger than a mutex that is still held. */
  lemma UnlockRestores(s: State, t: Tid, m: MutexId, top: nat)
    requires Inv(s, top) && t in s.threads && s.threads[t].pc == Idle && m < |s.mutexes|
             && s.mutexes[m].owner == Some(t)
    ensures var h := s.threads[t].held; var x := Step(Step(s, t, DoUnlock(m)), t, DoUnlock(m)).threads[t];
      && x.pc == Unlock(m) && h != []
      && (x.value == Least(s, x.held, top) <==> h[|h| - 1] == m)
      && (h[|h| - 1] != m ==>
            h[|h| - 1] in x.held && h[|h| - 1] < |s.mutexes| && s.mutexes[h[|h| - 1]].hierarchy < x.value)
  {
    assert ThreadInv(s, t, top);
    assert MutexInv(s, m);
    var h := s.threads[t].held;
    var i :| 0 <= i < |h| && h[i] == m;
    WithoutLast(h, i);
    var n := |h| - 1;
    if i != 0 {
      var j := i - 1;
      assert s.mutexes[h[i]].previous == s.mutexes[h[j]].hierarchy;
    }
    if i < n {
      assert (h[..i] + h[i + 1..])[n - 1] == h[n];
    }
  }

  /** `t` is blocked on a mutex that a thread has locked. */
  predicate Waits(s: State, t: Tid) {
    t in s.threads && s.threads[t].pc.Lock? && s.threads[t].pc.m < |s.mutexes|
        && s.mutexes[s.threads[t].pc.m].owner.Some?
  }

  /** The thread that `t` waits for. */
  function WaitsFor(s: State, t: Tid): Tid
    requires Waits(s, t)
  {
    s.mutexes[s.threads[t].pc.m].owner.value
  }

  /** A thread waits for a mutex below everything it holds, so along a chain of waiting threads the
      mutexes waited for get smaller and smaller. */
  lemma WaitsBelow(s: State, t: Tid, top: nat)
    requires Inv(s, top) && Waits(s, t) && Waits(s, WaitsFor(s, t))
    ensures s.mutexes[s.threads[WaitsFor(s, t)].pc.m].hierarchy < s.mutexes[s.threads[t].pc.m].hierarchy
  {
    var m, u := s.threads[t].pc.m, WaitsFor(s, t);
    assert MutexInv(s, m);
    assert ThreadInv(s, u, top);
  }

  /** Following the owners leads to a thread that holds a mutex and is not blocked. */
  lemma {:induction false} ChainEnds(s: State, t: Tid, top: nat) returns (u: Tid)
    requires Inv(s, top) && Waits(s, t)
    ensures u in s.threads && !Waits(s, u) && exists m :: 0 <= m < |s.mutexes| && s.mutexes[m].owner == Some(u)
    decreases s.mutexes[s.threads[t].pc.m].hierarchy
  {
    u := WaitsFor(s, t);
    assert MutexInv(s, s.threads[t].pc.m);
    if Waits(s, u) {
      WaitsBelow(s, t, top);
      u := ChainEnds(s, u, top);
    }
  }

  /** No deadlock: if a thread is blocked, some thread that holds a mutex is not. */
  lemma NoDeadlock(hierarchy: seq<nat>, threads: set<Tid>, top: nat, sched: Schedule, t: Tid) returns (u: Tid)
    requires forall m :: 0 <= m < |hierarchy| ==> hierarchy[m] < top
    requires Disciplined(Init(hierarchy, threads, top), sched) && Waits(Exec(Init(hierarchy, threads, top), sched), t)
    ensures var s := Exec(Init(hierarchy, threads, top), sched);
      u in s.threads && !Waits(s, u) && exists m :: 0 <= m < |s.mutexes| && s.mutexes[m].owner == Some(u)
  {
    RunInv(hierarchy, threads, top, sched);
    u := ChainEnds(Exec(Init(hierarchy, threads, top), sched), t, top);
  }

  /** A set of threads each of which waits for a member of the set. */
  ghost predicate WaitCycle(s: State, d: set<Tid>) {
    d != {} && forall t :: t in d ==> Waits(s, t) && WaitsFor(s, t) in d
  }

  lemma {:induction false} LeavesSet(s: State, d: set<Tid>, t: Tid, top: nat)
    requires Inv(s, top) && t in d && Waits(s, t)
    ensures !WaitCycle(s, d)
    decreases s.mutexes[s.threads[t].pc.m].hierarchy
  {
    if WaitCycle(s, d) {
      WaitsBelow(s, t, top);
      LeavesSet(s, d, WaitsFor(s, t), top);
    }
  }

  lemma NoWaitCycle(hierarchy: seq<nat>, threads: set<Tid>, top: nat, sched: Schedule, d: set<Tid>)
    requires forall m :: 0 <= m < |hierarchy| ==> hierarchy[m] < top
    requires Disciplined(Init(hierarchy, threads, top), sched)
    ensures !WaitCycle(Exec(Init(hierarchy, threads, top), sched), d)
  {
    RunInv(hierarchy, threads, top, sched);
    var s := Exec(Init(hierarchy, threads, top), sched);
    if t :| t in d && Waits(s, t) {
      LeavesSet(s, d, t, top);
    }
  }

  // ---------------------------------------------------------------- unlocking out of order can deadlock

  lemma {:induction false} ExecConcat(s: State, a: Schedule, b: Schedule)
    ensures Exec(s, a + b) == Exec(Exec(s, a), b)
    decreases |a|
  {
    if a == [] {
      assert a + b == b;
    } else {
      assert (a + b)[1..] == a[1..] + b;
      ExecConcat(Next(s, a[0]), a[1..], b);
    }
  }

  /** The four steps in which an idle thread locks a free mutex below its value. */
  function LockSteps(t: Tid, m: MutexId): Schedule {
    [(t, DoLock(m)), (t, DoLock(m)), (t, DoLock(m)), (t, DoLock(m))]
  }

  function UnlockSteps(t: Tid, m: MutexId): Schedule {
    [(t, DoUnlock(m)), (t, DoUnlock(m)), (t, DoUnlock(m))]
  }

  const NONE: Schedule := []

  lemma LockExec(s: State, t: Tid, m: MutexId)
    requires t in s.threads && s.threads[t].pc == Idle && m < |s.mutexes| && s.mutexes[m].owner == None
    requires s.mutexes[m].hierarchy < s.threads[t].value
    ensures var x := s.threads[t];
      Exec(s, LockSteps(t, m)) == State(s.mutexes[m := Mutex(s.mutexes[m].hierarchy, x.value, Some(t))],
                                        s.threads[t := Thread(s.mutexes[m].hierarchy, Idle, x.held + [m])])
  {
    var op := (t, DoLock(m));
    var s1 := Next(s, op);
    var s2 := Next(s1, op);
    var s3 := Next(s2, op);
    var s4 := Next(s3, op);
    assert LockSteps(t, m)[1..] == [op, op, op] && [op, op, op][1..] == [op, op] && [op, op][1..] == [op]
        && [op][1..] == NONE;
    assert Exec(s3, [op]) == Exec(s4, []);
    assert Exec(s2, [op, op]) == Exec(s3, [op]);
    assert Exec(s1, [op, op, op]) == Exec(s2, [op, op]);
    assert s2.mutexes == s.mutexes[m := s.mutexes[m].(owner := Some(t))];
    assert s3.mutexes == s.mutexes[m := Mutex(s.mutexes[m].hierarchy, s.threads[t].value, Some(t))];
    assert s4.mutexes == s3.mutexes;
    assert s4.threads == s.threads[t := Thread(s.mutexes[m].hierarchy, Idle, s.threads[t].held + [m])];
  }

  lemma UnlockExec(s: State, t: Tid, m: MutexId)
    requires t in s.threads && s.threads[t].pc == Idle && m < |s.mutexes| && s.mutexes[m].owner == Some(t)
    ensures Exec(s, UnlockSteps(t, m)) == State(s.mutexes[m := s.mutexes[m].(owner := None)],
                                                s.threads[t := Thread(s.mutexes[m].previous, Idle,
                                                    Without(s.threads[t].held, m))])
  {
    var op := (t, DoUnlock(m));
    var s1 := Next(s, op);
    var s2 := Next(s1, op);
    var s3 := Next(s2, op);
    assert UnlockSteps(t, m)[1..] == [op, op] && [op, op][1..] == [op] && [op][1..] == NONE;
    assert Exec(s2, [op]) == Exec(s3, []);
    assert Exec(s1, [op, op]) == Exec(s2, [op]);
    assert s3.threads == s.threads[t := Thread(s.mutexes[m].previous, Idle, Without(s.threads[t].held, m))];
  }

  /** Mutexes 0 and 1 with values 3 and 2: thread 1 locks both and unlocks the first one it locked;
      thread 2 locks that one and then waits for the other; thread 1, whose value is back at the top,
      waits for the first. */
  function Deadlocking(): Schedule {
    LockSteps(1, 0) + LockSteps(1, 1) + UnlockSteps(1, 0) + LockSteps(2, 0) + [(2, DoLock(1)), (1, DoLock(0))]
  }

  /** After the first four operations, thread 1 holds mutex 1 but has its first value again, and thread
      2 holds mutex 0. */
  lemma OutOfOrder(s0: State)
    requires s0 == Init([3, 2], {1, 2}, 4)
    ensures var s := Exec(s0, LockSteps(1, 0) + LockSteps(1, 1) + UnlockSteps(1, 0) + LockSteps(2, 0));
      && s.mutexes == [Mutex(3, 4, Some(2)), Mutex(2, 3, Some(1))] && 1 in s.threads && 2 in s.threads
      && s.threads[1].pc == Idle && s.threads[1].value == 4 && s.threads[2].pc == Idle && s.threads[2].value == 3
  {
    LockExec(s0, 1, 0);
    var s1 := Exec(s0, LockSteps(1, 0));
    LockExec(s1, 1, 1);
    var s2 := Exec(s1, LockSteps(1, 1));
    UnlockExec(s2, 1, 0);
    var s3 := Exec(s2, UnlockSteps(1, 0));
    LockExec(s3, 2, 0);
    ExecConcat(s0, LockSteps(1, 0), LockSteps(1, 1));
    ExecConcat(s0, LockSteps(1, 0) + LockSteps(1, 1), UnlockSteps(1, 0));
    ExecConcat(s0, LockSteps(1, 0) + LockSteps(1, 1) + UnlockSteps(1, 0), LockSteps(2, 0));
  }

  lemma OutOfOrderDeadlocks()
    ensures WaitCycle(Exec(Init([3, 2], {1, 2}, 4), Deadlocking()), {1, 2})
  {
    var s0, first := Init([3, 2], {1, 2}, 4), LockSteps(1, 0) + LockSteps(1, 1) + UnlockSteps(1, 0) + LockSteps(2, 0);
    OutOfOrder(s0);
    var s4 := Exec(s0, first);
    var rest := [(2, DoLock(1)), (1, DoLock(0))];
    var s5 := Next(s4, rest[0]);
    assert rest[1..] == [rest[1]] && [rest[1]][1..] == NONE;
    assert Exec(s4, rest) == Exec(s5, [rest[1]]) == Exec(Next(s5, rest[1]), []);
    ExecConcat(s0, first, rest);
  }

  // ---------------------------------------------------------------- exactly when an unlock lets a deadlock in

  predicate OnlyLocks(sched: Schedule) {
    forall i :: 0 <= i < |sched| ==> sched[i].1.DoLock?
  }

  lemma {:induction false} LocksDisciplined(s: State, sched: Schedule)
    requires OnlyLocks(sched)
    ensures Disciplined(s, sched)
    decreases |sched|
  {
    if sched != [] {
      assert sched[0].1.DoLock?;
      assert forall i :: 0 <= i < |sched[1..]| ==> sched[1..][i] == sched[i + 1];
      LocksDisciplined(Next(s, sched[0]), sched[1..]);
    }
  }

  /** A deadlock that can be reached from `s` although no further unlock is out of order. */
  ghost predicate CanDeadlock(s: State) {
    exists sched, d :: Disciplined(s, sched) && WaitCycle(Exec(s, sched), d)
  }

  /** One in which every thread waits for another one. */
  ghost predicate CanDeadlockApart(s: State) {
    exists sched, d ::
      Disciplined(s, sched) && WaitCycle(Exec(s, sched), d) && forall x :: x in d ==> WaitsFor(Exec(s, sched), x) != x
  }

  lemma NoDeadlockFrom(s: State, top: nat)
    requires Inv(s, top)
    ensures !CanDeadlock(s)
  {
    forall sched, d | Disciplined(s, sched) ensures !WaitCycle(Exec(s, sched), d) {
      ExecInv(s, sched, top);
      if t :| t in d && Waits(Exec(s, sched), t) {
        LeavesSet(Exec(s, sched), d, t, top);
      }
    }
  }

  lemma LastFirst(s: State, t: Tid, m: MutexId, top: nat)
    requires Inv(s, top) && t in s.threads && s.threads[t].pc == Idle && m < |s.mutexes|
    requires s.threads[t].held != [] && s.threads[t].held[|s.threads[t].held| - 1] == m && s.mutexes[m].owner == Some(t)
    ensures Inv(Exec(s, UnlockSteps(t, m)), top)
  {
    var op := (t, DoUnlock(m));
    var s1 := Next(s, op);
    var s2 := Next(s1, op);
    StepInv(s, t, op.1, top);
    StepInv(s1, t, op.1, top);
    StepInv(s2, t, op.1, top);
    assert UnlockSteps(t, m)[1..] == [op, op] && [op, op][1..] == [op] && [op][1..] == NONE;
    assert Exec(s2, [op]) == Exec(Next(s2, op), []);
    assert Exec(s1, [op, op]) == Exec(s2, [op]);
  }

  /** After an unlock out of order the thread's value is above the mutex it has locked last. */
  lemma AboveLast(s: State, t: Tid, m: MutexId, top: nat)
    requires Inv(s, top) && t in s.threads && s.threads[t].pc == Idle && m < |s.mutexes|
             && s.mutexes[m].owner == Some(t)
    requires s.threads[t].held == [] || s.threads[t].held[|s.threads[t].held| - 1] != m
    ensures var h := s.threads[t].held; h != [] && h[|h| - 1] < |s.mutexes|
    ensures var h := s.threads[t].held; var last := h[|h| - 1];
      var s1 := Exec(s, UnlockSteps(t, m));
      && t in s1.threads && s1.threads[t].pc == Idle && |s1.mutexes| == |s.mutexes|
      && s1.threads == s.threads[t := s1.threads[t]] && s1.mutexes == s.mutexes[m := s.mutexes[m].(owner := None)]
      && last != m && s.mutexes[last].owner == Some(t)
      && s.mutexes[last].hierarchy < s.mutexes[m].hierarchy < s1.threads[t].value
  {
    UnlockExec(s, t, m);
    assert ThreadInv(s, t, top);
    assert MutexInv(s, m);
    var h := s.threads[t].held;
    var i :| 0 <= i < |h| && h[i] == m;
    var j := i - 1;
    assert 0 < i ==> s.mutexes[h[i]].previous == s.mutexes[h[j]].hierarchy;
    assert s.mutexes[h[|h| - 1]].hierarchy < s.mutexes[h[i]].hierarchy;
  }

  /** It can then lock that mutex again, and waits for itself. */
  lemma Relocks(s: State, t: Tid, m: MutexId, top: nat)
    requires Inv(s, top) && t in s.threads && s.threads[t].pc == Idle && m < |s.mutexes|
             && s.mutexes[m].owner == Some(t)
    requires s.threads[t].held == [] || s.threads[t].held[|s.threads[t].held| - 1] != m
    ensures CanDeadlock(Exec(s, UnlockSteps(t, m)))
  {
    AboveLast(s, t, m, top);
    var s1, last := Exec(s, UnlockSteps(t, m)), s.threads[t].held[|s.threads[t].held| - 1];
    var sched := [(t, DoLock(last))];
    LocksDisciplined(s1, sched);
    assert sched[1..] == [];
    assert Exec(s1, sched) == Exec(Next(s1, sched[0]), []) == Next(s1, sched[0]);
    assert WaitCycle(Exec(s1, sched), {t});
  }

  /** Another thread can lock the mutex that was unlocked; then the two wait for each other. */
  lemma Crosses(s: State, t: Tid, m: MutexId, u: Tid, top: nat)
    requires Inv(s, top) && t in s.threads && s.threads[t].pc == Idle && m < |s.mutexes|
             && s.mutexes[m].owner == Some(t)
    requires u in s.threads && u != t && s.threads[u].pc == Idle && s.mutexes[m].hierarchy < s.threads[u].value
    requires s.threads[t].held == [] || s.threads[t].held[|s.threads[t].held| - 1] != m
    ensures CanDeadlockApart(Exec(s, UnlockSteps(t, m)))
  {
    AboveLast(s, t, m, top);
    var s1, last := Exec(s, UnlockSteps(t, m)), s.threads[t].held[|s.threads[t].held| - 1];
    var sched := LockSteps(u, m) + [(u, DoLock(last)), (t, DoLock(m))];
    CrossSteps(s1, t, m, u, last);
    LocksDisciplined(s1, sched);
    assert WaitCycle(Exec(s1, sched), {t, u});
  }

  lemma CrossSteps(s: State, t: Tid, m: MutexId, u: Tid, last: MutexId)
    requires t in s.threads && u in s.threads && u != t && s.threads[t].pc == Idle && s.threads[u].pc == Idle
    requires m < |s.mutexes| && last < |s.mutexes| && last != m
    requires s.mutexes[m].owner == None && s.mutexes[last].owner == Some(t)
    requires s.mutexes[last].hierarchy < s.mutexes[m].hierarchy
    requires s.mutexes[m].hierarchy < s.threads[t].value && s.mutexes[m].hierarchy < s.threads[u].value
    ensures var s' := Exec(s, LockSteps(u, m) + [(u, DoLock(last)), (t, DoLock(m))]);
      Waits(s', t) && Waits(s', u) && WaitsFor(s', t) == u && WaitsFor(s', u) == t
  {
    LockExec(s, u, m);
    var s2 := Exec(s, LockSteps(u, m));
    var rest := [(u, DoLock(last)), (t, DoLock(m))];
    var s3 := Next(s2, rest[0]);
    assert rest[1..] == [rest[1]] && [rest[1]][1..] == NONE;
    assert Exec(s2, rest) == Exec(s3, [rest[1]]) == Exec(Next(s3, rest[1]), []);
    ExecConcat(s, LockSteps(u, m), rest);
  }

  /** Some other idle thread has a value above `m`. */
  ghost predicate AnotherMayLock(s: State, t: Tid, m: MutexId)
    requires m < |s.mutexes|
  {
    exists u :: u in s.threads && u != t && s.threads[u].pc == Idle && s.mutexes[m].hierarchy < s.threads[u].value
  }

  lemma UnlockFrom(s: State, t: Tid, m: MutexId, top: nat)
    requires Inv(s, top) && t in s.threads && s.threads[t].pc == Idle && m < |s.mutexes|
             && s.mutexes[m].owner == Some(t)
    ensures var h, s1 := s.threads[t].held, Exec(s, UnlockSteps(t, m));
      && h != []
      && (CanDeadlock(s1) <==> h[|h| - 1] != m)
      && (AnotherMayLock(s, t, m) ==> (CanDeadlockApart(s1) <==> h[|h| - 1] != m))
  {
    var h, s1 := s.threads[t].held, Exec(s, UnlockSteps(t, m));
    if h == [] || h[|h| - 1] != m {
      AboveLast(s, t, m, top);
      Relocks(s, t, m, top);
      if u :| u in s.threads && u != t && s.threads[u].pc == Idle && s.mutexes[m].hierarchy < s.threads[u].value {
        Crosses(s, t, m, u, top);
      }
    } else {
      LastFirst(s, t, m, top);
      NoDeadlockFrom(s1, top);
    }
  }

  /** Unlocking in reverse order is exactly what deadlock freedom needs: after every disciplined run, one
      unlock makes a deadlock possible if and only if it is not of the mutex locked last.  A single thread is
      enough; and with another one that may lock the mutex, the two can wait for each other. */
  lemma UnlockDeadlocksExactly(hierarchy: seq<nat>, threads: set<Tid>, top: nat, sched: Schedule, t: Tid, m: MutexId)
    requires forall k :: 0 <= k < |hierarchy| ==> hierarchy[k] < top
    requires Disciplined(Init(hierarchy, threads, top), sched)
    requires var s := Exec(Init(hierarchy, threads, top), sched);
      t in s.threads && s.threads[t].pc == Idle && m < |s.mutexes| && s.mutexes[m].owner == Some(t)
    ensures var s := Exec(Init(hierarchy, threads, top), sched);
      var h, s1 := s.threads[t].held, Exec(s, UnlockSteps(t, m));
      && h != []
      && (CanDeadlock(s1) <==> h[|h| - 1] != m)
      && (AnotherMayLock(s, t, m) ==> (CanDeadlockApart(s1) <==> h[|h| - 1] != m))
  {
    RunInv(hierarchy, threads, top, sched);
    UnlockFrom(Exec(Init(hierarchy, threads, top), sched), t, m, top);
  }
}
