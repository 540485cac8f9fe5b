/** The shared lookup table is linearizable as a map, `get_map` included, and its locking cannot deadlock. */
module LockedTableTheorems {
  import opened Wrappers
  import opened LookupTable
  import opened LockedTable

  // ---------------------------------------------------------------- invariant

  ghost predicate BucketInv(s: State, b: nat)
    requires b < |s.buckets|
  {
    Distinct(s.buckets[b]) && forall k :: k in MapOf(s.buckets[b]) ==> Index(s, k) == b
  }

  /** The thread is inside an access of bucket `b`. */
  predicate Accesses(s: State, p: Pc, b: nat)
    requires s.buckets != []
  {
    (p.Find? || p.At? || p.Release?) && Index(s, p.a.k) == b
  }

  /** The modes in which `p` has the mutex of bucket `b` locked. */
  predicate HasExclusive(s: State, p: Pc, b: nat)
    requires s.buckets != []
  {
    match p
    case LockAll(i) => b < i
    case Copy(_, _) => true
    case UnlockAll(i, _) => i <= b
    case _ => Accesses(s, p, b) && !p.a.Get?
  }

  predicate HasShared(s: State, p: Pc, b: nat)
    requires s.buckets != []
  {
    Accesses(s, p, b) && p.a.Get?
  }

  ghost predicate LockInv(s: State, b: nat)
    requires Shaped(s) && b < |s.buckets|
  {
    && (forall t: Tid :: s.locks[b].writer == Some(t) <==> t in s.pc && HasExclusive(s, s.pc[t], b))
    && (forall t: Tid :: t in s.locks[b].readers <==> t in s.pc && HasShared(s, s.pc[t], b))
    && (s.locks[b].writer.Some? ==> s.locks[b].readers == {})
  }

  /** The mapping the buckets stand for. */
  ghost function Union(hasher: Key -> nat, buckets: seq<Data>): map<Key, Value>
    requires buckets != []
  {
    map b, k | 0 <= b < |buckets| && k in MapOf(buckets[b]) && hasher(k) % |buckets| == b :: k := MapOf(buckets[b])[k]
  }

  ghost function Contents(s: State): map<Key, Value>
    requires s.buckets != []
  {
    Union(s.hasher, s.buckets)
  }

  /** `res` is the part of the mapping in the first `n` buckets. */
  ghost predicate Copied(s: State, res: map<Key, Value>, n: nat)
    requires s.buckets != []
  {
    && (forall k :: k in res <==> k in Contents(s) && Index(s, k) < n)
    && (forall k :: k in res ==> res[k] == Contents(s)[k])
  }

  ghost predicate ThreadInv(s: State, t: Tid)
    requires Shaped(s) && t in s.pc
  {
    match s.pc[t]
    case At(a, i) => i == Position(s.buckets[Index(s, a.k)], a.k)
    case LockAll(i) => i < |s.buckets|
    case Copy(i, res) => i < |s.buckets| && Copied(s, res, i)
    case UnlockAll(i, _) => i < |s.buckets|
    case _ => true
  }

  ghost predicate Inv(s: State) {
    && Shaped(s) && !s.fault
    && (forall b {:trigger BucketInv(s, b)} :: 0 <= b < |s.buckets| ==> BucketInv(s, b))
    && (forall b {:trigger LockInv(s, b)} :: 0 <= b < |s.buckets| ==> LockInv(s, b))
    && (forall t {:trigger ThreadInv(s, t)} :: t in s.pc ==> ThreadInv(s, t))
  }

  // ---------------------------------------------------------------- what is done to a bucket

  lemma {:induction false} PositionEnd(data: Data, k: Key)
    ensures Position(data, k) < |data| <==> k in MapOf(data)
  {
    AbsentKey(data, k);
  }

  /** Using the entry found does to the mapping of a list what the access says. */
  lemma AccessData(data: Data, a: Access)
    requires Distinct(data)
    ensures var i := Position(data, a.k);
      && Distinct(Changed(data, a, i))
      && MapOf(Changed(data, a, i)) == Apply(MapOf(data), a)
      && Answer(data, a, i) == ResultOf(MapOf(data), a)
  {
    var i := Position(data, a.k);
    PositionEnd(data, a.k);
    match a
    case Get(k, d) => LookupAt(data, k, d, i);
    case Put(k, v) =>
      if i == |data| {
        AppendMap(data, k, v);
      } else {
        UpdateMap(data, i, v);
      }
    case Remove(k) =>
      if i < |data| {
        EraseMap(data, i);
      }
  }

  lemma ContentsAt(s: State, k: Key)
    requires s.buckets != []
    ensures k in Contents(s) <==> k in MapOf(s.buckets[Index(s, k)])
    ensures k in Contents(s) ==> Contents(s)[k] == MapOf(s.buckets[Index(s, k)])[k]
  {
  }

  /** The contents after bucket `b` has been changed. */
  lemma ContentsChange(s: State, s': State, a: Access)
    requires s.buckets != [] && |s'.buckets| == |s.buckets| && s'.hasher == s.hasher
    requires var b := Index(s, a.k);
      s'.buckets == s.buckets[b := s'.buckets[b]] && MapOf(s'.buckets[b]) == Apply(MapOf(s.buckets[b]), a)
    ensures Contents(s') == Apply(Contents(s), a)
  {
    var m, m' := Contents(s), Contents(s');
    forall k ensures (k in m' <==> k in Apply(m, a)) && (k in m' ==> m'[k] == Apply(m, a)[k]) {
      ContentsChangeAt(s, s', a, k, m, m');
    }
  }

  lemma ContentsChangeAt(s: State, s': State, a: Access, k: Key, m: map<Key, Value>, m': map<Key, Value>)
    requires s.buckets != [] && |s'.buckets| == |s.buckets| && s'.hasher == s.hasher && m == Contents(s)
             && m' == Contents(s')
    requires var b := Index(s, a.k);
      s'.buckets == s.buckets[b := s'.buckets[b]] && MapOf(s'.buckets[b]) == Apply(MapOf(s.buckets[b]), a)
    ensures (k in m' <==> k in Apply(m, a)) && (k in m' ==> m'[k] == Apply(m, a)[k])
  {
    ContentsAt(s, k);
    ContentsAt(s', k);
    assert Index(s', k) == Index(s, k);
  }

  // ---------------------------------------------------------------- every step keeps the invariant

  /** A step of `t` that changes at most the mutex of bucket `b`, and none of the buckets. */
  ghost predicate Moves(s: State, s': State, t: Tid, b: nat) {
    && Inv(s) && t in s.pc && t in s'.pc && b < |s.buckets| && |s'.locks| == |s.locks|
    && s' == s.(pc := s.pc[t := s'.pc[t]], locks := s.locks[b := s'.locks[b]])
    && (forall c :: 0 <= c < |s.buckets| && c != b ==>
          && HasExclusive(s, s'.pc[t], c) == HasExclusive(s, s.pc[t], c)
          && HasShared(s, s'.pc[t], c) == HasShared(s, s.pc[t], c))
  }

  lemma MoveInv(s: State, s': State, t: Tid, b: nat)
    requires |s'.locks| == |s.locks| && b < |s.locks| && Moves(s, s', t, b) && LockInv(s', b) && ThreadInv(s', t)
    ensures Inv(s')
  {
    forall c {:trigger BucketInv(s', c)} | 0 <= c < |s'.buckets| ensures BucketInv(s', c) {
      assert BucketInv(s, c);
    }
    forall c {:trigger LockInv(s', c)} | 0 <= c < |s'.buckets| ensures LockInv(s', c) {
      if c != b {
        assert LockInv(s, c);
      }
    }
    forall u {:trigger ThreadInv(s', u)} | u in s'.pc ensures ThreadInv(s', u) {
      if u != t {
        assert ThreadInv(s, u);
      }
    }
  }

  lemma GotoInv(s: State, t: Tid, p: Pc)
    requires Inv(s) && t in s.pc && ThreadInv(Goto(s, t, p), t)
    requires forall b :: 0 <= b < |s.buckets| ==> HasExclusive(s, p, b) == HasExclusive(s, s.pc[t], b)
    requires forall b :: 0 <= b < |s.buckets| ==> HasShared(s, p, b) == HasShared(s, s.pc[t], b)
    ensures Inv(Goto(s, t, p))
  {
    assert LockInv(s, 0);
    MoveInv(s, Goto(s, t, p), t, 0);
  }

  lemma AcquireInv(s: State, t: Tid, a: Access)
    requires Inv(s) && t in s.pc && s.pc[t] == Acquire(a)
    ensures Inv(DoAcquire(s, t, a))
  {
    var b := Index(s, a.k);
    assert LockInv(s, b);
    if Free(s.locks[b], a.Get?) {
      MoveInv(s, DoAcquire(s, t, a), t, b);
    }
  }

  lemma ReleaseInv(s: State, t: Tid, a: Access, r: Result)
    requires Inv(s) && t in s.pc && s.pc[t] == Release(a, r)
    ensures Inv(DoRelease(s, t, a, r))
  {
    var b := Index(s, a.k);
    assert LockInv(s, b);
    MoveInv(s, DoRelease(s, t, a, r), t, b);
  }

  lemma LockAllInv(s: State, t: Tid, i: nat)
    requires Inv(s) && t in s.pc && s.pc[t] == LockAll(i)
    ensures Inv(DoLockAll(s, t, i))
  {
    assert ThreadInv(s, t) && LockInv(s, i);
    if Free(s.locks[i], false) {
      MoveInv(s, DoLockAll(s, t, i), t, i);
    }
  }

  lemma UnlockAllInv(s: State, t: Tid, i: nat, res: map<Key, Value>)
    requires Inv(s) && t in s.pc && s.pc[t] == UnlockAll(i, res)
    ensures Inv(DoUnlockAll(s, t, i, res))
  {
    assert ThreadInv(s, t) && LockInv(s, i);
    MoveInv(s, DoUnlockAll(s, t, i, res), t, i);
  }

  lemma CopyMore(s: State, res: map<Key, Value>, i: nat)
    requires s.buckets != [] && i < |s.buckets| && BucketInv(s, i) && Copied(s, res, i)
    ensures Copied(s, MapOf(s.buckets[i]) + res, i + 1)
  {
    forall k ensures k in Contents(s) && Index(s, k) == i <==> k in MapOf(s.buckets[i]) {
      ContentsAt(s, k);
    }
    forall k | k in MapOf(s.buckets[i]) ensures MapOf(s.buckets[i])[k] == Contents(s)[k] {
      ContentsAt(s, k);
    }
  }

  lemma CopyInv(s: State, t: Tid, i: nat, res: map<Key, Value>)
    requires Inv(s) && t in s.pc && s.pc[t] == Copy(i, res)
    ensures Inv(DoCopy(s, t, i, res))
  {
    assert ThreadInv(s, t) && BucketInv(s, i);
    CopyMore(s, res, i);
    var s' := DoCopy(s, t, i, res);
    assert Contents(s') == Contents(s);
    GotoInv(s, t, s'.pc[t]);
  }

  /** While one thread has a mutex exclusively, no other has it in any mode. */
  lemma Sole(s: State, t: Tid, b: nat, u: Tid)
    requires Inv(s) && b < |s.buckets| && t in s.pc && u in s.pc && u != t && HasExclusive(s, s.pc[t], b)
    ensures !HasExclusive(s, s.pc[u], b) && !HasShared(s, s.pc[u], b)
  {
    assert LockInv(s, b);
  }

  lemma UseOthers(s: State, s': State, t: Tid, a: Access, b: nat, u: Tid)
    requires Inv(s) && t in s.pc && HasExclusive(s, s.pc[t], b) && u in s.pc && u != t && b < |s.buckets|
    requires Shaped(s') && u in s'.pc && s'.pc[u] == s.pc[u] && s'.hasher == s.hasher
    requires |s'.buckets| == |s.buckets| && s'.buckets == s.buckets[b := s'.buckets[b]]
    ensures ThreadInv(s', u)
  {
    assert ThreadInv(s, u);
    Sole(s, t, b, u);
  }

  lemma WriteInv(s: State, s': State, t: Tid, a: Access, b: nat)
    requires Inv(s) && t in s.pc && Accesses(s, s.pc[t], b) && s.pc[t].a == a && b < |s.buckets| && !a.Get?
    requires t in s'.pc && s'.pc[t].Release? && s'.pc[t].a == a
    requires |s'.buckets| == |s.buckets|
    requires s' == s.(pc := s.pc[t := s'.pc[t]], buckets := s.buckets[b := s'.buckets[b]])
    requires Distinct(s'.buckets[b]) && MapOf(s'.buckets[b]) == Apply(MapOf(s.buckets[b]), a)
    ensures Inv(s')
  {
    assert BucketInv(s, b);
    forall c {:trigger BucketInv(s', c)} | 0 <= c < |s'.buckets| ensures BucketInv(s', c) {
      assert BucketInv(s, c);
    }
    forall c {:trigger LockInv(s', c)} | 0 <= c < |s'.buckets| ensures LockInv(s', c) {
      assert LockInv(s, c);
    }
    forall u {:trigger ThreadInv(s', u)} | u in s'.pc ensures ThreadInv(s', u) {
      if u != t {
        UseOthers(s, s', t, a, b, u);
      }
    }
  }

  /** Using the entry found: the thread still has the position of the key, and answers as a map would. */
  lemma UseInv(s: State, t: Tid, a: Access, i: nat)
    requires Inv(s) && t in s.pc && s.pc[t] == At(a, i)
    ensures var s' := DoUse(s, t, a, i);
      && Inv(s') && s'.pc == s.pc[t := Release(a, ResultOf(Contents(s), a))] && Contents(s') == Apply(Contents(s), a)
  {
    var s', b := DoUse(s, t, a, i), Index(s, a.k);
    assert ThreadInv(s, t) && BucketInv(s, b);
    AccessData(s.buckets[b], a);
    ContentsAt(s, a.k);
    ContentsChange(s, s', a);
    if a.Get? {
      assert s'.buckets == s.buckets;
      GotoInv(s, t, s'.pc[t]);
    } else {
      WriteInv(s, s', t, a, b);
    }
  }

  lemma AccessStepInv(s: State, t: Tid, call: Op)
    requires Inv(s) && t in s.pc && (s.pc[t].Acquire? || s.pc[t].Find? || s.pc[t].At? || s.pc[t].Release?)
    ensures Inv(Step(s, t, call))
  {
    match s.pc[t]
    case Acquire(a) => AcquireInv(s, t, a);
    case Find(a) => GotoInv(s, t, At(a, Position(s.buckets[Index(s, a.k)], a.k)));
    case At(a, i) => UseInv(s, t, a, i);
    case Release(a, r) => ReleaseInv(s, t, a, r);
  }

  lemma StepInv(s: State, t: Tid, call: Op)
    requires Inv(s) && t in s.pc
    ensures Inv(Step(s, t, call))
  {
    match s.pc[t]
    case Idle => GotoInv(s, t, if call.GetMap? then LockAll(0) else Acquire(call.a));
    case LockAll(i) => LockAllInv(s, t, i);
    case Copy(i, res) => CopyInv(s, t, i, res);
    case UnlockAll(i, res) => UnlockAllInv(s, t, i, res);
    case Ret(_) => GotoInv(s, t, Idle);
    case _ => AccessStepInv(s, t, call);
  }

  // ---------------------------------------------------------------- refinement

  ghost function PhaseOf(m: map<Key, Value>, p: Pc): Phase {
    match p
    case Idle => Quiet
    case Acquire(a) => Want(One(a))
    case Find(a) => Want(One(a))
    case At(a, _) => Want(One(a))
    case Release(_, r) => Done(r)
    case LockAll(_) => Want(GetMap)
    case Copy(_, _) => Done(Snapshot(m))
    case UnlockAll(_, res) => Done(Snapshot(res))
    case Ret(r) => Done(r)
  }

  ghost function Abs(s: State): Spec
    requires s.buckets != []
  {
    Spec(Contents(s), map t | t in s.pc :: PhaseOf(Contents(s), s.pc[t]))
  }

  /** No other thread is copying while `t` uses an entry. */
  lemma NobodyCopies(s: State, t: Tid, a: Access, i: nat, u: Tid)
    requires Inv(s) && t in s.pc && s.pc[t] == At(a, i) && u in s.pc
    ensures !s.pc[u].Copy?
  {
    var b := Index(s, a.k);
    assert LockInv(s, b);
  }

  lemma UseRefines(s: State, t: Tid, a: Access, i: nat)
    requires Inv(s) && t in s.pc && s.pc[t] == At(a, i)
    ensures SpecStep(Abs(s), Effect(t)) == Some(Abs(DoUse(s, t, a, i)))
  {
    var s' := DoUse(s, t, a, i);
    UseInv(s, t, a, i);
    forall u | u in s.pc && u != t ensures PhaseOf(Contents(s'), s.pc[u]) == PhaseOf(Contents(s), s.pc[u]) {
      NobodyCopies(s, t, a, i, u);
      PhaseKept(Contents(s), Contents(s'), s.pc[u]);
    }
    UsePhases(s, s', t, Release(a, ResultOf(Contents(s), a)));
    assert Abs(s).phase[t] == PhaseOf(Contents(s), s.pc[t]);
  }

  lemma PhaseKept(m: map<Key, Value>, m': map<Key, Value>, p: Pc)
    requires !p.Copy?
    ensures PhaseOf(m', p) == PhaseOf(m, p)
  {
  }

  lemma UsePhases(s: State, s': State, t: Tid, p: Pc)
    requires s.buckets != [] && s'.buckets != [] && t in s.pc && s'.pc == s.pc[t := p]
    requires forall u :: u in s.pc && u != t ==> PhaseOf(Contents(s'), s.pc[u]) == PhaseOf(Contents(s), s.pc[u])
    ensures Abs(s').phase == Abs(s).phase[t := PhaseOf(Contents(s'), p)]
  {
  }

  lemma CopyRefines(s: State, t: Tid, i: nat, res: map<Key, Value>)
    requires Inv(s) && t in s.pc && s.pc[t] == Copy(i, res)
    ensures Abs(DoCopy(s, t, i, res)) == Abs(s)
  {
    assert ThreadInv(s, t) && BucketInv(s, i);
    CopyMore(s, res, i);
    if i + 1 == |s.buckets| {
      assert MapOf(s.buckets[i]) + res == Contents(s);
    }
    assert Abs(DoCopy(s, t, i, res)).phase == Abs(s).phase;
  }

  /** A step that leaves the buckets alone changes the phase of its own thread only. */
  lemma MoveRefines(s: State, s': State, t: Tid, e: Label)
    requires s.buckets != [] && t in s.pc && t in s'.pc && s'.pc == s.pc[t := s'.pc[t]]
    requires s'.hasher == s.hasher && s'.buckets == s.buckets
    requires var m := Contents(s);
      var x, x' := PhaseOf(m, s.pc[t]), PhaseOf(m, s'.pc[t]);
      match e
      case Silent => x' == x
      case Call(u, o) => u == t && x == Quiet && x' == Want(o)
      case Effect(u) => u == t && x == Want(GetMap) && x' == Done(Snapshot(m))
      case Return(u, r) => u == t && x == Done(r) && x' == Quiet
    ensures SpecStep(Abs(s), e) == Some(Abs(s'))
  {
    assert Abs(s').phase == Abs(s).phase[t := PhaseOf(Contents(s), s'.pc[t])];
    if e == Silent {
      assert Abs(s').phase == Abs(s).phase;
    }
  }

  lemma StepRefines(s: State, t: Tid, call: Op)
    requires Inv(s) && t in s.pc
    ensures SpecStep(Abs(s), Event(s, t, call)) == Some(Abs(Step(s, t, call)))
  {
    match s.pc[t]
    case At(a, i) => UseRefines(s, t, a, i);
    case Copy(i, res) => CopyRefines(s, t, i, res);
    case _ =>
      assert ThreadInv(s, t);
      MoveRefines(s, Step(s, t, call), t, Event(s, t, call));
  }

  // ---------------------------------------------------------------- theorems about whole runs

  ghost function Empty(threads: set<Tid>): Spec {
    Spec(map[], map t | t in threads :: Quiet)
  }

  lemma InitInv(threads: set<Tid>, hasher: Key -> nat, numBuckets: nat)
    requires 0 < numBuckets
    ensures Inv(Init(threads, hasher, numBuckets)) && Abs(Init(threads, hasher, numBuckets)) == Empty(threads)
  {
    var s := Init(threads, hasher, numBuckets);
    forall b {:trigger LockInv(s, b)} | 0 <= b < |s.buckets| ensures LockInv(s, b) {
    }
    assert Contents(s) == map[];
  }

  /** Linearizability, for every hash function, number of buckets, set of threads and schedule: every operation
      takes effect at one instant between its call and its return, and returns what the abstract map says at
      that instant; `get_map` returns all of it.  No position that a thread has found is ever stale. */
  lemma {:induction false} RunRefines(threads: set<Tid>, hasher: Key -> nat, numBuckets: nat, sched: Schedule)
    requires 0 < numBuckets
    ensures Inv(Run(threads, hasher, numBuckets, sched))
    ensures SpecRun(Empty(threads), Trace(threads, hasher, numBuckets, sched))
         == Some(Abs(Run(threads, hasher, numBuckets, sched)))
  {
    if sched == [] {
      InitInv(threads, hasher, numBuckets);
    } else {
      var before := sched[..|sched| - 1];
      RunRefines(threads, hasher, numBuckets, before);
      var s := Run(threads, hasher, numBuckets, before);
      var (t, call) := sched[|sched| - 1];
      if t in s.pc {
        StepInv(s, t, call);
        StepRefines(s, t, call);
      }
      var trace := Trace(threads, hasher, numBuckets, sched);
      assert trace[..|trace| - 1] == Trace(threads, hasher, numBuckets, before);
    }
  }

  predicate Blocked(s: State, t: Tid)
    requires t in s.pc && Shaped(s)
  {
    match s.pc[t]
    case Acquire(a) => !Free(s.locks[Index(s, a.k)], a.Get?)
    case LockAll(i) => i < |s.buckets| && !Free(s.locks[i], false)
    case _ => false
  }

  /** Somebody has a mutex that is not free. */
  lemma Holder(s: State, b: nat) returns (u: Tid)
    requires Inv(s) && b < |s.buckets| && !Free(s.locks[b], false)
    ensures u in s.pc && (HasExclusive(s, s.pc[u], b) || HasShared(s, s.pc[u], b))
  {
    assert LockInv(s, b);
    if s.locks[b].writer.Some? {
      u := s.locks[b].writer.value;
    } else {
      u :| u in s.locks[b].readers;
    }
  }

  /** No deadlock: whenever a thread is blocked, some thread that has a mutex can move. */
  lemma NoDeadlock(threads: set<Tid>, hasher: Key -> nat, numBuckets: nat, sched: Schedule, t: Tid)
    returns (u: Tid, b: nat)
    requires 0 < numBuckets
    requires var s := Run(threads, hasher, numBuckets, sched); t in s.pc && Blocked(s, t)
    ensures var s := Run(threads, hasher, numBuckets, sched);
      u in s.pc && !Blocked(s, u) && b < |s.buckets| && (HasExclusive(s, s.pc[u], b) || HasShared(s, s.pc[u], b))
  {
    RunRefines(threads, hasher, numBuckets, sched);
    u, b := Mover(Run(threads, hasher, numBuckets, sched), t);
  }

  lemma Mover(s: State, t: Tid) returns (u: Tid, b: nat)
    requires Inv(s) && t in s.pc && Blocked(s, t)
    ensures u in s.pc && !Blocked(s, u) && b < |s.buckets| && (HasExclusive(s, s.pc[u], b) || HasShared(s, s.pc[u], b))
  {
    b := if s.pc[t].Acquire? then Index(s, s.pc[t].a.k) else s.pc[t].i;
    u := Holder(s, b);
    if Blocked(s, u) {
      var v := u;
      b := s.pc[v].i;
      u := Holder(s, b);
      assert LockInv(s, 0);
    }
  }
}
