/** `threadsafe_lookup_table` as several threads use it: each bucket has a mutex that a reader locks shared
    and a writer locks alone, and `get_map` locks all of them, in order, before it copies anything.

    One `Step` acquires or releases one mutex, looks a key up in a bucket, uses the entry that was found, or
    copies one bucket.  `fault` is raised by a step that uses a position at which the key is not.  What the
    steps on one bucket do to the mapping it stands for is what `LookupTable` proves of its loops.
*/
module LockedTable {
  import opened Wrappers
  import opened LookupTable

  type Tid = nat
  type Data = seq<(Key, Value)>

  /** The operations that use one bucket. */
  datatype Access = Get(k: Key, default_: Value) | Put(k: Key, v: Value) | Remove(k: Key)

  datatype Op = One(a: Access) | GetMap

  datatype Result = Got(v: Value) | Updated | Snapshot(m: map<Key, Value>)

  // ---------------------------------------------------------------- the sequential object

  datatype Phase = Quiet | Want(o: Op) | Done(r: Result)

  datatype Spec = Spec(contents: map<Key, Value>, phase: map<Tid, Phase>)

  datatype Label = Silent | Call(t: Tid, o: Op) | Effect(t: Tid) | Return(t: Tid, r: Result)

  function Apply(m: map<Key, Value>, a: Access): map<Key, Value> {
    match a
    case Get(_, _) => m
    case Put(k, v) => m[k := v]
    case Remove(k) => m - {k}
  }

  function ResultOf(m: map<Key, Value>, a: Access): Result {
    match a
    case Get(k, d) => Got(if k in m then m[k] else d)
    case _ => Updated
  }

  /** What an operation makes of the map, and what it returns. */
  function Perform(m: map<Key, Value>, o: Op): (map<Key, Value>, Result) {
    match o
    case One(a) => (Apply(m, a), ResultOf(m, a))
    case GetMap => (m, Snapshot(m))
  }

  /** An operation takes effect at one instant between its call and its return, and returns what the map at
      that instant says. */
  function SpecStep(a: Spec, l: Label): Option<Spec> {
    if l == Silent then Some(a)
    else if l.t !in a.phase then None
    else
      match l
      case Call(t, o) => if a.phase[t] == Quiet then Some(a.(phase := a.phase[t := Want(o)])) else None
      case Effect(t) =>
        if !a.phase[t].Want? then None
        else
          var (m, r) := Perform(a.contents, a.phase[t].o);
          Some(Spec(m, a.phase[t := Done(r)]))
      case Return(t, r) => if a.phase[t] == Done(r) then Some(a.(phase := a.phase[t := Quiet])) else None
  }

  function SpecRun(a: Spec, trace: seq<Label>): Option<Spec> {
    if trace == [] then Some(a)
    else
      match SpecRun(a, trace[..|trace| - 1])
      case None => None
      case Some(b) => SpecStep(b, trace[|trace| - 1])
  }

  // ---------------------------------------------------------------- the table

  /** A `shared_mutex`. */
  datatype Lock = Lock(writer: Option<Tid>, readers: set<Tid>)

  datatype Pc =
    | Idle
    | Acquire(a: Access)                         // before the mutex of the bucket is locked
    | Find(a: Access)                            // before `find_entry_for`
    | At(a: Access, i: nat)                      // before the entry found is used
    | Release(a: Access, r: Result)              // before the mutex is unlocked
    | LockAll(i: nat)                            // get_map: before mutex i is locked
    | Copy(i: nat, res: map<Key, Value>)         // get_map: before bucket i is copied
    | UnlockAll(i: nat, res: map<Key, Value>)    // get_map: before mutex i is unlocked
    | Ret(r: Result)

  datatype State = State(hasher: Key -> nat, buckets: seq<Data>, locks: seq<Lock>, pc: map<Tid, Pc>, fault: bool)

  function Goto(s: State, t: Tid, p: Pc): State {
    s.(pc := s.pc[t := p])
  }

  /** `get_bucket` */
  function Index(s: State, k: Key): nat
    requires s.buckets != []
  {
    s.hasher(k) % |s.buckets|
  }

  /** The first entry with the key, or the end. */
  function Position(data: Data, k: Key): (i: nat)
    ensures i <= |data| && (i < |data| ==> data[i].0 == k) && forall j :: 0 <= j < i ==> data[j].0 != k
  {
    if data == [] then 0
    else
      var i := Position(data[..|data| - 1], k);
      if i < |data| - 1 || data[i].0 == k then i else |data|
  }

  function Changed(data: Data, a: Access, i: nat): Data
    requires i <= |data|
  {
    match a
    case Get(_, _) => data
    case Put(k, v) => if i == |data| then data + [(k, v)] else data[i := (k, v)]
    case Remove(_) => if i == |data| then data else data[..i] + data[i + 1..]
  }

  function Answer(data: Data, a: Access, i: nat): Result
    requires i <= |data|
  {
    match a
    case Get(_, d) => Got(if i == |data| then d else data[i].1)
    case _ => Updated
  }

  predicate Free(l: Lock, shared: bool) {
    l.writer == None && (shared || l.readers == {})
  }

  function Locked(l: Lock, shared: bool, t: Tid): Lock {
    if shared then l.(readers := l.readers + {t}) else l.(writer := Some(t))
  }

  function Unlocked(l: Lock, shared: bool, t: Tid): Lock {
    if shared then l.(readers := l.readers - {t}) else l.(writer := None)
  }

  predicate Shaped(s: State) {
    s.buckets != [] && |s.locks| == |s.buckets|
  }

  function DoAcquire(s: State, t: Tid, a: Access): State
    requires Shaped(s)
  {
    var b := Index(s, a.k);
    if !Free(s.locks[b], a.Get?) then s
    else s.(locks := s.locks[b := Locked(s.locks[b], a.Get?, t)], pc := s.pc[t := Find(a)])
  }

  function DoUse(s: State, t: Tid, a: Access, i: nat): State
    requires Shaped(s)
  {
    var b := Index(s, a.k);
    var data := s.buckets[b];
    if |data| < i || (i < |data| && data[i].0 != a.k) then s.(fault := true)
    else s.(buckets := s.buckets[b := Changed(data, a, i)], pc := s.pc[t := Release(a, Answer(data, a, i))])
  }

  function DoRelease(s: State, t: Tid, a: Access, r: Result): State
    requires Shaped(s)
  {
    var b := Index(s, a.k);
    s.(locks := s.locks[b := Unlocked(s.locks[b], a.Get?, t)], pc := s.pc[t := Ret(r)])
  }

  function DoLockAll(s: State, t: Tid, i: nat): State
    requires Shaped(s)
  {
    if |s.buckets| <= i || !Free(s.locks[i], false) then s
    else
      s.(locks := s.locks[i := Locked(s.locks[i], false, t)],
         pc := s.pc[t := if i + 1 == |s.buckets| then Copy(0, map[]) else LockAll(i + 1)])
  }

  /** An insertion does not replace an entry that is there. */
  function DoCopy(s: State, t: Tid, i: nat, res: map<Key, Value>): State {
    if |s.buckets| <= i then s
    else
      var res' := MapOf(s.buckets[i]) + res;
      Goto(s, t, if i + 1 == |s.buckets| then UnlockAll(0, res') else Copy(i + 1, res'))
  }

  function DoUnlockAll(s: State, t: Tid, i: nat, res: map<Key, Value>): State
    requires Shaped(s)
  {
    if |s.buckets| <= i then s
    else
      s.(locks := s.locks[i := Unlocked(s.locks[i], false, t)],
         pc := s.pc[t := if i + 1 == |s.buckets| then Ret(Snapshot(res)) else UnlockAll(i + 1, res)])
  }

  /** One step of thread `t`; a step that finds its mutex locked does nothing. */
  function Step(s: State, t: Tid, call: Op): State
    requires t in s.pc && Shaped(s)
  {
    match s.pc[t]
    case Idle => Goto(s, t, if call.GetMap? then LockAll(0) else Acquire(call.a))
    case Acquire(a) => DoAcquire(s, t, a)
    case Find(a) => Goto(s, t, At(a, Position(s.buckets[Index(s, a.k)], a.k)))
    case At(a, i) => DoUse(s, t, a, i)
    case Release(a, r) => DoRelease(s, t, a, r)
    case LockAll(i) => DoLockAll(s, t, i)
    case Copy(i, res) => DoCopy(s, t, i, res)
    case UnlockAll(i, res) => DoUnlockAll(s, t, i, res)
    case Ret(_) => Goto(s, t, Idle)
  }

  /** The event of the sequential object that a step performs: `get_map` takes effect when it has the last
      mutex. */
  function Event(s: State, t: Tid, call: Op): Label
    requires t in s.pc && Shaped(s)
  {
    match s.pc[t]
    case Idle => Call(t, call)
    case At(_, _) => Effect(t)
    case LockAll(i) => if i + 1 == |s.buckets| && Free(s.locks[i], false) then Effect(t) else Silent
    case Ret(r) => Return(t, r)
    case _ => Silent
  }

  // ---------------------------------------------------------------- runs

  function Init(threads: set<Tid>, hasher: Key -> nat, numBuckets: nat): State {
    State(hasher, seq(numBuckets, _ => []), seq(numBuckets, _ => Lock(None, {})), map t | t in threads :: Idle, false)
  }

  type Schedule = seq<(Tid, Op)>

  function Run(threads: set<Tid>, hasher: Key -> nat, numBuckets: nat, sched: Schedule): (s: State)
    requires 0 < numBuckets
    ensures Shaped(s)
  {
    if sched == [] then Init(threads, hasher, numBuckets)
    else
      var s := Run(threads, hasher, numBuckets, sched[..|sched| - 1]);
      var (t, call) := sched[|sched| - 1];
      if t in s.pc then Step(s, t, call) else s
  }

  function Trace(threads: set<Tid>, hasher: Key -> nat, numBuckets: nat, sched: Schedule): seq<Label>
    requires 0 < numBuckets
  {
    if sched == [] then []
    else
      var s := Run(threads, hasher, numBuckets, sched[..|sched| - 1]);
      var (t, call) := sched[|sched| - 1];
      Trace(threads, hasher, numBuckets, sched[..|sched| - 1]) + [if t in s.pc then Event(s, t, call) else Silent]
  }
}
