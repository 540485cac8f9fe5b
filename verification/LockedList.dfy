/** `threadsafe_list`: a singly linked list with one mutex per node, walked hand over hand.

    One `Step` locks or unlocks one mutex, accesses one node, or allocates or deletes one.  What a walk
    calls is a function object: it has a state, which may change with every call.  Addresses are reused
    after deletion and serial numbers tell allocations apart; `fault` is raised by a step that touches a
    deleted node, its mutex included.

    `chain` and the `place` of a node are bookkeeping that no step reads.
*/
module LockedList {
  import opened Wrappers
  import opened LinearSpec

  type Addr = nat
  const NULL: Addr := 0
  const HEAD: Addr := 1  // the `head` member, a node without data

  datatype Place =
    | Fresh(t: Tid)    // allocated by a push of t
    | Linked           // in the list
    | Cut              // in the list, its link moved out by the thread that has it locked
    | Removed(t: Tid)  // unlinked by t

  datatype Node = Node(id: nat, data: Option<Value>, next: Addr, mutex: Option<Tid>, place: Place)

  datatype Ref = Ref(a: Addr, id: nat)

  /** `for_each`, `find_first_if` and `remove_if`, with the function object: its state, and what a call
      makes of it and of an element. */
  datatype Kind =
    | Each(st: nat, f: (nat, Value) -> (nat, Value))
    | Find(st: nat, p: (nat, Value) -> (nat, bool))
    | Remove(st: nat, p: (nat, Value) -> (nat, bool))

  /** The function object after a call on `v`. */
  function Called(k: Kind, v: Value): Kind {
    match k
    case Each(st, f) => Each(f(st, v).0, f)
    case Find(st, p) => Find(p(st, v).0, p)
    case Remove(st, p) => Remove(p(st, v).0, p)
  }

  /** What the predicate says about `v`. */
  function Verdict(k: Kind, v: Value): bool {
    match k
    case Each(_, _) => false
    case Find(st, p) => p(st, v).1
    case Remove(st, p) => p(st, v).1
  }

  /** What the call leaves in the element. */
  function Image(k: Kind, v: Value): Value {
    if k.Each? then k.f(k.st, v).1 else v
  }

  datatype At =
    | LockHead                      // before locking head.m
    | Next(cur: Ref)                // before `current->next.get()`
    | LockNext(cur: Ref, next: Ref) // before locking next->m
    | Test(cur: Ref, next: Ref)     // remove_if: before `p(*next->data)`
    | UnlockCur(cur: Ref, next: Ref)
    | Visit(next: Ref)              // before `f(*next->data)` or `p(*next->data)`
    | Detach(cur: Ref, next: Ref)   // before `old_next = std::move(current->next)`
    | Splice(cur: Ref, next: Ref)   // before `current->next = std::move(next->next)`
    | UnlockOld(cur: Ref, next: Ref)
    | Free(cur: Ref, next: Ref)     // before old_next is destroyed
    | Exit(cur: Ref, res: Option<Value>)  // before the last lock is released; what find_first_if found

  datatype Pc =
    | Idle
    | PushAlloc(v: Value)
    | PushLock(n: Ref, v: Value)              // before locking head.m
    | PushSet(n: Ref, v: Value)               // before `new_node->next = std::move(head.next)`
    | PushLink(n: Ref, v: Value)              // before `head.next = std::move(new_node)`
    | PushUnlock
    | Walk(k: Kind, at: At)

  datatype State = State(
    heap: map<Addr, Node>,
    pc: map<Tid, Pc>,
    serial: nat,
    freed: set<nat>,
    fault: bool,
    chain: seq<Addr>)

  datatype Op = DoPush(v: Value) | DoWalk(k: Kind)

  datatype Choice = Choice(op: Op, spare: Addr)

  function Goto(s: State, t: Tid, p: Pc): State {
    s.(pc := s.pc[t := p])
  }

  function Fault(s: State): State {
    s.(fault := true)
  }

  predicate Live(s: State, r: Ref) {
    r.a in s.heap && s.heap[r.a].id == r.id
  }

  function Set(s: State, t: Tid, p: Pc, a: Addr, n: Node): State {
    s.(pc := s.pc[t := p], heap := s.heap[a := n])
  }

  /** Locks the mutex of `r`, if it is free. */
  function Lock(s: State, t: Tid, p: Pc, r: Ref): State {
    if !Live(s, r) then Fault(s)
    else if s.heap[r.a].mutex.Some? then s
    else Set(s, t, p, r.a, s.heap[r.a].(mutex := Some(t)))
  }

  function Unlock(s: State, t: Tid, p: Pc, r: Ref): State {
    if !Live(s, r) then Fault(s)
    else Set(s, t, p, r.a, s.heap[r.a].(mutex := None))
  }

  const SENTINEL: Ref := Ref(HEAD, 0)

  /** `m` without `b`, which follows `a`. */
  function Without(m: seq<Addr>, b: Addr): seq<Addr> {
    if m == [] then [] else if m[0] == b then m[1..] else [m[0]] + Without(m[1..], b)
  }

  function DoPushSet(s: State, t: Tid, n: Ref, v: Value): State {
    if !Live(s, n) || HEAD !in s.heap || n.a == HEAD then Fault(s)
    else
      s.(pc := s.pc[t := PushLink(n, v)],
         heap := s.heap[n.a := s.heap[n.a].(next := s.heap[HEAD].next)]
                       [HEAD := s.heap[HEAD].(next := NULL, place := Cut)])
  }

  function DoPushLink(s: State, t: Tid, n: Ref, v: Value): State {
    if !Live(s, n) || HEAD !in s.heap || n.a == HEAD || s.chain == [] then Fault(s)
    else
      s.(pc := s.pc[t := PushUnlock],
         heap := s.heap[n.a := s.heap[n.a].(place := Linked)][HEAD := s.heap[HEAD].(next := n.a, place := Linked)],
         chain := [s.chain[0], n.a] + s.chain[1..])
  }

  function DoNext(s: State, t: Tid, k: Kind, cur: Ref): State {
    if !Live(s, cur) then Fault(s)
    else
      var a := s.heap[cur.a].next;
      if a == NULL then Goto(s, t, Walk(k, Exit(cur, None)))
      else if a !in s.heap then Fault(s)
      else Goto(s, t, Walk(k, LockNext(cur, Ref(a, s.heap[a].id))))
  }

  function DoTest(s: State, t: Tid, k: Kind, cur: Ref, next: Ref): State {
    if !Live(s, next) || s.heap[next.a].data.None? then Fault(s)
    else
      var v := s.heap[next.a].data.value;
      Goto(s, t, Walk(Called(k, v), if Verdict(k, v) then Detach(cur, next) else UnlockCur(cur, next)))
  }

  function DoVisit(s: State, t: Tid, k: Kind, next: Ref): State {
    if !Live(s, next) || s.heap[next.a].data.None? then Fault(s)
    else
      var v := s.heap[next.a].data.value;
      Set(s, t, Walk(Called(k, v), if Verdict(k, v) then Exit(next, Some(v)) else Next(next)), next.a,
          s.heap[next.a].(data := Some(Image(k, v))))
  }

  function DoDetach(s: State, t: Tid, k: Kind, cur: Ref, next: Ref): State {
    if !Live(s, cur) then Fault(s)
    else Set(s, t, Walk(k, Splice(cur, next)), cur.a, s.heap[cur.a].(next := NULL, place := Cut))
  }

  function DoSplice(s: State, t: Tid, k: Kind, cur: Ref, next: Ref): State {
    if !Live(s, cur) || !Live(s, next) || cur.a == next.a then Fault(s)
    else
      s.(pc := s.pc[t := Walk(k, UnlockOld(cur, next))],
         heap := s.heap[cur.a := s.heap[cur.a].(next := s.heap[next.a].next, place := Linked)]
                       [next.a := s.heap[next.a].(next := NULL, place := Removed(t))],
         chain := Without(s.chain, next.a))
  }

  function DoFree(s: State, t: Tid, k: Kind, cur: Ref, next: Ref): State {
    if !Live(s, next) then Fault(s)
    else s.(pc := s.pc[t := Walk(k, Next(cur))], heap := s.heap - {next.a}, freed := s.freed + {next.id})
  }

  function WalkStep(s: State, t: Tid, k: Kind, at: At): State {
    match at
    case LockHead => Lock(s, t, Walk(k, Next(SENTINEL)), SENTINEL)
    case Next(cur) => DoNext(s, t, k, cur)
    case LockNext(cur, next) => Lock(s, t, Walk(k, if k.Remove? then Test(cur, next) else UnlockCur(cur, next)), next)
    case Test(cur, next) => DoTest(s, t, k, cur, next)
    case UnlockCur(cur, next) => Unlock(s, t, Walk(k, if k.Remove? then Next(next) else Visit(next)), cur)
    case Visit(next) => DoVisit(s, t, k, next)
    case Detach(cur, next) => DoDetach(s, t, k, cur, next)
    case Splice(cur, next) => DoSplice(s, t, k, cur, next)
    case UnlockOld(cur, next) => Unlock(s, t, Walk(k, Free(cur, next)), next)
    case Free(cur, next) => DoFree(s, t, k, cur, next)
    case Exit(cur, _) => Unlock(s, t, Idle, cur)
  }

  /** One step of thread `t`; a step that finds its mutex locked does nothing. */
  function Step(s: State, t: Tid, c: Choice): State
    requires t in s.pc
  {
    match s.pc[t]
    case Idle => Goto(s, t, if c.op.DoPush? then PushAlloc(c.op.v) else Walk(c.op.k, LockHead))
    case PushAlloc(v) =>
      if c.spare == NULL || c.spare in s.heap then s
      else
        s.(pc := s.pc[t := PushLock(Ref(c.spare, s.serial), v)],
           heap := s.heap[c.spare := Node(s.serial, Some(v), NULL, None, Fresh(t))], serial := s.serial + 1)
    case PushLock(n, v) => Lock(s, t, PushSet(n, v), SENTINEL)
    case PushSet(n, v) => DoPushSet(s, t, n, v)
    case PushLink(n, v) => DoPushLink(s, t, n, v)
    case PushUnlock => Unlock(s, t, Idle, SENTINEL)
    case Walk(k, at) => WalkStep(s, t, k, at)
  }

  // ---------------------------------------------------------------- runs

  function Init(threads: set<Tid>): State {
    State(map[HEAD := Node(0, None, NULL, None, Linked)], map t | t in threads :: Idle, 1, {}, false, [HEAD])
  }

  type Schedule = seq<(Tid, Choice)>

  function Run(threads: set<Tid>, sched: Schedule): State {
    if sched == [] then Init(threads)
    else
      var s := Run(threads, sched[..|sched| - 1]);
      var (t, c) := sched[|sched| - 1];
      if t in s.pc then Step(s, t, c) else s
  }
}
