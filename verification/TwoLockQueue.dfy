/** `threadsafe_queue66` and `threadsafe_queue`: a linked FIFO queue with a dummy node at the tail, one
    mutex for the head and one for the tail.

    One `Step` acquires or releases a mutex, or performs one access of `_head`, of `_tail` or of a node.
    All four ways to pop are modelled: into a pointer or into a value, trying or waiting.  A waiting pop
    that finds the queue empty releases the head mutex and starts over; when it is woken is up to the
    schedule.  Addresses are reused after deletion and serial numbers tell allocations apart; `fault` is
    raised by a step that reaches a deleted node.

    `chain` and the `place` of a node are bookkeeping that no step reads.
*/
module TwoLockQueue {
  import opened Wrappers
  import opened LinearSpec

  type Addr = nat
  const NULL: Addr := 0

  datatype Place =
    | Fresh(t: Tid)   // allocated by a push of t as the next dummy
    | Linked          // in the list, the dummy included
    | Popped(t: Tid)  // unlinked by t

  datatype Node = Node(id: nat, data: Option<Value>, next: Addr, place: Place)

  datatype PushAt =
    | Alloc                   // before `new node`
    | Acquire(n: Addr, id: nat)  // before locking the tail mutex
    | Data(n: Addr, id: nat)  // before `_tail->data = ptr`
    | Next(n: Addr, id: nat)  // before `_tail->next = n`
    | Tail(n: Addr, id: nat)  // before `_tail = new_tail`
    | Release                 // before unlocking the tail mutex
    | PushRet

  datatype PopAt =
    | HeadLock                                          // before locking the head mutex
    | TailLock                                          // get_tail: before locking the tail mutex
    | TailRead                                          // get_tail: before reading `_tail`
    | TailUnlock(seen: Addr)                            // get_tail: before unlocking
    | Test(seen: Addr)                                  // before `_head.get() == get_tail()`
    | GiveUp                                            // empty: before unlocking the head mutex
    | TakeValue                                         // before `value = std::move(*_head->data)`
    | MoveHead(res: Option<Value>)                      // before `old = std::move(_head)`
    | Relink(node: Addr, id: nat, res: Option<Value>)   // before `_head = std::move(old->next)`
    | HeadUnlock(node: Addr, id: nat, res: Option<Value>)
    | TakePtr(node: Addr, id: nat)                      // before `old->data`
    | Free(node: Addr, id: nat, res: Option<Value>)     // before old is destroyed
    | PopRet(res: Option<Value>)

  /** `wait` for wait_and_pop, `byValue` for the overloads with a reference parameter. */
  datatype Kind = Kind(wait: bool, byValue: bool)

  datatype Pc = Idle | Push(v: Value, pushAt: PushAt) | Pop(k: Kind, popAt: PopAt)

  datatype State = State(
    head: Addr,
    tail: Addr,
    headMutex: Option<Tid>,
    tailMutex: Option<Tid>,
    heap: map<Addr, Node>,
    pc: map<Tid, Pc>,
    serial: nat,
    freed: set<nat>,
    fault: bool,
    chain: seq<Addr>)

  datatype Op = DoPush(v: Value) | DoPop(k: Kind)

  datatype Choice = Choice(op: Op, spare: Addr)

  function Goto(s: State, t: Tid, p: Pc): State {
    s.(pc := s.pc[t := p])
  }

  function Fault(s: State): State {
    s.(fault := true)
  }

  predicate Live(s: State, a: Addr, id: nat) {
    a in s.heap && s.heap[a].id == id
  }

  function PushStep(s: State, t: Tid, v: Value, at: PushAt, c: Choice): State {
    match at
    case Alloc =>
      if c.spare == NULL || c.spare in s.heap then s
      else
        s.(pc := s.pc[t := Push(v, Acquire(c.spare, s.serial))],
           heap := s.heap[c.spare := Node(s.serial, None, NULL, Fresh(t))], serial := s.serial + 1)
    case Acquire(n, id) =>
      if s.tailMutex.Some? then s else s.(pc := s.pc[t := Push(v, Data(n, id))], tailMutex := Some(t))
    case Data(n, id) =>
      if s.tail !in s.heap then Fault(s)
      else s.(pc := s.pc[t := Push(v, Next(n, id))], heap := s.heap[s.tail := s.heap[s.tail].(data := Some(v))])
    case Next(n, id) =>
      if s.tail !in s.heap then Fault(s)
      else s.(pc := s.pc[t := Push(v, Tail(n, id))], heap := s.heap[s.tail := s.heap[s.tail].(next := n)])
    case Tail(n, id) =>
      if !Live(s, n, id) then Fault(s)
      else
        s.(pc := s.pc[t := Push(v, Release)], heap := s.heap[n := s.heap[n].(place := Linked)],
           tail := n, chain := s.chain + [n])
    case Release => s.(pc := s.pc[t := Push(v, PushRet)], tailMutex := None)
    case PushRet => Goto(s, t, Idle)
  }

  function PopStep(s: State, t: Tid, k: Kind, at: PopAt): State {
    match at
    case HeadLock =>
      if s.headMutex.Some? then s else s.(pc := s.pc[t := Pop(k, TailLock)], headMutex := Some(t))
    case TailLock =>
      if s.tailMutex.Some? then s else s.(pc := s.pc[t := Pop(k, TailRead)], tailMutex := Some(t))
    case TailRead => Goto(s, t, Pop(k, TailUnlock(s.tail)))
    case TailUnlock(seen) => s.(pc := s.pc[t := Pop(k, Test(seen))], tailMutex := None)
    case Test(seen) =>
      Goto(s, t, Pop(k, if s.head == seen then GiveUp else if k.byValue then TakeValue else MoveHead(None)))
    case GiveUp => s.(pc := s.pc[t := Pop(k, if k.wait then HeadLock else PopRet(None))], headMutex := None)
    case TakeValue =>
      if s.head !in s.heap then Fault(s) else Goto(s, t, Pop(k, MoveHead(s.heap[s.head].data)))
    case MoveHead(res) =>
      if s.head !in s.heap then Fault(s)
      else s.(pc := s.pc[t := Pop(k, Relink(s.head, s.heap[s.head].id, res))], head := NULL)
    case Relink(a, id, res) =>
      if !Live(s, a, id) then Fault(s)
      else
        s.(pc := s.pc[t := Pop(k, HeadUnlock(a, id, res))], head := s.heap[a].next,
           heap := s.heap[a := s.heap[a].(next := NULL, place := Popped(t))],
           chain := if s.chain == [] then [] else s.chain[1..])
    case HeadUnlock(a, id, res) =>
      s.(pc := s.pc[t := Pop(k, if k.byValue then Free(a, id, res) else TakePtr(a, id))], headMutex := None)
    case TakePtr(a, id) =>
      if !Live(s, a, id) then Fault(s) else Goto(s, t, Pop(k, Free(a, id, s.heap[a].data)))
    case Free(a, id, res) =>
      if !Live(s, a, id) then Fault(s)
      else s.(pc := s.pc[t := Pop(k, PopRet(res))], heap := s.heap - {a}, freed := s.freed + {id})
    case PopRet(_) => Goto(s, t, Idle)
  }

  /** One step of thread `t`; a step that finds its mutex locked does nothing. */
  function Step(s: State, t: Tid, c: Choice): State
    requires t in s.pc
  {
    match s.pc[t]
    case Idle => Goto(s, t, if c.op.DoPush? then Push(c.op.v, Alloc) else Pop(c.op.k, HeadLock))
    case Push(v, at) => PushStep(s, t, v, at, c)
    case Pop(k, at) => PopStep(s, t, k, at)
  }

  function Event(s: State, t: Tid, c: Choice): Label
    requires t in s.pc
  {
    match s.pc[t]
    case Idle => if c.op.DoPush? then CallPut(t, c.op.v) else CallTake(t)
    case Push(v, at) => if at.Tail? then EffectPut(t) else if at.PushRet? then RetPut(t) else Silent
    case Pop(k, at) =>
      if at.TailRead? && s.head == s.tail && !k.wait then EffectTake(t)
      else if at.Relink? then EffectTake(t)
      else if at.PopRet? then RetTake(t, at.res)
      else Silent
  }

  // ---------------------------------------------------------------- runs

  const FIRST: Addr := 1

  /** The constructor: one dummy node, at which both pointers point. */
  function Init(threads: set<Tid>): State {
    State(FIRST, FIRST, None, None, map[FIRST := Node(0, None, NULL, Linked)],
          map t | t in threads :: Idle, 1, {}, false, [FIRST])
  }

  type Schedule = seq<(Tid, Choice)>

  function Run(threads: set<Tid>, sched: Schedule): State {
    if sched == [] then Init(threads)
    else
      var s := Run(threads, sched[..|sched| - 1]);
      var (t, c) := sched[|sched| - 1];
      if t in s.pc then Step(s, t, c) else s
  }

  function Trace(threads: set<Tid>, sched: Schedule): seq<Label> {
    if sched == [] then []
    else
      var s := Run(threads, sched[..|sched| - 1]);
      var (t, c) := sched[|sched| - 1];
      Trace(threads, sched[..|sched| - 1]) + [if t in s.pc then Event(s, t, c) else Silent]
  }
}
