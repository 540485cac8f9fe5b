/** `lock_free_stack_with_rc`: a lock-free stack whose nodes are reclaimed by split reference counts.

    The shared memory is a head word, holding a counted pointer, and a heap of nodes.  Each thread
    has a program counter that carries its local variables.  One `Step` executes one atomic load,
    compare-exchange, fetch-add, allocation, deletion or plain access of a node.  Addresses of
    deleted nodes may be handed out again by `new`, so a pointer alone does not identify a node:
    every allocation also gets a serial number, and a thread that reaches a node through a pointer
    it obtained when the node carried another serial number raises `fault`.

    `chain` and the `place` of a node are bookkeeping: they record the linked nodes and the role of
    each live node, and no step reads them.
*/
module RcStack {
  import opened Wrappers
  import opened LinearSpec

  type Addr = nat
  const NULL: Addr := 0

  datatype Counted = Counted(count: int, ptr: Addr)

  /** The role of a live node. */
  datatype Place =
    | Fresh(t: Tid)             // allocated by a push of t, not yet linked
    | Linked(ext: int)          // on the stack, its external count
    | Popped(t: Tid, ext: int)  // unlinked by t, which has not folded the external count in yet
    | Orphan                    // counts folded; some counted threads still hold it
    | Doomed(t: Tid)            // t is about to delete it

  datatype Node = Node(id: nat, data: Option<Value>, internal: int, next: Counted, place: Place)

  datatype Pc =
    | Idle
    | PushAlloc(v: Value)                          // before `new node(data)`
    | PushLoad(n: Addr, id: nat, v: Value)         // before `new_node.ptr->next = _head.load()`
    | PushCas(n: Addr, id: nat, v: Value)          // before the compare-exchange of push
    | PushRet
    | PopLoad                                      // before `old_head = _head.load()`
    | PopInc(seen: Counted)                        // before the compare-exchange of increase_head_count
    | PopNext(seen: Counted, id: nat)              // counted; before reading `ptr->next`
    | PopCas(seen: Counted, id: nat, nx: Counted)  // before `_head.compare_exchange_strong(old_head, next)`
    | PopData(seen: Counted, id: nat)              // unlinked; before `res.swap(ptr->data)`
    | PopAdd(seen: Counted, id: nat, res: Option<Value>)   // before `fetch_add(count_increase)`
    | PopFree(p: Addr, id: nat, res: Option<Value>)        // before the `delete ptr` of the popper
    | PopSub(p: Addr, id: nat, seen: Counted)      // CAS failed; before `fetch_sub(1)`
    | RetryFree(p: Addr, id: nat, seen: Counted)   // before the `delete ptr` of a failed attempt
    | PopRet(res: Option<Value>)

  datatype State = State(
    head: Counted,
    heap: map<Addr, Node>,
    pc: map<Tid, Pc>,
    serial: nat,
    freed: set<nat>,
    fault: bool,
    chain: seq<Addr>)

  datatype Op = DoPush(v: Value) | DoPop

  /** What the environment decides when a thread is scheduled: the operation an idle thread calls,
      the address `new` returns, and whether a weak compare-exchange fails spuriously. */
  datatype Choice = Choice(op: Op, spare: Addr, spurious: bool)

  function Goto(s: State, t: Tid, p: Pc): State {
    s.(pc := s.pc[t := p])
  }

  function Fault(s: State): State {
    s.(fault := true)
  }

  /** Whether `a` still holds the node that had serial number `id`. */
  predicate Live(s: State, a: Addr, id: nat) {
    a in s.heap && s.heap[a].id == id
  }

  function SetNode(s: State, a: Addr, n: Node): State {
    s.(heap := s.heap[a := n])
  }

  // ---------------------------------------------------------------- push

  function DoAlloc(s: State, t: Tid, v: Value, a: Addr): State {
    if a == NULL || a in s.heap then s
    else
      Goto(SetNode(s, a, Node(s.serial, Some(v), 0, Counted(0, NULL), Fresh(t))), t, PushLoad(a, s.serial, v))
      .(serial := s.serial + 1)
  }

  function DoPushLoad(s: State, t: Tid, n: Addr, id: nat, v: Value): State {
    if !Live(s, n, id) then Fault(s)
    else Goto(SetNode(s, n, s.heap[n].(next := s.head)), t, PushCas(n, id, v))
  }

  function DoPushCas(s: State, t: Tid, n: Addr, id: nat, v: Value, spurious: bool): State {
    if !Live(s, n, id) then Fault(s)
    else if s.head == s.heap[n].next && !spurious then
      Goto(SetNode(s, n, s.heap[n].(place := Linked(1))), t, PushRet)
      .(head := Counted(1, n), chain := [n] + s.chain)
    else SetNode(s, n, s.heap[n].(next := s.head))
  }

  // ---------------------------------------------------------------- pop

  function DoPopInc(s: State, t: Tid, seen: Counted): State {
    var head' := Counted(seen.count + 1, seen.ptr);
    if s.head != seen then Goto(s, t, PopInc(s.head))
    else if seen.ptr == NULL then Goto(s, t, PopRet(None)).(head := head')
    else if seen.ptr !in s.heap then Fault(s)
    else
      var n := s.heap[seen.ptr];
      Goto(SetNode(s, seen.ptr, n.(place := Linked(head'.count))), t, PopNext(head', n.id)).(head := head')
  }

  function DoPopNext(s: State, t: Tid, seen: Counted, id: nat): State {
    if !Live(s, seen.ptr, id) then Fault(s)
    else Goto(s, t, PopCas(seen, id, s.heap[seen.ptr].next))
  }

  function DoPopCas(s: State, t: Tid, seen: Counted, id: nat, nx: Counted): State {
    if s.head != seen then Goto(s, t, PopSub(seen.ptr, id, s.head))
    else if seen.ptr !in s.heap then Fault(s)
    else
      Goto(SetNode(s, seen.ptr, s.heap[seen.ptr].(place := Popped(t, seen.count))), t, PopData(seen, id))
      .(head := nx, chain := if s.chain == [] then [] else s.chain[1..])
  }

  function DoPopData(s: State, t: Tid, seen: Counted, id: nat): State {
    if !Live(s, seen.ptr, id) then Fault(s)
    else
      var n := s.heap[seen.ptr];
      Goto(SetNode(s, seen.ptr, n.(data := None)), t, PopAdd(seen, id, n.data))
  }

  function DoPopAdd(s: State, t: Tid, seen: Counted, id: nat, res: Option<Value>): State {
    if !Live(s, seen.ptr, id) then Fault(s)
    else
      var n := s.heap[seen.ptr];
      var increase := seen.count - 2;
      if n.internal == -increase
      then Goto(SetNode(s, seen.ptr, n.(internal := n.internal + increase, place := Doomed(t))), t,
                PopFree(seen.ptr, id, res))
      else Goto(SetNode(s, seen.ptr, n.(internal := n.internal + increase, place := Orphan)), t, PopRet(res))
  }

  function DoPopSub(s: State, t: Tid, p: Addr, id: nat, seen: Counted): State {
    if !Live(s, p, id) then Fault(s)
    else
      var n := s.heap[p];
      if n.internal == 1
      then Goto(SetNode(s, p, n.(internal := n.internal - 1, place := Doomed(t))), t, RetryFree(p, id, seen))
      else Goto(SetNode(s, p, n.(internal := n.internal - 1)), t, PopInc(seen))
  }

  function DoFree(s: State, t: Tid, p: Addr, id: nat, then_: Pc): State {
    if !Live(s, p, id) then Fault(s)
    else Goto(s, t, then_).(heap := s.heap - {p}, freed := s.freed + {id})
  }

  function Step(s: State, t: Tid, c: Choice): State
    requires t in s.pc
  {
    match s.pc[t]
    case Idle => Goto(s, t, if c.op.DoPush? then PushAlloc(c.op.v) else PopLoad)
    case PushAlloc(v) => DoAlloc(s, t, v, c.spare)
    case PushLoad(n, id, v) => DoPushLoad(s, t, n, id, v)
    case PushCas(n, id, v) => DoPushCas(s, t, n, id, v, c.spurious)
    case PushRet => Goto(s, t, Idle)
    case PopLoad => Goto(s, t, PopInc(s.head))
    case PopInc(seen) => DoPopInc(s, t, seen)
    case PopNext(seen, id) => DoPopNext(s, t, seen, id)
    case PopCas(seen, id, nx) => DoPopCas(s, t, seen, id, nx)
    case PopData(seen, id) => DoPopData(s, t, seen, id)
    case PopAdd(seen, id, res) => DoPopAdd(s, t, seen, id, res)
    case PopFree(p, id, res) => DoFree(s, t, p, id, PopRet(res))
    case PopSub(p, id, seen) => DoPopSub(s, t, p, id, seen)
    case RetryFree(p, id, seen) => DoFree(s, t, p, id, PopInc(seen))
    case PopRet(res) => Goto(s, t, Idle)
  }

  /** The event of the sequential object that a step performs. */
  function Event(s: State, t: Tid, c: Choice): Label
    requires t in s.pc
  {
    match s.pc[t]
    case Idle => if c.op.DoPush? then CallPut(t, c.op.v) else CallTake(t)
    case PushCas(n, id, v) =>
      if Live(s, n, id) && s.head == s.heap[n].next && !c.spurious then EffectPut(t) else Silent
    case PushRet => RetPut(t)
    case PopInc(seen) => if s.head == seen && seen.ptr == NULL then EffectTake(t) else Silent
    case PopCas(seen, id, nx) => if s.head == seen then EffectTake(t) else Silent
    case PopRet(res) => RetTake(t, res)
    case _ => Silent
  }

  // ---------------------------------------------------------------- runs

  /** An empty stack: null head, zero counts, no thread inside an operation. */
  function Init(threads: set<Tid>): State {
    State(Counted(0, NULL), map[], map t | t in threads :: Idle, 0, {}, false, [])
  }

  /** A schedule names, for each step, the thread that moves and what the environment decides. */
  type Schedule = seq<(Tid, Choice)>

  function Run(threads: set<Tid>, sched: Schedule): State {
    if sched == [] then Init(threads)
    else
      var s := Run(threads, sched[..|sched| - 1]);
      var (t, c) := sched[|sched| - 1];
      if t in s.pc then Step(s, t, c) else s
  }

  function Trace(threads: set<Tid>, sched: Schedule): seq<Label> {
    if sched == [] then []
    else
      var s := Run(threads, sched[..|sched| - 1]);
      var (t, c) := sched[|sched| - 1];
      Trace(threads, sched[..|sched| - 1]) + [if t in s.pc then Event(s, t, c) else Silent]
  }
}
