/** `lock_free_stack`: a lock-free stack that reclaims nodes by counting the threads inside pop.

    The shared memory is the head pointer, the counter `_threads_in_pop`, the list `_to_be_deleted` of
    unlinked nodes (linked through the same `next` fields as the stack) and a heap of nodes.  One
    `Step` executes one atomic load, exchange, compare-exchange, increment or decrement, one
    allocation or deletion, or one access of a node.  Addresses are reused after deletion; serial
    numbers tell allocations apart, and `fault` is raised by a step that reaches a deleted node.

    `try_reclaim` chains its argument without testing it, so an empty pop that finds another thread
    in pop dereferences a null pointer.  That step raises `crash`, which ends the run.

    `chain`, `pending`, the `place` of a node and the private lists `mine` are bookkeeping that no
    step reads.
*/
module CountStack {
  import opened Wrappers
  import opened LinearSpec

  type Addr = nat
  const NULL: Addr := 0

  /** The role of a live node. */
  datatype Place =
    | Fresh(t: Tid)  // allocated by a push of t, not yet linked
    | Linked         // on the stack
    | Pending        // on `_to_be_deleted`
    | Owned(t: Tid)  // unlinked by t, or on the list of nodes that t has taken from `_to_be_deleted`

  datatype Node = Node(id: nat, data: Option<Value>, next: Addr, place: Place)

  /** Where a thread is inside `try_reclaim(old_head)`. */
  datatype Stage =
    | Check                                                       // before `1 == _threads_in_pop`
    | TakeList                                                    // before `_to_be_deleted.exchange(nullptr)`
    | Leave(first: Addr, mine: seq<Addr>)                         // before `--_threads_in_pop`, seen alone
    | DelNext(first: Addr, mine: seq<Addr>)                       // delete_nodes: before `nodes->next`
    | DelFree(first: Addr, cid: nat, next: Addr, mine: seq<Addr>) // delete_nodes: before `delete nodes`
    | Walk(first: Addr, last: Addr, mine: seq<Addr>)              // rechain: before `last->next`
    | ChainLoad(first: Addr, last: Addr, mine: seq<Addr>)         // before `last->next = _to_be_deleted`
    | ChainCas(first: Addr, last: Addr, mine: seq<Addr>)          // before the compare-exchange
    | FreeOld                                                     // before `delete old_head`
    | ShareLoad                                                   // shared: before `old_head->next = _to_be_deleted`
    | ShareCas                                                    // shared: before the compare-exchange
    | ShareLeave                                                  // shared: before `--_threads_in_pop`

  datatype Pc =
    | Idle
    | PushAlloc(v: Value)                   // before `new node(data)`
    | PushLoad(n: Addr, id: nat, v: Value)  // before `new_node->next = _head.load()`
    | PushCas(n: Addr, id: nat, v: Value)   // before the compare-exchange of push
    | PushRet
    | PopEnter                              // before `++_threads_in_pop`
    | PopLoad                               // before `_head.load()`
    | PopNext(seen: Addr, id: nat)          // before reading `old_head->next`
    | PopCas(seen: Addr, id: nat, nx: Addr) // before the compare-exchange of pop
    | PopData(seen: Addr, id: nat)          // before `res.swap(old_head->data)`
    | Reclaim(old_head: Addr, oid: nat, res: Option<Value>, at: Stage)
    | PopRet(res: Option<Value>)

  datatype State = State(
    head: Addr,
    heap: map<Addr, Node>,
    tip: int,             // _threads_in_pop
    tbd: Addr,            // _to_be_deleted
    pc: map<Tid, Pc>,
    serial: nat,
    freed: set<nat>,
    fault: bool,
    crash: bool,
    chain: seq<Addr>,
    pending: seq<Addr>)

  datatype Op = DoPush(v: Value) | DoPop

  /** What the environment decides: the operation an idle thread calls, the address `new` returns,
      and whether a weak compare-exchange fails spuriously. */
  datatype Choice = Choice(op: Op, spare: Addr, spurious: bool)

  function Goto(s: State, t: Tid, p: Pc): State {
    s.(pc := s.pc[t := p])
  }

  function Fault(s: State): State {
    s.(fault := true)
  }

  predicate Live(s: State, a: Addr, id: nat) {
    a in s.heap && s.heap[a].id == id
  }

  /** The nodes of `m` take the role `p`. */
  function Replace(heap: map<Addr, Node>, m: seq<Addr>, p: Place): map<Addr, Node> {
    map a | a in heap :: if a in m then heap[a].(place := p) else heap[a]
  }

  function Rest(m: seq<Addr>): seq<Addr> {
    if m == [] then [] else m[1..]
  }

  // ---------------------------------------------------------------- push

  function DoAlloc(s: State, t: Tid, v: Value, a: Addr): State {
    if a == NULL || a in s.heap then s
    else
      s.(pc := s.pc[t := PushLoad(a, s.serial, v)], heap := s.heap[a := Node(s.serial, Some(v), NULL, Fresh(t))],
         serial := s.serial + 1)
  }

  function DoPushLoad(s: State, t: Tid, n: Addr, id: nat, v: Value): State {
    if !Live(s, n, id) then Fault(s)
    else s.(pc := s.pc[t := PushCas(n, id, v)], heap := s.heap[n := s.heap[n].(next := s.head)])
  }

  function DoPushCas(s: State, t: Tid, n: Addr, id: nat, v: Value, spurious: bool): State {
    if !Live(s, n, id) then Fault(s)
    else if s.head == s.heap[n].next && !spurious then
      s.(pc := s.pc[t := PushRet], heap := s.heap[n := s.heap[n].(place := Linked)], head := n, chain := [n] + s.chain)
    else DoPushLoad(s, t, n, id, v)
  }

  // ---------------------------------------------------------------- pop

  function DoEnter(s: State, t: Tid): State {
    s.(pc := s.pc[t := PopLoad], tip := s.tip + 1)
  }

  /** `old_head` becomes the current head; the loop of pop goes on unless it is null. */
  function Arrive(s: State, t: Tid): State {
    if s.head == NULL then Goto(s, t, Reclaim(NULL, 0, None, Check))
    else if s.head !in s.heap then Fault(s)
    else Goto(s, t, PopNext(s.head, s.heap[s.head].id))
  }

  function DoPopNext(s: State, t: Tid, seen: Addr, id: nat): State {
    if !Live(s, seen, id) then Fault(s)
    else Goto(s, t, PopCas(seen, id, s.heap[seen].next))
  }

  function DoPopCas(s: State, t: Tid, seen: Addr, id: nat, nx: Addr, spurious: bool): State {
    if s.head != seen || spurious then Arrive(s, t)
    else if seen !in s.heap then Fault(s)
    else
      s.(pc := s.pc[t := PopData(seen, id)], heap := s.heap[seen := s.heap[seen].(place := Owned(t))],
         head := nx, chain := Rest(s.chain))
  }

  function DoPopData(s: State, t: Tid, seen: Addr, id: nat): State {
    if !Live(s, seen, id) then Fault(s)
    else
      s.(pc := s.pc[t := Reclaim(seen, id, s.heap[seen].data, Check)],
         heap := s.heap[seen := s.heap[seen].(data := None)])
  }

  // ---------------------------------------------------------------- try_reclaim

  function DoTakeList(s: State, t: Tid, a: Addr, id: nat, res: Option<Value>): State {
    s.(pc := s.pc[t := Reclaim(a, id, res, Leave(s.tbd, s.pending))],
       heap := Replace(s.heap, s.pending, Owned(t)), tbd := NULL, pending := [])
  }

  function DoLeave(s: State, t: Tid, a: Addr, id: nat, res: Option<Value>, first: Addr, mine: seq<Addr>): State {
    s.(pc := s.pc[t := Reclaim(a, id, res,
                               if s.tip - 1 == 0 then DelNext(first, mine)
                               else if first != NULL then Walk(first, first, mine)
                               else FreeOld)],
       tip := s.tip - 1)
  }

  function DoDelNext(s: State, t: Tid, a: Addr, id: nat, res: Option<Value>, first: Addr, mine: seq<Addr>): State {
    if first == NULL then Goto(s, t, Reclaim(a, id, res, FreeOld))
    else if first !in s.heap then Fault(s)
    else Goto(s, t, Reclaim(a, id, res, DelFree(first, s.heap[first].id, s.heap[first].next, mine)))
  }

  function DoDelFree(s: State, t: Tid, a: Addr, id: nat, res: Option<Value>, first: Addr, cid: nat, next: Addr,
                     mine: seq<Addr>): State {
    if !Live(s, first, cid) then Fault(s)
    else
      s.(pc := s.pc[t := Reclaim(a, id, res, DelNext(next, Rest(mine)))],
         heap := s.heap - {first}, freed := s.freed + {cid})
  }

  function DoWalk(s: State, t: Tid, a: Addr, id: nat, res: Option<Value>, first: Addr, last: Addr,
                  mine: seq<Addr>): State {
    if last !in s.heap then Fault(s)
    else
      var next := s.heap[last].next;
      Goto(s, t, Reclaim(a, id, res, if next == NULL then ChainLoad(first, last, mine) else Walk(first, next, mine)))
  }

  function DoChainLoad(s: State, t: Tid, a: Addr, id: nat, res: Option<Value>, first: Addr, last: Addr,
                       mine: seq<Addr>): State {
    if last !in s.heap then Fault(s)
    else
      s.(pc := s.pc[t := Reclaim(a, id, res, ChainCas(first, last, mine))],
         heap := s.heap[last := s.heap[last].(next := s.tbd)])
  }

  function DoChainCas(s: State, t: Tid, a: Addr, id: nat, res: Option<Value>, first: Addr, last: Addr, mine: seq<Addr>,
                      spurious: bool): State {
    if last !in s.heap then Fault(s)
    else if s.tbd == s.heap[last].next && !spurious then
      s.(pc := s.pc[t := Reclaim(a, id, res, FreeOld)],
         heap := Replace(s.heap, mine, Pending), tbd := first, pending := mine + s.pending)
    else DoChainLoad(s, t, a, id, res, first, last, mine)
  }

  function DoFreeOld(s: State, t: Tid, a: Addr, id: nat, res: Option<Value>): State {
    if a == NULL then Goto(s, t, PopRet(res))
    else if !Live(s, a, id) then Fault(s)
    else s.(pc := s.pc[t := PopRet(res)], heap := s.heap - {a}, freed := s.freed + {id})
  }

  function DoShareLoad(s: State, t: Tid, a: Addr, id: nat, res: Option<Value>): State {
    if a == NULL then s.(crash := true)
    else if !Live(s, a, id) then Fault(s)
    else
      s.(pc := s.pc[t := Reclaim(a, id, res, ShareCas)], heap := s.heap[a := s.heap[a].(next := s.tbd)])
  }

  function DoShareCas(s: State, t: Tid, a: Addr, id: nat, res: Option<Value>, spurious: bool): State {
    if !Live(s, a, id) then Fault(s)
    else if s.tbd == s.heap[a].next && !spurious then
      s.(pc := s.pc[t := Reclaim(NULL, 0, res, ShareLeave)],
         heap := s.heap[a := s.heap[a].(place := Pending)], tbd := a, pending := [a] + s.pending)
    else DoShareLoad(s, t, a, id, res)
  }

  function DoShareLeave(s: State, t: Tid, res: Option<Value>): State {
    s.(pc := s.pc[t := PopRet(res)], tip := s.tip - 1)
  }

  function ReclaimStep(s: State, t: Tid, c: Choice): State
    requires t in s.pc && s.pc[t].Reclaim?
  {
    var a, id, res := s.pc[t].old_head, s.pc[t].oid, s.pc[t].res;
    match s.pc[t].at
    case Check => Goto(s, t, Reclaim(a, id, res, if s.tip == 1 then TakeList else ShareLoad))
    case TakeList => DoTakeList(s, t, a, id, res)
    case Leave(first, mine) => DoLeave(s, t, a, id, res, first, mine)
    case DelNext(first, mine) => DoDelNext(s, t, a, id, res, first, mine)
    case DelFree(first, cid, next, mine) => DoDelFree(s, t, a, id, res, first, cid, next, mine)
    case Walk(first, last, mine) => DoWalk(s, t, a, id, res, first, last, mine)
    case ChainLoad(first, last, mine) => DoChainLoad(s, t, a, id, res, first, last, mine)
    case ChainCas(first, last, mine) => DoChainCas(s, t, a, id, res, first, last, mine, c.spurious)
    case FreeOld => DoFreeOld(s, t, a, id, res)
    case ShareLoad => DoShareLoad(s, t, a, id, res)
    case ShareCas => DoShareCas(s, t, a, id, res, c.spurious)
    case ShareLeave => DoShareLeave(s, t, res)
  }

  /** One step of thread `t`; nothing happens after a crash. */
  function Step(s: State, t: Tid, c: Choice): State
    requires t in s.pc
  {
    if s.crash then s
    else
      match s.pc[t]
      case Idle => Goto(s, t, if c.op.DoPush? then PushAlloc(c.op.v) else PopEnter)
      case PushAlloc(v) => DoAlloc(s, t, v, c.spare)
      case PushLoad(n, id, v) => DoPushLoad(s, t, n, id, v)
      case PushCas(n, id, v) => DoPushCas(s, t, n, id, v, c.spurious)
      case PushRet => Goto(s, t, Idle)
      case PopEnter => DoEnter(s, t)
      case PopLoad => Arrive(s, t)
      case PopNext(seen, id) => DoPopNext(s, t, seen, id)
      case PopCas(seen, id, nx) => DoPopCas(s, t, seen, id, nx, c.spurious)
      case PopData(seen, id) => DoPopData(s, t, seen, id)
      case Reclaim(_, _, _, _) => ReclaimStep(s, t, c)
      case PopRet(res) => Goto(s, t, Idle)
  }

  /** The event of the sequential object that a step performs. */
  function Event(s: State, t: Tid, c: Choice): Label
    requires t in s.pc
  {
    if s.crash then Silent
    else
      match s.pc[t]
      case Idle => if c.op.DoPush? then CallPut(t, c.op.v) else CallTake(t)
      case PushCas(n, id, v) =>
        if Live(s, n, id) && s.head == s.heap[n].next && !c.spurious then EffectPut(t) else Silent
      case PushRet => RetPut(t)
      case PopLoad => if s.head == NULL then EffectTake(t) else Silent
      case PopCas(seen, id, nx) => if s.head == NULL || (s.head == seen && !c.spurious) then EffectTake(t) else Silent
      case PopRet(res) => RetTake(t, res)
      case _ => Silent
  }

  // ---------------------------------------------------------------- runs

  /** Null pointers, zero counter, no thread inside an operation. */
  function Init(threads: set<Tid>): State {
    State(NULL, map[], 0, NULL, map t | t in threads :: Idle, 0, {}, false, false, [], [])
  }

  type Schedule = seq<(Tid, Choice)>

  function Run(threads: set<Tid>, sched: Schedule): State {
    if sched == [] then Init(threads)
    else
      var s := Run(threads, sched[..|sched| - 1]);
      var (t, c) := sched[|sched| - 1];
      if t in s.pc then Step(s, t, c) else s
  }

  function Trace(threads: set<Tid>, sched: Schedule): seq<Label> {
    if sched == [] then []
    else
      var s := Run(threads, sched[..|sched| - 1]);
      var (t, c) := sched[|sched| - 1];
      Trace(threads, sched[..|sched| - 1]) + [if t in s.pc then Event(s, t, c) else Silent]
  }
}
