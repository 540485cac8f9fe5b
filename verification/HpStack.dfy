/** `lock_free_stack_with_hp`: a lock-free stack whose nodes are reclaimed with hazard pointers.

    The shared memory is the head pointer, a heap of nodes, the global array of hazard slots and the
    global list `nodes_to_reclaim` of heap-allocated reclaim records.  One `Step` executes one atomic
    load, store, exchange or compare-exchange, one allocation or deletion, or one access of a node or
    of a record; a scan of the hazard slots reads one slot per step.  Addresses are reused after
    deletion; serial numbers tell allocations apart, as in `RcStack`, and a thread that follows a
    pointer whose target has been deleted raises `fault`.

    `chain`, `list`, the `place` of nodes and records, and the private lists carried by the program
    counters of sweeping threads are bookkeeping that no step reads.
*/
module HpStack {
  import opened Wrappers
  import opened LinearSpec

  type Addr = nat
  const NULL: Addr := 0
  const MAX_HAZARD_POINTERS: nat := 100

  /** The role of a live node. */
  datatype Place =
    | Fresh(t: Tid)     // allocated by a push of t, not yet linked
    | Linked            // on the stack
    | Popped(t: Tid)    // unlinked by t, which still owns it
    | Retired(r: Addr)  // handed over to reclaim record r

  datatype Node = Node(id: nat, data: Option<Value>, next: Addr, place: Place)

  /** The role of a live reclaim record: on `nodes_to_reclaim`, or private to a thread. */
  datatype RecPlace = Shared | Private(t: Tid)

  datatype Rec = Rec(id: nat, node: Addr, nodeId: nat, next: Addr, place: RecPlace)

  datatype Slot = Slot(owner: Option<Tid>, pointer: Addr)

  datatype Pc =
    | Idle
    | PushAlloc(v: Value)                             // before `new node(data)`
    | PushLoad(n: Addr, id: nat, v: Value)            // before `new_node->next = _head.load()`
    | PushCas(n: Addr, id: nat, v: Value)             // before the compare-exchange of push
    | PushRet
    | Claim(i: nat)                                   // hp_owner: before the compare-exchange on the id of slot i
    | Thrown                                          // no slot was free: runtime_error leaves pop
    | PopLoad                                         // before the first `_head.load()`
    | PopPublish(seen: Addr)                          // before `hp.store(old_head)`
    | PopCheck(seen: Addr)                            // before the `_head.load()` that re-validates
    | PopNext(seen: Addr, id: nat)                    // validated; before reading `old_head->next`
    | PopCas(seen: Addr, id: nat, nx: Addr)           // before the compare-exchange of pop
    | PopClear(seen: Addr, id: nat)                   // before `hp.store(nullptr)`; `seen` may be null
    | PopData(seen: Addr, id: nat)                    // before `res.swap(old_head->data)`
    | PopScan(seen: Addr, id: nat, i: nat, res: Option<Value>)   // before reading hazard slot i
    | PopFree(seen: Addr, id: nat, res: Option<Value>)           // before `delete old_head`
    | Retire(seen: Addr, id: nat, res: Option<Value>)            // before `new data_to_reclaim(data)`
    | AddLoad(r: Addr, rid: nat, next: Addr, mine: seq<Addr>, sweep: bool, res: Option<Value>)
                                                      // add_to_reclaim_list: before `nodes_to_reclaim.load()`;
                                                      // `sweep` says whether the sweep or reclaim_later called it
    | AddCas(r: Addr, rid: nat, next: Addr, mine: seq<Addr>, sweep: bool, res: Option<Value>)
                                                      // before the compare-exchange on nodes_to_reclaim
    | Take(res: Option<Value>)                        // before `nodes_to_reclaim.exchange(nullptr)`
    | SweepNext(next: Addr, mine: seq<Addr>, res: Option<Value>) // `while (current)`, before `current->next`
    | SweepScan(r: Addr, rid: nat, p: Addr, i: nat, next: Addr, mine: seq<Addr>, res: Option<Value>)
                                                      // before reading hazard slot i
    | SweepFree(r: Addr, rid: nat, p: Addr, next: Addr, mine: seq<Addr>, res: Option<Value>)  // before `delete current`
    | PopRet(res: Option<Value>)
    | ExitClear                                       // thread exit: before `_hp->pointer.store(nullptr)`
    | ExitRelease                                     // before `_hp->id.store(std::thread::id())`

  datatype State = State(
    head: Addr,
    heap: map<Addr, Node>,
    slots: seq<Slot>,
    hp: map<Tid, nat>,        // the slot held by the hp_owner of each thread that has one
    rhead: Addr,              // nodes_to_reclaim
    recs: map<Addr, Rec>,
    pc: map<Tid, Pc>,
    serial: nat,
    freed: set<nat>,
    fault: bool,
    chain: seq<Addr>,
    list: seq<Addr>)

  datatype Op = DoPush(v: Value) | DoPop | DoExit

  /** What the environment decides: the operation an idle thread starts, the address `new` returns,
      and whether a weak compare-exchange fails spuriously. */
  datatype Choice = Choice(op: Op, spare: Addr, spurious: bool)

  function Goto(s: State, t: Tid, p: Pc): State {
    s.(pc := s.pc[t := p])
  }

  function Fault(s: State): State {
    s.(fault := true)
  }

  predicate Live(s: State, a: Addr, id: nat) {
    a in s.heap && s.heap[a].id == id
  }

  predicate LiveRec(s: State, r: Addr, id: nat) {
    r in s.recs && s.recs[r].id == id
  }

  /** `hazard_pointers[i].pointer.load() == p` */
  predicate Hazard(s: State, i: nat, p: Addr) {
    i < |s.slots| && s.slots[i].pointer == p
  }

  // ---------------------------------------------------------------- hazard slots

  function DoClaim(s: State, t: Tid, i: nat): State {
    if i < |s.slots| && s.slots[i].owner == None then
      s.(pc := s.pc[t := PopLoad], slots := s.slots[i := s.slots[i].(owner := Some(t))], hp := s.hp[t := i])
    else Goto(s, t, if i + 1 < MAX_HAZARD_POINTERS then Claim(i + 1) else Thrown)
  }

  /** Stores `p` into the hazard slot of `t`. */
  function Publish(s: State, t: Tid, p: Addr, then_: Pc): State {
    if t !in s.hp || |s.slots| <= s.hp[t] then Fault(s)
    else s.(pc := s.pc[t := then_], slots := s.slots[s.hp[t] := s.slots[s.hp[t]].(pointer := p)])
  }

  function DoRelease(s: State, t: Tid): State {
    if t !in s.hp || |s.slots| <= s.hp[t] then Fault(s)
    else s.(pc := s.pc[t := Idle], slots := s.slots[s.hp[t] := s.slots[s.hp[t]].(owner := None)], hp := s.hp - {t})
  }

  // ---------------------------------------------------------------- push

  function DoAlloc(s: State, t: Tid, v: Value, a: Addr): State {
    if a == NULL || a in s.heap then s
    else
      s.(pc := s.pc[t := PushLoad(a, s.serial, v)], heap := s.heap[a := Node(s.serial, Some(v), NULL, Fresh(t))],
         serial := s.serial + 1)
  }

  function DoPushLoad(s: State, t: Tid, n: Addr, id: nat, v: Value): State {
    if !Live(s, n, id) then Fault(s)
    else s.(pc := s.pc[t := PushCas(n, id, v)], heap := s.heap[n := s.heap[n].(next := s.head)])
  }

  function DoPushCas(s: State, t: Tid, n: Addr, id: nat, v: Value, spurious: bool): State {
    if !Live(s, n, id) then Fault(s)
    else if s.head == s.heap[n].next && !spurious then
      s.(pc := s.pc[t := PushRet], heap := s.heap[n := s.heap[n].(place := Linked)], head := n, chain := [n] + s.chain)
    else DoPushLoad(s, t, n, id, v)
  }

  // ---------------------------------------------------------------- pop

  function DoPopCheck(s: State, t: Tid, seen: Addr): State {
    if s.head != seen then Goto(s, t, PopPublish(s.head))
    else if seen == NULL then Goto(s, t, PopClear(NULL, 0))
    else if seen !in s.heap then Fault(s)
    else Goto(s, t, PopNext(seen, s.heap[seen].id))
  }

  function DoPopNext(s: State, t: Tid, seen: Addr, id: nat): State {
    if !Live(s, seen, id) then Fault(s)
    else Goto(s, t, PopCas(seen, id, s.heap[seen].next))
  }

  function DoPopCas(s: State, t: Tid, seen: Addr, id: nat, nx: Addr): State {
    if s.head != seen then Goto(s, t, PopPublish(s.head))
    else if seen !in s.heap then Fault(s)
    else
      s.(pc := s.pc[t := PopClear(seen, id)], heap := s.heap[seen := s.heap[seen].(place := Popped(t))],
         head := nx, chain := if s.chain == [] then [] else s.chain[1..])
  }

  function DoPopData(s: State, t: Tid, seen: Addr, id: nat): State {
    if !Live(s, seen, id) then Fault(s)
    else
      s.(pc := s.pc[t := PopScan(seen, id, 0, s.heap[seen].data)], heap := s.heap[seen := s.heap[seen].(data := None)])
  }

  function DoPopScan(s: State, t: Tid, seen: Addr, id: nat, i: nat, res: Option<Value>): State {
    Goto(s, t,
      if Hazard(s, i, seen) then Retire(seen, id, res)
      else if i + 1 < MAX_HAZARD_POINTERS then PopScan(seen, id, i + 1, res)
      else PopFree(seen, id, res))
  }

  function DoPopFree(s: State, t: Tid, seen: Addr, id: nat, res: Option<Value>): State {
    if !Live(s, seen, id) then Fault(s)
    else s.(pc := s.pc[t := Take(res)], heap := s.heap - {seen}, freed := s.freed + {id})
  }

  // ---------------------------------------------------------------- the reclaim list

  function DoRetire(s: State, t: Tid, seen: Addr, id: nat, res: Option<Value>, r: Addr): State {
    if r == NULL || r in s.recs then s
    else if !Live(s, seen, id) then Fault(s)
    else
      s.(pc := s.pc[t := AddLoad(r, s.serial, NULL, [], false, res)],
         heap := s.heap[seen := s.heap[seen].(place := Retired(r))],
         recs := s.recs[r := Rec(s.serial, seen, id, NULL, Private(t))],
         serial := s.serial + 1)
  }

  function DoAddLoad(s: State, t: Tid, r: Addr, rid: nat, next: Addr, mine: seq<Addr>, sweep: bool,
                     res: Option<Value>): State {
    if !LiveRec(s, r, rid) then Fault(s)
    else s.(pc := s.pc[t := AddCas(r, rid, next, mine, sweep, res)], recs := s.recs[r := s.recs[r].(next := s.rhead)])
  }

  function DoAddCas(s: State, t: Tid, r: Addr, rid: nat, next: Addr, mine: seq<Addr>, sweep: bool,
                    res: Option<Value>): State {
    if !LiveRec(s, r, rid) then Fault(s)
    else if s.rhead == s.recs[r].next then
      s.(pc := s.pc[t := if sweep then SweepNext(next, mine, res) else Take(res)],
         recs := s.recs[r := s.recs[r].(place := Shared)], rhead := r, list := [r] + s.list)
    else DoAddLoad(s, t, r, rid, next, mine, sweep, res)
  }

  function DoTake(s: State, t: Tid, res: Option<Value>): State {
    s.(pc := s.pc[t := SweepNext(s.rhead, s.list, res)], rhead := NULL, list := [],
       recs := map r | r in s.recs :: if r in s.list then s.recs[r].(place := Private(t)) else s.recs[r])
  }

  function DoSweepNext(s: State, t: Tid, next: Addr, mine: seq<Addr>, res: Option<Value>): State {
    if next == NULL then Goto(s, t, PopRet(res))
    else if next !in s.recs then Fault(s)
    else
      var x := s.recs[next];
      Goto(s, t, SweepScan(next, x.id, x.node, 0, x.next, if mine == [] then [] else mine[1..], res))
  }

  function DoSweepScan(s: State, t: Tid, r: Addr, rid: nat, p: Addr, i: nat, next: Addr, mine: seq<Addr>,
                       res: Option<Value>): State {
    Goto(s, t,
      if Hazard(s, i, p) then AddLoad(r, rid, next, mine, true, res)
      else if i + 1 < MAX_HAZARD_POINTERS then SweepScan(r, rid, p, i + 1, next, mine, res)
      else SweepFree(r, rid, p, next, mine, res))
  }

  /** `delete current`: the destructor of the record deletes the node, then the record goes. */
  function DoSweepFree(s: State, t: Tid, r: Addr, rid: nat, p: Addr, next: Addr, mine: seq<Addr>,
                       res: Option<Value>): State {
    if !LiveRec(s, r, rid) || !Live(s, p, s.recs[r].nodeId) then Fault(s)
    else
      s.(pc := s.pc[t := SweepNext(next, mine, res)], heap := s.heap - {p}, recs := s.recs - {r},
         freed := s.freed + {s.heap[p].id, rid})
  }

  function PushStep(s: State, t: Tid, c: Choice): State
    requires t in s.pc
  {
    match s.pc[t]
    case PushAlloc(v) => DoAlloc(s, t, v, c.spare)
    case PushLoad(n, id, v) => DoPushLoad(s, t, n, id, v)
    case PushCas(n, id, v) => DoPushCas(s, t, n, id, v, c.spurious)
    case _ => Goto(s, t, Idle)
  }

  function PopStep(s: State, t: Tid): State
    requires t in s.pc
  {
    match s.pc[t]
    case PopLoad => Goto(s, t, PopPublish(s.head))
    case PopPublish(seen) => Publish(s, t, seen, PopCheck(seen))
    case PopCheck(seen) => DoPopCheck(s, t, seen)
    case PopNext(seen, id) => DoPopNext(s, t, seen, id)
    case PopCas(seen, id, nx) => DoPopCas(s, t, seen, id, nx)
    case PopClear(seen, id) => Publish(s, t, NULL, if seen == NULL then PopRet(None) else PopData(seen, id))
    case PopData(seen, id) => DoPopData(s, t, seen, id)
    case _ => Goto(s, t, Idle)
  }

  function ReclaimStep(s: State, t: Tid, c: Choice): State
    requires t in s.pc
  {
    match s.pc[t]
    case PopScan(seen, id, i, res) => DoPopScan(s, t, seen, id, i, res)
    case PopFree(seen, id, res) => DoPopFree(s, t, seen, id, res)
    case Retire(seen, id, res) => DoRetire(s, t, seen, id, res, c.spare)
    case Take(res) => DoTake(s, t, res)
    case _ => s
  }

  function SweepStep(s: State, t: Tid): State
    requires t in s.pc
  {
    match s.pc[t]
    case AddLoad(r, rid, next, mine, sweep, res) => DoAddLoad(s, t, r, rid, next, mine, sweep, res)
    case AddCas(r, rid, next, mine, sweep, res) => DoAddCas(s, t, r, rid, next, mine, sweep, res)
    case SweepNext(next, mine, res) => DoSweepNext(s, t, next, mine, res)
    case SweepScan(r, rid, p, i, next, mine, res) => DoSweepScan(s, t, r, rid, p, i, next, mine, res)
    case SweepFree(r, rid, p, next, mine, res) => DoSweepFree(s, t, r, rid, p, next, mine, res)
    case _ => s
  }

  function SlotStep(s: State, t: Tid, c: Choice): State
    requires t in s.pc
  {
    match s.pc[t]
    case Idle =>
      if c.op.DoPush? then Goto(s, t, PushAlloc(c.op.v))
      else if c.op.DoPop? then Goto(s, t, if t in s.hp then PopLoad else Claim(0))
      else if t in s.hp then Goto(s, t, ExitClear)
      else s
    case Claim(i) => DoClaim(s, t, i)
    case Thrown => Goto(s, t, Idle)
    case ExitClear => Publish(s, t, NULL, ExitRelease)
    case ExitRelease => DoRelease(s, t)
    case _ => s
  }

  /** One step of thread `t`. */
  function Step(s: State, t: Tid, c: Choice): State
    requires t in s.pc
  {
    match Part(s.pc[t])
    case InPush => PushStep(s, t, c)
    case InPop => PopStep(s, t)
    case InReclaim => ReclaimStep(s, t, c)
    case InSweep => SweepStep(s, t)
    case InSlot => SlotStep(s, t, c)
  }

  /** The part of the code a thread is in. */
  datatype Section = InPush | InPop | InReclaim | InSweep | InSlot

  function Part(p: Pc): Section {
    if p.PushAlloc? || p.PushLoad? || p.PushCas? || p.PushRet? then InPush
    else if p.PopScan? || p.PopFree? || p.Retire? || p.Take? then InReclaim
    else if p.AddLoad? || p.AddCas? || p.SweepNext? || p.SweepScan? || p.SweepFree? then InSweep
    else if p.Idle? || p.Claim? || p.Thrown? || p.ExitClear? || p.ExitRelease? then InSlot
    else InPop
  }

  function Event(s: State, t: Tid, c: Choice): Label
    requires t in s.pc
  {
    match s.pc[t]
    case Idle =>
      (match c.op
       case DoPush(v) => CallPut(t, v)
       case DoPop => CallTake(t)
       case DoExit => Silent)
    case PushCas(n, id, v) =>
      if Live(s, n, id) && s.head == s.heap[n].next && !c.spurious then EffectPut(t) else Silent
    case PushRet => RetPut(t)
    case Thrown => Abandon(t)
    case PopCheck(seen) => if s.head == seen && seen == NULL then EffectTake(t) else Silent
    case PopCas(seen, id, nx) => if s.head == seen then EffectTake(t) else Silent
    case PopRet(res) => RetTake(t, res)
    case _ => Silent
  }

  // ---------------------------------------------------------------- runs

  /** Null head, empty reclaim list, free hazard slots, no thread inside an operation. */
  function Init(threads: set<Tid>): State {
    State(NULL, map[], seq(MAX_HAZARD_POINTERS, _ => Slot(None, NULL)), map[], NULL, map[],
          map t | t in threads :: Idle, 0, {}, false, [], [])
  }

  type Schedule = seq<(Tid, Choice)>

  function Run(threads: set<Tid>, sched: Schedule): State {
    if sched == [] then Init(threads)
    else
      var s := Run(threads, sched[..|sched| - 1]);
      var (t, c) := sched[|sched| - 1];
      if t in s.pc then Step(s, t, c) else s
  }

  function Trace(threads: set<Tid>, sched: Schedule): seq<Label> {
    if sched == [] then []
    else
      var s := Run(threads, sched[..|sched| - 1]);
      var (t, c) := sched[|sched| - 1];
      Trace(threads, sched[..|sched| - 1]) + [if t in s.pc then Event(s, t, c) else Silent]
  }
}
