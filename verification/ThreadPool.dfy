/** The helping thread pool and the parallel quicksort that runs on it.

    `do_sort` submits the lower half of its chunk as a task, sorts the higher half by a recursive call,
    and then waits for the task; while it waits it runs other pending tasks on its own stack.  A state
    holds one stack of `do_sort` activations per thread (thread 0 called `parallel_quick_sort_using_tp`,
    the others are the workers), the table of all tasks ever submitted, the global queue and, for the
    threads that have one, the local queue.  One `Step` is one queue operation together with the
    thread-local work around it, one poll of a future, or one return.

    The pool's queues are taken to be the linearizable FIFO queues that `TwoLockQueue` shows them to be.
    `want`, `start`, `born`, `owner` and `depth` are bookkeeping that no step reads.
*/
module ThreadPool {
  import opened Wrappers

  type Tid = nat

  /** List elements are compared by `key` alone, so distinct elements may be equivalent. */
  datatype Elem = Elem(key: int, tag: int)

  datatype Status =
    | Pending
    | Running(t: Tid, level: nat)  // the activation at this level of the stack of t runs it
    | Done(result: seq<Elem>)

  /** A submitted `do_sort(input)`; task 0 stands for the call made by thread 0. */
  datatype Task = Task(input: seq<Elem>, status: Status, born: nat, owner: Tid, depth: nat)

  datatype At =
    | Entry(chunk: seq<Elem>)
    | InHigher(pivot: Elem, lower: nat)         // `do_sort(chunk)` for the higher half is on top
    | Waiting(rest: seq<Elem>, lower: nat)      // before `new_lower.wait_for(0)`
    | Helping(rest: seq<Elem>, lower: nat)      // timed out: before `run_pending_task`

  datatype Kind = Body(task: nat) | Inner

  datatype Frame = Frame(kind: Kind, want: seq<Elem>, start: nat, at: At)

  datatype State = State(
    stacks: seq<seq<Frame>>,
    tasks: seq<Task>,
    global: seq<nat>,
    locals: seq<Option<seq<nat>>>,
    clock: nat,
    done: bool)

  /** The order in which `std::partition` leaves the two halves. */
  datatype Choice = Choice(lower: seq<Elem>, higher: seq<Elem>)

  // ---------------------------------------------------------------- partition

  /** `lower` and `higher` divide `s` at `pivot`. */
  ghost predicate Divides(s: seq<Elem>, pivot: Elem, lower: seq<Elem>, higher: seq<Elem>) {
    && multiset(lower) + multiset(higher) == multiset(s)
    && (forall x :: x in lower ==> x.key < pivot.key)
    && (forall x :: x in higher ==> pivot.key <= x.key)
  }

  function Below(s: seq<Elem>, pivot: Elem): seq<Elem> {
    if s == [] then [] else (if s[0].key < pivot.key then [s[0]] else []) + Below(s[1..], pivot)
  }

  function NotBelow(s: seq<Elem>, pivot: Elem): seq<Elem> {
    if s == [] then [] else (if s[0].key < pivot.key then [] else [s[0]]) + NotBelow(s[1..], pivot)
  }

  lemma {:induction false} StableDivides(s: seq<Elem>, pivot: Elem)
    ensures Divides(s, pivot, Below(s, pivot), NotBelow(s, pivot))
  {
    if s != [] {
      StableDivides(s[1..], pivot);
      assert s == [s[0]] + s[1..];
    }
  }

  /** Any division of the elements may come out of `std::partition`. */
  ghost function Partition(s: seq<Elem>, pivot: Elem, c: Choice): (r: (seq<Elem>, seq<Elem>))
    ensures Divides(s, pivot, r.0, r.1)
  {
    StableDivides(s, pivot);
    if Divides(s, pivot, c.lower, c.higher) then (c.lower, c.higher) else (Below(s, pivot), NotBelow(s, pivot))
  }

  // ---------------------------------------------------------------- steps

  predicate Valid(s: State, t: Tid) {
    t < |s.stacks| && t < |s.locals|
  }

  function Top(st: seq<Frame>): Frame
    requires st != []
  {
    st[|st| - 1]
  }

  function Under(st: seq<Frame>): seq<Frame> {
    if st == [] then [] else st[..|st| - 1]
  }

  /** `submit` of a task by thread `t`. */
  function Submit(s: State, t: Tid, k: nat): State
    requires Valid(s, t)
  {
    match s.locals[t]
    case Some(q) => s.(locals := s.locals[t := Some(q + [k])])
    case None => s.(global := s.global + [k])
  }

  /** The first statement of `do_sort` up to the recursive call. */
  ghost function DoSplit(s: State, t: Tid, c: Choice): State
    requires Valid(s, t) && s.stacks[t] != [] && Top(s.stacks[t]).at.Entry? && Top(s.stacks[t]).at.chunk != []
  {
    var st, f := s.stacks[t], Top(s.stacks[t]);
    var pivot := f.at.chunk[0];
    var (lower, higher) := Partition(f.at.chunk[1..], pivot, c);
    var k := |s.tasks|;
    Submit(s, t, k)
    .(stacks := s.stacks[t := Under(st) + [f.(at := InHigher(pivot, k)), Frame(Inner, higher, s.clock, Entry(higher))]],
      tasks := s.tasks + [Task(lower, Pending, s.clock, t, |st| - 1)],
      clock := s.clock + 1)
  }

  /** The task that `run_pending_task` would take on thread `t`. */
  function Next(s: State, t: Tid): Option<nat>
    requires Valid(s, t)
  {
    if s.locals[t].Some? && s.locals[t].value != [] then Some(s.locals[t].value[0])
    else if s.global != [] then Some(s.global[0])
    else None
  }

  function Dequeue(s: State, t: Tid): State
    requires Valid(s, t) && Next(s, t).Some?
  {
    if s.locals[t].Some? && s.locals[t].value != [] then s.(locals := s.locals[t := Some(s.locals[t].value[1..])])
    else s.(global := s.global[1..])
  }

  /** The stack of a thread about to run a task: a helping activation will poll its future again afterwards. */
  function Resumed(st: seq<Frame>): seq<Frame> {
    if st != [] && Top(st).at.Helping?
    then Under(st) + [Top(st).(at := Waiting(Top(st).at.rest, Top(st).at.lower))] else st
  }

  /** `run_pending_task`; without a task to run it only yields. */
  function DoRunPending(s: State, t: Tid): State
    requires Valid(s, t)
  {
    var st := Resumed(s.stacks[t]);
    match Next(s, t)
    case None => s.(stacks := s.stacks[t := st])
    case Some(k) =>
      if |s.tasks| <= k then s
      else
        Dequeue(s, t)
        .(stacks := s.stacks[t := st + [Frame(Body(k), s.tasks[k].input, s.clock, Entry(s.tasks[k].input))]],
          tasks := s.tasks[k := s.tasks[k].(status := Running(t, |st|))],
          clock := s.clock + 1)
  }

  /** The top activation returns `r`: to its caller, or into the future of its task. */
  function DoReturn(s: State, t: Tid, r: seq<Elem>): State
    requires Valid(s, t) && s.stacks[t] != []
  {
    var st := s.stacks[t];
    match Top(st).kind
    case Body(k) =>
      if |s.tasks| <= k then s
      else s.(stacks := s.stacks[t := Under(st)], tasks := s.tasks[k := s.tasks[k].(status := Done(r))])
    case Inner =>
      var rest := Under(st);
      if rest == [] || !Top(rest).at.InHigher? then s
      else
        var g := Top(rest);
        s.(stacks := s.stacks[t := Under(rest) + [g.(at := Waiting([g.at.pivot] + r, g.at.lower))]])
  }

  predicate IsDone(s: State, k: nat) {
    k < |s.tasks| && s.tasks[k].status.Done?
  }

  function DoPoll(s: State, t: Tid): State
    requires Valid(s, t) && s.stacks[t] != [] && Top(s.stacks[t]).at.Waiting?
  {
    var st, f := s.stacks[t], Top(s.stacks[t]);
    if IsDone(s, f.at.lower) then DoReturn(s, t, s.tasks[f.at.lower].status.result + f.at.rest)
    else s.(stacks := s.stacks[t := Under(st) + [f.(at := Helping(f.at.rest, f.at.lower))]])
  }

  /** One step of thread `t`.  When its call has returned, thread 0 destroys the pool, which makes the
      idle workers stop. */
  ghost function Step(s: State, t: Tid, c: Choice): State
    requires Valid(s, t)
  {
    if s.stacks[t] == [] then
      if t == 0 then s.(done := true) else if s.done then s else DoRunPending(s, t)
    else
      match Top(s.stacks[t]).at
      case Entry(chunk) => if chunk == [] then DoReturn(s, t, []) else DoSplit(s, t, c)
      case InHigher(_, _) => s
      case Waiting(_, _) => DoPoll(s, t)
      case Helping(_, _) => DoRunPending(s, t)
  }

  // ---------------------------------------------------------------- runs

  /** Thread 0 has called `do_sort(input)`; the other threads are idle workers.  `local` says which
      threads have a local queue. */
  function Init(input: seq<Elem>, local: seq<bool>): State
    requires local != []
  {
    State([[Frame(Body(0), input, 0, Entry(input))]] + seq(|local| - 1, _ => []),
          [Task(input, Running(0, 0), 0, 0, 0)],
          [],
          seq(|local|, i requires 0 <= i < |local| => if local[i] then Some([]) else None),
          1, false)
  }

  type Schedule = seq<(Tid, Choice)>

  ghost function Run(input: seq<Elem>, local: seq<bool>, sched: Schedule): State
    requires local != []
  {
    if sched == [] then Init(input, local)
    else
      var s := Run(input, local, sched[..|sched| - 1]);
      var (t, c) := sched[|sched| - 1];
      if Valid(s, t) then Step(s, t, c) else s
  }
}
