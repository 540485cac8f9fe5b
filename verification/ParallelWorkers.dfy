/** The workers of `parallel_for_each` and of `parallel_accumulate`, stepping in any order. */
module ParallelWorkers {
  import opened Wrappers
  import opened ParallelFold

  /** The position a worker has reached in its block, and the element it has read there, if any. */
  datatype Worker<T> = Worker(pos: nat, loaded: Option<T>)

  datatype State<T> = State(data: seq<T>, workers: seq<Worker<T>>)

  function Init<T>(data: seq<T>, hardware: nat): State<T>
    requires data != []
  {
    Positive(|data|, hardware);
    State(data, seq(NumThreads(|data|, hardware), i requires 0 <= i => Worker(BlockStart(|data|, hardware, i), None)))
  }

  /** Worker `i` reads its next element, or writes the result of `f` for the one it has read. */
  function Step<T>(f: T -> T, hardware: nat, s: State<T>, i: nat): State<T>
    requires s.data != []
  {
    Positive(|s.data|, hardware);
    if |s.workers| <= i || |s.data| <= s.workers[i].pos || BlockStart(|s.data|, hardware, i + 1) <= s.workers[i].pos
        then s
    else
      var w := s.workers[i];
      match w.loaded
      case None => s.(workers := s.workers[i := w.(loaded := Some(s.data[w.pos]))])
      case Some(x) => State(s.data[w.pos := f(x)], s.workers[i := Worker(w.pos + 1, None)])
  }

  function Run<T>(f: T -> T, hardware: nat, data: seq<T>, order: seq<nat>): (s: State<T>)
    requires data != []
    ensures |s.data| == |data|
  {
    if order == [] then Init(data, hardware)
    else Step(f, hardware, Run(f, hardware, data, order[..|order| - 1]), order[|order| - 1])
  }

  ghost predicate WorkerInv<T(!new)>(f: T -> T, hardware: nat, data: seq<T>, s: State<T>, i: nat)
    requires data != [] && |s.data| == |data| && i < |s.workers| == NumThreads(|data|, hardware)
  {
    var w, n := s.workers[i], |data|;
    && BlockStart(n, hardware, i) <= w.pos <= BlockStart(n, hardware, i + 1) <= n
    && (w.loaded.Some? ==> w.pos < BlockStart(n, hardware, i + 1) && w.loaded.value == data[w.pos])
    && (forall k :: BlockStart(n, hardware, i) <= k < BlockStart(n, hardware, i + 1) ==>
          s.data[k] == if k < w.pos then f(data[k]) else data[k])
  }

  ghost predicate Inv<T(!new)>(f: T -> T, hardware: nat, data: seq<T>, s: State<T>) {
    && data != [] && |s.data| == |data| && |s.workers| == NumThreads(|data|, hardware)
    && forall i {:trigger WorkerInv(f, hardware, data, s, i)} :: 0 <= i < |s.workers| ==>
          WorkerInv(f, hardware, data, s, i)
  }

  lemma InitInv<T(!new)>(f: T -> T, hardware: nat, data: seq<T>)
    requires data != []
    ensures Inv(f, hardware, data, Init(data, hardware))
  {
    var s := Init(data, hardware);
    forall i {:trigger WorkerInv(f, hardware, data, s, i)} | 0 <= i < |s.workers|
      ensures WorkerInv(f, hardware, data, s, i)
    {
      BlocksNonEmpty(|data|, hardware, i);
    }
  }

  /** A step of worker `i` stays inside its block, so it does not disturb worker `j`. */
  lemma OtherWorker<T(!new)>(f: T -> T, hardware: nat, data: seq<T>, s: State<T>, i: nat, j: nat)
    requires Inv(f, hardware, data, s) && i < |s.workers| && j < |s.workers| && i != j
    ensures |Step(f, hardware, s, i).workers| == |s.workers| && WorkerInv(f, hardware, data, Step(f, hardware, s, i), j)
  {
    assert WorkerInv(f, hardware, data, s, i);
    assert WorkerInv(f, hardware, data, s, j);
    if i < j {
      StartsMonotone(|data|, hardware, i + 1, j);
    } else {
      StartsMonotone(|data|, hardware, j + 1, i);
    }
  }

  lemma StepInv<T(!new)>(f: T -> T, hardware: nat, data: seq<T>, s: State<T>, i: nat)
    requires Inv(f, hardware, data, s)
    ensures Inv(f, hardware, data, Step(f, hardware, s, i))
  {
    var s' := Step(f, hardware, s, i);
    if i < |s.workers| {
      forall j {:trigger WorkerInv(f, hardware, data, s', j)} | 0 <= j < |s'.workers|
        ensures WorkerInv(f, hardware, data, s', j)
      {
        assert WorkerInv(f, hardware, data, s, j);
        if j != i {
          OtherWorker(f, hardware, data, s, i, j);
        }
      }
    }
  }

  lemma {:induction false} RunInv<T(!new)>(f: T -> T, hardware: nat, data: seq<T>, order: seq<nat>)
    requires data != []
    ensures Inv(f, hardware, data, Run(f, hardware, data, order))
  {
    if order == [] {
      InitInv(f, hardware, data);
    } else {
      RunInv(f, hardware, data, order[..|order| - 1]);
      StepInv(f, hardware, data, Run(f, hardware, data, order[..|order| - 1]), order[|order| - 1]);
    }
  }

  /** Every worker has come to the end of its block. */
  ghost predicate AllDone<T>(hardware: nat, s: State<T>)
    requires s.data != []
  {
    Positive(|s.data|, hardware);
    forall i :: 0 <= i < |s.workers| ==> BlockStart(|s.data|, hardware, i + 1) <= s.workers[i].pos
  }

  /** Under every interleaving of the workers, the result is the sequential map. */
  lemma WorkersMap<T(!new)>(f: T -> T, hardware: nat, data: seq<T>, order: seq<nat>)
    requires data != [] && AllDone(hardware, Run(f, hardware, data, order))
    ensures var r := Run(f, hardware, data, order).data;
      |r| == |data| && forall k :: 0 <= k < |data| ==> r[k] == f(data[k])
  {
    var s := Run(f, hardware, data, order);
    RunInv(f, hardware, data, order);
    Positive(|data|, hardware);
    forall k | 0 <= k < |data| ensures s.data[k] == f(data[k]) {
      var i := FindBlock(|data|, hardware, k, NumThreads(|data|, hardware));
      assert WorkerInv(f, hardware, data, s, i);
    }
  }

  /** The number of accesses that worker `i` still has to make. */
  function Left<T>(hardware: nat, s: State<T>, i: nat): int
    requires s.data != [] && i < |s.workers|
  {
    Positive(|s.data|, hardware);
    2 * (BlockStart(|s.data|, hardware, i + 1) - s.workers[i].pos) - if s.workers[i].loaded.Some? then 1 else 0
  }

  /** No worker can be held up: each step of one that is not done is one access less, and takes nothing
      from the others. */
  lemma WorkerAdvances<T(!new)>(f: T -> T, hardware: nat, data: seq<T>, order: seq<nat>, i: nat)
    requires data != [] && i < NumThreads(|data|, hardware)
    ensures var s := Run(f, hardware, data, order); var s' := Run(f, hardware, data, order + [i]);
      && |s.workers| == |s'.workers| == NumThreads(|data|, hardware)
      && 0 <= Left(hardware, s, i)
      && Left(hardware, s', i) == (if Left(hardware, s, i) == 0 then 0 else Left(hardware, s, i) - 1)
      && forall j :: 0 <= j < |s.workers| && j != i ==> s'.workers[j] == s.workers[j]
  {
    assert (order + [i])[..|order|] == order;
    RunInv(f, hardware, data, order);
    StepAdvances(f, hardware, data, Run(f, hardware, data, order), i);
  }

  lemma StepAdvances<T(!new)>(f: T -> T, hardware: nat, data: seq<T>, s: State<T>, i: nat)
    requires data != [] && Inv(f, hardware, data, s) && i < |s.workers|
    ensures var s' := Step(f, hardware, s, i);
      && s'.data != [] && |s.workers| == |s'.workers| && 0 <= Left(hardware, s, i)
      && Left(hardware, s', i) == (if Left(hardware, s, i) == 0 then 0 else Left(hardware, s, i) - 1)
      && forall j :: 0 <= j < |s.workers| && j != i ==> s'.workers[j] == s.workers[j]
  {
    StepInv(f, hardware, data, s, i);
    assert WorkerInv(f, hardware, data, s, i);
  }

  // ---------------------------------------------------------------- the workers of parallel_accumulate

  /** Position and partial sum of each worker; the range itself is only read. */
  datatype Partial<T> = Partial(pos: nat, sum: T)

  function AccStep<T>(plus: (T, T) -> T, data: seq<T>, hardware: nat, ws: seq<Partial<T>>, i: nat): seq<Partial<T>>
    requires data != []
  {
    Positive(|data|, hardware);
    if |ws| <= i || |data| <= ws[i].pos || BlockStart(|data|, hardware, i + 1) <= ws[i].pos then ws
    else ws[i := Partial(ws[i].pos + 1, plus(ws[i].sum, data[ws[i].pos]))]
  }

  function AccRun<T>(plus: (T, T) -> T, zero: T, data: seq<T>, hardware: nat, order: seq<nat>): seq<Partial<T>>
    requires data != []
  {
    Positive(|data|, hardware);
    if order == [] then seq(NumThreads(|data|, hardware),
                            i requires 0 <= i => Partial(BlockStart(|data|, hardware, i), zero))
    else AccStep(plus, data, hardware, AccRun(plus, zero, data, hardware, order[..|order| - 1]), order[|order| - 1])
  }

  ghost predicate PartialInv<T>(plus: (T, T) -> T, zero: T, data: seq<T>, hardware: nat, ws: seq<Partial<T>>, i: nat)
    requires data != [] && i < |ws| == NumThreads(|data|, hardware)
  {
    var x, y := BlockStart(|data|, hardware, i), BlockStart(|data|, hardware, i + 1);
    x <= ws[i].pos <= y <= |data| && ws[i].sum == Fold(plus, zero, data[x..ws[i].pos])
  }

  /** Under every interleaving, each worker has the fold of the part of its block it has passed; at the end
      of its block that is the result its future delivers. */
  lemma {:induction false} WorkersFold<T>(plus: (T, T) -> T, zero: T, data: seq<T>, hardware: nat, order: seq<nat>,
                                          i: nat)
    requires data != [] && i < NumThreads(|data|, hardware)
    ensures var ws := AccRun(plus, zero, data, hardware, order);
      && |ws| == NumThreads(|data|, hardware) && PartialInv(plus, zero, data, hardware, ws, i)
      && (ws[i].pos == BlockStart(|data|, hardware, i + 1) ==> ws[i].sum == BlockFold(plus, zero, data, hardware, i))
  {
    BlocksNonEmpty(|data|, hardware, i);
    if order != [] {
      var before := order[..|order| - 1];
      WorkersFold(plus, zero, data, hardware, before, i);
      var ws := AccRun(plus, zero, data, hardware, before);
      var x, p := BlockStart(|data|, hardware, i), ws[i].pos;
      if p < |data| {
        assert data[x..p + 1][..p - x] == data[x..p];
      }
    }
  }

  // ---------------------------------------------------------------- combining the sums

  /** The futures' results added to `init` in the order of the blocks. */
  function AddSums<T>(plus: (T, T) -> T, init: T, ws: seq<Partial<T>>): T {
    if ws == [] then init else plus(AddSums(plus, init, ws[..|ws| - 1]), ws[|ws| - 1].sum)
  }

  ghost predicate SumsDone<T(!new)>(plus: (T, T) -> T, zero: T, data: seq<T>, hardware: nat, order: seq<nat>)
    requires data != []
  {
    Positive(|data|, hardware);
    var ws := AccRun(plus, zero, data, hardware, order);
    forall i :: 0 <= i < |ws| ==> BlockStart(|data|, hardware, i + 1) <= ws[i].pos
  }

  lemma {:induction false} FirstSums<T(!new)>(plus: (T, T) -> T, zero: T, init: T, data: seq<T>, hardware: nat,
                                              order: seq<nat>, n: nat)
    requires Monoid(plus, zero) && data != [] && n <= NumThreads(|data|, hardware)
    requires SumsDone(plus, zero, data, hardware, order)
    ensures |AccRun(plus, zero, data, hardware, order)| == NumThreads(|data|, hardware)
    ensures NumThreads(|data|, hardware) != 0 && BlockStart(|data|, hardware, n) <= |data|
    ensures AddSums(plus, init, AccRun(plus, zero, data, hardware, order)[..n])
         == Fold(plus, init, data[..BlockStart(|data|, hardware, n)])
  {
    Positive(|data|, hardware);
    WorkersFold(plus, zero, data, hardware, order, 0);
    var ws := AccRun(plus, zero, data, hardware, order);
    if n != 0 {
      FirstSums(plus, zero, init, data, hardware, order, n - 1);
      WorkersFold(plus, zero, data, hardware, order, n - 1);
      AddBlock(plus, zero, init, data, hardware, n - 1);
      assert ws[..n][..n - 1] == ws[..n - 1];
    }
  }

  /** Whatever the interleaving of the workers, the parallel accumulation is the sequential fold. */
  lemma WorkersAccumulate<T(!new)>(plus: (T, T) -> T, zero: T, init: T, data: seq<T>, hardware: nat, order: seq<nat>)
    requires Monoid(plus, zero) && data != [] && SumsDone(plus, zero, data, hardware, order)
    ensures AddSums(plus, init, AccRun(plus, zero, data, hardware, order)) == Fold(plus, init, data)
  {
    Positive(|data|, hardware);
    var n := NumThreads(|data|, hardware);
    FirstSums(plus, zero, init, data, hardware, order, n);
    var ws := AccRun(plus, zero, data, hardware, order);
    assert ws[..n] == ws && data[..BlockStart(|data|, hardware, n)] == data;
  }
}
