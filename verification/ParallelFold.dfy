/** `parallel_accumulate` and `parallel_for_each`: a range is cut into one block per thread, and the last
    block, with the remainder, is done by the calling thread.  The number of hardware threads is a
    parameter; lengths are unbounded integers. */
module ParallelFold {

  const MIN_PER_THREAD: nat := 25

  // ---------------------------------------------------------------- the blocks

  function NumThreads(length: nat, hardware: nat): nat {
    var maxThreads := (length + MIN_PER_THREAD - 1) / MIN_PER_THREAD;
    var wanted := if hardware != 0 then hardware else 2;
    if wanted < maxThreads then wanted else maxThreads
  }

  function BlockSize(length: nat, hardware: nat): nat
    requires NumThreads(length, hardware) != 0
  {
    length / NumThreads(length, hardware)
  }

  /** Where block `i` starts; block `NumThreads` would start at the end. */
  function BlockStart(length: nat, hardware: nat, i: nat): nat
    requires NumThreads(length, hardware) != 0
  {
    if i < NumThreads(length, hardware) then i * BlockSize(length, hardware) else length
  }

  lemma Positive(length: nat, hardware: nat)
    requires 0 < length
    ensures 1 <= NumThreads(length, hardware) <= length && 1 <= BlockSize(length, hardware)
  {
    var n := NumThreads(length, hardware);
    assert n <= length;
  }

  /** No block is empty, and each starts where the one before it ends. */
  lemma BlocksNonEmpty(length: nat, hardware: nat, i: nat)
    requires 0 < length && i < NumThreads(length, hardware)
    ensures BlockStart(length, hardware, i) < BlockStart(length, hardware, i + 1) <= length
  {
    Positive(length, hardware);
    var n, b := NumThreads(length, hardware), BlockSize(length, hardware);
    assert n * b <= length;
    assert (i + 1) * b == i * b + b;
    assert (i + 1) * b <= n * b by { Monotone(i + 1, n, b); }
  }

  lemma Monotone(i: nat, n: nat, b: nat)
    requires i <= n
    ensures i * b <= n * b
  {
    assert n * b == i * b + (n - i) * b;
    assert 0 <= (n - i) * b;
  }

  lemma {:induction false} StartsMonotone(length: nat, hardware: nat, i: nat, j: nat)
    requires 0 < length && i <= j <= NumThreads(length, hardware)
    ensures BlockStart(length, hardware, i) <= BlockStart(length, hardware, j)
    decreases j
  {
    if i < j {
      StartsMonotone(length, hardware, i, j - 1);
      BlocksNonEmpty(length, hardware, j - 1);
    }
  }

  predicate InBlock(length: nat, hardware: nat, i: nat, k: nat)
    requires NumThreads(length, hardware) != 0
  {
    BlockStart(length, hardware, i) <= k < BlockStart(length, hardware, i + 1)
  }

  lemma {:induction false} FindBlock(length: nat, hardware: nat, k: nat, n: nat) returns (i: nat)
    requires 0 < length && n <= NumThreads(length, hardware) && k < BlockStart(length, hardware, n)
    ensures i < n && NumThreads(length, hardware) != 0 && InBlock(length, hardware, i, k)
    decreases n
  {
    Positive(length, hardware);
    assert n != 0;
    if BlockStart(length, hardware, n - 1) <= k {
      i := n - 1;
    } else {
      i := FindBlock(length, hardware, k, n - 1);
    }
  }

  /** Every position is in exactly one block. */
  lemma BlocksPartition(length: nat, hardware: nat, k: nat)
    requires k < length
    ensures NumThreads(length, hardware) != 0
    ensures exists i: nat :: i < NumThreads(length, hardware) && InBlock(length, hardware, i, k)
              && forall j: nat :: j < NumThreads(length, hardware) && InBlock(length, hardware, j, k) ==> j == i
  {
    Positive(length, hardware);
    var n := NumThreads(length, hardware);
    var i := FindBlock(length, hardware, k, n);
    forall j: nat | j < n && InBlock(length, hardware, j, k) ensures j == i {
      if j < i {
        StartsMonotone(length, hardware, j + 1, i);
      } else if i < j {
        StartsMonotone(length, hardware, i + 1, j);
      }
    }
  }

  // ---------------------------------------------------------------- accumulate

  function Fold<T>(plus: (T, T) -> T, init: T, s: seq<T>): T {
    if s == [] then init else plus(Fold(plus, init, s[..|s| - 1]), s[|s| - 1])
  }

  predicate Associates<T(==)>(plus: (T, T) -> T, x: T, y: T, z: T) {
    plus(plus(x, y), z) == plus(x, plus(y, z))
  }

  predicate IsUnit<T(==)>(plus: (T, T) -> T, zero: T, x: T) {
    plus(zero, x) == x && plus(x, zero) == x
  }

  /** `plus` is associative and `zero` is its identity. */
  ghost predicate Monoid<T(!new)>(plus: (T, T) -> T, zero: T) {
    && (forall x, y, z {:trigger Associates(plus, x, y, z)} :: Associates(plus, x, y, z))
    && (forall x {:trigger IsUnit(plus, zero, x)} :: IsUnit(plus, zero, x))
  }

  /** A block can be folded on its own, from zero, and its result added. */
  lemma {:induction false} FoldBlock<T(!new)>(plus: (T, T) -> T, zero: T, init: T, a: seq<T>, b: seq<T>)
    requires Monoid(plus, zero)
    ensures Fold(plus, init, a + b) == plus(Fold(plus, init, a), Fold(plus, zero, b))
  {
    if b == [] {
      assert a + b == a;
      assert IsUnit(plus, zero, Fold(plus, init, a));
    } else {
      var n := |b| - 1;
      assert (a + b)[..|a + b| - 1] == a + b[..n];
      FoldBlock(plus, zero, init, a, b[..n]);
      assert Associates(plus, Fold(plus, init, a), Fold(plus, zero, b[..n]), b[n]);
    }
  }

  /** `accumulate_block`: `std::accumulate` from `T()`. */
  method AccumulateBlock<T>(plus: (T, T) -> T, zero: T, s: seq<T>, first: nat, last: nat) returns (r: T)
    requires first <= last <= |s|
    ensures r == Fold(plus, zero, s[first..last])
  {
    r := zero;
    var i := first;
    while i < last
      invariant first <= i <= last && r == Fold(plus, zero, s[first..i])
    {
      assert s[first..i + 1][..i - first] == s[first..i];
      r := plus(r, s[i]);
      i := i + 1;
    }
  }

  lemma NextStart(length: nat, hardware: nat, i: nat)
    requires 0 < length && i + 1 < NumThreads(length, hardware)
    ensures BlockStart(length, hardware, i + 1)
            == BlockStart(length, hardware, i) + BlockSize(length, hardware) <= length
  {
    BlocksNonEmpty(length, hardware, i);
    assert (i + 1) * BlockSize(length, hardware) == i * BlockSize(length, hardware) + BlockSize(length, hardware);
  }

  /** The threads are given one block each, and the calling thread does what is left. */
  method RunBlocks<T(!new)>(plus: (T, T) -> T, zero: T, s: seq<T>, hardware: nat, numThreads: nat, blockSize: nat)
    returns (futures: array<T>, lastResult: T)
    requires s != [] && numThreads == NumThreads(|s|, hardware) != 0 && blockSize == BlockSize(|s|, hardware)
    ensures fresh(futures) && futures.Length == numThreads - 1
    ensures forall j :: 0 <= j < numThreads - 1 ==> futures[j] == BlockFold(plus, zero, s, hardware, j)
    ensures lastResult == BlockFold(plus, zero, s, hardware, numThreads - 1)
  {
    futures := new T[numThreads - 1](_ => zero);
    var blockStart, i := 0, 0;
    while i < numThreads - 1
      invariant 0 <= i <= numThreads - 1 && blockStart == BlockStart(|s|, hardware, i) <= |s|
      invariant forall j :: 0 <= j < i ==> futures[j] == BlockFold(plus, zero, s, hardware, j)
    {
      NextStart(|s|, hardware, i);
      var blockEnd := blockStart + blockSize;
      var r := AccumulateBlock(plus, zero, s, blockStart, blockEnd);
      futures[i] := r;
      blockStart := blockEnd;
      i := i + 1;
    }
    lastResult := AccumulateBlock(plus, zero, s, blockStart, |s|);
  }

  /** `parallel_accumulate`: for every length and number of hardware threads, the result is the sequential
      fold, provided that the sum is associative and `T()` is its identity. */
  method ParallelAccumulate<T(!new)>(plus: (T, T) -> T, zero: T, s: seq<T>, init: T, hardware: nat) returns (result: T)
    requires Monoid(plus, zero)
    ensures result == Fold(plus, init, s)
  {
    if s == [] {
      return init;
    }
    Positive(|s|, hardware);
    var numThreads := NumThreads(|s|, hardware);
    var futures, lastResult := RunBlocks(plus, zero, s, hardware, numThreads, BlockSize(|s|, hardware));
    result := init;
    var i := 0;
    assert s[..0] == [];
    while i < numThreads - 1
      invariant 0 <= i <= numThreads - 1 && BlockStart(|s|, hardware, i) <= |s|
      invariant result == Fold(plus, init, s[..BlockStart(|s|, hardware, i)])
      invariant forall j :: 0 <= j < numThreads - 1 ==> futures[j] == BlockFold(plus, zero, s, hardware, j)
    {
      AddBlock(plus, zero, init, s, hardware, i);
      result := plus(result, futures[i]);
      i := i + 1;
    }
    AddBlock(plus, zero, init, s, hardware, i);
    result := plus(result, lastResult);
    assert s[..|s|] == s;
  }

  ghost function BlockFold<T>(plus: (T, T) -> T, zero: T, s: seq<T>, hardware: nat, i: nat): T
    requires s != [] && i < NumThreads(|s|, hardware)
  {
    BlocksNonEmpty(|s|, hardware, i);
    Fold(plus, zero, s[BlockStart(|s|, hardware, i)..BlockStart(|s|, hardware, i + 1)])
  }

  lemma AddBlock<T(!new)>(plus: (T, T) -> T, zero: T, init: T, s: seq<T>, hardware: nat, i: nat)
    requires Monoid(plus, zero) && s != [] && i < NumThreads(|s|, hardware)
    ensures BlockStart(|s|, hardware, i) <= BlockStart(|s|, hardware, i + 1) <= |s|
    ensures plus(Fold(plus, init, s[..BlockStart(|s|, hardware, i)]), BlockFold(plus, zero, s, hardware, i))
         == Fold(plus, init, s[..BlockStart(|s|, hardware, i + 1)])
  {
    BlocksNonEmpty(|s|, hardware, i);
    var x, y := BlockStart(|s|, hardware, i), BlockStart(|s|, hardware, i + 1);
    assert s[..y] == s[..x] + s[x..y];
    FoldBlock(plus, zero, init, s[..x], s[x..y]);
  }

  // ---------------------------------------------------------------- for_each

  /** `std::for_each` over a block, in place. */
  method ForEachBlock<T>(f: T -> T, a: array<T>, first: nat, last: nat)
    requires first <= last <= a.Length
    modifies a
    ensures forall k :: 0 <= k < a.Length ==> a[k] == if first <= k < last then f(old(a[k])) else old(a[k])
  {
    var i := first;
    while i < last
      invariant first <= i <= last
      invariant forall k :: 0 <= k < a.Length ==> a[k] == if first <= k < i then f(old(a[k])) else old(a[k])
    {
      a[i] := f(a[i]);
      i := i + 1;
    }
  }

  /** `parallel_for_each`, one block after the other; `WorkersMap` below is about all other orders. */
  method ParallelForEach<T>(f: T -> T, a: array<T>, hardware: nat)
    modifies a
    ensures forall k :: 0 <= k < a.Length ==> a[k] == f(old(a[k]))
  {
    if a.Length == 0 {
      return;
    }
    Positive(a.Length, hardware);
    var numThreads, blockSize := NumThreads(a.Length, hardware), BlockSize(a.Length, hardware);
    var blockStart, i := 0, 0;
    while i < numThreads - 1
      invariant 0 <= i <= numThreads - 1 && blockStart == BlockStart(a.Length, hardware, i) <= a.Length
      invariant forall k :: 0 <= k < a.Length ==> a[k] == if k < blockStart then f(old(a[k])) else old(a[k])
    {
      NextStart(a.Length, hardware, i);
      var blockEnd := blockStart + blockSize;
      ForEachBlock(f, a, blockStart, blockEnd);
      blockStart := blockEnd;
      i := i + 1;
    }
    ForEachBlock(f, a, blockStart, a.Length);
  }
}
