/** `hierarchical_mutex` as the object a single thread works with. */
module MutexObject {

  /** The thread-local value, with the mutexes it accounts for in the order of acquisition. */
  class ThreadLocal {
    var value: nat
    ghost const top: nat
    ghost var held: seq<HierarchicalMutex>

    ghost predicate Valid()
      reads this, held
    {
      && (forall i :: 0 <= i < |held| ==> held[i].locked && held[i].hierarchyValue < top)
      && (forall i, j :: 0 <= i < j < |held| ==> held[j].hierarchyValue < held[i].hierarchyValue)
      && (forall i, j :: 0 <= i < j < |held| && j == i + 1 ==> held[j].previous == held[i].hierarchyValue)
      && (held != [] ==> held[0].previous == top)
      && value == if held == [] then top else held[|held| - 1].hierarchyValue
    }

    constructor (top: nat)
      ensures Valid() && held == [] && this.top == top
    {
      value, this.top, held := top, top, [];
    }
  }

  class HierarchicalMutex {
    const hierarchyValue: nat
    var previous: nat
    var locked: bool

    constructor (value: nat)
      ensures hierarchyValue == value && !locked && previous == 0
    {
      hierarchyValue, previous, locked := value, 0, false;
    }

    /** The value of `th` is not above this mutex: it holds one that is not above it, or none can be. */
    ghost predicate Violates(th: ThreadLocal, held: seq<HierarchicalMutex>) {
      th.top <= hierarchyValue || exists m :: m in held && m.hierarchyValue <= hierarchyValue
    }

    /** `lock`: throws exactly on a violation of the hierarchy, before looking at the mutex; otherwise it
        waits as long as the mutex is locked, and locks it when it is free. */
    method Lock(th: ThreadLocal) returns (o: Outcome)
      requires th.Valid()
      modifies this, th
      ensures th.Valid()
      ensures o.Throws? <==> Violates(th, old(th.held))
      ensures o.Waits? <==> !Violates(th, old(th.held)) && old(locked)
      ensures th.held == if o.Locks? then old(th.held) + [this] else old(th.held)
      ensures !o.Locks? ==> locked == old(locked) && previous == old(previous) && th.value == old(th.value)
    {
      if th.value <= hierarchyValue {
        assert th.held != [] ==> th.held[|th.held| - 1] in th.held;
        return Throws;
      }
      if locked {
        return Waits;
      }
      Update(th);
      return Locks;
    }

    /** `trylock`: the same test comes first, also when the mutex is locked. */
    method TryLock(th: ThreadLocal) returns (thrown: bool, ok: bool)
      requires th.Valid()
      modifies this, th
      ensures th.Valid()
      ensures thrown <==> Violates(th, old(th.held))
      ensures ok <==> !thrown && !old(locked)
      ensures th.held == if ok then old(th.held) + [this] else old(th.held)
      ensures !ok ==> locked == old(locked) && previous == old(previous) && th.value == old(th.value)
    {
      if th.value <= hierarchyValue {
        assert th.held != [] ==> th.held[|th.held| - 1] in th.held;
        return true, false;
      }
      if locked {
        return false, false;
      }
      Update(th);
      return false, true;
    }

    /** Locks the wrapped mutex and records the thread's value. */
    method Update(th: ThreadLocal)
      requires th.Valid() && !locked && hierarchyValue < th.value
      modifies this, th
      ensures th.Valid() && locked && th.held == old(th.held) + [this]
    {
      locked := true;
      previous := th.value;
      th.value := hierarchyValue;
      th.held := th.held + [this];
    }

    /** `unlock` of the mutex locked as number `i` of those held.  The thread then has the value that the
        remaining ones ask for if and only if this one was locked last. */
    method Unlock(th: ThreadLocal, ghost i: nat)
      requires th.Valid() && i < |th.held| && th.held[i] == this
      modifies this, th
      ensures !locked && previous == old(previous) && th.value == previous
      ensures th.held == old(th.held[..i] + th.held[i + 1..])
      ensures th.Valid() <==> i == |old(th.held)| - 1
    {
      ghost var h := i - 1;
      assert i > 0 ==> th.held[i].previous == th.held[h].hierarchyValue;
      th.value := previous;
      locked := false;
      th.held := th.held[..i] + th.held[i + 1..];
    }
  }

  /** What becomes of a call of `lock`; a call that waits is repeated when the mutex is free. */
  datatype Outcome = Locks | Waits | Throws
}
