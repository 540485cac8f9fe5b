/** The invariant of the helping pool, kept by every step. */
module ThreadPoolInvariant {
  import opened Wrappers
  import opened ThreadPool

  // ---------------------------------------------------------------- invariant

  ghost predicate Sorted(s: seq<Elem>) {
    forall i, j :: 0 <= i < j < |s| ==> s[i].key <= s[j].key
  }

  ghost predicate IsSort(r: seq<Elem>, s: seq<Elem>) {
    Sorted(r) && multiset(r) == multiset(s)
  }

  /** What an activation still waiting for its lower half has: the pivot followed by the sorted higher half. */
  ghost predicate UpperPart(want: seq<Elem>, rest: seq<Elem>, lower: seq<Elem>) {
    && rest != [] && Sorted(rest)
    && multiset(lower) + multiset(rest) == multiset(want)
    && forall x :: x in lower ==> x.key < rest[0].key
  }

  predicate HasChild(f: Frame, k: nat) {
    !f.at.Entry? && f.at.lower == k
  }

  /** Task `k` was submitted by the activation at level `i` of thread `t`. */
  ghost predicate Child(s: State, t: Tid, i: nat, k: nat)
    requires t < |s.stacks| && i < |s.stacks[t]|
  {
    0 < k < |s.tasks| && s.tasks[k].owner == t && s.tasks[k].depth == i && s.stacks[t][i].start < s.tasks[k].born
  }

  ghost predicate KindInv(s: State, t: Tid, i: nat)
    requires t < |s.stacks| && i < |s.stacks[t]|
  {
    var st := s.stacks[t];
    match st[i].kind
    case Body(k) =>
      && k < |s.tasks| && s.tasks[k].status == Running(t, i) && st[i].want == s.tasks[k].input
      && s.tasks[k].born <= st[i].start
      && (i == 0 || (st[i - 1].at.Waiting? && st[i - 1].start < st[i].start))
    case Inner => 0 < i && st[i - 1].at.InHigher? && st[i - 1].start < st[i].start
  }

  ghost predicate AtInv(s: State, t: Tid, i: nat)
    requires t < |s.stacks| && i < |s.stacks[t]|
  {
    var st := s.stacks[t];
    match st[i].at
    case Entry(chunk) => i == |st| - 1 && chunk == st[i].want
    case InHigher(pivot, k) =>
      && i < |st| - 1 && Child(s, t, i, k) && st[i + 1].kind == Inner
      && multiset(st[i].want) == multiset{pivot} + multiset(s.tasks[k].input) + multiset(st[i + 1].want)
      && Divides(s.tasks[k].input + st[i + 1].want, pivot, s.tasks[k].input, st[i + 1].want)
    case Waiting(rest, k) => Child(s, t, i, k) && UpperPart(st[i].want, rest, s.tasks[k].input)
    case Helping(rest, k) => i == |st| - 1 && Child(s, t, i, k) && UpperPart(st[i].want, rest, s.tasks[k].input)
  }

  ghost predicate FrameInv(s: State, t: Tid, i: nat)
    requires t < |s.stacks| && i < |s.stacks[t]|
  {
    s.stacks[t][i].start < s.clock && KindInv(s, t, i) && AtInv(s, t, i)
  }

  /** The queue that receives the tasks submitted by `t`. */
  function Home(s: State, t: Tid): seq<nat> {
    if t < |s.locals| && s.locals[t].Some? then s.locals[t].value else s.global
  }

  ghost predicate TaskInv(s: State, k: nat)
    requires k < |s.tasks|
  {
    var x := s.tasks[k];
    && x.born <= s.clock
    && (match x.status
        case Pending => k != 0 && k in Home(s, x.owner)
        case Running(t, i) => t < |s.stacks| && i < |s.stacks[t]| && s.stacks[t][i].kind == Body(k)
        case Done(r) => IsSort(r, x.input))
    && (k != 0 && !x.status.Done? ==>
          x.owner < |s.stacks| && x.depth < |s.stacks[x.owner]| && HasChild(s.stacks[x.owner][x.depth], k))
  }

  /** Task `k` belongs in the queue of `t`, or in the global queue. */
  ghost predicate Queued(s: State, k: nat, t: Option<Tid>) {
    && k < |s.tasks| && s.tasks[k].status == Pending && s.tasks[k].owner < |s.locals|
    && s.locals[s.tasks[k].owner].Some? == t.Some? && (t.Some? ==> s.tasks[k].owner == t.value)
  }

  /** A queue holds pending tasks, in the order of submission. */
  ghost predicate QueueInv(s: State, q: seq<nat>, t: Option<Tid>) {
    && (forall i, j :: 0 <= i < j < |q| ==> q[i] < q[j])
    && (forall k :: k in q ==> Queued(s, k, t))
  }

  ghost predicate LocalInv(s: State, t: Tid)
    requires t < |s.locals|
  {
    s.locals[t].Some? ==> QueueInv(s, s.locals[t].value, Some(t))
  }

  ghost predicate Frames(s: State) {
    forall t, i {:trigger FrameInv(s, t, i)} :: 0 <= t < |s.stacks| && 0 <= i < |s.stacks[t]| ==> FrameInv(s, t, i)
  }

  ghost predicate Tasks(s: State) {
    forall k {:trigger TaskInv(s, k)} :: 0 <= k < |s.tasks| ==> TaskInv(s, k)
  }

  ghost predicate Queues(s: State) {
    && |s.locals| == |s.stacks|
    && QueueInv(s, s.global, None)
    && forall t {:trigger LocalInv(s, t)} :: 0 <= t < |s.locals| ==> LocalInv(s, t)
  }

  ghost predicate Inv(s: State) {
    s.tasks != [] && s.stacks != [] && Frames(s) && Tasks(s) && Queues(s)
  }

  // ---------------------------------------------------------------- sorting facts

  /** The pivot followed by the sorted higher half is the upper part of the chunk. */
  lemma UpperSorted(want: seq<Elem>, pivot: Elem, lower: seq<Elem>, higher: seq<Elem>, r: seq<Elem>)
    requires multiset(want) == multiset{pivot} + multiset(lower) + multiset(higher)
    requires Divides(lower + higher, pivot, lower, higher) && IsSort(r, higher)
    ensures UpperPart(want, [pivot] + r, lower)
  {
    forall i | 0 <= i < |r| ensures pivot.key <= r[i].key {
      assert r[i] in multiset(r);
      assert r[i] in multiset(higher);
    }
  }

  /** The sorted lower half in front of the upper part sorts the chunk. */
  lemma WholeSorted(want: seq<Elem>, rest: seq<Elem>, lower: seq<Elem>, l: seq<Elem>)
    requires UpperPart(want, rest, lower) && IsSort(l, lower)
    ensures IsSort(l + rest, want)
  {
    forall i | 0 <= i < |l| ensures l[i].key < rest[0].key {
      assert l[i] in multiset(l);
      assert l[i] in multiset(lower);
    }
  }

  // ---------------------------------------------------------------- frames

  /** What never changes in the table of tasks; and a task that is done stays done. */
  ghost predicate Extends(s: State, s': State) {
    && |s.tasks| <= |s'.tasks| && |s'.stacks| == |s.stacks| && |s'.locals| == |s.locals| && s.clock <= s'.clock
    && forall k :: 0 <= k < |s.tasks| ==>
         s'.tasks[k].input == s.tasks[k].input && s'.tasks[k].born == s.tasks[k].born
         && s'.tasks[k].owner == s.tasks[k].owner && s'.tasks[k].depth == s.tasks[k].depth
         && (s.tasks[k].status.Done? ==> s'.tasks[k] == s.tasks[k])
  }

  /** A level of a stack that a step neither changes nor runs the task of stays as it was. */
  lemma FrameKept(s: State, s': State, t: Tid, i: nat)
    requires Extends(s, s') && t < |s.stacks| && i < |s.stacks[t]| && FrameInv(s, t, i)
    requires i < |s'.stacks[t]| && s'.stacks[t][i] == s.stacks[t][i]
    requires 0 < i ==> s'.stacks[t][i - 1] == s.stacks[t][i - 1]
    requires i == |s.stacks[t]| - 1 ==> i == |s'.stacks[t]| - 1 || s.stacks[t][i].at.Waiting?
    requires s.stacks[t][i].at.InHigher? ==>
               i + 1 < |s'.stacks[t]| && s'.stacks[t][i + 1].kind == Inner
                   && s'.stacks[t][i + 1].want == s.stacks[t][i + 1].want
    requires s.stacks[t][i].kind.Body? ==>
               s.stacks[t][i].kind.task < |s.tasks| && s'.tasks[s.stacks[t][i].kind.task]
                   == s.tasks[s.stacks[t][i].kind.task]
    ensures FrameInv(s', t, i)
  {
  }

  // ---------------------------------------------------------------- each kind of step keeps the invariant

  /** A step of `t` that runs no task to its end and changes at most the status of task `k`, from pending. */
  lemma OtherFrames(s: State, s': State, t: Tid, keep: nat)
    requires Inv(s) && Extends(s, s') && t < |s.stacks| && keep <= |s.stacks[t]| && keep <= |s'.stacks[t]|
    requires forall u :: 0 <= u < |s.stacks| && u != t ==> s'.stacks[u] == s.stacks[u]
    requires s'.stacks[t][..keep] == s.stacks[t][..keep]
    requires 0 < keep < |s.stacks[t]| && s.stacks[t][keep - 1].at.InHigher? ==>
               keep < |s'.stacks[t]| && s'.stacks[t][keep].kind == Inner
                   && s'.stacks[t][keep].want == s.stacks[t][keep].want
    requires 0 < keep == |s.stacks[t]| ==> keep == |s'.stacks[t]| || s.stacks[t][keep - 1].at.Waiting?
    requires forall k: nat, u: nat, i: nat ::
               k < |s.tasks| && s.tasks[k].status == Running(u, i) && (u != t || i < keep) ==> s'.tasks[k] == s.tasks[k]
    ensures forall u, i {:trigger FrameInv(s', u, i)} ::
              0 <= u < |s'.stacks| && 0 <= i < |s'.stacks[u]| && (u != t || i < keep) ==> FrameInv(s', u, i)
  {
    forall u, i {:trigger FrameInv(s', u, i)} | 0 <= u < |s'.stacks| && 0 <= i < |s'.stacks[u]| && (u != t || i < keep)
      ensures FrameInv(s', u, i)
    {
      assert FrameInv(s, u, i);
      if u == t {
        assert s'.stacks[t][i] == s'.stacks[t][..keep][i] && s.stacks[t][i] == s.stacks[t][..keep][i];
        if 0 < i {
          var h := i - 1;
          assert s'.stacks[t][h] == s'.stacks[t][..keep][h] && s.stacks[t][h] == s.stacks[t][..keep][h];
        }
        if i + 1 < keep {
          var j := i + 1;
          assert s'.stacks[t][j] == s'.stacks[t][..keep][j] && s.stacks[t][j] == s.stacks[t][..keep][j];
        }
      }
      FrameKept(s, s', u, i);
    }
  }

  lemma Appended(s: State, s': State, q: seq<nat>, t: Option<Tid>, k: nat)
    requires QueueInv(s, q, t) && k == |s.tasks| && Queued(s', k, t)
    requires forall j :: j in q ==> Queued(s', j, t)
    ensures QueueInv(s', q + [k], t)
  {
    var q' := q + [k];
    forall i, j | 0 <= i < j < |q'| ensures q'[i] < q'[j] {
      assert Queued(s, q[i], t);
    }
  }

  /** A new task goes to the end of the queue of the thread that submits it. */
  lemma SubmitQueues(s: State, s': State, t: Tid, x: Task)
    requires Inv(s) && Valid(s, t) && s'.tasks == s.tasks + [x] && x.status == Pending && x.owner == t
    requires |s'.stacks| == |s.stacks|
    requires s'.global == Submit(s, t, |s.tasks|).global && s'.locals == Submit(s, t, |s.tasks|).locals
    ensures Queues(s') && |s.tasks| in Home(s', t)
    ensures forall u: nat, k: nat :: u < |s.stacks| && k in Home(s, u) ==> k in Home(s', u)
  {
    if s.locals[t].None? {
      Appended(s, s', s.global, None, |s.tasks|);
    }
    forall u {:trigger LocalInv(s', u)} | 0 <= u < |s'.locals| ensures LocalInv(s', u) {
      assert LocalInv(s, u);
      if u == t && s.locals[t].Some? {
        Appended(s, s', s.locals[t].value, Some(t), |s.tasks|);
      }
    }
  }

  lemma SplitInv(s: State, t: Tid, c: Choice)
    requires Inv(s) && Valid(s, t) && s.stacks[t] != [] && Top(s.stacks[t]).at.Entry? && Top(s.stacks[t]).at.chunk != []
    ensures Inv(DoSplit(s, t, c)) && Extends(s, DoSplit(s, t, c))
  {
    var s' := DoSplit(s, t, c);
    var st, n := s.stacks[t], |s.stacks[t]| - 1;
    var f, st' := st[n], s'.stacks[t];
    assert FrameInv(s, t, n);
    var k := |s.tasks|;
    var x := s'.tasks[k];
    SubmitQueues(s, s', t, x);
    OtherFrames(s, s', t, n);
    assert f.want == [f.at.chunk[0]] + f.at.chunk[1..];
    assert Divides(f.at.chunk[1..], f.at.chunk[0], x.input, st'[n + 1].want);
    assert Divides(x.input + st'[n + 1].want, f.at.chunk[0], x.input, st'[n + 1].want);
    assert st'[n].start == f.start && st'[n].kind == f.kind && st'[n].want == f.want;
    assert n > 0 ==> st'[n - 1] == st[n - 1];
    assert FrameInv(s', t, n) && FrameInv(s', t, n + 1);
    SplitTasks(s, s', t, c);
  }

  lemma SplitTasks(s: State, s': State, t: Tid, c: Choice)
    requires Inv(s) && Valid(s, t) && s.stacks[t] != [] && Top(s.stacks[t]).at.Entry? && Top(s.stacks[t]).at.chunk != []
    requires s' == DoSplit(s, t, c)
    ensures Tasks(s')
  {
    var st, n := s.stacks[t], |s.stacks[t]| - 1;
    assert FrameInv(s, t, n);
    forall j {:trigger TaskInv(s', j)} | 0 <= j < |s'.tasks| ensures TaskInv(s', j) {
      if j != |s.tasks| {
        assert TaskInv(s, j);
        if s.tasks[j].status == Running(t, n) {
          assert s'.stacks[t][n].kind == st[n].kind;
        }
      }
    }
  }

  /** A poll that times out, or a `run_pending_task` that finds nothing, changes only where the top activation is. */
  lemma ToggleInv(s: State, s': State, t: Tid)
    requires Inv(s) && Valid(s, t) && s.stacks[t] != []
             && (Top(s.stacks[t]).at.Waiting? || Top(s.stacks[t]).at.Helping?)
    requires var f := Top(s.stacks[t]);
      s' == s.(stacks := s.stacks[t := Under(s.stacks[t]) + [f.(at := if f.at.Waiting?
          then Helping(f.at.rest, f.at.lower) else Waiting(f.at.rest, f.at.lower))]])
    ensures Inv(s') && Extends(s, s')
  {
    var n := |s.stacks[t]| - 1;
    assert FrameInv(s, t, n);
    OtherFrames(s, s', t, n);
    assert n > 0 ==> s'.stacks[t][n - 1] == s.stacks[t][n - 1];
    assert FrameInv(s', t, n);
    forall j {:trigger TaskInv(s', j)} | 0 <= j < |s'.tasks| ensures TaskInv(s', j) {
      assert TaskInv(s, j);
    }
    assert Queues(s') by {
      forall u {:trigger LocalInv(s', u)} | 0 <= u < |s'.locals| ensures LocalInv(s', u) {
        assert LocalInv(s, u);
      }
    }
  }

  /** The queue that a task was taken from, and every other queue. */
  lemma TakeQueues(s: State, s': State, t: Tid, k: nat)
    requires Inv(s) && Valid(s, t) && Next(s, t) == Some(k) && k < |s.tasks| && |s'.stacks| == |s.stacks|
    requires |s'.tasks| == |s.tasks| && forall j :: 0 <= j < |s.tasks| && j != k ==> s'.tasks[j] == s.tasks[j]
    requires s'.global == Dequeue(s, t).global && s'.locals == Dequeue(s, t).locals
    ensures Queues(s')
    ensures forall u: nat, j: nat :: u < |s.stacks| && j in Home(s, u) && j != k ==> j in Home(s', u)
  {
    assert LocalInv(s, t);
    if s.locals[t].Some? && s.locals[t].value != [] {
      assert Queued(s, k, Some(t));
    } else {
      assert Queued(s, k, None);
    }
    forall j | j in s'.global ensures Queued(s', j, None) {
      assert Queued(s, j, None);
    }
    forall u {:trigger LocalInv(s', u)} | 0 <= u < |s'.locals| ensures LocalInv(s', u) {
      assert LocalInv(s, u);
      if s.locals[u].Some? {
        forall j | j in s'.locals[u].value ensures Queued(s', j, Some(u)) {
          assert Queued(s, j, Some(u));
        }
      }
    }
  }

  /** The task taken is pending. */
  lemma NextPending(s: State, t: Tid, k: nat)
    requires Inv(s) && Valid(s, t) && Next(s, t) == Some(k)
    ensures 0 < k < |s.tasks| && s.tasks[k].status == Pending
  {
    assert LocalInv(s, t);
    if s.locals[t].Some? && s.locals[t].value != [] {
      assert Queued(s, k, Some(t));
    } else {
      assert Queued(s, k, None);
    }
    assert TaskInv(s, k);
  }

  lemma TakeExtends(s: State, s': State, t: Tid, k: nat)
    requires Valid(s, t) && |s.locals| == |s.stacks|
    requires k < |s.tasks| && s.tasks[k].status == Pending && s' == DoRunPending(s, t) && Next(s, t) == Some(k)
    ensures Extends(s, s')
  {
  }

  lemma TakeFrames(s: State, s': State, t: Tid, k: nat)
    requires Inv(s) && Valid(s, t) && (s.stacks[t] == [] || Top(s.stacks[t]).at.Helping?)
    requires 0 < k < |s.tasks| && s.tasks[k].status == Pending && s' == DoRunPending(s, t) && Next(s, t) == Some(k)
    requires Extends(s, s')
    ensures Frames(s')
  {
    var st, n := s.stacks[t], if s.stacks[t] == [] then 0 else |s.stacks[t]| - 1;
    var st', m := s'.stacks[t], |s'.stacks[t]| - 1;
    assert TaskInv(s, k);
    if st == [] {
      OtherFrames(s, s', t, 0);
    } else {
      assert FrameInv(s, t, n);
      assert st'[n].kind == st[n].kind && st'[n].want == st[n].want && st'[n].start == st[n].start;
      OtherFrames(s, s', t, n);
      assert n > 0 ==> st'[n - 1] == st[n - 1];
      assert FrameInv(s', t, n);
    }
    assert FrameInv(s', t, m);
  }

  lemma TakeInv(s: State, t: Tid)
    requires Inv(s) && Valid(s, t) && (s.stacks[t] == [] || Top(s.stacks[t]).at.Helping?) && Next(s, t).Some?
    ensures Inv(DoRunPending(s, t)) && Extends(s, DoRunPending(s, t))
  {
    var s', k := DoRunPending(s, t), Next(s, t).value;
    NextPending(s, t, k);
    TakeQueues(s, s', t, k);
    TakeExtends(s, s', t, k);
    TakeFrames(s, s', t, k);
    forall j {:trigger TaskInv(s', j)} | 0 <= j < |s'.tasks| ensures TaskInv(s', j) {
      assert TaskInv(s, j);
    }
  }

  /** The top activation of `t` has its result. */
  ghost predicate Finishes(s: State, t: Tid, r: seq<Elem>)
    requires Valid(s, t)
  {
    s.stacks[t] != []
    && var at := Top(s.stacks[t]).at;
       (at == Entry([]) && r == []) || (at.Waiting? && IsDone(s, at.lower)
           && r == s.tasks[at.lower].status.result + at.rest)
  }

  lemma FinishSorted(s: State, t: Tid, r: seq<Elem>)
    requires Inv(s) && Valid(s, t) && Finishes(s, t, r)
    ensures IsSort(r, Top(s.stacks[t]).want)
  {
    var f, n := Top(s.stacks[t]), |s.stacks[t]| - 1;
    assert FrameInv(s, t, n);
    if f.at.Waiting? {
      assert TaskInv(s, f.at.lower);
      WholeSorted(f.want, f.at.rest, s.tasks[f.at.lower].input, s.tasks[f.at.lower].status.result);
    }
  }

  lemma ReturnBodyInv(s: State, t: Tid, r: seq<Elem>)
    requires Inv(s) && Valid(s, t) && Finishes(s, t, r) && Top(s.stacks[t]).kind.Body?
    ensures Inv(DoReturn(s, t, r)) && Extends(s, DoReturn(s, t, r))
  {
    var s', n, k := DoReturn(s, t, r), |s.stacks[t]| - 1, Top(s.stacks[t]).kind.task;
    assert FrameInv(s, t, n);
    FinishSorted(s, t, r);
    OtherFrames(s, s', t, n);
    forall j {:trigger TaskInv(s', j)} | 0 <= j < |s'.tasks| ensures TaskInv(s', j) {
      assert TaskInv(s, j);
    }
    forall j | j in s'.global ensures Queued(s', j, None) {
      assert Queued(s, j, None);
    }
    forall u {:trigger LocalInv(s', u)} | 0 <= u < |s'.locals| ensures LocalInv(s', u) {
      assert LocalInv(s, u);
      if s.locals[u].Some? {
        forall j | j in s'.locals[u].value ensures Queued(s', j, Some(u)) {
          assert Queued(s, j, Some(u));
        }
      }
    }
  }

  /** Only the caller of the activation that returns changes: it starts to wait. */
  lemma InnerShape(s: State, t: Tid, r: seq<Elem>)
    requires Inv(s) && Valid(s, t) && Finishes(s, t, r) && Top(s.stacks[t]).kind.Inner?
    ensures var st := s.stacks[t]; var m := |st| - 2;
      && 0 <= m && st[m].at.InHigher?
      && DoReturn(s, t, r) == s.(stacks := s.stacks[t := st[..m] + [st[m].(at := Waiting([st[m].at.pivot] + r,
          st[m].at.lower))]])
  {
    var st := s.stacks[t];
    var n := |st| - 1;
    assert FrameInv(s, t, n);
    assert Under(Under(st)) == st[..n - 1];
  }

  lemma ReturnInnerFrames(s: State, s': State, t: Tid, r: seq<Elem>, m: nat, f: Frame)
    requires Inv(s) && Valid(s, t) && m == |s.stacks[t]| - 2 && s.stacks[t][m].at.InHigher?
             && IsSort(r, Top(s.stacks[t]).want)
    requires f == s.stacks[t][m].(at := Waiting([s.stacks[t][m].at.pivot] + r, s.stacks[t][m].at.lower))
    requires s' == s.(stacks := s.stacks[t := s.stacks[t][..m] + [f]])
    ensures Frames(s')
  {
    var st, n := s.stacks[t], m + 1;
    assert FrameInv(s, t, n);
    assert FrameInv(s, t, m);
    UpperSorted(st[m].want, st[m].at.pivot, s.tasks[st[m].at.lower].input, st[n].want, r);
    OtherFrames(s, s', t, m);
    assert FrameInv(s', t, m);
  }

  lemma ReturnInnerInv(s: State, t: Tid, r: seq<Elem>)
    requires Inv(s) && Valid(s, t) && Finishes(s, t, r) && Top(s.stacks[t]).kind.Inner?
    ensures Inv(DoReturn(s, t, r)) && Extends(s, DoReturn(s, t, r))
  {
    var s', m := DoReturn(s, t, r), |s.stacks[t]| - 2;
    InnerShape(s, t, r);
    FinishSorted(s, t, r);
    ReturnInnerFrames(s, s', t, r, m, s'.stacks[t][m]);
    forall j {:trigger TaskInv(s', j)} | 0 <= j < |s'.tasks| ensures TaskInv(s', j) {
      assert TaskInv(s, j);
    }
    assert Queues(s') by {
      forall u {:trigger LocalInv(s', u)} | 0 <= u < |s'.locals| ensures LocalInv(s', u) {
        assert LocalInv(s, u);
      }
    }
  }

  lemma ReturnInv(s: State, t: Tid, r: seq<Elem>)
    requires Inv(s) && Valid(s, t) && Finishes(s, t, r)
    ensures Inv(DoReturn(s, t, r)) && Extends(s, DoReturn(s, t, r))
  {
    if Top(s.stacks[t]).kind.Body? {
      ReturnBodyInv(s, t, r);
    } else {
      ReturnInnerInv(s, t, r);
    }
  }

  lemma RunPendingInv(s: State, t: Tid)
    requires Inv(s) && Valid(s, t) && (s.stacks[t] == [] || Top(s.stacks[t]).at.Helping?)
    ensures Inv(DoRunPending(s, t)) && Extends(s, DoRunPending(s, t))
  {
    if Next(s, t).Some? {
      TakeInv(s, t);
    } else if s.stacks[t] == [] {
      assert DoRunPending(s, t) == s;
    } else {
      ToggleInv(s, DoRunPending(s, t), t);
    }
  }

  lemma StepInv(s: State, t: Tid, c: Choice)
    requires Inv(s) && Valid(s, t)
    ensures Inv(Step(s, t, c)) && Extends(s, Step(s, t, c))
  {
    if s.stacks[t] == [] {
      if t == 0 {
        StopInv(s);
      } else if !s.done {
        RunPendingInv(s, t);
      }
    } else {
      match Top(s.stacks[t]).at
      case Entry(chunk) =>
        if chunk == [] {
          ReturnInv(s, t, []);
        } else {
          SplitInv(s, t, c);
        }
      case InHigher(_, _) =>
      case Waiting(rest, k) =>
        if IsDone(s, k) {
          ReturnInv(s, t, s.tasks[k].status.result + rest);
        } else {
          ToggleInv(s, DoPoll(s, t), t);
        }
      case Helping(_, _) => RunPendingInv(s, t);
    }
  }

  lemma StopInv(s: State)
    requires Inv(s)
    ensures Inv(s.(done := true))
  {
    var s' := s.(done := true);
    forall t, i {:trigger FrameInv(s', t, i)} | 0 <= t < |s'.stacks| && 0 <= i < |s'.stacks[t]|
      ensures FrameInv(s', t, i)
    {
      assert FrameInv(s, t, i);
    }
    forall k {:trigger TaskInv(s', k)} | 0 <= k < |s'.tasks| ensures TaskInv(s', k) {
      assert TaskInv(s, k);
    }
    forall u {:trigger LocalInv(s', u)} | 0 <= u < |s'.locals| ensures LocalInv(s', u) {
      assert LocalInv(s, u);
    }
  }
}
