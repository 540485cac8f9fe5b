/** Why nested waiting cannot deadlock, and a bound on the work. */
module ThreadPoolProgress {
  import opened Wrappers
  import opened ThreadPool
  import opened ThreadPoolInvariant

  // ---------------------------------------------------------------- progress

  /** Thread `t` can compute, finish its wait, or take a pending task. */
  predicate CanAct(s: State, t: Tid) {
    Valid(s, t)
    && if s.stacks[t] == [] then t != 0 && !s.done && Next(s, t).Some?
       else
         match Top(s.stacks[t]).at
         case Entry(_) => true
         case InHigher(_, _) => false
         case Waiting(_, k) => IsDone(s, k) || Next(s, t).Some?
         case Helping(_, k) => IsDone(s, k) || Next(s, t).Some?
  }

  ghost predicate HasFrames(s: State, t: Tid) {
    t < |s.stacks| && s.stacks[t] != []
  }

  lemma {:induction false} StartsGrow(s: State, t: Tid, i: nat, j: nat)
    requires Inv(s) && t < |s.stacks| && i <= j < |s.stacks[t]|
    ensures s.stacks[t][i].start <= s.stacks[t][j].start
  {
    if i < j {
      assert FrameInv(s, t, j);
      StartsGrow(s, t, i, j - 1);
    }
  }

  /** The thread whose top activation started last. */
  lemma {:induction false} Youngest(s: State, n: nat) returns (t: Tid)
    requires n <= |s.stacks| && exists u: Tid :: u < n && HasFrames(s, u)
    ensures t < n && HasFrames(s, t)
    ensures forall u: Tid :: u < n && HasFrames(s, u) ==> Top(s.stacks[u]).start <= Top(s.stacks[t]).start
  {
    if exists u: Tid :: u < n - 1 && HasFrames(s, u) {
      t := Youngest(s, n - 1);
      if HasFrames(s, n - 1) && Top(s.stacks[t]).start < Top(s.stacks[n - 1]).start {
        t := n - 1;
      }
    } else {
      t := n - 1;
    }
  }

  /** The thread whose bottom activation started first. */
  lemma {:induction false} Oldest(s: State, n: nat) returns (t: Tid)
    requires n <= |s.stacks| && exists u: Tid :: u < n && HasFrames(s, u)
    ensures t < n && HasFrames(s, t)
    ensures forall u: Tid :: u < n && HasFrames(s, u) ==> s.stacks[t][0].start <= s.stacks[u][0].start
  {
    if exists u: Tid :: u < n - 1 && HasFrames(s, u) {
      t := Oldest(s, n - 1);
      if HasFrames(s, n - 1) && s.stacks[n - 1][0].start < s.stacks[t][0].start {
        t := n - 1;
      }
    } else {
      t := n - 1;
    }
  }

  /** Nested waiting never deadlocks.  The activation that started last is on top of its stack, and what
      it waits for started even later if it runs at all; so its task is done, or is there to be taken. */
  lemma SomeoneCanAct(s: State) returns (t: Tid)
    requires Inv(s) && !s.tasks[0].status.Done?
    ensures CanAct(s, t)
  {
    assert TaskInv(s, 0);
    assert HasFrames(s, s.tasks[0].status.t);
    t := Youngest(s, |s.stacks|);
    var n := |s.stacks[t]| - 1;
    assert FrameInv(s, t, n);
    var f := s.stacks[t][n];
    if f.at.Waiting? || f.at.Helping? {
      var k := f.at.lower;
      assert TaskInv(s, k);
      if s.tasks[k].status.Running? {
        var u, i := s.tasks[k].status.t, s.tasks[k].status.level;
        assert FrameInv(s, u, i);
        assert HasFrames(s, u);
        StartsGrow(s, u, i, |s.stacks[u]| - 1);
        assert false;
      }
    }
  }

  lemma FirstPending(s: State, q: seq<nat>, t: Option<Tid>)
    requires QueueInv(s, q, t)
    ensures q != [] ==> q[0] < |s.tasks| && s.tasks[q[0]].status == Pending
  {
    if q != [] {
      assert Queued(s, q[0], t);
    }
  }

  /** When the outermost call has returned, no activation is left and every task has been run. */
  lemma Quiescent(s: State)
    requires Inv(s) && s.tasks[0].status.Done?
    ensures forall t :: 0 <= t < |s.stacks| ==> s.stacks[t] == []
    ensures forall k :: 0 <= k < |s.tasks| ==> s.tasks[k].status.Done?
    ensures s.global == [] && forall t :: 0 <= t < |s.locals| ==> s.locals[t] in {None, Some([])}
  {
    if exists t: Tid :: t < |s.stacks| && HasFrames(s, t) {
      var t := Oldest(s, |s.stacks|);
      assert FrameInv(s, t, 0);
      var k := s.stacks[t][0].kind.task;
      assert TaskInv(s, k);
      var u, i := s.tasks[k].owner, s.tasks[k].depth;
      assert FrameInv(s, u, i);
      assert HasFrames(s, u);
      StartsGrow(s, u, 0, i);
      assert false;
    }
    forall t | 0 <= t < |s.stacks| ensures s.stacks[t] == [] {
      assert !HasFrames(s, t);
    }
    forall k | 0 <= k < |s.tasks| ensures s.tasks[k].status.Done? {
      assert TaskInv(s, k);
    }
    FirstPending(s, s.global, None);
    forall t | 0 <= t < |s.locals| ensures s.locals[t] in {None, Some([])} {
      assert LocalInv(s, t);
      if s.locals[t].Some? {
        FirstPending(s, s.locals[t].value, Some(t));
      }
    }
  }

  // ---------------------------------------------------------------- termination

  function FrameWork(f: Frame): nat {
    if f.at.Entry? then 4 * |f.at.chunk| + 1 else 1
  }

  function StackWork(st: seq<Frame>): nat {
    if st == [] then 0 else StackWork(Under(st)) + FrameWork(Top(st))
  }

  function StacksWork(ss: seq<seq<Frame>>): nat {
    if ss == [] then 0 else StackWork(ss[0]) + StacksWork(ss[1..])
  }

  function TaskWork(x: Task): nat {
    if x.status == Pending then 4 * |x.input| + 2 else 0
  }

  function TasksWork(xs: seq<Task>): nat {
    if xs == [] then 0 else TaskWork(xs[0]) + TasksWork(xs[1..])
  }

  /** An upper bound on the work left to do. */
  function Work(s: State): nat {
    StacksWork(s.stacks) + TasksWork(s.tasks)
  }

  lemma {:induction false} StacksUpdate(ss: seq<seq<Frame>>, t: nat, st: seq<Frame>)
    requires t < |ss|
    ensures StacksWork(ss[t := st]) == StacksWork(ss) - StackWork(ss[t]) + StackWork(st)
  {
    if t == 0 {
      assert ss[t := st] == [st] + ss[1..];
    } else {
      assert ss[t := st] == [ss[0]] + ss[1..][t - 1 := st];
      StacksUpdate(ss[1..], t - 1, st);
    }
  }

  lemma {:induction false} TasksUpdate(xs: seq<Task>, k: nat, x: Task)
    requires k < |xs|
    ensures TasksWork(xs[k := x]) == TasksWork(xs) - TaskWork(xs[k]) + TaskWork(x)
  {
    if k == 0 {
      assert xs[k := x] == [x] + xs[1..];
    } else {
      assert xs[k := x] == [xs[0]] + xs[1..][k - 1 := x];
      TasksUpdate(xs[1..], k - 1, x);
    }
  }

  lemma {:induction false} TasksAppend(xs: seq<Task>, x: Task)
    ensures TasksWork(xs + [x]) == TasksWork(xs) + TaskWork(x)
  {
    if xs == [] {
      assert [] + [x] == [x] && [x][1..] == [];
    } else {
      assert xs + [x] == [xs[0]] + (xs[1..] + [x]);
      TasksAppend(xs[1..], x);
    }
  }

  lemma StackPush(st: seq<Frame>, f: Frame)
    ensures StackWork(st + [f]) == StackWork(st) + FrameWork(f)
  {
    assert Under(st + [f]) == st;
  }

  /** A step that is more than a poll, a yield, or the destruction of the pool. */
  predicate Works(s: State, t: Tid) {
    Valid(s, t)
    && if s.stacks[t] == [] then t != 0 && !s.done && Next(s, t).Some?
       else
         var at := Top(s.stacks[t]).at;
         at.Entry? || (at.Waiting? && IsDone(s, at.lower)) || (at.Helping? && Next(s, t).Some?)
  }

  lemma SplitWork(s: State, t: Tid, c: Choice)
    requires Inv(s) && Valid(s, t) && s.stacks[t] != [] && Top(s.stacks[t]).at.Entry? && Top(s.stacks[t]).at.chunk != []
    ensures Work(DoSplit(s, t, c)) < Work(s)
  {
    var s', st, st' := DoSplit(s, t, c), s.stacks[t], DoSplit(s, t, c).stacks[t];
    var n := |st| - 1;
    var lower, higher := s'.tasks[|s.tasks|].input, st'[n + 1].want;
    assert |lower| + |higher| == |multiset(lower) + multiset(higher)| == |multiset(st[n].at.chunk[1..])|;
    assert st' == (Under(st) + [st'[n]]) + [st'[n + 1]];
    StackPush(Under(st), st'[n]);
    StackPush(Under(st) + [st'[n]], st'[n + 1]);
    StacksUpdate(s.stacks, t, st');
    TasksAppend(s.tasks, s'.tasks[|s.tasks|]);
  }

  lemma ResumedWork(st: seq<Frame>)
    ensures StackWork(Resumed(st)) == StackWork(st)
  {
    if st != [] && Top(st).at.Helping? {
      StackPush(Under(st), Top(st).(at := Waiting(Top(st).at.rest, Top(st).at.lower)));
    }
  }

  lemma RunPendingWork(s: State, t: Tid)
    requires Inv(s) && Valid(s, t) && (s.stacks[t] == [] || Top(s.stacks[t]).at.Helping?)
    ensures if Next(s, t).Some? then Work(DoRunPending(s, t)) < Work(s) else Work(DoRunPending(s, t)) == Work(s)
  {
    var st := Resumed(s.stacks[t]);
    ResumedWork(s.stacks[t]);
    if Next(s, t).None? {
      StacksUpdate(s.stacks, t, st);
    } else {
      var k := Next(s, t).value;
      NextPending(s, t, k);
      var f := Frame(Body(k), s.tasks[k].input, s.clock, Entry(s.tasks[k].input));
      StackPush(st, f);
      StacksUpdate(s.stacks, t, st + [f]);
      TasksUpdate(s.tasks, k, s.tasks[k].(status := Running(t, |st|)));
    }
  }

  lemma InnerReturnWork(s: State, t: Tid, r: seq<Elem>)
    requires Inv(s) && Valid(s, t) && Finishes(s, t, r) && Top(s.stacks[t]).kind.Inner?
    ensures StackWork(DoReturn(s, t, r).stacks[t]) < StackWork(s.stacks[t])
  {
    var s', st := DoReturn(s, t, r), s.stacks[t];
    var n := |st| - 1;
    assert FrameInv(s, t, n);
    InnerShape(s, t, r);
    StackPush(st[..n - 1], s'.stacks[t][n - 1]);
    assert Under(Under(st)) == st[..n - 1];
    assert StackWork(st) == StackWork(Under(st)) + FrameWork(Top(st));
    assert StackWork(Under(st)) == StackWork(Under(Under(st))) + FrameWork(Top(Under(st)));
  }

  lemma ReturnWork(s: State, t: Tid, r: seq<Elem>)
    requires Inv(s) && Valid(s, t) && Finishes(s, t, r)
    ensures Work(DoReturn(s, t, r)) < Work(s)
  {
    var s', st := DoReturn(s, t, r), s.stacks[t];
    var n := |st| - 1;
    StacksUpdate(s.stacks, t, s'.stacks[t]);
    if st[n].kind.Body? {
      assert FrameInv(s, t, n);
      TasksUpdate(s.tasks, st[n].kind.task, s'.tasks[st[n].kind.task]);
    } else {
      InnerReturnWork(s, t, r);
    }
  }

  lemma TimeoutWork(s: State, t: Tid)
    requires Inv(s) && Valid(s, t) && s.stacks[t] != [] && Top(s.stacks[t]).at.Waiting?
             && !IsDone(s, Top(s.stacks[t]).at.lower)
    ensures Work(DoPoll(s, t)) == Work(s)
  {
    var f := Top(s.stacks[t]);
    StackPush(Under(s.stacks[t]), f.(at := Helping(f.at.rest, f.at.lower)));
    StacksUpdate(s.stacks, t, DoPoll(s, t).stacks[t]);
  }

  /** Every step uses up work, or is a poll or a yield and leaves the work unchanged. */
  lemma StepWork(s: State, t: Tid, c: Choice)
    requires Inv(s) && Valid(s, t)
    ensures if Works(s, t) then Work(Step(s, t, c)) < Work(s) else Work(Step(s, t, c)) == Work(s)
  {
    if s.stacks[t] == [] {
      if t != 0 && !s.done {
        RunPendingWork(s, t);
      }
    } else {
      match Top(s.stacks[t]).at
      case Entry(chunk) =>
        if chunk == [] {
          ReturnWork(s, t, []);
        } else {
          SplitWork(s, t, c);
        }
      case InHigher(_, _) =>
      case Waiting(rest, k) =>
        if IsDone(s, k) {
          ReturnWork(s, t, s.tasks[k].status.result + rest);
        } else {
          TimeoutWork(s, t);
        }
      case Helping(_, _) => RunPendingWork(s, t);
    }
  }

  /** Two steps of `t` use up work, under the given choices of the environment. */
  ghost predicate Advances(s: State, t: Tid, c: Choice, d: Choice) {
    Valid(s, t) && Valid(Step(s, t, c), t) && Work(Step(Step(s, t, c), t, d)) < Work(s)
  }

  /** A thread that can act and is scheduled twice in a row uses up work. */
  lemma ActsInTwo(s: State, t: Tid, c: Choice, d: Choice)
    requires Inv(s) && CanAct(s, t)
    ensures Advances(s, t, c, d)
  {
    StepInv(s, t, c);
    StepWork(s, t, c);
    StepWork(Step(s, t, c), t, d);
  }
}
