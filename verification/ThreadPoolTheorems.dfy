/** What holds in every run of the helping pool. */
module ThreadPoolTheorems {
  import opened Wrappers
  import opened ThreadPool
  import opened ThreadPoolInvariant
  import opened ThreadPoolProgress

  /** The number of steps of a run that were not polls or yields. */
  ghost function Worked(input: seq<Elem>, local: seq<bool>, sched: Schedule): nat
    requires local != []
  {
    if sched == [] then 0
    else
      var before := sched[..|sched| - 1];
      Worked(input, local, before) + if Works(Run(input, local, before), sched[|sched| - 1].0) then 1 else 0
  }

  ghost predicate RootInv(s: State, input: seq<Elem>) {
    && s.tasks != [] && s.tasks[0].input == input
    && (s.tasks[0].status == Running(0, 0) || s.tasks[0].status.Done?)
    && (s.done ==> s.tasks[0].status.Done?)
  }

  lemma InitInv(input: seq<Elem>, local: seq<bool>)
    requires local != []
    ensures Inv(Init(input, local)) && RootInv(Init(input, local), input) && Work(Init(input, local)) == 4 * |input| + 1
  {
    var s := Init(input, local);
    assert FrameInv(s, 0, 0);
    assert TaskInv(s, 0);
    var f := s.stacks[0][0];
    EmptyWork(s.stacks[1..]);
    assert s.stacks[0] == [] + [f];
    StackPush([], f);
    assert s.tasks == [] + [s.tasks[0]];
    TasksAppend([], s.tasks[0]);
  }

  lemma {:induction false} EmptyWork(ss: seq<seq<Frame>>)
    requires forall i :: 0 <= i < |ss| ==> ss[i] == []
    ensures StacksWork(ss) == 0
  {
    if ss != [] {
      EmptyWork(ss[1..]);
    }
  }

  lemma RootStep(s: State, t: Tid, c: Choice, input: seq<Elem>)
    requires Inv(s) && RootInv(s, input) && Valid(s, t)
    ensures RootInv(Step(s, t, c), input)
  {
    assert TaskInv(s, 0);
    if s.stacks[t] != [] {
      assert FrameInv(s, t, |s.stacks[t]| - 1);
    }
    if (s.stacks[t] == [] || Top(s.stacks[t]).at.Helping?) && Next(s, t).Some? {
      NextPending(s, t, Next(s, t).value);
    }
  }

  lemma {:induction false} RunInv(input: seq<Elem>, local: seq<bool>, sched: Schedule)
    requires local != []
    ensures var s := Run(input, local, sched);
      Inv(s) && RootInv(s, input) && Worked(input, local, sched) + Work(s) <= 4 * |input| + 1
  {
    if sched == [] {
      InitInv(input, local);
    } else {
      var before := sched[..|sched| - 1];
      var (t, c) := sched[|sched| - 1];
      RunInv(input, local, before);
      var s := Run(input, local, before);
      if Valid(s, t) {
        StepInv(s, t, c);
        StepWork(s, t, c);
        RootStep(s, t, c, input);
      }
    }
  }

  /** No deadlock: in every reachable state of a sort that has not returned, for any number of workers
      including zero, some thread uses up work if it is scheduled twice. */
  lemma NoDeadlock(input: seq<Elem>, local: seq<bool>, sched: Schedule) returns (t: Tid)
    requires local != [] && !IsDone(Run(input, local, sched), 0)
    ensures forall c, d :: Advances(Run(input, local, sched), t, c, d)
  {
    RunInv(input, local, sched);
    var s := Run(input, local, sched);
    t := SomeoneCanAct(s);
    forall c, d ensures Advances(s, t, c, d) {
      ActsInTwo(s, t, c, d);
    }
  }

  /** Termination: no run makes more than four working steps for each element, and one more. */
  lemma BoundedWork(input: seq<Elem>, local: seq<bool>, sched: Schedule)
    requires local != []
    ensures Worked(input, local, sched) <= 4 * |input| + 1
  {
    RunInv(input, local, sched);
  }

  /** The result: whichever threads ran the halves, and in whatever order, the call returns a sorted
      permutation of its input; and then every submitted task has been run and nothing is queued, so
      that destroying the pool abandons nothing. */
  lemma SortResult(input: seq<Elem>, local: seq<bool>, sched: Schedule)
    requires local != []
    ensures var s := Run(input, local, sched);
      && (s.done ==> IsDone(s, 0))
      && (IsDone(s, 0) ==>
           && IsSort(s.tasks[0].status.result, input)
           && (forall t :: 0 <= t < |s.stacks| ==> s.stacks[t] == [])
           && (forall k :: 0 <= k < |s.tasks| ==> s.tasks[k].status.Done?)
           && s.global == [] && forall t :: 0 <= t < |s.locals| ==> s.locals[t] in {None, Some([])})
  {
    RunInv(input, local, sched);
    var s := Run(input, local, sched);
    assert TaskInv(s, 0);
    if s.tasks[0].status.Done? {
      Quiescent(s);
    }
  }

  /** Every task that is ever done was done correctly. */
  lemma EveryTaskSorts(input: seq<Elem>, local: seq<bool>, sched: Schedule, k: nat)
    requires local != [] && IsDone(Run(input, local, sched), k)
    ensures IsSort(Run(input, local, sched).tasks[k].status.result, Run(input, local, sched).tasks[k].input)
  {
    RunInv(input, local, sched);
    assert TaskInv(Run(input, local, sched), k);
  }
}
