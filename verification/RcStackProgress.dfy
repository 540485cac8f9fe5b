/** Progress of pop on the reference-counted stack: alone it is done within ten steps, but two pops can
    keep each other from finishing for ever. */
module RcStackProgress {
  import opened Wrappers
  import opened LinearSpec
  import opened RcStack
  import opened RcStackInvariant
  import opened RcStackTheorems

  // ---------------------------------------------------------------- a pop that runs alone

  /** The number of steps `t` has to make until its pop can return, if no other thread moves. */
  function Left(s: State, t: Tid): nat
    requires t in s.pc
  {
    match s.pc[t]
    case PopFree(_, _, _) => 1
    case PopAdd(_, _, _) => 2
    case PopData(_, _) => 3
    case PopCas(seen, _, _) => if seen == s.head then 4 else 9
    case PopNext(seen, _) => if seen == s.head then 5 else 10
    case PopInc(seen) => if seen == s.head then 6 else 7
    case PopLoad => 7
    case RetryFree(_, _, seen) => if seen == s.head then 7 else 8
    case PopSub(_, _, seen) => if seen == s.head then 8 else 9
    case _ => 0
  }

  lemma StepLeft(s: State, t: Tid, c: Choice)
    requires t in s.pc && InPop(s.pc[t]) && !s.pc[t].PopRet? && !Step(s, t, c).fault
    ensures var s' := Step(s, t, c); t in s'.pc && InPop(s'.pc[t]) && Left(s', t) < Left(s, t)
  {
  }

  /** The schedule in which only `t` moves. */
  function Alone(t: Tid, cs: seq<Choice>): Schedule {
    seq(|cs|, i requires 0 <= i < |cs| => (t, cs[i]))
  }

  lemma RunStep(threads: set<Tid>, sched: Schedule, t: Tid, c: Choice)
    requires t in Run(threads, sched).pc
    ensures Run(threads, sched + [(t, c)]) == Step(Run(threads, sched), t, c)
  {
    assert (sched + [(t, c)])[..|sched|] == sched;
  }

  lemma RunLeft(threads: set<Tid>, sched: Schedule, t: Tid, c: Choice)
    requires var s := Run(threads, sched); t in s.pc && InPop(s.pc[t]) && !s.pc[t].PopRet?
    ensures var s' := Run(threads, sched + [(t, c)]);
      t in s'.pc && InPop(s'.pc[t]) && Left(s', t) < Left(Run(threads, sched), t)
  {
    RunStep(threads, sched, t, c);
    MemorySafety(threads, sched + [(t, c)]);
    StepLeft(Run(threads, sched), t, c);
  }

  lemma Shift(sched: Schedule, t: Tid, cs: seq<Choice>, m: nat)
    requires m < |cs|
    ensures sched + [(t, cs[0])] + Alone(t, cs[1..][..m]) == sched + Alone(t, cs[..m + 1])
  {
  }

  ghost predicate Returns(threads: set<Tid>, sched: Schedule, t: Tid) {
    t in Run(threads, sched).pc && Run(threads, sched).pc[t].PopRet?
  }

  lemma {:induction false} AloneReturns(threads: set<Tid>, sched: Schedule, t: Tid, cs: seq<Choice>) returns (k: nat)
    requires var s := Run(threads, sched); t in s.pc && InPop(s.pc[t]) && Left(s, t) <= |cs|
    ensures k <= Left(Run(threads, sched), t) && k <= |cs| && Returns(threads, sched + Alone(t, cs[..k]), t)
    decreases |cs|
  {
    if Returns(threads, sched, t) {
      k := 0;
      assert sched + Alone(t, cs[..0]) == sched;
    } else {
      RunLeft(threads, sched, t, cs[0]);
      var m := AloneReturns(threads, sched + [(t, cs[0])], t, cs[1..]);
      Shift(sched, t, cs, m);
      k := m + 1;
    }
  }

  /** In every reachable state, a pop that is left alone comes to its return within ten steps. */
  lemma PopAloneFinishes(threads: set<Tid>, sched: Schedule, t: Tid, cs: seq<Choice>) returns (k: nat)
    requires t in Run(threads, sched).pc && InPop(Run(threads, sched).pc[t]) && 10 <= |cs|
    ensures k <= 10 && Returns(threads, sched + Alone(t, cs[..k]), t)
  {
    k := AloneReturns(threads, sched, t, cs);
  }

  // ---------------------------------------------------------------- two pops that never finish

  /** `t` is about to count the head node, and `u` is about to compare-exchange it away. */
  ghost predicate Race(s: State, t: Tid, u: Tid) {
    && t in s.pc && u in s.pc && t != u
    && s.pc[t] == PopInc(s.head)
    && s.pc[u].PopCas? && s.pc[u].seen == s.head && Live(s, s.head.ptr, s.pc[u].id)
    && s.head.ptr != NULL && s.heap[s.head.ptr].internal <= 0
  }

  /** Half a round: `t` counts the node; for that reason `u` fails, and releases the node; `t` reads `next`. */
  function Half(t: Tid, u: Tid, c: Choice): Schedule {
    [(t, c), (u, c), (u, c), (t, c)]
  }

  /** One step of `Half` after the other, each without a visible event. */
  lemma HalfSteps(s: State, t: Tid, u: Tid, c: Choice) returns (s1: State, s2: State, s3: State, s4: State)
    requires Race(s, t, u)
    ensures t in s.pc && s1 == Step(s, t, c) && Event(s, t, c) == Silent
    ensures u in s1.pc && s2 == Step(s1, u, c) && Event(s1, u, c) == Silent
    ensures u in s2.pc && s3 == Step(s2, u, c) && Event(s2, u, c) == Silent
    ensures t in s3.pc && s4 == Step(s3, t, c) && Event(s3, t, c) == Silent
    ensures Race(s4, u, t) && s4.chain == s.chain
  {
    s1 := Step(s, t, c);
    assert s1.head == Counted(s.head.count + 1, s.head.ptr) && s1.pc[t] == PopNext(s1.head, s.heap[s.head.ptr].id);
    s2 := Step(s1, u, c);
    assert s2 == s1.(pc := s1.pc[u := PopSub(s1.head.ptr, s.pc[u].id, s1.head)]);
    s3 := Step(s2, u, c);
    assert s3.head == s1.head && s3.pc[u] == PopInc(s1.head) && s3.pc[t] == s1.pc[t];
    s4 := Step(s3, t, c);
  }

  function Silents(n: nat): seq<Label> {
    seq(n, _ => Silent)
  }

  lemma TraceStep(threads: set<Tid>, sched: Schedule, t: Tid, c: Choice, k: nat, start: seq<Label>)
    requires t in Run(threads, sched).pc && Event(Run(threads, sched), t, c) == Silent
    requires Trace(threads, sched) == start + Silents(k)
    ensures Run(threads, sched + [(t, c)]) == Step(Run(threads, sched), t, c)
    ensures Trace(threads, sched + [(t, c)]) == start + Silents(k + 1)
  {
    assert (sched + [(t, c)])[..|sched|] == sched;
    assert Silents(k + 1) == Silents(k) + [Silent];
  }

  /** A run that comes from one with labels `start` by `k` silent steps, with the two threads in a race
      over the nodes of `chain`. */
  ghost predicate Racing(threads: set<Tid>, sched: Schedule, t: Tid, u: Tid, chain: seq<Addr>, start: seq<Label>,
                         k: nat) {
    && Race(Run(threads, sched), t, u) && Run(threads, sched).chain == chain
    && Trace(threads, sched) == start + Silents(k)
  }

  /** After half a round the two threads have changed places, and nothing has happened to the stack. */
  lemma HalfRound(threads: set<Tid>, sched: Schedule, t: Tid, u: Tid, c: Choice, chain: seq<Addr>, start: seq<Label>,
                  k: nat)
    requires Racing(threads, sched, t, u, chain, start, k)
    ensures Racing(threads, sched + Half(t, u, c), u, t, chain, start, k + 4)
  {
    var s1, s2, s3, s4 := HalfSteps(Run(threads, sched), t, u, c);
    TraceStep(threads, sched, t, c, k, start);
    TraceStep(threads, sched + [(t, c)], u, c, k + 1, start);
    TraceStep(threads, sched + [(t, c)] + [(u, c)], u, c, k + 2, start);
    TraceStep(threads, sched + [(t, c)] + [(u, c)] + [(u, c)], t, c, k + 3, start);
    assert sched + Half(t, u, c) == sched + [(t, c)] + [(u, c)] + [(u, c)] + [(t, c)];
  }

  /** `n` half rounds, the two threads changing places after each. */
  function Duel(t: Tid, u: Tid, c: Choice, n: nat): Schedule
    decreases n
  {
    if n == 0 then [] else Half(t, u, c) + Duel(u, t, c, n - 1)
  }

  /** The one of the two that `t` stands for after `n` half rounds. */
  function Next(t: Tid, u: Tid, n: nat): Tid
    decreases n
  {
    if n == 0 then t else Next(u, t, n - 1)
  }

  lemma {:induction false} NextOf(t: Tid, u: Tid, n: nat)
    ensures if Next(t, u, n) == t then Next(u, t, n) == u else Next(t, u, n) == u && Next(u, t, n) == t
    decreases n
  {
    if n != 0 {
      NextOf(u, t, n - 1);
    }
  }

  lemma {:induction false} DuelGoesOn(threads: set<Tid>, sched: Schedule, t: Tid, u: Tid, c: Choice, n: nat,
                                      chain: seq<Addr>, start: seq<Label>, k: nat, all: Schedule)
    requires Racing(threads, sched, t, u, chain, start, k) && all == sched + Duel(t, u, c, n)
    ensures Racing(threads, all, Next(t, u, n), Next(u, t, n), chain, start, k + 4 * n)
    decreases n
  {
    if n == 0 {
      assert all == sched;
    } else {
      HalfRound(threads, sched, t, u, c, chain, start, k);
      DuelUnrolls(sched, t, u, c, n);
      DuelGoesOn(threads, sched + Half(t, u, c), u, t, c, n - 1, chain, start, k + 4, all);
    }
  }

  lemma DuelUnrolls(sched: Schedule, t: Tid, u: Tid, c: Choice, n: nat)
    requires 0 < n
    ensures sched + Duel(t, u, c, n) == sched + Half(t, u, c) + Duel(u, t, c, n - 1)
  {
  }

  const FIRST: Addr := 1
  const POP := Choice(DoPop, FIRST, false)

  /** `u` pushes `v`. */
  function PushAlone(u: Tid, v: Value): Schedule {
    var x := (u, Choice(DoPush(v), FIRST, false));
    [x] + [x] + [x] + [x] + [x]
  }

  /** The state in which only `v` has been pushed, except for what is said about `u` and the node. */
  ghost function Pushed(threads: set<Tid>, u: Tid, p: Pc, head: Counted, n: Node, chain: seq<Addr>): State {
    State(head, map[FIRST := n], Init(threads).pc[u := p], 1, {}, false, chain)
  }

  lemma HalfPushed(threads: set<Tid>, u: Tid, v: Value, x: (Tid, Choice))
    requires u in threads && x == (u, Choice(DoPush(v), FIRST, false))
    ensures Run(threads, [x] + [x] + [x])
         == Pushed(threads, u, PushCas(FIRST, 0, v), Counted(0, NULL), Node(0, Some(v), 0, Counted(0, NULL), Fresh(u)),
                   [])
  {
    RunStep(threads, [], u, x.1);
    assert [] + [x] == [x];
    RunStep(threads, [x], u, x.1);
    var n := Node(0, Some(v), 0, Counted(0, NULL), Fresh(u));
    assert Run(threads, [x] + [x]) == Pushed(threads, u, PushLoad(FIRST, 0, v), Counted(0, NULL), n, []);
    RunStep(threads, [x] + [x], u, x.1);
  }

  lemma OnePushed(threads: set<Tid>, u: Tid, v: Value)
    requires u in threads
    ensures Run(threads, PushAlone(u, v))
         == Pushed(threads, u, Idle, Counted(1, FIRST), Node(0, Some(v), 0, Counted(0, NULL), Linked(1)), [FIRST])
  {
    var x := (u, Choice(DoPush(v), FIRST, false));
    HalfPushed(threads, u, v, x);
    RunStep(threads, [x] + [x] + [x], u, x.1);
    RunStep(threads, [x] + [x] + [x] + [x], u, x.1);
  }

  /** `u` pushes a value and pops as far as its compare-exchange, then `t` pops as far as counting the node. */
  function Setup(t: Tid, u: Tid, v: Value): Schedule {
    PushAlone(u, v) + [(u, POP)] + [(u, POP)] + [(u, POP)] + [(u, POP)] + [(t, POP)] + [(t, POP)]
  }

  lemma RaceStarts(threads: set<Tid>, t: Tid, u: Tid, v: Value)
    requires t in threads && u in threads && t != u
    ensures Race(Run(threads, Setup(t, u, v)), t, u) && Run(threads, Setup(t, u, v)).chain == [FIRST]
  {
    var q := PushAlone(u, v) + [(u, POP)] + [(u, POP)] + [(u, POP)] + [(u, POP)];
    PopStarts(threads, t, u, v);
    RunStep(threads, q, t, POP);
    RunStep(threads, q + [(t, POP)], t, POP);
  }

  /** Four steps into the pop of `u` the other thread is still idle. */
  lemma PopStarts(threads: set<Tid>, t: Tid, u: Tid, v: Value)
    requires t in threads && u in threads && t != u
    ensures var s := Run(threads, PushAlone(u, v) + [(u, POP)] + [(u, POP)] + [(u, POP)] + [(u, POP)]);
            && t in s.pc && u in s.pc && s.pc[t] == Idle && s.pc[u].PopCas? && s.pc[u].seen == s.head
            && s.head == Counted(2, FIRST) && s.chain == [FIRST] && !s.fault
            && Live(s, FIRST, s.pc[u].id) && s.heap[FIRST].internal == 0
  {
    var p := PushAlone(u, v);
    OnePushed(threads, u, v);
    RunStep(threads, p, u, POP);
    RunStep(threads, p + [(u, POP)], u, POP);
    RunStep(threads, p + [(u, POP)] + [(u, POP)], u, POP);
    RunStep(threads, p + [(u, POP)] + [(u, POP)] + [(u, POP)], u, POP);
  }

  /** Pop is not lock-free: two threads can go on for ever, each making the compare-exchange of the other
      fail by counting the node, while the stack holds a value and no operation takes effect or returns. */
  lemma PopsStarve(threads: set<Tid>, t: Tid, u: Tid, v: Value, n: nat)
    requires t in threads && u in threads && t != u
    ensures var sched := Setup(t, u, v) + Duel(t, u, POP, n); var s := Run(threads, sched);
      && t in s.pc && InPop(s.pc[t]) && u in s.pc && InPop(s.pc[u]) && s.chain == [FIRST]
      && Trace(threads, sched) == Trace(threads, Setup(t, u, v)) + Silents(4 * n)
  {
    RaceStarts(threads, t, u, v);
    var start := Trace(threads, Setup(t, u, v));
    assert start == start + Silents(0);
    NextOf(t, u, n);
    DuelGoesOn(threads, Setup(t, u, v), t, u, POP, n, [FIRST], start, 0, Setup(t, u, v) + Duel(t, u, POP, n));
  }
}
