/** The sequential object that every concurrent container of this project is compared with.

    A `Spec` is an abstract sequence of values together with, for each thread, the phase of the
    operation that thread is executing.  A label is one visible or internal event of a run:
    a call, the instant at which an operation takes effect, a return, or a silent step.
    `SpecStep` is partial: it accepts a label only if the sequential object allows it, so a run
    whose labels it accepts is linearizable, with the effect of every operation placed between
    its call and its return.
*/
module LinearSpec {
  import opened Wrappers

  /** The element type of the containers; nothing but equality is known about it. */
  type Value(==, !new)

  type Tid = nat

  /** Which end a new value goes to; values are always taken from the front. */
  datatype Order = Lifo | Fifo

  datatype Phase =
    | Quiet
    | WantPut(v: Value)
    | DonePut
    | WantTake
    | DoneTake(r: Option<Value>)

  datatype Spec = Spec(items: seq<Value>, phase: map<Tid, Phase>)

  datatype Label =
    | CallPut(t: Tid, v: Value)
    | CallTake(t: Tid)
    | EffectPut(t: Tid)
    | EffectTake(t: Tid)
    | RetPut(t: Tid)
    | RetTake(t: Tid, r: Option<Value>)
    | Abandon(t: Tid)  // a take that leaves by an exception, without effect
    | Silent

  /** The empty container, with no operation in progress. */
  function Empty(threads: set<Tid>): Spec {
    Spec([], map t | t in threads :: Quiet)
  }

  function Put(o: Order, items: seq<Value>, v: Value): seq<Value> {
    if o == Lifo then [v] + items else items + [v]
  }

  function At(a: Spec, t: Tid, p: Phase): Spec {
    a.(phase := a.phase[t := p])
  }

  /** The sequential semantics: `None` means that the object does not allow the event. */
  function SpecStep(o: Order, a: Spec, l: Label): Option<Spec> {
    if l == Silent then Some(a)
    else if l.t !in a.phase then None
    else
      match l
      case CallPut(t, v) =>
        if a.phase[t] == Quiet then Some(At(a, t, WantPut(v))) else None
      case CallTake(t) =>
        if a.phase[t] == Quiet then Some(At(a, t, WantTake)) else None
      case EffectPut(t) =>
        if a.phase[t].WantPut?
        then Some(At(a, t, DonePut).(items := Put(o, a.items, a.phase[t].v))) else None
      case EffectTake(t) =>
        if a.phase[t] != WantTake then None
        else if a.items == [] then Some(At(a, t, DoneTake(None)))
        else Some(At(a, t, DoneTake(Some(a.items[0]))).(items := a.items[1..]))
      case RetPut(t) =>
        if a.phase[t] == DonePut then Some(At(a, t, Quiet)) else None
      case RetTake(t, r) =>
        if a.phase[t] == DoneTake(r) then Some(At(a, t, Quiet)) else None
      case Abandon(t) =>
        if a.phase[t] == WantTake then Some(At(a, t, Quiet)) else None
  }

  /** `b` is `a` after event `e` of thread `t`, said without the transition function: what becomes of
      the phase of `t` and what becomes of the items. */
  ghost predicate Matches(o: Order, a: Spec, b: Spec, t: Tid, e: Label) {
    && t in a.phase && t in b.phase && b.phase == a.phase[t := b.phase[t]]
    && (e != Silent ==> e.t == t)
    && var p, p' := a.phase[t], b.phase[t];
       match e
       case Silent => p' == p && b.items == a.items
       case CallPut(_, v) => p == Quiet && p' == WantPut(v) && b.items == a.items
       case CallTake(_) => p == Quiet && p' == WantTake && b.items == a.items
       case EffectPut(_) => p.WantPut? && p' == DonePut && b.items == Put(o, a.items, p.v)
       case EffectTake(_) =>
         p == WantTake
         && if a.items == [] then p' == DoneTake(None) && b.items == []
            else p' == DoneTake(Some(a.items[0])) && b.items == a.items[1..]
       case RetPut(_) => p == DonePut && p' == Quiet && b.items == a.items
       case RetTake(_, r) => p == DoneTake(r) && p' == Quiet && b.items == a.items
       case Abandon(_) => p == WantTake && p' == Quiet && b.items == a.items
  }

  lemma MatchesStep(o: Order, a: Spec, b: Spec, t: Tid, e: Label)
    requires Matches(o, a, b, t, e)
    ensures SpecStep(o, a, e) == Some(b)
  {
    if e == Silent {
      assert b.phase == a.phase;
    }
  }

  /** The state reached by a whole trace of labels, if every one of them is allowed. */
  function SpecRun(o: Order, a: Spec, trace: seq<Label>): Option<Spec> {
    if trace == [] then Some(a)
    else
      match SpecRun(o, a, trace[..|trace| - 1])
      case None => None
      case Some(b) => SpecStep(o, b, trace[|trace| - 1])
  }

  lemma SpecRunSnoc(o: Order, a: Spec, trace: seq<Label>, l: Label)
    ensures SpecRun(o, a, trace + [l]) ==
            match SpecRun(o, a, trace) { case None => None case Some(b) => SpecStep(o, b, l) }
  {
    assert (trace + [l])[..|trace|] == trace;
  }

  /** The value a label puts in, and the value it takes out, when performed in state `a`. */
  function PutBy(a: Spec, l: Label): multiset<Value> {
    if l.EffectPut? && l.t in a.phase && a.phase[l.t].WantPut? then multiset{a.phase[l.t].v} else multiset{}
  }

  function TakenBy(a: Spec, l: Label): multiset<Value> {
    if l.EffectTake? && a.items != [] then multiset{a.items[0]} else multiset{}
  }

  lemma StepConserves(o: Order, a: Spec, l: Label)
    requires SpecStep(o, a, l).Some?
    ensures multiset(a.items) + PutBy(a, l) == TakenBy(a, l) + multiset(SpecStep(o, a, l).value.items)
  {
    if l.EffectTake? && a.items != [] {
      assert a.items == [a.items[0]] + a.items[1..];
    }
  }

  function Puts(o: Order, a: Spec, trace: seq<Label>): multiset<Value> {
    if trace == [] then multiset{}
    else
      var before := trace[..|trace| - 1];
      Puts(o, a, before)
      + match SpecRun(o, a, before) { case None => multiset{} case Some(b) => PutBy(b, trace[|trace| - 1]) }
  }

  function Takes(o: Order, a: Spec, trace: seq<Label>): multiset<Value> {
    if trace == [] then multiset{}
    else
      var before := trace[..|trace| - 1];
      Takes(o, a, before)
      + match SpecRun(o, a, before) { case None => multiset{} case Some(b) => TakenBy(b, trace[|trace| - 1]) }
  }

  /** Over a whole run, the values taken and the values still inside are together exactly the values
      put and the values there at the start, each as often. */
  lemma {:induction false} Conservation(o: Order, a: Spec, trace: seq<Label>)
    requires SpecRun(o, a, trace).Some?
    ensures multiset(a.items) + Puts(o, a, trace)
         == Takes(o, a, trace) + multiset(SpecRun(o, a, trace).value.items)
  {
    if trace != [] {
      var before := trace[..|trace| - 1];
      var l := trace[|trace| - 1];
      Conservation(o, a, before);
      var b := SpecRun(o, a, before).value;
      StepConserves(o, b, l);
      Regroup(multiset(a.items), Puts(o, a, before), Takes(o, a, before), multiset(b.items),
              PutBy(b, l), TakenBy(b, l), multiset(SpecRun(o, a, trace).value.items));
    }
  }

  lemma Regroup(m: multiset<Value>, p: multiset<Value>, k: multiset<Value>, n: multiset<Value>,
                p': multiset<Value>, k': multiset<Value>, n': multiset<Value>)
    requires m + p == k + n && n + p' == k' + n'
    ensures m + (p + p') == (k + k') + n'
  {
    assert m + (p + p') == (k + n) + p';
    assert (k + n) + p' == k + (n + p');
  }
}
