/** The hand-over-hand list is linearizable.  All walks start at the head and, hand over hand, never overtake
    each other; so each takes effect when it locks the head, and the list that it will see is the chain with
    the walks ahead of it carried to their ends. */
module LockedListRefinement {
  import opened Wrappers
  import opened LinearSpec
  import opened LockedList
  import opened LockedListInvariant
  import opened LockedListTheorems

  // ---------------------------------------------------------------- the sequential list

  /** What a whole walk makes of a list. */
  function Walked(k: Kind, l: seq<Value>): seq<Value>
    decreases |l|
  {
    if l == [] then []
    else (if k.Remove? && Verdict(k, l[0]) then [] else [Image(k, l[0])]) + Walked(Called(k, l[0]), l[1..])
  }

  /** What a whole walk finds in it. */
  function Found(k: Kind, l: seq<Value>): Option<Value>
    decreases |l|
  {
    if l == [] || !k.Find? then None
    else if Verdict(k, l[0]) then Some(l[0])
    else Found(Called(k, l[0]), l[1..])
  }

  datatype CallPhase = Rest | Asked(o: Op) | Answered(res: Option<Value>)

  datatype ListSpec = ListSpec(items: seq<Value>, phase: map<Tid, CallPhase>)

  datatype ListLabel = Tau | Call(t: Tid, o: Op) | Effect(t: Tid) | Return(t: Tid, res: Option<Value>)

  /** What an operation makes of the list, and what it answers. */
  function Perform(items: seq<Value>, o: Op): (seq<Value>, Option<Value>) {
    match o
    case DoPush(v) => ([v] + items, None)
    case DoWalk(k) => (Walked(k, items), Found(k, items))
  }

  /** Every operation takes effect at one instant between its call and its return. */
  ghost function ListStep(a: ListSpec, l: ListLabel): Option<ListSpec> {
    if l.Tau? then Some(a)
    else if l.t !in a.phase then None
    else
      match l
      case Call(t, o) => if a.phase[t].Rest? then Some(a.(phase := a.phase[t := Asked(o)])) else None
      case Effect(t) =>
        if !a.phase[t].Asked? then None
        else
          var (items, res) := Perform(a.items, a.phase[t].o);
          Some(ListSpec(items, a.phase[t := Answered(res)]))
      case Return(t, res) =>
        if a.phase[t].Answered? && a.phase[t].res == res then Some(a.(phase := a.phase[t := Rest])) else None
  }

  ghost function ListRun(a: ListSpec, trace: seq<ListLabel>): Option<ListSpec> {
    if trace == [] then Some(a)
    else
      match ListRun(a, trace[..|trace| - 1])
      case None => None
      case Some(b) => ListStep(b, trace[|trace| - 1])
  }

  // ---------------------------------------------------------------- the events of a run

  /** A walk takes effect when it locks the head, a push when it links its node. */
  function Event(s: State, t: Tid, c: Choice): ListLabel
    requires t in s.pc
  {
    match s.pc[t]
    case Idle => Call(t, c.op)
    case PushLink(_, _) => Effect(t)
    case PushUnlock => Return(t, None)
    case Walk(k, at) =>
      if at.LockHead? then if HEAD in s.heap && s.heap[HEAD].mutex.None? then Effect(t) else Tau
      else if at.Exit? then Return(t, at.res)
      else Tau
    case _ => Tau
  }

  function Trace(threads: set<Tid>, sched: Schedule): seq<ListLabel> {
    if sched == [] then []
    else
      var s := Run(threads, sched[..|sched| - 1]);
      var (t, c) := sched[|sched| - 1];
      Trace(threads, sched[..|sched| - 1]) + [if t in s.pc then Event(s, t, c) else Tau]
  }

  // ---------------------------------------------------------------- what the pending walks will make of the list

  /** What a walk that has locked a node has still to do from there on. */
  datatype Mark =
    | NoMark            // nothing, or no walk is here
    | Here(k: Kind)     // from this element on
    | Past(k: Kind)     // from the next element on
    | Dropped(k: Kind)  // from the next element on, and this element will be taken out

  /** The node at which a walk has arrived. */
  function PlaceOf(p: Pc): Addr {
    if !p.Walk? then NULL
    else
      match p.at
      case LockHead => NULL
      case Exit(_, _) => NULL
      case Next(cur) => cur.a
      case LockNext(cur, _) => cur.a
      case UnlockOld(cur, _) => cur.a
      case Free(cur, _) => cur.a
      case _ => p.at.next.a
  }

  function MarkOf(p: Pc, a: Addr): Mark {
    if !p.Walk? || a == NULL || PlaceOf(p) != a then NoMark
    else if p.at.Test? || p.at.Visit? || (p.at.UnlockCur? && !p.k.Remove?) then Here(p.k)
    else if p.at.Detach? || p.at.Splice? then Dropped(p.k)
    else Past(p.k)
  }

  /** The mark that the owner of the mutex sets on a node. */
  function MarkAt(s: State, a: Addr): Mark {
    if a in s.heap && s.heap[a].mutex.Some? && s.heap[a].mutex.value in s.pc
    then MarkOf(s.pc[s.heap[a].mutex.value], a) else NoMark
  }

  function Combine(m: Mark, own: seq<Value>, rest: seq<Value>): seq<Value> {
    match m
    case NoMark => own + rest
    case Here(k) => Walked(k, own + rest)
    case Past(k) => own + Walked(k, rest)
    case Dropped(k) => Walked(k, rest)
  }

  function Own(s: State, a: Addr): seq<Value> {
    if a != HEAD && a in s.heap && s.heap[a].data.Some? then [s.heap[a].data.value] else []
  }

  /** What all pending walks will make of the part `m` of the list. */
  function View(s: State, m: seq<Addr>): seq<Value> {
    if m == [] then [] else Combine(MarkAt(s, m[0]), Own(s, m[0]), View(s, m[1..]))
  }

  /** The part of the list behind `a`. */
  function Behind(m: seq<Addr>, a: Addr): seq<Addr> {
    if m == [] then [] else if m[0] == a then m[1..] else Behind(m[1..], a)
  }

  /** What a walk will see from now on. */
  function WillSee(s: State, p: Pc): seq<Value> {
    var a := PlaceOf(p);
    (if MarkOf(p, a).Here? then Own(s, a) else []) + View(s, Behind(s.chain, a))
  }

  predicate Pending(p: Pc) {
    p.Walk? && !p.at.LockHead? && !p.at.Exit?
  }

  function PhaseOf(s: State, p: Pc): CallPhase {
    match p
    case Idle => Rest
    case PushAlloc(v) => Asked(DoPush(v))
    case PushLock(_, v) => Asked(DoPush(v))
    case PushSet(_, v) => Asked(DoPush(v))
    case PushLink(_, v) => Asked(DoPush(v))
    case PushUnlock => Answered(None)
    case Walk(k, at) =>
      match at
      case LockHead => Asked(DoWalk(k))
      case Exit(_, res) => Answered(res)
      case _ => Answered(Found(k, WillSee(s, p)))
  }

  function Abs(s: State): ListSpec {
    ListSpec(View(s, s.chain), map t | t in s.pc :: PhaseOf(s, s.pc[t]))
  }

  // ---------------------------------------------------------------- what changes at one place only

  /** Nothing about the nodes of `m` has changed that matters. */
  ghost predicate Same(s: State, s': State, m: seq<Addr>) {
    forall i :: 0 <= i < |m| ==> MarkAt(s', m[i]) == MarkAt(s, m[i]) && Own(s', m[i]) == Own(s, m[i])
  }

  lemma {:induction false} ViewAfter(s: State, s': State, pre: seq<Addr>, m: seq<Addr>, m': seq<Addr>)
    requires Same(s, s', pre) && View(s', m') == View(s, m)
    ensures View(s', pre + m') == View(s, pre + m)
  {
    if pre == [] {
      assert pre + m == m && pre + m' == m';
    } else {
      assert (pre + m)[1..] == pre[1..] + m && (pre + m')[1..] == pre[1..] + m';
      forall i | 0 <= i < |pre[1..]|
        ensures MarkAt(s', pre[1..][i]) == MarkAt(s, pre[1..][i]) && Own(s', pre[1..][i]) == Own(s, pre[1..][i])
      {
        assert pre[1..][i] == pre[i + 1];
      }
      ViewAfter(s, s', pre[1..], m, m');
    }
  }

  lemma ViewSame(s: State, s': State, m: seq<Addr>)
    requires Same(s, s', m)
    ensures View(s', m) == View(s, m)
  {
    ViewAfter(s, s', m, [], []);
    assert m + [] == m;
  }

  lemma {:induction false} BehindAt(m: seq<Addr>, i: nat)
    requires i < |m| && forall x, y :: 0 <= x < y < |m| ==> m[x] != m[y]
    ensures Behind(m, m[i]) == m[i + 1..]
  {
    if i != 0 {
      assert m[0] != m[i] && m[1..][i - 1] == m[i];
      BehindAt(m[1..], i - 1);
      assert m[1..][i..] == m[i + 1..];
    }
  }

  predicate Distinct(m: seq<Addr>) {
    forall x, y :: 0 <= x < y < |m| ==> m[x] != m[y]
  }

  /** Every pending walk has locked the node of the list at which it is. */
  ghost predicate PlaceInv(s: State, u: Tid)
    requires u in s.pc
  {
    Pending(s.pc[u]) ==>
      var a := PlaceOf(s.pc[u]);
      a != NULL && a in s.chain && a in s.heap && s.heap[a].mutex == Some(u)
  }

  ghost predicate Orderly(s: State) {
    Distinct(s.chain) && forall u {:trigger PlaceInv(s, u)} :: u in s.pc ==> PlaceInv(s, u)
  }

  lemma InvOrderly(s: State)
    requires Inv(s)
    ensures Orderly(s)
  {
    forall u {:trigger PlaceInv(s, u)} | u in s.pc ensures PlaceInv(s, u) {
      assert ThreadInv(s, u);
    }
  }

  /** From `s` to `s'` only the part `mid` of the list has changed, to `mid'`; no other walk is there. */
  ghost predicate Local(s: State, s': State, t: Tid, pre: seq<Addr>, mid: seq<Addr>, mid': seq<Addr>, post: seq<Addr>) {
    && Orderly(s) && Orderly(s') && t in s.pc && t in s'.pc && s'.pc == s.pc[t := s'.pc[t]]
    && s.chain == pre + (mid + post) && s'.chain == pre + (mid' + post)
    && Same(s, s', pre) && Same(s, s', post)
    && (forall b :: b in mid && b in s.heap ==> s.heap[b].mutex == None || s.heap[b].mutex == Some(t))
  }

  /** What the pending walks will make of the part and of what follows it is the same. */
  ghost predicate Keeps(s: State, s': State, mid: seq<Addr>, mid': seq<Addr>, post: seq<Addr>) {
    View(s', mid' + post) == View(s, mid + post)
  }

  lemma LocalItems(s: State, s': State, t: Tid, pre: seq<Addr>, mid: seq<Addr>, mid': seq<Addr>, post: seq<Addr>)
    requires Local(s, s', t, pre, mid, mid', post) && Keeps(s, s', mid, mid', post)
    ensures View(s', s'.chain) == View(s, s.chain)
  {
    ViewAfter(s, s', pre, mid + post, mid' + post);
  }

  lemma SameTail(s: State, s': State, m: seq<Addr>, i: nat)
    requires Same(s, s', m) && i <= |m|
    ensures Same(s, s', m[i..])
  {
    forall x | 0 <= x < |m[i..]|
      ensures MarkAt(s', m[i..][x]) == MarkAt(s, m[i..][x]) && Own(s', m[i..][x]) == Own(s, m[i..][x])
    {
      assert m[i..][x] == m[i + x];
    }
  }

  lemma BehindFront(m: seq<Addr>, pre: seq<Addr>, rest: seq<Addr>, i: nat)
    requires Distinct(m) && m == pre + rest && i < |pre|
    ensures Behind(m, pre[i]) == pre[i + 1..] + rest
  {
    assert m[i] == pre[i];
    BehindAt(m, i);
    assert m[i + 1..] == pre[i + 1..] + rest;
  }

  lemma BehindBack(m: seq<Addr>, front: seq<Addr>, post: seq<Addr>, j: nat)
    requires Distinct(m) && m == front + post && j < |post|
    ensures Behind(m, post[j]) == post[j + 1..]
  {
    var x := |front| + j;
    assert m[x] == post[j];
    BehindAt(m, x);
    assert m[x + 1..] == post[j + 1..];
  }

  lemma BeforeSpot(s: State, s': State, pre: seq<Addr>, rest: seq<Addr>, rest': seq<Addr>, i: nat)
    requires Distinct(s.chain) && Distinct(s'.chain) && s.chain == pre + rest && s'.chain == pre + rest'
    requires Same(s, s', pre) && View(s', rest') == View(s, rest) && i < |pre|
    ensures View(s', Behind(s'.chain, pre[i])) == View(s, Behind(s.chain, pre[i]))
  {
    BehindFront(s.chain, pre, rest, i);
    BehindFront(s'.chain, pre, rest', i);
    SameTail(s, s', pre, i + 1);
    ViewAfter(s, s', pre[i + 1..], rest, rest');
  }

  lemma AfterSpot(s: State, s': State, front: seq<Addr>, front': seq<Addr>, post: seq<Addr>, j: nat)
    requires Distinct(s.chain) && Distinct(s'.chain) && s.chain == front + post && s'.chain == front' + post
    requires Same(s, s', post) && j < |post|
    ensures View(s', Behind(s'.chain, post[j])) == View(s, Behind(s.chain, post[j]))
  {
    BehindBack(s.chain, front, post, j);
    BehindBack(s'.chain, front', post, j);
    SameTail(s, s', post, j + 1);
    ViewSame(s, s', post[j + 1..]);
  }

  /** The node at which another walk is lies before or after the part. */
  lemma WhereIs(s: State, s': State, t: Tid, pre: seq<Addr>, mid: seq<Addr>, mid': seq<Addr>, post: seq<Addr>, u: Tid)
    returns (before: bool, i: nat)
    requires Local(s, s', t, pre, mid, mid', post) && u in s.pc && u != t && Pending(s.pc[u])
    ensures if before then i < |pre| && pre[i] == PlaceOf(s.pc[u]) else i < |post| && post[i] == PlaceOf(s.pc[u])
  {
    assert PlaceInv(s, u);
    var a := PlaceOf(s.pc[u]);
    assert a in pre || a in mid || a in post;
    before := a in pre;
    if before {
      i :| 0 <= i < |pre| && pre[i] == a;
    } else {
      i :| 0 <= i < |post| && post[i] == a;
    }
  }

  lemma SeesBefore(s: State, s': State, p: Pc, pre: seq<Addr>, rest: seq<Addr>, rest': seq<Addr>, i: nat)
    requires Distinct(s.chain) && Distinct(s'.chain) && s.chain == pre + rest && s'.chain == pre + rest'
    requires Same(s, s', pre) && View(s', rest') == View(s, rest) && i < |pre| && pre[i] == PlaceOf(p)
    ensures WillSee(s', p) == WillSee(s, p)
  {
    BeforeSpot(s, s', pre, rest, rest', i);
    assert Own(s', pre[i]) == Own(s, pre[i]);
  }

  lemma SeesAfter(s: State, s': State, p: Pc, pre: seq<Addr>, mid: seq<Addr>, mid': seq<Addr>, post: seq<Addr>, i: nat)
    requires Distinct(s.chain) && Distinct(s'.chain)
    requires s.chain == pre + (mid + post) && s'.chain == pre + (mid' + post)
    requires Same(s, s', post) && i < |post| && post[i] == PlaceOf(p)
    ensures WillSee(s', p) == WillSee(s, p)
  {
    assert s.chain == (pre + mid) + post && s'.chain == (pre + mid') + post;
    AfterSpot(s, s', pre + mid, pre + mid', post, i);
    assert Own(s', post[i]) == Own(s, post[i]);
  }

  /** Another walk will see the same as before. */
  lemma LocalOther(s: State, s': State, t: Tid, pre: seq<Addr>, mid: seq<Addr>, mid': seq<Addr>, post: seq<Addr>,
                   u: Tid)
    requires Local(s, s', t, pre, mid, mid', post) && (pre == [] || Keeps(s, s', mid, mid', post))
    requires u in s.pc && u != t && Pending(s.pc[u])
    ensures WillSee(s', s.pc[u]) == WillSee(s, s.pc[u])
  {
    var before, i := WhereIs(s, s', t, pre, mid, mid', post, u);
    if before {
      SeesBefore(s, s', s.pc[u], pre, mid + post, mid' + post, i);
    } else {
      SeesAfter(s, s', s.pc[u], pre, mid, mid', post, i);
    }
  }

  lemma PhaseFrom(s: State, s': State, p: Pc)
    requires Pending(p) ==> WillSee(s', p) == WillSee(s, p)
    ensures PhaseOf(s', p) == PhaseOf(s, p)
  {
  }

  lemma OtherPhase(s: State, s': State, t: Tid, pre: seq<Addr>, mid: seq<Addr>, mid': seq<Addr>, post: seq<Addr>,
                   u: Tid)
    requires Local(s, s', t, pre, mid, mid', post) && (pre == [] || Keeps(s, s', mid, mid', post))
    requires u in s.pc && u != t
    ensures u in s'.pc && s'.pc[u] == s.pc[u] && PhaseOf(s', s.pc[u]) == PhaseOf(s, s.pc[u])
  {
    if Pending(s.pc[u]) {
      LocalOther(s, s', t, pre, mid, mid', post, u);
    }
    PhaseFrom(s, s', s.pc[u]);
  }

  /** All about the phases but what becomes of that of `t`. */
  lemma OtherPhases(s: State, s': State, t: Tid, pre: seq<Addr>, mid: seq<Addr>, mid': seq<Addr>, post: seq<Addr>)
    requires Local(s, s', t, pre, mid, mid', post) && (pre == [] || Keeps(s, s', mid, mid', post))
    ensures Abs(s').phase == Abs(s).phase[t := PhaseOf(s', s'.pc[t])]
  {
    forall u | u in s.pc && u != t ensures PhaseOf(s', s.pc[u]) == PhaseOf(s, s.pc[u]) {
      OtherPhase(s, s', t, pre, mid, mid', post, u);
    }
    PhaseMap(s, s', t);
  }

  lemma PhaseMap(s: State, s': State, t: Tid)
    requires t in s.pc && t in s'.pc && s'.pc == s.pc[t := s'.pc[t]]
    requires forall u :: u in s.pc && u != t ==> PhaseOf(s', s.pc[u]) == PhaseOf(s, s.pc[u])
    ensures Abs(s').phase == Abs(s).phase[t := PhaseOf(s', s'.pc[t])]
  {
    forall u | u in s'.pc && u != t ensures Abs(s').phase[u] == Abs(s).phase[u] {
      assert s'.pc[u] == s.pc[u];
    }
  }

  /** The step of the sequential list, from what happens to the items and to the phase of `t`. */
  ghost predicate Follows(a: ListSpec, b: ListSpec, t: Tid, e: ListLabel) {
    && t in a.phase && t in b.phase && b.phase == a.phase[t := b.phase[t]] && (!e.Tau? ==> e.t == t)
    && var p, p' := a.phase[t], b.phase[t];
       match e
       case Tau => p' == p && b.items == a.items
       case Call(_, o) => p.Rest? && p' == Asked(o) && b.items == a.items
       case Effect(_) => p.Asked? && p'.Answered? && Perform(a.items, p.o) == (b.items, p'.res)
       case Return(_, res) => p == Answered(res) && p'.Rest? && b.items == a.items
  }

  lemma FollowsStep(a: ListSpec, b: ListSpec, t: Tid, e: ListLabel)
    requires Follows(a, b, t, e)
    ensures ListStep(a, e) == Some(b)
  {
    if e.Tau? {
      assert b.phase == a.phase;
    }
  }

  // ---------------------------------------------------------------- steps that are not seen

  /** A step of `t` that changes no element, and no mark. */
  ghost predicate Unseen(s: State, s': State, t: Tid) {
    && t in s.pc && t in s'.pc && s'.pc == s.pc[t := s'.pc[t]] && s'.chain == s.chain
    && forall a :: a in s.chain ==>
         && a in s.heap && a in s'.heap && Own(s', a) == Own(s, a)
         && (s'.heap[a].mutex == s.heap[a].mutex || (s'.heap[a].mutex in {None, Some(t)}
             && s.heap[a].mutex in {None, Some(t)}))
         && (if s'.heap[a].mutex == Some(t) then MarkOf(s'.pc[t], a) else NoMark)
            == (if s.heap[a].mutex == Some(t) then MarkOf(s.pc[t], a) else NoMark)
  }

  lemma UnseenSame(s: State, s': State, t: Tid)
    requires Unseen(s, s', t)
    ensures Same(s, s', s.chain)
  {
    forall i | 0 <= i < |s.chain|
      ensures MarkAt(s', s.chain[i]) == MarkAt(s, s.chain[i]) && Own(s', s.chain[i]) == Own(s, s.chain[i])
    {
      assert s.chain[i] in s.chain;
    }
  }

  lemma UnseenItems(s: State, s': State, t: Tid)
    requires Unseen(s, s', t) && Orderly(s) && Orderly(s')
    ensures View(s', s'.chain) == View(s, s.chain)
    ensures Abs(s').phase == Abs(s).phase[t := PhaseOf(s', s'.pc[t])]
  {
    UnseenSame(s, s', t);
    ViewSame(s, s', s.chain);
    assert s.chain == s.chain + ([] + []);
    OtherPhases(s, s', t, s.chain, [], [], []);
  }

  /** What `t` itself will see, as long as it stays at its place. */
  lemma UnseenOwn(s: State, s': State, t: Tid)
    requires Unseen(s, s', t) && Orderly(s) && Pending(s.pc[t]) && Pending(s'.pc[t])
             && PlaceOf(s'.pc[t]) == PlaceOf(s.pc[t])
    requires MarkOf(s'.pc[t], PlaceOf(s.pc[t])).Here? == MarkOf(s.pc[t], PlaceOf(s.pc[t])).Here?
    ensures WillSee(s', s'.pc[t]) == WillSee(s, s.pc[t])
  {
    assert PlaceInv(s, t);
    UnseenSame(s, s', t);
    var a := PlaceOf(s.pc[t]);
    var i :| 0 <= i < |s.chain| && s.chain[i] == a;
    BehindAt(s.chain, i);
    SameTail(s, s', s.chain, i + 1);
    ViewSame(s, s', s.chain[i + 1..]);
  }

  lemma SameState(s: State, t: Tid)
    requires t in s.pc
    ensures Follows(Abs(s), Abs(s), t, Tau)
  {
    assert Abs(s).phase == Abs(s).phase[t := Abs(s).phase[t]];
  }

  predicate Outside(p: Pc) {
    p.Idle? || p.PushAlloc? || p.PushLock? || p.PushSet? || p.PushUnlock?
  }

  /** Calls, and pushes but for the step that links the node. */
  lemma OutsideUnseen(s: State, t: Tid, c: Choice, s': State)
    requires Inv(s) && t in s.pc && Outside(s.pc[t]) && s' == Step(s, t, c) && !s'.fault
    ensures Unseen(s, s', t)
  {
    assert ThreadInv(s, t);
    OutsideShape(s, t, c, s');
  }

  lemma OutsideShape(s: State, t: Tid, c: Choice, s': State)
    requires t in s.pc && Outside(s.pc[t]) && s' == Step(s, t, c) && !s'.fault
    requires (forall a :: a in s.chain ==> a in s.heap) && (s.pc[t].PushUnlock? ==> s.heap[HEAD].mutex == Some(t))
    ensures Unseen(s, s', t)
  {
  }

  lemma OutsideMatches(s: State, t: Tid, c: Choice, s': State)
    requires Inv(s) && t in s.pc && Outside(s.pc[t]) && s' == Step(s, t, c) && Inv(s')
    ensures Follows(Abs(s), Abs(s'), t, Event(s, t, c))
  {
    OutsideUnseen(s, t, c, s');
    InvOrderly(s);
    InvOrderly(s');
    UnseenItems(s, s', t);
    OutsidePhases(s, t, c, s');
  }

  lemma OutsidePhases(s: State, t: Tid, c: Choice, s': State)
    requires t in s.pc && Outside(s.pc[t]) && s' == Step(s, t, c) && t in s'.pc && !s'.fault
    ensures Turns(PhaseOf(s, s.pc[t]), PhaseOf(s', s'.pc[t]), t, Event(s, t, c))
  {
  }

  /** A step that leaves the abstract list alone moves a phase this way. */
  ghost predicate Turns(p: CallPhase, p': CallPhase, t: Tid, e: ListLabel) {
    match e
    case Tau => p' == p
    case Call(u, o) => u == t && p.Rest? && p' == Asked(o)
    case Effect(_) => false
    case Return(u, res) => u == t && p == Answered(res) && p'.Rest?
  }

  /** The steps of a walk that leave it where it is. */
  predicate Still(at: At) {
    at.UnlockCur? || at.Detach? || at.UnlockOld? || at.Free?
  }

  lemma UnlockCurShape(s: State, t: Tid, k: Kind, cur: Ref, next: Ref, s': State)
    requires t in s.pc && s.pc[t] == Walk(k, UnlockCur(cur, next)) && (forall a :: a in s.chain ==> a in s.heap)
    requires Live(s, cur) && s.heap[cur.a].mutex == Some(t) && cur.a != next.a
    requires s' == Unlock(s, t, Walk(k, if k.Remove? then Next(next) else Visit(next)), cur)
    ensures Unseen(s, s', t) && Pending(s'.pc[t]) && PlaceOf(s'.pc[t]) == PlaceOf(s.pc[t]) && s'.pc[t].k == k
    ensures MarkOf(s'.pc[t], PlaceOf(s.pc[t])).Here? == MarkOf(s.pc[t], PlaceOf(s.pc[t])).Here?
  {
  }

  lemma UnlockCurUnseen(s: State, t: Tid, k: Kind, cur: Ref, next: Ref, s': State)
    requires Inv(s) && t in s.pc && s.pc[t] == Walk(k, UnlockCur(cur, next))
    requires s' == Unlock(s, t, Walk(k, if k.Remove? then Next(next) else Visit(next)), cur)
    ensures Unseen(s, s', t) && Pending(s'.pc[t]) && PlaceOf(s'.pc[t]) == PlaceOf(s.pc[t]) && s'.pc[t].k == k
    ensures MarkOf(s'.pc[t], PlaceOf(s.pc[t])).Here? == MarkOf(s.pc[t], PlaceOf(s.pc[t])).Here?
  {
    assert ThreadInv(s, t);
    UnlockCurShape(s, t, k, cur, next, s');
  }

  lemma DetachShape(s: State, t: Tid, k: Kind, cur: Ref, next: Ref, s': State)
    requires t in s.pc && s.pc[t] == Walk(k, Detach(cur, next)) && (forall a :: a in s.chain ==> a in s.heap)
    requires Live(s, cur) && s.heap[cur.a].mutex == Some(t) && s' == DoDetach(s, t, k, cur, next)
    ensures Unseen(s, s', t) && Pending(s'.pc[t]) && PlaceOf(s'.pc[t]) == PlaceOf(s.pc[t]) && s'.pc[t].k == k
    ensures MarkOf(s'.pc[t], PlaceOf(s.pc[t])).Here? == MarkOf(s.pc[t], PlaceOf(s.pc[t])).Here?
  {
  }

  lemma DetachUnseen(s: State, t: Tid, k: Kind, cur: Ref, next: Ref, s': State)
    requires Inv(s) && t in s.pc && s.pc[t] == Walk(k, Detach(cur, next)) && s' == DoDetach(s, t, k, cur, next)
    ensures Unseen(s, s', t) && Pending(s'.pc[t]) && PlaceOf(s'.pc[t]) == PlaceOf(s.pc[t]) && s'.pc[t].k == k
    ensures MarkOf(s'.pc[t], PlaceOf(s.pc[t])).Here? == MarkOf(s.pc[t], PlaceOf(s.pc[t])).Here?
  {
    assert ThreadInv(s, t);
    DetachShape(s, t, k, cur, next, s');
  }

  lemma UnlockOldUnseen(s: State, t: Tid, k: Kind, cur: Ref, next: Ref, s': State)
    requires Inv(s) && t in s.pc && s.pc[t] == Walk(k, UnlockOld(cur, next))
             && s' == Unlock(s, t, Walk(k, Free(cur, next)), next)
    ensures Unseen(s, s', t) && Pending(s'.pc[t]) && PlaceOf(s'.pc[t]) == PlaceOf(s.pc[t]) && s'.pc[t].k == k
    ensures MarkOf(s'.pc[t], PlaceOf(s.pc[t])).Here? == MarkOf(s.pc[t], PlaceOf(s.pc[t])).Here?
  {
    assert ThreadInv(s, t);
  }

  lemma FreeShape(s: State, t: Tid, k: Kind, cur: Ref, next: Ref, s': State)
    requires t in s.pc && s.pc[t] == Walk(k, Free(cur, next)) && s' == DoFree(s, t, k, cur, next)
    requires Live(s, next) && next.a !in s.chain && forall a :: a in s.chain ==> a in s.heap
    ensures Unseen(s, s', t) && Pending(s'.pc[t]) && PlaceOf(s'.pc[t]) == PlaceOf(s.pc[t]) && s'.pc[t].k == k
    ensures MarkOf(s'.pc[t], PlaceOf(s.pc[t])).Here? == MarkOf(s.pc[t], PlaceOf(s.pc[t])).Here?
  {
  }

  lemma FreeUnseen(s: State, t: Tid, k: Kind, cur: Ref, next: Ref, s': State)
    requires Inv(s) && t in s.pc && s.pc[t] == Walk(k, Free(cur, next)) && s' == DoFree(s, t, k, cur, next)
    ensures Unseen(s, s', t) && Pending(s'.pc[t]) && PlaceOf(s'.pc[t]) == PlaceOf(s.pc[t]) && s'.pc[t].k == k
    ensures MarkOf(s'.pc[t], PlaceOf(s.pc[t])).Here? == MarkOf(s.pc[t], PlaceOf(s.pc[t])).Here?
  {
    assert ThreadInv(s, t);
    FreeShape(s, t, k, cur, next, s');
  }

  lemma StillUnseen(s: State, t: Tid, k: Kind, at: At, s': State)
    requires Inv(s) && t in s.pc && s.pc[t] == Walk(k, at) && Still(at) && s' == WalkStep(s, t, k, at) && Inv(s')
    ensures Unseen(s, s', t) && Pending(s'.pc[t]) && PlaceOf(s'.pc[t]) == PlaceOf(s.pc[t]) && s'.pc[t].k == k
    ensures MarkOf(s'.pc[t], PlaceOf(s.pc[t])).Here? == MarkOf(s.pc[t], PlaceOf(s.pc[t])).Here?
  {
    match at
    case UnlockCur(cur, next) => UnlockCurUnseen(s, t, k, cur, next, s');
    case Detach(cur, next) => DetachUnseen(s, t, k, cur, next, s');
    case UnlockOld(cur, next) => UnlockOldUnseen(s, t, k, cur, next, s');
    case Free(cur, next) => FreeUnseen(s, t, k, cur, next, s');
  }

  lemma StillMatches(s: State, t: Tid, k: Kind, at: At, s': State)
    requires Inv(s) && t in s.pc && s.pc[t] == Walk(k, at) && Still(at) && s' == WalkStep(s, t, k, at) && Inv(s')
    ensures Follows(Abs(s), Abs(s'), t, Tau)
  {
    StillUnseen(s, t, k, at, s');
    InvOrderly(s);
    InvOrderly(s');
    UnseenItems(s, s', t);
    UnseenOwn(s, s', t);
  }

  lemma ExitMatches(s: State, t: Tid, k: Kind, cur: Ref, res: Option<Value>, s': State)
    requires Inv(s) && t in s.pc && s.pc[t] == Walk(k, Exit(cur, res)) && s' == Unlock(s, t, Idle, cur) && Inv(s')
    ensures Follows(Abs(s), Abs(s'), t, Return(t, res))
  {
    assert ThreadInv(s, t);
    assert Unseen(s, s', t);
    InvOrderly(s);
    InvOrderly(s');
    UnseenItems(s, s', t);
  }

  // ---------------------------------------------------------------- steps of a walk from one element to the next

  lemma SpotMatches(s: State, s': State, t: Tid, pre: seq<Addr>, mid: seq<Addr>, mid': seq<Addr>, post: seq<Addr>)
    requires Local(s, s', t, pre, mid, mid', post) && Keeps(s, s', mid, mid', post)
    requires PhaseOf(s', s'.pc[t]) == PhaseOf(s, s.pc[t])
    ensures Follows(Abs(s), Abs(s'), t, Tau)
  {
    LocalItems(s, s', t, pre, mid, mid', post);
    OtherPhases(s, s', t, pre, mid, mid', post);
  }

  /** `cur` is number `j` of the list. */
  lemma Locate(s: State, t: Tid, cur: Ref) returns (j: nat)
    requires Inv(s) && Holds(s, t, cur)
    ensures j < |s.chain| && s.chain[j] == cur.a && Behind(s.chain, cur.a) == s.chain[j + 1..]
    ensures s.heap[cur.a].next == if j + 1 == |s.chain| then NULL else s.chain[j + 1]
    ensures j + 1 < |s.chain| ==> s.chain[j + 1] != NULL && Behind(s.chain, s.chain[j + 1]) == s.chain[j + 2..]
  {
    assert cur.a in s.chain;
    j :| 0 <= j < |s.chain| && s.chain[j] == cur.a;
    BehindAt(s.chain, j);
    if j + 1 < |s.chain| {
      var i := j + 1;
      assert s.chain[i] in s.chain && s.heap[s.chain[j]].next == s.chain[i];
      BehindAt(s.chain, i);
    }
  }

  lemma NextShape(s: State, t: Tid, k: Kind, cur: Ref, s': State)
    requires t in s.pc && s.pc[t] == Walk(k, Next(cur)) && s' == DoNext(s, t, k, cur) && !s'.fault && !s.fault
    requires Live(s, cur) && s.heap[cur.a].next != NULL && forall a :: a in s.chain ==> a in s.heap
    ensures Unseen(s, s', t) && Pending(s'.pc[t]) && PlaceOf(s'.pc[t]) == PlaceOf(s.pc[t]) && s'.pc[t].k == k
    ensures MarkOf(s'.pc[t], PlaceOf(s.pc[t])).Here? == MarkOf(s.pc[t], PlaceOf(s.pc[t])).Here?
  {
  }

  lemma NextUnseen(s: State, t: Tid, k: Kind, cur: Ref, s': State)
    requires Inv(s) && t in s.pc && s.pc[t] == Walk(k, Next(cur)) && s' == DoNext(s, t, k, cur) && !s'.fault
    requires cur.a in s.heap && s.heap[cur.a].next != NULL
    ensures Unseen(s, s', t) && Pending(s'.pc[t]) && PlaceOf(s'.pc[t]) == PlaceOf(s.pc[t]) && s'.pc[t].k == k
    ensures MarkOf(s'.pc[t], PlaceOf(s.pc[t])).Here? == MarkOf(s.pc[t], PlaceOf(s.pc[t])).Here?
  {
    assert ThreadInv(s, t);
    NextShape(s, t, k, cur, s');
  }

  lemma Elsewhere(s: State, s': State, t: Tid, m: seq<Addr>)
    requires t in s.pc && t in s'.pc && s'.pc == s.pc[t := s'.pc[t]]
    requires forall i :: 0 <= i < |m| ==>
               && m[i] in s.heap && m[i] in s'.heap && PlaceOf(s.pc[t]) != m[i] && PlaceOf(s'.pc[t]) != m[i]
               && s'.heap[m[i]].mutex == s.heap[m[i]].mutex && s'.heap[m[i]].data == s.heap[m[i]].data
    ensures Same(s, s', m)
  {
  }

  /** A node of the list outside of the changed part. */
  ghost predicate Untouched(s: State, s': State, t: Tid, a: Addr)
    requires t in s.pc && t in s'.pc
  {
    && a in s.heap && a in s'.heap && PlaceOf(s.pc[t]) != a && PlaceOf(s'.pc[t]) != a
    && s'.heap[a].mutex == s.heap[a].mutex && s'.heap[a].data == s.heap[a].data
  }

  lemma Parts(m: seq<Addr>, j: nat, n: nat)
    requires j + n <= |m|
    ensures m == m[..j] + (m[j..j + n] + m[j + n..])
    ensures var post := m[j + n..]; forall i :: 0 <= i < |post| ==> post[i] == m[j + n + i]
  {
  }

  lemma SpotSame(s: State, s': State, t: Tid, j: nat, n: nat)
    requires t in s.pc && t in s'.pc && s'.pc == s.pc[t := s'.pc[t]] && j + n <= |s.chain|
    requires forall i :: 0 <= i < |s.chain| && !(j <= i < j + n) ==> Untouched(s, s', t, s.chain[i])
    ensures Same(s, s', s.chain[..j]) && Same(s, s', s.chain[j + n..])
  {
    var pre, post := s.chain[..j], s.chain[j + n..];
    Parts(s.chain, j, n);
    forall i | 0 <= i < |pre| ensures Untouched(s, s', t, pre[i]) {
      assert pre[i] == s.chain[i];
    }
    forall i | 0 <= i < |post| ensures Untouched(s, s', t, post[i]) {
      assert post[i] == s.chain[j + n + i];
    }
    Elsewhere(s, s', t, pre);
    Elsewhere(s, s', t, post);
  }

  lemma Spot(s: State, s': State, t: Tid, j: nat, mid: seq<Addr>, mid': seq<Addr>, n: nat)
    requires Orderly(s) && Orderly(s') && t in s.pc && t in s'.pc && s'.pc == s.pc[t := s'.pc[t]] && j + n <= |s.chain|
    requires s'.chain == s.chain[..j] + (mid' + s.chain[j + n..])
    requires forall i :: 0 <= i < |s.chain| && !(j <= i < j + n) ==> Untouched(s, s', t, s.chain[i])
    requires mid == s.chain[j..j + n]
    requires forall b :: b in mid && b in s.heap ==> s.heap[b].mutex == None || s.heap[b].mutex == Some(t)
    ensures Local(s, s', t, s.chain[..j], mid, mid', s.chain[j + n..])
  {
    Parts(s.chain, j, n);
    SpotSame(s, s', t, j, n);
  }

  lemma LastMatches(s: State, t: Tid, k: Kind, cur: Ref, s': State)
    requires Inv(s) && t in s.pc && s.pc[t] == Walk(k, Next(cur)) && s' == DoNext(s, t, k, cur) && Inv(s')
    requires cur.a in s.heap && s.heap[cur.a].next == NULL
    ensures Follows(Abs(s), Abs(s'), t, Tau)
  {
    assert ThreadInv(s, t);
    var j := Locate(s, t, cur);
    LastSpot(s, t, k, cur, s', j);
    var mid := s.chain[j..j + 1];
    assert mid == [cur.a] && s.chain[j + 1..] == [] && mid + [] == mid && mid[1..] == [];
    LastViews(s, t, k, cur, s');
    SpotMatches(s, s', t, s.chain[..j], mid, mid, []);
  }

  lemma LastSpot(s: State, t: Tid, k: Kind, cur: Ref, s': State, j: nat)
    requires Inv(s) && t in s.pc && s.pc[t] == Walk(k, Next(cur)) && s' == Goto(s, t, Walk(k, Exit(cur, None)))
             && Inv(s')
    requires j + 1 == |s.chain| && s.chain[j] == cur.a
    ensures Local(s, s', t, s.chain[..j], s.chain[j..j + 1], s.chain[j..j + 1], s.chain[j + 1..])
  {
    assert ThreadInv(s, t);
    forall i | 0 <= i < |s.chain| && !(j <= i < j + 1) ensures Untouched(s, s', t, s.chain[i]) {
      assert s.chain[i] in s.chain;
    }
    Parts(s.chain, j, 1);
    InvOrderly(s);
    InvOrderly(s');
    Spot(s, s', t, j, s.chain[j..j + 1], s.chain[j..j + 1], 1);
  }

  lemma LastViews(s: State, t: Tid, k: Kind, cur: Ref, s': State)
    requires t in s.pc && s.pc[t] == Walk(k, Next(cur)) && s' == Goto(s, t, Walk(k, Exit(cur, None)))
    requires cur.a in s.heap && s.heap[cur.a].mutex == Some(t) && cur.a != NULL && Behind(s.chain, cur.a) == []
    ensures View(s', [cur.a]) == View(s, [cur.a])
    ensures PhaseOf(s', s'.pc[t]) == PhaseOf(s, s.pc[t])
  {
    assert [cur.a][1..] == [];
    assert MarkAt(s, cur.a) == Past(k) && MarkAt(s', cur.a) == NoMark;
    assert View(s, [cur.a]) == Own(s, cur.a) + Walked(k, []);
  }

  /** Reading the link. */
  lemma NextMatches(s: State, t: Tid, k: Kind, cur: Ref, s': State)
    requires Inv(s) && t in s.pc && s.pc[t] == Walk(k, Next(cur)) && s' == DoNext(s, t, k, cur) && Inv(s')
    ensures Follows(Abs(s), Abs(s'), t, Tau)
  {
    assert ThreadInv(s, t);
    if s.heap[cur.a].next == NULL {
      LastMatches(s, t, k, cur, s');
    } else {
      NextUnseen(s, t, k, cur, s');
      InvOrderly(s);
      InvOrderly(s');
      UnseenItems(s, s', t);
      UnseenOwn(s, s', t);
    }
  }

  /** The walk `t` has locked node `j`, `cur`, and goes on to `next`, number `j + 1`. */
  ghost predicate AtPair(s: State, t: Tid, cur: Addr, next: Addr, j: nat) {
    && Orderly(s) && (forall a :: a in s.chain ==> a in s.heap) && NULL !in s.heap && t in s.pc
    && j + 1 < |s.chain| && s.chain[j] == cur && s.chain[j + 1] == next && cur != next && next != HEAD
    && s.heap[cur].mutex == Some(t)
    && Behind(s.chain, cur) == [next] + s.chain[j + 2..] && Behind(s.chain, next) == s.chain[j + 2..]
  }

  lemma LocatePair(s: State, t: Tid, cur: Ref, next: Ref) returns (j: nat)
    requires Inv(s) && t in s.pc && Holds(s, t, cur) && s.heap[cur.a].next == next.a && next.a in s.heap
    ensures AtPair(s, t, cur.a, next.a, j)
  {
    InvOrderly(s);
    j := Locate(s, t, cur);
    assert s.chain[0] == HEAD && s.chain[j] != s.chain[j + 1] && s.chain[0] != s.chain[j + 1];
    PairChain(s.chain, j, cur.a, next.a);
  }

  /** What a walk does to the view when it comes to the next element. */
  lemma PairView(s: State, cur: Addr, next: Addr, post: seq<Addr>)
    ensures View(s, [cur, next] + post)
         == Combine(MarkAt(s, cur), Own(s, cur), Combine(MarkAt(s, next), Own(s, next), View(s, post)))
    ensures View(s, [next] + post) == Combine(MarkAt(s, next), Own(s, next), View(s, post))
  {
    assert ([cur, next] + post)[1..] == [next] + post && ([next] + post)[1..] == post;
  }

  lemma LockViews(s: State, t: Tid, k: Kind, cur: Ref, next: Ref, s': State, post: seq<Addr>)
    requires t in s.pc && s.pc[t] == Walk(k, LockNext(cur, next)) && cur.a in s.heap && Live(s, next) && cur.a != next.a
    requires s' == Lock(s, t, Walk(k, if k.Remove? then Test(cur, next) else UnlockCur(cur, next)), next)
    requires s.heap[cur.a].mutex == Some(t) && s.heap[next.a].mutex == None && cur.a != NULL && next.a != NULL
    requires View(s', post) == View(s, post) && s'.chain == s.chain
    requires Behind(s.chain, cur.a) == [next.a] + post && Behind(s.chain, next.a) == post
    ensures Keeps(s, s', [cur.a, next.a], [cur.a, next.a], post)
    ensures WillSee(s', s'.pc[t]) == WillSee(s, s.pc[t])
  {
    PairView(s, cur.a, next.a, post);
    PairView(s', cur.a, next.a, post);
    assert MarkAt(s, cur.a) == Past(k) && MarkAt(s, next.a) == NoMark;
    assert MarkAt(s', cur.a) == NoMark && MarkAt(s', next.a) == Here(k);
    assert Own(s', cur.a) == Own(s, cur.a) && Own(s', next.a) == Own(s, next.a);
  }

  lemma PairUntouched(s: State, s': State, t: Tid, cur: Addr, next: Addr, j: nat)
    requires Distinct(s.chain) && (forall a :: a in s.chain ==> a in s.heap) && t in s.pc && t in s'.pc
    requires j + 1 < |s.chain| && s.chain[j] == cur && s.chain[j + 1] == next && NULL !in s.heap
    requires forall a :: a in s.heap && a != cur && a != next ==> a in s'.heap && s'.heap[a] == s.heap[a]
    requires PlaceOf(s.pc[t]) in {cur, next} && PlaceOf(s'.pc[t]) in {cur, next, NULL}
    ensures forall i :: 0 <= i < |s.chain| && !(j <= i < j + 2) ==> Untouched(s, s', t, s.chain[i])
  {
    forall i | 0 <= i < |s.chain| && !(j <= i < j + 2) ensures Untouched(s, s', t, s.chain[i]) {
      assert s.chain[i] in s.chain && s.chain[i] != s.chain[j] && s.chain[i] != s.chain[j + 1];
    }
  }

  lemma PairSpot(s: State, s': State, t: Tid, cur: Addr, next: Addr, j: nat, mid': seq<Addr>)
    requires AtPair(s, t, cur, next, j) && Orderly(s') && t in s'.pc && s'.pc == s.pc[t := s'.pc[t]]
    requires s'.chain == s.chain[..j] + (mid' + s.chain[j + 2..])
    requires s.heap[next].mutex == None || s.heap[next].mutex == Some(t)
    requires forall a :: a in s.heap && a != cur && a != next ==> a in s'.heap && s'.heap[a] == s.heap[a]
    requires PlaceOf(s.pc[t]) in {cur, next} && PlaceOf(s'.pc[t]) in {cur, next, NULL}
    ensures Local(s, s', t, s.chain[..j], [cur, next], mid', s.chain[j + 2..])
  {
    PairUntouched(s, s', t, cur, next, j);
    PairChain(s.chain, j, cur, next);
    Spot(s, s', t, j, [cur, next], mid', 2);
  }

  lemma LockNextMatches(s: State, t: Tid, k: Kind, cur: Ref, next: Ref, s': State)
    requires Inv(s) && t in s.pc && s.pc[t] == Walk(k, LockNext(cur, next)) && Inv(s')
    requires s' == Lock(s, t, Walk(k, if k.Remove? then Test(cur, next) else UnlockCur(cur, next)), next)
    ensures Follows(Abs(s), Abs(s'), t, Tau)
  {
    assert ThreadInv(s, t);
    if s.heap[next.a].mutex.Some? {
      SameState(s, t);
    } else {
      LockNextStep(s, t, k, cur, next, s');
    }
  }

  lemma LockNextStep(s: State, t: Tid, k: Kind, cur: Ref, next: Ref, s': State)
    requires Inv(s) && t in s.pc && s.pc[t] == Walk(k, LockNext(cur, next)) && Inv(s')
    requires next.a in s.heap && s.heap[next.a].mutex == None
    requires s' == Lock(s, t, Walk(k, if k.Remove? then Test(cur, next) else UnlockCur(cur, next)), next)
    ensures Follows(Abs(s), Abs(s'), t, Tau)
  {
    assert ThreadInv(s, t);
    var j := LocatePair(s, t, cur, next);
    InvOrderly(s');
    LockNextAt(s, t, k, cur, next, s', j);
  }

  lemma LockNextAt(s: State, t: Tid, k: Kind, cur: Ref, next: Ref, s': State, j: nat)
    requires AtPair(s, t, cur.a, next.a, j) && s.pc[t] == Walk(k, LockNext(cur, next)) && Orderly(s')
    requires Live(s, next) && s.heap[next.a].mutex == None
    requires s' == Lock(s, t, Walk(k, if k.Remove? then Test(cur, next) else UnlockCur(cur, next)), next)
    ensures Follows(Abs(s), Abs(s'), t, Tau)
  {
    var mid, post := [cur.a, next.a], s.chain[j + 2..];
    PairChain(s.chain, j, cur.a, next.a);
    PairSpot(s, s', t, cur.a, next.a, j, mid);
    ViewSame(s, s', post);
    LockViews(s, t, k, cur, next, s', post);
    SpotMatches(s, s', t, s.chain[..j], mid, mid, post);
  }

  lemma PairChain(m: seq<Addr>, j: nat, cur: Addr, next: Addr)
    requires j + 1 < |m| && m[j] == cur && m[j + 1] == next
    ensures m == m[..j] + ([cur, next] + m[j + 2..]) && m[j + 1..] == [next] + m[j + 2..] && m[j..j + 2] == [cur, next]
  {
  }

  /** `remove_if` alone tests and unlinks. */
  predicate KindOk(p: Pc) {
    p.Walk? ==>
      && (p.at.Test? || p.at.Detach? || p.at.Splice? || p.at.UnlockOld? || p.at.Free? ==> p.k.Remove?)
      && (p.at.Visit? ==> !p.k.Remove?)
  }

  lemma TestMarks(s: State, t: Tid, k: Kind, cur: Ref, next: Ref, s': State, v: Value)
    requires t in s.pc && s.pc[t] == Walk(k, Test(cur, next)) && cur.a in s.heap && Live(s, next) && k.Remove?
    requires s.heap[next.a].data == Some(v) && s' == DoTest(s, t, k, cur, next)
    requires s.heap[cur.a].mutex == Some(t) && s.heap[next.a].mutex == Some(t)
    requires cur.a != next.a && cur.a != NULL && next.a != NULL
    ensures MarkAt(s, cur.a) == NoMark && MarkAt(s, next.a) == Here(k) && MarkAt(s', cur.a) == NoMark
    ensures MarkAt(s', next.a) == if Verdict(k, v) then Dropped(Called(k, v)) else Past(Called(k, v))
    ensures Own(s', cur.a) == Own(s, cur.a) && Own(s', next.a) == Own(s, next.a)
  {
  }

  lemma TestViews(s: State, t: Tid, k: Kind, cur: Ref, next: Ref, s': State, post: seq<Addr>)
    requires t in s.pc && s.pc[t] == Walk(k, Test(cur, next)) && cur.a in s.heap && Live(s, next) && k.Remove?
    requires s.heap[next.a].data.Some? && s' == DoTest(s, t, k, cur, next)
    requires s.heap[cur.a].mutex == Some(t) && s.heap[next.a].mutex == Some(t)
    requires cur.a != next.a && cur.a != NULL && next.a != NULL && next.a != HEAD
    requires View(s', post) == View(s, post)
    ensures Keeps(s, s', [cur.a, next.a], [cur.a, next.a], post)
    ensures PhaseOf(s', s'.pc[t]) == PhaseOf(s, s.pc[t])
  {
    PairView(s, cur.a, next.a, post);
    PairView(s', cur.a, next.a, post);
    var v := s.heap[next.a].data.value;
    TestMarks(s, t, k, cur, next, s', v);
    WalkedCons(k, v, View(s, post));
  }

  lemma WalkedCons(k: Kind, v: Value, l: seq<Value>)
    ensures Walked(k, [v] + l) == (if k.Remove? && Verdict(k, v) then [] else [Image(k, v)]) + Walked(Called(k, v), l)
    ensures Found(k, [v] + l) == if !k.Find? then None else if Verdict(k, v) then Some(v) else Found(Called(k, v), l)
  {
    assert ([v] + l)[1..] == l;
  }

  lemma TestMatches(s: State, t: Tid, k: Kind, cur: Ref, next: Ref, s': State)
    requires Inv(s) && t in s.pc && s.pc[t] == Walk(k, Test(cur, next)) && k.Remove?
    requires s' == DoTest(s, t, k, cur, next) && Inv(s')
    ensures Follows(Abs(s), Abs(s'), t, Tau)
  {
    assert ThreadInv(s, t);
    assert NodeInv(s, next.a);
    var j := LocatePair(s, t, cur, next);
    InvOrderly(s');
    TestAt(s, t, k, cur, next, s', j);
  }

  lemma TestAt(s: State, t: Tid, k: Kind, cur: Ref, next: Ref, s': State, j: nat)
    requires AtPair(s, t, cur.a, next.a, j) && s.pc[t] == Walk(k, Test(cur, next)) && Orderly(s') && k.Remove?
    requires Live(s, next) && s.heap[next.a].mutex == Some(t) && s.heap[next.a].data.Some?
    requires s' == DoTest(s, t, k, cur, next)
    ensures Follows(Abs(s), Abs(s'), t, Tau)
  {
    var mid, post := [cur.a, next.a], s.chain[j + 2..];
    PairChain(s.chain, j, cur.a, next.a);
    PairSpot(s, s', t, cur.a, next.a, j, mid);
    ViewSame(s, s', post);
    TestViews(s, t, k, cur, next, s', post);
    SpotMatches(s, s', t, s.chain[..j], mid, mid, post);
  }

  // ---------------------------------------------------------------- visiting

  /** `t` has locked node `j`, `a`. */
  ghost predicate AtNode(s: State, t: Tid, a: Addr, j: nat) {
    && Orderly(s) && (forall b :: b in s.chain ==> b in s.heap) && NULL !in s.heap && t in s.pc
    && j < |s.chain| && s.chain[j] == a && (s.heap[a].mutex == Some(t) || s.heap[a].mutex == None)
    && Behind(s.chain, a) == s.chain[j + 1..]
  }

  lemma NodeChain(m: seq<Addr>, j: nat, a: Addr)
    requires j < |m| && m[j] == a
    ensures m == m[..j] + ([a] + m[j + 1..]) && m[j..j + 1] == [a]
  {
  }

  lemma NodeUntouched(s: State, s': State, t: Tid, a: Addr, j: nat)
    requires Distinct(s.chain) && (forall b :: b in s.chain ==> b in s.heap) && t in s.pc && t in s'.pc
    requires j < |s.chain| && s.chain[j] == a && NULL !in s.heap
    requires forall b :: b in s.chain && b != a ==> b in s'.heap && Alike(s.heap[b], s'.heap[b])
    requires PlaceOf(s.pc[t]) in {a, NULL} && PlaceOf(s'.pc[t]) in {a, NULL}
    ensures forall i :: 0 <= i < |s.chain| && !(j <= i < j + 1) ==> Untouched(s, s', t, s.chain[i])
  {
    forall i | 0 <= i < |s.chain| && !(j <= i < j + 1) ensures Untouched(s, s', t, s.chain[i]) {
      assert s.chain[i] in s.chain && s.chain[i] != s.chain[j];
    }
  }

  predicate Alike(n: Node, n': Node) {
    n'.mutex == n.mutex && n'.data == n.data
  }

  lemma NodeSpot(s: State, s': State, t: Tid, a: Addr, j: nat, mid': seq<Addr>)
    requires AtNode(s, t, a, j) && Orderly(s') && t in s'.pc && s'.pc == s.pc[t := s'.pc[t]]
    requires s'.chain == s.chain[..j] + (mid' + s.chain[j + 1..])
    requires forall b :: b in s.chain && b != a ==> b in s'.heap && Alike(s.heap[b], s'.heap[b])
    requires PlaceOf(s.pc[t]) in {a, NULL} && PlaceOf(s'.pc[t]) in {a, NULL}
    ensures Local(s, s', t, s.chain[..j], [a], mid', s.chain[j + 1..])
  {
    NodeUntouched(s, s', t, a, j);
    NodeChain(s.chain, j, a);
    Spot(s, s', t, j, [a], mid', 1);
  }

  lemma NodeView(s: State, a: Addr, post: seq<Addr>)
    ensures View(s, [a] + post) == Combine(MarkAt(s, a), Own(s, a), View(s, post))
  {
    assert ([a] + post)[1..] == post;
  }

  lemma {:induction false} WalkedFind(k: Kind, l: seq<Value>)
    requires k.Find?
    ensures Walked(k, l) == l
    decreases |l|
  {
    if l != [] {
      WalkedFind(Called(k, l[0]), l[1..]);
      assert l == [l[0]] + l[1..];
    }
  }

  lemma VisitViews(s: State, t: Tid, k: Kind, next: Ref, s': State, post: seq<Addr>)
    requires t in s.pc && s.pc[t] == Walk(k, Visit(next)) && Live(s, next) && !k.Remove? && next.a != NULL
             && next.a != HEAD
    requires s.heap[next.a].data.Some? && s.heap[next.a].mutex == Some(t) && s' == DoVisit(s, t, k, next)
    requires View(s', post) == View(s, post)
    ensures Keeps(s, s', [next.a], [next.a], post)
  {
    var v, rest := s.heap[next.a].data.value, View(s, post);
    NodeView(s, next.a, post);
    NodeView(s', next.a, post);
    assert MarkAt(s, next.a) == Here(k) && Own(s, next.a) == [v] && Own(s', next.a) == [Image(k, v)];
    assert MarkAt(s', next.a) == if Verdict(k, v) then NoMark else Past(Called(k, v));
    WalkedCons(k, v, rest);
    if k.Find? {
      WalkedFind(k, [v] + rest);
    }
  }

  lemma VisitPhase(s: State, t: Tid, k: Kind, next: Ref, s': State, post: seq<Addr>)
    requires t in s.pc && s.pc[t] == Walk(k, Visit(next)) && Live(s, next) && !k.Remove? && next.a != NULL
             && next.a != HEAD
    requires s.heap[next.a].data.Some? && s.heap[next.a].mutex == Some(t) && s' == DoVisit(s, t, k, next)
    requires View(s', post) == View(s, post) && Behind(s.chain, next.a) == post
    ensures PhaseOf(s', s'.pc[t]) == PhaseOf(s, s.pc[t])
  {
    var v, rest := s.heap[next.a].data.value, View(s, post);
    assert WillSee(s, s.pc[t]) == [v] + rest;
    WalkedCons(k, v, rest);
    if Verdict(k, v) {
      assert s'.pc[t] == Walk(Called(k, v), Exit(next, Some(v)));
    } else {
      assert s'.pc[t] == Walk(Called(k, v), Next(next)) && MarkOf(s'.pc[t], next.a).Past?;
      assert WillSee(s', s'.pc[t]) == rest;
    }
  }

  lemma VisitLocal(s: State, t: Tid, k: Kind, next: Ref, s': State, j: nat)
    requires AtNode(s, t, next.a, j) && s.pc[t] == Walk(k, Visit(next)) && Orderly(s') && !k.Remove? && next.a != HEAD
    requires Live(s, next) && s.heap[next.a].mutex == Some(t) && s.heap[next.a].data.Some?
    requires s' == DoVisit(s, t, k, next)
    ensures Local(s, s', t, s.chain[..j], [next.a], [next.a], s.chain[j + 1..])
    ensures View(s', s.chain[j + 1..]) == View(s, s.chain[j + 1..])
  {
    NodeChain(s.chain, j, next.a);
    NodeSpot(s, s', t, next.a, j, [next.a]);
    ViewSame(s, s', s.chain[j + 1..]);
  }

  lemma VisitAt(s: State, t: Tid, k: Kind, next: Ref, s': State, j: nat)
    requires AtNode(s, t, next.a, j) && s.pc[t] == Walk(k, Visit(next)) && Orderly(s') && !k.Remove? && next.a != HEAD
    requires Live(s, next) && s.heap[next.a].mutex == Some(t) && s.heap[next.a].data.Some?
    requires s' == DoVisit(s, t, k, next)
    ensures Follows(Abs(s), Abs(s'), t, Tau)
  {
    VisitLocal(s, t, k, next, s', j);
    VisitViews(s, t, k, next, s', s.chain[j + 1..]);
    VisitPhase(s, t, k, next, s', s.chain[j + 1..]);
    SpotMatches(s, s', t, s.chain[..j], [next.a], [next.a], s.chain[j + 1..]);
  }

  lemma VisitMatches(s: State, t: Tid, k: Kind, next: Ref, s': State)
    requires Inv(s) && t in s.pc && s.pc[t] == Walk(k, Visit(next)) && !k.Remove?
    requires s' == DoVisit(s, t, k, next) && Inv(s')
    ensures Follows(Abs(s), Abs(s'), t, Tau)
  {
    assert ThreadInv(s, t);
    assert NodeInv(s, next.a);
    InvOrderly(s);
    InvOrderly(s');
    var j := Locate(s, t, next);
    VisitAt(s, t, k, next, s', j);
  }

  // ---------------------------------------------------------------- unlinking

  lemma SpliceViews(s: State, t: Tid, k: Kind, cur: Ref, next: Ref, s': State, post: seq<Addr>)
    requires t in s.pc && s.pc[t] == Walk(k, Splice(cur, next)) && Live(s, cur) && Live(s, next)
    requires s' == DoSplice(s, t, k, cur, next)
    requires s.heap[cur.a].mutex == Some(t) && s.heap[next.a].mutex == Some(t)
    requires cur.a != next.a && cur.a != NULL && next.a != NULL && View(s', post) == View(s, post)
    ensures Keeps(s, s', [cur.a, next.a], [cur.a], post)
  {
    PairView(s, cur.a, next.a, post);
    NodeView(s', cur.a, post);
    assert MarkAt(s, cur.a) == NoMark && MarkAt(s, next.a) == Dropped(k) && MarkAt(s', cur.a) == Past(k);
  }

  lemma SpliceAt(s: State, t: Tid, k: Kind, cur: Ref, next: Ref, s': State, j: nat)
    requires AtPair(s, t, cur.a, next.a, j) && s.pc[t] == Walk(k, Splice(cur, next)) && Orderly(s') && k.Remove?
    requires Live(s, cur) && Live(s, next) && s.heap[next.a].mutex == Some(t) && s' == DoSplice(s, t, k, cur, next)
    requires s'.chain == s.chain[..j + 1] + s.chain[j + 2..]
    ensures Follows(Abs(s), Abs(s'), t, Tau)
  {
    var mid, mid', post := [cur.a, next.a], [cur.a], s.chain[j + 2..];
    SpliceLocal(s, t, k, cur, next, s', j);
    ViewSame(s, s', post);
    SpliceViews(s, t, k, cur, next, s', post);
    SpotMatches(s, s', t, s.chain[..j], mid, mid', post);
  }

  lemma SpliceLocal(s: State, t: Tid, k: Kind, cur: Ref, next: Ref, s': State, j: nat)
    requires AtPair(s, t, cur.a, next.a, j) && s.pc[t] == Walk(k, Splice(cur, next)) && Orderly(s')
    requires Live(s, cur) && Live(s, next) && s.heap[next.a].mutex == Some(t) && s' == DoSplice(s, t, k, cur, next)
    requires s'.chain == s.chain[..j + 1] + s.chain[j + 2..]
    ensures Local(s, s', t, s.chain[..j], [cur.a, next.a], [cur.a], s.chain[j + 2..])
  {
    assert s'.chain == s.chain[..j] + ([cur.a] + s.chain[j + 2..]);
    PairSpot(s, s', t, cur.a, next.a, j, [cur.a]);
  }

  lemma SpliceMatches(s: State, t: Tid, k: Kind, cur: Ref, next: Ref, s': State)
    requires Inv(s) && t in s.pc && s.pc[t] == Walk(k, Splice(cur, next)) && k.Remove?
    requires s' == DoSplice(s, t, k, cur, next) && Inv(s')
    ensures Follows(Abs(s), Abs(s'), t, Tau)
  {
    var j := SpliceSpot(s, t, k, cur, next);
    SplicePair(s, t, cur, next, j);
    WithoutAt(s.chain, j + 1);
    InvOrderly(s');
    SpliceAt(s, t, k, cur, next, s', j);
  }

  lemma SpliceSpot(s: State, t: Tid, k: Kind, cur: Ref, next: Ref) returns (j: nat)
    requires Inv(s) && t in s.pc && s.pc[t] == Walk(k, Splice(cur, next))
    ensures j + 1 < |s.chain| && s.chain[j] == cur.a && s.chain[j + 1] == next.a && cur.a != next.a
    ensures Live(s, cur) && Live(s, next) && Distinct(s.chain)
    ensures s.heap[cur.a].mutex == Some(t) && s.heap[next.a].mutex == Some(t)
  {
    assert ThreadInv(s, t);
    j :| 0 <= j < |s.chain| - 1 && s.chain[j] == cur.a && s.chain[j + 1] == next.a;
  }

  lemma SplicePair(s: State, t: Tid, cur: Ref, next: Ref, j: nat)
    requires Inv(s) && t in s.pc && cur.a in s.heap && next.a in s.heap && s.heap[cur.a].mutex == Some(t)
    requires j + 1 < |s.chain| && s.chain[j] == cur.a && s.chain[j + 1] == next.a
    ensures AtPair(s, t, cur.a, next.a, j)
  {
    InvOrderly(s);
    PairBehind(s.chain, j);
    assert s.chain[0] == HEAD;
  }

  lemma PairBehind(m: seq<Addr>, j: nat)
    requires j + 1 < |m| && Distinct(m)
    ensures Behind(m, m[j]) == [m[j + 1]] + m[j + 2..] && Behind(m, m[j + 1]) == m[j + 2..]
    ensures m[j] != m[j + 1] && m[0] != m[j + 1]
  {
    BehindAt(m, j);
    BehindAt(m, j + 1);
    PairChain(m, j, m[j], m[j + 1]);
  }

  // ---------------------------------------------------------------- the steps that take effect

  /** Locking the head: from now on all that the walk will do counts as done. */
  lemma LockHeadViews(s: State, t: Tid, k: Kind, s': State, post: seq<Addr>)
    requires t in s.pc && s.pc[t] == Walk(k, LockHead) && Live(s, SENTINEL) && s.heap[HEAD].mutex == None
    requires s' == Lock(s, t, Walk(k, Next(SENTINEL)), SENTINEL) && View(s', post) == View(s, post)
    requires s.chain == [HEAD] + post && Behind(s.chain, HEAD) == post
    ensures Perform(View(s, s.chain), DoWalk(k)) == (View(s', s'.chain), Found(k, View(s, s.chain)))
    ensures PhaseOf(s', s'.pc[t]) == Answered(Found(k, View(s, s.chain)))
  {
    NodeView(s, HEAD, post);
    NodeView(s', HEAD, post);
    assert MarkAt(s, HEAD) == NoMark && MarkAt(s', HEAD) == Past(k) && Own(s, HEAD) == [] && Own(s', HEAD) == [];
    assert [] + View(s, post) == View(s, post) && [] + Walked(k, View(s, post)) == Walked(k, View(s, post));
  }

  lemma HeadSpot(s: State, s': State, t: Tid, mid': seq<Addr>)
    requires AtNode(s, t, HEAD, 0) && Orderly(s') && t in s'.pc && s'.pc == s.pc[t := s'.pc[t]]
    requires s'.chain == mid' + s.chain[1..]
    requires forall b :: b in s.chain && b != HEAD ==> b in s'.heap && Alike(s.heap[b], s'.heap[b])
    requires PlaceOf(s.pc[t]) in {HEAD, NULL} && PlaceOf(s'.pc[t]) in {HEAD, NULL}
    ensures Local(s, s', t, [], [HEAD], mid', s.chain[1..])
  {
    assert s.chain[..0] == [];
    NodeSpot(s, s', t, HEAD, 0, mid');
  }

  lemma LockHeadMatches(s: State, t: Tid, k: Kind, s': State)
    requires Inv(s) && t in s.pc && s.pc[t] == Walk(k, LockHead) && s.heap[HEAD].mutex == None
    requires s' == Lock(s, t, Walk(k, Next(SENTINEL)), SENTINEL) && Inv(s')
    ensures Follows(Abs(s), Abs(s'), t, Effect(t))
  {
    var post := s.chain[1..];
    InvOrderly(s);
    InvOrderly(s');
    BehindAt(s.chain, 0);
    NodeChain(s.chain, 0, HEAD);
    assert s.chain == [HEAD] + post;
    LockHeadAt(s, t, k, s', post);
  }

  lemma LockHeadLocal(s: State, t: Tid, k: Kind, s': State, post: seq<Addr>)
    requires AtNode(s, t, HEAD, 0) && s.pc[t] == Walk(k, LockHead) && Live(s, SENTINEL) && s.heap[HEAD].mutex == None
    requires s' == Lock(s, t, Walk(k, Next(SENTINEL)), SENTINEL) && Orderly(s')
    requires post == s.chain[1..] && s.chain == [HEAD] + post
    ensures Local(s, s', t, [], [HEAD], [HEAD], post)
  {
    HeadSpot(s, s', t, [HEAD]);
  }

  lemma LockHeadAt(s: State, t: Tid, k: Kind, s': State, post: seq<Addr>)
    requires AtNode(s, t, HEAD, 0) && s.pc[t] == Walk(k, LockHead) && Live(s, SENTINEL) && s.heap[HEAD].mutex == None
    requires s' == Lock(s, t, Walk(k, Next(SENTINEL)), SENTINEL) && Orderly(s')
    requires post == s.chain[1..] && s.chain == [HEAD] + post
    ensures Follows(Abs(s), Abs(s'), t, Effect(t))
  {
    LockHeadLocal(s, t, k, s', post);
    ViewSame(s, s', post);
    LockHeadViews(s, t, k, s', post);
    EffectFollows(s, s', t, [HEAD], post, DoWalk(k), Found(k, View(s, s.chain)));
  }

  lemma LinkViews(s: State, t: Tid, n: Ref, v: Value, s': State, post: seq<Addr>)
    requires t in s.pc && s.pc[t] == PushLink(n, v) && s' == DoPushLink(s, t, n, v) && !s'.fault && !s.fault
    requires s.heap[n.a].data == Some(v) && s.heap[n.a].mutex == None && s.heap[HEAD].mutex == Some(t)
    requires View(s', post) == View(s, post) && s.chain == [HEAD] + post && s'.chain == [HEAD, n.a] + post
    ensures Perform(View(s, s.chain), DoPush(v)) == (View(s', s'.chain), None)
  {
    NodeView(s, HEAD, post);
    PairView(s', HEAD, n.a, post);
    assert MarkAt(s, HEAD) == NoMark && MarkAt(s', HEAD) == NoMark && MarkAt(s', n.a) == NoMark;
    assert Own(s, HEAD) == [] && Own(s', HEAD) == [] && Own(s', n.a) == [v];
    assert View(s', s'.chain) == [v] + View(s, s.chain);
  }

  lemma LinkLocal(s: State, t: Tid, n: Ref, v: Value, s': State, post: seq<Addr>)
    requires AtNode(s, t, HEAD, 0) && s.pc[t] == PushLink(n, v) && s' == DoPushLink(s, t, n, v) && !s'.fault && !s.fault
    requires Orderly(s') && n.a in s.heap && n.a !in s.chain
    requires post == s.chain[1..] && s.chain == [HEAD] + post
    ensures Local(s, s', t, [], [HEAD], [HEAD, n.a], post) && s'.chain == [HEAD, n.a] + post
    ensures View(s', post) == View(s, post)
  {
    assert s'.chain == [HEAD, n.a] + post;
    HeadSpot(s, s', t, [HEAD, n.a]);
    ViewSame(s, s', post);
  }

  lemma LinkPhases(s: State, t: Tid, n: Ref, v: Value, s': State)
    requires t in s.pc && s.pc[t] == PushLink(n, v) && s' == DoPushLink(s, t, n, v) && !s'.fault && !s.fault
    ensures PhaseOf(s, s.pc[t]) == Asked(DoPush(v)) && t in s'.pc && PhaseOf(s', s'.pc[t]) == Answered(None)
  {
  }

  lemma LinkAt(s: State, t: Tid, n: Ref, v: Value, s': State, post: seq<Addr>)
    requires AtNode(s, t, HEAD, 0) && s.pc[t] == PushLink(n, v) && s' == DoPushLink(s, t, n, v) && !s'.fault && !s.fault
    requires Orderly(s') && n.a in s.heap && n.a !in s.chain && s.heap[n.a].data == Some(v) && s.heap[n.a].mutex == None
    requires s.heap[HEAD].mutex == Some(t) && post == s.chain[1..] && s.chain == [HEAD] + post
    ensures Follows(Abs(s), Abs(s'), t, Effect(t))
  {
    LinkLocal(s, t, n, v, s', post);
    LinkViews(s, t, n, v, s', post);
    LinkPhases(s, t, n, v, s');
    EffectFollows(s, s', t, [HEAD, n.a], post, DoPush(v), None);
  }

  lemma EffectFollows(s: State, s': State, t: Tid, mid': seq<Addr>, post: seq<Addr>, o: Op, res: Option<Value>)
    requires Local(s, s', t, [], [HEAD], mid', post)
    requires PhaseOf(s, s.pc[t]) == Asked(o) && PhaseOf(s', s'.pc[t]) == Answered(res)
    requires Perform(View(s, s.chain), o) == (View(s', s'.chain), res)
    ensures Follows(Abs(s), Abs(s'), t, Effect(t))
  {
    OtherPhases(s, s', t, [], [HEAD], mid', post);
  }

  lemma LinkReady(s: State, t: Tid, n: Ref, v: Value)
    requires Inv(s) && t in s.pc && s.pc[t] == PushLink(n, v)
    ensures n.a in s.heap && n.a !in s.chain && s.heap[n.a].data == Some(v) && s.heap[n.a].mutex == None
    ensures HEAD in s.heap && s.heap[HEAD].mutex == Some(t)
  {
    assert ThreadInv(s, t);
    assert NodeInv(s, n.a);
  }

  lemma LinkMatches(s: State, t: Tid, n: Ref, v: Value, s': State)
    requires Inv(s) && t in s.pc && s.pc[t] == PushLink(n, v) && s' == DoPushLink(s, t, n, v) && Inv(s')
    ensures Follows(Abs(s), Abs(s'), t, Effect(t))
  {
    LinkReady(s, t, n, v);
    InvOrderly(s);
    InvOrderly(s');
    BehindAt(s.chain, 0);
    assert s.chain == [HEAD] + s.chain[1..];
    LinkAt(s, t, n, v, s', s.chain[1..]);
  }

  // ---------------------------------------------------------------- all steps

  lemma WalkMatches(s: State, t: Tid, k: Kind, at: At, c: Choice, s': State)
    requires Inv(s) && t in s.pc && s.pc[t] == Walk(k, at) && KindOk(s.pc[t]) && s' == WalkStep(s, t, k, at) && Inv(s')
    ensures Follows(Abs(s), Abs(s'), t, Event(s, t, c))
  {
    match at
    case LockHead =>
      if s.heap[HEAD].mutex.None? {
        LockHeadMatches(s, t, k, s');
      } else {
        SameState(s, t);
      }
    case Next(cur) => NextMatches(s, t, k, cur, s');
    case LockNext(cur, next) => LockNextMatches(s, t, k, cur, next, s');
    case Test(cur, next) => TestMatches(s, t, k, cur, next, s');
    case Visit(next) => VisitMatches(s, t, k, next, s');
    case Splice(cur, next) => SpliceMatches(s, t, k, cur, next, s');
    case Exit(cur, res) => ExitMatches(s, t, k, cur, res, s');
    case _ => StillMatches(s, t, k, at, s');
  }

  lemma StepMatches(s: State, t: Tid, c: Choice, s': State)
    requires Inv(s) && t in s.pc && KindOk(s.pc[t]) && s' == Step(s, t, c) && Inv(s')
    ensures Follows(Abs(s), Abs(s'), t, Event(s, t, c))
  {
    match s.pc[t]
    case PushLink(n, v) => LinkMatches(s, t, n, v, s');
    case Walk(k, at) => WalkMatches(s, t, k, at, c, s');
    case _ => OutsideMatches(s, t, c, s');
  }

  lemma WalkKind(s: State, t: Tid, k: Kind, at: At)
    requires t in s.pc && s.pc[t] == Walk(k, at) && KindOk(s.pc[t])
    ensures var s' := WalkStep(s, t, k, at); t in s'.pc && s'.pc == s.pc[t := s'.pc[t]] && KindOk(s'.pc[t])
  {
    match at
    case Test(cur, next) => assert WalkStep(s, t, k, at) == DoTest(s, t, k, cur, next);
    case Visit(next) => assert WalkStep(s, t, k, at) == DoVisit(s, t, k, next);
    case Splice(cur, next) => assert WalkStep(s, t, k, at) == DoSplice(s, t, k, cur, next);
    case _ =>
  }

  lemma StepKind(s: State, t: Tid, c: Choice)
    requires t in s.pc && KindOk(s.pc[t])
    ensures var s' := Step(s, t, c); t in s'.pc && s'.pc == s.pc[t := s'.pc[t]] && KindOk(s'.pc[t])
  {
    if s.pc[t].Walk? {
      WalkKind(s, t, s.pc[t].k, s.pc[t].at);
    }
  }

  lemma {:induction false} RunKinds(threads: set<Tid>, sched: Schedule, t: Tid)
    requires t in Run(threads, sched).pc
    ensures KindOk(Run(threads, sched).pc[t])
  {
    if sched != [] {
      var n := |sched| - 1;
      var s := Run(threads, sched[..n]);
      RunInv(threads, sched[..n]);
      if sched[n].0 in s.pc {
        RunKinds(threads, sched[..n], sched[n].0);
        StepKind(s, sched[n].0, sched[n].1);
      }
      if t in s.pc {
        RunKinds(threads, sched[..n], t);
      }
    }
  }

  function Nothing(threads: set<Tid>): ListSpec {
    ListSpec([], map t | t in threads :: Rest)
  }

  /** Linearizability: in every interleaving, every push, for_each, find_first_if and remove_if takes effect at
      one instant, on the whole list; what a walk finds, and what it leaves, is what the sequential list gives
      for the elements there were when it locked the head, with all walks begun before it carried out. */
  lemma {:induction false} RunRefines(threads: set<Tid>, sched: Schedule)
    ensures ListRun(Nothing(threads), Trace(threads, sched)) == Some(Abs(Run(threads, sched)))
  {
    if sched == [] {
      InitView(threads);
    } else {
      var before := sched[..|sched| - 1];
      RunRefines(threads, before);
      RunInv(threads, before);
      RunInv(threads, sched);
      var s := Run(threads, before);
      var (t, c) := sched[|sched| - 1];
      if t in s.pc {
        RunKinds(threads, before, t);
        StepMatches(s, t, c, Step(s, t, c));
        FollowsStep(Abs(s), Abs(Step(s, t, c)), t, Event(s, t, c));
      }
      var trace := Trace(threads, sched);
      assert trace[..|trace| - 1] == Trace(threads, before);
    }
  }

  lemma InitView(threads: set<Tid>)
    ensures Abs(Init(threads)) == Nothing(threads)
  {
    var s := Init(threads);
    assert [HEAD][1..] == [];
    assert View(s, s.chain) == Combine(MarkAt(s, HEAD), Own(s, HEAD), View(s, []));
  }
}
