/** Message delivery in the chat server: a room that keeps recent messages, and sessions that each write
    their queue to a client, one asynchronous write at a time.

    A run is a sequence of handler invocations.  A message stands for its bytes; the socket is the list
    of writes that have been started and not completed, and the list of messages written.
*/
module ChatRoom {
  import opened Wrappers

  type Message(==, !new)
  type Id = nat

  const MAX_RECENT_MSGS: nat := 100

  // ---------------------------------------------------------------- one session

  /** The queue of a session, the writes it has started, and what has been written completely. */
  datatype Writer = Writer(queue: seq<Message>, outstanding: seq<Message>, sent: seq<Message>)

  /** `async_write` of the front of the queue. */
  function StartWrite(w: Writer): Writer {
    if w.queue == [] then w else w.(outstanding := w.outstanding + [w.queue[0]])
  }

  function Enqueue(w: Writer, msg: Message): Writer {
    var w' := w.(queue := w.queue + [msg]);
    if w.queue == [] then StartWrite(w') else w'
  }

  function EnqueueAll(w: Writer, msgs: seq<Message>): Writer {
    if msgs == [] then w else Enqueue(EnqueueAll(w, msgs[..|msgs| - 1]), msgs[|msgs| - 1])
  }

  /** The first started write is complete, and `handle_write` goes on with the queue. */
  function Written(w: Writer): Writer {
    if w.outstanding == [] then w
    else
      var w' := Writer(if w.queue == [] then [] else w.queue[1..], w.outstanding[1..], w.sent + [w.outstanding[0]]);
      StartWrite(w')
  }

  function WriteFailed(w: Writer): Writer {
    if w.outstanding == [] then w else w.(outstanding := w.outstanding[1..])
  }

  /** A single write is outstanding, of the front of the queue, exactly when the queue is not empty. */
  ghost predicate OneWrite(w: Writer) {
    w.outstanding == if w.queue == [] then [] else [w.queue[0]]
  }

  // ---------------------------------------------------------------- the objects

  class ChatSession {
    var writeMsgs: seq<Message>
    ghost var outstanding: seq<Message>
    ghost var sent: seq<Message>

    ghost function View(): Writer
      reads this
    {
      Writer(writeMsgs, outstanding, sent)
    }

    constructor ()
      ensures View() == Writer([], [], [])
    {
      writeMsgs, outstanding, sent := [], [], [];
    }

    method Deliver(msg: Message)
      modifies this
      ensures View() == Enqueue(old(View()), msg)
    {
      var writeInProgress := writeMsgs != [];
      writeMsgs := writeMsgs + [msg];
      if !writeInProgress {
        outstanding := outstanding + [writeMsgs[0]];
      }
    }

    /** Called when the first outstanding write has ended. */
    method HandleWrite(room: ChatRoom, error: bool)
      requires OneWrite(View()) && outstanding != []
      modifies this, room
      ensures View() == if error then WriteFailed(old(View())) else Written(old(View()))
      ensures room.participants == if error then old(room.participants) - {this} else old(room.participants)
      ensures room.recentMsgs == old(room.recentMsgs)
      ensures !error ==> OneWrite(View())
    {
      if error {
        outstanding := outstanding[1..];
        room.Leave(this);
      } else {
        sent, outstanding := sent + [outstanding[0]], outstanding[1..];
        writeMsgs := writeMsgs[1..];
        if writeMsgs != [] {
          outstanding := outstanding + [writeMsgs[0]];
        }
      }
    }
  }

  /** The last messages of `s`, at most `MAX_RECENT_MSGS`. */
  function LastOf(s: seq<Message>): seq<Message> {
    if |s| <= MAX_RECENT_MSGS then s else s[|s| - MAX_RECENT_MSGS..]
  }

  class ChatRoom {
    var participants: set<ChatSession>
    var recentMsgs: seq<Message>

    constructor ()
      ensures participants == {} && recentMsgs == []
    {
      participants, recentMsgs := {}, [];
    }

    /** The participant is sent all recent messages. */
    method Join(participant: ChatSession)
      modifies this, participant
      ensures participants == old(participants) + {participant} && recentMsgs == old(recentMsgs)
      ensures participant.View() == EnqueueAll(old(participant.View()), recentMsgs)
    {
      participants := participants + {participant};
      var i := 0;
      while i < |recentMsgs|
        invariant 0 <= i <= |recentMsgs| && recentMsgs == old(recentMsgs)
                  && participants == old(participants) + {participant}
        invariant participant.View() == EnqueueAll(old(participant.View()), recentMsgs[..i])
      {
        participant.Deliver(recentMsgs[i]);
        assert recentMsgs[..i + 1][..i] == recentMsgs[..i];
        i := i + 1;
      }
      assert recentMsgs[..i] == recentMsgs;
    }

    method Leave(participant: ChatSession)
      modifies this
      ensures participants == old(participants) - {participant} && recentMsgs == old(recentMsgs)
    {
      participants := participants - {participant};
    }

    /** Every participant is sent the message, once, in whatever order they are visited. */
    method Deliver(msg: Message)
      requires |recentMsgs| <= MAX_RECENT_MSGS
      modifies this, participants
      ensures participants == old(participants)
      ensures recentMsgs == LastOf(old(recentMsgs) + [msg])
      ensures forall p :: p in participants ==> p.View() == Enqueue(old(p.View()), msg)
    {
      recentMsgs := recentMsgs + [msg];
      while |recentMsgs| > MAX_RECENT_MSGS
        invariant participants == old(participants) && |recentMsgs| <= MAX_RECENT_MSGS + 1
        invariant recentMsgs == old(recentMsgs) + [msg] || recentMsgs == LastOf(old(recentMsgs) + [msg])
        invariant forall p :: p in participants ==> p.View() == old(p.View())
      {
        recentMsgs := recentMsgs[1..];
      }
      var rest := participants;
      while rest != {}
        invariant participants == old(participants) && rest <= participants
                  && recentMsgs == LastOf(old(recentMsgs) + [msg])
        invariant forall p :: p in participants - rest ==> p.View() == Enqueue(old(p.View()), msg)
        invariant forall p :: p in rest ==> p.View() == old(p.View())
      {
        var p :| p in rest;
        p.Deliver(msg);
        rest := rest - {p};
      }
    }
  }

  // ---------------------------------------------------------------- whole runs

  /** A session, with the part of the delivered messages that fell into its membership. */
  datatype Session = Session(w: Writer, failed: bool, given: seq<Message>, from: nat, to: Option<nat>)

  /** `log` records every message ever delivered to the room; no step reads it. */
  datatype State = State(recent: seq<Message>, participants: set<Id>, sessions: map<Id, Session>, log: seq<Message>)

  datatype Event =
    | Start(id: Id)          // a new session is accepted and joins
    | Deliver(msg: Message)  // a body has been read from some client
    | ReadError(id: Id)
    | WriteDone(id: Id)
    | WriteError(id: Id)

  function Leave(s: State, id: Id): State {
    if id in s.participants && id in s.sessions
    then s.(participants := s.participants - {id}, sessions := s.sessions[id := s.sessions[id].(to := Some(|s.log|))])
    else s
  }

  function Step(s: State, e: Event): State {
    match e
    case Start(id) =>
      if id in s.sessions then s
      else
        s.(participants := s.participants + {id},
           sessions := s.sessions[id := Session(EnqueueAll(Writer([], [], []), s.recent), false, s.recent, |s.log|,
                                                None)])
    case Deliver(msg) =>
      State(LastOf(s.recent + [msg]), s.participants,
            map id | id in s.sessions ::
              if id in s.participants then s.sessions[id].(w := Enqueue(s.sessions[id].w, msg)) else s.sessions[id],
            s.log + [msg])
    case ReadError(id) => Leave(s, id)
    case WriteDone(id) =>
      if id in s.sessions && s.sessions[id].w.outstanding != []
      then s.(sessions := s.sessions[id := s.sessions[id].(w := Written(s.sessions[id].w))]) else s
    case WriteError(id) =>
      if id in s.sessions && s.sessions[id].w.outstanding != []
      then
        var x := s.sessions[id];
        Leave(s.(sessions := s.sessions[id := x.(w := WriteFailed(x.w), failed := true)]), id)
      else s
  }

  const INIT := State([], {}, map[], [])

  function Run(es: seq<Event>): State {
    if es == [] then INIT else Step(Run(es[..|es| - 1]), es[|es| - 1])
  }

  /** What was delivered to the room while the session was a participant. */
  function During(log: seq<Message>, x: Session): seq<Message> {
    var to := if x.to.Some? then x.to.value else |log|;
    if x.from <= to <= |log| then log[x.from..to] else []
  }

  ghost predicate SessionInv(s: State, id: Id)
    requires id in s.sessions
  {
    var x := s.sessions[id];
    && x.from <= |s.log| && x.given == LastOf(s.log[..x.from])
    && (id in s.participants <==> x.to == None) && (x.to.Some? ==> x.from <= x.to.value <= |s.log|)
    && (x.failed ==> x.to.Some? && x.w.outstanding == [])
    && (!x.failed ==> OneWrite(x.w))
    && x.w.sent + x.w.queue == x.given + During(s.log, x)
  }

  ghost predicate Inv(s: State) {
    && s.recent == LastOf(s.log)
    && (forall id :: id in s.participants ==> id in s.sessions)
    && (forall id {:trigger SessionInv(s, id)} :: id in s.sessions ==> SessionInv(s, id))
  }

  lemma {:induction false} EnqueueAllGives(w: Writer, msgs: seq<Message>)
    requires OneWrite(w)
    ensures var w' := EnqueueAll(w, msgs); OneWrite(w') && w'.queue == w.queue + msgs && w'.sent == w.sent
  {
    if msgs != [] {
      EnqueueAllGives(w, msgs[..|msgs| - 1]);
      assert msgs == msgs[..|msgs| - 1] + [msgs[|msgs| - 1]];
    }
  }

  lemma StartInv(s: State, id: Id)
    requires Inv(s) && id !in s.sessions
    ensures Inv(Step(s, Start(id)))
  {
    var s' := Step(s, Start(id));
    EnqueueAllGives(Writer([], [], []), s.recent);
    assert s.log[..|s.log|] == s.log;
    forall u {:trigger SessionInv(s', u)} | u in s'.sessions ensures SessionInv(s', u) {
      if u != id {
        assert SessionInv(s, u);
      }
    }
  }

  lemma DeliverSession(s: State, msg: Message, id: Id)
    requires Inv(s) && id in s.sessions
    ensures SessionInv(Step(s, Deliver(msg)), id)
  {
    var x, log' := s.sessions[id], s.log + [msg];
    assert SessionInv(s, id);
    assert log'[..x.from] == s.log[..x.from];
    if id in s.participants {
      assert log'[x.from..|log'|] == s.log[x.from..|s.log|] + [msg];
      assert x.w.sent + (x.w.queue + [msg]) == (x.w.sent + x.w.queue) + [msg];
    } else {
      assert log'[x.from..x.to.value] == s.log[x.from..x.to.value];
    }
  }

  lemma DeliverInv(s: State, msg: Message)
    requires Inv(s)
    ensures Inv(Step(s, Deliver(msg)))
  {
    var s' := Step(s, Deliver(msg));
    forall id {:trigger SessionInv(s', id)} | id in s'.sessions ensures SessionInv(s', id) {
      DeliverSession(s, msg, id);
    }
  }

  lemma LeaveInv(s: State, id: Id)
    requires s.recent == LastOf(s.log) && (forall u :: u in s.participants ==> u in s.sessions)
    requires forall u {:trigger SessionInv(s, u)} :: u in s.sessions && u != id ==> SessionInv(s, u)
    requires id in s.participants ==>
      id in s.sessions && var x := s.sessions[id];
      x.to == None && x.from <= |s.log| && x.given == LastOf(s.log[..x.from])
      && (x.failed ==> x.w.outstanding == []) && (!x.failed ==> OneWrite(x.w))
          && x.w.sent + x.w.queue == x.given + During(s.log, x)
    requires id !in s.participants && id in s.sessions ==> SessionInv(s, id)
    ensures Inv(Leave(s, id))
  {
    var s' := Leave(s, id);
    forall u {:trigger SessionInv(s', u)} | u in s'.sessions ensures SessionInv(s', u) {
      if u != id {
        assert SessionInv(s, u);
      }
    }
  }

  lemma WriteDoneInv(s: State, id: Id)
    requires Inv(s)
    ensures Inv(Step(s, WriteDone(id)))
  {
    var s' := Step(s, WriteDone(id));
    forall u {:trigger SessionInv(s', u)} | u in s'.sessions ensures SessionInv(s', u) {
      assert SessionInv(s, u);
      if u == id {
        var w := s.sessions[id].w;
        if w.outstanding != [] {
          assert w.queue == [w.queue[0]] + w.queue[1..];
          assert w.sent + w.queue == (w.sent + [w.queue[0]]) + w.queue[1..];
        }
      }
    }
  }

  lemma StepInv(s: State, e: Event)
    requires Inv(s)
    ensures Inv(Step(s, e))
  {
    match e
    case Start(id) =>
      if id !in s.sessions {
        StartInv(s, id);
      }
    case Deliver(msg) => DeliverInv(s, msg);
    case ReadError(id) =>
      if id in s.sessions {
        assert SessionInv(s, id);
      }
      LeaveInv(s, id);
    case WriteDone(id) => WriteDoneInv(s, id);
    case WriteError(id) =>
      if id in s.sessions && s.sessions[id].w.outstanding != [] {
        assert SessionInv(s, id);
        var s1 := s.(sessions := s.sessions[id := s.sessions[id].(w := WriteFailed(s.sessions[id].w), failed := true)]);
        forall u {:trigger SessionInv(s1, u)} | u in s1.sessions && u != id ensures SessionInv(s1, u) {
          assert SessionInv(s, u);
        }
        LeaveInv(s1, id);
      }
  }

  lemma {:induction false} RunInv(es: seq<Event>)
    ensures Inv(Run(es))
  {
    if es != [] {
      RunInv(es[..|es| - 1]);
      StepInv(Run(es[..|es| - 1]), es[|es| - 1]);
    }
  }

  /** The messages that a run delivers to the room. */
  function Delivered(es: seq<Event>): seq<Message> {
    if es == [] then []
    else Delivered(es[..|es| - 1]) + if es[|es| - 1].Deliver? then [es[|es| - 1].msg] else []
  }

  lemma {:induction false} LogIsDelivered(es: seq<Event>)
    ensures Run(es).log == Delivered(es)
  {
    if es != [] {
      LogIsDelivered(es[..|es| - 1]);
    }
  }

  /** Delivery: over every run, what has been sent to a client followed by its queue is the history it was
      given when it joined, the last 100 messages delivered before, followed by everything delivered
      while it was a participant, in order; and, until a write fails, exactly one write is outstanding,
      of the front of the queue, if the queue is not empty, and none if it is. */
  lemma NothingLostOrReordered(es: seq<Event>, id: Id)
    requires id in Run(es).sessions
    ensures var s := Run(es); var x := s.sessions[id]; var all := Delivered(es);
      var to := if x.to.Some? then x.to.value else |all|;
      && (id in s.participants <==> x.to == None) && x.from <= to <= |all|
      && x.w.sent + x.w.queue == LastOf(all[..x.from]) + all[x.from..to]
      && (!x.failed ==> x.w.outstanding == if x.w.queue == [] then [] else [x.w.queue[0]])
      && s.recent == LastOf(all)
  {
    RunInv(es);
    LogIsDelivered(es);
    assert SessionInv(Run(es), id);
  }

  /** A session that joins is given the state of the room at that moment, and stays a participant until
      an error of its own. */
  lemma Membership(es: seq<Event>, e: Event, id: Id)
    requires id in Run(es).participants
    ensures var s' := Run(es + [e]);
      && (e != ReadError(id) && e != WriteError(id) ==> id in s'.participants)
      && id in Run(es).sessions && id in s'.sessions && s'.sessions[id].from == Run(es).sessions[id].from
      && s'.sessions[id].given == Run(es).sessions[id].given
  {
    assert (es + [e])[..|es|] == es;
    RunInv(es);
  }
}
