/**
 * What the client's session promises (client/network_client.py), stated
 * about the step functions of ClientSession and proved for all inputs.
 */
module ClientProperties {
  import opened Wrappers
  import opened ClientSession

  // ---- send_message and the outbound guards ----

  /** send_message touches the queue and the outbox and nothing else. */
  lemma SendChangesOnlyQueueAndOutbox(s: Session, m: Message)
    ensures SendStep(s, m) == s.(queue := SendStep(s, m).queue, outbox := SendStep(s, m).outbox)
    ensures !(s.socket && s.address.Some?) ==> SendStep(s, m) == s
  {
  }

  /** A message the validator refuses is not sent; exactly one error entry,
      carrying the validator's reason, is queued instead. */
  lemma SendRefused(s: Session, m: Message)
    requires s.socket && s.address.Some? && !Validate(s.started, s.waiting, m).0
    ensures SendStep(s, m).outbox == s.outbox
    ensures SendStep(s, m).queue == s.queue + [ErrorEntry(Validate(s.started, s.waiting, m).1)]
  {
  }

  /** A message the validator accepts goes to the server address, once. */
  lemma SendDelivered(s: Session, m: Message)
    requires s.socket && s.address.Some? && Validate(s.started, s.waiting, m).0
    ensures SendStep(s, m).outbox == s.outbox + [Packet(s.address.value, m)]
    ensures SendStep(s, m).queue == s.queue
  {
  }

  /** play_card and draw_card do nothing at all while the opponent is away. */
  lemma NoActionWhileWaiting(s: Session, card: Value)
    requires s.waiting
    ensures PlayCardStep(s, card) == s
    ensures DrawCardStep(s) == s
  {
  }

  /** A game action before the game starts is refused with its reason. */
  lemma ActionBeforeStartRefused(s: Session, card: Value)
    requires s.socket && s.address.Some? && !s.started && !s.waiting
    ensures PlayCardStep(s, card) == s.(queue := s.queue + [ErrorEntry(ActionBeforeStart)])
    ensures DrawCardStep(s) == s.(queue := s.queue + [ErrorEntry(ActionBeforeStart)])
  {
  }

  /** During a game, with the opponent present, the action reaches the server. */
  lemma ActionDuringGameSent(s: Session, card: Value)
    requires s.socket && s.address.Some? && s.started && !s.waiting
    ensures PlayCardStep(s, card) == s.(outbox := s.outbox + [Packet(s.address.value, PlayCardMessage(card, s.name))])
    ensures DrawCardStep(s) == s.(outbox := s.outbox + [Packet(s.address.value, DrawCardMessage(s.name))])
  {
  }

  // ---- the heartbeat ----

  /** A heartbeat pass sends exactly when the loop runs, the client is
      connected and a socket and an address exist; it changes nothing else. */
  lemma HeartbeatSends(s: Session)
    ensures var sent := s.running && s.connected && s.socket && s.address.Some?;
      HeartbeatStep(s) ==
        if sent then s.(outbox := s.outbox + [Packet(s.address.value, HeartbeatMessage(s.name))]) else s
  {
  }

  // ---- close and invalid messages ----

  /** After close the loops are stopped, the socket is gone, the queue is
      empty and the flags are clear; the game flag, the retry counter, the
      snapshot, the name and the address stay. An open socket sends one
      disconnect message first. */
  lemma CloseSpec(s: Session)
    ensures var t := CloseStep(s);
      !t.running && !t.socket && !t.connected && !t.waiting && t.queue == [] &&
      t.started == s.started && t.attempts == s.attempts && t.gameState == s.gameState &&
      t.name == s.name && t.address == s.address &&
      t.outbox == s.outbox + if s.socket && s.address.Some? then [Packet(s.address.value, DisconnectMessage(s.name))] else []
  {
  }

  /** The `unknown` entry of _handle_invalid_message is drained by the close
      that follows it: handling an invalid message is the same as closing. */
  lemma InvalidIsClose(s: Session)
    ensures InvalidStep(s) == CloseStep(s)
    ensures InvalidStep(s).queue == []
  {
  }

  // ---- one pass of the receive loop ----

  /** Each branch of the chain is chosen by exactly one type. */
  lemma BranchOfSpec(t: Value)
    ensures BranchOf(t) == AckBranch <==> t == Text("connect_ack")
    ensures BranchOf(t) == UpdateBranch <==> t == Text("game_state_update")
    ensures BranchOf(t) == NameTakenBranch <==> t == Text("name_taken")
    ensures BranchOf(t) == OpponentLeftBranch <==> t == Text("player_disconnected")
    ensures BranchOf(t) == OpponentBackBranch <==> t == Text("player_reconnected")
    ensures BranchOf(t) == GameOverBranch <==> t == Text("game_over")
    ensures BranchOf(t) == ErrorBranch <==> t == Text("error")
  {
  }

  /** The types the receive loop acts on. */
  predicate Handled(m: Message)
  {
    BranchOf(TypeOf(m)) != OtherBranch
  }

  /** The receive loop passes over a datagram it accepts. */
  predicate Accepted(s: Session, v: Value)
  {
    s.running && s.socket && v.Object? && "type" in v.fields && Validate(s.started, s.waiting, v.fields).0
  }

  /** Without `running` (or without a socket) the pass does nothing and the loop ends. */
  lemma ReceiveStopped(s: Session, r: Received, reply: Reply)
    requires !s.running || !s.socket
    ensures ReceiveStep(s, r, reply) == Pass(s, false)
  {
  }

  /** An accepted message of a handled type is queued once, before its
      effects; name_taken adds its marker after it. */
  lemma ReceiveQueues(s: Session, v: Value, reply: Reply)
    requires Accepted(s, v) && Handled(v.fields)
    ensures ReceiveStep(s, Datagram(v), reply).after.queue ==
      s.queue + [v] + if BranchOf(TypeOf(v.fields)) == NameTakenBranch then [NameTakenEntry] else []
  {
    ProcessQueues(s.(queue := s.queue + [v]), v.fields);
  }

  lemma ProcessQueues(s: Session, m: Message)
    requires Handled(m)
    ensures ProcessStep(s, m).queue == s.queue + if BranchOf(TypeOf(m)) == NameTakenBranch then [NameTakenEntry] else []
  {
  }

  /** A JSONDecodeError, a value that is not an object with a type, or a
      message the validator refuses: the session is closed. */
  lemma ReceiveRejects(s: Session, r: Received, reply: Reply)
    requires s.running && s.socket
    requires r.Malformed? || (r.Datagram? && !Accepted(s, r.data))
    ensures ReceiveStep(s, r, reply) == Pass(CloseStep(s), false)
  {
    InvalidIsClose(s);
  }

  /** An accepted message of a type the client does not handle closes the
      session too, after it was queued, so the queue ends up empty. */
  lemma ReceiveUnhandled(s: Session, v: Value, reply: Reply)
    requires Accepted(s, v) && !Handled(v.fields)
    ensures ReceiveStep(s, Datagram(v), reply) == Pass(CloseStep(s), false)
  {
    InvalidIsClose(s.(queue := s.queue + [v]));
  }

  /** connect_ack: connected, waiting as the message says (not waiting by
      default); only when not waiting do the snapshot and the game start. */
  lemma ReceiveConnectAck(s: Session, v: Value, reply: Reply)
    requires Accepted(s, v) && BranchOf(TypeOf(v.fields)) == AckBranch
    ensures var p := ReceiveStep(s, Datagram(v), reply);
      var w := Truthy(Get(v.fields, "waiting_for_player", Bool(false)));
      p.listening && p.after.connected && p.after.waiting == w &&
      (if w then p.after.gameState == s.gameState && p.after.started == s.started
       else p.after.gameState == v && p.after.started)
  {
  }

  /** game_state_update: connected, not waiting, snapshot stored, game started. */
  lemma ReceiveStateUpdate(s: Session, v: Value, reply: Reply)
    requires Accepted(s, v) && BranchOf(TypeOf(v.fields)) == UpdateBranch
    ensures var p := ReceiveStep(s, Datagram(v), reply);
      p.listening && p.after.connected && !p.after.waiting && p.after.gameState == v && p.after.started
  {
  }

  /** name_taken and game_over stop the loops and clear `connected`;
      game_over also ends the game. */
  lemma ReceiveEnds(s: Session, v: Value, reply: Reply)
    requires Accepted(s, v) && (BranchOf(TypeOf(v.fields)) == NameTakenBranch || BranchOf(TypeOf(v.fields)) == GameOverBranch)
    ensures var p := ReceiveStep(s, Datagram(v), reply);
      !p.listening && !p.after.running && !p.after.connected &&
      p.after.started == (s.started && BranchOf(TypeOf(v.fields)) == NameTakenBranch)
  {
  }

  /** player_disconnected sets waiting; player_reconnected clears it and
      stores the snapshot. */
  lemma ReceiveOpponent(s: Session, v: Value, reply: Reply)
    requires Accepted(s, v) && (BranchOf(TypeOf(v.fields)) == OpponentLeftBranch || BranchOf(TypeOf(v.fields)) == OpponentBackBranch)
    ensures var p := ReceiveStep(s, Datagram(v), reply);
      p.listening && p.after.connected == s.connected &&
      (if BranchOf(TypeOf(v.fields)) == OpponentLeftBranch then p.after.waiting && p.after.gameState == s.gameState
       else !p.after.waiting && p.after.gameState == v)
  {
  }

  // ---- _handle_disconnect ----

  /** What a reconnect attempt leaves in the queue: close empties it, and the
      connect message is refused (with its error entry) during a game. */
  function RetryQueue(s: Session): seq<Value>
  {
    if s.started then [ErrorEntry(ConnectionDuringGame)] else []
  }

  lemma RetryShape(s: Session)
    requires s.running && s.address.Some?
    ensures var t := RetryStep(s);
      t.socket && !t.running && !t.connected && !t.waiting && t.attempts == s.attempts &&
      t.queue == RetryQueue(s) && t.started == s.started && t.gameState == s.gameState &&
      t.outbox == s.outbox
        + (if s.socket then [Packet(s.address.value, DisconnectMessage(s.name))] else [])
        + (if s.started then [] else [Packet(s.address.value, ConnectMessage(s.name))])
  {
    CloseSpec(s);
  }

  /** Not running: _handle_disconnect returns false at once. */
  lemma DisconnectWhenStopped(s: Session, reply: Reply)
    requires !s.running
    ensures DisconnectStep(s, reply) == Outcome(s, false)
  {
  }

  /** A good reply restores the session: connected, counter back to 0, the
      reply stored and queued, true returned. The close inside the attempt has
      cleared `running`, and nothing sets it again. */
  lemma DisconnectRecovers(s: Session, reply: Reply)
    requires s.running && s.address.Some? && s.attempts < MaxReconnectAttempts && Answered(reply).Some?
    ensures var o := DisconnectStep(s, reply);
      o.ok && o.after.connected && o.after.attempts == 0 && !o.after.running &&
      o.after.gameState == Answered(reply).value && o.after.queue == RetryQueue(s) + [Answered(reply).value]
  {
    RetryShape(s);
  }

  /** A failed attempt counts one more; at the limit the `error` entry is
      queued, and in every case false is returned. */
  lemma DisconnectFails(s: Session, reply: Reply)
    requires s.running && s.address.Some? && s.attempts < MaxReconnectAttempts && Answered(reply).None?
    ensures var o := DisconnectStep(s, reply);
      !o.ok && !o.after.connected && !o.after.running && o.after.attempts == s.attempts + 1 &&
      o.after.queue == RetryQueue(s) + if s.attempts + 1 >= MaxReconnectAttempts then [LostEntry] else []
  {
    RetryShape(s);
  }

  /** With the counter already at the limit no attempt is made: the `error`
      entry, `connected` cleared, false returned, and the loops keep running. */
  lemma DisconnectAtLimit(s: Session, reply: Reply)
    requires s.running && s.attempts >= MaxReconnectAttempts
    ensures DisconnectStep(s, reply) == Outcome(s.(queue := s.queue + [LostEntry], connected := false), false)
  {
  }

  /** During a game the reconnect attempt never reaches the server with a
      connect message: the validator refuses it, so only the disconnect of
      the close goes out. */
  lemma ReconnectDuringGameSendsNoConnect(s: Session, reply: Reply)
    requires s.running && s.socket && s.address.Some? && s.started && s.attempts < MaxReconnectAttempts
    ensures DisconnectStep(s, reply).after.outbox == s.outbox + [Packet(s.address.value, DisconnectMessage(s.name))]
  {
    RetryShape(s);
  }

  /** After a successful reconnect the receive loop does not go round again. */
  lemma ReconnectEndsReceiving(s: Session, reply: Reply)
    requires s.running && s.socket && s.address.Some? && s.attempts < MaxReconnectAttempts && Answered(reply).Some?
    ensures var p := ReceiveStep(s, Failed, reply);
      !p.listening && p.after.connected && DisconnectStep(s, reply).ok
  {
    DisconnectRecovers(s, reply);
  }

  // ---- the session invariant over any sequence of calls ----

  /** The retry counter stays within its bound, and a socket or running
      loops come with a server address. */
  predicate Valid(s: Session)
  {
    s.attempts <= MaxReconnectAttempts &&
    (s.socket ==> s.address.Some?) &&
    (s.running ==> s.address.Some?)
  }

  /** A call on the client from outside, with what the network answers. */
  datatype Event =
    | SendEvent(m: Message)
    | HeartbeatEvent
    | ReceiveEvent(r: Received, reply: Reply)
    | InvalidEvent
    | NextEvent
    | PlayCardEvent(card: Value)
    | DrawCardEvent
    | CloseEvent
    | DisconnectEvent(reply: Reply)
    | ConnectEvent(ip: string, port: int, name: string)

  function Apply(s: Session, e: Event): Session
  {
    match e
    case SendEvent(m) => SendStep(s, m)
    case HeartbeatEvent => HeartbeatStep(s)
    case ReceiveEvent(r, reply) => ReceiveStep(s, r, reply).after
    case InvalidEvent => InvalidStep(s)
    case NextEvent => NextStep(s).0
    case PlayCardEvent(card) => PlayCardStep(s, card)
    case DrawCardEvent => DrawCardStep(s)
    case CloseEvent => CloseStep(s)
    case DisconnectEvent(reply) => DisconnectStep(s, reply).after
    case ConnectEvent(ip, port, name) => ConnectStep(s, ip, port, name)
  }

  function Run(s: Session, events: seq<Event>): Session
    decreases |events|
  {
    if events == [] then s else Run(Apply(s, events[0]), events[1..])
  }

  lemma DisconnectKeepsValid(s: Session, reply: Reply)
    requires Valid(s)
    ensures Valid(DisconnectStep(s, reply).after)
  {
    if s.running && s.attempts < MaxReconnectAttempts {
      RetryShape(s);
    }
  }

  lemma ReceiveKeepsValid(s: Session, r: Received, reply: Reply)
    requires Valid(s)
    ensures Valid(ReceiveStep(s, r, reply).after)
  {
    if s.running && s.socket {
      match r
      case Failed => DisconnectKeepsValid(s, reply);
      case Malformed => InvalidIsClose(s);
      case Datagram(v) =>
        InvalidIsClose(s);
        if v.Object? {
          ProcessKeepsValid(s.(queue := s.queue + [v]), v.fields);
        }
    }
  }

  lemma ProcessKeepsValid(s: Session, m: Message)
    requires Valid(s)
    ensures Valid(ProcessStep(s, m))
  {
    match BranchOf(TypeOf(m))
    case AckBranch =>
    case UpdateBranch =>
    case NameTakenBranch =>
    case OtherBranch => InvalidIsClose(s);
    case _ =>
  }

  lemma ApplyKeepsValid(s: Session, e: Event)
    requires Valid(s)
    ensures Valid(Apply(s, e))
  {
    match e
    case ReceiveEvent(r, reply) => ReceiveKeepsValid(s, r, reply);
    case DisconnectEvent(reply) => DisconnectKeepsValid(s, reply);
    case _ =>
  }

  lemma {:induction false} RunKeepsValid(s: Session, events: seq<Event>)
    requires Valid(s)
    ensures Valid(Run(s, events))
    decreases |events|
  {
    if events != [] {
      ApplyKeepsValid(s, events[0]);
      RunKeepsValid(Apply(s, events[0]), events[1..]);
    }
  }

  /** Whatever the calls and whatever the network does, the retry counter
      never exceeds max_reconnect_attempts. */
  lemma AttemptsBounded(events: seq<Event>)
    ensures Run(Initial, events).attempts <= MaxReconnectAttempts
  {
    RunKeepsValid(Initial, events);
  }

  // ---- the FIFO queue ----

  /** The entries returned by `k` calls of get_next_message. */
  function Drain(s: Session, k: nat): seq<Value>
    decreases k
  {
    if k == 0 then [] else [NextStep(s).1] + Drain(NextStep(s).0, k - 1)
  }

  /** get_next_message hands out the queue oldest first. */
  lemma {:induction false} DrainOldestFirst(s: Session, k: nat)
    requires k <= |s.queue|
    ensures Drain(s, k) == s.queue[..k]
    decreases k
  {
    if k > 0 {
      var t := NextStep(s).0;
      assert t.queue == s.queue[1..];
      DrainOldestFirst(t, k - 1);
      assert s.queue[..k] == [s.queue[0]] + s.queue[1..][..k - 1];
    }
  }

  /** On an empty queue get_next_message returns None and changes nothing. */
  lemma NextOnEmpty(s: Session)
    requires s.queue == []
    ensures NextStep(s) == (s, Null)
  {
  }

  /** A message accepted by the receive loop comes out of the queue after
      everything queued before it and before its own marker. */
  lemma ReceivedInOrder(s: Session, v: Value, reply: Reply)
    requires Accepted(s, v) && Handled(v.fields)
    ensures Drain(ReceiveStep(s, Datagram(v), reply).after, |s.queue| + 1) == s.queue + [v]
  {
    var t := ReceiveStep(s, Datagram(v), reply).after;
    ReceiveQueues(s, v, reply);
    DrainOldestFirst(t, |s.queue| + 1);
    assert t.queue[..|s.queue| + 1] == s.queue + [v];
  }
}
