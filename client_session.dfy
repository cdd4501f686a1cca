/**
 * The client's session with the server (client/network_client.py):
 * the message validator, the outbound guards, one pass of the heartbeat
 * and receive loops, close, the reconnect retry and the FIFO message queue.
 *
 * Each operation is a step function on a `Session` value; the class
 * `NetworkClient` holds the same state in fields and its methods are proved
 * against those functions. Sockets become the `socket` flag and an outbox of
 * datagrams; what `recvfrom` returns is an input of the receive step.
 */
module ClientSession {
  import opened Wrappers

  /** A decoded JSON value as json.loads returns it (floats are not modelled). */
  datatype Value =
    | Null
    | Bool(b: bool)
    | Number(n: int)
    | Text(s: string)
    | List(items: seq<Value>)
    | Object(fields: map<string, Value>)

  /** A message: a JSON object (a Python dict with string keys). */
  type Message = map<string, Value>

  /** Python truthiness of a JSON value. */
  function Truthy(v: Value): bool
  {
    match v
    case Null => false
    case Bool(b) => b
    case Number(n) => n != 0
    case Text(s) => s != ""
    case List(items) => items != []
    case Object(fields) => fields != map[]
  }

  /** dict.get(key, default). */
  function Get(m: Message, key: string, default: Value): Value
  {
    if key in m then m[key] else default
  }

  /** message.get("type", ""). */
  function TypeOf(m: Message): Value
  {
    Get(m, "type", Text(""))
  }

  predicate IsType(m: Message, t: string)
  {
    TypeOf(m) == Text(t)
  }

  const ConnectionDuringGame: string := "Cannot send connection messages during active game"
  const ActionBeforeStart: string := "Cannot perform game actions before game starts"
  const PlayWhileWaiting: string := "Cannot play cards while waiting for player"
  const DrawWhileWaiting: string := "Cannot draw cards while waiting for player"

  /** _validate_message_for_state: a message is refused when it opens a
      connection during a game, or is a game action before the game starts
      or while the opponent is away; the refusal carries a reason. */
  function Validate(started: bool, waiting: bool, m: Message): (r: (bool, string))
    ensures r.0 <==>
      !(started && (IsType(m, "connect") || IsType(m, "connect_ack"))) &&
      !((IsType(m, "play_card") || IsType(m, "draw_card")) && (!started || waiting))
    ensures r.0 <==> r.1 == ""
  {
    if started && (IsType(m, "connect") || IsType(m, "connect_ack")) then (false, ConnectionDuringGame)
    else if !started && (IsType(m, "play_card") || IsType(m, "draw_card")) then (false, ActionBeforeStart)
    else if IsType(m, "play_card") && waiting then (false, PlayWhileWaiting)
    else if IsType(m, "draw_card") && waiting then (false, DrawWhileWaiting)
    else (true, "")
  }

  /** The server address: ip and the integer port. */
  datatype Address = Address(ip: string, port: int)

  /** A datagram handed to sendto: the message and where it goes. */
  datatype Packet = Packet(to: Address, body: Message)

  datatype Session = Session(
    socket: bool,             // a socket is open
    address: Option<Address>, // server_address
    name: Value,              // player_name (None until connect)
    running: bool,
    connected: bool,
    waiting: bool,            // waiting_for_player, as the truth value the source tests
    started: bool,            // game_started
    gameState: Value,         // game_state (None until a snapshot arrives)
    attempts: nat,            // reconnect_attempts
    queue: seq<Value>,        // message_queue, oldest first
    outbox: seq<Packet>)      // every datagram sent, oldest first

  const MaxReconnectAttempts: nat := 10

  /** A freshly constructed NetworkClient. */
  const Initial: Session := Session(false, None, Null, false, false, false, false, Null, 0, [], [])

  const InvalidForState: string := "Invalid message for current state: "

  /** The queue entry that replaces an outbound message the validator refuses. */
  function ErrorEntry(reason: string): Value
  {
    Object(map["type" := Text("error"), "message" := Text(InvalidForState + reason)])
  }

  const UnknownEntry: Value :=
    Object(map["type" := Text("unknown"), "message" := Text("Disconnected due to invalid message")])

  const NameTakenEntry: Value := Object(map["type" := Text("name_taken")])

  const LostEntry: Value :=
    Object(map["type" := Text("error"),
               "message" := Text("Connection lost and could not reconnect. Please restart the game.")])

  function ConnectMessage(name: Value): Message
  {
    map["name" := name, "type" := Text("connect")]
  }

  function HeartbeatMessage(name: Value): Message
  {
    map["name" := name, "type" := Text("heartbeat")]
  }

  function DisconnectMessage(name: Value): Message
  {
    map["name" := name, "type" := Text("disconnect")]
  }

  function PlayCardMessage(card: Value, name: Value): Message
  {
    map["card" := card, "player_name" := name, "type" := Text("play_card")]
  }

  function DrawCardMessage(name: Value): Message
  {
    map["player_name" := name, "type" := Text("draw_card")]
  }

  /** send_message: without a socket and an address nothing happens; a
      refused message becomes one error entry in the queue; otherwise the
      message goes out to the server. Only the queue and the outbox change. */
  function SendStep(s: Session, m: Message): Session
  {
    var open := s.socket && s.address.Some?;
    var check := Validate(s.started, s.waiting, m);
    s.(queue := if open && !check.0 then s.queue + [ErrorEntry(check.1)] else s.queue,
       outbox := if open && check.0 then s.outbox + [Packet(s.address.value, m)] else s.outbox)
  }

  /** close: stop the loops, say goodbye on an open socket and drop it,
      empty the queue and clear the connection flags. The goodbye can only
      add to the outbox, since the validator accepts every disconnect. */
  function CloseStep(s: Session): Session
  {
    var goodbye := if s.socket then SendStep(s.(running := false), DisconnectMessage(s.name)).outbox else s.outbox;
    s.(running := false, socket := false, outbox := goodbye, queue := [], connected := false, waiting := false)
  }

  /** _handle_invalid_message: an `unknown` entry, then close. */
  function InvalidStep(s: Session): Session
  {
    CloseStep(s.(queue := s.queue + [UnknownEntry]))
  }

  /** One pass of the _send_heartbeat loop (the loop runs while `running`). */
  function HeartbeatStep(s: Session): Session
  {
    if s.running && s.connected then SendStep(s, HeartbeatMessage(s.name)) else s
  }

  /** What the receive loop's recvfrom and json.loads produced: a decoded
      value, a JSONDecodeError, or any other exception (a socket error, or
      bytes that are not UTF-8). */
  datatype Received = Datagram(data: Value) | Malformed | Failed

  /** What the reconnect attempt's own recvfrom produced: a decoded value,
      or an exception. */
  datatype Reply = Answer(data: Value) | NoAnswer

  /** The reply that makes a reconnect attempt succeed: an object whose type
      is connect_ack or game_state_update. Anything else raises inside the
      attempt or fails the test. */
  function Answered(reply: Reply): Option<Value>
  {
    if reply.Answer? && reply.data.Object? && "type" in reply.data.fields &&
       reply.data.fields["type"] in {Text("connect_ack"), Text("game_state_update")}
    then Some(reply.data)
    else None
  }

  /** The result of _handle_disconnect: the new state and the returned truth value. */
  datatype Outcome = Outcome(after: Session, ok: bool)

  /** The first part of a reconnect attempt: close, a new socket, a connect message. */
  function RetryStep(s: Session): Session
  {
    SendStep(CloseStep(s).(socket := true), ConnectMessage(s.name))
  }

  /** Giving up: the `error` entry and the connection flag cleared. */
  function GiveUpStep(s: Session): Session
  {
    s.(queue := s.queue + [LostEntry], connected := false)
  }

  /** The end of a reconnect attempt: a connect_ack or game_state_update
      reply restores the session; anything else counts one more attempt. */
  function AttemptStep(t: Session, reply: Reply): Outcome
  {
    match Answered(reply)
    case Some(m) => Outcome(t.(connected := true, attempts := 0, gameState := m, queue := t.queue + [m]), true)
    case None => Outcome(t.(attempts := t.attempts + 1), false)
  }

  /** _handle_disconnect. The retry loop makes at most one pass, because the
      close inside it clears `running`; the fall-through None is false. */
  function DisconnectStep(s: Session, reply: Reply): Outcome
  {
    if !s.running then Outcome(s, false)
    else if s.attempts >= MaxReconnectAttempts then Outcome(GiveUpStep(s), false)
    else
      var o := AttemptStep(RetryStep(s), reply);
      if o.ok then o
      else Outcome(if o.after.attempts >= MaxReconnectAttempts then GiveUpStep(o.after) else o.after, false)
  }

  /** The connect_ack branch: connected, waiting as the message says (not
      waiting by default), and the game starts from it unless waiting. */
  function AckStep(s: Session, m: Message): Session
  {
    var w := Truthy(Get(m, "waiting_for_player", Bool(false)));
    var acked := s.(connected := true, waiting := w);
    if !w then acked.(gameState := Object(m), started := true) else acked
  }

  /** The branch of the receive loop's if/elif chain that a message type selects. */
  datatype Branch =
    | AckBranch
    | UpdateBranch
    | NameTakenBranch
    | OpponentLeftBranch
    | OpponentBackBranch
    | GameOverBranch
    | ErrorBranch
    | OtherBranch

  function BranchOf(t: Value): Branch
  {
    if t == Text("connect_ack") then AckBranch
    else if t == Text("game_state_update") then UpdateBranch
    else if t == Text("name_taken") then NameTakenBranch
    else if t == Text("player_disconnected") then OpponentLeftBranch
    else if t == Text("player_reconnected") then OpponentBackBranch
    else if t == Text("game_over") then GameOverBranch
    else if t == Text("error") then ErrorBranch
    else OtherBranch
  }

  /** The if/elif chain that acts on an accepted message (already queued). */
  function ProcessStep(s: Session, m: Message): Session
  {
    match BranchOf(TypeOf(m))
    case AckBranch => AckStep(s, m)
    case UpdateBranch => s.(waiting := false, connected := true, gameState := Object(m), started := true)
    case NameTakenBranch => s.(connected := false, running := false, queue := s.queue + [NameTakenEntry])
    case _ => ProcessRestStep(s, m)
  }

  /** The rest of the chain: the opponent leaving and coming back, the end
      of the game, a server error, and any other type, which is invalid. */
  function ProcessRestStep(s: Session, m: Message): Session
  {
    match BranchOf(TypeOf(m))
    case OpponentLeftBranch => s.(waiting := true)
    case OpponentBackBranch => s.(waiting := false, gameState := Object(m))
    case GameOverBranch => s.(connected := false, running := false, started := false)
    case ErrorBranch => s
    case _ => InvalidStep(s)
  }

  /** The state after one pass of the receive loop, and whether the loop
      goes round again (it has not broken out and `running` still holds). */
  datatype Pass = Pass(after: Session, listening: bool)

  function Listen(s: Session): Pass
  {
    Pass(s, s.running)
  }

  /** One pass of _receive_messages (none at all when `running` is false). */
  function ReceiveStep(s: Session, r: Received, reply: Reply): Pass
  {
    if !s.running || !s.socket then Pass(s, false)
    else
      match r
      case Failed =>
        var o := DisconnectStep(s, reply);
        Pass(o.after, o.ok && o.after.running)
      case Malformed => Listen(InvalidStep(s))
      case Datagram(v) =>
        if !(v.Object? && "type" in v.fields) then Listen(InvalidStep(s))
        else if !Validate(s.started, s.waiting, v.fields).0 then Listen(InvalidStep(s))
        else Listen(ProcessStep(s.(queue := s.queue + [v]), v.fields))
  }

  /** get_next_message: the oldest entry, or None on an empty queue. */
  function NextStep(s: Session): (Session, Value)
  {
    if s.queue == [] then (s, Null) else (s.(queue := s.queue[1..]), s.queue[0])
  }

  /** The state part of connect (the port is already an integer). */
  function ConnectStep(s: Session, ip: string, port: int, name: string): Session
  {
    var cleaned := if s.socket then CloseStep(s) else s;
    SendStep(OpenStep(cleaned, ip, port, name), ConnectMessage(Text(name)))
  }

  /** The new socket, address and name of connect, with the loops running again. */
  function OpenStep(s: Session, ip: string, port: int, name: string): Session
  {
    s.(socket := true, address := Some(Address(ip, port)), name := Text(name),
       running := true, connected := false, waiting := false)
  }

  function PlayCardStep(s: Session, card: Value): Session
  {
    if s.waiting then s else SendStep(s, PlayCardMessage(card, s.name))
  }

  function DrawCardStep(s: Session): Session
  {
    if s.waiting then s else SendStep(s, DrawCardMessage(s.name))
  }

  /** close on a session value; the while loop empties the queue one entry at a time. */
  method CloseSession(s: Session) returns (t: Session)
    ensures t == CloseStep(s)
  {
    t := s.(running := false);
    if t.socket {
      t := SendStep(t, DisconnectMessage(t.name)).(socket := false);
    }
    while t.queue != []
      invariant t.(queue := [], connected := false, waiting := false) == CloseStep(s)
      decreases |t.queue|
    {
      t := t.(queue := t.queue[1..]);
    }
    t := t.(connected := false, waiting := false);
  }

  /** The first part of a reconnect attempt on a session value. */
  method RetrySession(s: Session) returns (t: Session)
    ensures t == RetryStep(s)
  {
    var closed := CloseSession(s);
    t := SendStep(closed.(socket := true), ConnectMessage(s.name));
  }

  lemma RetryStops(s: Session)
    ensures !RetryStep(s).running && RetryStep(s).attempts == s.attempts
  {
  }

  /** The retry loop's invariant: before its one pass nothing has changed;
      after it, the pass has failed. */
  ghost predicate RetriedAt(s0: Session, s: Session, reply: Reply)
  {
    (s.running && s == s0) ||
    (!s.running && s0.attempts < MaxReconnectAttempts && AttemptStep(RetryStep(s0), reply) == Outcome(s, false))
  }

  /** _handle_disconnect on a session value, with the source's retry loop. */
  method DisconnectSession(s: Session, reply: Reply) returns (o: Outcome)
    ensures o == DisconnectStep(s, reply)
  {
    if !s.running {
      return Outcome(s, false);
    }
    var t := s;
    while t.attempts < MaxReconnectAttempts && t.running
      invariant RetriedAt(s, t, reply)
      decreases MaxReconnectAttempts - t.attempts
    {
      var sent := RetrySession(t);
      RetryStops(t);
      o := AttemptStep(sent, reply);
      if o.ok {
        return;
      }
      t := o.after;
    }
    if t.attempts >= MaxReconnectAttempts {
      t := GiveUpStep(t);
    }
    return Outcome(t, false);
  }

  class NetworkClient {
    var socket: bool
    var address: Option<Address>
    var name: Value
    var running: bool
    var connected: bool
    var waiting: bool
    var started: bool
    var gameState: Value
    var attempts: nat
    var queue: seq<Value>
    var outbox: seq<Packet>

    function Snapshot(): Session
      reads this
    {
      Session(socket, address, name, running, connected, waiting, started, gameState, attempts, queue, outbox)
    }

    constructor ()
      ensures Snapshot() == Initial
    {
      socket, address, name := false, None, Null;
      running, connected, waiting, started := false, false, false, false;
      gameState, attempts, queue, outbox := Null, 0, [], [];
    }

    method SendMessage(m: Message)
      modifies this
      ensures Snapshot() == SendStep(old(Snapshot()), m)
    {
      if socket && address.Some? {
        var check := Validate(started, waiting, m);
        if !check.0 {
          queue := queue + [ErrorEntry(check.1)];
          return;
        }
        outbox := outbox + [Packet(address.value, m)];
      }
    }

    /** Stores a session value into the fields. */
    method Load(t: Session)
      modifies this
      ensures Snapshot() == t
    {
      socket, address, name := t.socket, t.address, t.name;
      running, connected, waiting, started := t.running, t.connected, t.waiting, t.started;
      gameState, attempts, queue, outbox := t.gameState, t.attempts, t.queue, t.outbox;
    }

    method Close()
      modifies this
      ensures Snapshot() == CloseStep(old(Snapshot()))
    {
      var t := CloseSession(Snapshot());
      Load(t);
    }

    method HandleInvalidMessage(reason: string)
      modifies this
      ensures Snapshot() == InvalidStep(old(Snapshot()))
    {
      queue := queue + [UnknownEntry];
      Close();
    }

    method SendHeartbeat()
      modifies this
      ensures Snapshot() == HeartbeatStep(old(Snapshot()))
    {
      if running && connected {
        SendMessage(HeartbeatMessage(name));
      }
    }

    method HandleDisconnect(reply: Reply) returns (ok: bool)
      modifies this
      ensures Outcome(Snapshot(), ok) == DisconnectStep(old(Snapshot()), reply)
    {
      var o := DisconnectSession(Snapshot(), reply);
      Load(o.after);
      ok := o.ok;
    }

    method Process(m: Message)
      modifies this
      ensures Snapshot() == ProcessStep(old(Snapshot()), m)
    {
      match BranchOf(TypeOf(m))
      case AckBranch =>
        Acknowledge(m);
      case UpdateBranch =>
        waiting, connected, gameState, started := false, true, Object(m), true;
      case NameTakenBranch =>
        connected, running := false, false;
        queue := queue + [NameTakenEntry];
      case _ =>
        ProcessRest(m);
    }

    method ProcessRest(m: Message)
      modifies this
      ensures Snapshot() == ProcessRestStep(old(Snapshot()), m)
    {
      match BranchOf(TypeOf(m))
      case OpponentLeftBranch =>
        waiting := true;
      case OpponentBackBranch =>
        waiting, gameState := false, Object(m);
      case GameOverBranch =>
        connected, running, started := false, false, false;
      case ErrorBranch =>
      case _ =>
        HandleInvalidMessage(if "message" in m && m["message"].Text? then m["message"].s else "Server error");
    }

    method Acknowledge(m: Message)
      modifies this
      ensures Snapshot() == AckStep(old(Snapshot()), m)
    {
      connected := true;
      waiting := Truthy(Get(m, "waiting_for_player", Bool(false)));
      if !waiting {
        gameState, started := Object(m), true;
      }
    }

    method ReceiveMessage(r: Received, reply: Reply) returns (listening: bool)
      modifies this
      ensures Pass(Snapshot(), listening) == ReceiveStep(old(Snapshot()), r, reply)
    {
      if !running || !socket {
        return false;
      }
      match r
      case Failed =>
        var ok := HandleDisconnect(reply);
        listening := ok && running;
      case Malformed =>
        HandleInvalidMessage("Invalid JSON format");
        listening := running;
      case Datagram(v) =>
        if !(v.Object? && "type" in v.fields) {
          HandleInvalidMessage("Invalid message format");
          listening := running;
          return;
        }
        var check := Validate(started, waiting, v.fields);
        if !check.0 {
          HandleInvalidMessage(check.1);
          listening := running;
          return;
        }
        queue := queue + [v];
        Process(v.fields);
        listening := running;
    }

    method GetNextMessage() returns (v: Value)
      modifies this
      ensures (Snapshot(), v) == NextStep(old(Snapshot()))
    {
      if queue == [] {
        return Null;
      }
      v := queue[0];
      queue := queue[1..];
    }

    method Connect(ip: string, port: int, playerName: string)
      modifies this
      ensures Snapshot() == ConnectStep(old(Snapshot()), ip, port, playerName)
    {
      if socket {
        Close();
      }
      Open(ip, port, playerName);
      SendMessage(ConnectMessage(Text(playerName)));
    }

    method Open(ip: string, port: int, playerName: string)
      modifies this
      ensures Snapshot() == OpenStep(old(Snapshot()), ip, port, playerName)
    {
      socket, address, name := true, Some(Address(ip, port)), Text(playerName);
      running, connected, waiting := true, false, false;
    }

    method PlayCard(card: Value)
      modifies this
      ensures Snapshot() == PlayCardStep(old(Snapshot()), card)
    {
      if waiting {
        return;
      }
      SendMessage(PlayCardMessage(card, name));
    }

    method DrawCard()
      modifies this
      ensures Snapshot() == DrawCardStep(old(Snapshot()))
    {
      if waiting {
        return;
      }
      SendMessage(DrawCardMessage(name));
    }
  }
}
