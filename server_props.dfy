/**
 * What the server's handlers (game_server/server.cpp) promise, stated about
 * the transition functions of ServerRules: where find_or_create_lobby seats
 * a player, the connect decisions, the turn guard, the effect of an accepted
 * or refused move, the refill, and the disconnection sweep.
 */
module ServerProperties {
  import opened Wrappers
  import opened Cards
  import opened SimpleJson
  import opened ServerDeck
  import opened ServerLobby
  import opened ServerRules

  // ---------------------------------------------------------------------
  // Searches over hands and decks
  // ---------------------------------------------------------------------

  /** The find_if over the hand finds the first card with the given text,
      and nothing exactly when no card has it. */
  lemma {:induction false} FindCardSpec(hand: seq<Card>, text: string)
    ensures match FindCard(hand, text)
      case None => forall k :: 0 <= k < |hand| ==> ToString(hand[k]) != text
      case Some(i) => ToString(hand[i]) == text && forall k :: 0 <= k < i ==> ToString(hand[k]) != text
  {
    if hand != [] {
      FindCardSpec(hand[1..], text);
    }
  }

  /** The seven's loop draws min(n, |deck|) cards off the back of the deck
      onto the hand, in drawing order, and loses or invents no card. */
  lemma DrawUpToSpec(deck: seq<Card>, hand: seq<Card>, n: nat)
    ensures var m := if n <= |deck| then n else |deck|;
      var r := DrawUpTo(deck, hand, n);
      && r.deck == deck[..|deck| - m]
      && r.hand == hand + TopCards(deck, m)
      && multiset(r.deck) + multiset(r.hand) == multiset(deck) + multiset(hand)
  {
    var m := if n <= |deck| then n else |deck|;
    DrawUpToTakes(deck, hand, n);
    TopCardsSplit(deck, m);
  }

  lemma {:induction false} DrawUpToTakes(deck: seq<Card>, hand: seq<Card>, n: nat)
    ensures var m := if n <= |deck| then n else |deck|;
      DrawUpTo(deck, hand, n) == Drawn(deck[..|deck| - m], hand + TopCards(deck, m))
    decreases n
  {
    if n == 0 || deck == [] {
      assert deck[..|deck|] == deck;
    } else {
      var m := if n <= |deck| then n else |deck|;
      var rest := deck[..|deck| - 1];
      var top := deck[|deck| - 1];
      DrawUpToTakes(rest, hand + [top], n - 1);
      assert rest[..|rest| - (m - 1)] == deck[..|deck| - m];
      assert TopCards(deck, m) == [top] + TopCards(rest, m - 1);
      assert hand + [top] + TopCards(rest, m - 1) == hand + ([top] + TopCards(rest, m - 1));
    }
  }

  /** The refill happens only from an empty deck and leaves the top discard
      alone on the pile, the others shuffled into the deck; it fails
      exactly when the deck is empty and there is at most one discard. */
  lemma RefillSpec(l: Lobby, rolls: seq<nat>)
    ensures Refill(l, rolls).None? <==> l.deck == [] && |l.discardPile| <= 1
    ensures l.deck != [] ==> Refill(l, rolls) == Some(l)
    ensures l.deck == [] && |l.discardPile| > 1 ==>
      var r := Refill(l, rolls).value;
      && r.discardPile == [l.discardPile[|l.discardPile| - 1]]
      && |r.deck| == |l.discardPile| - 1
      && multiset(r.deck) + multiset(r.discardPile) == multiset(l.discardPile)
      && r == l.(deck := r.deck, discardPile := r.discardPile)
  {
    if l.deck == [] && |l.discardPile| > 1 {
      var below := l.discardPile[..|l.discardPile| - 1];
      ShufflePermutes(below, rolls);
      assert l.discardPile == below + [l.discardPile[|l.discardPile| - 1]];
    }
  }

  // ---------------------------------------------------------------------
  // find_or_create_lobby
  // ---------------------------------------------------------------------

  /** With every lobby full, find_or_create_lobby appends one new lobby
      seating only the player, and changes nothing else. */
  lemma JoinAppends(lobbies: seq<Lobby>, players: map<string, Player>, name: string, built: seq<Card>)
    requires |built| == DeckSize && name in players
    requires forall i :: 0 <= i < |lobbies| ==> SeatsKnown(lobbies[i], players)
    requires forall k :: 0 <= k < |lobbies| ==> IsFull(lobbies[k])
    ensures var r := JoinLobby(lobbies, players, name, built);
      && r.lobbies == lobbies + [NewLobby(name, built)] && r.index == |lobbies| && r.players == players
      && r.lobbies[r.index].player1 == Some(name) && r.lobbies[r.index].player2 == None
  {
    FirstOpenSpec(lobbies);
  }

  /** Otherwise the player takes seat 2 of the first lobby that is not
      full (seat 1 is always taken), no other lobby changes, and the number
      of lobbies stays. */
  lemma JoinSeats(lobbies: seq<Lobby>, players: map<string, Player>, name: string, built: seq<Card>, i: nat)
    requires |built| == DeckSize && name in players
    requires forall i :: 0 <= i < |lobbies| ==> SeatsKnown(lobbies[i], players)
    requires i < |lobbies| && !IsFull(lobbies[i]) && forall k :: 0 <= k < i ==> IsFull(lobbies[k])
    ensures var r := JoinLobby(lobbies, players, name, built);
      && r.index == i && |r.lobbies| == |lobbies|
      && (forall k :: 0 <= k < |lobbies| && k != i ==> r.lobbies[k] == lobbies[k])
      && r.lobbies[i].player1 == lobbies[i].player1 && r.lobbies[i].player2 == Some(name)
  {
    var d := JoinUnfold(lobbies, players, name, built, i);
    DealKeepsSeats(TakeSeat(lobbies[i], name), players[lobbies[i].player1.value], players[name], built);
  }

  /** On joining a lobby, the players keep everything but their hands, and
      only the two seated players' hands change. */
  lemma JoinKeepsPlayers(lobbies: seq<Lobby>, players: map<string, Player>, name: string, built: seq<Card>, i: nat)
    requires |built| == DeckSize && name in players
    requires forall i :: 0 <= i < |lobbies| ==> SeatsKnown(lobbies[i], players)
    requires i < |lobbies| && !IsFull(lobbies[i]) && forall k :: 0 <= k < i ==> IsFull(lobbies[k])
    ensures var r := JoinLobby(lobbies, players, name, built);
      && r.players.Keys == players.Keys
      && (forall n :: n in players ==> r.players[n] == players[n].(hand := r.players[n].hand))
      && (forall n :: n in players && n != name && Some(n) != lobbies[i].player1 ==> r.players[n] == players[n])
  {
    var d := JoinUnfold(lobbies, players, name, built, i);
    var n1 := lobbies[i].player1.value;
    NewHands(players, n1, name, d.1, d.2);
  }

  /** New hands for `a` and then `b` change nothing else. */
  lemma NewHands(players: map<string, Player>, a: string, b: string, ha: seq<Card>, hb: seq<Card>)
    requires a in players && b in players
    ensures var ps := players[a := players[a].(hand := ha)][b := players[b].(hand := hb)];
      && ps.Keys == players.Keys
      && (forall n :: n in players ==> ps[n] == players[n].(hand := ps[n].hand))
      && (forall n :: n in players && n != a && n != b ==> ps[n] == players[n])
  {
  }

  /** A player seated nowhere is, after find_or_create_lobby, seated in
      the lobby it reports, which find_player_lobby then finds; at most one
      lobby is added, and that lobby is full exactly when an open lobby
      was there to join. */
  lemma JoinFinds(lobbies: seq<Lobby>, players: map<string, Player>, name: string, built: seq<Card>)
    requires |built| == DeckSize && name in players
    requires forall i :: 0 <= i < |lobbies| ==> SeatsKnown(lobbies[i], players)
    requires forall k :: 0 <= k < |lobbies| ==> !Seated(lobbies[k], name)
    ensures var r := JoinLobby(lobbies, players, name, built);
      && LobbyOf(r.lobbies, name) == Some(r.index)
      && |lobbies| <= |r.lobbies| <= |lobbies| + 1
      && (IsFull(r.lobbies[r.index]) <==> FirstOpen(lobbies).Some?)
  {
    FirstOpenSpec(lobbies);
    match FirstOpen(lobbies)
    case None => JoinFindsNew(lobbies, players, name, built);
    case Some(i) => JoinFindsOpen(lobbies, players, name, built, i);
  }

  /** The appended lobby is the first seating the player. */
  lemma JoinFindsNew(lobbies: seq<Lobby>, players: map<string, Player>, name: string, built: seq<Card>)
    requires |built| == DeckSize && name in players
    requires forall i :: 0 <= i < |lobbies| ==> SeatsKnown(lobbies[i], players)
    requires forall k :: 0 <= k < |lobbies| ==> !Seated(lobbies[k], name)
    requires forall k :: 0 <= k < |lobbies| ==> IsFull(lobbies[k])
    ensures var r := JoinLobby(lobbies, players, name, built);
      LobbyOf(r.lobbies, name) == Some(r.index) && |r.lobbies| == |lobbies| + 1 && !IsFull(r.lobbies[r.index])
  {
    JoinAppends(lobbies, players, name, built);
    var r := JoinLobby(lobbies, players, name, built);
    LobbyOfSpec(r.lobbies, name);
    assert forall k :: 0 <= k < |lobbies| ==> r.lobbies[k] == lobbies[k];
  }

  /** The filled lobby is the first seating the player. */
  lemma JoinFindsOpen(lobbies: seq<Lobby>, players: map<string, Player>, name: string, built: seq<Card>, i: nat)
    requires |built| == DeckSize && name in players
    requires forall i :: 0 <= i < |lobbies| ==> SeatsKnown(lobbies[i], players)
    requires forall k :: 0 <= k < |lobbies| ==> !Seated(lobbies[k], name)
    requires i < |lobbies| && !IsFull(lobbies[i]) && forall k :: 0 <= k < i ==> IsFull(lobbies[k])
    ensures var r := JoinLobby(lobbies, players, name, built);
      LobbyOf(r.lobbies, name) == Some(r.index) && |r.lobbies| == |lobbies| && IsFull(r.lobbies[r.index])
  {
    JoinSeats(lobbies, players, name, built, i);
    var r := JoinLobby(lobbies, players, name, built);
    assert Seated(r.lobbies[i], name);
    assert forall k :: 0 <= k < i ==> r.lobbies[k] == lobbies[k];
    LobbyOfAt(r.lobbies, name, i);
  }

  /** find_player_lobby finds lobby `i` when it is the first seating the
      name. */
  lemma {:induction false} LobbyOfAt(lobbies: seq<Lobby>, name: string, i: nat)
    requires i < |lobbies| && Seated(lobbies[i], name)
    requires forall k :: 0 <= k < i ==> !Seated(lobbies[k], name)
    ensures LobbyOf(lobbies, name) == Some(i)
  {
    if i > 0 {
      LobbyOfAt(lobbies[1..], name, i - 1);
    }
  }

  /** Joining the first open lobby `i` deals it. */
  lemma JoinUnfold(lobbies: seq<Lobby>, players: map<string, Player>, name: string, built: seq<Card>, i: nat)
      returns (d: (Lobby, seq<Card>, seq<Card>))
    requires |built| == DeckSize && name in players
    requires forall i :: 0 <= i < |lobbies| ==> SeatsKnown(lobbies[i], players)
    requires i < |lobbies| && !IsFull(lobbies[i]) && forall k :: 0 <= k < i ==> IsFull(lobbies[k])
    ensures lobbies[i].player1.Some? && lobbies[i].player1.value in players
    ensures var n1 := lobbies[i].player1.value;
      && d == DealHands(TakeSeat(lobbies[i], name), players[n1], players[name], built)
      && JoinLobby(lobbies, players, name, built)
         == Joined(lobbies[i := d.0], players[n1 := players[n1].(hand := d.1)][name := players[name].(hand := d.2)], i)
  {
    FirstOpenAt(lobbies, i);
    assert SeatsKnown(lobbies[i], players);
    var n1 := lobbies[i].player1.value;
    assert IsFull(TakeSeat(lobbies[i], name));
    d := DealHands(TakeSeat(lobbies[i], name), players[n1], players[name], built);
  }

  /** The search result is the index where the first open lobby is. */
  lemma {:induction false} FirstOpenAt(lobbies: seq<Lobby>, i: nat)
    requires i < |lobbies| && !IsFull(lobbies[i]) && forall k :: 0 <= k < i ==> IsFull(lobbies[k])
    ensures FirstOpen(lobbies) == Some(i)
  {
    if i > 0 {
      FirstOpenAt(lobbies[1..], i - 1);
    }
  }

  /** The lobby the player fills is dealt: seat 1 gets the four cards off
      the back of the new deck, the joiner the next four, the discard pile
      the next one, and 23 cards stay in the deck. */
  lemma JoinDeals(lobbies: seq<Lobby>, players: map<string, Player>, name: string, built: seq<Card>, i: nat)
    requires |built| == DeckSize && name in players
    requires forall i :: 0 <= i < |lobbies| ==> SeatsKnown(lobbies[i], players)
    requires i < |lobbies| && !IsFull(lobbies[i]) && forall k :: 0 <= k < i ==> IsFull(lobbies[k])
    requires lobbies[i].player1 != Some(name)
    ensures var r := JoinLobby(lobbies, players, name, built);
      var n1 := lobbies[i].player1.value;
      && r.index == i && i < |r.lobbies|
      && r.lobbies[i].deck == built[..23]
      && r.lobbies[i].discardPile == lobbies[i].discardPile + [built[23]]
      && n1 in r.players && r.players[n1].hand == players[n1].hand + TopCards(built, 4)
      && name in r.players && r.players[name].hand == players[name].hand + TopCards(built[..28], 4)
  {
    FirstOpenAt(lobbies, i);
    assert SeatsKnown(lobbies[i], players);
  }

  // ---------------------------------------------------------------------
  // The connect decision: the name checked and the name registered
  // ---------------------------------------------------------------------

  /** As written, a name that arrives still quoted passes the name-taken
      checks although its unquoted form, the name it is then registered
      under, already belongs to a connected player. */
  lemma ConnectAsWrittenReregisters()
    ensures var players := map["bob" := Player("bob", 1, 0, [], false)];
      && "bob" in players && !players["bob"].disconnected
      && ConnectChoiceAsWritten(players, "\"bob\"") == Register("bob")
  {
    var players := map["bob" := Player("bob", 1, 0, [], false)];
    assert "\"bob\"" !in players;
    assert RemoveQuotes("\"bob\"") == "bob";
  }

  /** The decision as corrected: a known disconnected name rejoins, a known
      connected one is refused, and only an unknown name is registered, so
      no registration replaces an existing player. The connect branch
      follows the decision: a refused name gets one name_taken reply and
      changes nothing else; a rejoining one goes to handle_reconnection. */
  lemma ConnectSpec(st: State, raw: string, addr: Address, now: int, rolls: seq<nat>)
    requires WellFormed(st)
    ensures var name := RemoveQuotes(raw);
      var r := Connect(st, raw, addr, now, rolls);
      match ConnectChoiceOf(st.players, raw)
      case Rejoin(n) => n == name && n in st.players && st.players[n].disconnected && r == Reconnect(st, n, addr, now)
      case Taken =>
        && name in st.players && !st.players[name].disconnected
        && r.lobbies == st.lobbies && r.players == st.players
        && |r.outbox| == |st.outbox| + 1 && r.outbox[..|st.outbox|] == st.outbox
        && r.outbox[|st.outbox|].to == addr
        && var m := r.outbox[|st.outbox|].msg;
           m.Keys == {"type", "message"} && RemoveQuotes(m["type"]) == "name_taken" && RemoveQuotes(m["message"]) == NameInUse
      case Register(n) => n == name && n !in st.players && r == RegisterPlayer(st, n, addr, now, rolls)
  {
    MessageFields("name_taken", "message", NameInUse);
  }

  /** Message builds an object with exactly the two fields, reading back
      as given. */
  lemma MessageFields(kind: string, key: string, text: string)
    requires key != "type"
    ensures var m := Message(kind, key, text);
      m.Keys == {"type", key} && RemoveQuotes(m["type"]) == kind && RemoveQuotes(m[key]) == text
  {
    WithStringReadsBack(map[], "type", kind);
    WithStringReadsBack(WithString(map[], "type", kind), key, text);
  }

  /** Registration seats the new player with find_or_create_lobby and
      sends the connect_ack, then the game state if the lobby is full. */
  lemma RegisterUnfold(st: State, name: string, addr: Address, now: int, built: seq<Card>)
      returns (ps: map<string, Player>, j: Joined)
    requires WellFormed(st) && name !in st.players && |built| == DeckSize
    ensures ps == st.players[name := Player(name, addr, now, [], false)]
    ensures forall i :: 0 <= i < |st.lobbies| ==> SeatsKnown(st.lobbies[i], ps) && !Seated(st.lobbies[i], name)
    ensures j == JoinLobby(st.lobbies, ps, name, built) && Shaped(j.lobbies[j.index], j.players)
    ensures var r := RegisterWith(st, name, addr, now, built);
      var l := j.lobbies[j.index];
      && r.lobbies == j.lobbies && r.players == j.players
      && r.outbox == st.outbox + [Outgoing(addr, ConnectAck(name, l, j.players))] + (if IsFull(l) then Broadcast(l, j.players) else [])
  {
    var p := Player(name, addr, now, [], false);
    ps := st.players[name := p];
    AddKeepsShape(st, p);
    JoinKeepsShape(st.(players := ps), name, built);
    j := JoinLobby(st.lobbies, ps, name, built);
    assert Shaped(j.lobbies[j.index], j.players);
  }

  /** Registering a new name adds exactly that player, connected, at the
      sender's address and seen now; the others keep all but their hands. */
  lemma RegisterAdds(st: State, name: string, addr: Address, now: int, built: seq<Card>)
    requires WellFormed(st) && name !in st.players && |built| == DeckSize
    ensures var r := RegisterWith(st, name, addr, now, built);
      && r.players.Keys == st.players.Keys + {name}
      && r.players[name] == Player(name, addr, now, r.players[name].hand, false)
      && (forall n :: n in st.players ==> r.players[n] == st.players[n].(hand := r.players[n].hand))
  {
    var p := Player(name, addr, now, [], false);
    var ps := st.players[name := p];
    AddKeepsShape(st, p);
    JoinKeepsShape(st.(players := ps), name, built);
    FirstOpenSpec(st.lobbies);
    match FirstOpen(st.lobbies)
    case None =>
      JoinAppends(st.lobbies, ps, name, built);
    case Some(i) =>
      JoinKeepsPlayers(st.lobbies, ps, name, built, i);
  }

  /** After registering, find_player_lobby finds the new player's lobby
      and the lobbies grow by at most one; that lobby is full exactly when
      an open lobby was there to join. */
  lemma RegisterSeats(st: State, name: string, addr: Address, now: int, built: seq<Card>)
    requires WellFormed(st) && name !in st.players && |built| == DeckSize
    ensures var r := RegisterWith(st, name, addr, now, built);
      && LobbyOf(r.lobbies, name).Some?
      && |st.lobbies| <= |r.lobbies| <= |st.lobbies| + 1
      && (IsFull(r.lobbies[LobbyOf(r.lobbies, name).value]) <==> FirstOpen(st.lobbies).Some?)
  {
    var ps, j := RegisterUnfold(st, name, addr, now, built);
    JoinFinds(st.lobbies, ps, name, built);
  }

  /** The first new send of a registration is the connect_ack to the
      sender; two more follow, the game state to both seats, exactly when
      the lobby is now full. */
  lemma RegisterSends(st: State, name: string, addr: Address, now: int, built: seq<Card>)
    requires WellFormed(st) && name !in st.players && |built| == DeckSize
    ensures var r := RegisterWith(st, name, addr, now, built);
      && |r.outbox| == |st.outbox| + (if FirstOpen(st.lobbies).Some? then 3 else 1)
      && r.outbox[..|st.outbox|] == st.outbox
      && r.outbox[|st.outbox|].to == addr
  {
    var ps, j := RegisterUnfold(st, name, addr, now, built);
    var l := j.lobbies[j.index];
    assert IsFull(l) <==> FirstOpen(st.lobbies).Some? by {
      JoinFinds(st.lobbies, ps, name, built);
    }
    var tail := if IsFull(l) then Broadcast(l, j.players) else [];
    assert |tail| == if IsFull(l) then 2 else 0;
    PrefixOfAppend(st.outbox, [Outgoing(addr, ConnectAck(name, l, j.players))], tail);
  }

  /** What was sent before stays at the front of a longer outbox. */
  lemma PrefixOfAppend(out: seq<Outgoing>, a: seq<Outgoing>, b: seq<Outgoing>)
    ensures |out + a + b| == |out| + |a| + |b| && (out + a + b)[..|out|] == out
    ensures a != [] ==> (out + a + b)[|out|] == a[0]
  {
    assert out + a + b == out + (a + b);
  }

  /** A player who has to wait for an opponent is acknowledged with
      exactly the type, their name and waiting_for_player set to true. */
  lemma RegisterWaits(st: State, name: string, addr: Address, now: int, built: seq<Card>)
    requires WellFormed(st) && name !in st.players && |built| == DeckSize
    requires FirstOpen(st.lobbies).None?
    ensures var r := RegisterWith(st, name, addr, now, built);
      |r.outbox| == |st.outbox| + 1
      && var m := r.outbox[|st.outbox|].msg;
         && m.Keys == {"type", "player_id", "waiting_for_player"}
         && RemoveQuotes(m["type"]) == "connect_ack" && RemoveQuotes(m["player_id"]) == name
         && m["waiting_for_player"] == "true"
  {
    var ps, j := RegisterUnfold(st, name, addr, now, built);
    FirstOpenSpec(st.lobbies);
    JoinAppends(st.lobbies, ps, name, built);
    var a0 := WithString(map[], "type", "connect_ack");
    WithStringReadsBack(map[], "type", "connect_ack");
    WithStringReadsBack(a0, "player_id", name);
    WithBoolReadsBack(WithString(a0, "player_id", name), "waiting_for_player", true);
  }

  /** The heartbeat of a known connected player records the time and the
      sender's address and changes nothing else; an unknown name changes
      nothing; a known disconnected player is seen now and then goes
      through handle_reconnection. */
  lemma HeartbeatSpec(st: State, name: string, addr: Address, now: int)
    requires WellFormed(st)
    ensures name !in st.players ==> Heartbeat(st, name, addr, now) == st
    ensures name in st.players && !st.players[name].disconnected ==>
      Heartbeat(st, name, addr, now) == st.(players := st.players[name := st.players[name].(lastSeen := now, address := addr)])
    ensures name in st.players && st.players[name].disconnected ==>
      var seen := st.(players := st.players[name := st.players[name].(lastSeen := now)]);
      WellFormed(seen) && Heartbeat(st, name, addr, now) == Reconnect(seen, name, addr, now)
  {
    if name in st.players && st.players[name].disconnected {
      FlagsKeepShape(st, st.players[name := st.players[name].(lastSeen := now)]);
    }
  }

  // ---------------------------------------------------------------------
  // handle_reconnection
  // ---------------------------------------------------------------------

  /** A disconnected player in a well-formed state sits in a full lobby. */
  lemma DisconnectedSitsFull(st: State, name: string, i: nat)
    requires WellFormed(st) && i < |st.lobbies| && Seated(st.lobbies[i], name)
    requires name in st.players && st.players[name].disconnected
    ensures IsFull(st.lobbies[i])
  {
    assert Shaped(st.lobbies[i], st.players);
  }

  /** handle_reconnection refuses an unknown or connected name with one
      error and nothing else, and ignores a disconnected name that sits in
      no lobby. */
  lemma ReconnectRefuses(st: State, name: string, addr: Address, now: int)
    requires WellFormed(st)
    ensures var r := Reconnect(st, name, addr, now);
      (name !in st.players || !st.players[name].disconnected) ==>
        && r.lobbies == st.lobbies && r.players == st.players
        && |r.outbox| == |st.outbox| + 1 && r.outbox[..|st.outbox|] == st.outbox
        && r.outbox[|st.outbox|].to == addr
        && var m := r.outbox[|st.outbox|].msg;
           RemoveQuotes(m["type"]) == "error" && RemoveQuotes(m["message"]) == InvalidReconnection
    ensures name in st.players && st.players[name].disconnected && LobbyOf(st.lobbies, name).None? ==>
      Reconnect(st, name, addr, now) == st
  {
    MessageFields("error", "message", InvalidReconnection);
  }

  /** handle_reconnection of a disconnected player seated in lobby `i`
      is the reconnection proper: that lobby is full. */
  lemma ReconnectRestores(st: State, name: string, addr: Address, now: int, i: nat)
    requires WellFormed(st)
    requires name in st.players && st.players[name].disconnected
    requires LobbyOf(st.lobbies, name) == Some(i)
    ensures IsFull(st.lobbies[i]) && Shaped(st.lobbies[i], st.players) && Seated(st.lobbies[i], name)
    ensures Reconnect(st, name, addr, now) == Restore(st, i, name, addr, now)
  {
    LobbyOfSpec(st.lobbies, name);
    DisconnectedSitsFull(st, name, i);
  }

  /** The reconnection proper changes the player only (connected, at the
      new address, seen now) and the pause flag of the lobby only (cleared
      exactly when the opponent is connected); it sends the lobby's new
      game state to the new address, and one notice more exactly when the
      opponent is connected. */
  lemma RestoreSpec(st: State, i: nat, name: string, addr: Address, now: int)
    requires i < |st.lobbies| && IsFull(st.lobbies[i]) && Shaped(st.lobbies[i], st.players)
    requires name in st.players && Seated(st.lobbies[i], name)
    ensures var r := Restore(st, i, name, addr, now);
      var l := st.lobbies[i];
      var o := OtherSeat(l, name).value;
      && o in st.players && o != name
      && r.players == st.players[name := st.players[name].(address := addr, disconnected := false, lastSeen := now)]
      && r.lobbies == st.lobbies[i := l.(paused := l.paused && st.players[o].disconnected)]
  {
  }

  /** What the reconnection proper sends: the lobby's new game state to the
      new address, then a notice to the opponent exactly when the opponent
      is connected. */
  lemma RestoreSends(st: State, i: nat, name: string, addr: Address, now: int)
    requires i < |st.lobbies| && IsFull(st.lobbies[i]) && Shaped(st.lobbies[i], st.players)
    requires name in st.players && Seated(st.lobbies[i], name)
    ensures var r := Restore(st, i, name, addr, now);
      var o := OtherSeat(st.lobbies[i], name).value;
      && o in st.players
      && |r.outbox| == |st.outbox| + (if st.players[o].disconnected then 1 else 2)
      && r.outbox[..|st.outbox|] == st.outbox
      && r.outbox[|st.outbox|].to == addr
  {
  }

  // ---------------------------------------------------------------------
  // The turn guard of play_card and draw_card
  // ---------------------------------------------------------------------

  /** play_card and draw_card leave a sender outside a full lobby alone,
      answer a sender whose turn it is not with one error and nothing
      else, and so change the lobbies or the players only for the player
      to move in a full lobby. */
  lemma TurnGuard(st: State, msg: JsonObject, kind: string, name: string, addr: Address, rolls: seq<nat>)
    requires WellFormed(st)
    ensures var r := TakeTurn(st, msg, kind, name, addr, rolls);
      match LobbyOf(st.lobbies, name)
      case None => r == Some(st)
      case Some(i) =>
        && (!IsFull(st.lobbies[i]) ==> r == Some(st))
        && (IsFull(st.lobbies[i]) && Current(st.lobbies[i].gameState) != name ==>
              r == Some(st.(outbox := st.outbox + [Outgoing(addr, ErrorMessage(NotYourTurn))])))
    ensures var r := TakeTurn(st, msg, kind, name, addr, rolls);
      r.Some? && (r.value.lobbies != st.lobbies || r.value.players != st.players) ==>
        && LobbyOf(st.lobbies, name).Some?
        && var i := LobbyOf(st.lobbies, name).value;
           IsFull(st.lobbies[i]) && Current(st.lobbies[i].gameState) == name && Seated(st.lobbies[i], name)
  {
    LobbyOfSpec(st.lobbies, name);
  }
}
