/**
 * The server invariant (ServerRules.Valid) holds of the empty server and
 * is kept by every datagram the receive loop handles and by every run of
 * check_disconnections: each record is filed under its own name, every
 * lobby is shaped and holds the 32 standard cards between its deck,
 * discard pile and the hands of its seats, the player to move sits in the
 * lobby, and no name sits in two lobbies.
 */
module ServerValid {
  import opened Wrappers
  import opened Cards
  import opened SimpleJson
  import opened ServerDeck
  import opened ServerLobby
  import opened ServerRules
  import opened ServerProperties
  import opened ServerMoves
  import opened ServerSweep

  /** Every record is filed under its own name. */
  predicate Filed(players: map<string, Player>)
  {
    forall n :: n in players ==> players[n].name == n
  }

  /** `q` keeps the record of everyone who has one in `p` and is not
      seated in `l`. */
  predicate KeepsOthers(l: Lobby, p: map<string, Player>, q: map<string, Player>)
  {
    forall n :: n in p && !Seated(l, n) ==> n in q && q[n] == p[n]
  }

  /** A change to the records of lobby `i`'s players only leaves every
      other lobby sound. */
  lemma OthersStayOk(lobbies: seq<Lobby>, p: map<string, Player>, q: map<string, Player>, i: nat)
    requires i < |lobbies|
    requires forall j :: 0 <= j < |lobbies| && j != i ==> LobbyOk(lobbies[j], p)
    requires SeatsDisjoint(lobbies)
    requires KeepsOthers(lobbies[i], p, q)
    ensures forall j :: 0 <= j < |lobbies| && j != i ==> LobbyOk(lobbies[j], q)
  {
    forall j | 0 <= j < |lobbies| && j != i ensures LobbyOk(lobbies[j], q) {
      assert LobbyOk(lobbies[j], p);
      assert Apart(lobbies[j], lobbies[i]);
      assert Agrees(lobbies[j], p, q);
      AgreesKeepsLobby(lobbies[j], p, q, 0);
    }
  }

  /** Lobby `i` replaced by a sound lobby with the same seats, and records
      changed only for its players, keep the invariant. */
  lemma ReplaceValid(st: State, i: nat, l: Lobby, players: map<string, Player>, out: seq<Outgoing>)
    requires Valid(st) && i < |st.lobbies|
    requires l.player1 == st.lobbies[i].player1 && l.player2 == st.lobbies[i].player2
    requires LobbyOk(l, players) && Filed(players)
    requires KeepsOthers(st.lobbies[i], st.players, players)
    ensures Valid(State(st.lobbies[i := l], players, out))
  {
    OthersStayOk(st.lobbies, st.players, players, i);
    var ls := st.lobbies[i := l];
    forall a, b | 0 <= a < |ls| && 0 <= b < |ls| && a != b ensures Apart(ls[a], ls[b]) {
      assert Apart(st.lobbies[a], st.lobbies[b]);
    }
  }

  /** Changing only addresses and clocks keeps the invariant. */
  lemma ClocksKeepValid(st: State, players: map<string, Player>)
    requires Valid(st)
    requires players.Keys == st.players.Keys
    requires forall n :: n in players ==>
      players[n] == st.players[n].(address := players[n].address, lastSeen := players[n].lastSeen)
    ensures Valid(st.(players := players))
  {
    forall i | 0 <= i < |st.lobbies| ensures LobbyOk(st.lobbies[i], players) {
      var l := st.lobbies[i];
      assert LobbyOk(l, st.players);
      assert HandOf(players, l.player1) == HandOf(st.players, l.player1);
      assert HandOf(players, l.player2) == HandOf(st.players, l.player2);
    }
  }

  // ---------------------------------------------------------------------
  // handle_reconnection and heartbeat
  // ---------------------------------------------------------------------

  /** A seated player marked connected at a new address and clock, with
      the lobby's pause flag set to anything, keeps the invariant. */
  lemma RejoinValid(st: State, i: nat, name: string, addr: Address, now: int, paused: bool, out: seq<Outgoing>)
    requires Valid(st) && i < |st.lobbies|
    requires name in st.players && Seated(st.lobbies[i], name) && IsFull(st.lobbies[i])
    ensures var ps := st.players[name := st.players[name].(address := addr, disconnected := false, lastSeen := now)];
      Valid(State(st.lobbies[i := st.lobbies[i].(paused := paused)], ps, out))
  {
    var l := st.lobbies[i];
    var ps := st.players[name := st.players[name].(address := addr, disconnected := false, lastSeen := now)];
    assert LobbyOk(l, st.players);
    assert HandOf(ps, l.player1) == HandOf(st.players, l.player1);
    assert HandOf(ps, l.player2) == HandOf(st.players, l.player2);
    ReplaceValid(st, i, l.(paused := paused), ps, out);
  }

  /** The reconnection proper keeps the invariant. */
  lemma RestoreValid(st: State, i: nat, name: string, addr: Address, now: int)
    requires Valid(st) && i < |st.lobbies| && IsFull(st.lobbies[i])
    requires name in st.players && Seated(st.lobbies[i], name)
    ensures Valid(Restore(st, i, name, addr, now))
  {
    var l := st.lobbies[i];
    RestoreSpec(st, i, name, addr, now);
    var r := Restore(st, i, name, addr, now);
    var o := OtherSeat(l, name).value;
    RejoinValid(st, i, name, addr, now, l.paused && st.players[o].disconnected, r.outbox);
  }

  /** handle_reconnection keeps the invariant. */
  lemma ReconnectValid(st: State, name: string, addr: Address, now: int)
    requires Valid(st)
    ensures Valid(Reconnect(st, name, addr, now))
  {
    ValidFormed(st);
    ReconnectRefuses(st, name, addr, now);
    if name in st.players && st.players[name].disconnected {
      match LobbyOf(st.lobbies, name)
      case None =>
      case Some(i) =>
        ReconnectRestores(st, name, addr, now, i);
        RestoreValid(st, i, name, addr, now);
    }
  }

  /** The heartbeat branch keeps the invariant. */
  lemma HeartbeatValid(st: State, name: string, addr: Address, now: int)
    requires Valid(st)
    ensures Valid(Heartbeat(st, name, addr, now))
  {
    if name in st.players {
      var p := st.players[name].(lastSeen := now);
      if p.disconnected {
        var players := st.players[name := p];
        ClocksKeepValid(st, players);
        ReconnectValid(st.(players := players), name, addr, now);
      } else {
        ClocksKeepValid(st, st.players[name := p.(address := addr)]);
      }
    }
  }

  // ---------------------------------------------------------------------
  // connect: registration and find_or_create_lobby
  // ---------------------------------------------------------------------

  /** A new record under an unknown name keeps the invariant, and the name
      sits nowhere. */
  lemma AddValid(st: State, p: Player)
    requires Valid(st) && p.name !in st.players
    ensures Valid(st.(players := st.players[p.name := p]))
    ensures forall i :: 0 <= i < |st.lobbies| ==> !Seated(st.lobbies[i], p.name)
  {
    var ps := st.players[p.name := p];
    forall i | 0 <= i < |st.lobbies| ensures LobbyOk(st.lobbies[i], ps) && !Seated(st.lobbies[i], p.name) {
      var l := st.lobbies[i];
      assert LobbyOk(l, st.players);
      assert HandOf(ps, l.player1) == HandOf(st.players, l.player1);
      assert HandOf(ps, l.player2) == HandOf(st.players, l.player2);
    }
  }

  /** initialize_game on a lobby with nothing dealt yet, from a deck of the
      32 standard cards, leaves exactly those cards on the table and
      player 1 to move. */
  lemma DealtLobby(l: Lobby, p1: Player, p2: Player, built: seq<Card>)
    requires |built| == DeckSize && multiset(built) == multiset(SuitMajorDeck())
    requires l.discardPile == [] && p1.hand == [] && p2.hand == []
    ensures var (l', h1, h2) := DealHands(l, p1, p2, built);
      && l'.player1 == l.player1 && l'.player2 == l.player2 && l'.discardPile != []
      && TableCards(l'.deck, l'.discardPile, h1, h2) == multiset(SuitMajorDeck())
      && Current(l'.gameState) == p1.name
  {
    var t := DealCards(built, l.discardPile, p1.hand, p2.hand);
    DealCardsConserves(built, l.discardPile, p1.hand, p2.hand);
    DealtStateFields(l.gameState, p1.name, p2.name, HandsObject(p1.name, t.hand1, p2.name, t.hand2), |t.deck|, t.discard);
  }

  /** What find_or_create_lobby needs to keep the invariant: a connected
      player with no cards who sits nowhere yet, and a deck of the 32
      standard cards. */
  predicate Joinable(st: State, name: string, built: seq<Card>)
  {
    && |built| == DeckSize && multiset(built) == multiset(SuitMajorDeck())
    && name in st.players && !st.players[name].disconnected && st.players[name].hand == []
    && forall i :: 0 <= i < |st.lobbies| ==> !Seated(st.lobbies[i], name)
  }

  /** With every lobby full, the new lobby holds the new deck and keeps the
      invariant. */
  lemma JoinNewValid(st: State, name: string, built: seq<Card>, out: seq<Outgoing>)
    requires Valid(st) && Joinable(st, name, built)
    requires forall k :: 0 <= k < |st.lobbies| ==> IsFull(st.lobbies[k])
    ensures var j := JoinLobby(st.lobbies, st.players, name, built);
      Valid(State(j.lobbies, j.players, out))
  {
    JoinKeepsShape(st, name, built);
    JoinAppends(st.lobbies, st.players, name, built);
    var nl := NewLobby(name, built);
    assert LobbyOk(nl, st.players);
    var ls := st.lobbies + [nl];
    forall k | 0 <= k < |ls| ensures LobbyOk(ls[k], st.players) {
      if k < |st.lobbies| {
        assert ls[k] == st.lobbies[k];
      }
    }
  }

  /** Lobby `i`, open, replaced by a dealt lobby seating `name` too, with
      the two players' new hands, keeps the invariant. */
  lemma SeatDealtValid(st: State, name: string, i: nat, l: Lobby, h1: seq<Card>, h2: seq<Card>, out: seq<Outgoing>)
    requires Valid(st) && name in st.players && i < |st.lobbies| && !IsFull(st.lobbies[i])
    requires forall k :: 0 <= k < |st.lobbies| ==> !Seated(st.lobbies[k], name)
    requires l.player1 == st.lobbies[i].player1 && l.player2 == Some(name) && l.discardPile != []
    requires TableCards(l.deck, l.discardPile, h1, h2) == multiset(SuitMajorDeck())
    requires Current(l.gameState) == st.lobbies[i].player1.value
    ensures var n1 := st.lobbies[i].player1.value;
      Valid(State(st.lobbies[i := l], st.players[n1 := st.players[n1].(hand := h1)][name := st.players[name].(hand := h2)], out))
  {
    var l0 := st.lobbies[i];
    assert LobbyOk(l0, st.players);
    var n1 := l0.player1.value;
    var ps := st.players[n1 := st.players[n1].(hand := h1)][name := st.players[name].(hand := h2)];
    assert Formed(st.lobbies[i := l], ps) by {
      SeatSecondShape(st.lobbies, st.players, i, name, l, h1, h2);
    }
    assert LobbyOk(l, ps) by {
      assert HandOf(ps, l.player1) == h1;
      assert HandOf(ps, l.player2) == h2;
    }
    assert KeepsOthers(l, st.players, ps);
    OthersStayOk(st.lobbies[i := l], st.players, ps, i);
  }

  /** Filling the first open lobby deals it and keeps the invariant. */
  lemma JoinOpenValid(st: State, name: string, built: seq<Card>, out: seq<Outgoing>, i: nat)
    requires Valid(st) && Joinable(st, name, built)
    requires i < |st.lobbies| && !IsFull(st.lobbies[i]) && forall k :: 0 <= k < i ==> IsFull(st.lobbies[k])
    ensures var j := JoinLobby(st.lobbies, st.players, name, built);
      Valid(State(j.lobbies, j.players, out))
  {
    var l0 := st.lobbies[i];
    assert LobbyOk(l0, st.players);
    var d := JoinUnfold(st.lobbies, st.players, name, built, i);
    var n1 := l0.player1.value;
    DealtLobby(TakeSeat(l0, name), st.players[n1], st.players[name], built);
    SeatDealtValid(st, name, i, d.0, d.1, d.2, out);
  }

  /** find_or_create_lobby keeps the invariant. */
  lemma JoinValid(st: State, name: string, built: seq<Card>, out: seq<Outgoing>)
    requires Valid(st) && Joinable(st, name, built)
    ensures var j := JoinLobby(st.lobbies, st.players, name, built);
      Valid(State(j.lobbies, j.players, out))
  {
    FirstOpenSpec(st.lobbies);
    match FirstOpen(st.lobbies)
    case None => JoinNewValid(st, name, built, out);
    case Some(i) => JoinOpenValid(st, name, built, out, i);
  }

  /** Registering a new name keeps the invariant. */
  lemma RegisterValid(st: State, name: string, addr: Address, now: int, rolls: seq<nat>)
    requires Valid(st) && name !in st.players
    ensures Valid(RegisterPlayer(st, name, addr, now, rolls))
  {
    var p := Player(name, addr, now, [], false);
    var st1 := st.(players := st.players[name := p]);
    AddValid(st, p);
    NewDeckIsComplete(rolls);
    JoinValid(st1, name, NewDeck(rolls), RegisterPlayer(st, name, addr, now, rolls).outbox);
  }

  /** The connect branch keeps the invariant. */
  lemma ConnectValid(st: State, raw: string, addr: Address, now: int, rolls: seq<nat>)
    requires Valid(st)
    ensures Valid(Connect(st, raw, addr, now, rolls))
  {
    match ConnectChoiceOf(st.players, raw)
    case Rejoin(name) => ReconnectValid(st, name, addr, now);
    case Taken =>
    case Register(name) => RegisterValid(st, name, addr, now, rolls);
  }

  // ---------------------------------------------------------------------
  // play_card and draw_card
  // ---------------------------------------------------------------------

  /** The win keeps the invariant: the other lobbies and their players
      stay as they were. */
  lemma WinValid(st: State, i: nat, winner: string)
    requires Valid(st) && i < |st.lobbies| && IsFull(st.lobbies[i])
    ensures Valid(Win(st, i, winner))
  {
    var l := st.lobbies[i];
    assert LobbyOk(l, st.players);
    var q := st.players - {l.player1.value, l.player2.value};
    assert KeepsOthers(l, st.players, q);
    OthersStayOk(st.lobbies, st.players, q, i);
    WithoutOk(st.lobbies, q, i);
    WithoutIndex(st.lobbies, i);
  }

  /** Lobby `i` with a new table and game state that hold the 32 standard
      cards between them and the two players' new hands, and record one of
      its players to move, keeps the invariant. */
  lemma RetableValid(st: State, i: nat, l: Lobby, h1: seq<Card>, h2: seq<Card>, out: seq<Outgoing>)
    requires Valid(st) && i < |st.lobbies| && IsFull(st.lobbies[i])
    requires l.player1 == st.lobbies[i].player1 && l.player2 == st.lobbies[i].player2 && l.discardPile != []
    requires TableCards(l.deck, l.discardPile, h1, h2) == multiset(SuitMajorDeck())
    requires Seated(l, Current(l.gameState))
    ensures var n1 := l.player1.value;
      var n2 := l.player2.value;
      Valid(State(st.lobbies[i := l], st.players[n1 := st.players[n1].(hand := h1)][n2 := st.players[n2].(hand := h2)], out))
  {
    assert LobbyOk(st.lobbies[i], st.players);
    var n1 := l.player1.value;
    var n2 := l.player2.value;
    var ps := st.players[n1 := st.players[n1].(hand := h1)][n2 := st.players[n2].(hand := h2)];
    assert HandOf(ps, l.player1) == h1;
    assert HandOf(ps, l.player2) == h2;
    assert LobbyOk(l, ps);
    ReplaceValid(st, i, l, ps, out);
  }

  /** A move that does not win keeps the invariant when it conserves the
      cards and keeps the mover recorded as current. */
  lemma AdvanceValid(st: State, i: nat, p: Played, kind: string, name: string)
    requires Valid(st) && i < |st.lobbies| && IsFull(st.lobbies[i])
    requires p.lobby.player1 == st.lobbies[i].player1 && p.lobby.player2 == st.lobbies[i].player2
    requires p.lobby.discardPile != []
    requires Seated(st.lobbies[i], name) && Current(st.lobbies[i].gameState) == name
    requires Current(p.lobby.gameState) == name
    requires TableCards(p.lobby.deck, p.lobby.discardPile, p.hand1, p.hand2) == multiset(SuitMajorDeck())
    ensures Valid(Advance(st, i, p, kind))
  {
    var l := st.lobbies[i];
    assert LobbyOk(l, st.players);
    var r := Advance(st, i, p, kind);
    AdvanceTurn(st, i, p, kind, name);
    RetableValid(st, i, r.lobbies[i], p.hand1, p.hand2, r.outbox);
  }

  /** The order of the last two summands does not matter. */
  lemma SwapLast(a: multiset<Card>, b: multiset<Card>, c: multiset<Card>, d: multiset<Card>)
    ensures a + b + c + d == a + b + d + c
  {
  }

  /** A play loses or invents no card of the lobby. */
  lemma PlayOnConserves(l: Lobby, n1: string, n2: string, h1: seq<Card>, h2: seq<Card>, first: bool, k: nat, name: string)
    requires k < |if first then h1 else h2|
    ensures var p := PlayOn(l, n1, n2, h1, h2, first, k, name);
      TableCards(p.lobby.deck, p.lobby.discardPile, p.hand1, p.hand2) == TableCards(l.deck, l.discardPile, h1, h2)
  {
    var mine := if first then h1 else h2;
    var theirs := if first then h2 else h1;
    var p := PlayOn(l, n1, n2, h1, h2, first, k, name);
    var mv := MoveCard(l.deck, l.discardPile, mine, theirs, k);
    assert p.lobby.deck == mv.deck && p.lobby.discardPile == mv.discard
      && (if first then p.hand1 else p.hand2) == mv.mine && (if first then p.hand2 else p.hand1) == mv.theirs by {
      PlayOnSpec(l, n1, n2, h1, h2, first, k, name);
    }
    assert multiset(mv.deck) + multiset(mv.discard) + multiset(mv.mine) + multiset(mv.theirs)
      == multiset(l.deck) + multiset(l.discardPile) + multiset(mine) + multiset(theirs) by {
      MoveCardConserves(l.deck, l.discardPile, mine, theirs, k);
    }
    if !first {
      SwapLast(multiset(mv.deck), multiset(mv.discard), multiset(mv.mine), multiset(mv.theirs));
      SwapLast(multiset(l.deck), multiset(l.discardPile), multiset(mine), multiset(theirs));
    }
  }

  /** An accepted play keeps the invariant. */
  lemma AcceptValid(st: State, i: nat, k: nat, name: string)
    requires Valid(st) && ToMove(st, i, name) && k < |st.players[name].hand|
    ensures Shaped(st.lobbies[i], st.players)
    ensures Valid(Accept(st, i, k, name))
  {
    var l := st.lobbies[i];
    assert LobbyOk(l, st.players);
    if |st.players[name].hand| == 1 {
      AcceptWins(st, i, k, name);
      WinValid(st, i, name);
    } else {
      var n1 := l.player1.value;
      var n2 := l.player2.value;
      AcceptAdvances(st, i, k, name);
      PlayOnConserves(l, n1, n2, st.players[n1].hand, st.players[n2].hand, name == n1, k, name);
      AdvanceValid(st, i, PlayOn(l, n1, n2, st.players[n1].hand, st.players[n2].hand, name == n1, k, name), "player_played_card", name);
    }
  }

  /** play_card, once the turn check has passed, keeps the invariant. */
  lemma PlayTurnValid(st: State, i: nat, text: string, name: string, addr: Address)
    requires Valid(st) && ToMove(st, i, name)
    ensures Valid(PlayTurn(st, i, text, name, addr))
  {
    var l := st.lobbies[i];
    assert LobbyOk(l, st.players);
    var hand := st.players[name].hand;
    FindCardSpec(hand, text);
    match FindCard(hand, text)
    case None =>
    case Some(k) =>
      if Matches(hand[k], l.discardPile[|l.discardPile| - 1]) {
        AcceptValid(st, i, k, name);
      }
  }

  /** A draw loses or invents no card of the lobby and keeps the current
      player. */
  lemma DrawConserves(l: Lobby, rolls: seq<nat>, h1: seq<Card>, h2: seq<Card>, first: bool, name: string)
    requires IsFull(l) && Refill(l, rolls).Some? && Refill(l, rolls).value.deck != []
    ensures var r := Refill(l, rolls).value;
      var p := DrawOn(r, l.player1.value, l.player2.value, h1, h2, first, name);
      && TableCards(p.lobby.deck, p.lobby.discardPile, p.hand1, p.hand2) == TableCards(l.deck, l.discardPile, h1, h2)
      && Current(p.lobby.gameState) == Current(l.gameState)
  {
    var r := Refill(l, rolls).value;
    var p := DrawOn(r, l.player1.value, l.player2.value, h1, h2, first, name);
    assert r.gameState == l.gameState
      && multiset(r.deck) + multiset(r.discardPile) == multiset(l.deck) + multiset(l.discardPile) by {
      RefillSpec(l, rolls);
    }
    assert p.lobby.discardPile == r.discardPile
      && multiset(p.lobby.deck) + multiset(p.hand1) + multiset(p.hand2) == multiset(r.deck) + multiset(h1) + multiset(h2) by {
      DrawOnSpec(r, l.player1.value, l.player2.value, h1, h2, first, name);
    }
    assert Current(p.lobby.gameState) == Current(r.gameState) by {
      RecordKeepsCurrent(r.gameState, l.player1.value, l.player2.value, p.hand1, p.hand2, p.lobby.deck, r.discardPile);
    }
    DrawSums(multiset(p.lobby.deck), multiset(r.discardPile), multiset(p.hand1), multiset(p.hand2),
             multiset(r.deck), multiset(l.deck), multiset(l.discardPile), multiset(h1), multiset(h2));
  }

  /** The sums behind DrawConserves: the draw moves a card between the
      deck and a hand, the refill between the discard pile and the deck. */
  lemma DrawSums(deck': multiset<Card>, discard': multiset<Card>, h1': multiset<Card>, h2': multiset<Card>,
                 refilled: multiset<Card>, deck: multiset<Card>, discard: multiset<Card>, h1: multiset<Card>, h2: multiset<Card>)
    requires deck' + h1' + h2' == refilled + h1 + h2
    requires refilled + discard' == deck + discard
    ensures deck' + discard' + h1' + h2' == deck + discard + h1 + h2
  {
    calc {
      deck' + discard' + h1' + h2';
      (deck' + h1' + h2') + discard';
      (refilled + h1 + h2) + discard';
      (refilled + discard') + h1 + h2;
    }
  }

  /** draw_card, once the turn check has passed, keeps the invariant. */
  lemma DrawTurnValid(st: State, i: nat, name: string, addr: Address, rolls: seq<nat>)
    requires Valid(st) && ToMove(st, i, name)
    ensures Valid(DrawTurn(st, i, name, addr, rolls))
  {
    var l := st.lobbies[i];
    if l.deck == [] && |l.discardPile| <= 1 {
      DrawRefused(st, i, name, addr, rolls);
    } else {
      DrawMadeValid(st, i, name, addr, rolls);
    }
  }

  /** A draw that is not refused keeps the invariant. */
  lemma DrawMadeValid(st: State, i: nat, name: string, addr: Address, rolls: seq<nat>)
    requires Valid(st) && ToMove(st, i, name)
    requires st.lobbies[i].deck != [] || |st.lobbies[i].discardPile| > 1
    ensures Valid(DrawTurn(st, i, name, addr, rolls))
  {
    var l := st.lobbies[i];
    var n1 := l.player1.value;
    var n2 := l.player2.value;
    assert TableCards(l.deck, l.discardPile, st.players[n1].hand, st.players[n2].hand) == multiset(SuitMajorDeck()) by {
      assert LobbyOk(l, st.players);
    }
    DrawRefills(st, i, name, addr, rolls);
    var r := Refill(l, rolls).value;
    var p := DrawOn(r, n1, n2, st.players[n1].hand, st.players[n2].hand, name == n1, name);
    DrawConserves(l, rolls, st.players[n1].hand, st.players[n2].hand, name == n1, name);
    AdvanceValid(st, i, p, "player_drawn_card", name);
  }



  // ---------------------------------------------------------------------
  // handle_message, the receive loop and the sweep
  // ---------------------------------------------------------------------

  /** The play_card / draw_card branch keeps the invariant. */
  lemma TakeTurnValid(st: State, msg: JsonObject, kind: string, name: string, addr: Address, rolls: seq<nat>)
    requires Valid(st)
    ensures var r := TakeTurn(st, msg, kind, name, addr, rolls);
      r.Some? ==> Valid(r.value)
  {
    LobbyOfSpec(st.lobbies, name);
    match LobbyOf(st.lobbies, name)
    case None =>
    case Some(i) =>
      if IsFull(st.lobbies[i]) && Current(st.lobbies[i].gameState) == name {
        if kind == "play_card" {
          match Lookup(msg, "card")
          case Err(_) =>
          case Ok(text) => PlayTurnValid(st, i, text, name, addr);
        } else {
          DrawTurnValid(st, i, name, addr, rolls);
        }
      }
  }

  /** handle_message keeps the invariant whenever it does not throw. */
  lemma HandleMessageValid(st: State, msg: JsonObject, addr: Address, now: int, rolls: seq<nat>)
    requires Valid(st)
    ensures var r := HandleMessage(st, msg, addr, now, rolls);
      r.Some? ==> Valid(r.value)
  {
    match Lookup(msg, "type")
    case Err(_) =>
    case Ok(kind) =>
      if kind == "connect" {
        match Lookup(msg, "name")
        case Err(_) =>
        case Ok(raw) => ConnectValid(st, raw, addr, now, rolls);
      } else if kind == "heartbeat" {
        match Lookup(msg, "name")
        case Err(_) =>
        case Ok(name) => HeartbeatValid(st, name, addr, now);
      } else if kind == "play_card" || kind == "draw_card" {
        match Lookup(msg, "player_name")
        case Err(_) =>
        case Ok(name) => TakeTurnValid(st, msg, kind, name, addr, rolls);
      }
  }

  /** Every datagram the receive loop handles keeps the invariant. */
  lemma HandleDatagramValid(st: State, text: string, addr: Address, now: int, rolls: seq<nat>)
    requires Valid(st)
    ensures Valid(HandleDatagram(st, text, addr, now, rolls))
  {
    HandleMessageValid(st, DeserializeObject(text).data, addr, now, rolls);
  }
}
