/**
 * The game_server object of game_server/server.cpp: the lobbies vector, the
 * players map and the datagrams it has sent, changed in place by its
 * handlers. Each handler is proved to leave the state that the transition
 * function of ServerRules gives, so the properties proved about those
 * functions hold of the object; the two entry points (a received datagram
 * and a pass of check_disconnections) also keep the server invariant.
 */
module Server {
  import opened Wrappers
  import opened Cards
  import opened SimpleJson
  import opened ServerDeck
  import opened ServerLobby
  import opened ServerRules
  import opened ServerProperties
  import opened ServerSweep
  import opened ServerValid

  /** play_card's std::find_if: the position of the first card of `hand`
      whose text is `text`, or None. */
  method FindCardIn(hand: seq<Card>, text: string) returns (r: Option<nat>)
    ensures r == FindCard(hand, text)
    ensures r.Some? ==> r.value < |hand| && ToString(hand[r.value]) == text
    ensures r.None? ==> forall k :: 0 <= k < |hand| ==> ToString(hand[k]) != text
  {
    var i := 0;
    while i < |hand| && ToString(hand[i]) != text
      invariant 0 <= i <= |hand|
      invariant forall k :: 0 <= k < i ==> ToString(hand[k]) != text
    {
      i := i + 1;
    }
    FindCardSpec(hand, text);
    r := if i < |hand| then Some(i) else None;
  }

  /** The seven's `for` loop of play_card: `n` rounds, each moving the
      deck's back card onto the hand while the deck has one. */
  method DrawPenalty(deck: seq<Card>, hand: seq<Card>, n: nat) returns (d: seq<Card>, h: seq<Card>)
    ensures Drawn(d, h) == DrawUpTo(deck, hand, n)
    ensures var m := if n <= |deck| then n else |deck|;
      d == deck[..|deck| - m] && h == hand + TopCards(deck, m)
  {
    d, h := deck, hand;
    for j := 0 to n
      invariant DrawUpTo(d, h, n - j) == DrawUpTo(deck, hand, n)
    {
      if |d| > 0 {
        h := h + [d[|d| - 1]];
        d := d[..|d| - 1];
      }
    }
    DrawUpToSpec(deck, hand, n);
  }

  /** The accepted play of card `k` (seat 1 moving when `first`): the card
      goes from the mover's hand onto the discard pile, a seven makes the
      other seat draw two by the loop above, and the game state records
      the new top card and the table. */
  method PlayCardOn(l: Lobby, n1: string, n2: string, h1: seq<Card>, h2: seq<Card>, first: bool, k: nat, name: string)
    returns (p: Played)
    requires k < |if first then h1 else h2|
    ensures p == PlayOn(l, n1, n2, h1, h2, first, k, name)
  {
    var mine := if first then h1 else h2;
    var theirs := if first then h2 else h1;
    var c := mine[k];
    var deck := l.deck;
    var note := "Player " + name + " played a card.";
    if c.value == "7" {
      deck, theirs := DrawPenalty(deck, theirs, 2);
      note := "Player " + name + " played a seven, you take two cards and skip a turn.";
    } else if c.value == "A" {
      note := "Player " + name + " played an ace you skip a turn.";
    }
    var discard := l.discardPile + [c];
    mine := mine[..k] + mine[k + 1..];
    var nh1 := if first then mine else theirs;
    var nh2 := if first then theirs else mine;
    var gs := RecordTable(WithCard(l.gameState, "top_card", c), n1, n2, nh1, nh2, deck, discard);
    p := Played(l.(deck := deck, discardPile := discard, gameState := gs), nh1, nh2, c.value == "7" || c.value == "A", note);
  }

  /** The search loop of find_or_create_lobby: the first lobby that is
      not full. */
  method FirstOpenLobby(lobbies: seq<Lobby>) returns (r: Option<nat>)
    ensures r == FirstOpen(lobbies)
  {
    FirstOpenSpec(lobbies);
    var i := 0;
    while i < |lobbies|
      invariant 0 <= i <= |lobbies|
      invariant forall k :: 0 <= k < i ==> IsFull(lobbies[k])
    {
      if !IsFull(lobbies[i]) {
        return Some(i);
      }
      i := i + 1;
    }
    return None;
  }

  /** find_or_create_lobby for the registered player `name` on the table
      `lobbies`, `players`: the first lobby that is not full seats the
      player, and initialize_game deals it if that fills it; with none, a
      new lobby is appended. Either way the call constructs one deck, whose
      cards are `built`. The result holds the player's lobby index. */
  method FindOrCreateLobby(lobbies: seq<Lobby>, players: map<string, Player>, name: string, built: seq<Card>)
      returns (j: Joined)
    requires name in players && |built| == DeckSize
    requires forall i :: 0 <= i < |lobbies| ==> SeatsKnown(lobbies[i], players)
    ensures j == JoinLobby(lobbies, players, name, built)
  {
    var open := FirstOpenLobby(lobbies);
    if open.None? {
      return Joined(lobbies + [NewLobby(name, built)], players, |lobbies|);
    }
    j := FillOpen(lobbies, players, name, built, open.value);
  }

  /** find_or_create_lobby on the open lobby `i`: every lobby seats player
      1, so the joiner takes seat 2, and initialize_game deals the now full
      lobby from `built`. */
  method FillOpen(lobbies: seq<Lobby>, players: map<string, Player>, name: string, built: seq<Card>, i: nat)
      returns (j: Joined)
    requires name in players && |built| == DeckSize
    requires forall k :: 0 <= k < |lobbies| ==> SeatsKnown(lobbies[k], players)
    requires FirstOpen(lobbies) == Some(i)
    ensures j == JoinLobby(lobbies, players, name, built) && j.index == i
  {
    FirstOpenSpec(lobbies);
    ghost var d := JoinUnfold(lobbies, players, name, built, i);
    var n1 := lobbies[i].player1.value;
    var (dealt, h1, h2) := DealHands(TakeSeat(lobbies[i], name), players[n1], players[name], built);
    j := Joined(lobbies[i := dealt], players[n1 := players[n1].(hand := h1)][name := players[name].(hand := h2)], i);
  }

  /** The end of the connect branch for a new player: the connect_ack to
      the sender and, if the player's lobby is now full, the game state to
      both players. */
  method Acknowledge(out: seq<Outgoing>, name: string, addr: Address, l: Lobby, players: map<string, Player>)
      returns (out': seq<Outgoing>)
    requires Shaped(l, players)
    ensures var o := out + [Outgoing(addr, ConnectAck(name, l, players))];
      out' == if IsFull(l) then o + Broadcast(l, players) else o
  {
    out' := out + [Outgoing(addr, ConnectAck(name, l, players))];
    if IsFull(l) {
      out' := out' + Broadcast(l, players);
    }
  }

  /** A new, connected player with no cards can be seated, and the lobby
      seating them is well formed. */
  lemma RegisterReady(st: State, p: Player, built: seq<Card>)
    requires WellFormed(st) && p.name !in st.players && |built| == DeckSize
    requires !p.disconnected
    ensures var ps := st.players[p.name := p];
      && (forall i :: 0 <= i < |st.lobbies| ==> SeatsKnown(st.lobbies[i], ps))
      && var j := JoinLobby(st.lobbies, ps, p.name, built);
         Shaped(j.lobbies[j.index], j.players)
  {
    AddKeepsShape(st, p);
    var st1 := st.(players := st.players[p.name := p]);
    JoinKeepsShape(st1, p.name, built);
  }

  /** play_card's three outcomes, for the mover `mover`: no card with the
      text, a card that does not match the top discard, an accepted play. */
  lemma PlayTurnUnfold(st: State, i: nat, text: string, name: string, addr: Address, mover: string)
    requires WellFormed(st) && i < |st.lobbies| && IsFull(st.lobbies[i])
    requires var l := st.lobbies[i];
      mover == if Current(l.gameState) == l.player1.value then l.player1.value else l.player2.value
    ensures Shaped(st.lobbies[i], st.players) && mover in st.players
    ensures PlayTurn(st, i, text, name, addr) ==
        match FindCard(st.players[mover].hand, text)
        case None => st.(outbox := st.outbox + [Outgoing(addr, ErrorMessage(CardNotInHand))])
        case Some(k) => PlayMatching(st, i, k, name, addr)
  {
    assert Shaped(st.lobbies[i], st.players);
  }

  /** The short check of check_disconnections on the seat of `n`: a player
      unseen for more than 10 s who is still marked connected is marked
      disconnected and the other seat is told. */
  method MarkOne(l: Lobby, players: map<string, Player>, out: seq<Outgoing>, n: string, now: int)
    returns (ps: map<string, Player>, sent: seq<Outgoing>)
    requires SeatsKnown(l, players) && n in players
    ensures (ps, sent) == MarkIfGone(l, players, out, n, now)
  {
    ps, sent := players, out;
    if now - ps[n].lastSeen > ShortDisconnectThreshold && !ps[n].disconnected {
      ps := ps[n := ps[n].(disconnected := true)];
      sent := sent + NotifyOther(l, ps, n, "player_disconnected", "Player " + n + " has disconnected.");
    }
  }

  /** The long check of check_disconnections on a full lobby whose short
      checks are done: a seat marked disconnected and unseen for more than
      60 s deletes the lobby (seat 2 checked last, so it names the
      opponent when both are over), telling a connected opponent the game
      is over and taking both players out of the table. */
  method LongCheck(l: Lobby, players: map<string, Player>, out: seq<Outgoing>, now: int) returns (s: Swept)
    requires SeatsKnown(l, players) && IsFull(l)
    ensures var (n1, n2) := (l.player1.value, l.player2.value);
      var long1 := players[n1].disconnected && now - players[n1].lastSeen > LongDisconnectThreshold;
      var long2 := players[n2].disconnected && now - players[n2].lastSeen > LongDisconnectThreshold;
      var other := if long2 then n1 else n2;
      s == if long1 || long2 then
             Swept(players - {n1, n2}, out + (if !players[other].disconnected then [Outgoing(players[other].address, GameOver(other, AbandonedGame))] else []), true)
           else Swept(players, out, false)
  {
    var n1, n2 := l.player1.value, l.player2.value;
    var shouldDelete := false;
    var gone, other := n1, n2;
    if players[n1].disconnected && now - players[n1].lastSeen > LongDisconnectThreshold {
      gone, other := n1, n2;
      shouldDelete := true;
    }
    if players[n2].disconnected && now - players[n2].lastSeen > LongDisconnectThreshold {
      gone, other := n2, n1;
      shouldDelete := true;
    }
    if !shouldDelete {
      return Swept(players, out, false);
    }
    var sent := out;
    if !players[other].disconnected {
      sent := sent + [Outgoing(players[other].address, GameOver(other, AbandonedGame))];
    }
    var ps := players - {gone};
    ps := ps - {other};
    assert ps == players - {n1, n2};
    s := Swept(ps, sent, true);
  }

  /** The body of check_disconnections' loop for the lobby `l`: the short
      check on each seat, the lone player's lobby marked for deletion, then
      in a full lobby the long check; a deleted lobby takes its players
      out of the table. */
  method SweepOne(l: Lobby, players: map<string, Player>, out: seq<Outgoing>, now: int) returns (s: Swept)
    requires SeatsKnown(l, players)
    ensures s == SweepLobby(l, players, out, now)
  {
    var n1 := l.player1.value;
    var ps, sent := MarkOne(l, players, out, n1, now);
    var shouldDelete := l.player2.None? && ps[n1].disconnected && !players[n1].disconnected;
    if l.player2.Some? {
      ps, sent := MarkOne(l, ps, sent, l.player2.value, now);
    }
    if shouldDelete {
      s := Swept(ps - {n1}, sent, true);
    } else if IsFull(l) {
      s := LongCheck(l, ps, sent, now);
    } else {
      s := Swept(ps, sent, false);
    }
  }

  /** The state of check_disconnections' loop: `ls` is the lobby list
      with the first `i` lobbies kept so far, followed by the lobbies from
      the `j`-th on still to sweep, and sweeping those from here ends in
      `goal`. */
  ghost predicate SweepAt(lobbies: seq<Lobby>, ls: seq<Lobby>, i: nat, j: nat, players: map<string, Player>, out: seq<Outgoing>, now: int, goal: Sweep)
  {
    && i <= |ls| && j <= |lobbies| && ls[i..] == lobbies[j..]
    && Sweepable(lobbies[j..], players)
    && var r := SweepAll(lobbies[j..], players, out, now);
      ls[..i] + r.kept == goal.kept && r.players == goal.players && r.out == goal.out
  }

  /** The loop starts on its way to the whole sweep. */
  lemma SweepStart(lobbies: seq<Lobby>, players: map<string, Player>, out: seq<Outgoing>, now: int)
    requires Sweepable(lobbies, players)
    ensures SweepAt(lobbies, lobbies, 0, 0, players, out, now, SweepAll(lobbies, players, out, now))
  {
    assert [] + SweepAll(lobbies, players, out, now).kept == SweepAll(lobbies, players, out, now).kept;
  }

  /** One pass of the loop, which erases a deleted lobby in place and
      otherwise moves on, keeps it on its way to `goal`. */
  lemma SweepStep(lobbies: seq<Lobby>, ls: seq<Lobby>, i: nat, j: nat, players: map<string, Player>, out: seq<Outgoing>, now: int, goal: Sweep)
    requires SweepAt(lobbies, ls, i, j, players, out, now, goal) && i < |ls|
    ensures SeatsKnown(ls[i], players)
    ensures var r := SweepLobby(ls[i], players, out, now);
      SweepAt(lobbies, if r.delete then ls[..i] + ls[i + 1..] else ls, if r.delete then i else i + 1, j + 1, r.players, r.out, now, goal)
  {
    var rest := lobbies[j..];
    assert rest[0] == ls[i] && rest[1..] == lobbies[j + 1..];
    SweepAllKeptSoFar(ls[..i], rest, players, out, now);
    var r := SweepLobby(ls[i], players, out, now);
    if r.delete {
      var ls' := ls[..i] + ls[i + 1..];
      assert ls'[..i] == ls[..i] && ls'[i..] == ls[i + 1..];
    } else {
      assert ls[..i + 1] == ls[..i] + [ls[i]];
    }
  }

  /** When the loop has run past the end, it has reached `goal`. */
  lemma SweepDone(lobbies: seq<Lobby>, ls: seq<Lobby>, i: nat, j: nat, players: map<string, Player>, out: seq<Outgoing>, now: int, goal: Sweep)
    requires SweepAt(lobbies, ls, i, j, players, out, now, goal) && i == |ls|
    ensures Sweep(ls, players, out) == goal
  {
    assert lobbies[j..] == [];
    assert ls[..i] == ls;
  }

  /** The loop of check_disconnections: each lobby in order is swept with
      the players the earlier passes left; a deleted lobby is erased in
      place and the loop goes on with the lobby that took its place. */
  method SweepLobbies(lobbies: seq<Lobby>, players: map<string, Player>, out: seq<Outgoing>, now: int) returns (s: Sweep)
    requires Sweepable(lobbies, players)
    ensures s == SweepAll(lobbies, players, out, now)
  {
    ghost var goal := SweepAll(lobbies, players, out, now);
    SweepStart(lobbies, players, out, now);
    var ls, ps, sent := lobbies, players, out;
    var i := 0;
    ghost var j := 0;
    while i < |ls|
      invariant SweepAt(lobbies, ls, i, j, ps, sent, now, goal)
      decreases |ls| - i
    {
      SweepStep(lobbies, ls, i, j, ps, sent, now, goal);
      var one := SweepOne(ls[i], ps, sent, now);
      ps, sent := one.players, one.out;
      if one.delete {
        ls := ls[..i] + ls[i + 1..];
      } else {
        i := i + 1;
      }
      j := j + 1;
    }
    SweepDone(lobbies, ls, i, j, ps, sent, now, goal);
    s := Sweep(ls, ps, sent);
  }

  class GameServer {
    var lobbies: seq<Lobby>
    var players: map<string, Player>
    /** Every datagram sent so far, in order. */
    var outbox: seq<Outgoing>

    /** The server's state as a value. */
    function Snapshot(): State
      reads this
    {
      State(lobbies, players, outbox)
    }

    /** A server with no lobbies and no players. */
    constructor ()
      ensures Snapshot() == State([], map[], [])
      ensures Valid(Snapshot())
    {
      lobbies := [];
      players := map[];
      outbox := [];
    }

    /** find_player_lobby: the first lobby seating `name`. */
    method FindPlayerLobby(name: string) returns (r: Option<nat>)
      ensures r == LobbyOf(lobbies, name)
    {
      LobbyOfSpec(lobbies, name);
      var i := 0;
      while i < |lobbies|
        invariant 0 <= i <= |lobbies|
        invariant forall k :: 0 <= k < i ==> !Seated(lobbies[k], name)
      {
        if Seated(lobbies[i], name) {
          return Some(i);
        }
        i := i + 1;
      }
      return None;
    }

    /** handle_reconnection. */
    method HandleReconnection(name: string, addr: Address, now: int)
      requires WellFormed(Snapshot())
      modifies this
      ensures Snapshot() == Reconnect(old(Snapshot()), name, addr, now)
    {
      if name !in players || !players[name].disconnected {
        outbox := outbox + [Outgoing(addr, ErrorMessage(InvalidReconnection))];
        return;
      }
      var found := FindPlayerLobby(name);
      if found.None? {
        return;
      }
      var i := found.value;
      var l := lobbies[i];
      assert Shaped(l, players);
      if !IsFull(l) {
        return;
      }
      RestoreAt(i, name, addr, now);
    }

    /** The reconnection proper, for the player `name` of the full lobby
        `i`: the player is marked connected at the new address and seen
        now, the lobby is unpaused when both players are connected, the
        game state goes to the new address and the other player is told. */
    method RestoreAt(i: nat, name: string, addr: Address, now: int)
      requires i < |lobbies| && IsFull(lobbies[i]) && Shaped(lobbies[i], players) && name in players
      modifies this
      ensures Snapshot() == Restore(old(Snapshot()), i, name, addr, now)
    {
      var l := lobbies[i];
      players := players[name := players[name].(address := addr, disconnected := false, lastSeen := now)];
      if !players[l.player1.value].disconnected && !players[l.player2.value].disconnected {
        l := l.(paused := false);
      }
      lobbies := lobbies[i := l];
      outbox := outbox + ([Outgoing(addr, StateUpdate(l, players))]
        + NotifyOther(l, players, name, "player_reconnected", "Player " + name + " has reconnected."));
    }

    /** The connect branch for a name nobody has: the new player is
        registered, seated, acknowledged and, if the lobby is now full,
        both players are sent the game state. */
    method RegisterNewPlayer(name: string, addr: Address, now: int, rolls: seq<nat>)
      requires WellFormed(Snapshot()) && name !in players
      modifies this
      ensures Snapshot() == RegisterPlayer(old(Snapshot()), name, addr, now, rolls)
    {
      var deck := new Deck(rolls);
      RegisterWithDeck(name, addr, now, deck.cards);
    }

    /** The same, once the deck holds `built`. */
    method RegisterWithDeck(name: string, addr: Address, now: int, built: seq<Card>)
      requires WellFormed(Snapshot()) && name !in players && |built| == DeckSize
      modifies this
      ensures Snapshot() == RegisterWith(old(Snapshot()), name, addr, now, built)
    {
      ghost var st := Snapshot();
      var p := Player(name, addr, now, [], false);
      RegisterReady(st, p, built);
      players := players[name := p];
      var j := FindOrCreateLobby(lobbies, players, name, built);
      lobbies, players := j.lobbies, j.players;
      outbox := Acknowledge(outbox, name, addr, lobbies[j.index], players);
    }

    /** The connect branch, with the name checks made on the name that
        gets registered. */
    method HandleConnect(raw: string, addr: Address, now: int, rolls: seq<nat>)
      requires WellFormed(Snapshot())
      modifies this
      ensures Snapshot() == Connect(old(Snapshot()), raw, addr, now, rolls)
    {
      var name := RemoveQuotes(raw);
      if name in players && players[name].disconnected {
        HandleReconnection(name, addr, now);
      } else if name in players {
        outbox := outbox + [Outgoing(addr, Message("name_taken", "message", NameInUse))];
      } else {
        RegisterNewPlayer(name, addr, now, rolls);
      }
    }

    /** The heartbeat branch. */
    method HandleHeartbeat(name: string, addr: Address, now: int)
      requires WellFormed(Snapshot())
      modifies this
      ensures Snapshot() == Heartbeat(old(Snapshot()), name, addr, now)
    {
      if name !in players {
        return;
      }
      ghost var st := Snapshot();
      players := players[name := players[name].(lastSeen := now)];
      if players[name].disconnected {
        FlagsKeepShape(st, players);
        HandleReconnection(name, addr, now);
      } else {
        players := players[name := players[name].(address := addr)];
      }
    }

    /** play_card once the turn check has passed, in the full lobby `i`:
        the mover is seat 1 if the current player is seat 1's name, else
        seat 2; the card is searched for by its text, then checked against
        the top discard. */
    method PlayCard(i: nat, text: string, name: string, addr: Address)
      requires WellFormed(Snapshot()) && i < |lobbies| && IsFull(lobbies[i])
      modifies this
      ensures Snapshot() == PlayTurn(old(Snapshot()), i, text, name, addr)
    {
      var l := lobbies[i];
      assert Shaped(l, players);
      var mover := if Current(l.gameState) == l.player1.value then l.player1.value else l.player2.value;
      var found := FindCardIn(players[mover].hand, text);
      PlayTurnUnfold(Snapshot(), i, text, name, addr, mover);
      if found.None? {
        outbox := outbox + [Outgoing(addr, ErrorMessage(CardNotInHand))];
        return;
      }
      PlayFound(i, mover, found.value, name, addr);
    }

    /** play_card once card `k` of the mover's hand has the text: refused
        unless it matches the top discard, else accepted. */
    method PlayFound(i: nat, mover: string, k: nat, name: string, addr: Address)
      requires i < |lobbies| && IsFull(lobbies[i]) && Shaped(lobbies[i], players)
      requires var l := lobbies[i];
        mover == if Current(l.gameState) == l.player1.value then l.player1.value else l.player2.value
      requires k < |players[mover].hand|
      modifies this
      ensures Snapshot() == PlayMatching(old(Snapshot()), i, k, name, addr)
    {
      var l := lobbies[i];
      if !Matches(players[mover].hand[k], l.discardPile[|l.discardPile| - 1]) {
        outbox := outbox + [Outgoing(addr, ErrorMessage(InvalidMove))];
        return;
      }
      AcceptPlay(i, k, name);
    }

    /** An accepted play of card `k` of the mover's hand: the game ends if
        the hand is now empty, otherwise the move is recorded. */
    method AcceptPlay(i: nat, k: nat, name: string)
      requires i < |lobbies| && IsFull(lobbies[i]) && Shaped(lobbies[i], players)
      requires var l := lobbies[i];
        k < |players[if Current(l.gameState) == l.player1.value then l.player1.value else l.player2.value].hand|
      modifies this
      ensures Snapshot() == Accept(old(Snapshot()), i, k, name)
    {
      var l := lobbies[i];
      var n1, n2 := l.player1.value, l.player2.value;
      var cur := Current(l.gameState);
      var first := cur == n1;
      var p := PlayCardOn(l, n1, n2, players[n1].hand, players[n2].hand, first, k, name);
      if (if first then p.hand1 else p.hand2) == [] {
        EndGame(i, cur);
      } else {
        RecordMove(i, p, "player_played_card");
      }
    }

    /** The win: game_over to both players, who are erased from the players
        map with their lobby. */
    method EndGame(i: nat, winner: string)
      requires i < |lobbies| && IsFull(lobbies[i]) && SeatsKnown(lobbies[i], players)
      modifies this
      ensures Snapshot() == Win(old(Snapshot()), i, winner)
    {
      var n1, n2 := lobbies[i].player1.value, lobbies[i].player2.value;
      var w := GameOver(winner, "Game Over! winner: " + winner);
      outbox := outbox + [Outgoing(players[n1].address, w), Outgoing(players[n2].address, w)];
      players := players - {n1, n2};
      lobbies := lobbies[..i] + lobbies[i + 1..];
    }

    /** A move that does not end the game: the new table and hands, the
        turn passed unless the move keeps it, a `kind` message to the other
        player, then broadcast_game_state. */
    method RecordMove(i: nat, p: Played, kind: string)
      requires i < |lobbies| && IsFull(lobbies[i]) && Shaped(lobbies[i], players)
      requires p.lobby.player1 == lobbies[i].player1 && p.lobby.player2 == lobbies[i].player2
      requires p.lobby.discardPile != []
      modifies this
      ensures Snapshot() == Advance(old(Snapshot()), i, p, kind)
    {
      var l := lobbies[i];
      var n1, n2 := l.player1.value, l.player2.value;
      var cur := Current(l.gameState);
      var first := cur == n1;
      var mover, other := if first then n1 else n2, if first then n2 else n1;
      players := players[n1 := players[n1].(hand := p.hand1)][n2 := players[n2].(hand := p.hand2)];
      var gs := p.lobby.gameState;
      if !p.skip {
        gs := WithString(gs, "current_player", Flip(cur, n1, n2));
      }
      l := p.lobby.(gameState := gs);
      lobbies := lobbies[i := l];
      outbox := outbox + [Outgoing(players[other].address, MoveNotice(kind, mover, p.note))];
      outbox := outbox + Broadcast(l, players);
    }

    /** draw_card once the turn check has passed, in the full lobby `i`:
        an empty deck is refilled from the discard pile (an error if it has
        no card besides the top one), then the mover takes the deck's back
        card. */
    method DrawCard(i: nat, name: string, addr: Address, rolls: seq<nat>)
      requires WellFormed(Snapshot()) && i < |lobbies| && IsFull(lobbies[i])
      modifies this
      ensures Snapshot() == DrawTurn(old(Snapshot()), i, name, addr, rolls)
    {
      var l := lobbies[i];
      assert Shaped(l, players);
      var r := Refill(l, rolls);
      if r.None? {
        outbox := outbox + [Outgoing(addr, ErrorMessage(CannotRefill))];
        return;
      }
      RefillKeepsTop(l, rolls);
      var n1, n2 := l.player1.value, l.player2.value;
      var p := DrawOn(r.value, n1, n2, players[n1].hand, players[n2].hand, Current(l.gameState) == n1, name);
      RecordMove(i, p, "player_drawn_card");
    }

    /** The play_card / draw_card branch for the sender `name`: nothing
        unless the sender's lobby is full, an error unless it is the
        sender's turn, then the move. False when a play has no "card"
        field (the const operator[] throws), with nothing changed. */
    method TakeTurn(msg: JsonObject, kind: string, name: string, addr: Address, rolls: seq<nat>) returns (ok: bool)
      requires WellFormed(Snapshot())
      modifies this
      ensures var r := ServerRules.TakeTurn(old(Snapshot()), msg, kind, name, addr, rolls);
        ok == r.Some? && Snapshot() == if ok then r.value else old(Snapshot())
    {
      var found := FindPlayerLobby(name);
      if found.None? {
        return true;
      }
      var i := found.value;
      if !IsFull(lobbies[i]) {
        return true;
      }
      if Current(lobbies[i].gameState) != name {
        outbox := outbox + [Outgoing(addr, ErrorMessage(NotYourTurn))];
        return true;
      }
      if kind == "play_card" {
        var card := Lookup(msg, "card");
        if card.Err? {
          return false;
        }
        PlayCard(i, card.value, name, addr);
      } else {
        DrawCard(i, name, addr, rolls);
      }
      return true;
    }

    /** handle_message: dispatch on "type". False when a field the branch
        reads is missing (the const operator[] throws), with nothing
        changed. */
    method HandleMessage(msg: JsonObject, addr: Address, now: int, rolls: seq<nat>) returns (ok: bool)
      requires WellFormed(Snapshot())
      modifies this
      ensures var r := ServerRules.HandleMessage(old(Snapshot()), msg, addr, now, rolls);
        ok == r.Some? && Snapshot() == if ok then r.value else old(Snapshot())
    {
      var kind := Lookup(msg, "type");
      if kind.Err? {
        return false;
      }
      if kind.value == "connect" || kind.value == "heartbeat" {
        var name := Lookup(msg, "name");
        if name.Err? {
          return false;
        }
        if kind.value == "connect" {
          HandleConnect(name.value, addr, now, rolls);
        } else {
          HandleHeartbeat(name.value, addr, now);
        }
        return true;
      }
      if kind.value == "play_card" || kind.value == "draw_card" {
        var name := Lookup(msg, "player_name");
        if name.Err? {
          return false;
        }
        ok := TakeTurn(msg, kind.value, name.value, addr, rolls);
        return;
      }
      return true;
    }

    /** check_disconnections: one sweep over the lobbies in order. The
        server invariant is kept. */
    method CheckDisconnections(now: int)
      requires Valid(Snapshot())
      modifies this
      ensures Snapshot() == ServerRules.CheckDisconnections(old(Snapshot()), now)
      ensures Valid(Snapshot())
    {
      ghost var st := Snapshot();
      ValidFormed(st);
      CheckDisconnectionsValid(st, now);
      assert [] + lobbies == lobbies;
      SuffixSweepable([], lobbies, players);
      var s := SweepLobbies(lobbies, players, outbox, now);
      lobbies, players, outbox := s.kept, s.players, s.out;
    }

    /** One pass of the receive loop of start() on a datagram of `text`
        from `addr`: an empty read is skipped; otherwise the text is
        deserialized and handled, and a failure to parse or a throw while
        handling is answered with {"type": "unknown"}. The server
        invariant is kept. */
    method ReceiveDatagram(text: string, addr: Address, now: int, rolls: seq<nat>)
      requires Valid(Snapshot())
      modifies this
      ensures Snapshot() == if text == [] then old(Snapshot()) else HandleDatagram(old(Snapshot()), text, addr, now, rolls)
      ensures Valid(Snapshot())
    {
      if |text| == 0 {
        return;
      }
      ghost var st := Snapshot();
      ValidFormed(st);
      HandleDatagramValid(st, text, addr, now, rolls);
      var msg := new SimpleJSON();
      var failure := msg.Deserialize(text);
      if failure.Some? {
        outbox := outbox + [Outgoing(addr, UnknownMessage())];
        return;
      }
      var ok := HandleMessage(msg.data, addr, now, rolls);
      if !ok {
        outbox := outbox + [Outgoing(addr, UnknownMessage())];
      }
    }
  }
}
