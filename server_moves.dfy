/**
 * The moves of play_card and draw_card (game_server/server.cpp) once the
 * turn check has passed: refused plays, the win, accepted plays and draws,
 * stated about the transition functions of ServerRules.
 */
module ServerMoves {
  import opened Wrappers
  import opened Cards
  import opened SimpleJson
  import opened ServerDeck
  import opened ServerLobby
  import opened ServerRules
  import opened ServerProperties

  /** The sender may move in lobby `i`: it is full, seats the sender, and
      records the sender as the current player (what TakeTurn checks). */
  predicate ToMove(st: State, i: nat, name: string)
  {
    && WellFormed(st) && i < |st.lobbies| && IsFull(st.lobbies[i])
    && Seated(st.lobbies[i], name) && Current(st.lobbies[i].gameState) == name
  }

  /** `k` is the first card of the hand with the text. */
  predicate FirstWithText(hand: seq<Card>, text: string, k: nat)
  {
    k < |hand| && ToString(hand[k]) == text && forall j :: 0 <= j < k ==> ToString(hand[j]) != text
  }

  lemma FindCardFirst(hand: seq<Card>, text: string, k: nat)
    requires FirstWithText(hand, text, k)
    ensures FindCard(hand, text) == Some(k)
  {
    FindCardSpec(hand, text);
  }

  /** The game_state recording play_card and draw_card do keeps the
      current player. */
  lemma RecordKeepsCurrent(gs: JsonObject, n1: string, n2: string, h1: seq<Card>, h2: seq<Card>, deck: seq<Card>, discard: seq<Card>)
    ensures Current(RecordTable(gs, n1, n2, h1, h2, deck, discard)) == Current(gs)
  {
  }

  /** Playing card `k`: the card goes from the mover's hand onto the
      discard pile; a seven moves min(2, |deck|) cards off the back of the
      deck onto the other hand, anything else leaves deck and other hand
      alone. */
  lemma MoveCardSpec(deck: seq<Card>, discard: seq<Card>, mine: seq<Card>, theirs: seq<Card>, k: nat)
    requires k < |mine|
    ensures var mv := MoveCard(deck, discard, mine, theirs, k);
      var c := mine[k];
      var m := if 2 <= |deck| then 2 else |deck|;
      && mv.discard == discard + [c]
      && mv.mine == mine[..k] + mine[k + 1..]
      && (c.value == "7" ==> mv.deck == deck[..|deck| - m] && mv.theirs == theirs + TopCards(deck, m))
      && (c.value != "7" ==> mv.deck == deck && mv.theirs == theirs)
  {
    DrawUpToSpec(deck, theirs, 2);
  }

  /** Playing a card loses or invents no card. */
  lemma MoveCardConserves(deck: seq<Card>, discard: seq<Card>, mine: seq<Card>, theirs: seq<Card>, k: nat)
    requires k < |mine|
    ensures var mv := MoveCard(deck, discard, mine, theirs, k);
      multiset(mv.deck) + multiset(mv.discard) + multiset(mv.mine) + multiset(mv.theirs)
      == multiset(deck) + multiset(discard) + multiset(mine) + multiset(theirs)
  {
    var c := mine[k];
    var rest := mine[..k] + mine[k + 1..];
    assert multiset(mine) == multiset(rest) + multiset{c} by {
      RemoveAtCounts(mine, k);
    }
    var drawn := if c.value == "7" then DrawUpTo(deck, theirs, 2) else Drawn(deck, theirs);
    assert multiset(drawn.deck) + multiset(drawn.hand) == multiset(deck) + multiset(theirs) by {
      DrawUpToSpec(deck, theirs, 2);
    }
    calc {
      multiset(drawn.deck) + multiset(discard + [c]) + multiset(rest) + multiset(drawn.hand);
      multiset(drawn.deck) + multiset(drawn.hand) + multiset(discard) + (multiset(rest) + multiset{c});
      multiset(deck) + multiset(theirs) + multiset(discard) + multiset(mine);
    }
  }

  /** Removing the element at `k` takes exactly that element out. */
  lemma RemoveAtCounts<T>(s: seq<T>, k: nat)
    requires k < |s|
    ensures multiset(s) == multiset(s[..k] + s[k + 1..]) + multiset{s[k]}
  {
    assert s == s[..k] + [s[k]] + s[k + 1..];
  }

  /** The player's play keeps the seats, the pause flag and the recorded
      current player, moves the cards as MoveCard says, and keeps the turn
      exactly for a seven or an ace. */
  lemma PlayOnSpec(l: Lobby, n1: string, n2: string, h1: seq<Card>, h2: seq<Card>, first: bool, k: nat, name: string)
    requires k < |if first then h1 else h2|
    ensures var p := PlayOn(l, n1, n2, h1, h2, first, k, name);
      var mine := if first then h1 else h2;
      var mv := MoveCard(l.deck, l.discardPile, mine, if first then h2 else h1, k);
      && p.lobby == l.(deck := mv.deck, discardPile := mv.discard, gameState := p.lobby.gameState)
      && (if first then p.hand1 else p.hand2) == mv.mine
      && (if first then p.hand2 else p.hand1) == mv.theirs
      && (p.skip <==> mine[k].value == "7" || mine[k].value == "A")
      && Current(p.lobby.gameState) == Current(l.gameState)
  {
    var mine := if first then h1 else h2;
    var mv := MoveCard(l.deck, l.discardPile, mine, if first then h2 else h1, k);
    RecordKeepsCurrent(WithCard(l.gameState, "top_card", mine[k]), n1, n2,
      if first then mv.mine else mv.theirs, if first then mv.theirs else mv.mine, mv.deck, mv.discard);
  }

  /** A play is refused with one error, and nothing else, when no card of
      the mover's hand has the text. */
  lemma PlayNotInHand(st: State, i: nat, text: string, name: string, addr: Address)
    requires ToMove(st, i, name)
    requires forall k :: 0 <= k < |st.players[name].hand| ==> ToString(st.players[name].hand[k]) != text
    ensures PlayTurn(st, i, text, name, addr) == st.(outbox := st.outbox + [Outgoing(addr, ErrorMessage(CardNotInHand))])
  {
    assert Shaped(st.lobbies[i], st.players);
    FindCardSpec(st.players[name].hand, text);
  }

  /** A play is refused with one error, and nothing else, when the card
      with the text matches neither the suit nor the value of the top
      discard. */
  lemma PlayMismatch(st: State, i: nat, text: string, name: string, addr: Address, k: nat)
    requires ToMove(st, i, name)
    requires FirstWithText(st.players[name].hand, text, k)
    requires st.lobbies[i].discardPile != []
    requires !Matches(st.players[name].hand[k], st.lobbies[i].discardPile[|st.lobbies[i].discardPile| - 1])
    ensures PlayTurn(st, i, text, name, addr) == st.(outbox := st.outbox + [Outgoing(addr, ErrorMessage(InvalidMove))])
  {
    assert Shaped(st.lobbies[i], st.players);
    FindCardFirst(st.players[name].hand, text, k);
  }

  /** The win removes the lobby, takes both of its players out of the
      table, and sends each of them game_over naming the winner. */
  lemma WinSpec(st: State, i: nat, winner: string)
    requires i < |st.lobbies| && IsFull(st.lobbies[i]) && SeatsKnown(st.lobbies[i], st.players)
    ensures var r := Win(st, i, winner);
      var n1 := st.lobbies[i].player1.value;
      var n2 := st.lobbies[i].player2.value;
      && |r.lobbies| == |st.lobbies| - 1
      && (forall k :: 0 <= k < |r.lobbies| ==> r.lobbies[k] == st.lobbies[if k < i then k else k + 1])
      && r.players.Keys == st.players.Keys - {n1, n2}
      && (forall n :: n in r.players ==> r.players[n] == st.players[n])
      && |r.outbox| == |st.outbox| + 2 && r.outbox[..|st.outbox|] == st.outbox
      && r.outbox[|st.outbox|].to == st.players[n1].address && r.outbox[|st.outbox| + 1].to == st.players[n2].address
      && r.outbox[|st.outbox|].msg == r.outbox[|st.outbox| + 1].msg
      && var m := r.outbox[|st.outbox|].msg;
         m.Keys == {"type", "winner", "message"}
         && RemoveQuotes(m["type"]) == "game_over" && RemoveQuotes(m["winner"]) == winner
  {
    GameOverFields(winner, "Game Over! winner: " + winner);
  }

  lemma GameOverFields(winner: string, text: string)
    ensures var m := GameOver(winner, text);
      && m.Keys == {"type", "winner", "message"}
      && RemoveQuotes(m["type"]) == "game_over" && RemoveQuotes(m["winner"]) == winner && RemoveQuotes(m["message"]) == text
  {
    WithStringReadsBack(map[], "type", "game_over");
    var g1 := WithString(map[], "type", "game_over");
    WithStringReadsBack(g1, "winner", winner);
    WithStringReadsBack(WithString(g1, "winner", winner), "message", text);
  }

  /** A play of the first card with the text that matches the top discard
      is accepted. */
  lemma PlayAccepted(st: State, i: nat, text: string, name: string, addr: Address, k: nat)
    requires ToMove(st, i, name)
    requires FirstWithText(st.players[name].hand, text, k)
    requires st.lobbies[i].discardPile != []
    requires Matches(st.players[name].hand[k], st.lobbies[i].discardPile[|st.lobbies[i].discardPile| - 1])
    ensures Shaped(st.lobbies[i], st.players)
    ensures PlayTurn(st, i, text, name, addr) == Accept(st, i, k, name)
  {
    assert Shaped(st.lobbies[i], st.players);
    FindCardFirst(st.players[name].hand, text, k);
  }

  /** The accepted play that empties the mover's hand wins. */
  lemma AcceptWins(st: State, i: nat, k: nat, name: string)
    requires ToMove(st, i, name) && Shaped(st.lobbies[i], st.players)
    requires k < |st.players[name].hand| == 1
    ensures Accept(st, i, k, name) == Win(st, i, name)
  {
    var l := st.lobbies[i];
    var hand := st.players[name].hand;
    var n1 := l.player1.value;
    var n2 := l.player2.value;
    var first := name == n1;
    var theirs := if first then st.players[n2].hand else st.players[n1].hand;
    PlayOnSpec(l, n1, n2, st.players[n1].hand, st.players[n2].hand, first, k, name);
    assert MoveCard(l.deck, l.discardPile, hand, theirs, k).mine == [] by {
      MoveCardSpec(l.deck, l.discardPile, hand, theirs, k);
    }
  }

  /** Any other accepted play is Advance of PlayOn of the card; PlayOn
      keeps the seats, leaves a top card, and keeps the mover as the
      recorded current player. */
  lemma AcceptAdvances(st: State, i: nat, k: nat, name: string)
    requires ToMove(st, i, name) && Shaped(st.lobbies[i], st.players)
    requires k < |st.players[name].hand| && |st.players[name].hand| > 1
    ensures var l := st.lobbies[i];
      var n1 := l.player1.value;
      var n2 := l.player2.value;
      var p := PlayOn(l, n1, n2, st.players[n1].hand, st.players[n2].hand, name == n1, k, name);
      && p.lobby.player1 == l.player1 && p.lobby.player2 == l.player2 && p.lobby.discardPile != []
      && Current(p.lobby.gameState) == name
      && Accept(st, i, k, name) == Advance(st, i, p, "player_played_card")
  {
    var l := st.lobbies[i];
    var hand := st.players[name].hand;
    var n1 := l.player1.value;
    var n2 := l.player2.value;
    var first := name == n1;
    var theirs := if first then st.players[n2].hand else st.players[n1].hand;
    PlayOnSpec(l, n1, n2, st.players[n1].hand, st.players[n2].hand, first, k, name);
    assert |MoveCard(l.deck, l.discardPile, hand, theirs, k).mine| == |hand| - 1 by {
      MoveCardSpec(l.deck, l.discardPile, hand, theirs, k);
    }
  }

  /** After a play that does not win (by the mover `name`, against the
      opponent `o`): only lobby `i` changes, and there only its table and
      game state; only the two players' hands change. */
  lemma AdvanceSpec(st: State, i: nat, p: Played, kind: string, name: string)
    requires i < |st.lobbies| && IsFull(st.lobbies[i]) && Shaped(st.lobbies[i], st.players)
    requires p.lobby.player1 == st.lobbies[i].player1 && p.lobby.player2 == st.lobbies[i].player2
    requires p.lobby.discardPile != []
    requires Seated(st.lobbies[i], name) && Current(st.lobbies[i].gameState) == name
    ensures var l := st.lobbies[i];
      var r := Advance(st, i, p, kind);
      var o := OtherSeat(l, name).value;
      var first := name == l.player1.value;
      && o in st.players && o != name
      && r.lobbies == st.lobbies[i := p.lobby.(gameState := r.lobbies[i].gameState)]
      && r.players == st.players[name := st.players[name].(hand := if first then p.hand1 else p.hand2)]
                                [o := st.players[o].(hand := if first then p.hand2 else p.hand1)]
  {
    var l := st.lobbies[i];
    var n1 := l.player1.value;
    var n2 := l.player2.value;
    if name != n1 {
      UpdatesCommute(st.players, n1, n2, st.players[n1].(hand := p.hand1), st.players[n2].(hand := p.hand2));
    }
  }

  /** Updates of two different keys can be made in either order. */
  lemma UpdatesCommute<K, V>(m: map<K, V>, a: K, b: K, x: V, y: V)
    requires a != b
    ensures m[a := x][b := y] == m[b := y][a := x]
  {
  }

  /** After a play that does not win, the turn stays with the mover
      exactly when the play keeps it, and otherwise passes to the
      opponent; the opponent is sent the play's note, then both players
      get the game state. */
  lemma AdvanceTurn(st: State, i: nat, p: Played, kind: string, name: string)
    requires i < |st.lobbies| && IsFull(st.lobbies[i]) && Shaped(st.lobbies[i], st.players)
    requires p.lobby.player1 == st.lobbies[i].player1 && p.lobby.player2 == st.lobbies[i].player2
    requires p.lobby.discardPile != []
    requires Seated(st.lobbies[i], name) && Current(st.lobbies[i].gameState) == name
    requires Current(p.lobby.gameState) == name
    ensures var l := st.lobbies[i];
      var r := Advance(st, i, p, kind);
      var o := OtherSeat(l, name).value;
      i < |r.lobbies| && Current(r.lobbies[i].gameState) == (if p.skip then name else o)
  {
    var l := st.lobbies[i];
    WithStringReadsBack(p.lobby.gameState, "current_player", Flip(name, l.player1.value, l.player2.value));
  }

  lemma AdvanceSends(st: State, i: nat, p: Played, kind: string, name: string)
    requires i < |st.lobbies| && IsFull(st.lobbies[i]) && Shaped(st.lobbies[i], st.players)
    requires p.lobby.player1 == st.lobbies[i].player1 && p.lobby.player2 == st.lobbies[i].player2
    requires p.lobby.discardPile != []
    requires Seated(st.lobbies[i], name) && Current(st.lobbies[i].gameState) == name
    ensures var r := Advance(st, i, p, kind);
      var o := OtherSeat(st.lobbies[i], name).value;
      && o in st.players
      && |r.outbox| == |st.outbox| + 3 && r.outbox[..|st.outbox|] == st.outbox
      && r.outbox[|st.outbox|] == Outgoing(st.players[o].address, MoveNotice(kind, name, p.note))
  {
  }

  /** A draw from an empty deck with at most one discard is refused with
      one error, and nothing else. */
  lemma DrawRefused(st: State, i: nat, name: string, addr: Address, rolls: seq<nat>)
    requires ToMove(st, i, name)
    requires st.lobbies[i].deck == [] && |st.lobbies[i].discardPile| <= 1
    ensures DrawTurn(st, i, name, addr, rolls) == st.(outbox := st.outbox + [Outgoing(addr, ErrorMessage(CannotRefill))])
  {
    RefillSpec(st.lobbies[i], rolls);
  }

  /** Otherwise the card is drawn from the lobby as refilled. */
  lemma DrawRefills(st: State, i: nat, name: string, addr: Address, rolls: seq<nat>)
    requires ToMove(st, i, name)
    requires st.lobbies[i].deck != [] || |st.lobbies[i].discardPile| > 1
    ensures var l := st.lobbies[i];
      && Shaped(l, st.players) && l.discardPile != []
      && Refill(l, rolls).Some?
      && var r := Refill(l, rolls).value;
      && var n1 := l.player1.value;
      && var n2 := l.player2.value;
      && r.deck != []
      && var p := DrawOn(r, n1, n2, st.players[n1].hand, st.players[n2].hand, name == n1, name);
      && p.lobby.player1 == l.player1 && p.lobby.player2 == l.player2 && p.lobby.discardPile != []
      && DrawTurn(st, i, name, addr, rolls) == Advance(st, i, p, "player_drawn_card")
  {
    assert Shaped(st.lobbies[i], st.players);
    RefillSpec(st.lobbies[i], rolls);
    RefillKeepsTop(st.lobbies[i], rolls);
  }

  /** The draw takes the deck's back card and nothing else off the table,
      onto the mover's hand, and does not keep the turn. */
  lemma DrawOnSpec(r: Lobby, n1: string, n2: string, h1: seq<Card>, h2: seq<Card>, first: bool, name: string)
    requires r.deck != []
    ensures var p := DrawOn(r, n1, n2, h1, h2, first, name);
      var c := r.deck[|r.deck| - 1];
      && p.lobby == r.(deck := r.deck[..|r.deck| - 1], gameState := p.lobby.gameState)
      && (if first then (p.hand1, p.hand2) == (h1 + [c], h2) else (p.hand1, p.hand2) == (h1, h2 + [c]))
      && !p.skip
      && multiset(p.lobby.deck) + multiset(p.hand1) + multiset(p.hand2) == multiset(r.deck) + multiset(h1) + multiset(h2)
  {
    var c := r.deck[|r.deck| - 1];
    assert r.deck == r.deck[..|r.deck| - 1] + [c];
  }
}
