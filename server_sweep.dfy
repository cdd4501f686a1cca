/**
 * What check_disconnections (game_server/server.cpp) promises for one
 * lobby: who is marked disconnected, when the lobby is deleted with its
 * players, and who is told the game is over.
 */
module ServerSweep {
  import opened Wrappers
  import opened Cards
  import opened SimpleJson
  import opened ServerLobby
  import opened ServerRules

  /** The seconds since `n` was last seen. */
  function Unseen(players: map<string, Player>, n: string, now: int): int
    requires n in players
  {
    now - players[n].lastSeen
  }

  /** The short check marks a player exactly when they are unseen for more
      than 10 s and not yet marked, changes nothing but that flag, and
      sends at most one notice, to the other seat, and only then. */
  lemma MarkIfGoneSpec(l: Lobby, players: map<string, Player>, out: seq<Outgoing>, n: string, now: int)
    requires SeatsKnown(l, players) && n in players
    ensures var (ps, o) := MarkIfGone(l, players, out, n, now);
      var gone := Unseen(players, n, now) > ShortDisconnectThreshold && !players[n].disconnected;
      && ps.Keys == players.Keys
      && ps[n] == players[n].(disconnected := players[n].disconnected || Unseen(players, n, now) > ShortDisconnectThreshold)
      && (forall m :: m in players && m != n ==> ps[m] == players[m])
      && |out| <= |o| <= |out| + 1 && o[..|out|] == out
      && (|o| == |out| + 1 <==> gone && OtherSeat(l, n).Some? && !players[OtherSeat(l, n).value].disconnected)
  {
  }

  /** Whether the sweep deletes a lobby: a lobby with one player once that
      player is unseen for more than 10 s; a full lobby once either player
      is unseen for more than 60 s (by then the short check has marked
      them disconnected). */
  predicate Abandoned(l: Lobby, players: map<string, Player>, now: int)
    requires SeatsKnown(l, players)
  {
    if l.player2.None? then
      Unseen(players, l.player1.value, now) > ShortDisconnectThreshold
    else
      Unseen(players, l.player1.value, now) > LongDisconnectThreshold
      || Unseen(players, l.player2.value, now) > LongDisconnectThreshold
  }

  /** The players after the short checks on both seats: each seated player
      is marked once unseen for more than 10 s. */
  function Marked(l: Lobby, players: map<string, Player>, now: int): map<string, Player>
    requires SeatsKnown(l, players)
  {
    var n1 := l.player1.value;
    var ps := players[n1 := players[n1].(disconnected := players[n1].disconnected || Unseen(players, n1, now) > ShortDisconnectThreshold)];
    if l.player2.Some? then
      var n2 := l.player2.value;
      ps[n2 := players[n2].(disconnected := players[n2].disconnected || Unseen(players, n2, now) > ShortDisconnectThreshold)]
    else ps
  }

  /** The players and sends after the short checks, as SweepLobby computes
      them before deciding. */
  function ShortChecks(l: Lobby, players: map<string, Player>, out: seq<Outgoing>, now: int): (map<string, Player>, seq<Outgoing>)
    requires SeatsKnown(l, players)
  {
    var (ps1, out1) := MarkIfGone(l, players, out, l.player1.value, now);
    if l.player2.Some? then MarkIfGone(l, ps1, out1, l.player2.value, now) else (ps1, out1)
  }

  /** Both short checks together mark exactly as Marked says and keep the
      sends made so far. */
  lemma ShortChecksSpec(l: Lobby, players: map<string, Player>, out: seq<Outgoing>, now: int)
    requires SeatsKnown(l, players)
    ensures ShortChecks(l, players, out, now).0 == Marked(l, players, now)
    ensures |out| <= |ShortChecks(l, players, out, now).1|
    ensures ShortChecks(l, players, out, now).1[..|out|] == out
  {
    var n1 := l.player1.value;
    var a := MarkIfGone(l, players, out, n1, now);
    MarkIfGoneSpec(l, players, out, n1, now);
    if l.player2.Some? {
      MarkIfGoneSpec(l, a.0, a.1, l.player2.value, now);
      assert a.0[n1 := a.0[n1]] == a.0;
    }
  }

  /** The sweep's first steps are the short checks. */
  lemma SweepUnfold(l: Lobby, players: map<string, Player>, out: seq<Outgoing>, now: int)
    requires SeatsKnown(l, players)
    ensures var (ps, o) := ShortChecks(l, players, out, now);
      var n1 := l.player1.value;
      var r := SweepLobby(l, players, out, now);
      && (l.player2.None? ==> r == if ps[n1].disconnected && !players[n1].disconnected then Swept(ps - {n1}, o, true) else Swept(ps, o, false))
      && (l.player2.Some? ==>
            var n2 := l.player2.value;
            var long1 := ps[n1].disconnected && Unseen(ps, n1, now) > LongDisconnectThreshold;
            var long2 := ps[n2].disconnected && Unseen(ps, n2, now) > LongDisconnectThreshold;
            var other := if long2 then n1 else n2;
            r == if long1 || long2 then
                   Swept(ps - {n1, n2}, o + (if !ps[other].disconnected then [Outgoing(ps[other].address, GameOver(other, AbandonedGame))] else []), true)
                 else Swept(ps, o, false))
  {
  }

  /** The sweep of one shaped lobby deletes it exactly when it is
      abandoned. */
  lemma SweepDeletes(l: Lobby, players: map<string, Player>, out: seq<Outgoing>, now: int)
    requires Shaped(l, players)
    ensures SweepLobby(l, players, out, now).delete <==> Abandoned(l, players, now)
  {
    SweepUnfold(l, players, out, now);
    ShortChecksSpec(l, players, out, now);
  }

  /** A deleted lobby's players leave the table; a kept lobby's players
      are marked as the short checks say; nobody else changes; the sends
      made so far stay. */
  lemma SweepPlayers(l: Lobby, players: map<string, Player>, out: seq<Outgoing>, now: int)
    requires SeatsKnown(l, players)
    ensures var r := SweepLobby(l, players, out, now);
      && r.players == (if r.delete then players - SeatNames(l) else Marked(l, players, now))
      && |out| <= |r.out| && r.out[..|out|] == out
  {
    SweepUnfold(l, players, out, now);
    ShortChecksSpec(l, players, out, now);
  }

  /** The sweep of one lobby changes no record but its connection flag. */
  lemma SweepFlagsOnly(l: Lobby, players: map<string, Player>, out: seq<Outgoing>, now: int)
    requires SeatsKnown(l, players)
    ensures var ps := SweepLobby(l, players, out, now).players;
      forall n :: n in ps ==> n in players && ps[n] == players[n].(disconnected := ps[n].disconnected)
  {
    SweepPlayers(l, players, out, now);
  }

  /** When a full lobby is abandoned, the opponent of the player unseen
      for more than 60 s (seat 2's when both are) is told that the game was
      abandoned, provided the short check left them connected; a kept
      lobby sends nothing beyond the short checks' notices. */
  lemma SweepEndsGame(l: Lobby, players: map<string, Player>, out: seq<Outgoing>, now: int)
    requires Shaped(l, players) && IsFull(l)
    ensures var r := SweepLobby(l, players, out, now);
      var ps := Marked(l, players, now);
      var (n1, n2) := (l.player1.value, l.player2.value);
      var other := if Unseen(players, n2, now) > LongDisconnectThreshold then n1 else n2;
      var o := ShortChecks(l, players, out, now).1;
      r.out == if r.delete && !ps[other].disconnected then o + [Outgoing(ps[other].address, GameOver(other, AbandonedGame))] else o
  {
    SweepUnfold(l, players, out, now);
    ShortChecksSpec(l, players, out, now);
  }

  // ---------------------------------------------------------------------
  // The sweep over all lobbies
  // ---------------------------------------------------------------------

  /** `q` holds the same records as `p` for everyone seated in `l`. */
  predicate Agrees(l: Lobby, p: map<string, Player>, q: map<string, Player>)
  {
    && (l.player1.Some? && l.player1.value in p ==> l.player1.value in q && q[l.player1.value] == p[l.player1.value])
    && (l.player2.Some? && l.player2.value in p ==> l.player2.value in q && q[l.player2.value] == p[l.player2.value])
  }

  /** Whether a lobby is shaped, sound or abandoned depends only on its
      seats' records. */
  lemma AgreesKeepsLobby(l: Lobby, p: map<string, Player>, q: map<string, Player>, now: int)
    requires SeatsKnown(l, p) && Agrees(l, p, q)
    ensures SeatsKnown(l, q)
    ensures Shaped(l, p) ==> Shaped(l, q)
    ensures LobbyOk(l, p) ==> LobbyOk(l, q)
    ensures Abandoned(l, q, now) == Abandoned(l, p, now)
  {
    assert HandOf(q, l.player1) == HandOf(p, l.player1);
    assert HandOf(q, l.player2) == HandOf(p, l.player2);
  }

  /** One lobby's pass leaves the records of everyone seated in another
      lobby as they were. */
  lemma PassAgrees(lobbies: seq<Lobby>, players: map<string, Player>, out: seq<Outgoing>, now: int, k: nat, j: nat)
    requires forall i :: 0 <= i < |lobbies| ==> SeatsKnown(lobbies[i], players)
    requires SeatsDisjoint(lobbies)
    requires k < |lobbies| && j < |lobbies| && j != k
    ensures Agrees(lobbies[j], players, SweepLobby(lobbies[k], players, out, now).players)
  {
    SweepPlayers(lobbies[k], players, out, now);
    assert Apart(lobbies[j], lobbies[k]);
    assert SeatsKnown(lobbies[k], players);
  }

  /** A lobby the sweep keeps stays shaped, and sound if it was: only the
      connection flags of its players change, and a lone player who is
      kept was not marked. */
  lemma KeptLobby(l: Lobby, players: map<string, Player>, out: seq<Outgoing>, now: int)
    requires Shaped(l, players)
    ensures var r := SweepLobby(l, players, out, now);
      !r.delete ==> Shaped(l, r.players) && (LobbyOk(l, players) ==> LobbyOk(l, r.players))
  {
    SweepDeletes(l, players, out, now);
    SweepPlayers(l, players, out, now);
    var ps := Marked(l, players, now);
    assert HandOf(ps, l.player1) == HandOf(players, l.player1);
    assert HandOf(ps, l.player2) == HandOf(players, l.player2);
  }

  /** The lobbies without the one at index k. */
  function Without(lobbies: seq<Lobby>, k: nat): seq<Lobby>
    requires k < |lobbies|
  {
    lobbies[..k] + lobbies[k + 1..]
  }

  /** Dropping a lobby keeps the rest apart, and every lobby of what is
      left is one of the lobbies other than the k-th. */
  lemma WithoutIndex(lobbies: seq<Lobby>, k: nat)
    requires k < |lobbies|
    ensures |Without(lobbies, k)| == |lobbies| - 1
    ensures forall j :: 0 <= j < |lobbies| - 1 ==> Without(lobbies, k)[j] == lobbies[if j < k then j else j + 1]
    ensures SeatsDisjoint(lobbies) ==> SeatsDisjoint(Without(lobbies, k))
  {
    var w := Without(lobbies, k);
    if SeatsDisjoint(lobbies) {
      forall a, b | 0 <= a < |w| && 0 <= b < |w| && a != b ensures Apart(w[a], w[b]) {
        assert Apart(lobbies[if a < k then a else a + 1], lobbies[if b < k then b else b + 1]);
      }
    }
  }

  /** Dropping a lobby keeps the others sound. */
  lemma WithoutOk(lobbies: seq<Lobby>, players: map<string, Player>, k: nat)
    requires k < |lobbies|
    requires forall j :: 0 <= j < |lobbies| && j != k ==> LobbyOk(lobbies[j], players)
    ensures forall j :: 0 <= j < |Without(lobbies, k)| ==> LobbyOk(Without(lobbies, k)[j], players)
  {
    WithoutIndex(lobbies, k);
    var w := Without(lobbies, k);
    forall j | 0 <= j < |w| ensures LobbyOk(w[j], players) {
      assert w[j] == lobbies[if j < k then j else j + 1];
    }
  }

  /** One lobby's pass keeps the table well formed, without that lobby
      when it is deleted. */
  lemma PassFormed(lobbies: seq<Lobby>, players: map<string, Player>, out: seq<Outgoing>, now: int, k: nat)
    requires Formed(lobbies, players) && k < |lobbies|
    ensures var r := SweepLobby(lobbies[k], players, out, now);
      Formed(if r.delete then Without(lobbies, k) else lobbies, r.players)
  {
    var r := SweepLobby(lobbies[k], players, out, now);
    assert forall i :: 0 <= i < |lobbies| ==> SeatsKnown(lobbies[i], players) by {
      forall i | 0 <= i < |lobbies| ensures SeatsKnown(lobbies[i], players) {
        assert Shaped(lobbies[i], players);
      }
    }
    forall j | 0 <= j < |lobbies| && j != k ensures Shaped(lobbies[j], r.players) {
      PassAgrees(lobbies, players, out, now, k, j);
      AgreesKeepsLobby(lobbies[j], players, r.players, now);
    }
    KeptLobby(lobbies[k], players, out, now);
    WithoutIndex(lobbies, k);
  }

  /** After one lobby's pass every other lobby is still sound, and so is
      that lobby when it is kept. */
  lemma PassLobbiesOk(lobbies: seq<Lobby>, players: map<string, Player>, out: seq<Outgoing>, now: int, k: nat)
    requires Valid(State(lobbies, players, out)) && k < |lobbies|
    ensures var r := SweepLobby(lobbies[k], players, out, now);
      && (forall j :: 0 <= j < |lobbies| && j != k ==> LobbyOk(lobbies[j], r.players))
      && (!r.delete ==> LobbyOk(lobbies[k], r.players))
  {
    var r := SweepLobby(lobbies[k], players, out, now);
    assert forall i :: 0 <= i < |lobbies| ==> SeatsKnown(lobbies[i], players) by {
      forall i | 0 <= i < |lobbies| ensures SeatsKnown(lobbies[i], players) {
        assert LobbyOk(lobbies[i], players);
      }
    }
    forall j | 0 <= j < |lobbies| && j != k ensures LobbyOk(lobbies[j], r.players) {
      assert LobbyOk(lobbies[j], players);
      PassAgrees(lobbies, players, out, now, k, j);
      AgreesKeepsLobby(lobbies[j], players, r.players, now);
    }
    assert LobbyOk(lobbies[k], players);
    KeptLobby(lobbies[k], players, out, now);
  }

  /** One lobby's pass keeps the server invariant: the records that stay
      are filed under their own names and every lobby left is sound. */
  lemma PassValid(lobbies: seq<Lobby>, players: map<string, Player>, out: seq<Outgoing>, now: int, k: nat)
    requires Valid(State(lobbies, players, out)) && k < |lobbies|
    ensures var r := SweepLobby(lobbies[k], players, out, now);
      Valid(State(if r.delete then Without(lobbies, k) else lobbies, r.players, r.out))
  {
    var r := SweepLobby(lobbies[k], players, out, now);
    assert forall n :: n in r.players ==> r.players[n].name == n by {
      assert SeatsKnown(lobbies[k], players) by { assert LobbyOk(lobbies[k], players); }
      SweepFlagsOnly(lobbies[k], players, out, now);
    }
    PassLobbiesOk(lobbies, players, out, now, k);
    WithoutIndex(lobbies, k);
    WithoutOk(lobbies, r.players, k);
  }

  /** What SweepAll asks of the lobbies still to sweep. */
  predicate Sweepable(lobbies: seq<Lobby>, players: map<string, Player>)
  {
    (forall i :: 0 <= i < |lobbies| ==> SeatsKnown(lobbies[i], players)) && SeatsDisjoint(lobbies)
  }

  /** The lobbies after the ones already swept are ready for the sweep. */
  lemma SuffixSweepable(done: seq<Lobby>, lobbies: seq<Lobby>, players: map<string, Player>)
    requires Formed(done + lobbies, players)
    ensures Sweepable(lobbies, players)
  {
    var all := done + lobbies;
    forall i | 0 <= i < |lobbies| ensures SeatsKnown(lobbies[i], players) {
      assert all[|done| + i] == lobbies[i];
      assert Shaped(all[|done| + i], players);
    }
    forall a, b | 0 <= a < |lobbies| && 0 <= b < |lobbies| && a != b ensures Apart(lobbies[a], lobbies[b]) {
      assert all[|done| + a] == lobbies[a] && all[|done| + b] == lobbies[b];
      assert Apart(all[|done| + a], all[|done| + b]);
    }
  }

  /** A sound table is a well-formed one. */
  lemma ValidFormed(st: State)
    requires Valid(st)
    ensures WellFormed(st)
  {
    forall i | 0 <= i < |st.lobbies| ensures Shaped(st.lobbies[i], st.players) {
      assert LobbyOk(st.lobbies[i], st.players);
    }
  }

  /** The lobbies kept so far after one more pass. */
  function KeptSoFar(done: seq<Lobby>, l: Lobby, delete: bool): seq<Lobby>
  {
    if delete then done else done + [l]
  }

  /** Sweeping the next lobby keeps the table well formed. */
  lemma StepFormed(done: seq<Lobby>, lobbies: seq<Lobby>, players: map<string, Player>, out: seq<Outgoing>, now: int)
    requires Formed(done + lobbies, players)
    requires Sweepable(lobbies, players) && lobbies != []
    ensures var r := SweepLobby(lobbies[0], players, out, now);
      Formed(KeptSoFar(done, lobbies[0], r.delete) + lobbies[1..], r.players)
  {
    var all := done + lobbies;
    var k := |done|;
    assert all[k] == lobbies[0];
    PassFormed(all, players, out, now, k);
    assert Without(all, k) == done + lobbies[1..];
    assert all == (done + [lobbies[0]]) + lobbies[1..];
  }

  /** Sweeping the next lobby keeps the server invariant. */
  lemma StepValid(done: seq<Lobby>, lobbies: seq<Lobby>, players: map<string, Player>, out: seq<Outgoing>, now: int)
    requires Valid(State(done + lobbies, players, out))
    requires Sweepable(lobbies, players) && lobbies != []
    ensures var r := SweepLobby(lobbies[0], players, out, now);
      Valid(State(KeptSoFar(done, lobbies[0], r.delete) + lobbies[1..], r.players, r.out))
  {
    var all := done + lobbies;
    var k := |done|;
    assert all[k] == lobbies[0];
    PassValid(all, players, out, now, k);
    assert Without(all, k) == done + lobbies[1..];
    assert all == (done + [lobbies[0]]) + lobbies[1..];
  }

  /** The lobbies SweepAll keeps, after the ones kept so far. */
  lemma SweepAllKeptSoFar(done: seq<Lobby>, lobbies: seq<Lobby>, players: map<string, Player>, out: seq<Outgoing>, now: int)
    requires Sweepable(lobbies, players) && lobbies != []
    ensures var r := SweepLobby(lobbies[0], players, out, now);
      Sweepable(lobbies[1..], r.players)
      && done + SweepAll(lobbies, players, out, now).kept == KeptSoFar(done, lobbies[0], r.delete) + SweepAll(lobbies[1..], r.players, r.out, now).kept
      && SweepAll(lobbies, players, out, now).players == SweepAll(lobbies[1..], r.players, r.out, now).players
      && SweepAll(lobbies, players, out, now).out == SweepAll(lobbies[1..], r.players, r.out, now).out
  {
    var r := SweepLobby(lobbies[0], players, out, now);
    SweepTail(lobbies, players, r.players);
    var rest := SweepAll(lobbies[1..], r.players, r.out, now);
    assert (done + [lobbies[0]]) + rest.kept == done + ([lobbies[0]] + rest.kept);
  }

  /** Sweeping the lobbies after `done` (already swept and kept) leaves a
      well-formed table. */
  lemma {:induction false} SweepAllFormed(done: seq<Lobby>, lobbies: seq<Lobby>, players: map<string, Player>, out: seq<Outgoing>, now: int)
    requires Formed(done + lobbies, players)
    requires Sweepable(lobbies, players)
    ensures var s := SweepAll(lobbies, players, out, now);
      Formed(done + s.kept, s.players)
    decreases |lobbies|
  {
    if lobbies == [] {
      assert done + lobbies == done;
    } else {
      var r := SweepLobby(lobbies[0], players, out, now);
      StepFormed(done, lobbies, players, out, now);
      SweepAllKeptSoFar(done, lobbies, players, out, now);
      SweepAllFormed(KeptSoFar(done, lobbies[0], r.delete), lobbies[1..], r.players, r.out, now);
    }
  }

  /** Sweeping the lobbies after `done` keeps the server invariant. */
  lemma {:induction false} SweepAllValid(done: seq<Lobby>, lobbies: seq<Lobby>, players: map<string, Player>, out: seq<Outgoing>, now: int)
    requires Valid(State(done + lobbies, players, out))
    requires Sweepable(lobbies, players)
    ensures var s := SweepAll(lobbies, players, out, now);
      Valid(State(done + s.kept, s.players, s.out))
    decreases |lobbies|
  {
    if lobbies == [] {
      assert done + lobbies == done;
    } else {
      var r := SweepLobby(lobbies[0], players, out, now);
      StepValid(done, lobbies, players, out, now);
      SweepAllKeptSoFar(done, lobbies, players, out, now);
      SweepAllValid(KeptSoFar(done, lobbies[0], r.delete), lobbies[1..], r.players, r.out, now);
    }
  }

  /** check_disconnections keeps the table well formed. */
  lemma CheckDisconnectionsFormed(st: State, now: int)
    requires WellFormed(st)
    ensures WellFormed(CheckDisconnections(st, now))
  {
    assert [] + st.lobbies == st.lobbies;
    SuffixSweepable([], st.lobbies, st.players);
    SweepAllFormed([], st.lobbies, st.players, st.outbox, now);
    assert [] + SweepAll(st.lobbies, st.players, st.outbox, now).kept == CheckDisconnections(st, now).lobbies;
  }

  /** check_disconnections keeps the server invariant. */
  lemma CheckDisconnectionsValid(st: State, now: int)
    requires Valid(st)
    ensures Valid(CheckDisconnections(st, now))
  {
    ValidFormed(st);
    assert [] + st.lobbies == st.lobbies;
    SuffixSweepable([], st.lobbies, st.players);
    SweepAllValid([], st.lobbies, st.players, st.outbox, now);
    assert [] + SweepAll(st.lobbies, st.players, st.outbox, now).kept == CheckDisconnections(st, now).lobbies;
  }

  /** The lobbies that are not abandoned, in order. */
  function Survivors(lobbies: seq<Lobby>, players: map<string, Player>, now: int): seq<Lobby>
    requires forall i :: 0 <= i < |lobbies| ==> SeatsKnown(lobbies[i], players)
  {
    if lobbies == [] then []
    else (if Abandoned(lobbies[0], players, now) then [] else [lobbies[0]]) + Survivors(lobbies[1..], players, now)
  }

  /** Survivors depend only on the seated players' records. */
  lemma {:induction false} SurvivorsAgree(lobbies: seq<Lobby>, p: map<string, Player>, q: map<string, Player>, now: int)
    requires forall i :: 0 <= i < |lobbies| ==> SeatsKnown(lobbies[i], p) && Agrees(lobbies[i], p, q)
    ensures forall i :: 0 <= i < |lobbies| ==> SeatsKnown(lobbies[i], q)
    ensures Survivors(lobbies, q, now) == Survivors(lobbies, p, now)
  {
    forall i | 0 <= i < |lobbies| ensures SeatsKnown(lobbies[i], q) {
      AgreesKeepsLobby(lobbies[i], p, q, now);
    }
    if lobbies != [] {
      AgreesKeepsLobby(lobbies[0], p, q, now);
      SurvivorsAgree(lobbies[1..], p, q, now);
    }
  }

  /** The first lobby's pass does not change which of the others survive. */
  lemma RestSurvives(lobbies: seq<Lobby>, players: map<string, Player>, out: seq<Outgoing>, now: int)
    requires Sweepable(lobbies, players) && lobbies != []
    ensures var ps := SweepLobby(lobbies[0], players, out, now).players;
      && (forall i :: 0 <= i < |lobbies[1..]| ==> SeatsKnown(lobbies[1..][i], ps))
      && Survivors(lobbies[1..], ps, now) == Survivors(lobbies[1..], players, now)
  {
    var ps := SweepLobby(lobbies[0], players, out, now).players;
    forall j | 0 <= j < |lobbies[1..]| ensures SeatsKnown(lobbies[1..][j], players) && Agrees(lobbies[1..][j], players, ps) {
      PassAgrees(lobbies, players, out, now, 0, j + 1);
    }
    SurvivorsAgree(lobbies[1..], players, ps, now);
  }

  /** The lobbies after the ones already swept are well formed. */
  lemma FormedSuffix(done: seq<Lobby>, lobbies: seq<Lobby>, players: map<string, Player>)
    requires Formed(done + lobbies, players)
    ensures Formed(lobbies, players)
  {
    var all := done + lobbies;
    forall i | 0 <= i < |lobbies| ensures Shaped(lobbies[i], players) {
      assert all[|done| + i] == lobbies[i];
    }
    SuffixSweepable(done, lobbies, players);
  }

  /** The sweep keeps exactly the lobbies that are not abandoned, in their
      order: a lobby's fate is decided by its own players' clocks, which
      the passes over the other lobbies do not touch. */
  lemma {:induction false} SweepAllKept(lobbies: seq<Lobby>, players: map<string, Player>, out: seq<Outgoing>, now: int)
    requires Formed(lobbies, players)
    ensures Sweepable(lobbies, players)
    ensures SweepAll(lobbies, players, out, now).kept == Survivors(lobbies, players, now)
    decreases |lobbies|
  {
    assert [] + lobbies == lobbies;
    SuffixSweepable([], lobbies, players);
    if lobbies != [] {
      var r := SweepLobby(lobbies[0], players, out, now);
      SweepDeletes(lobbies[0], players, out, now);
      StepFormed([], lobbies, players, out, now);
      FormedSuffix(KeptSoFar([], lobbies[0], r.delete), lobbies[1..], r.players);
      SweepAllKeptSoFar([], lobbies, players, out, now);
      SweepAllKept(lobbies[1..], r.players, r.out, now);
      RestSurvives(lobbies, players, out, now);
    }
  }
}
