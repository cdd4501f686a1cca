/**
 * The client's rule helpers: the Player of client/player.py (a hand and the
 * legal-play rule) and the Deck of client/deck.py (a rank-major 32-card deck
 * dealt from the front, with a discard pile).
 */
module ClientRules {
  import opened Wrappers
  import opened Cards

  // ---- the legal-play rule ----

  /** `if allowed_suite:` — a suit was chosen, and it is not the empty text. */
  predicate SuitChosen(allowedSuite: Option<string>)
  {
    allowedSuite.Some? && allowedSuite.value != ""
  }

  /** Player.play_card's test: the chosen suit, or else (and also) the top
      discard's suit or rank, or a queen. */
  predicate Legal(card: Card, top: Card, allowedSuite: Option<string>)
  {
    (SuitChosen(allowedSuite) && card.suit == allowedSuite.value) ||
    card.suit == top.suit || card.value == top.value || card.value == "Q"
  }

  /** A chosen suit that the card does not have does not forbid the play:
      the top discard's suit or rank, or a queen, still make it legal. */
  lemma ChosenSuitDoesNotForbid(card: Card, top: Card, allowedSuite: Option<string>)
    ensures Legal(card, top, allowedSuite) <==>
      Legal(card, top, None) || (SuitChosen(allowedSuite) && card.suit == allowedSuite.value)
    ensures card.value == "Q" ==> Legal(card, top, allowedSuite)
  {
  }

  // ---- list.remove ----

  /** The position of the first occurrence of `x`. */
  function FirstIndex<T(==)>(s: seq<T>, x: T): (k: nat)
    requires x in s
    ensures k < |s| && s[k] == x && x !in s[..k]
  {
    if s[0] == x then 0
    else
      var k := FirstIndex(s[1..], x);
      assert s[..k + 1] == [s[0]] + s[1..][..k];
      k + 1
  }

  /** list.remove(x) on a list that holds `x`: the first occurrence goes. */
  function RemoveFirst<T(==)>(s: seq<T>, x: T): seq<T>
  {
    if s == [] then []
    else if s[0] == x then s[1..]
    else [s[0]] + RemoveFirst(s[1..], x)
  }

  /** Removing keeps the order of the other cards: everything before the
      first occurrence, then everything after it. */
  lemma {:induction false} RemoveFirstCuts<T>(s: seq<T>, x: T)
    requires x in s
    ensures RemoveFirst(s, x) == s[..FirstIndex(s, x)] + s[FirstIndex(s, x) + 1..]
  {
    if s[0] != x {
      assert x in s[1..];
      RemoveFirstCuts(s[1..], x);
      var k := FirstIndex(s[1..], x);
      assert s[..k + 1] == [s[0]] + s[1..][..k];
      assert s[k + 2..] == s[1..][k + 1..];
    }
  }

  /** Exactly one copy leaves the hand, and the hand shrinks by one. */
  lemma RemoveFirstCounts<T>(s: seq<T>, x: T)
    requires x in s
    ensures |RemoveFirst(s, x)| == |s| - 1
    ensures multiset(RemoveFirst(s, x)) == multiset(s) - multiset{x}
  {
    var k := FirstIndex(s, x);
    RemoveFirstCuts(s, x);
    assert s == s[..k] + [x] + s[k + 1..];
    assert multiset(s) == multiset(s[..k]) + multiset{x} + multiset(s[k + 1..]);
  }

  /** ValueError: list.remove(x): x not in list. */
  datatype PlayError = ValueError

  /** play_card's result: False for an illegal card, True when the legal card
      was removed, ValueError when a legal card is not in the hand. */
  function PlayResult(hand: seq<Card>, card: Card, top: Card, allowedSuite: Option<string>): (r: Result<bool, PlayError>)
  {
    if !Legal(card, top, allowedSuite) then Ok(false)
    else if card in hand then Ok(true)
    else Err(ValueError)
  }

  /** The hand after play_card: without the card when it was played. */
  function HandAfterPlay(hand: seq<Card>, card: Card, top: Card, allowedSuite: Option<string>): seq<Card>
  {
    if PlayResult(hand, card, top, allowedSuite) == Ok(true) then RemoveFirst(hand, card) else hand
  }

  /** The three outcomes of play_card, and what each does to the hand. */
  lemma PlaySpec(hand: seq<Card>, card: Card, top: Card, allowedSuite: Option<string>)
    ensures var r := PlayResult(hand, card, top, allowedSuite);
      var after := HandAfterPlay(hand, card, top, allowedSuite);
      (r == Ok(true) <==> Legal(card, top, allowedSuite) && card in hand) &&
      (r == Ok(false) <==> !Legal(card, top, allowedSuite)) &&
      (r.Err? <==> Legal(card, top, allowedSuite) && card !in hand) &&
      (r == Ok(true) ==> |after| == |hand| - 1 && multiset(after) + multiset{card} == multiset(hand)) &&
      (r != Ok(true) ==> after == hand)
  {
    if PlayResult(hand, card, top, allowedSuite) == Ok(true) {
      RemoveFirstCounts(hand, card);
    }
  }

  class Player {
    var name: Option<string>
    var hand: seq<Card>

    constructor (name: Option<string>)
      ensures this.name == name && hand == []
    {
      this.name := name;
      hand := [];
    }

    /** draw_card: a present card joins the end of the hand; None changes nothing. */
    method DrawCard(card: Option<Card>)
      modifies this
      ensures hand == old(hand) + if card.Some? then [card.value] else []
      ensures name == old(name)
    {
      if card.Some? {
        hand := hand + [card.value];
      }
    }

    /** list.remove on the hand. */
    method Remove(card: Card) returns (r: Result<bool, PlayError>)
      modifies this
      ensures card in old(hand) ==> r == Ok(true) && hand == RemoveFirst(old(hand), card)
      ensures card !in old(hand) ==> r == Err(ValueError) && hand == old(hand)
      ensures name == old(name)
    {
      if card !in hand {
        return Err(ValueError);
      }
      hand := RemoveFirst(hand, card);
      return Ok(true);
    }

    method PlayCard(card: Card, top: Card, allowedSuite: Option<string>) returns (r: Result<bool, PlayError>)
      modifies this
      ensures r == PlayResult(old(hand), card, top, allowedSuite)
      ensures hand == HandAfterPlay(old(hand), card, top, allowedSuite)
      ensures name == old(name)
    {
      if SuitChosen(allowedSuite) {
        if card.suit == allowedSuite.value {
          r := Remove(card);
          return;
        }
      }
      if card.suit == top.suit || card.value == top.value || card.value == "Q" {
        r := Remove(card);
        return;
      }
      return Ok(false);
    }

    /** has_won: the hand is empty. */
    function HasWon(): (r: bool)
      reads this
      ensures r <==> hand == []
    {
      |hand| == 0
    }

    /** get_hand_size; zero exactly when the player has won. */
    function GetHandSize(): (r: nat)
      reads this
      ensures r == 0 <==> HasWon()
    {
      |hand|
    }
  }

  // ---- the deck ----

  /** Where Python's `cards[:n]` / `cards[n:]` cut a list of length `len`:
      a negative `n` counts from the end, and the cut is clipped to the list. */
  function Cut(len: nat, n: int): (k: nat)
    ensures k <= len
  {
    if n >= 0 then (if n <= len then n else len)
    else if len + n >= 0 then len + n
    else 0
  }

  /** deal(n) keeps everything: the dealt cards followed by those left are
      the old deck, and a non-negative `n` deals min(n, len) cards. */
  lemma DealSplits(cards: seq<Card>, n: int)
    ensures cards[..Cut(|cards|, n)] + cards[Cut(|cards|, n)..] == cards
    ensures n >= 0 ==> |cards[..Cut(|cards|, n)]| == if n <= |cards| then n else |cards|
    ensures n < 0 ==> |cards[Cut(|cards|, n)..]| == if -n <= |cards| then -n else |cards|
  {
  }

  /** draw_card on a deck holding `cards`: the front card and the rest, or
      None and the deck as it was. */
  function Draw(cards: seq<Card>): (Option<Card>, seq<Card>)
  {
    if cards == [] then (None, cards) else (Some(cards[0]), cards[1..])
  }

  /** Drawing a card is dealing one. */
  lemma DrawIsDealOne(cards: seq<Card>)
    ensures Draw(cards).1 == cards[Cut(|cards|, 1)..]
    ensures Draw(cards).0.Some? ==> [Draw(cards).0.value] == cards[..Cut(|cards|, 1)]
    ensures Draw(cards).0.None? <==> cards[..Cut(|cards|, 1)] == []
  {
  }

  /** get_top_discard on a pile. */
  function Top(pile: seq<Card>): Option<Card>
  {
    if pile == [] then None else Some(pile[|pile| - 1])
  }

  /** The card last added to the discard pile is its top. */
  lemma TopAfterAdd(pile: seq<Card>, card: Card)
    ensures Top(pile + [card]) == Some(card)
    ensures Top(pile).None? <==> pile == []
  {
  }

  class Deck {
    var cards: seq<Card>
    var discardPile: seq<Card>

    /** The 32 cards, ranks outermost and suits innermost, and no discards. */
    constructor ()
      ensures cards == RankMajorDeck() && discardPile == []
    {
      cards := RankMajorDeck();
      discardPile := [];
    }

    /** random.shuffle: some permutation of the cards. */
    method Shuffle(rolls: seq<nat>)
      modifies this
      ensures cards == Cards.Shuffle(old(cards), rolls)
      ensures multiset(cards) == multiset(old(cards)) && |cards| == |old(cards)|
      ensures discardPile == old(discardPile)
    {
      ShufflePermutes(cards, rolls);
      cards := Cards.Shuffle(cards, rolls);
    }

    method Deal(n: int) returns (dealt: seq<Card>)
      modifies this
      ensures dealt == old(cards)[..Cut(|old(cards)|, n)]
      ensures cards == old(cards)[Cut(|old(cards)|, n)..]
      ensures dealt + cards == old(cards)
      ensures discardPile == old(discardPile)
    {
      var k := Cut(|cards|, n);
      dealt := cards[..k];
      cards := cards[k..];
      DealSplits(old(cards), n);
    }

    method DrawCard() returns (card: Option<Card>)
      modifies this
      ensures (card, cards) == Draw(old(cards))
      ensures discardPile == old(discardPile)
    {
      if cards != [] {
        card := Some(cards[0]);
        cards := cards[1..];
        return;
      }
      return None;
    }

    method AddToDiscard(card: Card)
      modifies this
      ensures discardPile == old(discardPile) + [card]
      ensures cards == old(cards)
    {
      discardPile := discardPile + [card];
    }

    function GetTopDiscard(): (r: Option<Card>)
      reads this
      ensures r == Top(discardPile)
    {
      if discardPile != [] then Some(discardPile[|discardPile| - 1]) else None
    }
  }

  /** A fresh client deck holds each of the 32 standard cards exactly once. */
  lemma NewDeckIsComplete()
    ensures |RankMajorDeck()| == DeckSize && Distinct(RankMajorDeck())
    ensures forall c :: c in RankMajorDeck() <==> IsStandard(c)
  {
    RankMajorDeckIsComplete();
  }
}
