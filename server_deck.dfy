/**
 * The server's deck (game_server/deck.h, deck.cpp): a vector of cards used
 * as a stack, built in suit-major order and shuffled, drawn from the back.
 */
module ServerDeck {
  import opened Wrappers
  import opened Cards

  /** The std::runtime_error that draw_card throws, with its message. */
  datatype DeckError = RuntimeError(what: string)

  const EmptyDeckMessage: string := "Deck is empty"

  /** The cards of a freshly constructed deck; the rolls stand for the
      output of the random generator fed to std::shuffle. */
  function NewDeck(rolls: seq<nat>): (d: seq<Card>)
    ensures |d| == DeckSize
  {
    ShufflePermutes(SuitMajorDeck(), rolls);
    Shuffle(SuitMajorDeck(), rolls)
  }

  /** draw_card on a deck holding `cards`: the last card and what stays below it. */
  function Draw(cards: seq<Card>): (r: Result<(Card, seq<Card>), DeckError>)
    ensures r.Err? <==> cards == []
    ensures r.Err? ==> r.error == RuntimeError(EmptyDeckMessage)
    ensures r.Ok? ==> cards == r.value.1 + [r.value.0]
  {
    if cards == [] then Err(RuntimeError(EmptyDeckMessage))
    else Ok((cards[|cards| - 1], cards[..|cards| - 1]))
  }

  /** A successful draw takes exactly one card off, and that card is one of the deck's. */
  lemma DrawTakesOne(cards: seq<Card>)
    requires cards != []
    ensures |Draw(cards).value.1| == |cards| - 1
    ensures multiset(cards) == multiset(Draw(cards).value.1) + multiset{Draw(cards).value.0}
  {
    var r := Draw(cards).value;
    assert cards == r.1 + [r.0];
  }

  lemma RepeatCounts<T>(s: seq<T>, i: nat, j: nat)
    requires i < j < |s|
    ensures s[i] == s[j] ==> multiset(s)[s[i]] >= 2
  {
    assert s == s[..j] + s[j..];
    assert s[i] in s[..j];
    assert s[j] in s[j..];
    assert multiset(s)[s[i]] == multiset(s[..j])[s[i]] + multiset(s[j..])[s[i]];
  }

  lemma CountsBoundDistinct<T>(s: seq<T>)
    requires forall x :: multiset(s)[x] <= 1
    ensures Distinct(s)
  {
    forall i, j | 0 <= i < j < |s| ensures s[i] != s[j] {
      RepeatCounts(s, i, j);
    }
  }

  /** A new deck holds the 32 standard cards, each exactly once, in some order. */
  lemma NewDeckIsComplete(rolls: seq<nat>)
    ensures |NewDeck(rolls)| == DeckSize
    ensures multiset(NewDeck(rolls)) == multiset(SuitMajorDeck())
    ensures Distinct(NewDeck(rolls))
    ensures forall c :: c in NewDeck(rolls) <==> IsStandard(c)
  {
    var d := NewDeck(rolls);
    ShufflePermutes(SuitMajorDeck(), rolls);
    SuitMajorDeckIsComplete();
    forall x ensures multiset(d)[x] <= 1 {
      DistinctCount(SuitMajorDeck(), x);
    }
    CountsBoundDistinct(d);
    forall c ensures c in d <==> c in SuitMajorDeck() {
      assert c in d <==> c in multiset(d);
    }
  }

  /** The card at suit `si`, value `vi` of the suit-major order. */
  lemma SuitMajorAt(si: nat, vi: nat)
    requires si < |Suits| && vi < |Values|
    ensures 8 * si + vi < DeckSize && SuitMajorDeck()[8 * si + vi] == Card(Suits[si], Values[vi])
  {
    assert (8 * si + vi) / 8 == si && (8 * si + vi) % 8 == vi;
  }

  lemma PrefixSnoc<T>(s: seq<T>, k: nat)
    requires k < |s|
    ensures s[..k + 1] == s[..k] + [s[k]]
  {
  }

  class Deck {
    var cards: seq<Card>

    /** Deck::Deck: the suit-major nested loops, then a shuffle. */
    constructor (rolls: seq<nat>)
      ensures cards == NewDeck(rolls)
    {
      var built: seq<Card> := [];
      for si := 0 to |Suits|
        invariant built == SuitMajorDeck()[..8 * si]
      {
        for vi := 0 to |Values|
          invariant built == SuitMajorDeck()[..8 * si + vi]
        {
          SuitMajorAt(si, vi);
          PrefixSnoc(SuitMajorDeck(), 8 * si + vi);
          built := built + [Card(Suits[si], Values[vi])];
        }
      }
      assert built == SuitMajorDeck();
      cards := Shuffle(built, rolls);
    }

    /** Deck::draw_card: an error leaves the deck as it was; otherwise the
        back card is returned and popped. */
    method DrawCard() returns (r: Result<Card, DeckError>)
      modifies this
      ensures match Draw(old(cards))
        case Ok((c, rest)) => r == Ok(c) && cards == rest
        case Err(e) => r == Err(e) && cards == old(cards)
    {
      if cards == [] {
        return Err(RuntimeError(EmptyDeckMessage));
      }
      var top := cards[|cards| - 1];
      cards := cards[..|cards| - 1];
      return Ok(top);
    }

    /** Deck::size. */
    function Size(): (n: int)
      reads this
      ensures n == |cards|
    {
      |cards|
    }
  }
}
