/**
 * Playing cards shared by the server (game_server/card.h, card.cpp) and the
 * client (client/card.py), the two orders in which the decks are built,
 * and the Fisher-Yates shuffle behind std::shuffle and random.shuffle.
 */
module Cards {

  /** A card: the client calls `value` the rank. Suits are the four
      one-symbol strings below; nothing here depends on their encoding. */
  datatype Card = Card(suit: string, value: string)

  const Suits: seq<string> := ["♥", "♦", "♣", "♠"]
  const Values: seq<string> := ["7", "8", "9", "10", "J", "Q", "K", "A"]
  const DeckSize: nat := 32

  /** Card::to_string and Card.__str__: the value followed by the suit. */
  function ToString(c: Card): string
  {
    c.value + c.suit
  }

  predicate IsStandard(c: Card)
  {
    c.suit in Suits && c.value in Values
  }

  predicate Distinct<T(==)>(s: seq<T>)
  {
    forall i, j :: 0 <= i < j < |s| ==> s[i] != s[j]
  }

  /** The order of Deck::Deck: suits outermost, values innermost. */
  function SuitMajorDeck(): (d: seq<Card>)
    ensures |d| == DeckSize
  {
    seq(DeckSize, i requires 0 <= i < DeckSize => Card(Suits[i / 8], Values[i % 8]))
  }

  /** The order of the client's Deck.__init__: ranks outermost, suits innermost. */
  function RankMajorDeck(): (d: seq<Card>)
    ensures |d| == DeckSize
  {
    seq(DeckSize, i requires 0 <= i < DeckSize => Card(Suits[i % 4], Values[i / 4]))
  }

  lemma SuitsOneSymbol(s: string)
    requires s in Suits
    ensures |s| == 1
  {
  }

  /** On standard cards the text form determines the card, so the server's
      search of a hand by `to_string` identifies the card uniquely. */
  lemma ToStringInjective(a: Card, b: Card)
    requires IsStandard(a) && IsStandard(b)
    requires ToString(a) == ToString(b)
    ensures a == b
  {
    SuitsOneSymbol(a.suit);
    SuitsOneSymbol(b.suit);
    var t := ToString(a);
    assert a.suit == t[|t| - 1..];
    assert b.suit == t[|t| - 1..];
    assert a.value == t[..|t| - 1];
    assert b.value == t[..|t| - 1];
  }

  lemma SuitsDistinct()
    ensures Distinct(Suits)
  {
  }

  lemma ValuesDistinct()
    ensures Distinct(Values)
  {
  }

  /** Every standard card sits exactly once in the server's deck order. */
  lemma SuitMajorDeckIsComplete()
    ensures Distinct(SuitMajorDeck())
    ensures forall c :: c in SuitMajorDeck() <==> IsStandard(c)
  {
    var d := SuitMajorDeck();
    SuitsDistinct();
    ValuesDistinct();
    forall i, j | 0 <= i < j < |d| ensures d[i] != d[j] {
      if i / 8 == j / 8 {
        assert i % 8 != j % 8;
      }
    }
    forall c | IsStandard(c) ensures c in d {
      var si :| 0 <= si < 4 && Suits[si] == c.suit;
      var vi :| 0 <= vi < 8 && Values[vi] == c.value;
      assert d[8 * si + vi] == c;
    }
  }

  /** Every standard card sits exactly once in the client's deck order. */
  lemma RankMajorDeckIsComplete()
    ensures Distinct(RankMajorDeck())
    ensures forall c :: c in RankMajorDeck() <==> IsStandard(c)
  {
    var d := RankMajorDeck();
    SuitsDistinct();
    ValuesDistinct();
    forall i, j | 0 <= i < j < |d| ensures d[i] != d[j] {
      if i / 4 == j / 4 {
        assert i % 4 != j % 4;
      }
    }
    forall c | IsStandard(c) ensures c in d {
      var si :| 0 <= si < 4 && Suits[si] == c.suit;
      var vi :| 0 <= vi < 8 && Values[vi] == c.value;
      assert d[4 * vi + si] == c;
    }
  }

  lemma {:induction false} DistinctCount<T>(s: seq<T>, x: T)
    requires Distinct(s)
    ensures multiset(s)[x] == if x in s then 1 else 0
  {
    if s != [] {
      assert s == [s[0]] + s[1..];
      assert Distinct(s[1..]) by {
        forall i, j | 0 <= i < j < |s[1..]| ensures s[1..][i] != s[1..][j] {
          assert s[1..][i] == s[i + 1] && s[1..][j] == s[j + 1];
        }
      }
      DistinctCount(s[1..], x);
      if x == s[0] {
        assert x !in s[1..] by {
          forall k | 0 <= k < |s[1..]| ensures s[1..][k] != x {
            assert s[1..][k] == s[k + 1];
          }
        }
      }
    }
  }

  /** Two sequences without repeats that hold the same elements are permutations of each other. */
  lemma DistinctSameElements<T>(s: seq<T>, t: seq<T>)
    requires Distinct(s) && Distinct(t)
    requires forall x :: x in s <==> x in t
    ensures multiset(s) == multiset(t)
  {
    forall x ensures multiset(s)[x] == multiset(t)[x] {
      DistinctCount(s, x);
      DistinctCount(t, x);
    }
  }

  /** The client and the server build the same 32 cards, in different orders. */
  lemma DeckOrdersArePermutations()
    ensures multiset(RankMajorDeck()) == multiset(SuitMajorDeck())
  {
    SuitMajorDeckIsComplete();
    RankMajorDeckIsComplete();
    DistinctSameElements(RankMajorDeck(), SuitMajorDeck());
  }

  function Swap<T>(s: seq<T>, i: nat, j: nat): seq<T>
    requires i < |s| && j < |s|
  {
    s[i := s[j]][j := s[i]]
  }

  lemma SwapPermutes<T>(s: seq<T>, i: nat, j: nat)
    requires i < |s| && j < |s|
    ensures multiset(Swap(s, i, j)) == multiset(s)
  {
    var t := s[i := s[j]];
    assert multiset(t) == multiset(s) - multiset{s[i]} + multiset{s[j]};
    assert multiset(t[j := s[i]]) == multiset(t) - multiset{t[j]} + multiset{s[i]};
  }

  /** The roll used at step `n` of the shuffle; an exhausted roll source reads as 0. */
  function Roll(rolls: seq<nat>): nat
  {
    if rolls == [] then 0 else rolls[0]
  }

  function NextRolls(rolls: seq<nat>): seq<nat>
  {
    if rolls == [] then [] else rolls[1..]
  }

  /** The Fisher-Yates loop of std::shuffle and random.shuffle over the first
      `n` positions: position n-1 is swapped with a position below n chosen
      by the next roll, then the first n-1 positions are shuffled. */
  function FisherYates<T>(s: seq<T>, n: nat, rolls: seq<nat>): seq<T>
    requires n <= |s|
    decreases n
  {
    if n <= 1 then s
    else FisherYates(Swap(s, n - 1, Roll(rolls) % n), n - 1, NextRolls(rolls))
  }

  /** A shuffle of the whole sequence; the rolls stand for the random generator's output. */
  function Shuffle<T>(s: seq<T>, rolls: seq<nat>): seq<T>
  {
    FisherYates(s, |s|, rolls)
  }

  lemma {:induction false} FisherYatesPermutes<T>(s: seq<T>, n: nat, rolls: seq<nat>)
    requires n <= |s|
    ensures |FisherYates(s, n, rolls)| == |s|
    ensures multiset(FisherYates(s, n, rolls)) == multiset(s)
    decreases n
  {
    if n > 1 {
      var t := Swap(s, n - 1, Roll(rolls) % n);
      SwapPermutes(s, n - 1, Roll(rolls) % n);
      FisherYatesPermutes(t, n - 1, NextRolls(rolls));
    }
  }

  /** Whatever the random generator produces, a shuffle is a permutation. */
  lemma ShufflePermutes<T>(s: seq<T>, rolls: seq<nat>)
    ensures |Shuffle(s, rolls)| == |s|
    ensures multiset(Shuffle(s, rolls)) == multiset(s)
  {
    FisherYatesPermutes(s, |s|, rolls);
  }
}
