/**
 * The scoring engine. Every ace is first counted as 11; while the total is
 * over 21 and an ace is still counted as 11, one ace is demoted to 1.
 */
module Scoring {
  import opened Cards

  /** What a card adds to the total before any ace is demoted. */
  function CardValue(c: Card): (v: nat)
    ensures 2 <= v <= 11
    ensures v == 11 <==> c.rank == Ace
  {
    if c.rank == Ace then 11
    else if IsFace(c.rank) then 10
    else Pips(c.rank)
  }

  /** The sum of the card values, every ace counted as 11. */
  function RawTotal(hand: seq<Card>): nat {
    if hand == [] then 0 else RawTotal(hand[..|hand| - 1]) + CardValue(hand[|hand| - 1])
  }

  function AceCount(hand: seq<Card>): nat {
    if hand == [] then 0
    else AceCount(hand[..|hand| - 1]) + (if hand[|hand| - 1].rank == Ace then 1 else 0)
  }

  /** What a card adds when an ace counts as 1. */
  function LowValue(c: Card): (v: nat)
    ensures 1 <= v <= 10
  {
    if c.rank == Ace then 1 else CardValue(c)
  }

  /** The total with every ace counted as 1: the least total a hand can have. */
  function LowTotal(hand: seq<Card>): (t: nat)
    ensures t == RawTotal(hand) - 10 * AceCount(hand)
    ensures t >= |hand|
    ensures AceCount(hand) <= |hand|
  {
    if hand == [] then 0 else LowTotal(hand[..|hand| - 1]) + LowValue(hand[|hand| - 1])
  }

  /** The total when exactly k aces are demoted from 11 to 1. */
  function Demoted(hand: seq<Card>, k: nat): int {
    RawTotal(hand) - 10 * k
  }

  /**
   * How many aces the scoring demotes: none when the raw total is 21 or less,
   * otherwise the fewest that bring it to 21 or below, or all of them when
   * that is not enough.
   */
  function Demotions(hand: seq<Card>): (k: nat)
    ensures k <= AceCount(hand)
    ensures Demoted(hand, k) <= 21 || k == AceCount(hand)
    ensures k > 0 ==> Demoted(hand, k - 1) > 21
  {
    var total, aces := RawTotal(hand), AceCount(hand);
    if total <= 21 then 0
    else
      var needed := (total - 12) / 10;  // the least k with total - 10 * k <= 21
      assert 10 * needed <= total - 12 < 10 * needed + 10;
      if needed <= aces then needed else aces
  }

  /** The three properties above pin the number of demotions down. */
  lemma DemotionsUnique(hand: seq<Card>, j: nat)
    requires j <= AceCount(hand)
    requires Demoted(hand, j) <= 21 || j == AceCount(hand)
    requires j > 0 ==> Demoted(hand, j - 1) > 21
    ensures j == Demotions(hand)
  {
  }

  /** The score of a hand: its raw total less 10 for every demoted ace. */
  function Score(hand: seq<Card>): (s: int)
    ensures LowTotal(hand) <= s <= RawTotal(hand)
  {
    Demoted(hand, Demotions(hand))
  }

  /**
   * The score is the best total any choice of 1 or 11 per ace can give: the
   * highest of them that is 21 or less, or the lowest total when all bust.
   */
  lemma ScoreIsBestChoice(hand: seq<Card>)
    ensures exists k: nat | k <= AceCount(hand) :: Score(hand) == Demoted(hand, k)
    ensures Score(hand) <= 21 || Score(hand) == LowTotal(hand)
    ensures forall k: nat | k <= AceCount(hand) && Demoted(hand, k) <= 21 :: Demoted(hand, k) <= Score(hand)
    ensures Score(hand) > 21 ==> forall k: nat | k <= AceCount(hand) :: Demoted(hand, k) > 21
  {
    var j := Demotions(hand);
    assert Score(hand) == Demoted(hand, j);
    forall k: nat | k <= AceCount(hand) && Demoted(hand, k) <= 21
      ensures Demoted(hand, k) <= Score(hand)
    {
      // any fewer demotions than j would leave the total above 21
      assert j == 0 || Demoted(hand, k) > 21 || k >= j;
    }
  }

  /** The same score, computed as the source does, with two loops. */
  method CalculateHandScore(hand: seq<Card>) returns (score: int)
    ensures score == Score(hand)
  {
    score := 0;
    var aceCount := 0;
    for i := 0 to |hand|
      invariant score == RawTotal(hand[..i])
      invariant aceCount == AceCount(hand[..i])
    {
      var card := hand[i];
      if card.rank == Ace {
        score := score + 11;
        aceCount := aceCount + 1;
      } else if card.rank == Jack || card.rank == Queen || card.rank == King {
        score := score + 10;
      } else {
        score := score + Pips(card.rank);
      }
      assert hand[..i + 1][..i] == hand[..i];
    }
    assert hand[..|hand|] == hand;
    ghost var aces := aceCount;
    while score > 21 && aceCount > 0
      invariant 0 <= aceCount <= aces
      invariant score == Demoted(hand, aces - aceCount)
      invariant aceCount < aces ==> Demoted(hand, aces - aceCount - 1) > 21
    {
      score := score - 10;
      aceCount := aceCount - 1;
    }
    DemotionsUnique(hand, aces - aceCount);
  }

  /** A few hands and their scores. */
  lemma ScoreExamples()
    ensures Score([Card(Spades, Ace), Card(Hearts, King)]) == 21
    ensures Score([Card(Spades, Ace), Card(Hearts, Ace)]) == 12
    ensures Score([Card(Clubs, Ace), Card(Diamonds, Ace), Card(Hearts, Ace), Card(Spades, Ace),
                   Card(Spades, King)]) == 14
    ensures Score([Card(Clubs, Ten), Card(Clubs, Nine)]) == 19
  {
    var pair := [Card(Spades, Ace), Card(Hearts, King)];
    assert pair[..1] == [Card(Spades, Ace)];
    var aces := [Card(Spades, Ace), Card(Hearts, Ace)];
    assert aces[..1] == [Card(Spades, Ace)];
    var plain := [Card(Clubs, Ten), Card(Clubs, Nine)];
    assert plain[..1] == [Card(Clubs, Ten)];
    FourAcesAndAKing();
  }

  lemma FourAcesAndAKing()
    ensures Score([Card(Clubs, Ace), Card(Diamonds, Ace), Card(Hearts, Ace), Card(Spades, Ace),
                   Card(Spades, King)]) == 14
  {
    var h1 := [Card(Clubs, Ace)];
    var h2 := h1 + [Card(Diamonds, Ace)];
    var h3 := h2 + [Card(Hearts, Ace)];
    var h4 := h3 + [Card(Spades, Ace)];
    var h5 := h4 + [Card(Spades, King)];
    assert h2[..1] == h1 && h3[..2] == h2 && h4[..3] == h3 && h5[..4] == h4;
    assert RawTotal(h1) == 11 && AceCount(h1) == 1;
    assert RawTotal(h2) == 22 && AceCount(h2) == 2;
    assert RawTotal(h3) == 33 && AceCount(h3) == 3;
    assert RawTotal(h4) == 44 && AceCount(h4) == 4;
    assert RawTotal(h5) == 54 && AceCount(h5) == 4;
    assert h5 == [Card(Clubs, Ace), Card(Diamonds, Ace), Card(Hearts, Ace), Card(Spades, Ace),
                  Card(Spades, King)];
  }
}
