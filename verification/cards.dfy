/**
 * The card model: the four suits, the thirteen ranks and a card as the pair
 * of the two. The enumeration order of suits and ranks is the order in which
 * a new deck is built.
 */
module Cards {

  datatype Suit = Clubs | Diamonds | Hearts | Spades

  datatype Rank =
    | Ace | Two | Three | Four | Five | Six | Seven | Eight | Nine | Ten
    | Jack | Queen | King

  /** A card has no identity beyond its suit and rank. */
  datatype Card = Card(suit: Suit, rank: Rank)

  /** The suits in enumeration order. */
  const AllSuits: seq<Suit> := [Clubs, Diamonds, Hearts, Spades]

  /** The ranks in enumeration order. */
  const AllRanks: seq<Rank> :=
    [Ace, Two, Three, Four, Five, Six, Seven, Eight, Nine, Ten, Jack, Queen, King]

  /** The position of a suit in the enumeration; no other position holds it. */
  function SuitIndex(s: Suit): (i: nat)
    ensures i < |AllSuits| && AllSuits[i] == s
    ensures forall j | 0 <= j < |AllSuits| :: AllSuits[j] == s <==> j == i
  {
    match s
    case Clubs => 0
    case Diamonds => 1
    case Hearts => 2
    case Spades => 3
  }

  /** The position of a rank in the enumeration; no other position holds it. */
  function RankIndex(r: Rank): (i: nat)
    ensures i < |AllRanks| && AllRanks[i] == r
    ensures forall j | 0 <= j < |AllRanks| :: AllRanks[j] == r <==> j == i
  {
    match r
    case Ace => 0
    case Two => 1
    case Three => 2
    case Four => 3
    case Five => 4
    case Six => 5
    case Seven => 6
    case Eight => 7
    case Nine => 8
    case Ten => 9
    case Jack => 10
    case Queen => 11
    case King => 12
  }

  predicate IsFace(r: Rank) {
    r == Jack || r == Queen || r == King
  }

  /** The ranks Two to Ten, whose name is their number. */
  predicate IsNumeric(r: Rank) {
    r != Ace && !IsFace(r)
  }

  /** The number a numeric rank stands for (the source reads it with `+card.rank`). */
  function Pips(r: Rank): (v: nat)
    requires IsNumeric(r)
    ensures 2 <= v <= 10
    ensures v == RankIndex(r) + 1
  {
    match r
    case Two => 2
    case Three => 3
    case Four => 4
    case Five => 5
    case Six => 6
    case Seven => 7
    case Eight => 8
    case Nine => 9
    case Ten => 10
  }
}
