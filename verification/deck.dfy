/**
 * The deck builder and the draw primitive. A deck is a sequence of cards used
 * as a stack: the next card to be drawn is the last element.
 */
module Deck {
  import opened Cards

  /** No card occurs twice. */
  predicate Distinct(s: seq<Card>) {
    forall i, j | 0 <= i < j < |s| :: s[i] != s[j]
  }

  /** The place of a card in a new deck: suit-major, then rank order. */
  function Position(c: Card): (k: nat)
    ensures k < |AllSuits| * |AllRanks|
  {
    13 * SuitIndex(c.suit) + RankIndex(c.rank)
  }

  /** One suit paired with every rank, in rank order. */
  function SuitRow(s: Suit): seq<Card> {
    seq(|AllRanks|, j requires 0 <= j < |AllRanks| => Card(s, AllRanks[j]))
  }

  /** The rows joined together, folded from the left. */
  function Flatten(rows: seq<seq<Card>>): seq<Card> {
    if rows == [] then [] else Flatten(rows[..|rows| - 1]) + rows[|rows| - 1]
  }

  lemma {:induction false} FlattenRows(rows: seq<seq<Card>>)
    requires forall i | 0 <= i < |rows| :: |rows[i]| == 13
    ensures |Flatten(rows)| == 13 * |rows|
    ensures forall i, j | 0 <= i < |rows| && 0 <= j < 13 :: Flatten(rows)[13 * i + j] == rows[i][j]
  {
    if rows != [] {
      FlattenRows(rows[..|rows| - 1]);
    }
  }

  /** A new deck: the Cartesian product of suits and ranks, suit-major. */
  function NewCardDeck(): (deck: seq<Card>)
    ensures |deck| == |AllSuits| * |AllRanks|
  {
    FlattenRows(SuitRows());
    Flatten(SuitRows())
  }

  function SuitRows(): seq<seq<Card>> {
    seq(|AllSuits|, i requires 0 <= i < |AllSuits| => SuitRow(AllSuits[i]))
  }

  /** The deck has 4 * 13 cards; card 13 * i + j is rank j of suit i. */
  lemma NewCardDeckSuitMajor()
    ensures |NewCardDeck()| == |AllSuits| * |AllRanks|
    ensures forall i, j | 0 <= i < |AllSuits| && 0 <= j < |AllRanks| ::
      NewCardDeck()[13 * i + j] == Card(AllSuits[i], AllRanks[j])
  {
    var rows := SuitRows();
    FlattenRows(rows);
    forall i, j | 0 <= i < |AllSuits| && 0 <= j < |AllRanks|
      ensures NewCardDeck()[13 * i + j] == Card(AllSuits[i], AllRanks[j])
    {
      assert rows[i][j] == Card(AllSuits[i], AllRanks[j]);
    }
  }

  /** Every card sits in a new deck exactly at its position. */
  lemma NewCardDeckPositions()
    ensures forall k | 0 <= k < |NewCardDeck()| :: Position(NewCardDeck()[k]) == k
    ensures forall c: Card :: NewCardDeck()[Position(c)] == c
  {
    forall k | 0 <= k < |NewCardDeck()|
      ensures Position(NewCardDeck()[k]) == k
    {
      PositionAt(k);
    }
    forall c: Card
      ensures NewCardDeck()[Position(c)] == c
    {
      PositionAt(Position(c));
    }
  }

  lemma PositionAt(k: nat)
    requires k < |NewCardDeck()|
    ensures Position(NewCardDeck()[k]) == k
    ensures forall c: Card | Position(c) == k :: NewCardDeck()[k] == c
  {
    NewCardDeckSuitMajor();
    var i, j := k / 13, k % 13;
    assert k == 13 * i + j;
    assert NewCardDeck()[k] == Card(AllSuits[i], AllRanks[j]);
  }

  lemma NewCardDeckDistinct()
    ensures Distinct(NewCardDeck())
  {
    NewCardDeckPositions();
  }

  /** A distinct sequence holds each of its cards exactly once. */
  lemma {:induction false} DistinctCount(s: seq<Card>, c: Card)
    requires Distinct(s)
    ensures multiset(s)[c] == if c in s then 1 else 0
  {
    if s != [] {
      var init := s[..|s| - 1];
      assert s == init + [s[|s| - 1]];
      assert Distinct(init);
      DistinctCount(init, c);
      assert s[|s| - 1] !in init by {
        forall i | 0 <= i < |init| ensures init[i] != s[|s| - 1] {
          assert s[i] != s[|s| - 1];
        }
      }
    }
  }

  /** A sequence that holds no card twice is distinct. */
  lemma SingleCountsDistinct(s: seq<Card>)
    requires forall c: Card :: multiset(s)[c] <= 1
    ensures Distinct(s)
  {
    forall i, j | 0 <= i < j < |s|
      ensures s[i] != s[j]
    {
      assert s == s[..i] + [s[i]] + s[i + 1..j] + [s[j]] + s[j + 1..];
      assert multiset(s)[s[i]] >= multiset{s[i]}[s[i]] + multiset{s[j]}[s[i]];
    }
  }

  /** A new deck holds every card exactly once. */
  lemma NewCardDeckComplete()
    ensures forall c: Card :: multiset(NewCardDeck())[c] == 1
  {
    NewCardDeckPositions();
    NewCardDeckDistinct();
    forall c: Card
      ensures multiset(NewCardDeck())[c] == 1
    {
      assert NewCardDeck()[Position(c)] == c;
      DistinctCount(NewCardDeck(), c);
    }
  }

  /** Any arrangement of a full deck (a shuffle of it, say) is a full deck. */
  ghost predicate IsFullDeck(s: seq<Card>) {
    multiset(s) == multiset(NewCardDeck())
  }

  lemma FullDeckShape(s: seq<Card>)
    requires IsFullDeck(s)
    ensures |s| == 52 && Distinct(s)
    ensures forall c: Card :: multiset(s)[c] == 1
  {
    NewCardDeckComplete();
    SameCardsSameLength(s, NewCardDeck());
    SingleCountsDistinct(s);
  }

  /** Two arrangements of the same cards have the same length. */
  lemma SameCardsSameLength(s: seq<Card>, t: seq<Card>)
    requires multiset(s) == multiset(t)
    ensures |s| == |t|
  {
    assert |multiset(s)| == |multiset(t)|;
  }

  /** A draw: the top card and what is left under it. */
  datatype Drawn = Drawn(card: Card, remaining: seq<Card>)

  /** Takes the last card of the deck. */
  function TakeCard(deck: seq<Card>): (r: Drawn)
    requires |deck| > 0
    ensures r.remaining + [r.card] == deck
    ensures |r.remaining| == |deck| - 1
  {
    Drawn(deck[|deck| - 1], deck[..|deck| - 1])
  }

  /** The cards of a pile in the order they are drawn from it: last card first. */
  function DrawOrder(pile: seq<Card>): (drawn: seq<Card>)
    ensures |drawn| == |pile|
  {
    if pile == [] then [] else [pile[|pile| - 1]] + DrawOrder(pile[..|pile| - 1])
  }

  lemma {:induction false} DrawOrderAt(pile: seq<Card>, i: nat)
    requires i < |pile|
    ensures DrawOrder(pile)[i] == pile[|pile| - 1 - i]
  {
    if i > 0 {
      DrawOrderAt(pile[..|pile| - 1], i - 1);
    }
  }

  /**
   * Taking the top card of a pile and then the cards above position k of
   * what is left takes, in order, the cards above position k of the pile.
   */
  lemma DrawOneMore(hand: seq<Card>, pile: seq<Card>, k: nat)
    requires k < |pile|
    ensures pile[..|pile| - 1][..k] == pile[..k]
    ensures (hand + [pile[|pile| - 1]]) + DrawOrder(pile[..|pile| - 1][k..]) == hand + DrawOrder(pile[k..])
  {
    assert pile[k..][..|pile| - k - 1] == pile[..|pile| - 1][k..];
    assert DrawOrder(pile[k..]) == [pile[|pile| - 1]] + DrawOrder(pile[..|pile| - 1][k..]);
  }

  /** Moving the top card of a pile onto a hand loses and creates no card. */
  lemma MoveTopCard(pile: seq<Card>, hand: seq<Card>, rest: seq<Card>)
    requires |pile| > 0
    ensures multiset(pile[..|pile| - 1] + (hand + [pile[|pile| - 1]]) + rest) == multiset(pile + hand + rest)
  {
    assert pile == pile[..|pile| - 1] + [pile[|pile| - 1]];
  }

  /** From a deck without repeats, the drawn card is gone from what remains. */
  lemma TakeCardRemoves(deck: seq<Card>)
    requires |deck| > 0 && Distinct(deck)
    ensures TakeCard(deck).card !in TakeCard(deck).remaining
    ensures Distinct(TakeCard(deck).remaining)
    ensures multiset(TakeCard(deck).remaining) + multiset{TakeCard(deck).card} == multiset(deck)
  {
    var r := TakeCard(deck);
    assert deck == r.remaining + [r.card];
  }
}
