/**
 * The result resolver: who won a finished game. A bust loses first (the
 * player's bust before the dealer's), then a natural blackjack beats any
 * other 21, then the higher score wins and equal scores draw.
 */
module Resolver {
  import opened Cards
  import opened Scoring
  import opened Game

  datatype GameResult = PlayerWin | DealerWin | Draw | NoResult

  predicate IsBust(hand: seq<Card>) {
    Score(hand) > 21
  }

  /** A natural blackjack: 21 made with exactly two cards. */
  predicate IsNatural(hand: seq<Card>) {
    Score(hand) == 21 && |hand| == 2
  }

  function DetermineGameResult(state: GameState): (r: GameResult)
    ensures r != NoResult
    ensures IsBust(state.playerHand) ==> r == DealerWin
    ensures !IsBust(state.playerHand) && IsBust(state.dealerHand) ==> r == PlayerWin
    ensures !IsBust(state.playerHand) && !IsBust(state.dealerHand) ==>
      && (IsNatural(state.playerHand) && !IsNatural(state.dealerHand) ==> r == PlayerWin)
      && (IsNatural(state.dealerHand) && !IsNatural(state.playerHand) ==> r == DealerWin)
      && (IsNatural(state.playerHand) == IsNatural(state.dealerHand) ==>
            && (r == Draw <==> Score(state.playerHand) == Score(state.dealerHand))
            && (r == PlayerWin <==> Score(state.playerHand) > Score(state.dealerHand)))
  {
    var playerScore := Score(state.playerHand);
    var dealerScore := Score(state.dealerHand);
    if playerScore > 21 then DealerWin
    else if dealerScore > 21 then PlayerWin
    else if playerScore == 21 && |state.playerHand| == 2
      && (dealerScore != 21 || (dealerScore == 21 && |state.dealerHand| != 2)) then PlayerWin
    else if dealerScore == 21 && |state.dealerHand| == 2
      && (playerScore != 21 || (playerScore == 21 && |state.playerHand| != 2)) then DealerWin
    else if playerScore == dealerScore then Draw
    else if playerScore > dealerScore then PlayerWin
    else DealerWin
  }

  /**
   * How strong a hand is for the comparison: a bust is below everything, a
   * natural above every other hand, anything else is worth its score.
   */
  function Standing(hand: seq<Card>): (v: int)
    ensures -1 <= v <= 22
  {
    if IsBust(hand) then -1 else if IsNatural(hand) then 22 else Score(hand)
  }

  /**
   * Apart from the player's bust, which loses whatever the dealer holds, the
   * result is the comparison of the two hands' standings.
   */
  lemma ResultIsComparison(state: GameState)
    ensures var r := DetermineGameResult(state);
      if IsBust(state.playerHand) then r == DealerWin
      else
        && (r == PlayerWin <==> Standing(state.playerHand) > Standing(state.dealerHand))
        && (r == Draw <==> Standing(state.playerHand) == Standing(state.dealerHand))
        && (r == DealerWin <==> Standing(state.playerHand) < Standing(state.dealerHand))
  {
  }

  /** A natural blackjack beats a 21 made with three or more cards, on either side. */
  lemma NaturalBeatsLongTwentyOne(state: GameState)
    requires Score(state.playerHand) == 21 && Score(state.dealerHand) == 21
    ensures |state.playerHand| == 2 && |state.dealerHand| > 2 ==>
      DetermineGameResult(state) == PlayerWin
    ensures |state.dealerHand| == 2 && |state.playerHand| > 2 ==>
      DetermineGameResult(state) == DealerWin
  {
  }

  /** The scores of the hands used below. */
  lemma ExampleScores()
    ensures Score([Card(Spades, Ace), Card(Hearts, King)]) == 21
    ensures Score([Card(Clubs, Ten), Card(Clubs, Nine), Card(Clubs, Two)]) == 21
  {
    var natural := [Card(Spades, Ace), Card(Hearts, King)];
    assert natural[..1] == [Card(Spades, Ace)];
    var long1 := [Card(Clubs, Ten)];
    var long2 := long1 + [Card(Clubs, Nine)];
    var long := long2 + [Card(Clubs, Two)];
    assert long2[..1] == long1 && long[..2] == long2;
    assert RawTotal(long1) == 10 && RawTotal(long2) == 19 && RawTotal(long) == 21;
    assert AceCount(long1) == 0 && AceCount(long2) == 0 && AceCount(long) == 0;
    assert long == [Card(Clubs, Ten), Card(Clubs, Nine), Card(Clubs, Two)];
  }

  lemma BustExampleScore()
    ensures Score([Card(Spades, King), Card(Hearts, Queen), Card(Hearts, Two)]) == 22
  {
    var bust1 := [Card(Spades, King)];
    var bust2 := bust1 + [Card(Hearts, Queen)];
    var bust := bust2 + [Card(Hearts, Two)];
    assert bust2[..1] == bust1 && bust[..2] == bust2;
    assert RawTotal(bust1) == 10 && RawTotal(bust2) == 20 && RawTotal(bust) == 22;
    assert AceCount(bust1) == 0 && AceCount(bust2) == 0 && AceCount(bust) == 0;
    assert bust == [Card(Spades, King), Card(Hearts, Queen), Card(Hearts, Two)];
  }

  /** A natural against a three-card 21, and a bust player against any dealer. */
  lemma ResultExamples(dealerHand: seq<Card>, deck: seq<Card>, turn: Turn)
    ensures DetermineGameResult(GameState([Card(Spades, Ace), Card(Hearts, King)],
      [Card(Clubs, Ten), Card(Clubs, Nine), Card(Clubs, Two)], deck, turn)) == PlayerWin
    ensures DetermineGameResult(GameState([Card(Spades, King), Card(Hearts, Queen), Card(Hearts, Two)],
      dealerHand, deck, turn)) == DealerWin
  {
    ExampleScores();
    BustExampleScore();
  }
}
