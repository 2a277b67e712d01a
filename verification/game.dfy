/**
 * The game state machine. A state is a value; every operation returns a new
 * state. The turn is the player's until the player stands; the dealer then
 * plays out the hand at once and the turn becomes the dealer's for good.
 */
module Game {
  import opened Cards
  import opened Deck
  import opened Scoring

  datatype Turn = PlayerTurn | DealerTurn

  datatype GameState = GameState(
    playerHand: seq<Card>,
    dealerHand: seq<Card>,
    cardDeck: seq<Card>,
    turn: Turn)

  /** Every card of a state: the draw pile, then the dealer's, then the player's. */
  function AllCards(g: GameState): seq<Card> {
    g.cardDeck + g.dealerHand + g.playerHand
  }

  /** The table holds one full deck between the pile and the two hands. */
  ghost predicate CardsConserved(g: GameState) {
    IsFullDeck(AllCards(g))
  }

  /**
   * Deals from a deck already shuffled: the top two cards to the player, the
   * two under them to the dealer, the rest stays as the draw pile.
   */
  function SetupGame(shuffled: seq<Card>): (g: GameState)
    requires |shuffled| >= 4
    ensures |g.playerHand| == 2 && |g.dealerHand| == 2
    ensures AllCards(g) == shuffled
    ensures g.turn == PlayerTurn
  {
    var n := |shuffled|;
    GameState(shuffled[n - 2..n], shuffled[n - 4..n - 2], shuffled[..n - 4], PlayerTurn)
  }

  /** A game dealt from any shuffle of a new deck starts well formed. */
  lemma SetupGameFromFullDeck(shuffled: seq<Card>)
    requires IsFullDeck(shuffled)
    ensures |shuffled| == 52
    ensures |SetupGame(shuffled).cardDeck| == 48
    ensures CardsConserved(SetupGame(shuffled))
    ensures Distinct(AllCards(SetupGame(shuffled)))
  {
    FullDeckShape(shuffled);
  }

  /** The player draws one card; nothing else changes. */
  function PlayerHits(state: GameState): (r: GameState)
    requires |state.cardDeck| > 0
    ensures |r.playerHand| == |state.playerHand| + 1
    ensures r.playerHand[..|state.playerHand|] == state.playerHand
    ensures r.cardDeck + [r.playerHand[|state.playerHand|]] == state.cardDeck
    ensures r.dealerHand == state.dealerHand && r.turn == state.turn
    ensures multiset(AllCards(r)) == multiset(AllCards(state))
  {
    var drawn := TakeCard(state.cardDeck);
    var r := state.(cardDeck := drawn.remaining, playerHand := state.playerHand + [drawn.card]);
    assert r.playerHand[..|state.playerHand|] == state.playerHand;
    r
  }

  lemma PlayerHitsConserves(state: GameState)
    requires |state.cardDeck| > 0 && CardsConserved(state)
    ensures CardsConserved(PlayerHits(state))
  {
  }

  /**
   * The dealer can play out the hand from this deck: while the dealer's score
   * is 16 or less there is always a card left to draw.
   */
  predicate DealerFinishes(hand: seq<Card>, deck: seq<Card>)
    decreases |deck|
  {
    Score(hand) > 16
    || (|deck| > 0 && DealerFinishes(hand + [deck[|deck| - 1]], deck[..|deck| - 1]))
  }

  /** Seventeen cards between the dealer's hand and the pile always suffice. */
  lemma {:induction false} DealerFinishesWithSeventeen(hand: seq<Card>, deck: seq<Card>)
    requires |hand| + |deck| >= 17
    ensures DealerFinishes(hand, deck)
    decreases |deck|
  {
    if Score(hand) <= 16 {
      DealerFinishesWithSeventeen(hand + [deck[|deck| - 1]], deck[..|deck| - 1]);
    }
  }

  /** One draw of the dealer's: the top card of the pile goes to the dealer's hand. */
  function DealerDraw(g: GameState): (r: GameState)
    requires |g.cardDeck| > 0
    ensures r.cardDeck == g.cardDeck[..|g.cardDeck| - 1]
    ensures r.dealerHand == g.dealerHand + [g.cardDeck[|g.cardDeck| - 1]]
    ensures r.playerHand == g.playerHand && r.turn == g.turn
  {
    var drawn := TakeCard(g.cardDeck);
    g.(cardDeck := drawn.remaining, dealerHand := g.dealerHand + [drawn.card])
  }

  /**
   * The dealer's play: cards are taken one at a time from the top of the pile
   * while the dealer's score is 16 or less. It ends with a score of 17 or more
   * and leaves the player's hand and the turn alone.
   */
  function DealerPlay(g: GameState): (r: GameState)
    requires DealerFinishes(g.dealerHand, g.cardDeck)
    ensures r.playerHand == g.playerHand && r.turn == g.turn
    ensures Score(r.dealerHand) > 16
    ensures |r.cardDeck| <= |g.cardDeck|
    ensures |r.dealerHand| == |g.dealerHand| + (|g.cardDeck| - |r.cardDeck|)
    decreases |g.cardDeck|
  {
    if Score(g.dealerHand) > 16 then g else DealerPlay(DealerDraw(g))
  }

  /**
   * The dealer's play takes the top of the pile: what stays is the bottom
   * part, and the dealer's hand is the old hand followed by the taken cards
   * in the order they come off the pile.
   */
  lemma {:induction false} DealerPlayTakesFromTop(g: GameState)
    requires DealerFinishes(g.dealerHand, g.cardDeck)
    ensures var r := DealerPlay(g);
      && r.cardDeck == g.cardDeck[..|r.cardDeck|]
      && r.dealerHand == g.dealerHand + DrawOrder(g.cardDeck[|r.cardDeck|..])
    decreases |g.cardDeck|
  {
    if Score(g.dealerHand) <= 16 {
      DealerPlayTakesFromTop(DealerDraw(g));
      DrawOneMore(g.dealerHand, g.cardDeck, |DealerPlay(g).cardDeck|);
    }
  }

  /** The dealer's play keeps the old dealer hand in front. */
  lemma DealerPlayExtendsHand(g: GameState)
    requires DealerFinishes(g.dealerHand, g.cardDeck)
    ensures |g.dealerHand| <= |DealerPlay(g).dealerHand|
    ensures DealerPlay(g).dealerHand[..|g.dealerHand|] == g.dealerHand
  {
    DealerPlayTakesFromTop(g);
  }

  /** Each of the dealer's cards was drawn while the dealer's score was 16 or less. */
  lemma {:induction false} DealerPlayDrawsBelowSeventeen(g: GameState)
    requires DealerFinishes(g.dealerHand, g.cardDeck)
    ensures var r := DealerPlay(g);
      forall i | |g.dealerHand| <= i < |r.dealerHand| :: Score(r.dealerHand[..i]) <= 16
    decreases |g.cardDeck|
  {
    if Score(g.dealerHand) <= 16 {
      var next := DealerDraw(g);
      DealerPlayDrawsBelowSeventeen(next);
      DealerPlayExtendsHand(g);
      var r, n := DealerPlay(g), |g.dealerHand|;
      assert r == DealerPlay(next);
      forall i | n <= i < |r.dealerHand|
        ensures Score(r.dealerHand[..i]) <= 16
      {
        if i == n {
          assert r.dealerHand[..i] == g.dealerHand;
        } else {
          assert |next.dealerHand| <= i < |DealerPlay(next).dealerHand|;
        }
      }
    }
  }

  /** The dealer's play moves cards from the pile to the dealer and no more. */
  lemma {:induction false} DealerPlayConserves(g: GameState)
    requires DealerFinishes(g.dealerHand, g.cardDeck)
    ensures multiset(AllCards(DealerPlay(g))) == multiset(AllCards(g))
    decreases |g.cardDeck|
  {
    if Score(g.dealerHand) <= 16 {
      DealerPlayConserves(DealerDraw(g));
      MoveTopCard(g.cardDeck, g.dealerHand, g.playerHand);
    }
  }

  /**
   * The player stands: the dealer draws until the score is 17 or more, and the
   * turn passes to the dealer.
   */
  method PlayerStands(state: GameState) returns (r: GameState)
    requires DealerFinishes(state.dealerHand, state.cardDeck)
    ensures r == DealerPlay(state).(turn := DealerTurn)
    ensures r.turn == DealerTurn && r.playerHand == state.playerHand
    ensures Score(r.dealerHand) >= 17
    ensures r.cardDeck == state.cardDeck[..|r.cardDeck|]
    ensures r.dealerHand == state.dealerHand + DrawOrder(state.cardDeck[|r.cardDeck|..])
    ensures forall i | |state.dealerHand| <= i < |r.dealerHand| :: Score(r.dealerHand[..i]) <= 16
  {
    var s := state;
    var score := CalculateHandScore(s.dealerHand);
    while score <= 16
      invariant DealerFinishes(s.dealerHand, s.cardDeck)
      invariant DealerPlay(s) == DealerPlay(state)
      invariant score == Score(s.dealerHand)
      decreases |s.cardDeck|
    {
      s := DealerDraw(s);
      score := CalculateHandScore(s.dealerHand);
    }
    r := s.(turn := DealerTurn);
    DealerPlayTakesFromTop(state);
    DealerPlayDrawsBelowSeventeen(state);
  }

  lemma PlayerStandsConserves(state: GameState)
    requires DealerFinishes(state.dealerHand, state.cardDeck) && CardsConserved(state)
    ensures CardsConserved(DealerPlay(state).(turn := DealerTurn))
  {
    DealerPlayConserves(state);
  }

  /** In a state that holds one full deck no card is in two places. */
  lemma ConservedDistinct(g: GameState)
    requires CardsConserved(g)
    ensures Distinct(AllCards(g))
    ensures |g.cardDeck| + |g.dealerHand| + |g.playerHand| == 52
  {
    FullDeckShape(AllCards(g));
  }

  /**
   * Once a game dealt from a full deck is under way, standing never reaches
   * for an empty pile unless the player has taken more than 35 cards.
   */
  lemma StandingIsSafe(g: GameState)
    requires CardsConserved(g) && |g.playerHand| <= 35
    ensures DealerFinishes(g.dealerHand, g.cardDeck)
  {
    ConservedDistinct(g);
    DealerFinishesWithSeventeen(g.dealerHand, g.cardDeck);
  }
}
