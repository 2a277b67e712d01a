# Blackjack rules engine, modelled in Dafny

This project models the rules engine of a small single-player Blackjack ("21")
game: the player plays against an automatic dealer. The model covers:

- building the 52-card deck;
- drawing the top card of the pile;
- dealing two cards each to the player and the dealer;
- scoring a hand, where an ace counts 11 and is demoted to 1 while the hand is over 21;
- the player's hit;
- the player's stand, after which the dealer draws until reaching 17;
- deciding the result, with busts first and natural blackjacks next.

Game states are values. Each operation returns a new state, as the original does.

Modules, one per component of `src/game.tsx`:

- `Cards` (`cards.dfy`): suits, ranks, cards, and the number a numeric rank stands for.
- `Deck` (`deck.dfy`): `NewCardDeck`, which is the suit-major product of suits and ranks. It also holds the draw primitive `TakeCard`, and the facts that a new deck, and any shuffle of it, holds every card exactly once.
- `Scoring` (`scoring.dfy`): `Score`, a closed-form reference definition of a hand's score. `CalculateHandScore` is the source's two-loop computation, proved equal to it.
- `Game` (`game.dfy`): the game state and its conservation invariant, `SetupGame`, `PlayerHits`, the dealer's play `DealerPlay`, and `PlayerStands`. `PlayerStands` is the source's draw loop, proved against `DealerPlay`.
- `Resolver` (`resolver.dfy`): `DetermineGameResult`. The lemma `ResultIsComparison` ties it to an independent ranking of hands: bust, then plain scores, then a natural.

The type declarations of the original (`./types`) are not part of this model. The enumerations are written out here:

- suits in the order clubs, diamonds, hearts, spades;
- ranks in the order ace, two to ten, jack, queen, king.

A numeric rank stands for its number, as the original's `+card.rank` reads it.

## Model

| member | source | states |
|---|---|---|
| `Cards.Pips` | src/game.tsx:75-77 | a numeric rank (two to ten) adds its own number, between 2 and 10, one more than its place in the rank order |
| `Deck.FlattenRows` | src/game.tsx:38 | joining 13-card rows with the left fold gives 13 cards per row, and card 13·i+j is card j of row i |
| `Deck.NewCardDeck` | src/game.tsx:30-38 | a new deck has 4 · 13 = 52 cards |
| `Deck.NewCardDeckSuitMajor` | src/game.tsx:30-38 | card 13·i+j of a new deck is rank j of suit i: all ranks of the first suit, then of the second, and so on |
| `Deck.NewCardDeckPositions` | src/game.tsx:30-38 | every card sits in a new deck at its own position, and that position holds no other card |
| `Deck.NewCardDeckDistinct` | src/game.tsx:30-38 | no card occurs twice in a new deck |
| `Deck.NewCardDeckComplete` | src/game.tsx:30-38 | every (suit, rank) pair occurs exactly once in a new deck |
| `Deck.FullDeckShape` | src/game.tsx:51 | any rearrangement of a new deck, such as the shuffled deck, has 52 cards, no repeats, and every card once |
| `Deck.TakeCard` | src/game.tsx:44-48 | the drawn card is the last card of the deck and the rest is everything before it, so the rest followed by the card is the deck, one card shorter |
| `Deck.TakeCardRemoves` | src/game.tsx:44-48 | from a deck without repeats, the drawn card is not in the rest, the rest has no repeats, and no card is lost |
| `Deck.DrawOrderAt` | src/game.tsx:44-48 | repeated draws take a pile's cards from the last to the first |
| `Scoring.CardValue` | src/game.tsx:65-78 | a card adds between 2 and 11 before any demotion, and only an ace adds 11 |
| `Scoring.LowTotal` | src/game.tsx:65-83 | with every ace counted as 1 the total is the raw total minus 10 per ace, and at least the number of cards |
| `Scoring.Demotions` | src/game.tsx:80-83 | the demoting loop turns at most all aces from 11 into 1. It stops at 21 or less unless every ace is demoted, and never demotes an ace once the total is 21 or less |
| `Scoring.DemotionsUnique` | src/game.tsx:80-83 | those three facts fix the number of demoted aces: any count that meets them is the one the scoring uses |
| `Scoring.Score` | src/game.tsx:61-86 | the score lies between the total with every ace as 1 and the total with every ace as 11 |
| `Scoring.ScoreIsBestChoice` | src/game.tsx:61-86 | the score is the total for some choice of 1 or 11 per ace. It is 21 or less unless every ace counts 1. It is the highest total any choice gives without going over 21, and when it is over 21 every choice goes over |
| `Scoring.CalculateHandScore` | src/game.tsx:61-86 | the accumulating loop and then the demoting loop compute exactly `Score` |
| `Scoring.ScoreExamples` | src/game.tsx:61-86 | ace and king score 21; two aces score 12; four aces and a king score 14; ten and nine score 19 |
| `Game.SetupGame` | src/game.tsx:50-58 | player and dealer get 2 cards each, and pile, dealer hand and player hand laid end to end are the shuffled deck. So the player has the last two cards, the dealer the two before them, and the pile the rest. The turn is the player's |
| `Game.SetupGameFromFullDeck` | src/game.tsx:50-58 | dealt from a shuffled new deck, the pile has 48 cards and the table holds one full deck with no card in two places |
| `Game.PlayerHits` | src/game.tsx:136-143 | the player's hand grows by one card, which is the last card of the old pile. The pile loses exactly that card. The dealer's hand and the turn do not change, and no card is created or lost |
| `Game.PlayerHitsConserves` | src/game.tsx:136-143 | a hit keeps the table holding exactly one full deck |
| `Game.DealerFinishesWithSeventeen` | src/game.tsx:123-130 | if the dealer's hand and the pile hold 17 cards between them, the dealer's loop never reaches an empty pile |
| `Game.DealerDraw` | src/game.tsx:124-129 | one pass of the dealer's loop: the top card of the pile moves to the end of the dealer's hand, and the player's hand and the turn stay |
| `Game.DealerPlay` | src/game.tsx:123-130 | the dealer's draws end with a score of 17 or more, one card per draw from the pile. The player's hand and the turn are untouched |
| `Game.DealerPlayTakesFromTop` | src/game.tsx:123-130 | what stays of the pile is its bottom part, and the dealer's hand is the old hand followed by the taken cards in the order they come off the pile |
| `Game.DealerPlayExtendsHand` | src/game.tsx:128 | the dealer's old cards stay in front of the new ones |
| `Game.DealerPlayDrawsBelowSeventeen` | src/game.tsx:123 | every card the dealer takes is taken while the dealer's score is 16 or less |
| `Game.DealerPlayConserves` | src/game.tsx:124-129 | the dealer's draws move cards from the pile to the dealer's hand and create or lose none |
| `Game.PlayerStands` | src/game.tsx:120-134 | the loop plays out the dealer's draws and ends with the dealer's score at 17 or more. The turn becomes the dealer's and the player's hand is unchanged. The pile keeps its bottom part, the dealer's new cards are the top of the old pile in draw order, and each was taken at a score of 16 or less |
| `Game.PlayerStandsConserves` | src/game.tsx:120-134 | standing keeps the table holding exactly one full deck |
| `Game.ConservedDistinct` | src/game.tsx:50-58 | a table holding one full deck has 52 cards in all and no card in two places |
| `Game.StandingIsSafe` | src/game.tsx:120-134 | in a game dealt from a full deck, standing never draws from an empty pile while the player holds at most 35 cards |
| `Resolver.DetermineGameResult` | src/game.tsx:88-117 | never "no result". A player bust loses whatever the dealer holds. Otherwise a dealer bust loses. Otherwise a natural blackjack beats a hand that is not one. Otherwise equal scores draw and the higher score wins |
| `Resolver.ResultIsComparison` | src/game.tsx:88-117 | apart from the player's bust, the result is the comparison of the two hands' standings: bust below everything, a natural above every other hand, else the score |
| `Resolver.NaturalBeatsLongTwentyOne` | src/game.tsx:96-109 | a 21 made with two cards beats a 21 made with three or more, for either side |
| `Resolver.ResultExamples` | src/game.tsx:88-117 | ace and king against ten, nine and two is a player win; a player holding 22 loses whatever the dealer holds |

## Left out

- The React component `Game`, its state hook, rendering and button handlers, and the card image helpers (`src/game.tsx:13-27`, `146-202`). They are presentation only. The handlers only allow a hit or a stand on the player's turn. The model puts no turn precondition on `PlayerHits` or `PlayerStands`, because the functions themselves do not check the turn.
- `shuffle` (`src/game.tsx:40-42`) sorts with a random comparator, so it depends on `Math.random`. `SetupGame` takes the shuffled deck as a parameter instead. `SetupGameFromFullDeck` covers any rearrangement of a new deck. Note that the original sorts the new deck in place; it is a fresh array, so nothing else observes this.
- `Deck.TakeCard`: requires a non-empty deck. On an empty deck the original returns `undefined` as the card. The next scoring of that hand then fails when it reads the rank. The model does not represent that value.
- `Game.PlayerHits`: requires a non-empty pile, for the same reason. The original's Hit button stays enabled on the player's turn even after a bust. So 49 hits in a row reach that failure.
- `Game.PlayerStands`: requires `DealerFinishes`, meaning the pile does not run out while the dealer's score is 16 or less. The original has no empty-pile check in this loop and fails as above. The model does not add a stop for an empty pile. `StandingIsSafe` gives a simple sufficient condition.
- The original's `number` is a floating-point value. Here scores are unbounded integers. All values involved are small integers, so this loses nothing.
