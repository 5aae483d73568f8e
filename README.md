# Blackjack engine

A Dafny model of the blackjack engine inside the single React component of
`app/page.tsx`. A player places chip bets against a balance of 1000, takes
cards (hit) or ends the turn (stand), and the dealer then draws to 17. The
final hands are compared and the bet is settled once per round.

The model follows the component's structure:

- `Options` (options.dfy): the optional value used for results that may be missing.
- `Cards` (cards.dfy): cards as values. Numeric ranks are the integers 2 to
  10, not the strings the component parses.
- `Hands` (hands.dfy): `calculateHandValue` twice. `HandValue` is the
  recursive reference definition. `CalculateHandValue` is the component's
  two loops, proved equal to it. The closed form and optimality lemmas say
  what the softening loop computes.
- `Deck` (deck.dfy): `drawCard`'s choice of position and its filter, and
  sequential multi-card draws (`DrawMany`) with conservation of cards.
- `Rules` (rules.dfy): the outcome of a hit, of a stand, and of the final
  comparison; the dealer's rule; the settlement of a bet. The seven fixed
  result messages are the `Message` type, whose wording `Text` gives.
- `Dealer` (dealer.dfy): the dealer-completion loop as the function
  `DealerPlay`, with its stopping and conservation lemmas.
- `Game` (game.dfy): the component's state as the class `Game.Game`. Its
  fields are the nine state variables, and its methods are the handlers
  and effects. Every method states its whole new state, including the
  error cases. The class invariant `Valid` bounds the number of cards in
  play by the full deck.
- `Stale` (stale.dfy): the opening deal as React executes it (see Findings).
- `Scenarios` (scenarios.dfy): short handler sequences that show the
  component's behaviour as written.

Draws are sequential: each draw sees the deck the previous draw left.
`Math.random` is replaced by a `Random` position source. `rng(k, n)` is the
position that draw `k` of a handler takes from a deck of `n` cards.
`Deck.FromRolls` shows that a stream of `Math.random` values, put through
the formula of line 24, is such a source.

## Behaviour of the code as written

Where the code and the intended game differ, the model follows the code:

- An opening deal worth 21 (king and ace) does not end the round. Only a
  hit checks for 21 (`Scenarios.OpeningTwentyOnePlaysOn`).
- `placeBet` compares each chip amount with the balance, not the running
  bet. The bet can therefore exceed the balance, and a lost round can leave
  the balance negative (`Scenarios.OverBet`, `Rules.SettleStaysCovered`).
- A game that is over does not reject `placeBet` in the code. Only the page
  hides the chips. With a balance of 0 or less, every positive amount fails
  the check anyway.
- A round ended by a hit still sets `isGameOver`, so the completion effect
  runs and calls `endGame` again. The effect stores a fresh copy of the
  dealer's hand (lines 121 and 126), and that hand is one of its
  dependencies (line 145), so it runs again, and calls `endGame` again, on
  every re-render until the game is reset. The shown message can change,
  but the balance is settled only once (`Scenarios.SettlesOnce`).

## Model

| member | source | states |
|---|---|---|
| Hands.Points | app/page.tsx:65-73 | A card adds 11 exactly when it is an ace, 10 exactly when it is J, Q, K or a 10, and a numeric rank its face value; always 2 to 11 |
| Hands.Soften | app/page.tsx:75-78 | The softening loop lowers the total by at most ten per ace, and leaves it over 21 only once every ace is softened |
| Hands.HandValue | app/page.tsx:60-81 | A hand's value lies between its total with every ace softened and its total with none, and a bust value has every ace softened |
| Hands.RawTotalSnoc | app/page.tsx:64-73 | Adding a card adds its points to the unsoftened total and counts it when it is an ace |
| Hands.SoftenedAces | app/page.tsx:75-78 | The number of aces the loop softens is the fewest that bring the total to 21 or less, or all of them |
| Hands.SoftenClosedForm | app/page.tsx:75-78 | The softening loop takes ten off exactly SoftenedAces times |
| Hands.HandValueClosedForm | app/page.tsx:60-81 | A hand's value is its raw total less ten per softened ace |
| Hands.HandValueIsBest | app/page.tsx:75-80 | The value is the largest total not over 21 that softening some aces reaches; when none exists, it is the total with every ace softened, the smallest bust |
| Hands.PairValue | app/page.tsx:60-81 | A two-card hand is worth both cards' points, softened for its aces |
| Hands.EmptyAndTwoAces | app/page.tsx:60-81 | The empty hand is worth 0 and two aces are worth 12 |
| Hands.AceKingMakesTwentyOne | app/page.tsx:60-81 | Ace and king are worth 21 |
| Hands.TenEightFiveBusts | app/page.tsx:60-81 | 10, 8 and 5 are worth 23: no ace, nothing is softened |
| Hands.CalculateHandValue | app/page.tsx:60-81 | The one-pass sum and the softening loop compute HandValue for every hand |
| Deck.DrawIndex | app/page.tsx:24 | Math.floor(u * n) with u in [0, 1) is a valid position of a non-empty deck |
| Deck.DrawIndexReaches | app/page.tsx:24 | Every position of a non-empty deck is picked by some value of Math.random |
| Deck.FromRolls | app/page.tsx:24 | Any stream of Math.random values picks positions through line 24's formula, a valid position for every draw |
| Deck.Without | app/page.tsx:26 | Removing one position shortens the deck by one |
| Deck.KeepOthers | app/page.tsx:26 | The filter on index !== i drops one card when i is a position of the deck and none otherwise |
| Deck.KeepOthersIsWithout | app/page.tsx:26 | The filter on index !== i removes exactly position i and keeps the rest in order, and removes nothing when i names no position |
| Deck.WithoutConserves | app/page.tsx:23-28 | The drawn card and the remaining deck are together the deck before the draw |
| Deck.DealConserves | app/page.tsx:36 | Appending a drawn card to a hand keeps the cards of hand and deck together unchanged |
| Deck.DrawMany | app/page.tsx:114-115 | n sequential draws, when they succeed, deal n cards and leave the deck n cards shorter |
| Deck.DrawManyConserves | app/page.tsx:114-115 | n sequential draws succeed exactly when the deck holds n cards; they deal n cards and leave the rest, none lost and none twice |
| Deck.TopCardDealsInOrder | app/page.tsx:23-28 | Drawing from the top n times deals the top n cards in order |
| Deck.DrawEveryCard | app/page.tsx:23-28 | Drawing as often as the deck has cards deals every card exactly as often as it occurs, and one more draw fails |
| Rules.HitOutcome | app/page.tsx:40-44 | A hit produces an outcome exactly when the new value is 21 or more; at 21 the player wins with "Blackjack! Player Wins!", above it the dealer wins with "Player Bust! Dealer Wins!" |
| Rules.StandOutcome | app/page.tsx:55-57 | The stand card produces an outcome exactly when the dealer busts, and the player wins it with "Dealer Bust! Player Wins!" |
| Rules.Compare | app/page.tsx:131-143 | Each side wins exactly when it is not bust and the other is bust or lower; otherwise (both bust, or equal) nobody wins; each of the six messages is shown exactly in its own case, so both-bust and an equal draw are told apart |
| Rules.Text | app/page.tsx:41-142 | The wording of each message; only the empty result has empty wording |
| Rules.TextDistinct | app/page.tsx:41-142 | Different messages have different wordings |
| Rules.Settle | app/page.tsx:88-92 | Settling moves the balance by the bet or not at all; with a non-negative bet, the balance rises exactly when the player wins a positive bet and falls exactly when the dealer does |
| Rules.SettleStaysCovered | app/page.tsx:86-92 | Settling keeps the balance non-negative while the bet is within it; a bet above the balance can drive it negative |
| Dealer.DealerPlay | app/page.tsx:121-124 | The dealer's finished hand is worth 17 or more; running out of cards happens only while the hand is below 17 |
| Dealer.DealerPlayStops | app/page.tsx:121-124 | The dealer's finished hand extends the starting hand, is worth 17 or more, and was drawn to only while worth less than 17; running out happens only below 17 |
| Dealer.DealerPlayConserves | app/page.tsx:121-124 | The dealer's hand grows by as many cards as the deck loses, none lost and none twice |
| Dealer.DealerStandsAt17 | app/page.tsx:122 | A dealer hand worth 17 or more draws nothing |
| Dealer.DealerPlayExhausts | app/page.tsx:121-124 | The dealer runs out of cards only when the whole remaining deck still leaves the hand below 17 |
| Game.OpeningDraws | app/page.tsx:112-117 | The opening deal's three sequential draws succeed exactly when the deck holds three cards, each taken from the deck the previous one left |
| Game.Game.constructor | app/page.tsx:7-15 | Initial state: full deck, empty hands, no result, balance 1000, no bet |
| Game.Game.CheckBalance | app/page.tsx:17-21 | A balance of 0 or less sets the game-over flag; nothing else changes |
| Game.Game.DrawCard | app/page.tsx:23-28 | Returns the card at the picked position and leaves the other cards in order; an empty deck is the error case |
| Game.Game.DrawOnto | app/page.tsx:36 | [...hand, drawCard()]: the hand extended by the drawn card, and the deck without it |
| Game.Game.EndGame | app/page.tsx:83-96 | Shows the result; the first call of a round settles the bet, and later calls leave the balance alone |
| Game.Game.Hit | app/page.tsx:35-45 | The player gets the drawn card; a bust ends the round for the dealer, 21 for the player, and otherwise nothing ends |
| Game.Game.Stand | app/page.tsx:47-58 | Ignored once the game is over; otherwise sets game over, gives the dealer one card, and a dealer bust ends the round for the player |
| Game.Game.OpeningDeal | app/page.tsx:112-117 | Only with a bet placed and both hands empty: the first two of three sequential draws go to the player, the third to the dealer; when the deck runs out, the dealer gets nothing and the player keeps both cards of a two-card deck, or nothing |
| Game.Game.DealerDraws | app/page.tsx:120-124 | The copy of the dealer's hand grows exactly as DealerPlay says, the deck losing the drawn cards |
| Game.Game.DealerCompletion | app/page.tsx:119-145 | Once the game is over: the dealer's hand becomes DealerPlay's, and the round ends with the comparison of the final values |
| Game.Game.ResetGame | app/page.tsx:98-107 | Empty hands, no result, flags and bet cleared, full deck restored, balance kept |
| Game.Game.PlaceBet | app/page.tsx:147-151 | Adds the amount to the bet exactly when the amount alone is within the balance |
| Game.Game.ClearBet | app/page.tsx:222 | The bet becomes 0 |
| Game.Game.ConfirmBet | app/page.tsx:228 | The bet is placed |
| Stale.StaleOpeningDeal | app/page.tsx:114-115 | The opening deal as executed in one render: three picks from the same deck, only the last removed |
| Stale.StaleOpeningGainsCards | app/page.tsx:114-115 | As executed, every opening deal leaves two more cards in play than the deck held |
| Stale.StaleOpeningDealsAceThrice | app/page.tsx:114-115 | As executed, a deck of ace, king and queen dealt from the top gives the ace three times but removes it once, leaving [K♠, Q♠]; dealt sequentially, each card is dealt once |
| Scenarios.OverBet | app/page.tsx:147-151 | Three 500 chips on 1000 are all accepted; losing leaves -500 and the game over |
| Scenarios.SettlesOnce | app/page.tsx:83-96 | A second endGame in a round replaces the message but not the settled balance |
| Scenarios.OpeningTwentyOnePlaysOn | app/page.tsx:112-117 | An opening king and ace are worth 21 and the game goes on |

## Left out

- Rendering: the JSX, the styling and `app/components/Hand.tsx` are not modelled (app/page.tsx:153-242).
- Button gating: the page offers Hit and Stand only with a positive balance, no settled round and a placed bet. It offers chips of 1, 10, 100, 500 and 1000 only up to the balance, and Place Bet only with a positive bet. The methods accept calls the page would hide.
- React scheduling: the effects are methods a caller runs in order, and state updates take effect at once. Only the stale deck of the opening deal is modelled as React runs it (`Stale`). The dealer loop of the completion effect (line 123) reads the same stale deck, but it is modelled sequentially only.
- `Math.random`: replaced by the `Random` position source. Its distribution is not modelled.
- `deckCombinations`: the constructor takes it as a parameter, because `./components/Deck` is not part of this model. Nothing is assumed about its contents.
- `parseInt`: numeric ranks are integers from 2 to 10.
- Drawing from an empty deck: the component would put `undefined` in a hand and then throw a TypeError when it reads `card.rank` of that hand (valuing it at line 65, rendering it at line 109). The model returns `DeckExhausted` instead and stops the handler: the deck is empty, the hand being dealt does not get the missing card, and cards already dealt by that handler stay where they went.
- Game.Game.Valid: the class invariant bounds the number of cards in play by the full deck, not their multiset. Conservation of the cards themselves is proved about the functions the method contracts use: `Deck.WithoutConserves`, `Deck.DealConserves`, `Deck.DrawManyConserves` and `Dealer.DealerPlayConserves`.
- Game.Game.DealerDraws: when the deck runs out part-way, the cards already drawn into the local copy of the dealer's hand are dropped with it.

## Findings

| source | as written | input that shows it | evidently intended | confidence | as-written member | corrected member |
|---|---|---|---|---|---|---|
| app/page.tsx:114-115 | The three `drawCard()` calls of one render all read the same `deck`, and each stores that deck minus only its own pick. The player's two cards stay in the deck unless the dealer's pick is the same position, and one card can be dealt more than once. | Deck [A♠, K♠, Q♠] with every draw taking the top card: the player gets [A♠, A♠], the dealer [A♠], and the deck keeps [K♠, Q♠] | Three draws without replacement, each from the deck the previous one left | not executed; follows from React's state semantics | Stale.StaleOpeningDealsAceThrice | Game.Game.OpeningDeal |
