/**
 * The blackjack component's state and handlers as a class. Each React
 * state variable is a field; each handler is a method that updates the
 * fields in order. The effects (game over on an empty balance, the opening
 * deal, dealer completion) are methods a caller invokes explicitly, in the
 * order the effects would fire, rather than on re-render.
 *
 * Draws are sequential: each sees the deck the previous draw left. The
 * component itself differs here: every drawCard() made within one render
 * (the opening deal, and the dealer loop of the completion effect) filters
 * the same stale `deck`, so only the last removal sticks and a card can be
 * dealt twice. The module Stale models that behaviour.
 */
module Game {
  import opened Cards
  import opened Options
  import opened Hands
  import opened Deck
  import opened Rules
  import opened Dealer

  /**
   * The three draws of the opening deal, written out: each takes the card
   * at the position its draw picks from the deck the previous one left.
   */
  lemma {:induction false} OpeningDraws(deck: seq<Card>, rng: Random)
    ensures DrawMany(deck, rng, 0, 3).Some? <==> |deck| >= 3
    ensures |deck| >= 3 ==>
      var i0 := rng(0, |deck|);
      var deck1 := Without(deck, i0);
      var i1 := rng(1, |deck1|);
      var deck2 := Without(deck1, i1);
      var i2 := rng(2, |deck2|);
      DrawMany(deck, rng, 0, 3) == Some(Dealt([deck[i0], deck1[i1], deck2[i2]], Without(deck2, i2)))
  {
    DrawManyConserves(deck, rng, 0, 3);
    if |deck| >= 3 {
      var i0 := rng(0, |deck|);
      var deck1 := Without(deck, i0);
      var i1 := rng(1, |deck1|);
      var deck2 := Without(deck1, i1);
      var i2 := rng(2, |deck2|);
      var deck3 := Without(deck2, i2);
      assert DrawMany(deck3, rng, 3, 0) == Some(Dealt([], deck3));
      assert [deck2[i2]] + [] == [deck2[i2]];
      assert DrawMany(deck2, rng, 2, 1) == Some(Dealt([deck2[i2]], deck3));
      assert [deck1[i1]] + [deck2[i2]] == [deck1[i1], deck2[i2]];
      assert DrawMany(deck1, rng, 1, 2) == Some(Dealt([deck1[i1], deck2[i2]], deck3));
      assert [deck[i0]] + [deck1[i1], deck2[i2]] == [deck[i0], deck1[i1], deck2[i2]];
    }
  }

  class Game {
    /** deckCombinations, the full deck every round starts from. */
    const fullDeck: seq<Card>

    var deck: seq<Card>
    var playerHand: seq<Card>
    var dealerHand: seq<Card>
    var isGameOver: bool
    var gameResult: Outcome
    var isNewGame: bool
    var balance: int
    var bet: int
    var betPlaced: bool

    /** No more cards are in play than the full deck holds. */
    ghost predicate Valid()
      reads this`playerHand, this`dealerHand, this`deck
    {
      |playerHand| + |dealerHand| + |deck| <= |fullDeck|
    }

    /** endGame's effect: the round is over with `result`, settled once. */
    twostate predicate EndedWith(result: Outcome)
      reads this
    {
      && isGameOver && gameResult == result && isNewGame
      && balance == if old(isNewGame) then old(balance) else Settle(old(balance), old(bet), result.winner)
    }

    /** Nothing in the component's state changed. */
    twostate predicate Untouched()
      reads this
    {
      && deck == old(deck) && playerHand == old(playerHand) && dealerHand == old(dealerHand)
      && isGameOver == old(isGameOver) && gameResult == old(gameResult) && isNewGame == old(isNewGame)
      && balance == old(balance) && bet == old(bet) && betPlaced == old(betPlaced)
    }

    /** No outcome was produced: the result and the ledger are as they were. */
    twostate predicate NotEnded()
      reads this
    {
      gameResult == old(gameResult) && isNewGame == old(isNewGame) && balance == old(balance)
    }

    constructor (deckCombinations: seq<Card>)
      ensures Valid()
      ensures fullDeck == deckCombinations && deck == deckCombinations
      ensures playerHand == [] && dealerHand == []
      ensures !isGameOver && gameResult == NoResult && !isNewGame
      ensures balance == 1000 && bet == 0 && !betPlaced
    {
      fullDeck := deckCombinations;
      deck := deckCombinations;
      playerHand, dealerHand := [], [];
      isGameOver := false;
      gameResult := NoResult;
      isNewGame := false;
      balance := 1000;
      bet := 0;
      betPlaced := false;
    }

    /** The balance effect: a balance of zero or less ends the game. */
    method CheckBalance()
      requires Valid()
      modifies this`isGameOver
      ensures Valid()
      ensures isGameOver == (old(isGameOver) || balance <= 0)
    {
      if balance <= 0 {
        isGameOver := true;
      }
    }

    /**
     * drawCard: the card at the position the k-th draw of `rng` picks,
     * removed from the deck. An empty deck has no such card.
     */
    method DrawCard(rng: Random, k: nat) returns (r: Result<Card>)
      modifies this`deck
      ensures old(deck) == [] ==> r == Err(DeckExhausted) && deck == []
      ensures old(deck) != [] ==>
        var i := rng(k, |old(deck)|);
        r == Ok(old(deck)[i]) && deck == Without(old(deck), i)
      ensures r.Ok? ==> |deck| == |old(deck)| - 1
      ensures r.Ok? ==> multiset(deck) + multiset{r.value} == multiset(old(deck))
    {
      var i := rng(k, |deck|);
      if deck == [] {
        // deck[0] of an empty deck is undefined in the component
        return Err(DeckExhausted);
      }
      r := Ok(deck[i]);
      KeepOthersIsWithout(deck, i);
      WithoutConserves(deck, i);
      deck := KeepOthers(deck, i);
    }

    /**
     * [...hand, drawCard()]: `hand` extended by a drawn card. The card
     * moves from the deck into the hand (DealConserves), so while the
     * `other` hand is untouched the count of cards in play does not grow.
     */
    method DrawOnto(hand: seq<Card>, ghost other: seq<Card>, rng: Random, k: nat) returns (r: Result<seq<Card>>)
      requires |hand| + |other| + |deck| <= |fullDeck|
      modifies this`deck
      ensures r.Ok? ==> |r.value| + |other| + |deck| <= |fullDeck|
      ensures old(deck) == [] ==> r == Err(DeckExhausted) && deck == []
      ensures old(deck) != [] ==>
        var i := rng(k, |old(deck)|);
        r == Ok(hand + [old(deck)[i]]) && deck == Without(old(deck), i)
    {
      var card := DrawCard(rng, k);
      if card.Err? {
        return Err(DeckExhausted);
      }
      r := Ok(hand + [card.value]);
    }

    /** endGame: show the result and settle the bet, once per round. */
    method EndGame(result: Outcome)
      requires Valid()
      modifies this`isGameOver, this`gameResult, this`balance, this`isNewGame
      ensures Valid()
      ensures EndedWith(result)
    {
      isGameOver := true;
      gameResult := result;
      if !isNewGame {
        balance := Settle(balance, bet, result.winner);
        isNewGame := true;
      }
    }

    /**
     * dealToPlayer (hit): one card to the player; a bust ends the round for
     * the dealer and 21 ends it for the player.
     */
    method Hit(rng: Random) returns (r: Result<()>)
      requires Valid()
      modifies this`deck, this`playerHand, this`isGameOver, this`gameResult, this`balance, this`isNewGame
      ensures Valid()
      ensures old(deck) == [] ==> r == Err(DeckExhausted) && Untouched()
      ensures old(deck) != [] ==>
        var i := rng(0, |old(deck)|);
        && r.Ok?
        && deck == Without(old(deck), i)
        && playerHand == old(playerHand) + [old(deck)[i]]
        && match HitOutcome(HandValue(playerHand))
           case Some(o) => EndedWith(o)
           case None => NotEnded() && isGameOver == old(isGameOver)
    {
      var updatedHand := DrawOnto(playerHand, dealerHand, rng, 0);
      if updatedHand.Err? {
        return Err(DeckExhausted);
      }
      playerHand := updatedHand.value;
      var handValue := CalculateHandValue(playerHand);
      if handValue > 21 {
        EndGame(Outcome(DealerWins, PlayerBust));
      } else if handValue == 21 {
        EndGame(Outcome(PlayerWins, BlackjackWin));
      }
      r := Ok(());
    }

    /**
     * dealToDealer (stand): ignored once the round is over; otherwise it
     * ends the player's turn and gives the dealer one card, and a dealer
     * bust ends the round for the player.
     */
    method Stand(rng: Random) returns (r: Result<()>)
      requires Valid()
      modifies this`deck, this`dealerHand, this`isGameOver, this`gameResult, this`balance, this`isNewGame
      ensures Valid()
      ensures old(isGameOver) ==> r.Ok? && Untouched()
      ensures !old(isGameOver) && old(deck) == [] ==>
        r == Err(DeckExhausted) && isGameOver && deck == [] && dealerHand == old(dealerHand) && NotEnded()
      ensures !old(isGameOver) && old(deck) != [] ==>
        var i := rng(0, |old(deck)|);
        && r.Ok?
        && isGameOver
        && deck == Without(old(deck), i)
        && dealerHand == old(dealerHand) + [old(deck)[i]]
        && match StandOutcome(HandValue(dealerHand))
           case Some(o) => EndedWith(o)
           case None => NotEnded()
    {
      if isGameOver {
        return Ok(());
      }
      isGameOver := true;
      var updatedHand := DrawOnto(dealerHand, playerHand, rng, 0);
      if updatedHand.Err? {
        return Err(DeckExhausted);
      }
      dealerHand := updatedHand.value;
      var dealerValue := CalculateHandValue(dealerHand);
      if dealerValue > 21 {
        EndGame(Outcome(PlayerWins, DealerBust));
      }
      r := Ok(());
    }

    /**
     * The opening-deal effect: once a bet is placed and both hands are
     * empty, two cards to the player and one to the dealer.
     */
    method OpeningDeal(rng: Random) returns (r: Result<()>)
      requires Valid()
      modifies this`deck, this`playerHand, this`dealerHand
      ensures Valid()
      ensures !(old(betPlaced) && old(playerHand) == [] && old(dealerHand) == []) ==>
        r.Ok? && deck == old(deck) && playerHand == old(playerHand) && dealerHand == old(dealerHand)
      ensures old(betPlaced) && old(playerHand) == [] && old(dealerHand) == [] ==>
        match DrawMany(old(deck), rng, 0, 3)
        case Some(d) =>
          r.Ok? && |playerHand| == 2 && playerHand + dealerHand == d.cards && deck == d.rest
        case None =>
          && r == Err(DeckExhausted) && deck == [] && dealerHand == []
          && (|old(deck)| < 2 ==> playerHand == [])
          && (|old(deck)| == 2 ==>
                var i0 := rng(0, 2);
                playerHand == [old(deck)[i0], old(deck)[1 - i0]])
    {
      if betPlaced && |playerHand| == 0 && |dealerHand| == 0 {
        OpeningDraws(deck, rng);
        var first := DrawOnto([], dealerHand, rng, 0);
        if first.Err? {
          return Err(DeckExhausted);
        }
        var both := DrawOnto(first.value, dealerHand, rng, 1);
        if both.Err? {
          return Err(DeckExhausted);
        }
        playerHand := both.value;
        var dealt := DrawOnto([], playerHand, rng, 2);
        if dealt.Err? {
          assert |old(deck)| == 2;
          ghost var i0 := rng(0, 2);
          assert Without(old(deck), i0) == [old(deck)[1 - i0]];
          return Err(DeckExhausted);
        }
        dealerHand := dealt.value;
      }
      r := Ok(());
    }

    /**
     * The drawing loop of the dealer-completion effect: a copy of the
     * dealer's hand grows by drawn cards while it is worth less than 17.
     * The dealer's hand itself is not changed.
     */
    method DealerDraws(rng: Random) returns (r: Result<seq<Card>>)
      requires Valid()
      modifies this`deck
      ensures Valid()
      ensures match DealerPlay(dealerHand, old(deck), rng, 0)
        case Some(d) =>
          && r == Ok(d.cards) && deck == d.rest
          && |playerHand| + |d.cards| + |deck| <= |fullDeck|
        case None => r == Err(DeckExhausted) && deck == []
    {
      var hand := dealerHand;
      var k := 0;
      var value := CalculateHandValue(hand);
      while value < 17
        invariant value == HandValue(hand)
        invariant DealerPlay(hand, deck, rng, k) == DealerPlay(dealerHand, old(deck), rng, 0)
        invariant |dealerHand| <= |hand|
        invariant |hand| + |playerHand| + |deck| <= |fullDeck|
        decreases |deck|
      {
        var updatedHand := DrawOnto(hand, playerHand, rng, k);
        if updatedHand.Err? {
          return Err(DeckExhausted);
        }
        hand := updatedHand.value;
        k := k + 1;
        value := CalculateHandValue(hand);
      }
      r := Ok(hand);
    }

    /**
     * The dealer-completion effect: once the round is over, the dealer
     * draws while below 17, then the final values are compared and the
     * round ends with the comparison's outcome.
     */
    method DealerCompletion(rng: Random) returns (r: Result<()>)
      requires Valid()
      modifies this`deck, this`dealerHand, this`isGameOver, this`gameResult, this`balance, this`isNewGame
      ensures Valid()
      ensures !old(isGameOver) ==> r.Ok? && Untouched()
      ensures old(isGameOver) ==>
        match DealerPlay(old(dealerHand), old(deck), rng, 0)
        case Some(d) =>
          && r.Ok? && dealerHand == d.cards && deck == d.rest
          && EndedWith(Compare(HandValue(playerHand), HandValue(d.cards)))
        case None =>
          r == Err(DeckExhausted) && deck == [] && dealerHand == old(dealerHand)
          && isGameOver && NotEnded()
    {
      if isGameOver {
        var updatedHand := DealerDraws(rng);
        if updatedHand.Err? {
          return Err(DeckExhausted);
        }
        dealerHand := updatedHand.value;
        var playerValue := CalculateHandValue(playerHand);
        var dealerValue := CalculateHandValue(dealerHand);
        EndGame(Compare(playerValue, dealerValue));
      }
      r := Ok(());
    }

    /**
     * resetGame: a new round with empty hands, no result, no bet and the
     * full deck; the balance is kept.
     */
    method ResetGame()
      modifies this
      ensures Valid()
      ensures playerHand == [] && dealerHand == [] && deck == fullDeck
      ensures !isGameOver && gameResult == NoResult && !isNewGame
      ensures bet == 0 && !betPlaced
      ensures balance == old(balance)
    {
      playerHand := [];
      dealerHand := [];
      isGameOver := false;
      gameResult := NoResult;
      isNewGame := false;
      deck := fullDeck;
      bet := 0;
      betPlaced := false;
    }

    /**
     * placeBet: adds `amount` to the bet when the amount alone is within
     * the balance; the running bet is not checked against it.
     */
    method PlaceBet(amount: int)
      requires Valid()
      modifies this`bet
      ensures Valid()
      ensures bet == if amount <= balance then old(bet) + amount else old(bet)
    {
      if amount <= balance {
        bet := bet + amount;
      }
    }

    /** The Clear Bet button. */
    method ClearBet()
      requires Valid()
      modifies this`bet
      ensures Valid()
      ensures bet == 0
    {
      bet := 0;
    }

    /** The Place Bet button, which locks the bet in and starts the deal. */
    method ConfirmBet()
      requires Valid()
      modifies this`betPlaced
      ensures Valid()
      ensures betPlaced
    {
      betPlaced := true;
    }
  }
}
