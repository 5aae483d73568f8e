/**
 * Short sequences of Game handlers, in the order the buttons and effects
 * would run them, that show behaviour of the component as written.
 */
module Scenarios {
  import opened Cards
  import opened Options
  import opened Hands
  import opened Deck
  import opened Rules
  import opened Game

  /**
   * placeBet checks each amount against the balance, not the running bet:
   * three 500 chips on a balance of 1000 are all accepted, and losing the
   * round then leaves the balance at -500, after which the balance effect
   * ends the game.
   */
  method OverBet(deckCombinations: seq<Card>) returns (bet: int, balance: int, gameOver: bool)
    ensures bet == 1500 && balance == -500 && gameOver
  {
    var g := new Game(deckCombinations);
    g.PlaceBet(500);
    g.PlaceBet(500);
    g.PlaceBet(500);
    g.ConfirmBet();
    g.EndGame(Outcome(DealerWins, PlayerBust));
    g.CheckBalance();
    bet, balance, gameOver := g.bet, g.balance, g.isGameOver;
  }

  /**
   * endGame settles only the first outcome of a round: a later endGame
   * replaces the message shown but leaves the balance alone.
   */
  method SettlesOnce(deckCombinations: seq<Card>) returns (balance: int, result: Outcome)
    ensures balance == 1100 && result == Outcome(NoWinner, Draw)
  {
    var g := new Game(deckCombinations);
    g.PlaceBet(100);
    g.ConfirmBet();
    g.EndGame(Outcome(PlayerWins, BlackjackWin));
    g.EndGame(Outcome(NoWinner, Draw));
    balance, result := g.balance, g.gameResult;
  }

  /**
   * An opening deal of king and ace is worth 21 but does not end the
   * round: only a hit checks for 21.
   */
  method OpeningTwentyOnePlaysOn() returns (value: int, gameOver: bool)
    ensures value == 21 && !gameOver
  {
    var king, ace, five := Card(King, Spades), Card(Ace, Hearts), Card(Number(5), Clubs);
    var deck := [king, ace, five];
    var g := new Game(deck);
    g.PlaceBet(100);
    g.ConfirmBet();
    TopCardDealsInOrder(deck, 0, 3);
    var _ := g.OpeningDeal(TopCard);
    assert g.playerHand == (g.playerHand + g.dealerHand)[..2] == [king, ace];
    PairValue(king, ace);
    value := CalculateHandValue(g.playerHand);
    gameOver := g.isGameOver;
  }
}
