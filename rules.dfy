/**
 * The house rules: which outcome a hit or a stand produces, how the final
 * hands are compared, the dealer's drawing policy and the balance change a
 * settled outcome makes.
 */
module Rules {
  import opened Options

  /** The component's winner strings: 'player', 'dealer' and ''. */
  datatype Winner = PlayerWins | DealerWins | NoWinner

  /** The fixed messages a round can end with; Text gives their wording. */
  datatype Message =
    | NoMessage
    | PlayerBust
    | BlackjackWin
    | DealerBust
    | BothBust
    | PlayerHigher
    | DealerHigher
    | Draw

  function Text(m: Message): (s: string)
    ensures s == [] <==> m == NoMessage
  {
    match m
    case NoMessage => ""
    case PlayerBust => "Player Bust! Dealer Wins!"
    case BlackjackWin => "Blackjack! Player Wins!"
    case DealerBust => "Dealer Bust! Player Wins!"
    case BothBust => "Both Bust! It's a Draw!"
    case PlayerHigher => "Player Wins!"
    case DealerHigher => "Dealer Wins!"
    case Draw => "It's a Draw!"
  }

  /** Different messages have different wordings. */
  lemma TextDistinct(m1: Message, m2: Message)
    requires m1 != m2
    ensures Text(m1) != Text(m2)
  {
  }

  /** gameResult: the winner and the message shown with it. */
  datatype Outcome = Outcome(winner: Winner, message: Message)

  /** The result the component shows while no round has ended. */
  const NoResult := Outcome(NoWinner, NoMessage)

  /** The outcome a hit produces from the player's new value, if any. */
  function HitOutcome(playerValue: int): (o: Option<Outcome>)
    ensures o.Some? <==> playerValue >= 21
    ensures o.Some? ==> (o.value.winner == PlayerWins <==> playerValue == 21)
    ensures o.Some? ==> o.value.winner != NoWinner
    ensures o.Some? ==> o.value.message == (if playerValue == 21 then BlackjackWin else PlayerBust)
  {
    if playerValue > 21 then Some(Outcome(DealerWins, PlayerBust))
    else if playerValue == 21 then Some(Outcome(PlayerWins, BlackjackWin))
    else None
  }

  /** The outcome the dealer's stand card produces, if any. */
  function StandOutcome(dealerValue: int): (o: Option<Outcome>)
    ensures o.Some? <==> dealerValue > 21
    ensures o.Some? ==> o.value.winner == PlayerWins
    ensures o.Some? ==> o.value.message == DealerBust
  {
    if dealerValue > 21 then Some(Outcome(PlayerWins, DealerBust))
    else None
  }

  /**
   * The comparison of the final values. Each side wins when it is not bust
   * and the other is bust or lower; otherwise (both bust, or equal) no one
   * does.
   */
  function Compare(playerValue: int, dealerValue: int): (o: Outcome)
    ensures o.winner == PlayerWins <==>
      playerValue <= 21 && (dealerValue > 21 || playerValue > dealerValue)
    ensures o.winner == DealerWins <==>
      dealerValue <= 21 && (playerValue > 21 || dealerValue > playerValue)
    ensures o.winner == NoWinner <==>
      (playerValue > 21 && dealerValue > 21) || (playerValue <= 21 && playerValue == dealerValue)
    ensures o.message == BothBust <==> playerValue > 21 && dealerValue > 21
    ensures o.message == PlayerBust <==> playerValue > 21 && dealerValue <= 21
    ensures o.message == DealerBust <==> dealerValue > 21 && playerValue <= 21
    ensures o.message == PlayerHigher <==> dealerValue < playerValue <= 21
    ensures o.message == DealerHigher <==> playerValue < dealerValue <= 21
    ensures o.message == Draw <==> playerValue <= 21 && playerValue == dealerValue
    ensures o.message != NoMessage && o.message != BlackjackWin
  {
    if playerValue > 21 && dealerValue > 21 then Outcome(NoWinner, BothBust)
    else if playerValue > 21 then Outcome(DealerWins, PlayerBust)
    else if dealerValue > 21 then Outcome(PlayerWins, DealerBust)
    else if playerValue > dealerValue then Outcome(PlayerWins, PlayerHigher)
    else if playerValue < dealerValue then Outcome(DealerWins, DealerHigher)
    else Outcome(NoWinner, Draw)
  }

  /** The dealer policy: draw while the hand is worth less than 17. */
  predicate MustDraw(dealerValue: int)
  {
    dealerValue < 17
  }

  /** The balance after settling a round: the bet is won, lost or kept. */
  function Settle(balance: int, bet: int, winner: Winner): (r: int)
    ensures 0 <= bet ==> (r > balance <==> winner == PlayerWins && bet > 0)
    ensures 0 <= bet ==> (r < balance <==> winner == DealerWins && bet > 0)
    ensures r == balance || r - balance == bet || balance - r == bet
  {
    match winner
    case PlayerWins => balance + bet
    case DealerWins => balance - bet
    case NoWinner => balance
  }

  /**
   * Settling keeps the balance non-negative only while the bet is covered
   * by it; a bet above the balance can drive it below zero.
   */
  lemma SettleStaysCovered(balance: int, bet: int, winner: Winner)
    requires 0 <= bet
    ensures bet <= balance ==> Settle(balance, bet, winner) >= 0
    ensures bet > balance && winner == DealerWins ==> Settle(balance, bet, winner) < 0
  {
  }
}
