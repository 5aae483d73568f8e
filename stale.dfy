/**
 * The opening deal as the component executes it. The three drawCard()
 * calls of the opening-deal effect run within one render, so each reads the
 * same `deck`: all three pick a position in that deck, and each stores that
 * deck minus its own pick, so only the last removal survives. The two
 * player cards stay in the deck unless the dealer's pick is the same
 * position, and may even repeat the dealer's card.
 * The dealer loop of the completion effect reads the same stale deck in
 * the same way. The rest of the model deals sequentially instead
 * (Game.Game.OpeningDeal, Deck.DrawMany).
 */
module Stale {
  import opened Cards
  import opened Options
  import opened Deck

  /** The hands an opening deal produces, and the deck it leaves. */
  datatype Opening = Opening(player: seq<Card>, dealer: seq<Card>, rest: seq<Card>)

  /** The three draws of one render, all from the same deck. */
  function StaleOpeningDeal(deck: seq<Card>, rng: Random): (o: Option<Opening>)
    ensures o.Some? <==> deck != []
    ensures o.Some? ==>
      && |o.value.player| == 2 && |o.value.dealer| == 1
      && (forall c :: c in o.value.player + o.value.dealer ==> c in deck)
  {
    if deck == [] then None
    else
      var n := |deck|;
      var i0, i1, i2 := rng(0, n), rng(1, n), rng(2, n);
      Some(Opening([deck[i0], deck[i1]], [deck[i2]], Without(deck, i2)))
  }

  /**
   * As written, the opening deal never conserves the deck: three cards are
   * dealt but only one leaves it, so two more cards are in play than the
   * deck held.
   */
  lemma StaleOpeningGainsCards(deck: seq<Card>, rng: Random)
    requires deck != []
    ensures var o := StaleOpeningDeal(deck, rng).value;
      && |o.player| + |o.dealer| + |o.rest| == |deck| + 2
      && multiset(o.player) + multiset(o.dealer) + multiset(o.rest) != multiset(deck)
  {
    var o := StaleOpeningDeal(deck, rng).value;
    assert |multiset(o.player) + multiset(o.dealer) + multiset(o.rest)| == |deck| + 2;
  }

  /**
   * A deck of three different cards, dealt from the top: as written the
   * ace of spades is dealt three times, to both hands, and removed from the
   * deck once; dealt sequentially, each card is dealt once.
   */
  lemma StaleOpeningDealsAceThrice()
    ensures var deck := [Card(Ace, Spades), Card(King, Spades), Card(Queen, Spades)];
      && StaleOpeningDeal(deck, TopCard) == Some(Opening(
           [Card(Ace, Spades), Card(Ace, Spades)], [Card(Ace, Spades)],
           [Card(King, Spades), Card(Queen, Spades)]))
      && DrawMany(deck, TopCard, 0, 3) == Some(Dealt(deck, []))
  {
    var deck := [Card(Ace, Spades), Card(King, Spades), Card(Queen, Spades)];
    assert TopCard(0, 3) == 0 && TopCard(1, 3) == 0 && TopCard(2, 3) == 0;
    assert Without(deck, 0) == [Card(King, Spades), Card(Queen, Spades)];
    TopCardDealsInOrder(deck, 0, 3);
    assert deck[..3] == deck && deck[3..] == [];
  }
}
