/**
 * Dealer completion: from the dealer's hand, draw while its value is below
 * 17. DealerPlay is the sequential meaning of the loop in the completion
 * effect; each draw sees the deck left by the previous one.
 */
module Dealer {
  import opened Cards
  import opened Options
  import opened Hands
  import opened Deck
  import opened Rules

  /** The dealer's final hand and the deck left, or None if the deck ran out. */
  function DealerPlay(hand: seq<Card>, deck: seq<Card>, rng: Random, k: nat): (r: Option<Dealt>)
    ensures r.Some? ==> !MustDraw(HandValue(r.value.cards))
    ensures r.None? ==> MustDraw(HandValue(hand))
    decreases |deck|
  {
    if !MustDraw(HandValue(hand)) then Some(Dealt(hand, deck))
    else if deck == [] then None
    else
      var i := rng(k, |deck|);
      DealerPlay(hand + [deck[i]], Without(deck, i), rng, k + 1)
  }

  /**
   * The dealer's finished hand extends the one it started from, is worth at
   * least 17, and was drawn to only while it was worth less than 17.
   */
  lemma {:induction false} DealerPlayStops(hand: seq<Card>, deck: seq<Card>, rng: Random, k: nat)
    ensures DealerPlay(hand, deck, rng, k).Some? ==>
      var d := DealerPlay(hand, deck, rng, k).value;
      && HandValue(d.cards) >= 17
      && |hand| <= |d.cards|
      && d.cards[..|hand|] == hand
      && (forall j :: |hand| <= j < |d.cards| ==> HandValue(d.cards[..j]) < 17)
    ensures DealerPlay(hand, deck, rng, k).None? ==> HandValue(hand) < 17
    decreases |deck|
  {
    if MustDraw(HandValue(hand)) && deck != [] {
      var i := rng(k, |deck|);
      var hand' := hand + [deck[i]];
      DealerPlayStops(hand', Without(deck, i), rng, k + 1);
      var r := DealerPlay(hand', Without(deck, i), rng, k + 1);
      if r.Some? {
        var d := r.value;
        assert d.cards[..|hand'|] == hand';
        assert d.cards[..|hand|] == hand' [..|hand|] == hand;
        forall j | |hand| <= j < |d.cards|
          ensures HandValue(d.cards[..j]) < 17
        {
          if j == |hand| {
            assert d.cards[..j] == hand;
          }
        }
      }
    }
  }

  /**
   * Every card the dealer draws comes out of the deck: the hand grows by as
   * many cards as the deck loses, none lost and none twice.
   */
  lemma {:induction false} DealerPlayConserves(hand: seq<Card>, deck: seq<Card>, rng: Random, k: nat)
    ensures DealerPlay(hand, deck, rng, k).Some? ==>
      var d := DealerPlay(hand, deck, rng, k).value;
      && |d.cards| - |hand| == |deck| - |d.rest|
      && multiset(d.cards) + multiset(d.rest) == multiset(hand) + multiset(deck)
    decreases |deck|
  {
    if MustDraw(HandValue(hand)) && deck != [] {
      var i := rng(k, |deck|);
      DealerPlayConserves(hand + [deck[i]], Without(deck, i), rng, k + 1);
      DealConserves(hand, deck, i);
    }
  }

  /** A dealer hand already worth 17 or more is left as it is. */
  lemma DealerStandsAt17(hand: seq<Card>, deck: seq<Card>, rng: Random, k: nat)
    requires HandValue(hand) >= 17
    ensures DealerPlay(hand, deck, rng, k) == Some(Dealt(hand, deck))
  {
  }

  /** The dealer runs out of cards only when the whole deck is not enough. */
  lemma {:induction false} DealerPlayExhausts(hand: seq<Card>, deck: seq<Card>, rng: Random, k: nat)
    ensures DealerPlay(hand, deck, rng, k).None? ==>
      HandValue(hand) < 17 && DrawMany(deck, rng, k, |deck|).Some? &&
      HandValue(hand + DrawMany(deck, rng, k, |deck|).value.cards) < 17
    decreases |deck|
  {
    if MustDraw(HandValue(hand)) && deck != [] {
      var i := rng(k, |deck|);
      DealerPlayExhausts(hand + [deck[i]], Without(deck, i), rng, k + 1);
      assert |Without(deck, i)| == |deck| - 1;
      var rest := DrawMany(Without(deck, i), rng, k + 1, |deck| - 1);
      if rest.Some? {
        assert hand + [deck[i]] + rest.value.cards == hand + ([deck[i]] + rest.value.cards);
      }
    } else if deck == [] {
      assert hand + [] == hand;
    }
  }
}
