/**
 * Hand valuation (calculateHandValue). Every card contributes its points,
 * an ace contributing 11; then ten is taken off once per ace for as long as
 * the total is over 21.
 */
module Hands {
  import opened Cards

  /** What one card adds before any ace is softened. */
  function Points(c: Card): (p: int)
    ensures 2 <= p <= 11
    ensures p == 11 <==> c.rank == Ace
    ensures p == 10 <==> c.rank.IsFace() || c.rank == Number(10)
    ensures c.rank.Number? ==> p == c.rank.pip
  {
    if c.rank.IsFace() then 10
    else if c.rank == Ace then 11
    else c.rank.pip
  }

  /** The total with every ace counted as 11. */
  function RawTotal(hand: seq<Card>): int
  {
    if hand == [] then 0
    else RawTotal(hand[..|hand| - 1]) + Points(hand[|hand| - 1])
  }

  /** The number of aces in the hand. */
  function AceCount(hand: seq<Card>): nat
  {
    if hand == [] then 0
    else AceCount(hand[..|hand| - 1]) + (if hand[|hand| - 1].rank == Ace then 1 else 0)
  }

  /** The softening loop: ten off per ace while the total is over 21. */
  function Soften(total: int, aces: nat): (t: int)
    ensures total - 10 * aces <= t <= total
    ensures t <= 21 || t == total - 10 * aces
    decreases aces
  {
    if total > 21 && aces > 0 then Soften(total - 10, aces - 1) else total
  }

  /** The value of a hand, recomputed from its cards. */
  function HandValue(hand: seq<Card>): (v: int)
    ensures RawTotal(hand) - 10 * AceCount(hand) <= v <= RawTotal(hand)
    ensures v > 21 ==> v == RawTotal(hand) - 10 * AceCount(hand)
  {
    Soften(RawTotal(hand), AceCount(hand))
  }

  /** The total when exactly `softened` aces count 1 instead of 11. */
  function SoftTotal(hand: seq<Card>, softened: nat): int
  {
    RawTotal(hand) - 10 * softened
  }

  /**
   * Closed form of the number of aces the loop softens: the fewest that
   * bring the total to 21 or less, or all of them when that is not enough.
   */
  function SoftenedAces(total: int, aces: nat): (k: nat)
    ensures k <= aces
    ensures total - 10 * k <= 21 || k == aces
    ensures k == 0 || total - 10 * (k - 1) > 21
  {
    if total <= 21 then 0
    else if (total - 12) / 10 < aces then (total - 12) / 10
    else aces
  }

  /** The loop takes off ten exactly SoftenedAces times. */
  lemma {:induction false} SoftenClosedForm(total: int, aces: nat)
    ensures Soften(total, aces) == total - 10 * SoftenedAces(total, aces)
    decreases aces
  {
    if total > 21 && aces > 0 {
      SoftenClosedForm(total - 10, aces - 1);
      assert SoftenedAces(total - 10, aces - 1) == SoftenedAces(total, aces) - 1;
    }
  }

  /** A hand's value is its raw total less ten per softened ace. */
  lemma HandValueClosedForm(hand: seq<Card>)
    ensures HandValue(hand) == SoftTotal(hand, SoftenedAces(RawTotal(hand), AceCount(hand)))
  {
    SoftenClosedForm(RawTotal(hand), AceCount(hand));
  }

  /**
   * Of the totals reachable by softening some of the aces, the hand's value
   * is the largest one not over 21 when there is one, and otherwise the
   * smallest bust total, the one with every ace softened.
   */
  lemma HandValueIsBest(hand: seq<Card>)
    ensures exists j :: 0 <= j <= AceCount(hand) && HandValue(hand) == SoftTotal(hand, j)
    ensures HandValue(hand) <= 21 ==>
      forall j :: 0 <= j <= AceCount(hand) && SoftTotal(hand, j) <= 21 ==> SoftTotal(hand, j) <= HandValue(hand)
    ensures HandValue(hand) > 21 ==>
      HandValue(hand) == SoftTotal(hand, AceCount(hand)) &&
      forall j :: 0 <= j <= AceCount(hand) ==> HandValue(hand) <= SoftTotal(hand, j)
  {
    var k := SoftenedAces(RawTotal(hand), AceCount(hand));
    HandValueClosedForm(hand);
    assert HandValue(hand) == SoftTotal(hand, k);
  }

  /** Appending a card adds its points to the raw total and counts an ace. */
  lemma RawTotalSnoc(hand: seq<Card>, c: Card)
    ensures RawTotal(hand + [c]) == RawTotal(hand) + Points(c)
    ensures AceCount(hand + [c]) == AceCount(hand) + (if c.rank == Ace then 1 else 0)
  {
    assert (hand + [c])[..|hand|] == hand;
  }

  /** A two-card hand: the points of both cards, softened for its aces. */
  lemma PairValue(a: Card, b: Card)
    ensures HandValue([a, b]) ==
      Soften(Points(a) + Points(b), (if a.rank == Ace then 1 else 0) + (if b.rank == Ace then 1 else 0))
  {
    RawTotalSnoc([], a);
    RawTotalSnoc([a], b);
    assert [a] + [b] == [a, b];
  }

  /** The empty hand is worth 0, and two aces are worth 12: one is softened. */
  lemma EmptyAndTwoAces()
    ensures HandValue([]) == 0
    ensures HandValue([Card(Ace, Spades), Card(Ace, Hearts)]) == 12
  {
    RawTotalSnoc([], Card(Ace, Spades));
    RawTotalSnoc([Card(Ace, Spades)], Card(Ace, Hearts));
    assert [Card(Ace, Spades)] + [Card(Ace, Hearts)] == [Card(Ace, Spades), Card(Ace, Hearts)];
  }

  /** An ace with a king is worth 21: the ace keeps its 11. */
  lemma AceKingMakesTwentyOne()
    ensures HandValue([Card(Ace, Spades), Card(King, Hearts)]) == 21
  {
    RawTotalSnoc([], Card(Ace, Spades));
    RawTotalSnoc([Card(Ace, Spades)], Card(King, Hearts));
    assert [Card(Ace, Spades)] + [Card(King, Hearts)] == [Card(Ace, Spades), Card(King, Hearts)];
  }

  /** Without aces nothing is softened: 10, 8 and 5 bust at 23. */
  lemma TenEightFiveBusts()
    ensures HandValue([Card(Number(10), Clubs), Card(Number(8), Hearts), Card(Number(5), Spades)]) == 23
  {
    var hand := [Card(Number(10), Clubs), Card(Number(8), Hearts), Card(Number(5), Spades)];
    RawTotalSnoc([], Card(Number(10), Clubs));
    RawTotalSnoc([Card(Number(10), Clubs)], Card(Number(8), Hearts));
    RawTotalSnoc(hand[..2], Card(Number(5), Spades));
    assert [Card(Number(10), Clubs)] + [Card(Number(8), Hearts)] == hand[..2];
    assert hand[..2] + [Card(Number(5), Spades)] == hand;
  }

  /**
   * calculateHandValue as the component writes it: one pass that sums the
   * points and counts the aces, then the softening loop.
   */
  method CalculateHandValue(hand: seq<Card>) returns (value: int)
    ensures value == HandValue(hand)
  {
    value := 0;
    var aces: nat := 0;
    var i := 0;
    while i < |hand|
      invariant 0 <= i <= |hand|
      invariant value == RawTotal(hand[..i])
      invariant aces == AceCount(hand[..i])
    {
      var card := hand[i];
      if card.rank.IsFace() {
        value := value + 10;
      } else if card.rank == Ace {
        aces := aces + 1;
        value := value + 11;
      } else {
        value := value + card.rank.pip;
      }
      assert hand[..i + 1][..i] == hand[..i];
      i := i + 1;
    }
    assert hand[..i] == hand;
    while value > 21 && aces > 0
      invariant Soften(value, aces) == HandValue(hand)
      decreases aces
    {
      value := value - 10;
      aces := aces - 1;
    }
  }
}
