/**
 * The deck and drawCard. The component picks a position with
 * Math.floor(Math.random() * deck.length), returns the card there and keeps
 * every other position. Math.random is not part of the model: a handler is
 * given a Random source instead, which names the position each of its draws
 * picks.
 */
module Deck {
  import opened Cards
  import opened Options

  type Roll = u: real | 0.0 <= u < 1.0 witness 0.0

  datatype DeckError = DeckExhausted

  /** Success, or the error of drawing from an empty deck. */
  datatype Result<T> = Ok(value: T) | Err(error: DeckError)

  /** Cards drawn, in draw order, and the deck left behind. */
  datatype Dealt = Dealt(cards: seq<Card>, rest: seq<Card>)

  /** The position Math.floor(u * n) picks; a valid index whenever n > 0. */
  function DrawIndex(u: Roll, n: nat): (i: nat)
    ensures n > 0 ==> i < n
  {
    assert 0.0 <= u * n as real;
    assert n > 0 ==> u * n as real < n as real;
    (u * n as real).Floor
  }

  /**
   * The positions a handler's draws pick: rng(k, n) is the position its
   * k-th draw takes from a deck of n cards, always a valid one.
   */
  type Random = f: (nat, nat) -> nat | forall k: nat, n: nat :: 0 < n ==> f(k, n) < n
    witness (k: nat, n: nat) => 0

  /** The position source that always picks the top card. */
  const TopCard: Random := (k: nat, n: nat) => 0

  /** The source that Math.random values rolls(0), rolls(1), ... give. */
  function FromRolls(rolls: nat -> Roll): (rng: Random)
    ensures forall k: nat, n: nat :: rng(k, n) == DrawIndex(rolls(k), n)
  {
    assert forall k: nat, n: nat :: 0 < n ==> DrawIndex(rolls(k), n) < n;
    (k: nat, n: nat) => DrawIndex(rolls(k), n)
  }

  /** Every position of a non-empty deck can be picked by some roll. */
  lemma DrawIndexReaches(n: nat, i: nat)
    requires i < n
    ensures 0.0 <= i as real / n as real < 1.0
    ensures DrawIndex(i as real / n as real, n) == i
  {
    var u := i as real / n as real;
    assert u * n as real == i as real;
  }

  /** The deck with position i taken out, the others kept in order. */
  function Without(deck: seq<Card>, i: nat): (rest: seq<Card>)
    requires i < |deck|
    ensures |rest| == |deck| - 1
  {
    deck[..i] + deck[i + 1..]
  }

  /**
   * deck.filter((_, index) => index !== i), position by position: every
   * position other than i is kept, whatever i is.
   */
  function KeepOthers(deck: seq<Card>, i: int): (kept: seq<Card>)
    ensures |kept| == if 0 <= i < |deck| then |deck| - 1 else |deck|
    decreases |deck|
  {
    if deck == [] then []
    else (if i == 0 then [] else [deck[0]]) + KeepOthers(deck[1..], i - 1)
  }

  /** The filter removes exactly position i, and nothing when i names no position. */
  lemma {:induction false} KeepOthersIsWithout(deck: seq<Card>, i: int)
    ensures 0 <= i < |deck| ==> KeepOthers(deck, i) == Without(deck, i)
    ensures (i < 0 || i >= |deck|) ==> KeepOthers(deck, i) == deck
    decreases |deck|
  {
    if deck != [] {
      var tail := deck[1..];
      KeepOthersIsWithout(tail, i - 1);
      if i == 0 {
        assert KeepOthers(deck, 0) == [] + KeepOthers(tail, -1);
        assert Without(deck, 0) == tail;
      } else {
        assert KeepOthers(deck, i) == [deck[0]] + KeepOthers(tail, i - 1);
        if 0 < i < |deck| {
          calc {
            [deck[0]] + (tail[..i - 1] + tail[i..]);
            ([deck[0]] + tail[..i - 1]) + tail[i..];
            { assert [deck[0]] + tail[..i - 1] == deck[..i]; assert tail[i..] == deck[i + 1..]; }
            deck[..i] + deck[i + 1..];
          }
        } else {
          assert deck == [deck[0]] + tail;
        }
      }
    }
  }

  /** The drawn card and what is left make up the deck before the draw. */
  lemma WithoutConserves(deck: seq<Card>, i: nat)
    requires i < |deck|
    ensures multiset(Without(deck, i)) + multiset{deck[i]} == multiset(deck)
  {
    assert deck == deck[..i] + [deck[i]] + deck[i + 1..];
  }

  /**
   * [...hand, drawCard()]: the card moves from the deck to the hand, so the
   * cards of hand and deck together are the same before and after.
   */
  lemma DealConserves(hand: seq<Card>, deck: seq<Card>, i: nat)
    requires i < |deck|
    ensures multiset(hand + [deck[i]]) + multiset(Without(deck, i)) == multiset(hand) + multiset(deck)
  {
    WithoutConserves(deck, i);
    assert multiset(hand + [deck[i]]) == multiset(hand) + multiset{deck[i]};
  }

  /**
   * `n` draws one after the other, each seeing the deck the previous one
   * left, the first at the position draw k of rng picks, the next at draw
   * k + 1, and so on; None when the deck runs out.
   */
  function DrawMany(deck: seq<Card>, rng: Random, k: nat, n: nat): (r: Option<Dealt>)
    ensures r.Some? ==> |r.value.cards| == n && |r.value.rest| == |deck| - n
    decreases n
  {
    if n == 0 then Some(Dealt([], deck))
    else if deck == [] then None
    else
      var i := rng(k, |deck|);
      match DrawMany(Without(deck, i), rng, k + 1, n - 1)
      case None => None
      case Some(d) => Some(Dealt([deck[i]] + d.cards, d.rest))
  }

  /**
   * Drawing without replacement: `n` draws succeed exactly when the deck
   * holds `n` cards, and the cards drawn together with the rest are the
   * cards of the deck, none lost and none twice.
   */
  lemma {:induction false} DrawManyConserves(deck: seq<Card>, rng: Random, k: nat, n: nat)
    ensures DrawMany(deck, rng, k, n).Some? <==> n <= |deck|
    ensures DrawMany(deck, rng, k, n).Some? ==>
      var d := DrawMany(deck, rng, k, n).value;
      |d.cards| == n && |d.rest| == |deck| - n &&
      multiset(d.cards) + multiset(d.rest) == multiset(deck)
    decreases n
  {
    if n > 0 && deck != [] {
      var i := rng(k, |deck|);
      DrawManyConserves(Without(deck, i), rng, k + 1, n - 1);
      WithoutConserves(deck, i);
    }
  }

  /** Drawing from the top deals the top cards in order. */
  lemma {:induction false} TopCardDealsInOrder(deck: seq<Card>, k: nat, n: nat)
    requires n <= |deck|
    ensures DrawMany(deck, TopCard, k, n) == Some(Dealt(deck[..n], deck[n..]))
    decreases n
  {
    if n > 0 {
      assert TopCard(k, |deck|) == 0;
      assert Without(deck, 0) == deck[1..];
      TopCardDealsInOrder(deck[1..], k + 1, n - 1);
      assert [deck[0]] + deck[1..][..n - 1] == deck[..n];
      assert deck[1..][n - 1..] == deck[n..];
    }
  }

  /**
   * Drawing as many times as the deck has cards yields every card of the
   * deck exactly as often as it occurs there, and one more draw fails.
   */
  lemma DrawEveryCard(deck: seq<Card>, rng: Random)
    ensures DrawMany(deck, rng, 0, |deck|).Some?
    ensures DrawMany(deck, rng, 0, |deck|).value.rest == []
    ensures multiset(DrawMany(deck, rng, 0, |deck|).value.cards) == multiset(deck)
    ensures DrawMany(deck, rng, 0, |deck| + 1) == None
  {
    DrawManyConserves(deck, rng, 0, |deck|);
    DrawManyConserves(deck, rng, 0, |deck| + 1);
  }
}
