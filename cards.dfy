/**
 * Playing cards. A card is an immutable value: a rank and a suit, with no
 * identity beyond them. Numeric ranks are the integers 2 to 10 rather than
 * the strings the component parses.
 */
module Cards {

  datatype Suit = Spades | Hearts | Diamonds | Clubs

  /** The face value of a numeric rank. */
  type Pip = n: int | 2 <= n <= 10 witness 2

  datatype Rank = Number(pip: Pip) | Jack | Queen | King | Ace
  {
    /** J, Q and K: the ranks that count ten. */
    predicate IsFace() {
      Jack? || Queen? || King?
    }
  }

  datatype Card = Card(rank: Rank, suit: Suit)
}
