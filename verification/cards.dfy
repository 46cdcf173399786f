/** The card universe and the game constants the card counter relies on.
    A card is identified by its index into the fixed table of all cards
    (`Card.allCards`), so the universe is the indices 0 .. NUM_CARDS-1. */
module Cards {

  /** Number of cards in the deck (`Card.NUM_CARDS`). */
  const NUM_CARDS: nat := 52

  /** Cards dealt to each player (`Utils.HAND_SIZE`). */
  const HAND_SIZE: nat := 10

  /** A card, as its index in the table of all cards. */
  type Card = c: nat | c < NUM_CARDS

  /** Every card of the deck. */
  const Universe: set<Card> := set c: Card | true

  /** The cards whose index is below `n`, built one index at a time as
      the deck table is scanned. */
  function Below(n: nat): (r: set<Card>)
    requires n <= NUM_CARDS
    ensures forall c: Card :: c in r <==> c < n
    ensures |r| == n
  {
    if n == 0 then {} else Below(n - 1) + {(n - 1) as Card}
  }

  /** The deck holds NUM_CARDS distinct cards, and every card is in it. */
  lemma UniverseFacts()
    ensures |Universe| == NUM_CARDS
    ensures forall c: Card :: c in Universe
  {
    assert Universe == Below(NUM_CARDS);
  }
}
