/** Playing cards: a card is identified by an id in 1..52, from which its
    suit ("mark") and its rank ("number") are derived arithmetically. */
module Cards {

  /** Cards in a full deck, cards per suit, suits per deck. */
  const DECK_SIZE := 52
  const SUIT_SIZE := 13
  const SUIT_COUNT := 4

  /** A card id is 1-based, the way the card images are numbered. */
  type CardId = id: int | 1 <= id <= DECK_SIZE witness 1

  datatype Card = Card(id: CardId)

  /** Creating a card checks that its id lies in 1..52; any other id panics,
      which here is a precondition. */
  function NewCard(id: int): (c: Card)
    requires 1 <= id <= DECK_SIZE
    ensures c.id == id
  {
    Card(id)
  }

  /** The rank of a card, `id % 13`. Ids are positive, so the Euclidean `%`
      agrees with the truncating one. It is 0 exactly for the last card of
      each suit (ids 13, 26, 39, 52), so a king is worth 0. */
  function Number(c: Card): (n: int)
    ensures 0 <= n < SUIT_SIZE
    ensures n == 0 <==> c.id in {13, 26, 39, 52}
  {
    c.id % SUIT_SIZE
  }

  /** The suit of a card, `(id - 1) / 13`: suit m holds ids 13m+1 .. 13m+13. */
  function Mark(c: Card): (m: int)
    ensures 0 <= m < SUIT_COUNT
    ensures SUIT_SIZE * m < c.id <= SUIT_SIZE * m + SUIT_SIZE
  {
    (c.id - 1) / SUIT_SIZE
  }

  /** The card with a given suit and rank: the inverse of (Mark, Number). */
  function FromFace(mark: int, number: int): (c: Card)
    requires 0 <= mark < SUIT_COUNT && 0 <= number < SUIT_SIZE
    ensures Mark(c) == mark && Number(c) == number
  {
    Card(SUIT_SIZE * mark + if number == 0 then SUIT_SIZE else number)
  }

  /** Every card is recovered from its suit and rank. */
  lemma FaceRoundTrip(c: Card)
    ensures FromFace(Mark(c), Number(c)) == c
  {
    var m, n := Mark(c), Number(c);
    assert c.id == SUIT_SIZE * m + if n == 0 then SUIT_SIZE else n;
  }

  /** Distinct ids give distinct (suit, rank) pairs. */
  lemma FaceInjective(a: Card, b: Card)
    requires a.id != b.id
    ensures Mark(a) != Mark(b) || Number(a) != Number(b)
  {
    FaceRoundTrip(a);
    FaceRoundTrip(b);
  }
}
