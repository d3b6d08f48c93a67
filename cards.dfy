/**
 * The card encoding of the Dutch Blitz engine.  A card is one byte laid out
 * as  back1 back0 front1 front0 n3 n2 n1 n0 : the back colour (which player
 * owns the card) in the top two bits, the front colour in the next two and
 * the rank in the low nibble.  Shifts and masks on a non-negative byte are
 * written here as division and remainder by powers of two.
 */
module Cards {

  /** An unsigned 8-bit value (uint8_t). */
  type Byte = x: int | 0 <= x < 256

  /** A card is a byte. */
  type Card = Byte

  /** enum Color { RED, GREEN, BLUE, YELLOW } */
  type Color = x: int | 0 <= x < 4

  const RED: Color := 0
  const GREEN: Color := 1
  const BLUE: Color := 2
  const YELLOW: Color := 3

  /** The low nibble of a card. */
  type Nibble = x: int | 0 <= x < 16

  /** card >> 6: the top two bits, so the card lies in the c-th quarter of the byte range. */
  function GetBackColor(card: Card): (c: Color)
    ensures 64 * c <= card < 64 * c + 64
  {
    card / 64
  }

  /** (card >> 4) & 0x3: bits 4 and 5, so the low six bits lie in the c-th block of sixteen. */
  function GetFrontColor(card: Card): (c: Color)
    ensures 16 * c <= card % 64 < 16 * c + 16
  {
    var q, n := card / 16, card % 16;
    assert card == 64 * (q / 4) + 16 * (q % 4) + n;
    q % 4
  }

  /** card & 0xf: what is left of the card once both colours are taken out. */
  function GetCardNumber(card: Card): Nibble
  {
    card % 16
  }

  /** A card is its back colour, its front colour and its rank put together. */
  lemma CardFields(card: Card)
    ensures card == 64 * GetBackColor(card) + 16 * GetFrontColor(card) + GetCardNumber(card)
  {
  }

  /**
   * back << 6 | front << 4 | number.  With the number inside the low nibble
   * the three fields occupy disjoint bits, so the OR is a sum; decoding the
   * result gives back the three fields.
   */
  function MakeCard(back: Color, front: Color, number: int): (card: Card)
    requires 0 <= number < 16
    ensures GetBackColor(card) == back
    ensures GetFrontColor(card) == front
    ensures GetCardNumber(card) == number
  {
    back * 64 + front * 16 + number
  }

  /**
   * (c1 & 2) != (c2 & 2): bit 1 is clear for RED and GREEN and set for BLUE
   * and YELLOW, so two colours are opposite exactly when one is RED or GREEN
   * and the other is BLUE or YELLOW.
   */
  function OppositeColors(c1: Color, c2: Color): (r: bool)
    ensures r <==> ((c1 == RED || c1 == GREEN) <==> (c2 == BLUE || c2 == YELLOW))
  {
    c1 / 2 != c2 / 2
  }

  /** Re-encoding the three decoded fields of any byte gives the byte back. */
  lemma EncodeDecoded(card: Card)
    ensures MakeCard(GetBackColor(card), GetFrontColor(card), GetCardNumber(card)) == card
  {
    var b, f, n := card / 64, (card / 16) % 4, card % 16;
    assert card / 16 == 4 * b + f;
    assert card == 16 * (card / 16) + n;
  }

  /** A card is determined by its three fields: decoding is injective. */
  lemma DecodeInjective(c1: Card, c2: Card)
    ensures (GetBackColor(c1) == GetBackColor(c2) && GetFrontColor(c1) == GetFrontColor(c2)
             && GetCardNumber(c1) == GetCardNumber(c2)) <==> c1 == c2
  {
    EncodeDecoded(c1);
    EncodeDecoded(c2);
  }

  /** Encoding is injective on valid triples. */
  lemma MakeCardInjective(b1: Color, f1: Color, n1: int, b2: Color, f2: Color, n2: int)
    requires 0 <= n1 < 16 && 0 <= n2 < 16
    ensures MakeCard(b1, f1, n1) == MakeCard(b2, f2, n2) <==> (b1 == b2 && f1 == f2 && n1 == n2)
  {
  }

  /** Being of opposite colour is a symmetric and irreflexive relation. */
  lemma OppositeSymmetricIrreflexive(c1: Color, c2: Color)
    ensures OppositeColors(c1, c2) == OppositeColors(c2, c1)
    ensures !OppositeColors(c1, c1)
  {
  }

  /**
   * The arithmetic reading of the accessors and of MakeCard agrees with the
   * shift-and-mask reading on 8-bit vectors.
   */
  lemma BitLayout(card: bv8)
    ensures GetBackColor(card as int) == (card >> 6) as int
    ensures GetFrontColor(card as int) == ((card >> 4) & 3) as int
    ensures GetCardNumber(card as int) == (card & 15) as int
  {
    CardFields(card as int);
  }

  /** The same agreement for the encoder, whose OR of shifted fields is a sum. */
  lemma MakeCardBitLayout(back: bv8, front: bv8, number: bv8)
    requires back < 4 && front < 4 && number < 16
    ensures MakeCard(back as int, front as int, number as int)
            == ((back << 6) | (front << 4) | number) as int
  {
    var card := (back << 6) | (front << 4) | number;
    assert card >> 6 == back && (card >> 4) & 3 == front && card & 15 == number;
    BitLayout(card);
    DecodeInjective(card as int, MakeCard(back as int, front as int, number as int));
  }
}
