/**
 * A player's deck: the 40 cards of one back colour (four front colours,
 * ranks 0 to 9), laid out in order and then shuffled in place with a
 * Fisher-Yates shuffle.  The random numbers the shuffle draws are a
 * parameter: `rolls` lists the values `random()` returns, in the order the
 * shuffle asks for them.
 */
module Deck {
  import opened Cards
  import opened Rules

  /** The deck before shuffling: position 10 * front + rank holds that card. */
  function StandardDeck(bg: Color): (d: seq<Card>)
    ensures |d| == 40
    ensures forall i :: 0 <= i < 40 ==> d[i] == MakeCard(bg, i / 10, i % 10)
  {
    seq(40, i requires 0 <= i < 40 => MakeCard(bg, i / 10, i % 10))
  }

  /** The deck holds exactly the cards of back colour bg with a rank below 10. */
  lemma StandardDeckExactly(bg: Color, card: Card)
    ensures card in StandardDeck(bg) <==> GetBackColor(card) == bg && GetCardNumber(card) < 10
  {
    var d := StandardDeck(bg);
    if GetBackColor(card) == bg && GetCardNumber(card) < 10 {
      var f: int, r: int := GetFrontColor(card), GetCardNumber(card);
      var i := 10 * f + r;
      assert i / 10 == f && i % 10 == r;
      EncodeDecoded(card);
      assert d[i] == MakeCard(bg, f, r) == card;
    }
  }

  /** The 40 cards of a deck are pairwise distinct. */
  lemma StandardDeckDistinct(bg: Color)
    ensures forall i, j :: 0 <= i < j < 40 ==> StandardDeck(bg)[i] != StandardDeck(bg)[j]
  {
    var d := StandardDeck(bg);
    forall i, j | 0 <= i < j < 40 ensures d[i] != d[j] {
      MakeCardInjective(bg, i / 10, i % 10, bg, j / 10, j % 10);
    }
  }

  lemma {:induction false} StandardDeckZerosPrefix(bg: Color, n: nat)
    requires n <= 40
    ensures CountZeros(StandardDeck(bg)[..n]) == (n + 9) / 10
  {
    if n > 0 {
      var d := StandardDeck(bg);
      var m := n - 1;
      assert d[..n][..m] == d[..m];
      StandardDeckZerosPrefix(bg, m);
      assert CountZeros(d[..n]) == CountZeros(d[..m]) + (if GetCardNumber(d[m]) == 0 then 1 else 0);
      assert GetCardNumber(d[m]) == m % 10;
      var q, r := m / 10, m % 10;
      assert m == 10 * q + r && 0 <= r < 10;
      assert (n + 9) / 10 == q + 1;
      assert (m + 9) / 10 == if r == 0 then q else q + 1;
    }
  }

  /** A deck holds four 0 cards, one per front colour. */
  lemma StandardDeckZeros(bg: Color)
    ensures Zeros(multiset(StandardDeck(bg))) == 4
  {
    StandardDeckZerosPrefix(bg, 40);
    assert StandardDeck(bg)[..40] == StandardDeck(bg);
    ZerosOfSeq(StandardDeck(bg));
  }

  /** s with the entries at i and j exchanged. */
  function Swap(s: seq<Card>, i: int, j: int): (r: seq<Card>)
    requires 0 <= i < |s| && 0 <= j < |s|
    ensures |r| == |s|
  {
    s[i := s[j]][j := s[i]]
  }

  /** Exchanging two entries keeps the same cards. */
  lemma SwapPermutes(s: seq<Card>, i: int, j: int)
    requires 0 <= i < |s| && 0 <= j < |s|
    ensures multiset(Swap(s, i, j)) == multiset(s)
  {
    var u := s[i := s[j]];
    assert multiset(u) == multiset(s) - multiset{s[i]} + multiset{s[j]};
    assert multiset(u[j := s[i]]) == multiset(u) - multiset{u[j]} + multiset{s[i]};
  }

  /**
   * The first n entries of s as the shuffle's loop leaves them once its
   * counter has come down to i.  The counter starts at n - 1; the step for
   * counter k exchanges entry k with entry rolls[n - 1 - k] % (k + 1),
   * which lies in [0, k].
   */
  function ShuffledTo(s: seq<Card>, n: int, i: int, rolls: seq<nat>): (r: seq<Card>)
    requires n <= |s| && -1 <= i <= n - 1 && n - 1 - i <= |rolls|
    decreases n - i
    ensures |r| == |s|
  {
    if i == n - 1 then s
    else Swap(ShuffledTo(s, n, i + 1, rolls), i + 1, rolls[n - 2 - i] % (i + 2))
  }

  /** The shuffle of the first n entries: the counter runs from n - 1 down to 1. */
  function Shuffled(s: seq<Card>, n: int, rolls: seq<nat>): (r: seq<Card>)
    requires 0 <= n <= |s| && n - 1 <= |rolls|
    ensures |r| == |s|
  {
    ShuffledTo(s, n, if n == 0 then -1 else 0, rolls)
  }

  /**
   * Whatever numbers are drawn, the shuffle permutes its input and leaves the
   * entries from position n on alone.
   */
  lemma {:induction false} ShuffledPermutes(s: seq<Card>, n: int, i: int, rolls: seq<nat>)
    requires n <= |s| && -1 <= i <= n - 1 && n - 1 - i <= |rolls|
    decreases n - i
    ensures multiset(ShuffledTo(s, n, i, rolls)) == multiset(s)
    ensures forall k :: n <= k < |s| ==> ShuffledTo(s, n, i, rolls)[k] == s[k]
  {
    if i < n - 1 {
      ShuffledPermutes(s, n, i + 1, rolls);
      SwapPermutes(ShuffledTo(s, n, i + 1, rolls), i + 1, rolls[n - 2 - i] % (i + 2));
    }
  }

  /** fisher_yates: shuffles the first n entries of the deck in place. */
  method FisherYates(deck: array<Card>, n: Byte, rolls: seq<nat>)
    requires n <= deck.Length && |rolls| >= n - 1
    modifies deck
    ensures deck[..] == Shuffled(old(deck[..]), n, rolls)
  {
    var i := n - 1;
    while i > 0
      invariant -1 <= i <= n - 1 && (n >= 1 ==> i >= 0)
      invariant deck[..] == ShuffledTo(old(deck[..]), n, i, rolls)
    {
      var j := rolls[n - 1 - i] % (i + 1);
      SwapEntries(deck, i, j);
      i := i - 1;
    }
  }

  /** The three assignments through `tmp` in the shuffle's loop body. */
  method SwapEntries(deck: array<Card>, i: int, j: int)
    requires 0 <= i < deck.Length && 0 <= j < deck.Length
    modifies deck
    ensures deck[..] == Swap(old(deck[..]), i, j)
  {
    var tmp := deck[j];
    deck[j] := deck[i];
    deck[i] := tmp;
  }

  /** prepare_deck: lays out the deck of back colour bg in order and shuffles it. */
  method PrepareDeck(deck: array<Card>, bg: Color, rolls: seq<nat>)
    requires deck.Length == 40 && |rolls| >= 39
    modifies deck
    ensures deck[..] == Shuffled(StandardDeck(bg), 40, rolls)
  {
    for fgcolor := 0 to 4
      invariant forall k :: 0 <= k < 10 * fgcolor ==> deck[k] == StandardDeck(bg)[k]
    {
      for num := 0 to 10
        invariant forall k :: 0 <= k < 10 * fgcolor + num ==> deck[k] == StandardDeck(bg)[k]
      {
        deck[10 * fgcolor + num] := MakeCard(bg, fgcolor, num);
      }
    }
    assert deck[..] == StandardDeck(bg);
    FisherYates(deck, 40, rolls);
  }
}
