/**
 * The rules of the game as pure definitions over the contents of piles:
 * what a well-formed post pile and dutch pile look like, when a card fits
 * on the dutch piles and where it goes, the bookkeeping of the post-pile
 * consolidation, and the score.  A pile's contents are listed bottom first,
 * so its top card is the last element.
 */
module Rules {
  import opened Cards

  function Last(s: seq<Card>): Card
    requires |s| > 0
  {
    s[|s| - 1]
  }

  /** The cards of a sequence of piles, pile by pile, each bottom first. */
  function Flatten(piles: seq<seq<Card>>): seq<Card>
  {
    if piles == [] then [] else Flatten(piles[..|piles| - 1]) + piles[|piles| - 1]
  }

  // ---------------------------------------------------------------------
  // Post piles
  // ---------------------------------------------------------------------

  /** `upper` lies directly on `lower` in a post pile. */
  predicate PostStep(upper: Card, lower: Card)
  {
    && OppositeColors(GetFrontColor(upper), GetFrontColor(lower))
    && GetCardNumber(upper) + 1 == GetCardNumber(lower)
    && GetBackColor(upper) == GetBackColor(lower)
  }

  /**
   * The consistency a post pile must have: each card is one rank below the
   * card under it, of the opposite colour group and with the same back.
   */
  predicate ValidPostPile(s: seq<Card>)
  {
    forall i :: 1 <= i < |s| ==> StepAt(s, i)
  }

  /** The card at index i of s lies directly on the card below it. */
  predicate StepAt(s: seq<Card>, i: int)
    requires 1 <= i < |s|
  {
    PostStep(s[i], s[i - 1])
  }

  /** The rule for putting a card on a non-empty post pile. */
  predicate Accepts(post: seq<Card>, card: Card)
  {
    && |post| > 0
    && GetCardNumber(Last(post)) == GetCardNumber(card) + 1
    && OppositeColors(GetFrontColor(card), GetFrontColor(Last(post)))
  }

  /** A post pile spans the ranks from its bottom card down to its top card. */
  lemma {:induction false} PostPileSpan(s: seq<Card>)
    requires ValidPostPile(s) && |s| > 0
    ensures GetCardNumber(s[0]) == GetCardNumber(Last(s)) + |s| - 1
  {
    if |s| > 1 {
      var t := s[..|s| - 1];
      assert ValidPostPile(t) by {
        forall i | 1 <= i < |t| ensures StepAt(t, i) {
          assert StepAt(s, i);
          assert t[i] == s[i] && t[i - 1] == s[i - 1];
        }
      }
      PostPileSpan(t);
      assert StepAt(s, |s| - 1);
    }
  }

  /**
   * Putting a card of the pile's back colour on a pile that accepts it, or on
   * an empty pile, keeps the pile consistent; if all ranks stay below 10 the
   * pile still fits in a capacity of 10.
   */
  lemma PushOnPost(s: seq<Card>, card: Card)
    requires ValidPostPile(s)
    requires s == [] || (Accepts(s, card) && GetBackColor(card) == GetBackColor(Last(s)))
    requires forall c :: c in s ==> GetCardNumber(c) < 10
    ensures ValidPostPile(s + [card])
    ensures |s + [card]| <= 10
  {
    var t := s + [card];
    forall i | 1 <= i < |t| ensures StepAt(t, i) {
      if i < |s| {
        assert StepAt(s, i);
        assert t[i] == s[i] && t[i - 1] == s[i - 1];
      }
    }
    if s != [] {
      PostPileSpan(s);
      assert s[0] in s;
    }
  }

  /** The first of the post piles, from index `from`, that accepts the card; |posts| if none. */
  function FirstAccepting(posts: seq<seq<Card>>, card: Card, from: nat): (k: nat)
    requires from <= |posts|
    decreases |posts| - from
    ensures from <= k <= |posts|
    ensures k < |posts| ==> Accepts(posts[k], card)
    ensures forall m :: from <= m < k ==> !Accepts(posts[m], card)
  {
    if from == |posts| then from
    else if Accepts(posts[from], card) then from
    else FirstAccepting(posts, card, from + 1)
  }

  // ---------------------------------------------------------------------
  // Consolidation of the post piles
  // ---------------------------------------------------------------------

  /** Number of post piles holding at least two cards. */
  function Stacked(posts: seq<seq<Card>>): nat
  {
    if posts == [] then 0
    else Stacked(posts[..|posts| - 1]) + (if |posts[|posts| - 1]| >= 2 then 1 else 0)
  }

  /**
   * The single card of post pile i, of rank cnum, may be moved onto the
   * single card of post pile j: that card has rank cnum + 1 and the opposite
   * colour group.
   */
  predicate Qualifies(posts: seq<seq<Card>>, i: int, j: int, cnum: int)
  {
    && 0 <= i < |posts| && 0 <= j < |posts| && i != j
    && |posts[i]| == 1 && |posts[j]| == 1
    && GetCardNumber(posts[i][0]) == cnum
    && GetCardNumber(posts[j][0]) == cnum + 1
    && OppositeColors(GetFrontColor(posts[i][0]), GetFrontColor(posts[j][0]))
  }

  /** Some single card of rank 1 to 8 may be moved onto another single card. */
  predicate CanConsolidate(posts: seq<seq<Card>>)
  {
    exists i, j, cnum :: 0 <= i < |posts| && 0 <= j < |posts| && 1 <= cnum <= 8 && Qualifies(posts, i, j, cnum)
  }

  /** Every pile of `after` is `before`'s pile with zero or more cards put on top. */
  predicate Grown(before: seq<seq<Card>>, after: seq<seq<Card>>)
  {
    |before| == |after| && forall k :: 0 <= k < |before| ==> before[k] <= after[k]
  }

  predicate AllNonEmpty(posts: seq<seq<Card>>)
  {
    forall k :: 0 <= k < |posts| ==> posts[k] != []
  }

  /** No post pile is empty and no consolidation move is possible. */
  predicate Settled(posts: seq<seq<Card>>)
  {
    AllNonEmpty(posts) && !CanConsolidate(posts)
  }

  /** The post piles after the single card of pile i was moved onto pile j. */
  function MoveSingle(posts: seq<seq<Card>>, i: int, j: int): seq<seq<Card>>
    requires 0 <= i < |posts| && 0 <= j < |posts| && |posts[i]| == 1
  {
    posts[i := []][j := posts[j] + [posts[i][0]]]
  }

  lemma {:induction false} StackedBound(posts: seq<seq<Card>>)
    ensures Stacked(posts) <= |posts|
  {
    if posts != [] {
      StackedBound(posts[..|posts| - 1]);
    }
  }

  /** Stacked counts exactly the piles with two or more cards. */
  lemma {:induction false} StackedCounts(posts: seq<seq<Card>>, k: int)
    requires 0 <= k < |posts|
    ensures |posts[k]| >= 2 ==> Stacked(posts) >= 1 + Stacked(posts[..k] + posts[k + 1..])
    ensures |posts[k]| < 2 ==> Stacked(posts) == Stacked(posts[..k] + posts[k + 1..])
  {
    var n := |posts| - 1;
    var rest := posts[..k] + posts[k + 1..];
    if k == n {
      assert rest == posts[..n];
    } else {
      StackedCounts(posts[..n], k);
      assert rest[..|rest| - 1] == posts[..n][..k] + posts[..n][k + 1..];
      assert rest[|rest| - 1] == posts[n];
    }
  }

  /** Piles only growing never lowers the number of stacked piles. */
  lemma {:induction false} GrowingKeepsStacked(before: seq<seq<Card>>, after: seq<seq<Card>>)
    requires Grown(before, after)
    ensures Stacked(after) >= Stacked(before)
  {
    if before != [] {
      var n := |before| - 1;
      assert before[n] <= after[n];
      GrowingKeepsStacked(before[..n], after[..n]);
    }
  }

  /** Piles only growing from non-empty piles creates no new consolidation move. */
  lemma GrowingKeepsSettled(before: seq<seq<Card>>, after: seq<seq<Card>>)
    requires Settled(before) && Grown(before, after)
    ensures Settled(after)
  {
    forall k | 0 <= k < |after| ensures after[k] != [] {
      assert before[k] <= after[k] && before[k] != [];
    }
    GrowingKeepsMoves(before, after);
  }

  /** Any consolidation move after growing non-empty piles was already possible before. */
  lemma GrowingKeepsMoves(before: seq<seq<Card>>, after: seq<seq<Card>>)
    requires AllNonEmpty(before) && Grown(before, after)
    ensures CanConsolidate(after) ==> CanConsolidate(before)
  {
    if CanConsolidate(after) {
      var i, j, cnum :| 0 <= i < |after| && 0 <= j < |after| && 1 <= cnum <= 8 && Qualifies(after, i, j, cnum);
      assert before[i] <= after[i] && before[j] <= after[j];
      assert before[i] == after[i] && before[j] == after[j];
      assert Qualifies(before, i, j, cnum);
    }
  }


  /** A consolidation move needs two single-card piles, so at most one of three piles is stacked. */
  lemma QualifyingLeavesOneStacked(posts: seq<seq<Card>>, i: int, j: int, cnum: int)
    requires |posts| == 3 && Qualifies(posts, i, j, cnum)
    ensures Stacked(posts) <= 1
  {
    var k := 3 - i - j;
    assert 0 <= k < 3 && k != i && k != j;
    assert Stacked(posts) == Stacked(posts[..2]) + (if |posts[2]| >= 2 then 1 else 0);
    assert Stacked(posts[..2]) == Stacked(posts[..1]) + (if |posts[1]| >= 2 then 1 else 0);
    assert Stacked(posts[..1]) == Stacked(posts[..0]) + (if |posts[0]| >= 2 then 1 else 0);
    assert posts[..2][..1] == posts[..1] && posts[..1][..0] == [];
  }

  /** Each consolidation move makes one more stacked pile. */
  lemma {:induction false} MoveSingleStacks(posts: seq<seq<Card>>, i: int, j: int)
    requires 0 <= i < |posts| && 0 <= j < |posts| && i != j
    requires |posts[i]| == 1 && |posts[j]| == 1
    ensures Stacked(MoveSingle(posts, i, j)) == Stacked(posts) + 1
  {
    var n := |posts| - 1;
    var after := MoveSingle(posts, i, j);
    if i != n && j != n {
      assert after[..n] == MoveSingle(posts[..n], i, j);
      MoveSingleStacks(posts[..n], i, j);
      assert after[n] == posts[n];
    } else if i == n {
      assert after[..n] == posts[..n][j := posts[j] + [posts[i][0]]];
      StackedSetSingleToPair(posts[..n], j, posts[j] + [posts[i][0]]);
    } else {
      assert after[..n] == posts[..n][i := []];
      StackedSetSingleToEmpty(posts[..n], i);
    }
  }

  lemma {:induction false} StackedSetSingleToPair(posts: seq<seq<Card>>, j: int, pair: seq<Card>)
    requires 0 <= j < |posts| && |posts[j]| == 1 && |pair| == 2
    ensures Stacked(posts[j := pair]) == Stacked(posts) + 1
  {
    var n := |posts| - 1;
    if j != n {
      assert posts[j := pair][..n] == posts[..n][j := pair];
      StackedSetSingleToPair(posts[..n], j, pair);
    } else {
      assert posts[j := pair][..n] == posts[..n];
    }
  }

  lemma {:induction false} StackedSetSingleToEmpty(posts: seq<seq<Card>>, i: int)
    requires 0 <= i < |posts| && |posts[i]| == 1
    ensures Stacked(posts[i := []]) == Stacked(posts)
  {
    var n := |posts| - 1;
    if i != n {
      assert posts[i := []][..n] == posts[..n][i := []];
      StackedSetSingleToEmpty(posts[..n], i);
    } else {
      assert posts[i := []][..n] == posts[..n];
    }
  }

  // ---------------------------------------------------------------------
  // Dutch piles
  // ---------------------------------------------------------------------

  /** A dutch pile holds the ranks 0, 1, 2, ... in order, all of one front colour. */
  predicate ValidDutchPile(s: seq<Card>)
  {
    forall pos :: 0 <= pos < |s| ==>
      GetCardNumber(s[pos]) == pos && GetFrontColor(s[pos]) == GetFrontColor(s[0])
  }

  predicate ValidDutch(piles: seq<seq<Card>>)
  {
    forall i :: 0 <= i < |piles| ==> ValidDutchPile(piles[i])
  }

  /** The card continues the started pile: one rank higher and the same front colour. */
  predicate Extends(pile: seq<Card>, card: Card)
  {
    && |pile| > 0
    && GetCardNumber(card) == GetCardNumber(Last(pile)) + 1
    && GetFrontColor(card) == GetFrontColor(Last(pile))
  }

  /** A card fits on the dutch piles: a 0 starts a new pile, any other card must continue one. */
  predicate Fits(card: Card, piles: seq<seq<Card>>): (b: bool)
    ensures b <==> GetCardNumber(card) == 0 || FirstExtended(piles, card, 0) < |piles|
  {
    GetCardNumber(card) == 0 || exists i :: 0 <= i < |piles| && Extends(piles[i], card)
  }

  /** The first pile, from index `from`, that the card continues; |piles| if none. */
  function FirstExtended(piles: seq<seq<Card>>, card: Card, from: nat): (k: nat)
    requires from <= |piles|
    decreases |piles| - from
    ensures from <= k <= |piles|
    ensures k < |piles| ==> Extends(piles[k], card)
    ensures forall m :: from <= m < k ==> !Extends(piles[m], card)
  {
    if from == |piles| then from
    else if Extends(piles[from], card) then from
    else FirstExtended(piles, card, from + 1)
  }

  /**
   * fits_on_dutch_pile(card, false): a 0 always fits, since it starts a new
   * pile; any other card fits when the search over the started piles finds
   * one it continues.
   */
  function FitsOn(card: Card, piles: seq<seq<Card>>): (fits: bool)
    ensures fits <==> Fits(card, piles)
  {
    GetCardNumber(card) == 0 || FirstExtended(piles, card, 0) < |piles|
  }

  /** The dutch piles after the card was played on them (unchanged if it does not fit). */
  function Play(card: Card, piles: seq<seq<Card>>): (r: seq<seq<Card>>)
    ensures |r| == |piles| + (if GetCardNumber(card) == 0 then 1 else 0)
    ensures forall k :: 0 <= k < |piles| ==> r[k] == piles[k] || r[k] == piles[k] + [card]
  {
    if GetCardNumber(card) == 0 then piles + [[card]]
    else
      var k := FirstExtended(piles, card, 0);
      if k < |piles| then piles[k := piles[k] + [card]] else piles
  }

  /** Fits says exactly whether Play places the card. */
  lemma FitsIffPlaced(card: Card, piles: seq<seq<Card>>)
    ensures Fits(card, piles) <==> Play(card, piles) != piles
    ensures !Fits(card, piles) ==> Play(card, piles) == piles
  {
    if GetCardNumber(card) != 0 {
      var k := FirstExtended(piles, card, 0);
      if k < |piles| {
        assert Play(card, piles)[k] == piles[k] + [card] != piles[k];
      }
    } else {
      assert |Play(card, piles)| == |piles| + 1;
    }
  }

  /**
   * Playing a 0 opens one new pile holding just that card; playing any other
   * fitting card puts it on the first pile it continues, and no other pile
   * changes.
   */
  lemma PlayPlacement(card: Card, piles: seq<seq<Card>>)
    requires Fits(card, piles)
    ensures GetCardNumber(card) == 0 ==> Play(card, piles) == piles + [[card]]
    ensures GetCardNumber(card) != 0 ==>
      exists k :: 0 <= k < |piles|
        && Extends(piles[k], card)
        && (forall m :: 0 <= m < k ==> !Extends(piles[m], card))
        && Play(card, piles) == piles[k := piles[k] + [card]]
  {
    if GetCardNumber(card) != 0 {
      var i :| 0 <= i < |piles| && Extends(piles[i], card);
      var k := FirstExtended(piles, card, 0);
      assert k <= i;
      assert Play(card, piles) == piles[k := piles[k] + [card]];
      assert 0 <= k < |piles| && Extends(piles[k], card);
    }
  }

  /** Playing keeps every dutch pile a run 0, 1, 2, ... of one front colour. */
  lemma PlayKeepsValidDutch(card: Card, piles: seq<seq<Card>>)
    requires ValidDutch(piles)
    ensures ValidDutch(Play(card, piles))
  {
    var r := Play(card, piles);
    if GetCardNumber(card) != 0 {
      var k := FirstExtended(piles, card, 0);
      if k < |piles| {
        var s := piles[k] + [card];
        assert ValidDutchPile(piles[k]);
        forall pos | 0 <= pos < |s|
          ensures GetCardNumber(s[pos]) == pos && GetFrontColor(s[pos]) == GetFrontColor(s[0])
        {
          if pos < |piles[k]| {
            assert s[pos] == piles[k][pos];
          }
        }
        assert ValidDutchPile(r[k]);
      }
    }
  }

  /** A dutch pile has as many cards as its top card's rank plus one, never more than 16. */
  lemma DutchPileSize(s: seq<Card>)
    requires ValidDutchPile(s) && |s| > 0
    ensures |s| == GetCardNumber(Last(s)) + 1 && |s| <= 16
  {
  }

  /**
   * A played card of rank below 10 never lands on a dutch pile that already
   * holds 10 cards: size and capacity 10 agree.
   */
  lemma PlayRespectsCapacity(card: Card, piles: seq<seq<Card>>)
    requires ValidDutch(piles) && GetCardNumber(card) < 10
    requires forall i :: 0 <= i < |piles| ==> |piles[i]| <= 10
    ensures forall i :: 0 <= i < |Play(card, piles)| ==> |Play(card, piles)[i]| <= 10
  {
    if GetCardNumber(card) != 0 {
      var k := FirstExtended(piles, card, 0);
      if k < |piles| {
        assert ValidDutchPile(piles[k]);
        DutchPileSize(piles[k]);
      }
    }
  }

  lemma {:induction false} FlattenAppend(piles: seq<seq<Card>>, s: seq<Card>)
    ensures Flatten(piles + [s]) == Flatten(piles) + s
  {
    assert (piles + [s])[..|piles|] == piles;
  }

  lemma {:induction false} FlattenUpdate(piles: seq<seq<Card>>, k: int, card: Card)
    requires 0 <= k < |piles|
    ensures multiset(Flatten(piles[k := piles[k] + [card]])) == multiset(Flatten(piles)) + multiset{card}
  {
    var n := |piles| - 1;
    var r := piles[k := piles[k] + [card]];
    assert Flatten(r) == Flatten(r[..n]) + r[n];
    assert Flatten(piles) == Flatten(piles[..n]) + piles[n];
    if k == n {
      assert r[..n] == piles[..n];
      assert Flatten(r) == Flatten(piles) + [card];
    } else {
      assert r[..n] == piles[..n][k := piles[k] + [card]];
      FlattenUpdate(piles[..n], k, card);
      assert r[n] == piles[n];
    }
  }

  /** Replacing one pile replaces its cards and keeps all the others. */
  lemma {:induction false} FlattenSet(piles: seq<seq<Card>>, k: int, s: seq<Card>)
    requires 0 <= k < |piles|
    ensures multiset(Flatten(piles[k := s])) == multiset(Flatten(piles)) - multiset(piles[k]) + multiset(s)
  {
    var n := |piles| - 1;
    var r := piles[k := s];
    assert Flatten(r) == Flatten(r[..n]) + r[n];
    assert Flatten(piles) == Flatten(piles[..n]) + piles[n];
    if k == n {
      assert r[..n] == piles[..n];
    } else {
      assert r[..n] == piles[..n][k := s];
      FlattenSet(piles[..n], k, s);
      FlattenHolds(piles[..n], k);
      var a, b := multiset(Flatten(piles[..n])), multiset(piles[k]);
      assert b <= a;
      assert multiset(Flatten(r)) == a - b + multiset(s) + multiset(piles[n]);
      assert multiset(Flatten(piles)) == a + multiset(piles[n]);
    }
  }

  lemma {:induction false} FlattenHolds(piles: seq<seq<Card>>, k: int)
    requires 0 <= k < |piles|
    ensures multiset(piles[k]) <= multiset(Flatten(piles))
  {
    var n := |piles| - 1;
    if k != n {
      FlattenHolds(piles[..n], k);
    }
  }

  /** Playing a card that fits adds exactly that card to the dutch piles. */
  lemma PlayConserves(card: Card, piles: seq<seq<Card>>)
    requires Fits(card, piles)
    ensures multiset(Flatten(Play(card, piles))) == multiset(Flatten(piles)) + multiset{card}
  {
    if GetCardNumber(card) == 0 {
      FlattenAppend(piles, [card]);
    } else {
      PlayPlacement(card, piles);
      FlattenUpdate(piles, FirstExtended(piles, card, 0), card);
    }
  }

  // ---------------------------------------------------------------------
  // Score
  // ---------------------------------------------------------------------

  /** Number of cards of the sequence with the given back colour. */
  function CountBack(s: seq<Card>, bg: Color): nat
  {
    if s == [] then 0
    else CountBack(s[..|s| - 1], bg) + (if GetBackColor(s[|s| - 1]) == bg then 1 else 0)
  }

  /** The score counted pile by pile, as the scoring loop does. */
  function DutchCount(piles: seq<seq<Card>>, bg: Color): nat
  {
    if piles == [] then 0
    else DutchCount(piles[..|piles| - 1], bg) + CountBack(piles[|piles| - 1], bg)
  }

  lemma {:induction false} CountBackAppend(a: seq<Card>, b: seq<Card>, bg: Color)
    ensures CountBack(a + b, bg) == CountBack(a, bg) + CountBack(b, bg)
  {
    if b != [] {
      var n := |b| - 1;
      assert (a + b)[..|a + b| - 1] == a + b[..n];
      CountBackAppend(a, b[..n], bg);
    } else {
      assert a + b == a;
    }
  }

  lemma {:induction false} CountBackBound(s: seq<Card>, bg: Color)
    ensures CountBack(s, bg) <= |s|
  {
    if s != [] {
      CountBackBound(s[..|s| - 1], bg);
    }
  }

  /** Counting pile by pile counts every dutch card of the player's back colour once. */
  lemma {:induction false} DutchCountFlat(piles: seq<seq<Card>>, bg: Color)
    ensures DutchCount(piles, bg) == CountBack(Flatten(piles), bg)
  {
    if piles != [] {
      var n := |piles| - 1;
      DutchCountFlat(piles[..n], bg);
      CountBackAppend(Flatten(piles[..n]), piles[n], bg);
    }
  }

  /**
   * The score of a player: -2 for every card left on the blitz pile, +1 for
   * every card with the player's back colour on the dutch piles.
   */
  function Score(blitzSize: int, piles: seq<seq<Card>>, bg: Color): int
  {
    -2 * blitzSize + CountBack(Flatten(piles), bg)
  }

  /** With at most 10 cards on the blitz pile the score is at least -20. */
  lemma ScoreBounds(blitzSize: int, piles: seq<seq<Card>>, bg: Color)
    requires 0 <= blitzSize <= 10
    ensures -20 <= Score(blitzSize, piles, bg) <= |Flatten(piles)|
  {
    CountBackBound(Flatten(piles), bg);
  }

  // ---------------------------------------------------------------------
  // Counting the 0 cards (the cards that open dutch piles)
  // ---------------------------------------------------------------------

  /** Multiplicities in m of the 0 cards 0, 16, 32, ..., 16 * (k - 1). */
  function ZerosBelow(m: multiset<Card>, k: nat): nat
    requires k <= 16
  {
    if k == 0 then 0 else ZerosBelow(m, k - 1) + m[16 * (k - 1)]
  }

  /** Number of 0 cards in m, counted with multiplicity. */
  function Zeros(m: multiset<Card>): nat
  {
    ZerosBelow(m, 16)
  }

  lemma {:induction false} ZerosBelowAdd(a: multiset<Card>, b: multiset<Card>, k: nat)
    requires k <= 16
    ensures ZerosBelow(a + b, k) == ZerosBelow(a, k) + ZerosBelow(b, k)
  {
    if k > 0 {
      ZerosBelowAdd(a, b, k - 1);
    }
  }

  lemma ZerosAdd(a: multiset<Card>, b: multiset<Card>)
    ensures Zeros(a + b) == Zeros(a) + Zeros(b)
  {
    ZerosBelowAdd(a, b, 16);
  }

  lemma {:induction false} ZerosBelowSingleton(card: Card, k: nat)
    requires k <= 16
    ensures ZerosBelow(multiset{card}, k) ==
            if GetCardNumber(card) == 0 && card / 16 < k then 1 else 0
  {
    if k > 0 {
      ZerosBelowSingleton(card, k - 1);
    }
  }

  /** A single card counts as one 0 card exactly when its rank is 0. */
  lemma ZerosSingleton(card: Card)
    ensures Zeros(multiset{card}) == if GetCardNumber(card) == 0 then 1 else 0
  {
    ZerosBelowSingleton(card, 16);
  }

  /**
   * With n dutch piles started and at most 16 - n zeros among the cards m,
   * a 0 from m still finds an unstarted pile, and once the card has been
   * played the bound holds again for the cards left.
   */
  lemma ZeroBudget(n: int, m: multiset<Card>, card: Card)
    requires card in m && n + Zeros(m) <= 16
    ensures GetCardNumber(card) == 0 ==> n < 16
    ensures n + (if GetCardNumber(card) == 0 then 1 else 0) + Zeros(m - multiset{card}) <= 16
  {
    ZerosRemove(m, card);
  }

  /**
   * A card moved from the player's cards m to the dutch piles d: together
   * they hold the same cards.
   */
  lemma Played(m: multiset<Card>, m': multiset<Card>, d: multiset<Card>, d': multiset<Card>, card: Card)
    requires m == m' + multiset{card} && d' == d + multiset{card}
    ensures d' + m' == d + m && m' == m - multiset{card}
  {
  }

  /** Taking a 0 card out of m leaves one 0 card fewer. */
  lemma ZerosRemove(m: multiset<Card>, card: Card)
    requires card in m
    ensures Zeros(m) == Zeros(m - multiset{card}) + (if GetCardNumber(card) == 0 then 1 else 0)
  {
    assert m == (m - multiset{card}) + multiset{card};
    ZerosAdd(m - multiset{card}, multiset{card});
    ZerosSingleton(card);
  }

  /** Number of 0 cards in a sequence. */
  function CountZeros(s: seq<Card>): nat
  {
    if s == [] then 0
    else CountZeros(s[..|s| - 1]) + (if GetCardNumber(s[|s| - 1]) == 0 then 1 else 0)
  }

  /** Zeros counts the 0 cards of a sequence's multiset the way CountZeros counts the sequence. */
  lemma {:induction false} ZerosOfSeq(s: seq<Card>)
    ensures Zeros(multiset(s)) == CountZeros(s)
  {
    if s == [] {
      assert multiset(s) == multiset{};
      ZerosBelowEmpty(16);
    } else {
      var n := |s| - 1;
      assert s == s[..n] + [s[n]];
      assert multiset(s) == multiset(s[..n]) + multiset{s[n]};
      ZerosOfSeq(s[..n]);
      ZerosAdd(multiset(s[..n]), multiset{s[n]});
      ZerosSingleton(s[n]);
    }
  }

  /** A started dutch pile holds exactly one 0 card, its bottom card. */
  lemma {:induction false} DutchPileZeros(s: seq<Card>)
    requires ValidDutchPile(s) && s != []
    ensures CountZeros(s) == 1
  {
    var n := |s| - 1;
    if n == 0 {
      assert s[..0] == [];
    } else {
      assert ValidDutchPile(s[..n]);
      DutchPileZeros(s[..n]);
      assert GetCardNumber(s[n]) == n;
    }
  }

  /** Started dutch piles hold as many 0 cards as there are piles. */
  lemma {:induction false} DutchZeros(piles: seq<seq<Card>>)
    requires ValidDutch(piles) && forall k :: 0 <= k < |piles| ==> piles[k] != []
    ensures Zeros(multiset(Flatten(piles))) == |piles|
  {
    if piles == [] {
      assert multiset(Flatten(piles)) == multiset{};
      ZerosBelowEmpty(16);
    } else {
      var n := |piles| - 1;
      assert ValidDutch(piles[..n]);
      DutchZeros(piles[..n]);
      assert multiset(Flatten(piles)) == multiset(Flatten(piles[..n])) + multiset(piles[n]);
      ZerosAdd(multiset(Flatten(piles[..n])), multiset(piles[n]));
      ZerosOfSeq(piles[n]);
      DutchPileZeros(piles[n]);
    }
  }

  lemma {:induction false} ZerosBelowEmpty(k: nat)
    requires k <= 16
    ensures ZerosBelow(multiset{}, k) == 0
  {
    if k > 0 {
      ZerosBelowEmpty(k - 1);
    }
  }
}
