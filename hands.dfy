/**
 * A player's hand as a value: the contents of the blitz pile, the three post
 * piles, and the two halves of the wood pile (the draw pile held in hand and
 * the discard pile turned face up).  Each move a player makes between their
 * own piles is a function on hands here, and the lemmas show that each move
 * keeps the hand well-formed and keeps the same cards.
 */
module Hands {
  import opened Cards
  import opened Rules
  import opened Piles
  import opened Deck

  datatype Hand = Hand(blitz: seq<Card>, posts: seq<seq<Card>>, draw: seq<Card>, discard: seq<Card>)

  /** Every card of s has back colour bg and a rank below 10, as every card of bg's deck does. */
  predicate Owned(s: seq<Card>, bg: Color)
  {
    forall i :: 0 <= i < |s| ==> GetBackColor(s[i]) == bg && GetCardNumber(s[i]) < 10
  }

  /** All the cards of a hand. */
  function HandCards(h: Hand): multiset<Card>
  {
    multiset(h.blitz) + multiset(Flatten(h.posts)) + multiset(h.draw) + multiset(h.discard)
  }

  /** Three post piles, each consistent and made of the player's own cards. */
  predicate PostsOk(posts: seq<seq<Card>>, bg: Color)
  {
    |posts| == 3 && forall k :: 0 <= k < 3 ==> ValidPostPile(posts[k]) && Owned(posts[k], bg)
  }

  /**
   * What every move keeps: consistent post piles, every card from the
   * player's own deck, and at most 30 cards in the two wood piles together.
   */
  predicate HandOk(h: Hand, bg: Color)
  {
    && PostsOk(h.posts, bg)
    && Owned(h.blitz, bg) && Owned(h.draw, bg) && Owned(h.discard, bg)
    && |h.draw| + |h.discard| <= 30
  }

  lemma OwnedAppend(a: seq<Card>, b: seq<Card>, bg: Color)
    requires Owned(a, bg) && Owned(b, bg)
    ensures Owned(a + b, bg)
  {
    forall i | 0 <= i < |a + b|
      ensures GetBackColor((a + b)[i]) == bg && GetCardNumber((a + b)[i]) < 10
    {
      if i < |a| {
        assert (a + b)[i] == a[i];
      } else {
        assert (a + b)[i] == b[i - |a|];
      }
    }
  }

  /** A post pile of the player's own cards never holds more than 10 cards. */
  lemma OwnedPostSize(s: seq<Card>, bg: Color)
    requires ValidPostPile(s) && Owned(s, bg)
    ensures |s| <= 10
  {
    if s != [] {
      PostPileSpan(s);
    }
  }

  // ---------------------------------------------------------------------
  // Dealing
  // ---------------------------------------------------------------------

  /**
   * The hand dealt from a deck: one card on each post pile, the next ten
   * on the blitz pile and the remaining 27 on the draw pile, cards taken
   * from the front of the deck and each pushed onto the top of its pile.
   */
  function Dealt(d: seq<Card>): (h: Hand)
    requires |d| == 40
    ensures |h.posts| == 3 && |h.blitz| == 10 && |h.draw| == 27 && h.discard == []
  {
    Hand(d[3..13], [[d[0]], [d[1]], [d[2]]], d[13..40], [])
  }

  /** Dealing a shuffled deck of bg's cards gives a well-formed hand of exactly those cards. */
  lemma DealtOk(d: seq<Card>, bg: Color)
    requires |d| == 40 && multiset(d) == multiset(StandardDeck(bg))
    ensures HandOk(Dealt(d), bg)
    ensures HandCards(Dealt(d)) == multiset(d)
  {
    OwnedDeck(d, bg);
    var h := Dealt(d);
    OwnedPrefix(d[3..], 10, bg) by {
      OwnedSuffix(d, 3, bg);
    }
    assert d[3..][..10] == d[3..13];
    OwnedSuffix(d, 13, bg);
    assert PostsOk(h.posts, bg) by {
      forall k | 0 <= k < 3 ensures ValidPostPile(h.posts[k]) && Owned(h.posts[k], bg) {
        assert h.posts[k] == [d[k]];
      }
    }
    DealtCards(d);
  }

  lemma DealtCards(d: seq<Card>)
    requires |d| == 40
    ensures HandCards(Dealt(d)) == multiset(d)
  {
    FlattenThree(d[0], d[1], d[2]);
    assert d == [d[0], d[1], d[2]] + d[3..13] + d[13..40];
  }

  /** Every card of a shuffled deck of bg's cards is one of bg's cards. */
  lemma OwnedDeck(d: seq<Card>, bg: Color)
    requires multiset(d) == multiset(StandardDeck(bg))
    ensures Owned(d, bg)
  {
    forall i | 0 <= i < |d| ensures GetBackColor(d[i]) == bg && GetCardNumber(d[i]) < 10 {
      assert d[i] in multiset(StandardDeck(bg));
      StandardDeckExactly(bg, d[i]);
    }
  }

  lemma OwnedSuffix(s: seq<Card>, n: nat, bg: Color)
    requires Owned(s, bg) && n <= |s|
    ensures Owned(s[n..], bg)
  {
    forall i | 0 <= i < |s| - n ensures GetBackColor(s[n..][i]) == bg && GetCardNumber(s[n..][i]) < 10 {
      assert s[n..][i] == s[n + i];
    }
  }

  lemma FlattenThree(a: Card, b: Card, c: Card)
    ensures Flatten([[a], [b], [c]]) == [a, b, c]
  {
    assert [[a]][..0] == [];
    assert Flatten([[a]]) == [a];
    assert [[a], [b]][..1] == [[a]];
    assert Flatten([[a], [b]]) == [a, b];
    assert [[a], [b], [c]][..2] == [[a], [b]];
  }

  // ---------------------------------------------------------------------
  // Moves onto the post piles
  // ---------------------------------------------------------------------

  /** The post piles after the card was pushed onto pile i. */
  function PutOnPost(posts: seq<seq<Card>>, i: int, card: Card): seq<seq<Card>>
    requires 0 <= i < |posts|
  {
    posts[i := posts[i] + [card]]
  }

  /**
   * Pushing one of the player's cards onto an empty post pile, or onto one
   * that accepts it, keeps every post pile consistent, keeps it within its
   * capacity of 10, adds exactly that card and only grows the piles.
   */
  lemma PutOnPostOk(posts: seq<seq<Card>>, i: int, card: Card, bg: Color)
    requires PostsOk(posts, bg) && 0 <= i < 3
    requires GetBackColor(card) == bg && GetCardNumber(card) < 10
    requires posts[i] == [] || Accepts(posts[i], card)
    ensures |posts[i]| < 10
    ensures PostsOk(PutOnPost(posts, i, card), bg)
    ensures multiset(Flatten(PutOnPost(posts, i, card))) == multiset(Flatten(posts)) + multiset{card}
    ensures Grown(posts, PutOnPost(posts, i, card))
  {
    var s := posts[i];
    var r := PutOnPost(posts, i, card);
    assert forall c :: c in s ==> GetCardNumber(c) < 10;
    if s != [] {
      assert GetBackColor(Last(s)) == bg;
    }
    PushOnPost(s, card);
    OwnedAppend(s, [card], bg);
    assert r[i] == s + [card];
    assert forall k :: 0 <= k < 3 && k != i ==> r[k] == posts[k];
    FlattenUpdate(posts, i, card);
  }

  /** The blitz pile's top card moved onto post pile i (lines 296 and 302). */
  function BlitzToPost(h: Hand, i: int): Hand
    requires h.blitz != [] && 0 <= i < |h.posts|
  {
    h.(blitz := h.blitz[..|h.blitz| - 1], posts := PutOnPost(h.posts, i, Last(h.blitz)))
  }

  /** The discard pile's top card moved onto post pile i (line 379). */
  function DiscardToPost(h: Hand, i: int): Hand
    requires h.discard != [] && 0 <= i < |h.posts|
  {
    h.(discard := h.discard[..|h.discard| - 1], posts := PutOnPost(h.posts, i, Last(h.discard)))
  }

  lemma RemoveLast(s: seq<Card>)
    requires s != []
    ensures multiset(s) == multiset(s[..|s| - 1]) + multiset{Last(s)}
  {
    assert s == s[..|s| - 1] + [Last(s)];
  }

  lemma OwnedPrefix(s: seq<Card>, n: nat, bg: Color)
    requires Owned(s, bg) && n <= |s|
    ensures Owned(s[..n], bg)
  {
    forall i | 0 <= i < n ensures GetBackColor(s[..n][i]) == bg && GetCardNumber(s[..n][i]) < 10 {
      assert s[..n][i] == s[i];
    }
  }

  /** Moving the blitz top onto an empty or accepting post pile keeps the hand well-formed with the same cards. */
  lemma BlitzToPostOk(h: Hand, i: int, bg: Color)
    requires HandOk(h, bg) && h.blitz != [] && 0 <= i < 3
    requires h.posts[i] == [] || Accepts(h.posts[i], Last(h.blitz))
    ensures HandOk(BlitzToPost(h, i), bg)
    ensures HandCards(BlitzToPost(h, i)) == HandCards(h)
    ensures Grown(h.posts, BlitzToPost(h, i).posts)
    ensures |h.posts[i]| < 10
  {
    BlitzToPostShape(h, i, bg);
    BlitzToPostCards(h, i);
  }

  lemma BlitzToPostShape(h: Hand, i: int, bg: Color)
    requires HandOk(h, bg) && h.blitz != [] && 0 <= i < 3
    requires h.posts[i] == [] || Accepts(h.posts[i], Last(h.blitz))
    ensures HandOk(BlitzToPost(h, i), bg)
    ensures Grown(h.posts, BlitzToPost(h, i).posts)
    ensures |h.posts[i]| < 10
  {
    var n, c := |h.blitz| - 1, Last(h.blitz);
    assert h.blitz[n] == c;
    PutOnPostOk(h.posts, i, c, bg);
    OwnedPrefix(h.blitz, n, bg);
  }

  lemma BlitzToPostCards(h: Hand, i: int)
    requires h.blitz != [] && 0 <= i < |h.posts|
    ensures HandCards(BlitzToPost(h, i)) == HandCards(h)
  {
    var n, c := |h.blitz| - 1, Last(h.blitz);
    var rest, posts := h.blitz[..n], PutOnPost(h.posts, i, c);
    assert h.blitz == rest + [c];
    FlattenUpdate(h.posts, i, c);
    assert multiset(h.blitz) == multiset(rest) + multiset{c};
    MovedCard(multiset(h.blitz), multiset(rest), multiset(Flatten(h.posts)), multiset(Flatten(posts)),
              multiset(h.draw) + multiset(h.discard), c);
  }

  /** Moving one card from one part of a hand to another keeps the whole. */
  lemma MovedCard(a: multiset<Card>, a': multiset<Card>, b: multiset<Card>, b': multiset<Card>,
                  rest: multiset<Card>, c: Card)
    requires a == a' + multiset{c} && b' == b + multiset{c}
    ensures a' + b' + rest == a + b + rest
  {
  }

  /** The same for the discard pile's top card. */
  lemma DiscardToPostOk(h: Hand, i: int, bg: Color)
    requires HandOk(h, bg) && h.discard != [] && 0 <= i < 3
    requires Accepts(h.posts[i], Last(h.discard))
    ensures HandOk(DiscardToPost(h, i), bg)
    ensures HandCards(DiscardToPost(h, i)) == HandCards(h)
    ensures Grown(h.posts, DiscardToPost(h, i).posts)
    ensures |h.posts[i]| < 10
  {
    var n := |h.discard| - 1;
    assert h.discard[n] == Last(h.discard);
    PutOnPostOk(h.posts, i, Last(h.discard), bg);
    OwnedPrefix(h.discard, n, bg);
    RemoveLast(h.discard);
  }

  /**
   * Wood to post (lines 369-383): the discard pile's top card goes onto the
   * first post pile that accepts it; if none does, nothing changes.
   */
  function WoodToPost(h: Hand): (r: Hand)
    requires h.discard != []
    ensures r.blitz == h.blitz && r.draw == h.draw && |r.posts| == |h.posts|
    ensures r == h <==> forall k :: 0 <= k < |h.posts| ==> !Accepts(h.posts[k], Last(h.discard))
    ensures r != h ==> r.discard == h.discard[..|h.discard| - 1]
  {
    var k := FirstAccepting(h.posts, Last(h.discard), 0);
    if k < |h.posts| then DiscardToPost(h, k) else h
  }

  /** Wood to post keeps the hand well-formed and its cards, and only grows the post piles. */
  lemma WoodToPostOk(h: Hand, bg: Color)
    requires HandOk(h, bg) && h.discard != []
    ensures HandOk(WoodToPost(h), bg)
    ensures HandCards(WoodToPost(h)) == HandCards(h)
    ensures Grown(h.posts, WoodToPost(h).posts)
    ensures WoodToPost(h).blitz == h.blitz && WoodToPost(h).draw == h.draw
  {
    var k := FirstAccepting(h.posts, Last(h.discard), 0);
    if k < 3 {
      DiscardToPostOk(h, k, bg);
    }
  }

  /**
   * Consolidation (line 328) moves the single card of post pile i onto the
   * single card of post pile j; this keeps the post piles consistent and
   * makes one more pile of two or more cards.
   */
  lemma MoveSingleOk(posts: seq<seq<Card>>, i: int, j: int, cnum: int, bg: Color)
    requires PostsOk(posts, bg) && Qualifies(posts, i, j, cnum)
    ensures PostsOk(MoveSingle(posts, i, j), bg)
    ensures Stacked(MoveSingle(posts, i, j)) == Stacked(posts) + 1
  {
    var card := posts[i][0];
    var r := MoveSingle(posts, i, j);
    assert posts[j] == [posts[j][0]];
    assert PostStep(card, posts[j][0]) by {
      assert Owned(posts[i], bg) && Owned(posts[j], bg);
      assert GetBackColor(card) == bg && GetBackColor(posts[j][0]) == bg;
    }
    assert r[j] == posts[j] + [card];
    assert ValidPostPile(r[j]);
    OwnedAppend(posts[j], [card], bg);
    assert r[i] == [];
    forall k | 0 <= k < 3 && k != i && k != j ensures r[k] == posts[k] {
    }
    MoveSingleStacks(posts, i, j);
  }

  /** Consolidation keeps the cards of the post piles. */
  lemma MoveSingleConserves(posts: seq<seq<Card>>, i: int, j: int)
    requires 0 <= i < |posts| && 0 <= j < |posts| && i != j && |posts[i]| == 1
    ensures multiset(Flatten(MoveSingle(posts, i, j))) == multiset(Flatten(posts))
  {
    var card := posts[i][0];
    var mid := posts[i := []];
    FlattenSet(posts, i, []);
    assert multiset(posts[i]) == multiset{card} by {
      assert posts[i] == [card];
    }
    FlattenUpdate(mid, j, card);
    assert MoveSingle(posts, i, j) == mid[j := mid[j] + [card]];
    FlattenHolds(posts, i);
  }

  /**
   * Where the blitz-to-post loop stops with cards left: every post pile holds
   * a card and none accepts the blitz pile's top card.
   */
  predicate BlitzBlocked(h: Hand)
    requires h.blitz != []
  {
    AllNonEmpty(h.posts) && forall k :: 0 <= k < |h.posts| ==> !Accepts(h.posts[k], Last(h.blitz))
  }

  // ---------------------------------------------------------------------
  // The wood pile
  // ---------------------------------------------------------------------

  /** s in the opposite order. */
  function Reversed(s: seq<Card>): (r: seq<Card>)
    ensures |r| == |s|
  {
    if s == [] then [] else [Last(s)] + Reversed(s[..|s| - 1])
  }

  lemma {:induction false} ReversedAt(s: seq<Card>, i: int)
    requires 0 <= i < |s|
    ensures Reversed(s)[i] == s[|s| - 1 - i]
  {
    if i > 0 {
      ReversedAt(s[..|s| - 1], i - 1);
    }
  }

  /** Reversing twice gives the sequence back. */
  lemma ReversedInvolution(s: seq<Card>)
    ensures Reversed(Reversed(s)) == s
  {
    forall i | 0 <= i < |s| ensures Reversed(Reversed(s))[i] == s[i] {
      ReversedAt(Reversed(s), i);
      ReversedAt(s, |s| - 1 - i);
    }
  }

  lemma {:induction false} ReversedCards(s: seq<Card>, bg: Color)
    ensures multiset(Reversed(s)) == multiset(s)
    ensures Owned(s, bg) ==> Owned(Reversed(s), bg)
  {
    if s != [] {
      ReversedCards(s[..|s| - 1], bg);
      RemoveLast(s);
      if Owned(s, bg) {
        OwnedPrefix(s, |s| - 1, bg);
        assert Owned([Last(s)], bg);
        OwnedAppend([Last(s)], Reversed(s[..|s| - 1]), bg);
      }
    }
  }

  /**
   * Replenishing the draw pile when it is empty (lines 348-352): popping the
   * discard pile card by card onto the draw pile turns it over.
   */
  function Refill(h: Hand): (r: Hand)
    ensures r.blitz == h.blitz && r.posts == h.posts
    ensures |r.draw| + |r.discard| == |h.draw| + |h.discard|
    ensures r.draw == [] ==> r.discard == []
  {
    if h.draw == [] then h.(draw := Reversed(h.discard), discard := []) else h
  }

  /** One step of the replenishing loop (line 350): the discard pile's top goes onto the draw pile. */
  function DiscardToDraw(h: Hand): Hand
    requires h.discard != []
  {
    h.(draw := h.draw + [Last(h.discard)], discard := h.discard[..|h.discard| - 1])
  }

  /**
   * A replenishing step keeps the hand well-formed and its cards, and moves
   * the cursor of the turned-over sequence by one card.
   */
  lemma DiscardToDrawOk(h: Hand, bg: Color)
    requires HandOk(h, bg) && h.discard != []
    ensures HandOk(DiscardToDraw(h), bg)
    ensures HandCards(DiscardToDraw(h)) == HandCards(h)
    ensures DiscardToDraw(h).draw + Reversed(DiscardToDraw(h).discard) == h.draw + Reversed(h.discard)
  {
    var n := |h.discard| - 1;
    var c := Last(h.discard);
    assert Owned([c], bg) by {
      assert h.discard[n] == c;
    }
    OwnedPrefix(h.discard, n, bg);
    OwnedAppend(h.draw, [c], bg);
    RemoveLast(h.discard);
    DiscardToDrawOrder(h.draw, h.discard);
  }

  lemma DiscardToDrawOrder(draw: seq<Card>, discard: seq<Card>)
    requires discard != []
    ensures (draw + [Last(discard)]) + Reversed(discard[..|discard| - 1]) == draw + Reversed(discard)
  {
    var c, rest := Last(discard), Reversed(discard[..|discard| - 1]);
    assert Reversed(discard) == [c] + rest;
    AppendAssoc(draw, [c], rest);
  }

  lemma AppendAssoc(a: seq<Card>, b: seq<Card>, c: seq<Card>)
    ensures (a + b) + c == a + (b + c)
  {
  }

  /** Flipping one card (line 354): the draw pile's top goes face up onto the discard pile. */
  function Flip(h: Hand): (r: Hand)
    requires h.draw != []
    ensures r.blitz == h.blitz && r.posts == h.posts
    ensures |r.draw| + |r.discard| == |h.draw| + |h.discard| && r.discard != []
  {
    h.(draw := h.draw[..|h.draw| - 1], discard := h.discard + [Last(h.draw)])
  }

  /** One step of going through the wood pile: replenish if needed, then flip one card. */
  function WoodTurn(h: Hand): (r: Hand)
    requires h.draw != [] || h.discard != []
    ensures |r.draw| + |r.discard| == |h.draw| + |h.discard| && r.discard != []
    ensures r.blitz == h.blitz && r.posts == h.posts
  {
    Flip(Refill(h))
  }

  /** The order of the whole wood pile: the draw pile bottom to top, then the discard pile top to bottom. */
  function WoodOrder(h: Hand): seq<Card>
  {
    h.draw + Reversed(h.discard)
  }

  /** Replenishing keeps the hand well-formed, its cards and the order of the wood pile. */
  lemma RefillOk(h: Hand, bg: Color)
    requires HandOk(h, bg)
    ensures HandOk(Refill(h), bg)
    ensures HandCards(Refill(h)) == HandCards(h)
    ensures Refill(h).blitz == h.blitz && Refill(h).posts == h.posts
    ensures |Refill(h).draw| + |Refill(h).discard| == |h.draw| + |h.discard|
    ensures WoodOrder(Refill(h)) == WoodOrder(h)
    ensures h.discard != [] ==> Refill(h).draw != []
  {
    if h.draw == [] {
      var r := Refill(h);
      assert r.blitz == h.blitz && r.posts == h.posts && r.draw == Reversed(h.discard) && r.discard == [];
      ReversedCards(h.discard, bg);
      assert HandCards(r) == HandCards(h) by {
        assert multiset(r.draw) + multiset(r.discard) == multiset(h.draw) + multiset(h.discard);
      }
      assert WoodOrder(r) == Reversed(h.discard) + Reversed([]);
    }
  }

  /** Flipping keeps the hand well-formed, its cards and the order of the wood pile. */
  lemma FlipOk(h: Hand, bg: Color)
    requires HandOk(h, bg) && h.draw != []
    ensures HandOk(Flip(h), bg)
    ensures HandCards(Flip(h)) == HandCards(h)
    ensures |Flip(h).draw| + |Flip(h).discard| == |h.draw| + |h.discard|
    ensures WoodOrder(Flip(h)) == WoodOrder(h)
  {
    var n := |h.draw| - 1;
    var c := Last(h.draw);
    assert Owned([c], bg) by {
      assert h.draw[n] == c;
    }
    OwnedPrefix(h.draw, n, bg);
    OwnedAppend(h.discard, [c], bg);
    RemoveLast(h.draw);
    FlipOrder(h.draw, h.discard);
  }

  lemma FlipOrder(draw: seq<Card>, discard: seq<Card>)
    requires draw != []
    ensures draw[..|draw| - 1] + Reversed(discard + [Last(draw)]) == draw + Reversed(discard)
  {
    var n := |draw| - 1;
    var d := discard + [Last(draw)];
    assert d[..|d| - 1] == discard;
    assert Reversed(d) == [Last(draw)] + Reversed(discard);
    assert draw == draw[..n] + [Last(draw)];
  }

  /**
   * A turn keeps the hand well-formed and its cards, touches neither the
   * blitz nor the post piles, keeps the size of the wood pile, leaves a card
   * face up on the discard pile, and never reorders the wood pile.
   */
  lemma WoodTurnOk(h: Hand, bg: Color)
    requires HandOk(h, bg) && (h.draw != [] || h.discard != [])
    ensures HandOk(WoodTurn(h), bg)
    ensures HandCards(WoodTurn(h)) == HandCards(h)
    ensures WoodTurn(h).blitz == h.blitz && WoodTurn(h).posts == h.posts
    ensures |WoodTurn(h).draw| + |WoodTurn(h).discard| == |h.draw| + |h.discard|
    ensures WoodTurn(h).discard != []
    ensures WoodOrder(WoodTurn(h)) == WoodOrder(h)
  {
    RefillOk(h, bg);
    FlipOk(Refill(h), bg);
  }

  /** k turns of the wood pile in a row. */
  function WoodTurns(h: Hand, k: nat): (r: Hand)
    requires h.draw != [] || h.discard != []
    ensures |r.draw| + |r.discard| == |h.draw| + |h.discard|
    ensures r.blitz == h.blitz && r.posts == h.posts
    ensures k > 0 ==> r.discard != []
  {
    if k == 0 then h else WoodTurn(WoodTurns(h, k - 1))
  }

  /** Any number of turns keeps what a single turn keeps. */
  lemma {:induction false} WoodTurnsOk(h: Hand, k: nat, bg: Color)
    requires HandOk(h, bg) && (h.draw != [] || h.discard != [])
    ensures HandOk(WoodTurns(h, k), bg)
    ensures HandCards(WoodTurns(h, k)) == HandCards(h)
    ensures WoodTurns(h, k).blitz == h.blitz && WoodTurns(h, k).posts == h.posts
    ensures k > 0 ==> WoodTurns(h, k).discard != []
    ensures WoodOrder(WoodTurns(h, k)) == WoodOrder(h)
  {
    if k > 0 {
      var p := WoodTurns(h, k - 1);
      WoodTurnsOk(h, k - 1, bg);
      WoodTurnOk(p, bg);
      assert WoodTurns(h, k) == WoodTurn(p);
    }
  }

  /** Putting the draw pile's top card at its bottom (lines 388-395). */
  function RotateDraw(h: Hand): Hand
    requires h.draw != []
  {
    h.(draw := RotatedDown(h.draw))
  }

  lemma RotateDrawOk(h: Hand, bg: Color)
    requires HandOk(h, bg) && h.draw != []
    ensures HandOk(RotateDraw(h), bg)
    ensures HandCards(RotateDraw(h)) == HandCards(h)
  {
    RotatedDownPermutes(h.draw);
    var r := RotatedDown(h.draw);
    forall i | 0 <= i < |r| ensures GetBackColor(r[i]) == bg && GetCardNumber(r[i]) < 10 {
      assert r[i] in multiset(h.draw);
      var m :| 0 <= m < |h.draw| && h.draw[m] == r[i];
    }
  }

  // ---------------------------------------------------------------------
  // The blitz-to-post cascade
  // ---------------------------------------------------------------------

  /**
   * One pass of the inner blitz-to-post loop (lines 293-306) from post pile
   * i on: while the blitz pile has cards, its top goes onto pile i when that
   * pile is empty or accepts it.  The flag says whether a card has moved.
   */
  function CascadePass(h: Hand, i: nat, moved: bool): (r: (Hand, bool))
    requires |h.posts| == 3 && i <= 3
    decreases 3 - i
    ensures |r.0.posts| == 3 && |r.0.blitz| <= |h.blitz|
    ensures r.1 ==> moved || |r.0.blitz| < |h.blitz|
    ensures moved ==> r.1
    ensures !r.1 ==> r.0 == h
  {
    if h.blitz == [] || i == 3 then (h, moved)
    else if h.posts[i] == [] || Accepts(h.posts[i], Last(h.blitz)) then CascadePass(BlitzToPost(h, i), i + 1, true)
    else CascadePass(h, i + 1, moved)
  }

  /** The whole cascade (lines 290-307): passes are repeated until one moves nothing. */
  function Cascaded(h: Hand): (r: Hand)
    requires |h.posts| == 3
    decreases |h.blitz|
    ensures |r.posts| == 3 && |r.blitz| <= |h.blitz|
    ensures !CascadePass(r, 0, false).1
  {
    var r := CascadePass(h, 0, false);
    if r.1 then Cascaded(r.0) else r.0
  }

  lemma {:induction false} CascadePassOk(h: Hand, i: nat, moved: bool, bg: Color)
    requires HandOk(h, bg) && i <= 3
    decreases 3 - i
    ensures HandOk(CascadePass(h, i, moved).0, bg)
    ensures HandCards(CascadePass(h, i, moved).0) == HandCards(h)
  {
    if h.blitz == [] || i == 3 {
    } else if h.posts[i] == [] || Accepts(h.posts[i], Last(h.blitz)) {
      BlitzToPostOk(h, i, bg);
      CascadePassOk(BlitzToPost(h, i), i + 1, true, bg);
    } else {
      CascadePassOk(h, i + 1, moved, bg);
    }
  }

  lemma GrownTrans(a: seq<seq<Card>>, b: seq<seq<Card>>, c: seq<seq<Card>>)
    requires Grown(a, b) && Grown(b, c)
    ensures Grown(a, c)
  {
    forall k | 0 <= k < |a| ensures a[k] <= c[k] {
      assert a[k] <= b[k] && b[k] <= c[k];
    }
  }

  /** A pass only grows the post piles, only takes cards off the blitz pile, and leaves the wood pile alone. */
  lemma {:induction false} CascadePassShape(h: Hand, i: nat, moved: bool)
    requires |h.posts| == 3 && i <= 3
    decreases 3 - i
    ensures Grown(h.posts, CascadePass(h, i, moved).0.posts)
    ensures CascadePass(h, i, moved).0.blitz <= h.blitz
    ensures CascadePass(h, i, moved).0.draw == h.draw && CascadePass(h, i, moved).0.discard == h.discard
  {
    if h.blitz == [] || i == 3 {
    } else if h.posts[i] == [] || Accepts(h.posts[i], Last(h.blitz)) {
      var h' := BlitzToPost(h, i);
      CascadePassShape(h', i + 1, true);
      GrownTrans(h.posts, h'.posts, CascadePass(h', i + 1, true).0.posts);
    } else {
      CascadePassShape(h, i + 1, moved);
    }
  }

  /** A pass that moves nothing has found no post pile from i on that takes the blitz pile's top card. */
  lemma {:induction false} CascadePassBlocked(h: Hand, i: nat, moved: bool)
    requires |h.posts| == 3 && i <= 3
    decreases 3 - i
    ensures h.blitz != [] && !CascadePass(h, i, moved).1 ==>
      forall k :: i <= k < 3 ==> h.posts[k] != [] && !Accepts(h.posts[k], Last(h.blitz))
  {
    if h.blitz != [] && i < 3 && !(h.posts[i] == [] || Accepts(h.posts[i], Last(h.blitz))) {
      CascadePassBlocked(h, i + 1, moved);
    }
  }

  /**
   * The cascade keeps the hand well-formed and its cards, only grows the
   * post piles, only takes cards off the blitz pile, leaves the wood pile
   * alone, and stops with cards left only where no post pile can take the
   * blitz pile's top card.
   */
  lemma {:induction false} CascadedOk(h: Hand, bg: Color)
    requires HandOk(h, bg)
    decreases |h.blitz|
    ensures HandOk(Cascaded(h), bg)
    ensures HandCards(Cascaded(h)) == HandCards(h)
    ensures Grown(h.posts, Cascaded(h).posts)
    ensures Cascaded(h).blitz <= h.blitz
    ensures Cascaded(h).draw == h.draw && Cascaded(h).discard == h.discard
    ensures Cascaded(h).blitz != [] ==> BlitzBlocked(Cascaded(h))
  {
    var r := CascadePass(h, 0, false);
    CascadePassOk(h, 0, false, bg);
    CascadePassShape(h, 0, false);
    CascadePassBlocked(h, 0, false);
    if r.1 {
      CascadedOk(r.0, bg);
      GrownTrans(h.posts, r.0.posts, Cascaded(r.0).posts);
    }
  }

  // ---------------------------------------------------------------------
  // Consolidation of the post piles
  // ---------------------------------------------------------------------

  /**
   * The consolidation loops (lines 318-336) from rank cnum, pile i and
   * target j on.  The rank runs down from 8 to 1, and for each rank pile i
   * and target j run from 0 to 2; after a move the search for targets of
   * pile i stops (the `break`) and goes on with the next pile.
   */
  function Scan(posts: seq<seq<Card>>, cnum: int, i: int, j: int): (r: seq<seq<Card>>)
    requires 0 <= i <= 3 && 0 <= j <= 3
    decreases cnum, 3 - i, 3 - j, posts
    ensures |r| == |posts|
  {
    if cnum < 1 then posts
    else if i == 3 then Scan(posts, cnum - 1, 0, 0)
    else if j == 3 then Scan(posts, cnum, i + 1, 0)
    else if Qualifies(posts, i, j, cnum) then Scan(MoveSingle(posts, i, j), cnum, i + 1, 0)
    else Scan(posts, cnum, i, j + 1)
  }

  /** The rank the consolidation loops start from (line 318). */
  const TOP_RANK := 8

  /** The post piles after the consolidation step. */
  function Consolidated(posts: seq<seq<Card>>): seq<seq<Card>>
  {
    Scan(posts, TOP_RANK, 0, 0)
  }

  /** After a consolidation move of three piles no further move qualifies. */
  lemma MoveSingleSettles(posts: seq<seq<Card>>, i: int, j: int, cnum: int)
    requires |posts| == 3 && Qualifies(posts, i, j, cnum)
    ensures !CanConsolidate(MoveSingle(posts, i, j))
  {
    var r := MoveSingle(posts, i, j);
    assert |r[i]| == 0 && |r[j]| == 2;
  }

  /** Where nothing qualifies the loops change nothing. */
  lemma {:induction false} ScanIdle(posts: seq<seq<Card>>, cnum: int, i: int, j: int)
    requires 0 <= i <= 3 && 0 <= j <= 3 && cnum <= 8 && !CanConsolidate(posts)
    decreases cnum, 3 - i, 3 - j
    ensures Scan(posts, cnum, i, j) == posts
  {
    if cnum < 1 {
    } else if i == 3 {
      ScanIdle(posts, cnum - 1, 0, 0);
    } else if j == 3 {
      ScanIdle(posts, cnum, i + 1, 0);
    } else {
      assert !Qualifies(posts, i, j, cnum);
      ScanIdle(posts, cnum, i, j + 1);
    }
  }

  /** The triple (c, a, b) comes at or after (cnum, i, j) in the order the loops visit them. */
  predicate AtOrAfter(c: int, a: int, b: int, cnum: int, i: int, j: int)
  {
    && 1 <= c && 0 <= a < 3 && 0 <= b < 3
    && (c < cnum || (c == cnum && (a > i || (a == i && b >= j))))
  }

  /** The loops keep the post piles consistent and their cards. */
  lemma ScanKeeps(posts: seq<seq<Card>>, cnum: int, i: int, j: int, bg: Color)
    requires 0 <= i <= 3 && 0 <= j <= 3 && PostsOk(posts, bg)
    ensures PostsOk(Scan(posts, cnum, i, j), bg)
    ensures multiset(Flatten(Scan(posts, cnum, i, j))) == multiset(Flatten(posts))
  {
    ScanWellFormed(posts, cnum, i, j, bg);
    ScanConserves(posts, cnum, i, j);
  }

  lemma {:induction false} ScanWellFormed(posts: seq<seq<Card>>, cnum: int, i: int, j: int, bg: Color)
    requires 0 <= i <= 3 && 0 <= j <= 3 && PostsOk(posts, bg)
    decreases cnum, 3 - i, 3 - j
    ensures PostsOk(Scan(posts, cnum, i, j), bg)
  {
    if cnum < 1 {
    } else if i == 3 {
      ScanWellFormed(posts, cnum - 1, 0, 0, bg);
    } else if j == 3 {
      ScanWellFormed(posts, cnum, i + 1, 0, bg);
    } else if Qualifies(posts, i, j, cnum) {
      MoveSingleOk(posts, i, j, cnum, bg);
      assert Scan(posts, cnum, i, j) == Scan(MoveSingle(posts, i, j), cnum, i + 1, 0);
      ScanWellFormed(MoveSingle(posts, i, j), cnum, i + 1, 0, bg);
    } else {
      assert Scan(posts, cnum, i, j) == Scan(posts, cnum, i, j + 1);
      ScanWellFormed(posts, cnum, i, j + 1, bg);
    }
  }

  lemma {:induction false} ScanConserves(posts: seq<seq<Card>>, cnum: int, i: int, j: int)
    requires 0 <= i <= 3 && 0 <= j <= 3 && |posts| == 3
    decreases cnum, 3 - i, 3 - j, 1
    ensures multiset(Flatten(Scan(posts, cnum, i, j))) == multiset(Flatten(posts))
  {
    if cnum < 1 {
    } else if i == 3 {
      ScanConserves(posts, cnum - 1, 0, 0);
    } else if j == 3 {
      ScanConserves(posts, cnum, i + 1, 0);
    } else if Qualifies(posts, i, j, cnum) {
      ScanConservesMove(posts, cnum, i, j);
    } else {
      assert Scan(posts, cnum, i, j) == Scan(posts, cnum, i, j + 1);
      ScanConserves(posts, cnum, i, j + 1);
    }
  }

  /** The step of ScanConserves where the card at i moves onto the one at j. */
  lemma {:induction false} ScanConservesMove(posts: seq<seq<Card>>, cnum: int, i: int, j: int)
    requires 0 <= i < 3 && 0 <= j < 3 && |posts| == 3 && 1 <= cnum && Qualifies(posts, i, j, cnum)
    decreases cnum, 3 - i, 3 - j, 0
    ensures multiset(Flatten(Scan(posts, cnum, i, j))) == multiset(Flatten(posts))
  {
    var moved := MoveSingle(posts, i, j);
    assert Scan(posts, cnum, i, j) == Scan(moved, cnum, i + 1, 0);
    MoveSingleConserves(posts, i, j);
    ScanConserves(moved, cnum, i + 1, 0);
  }

  /**
   * From any position the loops either change nothing, because no triple
   * still to be visited qualifies, or make exactly one move.
   */
  lemma {:induction false} ScanMoves(posts: seq<seq<Card>>, cnum: int, i: int, j: int)
    requires 0 <= i <= 3 && 0 <= j <= 3 && cnum <= 8 && |posts| == 3
    decreases cnum, 3 - i, 3 - j
    ensures Scan(posts, cnum, i, j) != posts ==>
      CanConsolidate(posts) && Stacked(Scan(posts, cnum, i, j)) == Stacked(posts) + 1
    ensures Scan(posts, cnum, i, j) == posts ==>
      forall c, a, b :: AtOrAfter(c, a, b, cnum, i, j) ==> !Qualifies(posts, a, b, c)
  {
    if cnum < 1 {
    } else if i == 3 {
      ScanMoves(posts, cnum - 1, 0, 0);
    } else if j == 3 {
      ScanMoves(posts, cnum, i + 1, 0);
    } else if Qualifies(posts, i, j, cnum) {
      var moved := MoveSingle(posts, i, j);
      MoveSingleStacks(posts, i, j);
      MoveSingleSettles(posts, i, j, cnum);
      ScanIdle(moved, cnum, i + 1, 0);
      assert |moved[i]| != |posts[i]|;
    } else {
      ScanMoves(posts, cnum, i, j + 1);
    }
  }

  /**
   * Consolidation keeps the post piles consistent and their cards; it
   * changes them exactly when some single card of rank 1 to 8 may go onto
   * another single card, and then it makes one more stacked pile.
   */
  lemma ConsolidatedOk(posts: seq<seq<Card>>, bg: Color)
    requires PostsOk(posts, bg)
    ensures PostsOk(Consolidated(posts), bg)
    ensures multiset(Flatten(Consolidated(posts))) == multiset(Flatten(posts))
    ensures CanConsolidate(posts) <==> Consolidated(posts) != posts
    ensures Consolidated(posts) != posts ==> Stacked(Consolidated(posts)) == Stacked(posts) + 1
  {
    ScanKeeps(posts, TOP_RANK, 0, 0, bg);
    ScanMoves(posts, TOP_RANK, 0, 0);
    if CanConsolidate(posts) {
      var a, b, c :| 0 <= a < |posts| && 0 <= b < |posts| && 1 <= c <= 8 && Qualifies(posts, a, b, c);
      assert AtOrAfter(c, a, b, TOP_RANK, 0, 0);
    }
  }

  // ---------------------------------------------------------------------
  // Plays onto the dutch piles
  // ---------------------------------------------------------------------

  /** The blitz pile's top card taken off to be played (line 427). */
  function TakeBlitz(h: Hand): Hand
    requires h.blitz != []
  {
    h.(blitz := h.blitz[..|h.blitz| - 1])
  }

  /** Post pile j's top card taken off to be played (line 436). */
  function TakePost(h: Hand, j: int): Hand
    requires 0 <= j < |h.posts| && h.posts[j] != []
  {
    h.(posts := h.posts[j := h.posts[j][..|h.posts[j]| - 1]])
  }

  /** The discard pile's top card taken off to be played (line 421). */
  function TakeDiscard(h: Hand): Hand
    requires h.discard != []
  {
    h.(discard := h.discard[..|h.discard| - 1])
  }

  lemma ValidPostPrefix(s: seq<Card>, n: nat)
    requires ValidPostPile(s) && n <= |s|
    ensures ValidPostPile(s[..n])
  {
    forall i | 1 <= i < n ensures StepAt(s[..n], i) {
      assert StepAt(s, i);
    }
  }

  /** Taking the top card off a pile to play it keeps the hand well-formed and loses exactly that card. */
  lemma TakeBlitzOk(h: Hand, bg: Color)
    requires HandOk(h, bg) && h.blitz != []
    ensures HandOk(TakeBlitz(h), bg)
    ensures HandCards(h) == HandCards(TakeBlitz(h)) + multiset{Last(h.blitz)}
  {
    OwnedPrefix(h.blitz, |h.blitz| - 1, bg);
    RemoveLast(h.blitz);
  }

  lemma TakeDiscardOk(h: Hand, bg: Color)
    requires HandOk(h, bg) && h.discard != []
    ensures HandOk(TakeDiscard(h), bg)
    ensures HandCards(h) == HandCards(TakeDiscard(h)) + multiset{Last(h.discard)}
  {
    OwnedPrefix(h.discard, |h.discard| - 1, bg);
    RemoveLast(h.discard);
  }

  lemma TakePostOk(h: Hand, j: int, bg: Color)
    requires HandOk(h, bg) && 0 <= j < 3 && h.posts[j] != []
    ensures HandOk(TakePost(h, j), bg)
    ensures HandCards(h) == HandCards(TakePost(h, j)) + multiset{Last(h.posts[j])}
  {
    TakePostKeeps(h.posts, j, bg);
    TakePostCards(h, j);
  }

  lemma TakePostCards(h: Hand, j: int)
    requires 0 <= j < |h.posts| && h.posts[j] != []
    ensures HandCards(h) == HandCards(TakePost(h, j)) + multiset{Last(h.posts[j])}
  {
    var s := h.posts[j];
    RemoveLast(s);
    FlattenSet(h.posts, j, s[..|s| - 1]);
    FlattenHolds(h.posts, j);
  }

  lemma TakePostKeeps(posts: seq<seq<Card>>, j: int, bg: Color)
    requires PostsOk(posts, bg) && 0 <= j < 3 && posts[j] != []
    ensures PostsOk(posts[j := posts[j][..|posts[j]| - 1]], bg)
  {
    var s := posts[j];
    var t := s[..|s| - 1];
    var r := posts[j := t];
    ValidPostPrefix(s, |s| - 1);
    OwnedPrefix(s, |s| - 1, bg);
    forall k | 0 <= k < 3 ensures ValidPostPile(r[k]) && Owned(r[k], bg) {
      if k == j {
        assert r[k] == t;
      } else {
        assert r[k] == posts[k];
      }
    }
  }

  /**
   * Why the post piles are never short of a card where the move search
   * tries the wood pile's top card on them.  A consolidation move in the
   * iter-th round needs two single-card piles, so at most one stacked pile,
   * and each move stacks one more pile; a round without a move leaves the
   * piles settled for good.  So moves happen only in the first two rounds.
   */
  lemma ConsolidationBound(before: seq<seq<Card>>, cascaded: seq<seq<Card>>, iter: int, lastMoved: bool, bg: Color)
    requires PostsOk(before, bg) && Grown(before, cascaded) && AllNonEmpty(cascaded) && PostsOk(cascaded, bg)
    requires 0 <= iter && (!lastMoved || iter >= 1)
    requires iter >= 1 && !lastMoved ==> Settled(before)
    requires lastMoved ==> Stacked(before) >= iter
    ensures Consolidated(cascaded) != cascaded ==> iter <= 1 && Stacked(Consolidated(cascaded)) >= iter + 1
    ensures Consolidated(cascaded) == cascaded ==> Settled(cascaded)
  {
    ConsolidatedOk(cascaded, bg);
    GrowingKeepsStacked(before, cascaded);
    if iter >= 1 && !lastMoved {
      GrowingKeepsSettled(before, cascaded);
    }
    if Consolidated(cascaded) != cascaded {
      var i, j, cnum :| 0 <= i < 3 && 0 <= j < 3 && 1 <= cnum <= 8 && Qualifies(cascaded, i, j, cnum);
      QualifyingLeavesOneStacked(cascaded, i, j, cnum);
    }
  }
}
