/**
 * The bounded pile of cards used for every pile of the game: a stack over
 * a buffer of fixed capacity.  `top` is both the size of the pile and the
 * index of the next free slot; the most recently pushed card is the top.
 */
module Piles {
  import opened Cards

  class Pile {
    /** Number of cards on the pile. */
    var top: int
    /** Capacity; pushing beyond it is a fatal assertion failure. */
    var cap: int
    /** The card buffer; slots [0, top) hold the pile from bottom to top. */
    var cards: array<Card>

    /** The cards on the pile, bottom first. */
    ghost var Contents: seq<Card>

    ghost predicate Valid()
      reads this, cards
    {
      && 0 <= top <= cap
      && cards.Length == cap
      && Contents == cards[..top]
    }

    /**
     * A pile in zero-initialised static storage, before `pile_init`: it has
     * capacity 0 and holds nothing.
     */
    constructor ()
      ensures Valid() && fresh(cards)
      ensures cap == 0 && Contents == []
    {
      top := 0;
      cap := 0;
      cards := new Card[0];
      Contents := [];
    }

    /** pile_init: an empty pile with a freshly allocated buffer of `capacity` cards. */
    method Init(capacity: nat)
      modifies this
      ensures Valid() && fresh(cards)
      ensures cap == capacity && Contents == []
    {
      top := 0;
      cap := capacity;
      cards := new Card[capacity];
      Contents := [];
    }

    /** pile_push: the card becomes the new top; the cards below stay as they were. */
    method Push(card: Card)
      requires Valid() && top < cap
      modifies this, cards
      ensures Valid() && cards == old(cards) && cap == old(cap)
      ensures Contents == old(Contents) + [card]
    {
      cards[top] := card;
      top := top + 1;
      Contents := Contents + [card];
    }

    /** pile_pop: removes and returns the most recently pushed card. */
    method Pop() returns (card: Card)
      requires Valid() && top > 0
      modifies this
      ensures Valid() && cards == old(cards) && cap == old(cap)
      ensures card == old(Contents)[|old(Contents)| - 1]
      ensures Contents == old(Contents)[..|old(Contents)| - 1]
    {
      top := top - 1;
      card := cards[top];
      Contents := Contents[..top];
    }

    /**
     * pile_rotate_top_card_down: the top card is moved to the bottom and
     * every other card moves up one slot.
     */
    method RotateTopCardDown()
      requires Valid() && top > 0
      modifies this, cards
      ensures Valid() && cards == old(cards) && cap == old(cap) && top == old(top)
      ensures Contents == RotatedDown(old(Contents))
    {
      var topCard := cards[top - 1];
      var i := top - 1;
      while i >= 1
        modifies cards
        invariant 0 <= i <= top - 1
        invariant forall k :: 0 <= k <= i ==> cards[k] == old(cards[k])
        invariant forall k :: i < k < top ==> cards[k] == old(cards[k - 1])
        invariant forall k :: top <= k < cards.Length ==> cards[k] == old(cards[k])
      {
        cards[i] := cards[i - 1];
        i := i - 1;
      }
      cards[0] := topCard;
      Contents := cards[..top];
    }

    /** pile_top: the most recently pushed card; the pile is not changed. */
    function Top(): (card: Card)
      requires Valid() && top > 0
      reads this, cards
      ensures card == Contents[|Contents| - 1]
    {
      cards[top - 1]
    }

    /** pile_empty */
    function Empty(): (b: bool)
      requires Valid()
      reads this, cards
      ensures b <==> Contents == []
    {
      top == 0
    }

    /** pile_size */
    function Size(): (n: int)
      requires Valid()
      reads this, cards
      ensures n == |Contents| && n <= cap
    {
      top
    }
  }

  /** pile_push(to, pile_pop(from)): the top card of one pile is moved onto another. */
  method MoveTop(from: Pile, to: Pile)
    requires from.Valid() && to.Valid() && from.cards != to.cards
    requires from.top > 0 && to.top < to.cap
    modifies from, to, to.cards
    ensures from.Valid() && to.Valid()
    ensures from.cards == old(from.cards) && to.cards == old(to.cards)
    ensures from.cap == old(from.cap) && to.cap == old(to.cap)
    ensures from.Contents == old(from.Contents)[..|old(from.Contents)| - 1]
    ensures to.Contents == old(to.Contents) + [old(from.Contents)[|old(from.Contents)| - 1]]
  {
    var card := from.Pop();
    to.Push(card);
  }

  /** The pile after its top card has been put at the bottom. */
  function RotatedDown(s: seq<Card>): seq<Card>
    requires |s| > 0
  {
    [s[|s| - 1]] + s[..|s| - 1]
  }

  /** Rotating keeps the same cards and the same size. */
  lemma RotatedDownPermutes(s: seq<Card>)
    requires |s| > 0
    ensures |RotatedDown(s)| == |s|
    ensures multiset(RotatedDown(s)) == multiset(s)
  {
    assert s == s[..|s| - 1] + [s[|s| - 1]];
  }

  /** Rotating a pile of n cards n times gives the pile back. */
  lemma {:induction false} RotatedDownCycle(s: seq<Card>, k: nat)
    requires |s| > 0 && k <= |s|
    ensures RotateTimes(s, k) == s[|s| - k..] + s[..|s| - k]
  {
    if k > 0 {
      RotatedDownCycle(s, k - 1);
      var r := RotateTimes(s, k - 1);
      assert r == s[|s| - k + 1..] + s[..|s| - k + 1];
      assert r[|r| - 1] == s[|s| - k];
      assert r[..|r| - 1] == s[|s| - k + 1..] + s[..|s| - k];
    }
  }

  /** The pile after k rotations. */
  function RotateTimes(s: seq<Card>, k: nat): (r: seq<Card>)
    requires |s| > 0
    ensures |r| == |s|
  {
    if k == 0 then s else RotatedDown(RotateTimes(s, k - 1))
  }

  /** Pushing a card and popping it again leaves the pile as it was. */
  method PushPop(p: Pile, card: Card) returns (popped: Card)
    requires p.Valid() && p.top < p.cap
    modifies p, p.cards
    ensures p.Valid() && popped == card
    ensures p.Contents == old(p.Contents)
  {
    p.Push(card);
    popped := p.Pop();
    assert p.Contents == (old(p.Contents) + [card])[..|old(p.Contents)|];
  }
}
