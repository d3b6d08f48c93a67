/**
 * The state of one player (struct player_state): the deck that was dealt,
 * the blitz pile, three post piles and the wood pile split into the draw
 * pile in hand and the discard pile on the table.  The methods are the
 * dealing and the moves a player makes among their own piles while looking
 * for a play; each is proved against the functions on hands.
 */
module Players {
  import opened Cards
  import opened Piles
  import opened Rules
  import opened Deck
  import opened Hands

  /** The return codes of player_find_possible_move. */
  const NO_MOVE := -1
  const BLITZED_FROM_POST := 256
  const PLAY_WOOD := 257
  const PLAY_BLITZ := 258
  const PLAY_POST := 259

  /** The bound on the rounds of the move search. */
  const NROUNDS := 500

  /** How many times one search may rotate the draw pile (line 274). */
  const RESETS := 3

  /** How many wood cards a round turns over (line 341). */
  const FLIPS: nat := 3

  /**
   * What player_find_possible_move may answer for a hand h and dutch piles
   * with the given contents: one of its codes, and for a play the card it
   * names is there and fits the dutch piles; BLITZED_FROM_POST only once
   * the blitz pile is empty.
   */
  predicate Offers(action: int, h: Hand, piles: seq<seq<Card>>)
  {
    && |h.posts| == 3
    && (action == NO_MOVE || action == BLITZED_FROM_POST || action == PLAY_WOOD
        || action == PLAY_BLITZ || PLAY_POST <= action < PLAY_POST + 3)
    && (action == BLITZED_FROM_POST ==> h.blitz == [])
    && (action == PLAY_BLITZ ==> h.blitz != [] && Fits(Last(h.blitz), piles))
    && (PLAY_POST <= action < PLAY_POST + 3 ==>
          h.posts[action - PLAY_POST] != [] && Fits(Last(h.posts[action - PLAY_POST]), piles))
    && (action == PLAY_WOOD ==> h.discard != [] && Fits(Last(h.discard), piles))
  }

  /**
   * The first post pile from j on whose top card fits the dutch piles, as
   * PLAY_POST plus its index; NO_MOVE if there is none.
   */
  function FirstPlayablePost(posts: seq<seq<Card>>, piles: seq<seq<Card>>, j: int): (action: int)
    requires |posts| == 3 && 0 <= j <= 3
    decreases 3 - j
    ensures action == NO_MOVE || PLAY_POST + j <= action < PLAY_POST + 3
    ensures PLAY_POST <= action < PLAY_POST + 3 ==>
      posts[action - PLAY_POST] != [] && Fits(Last(posts[action - PLAY_POST]), piles)
    ensures forall m :: j <= m < 3 && (action == NO_MOVE || m < action - PLAY_POST) && posts[m] != [] ==>
      !Fits(Last(posts[m]), piles)
  {
    if j == 3 then NO_MOVE
    else if posts[j] != [] && Fits(Last(posts[j]), piles) then PLAY_POST + j
    else FirstPlayablePost(posts, piles, j + 1)
  }

  /**
   * The answer of the first checks of a round (lines 277-287): the blitz
   * pile's top card if it fits the dutch piles, else the first post pile's
   * top card that fits, else NO_MOVE.
   */
  function FirstPlayable(h: Hand, piles: seq<seq<Card>>): (action: int)
    requires |h.posts| == 3
    ensures action == NO_MOVE || action == PLAY_BLITZ || PLAY_POST <= action < PLAY_POST + 3
    ensures h.blitz != [] && Fits(Last(h.blitz), piles) <==> action == PLAY_BLITZ
    ensures PLAY_POST <= action < PLAY_POST + 3 ==>
      && h.posts[action - PLAY_POST] != [] && Fits(Last(h.posts[action - PLAY_POST]), piles)
      && forall m :: 0 <= m < action - PLAY_POST && h.posts[m] != [] ==> !Fits(Last(h.posts[m]), piles)
    ensures action == NO_MOVE <==>
      && (h.blitz != [] ==> !Fits(Last(h.blitz), piles))
      && forall j :: 0 <= j < 3 && h.posts[j] != [] ==> !Fits(Last(h.posts[j]), piles)
  {
    if h.blitz != [] && Fits(Last(h.blitz), piles) then PLAY_BLITZ
    else FirstPlayablePost(h.posts, piles, 0)
  }

  /**
   * How a round of the search ends: it stops with an answer and the hand it
   * leaves, or the search goes on with that hand, the round counter and
   * the rotations left (before the loop's increment).
   */
  datatype Step = Stop(action: int, hand: Hand) | Next(hand: Hand, rounds: int, resetsleft: int)

  /** The post piles tidied (lines 289-337): the cascade, then the consolidation unless the blitz pile ran out. */
  function Tidied(h: Hand): (r: Hand)
    requires |h.posts| == 3
    ensures |r.posts| == 3 && r.blitz == Cascaded(h).blitz
  {
    var c := Cascaded(h);
    if c.blitz == [] then c else c.(posts := Consolidated(c.posts))
  }

  /**
   * The rotation at the end of a round (lines 388-395): when the rounds
   * exceed twice the wood left, the draw pile is not empty and rotations
   * are left, the draw pile's top goes to its bottom and the rounds start
   * again.
   */
  function Rotated(w: Hand, rounds: int, resetsleft: int): (s: Step)
    ensures s.Next? && s.hand.blitz == w.blitz && s.hand.posts == w.posts
    ensures (s.rounds == rounds && s.resetsleft == resetsleft) || (s.rounds == 0 && s.resetsleft == resetsleft - 1 >= 0)
  {
    if rounds > 2 * (|w.draw| + |w.discard|) && w.draw != [] && resetsleft > 0
    then Next(RotateDraw(w), 0, resetsleft - 1)
    else Next(w, rounds, resetsleft)
  }

  /**
   * The rest of a round once the wood pile was turned three times into t
   * (lines 360-396): PLAY_WOOD when the discard top fits; otherwise, past
   * the first rounds, the discard top may go onto a post pile, and the
   * rotation follows.
   */
  function AfterTurns(t: Hand, piles: seq<seq<Card>>, rounds: int, resetsleft: int): (s: Step)
    requires |t.posts| == 3 && t.discard != []
    ensures |s.hand.posts| == 3 && s.hand.blitz == t.blitz
    ensures s.Stop? <==> Fits(Last(t.discard), piles)
    ensures s.Stop? ==> s == Stop(PLAY_WOOD, t)
    ensures s.Next? ==>
      (s.rounds == rounds && s.resetsleft == resetsleft) || (s.rounds == 0 && s.resetsleft == resetsleft - 1 >= 0)
  {
    if Fits(Last(t.discard), piles) then Stop(PLAY_WOOD, t)
    else if rounds > |t.draw| + |t.discard| then Rotated(WoodToPost(t), rounds, resetsleft)
    else Rotated(t, rounds, resetsleft)
  }

  /**
   * The wood search of a round on the tidied hand k (lines 338-396):
   * NO_MOVE when there is no wood, otherwise the rest of the round after
   * three turns of the wood pile.
   */
  function WoodStep(k: Hand, piles: seq<seq<Card>>, rounds: int, resetsleft: int): (s: Step)
    requires |k.posts| == 3
    ensures |s.hand.posts| == 3 && s.hand.blitz == k.blitz
    ensures s.Stop? ==> s.action in {NO_MOVE, PLAY_WOOD}
    ensures s.Stop? && s.action == NO_MOVE ==> s.hand.draw == [] && s.hand.discard == []
    ensures s.Next? ==>
      (s.rounds == rounds && s.resetsleft == resetsleft) || (s.rounds == 0 && s.resetsleft == resetsleft - 1 >= 0)
  {
    if k.draw == [] && k.discard == [] then Stop(NO_MOVE, k)
    else AfterTurns(WoodTurns(k, FLIPS), piles, rounds, resetsleft)
  }

  /**
   * A round once no top card fits (lines 289-396): BLITZED_FROM_POST when
   * the cascade empties the blitz pile, otherwise the wood search on the
   * tidied hand.
   */
  function SearchStep(h: Hand, piles: seq<seq<Card>>, rounds: int, resetsleft: int): (s: Step)
    requires |h.posts| == 3
    ensures |s.hand.posts| == 3
    ensures s.Stop? ==> (s.action == BLITZED_FROM_POST <==> s.hand.blitz == [])
    ensures s.Stop? ==> s.action in {BLITZED_FROM_POST, NO_MOVE, PLAY_WOOD}
    ensures s.Stop? && s.action == NO_MOVE ==> s.hand.draw == [] && s.hand.discard == []
    ensures s.Next? ==> s.hand.blitz != []
    ensures s.Next? ==>
      (s.rounds == rounds && s.resetsleft == resetsleft) || (s.rounds == 0 && s.resetsleft == resetsleft - 1 >= 0)
  {
    var k := Tidied(h);
    if k.blitz == [] then Stop(BLITZED_FROM_POST, k) else WoodStep(k, piles, rounds, resetsleft)
  }

  /**
   * How a round ends once no top card fits: BLITZED_FROM_POST exactly when
   * the cascade empties the blitz pile, NO_MOVE exactly when the tidied
   * hand has no wood, PLAY_WOOD exactly when the discard top after three
   * turns fits the dutch piles, and the search goes on otherwise.
   */
  lemma SearchStepCases(h: Hand, piles: seq<seq<Card>>, rounds: int, resetsleft: int)
    requires |h.posts| == 3
    ensures SearchStep(h, piles, rounds, resetsleft) == Stop(BLITZED_FROM_POST, Tidied(h)) <==> Cascaded(h).blitz == []
    ensures SearchStep(h, piles, rounds, resetsleft) == Stop(NO_MOVE, Tidied(h)) <==>
      Cascaded(h).blitz != [] && Tidied(h).draw == [] && Tidied(h).discard == []
    ensures SearchStep(h, piles, rounds, resetsleft).Stop? && SearchStep(h, piles, rounds, resetsleft).action == PLAY_WOOD <==>
      && Cascaded(h).blitz != [] && (Tidied(h).draw != [] || Tidied(h).discard != [])
      && Fits(Last(WoodTurns(Tidied(h), FLIPS).discard), piles)
    ensures SearchStep(h, piles, rounds, resetsleft).Stop? && SearchStep(h, piles, rounds, resetsleft).action == PLAY_WOOD ==>
      SearchStep(h, piles, rounds, resetsleft).hand == WoodTurns(Tidied(h), FLIPS)
    ensures SearchStep(h, piles, rounds, resetsleft).Next? <==>
      && Cascaded(h).blitz != [] && (Tidied(h).draw != [] || Tidied(h).discard != [])
      && !Fits(Last(WoodTurns(Tidied(h), FLIPS).discard), piles)
  {
  }

  /** What TidyPosts promises is the tidied hand. */
  lemma TidiedIs(h: Hand, k: Hand, blitzed: bool, piles: seq<seq<Card>>, rounds: int, resetsleft: int)
    requires |h.posts| == 3
    requires blitzed <==> k.blitz == []
    requires blitzed ==> k == Cascaded(h)
    requires !blitzed ==> k == Cascaded(h).(posts := Consolidated(Cascaded(h).posts))
    ensures k == Tidied(h)
    ensures blitzed ==> SearchStep(h, piles, rounds, resetsleft) == Stop(BLITZED_FROM_POST, k)
    ensures !blitzed ==> SearchStep(h, piles, rounds, resetsleft) == WoodStep(k, piles, rounds, resetsleft)
  {
  }

  /** The wood search after the turns, as SearchWood states it, is AfterTurns up to the rotation. */
  lemma AfterTurnsIs(t: Hand, w: Hand, piles: seq<seq<Card>>, rounds: int, resetsleft: int, done: bool, action: int)
    requires |t.posts| == 3 && t.discard != []
    requires done ==> action == PLAY_WOOD
    requires !done ==> action == NO_MOVE
    requires action == PLAY_WOOD <==> Fits(Last(t.discard), piles)
    requires done || rounds <= |t.draw| + |t.discard| ==> w == t
    requires !done && rounds > |t.draw| + |t.discard| ==> w == WoodToPost(t)
    ensures done ==> AfterTurns(t, piles, rounds, resetsleft) == Stop(action, w)
    ensures !done ==> AfterTurns(t, piles, rounds, resetsleft) == Rotated(w, rounds, resetsleft)
  {
  }

  /** What SearchWood promises is the wood search of WoodStep, up to the rotation; `t` is the hand after the turns. */
  lemma {:induction false} WoodSearchIs(k: Hand, t: Hand, w: Hand, piles: seq<seq<Card>>, rounds: int, resetsleft: int, done: bool, action: int)
    requires |k.posts| == 3 && (k.draw != [] || k.discard != [] ==> t == WoodTurns(k, FLIPS))
    requires action == NO_MOVE || (done && action == PLAY_WOOD)
    requires done && action == NO_MOVE <==> k.draw == [] && k.discard == []
    requires done && action == NO_MOVE ==> w == k
    requires !(done && action == NO_MOVE) ==> t.discard != []
    requires !(done && action == NO_MOVE) ==> (action == PLAY_WOOD <==> Fits(Last(t.discard), piles))
    requires done && action == PLAY_WOOD ==> w == t
    requires !done && rounds <= |t.draw| + |t.discard| ==> w == t
    requires !done && rounds > |t.draw| + |t.discard| ==> w == WoodToPost(t)
    ensures done ==> WoodStep(k, piles, rounds, resetsleft) == Stop(action, w)
    ensures !done ==> WoodStep(k, piles, rounds, resetsleft) == Rotated(w, rounds, resetsleft)
  {
    if k.draw == [] && k.discard == [] {
      assert done && action == NO_MOVE && w == k;
    } else {
      AfterTurnsIs(t, w, piles, rounds, resetsleft, done, action);
    }
  }

  /** A whole round (lines 276-396): the first checks, then the rest of the round. */
  function RoundStep(h: Hand, piles: seq<seq<Card>>, rounds: int, resetsleft: int): (s: Step)
    requires |h.posts| == 3
    ensures |s.hand.posts| == 3
    ensures s.Stop? && h.blitz != [] ==> (s.action == BLITZED_FROM_POST <==> s.hand.blitz == [])
    ensures s.Stop? && s.action == NO_MOVE ==> s.hand.draw == [] && s.hand.discard == []
    ensures s.Next? ==> s.hand.blitz != []
    ensures s.Next? ==>
      (s.rounds == rounds && s.resetsleft == resetsleft) || (s.rounds == 0 && s.resetsleft == resetsleft - 1 >= 0)
  {
    var a := FirstPlayable(h, piles);
    if a != NO_MOVE then Stop(a, h) else SearchStep(h, piles, rounds, resetsleft)
  }

  /**
   * The search from round counter rounds with resetsleft rotations left
   * (lines 276-398): the answer, the hand it leaves and the number of
   * rounds run.  It gives up once the round counter reaches NROUNDS.
   */
  function Search(h: Hand, piles: seq<seq<Card>>, rounds: int, resetsleft: int): (r: (int, Hand, nat))
    requires |h.posts| == 3 && 0 <= rounds && 0 <= resetsleft
    decreases resetsleft, NROUNDS - rounds, 1, h
    ensures |r.1.posts| == 3
  {
    if rounds >= NROUNDS then (NO_MOVE, h, 0) else Resume(h, piles, rounds, resetsleft)
  }

  /** A round of the search: it ends with the round when the round stops, and goes on with the next one otherwise. */
  function Resume(h: Hand, piles: seq<seq<Card>>, rounds: int, resetsleft: int): (r: (int, Hand, nat))
    requires |h.posts| == 3 && 0 <= rounds < NROUNDS && 0 <= resetsleft
    decreases resetsleft, NROUNDS - rounds, 0, h
    ensures |r.1.posts| == 3
  {
    match RoundStep(h, piles, rounds, resetsleft)
      case Stop(a, k) => (a, k, 1)
      case Next(k, next, left) =>
        var s := Search(k, piles, next + 1, left);
        (s.0, s.1, s.2 + 1)
  }

  /** A round that goes on gives the answer of the search from the next round. */
  lemma ResumeAction(k: Hand, k': Hand, piles: seq<seq<Card>>, rounds: int, resetsleft: int, next: int, left: int)
    requires |k.posts| == 3 && |k'.posts| == 3
    requires 0 <= rounds < NROUNDS && 0 <= resetsleft && 0 <= next && 0 <= left
    requires RoundStep(k, piles, rounds, resetsleft) == Next(k', next, left)
    ensures Resume(k, piles, rounds, resetsleft).0 == Search(k', piles, next + 1, left).0
  {
  }

  /** A round that goes on leaves the hand of the search from the next round. */
  lemma ResumeHand(k: Hand, k': Hand, piles: seq<seq<Card>>, rounds: int, resetsleft: int, next: int, left: int)
    requires |k.posts| == 3 && |k'.posts| == 3
    requires 0 <= rounds < NROUNDS && 0 <= resetsleft && 0 <= next && 0 <= left
    requires RoundStep(k, piles, rounds, resetsleft) == Next(k', next, left)
    ensures Resume(k, piles, rounds, resetsleft).1 == Search(k', piles, next + 1, left).1
  {
  }

  /** A round that goes on is one more than the rounds of the search from the next round. */
  lemma ResumeRounds(k: Hand, k': Hand, piles: seq<seq<Card>>, rounds: int, resetsleft: int, next: int, left: int)
    requires |k.posts| == 3 && |k'.posts| == 3
    requires 0 <= rounds < NROUNDS && 0 <= resetsleft && 0 <= next && 0 <= left
    requires RoundStep(k, piles, rounds, resetsleft) == Next(k', next, left)
    ensures Resume(k, piles, rounds, resetsleft).2 == Search(k', piles, next + 1, left).2 + 1
  {
  }

  /** The goal of a search is the search from k at rounds and resetsleft, after iter rounds already run. */
  predicate Searched(goal: (int, Hand, nat), k: Hand, piles: seq<seq<Card>>, rounds: int, resetsleft: int, iter: int)
    requires |k.posts| == 3 && 0 <= rounds && 0 <= resetsleft
  {
    var g := Goal(k, piles, rounds, resetsleft, iter);
    goal.0 == g.0 && goal.1 == g.1 && goal.2 == g.2
  }

  /** The answer, the hand and the rounds of the search from k, counting iter rounds already run. */
  function Goal(k: Hand, piles: seq<seq<Card>>, rounds: int, resetsleft: int, iter: int): (g: (int, Hand, int))
    requires |k.posts| == 3 && 0 <= rounds && 0 <= resetsleft
    ensures g.2 >= iter
  {
    var s := Search(k, piles, rounds, resetsleft);
    (s.0, s.1, s.2 + iter)
  }

  /** A round that goes on leaves the goal where the next round starts. */
  lemma SearchGoesOn(goal: (int, Hand, nat), k: Hand, k': Hand, piles: seq<seq<Card>>, rounds: int, resetsleft: int,
                     iter: int, next: int, left: int)
    requires |k.posts| == 3 && |k'.posts| == 3
    requires 0 <= rounds < NROUNDS && 0 <= resetsleft && 0 <= next && 0 <= left
    requires Searched(goal, k, piles, rounds, resetsleft, iter)
    requires RoundStep(k, piles, rounds, resetsleft) == Next(k', next, left)
    ensures Searched(goal, k', piles, next + 1, left, iter + 1)
  {
    assert Search(k, piles, rounds, resetsleft) == Resume(k, piles, rounds, resetsleft);
    ResumeAction(k, k', piles, rounds, resetsleft, next, left);
    ResumeHand(k, k', piles, rounds, resetsleft, next, left);
    ResumeRounds(k, k', piles, rounds, resetsleft, next, left);
  }

  /** A round that stops gives the goal: its answer, its hand and one more round. */
  lemma SearchStops(goal: (int, Hand, nat), k: Hand, k': Hand, piles: seq<seq<Card>>, rounds: int, resetsleft: int,
                    iter: int, action: int)
    requires |k.posts| == 3
    requires 0 <= rounds < NROUNDS && 0 <= resetsleft
    requires Searched(goal, k, piles, rounds, resetsleft, iter)
    requires RoundStep(k, piles, rounds, resetsleft) == Stop(action, k')
    ensures goal.0 == action && goal.1 == k' && goal.2 == iter + 1
  {
    assert Search(k, piles, rounds, resetsleft) == Resume(k, piles, rounds, resetsleft);
  }

  /** One round of the search, as Round reports it, keeps the goal or reaches it. */
  lemma SearchAdvances(goal: (int, Hand, nat), k: Hand, k': Hand, piles: seq<seq<Card>>, rounds: int, resetsleft: int,
                       iter: int, stop: bool, action: int, next: int, left: int, rounds': int, iter': int)
    requires |k.posts| == 3 && |k'.posts| == 3
    requires 0 <= rounds < NROUNDS && 0 <= resetsleft
    requires Searched(goal, k, piles, rounds, resetsleft, iter)
    requires stop ==> RoundStep(k, piles, rounds, resetsleft) == Stop(action, k')
    requires !stop ==> RoundStep(k, piles, rounds, resetsleft) == Next(k', next, left) && 0 <= next && 0 <= left
    requires rounds' == next + 1 && iter' == iter + 1
    ensures stop ==> goal.0 == action && goal.1 == k' && goal.2 == iter'
    ensures !stop ==> Searched(goal, k', piles, rounds', left, iter')
  {
    if stop {
      SearchStops(goal, k, k', piles, rounds, resetsleft, iter, action);
    } else {
      SearchGoesOn(goal, k, k', piles, rounds, resetsleft, iter, next, left);
    }
  }

  /** Once the rounds run out, the goal is to give up with the hand reached. */
  lemma SearchEnds(goal: (int, Hand, nat), k: Hand, piles: seq<seq<Card>>, rounds: int, resetsleft: int, iter: int)
    requires |k.posts| == 3
    requires NROUNDS <= rounds && 0 <= resetsleft
    requires Searched(goal, k, piles, rounds, resetsleft, iter)
    ensures goal.0 == NO_MOVE && goal.1 == k && goal.2 == iter
  {
  }

  /** When a top card fits, the search takes it in its first round and leaves the hand alone. */
  lemma SearchFirst(h: Hand, piles: seq<seq<Card>>)
    requires |h.posts| == 3 && FirstPlayable(h, piles) != NO_MOVE
    ensures Search(h, piles, 0, RESETS) == (FirstPlayable(h, piles), h, 1)
  {
    assert Search(h, piles, 0, RESETS) == Resume(h, piles, 0, RESETS);
  }

  /**
   * The search says NO_MOVE only when the hand it leaves has no wood or
   * when it ran every round up to NROUNDS; and with resetsleft rotations
   * left it runs at most resetsleft + 1 passes of NROUNDS rounds.
   */
  lemma {:induction false} SearchGivesUp(h: Hand, piles: seq<seq<Card>>, rounds: int, resetsleft: int)
    requires |h.posts| == 3 && 0 <= rounds && 0 <= resetsleft
    decreases resetsleft, NROUNDS - rounds
    ensures var r := Search(h, piles, rounds, resetsleft);
      r.0 == NO_MOVE ==> (r.1.draw == [] && r.1.discard == []) || r.2 >= NROUNDS - rounds
    ensures rounds <= NROUNDS ==> Search(h, piles, rounds, resetsleft).2 <= resetsleft * NROUNDS + NROUNDS - rounds
  {
    if rounds < NROUNDS {
      assert Search(h, piles, rounds, resetsleft) == Resume(h, piles, rounds, resetsleft);
      match RoundStep(h, piles, rounds, resetsleft)
      case Stop(a, k) =>
      case Next(k, next, left) =>
        SearchGivesUp(k, piles, next + 1, left);
        ResumeAction(h, k, piles, rounds, resetsleft, next, left);
        ResumeHand(h, k, piles, rounds, resetsleft, next, left);
        ResumeRounds(h, k, piles, rounds, resetsleft, next, left);
    }
  }

  /** A search that starts with blitz cards and leaves none has stopped with BLITZED_FROM_POST. */
  lemma {:induction false} SearchBlitzes(h: Hand, piles: seq<seq<Card>>, rounds: int, resetsleft: int)
    requires |h.posts| == 3 && 0 <= rounds && 0 <= resetsleft
    decreases resetsleft, NROUNDS - rounds
    ensures h.blitz != [] && Search(h, piles, rounds, resetsleft).1.blitz == [] ==>
      Search(h, piles, rounds, resetsleft).0 == BLITZED_FROM_POST
  {
    if rounds < NROUNDS {
      assert Search(h, piles, rounds, resetsleft) == Resume(h, piles, rounds, resetsleft);
      match RoundStep(h, piles, rounds, resetsleft)
      case Stop(a, k) =>
      case Next(k, next, left) =>
        SearchBlitzes(k, piles, next + 1, left);
        ResumeAction(h, k, piles, rounds, resetsleft, next, left);
        ResumeHand(h, k, piles, rounds, resetsleft, next, left);
    }
  }

  /** What the whole search of player_find_possible_move promises, from round 0 with RESETS rotations. */
  lemma SearchFacts(h: Hand, piles: seq<seq<Card>>)
    requires |h.posts| == 3
    ensures var r := Search(h, piles, 0, RESETS);
      && (r.0 == NO_MOVE ==> (r.1.draw == [] && r.1.discard == []) || r.2 >= NROUNDS)
      && r.2 <= 4 * NROUNDS
      && (FirstPlayable(h, piles) != NO_MOVE ==> r.0 == FirstPlayable(h, piles) && r.1 == h && r.2 == 1)
      && (h.blitz != [] && r.1.blitz == [] ==> r.0 == BLITZED_FROM_POST)
  {
    SearchGivesUp(h, piles, 0, RESETS);
    SearchBlitzes(h, piles, 0, RESETS);
    if FirstPlayable(h, piles) != NO_MOVE {
      SearchFirst(h, piles);
    }
  }

  /**
   * The ghost bookkeeping of the search after iter rounds, lastMoved telling
   * whether the last one moved a post card: after a round that moved
   * nothing the posts are settled, after one that moved the posts hold at
   * least iter piles of two or more cards.
   */
  predicate Tracked(posts: seq<seq<Card>>, iter: int, lastMoved: bool)
  {
    && 0 <= iter && (!lastMoved || iter >= 1)
    && (iter >= 1 && !lastMoved ==> Settled(posts))
    && (lastMoved ==> Stacked(posts) >= iter)
  }

  /** The capacities pile_init gives the piles of a player. */
  const POST_CAP := 10
  const BLITZ_CAP := 10
  const WOOD_CAP := 30

  /** Positions of the piles in Player.Piles(): post pile i at i, then the blitz, draw and discard piles. */
  const BLITZ := 3
  const DRAW := 4
  const DISCARD := 5

  /** The capacity player_deal gives the pile at position k. */
  function CapOf(k: int): int
  {
    if k < DRAW then 10 else 30
  }

  /** The hand whose piles, in the order of Player.Piles(), hold the given contents. */
  function HandOf(s: seq<seq<Card>>): (h: Hand)
    requires |s| == 6
    ensures |h.posts| == 3
  {
    Hand(s[BLITZ], s[..BLITZ], s[DRAW], s[DISCARD])
  }

  /** The contents after the top card of pile x was pushed onto pile y. */
  function Shift(s: seq<seq<Card>>, x: int, y: int): (r: seq<seq<Card>>)
    requires 0 <= x < |s| && 0 <= y < |s| && x != y && s[x] != []
  {
    s[x := s[x][..|s[x]| - 1]][y := s[y] + [Last(s[x])]]
  }

  /** The contents after the top card of pile x was popped. */
  function Drop(s: seq<seq<Card>>, x: int): (r: seq<seq<Card>>)
    requires 0 <= x < |s| && s[x] != []
  {
    s[x := s[x][..|s[x]| - 1]]
  }

  lemma ShiftBlitzToPost(s: seq<seq<Card>>, i: int)
    requires |s| == 6 && s[BLITZ] != [] && 0 <= i < 3
    ensures HandOf(Shift(s, BLITZ, i)) == BlitzToPost(HandOf(s), i)
  {
    assert Shift(s, BLITZ, i)[..BLITZ] == PutOnPost(s[..BLITZ], i, Last(s[BLITZ]));
  }

  lemma ShiftDiscardToPost(s: seq<seq<Card>>, i: int)
    requires |s| == 6 && s[DISCARD] != [] && 0 <= i < 3
    ensures HandOf(Shift(s, DISCARD, i)) == DiscardToPost(HandOf(s), i)
  {
    assert Shift(s, DISCARD, i)[..BLITZ] == PutOnPost(s[..BLITZ], i, Last(s[DISCARD]));
  }

  lemma ShiftMoveSingle(s: seq<seq<Card>>, i: int, j: int)
    requires |s| == 6 && 0 <= i < 3 && 0 <= j < 3 && i != j && |s[i]| == 1
    ensures HandOf(Shift(s, i, j)) == HandOf(s).(posts := MoveSingle(HandOf(s).posts, i, j))
  {
    assert Shift(s, i, j)[..BLITZ] == MoveSingle(s[..BLITZ], i, j);
  }

  lemma ShiftDiscardToDraw(s: seq<seq<Card>>)
    requires |s| == 6 && s[DISCARD] != []
    ensures HandOf(Shift(s, DISCARD, DRAW)) == DiscardToDraw(HandOf(s))
  {
    assert Shift(s, DISCARD, DRAW)[..BLITZ] == s[..BLITZ];
  }

  lemma ShiftFlip(s: seq<seq<Card>>)
    requires |s| == 6 && s[DRAW] != []
    ensures HandOf(Shift(s, DRAW, DISCARD)) == Flip(HandOf(s))
  {
    assert Shift(s, DRAW, DISCARD)[..BLITZ] == s[..BLITZ];
  }

  lemma DropBlitz(s: seq<seq<Card>>)
    requires |s| == 6 && s[BLITZ] != []
    ensures HandOf(Drop(s, BLITZ)) == TakeBlitz(HandOf(s))
  {
    assert Drop(s, BLITZ)[..BLITZ] == s[..BLITZ];
  }

  lemma DropPost(s: seq<seq<Card>>, j: int)
    requires |s| == 6 && 0 <= j < 3 && s[j] != []
    ensures HandOf(Drop(s, j)) == TakePost(HandOf(s), j)
  {
    var p := s[..BLITZ];
    assert Drop(s, j)[..BLITZ] == p[j := p[j][..|p[j]| - 1]];
  }

  lemma DropDiscard(s: seq<seq<Card>>)
    requires |s| == 6 && s[DISCARD] != []
    ensures HandOf(Drop(s, DISCARD)) == TakeDiscard(HandOf(s))
  {
    assert Drop(s, DISCARD)[..BLITZ] == s[..BLITZ];
  }

  /** Piles filled as player_deal fills them hold the hand Dealt describes. */
  lemma DealtView(s: seq<seq<Card>>, d: seq<Card>)
    requires |s| == 6 && |d| == 40
    requires forall k :: 0 <= k < 3 ==> s[k] == [d[k]]
    requires s[BLITZ] == d[3..13] && s[DRAW] == d[13..40] && s[DISCARD] == []
    ensures HandOf(s) == Dealt(d)
  {
    assert s[..BLITZ] == [[d[0]], [d[1]], [d[2]]];
  }

  /**
   * The consolidation loops pass over pile i without a move when it is not a
   * single card of rank cnum.
   */
  lemma {:induction false} ScanSkip(posts: seq<seq<Card>>, cnum: int, i: int, j: int)
    requires 1 <= cnum && 0 <= i < 3 && 0 <= j <= 3
    requires |posts| == 3 && !(|posts[i]| == 1 && GetCardNumber(posts[i][0]) == cnum)
    decreases 3 - j
    ensures Scan(posts, cnum, i, j) == Scan(posts, cnum, i + 1, 0)
  {
    if j < 3 {
      assert !Qualifies(posts, i, j, cnum);
      ScanSkip(posts, cnum, i, j + 1);
    }
  }

  /** Six distinct empty piles, the zero-initialised pile structs of a player. */
  method NewPiles() returns (b: Pile, p0: Pile, p1: Pile, p2: Pile, w: Pile, x: Pile)
    ensures fresh(b) && fresh(p0) && fresh(p1) && fresh(p2) && fresh(w) && fresh(x)
    ensures b != p0 && b != p1 && b != p2 && b != w && b != x
    ensures p0 != p1 && p0 != p2 && p0 != w && p0 != x
    ensures p1 != p2 && p1 != w && p1 != x && p2 != w && p2 != x && w != x
    ensures forall q :: q in [b, p0, p1, p2, w, x] ==> q.Valid() && q.cap == 0 && q.Contents == []
  {
    b := new Pile();
    p0 := new Pile();
    p1 := new Pile();
    p2 := new Pile();
    w := new Pile();
    x := new Pile();
  }

  class Player {
    /** The back colour of the player's deck; it names the player. */
    const bgcolor: Color
    const deck: array<Card>
    const woodDraw: Pile
    const woodDiscard: Pile
    const post: seq<Pile>
    const blitz: Pile

    /** The deck and the six pile objects (the player object itself is not among them). */
    ghost const Repr: set<object>
    /** The contents of the six piles, in the order of Piles(). */
    ghost var Stacks: seq<seq<Card>>

    /** The six piles: the three posts, blitz, draw, discard. */
    function Piles(): seq<Pile>
    {
      post + [blitz, woodDraw, woodDiscard]
    }

    /** The six piles' card buffers, which pile_init replaces. */
    ghost function Buffers(): set<object>
      reads post, blitz, woodDraw, woodDiscard
    {
      if |post| == 3 then {post[0].cards, post[1].cards, post[2].cards, blitz.cards, woodDraw.cards, woodDiscard.cards} else {}
    }

    /** No pile got a new buffer between the two states. */
    twostate predicate BuffersKept()
      reads this, post, blitz, woodDraw, woodDiscard
    {
      |post| == 3 ==>
        && post[0].cards == old(post[0].cards) && post[1].cards == old(post[1].cards)
        && post[2].cards == old(post[2].cards) && blitz.cards == old(blitz.cards)
        && woodDraw.cards == old(woodDraw.cards) && woodDiscard.cards == old(woodDiscard.cards)
    }

    /** The structure before the deal: a deck of 40 slots and six distinct piles. */
    ghost predicate Shape()
    {
      && |post| == 3 && deck.Length == 40 && deck in Repr
      && (forall k :: 0 <= k < 6 ==> Piles()[k] in Repr)
      && (forall a, b :: 0 <= a < b < 6 ==> Piles()[a] != Piles()[b])
    }

    /**
     * The first n piles are set up: well-formed, with separate buffers other
     * than the deck, the capacities of player_deal, and holding Stacks.
     */
    ghost predicate Ready(n: int)
      reads this, post, blitz, woodDraw, woodDiscard, Buffers()
    {
      && Shape() && |Stacks| == 6 && 0 <= n <= 6
      && (forall k :: 0 <= k < n ==> Piles()[k].cards != deck)
      && (forall k :: 0 <= k < n ==>
            Piles()[k].Valid() && Piles()[k].cap == CapOf(k) && Piles()[k].Contents == Stacks[k])
      && (forall a, b :: 0 <= a < b < n ==> Piles()[a].cards != Piles()[b].cards)
    }

    /** All six piles are set up. */
    ghost predicate Valid()
      reads this, post, blitz, woodDraw, woodDiscard, Buffers()
    {
      Ready(6)
    }

    /** The contents of the six piles as a hand. */
    ghost function View(): (h: Hand)
      requires |Stacks| == 6
      reads this
    {
      HandOf(Stacks)
    }

    /** A dealt player: well-formed piles holding a well-formed hand of the player's own cards. */
    ghost predicate Consistent()
      reads this, post, blitz, woodDraw, woodDiscard, Buffers()
    {
      Valid() && HandOk(View(), bgcolor)
    }

    /** The cards the player holds. */
    ghost function Cards(): multiset<Card>
      requires |Stacks| == 6
      reads this
    {
      HandCards(View())
    }

    /** The six piles of a player's structure are distinct objects of Repr. */
    lemma ShapeDistinct()
      requires Shape()
      ensures blitz != post[0] && blitz != post[1] && blitz != post[2] && blitz != woodDraw && blitz != woodDiscard
      ensures post[0] != post[1] && post[0] != post[2] && post[0] != woodDraw && post[0] != woodDiscard
      ensures post[1] != post[2] && post[1] != woodDraw && post[1] != woodDiscard
      ensures post[2] != woodDraw && post[2] != woodDiscard && woodDraw != woodDiscard
      ensures post[0] in Repr && post[1] in Repr && post[2] in Repr
      ensures blitz in Repr && woodDraw in Repr && woodDiscard in Repr
    {
      var p := Piles();
      assert p[0] == post[0] && p[1] == post[1] && p[2] == post[2] && p[3] == blitz && p[4] == woodDraw && p[5] == woodDiscard;
    }

    /** A player in zero-initialised storage with background colour bg, before the deal. */
    constructor (bg: Color)
      ensures Shape() && bgcolor == bg && fresh(Repr)
      ensures forall k :: 0 <= k < 6 ==> Piles()[k].Valid() && Piles()[k].cap == 0 && Piles()[k].Contents == []
    {
      bgcolor := bg;
      var d := new Card[40];
      var b, p0, p1, p2, w, x := NewPiles();
      deck, blitz, post, woodDraw, woodDiscard := d, b, [p0, p1, p2], w, x;
      Repr := {d, b, p0, p1, p2, w, x};
      new;
      assert Piles() == [p0, p1, p2, b, w, x];
    }

    /** pile_size on the pile at position x. */
    function SizeOf(x: int): (n: int)
      requires Valid() && 0 <= x < 6
      reads this, post, blitz, woodDraw, woodDiscard, Buffers()
      ensures n == |Stacks[x]| && n <= CapOf(x)
    {
      Piles()[x].Size()
    }

    /** pile_empty on the pile at position x. */
    function IsEmpty(x: int): (b: bool)
      requires Valid() && 0 <= x < 6
      reads this, post, blitz, woodDraw, woodDiscard, Buffers()
      ensures b <==> Stacks[x] == []
    {
      Piles()[x].Empty()
    }

    /** pile_top on the pile at position x. */
    function TopOf(x: int): (card: Card)
      requires Valid() && 0 <= x < 6 && Stacks[x] != []
      reads this, post, blitz, woodDraw, woodDiscard, Buffers()
      ensures card == Last(Stacks[x])
    {
      Piles()[x].Top()
    }

    /**
     * player_deal: shuffles a fresh deck of the player's colour and deals it:
     * one card onto each post pile, ten onto the blitz pile and the remaining
     * 27 onto the draw pile; the discard pile starts empty.
     */
    method Deal(rolls: seq<nat>)
      requires Shape() && |rolls| >= 39
      modifies this, Repr
      ensures Consistent() && fresh(Buffers())
      ensures deck[..] == Shuffled(StandardDeck(bgcolor), 40, rolls)
      ensures View() == Dealt(deck[..])
      ensures Cards() == multiset(StandardDeck(bgcolor))
    {
      PrepareDeck(deck, bgcolor, rolls);
      ghost var shuffled := deck[..];
      ShuffledPermutes(StandardDeck(bgcolor), 40, 0, rolls);
      ShapeDistinct();
      DealPiles();
      assert deck[..] == shuffled;
      DealtOk(shuffled, bgcolor);
    }

    /** The dealing loops of player_deal, from the shuffled deck. */
    method DealPiles()
      requires Shape()
      modifies this, post[0], post[1], post[2], blitz, woodDraw, woodDiscard
      ensures Valid() && deck[..] == old(deck[..]) && fresh(Buffers())
      ensures View() == Dealt(deck[..])
    {
      ShapeDistinct();
      Stacks := [[], [], [], [], [], []];
      DealPosts();
      DealStock();
      DealtView(Stacks, deck[..]);
    }

    /** The second and third dealing loops: the blitz pile, then the wood piles. */
    method DealStock()
      requires Ready(3)
      modifies this, blitz, woodDraw, woodDiscard
      ensures Valid() && deck[..] == old(deck[..])
      ensures Stacks == old(Stacks)[BLITZ := deck[3..13]][DRAW := deck[13..40]][DISCARD := []]
      ensures fresh(blitz.cards) && fresh(woodDraw.cards) && fresh(woodDiscard.cards)
    {
      DealBlitz();
      DealWood();
    }

    /** The first dealing loop: one card from the top of the deck onto each post pile. */
    method DealPosts()
      requires Shape() && |Stacks| == 6
      modifies this, post[0], post[1], post[2]
      ensures Ready(3) && deck[..] == old(deck[..])
      ensures forall k :: 0 <= k < 3 ==> Stacks[k] == [deck[k]] && fresh(Piles()[k].cards)
    {
      var nextcard := 0;
      for i := 0 to 3
        invariant Ready(i) && nextcard == i && deck[..] == old(deck[..])
        invariant forall k :: 0 <= k < i ==> Stacks[k] == [deck[k]] && fresh(Piles()[k].cards)
      {
        InitAt(i);
        PushAt(i, deck[nextcard], i + 1);
        nextcard := nextcard + 1;
      }
    }

    /** The second dealing loop: the next ten cards onto the blitz pile. */
    method DealBlitz()
      requires Ready(3)
      modifies this, blitz
      ensures Ready(4) && deck[..] == old(deck[..])
      ensures Stacks == old(Stacks)[BLITZ := deck[3..13]] && fresh(blitz.cards)
    {
      InitAt(BLITZ);
      var nextcard := 3;
      assert deck[3..3] == [];
      for i := 0 to 10
        invariant Ready(4) && nextcard == 3 + i && deck[..] == old(deck[..])
        invariant Stacks == old(Stacks)[BLITZ := deck[3..nextcard]] && fresh(blitz.cards)
      {
        PushAt(BLITZ, deck[nextcard], 4);
        assert deck[3..nextcard + 1] == deck[3..nextcard] + [deck[nextcard]];
        nextcard := nextcard + 1;
      }
    }

    /** The last dealing loop: both wood piles set up and the remaining 27 cards onto the draw pile. */
    method DealWood()
      requires Ready(4)
      modifies this, woodDraw, woodDiscard
      ensures Valid() && deck[..] == old(deck[..])
      ensures Stacks == old(Stacks)[DRAW := deck[13..40]][DISCARD := []]
      ensures fresh(woodDraw.cards) && fresh(woodDiscard.cards)
    {
      InitAt(DRAW);
      InitAt(DISCARD);
      var nextcard := 13;
      assert deck[13..13] == [];
      for i := 0 to 27
        invariant Ready(6) && nextcard == 13 + i && deck[..] == old(deck[..])
        invariant Stacks == old(Stacks)[DRAW := deck[13..nextcard]][DISCARD := []]
        invariant fresh(woodDraw.cards) && fresh(woodDiscard.cards)
      {
        PushAt(DRAW, deck[nextcard], 6);
        assert deck[13..nextcard + 1] == deck[13..nextcard] + [deck[nextcard]];
        nextcard := nextcard + 1;
      }
    }

    /** pile_init on the pile at position k with its capacity from player_deal. */
    method InitAt(k: int)
      requires Ready(k) && k < 6
      modifies this, Piles()[k]
      ensures Ready(k + 1) && deck[..] == old(deck[..])
      ensures Stacks == old(Stacks)[k := []] && fresh(Piles()[k].cards)
    {
      var p := Piles()[k];
      ghost var piles := Piles();
      p.Init(CapOf(k));
      Stacks := Stacks[k := []];
      forall m | 0 <= m < k
        ensures piles[m].Valid() && piles[m].cap == CapOf(m) && piles[m].Contents == Stacks[m]
      {
        assert piles[m] != p;
      }
    }

    /** pile_push onto the pile at position k, which is set up. */
    method PushAt(k: int, card: Card, ghost n: int)
      requires Ready(n) && 0 <= k < n && |Stacks[k]| < CapOf(k)
      modifies this, Piles()[k], Piles()[k].cards
      ensures Ready(n) && deck[..] == old(deck[..])
      ensures Stacks == old(Stacks)[k := old(Stacks)[k] + [card]]
      ensures Piles()[k].cards == old(Piles()[k].cards)
    {
      var p := Piles()[k];
      ghost var piles := Piles();
      p.Push(card);
      Stacks := Stacks[k := Stacks[k] + [card]];
      forall m | 0 <= m < n
        ensures piles[m].Valid() && piles[m].cap == CapOf(m) && piles[m].Contents == Stacks[m]
      {
        if m != k {
          assert piles[m] != p && piles[m].cards != p.cards;
        }
      }
    }

    /** pile_push(to, pile_pop(from)) between the piles at positions x and y. */
    method MoveBetween(x: int, y: int)
      requires Valid() && 0 <= x < 6 && 0 <= y < 6 && x != y
      requires Stacks[x] != [] && |Stacks[y]| < CapOf(y)
      modifies this, Piles()[x], Piles()[y], Piles()[y].cards
      ensures Valid() && BuffersKept()
      ensures Stacks == Shift(old(Stacks), x, y)
    {
      var from, to := Piles()[x], Piles()[y];
      ghost var piles := Piles();
      MoveTop(from, to);
      Stacks := Shift(Stacks, x, y);
      forall k | 0 <= k < 6
        ensures piles[k].Valid() && piles[k].cap == CapOf(k) && piles[k].Contents == Stacks[k]
      {
        if k != x && k != y {
          assert piles[k] != from && piles[k] != to && piles[k].cards != to.cards;
        }
      }
    }

    /** pile_pop on the pile at position x. */
    method PopFrom(x: int) returns (card: Card)
      requires Valid() && 0 <= x < 6 && Stacks[x] != []
      modifies this, Piles()[x]
      ensures Valid() && BuffersKept()
      ensures card == Last(old(Stacks)[x]) && Stacks == Drop(old(Stacks), x)
    {
      var p := Piles()[x];
      ghost var piles := Piles();
      card := p.Pop();
      Stacks := Drop(Stacks, x);
      forall k | 0 <= k < 6
        ensures piles[k].Valid() && piles[k].cap == CapOf(k) && piles[k].Contents == Stacks[k]
      {
        if k != x {
          assert piles[k] != p;
        }
      }
    }

    // -------------------------------------------------------------------
    // Single moves between the player's own piles
    // -------------------------------------------------------------------

    /** pile_push(&post[i], pile_pop(&blitz)) (lines 296 and 302). */
    method BlitzOntoPost(i: int)
      requires Consistent() && 0 <= i < 3 && View().blitz != []
      requires View().posts[i] == [] || Accepts(View().posts[i], Last(View().blitz))
      modifies this, Piles()[BLITZ], Piles()[i], Piles()[i].cards
      ensures Consistent() && BuffersKept()
      ensures View() == BlitzToPost(old(View()), i)
    {
      BlitzToPostOk(View(), i, bgcolor);
      ShiftBlitzToPost(Stacks, i);
      MoveBetween(BLITZ, i);
    }

    /** pile_push(&post[i], pile_pop(&woodpilediscard)) (line 379). */
    method DiscardOntoPost(i: int)
      requires Consistent() && 0 <= i < 3 && View().discard != []
      requires Accepts(View().posts[i], Last(View().discard))
      modifies this, Piles()[DISCARD], Piles()[i], Piles()[i].cards
      ensures Consistent() && BuffersKept()
      ensures View() == DiscardToPost(old(View()), i)
    {
      DiscardToPostOk(View(), i, bgcolor);
      ShiftDiscardToPost(Stacks, i);
      MoveBetween(DISCARD, i);
    }

    /** pile_push(&post[j], pile_pop(&post[i])) in the consolidation (line 328). */
    method SingleOntoPost(i: int, j: int, cnum: int)
      requires Consistent() && Qualifies(View().posts, i, j, cnum)
      modifies this, Piles()[i], Piles()[j], Piles()[j].cards
      ensures Consistent() && BuffersKept()
      ensures View() == old(View()).(posts := MoveSingle(old(View()).posts, i, j))
    {
      MoveSingleOk(View().posts, i, j, cnum, bgcolor);
      MoveSingleConserves(View().posts, i, j);
      ShiftMoveSingle(Stacks, i, j);
      MoveBetween(i, j);
    }

    /** pile_push(&woodpiledraw, pile_pop(&woodpilediscard)) (line 350). */
    method DiscardOntoDraw()
      requires Consistent() && View().discard != []
      modifies this, woodDiscard, woodDraw, woodDraw.cards
      ensures Consistent() && BuffersKept()
      ensures View() == DiscardToDraw(old(View()))
    {
      DiscardToDrawOk(View(), bgcolor);
      ShiftDiscardToDraw(Stacks);
      MoveBetween(DISCARD, DRAW);
    }

    /** pile_push(&woodpilediscard, pile_pop(&woodpiledraw)) (line 354). */
    method FlipWood()
      requires Consistent() && View().draw != []
      modifies this, woodDraw, woodDiscard, woodDiscard.cards
      ensures Consistent() && BuffersKept()
      ensures View() == Flip(old(View()))
    {
      FlipOk(View(), bgcolor);
      ShiftFlip(Stacks);
      MoveBetween(DRAW, DISCARD);
    }

    /** pile_rotate_top_card_down(&woodpiledraw) (line 391). */
    method RotateDrawPile()
      requires Consistent() && View().draw != []
      modifies this, woodDraw, woodDraw.cards
      ensures Consistent() && BuffersKept() && Cards() == old(Cards())
      ensures View() == RotateDraw(old(View()))
    {
      ShapeDistinct();
      ghost var piles := Piles();
      RotateDrawOk(View(), bgcolor);
      woodDraw.RotateTopCardDown();
      Stacks := Stacks[DRAW := RotatedDown(Stacks[DRAW])];
      forall k | 0 <= k < 6
        ensures piles[k].Valid() && piles[k].cap == CapOf(k) && piles[k].Contents == Stacks[k]
      {
        if k != DRAW {
          assert piles[k] != woodDraw && piles[k].cards != woodDraw.cards;
        }
      }
      assert Stacks[..BLITZ] == old(Stacks)[..BLITZ];
    }

    /** pile_pop(&blitz) after its top card was played (line 427). */
    method PopBlitz() returns (card: Card)
      requires Consistent() && View().blitz != []
      modifies this, blitz
      ensures Consistent() && BuffersKept()
      ensures card == Last(old(View()).blitz) && View() == TakeBlitz(old(View()))
      ensures old(Cards()) == Cards() + multiset{card}
    {
      TakeBlitzOk(View(), bgcolor);
      DropBlitz(Stacks);
      card := PopFrom(BLITZ);
    }

    /** pile_pop(&post[j]) after its top card was played (line 436). */
    method PopPost(j: int) returns (card: Card)
      requires Consistent() && 0 <= j < 3 && View().posts[j] != []
      modifies this, Piles()[j]
      ensures Consistent() && BuffersKept()
      ensures card == Last(old(View()).posts[j]) && View() == TakePost(old(View()), j)
      ensures old(Cards()) == Cards() + multiset{card}
    {
      TakePostOk(View(), j, bgcolor);
      DropPost(Stacks, j);
      card := PopFrom(j);
    }

    /** pile_pop(&woodpilediscard) after its top card was played (line 421). */
    method PopDiscard() returns (card: Card)
      requires Consistent() && View().discard != []
      modifies this, woodDiscard
      ensures Consistent() && BuffersKept()
      ensures card == Last(old(View()).discard) && View() == TakeDiscard(old(View()))
      ensures old(Cards()) == Cards() + multiset{card}
    {
      TakeDiscardOk(View(), bgcolor);
      DropDiscard(Stacks);
      card := PopFrom(DISCARD);
    }

    // -------------------------------------------------------------------
    // The loops of player_find_possible_move over the player's own piles
    // -------------------------------------------------------------------

    /**
     * The blitz-to-post loops (lines 290-307): passes over the three post
     * piles are repeated until a pass moves nothing.
     */
    method Cascade()
      requires Consistent()
      modifies this, Repr, Buffers()
      ensures Consistent() && BuffersKept()
      ensures View() == Cascaded(old(View()))
    {
      ghost var start := View();
      var moved := true;
      while moved
        invariant Consistent() && BuffersKept()
        invariant moved ==> Cascaded(View()) == Cascaded(start)
        invariant !moved ==> View() == Cascaded(start)
        decreases |Stacks[BLITZ]| + (if moved then 1 else 0)
      {
        moved := CascadeOnce();
      }
    }

    /**
     * One pass of the blitz-to-post loops (lines 293-306): the blitz pile's
     * top card is tried on each post pile in turn and goes onto an empty pile
     * or one that accepts it; moved tells whether any card went.
     */
    method CascadeOnce() returns (moved: bool)
      requires Consistent()
      modifies this, Repr, Buffers()
      ensures Consistent() && BuffersKept()
      ensures (View(), moved) == CascadePass(old(View()), 0, false)
    {
      moved := false;
      var i := 0;
      while !IsEmpty(BLITZ) && i < 3
        invariant Consistent() && BuffersKept() && 0 <= i <= 3
        invariant CascadePass(View(), i, moved) == CascadePass(old(View()), 0, false)
        decreases 3 - i
      {
        moved := CascadeStep(i, moved);
        i := i + 1;
      }
    }

    /** One turn of the cascade loop: the blitz pile's top card tried on post pile i. */
    method CascadeStep(i: int, moved: bool) returns (moved': bool)
      requires Consistent() && 0 <= i < 3 && View().blitz != []
      modifies this, Repr, Buffers()
      ensures Consistent() && BuffersKept()
      ensures CascadePass(View(), i + 1, moved') == CascadePass(old(View()), i, moved)
    {
      moved' := moved;
      var btopcard := TopOf(BLITZ);
      if IsEmpty(i) {
        BlitzOntoPost(i);
        moved' := true;
      } else {
        var to := TopOf(i);
        if GetCardNumber(to) == GetCardNumber(btopcard) + 1
           && OppositeColors(GetFrontColor(btopcard), GetFrontColor(to)) {
          BlitzOntoPost(i);
          moved' := true;
        }
      }
    }

    /**
     * The consolidation loops (lines 318-336): for each rank from 8 down to
     * 1 and each post pile holding a single card of that rank, the card goes
     * onto the first other single-card pile one rank higher in the opposite
     * colour.
     */
    method Consolidate()
      requires Consistent()
      modifies this, Repr, Buffers()
      ensures Consistent() && BuffersKept()
      ensures View() == old(View()).(posts := Consolidated(old(View()).posts))
    {
      ghost var start := View();
      var cnum := TOP_RANK;
      while cnum >= 1
        invariant 0 <= cnum <= 8 && Consistent() && BuffersKept()
        invariant View() == start.(posts := View().posts)
        invariant Scan(View().posts, cnum, 0, 0) == Consolidated(start.posts)
      {
        for i := 0 to 3
          invariant Consistent() && BuffersKept()
          invariant View() == start.(posts := View().posts)
          invariant Scan(View().posts, cnum, i, 0) == Consolidated(start.posts)
        {
          ConsolidateFrom(i, cnum);
        }
        cnum := cnum - 1;
      }
    }

    /**
     * The body of the middle consolidation loop (lines 320-334): when post
     * pile i holds a single card of rank cnum, the other post piles are
     * tried in order and the card goes onto the first that qualifies.
     */
    method ConsolidateFrom(i: int, cnum: int)
      requires Consistent() && 0 <= i < 3 && 1 <= cnum
      modifies this, Repr, Buffers()
      ensures Consistent() && BuffersKept()
      ensures View() == old(View()).(posts := View().posts)
      ensures Scan(View().posts, cnum, i + 1, 0) == Scan(old(View()).posts, cnum, i, 0)
    {
      if SizeOf(i) == 1 && GetCardNumber(TopOf(i)) == cnum {
        var from := TopOf(i);
        var j := 0;
        while j < 3
          invariant 0 <= j <= 3 && Consistent() && View() == old(View())
          invariant Scan(View().posts, cnum, i, j) == Scan(old(View()).posts, cnum, i, 0)
        {
          if i != j && SizeOf(j) == 1 {
            var to := TopOf(j);
            if GetCardNumber(to) == cnum + 1 && OppositeColors(GetFrontColor(from), GetFrontColor(to)) {
              SingleOntoPost(i, j, cnum);
              return;
            }
          }
          j := j + 1;
        }
      } else {
        ScanSkip(View().posts, cnum, i, 0);
      }
    }

    /**
     * The moves onto the post piles in a round of player_find_possible_move
     * (lines 289-337): the blitz pile is cascaded onto the post piles and,
     * unless that empties it, the post piles are consolidated.  The ghost
     * arguments carry ConsolidationBound from one round to the next: iter
     * counts the rounds before this one and lastMoved says whether the last
     * one moved a post card.
     */
    method TidyPosts(ghost iter: int, ghost lastMoved: bool) returns (blitzed: bool, ghost moved: bool)
      requires Consistent()
      requires Tracked(View().posts, iter, lastMoved)
      modifies this, Repr, Buffers()
      ensures Consistent() && BuffersKept() && Cards() == old(Cards())
      ensures blitzed <==> View().blitz == []
      ensures blitzed ==> View() == Cascaded(old(View()))
      ensures !blitzed ==> View() == Cascaded(old(View())).(posts := Consolidated(Cascaded(old(View())).posts))
      ensures !blitzed && moved ==> iter <= 1 && Stacked(View().posts) >= iter + 1
      ensures !blitzed && !moved ==> Settled(View().posts)
    {
      ghost var before := View();
      CascadedOk(before, bgcolor);
      Cascade();
      if IsEmpty(BLITZ) {
        return true, false;
      }
      ghost var cascaded := View();
      ConsolidatedOk(cascaded.posts, bgcolor);
      ConsolidationBound(before.posts, cascaded.posts, iter, lastMoved, bgcolor);
      Consolidate();
      moved := View().posts != cascaded.posts;
      blitzed := false;
    }

    /**
     * Replenishing the draw pile (lines 348-352): when it is empty the
     * discard pile is turned over onto it.
     */
    method Replenish()
      requires Consistent()
      modifies this, Repr, Buffers()
      ensures Consistent() && BuffersKept()
      ensures View() == Refill(old(View()))
    {
      if SizeOf(DRAW) == 0 {
        TurnOver();
      }
    }

    /** The replenishing loop (lines 349-351): the discard pile is popped card by card onto the empty draw pile. */
    method TurnOver()
      requires Consistent() && View().draw == []
      modifies this, Repr, Buffers()
      ensures Consistent() && BuffersKept()
      ensures View() == old(View()).(draw := Reversed(old(View()).discard), discard := [])
    {
      ghost var start := View();
      while SizeOf(DISCARD) > 0
        invariant Consistent() && BuffersKept()
        invariant View().blitz == start.blitz && View().posts == start.posts
        invariant View().draw + Reversed(View().discard) == Reversed(start.discard)
        decreases |Stacks[DISCARD]|
      {
        DiscardToDrawOk(View(), bgcolor);
        DiscardOntoDraw();
      }
    }

    /**
     * Going through the wood pile in steps of three (lines 344-355): three
     * times, the draw pile is replenished if needed and its top card flipped
     * onto the discard pile.
     */
    method TurnWood()
      requires Consistent() && (View().draw != [] || View().discard != [])
      modifies this, Repr, Buffers()
      ensures Consistent() && BuffersKept() && Cards() == old(Cards())
      ensures View() == WoodTurns(old(View()), FLIPS)
      ensures View().discard != [] && View().posts == old(View().posts)
    {
      ghost var start := View();
      WoodTurnsOk(start, FLIPS, bgcolor);
      for i := 0 to FLIPS
        invariant Consistent() && BuffersKept()
        invariant View() == WoodTurns(start, i)
      {
        WoodTurnsOk(start, i, bgcolor);
        RefillOk(View(), bgcolor);
        Replenish();
        FlipWood();
      }
    }

    /**
     * Wood to post (lines 369-383): the discard pile's top card goes onto
     * the first post pile whose top accepts it.  Every post pile holds a card
     * here, as the assertion at line 374 demands.
     */
    method WoodOntoPost()
      requires Consistent() && View().discard != [] && AllNonEmpty(View().posts)
      modifies this, Repr, Buffers()
      ensures Consistent() && BuffersKept() && Cards() == old(Cards())
      ensures View() == WoodToPost(old(View()))
      ensures Grown(old(View()).posts, View().posts)
    {
      WoodToPostOk(View(), bgcolor);
      var wtopcard := TopOf(DISCARD);
      var i := 0;
      while i < 3
        invariant 0 <= i <= 3 && Consistent() && BuffersKept() && Stacks == old(Stacks)
        invariant forall m :: 0 <= m < i ==> !Accepts(View().posts[m], wtopcard)
      {
        var to := TopOf(i);
        if GetCardNumber(to) == GetCardNumber(wtopcard) + 1
           && OppositeColors(GetFrontColor(wtopcard), GetFrontColor(to)) {
          assert FirstAccepting(View().posts, wtopcard, 0) == i;
          DiscardOntoPost(i);
          return;
        }
        i := i + 1;
      }
    }

    // -------------------------------------------------------------------
    // The move search
    // -------------------------------------------------------------------

    /**
     * player_find_possible_move: rounds of looking for a play onto the dutch
     * piles, whose contents are piles, each round moving cards only among
     * the player's own piles.  A round first asks whether the blitz pile's
     * or a post pile's top card fits, then moves blitz cards onto the post
     * piles, consolidates the post piles, goes three cards further through
     * the wood pile and asks about the discard pile's top card.  After
     * enough rounds it also tries the discard pile's top card on the post
     * piles and, at most three times, rotates the draw pile and starts the
     * rounds again.
     */
    method FindPossibleMove(piles: seq<seq<Card>>) returns (action: int, ghost iterations: nat)
      requires Consistent()
      modifies this, Repr, Buffers()
      ensures Consistent() && BuffersKept() && Cards() == old(Cards())
      ensures Offers(action, View(), piles)
      ensures action == NO_MOVE ==> (View().draw == [] && View().discard == []) || iterations >= NROUNDS
      ensures iterations <= 4 * NROUNDS
      ensures FirstPlayable(old(View()), piles) != NO_MOVE ==>
        action == FirstPlayable(old(View()), piles) && View() == old(View()) && iterations == 1
      ensures action == Search(old(View()), piles, 0, RESETS).0 && View() == Search(old(View()), piles, 0, RESETS).1
      ensures iterations == Search(old(View()), piles, 0, RESETS).2
      ensures old(View()).blitz != [] && View().blitz == [] ==> action == BLITZED_FROM_POST
    {
      ghost var goal := Search(View(), piles, 0, RESETS);
      SearchFacts(View(), piles);
      action, iterations := RunRounds(piles, goal);
    }

    /**
     * The loop of player_find_possible_move (lines 274-398), which reaches
     * the goal of the search round by round; goal is the ghost answer of
     * Search from the hand the loop starts with.
     */
    method RunRounds(piles: seq<seq<Card>>, ghost goal: (int, Hand, nat)) returns (action: int, ghost iterations: nat)
      requires Consistent() && Searched(goal, View(), piles, 0, RESETS, 0)
      modifies this, Repr, Buffers()
      ensures Consistent() && BuffersKept() && Cards() == old(Cards())
      ensures Offers(action, View(), piles)
      ensures goal.0 == action && goal.1 == View() && goal.2 == iterations
    {
      var resetsleft := RESETS;
      var rounds := 0;
      // Ghost bookkeeping for why every post pile holds a card where the
      // wood pile's top card is tried on them (the assertion at line 374).
      ghost var iter := 0;
      ghost var lastMoved := false;
      var stop := false;
      while rounds < NROUNDS
        invariant 0 <= rounds <= NROUNDS && 0 <= resetsleft <= RESETS && rounds <= iter && !stop
        invariant Consistent() && BuffersKept() && Cards() == old(Cards())
        invariant Tracked(View().posts, iter, lastMoved)
        invariant Searched(goal, View(), piles, rounds, resetsleft, iter)
        decreases resetsleft, NROUNDS - rounds
      {
        stop, action, rounds, resetsleft, iter, lastMoved := Advance(piles, goal, rounds, resetsleft, iter, lastMoved);
        if stop {
          break;
        }
      }
      if stop {
        iterations := iter;
      } else {
        SearchEnds(goal, View(), piles, rounds, resetsleft, iter);
        action, iterations := NO_MOVE, iter;
      }
    }

    /**
     * One round of the loop of player_find_possible_move (lines 276-396),
     * with the round counter's increment, seen from the goal of the search:
     * a round that stops reaches the goal, and one that goes on leaves the
     * goal to the rounds after it.
     */
    method Advance(piles: seq<seq<Card>>, ghost goal: (int, Hand, nat), rounds: int, resetsleft: int, ghost iter: int, ghost lastMoved: bool)
      returns (stop: bool, action: int, rounds': int, resetsleft': int, ghost iter': int, ghost moved: bool)
      requires Consistent() && 0 <= rounds <= iter && rounds < NROUNDS && 0 <= resetsleft
      requires Tracked(View().posts, iter, lastMoved)
      requires Searched(goal, View(), piles, rounds, resetsleft, iter)
      modifies this, Repr, Buffers()
      ensures Consistent() && BuffersKept() && Cards() == old(Cards())
      ensures Offers(action, View(), piles) && iter' == iter + 1
      ensures stop ==> goal.0 == action && goal.1 == View() && goal.2 == iter'
      ensures !stop ==> (rounds' == rounds + 1 && resetsleft' == resetsleft) || (rounds' == 1 && resetsleft' == resetsleft - 1 >= 0)
      ensures !stop ==> Tracked(View().posts, iter', moved)
      ensures !stop ==> Searched(goal, View(), piles, rounds', resetsleft', iter')
    {
      ghost var before := View();
      var next, left;
      stop, action, next, left, moved := Round(piles, rounds, resetsleft, iter, lastMoved);
      rounds', resetsleft', iter' := next + 1, left, iter + 1;
      SearchAdvances(goal, before, View(), piles, rounds, resetsleft, iter, stop, action, next, resetsleft', rounds', iter');
    }

    /**
     * One round of player_find_possible_move (lines 276-396): the top cards
     * are tried on the dutch piles, then the rest of the round follows.
     */
    method Round(piles: seq<seq<Card>>, rounds: int, resetsleft: int, ghost iter: int, ghost lastMoved: bool)
      returns (stop: bool, action: int, next: int, left: int, ghost moved: bool)
      requires Consistent() && 0 <= rounds <= iter && 0 <= resetsleft
      requires Tracked(View().posts, iter, lastMoved)
      modifies this, Repr, Buffers()
      ensures Consistent() && BuffersKept() && Cards() == old(Cards())
      ensures Offers(action, View(), piles) && (!stop ==> action == NO_MOVE)
      ensures stop && action == NO_MOVE ==> View().draw == [] && View().discard == []
      ensures FirstPlayable(old(View()), piles) != NO_MOVE ==>
        stop && action == FirstPlayable(old(View()), piles) && View() == old(View())
      ensures stop ==> RoundStep(old(View()), piles, rounds, resetsleft) == Stop(action, View())
      ensures !stop ==> RoundStep(old(View()), piles, rounds, resetsleft) == Next(View(), next, left)
      ensures !stop ==> (next == rounds && left == resetsleft) || (next == 0 && left == resetsleft - 1 >= 0)
      ensures !stop ==> Tracked(View().posts, iter + 1, moved)
    {
      action := PlayableTop(piles);
      if action != NO_MOVE {
        return true, action, rounds, resetsleft, false;
      }
      stop, action, next, left, moved := SearchRound(piles, rounds, resetsleft, iter, lastMoved);
    }

    /**
     * The rest of a round of player_find_possible_move once no top card fits
     * (lines 289-396): the post piles are tidied, the wood pile searched
     * and, when the player seems stuck, the draw pile rotated.  It stops the
     * search (stop) when the blitz pile ran out, when there is no wood left
     * or when the discard pile's top card fits; otherwise next and left are
     * the round counter and the rotations left for the next round.  The
     * ghost arguments are those of TidyPosts.
     */
    method SearchRound(piles: seq<seq<Card>>, rounds: int, resetsleft: int, ghost iter: int, ghost lastMoved: bool)
      returns (stop: bool, action: int, next: int, left: int, ghost moved: bool)
      requires Consistent() && 0 <= rounds <= iter && 0 <= resetsleft
      requires Tracked(View().posts, iter, lastMoved)
      modifies this, Repr, Buffers()
      ensures Consistent() && BuffersKept() && Cards() == old(Cards())
      ensures Offers(action, View(), piles) && (!stop ==> action == NO_MOVE)
      ensures stop && action == NO_MOVE ==> View().draw == [] && View().discard == []
      ensures stop ==> SearchStep(old(View()), piles, rounds, resetsleft) == Stop(action, View())
      ensures !stop ==> SearchStep(old(View()), piles, rounds, resetsleft) == Next(View(), next, left)
      ensures !stop ==> (next == rounds && left == resetsleft) || (next == 0 && left == resetsleft - 1 >= 0)
      ensures !stop ==> Tracked(View().posts, iter + 1, moved)
    {
      ghost var start := View();
      var blitzed;
      blitzed, moved := TidyPosts(iter, lastMoved);
      TidiedIs(start, View(), blitzed, piles, rounds, resetsleft);
      if blitzed {
        return true, BLITZED_FROM_POST, rounds, resetsleft, moved;
      }
      ghost var tidied := View().posts;
      stop, action, next, left := WoodRound(piles, rounds, resetsleft);
      if !stop {
        GrowingKeepsStacked(tidied, View().posts);
        if !moved {
          GrowingKeepsSettled(tidied, View().posts);
        }
      }
    }

    /** The wood search of a round and the rotation after it (lines 338-396). */
    method WoodRound(piles: seq<seq<Card>>, rounds: int, resetsleft: int)
      returns (stop: bool, action: int, next: int, left: int)
      requires Consistent()
      requires rounds >= 2 ==> AllNonEmpty(View().posts)
      modifies this, Repr, Buffers()
      ensures Consistent() && BuffersKept() && Cards() == old(Cards())
      ensures Offers(action, View(), piles) && (!stop ==> action == NO_MOVE)
      ensures stop ==> WoodStep(old(View()), piles, rounds, resetsleft) == Stop(action, View())
      ensures !stop ==> WoodStep(old(View()), piles, rounds, resetsleft) == Next(View(), next, left)
      ensures !stop ==> Grown(old(View()).posts, View().posts)
    {
      ghost var start := View();
      var done;
      done, action := SearchWood(piles, rounds);
      ghost var t := if start.draw == [] && start.discard == [] then start else WoodTurns(start, FLIPS);
      WoodSearchIs(start, t, View(), piles, rounds, resetsleft, done, action);
      if done {
        return true, action, rounds, resetsleft;
      }
      stop := false;
      next, left := Rotation(rounds, resetsleft);
    }

    /** The rotation at the end of a round (lines 388-395). */
    method Rotation(rounds: int, resetsleft: int) returns (next: int, left: int)
      requires Consistent()
      modifies this, woodDraw, woodDraw.cards
      ensures Consistent() && BuffersKept() && Cards() == old(Cards())
      ensures Rotated(old(View()), rounds, resetsleft) == Next(View(), next, left)
    {
      next, left := rounds, resetsleft;
      if rounds > 2 * (SizeOf(DRAW) + SizeOf(DISCARD)) {
        if !IsEmpty(DRAW) {
          if resetsleft > 0 {
            RotateDrawPile();
            next, left := 0, resetsleft - 1;
          }
        }
      }
    }

    /**
     * The first checks of a round (lines 278-287): the blitz pile's top card,
     * then each post pile's top card, against the dutch piles.
     */
    method PlayableTop(piles: seq<seq<Card>>) returns (action: int)
      requires Consistent()
      ensures action == FirstPlayable(View(), piles)
      ensures action == NO_MOVE || action == PLAY_BLITZ || PLAY_POST <= action < PLAY_POST + 3
      ensures action == PLAY_BLITZ ==> View().blitz != [] && Fits(Last(View().blitz), piles)
      ensures PLAY_POST <= action < PLAY_POST + 3 ==>
        View().posts[action - PLAY_POST] != [] && Fits(Last(View().posts[action - PLAY_POST]), piles)
      ensures View().blitz != [] && Fits(Last(View().blitz), piles) ==> action == PLAY_BLITZ
      ensures PLAY_POST <= action < PLAY_POST + 3 ==>
        && (View().blitz != [] ==> !Fits(Last(View().blitz), piles))
        && forall m :: 0 <= m < action - PLAY_POST && View().posts[m] != [] ==> !Fits(Last(View().posts[m]), piles)
      ensures action == NO_MOVE ==>
        && (View().blitz != [] ==> !Fits(Last(View().blitz), piles))
        && forall j :: 0 <= j < 3 && View().posts[j] != [] ==> !Fits(Last(View().posts[j]), piles)
    {
      if !IsEmpty(BLITZ) && FitsOn(TopOf(BLITZ), piles) {
        return PLAY_BLITZ;
      }
      action := PlayablePost(piles);
    }

    /** The loop over the post piles (lines 282-287): the first whose top card fits. */
    method PlayablePost(piles: seq<seq<Card>>) returns (action: int)
      requires Consistent()
      ensures action == FirstPlayablePost(View().posts, piles, 0)
    {
      for j := 0 to 3
        invariant FirstPlayablePost(View().posts, piles, 0) == FirstPlayablePost(View().posts, piles, j)
      {
        if !IsEmpty(j) && FitsOn(TopOf(j), piles) {
          return PLAY_POST + j;
        }
      }
      return NO_MOVE;
    }

    /**
     * The wood pile in a round of player_find_possible_move (lines 339-382).
     * With no wood left at all the search gives up (done, NO_MOVE).
     * Otherwise three cards are turned and the discard pile's top card is
     * tried on the dutch piles (done, PLAY_WOOD) and, once the round number
     * exceeds the size of the wood pile, on the post piles (not done).
     */
    method SearchWood(piles: seq<seq<Card>>, rounds: int) returns (done: bool, action: int)
      requires Consistent()
      requires rounds >= 2 ==> AllNonEmpty(View().posts)
      modifies this, Repr, Buffers()
      ensures Consistent() && BuffersKept() && Cards() == old(Cards())
      ensures action == NO_MOVE || (done && action == PLAY_WOOD)
      ensures done && action == NO_MOVE <==> old(View()).draw == [] && old(View()).discard == []
      ensures done && action == NO_MOVE ==> View() == old(View())
      ensures action == PLAY_WOOD ==> View().discard != [] && Fits(Last(View().discard), piles)
      ensures !(done && action == NO_MOVE) ==> WoodTurns(old(View()), FLIPS).discard != []
      ensures !(done && action == NO_MOVE) ==>
        (action == PLAY_WOOD <==> Fits(Last(WoodTurns(old(View()), FLIPS).discard), piles))
      ensures done && action == PLAY_WOOD ==> View() == WoodTurns(old(View()), FLIPS)
      ensures !done && rounds <= |WoodTurns(old(View()), FLIPS).draw| + |WoodTurns(old(View()), FLIPS).discard| ==>
        View() == WoodTurns(old(View()), FLIPS)
      ensures !done && rounds > |WoodTurns(old(View()), FLIPS).draw| + |WoodTurns(old(View()), FLIPS).discard| ==>
        View() == WoodToPost(WoodTurns(old(View()), FLIPS))
      ensures !done ==> Grown(old(View()).posts, View().posts)
    {
      if SizeOf(DRAW) == 0 && SizeOf(DISCARD) == 0 {
        return true, NO_MOVE;
      }
      TurnWood();
      if FitsOn(TopOf(DISCARD), piles) {
        return true, PLAY_WOOD;
      }
      if rounds > SizeOf(DRAW) + SizeOf(DISCARD) {
        WoodOntoPost();
      }
      return false, NO_MOVE;
    }
  }
}
