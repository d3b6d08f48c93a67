/**
 * The shared state of a game (the globals of the simulation): the 16 dutch
 * piles in the middle of the table, how many of them have been started,
 * whether someone has blitzed and who.  That state is a Table value; the
 * operations of one player's turn take the table and return the new one:
 * the dutch pile check and play, making one move after the search among
 * the player's own piles, the consistency checks and the score.
 */
module Games {
  import opened Cards
  import opened Piles
  import opened Rules
  import opened Deck
  import opened Hands
  import opened Players

  /** The capacity pile_init gives a dutch pile. */
  const DUTCH_CAP := 10

  /** validate_post_pile: every card of the pile is one rank below the card under it, in the opposite colour and with the same back. */
  method ValidatePostPile(pile: Pile) returns (ok: bool)
    requires pile.Valid()
    ensures ok <==> ValidPostPile(pile.Contents)
  {
    var i := pile.top - 1;
    while i > 0
      invariant -1 <= i < pile.top
      invariant forall k :: i < k < pile.top && 1 <= k ==> StepAt(pile.Contents, k)
    {
      var c1 := pile.cards[i];
      var c2 := pile.cards[i - 1];
      if !(&& OppositeColors(GetFrontColor(c1), GetFrontColor(c2))
           && GetCardNumber(c1) + 1 == GetCardNumber(c2)
           && GetBackColor(c1) == GetBackColor(c2)) {
        assert !StepAt(pile.Contents, i);
        return false;
      }
      i := i - 1;
    }
    return true;
  }

  /** validate_post_piles: every non-empty post pile of the player passes validate_post_pile. */
  method ValidatePostPiles(player: Player) returns (ok: bool)
    requires player.Valid()
    ensures ok <==> forall k :: 0 <= k < 3 ==> ValidPostPile(player.View().posts[k])
    ensures player.Consistent() ==> ok
  {
    for i := 0 to 3
      invariant forall k :: 0 <= k < i ==> ValidPostPile(player.View().posts[k])
    {
      if !player.IsEmpty(i) {
        assert player.post[i] == player.Piles()[i];
        var r := ValidatePostPile(player.post[i]);
        assert player.View().posts[i] == player.post[i].Contents;
        if !r {
          return false;
        }
      }
    }
    return true;
  }

  datatype Option<T> = None | Some(value: T)

  /**
   * The globals dutch, nextdutch, blitzed, winner and deadlocked.  dutch
   * holds the started piles dutch[0], ..., dutch[nextdutch - 1], each from
   * the bottom card to the top card; the winner is named by the back colour
   * of the player's deck.
   */
  datatype Table = Table(dutch: seq<seq<Card>>, nextdutch: int, blitzed: bool, winner: Option<Color>, deadlocked: int)

  /** The started piles are as many as nextdutch says, each within the capacity pile_init gives it. */
  predicate Laid(t: Table)
  {
    && 0 <= t.nextdutch <= 16 && |t.dutch| == t.nextdutch
    && (forall k :: 0 <= k < |t.dutch| ==> |t.dutch[k]| <= DUTCH_CAP)
  }

  /**
   * The table invariant: every started dutch pile holds a run 0, 1, 2, ...
   * of one front colour, and someone has blitzed exactly when there is a
   * winner.
   */
  predicate TableOk(t: Table)
  {
    && Laid(t)
    && ValidDutch(t.dutch)
    && (forall k :: 0 <= k < |t.dutch| ==> t.dutch[k] != [])
    && (t.blitzed <==> t.winner.Some?)
  }

  /**
   * A player's turn can be taken: the table and the player are well-formed,
   * and there is a free dutch pile for every zero the player still holds.
   */
  ghost predicate Turn(t: Table, player: Player)
    reads player, player.post, player.blitz, player.woodDraw, player.woodDiscard, player.Buffers()
  {
    TableOk(t) && player.Consistent() && t.nextdutch + Zeros(player.Cards()) <= 16
  }

  /** The cards of the started dutch piles and of the player together. */
  ghost function Held(t: Table, player: Player): multiset<Card>
    requires |player.Stacks| == 6
    reads player
  {
    multiset(Flatten(t.dutch)) + player.Cards()
  }

  /** nextdutch counts the 0 cards on the table: each started dutch pile holds exactly one. */
  lemma TableZeros(t: Table)
    requires TableOk(t)
    ensures t.nextdutch == Zeros(multiset(Flatten(t.dutch)))
  {
    DutchZeros(t.dutch);
  }

  // ---------------------------------------------------------------------
  // The zeros of a whole game.  Every player's deck holds four 0 cards,
  // so the table and the four players hold 16 of them, one per dutch pile.
  // A turn moves cards only between the table and the player taking it,
  // which keeps the table and all players' cards together unchanged; the
  // table's zeros are its started piles, so every player can take a turn.
  // ---------------------------------------------------------------------

  /** The cards of all the players, given player by player. */
  ghost function AllCards(hands: seq<multiset<Card>>): multiset<Card>
  {
    if hands == [] then multiset{} else AllCards(hands[..|hands| - 1]) + hands[|hands| - 1]
  }

  /** Each player's cards are among all the players' cards. */
  lemma {:induction false} HandInAll(hands: seq<multiset<Card>>, i: int)
    requires 0 <= i < |hands|
    ensures AllCards(hands) == hands[i] + (AllCards(hands) - hands[i])
  {
    var n := |hands| - 1;
    if i < n {
      HandInAll(hands[..n], i);
    }
  }

  /** Replacing one player's cards replaces them in the cards of all players. */
  lemma {:induction false} AllCardsUpdate(hands: seq<multiset<Card>>, i: int, h: multiset<Card>)
    requires 0 <= i < |hands|
    ensures AllCards(hands[i := h]) + hands[i] == AllCards(hands) + h
  {
    var n := |hands| - 1;
    var u := hands[i := h];
    assert AllCards(u) == AllCards(u[..n]) + u[n];
    assert AllCards(hands) == AllCards(hands[..n]) + hands[n];
    if i < n {
      assert u[..n] == hands[..n][i := h] && u[n] == hands[n] && hands[..n][i] == hands[i];
      AllCardsUpdate(hands[..n], i, h);
      calc {
        AllCards(u) + hands[i];
        AllCards(hands[..n][i := h]) + hands[i] + hands[n];
        AllCards(hands[..n]) + h + hands[n];
        AllCards(hands) + h;
      }
    } else {
      assert u[..n] == hands[..n];
    }
  }

  /** Freshly dealt players hold four 0 cards each. */
  lemma {:induction false} DecksZeros(hands: seq<multiset<Card>>, bgs: seq<Color>)
    requires |hands| == |bgs|
    requires forall i :: 0 <= i < |hands| ==> hands[i] == multiset(StandardDeck(bgs[i]))
    ensures Zeros(AllCards(hands)) == 4 * |hands|
  {
    if hands == [] {
      ZerosBelowEmpty(16);
    } else {
      var n := |hands| - 1;
      DecksZeros(hands[..n], bgs[..n]);
      ZerosAdd(AllCards(hands[..n]), hands[n]);
      StandardDeckZeros(bgs[n]);
    }
  }

  /**
   * At the start of a game, the table of reset_simulation and four players
   * holding the decks player_deal gives them hold 16 zeros.
   */
  lemma GameStart(hands: seq<multiset<Card>>, bgs: seq<Color>)
    requires |hands| == |bgs| == 4
    requires forall i :: 0 <= i < 4 ==> hands[i] == multiset(StandardDeck(bgs[i]))
    ensures Zeros(multiset(Flatten(ResetSimulation().dutch)) + AllCards(hands)) == 16
  {
    DecksZeros(hands, bgs);
    assert multiset(Flatten(ResetSimulation().dutch)) + AllCards(hands) == AllCards(hands);
  }

  /**
   * While the table and all the players hold at most 16 zeros, every
   * player has a free dutch pile for each 0 still held: the zero budget a
   * turn needs.
   */
  lemma BudgetGivesTurn(t: Table, hands: seq<multiset<Card>>, i: int)
    requires TableOk(t) && 0 <= i < |hands|
    requires Zeros(multiset(Flatten(t.dutch)) + AllCards(hands)) <= 16
    ensures t.nextdutch + Zeros(hands[i]) <= 16
  {
    TableZeros(t);
    HandInAll(hands, i);
    ZerosAdd(multiset(Flatten(t.dutch)), AllCards(hands));
    ZerosAdd(hands[i], AllCards(hands) - hands[i]);
  }

  /**
   * A turn that keeps the cards of the table and of the player taking it
   * together (Held) keeps the cards of the table and of all players.
   */
  lemma TurnKeepsAll(t: Table, r: Table, hands: seq<multiset<Card>>, i: int, h: multiset<Card>)
    requires 0 <= i < |hands|
    requires multiset(Flatten(r.dutch)) + h == multiset(Flatten(t.dutch)) + hands[i]
    ensures multiset(Flatten(r.dutch)) + AllCards(hands[i := h]) == multiset(Flatten(t.dutch)) + AllCards(hands)
  {
    AllCardsUpdate(hands, i, h);
    var d, d', a, a' := multiset(Flatten(t.dutch)), multiset(Flatten(r.dutch)), AllCards(hands), AllCards(hands[i := h]);
    forall x
      ensures (d' + a')[x] == (d + a)[x]
    {
      assert (d' + h)[x] == (d + hands[i])[x];
      assert (a' + hands[i])[x] == (a + h)[x];
    }
  }

  /** reset_simulation: the table before a new game, with no dutch pile started and nobody blitzed. */
  function ResetSimulation(): (t: Table)
    ensures TableOk(t) && t.nextdutch == 0 && !t.blitzed && t.winner == None && t.deadlocked == 0
  {
    Table([], 0, false, None, 0)
  }

  /** validate_dutch: every started dutch pile holds the ranks 0, 1, 2, ... of one front colour. */
  method ValidateDutch(t: Table) returns (ok: bool)
    requires Laid(t)
    ensures ok <==> ValidDutch(t.dutch)
  {
    for i := 0 to t.nextdutch
      invariant forall k :: 0 <= k < i ==> ValidDutchPile(t.dutch[k])
    {
      var pile := t.dutch[i];
      for pos := 0 to |pile|
        invariant forall m :: 0 <= m < pos ==>
          GetCardNumber(pile[m]) == m && GetFrontColor(pile[m]) == GetFrontColor(pile[0])
      {
        var cp := pile[pos];
        if !(GetCardNumber(cp) == pos && GetFrontColor(cp) == GetFrontColor(pile[0])) {
          assert !ValidDutchPile(t.dutch[i]);
          return false;
        }
      }
    }
    return true;
  }

  /**
   * The table after fits_on_dutch_pile(card, true): a 0 starts a new dutch
   * pile, any other card that fits goes onto the first started pile it
   * continues, and a card that does not fit changes nothing.
   */
  function PlayTable(t: Table, card: Card): (r: Table)
    requires TableOk(t) && GetCardNumber(card) < 10
    requires GetCardNumber(card) == 0 ==> t.nextdutch < 16
    ensures TableOk(r) && r.dutch == Play(card, t.dutch)
    ensures r.nextdutch == t.nextdutch + (if GetCardNumber(card) == 0 then 1 else 0)
    ensures Fits(card, t.dutch) ==> multiset(Flatten(r.dutch)) == multiset(Flatten(t.dutch)) + multiset{card}
    ensures Fits(card, t.dutch) ==> |Flatten(r.dutch)| == |Flatten(t.dutch)| + 1
    ensures !Fits(card, t.dutch) ==> r == t
    ensures r.blitzed == t.blitzed && r.winner == t.winner && r.deadlocked == t.deadlocked
  {
    FitsIffPlaced(card, t.dutch);
    PlayKeepsValidDutch(card, t.dutch);
    PlayRespectsCapacity(card, t.dutch);
    if Fits(card, t.dutch) then
      PlayConserves(card, t.dutch);
      assert |multiset(Flatten(Play(card, t.dutch)))| == |multiset(Flatten(t.dutch))| + 1;
      t.(dutch := Play(card, t.dutch), nextdutch := t.nextdutch + (if GetCardNumber(card) == 0 then 1 else 0))
    else t
  }

  /**
   * fits_on_dutch_pile(card, true): a card that fits is put on the dutch
   * piles.  A 0 starts the next pile, which pile_init sets up empty.  Any
   * other card goes onto the first started pile it continues, which the
   * loop over the piles finds.
   */
  method PlayOnDutchPile(t: Table, card: Card) returns (fits: bool, r: Table)
    requires TableOk(t) && GetCardNumber(card) < 10
    requires GetCardNumber(card) == 0 ==> t.nextdutch < 16
    ensures fits <==> Fits(card, t.dutch)
    ensures r == PlayTable(t, card)
  {
    FitsIffPlaced(card, t.dutch);
    if GetCardNumber(card) == 0 {
      r := t.(dutch := t.dutch + [[card]], nextdutch := t.nextdutch + 1);
      return true, r;
    }
    for i := 0 to t.nextdutch
      invariant forall m :: 0 <= m < i ==> !Extends(t.dutch[m], card)
    {
      var dtopcard := Last(t.dutch[i]);
      if GetCardNumber(card) == GetCardNumber(dtopcard) + 1 && GetFrontColor(card) == GetFrontColor(dtopcard) {
        assert Extends(t.dutch[i], card);
        r := t.(dutch := t.dutch[i := t.dutch[i] + [card]]);
        return true, r;
      }
    }
    return false, t;
  }

  /** The action names a card to play from the discard, blitz or a post pile. */
  predicate IsPlay(action: int)
  {
    action == PLAY_WOOD || action == PLAY_BLITZ || PLAY_POST <= action < PLAY_POST + 3
  }

  /** The pile a play action names holds a card. */
  predicate Names(h: Hand, action: int)
  {
    && |h.posts| == 3
    && (action == PLAY_WOOD ==> h.discard != [])
    && (action == PLAY_BLITZ ==> h.blitz != [])
    && (PLAY_POST <= action < PLAY_POST + 3 ==> h.posts[action - PLAY_POST] != [])
  }

  /** The card a play action names: the top card of the pile it names. */
  function PlayedCard(h: Hand, action: int): Card
    requires Names(h, action) && IsPlay(action)
  {
    if action == PLAY_WOOD then Last(h.discard)
    else if action == PLAY_BLITZ then Last(h.blitz)
    else Last(h.posts[action - PLAY_POST])
  }

  /**
   * The hand after a play action: the named pile loses its top card, so the
   * hand loses exactly the card played; any other action changes nothing.
   */
  function Taken(h: Hand, action: int): Hand
    requires Names(h, action)
  {
    if action == PLAY_WOOD then TakeDiscard(h)
    else if action == PLAY_BLITZ then TakeBlitz(h)
    else if PLAY_POST <= action < PLAY_POST + 3 then TakePost(h, action - PLAY_POST)
    else h
  }

  /** A play action takes exactly the played card out of the hand; any other action leaves it as it is. */
  lemma TakenCards(h: Hand, action: int)
    requires Names(h, action)
    ensures IsPlay(action) ==> HandCards(Taken(h, action)) + multiset{PlayedCard(h, action)} == HandCards(h)
    ensures !IsPlay(action) ==> Taken(h, action) == h
  {
    if action == PLAY_WOOD {
      RemoveLast(h.discard);
    } else if action == PLAY_BLITZ {
      RemoveLast(h.blitz);
    } else if PLAY_POST <= action < PLAY_POST + 3 {
      TakePostCards(h, action - PLAY_POST);
    }
  }

  /** The PLAY_WOOD branch of player_try_to_make_one_move (lines 419-424). */
  method PlayWood(t: Table, player: Player) returns (fits: bool, r: Table)
    requires Turn(t, player) && player.View().discard != []
    modifies player, player.woodDiscard
    ensures Turn(r, player) && player.BuffersKept() && Held(r, player) == old(Held(t, player))
    ensures fits <==> Fits(Last(old(player.View()).discard), t.dutch)
    ensures fits ==> player.View() == TakeDiscard(old(player.View())) && |Flatten(r.dutch)| == |Flatten(t.dutch)| + 1
    ensures r.dutch == Play(Last(old(player.View()).discard), t.dutch)
    ensures !fits ==> player.View() == old(player.View()) && r == t
    ensures r.blitzed == t.blitzed && r.winner == t.winner && r.deadlocked == t.deadlocked
  {
    var card := player.TopOf(DISCARD);
    ghost var m := player.Cards();
    TakeDiscardOk(player.View(), player.bgcolor);
    ZeroBudget(t.nextdutch, m, card);
    fits, r := FitsOn(card, t.dutch), PlayTable(t, card);
    if fits {
      var _ := player.PopDiscard();
      Played(m, player.Cards(), multiset(Flatten(t.dutch)), multiset(Flatten(r.dutch)), card);
    }
  }

  /**
   * The PLAY_BLITZ branch (lines 426-433); emptied tells whether the play
   * emptied the blitz pile.
   */
  method PlayBlitz(t: Table, player: Player) returns (fits: bool, emptied: bool, r: Table)
    requires Turn(t, player) && player.View().blitz != []
    modifies player, player.blitz
    ensures Turn(r, player) && player.BuffersKept() && Held(r, player) == old(Held(t, player))
    ensures fits <==> Fits(Last(old(player.View()).blitz), t.dutch)
    ensures fits ==> player.View() == TakeBlitz(old(player.View())) && |Flatten(r.dutch)| == |Flatten(t.dutch)| + 1
    ensures r.dutch == Play(Last(old(player.View()).blitz), t.dutch)
    ensures !fits ==> player.View() == old(player.View()) && r == t
    ensures emptied <==> fits && player.View().blitz == []
    ensures r.blitzed == t.blitzed && r.winner == t.winner && r.deadlocked == t.deadlocked
  {
    var card := player.TopOf(BLITZ);
    ghost var m := player.Cards();
    TakeBlitzOk(player.View(), player.bgcolor);
    ZeroBudget(t.nextdutch, m, card);
    fits, r := FitsOn(card, t.dutch), PlayTable(t, card);
    emptied := false;
    if fits {
      var _ := player.PopBlitz();
      emptied := player.IsEmpty(BLITZ);
      Played(m, player.Cards(), multiset(Flatten(t.dutch)), multiset(Flatten(r.dutch)), card);
    }
  }

  /** The PLAY_POST branch (lines 435-440) for post pile j. */
  method PlayPost(t: Table, player: Player, j: int) returns (fits: bool, r: Table)
    requires Turn(t, player) && 0 <= j < 3 && player.View().posts[j] != []
    modifies player, player.Piles()[j]
    ensures Turn(r, player) && player.BuffersKept() && Held(r, player) == old(Held(t, player))
    ensures fits <==> Fits(Last(old(player.View()).posts[j]), t.dutch)
    ensures fits ==> player.View() == TakePost(old(player.View()), j) && |Flatten(r.dutch)| == |Flatten(t.dutch)| + 1
    ensures r.dutch == Play(Last(old(player.View()).posts[j]), t.dutch)
    ensures !fits ==> player.View() == old(player.View()) && r == t
    ensures r.blitzed == t.blitzed && r.winner == t.winner && r.deadlocked == t.deadlocked
  {
    var card := player.TopOf(j);
    ghost var m := player.Cards();
    TakePostOk(player.View(), j, player.bgcolor);
    ZeroBudget(t.nextdutch, m, card);
    fits, r := FitsOn(card, t.dutch), PlayTable(t, card);
    if fits {
      var _ := player.PopPost(j);
      Played(m, player.Cards(), multiset(Flatten(t.dutch)), multiset(Flatten(r.dutch)), card);
    }
  }

  /**
   * player_try_to_make_one_move (lines 406-448): the player looks for a
   * move and makes it.  A play puts one of the player's cards on the dutch
   * piles; a player whose blitz pile ran out wins unless someone already
   * has.  The result says whether anything changed.
   */
  method TryToMakeOneMove(t: Table, player: Player) returns (madeplay: bool, r: Table)
    requires Turn(t, player)
    modifies player, player.Repr, player.Buffers()
    ensures Turn(r, player) && player.BuffersKept() && Held(r, player) == old(Held(t, player))
    ensures madeplay <==> r.dutch != t.dutch || (r.blitzed && !t.blitzed)
    ensures r.dutch != t.dutch ==> |Flatten(r.dutch)| == |Flatten(t.dutch)| + 1
    ensures !madeplay ==> r == t
    ensures t.blitzed ==> r.blitzed && r.winner == t.winner
    ensures !t.blitzed && r.blitzed ==> r.winner == Some(player.bgcolor) && player.View().blitz == []
    ensures r.deadlocked == t.deadlocked
    ensures !t.blitzed && old(player.View()).blitz != [] && player.View().blitz == [] ==>
      r.blitzed && r.winner == Some(player.bgcolor)
  {
    var action;
    ghost var iterations;
    action, iterations := player.FindPossibleMove(t.dutch);
    madeplay, r := MakeMove(t, player, action);
  }

  /** The part of player_try_to_make_one_move after the search (lines 411-445). */
  method MakeMove(t: Table, player: Player, action: int) returns (madeplay: bool, r: Table)
    requires Turn(t, player) && Offers(action, player.View(), t.dutch)
    modifies player, player.Repr
    ensures Turn(r, player) && player.BuffersKept() && Held(r, player) == old(Held(t, player))
    ensures madeplay <==> r.dutch != t.dutch || (r.blitzed && !t.blitzed)
    ensures r.dutch != t.dutch ==> |Flatten(r.dutch)| == |Flatten(t.dutch)| + 1
    ensures !madeplay ==> r == t
    ensures t.blitzed ==> r.blitzed && r.winner == t.winner
    ensures !t.blitzed && r.blitzed ==> r.winner == Some(player.bgcolor) && player.View().blitz == []
    ensures r.deadlocked == t.deadlocked
    ensures action == NO_MOVE ==> !madeplay
    ensures player.View() == Taken(old(player.View()), action)
    ensures r.dutch == if IsPlay(action) then Play(PlayedCard(old(player.View()), action), t.dutch) else t.dutch
    ensures IsPlay(action) ==> madeplay
    ensures r.blitzed <==> t.blitzed || action == BLITZED_FROM_POST || (action == PLAY_BLITZ && player.View().blitz == [])
  {
    madeplay, r := false, t;
    if action == NO_MOVE {
      return;
    }
    var iblitzed;
    madeplay, iblitzed, r := PlayAction(t, player, action);
    if iblitzed && !r.blitzed {
      r := r.(blitzed := true, winner := Some(player.bgcolor));
      madeplay := true;
    }
  }

  /**
   * The branches of player_try_to_make_one_move on the action found (lines
   * 416-440): a play takes the named top card to the dutch piles; iblitzed
   * tells whether the player has blitzed, either before the search or by
   * playing the last blitz card.
   */
  method PlayAction(t: Table, player: Player, action: int) returns (madeplay: bool, iblitzed: bool, r: Table)
    requires Turn(t, player) && Offers(action, player.View(), t.dutch)
    modifies player, player.Repr
    ensures Turn(r, player) && player.BuffersKept() && Held(r, player) == old(Held(t, player))
    ensures r.blitzed == t.blitzed && r.winner == t.winner && r.deadlocked == t.deadlocked
    ensures madeplay <==> r.dutch != t.dutch
    ensures r.dutch != t.dutch ==> |Flatten(r.dutch)| == |Flatten(t.dutch)| + 1
    ensures !madeplay ==> r == t
    ensures iblitzed <==> action == BLITZED_FROM_POST || (action == PLAY_BLITZ && player.View().blitz == [])
    ensures player.View() == Taken(old(player.View()), action)
    ensures r.dutch == if IsPlay(action) then Play(PlayedCard(old(player.View()), action), t.dutch) else t.dutch
    ensures IsPlay(action) ==> madeplay
  {
    madeplay, iblitzed, r := false, false, t;
    if action == BLITZED_FROM_POST {
      iblitzed := true;
    } else if IsPlay(action) {
      madeplay, iblitzed, r := PlayTop(t, player, action);
    }
  }

  /**
   * The three play branches (lines 419-440): the named top card fits, as
   * the search found, so it leaves its pile for the dutch piles.
   */
  method PlayTop(t: Table, player: Player, action: int) returns (madeplay: bool, emptied: bool, r: Table)
    requires Turn(t, player) && Offers(action, player.View(), t.dutch) && IsPlay(action)
    modifies player, player.Repr
    ensures Turn(r, player) && player.BuffersKept() && Held(r, player) == old(Held(t, player))
    ensures r.blitzed == t.blitzed && r.winner == t.winner && r.deadlocked == t.deadlocked
    ensures madeplay && |Flatten(r.dutch)| == |Flatten(t.dutch)| + 1
    ensures emptied <==> action == PLAY_BLITZ && player.View().blitz == []
    ensures player.View() == Taken(old(player.View()), action)
    ensures r.dutch == Play(PlayedCard(old(player.View()), action), t.dutch)
  {
    emptied := false;
    if action == PLAY_WOOD {
      madeplay, r := PlayWood(t, player);
    } else if action == PLAY_BLITZ {
      madeplay, emptied, r := PlayBlitz(t, player);
    } else {
      madeplay, r := PlayPost(t, player, action - PLAY_POST);
    }
  }

  /**
   * score_player: -2 for every card left on the player's blitz pile, +1
   * for every card with the player's back colour on the dutch piles.
   */
  method ScorePlayer(t: Table, player: Player) returns (s: int)
    requires Laid(t) && player.Valid()
    ensures s == Score(|player.View().blitz|, t.dutch, player.bgcolor)
    ensures -20 <= s <= |Flatten(t.dutch)|
  {
    var dutch := t.dutch;
    s := -2 * player.SizeOf(BLITZ);
    for i := 0 to t.nextdutch
      invariant s == -2 * |player.View().blitz| + DutchCount(dutch[..i], player.bgcolor)
    {
      for j := 0 to |dutch[i]|
        invariant s == -2 * |player.View().blitz| + DutchCount(dutch[..i], player.bgcolor) + CountBack(dutch[i][..j], player.bgcolor)
      {
        if GetBackColor(dutch[i][j]) == player.bgcolor {
          s := s + 1;
        }
        assert dutch[i][..j + 1][..j] == dutch[i][..j];
      }
      assert dutch[i][..|dutch[i]|] == dutch[i];
      assert dutch[..i + 1][..i] == dutch[..i];
    }
    assert dutch[..t.nextdutch] == dutch;
    DutchCountFlat(dutch, player.bgcolor);
    ScoreBounds(|player.View().blitz|, dutch, player.bgcolor);
  }
}
