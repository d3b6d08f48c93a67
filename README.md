# Dutch Blitz engine

A model of the sequential card-game engine of CS3214-DutchBlitz, with proofs
about it. The original is a multi-threaded simulation of the card game Dutch Blitz.

- **Cards** (`cards.dfy`) models the one-byte card encoding of `src/cards.h`.
  The back colour sits in the top two bits, the front colour in the next two
  and the rank in the low nibble.
- **Piles** (`pile.dfy`) models the bounded pile of `src/pile.c`. It is a stack
  over a fixed-capacity buffer: a class with an `array` and a ghost `Contents`
  sequence.
- **Deck** (`deck.dfy`) models `prepare_deck` and the in-place Fisher-Yates
  shuffle. The numbers `random()` returns are a parameter, `rolls`.
- **Rules** (`rules.dfy`) holds the rules as pure definitions:
  - well-formed post piles and dutch piles;
  - when a card fits on the dutch piles and where it goes;
  - the bookkeeping of the post-pile consolidation;
  - the score.
- **Hands** (`hands.dfy`) treats a player's six piles as a value, a `Hand`.
  Every move between a player's own piles is a function on hands, with lemmas
  showing it keeps the hand well-formed and keeps the same cards.
- **Players** (`player.dfy`) models `struct player_state` as a class over six
  `Pile` objects. Its methods are `player_deal` and the loops of
  `player_find_possible_move`, each proved against the functions on hands.
- **Games** (`game.dfy`) holds the shared state of a game, `Table`: the dutch
  piles, `nextdutch`, `blitzed`, `winner` and `deadlocked`. It has:
  - the dutch-pile check and play (`fits_on_dutch_pile`);
  - `player_try_to_make_one_move`;
  - the consistency checks;
  - `score_player`.

What is proved, in the system's terms:

- Encoding and decoding a card are inverse to each other.
- The shuffle permutes the deck, whatever numbers are drawn.
- A deal gives exactly the 40 cards of the player's colour, laid out as
  `player_deal` lays them out.
- The move search never writes the dutch piles. It gets their contents as a
  value.
- The move search keeps every post pile consistent and keeps the player's cards.
- The move search terminates: the rounds are bounded by 500 and the resets by
  3, so at most 2000 rounds are run.
- The search's answer is one its state allows. Every code that names a play
  names a card that fits.
- The search answers in the source's order: the blitz pile's top card before
  the post piles' top cards, and those before the wood pile.
- The loop of the search computes `Players.Search`, a recursive definition
  of its rounds. The search's answer, the hand it leaves and the number of
  rounds it runs are the ones `Search` gives for the entry state. From that
  definition:
  - a round stops with `BLITZED_FROM_POST` exactly when the cascade empties
    the blitz pile;
  - it stops with -1 exactly when the tidied hand has no wood;
  - it stops with `PLAY_WOOD` exactly when the discard top after three turns
    fits;
  - the search answers -1 only when both wood piles are empty or 500 rounds
    have been run;
  - a search that empties the blitz pile answers `BLITZED_FROM_POST`.
- The assertion at `src/dutchblitz.c:374` holds: no post pile is empty when the
  wood pile's top card is tried on them.
- A play moves exactly one card from the player onto the dutch piles:
  - the dutch piles stay runs 0, 1, 2, ... of one front colour;
  - no dutch pile exceeds its capacity of 10.
- A 0 always finds a free dutch pile, for every player in every turn:
  - each started dutch pile holds exactly one 0, so `nextdutch` counts the 0
    cards on the table;
  - the four decks of a game hold 16 zeros, one per dutch pile;
  - a turn moves cards only between the table and the player taking it.
- The winner is set at most once.
- The score is -2 per blitz card plus the player's cards on the dutch piles,
  and it is at least -20.

Where the code and its own comments differ, the model follows the code:

- **The stalemate rotation.** The comment at `src/dutchblitz.c:385-386`
  speaks of moving the top of the wood discard pile to the bottom. Lines
  389-391 instead rotate the *draw* pile's own top card to the draw pile's
  bottom, and only when the draw pile is not empty. The model rotates the
  draw pile.

- **The boy and girl colours.** The comment at `src/cards.h:3-4` pairs Blue
  with Red and Green with Yellow. `opposite_colors` at `src/cards.h:36`
  tests `c & 2`, the bit of value 2, which is clear for RED and GREEN and set for BLUE
  and YELLOW. So RED and GREEN are opposite to BLUE and YELLOW. The model
  follows the bit test (`Cards.OppositeColors`).
- **The consolidation example.** The comment at `src/dutchblitz.c:316-317`
  expects 4yellow to go onto 5red and then 3red onto 4yellow. The test at
  line 324 moves a card only onto a pile that holds exactly one card. After
  the first move the 5red pile holds two cards, so the second move never
  happens. `Hands.MoveSingleSettles` proves that after one move no further
  move qualifies.

The reset at line 393 sets `rounds = 0`, and the loop's increment then makes
it 1 for the next round. The model does the same.

## Model

| member | source | states |
|---|---|---|
| Cards.GetBackColor | src/cards.h:13-17 | the back colour is the top two bits: the card lies in that colour's quarter of the byte range |
| Cards.GetFrontColor | src/cards.h:19-23 | the front colour is bits 4 and 5: the low six bits lie in that colour's block of sixteen |
| Cards.CardFields | src/cards.h:13-29 | the rank is the low nibble: the card is its back colour, its front colour and its rank put together |
| Cards.MakeCard | src/cards.h:39-43 | decoding `make_card(back, front, number)` gives back `back`, `front` and `number` |
| Cards.OppositeColors | src/cards.h:33-37 | two colours are opposite exactly when one is RED or GREEN and the other BLUE or YELLOW |
| Cards.EncodeDecoded | src/cards.h:13-43 | re-encoding the three decoded fields of any byte gives the byte back |
| Cards.DecodeInjective | src/cards.h:13-29 | two bytes with the same back colour, front colour and rank are equal, and conversely |
| Cards.MakeCardInjective | src/cards.h:39-43 | `make_card` gives equal cards exactly for equal valid triples |
| Cards.OppositeSymmetricIrreflexive | src/cards.h:33-37 | being of opposite colour is symmetric, and no colour is opposite to itself |
| Cards.BitLayout | src/cards.h:13-29 | the accessors agree with the shifts and masks on 8-bit values |
| Cards.MakeCardBitLayout | src/cards.h:39-43 | the encoder agrees with the OR of the shifted fields on 8-bit values |
| Piles.Pile.constructor | src/dutchblitz.c:65-66 | a pile in zero-initialised static storage is well-formed, empty, and has capacity 0 |
| Piles.Pile.Init | src/pile.c:10-15 | `pile_init` leaves the pile empty, with the given capacity and a fresh buffer |
| Piles.Pile.Push | src/pile.c:17-21 | needs a free slot; the card goes on top, the cards below and the capacity are unchanged |
| Piles.Pile.Pop | src/pile.c:23-27 | needs a card; returns the most recently pushed card and removes exactly it |
| Piles.Pile.RotateTopCardDown | src/pile.c:30-37 | needs a card; the contents become the old top card followed by the old cards below it, with the size unchanged |
| Piles.Pile.Top | src/pile.c:39-43 | needs a card; returns the last card pushed and changes nothing |
| Piles.Pile.Empty | src/pile.c:45-48 | true exactly when the pile holds no card |
| Piles.Pile.Size | src/pile.c:50-53 | the number of cards, never above the capacity |
| Piles.MoveTop | src/pile.c:17-27 | `pile_push(to, pile_pop(from))` moves the top card of one pile onto the other and changes nothing else |
| Piles.RotatedDownPermutes | src/pile.c:30-37 | a rotation keeps the size and the multiset of cards |
| Piles.RotatedDownCycle | src/pile.c:30-37 | `k` rotations move the top `k` cards to the bottom, so `size` rotations give the pile back |
| Piles.PushPop | src/pile.c:17-27 | a push followed by a pop returns the pushed card and restores the contents |
| Deck.StandardDeck | src/dutchblitz.c:46-48 | before shuffling, the deck holds 40 cards and position `10 * front + rank` holds that card |
| Deck.StandardDeckExactly | src/dutchblitz.c:46-48 | the deck holds exactly the cards of its back colour with a rank below 10 |
| Deck.StandardDeckDistinct | src/dutchblitz.c:46-48 | the 40 cards of a deck are pairwise distinct |
| Deck.StandardDeckZeros | src/dutchblitz.c:46-48 | a deck holds four 0 cards |
| Deck.SwapPermutes | src/dutchblitz.c:36-38 | exchanging two entries keeps the multiset of cards |
| Deck.Shuffled | src/dutchblitz.c:31-40 | the shuffle for given drawn numbers, keeping the deck's size; `FisherYates` is proved to compute it and `ShuffledPermutes` proves it a permutation |
| Deck.ShuffledPermutes | src/dutchblitz.c:31-40 | for any drawn numbers, the shuffle permutes the first `n` entries and leaves the rest alone |
| Deck.FisherYates | src/dutchblitz.c:31-40 | the in-place loop leaves exactly the shuffle of the old deck, each step exchanging entry `i` with entry `random() % (i + 1)` |
| Deck.SwapEntries | src/dutchblitz.c:36-38 | the three assignments through `tmp` exchange the two entries |
| Deck.PrepareDeck | src/dutchblitz.c:43-51 | the deck ends as the shuffle of the ordered deck of its colour |
| Rules.PostPileSpan | src/dutchblitz.c:192-202 | a consistent post pile spans the ranks from its bottom card down to its top card |
| Rules.PushOnPost | src/dutchblitz.c:295-304 | pushing onto an empty or accepting post pile keeps it consistent and within 10 cards |
| Rules.FirstAccepting | src/dutchblitz.c:372-382 | the first post pile that accepts the card; none before it accepts it |
| Rules.Fits | src/dutchblitz.c:129-165 | a card fits exactly when it is a 0 or the search over the started piles finds one it continues |
| Rules.Play | src/dutchblitz.c:132-163 | a play opens one more pile for a 0 and otherwise keeps the number of piles; each existing pile keeps its cards or gains just the played card |
| Rules.FirstExtended | src/dutchblitz.c:148-163 | the first started dutch pile that the card continues; none before it does |
| Rules.FitsOn | src/dutchblitz.c:129-165 | `fits_on_dutch_pile(card, false)` is true exactly when the card is a 0 or continues some started pile |
| Rules.FitsIffPlaced | src/dutchblitz.c:129-165 | a card fits exactly when playing it changes the dutch piles |
| Rules.PlayPlacement | src/dutchblitz.c:132-163 | a 0 opens one new pile holding just it; any other card goes onto the first pile it continues, and no other pile changes |
| Rules.PlayKeepsValidDutch | src/dutchblitz.c:96-108 | playing keeps every dutch pile a run 0, 1, 2, ... of one front colour |
| Rules.DutchPileSize | src/dutchblitz.c:96-108 | a consistent dutch pile has its top card's rank plus one cards |
| Rules.PlayRespectsCapacity | src/dutchblitz.c:135-154 | with ranks below 10, no dutch pile ever exceeds the capacity 10 that `pile_init` gives it |
| Rules.PlayConserves | src/dutchblitz.c:132-163 | playing a fitting card adds exactly that card to the dutch piles |
| Rules.GrowingKeepsSettled | src/dutchblitz.c:318-336 | growing non-empty settled post piles creates no consolidation move |
| Rules.GrowingKeepsMoves | src/dutchblitz.c:318-336 | any consolidation move after growing non-empty piles was possible before |
| Rules.QualifyingLeavesOneStacked | src/dutchblitz.c:320-327 | a consolidation move needs two single-card piles, so at most one pile holds two or more cards |
| Rules.MoveSingleStacks | src/dutchblitz.c:328 | each consolidation move makes one more pile of two or more cards |
| Rules.DutchCountFlat | src/dutchblitz.c:501-505 | counting pile by pile counts every dutch card of the colour exactly once |
| Rules.ScoreBounds | src/dutchblitz.c:497-507 | with at most 10 blitz cards the score lies between -20 and the number of dutch cards |
| Rules.ZeroBudget | src/dutchblitz.c:132-135 | while the started piles plus the player's 0 cards number at most 16, a 0 finds a free pile, and the bound still holds after the play |
| Rules.DutchPileZeros | src/dutchblitz.c:132-146 | a started dutch pile holds exactly one 0, its bottom card |
| Rules.DutchZeros | src/dutchblitz.c:132-146 | started dutch piles hold exactly as many 0 cards as there are piles |
| Hands.OwnedPostSize | src/dutchblitz.c:247 | a consistent post pile of the player's own cards never holds more than its capacity of 10 |
| Hands.Dealt | src/dutchblitz.c:245-258 | a deal leaves one card on each post pile, 10 on the blitz pile, 27 on the draw pile and none on the discard pile |
| Hands.DealtOk | src/dutchblitz.c:241-259 | dealing a shuffled deck gives a well-formed hand of exactly the deck's 40 cards |
| Hands.PutOnPostOk | src/dutchblitz.c:295-304 | pushing onto an empty or accepting post pile keeps all post piles consistent, adds exactly that card and only grows the piles |
| Hands.BlitzToPostOk | src/dutchblitz.c:293-306 | moving the blitz top onto an empty or accepting post pile keeps the hand well-formed with the same cards |
| Hands.DiscardToPostOk | src/dutchblitz.c:377-379 | the same for the discard pile's top card |
| Hands.WoodToPost | src/dutchblitz.c:369-383 | nothing changes exactly when no post pile takes the discard pile's top card; otherwise that card leaves the discard pile, and blitz and draw piles stay |
| Hands.WoodToPostOk | src/dutchblitz.c:369-383 | the wood-to-post step keeps the hand well-formed, its cards, the blitz and draw piles, and only grows the post piles |
| Hands.MoveSingleOk | src/dutchblitz.c:320-329 | a consolidation move keeps the post piles consistent and stacks one more pile |
| Hands.MoveSingleConserves | src/dutchblitz.c:328 | a consolidation move keeps the cards of the post piles |
| Hands.ReversedInvolution | src/dutchblitz.c:348-352 | turning the discard pile over twice gives it back |
| Hands.ReversedCards | src/dutchblitz.c:348-352 | turning a pile over keeps its cards and their owner |
| Hands.DiscardToDrawOk | src/dutchblitz.c:350 | one replenishing step keeps the hand well-formed and its cards, and advances the turned-over order by one card |
| Hands.Refill | src/dutchblitz.c:347-352 | replenishing touches neither blitz nor posts, keeps the size of the wood pile, and leaves an empty draw pile only when the whole wood pile is empty |
| Hands.RefillOk | src/dutchblitz.c:347-352 | replenishing keeps the hand, its cards and the order of the wood pile, and leaves a card to draw when there was wood |
| Hands.Flip | src/dutchblitz.c:354 | flipping touches neither blitz nor posts, keeps the size of the wood pile and leaves a card face up |
| Hands.FlipOk | src/dutchblitz.c:354 | flipping a card keeps the hand, its cards and the order of the wood pile |
| Hands.WoodTurn | src/dutchblitz.c:346-355 | a turn of the wood pile keeps its size and leaves a card face up |
| Hands.WoodTurnOk | src/dutchblitz.c:346-355 | a turn keeps the hand and its cards, touches neither blitz nor posts, and never reorders the wood pile |
| Hands.WoodTurns | src/dutchblitz.c:346-355 | any number of turns keeps the size of the wood pile |
| Hands.WoodTurnsOk | src/dutchblitz.c:346-355 | any number of turns keeps what one turn keeps |
| Hands.RotateDrawOk | src/dutchblitz.c:388-395 | rotating the draw pile keeps the hand well-formed and its cards |
| Hands.CascadePass | src/dutchblitz.c:293-306 | a pass never adds blitz cards; it reports a move only if one was made, and changes nothing if it reports none |
| Hands.CascadePassOk | src/dutchblitz.c:293-306 | a pass keeps the hand well-formed and its cards |
| Hands.CascadePassShape | src/dutchblitz.c:293-306 | a pass only grows the post piles, only takes blitz cards, and leaves the wood pile alone |
| Hands.CascadePassBlocked | src/dutchblitz.c:293-306 | a pass that moves nothing found no post pile that takes the blitz top card |
| Hands.Cascaded | src/dutchblitz.c:290-307 | the cascade never adds blitz cards and ends where one more pass would move nothing |
| Hands.CascadedOk | src/dutchblitz.c:290-309 | the cascade keeps the hand and its cards, and stops with blitz cards left only where no post pile can take the top one |
| Hands.MoveSingleSettles | src/dutchblitz.c:318-336 | after one consolidation move of three piles no further move qualifies |
| Hands.ScanIdle | src/dutchblitz.c:318-336 | where no move qualifies, the consolidation loops change nothing |
| Hands.ScanKeeps | src/dutchblitz.c:318-336 | the consolidation loops keep the post piles consistent and their cards |
| Hands.ScanMoves | src/dutchblitz.c:318-336 | the loops either change nothing, because nothing qualifies from there on, or make exactly one move |
| Hands.ConsolidatedOk | src/dutchblitz.c:318-336 | `Consolidated`, the post piles after the loops, keeps the post piles and their cards, and changes them exactly when some single card of rank 1 to 8 may go onto another |
| Hands.TakeBlitzOk | src/dutchblitz.c:426-427 | taking the blitz top to play it keeps the hand well-formed and loses exactly that card |
| Hands.TakeDiscardOk | src/dutchblitz.c:420-421 | the same for the discard pile's top card |
| Hands.TakePostOk | src/dutchblitz.c:435-436 | the same for a post pile's top card |
| Hands.ConsolidationBound | src/dutchblitz.c:369-383 | consolidation moves happen only in the first two rounds, so post piles stay non-empty where the wood pile's top card is tried on them |
| Players.Player.constructor | src/dutchblitz.c:54-65 | a player in zero-initialised storage: a 40-card deck and six distinct empty piles |
| Players.Player.SizeOf | src/pile.c:50-53 | `pile_size` of one of the player's piles, within its capacity |
| Players.Player.IsEmpty | src/pile.c:45-48 | `pile_empty` of one of the player's piles |
| Players.Player.TopOf | src/pile.c:39-43 | `pile_top` of one of the player's piles |
| Players.Player.Deal | src/dutchblitz.c:241-259 | the deck is the shuffle of the player's ordered deck, the piles hold the dealt hand, and the player holds exactly the 40 cards of the colour |
| Players.Player.DealPiles | src/dutchblitz.c:245-258 | the dealing loops leave the piles holding the hand dealt from the deck |
| Players.Player.DealPosts | src/dutchblitz.c:246-249 | each post pile holds its one card from the top of the deck |
| Players.Player.DealStock | src/dutchblitz.c:250-258 | the blitz pile holds deck cards 3 to 12, the draw pile 13 to 39, the discard pile none |
| Players.Player.DealBlitz | src/dutchblitz.c:250-253 | the blitz pile holds the next ten deck cards |
| Players.Player.DealWood | src/dutchblitz.c:254-258 | both wood piles are set up and the draw pile holds the remaining 27 cards |
| Players.Player.InitAt | src/pile.c:10-15 | one pile set up empty with its capacity from `player_deal` |
| Players.Player.PushAt | src/pile.c:17-21 | a push onto one of the player's piles, changing only that pile |
| Players.Player.MoveBetween | src/dutchblitz.c:296 | `pile_push(to, pile_pop(from))` between two of the player's piles, changing nothing else |
| Players.Player.PopFrom | src/pile.c:23-27 | a pop from one of the player's piles returns its top card, changing nothing else |
| Players.Player.BlitzOntoPost | src/dutchblitz.c:296-302 | the blitz top goes onto post pile `i`; the hand stays well-formed |
| Players.Player.DiscardOntoPost | src/dutchblitz.c:379 | the discard top goes onto post pile `i`; the hand stays well-formed |
| Players.Player.SingleOntoPost | src/dutchblitz.c:328 | the single card of post pile `i` goes onto post pile `j` |
| Players.Player.DiscardOntoDraw | src/dutchblitz.c:350 | one replenishing step |
| Players.Player.FlipWood | src/dutchblitz.c:354 | one card flipped from the draw pile onto the discard pile |
| Players.Player.RotateDrawPile | src/dutchblitz.c:388-395 | the draw pile's top card goes to its bottom; the player keeps the same cards |
| Players.Player.PopBlitz | src/dutchblitz.c:427 | the played blitz top leaves the player, and nothing else does |
| Players.Player.PopPost | src/dutchblitz.c:436 | the played post top leaves the player, and nothing else does |
| Players.Player.PopDiscard | src/dutchblitz.c:421 | the played discard top leaves the player, and nothing else does |
| Players.Player.Cascade | src/dutchblitz.c:290-307 | passes are repeated until one moves nothing; the result is the cascade of the old hand |
| Players.Player.CascadeOnce | src/dutchblitz.c:293-306 | one pass of the loop computes the pass on hands, with its moved flag |
| Players.Player.CascadeStep | src/dutchblitz.c:294-305 | one turn of the pass, for post pile `i` |
| Players.Player.Consolidate | src/dutchblitz.c:318-336 | the post piles become their consolidation |
| Players.Player.ConsolidateFrom | src/dutchblitz.c:320-334 | the middle loop's body for pile `i` advances the consolidation by one pile |
| Players.Player.TidyPosts | src/dutchblitz.c:289-337 | cascade, then consolidation unless the blitz pile ran out; it reports the blitz exactly when the blitz pile is empty |
| Players.Player.Replenish | src/dutchblitz.c:347-352 | an empty draw pile is refilled from the discard pile |
| Players.Player.TurnOver | src/dutchblitz.c:349-351 | the draw pile becomes the discard pile turned over |
| Players.Player.TurnWood | src/dutchblitz.c:346-355 | three turns of the wood pile, keeping the cards and leaving one face up |
| Players.Player.WoodOntoPost | src/dutchblitz.c:369-383 | the discard top goes onto the first post pile that accepts it; every post pile holds a card, as the assertion at line 374 demands |
| Players.FirstPlayablePost | src/dutchblitz.c:282-287 | the first post pile from `j` on whose top card fits, as `PLAY_POST` plus its index, with no earlier one fitting; -1 exactly when none fits |
| Players.FirstPlayable | src/dutchblitz.c:277-287 | the answer of the first checks of a round: `PLAY_BLITZ` exactly when the blitz top fits, otherwise the first post pile whose top fits, and -1 exactly when no top fits |
| Players.Player.FindPossibleMove | src/dutchblitz.c:271-399 | the answer, the hand left and the rounds run are those of `Search` from the entry state, round 0 and 3 rotations; it keeps the player well-formed with the same cards and answers only what the final state allows; it runs at most 2000 rounds and answers -1 only when both wood piles are empty or 500 rounds have been run; when a blitz or post top fits on entry it answers `FirstPlayable` of the entry state at once and changes nothing; when it empties the blitz pile it answers `BLITZED_FROM_POST` |
| Players.Player.RunRounds | src/dutchblitz.c:274-398 | the loop reaches the goal it is given, which is `Search` from the hand it starts with: the answer, the hand and the number of rounds |
| Players.Player.Advance | src/dutchblitz.c:276-398 | one round and the loop's increment: a round that stops reaches the goal, and one that goes on leaves the same goal to the rounds after it |
| Players.Player.Round | src/dutchblitz.c:276-396 | one round computes `RoundStep` of the hand it starts from: it stops with that step's answer and hand, or goes on with its hand and round counters; when a blitz or post top fits at the start of the round it stops with `FirstPlayable` and changes nothing; -1 means both wood piles are empty |
| Players.Player.SearchRound | src/dutchblitz.c:289-396 | the rest of a round computes `SearchStep` of the hand it starts from: `BLITZED_FROM_POST` when the cascade empties the blitz pile, otherwise the wood search and the rotation of `WoodStep` on the tidied hand |
| Players.Player.WoodRound | src/dutchblitz.c:338-396 | the wood search and the rotation compute `WoodStep` of the tidied hand |
| Players.Player.Rotation | src/dutchblitz.c:388-395 | the rotation computes `Rotated`: with more rounds than twice the wood left, a non-empty draw pile and a rotation left, the draw top goes to the bottom and the counter restarts; otherwise nothing changes |
| Players.Tidied | src/dutchblitz.c:289-337 | the post piles after the cascade and, unless the blitz pile ran out, the consolidation: three post piles, and the blitz pile the cascade left |
| Players.Rotated | src/dutchblitz.c:388-395 | the rotation keeps blitz and posts, and either keeps the counters or restarts the rounds with one rotation fewer |
| Players.AfterTurns | src/dutchblitz.c:357-396 | after three turns the round stops exactly when the discard top fits, with `PLAY_WOOD` and the turned hand; otherwise the rotation follows |
| Players.WoodStep | src/dutchblitz.c:338-396 | the wood search stops only with -1 or `PLAY_WOOD`, and with -1 only on a hand without wood |
| Players.SearchStep | src/dutchblitz.c:289-396 | a round once no top fits stops with `BLITZED_FROM_POST` exactly when it leaves no blitz card, with -1 only without wood, and goes on only with blitz cards left |
| Players.SearchStepCases | src/dutchblitz.c:289-396 | the four ways a round ends once no top fits: `BLITZED_FROM_POST` exactly when the cascade empties the blitz pile, -1 exactly when the tidied hand has no wood, `PLAY_WOOD` exactly when the discard top after three turns fits, and the next round otherwise |
| Players.RoundStep | src/dutchblitz.c:276-396 | a round that starts with blitz cards stops with `BLITZED_FROM_POST` exactly when it leaves none; -1 only without wood; a round that goes on leaves blitz cards |
| Players.Search | src/dutchblitz.c:274-398 | the recursive definition of the loop from a round counter and the rotations left, giving the answer, the hand left and the rounds run; its own contract only keeps three post piles, and `SearchGivesUp`, `SearchBlitzes` and `SearchFirst` prove what it answers |
| Players.Resume | src/dutchblitz.c:276-396 | one round of that definition; its own contract only keeps three post piles, and `ResumeAction`, `ResumeHand` and `ResumeRounds` state how the search goes on from the next round |
| Players.Goal | src/dutchblitz.c:274-398 | the goal of the search from a hand counts at least the rounds already run |
| Players.TidiedIs | src/dutchblitz.c:289-337 | what `TidyPosts` promises is `Tidied`, and the round goes on or stops as `SearchStep` says |
| Players.AfterTurnsIs | src/dutchblitz.c:357-396 | what `SearchWood` promises after the turns is `AfterTurns` up to the rotation |
| Players.WoodSearchIs | src/dutchblitz.c:338-396 | what `SearchWood` promises is `WoodStep` up to the rotation |
| Players.ResumeAction | src/dutchblitz.c:276-396 | a round that goes on gives the answer of the search from the next round |
| Players.ResumeHand | src/dutchblitz.c:276-396 | a round that goes on leaves the hand of the search from the next round |
| Players.ResumeRounds | src/dutchblitz.c:276-396 | a round that goes on runs one round more than the search from the next round |
| Players.SearchGoesOn | src/dutchblitz.c:276-396 | a round that goes on leaves the goal to the next round |
| Players.SearchStops | src/dutchblitz.c:276-396 | a round that stops reaches the goal with its answer, its hand and one more round |
| Players.SearchAdvances | src/dutchblitz.c:276-396 | a round, stopping or going on, keeps the goal or reaches it |
| Players.SearchEnds | src/dutchblitz.c:397-398 | once the counter reaches 500 the goal is -1 with the hand reached |
| Players.SearchFirst | src/dutchblitz.c:277-287 | when a top card fits, the search takes it in its first round and leaves the hand alone |
| Players.SearchGivesUp | src/dutchblitz.c:274-398 | the search answers -1 only when the hand it leaves has no wood or it ran the counter up to 500, and it runs at most 500 rounds per rotation left plus one pass |
| Players.SearchBlitzes | src/dutchblitz.c:289-309 | a search that starts with blitz cards and leaves none has answered `BLITZED_FROM_POST` |
| Players.SearchFacts | src/dutchblitz.c:271-399 | the whole search: -1 only without wood or after 500 rounds, at most 2000 rounds, the first checks' answer at once, and `BLITZED_FROM_POST` when the blitz pile is emptied |
| Players.Player.PlayablePost | src/dutchblitz.c:282-287 | the loop over the post piles answers `FirstPlayablePost` from pile 0 |
| Players.Player.PlayableTop | src/dutchblitz.c:277-287 | the answer is `FirstPlayable` of the player's piles: `PLAY_BLITZ` whenever the blitz top fits; `PLAY_POST + j` only when post pile `j`'s top fits and neither the blitz top nor an earlier post top does; -1 only when no top fits |
| Players.Player.SearchWood | src/dutchblitz.c:338-383 | gives up exactly when both wood piles are empty; otherwise turns three cards and answers `PLAY_WOOD` exactly when the discard pile's top card then fits |
| Games.ValidatePostPile | src/dutchblitz.c:192-202 | true exactly when the pile is a consistent post pile |
| Games.ValidatePostPiles | src/dutchblitz.c:205-211 | true exactly when all three post piles are consistent, which a dealt player's always are |
| Games.TableZeros | src/dutchblitz.c:132-146 | `nextdutch` is the number of 0 cards on the table |
| Games.DecksZeros | src/dutchblitz.c:46-48 | freshly dealt players hold four 0 cards each |
| Games.GameStart | src/dutchblitz.c:81-88 | the table after `reset_simulation` and four freshly dealt players hold 16 zeros |
| Games.BudgetGivesTurn | src/dutchblitz.c:132-135 | while the table and all players hold at most 16 zeros, every player has a free dutch pile for each 0 it holds, so the assertion at line 134 holds in every player's turn |
| Games.TurnKeepsAll | src/dutchblitz.c:406-448 | a turn that keeps the cards of the table and of the player taking it keeps the cards of the table and of all players, and so the zero count |
| Games.ResetSimulation | src/dutchblitz.c:81-88 | a well-formed table with no dutch pile started, nobody blitzed, no winner and no one deadlocked |
| Games.ValidateDutch | src/dutchblitz.c:96-108 | true exactly when every started dutch pile is a run 0, 1, 2, ... of one front colour |
| Games.PlayTable | src/dutchblitz.c:132-163 | the table after a play: well-formed again, with exactly the card added if it fits and `nextdutch` counting a new pile for a 0 |
| Games.PlayOnDutchPile | src/dutchblitz.c:129-165 | `fits_on_dutch_pile(card, true)` reports whether the card fits and returns the table `PlayTable` describes |
| Games.PlayWood | src/dutchblitz.c:419-424 | a fitting discard top leaves the player for the dutch piles, which become `Play` of that card; otherwise nothing changes |
| Games.PlayBlitz | src/dutchblitz.c:425-433 | the same for the blitz top, also reporting whether the blitz pile is now empty |
| Games.PlayPost | src/dutchblitz.c:434-440 | the same for the top of post pile `j` |
| Games.TakenCards | src/dutchblitz.c:419-440 | a play takes exactly the named top card out of the player's cards (`Taken`, `PlayedCard`); any other action leaves the hand as it is |
| Games.PlayTop | src/dutchblitz.c:419-440 | a play found by the search takes the named top card off its pile (`Taken`), and the dutch piles become `Play` of that card |
| Games.PlayAction | src/dutchblitz.c:416-440 | the branches on the action: a play as in `PlayTop`; `BLITZED_FROM_POST` reports the blitz and changes nothing; the blitz is reported exactly for it or for a play that empties the blitz pile |
| Games.MakeMove | src/dutchblitz.c:410-446 | -1 changes nothing; `PLAY_WOOD`, `PLAY_BLITZ` and `PLAY_POST + j` take that pile's top card (`Taken`) and put it where `Play` puts it; `blitzed` ends true exactly when it was true, the action is `BLITZED_FROM_POST`, or a played blitz top was the last blitz card; the winner is set only if `blitzed` was false |
| Games.TryToMakeOneMove | src/dutchblitz.c:406-448 | true exactly when the dutch piles changed or this player became the winner; cards are conserved, and a winner once set stays; a player whose blitz pile the turn empties becomes the winner unless someone already blitzed |
| Games.ScorePlayer | src/dutchblitz.c:497-507 | -2 per blitz card plus the dutch cards of the player's colour, at least -20 |

## Left out

- Threads, the mutex, the barrier and `nanosleep` are left out: they are the
  concurrency. This covers `player_can_take_turns_and_game_not_over`,
  `player_function` and the `deadlocked` counting at `src/dutchblitz.c:484-488`.
  `Table.deadlocked` is carried along and only reset.
- `simulate_one_game`, `main` and `score_all_players` are left out. They are the
  game orchestration over the four players; the model reasons about one player's
  turn at a time. The game-wide zero count is stated over the players' cards as
  multisets (`GameStart`, `TurnKeepsAll`, `BudgetGivesTurn`), not over four
  `Player` objects. That another player's piles are not touched by a turn
  follows from the turn's `modifies` clause.
- `global_state_on_win` is left out. Its checks are `ValidatePostPiles` and
  `ValidateDutch`; the rest is output.
- All logging is left out: `print_card`, `pile_dump`, `dump_dutch`,
  `player_print_state`, the `out` parameter and its `fprintf` branches. The
  player's `name` and `threadname` only serve the logging.
- `random()` is a parameter: `rolls` lists the numbers it returns. `srand`
  seeding is not modelled.
- `malloc` in `pile_init` is a fresh `array`. Allocation failure is not modelled.
- The globals are not updated in place. They are the `Games.Table` value, which
  every turn operation takes and returns.
- The dutch piles are sequences of cards, not 16 `struct pile` objects. Their
  capacity of 10 is part of the table invariant.
- The winner is named by the back colour of the player's deck, not by the address of
  the player's state.
- The return code -1 of `player_find_possible_move` is `NO_MOVE == -1`. In the
  source it is a `uint32_t`, but compared with -1 it behaves the same.
- The `assert`s of the source are preconditions that every caller is proved to
  meet. These are the asserts at `src/pile.c:19`, `25`, `32` and `41`, and at
  `src/dutchblitz.c:374`. The assert at `src/dutchblitz.c:134` is the zero
  budget in a turn's precondition. `BudgetGivesTurn` derives it for every
  player from the zero count of the whole game. In `validate_post_pile` and
  `validate_dutch` the asserts become a boolean result.
- Games.PlayWood: it applies `PlayTable`, the function that `PlayOnDutchPile`
  is proved to compute, instead of calling the method. The same holds for
  `Games.PlayBlitz` and `Games.PlayPost`. The effect on the table is the same.
- Cards.MakeCard: requires a rank below 16. With a larger `number` the C
  expression spills into the colour bits, and every caller passes a rank 0 to 9.
- Players.Player.Deal: requires at least 39 drawn numbers, one per step of the
  shuffle.
