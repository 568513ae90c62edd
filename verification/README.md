# Thirteen-card game engine, modelled in Dafny

This project models the game logic of a four-seat card game server. The game is a "Thirteen" style climbing game. The server keeps each room's state in Redis keys:

- the deck;
- four hands;
- the board (every card played since the last reset);
- the top card, which is the last card of the latest accepted play;
- the board type, which is the combination of that play;
- the current player and the last player;
- the lowest dealt card, which must open the round.

Three calls change that state:

- `initGame` clears the room and deals five cards to each seated player.
- `playCards` checks an ordered list of cards and moves it from the player's hand to the board.
- `passTurn` moves the turn on, or clears the board once everyone has passed back to the player who played last.

A second, older controller is modelled too. It plays one card at a time with a rotation of its own.

Every call is a pure function from a room record to an outcome: a truthy or falsy result, and the room record afterwards. Each Redis key is a field of the record. Every call runs as one step; interleaving is out of scope.

| file | module | what it holds |
|---|---|---|
| options.dfy | `Options` | `Option`, for keys that may be unset |
| seqs.dfy | `Seqs` | `Elements` and `Distinct` on sequences |
| cards.dfy | `Cards` | cards, the comparator, the lowest-card scan, the standard deck |
| combinations.dfy | `Combinations` | the combination classifier and the run scanner |
| seats.dfy | `Seats` | seats 1..4, the stored hands, turn rotation |
| dealing.dfy | `Dealing` | deals of five cards per seat and the lowest dealt card |
| engine.dfy | `Engine` | the room engine: `InitGame`, `PlayCards`, `PassTurn` |
| controller.dfy | `Controller` | the older single-card controller |
| scenarios.dfy | `Scenarios` | rounds on the fixed hands the server's own tests use |

Modelling choices:

- **Cards.** A card is a suit and a value 1..13, not a string. `Compare` follows the string comparator branch for branch: suit letters are compared as characters, and values by their 2/Ace rule. Its contract ties it to an independent rank-then-suit key.
- **Players.** A player is any integer. A number outside 1..4 names a hand key that is never written, so its hand reads as empty. This is why a play by such a player fails at the move.
- **Turn rotation.** `(p % 4) + 1` is written with the truncating `%` of JavaScript.
- **Dealing.** A draw of five is random. The model does not say which cards come out: a deal is any list of hands that successive draws could yield (`Dealing.IsDraw`). Hands supplied by a caller are `Injected`, and drawing takes them out of no deck.
- **Loose comparisons.** The server compares numbers read back as strings with `!=` and `==`. Stored numbers are modelled as integers, so both sides compare equal exactly when the numbers are equal.
- **Playing cards.** The `MULTI`/`EXEC` batch in `playCards` is one `SMOVE` per card, and Redis rolls none of them back when one fails. `Engine.MoveEach` models exactly that: cards that were in the hand move, the others report failure.
- **Classifying runs.** The classifier reads a run in the order the cards are listed. `typeOfRun` documents its argument as sorted cards, but nothing sorts a play before it is classified, so the verdict depends on the order the player lists the cards in. The model follows the code, and `Combinations.RunsReadOrder` shows the difference.
- **The controller's board.** The controller compares a play against `smembers(board)[0]`, whatever card Redis happens to list first. The model takes that listing as a parameter, `members`, whose elements must be the board.

## Model

| member | source | states |
|---|---|---|
| Cards.Compare | server/src/services/redis.js:156-181 | the comparator returns 0 exactly for the same card, and 1 or -1 exactly as the first card's rank-then-suit key is larger or smaller |
| Cards.CompareIsStrictTotalOrder | server/src/gameRunner/createController.js:122-146 | the comparator is reflexive-zero, antisymmetric and transitive, and only returns -1, 0 or 1; the controller's copy is textually the same |
| Cards.RankOrder | server/src/services/redis.js:175-180 | for different values, a 2 beats everything, an Ace beats everything but a 2, a 3 loses to everything, and among 3..K the larger value wins |
| Cards.SuitOrder | server/src/services/redis.js:165-173 | for the same value, Spades < Clubs < Diamonds < Hearts |
| Cards.NothingBelowThreeOfSpades | server/src/services/redis.js:147-181 | S3 is the lowest card: no card other than S3 is at or below it |
| Cards.LowestFrom | server/src/services/redis.js:246-250 | the left-to-right scan keeps a card from the list that no later card beats from below |
| Cards.LowestCard | server/src/services/redis.js:242-253 | the lowest card of a non-empty list is one of its cards and at or below every card in it |
| Cards.StandardDeckComplete | server/src/services/redis.js:9-62 | every card sits at its suit block and value in the 52-card list, and the list has no repeats |
| Cards.StandardDeckSize | server/src/services/redis.js:9-62 | the deck holds all 52 cards, every card exactly once |
| Combinations.AreSameValue | server/src/services/redis.js:190-202 | true exactly when every card shares the first card's value |
| Combinations.LeadingCount | server/src/services/redis.js:224 | the leading count is the length of the longest prefix of cards whose run value equals the first card's, so the next card differs |
| Combinations.RunUnitIsLeadingCount | server/src/services/redis.js:219-232 | in a run made of groups of u equal values, u is the number of leading equal cards |
| Combinations.TypeOfRun | server/src/services/redis.js:211-235 | nonzero exactly when there are at least 3 cards and they form a run for some group size, and then that size is the group size |
| Combinations.ScanRun | server/src/services/redis.js:211-235 | the loop version, with the prefix count and the block scan, computes the same group size, and is nonzero exactly for runs |
| Combinations.CountLeading | server/src/services/redis.js:224 | the `while` loop stops at the leading count |
| Combinations.ScanGroups | server/src/services/redis.js:228-232 | the nested loops return u exactly when the cards are a run of groups of u, else 0 |
| Combinations.ScanGroup | server/src/services/redis.js:229-231 | one pass of the inner loop keeps u exactly when the next block of u cards has the expected value |
| Combinations.ScanMatchesRun | server/src/services/redis.js:228-232 | after the last block the scan's verdict is exactly the run predicate |
| Combinations.DetermineCombination | server/src/services/redis.js:263-292 | the classifier returns a combination exactly when the cards have its shape (an independent description by card count and values), and Invalid exactly when they have none |
| Combinations.RunTypeIsUnique | server/src/services/redis.js:219-232 | a run of three or more cards has only one group size, the one the run test returns |
| Combinations.ThreeCardRun | server/src/services/redis.js:271-278 | three cards are classed as a run exactly when they are three consecutive values in order |
| Combinations.NoFourCardRun | server/src/services/redis.js:280-281 | four cards are four of a kind or invalid, never a run |
| Combinations.ClassifyIgnoresSuits | server/src/services/redis.js:263-292 | two lists with the same values in the same order get the same combination, whatever their suits |
| Combinations.KingAceTwoIsRun | server/src/services/redis.js:214-218 | K, A, 2 is a run of singles because Ace and 2 count as 14 and 15; so is 3, 4, 5 |
| Combinations.SkippedValueIsInvalid | server/src/services/tests/redis.test.js:405-409 | S3, S4, S6 is invalid |
| Combinations.RunsReadOrder | server/src/services/redis.js:219-231 | the same three cards are a run listed as 3, 4, 5 and invalid listed as 4, 3, 5 |
| Combinations.RunOfPairsNeedsThreePairs | server/src/services/tests/redis.test.js:353-415 | three consecutive pairs are a run of pairs (lines 353-367); the first two pairs alone are invalid (lines 411-415) |
| Combinations.TriplesAndRunOfTriples | server/src/services/tests/redis.test.js:281-393 | three threes are a triple (lines 281-295), and three consecutive triples are a run of triples (lines 369-393) |
| Combinations.BrokenRunsAreInvalid | server/src/services/tests/redis.test.js:417-437 | a run of triples ending in S6, and three pairs with a fifth card of the last value, are both invalid |
| Combinations.ThreeOfAKindAndOneIsInvalid | server/src/services/tests/redis.test.js:476-480 | S4 followed by three threes is invalid |
| Seats.WithHand | server/src/services/redis.js:444 | writing a hand changes that seat's hand only, and writing to a non-seat changes nothing |
| Seats.Rotate | server/src/services/redis.js:451 | the seat after seat p is p + 1, and after seat 4 comes seat 1 |
| Seats.RotateCycles | server/src/services/redis.js:476 | rotation visits the three other seats and is back after four steps |
| Dealing.LowestDealt | server/src/services/redis.js:363-367 | the lowest of the per-hand lowest cards is in some hand and at or below every dealt card |
| Dealing.DrawnHands | server/src/services/redis.js:350-361 | hands drawn from a deck are pairwise disjoint, taken from the deck, hold five cards each, and seats past the player count are empty |
| Engine.InitGame | server/src/services/redis.js:326-369 | after initialisation the board, top card, board type and turn keys are clear; each seat up to the count holds its dealt cards and the others nothing; the deck lost exactly the drawn cards; and the lowest is either the supplied one or the lowest card held |
| Engine.LowestDealtIsHeldLowest | server/src/services/redis.js:363-367 | the lowest dealt card is held and no held card is below it |
| Engine.InitGameDeals | server/src/services/redis.js:350-365 | after a random deal, the hands are disjoint five-card subsets of the deck, the deck keeps exactly the rest, and the room is consistent |
| Engine.Screen | server/src/services/redis.js:417-439 | a play passes the checks only with a valid combination of at least one card |
| Engine.MoveEach | server/src/services/redis.js:440-450 | the batch removes the listed cards from the hand, adds those that were held to the board, and reports success exactly when the cards are different and all held |
| Engine.PlayCards | server/src/services/redis.js:409-468 | a play is accepted exactly when it passes the checks and names different cards all in the player's hand; then it records board type, top card, next seat and last player; a refused play changes only the cards already moved, and other hands never change |
| Engine.PlayCardsRejects | server/src/services/redis.js:417-439 | out of turn, a first play without the lowest card, an invalid combination, a combination that does not match the board, and a last card that does not beat the top each leave the room unchanged |
| Engine.PlayCardsConserves | server/src/services/redis.js:440-447 | the cards held and on the board together stay the same set |
| Engine.PlayCardsKeepsValid | server/src/services/redis.js:409-468 | a play keeps hands disjoint from each other and from the board, and keeps top, type and last player set together |
| Engine.PassTurn | server/src/services/redis.js:470-495 | a pass is accepted exactly by the current player; it never touches hands, deck or the lowest card, and leaves the board alone or empty |
| Engine.PassTurnKeepsValid | server/src/services/redis.js:470-495 | a pass keeps the room consistent |
| Engine.PassTurnEffect | server/src/services/redis.js:483-494 | the last player's own pass clears board, top, type and last player and keeps the turn; anyone else's pass moves the turn to the next seat and changes nothing else |
| Engine.FullCircuitResets | server/src/services/tests/redis.test.js:549-576 | after a play and four passes round the table, the board is empty, no last player is set, and the turn is back with the player who played |
| Engine.CannotOpenIsPermanent | server/src/services/redis.js:417-423 | once the lowest card is in no hand before the first play, every play and pass is refused and this stays so |
| Engine.PartialMoveStrandsOpeningCard | server/src/services/redis.js:440-464 | a refused pair S3, D3 whose D3 is elsewhere still moves S3 to the board, after which the round can never open |
| Engine.PlayCardsAtomic | server/src/services/redis.js:440-464 | the all-or-nothing play accepts the same plays with the same result, and a refused play changes nothing |
| Engine.AtomicPlayKeepsOpening | server/src/services/redis.js:417-464 | with all-or-nothing plays a round that can open stays able to open |
| Controller.InitGame | server/src/gameRunner/createController.js:173-197 | the board is clear, each seat up to the count holds five dealt cards and the rest nothing, hands and deck split the 52 cards, and the lowest card is held and lowest; the turn and last player keys are left as they were |
| Controller.LowestIsHeldLowest | server/src/gameRunner/createController.js:191-195 | the lowest dealt card is held and no held card is below it |
| Controller.PlayCard | server/src/gameRunner/createController.js:213-256 | a card is accepted exactly when it is the lowest (first play) or it is the player's turn, it beats the first listed board card or the board is empty, and it is in the hand; then it moves, the turn becomes `(player + 1) % 4` and the player is last; a refusal changes nothing |
| Controller.PlayCardConserves | server/src/gameRunner/createController.js:236-240 | held and board cards together stay the same, and the table stays consistent |
| Controller.FirstListedCardDecides | server/src/gameRunner/createController.js:216-235 | with S5 and S9 on the board, S7 is accepted or refused depending on which the store lists first |
| Controller.SeatThreeHandsTurnToSeatZero | server/src/gameRunner/createController.js:244 | an accepted play by seat 3 sets the turn to 0, which is not a seat |
| Controller.SeatZeroRefusesEveryPlay | server/src/gameRunner/createController.js:222-243 | with the turn at 0 every play is refused and the table does not change |
| Controller.StallDealIsDraw | server/src/gameRunner/createController.js:186-193 | a three-seat deal with S3 in seat 3's hand is a possible draw |
| Controller.StallDealDrawsFrom | server/src/gameRunner/createController.js:186-193 | those three hands can be drawn from any full deck |
| Controller.SeatThreeOpeningStallsRound | server/src/gameRunner/createController.js:173-256 | in any three-seat deal where seat 3 holds S3, S3 is the opening card, seat 3 opens with it, and the turn goes to 0 |
| Controller.PlayCardCorrected | server/src/gameRunner/createController.js:213-256 | with the rotation `(p % 4) + 1`, the same plays are accepted with the same effect except for the next seat |
| Controller.CorrectedTurnStaysSeated | server/src/gameRunner/createController.js:244 | with the corrected rotation the turn only rests on seats 1..4 and moves to a different seat |
| Scenarios.Start | server/src/services/tests/redis.test.js:232-240 | the test round with two supplied hands and S3 as the opening card starts fresh |
| Scenarios.PairOpens | server/src/services/tests/redis.test.js:248-263 | opening with S3, D3 puts both on the board and gives seat 2 the turn |
| Scenarios.MixedPairRefused | server/src/services/tests/redis.test.js:265-277 | S3, S4 is refused and the room is unchanged |
| Scenarios.LowRunOpens | server/src/services/tests/redis.test.js:314-328 | opening with S3, S4, S5 puts the run on the board with S5 on top and seat 2 next |
| Scenarios.LowRunPasses | server/src/services/tests/redis.test.js:315-317 | the run S3, S4, S5 passes the checks and is in seat 1's hand |
| Scenarios.KingAceTwoOnRun | server/src/services/tests/redis.test.js:338-339 | on the run topped by S5, seat 2's K, A, 2 is accepted and added to the board |
| Scenarios.KingAceTwoBeatsLowRun | server/src/services/tests/redis.test.js:330-351 | 3-4-5 by seat 1 followed by K-A-2 by seat 2 are both accepted and all six cards are on the board |
| Scenarios.SingleOpens | server/src/services/tests/redis.test.js:397-398 | opening with S3 makes it the top card of a board of singles, with seat 2 next |
| Scenarios.PairOnSingleRefused | server/src/services/tests/redis.test.js:400-402 | a pair on a board of singles is refused and changes nothing |
| Scenarios.FourOfAKindOnSingle | server/src/services/tests/redis.test.js:462-463 | four tens on a single S3 are accepted |
| Scenarios.FourOfAKindGoesOnSingles | server/src/services/tests/redis.test.js:457-474 | after S3 opens, seat 2 is refused a pair but accepted four of a kind |
| Scenarios.SkippedValueRefused | server/src/services/tests/redis.test.js:405-409 | the play S3, S4, S6 is refused |
| Scenarios.NoPassBeforeOpening | server/src/services/tests/redis.test.js:498-510 | nobody may pass before the first play |

## Left out

- Redis I/O, connection setup and key names (`getDeckKey` and the other key helpers) are left out. Every key is a field of the room record.
- Concurrency is left out. Each call's reads and writes form one step, although the server awaits several round trips per call.
- `SPOP` randomness is left out: a deal is any possible draw, not a particular one.
- Player identities (`players`, `getPlayerPosition`) are left out. `getPlayerKey` builds the same key as `getHandKey`. The `SET` at redis.js line 360 is sent after the `SADD` beside it on the same connection, so whenever an identity is supplied it replaces that seat's hand set with a string. As written, every completed `initGame` replaces the hands of seats 1..playerCount with identity strings: with `players` missing, `players[player - 1]` throws after seat 1's `SADD`, so no call that finishes leaves the hands in place. The model deliberately keeps the hands, as if identities were stored under a key of their own.
- The read-only accessors `getPlayerHand`, `getAllHands`, `getBoard`, `getLowest`, `getCurrentPlayer` and `getLastPlayer` are left out as operations. They are the record's fields and `Hand`.
- The server's tests call `initGame(roomId, playerCount, null, testHands, 'S3')`, which against the signature at redis.js lines 326-333 binds the count to `players` and the hands to `testDeck`. The scenarios use the arguments those tests evidently mean: four seats, the two supplied hands, S3 as the opening card.
- `del(key, 52)` also deletes a key literally named `52`. No key of the game has that name, so this is left out.
- Engine.InitGame: a supplied deck may hold duplicate or foreign strings, and supplied hands need not come from the deck or be disjoint. The model allows all of this and promises consistency only for drawn deals (Engine.InitGameDeals).
- Engine.InitGame: a hand must be non-empty and the player count in 1..4. An empty supplied hand makes the `SADD` at redis.js line 359 fail for lack of members. A count above 4 deals a fifth hand under `player:5`, which `getPlayerHand` and `playCards` do read: that hand takes part in choosing the lowest dealt card, so a fifth seat could hold and play the opening card, but the turn rotation never reaches it. The model's room has four seats.
- Controller.InitGame: the deck is always the standard one. Its turn and last-player keys are not cleared, which the model keeps (`prev.current`, `prev.last`).
- Card strings that are not well formed (an unknown suit letter, a value outside 1..13) cannot be expressed, since cards are structured values.
- The `parseInt` of a card string's value part is left out: a card's value is an integer from the start, and only the suit letter keeps its character form, for the comparator's letter comparison.

## Findings

| source | as written | input that shows it | evidently intended | confidence | as-written member | corrected member |
|---|---|---|---|---|---|---|
| server/src/gameRunner/createController.js:244 | the next player is `(currentPlayer + 1) % 4` | a three-seat deal with S3 in seat 3: seat 3 opens, the turn becomes 0, and no play is ever accepted again | the next seat is `(currentPlayer % 4) + 1`, as the room engine computes it | not executed | Controller.SeatThreeOpeningStallsRound | Controller.PlayCardCorrected, Controller.CorrectedTurnStaysSeated |
| server/src/services/redis.js:440-464 | the `SMOVE`s in `MULTI`/`EXEC` are not rolled back when one fails, and the play is then refused | seat 1 holds S3 and S4, seat 2 holds D3 and D4, and seat 1 plays S3, D3: S3 moves to the board, D3 does not, the play is refused, and S3 is stranded | a refused play moves no card | not executed | Engine.PartialMoveStrandsOpeningCard | Engine.PlayCardsAtomic, Engine.AtomicPlayKeepsOpening |
