# Zha Jin Hua server engine, modelled in Dafny

This project models the game engine of a three-card betting game (炸金花, Zha Jin Hua) played over WebSockets, and proves properties of the model. The engine has three parts.

- **Deck and hand ranking** (`server/game-logic.js`, module `GameLogic`, file `game_logic.dfy`):
  - building, shuffling and dealing a 52-card deck;
  - ranking a three-card hand into one of six categories (leopard 7, straight flush 6, flush 5, straight 4, pair 3, high card 2) with an integer tiebreak value;
  - comparing two hands, and finding the winner among several.
- **The room** (`Room` in `server/room-manager.js`, module `Rooms`, file `rooms.dfy`): a mutable object.
  - It holds the seated players, the status (`waiting` → `playing` → `finished` → `waiting`), the pot, the current bet, the active players still in the hand and the index of the player whose turn it is.
  - It handles join, leave, ready, start (the ante is collected and cards are dealt), the turn actions (see, fold, call, raise, compare), end of game, reset, and the public snapshot.
- **The registry** (`RoomManager` in `server/room-manager.js`, module `Registry`, file `registry.dfy`): the rooms by id. Ids `room_1`, `room_2`, … come from a counter that only grows.

`util.dfy` (module `Util`) holds an `Option` type and sequence distinctness.

## How the model is built

- **Pure code becomes functions.**
  - The category tests and `evaluateHand` are functions over three cards.
  - `compareHands` is a function too.
  - The ranking rules are also restated independently of card order, on a `Shape`: the three ranks from high to low, plus whether the hand is one suit.
  - Lemmas prove that the code's position-based tests agree with those rules (`GameLogic.EvaluateHandRanks`). Everything else about ranking is proved on the rules.
- **Loops become methods with loop invariants.**
  - `createDeck`, `shuffleDeck`, `dealCards` and `findWinner` are each proved against a specification.
  - The `forEach` passes of `startGame` and `resetGame` are proved the same way.
- **Players and rooms are classes.**
  - `Player` is a class, because the source shares each player object between `players` and `activePlayers`. A fold or compare made through one list is seen through the other.
  - `Room` and `RoomManager` are classes whose methods update their fields in place.
- **The code is modelled as written, including behaviour that looks unintended.** The first three behaviours below are exhibited by lemmas. The other four are stated by the contracts of the methods named.
  - **Compare rule.** `compareCards` eliminates the opponent when `value1 > value2 || type1 > type2`. That is not the (type, value) order of `compareHands`. For example, A-K-J (high card, 1541) and 4-5-6 (straight, 600) each beat the other when their holder starts the compare (lemma `Rooms.InitiatorAlwaysWins`). Ties go against the initiator.
  - **Fold skips a player.** After a fold the index is not adjusted before it moves on, so the player who moved into the folder's seat is skipped (lemma `Rooms.FoldSkipsSuccessor`).
  - **Compare leaves a stale index.** `compareCards` never updates the index, which can be left equal to the number of active players (lemma `Rooms.StaleIndexAfterCompare`, together with the unchanged index in the contract of `Rooms.Room.CompareCards`). Every later action is then refused as "not your turn".
  - **Ante with no sufficiency check.** The ante is taken even when it leaves a player's chips negative (`Rooms.Room.CollectAnte` and `Rooms.Room.StartGame` subtract 10 from every seat without a precondition on chips).
  - **Leaving does not touch the active list.** `removePlayer` leaves `activePlayers` as it was (contract of `Rooms.Room.RemovePlayer`).
  - **Reset is unconditional.** `resetGame` runs whatever the status (`Rooms.Room.ResetGame` has no precondition on the status).
  - **The pot is not cleared at game end.** `endGame` adds the pot to the winner's chips but leaves `pot` as it was until reset (contract of `Rooms.Room.EndGame`). So chips plus pot are conserved by see, call and raise, but not by a fold or compare that ends the game.
- **Errors thrown by the source become an outcome.** A JavaScript `TypeError` that escapes the engine becomes the `Crashed` outcome, which keeps the changes made before the throw. Four cases:
  - `endGame` evaluating a seat with no cards, after the payout. This can happen after a reset, which clears every hand but keeps the active list.
  - moving the turn on after a fold leaves nobody active, because `% 0` gives `NaN` and no seat sits at index `NaN`.
  - `compareCards` evaluating a hand that does not hold three cards. This can happen after a reset, because `playerAction` never checks the status.
  - `compareCards` when the filter leaves nobody active. This needs two seats holding the same id, which the room itself does not prevent.
- **Randomness is a parameter.**
  - `shuffleDeck` takes the random draws as a parameter `picks`, where step `i` may pick any `j <= i`.
  - `startGame` passes them through and returns the shuffled deck as a ghost result.

## Model

| member | source | states |
|---|---|---|
| GameLogic.MakeCard | server/game-logic.js:4-7 | the card built for a suit and the v-th label carries the rank its label maps to, v + 2 |
| GameLogic.FullDeckAt | server/game-logic.js:25-36 | card 13·s + v of the deck is suit s with label v and rank v + 2 |
| GameLogic.RowsValid | server/game-logic.js:29-33 | every card of the first k suit rows is a valid card of one of those k suits |
| GameLogic.RowsDistinct | server/game-logic.js:29-33 | the first k suit rows hold no card twice |
| GameLogic.FullDeckDistinct | server/game-logic.js:25-36 | the 52 cards of the deck are pairwise distinct |
| GameLogic.FullDeckContents | server/game-logic.js:4-7 | a card is in the deck exactly when its label is a rank label and its rank is the one that label maps to |
| GameLogic.ValidCardRank | server/game-logic.js:4-7 | every valid card has a rank from 2 to 14 |
| GameLogic.SameSuitDistinctRanks | server/game-logic.js:4-7 | two different valid cards of one suit have different ranks |
| GameLogic.CreateDeck | server/game-logic.js:25-36 | the nested loops build exactly the full deck, suits in order and labels in order within each suit |
| GameLogic.ShuffleDeck | server/game-logic.js:41-48 | the shuffle of a copy returns a permutation of the deck (equal multisets, same length) for any valid draws |
| GameLogic.DealCards | server/game-logic.js:53-63 | n hands of three cards; hand j holds the cards at positions \|deck\|-1-j, \|deck\|-1-n-j and \|deck\|-1-2n-j; the deck loses exactly its last 3n cards |
| GameLogic.DealtAt | server/game-logic.js:56-60 | in round i seat j pops the card i·n + j places from the end |
| GameLogic.DealtCardsDistinct | server/game-logic.js:53-63 | from a deck of distinct cards no card is dealt twice, to one seat or to two |
| GameLogic.SortCardsSorts | server/game-logic.js:121 | the comparator sort returns an arrangement of the three cards, ordered by rank in the requested direction |
| GameLogic.SortIsStable | server/game-logic.js:121 | cards of equal rank keep their relative order |
| GameLogic.EvaluateHand | server/game-logic.js:120-183 | the evaluation keeps three cards and has a type code from 2 to 7 |
| GameLogic.EvaluateHandSorts | server/game-logic.js:121-129 | the returned cards are the hand's own cards, highest rank first |
| GameLogic.Classify | server/game-logic.js:123-182 | the category tests on the sorted hand return that sorted hand with a type code from 2 to 7 |
| GameLogic.ShapeIsPermutationInvariant | server/game-logic.js:120-183 | rearranging a hand changes neither its ranks from high to low nor its suitedness |
| GameLogic.SortKeepsShape | server/game-logic.js:77 | sorting, in either direction, keeps the hand's shape |
| GameLogic.IsStraightIsRun | server/game-logic.js:76-86 | isStraight accepts exactly three consecutive ranks or {A, 2, 3}, whatever the order of the cards |
| GameLogic.IsLeopardIsTriple | server/game-logic.js:68-71 | isLeopard holds exactly when the three ranks agree, whatever the order of the cards |
| GameLogic.IsFlushIsSuited | server/game-logic.js:91-93 | isFlush holds exactly when the three suits agree |
| GameLogic.IsPairIsPaired | server/game-logic.js:98-116 | isPair holds exactly when two of the ranks agree, whatever the order; getPairValue then returns the repeated rank and the remaining rank, which is the pair rank and kicker of the rules |
| GameLogic.ClassifyRanks | server/game-logic.js:66-182 | on a descending hand, the position-based tests compute the category in the priority order leopard, straight flush, flush, straight, pair, high card, and the tiebreak of that category |
| GameLogic.EvaluateHandRanks | server/game-logic.js:120-183 | evaluateHand returns the rule category and tiebreak of the hand: leopard rank·1000000, straight flush top·10000, flush and high card r0·100 + r1·10 + r2, straight top·100, pair pair·100 + kicker |
| GameLogic.LowStraightValues | server/game-logic.js:135-159 | {A, 2, 3} is a straight flush worth 30000 when suited and a straight worth 300 otherwise |
| GameLogic.LowStraightIsLowest | server/game-logic.js:135-159 | {A, 2, 3} is worth strictly less than every other straight, or straight flush, of the same type |
| GameLogic.RunTopAboveLowRun | server/game-logic.js:156 | every other run in range tops out at 4 or more, above the 3 of {A, 2, 3} |
| GameLogic.PackedValueIsLexicographic | server/game-logic.js:148 | for unpaired ranks in range, the packed value orders hands exactly as comparing the ranks highest first; equal values mean equal ranks |
| GameLogic.PairTiebreakIsLexicographic | server/game-logic.js:166-173 | within pairs, the tiebreak orders by the paired rank, then the kicker |
| GameLogic.PairValueIsLexicographic | server/game-logic.js:166-173 | the evaluated value of two pair hands orders them by paired rank, then kicker |
| GameLogic.TiebreakBands | server/game-logic.js:120-183 | for ranks in range: a leopard's tiebreak lies in 2000000..14000000, a straight flush's in 30000..140000, and every weaker category's in 1..1554 |
| GameLogic.ValueBands | server/game-logic.js:120-183 | the same bands for evaluateHand's value |
| GameLogic.ValidHandRanks | server/game-logic.js:4-7 | a hand of valid cards has all its ranks in 2..14 |
| GameLogic.CompareHands | server/game-logic.js:189-200 | the result is 1, 0 or -1 |
| GameLogic.CompareHandsOrder | server/game-logic.js:189-200 | 1 exactly when the first hand has a greater category, or the same category and a greater tiebreak; 0 exactly when both are equal; swapping the hands negates the result |
| GameLogic.CompareHandsTransitive | server/game-logic.js:189-200 | a win followed by a win or tie is a win |
| GameLogic.LeadsStep | server/game-logic.js:209-217 | one step of the scan: a strictly better hand takes the lead, and any other leaves the leader in place |
| GameLogic.FindWinner | server/game-logic.js:205-220 | the returned hand's (type, value) is beaten by no hand, and strictly beats every hand before it, so ties go to the earliest seat |
| Rooms.Player.constructor | server/room-manager.js:33-42 | a new player record has the given chips, no cards, no bet and every flag cleared |
| Rooms.FindPlayer | server/room-manager.js:123 | the first seat holding the id, or none when no seat does |
| Rooms.WithoutId | server/room-manager.js:146 | the filter keeps exactly the seats with another id |
| Rooms.WithoutIdRemovesSeat | server/room-manager.js:146 | with distinct ids, filtering out seat k's id removes exactly seat k and keeps the order |
| Rooms.WithoutAbsentId | server/room-manager.js:146 | filtering out an id that nobody holds keeps every seat |
| Rooms.FoldSkipsSuccessor | server/room-manager.js:146-199 | after seat k folds, the player from seat k + 1 sits at k, and the turn moves to (k + 1) mod the new length, which is not k |
| Rooms.NextSeatDiffers | server/room-manager.js:199 | moving on one seat among two or more lands on another seat |
| Rooms.StaleIndexAfterCompare | server/room-manager.js:222-234 | when the last seat compares, the unchanged index equals the new number of active players |
| Rooms.OpponentLosesVersusBeats | server/room-manager.js:215 | the compare rule eliminates the opponent exactly when the initiator wins under (type, value), or holds the weaker type with the larger value |
| Rooms.OpponentLosesAgreesAtTop | server/room-manager.js:215 | when either hand is a leopard or straight flush, the compare rule agrees with the (type, value) order |
| Rooms.AceKingJackRanks | server/game-logic.js:176-182 | A-K-J is a high card worth 1541 |
| Rooms.FourFiveSixRanks | server/game-logic.js:154-163 | 4-5-6 is a straight worth 600 |
| Rooms.InitiatorAlwaysWins | server/room-manager.js:207-219 | compareHands puts 4-5-6 above A-K-J, but under compareCards whoever starts the comparison eliminates the other, in either seating |
| Rooms.TotalAfterCharge | server/room-manager.js:161-163 | moving d out of one entry lowers the total by exactly d |
| Rooms.ChipCounts | server/room-manager.js:97-101 | one chip count per seat, in seat order |
| Rooms.DealtFromFullDeck | server/room-manager.js:104-109 | hands dealt from a shuffled full deck hold only valid cards and never the same card twice |
| Rooms.SpliceDistinct | server/room-manager.js:51 | removing one seat from a list of distinct seats leaves the list distinct |
| Rooms.Room.constructor | server/room-manager.js:6-22 | a new room is empty and waiting, with pot 0, current bet 10, no active players and index 0 |
| Rooms.Room.AddPlayer | server/room-manager.js:24-46 | a full room refuses first and a started game next, both changing nothing; otherwise exactly one new seat is appended with 1000 chips, no cards, no bet and every flag cleared |
| Rooms.Room.RemovePlayer | server/room-manager.js:48-61 | false with no change when the id is absent; otherwise deletes exactly the first seat with the id and keeps the order; a departing creator is replaced by the new first seat; the active list is not touched |
| Rooms.Room.SetPlayerReady | server/room-manager.js:63-70 | sets only the ready flag of the first seat with the id, and reports whether there was one |
| Rooms.Room.StartGame | server/room-manager.js:72-120 | refused with no change unless two or more seats are all ready and the room is waiting; otherwise playing, current bet 10, pot n·10, each seat charged 10 (chips may go negative) with bet 10 and flags cleared, each seat dealt its hand of three valid cards with no card dealt twice, all seats active and the first to move |
| Rooms.Room.ClearSeats | server/room-manager.js:89-94 | every seat's bet, seen and folded flags and cards are cleared; chips and ready flags are kept |
| Rooms.Room.CollectAnte | server/room-manager.js:97-101 | every seat pays 10 into the pot and bets 10, with no check of its chips |
| Rooms.Room.SeatHands | server/room-manager.js:107-109 | seat k receives hand k and nothing else about any seat changes |
| Rooms.Room.Advance | server/room-manager.js:198-204 | the index moves to (index + 1) mod the number of active players and the reply names that seat; with nobody active, the result is Crashed |
| Rooms.Room.SeeHand | server/room-manager.js:137-141 | marks the seat's cards as seen, moves the turn on, and keeps chips plus pot |
| Rooms.Room.Charge | server/room-manager.js:161-163 | moves d chips from one seat into the pot and the seat's bet; chips plus pot are unchanged |
| Rooms.Room.CallBet | server/room-manager.js:155-165 | refused with no change when chips are short of what is owed; otherwise pays exactly current bet minus own bet, so the two bets meet; chips plus pot are unchanged |
| Rooms.Room.RaiseBet | server/room-manager.js:167-181 | the raise is the amount, or the current bet when the amount is 0; refused with no change when chips are short of what is owed plus the raise; otherwise pays it, the current bet grows by the raise and the seat's bet meets it; chips plus pot are unchanged |
| Rooms.Room.FoldHand | server/room-manager.js:143-153 | folds the seat and filters its id out of the active list; with one seat left the game ends with the index kept and the survivor's hand and flags untouched, otherwise the turn moves on |
| Rooms.Room.PlayerAction | server/room-manager.js:122-133 | "not your turn" exactly when the caller is unseated or not the seat the index names; "already folded" exactly when that seat has folded; every refusal changes nothing; otherwise the action behaves as its branch says; only the actor, and for fold or compare the opponent and the seat left alone, may change |
| Rooms.Room.Act | server/room-manager.js:136-204 | see, fold, call and raise behave as their branches say; compare is refused without a second active seat, is made against the next active seat, and leaves pot, current bet, index and both hands as they were; unknown actions are refused; see, call and raise keep chips plus pot; no seat outside actor, opponent and survivor changes |
| Rooms.Room.Opponent | server/room-manager.js:183-190 | compare has an opponent exactly when two or more seats are active, and that opponent is an active seat |
| Rooms.Room.CompareCards | server/room-manager.js:207-236 | the opponent loses exactly when value1 > value2 or type1 > type2, otherwise the initiator; the loser is folded and filtered out while the winner's folded flag stays; both hands, bets and flags, chips, pot, current bet and index are unchanged, except that the last survivor collects the pot; no other seat changes |
| Rooms.Room.Eliminate | server/room-manager.js:221-235 | the loser is folded and filtered out; one survivor wins the game; otherwise the reply names winner, loser and the seat the unchanged index names modulo the new length |
| Rooms.ResultsRevealHands | server/room-manager.js:243-250 | the results table has one line per seat in seat order, with the seat's id, name, cards, chips and folded flag, and its hand evaluated to the category and tiebreak of the rules |
| Rooms.Room.EndGame | server/room-manager.js:238-262 | the first active seat's chips grow by the pot, which stays as it was; the game is finished and every seat's hand revealed, or Crashed when a seat holds no cards |
| Rooms.Room.ResetGame | server/room-manager.js:264-277 | whatever the status: waiting, pot 0 and current bet 10; every seat keeps its chips and loses its bet, cards and flags; the active list and index are untouched |
| Rooms.Room.GetState | server/room-manager.js:279-300 | the public fields, each seat with its card count rather than its cards, and the current player only when the index names an active seat |
| Rooms.Views | server/room-manager.js:284-293 | the public view of each seat, in order |
| Registry.Digit | server/room-manager.js:310 | the character of a decimal digit |
| Registry.NatToStringDigits | server/room-manager.js:310 | a counter value prints as decimal digits only, with a leading zero exactly for zero |
| Registry.DigitsRoundTrip | server/room-manager.js:310 | the printed decimal form of a number reads back as that number |
| Registry.RoomId | server/room-manager.js:310 | a room id is `room_` followed by the counter in decimal |
| Registry.RoomIdInjective | server/room-manager.js:310 | two counter values give the same id exactly when they are equal |
| Registry.NumberedIdsDistinct | server/room-manager.js:303-315 | rooms issued from a growing counter have pairwise different ids |
| Registry.NextIdIsFresh | server/room-manager.js:310 | the id the counter issues next belongs to no room yet |
| Registry.FindRoom | server/room-manager.js:317-323 | the position of the room with the id, or none when no room has it |
| Registry.FindRoomFindsOwnId | server/room-manager.js:317-319 | with distinct ids, looking up a room's own id finds that room |
| Registry.FindRoomAppended | server/room-manager.js:313 | a room added under a fresh id is found at the end |
| Registry.SpliceNumbered | server/room-manager.js:321-323 | deleting a room keeps the remaining ids issued and in increasing counter order |
| Registry.SpliceMembers | server/room-manager.js:321-323 | with distinct ids, deleting the room with an id leaves exactly the rooms with other ids |
| Registry.AbsentIdMembers | server/room-manager.js:321-323 | when no room has the id, every room has another id |
| Registry.Host | server/room-manager.js:335-342 | the first room that seats the player, or none when no room does |
| Registry.Summaries | server/room-manager.js:325-333 | one lobby line per room, in order |
| Registry.RoomManager.constructor | server/room-manager.js:303-307 | an empty registry with counter 1 |
| Registry.RoomManager.CreateRoom | server/room-manager.js:309-315 | the id is `room_` plus the counter, which grows by one; the id is held by no existing room; the new room is appended with the creator as its creator and its only player, with 1000 chips |
| Registry.RoomManager.GetRoom | server/room-manager.js:317-319 | a room with the id, or null when there is none |
| Registry.RoomManager.DeleteRoom | server/room-manager.js:321-323 | true exactly when a room had the id; exactly that room is removed, order is kept, and the counter is untouched |
| Registry.RoomManager.GetRoomList | server/room-manager.js:325-333 | one line per room in insertion order, with its id, player count and status |
| Registry.RoomManager.FindPlayerRoom | server/room-manager.js:335-342 | the first room in insertion order that seats the player, or null when none does |
| Registry.RoomListIdsDistinct | server/room-manager.js:325-333 | the lobby list names each room once |
| Registry.GetRoomFindsEveryRoom | server/room-manager.js:317-319 | every registered room is found under its own id |
| Util.DistinctIffSingletons | server/game-logic.js:25-36 | a sequence is distinct exactly when no element occurs more than once in its multiset |
| Util.DistinctPermutation | server/game-logic.js:41-48 | a permutation of a distinct deck is distinct |

## Left out

- `server/server.js` (WebSocket transport, JSON parsing, message dispatch, broadcasting, player-id generation) and `client/game.js` (the browser UI) are I/O and are not part of this model.
- The creator-only gating of start and reset lives in `server/server.js`. It is not modelled: `StartGame` and `ResetGame` may be called by anyone.
- `Math.random` is not modelled. The shuffle takes its draws as a parameter, and only the permutation property is proved, not uniformity.
- The display names of hand types and rooms' message texts are not modelled. Suits are a datatype rather than the four suit-symbol strings.
- `currentRound` and the room's retained `deck` have no effect on the logic and are not modelled. The shuffled deck is returned as a ghost result of `StartGame` instead.
- Rooms.Room.RaiseBet: takes `amount` as an integer. A string or fractional amount, which JavaScript would coerce or concatenate, is not modelled. A negative amount is accepted as written, and it lowers the current bet.
- Rooms.Room.Advance: the `NaN` index left by `(index + 1) % 0`, after the last active player folds, is modelled as 0. It cannot be observed while the active list is empty, and `startGame` overwrites it.
- Rooms.Room.CompareCards: the model assumes a hand has either no cards or exactly three. A hand of any other length is treated as `Crashed`. The source only ever deals three cards or clears them.
- GameLogic.FindWinner: requires at least one hand. With none, the source's `evaluateHand(undefined)` throws.
- GameLogic.DealCards: requires at least 3n cards in the deck. With fewer, the source would push `undefined` into the hands. The source always passes a full deck for at most six players.
- GameLogic.SortCards: models `Array.prototype.sort` with a numeric comparator only on three cards, as a stable sort, which is the only case the engine uses.
- GameLogic.SortCardsSorts: states the sort's permutation property as "one of the six arrangements of the three cards" rather than as multiset equality.
- GameLogic.ShuffleDeck: the JavaScript copy `[...deck]` is modelled by value semantics. That the input is left unchanged holds because sequences are values.
- Rooms.Room.PlayerAction: chip conservation is stated for see, call and raise only. A fold or compare that ends the game pays out the pot without clearing it, so chips plus pot grow by the pot. That is the behaviour of the source.
- Map iteration order in `RoomManager` is modelled as the insertion order of a sequence. `CreateRoom` appends, because its id is proved fresh. Re-setting an existing key in place cannot happen and is not modelled.
