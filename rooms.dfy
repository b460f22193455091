/**
 * A game room of server/room-manager.js: seats, the ready check, the ante,
 * the dealing, the betting turn, direct comparison, the end of a game and the
 * reset, and the snapshot sent to clients.
 */
module Rooms {
  import opened Util
  import opened GameLogic

  const MaxPlayers: nat := 6
  const MinPlayers: nat := 2
  const BaseChips: int := 1000
  const Ante: int := 10

  /**
   * A seated player. The same object is shared by a room's `players` and
   * `activePlayers`, so a change made through one list is seen through the other.
   */
  class Player {
    const id: string
    const name: string
    var chips: int
    var cards: seq<Card>
    var bet: int
    var hasSeenCards: bool
    var folded: bool
    var isReady: bool

    /** The record addPlayer builds: the given chips, no cards, no bet, every flag cleared. */
    constructor (id: string, name: string, chips: int)
      ensures this.id == id && this.name == name && this.chips == chips
      ensures cards == [] && bet == 0 && !hasSeenCards && !folded && !isReady
    {
      this.id := id;
      this.name := name;
      this.chips := chips;
      cards := [];
      bet := 0;
      hasSeenCards := false;
      folded := false;
      isReady := false;
    }
  }

  datatype Status = Waiting | Playing | Finished

  /** What a client may ask for on its turn; any other action string is `Other`. */
  datatype Action = See | Fold | Call | Raise | Compare | Other

  datatype AddResult = Full | AlreadyStarted | Added(player: Player)

  datatype StartResult = CannotStart | Started(pot: int, currentBet: int, currentPlayer: string)

  /** One line of the results table endGame reveals. */
  datatype PlayerResult = PlayerResult(id: string, name: string, cards: seq<Card>, handType: Evaluation, chips: int, folded: bool)

  /**
   * The outcome of a turn. The first five leave the room untouched. `Crashed`
   * stands for the TypeError the source throws when it reads a missing player
   * or a hand without cards; the changes made before that point stay.
   */
  datatype ActionResult =
    | NotYourTurn | AlreadyFolded | NotEnoughChips | NoOpponent | UnknownAction
    | Acted(nextPlayer: string, pot: int, currentBet: int)
    | Compared(winner: string, loser: string, nextPlayer: string)
    | GameOver(winner: string, winnerName: string, pot: int, results: seq<PlayerResult>)
    | Crashed
  {
    predicate Rejected() {
      NotYourTurn? || AlreadyFolded? || NotEnoughChips? || NoOpponent? || UnknownAction?
    }
  }

  /** What getState shows of a player: the number of cards, never the cards. */
  datatype PlayerView = PlayerView(id: string, name: string, chips: int, bet: int, hasSeenCards: bool, folded: bool, isReady: bool, cardCount: nat)

  datatype RoomView = RoomView(id: string, name: string, creator: string, players: seq<PlayerView>, status: Status, pot: int, currentBet: int, currentPlayer: Option<string>, maxPlayers: nat)

  // ---------------------------------------------------------------------
  // Searching and filtering seats by id
  // ---------------------------------------------------------------------

  /** `find` / `findIndex` by id: the first seat holding that id. */
  function FindPlayer(ps: seq<Player>, id: string): (r: Option<nat>)
    ensures r.Some? ==> r.value < |ps| && ps[r.value].id == id && forall j :: 0 <= j < r.value ==> ps[j].id != id
    ensures r.None? ==> forall j :: 0 <= j < |ps| ==> ps[j].id != id
  {
    if ps == [] then None
    else if ps[0].id == id then Some(0)
    else match FindPlayer(ps[1..], id)
      case None => None
      case Some(k) => Some(k + 1)
  }

  /** `filter(p => p.id !== id)`: every seat with another id, in order. */
  function WithoutId(ps: seq<Player>, id: string): (r: seq<Player>)
    ensures |r| <= |ps|
    ensures forall i :: 0 <= i < |r| ==> r[i] in ps && r[i].id != id
    ensures forall i :: 0 <= i < |ps| && ps[i].id != id ==> ps[i] in r
  {
    if ps == [] then []
    else if ps[0].id == id then WithoutId(ps[1..], id)
    else [ps[0]] + WithoutId(ps[1..], id)
  }

  /** Player ids are pairwise distinct. */
  predicate DistinctIds(ps: seq<Player>) {
    forall i, j :: 0 <= i < j < |ps| ==> ps[i].id != ps[j].id
  }

  /** With distinct ids, filtering out the id of seat k removes exactly that seat. */
  lemma {:induction false} WithoutIdRemovesSeat(ps: seq<Player>, k: nat)
    requires DistinctIds(ps) && k < |ps|
    ensures WithoutId(ps, ps[k].id) == ps[..k] + ps[k + 1..]
  {
    var id := ps[k].id;
    var tail := ps[1..];
    if k == 0 {
      WithoutAbsentId(tail, id);
    } else {
      assert DistinctIds(tail) by {
        forall i, j | 0 <= i < j < |tail| ensures tail[i].id != tail[j].id {
          assert tail[i] == ps[i + 1] && tail[j] == ps[j + 1];
        }
      }
      assert tail[k - 1] == ps[k];
      WithoutIdRemovesSeat(tail, k - 1);
      assert ps[0].id != id;
      assert WithoutId(ps, id) == [ps[0]] + WithoutId(tail, id);
      assert ps[..k] == [ps[0]] + tail[..k - 1];
      assert ps[k + 1..] == tail[k..];
    }
  }

  /** Filtering out an id nobody holds keeps every seat. */
  lemma {:induction false} WithoutAbsentId(ps: seq<Player>, id: string)
    requires forall j :: 0 <= j < |ps| ==> ps[j].id != id
    ensures WithoutId(ps, id) == ps
  {
    if ps != [] {
      WithoutAbsentId(ps[1..], id);
      assert ps == [ps[0]] + ps[1..];
    }
  }

  /**
   * Fold skips a player: after seat k folds, the player who was at k + 1 moves
   * into seat k, and the turn passes to seat (k + 1) mod the new length, which
   * is not k while two or more remain.
   */
  lemma FoldSkipsSuccessor(ps: seq<Player>, k: nat)
    requires DistinctIds(ps) && k + 1 < |ps|
    ensures var r := WithoutId(ps, ps[k].id);
      |r| == |ps| - 1 && r[k] == ps[k + 1] && (|r| >= 2 ==> (k + 1) % |r| != k)
  {
    WithoutIdRemovesSeat(ps, k);
    var r := WithoutId(ps, ps[k].id);
    assert |r| == |ps| - 1;
    if |r| >= 2 {
      NextSeatDiffers(|r|, k);
    }
  }

  /** Moving on by one seat among two or more lands on another seat. */
  lemma NextSeatDiffers(n: nat, k: nat)
    requires k < n && n >= 2
    ensures (k + 1) % n != k
  {
    if k + 1 < n {
      assert (k + 1) % n == k + 1;
    } else {
      assert (k + 1) % n == 0;
    }
  }

  /**
   * compareCards keeps the index: when the last seat k = |ps| - 1 compares and
   * anybody is eliminated, the index is left equal to the new length, so it
   * names no active player.
   */
  lemma StaleIndexAfterCompare(ps: seq<Player>, k: nat, loser: nat)
    requires DistinctIds(ps) && k + 1 == |ps| && loser < |ps|
    ensures k == |WithoutId(ps, ps[loser].id)|
  {
    WithoutIdRemovesSeat(ps, loser);
  }

  // ---------------------------------------------------------------------
  // The comparison rule compareCards applies
  // ---------------------------------------------------------------------

  /**
   * compareCards: the opponent loses when the initiator's value is greater or
   * the initiator's type is greater; otherwise, ties included, the initiator loses.
   */
  predicate OpponentLoses(e1: Evaluation, e2: Evaluation) {
    e1.value > e2.value || e1.handType > e2.handType
  }

  /**
   * The rule differs from the (type, value) order exactly when the initiator
   * holds the weaker category but the larger value.
   */
  lemma OpponentLosesVersusBeats(e1: Evaluation, e2: Evaluation)
    ensures OpponentLoses(e1, e2) <==> Beats(e1, e2) || (e1.handType < e2.handType && e1.value > e2.value)
  {
  }

  /** When either hand is a straight flush or a leopard, the rule agrees with the (type, value) order. */
  lemma OpponentLosesAgreesAtTop(h1: seq<Card>, h2: seq<Card>)
    requires |h1| == 3 && |h2| == 3 && InRange(ShapeOf(h1)) && InRange(ShapeOf(h2))
    requires EvaluateHand(h1).handType >= StraightFlush || EvaluateHand(h2).handType >= StraightFlush
    ensures OpponentLoses(EvaluateHand(h1), EvaluateHand(h2)) <==> Beats(EvaluateHand(h1), EvaluateHand(h2))
  {
    ValueBands(h1);
    ValueBands(h2);
  }

  /** Ace-king-jack of mixed suits. */
  function AceKingJack(): seq<Card> {
    [Card(Spades, "A", 14), Card(Hearts, "K", 13), Card(Clubs, "J", 11)]
  }

  /** Four-five-six of mixed suits. */
  function FourFiveSix(): seq<Card> {
    [Card(Spades, "6", 6), Card(Hearts, "5", 5), Card(Clubs, "4", 4)]
  }

  /** Ace-king-jack is a high card worth 1541. */
  lemma AceKingJackRanks()
    ensures Category(ShapeOf(AceKingJack())) == HighCard && Tiebreak(ShapeOf(AceKingJack())) == 1541
  {
    assert ShapeOf(AceKingJack()) == Shape(14, 13, 11, false);
  }

  /** Four-five-six is a straight worth 600. */
  lemma FourFiveSixRanks()
    ensures Category(ShapeOf(FourFiveSix())) == Straight && Tiebreak(ShapeOf(FourFiveSix())) == 600
  {
    assert ShapeOf(FourFiveSix()) == Shape(6, 5, 4, false);
  }

  /**
   * compareHands ranks the straight 4-5-6 above the high card A-K-J, yet
   * under compareCards whoever starts the comparison wins, in either seating.
   */
  lemma InitiatorAlwaysWins()
    ensures EvaluateHand(AceKingJack()).handType == HighCard && EvaluateHand(AceKingJack()).value == 1541
    ensures EvaluateHand(FourFiveSix()).handType == Straight && EvaluateHand(FourFiveSix()).value == 600
    ensures CompareHands(FourFiveSix(), AceKingJack()) == 1
    ensures OpponentLoses(EvaluateHand(AceKingJack()), EvaluateHand(FourFiveSix()))
    ensures OpponentLoses(EvaluateHand(FourFiveSix()), EvaluateHand(AceKingJack()))
  {
    AceKingJackRanks();
    FourFiveSixRanks();
    EvaluateHandRanks(AceKingJack());
    EvaluateHandRanks(FourFiveSix());
    CompareHandsOrder(FourFiveSix(), AceKingJack());
  }

  // ---------------------------------------------------------------------
  // Chip totals
  // ---------------------------------------------------------------------

  function Total(xs: seq<int>): int {
    if xs == [] then 0 else xs[0] + Total(xs[1..])
  }

  /** Taking d from one entry lowers the total by exactly d. */
  lemma {:induction false} TotalAfterCharge(xs: seq<int>, k: nat, d: int)
    requires k < |xs|
    ensures Total(xs[k := xs[k] - d]) == Total(xs) - d
  {
    if k > 0 {
      TotalAfterCharge(xs[1..], k - 1, d);
      assert xs[k := xs[k] - d][1..] == xs[1..][k - 1 := xs[k] - d];
    }
  }

  /** The chips of each seat, in order. */
  function ChipCounts(ps: seq<Player>): (cs: seq<int>)
    reads ps
    ensures |cs| == |ps| && forall i :: 0 <= i < |ps| ==> cs[i] == ps[i].chips
  {
    if ps == [] then [] else [ps[0].chips] + ChipCounts(ps[1..])
  }

  /** Every seat holds a hand of three cards. */
  predicate AllDealt(ps: seq<Player>)
    reads ps
  {
    forall i :: 0 <= i < |ps| ==> |ps[i].cards| == 3
  }

  /** What endGame reads of a seat before evaluating its hand. */
  datatype Seat = Seat(id: string, name: string, cards: seq<Card>, chips: int, folded: bool)

  /** The seats of `ps` as values, in order. */
  function Seats(ps: seq<Player>): (ss: seq<Seat>)
    reads ps
  {
    seq(|ps|, i reads ps requires 0 <= i < |ps| => Seat(ps[i].id, ps[i].name, ps[i].cards, ps[i].chips, ps[i].folded))
  }

  /** Every seat holds a hand of three cards. */
  predicate Dealt3(ss: seq<Seat>) {
    forall i :: 0 <= i < |ss| ==> |ss[i].cards| == 3
  }

  /** The results table of endGame, one line per seat, each hand evaluated. */
  function Results(ss: seq<Seat>): (rs: seq<PlayerResult>)
    requires Dealt3(ss)
  {
    seq(|ss|, i requires 0 <= i < |ss| => PlayerResult(ss[i].id, ss[i].name, ss[i].cards, EvaluateHand(ss[i].cards), ss[i].chips, ss[i].folded))
  }

  /**
   * The results table has one line per seat, in seat order, showing the
   * seat's id, name, cards, chips and folded flag, and its hand evaluated to
   * the category and tiebreak of the rules.
   */
  lemma ResultsRevealHands(ss: seq<Seat>)
    requires Dealt3(ss)
    ensures |Results(ss)| == |ss|
    ensures forall i :: 0 <= i < |ss| ==>
      var line := Results(ss)[i];
      line.id == ss[i].id && line.name == ss[i].name && line.cards == ss[i].cards &&
      line.chips == ss[i].chips && line.folded == ss[i].folded &&
      line.handType.handType == Category(ShapeOf(ss[i].cards)) && line.handType.value == Tiebreak(ShapeOf(ss[i].cards))
  {
    forall i | 0 <= i < |ss|
      ensures Results(ss)[i].handType.handType == Category(ShapeOf(ss[i].cards))
      ensures Results(ss)[i].handType.value == Tiebreak(ShapeOf(ss[i].cards))
    {
      EvaluateHandRanks(ss[i].cards);
    }
  }

  /** Hands dealt from a shuffled full deck hold valid cards, and no card twice. */
  lemma DealtFromFullDeck(deck: seq<Card>, n: nat)
    requires multiset(deck) == multiset(FullDeck()) && 3 * n <= |deck|
    ensures forall j, x :: 0 <= j < n && 0 <= x < 3 ==> ValidCard(Dealt(deck, n, j)[x])
    ensures forall j, k, x, y :: 0 <= j < n && 0 <= k < n && 0 <= x < 3 && 0 <= y < 3 && (j != k || x != y) ==>
      Dealt(deck, n, j)[x] != Dealt(deck, n, k)[y]
  {
    FullDeckDistinct();
    DistinctPermutation(FullDeck(), deck);
    DealtCardsDistinct(deck, n);
    forall j, x | 0 <= j < n && 0 <= x < 3 ensures ValidCard(Dealt(deck, n, j)[x]) {
      var c := Dealt(deck, n, j)[x];
      assert c in deck;
      assert c in multiset(FullDeck());
      FullDeckContents(c);
    }
  }

  /** Removing one entry of a distinct sequence leaves it distinct. */
  lemma SpliceDistinct<T>(s: seq<T>, k: nat)
    requires Distinct(s) && k < |s|
    ensures Distinct(s[..k] + s[k + 1..])
  {
    var t := s[..k] + s[k + 1..];
    forall i, j | 0 <= i < j < |t| ensures t[i] != t[j] {
      var i' := if i < k then i else i + 1;
      var j' := if j < k then j else j + 1;
      assert t[i] == s[i'] && t[j] == s[j'];
    }
  }

  // ---------------------------------------------------------------------
  // The room
  // ---------------------------------------------------------------------

  class Room {
    const id: string
    const name: string
    var creator: string
    var players: seq<Player>
    var status: Status
    var pot: int
    var currentBet: int
    /** Still in the hand, in seat order; a copy of `players` taken when the game starts. */
    var activePlayers: seq<Player>
    var currentPlayerIndex: nat

    /** At most six seats, no player object seated twice. */
    ghost predicate Valid()
      reads this
    {
      |players| <= MaxPlayers && Distinct(players)
    }

    /** A new room: no seats, waiting, an empty pot and the opening bet of 10. */
    constructor (id: string, name: string, creator: string)
      ensures Valid()
      ensures this.id == id && this.name == name && this.creator == creator
      ensures players == [] && status == Waiting && pot == 0 && currentBet == Ante
      ensures activePlayers == [] && currentPlayerIndex == 0
    {
      this.id := id;
      this.name := name;
      this.creator := creator;
      players := [];
      status := Waiting;
      pot := 0;
      currentBet := Ante;
      activePlayers := [];
      currentPlayerIndex := 0;
    }

    /** addPlayer: a full room refuses first, a started game next; otherwise one new seat at the end. */
    method AddPlayer(playerId: string, playerName: string) returns (r: AddResult)
      requires Valid()
      modifies this
      ensures Valid()
      ensures old(|players|) >= MaxPlayers ==> r == Full && unchanged(this)
      ensures old(|players|) < MaxPlayers && old(status) != Waiting ==> r == AlreadyStarted && unchanged(this)
      ensures old(|players|) < MaxPlayers && old(status) == Waiting ==>
        r.Added? && fresh(r.player) && players == old(players) + [r.player] &&
        r.player.id == playerId && r.player.name == playerName && r.player.chips == BaseChips &&
        r.player.cards == [] && r.player.bet == 0 &&
        !r.player.hasSeenCards && !r.player.folded && !r.player.isReady
      ensures creator == old(creator) && status == old(status) && pot == old(pot) && currentBet == old(currentBet)
      ensures activePlayers == old(activePlayers) && currentPlayerIndex == old(currentPlayerIndex)
    {
      if |players| >= MaxPlayers {
        return Full;
      }
      if status != Waiting {
        return AlreadyStarted;
      }
      var player := new Player(playerId, playerName, BaseChips);
      players := players + [player];
      r := Added(player);
    }

    /**
     * removePlayer: deletes the first seat with that id and keeps the others
     * in order; a departing creator hands over to the new first seat. The
     * active list is left as it was.
     */
    method RemovePlayer(playerId: string) returns (removed: bool)
      requires Valid()
      modifies this
      ensures Valid()
      ensures removed <==> old(FindPlayer(players, playerId)).Some?
      ensures !removed ==> unchanged(this)
      ensures removed ==>
        var k := old(FindPlayer(players, playerId)).value;
        players == old(players[..k] + players[k + 1..]) &&
        creator == (if old(creator) == playerId && |players| > 0 then players[0].id else old(creator))
      ensures status == old(status) && pot == old(pot) && currentBet == old(currentBet)
      ensures activePlayers == old(activePlayers) && currentPlayerIndex == old(currentPlayerIndex)
    {
      var found := FindPlayer(players, playerId);
      if found.None? {
        return false;
      }
      var k := found.value;
      SpliceDistinct(players, k);
      players := players[..k] + players[k + 1..];
      if creator == playerId && |players| > 0 {
        creator := players[0].id;
      }
      removed := true;
    }

    /** setPlayerReady: sets the flag of the first seat with that id, if there is one. */
    method SetPlayerReady(playerId: string, ready: bool) returns (ok: bool)
      requires Valid()
      modifies players
      ensures Valid()
      ensures ok <==> FindPlayer(players, playerId).Some?
      ensures ok ==> players[FindPlayer(players, playerId).value].isReady == ready
      ensures forall i :: 0 <= i < |players| && Some(i) != FindPlayer(players, playerId) ==> unchanged(players[i])
      ensures ok ==> var p := players[FindPlayer(players, playerId).value];
        p.chips == old(p.chips) && p.cards == old(p.cards) && p.bet == old(p.bet) &&
        p.hasSeenCards == old(p.hasSeenCards) && p.folded == old(p.folded)
    {
      var found := FindPlayer(players, playerId);
      if found.None? {
        return false;
      }
      players[found.value].isReady := ready;
      ok := true;
    }

    /** canStartGame: two or more seats, all ready, and the room waiting. */
    predicate CanStartGame()
      reads this, players
    {
      |players| >= MinPlayers && (forall i :: 0 <= i < |players| ==> players[i].isReady) && status == Waiting
    }

    /**
     * startGame: unless the room can start, nothing changes. Otherwise every
     * seat is cleared, pays the ante of 10 even when that leaves it below zero,
     * and is dealt three cards from a shuffled full deck; every seat becomes
     * active and the first seat moves first. `picks` stands for the random
     * draws of the shuffle, and `deck` for the shuffled deck.
     */
    method StartGame(picks: seq<nat>) returns (r: StartResult, ghost deck: seq<Card>)
      requires Valid() && ValidPicks(picks, 52)
      modifies this, players
      ensures Valid()
      ensures !old(CanStartGame()) ==> r == CannotStart && unchanged(this) && unchanged(old(players))
      ensures old(CanStartGame()) ==>
        players == old(players) && creator == old(creator) &&
        status == Playing && currentBet == Ante && pot == |players| * Ante &&
        activePlayers == players && currentPlayerIndex == 0 &&
        r == Started(pot, Ante, players[0].id) &&
        multiset(deck) == multiset(FullDeck()) && 3 * |players| <= |deck| &&
        forall i :: 0 <= i < |players| ==>
          players[i].chips == old(players[i].chips) - Ante && players[i].bet == Ante &&
          !players[i].hasSeenCards && !players[i].folded && players[i].isReady &&
          players[i].cards == Dealt(deck, |players|, i)
      ensures old(CanStartGame()) ==>
        AllDealt(players) &&
        (forall i, x :: 0 <= i < |players| && 0 <= x < 3 ==> ValidCard(players[i].cards[x])) &&
        (forall i, j, x, y :: 0 <= i < |players| && 0 <= j < |players| && 0 <= x < 3 && 0 <= y < 3 && (i != j || x != y) ==>
          players[i].cards[x] != players[j].cards[y])
    {
      deck := [];
      if !CanStartGame() {
        return CannotStart, deck;
      }
      var n := |players|;
      status := Playing;
      pot := 0;
      currentBet := Ante;
      ClearSeats();
      CollectAnte();
      var created := CreateDeck();
      var shuffled := ShuffleDeck(created, picks);
      var hands, rest := DealCards(shuffled, n);
      deck := shuffled;
      SeatHands(hands);
      activePlayers := players;
      currentPlayerIndex := 0;
      r := Started(pot, currentBet, activePlayers[currentPlayerIndex].id);
      DealtFromFullDeck(deck, n);
    }

    /** The first pass of startGame: every seat's bet, flags and cards are cleared. */
    method ClearSeats()
      requires Distinct(players)
      modifies players
      ensures forall k :: 0 <= k < |players| ==>
        players[k].bet == 0 && !players[k].hasSeenCards && !players[k].folded && players[k].cards == [] &&
        players[k].chips == old(players[k].chips) && players[k].isReady == old(players[k].isReady)
    {
      for i := 0 to |players|
        invariant forall k :: 0 <= k < i ==>
          players[k].bet == 0 && !players[k].hasSeenCards && !players[k].folded && players[k].cards == []
        invariant forall k :: 0 <= k < |players| ==>
          players[k].chips == old(players[k].chips) && players[k].isReady == old(players[k].isReady)
      {
        players[i].bet := 0;
        players[i].hasSeenCards := false;
        players[i].folded := false;
        players[i].cards := [];
      }
    }

    /**
     * The second pass of startGame: every seat pays the ante into the pot and
     * bets it. Nothing checks that the seat can afford it.
     */
    method CollectAnte()
      requires Distinct(players)
      modifies this, players
      ensures players == old(players) && creator == old(creator) && status == old(status)
      ensures currentBet == old(currentBet) && activePlayers == old(activePlayers) && currentPlayerIndex == old(currentPlayerIndex)
      ensures pot == old(pot) + |players| * Ante
      ensures forall k :: 0 <= k < |players| ==>
        players[k].chips == old(players[k].chips) - Ante && players[k].bet == Ante &&
        players[k].hasSeenCards == old(players[k].hasSeenCards) && players[k].folded == old(players[k].folded) &&
        players[k].cards == old(players[k].cards) && players[k].isReady == old(players[k].isReady)
    {
      for i := 0 to |players|
        invariant players == old(players) && creator == old(creator) && status == old(status)
        invariant currentBet == old(currentBet) && activePlayers == old(activePlayers) && currentPlayerIndex == old(currentPlayerIndex)
        invariant pot == old(pot) + i * Ante
        invariant forall k :: 0 <= k < i ==> players[k].chips == old(players[k].chips) - Ante && players[k].bet == Ante
        invariant forall k :: i <= k < |players| ==> players[k].chips == old(players[k].chips)
        invariant forall k :: 0 <= k < |players| ==>
          players[k].hasSeenCards == old(players[k].hasSeenCards) && players[k].folded == old(players[k].folded) &&
          players[k].cards == old(players[k].cards) && players[k].isReady == old(players[k].isReady)
      {
        players[i].chips := players[i].chips - Ante;
        players[i].bet := Ante;
        pot := pot + Ante;
      }
    }

    /** The third pass of startGame: seat k receives hand k. */
    method SeatHands(hands: seq<seq<Card>>)
      requires Distinct(players) && |hands| == |players|
      modifies players
      ensures forall k :: 0 <= k < |players| ==>
        players[k].cards == hands[k] &&
        players[k].chips == old(players[k].chips) && players[k].bet == old(players[k].bet) &&
        players[k].hasSeenCards == old(players[k].hasSeenCards) && players[k].folded == old(players[k].folded) &&
        players[k].isReady == old(players[k].isReady)
    {
      for i := 0 to |players|
        invariant forall k :: 0 <= k < i ==> players[k].cards == hands[k]
        invariant forall k :: 0 <= k < |players| ==>
          players[k].chips == old(players[k].chips) && players[k].bet == old(players[k].bet) &&
          players[k].hasSeenCards == old(players[k].hasSeenCards) && players[k].folded == old(players[k].folded) &&
          players[k].isReady == old(players[k].isReady)
      {
        players[i].cards := hands[i];
      }
    }

    /** The seat whose turn the index names, when it names one. */
    predicate IsTurnOf(playerId: string)
      reads this
    {
      FindPlayer(players, playerId).Some? &&
      currentPlayerIndex < |activePlayers| && activePlayers[currentPlayerIndex].id == playerId
    }

    /** The seat playerAction acts on: the first seat of `players` with that id. */
    function Actor(playerId: string): Player
      reads this
      requires FindPlayer(players, playerId).Some?
    {
      players[FindPlayer(players, playerId).value]
    }

    /** The tail of see, fold, call and raise: the turn passes to the next active seat. */
    twostate predicate Advanced(r: ActionResult)
      reads this
    {
      if |activePlayers| == 0 then
        currentPlayerIndex == 0 && r == Crashed
      else
        currentPlayerIndex == (old(currentPlayerIndex) + 1) % |activePlayers| &&
        r == Acted(activePlayers[currentPlayerIndex].id, pot, currentBet)
    }

    /**
     * endGame from w's side: w collects the pot, which stays where it is; the
     * game is finished and every seat's hand revealed, unless a seat holds
     * no cards, where the evaluation fails after the payout.
     */
    twostate predicate PaidOut(w: Player, r: ActionResult)
      reads this, players, w
    {
      w.chips == old(w.chips) + pot &&
      if AllDealt(players) then
        status == Finished && r == GameOver(w.id, w.name, pot, Results(Seats(players)))
      else
        status == old(status) && r == Crashed
    }

    /**
     * compareCards from p1 (the actor) against p2: with both hands present the
     * loser under OpponentLoses is eliminated (see Eliminated) and the winner
     * stays as it was folded; ties go against p1.
     */
    twostate predicate ComparedOutcome(p1: Player, p2: Player, r: ActionResult)
      reads this, players, activePlayers, p1, p2
    {
      if old(|p1.cards|) != 3 || old(|p2.cards|) != 3 then
        r == Crashed && status == old(status) && activePlayers == old(activePlayers) &&
        p1.folded == old(p1.folded) && p2.folded == old(p2.folded)
      else
        var loser := if OpponentLoses(EvaluateHand(old(p1.cards)), EvaluateHand(old(p2.cards))) then p2 else p1;
        Eliminated(loser, p1, p2, r) &&
        (p1 == loser || p1.folded == old(p1.folded)) && (p2 == loser || p2.folded == old(p2.folded))
    }

    /**
     * The second half of compareCards: the loser is folded and filtered out of
     * the active seats, and the index is kept. The last one standing wins the
     * game; otherwise the reply names winner, loser and the seat the index
     * names modulo the new length.
     */
    twostate predicate Eliminated(loser: Player, p1: Player, p2: Player, r: ActionResult)
      reads this, players, activePlayers, loser
    {
      loser.folded && activePlayers == WithoutId(old(activePlayers), loser.id) &&
      if |activePlayers| == 1 then
        PaidOut(activePlayers[0], r)
      else if |activePlayers| == 0 then
        status == old(status) && r == Crashed
      else
        status == old(status) &&
        r == Compared(if loser.id == p1.id then p2.id else p1.id, loser.id,
                      activePlayers[currentPlayerIndex % |activePlayers|].id)
    }

    /** endGame: the first active seat collects the pot; see PaidOut. */
    method EndGame() returns (r: ActionResult)
      requires Valid()
      modifies this, FirstSeat(activePlayers)
      ensures Valid()
      ensures players == old(players) && activePlayers == old(activePlayers) && creator == old(creator)
      ensures pot == old(pot) && currentBet == old(currentBet) && currentPlayerIndex == old(currentPlayerIndex)
      ensures |activePlayers| == 0 ==> r == Crashed && status == old(status)
      ensures |activePlayers| > 0 ==> PaidOut(activePlayers[0], r)
      ensures !r.Rejected()
      ensures |activePlayers| > 0 ==> var w := activePlayers[0];
        w.cards == old(w.cards) && w.bet == old(w.bet) && w.hasSeenCards == old(w.hasSeenCards) &&
        w.folded == old(w.folded) && w.isReady == old(w.isReady)
    {
      if |activePlayers| == 0 {
        return Crashed;
      }
      var winner := activePlayers[0];
      winner.chips := winner.chips + pot;
      if !AllDealt(players) {
        return Crashed;
      }
      status := Finished;
      var results := Results(Seats(players));
      r := GameOver(winner.id, winner.name, pot, results);
    }

    /** compareCards: see ComparedOutcome; chips, pot and the bet move only through endGame. */
    method CompareCards(p1: Player, p2: Player) returns (r: ActionResult)
      requires Valid()
      modifies this, p1, p2, LoneSurvivor(WithoutId(activePlayers, p1.id)), LoneSurvivor(WithoutId(activePlayers, p2.id))
      ensures Valid()
      ensures players == old(players) && creator == old(creator)
      ensures pot == old(pot) && currentBet == old(currentBet) && currentPlayerIndex == old(currentPlayerIndex)
      ensures ComparedOutcome(p1, p2, r) && !r.Rejected()
      ensures HandKept(p1) && HandKept(p2)
      ensures |activePlayers| == 1 ==> var w := activePlayers[0];
        w.cards == old(w.cards) && w.bet == old(w.bet) && w.hasSeenCards == old(w.hasSeenCards) &&
        w.folded == old(w.folded) && w.isReady == old(w.isReady)
    {
      if |p1.cards| != 3 || |p2.cards| != 3 {
        return Crashed;
      }
      var eval1 := EvaluateHand(p1.cards);
      var eval2 := EvaluateHand(p2.cards);
      var loser := if eval1.value > eval2.value || eval1.handType > eval2.handType then p2 else p1;
      r := Eliminate(loser, p1, p2);
    }

    /** The second half of compareCards; see Eliminated. */
    method Eliminate(loser: Player, p1: Player, p2: Player) returns (r: ActionResult)
      requires Valid() && (loser == p1 || loser == p2)
      modifies this, loser, LoneSurvivor(WithoutId(activePlayers, loser.id))
      ensures Valid()
      ensures players == old(players) && creator == old(creator)
      ensures pot == old(pot) && currentBet == old(currentBet) && currentPlayerIndex == old(currentPlayerIndex)
      ensures Eliminated(loser, p1, p2, r) && !r.Rejected()
      ensures loser.cards == old(loser.cards) && loser.chips == old(loser.chips) && loser.bet == old(loser.bet) &&
        loser.hasSeenCards == old(loser.hasSeenCards) && loser.isReady == old(loser.isReady)
      ensures |activePlayers| == 1 ==> var w := activePlayers[0];
        w.cards == old(w.cards) && w.bet == old(w.bet) && w.hasSeenCards == old(w.hasSeenCards) &&
        w.folded == old(w.folded) && w.isReady == old(w.isReady)
    {
      loser.folded := true;
      activePlayers := WithoutId(activePlayers, loser.id);
      if |activePlayers| == 1 {
        r := EndGame();
        return;
      }
      if |activePlayers| == 0 {
        return Crashed;
      }
      var winner := if loser.id == p1.id then p2.id else p1.id;
      r := Compared(winner, loser.id, activePlayers[currentPlayerIndex % |activePlayers|].id);
    }

    /**
     * Seat p pays d into the pot, which raises its bet by d; nothing else about
     * the seat or the room moves.
     */
    twostate predicate Charged(p: Player, d: int)
      reads this, p
    {
      p.chips == old(p.chips) - d && p.bet == old(p.bet) + d && pot == old(pot) + d &&
      p.cards == old(p.cards) && p.hasSeenCards == old(p.hasSeenCards) && p.folded == old(p.folded) &&
      p.isReady == old(p.isReady) && status == old(status) && activePlayers == old(activePlayers)
    }

    /** see: the seat's cards are marked as seen and the turn passes on. */
    twostate predicate Saw(p: Player, r: ActionResult)
      reads this, p
    {
      p.hasSeenCards && p.chips == old(p.chips) && p.bet == old(p.bet) && p.cards == old(p.cards) &&
      p.folded == old(p.folded) && p.isReady == old(p.isReady) &&
      pot == old(pot) && currentBet == old(currentBet) && status == old(status) &&
      activePlayers == old(activePlayers) && Advanced(r)
    }

    /**
     * call: the seat owes the difference between the room's bet and its own.
     * Short of that it is refused; otherwise it pays exactly that, so its bet
     * meets the room's, and the turn passes on.
     */
    twostate predicate Called(p: Player, r: ActionResult)
      reads this, p
    {
      var owed := old(currentBet - p.bet);
      if old(p.chips) < owed then
        r == NotEnoughChips
      else
        Charged(p, owed) && currentBet == old(currentBet) && p.bet == currentBet && Advanced(r)
    }

    /**
     * raise: the raise is `amount`, or the room's bet when `amount` is 0; the
     * seat pays what it owes plus the raise, the room's bet grows by the raise
     * and the seat's bet meets it. Short of the whole sum it is refused.
     */
    twostate predicate Raised(p: Player, amount: int, r: ActionResult)
      reads this, p
    {
      var raise := if amount != 0 then amount else old(currentBet);
      var total := old(currentBet - p.bet) + raise;
      if old(p.chips) < total then
        r == NotEnoughChips
      else
        Charged(p, total) && currentBet == old(currentBet) + raise && p.bet == currentBet && Advanced(r)
    }

    /**
     * fold: the seat is folded and every active seat with its id leaves the
     * hand. With one seat left the game ends and the index stays; otherwise the
     * turn passes to (index + 1) mod the new length, which skips the seat that
     * moved into the folder's place.
     */
    twostate predicate Folded(p: Player, r: ActionResult)
      reads this, players, activePlayers, p
    {
      p.folded && p.cards == old(p.cards) && p.chips == old(p.chips) && p.bet == old(p.bet) &&
      p.hasSeenCards == old(p.hasSeenCards) && p.isReady == old(p.isReady) &&
      activePlayers == WithoutId(old(activePlayers), p.id) && pot == old(pot) && currentBet == old(currentBet) &&
      if |activePlayers| == 1 then
        currentPlayerIndex == old(currentPlayerIndex) && PaidOut(activePlayers[0], r)
      else
        status == old(status) && Advanced(r)
    }

    /** Moves the turn on; see Advanced. */
    method Advance() returns (r: ActionResult)
      modifies this
      ensures Advanced(r) && !r.Rejected()
      ensures players == old(players) && creator == old(creator) && status == old(status)
      ensures pot == old(pot) && currentBet == old(currentBet) && activePlayers == old(activePlayers)
    {
      if |activePlayers| == 0 {
        currentPlayerIndex := 0;
        return Crashed;
      }
      currentPlayerIndex := (currentPlayerIndex + 1) % |activePlayers|;
      r := Acted(activePlayers[currentPlayerIndex].id, pot, currentBet);
    }

    /** The see branch of playerAction. */
    method SeeHand(p: Player) returns (r: ActionResult)
      modifies this, p
      ensures Saw(p, r) && !r.Rejected()
      ensures players == old(players) && creator == old(creator)
      ensures Total(ChipCounts(players)) + pot == old(Total(ChipCounts(players)) + pot)
    {
      ghost var before := ChipCounts(players);
      p.hasSeenCards := true;
      r := Advance();
      assert ChipCounts(players) == before;
    }

    /** Moves d chips from seat k into the pot; the sum of chips and pot stays the same. */
    method Charge(k: nat, d: int)
      requires Valid() && k < |players|
      modifies this, players[k]
      ensures players == old(players) && creator == old(creator) && currentBet == old(currentBet)
      ensures Charged(players[k], d)
      ensures currentPlayerIndex == old(currentPlayerIndex)
      ensures Total(ChipCounts(players)) + pot == old(Total(ChipCounts(players)) + pot)
    {
      var p := players[k];
      ghost var before := ChipCounts(players);
      p.chips := p.chips - d;
      p.bet := p.bet + d;
      pot := pot + d;
      ghost var after := ChipCounts(players);
      forall i | 0 <= i < |players| && i != k
        ensures after[i] == before[i]
      {
        assert players[i] != p;
      }
      assert after == before[k := before[k] - d];
      TotalAfterCharge(before, k, d);
    }

    /** The call branch of playerAction for seat k. */
    method CallBet(k: nat) returns (r: ActionResult)
      requires Valid() && k < |players|
      modifies this, players[k]
      ensures players == old(players) && creator == old(creator)
      ensures Called(players[k], r) && (r.Rejected() ==> r == NotEnoughChips && unchanged(this) && unchanged(players[k]))
      ensures Total(ChipCounts(players)) + pot == old(Total(ChipCounts(players)) + pot)
    {
      var p := players[k];
      var owed := currentBet - p.bet;
      if p.chips < owed {
        return NotEnoughChips;
      }
      Charge(k, owed);
      r := Advance();
    }

    /** The raise branch of playerAction for seat k. */
    method RaiseBet(k: nat, amount: int) returns (r: ActionResult)
      requires Valid() && k < |players|
      modifies this, players[k]
      ensures players == old(players) && creator == old(creator)
      ensures Raised(players[k], amount, r) && (r.Rejected() ==> r == NotEnoughChips && unchanged(this) && unchanged(players[k]))
      ensures Total(ChipCounts(players)) + pot == old(Total(ChipCounts(players)) + pot)
    {
      var p := players[k];
      var raise := if amount != 0 then amount else currentBet;
      var total := currentBet - p.bet + raise;
      if p.chips < total {
        return NotEnoughChips;
      }
      Charge(k, total);
      currentBet := currentBet + raise;
      r := Advance();
    }

    /** The fold branch of playerAction. */
    method FoldHand(p: Player) returns (r: ActionResult)
      requires Valid()
      modifies this, p, LoneSurvivor(WithoutId(activePlayers, p.id))
      ensures Valid() && Folded(p, r) && !r.Rejected()
      ensures players == old(players) && creator == old(creator)
      ensures |activePlayers| == 1 ==> var w := activePlayers[0];
        w.cards == old(w.cards) && w.bet == old(w.bet) && w.hasSeenCards == old(w.hasSeenCards) &&
        w.folded == old(w.folded) && w.isReady == old(w.isReady)
    {
      p.folded := true;
      activePlayers := WithoutId(activePlayers, p.id);
      if |activePlayers| == 1 {
        r := EndGame();
        return;
      }
      r := Advance();
    }

    /**
     * playerAction: only the seat the index names may act, and a folded seat
     * may not; a refusal changes nothing. Otherwise the action is carried out
     * by Act.
     */
    method PlayerAction(playerId: string, action: Action, amount: int) returns (r: ActionResult)
      requires Valid()
      modifies this, if IsTurnOf(playerId) then Touched(Actor(playerId), action) else {}
      ensures Valid() && players == old(players) && creator == old(creator)
      ensures r == NotYourTurn <==> !old(IsTurnOf(playerId))
      ensures r.Rejected() ==> unchanged(this) && unchanged(players) && unchanged(old(activePlayers))
      ensures old(IsTurnOf(playerId)) ==> (r == AlreadyFolded <==> old(Actor(playerId).folded))
      ensures old(IsTurnOf(playerId)) && !old(Actor(playerId).folded) ==> Performed(old(Actor(playerId)), old(Opponent()), action, amount, r)
      ensures (action == Fold || action == Compare) && |activePlayers| == 1 ==> var w := activePlayers[0];
        w.cards == old(w.cards) && w.bet == old(w.bet) && w.hasSeenCards == old(w.hasSeenCards) &&
        w.folded == old(w.folded) && w.isReady == old(w.isReady)
      ensures action != Fold && action != Compare ==>
        Total(ChipCounts(players)) + pot == old(Total(ChipCounts(players)) + pot)
    {
      var found := FindPlayer(players, playerId);
      if found.None? || currentPlayerIndex >= |activePlayers| || activePlayers[currentPlayerIndex].id != playerId {
        return NotYourTurn;
      }
      var k := found.value;
      if players[k].folded {
        return AlreadyFolded;
      }
      r := Act(k, action, amount);
    }

    /**
     * What an action of seat `p` did: see, fold, call and raise behave as
     * Saw, Folded, Called and Raised state; compare is refused without a
     * second active seat, its opponent is the next active seat, and it leaves
     * the pot, the current bet, the index and both hands as they were.
     */
    twostate predicate Performed(p: Player, opponent: Option<Player>, action: Action, amount: int, r: ActionResult)
      reads this, players, activePlayers, p, if opponent.Some? then {opponent.value} else {}
    {
      match action
      case See => Saw(p, r)
      case Fold => Folded(p, r)
      case Call => Called(p, r)
      case Raise => Raised(p, amount, r)
      case Compare =>
        if opponent.None? then r == NoOpponent
        else
          ComparedOutcome(p, opponent.value, r) && pot == old(pot) && currentBet == old(currentBet) &&
          currentPlayerIndex == old(currentPlayerIndex) && HandKept(p) && HandKept(opponent.value)
      case Other => r == UnknownAction
    }

    /**
     * A compared seat keeps its cards, bet and the seen and ready flags; its
     * chips move only when it is left alone and collects the pot.
     */
    twostate predicate HandKept(q: Player)
      reads this, q
    {
      q.cards == old(q.cards) && q.bet == old(q.bet) && q.hasSeenCards == old(q.hasSeenCards) && q.isReady == old(q.isReady) &&
      (q.chips == old(q.chips) || (|activePlayers| == 1 && q == activePlayers[0]))
    }

    /** compare's opponent: the next active seat, when there are two. */
    function Opponent(): (o: Option<Player>)
      reads this
      ensures o.Some? <==> |activePlayers| >= 2
      ensures o.Some? ==> o.value in activePlayers
    {
      if |activePlayers| < 2 then None else Some(activePlayers[(currentPlayerIndex + 1) % |activePlayers|])
    }

    /**
     * The seats an action of seat `p` may change: `p` itself; for fold, the
     * seat left alone, which collects the pot; for compare, the opponent and
     * whichever seat is left alone.
     */
    function Touched(p: Player, action: Action): set<Player>
      reads this
    {
      {p} +
      match action
      case Fold => LoneSurvivor(WithoutId(activePlayers, p.id))
      case Compare =>
        if |activePlayers| < 2 then {}
        else
          var q := Opponent().value;
          {q} + LoneSurvivor(WithoutId(activePlayers, p.id)) + LoneSurvivor(WithoutId(activePlayers, q.id))
      case _ => {}
    }

    /** The switch of playerAction, for seat `k`. */
    method Act(k: nat, action: Action, amount: int) returns (r: ActionResult)
      requires Valid() && k < |players|
      modifies this, Touched(players[k], action)
      ensures Valid() && players == old(players) && creator == old(creator)
      ensures Performed(old(players[k]), old(Opponent()), action, amount, r)
      ensures r.Rejected() ==> unchanged(this) && unchanged(players) && unchanged(old(activePlayers))
      ensures (action == Fold || action == Compare) && |activePlayers| == 1 ==> var w := activePlayers[0];
        w.cards == old(w.cards) && w.bet == old(w.bet) && w.hasSeenCards == old(w.hasSeenCards) &&
        w.folded == old(w.folded) && w.isReady == old(w.isReady)
      ensures action != Fold && action != Compare ==>
        Total(ChipCounts(players)) + pot == old(Total(ChipCounts(players)) + pot)
    {
      var player := players[k];
      match action
      case See =>
        r := SeeHand(player);
      case Fold =>
        r := FoldHand(player);
      case Call =>
        r := CallBet(k);
      case Raise =>
        r := RaiseBet(k, amount);
      case Compare =>
        var opponent := Opponent();
        if opponent.None? {
          return NoOpponent;
        }
        r := CompareCards(player, opponent.value);
      case Other =>
        r := UnknownAction;
    }

    /**
     * resetGame, whatever the status: the room waits again with an empty pot
     * and the opening bet, and every seat keeps its chips but loses its bet,
     * cards and flags. The active list and the index are left as they were.
     */
    method ResetGame()
      requires Valid()
      modifies this, players
      ensures Valid() && players == old(players) && creator == old(creator)
      ensures status == Waiting && pot == 0 && currentBet == Ante
      ensures activePlayers == old(activePlayers) && currentPlayerIndex == old(currentPlayerIndex)
      ensures forall i :: 0 <= i < |players| ==>
        players[i].chips == old(players[i].chips) && players[i].bet == 0 && !players[i].hasSeenCards &&
        !players[i].folded && players[i].cards == [] && !players[i].isReady
    {
      status := Waiting;
      pot := 0;
      currentBet := Ante;
      for i := 0 to |players|
        invariant players == old(players) && creator == old(creator)
        invariant status == Waiting && pot == 0 && currentBet == Ante
        invariant activePlayers == old(activePlayers) && currentPlayerIndex == old(currentPlayerIndex)
        invariant forall k :: 0 <= k < i ==>
          players[k].bet == 0 && !players[k].hasSeenCards && !players[k].folded && players[k].cards == [] && !players[k].isReady
        invariant forall k :: 0 <= k < |players| ==> players[k].chips == old(players[k].chips)
      {
        players[i].bet := 0;
        players[i].hasSeenCards := false;
        players[i].folded := false;
        players[i].cards := [];
        players[i].isReady := false;
      }
    }

    /** getState: every public field, each seat with its card count instead of its cards. */
    function GetState(): (v: RoomView)
      reads this, players
      ensures v.id == id && v.creator == creator && v.status == status && v.pot == pot && v.currentBet == currentBet
      ensures |v.players| == |players|
      ensures forall i :: 0 <= i < |players| ==>
        v.players[i].id == players[i].id && v.players[i].chips == players[i].chips &&
        v.players[i].cardCount == |players[i].cards|
      ensures v.currentPlayer.Some? <==> currentPlayerIndex < |activePlayers|
      ensures v.currentPlayer.Some? ==> v.currentPlayer.value == activePlayers[currentPlayerIndex].id
    {
      RoomView(id, name, creator, Views(players), status, pot, currentBet,
        if currentPlayerIndex < |activePlayers| then Some(activePlayers[currentPlayerIndex].id) else None,
        MaxPlayers)
    }
  }

  /** The first seat, as a frame. */
  function FirstSeat(ps: seq<Player>): set<Player> {
    if ps == [] then {} else {ps[0]}
  }

  /** The only seat, when exactly one is left. */
  function LoneSurvivor(ps: seq<Player>): set<Player> {
    if |ps| == 1 then {ps[0]} else {}
  }

  /** The public part of each seat. */
  function Views(ps: seq<Player>): (vs: seq<PlayerView>)
    reads ps
    ensures |vs| == |ps|
    ensures forall i :: 0 <= i < |ps| ==>
      vs[i] == PlayerView(ps[i].id, ps[i].name, ps[i].chips, ps[i].bet, ps[i].hasSeenCards, ps[i].folded, ps[i].isReady, |ps[i].cards|)
  {
    if ps == [] then []
    else
      var p := ps[0];
      [PlayerView(p.id, p.name, p.chips, p.bet, p.hasSeenCards, p.folded, p.isReady, |p.cards|)] + Views(ps[1..])
  }
}
