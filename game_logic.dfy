/**
 * Deck construction, shuffling, dealing and three-card hand ranking of the
 * Zha Jin Hua engine (server/game-logic.js).
 */
module GameLogic {
  import opened Util

  // ---------------------------------------------------------------------
  // Cards
  // ---------------------------------------------------------------------

  datatype Suit = Spades | Hearts | Clubs | Diamonds

  /** A card: its suit, its rank label and the numeric rank used for ranking. */
  datatype Card = Card(suit: Suit, value: string, numValue: int)

  /** The numeric value of every rank label. */
  const CardValues: map<string, int> :=
    map["2" := 2, "3" := 3, "4" := 4, "5" := 5, "6" := 6, "7" := 7, "8" := 8,
        "9" := 9, "10" := 10, "J" := 11, "Q" := 12, "K" := 13, "A" := 14]

  const Suits: seq<Suit> := [Spades, Hearts, Clubs, Diamonds]

  /** The rank labels in the order the deck is built. */
  const Values: seq<string> := ["2", "3", "4", "5", "6", "7", "8", "9", "10", "J", "Q", "K", "A"]

  /** Hand type codes; a larger code is a stronger category. */
  const Leopard := 7
  const StraightFlush := 6
  const Flush := 5
  const Straight := 4
  const Pair := 3
  const HighCard := 2

  /** A card whose numeric rank is the one its label maps to. */
  predicate ValidCard(c: Card) {
    c.value in CardValues && c.numValue == CardValues[c.value]
  }

  lemma ValuesAreMapped()
    ensures forall v :: 0 <= v < |Values| ==> Values[v] in CardValues && CardValues[Values[v]] == v + 2
    ensures forall k :: k in CardValues <==> k in Values
  {
  }

  /** Every valid card has a rank between 2 and 14. */
  lemma ValidCardRank(c: Card)
    requires ValidCard(c)
    ensures 2 <= c.numValue <= 14
  {
  }

  /** Two different valid cards of one suit never share a rank. */
  lemma SameSuitDistinctRanks(a: Card, b: Card)
    requires ValidCard(a) && ValidCard(b)
    requires a.suit == b.suit && a != b
    ensures a.numValue != b.numValue
  {
  }

  // ---------------------------------------------------------------------
  // The deck
  // ---------------------------------------------------------------------

  /** The card createDeck builds for a suit and the v-th label: its rank is looked up by label. */
  function MakeCard(s: Suit, v: nat): (c: Card)
    requires v < |Values|
    ensures ValidCard(c) && c.numValue == v + 2
  {
    ValuesAreMapped();
    Card(s, Values[v], CardValues[Values[v]])
  }

  /** The thirteen cards of one suit, in label order. */
  function SuitRow(s: Suit): (row: seq<Card>)
    ensures |row| == |Values|
  {
    seq(|Values|, v requires 0 <= v < |Values| => MakeCard(s, v))
  }

  /** The rows of the first k suits, one after the other. */
  function Rows(k: nat): (d: seq<Card>)
    requires k <= |Suits|
    ensures |d| == 13 * k
  {
    if k == 0 then [] else Rows(k - 1) + SuitRow(Suits[k - 1])
  }

  /** The deck the source builds: suits in order, labels in order within a suit. */
  function FullDeck(): (d: seq<Card>)
    ensures |d| == 52
  {
    Rows(4)
  }

  lemma {:induction false} RowsAt(k: nat, s: nat, v: nat)
    requires s < k <= |Suits| && v < |Values|
    ensures Rows(k)[13 * s + v] == SuitRow(Suits[s])[v]
  {
    if s < k - 1 {
      RowsAt(k - 1, s, v);
    }
  }

  /** Card 13*s + v of the deck is the v-th label of the s-th suit. */
  lemma FullDeckAt(s: nat, v: nat)
    requires s < |Suits| && v < |Values|
    ensures FullDeck()[13 * s + v] == Card(Suits[s], Values[v], v + 2)
  {
    ValuesAreMapped();
    RowsAt(4, s, v);
  }

  /** The position of a suit in the order the deck is built. */
  function SuitIndex(s: Suit): (k: nat)
    ensures k < |Suits| && Suits[k] == s
  {
    match s
    case Spades => 0
    case Hearts => 1
    case Clubs => 2
    case Diamonds => 3
  }

  /** The first k rows hold valid cards of the first k suits. */
  lemma {:induction false} RowsValid(k: nat)
    requires k <= |Suits|
    ensures forall i :: 0 <= i < |Rows(k)| ==> SuitIndex(Rows(k)[i].suit) < k && ValidCard(Rows(k)[i])
  {
    if k > 0 {
      RowsValid(k - 1);
      var a, b := Rows(k - 1), SuitRow(Suits[k - 1]);
      var d: seq<Card> := a + b;
      assert Rows(k) == d;
      forall i | 0 <= i < |d| ensures SuitIndex(d[i].suit) < k && ValidCard(d[i]) {
        if i < |a| {
          assert d[i] == a[i];
        } else {
          assert d[i] == b[i - |a|];
        }
      }
    }
  }

  /** The first k rows hold no card twice. */
  lemma {:induction false} RowsDistinct(k: nat)
    requires k <= |Suits|
    ensures Distinct(Rows(k))
  {
    if k > 0 {
      RowsDistinct(k - 1);
      RowsValid(k - 1);
      var a, b := Rows(k - 1), SuitRow(Suits[k - 1]);
      var d: seq<Card> := a + b;
      assert Rows(k) == d;
      forall i, j | 0 <= i < j < |d| ensures d[i] != d[j] {
        if j < |a| {
          assert d[i] == a[i] && d[j] == a[j];
        } else if i >= |a| {
          assert d[i] == b[i - |a|] && d[j] == b[j - |a|];
          assert b[i - |a|].numValue == i - |a| + 2 && b[j - |a|].numValue == j - |a| + 2;
        } else {
          assert d[i] == a[i] && d[j] == b[j - |a|];
          assert SuitIndex(a[i].suit) < k - 1;
        }
      }
    }
  }

  /** The deck holds 52 distinct cards. */
  lemma FullDeckDistinct()
    ensures Distinct(FullDeck())
  {
    RowsDistinct(4);
  }

  /** A card is in the deck exactly when its label is a rank label and its rank is that label's value. */
  lemma FullDeckContents(c: Card)
    ensures c in FullDeck() <==> ValidCard(c)
  {
    if ValidCard(c) {
      ValidCardInDeck(c);
    } else if c in FullDeck() {
      RowsValid(4);
    }
  }

  lemma ValidCardInDeck(c: Card)
    requires ValidCard(c)
    ensures c in FullDeck()
  {
    ValuesAreMapped();
    assert c.value in Values;
    var v :| 0 <= v < |Values| && Values[v] == c.value;
    var s := SuitIndex(c.suit);
    FullDeckAt(s, v);
    assert FullDeck()[13 * s + v] == c;
  }

  /** createDeck: pushes one card per (suit, label) pair in nested loops. */
  method CreateDeck() returns (deck: seq<Card>)
    ensures deck == FullDeck()
  {
    deck := [];
    for s := 0 to |Suits|
      invariant deck == Rows(s)
    {
      for v := 0 to |Values|
        invariant deck == Rows(s) + SuitRow(Suits[s])[..v]
      {
        var card := MakeCard(Suits[s], v);
        RowPrefixGrows(s, v, deck);
        deck := deck + [card];
      }
      RowFinished(s, deck);
    }
  }

  /** Pushing the v-th card of suit s extends the prefix of that suit's row by one. */
  lemma RowPrefixGrows(s: nat, v: nat, deck: seq<Card>)
    requires s < |Suits| && v < |Values|
    requires deck == Rows(s) + SuitRow(Suits[s])[..v]
    ensures deck + [MakeCard(Suits[s], v)] == Rows(s) + SuitRow(Suits[s])[..v + 1]
  {
    var row := SuitRow(Suits[s]);
    assert row[..v + 1] == row[..v] + [row[v]];
  }

  /** Once the whole row of suit s is pushed, the deck holds the first s + 1 rows. */
  lemma RowFinished(s: nat, deck: seq<Card>)
    requires s < |Suits|
    requires deck == Rows(s) + SuitRow(Suits[s])[..|Values|]
    ensures deck == Rows(s + 1)
  {
    var row := SuitRow(Suits[s]);
    assert row[..|Values|] == row;
  }

  /** Injected random choices for a Fisher-Yates pass over n cards: step i may pick any j <= i. */
  predicate ValidPicks(picks: seq<nat>, n: nat) {
    |picks| == n && forall i :: 0 <= i < n ==> picks[i] <= i
  }

  /** shuffleDeck: Fisher-Yates from the last position down on a copy of the deck. */
  method ShuffleDeck(deck: seq<Card>, picks: seq<nat>) returns (shuffled: seq<Card>)
    requires ValidPicks(picks, |deck|)
    ensures |shuffled| == |deck|
    ensures multiset(shuffled) == multiset(deck)
  {
    shuffled := deck;
    var i := |shuffled| - 1;
    while i > 0
      invariant i < |shuffled| || |shuffled| == 0
      invariant |shuffled| == |deck|
      invariant multiset(shuffled) == multiset(deck)
    {
      var j := picks[i];
      shuffled := shuffled[i := shuffled[j]][j := shuffled[i]];
      i := i - 1;
    }
  }

  /** The hand of seat j when n hands are dealt from the end of the deck, one card per seat per round. */
  function Dealt(deck: seq<Card>, n: nat, j: nat): (hand: seq<Card>)
    requires j < n && 3 * n <= |deck|
    ensures |hand| == 3
  {
    var top := |deck| - 1;
    [deck[top - j], deck[top - n - j], deck[top - 2 * n - j]]
  }

  /**
   * dealCards: three rounds; in each round every seat pops one card off the
   * end of the deck. `rest` is the deck after the pops.
   */
  method DealCards(deck: seq<Card>, numPlayers: nat) returns (hands: seq<seq<Card>>, rest: seq<Card>)
    requires 3 * numPlayers <= |deck|
    ensures |hands| == numPlayers
    ensures forall j :: 0 <= j < numPlayers ==> hands[j] == Dealt(deck, numPlayers, j)
    ensures rest == deck[..|deck| - 3 * numPlayers]
  {
    var n := numPlayers;
    hands := seq(n, _ => []);
    rest := deck;
    for i := 0 to 3
      invariant |hands| == n
      invariant |rest| == |deck| - Taken(i, n) && rest == deck[..|rest|]
      invariant forall k :: 0 <= k < n ==> hands[k] == Dealt(deck, n, k)[..i]
    {
      for j := 0 to n
        invariant |hands| == n
        invariant |rest| == |deck| - Taken(i, n) - j && rest == deck[..|rest|]
        invariant forall k :: 0 <= k < j ==> hands[k] == Dealt(deck, n, k)[..i + 1]
        invariant forall k :: j <= k < n ==> hands[k] == Dealt(deck, n, k)[..i]
      {
        DealtAt(deck, n, j, i);
        var card := rest[|rest| - 1];
        rest := rest[..|rest| - 1];
        hands := hands[j := hands[j] + [card]];
        assert Dealt(deck, n, j)[..i + 1] == Dealt(deck, n, j)[..i] + [card];
      }
    }
  }

  /** Round i gives seat j the card Taken(i, n) + j places from the end of the deck. */
  lemma DealtAt(deck: seq<Card>, n: nat, j: nat, i: nat)
    requires j < n && 3 * n <= |deck| && i < 3
    ensures Taken(i, n) + j < |deck|
    ensures Dealt(deck, n, j)[i] == deck[|deck| - 1 - Taken(i, n) - j]
  {
    if i == 2 {
      assert Taken(2, n) == 2 * n;
    }
  }

  /** How many cards the first `rounds` rounds of dealing to `n` seats take off the deck. */
  function Taken(rounds: nat, n: nat): (t: nat)
    requires rounds <= 3
    ensures t == rounds * n
  {
    if rounds == 0 then 0 else Taken(rounds - 1, n) + n
  }

  /** Dealing from a deck of distinct cards gives no card to two seats, nor twice to one. */
  lemma DealtCardsDistinct(deck: seq<Card>, n: nat)
    requires Distinct(deck) && 3 * n <= |deck|
    ensures forall j, k, x, y :: 0 <= j < n && 0 <= k < n && 0 <= x < 3 && 0 <= y < 3 && (j != k || x != y) ==>
      Dealt(deck, n, j)[x] != Dealt(deck, n, k)[y]
  {
    forall j, k, x, y | 0 <= j < n && 0 <= k < n && 0 <= x < 3 && 0 <= y < 3 && (j != k || x != y)
      ensures Dealt(deck, n, j)[x] != Dealt(deck, n, k)[y]
    {
      var top := |deck| - 1;
      var p := if x == 0 then top - j else if x == 1 then top - n - j else top - 2 * n - j;
      var q := if y == 0 then top - k else if y == 1 then top - n - k else top - 2 * n - k;
      assert Dealt(deck, n, j)[x] == deck[p];
      assert Dealt(deck, n, k)[y] == deck[q];
      assert p != q;
    }
  }

  // ---------------------------------------------------------------------
  // Sorting by rank
  // ---------------------------------------------------------------------

  /** The sort key: the rank, negated for a descending sort. */
  function Key(c: Card, descending: bool): int {
    if descending then -c.numValue else c.numValue
  }

  /** Whether a may stand before b in the requested direction. */
  predicate Ahead(a: Card, b: Card, descending: bool) {
    Key(a, descending) <= Key(b, descending)
  }

  predicate Ordered(s: seq<Card>, descending: bool) {
    forall i, j :: 0 <= i < j < |s| ==> Ahead(s[i], s[j], descending)
  }

  /** The six ways of arranging three cards. */
  predicate Arrangement(h: seq<Card>, g: seq<Card>)
    requires |h| == 3
  {
    g == [h[0], h[1], h[2]] || g == [h[0], h[2], h[1]] || g == [h[1], h[0], h[2]] ||
    g == [h[1], h[2], h[0]] || g == [h[2], h[0], h[1]] || g == [h[2], h[1], h[0]]
  }

  /**
   * The stable sort the source obtains from Array.prototype.sort with a
   * numeric comparator, on the three cards of a hand, descending or ascending
   * by rank: a card goes behind another only when strictly out of order.
   */
  function SortCards(s: seq<Card>, descending: bool): (r: seq<Card>)
    requires |s| == 3
    ensures |r| == 3
  {
    var a, b, c := s[0], s[1], s[2];
    if Ahead(a, b, descending) then
      if Ahead(b, c, descending) then [a, b, c]
      else if Ahead(a, c, descending) then [a, c, b]
      else [c, a, b]
    else
      if Ahead(a, c, descending) then [b, a, c]
      else if Ahead(b, c, descending) then [b, c, a]
      else [c, b, a]
  }

  /** The sort rearranges the three cards into order. */
  lemma SortCardsSorts(s: seq<Card>, descending: bool)
    requires |s| == 3
    ensures var r := SortCards(s, descending);
      Arrangement(s, r) && Ordered(r, descending)
  {
    var r := SortCards(s, descending);
    var a, b, c := s[0], s[1], s[2];
    if Ahead(a, b, descending) {
      if Ahead(b, c, descending) {
        assert r == [a, b, c];
      } else if Ahead(a, c, descending) {
        assert r == [a, c, b];
      } else {
        assert r == [c, a, b];
      }
    } else {
      if Ahead(a, c, descending) {
        assert r == [b, a, c];
      } else if Ahead(b, c, descending) {
        assert r == [b, c, a];
      } else {
        assert r == [c, b, a];
      }
    }
    OrderedThree(r, descending);
  }

  /** Three cards in order pairwise next to each other are in order. */
  lemma OrderedThree(r: seq<Card>, descending: bool)
    requires |r| == 3 && Ahead(r[0], r[1], descending) && Ahead(r[1], r[2], descending)
    ensures Ordered(r, descending)
  {
  }

  /** Equal ranks keep their order: the sort is stable. */
  lemma SortIsStable(s: seq<Card>, descending: bool, x: nat, y: nat)
    requires |s| == 3 && x < y < 3 && s[x].numValue == s[y].numValue
    ensures exists i, j :: 0 <= i < j < 3 && SortCards(s, descending)[i] == s[x] && SortCards(s, descending)[j] == s[y]
  {
    var r := SortCards(s, descending);
    var a, b, c := s[0], s[1], s[2];
    if x == 0 && y == 1 {
      if Ahead(b, c, descending) {
        assert r[0] == s[x] && r[1] == s[y];
      } else {
        assert r[1] == s[x] && r[2] == s[y];
      }
    } else if x == 0 && y == 2 {
      if !Ahead(a, b, descending) {
        assert r[1] == s[x] && r[2] == s[y];
      } else if Ahead(b, c, descending) {
        assert r[0] == s[x] && r[2] == s[y];
      } else {
        assert r[0] == s[x] && r[1] == s[y];
      }
    } else {
      if Ahead(a, b, descending) {
        assert r[1] == s[x] && r[2] == s[y];
      } else {
        assert r[0] == s[x] && r[1] == s[y];
      }
    }
  }

  // ---------------------------------------------------------------------
  // Category tests, as the source writes them (on three cards)
  // ---------------------------------------------------------------------

  predicate IsLeopard(cards: seq<Card>)
    requires |cards| == 3
  {
    cards[0].numValue == cards[1].numValue && cards[1].numValue == cards[2].numValue
  }

  /** Sorts ascending, then accepts 2-3-A or three consecutive ranks. */
  predicate IsStraight(cards: seq<Card>)
    requires |cards| == 3
  {
    var sorted := SortCards(cards, false);
    (sorted[0].numValue == 2 && sorted[1].numValue == 3 && sorted[2].numValue == 14) ||
    (sorted[1].numValue == sorted[0].numValue + 1 && sorted[2].numValue == sorted[1].numValue + 1)
  }

  predicate IsFlush(cards: seq<Card>)
    requires |cards| == 3
  {
    cards[0].suit == cards[1].suit && cards[1].suit == cards[2].suit
  }

  predicate IsPair(cards: seq<Card>)
    requires |cards| == 3
  {
    cards[0].numValue == cards[1].numValue ||
    cards[1].numValue == cards[2].numValue ||
    cards[0].numValue == cards[2].numValue
  }

  /** The paired rank and the kicker, read off positions of the hand. */
  function GetPairValue(cards: seq<Card>): (pk: (int, int))
    requires |cards| == 3
  {
    if cards[0].numValue == cards[1].numValue then (cards[0].numValue, cards[2].numValue)
    else if cards[1].numValue == cards[2].numValue then (cards[1].numValue, cards[0].numValue)
    else (cards[0].numValue, cards[1].numValue)
  }

  /** The result of evaluateHand; the display name is not modelled. */
  datatype Evaluation = Evaluation(handType: int, value: int, cards: seq<Card>)

  /** evaluateHand: sort descending, then classify the sorted hand. */
  function EvaluateHand(cards: seq<Card>): (e: Evaluation)
    requires |cards| == 3
    ensures |e.cards| == 3 && HighCard <= e.handType <= Leopard
  {
    Classify(SortCards(cards, true))
  }

  /** The cards evaluateHand returns are the hand's own cards, highest rank first. */
  lemma EvaluateHandSorts(cards: seq<Card>)
    requires |cards| == 3
    ensures var e := EvaluateHand(cards);
      Arrangement(cards, e.cards) && Ordered(e.cards, true)
  {
    SortCardsSorts(cards, true);
  }

  /** The tests evaluateHand applies to the sorted hand, from the strongest category to the weakest. */
  function Classify(sorted: seq<Card>): (e: Evaluation)
    requires |sorted| == 3
    ensures e.cards == sorted && HighCard <= e.handType <= Leopard
  {
    if IsLeopard(sorted) then
      Evaluation(Leopard, sorted[0].numValue * 1000000, sorted)
    else if IsStraight(sorted) && IsFlush(sorted) then
      var maxValue := if sorted[0].numValue == 14 && sorted[1].numValue == 3 then 3 else sorted[0].numValue;
      Evaluation(StraightFlush, maxValue * 10000, sorted)
    else if IsFlush(sorted) then
      Evaluation(Flush, sorted[0].numValue * 100 + sorted[1].numValue * 10 + sorted[2].numValue, sorted)
    else if IsStraight(sorted) then
      var maxValue := if sorted[0].numValue == 14 && sorted[1].numValue == 3 then 3 else sorted[0].numValue;
      Evaluation(Straight, maxValue * 100, sorted)
    else if IsPair(sorted) then
      var (pair, kicker) := GetPairValue(sorted);
      Evaluation(Pair, pair * 100 + kicker, sorted)
    else
      Evaluation(HighCard, sorted[0].numValue * 100 + sorted[1].numValue * 10 + sorted[2].numValue, sorted)
  }

  // ---------------------------------------------------------------------
  // The ranking rules, stated on the three ranks without sorting
  // ---------------------------------------------------------------------

  function Max3(a: int, b: int, c: int): int {
    if a >= b && a >= c then a else if b >= c then b else c
  }

  function Min3(a: int, b: int, c: int): int {
    if a <= b && a <= c then a else if b <= c then b else c
  }

  /** What the rules look at in a hand: its ranks from highest to lowest, and whether it is one suit. */
  datatype Shape = Shape(hi: int, mid: int, lo: int, suited: bool)

  /** The shape of three cards, whatever their order. */
  function ShapeOf(h: seq<Card>): (s: Shape)
    requires |h| == 3
    ensures s.lo <= s.mid <= s.hi
  {
    var a, b, c := h[0].numValue, h[1].numValue, h[2].numValue;
    var hi, lo := Max3(a, b, c), Min3(a, b, c);
    Shape(hi, a + b + c - hi - lo, lo, h[0].suit == h[1].suit && h[1].suit == h[2].suit)
  }

  /** Three cards of one rank. */
  predicate Triple(s: Shape) {
    s.hi == s.lo
  }

  /** The ranks are exactly {A, 2, 3}. */
  predicate LowRun(s: Shape) {
    s.lo == 2 && s.mid == 3 && s.hi == 14
  }

  /** Three consecutive ranks, or {A, 2, 3}. */
  predicate Run(s: Shape) {
    LowRun(s) || (s.hi == s.mid + 1 && s.mid == s.lo + 1)
  }

  /** Some two cards share a rank: the middle rank equals one of the others. */
  predicate Paired(s: Shape) {
    s.hi == s.mid || s.mid == s.lo
  }

  /** The top of a run; {A, 2, 3} counts as 3-high. */
  function RunTop(s: Shape): int {
    if LowRun(s) then 3 else s.hi
  }

  /** The ranks packed highest first as r0*100 + r1*10 + r2. */
  function Packed(s: Shape): int {
    s.hi * 100 + s.mid * 10 + s.lo
  }

  /** In a paired hand of three the middle rank is the paired one ... */
  function PairRank(s: Shape): int {
    s.mid
  }

  /** ... and the kicker is whichever of the other two differs from it. */
  function Kicker(s: Shape): int {
    s.hi + s.lo - s.mid
  }

  /** The category in the game's fixed priority order. */
  function Category(s: Shape): int {
    if Triple(s) then Leopard
    else if Run(s) && s.suited then StraightFlush
    else if s.suited then Flush
    else if Run(s) then Straight
    else if Paired(s) then Pair
    else HighCard
  }

  /** The tiebreak value that goes with the category. */
  function Tiebreak(s: Shape): int {
    match Category(s)
    case 7 => s.hi * 1000000
    case 6 => RunTop(s) * 10000
    case 4 => RunTop(s) * 100
    case 3 => PairRank(s) * 100 + Kicker(s)
    case _ => Packed(s)
  }

  /** The largest and the smallest of three do not depend on their order. */
  lemma Max3Min3Symmetric(a: int, b: int, c: int)
    ensures Max3(a, b, c) == Max3(a, c, b) == Max3(b, a, c) == Max3(b, c, a) == Max3(c, a, b) == Max3(c, b, a)
    ensures Min3(a, b, c) == Min3(a, c, b) == Min3(b, a, c) == Min3(b, c, a) == Min3(c, a, b) == Min3(c, b, a)
  {
  }

  /** Rearranging a hand keeps its shape. */
  lemma ShapeIsPermutationInvariant(h: seq<Card>, g: seq<Card>)
    requires |h| == 3 && Arrangement(h, g)
    ensures ShapeOf(g) == ShapeOf(h)
  {
    var a, b, c := h[0].numValue, h[1].numValue, h[2].numValue;
    Max3Min3Symmetric(a, b, c);
    var x, y, z := g[0].numValue, g[1].numValue, g[2].numValue;
    assert Max3(x, y, z) == Max3(a, b, c) && Min3(x, y, z) == Min3(a, b, c) && x + y + z == a + b + c by {
      if g == [h[0], h[1], h[2]] {
      } else if g == [h[0], h[2], h[1]] {
      } else if g == [h[1], h[0], h[2]] {
      } else if g == [h[1], h[2], h[0]] {
      } else if g == [h[2], h[0], h[1]] {
      } else {
      }
    }
  }

  /** Sorting three cards, either way, keeps their shape. */
  lemma SortKeepsShape(cards: seq<Card>, descending: bool)
    requires |cards| == 3
    ensures |SortCards(cards, descending)| == 3 && ShapeOf(SortCards(cards, descending)) == ShapeOf(cards)
  {
    SortCardsSorts(cards, descending);
    ShapeIsPermutationInvariant(cards, SortCards(cards, descending));
  }

  /** In an ordered hand the positions hold the ranks in order. */
  lemma OrderedRanks(r: seq<Card>, descending: bool)
    requires |r| == 3 && Ordered(r, descending)
    ensures var s := ShapeOf(r);
      if descending then r[0].numValue == s.hi && r[1].numValue == s.mid && r[2].numValue == s.lo
      else r[0].numValue == s.lo && r[1].numValue == s.mid && r[2].numValue == s.hi
  {
    assert Ahead(r[0], r[1], descending) && Ahead(r[1], r[2], descending);
  }

  /** isStraight re-sorts ascending and so sees the same three ranks. */
  lemma IsStraightIsRun(cards: seq<Card>)
    requires |cards| == 3
    ensures IsStraight(cards) == Run(ShapeOf(cards))
  {
    SortKeepsShape(cards, false);
    SortCardsSorts(cards, false);
    OrderedRanks(SortCards(cards, false), false);
  }

  /** isLeopard holds exactly when the three ranks agree, in any order. */
  lemma IsLeopardIsTriple(cards: seq<Card>)
    requires |cards| == 3
    ensures IsLeopard(cards) == Triple(ShapeOf(cards))
  {
  }

  /** isFlush holds exactly when the three suits agree. */
  lemma IsFlushIsSuited(cards: seq<Card>)
    requires |cards| == 3
    ensures IsFlush(cards) == ShapeOf(cards).suited
  {
  }

  /**
   * isPair holds exactly when two ranks agree, in any order, and then
   * getPairValue reads off the repeated rank and the kicker of the rules.
   */
  lemma IsPairIsPaired(cards: seq<Card>)
    requires |cards| == 3
    ensures IsPair(cards) == Paired(ShapeOf(cards))
    ensures IsPair(cards) ==> GetPairValue(cards) == (PairRank(ShapeOf(cards)), Kicker(ShapeOf(cards)))
  {
  }

  /**
   * On a hand sorted descending, the position-based tests (the re-sort inside
   * isStraight, the `14 then 3` test for the low straight, getPairValue's
   * branches) agree with the order-free rules.
   */
  lemma ClassifyRanks(sorted: seq<Card>)
    requires |sorted| == 3 && Ordered(sorted, true)
    ensures Classify(sorted).handType == Category(ShapeOf(sorted))
    ensures Classify(sorted).value == Tiebreak(ShapeOf(sorted))
  {
    var sh := ShapeOf(sorted);
    OrderedRanks(sorted, true);
    IsStraightIsRun(sorted);
    var a, b, c := sorted[0].numValue, sorted[1].numValue, sorted[2].numValue;
    IsLeopardIsTriple(sorted);
    IsFlushIsSuited(sorted);
    IsPairIsPaired(sorted);
    assert a == sh.hi && b == sh.mid && c == sh.lo;
    if Run(sh) {
      assert (a == 14 && b == 3) == LowRun(sh);
    }
  }

  /** evaluateHand computes exactly the category and tiebreak of the rules. */
  lemma EvaluateHandRanks(cards: seq<Card>)
    requires |cards| == 3
    ensures EvaluateHand(cards).handType == Category(ShapeOf(cards))
    ensures EvaluateHand(cards).value == Tiebreak(ShapeOf(cards))
  {
    SortKeepsShape(cards, true);
    SortCardsSorts(cards, true);
    ClassifyRanks(SortCards(cards, true));
  }

  // ---------------------------------------------------------------------
  // Comparing hands
  // ---------------------------------------------------------------------

  /** compareHands: 1 when hand1 wins, -1 when hand2 wins, 0 for a tie. Type first, then value. */
  function CompareHands(hand1: seq<Card>, hand2: seq<Card>): (r: int)
    requires |hand1| == 3 && |hand2| == 3
    ensures r == -1 || r == 0 || r == 1
  {
    var eval1 := EvaluateHand(hand1);
    var eval2 := EvaluateHand(hand2);
    if eval1.handType != eval2.handType then
      (if eval1.handType > eval2.handType then 1 else -1)
    else if eval1.value > eval2.value then 1
    else if eval1.value < eval2.value then -1
    else 0
  }

  /** Strict lexicographic order of evaluations by (type, value). */
  predicate Beats(e1: Evaluation, e2: Evaluation) {
    e1.handType > e2.handType || (e1.handType == e2.handType && e1.value > e2.value)
  }

  /**
   * compareHands orders hands lexicographically by (category, tiebreak) of the
   * rules: a win is a strictly greater pair, a tie is an equal pair, and
   * swapping the hands negates the result.
   */
  lemma CompareHandsOrder(hand1: seq<Card>, hand2: seq<Card>)
    requires |hand1| == 3 && |hand2| == 3
    ensures CompareHands(hand1, hand2) == 1 <==>
      var s1, s2 := ShapeOf(hand1), ShapeOf(hand2);
      Category(s1) > Category(s2) || (Category(s1) == Category(s2) && Tiebreak(s1) > Tiebreak(s2))
    ensures CompareHands(hand1, hand2) == 0 <==>
      Category(ShapeOf(hand1)) == Category(ShapeOf(hand2)) && Tiebreak(ShapeOf(hand1)) == Tiebreak(ShapeOf(hand2))
    ensures CompareHands(hand1, hand2) == -CompareHands(hand2, hand1)
    ensures CompareHands(hand1, hand2) == 1 <==> Beats(EvaluateHand(hand1), EvaluateHand(hand2))
  {
    EvaluateHandRanks(hand1);
    EvaluateHandRanks(hand2);
  }

  /** A win followed by a win is a win. */
  lemma CompareHandsTransitive(a: seq<Card>, b: seq<Card>, c: seq<Card>)
    requires |a| == 3 && |b| == 3 && |c| == 3
    requires CompareHands(a, b) == 1 && CompareHands(b, c) >= 0
    ensures CompareHands(a, c) == 1
  {
    CompareHandsOrder(a, b);
    CompareHandsOrder(b, c);
    CompareHandsOrder(a, c);
  }

  /** The evaluation of every hand, in seat order. */
  ghost function Evaluations(hands: seq<seq<Card>>): (r: seq<Evaluation>)
    requires forall i :: 0 <= i < |hands| ==> |hands[i]| == 3
    ensures |r| == |hands|
    ensures forall k :: 0 <= k < |hands| ==> r[k] == EvaluateHand(hands[k])
  {
    if hands == [] then [] else [EvaluateHand(hands[0])] + Evaluations(hands[1..])
  }

  /**
   * After scanning `evals[..i]`, seat `w` with evaluation `we` leads: nobody
   * scanned beats it, and it beats everyone before it.
   */
  ghost predicate Leads(evals: seq<Evaluation>, i: nat, w: nat, we: Evaluation) {
    w < i <= |evals| && we == evals[w] &&
    (forall k :: 0 <= k < i ==> !Beats(evals[k], we)) &&
    (forall k :: 0 <= k < w ==> Beats(we, evals[k]))
  }

  /** One step of the scan: a strictly better hand takes the lead, any other leaves it. */
  lemma LeadsStep(evals: seq<Evaluation>, i: nat, w: nat, we: Evaluation)
    requires Leads(evals, i, w, we) && i < |evals|
    ensures Beats(evals[i], we) ==> Leads(evals, i + 1, i, evals[i])
    ensures !Beats(evals[i], we) ==> Leads(evals, i + 1, w, we)
  {
  }

  /**
   * findWinner: a left-to-right scan that replaces the leader only on a
   * strict win, so the first of several equal best hands wins.
   */
  method FindWinner(hands: seq<seq<Card>>) returns (winnerIndex: nat, handType: Evaluation)
    requires |hands| > 0
    requires forall i :: 0 <= i < |hands| ==> |hands[i]| == 3
    ensures winnerIndex < |hands| && handType == EvaluateHand(hands[winnerIndex])
    ensures forall i :: 0 <= i < |hands| ==> !Beats(EvaluateHand(hands[i]), handType)
    ensures forall i :: 0 <= i < winnerIndex ==> Beats(handType, EvaluateHand(hands[i]))
  {
    ghost var evals := Evaluations(hands);
    winnerIndex := 0;
    var winnerEval := EvaluateHand(hands[0]);
    for i := 1 to |hands|
      invariant Leads(evals, i, winnerIndex, winnerEval)
    {
      var currentEval := EvaluateHand(hands[i]);
      LeadsStep(evals, i, winnerIndex, winnerEval);
      if currentEval.handType > winnerEval.handType ||
         (currentEval.handType == winnerEval.handType && currentEval.value > winnerEval.value) {
        winnerIndex := i;
        winnerEval := currentEval;
      }
    }
    handType := winnerEval;
  }

  // ---------------------------------------------------------------------
  // How the tiebreak values order hands
  // ---------------------------------------------------------------------

  /** Three valid cards. */
  predicate ValidHand(h: seq<Card>) {
    |h| == 3 && ValidCard(h[0]) && ValidCard(h[1]) && ValidCard(h[2])
  }

  /** Every rank lies in 2..14. */
  predicate InRange(s: Shape) {
    2 <= s.lo && s.hi <= 14
  }

  lemma ValidHandRanks(h: seq<Card>)
    requires ValidHand(h)
    ensures InRange(ShapeOf(h))
  {
    ValidCardRank(h[0]);
    ValidCardRank(h[1]);
    ValidCardRank(h[2]);
  }

  /**
   * {A, 2, 3} is a straight that counts as 3-high: 30000 as a straight flush,
   * 300 as a plain straight, never 14-high.
   */
  lemma LowStraightValues(h: seq<Card>)
    requires |h| == 3 && LowRun(ShapeOf(h))
    ensures EvaluateHand(h).handType == (if ShapeOf(h).suited then StraightFlush else Straight)
    ensures EvaluateHand(h).value == (if ShapeOf(h).suited then 30000 else 300)
  {
    EvaluateHandRanks(h);
  }

  /** The top of any other run in range is at least 4. */
  lemma RunTopAboveLowRun(s: Shape, t: Shape)
    requires LowRun(s) && !LowRun(t) && Run(t) && InRange(t) && t.lo <= t.mid <= t.hi
    ensures RunTop(s) < RunTop(t)
  {
  }

  /** Among straights (or straight flushes) with ranks in range, {A, 2, 3} is strictly the lowest. */
  lemma LowStraightIsLowest(h: seq<Card>, g: seq<Card>)
    requires |h| == 3 && |g| == 3 && InRange(ShapeOf(g))
    requires LowRun(ShapeOf(h)) && !LowRun(ShapeOf(g))
    requires EvaluateHand(h).handType == EvaluateHand(g).handType
    requires EvaluateHand(g).handType == Straight || EvaluateHand(g).handType == StraightFlush
    ensures EvaluateHand(h).value < EvaluateHand(g).value
  {
    var s, t := ShapeOf(h), ShapeOf(g);
    EvaluateHandRanks(h);
    EvaluateHandRanks(g);
    assert Run(t);
    RunTopAboveLowRun(s, t);
  }

  /**
   * For flushes and high cards with distinct ranks in range, the packed value
   * orders hands exactly as comparing the descending ranks one by one.
   */
  lemma PackedValueIsLexicographic(s: Shape, t: Shape)
    requires InRange(s) && InRange(t) && s.lo <= s.mid <= s.hi && t.lo <= t.mid <= t.hi
    requires !Paired(s) && !Paired(t)
    ensures Packed(s) > Packed(t) <==>
      s.hi > t.hi || (s.hi == t.hi && (s.mid > t.mid || (s.mid == t.mid && s.lo > t.lo)))
    ensures Packed(s) == Packed(t) <==> s.hi == t.hi && s.mid == t.mid && s.lo == t.lo
  {
  }

  /** For pairs with ranks in range, the tiebreak orders by the paired rank, then the kicker. */
  lemma PairTiebreakIsLexicographic(s: Shape, t: Shape)
    requires InRange(s) && InRange(t) && s.lo <= s.mid <= s.hi && t.lo <= t.mid <= t.hi
    requires Category(s) == Pair && Category(t) == Pair
    ensures Tiebreak(s) > Tiebreak(t) <==>
      PairRank(s) > PairRank(t) || (PairRank(s) == PairRank(t) && Kicker(s) > Kicker(t))
  {
    assert Tiebreak(s) == PairRank(s) * 100 + Kicker(s);
    assert Tiebreak(t) == PairRank(t) * 100 + Kicker(t);
  }

  /** The same order on the evaluated pair values. */
  lemma PairValueIsLexicographic(h: seq<Card>, g: seq<Card>)
    requires |h| == 3 && |g| == 3 && InRange(ShapeOf(h)) && InRange(ShapeOf(g))
    requires EvaluateHand(h).handType == Pair && EvaluateHand(g).handType == Pair
    ensures EvaluateHand(h).value > EvaluateHand(g).value <==>
      PairRank(ShapeOf(h)) > PairRank(ShapeOf(g)) ||
      (PairRank(ShapeOf(h)) == PairRank(ShapeOf(g)) && Kicker(ShapeOf(h)) > Kicker(ShapeOf(g)))
  {
    EvaluateHandRanks(h);
    EvaluateHandRanks(g);
    PairTiebreakIsLexicographic(ShapeOf(h), ShapeOf(g));
  }

  /**
   * The range of the value in each category, for ranks in range. A leopard's
   * and a straight flush's value exceeds every value of every weaker category;
   * below that the ranges of flush, straight, pair and high card overlap.
   */
  lemma ValueBands(h: seq<Card>)
    requires |h| == 3 && InRange(ShapeOf(h))
    ensures var e := EvaluateHand(h);
      (e.handType == Leopard ==> 2000000 <= e.value <= 14000000) &&
      (e.handType == StraightFlush ==> 30000 <= e.value <= 140000) &&
      (e.handType <= Flush ==> 0 < e.value <= 1554)
  {
    EvaluateHandRanks(h);
    TiebreakBands(ShapeOf(h));
  }

  /** The bands of ValueBands, on the rules. */
  lemma TiebreakBands(s: Shape)
    requires InRange(s) && s.lo <= s.mid <= s.hi
    ensures Category(s) == Leopard ==> 2000000 <= Tiebreak(s) <= 14000000
    ensures Category(s) == StraightFlush ==> 30000 <= Tiebreak(s) <= 140000
    ensures Category(s) <= Flush ==> 0 < Tiebreak(s) <= 1554
  {
  }
}
