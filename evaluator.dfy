// The 7-card hand evaluator of Evaluator.py: card ids 0..51 map to a rank
// (0 = deuce .. 12 = ace) and a suit (0..3); a 7-card hand maps to a category
// 0 (high card) .. 9 (royal flush) and a tie-break list of ranks. Two results
// are compared the way Python compares `(int, list)` tuples.
module Evaluator {
  import opened Common

  // ---------------------------------------------------------------- cards

  /** `card % 13`: Python's `%` floors, which for the positive divisor 13 is Dafny's `%`. */
  function Rank(card: int): (r: int)
    ensures 0 <= r <= 12
  {
    card % 13
  }

  /** `card // 13`: floor division, again Dafny's `/` for the positive divisor 13. */
  function Suit(card: int): (s: int)
    ensures 0 <= card < 52 <==> 0 <= s <= 3
    ensures card == 13 * s + Rank(card)
  {
    card / 13
  }

  /** Rank and suit identify a card: 13 * suit + rank is the only card with them. */
  lemma CardOfRankSuit(r: int, s: int)
    requires 0 <= r <= 12 && 0 <= s <= 3
    ensures 0 <= 13 * s + r < 52
    ensures Rank(13 * s + r) == r && Suit(13 * s + r) == s
  {
  }

  function RanksOf(hand: seq<int>): (ranks: seq<int>)
    ensures |ranks| == |hand|
    ensures forall x :: x in ranks ==> 0 <= x <= 12
  {
    MapSeq(Rank, hand)
  }

  /** `[suit(card) for card in hand]` */
  function SuitsOf(hand: seq<int>): (suits: seq<int>)
    ensures |suits| == |hand|
  {
    MapSeq(Suit, hand)
  }

  /** Each card's suit and rank give the card back, and the suit is one of 0..3 exactly
      for the ids 0..51. */
  lemma SuitsAndRanks(hand: seq<int>, i: int)
    requires 0 <= i < |hand|
    ensures hand[i] == 13 * SuitsOf(hand)[i] + RanksOf(hand)[i]
    ensures 0 <= hand[i] < 52 <==> 0 <= SuitsOf(hand)[i] <= 3
  {
  }

  // -------------------------------------------------------------- straights

  /** `[(high - i) % 13 for i in range(5)]` */
  function Run(high: int): (r: seq<int>)
    ensures |r| == 5
  {
    seq(5, i requires 0 <= i < 5 => (high - i) % 13)
  }

  /** All five ranks of `Run(high)` are present. */
  predicate RunIn(ranks: set<int>, high: int)
  {
    forall x :: x in Run(high) ==> x in ranks
  }

  const Wheel: seq<int> := [3, 2, 1, 0, 12]

  predicate WheelIn(ranks: set<int>)
  {
    {12, 0, 1, 2, 3} <= ranks
  }

  /** A five-rank run as the evaluator returns it: `Run(h)` for h in 4..12, or the wheel
      (which happens to be `Run(3)`: 3, 2, 1, 0 and then 12). */
  predicate IsRun(s: seq<int>)
  {
    |s| == 5 && 3 <= s[0] <= 12 && s == Run(s[0])
  }

  /** The loop `for high in range(12, 3, -1)` from `high` down, then the wheel test. */
  function StraightFrom(ranks: set<int>, high: int): (r: Option<seq<int>>)
    requires 3 <= high <= 12
    decreases high, ranks
    ensures r.Some? ==> IsRun(r.value) && r.value[0] <= high
    ensures r.Some? && r.value[0] >= 4 ==> RunIn(ranks, r.value[0])
    ensures r.Some? && r.value[0] == 3 ==> r.value == Wheel && WheelIn(ranks)
    ensures forall h :: 4 <= h <= high && RunIn(ranks, h) ==> r.Some? && h <= r.value[0]
    ensures WheelIn(ranks) ==> r.Some?
  {
    if high == 3 then
      if WheelIn(ranks) then
        assert Run(3) == Wheel;
        Some(Wheel)
      else None
    else if RunIn(ranks, high) then
      assert Run(high)[0] == high;
      Some(Run(high))
    else
      StraightFrom(ranks, high - 1)
  }

  /** `get_straight`: the highest run present, the wheel only when no other run is. */
  function GetStraight(handRanks: seq<int>): (r: Option<seq<int>>)
    ensures r.Some? ==> IsRun(r.value)
    ensures r.Some? && r.value[0] >= 4 ==> RunIn(SetOf(handRanks), r.value[0])
    ensures r.Some? && r.value[0] == 3 ==> r.value == Wheel && WheelIn(SetOf(handRanks))
    ensures forall h :: 4 <= h <= 12 && RunIn(SetOf(handRanks), h) ==> r.Some? && h <= r.value[0]
    ensures WheelIn(SetOf(handRanks)) ==> r.Some?
  {
    StraightFrom(SetOf(handRanks), 12)
  }

  // ------------------------------------------------------ rank multiplicities

  /** One entry `(count, card_rank)` of `rank_sorted`. */
  datatype Group = Group(count: int, rank: int)

  /** Descending order on `(count, rank)` pairs, as Python orders tuples. */
  predicate Before(a: Group, b: Group)
  {
    a.count > b.count || (a.count == b.count && a.rank > b.rank)
  }

  /** The groups of count c with rank <= r, then those of every smaller positive count:
      `rank_sorted` is produced directly in the descending order `sorted(..., reverse=True)`
      gives it. */
  function GroupsFrom(ms: multiset<int>, c: nat, r: int): (gs: seq<Group>)
    requires -1 <= r <= 12
    decreases c, r + 1, ms
    ensures forall i :: 0 <= i < |gs| ==>
      1 <= gs[i].count <= c && gs[i].count == ms[gs[i].rank] && 0 <= gs[i].rank <= 12
      && (gs[i].count == c ==> gs[i].rank <= r)
    ensures forall i, j :: 0 <= i < j < |gs| ==> Before(gs[i], gs[j])
  {
    if c == 0 then []
    else if r < 0 then GroupsFrom(ms, c - 1, 12)
    else (if ms[r] == c then [Group(c, r)] else []) + GroupsFrom(ms, c, r - 1)
  }

  /** `rank_sorted`: the (count, rank) pairs of the hand, largest first. */
  function Groups(ranks: seq<int>): (gs: seq<Group>)
    ensures forall i :: 0 <= i < |gs| ==>
      1 <= gs[i].count == multiset(ranks)[gs[i].rank] && 0 <= gs[i].rank <= 12
    ensures forall i, j :: 0 <= i < j < |gs| ==> Before(gs[i], gs[j])
  {
    GroupsFrom(multiset(ranks), |ranks|, 12)
  }

  lemma {:induction false} CountAtMostLength(s: seq<int>, x: int)
    ensures multiset(s)[x] <= |s|
  {
    if s != [] {
      CountAtMostLength(s[1..], x);
      assert s == [s[0]] + s[1..];
    }
  }

  lemma {:induction false} GroupsFromComplete(ms: multiset<int>, c: nat, r: int, x: int)
    requires -1 <= r <= 12 && 0 <= x <= 12 && 1 <= ms[x]
    requires ms[x] < c || (ms[x] == c && x <= r)
    ensures exists i :: 0 <= i < |GroupsFrom(ms, c, r)| && GroupsFrom(ms, c, r)[i].rank == x
    decreases c, r + 1
  {
    if r < 0 {
      assert GroupsFrom(ms, c, r) == GroupsFrom(ms, c - 1, 12);
      GroupsFromComplete(ms, c - 1, 12, x);
    } else if x == r && ms[r] == c {
      assert GroupsFrom(ms, c, r)[0].rank == x;
    } else {
      GroupsFromComplete(ms, c, r - 1, x);
      var rest := GroupsFrom(ms, c, r - 1);
      var i :| 0 <= i < |rest| && rest[i].rank == x;
      var head := if ms[r] == c then [Group(c, r)] else [];
      assert GroupsFrom(ms, c, r)[|head| + i] == rest[i];
    }
  }

  /** Every rank of the hand has its entry in `rank_sorted`. */
  lemma GroupsComplete(ranks: seq<int>, x: int)
    requires x in ranks && 0 <= x <= 12
    ensures exists i :: 0 <= i < |Groups(ranks)| && Groups(ranks)[i].rank == x
  {
    CountAtMostLength(ranks, x);
    assert x in multiset(ranks);
    GroupsFromComplete(multiset(ranks), |ranks|, 12, x);
    assert Groups(ranks) == GroupsFrom(multiset(ranks), |ranks|, 12);
  }

  lemma {:induction false} AllEqualCount(s: seq<int>, x: int)
    requires forall i :: 0 <= i < |s| ==> s[i] == x
    ensures multiset(s)[x] == |s|
  {
    if s != [] {
      AllEqualCount(s[1..], x);
      assert s == [s[0]] + s[1..];
    }
  }

  /** Within seven cards the groups needed by the cascade exist: a first one, and a
      second one whenever the first is not all seven cards. */
  lemma GroupsShape(ranks: seq<int>)
    requires |ranks| == 7 && AllRanks(ranks)
    ensures |Groups(ranks)| >= 1
    ensures Groups(ranks)[0].count < 7 ==> |Groups(ranks)| >= 2
  {
    GroupsComplete(ranks, ranks[0]);
    if |Groups(ranks)| == 1 {
      SingleGroup(ranks);
    }
  }

  lemma SingleGroup(ranks: seq<int>)
    requires AllRanks(ranks) && |Groups(ranks)| == 1
    ensures Groups(ranks)[0].count == |ranks|
  {
    var gs := Groups(ranks);
    forall i | 0 <= i < |ranks| ensures ranks[i] == gs[0].rank {
      GroupsComplete(ranks, ranks[i]);
    }
    AllEqualCount(ranks, gs[0].rank);
  }

  /** The first entry with count >= 2 (the loop with `break` of the full-house test). */
  function FirstPair(rest: seq<Group>): (r: Option<int>)
    ensures r.Some? ==> exists i :: (0 <= i < |rest| && rest[i].count >= 2 && rest[i].rank == r.value
      && forall j :: 0 <= j < i ==> rest[j].count < 2)
    ensures r.None? ==> forall i :: 0 <= i < |rest| ==> rest[i].count < 2
  {
    if rest == [] then None
    else if rest[0].count >= 2 then Some(rest[0].rank)
    else
      var r := FirstPair(rest[1..]);
      if r.Some? then
        var i :| 0 <= i < |rest[1..]| && rest[1..][i].count >= 2 && rest[1..][i].rank == r.value
          && forall j :: 0 <= j < i ==> rest[1..][j].count < 2;
        assert rest[i + 1] == rest[1..][i];
        r
      else r
  }

  // ----------------------------------------------------------------- suits

  /** The first key, in `keys` order, whose count reaches n (`next(... if count >= 5)`
      over a Counter, which lists suits in order of first appearance). */
  function FirstWithCount(keys: seq<int>, counts: multiset<int>, n: nat): (r: Option<int>)
    ensures r.Some? ==> r.value in keys && counts[r.value] >= n
    ensures r.Some? ==> exists i :: (0 <= i < |keys| && keys[i] == r.value
      && forall j :: 0 <= j < i ==> counts[keys[j]] < n)
    ensures r.None? ==> forall k :: k in keys ==> counts[k] < n
  {
    if keys == [] then None
    else if counts[keys[0]] >= n then Some(keys[0])
    else FirstWithCount(keys[1..], counts, n)
  }

  /** `flush_suit`: a suit held at least five times, if any. */
  function FlushSuit(hand: seq<int>): (r: Option<int>)
    ensures r.Some? ==> multiset(SuitsOf(hand))[r.value] >= 5
    ensures r.None? ==> forall s :: multiset(SuitsOf(hand))[s] < 5
  {
    var suits := SuitsOf(hand);
    FirstWithCount(suits, multiset(suits), 5)
  }

  function SuitIs(s: int): int -> bool
  {
    c => Suit(c) == s
  }

  function NotRank(x: int): int -> bool
  {
    r => r != x
  }

  function NotRanks(x: int, y: int): int -> bool
  {
    r => r != x && r != y
  }

  /** `[rank(card) for card in hand if suit(card) == flush_suit]` */
  function SuitedRanks(hand: seq<int>, s: int): (r: seq<int>)
    ensures forall x :: x in r ==> 0 <= x <= 12
  {
    RanksOf(FilterSeq(SuitIs(s), hand))
  }

  /** The suited ranks are exactly the ranks of the hand's cards of suit s. */
  lemma SuitedMembers(hand: seq<int>, s: int, x: int)
    ensures x in SuitedRanks(hand, s) <==> exists c :: c in hand && Suit(c) == s && Rank(c) == x
  {
    var f := FilterSeq(SuitIs(s), hand);
    if x in SuitedRanks(hand, s) {
      var i :| 0 <= i < |f| && RanksOf(f)[i] == x;
      assert f[i] in f;
    }
  }

  /** `[card_rank for card_rank in ranks if card_rank != x]` */
  function Others(ranks: seq<int>, x: int): (r: seq<int>)
    ensures forall y :: y in r <==> y in ranks && y != x
  {
    FilterSeq(NotRank(x), ranks)
  }

  /** `[card_rank for card_rank in ranks if card_rank != x and card_rank != y]` */
  function Others2(ranks: seq<int>, x: int, y: int): (r: seq<int>)
    ensures forall z :: z in r <==> z in ranks && z != x && z != y
  {
    FilterSeq(NotRanks(x, y), ranks)
  }

  lemma {:induction false} SuitedLength(hand: seq<int>, s: int)
    ensures |SuitedRanks(hand, s)| == multiset(SuitsOf(hand))[s]
  {
    if hand != [] {
      SuitedLength(hand[1..], s);
      assert SuitsOf(hand) == [Suit(hand[0])] + SuitsOf(hand[1..]);
    }
  }

  lemma {:induction false} OthersLength(ranks: seq<int>, x: int)
    ensures |Others(ranks, x)| == |ranks| - multiset(ranks)[x]
  {
    if ranks != [] {
      OthersLength(ranks[1..], x);
      assert ranks == [ranks[0]] + ranks[1..];
    }
  }

  lemma {:induction false} Others2Length(ranks: seq<int>, x: int, y: int)
    requires x != y
    ensures |Others2(ranks, x, y)| == |ranks| - multiset(ranks)[x] - multiset(ranks)[y]
  {
    if ranks != [] {
      Others2Length(ranks[1..], x, y);
      assert ranks == [ranks[0]] + ranks[1..];
    }
  }

  lemma SortedMembers(s: seq<int>, n: nat)
    ensures forall x :: x in Take(SortDesc(s), n) ==> x in s
  {
    forall x | x in Take(SortDesc(s), n) ensures x in s {
      assert x in multiset(SortDesc(s));
    }
  }

  // ------------------------------------------------------------ evaluation

  /** The evaluator's result `(hand rank, tiebreaker cards)`. */
  datatype HandValue = HandValue(category: int, tiebreak: seq<int>)

  const HighCard := 0
  const OnePair := 1
  const TwoPair := 2
  const Trips := 3
  const Straight := 4
  const Flush := 5
  const FullHouse := 6
  const Quads := 7
  const StraightFlush := 8
  const RoyalFlush := 9

  /** The length of the tie-break list that goes with each category. */
  function TieBreakLength(category: int): nat
  {
    if category == Quads || category == FullHouse then 2
    else if category == Trips || category == TwoPair then 3
    else if category == OnePair then 4
    else 5
  }

  /** A category 0..9 with a tie-break list of ranks 0..12 of the category's length. */
  predicate WellFormed(v: HandValue)
  {
    && 0 <= v.category <= 9
    && (forall x :: x in v.tiebreak ==> 0 <= x <= 12)
    && |v.tiebreak| == TieBreakLength(v.category)
  }

  predicate AllRanks(s: seq<int>)
  {
    forall x :: x in s ==> 0 <= x <= 12
  }

  // One function per `return` of the cascade.

  function StraightFlushValue(sf: seq<int>): (v: HandValue)
    requires IsRun(sf)
    ensures WellFormed(v) && (v.category == RoyalFlush || v.category == StraightFlush)
  {
    assert forall i :: 0 <= i < 5 ==> 0 <= sf[i] <= 12;
    if sf == [12, 11, 10, 9, 8] then HandValue(RoyalFlush, sf) else HandValue(StraightFlush, sf)
  }

  function QuadsValue(ranks: seq<int>, quad: int): (v: HandValue)
    requires |ranks| == 7 && AllRanks(ranks) && 0 <= quad <= 12 && multiset(ranks)[quad] == 4
    ensures WellFormed(v) && v.category == Quads
  {
    OthersLength(ranks, quad);
    HandValue(Quads, [quad, MaxOf(Others(ranks, quad))])
  }

  function FullHouseValue(three: int, pair: int): (v: HandValue)
    requires 0 <= three <= 12 && 0 <= pair <= 12
    ensures WellFormed(v) && v.category == FullHouse
  {
    HandValue(FullHouse, [three, pair])
  }

  function FlushValue(suited: seq<int>): (v: HandValue)
    requires |suited| >= 5 && AllRanks(suited)
    ensures WellFormed(v) && v.category == Flush
  {
    SortedMembers(suited, 5);
    HandValue(Flush, Take(SortDesc(suited), 5))
  }

  function StraightValue(run: seq<int>): (v: HandValue)
    requires IsRun(run)
    ensures WellFormed(v) && v.category == Straight
  {
    assert forall i :: 0 <= i < 5 ==> 0 <= run[i] <= 12;
    HandValue(Straight, run)
  }

  function TripsValue(ranks: seq<int>, three: int): (v: HandValue)
    requires |ranks| == 7 && AllRanks(ranks) && 0 <= three <= 12 && multiset(ranks)[three] == 3
    ensures WellFormed(v) && v.category == Trips
  {
    OthersLength(ranks, three);
    SortedMembers(Others(ranks, three), 2);
    HandValue(Trips, [three] + Take(SortDesc(Others(ranks, three)), 2))
  }

  /** `sorted([a, b], reverse=True)` */
  lemma SortTwo(a: int, b: int)
    ensures SortDesc([a, b]) == if a >= b then [a, b] else [b, a]
  {
    assert [a, b][1..] == [b];
  }

  function TwoPairValue(ranks: seq<int>, high: int, low: int): (v: HandValue)
    requires |ranks| == 7 && AllRanks(ranks) && 0 <= high <= 12 && 0 <= low <= 12 && high != low
    requires multiset(ranks)[high] == 2 && multiset(ranks)[low] == 2
    ensures WellFormed(v) && v.category == TwoPair
  {
    Others2Length(ranks, high, low);
    SortTwo(high, low);
    HandValue(TwoPair, SortDesc([high, low]) + [MaxOf(Others2(ranks, high, low))])
  }

  function PairValue(ranks: seq<int>, pair: int): (v: HandValue)
    requires |ranks| == 7 && AllRanks(ranks) && 0 <= pair <= 12 && multiset(ranks)[pair] == 2
    ensures WellFormed(v) && v.category == OnePair
  {
    OthersLength(ranks, pair);
    SortedMembers(Others(ranks, pair), 3);
    HandValue(OnePair, [pair] + Take(SortDesc(Others(ranks, pair)), 3))
  }

  function HighCardValue(ranks: seq<int>): (v: HandValue)
    requires |ranks| == 7 && AllRanks(ranks)
    ensures WellFormed(v) && v.category == HighCard
  {
    SortedMembers(ranks, 5);
    HandValue(HighCard, Take(SortDesc(ranks), 5))
  }

  /** `evaluate_hand`: the category cascade, strongest category first. The assert that the
      hand has exactly 7 cards is the precondition. */
  function EvaluateHand(hand: seq<int>): (v: HandValue)
    requires |hand| == 7
    ensures WellFormed(v)
  {
    var flush := FlushSuit(hand);
    if flush.Some? && GetStraight(SuitedRanks(hand, flush.value)).Some? then
      StraightFlushValue(GetStraight(SuitedRanks(hand, flush.value)).value)
    else
      GroupCategories(hand, flush)
  }

  /** Four of a kind and full house, the cascade steps decided by `rank_sorted`. */
  function GroupCategories(hand: seq<int>, flush: Option<int>): (v: HandValue)
    requires |hand| == 7
    requires flush.Some? ==> multiset(SuitsOf(hand))[flush.value] >= 5
    ensures WellFormed(v) && v.category <= Quads
  {
    var ranks := RanksOf(hand);
    var rs := Groups(ranks);
    GroupsShape(ranks);
    FullHouseShape(ranks);
    if rs[0].count == 4 then
      QuadsValue(ranks, rs[0].rank)
    else if rs[0].count == 3 && FirstPair(rs[1..]).Some? then
      FullHouseValue(rs[0].rank, FirstPair(rs[1..]).value)
    else
      FlushOrStraight(hand, flush)
  }

  lemma {:induction false} FirstPairIsRank(rest: seq<Group>)
    requires forall i :: 0 <= i < |rest| ==> 0 <= rest[i].rank <= 12
    ensures FirstPair(rest).Some? ==> 0 <= FirstPair(rest).value <= 12
  {
    if rest != [] && rest[0].count < 2 {
      FirstPairIsRank(rest[1..]);
    }
  }

  /** In seven cards a group of three is followed by at least one more group, and the pair
      chosen for a full house is a rank. */
  lemma FullHouseShape(ranks: seq<int>)
    requires |ranks| == 7 && AllRanks(ranks)
    ensures |Groups(ranks)| >= 1
    ensures Groups(ranks)[0].count == 3 ==>
      (|Groups(ranks)| >= 2 && (FirstPair(Groups(ranks)[1..]).Some? ==> 0 <= FirstPair(Groups(ranks)[1..]).value <= 12))
  {
    GroupsShape(ranks);
    var rs := Groups(ranks);
    if rs[0].count == 3 {
      var rest := rs[1..];
      assert forall i :: 0 <= i < |rest| ==> rest[i] == rs[i + 1];
      FirstPairIsRank(rest);
    }
  }

  /** Flush, then straight, then the lower categories. */
  function FlushOrStraight(hand: seq<int>, flush: Option<int>): (v: HandValue)
    requires |hand| == 7
    requires flush.Some? ==> multiset(SuitsOf(hand))[flush.value] >= 5
    ensures WellFormed(v) && v.category <= Flush
  {
    if flush.Some? then
      SuitedLength(hand, flush.value);
      FlushValue(SuitedRanks(hand, flush.value))
    else if GetStraight(RanksOf(hand)).Some? then
      StraightValue(GetStraight(RanksOf(hand)).value)
    else
      LowerCategories(RanksOf(hand))
  }

  /** The tail of the cascade, from three of a kind down to high card. */
  function LowerCategories(ranks: seq<int>): (v: HandValue)
    requires |ranks| == 7 && AllRanks(ranks)
    ensures WellFormed(v) && v.category <= Trips
  {
    var rs := Groups(ranks);
    GroupsShape(ranks);
    if rs[0].count == 3 then
      TripsValue(ranks, rs[0].rank)
    else if rs[0].count == 2 && rs[1].count == 2 then
      TwoPairValue(ranks, rs[0].rank, rs[1].rank)
    else if rs[0].count == 2 then
      PairValue(ranks, rs[0].rank)
    else
      HighCardValue(ranks)
  }

  // ------------------------------------------------------------ comparison

  /** Python's `a < b` on lists of ints: the first difference decides, and a proper
      prefix is smaller. */
  predicate LexLess(a: seq<int>, b: seq<int>)
    ensures LexLess(a, b) <==> exists k :: 0 <= k < |b| && AgreeUpTo(a, b, k) && (k == |a| || a[k] < b[k])
    decreases |a|
  {
    if a == [] then assert AgreeUpTo(a, b, 0); b != []
    else if b == [] then false
    else if a[0] != b[0] then assert AgreeUpTo(a, b, 0); a[0] < b[0]
    else AgreeTails(a, b); LexLess(a[1..], b[1..])
  }

  /** The first k entries of a and b exist and agree. */
  predicate AgreeUpTo(a: seq<int>, b: seq<int>, k: nat)
  {
    k <= |a| && k <= |b| && forall j :: 0 <= j < k ==> a[j] == b[j]
  }

  /** With equal heads, a and b agree up to k + 1 exactly when their tails agree up to k. */
  lemma AgreeTails(a: seq<int>, b: seq<int>)
    requires a != [] && b != [] && a[0] == b[0]
    ensures forall k: nat {:trigger AgreeUpTo(a[1..], b[1..], k)} ::
      AgreeUpTo(a[1..], b[1..], k) <==> AgreeUpTo(a, b, k + 1)
    ensures forall k: nat {:trigger AgreeUpTo(a, b, k)} ::
      1 <= k ==> (AgreeUpTo(a, b, k) <==> AgreeUpTo(a[1..], b[1..], k - 1))
    ensures !AgreeUpTo(a, b, 0) || a[0] >= b[0]
  {
  }

  /** Python's `a < b` on `(category, tiebreak)` tuples, which is list `<` on the category
      followed by the tie-break. */
  predicate ValueLess(a: HandValue, b: HandValue)
    ensures ValueLess(a, b) <==> LexLess([a.category] + a.tiebreak, [b.category] + b.tiebreak)
  {
    assert ([a.category] + a.tiebreak)[1..] == a.tiebreak;
    assert ([b.category] + b.tiebreak)[1..] == b.tiebreak;
    a.category < b.category || (a.category == b.category && LexLess(a.tiebreak, b.tiebreak))
  }
}
