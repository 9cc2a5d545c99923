// What `evaluate_hand` promises about its result, category by category, that the result
// depends on the cards only and not on their order, and how its results are ordered.
module EvaluatorProps {
  import opened Common
  import opened Evaluator

  /** The flush suit's cards hold a five-rank run. */
  predicate HasStraightFlush(hand: seq<int>)
  {
    FlushSuit(hand).Some? && GetStraight(SuitedRanks(hand, FlushSuit(hand).value)).Some?
  }

  // ------------------------------------------------------- straight flushes

  /** Categories 8 and 9 are exactly the straight flushes, and their tie-break is the run
      found among the flush suit's ranks. */
  lemma StraightFlushIff(hand: seq<int>)
    requires |hand| == 7
    ensures EvaluateHand(hand).category >= StraightFlush <==> HasStraightFlush(hand)
    ensures HasStraightFlush(hand) ==>
      EvaluateHand(hand).tiebreak == GetStraight(SuitedRanks(hand, FlushSuit(hand).value)).value
  {
  }

  /** The ace-high run is found exactly when ten to ace are all present. */
  lemma AceHighRun(ranks: seq<int>)
    ensures (GetStraight(ranks).Some? && GetStraight(ranks).value == [12, 11, 10, 9, 8]) <==>
      forall x :: 8 <= x <= 12 ==> x in ranks
  {
    assert Run(12) == [12, 11, 10, 9, 8];
    var r := GetStraight(ranks);
    if forall x :: 8 <= x <= 12 ==> x in ranks {
      assert RunIn(SetOf(ranks), 12);
    }
    if r.Some? && r.value == [12, 11, 10, 9, 8] {
      forall x | 8 <= x <= 12 ensures x in ranks {
        assert x in Run(12);
      }
    }
  }

  /** Category 9 exactly when the flush suit's ranks contain ten, jack, queen, king and ace. */
  lemma RoyalFlushIff(hand: seq<int>)
    requires |hand| == 7
    ensures EvaluateHand(hand).category == RoyalFlush <==>
      FlushSuit(hand).Some? && forall x :: 8 <= x <= 12 ==> x in SuitedRanks(hand, FlushSuit(hand).value)
  {
    StraightFlushIff(hand);
    if FlushSuit(hand).Some? {
      AceHighRun(SuitedRanks(hand, FlushSuit(hand).value));
    }
  }

  // ---------------------------------------------------------- rank groups

  /** The first entry of `rank_sorted` has the largest count: no rank occurs more often. */
  lemma TopGroupIsLargest(ranks: seq<int>, x: int)
    requires x in ranks && 0 <= x <= 12
    ensures |Groups(ranks)| >= 1 && multiset(ranks)[x] <= Groups(ranks)[0].count
    ensures multiset(ranks)[x] == Groups(ranks)[0].count ==> x <= Groups(ranks)[0].rank
  {
    GroupsComplete(ranks, x);
    var rs := Groups(ranks);
    var i :| 0 <= i < |rs| && rs[i].rank == x;
    if i > 0 {
      assert Before(rs[0], rs[i]);
    }
  }

  // ------------------------------------------------------------ four of a kind

  /** Below the straight flushes the cascade is decided by `rank_sorted`, then by the flush. */
  lemma BelowStraightFlush(hand: seq<int>)
    requires |hand| == 7 && !HasStraightFlush(hand)
    ensures EvaluateHand(hand) == GroupCategories(hand, FlushSuit(hand))
  {
  }

  lemma GroupQuads(hand: seq<int>, flush: Option<int>)
    requires |hand| == 7 && (flush.Some? ==> multiset(SuitsOf(hand))[flush.value] >= 5)
    requires GroupCategories(hand, flush).category == Quads
    ensures |Groups(RanksOf(hand))| >= 1 && Groups(RanksOf(hand))[0].count == 4
    ensures GroupCategories(hand, flush) == QuadsValue(RanksOf(hand), Groups(RanksOf(hand))[0].rank)
  {
    FullHouseShape(RanksOf(hand));
  }

  /** Four of a kind: the tie-break is the rank held four times and then the highest other
      rank. */
  lemma QuadsTiebreak(hand: seq<int>)
    requires |hand| == 7 && EvaluateHand(hand).category == Quads
    ensures var ranks, tb := RanksOf(hand), EvaluateHand(hand).tiebreak;
      && multiset(ranks)[tb[0]] == 4
      && tb[1] in ranks && tb[1] != tb[0]
      && forall x :: x in ranks && x != tb[0] ==> x <= tb[1]
  {
    StraightFlushIff(hand);
    BelowStraightFlush(hand);
    GroupQuads(hand, FlushSuit(hand));
    QuadsKicker(RanksOf(hand), Groups(RanksOf(hand))[0].rank);
  }

  lemma QuadsKicker(ranks: seq<int>, quad: int)
    requires |ranks| == 7 && AllRanks(ranks) && 0 <= quad <= 12 && multiset(ranks)[quad] == 4
    ensures var tb := QuadsValue(ranks, quad).tiebreak;
      && tb[0] == quad
      && tb[1] in ranks && tb[1] != quad
      && forall x :: x in ranks && x != quad ==> x <= tb[1]
  {
  }

  /** Without a straight flush, a rank held four times always makes four of a kind. */
  lemma QuadsWhen(hand: seq<int>, x: int)
    requires |hand| == 7 && !HasStraightFlush(hand) && multiset(RanksOf(hand))[x] == 4
    ensures EvaluateHand(hand).category == Quads && EvaluateHand(hand).tiebreak[0] == x
  {
    var ranks := RanksOf(hand);
    assert x in ranks;
    TopGroupIsLargest(ranks, x);
    var top := Groups(ranks)[0];
    if top.rank != x {
      TwoCounts(ranks, top.rank, x);
    }
    StraightFlushIff(hand);
  }

  // -------------------------------------------------------------- full house

  lemma GroupFullHouse(hand: seq<int>, flush: Option<int>)
    requires |hand| == 7 && (flush.Some? ==> multiset(SuitsOf(hand))[flush.value] >= 5)
    requires GroupCategories(hand, flush).category == FullHouse
    ensures var rs := Groups(RanksOf(hand));
      && |rs| >= 2 && rs[0].count == 3 && FirstPair(rs[1..]).Some?
      && GroupCategories(hand, flush) == FullHouseValue(rs[0].rank, FirstPair(rs[1..]).value)
  {
    FullHouseShape(RanksOf(hand));
  }

  /** The pair search scans `rank_sorted[1:]`; in positions of `rank_sorted` it stops at the
      first entry after the head with a count of two or more. */
  lemma FirstPairAt(rs: seq<Group>) returns (i: nat)
    requires |rs| >= 1 && FirstPair(rs[1..]).Some?
    ensures 1 <= i < |rs| && rs[i].count >= 2 && rs[i].rank == FirstPair(rs[1..]).value
    ensures forall j :: 1 <= j < i ==> rs[j].count < 2
  {
    var rest := rs[1..];
    var k :| 0 <= k < |rest| && rest[k].count >= 2 && rest[k].rank == FirstPair(rest).value
      && forall j :: 0 <= j < k ==> rest[j].count < 2;
    i := k + 1;
    assert rs[i] == rest[k];
    assert forall j :: 1 <= j < i ==> rs[j] == rest[j - 1];
  }

  /** The pair of a full house is the highest rank, other than the three of a kind, held at
      least twice; the three of a kind is the highest rank held three times. */
  lemma FullHouseParts(ranks: seq<int>)
    requires |ranks| <= 7 && AllRanks(ranks)
    requires |Groups(ranks)| >= 2 && Groups(ranks)[0].count == 3 && FirstPair(Groups(ranks)[1..]).Some?
    ensures var three, pair := Groups(ranks)[0].rank, FirstPair(Groups(ranks)[1..]).value;
      && multiset(ranks)[three] == 3
      && (forall y :: y in ranks && multiset(ranks)[y] >= 3 ==> y <= three)
      && pair != three && multiset(ranks)[pair] >= 2
      && forall y :: y in ranks && y != three && multiset(ranks)[y] >= 2 ==> y <= pair
  {
    var rs := Groups(ranks);
    var three, pair := rs[0].rank, FirstPair(rs[1..]).value;
    var i := FirstPairAt(rs);
    assert Before(rs[0], rs[i]);
    forall y | y in ranks && multiset(ranks)[y] >= 3 ensures y <= three {
      TopGroupIsLargest(ranks, y);
    }
    forall y | y in ranks && y != three && multiset(ranks)[y] >= 2 ensures y <= pair {
      PairIsHighest(ranks, i - 1, y);
    }
  }

  /** Within seven cards a second group of three leaves no room for another pair, so the
      `(count, rank)` order of `rank_sorted` and the order by rank agree on the pair. */
  lemma PairIsHighest(ranks: seq<int>, i: nat, y: int)
    requires |ranks| <= 7 && AllRanks(ranks)
    requires |Groups(ranks)| >= 2 && Groups(ranks)[0].count == 3
    requires i + 1 < |Groups(ranks)| && Groups(ranks)[i + 1].count >= 2
    requires forall j :: 1 <= j <= i ==> Groups(ranks)[j].count < 2
    requires y in ranks && y != Groups(ranks)[0].rank && multiset(ranks)[y] >= 2
    ensures y <= Groups(ranks)[i + 1].rank
  {
    var rs := Groups(ranks);
    var three, pair := rs[0].rank, rs[i + 1].rank;
    GroupsComplete(ranks, y);
    var k :| 0 <= k < |rs| && rs[k].rank == y;
    assert k > 0;
    if k > i + 1 {
      assert Before(rs[i + 1], rs[k]);
      assert Before(rs[0], rs[i + 1]);
      if multiset(ranks)[pair] > multiset(ranks)[y] {
        ThreeCounts(ranks, three, pair, y);
      }
    }
  }

  /** Full house: the tie-break is the three of a kind and then the pair, each the highest
      available. */
  lemma FullHouseTiebreak(hand: seq<int>)
    requires |hand| == 7 && EvaluateHand(hand).category == FullHouse
    ensures var ranks, tb := RanksOf(hand), EvaluateHand(hand).tiebreak;
      && multiset(ranks)[tb[0]] == 3
      && (forall y :: y in ranks && multiset(ranks)[y] >= 3 ==> y <= tb[0])
      && tb[1] != tb[0] && multiset(ranks)[tb[1]] >= 2
      && forall y :: y in ranks && y != tb[0] && multiset(ranks)[y] >= 2 ==> y <= tb[1]
  {
    StraightFlushIff(hand);
    BelowStraightFlush(hand);
    GroupFullHouse(hand, FlushSuit(hand));
    FullHouseParts(RanksOf(hand));
  }

  // --------------------------------------------------- flush and straight

  lemma GroupRest(hand: seq<int>, flush: Option<int>)
    requires |hand| == 7 && (flush.Some? ==> multiset(SuitsOf(hand))[flush.value] >= 5)
    requires GroupCategories(hand, flush).category <= Flush
    ensures GroupCategories(hand, flush) == FlushOrStraight(hand, flush)
    ensures var rs := Groups(RanksOf(hand));
      && |rs| >= 1 && rs[0].count != 4
      && (rs[0].count == 3 ==> |rs| >= 2 && FirstPair(rs[1..]).None?)
  {
    FullHouseShape(RanksOf(hand));
  }

  /** Below the full house the cascade goes on with the flush, the straight and then the
      categories decided by `rank_sorted` alone. */
  lemma BelowFullHouse(hand: seq<int>)
    requires |hand| == 7 && EvaluateHand(hand).category <= Flush
    ensures EvaluateHand(hand) == FlushOrStraight(hand, FlushSuit(hand))
    ensures var rs := Groups(RanksOf(hand));
      && |rs| >= 1 && rs[0].count != 4
      && (rs[0].count == 3 ==> |rs| >= 2 && FirstPair(rs[1..]).None?)
  {
    StraightFlushIff(hand);
    BelowStraightFlush(hand);
    GroupRest(hand, FlushSuit(hand));
  }

  lemma FlushBranch(hand: seq<int>, flush: Option<int>)
    requires |hand| == 7 && (flush.Some? ==> multiset(SuitsOf(hand))[flush.value] >= 5)
    requires FlushOrStraight(hand, flush).category == Flush
    ensures flush.Some? && |SuitedRanks(hand, flush.value)| >= 5
    ensures FlushOrStraight(hand, flush) == FlushValue(SuitedRanks(hand, flush.value))
  {
    if flush.Some? {
      SuitedLength(hand, flush.value);
    }
  }

  /** The flush tie-break is the five highest ranks of the suit, highest first. */
  lemma FlushKicker(suited: seq<int>)
    requires |suited| >= 5 && AllRanks(suited)
    ensures |FlushValue(suited).tiebreak| == 5 && IsTop(FlushValue(suited).tiebreak, suited)
  {
    TopOf(suited, 5);
  }

  /** Flush: a suit is held five or more times and the tie-break is that suit's five highest
      ranks, highest first. */
  lemma FlushTiebreak(hand: seq<int>)
    requires |hand| == 7 && EvaluateHand(hand).category == Flush
    ensures FlushSuit(hand).Some? && multiset(SuitsOf(hand))[FlushSuit(hand).value] >= 5
    ensures |EvaluateHand(hand).tiebreak| == 5
    ensures IsTop(EvaluateHand(hand).tiebreak, SuitedRanks(hand, FlushSuit(hand).value))
  {
    BelowFullHouse(hand);
    FlushBranch(hand, FlushSuit(hand));
    FlushKicker(SuitedRanks(hand, FlushSuit(hand).value));
  }

  /** Straight: no suit is held five times and the tie-break is the highest run among the
      hand's ranks. */
  lemma StraightTiebreak(hand: seq<int>)
    requires |hand| == 7 && EvaluateHand(hand).category == Straight
    ensures FlushSuit(hand).None?
    ensures GetStraight(RanksOf(hand)) == Some(EvaluateHand(hand).tiebreak)
  {
    BelowFullHouse(hand);
  }

  /** Below the straight only `rank_sorted` decides. */
  lemma BelowStraight(hand: seq<int>)
    requires |hand| == 7 && EvaluateHand(hand).category <= Trips
    ensures EvaluateHand(hand) == LowerCategories(RanksOf(hand))
    ensures var rs := Groups(RanksOf(hand));
      && |rs| >= 1 && rs[0].count != 4
      && (rs[0].count == 3 ==> |rs| >= 2 && FirstPair(rs[1..]).None?)
  {
    BelowFullHouse(hand);
  }

  // ------------------------------------------------ trips, two pair, pair, high card

  /** A rank other than the first entry's has at most the second entry's count, and with an
      equal count it is not above the second entry's rank. */
  lemma SecondGroupIsLargest(ranks: seq<int>, y: int)
    requires |Groups(ranks)| >= 2 && y in ranks && 0 <= y <= 12 && y != Groups(ranks)[0].rank
    ensures multiset(ranks)[y] <= Groups(ranks)[1].count
    ensures multiset(ranks)[y] == Groups(ranks)[1].count ==> y <= Groups(ranks)[1].rank
  {
    GroupsComplete(ranks, y);
    var rs := Groups(ranks);
    var k :| 0 <= k < |rs| && rs[k].rank == y;
    if k > 1 {
      assert Before(rs[1], rs[k]);
    }
  }

  /** Every rank of the hand other than the first entry's occurs exactly once when no later
      entry has a count of two or more. */
  lemma OthersSingle(ranks: seq<int>)
    requires AllRanks(ranks) && |Groups(ranks)| >= 1
    requires forall j :: 1 <= j < |Groups(ranks)| ==> Groups(ranks)[j].count < 2
    ensures forall y :: y in ranks && y != Groups(ranks)[0].rank ==> multiset(ranks)[y] == 1
  {
    forall y | y in ranks && y != Groups(ranks)[0].rank ensures multiset(ranks)[y] == 1 {
      GroupsComplete(ranks, y);
    }
  }

  /** After a head of three with no pair behind it every other rank occurs once. */
  lemma TripsAlone(ranks: seq<int>)
    requires AllRanks(ranks) && |Groups(ranks)| >= 2 && FirstPair(Groups(ranks)[1..]).None?
    ensures forall y :: y in ranks && y != Groups(ranks)[0].rank ==> multiset(ranks)[y] == 1
  {
    var rs := Groups(ranks);
    var rest := rs[1..];
    assert forall j :: 1 <= j < |rs| ==> rs[j] == rest[j - 1];
    OthersSingle(ranks);
  }

  /** A top count of one means every rank occurs once. */
  lemma AllSingle(ranks: seq<int>)
    requires AllRanks(ranks) && |Groups(ranks)| >= 1 && Groups(ranks)[0].count <= 1
    ensures forall y :: y in ranks ==> multiset(ranks)[y] == 1
  {
    forall y | y in ranks ensures multiset(ranks)[y] == 1 {
      TopGroupIsLargest(ranks, y);
    }
  }

  lemma TripsBranch(ranks: seq<int>)
    requires |ranks| == 7 && AllRanks(ranks) && LowerCategories(ranks).category == Trips
    ensures |Groups(ranks)| >= 1 && Groups(ranks)[0].count == 3
    ensures LowerCategories(ranks) == TripsValue(ranks, Groups(ranks)[0].rank)
  {
    GroupsShape(ranks);
  }

  lemma TripsKicker(ranks: seq<int>, three: int)
    requires |ranks| == 7 && AllRanks(ranks) && 0 <= three <= 12 && multiset(ranks)[three] == 3
    ensures var tb := TripsValue(ranks, three).tiebreak;
      tb[0] == three && IsTop(tb[1..], Others(ranks, three))
  {
    var tb := TripsValue(ranks, three).tiebreak;
    assert tb[1..] == Take(SortDesc(Others(ranks, three)), 2);
    TopOf(Others(ranks, three), 2);
  }

  /** Three of a kind: one rank is held three times, every other rank once, and the tie-break
      is that rank followed by the two highest other ranks, highest first. */
  lemma TripsTiebreak(hand: seq<int>)
    requires |hand| == 7 && EvaluateHand(hand).category == Trips
    ensures var ranks, tb := RanksOf(hand), EvaluateHand(hand).tiebreak;
      && multiset(ranks)[tb[0]] == 3
      && (forall y :: y in ranks && y != tb[0] ==> multiset(ranks)[y] == 1)
      && IsTop(tb[1..], Others(ranks, tb[0]))
  {
    var ranks := RanksOf(hand);
    BelowStraight(hand);
    TripsBranch(ranks);
    TripsKicker(ranks, Groups(ranks)[0].rank);
    TripsAlone(ranks);
  }

  lemma TwoPairBranch(ranks: seq<int>)
    requires |ranks| == 7 && AllRanks(ranks) && LowerCategories(ranks).category == TwoPair
    ensures |Groups(ranks)| >= 2 && Groups(ranks)[0].count == 2 && Groups(ranks)[1].count == 2
    ensures LowerCategories(ranks) == TwoPairValue(ranks, Groups(ranks)[0].rank, Groups(ranks)[1].rank)
  {
    GroupsShape(ranks);
  }

  lemma TwoPairKicker(ranks: seq<int>, high: int, low: int)
    requires |ranks| == 7 && AllRanks(ranks) && 0 <= high <= 12 && 0 <= low <= 12 && high > low
    requires multiset(ranks)[high] == 2 && multiset(ranks)[low] == 2
    ensures var tb := TwoPairValue(ranks, high, low).tiebreak;
      && tb[0] == high && tb[1] == low
      && tb[2] in ranks && tb[2] != high && tb[2] != low
      && forall z :: z in ranks && z != high && z != low ==> z <= tb[2]
  {
    SortTwo(high, low);
  }

  /** Two pair: the two highest ranks held twice, highest first, then the highest remaining
      rank (which may itself be a third pair). No rank is held more than twice. */
  lemma TwoPairTiebreak(hand: seq<int>)
    requires |hand| == 7 && EvaluateHand(hand).category == TwoPair
    ensures var ranks, tb := RanksOf(hand), EvaluateHand(hand).tiebreak;
      && tb[0] > tb[1] && multiset(ranks)[tb[0]] == 2 && multiset(ranks)[tb[1]] == 2
      && (forall y :: y in ranks ==> multiset(ranks)[y] <= 2)
      && (forall y :: y in ranks && y != tb[0] && y != tb[1] && multiset(ranks)[y] == 2 ==> y < tb[1])
      && tb[2] in ranks && tb[2] != tb[0] && tb[2] != tb[1]
      && forall z :: z in ranks && z != tb[0] && z != tb[1] ==> z <= tb[2]
  {
    var ranks := RanksOf(hand);
    BelowStraight(hand);
    TwoPairBranch(ranks);
    var rs := Groups(ranks);
    assert Before(rs[0], rs[1]);
    TwoPairKicker(ranks, rs[0].rank, rs[1].rank);
    forall y | y in ranks ensures multiset(ranks)[y] <= 2 {
      TopGroupIsLargest(ranks, y);
    }
    forall y | y in ranks && y != rs[0].rank && y != rs[1].rank && multiset(ranks)[y] == 2
      ensures y < rs[1].rank
    {
      SecondGroupIsLargest(ranks, y);
    }
  }

  lemma PairBranch(ranks: seq<int>)
    requires |ranks| == 7 && AllRanks(ranks) && LowerCategories(ranks).category == OnePair
    ensures |Groups(ranks)| >= 2 && Groups(ranks)[0].count == 2 && Groups(ranks)[1].count != 2
    ensures LowerCategories(ranks) == PairValue(ranks, Groups(ranks)[0].rank)
  {
    GroupsShape(ranks);
  }

  lemma PairKicker(ranks: seq<int>, pair: int)
    requires |ranks| == 7 && AllRanks(ranks) && 0 <= pair <= 12 && multiset(ranks)[pair] == 2
    ensures var tb := PairValue(ranks, pair).tiebreak;
      tb[0] == pair && IsTop(tb[1..], Others(ranks, pair))
  {
    var tb := PairValue(ranks, pair).tiebreak;
    assert tb[1..] == Take(SortDesc(Others(ranks, pair)), 3);
    TopOf(Others(ranks, pair), 3);
  }

  /** One pair: one rank is held twice, every other rank once, and the tie-break is that rank
      followed by the three highest other ranks, highest first. */
  lemma PairTiebreak(hand: seq<int>)
    requires |hand| == 7 && EvaluateHand(hand).category == OnePair
    ensures var ranks, tb := RanksOf(hand), EvaluateHand(hand).tiebreak;
      && multiset(ranks)[tb[0]] == 2
      && (forall y :: y in ranks && y != tb[0] ==> multiset(ranks)[y] == 1)
      && IsTop(tb[1..], Others(ranks, tb[0]))
  {
    var ranks := RanksOf(hand);
    BelowStraight(hand);
    PairBranch(ranks);
    PairKicker(ranks, Groups(ranks)[0].rank);
    var rs := Groups(ranks);
    assert Before(rs[0], rs[1]);
    forall j | 1 < j < |rs| ensures rs[j].count < 2 {
      assert Before(rs[1], rs[j]);
    }
    OthersSingle(ranks);
  }

  lemma HighCardBranch(ranks: seq<int>)
    requires |ranks| == 7 && AllRanks(ranks) && LowerCategories(ranks).category == HighCard
    ensures |Groups(ranks)| >= 1 && Groups(ranks)[0].count != 2 && Groups(ranks)[0].count != 3
    ensures LowerCategories(ranks) == HighCardValue(ranks)
  {
    GroupsShape(ranks);
  }

  /** High card: the tie-break is the five highest ranks, highest first; when no rank is held
      more than four times (as in any hand of distinct cards) every rank is held once. */
  lemma HighCardTiebreak(hand: seq<int>)
    requires |hand| == 7 && EvaluateHand(hand).category == HighCard
    ensures var ranks, tb := RanksOf(hand), EvaluateHand(hand).tiebreak;
      && IsTop(tb, ranks)
      && ((forall y :: multiset(ranks)[y] <= 4) ==> forall y :: y in ranks ==> multiset(ranks)[y] == 1)
  {
    var ranks := RanksOf(hand);
    BelowStraight(hand);
    HighCardBranch(ranks);
    TopOf(ranks, 5);
    var top := Groups(ranks)[0];
    if forall y :: multiset(ranks)[y] <= 4 {
      assert multiset(ranks)[top.rank] <= 4;
      AllSingle(ranks);
    }
  }

  // ------------------------------------------------------- order independence

  /** Reordering the cards reorders the ranks. */
  lemma RanksPerm(h1: seq<int>, h2: seq<int>)
    requires multiset(h1) == multiset(h2)
    ensures multiset(RanksOf(h1)) == multiset(RanksOf(h2))
    ensures multiset(SuitsOf(h1)) == multiset(SuitsOf(h2))
  {
    MapSeqPerm(Rank, h1, h2);
    MapSeqPerm(Suit, h1, h2);
  }

  /** Equal multisets have equal sets of members. */
  lemma SetOfPerm(a: seq<int>, b: seq<int>)
    requires multiset(a) == multiset(b)
    ensures SetOf(a) == SetOf(b)
  {
    forall x ensures x in SetOf(a) <==> x in SetOf(b) {
      assert x in a <==> x in multiset(a);
      assert x in b <==> x in multiset(b);
    }
  }

  /** Seven cards hold at most one suit five times, so the suit found does not depend on the
      order in which the Counter meets the suits. */
  lemma FlushSuitPerm(h1: seq<int>, h2: seq<int>)
    requires |h1| == 7 && multiset(h1) == multiset(h2)
    ensures FlushSuit(h1) == FlushSuit(h2)
  {
    RanksPerm(h1, h2);
    var f1, f2 := FlushSuit(h1), FlushSuit(h2);
    if f1.Some? && f2.Some? && f1.value != f2.value {
      TwoCounts(SuitsOf(h1), f1.value, f2.value);
    }
  }

  lemma SuitedPerm(h1: seq<int>, h2: seq<int>, s: int)
    requires multiset(h1) == multiset(h2)
    ensures multiset(SuitedRanks(h1, s)) == multiset(SuitedRanks(h2, s))
  {
    FilterPerm(SuitIs(s), h1, h2);
    MapSeqPerm(Rank, FilterSeq(SuitIs(s), h1), FilterSeq(SuitIs(s), h2));
  }

  lemma OthersPerm(r1: seq<int>, r2: seq<int>, x: int)
    requires multiset(r1) == multiset(r2)
    ensures SortDesc(Others(r1, x)) == SortDesc(Others(r2, x))
  {
    FilterPerm(NotRank(x), r1, r2);
    SortDescPerm(Others(r1, x), Others(r2, x));
  }

  lemma AllRanksPerm(r1: seq<int>, r2: seq<int>)
    requires AllRanks(r1) && multiset(r1) == multiset(r2)
    ensures |r2| == |r1| && AllRanks(r2)
  {
    assert |r2| == |multiset(r2)|;
    forall x | x in r2 ensures 0 <= x <= 12 {
      assert x in multiset(r1);
      assert x in r1;
    }
  }

  lemma TwoPairPerm(r1: seq<int>, r2: seq<int>, high: int, low: int)
    requires |r1| == 7 && AllRanks(r1) && 0 <= high <= 12 && 0 <= low <= 12 && high != low
    requires multiset(r1)[high] == 2 && multiset(r1)[low] == 2
    requires |r2| == 7 && AllRanks(r2) && multiset(r1) == multiset(r2)
    ensures TwoPairValue(r1, high, low) == TwoPairValue(r2, high, low)
  {
    FilterPerm(NotRanks(high, low), r1, r2);
    Others2Length(r1, high, low);
    MaxOfPerm(Others2(r1, high, low), Others2(r2, high, low));
  }

  lemma LowerPerm(r1: seq<int>, r2: seq<int>)
    requires |r1| == 7 && AllRanks(r1) && multiset(r1) == multiset(r2)
    ensures |r2| == 7 && AllRanks(r2)
    ensures LowerCategories(r1) == LowerCategories(r2)
  {
    AllRanksPerm(r1, r2);
    assert Groups(r1) == Groups(r2);
    var rs := Groups(r1);
    GroupsShape(r1);
    if rs[0].count == 3 || rs[0].count == 2 {
      OthersPerm(r1, r2, rs[0].rank);
    }
    if rs[0].count == 2 && rs[1].count == 2 {
      TwoPairPerm(r1, r2, rs[0].rank, rs[1].rank);
    } else if rs[0].count != 3 && rs[0].count != 2 {
      SortDescPerm(r1, r2);
    }
  }

  lemma FlushOrStraightPerm(h1: seq<int>, h2: seq<int>, flush: Option<int>)
    requires |h1| == 7 && multiset(h1) == multiset(h2)
    requires flush.Some? ==> multiset(SuitsOf(h1))[flush.value] >= 5
    ensures |h2| == 7 && (flush.Some? ==> multiset(SuitsOf(h2))[flush.value] >= 5)
    ensures FlushOrStraight(h1, flush) == FlushOrStraight(h2, flush)
  {
    assert |h2| == |multiset(h2)|;
    RanksPerm(h1, h2);
    if flush.Some? {
      SuitedPerm(h1, h2, flush.value);
      SortDescPerm(SuitedRanks(h1, flush.value), SuitedRanks(h2, flush.value));
    } else {
      SetOfPerm(RanksOf(h1), RanksOf(h2));
      LowerPerm(RanksOf(h1), RanksOf(h2));
    }
  }

  lemma GroupCategoriesPerm(h1: seq<int>, h2: seq<int>, flush: Option<int>)
    requires |h1| == 7 && multiset(h1) == multiset(h2)
    requires flush.Some? ==> multiset(SuitsOf(h1))[flush.value] >= 5
    ensures |h2| == 7 && (flush.Some? ==> multiset(SuitsOf(h2))[flush.value] >= 5)
    ensures GroupCategories(h1, flush) == GroupCategories(h2, flush)
  {
    FlushOrStraightPerm(h1, h2, flush);
    var r1, r2 := RanksOf(h1), RanksOf(h2);
    RanksPerm(h1, h2);
    assert Groups(r1) == Groups(r2);
    FullHouseShape(r1);
    var top := Groups(r1)[0];
    if top.count == 4 {
      FilterPerm(NotRank(top.rank), r1, r2);
      OthersLength(r1, top.rank);
      MaxOfPerm(Others(r1, top.rank), Others(r2, top.rank));
    }
  }

  /** The evaluation depends on the cards only, not on the order they are listed in. */
  lemma EvaluateHandPerm(h1: seq<int>, h2: seq<int>)
    requires |h1| == 7 && multiset(h1) == multiset(h2)
    ensures |h2| == 7 && EvaluateHand(h1) == EvaluateHand(h2)
  {
    FlushSuitPerm(h1, h2);
    GroupCategoriesPerm(h1, h2, FlushSuit(h1));
    var f := FlushSuit(h1);
    if f.Some? {
      SuitedPerm(h1, h2, f.value);
      SetOfPerm(SuitedRanks(h1, f.value), SuitedRanks(h2, f.value));
    }
  }

  // ------------------------------------------------------------- comparison

  lemma {:induction false} LexIrreflexive(a: seq<int>)
    ensures !LexLess(a, a)
    decreases |a|
  {
    if a != [] {
      LexIrreflexive(a[1..]);
    }
  }

  lemma {:induction false} LexTransitive(a: seq<int>, b: seq<int>, c: seq<int>)
    requires LexLess(a, b) && LexLess(b, c)
    ensures LexLess(a, c)
    decreases |a|
  {
    if a != [] && b != [] && c != [] && a[0] == b[0] && b[0] == c[0] {
      LexTransitive(a[1..], b[1..], c[1..]);
    }
  }

  /** Two different lists are ordered one way or the other, and never both ways. */
  lemma {:induction false} LexTrichotomy(a: seq<int>, b: seq<int>)
    ensures a == b <==> !LexLess(a, b) && !LexLess(b, a)
    ensures !(LexLess(a, b) && LexLess(b, a))
    decreases |a|
  {
    if a == b {
      LexIrreflexive(a);
    } else if a != [] && b != [] && a[0] == b[0] {
      LexTrichotomy(a[1..], b[1..]);
      if a[1..] == b[1..] {
        SameHeadTail(a, b);
      }
    }
  }

  /** The result tuples are totally ordered: exactly one of less, equal, greater holds, so
      the showdown's three outcomes are exclusive and exhaustive. */
  lemma ValueTrichotomy(a: HandValue, b: HandValue)
    ensures a == b <==> !ValueLess(a, b) && !ValueLess(b, a)
    ensures !(ValueLess(a, b) && ValueLess(b, a))
  {
    LexTrichotomy(a.tiebreak, b.tiebreak);
  }

  lemma ValueTransitive(a: HandValue, b: HandValue, c: HandValue)
    requires ValueLess(a, b) && ValueLess(b, c)
    ensures ValueLess(a, c)
  {
    if a.category == b.category == c.category {
      LexTransitive(a.tiebreak, b.tiebreak, c.tiebreak);
    }
  }

  // ------------------------------------------------ straights as one high rank

  /** Two runs compare as their first ranks do, and a run is fixed by its first rank. */
  lemma RunOrder(a: seq<int>, b: seq<int>)
    requires IsRun(a) && IsRun(b)
    ensures LexLess(a, b) <==> a[0] < b[0]
    ensures a == b <==> a[0] == b[0]
  {
    if a[0] == b[0] {
      LexIrreflexive(a);
    }
  }

  /** The result with each run cut down to its first rank, the form `[high]` in which a
      straight's tie-break is usually written. */
  function Compact(v: HandValue): (c: HandValue)
    ensures c.category == v.category
    ensures (v.category == Straight || v.category >= StraightFlush) && v.tiebreak != [] ==>
      c.tiebreak == [v.tiebreak[0]]
    ensures !(v.category == Straight || v.category >= StraightFlush) ==> c == v
  {
    if (v.category == Straight || v.category >= StraightFlush) && v.tiebreak != [] then
      HandValue(v.category, [v.tiebreak[0]])
    else v
  }

  /** Straights, straight flushes and royal flushes carry a run as tie-break. */
  lemma RunCategories(hand: seq<int>)
    requires |hand| == 7
    requires EvaluateHand(hand).category == Straight || EvaluateHand(hand).category >= StraightFlush
    ensures IsRun(EvaluateHand(hand).tiebreak)
  {
    StraightFlushIff(hand);
    if EvaluateHand(hand).category == Straight {
      StraightTiebreak(hand);
    }
  }

  /** A result whose straight-like tie-break is a run. */
  predicate RunsWhole(v: HandValue)
  {
    v.category == Straight || v.category >= StraightFlush ==> IsRun(v.tiebreak)
  }

  lemma CompactValues(v1: HandValue, v2: HandValue)
    requires RunsWhole(v1) && RunsWhole(v2)
    ensures ValueLess(v1, v2) <==> ValueLess(Compact(v1), Compact(v2))
    ensures v1 == v2 <==> Compact(v1) == Compact(v2)
  {
    if v1.category == v2.category && (v1.category == Straight || v1.category >= StraightFlush) {
      RunOrder(v1.tiebreak, v2.tiebreak);
      var c1, c2 := Compact(v1).tiebreak, Compact(v2).tiebreak;
      assert LexLess(c1, c2) <==> c1[0] < c2[0] by {
        assert c1[1..] == [] && c2[1..] == [];
      }
    }
  }

  /** Writing straights by their high rank alone orders and ties hands exactly as the full
      runs do. */
  lemma CompactOrder(h1: seq<int>, h2: seq<int>)
    requires |h1| == 7 && |h2| == 7
    ensures ValueLess(EvaluateHand(h1), EvaluateHand(h2)) <==>
      ValueLess(Compact(EvaluateHand(h1)), Compact(EvaluateHand(h2)))
    ensures EvaluateHand(h1) == EvaluateHand(h2) <==> Compact(EvaluateHand(h1)) == Compact(EvaluateHand(h2))
  {
    if EvaluateHand(h1).category == Straight || EvaluateHand(h1).category >= StraightFlush {
      RunCategories(h1);
    }
    if EvaluateHand(h2).category == Straight || EvaluateHand(h2).category >= StraightFlush {
      RunCategories(h2);
    }
    CompactValues(EvaluateHand(h1), EvaluateHand(h2));
  }
}
