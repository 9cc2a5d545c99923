// The hands of the evaluator's own test suite, each proved to get the value `evaluate_hand`
// computes for it. Each example is split the same way: the card ids give the ranks and
// suits, lemmas on the ranks alone pin `rank_sorted`, the straight search and the kickers,
// and the example puts them together.
//
// Straights, straight flushes and royal flushes get the whole five-rank run as their
// tie-break, as the code returns it; the test suite expects only the run's top rank there.
module EvaluatorExamples {
  import opened Common
  import opened Evaluator
  import opened EvaluatorProps
  import opened EvaluatorCategory

  // ------------------------------------------------------------- shared steps

  /** No suit is held five times. */
  ghost predicate NoFlush(suits: seq<int>)
  {
    forall s :: multiset(suits)[s] < 5
  }

  /** The flush suit's ranks, read off a split of the hand into the cards of suit s and the
      others. */
  lemma SuitedRanksOf(hand: seq<int>, s: int, inSuit: seq<int>, rest: seq<int>)
    requires multiset(hand) == multiset(inSuit + rest)
    requires forall x :: x in SuitsOf(inSuit) ==> x == s
    requires s !in SuitsOf(rest)
    ensures multiset(SuitedRanks(hand, s)) == multiset(RanksOf(inSuit))
  {
    forall c | c in inSuit ensures Suit(c) == s {
      var i :| 0 <= i < |inSuit| && inSuit[i] == c;
      assert SuitsOf(inSuit)[i] == Suit(c) && SuitsOf(inSuit)[i] in SuitsOf(inSuit);
    }
    forall c | c in rest ensures Suit(c) != s {
      var i :| 0 <= i < |rest| && rest[i] == c;
      assert SuitsOf(rest)[i] == Suit(c) && SuitsOf(rest)[i] in SuitsOf(rest);
    }
    var p := SuitIs(s);
    var f := FilterSeq(p, inSuit + rest);
    forall y ensures multiset(f)[y] == multiset(inSuit)[y] {
      FilterCount(p, inSuit + rest, y);
    }
    assert multiset(f) == multiset(inSuit);
    FilterPerm(p, hand, inSuit + rest);
    MapSeqPerm(Rank, FilterSeq(p, hand), inSuit);
  }

  /** Without five cards of one suit there is no flush suit. */
  lemma Unsuited(hand: seq<int>)
    requires |hand| == 7 && NoFlush(SuitsOf(hand))
    ensures FlushSuit(hand) == None
  {
    FlushSuitSome(hand);
    assert !HasFlush(hand);
  }

  /** Past the straight-flush test, with no four of a kind and no full house, the cascade
      goes on to the flush and straight tests. */
  lemma PastFullHouse(hand: seq<int>)
    requires |hand| == 7
    requires FlushSuit(hand).Some? ==> GetStraight(SuitedRanks(hand, FlushSuit(hand).value)).None?
    requires |Groups(RanksOf(hand))| >= 2 && Groups(RanksOf(hand))[0].count <= 3
    requires Groups(RanksOf(hand))[0].count == 3 ==> FirstPair(Groups(RanksOf(hand))[1..]) == None
    ensures EvaluateHand(hand) == FlushOrStraight(hand, FlushSuit(hand))
  {
  }

  /** No flush, a group of three and a later pair: the hand is a full house. */
  lemma FullHouseCascade(hand: seq<int>, three: int, pair: int)
    requires |hand| == 7 && FlushSuit(hand) == None
    requires |Groups(RanksOf(hand))| >= 2 && Groups(RanksOf(hand))[0] == Group(3, three)
    requires FirstPair(Groups(RanksOf(hand))[1..]) == Some(pair)
    ensures EvaluateHand(hand) == HandValue(FullHouse, [three, pair])
  {
  }

  /** A flush suit without a straight in it, and no four of a kind or full house: the
      hand is a flush of the suit's five highest ranks. */
  lemma FlushCascade(hand: seq<int>, s: int, top: seq<int>)
    requires |hand| == 7 && FlushSuit(hand) == Some(s)
    requires GetStraight(SuitedRanks(hand, s)) == None
    requires |Groups(RanksOf(hand))| >= 2 && Groups(RanksOf(hand))[0].count <= 2
    requires Take(SortDesc(SuitedRanks(hand, s)), 5) == top
    ensures EvaluateHand(hand) == HandValue(Flush, top)
  {
    PastFullHouse(hand);
  }

  /** With no flush and no straight either, the hand is valued by the lower categories. */
  lemma PastStraight(hand: seq<int>)
    requires |hand| == 7 && FlushSuit(hand) == None
    requires |Groups(RanksOf(hand))| >= 2 && Groups(RanksOf(hand))[0].count <= 3
    requires Groups(RanksOf(hand))[0].count == 3 ==> FirstPair(Groups(RanksOf(hand))[1..]) == None
    requires GetStraight(RanksOf(hand)) == None
    ensures EvaluateHand(hand) == LowerCategories(RanksOf(hand))
  {
    PastFullHouse(hand);
  }

  /** Solver aid: the literal concatenation, stated once so proofs need not expand it. */
  lemma Joined3(x: int, a: int, b: int)
    ensures [x] + [a, b] == [x, a, b]
  {
  }

  /** Solver aid: the literal concatenation, stated once so proofs need not expand it. */
  lemma Joined4(x: int, a: int, b: int, c: int)
    ensures [x] + [a, b, c] == [x, a, b, c]
  {
  }

  /** Solver aid: the literal concatenation, stated once so proofs need not expand it. */
  lemma Joined2(x: int, y: int, z: int)
    ensures [x, y] + [z] == [x, y, z]
  {
  }

  /** Groups after the first that are all single cards hold no pair. */
  lemma NoLaterPair(rs: seq<Group>)
    requires |rs| >= 1
    requires forall i :: 1 <= i < |rs| ==> rs[i].count < 2
    ensures FirstPair(rs[1..]) == None
  {
    var rest := rs[1..];
    forall i | 0 <= i < |rest|
      ensures rest[i].count < 2
    {
      assert rest[i] == rs[i + 1];
    }
  }

  /** The lower categories, each read off the leading entries of `rank_sorted` and the
      sorted kickers, once the flush and straight tests have failed. */
  lemma TripsCascade(hand: seq<int>, three: int, k1: int, k2: int)
    requires |hand| == 7 && FlushSuit(hand) == None && GetStraight(RanksOf(hand)) == None
    requires |Groups(RanksOf(hand))| >= 2 && Groups(RanksOf(hand))[0] == Group(3, three)
    requires FirstPair(Groups(RanksOf(hand))[1..]) == None
    requires Take(SortDesc(Others(RanksOf(hand), three)), 2) == [k1, k2]
    ensures EvaluateHand(hand) == HandValue(Trips, [three, k1, k2])
  {
    PastStraight(hand);
    var ranks := RanksOf(hand);
    assert LowerCategories(ranks) == TripsValue(ranks, three);
    Joined3(three, k1, k2);
  }

  lemma TwoPairCascade(hand: seq<int>, high: int, low: int, kicker: int)
    requires |hand| == 7 && FlushSuit(hand) == None && GetStraight(RanksOf(hand)) == None
    requires high > low
    requires |Groups(RanksOf(hand))| >= 2 && Groups(RanksOf(hand))[0] == Group(2, high)
    requires Groups(RanksOf(hand))[1] == Group(2, low)
    requires kicker in Others2(RanksOf(hand), high, low)
    requires MaxOf(Others2(RanksOf(hand), high, low)) == kicker
    ensures EvaluateHand(hand) == HandValue(TwoPair, [high, low, kicker])
  {
    PastStraight(hand);
    var ranks := RanksOf(hand);
    assert LowerCategories(ranks) == TwoPairValue(ranks, high, low);
    SortTwo(high, low);
    Joined2(high, low, kicker);
  }

  lemma PairCascade(hand: seq<int>, pair: int, k1: int, k2: int, k3: int)
    requires |hand| == 7 && FlushSuit(hand) == None && GetStraight(RanksOf(hand)) == None
    requires |Groups(RanksOf(hand))| >= 2 && Groups(RanksOf(hand))[0] == Group(2, pair)
    requires Groups(RanksOf(hand))[1].count < 2
    requires Take(SortDesc(Others(RanksOf(hand), pair)), 3) == [k1, k2, k3]
    ensures EvaluateHand(hand) == HandValue(OnePair, [pair, k1, k2, k3])
  {
    PastStraight(hand);
    var ranks := RanksOf(hand);
    assert LowerCategories(ranks) == PairValue(ranks, pair);
    Joined4(pair, k1, k2, k3);
  }

  lemma HighCardCascade(hand: seq<int>, top: seq<int>)
    requires |hand| == 7 && FlushSuit(hand) == None && GetStraight(RanksOf(hand)) == None
    requires |Groups(RanksOf(hand))| >= 2 && Groups(RanksOf(hand))[0].count < 2
    requires Take(SortDesc(RanksOf(hand)), 5) == top
    ensures EvaluateHand(hand) == HandValue(HighCard, top)
  {
    PastStraight(hand);
  }

  /** Rank x, with its count, comes before every rank of the hand other than x and `skip`
      in `rank_sorted`'s order. */
  ghost predicate LeadsAll(ranks: seq<int>, x: int, skip: int)
  {
    forall z :: z in ranks && z != x && z != skip ==>
      Before(Group(multiset(ranks)[x], x), Group(multiset(ranks)[z], z))
  }

  /** The first two entries of `rank_sorted`, read off the counts: x comes before every other
      rank, and y before every rank but x. Every later entry is no larger than y's. */
  lemma LeadingGroups(ranks: seq<int>, x: int, y: int)
    requires AllRanks(ranks) && x in ranks && y in ranks && x != y
    requires LeadsAll(ranks, x, x) && LeadsAll(ranks, y, x)
    ensures |Groups(ranks)| >= 2
    ensures Groups(ranks)[0] == Group(multiset(ranks)[x], x)
    ensures Groups(ranks)[1] == Group(multiset(ranks)[y], y)
    ensures forall i :: 1 <= i < |Groups(ranks)| ==> Groups(ranks)[i].count <= multiset(ranks)[y]
  {
    var rs := Groups(ranks);
    TopGroupIsLargest(ranks, x);
    assert rs[0].rank in multiset(ranks);
    GroupsComplete(ranks, y);
    SecondGroupIsLargest(ranks, y);
    assert rs[1].rank in multiset(ranks);
  }

  /** `[r for r in ranks if r != x]` when the cards of rank x all come first. */
  lemma OthersAfter(xs: seq<int>, t: seq<int>, x: int)
    requires forall i :: 0 <= i < |xs| ==> xs[i] == x
    requires forall i :: 0 <= i < |t| ==> t[i] != x
    ensures Others(xs + t, x) == t
  {
    FilterDropsPrefix(NotRank(x), xs, t);
    FilterKeepsAll(NotRank(x), t);
  }

  /** `[r for r in ranks if r != x and r != y]` when the cards of ranks x and y all come
      first. */
  lemma Others2After(xs: seq<int>, t: seq<int>, x: int, y: int)
    requires forall i :: 0 <= i < |xs| ==> xs[i] == x || xs[i] == y
    requires forall i :: 0 <= i < |t| ==> t[i] != x && t[i] != y
    ensures Others2(xs + t, x, y) == t
  {
    FilterDropsPrefix(NotRanks(x, y), xs, t);
    FilterKeepsAll(NotRanks(x, y), t);
  }

  lemma {:induction false} FilterKeepsAll(p: int -> bool, t: seq<int>)
    requires forall i :: 0 <= i < |t| ==> p(t[i])
    ensures FilterSeq(p, t) == t
  {
    if t != [] {
      FilterKeepsAll(p, t[1..]);
      assert t == [t[0]] + t[1..];
    }
  }

  lemma {:induction false} FilterDropsPrefix(p: int -> bool, xs: seq<int>, t: seq<int>)
    requires forall i :: 0 <= i < |xs| ==> !p(xs[i])
    ensures FilterSeq(p, xs + t) == FilterSeq(p, t)
  {
    if xs != [] {
      assert (xs + t)[0] == xs[0];
      assert (xs + t)[1..] == xs[1..] + t;
      FilterDropsPrefix(p, xs[1..], t);
    } else {
      assert xs + t == t;
    }
  }

  /** The straight search only looks at which ranks are present. */
  lemma SameStraight(a: seq<int>, b: seq<int>)
    requires multiset(a) == multiset(b)
    ensures GetStraight(a) == GetStraight(b)
  {
    forall x ensures x in SetOf(a) <==> x in SetOf(b) {
      assert x in a <==> x in multiset(a);
      assert x in b <==> x in multiset(b);
    }
    assert SetOf(a) == SetOf(b);
  }

  /** Without five consecutive ranks, and without ace to five, there is no straight. */
  lemma NoStraight(ranks: seq<int>)
    requires forall h :: 4 <= h <= 12 && h in ranks ==>
      !(h - 1 in ranks && h - 2 in ranks && h - 3 in ranks && h - 4 in ranks)
    requires !({12, 0, 1, 2, 3} <= SetOf(ranks))
    ensures GetStraight(ranks) == None
  {
    forall h | 4 <= h <= 12 ensures !RunIn(SetOf(ranks), h) {
      RunBroken(ranks, h);
    }
  }

  /** A run from h down needs all five of its ranks. */
  lemma RunBroken(ranks: seq<int>, h: int)
    requires 4 <= h <= 12
    requires h in ranks ==> !(h - 1 in ranks && h - 2 in ranks && h - 3 in ranks && h - 4 in ranks)
    ensures !RunIn(SetOf(ranks), h)
  {
    var r := Run(h);
    var k := if h !in ranks then 0 else if h - 1 !in ranks then 1 else if h - 2 !in ranks then 2
      else if h - 3 !in ranks then 3 else 4;
    RunTerm(h, k);
    assert r[k] in r;
  }

  /** Solver aid: one entry of a run, stated once so proofs need not expand the literal. */
  lemma RunTerm(h: int, k: int)
    requires 4 <= h <= 12 && 0 <= k < 5
    ensures Run(h)[k] == h - k
  {
  }

  /** With five consecutive ranks from `high` down and none above, that run is the straight. */
  lemma TopStraight(ranks: seq<int>, high: int)
    requires 4 <= high <= 12
    requires forall x :: high - 4 <= x <= high ==> x in ranks
    requires forall h :: high < h <= 12 && h in ranks ==>
      !(h - 1 in ranks && h - 2 in ranks && h - 3 in ranks && h - 4 in ranks)
    ensures GetStraight(ranks) == Some([high, high - 1, high - 2, high - 3, high - 4])
  {
    assert Run(high) == [high, high - 1, high - 2, high - 3, high - 4];
    assert RunIn(SetOf(ranks), high);
    forall h | high < h <= 12 ensures !RunIn(SetOf(ranks), h) {
      RunBroken(ranks, h);
    }
  }

  /** A sequence without repeats holds each of its entries once. */
  lemma {:induction false} DistinctCount(s: seq<int>, x: int)
    requires Distinct(s)
    ensures multiset(s)[x] == if x in s then 1 else 0
  {
    if s != [] {
      assert s == [s[0]] + s[1..];
      assert s[0] !in s[1..];
      assert Distinct(s[1..]);
      DistinctCount(s[1..], x);
    }
  }

  /** Sorting a list without repeats gives the descending list of the same entries. */
  lemma SortedDistinct(s: seq<int>, t: seq<int>)
    requires IsDesc(t) && Distinct(s) && Distinct(t)
    requires forall i :: 0 <= i < |s| ==> s[i] in t
    requires forall i :: 0 <= i < |t| ==> t[i] in s
    ensures SortDesc(s) == t
  {
    forall x ensures multiset(s)[x] == multiset(t)[x] {
      DistinctCount(s, x);
      DistinctCount(t, x);
    }
    assert multiset(s) == multiset(t);
    SortedIs(s, t);
  }

  /** `sorted(s, reverse=True)` is the descending list with the same entries. */
  lemma SortedIs(s: seq<int>, t: seq<int>)
    requires IsDesc(t) && multiset(s) == multiset(t)
    ensures SortDesc(s) == t
  {
    DescUnique(SortDesc(s), t);
  }

  // -------------------------------------------------------- royal flush

  lemma RoyalCards(hand: seq<int>, inSuit: seq<int>, rest: seq<int>)
    requires hand == [47, 48, 49, 50, 51, 13, 1]
    requires inSuit == [47, 48, 49, 50, 51] && rest == [13, 1]
    ensures hand == inSuit + rest
    ensures SuitsOf(hand) == [3, 3, 3, 3, 3, 1, 0]
    ensures SuitsOf(inSuit) == [3, 3, 3, 3, 3] && SuitsOf(rest) == [1, 0]
    ensures RanksOf(inSuit) == [8, 9, 10, 11, 12]
  {
  }

  lemma RoyalSuited(hand: seq<int>)
    requires hand == [47, 48, 49, 50, 51, 13, 1]
    ensures FlushSuit(hand) == Some(3)
    ensures GetStraight(SuitedRanks(hand, 3)) == Some([12, 11, 10, 9, 8])
  {
    var inSuit: seq<int>, rest: seq<int> := [47, 48, 49, 50, 51], [13, 1];
    RoyalCards(hand, inSuit, rest);
    FlushSuitExact(hand, 3);
    RoyalSuitedRun(hand, inSuit, rest);
  }

  lemma RoyalSuitedRun(hand: seq<int>, inSuit: seq<int>, rest: seq<int>)
    requires hand == [47, 48, 49, 50, 51, 13, 1]
    requires inSuit == [47, 48, 49, 50, 51] && rest == [13, 1]
    ensures GetStraight(SuitedRanks(hand, 3)) == Some([12, 11, 10, 9, 8])
  {
    RoyalCards(hand, inSuit, rest);
    SuitedRanksOf(hand, 3, inSuit, rest);
    SameStraight(SuitedRanks(hand, 3), RanksOf(inSuit));
    RoyalRun(RanksOf(inSuit));
  }

  lemma RoyalRun(ranks: seq<int>)
    requires ranks == [8, 9, 10, 11, 12]
    ensures GetStraight(ranks) == Some([12, 11, 10, 9, 8])
  {
    TopStraight(ranks, 12);
  }

  /** Ten to ace of spades with a two of diamonds and a three of clubs: a royal flush. */
  lemma RoyalExample(hand: seq<int>)
    requires hand == [47, 48, 49, 50, 51, 13, 1]
    ensures EvaluateHand(hand) == HandValue(RoyalFlush, [12, 11, 10, 9, 8])
  {
    RoyalSuited(hand);
  }

  // ----------------------------------------------------- straight flush

  lemma StraightFlushCards(hand: seq<int>, inSuit: seq<int>, rest: seq<int>)
    requires hand == [20, 21, 22, 23, 24, 39, 1]
    requires inSuit == [20, 21, 22, 23, 24] && rest == [39, 1]
    ensures hand == inSuit + rest
    ensures SuitsOf(hand) == [1, 1, 1, 1, 1, 3, 0]
    ensures SuitsOf(inSuit) == [1, 1, 1, 1, 1] && SuitsOf(rest) == [3, 0]
    ensures RanksOf(inSuit) == [7, 8, 9, 10, 11]
  {
  }

  lemma StraightFlushSuited(hand: seq<int>)
    requires hand == [20, 21, 22, 23, 24, 39, 1]
    ensures FlushSuit(hand) == Some(1)
    ensures GetStraight(SuitedRanks(hand, 1)) == Some([11, 10, 9, 8, 7])
  {
    var inSuit: seq<int>, rest: seq<int> := [20, 21, 22, 23, 24], [39, 1];
    StraightFlushCards(hand, inSuit, rest);
    FlushSuitExact(hand, 1);
    StraightFlushSuitedRun(hand, inSuit, rest);
  }

  lemma StraightFlushSuitedRun(hand: seq<int>, inSuit: seq<int>, rest: seq<int>)
    requires hand == [20, 21, 22, 23, 24, 39, 1]
    requires inSuit == [20, 21, 22, 23, 24] && rest == [39, 1]
    ensures GetStraight(SuitedRanks(hand, 1)) == Some([11, 10, 9, 8, 7])
  {
    StraightFlushCards(hand, inSuit, rest);
    SuitedRanksOf(hand, 1, inSuit, rest);
    SameStraight(SuitedRanks(hand, 1), RanksOf(inSuit));
    KingHighRun(RanksOf(inSuit));
  }

  lemma KingHighRun(ranks: seq<int>)
    requires ranks == [7, 8, 9, 10, 11]
    ensures GetStraight(ranks) == Some([11, 10, 9, 8, 7])
  {
    TopStraight(ranks, 11);
  }

  /** Nine to king of diamonds: a king-high straight flush. */
  lemma StraightFlushExample(hand: seq<int>)
    requires hand == [20, 21, 22, 23, 24, 39, 1]
    ensures EvaluateHand(hand) == HandValue(StraightFlush, [11, 10, 9, 8, 7])
  {
    StraightFlushSuited(hand);
  }

  // ----------------------------------------------------------- four of a kind

  lemma QuadsCards(hand: seq<int>)
    requires hand == [7, 20, 33, 46, 24, 39, 1]
    ensures RanksOf(hand) == [7, 7, 7, 7, 11, 0, 1]
    ensures SuitsOf(hand) == [0, 1, 2, 3, 1, 3, 0]
  {
  }

  lemma QuadsLeads(ranks: seq<int>)
    requires ranks == [7, 7, 7, 7, 11, 0, 1]
    ensures LeadsAll(ranks, 7, 7)
  {
  }

  lemma QuadsNext(ranks: seq<int>)
    requires ranks == [7, 7, 7, 7, 11, 0, 1]
    ensures LeadsAll(ranks, 11, 7)
  {
  }

  lemma QuadsGroups(ranks: seq<int>)
    requires ranks == [7, 7, 7, 7, 11, 0, 1]
    ensures |Groups(ranks)| >= 2 && Groups(ranks)[0] == Group(4, 7)
  {
    assert AllRanks(ranks);
    QuadsLeads(ranks);
    QuadsNext(ranks);
    LeadingGroups(ranks, 7, 11);
  }

  lemma QuadsRest(ranks: seq<int>)
    requires ranks == [7, 7, 7, 7, 11, 0, 1]
    ensures 11 in Others(ranks, 7) && MaxOf(Others(ranks, 7)) == 11
  {
    assert ranks == [7, 7, 7, 7] + [11, 0, 1];
    OthersAfter([7, 7, 7, 7], [11, 0, 1], 7);
  }

  lemma QuadsSuits(suits: seq<int>)
    requires suits == [0, 1, 2, 3, 1, 3, 0]
    ensures NoFlush(suits)
  {
  }

  /** Four nines with a king, a two and a three: four of a kind of nines, king kicker. */
  lemma QuadsExample(hand: seq<int>)
    requires hand == [7, 20, 33, 46, 24, 39, 1]
    ensures EvaluateHand(hand) == HandValue(Quads, [7, 11])
  {
    QuadsCards(hand);
    QuadsSuits(SuitsOf(hand));
    Unsuited(hand);
    QuadsGroups(RanksOf(hand));
    QuadsRest(RanksOf(hand));
  }

  // ---------------------------------------------------------------- full house

  lemma FullHouseCards(hand: seq<int>)
    requires hand == [8, 21, 47, 1, 14, 41, 18]
    ensures RanksOf(hand) == [8, 8, 8, 1, 1, 2, 5]
    ensures SuitsOf(hand) == [0, 1, 3, 0, 1, 3, 1]
  {
  }

  lemma FullHouseLeads(ranks: seq<int>)
    requires ranks == [8, 8, 8, 1, 1, 2, 5]
    ensures LeadsAll(ranks, 8, 8)
  {
  }

  lemma FullHouseNext(ranks: seq<int>)
    requires ranks == [8, 8, 8, 1, 1, 2, 5]
    ensures LeadsAll(ranks, 1, 8)
  {
  }

  lemma FullHouseGroups(ranks: seq<int>)
    requires ranks == [8, 8, 8, 1, 1, 2, 5]
    ensures |Groups(ranks)| >= 2 && Groups(ranks)[0] == Group(3, 8)
    ensures FirstPair(Groups(ranks)[1..]) == Some(1)
  {
    assert AllRanks(ranks);
    FullHouseLeads(ranks);
    FullHouseNext(ranks);
    LeadingGroups(ranks, 8, 1);
    assert Groups(ranks)[1..][0] == Group(2, 1);
  }

  lemma FullHouseSuits(suits: seq<int>)
    requires suits == [0, 1, 3, 0, 1, 3, 1]
    ensures NoFlush(suits)
  {
  }

  lemma FullHouseFacts(hand: seq<int>)
    requires hand == [8, 21, 47, 1, 14, 41, 18]
    ensures |hand| == 7 && FlushSuit(hand) == None
    ensures |Groups(RanksOf(hand))| >= 2 && Groups(RanksOf(hand))[0] == Group(3, 8)
    ensures FirstPair(Groups(RanksOf(hand))[1..]) == Some(1)
  {
    FullHouseCards(hand);
    FullHouseSuits(SuitsOf(hand));
    Unsuited(hand);
    FullHouseGroups(RanksOf(hand));
  }

  /** Three tens, two threes, a four and a seven: tens full of threes. */
  lemma FullHouseExample(hand: seq<int>)
    requires hand == [8, 21, 47, 1, 14, 41, 18]
    ensures EvaluateHand(hand) == HandValue(FullHouse, [8, 1])
  {
    FullHouseFacts(hand);
    FullHouseCascade(hand, 8, 1);
  }

  // --------------------------------------------------------------------- flush

  lemma FlushCards(hand: seq<int>, inSuit: seq<int>, rest: seq<int>)
    requires hand == [39, 42, 44, 48, 49, 13, 1]
    requires inSuit == [39, 42, 44, 48, 49] && rest == [13, 1]
    ensures hand == inSuit + rest
    ensures SuitsOf(hand) == [3, 3, 3, 3, 3, 1, 0]
    ensures SuitsOf(inSuit) == [3, 3, 3, 3, 3] && SuitsOf(rest) == [1, 0]
    ensures RanksOf(inSuit) == [0, 3, 5, 9, 10]
  {
  }

  lemma FlushSuitIs(hand: seq<int>)
    requires hand == [39, 42, 44, 48, 49, 13, 1]
    ensures FlushSuit(hand) == Some(3)
  {
    var inSuit: seq<int>, rest: seq<int> := [39, 42, 44, 48, 49], [13, 1];
    FlushCards(hand, inSuit, rest);
    FlushSuitExact(hand, 3);
  }

  lemma FlushSuitedRanks(hand: seq<int>, inSuit: seq<int>, rest: seq<int>)
    requires hand == [39, 42, 44, 48, 49, 13, 1]
    requires inSuit == [39, 42, 44, 48, 49] && rest == [13, 1]
    ensures multiset(SuitedRanks(hand, 3)) == multiset([0, 3, 5, 9, 10])
  {
    FlushCards(hand, inSuit, rest);
    SuitedRanksOf(hand, 3, inSuit, rest);
  }

  lemma FlushRun(suited: seq<int>)
    requires suited == [0, 3, 5, 9, 10]
    ensures GetStraight(suited) == None
  {
    NoStraight(suited);
  }

  lemma FlushSorted(suited: seq<int>)
    requires suited == [0, 3, 5, 9, 10]
    ensures SortDesc(suited) == [10, 9, 5, 3, 0]
  {
    SortedDistinct(suited, [10, 9, 5, 3, 0]);
  }

  lemma FlushSuited(hand: seq<int>)
    requires hand == [39, 42, 44, 48, 49, 13, 1]
    ensures GetStraight(SuitedRanks(hand, 3)) == None
    ensures Take(SortDesc(SuitedRanks(hand, 3)), 5) == [10, 9, 5, 3, 0]
  {
    var suited: seq<int> := [0, 3, 5, 9, 10];
    FlushSuitedRanks(hand, [39, 42, 44, 48, 49], [13, 1]);
    FlushRun(suited);
    FlushSorted(suited);
    SameStraight(SuitedRanks(hand, 3), suited);
    SortDescPerm(SuitedRanks(hand, 3), suited);
  }

  lemma FlushRanks(hand: seq<int>)
    requires hand == [39, 42, 44, 48, 49, 13, 1]
    ensures RanksOf(hand) == [0, 3, 5, 9, 10, 0, 1]
  {
  }

  lemma FlushLeads(ranks: seq<int>)
    requires ranks == [0, 3, 5, 9, 10, 0, 1]
    ensures LeadsAll(ranks, 0, 0)
  {
  }

  lemma FlushNext(ranks: seq<int>)
    requires ranks == [0, 3, 5, 9, 10, 0, 1]
    ensures LeadsAll(ranks, 10, 0)
  {
  }

  lemma FlushGroups(ranks: seq<int>)
    requires ranks == [0, 3, 5, 9, 10, 0, 1]
    ensures |Groups(ranks)| >= 2 && Groups(ranks)[0] == Group(2, 0)
  {
    assert AllRanks(ranks);
    FlushLeads(ranks);
    FlushNext(ranks);
    LeadingGroups(ranks, 0, 10);
  }

  /** Two, five, seven, jack and queen of spades: a queen-high flush. */
  lemma FlushExample(hand: seq<int>)
    requires hand == [39, 42, 44, 48, 49, 13, 1]
    ensures EvaluateHand(hand) == HandValue(Flush, [10, 9, 5, 3, 0])
  {
    FlushSuitIs(hand);
    FlushSuited(hand);
    FlushRanks(hand);
    FlushGroups(RanksOf(hand));
    FlushCascade(hand, 3, [10, 9, 5, 3, 0]);
  }

  // ------------------------------------------------------------------ straights

  lemma StraightCards(hand: seq<int>)
    requires hand == [3, 17, 44, 32, 7, 39, 23]
    ensures RanksOf(hand) == [3, 4, 5, 6, 7, 0, 10]
    ensures SuitsOf(hand) == [0, 1, 3, 2, 0, 3, 1]
  {
  }

  lemma StraightLeads(ranks: seq<int>)
    requires ranks == [3, 4, 5, 6, 7, 0, 10]
    ensures LeadsAll(ranks, 10, 10)
  {
  }

  lemma StraightNext(ranks: seq<int>)
    requires ranks == [3, 4, 5, 6, 7, 0, 10]
    ensures LeadsAll(ranks, 7, 10)
  {
  }

  lemma StraightGroups(ranks: seq<int>)
    requires ranks == [3, 4, 5, 6, 7, 0, 10]
    ensures |Groups(ranks)| >= 2 && Groups(ranks)[0] == Group(1, 10)
  {
    assert AllRanks(ranks);
    StraightLeads(ranks);
    StraightNext(ranks);
    LeadingGroups(ranks, 10, 7);
  }

  lemma StraightRun(ranks: seq<int>)
    requires ranks == [3, 4, 5, 6, 7, 0, 10]
    ensures GetStraight(ranks) == Some([7, 6, 5, 4, 3])
  {
    TopStraight(ranks, 7);
  }

  lemma StraightSuits(suits: seq<int>)
    requires suits == [0, 1, 3, 2, 0, 3, 1]
    ensures NoFlush(suits)
  {
  }

  /** Five to nine in four suits with a two and a queen: the nine-high straight. */
  lemma StraightExample(hand: seq<int>)
    requires hand == [3, 17, 44, 32, 7, 39, 23]
    ensures EvaluateHand(hand) == HandValue(Straight, [7, 6, 5, 4, 3])
  {
    StraightCards(hand);
    StraightSuits(SuitsOf(hand));
    Unsuited(hand);
    StraightGroups(RanksOf(hand));
    StraightRun(RanksOf(hand));
    PastFullHouse(hand);
  }

  lemma WheelCards(hand: seq<int>)
    requires hand == [12, 13, 1, 41, 42, 24, 10]
    ensures RanksOf(hand) == [12, 0, 1, 2, 3, 11, 10]
    ensures SuitsOf(hand) == [0, 1, 0, 3, 3, 1, 0]
  {
  }

  lemma WheelLeads(ranks: seq<int>)
    requires ranks == [12, 0, 1, 2, 3, 11, 10]
    ensures LeadsAll(ranks, 12, 12)
  {
  }

  lemma WheelNext(ranks: seq<int>)
    requires ranks == [12, 0, 1, 2, 3, 11, 10]
    ensures LeadsAll(ranks, 11, 12)
  {
  }

  lemma WheelGroups(ranks: seq<int>)
    requires ranks == [12, 0, 1, 2, 3, 11, 10]
    ensures |Groups(ranks)| >= 2 && Groups(ranks)[0] == Group(1, 12)
  {
    assert AllRanks(ranks);
    WheelLeads(ranks);
    WheelNext(ranks);
    LeadingGroups(ranks, 12, 11);
  }

  lemma WheelRun(ranks: seq<int>)
    requires ranks == [12, 0, 1, 2, 3, 11, 10]
    ensures GetStraight(ranks) == Some([3, 2, 1, 0, 12])
  {
    forall h | 4 <= h <= 12 ensures !RunIn(SetOf(ranks), h) {
      RunBroken(ranks, h);
    }
    assert WheelIn(SetOf(ranks));
  }

  lemma WheelSuits(suits: seq<int>)
    requires suits == [0, 1, 0, 3, 3, 1, 0]
    ensures NoFlush(suits)
  {
  }

  /** Ace to five with a king and a queen: the five-high straight, the ace counting low even
      though it also sits with the king and queen. */
  lemma WheelExample(hand: seq<int>)
    requires hand == [12, 13, 1, 41, 42, 24, 10]
    ensures EvaluateHand(hand) == HandValue(Straight, [3, 2, 1, 0, 12])
  {
    WheelCards(hand);
    WheelSuits(SuitsOf(hand));
    Unsuited(hand);
    WheelGroups(RanksOf(hand));
    WheelRun(RanksOf(hand));
    PastFullHouse(hand);
  }

  // ---------------------------------------------------------- three of a kind

  lemma TripsCards(hand: seq<int>)
    requires hand == [9, 22, 48, 41, 16, 33, 39]
    ensures RanksOf(hand) == [9, 9, 9, 2, 3, 7, 0]
    ensures SuitsOf(hand) == [0, 1, 3, 3, 1, 2, 3]
  {
  }

  lemma TripsLeads(ranks: seq<int>)
    requires ranks == [9, 9, 9, 2, 3, 7, 0]
    ensures LeadsAll(ranks, 9, 9)
  {
  }

  lemma TripsNext(ranks: seq<int>)
    requires ranks == [9, 9, 9, 2, 3, 7, 0]
    ensures LeadsAll(ranks, 7, 9)
  {
  }

  lemma TripsGroups(ranks: seq<int>)
    requires ranks == [9, 9, 9, 2, 3, 7, 0]
    ensures |Groups(ranks)| >= 2 && Groups(ranks)[0] == Group(3, 9)
    ensures forall i :: 1 <= i < |Groups(ranks)| ==> Groups(ranks)[i].count < 2
  {
    assert AllRanks(ranks);
    TripsLeads(ranks);
    TripsNext(ranks);
    LeadingGroups(ranks, 9, 7);
    assert multiset(ranks)[7] == 1;
  }

  lemma TripsStraight(ranks: seq<int>)
    requires ranks == [9, 9, 9, 2, 3, 7, 0]
    ensures GetStraight(ranks) == None
  {
    NoStraight(ranks);
  }

  lemma TripsKickers(ranks: seq<int>)
    requires ranks == [9, 9, 9, 2, 3, 7, 0]
    ensures Take(SortDesc(Others(ranks, 9)), 2) == [7, 3]
  {
    TripsSorted(ranks);
  }

  lemma TripsSorted(ranks: seq<int>)
    requires ranks == [9, 9, 9, 2, 3, 7, 0]
    ensures SortDesc(Others(ranks, 9)) == [7, 3, 2, 0]
  {
    assert ranks == [9, 9, 9] + [2, 3, 7, 0];
    OthersAfter([9, 9, 9], [2, 3, 7, 0], 9);
    SortedDistinct([2, 3, 7, 0], [7, 3, 2, 0]);
  }

  lemma TripsSuits(suits: seq<int>)
    requires suits == [0, 1, 3, 3, 1, 2, 3]
    ensures NoFlush(suits)
  {
  }

  /** Three jacks with a nine, a five, a four and a two: jacks, then nine and five. */
  lemma TripsExample(hand: seq<int>)
    requires hand == [9, 22, 48, 41, 16, 33, 39]
    ensures EvaluateHand(hand) == HandValue(Trips, [9, 7, 3])
  {
    TripsCards(hand);
    TripsSuits(SuitsOf(hand));
    Unsuited(hand);
    TripsGroups(RanksOf(hand));
    NoLaterPair(Groups(RanksOf(hand)));
    TripsStraight(RanksOf(hand));
    TripsKickers(RanksOf(hand));
    TripsCascade(hand, 9, 7, 3);
  }

  // ------------------------------------------------------------------ two pair

  lemma TwoPairCards(hand: seq<int>)
    requires hand == [10, 23, 45, 32, 14, 3, 50]
    ensures RanksOf(hand) == [10, 10, 6, 6, 1, 3, 11]
    ensures SuitsOf(hand) == [0, 1, 3, 2, 1, 0, 3]
  {
  }

  lemma TwoPairLeads(ranks: seq<int>)
    requires ranks == [10, 10, 6, 6, 1, 3, 11]
    ensures LeadsAll(ranks, 10, 10)
  {
  }

  lemma TwoPairNext(ranks: seq<int>)
    requires ranks == [10, 10, 6, 6, 1, 3, 11]
    ensures LeadsAll(ranks, 6, 10)
  {
  }

  lemma TwoPairGroups(ranks: seq<int>)
    requires ranks == [10, 10, 6, 6, 1, 3, 11]
    ensures |Groups(ranks)| >= 2 && Groups(ranks)[0] == Group(2, 10)
    ensures Groups(ranks)[1] == Group(2, 6)
  {
    assert AllRanks(ranks);
    TwoPairLeads(ranks);
    TwoPairNext(ranks);
    LeadingGroups(ranks, 10, 6);
  }

  lemma TwoPairStraight(ranks: seq<int>)
    requires ranks == [10, 10, 6, 6, 1, 3, 11]
    ensures GetStraight(ranks) == None
  {
    NoStraight(ranks);
  }

  lemma TwoPairKicker(ranks: seq<int>)
    requires ranks == [10, 10, 6, 6, 1, 3, 11]
    ensures 11 in Others2(ranks, 10, 6) && MaxOf(Others2(ranks, 10, 6)) == 11
  {
    assert ranks == [10, 10, 6, 6] + [1, 3, 11];
    Others2After([10, 10, 6, 6], [1, 3, 11], 10, 6);
  }

  lemma TwoPairSuits(suits: seq<int>)
    requires suits == [0, 1, 3, 2, 1, 0, 3]
    ensures NoFlush(suits)
  {
  }

  /** Queens and eights with a king, a five and a three: king kicker. */
  lemma TwoPairExample(hand: seq<int>)
    requires hand == [10, 23, 45, 32, 14, 3, 50]
    ensures EvaluateHand(hand) == HandValue(TwoPair, [10, 6, 11])
  {
    TwoPairCards(hand);
    TwoPairSuits(SuitsOf(hand));
    Unsuited(hand);
    TwoPairGroups(RanksOf(hand));
    TwoPairStraight(RanksOf(hand));
    TwoPairKicker(RanksOf(hand));
    TwoPairCascade(hand, 10, 6, 11);
  }

  // ------------------------------------------------------------------ one pair

  lemma PairCards(hand: seq<int>)
    requires hand == [11, 24, 44, 27, 13, 48, 7]
    ensures RanksOf(hand) == [11, 11, 5, 1, 0, 9, 7]
    ensures SuitsOf(hand) == [0, 1, 3, 2, 1, 3, 0]
  {
  }

  lemma PairLeads(ranks: seq<int>)
    requires ranks == [11, 11, 5, 1, 0, 9, 7]
    ensures LeadsAll(ranks, 11, 11)
  {
  }

  lemma PairNext(ranks: seq<int>)
    requires ranks == [11, 11, 5, 1, 0, 9, 7]
    ensures LeadsAll(ranks, 9, 11)
  {
  }

  lemma PairGroups(ranks: seq<int>)
    requires ranks == [11, 11, 5, 1, 0, 9, 7]
    ensures |Groups(ranks)| >= 2 && Groups(ranks)[0] == Group(2, 11)
    ensures Groups(ranks)[1] == Group(1, 9)
  {
    assert AllRanks(ranks);
    PairLeads(ranks);
    PairNext(ranks);
    LeadingGroups(ranks, 11, 9);
  }

  lemma PairStraight(ranks: seq<int>)
    requires ranks == [11, 11, 5, 1, 0, 9, 7]
    ensures GetStraight(ranks) == None
  {
    NoStraight(ranks);
  }

  lemma PairKickers(ranks: seq<int>)
    requires ranks == [11, 11, 5, 1, 0, 9, 7]
    ensures Take(SortDesc(Others(ranks, 11)), 3) == [9, 7, 5]
  {
    PairSorted(ranks);
  }

  lemma PairSorted(ranks: seq<int>)
    requires ranks == [11, 11, 5, 1, 0, 9, 7]
    ensures SortDesc(Others(ranks, 11)) == [9, 7, 5, 1, 0]
  {
    assert ranks == [11, 11] + [5, 1, 0, 9, 7];
    OthersAfter([11, 11], [5, 1, 0, 9, 7], 11);
    SortedDistinct([5, 1, 0, 9, 7], [9, 7, 5, 1, 0]);
  }

  lemma PairSuits(suits: seq<int>)
    requires suits == [0, 1, 3, 2, 1, 3, 0]
    ensures NoFlush(suits)
  {
  }

  /** Two kings with a jack, a nine, a seven, a three and a two: kings, then jack, nine,
      seven. */
  lemma PairExample(hand: seq<int>)
    requires hand == [11, 24, 44, 27, 13, 48, 7]
    ensures EvaluateHand(hand) == HandValue(OnePair, [11, 9, 7, 5])
  {
    PairFacts(hand);
    PairCascade(hand, 11, 9, 7, 5);
  }

  lemma PairFacts(hand: seq<int>)
    requires hand == [11, 24, 44, 27, 13, 48, 7]
    ensures FlushSuit(hand) == None && GetStraight(RanksOf(hand)) == None
    ensures |Groups(RanksOf(hand))| >= 2 && Groups(RanksOf(hand))[0] == Group(2, 11)
    ensures Groups(RanksOf(hand))[1].count < 2
    ensures Take(SortDesc(Others(RanksOf(hand), 11)), 3) == [9, 7, 5]
  {
    PairCards(hand);
    PairSuits(SuitsOf(hand));
    Unsuited(hand);
    PairGroups(RanksOf(hand));
    PairStraight(RanksOf(hand));
    PairKickers(RanksOf(hand));
  }

  // ----------------------------------------------------------------- high card

  lemma HighCardCards(hand: seq<int>)
    requires hand == [0, 16, 32, 48, 10, 40, 20]
    ensures RanksOf(hand) == [0, 3, 6, 9, 10, 1, 7]
    ensures SuitsOf(hand) == [0, 1, 2, 3, 0, 3, 1]
  {
  }

  lemma HighCardLeads(ranks: seq<int>)
    requires ranks == [0, 3, 6, 9, 10, 1, 7]
    ensures LeadsAll(ranks, 10, 10)
  {
  }

  lemma HighCardNext(ranks: seq<int>)
    requires ranks == [0, 3, 6, 9, 10, 1, 7]
    ensures LeadsAll(ranks, 9, 10)
  {
  }

  lemma HighCardGroups(ranks: seq<int>)
    requires ranks == [0, 3, 6, 9, 10, 1, 7]
    ensures |Groups(ranks)| >= 2 && Groups(ranks)[0] == Group(1, 10)
  {
    assert AllRanks(ranks);
    HighCardLeads(ranks);
    HighCardNext(ranks);
    LeadingGroups(ranks, 10, 9);
  }

  lemma HighCardStraight(ranks: seq<int>)
    requires ranks == [0, 3, 6, 9, 10, 1, 7]
    ensures GetStraight(ranks) == None
  {
    NoStraight(ranks);
  }

  lemma HighCardKickers(ranks: seq<int>)
    requires SortDesc(ranks) == [10, 9, 7, 6, 3, 1, 0]
    ensures Take(SortDesc(ranks), 5) == [10, 9, 7, 6, 3]
  {
  }

  lemma HighCardSorted(ranks: seq<int>)
    requires ranks == [0, 3, 6, 9, 10, 1, 7]
    ensures SortDesc(ranks) == [10, 9, 7, 6, 3, 1, 0]
  {
    SortedDistinct(ranks, [10, 9, 7, 6, 3, 1, 0]);
  }

  lemma HighCardSuits(suits: seq<int>)
    requires suits == [0, 1, 2, 3, 0, 3, 1]
    ensures NoFlush(suits)
  {
  }

  /** No pair, no flush, no straight: queen, jack, nine, eight, five. */
  lemma HighCardExample(hand: seq<int>)
    requires hand == [0, 16, 32, 48, 10, 40, 20]
    ensures EvaluateHand(hand) == HandValue(HighCard, [10, 9, 7, 6, 3])
  {
    HighCardCards(hand);
    HighCardSuits(SuitsOf(hand));
    Unsuited(hand);
    HighCardGroups(RanksOf(hand));
    HighCardStraight(RanksOf(hand));
    HighCardSorted(RanksOf(hand));
    HighCardKickers(RanksOf(hand));
    HighCardCascade(hand, [10, 9, 7, 6, 3]);
  }
}
