// The category `evaluate_hand` assigns, stated without `rank_sorted` and without the
// order of the cascade's helpers: directly in terms of how often each rank and each
// suit occurs in the seven cards.
module EvaluatorCategory {
  import opened Common
  import opened Evaluator
  import opened EvaluatorProps

  // ------------------------------------------------------------ counts

  /** The largest of the counts `ms[x]` for x in xs (0 for no xs). */
  function MaxCountIn(ms: multiset<int>, xs: seq<int>): (m: nat)
    ensures forall x :: x in xs ==> ms[x] <= m
    ensures xs == [] ==> m == 0
    ensures xs != [] ==> exists i :: 0 <= i < |xs| && ms[xs[i]] == m
  {
    if xs == [] then 0
    else
      var rest := MaxCountIn(ms, xs[1..]);
      if ms[xs[0]] >= rest then ms[xs[0]]
      else
        var i :| 0 <= i < |xs[1..]| && ms[xs[1..][i]] == rest;
        assert xs[i + 1] == xs[1..][i];
        rest
  }

  /** How often the most frequent rank of the hand occurs. */
  function TopCount(ranks: seq<int>): (m: nat)
    ensures forall x :: x in ranks ==> multiset(ranks)[x] <= m
    ensures ranks != [] ==> exists i :: 0 <= i < |ranks| && multiset(ranks)[ranks[i]] == m
  {
    MaxCountIn(multiset(ranks), ranks)
  }

  /** Some rank occurs three times and some other rank at least twice. */
  ghost predicate ThreeAndPair(ms: multiset<int>)
  {
    exists x, y :: 0 <= x <= 12 && 0 <= y <= 12 && x != y && ms[x] == 3 && ms[y] >= 2
  }

  /** Two different ranks occur exactly twice. */
  ghost predicate TwoPairs(ms: multiset<int>)
  {
    exists x, y :: 0 <= x < y <= 12 && ms[x] == 2 && ms[y] == 2
  }

  /** Suit s is held at least five times. */
  ghost predicate FlushIn(hand: seq<int>, s: int)
  {
    multiset(SuitsOf(hand))[s] >= 5
  }

  /** Five consecutive ranks are present, or ace to five. */
  ghost predicate HasRun(ranks: seq<int>)
  {
    (exists h :: 4 <= h <= 12 && RunIn(SetOf(ranks), h)) || WheelIn(SetOf(ranks))
  }

  /** Ten, jack, queen, king and ace are present. */
  ghost predicate RoyalIn(ranks: seq<int>)
  {
    forall x :: 8 <= x <= 12 ==> x in ranks
  }

  /** Some suit is held at least five times. */
  ghost predicate HasFlush(hand: seq<int>)
  {
    exists s :: FlushIn(hand, s)
  }

  /** The category of seven cards as the ranking rules define it, strongest first: with a
      suit held five times, ten to ace of it make a royal flush and any other run of it a
      straight flush. */
  ghost function CategoryOf(hand: seq<int>): int
    requires |hand| == 7
  {
    if HasFlush(hand) then
      var s :| FlushIn(hand, s);
      if RoyalIn(SuitedRanks(hand, s)) then RoyalFlush
      else if HasRun(SuitedRanks(hand, s)) then StraightFlush
      else LowerCategoryOf(hand)
    else LowerCategoryOf(hand)
  }

  /** The categories below the straight flushes, from the counts of ranks and suits. */
  ghost function LowerCategoryOf(hand: seq<int>): int
    requires |hand| == 7
  {
    var ranks := RanksOf(hand);
    var top := TopCount(ranks);
    if top == 4 then Quads
    else if top == 3 && ThreeAndPair(multiset(ranks)) then FullHouse
    else if HasFlush(hand) then Flush
    else if HasRun(ranks) then Straight
    else if top == 3 then Trips
    else if top == 2 && TwoPairs(multiset(ranks)) then TwoPair
    else if top == 2 then OnePair
    else HighCard
  }

  // ------------------------------------------------- the helpers agree

  /** Seven cards hold at most one suit five times, and `flush_suit` finds it. */
  lemma FlushSuitExact(hand: seq<int>, s: int)
    requires |hand| == 7
    ensures FlushIn(hand, s) <==> FlushSuit(hand) == Some(s)
  {
    var f := FlushSuit(hand);
    if FlushIn(hand, s) && f.Some? && f.value != s {
      TwoCounts(SuitsOf(hand), s, f.value);
    }
  }

  lemma FlushSuitSome(hand: seq<int>)
    requires |hand| == 7
    ensures HasFlush(hand) <==> FlushSuit(hand).Some?
  {
    if FlushSuit(hand).Some? {
      assert FlushIn(hand, FlushSuit(hand).value);
    }
  }

  /** `get_straight` finds a run exactly when there is one. */
  lemma GetStraightSome(ranks: seq<int>)
    ensures GetStraight(ranks).Some? <==> HasRun(ranks)
  {
    var r := GetStraight(ranks);
    if r.Some? && r.value[0] >= 4 {
      assert RunIn(SetOf(ranks), r.value[0]);
    }
  }

  /** The first entry of `rank_sorted` carries the largest count. */
  lemma GroupsTopCount(ranks: seq<int>)
    requires |ranks| == 7 && AllRanks(ranks)
    ensures |Groups(ranks)| >= 1 && Groups(ranks)[0].count == TopCount(ranks)
  {
    GroupsShape(ranks);
    var ms := multiset(ranks);
    var top := Groups(ranks)[0];
    assert top.rank in ranks by {
      assert top.rank in ms;
    }
    var i :| 0 <= i < |ranks| && ms[ranks[i]] == TopCount(ranks);
    TopGroupIsLargest(ranks, ranks[i]);
  }

  /** Two entries of `rank_sorted` are different ranks. */
  lemma GroupsDistinctRanks(ranks: seq<int>, i: int, j: int)
    requires 0 <= i < j < |Groups(ranks)|
    ensures Groups(ranks)[i].rank != Groups(ranks)[j].rank
  {
    assert Before(Groups(ranks)[i], Groups(ranks)[j]);
  }

  /** Behind a head of three, the pair search succeeds exactly when some other rank is held
      at least twice. */
  lemma FullHouseSearch(ranks: seq<int>)
    requires |ranks| == 7 && AllRanks(ranks)
    requires |Groups(ranks)| >= 2 && Groups(ranks)[0].count == 3
    ensures FirstPair(Groups(ranks)[1..]).Some? <==> ThreeAndPair(multiset(ranks))
  {
    var rs := Groups(ranks);
    var ms := multiset(ranks);
    if FirstPair(rs[1..]).Some? {
      var i := FirstPairAt(rs);
      GroupsDistinctRanks(ranks, 0, i);
      assert ms[rs[0].rank] == 3 && ms[rs[i].rank] >= 2;
    }
    if ThreeAndPair(ms) {
      var x, y :| 0 <= x <= 12 && 0 <= y <= 12 && x != y && ms[x] == 3 && ms[y] >= 2;
      var z := if y != rs[0].rank then y else x;
      assert z in ranks;
      GroupsComplete(ranks, z);
      var k :| 0 <= k < |rs| && rs[k].rank == z;
      assert k != 0 && rs[1..][k - 1] == rs[k];
    }
  }

  /** With a top count of two, a second entry of count two means two pairs. */
  lemma TwoPairSearch(ranks: seq<int>)
    requires |ranks| == 7 && AllRanks(ranks)
    requires |Groups(ranks)| >= 2 && Groups(ranks)[0].count == 2
    ensures Groups(ranks)[1].count == 2 <==> TwoPairs(multiset(ranks))
  {
    var rs := Groups(ranks);
    var ms := multiset(ranks);
    if rs[1].count == 2 {
      assert Before(rs[0], rs[1]);
      assert ms[rs[1].rank] == 2 && ms[rs[0].rank] == 2;
    }
    if TwoPairs(ms) {
      var x, y :| 0 <= x < y <= 12 && ms[x] == 2 && ms[y] == 2;
      var z := if y != rs[0].rank then y else x;
      assert z in ranks;
      SecondGroupIsLargest(ranks, z);
      assert Before(rs[0], rs[1]);
    }
  }

  // ----------------------------------------------------- the main result

  /** The tail of the cascade decides as the counts do. */
  lemma LowerCategoriesMatch(ranks: seq<int>)
    requires |ranks| == 7 && AllRanks(ranks)
    ensures var top := TopCount(ranks);
      LowerCategories(ranks).category ==
        if top == 3 then Trips
        else if top == 2 && TwoPairs(multiset(ranks)) then TwoPair
        else if top == 2 then OnePair
        else HighCard
  {
    GroupsTopCount(ranks);
    GroupsShape(ranks);
    if Groups(ranks)[0].count == 2 {
      TwoPairSearch(ranks);
    }
  }

  /** Flush, straight and the tail decide as the counts do. */
  lemma FlushOrStraightMatch(hand: seq<int>)
    requires |hand| == 7
    ensures var ranks := RanksOf(hand);
      var top := TopCount(ranks);
      FlushOrStraight(hand, FlushSuit(hand)).category ==
        if HasFlush(hand) then Flush
        else if HasRun(ranks) then Straight
        else if top == 3 then Trips
        else if top == 2 && TwoPairs(multiset(ranks)) then TwoPair
        else if top == 2 then OnePair
        else HighCard
  {
    FlushSuitSome(hand);
    GetStraightSome(RanksOf(hand));
    LowerCategoriesMatch(RanksOf(hand));
  }

  /** Below the straight flushes: `rank_sorted` and the flush suit decide as the counts do. */
  lemma GroupCategoriesMatch(hand: seq<int>)
    requires |hand| == 7
    ensures GroupCategories(hand, FlushSuit(hand)).category == LowerCategoryOf(hand)
  {
    var ranks := RanksOf(hand);
    var flush := FlushSuit(hand);
    GroupsTopCount(ranks);
    GroupsShape(ranks);
    var rs := Groups(ranks);
    if rs[0].count == 4 {
      assert GroupCategories(hand, flush).category == Quads;
    } else if rs[0].count == 3 && FirstPair(rs[1..]).Some? {
      FullHouseSearch(ranks);
      assert GroupCategories(hand, flush).category == FullHouse;
    } else {
      if rs[0].count == 3 {
        FullHouseSearch(ranks);
      }
      assert GroupCategories(hand, flush) == FlushOrStraight(hand, flush);
      FlushOrStraightMatch(hand);
    }
  }

  /** Each entry comes strictly before the next in the `(count, rank)` order. */
  predicate StrictlyDescending(gs: seq<Group>)
  {
    forall i, j :: 0 <= i < j < |gs| ==> Before(gs[i], gs[j])
  }

  /** Two lists strictly descending in the `(count, rank)` order with the same entries are
      the same list. */
  lemma {:induction false} DescendingUnique(a: seq<Group>, b: seq<Group>)
    requires StrictlyDescending(a) && StrictlyDescending(b)
    requires forall g :: g in a <==> g in b
    ensures a == b
  {
    assert a == [] || a[0] in a;
    assert b == [] || b[0] in b;
    if a != [] {
      HeadFirst(b, a[0]);
      HeadFirst(a, b[0]);
      forall g ensures g in a[1..] <==> g in b[1..] {
        if g in a[1..] {
          var k :| 0 <= k < |a| - 1 && a[1..][k] == g;
          assert Before(a[0], a[k + 1]) && a[k + 1] == g && g in b;
          var m :| 0 <= m < |b| && b[m] == g;
          assert m != 0 && b[1..][m - 1] == g;
        }
        if g in b[1..] {
          var k :| 0 <= k < |b| - 1 && b[1..][k] == g;
          assert Before(b[0], b[k + 1]) && b[k + 1] == g && g in a;
          var m :| 0 <= m < |a| && a[m] == g;
          assert m != 0 && a[1..][m - 1] == g;
        }
      }
      DescendingUnique(a[1..], b[1..]);
      assert a == [a[0]] + a[1..] && b == [b[0]] + b[1..];
    }
  }

  /** The head of a strictly descending list comes before every other entry. */
  lemma HeadFirst(a: seq<Group>, g: Group)
    requires StrictlyDescending(a) && g in a
    ensures g == a[0] || Before(a[0], g)
  {
  }

  /** `rank_sorted` is `sorted([(count, rank) ...], reverse=True)` over the items of the
      Counter of the ranks: exactly one `(count, rank)` entry per rank held, largest first. */
  lemma GroupsExact(ranks: seq<int>, gs: seq<Group>)
    requires AllRanks(ranks) && StrictlyDescending(gs)
    requires forall g :: g in gs <==> g.rank in ranks && g.count == multiset(ranks)[g.rank]
    ensures Groups(ranks) == gs
  {
    var rs := Groups(ranks);
    forall g ensures g in rs <==> g in gs {
      if g in rs {
        var i :| 0 <= i < |rs| && rs[i] == g;
        assert g.rank in multiset(ranks);
      }
      if g in gs {
        GroupsComplete(ranks, g.rank);
      }
    }
    DescendingUnique(rs, gs);
  }

  /** Seven cards hold at most one suit five times. */
  lemma OnlyFlushSuit(hand: seq<int>, s: int)
    requires |hand| == 7 && FlushIn(hand, s)
    ensures forall t :: FlushIn(hand, t) ==> t == s
  {
    forall t | FlushIn(hand, t) ensures t == s {
      FlushSuitExact(hand, t);
      FlushSuitExact(hand, s);
    }
  }

  /** With suit s held five times, the reference tests s's ranks for the straight flushes. */
  lemma CategoryOfFlush(hand: seq<int>, s: int)
    requires |hand| == 7 && FlushIn(hand, s)
    ensures CategoryOf(hand) ==
      if RoyalIn(SuitedRanks(hand, s)) then RoyalFlush
      else if HasRun(SuitedRanks(hand, s)) then StraightFlush
      else LowerCategoryOf(hand)
  {
    OnlyFlushSuit(hand, s);
  }

  /** `evaluate_hand` assigns exactly the category the counts of ranks and suits call for. */
  lemma CategoryMatches(hand: seq<int>)
    requires |hand| == 7
    ensures EvaluateHand(hand).category == CategoryOf(hand)
  {
    StraightFlushIff(hand);
    RoyalFlushIff(hand);
    GroupCategoriesMatch(hand);
    FlushSuitSome(hand);
    if FlushSuit(hand).Some? {
      var s := FlushSuit(hand).value;
      FlushSuitExact(hand, s);
      CategoryOfFlush(hand, s);
      GetStraightSome(SuitedRanks(hand, s));
    }
    if !HasStraightFlush(hand) {
      BelowStraightFlush(hand);
    }
  }
}
