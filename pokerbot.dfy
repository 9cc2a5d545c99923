// PokerBot.py: the per-opponent-hand rollout statistics, the showdown between two hole
// pairs, and the decision rule that samples opponent hands by UCB1, completes the board
// and stays when the average outcome is at least one half. The wall clock and the
// random generator become a list of per-rollout random choices; the square-root and
// logarithm term of UCB1 is a parameter.
module PokerBot {
  import opened Common
  import opened Evaluator
  import opened EvaluatorProps
  import opened Decks

  // ------------------------------------------------------------------ scores

  /** A Python float as `ucb1` produces it: minus infinity (the scan's start), a finite
      value, or plus infinity (an unvisited state). */
  datatype Score = NegInf | Fin(v: real) | PosInf

  /** Python's `<` on such floats: nothing lies below minus infinity or above plus
      infinity, minus infinity lies below every other score and plus infinity above every
      other, and finite scores compare as reals. */
  predicate ScoreLess(a: Score, b: Score)
    ensures ScoreLess(a, b) ==> !b.NegInf? && !a.PosInf?
    ensures a.NegInf? && !b.NegInf? ==> ScoreLess(a, b)
    ensures !a.PosInf? && b.PosInf? ==> ScoreLess(a, b)
    ensures a.Fin? && b.Fin? ==> (ScoreLess(a, b) <==> a.v < b.v)
  {
    || (a.NegInf? && !b.NegInf?)
    || (a.Fin? && b.PosInf?)
    || (a.Fin? && b.Fin? && a.v < b.v)
  }

  /** A snapshot of one stat's fields. */
  datatype Tally = Tally(wins: real, visits: int)

  /** A score at most b is below anything above b. */
  lemma ScoreBelow(a: Score, b: Score, c: Score)
    requires ScoreLess(a, b) || !ScoreLess(b, a)
    requires ScoreLess(b, c)
    ensures ScoreLess(a, c)
  {
  }

  /** The three terminal values of a showdown: loss, draw, win. */
  predicate IsOutcome(r: real)
  {
    r == 0.0 || r == 0.5 || r == 1.0
  }

  // ---------------------------------------------------------- GameStateStat

  class GameStateStat {
    var wins: real
    var visits: int

    /** Visits so far, and wins adding up outcomes of 0, 0.5 and 1, so never more than the
        visits. */
    predicate Valid()
      reads this
    {
      0 <= visits && 0.0 <= wins <= visits as real
    }

    constructor()
      ensures wins == 0.0 && visits == 0 && Valid()
    {
      wins := 0.0;
      visits := 0;
    }

    /** `update(result)`: one more visit, `result` more wins. */
    method Update(result: real)
      modifies this
      ensures visits == old(visits) + 1 && wins == old(wins) + result
      ensures old(Valid()) && IsOutcome(result) ==> Valid()
    {
      visits := visits + 1;
      wins := wins + result;
    }

    /** `win_rate()`: wins per visit, 0 before the first visit. */
    function WinRate(): (r: real)
      reads this
      ensures visits > 0 ==> r * visits as real == wins
      ensures visits <= 0 ==> r == 0.0
      ensures Valid() ==> 0.0 <= r <= 1.0
    {
      if visits > 0 then wins / visits as real else 0.0
    }

    /** `ucb1(total)`: plus infinity before the first visit, otherwise the win rate plus the
        exploration term `bonus(total, visits)`. */
    function Ucb1(total: int, bonus: (int, int) -> real): (s: Score)
      reads this
      ensures s.PosInf? <==> visits == 0
      ensures !s.NegInf?
      ensures visits != 0 ==> s.Fin? && s.v - WinRate() == bonus(total, visits)
    {
      if visits == 0 then PosInf else Fin(WinRate() + bonus(total, visits))
    }
  }

  // --------------------------------------------------------------- showdown

  /** `evaluate_hands`: 1 when the own seven cards score higher, 0 when lower, 0.5 on a
      tie, comparing `(category, tiebreak)` tuples. */
  function EvaluateHands(myHand: seq<int>, opponentHand: seq<int>, shared: seq<int>): (r: real)
    requires |myHand + shared| == 7 && |opponentHand + shared| == 7
    ensures IsOutcome(r)
    ensures r == 1.0 <==> ValueLess(EvaluateHand(opponentHand + shared), EvaluateHand(myHand + shared))
    ensures r == 0.0 <==> ValueLess(EvaluateHand(myHand + shared), EvaluateHand(opponentHand + shared))
    ensures r == 0.5 <==> EvaluateHand(myHand + shared) == EvaluateHand(opponentHand + shared)
  {
    var mine, theirs := EvaluateHand(myHand + shared), EvaluateHand(opponentHand + shared);
    ValueTrichotomy(mine, theirs);
    if ValueLess(theirs, mine) then 1.0
    else if ValueLess(mine, theirs) then 0.0
    else 0.5
  }

  /** Swapping the two hands turns a win into a loss and keeps a draw. */
  lemma EvaluateHandsSwap(myHand: seq<int>, opponentHand: seq<int>, shared: seq<int>)
    requires |myHand + shared| == 7 && |opponentHand + shared| == 7
    ensures EvaluateHands(opponentHand, myHand, shared) == 1.0 - EvaluateHands(myHand, opponentHand, shared)
  {
    ValueTrichotomy(EvaluateHand(myHand + shared), EvaluateHand(opponentHand + shared));
  }

  // ------------------------------------------------------------- candidates

  type Key = (int, int)

  predicate Ascending(s: seq<int>)
  {
    forall i, j :: 0 <= i < j < |s| ==> s[i] < s[j]
  }

  lemma {:induction false} WithoutAscending(s: seq<int>, gone: set<int>)
    requires Ascending(s)
    ensures Ascending(Without(s, gone))
  {
    if s != [] {
      WithoutAscending(s[1..], gone);
      var rest := Without(s[1..], gone);
      if s[0] !in gone {
        forall j | 0 <= j < |rest| ensures s[0] < rest[j] {
          assert rest[j] in s[1..];
        }
      }
    }
  }

  /** `list(set(range(52)) - set(known))`: the cards no one has seen. CPython lists a set of
      small ints in ascending order, and so does this model. */
  function Remaining(known: seq<int>): (r: seq<int>)
    ensures forall x :: x in r <==> 0 <= x < NumCards && x !in known
    ensures Ascending(r)
  {
    WithoutAscending(Iota(NumCards), SetOf(known));
    IotaMembers(NumCards);
    Without(Iota(NumCards), SetOf(known))
  }

  /** The pairs `(x, y)` for y in ys, in order. */
  function PairsWith(x: int, ys: seq<int>): (r: seq<Key>)
    ensures |r| == |ys|
    ensures forall p :: p in r <==> p.0 == x && p.1 in ys
  {
    if ys == [] then [] else [(x, ys[0])] + PairsWith(x, ys[1..])
  }

  /** `combinations(xs, 2)`: every pair of positions i < j, in lexicographic order. */
  function Pairs(xs: seq<int>): (r: seq<Key>)
    ensures forall p :: p in r <==> exists i, j :: 0 <= i < j < |xs| && p == (xs[i], xs[j])
  {
    if xs == [] then []
    else
      var rest := Pairs(xs[1..]);
      PairsShift(xs, rest);
      PairsWith(xs[0], xs[1..]) + rest
  }

  /** The pairs of positions of xs are those with the first position 0, followed by the
      pairs of positions of its tail. */
  lemma PairsShift(xs: seq<int>, rest: seq<Key>)
    requires xs != []
    requires forall p :: p in rest <==> exists i, j :: 0 <= i < j < |xs[1..]| && p == (xs[1..][i], xs[1..][j])
    ensures forall p :: p in PairsWith(xs[0], xs[1..]) + rest <==>
      exists i, j :: 0 <= i < j < |xs| && p == (xs[i], xs[j])
  {
    var t := xs[1..];
    forall p | p in PairsWith(xs[0], t) + rest
      ensures exists i, j :: 0 <= i < j < |xs| && p == (xs[i], xs[j])
    {
      if p in PairsWith(xs[0], t) {
        var j :| 0 <= j < |t| && t[j] == p.1;
        assert p == (xs[0], xs[j + 1]);
      } else {
        var i, j :| 0 <= i < j < |t| && p == (t[i], t[j]);
        assert p == (xs[i + 1], xs[j + 1]);
      }
    }
    forall p | exists i, j :: 0 <= i < j < |xs| && p == (xs[i], xs[j])
      ensures p in PairsWith(xs[0], t) + rest
    {
      var i, j :| 0 <= i < j < |xs| && p == (xs[i], xs[j]);
      if i == 0 {
        assert xs[j] == t[j - 1];
      } else {
        assert p == (t[i - 1], t[j - 1]);
      }
    }
  }

  /** n items have n(n-1)/2 pairs. */
  lemma {:induction false} PairsCount(xs: seq<int>)
    ensures 2 * |Pairs(xs)| == |xs| * (|xs| - 1)
  {
    if xs != [] {
      var t := xs[1..];
      var n := |t|;
      PairsCount(t);
      assert |Pairs(xs)| == n + |Pairs(t)|;
      assert (n + 1) * n == n * n + n;
      assert n * (n - 1) == n * n - n;
    }
  }

  /** On an ascending list the pairs are exactly the two-element subsets, written smaller
      card first. */
  lemma {:induction false} PairsAscending(xs: seq<int>)
    requires Ascending(xs)
    ensures forall p :: p in Pairs(xs) <==> p.0 in xs && p.1 in xs && p.0 < p.1
  {
    if xs != [] {
      var t := xs[1..];
      assert Ascending(t);
      PairsAscending(t);
      assert forall y :: y in t ==> xs[0] < y;
      assert forall y :: y in xs <==> y == xs[0] || y in t;
      assert forall p :: p in Pairs(xs) <==> p in PairsWith(xs[0], t) || p in Pairs(t);
    }
  }

  /** `tuple(sorted(hand))` for a hand of two cards. */
  function SortPair(p: Key): (r: Key)
    ensures r.0 <= r.1
    ensures (r.0 == p.0 && r.1 == p.1) || (r.0 == p.1 && r.1 == p.0)
  {
    if p.0 <= p.1 then p else (p.1, p.0)
  }

  /** `list(combinations(remaining_cards, 2))` */
  function Candidates(myHand: seq<int>, revealed: seq<int>): (r: seq<Key>)
  {
    Pairs(Remaining(myHand + revealed))
  }

  /** The candidate opponent hands are exactly the pairs of different unseen cards, each
      listed once with the smaller card first, so that sorting a candidate leaves it as it
      is. */
  lemma CandidatesExact(myHand: seq<int>, revealed: seq<int>, p: Key)
    ensures p in Candidates(myHand, revealed) <==>
      0 <= p.0 < p.1 < NumCards && p.0 !in myHand + revealed && p.1 !in myHand + revealed
    ensures p in Candidates(myHand, revealed) ==> SortPair(p) == p
  {
    PairsAscending(Remaining(myHand + revealed));
  }

  /** With n unseen cards there are n(n-1)/2 candidates. */
  lemma CandidatesCount(myHand: seq<int>, revealed: seq<int>)
    ensures var n := |Remaining(myHand + revealed)|;
      2 * |Candidates(myHand, revealed)| == n * (n - 1)
  {
    PairsCount(Remaining(myHand + revealed));
  }

  // -------------------------------------------------------------- selection

  /** The score the scan gives to key k, read off the snapshot of `node_stats`: plus
      infinity when k has no stat yet or an unvisited one, otherwise the win rate plus the
      exploration term. */
  function ScoreOf(k: Key, view: map<Key, Tally>, n: int, bonus: (int, int) -> real): (s: Score)
    ensures !s.NegInf?
    ensures s.PosInf? <==> k !in view || view[k].visits == 0
  {
    if k in view && view[k].visits != 0 then Fin(view[k].wins / view[k].visits as real + bonus(n, view[k].visits))
    else PosInf
  }

  function SampleScores(sample: seq<Key>, view: map<Key, Tally>, n: int, bonus: (int, int) -> real): (r: seq<Score>)
    ensures |r| == |sample|
    ensures forall j :: 0 <= j < |sample| ==> r[j] == ScoreOf(SortPair(sample[j]), view, n, bonus)
  {
    if sample == [] then []
    else [ScoreOf(SortPair(sample[0]), view, n, bonus)] + SampleScores(sample[1..], view, n, bonus)
  }

  /** `node_stats.get(key, GameStateStat()).ucb1(n)`: the default stat is built on every
      call, and scores plus infinity; a stored stat scores as its snapshot says. */
  method ScoreKey(key: Key, stats: map<Key, GameStateStat>, ghost view: map<Key, Tally>, n: int,
                  bonus: (int, int) -> real)
    returns (value: Score)
    requires Matches(stats, view) && (key in view ==> 0 <= view[key].visits)
    ensures value == ScoreOf(key, view, n, bonus)
  {
    var unseen := new GameStateStat();
    var current := if key in stats then stats[key] else unseen;
    value := current.Ucb1(n, bonus);
  }

  /** Position i is where a strict `>` scan from minus infinity ends: its score beats every
      earlier one and no later one beats it. */
  predicate FirstBest(scores: seq<Score>, i: int)
  {
    && 0 <= i < |scores|
    && (forall j :: 0 <= j < i ==> ScoreLess(scores[j], scores[i]))
    && (forall j :: i < j < |scores| ==> !ScoreLess(scores[i], scores[j]))
  }

  /** The selection loop: scan the sampled hands and keep the first one whose score is
      strictly larger than the best so far. */
  method SelectCandidate(sample: seq<Key>, stats: map<Key, GameStateStat>, ghost view: map<Key, Tally>,
                         total: int, bonus: (int, int) -> real)
    returns (choose: Option<Key>, ghost at: int)
    requires Matches(stats, view) && forall k :: k in view ==> 0 <= view[k].visits
    ensures choose.None? <==> sample == []
    ensures choose.Some? ==>
      (FirstBest(SampleScores(sample, view, total + 1, bonus), at) && choose.value == SortPair(sample[at]))
  {
    ghost var scores := SampleScores(sample, view, total + 1, bonus);
    var best := NegInf;
    choose := None;
    at := -1;
    for i := 0 to |sample|
      invariant choose.None? <==> i == 0
      invariant choose.Some? ==> 0 <= at < i && best == scores[at] && choose.value == SortPair(sample[at])
      invariant choose.Some? ==> forall j :: 0 <= j < at ==> ScoreLess(scores[j], scores[at])
      invariant choose.Some? ==> forall j :: at < j < i ==> !ScoreLess(scores[at], scores[j])
      invariant choose.None? ==> best == NegInf
    {
      var key := SortPair(sample[i]);
      var value := ScoreKey(key, stats, view, total + 1, bonus);
      if ScoreLess(best, value) {
        forall j | 0 <= j < i ensures ScoreLess(scores[j], value) {
          ScoreBelow(scores[j], best, value);
        }
        best := value;
        choose := Some(key);
        at := i;
      }
    }
  }

  /** The scan's choice is fixed by the scores. */
  lemma FirstBestUnique(scores: seq<Score>, i: int, k: int)
    requires FirstBest(scores, i) && FirstBest(scores, k)
    ensures i == k
  {
    var a, b := scores[i], scores[k];
    assert i < k ==> ScoreLess(a, b);
    assert k < i ==> ScoreLess(b, a);
  }

  /** An unvisited hand scores plus infinity, so the first one in the sample is chosen over
      every visited hand and every later unvisited one. */
  lemma FirstUnvisitedChosen(scores: seq<Score>, i: int, u: int)
    requires FirstBest(scores, i) && 0 <= u < |scores| && scores[u].PosInf?
    requires forall j :: 0 <= j < u ==> scores[j].Fin?
    ensures i == u
  {
  }

  /** When every sampled hand has been visited, the chosen one has the largest score. */
  lemma VisitedBestChosen(scores: seq<Score>, i: int)
    requires FirstBest(scores, i) && forall j :: 0 <= j < |scores| ==> scores[j].Fin?
    ensures forall j :: 0 <= j < |scores| ==> scores[j].v <= scores[i].v
    ensures forall j :: 0 <= j < i ==> scores[j].v < scores[i].v
  {
  }

  // ------------------------------------------------------- board completion

  /** The random choices `deck.sample(to_reveal)` may make on a deck of `deckLeft` cards. */
  predicate BoardChoices(picks: seq<nat>, toReveal: int, deckLeft: int)
  {
    |picks| == toReveal && Distinct(picks) && forall k :: 0 <= k < |picks| ==> picks[k] < deckLeft
  }

  /** The deck of the expansion step: a new deck shuffled with `swaps`, without the known
      cards, in the order the deck keeps them. */
  function DeckLeft(known: seq<int>, swaps: seq<nat>): seq<int>
    requires ShuffleChoices(swaps, NumCards)
  {
    Without(ShuffleFrom(Iota(NumCards), swaps, NumCards - 1), SetOf(known))
  }

  /** A complete board for this deal: five different cards, the revealed ones first, none
      held by either player. */
  predicate BoardDealt(myHand: seq<int>, revealed: seq<int>, opponent: Key, board: seq<int>)
  {
    && |board| == 5 && |revealed| <= 5 && board[..|revealed|] == revealed
    && Distinct(board)
    && forall c :: c in board ==> 0 <= c < NumCards && c !in myHand && c != opponent.0 && c != opponent.1
  }

  /** The expansion step: a fresh shuffled deck without the own hand, the revealed cards and
      the opponent's hand, from which the missing community cards are sampled. */
  method SimulateBoard(myHand: seq<int>, revealed: seq<int>, opponent: Key, swaps: seq<nat>, picks: seq<nat>)
    returns (shared: seq<int>)
    requires |myHand| == 2 && |revealed| <= 5 && ValidCards(myHand + revealed)
    requires 0 <= opponent.0 < opponent.1 < NumCards
    requires opponent.0 !in myHand + revealed && opponent.1 !in myHand + revealed
    requires ShuffleChoices(swaps, NumCards)
    requires BoardChoices(picks, 5 - |revealed|, NumCards - 4 - |revealed|)
    ensures |DeckLeft(myHand + revealed + [opponent.0, opponent.1], swaps)| == NumCards - 4 - |revealed|
    ensures shared == revealed + Pick(DeckLeft(myHand + revealed + [opponent.0, opponent.1], swaps), picks)
    ensures BoardDealt(myHand, revealed, opponent, shared)
  {
    var deck := new Deck(swaps);
    FullDeckFacts(deck.cards);
    var known := myHand + revealed + [opponent.0, opponent.1];
    DistinctAppend(myHand + revealed, [opponent.0, opponent.1]);
    DistinctCard(known);
    DistinctParts(myHand, revealed);
    forall c | c in known ensures c in SetOf(deck.cards) {
      assert c in myHand + revealed || c == opponent.0 || c == opponent.1;
    }
    deck.RemoveCards(known);
    var complete := deck.Sample(5 - |revealed|, picks);
    shared := revealed + complete.value;
    assert forall c :: c in complete.value ==> c !in known;
    assert forall c :: c in revealed ==> c in myHand + revealed;
    DistinctAppend(revealed, complete.value);
  }

  // ------------------------------------------------------------------ decide

  /** The visits of the keys' stats, added up. */
  function SumVisits(keys: seq<Key>, view: map<Key, Tally>): int
    requires forall k :: k in keys ==> k in view
  {
    if keys == [] then 0
    else SumVisits(keys[..|keys| - 1], view) + view[keys[|keys| - 1]].visits
  }

  /** `sum(stat.wins for stat in node_stats.values())` over the keys' stats. */
  function SumWins(keys: seq<Key>, view: map<Key, Tally>): (r: real)
    requires forall k :: k in keys ==> k in view
    ensures (forall k :: k in keys ==> 0.0 <= view[k].wins) ==> 0.0 <= r
  {
    if keys == [] then 0.0
    else SumWins(keys[..|keys| - 1], view) + view[keys[|keys| - 1]].wins
  }

  /** Wins never exceed visits, per stat and so in total. */
  lemma {:induction false} SumsBounded(keys: seq<Key>, view: map<Key, Tally>)
    requires forall k :: k in keys ==> k in view && 0.0 <= view[k].wins <= view[k].visits as real
    ensures 0.0 <= SumWins(keys, view) <= SumVisits(keys, view) as real
  {
    if keys != [] {
      var init := keys[..|keys| - 1];
      assert forall k :: k in init ==> k in keys;
      SumsBounded(init, view);
    }
  }

  /** Changing the stat of a key not listed leaves the totals alone. */
  lemma {:induction false} SumsOther(keys: seq<Key>, view: map<Key, Tally>, c: Key, t: Tally)
    requires forall k :: k in keys ==> k in view
    requires c !in keys
    ensures SumVisits(keys, view[c := t]) == SumVisits(keys, view)
    ensures SumWins(keys, view[c := t]) == SumWins(keys, view)
  {
    if keys != [] {
      var init := keys[..|keys| - 1];
      assert forall k :: k in init ==> k in keys;
      SumsOther(init, view, c, t);
    }
  }

  /** One more visit and w more wins at a key listed once add one visit and w wins to the
      totals. */
  lemma {:induction false} SumsBump(keys: seq<Key>, view: map<Key, Tally>, c: Key, w: real)
    requires forall k :: k in keys ==> k in view
    requires Distinct(keys) && c in keys
    ensures var bumped := view[c := Tally(view[c].wins + w, view[c].visits + 1)];
      && SumVisits(keys, bumped) == SumVisits(keys, view) + 1
      && SumWins(keys, bumped) == SumWins(keys, view) + w
  {
    var bumped := view[c := Tally(view[c].wins + w, view[c].visits + 1)];
    var init, last := keys[..|keys| - 1], keys[|keys| - 1];
    assert forall k :: k in init ==> k in keys;
    if last == c {
      assert forall i :: 0 <= i < |init| ==> init[i] != last;
      SumsOther(init, view, c, bumped[c]);
    } else {
      assert c in init by {
        var i :| 0 <= i < |keys| && keys[i] == c;
        assert init[i] == c;
      }
      SumsBump(init, view, c, w);
    }
  }

  lemma SumsAppend(keys: seq<Key>, view: map<Key, Tally>, c: Key)
    requires forall k :: k in keys ==> k in view
    requires c in view
    ensures SumVisits(keys + [c], view) == SumVisits(keys, view) + view[c].visits
    ensures SumWins(keys + [c], view) == SumWins(keys, view) + view[c].wins
  {
    assert (keys + [c])[..|keys|] == keys;
  }

  /** The key order after recording a rollout for c: a new key goes last. */
  function RecordedKeys(keys: seq<Key>, c: Key): seq<Key>
  {
    if c in keys then keys else keys + [c]
  }

  /** The snapshot after recording outcome `result` for c: c's stat (a fresh one if c is
      new) has one more visit and `result` more wins; every other stat is unchanged. */
  function Recorded(view: map<Key, Tally>, c: Key, result: real): map<Key, Tally>
  {
    var before := if c in view then view[c] else Tally(0.0, 0);
    view[c := Tally(before.wins + result, before.visits + 1)]
  }

  /** `node_stats` after the update: it holds the old keys and c, c's stat is its old one
      (or a fresh one) with one more visit and `result` more wins, and every other stat is
      as it was; the key order keeps the old keys in place and puts a new c last. */
  lemma RecordedEntries(keys: seq<Key>, view: map<Key, Tally>, c: Key, result: real)
    ensures Recorded(view, c, result).Keys == view.Keys + {c}
    ensures forall k :: k in view && k != c ==> Recorded(view, c, result)[k] == view[k]
    ensures c in view ==> Recorded(view, c, result)[c] == Tally(view[c].wins + result, view[c].visits + 1)
    ensures c !in view ==> Recorded(view, c, result)[c] == Tally(result, 1)
    ensures forall k :: k in RecordedKeys(keys, c) <==> k in keys || k == c
    ensures keys <= RecordedKeys(keys, c) && |RecordedKeys(keys, c)| <= |keys| + 1
    ensures c in keys <==> RecordedKeys(keys, c) == keys
  {
  }

  /** Recording a rollout adds one visit and the outcome to the totals, and the key order
      still lists each key of the snapshot once. */
  lemma RecordSums(keys: seq<Key>, view: map<Key, Tally>, c: Key, result: real)
    requires Distinct(keys) && forall k :: k in keys <==> k in view
    ensures Distinct(RecordedKeys(keys, c))
    ensures forall k :: k in RecordedKeys(keys, c) <==> k in Recorded(view, c, result)
    ensures SumVisits(RecordedKeys(keys, c), Recorded(view, c, result)) == SumVisits(keys, view) + 1
    ensures SumWins(RecordedKeys(keys, c), Recorded(view, c, result)) == SumWins(keys, view) + result
  {
    var after := Recorded(view, c, result);
    if c in keys {
      SumsBump(keys, view, c, result);
    } else {
      DistinctAppend(keys, [c]);
      SumsOther(keys, view, c, after[c]);
      SumsAppend(keys, after, c);
    }
  }

  /** Every recorded stat has been visited and holds no more wins than visits. */
  lemma RecordedBounds(view: map<Key, Tally>, c: Key, result: real)
    requires forall k :: k in view ==> 1 <= view[k].visits && 0.0 <= view[k].wins <= view[k].visits as real
    requires IsOutcome(result)
    ensures forall k :: k in Recorded(view, c, result) ==>
      1 <= Recorded(view, c, result)[k].visits
      && 0.0 <= Recorded(view, c, result)[k].wins <= Recorded(view, c, result)[k].visits as real
  {
  }

  /** The ghost snapshot: `keys` lists each of its keys once, in insertion order, and every
      stat has been visited and has no more wins than visits. */
  ghost predicate Ledger(keys: seq<Key>, view: map<Key, Tally>)
  {
    && Distinct(keys) && (forall k :: k in keys <==> k in view)
    && (forall k :: k in view ==> 1 <= view[k].visits && 0.0 <= view[k].wins <= view[k].visits as real)
  }

  /** The stats dictionary `node_stats` holds one stat object of its own per key of the
      snapshot, with the snapshot's fields. */
  ghost predicate Matches(stats: map<Key, GameStateStat>, view: map<Key, Tally>)
    reads stats.Values
  {
    && stats.Keys == view.Keys
    && (forall k, k' :: k in stats && k' in stats && k != k' ==> stats[k] != stats[k'])
    && (forall k :: k in stats ==> stats[k].wins == view[k].wins && stats[k].visits == view[k].visits)
  }

  ghost predicate Mirrors(stats: map<Key, GameStateStat>, keys: seq<Key>, view: map<Key, Tally>)
    reads stats.Values
  {
    Ledger(keys, view) && Matches(stats, view)
  }

  /** Recording a rollout keeps the snapshot a ledger. */
  lemma RecordedLedger(keys: seq<Key>, view: map<Key, Tally>, c: Key, result: real)
    requires Ledger(keys, view) && IsOutcome(result)
    ensures Ledger(RecordedKeys(keys, c), Recorded(view, c, result))
  {
    RecordSums(keys, view, c, result);
    RecordedBounds(view, c, result);
  }

  /** `node_stats.get(c)`, or a new `GameStateStat()` when c has none. */
  method StatFor(stats: map<Key, GameStateStat>, c: Key) returns (stat: GameStateStat)
    ensures c in stats ==> stat == stats[c]
    ensures c !in stats ==> fresh(stat) && stat.wins == 0.0 && stat.visits == 0
  {
    if c in stats {
      stat := stats[c];
    } else {
      stat := new GameStateStat();
    }
  }

  /** Lines 91-93 of `decide`: add a fresh stat for a new key, then `update(result)` it. */
  method RecordOutcome(stats: map<Key, GameStateStat>, keys: seq<Key>, ghost view: map<Key, Tally>,
                       c: Key, result: real)
    returns (stats': map<Key, GameStateStat>, keys': seq<Key>, ghost view': map<Key, Tally>)
    requires Mirrors(stats, keys, view) && IsOutcome(result)
    modifies if c in stats then {stats[c]} else {}
    ensures keys' == RecordedKeys(keys, c) && view' == Recorded(view, c, result)
    ensures Mirrors(stats', keys', view')
    ensures forall k :: k in stats' ==> (k in stats && stats'[k] == stats[k]) || fresh(stats'[k])
  {
    RecordedLedger(keys, view, c, result);
    keys', view' := RecordedKeys(keys, c), Recorded(view, c, result);
    var stat := StatFor(stats, c);
    stats' := stats[c := stat];
    assert forall k :: k in stats && k != c ==> stats[k] != stat;
    stat.Update(result);
    assert stats'.Keys == view'.Keys;
    forall k | k in stats'
      ensures stats'[k].wins == view'[k].wins && stats'[k].visits == view'[k].visits
    {
      if k != c {
        assert stats'[k] == stats[k];
      }
    }
  }

  /** `sum(stat.wins for stat in node_stats.values())`, in insertion order. */
  method TotalWins(stats: map<Key, GameStateStat>, keys: seq<Key>, ghost view: map<Key, Tally>)
    returns (total: real)
    requires Mirrors(stats, keys, view)
    ensures total == SumWins(keys, view)
    ensures 0.0 <= total <= SumVisits(keys, view) as real
  {
    total := 0.0;
    for j := 0 to |keys|
      invariant total == SumWins(keys[..j], view)
    {
      assert keys[..j + 1][..j] == keys[..j];
      total := total + stats[keys[j]].wins;
    }
    assert keys[..|keys|] == keys;
    SumsBounded(keys, view);
  }

  /** `total_wins / total_simulations if total_simulations > 0 else 0`: a rate in [0, 1]
      whenever the wins do not exceed the rollouts. */
  function AverageRate(wins: real, rollouts: int): (r: real)
    ensures 0.0 <= wins <= rollouts as real ==> 0.0 <= r <= 1.0
    ensures rollouts > 0 ==> r * rollouts as real == wins
    ensures rollouts <= 0 ==> r == 0.0
  {
    if rollouts > 0 then wins / rollouts as real else 0.0
  }

  /** The rate reaches one half exactly when twice the wins reach the rollouts. */
  lemma HalfRate(wins: real, rollouts: int)
    requires rollouts > 0
    ensures AverageRate(wins, rollouts) >= 0.5 <==> 2.0 * wins >= rollouts as real
  {
    var n, r := rollouts as real, AverageRate(wins, rollouts);
    assert r * n == wins;
    if r >= 0.5 {
      assert (r - 0.5) * n >= 0.0;
    } else {
      assert (0.5 - r) * n > 0.0;
    }
  }

  datatype Decision = Stay | Fold

  /** The random choices of one pass of the loop: the positions `random.sample` takes from
      the candidate list, the swaps of the new deck's shuffle, and the positions sampled
      for the board. */
  datatype Rollout = Rollout(handPicks: seq<nat>, swaps: seq<nat>, boardPicks: seq<nat>)

  function Min(a: int, b: int): int
  {
    if a <= b then a else b
  }

  predicate RolloutChoices(r: Rollout, candidates: nat, revealed: nat)
  {
    && |r.handPicks| == Min(candidates, 100) && Distinct(r.handPicks)
    && (forall k :: 0 <= k < |r.handPicks| ==> r.handPicks[k] < candidates)
    && ShuffleChoices(r.swaps, NumCards)
    && BoardChoices(r.boardPicks, 5 - revealed, NumCards - 4 - revealed)
  }

  /** What one completed pass of the loop did: the position in the sample of the hand the
      scan chose, that hand's key, the completed board and the showdown's value. */
  datatype Pass = Pass(at: int, choice: Key, board: seq<int>, outcome: real)

  /** p is the pass `decide` makes with the random choices r when `node_stats` is `view`
      and `total_simulations + 1` is n: the scan picks the first best UCB1 score among the
      sampled hands, the board is dealt from the new deck without the known cards, and the
      outcome is the showdown of the own hand against the chosen one. */
  predicate PassOf(myHand: seq<int>, revealed: seq<int>, candidates: seq<Key>, r: Rollout,
                   view: map<Key, Tally>, n: int, bonus: (int, int) -> real, p: Pass)
    requires |myHand| == 2 && RolloutChoices(r, |candidates|, |revealed|)
    ensures PassOf(myHand, revealed, candidates, r, view, n, bonus, p) ==>
      && 0 <= p.at < |r.handPicks| && p.choice.0 <= p.choice.1 && IsOutcome(p.outcome)
  {
    var sample := Pick(candidates, r.handPicks);
    var deck := DeckLeft(myHand + revealed + [p.choice.0, p.choice.1], r.swaps);
    && FirstBest(SampleScores(sample, view, n, bonus), p.at)
    && p.choice == SortPair(sample[p.at])
    && (forall k :: 0 <= k < |r.boardPicks| ==> r.boardPicks[k] < |deck|)
    && p.board == revealed + Pick(deck, r.boardPicks)
    && BoardDealt(myHand, revealed, p.choice, p.board)
    && p.outcome == EvaluateHands(myHand, [p.choice.0, p.choice.1], p.board)
  }

  /** The key order and the snapshot of `node_stats` after recording the passes in order,
      starting from the empty dictionary. */
  function Replay(passes: seq<Pass>): (seq<Key>, map<Key, Tally>)
  {
    if passes == [] then ([], map[])
    else
      var before, p := Replay(passes[..|passes| - 1]), passes[|passes| - 1];
      (RecordedKeys(before.0, p.choice), Recorded(before.1, p.choice, p.outcome))
  }

  /** The outcomes of the passes, added up. */
  function SumOutcomes(passes: seq<Pass>): (r: real)
    ensures (forall i :: 0 <= i < |passes| ==> IsOutcome(passes[i].outcome)) ==> 0.0 <= r <= |passes| as real
  {
    if passes == [] then 0.0 else SumOutcomes(passes[..|passes| - 1]) + passes[|passes| - 1].outcome
  }

  /** After the passes, `node_stats` lists each key once, has one visit per pass, and its
      wins add up to the passes' outcomes. */
  lemma {:induction false} ReplaySums(passes: seq<Pass>)
    requires forall i :: 0 <= i < |passes| ==> IsOutcome(passes[i].outcome)
    ensures Ledger(Replay(passes).0, Replay(passes).1)
    ensures SumVisits(Replay(passes).0, Replay(passes).1) == |passes|
    ensures SumWins(Replay(passes).0, Replay(passes).1) == SumOutcomes(passes)
    ensures 0.0 <= SumOutcomes(passes) <= |passes| as real
  {
    if passes != [] {
      var init, p := passes[..|passes| - 1], passes[|passes| - 1];
      ReplaySums(init);
      var before := Replay(init);
      RecordedLedger(before.0, before.1, p.choice, p.outcome);
      RecordSums(before.0, before.1, p.choice, p.outcome);
      SumsBounded(Replay(passes).0, Replay(passes).1);
    }
  }

  /** Each of the passes is the one the matching rollout makes on the snapshot the earlier
      passes left, with `total_simulations + 1` counting them. */
  predicate PassesOf(myHand: seq<int>, revealed: seq<int>, candidates: seq<Key>, rollouts: seq<Rollout>,
                     bonus: (int, int) -> real, passes: seq<Pass>)
    requires |myHand| == 2 && |passes| <= |rollouts|
    requires forall i :: 0 <= i < |rollouts| ==> RolloutChoices(rollouts[i], |candidates|, |revealed|)
  {
    forall i :: 0 <= i < |passes| ==>
      PassOf(myHand, revealed, candidates, rollouts[i], Replay(passes[..i]).1, i + 1, bonus, passes[i])
  }

  /** A pass made on the snapshot of the earlier passes extends them. */
  lemma PassesSnoc(myHand: seq<int>, revealed: seq<int>, candidates: seq<Key>, rollouts: seq<Rollout>,
                   bonus: (int, int) -> real, passes: seq<Pass>, r: Rollout, view: map<Key, Tally>, n: int, p: Pass)
    requires |myHand| == 2 && |passes| < |rollouts|
    requires forall i :: 0 <= i < |rollouts| ==> RolloutChoices(rollouts[i], |candidates|, |revealed|)
    requires PassesOf(myHand, revealed, candidates, rollouts, bonus, passes)
    requires r == rollouts[|passes|] && view == Replay(passes).1 && n == |passes| + 1
    requires PassOf(myHand, revealed, candidates, r, view, n, bonus, p)
    ensures PassesOf(myHand, revealed, candidates, rollouts, bonus, passes + [p])
  {
    var after := passes + [p];
    forall i | 0 <= i < |after|
      ensures PassOf(myHand, revealed, candidates, rollouts[i], Replay(after[..i]).1, i + 1, bonus, after[i])
    {
      SnocPrefix(passes, p, i);
    }
  }

  /** Replaying one more pass records it on the snapshot of the earlier ones. */
  lemma ReplaySnoc(passes: seq<Pass>, p: Pass)
    ensures Replay(passes + [p]) == (RecordedKeys(Replay(passes).0, p.choice), Recorded(Replay(passes).1, p.choice, p.outcome))
  {
    SnocPrefix(passes, p, |passes|);
  }

  /** `passes` is what the loop of `decide` does with the random choices `rollouts`: one
      pass per rollout when there are candidates (none otherwise), each chosen on the
      `node_stats` the earlier passes left, with `total_simulations + 1` counting them. */
  predicate Played(myHand: seq<int>, revealed: seq<int>, rollouts: seq<Rollout>, bonus: (int, int) -> real,
                   passes: seq<Pass>)
    requires |myHand| == 2
    requires forall i :: 0 <= i < |rollouts| ==>
      RolloutChoices(rollouts[i], |Candidates(myHand, revealed)|, |revealed|)
    ensures Played(myHand, revealed, rollouts, bonus, passes) ==>
      forall i :: 0 <= i < |passes| ==> IsOutcome(passes[i].outcome)
  {
    && |passes| == (if |Candidates(myHand, revealed)| == 0 then 0 else |rollouts|)
    && PassesOf(myHand, revealed, Candidates(myHand, revealed), rollouts, bonus, passes)
  }

  /** The showdown pass is fixed by the random choices and the snapshot it starts from. */
  lemma PassUnique(myHand: seq<int>, revealed: seq<int>, candidates: seq<Key>, r: Rollout,
                   view: map<Key, Tally>, n: int, bonus: (int, int) -> real, p: Pass, q: Pass)
    requires |myHand| == 2 && RolloutChoices(r, |candidates|, |revealed|)
    requires PassOf(myHand, revealed, candidates, r, view, n, bonus, p)
    requires PassOf(myHand, revealed, candidates, r, view, n, bonus, q)
    ensures p == q
  {
    FirstBestUnique(SampleScores(Pick(candidates, r.handPicks), view, n, bonus), p.at, q.at);
  }

  lemma SnocPrefix(a: seq<Pass>, p: Pass, i: nat)
    requires i <= |a|
    ensures (a + [p])[..i] == a[..i] && (i < |a| ==> (a + [p])[i] == a[i])
  {
  }

  lemma PrefixStep(a: seq<Pass>, i: nat)
    requires 0 < i <= |a|
    ensures a[..i] == a[..i - 1] + [a[i - 1]]
  {
  }

  /** The first i passes are fixed by the random choices. */
  lemma {:induction false} PlayedPrefix(myHand: seq<int>, revealed: seq<int>, rollouts: seq<Rollout>,
                                        bonus: (int, int) -> real, a: seq<Pass>, b: seq<Pass>, i: nat)
    requires |myHand| == 2
    requires forall i :: 0 <= i < |rollouts| ==>
      RolloutChoices(rollouts[i], |Candidates(myHand, revealed)|, |revealed|)
    requires Played(myHand, revealed, rollouts, bonus, a) && Played(myHand, revealed, rollouts, bonus, b)
    requires i <= |a|
    ensures a[..i] == b[..i]
  {
    if i > 0 {
      var j := i - 1;
      PlayedPrefix(myHand, revealed, rollouts, bonus, a, b, j);
      PassUnique(myHand, revealed, Candidates(myHand, revealed), rollouts[j], Replay(a[..j]).1, j + 1, bonus, a[j], b[j]);
      PrefixStep(a, i);
      PrefixStep(b, i);
    }
  }

  /** The passes are determined by the hands, the random choices and the exploration term:
      `decide` is a function of them. */
  lemma PlayedUnique(myHand: seq<int>, revealed: seq<int>, rollouts: seq<Rollout>,
                     bonus: (int, int) -> real, a: seq<Pass>, b: seq<Pass>)
    requires |myHand| == 2
    requires forall i :: 0 <= i < |rollouts| ==>
      RolloutChoices(rollouts[i], |Candidates(myHand, revealed)|, |revealed|)
    requires Played(myHand, revealed, rollouts, bonus, a) && Played(myHand, revealed, rollouts, bonus, b)
    ensures a == b
  {
    PlayedPrefix(myHand, revealed, rollouts, bonus, a, b, |a|);
    assert a == a[..|a|] && b == b[..|b|];
  }

  /** One pass of the loop of `decide`: selection among the sampled hands, the simulated
      board, the showdown and the update of the chosen hand's stat. With no candidates the
      pass only `continue`s. */
  method RunRollout(myHand: seq<int>, revealed: seq<int>, candidates: seq<Key>, r: Rollout,
                    stats: map<Key, GameStateStat>, keys: seq<Key>, ghost view: map<Key, Tally>,
                    total: int, bonus: (int, int) -> real)
    returns (stats': map<Key, GameStateStat>, keys': seq<Key>, ghost view': map<Key, Tally>, total': int,
             ghost p: Pass)
    requires |myHand| == 2 && |revealed| <= 5 && ValidCards(myHand + revealed)
    requires candidates == Candidates(myHand, revealed)
    requires RolloutChoices(r, |candidates|, |revealed|)
    requires Mirrors(stats, keys, view) && forall k :: k in view ==> k in candidates
    modifies stats.Values
    ensures Mirrors(stats', keys', view') && forall k :: k in view' ==> k in candidates
    ensures forall k :: k in stats' ==> (k in stats && stats'[k] == stats[k]) || fresh(stats'[k])
    ensures |candidates| == 0 ==> stats' == stats && keys' == keys && view' == view && total' == total
    ensures |candidates| > 0 ==>
      && PassOf(myHand, revealed, candidates, r, view, total + 1, bonus, p)
      && keys' == RecordedKeys(keys, p.choice) && view' == Recorded(view, p.choice, p.outcome)
      && total' == total + 1
  {
    stats', keys', view', total' := stats, keys, view, total;
    p := Pass(0, (0, 0), [], 0.0);
    var sample := Pick(candidates, r.handPicks);
    var choose, at := SelectCandidate(sample, stats, view, total, bonus);
    if choose.None? {
      return;
    }
    var c := choose.value;
    CandidatesExact(myHand, revealed, sample[at]);
    CandidatesExact(myHand, revealed, c);
    var shared := SimulateBoard(myHand, revealed, c, r.swaps, r.boardPicks);
    var result := EvaluateHands(myHand, [c.0, c.1], shared);
    p := Pass(at, c, shared, result);
    stats', keys', view' := RecordOutcome(stats, keys, view, c, result);
    total' := total + 1;
  }

  /** What the loop of `decide` has done after i passes: `total_simulations` counts the
      recorded passes, one per pass when there are candidates, each the pass its rollout
      makes, and `node_stats` is their replay. */
  predicate Progress(myHand: seq<int>, revealed: seq<int>, candidates: seq<Key>, rollouts: seq<Rollout>,
                     bonus: (int, int) -> real, i: nat, keys: seq<Key>, view: map<Key, Tally>, total: nat,
                     passes: seq<Pass>)
    requires |myHand| == 2 && i <= |rollouts|
    requires forall j :: 0 <= j < |rollouts| ==> RolloutChoices(rollouts[j], |candidates|, |revealed|)
  {
    && total == |passes| == (if |candidates| == 0 then 0 else i)
    && keys == Replay(passes).0 && view == Replay(passes).1
    && PassesOf(myHand, revealed, candidates, rollouts, bonus, passes)
  }

  /** Progress over every rollout is the played loop. */
  lemma ProgressDone(myHand: seq<int>, revealed: seq<int>, rollouts: seq<Rollout>, bonus: (int, int) -> real,
                     keys: seq<Key>, view: map<Key, Tally>, total: nat, passes: seq<Pass>)
    requires |myHand| == 2
    requires forall i :: 0 <= i < |rollouts| ==>
      RolloutChoices(rollouts[i], |Candidates(myHand, revealed)|, |revealed|)
    requires Progress(myHand, revealed, Candidates(myHand, revealed), rollouts, bonus, |rollouts|, keys, view, total, passes)
    ensures Played(myHand, revealed, rollouts, bonus, passes)
    ensures keys == Replay(passes).0 && view == Replay(passes).1 && total == |passes|
    ensures total == (if |Candidates(myHand, revealed)| == 0 then 0 else |rollouts|)
  {
  }

  /** Recording pass i, or skipping it when there are no candidates, is progress. */
  lemma ProgressStep(myHand: seq<int>, revealed: seq<int>, candidates: seq<Key>, rollouts: seq<Rollout>,
                     bonus: (int, int) -> real, i: nat, keys: seq<Key>, view: map<Key, Tally>, total: nat,
                     passes: seq<Pass>, p: Pass, keys': seq<Key>, view': map<Key, Tally>, total': nat)
    requires |myHand| == 2 && i < |rollouts|
    requires forall j :: 0 <= j < |rollouts| ==> RolloutChoices(rollouts[j], |candidates|, |revealed|)
    requires Progress(myHand, revealed, candidates, rollouts, bonus, i, keys, view, total, passes)
    requires |candidates| == 0 ==> keys' == keys && view' == view && total' == total
    requires |candidates| > 0 ==>
      && PassOf(myHand, revealed, candidates, rollouts[i], view, total + 1, bonus, p)
      && keys' == RecordedKeys(keys, p.choice) && view' == Recorded(view, p.choice, p.outcome)
      && total' == total + 1
    ensures |candidates| == 0 ==> Progress(myHand, revealed, candidates, rollouts, bonus, i + 1, keys', view', total', passes)
    ensures |candidates| > 0 ==>
      Progress(myHand, revealed, candidates, rollouts, bonus, i + 1, keys', view', total', passes + [p])
  {
    if |candidates| > 0 {
      PassesSnoc(myHand, revealed, candidates, rollouts, bonus, passes, rollouts[i], view, total + 1, p);
      ReplaySnoc(passes, p);
    }
  }

  /** Pass i of the loop of `decide`, with the passes so far as a ghost record. */
  method SimulatePass(myHand: seq<int>, revealed: seq<int>, candidates: seq<Key>, rollouts: seq<Rollout>,
                      bonus: (int, int) -> real, i: nat, stats: map<Key, GameStateStat>, keys: seq<Key>,
                      ghost view: map<Key, Tally>, total: nat, ghost passes: seq<Pass>)
    returns (stats': map<Key, GameStateStat>, keys': seq<Key>, ghost view': map<Key, Tally>, total': nat,
             ghost passes': seq<Pass>)
    requires |myHand| == 2 && |revealed| <= 5 && ValidCards(myHand + revealed)
    requires candidates == Candidates(myHand, revealed) && i < |rollouts|
    requires forall j :: 0 <= j < |rollouts| ==> RolloutChoices(rollouts[j], |candidates|, |revealed|)
    requires Mirrors(stats, keys, view) && forall k :: k in view ==> k in candidates
    requires Progress(myHand, revealed, candidates, rollouts, bonus, i, keys, view, total, passes)
    modifies stats.Values
    ensures Mirrors(stats', keys', view') && forall k :: k in view' ==> k in candidates
    ensures forall k :: k in stats' ==> (k in stats && stats'[k] == stats[k]) || fresh(stats'[k])
    ensures Progress(myHand, revealed, candidates, rollouts, bonus, i + 1, keys', view', total', passes')
  {
    ghost var p;
    stats', keys', view', total', p := RunRollout(myHand, revealed, candidates, rollouts[i], stats, keys, view, total, bonus);
    ProgressStep(myHand, revealed, candidates, rollouts, bonus, i, keys, view, total, passes, p, keys', view', total');
    passes' := if |candidates| > 0 then passes + [p] else passes;
  }

  /** The loop of `decide`, one pass per element of `rollouts`: `node_stats` and
      `total_simulations` as the loop leaves them, and the passes it made. */
  method Simulate(myHand: seq<int>, revealed: seq<int>, rollouts: seq<Rollout>, bonus: (int, int) -> real)
    returns (stats: map<Key, GameStateStat>, keys: seq<Key>, ghost view: map<Key, Tally>, total: nat,
             ghost passes: seq<Pass>)
    requires |myHand| == 2 && |revealed| <= 5 && ValidCards(myHand + revealed)
    requires forall i :: 0 <= i < |rollouts| ==>
      RolloutChoices(rollouts[i], |Candidates(myHand, revealed)|, |revealed|)
    ensures Mirrors(stats, keys, view)
    ensures Played(myHand, revealed, rollouts, bonus, passes)
    ensures keys == Replay(passes).0 && view == Replay(passes).1 && total == |passes|
    ensures total == (if |Candidates(myHand, revealed)| == 0 then 0 else |rollouts|)
  {
    total := 0;
    stats := map[];
    keys := [];
    view := map[];
    passes := [];
    for i := 0 to |rollouts|
      invariant Mirrors(stats, keys, view)
      invariant forall k :: k in stats ==> fresh(stats[k])
      invariant forall k :: k in view ==> k in Candidates(myHand, revealed)
      invariant Progress(myHand, revealed, Candidates(myHand, revealed), rollouts, bonus, i, keys, view, total, passes)
    {
      stats, keys, view, total, passes :=
        SimulatePass(myHand, revealed, Candidates(myHand, revealed), rollouts, bonus, i, stats, keys, view, total, passes);
    }
    ProgressDone(myHand, revealed, rollouts, bonus, keys, view, total, passes);
  }

  /** `decide`: one pass of the loop per element of `rollouts` (standing for the passes the
      time limit allows). Each pass samples up to 100 candidate opponent hands, picks one by
      UCB1, deals the rest of the board, scores the showdown and updates that hand's stat.
      The result is "stay" when the showdowns' outcomes per completed rollout reach one
      half; `winRate` is the value the method prints. The ghost result lists the passes. */
  method Decide(myHand: seq<int>, revealed: seq<int>, rollouts: seq<Rollout>, bonus: (int, int) -> real)
    returns (decision: Decision, winRate: real, ghost passes: seq<Pass>)
    requires |myHand| == 2 && |revealed| <= 5 && ValidCards(myHand + revealed)
    requires forall i :: 0 <= i < |rollouts| ==>
      RolloutChoices(rollouts[i], |Candidates(myHand, revealed)|, |revealed|)
    ensures Played(myHand, revealed, rollouts, bonus, passes)
    ensures winRate == AverageRate(SumOutcomes(passes), |passes|) && 0.0 <= winRate <= 1.0
    ensures decision == Stay <==> winRate >= 0.5
    ensures passes == [] ==> decision == Fold
    ensures passes != [] ==> (decision == Stay <==> 2.0 * SumOutcomes(passes) >= |passes| as real)
  {
    var stats, keys, total;
    ghost var view;
    stats, keys, view, total, passes := Simulate(myHand, revealed, rollouts, bonus);
    ReplaySums(passes);
    var totalWins := TotalWins(stats, keys, view);
    winRate := AverageRate(totalWins, total);
    decision := if winRate >= 0.5 then Stay else Fold;
    if total > 0 {
      HalfRate(totalWins, total);
    }
  }
}
