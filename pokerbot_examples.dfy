// The showdowns that end the three games of the bot's test suite: with the same five
// community cards, a royal flush beats a straight flush, two straight flushes of the same
// height draw, and four fours lose to four sevens. Each game reaches its showdown only if
// the bot stays in every round, which depends on its random rollouts; the lemmas state the
// value `evaluate_hands` gives the showdown.
module PokerBotExamples {
  import opened Common
  import opened Evaluator
  import opened EvaluatorCategory
  import opened EvaluatorExamples
  import opened PokerBot

  /** A candidate beats every other rank: it is present, differs from x, and is at least
      every rank. Then it is the largest rank left once x is removed. */
  lemma MaxOthers(ranks: seq<int>, x: int, m: int)
    requires m in ranks && m != x
    requires forall i :: 0 <= i < |ranks| ==> ranks[i] <= m
    ensures |Others(ranks, x)| > 0 && MaxOf(Others(ranks, x)) == m
  {
    assert m in Others(ranks, x);
    var top := MaxOf(Others(ranks, x));
    assert top in ranks;
  }

  /** The cards of suit s among two hole cards and a board all of suit s, when only the
      first hole card has that suit. */
  lemma FirstHoleSuited(hole: seq<int>, board: seq<int>, s: int)
    requires |hole| == 2 && Suit(hole[0]) == s && Suit(hole[1]) != s
    requires forall i :: 0 <= i < |board| ==> Suit(board[i]) == s
    ensures FilterSeq(SuitIs(s), hole + board) == [hole[0]] + board
  {
    var h := hole + board;
    assert h[0] == hole[0];
    assert h[1..] == [hole[1]] + board;
    FilterDropsPrefix(SuitIs(s), [hole[1]], board);
    FilterKeepsAll(SuitIs(s), board);
  }

  // -------------------------------------------------- royal flush, ace high

  lemma AceHighCards(hand: seq<int>)
    requires hand == [51, 50, 49, 48, 47, 46, 45]
    ensures SuitsOf(hand) == [3, 3, 3, 3, 3, 3, 3]
    ensures RanksOf(hand) == [12, 11, 10, 9, 8, 7, 6]
  {
  }

  lemma AceHighSuited(hand: seq<int>)
    requires hand == [51, 50, 49, 48, 47, 46, 45]
    ensures SuitedRanks(hand, 3) == [12, 11, 10, 9, 8, 7, 6]
  {
    AceHighCards(hand);
    FilterKeepsAll(SuitIs(3), hand);
  }

  lemma AceHighRun(ranks: seq<int>)
    requires ranks == [12, 11, 10, 9, 8, 7, 6]
    ensures GetStraight(ranks) == Some([12, 11, 10, 9, 8])
  {
    TopStraight(ranks, 12);
  }

  /** Ace to eight of spades: a royal flush. */
  lemma AceHighHand(hand: seq<int>)
    requires hand == [51, 50, 49, 48, 47, 46, 45]
    ensures EvaluateHand(hand) == HandValue(RoyalFlush, [12, 11, 10, 9, 8])
  {
    AceHighCards(hand);
    FlushSuitExact(hand, 3);
    AceHighSuited(hand);
    AceHighRun(SuitedRanks(hand, 3));
  }

  // ------------------------------------------- straight flush, queen high

  lemma QueenHighCards(hand: seq<int>)
    requires hand == [44, 27, 49, 48, 47, 46, 45]
    ensures SuitsOf(hand) == [3, 2, 3, 3, 3, 3, 3]
  {
  }

  lemma QueenHighSuited(hand: seq<int>)
    requires hand == [44, 27, 49, 48, 47, 46, 45]
    ensures SuitedRanks(hand, 3) == [5, 10, 9, 8, 7, 6]
  {
    var hole: seq<int>, board: seq<int> := [44, 27], [49, 48, 47, 46, 45];
    assert hand == hole + board;
    FirstHoleSuited(hole, board, 3);
    assert [hole[0]] + board == [44, 49, 48, 47, 46, 45];
  }

  lemma QueenHighRun(ranks: seq<int>)
    requires ranks == [5, 10, 9, 8, 7, 6]
    ensures GetStraight(ranks) == Some([10, 9, 8, 7, 6])
  {
    TopStraight(ranks, 10);
  }

  /** Seven, queen, jack, ten, nine and eight of spades with a three of hearts: a
      queen-high straight flush. */
  lemma QueenHighHand(hand: seq<int>)
    requires hand == [44, 27, 49, 48, 47, 46, 45]
    ensures EvaluateHand(hand) == HandValue(StraightFlush, [10, 9, 8, 7, 6])
  {
    QueenHighCards(hand);
    FlushSuitExact(hand, 3);
    QueenHighSuited(hand);
    QueenHighRun(SuitedRanks(hand, 3));
  }

  lemma BrokenAceCards(hand: seq<int>)
    requires hand == [51, 24, 49, 48, 47, 46, 45]
    ensures SuitsOf(hand) == [3, 1, 3, 3, 3, 3, 3]
  {
  }

  lemma BrokenAceSuited(hand: seq<int>)
    requires hand == [51, 24, 49, 48, 47, 46, 45]
    ensures SuitedRanks(hand, 3) == [12, 10, 9, 8, 7, 6]
  {
    var hole: seq<int>, board: seq<int> := [51, 24], [49, 48, 47, 46, 45];
    assert hand == hole + board;
    FirstHoleSuited(hole, board, 3);
    assert [hole[0]] + board == [51, 49, 48, 47, 46, 45];
  }

  lemma BrokenAceRun(ranks: seq<int>)
    requires ranks == [12, 10, 9, 8, 7, 6]
    ensures GetStraight(ranks) == Some([10, 9, 8, 7, 6])
  {
    TopStraight(ranks, 10);
  }

  /** The ace and queen to eight of spades with the king of diamonds: the king is off suit,
      so the straight flush is queen high. */
  lemma BrokenAceHand(hand: seq<int>)
    requires hand == [51, 24, 49, 48, 47, 46, 45]
    ensures EvaluateHand(hand) == HandValue(StraightFlush, [10, 9, 8, 7, 6])
  {
    BrokenAceCards(hand);
    FlushSuitExact(hand, 3);
    BrokenAceSuited(hand);
    BrokenAceRun(SuitedRanks(hand, 3));
  }

  // ------------------------------------------------------- four of a kind

  lemma FourFoursCards(hand: seq<int>)
    requires hand == [28, 41, 31, 44, 11, 15, 2]
    ensures RanksOf(hand) == [2, 2, 5, 5, 11, 2, 2]
    ensures SuitsOf(hand) == [2, 3, 2, 3, 0, 1, 0]
  {
  }

  lemma FourFoursLeads(ranks: seq<int>)
    requires ranks == [2, 2, 5, 5, 11, 2, 2]
    ensures LeadsAll(ranks, 2, 2)
  {
  }

  lemma FourFoursNext(ranks: seq<int>)
    requires ranks == [2, 2, 5, 5, 11, 2, 2]
    ensures LeadsAll(ranks, 5, 2)
  {
  }

  lemma FourFoursGroups(ranks: seq<int>)
    requires ranks == [2, 2, 5, 5, 11, 2, 2]
    ensures |Groups(ranks)| >= 2 && Groups(ranks)[0] == Group(4, 2)
  {
    assert AllRanks(ranks);
    FourFoursLeads(ranks);
    FourFoursNext(ranks);
    LeadingGroups(ranks, 2, 5);
  }

  lemma FourFoursKicker(ranks: seq<int>)
    requires ranks == [2, 2, 5, 5, 11, 2, 2]
    ensures |Others(ranks, 2)| > 0 && MaxOf(Others(ranks, 2)) == 11
  {
    MaxOthers(ranks, 2, 11);
  }

  lemma FourFoursSuits(suits: seq<int>)
    requires suits == [2, 3, 2, 3, 0, 1, 0]
    ensures NoFlush(suits)
  {
  }

  /** Four fours with two sevens and a king: four of a kind of fours, king kicker. */
  lemma FourFoursHand(hand: seq<int>)
    requires hand == [28, 41, 31, 44, 11, 15, 2]
    ensures EvaluateHand(hand) == HandValue(Quads, [2, 11])
  {
    FourFoursCards(hand);
    FourFoursSuits(SuitsOf(hand));
    Unsuited(hand);
    FourFoursGroups(RanksOf(hand));
    FourFoursKicker(RanksOf(hand));
  }

  lemma FourSevensCards(hand: seq<int>)
    requires hand == [5, 18, 31, 44, 11, 15, 2]
    ensures RanksOf(hand) == [5, 5, 5, 5, 11, 2, 2]
    ensures SuitsOf(hand) == [0, 1, 2, 3, 0, 1, 0]
  {
  }

  lemma FourSevensLeads(ranks: seq<int>)
    requires ranks == [5, 5, 5, 5, 11, 2, 2]
    ensures LeadsAll(ranks, 5, 5)
  {
  }

  lemma FourSevensNext(ranks: seq<int>)
    requires ranks == [5, 5, 5, 5, 11, 2, 2]
    ensures LeadsAll(ranks, 2, 5)
  {
  }

  lemma FourSevensGroups(ranks: seq<int>)
    requires ranks == [5, 5, 5, 5, 11, 2, 2]
    ensures |Groups(ranks)| >= 2 && Groups(ranks)[0] == Group(4, 5)
  {
    assert AllRanks(ranks);
    FourSevensLeads(ranks);
    FourSevensNext(ranks);
    LeadingGroups(ranks, 5, 2);
  }

  lemma FourSevensKicker(ranks: seq<int>)
    requires ranks == [5, 5, 5, 5, 11, 2, 2]
    ensures |Others(ranks, 5)| > 0 && MaxOf(Others(ranks, 5)) == 11
  {
    MaxOthers(ranks, 5, 11);
  }

  lemma FourSevensSuits(suits: seq<int>)
    requires suits == [0, 1, 2, 3, 0, 1, 0]
    ensures NoFlush(suits)
  {
  }

  /** Four sevens with a king and two fours: four of a kind of sevens, king kicker. */
  lemma FourSevensHand(hand: seq<int>)
    requires hand == [5, 18, 31, 44, 11, 15, 2]
    ensures EvaluateHand(hand) == HandValue(Quads, [5, 11])
  {
    FourSevensCards(hand);
    FourSevensSuits(SuitsOf(hand));
    Unsuited(hand);
    FourSevensGroups(RanksOf(hand));
    FourSevensKicker(RanksOf(hand));
  }

  // -------------------------------------------------------------- showdowns

  /** Ace and king of spades against the seven of spades and three of hearts, on the queen to
      eight of spades: the royal flush wins. */
  lemma ShowdownWin(mine: seq<int>, theirs: seq<int>, board: seq<int>)
    requires mine == [51, 50] && theirs == [44, 27] && board == [49, 48, 47, 46, 45]
    ensures EvaluateHands(mine, theirs, board) == 1.0
  {
    assert mine + board == [51, 50, 49, 48, 47, 46, 45];
    assert theirs + board == [44, 27, 49, 48, 47, 46, 45];
    AceHighHand(mine + board);
    QueenHighHand(theirs + board);
  }

  /** Ace of spades and king of diamonds against the same opponent and board: both hands
      play the queen-high straight flush of the board, a draw. */
  lemma ShowdownDraw(mine: seq<int>, theirs: seq<int>, board: seq<int>)
    requires mine == [51, 24] && theirs == [44, 27] && board == [49, 48, 47, 46, 45]
    ensures EvaluateHands(mine, theirs, board) == 0.5
  {
    assert mine + board == [51, 24, 49, 48, 47, 46, 45];
    assert theirs + board == [44, 27, 49, 48, 47, 46, 45];
    BrokenAceHand(mine + board);
    QueenHighHand(theirs + board);
  }

  /** Two fours against two sevens on a board of two sevens, two fours and a king: four
      fours lose to four sevens. */
  lemma ShowdownLoss(mine: seq<int>, theirs: seq<int>, board: seq<int>)
    requires mine == [28, 41] && theirs == [5, 18] && board == [31, 44, 11, 15, 2]
    ensures EvaluateHands(mine, theirs, board) == 0.0
  {
    assert mine + board == [28, 41, 31, 44, 11, 15, 2];
    assert theirs + board == [5, 18, 31, 44, 11, 15, 2];
    FourFoursHand(mine + board);
    FourSevensHand(theirs + board);
  }
}
