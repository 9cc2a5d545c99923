# A Texas hold'em bot: hand evaluator, deck and rollout decision

This project models the core of a small Python poker bot and proves properties of it.

- **The hand evaluator** (`Evaluator.py`) maps seven card ids (0..51, rank `card % 13`,
  suit `card // 13`) to a `(category, tie-break)` pair. The categories run from 0 (high
  card) to 9 (royal flush). The model is a cascade of pure functions with the same
  branches as the code. These are proved about it:
  - it assigns exactly the category that the counts of ranks and suits call for;
  - the tie-break of each category is the rank(s) the ranking rules name;
  - the result does not depend on the order of the cards;
  - the `(category, tie-break)` order is a strict total order.
- **The deck** (`Deck.py`) is a class holding a `seq<int>` of cards. Its constructor
  shuffles an array in place, and its methods cut (`draw`), filter (`remove_cards`) and
  copy the card list. The card formatter `show_card` is proved invertible on 0..51.
- **The bot** (`PokerBot.py`) covers the per-hand statistics class, the showdown
  `evaluate_hands`, and `decide`. `decide` runs rollouts: it samples up to 100 candidate
  opponent hands, picks one by UCB1, deals the rest of the board, records the showdown,
  and finally stays when the average outcome is at least one half. Each of these steps
  is a method proved against its specification. `Decide` returns, as a ghost record,
  the passes it made. Each pass is the first best UCB1 choice on the statistics the
  earlier passes left, then the board dealt from the new deck, then the showdown of the
  two hands on that board. The win rate is the sum of these showdowns per pass, and the
  passes are unique for given random choices.

The wall clock, the random generator and the UCB1 square-root/logarithm term are
parameters of the model. Each rollout's random choices are a `Rollout` value, and the
number of rollouts the time budget allows is the length of a list.

Where the code and its test suite disagree, the model follows the code. For straights,
straight flushes and royal flushes, `evaluate_hand` returns the whole five-rank run as
the tie-break, for example `[12, 11, 10, 9, 8]`. `TestEvaluator.py` expects only the top
rank (`[12]`, `[11]`, `[7]`, `[3]`). `EvaluatorProps.CompactOrder` proves that cutting
every run down to its first rank orders and ties all hands exactly as the full runs do.
The two forms therefore rank hands identically, and the example lemmas state the value
the code returns.

## Model

| member | source | states |
|---|---|---|
| Common.MapSeq | Evaluator.py:36 | a comprehension `[f(x) for x in s]` has one entry per element, the image of the element at the same position |
| Common.FilterSeq | Evaluator.py:109 | a filtering comprehension keeps exactly the elements that pass the test, and no more entries than it was given |
| Common.SetOf | Evaluator.py:49 | `set(s)` holds exactly the elements of s |
| Common.Take | Evaluator.py:98 | the slice `[:n]` is the first n entries, or the whole list when it is shorter |
| Common.SortDesc | Evaluator.py:98 | `sorted(s, reverse=True)`: a descending rearrangement of exactly the elements of s |
| Common.DescUnique | Evaluator.py:98 | two descending lists with the same elements are equal, so the sorted result is determined |
| Common.SortDescPerm | Evaluator.py:98 | sorting gives the same list for any ordering of the same elements |
| Common.TopOf | Evaluator.py:98 | `sorted(s, reverse=True)[:n]` lists, highest first, n of the largest elements of s (fewer if s is shorter) |
| Common.MaxOf | Evaluator.py:81 | `max(...)` of a non-empty list is one of its elements and at least every element |
| Common.MaxOfPerm | Evaluator.py:116 | the maximum does not depend on the order of the list |
| Common.Pick | Deck.py:49-51 | `random.sample` by chosen positions: the sample has one element per pick, each drawn from the list, and no repeats when the list and the picks have none |
| Common.Without | Deck.py:40-41 | the list comprehension keeps exactly the elements not in the removal set |
| Common.WithoutAppend | Deck.py:41 | removal keeps the survivors in their original order |
| Common.WithoutLength | Deck.py:37-41 | removing k present cards from a list without repeats shortens it by exactly k and leaves no repeats |
| Common.DistinctCard | Deck.py:40 | a list without repeats has as many members as entries |
| Evaluator.Rank | Evaluator.py:18-20 | every card's rank lies in 0..12 |
| Evaluator.Suit | Evaluator.py:22-24 | the suit lies in 0..3 exactly for card ids 0..51, and card = 13·suit + rank |
| Evaluator.CardOfRankSuit | Evaluator.py:17-24 | each rank 0..12 and suit 0..3 belong to exactly one card id in 0..51 |
| Evaluator.RanksOf | Evaluator.py:36 | one rank per card, each in 0..12 |
| Evaluator.SuitsOf | Evaluator.py:37 | one suit per card |
| Evaluator.SuitsAndRanks | Evaluator.py:36-37 | a card's suit and rank give the card back as 13 * suit + rank, and the suit lies in 0..3 exactly for the ids 0..51 |
| Evaluator.StraightFrom | Evaluator.py:52-60 | the search from `high` down finds a run whose ranks are all present and no run above it; it finds the wheel only when no higher run is present, and whenever the wheel's ranks are present |
| Evaluator.GetStraight | Evaluator.py:47-61 | `get_straight` returns a run exactly when some run is present, and that run is the highest present; the wheel `[3, 2, 1, 0, 12]` is returned only when no other run is present |
| Evaluator.Groups | Evaluator.py:40-41 | `rank_sorted`: each entry pairs a present rank with its count, and the entries are strictly descending on (count, rank) |
| Evaluator.GroupsComplete | Evaluator.py:40-41 | every rank of the hand has an entry in `rank_sorted` |
| Evaluator.GroupsShape | Evaluator.py:79-88 | for seven cards `rank_sorted[0]` exists, and `rank_sorted[1]` exists unless one rank fills the hand |
| Evaluator.SingleGroup | Evaluator.py:40-41 | a single entry counts every card |
| Evaluator.FirstPair | Evaluator.py:87-91 | the pair search returns the first entry with count ≥ 2, or none when every entry has count < 2 |
| Evaluator.FirstWithCount | Evaluator.py:65 | `next(... if count >= 5)` returns the first key, in the Counter's order, whose count reaches the bound: it reaches it and no earlier key does; none when no key's count does |
| Evaluator.FlushSuit | Evaluator.py:65 | `flush_suit` is a suit held at least five times, or none when no suit is |
| Evaluator.SuitedRanks | Evaluator.py:70-71 | the ranks of the cards of the flush suit (also the list at Evaluator.py:97), each in 0..12 |
| Evaluator.SuitedMembers | Evaluator.py:97 | a rank is among the suited ranks exactly when some card of the hand has that suit and that rank |
| Evaluator.Others | Evaluator.py:109 | the comprehension keeps exactly the ranks different from x |
| Evaluator.Others2 | Evaluator.py:116 | the comprehension keeps exactly the ranks different from both pairs |
| Evaluator.SuitedLength | Evaluator.py:97 | the flush suit's rank list has one entry per card of that suit |
| Evaluator.OthersLength | Evaluator.py:109 | removing rank x removes exactly its copies |
| Evaluator.Others2Length | Evaluator.py:116 | removing two different ranks removes exactly their copies |
| Evaluator.SortedMembers | Evaluator.py:109 | every kicker taken from the sorted list is a rank of the hand |
| Evaluator.StraightFlushValue | Evaluator.py:73-76 | a run from the flush suit gives category 9 or 8 with a well-formed tie-break |
| Evaluator.QuadsValue | Evaluator.py:79-82 | four of a kind gives category 7 with two ranks as tie-break |
| Evaluator.FullHouseValue | Evaluator.py:92-93 | a full house gives category 6 with two ranks as tie-break |
| Evaluator.FlushValue | Evaluator.py:96-99 | a flush gives category 5 with five ranks as tie-break |
| Evaluator.StraightValue | Evaluator.py:102-104 | a straight gives category 4 with the run as tie-break |
| Evaluator.TripsValue | Evaluator.py:107-110 | three of a kind gives category 3 with three ranks as tie-break |
| Evaluator.SortTwo | Evaluator.py:117 | sorting two ranks descending puts the larger first |
| Evaluator.TwoPairValue | Evaluator.py:113-117 | two pair gives category 2 with three ranks as tie-break |
| Evaluator.PairValue | Evaluator.py:120-123 | one pair gives category 1 with four ranks as tie-break |
| Evaluator.HighCardValue | Evaluator.py:125 | high card gives category 0 with five ranks as tie-break |
| Evaluator.EvaluateHand | Evaluator.py:28-125 | every seven-card hand gets a category in 0..9 and a tie-break of ranks 0..12 of that category's length |
| Evaluator.GroupCategories | Evaluator.py:78-93 | below the straight flushes the result is at most four of a kind |
| Evaluator.FirstPairIsRank | Evaluator.py:88-91 | the pair found is a rank in 0..12 |
| Evaluator.FullHouseShape | Evaluator.py:84-91 | after a head of three in seven cards, `rank_sorted[1:]` is non-empty |
| Evaluator.FlushOrStraight | Evaluator.py:95-104 | from the flush test on, the result is at most a flush |
| Evaluator.LowerCategories | Evaluator.py:106-125 | from the three-of-a-kind test on, the result is at most three of a kind |
| EvaluatorProps.StraightFlushIff | Evaluator.py:68-76 | categories 8 and 9 occur exactly when the flush suit's ranks hold a run, and the tie-break is that run |
| EvaluatorProps.AceHighRun | Evaluator.py:52-55 | the ace-high run is found exactly when ten to ace are all present |
| EvaluatorProps.RoyalFlushIff | Evaluator.py:74-75 | category 9 occurs exactly when the flush suit holds ten, jack, queen, king and ace |
| EvaluatorProps.TopGroupIsLargest | Evaluator.py:40-41 | no rank occurs more often than `rank_sorted[0]`'s, and among ranks with that count it is the highest |
| EvaluatorProps.BelowStraightFlush | Evaluator.py:78-93 | without a straight flush the result is decided by `rank_sorted` and the flush suit |
| EvaluatorProps.GroupQuads | Evaluator.py:79-82 | category 7 arises only from a head entry of count 4 |
| EvaluatorProps.QuadsTiebreak | Evaluator.py:78-82 | four of a kind: the tie-break is the rank held four times, then the highest other rank |
| EvaluatorProps.QuadsKicker | Evaluator.py:81 | the kicker is the largest rank other than the quad rank |
| EvaluatorProps.QuadsWhen | Evaluator.py:79-82 | without a straight flush, a rank held four times always gives four of a kind led by that rank |
| EvaluatorProps.GroupFullHouse | Evaluator.py:84-93 | category 6 arises only from a head of three followed by a found pair |
| EvaluatorProps.FirstPairAt | Evaluator.py:88-91 | the pair search stops at the first later entry of count ≥ 2 |
| EvaluatorProps.FullHouseParts | Evaluator.py:84-93 | the full house takes the highest rank held three times and the highest other rank held at least twice |
| EvaluatorProps.PairIsHighest | Evaluator.py:88-91 | no rank other than the three of a kind and held twice lies above the pair found |
| EvaluatorProps.FullHouseTiebreak | Evaluator.py:84-93 | full house: the tie-break is the highest three of a kind, then the highest other rank held at least twice |
| EvaluatorProps.GroupRest | Evaluator.py:84-95 | below the full house the cascade continues with the flush test: no rank is held four times, and a head of three has no pair behind it |
| EvaluatorProps.BelowFullHouse | Evaluator.py:95-125 | a result of flush or lower comes from the flush/straight/lower cascade, with no four of a kind and no full house |
| EvaluatorProps.FlushBranch | Evaluator.py:96-99 | category 5 arises only from a flush suit with at least five cards |
| EvaluatorProps.FlushKicker | Evaluator.py:98 | the flush tie-break is five of the suit's highest ranks, highest first |
| EvaluatorProps.FlushTiebreak | Evaluator.py:95-99 | flush: a suit is held at least five times, and the tie-break is that suit's five highest ranks |
| EvaluatorProps.StraightTiebreak | Evaluator.py:101-104 | straight: no suit is held five times, and the tie-break is the highest run among all seven ranks |
| EvaluatorProps.BelowStraight | Evaluator.py:106-125 | a result of three of a kind or lower is decided by the ranks alone, with no four of a kind and no full house |
| EvaluatorProps.SecondGroupIsLargest | Evaluator.py:113-115 | no rank other than the head's occurs more often than `rank_sorted[1]`'s, and among ranks with that count it is the highest |
| EvaluatorProps.OthersSingle | Evaluator.py:106-110 | when no later entry has count ≥ 2, every rank other than the head's occurs once |
| EvaluatorProps.TripsAlone | Evaluator.py:106-110 | after a head of three with no pair behind it, every other rank occurs once |
| EvaluatorProps.AllSingle | Evaluator.py:125 | a head count of one means every rank occurs once |
| EvaluatorProps.TripsBranch | Evaluator.py:107-110 | category 3 arises only from a head entry of count 3 |
| EvaluatorProps.TripsKicker | Evaluator.py:109-110 | the kickers are the two highest other ranks, highest first |
| EvaluatorProps.TripsTiebreak | Evaluator.py:106-110 | three of a kind: one rank is held three times and every other once; the tie-break is that rank, then the two highest others |
| EvaluatorProps.TwoPairBranch | Evaluator.py:113-117 | category 2 arises only from two leading entries of count 2 |
| EvaluatorProps.TwoPairKicker | Evaluator.py:116-117 | the tie-break is the higher pair, the lower pair, then the highest remaining rank |
| EvaluatorProps.TwoPairTiebreak | Evaluator.py:112-117 | two pair: the two highest ranks held twice, highest first, then the highest remaining rank; no rank is held more than twice |
| EvaluatorProps.PairBranch | Evaluator.py:120-123 | category 1 arises only from one leading entry of count 2 with no second pair |
| EvaluatorProps.PairKicker | Evaluator.py:122-123 | the kickers are the three highest other ranks, highest first |
| EvaluatorProps.PairTiebreak | Evaluator.py:119-123 | one pair: one rank is held twice and every other once; the tie-break is that rank, then the three highest others |
| EvaluatorProps.HighCardBranch | Evaluator.py:125 | category 0 arises only when the head entry is neither a pair nor three of a kind |
| EvaluatorProps.HighCardTiebreak | Evaluator.py:125 | high card: the tie-break is the five highest ranks, and every rank occurs once when none occurs more than four times |
| EvaluatorProps.RanksPerm | Evaluator.py:36-37 | reordering the cards reorders the ranks and suits |
| EvaluatorProps.SetOfPerm | Evaluator.py:49 | `set(...)` does not depend on the order of the list |
| EvaluatorProps.FlushSuitPerm | Evaluator.py:65 | the flush suit does not depend on the order of the cards |
| EvaluatorProps.SuitedPerm | Evaluator.py:70-71 | the flush suit's ranks are the same multiset for any order of the cards |
| EvaluatorProps.OthersPerm | Evaluator.py:109 | the sorted kickers do not depend on the order of the ranks |
| EvaluatorProps.AllRanksPerm | Evaluator.py:36 | a reordering of valid ranks is valid ranks of the same length |
| EvaluatorProps.TwoPairPerm | Evaluator.py:113-117 | the two-pair value does not depend on the order of the ranks |
| EvaluatorProps.LowerPerm | Evaluator.py:106-125 | the lower cascade does not depend on the order of the ranks |
| EvaluatorProps.FlushOrStraightPerm | Evaluator.py:95-125 | the flush/straight cascade does not depend on the order of the cards |
| EvaluatorProps.GroupCategoriesPerm | Evaluator.py:78-125 | the cascade below the straight flushes does not depend on the order of the cards |
| EvaluatorProps.EvaluateHandPerm | Evaluator.py:28-125 | `evaluate_hand` depends only on which cards are held, not on their order |
| Evaluator.LexLess | PokerBot.py:39-41 | Python's list `<`: a is less than b exactly when, at the first position where they differ, a's entry is smaller, or a is a proper prefix of b |
| Evaluator.ValueLess | PokerBot.py:39-41 | Python's tuple `<` on (category, tie-break) is list `<` on the category followed by the tie-break |
| EvaluatorProps.LexIrreflexive | PokerBot.py:39-41 | no tie-break list is less than itself |
| EvaluatorProps.LexTransitive | PokerBot.py:39-41 | list comparison is transitive |
| EvaluatorProps.LexTrichotomy | PokerBot.py:39-44 | two lists are equal exactly when neither is less, and never each less than the other |
| EvaluatorProps.ValueTrichotomy | PokerBot.py:39-44 | exactly one of win, loss or draw holds between two evaluated hands |
| EvaluatorProps.ValueTransitive | PokerBot.py:39-41 | beating is transitive across three hands |
| EvaluatorProps.RunOrder | Evaluator.py:52-59 | two runs compare as their first ranks do, and a run is fixed by its first rank |
| EvaluatorProps.Compact | Evaluator.py:74-76 | the `[high]` form keeps the category and cuts only a run tie-break down to its first rank |
| EvaluatorProps.RunCategories | Evaluator.py:68-104 | straights, straight flushes and royal flushes carry a run as tie-break |
| EvaluatorProps.CompactValues | Evaluator.py:74-104 | on results with run tie-breaks, the `[high]` form preserves both the order and equality |
| EvaluatorProps.CompactOrder | Evaluator.py:74-104 | for all hands, the `[high]` form of straights orders and ties results exactly as the full runs the code returns |
| EvaluatorCategory.MaxCountIn | Evaluator.py:41 | the largest count among the keys is reached by one of them |
| EvaluatorCategory.TopCount | Evaluator.py:79 | the largest number of times any rank occurs, and it is reached |
| EvaluatorCategory.FlushSuitExact | Evaluator.py:65 | `flush_suit` is s exactly when suit s is held at least five times |
| EvaluatorCategory.FlushSuitSome | Evaluator.py:65 | a flush suit is found exactly when some suit is held five times |
| EvaluatorCategory.GetStraightSome | Evaluator.py:47-61 | `get_straight` succeeds exactly when five consecutive ranks or ace-to-five are present |
| EvaluatorCategory.GroupsTopCount | Evaluator.py:79 | `rank_sorted[0][0]` is the largest rank count |
| EvaluatorCategory.GroupsDistinctRanks | Evaluator.py:40-41 | different entries of `rank_sorted` have different ranks |
| EvaluatorCategory.FullHouseSearch | Evaluator.py:84-92 | behind a head of three, the pair search succeeds exactly when some rank is held three times and another at least twice |
| EvaluatorCategory.TwoPairSearch | Evaluator.py:113 | with a top count of two, the second entry has count two exactly when two ranks are pairs |
| EvaluatorCategory.LowerCategoriesMatch | Evaluator.py:106-125 | the lower cascade gives trips, two pair, pair or high card exactly as the top count and the number of pairs call for |
| EvaluatorCategory.FlushOrStraightMatch | Evaluator.py:95-125 | the flush test, the straight test and the lower cascade decide as the suit and rank counts do |
| EvaluatorCategory.GroupCategoriesMatch | Evaluator.py:78-125 | below the straight flushes, the category is the one the rank and suit counts call for |
| EvaluatorCategory.DescendingUnique | Evaluator.py:41 | two strictly descending (count, rank) lists with the same entries are equal |
| EvaluatorCategory.GroupsExact | Evaluator.py:40-41 | `rank_sorted` is the one strictly descending list of the hand's (count, rank) pairs |
| EvaluatorCategory.OnlyFlushSuit | Evaluator.py:65 | seven cards hold at most one suit five times |
| EvaluatorCategory.CategoryOfFlush | Evaluator.py:68-76 | with suit s held five times, the reference category looks for straight flushes in s |
| EvaluatorCategory.CategoryMatches | Evaluator.py:28-125 | `evaluate_hand` gives every seven cards exactly the category the ranking rules assign from the counts of ranks and suits |
| EvaluatorExamples.Unsuited | Evaluator.py:65 | without five cards of one suit there is no flush suit |
| EvaluatorExamples.PastFullHouse | Evaluator.py:68-95 | with no straight flush, no four of a kind and no full house, the cascade reaches the flush test |
| EvaluatorExamples.FullHouseCascade | Evaluator.py:84-93 | no flush, a head of three and a found pair give a full house of those two ranks |
| EvaluatorExamples.FlushCascade | Evaluator.py:95-99 | a flush suit with no run in it, and no rank held three or more times, gives a flush of the suit's five highest ranks |
| EvaluatorExamples.PastStraight | Evaluator.py:101-106 | with no flush and no straight, the ranks alone decide |
| EvaluatorExamples.NoLaterPair | Evaluator.py:88-92 | when all later entries are single cards, the pair search finds nothing |
| EvaluatorExamples.TripsCascade | Evaluator.py:106-110 | the trips value is the three of a kind, then the two sorted kickers |
| EvaluatorExamples.TwoPairCascade | Evaluator.py:112-117 | the two-pair value is the two pairs, highest first, then the largest other rank |
| EvaluatorExamples.PairCascade | Evaluator.py:119-123 | the pair value is the pair, then the three sorted kickers |
| EvaluatorExamples.HighCardCascade | Evaluator.py:125 | the high-card value is the five highest ranks |
| EvaluatorExamples.LeadingGroups | Evaluator.py:40-41 | the first two entries of `rank_sorted` are read off the counts |
| EvaluatorExamples.OthersAfter | Evaluator.py:109 | removing rank x from cards where x comes first leaves the rest in order |
| EvaluatorExamples.Others2After | Evaluator.py:116 | the same for two ranks |
| EvaluatorExamples.SameStraight | Evaluator.py:49 | the straight search depends only on which ranks are present |
| EvaluatorExamples.NoStraight | Evaluator.py:52-61 | without five consecutive ranks and without ace-to-five there is no straight |
| EvaluatorExamples.RunBroken | Evaluator.py:53-54 | a run from h needs all five of its ranks |
| EvaluatorExamples.TopStraight | Evaluator.py:52-55 | five consecutive ranks from `high` down, with no run above, are the straight found |
| EvaluatorExamples.DistinctCount | Evaluator.py:40 | a list without repeats counts each of its members once |
| EvaluatorExamples.SortedDistinct | Evaluator.py:98 | sorting a list without repeats gives the descending list of the same members |
| EvaluatorExamples.SortedIs | Evaluator.py:98 | `sorted(s, reverse=True)` is the descending list with the same elements |
| EvaluatorExamples.RoyalExample | TestEvaluator.py:15-17 | ten to ace of spades with two strays: category 9, tie-break `[12, 11, 10, 9, 8]` |
| EvaluatorExamples.StraightFlushExample | TestEvaluator.py:19-21 | nine to king of diamonds: category 8, tie-break `[11, 10, 9, 8, 7]` |
| EvaluatorExamples.QuadsExample | TestEvaluator.py:23-25 | four nines with a king: `(7, [7, 11])` |
| EvaluatorExamples.FullHouseExample | TestEvaluator.py:27-29 | tens full of threes: `(6, [8, 1])` |
| EvaluatorExamples.FlushExample | TestEvaluator.py:31-33 | a spade flush: `(5, [10, 9, 5, 3, 0])` |
| EvaluatorExamples.StraightExample | TestEvaluator.py:35-37 | five to nine: category 4, tie-break `[7, 6, 5, 4, 3]` |
| EvaluatorExamples.WheelExample | TestEvaluator.py:39-41 | ace to five: category 4, tie-break `[3, 2, 1, 0, 12]`, led by the five |
| EvaluatorExamples.TripsExample | TestEvaluator.py:43-45 | three jacks: `(3, [9, 7, 3])` |
| EvaluatorExamples.TwoPairExample | TestEvaluator.py:47-49 | queens and eights with a king: `(2, [10, 6, 11])` |
| EvaluatorExamples.PairExample | TestEvaluator.py:51-53 | kings with jack, nine, seven: `(1, [11, 9, 7, 5])` |
| EvaluatorExamples.HighCardExample | TestEvaluator.py:55-57 | queen high: `(0, [10, 9, 7, 6, 3])` |
| Decks.PyIndex | Deck.py:15 | a list index in -n..n-1 picks position i, or i + n when negative |
| Decks.ShowCard | Deck.py:11-15 | `show_card` is a rank symbol followed by a suit symbol for ids -52..51, and raises `IndexError` (None) exactly for every other id |
| Decks.ShowNegativeCard | Deck.py:15 | a negative id shows as the id 52 higher, since Python indexes the suit list from its end |
| Decks.ShowHand | Deck.py:18-20 | `show_hand` shows each card in order, and raises `IndexError` (None) exactly when some card lies outside -52..51 |
| Decks.IndexOf | Deck.py:13-14 | the first position of a symbol in the symbol list |
| Decks.ParseCard | Deck.py:11-15 | reading two symbols back gives a card id in 0..51 |
| Decks.IndexOfDistinct | Deck.py:13-14 | in a list without repeats a symbol is found at its own position |
| Decks.ParseShowCard | Deck.py:11-15 | reading back a shown card gives that card, for every id 0..51 |
| Decks.ShowParseCard | Deck.py:11-15 | every string that reads as a card is that card's shown form |
| Decks.ShowCardExamples | TestDeck.py:42-47 | cards 0, 12, 13 and 51 show as 2♣, A♣, 2♦ and A♠ |
| Decks.ShowRedAces | TestDeck.py:50-51 | cards 25 and 38 show as A♦ and A♥ |
| Decks.ShowHandExample | TestDeck.py:49-52 | `[0, 12, 25, 38, 51]` shows as the deuce of clubs and the four aces |
| Decks.ShowHandInjective | Deck.py:18-20 | different lists of cards 0..51 show differently |
| Decks.Iota | Deck.py:27 | `list(range(n))` holds i at position i |
| Decks.IotaMembers | Deck.py:27 | `list(range(n))` holds exactly 0..n-1 |
| Decks.Swap | Deck.py:28 | one shuffle step exchanges two positions, keeping the same elements |
| Decks.ShuffleFrom | Deck.py:28 | the shuffle's swap steps keep the length |
| Decks.ShufflePerm | Deck.py:28 | shuffling only reorders |
| Decks.Shuffle | Deck.py:28 | the in-place shuffle leaves the array as the swap steps prescribe |
| Decks.IotaOnce | Deck.py:27 | `range(n)` holds each of 0..n-1 once and nothing else |
| Decks.FullDeckFacts | TestDeck.py:6-11 | a full deck has 52 cards, none repeated, exactly 0..51 |
| Decks.SliceIndex | Deck.py:33-34 | a Python slice bound, negative counting from the end, clamped to the list |
| Decks.Deck.constructor | Deck.py:25-28 | a new deck is the shuffled 0..51: every card once |
| Decks.Deck.Draw | Deck.py:30-35 | the drawn cards and what is left are the old deck, split at the slice bound; drawn cards are gone from a deck without repeats |
| Decks.Deck.RemoveCards | Deck.py:37-41 | keeps, in order, exactly the cards not listed; removing k present cards from a deck without repeats leaves k fewer |
| Decks.Deck.Copy | Deck.py:43-47 | a fresh deck with the same cards |
| Decks.Deck.Sample | Deck.py:49-51 | n cards of the deck at distinct positions, none repeated if the deck has no repeats; an error when n is negative or above the deck size |
| Decks.CopyThenDraw | TestDeck.py:28-33 | drawing from a deck after copying it leaves the copy as the deck was |
| PokerBot.GameStateStat.constructor | PokerBot.py:10-12 | a new stat has no wins and no visits |
| PokerBot.GameStateStat.Update | PokerBot.py:14-17 | one more visit and `result` more wins; wins stay within 0..visits for outcomes 0, 0.5, 1 |
| PokerBot.GameStateStat.WinRate | PokerBot.py:19-21 | wins per visit, 0 before any visit, and within 0..1 for a valid stat |
| PokerBot.GameStateStat.Ucb1 | PokerBot.py:23-27 | plus infinity exactly when unvisited; otherwise the win rate plus the exploration term |
| PokerBot.EvaluateHands | PokerBot.py:34-44 | 1 exactly when the own hand's value is higher, 0 exactly when lower, 0.5 exactly when equal |
| PokerBot.EvaluateHandsSwap | PokerBot.py:34-44 | swapping the two players turns a win into a loss and keeps a draw |
| PokerBot.WithoutAscending | PokerBot.py:57 | filtering an ascending list keeps it ascending |
| PokerBot.Remaining | PokerBot.py:55-57 | the unseen cards are exactly the ids 0..51 not known, in ascending order |
| PokerBot.PairsWith | PokerBot.py:58 | the pairs of x with each element of ys, one per element |
| PokerBot.Pairs | PokerBot.py:58 | `combinations(xs, 2)` holds exactly the pairs (xs[i], xs[j]) of positions i < j |
| PokerBot.PairsCount | PokerBot.py:58 | `combinations(xs, 2)` has n(n-1)/2 pairs |
| PokerBot.PairsAscending | PokerBot.py:58 | on an ascending list the pairs are exactly the two-element subsets, smaller first |
| PokerBot.SortPair | PokerBot.py:69 | `tuple(sorted(hand))` orders the two cards of the hand |
| PokerBot.CandidatesExact | PokerBot.py:55-58 | the candidate opponent hands are exactly the pairs of different unseen cards, smaller first |
| PokerBot.CandidatesCount | PokerBot.py:58 | n unseen cards give n(n-1)/2 candidates |
| PokerBot.ScoreLess | PokerBot.py:72 | float `>` with infinities: nothing is below minus infinity or above plus infinity, minus infinity is below every other score and plus infinity above every other, finite scores compare as reals |
| PokerBot.ScoreOf | PokerBot.py:70-71 | read off the snapshot of `node_stats`: an unvisited or unknown hand scores plus infinity, a visited one a finite score |
| PokerBot.SampleScores | PokerBot.py:68-71 | one score per sampled hand, computed on its sorted key |
| PokerBot.ScoreKey | PokerBot.py:70-71 | `node_stats.get(key, GameStateStat()).ucb1(n)` is the score the snapshot of the stats gives the key |
| PokerBot.SelectCandidate | PokerBot.py:63-77 | no choice exactly when the sample is empty; otherwise the first sampled hand whose score beats all before it and is not beaten after it |
| PokerBot.FirstBestUnique | PokerBot.py:72-74 | the scan's choice is determined by the scores |
| PokerBot.FirstUnvisitedChosen | PokerBot.py:25-26 | the first unvisited hand in the sample is chosen over every visited one |
| PokerBot.VisitedBestChosen | PokerBot.py:72-74 | with every sampled hand visited, the chosen one has the highest score and the first such |
| PokerBot.SimulateBoard | PokerBot.py:80-85 | the completed board is the revealed cards followed by the sampled positions of the new shuffled deck without the known cards; it is five distinct cards, none held by either player |
| PokerBot.SumWins | PokerBot.py:97 | the sum of the listed stats' wins is never negative when no stat's wins are |
| PokerBot.SumsBounded | PokerBot.py:97 | the total wins lie between 0 and the total visits |
| PokerBot.SumsOther | PokerBot.py:93 | updating another key's stat leaves the totals alone |
| PokerBot.SumsBump | PokerBot.py:93 | one update of a listed key adds one visit and the outcome to the totals |
| PokerBot.SumsAppend | PokerBot.py:92 | adding a key adds its stat to the totals |
| PokerBot.RecordedEntries | PokerBot.py:91-93 | after `node_stats[choose].update(...)` (with a fresh stat for a new key) the keys are the old ones plus the chosen hand, its stat has one more visit and the outcome more wins, every other stat is unchanged, and the key order keeps the old keys and puts a new one last |
| PokerBot.RecordSums | PokerBot.py:91-94 | recording a rollout adds one visit and the outcome to the totals and keeps each key once |
| PokerBot.RecordedBounds | PokerBot.py:91-94 | after recording, every stat has been visited and holds wins within 0..visits |
| PokerBot.RecordedLedger | PokerBot.py:91-94 | recording a rollout keeps every key listed once in insertion order and every stat visited with wins within 0..visits |
| PokerBot.StatFor | PokerBot.py:70 | the stored stat for a key, or a new empty one |
| PokerBot.RecordOutcome | PokerBot.py:91-94 | a new key gets a fresh stat, then the chosen hand's stat is updated, and the other stats stay as they were |
| PokerBot.TotalWins | PokerBot.py:97 | the sum of all stats' wins, between 0 and the total visits |
| PokerBot.AverageRate | PokerBot.py:98 | wins per completed rollout, 0 when none, within 0..1 |
| PokerBot.RunRollout | PokerBot.py:63-94 | one pass: with no candidates nothing changes (the `continue`); otherwise the chosen key is the first best UCB1 score of the sample, the board is dealt from the new deck, the outcome is the showdown of the own hand against that key, and exactly that key's stat gains one visit and the outcome |
| PokerBot.PassOf | PokerBot.py:63-93 | one completed pass: the first best UCB1 score of the sample on the stats before it, the board dealt from a fresh deck without the known cards, and the showdown outcome; it lies at a sample position, names a sorted hand, and records 0, 0.5 or 1 |
| PokerBot.SumOutcomes | PokerBot.py:97 | the passes' outcomes added up lie between 0 and the number of passes when each outcome is 0, 0.5 or 1 |
| PokerBot.PassUnique | PokerBot.py:63-94 | a pass is determined by its random choices and the stats it starts from |
| PokerBot.ReplaySums | PokerBot.py:91-97 | after the passes every key is listed once, the visits add up to the passes and the wins to the sum of their showdown outcomes |
| PokerBot.Played | PokerBot.py:61-94 | the loop's passes: one per rollout when there are candidates, none otherwise, each a PassOf on the stats the earlier passes left; every recorded outcome is 0, 0.5 or 1 |
| PokerBot.PlayedUnique | PokerBot.py:61-94 | the passes of the loop are determined by the hands, the random choices and the exploration term |
| PokerBot.SimulatePass | PokerBot.py:61-95 | one pass of the loop appends its showdown pass to the record, or skips when there are no candidates |
| PokerBot.Simulate | PokerBot.py:61-94 | after the loop `node_stats` is the replay of the passes, one pass per rollout when there are candidates, each chosen, dealt and scored on the stats the earlier passes left; `total_simulations` is the number of rollouts when there are candidates and 0 otherwise |
| PokerBot.HalfRate | PokerBot.py:98-102 | the win rate reaches one half exactly when twice the wins reach the completed rollouts |
| PokerBot.Decide | PokerBot.py:46-102 | the passes are the loop's passes; the win rate is the sum of their showdown outcomes per pass (0 when none), within 0..1; stay exactly when it is at least one half, that is when twice the outcomes reach the passes |
| PokerBotExamples.MaxOthers | Evaluator.py:81 | a rank at least every other rank is the kicker once x is removed |
| PokerBotExamples.FirstHoleSuited | Evaluator.py:70 | the suited cards are the first hole card and an all-suited board |
| PokerBotExamples.AceHighHand | TestPokerBot.py:17-18 | ace to eight of spades is a royal flush `[12, 11, 10, 9, 8]` |
| PokerBotExamples.QueenHighHand | TestPokerBot.py:18-19 | the seven of spades with queen to eight of spades is a queen-high straight flush |
| PokerBotExamples.BrokenAceHand | TestPokerBot.py:9-10 | ace of spades and king of diamonds with queen to eight of spades is a queen-high straight flush |
| PokerBotExamples.FourFoursHand | TestPokerBot.py:25-26 | four fours with a king kicker: `(7, [2, 11])` |
| PokerBotExamples.FourSevensHand | TestPokerBot.py:26-27 | four sevens with a king kicker: `(7, [5, 11])` |
| PokerBotExamples.ShowdownWin | TestPokerBot.py:15-21 | royal flush against straight flush: the showdown is 1 |
| PokerBotExamples.ShowdownDraw | TestPokerBot.py:7-13 | the same straight flush for both: the showdown is 0.5 |
| PokerBotExamples.ShowdownLoss | TestPokerBot.py:23-29 | four fours against four sevens: the showdown is 0 |

## Left out

- The wall clock of `decide` (PokerBot.py:50, 61): the loop runs once per element of the `rollouts` list, which stands for the passes the ten-second budget allows.
- `random.shuffle`, `random.sample` and `deck.sample`: their random choices are parameters, namely swap positions and sampled positions, constrained to the values the generator can produce.
- `print` in `decide` (PokerBot.py:100): `Decide` returns the printed win rate instead.
- `PokerBot.__init__` (PokerBot.py:31-32) only sets the ten-second limit, which the `rollouts` list replaces.
- PokerBot.GameStateStat.Ucb1: the exploration term `sqrt(2) * sqrt(log(total) / visits)` is the function parameter `bonus`, because the model has no real square root or logarithm. The contract therefore says only that a visited stat's score exceeds its win rate by `bonus(total, visits)`.
- PokerBot.Decide: wins and rates are exact reals. Python adds and divides floats, which is exact for the sums of halves but rounds the final division.
- PokerBot.Decide: the model does not cover the game driver that calls `decide` round by round and folds (`Main.py`, `main.py`). That driver is why the bot's test suite reaches a showdown only when the random rollouts let the bot stay. `PokerBotExamples` states the showdown values alone.
- Evaluator.EvaluateHand: like the code, it asks only for seven card ids. Repeated or out-of-range ids are evaluated as the code evaluates them, and no error is modelled for them.
- Decks.ParseCard: the test helper that reads card strings (TestEvaluator.py:5-10) is not modelled, because its suit symbols are garbled in the file. `ParseCard` reads the symbols `show_card` writes, so the evaluator examples give card ids directly.
- Deck.draw's default `n = 1` is not modelled separately: `Draw` takes `n` explicitly.
- The unit-test harness itself (`unittest`) is not modelled. The expected values of `TestEvaluator.py` are the `EvaluatorExamples` lemmas, except that for the four run hands (`TestEvaluator.py:17, 21, 37, 41`) the lemmas state the code's full run rather than the expected `[high]`, as explained above. The `show_card` and `show_hand` values of `TestDeck.py` are lemmas. Its deck checks follow from the contracts of the `Deck` methods, `FullDeckFacts` and `CopyThenDraw`. `TestPokerBot.py` asserts results of `simulate_game` from the game driver, which is not modelled (see the `PokerBot.Decide` line above). Only the showdown values behind those results are lemmas.
