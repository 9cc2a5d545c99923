// Deck.py: the card formatter and the deck, a list of card ids that is shuffled when
// created and then cut, filtered, copied and sampled. The random choices of
// `random.shuffle` and `random.sample` are parameters.
module Decks {
  import opened Common

  const NumCards := 52

  /** The rank symbols, deuce to ace. */
  const RankSymbols: string := "23456789TJQKA"

  /** The suit symbols: clubs, diamonds, hearts, spades. */
  const SuitSymbols: string := "\U{2663}\U{2666}\U{2665}\U{2660}"

  // ------------------------------------------------------------- show_card

  /** Python's `xs[i]` for a list of length n accepts -n <= i < n, counting negative
      indexes from the end. */
  function PyIndex(i: int, n: nat): (k: nat)
    requires -(n as int) <= i < n
    ensures k < n
    ensures i >= 0 ==> k == i
    ensures i < 0 ==> k == i + n
  {
    if i < 0 then i + n else i
  }

  /** `show_card`: the rank symbol at `card % 13` and the suit symbol at `card // 13`. The
      suit list has four entries, so Python raises `IndexError` (None here) unless the card
      lies in -52..51; negative ids index the list from its end. */
  function ShowCard(card: int): (s: Option<string>)
    ensures s.Some? <==> -NumCards <= card < NumCards
    ensures s.Some? ==> |s.value| == 2 && s.value[0] in RankSymbols && s.value[1] in SuitSymbols
  {
    if -NumCards <= card < NumCards then
      Some([RankSymbols[card % 13], SuitSymbols[PyIndex(card / 13, 4)]])
    else None
  }

  /** A negative id shows as the id 52 higher, since both index the suit list at the same
      entry. */
  lemma ShowNegativeCard(card: int)
    requires 0 <= card < NumCards
    ensures ShowCard(card - NumCards) == ShowCard(card)
  {
    assert (card - NumCards) / 13 == card / 13 - 4;
  }

  /** `show_hand`: `show_card` of every card, in order; the first card out of range raises
      `IndexError` (None here). */
  function ShowHand(hand: seq<int>): (r: Option<seq<string>>)
    ensures r.Some? <==> forall i :: 0 <= i < |hand| ==> -NumCards <= hand[i] < NumCards
    ensures r.Some? ==> |r.value| == |hand| && forall i :: 0 <= i < |hand| ==> Some(r.value[i]) == ShowCard(hand[i])
  {
    if hand == [] then Some([])
    else
      var first, rest := ShowCard(hand[0]), ShowHand(hand[1..]);
      if first.None? || rest.None? then None
      else
        assert forall i :: 1 <= i < |hand| ==> hand[i] == hand[1..][i - 1];
        Some([first.value] + rest.value)
  }

  /** The position of `c` in `s`. */
  function IndexOf(s: string, c: char): (i: nat)
    requires c in s
    ensures i < |s| && s[i] == c
    ensures forall j :: 0 <= j < i ==> s[j] != c
  {
    if s[0] == c then 0 else 1 + IndexOf(s[1..], c)
  }

  /** Reading a card back: `13 * suit + rank` from the two symbols, the inverse of
      `show_card` on the card ids 0..51. */
  function ParseCard(s: string): (r: Option<int>)
    ensures r.Some? ==> 0 <= r.value < NumCards
  {
    if |s| == 2 && s[0] in RankSymbols && s[1] in SuitSymbols then
      Some(13 * IndexOf(SuitSymbols, s[1]) + IndexOf(RankSymbols, s[0]))
    else None
  }

  lemma SymbolsDistinct()
    ensures Distinct(RankSymbols) && Distinct(SuitSymbols)
  {
  }

  lemma IndexOfDistinct(s: string, i: nat)
    requires Distinct(s) && i < |s|
    ensures IndexOf(s, s[i]) == i
  {
  }

  lemma CardDigits(u: int, r: int)
    requires 0 <= u < 4 && 0 <= r < 13
    ensures (13 * u + r) % 13 == r && (13 * u + r) / 13 == u
  {
  }

  /** Parsing undoes showing on the card ids 0..51. */
  lemma ParseShowCard(card: int)
    requires 0 <= card < NumCards
    ensures ShowCard(card).Some? && ParseCard(ShowCard(card).value) == Some(card)
  {
    SymbolsDistinct();
    var t := ShowCard(card).value;
    IndexOfDistinct(RankSymbols, card % 13);
    IndexOfDistinct(SuitSymbols, card / 13);
    assert IndexOf(RankSymbols, t[0]) == card % 13;
    assert IndexOf(SuitSymbols, t[1]) == card / 13;
  }

  /** Showing undoes parsing: a string that parses is the shown form of its card. */
  lemma ShowParseCard(s: string)
    requires ParseCard(s).Some?
    ensures ShowCard(ParseCard(s).value) == Some(s)
  {
    var r, u := IndexOf(RankSymbols, s[0]), IndexOf(SuitSymbols, s[1]);
    var card := 13 * u + r;
    assert ParseCard(s) == Some(card);
    CardDigits(u, r);
    assert PyIndex(card / 13, 4) == u;
    assert ShowCard(card) == Some([RankSymbols[r], SuitSymbols[u]]);
    assert s == [s[0], s[1]];
  }

  /** The shown forms of the first and last card of each end of the id range. */
  lemma ShowCardExamples()
    ensures ShowCard(0) == Some("2\U{2663}") && ShowCard(12) == Some("A\U{2663}")
    ensures ShowCard(13) == Some("2\U{2666}") && ShowCard(51) == Some("A\U{2660}")
  {
  }

  lemma ShowRedAces()
    ensures ShowCard(25) == Some("A\U{2666}") && ShowCard(38) == Some("A\U{2665}")
  {
  }

  /** The deuce of clubs and the four aces, shown in order. */
  lemma ShowHandExample(hand: seq<int>)
    requires hand == [0, 12, 25, 38, 51]
    ensures ShowHand(hand) == Some(["2\U{2663}", "A\U{2663}", "A\U{2666}", "A\U{2665}", "A\U{2660}"])
  {
    ShowCardExamples();
    ShowRedAces();
    var r := ShowHand(hand).value;
    assert Some(r[0]) == ShowCard(0) && Some(r[1]) == ShowCard(12) && Some(r[2]) == ShowCard(25);
    assert Some(r[3]) == ShowCard(38) && Some(r[4]) == ShowCard(51);
    assert r == [r[0], r[1], r[2], r[3], r[4]];
  }

  /** Different cards are shown differently, so `show_hand` loses nothing. */
  lemma ShowHandInjective(a: seq<int>, b: seq<int>)
    requires forall i :: 0 <= i < |a| ==> 0 <= a[i] < NumCards
    requires forall i :: 0 <= i < |b| ==> 0 <= b[i] < NumCards
    requires ShowHand(a) == ShowHand(b)
    ensures a == b
  {
    forall i | 0 <= i < |a| ensures a[i] == b[i] {
      assert ShowCard(a[i]) == Some(ShowHand(a).value[i]) == Some(ShowHand(b).value[i]) == ShowCard(b[i]);
      ParseShowCard(a[i]);
      ParseShowCard(b[i]);
    }
  }

  // ---------------------------------------------------------------- shuffle

  /** `[0, 1, ..., n - 1]`, i.e. `list(range(n))`. */
  function Iota(n: nat): (s: seq<int>)
    ensures |s| == n && forall i :: 0 <= i < n ==> s[i] == i
  {
    seq(n, i => i)
  }

  lemma IotaMembers(n: nat)
    ensures forall x :: x in Iota(n) <==> 0 <= x < n
  {
    forall x | 0 <= x < n ensures x in Iota(n) {
      assert Iota(n)[x] == x;
    }
  }

  /** Exchange positions i and j. */
  function Swap(s: seq<int>, i: nat, j: nat): (r: seq<int>)
    requires i < |s| && j < |s|
    ensures |r| == |s| && multiset(r) == multiset(s)
    ensures r[i] == s[j] && r[j] == s[i]
    ensures forall k :: 0 <= k < |s| && k != i && k != j ==> r[k] == s[k]
  {
    s[i := s[j]][j := s[i]]
  }

  /** The swap choices `random.shuffle` may make on n items: the k-th step exchanges
      position n - 1 - k with a position at most n - 1 - k. */
  predicate ShuffleChoices(swaps: seq<nat>, n: nat)
  {
    |swaps| == (if n == 0 then 0 else n - 1)
    && forall k :: 0 <= k < |swaps| ==> swaps[k] <= n - 1 - k
  }

  /** The steps of `random.shuffle` from position i down to 1: step i exchanges position i
      with the chosen position `swaps[|s| - 1 - i]`. */
  function ShuffleFrom(s: seq<int>, swaps: seq<nat>, i: int): (r: seq<int>)
    requires ShuffleChoices(swaps, |s|) && i < |s|
    ensures |r| == |s|
    decreases i
  {
    if i < 1 then s else ShuffleFrom(Swap(s, i, swaps[|s| - 1 - i]), swaps, i - 1)
  }

  /** Shuffling only reorders. */
  lemma {:induction false} ShufflePerm(s: seq<int>, swaps: seq<nat>, i: int)
    requires ShuffleChoices(swaps, |s|) && i < |s|
    ensures multiset(ShuffleFrom(s, swaps, i)) == multiset(s)
    decreases i
  {
    if i >= 1 {
      ShufflePerm(Swap(s, i, swaps[|s| - 1 - i]), swaps, i - 1);
    }
  }

  /** One step of the shuffle: exchanging position i with its chosen position and going on
      from i - 1 finishes the shuffle from i. */
  lemma ShuffleStep(s: seq<int>, swaps: seq<nat>, i: int)
    requires ShuffleChoices(swaps, |s|) && 1 <= i < |s|
    ensures swaps[|s| - 1 - i] < |s|
    ensures ShuffleFrom(Swap(s, i, swaps[|s| - 1 - i]), swaps, i - 1) == ShuffleFrom(s, swaps, i)
  {
  }

  /** `a[i], a[j] = a[j], a[i]` */
  method SwapAt(a: array<int>, i: nat, j: nat)
    requires i < a.Length && j < a.Length
    modifies a
    ensures a[..] == Swap(old(a[..]), i, j)
  {
    a[i], a[j] := a[j], a[i];
  }

  /** `random.shuffle(a)` in place, with the generator's choices given by `swaps`. */
  method Shuffle(a: array<int>, swaps: seq<nat>)
    requires ShuffleChoices(swaps, a.Length)
    modifies a
    ensures a[..] == ShuffleFrom(old(a[..]), swaps, a.Length - 1)
  {
    ghost var goal := ShuffleFrom(a[..], swaps, a.Length - 1);
    var i := a.Length - 1;
    while i >= 1
      invariant 0 <= i + 1 <= a.Length
      invariant ShuffleFrom(a[..], swaps, i) == goal
      decreases i
    {
      ShuffleStep(a[..], swaps, i);
      SwapAt(a, i, swaps[a.Length - 1 - i]);
      i := i - 1;
    }
  }

  /** Every card 0..51 exactly once. */
  predicate IsFullDeck(cards: seq<int>)
  {
    multiset(cards) == multiset(Iota(NumCards))
  }

  lemma {:induction false} IotaOnce(n: nat, x: int)
    ensures multiset(Iota(n))[x] == if 0 <= x < n then 1 else 0
  {
    if n > 0 {
      IotaOnce(n - 1, x);
      assert Iota(n) == Iota(n - 1) + [n - 1];
    }
  }

  lemma TwiceCounted(s: seq<int>, i: nat, j: nat)
    requires i < j < |s| && s[i] == s[j]
    ensures multiset(s)[s[i]] >= 2
  {
    assert s == s[..j] + [s[j]] + s[j + 1..];
    assert s[i] in s[..j];
  }

  /** A full deck has 52 distinct cards, all in 0..51, and holds every one of them. */
  lemma FullDeckFacts(cards: seq<int>)
    requires IsFullDeck(cards)
    ensures |cards| == NumCards && Distinct(cards)
    ensures forall c :: c in cards <==> 0 <= c < NumCards
  {
    assert |cards| == |multiset(cards)|;
    forall c ensures c in cards <==> 0 <= c < NumCards {
      IotaOnce(NumCards, c);
      assert c in cards <==> c in multiset(cards);
    }
    forall i, j | 0 <= i < j < |cards| ensures cards[i] != cards[j] {
      if cards[i] == cards[j] {
        TwiceCounted(cards, i, j);
        IotaOnce(NumCards, cards[i]);
      }
    }
  }

  /** Card ids as a hand or a board holds them: different, and all in 0..51. */
  predicate ValidCards(s: seq<int>)
  {
    Distinct(s) && forall c :: c in s ==> 0 <= c < NumCards
  }

  // --------------------------------------------------------------- the deck

  /** Python's slice bound `n` in `xs[:n]` and `xs[n:]` for a list of length len:
      negative n counts from the end, and either way it is clamped to 0..len. */
  function SliceIndex(n: int, len: nat): (k: nat)
    ensures k <= len
    ensures 0 <= n <= len ==> k == n
    ensures n > len ==> k == len
    ensures -(len as int) <= n < 0 ==> k == len + n
    ensures n < -(len as int) ==> k == 0
  {
    if n < 0 then (if len + n < 0 then 0 else len + n)
    else if n > len then len
    else n
  }

  class Deck {
    var cards: seq<int>

    /** `Deck()`: the cards 0..51 in order, then shuffled with the choices `swaps`. */
    constructor(swaps: seq<nat>)
      requires ShuffleChoices(swaps, NumCards)
      ensures cards == ShuffleFrom(Iota(NumCards), swaps, NumCards - 1)
      ensures IsFullDeck(cards)
    {
      var a := new int[NumCards](i => i);
      assert a[..] == Iota(NumCards);
      Shuffle(a, swaps);
      cards := a[..];
      ShufflePerm(Iota(NumCards), swaps, NumCards - 1);
    }

    /** `draw(n)`: hand out the top n cards (Python slice semantics) and keep the rest in
        order. */
    method Draw(n: int) returns (drawn: seq<int>)
      modifies this
      ensures drawn + cards == old(cards)
      ensures drawn == old(cards)[..SliceIndex(n, |old(cards)|)]
      ensures 0 <= n ==> |drawn| == if n <= |old(cards)| then n else |old(cards)|
      ensures Distinct(old(cards)) ==> forall c :: c in drawn ==> c !in cards
    {
      var k := SliceIndex(n, |cards|);
      drawn := cards[..k];
      cards := cards[k..];
      assert drawn + cards == old(cards);
      if Distinct(old(cards)) {
        forall i, j | 0 <= i < |drawn| && 0 <= j < |cards| ensures drawn[i] != cards[j] {
          assert drawn[i] == old(cards)[i] && cards[j] == old(cards)[k + j];
        }
      }
    }

    /** `remove_cards`: drop every listed card and keep the others in their order. */
    method RemoveCards(toRemove: seq<int>)
      modifies this
      ensures cards == Without(old(cards), SetOf(toRemove))
      ensures forall c :: c in cards <==> c in old(cards) && c !in toRemove
      ensures Distinct(old(cards)) && SetOf(toRemove) <= SetOf(old(cards)) ==>
        |cards| == |old(cards)| - |SetOf(toRemove)| && Distinct(cards)
    {
      if Distinct(cards) && SetOf(toRemove) <= SetOf(cards) {
        WithoutLength(cards, SetOf(toRemove));
      }
      cards := Without(cards, SetOf(toRemove));
    }

    /** `copy`: a new deck (shuffled with `swaps`, which the copy then overwrites) holding
        the same cards. */
    method Copy(swaps: seq<nat>) returns (d: Deck)
      requires ShuffleChoices(swaps, NumCards)
      ensures fresh(d) && d.cards == cards
    {
      d := new Deck(swaps);
      d.cards := cards;
    }

    /** `sample(n)`: n cards at the distinct positions `picks`, leaving the deck as it is.
        Python raises an error when n is negative or larger than the deck. */
    function Sample(n: int, picks: seq<nat>): (r: Option<seq<int>>)
      reads this
      requires 0 <= n <= |cards| ==> |picks| == n && Distinct(picks)
      requires 0 <= n <= |cards| ==> forall k :: 0 <= k < n ==> picks[k] < |cards|
      ensures r.Some? <==> 0 <= n <= |cards|
      ensures r.Some? ==> |r.value| == n && forall c :: c in r.value ==> c in cards
      ensures r.Some? && Distinct(cards) ==> Distinct(r.value)
    {
      if 0 <= n <= |cards| then Some(Pick(cards, picks)) else None
    }
  }

  /** The copy is independent: drawing from the original leaves the copy's cards as they
      were. */
  method CopyThenDraw(d: Deck, swaps: seq<nat>, n: int) returns (c: Deck, drawn: seq<int>)
    requires ShuffleChoices(swaps, NumCards)
    modifies d
    ensures c.cards == old(d.cards)
    ensures drawn + d.cards == old(d.cards)
  {
    c := d.Copy(swaps);
    drawn := d.Draw(n);
  }
}
