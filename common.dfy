// Sequence vocabulary shared by the evaluator, the deck and the bot: Python's list
// comprehensions, `set(...)`, `sorted(..., reverse=True)`, slicing `[:n]`, `max(...)`
// and `random.sample` (with the random positions made explicit).
module Common {

  datatype Option<T> = None | Some(value: T)

  /** `[f(x) for x in s]` */
  function MapSeq<A, B>(f: A -> B, s: seq<A>): (r: seq<B>)
    ensures |r| == |s|
    ensures forall i :: 0 <= i < |s| ==> r[i] == f(s[i])
  {
    if s == [] then [] else [f(s[0])] + MapSeq(f, s[1..])
  }

  /** `[x for x in s if p(x)]` */
  function FilterSeq<A(==,!new)>(p: A -> bool, s: seq<A>): (r: seq<A>)
    ensures |r| <= |s|
    ensures forall x :: x in r <==> x in s && p(x)
  {
    if s == [] then []
    else if p(s[0]) then [s[0]] + FilterSeq(p, s[1..])
    else FilterSeq(p, s[1..])
  }

  /** `set(s)` */
  function SetOf<A(==,!new)>(s: seq<A>): (r: set<A>)
    ensures forall x :: x in r <==> x in s
  {
    set x | x in s
  }

  predicate Distinct<A(==)>(s: seq<A>)
  {
    forall i, j :: 0 <= i < j < |s| ==> s[i] != s[j]
  }

  /** Joining two duplicate-free sequences with no common element gives a duplicate-free
      sequence. */
  lemma DistinctAppend<A>(a: seq<A>, b: seq<A>)
    requires Distinct(a) && Distinct(b) && forall x :: x in a ==> x !in b
    ensures Distinct(a + b)
  {
    var ab := a + b;
    forall i, j | 0 <= i < j < |ab| ensures ab[i] != ab[j] {
      if i < |a| <= j {
        assert ab[i] in a && ab[j] == b[j - |a|];
      }
    }
  }

  lemma DistinctParts<A>(a: seq<A>, b: seq<A>)
    requires Distinct(a + b)
    ensures Distinct(a) && Distinct(b) && forall x :: x in a ==> x !in b
  {
    var ab := a + b;
    assert forall i :: 0 <= i < |a| ==> ab[i] == a[i];
    assert forall j :: 0 <= j < |b| ==> ab[|a| + j] == b[j];
    forall i, j | 0 <= i < |a| && 0 <= j < |b| ensures a[i] != b[j] {
      assert ab[i] != ab[|a| + j];
    }
  }

  /** Python's slice `s[:n]` for n >= 0. */
  function Take<A>(s: seq<A>, n: nat): (r: seq<A>)
    ensures |r| == if n <= |s| then n else |s|
    ensures r == s[..|r|]
  {
    if n <= |s| then s[..n] else s
  }

  predicate IsDesc(s: seq<int>)
  {
    forall i, j :: 0 <= i < j < |s| ==> s[i] >= s[j]
  }

  lemma DescCons(h: int, t: seq<int>)
    requires IsDesc(t) && (t == [] || h >= t[0])
    ensures IsDesc([h] + t)
  {
  }

  /** Places x in front of the first element that is not larger. */
  function InsertDesc(x: int, s: seq<int>): (r: seq<int>)
    requires IsDesc(s)
    ensures IsDesc(r)
    ensures multiset(r) == multiset(s) + multiset{x}
    ensures |r| == |s| + 1
    ensures r[0] == if s == [] || x >= s[0] then x else s[0]
  {
    if s == [] || x >= s[0] then
      DescCons(x, s);
      [x] + s
    else
      var t := InsertDesc(x, s[1..]);
      assert s == [s[0]] + s[1..];
      DescCons(s[0], t);
      [s[0]] + t
  }

  /** `sorted(s, reverse=True)` */
  function SortDesc(s: seq<int>): (r: seq<int>)
    ensures IsDesc(r)
    ensures multiset(r) == multiset(s)
    ensures |r| == |s|
  {
    if s == [] then []
    else
      assert s == [s[0]] + s[1..];
      InsertDesc(s[0], SortDesc(s[1..]))
  }

  lemma DescHeadIsMax(s: seq<int>, x: int)
    requires IsDesc(s) && x in multiset(s)
    ensures |s| > 0 && x <= s[0]
  {
  }

  /** Taking off the head of a descending sequence removes one copy of it. */
  lemma DescTail(a: seq<int>)
    requires a != [] && IsDesc(a)
    ensures IsDesc(a[1..])
    ensures multiset(a[1..]) == multiset(a) - multiset{a[0]}
  {
    assert a == [a[0]] + a[1..];
  }

  lemma SameHeadTail(a: seq<int>, b: seq<int>)
    requires a != [] && b != [] && a[0] == b[0] && a[1..] == b[1..]
    ensures a == b
  {
    assert a == [a[0]] + a[1..];
    assert b == [b[0]] + b[1..];
  }

  /** There is only one descending arrangement of a multiset of numbers, so any two
      sorts of the same numbers agree. */
  lemma {:induction false} DescUnique(a: seq<int>, b: seq<int>)
    requires IsDesc(a) && IsDesc(b) && multiset(a) == multiset(b)
    ensures a == b
  {
    if a != [] {
      assert a[0] in multiset(b);
      assert b != [] && b[0] in multiset(a);
      DescHeadIsMax(b, a[0]);
      DescHeadIsMax(a, b[0]);
      DescTail(a);
      DescTail(b);
      assert a[0] == b[0];
      assert multiset(a[1..]) == multiset(b[1..]);
      DescUnique(a[1..], b[1..]);
      SameHeadTail(a, b);
    } else {
      assert |multiset(b)| == 0;
    }
  }

  /** Sorting depends on the numbers only, never on the order they come in. */
  lemma SortDescPerm(s: seq<int>, t: seq<int>)
    requires multiset(s) == multiset(t)
    ensures SortDesc(s) == SortDesc(t)
  {
    DescUnique(SortDesc(s), SortDesc(t));
  }

  /** r lists |r| of the largest elements of s, largest first: what `sorted(s, reverse=True)[:n]`
      is meant to give. */
  predicate IsTop(r: seq<int>, s: seq<int>)
  {
    && IsDesc(r)
    && multiset(r) <= multiset(s)
    && forall x, i :: x in multiset(s) - multiset(r) && 0 <= i < |r| ==> x <= r[i]
  }

  lemma PrefixTop(t: seq<int>, k: nat)
    requires IsDesc(t) && k <= |t|
    ensures IsTop(t[..k], t)
  {
    var r, rest := t[..k], t[k..];
    assert t == r + rest;
    assert multiset(t) - multiset(r) == multiset(rest);
    forall x, i | x in multiset(rest) && 0 <= i < k ensures x <= r[i] {
      var j :| 0 <= j < |rest| && rest[j] == x;
      assert t[k + j] == x && t[i] == r[i];
    }
  }

  /** `sorted(s, reverse=True)[:n]` keeps the largest elements of s. */
  lemma TopOf(s: seq<int>, n: nat)
    ensures IsTop(Take(SortDesc(s), n), s)
  {
    var t := SortDesc(s);
    PrefixTop(t, |Take(t, n)|);
  }

  /** Two different values occur at most |s| times between them. */
  lemma {:induction false} TwoCounts(s: seq<int>, a: int, b: int)
    requires a != b
    ensures multiset(s)[a] + multiset(s)[b] <= |s|
  {
    if s != [] {
      TwoCounts(s[1..], a, b);
      assert s == [s[0]] + s[1..];
    }
  }

  /** Three different values occur at most |s| times between them. */
  lemma {:induction false} ThreeCounts(s: seq<int>, a: int, b: int, c: int)
    requires a != b && b != c && a != c
    ensures multiset(s)[a] + multiset(s)[b] + multiset(s)[c] <= |s|
  {
    if s != [] {
      ThreeCounts(s[1..], a, b, c);
      assert s == [s[0]] + s[1..];
    }
  }

  /** `max(s)` (Python raises ValueError on an empty sequence). */
  function MaxOf(s: seq<int>): (m: int)
    requires |s| > 0
    ensures m in s
    ensures forall x :: x in s ==> x <= m
  {
    if |s| == 1 then s[0]
    else
      var rest := MaxOf(s[1..]);
      assert forall x :: x in s ==> x == s[0] || x in s[1..];
      if s[0] >= rest then s[0] else rest
  }

  lemma MaxOfPerm(s: seq<int>, t: seq<int>)
    requires |s| > 0 && multiset(s) == multiset(t)
    ensures |t| > 0 && MaxOf(s) == MaxOf(t)
  {
    assert s[0] in multiset(t);
    var m, n := MaxOf(s), MaxOf(t);
    assert m in multiset(s);
    assert m in t;
    assert n in multiset(t);
    assert n in s;
  }

  /** `random.sample(s, len(picks))` where the generator's choice of distinct positions is
      `picks`. */
  function Pick<A(==,!new)>(s: seq<A>, picks: seq<nat>): (r: seq<A>)
    requires forall k :: 0 <= k < |picks| ==> picks[k] < |s|
    ensures |r| == |picks|
    ensures forall k :: 0 <= k < |picks| ==> r[k] == s[picks[k]]
    ensures forall x :: x in r ==> x in s
    ensures Distinct(s) && Distinct(picks) ==> Distinct(r)
  {
    seq(|picks|, k requires 0 <= k < |picks| => s[picks[k]])
  }

  /** `[x for x in s if x not in gone]` */
  function Without<A(==,!new)>(s: seq<A>, gone: set<A>): (r: seq<A>)
    ensures forall x :: x in r <==> x in s && x !in gone
    ensures |r| <= |s|
  {
    if s == [] then []
    else if s[0] in gone then Without(s[1..], gone)
    else [s[0]] + Without(s[1..], gone)
  }

  /** Removal keeps the survivors in their original order: it distributes over `+`. */
  lemma {:induction false} WithoutAppend<A(!new)>(a: seq<A>, b: seq<A>, gone: set<A>)
    ensures Without(a + b, gone) == Without(a, gone) + Without(b, gone)
  {
    if a != [] {
      var ab := a + b;
      assert ab[0] == a[0] && ab[1..] == a[1..] + b;
      WithoutAppend(a[1..], b, gone);
    } else {
      assert a + b == b;
    }
  }

  /** Removing k distinct present elements from a duplicate-free sequence shortens it by k. */
  lemma {:induction false} WithoutLength<A(!new)>(s: seq<A>, gone: set<A>)
    requires Distinct(s) && gone <= SetOf(s)
    ensures |Without(s, gone)| == |s| - |gone|
    ensures Distinct(Without(s, gone))
  {
    if s == [] {
      assert gone == {};
    } else {
      var t := s[1..];
      assert s[0] !in t;
      assert Distinct(t);
      if s[0] in gone {
        var rest := gone - {s[0]};
        assert rest <= SetOf(t);
        WithoutLength(t, rest);
        WithoutSame(t, gone, rest);
      } else {
        assert gone <= SetOf(t);
        WithoutLength(t, gone);
      }
    }
  }

  lemma {:induction false} WithoutSame<A(!new)>(s: seq<A>, g1: set<A>, g2: set<A>)
    requires forall x :: x in s ==> (x in g1 <==> x in g2)
    ensures Without(s, g1) == Without(s, g2)
  {
    if s != [] {
      WithoutSame(s[1..], g1, g2);
    }
  }

  lemma {:induction false} DistinctCard<A(!new)>(s: seq<A>)
    requires Distinct(s)
    ensures |SetOf(s)| == |s|
  {
    if s != [] {
      var t := s[1..];
      assert Distinct(t);
      DistinctCard(t);
      assert SetOf(s) == SetOf(t) + {s[0]};
      assert s[0] !in SetOf(t);
    }
  }

  // --- comprehensions do not care about the order of their input ---

  lemma RemoveAt<A>(t: seq<A>, j: nat)
    requires j < |t|
    ensures multiset(t[..j] + t[j + 1..]) == multiset(t) - multiset{t[j]}
  {
    assert t == (t[..j] + [t[j]]) + t[j + 1..];
  }

  /** Mapping distributes over `+`. */
  lemma {:induction false} MapSeqAppend<A, B>(f: A -> B, a: seq<A>, b: seq<A>)
    ensures MapSeq(f, a + b) == MapSeq(f, a) + MapSeq(f, b)
  {
  }

  lemma SplitAt<A>(t: seq<A>, j: nat)
    requires j < |t|
    ensures t == t[..j] + [t[j]] + t[j + 1..]
  {
  }

  lemma MapSeqMiddle<A, B>(f: A -> B, a: seq<A>, x: A, b: seq<A>)
    ensures multiset(MapSeq(f, a + [x] + b)) == multiset{f(x)} + multiset(MapSeq(f, a + b))
  {
    MapSeqAppend(f, a + [x], b);
    MapSeqAppend(f, a, [x]);
    MapSeqAppend(f, a, b);
  }

  /** Mapping commutes with taking out the element at position j. */
  lemma MapSeqRemove<A, B>(f: A -> B, t: seq<A>, j: nat)
    requires j < |t|
    ensures multiset(MapSeq(f, t)) == multiset{f(t[j])} + multiset(MapSeq(f, t[..j] + t[j + 1..]))
  {
    SplitAt(t, j);
    MapSeqMiddle(f, t[..j], t[j], t[j + 1..]);
  }

  lemma {:induction false} MapSeqPerm<A, B>(f: A -> B, s: seq<A>, t: seq<A>)
    requires multiset(s) == multiset(t)
    ensures multiset(MapSeq(f, s)) == multiset(MapSeq(f, t))
  {
    if s != [] {
      assert s[0] in multiset(t);
      var j :| 0 <= j < |t| && t[j] == s[0];
      var rest := t[..j] + t[j + 1..];
      RemoveAt(t, j);
      RemoveAt(s, 0);
      MapSeqPerm(f, s[1..], rest);
      MapSeqRemove(f, t, j);
      assert MapSeq(f, s) == [f(s[0])] + MapSeq(f, s[1..]);
    } else {
      assert |multiset(t)| == 0;
    }
  }

  lemma {:induction false} FilterCount<A(!new)>(p: A -> bool, s: seq<A>, y: A)
    ensures multiset(FilterSeq(p, s))[y] == if p(y) then multiset(s)[y] else 0
  {
    if s != [] {
      FilterCount(p, s[1..], y);
      assert s == [s[0]] + s[1..];
    }
  }

  lemma FilterPerm<A(!new)>(p: A -> bool, s: seq<A>, t: seq<A>)
    requires multiset(s) == multiset(t)
    ensures multiset(FilterSeq(p, s)) == multiset(FilterSeq(p, t))
  {
    forall y ensures multiset(FilterSeq(p, s))[y] == multiset(FilterSeq(p, t))[y] {
      FilterCount(p, s, y);
      FilterCount(p, t, y);
    }
  }
}
