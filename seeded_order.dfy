/**
 * The date-seeded "shuffle" both recommenders use (src/config/musicPlaylist.ts
 * and src/data/music.ts): a seed from the characters of today's date text, a
 * score per item from the seed and the code of one character, a stable sort
 * by ascending score, and a prefix taken with `slice(0, n)`.
 */
module SeededOrder {
  /** `text.split('').reduce((acc, c) => acc + c.charCodeAt(0), 0)`. */
  function CharCodeSum(text: string): (seed: nat)
    ensures text != [] && text[0] as int > 0 ==> seed > 0
  {
    if text == [] then 0 else text[0] as nat + CharCodeSum(text[1..])
  }

  /** `s.charCodeAt(0)`; an empty text has none and counts as 0 here. */
  function FirstCode(s: string): nat {
    if s == [] then 0 else s[0] as nat
  }

  /** `(seed + code) % 100`; both are non-negative, so JavaScript's `%` agrees with Dafny's. */
  function Score(seed: nat, code: nat): (r: nat)
    ensures r < 100
  {
    (seed + code) % 100
  }

  predicate Distinct<T(==)>(s: seq<T>) {
    forall i, j :: 0 <= i < j < |s| ==> s[i] != s[j]
  }

  predicate SortedByScore<T>(s: seq<T>, score: T -> int) {
    forall i, j :: 0 <= i < j < |s| ==> score(s[i]) <= score(s[j])
  }

  /** Places `x` before the first element scoring higher, so equal scores keep their order. */
  function InsertByScore<T(==)>(x: T, s: seq<T>, score: T -> int): (r: seq<T>)
    requires SortedByScore(s, score)
    ensures SortedByScore(r, score)
    ensures multiset(r) == multiset(s) + multiset{x}
    ensures |r| == |s| + 1
  {
    if s == [] then [x]
    else if score(x) < score(s[0]) then
      SortedHead(s, score);
      assert s == [s[0]] + s[1..];
      ConsSorted(x, s, score);
      [x] + s
    else
      var rest := InsertByScore(x, s[1..], score);
      assert s == [s[0]] + s[1..];
      SortedHead(s, score);
      assert forall y :: y in rest ==> y in multiset(rest);
      ConsSorted(s[0], rest, score);
      assert multiset([s[0]] + rest) == multiset{s[0]} + multiset(rest);
      [s[0]] + rest
  }

  /** Inserting an element the list lacks into a list without repeats gives none. */
  lemma {:induction false} InsertDistinct<T>(x: T, s: seq<T>, score: T -> int)
    requires SortedByScore(s, score) && Distinct(s) && x !in s
    ensures Distinct(InsertByScore(x, s, score))
  {
    if s != [] && score(x) >= score(s[0]) {
      var rest := InsertByScore(x, s[1..], score);
      assert s == [s[0]] + s[1..];
      InsertDistinct(x, s[1..], score);
      assert s[0] !in rest by {
        assert s[0] !in multiset(s[1..]) + multiset{x};
      }
      ConsDistinct(s[0], rest);
    }
  }

  /** A head scoring no higher than anything after it keeps a sorted list sorted. */
  lemma ConsSorted<T>(h: T, t: seq<T>, score: T -> int)
    requires SortedByScore(t, score) && forall y :: y in t ==> score(h) <= score(y)
    ensures SortedByScore([h] + t, score)
  {
    forall i, j | 0 <= i < j < |[h] + t| ensures score(([h] + t)[i]) <= score(([h] + t)[j]) {
      if i == 0 {
        assert ([h] + t)[j] == t[j - 1];
      }
    }
  }

  /** A new head in front of a list without repeats gives none. */
  lemma ConsDistinct<T>(h: T, t: seq<T>)
    requires Distinct(t) && h !in t
    ensures Distinct([h] + t)
  {
  }

  lemma SortedHead<T>(s: seq<T>, score: T -> int)
    requires SortedByScore(s, score) && s != []
    ensures forall y :: y in s[1..] ==> score(s[0]) <= score(y)
  {
    forall y | y in s[1..] ensures score(s[0]) <= score(y) {
      var k :| 0 <= k < |s| - 1 && s[1..][k] == y;
      assert s[k + 1] == y;
    }
  }

  /** The stable sort by ascending score (`[...s].sort((a, b) => score(a) - score(b))`). */
  function SortByScore<T(==,!new)>(s: seq<T>, score: T -> int): (r: seq<T>)
    ensures SortedByScore(r, score)
    ensures multiset(r) == multiset(s)
    ensures |r| == |s|
  {
    if s == [] then []
    else
      assert s == s[..|s| - 1] + [s[|s| - 1]];
      InsertByScore(s[|s| - 1], SortByScore(s[..|s| - 1], score), score)
  }

  /** Sorting a list without repeats gives none. */
  lemma {:induction false} SortDistinct<T(!new)>(s: seq<T>, score: T -> int)
    requires Distinct(s)
    ensures Distinct(SortByScore(s, score))
  {
    if s != [] {
      var init, last := s[..|s| - 1], s[|s| - 1];
      assert s == init + [last];
      SortDistinct(init, score);
      var sorted := SortByScore(init, score);
      assert last !in sorted by {
        assert last !in init;
        assert last !in multiset(init);
      }
      InsertDistinct(last, sorted, score);
    }
  }

  /** The items of `s` scoring `v`, in their order in `s`. */
  function WithScore<T>(s: seq<T>, score: T -> int, v: int): (r: seq<T>)
    ensures |r| <= |s|
  {
    if s == [] then []
    else WithScore(s[..|s| - 1], score, v) + (if score(s[|s| - 1]) == v then [s[|s| - 1]] else [])
  }

  /** Exactly the items scoring `v` are kept. */
  lemma {:induction false} WithScoreMembers<T>(s: seq<T>, score: T -> int, v: int)
    ensures forall y :: y in WithScore(s, score, v) <==> y in s && score(y) == v
  {
    if s != [] {
      var init := s[..|s| - 1];
      assert s == init + [s[|s| - 1]];
      WithScoreMembers(init, score, v);
    }
  }

  /** Picking the items of one score distributes over concatenation. */
  lemma {:induction false} WithScoreAppend<T>(a: seq<T>, b: seq<T>, score: T -> int, v: int)
    ensures WithScore(a + b, score, v) == WithScore(a, score, v) + WithScore(b, score, v)
  {
    if b == [] {
      assert a + b == a;
    } else {
      var init := b[..|b| - 1];
      assert (a + b)[..|a + b| - 1] == a + init;
      WithScoreAppend(a, init, score, v);
    }
  }

  /** A list in which nothing scores `v` has no item of that score. */
  lemma WithScoreNone<T>(s: seq<T>, score: T -> int, v: int)
    requires forall y :: y in s ==> score(y) != v
    ensures WithScore(s, score, v) == []
  {
    WithScoreMembers(s, score, v);
  }

  /** Insertion puts `x` after every item of the same score. */
  lemma {:induction false} InsertStable<T>(x: T, s: seq<T>, score: T -> int, v: int)
    requires SortedByScore(s, score)
    ensures WithScore(InsertByScore(x, s, score), score, v)
         == WithScore(s, score, v) + (if score(x) == v then [x] else [])
  {
    if s == [] {
      WithScoreSingle(x, score, v);
    } else if score(x) < score(s[0]) {
      InsertInFront(x, s, score, v);
    } else {
      assert s == [s[0]] + s[1..];
      InsertStable(x, s[1..], score, v);
      InsertBehind(x, s, score, v);
    }
  }

  lemma InsertUnfold<T>(x: T, s: seq<T>, score: T -> int)
    requires s != [] && SortedByScore(s, score) && SortedByScore(s[1..], score) && score(x) >= score(s[0])
    ensures InsertByScore(x, s, score) == [s[0]] + InsertByScore(x, s[1..], score)
  {
  }

  /** An item scoring at least the head goes behind it, into the tail. */
  lemma InsertBehind<T>(x: T, s: seq<T>, score: T -> int, v: int)
    requires s != [] && SortedByScore(s, score) && SortedByScore(s[1..], score) && score(x) >= score(s[0])
    requires WithScore(InsertByScore(x, s[1..], score), score, v)
          == WithScore(s[1..], score, v) + (if score(x) == v then [x] else [])
    ensures WithScore(InsertByScore(x, s, score), score, v)
         == WithScore(s, score, v) + (if score(x) == v then [x] else [])
  {
    var h, t := s[0], s[1..];
    var tail := if score(x) == v then [x] else [];
    var rest := InsertByScore(x, t, score);
    InsertUnfold(x, s, score);
    calc {
      WithScore([h] + rest, score, v);
      == { WithScoreAppend([h], rest, score, v); }
      WithScore([h], score, v) + (WithScore(t, score, v) + tail);
      == 
      (WithScore([h], score, v) + WithScore(t, score, v)) + tail;
      == { WithScoreAppend([h], t, score, v); assert [h] + t == s; }
      WithScore(s, score, v) + tail;
    }
  }

  lemma WithScoreSingle<T>(x: T, score: T -> int, v: int)
    ensures WithScore([x], score, v) == if score(x) == v then [x] else []
  {
    assert [x][..0] == [];
  }

  /** An item scoring below the head goes in front, before any item of its score. */
  lemma InsertInFront<T>(x: T, s: seq<T>, score: T -> int, v: int)
    requires SortedByScore(s, score) && s != [] && score(x) < score(s[0])
    ensures WithScore([x] + s, score, v) == WithScore(s, score, v) + (if score(x) == v then [x] else [])
  {
    WithScoreSingle(x, score, v);
    WithScoreAppend([x], s, score, v);
    if score(x) == v {
      assert forall y :: y in s ==> score(y) != v by {
        SortedHead(s, score);
        assert s == [s[0]] + s[1..];
      }
      WithScoreNone(s, score, v);
    }
  }

  /** The sort is stable: the items of each score keep their input order. */
  lemma {:induction false} SortStable<T(!new)>(s: seq<T>, score: T -> int, v: int)
    ensures WithScore(SortByScore(s, score), score, v) == WithScore(s, score, v)
  {
    if s != [] {
      var init, last := s[..|s| - 1], s[|s| - 1];
      SortStable(init, score, v);
      InsertStable(last, SortByScore(init, score), score, v);
    }
  }

  /** `s.slice(0, end)`: a negative end counts from the back; the end is clamped to the length. */
  function SliceTo<T>(s: seq<T>, end: int): (r: seq<T>)
    ensures 0 <= end ==> |r| == if end < |s| then end else |s|
    ensures end < 0 ==> |r| == if |s| + end < 0 then 0 else |s| + end
    ensures r == s[..|r|]
  {
    var e := if end < 0 then |s| + end else end;
    if e <= 0 then [] else if e >= |s| then s else s[..e]
  }

  /** A prefix of a sorted list is sorted and takes nothing the list does not hold. */
  lemma PrefixOfSorted<T>(s: seq<T>, n: nat, score: T -> int)
    requires SortedByScore(s, score) && n <= |s|
    ensures SortedByScore(s[..n], score)
    ensures multiset(s[..n]) <= multiset(s)
  {
    assert s == s[..n] + s[n..];
  }

  /** No left-out element scores lower than a kept one: the prefix holds the lowest scores. */
  lemma PrefixHoldsLowest<T>(s: seq<T>, n: nat, score: T -> int)
    requires SortedByScore(s, score) && n <= |s|
    ensures forall i, j :: 0 <= i < n <= j < |s| ==> score(s[i]) <= score(s[j])
  {
  }

  /** A prefix of a list without repeats has none either. */
  lemma PrefixDistinct<T>(s: seq<T>, n: nat)
    requires Distinct(s) && n <= |s|
    ensures Distinct(s[..n])
  {
  }

  /** Every item a prefix leaves out scores at least as high as every item it keeps. */
  lemma PrefixLowestAgainstRest<T>(s: seq<T>, n: nat, score: T -> int)
    requires SortedByScore(s, score) && n <= |s|
    ensures forall t, i :: t in s && t !in s[..n] && 0 <= i < n ==> score(s[i]) <= score(t)
  {
    forall t, i | t in s && t !in s[..n] && 0 <= i < n ensures score(s[i]) <= score(t) {
      var k :| 0 <= k < |s| && s[k] == t;
    }
  }

  /**
   * Sorting then slicing keeps items of the input only, never more often than
   * there, in ascending score, without repeats when the input has none, and
   * every item left out scores at least as high as every item kept. Among
   * items of one score, the kept ones are the first of the input, in input
   * order (`<=` on sequences is "is a prefix of").
   */
  lemma SortThenSlice<T(!new)>(s: seq<T>, end: int, score: T -> int)
    ensures var r := SliceTo(SortByScore(s, score), end);
      && multiset(r) <= multiset(s)
      && (forall y :: y in r ==> y in s)
      && SortedByScore(r, score)
      && (Distinct(s) ==> Distinct(r))
      && (forall t, i :: t in s && t !in r && 0 <= i < |r| ==> score(r[i]) <= score(t))
      && (forall v :: WithScore(r, score, v) <= WithScore(s, score, v))
  {
    var sorted := SortByScore(s, score);
    var r := SliceTo(sorted, end);
    assert r == sorted[..|r|];
    PrefixOfSorted(sorted, |r|, score);
    if Distinct(s) {
      SortDistinct(s, score);
      PrefixDistinct(sorted, |r|);
    }
    MembersOfSubMultiset(s, sorted);
    PrefixLowestAgainstRest(sorted, |r|, score);
    MembersOfSubMultiset(r, s);
    SliceStable(s, |r|, score);
  }

  /** A prefix of the sorted list keeps, per score, a prefix of the input's items. */
  lemma SliceStable<T(!new)>(s: seq<T>, n: nat, score: T -> int)
    requires n <= |s|
    ensures forall v :: WithScore(SortByScore(s, score)[..n], score, v) <= WithScore(s, score, v)
  {
    var sorted := SortByScore(s, score);
    forall v ensures WithScore(sorted[..n], score, v) <= WithScore(s, score, v) {
      assert sorted == sorted[..n] + sorted[n..];
      WithScoreAppend(sorted[..n], sorted[n..], score, v);
      SortStable(s, score, v);
    }
  }

  /** What a list holds no more often than another is all in the other. */
  lemma MembersOfSubMultiset<T>(a: seq<T>, b: seq<T>)
    requires multiset(a) <= multiset(b)
    ensures forall y :: y in a ==> y in b
  {
    forall y | y in a ensures y in b {
      assert y in multiset(a);
    }
  }
}
