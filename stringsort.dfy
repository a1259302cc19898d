/**
 * Go's ordering of strings and the sort.Strings the SDK calls on route
 * names and redis keys. Go compares strings byte by byte; on UTF-8 text
 * that is the order of the code points, which is what `Less` compares.
 */
module StringSort {

  /** Go's `a < b` on strings. */
  predicate Less(a: string, b: string)
    decreases |a|
  {
    if a == [] then b != []
    else if b == [] then false
    else if a[0] != b[0] then a[0] < b[0]
    else Less(a[1..], b[1..])
  }

  lemma {:induction false} LessIrreflexive(a: string)
    ensures !Less(a, a)
    decreases |a|
  {
    if a != [] {
      LessIrreflexive(a[1..]);
    }
  }

  lemma {:induction false} LessTransitive(a: string, b: string, c: string)
    requires Less(a, b) && Less(b, c)
    ensures Less(a, c)
    decreases |a|
  {
    if a != [] && a[0] == b[0] && b[0] == c[0] {
      LessTransitive(a[1..], b[1..], c[1..]);
    }
  }

  /** Two different strings are ordered one way or the other, and only one way. */
  lemma {:induction false} LessTotal(a: string, b: string)
    ensures a != b ==> Less(a, b) || Less(b, a)
    ensures !(Less(a, b) && Less(b, a))
    decreases |a|
  {
    if a != [] && b != [] && a[0] == b[0] {
      LessTotal(a[1..], b[1..]);
      if a != b {
        assert a == [a[0]] + a[1..] && b == [b[0]] + b[1..];
      }
    }
  }

  /** A prefix comes before every longer string it starts. */
  lemma {:induction false} PrefixLess(a: string, b: string)
    requires |a| < |b| && b[..|a|] == a
    ensures Less(a, b)
    decreases |a|
  {
    if a != [] {
      assert b[1..][..|a| - 1] == a[1..];
      PrefixLess(a[1..], b[1..]);
    }
  }

  /** In order, equal neighbours allowed (sort.Strings' result). */
  predicate Sorted(s: seq<string>)
  {
    forall i, j :: 0 <= i < j < |s| ==> !Less(s[j], s[i])
  }

  /** In strictly increasing order: sorted and without repeats. */
  predicate StrictlySorted(s: seq<string>)
  {
    forall i, j :: 0 <= i < j < |s| ==> Less(s[i], s[j])
  }

  /** `x` put in front of the first element that is not smaller than it. */
  function Insert(s: seq<string>, x: string): (r: seq<string>)
    ensures multiset(r) == multiset(s) + multiset{x}
    ensures |r| == |s| + 1
  {
    if s == [] || !Less(s[0], x) then [x] + s
    else
      var r := [s[0]] + Insert(s[1..], x);
      assert s == [s[0]] + s[1..];
      r
  }

  lemma {:induction false} InsertSorted(s: seq<string>, x: string)
    requires Sorted(s)
    ensures Sorted(Insert(s, x))
    ensures Insert(s, x) != [] && (Insert(s, x)[0] == x || (s != [] && Insert(s, x)[0] == s[0]))
  {
    if s == [] {
    } else if !Less(s[0], x) {
      var r := [x] + s;
      forall i, j | 0 <= i < j < |r|
        ensures !Less(r[j], r[i])
      {
        if i == 0 {
          var y := r[j];
          assert y == s[j - 1];
          assert !Less(y, s[0]) by {
            if j == 1 {
              LessIrreflexive(y);
            }
          }
          if Less(y, x) {
            LessTotal(s[0], x);
            LessTotal(y, s[0]);
            if s[0] != x && y != s[0] {
              LessTransitive(x, s[0], y);
              LessTotal(x, y);
            }
          }
        }
      }
    } else {
      var t := Insert(s[1..], x);
      InsertSorted(s[1..], x);
      var r := [s[0]] + t;
      forall i, j | 0 <= i < j < |r|
        ensures !Less(r[j], r[i])
      {
        if i == 0 {
          if t[j - 1] == x {
            LessTotal(s[0], x);
          } else {
            assert t[j - 1] in multiset(s[1..]) by {
              assert t[j - 1] in multiset(t);
            }
            var k :| 0 <= k < |s[1..]| && s[1..][k] == t[j - 1];
            assert s[k + 1] == t[j - 1];
          }
        }
      }
    }
  }

  /** sort.Strings, as an insertion sort. */
  function Sort(s: seq<string>): (r: seq<string>)
    ensures multiset(r) == multiset(s) && |r| == |s|
  {
    if s == [] then []
    else
      assert s == s[..|s| - 1] + [s[|s| - 1]];
      Insert(Sort(s[..|s| - 1]), s[|s| - 1])
  }

  /** Sort orders its input. */
  lemma {:induction false} SortSorted(s: seq<string>)
    ensures Sorted(Sort(s))
  {
    if s != [] {
      SortSorted(s[..|s| - 1]);
      InsertSorted(Sort(s[..|s| - 1]), s[|s| - 1]);
    }
  }

  /** The first element of a sorted sequence is not larger than any of its elements. */
  lemma HeadIsLeast(a: seq<string>, x: string)
    requires Sorted(a) && x in multiset(a)
    ensures !Less(x, a[0])
  {
    var j :| 0 <= j < |a| && a[j] == x;
    if j == 0 {
      LessIrreflexive(x);
    }
  }

  lemma SortedTail(a: seq<string>)
    requires Sorted(a) && a != []
    ensures Sorted(a[1..])
  {
    forall i, j | 0 <= i < j < |a[1..]|
      ensures !Less(a[1..][j], a[1..][i])
    {
      assert a[1..][j] == a[j + 1] && a[1..][i] == a[i + 1];
    }
  }

  /** Sorting is determined by its input's elements: two sorted arrangements of the same strings agree. */
  lemma {:induction false} SortedUnique(a: seq<string>, b: seq<string>)
    requires Sorted(a) && Sorted(b) && multiset(a) == multiset(b)
    ensures a == b
    decreases |a|
  {
    assert |a| == |multiset(a)| == |b|;
    if a != [] {
      SortedHeadsEqual(a, b);
      SortedTail(a);
      SortedTail(b);
      SortedUnique(a[1..], b[1..]);
      HeadTailEqual(a, b);
    }
  }

  /** Two sorted arrangements of the same strings start alike, and what follows holds the same strings. */
  lemma SortedHeadsEqual(a: seq<string>, b: seq<string>)
    requires Sorted(a) && Sorted(b) && multiset(a) == multiset(b) && a != [] && b != []
    ensures a[0] == b[0] && multiset(a[1..]) == multiset(b[1..])
  {
    assert a[0] in multiset(b) && b[0] in multiset(a);
    HeadIsLeast(a, b[0]);
    HeadIsLeast(b, a[0]);
    LessTotal(a[0], b[0]);
    MultisetTail(a);
    MultisetTail(b);
  }

  /** Dropping the first element drops one copy of it. */
  lemma MultisetTail<T>(a: seq<T>)
    requires a != []
    ensures multiset(a[1..]) == multiset(a) - multiset{a[0]}
  {
    assert a == [a[0]] + a[1..];
  }

  /** Equal heads and equal tails make equal sequences. */
  lemma HeadTailEqual<T>(a: seq<T>, b: seq<T>)
    requires a != [] && b != [] && a[0] == b[0] && a[1..] == b[1..]
    ensures a == b
  {
    assert a == [a[0]] + a[1..];
    assert b == [b[0]] + b[1..];
  }

  /** Sorting a sorted sequence leaves it as it is. */
  lemma SortOfSorted(s: seq<string>)
    requires Sorted(s)
    ensures Sort(s) == s
  {
    SortSorted(s);
    SortedUnique(Sort(s), s);
  }

  function Reverse(s: seq<string>): (r: seq<string>)
    ensures |r| == |s| && forall k :: 0 <= k < |s| ==> r[k] == s[|s| - 1 - k]
  {
    if s == [] then [] else [s[|s| - 1]] + Reverse(s[..|s| - 1])
  }

  lemma {:induction false} ReverseMultiset(s: seq<string>)
    ensures multiset(Reverse(s)) == multiset(s)
  {
    if s != [] {
      ReverseMultiset(s[..|s| - 1]);
      assert s == s[..|s| - 1] + [s[|s| - 1]];
    }
  }

  /** sort.Sort(sort.Reverse(sort.StringSlice(s))): the same strings, largest first. */
  function SortDescending(s: seq<string>): (r: seq<string>)
    ensures |r| == |s|
  {
    Reverse(Sort(s))
  }

  lemma SortDescendingSpec(s: seq<string>)
    ensures multiset(SortDescending(s)) == multiset(s)
    ensures forall i, j :: 0 <= i < j < |s| ==> !Less(SortDescending(s)[i], SortDescending(s)[j])
  {
    SortSorted(s);
    ReverseMultiset(Sort(s));
  }

  /**
   * Each run of equal neighbours kept once: an element is kept unless it
   * equals the one before it.
   */
  function Dedup(s: seq<string>): (r: seq<string>)
    ensures |r| <= |s|
    ensures forall x :: x in r <==> x in s
  {
    if |s| <= 1 then s
    else
      var n := |s|;
      var init := s[..n - 1];
      assert s == init + [s[n - 1]];
      Dedup(init) + (if s[n - 1] == s[n - 2] then [] else [s[n - 1]])
  }

  /** Dedup of the first i + 1 elements: that of the first i, and element i unless it repeats its neighbour. */
  lemma DedupStep(s: seq<string>, i: int)
    requires 0 <= i < |s|
    ensures Dedup(s[..i + 1]) == Dedup(s[..i]) + (if i > 0 && s[i] == s[i - 1] then [] else [s[i]])
  {
    assert s[..i + 1][..i] == s[..i];
  }

  /** Dedup of a sorted sequence is strictly increasing and ends with the same element. */
  lemma {:induction false} DedupStrict(s: seq<string>)
    requires Sorted(s)
    ensures StrictlySorted(Dedup(s))
    ensures s != [] ==> Dedup(s) != [] && Dedup(s)[|Dedup(s)| - 1] == s[|s| - 1]
  {
    if |s| > 1 {
      var n := |s|;
      var init := s[..n - 1];
      assert Sorted(init);
      DedupStrict(init);
      var t := Dedup(init);
      if s[n - 1] != s[n - 2] {
        var r := t + [s[n - 1]];
        assert !Less(s[n - 1], s[n - 2]);
        LessTotal(s[n - 2], s[n - 1]);
        forall i, j | 0 <= i < j < |r|
          ensures Less(r[i], r[j])
        {
          if j == |r| - 1 && i < |t| - 1 {
            LessTransitive(t[i], t[|t| - 1], s[n - 1]);
          }
        }
      }
    }
  }
}
