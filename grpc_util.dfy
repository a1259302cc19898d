/**
 * findCommonPrefix of sgrpc/util.go: the last position up to which every
 * key agrees with the first one, used to build the route regex of a gRPC
 * server with several services.
 *
 * The code as written indexes each later key at that position without
 * checking its length, so a later key that is shorter than the first one
 * and agrees with it all along makes it read past the end of that key, a
 * run-time panic in Go. `FindCommonPrefixAsWritten` models that and
 * `FindCommonPrefix` the evidently intended version, which stops there.
 */
module GrpcUtil {

  /** Key `j` reaches position `i` and has the first key's character there. */
  predicate KeyAgrees(keys: seq<string>, j: nat, i: nat)
    requires 0 < |keys| && j < |keys|
  {
    i < |keys[j]| && i < |keys[0]| && keys[j][i] == keys[0][i]
  }

  /** Every key reaches position `i` and agrees there with the first key. */
  predicate AgreeAt(keys: seq<string>, i: nat)
    requires 0 < |keys|
  {
    i < |keys[0]| && forall j :: 1 <= j < |keys| ==> KeyAgrees(keys, j, i)
  }

  predicate AgreeBelow(keys: seq<string>, n: nat)
    requires 0 < |keys|
  {
    forall i :: 0 <= i < n ==> AgreeAt(keys, i)
  }

  /**
   * `r` is the last position where all keys agree (-1 when they differ at
   * the start): all agree below r + 1, and at r + 1 the first key has ended
   * or some key disagrees.
   */
  predicate IsLastCommon(keys: seq<string>, r: int)
    requires 0 < |keys|
  {
    -1 <= r < |keys[0]| && AgreeBelow(keys, r + 1) && (r + 1 == |keys[0]| || !AgreeAt(keys, r + 1))
  }

  /** The first key from `from` on that does not agree at position `i`, or |keys|. */
  function FirstDisagreeing(keys: seq<string>, i: nat, from: nat): (j: nat)
    requires 0 < |keys| && from <= |keys|
    ensures from <= j <= |keys|
    ensures forall k :: from <= k < j ==> KeyAgrees(keys, k, i)
    ensures j < |keys| ==> !KeyAgrees(keys, j, i)
    decreases |keys| - from
  {
    if from == |keys| then from
    else if !KeyAgrees(keys, from, i) then from
    else FirstDisagreeing(keys, i, from + 1)
  }

  /**
   * The code as written reads out of range at position `i`: scanning the
   * later keys in order, the first one that does not agree there is one
   * that has already ended.
   */
  predicate PanicsAt(keys: seq<string>, i: nat)
    requires 0 < |keys|
  {
    i < |keys[0]| && FirstDisagreeing(keys, i, 1) < |keys| && |keys[FirstDisagreeing(keys, i, 1)]| <= i
  }

  /** findCommonPrefix with the length check the code leaves out. */
  method FindCommonPrefix(keys: seq<string>) returns (r: int)
    ensures |keys| == 0 ==> r == -1
    ensures |keys| == 1 ==> r == |keys[0]|
    ensures |keys| >= 2 ==> IsLastCommon(keys, r)
  {
    if |keys| == 0 {
      return -1;
    } else if |keys| == 1 {
      return |keys[0]|;
    }
    r := -1;
    var i := 0;
    var done := false;
    while i < |keys[0]| && !done
      invariant 0 <= i <= |keys[0]| && -1 <= r < i
      invariant AgreeBelow(keys, r + 1)
      invariant !done ==> r == i - 1
      invariant done ==> !AgreeAt(keys, r + 1)
      decreases |keys[0]| - i + (if done then 0 else 1)
    {
      var j := 1;
      while j < |keys| && !done
        invariant 1 <= j <= |keys|
        invariant forall k :: 1 <= k < j ==> KeyAgrees(keys, k, i)
        invariant done ==> j < |keys| && !KeyAgrees(keys, j, i)
        decreases |keys| - j + (if done then 0 else 1)
      {
        if i >= |keys[j]| || keys[0][i] != keys[j][i] {
          done := true;
        } else {
          j := j + 1;
        }
      }
      if !done {
        r := i;
        i := i + 1;
      }
    }
  }

  /**
   * findCommonPrefix as written: the same scan, but a later key that ends
   * before the first one is indexed anyway, which panics.
   */
  method FindCommonPrefixAsWritten(keys: seq<string>) returns (r: int, panics: bool)
    ensures |keys| == 0 ==> r == -1 && !panics
    ensures |keys| == 1 ==> r == |keys[0]| && !panics
    ensures |keys| >= 2 ==> IsLastCommon(keys, r) && (panics <==> PanicsAt(keys, r + 1))
  {
    panics := false;
    if |keys| == 0 {
      return -1, false;
    } else if |keys| == 1 {
      return |keys[0]|, false;
    }
    r := -1;
    var i := 0;
    var done := false;
    while i < |keys[0]| && !done
      invariant 0 <= i <= |keys[0]| && -1 <= r < i
      invariant AgreeBelow(keys, r + 1)
      invariant !done ==> r == i - 1 && !panics
      invariant done ==> !AgreeAt(keys, r + 1) && (panics <==> PanicsAt(keys, r + 1))
      decreases |keys[0]| - i + (if done then 0 else 1)
    {
      var j := 1;
      while j < |keys| && !done
        invariant 1 <= j <= |keys|
        invariant forall k :: 1 <= k < j ==> KeyAgrees(keys, k, i)
        invariant !done ==> !panics
        invariant done ==> j == FirstDisagreeing(keys, i, 1) && j < |keys|
        invariant done ==> (panics <==> |keys[j]| <= i)
        decreases |keys| - j + (if done then 0 else 1)
      {
        if i >= |keys[j]| {
          // keys[0][i] != k[i] indexes past the end of k
          panics := true;
          done := true;
          FirstDisagreeingAt(keys, i, j);
        } else if keys[0][i] != keys[j][i] {
          done := true;
          FirstDisagreeingAt(keys, i, j);
        } else {
          j := j + 1;
        }
      }
      if !done {
        r := i;
        i := i + 1;
      }
    }
    if !done {
      assert r + 1 == |keys[0]|;
      assert !PanicsAt(keys, r + 1);
    }
  }

  lemma {:induction false} FirstDisagreeingAt(keys: seq<string>, i: nat, j: nat)
    requires 1 <= j < |keys|
    requires forall k :: 1 <= k < j ==> KeyAgrees(keys, k, i)
    requires !KeyAgrees(keys, j, i)
    ensures FirstDisagreeing(keys, i, 1) == j
  {
    FirstFrom(keys, i, 1, j);
  }

  lemma {:induction false} FirstFrom(keys: seq<string>, i: nat, from: nat, j: nat)
    requires 1 <= from <= j < |keys|
    requires forall k :: from <= k < j ==> KeyAgrees(keys, k, i)
    requires !KeyAgrees(keys, j, i)
    ensures FirstDisagreeing(keys, i, from) == j
    decreases j - from
  {
    if from < j {
      FirstFrom(keys, i, from + 1, j);
    }
  }

  /** There is only one last common position. */
  lemma IsLastCommonUnique(keys: seq<string>, r1: int, r2: int)
    requires 0 < |keys| && IsLastCommon(keys, r1) && IsLastCommon(keys, r2)
    ensures r1 == r2
  {
  }

  /**
   * What the position means: the first key's first r + 1 characters start
   * every key, and no longer start of it does.
   */
  lemma LastCommonIsPrefix(keys: seq<string>, r: int)
    requires 0 < |keys| && IsLastCommon(keys, r)
    ensures forall j :: 0 <= j < |keys| ==> r + 1 <= |keys[j]| && keys[j][..r + 1] == keys[0][..r + 1]
    ensures r + 1 < |keys[0]| ==>
              exists j :: 1 <= j < |keys| && !(r + 2 <= |keys[j]| && keys[j][..r + 2] == keys[0][..r + 2])
  {
    forall j | 1 <= j < |keys|
      ensures r + 1 <= |keys[j]| && keys[j][..r + 1] == keys[0][..r + 1]
    {
      if r >= 0 {
        assert AgreeAt(keys, r);
        assert KeyAgrees(keys, j, r);
      }
      forall i | 0 <= i < r + 1
        ensures keys[j][i] == keys[0][i]
      {
        assert AgreeAt(keys, i);
        assert KeyAgrees(keys, j, i);
      }
    }
    if r + 1 < |keys[0]| {
      var j :| 1 <= j < |keys| && !KeyAgrees(keys, j, r + 1);
    }
  }

  /**
   * A later key that is a shorter start of the first key makes the code as
   * written panic: with two keys, the scan reaches the end of the second.
   */
  lemma ShorterKeyPanics(keys: seq<string>, r: int)
    requires |keys| == 2 && |keys[1]| < |keys[0]| && keys[1] == keys[0][..|keys[1]|]
    requires IsLastCommon(keys, r)
    ensures r + 1 == |keys[1]| && PanicsAt(keys, r + 1)
  {
    var n := |keys[1]|;
    assert AgreeBelow(keys, n) by {
      forall i | 0 <= i < n
        ensures AgreeAt(keys, i)
      {
        assert keys[1][i] == keys[0][..n][i];
      }
    }
    assert !KeyAgrees(keys, 1, n);
    IsLastCommonUnique(keys, r, n - 1);
  }

  /** The two keys "ab" and "a" are such an input. */
  lemma ShorterKeyExample(r: int)
    requires IsLastCommon(["ab", "a"], r)
    ensures r == 0 && PanicsAt(["ab", "a"], 1)
  {
    ShorterKeyPanics(["ab", "a"], r);
  }

  /** The corrected scan never reads past a key: it stops where the code as written would panic. */
  lemma CorrectedCoversPanic(keys: seq<string>, r: int)
    requires |keys| >= 2 && IsLastCommon(keys, r) && PanicsAt(keys, r + 1)
    ensures r + 1 < |keys[0]| && exists j :: 1 <= j < |keys| && |keys[j]| == r + 1
  {
    var j := FirstDisagreeing(keys, r + 1, 1);
    LastCommonIsPrefix(keys, r);
    assert |keys[j]| == r + 1;
  }

  /** Every key is at least `n` long and starts with the first key's first `n` characters. */
  predicate SharePrefix(keys: seq<string>, n: nat)
    requires 0 < |keys|
  {
    n <= |keys[0]| && forall x :: x in keys ==> n <= |x| && x[..n] == keys[0][..n]
  }

  /** The last common position marks the longest shared start. */
  lemma LastCommonShares(keys: seq<string>, r: int)
    requires 0 < |keys| && IsLastCommon(keys, r)
    ensures SharePrefix(keys, r + 1) && !SharePrefix(keys, r + 2)
  {
    LastCommonIsPrefix(keys, r);
    if r + 1 < |keys[0]| {
      var j :| 1 <= j < |keys| && !(r + 2 <= |keys[j]| && keys[j][..r + 2] == keys[0][..r + 2]);
      assert keys[j] in keys;
    }
  }

  /** A shared start is shared whatever the order of the keys. */
  lemma ShareReordered(a: seq<string>, b: seq<string>, n: nat)
    requires 0 < |a| && multiset(a) == multiset(b) && SharePrefix(a, n)
    ensures 0 < |b| && SharePrefix(b, n)
  {
    assert b[0] in multiset(a);
    assert b[0] in a;
    forall x | x in b
      ensures n <= |x| && x[..n] == b[0][..n]
    {
      assert x in multiset(a);
      assert x in a;
    }
  }

  /** A shorter start of a shared start is shared too. */
  lemma ShareShorter(keys: seq<string>, m: nat, n: nat)
    requires 0 < |keys| && n <= m && SharePrefix(keys, m)
    ensures SharePrefix(keys, n)
  {
    forall x | x in keys
      ensures n <= |x| && x[..n] == keys[0][..n]
    {
      assert x[..n] == x[..m][..n] && keys[0][..n] == keys[0][..m][..n];
    }
  }

  /**
   * The keys come from a map, in no set order: every order gives the same
   * last common position and the same shared start.
   */
  lemma LastCommonOrderFree(a: seq<string>, b: seq<string>, ra: int, rb: int)
    requires 0 < |a| && multiset(a) == multiset(b)
    requires IsLastCommon(a, ra)
    requires 0 < |b| && IsLastCommon(b, rb)
    ensures ra == rb && a[0][..ra + 1] == b[0][..rb + 1]
  {
    LastCommonShares(a, ra);
    LastCommonShares(b, rb);
    if ra < rb {
      ShareReordered(b, a, rb + 1);
      ShareShorter(a, rb + 1, ra + 2);
    } else if rb < ra {
      ShareReordered(a, b, ra + 1);
      ShareShorter(b, ra + 1, rb + 2);
    }
    ShareReordered(a, b, ra + 1);
    assert a[0] in multiset(b);
    assert a[0] in b;
  }
}
