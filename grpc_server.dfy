/**
 * The gRPC server service of sgrpc/grpc.go: the defaults New fills in, and
 * the route configuration fixSvcConfig derives from the names of the gRPC
 * services registered on the server, for the gateway to route by.
 * The server itself, its listener and the tracing exporters are not part
 * of this model.
 */
module GrpcServer {
  import opened Wrappers
  import opened GoStrings
  import opened GoRegexp
  import opened StringSort
  import opened GrpcUtil
  import opened ConsulSd

  /** One second, in nanoseconds (time.Duration). */
  const Second := 1_000_000_000

  /**
   * The fields of GrpcConfig this model keeps; `hasApp` says whether App is
   * set and `appIsSdk` whether it holds an sdms.SdkApplication.
   */
  datatype GrpcConfig = GrpcConfig(serviceName: string, hasApp: bool, appIsSdk: bool, defaultPort: int, stopTimeout: int,
                                   noRegRoute: bool, svcConfig: ServiceConfig)

  /** The panic of the type assertion `cfg.App.(sdms.SdkApplication)`, as an error. */
  const AppAssertionPanic := "interface conversion: App is not sdms.SdkApplication"

  /**
   * New: a missing service name or app is fatal, and an App that is not an
   * SdkApplication panics at the type assertion that fetches the logger;
   * otherwise a zero port becomes 10000 and a zero timeout 3s.
   */
  function New(cfg: GrpcConfig): (r: Result<GrpcConfig, string>)
    ensures cfg.serviceName == "" <==> r == Err("ServiceName is required")
    ensures cfg.serviceName != "" && !cfg.hasApp <==> r == Err("Invalid app")
    ensures cfg.serviceName != "" && cfg.hasApp && !cfg.appIsSdk <==> r == Err(AppAssertionPanic)
    ensures r.Ok? <==> cfg.serviceName != "" && cfg.hasApp && cfg.appIsSdk
    ensures r.Ok? ==> r.value.serviceName == cfg.serviceName && r.value.svcConfig == cfg.svcConfig
                      && r.value.noRegRoute == cfg.noRegRoute && r.value.hasApp && r.value.appIsSdk
    ensures r.Ok? ==> r.value.defaultPort != 0 && r.value.stopTimeout != 0
    ensures r.Ok? && cfg.defaultPort != 0 ==> r.value.defaultPort == cfg.defaultPort
    ensures r.Ok? && cfg.stopTimeout != 0 ==> r.value.stopTimeout == cfg.stopTimeout
  {
    if cfg.serviceName == "" then Err("ServiceName is required")
    else if !cfg.hasApp then Err("Invalid app")
    else if !cfg.appIsSdk then Err(AppAssertionPanic)
    else
      var port := if cfg.defaultPort == 0 then 10000 else cfg.defaultPort;
      var timeout := if cfg.stopTimeout == 0 then 3 * Second else cfg.stopTimeout;
      Ok(cfg.(defaultPort := port, stopTimeout := timeout))
  }

  /** An unset port and timeout get 10000 and three seconds. */
  lemma NewDefaults(cfg: GrpcConfig)
    requires cfg.serviceName != "" && cfg.hasApp && cfg.appIsSdk && cfg.defaultPort == 0 && cfg.stopTimeout == 0
    ensures New(cfg) == Ok(cfg.(defaultPort := 10000, stopTimeout := 3 * Second))
  {
  }

  /** The characters of `x` after its first `n`. */
  function Rest(x: string, n: nat): string
  {
    if n <= |x| then x[n..] else ""
  }

  /** The quoted remainders of the keys after their first `n` characters, in the keys' order. */
  function Suffixes(keys: seq<string>, n: nat): (r: seq<string>)
    ensures |r| == |keys| && forall k :: 0 <= k < |keys| ==> r[k] == QuoteMeta(Rest(keys[k], n))
  {
    if keys == [] then [] else [QuoteMeta(Rest(keys[0], n))] + Suffixes(keys[1..], n)
  }

  lemma {:induction false} SuffixesAppend(a: seq<string>, b: seq<string>, n: nat)
    ensures Suffixes(a + b, n) == Suffixes(a, n) + Suffixes(b, n)
  {
    var l, sa, sb := Suffixes(a + b, n), Suffixes(a, n), Suffixes(b, n);
    forall k | 0 <= k < |l|
      ensures l[k] == (sa + sb)[k]
    {
      if k < |a| {
        assert l[k] == QuoteMeta(Rest(a[k], n)) == sa[k];
      } else {
        assert l[k] == QuoteMeta(Rest(b[k - |a|], n)) == sb[k - |a|];
      }
    }
  }

  lemma RemoveOne(b: seq<string>, j: int)
    requires 0 <= j < |b|
    ensures b == b[..j] + [b[j]] + b[j + 1..]
    ensures multiset(b[..j] + b[j + 1..]) == multiset(b) - multiset{b[j]}
  {
    assert b == b[..j] + [b[j]] + b[j + 1..];
  }

  /** Taking key j out takes its remainder out. */
  lemma SuffixesSplice(b: seq<string>, j: int, n: nat)
    requires 0 <= j < |b|
    ensures multiset(Suffixes(b, n)) == multiset{QuoteMeta(Rest(b[j], n))} + multiset(Suffixes(b[..j] + b[j + 1..], n))
  {
    var b1, x, b2 := b[..j], b[j], b[j + 1..];
    RemoveOne(b, j);
    var q, s1, s2 := [QuoteMeta(Rest(x, n))], Suffixes(b1, n), Suffixes(b2, n);
    SuffixesAppend(b1, b2, n);
    SuffixesAppend(b1, [x], n);
    SuffixesAppend(b1 + [x], b2, n);
    assert Suffixes([x], n) == q by {
      assert [x][1..] == [];
    }
    assert Suffixes(b, n) == s1 + q + s2;
  }

  /** The remainders do not depend on the order of the keys. */
  lemma {:induction false} SuffixesReordered(a: seq<string>, b: seq<string>, n: nat)
    requires multiset(a) == multiset(b)
    ensures multiset(Suffixes(a, n)) == multiset(Suffixes(b, n))
    decreases |a|
  {
    if a != [] {
      var x := a[0];
      assert x in multiset(b);
      var j :| 0 <= j < |b| && b[j] == x;
      var rest := b[..j] + b[j + 1..];
      assert multiset(a[1..]) == multiset(rest) by {
        RemoveOne(b, j);
        MultisetTail(a);
      }
      SuffixesReordered(a[1..], rest, n);
      SuffixesSplice(b, j, n);
      assert Suffixes(a, n) == [QuoteMeta(Rest(x, n))] + Suffixes(a[1..], n);
    } else {
      assert |b| == |multiset(b)| == 0;
    }
  }

  /**
   * The regex for several services: "/", the quoted common start of their
   * names, then the quoted remainders, sorted, as alternatives, then ")/.*".
   */
  function RouteRegex(keys: seq<string>, r: int): string
    requires 0 < |keys| && -1 <= r < |keys[0]|
  {
    "/" + QuoteMeta(keys[0][..r + 1]) + "(" + Join(Sort(Suffixes(keys, r + 1)), "|") + ")/.*"
  }

  /** The service names come from a map: the regex is the same whatever order they arrive in. */
  lemma RouteRegexOrderFree(a: seq<string>, b: seq<string>, ra: int, rb: int)
    requires |a| >= 2 && multiset(a) == multiset(b)
    requires IsLastCommon(a, ra)
    requires |b| >= 2 && IsLastCommon(b, rb)
    ensures RouteRegex(a, ra) == RouteRegex(b, rb)
  {
    assert ra == rb && a[0][..ra + 1] == b[0][..rb + 1] by {
      LastCommonOrderFree(a, b, ra, rb);
    }
    SortedReordered(Suffixes(a, ra + 1), Suffixes(b, ra + 1)) by {
      SuffixesReordered(a, b, ra + 1);
    }
  }

  /** Sorting forgets the order: reorderings sort alike. */
  lemma SortedReordered(s: seq<string>, t: seq<string>)
    requires multiset(s) == multiset(t)
    ensures Sort(s) == Sort(t)
  {
    SortSorted(s);
    SortSorted(t);
    SortedUnique(Sort(s), Sort(t));
  }

  /** Every name is the common start followed by its own remainder, which the regex lists quoted. */
  lemma RouteRegexCoversNames(keys: seq<string>, r: int)
    requires |keys| >= 2 && IsLastCommon(keys, r)
    ensures SharePrefix(keys, r + 1)
    ensures forall k :: 0 <= k < |keys| ==>
              keys[k] == keys[0][..r + 1] + Rest(keys[k], r + 1) && QuoteMeta(Rest(keys[k], r + 1)) in Sort(Suffixes(keys, r + 1))
  {
    LastCommonShares(keys, r);
    forall k | 0 <= k < |keys|
      ensures keys[k] == keys[0][..r + 1] + Rest(keys[k], r + 1)
      ensures QuoteMeta(Rest(keys[k], r + 1)) in Sort(Suffixes(keys, r + 1))
    {
      CoversKey(keys, r + 1, k);
    }
  }

  /** One key: the shared start followed by its remainder, whose quoted form is among the sorted remainders. */
  lemma CoversKey(keys: seq<string>, n: nat, k: int)
    requires 0 < |keys| && SharePrefix(keys, n) && 0 <= k < |keys|
    ensures keys[k] == keys[0][..n] + Rest(keys[k], n)
    ensures QuoteMeta(Rest(keys[k], n)) in Sort(Suffixes(keys, n))
  {
    var x := keys[k];
    assert x == keys[0][..n] + Rest(x, n) by {
      assert x in keys;
      assert x == x[..n] + x[n..];
    }
    var s := Suffixes(keys, n);
    assert QuoteMeta(Rest(x, n)) in Sort(s) by {
      assert s[k] == QuoteMeta(Rest(x, n));
      assert s[k] in multiset(Sort(s));
    }
  }

  /**
   * fixSvcConfig: the name and the "grpc" protocol are always set; a prefix
   * or regex already there is kept; otherwise the registered service names,
   * in the map order `keys` gives, decide it: none is fatal, one gives the
   * prefix "/<name>/", several give RouteRegex.
   */
  method FixSvcConfig(sr: ServiceConfig, serviceName: string, keys: seq<string>)
    returns (r: Result<ServiceConfig, string>)
    ensures var named := sr.(name := serviceName, protocol := "grpc");
            && (sr.prefix != "" || sr.regex != "" ==> r == Ok(named))
            && (sr.prefix == "" && sr.regex == "" && |keys| == 0 ==> r == Err("No grpc service has been registered"))
            && (sr.prefix == "" && sr.regex == "" && |keys| == 1 ==> r == Ok(named.(prefix := "/" + keys[0] + "/")))
            && (sr.prefix == "" && sr.regex == "" && |keys| >= 2 ==>
                  exists idx :: IsLastCommon(keys, idx)
                                && r == Ok(named.(regex := RouteRegex(keys, idx))))
  {
    var cfg := sr.(name := serviceName, protocol := "grpc");
    if cfg.prefix != "" || cfg.regex != "" {
      return Ok(cfg);
    }
    if |keys| == 0 {
      return Err("No grpc service has been registered");
    }
    if |keys| == 1 {
      return Ok(cfg.(prefix := "/" + keys[0] + "/"));
    }
    var idx := FindCommonPrefix(keys);
    assert SharePrefix(keys, idx + 1) by {
      LastCommonShares(keys, idx);
    }
    var regex := "/" + QuoteMeta(keys[0][..idx + 1]) + "(";
    var ks := QuoteRemainders(keys, idx + 1);
    ks := Sort(ks);
    regex := regex + Join(ks, "|") + ")/.*";
    return Ok(cfg.(regex := regex));
  }

  /** The loop of fixSvcConfig rewriting each key, in place, to its quoted remainder after the common start. */
  method QuoteRemainders(keys: seq<string>, n: nat) returns (ks: seq<string>)
    requires forall x :: x in keys ==> n <= |x|
    ensures ks == Suffixes(keys, n)
  {
    ks := keys;
    var i := 0;
    while i < |ks|
      invariant 0 <= i <= |ks| && |ks| == |keys|
      invariant forall k :: 0 <= k < i ==> ks[k] == QuoteMeta(Rest(keys[k], n))
      invariant forall k :: i <= k < |ks| ==> ks[k] == keys[k]
    {
      assert keys[i] in keys;
      ks := ks[i := QuoteMeta(ks[i][n..])];
      i := i + 1;
    }
  }
}
