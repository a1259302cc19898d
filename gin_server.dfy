/**
 * The gin HTTP server service of sgin/gin.go: the defaults New fills in,
 * and the route configuration fixSvcConfig derives from the paths of the
 * registered handlers, for the gateway to route by. The HTTP server, the
 * gin engine and its middleware are not part of this model.
 */
module GinServer {
  import opened Wrappers
  import opened GoStrings
  import opened GoRegexp
  import opened StringSort
  import opened ConsulSd

  /** One second, in nanoseconds (time.Duration). */
  const Second := 1_000_000_000

  /**
   * The fields of Config this model keeps; `hasApp` says whether App holds
   * an sdms.SdkApplication, which New asserts it does.
   */
  datatype GinConfig = GinConfig(serviceName: string, hasApp: bool, defaultPort: int, stopTimeout: int,
                                 noRegRoute: bool, svcConfig: ServiceConfig)

  /** The panic of New's type assertion on App, as an error. */
  const AppAssertionPanic := "interface conversion: App is not sdms.SdkApplication"

  /**
   * New: a missing service name is an error; a zero port becomes 3000 and a
   * zero timeout 3s; an App that is not an SdkApplication panics.
   */
  function New(cfg: GinConfig): (r: Result<GinConfig, string>)
    ensures cfg.serviceName == "" <==> r == Err("ServiceName is required")
    ensures cfg.serviceName != "" && !cfg.hasApp <==> r == Err(AppAssertionPanic)
    ensures r.Ok? ==> r.value.serviceName == cfg.serviceName && r.value.svcConfig == cfg.svcConfig
                      && r.value.noRegRoute == cfg.noRegRoute && r.value.hasApp
    ensures r.Ok? ==> r.value.defaultPort != 0 && r.value.stopTimeout != 0
    ensures r.Ok? && cfg.defaultPort != 0 ==> r.value.defaultPort == cfg.defaultPort
    ensures r.Ok? && cfg.stopTimeout != 0 ==> r.value.stopTimeout == cfg.stopTimeout
  {
    if cfg.serviceName == "" then Err("ServiceName is required")
    else if !cfg.hasApp then Err(AppAssertionPanic)
    else
      var port := if cfg.defaultPort == 0 then 3000 else cfg.defaultPort;
      var timeout := if cfg.stopTimeout == 0 then 3 * Second else cfg.stopTimeout;
      Ok(cfg.(defaultPort := port, stopTimeout := timeout))
  }

  /** An unset port and timeout get 3000 and three seconds. */
  lemma NewDefaults(cfg: GinConfig)
    requires cfg.serviceName != "" && cfg.hasApp && cfg.defaultPort == 0 && cfg.stopTimeout == 0
    ensures New(cfg) == Ok(cfg.(defaultPort := 3000, stopTimeout := 3 * Second))
  {
  }

  /** \w: an ASCII letter, digit or underscore. */
  predicate IsWordChar(c: char)
  {
    'a' <= c <= 'z' || 'A' <= c <= 'Z' || '0' <= c <= '9' || c == '_'
  }

  /** The length of the run of word characters `s` starts with (what \w+ matches, greedily). */
  function WordLen(s: string): (n: nat)
    ensures n <= |s|
    ensures forall k :: 0 <= k < n ==> IsWordChar(s[k])
    ensures n < |s| ==> !IsWordChar(s[n])
  {
    if s != [] && IsWordChar(s[0]) then 1 + WordLen(s[1..]) else 0
  }

  /** ReplaceAllString of `:\w+` by `[^/]*`: each named parameter matches one path segment. */
  function ReplaceParams(s: string): string
    decreases |s|
  {
    if s == [] then []
    else if s[0] == ':' && WordLen(s[1..]) > 0 then "[^/]*" + ReplaceParams(s[1 + WordLen(s[1..])..])
    else [s[0]] + ReplaceParams(s[1..])
  }

  /** ReplaceAllString of `/\\\*\w+` by `.*`: a quoted catch-all parameter, with its slash, matches anything. */
  function ReplaceWildcards(s: string): string
    decreases |s|
  {
    if s == [] then []
    else if |s| >= 3 && s[0] == '/' && s[1] == '\\' && s[2] == '*' && WordLen(s[3..]) > 0 then
      ".*" + ReplaceWildcards(s[3 + WordLen(s[3..])..])
    else [s[0]] + ReplaceWildcards(s[1..])
  }

  /** The regex a route path becomes: quoted, then its parameters replaced. */
  function RoutePattern(path: string): string
  {
    ReplaceWildcards(ReplaceParams(QuoteMeta(path)))
  }

  lemma {:induction false} ReplaceParamsNone(s: string)
    requires ':' !in s
    ensures ReplaceParams(s) == s
  {
    if s != [] {
      assert s[0] != ':';
      ReplaceParamsNone(s[1..]);
      assert s == [s[0]] + s[1..];
    }
  }

  lemma {:induction false} ReplaceWildcardsNone(s: string)
    requires '*' !in s || '\\' !in s
    ensures ReplaceWildcards(s) == s
  {
    if s != [] {
      if |s| >= 3 {
        assert s[2] != '*' || s[1] != '\\';
      }
      ReplaceWildcardsNone(s[1..]);
      assert s == [s[0]] + s[1..];
    }
  }

  /** Quoting adds only backslashes. */
  lemma {:induction false} QuoteMetaAdds(s: string, c: char)
    requires c != '\\' && c !in s
    ensures c !in QuoteMeta(s)
  {
    if s != [] {
      assert s[0] != c;
      QuoteMetaAdds(s[1..], c);
    }
  }

  /** A path without parameters is routed as its quoted text. */
  lemma RoutePatternPlain(path: string)
    requires ':' !in path && '*' !in path
    ensures RoutePattern(path) == QuoteMeta(path)
  {
    QuoteMetaAdds(path, ':');
    QuoteMetaAdds(path, '*');
    ReplaceParamsNone(QuoteMeta(path));
    ReplaceWildcardsNone(QuoteMeta(path));
  }

  lemma QuoteParam()
    ensures QuoteMeta(":id") == ":id"
  {
    QuoteMetaChar(':');
    QuoteMetaChar('i');
    QuoteMetaChar('d');
    QuoteMetaAppend([':'], ['i']);
    QuoteMetaAppend([':', 'i'], ['d']);
    assert ":id" == [':', 'i'] + ['d'];
  }

  lemma ReplaceParamExample()
    ensures ReplaceParams(":id") == "[^/]*"
  {
    var p := ":id";
    assert WordLen(p[1..]) == 2 by {
      assert "id"[1..] == "d" && "d"[1..] == "";
    }
    assert p[3..] == "";
  }

  /** A named parameter, ":id", is routed as "[^/]*", which matches one path segment. */
  lemma RouteParamExample()
    ensures RoutePattern(":id") == "[^/]*"
  {
    QuoteParam();
    ReplaceParamExample();
    ReplaceWildcardsNone("[^/]*");
  }

  lemma QuoteWildcard()
    ensures QuoteMeta("/*f") == "/\\*f"
  {
    QuoteMetaChar('/');
    QuoteMetaChar('*');
    QuoteMetaChar('f');
    QuoteMetaAppend(['/'], ['*']);
    QuoteMetaAppend(['/', '*'], ['f']);
    assert "/*f" == ['/', '*'] + ['f'];
  }

  lemma ReplaceWildcardExample()
    ensures ReplaceWildcards("/\\*f") == ".*"
  {
    var q := "/\\*f";
    assert WordLen(q[3..]) == 1 by {
      assert q[3..] == "f" && "f"[1..] == "";
    }
    assert q[4..] == "";
  }

  /** A catch-all parameter, a slash followed by "*f", is routed as ".*", which matches anything. */
  lemma RouteWildcardExample()
    ensures RoutePattern("/*f") == ".*"
  {
    QuoteWildcard();
    ReplaceParamsNone("/\\*f");
    ReplaceWildcardExample();
  }

  /** The route patterns of the paths, in order. */
  function RoutePatterns(paths: seq<string>): (r: seq<string>)
    ensures |r| == |paths| && forall k :: 0 <= k < |paths| ==> r[k] == RoutePattern(paths[k])
  {
    if paths == [] then [] else RoutePatterns(paths[..|paths| - 1]) + [RoutePattern(paths[|paths| - 1])]
  }

  /** The alternation of several routes: sorted, repeats dropped, joined by "|", in parentheses. */
  function Alternation(routes: seq<string>): string
  {
    "(" + Join(Dedup(Sort(routes)), "|") + ")"
  }

  /** Each alternative preceded by "|", as the loop of fixSvcConfig builds it. */
  function Bars(xs: seq<string>): string
  {
    if xs == [] then "" else Bars(xs[..|xs| - 1]) + "|" + xs[|xs| - 1]
  }

  lemma BarsSnoc(xs: seq<string>, x: string)
    ensures Bars(xs + [x]) == Bars(xs) + "|" + x
  {
    assert (xs + [x])[..|xs|] == xs;
  }

  lemma {:induction false} BarsJoin(xs: seq<string>)
    requires xs != []
    ensures Bars(xs) == "|" + Join(xs, "|")
    decreases |xs|
  {
    var n := |xs|;
    if n > 1 {
      var init := xs[..n - 1];
      BarsJoin(init);
      JoinSnoc(init, xs[n - 1], "|");
      assert init + [xs[n - 1]] == xs;
    } else {
      assert Join(xs, "|") == xs[0];
    }
  }

  /**
   * The alternatives are the routes, each once, in strictly increasing
   * order; and the alternation does not depend on the order of the routes.
   */
  lemma AlternationSpec(routes: seq<string>)
    ensures StrictlySorted(Dedup(Sort(routes)))
    ensures forall x :: x in Dedup(Sort(routes)) <==> x in routes
  {
    SortSorted(routes);
    DedupStrict(Sort(routes));
    assert forall x :: x in Sort(routes) <==> x in multiset(routes);
  }

  lemma AlternationOrderFree(a: seq<string>, b: seq<string>)
    requires multiset(a) == multiset(b)
    ensures Alternation(a) == Alternation(b)
  {
    SortSorted(a);
    SortSorted(b);
    SortedUnique(Sort(a), Sort(b));
  }

  /** The loop of fixSvcConfig turning each registered path into its route pattern. */
  method CollectRoutes(paths: seq<string>) returns (routes: seq<string>)
    ensures routes == RoutePatterns(paths)
  {
    routes := [];
    var i := 0;
    while i < |paths|
      invariant 0 <= i <= |paths|
      invariant routes == RoutePatterns(paths[..i])
    {
      assert paths[..i + 1][..i] == paths[..i];
      var route := QuoteMeta(paths[i]);
      route := ReplaceParams(route);
      route := ReplaceWildcards(route);
      routes := routes + [route];
      i := i + 1;
    }
    assert paths[..i] == paths;
  }

  /** The loop of fixSvcConfig over the sorted routes: each skipped when it repeats the one before. */
  method JoinDistinct(sorted: seq<string>) returns (regex: string)
    requires sorted != []
    ensures regex == "(" + Join(Dedup(sorted), "|") + ")"
  {
    regex := "";
    var idx := 0;
    while idx < |sorted|
      invariant 0 <= idx <= |sorted|
      invariant regex == Bars(Dedup(sorted[..idx]))
    {
      JoinStep(sorted, idx, regex);
      if idx > 0 && sorted[idx] == sorted[idx - 1] {
        idx := idx + 1;
        continue;
      }
      regex := regex + "|" + sorted[idx];
      idx := idx + 1;
    }
    JoinEnd(sorted, idx, regex);
    regex := "(" + regex[1..] + ")";
  }

  /** One turn of the loop of JoinDistinct keeps its invariant. */
  lemma JoinStep(sorted: seq<string>, idx: int, regex: string)
    requires 0 <= idx < |sorted| && regex == Bars(Dedup(sorted[..idx]))
    ensures idx > 0 && sorted[idx] == sorted[idx - 1] ==> regex == Bars(Dedup(sorted[..idx + 1]))
    ensures !(idx > 0 && sorted[idx] == sorted[idx - 1]) ==> regex + "|" + sorted[idx] == Bars(Dedup(sorted[..idx + 1]))
  {
    DedupStep(sorted, idx);
    var d := Dedup(sorted[..idx]);
    if idx > 0 && sorted[idx] == sorted[idx - 1] {
      assert d + [] == d;
    } else {
      BarsSnoc(d, sorted[idx]);
    }
  }

  /** After the loop of JoinDistinct, dropping the leading bar and adding the parentheses gives the alternation. */
  lemma JoinEnd(sorted: seq<string>, idx: int, regex: string)
    requires sorted != [] && idx == |sorted| && regex == Bars(Dedup(sorted[..idx]))
    ensures |regex| >= 1 && "(" + regex[1..] + ")" == "(" + Join(Dedup(sorted), "|") + ")"
  {
    assert sorted[..idx] == sorted;
    var ds := Dedup(sorted);
    assert ds != [] by {
      assert sorted[0] in sorted;
    }
    BarsJoin(ds);
  }

  /**
   * fixSvcConfig: the name is always set, and the protocol becomes "http2"
   * when it is unset and both TLS files are given; a prefix or regex already
   * there is kept; otherwise the registered paths decide it: none is fatal,
   * one gives its pattern as the prefix, several give the Alternation of
   * their patterns as the regex.
   */
  method FixSvcConfig(sr: ServiceConfig, serviceName: string, keyFile: string, certFile: string,
                      paths: seq<string>)
    returns (r: Result<ServiceConfig, string>)
    ensures var protocol := if sr.protocol == "" && keyFile != "" && certFile != "" then "http2" else sr.protocol;
            var named := sr.(name := serviceName, protocol := protocol);
            && (sr.prefix != "" || sr.regex != "" ==> r == Ok(named))
            && (sr.prefix == "" && sr.regex == "" && |paths| == 0 ==> r == Err("No gin handler has been registered"))
            && (sr.prefix == "" && sr.regex == "" && |paths| == 1 ==> r == Ok(named.(prefix := RoutePattern(paths[0]))))
            && (sr.prefix == "" && sr.regex == "" && |paths| >= 2 ==>
                  r == Ok(named.(regex := Alternation(RoutePatterns(paths)))))
  {
    var cfg := sr.(name := serviceName);
    if cfg.protocol == "" && keyFile != "" && certFile != "" {
      cfg := cfg.(protocol := "http2");
    }
    if cfg.prefix != "" || cfg.regex != "" {
      return Ok(cfg);
    }
    var routes := CollectRoutes(paths);
    if |routes| == 0 {
      return Err("No gin handler has been registered");
    } else if |routes| == 1 {
      return Ok(cfg.(prefix := routes[0]));
    }
    var sorted := Sort(routes);
    var regex := JoinDistinct(sorted);
    return Ok(cfg.(regex := regex));
  }
}
