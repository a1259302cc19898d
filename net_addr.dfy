/**
 * formatBindAddr, written identically in sgrpc/grpc.go and sgin/gin.go: the
 * listen address "host:port", with an IPv6 host put in brackets.
 */
module NetAddr {
  import opened GoStrings

  /** The host as it appears before ":port": bracketed when it holds ':' and no '['. */
  function BracketHost(s: string): (h: string)
    ensures Contains(s, ":") && !Contains(s, "[") ==> h == "[" + s + "]"
    ensures !(Contains(s, ":") && !Contains(s, "[")) ==> h == s
  {
    if Contains(s, ":") && !Contains(s, "[") then "[" + s + "]" else s
  }

  /** formatBindAddr: `fmt.Sprintf("%s:%d", host, port)` with the host bracketed as above. */
  function FormatBindAddr(s: string, p: int): (r: string)
    ensures r == BracketHost(s) + ":" + FormatInt(p)
  {
    BracketHost(s) + ":" + FormatInt(p)
  }

  /** The position of the last ':' in `s`, or -1. */
  function LastColon(s: string): (i: int)
    ensures -1 <= i < |s|
    ensures i >= 0 ==> s[i] == ':' && ':' !in s[i + 1..]
    ensures i == -1 ==> ':' !in s
  {
    if s == [] then -1
    else if s[|s| - 1] == ':' then |s| - 1
    else
      var i := LastColon(s[..|s| - 1]);
      assert i >= 0 ==> s[i + 1..] == s[..|s| - 1][i + 1..] + [s[|s| - 1]];
      i
  }

  /**
   * Reading a listen address back as net.SplitHostPort does: the port is the
   * text after the last ':', and the host loses its brackets.
   */
  function SplitHostPort(a: string): (r: (string, string))
  {
    var i := LastColon(a);
    if i < 0 then (a, "")
    else
      var host := a[..i];
      if |host| >= 2 && host[0] == '[' && host[|host| - 1] == ']' then (host[1..|host| - 1], a[i + 1..])
      else (host, a[i + 1..])
  }

  lemma FormatIntNoColon(p: int)
    ensures ':' !in FormatInt(p)
  {
    var d := FormatUint(if p < 0 then -p else p);
    assert forall k :: 0 <= k < |d| ==> IsDigit(d[k]);
    if p < 0 {
      assert FormatInt(p) == "-" + d;
      assert forall k :: 0 <= k < |FormatInt(p)| ==> FormatInt(p)[k] == '-' || IsDigit(FormatInt(p)[k]);
    }
  }

  /**
   * The address formatBindAddr writes splits back into the host and port it
   * was given, for a host without brackets of its own.
   */
  lemma SplitFormatBindAddr(s: string, p: int)
    requires '[' !in s && ']' !in s
    ensures SplitHostPort(FormatBindAddr(s, p)) == (s, FormatInt(p))
  {
    var h := BracketHost(s);
    var port := FormatInt(p);
    var a := h + ":" + port;
    FormatIntNoColon(p);
    assert a[|h|] == ':';
    assert a[|h| + 1..] == port;
    assert LastColon(a) == |h|;
    assert a[..|h|] == h;
    ContainsChar(s, ':');
    ContainsChar(s, '[');
    if Contains(s, ":") && !Contains(s, "[") {
      assert h[1..|h| - 1] == s;
    } else if |h| >= 2 {
      assert h[0] in s;
    }
  }
}
