/**
 * regexp.QuoteMeta, which the gRPC and gin servers use to turn service
 * names and route paths into literal regular-expression text.
 */
module GoRegexp {

  /** The characters regexp.QuoteMeta puts a backslash in front of. */
  predicate IsSpecial(c: char)
  {
    || c == '\\' || c == '.' || c == '+' || c == '*' || c == '?' || c == '(' || c == ')'
    || c == '|' || c == '[' || c == ']' || c == '{' || c == '}' || c == '^' || c == '$'
  }

  /** regexp.QuoteMeta: every special character escaped by a backslash, every other one kept. */
  function QuoteMeta(s: string): (r: string)
    ensures |r| >= |s|
    ensures s == [] <==> r == []
  {
    if s == [] then []
    else QuoteChar(s[0]) + QuoteMeta(s[1..])
  }

  /** One character as QuoteMeta writes it. */
  function QuoteChar(c: char): (r: string)
    ensures r == [c] || r == ['\\', c]
  {
    if IsSpecial(c) then ['\\', c] else [c]
  }

  /** Reading quoted text back: a backslash stands for the character after it. */
  function Unquote(s: string): (r: string)
    decreases |s|
  {
    if s == [] then []
    else if s[0] == '\\' && |s| > 1 then [s[1]] + Unquote(s[2..])
    else [s[0]] + Unquote(s[1..])
  }

  /** Quoting loses nothing: the text can be read back. */
  lemma {:induction false} UnquoteQuoteMeta(s: string)
    ensures Unquote(QuoteMeta(s)) == s
  {
    if s != [] {
      UnquoteQuoteMeta(s[1..]);
      var q := QuoteMeta(s);
      if IsSpecial(s[0]) {
        assert q[2..] == QuoteMeta(s[1..]);
      } else {
        assert q[1..] == QuoteMeta(s[1..]);
      }
      assert s == [s[0]] + s[1..];
    }
  }

  /** Different texts quote differently. */
  lemma QuoteMetaInjective(a: string, b: string)
    requires QuoteMeta(a) == QuoteMeta(b)
    ensures a == b
  {
    UnquoteQuoteMeta(a);
    UnquoteQuoteMeta(b);
  }

  /** Quoting a concatenation quotes each part. */
  lemma {:induction false} QuoteMetaAppend(a: string, b: string)
    ensures QuoteMeta(a + b) == QuoteMeta(a) + QuoteMeta(b)
  {
    if a != [] {
      assert (a + b)[0] == a[0] && (a + b)[1..] == a[1..] + b;
      QuoteMetaAppend(a[1..], b);
      var c := QuoteChar(a[0]);
      assert QuoteMeta(a + b) == c + QuoteMeta(a[1..] + b);
    } else {
      assert a + b == b;
    }
  }

  /** A single character is quoted as QuoteChar writes it. */
  lemma QuoteMetaChar(c: char)
    ensures QuoteMeta([c]) == QuoteChar(c)
  {
    assert [c][1..] == [];
  }

  /** Text without special characters is its own quotation. */
  lemma {:induction false} QuoteMetaPlain(s: string)
    requires forall k :: 0 <= k < |s| ==> !IsSpecial(s[k])
    ensures QuoteMeta(s) == s
  {
    if s != [] {
      QuoteMetaPlain(s[1..]);
      assert s == [s[0]] + s[1..];
    }
  }
}
