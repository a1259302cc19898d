/**
 * The part of Go's `strings` and `strconv` packages that the SDK relies on.
 * Each function keeps Go's behaviour on the edge cases the SDK can reach:
 * empty input, a separator that does not occur, an empty separator, and
 * numbers that overflow uint64.
 */
module GoStrings {
  import opened Wrappers

  /** The largest value of Go's uint64. */
  const MaxUint64: nat := 0xFFFF_FFFF_FFFF_FFFF

  // ------------------------------------------------------------------
  // Searching

  /** `t` occurs in `s` starting at position `i`. */
  predicate OccursAt(s: string, t: string, i: nat)
  {
    i + |t| <= |s| && s[i..i + |t|] == t
  }

  function IndexFrom(s: string, t: string, i: nat): (r: int)
    requires i <= |s|
    ensures r == -1 || (i <= r <= |s| && OccursAt(s, t, r))
    ensures r == -1 ==> forall j :: i <= j <= |s| ==> !OccursAt(s, t, j)
    ensures r != -1 ==> forall j :: i <= j < r ==> !OccursAt(s, t, j)
    decreases |s| - i
  {
    if OccursAt(s, t, i) then i
    else if i == |s| then -1
    else IndexFrom(s, t, i + 1)
  }

  /** strings.Index: the first position where `t` occurs in `s`, or -1. */
  function IndexOf(s: string, t: string): (r: int)
    ensures r == -1 || (0 <= r <= |s| && OccursAt(s, t, r))
    ensures r == -1 ==> forall j :: 0 <= j <= |s| ==> !OccursAt(s, t, j)
    ensures r != -1 ==> forall j :: 0 <= j < r ==> !OccursAt(s, t, j)
  {
    IndexFrom(s, t, 0)
  }

  /** strings.Contains. */
  predicate Contains(s: string, t: string)
  {
    IndexOf(s, t) >= 0
  }

  /** An occurrence with none before it is the one strings.Index reports. */
  lemma FirstOccurrence(s: string, t: string, i: nat)
    requires OccursAt(s, t, i)
    requires forall j :: 0 <= j < i ==> !OccursAt(s, t, j)
    ensures IndexOf(s, t) == i
  {
  }

  /** For a one-character needle, strings.Contains is sequence membership. */
  lemma ContainsChar(s: string, c: char)
    ensures Contains(s, [c]) <==> c in s
  {
    if c in s {
      var j :| 0 <= j < |s| && s[j] == c;
      assert s[j..j + 1] == [c];
      assert OccursAt(s, [c], j);
    }
    if Contains(s, [c]) {
      var r := IndexOf(s, [c]);
      assert s[r..r + 1] == [c];
      assert s[r] == c;
    }
  }

  /** strings.HasPrefix. */
  predicate HasPrefix(s: string, p: string)
  {
    |p| <= |s| && s[..|p|] == p
  }

  // ------------------------------------------------------------------
  // Replacing

  /** strings.Replace(s, pat, rep, 1): the first occurrence of `pat` is replaced. */
  function ReplaceOnce(s: string, pat: string, rep: string): string
  {
    var i := IndexOf(s, pat);
    if i < 0 then s else s[..i] + rep + s[i + |pat|..]
  }

  /** ReplaceOnce rewrites exactly the first occurrence of the pattern. */
  lemma ReplaceOnceFirst(s: string, pat: string, rep: string, i: nat)
    requires OccursAt(s, pat, i)
    requires forall j :: 0 <= j < i ==> !OccursAt(s, pat, j)
    ensures ReplaceOnce(s, pat, rep) == s[..i] + rep + s[i + |pat|..]
  {
    FirstOccurrence(s, pat, i);
  }

  /** Without an occurrence ReplaceOnce leaves the text alone. */
  lemma ReplaceOnceAbsent(s: string, pat: string, rep: string)
    requires forall j :: 0 <= j <= |s| ==> !OccursAt(s, pat, j)
    ensures ReplaceOnce(s, pat, rep) == s
  {
  }

  // ------------------------------------------------------------------
  // Splitting and joining

  /** The first position of `c` in `s`. */
  function FindChar(s: string, c: char): (i: nat)
    requires c in s
    ensures i < |s| && s[i] == c && c !in s[..i]
  {
    if s[0] == c then 0
    else
      var k := FindChar(s[1..], c);
      assert s[..k + 1] == [s[0]] + s[1..][..k];
      k + 1
  }

  /** strings.Join. */
  function Join(parts: seq<string>, sep: string): string
  {
    if |parts| == 0 then ""
    else if |parts| == 1 then parts[0]
    else parts[0] + sep + Join(parts[1..], sep)
  }

  /** Joining one more part puts the separator and the part at the end. */
  lemma {:induction false} JoinSnoc(parts: seq<string>, x: string, sep: string)
    requires parts != []
    ensures Join(parts + [x], sep) == Join(parts, sep) + sep + x
    decreases |parts|
  {
    var ps := parts + [x];
    assert ps[1..] == parts[1..] + [x];
    if |parts| > 1 {
      JoinSnoc(parts[1..], x, sep);
    }
  }

  /**
   * strings.Split with a one-character separator: the pieces between the
   * separators, at least one, none containing the separator, and joining
   * them back gives the input.
   */
  function Split(s: string, c: char): (parts: seq<string>)
    ensures |parts| >= 1
    ensures forall k :: 0 <= k < |parts| ==> c !in parts[k]
    ensures Join(parts, [c]) == s
    decreases |s|
  {
    if c in s then
      var i := FindChar(s, c);
      var rest := Split(s[i + 1..], c);
      var parts := [s[..i]] + rest;
      assert parts[1..] == rest;
      assert s == s[..i] + [c] + s[i + 1..];
      parts
    else [s]
  }

  /** Split undoes Join when no piece contains the separator. */
  lemma {:induction false} SplitJoin(parts: seq<string>, c: char)
    requires |parts| >= 1
    requires forall k :: 0 <= k < |parts| ==> c !in parts[k]
    ensures Split(Join(parts, [c]), c) == parts
  {
    if |parts| > 1 {
      var rest := Join(parts[1..], [c]);
      assert Join(parts, [c]) == parts[0] + [c] + rest;
      SplitCons(parts[0], c, rest);
      assert forall k :: 0 <= k < |parts[1..]| ==> c !in parts[1..][k] by {
        assert forall k :: 0 <= k < |parts[1..]| ==> parts[1..][k] == parts[k + 1];
      }
      SplitJoin(parts[1..], c);
      assert [parts[0]] + parts[1..] == parts;
    }
  }

  /** Text free of the separator, then the separator, splits off as the first piece. */
  lemma SplitCons(p: string, c: char, r: string)
    requires c !in p
    ensures Split(p + [c] + r, c) == [p] + Split(r, c)
  {
    var s := p + [c] + r;
    var n := |p|;
    assert s[n] == c && s[..n] == p && s[n + 1..] == r;
    assert FindChar(s, c) == n by {
      var i := FindChar(s, c);
      assert forall k :: 0 <= k < n ==> s[k] == p[k];
    }
  }

  /**
   * strings.SplitN(s, sep, 2): the text before the first `sep` and the text
   * after it, or the whole text when `sep` does not occur. An empty
   * separator splits off the first character (and gives no pieces for "").
   */
  function SplitN2(s: string, sep: string): (parts: seq<string>)
    ensures sep != [] ==> 1 <= |parts| <= 2
    ensures sep != [] ==> (|parts| == 1 <==> !Contains(s, sep))
    ensures sep != [] && |parts| == 1 ==> parts[0] == s
    ensures sep != [] && |parts| == 2 ==>
      s == parts[0] + sep + parts[1] && !Contains(parts[0], sep)
  {
    if sep == [] then
      if s == [] then [] else [s[..1], s[1..]]
    else
      var i := IndexOf(s, sep);
      if i < 0 then [s]
      else
        var head := s[..i];
        assert s == head + sep + s[i + |sep|..];
        NoOccurrenceInPrefix(s, sep, i);
        [head, s[i + |sep|..]]
  }

  lemma NoOccurrenceInPrefix(s: string, t: string, i: nat)
    requires i <= |s|
    requires forall j :: 0 <= j < i ==> !OccursAt(s, t, j)
    requires t != []
    ensures !Contains(s[..i], t)
  {
    var p := s[..i];
    var r := IndexOf(p, t);
    if r >= 0 {
      assert p[r..r + |t|] == s[r..r + |t|];
      assert OccursAt(s, t, r);
      assert false;
    }
  }

  // ------------------------------------------------------------------
  // White space and letter case

  /** unicode.IsSpace. */
  predicate IsSpace(c: char)
  {
    c == ' ' || c == '\t' || c == '\n' || c == '\r' || c == '\U{B}' || c == '\U{C}'
    || c == '\U{85}' || c == '\U{A0}' || c == '\U{1680}' || ('\U{2000}' <= c <= '\U{200A}')
    || c == '\U{2028}' || c == '\U{2029}' || c == '\U{202F}' || c == '\U{205F}'
    || c == '\U{3000}'
  }

  function TrimLeftSpace(s: string): (r: string)
    ensures |r| <= |s| && r == s[|s| - |r|..]
    ensures r == [] || !IsSpace(r[0])
    ensures forall k :: 0 <= k < |s| - |r| ==> IsSpace(s[k])
  {
    if s != [] && IsSpace(s[0]) then TrimLeftSpace(s[1..]) else s
  }

  function TrimRightSpace(s: string): (r: string)
    ensures |r| <= |s| && r == s[..|r|]
    ensures r == [] || !IsSpace(r[|r| - 1])
    ensures forall k :: |r| <= k < |s| ==> IsSpace(s[k])
  {
    if s != [] && IsSpace(s[|s| - 1]) then TrimRightSpace(s[..|s| - 1]) else s
  }

  /**
   * strings.TrimSpace: the text without leading and trailing white space;
   * what remains neither starts nor ends with white space.
   */
  function TrimSpace(s: string): (r: string)
    ensures |r| <= |s|
    ensures r == [] || (!IsSpace(r[0]) && !IsSpace(r[|r| - 1]))
  {
    var l := TrimLeftSpace(s);
    var r := TrimRightSpace(l);
    assert r != [] ==> r[0] == l[0];
    r
  }

  /** Text without white space at either end is its own TrimSpace. */
  lemma TrimSpaceKeeps(s: string)
    requires s == [] || (!IsSpace(s[0]) && !IsSpace(s[|s| - 1]))
    ensures TrimSpace(s) == s
  {
  }

  /** Text made of white space only trims to the empty string. */
  lemma {:induction false} TrimSpaceBlank(s: string)
    requires forall k :: 0 <= k < |s| ==> IsSpace(s[k])
    ensures TrimSpace(s) == ""
  {
    var l := TrimLeftSpace(s);
    assert l == [];
  }

  /** Not empty, and no white space at either end. */
  predicate IsTrimmedWord(t: string)
  {
    t != "" && !IsSpace(t[0]) && !IsSpace(t[|t| - 1])
  }

  /** The pieces trimmed, the empty ones dropped, in order. */
  function TrimmedFields(pieces: seq<string>): seq<string>
  {
    if pieces == [] then []
    else
      var t := TrimSpace(pieces[|pieces| - 1]);
      TrimmedFields(pieces[..|pieces| - 1]) + (if t == "" then [] else [t])
  }

  /** Every piece kept is non-empty and trimmed. */
  lemma {:induction false} TrimmedFieldsAreWords(pieces: seq<string>)
    ensures forall k :: 0 <= k < |TrimmedFields(pieces)| ==> IsTrimmedWord(TrimmedFields(pieces)[k])
  {
    if pieces != [] {
      TrimmedFieldsAreWords(pieces[..|pieces| - 1]);
    }
  }

  lemma {:induction false} TrimmedFieldsOfWords(words: seq<string>)
    requires forall k :: 0 <= k < |words| ==> IsTrimmedWord(words[k])
    ensures TrimmedFields(words) == words
  {
    if words != [] {
      var n := |words|;
      var init, last := words[..n - 1], words[n - 1];
      assert words == init + [last];
      TrimmedFieldsOfWords(init);
      TrimmedFieldsSnoc(init, last);
    }
  }

  lemma TrimmedFieldsSnoc(init: seq<string>, last: string)
    requires IsTrimmedWord(last)
    ensures TrimmedFields(init + [last]) == TrimmedFields(init) + [last]
  {
    assert (init + [last])[..|init|] == init;
    TrimSpaceKeeps(last);
  }

  lemma TrimmedFieldsStep(pieces: seq<string>, i: nat)
    requires i < |pieces|
    ensures TrimmedFields(pieces[..i + 1])
            == TrimmedFields(pieces[..i]) + (if TrimSpace(pieces[i]) == "" then [] else [TrimSpace(pieces[i])])
  {
    assert pieces[..i + 1][..i] == pieces[..i];
  }

  /**
   * unicode.ToLower restricted to the characters whose lower case is ASCII:
   * 'A'..'Z', U+0130 (capital I with dot) and U+212A (Kelvin sign). Every
   * other character is kept, which is exact for ASCII and keeps non-ASCII
   * characters non-ASCII, so comparisons with ASCII words are as in Go.
   */
  function LowerChar(c: char): (d: char)
    ensures 'a' <= d <= 'z' <==> ('a' <= c <= 'z' || 'A' <= c <= 'Z' || c == '\U{130}' || c == '\U{212A}')
  {
    if 'A' <= c <= 'Z' then (c as int + 32) as char
    else if c == '\U{130}' then 'i'
    else if c == '\U{212A}' then 'k'
    else c
  }

  /** strings.ToLower, character by character. */
  function ToLower(s: string): (r: string)
    ensures |r| == |s|
    ensures forall k :: 0 <= k < |s| ==> r[k] == LowerChar(s[k])
  {
    if s == [] then [] else [LowerChar(s[0])] + ToLower(s[1..])
  }

  // ------------------------------------------------------------------
  // Decimal numbers

  predicate IsDigit(c: char)
  {
    '0' <= c <= '9'
  }

  /** A non-empty run of ASCII digits. */
  predicate IsDecimal(s: string)
  {
    |s| >= 1 && forall k :: 0 <= k < |s| ==> IsDigit(s[k])
  }

  function DigitChar(d: nat): (c: char)
    requires d < 10
    ensures IsDigit(c)
  {
    ('0' as int + d) as char
  }

  function DigitValue(c: char): nat
    requires IsDigit(c)
  {
    c as int - '0' as int
  }

  /** The value of a run of digits, most significant first. */
  function DecValue(s: string): nat
    requires forall k :: 0 <= k < |s| ==> IsDigit(s[k])
  {
    if s == [] then 0 else DecValue(s[..|s| - 1]) * 10 + DigitValue(s[|s| - 1])
  }

  /** Appending digits never lowers the value. */
  lemma {:induction false} DecValuePrefix(s: string, i: nat)
    requires i <= |s|
    requires forall k :: 0 <= k < |s| ==> IsDigit(s[k])
    ensures DecValue(s[..i]) <= DecValue(s)
    decreases |s|
  {
    if i < |s| {
      assert s[..|s| - 1][..i] == s[..i];
      DecValuePrefix(s[..|s| - 1], i);
    } else {
      assert s[..i] == s;
    }
  }

  /**
   * strconv.FormatUint(n, 10): the digits of `n` with no leading zero,
   * whose value is `n`.
   */
  function FormatUint(n: nat): (s: string)
    ensures IsDecimal(s)
    ensures DecValue(s) == n
    ensures s[0] == '0' ==> s == "0"
    decreases n
  {
    if n < 10 then [DigitChar(n)]
    else
      var s := FormatUint(n / 10) + [DigitChar(n % 10)];
      assert s[..|s| - 1] == FormatUint(n / 10);
      s
  }

  /** fmt's %d of a signed integer. */
  function FormatInt(i: int): (s: string)
    ensures i >= 0 ==> s == FormatUint(i)
    ensures i < 0 ==> s == "-" + FormatUint(-i)
  {
    if i < 0 then "-" + FormatUint(-i) else FormatUint(i)
  }

  /** strconv.NumError, keeping the text that failed to parse. */
  datatype NumError = SyntaxError(num: string) | RangeError(num: string)

  /**
   * The digit loop of strconv.ParseUint(s, 10, 64), left to right: a
   * non-digit is a syntax error, and the first digit that would take the
   * value past MaxUint64 is a range error.
   */
  function ScanDigits(s: string, i: nat, acc: nat): Result<nat, NumError>
    requires i <= |s|
    decreases |s| - i
  {
    if i == |s| then Ok(acc)
    else if !IsDigit(s[i]) then Err(SyntaxError(s))
    else if acc * 10 + DigitValue(s[i]) > MaxUint64 then Err(RangeError(s))
    else ScanDigits(s, i + 1, acc * 10 + DigitValue(s[i]))
  }

  lemma {:induction false} ScanDigitsCorrect(s: string, i: nat, acc: nat)
    requires i <= |s|
    requires forall k :: 0 <= k < i ==> IsDigit(s[k])
    requires acc == DecValue(s[..i]) && acc <= MaxUint64
    ensures ScanDigits(s, i, acc).Ok? <==>
      (forall k :: 0 <= k < |s| ==> IsDigit(s[k])) && DecValue(s) <= MaxUint64
    ensures ScanDigits(s, i, acc).Ok? ==> ScanDigits(s, i, acc).value == DecValue(s)
    ensures ScanDigits(s, i, acc).Err? ==> ScanDigits(s, i, acc).error.num == s
    decreases |s| - i
  {
    if i == |s| {
      assert s[..i] == s;
    } else if !IsDigit(s[i]) {
    } else {
      var next := acc * 10 + DigitValue(s[i]);
      assert s[..i + 1][..i] == s[..i];
      assert DecValue(s[..i + 1]) == next;
      if next > MaxUint64 {
        if forall k :: 0 <= k < |s| ==> IsDigit(s[k]) {
          DecValuePrefix(s, i + 1);
        }
      } else {
        ScanDigitsCorrect(s, i + 1, next);
      }
    }
  }

  /**
   * strconv.ParseUint(s, 10, 64): succeeds exactly on a non-empty run of
   * digits whose value fits in uint64, with that value; the error keeps the
   * text.
   */
  function ParseUint(s: string): (r: Result<nat, NumError>)
    ensures r.Ok? <==> IsDecimal(s) && DecValue(s) <= MaxUint64
    ensures r.Ok? ==> r.value == DecValue(s) && r.value <= MaxUint64
    ensures r.Err? ==> r.error.num == s
  {
    if s == [] then Err(SyntaxError(s))
    else
      assert s[..0] == [];
      ScanDigitsCorrect(s, 0, 0);
      ScanDigits(s, 0, 0)
  }

  /** Parsing what FormatUint printed gives the number back. */
  lemma ParseFormatUint(n: nat)
    requires n <= MaxUint64
    ensures ParseUint(FormatUint(n)) == Ok(n)
  {
  }
}
