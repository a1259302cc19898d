/**
 * The shard configuration of ssql/manager_config.go: database-id lists
 * written as "1,3-5" or "all", the per-member range rules, database-name
 * formatting, and the expansion of every member into one member per id.
 */
module SqlManagerConfig {
  import opened Wrappers
  import opened GoStrings

  datatype ConfigError =
    | NumParse(err: NumError)
    | DBRangeErrorAll
    | DBRangeErrorEmpty
    | DBRangeErrorNotSubSet
    | NoServer
    | MultipleServers
    | YamlError(msg: string)

  /** The error text of each error the package defines. */
  function ErrorText(e: ConfigError): string
  {
    match e
    case NumParse(n) =>
      "strconv.ParseUint: parsing \"" + n.num + "\": "
      + (if n.SyntaxError? then "invalid syntax" else "value out of range")
    case DBRangeErrorAll => "DBRange can't be \"all\""
    case DBRangeErrorEmpty => "DBRange must have at least one member"
    case DBRangeErrorNotSubSet => "ExhaustedDBRange must be subset of DBRange"
    case NoServer => "Atleast one server must be defined"
    case MultipleServers => "Multiple servers is not supported yet!"
    case YamlError(msg) => msg
  }

  /** A parsed id list: "all", or the ids in the order written. */
  datatype IdList = All | Ids(ids: seq<nat>)

  // ------------------------------------------------------------------
  // Id lists

  /** ListDatabaseID.Contains. */
  function ListContains(l: seq<nat>, id: nat): (b: bool)
    ensures b <==> id in l
  {
    if l == [] then false else l[0] == id || ListContains(l[1..], id)
  }

  /** ListDatabaseID.IsSubset: every element of `l` occurs in `l2`. */
  function ListIsSubset(l: seq<nat>, l2: seq<nat>): (b: bool)
    ensures b <==> forall i :: 0 <= i < |l| ==> l[i] in l2
  {
    if l == [] then true else ListContains(l2, l[0]) && ListIsSubset(l[1..], l2)
  }

  /** begin, begin + 1, ..., end; nothing when end < begin. */
  function IdRange(begin: nat, end: nat): (r: seq<nat>)
    ensures |r| == if end < begin then 0 else end - begin + 1
    ensures forall k :: 0 <= k < |r| ==> r[k] == begin + k
  {
    if end < begin then [] else seq(end - begin + 1, k requires 0 <= k => begin + k)
  }

  predicate AllUint64(ids: seq<nat>)
  {
    forall k :: 0 <= k < |ids| ==> ids[k] <= MaxUint64
  }

  /**
   * The ids one comma-separated part stands for: the part is trimmed and
   * split at its first "-"; each side must parse as a uint64.
   */
  function RangeIds(part: string): (r: Result<seq<nat>, NumError>)
    ensures r.Ok? ==> AllUint64(r.value)
  {
    var parts := SplitN2(TrimSpace(part), "-");
    match ParseUint(parts[0])
    case Err(e) => Err(e)
    case Ok(begin) =>
      if |parts| < 2 then Ok([begin])
      else match ParseUint(parts[1])
        case Err(e) => Err(e)
        case Ok(end) => Ok(IdRange(begin, end))
  }

  /** The ids so far after one more part: an empty part adds nothing, an error stays. */
  function AddPart(acc: Result<seq<nat>, NumError>, p: string): (r: Result<seq<nat>, NumError>)
    ensures acc.Err? ==> r == acc
  {
    match acc
    case Err(_) => acc
    case Ok(ids) =>
      if p == "" then acc
      else match RangeIds(p)
        case Err(e) => Err(e)
        case Ok(more) => Ok(ids + more)
  }

  /** The ids of the parts in order, skipping empty parts; the first bad part is the error. */
  function PartsIds(parts: seq<string>): (r: Result<seq<nat>, NumError>)
    ensures r.Ok? ==> AllUint64(r.value)
  {
    if parts == [] then Ok([])
    else AddPart(PartsIds(parts[..|parts| - 1]), parts[|parts| - 1])
  }

  /** Once a prefix of the parts fails, the whole list fails with the same error. */
  lemma {:induction false} PartsIdsErrSticks(parts: seq<string>, i: nat)
    requires i <= |parts| && PartsIds(parts[..i]).Err?
    ensures PartsIds(parts) == PartsIds(parts[..i])
    decreases |parts| - i
  {
    if i < |parts| {
      assert parts[..i + 1][..i] == parts[..i];
      PartsIdsErrSticks(parts, i + 1);
    } else {
      assert parts[..i] == parts;
    }
  }

  /** What ParseListDatabaseID returns for a text. */
  function ParseList(s: string): (r: Result<IdList, NumError>)
    ensures r.Ok? && r.value.Ids? ==> AllUint64(r.value.ids)
  {
    if ToLower(s) == "all" then Ok(All)
    else match PartsIds(Split(s, ','))
      case Err(e) => Err(e)
      case Ok(ids) => Ok(Ids(ids))
  }

  /** expandRange: appends the ids of one part to `dbIds`. */
  method ExpandRange(s: string, dbIds: seq<nat>) returns (r: Result<seq<nat>, NumError>)
    ensures RangeIds(s).Err? ==> r == Err(RangeIds(s).error)
    ensures RangeIds(s).Ok? ==> r == Ok(dbIds + RangeIds(s).value)
  {
    var t := TrimSpace(s);
    var parts := SplitN2(t, "-");
    var b := ParseUint(parts[0]);
    if b.Err? {
      return Err(b.error);
    }
    if |parts| < 2 {
      return Ok(dbIds + [b.value]);
    }
    var e := ParseUint(parts[1]);
    if e.Err? {
      return Err(e.error);
    }
    var ids := AppendRun(dbIds, b.value, e.value);
    return Ok(ids);
  }

  /** The loop of expandRange: appends begin, begin + 1, ..., end. */
  method AppendRun(dbIds: seq<nat>, begin: nat, end: nat) returns (ids: seq<nat>)
    ensures ids == dbIds + IdRange(begin, end)
  {
    ids := dbIds;
    var i := begin;
    while i <= end
      invariant begin <= i && (begin <= end ==> i <= end + 1)
      invariant end < begin ==> i == begin
      invariant ids == dbIds + seq(i - begin, k requires 0 <= k => begin + k)
    {
      ids := ids + [i];
      i := i + 1;
    }
    assert i == if end < begin then begin else end + 1;
    ghost var run := seq(i - begin, k requires 0 <= k => begin + k);
    assert |run| == |IdRange(begin, end)|;
    assert forall k :: 0 <= k < |run| ==> run[k] == IdRange(begin, end)[k];
    assert run == IdRange(begin, end);
  }

  /**
   * ParseListDatabaseID: "all" in any letter case is All; otherwise the ids
   * of the comma-separated parts, skipping empty parts.
   */
  method ParseListDatabaseID(s: string) returns (r: Result<IdList, NumError>)
    ensures r == ParseList(s)
  {
    if ToLower(s) == "all" {
      return Ok(All);
    }
    var ids := CollectParts(Split(s, ','));
    ParseListOfParts(s, ids);
    if ids.Err? {
      return Err(ids.error);
    }
    return Ok(Ids(ids.value));
  }

  /** The loop of ParseListDatabaseID: expands each non-empty part in turn; the first error stops it. */
  method CollectParts(parts: seq<string>) returns (r: Result<seq<nat>, NumError>)
    ensures r == PartsIds(parts)
  {
    var ids: seq<nat> := [];
    var i := 0;
    while i < |parts|
      invariant 0 <= i <= |parts|
      invariant PartsIds(parts[..i]) == Ok(ids)
    {
      PartsIdsStep(parts, i);
      if parts[i] != "" {
        var next := ExpandRange(parts[i], ids);
        if next.Err? {
          PartsIdsErrSticks(parts, i + 1);
          return Err(next.error);
        }
        ids := next.value;
      }
      i := i + 1;
    }
    assert parts[..i] == parts;
    return Ok(ids);
  }

  lemma PartsIdsStep(parts: seq<string>, i: nat)
    requires i < |parts|
    ensures PartsIds(parts[..i + 1]) == AddPart(PartsIds(parts[..i]), parts[i])
  {
    assert parts[..i + 1][..i] == parts[..i];
  }

  /** Text other than "all" parses as the ids of its comma-separated parts. */
  lemma ParseListOfParts(s: string, ids: Result<seq<nat>, NumError>)
    requires ToLower(s) != "all" && PartsIds(Split(s, ',')) == ids
    ensures ids.Err? ==> ParseList(s) == Err(ids.error)
    ensures ids.Ok? ==> ParseList(s) == Ok(Ids(ids.value))
  {
  }

  // ------------------------------------------------------------------
  // Properties of id lists

  lemma LowerIsA(c: char)
    ensures LowerChar(c) == 'a' <==> c == 'a' || c == 'A'
    ensures LowerChar(c) == 'l' <==> c == 'l' || c == 'L'
  {
  }

  /** "all" in any mix of letter cases, and nothing else, parses as All. */
  lemma ParseListAllIff(s: string)
    ensures ParseList(s) == Ok(All) <==>
              |s| == 3 && (s[0] == 'a' || s[0] == 'A') && (s[1] == 'l' || s[1] == 'L') && (s[2] == 'l' || s[2] == 'L')
  {
    if |s| == 3 {
      LowerIsA(s[0]);
      LowerIsA(s[1]);
      LowerIsA(s[2]);
      assert ToLower(s) == [LowerChar(s[0]), LowerChar(s[1]), LowerChar(s[2])];
    } else {
      assert |ToLower(s)| != 3;
    }
  }

  /** A decimal number with no "-" and no white space parses as that single id. */
  lemma {:induction false} RangeIdsOfNumber(n: nat)
    requires n <= MaxUint64
    ensures RangeIds(FormatUint(n)) == Ok([n])
  {
    var s := FormatUint(n);
    TrimSpaceKeeps(s);
    ContainsChar(s, '-');
    ParseFormatUint(n);
  }

  /** Splitting at the first `c` separates the text before it from the text after it. */
  lemma SplitAtFirst(a: string, b: string, c: char)
    requires c !in a
    ensures SplitN2(a + [c] + b, [c]) == [a, b]
  {
    var s := a + [c] + b;
    var n := |a|;
    assert s[n..n + 1] == [c];
    forall j | 0 <= j < n
      ensures !OccursAt(s, [c], j)
    {
      assert s[j] == a[j];
    }
    FirstOccurrence(s, [c], n);
    assert s[..n] == a;
    assert s[n + 1..] == b;
  }

  /** A trimmed part "x-y" whose sides parse stands for the range between them. */
  lemma RangeIdsOfSides(part: string, x: string, y: string, a: nat, b: nat)
    requires TrimSpace(part) == part && SplitN2(part, "-") == [x, y]
    requires ParseUint(x) == Ok(a) && ParseUint(y) == Ok(b)
    ensures RangeIds(part) == Ok(IdRange(a, b))
  {
  }

  /** Two decimal numbers joined by "-" need no trimming and split back at the "-". */
  lemma DashJoined(x: string, y: string)
    requires IsDecimal(x) && IsDecimal(y)
    ensures TrimSpace(x + "-" + y) == x + "-" + y
    ensures SplitN2(x + "-" + y, "-") == [x, y]
  {
    var s := x + "-" + y;
    assert s[0] == x[0] && s[|s| - 1] == y[|y| - 1];
    TrimSpaceKeeps(s);
    assert '-' !in x;
    SplitAtFirst(x, y, '-');
  }

  /** "a-b" with a and b printed in decimal expands to a, a + 1, ..., b. */
  lemma {:induction false} RangeIdsOfRange(a: nat, b: nat)
    requires a <= MaxUint64 && b <= MaxUint64
    ensures RangeIds(FormatUint(a) + "-" + FormatUint(b)) == Ok(IdRange(a, b))
  {
    var fa, fb := FormatUint(a), FormatUint(b);
    DashJoined(fa, fb);
    ParseFormatUint(a);
    ParseFormatUint(b);
    RangeIdsOfSides(fa + "-" + fb, fa, fb, a, b);
  }

  /** A part whose trimmed text is empty or does not start with a digit is an error. */
  lemma {:induction false} RangeIdsNonNumeric(part: string)
    requires var t := TrimSpace(part); t == [] || !IsDigit(t[0])
    ensures RangeIds(part).Err?
  {
    var t := TrimSpace(part);
    var parts := SplitN2(t, "-");
    if |parts| == 2 {
      assert t == parts[0] + "-" + parts[1];
      if parts[0] != [] {
        assert parts[0][0] == t[0];
      }
    }
  }

  /** The decimal form of each id, in order. */
  function FormatAll(ids: seq<nat>): (parts: seq<string>)
    ensures |parts| == |ids|
    ensures forall k :: 0 <= k < |ids| ==> parts[k] == FormatUint(ids[k])
  {
    if ids == [] then [] else FormatAll(ids[..|ids| - 1]) + [FormatUint(ids[|ids| - 1])]
  }

  /** The decimal forms of the ids joined with commas: the inverse of ParseList. */
  function FormatList(ids: seq<nat>): string
  {
    Join(FormatAll(ids), ",")
  }

  lemma {:induction false} PartsIdsOfNumbers(ids: seq<nat>)
    requires AllUint64(ids)
    ensures PartsIds(FormatAll(ids)) == Ok(ids)
  {
    if ids != [] {
      var n := |ids|;
      var parts := FormatAll(ids);
      assert parts[..n - 1] == FormatAll(ids[..n - 1]);
      PartsIdsOfNumbers(ids[..n - 1]);
      RangeIdsOfNumber(ids[n - 1]);
      assert ids[..n - 1] + [ids[n - 1]] == ids;
    }
  }

  /** Decimal parts joined by commas: not "all", and split back into the same parts. */
  lemma JoinedDecimals(parts: seq<string>)
    requires |parts| >= 1 && forall k :: 0 <= k < |parts| ==> IsDecimal(parts[k])
    ensures ToLower(Join(parts, ",")) != "all"
    ensures Split(Join(parts, ","), ',') == parts
  {
    var s := Join(parts, ",");
    forall k | 0 <= k < |parts|
      ensures ',' !in parts[k]
    {
      assert IsDecimal(parts[k]);
    }
    SplitJoin(parts, ',');
    assert s[0] == parts[0][0] by {
      if |parts| > 1 {
        assert s == parts[0] + "," + Join(parts[1..], ",");
      }
    }
    assert ToLower(s)[0] == LowerChar(s[0]);
  }

  /** Printing a list of ids and parsing it back gives the same ids, in order. */
  lemma {:induction false} ParseFormatList(ids: seq<nat>)
    requires AllUint64(ids)
    ensures ParseList(FormatList(ids)) == Ok(Ids(ids))
  {
    PartsIdsOfNumbers(ids);
    if ids == [] {
      assert FormatList(ids) == "";
      assert Split("", ',') == [""];
      assert PartsIds([""]) == PartsIds([]);
    } else {
      JoinedDecimals(FormatAll(ids));
    }
  }

  // ------------------------------------------------------------------
  // Database names: fmt.Sprintf(name, id) for one ssql.DatabaseID argument

  /** A directive after its '%': the flags '0' and '-', the width, and where the verb is. */
  datatype Directive = Directive(zero: bool, minus: bool, width: nat, verbAt: nat)

  /** Scans the width digits that start at `start`. */
  function ScanWidth(t: string, start: nat, i: nat, zero: bool, minus: bool): (d: Directive)
    requires start <= i <= |t| && forall k :: start <= k < i ==> IsDigit(t[k])
    ensures i <= d.verbAt <= |t|
    ensures d.verbAt < |t| ==> !IsDigit(t[d.verbAt])
    decreases |t| - i
  {
    if i < |t| && IsDigit(t[i]) then ScanWidth(t, start, i + 1, zero, minus)
    else Directive(zero && !minus, minus, DecValue(t[start..i]), i)
  }

  /** Scans the flags '0' and '-' from `i`, then the width. */
  function ScanFlags(t: string, i: nat, zero: bool, minus: bool): (d: Directive)
    requires i <= |t|
    ensures i <= d.verbAt <= |t|
    decreases |t| - i
  {
    if i < |t| && t[i] == '0' then ScanFlags(t, i + 1, true, minus)
    else if i < |t| && t[i] == '-' then ScanFlags(t, i + 1, zero, true)
    else ScanWidth(t, i, i, zero, minus)
  }

  function Repeat(c: char, n: nat): (r: string)
    ensures |r| == n && forall k :: 0 <= k < n ==> r[k] == c
  {
    if n == 0 then [] else [c] + Repeat(c, n - 1)
  }

  /** Pads to the width: with spaces on the right for '-', else with zeros or spaces on the left. */
  function Pad(digits: string, d: Directive): (r: string)
    ensures |digits| >= d.width ==> r == digits
  {
    if |digits| >= d.width then digits
    else if d.minus then digits + Repeat(' ', d.width - |digits|)
    else Repeat(if d.zero then '0' else ' ', d.width - |digits|) + digits
  }

  /** The digits of `n` in base 2, 8 or 16, lower or upper case. */
  function FormatBase(n: nat, base: nat, upper: bool): (s: string)
    requires base == 2 || base == 8 || base == 16
    ensures |s| >= 1
    decreases n
  {
    var digit := n % base;
    var c := if digit < 10 then DigitChar(digit)
             else ((if upper then 'A' as int else 'a' as int) + digit - 10) as char;
    if n < base then [c] else FormatBase(n / base, base, upper) + [c]
  }

  /** What one verb prints for the id: d and v in decimal, x, X, o and b in their bases. */
  function FormatVerb(v: char, id: nat, d: Directive): string
  {
    if v == 'd' || v == 'v' then Pad(FormatUint(id), d)
    else if v == 'x' then Pad(FormatBase(id, 16, false), d)
    else if v == 'X' then Pad(FormatBase(id, 16, true), d)
    else if v == 'o' then Pad(FormatBase(id, 8, false), d)
    else if v == 'b' then Pad(FormatBase(id, 2, false), d)
    else "%!" + [v] + "(ssql.DatabaseID=" + FormatUint(id) + ")"
  }

  /**
   * The text a format prints and whether the argument was used: "%%"
   * prints "%", a verb after the argument is used prints "%!v(MISSING)",
   * and a '%' with no verb prints "%!(NOVERB)".
   */
  function Render(f: string, id: nat, used: bool): (r: (string, bool))
    ensures used ==> r.1
    decreases |f|
  {
    if f == [] then ("", used)
    else if f[0] != '%' then
      var rest := Render(f[1..], id, used);
      ([f[0]] + rest.0, rest.1)
    else
      var t := f[1..];
      var d := ScanFlags(t, 0, false, false);
      if d.verbAt == |t| then ("%!(NOVERB)", used)
      else
        var v := t[d.verbAt];
        var out := if v == '%' then "%"
                   else if used then "%!" + [v] + "(MISSING)"
                   else FormatVerb(v, id, d);
        var rest := Render(t[d.verbAt + 1..], id, used || v != '%');
        (out + rest.0, rest.1)
  }

  /** fmt.Sprintf(format, id): an unused argument is reported at the end. */
  function SprintfId(format: string, id: nat): string
  {
    var r := Render(format, id, false);
    if r.1 then r.0 else r.0 + "%!(EXTRA ssql.DatabaseID=" + FormatUint(id) + ")"
  }

  /** GetDBName: the name formatted with the id when it holds a '%', otherwise the name itself. */
  function DBName(name: string, id: nat): (r: string)
    ensures '%' !in name ==> r == name
  {
    ContainsChar(name, '%');
    if Contains(name, "%") then SprintfId(name, id) else name
  }

  /** Text without '%' prints as itself and leaves the argument as it was. */
  lemma {:induction false} RenderPlain(pre: string, rest: string, id: nat, used: bool)
    requires '%' !in pre
    ensures Render(pre + rest, id, used) == (pre + Render(rest, id, used).0, Render(rest, id, used).1)
  {
    if pre == [] {
      assert pre + rest == rest;
      assert pre + Render(rest, id, used).0 == Render(rest, id, used).0;
    } else {
      assert (pre + rest)[0] == pre[0] && pre[0] in pre;
      assert (pre + rest)[1..] == pre[1..] + rest;
      RenderPlain(pre[1..], rest, id, used);
      assert [pre[0]] + (pre[1..] + Render(rest, id, used).0) == pre + Render(rest, id, used).0;
    }
  }

  /** A name with exactly one "%d" and no other '%' gets the id in decimal at that place. */
  lemma DBNameOneVerb(pre: string, post: string, id: nat)
    requires '%' !in pre && '%' !in post
    ensures DBName(pre + "%d" + post, id) == pre + FormatUint(id) + post
  {
    var name := pre + "%d" + post;
    assert Contains(name, "%") by {
      assert name[|pre|] == '%';
      ContainsChar(name, '%');
    }
    assert name == pre + ("%d" + post);
    RenderPlain(pre, "%d" + post, id, false);
    RenderVerbD(post, id);
  }

  /** "%d" followed by text without '%' prints the id in decimal, then the text, and uses the argument. */
  lemma RenderVerbD(post: string, id: nat)
    requires '%' !in post
    ensures Render("%d" + post, id, false) == (FormatUint(id) + post, true)
  {
    var t := "d" + post;
    assert ("%d" + post)[1..] == t;
    assert ScanFlags(t, 0, false, false) == Directive(false, false, 0, 0) by {
      assert t[0..0] == [];
    }
    assert FormatVerb('d', id, Directive(false, false, 0, 0)) == FormatUint(id);
    assert t[1..] == post;
    assert Render(post, id, true) == (post, true) by {
      RenderPlain(post, [], id, true);
      assert post + [] == post;
    }
  }

  /** Different texts between the same prefix and suffix give different texts. */
  lemma MiddleDiffers(pre: string, x: string, y: string, post: string)
    requires x != y
    ensures pre + x + post != pre + y + post
  {
    var s, t := pre + x + post, pre + y + post;
    if |x| != |y| {
      assert |s| != |t|;
    } else {
      assert s[|pre|..|pre| + |x|] == x;
      assert t[|pre|..|pre| + |y|] == y;
    }
  }

  /** With one "%d" in the name, different ids give different database names. */
  lemma DBNamesDistinct(pre: string, post: string, a: nat, b: nat)
    requires '%' !in pre && '%' !in post && a != b
    ensures DBName(pre + "%d" + post, a) != DBName(pre + "%d" + post, b)
  {
    DBNameOneVerb(pre, post, a);
    DBNameOneVerb(pre, post, b);
    MiddleDiffers(pre, FormatUint(a), FormatUint(b), post);
  }

  // ------------------------------------------------------------------
  // Members

  /** The fields of a sqlManagerMember: the decoded ones and the two parsed lists. */
  datatype MemberState = MemberState(
    servers: seq<string>, dbRange: string, exhaustedDBRange: string,
    description: string, dbName: string,
    dbrange: seq<nat>, dbrangeExhausted: seq<nat>)

  /** What parse leaves behind: its error, if any, and the two parsed lists it assigned. */
  datatype ParseOutcome = ParseOutcome(err: Option<ConfigError>, dbrange: seq<nat>, dbrangeExhausted: seq<nat>)

  /** The ids a ParseListDatabaseID result assigns: none for "all" or an error. */
  function AssignedIds(r: Result<IdList, NumError>): seq<nat>
  {
    if r.Ok? && r.value.Ids? then r.value.ids else []
  }

  /** parse's checks of the DB range: it must parse, must not be "all" and must not be empty. */
  function RangeError(range: Result<IdList, NumError>): Option<ConfigError>
  {
    if range.Err? then Some(NumParse(range.error))
    else if range.value.All? then Some(DBRangeErrorAll)
    else if |range.value.ids| == 0 then Some(DBRangeErrorEmpty)
    else None
  }

  /** parse's later checks: the exhausted range parses and is "all" or a subset, and there is one server. */
  function RestError(ex: Result<IdList, NumError>, ids: seq<nat>, servers: nat): Option<ConfigError>
  {
    if ex.Err? then Some(NumParse(ex.error))
    else if ex.value.Ids? && !ListIsSubset(ex.value.ids, ids) then Some(DBRangeErrorNotSubSet)
    else if servers == 0 then Some(NoServer)
    else if servers > 1 then Some(MultipleServers)
    else None
  }

  /**
   * parse: the DB range must be ids (not "all") and non-empty; the
   * exhausted range "all" means the whole DB range, otherwise it must be a
   * subset of it; there must be exactly one server. The parsed lists are
   * assigned as parsing goes, so an early error leaves later ones as they were.
   */
  function ParseMember(m: MemberState): (r: ParseOutcome)
  {
    var range := ParseList(m.dbRange);
    var ids := AssignedIds(range);
    if RangeError(range).Some? then ParseOutcome(RangeError(range), ids, m.dbrangeExhausted)
    else
      var ex := ParseList(m.exhaustedDBRange);
      var exIds := if ex.Ok? && ex.value.All? then ids else AssignedIds(ex);
      ParseOutcome(RestError(ex, ids, |m.servers|), ids, exIds)
  }

  /** The member's fields once parse has assigned its lists. */
  function Applied(m: MemberState, p: ParseOutcome): MemberState
  {
    m.(dbrange := p.dbrange, dbrangeExhausted := p.dbrangeExhausted)
  }

  /** A member whose parse succeeded: its invariant. */
  predicate WellFormed(m: MemberState)
  {
    && ParseList(m.dbRange) == Ok(Ids(m.dbrange))
    && |m.dbrange| > 0
    && ListIsSubset(m.dbrangeExhausted, m.dbrange)
    && |m.servers| == 1
  }

  /** parse succeeds exactly when the rules hold, and then leaves a well-formed member with the same text fields. */
  lemma ParseMemberOk(m: MemberState)
    ensures var r := ParseMember(m);
            && (r.err.None? <==>
                  && ParseList(m.dbRange).Ok? && ParseList(m.dbRange).value.Ids?
                  && |ParseList(m.dbRange).value.ids| > 0
                  && ParseList(m.exhaustedDBRange).Ok?
                  && (ParseList(m.exhaustedDBRange).value.Ids? ==>
                        ListIsSubset(ParseList(m.exhaustedDBRange).value.ids, ParseList(m.dbRange).value.ids))
                  && |m.servers| == 1)
            && (r.err.None? ==> WellFormed(Applied(m, r)))
            && (r.err.None? && ParseList(m.exhaustedDBRange) == Ok(All) ==> r.dbrangeExhausted == r.dbrange)
  {
    var r := ParseMember(m);
    if r.err.None? {
      var ex := ParseList(m.exhaustedDBRange);
      if ex.value.All? {
        assert forall i :: 0 <= i < |r.dbrangeExhausted| ==> r.dbrangeExhausted[i] in r.dbrange;
      }
    }
  }

  /** The error parse reports for each rule it checks, in the order it checks them. */
  lemma ParseMemberErrors(m: MemberState)
    ensures ParseList(m.dbRange) == Ok(All) ==> ParseMember(m).err == Some(DBRangeErrorAll)
    ensures ParseList(m.dbRange) == Ok(Ids([])) ==> ParseMember(m).err == Some(DBRangeErrorEmpty)
    ensures ParseList(m.dbRange).Err? ==> ParseMember(m).err == Some(NumParse(ParseList(m.dbRange).error))
    ensures (&& ParseList(m.dbRange).Ok? && ParseList(m.dbRange).value.Ids? && |ParseList(m.dbRange).value.ids| > 0
             && ParseList(m.exhaustedDBRange).Ok? && ParseList(m.exhaustedDBRange).value.Ids?
             && !ListIsSubset(ParseList(m.exhaustedDBRange).value.ids, ParseList(m.dbRange).value.ids))
              ==> ParseMember(m).err == Some(DBRangeErrorNotSubSet)
  {
  }

  /** Parsing a parsed member again changes nothing and succeeds. */
  lemma ParseMemberAgain(m: MemberState)
    requires WellFormed(m) && ParseList(m.exhaustedDBRange) == Ok(Ids(m.dbrangeExhausted))
    ensures ParseMember(m) == ParseOutcome(None, m.dbrange, m.dbrangeExhausted)
  {
    assert AssignedIds(ParseList(m.dbRange)) == m.dbrange;
    assert AssignedIds(ParseList(m.exhaustedDBRange)) == m.dbrangeExhausted;
    assert m.(dbrange := m.dbrange).(dbrangeExhausted := m.dbrangeExhausted) == m;
  }

  /** One member of the shard configuration, as parse and expandMembers update it. */
  class Member {
    var servers: seq<string>
    var dbRange: string
    var exhaustedDBRange: string
    var description: string
    var dbName: string
    var dbrange: seq<nat>
    var dbrangeExhausted: seq<nat>

    function State(): MemberState
      reads this
    {
      MemberState(servers, dbRange, exhaustedDBRange, description, dbName, dbrange, dbrangeExhausted)
    }

    /** A member with the given fields (a decoded one, or a copy). */
    constructor (st: MemberState)
      ensures State() == st
    {
      servers := st.servers;
      dbRange := st.dbRange;
      exhaustedDBRange := st.exhaustedDBRange;
      description := st.description;
      dbName := st.dbName;
      dbrange := st.dbrange;
      dbrangeExhausted := st.dbrangeExhausted;
    }

    /** parse, assigning the parsed lists in place. */
    method Parse() returns (err: Option<ConfigError>)
      modifies this`dbrange, this`dbrangeExhausted
      ensures err == ParseMember(old(State())).err
      ensures dbrange == ParseMember(old(State())).dbrange
      ensures dbrangeExhausted == ParseMember(old(State())).dbrangeExhausted
    {
      var range := ParseListDatabaseID(dbRange);
      dbrange := AssignedIds(range);
      if range.Err? {
        return Some(NumParse(range.error));
      }
      if range.value.All? {
        return Some(DBRangeErrorAll);
      }
      if |dbrange| == 0 {
        return Some(DBRangeErrorEmpty);
      }
      var ex := ParseListDatabaseID(exhaustedDBRange);
      if ex.Err? {
        dbrangeExhausted := [];
        return Some(NumParse(ex.error));
      }
      if ex.value.All? {
        dbrangeExhausted := dbrange;
      } else {
        dbrangeExhausted := ex.value.ids;
        if !ListIsSubset(dbrangeExhausted, dbrange) {
          return Some(DBRangeErrorNotSubSet);
        }
      }
      if |servers| == 0 {
        return Some(NoServer);
      } else if |servers| > 1 {
        return Some(MultipleServers);
      }
      return None;
    }

    /** GetDBName for one of the member's ids. */
    function GetDBName(id: nat): (name: string)
      reads this
      ensures '%' !in dbName ==> name == dbName
    {
      DBName(dbName, id)
    }
  }

  // ------------------------------------------------------------------
  // The whole configuration

  /** The fields of each member, in order. */
  function StatesOf(ms: seq<Member>): (r: seq<MemberState>)
    reads ms
    ensures |r| == |ms| && forall k :: 0 <= k < |ms| ==> r[k] == ms[k].State()
  {
    if ms == [] then [] else StatesOf(ms[..|ms| - 1]) + [ms[|ms| - 1].State()]
  }

  lemma StatesOfAppend(ms: seq<Member>, more: seq<Member>)
    ensures StatesOf(ms + more) == StatesOf(ms) + StatesOf(more)
  {
    assert |StatesOf(ms + more)| == |StatesOf(ms) + StatesOf(more)|;
  }

  /** The copy expandMembers makes of a member for one of its ids, before parsing it. */
  function CopyFor(m: MemberState, id: nat): MemberState
  {
    m.(dbName := DBName(m.dbName, id),
       dbRange := FormatUint(id),
       exhaustedDBRange := if ListContains(m.dbrangeExhausted, id) then FormatUint(id) else "")
  }

  /** The parsed copies of a member for the ids, in order; the first copy that fails to parse is the error. */
  function ExpandIds(m: MemberState, ids: seq<nat>): (r: Result<seq<MemberState>, ConfigError>)
    ensures r.Ok? ==> |r.value| == |ids|
  {
    if ids == [] then Ok([])
    else match ExpandIds(m, ids[..|ids| - 1])
      case Err(e) => Err(e)
      case Ok(done) =>
        var c := CopyFor(m, ids[|ids| - 1]);
        var p := ParseMember(c);
        if p.err.Some? then Err(p.err.value) else Ok(done + [Applied(c, p)])
  }

  /** expandMembers' result: every member's copies, member after member. */
  function ExpandAll(ms: seq<MemberState>): (r: Result<seq<MemberState>, ConfigError>)
  {
    if ms == [] then Ok([])
    else match ExpandAll(ms[..|ms| - 1])
      case Err(e) => Err(e)
      case Ok(done) =>
        match ExpandIds(ms[|ms| - 1], ms[|ms| - 1].dbrange)
        case Err(e) => Err(e)
        case Ok(more) => Ok(done + more)
  }

  /** loadSqlManagerConfig's result for decoded members: each parsed in order; the first failure is the error. */
  function ParseAll(ms: seq<MemberState>): (r: Result<seq<MemberState>, ConfigError>)
    ensures r.Ok? ==> |r.value| == |ms|
  {
    if ms == [] then Ok([])
    else match ParseAll(ms[..|ms| - 1])
      case Err(e) => Err(e)
      case Ok(done) =>
        var p := ParseMember(ms[|ms| - 1]);
        if p.err.Some? then Err(p.err.value) else Ok(done + [Applied(ms[|ms| - 1], p)])
  }

  lemma {:induction false} ExpandIdsErrSticks(m: MemberState, ids: seq<nat>, j: nat)
    requires j <= |ids| && ExpandIds(m, ids[..j]).Err?
    ensures ExpandIds(m, ids) == ExpandIds(m, ids[..j])
    decreases |ids| - j
  {
    if j < |ids| {
      assert ids[..j + 1][..j] == ids[..j];
      ExpandIdsErrSticks(m, ids, j + 1);
    } else {
      assert ids[..j] == ids;
    }
  }

  lemma {:induction false} ExpandAllErrSticks(ms: seq<MemberState>, i: nat)
    requires i <= |ms| && ExpandAll(ms[..i]).Err?
    ensures ExpandAll(ms) == ExpandAll(ms[..i])
    decreases |ms| - i
  {
    if i < |ms| {
      assert ms[..i + 1][..i] == ms[..i];
      ExpandAllErrSticks(ms, i + 1);
    } else {
      assert ms[..i] == ms;
    }
  }

  lemma {:induction false} ParseAllErrSticks(ms: seq<MemberState>, i: nat)
    requires i <= |ms| && ParseAll(ms[..i]).Err?
    ensures ParseAll(ms) == ParseAll(ms[..i])
    decreases |ms| - i
  {
    if i < |ms| {
      assert ms[..i + 1][..i] == ms[..i];
      ParseAllErrSticks(ms, i + 1);
    } else {
      assert ms[..i] == ms;
    }
  }

  /** What yaml.Unmarshal produces: the decoded fields, before any member is parsed. */
  datatype ConfigValue = ConfigValue(
    user: string, pass: string,
    connMaxLifetime: int, maxIdleConns: int, maxOpenConns: int,
    members: seq<MemberState>)

  /** sqlDatabasesConfig. */
  class DatabasesConfig {
    const user: string
    const pass: string
    const connMaxLifetime: int
    const maxIdleConns: int
    const maxOpenConns: int
    var members: seq<Member>

    function States(): seq<MemberState>
      reads this, members
    {
      StatesOf(members)
    }

    constructor (v: ConfigValue, members: seq<Member>)
      ensures user == v.user && pass == v.pass && connMaxLifetime == v.connMaxLifetime
      ensures maxIdleConns == v.maxIdleConns && maxOpenConns == v.maxOpenConns
      ensures this.members == members
    {
      user := v.user;
      pass := v.pass;
      connMaxLifetime := v.connMaxLifetime;
      maxIdleConns := v.maxIdleConns;
      maxOpenConns := v.maxOpenConns;
      this.members := members;
    }

    /**
     * expandMembers: turns each member into one new member per id of its
     * DB range, named for that id, whose exhausted range is that id when it
     * was exhausted; the members are replaced only when every copy parses.
     */
    method ExpandMembers() returns (err: Option<ConfigError>)
      modifies this`members
      ensures ExpandAll(old(States())).Err? ==>
                err == Some(ExpandAll(old(States())).error) && members == old(members)
      ensures ExpandAll(old(States())).Ok? ==>
                && err == None
                && States() == ExpandAll(old(States())).value
                && forall x :: x in members ==> fresh(x)
    {
      ghost var before := States();
      var newMem;
      newMem, err := ExpandAllMembers(members);
      assert StatesOf(members) == before;
      if err.None? {
        ghost var after := StatesOf(newMem);
        members := newMem;
        assert States() == after;
      }
    }
  }

  /** The loop of expandMembers: the copies of every member, in order, until one fails to parse. */
  method ExpandAllMembers(ms: seq<Member>) returns (newMem: seq<Member>, err: Option<ConfigError>)
    ensures ExpandAll(StatesOf(ms)).Err? ==> err == Some(ExpandAll(StatesOf(ms)).error)
    ensures ExpandAll(StatesOf(ms)).Ok? ==> err == None && StatesOf(newMem) == ExpandAll(StatesOf(ms)).value
    ensures StatesOf(ms) == old(StatesOf(ms))
    ensures forall x :: x in newMem ==> fresh(x)
  {
    ghost var st := StatesOf(ms);
    newMem := [];
    var i := 0;
    err := None;
    while i < |ms| && err.None?
      invariant 0 <= i <= |ms| && StatesOf(ms) == st
      invariant forall x :: x in newMem ==> fresh(x)
      invariant err.None? ==> ExpandAll(st[..i]) == Ok(StatesOf(newMem))
      invariant err.Some? ==> ExpandAll(st[..i]) == Err(err.value)
    {
      newMem, err := ExpandNext(ms, st, i, newMem);
      i := i + 1;
    }
    if err.Some? {
      ExpandAllErrSticks(st, i);
    } else {
      assert st[..i] == st;
    }
  }

  /** One turn of expandMembers' loop: the copies of member `i`, appended when they all parse. */
  method ExpandNext(ms: seq<Member>, ghost st: seq<MemberState>, i: nat, newMem: seq<Member>)
    returns (more: seq<Member>, err: Option<ConfigError>)
    requires i < |ms| && st == StatesOf(ms) && ExpandAll(st[..i]) == Ok(StatesOf(newMem))
    ensures StatesOf(ms) == st
    ensures err.Some? ==> ExpandAll(st[..i + 1]) == Err(err.value)
    ensures err.None? ==> ExpandAll(st[..i + 1]) == Ok(StatesOf(more))
    ensures forall x :: x in more ==> x in newMem || fresh(x)
  {
    ExpandAllStep(st, i);
    ghost var done := StatesOf(newMem);
    var added;
    added, err := ExpandMember(ms[i]);
    assert StatesOf(newMem) == done && StatesOf(ms) == st;
    more := newMem;
    if err.None? {
      StatesOfAppend(newMem, added);
      more := newMem + added;
    }
  }

  lemma ExpandAllStep(ms: seq<MemberState>, i: nat)
    requires i < |ms| && ExpandAll(ms[..i]).Ok?
    ensures ExpandIds(ms[i], ms[i].dbrange).Err? ==> ExpandAll(ms[..i + 1]) == Err(ExpandIds(ms[i], ms[i].dbrange).error)
    ensures ExpandIds(ms[i], ms[i].dbrange).Ok? ==>
              ExpandAll(ms[..i + 1]) == Ok(ExpandAll(ms[..i]).value + ExpandIds(ms[i], ms[i].dbrange).value)
  {
    var p := ms[..i + 1];
    assert p[..|p| - 1] == ms[..i] && p[|p| - 1] == ms[i];
  }

  lemma ExpandIdsStep(m: MemberState, ids: seq<nat>, j: nat)
    requires j < |ids| && ExpandIds(m, ids[..j]).Ok?
    ensures var p := ParseMember(CopyFor(m, ids[j]));
            && (p.err.Some? ==> ExpandIds(m, ids[..j + 1]) == Err(p.err.value))
            && (p.err.None? ==> ExpandIds(m, ids[..j + 1]) == Ok(ExpandIds(m, ids[..j]).value + [Applied(CopyFor(m, ids[j]), p)]))
  {
    assert ids[..j + 1][..j] == ids[..j];
  }

  /** One turn of expandMember's loop: the copy for `ids[j]` is parsed and, when it parses, appended. */
  method CopyNext(m: Member, ids: seq<nat>, j: nat, added: seq<Member>) returns (more: seq<Member>, err: Option<ConfigError>)
    requires j < |ids| && ExpandIds(m.State(), ids[..j]) == Ok(StatesOf(added))
    ensures err.Some? ==> ExpandIds(m.State(), ids[..j + 1]) == Err(err.value)
    ensures err.None? ==> ExpandIds(m.State(), ids[..j + 1]) == Ok(StatesOf(more))
    ensures forall x :: x in more ==> x in added || fresh(x)
  {
    ghost var done := StatesOf(added);
    var nm;
    nm, err := CopyMember(m, ids[j]);
    assert StatesOf(added) == done;
    ExpandIdsNext(m.State(), ids, j, done, err, nm.State());
    more := added;
    if err.None? {
      StatesOfAppend(added, [nm]);
      more := added + [nm];
    }
  }

  /** The parsed copy for the next id either fails the expansion or extends it. */
  lemma ExpandIdsNext(m: MemberState, ids: seq<nat>, j: nat, done: seq<MemberState>, e: Option<ConfigError>, c: MemberState)
    requires j < |ids| && ExpandIds(m, ids[..j]) == Ok(done)
    requires e == ParseMember(CopyFor(m, ids[j])).err
    requires c == Applied(CopyFor(m, ids[j]), ParseMember(CopyFor(m, ids[j])))
    ensures e.Some? ==> ExpandIds(m, ids[..j + 1]) == Err(e.value)
    ensures e.None? ==> ExpandIds(m, ids[..j + 1]) == Ok(done + [c])
  {
    ExpandIdsStep(m, ids, j);
  }

  /** One copy of a member for an id: `nm := *m`, renamed and re-ranged for the id, then parsed. */
  method CopyMember(m: Member, id: nat) returns (nm: Member, err: Option<ConfigError>)
    ensures fresh(nm)
    ensures err == ParseMember(CopyFor(m.State(), id)).err
    ensures nm.State() == Applied(CopyFor(m.State(), id), ParseMember(CopyFor(m.State(), id)))
  {
    nm := new Member(m.State());
    nm.dbName := nm.GetDBName(id);
    nm.dbRange := FormatUint(id);
    if ListContains(m.dbrangeExhausted, id) {
      nm.exhaustedDBRange := nm.dbRange;
    } else {
      nm.exhaustedDBRange := "";
    }
    assert nm.State() == CopyFor(m.State(), id);
    err := nm.Parse();
  }

  /** The inner loop of expandMembers: the copies of one member for each of its ids. */
  method ExpandMember(m: Member) returns (added: seq<Member>, err: Option<ConfigError>)
    ensures ExpandIds(m.State(), m.dbrange).Err? ==> err == Some(ExpandIds(m.State(), m.dbrange).error)
    ensures ExpandIds(m.State(), m.dbrange).Ok? ==> err == None && StatesOf(added) == ExpandIds(m.State(), m.dbrange).value
    ensures forall x :: x in added ==> fresh(x)
  {
    ghost var st := m.State();
    var ids := m.dbrange;
    added := [];
    err := None;
    var j := 0;
    while j < |ids| && err.None?
      invariant 0 <= j <= |ids|
      invariant err.None? ==> ExpandIds(st, ids[..j]) == Ok(StatesOf(added))
      invariant err.Some? ==> ExpandIds(st, ids[..j]) == Err(err.value)
      invariant forall x :: x in added ==> fresh(x)
    {
      added, err := CopyNext(m, ids, j, added);
      j := j + 1;
    }
    if err.Some? {
      ExpandIdsErrSticks(st, ids, j);
    } else {
      assert ids[..j] == ids;
    }
  }

  /** `c` is the parsed copy of `m` for `id`: single-id ranges, the formatted name, the other fields kept. */
  predicate IsCopyFor(m: MemberState, id: nat, c: MemberState)
  {
    && c.dbrange == [id] && c.dbRange == FormatUint(id)
    && c.dbName == DBName(m.dbName, id)
    && c.dbrangeExhausted == (if id in m.dbrangeExhausted then [id] else [])
    && c.servers == m.servers && c.description == m.description
  }

  /**
   * The copy of a member with one server for an id parses, and holds just
   * that id, exhausted exactly when the id was.
   */
  lemma CopyForParses(m: MemberState, id: nat)
    requires |m.servers| == 1 && id <= MaxUint64
    ensures ParseMember(CopyFor(m, id)).err == None
    ensures IsCopyFor(m, id, Applied(CopyFor(m, id), ParseMember(CopyFor(m, id))))
  {
    ParseSingle(CopyFor(m, id), id, id in m.dbrangeExhausted);
  }

  /** A member whose DB range is one id, and whose exhausted range is that id or empty, parses to just that id. */
  lemma ParseSingle(c: MemberState, id: nat, exhausted: bool)
    requires |c.servers| == 1 && id <= MaxUint64
    requires c.dbRange == FormatUint(id) && c.exhaustedDBRange == (if exhausted then FormatUint(id) else "")
    ensures ParseMember(c) == ParseOutcome(None, [id], if exhausted then [id] else [])
  {
    ParseOneId(id);
    ParseEmpty();
    ParseMemberOfIds(c, [id], if exhausted then [id] else []);
  }

  /** parse succeeds once both ranges parse to ids, the DB range non-empty and holding the exhausted ones, with one server. */
  lemma ParseMemberOfIds(c: MemberState, ids: seq<nat>, exIds: seq<nat>)
    requires ParseList(c.dbRange) == Ok(Ids(ids)) && ParseList(c.exhaustedDBRange) == Ok(Ids(exIds))
    requires |ids| > 0 && ListIsSubset(exIds, ids) && |c.servers| == 1
    ensures ParseMember(c) == ParseOutcome(None, ids, exIds)
  {
  }

  /** The decimal form of one id parses back to that id alone. */
  lemma ParseOneId(id: nat)
    requires id <= MaxUint64
    ensures ParseList(FormatUint(id)) == Ok(Ids([id]))
  {
    ParseFormatList([id]);
    assert FormatList([id]) == FormatUint(id);
  }

  /** The empty text parses to no ids. */
  lemma ParseEmpty()
    ensures ParseList("") == Ok(Ids([]))
  {
    ParseFormatList([]);
    assert FormatList([]) == "";
  }

  /** One more id: the expansion grows by that id's parsed copy. */
  lemma ExpandIdsLast(m: MemberState, ids: seq<nat>)
    requires |ids| > 0 && |m.servers| == 1 && ids[|ids| - 1] <= MaxUint64
    requires ExpandIds(m, ids[..|ids| - 1]).Ok?
    ensures ExpandIds(m, ids).Ok?
    ensures |ExpandIds(m, ids).value| == |ids|
    ensures ExpandIds(m, ids).value[..|ids| - 1] == ExpandIds(m, ids[..|ids| - 1]).value
    ensures IsCopyFor(m, ids[|ids| - 1], ExpandIds(m, ids).value[|ids| - 1])
  {
    CopyForParses(m, ids[|ids| - 1]);
  }

  /** Expanding a member with one server gives one well-formed single-id member per id, in order. */
  lemma {:induction false} ExpandIdsOneEach(m: MemberState, ids: seq<nat>)
    requires |m.servers| == 1 && AllUint64(ids)
    ensures ExpandIds(m, ids).Ok?
    ensures forall k :: 0 <= k < |ids| ==> IsCopyFor(m, ids[k], ExpandIds(m, ids).value[k])
  {
    if ids != [] {
      var n := |ids|;
      var prefix := ids[..n - 1];
      ExpandIdsOneEach(m, prefix);
      ExpandIdsLast(m, ids);
      var all := ExpandIds(m, ids).value;
      forall k | 0 <= k < n
        ensures IsCopyFor(m, ids[k], all[k])
      {
        if k < n - 1 {
          assert all[k] == all[..n - 1][k] && ids[k] == prefix[k];
        }
      }
    }
  }

  /** The total number of ids over the members. */
  function TotalIds(ms: seq<MemberState>): nat
  {
    if ms == [] then 0 else TotalIds(ms[..|ms| - 1]) + |ms[|ms| - 1].dbrange|
  }

  /** expandMembers succeeds on parsed members and gives one member per id overall. */
  lemma {:induction false} ExpandAllOneEach(ms: seq<MemberState>)
    requires forall i :: 0 <= i < |ms| ==> |ms[i].servers| == 1 && AllUint64(ms[i].dbrange)
    ensures ExpandAll(ms).Ok?
    ensures |ExpandAll(ms).value| == TotalIds(ms)
    ensures forall k :: 0 <= k < |ExpandAll(ms).value| ==> |ExpandAll(ms).value[k].dbrange| == 1
  {
    if ms != [] {
      var n := |ms|;
      ExpandAllOneEach(ms[..n - 1]);
      ExpandIdsOneEach(ms[n - 1], ms[n - 1].dbrange);
    }
  }

  /** A member loadSqlManagerConfig parsed has one server and uint64 ids. */
  lemma ParsedMembersExpand(ms: seq<MemberState>)
    requires ParseAll(ms).Ok?
    ensures ExpandAll(ParseAll(ms).value).Ok?
    ensures |ExpandAll(ParseAll(ms).value).value| == TotalIds(ParseAll(ms).value)
  {
    ParseAllWellFormed(ms);
    ExpandAllOneEach(ParseAll(ms).value);
  }

  lemma {:induction false} ParseAllWellFormed(ms: seq<MemberState>)
    requires ParseAll(ms).Ok?
    ensures forall i :: 0 <= i < |ms| ==> WellFormed(ParseAll(ms).value[i])
    ensures forall i :: 0 <= i < |ms| ==> |ParseAll(ms).value[i].servers| == 1 && AllUint64(ParseAll(ms).value[i].dbrange)
  {
    if ms != [] {
      var n := |ms|;
      var all := ParseAll(ms).value;
      ParseAllSnoc(ms);
      ParseAllWellFormed(ms[..n - 1]);
      ParseMemberWellFormed(ms[n - 1]);
      forall i | 0 <= i < n
        ensures WellFormed(all[i]) && |all[i].servers| == 1 && AllUint64(all[i].dbrange)
      {
        if i < n - 1 {
          assert all[i] == ParseAll(ms[..n - 1]).value[i];
        }
      }
    }
  }

  lemma ParseAllSnoc(ms: seq<MemberState>)
    requires ms != [] && ParseAll(ms).Ok?
    ensures ParseAll(ms[..|ms| - 1]).Ok? && ParseMember(ms[|ms| - 1]).err.None?
    ensures ParseAll(ms).value == ParseAll(ms[..|ms| - 1]).value + [Applied(ms[|ms| - 1], ParseMember(ms[|ms| - 1]))]
  {
  }

  /** A member that parses is well-formed afterwards, its ids all within uint64. */
  lemma ParseMemberWellFormed(m: MemberState)
    requires ParseMember(m).err.None?
    ensures WellFormed(Applied(m, ParseMember(m)))
    ensures AllUint64(Applied(m, ParseMember(m)).dbrange)
  {
    ParseMemberOk(m);
  }

  /** Every member an expansion produces parsed: it is well-formed. */
  lemma {:induction false} ExpandIdsWellFormed(m: MemberState, ids: seq<nat>)
    requires ExpandIds(m, ids).Ok?
    ensures forall k :: 0 <= k < |ids| ==> WellFormed(ExpandIds(m, ids).value[k])
  {
    if ids != [] {
      var n := |ids|;
      var all := ExpandIds(m, ids).value;
      ExpandIdsSnoc(m, ids);
      ExpandIdsWellFormed(m, ids[..n - 1]);
      ParseMemberWellFormed(CopyFor(m, ids[n - 1]));
      forall k | 0 <= k < n
        ensures WellFormed(all[k])
      {
        if k < n - 1 {
          assert all[k] == ExpandIds(m, ids[..n - 1]).value[k];
        }
      }
    }
  }

  lemma ExpandIdsSnoc(m: MemberState, ids: seq<nat>)
    requires ids != [] && ExpandIds(m, ids).Ok?
    ensures ExpandIds(m, ids[..|ids| - 1]).Ok? && ParseMember(CopyFor(m, ids[|ids| - 1])).err.None?
    ensures ExpandIds(m, ids).value ==
              ExpandIds(m, ids[..|ids| - 1]).value + [Applied(CopyFor(m, ids[|ids| - 1]), ParseMember(CopyFor(m, ids[|ids| - 1])))]
  {
  }

  /** Every member expandMembers leaves behind is well-formed: one server and a non-empty parsed range. */
  lemma {:induction false} ExpandAllWellFormed(ms: seq<MemberState>)
    requires ExpandAll(ms).Ok?
    ensures forall k :: 0 <= k < |ExpandAll(ms).value| ==> WellFormed(ExpandAll(ms).value[k])
  {
    if ms != [] {
      var n := |ms|;
      ExpandAllWellFormed(ms[..n - 1]);
      ExpandIdsWellFormed(ms[n - 1], ms[n - 1].dbrange);
    }
  }

  /** yaml.Unmarshal's members: one new object per decoded entry. */
  method NewMembers(ms: seq<MemberState>) returns (objs: seq<Member>)
    ensures |objs| == |ms|
    ensures forall k :: 0 <= k < |objs| ==> fresh(objs[k]) && objs[k].State() == ms[k]
    ensures forall a, b :: 0 <= a < b < |objs| ==> objs[a] != objs[b]
  {
    objs := [];
    while |objs| < |ms|
      invariant |objs| <= |ms|
      invariant forall k :: 0 <= k < |objs| ==> fresh(objs[k]) && objs[k].State() == ms[k]
      invariant forall a, b :: 0 <= a < b < |objs| ==> objs[a] != objs[b]
    {
      var m := new Member(ms[|objs|]);
      objs := objs + [m];
    }
  }

  /** The parse loop of loadSqlManagerConfig over distinct members; the first failure stops it. */
  method ParseMembers(objs: seq<Member>) returns (err: Option<ConfigError>)
    requires forall a, b :: 0 <= a < b < |objs| ==> objs[a] != objs[b]
    modifies set m | m in objs
    ensures ParseAll(old(StatesOf(objs))).Err? ==> err == Some(ParseAll(old(StatesOf(objs))).error)
    ensures ParseAll(old(StatesOf(objs))).Ok? ==> err == None && StatesOf(objs) == ParseAll(old(StatesOf(objs))).value
  {
    ghost var ms := StatesOf(objs);
    ghost var parsed: seq<MemberState> := [];
    var i := 0;
    err := None;
    while i < |objs| && err.None?
      invariant ParseProgress(objs, ms, parsed, i, err)
    {
      err := ParseAt(objs, ms, parsed, i);
      parsed := parsed + [objs[i].State()];
      i := i + 1;
    }
    if err.Some? {
      ParseAllErrSticks(ms, i);
    } else {
      assert ms[..i] == ms;
      assert StatesOf(objs) == parsed;
    }
  }

  /**
   * How far the parse loop has got: the first `i` members hold their parsed
   * states `parsed`, the others are as they were in `ms`, and `err` is the
   * error of the first `i` parses, if any.
   */
  ghost predicate ParseProgress(objs: seq<Member>, ms: seq<MemberState>, parsed: seq<MemberState>, i: nat, err: Option<ConfigError>)
    reads set m | m in objs
  {
    && i <= |objs| == |ms| && |parsed| == i
    && (forall k :: i <= k < |objs| ==> objs[k].State() == ms[k])
    && (forall k :: 0 <= k < i ==> objs[k].State() == parsed[k])
    && (err.None? ==> ParseAll(ms[..i]) == Ok(parsed))
    && (err.Some? ==> ParseAll(ms[..i]) == Err(err.value))
  }

  /** Parses the member at `i`; the other members, distinct objects, keep their fields. */
  method ParseAt(objs: seq<Member>, ghost ms: seq<MemberState>, ghost parsed: seq<MemberState>, i: nat)
    returns (err: Option<ConfigError>)
    requires i < |objs| && forall a, b :: 0 <= a < b < |objs| ==> objs[a] != objs[b]
    requires ParseProgress(objs, ms, parsed, i, None)
    modifies objs[i]
    ensures ParseProgress(objs, ms, parsed + [objs[i].State()], i + 1, err)
  {
    ParseAllStep(ms, i);
    label L:
    err := objs[i].Parse();
    forall k | 0 <= k < |objs| && k != i
      ensures objs[k].State() == old@L(objs[k].State())
    {
      assert objs[k] != objs[i];
    }
  }

  lemma ParseAllStep(ms: seq<MemberState>, i: nat)
    requires i < |ms| && ParseAll(ms[..i]).Ok?
    ensures ParseMember(ms[i]).err.Some? ==> ParseAll(ms[..i + 1]) == Err(ParseMember(ms[i]).err.value)
    ensures ParseMember(ms[i]).err.None? ==> ParseAll(ms[..i + 1]) == Ok(ParseAll(ms[..i]).value + [Applied(ms[i], ParseMember(ms[i]))])
  {
    assert ms[..i + 1][..i] == ms[..i];
  }

  /**
   * loadSqlManagerConfig: a decoding error is returned as is; otherwise
   * every member is parsed in order and the first failure is the error.
   */
  method LoadSqlManagerConfig(decoded: Result<ConfigValue, string>) returns (r: Result<DatabasesConfig, ConfigError>)
    ensures decoded.Err? ==> r == Err(YamlError(decoded.error))
    ensures decoded.Ok? ==> (r.Ok? <==> ParseAll(decoded.value.members).Ok?)
    ensures decoded.Ok? && r.Err? ==> r.error == ParseAll(decoded.value.members).error
    ensures r.Ok? ==> && fresh(r.value)
                      && r.value.States() == ParseAll(decoded.value.members).value
                      && r.value.user == decoded.value.user && r.value.pass == decoded.value.pass
                      && r.value.connMaxLifetime == decoded.value.connMaxLifetime
                      && r.value.maxIdleConns == decoded.value.maxIdleConns
                      && r.value.maxOpenConns == decoded.value.maxOpenConns
  {
    if decoded.Err? {
      return Err(YamlError(decoded.error));
    }
    var objs := NewMembers(decoded.value.members);
    assert StatesOf(objs) == decoded.value.members;
    var e := ParseMembers(objs);
    if e.Some? {
      return Err(e.value);
    }
    var conf := new DatabasesConfig(decoded.value, objs);
    return Ok(conf);
  }
}
