/**
 * The command line of sdms-cli/main.go: the service-name check, the
 * resource list, and which outcome the arguments lead to. Generating the
 * project (walking the template directory, running the Go tools) is not
 * part of this model; the outcome names what would be generated.
 */
module SdmsCli {
  import opened Wrappers
  import opened GoStrings

  /** [[:alpha:]]: an ASCII letter. */
  predicate IsAlpha(c: char)
  {
    'a' <= c <= 'z' || 'A' <= c <= 'Z'
  }

  /** [[:alnum:]]: an ASCII letter or digit. */
  predicate IsAlnum(c: char)
  {
    IsAlpha(c) || '0' <= c <= '9'
  }

  /**
   * The pattern ^[[:alpha:]][[:alnum:]]*(-[[:alnum:]]+)*$ as an automaton:
   * state 0 expects the first letter, state 1 (accepting) follows a letter
   * or digit, state 2 follows a '-' and expects a letter or digit.
   */
  predicate Accepts(state: nat, s: string)
    decreases |s|
  {
    if s == [] then state == 1
    else if state == 0 then IsAlpha(s[0]) && Accepts(1, s[1..])
    else if state == 1 then (IsAlnum(s[0]) && Accepts(1, s[1..])) || (s[0] == '-' && Accepts(2, s[1..]))
    else IsAlnum(s[0]) && Accepts(1, s[1..])
  }

  /** validateServiceName: the name matches the pattern above. */
  predicate ValidServiceName(sname: string)
  {
    Accepts(0, sname)
  }

  /**
   * What may follow the first letter: letters, digits and single '-'s
   * between them, not ending in '-'.
   */
  predicate Groups(s: string)
  {
    && (forall k :: 0 <= k < |s| ==> IsAlnum(s[k]) || s[k] == '-')
    && (forall k :: 0 <= k < |s| - 1 ==> !(s[k] == '-' && s[k + 1] == '-'))
    && (s != [] ==> s[|s| - 1] != '-')
  }

  lemma {:induction false} AcceptsGroups(s: string)
    ensures Accepts(1, s) <==> Groups(s)
    decreases |s|
  {
    if s != [] {
      var t := s[1..];
      AcceptsGroups(t);
      if IsAlnum(s[0]) {
        assert Groups(s) <==> Groups(t) by {
          if Groups(t) {
            forall k | 0 <= k < |s| - 1
              ensures !(s[k] == '-' && s[k + 1] == '-')
            {
              if k > 0 {
                assert s[k] == t[k - 1] && s[k + 1] == t[k];
              }
            }
          }
          if Groups(s) {
            forall k | 0 <= k < |t| - 1
              ensures !(t[k] == '-' && t[k + 1] == '-')
            {
              assert t[k] == s[k + 1] && t[k + 1] == s[k + 2];
            }
          }
        }
      } else if s[0] == '-' {
        if |s| >= 2 {
          AcceptsGroups(s[2..]);
          assert s[1..][1..] == s[2..];
          assert Groups(s) <==> IsAlnum(s[1]) && Groups(s[2..]) by {
            var u := s[2..];
            if IsAlnum(s[1]) && Groups(u) {
              forall k | 0 <= k < |s| - 1
                ensures !(s[k] == '-' && s[k + 1] == '-')
              {
                if k > 1 {
                  assert s[k] == u[k - 2] && s[k + 1] == u[k - 1];
                }
              }
              assert forall k :: 2 <= k < |s| ==> s[k] == u[k - 2];
            }
            if Groups(s) {
              assert s[1] != '-';
              assert IsAlnum(s[1]);
              forall k | 0 <= k < |u| - 1
                ensures !(u[k] == '-' && u[k + 1] == '-')
              {
                assert u[k] == s[k + 2] && u[k + 1] == s[k + 3];
              }
              assert forall k :: 0 <= k < |u| ==> u[k] == s[k + 2];
            }
          }
        }
      }
    }
  }

  /** A valid service name is a letter followed by letters or digits, joined by single '-'s, not ending in '-'. */
  lemma ValidServiceNameSpec(sname: string)
    ensures ValidServiceName(sname) <==> sname != [] && IsAlpha(sname[0]) && Groups(sname[1..])
  {
    if sname != [] {
      AcceptsGroups(sname[1..]);
    }
  }

  /** "note-svc" is a valid name. */
  lemma ValidNameExample()
    ensures ValidServiceName("note-svc")
  {
    var n := "note-svc";
    assert n[1..] == "ote-svc" && n[2..] == "te-svc" && n[3..] == "e-svc" && n[4..] == "-svc";
    assert n[5..] == "svc" && n[6..] == "vc" && n[7..] == "c" && n[8..] == "";
  }

  /** Names starting with a digit, holding "--" or ending in '-' are refused, and so is the empty name. */
  lemma InvalidNameExamples()
    ensures !ValidServiceName("1a") && !ValidServiceName("a--b") && !ValidServiceName("a-") && !ValidServiceName("")
  {
    assert "a--b"[1..] == "--b" && "--b"[1..] == "-b";
    assert "a-"[1..] == "-" && "-"[1..] == "";
  }

  /** The resources named by the -r flag: the comma-separated names, trimmed, empty ones dropped. */
  function ResourceSet(res: string): set<string>
  {
    set t | t in TrimmedFields(Split(res, ','))
  }

  /** The keys of `m` are exactly the names listed in `names`. */
  predicate KeysAre(m: map<string, bool>, names: seq<string>)
  {
    m.Keys == set t | t in names
  }

  lemma ResourceStep(resources: map<string, bool>, pieces: seq<string>, i: int)
    requires 0 <= i < |pieces|
    requires KeysAre(resources, TrimmedFields(pieces[..i]))
    ensures KeysAre(if TrimSpace(pieces[i]) != "" then resources[TrimSpace(pieces[i]) := true] else resources,
                    TrimmedFields(pieces[..i + 1]))
  {
    TrimmedFieldsStep(pieces, i);
  }

  /** The loop of main filling the resource map: every kept name maps to true. */
  method ParseResources(res: string) returns (resources: map<string, bool>)
    ensures resources.Keys == ResourceSet(res)
    ensures forall t :: t in resources ==> resources[t]
    ensures forall t :: t in resources ==> IsTrimmedWord(t)
  {
    var resList := Split(res, ',');
    resources := map[];
    var i := 0;
    while i < |resList|
      invariant 0 <= i <= |resList|
      invariant KeysAre(resources, TrimmedFields(resList[..i]))
      invariant forall t :: t in resources ==> resources[t]
    {
      ResourceStep(resources, resList, i);
      var s := TrimSpace(resList[i]);
      if s != "" {
        resources := resources[s := true];
      }
      i := i + 1;
    }
    assert resList[..i] == resList;
    ResourcesOfSplit(resources, res);
  }

  lemma ResourcesOfSplit(resources: map<string, bool>, res: string)
    requires KeysAre(resources, TrimmedFields(Split(res, ',')))
    ensures resources.Keys == ResourceSet(res)
    ensures forall t :: t in resources ==> IsTrimmedWord(t)
  {
    TrimmedFieldsAreWords(Split(res, ','));
  }

  lemma DefaultJoin()
    ensures Join(["logfile", "redis", "mgo"], ",") == "logfile,redis,mgo"
  {
    var words := ["logfile", "redis", "mgo"];
    assert words[1..] == ["redis", "mgo"] && words[1..][1..] == ["mgo"];
  }

  lemma DefaultWords()
    ensures forall k :: 0 <= k < 3 ==> IsTrimmedWord(["logfile", "redis", "mgo"][k])
    ensures forall k :: 0 <= k < 3 ==> ',' !in ["logfile", "redis", "mgo"][k]
  {
  }

  /** The default resource list names logfile, redis and mgo. */
  lemma DefaultResources()
    ensures ResourceSet("logfile,redis,mgo") == {"logfile", "redis", "mgo"}
  {
    DefaultWordsSet(["logfile", "redis", "mgo"]);
    DefaultJoin();
  }

  lemma DefaultWordsSet(words: seq<string>)
    requires words == ["logfile", "redis", "mgo"]
    ensures ResourceSet(Join(words, ",")) == {"logfile", "redis", "mgo"}
  {
    DefaultWords();
    ResourceSetOfWords(words);
    assert (set t | t in words) == {"logfile", "redis", "mgo"};
  }

  /** Trimmed words without commas, joined by commas, name exactly those words. */
  lemma ResourceSetOfWords(words: seq<string>)
    requires |words| >= 1
    requires forall k :: 0 <= k < |words| ==> IsTrimmedWord(words[k]) && ',' !in words[k]
    ensures ResourceSet(Join(words, ",")) == set t | t in words
  {
    SplitJoin(words, ',');
    TrimmedFieldsOfWords(words);
  }

  /** The values the flags of `init` took, after parsing the arguments that follow the command. */
  datatype Flags = Flags(t: Option<string>, f: bool, s: Option<string>, p: Option<string>, r: Option<string>)

  /** What running the command leads to. */
  datatype Outcome =
    | Exit(code: int)
    | Init(template: string, serviceName: string, path: string, force: bool, resources: map<string, bool>)
    | PrintSdkPath

  function FlagOr(v: Option<string>, dflt: string): string
  {
    if v.Some? then v.value else dflt
  }

  /**
   * Run, the body of main: fewer than two arguments, a missing -s or -p, an invalid service
   * name or an unknown command exit with status 2; "init" otherwise
   * generates from the template with the parsed resources; "sdkpath" prints
   * the SDK path.
   */
  method Run(args: seq<string>, flags: Flags) returns (out: Outcome)
    ensures |args| < 2 ==> out == Exit(2)
    ensures |args| >= 2 && args[1] !in {"init", "sdkpath"} ==> out == Exit(2)
    ensures |args| >= 2 && args[1] == "sdkpath" ==> out == PrintSdkPath
    ensures |args| >= 2 && args[1] == "init" ==>
              var sname, path := FlagOr(flags.s, ""), FlagOr(flags.p, "");
              if sname == "" || path == "" || !ValidServiceName(sname) then out == Exit(2)
              else out.Init? && out.template == FlagOr(flags.t, "grpc") && out.serviceName == sname
                   && out.path == path && out.force == flags.f
                   && out.resources.Keys == ResourceSet(FlagOr(flags.r, "logfile,redis,mgo"))
  {
    if |args| < 2 {
      return Exit(2);
    }
    var cmd := args[1];
    if cmd == "init" {
      var tmpl := FlagOr(flags.t, "grpc");
      var sname := FlagOr(flags.s, "");
      var path := FlagOr(flags.p, "");
      var res := FlagOr(flags.r, "logfile,redis,mgo");
      if sname == "" || path == "" {
        return Exit(2);
      }
      if !ValidServiceName(sname) {
        return Exit(2);
      }
      var resources := ParseResources(res);
      return Init(tmpl, sname, path, flags.f, resources);
    } else if cmd == "sdkpath" {
      return PrintSdkPath;
    }
    return Exit(2);
  }

  /** writeTemplate: the template sources written out, skipping those whose path holds ".DS_". */
  function WrittenTemplates(srcs: seq<string>): (r: seq<string>)
    ensures forall x :: x in r <==> x in srcs && !Contains(x, ".DS_")
  {
    if srcs == [] then []
    else (if Contains(srcs[0], ".DS_") then [] else [srcs[0]]) + WrittenTemplates(srcs[1..])
  }
}
