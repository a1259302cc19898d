/**
 * The shard manager of ssql/manager.go: it loads the shard configuration,
 * opens one SQL service per database id with a URI built from a template,
 * and answers lookups by id and a listing sorted by id.
 *
 * Reading the config file, decoding YAML, connecting to a server and the
 * two statements checkAndCreateDatabase runs are foreign: their outcomes
 * are parameters.
 */
module SqlManager {
  import opened Wrappers
  import opened GoStrings
  import opened SqlManagerConfig
  import opened SqlService
  import StringSort

  const DatabaseIDNotFound: string := "DatabaseID is not found!"
  const DefaultConfigFile: string := "sqlman.yaml"
  const UriTail: string := "?parseTime=true&charset=utf8mb4,utf8"
  // The default template, cut around each placeholder.
  const AfterHost: string := ")/" + "__DBNAME__" + UriTail
  const AfterPwd: string := "@tcp(" + "__HOST__" + AfterHost
  const AfterUser: string := ":" + "__PWD__" + AfterPwd
  /** The template used when none is configured. */
  const MysqlScheme: string := "mysql" + SchemeSep
  const DefaultUriTemplate: string := MysqlScheme + "__USER__" + AfterUser

  /** DatabaseInfo: one database id with its name, description, exhausted flag and SQL service. */
  datatype DatabaseInfo = DatabaseInfo(
    id: nat, dbName: string, description: string, exhausted: bool, pool: SqlServiceImpl)

  // ------------------------------------------------------------------
  // createSqlService's URI

  /** The template with the user, the password and the host each replaced once. */
  function HostUri(template: string, user: string, pass: string, host: string): string
  {
    ReplaceOnce(ReplaceOnce(ReplaceOnce(template, "__USER__", user), "__PWD__", pass), "__HOST__", host)
  }

  /**
   * The URI of a member's service: the database name goes in when the URI
   * is for sqlite3 or a database is wanted, otherwise the placeholder is
   * removed.
   */
  function ServiceUri(template: string, user: string, pass: string, host: string,
                      dbName: string, withDb: bool): string
  {
    var uri := HostUri(template, user, pass, host);
    if HasPrefix(uri, "sqlite3") || withDb then ReplaceOnce(uri, "__DBNAME__", dbName)
    else ReplaceOnce(uri, "__DBNAME__", "")
  }

  /** A placeholder after text without '_' is the first occurrence, and only it is replaced. */
  lemma ReplaceAfterPlain(pre: string, pat: string, rep: string, post: string)
    requires '_' !in pre && |pat| > 0 && pat[0] == '_'
    ensures ReplaceOnce(pre + pat + post, pat, rep) == pre + rep + post
  {
    var s := pre + pat + post;
    var n := |pre|;
    assert s[n..n + |pat|] == pat;
    forall j | 0 <= j < n
      ensures !OccursAt(s, pat, j)
    {
      assert s[j] == pre[j];
      assert pre[j] in pre;
    }
    ReplaceOnceFirst(s, pat, rep, n);
    assert s[..n] == pre;
    assert s[n + |pat|..] == post;
  }

  lemma DefaultTemplateUser(user: string)
    ensures ReplaceOnce(DefaultUriTemplate, "__USER__", user) == MysqlScheme + user + AfterUser
  {
    ReplaceAfterPlain(MysqlScheme, "__USER__", user, AfterUser);
  }

  lemma DefaultTemplatePwd(user: string, pass: string)
    requires '_' !in user
    ensures ReplaceOnce(MysqlScheme + user + AfterUser, "__PWD__", pass) == MysqlScheme + user + ":" + pass + AfterPwd
  {
    var pre := MysqlScheme + user + ":";
    AssocAfter(MysqlScheme + user, ":", "__PWD__", AfterPwd);
    ReplaceAfterPlain(pre, "__PWD__", pass, AfterPwd);
  }

  lemma DefaultTemplateHost(pre: string, host: string)
    requires '_' !in pre
    ensures ReplaceOnce(pre + AfterPwd, "__HOST__", host) == pre + "@tcp(" + host + AfterHost
  {
    AssocAfter(pre, "@tcp(", "__HOST__", AfterHost);
    ReplaceAfterPlain(pre + "@tcp(", "__HOST__", host, AfterHost);
  }

  lemma DefaultTemplateDbName(pre: string, name: string)
    requires '_' !in pre
    ensures ReplaceOnce(pre + AfterHost, "__DBNAME__", name) == pre + ")/" + name + UriTail
  {
    AssocAfter(pre, ")/", "__DBNAME__", UriTail);
    ReplaceAfterPlain(pre + ")/", "__DBNAME__", name, UriTail);
  }

  /** The default template after the scheme and up to the host, with the user, password and host put in. */
  function DefaultAuthority(user: string, pass: string, host: string): string
  {
    user + ":" + pass + "@tcp(" + host
  }

  /** The default template up to the host, with the user, password and host put in. */
  function DefaultHead(user: string, pass: string, host: string): string
  {
    MysqlScheme + DefaultAuthority(user, pass, host)
  }

  lemma Assoc(a: string, b: string, c: string)
    ensures (a + b) + c == a + (b + c)
  {
  }

  /** A template cut after `x`: the three pieces that follow, appended one by one. */
  lemma AssocAfter(x: string, a: string, b: string, c: string)
    ensures x + (a + b + c) == x + a + b + c
  {
  }

  /** The scheme, then the authority's five pieces: appended one by one or as one. */
  lemma AssocHead(x: string, a: string, b: string, c: string, d: string, e: string)
    ensures x + (a + b + c + d + e) == x + a + b + c + d + e
  {
  }

  /** The URI the default template gives for a user, password, host and database name. */
  function DefaultUri(user: string, pass: string, host: string, name: string): string
  {
    DefaultHead(user, pass, host) + ")/" + name + UriTail
  }

  /** The default template with the user, the password and the host put in. */
  lemma DefaultTemplateHostUri(user: string, pass: string, host: string)
    requires '_' !in user && '_' !in pass
    ensures HostUri(DefaultUriTemplate, user, pass, host) == DefaultHead(user, pass, host) + AfterHost
  {
    var u1 := ReplaceOnce(DefaultUriTemplate, "__USER__", user);
    DefaultTemplateUser(user);
    var u2 := ReplaceOnce(u1, "__PWD__", pass);
    DefaultTemplatePwd(user, pass);
    var p3 := MysqlScheme + user + ":" + pass;
    assert u2 == p3 + AfterPwd;
    DefaultTemplateHost(p3, host);
    AssocHead(MysqlScheme, user, ":", pass, "@tcp(", host);
  }

  /** A URI of the mysql scheme is not one for sqlite3. */
  lemma NotSqlite(rest: string)
    ensures !HasPrefix(MysqlScheme + rest, "sqlite3")
  {
    assert (MysqlScheme + rest)[0] == 'm';
  }

  /**
   * The default template with a user, a password and a host that have no
   * '_' gives the MySQL URI for that server, naming the database only when
   * one is wanted.
   */
  lemma DefaultTemplateUri(user: string, pass: string, host: string, dbName: string, withDb: bool)
    requires '_' !in user && '_' !in pass && '_' !in host
    ensures ServiceUri(DefaultUriTemplate, user, pass, host, dbName, withDb)
            == DefaultUri(user, pass, host, if withDb then dbName else "")
  {
    var head := DefaultHead(user, pass, host);
    DefaultTemplateHostUri(user, pass, host);
    Assoc(MysqlScheme, DefaultAuthority(user, pass, host), AfterHost);
    NotSqlite(DefaultAuthority(user, pass, host) + AfterHost);
    DefaultHeadPlain(user, pass, host);
    DefaultTemplateDbName(head, if withDb then dbName else "");
  }

  /** A name without ':' does not contain "://". */
  lemma NoColonNoScheme(s: string)
    requires ':' !in s
    ensures !Contains(s, SchemeSep)
  {
    forall j | 0 <= j <= |s|
      ensures !OccursAt(s, SchemeSep, j)
    {
      if j + 3 <= |s| {
        assert s[j..j + 3][0] == s[j];
      }
    }
  }

  /** The driver name has no "://" in it. */
  lemma MysqlNoScheme()
    ensures !Contains("mysql", SchemeSep)
  {
    var m := "mysql";
    assert forall k :: 0 <= k < |m| ==> m[k] != ':';
    NoColonNoScheme(m);
  }

  /** The head of the default URI has no '_' in it when the user, password and host have none. */
  lemma DefaultHeadPlain(user: string, pass: string, host: string)
    requires '_' !in user && '_' !in pass && '_' !in host
    ensures '_' !in DefaultHead(user, pass, host)
  {
    var a, b, c := MysqlScheme, ":", "@tcp(";
    assert forall k :: 0 <= k < |a| ==> a[k] != '_';
    assert forall k :: 0 <= k < |c| ==> c[k] != '_';
    assert '_' !in a && '_' !in b && '_' !in c;
  }

  /** A service built from the default template talks to the mysql driver. */
  lemma DefaultTemplateDriver(user: string, pass: string, host: string, dbName: string, withDb: bool)
    requires '_' !in user && '_' !in pass && '_' !in host
    ensures Driver(ServiceUri(DefaultUriTemplate, user, pass, host, dbName, withDb)) == "mysql"
  {
    var name := if withDb then dbName else "";
    DefaultTemplateUri(user, pass, host, dbName, withDb);
    var auth := DefaultAuthority(user, pass, host);
    Assoc(MysqlScheme, auth, ")/");
    Assoc(MysqlScheme, auth + ")/", name);
    Assoc(MysqlScheme, auth + ")/" + name, UriTail);
    var rest := auth + ")/" + name + UriTail;
    assert DefaultUri(user, pass, host, name) == MysqlScheme + rest;
    MysqlNoScheme();
    DriverOfJoined("mysql", rest);
  }

  // ------------------------------------------------------------------
  // loadConfig and checkAndCreateDatabase

  /** What reading the config file gives: its text, "does not exist", or another error. */
  datatype FileRead = FileData(data: string) | NotExist | ReadError(msg: string)

  /**
   * The YAML text loadConfig decodes: a non-empty config string wins and
   * the file is not consulted; otherwise the file's text, with a missing
   * file reported under the default file name.
   */
  function ConfigText(configString: string, defaultConfigFile: string, read: FileRead): (r: Result<string, string>)
    ensures configString != "" ==> r == Ok(configString)
    ensures configString == "" ==> (r.Ok? <==> read.FileData?)
    ensures configString == "" && read.FileData? ==> r.value == read.data
    ensures configString == "" && read.NotExist? ==>
              r == Err(defaultConfigFile + " is not exist and sqlman-config-string is not set!")
    ensures configString == "" && read.ReadError? ==> r == Err(read.msg)
  {
    if configString == "" then
      match read
      case FileData(data) => Ok(data)
      case NotExist => Err(defaultConfigFile + " is not exist and sqlman-config-string is not set!")
      case ReadError(msg) => Err(msg)
    else Ok(configString)
  }

  /** What `SHOW DATABASES LIKE` finds: the database, no row, or a query error. */
  datatype Lookup = Found | NoRows | QueryError(msg: string)

  /**
   * checkAndCreateDatabase: nothing to do for sqlite3 or an existing
   * database; a failed lookup is returned; a missing database is created,
   * and a failed creation is reported as a permission error.
   */
  function CheckAndCreate(driver: string, dbName: string, lookup: Lookup, create: Option<string>): (r: Option<string>)
    ensures driver == "sqlite3" || lookup.Found? ==> r == None
    ensures driver != "sqlite3" && lookup.QueryError? ==> r == Some(lookup.msg)
    ensures driver != "sqlite3" && lookup.NoRows? ==>
              (r.None? <==> create.None?)
              && (create.Some? ==> r == Some("You do not have permission to view or create database \""
                                             + dbName + "\": " + create.value))
  {
    if driver == "sqlite3" then None
    else match lookup
      case Found => None
      case QueryError(msg) => Some(msg)
      case NoRows =>
        if create.Some? then
          Some("You do not have permission to view or create database \"" + dbName + "\": " + create.value)
        else None
  }

  // ------------------------------------------------------------------
  // The listing sorted by id

  predicate SortedById(s: seq<DatabaseInfo>)
  {
    forall i, j :: 0 <= i < j < |s| ==> s[i].id < s[j].id
  }

  /** The infos with `x` put in its place by id. */
  function InsertById(s: seq<DatabaseInfo>, x: DatabaseInfo): seq<DatabaseInfo>
  {
    if s == [] then [x]
    else if x.id < s[0].id then [x] + s
    else [s[0]] + InsertById(s[1..], x)
  }

  /** Inserting an info with a new id into a listing sorted by id keeps it sorted and adds exactly that entry. */
  lemma {:induction false} InsertByIdSorted(s: seq<DatabaseInfo>, x: DatabaseInfo)
    requires SortedById(s) && forall k :: 0 <= k < |s| ==> s[k].id != x.id
    ensures SortedById(InsertById(s, x)) && |InsertById(s, x)| == |s| + 1
    ensures x in InsertById(s, x) && forall k :: 0 <= k < |s| ==> s[k] in InsertById(s, x)
    ensures forall k :: 0 <= k < |InsertById(s, x)| ==> InsertById(s, x)[k] in s || InsertById(s, x)[k] == x
  {
    if s == [] {
    } else if x.id < s[0].id {
      PrependSorted(x, s);
    } else {
      var t := s[1..];
      TailSorted(s);
      InsertByIdSorted(t, x);
      InsertAfterHead(s, x, t, InsertById(t, x));
    }
  }

  /** The recursive step: the head of a sorted listing stays in front of the tail with `x` inserted. */
  lemma InsertAfterHead(s: seq<DatabaseInfo>, x: DatabaseInfo, t: seq<DatabaseInfo>, rest: seq<DatabaseInfo>)
    requires SortedById(s) && s != [] && t == s[1..] && s[0].id < x.id
    requires SortedById(rest) && |rest| == |s|
    requires x in rest && forall k :: 0 <= k < |t| ==> t[k] in rest
    requires forall k :: 0 <= k < |rest| ==> rest[k] in t || rest[k] == x
    ensures var r := [s[0]] + rest;
            && SortedById(r)
            && x in r && (forall k :: 0 <= k < |s| ==> s[k] in r)
            && (forall k :: 0 <= k < |r| ==> r[k] in s || r[k] == x)
  {
    var r := [s[0]] + rest;
    forall k | 0 <= k < |rest|
      ensures s[0].id < rest[k].id
    {
      if rest[k] != x {
        var m :| 0 <= m < |t| && t[m] == rest[k];
        assert t[m] == s[m + 1];
      }
    }
    PrependSorted(s[0], rest);
    forall k | 0 <= k < |r|
      ensures r[k] in s || r[k] == x
    {
      if k > 0 {
        assert r[k] == rest[k - 1];
        assert s == [s[0]] + t;
      }
    }
    forall k | 0 <= k < |s|
      ensures s[k] in r
    {
      if k > 0 {
        assert s[k] == t[k - 1];
      }
    }
  }

  lemma TailSorted(s: seq<DatabaseInfo>)
    requires SortedById(s) && s != []
    ensures SortedById(s[1..])
  {
    var t := s[1..];
    forall i, j | 0 <= i < j < |t|
      ensures t[i].id < t[j].id
    {
      assert t[i] == s[i + 1] && t[j] == s[j + 1];
    }
  }

  /** An entry with a smaller id than all of a sorted listing can go in front of it. */
  lemma PrependSorted(h: DatabaseInfo, rest: seq<DatabaseInfo>)
    requires SortedById(rest) && forall k :: 0 <= k < |rest| ==> h.id < rest[k].id
    ensures SortedById([h] + rest)
  {
    var r := [h] + rest;
    forall i, j | 0 <= i < j < |r|
      ensures r[i].id < r[j].id
    {
      assert r[j] == rest[j - 1];
      if i > 0 {
        assert r[i] == rest[i - 1];
      }
    }
  }

  /** Two listings sorted by id with the same entries are the same listing. */
  lemma {:induction false} SortedUnique(a: seq<DatabaseInfo>, b: seq<DatabaseInfo>)
    requires SortedById(a) && SortedById(b) && |a| == |b|
    requires forall k :: 0 <= k < |a| ==> a[k] in b
    requires forall k :: 0 <= k < |b| ==> b[k] in a
    ensures a == b
  {
    if a != [] {
      HeadsEqual(a, b);
      TailsSameEntries(a, b);
      TailSorted(a);
      TailSorted(b);
      SortedUnique(a[1..], b[1..]);
      StringSort.HeadTailEqual(a, b);
    }
  }

  /** Each listing's first entry is in the other, so neither has a smaller id: they are the same. */
  lemma HeadsEqual(a: seq<DatabaseInfo>, b: seq<DatabaseInfo>)
    requires SortedById(a) && SortedById(b) && |a| == |b| > 0
    requires forall k :: 0 <= k < |a| ==> a[k] in b
    requires forall k :: 0 <= k < |b| ==> b[k] in a
    ensures a[0] == b[0]
  {
    assert a[0] in b && b[0] in a;
    var i :| 0 <= i < |a| && a[i] == b[0];
    var j :| 0 <= j < |b| && b[j] == a[0];
    assert a[0].id <= a[i].id;
    assert b[0].id <= b[j].id;
  }

  /** With the same first entry, the rest of each listing is in the rest of the other. */
  lemma TailsSameEntries(a: seq<DatabaseInfo>, b: seq<DatabaseInfo>)
    requires SortedById(a) && SortedById(b) && |a| == |b| > 0 && a[0] == b[0]
    requires forall k :: 0 <= k < |a| ==> a[k] in b
    requires forall k :: 0 <= k < |b| ==> b[k] in a
    ensures forall k :: 0 <= k < |a| - 1 ==> a[1..][k] in b[1..]
    ensures forall k :: 0 <= k < |b| - 1 ==> b[1..][k] in a[1..]
  {
    forall k | 0 <= k < |a| - 1
      ensures a[1..][k] in b[1..]
    {
      assert a[1..][k] == a[k + 1] && a[k + 1] in b;
      var m :| 0 <= m < |b| && b[m] == a[k + 1];
      assert a[0].id < a[k + 1].id;
      assert b[1..][m - 1] == b[m];
    }
    forall k | 0 <= k < |b| - 1
      ensures b[1..][k] in a[1..]
    {
      assert b[1..][k] == b[k + 1] && b[k + 1] in a;
      var m :| 0 <= m < |a| && a[m] == b[k + 1];
      assert b[0].id < b[k + 1].id;
      assert a[1..][m - 1] == a[m];
    }
  }

  // ------------------------------------------------------------------
  // What Configure's steps fail with

  /** The error Configure gives for an embedded service's URI: the URI check, then opening and pinging it. */
  function ConnectError(uri: string, connect: string -> Result<nat, string>): (r: Option<string>)
    ensures r.None? <==> uri != "" && Contains(uri, SchemeSep) && connect(uri).Ok?
  {
    if UriError("", uri).Some? then UriError("", uri)
    else if connect(uri).Err? then Some(connect(uri).error)
    else None
  }

  /**
   * The error of opening one member's service: opened without a database;
   * unless the driver is sqlite3, the database checked or created and the
   * service opened again on it. None when every step succeeded.
   */
  function OpenError(template: string, user: string, pass: string, host: string, dbName: string,
                     connect: string -> Result<nat, string>, lookup: string -> Lookup,
                     create: string -> Option<string>): Option<string>
  {
    var uri := ServiceUri(template, user, pass, host, dbName, false);
    if ConnectError(uri, connect).Some? then ConnectError(uri, connect)
    else if Driver(uri) == "sqlite3" then None
    else
      var check := CheckAndCreate(Driver(uri), dbName, lookup(dbName), create(dbName));
      if check.Some? then check
      else ConnectError(ServiceUri(template, user, pass, host, dbName, true), connect)
  }

  /** OpenError for a member: its first server, and the database name of its first id. */
  function MemberError(template: string, user: string, pass: string, m: MemberState,
                       connect: string -> Result<nat, string>, lookup: string -> Lookup,
                       create: string -> Option<string>): Option<string>
    requires |m.servers| > 0 && |m.dbrange| > 0
  {
    OpenError(template, user, pass, m.servers[0], DBName(m.dbName, m.dbrange[0]), connect, lookup, create)
  }

  /** The info Configure files for a member: its first id, that id's name, its description and exhausted flag. */
  predicate InfoOf(info: DatabaseInfo, m: MemberState)
  {
    && |m.dbrange| > 0 && info.id == m.dbrange[0] && info.dbName == DBName(m.dbName, m.dbrange[0])
    && info.description == m.description && info.exhausted == (m.dbrange[0] in m.dbrangeExhausted)
  }

  /** A loaded and expanded configuration: the decoded user and password, and the expanded members. */
  datatype Loaded = Loaded(user: string, pass: string, states: seq<MemberState>)

  /**
   * The outcome of loading and expanding the configuration, in Configure's
   * order: the text, the YAML decoding, the members' parse, the expansion;
   * the first error's text, or what the manager then holds.
   */
  function LoadResult(configString: string, defaultConfigFile: string, read: FileRead,
                      decode: string -> Result<ConfigValue, string>): Result<Loaded, string>
  {
    var text := ConfigText(configString, defaultConfigFile, read);
    if text.Err? then Err(text.error)
    else if decode(text.value).Err? then Err(decode(text.value).error)
    else
      var v := decode(text.value).value;
      var parsed := ParseAll(v.members);
      if parsed.Err? then Err(ErrorText(parsed.error))
      else if ExpandAll(parsed.value).Err? then Err(ErrorText(ExpandAll(parsed.value).error))
      else Ok(Loaded(v.user, v.pass, ExpandAll(parsed.value).value))
  }

  /** The configuration holds what was loaded. */
  ghost predicate Holds(conf: DatabasesConfig, loaded: Loaded)
    reads conf, conf.members
  {
    conf.user == loaded.user && conf.pass == loaded.pass && conf.States() == loaded.states
  }

  /**
   * The service URI a member's pool ends up on: without a database for
   * sqlite3, otherwise with the database name.
   */
  function PoolUri(template: string, user: string, pass: string, host: string, dbName: string): string
  {
    var uri := ServiceUri(template, user, pass, host, dbName, false);
    if Driver(uri) == "sqlite3" then uri else ServiceUri(template, user, pass, host, dbName, true)
  }

  /** Every member has exactly one server, as expansion leaves them. */
  predicate SingleServer(ms: seq<MemberState>)
  {
    forall k :: 0 <= k < |ms| ==> |ms[k].servers| == 1
  }

  /** Every member has a server and an id to open. */
  predicate Openable(ms: seq<MemberState>)
  {
    forall k :: 0 <= k < |ms| ==> |ms[k].servers| > 0 && |ms[k].dbrange| > 0
  }

  /** The outcome of opening each member in turn, as Configure's loop would meet them. */
  function MemberErrors(template: string, user: string, pass: string, ms: seq<MemberState>,
                        connect: string -> Result<nat, string>, lookup: string -> Lookup,
                        create: string -> Option<string>): (r: seq<Option<string>>)
    requires Openable(ms)
    ensures |r| == |ms|
    decreases |ms|
  {
    if ms == [] then []
    else
      MemberErrors(template, user, pass, ms[..|ms| - 1], connect, lookup, create)
      + [MemberError(template, user, pass, ms[|ms| - 1], connect, lookup, create)]
  }

  /** The `k`-th outcome is the `k`-th member's. */
  lemma {:induction false} MemberErrorsAt(template: string, user: string, pass: string, ms: seq<MemberState>,
                                          connect: string -> Result<nat, string>, lookup: string -> Lookup,
                                          create: string -> Option<string>, k: nat)
    requires Openable(ms) && k < |ms|
    ensures MemberErrors(template, user, pass, ms, connect, lookup, create)[k]
            == MemberError(template, user, pass, ms[k], connect, lookup, create)
    decreases |ms|
  {
    if k < |ms| - 1 {
      var init := ms[..|ms| - 1];
      assert init[k] == ms[k];
      MemberErrorsAt(template, user, pass, init, connect, lookup, create, k);
    }
  }

  /**
   * The members before `n` were opened, in order, with outcomes `errs`:
   * each without error except, when `err` is an error, the last, which
   * failed with it.
   */
  predicate OpenedUpTo(errs: seq<Option<string>>, n: nat, err: Option<string>)
  {
    && n <= |errs|
    && (err.Some? ==> 0 < n && err == errs[n - 1])
    && (forall k :: 0 <= k < n && (err.None? || k < n - 1) ==> errs[k].None?)
  }

  /** Opening the next member extends the members opened by one, ending there if it failed. */
  lemma OpenedSnoc(errs: seq<Option<string>>, i: nat, err: Option<string>)
    requires OpenedUpTo(errs, i, None) && i < |errs| && err == errs[i]
    ensures OpenedUpTo(errs, i + 1, err)
  {
  }

  /** The services a map of infos holds. */
  function PoolsOf(pools: map<nat, DatabaseInfo>): set<SqlServiceImpl>
  {
    set id | id in pools :: pools[id].pool
  }

  /**
   * The map holds exactly the first ids of the members before `n`, each
   * filed with the info of one of those members.
   */
  predicate FiledFrom(pools: map<nat, DatabaseInfo>, ms: seq<MemberState>, n: int)
  {
    && n <= |ms|
    && (forall k :: 0 <= k < |ms| ==> |ms[k].dbrange| > 0)
    && pools.Keys == (set k | 0 <= k < n :: ms[k].dbrange[0])
    && forall id :: id in pools ==> pools[id].id == id && exists k :: 0 <= k < n && InfoOf(pools[id], ms[k])
  }

  /** Filing the info of the next member extends the map by that member's first id. */
  lemma FiledSnoc(pools: map<nat, DatabaseInfo>, ms: seq<MemberState>, i: nat, info: DatabaseInfo)
    requires FiledFrom(pools, ms, i) && i < |ms| && InfoOf(info, ms[i])
    ensures FiledFrom(pools[info.id := info], ms, i + 1)
  {
    FirstIdsSnoc(ms, i);
    var p := pools[info.id := info];
    forall id | id in p
      ensures p[id].id == id && exists k :: 0 <= k < i + 1 && InfoOf(p[id], ms[k])
    {
      if id != info.id {
        assert p[id] == pools[id];
      }
    }
  }

  /** The first ids of the members up to `i`, one member more. */
  lemma FirstIdsSnoc(ms: seq<MemberState>, i: nat)
    requires i < |ms| && forall k :: 0 <= k < |ms| ==> |ms[k].dbrange| > 0
    ensures (set k | 0 <= k < i + 1 :: ms[k].dbrange[0]) == (set k | 0 <= k < i :: ms[k].dbrange[0]) + {ms[i].dbrange[0]}
  {
  }

  /**
   * Configure's loop after `n` members with outcomes `errs`, the last of
   * them failing with `err` when it is an error: every member before it
   * opened without error, and the map holds the infos of the members
   * that opened.
   */
  predicate FilledTo(pools: map<nat, DatabaseInfo>, errs: seq<Option<string>>, ms: seq<MemberState>,
                     n: nat, err: Option<string>)
  {
    && OpenedUpTo(errs, n, err)
    && FiledFrom(pools, ms, if err.None? then n else n - 1)
  }

  /**
   * The end of Configure's loop: every member opened, or the members up
   * to the first that failed; so the loop fails exactly when some member
   * fails to open.
   */
  ghost predicate FilledAll(pools: map<nat, DatabaseInfo>, errs: seq<Option<string>>, ms: seq<MemberState>,
                            err: Option<string>)
  {
    && |errs| == |ms|
    && (err.None? ==> FilledTo(pools, errs, ms, |ms|, err))
    && (err.Some? ==> exists n: nat :: n <= |ms| && FilledTo(pools, errs, ms, n, err))
    && (err.Some? <==> exists k :: 0 <= k < |errs| && errs[k].Some?)
  }

  /** One more member opened with outcome `err`, and filed when it opened. */
  lemma FilledSnoc(pools: map<nat, DatabaseInfo>, errs: seq<Option<string>>, ms: seq<MemberState>,
                   i: nat, info: DatabaseInfo, err: Option<string>)
    requires FilledTo(pools, errs, ms, i, None) && i < |ms| == |errs|
    requires err == errs[i] && InfoOf(info, ms[i])
    ensures FilledTo(if err.None? then pools[info.id := info] else pools, errs, ms, i + 1, err)
  {
    OpenedSnoc(errs, i, err);
    FiledSnoc(pools, ms, i, info);
  }

  /** The loop stops after every member, or at the first that failed. */
  lemma FilledToAll(pools: map<nat, DatabaseInfo>, errs: seq<Option<string>>, ms: seq<MemberState>,
                    n: nat, err: Option<string>)
    requires FilledTo(pools, errs, ms, n, err) && |errs| == |ms|
    requires err.None? ==> n == |ms|
    ensures FilledAll(pools, errs, ms, err)
  {
    if err.Some? {
      assert errs[n - 1].Some?;
    }
  }

  // ------------------------------------------------------------------
  // The manager

  /** sqlManagerServiceImpl. */
  class SqlManagerImpl {
    var defaultConfigFile: string
    var sqlUriTemplate: string
    var configFile: string
    var configString: string
    var dbsCfg: Option<DatabasesConfig>
    /** dbPools; a nil map reads like an empty one. */
    var dbPools: map<nat, DatabaseInfo>

    /** Each entry is filed under its own id. */
    ghost predicate Valid()
      reads this
    {
      forall id :: id in dbPools ==> dbPools[id].id == id
    }

    /** The SQL services the manager holds. */
    function Pools(): set<SqlServiceImpl>
      reads this
    {
      PoolsOf(dbPools)
    }

    /** NewSqlManagerService. */
    constructor (defaultConfigFile: string, sqlUriTemplate: string)
      ensures this.defaultConfigFile == defaultConfigFile && this.sqlUriTemplate == sqlUriTemplate
      ensures configFile == "" && configString == "" && dbsCfg == None && dbPools == map[]
      ensures Valid()
    {
      this.defaultConfigFile := defaultConfigFile;
      this.sqlUriTemplate := sqlUriTemplate;
      configFile := "";
      configString := "";
      dbsCfg := None;
      dbPools := map[];
    }

    /**
     * InitFlags: the default config file is "sqlman.yaml" when none is set;
     * the file flag defaults to it and the string flag to "".
     */
    method InitFlags(fileFlag: Option<string>, stringFlag: Option<string>)
      modifies this`defaultConfigFile, this`configFile, this`configString
      ensures defaultConfigFile == (if old(defaultConfigFile) == "" then DefaultConfigFile else old(defaultConfigFile))
      ensures configFile == (if fileFlag.Some? then fileFlag.value else defaultConfigFile)
      ensures configString == (if stringFlag.Some? then stringFlag.value else "")
    {
      if defaultConfigFile == "" {
        defaultConfigFile := DefaultConfigFile;
      }
      configFile := if fileFlag.Some? then fileFlag.value else defaultConfigFile;
      configString := if stringFlag.Some? then stringFlag.value else "";
    }

    /**
     * loadConfig: the config string, or else the config file (`read` is
     * what reading `configFile` gives), decoded by `decode` and loaded.
     */
    method LoadConfig(read: FileRead, decode: string -> Result<ConfigValue, string>)
      returns (r: Result<DatabasesConfig, string>)
      ensures var text := ConfigText(configString, defaultConfigFile, read);
              && (text.Err? ==> r == Err(text.error))
              && (text.Ok? && decode(text.value).Err? ==> r == Err(decode(text.value).error))
              && (text.Ok? && decode(text.value).Ok? ==>
                    && (r.Ok? <==> ParseAll(decode(text.value).value.members).Ok?)
                    && (r.Err? ==> r.error == ErrorText(ParseAll(decode(text.value).value.members).error))
                    && (r.Ok? ==> fresh(r.value) && r.value.States() == ParseAll(decode(text.value).value.members).value
                                  && r.value.user == decode(text.value).value.user
                                  && r.value.pass == decode(text.value).value.pass))
    {
      var text := ConfigText(configString, defaultConfigFile, read);
      if text.Err? {
        return Err(text.error);
      }
      var conf := LoadSqlManagerConfig(decode(text.value));
      if conf.Err? {
        return Err(ErrorText(conf.error));
      }
      return Ok(conf.value);
    }

    /** createSqlService: a new embedded service for the member's server and first id. */
    method CreateSqlService(conf: DatabasesConfig, m: MemberState, withDb: bool) returns (svc: SqlServiceImpl)
      requires |m.servers| > 0 && |m.dbrange| > 0
      ensures fresh(svc)
      ensures svc.sqlUri == ServiceUri(sqlUriTemplate, conf.user, conf.pass, m.servers[0],
                                       DBName(m.dbName, m.dbrange[0]), withDb)
      ensures svc.connMaxLifetime == conf.connMaxLifetime
      ensures svc.maxIdleConns == conf.maxIdleConns && svc.maxOpenConns == conf.maxOpenConns
      ensures svc.cfg.embedded && svc.cfg.flagPrefix == "" && svc.db == None && svc.closed == []
    {
      var uri := HostUri(sqlUriTemplate, conf.user, conf.pass, m.servers[0]);
      if HasPrefix(uri, "sqlite3") || withDb {
        uri := ReplaceOnce(uri, "__DBNAME__", DBName(m.dbName, m.dbrange[0]));
      } else {
        uri := ReplaceOnce(uri, "__DBNAME__", "");
      }
      svc := new SqlServiceImpl.Embedded(uri, conf.connMaxLifetime, conf.maxIdleConns, conf.maxOpenConns);
    }

    /**
     * The body of Configure's loop for one member: a service without a
     * database; unless its driver is sqlite3, the database is checked or
     * created and the service is cleaned up and reopened on it. The info
     * is filed under the member's first id.
     */
    method OpenMember(conf: DatabasesConfig, m: MemberState, connect: string -> Result<nat, string>,
                      lookup: string -> Lookup, create: string -> Option<string>)
      returns (info: DatabaseInfo, err: Option<string>)
      requires |m.servers| > 0 && |m.dbrange| > 0
      ensures err == MemberError(sqlUriTemplate, conf.user, conf.pass, m, connect, lookup, create)
      ensures InfoOf(info, m) && fresh(info.pool)
      ensures err.None? ==> info.pool.db.Some?
      ensures err.None? ==> info.pool.sqlUri == PoolUri(sqlUriTemplate, conf.user, conf.pass, m.servers[0], info.dbName)
    {
      var id := m.dbrange[0];
      var name := DBName(m.dbName, id);
      var svc;
      svc, err := OpenPool(conf, m, name, connect, lookup, create);
      info := DatabaseInfo(id, name, m.description, ListContains(m.dbrangeExhausted, id), svc);
    }

    /**
     * The service of OpenMember: opened without a database; unless its
     * driver is sqlite3, the database `dbName` is checked or created and
     * the service is cleaned up and reopened on it.
     */
    method OpenPool(conf: DatabasesConfig, m: MemberState, dbName: string, connect: string -> Result<nat, string>,
                    lookup: string -> Lookup, create: string -> Option<string>)
      returns (svc: SqlServiceImpl, err: Option<string>)
      requires |m.servers| > 0 && |m.dbrange| > 0 && dbName == DBName(m.dbName, m.dbrange[0])
      ensures fresh(svc)
      ensures err == OpenError(sqlUriTemplate, conf.user, conf.pass, m.servers[0], dbName, connect, lookup, create)
      ensures err.None? ==> svc.db.Some? && svc.sqlUri == PoolUri(sqlUriTemplate, conf.user, conf.pass, m.servers[0], dbName)
    {
      svc, err := ConnectService(conf, m, false, connect);
      if err.None? && svc.DriverName() != "sqlite3" {
        err := CheckAndCreate(svc.DriverName(), dbName, lookup(dbName), create(dbName));
        if err.None? {
          svc.Cleanup();
          svc, err := ConnectService(conf, m, true, connect);
        }
      }
    }

    /** A new service for the member, configured: its URI, and the error of opening and pinging it. */
    method ConnectService(conf: DatabasesConfig, m: MemberState, withDb: bool, connect: string -> Result<nat, string>)
      returns (svc: SqlServiceImpl, err: Option<string>)
      requires |m.servers| > 0 && |m.dbrange| > 0
      ensures fresh(svc)
      ensures svc.sqlUri == ServiceUri(sqlUriTemplate, conf.user, conf.pass, m.servers[0], DBName(m.dbName, m.dbrange[0]), withDb)
      ensures err == ConnectError(svc.sqlUri, connect)
      ensures err.None? ==> svc.db.Some?
    {
      svc := CreateSqlService(conf, m, withDb);
      err := svc.Configure(connect(svc.sqlUri));
    }

    /**
     * Configure: the default template when none is set; the configuration
     * loaded and expanded; then one service per member, filed under the
     * member's first id. The first error stops everything.
     *
     * `connect` gives the outcome of opening and pinging a URI; `lookup`
     * and `create` those of the two statements run for a database name.
     */
    method Configure(read: FileRead, decode: string -> Result<ConfigValue, string>,
                     connect: string -> Result<nat, string>,
                     lookup: string -> Lookup, create: string -> Option<string>)
      returns (err: Option<string>)
      requires Valid()
      modifies this`sqlUriTemplate, this`dbsCfg, this`dbPools
      ensures Valid()
      ensures sqlUriTemplate == (if old(sqlUriTemplate) == "" then DefaultUriTemplate else old(sqlUriTemplate))
      ensures LoadResult(configString, defaultConfigFile, read, decode).Err? ==>
                err == Some(LoadResult(configString, defaultConfigFile, read, decode).error) && dbPools == old(dbPools)
      ensures LoadResult(configString, defaultConfigFile, read, decode).Ok? ==>
                && dbsCfg.Some? && SingleServer(dbsCfg.value.States())
                && Holds(dbsCfg.value, LoadResult(configString, defaultConfigFile, read, decode).value)
                && Filled(dbsCfg.value, sqlUriTemplate, connect, lookup, create, err)
    {
      if sqlUriTemplate == "" {
        sqlUriTemplate := DefaultUriTemplate;
      }
      var conf, loadErr := LoadExpanded(read, decode);
      err := Install(conf, loadErr, connect, lookup, create);
    }

    /**
     * The rest of Configure once loading is done: a loaded configuration
     * is kept, and the pools are filled only when loading and expansion
     * both succeeded.
     */
    method Install(conf: Option<DatabasesConfig>, loadErr: Option<string>,
                   connect: string -> Result<nat, string>,
                   lookup: string -> Lookup, create: string -> Option<string>)
      returns (err: Option<string>)
      requires Valid()
      requires loadErr.None? ==> conf.Some? && Openable(conf.value.States()) && SingleServer(conf.value.States())
      modifies this`dbsCfg, this`dbPools
      ensures Valid()
      ensures conf.Some? ==> dbsCfg == conf
      ensures conf.None? ==> dbsCfg == old(dbsCfg)
      ensures loadErr.Some? ==> err == loadErr && dbPools == old(dbPools)
      ensures loadErr.None? ==>
                && dbsCfg.value.States() == old(conf.value.States()) && SingleServer(dbsCfg.value.States())
                && Filled(dbsCfg.value, sqlUriTemplate, connect, lookup, create, err)
    {
      err := loadErr;
      if conf.None? {
        return;
      }
      dbsCfg := conf;
      if err.Some? {
        return;
      }
      err := FillFrom(conf.value, connect, lookup, create);
    }

    /**
     * The first steps of Configure: the configuration loaded, then its
     * members expanded. `conf` is the loaded configuration, None when
     * loading failed.
     */
    method LoadExpanded(read: FileRead, decode: string -> Result<ConfigValue, string>)
      returns (conf: Option<DatabasesConfig>, err: Option<string>)
      ensures LoadResult(configString, defaultConfigFile, read, decode).Err? ==>
                err == Some(LoadResult(configString, defaultConfigFile, read, decode).error)
      ensures LoadResult(configString, defaultConfigFile, read, decode).Ok? ==>
                err.None? && conf.Some? && Holds(conf.value, LoadResult(configString, defaultConfigFile, read, decode).value)
      ensures conf.None? ==> err.Some?
      ensures conf.Some? ==> fresh(conf.value)
      ensures err.None? ==> conf.Some? && Openable(conf.value.States()) && SingleServer(conf.value.States())
    {
      var loaded := LoadConfig(read, decode);
      if loaded.Err? {
        return None, Some(loaded.error);
      }
      conf := Some(loaded.value);
      err := ExpandConfig(loaded.value);
    }

    /** Every service the map holds is connected. */
    ghost predicate Connected()
      reads this, Pools()
    {
      forall id :: id in dbPools ==> dbPools[id].pool.db.Some?
    }

    /** The end of Configure's loop over the members of `conf`, each filed service connected. */
    ghost predicate Filled(conf: DatabasesConfig, template: string, connect: string -> Result<nat, string>,
                           lookup: string -> Lookup, create: string -> Option<string>, err: Option<string>)
      reads this, conf, conf.members, Pools()
    {
      && Openable(conf.States())
      && FilledAll(dbPools, MemberErrors(template, conf.user, conf.pass, conf.States(), connect, lookup, create),
                   conf.States(), err)
      && Connected()
    }

    /** The loop of Configure over the members of `conf`. */
    method FillFrom(conf: DatabasesConfig, connect: string -> Result<nat, string>,
                    lookup: string -> Lookup, create: string -> Option<string>)
      returns (err: Option<string>)
      requires Openable(conf.States())
      modifies this`dbPools
      ensures Valid() && Filled(conf, sqlUriTemplate, connect, lookup, create, err)
      ensures conf.States() == old(conf.States())
    {
      ghost var ms := conf.States();
      err := FillPools(conf, conf.States(), connect, lookup, create);
      assert conf.States() == ms;
    }

    /**
     * The loop of Configure over the members' fields `ms`: a fresh map,
     * then one opened service per member filed under its first id, until
     * the first error.
     */
    method FillPools(conf: DatabasesConfig, ms: seq<MemberState>, connect: string -> Result<nat, string>,
                     lookup: string -> Lookup, create: string -> Option<string>)
      returns (err: Option<string>)
      requires Openable(ms)
      modifies this`dbPools
      ensures Valid() && Connected()
      ensures FilledAll(dbPools, MemberErrors(sqlUriTemplate, conf.user, conf.pass, ms, connect, lookup, create), ms, err)
    {
      ghost var errs := MemberErrors(sqlUriTemplate, conf.user, conf.pass, ms, connect, lookup, create);
      dbPools := map[];
      err := None;
      var i := 0;
      while i < |ms| && err.None?
        invariant 0 <= i <= |ms|
        invariant FilledTo(dbPools, errs, ms, i, err)
        invariant Connected()
      {
        MemberErrorsAt(sqlUriTemplate, conf.user, conf.pass, ms, connect, lookup, create, i);
        err := FileNext(conf, ms, errs, i, connect, lookup, create);
        i := i + 1;
      }
      FilledToAll(dbPools, errs, ms, i, err);
    }

    /** One turn of Configure's loop: the member at `i` opened and, when it opened, filed. */
    method FileNext(conf: DatabasesConfig, ms: seq<MemberState>, ghost errs: seq<Option<string>>, i: nat,
                    connect: string -> Result<nat, string>, lookup: string -> Lookup, create: string -> Option<string>)
      returns (err: Option<string>)
      requires i < |ms| == |errs| && Openable(ms) && FilledTo(dbPools, errs, ms, i, None) && Connected()
      requires errs[i] == MemberError(sqlUriTemplate, conf.user, conf.pass, ms[i], connect, lookup, create)
      modifies this`dbPools
      ensures FilledTo(dbPools, errs, ms, i + 1, err) && Connected()
    {
      var info;
      info, err := OpenMember(conf, ms[i], connect, lookup, create);
      FilledSnoc(dbPools, errs, ms, i, info, err);
      if err.None? {
        dbPools := dbPools[info.id := info];
      }
    }

    /** DB: the connection of the service filed under the id, or DatabaseIDNotFound. */
    function DB(dbId: nat): (r: Result<Option<nat>, string>)
      reads this, Pools()
      ensures r.Err? <==> dbId !in dbPools
      ensures r.Err? ==> r.error == DatabaseIDNotFound
      ensures r.Ok? ==> r.value == dbPools[dbId].pool.db
    {
      if dbId !in dbPools then Err(DatabaseIDNotFound) else Ok(dbPools[dbId].pool.db)
    }

    /** DriverName: the driver of the service filed under the id, or DatabaseIDNotFound. */
    function DriverName(dbId: nat): (r: Result<string, string>)
      reads this, Pools()
      ensures r.Err? <==> dbId !in dbPools
      ensures r.Err? ==> r.error == DatabaseIDNotFound
      ensures r.Ok? ==> HasPrefix(dbPools[dbId].pool.sqlUri, r.value) && !Contains(r.value, SchemeSep)
    {
      if dbId !in dbPools then Err(DatabaseIDNotFound) else Ok(dbPools[dbId].pool.DriverName())
    }

    /** Cleanup: every service is cleaned up and the map is dropped. */
    method Cleanup()
      modifies this`dbPools, Pools()
      ensures dbPools == map[]
      ensures forall id :: id in old(dbPools) ==> old(dbPools)[id].pool.db == None
    {
      ghost var pools := dbPools;
      var rest := dbPools.Keys;
      while rest != {}
        invariant rest <= pools.Keys && dbPools == pools
        invariant forall id :: id in pools && id !in rest ==> pools[id].pool.db == None
        decreases |rest|
      {
        var id :| id in rest;
        dbPools[id].pool.Cleanup();
        rest := rest - {id};
      }
      dbPools := map[];
    }

    /**
     * GetAllDatabaseInfo: every filed info, sorted by ascending id. Each
     * entry is inserted at its place as it is read from the map.
     */
    method GetAllDatabaseInfo() returns (infos: seq<DatabaseInfo>)
      requires Valid()
      ensures SortedById(infos) && |infos| == |dbPools|
      ensures forall x :: x in infos <==> x.id in dbPools && dbPools[x.id] == x
    {
      infos := [];
      var rest := dbPools.Keys;
      while rest != {}
        invariant rest <= dbPools.Keys
        invariant SortedById(infos) && |infos| + |rest| == |dbPools|
        invariant forall x :: x in infos <==> x.id in dbPools && x.id !in rest && dbPools[x.id] == x
        decreases |rest|
      {
        var id :| id in rest;
        InsertByIdSorted(infos, dbPools[id]);
        infos := InsertById(infos, dbPools[id]);
        rest := rest - {id};
      }
    }
  }

  /** expandMembers as Configure calls it: afterwards every member is well-formed. */
  method ExpandConfig(conf: DatabasesConfig) returns (err: Option<string>)
    modifies conf`members
    ensures ExpandAll(old(conf.States())).Err? ==> err == Some(ErrorText(ExpandAll(old(conf.States())).error))
    ensures ExpandAll(old(conf.States())).Ok? ==> err.None? && conf.States() == ExpandAll(old(conf.States())).value
    ensures err.None? ==> forall k :: 0 <= k < |conf.members| ==> WellFormed(conf.members[k].State())
    ensures err.None? ==> forall k :: 0 <= k < |conf.members| ==> |conf.members[k].servers| == 1 && |conf.members[k].dbrange| > 0
    ensures err.None? ==> Openable(conf.States()) && SingleServer(conf.States())
  {
    ghost var before := conf.States();
    var e := conf.ExpandMembers();
    if e.Some? {
      return Some(ErrorText(e.value));
    }
    ExpandAllWellFormed(before);
    assert forall k :: 0 <= k < |conf.members| ==> conf.members[k].State() == conf.States()[k];
    return None;
  }

  /** The listing is determined by the map: any two listings of the same manager state are equal. */
  lemma ListingDetermined(pools: map<nat, DatabaseInfo>, a: seq<DatabaseInfo>, b: seq<DatabaseInfo>)
    requires |a| == |b| == |pools|
    requires SortedById(a) && forall x :: x in a <==> x.id in pools && pools[x.id] == x
    requires SortedById(b) && forall x :: x in b <==> x.id in pools && pools[x.id] == x
    ensures a == b
  {
    forall k | 0 <= k < |a|
      ensures a[k] in b
    {
      assert a[k] in a;
    }
    forall k | 0 <= k < |b|
      ensures b[k] in a
    {
      assert b[k] in b;
    }
    SortedUnique(a, b);
  }
}
