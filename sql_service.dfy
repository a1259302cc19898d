/**
 * The single-database service of ssql/sql.go: its defaults, the check of
 * the connection URI ("driver://dataSourceName") done by Configure, the
 * driver name taken from that URI, and Cleanup closing the connection.
 *
 * sql.Open followed by Ping is foreign: Configure is given its outcome, a
 * connection id or the error either call returned.
 */
module SqlService {
  import opened Wrappers
  import opened GoStrings

  const SchemeSep: string := "://"
  const DefaultLifetime: int := 120

  /** SqlConfig. */
  datatype SqlConfig = SqlConfig(
    flagPrefix: string, defaultURI: string,
    defaultConnMaxLifetime: int, defaultMaxIdleConns: int, defaultMaxOpenConns: int,
    embedded: bool)

  /** NewSqlService's defaults: a zero DefaultConnMaxLifetime becomes 120 seconds. */
  function WithDefaults(c: SqlConfig): (r: SqlConfig)
    ensures r.defaultConnMaxLifetime != 0
    ensures c.defaultConnMaxLifetime == 0 ==> r.defaultConnMaxLifetime == DefaultLifetime
    ensures c.defaultConnMaxLifetime != 0 ==> r == c
    ensures r.(defaultConnMaxLifetime := c.defaultConnMaxLifetime) == c
  {
    if c.defaultConnMaxLifetime == 0 then c.(defaultConnMaxLifetime := DefaultLifetime) else c
  }

  /** The driver name: the text before the first "://", or the whole URI without one. */
  function Driver(uri: string): (d: string)
    ensures !Contains(d, SchemeSep)
    ensures HasPrefix(uri, d)
    ensures Contains(uri, SchemeSep) <==> |d| < |uri|
  {
    var parts := SplitN2(uri, SchemeSep);
    assert |parts| == 2 ==> uri == parts[0] + SchemeSep + parts[1];
    assert |parts| == 2 ==> uri[..|parts[0]|] == parts[0];
    parts[0]
  }

  /** The data source name: the text after the first "://". */
  function DataSource(uri: string): (ds: string)
    requires Contains(uri, SchemeSep)
    ensures uri == Driver(uri) + SchemeSep + ds
  {
    SplitN2(uri, SchemeSep)[1]
  }

  /** A driver name and a data source joined by "://" split back into the two. */
  lemma DriverOfJoined(driver: string, ds: string)
    requires !Contains(driver, SchemeSep)
    ensures Contains(driver + SchemeSep + ds, SchemeSep)
    ensures Driver(driver + SchemeSep + ds) == driver
    ensures DataSource(driver + SchemeSep + ds) == ds
  {
    var uri := driver + SchemeSep + ds;
    var n := |driver|;
    assert OccursAt(uri, SchemeSep, n) by {
      assert uri[n..n + 3] == SchemeSep;
    }
    forall j | 0 <= j < n
      ensures !OccursAt(uri, SchemeSep, j)
    {
      if j + 3 <= n {
        assert uri[j..j + 3] == driver[j..j + 3];
        assert !OccursAt(driver, SchemeSep, j);
      } else if j + 2 == n {
        // the separator's ':' sits where this window needs its last '/'
        assert uri[j..j + 3][2] == ':';
      } else {
        assert uri[j..j + 3][1] == ':';
      }
    }
    FirstOccurrence(uri, SchemeSep, n);
    assert uri[..n] == driver;
    assert uri[n + 3..] == ds;
  }

  /** Configure's URI check: the error for an empty URI or one without "://". */
  function UriError(flagPrefix: string, uri: string): (r: Option<string>)
    ensures r.None? <==> uri != "" && Contains(uri, SchemeSep)
    ensures uri == "" ==> r == Some("No config value for " + flagPrefix + "sql-uri")
    ensures uri != "" && !Contains(uri, SchemeSep) ==>
              r == Some("Invalid " + flagPrefix + "sql-uri: " + uri)
  {
    if uri == "" then Some("No config value for " + flagPrefix + "sql-uri")
    else if |SplitN2(uri, SchemeSep)| != 2 then Some("Invalid " + flagPrefix + "sql-uri: " + uri)
    else None
  }

  /** sqlServiceImpl: its configuration, its flag values and the open connection, if any. */
  class SqlServiceImpl {
    var cfg: SqlConfig
    var sqlUri: string
    var connMaxLifetime: int
    var maxIdleConns: int
    var maxOpenConns: int
    /** The connection held in `db`, or nil. */
    var db: Option<nat>
    /** The connections Cleanup has closed, in order. */
    var closed: seq<nat>

    /** NewSqlService: the configuration with its defaults and nothing else set. */
    constructor (config: SqlConfig)
      ensures cfg == WithDefaults(config)
      ensures sqlUri == "" && connMaxLifetime == 0 && maxIdleConns == 0 && maxOpenConns == 0
      ensures db == None && closed == []
    {
      cfg := WithDefaults(config);
      sqlUri := "";
      connMaxLifetime := 0;
      maxIdleConns := 0;
      maxOpenConns := 0;
      db := None;
      closed := [];
    }

    /** The service createSqlService builds: an embedded configuration and the given values. */
    constructor Embedded(uri: string, lifetime: int, idle: int, open: int)
      ensures cfg == SqlConfig("", "", 0, 0, 0, true)
      ensures sqlUri == uri && connMaxLifetime == lifetime && maxIdleConns == idle && maxOpenConns == open
      ensures db == None && closed == []
    {
      cfg := SqlConfig("", "", 0, 0, 0, true);
      sqlUri := uri;
      connMaxLifetime := lifetime;
      maxIdleConns := idle;
      maxOpenConns := open;
      db := None;
      closed := [];
    }

    /**
     * InitFlags: each value is the one given on the command line, or the
     * configuration's default when the flag is absent.
     */
    method InitFlags(uri: Option<string>, lifetime: Option<int>, idle: Option<int>, open: Option<int>)
      modifies this`sqlUri, this`connMaxLifetime, this`maxIdleConns, this`maxOpenConns
      ensures sqlUri == (if uri.Some? then uri.value else cfg.defaultURI)
      ensures connMaxLifetime == (if lifetime.Some? then lifetime.value else cfg.defaultConnMaxLifetime)
      ensures maxIdleConns == (if idle.Some? then idle.value else cfg.defaultMaxIdleConns)
      ensures maxOpenConns == (if open.Some? then open.value else cfg.defaultMaxOpenConns)
    {
      sqlUri := if uri.Some? then uri.value else cfg.defaultURI;
      connMaxLifetime := if lifetime.Some? then lifetime.value else cfg.defaultConnMaxLifetime;
      maxIdleConns := if idle.Some? then idle.value else cfg.defaultMaxIdleConns;
      maxOpenConns := if open.Some? then open.value else cfg.defaultMaxOpenConns;
    }

    /**
     * Configure: a URI that is empty or has no "://" is refused before any
     * connection is attempted; otherwise the outcome of opening the driver
     * on the data source and pinging it decides, and only a connection
     * that answered is kept.
     */
    method Configure(connect: Result<nat, string>) returns (err: Option<string>)
      modifies this`db
      ensures UriError(cfg.flagPrefix, sqlUri).Some? ==>
                err == UriError(cfg.flagPrefix, sqlUri) && db == old(db)
      ensures UriError(cfg.flagPrefix, sqlUri).None? && connect.Err? ==>
                err == Some(connect.error) && db == old(db)
      ensures UriError(cfg.flagPrefix, sqlUri).None? && connect.Ok? ==>
                err == None && db == Some(connect.value)
    {
      if sqlUri == "" {
        return Some("No config value for " + cfg.flagPrefix + "sql-uri");
      }
      var parts := SplitN2(sqlUri, SchemeSep);
      if |parts| != 2 {
        return Some("Invalid " + cfg.flagPrefix + "sql-uri: " + sqlUri);
      }
      if connect.Err? {
        return Some(connect.error);
      }
      db := Some(connect.value);
      return None;
    }

    /** Cleanup: an open connection is closed and forgotten; without one nothing happens. */
    method Cleanup()
      modifies this`db, this`closed
      ensures db == None
      ensures closed == old(closed) + (if old(db).Some? then [old(db).value] else [])
    {
      if db.Some? {
        closed := closed + [db.value];
        db := None;
      }
    }

    /** DriverName: the text of the URI before its first "://". */
    function DriverName(): (d: string)
      reads this
      ensures HasPrefix(sqlUri, d) && !Contains(d, SchemeSep)
    {
      Driver(sqlUri)
    }
  }

  /** A service whose URI passed Configure's check names the driver written before "://". */
  lemma ConfiguredDriver(flagPrefix: string, driver: string, ds: string)
    requires !Contains(driver, SchemeSep)
    ensures UriError(flagPrefix, driver + SchemeSep + ds).None?
    ensures Driver(driver + SchemeSep + ds) == driver
  {
    DriverOfJoined(driver, ds);
  }
}
