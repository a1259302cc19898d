/**
 * The gorm database driver of new/storage/gorm.go: the type name mapping,
 * the prefixed flags, and the running state Configure and Stop keep.
 * Opening a connection is a parameter: whether a handle came back, and the
 * error, if any.
 */
module GormStorage {
  import opened Wrappers
  import opened GoStrings

  /** GormDBType: MySQL = 1 up to NotSupported = 5. */
  const MySql := 1
  const Postgres := 2
  const SqLite := 3
  const MsSql := 4
  const NotSupported := 5

  /** The canonical name of each supported type. */
  function TypeName(t: int): string
    requires MySql <= t <= MsSql
  {
    if t == MySql then "mysql" else if t == Postgres then "postgres" else if t == SqLite then "sqlite" else "mssql"
  }

  /** getDBType: the lower-cased name matched against the four supported names. */
  function GetDbType(dbType: string): (t: int)
    ensures MySql <= t <= NotSupported
  {
    var name := ToLower(dbType);
    if name == "mysql" then MySql
    else if name == "postgres" then Postgres
    else if name == "sqlite" then SqLite
    else if name == "mssql" then MsSql
    else NotSupported
  }

  /** A supported type is exactly one whose lower-cased name is its canonical name. */
  lemma GetDbTypeSpec(dbType: string, t: int)
    requires MySql <= t <= MsSql
    ensures GetDbType(dbType) == t <==> ToLower(dbType) == TypeName(t)
  {
  }

  /** Any other text is not supported. */
  lemma GetDbTypeOther(dbType: string)
    requires forall t :: MySql <= t <= MsSql ==> ToLower(dbType) != TypeName(t)
    ensures GetDbType(dbType) == NotSupported
  {
    assert ToLower(dbType) != TypeName(MySql) && ToLower(dbType) != TypeName(Postgres);
    assert ToLower(dbType) != TypeName(SqLite) && ToLower(dbType) != TypeName(MsSql);
  }

  lemma {:induction false} ToLowerIdempotent(s: string)
    ensures ToLower(ToLower(s)) == ToLower(s)
  {
    var l := ToLower(s);
    assert forall k :: 0 <= k < |s| ==> LowerChar(l[k]) == l[k];
  }

  /** Letter case does not matter. */
  lemma GetDbTypeCase(dbType: string)
    ensures GetDbType(ToLower(dbType)) == GetDbType(dbType)
  {
    ToLowerIdempotent(dbType);
  }

  lemma LowerKeeps(n: string)
    requires forall k :: 0 <= k < |n| ==> 'a' <= n[k] <= 'z'
    ensures ToLower(n) == n
  {
  }

  /** Every canonical name maps back to its type. */
  lemma GetDbTypeName(t: int)
    requires MySql <= t <= MsSql
    ensures GetDbType(TypeName(t)) == t
  {
    var n := TypeName(t);
    LowerKeeps(n);
  }

  /** The text put in front of the flag names: the prefix and "-", or nothing. */
  function FlagPrefix(prefix: string): string
  {
    if prefix != "" then prefix + "-" else ""
  }

  /** Different prefixes give different flag names. */
  lemma FlagNameInjective(p1: string, p2: string, name: string)
    requires FlagPrefix(p1) + name == FlagPrefix(p2) + name
    ensures p1 == p2
  {
    var a, b := FlagPrefix(p1), FlagPrefix(p2);
    assert |a| == |b|;
    assert a == (a + name)[..|a|] && b == (b + name)[..|b|];
    if p1 != "" && p2 != "" {
      assert p1 == a[..|a| - 1] && p2 == b[..|b| - 1];
    }
  }

  class GormDb {
    const name: string
    const prefix: string
    var uri: string
    var dbType: string
    /** Whether the db field holds a handle. */
    var hasDb: bool
    var isRunning: bool
    /** How many times the handle has been closed. */
    var closes: nat

    /** NewGormDB: not running, no handle, no URI or type yet. */
    constructor(n: string, p: string)
      ensures name == n && prefix == p
      ensures uri == "" && dbType == "" && !hasDb && !isRunning && closes == 0
    {
      name := n;
      prefix := p;
      uri := "";
      dbType := "";
      hasDb := false;
      isRunning := false;
      closes := 0;
    }

    /** InitFlags: the prefixed gorm-db-uri and gorm-db-type flags, "" when absent. */
    method InitFlags(args: map<string, string>)
      modifies this`uri, this`dbType
      ensures uri == (if FlagPrefix(prefix) + "gorm-db-uri" in args then args[FlagPrefix(prefix) + "gorm-db-uri"] else "")
      ensures dbType == (if FlagPrefix(prefix) + "gorm-db-type" in args then args[FlagPrefix(prefix) + "gorm-db-type"] else "")
    {
      var p := FlagPrefix(prefix);
      uri := if p + "gorm-db-uri" in args then args[p + "gorm-db-uri"] else "";
      dbType := if p + "gorm-db-type" in args then args[p + "gorm-db-type"] else "";
    }

    /** isDisabled: no URI was given. */
    predicate IsDisabled()
      reads this
    {
      uri == ""
    }

    /**
     * Configure: nothing when disabled or already running; an unsupported
     * type is refused without connecting; otherwise the handle the
     * connection returned is kept, and the store runs unless it failed.
     */
    method Configure(handle: bool, connectErr: Option<string>) returns (err: Option<string>)
      modifies this`hasDb, this`isRunning
      ensures (old(IsDisabled()) || old(isRunning)) ==>
                err.None? && hasDb == old(hasDb) && isRunning == old(isRunning)
      ensures !old(IsDisabled()) && !old(isRunning) && GetDbType(dbType) == NotSupported ==>
                err == Some("gorm database type is not supported") && hasDb == old(hasDb) && !isRunning
      ensures !old(IsDisabled()) && !old(isRunning) && GetDbType(dbType) != NotSupported ==>
                hasDb == handle && err == connectErr && (isRunning <==> connectErr.None?)
    {
      if IsDisabled() || isRunning {
        return None;
      }
      var t := GetDbType(dbType);
      if t == NotSupported {
        return Some("gorm database type is not supported");
      }
      hasDb := handle;
      if connectErr.Some? {
        return connectErr;
      }
      isRunning := true;
      return None;
    }

    /** Stop: the handle, if any, is closed (and kept), and the store no longer runs. */
    method Stop()
      modifies this`isRunning, this`closes
      ensures !isRunning
      ensures closes == old(closes) + (if hasDb then 1 else 0)
    {
      if hasDb {
        closes := closes + 1;
      }
      isRunning := false;
    }
  }
}
