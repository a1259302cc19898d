/**
 * storage.FromPrefix of new/storage/storage.go: the registered databases
 * are searched in order for one whose prefix matches, and the client of
 * the first matching database of a known driver type is returned.
 */
module StoragePrefix {
  import opened Wrappers

  /** The concrete driver type of a registered database; `Other` is any type the switch does not list. */
  datatype Driver = Mongo | Redis | GoRedis | ElasticSearch | Gorm | Other

  /**
   * A registered database: its prefix, its driver type, and the client its
   * accessor (Mgo, Redis, GoRedis, ElasticSearch or GormDB) returns.
   */
  datatype Db = Db(prefix: string, driver: Driver, client: nat)

  /** The client handed back, labelled with the accessor it came from. */
  datatype Client = Client(driver: Driver, handle: nat)

  /** Entry `i` is one FromPrefix can return for `prefix`. */
  predicate Answers(dbs: seq<Db>, i: int, prefix: string)
  {
    0 <= i < |dbs| && dbs[i].prefix == prefix && dbs[i].driver != Other
  }

  function NotFound(prefix: string): string
  {
    "could not found DB with prefix: " + prefix
  }

  /**
   * FromPrefix: the client of the first entry that answers, or the
   * "could not found" error when none does.
   */
  function FromPrefix(dbs: seq<Db>, prefix: string): (r: Result<Client, string>)
    ensures r.Ok? ==> exists i :: Answers(dbs, i, prefix) && r.value == Client(dbs[i].driver, dbs[i].client)
                                   && forall j :: 0 <= j < i ==> !Answers(dbs, j, prefix)
    ensures r.Err? ==> r.error == NotFound(prefix) && forall i :: 0 <= i < |dbs| ==> !Answers(dbs, i, prefix)
  {
    if dbs == [] then Err(NotFound(prefix))
    else if Answers(dbs, 0, prefix) then Ok(Client(dbs[0].driver, dbs[0].client))
    else
      var r := FromPrefix(dbs[1..], prefix);
      assert forall i :: 1 <= i < |dbs| ==> (Answers(dbs, i, prefix) <==> Answers(dbs[1..], i - 1, prefix));
      r
  }

  /** The search fails exactly when no entry answers. */
  lemma FromPrefixFound(dbs: seq<Db>, prefix: string)
    ensures FromPrefix(dbs, prefix).Ok? <==> exists i :: Answers(dbs, i, prefix)
  {
  }

  /** Entries after the first answer, or ones of another prefix, do not change the result. */
  lemma {:induction false} FromPrefixFirst(dbs: seq<Db>, more: seq<Db>, prefix: string)
    requires FromPrefix(dbs, prefix).Ok?
    ensures FromPrefix(dbs + more, prefix) == FromPrefix(dbs, prefix)
  {
    if dbs != [] && !Answers(dbs, 0, prefix) {
      assert (dbs + more)[1..] == dbs[1..] + more;
      FromPrefixFirst(dbs[1..], more, prefix);
    }
  }

  /** A matching entry of an unlisted type is passed over: the search goes on after it. */
  lemma FromPrefixSkipsOther(d: Db, dbs: seq<Db>, prefix: string)
    requires d.driver == Other
    ensures FromPrefix([d] + dbs, prefix) == FromPrefix(dbs, prefix)
  {
    assert ([d] + dbs)[1..] == dbs;
  }
}
