/**
 * What ssd/sd_consul.go and new/registry/consul.go share, written the same
 * way in both files: the disabled check on the consul URI, the service
 * registration they send to the Consul agent, and normalizeASR, which gives
 * a registration its default ID and address and appends the configured and
 * build tags.
 */
module ConsulAgent {
  import opened Wrappers
  import opened GoStrings

  /** AgentServiceCheck: the fields the SDK fills in. */
  datatype Check = Check(notes: string, tcp: string, interval: string, deregisterCriticalServiceAfter: string)

  /** AgentServiceRegistration: the fields the SDK reads or fills in. */
  datatype Registration = Registration(
    id: string, name: string, address: string, port: int, tags: seq<string>, check: Option<Check>)

  /** isDisabled: the URI flag is empty, "false" or "0". */
  predicate IsDisabled(consulUri: string)
  {
    consulUri == "" || consulUri == "false" || consulUri == "0"
  }

  /** The default ID: `fmt.Sprintf("%s_%s_%d", prefix, name, port)`. */
  function ServiceId(prefix: string, name: string, port: int): string
  {
    prefix + "_" + name + "_" + FormatInt(port)
  }

  /** The default ID splits back into prefix, name and port when neither prefix nor name holds '_'. */
  lemma ServiceIdSplit(prefix: string, name: string, port: int)
    requires '_' !in prefix && '_' !in name
    ensures Split(ServiceId(prefix, name, port), '_') == [prefix, name, FormatInt(port)]
  {
    var p := FormatInt(port);
    var d := FormatUint(if port < 0 then -port else port);
    assert forall k :: 0 <= k < |d| ==> IsDigit(d[k]);
    assert port < 0 ==> p == "-" + d;
    assert '_' !in p;
    var parts := [prefix, name, p];
    assert parts[1..] == [name, p] && parts[1..][1..] == [p];
    assert Join([p], "_") == p;
    assert Join([name, p], "_") == name + "_" + p;
    assert Join(parts, "_") == prefix + "_" + (name + "_" + p);
    assert Join(parts, "_") == ServiceId(prefix, name, port);
    SplitJoin(parts, '_');
  }

  /** The tags of the ssd-service-tags flag: its comma-separated pieces, trimmed, empty ones dropped. */
  function ConfigTags(tags: string): (r: seq<string>)
  {
    TrimmedFields(Split(tags, ','))
  }

  /** Tags that are non-empty, trimmed and free of commas, joined by ",", read back as themselves. */
  lemma ConfigTagsJoin(names: seq<string>)
    requires |names| >= 1
    requires forall k :: 0 <= k < |names| ==> IsTrimmedWord(names[k]) && ',' !in names[k]
    ensures ConfigTags(Join(names, ",")) == names
  {
    SplitJoin(names, ',');
    TrimmedFieldsOfWords(names);
  }

  /** A flag made only of blanks and commas adds no tag: every piece trims to nothing. */
  lemma ConfigTagsBlank(tags: string)
    requires forall k :: 0 <= k < |tags| ==> IsSpace(tags[k]) || tags[k] == ','
    ensures ConfigTags(tags) == []
  {
    SplitBlankPieces(tags);
    BlankPiecesDropped(Split(tags, ','));
  }

  /** Splitting blanks and commas at the commas leaves pieces of blanks only. */
  lemma {:induction false} SplitBlankPieces(s: string)
    requires forall k :: 0 <= k < |s| ==> IsSpace(s[k]) || s[k] == ','
    ensures forall k, j :: 0 <= k < |Split(s, ',')| && 0 <= j < |Split(s, ',')[k]| ==> IsSpace(Split(s, ',')[k][j])
    decreases |s|
  {
    var parts := Split(s, ',');
    if ',' in s {
      var i := FindChar(s, ',');
      var rest := s[i + 1..];
      SplitBlankPieces(rest);
      assert parts == [s[..i]] + Split(rest, ',');
      assert forall j :: 0 <= j < i ==> s[..i][j] == s[j];
    } else {
      assert parts == [s];
    }
  }

  /** Pieces of blanks only are all dropped. */
  lemma {:induction false} BlankPiecesDropped(pieces: seq<string>)
    requires forall k, j :: 0 <= k < |pieces| && 0 <= j < |pieces[k]| ==> IsSpace(pieces[k][j])
    ensures TrimmedFields(pieces) == []
  {
    if pieces != [] {
      var init := pieces[..|pieces| - 1];
      assert forall k :: 0 <= k < |init| ==> init[k] == pieces[k];
      BlankPiecesDropped(init);
      TrimSpaceBlank(pieces[|pieces| - 1]);
    }
  }

  /** The build information util.GetBuildInfo reports, its date already formatted. */
  datatype BuildInfo = BuildInfo(dateTag: Option<string>, branch: string, revision: string)

  /** The tags taken from the build: its date, then branch_revision7 when the revision is a full hash. */
  function BuildTags(inf: Option<BuildInfo>): (r: seq<string>)
    ensures inf.None? ==> r == []
    ensures |r| <= 2
  {
    if inf.None? then []
    else
      (if inf.value.dateTag.Some? then [inf.value.dateTag.value] else [])
      + (if inf.value.branch != "" && |inf.value.revision| >= 40
         then [inf.value.branch + "_" + inf.value.revision[..7]] else [])
  }

  /** The loop of normalizeASR over the configured tags, appending the kept ones. */
  method AppendConfigTags(tags: seq<string>, config: string) returns (r: seq<string>)
    ensures r == tags + ConfigTags(config)
  {
    var pieces := Split(config, ',');
    var kept := KeptTags(pieces);
    r := tags + kept;
  }

  /** The loop body: each piece trimmed and kept unless empty. */
  method KeptTags(pieces: seq<string>) returns (kept: seq<string>)
    ensures kept == TrimmedFields(pieces)
  {
    kept := [];
    var i := 0;
    while i < |pieces|
      invariant 0 <= i <= |pieces|
      invariant kept == TrimmedFields(pieces[..i])
    {
      TrimmedFieldsStep(pieces, i);
      var tag := TrimSpace(pieces[i]);
      if tag != "" {
        kept := kept + [tag];
      }
      i := i + 1;
    }
    assert pieces[..i] == pieces;
  }

  /**
   * What normalizeASR makes of `asr`: an empty ID becomes
   * "prefix_name_port", an empty address becomes the service IP when there
   * is one, and the configured tags and then the build tags are appended;
   * nothing else changes.
   */
  predicate Normalized(asr: Registration, r: Registration, servicePrefix: string, serviceIp: string,
                       tags: string, build: Option<BuildInfo>)
  {
    && r.id == (if asr.id == "" then ServiceId(servicePrefix, asr.name, asr.port) else asr.id)
    && r.address == (if asr.address == "" && serviceIp != "" then serviceIp else asr.address)
    && r.tags == asr.tags + ConfigTags(tags) + BuildTags(build)
    && r.name == asr.name && r.port == asr.port && r.check == asr.check
  }

  /** normalizeASR, in place on the registration it is given. */
  method Normalize(asr: Registration, servicePrefix: string, serviceIp: string, tags: string,
                   build: Option<BuildInfo>) returns (r: Registration)
    ensures Normalized(asr, r, servicePrefix, serviceIp, tags, build)
    ensures r.id != ""
  {
    r := asr;
    if r.id == "" {
      r := r.(id := ServiceId(servicePrefix, r.name, r.port));
    }
    if r.address == "" && serviceIp != "" {
      r := r.(address := serviceIp);
    }
    var t := AppendConfigTags(r.tags, tags);
    r := r.(tags := t + BuildTags(build));
  }

  /** The configured ID is kept; normalising twice only appends the tags again. */
  lemma NormalizeKeepsId(asr: Registration, r: Registration, r2: Registration, servicePrefix: string,
                         serviceIp: string, tags: string, build: Option<BuildInfo>)
    requires Normalized(asr, r, servicePrefix, serviceIp, tags, build)
    requires Normalized(r, r2, servicePrefix, serviceIp, tags, build)
    ensures r2.id == r.id && r2.address == r.address
    ensures r2.tags == r.tags + ConfigTags(tags) + BuildTags(build)
  {
  }

  /** A registration and whether the agent accepted it. */
  datatype ServiceStatus = ServiceStatus(svc: Registration, status: bool)

  /** A call made on the Consul agent. */
  datatype AgentCall = ServiceRegister(reg: Registration) | ServiceDeregister(id: string)

  /** The services sent to the agent for deregistration from position `from` on. */
  function DeregisteredFrom(calls: seq<AgentCall>, from: nat): set<string>
    requires from <= |calls|
  {
    set j | from <= j < |calls| && calls[j].ServiceDeregister? :: calls[j].id
  }

  /** All calls from `from` on are deregistrations. */
  predicate AllDeregisters(calls: seq<AgentCall>, from: nat)
  {
    forall j :: from <= j < |calls| ==> calls[j].ServiceDeregister?
  }

  lemma DeregisteredSnoc(calls: seq<AgentCall>, from: nat, id: string)
    requires from <= |calls|
    ensures DeregisteredFrom(calls + [ServiceDeregister(id)], from) == DeregisteredFrom(calls, from) + {id}
    ensures AllDeregisters(calls, from) ==> AllDeregisters(calls + [ServiceDeregister(id)], from)
    ensures (calls + [ServiceDeregister(id)])[..from] == calls[..from]
  {
    var c := calls + [ServiceDeregister(id)];
    assert c[|calls|].id == id;
    forall x | x in DeregisteredFrom(c, from)
      ensures x in DeregisteredFrom(calls, from) + {id}
    {
      var j :| from <= j < |c| && c[j].ServiceDeregister? && c[j].id == x;
      if j < |calls| {
        assert calls[j] == c[j];
      }
    }
    forall x | x in DeregisteredFrom(calls, from)
      ensures x in DeregisteredFrom(c, from)
    {
      var j :| from <= j < |calls| && calls[j].ServiceDeregister? && calls[j].id == x;
      assert c[j] == calls[j];
    }
  }

  /**
   * Part way through deregistering the services `all` on top of the calls
   * `before`: those still `left` are not yet sent, every other one has been,
   * once, and nothing else was sent.
   */
  ghost predicate DeregisterProgress(calls: seq<AgentCall>, before: seq<AgentCall>, all: set<string>, left: set<string>)
  {
    && left <= all && |before| <= |calls| && calls[..|before|] == before
    && |calls| - |before| + |left| == |all|
    && AllDeregisters(calls, |before|)
    && DeregisteredFrom(calls, |before|) == all - left
  }

  /** Sending the deregistration of one service still left moves it out of `left`. */
  lemma DeregisterProgressStep(calls: seq<AgentCall>, before: seq<AgentCall>, all: set<string>, left: set<string>, id: string)
    requires DeregisterProgress(calls, before, all, left) && id in left
    ensures DeregisterProgress(calls + [ServiceDeregister(id)], before, all, left - {id})
  {
    DeregisteredSnoc(calls, |before|, id);
    assert |left - {id}| == |left| - 1;
  }

  /** setCheckIP: the local address of the connection to the agent, bracketed when it holds ':'. */
  function CheckIp(local: string): (ip: string)
    ensures ':' in local ==> ip == "[" + local + "]"
    ensures ':' !in local ==> ip == local
  {
    ContainsChar(local, ':');
    if Contains(local, ":") then "[" + local + "]" else local
  }
}
