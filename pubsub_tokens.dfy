/**
 * The event-token maps shared by the pub/sub client service
 * (spubsub/pubsub_client_service.go) and the broker service
 * (new/broker/broker_service.go). InitFlags registers one command-line flag
 * per configured event, "pubsub-pub-token-<event>" or
 * "pubsub-sub-token-<event>", and a token is that flag's parsed value.
 */
module PubsubTokens {
  import opened Wrappers

  /** Publish or subscribe: the two maps, their flags and their config field. */
  datatype Kind = Pub | Sub

  function FlagName(kind: Kind, event: string): string
  {
    (if kind == Pub then "pubsub-pub-token-" else "pubsub-sub-token-") + event
  }

  function FieldName(kind: Kind): string
  {
    if kind == Pub then "PublishEvents" else "SubscribeEvents"
  }

  /** The panic InitFlags raises on a repeated event; `config` is "ClientConfig" or "Config". */
  function DuplicatePanic(config: string, kind: Kind, event: string): string
  {
    config + "." + FieldName(kind) + " must be unique (duplicated " + event + ")"
  }

  /** The panic a token getter raises on an event that was not configured. */
  function MissingPanic(config: string, kind: Kind, event: string): string
  {
    config + "." + FieldName(kind) + " do not contain event " + event
  }

  predicate Unique(events: seq<string>)
  {
    forall i, j :: 0 <= i < j < |events| ==> events[i] != events[j]
  }

  /** The index of the first event that repeats an earlier one, or |events| if none does. */
  function FirstDuplicate(events: seq<string>): (k: nat)
    ensures k <= |events|
    ensures Unique(events[..k])
    ensures k < |events| ==> events[k] in events[..k]
  {
    if |events| == 0 then 0
    else
      var k := FirstDuplicate(events[..|events| - 1]);
      assert events[..|events| - 1][..k] == events[..k];
      if k < |events| - 1 then k
      else if events[|events| - 1] in events[..|events| - 1] then |events| - 1
      else
        assert events[..|events|] == events;
        |events|
  }

  lemma FirstDuplicateUnique(events: seq<string>)
    ensures FirstDuplicate(events) == |events| <==> Unique(events)
  {
    var k := FirstDuplicate(events);
    if k < |events| {
      var j :| 0 <= j < k && events[..k][j] == events[k];
      assert events[j] == events[k];
    } else {
      assert events[..k] == events;
    }
  }

  /** The value of a string flag: the parsed command-line value, or its default "". */
  function FlagValue(parsed: map<string, string>, name: string): string
  {
    if name in parsed then parsed[name] else ""
  }

  /**
   * The loop of InitFlags over one event list: each event gets its flag, and
   * the first repeated event panics, leaving the events before it mapped.
   */
  method FillTokenMap(events: seq<string>, kind: Kind, config: string)
    returns (m: map<string, string>, panicked: Option<string>)
    ensures var k := FirstDuplicate(events);
            && m.Keys == (set i | 0 <= i < k :: events[i])
            && (panicked.None? <==> k == |events|)
            && (panicked.Some? ==> panicked.value == DuplicatePanic(config, kind, events[k]))
    ensures forall e :: e in m ==> m[e] == FlagName(kind, e)
  {
    m := map[];
    var i := 0;
    while i < |events|
      invariant 0 <= i <= FirstDuplicate(events)
      invariant m.Keys == set j | 0 <= j < i :: events[j]
      invariant forall e :: e in m ==> m[e] == FlagName(kind, e)
    {
      if events[i] in m {
        ghost var j :| 0 <= j < i && events[j] == events[i];
        assert events[..i] == events[..FirstDuplicate(events)][..i];
        assert FirstDuplicate(events) == i;
        return m, Some(DuplicatePanic(config, kind, events[i]));
      }
      assert FirstDuplicate(events) > i;
      m := m[events[i] := FlagName(kind, events[i])];
      i := i + 1;
    }
    return m, None;
  }

  /** GetPubToken / GetSubToken: the token of a configured event; any other event panics. */
  function GetToken(m: map<string, string>, parsed: map<string, string>, config: string, kind: Kind, event: string)
    : (r: Result<string, string>)
    ensures r.Ok? <==> event in m
    ensures r.Ok? ==> r.value == FlagValue(parsed, m[event])
    ensures r.Err? ==> r.error == MissingPanic(config, kind, event)
  {
    if event in m then Ok(FlagValue(parsed, m[event])) else Err(MissingPanic(config, kind, event))
  }

  /**
   * After a successful fill, exactly the configured events have a token, and
   * each token is the value of that event's own flag.
   */
  lemma TokensForConfiguredEvents(events: seq<string>, m: map<string, string>, kind: Kind,
                                  parsed: map<string, string>, config: string, e: string)
    requires Unique(events)
    requires m.Keys == set i | 0 <= i < FirstDuplicate(events) :: events[i]
    requires forall x :: x in m ==> m[x] == FlagName(kind, x)
    ensures GetToken(m, parsed, config, kind, e).Ok? <==> e in events
    ensures e in events ==> GetToken(m, parsed, config, kind, e).value == FlagValue(parsed, FlagName(kind, e))
  {
    FirstDuplicateUnique(events);
    if e in events {
      var i :| 0 <= i < |events| && events[i] == e;
      assert e in m;
    }
  }
}
