/**
 * The Redis note storage of the generated gRPC skeleton
 * (sdms-cli/grpc-skeleton/appsrc/note_service/storage/redis.go): the page
 * of keys a listing reads, the notes read for them, and the change
 * watchers, one channel per context. Redis itself and the JSON encoding are
 * parameters: the reply to each command, with decoding folded into it.
 */
module NoteRedis {
  import opened Wrappers
  import opened StringSort

  /** A stored note. */
  datatype Note = Note(id: int, text: string)

  /** A change notification: its type ("i" for an insert) and the note. */
  datatype ChangedEvent = ChangedEvent(kind: string, note: Note)

  function Min(a: int, b: int): int
  {
    if a <= b then a else b
  }

  /** The page number getPageLimit uses: 1 for a page that is not positive. */
  function PageNumber(page: int): (p: int)
    ensures p >= 1 && (page >= 1 ==> p == page)
  {
    if page <= 0 then 1 else page
  }

  /** The page size getPageLimit uses: 10 for a limit that is not positive. */
  function PageSize(limit: int): (l: int)
    ensures l >= 1 && (limit >= 1 ==> l == limit)
  {
    if limit <= 0 then 10 else limit
  }

  /** Where page `page` of `limit` items starts. */
  function PageStart(page: int, limit: int): (s: nat)
    ensures s == (PageNumber(page) - 1) * PageSize(limit)
  {
    var p, l := PageNumber(page), PageSize(limit);
    assert (p - 1) * l >= 0 by {
      MulNonNegative(p - 1, l);
    }
    (p - 1) * l
  }

  lemma MulNonNegative(a: int, b: int)
    requires 0 <= a && 0 <= b
    ensures 0 <= a * b
  {
  }

  /**
   * getPageLimit: the items from the page's start, at most the page size of
   * them, and none when the start is past the end.
   */
  function GetPageLimit(data: seq<string>, page: int, limit: int): (r: seq<string>)
    ensures |r| == if PageStart(page, limit) >= |data| then 0 else Min(PageSize(limit), |data| - PageStart(page, limit))
    ensures forall k :: 0 <= k < |r| ==> r[k] == data[PageStart(page, limit) + k]
  {
    var start := PageStart(page, limit);
    var l := PageSize(limit);
    var end := if start + l > |data| then |data| else start + l;
    if start >= end then [] else data[start..end]
  }

  /** The first `n` pages of `limit` items, one after the other. */
  function Pages(data: seq<string>, limit: int, n: nat): seq<string>
  {
    if n == 0 then [] else Pages(data, limit, n - 1) + GetPageLimit(data, n, limit)
  }

  /** Page n of limit items is the slice from (n-1)*limit to n*limit, cut at the end. */
  lemma PageSlice(data: seq<string>, limit: int, n: nat)
    requires limit >= 1 && n >= 1
    ensures (n - 1) * limit <= n * limit == (n - 1) * limit + limit
    ensures GetPageLimit(data, n, limit) ==
            if (n - 1) * limit >= |data| then [] else data[(n - 1) * limit..Min(n * limit, |data|)]
  {
    assert n * limit == (n - 1) * limit + limit;
    var r := GetPageLimit(data, n, limit);
    if (n - 1) * limit < |data| {
      assert r == data[(n - 1) * limit..Min(n * limit, |data|)];
    }
  }

  /** Reading pages 1 to n in turn reads the first n*limit items, in order, without gaps or repeats. */
  lemma {:induction false} PagesCover(data: seq<string>, limit: int, n: nat)
    requires limit >= 1
    ensures n * limit >= 0
    ensures Pages(data, limit, n) == data[..Min(n * limit, |data|)]
  {
    MulNonNegative(n, limit);
    if n > 0 {
      PagesCover(data, limit, n - 1);
      PageSlice(data, limit, n);
      var a, b := (n - 1) * limit, n * limit;
      assert Pages(data, limit, n) == Pages(data, limit, n - 1) + GetPageLimit(data, n, limit);
      SlicesJoin(data, a, b);
    }
  }

  /** The items before `a`, then those from `a` to `b`, are the items before `b`, each cut at the end. */
  lemma SlicesJoin(data: seq<string>, a: nat, b: nat)
    requires a <= b
    ensures data[..Min(a, |data|)] + (if a >= |data| then [] else data[a..Min(b, |data|)]) == data[..Min(b, |data|)]
  {
    if a < |data| {
      assert data[..a] + data[a..Min(b, |data|)] == data[..Min(b, |data|)];
    }
  }

  /** Pages past the end are empty. */
  lemma PagePastEnd(data: seq<string>, page: int, limit: int)
    requires PageNumber(page) > 1 && (PageNumber(page) - 1) * PageSize(limit) >= |data|
    ensures GetPageLimit(data, page, limit) == []
  {
  }

  /** The pages of four keys, two at a time: page 0 counts as page 1, and page 3 is empty. */
  lemma PageExamples()
    ensures var data := ["a", "b", "d", "c"];
            && GetPageLimit(data, 0, 2) == data[..2] && GetPageLimit(data, 1, 2) == data[..2]
            && GetPageLimit(data, 2, 2) == data[2..4] && GetPageLimit(data, 3, 2) == []
  {
  }

  /** The keys List reads for a page: all note keys in descending order, then the page of them. */
  function PageKeys(keys: seq<string>, page: int, limit: int): (r: seq<string>)
  {
    GetPageLimit(SortDescending(keys), page, limit)
  }

  /** The keys read are note keys, in descending order. */
  lemma PageKeysSpec(keys: seq<string>, page: int, limit: int)
    ensures var r := PageKeys(keys, page, limit);
            && (forall k :: 0 <= k < |r| ==> r[k] in keys)
            && (forall i, j :: 0 <= i < j < |r| ==> !Less(r[i], r[j]))
  {
    var d := SortDescending(keys);
    SortDescendingSpec(keys);
    var r := PageKeys(keys, page, limit);
    var s := PageStart(page, limit);
    forall k | 0 <= k < |r|
      ensures r[k] in keys
    {
      assert r[k] == d[s + k];
      assert d[s + k] in multiset(d);
    }
  }

  /**
   * The notes read for a list of keys, one GET each, in order: the first
   * failed reply (or undecodable note) ends the listing with its error.
   */
  function ReadAll(ks: seq<string>, get: string -> Result<Note, string>): (r: Result<seq<Note>, string>)
    ensures r.Ok? <==> forall k :: 0 <= k < |ks| ==> get(ks[k]).Ok?
    ensures r.Ok? ==> |r.value| == |ks| && forall k :: 0 <= k < |ks| ==> r.value[k] == get(ks[k]).value
    ensures r.Err? ==> exists j :: 0 <= j < |ks| && get(ks[j]).Err? && r.error == get(ks[j]).error
                                   && forall k :: 0 <= k < j ==> get(ks[k]).Ok?
    decreases |ks|
  {
    if ks == [] then Ok([])
    else
      var init := ks[..|ks| - 1];
      var front := ReadAll(init, get);
      assert forall k :: 0 <= k < |init| ==> init[k] == ks[k];
      if front.Err? then front
      else
        var last := get(ks[|ks| - 1]);
        if last.Err? then Err(last.error) else Ok(front.value + [last.value])
  }

  /**
   * List: a failed KEYS command is returned; otherwise the page of keys in
   * descending order is read, one note per key.
   */
  method List(keysReply: Result<seq<string>, string>, get: string -> Result<Note, string>, page: int, limit: int)
    returns (r: Result<seq<Note>, string>)
    ensures keysReply.Err? ==> r == Err(keysReply.error)
    ensures keysReply.Ok? ==> r == ReadAll(PageKeys(keysReply.value, page, limit), get)
  {
    if keysReply.Err? {
      return Err(keysReply.error);
    }
    var keys := PageKeys(keysReply.value, page, limit);
    var notes := [];
    var i := 0;
    while i < |keys|
      invariant 0 <= i <= |keys|
      invariant ReadAll(keys[..i], get) == Ok(notes)
    {
      var n := get(keys[i]);
      assert keys[..i + 1][..i] == keys[..i];
      if n.Err? {
        ReadAllPrefixErr(keys, i + 1, get);
        return Err(n.error);
      }
      notes := notes + [n.value];
      i := i + 1;
    }
    assert keys[..i] == keys;
    return Ok(notes);
  }

  /** Once a prefix fails, every longer prefix fails with the same error. */
  lemma {:induction false} ReadAllPrefixErr(ks: seq<string>, i: int, get: string -> Result<Note, string>)
    requires 0 <= i <= |ks| && ReadAll(ks[..i], get).Err?
    ensures ReadAll(ks, get) == ReadAll(ks[..i], get)
    decreases |ks| - i
  {
    if i < |ks| {
      assert ks[..i + 1][..i] == ks[..i];
      ReadAllPrefixErr(ks, i + 1, get);
    } else {
      assert ks[..i] == ks;
    }
  }

  /** A channel: the events sent on it, in order, and whether it has been closed. */
  datatype Channel = Channel(sent: seq<ChangedEvent>, closed: bool)

  /**
   * What one notifyChanged does, from watchers w0 and channels ch0 to w1 and
   * ch1: every watcher whose context was cancelled is dropped and its
   * channel closed; every other watcher's channel is sent the event; no
   * other channel changes.
   */
  predicate Notified(w0: map<nat, nat>, ch0: seq<Channel>, cancelled: set<nat>, e: ChangedEvent,
                     w1: map<nat, nat>, ch1: seq<Channel>)
  {
    && w1.Keys == w0.Keys - cancelled
    && (forall c :: c in w1 ==> w1[c] == w0[c])
    && |ch1| == |ch0|
    && (forall c :: c in w0 ==> w0[c] < |ch0|)
    && (forall c :: c in w0 && c in cancelled ==> ch1[w0[c]] == ch0[w0[c]].(closed := true))
    && (forall c :: c in w0 && c !in cancelled ==> ch1[w0[c]] == ch0[w0[c]].(sent := ch0[w0[c]].sent + [e]))
    && (forall i :: 0 <= i < |ch0| && i !in w0.Values ==> ch1[i] == ch0[i])
  }

  /**
   * Part way through notifyChanged: the watchers in `todo` are still to be
   * handled, those already handled are as Notified says.
   */
  predicate Progress(w0: map<nat, nat>, ch0: seq<Channel>, cancelled: set<nat>, e: ChangedEvent,
                     todo: set<nat>, w: map<nat, nat>, chs: seq<Channel>)
  {
    && todo <= w0.Keys
    && w.Keys == w0.Keys - (cancelled - todo)
    && (forall c :: c in w ==> w[c] == w0[c])
    && |chs| == |ch0|
    && (forall c :: c in w0 ==> w0[c] < |ch0|)
    && (forall c :: c in todo ==> chs[w0[c]] == ch0[w0[c]])
    && (forall c :: c in w0 && c !in todo && c in cancelled ==> chs[w0[c]] == ch0[w0[c]].(closed := true))
    && (forall c :: c in w0 && c !in todo && c !in cancelled ==>
          chs[w0[c]] == ch0[w0[c]].(sent := ch0[w0[c]].sent + [e]))
    && (forall i :: 0 <= i < |ch0| && i !in w0.Values ==> chs[i] == ch0[i])
  }

  /** The step for one watcher touches its own channel only. */
  lemma ProgressStep(w0: map<nat, nat>, ch0: seq<Channel>, cancelled: set<nat>, e: ChangedEvent,
                     todo: set<nat>, w: map<nat, nat>, chs: seq<Channel>, ctx: nat)
    requires Progress(w0, ch0, cancelled, e, todo, w, chs) && ctx in todo
    requires forall a, b :: a in w0 && b in w0 && a != b ==> w0[a] != w0[b]
    ensures ctx in w && w[ctx] == w0[ctx] < |chs|
    ensures var ch := w0[ctx];
            if ctx in cancelled then
              Progress(w0, ch0, cancelled, e, todo - {ctx}, w - {ctx}, chs[ch := chs[ch].(closed := true)])
            else
              Progress(w0, ch0, cancelled, e, todo - {ctx}, w, chs[ch := chs[ch].(sent := chs[ch].sent + [e])])
  {
    if ctx in cancelled {
      ProgressClose(w0, ch0, cancelled, e, todo, w, chs, ctx);
    } else {
      ProgressSend(w0, ch0, cancelled, e, todo, w, chs, ctx);
    }
  }

  /** A cancelled watcher: dropped, and its channel closed. */
  lemma ProgressClose(w0: map<nat, nat>, ch0: seq<Channel>, cancelled: set<nat>, e: ChangedEvent,
                      todo: set<nat>, w: map<nat, nat>, chs: seq<Channel>, ctx: nat)
    requires Progress(w0, ch0, cancelled, e, todo, w, chs) && ctx in todo && ctx in cancelled
    requires forall a, b :: a in w0 && b in w0 && a != b ==> w0[a] != w0[b]
    ensures var ch := w0[ctx];
            Progress(w0, ch0, cancelled, e, todo - {ctx}, w - {ctx}, chs[ch := chs[ch].(closed := true)])
  {
    var ch := w0[ctx];
    assert ch in w0.Values;
    var next := chs[ch := chs[ch].(closed := true)];
    forall c | c in w0 && c != ctx
      ensures next[w0[c]] == chs[w0[c]]
    {
    }
  }

  /** A live watcher: kept, and the event sent on its channel. */
  lemma ProgressSend(w0: map<nat, nat>, ch0: seq<Channel>, cancelled: set<nat>, e: ChangedEvent,
                     todo: set<nat>, w: map<nat, nat>, chs: seq<Channel>, ctx: nat)
    requires Progress(w0, ch0, cancelled, e, todo, w, chs) && ctx in todo && ctx !in cancelled
    requires forall a, b :: a in w0 && b in w0 && a != b ==> w0[a] != w0[b]
    ensures var ch := w0[ctx];
            Progress(w0, ch0, cancelled, e, todo - {ctx}, w, chs[ch := chs[ch].(sent := chs[ch].sent + [e])])
  {
    var ch := w0[ctx];
    assert ch in w0.Values;
    var next := chs[ch := chs[ch].(sent := chs[ch].sent + [e])];
    forall c | c in w0 && c != ctx
      ensures next[w0[c]] == chs[w0[c]]
    {
    }
  }

  /** The loop of notifyChanged, over the watchers in the order the map gives them. */
  method NotifyAll(w0: map<nat, nat>, ch0: seq<Channel>, cancelled: set<nat>, e: ChangedEvent)
    returns (w: map<nat, nat>, chs: seq<Channel>)
    requires forall c :: c in w0 ==> w0[c] < |ch0|
    requires forall a, b :: a in w0 && b in w0 && a != b ==> w0[a] != w0[b]
    ensures Notified(w0, ch0, cancelled, e, w, chs)
  {
    w, chs := w0, ch0;
    var todo := w0.Keys;
    while todo != {}
      invariant Progress(w0, ch0, cancelled, e, todo, w, chs)
      decreases todo
    {
      var ctx :| ctx in todo;
      ProgressStep(w0, ch0, cancelled, e, todo, w, chs, ctx);
      var ch := w[ctx];
      if ctx in cancelled {
        w := w - {ctx};
        chs := chs[ch := chs[ch].(closed := true)];
      } else {
        chs := chs[ch := chs[ch].(sent := chs[ch].sent + [e])];
      }
      todo := todo - {ctx};
    }
  }

  class RedisNoteStorage {
    /** The watchers: each context and the number of its channel. */
    var notifyChannels: map<nat, nat>
    /** Every channel WatchChanged has made, by number. */
    var channels: seq<Channel>

    /** Each watcher has its own channel, which exists and is still open. */
    predicate Valid()
      reads this
    {
      && (forall c :: c in notifyChannels ==> notifyChannels[c] < |channels| && !channels[notifyChannels[c]].closed)
      && (forall a, b :: a in notifyChannels && b in notifyChannels && a != b ==> notifyChannels[a] != notifyChannels[b])
    }

    /** NewRedisNoteStorage: no watchers yet. */
    constructor()
      ensures notifyChannels == map[] && channels == [] && Valid()
    {
      notifyChannels := map[];
      channels := [];
    }

    /** WatchChanged: a new open channel, registered for the context in place of any earlier one. */
    method WatchChanged(ctx: nat) returns (ch: nat)
      requires Valid()
      modifies this
      ensures Valid()
      ensures ch == |old(channels)| && channels == old(channels) + [Channel([], false)]
      ensures notifyChannels == old(notifyChannels)[ctx := ch]
    {
      ch := |channels|;
      channels := channels + [Channel([], false)];
      notifyChannels := notifyChannels[ctx := ch];
    }

    /** notifyChanged: each watcher in turn, with `cancelled` the contexts whose Err is Canceled. */
    method NotifyChanged(e: ChangedEvent, cancelled: set<nat>)
      requires Valid()
      modifies this
      ensures Valid()
      ensures Notified(old(notifyChannels), old(channels), cancelled, e, notifyChannels, channels)
    {
      var w, chs := NotifyAll(notifyChannels, channels, cancelled, e);
      notifyChannels, channels := w, chs;
    }

    /**
     * Add: the note, with the clock's reading as its id, is written under
     * "note:<id>"; a failed write is returned and nobody is told; otherwise
     * the watchers are sent an insert event for it.
     */
    method Add(s: string, now: int, setErr: Option<string>, cancelled: set<nat>) returns (r: Result<Note, string>)
      requires Valid()
      modifies this
      ensures Valid()
      ensures setErr.Some? ==> r == Err(setErr.value) && notifyChannels == old(notifyChannels) && channels == old(channels)
      ensures setErr.None? ==>
                && r == Ok(Note(now, s))
                && Notified(old(notifyChannels), old(channels), cancelled, ChangedEvent("i", Note(now, s)),
                            notifyChannels, channels)
    {
      var n := Note(now, s);
      if setErr.Some? {
        return Err(setErr.value);
      }
      NotifyChanged(ChangedEvent("i", n), cancelled);
      return Ok(n);
    }
  }

  /**
   * A watcher's life: notifying nobody leaves no watchers; a watching
   * context receives the event; once cancelled, the next notification drops
   * it and closes its channel.
   */
  method WatchThenCancel(e: ChangedEvent) returns (watchersBefore: nat, received: seq<ChangedEvent>, watchersAfter: nat, closed: bool)
    ensures watchersBefore == 0 && received == [e] && watchersAfter == 0 && closed
  {
    var store := new RedisNoteStorage();
    store.NotifyChanged(e, {});
    watchersBefore := |store.notifyChannels.Keys|;
    var ch := store.WatchChanged(7);
    store.NotifyChanged(e, {});
    received := store.channels[ch].sent;
    store.NotifyChanged(e, {7});
    watchersAfter := |store.notifyChannels.Keys|;
    closed := store.channels[ch].closed;
  }
}
