/** The subscription store: the JSON data file's values, the migration of
    its legacy layout into the current one, and the per-channel query.

    The current layout is
    `{"feeds": {url: {"title", "description", "subscribers": {channel:
    {"cron_expr", "last_update", "recent_ids"}}}}}`; the legacy layout keyed
    the feeds at the top level and kept an `info` object and one
    `latest_link` per subscriber. */
module DataHandling {
  import opened Wrappers
  import opened PyText
  import opened OrderedMaps

  /** The cron expression a migrated subscription gets when it had none. */
  const FallbackCron: string := "*/30 * * * *"

  // ---------------------------------------------------------------------
  // JSON values and the Python conversions applied to them

  /** A value read from the data file. Objects keep their key order. */
  datatype Json =
    | JNull
    | JBool(b: bool)
    | JInt(n: int)
    | JStr(s: string)
    | JList(elems: seq<Json>)
    | JObj(obj: OMap<string, Json>)

  /** `d.get(k)` */
  function Get(o: OMap<string, Json>, k: string): Option<Json> {
    if k in o.entries then Some(o.entries[k]) else None
  }

  /** Python truthiness: `None`, `False`, `0`, and empty strings, lists and
      objects are false. */
  predicate Truthy(j: Json) {
    match j
    case JNull => false
    case JBool(b) => b
    case JInt(n) => n != 0
    case JStr(s) => s != ""
    case JList(elems) => elems != []
    case JObj(o) => o.entries != map[]
  }

  /** The key is present with a true value, so `d.get(k) or default` is
      `d[k]`. */
  predicate Given(o: OMap<string, Json>, k: string) {
    k in o.entries && Truthy(o.entries[k])
  }

  /** `d.get(k) or default` */
  function GetOr(o: OMap<string, Json>, k: string, default: Json): Json {
    if Given(o, k) then o.entries[k] else default
  }

  /** `str(n)` for an integer. */
  function IntString(n: int): string {
    if n >= 0 then DecimalString(n) else "-" + DecimalString(-n)
  }

  /** `str(j)`. Lists and objects are printed by `repr`, which is not part of
      this model and enters as a parameter. */
  function PyStr(j: Json, repr: Json -> string): string {
    match j
    case JNull => "None"
    case JBool(b) => if b then "True" else "False"
    case JInt(n) => IntString(n)
    case JStr(s) => s
    case _ => repr(j)
  }

  const IntTypeError: string := "TypeError"
  const IntValueError: string := "ValueError"

  /** `int(j)`: integers as they are, booleans as 0 and 1, strings parsed as
      decimal literals; anything else raises. */
  function PyInt(j: Json): (r: Result<int>)
    ensures j.JInt? ==> r == Ok(j.n)
    ensures r.Err? ==> r.msg == IntTypeError || r.msg == IntValueError
    ensures j.JNull? || j.JList? || j.JObj? ==> r == Err(IntTypeError)
  {
    match j
    case JInt(n) => Ok(n)
    case JBool(b) => Ok(if b then 1 else 0)
    case JStr(s) => (if ParseInt(s).Some? then Ok(ParseInt(s).value) else Err(IntValueError))
    case _ => Err(IntTypeError)
  }

  /** `int(str(n)) == n` */
  lemma IntStringRoundTrip(n: int)
    ensures PyInt(JStr(IntString(n))) == Ok(n)
  {
    var t := IntString(n);
    assert ParseInt(t) == Some(n) by {
      if n >= 0 {
        ParseDecimalString(n);
      } else {
        ParseNegativeDecimalString(-n);
      }
    }
  }

  // ---------------------------------------------------------------------
  // The typed store

  /** One channel's subscription to a feed. `lastUpdate` is the newest
      publication time seen (Unix seconds); `recentIds` the identities of
      the most recently pushed entries, newest first. */
  datatype Subscription = Subscription(cronExpr: string, lastUpdate: int, recentIds: seq<string>)

  datatype Feed = Feed(title: string, description: string, subscribers: OMap<string, Subscription>)

  /** The `feeds` object: canonical URL to feed. */
  type Store = OMap<string, Feed>

  /** Every object of the store lists each of its keys once. */
  ghost predicate StoreValid(feeds: Store) {
    && feeds.Valid()
    && forall url :: url in feeds.entries ==> feeds.entries[url].subscribers.Valid()
  }

  /** An object with the same keys, each value encoded. */
  function MapJson<V>(o: OMap<string, V>, enc: V -> Json): (r: OMap<string, Json>)
    ensures r.keys == o.keys
    ensures forall k :: k in r.entries <==> k in o.entries
  {
    OMap(o.keys, map k | k in o.entries :: enc(o.entries[k]))
  }

  function StrList(ids: seq<string>): Json {
    JList(seq(|ids|, i requires 0 <= i < |ids| => JStr(ids[i])))
  }

  function SubJson(sub: Subscription): Json {
    JObj(OMap(["cron_expr", "last_update", "recent_ids"],
      map["cron_expr" := JStr(sub.cronExpr),
          "last_update" := JInt(sub.lastUpdate),
          "recent_ids" := StrList(sub.recentIds)]))
  }

  function FeedJson(feed: Feed): Json {
    JObj(OMap(["title", "description", "subscribers"],
      map["title" := JStr(feed.title),
          "description" := JStr(feed.description),
          "subscribers" := JObj(MapJson(feed.subscribers, SubJson))]))
  }

  /** The whole data file for a store. */
  function StoreJson(feeds: Store): Json {
    JObj(OMap(["feeds"], map["feeds" := JObj(MapJson(feeds, FeedJson))]))
  }

  /** Reads a subscription back from its JSON object. */
  function SubOf(j: Json): Option<Subscription> {
    if !j.JObj? then None
    else
      var cron := Get(j.obj, "cron_expr");
      var last := Get(j.obj, "last_update");
      var ids := Get(j.obj, "recent_ids");
      if cron.Some? && cron.value.JStr? && last.Some? && last.value.JInt? && ids.Some? && ids.value.JList?
         && forall i :: 0 <= i < |ids.value.elems| ==> ids.value.elems[i].JStr?
      then
        var elems := ids.value.elems;
        Some(Subscription(cron.value.s, last.value.n, seq(|elems|, i requires 0 <= i < |elems| => elems[i].s)))
      else None
  }

  /** A subscription survives being written to and read from the file. */
  lemma SubJsonRoundTrip(sub: Subscription)
    ensures SubOf(SubJson(sub)) == Some(sub)
  {
    var elems := StrList(sub.recentIds).elems;
    assert seq(|elems|, i requires 0 <= i < |elems| => elems[i].s) == sub.recentIds;
  }

  /** The data is already in the current layout. */
  predicate IsCurrent(data: Json) {
    data.JObj? && Get(data.obj, "feeds").Some? && Get(data.obj, "feeds").value.JObj?
  }

  // ---------------------------------------------------------------------
  // _normalize_data: migrating the legacy layout

  /** The `recent_ids` of a migrated subscription: its trimmed
      `latest_link`, when that is not blank. */
  function LegacyRecentIds(sub: OMap<string, Json>, repr: Json -> string): (ids: seq<string>)
    ensures |ids| <= 1
    ensures forall i :: 0 <= i < |ids| ==> ids[i] != "" && IsStripped(ids[i])
    ensures !Given(sub, "latest_link") ==> ids == []
    ensures var v := GetOr(sub, "latest_link", JStr(""));
      v.JStr? && Strip(v.s) != "" ==> ids == [Strip(v.s)]
  {
    var link := Strip(PyStr(GetOr(sub, "latest_link", JStr("")), repr));
    if link != "" then [link] else []
  }

  /** One legacy subscriber object. Only `int()` of its `last_update` can
      raise. */
  function MigrateSub(sub: OMap<string, Json>, repr: Json -> string): (r: Result<Subscription>)
    ensures r.Err? <==> Given(sub, "last_update") && PyInt(sub.entries["last_update"]).Err?
    ensures r.Ok? ==> r.value.recentIds == LegacyRecentIds(sub, repr)
    ensures r.Ok? && !Given(sub, "cron_expr") ==> r.value.cronExpr == FallbackCron
    ensures r.Ok? && Given(sub, "cron_expr") && sub.entries["cron_expr"].JStr? ==> r.value.cronExpr == sub.entries["cron_expr"].s
    ensures !Given(sub, "last_update") ==> r.Ok? && r.value.lastUpdate == 0
    ensures var v := GetOr(sub, "last_update", JInt(0));
      v.JInt? ==> r.Ok? && r.value.lastUpdate == v.n
  {
    var cron := PyStr(GetOr(sub, "cron_expr", JStr(FallbackCron)), repr);
    match PyInt(GetOr(sub, "last_update", JInt(0)))
    case Err(e) => Err(e)
    case Ok(last) => Ok(Subscription(cron, last, LegacyRecentIds(sub, repr)))
  }

  /** The subscriber entries, in order, up to the first error; entries whose
      value is not an object are skipped. */
  function MigrateSubs(items: seq<(string, Json)>, repr: Json -> string): (r: Result<OMap<string, Subscription>>)
    ensures r.Ok? ==> r.value.Valid()
  {
    if items == [] then Ok(Empty())
    else
      var (channel, sub) := items[|items| - 1];
      match MigrateSubs(items[..|items| - 1], repr)
      case Err(e) => Err(e)
      case Ok(acc) =>
        if !sub.JObj? then Ok(acc)
        else
          match MigrateSub(sub.obj, repr)
          case Err(e) => Err(e)
          case Ok(s) => Ok(acc.Put(channel, s))
  }

  /** An object of `value` under `k`, else an empty one. */
  function ObjectAt(value: OMap<string, Json>, k: string): OMap<string, Json> {
    var v := Get(value, k);
    if v.Some? && v.value.JObj? then v.value.obj else Empty()
  }

  /** One legacy feed object: title and description from `info`, the
      subscribers migrated one by one. */
  function MigrateFeed(value: OMap<string, Json>, repr: Json -> string): (r: Result<Feed>)
    ensures r.Ok? <==> MigrateSubs(ObjectAt(value, "subscribers").Items(), repr).Ok?
    ensures r.Ok? ==> r.value.subscribers.Valid()
    ensures var info := ObjectAt(value, "info");
      && (r.Ok? && !Given(info, "title") ==> r.value.title == "")
      && (r.Ok? && Given(info, "title") && info.entries["title"].JStr? ==> r.value.title == info.entries["title"].s)
      && (r.Ok? && !Given(info, "description") ==> r.value.description == "")
      && (r.Ok? && Given(info, "description") && info.entries["description"].JStr? ==> r.value.description == info.entries["description"].s)
  {
    var info := ObjectAt(value, "info");
    var title := PyStr(GetOr(info, "title", JStr("")), repr);
    var description := PyStr(GetOr(info, "description", JStr("")), repr);
    match MigrateSubs(ObjectAt(value, "subscribers").Items(), repr)
    case Err(e) => Err(e)
    case Ok(subs) => Ok(Feed(title, description, subs))
  }

  /** A top-level legacy entry that is migrated: an object with a
      `subscribers` key. */
  predicate IsLegacyFeed(value: Json) {
    value.JObj? && "subscribers" in value.obj.entries
  }

  /** The legacy feed entries, in order, up to the first error. */
  function Migrate(items: seq<(string, Json)>, repr: Json -> string): (r: Result<Store>)
    ensures r.Ok? ==> StoreValid(r.value)
  {
    if items == [] then Ok(Empty())
    else
      var (url, value) := items[|items| - 1];
      match Migrate(items[..|items| - 1], repr)
      case Err(e) => Err(e)
      case Ok(acc) =>
        if !IsLegacyFeed(value) then Ok(acc)
        else
          match MigrateFeed(value.obj, repr)
          case Err(e) => Err(e)
          case Ok(feed) => Ok(acc.Put(url, feed))
  }

  /** What `_normalize_data` returns, `Err` when it raises: current data
      unchanged, anything but an object as an empty store, and a legacy
      object migrated. The result is always in the current layout. */
  function Normalized(loaded: Json, repr: Json -> string): (r: Result<Json>)
    ensures IsCurrent(loaded) ==> r == Ok(loaded)
    ensures !loaded.JObj? ==> r == Ok(StoreJson(Empty()))
    ensures r.Ok? ==> IsCurrent(r.value)
  {
    if IsCurrent(loaded) then Ok(loaded)
    else if !loaded.JObj? then Ok(StoreJson(Empty()))
    else
      match Migrate(loaded.obj.Items(), repr)
      case Err(e) => Err(e)
      case Ok(feeds) => Ok(StoreJson(feeds))
  }

  /** `_normalize_data(loaded)` */
  method NormalizeData(loaded: Json, repr: Json -> string) returns (r: Result<Json>)
    ensures r == Normalized(loaded, repr)
  {
    if IsCurrent(loaded) {
      return Ok(loaded);
    }
    if !loaded.JObj? {
      return Ok(StoreJson(Empty()));
    }
    var migrated := MigrateEntries(loaded.obj.Items(), repr);
    if migrated.Err? {
      return Err(migrated.msg);
    }
    return Ok(StoreJson(migrated.value));
  }

  /** The migration loop over the top-level entries of a legacy object. */
  method MigrateEntries(items: seq<(string, Json)>, repr: Json -> string) returns (r: Result<Store>)
    ensures r == Migrate(items, repr)
  {
    var migrated: Store := Empty();
    var i := 0;
    while i < |items|
      invariant 0 <= i <= |items|
      invariant Migrate(items[..i], repr) == Ok(migrated)
    {
      var (url, value) := items[i];
      assert items[..i + 1][..i] == items[..i];
      if IsLegacyFeed(value) {
        var feed := MigrateFeedEntry(value.obj, repr);
        if feed.Err? {
          MigrateError(items, i + 1, repr);
          return Err(feed.msg);
        }
        migrated := migrated.Put(url, feed.value);
      }
      i := i + 1;
    }
    assert items[..i] == items;
    return Ok(migrated);
  }

  /** The body of the migration loop for one legacy feed object. */
  method MigrateFeedEntry(value: OMap<string, Json>, repr: Json -> string) returns (r: Result<Feed>)
    ensures r == MigrateFeed(value, repr)
  {
    var info := ObjectAt(value, "info");
    var subscribers := ObjectAt(value, "subscribers");
    var title := PyStr(GetOr(info, "title", JStr("")), repr);
    var description := PyStr(GetOr(info, "description", JStr("")), repr);
    var subItems := subscribers.Items();
    var subs: OMap<string, Subscription> := Empty();
    var j := 0;
    while j < |subItems|
      invariant 0 <= j <= |subItems|
      invariant MigrateSubs(subItems[..j], repr) == Ok(subs)
    {
      var (channel, sub) := subItems[j];
      assert subItems[..j + 1][..j] == subItems[..j];
      if sub.JObj? {
        var migrated := MigrateSub(sub.obj, repr);
        if migrated.Err? {
          MigrateSubsError(subItems, j + 1, repr);
          return Err(migrated.msg);
        }
        subs := subs.Put(channel, migrated.value);
      }
      j := j + 1;
    }
    assert subItems[..j] == subItems;
    return Ok(Feed(title, description, subs));
  }

  /** The first error raised is the one that escapes. */
  lemma {:induction false} MigrateSubsError(items: seq<(string, Json)>, k: nat, repr: Json -> string)
    requires k <= |items| && MigrateSubs(items[..k], repr).Err?
    ensures MigrateSubs(items, repr) == MigrateSubs(items[..k], repr)
    decreases |items|
  {
    if k < |items| {
      var init := items[..|items| - 1];
      assert init[..k] == items[..k];
      MigrateSubsError(init, k, repr);
    } else {
      assert items[..k] == items;
    }
  }

  lemma {:induction false} MigrateError(items: seq<(string, Json)>, k: nat, repr: Json -> string)
    requires k <= |items| && Migrate(items[..k], repr).Err?
    ensures Migrate(items, repr) == Migrate(items[..k], repr)
    decreases |items|
  {
    if k < |items| {
      var init := items[..|items| - 1];
      assert init[..k] == items[..k];
      MigrateError(init, k, repr);
    } else {
      assert items[..k] == items;
    }
  }

  /** No key occurs twice. */
  ghost predicate DistinctKeys<V>(items: seq<(string, V)>) {
    forall i, j :: 0 <= i < j < |items| ==> items[i].0 != items[j].0
  }

  function KeysOf<V>(items: seq<(string, V)>): (r: seq<string>)
    ensures |r| == |items| && forall i :: 0 <= i < |items| ==> r[i] == items[i].0
  {
    seq(|items|, i requires 0 <= i < |items| => items[i].0)
  }

  /** The keys of the entries whose value is an object, in order. */
  function ObjectKeys(items: seq<(string, Json)>): (r: seq<string>)
    ensures forall x :: x in r ==> x in KeysOf(items)
  {
    if items == [] then []
    else
      var init := items[..|items| - 1];
      var last := items[|items| - 1];
      assert forall x :: x in KeysOf(init) ==> x in KeysOf(items) by {
        forall x | x in KeysOf(init) ensures x in KeysOf(items) {
          var k :| 0 <= k < |init| && KeysOf(init)[k] == x;
          assert KeysOf(items)[k] == x;
        }
      }
      assert last.0 == KeysOf(items)[|items| - 1];
      ObjectKeys(init) + (if last.1.JObj? then [last.0] else [])
  }

  /** The keys of the legacy feed entries, in order. */
  function LegacyUrls(items: seq<(string, Json)>): (r: seq<string>)
    ensures forall x :: x in r ==> x in KeysOf(items)
  {
    if items == [] then []
    else
      var init := items[..|items| - 1];
      var last := items[|items| - 1];
      assert forall x :: x in KeysOf(init) ==> x in KeysOf(items) by {
        forall x | x in KeysOf(init) ensures x in KeysOf(items) {
          var k :| 0 <= k < |init| && KeysOf(init)[k] == x;
          assert KeysOf(items)[k] == x;
        }
      }
      assert last.0 == KeysOf(items)[|items| - 1];
      LegacyUrls(init) + (if IsLegacyFeed(last.1) then [last.0] else [])
  }

  lemma DistinctInit<V>(items: seq<(string, V)>)
    requires items != [] && DistinctKeys(items)
    ensures DistinctKeys(items[..|items| - 1])
    ensures items[|items| - 1].0 !in KeysOf(items[..|items| - 1])
  {
    var init := items[..|items| - 1];
    forall x | x in KeysOf(init) ensures x != items[|items| - 1].0 {
      var k :| 0 <= k < |init| && KeysOf(init)[k] == x;
      assert x == items[k].0;
    }
  }

  /** Subscribers whose value is not an object are dropped; the others keep
      their order and become the migration of their object. */
  lemma {:induction false} MigrateSubsKeeps(items: seq<(string, Json)>, repr: Json -> string)
    requires DistinctKeys(items) && MigrateSubs(items, repr).Ok?
    ensures MigrateSubs(items, repr).value.keys == ObjectKeys(items)
    ensures var subs := MigrateSubs(items, repr).value;
      forall k :: 0 <= k < |items| && items[k].1.JObj? ==>
        items[k].0 in subs.entries && MigrateSub(items[k].1.obj, repr) == Ok(subs.entries[items[k].0])
    decreases |items|
  {
    if items != [] {
      var init := items[..|items| - 1];
      var (channel, sub) := items[|items| - 1];
      DistinctInit(items);
      var acc := MigrateSubs(init, repr).value;
      MigrateSubsKeeps(init, repr);
      assert channel !in acc.keys;
      forall k | 0 <= k < |items| - 1 && items[k].1.JObj?
        ensures items[k].0 in MigrateSubs(items, repr).value.entries
        ensures MigrateSub(items[k].1.obj, repr) == Ok(MigrateSubs(items, repr).value.entries[items[k].0])
      {
        assert items[k] == init[k];
        assert items[k].0 in KeysOf(init);
      }
    }
  }

  /** Top-level entries that are not objects with a `subscribers` key are
      dropped; the others keep their order and become the migration of their
      object. */
  lemma {:induction false} MigrateKeeps(items: seq<(string, Json)>, repr: Json -> string)
    requires DistinctKeys(items) && Migrate(items, repr).Ok?
    ensures Migrate(items, repr).value.keys == LegacyUrls(items)
    ensures var feeds := Migrate(items, repr).value;
      forall k :: 0 <= k < |items| && IsLegacyFeed(items[k].1) ==>
        items[k].0 in feeds.entries && MigrateFeed(items[k].1.obj, repr) == Ok(feeds.entries[items[k].0])
    decreases |items|
  {
    if items != [] {
      var init := items[..|items| - 1];
      var (url, value) := items[|items| - 1];
      DistinctInit(items);
      var acc := Migrate(init, repr).value;
      MigrateKeeps(init, repr);
      assert url !in acc.keys;
      forall k | 0 <= k < |items| - 1 && IsLegacyFeed(items[k].1)
        ensures items[k].0 in Migrate(items, repr).value.entries
        ensures MigrateFeed(items[k].1.obj, repr) == Ok(Migrate(items, repr).value.entries[items[k].0])
      {
        assert items[k] == init[k];
        assert items[k].0 in KeysOf(init);
      }
    }
  }

  /** The items of a well-formed object have distinct keys. */
  lemma ItemsDistinct<V>(o: OMap<string, V>)
    requires o.Valid()
    ensures DistinctKeys(o.Items())
  {
  }

  /** A legacy store becomes the store of its legacy feeds, in their order,
      each with its subscribers that are objects, in their order. */
  lemma LegacyMigration(o: OMap<string, Json>, repr: Json -> string, url: string)
    requires o.Valid() && Migrate(o.Items(), repr).Ok?
    requires url in o.entries && IsLegacyFeed(o.entries[url])
    requires ObjectAt(o.entries[url].obj, "subscribers").Valid()
    ensures var feeds := Migrate(o.Items(), repr).value;
      && feeds.keys == LegacyUrls(o.Items())
      && url in feeds.entries
      && feeds.entries[url].subscribers.keys == ObjectKeys(ObjectAt(o.entries[url].obj, "subscribers").Items())
  {
    var items := o.Items();
    ItemsDistinct(o);
    MigrateKeeps(items, repr);
    var k :| 0 <= k < |o.keys| && o.keys[k] == url;
    assert items[k].0 == url;
    var feeds := Migrate(items, repr).value;
    var value := o.entries[url].obj;
    var subsObj := ObjectAt(value, "subscribers");
    assert MigrateFeed(value, repr) == Ok(feeds.entries[url]);
    var subs := MigrateSubs(subsObj.Items(), repr);
    assert subs.Ok? && subs.value == feeds.entries[url].subscribers;
    ItemsDistinct(subsObj);
    MigrateSubsKeeps(subsObj.Items(), repr);
  }

  // ---------------------------------------------------------------------
  // list_channel_subscriptions

  /** One subscription of a channel: the feed's URL, the feed and the
      channel's subscription to it. */
  type ChannelSub = (string, Feed, Subscription)

  /** The subscriptions of `channel` among `items`, in item order. */
  function ChannelSubs(items: seq<(string, Feed)>, channel: string): (r: seq<ChannelSub>)
    ensures |r| <= |items|
  {
    if items == [] then []
    else
      var (url, feed) := items[|items| - 1];
      ChannelSubs(items[..|items| - 1], channel)
        + (if channel in feed.subscribers.entries then [(url, feed, feed.subscribers.entries[channel])] else [])
  }

  /** The query distributes over a split of the feeds: it keeps the feed
      order. */
  lemma {:induction false} ChannelSubsAppend(a: seq<(string, Feed)>, b: seq<(string, Feed)>, channel: string)
    ensures ChannelSubs(a + b, channel) == ChannelSubs(a, channel) + ChannelSubs(b, channel)
    decreases |b|
  {
    if b != [] {
      var b0 := b[..|b| - 1];
      assert (a + b)[..|a + b| - 1] == a + b0;
      ChannelSubsAppend(a, b0, channel);
    } else {
      assert a + b == a;
    }
  }

  /** A triple is listed exactly when its feed is among the items and the
      channel subscribes to it with that subscription. */
  lemma {:induction false} ChannelSubsMembers(items: seq<(string, Feed)>, channel: string, t: ChannelSub)
    ensures t in ChannelSubs(items, channel)
        <==> (t.0, t.1) in items && channel in t.1.subscribers.entries && t.2 == t.1.subscribers.entries[channel]
    decreases |items|
  {
    if items != [] {
      var init := items[..|items| - 1];
      var last := items[|items| - 1];
      ChannelSubsMembers(init, channel, t);
      assert items == init + [last];
      assert (t.0, t.1) in items <==> (t.0, t.1) in init || (t.0, t.1) == last;
      var tail := if channel in last.1.subscribers.entries then [(last.0, last.1, last.1.subscribers.entries[channel])] else [];
      assert ChannelSubs(items, channel) == ChannelSubs(init, channel) + tail;
      assert t in tail <==> (t.0, t.1) == last && channel in t.1.subscribers.entries && t.2 == t.1.subscribers.entries[channel];
    }
  }

  /** The store and the subscription lists read from it. */
  class DataHandler {
    var feeds: Store

    ghost predicate Valid()
      reads this
    {
      StoreValid(feeds)
    }

    /** A handler over data already loaded and normalised. */
    constructor(feeds: Store)
      requires StoreValid(feeds)
      ensures Valid() && this.feeds == feeds
    {
      this.feeds := feeds;
    }

    /** `list_channel_subscriptions(channel)`: the subscriptions of
        `channel`, in feed order; nothing is changed. */
    method ListChannelSubscriptions(channel: string) returns (results: seq<ChannelSub>)
      ensures results == ChannelSubs(feeds.Items(), channel)
    {
      var items := feeds.Items();
      results := [];
      var i := 0;
      while i < |items|
        invariant 0 <= i <= |items|
        invariant results == ChannelSubs(items[..i], channel)
      {
        var (url, feed) := items[i];
        assert items[..i + 1][..i] == items[..i];
        if channel in feed.subscribers.entries {
          results := results + [(url, feed, feed.subscribers.entries[channel])];
        }
        i := i + 1;
      }
      assert items[..i] == items;
    }
  }

  /** Over a well-formed store, the list holds exactly the channel's
      subscriptions, each with the current feed and subscription. */
  lemma ListedSubscriptions(feeds: Store, channel: string, t: ChannelSub)
    requires feeds.Valid()
    ensures t in ChannelSubs(feeds.Items(), channel)
        <==> t.0 in feeds.entries && t.1 == feeds.entries[t.0]
             && channel in t.1.subscribers.entries && t.2 == t.1.subscribers.entries[channel]
  {
    var items := feeds.Items();
    ChannelSubsMembers(items, channel, t);
    if t.0 in feeds.entries && t.1 == feeds.entries[t.0] {
      var k :| 0 <= k < |feeds.keys| && feeds.keys[k] == t.0;
      assert items[k] == (t.0, t.1);
    }
  }
}
