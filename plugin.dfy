/** The plugin object: its configuration, the chat commands that change the
    subscriptions, the scheduled poll and the refresh of the poll jobs. */
module Plugin {
  import opened Wrappers
  import opened PyText
  import opened OrderedMaps
  import opened Rss
  import opened Cron
  import opened Urls
  import opened DataHandling
  import opened Checkpoint
  import opened Commands
  import opened StoreOps
  import opened Scheduling

  /** The outcome of a command, standing for the reply text sent back. */
  datatype Reply =
    | Usage
    | BadUrl
    | BadCron(error: string)
    | AlreadySubscribed
    | FetchFailed(error: string)
    | Added(url: string, cron: string)
    | BadIndex
    | OutOfRange
    | Removed
    | Changed(cron: string)
    | Raised(error: string)

  // ---------------------------------------------------------------------
  // Configuration

  /** `_config_get(key, default)`: the configured value, the default when it
      is unset (`None`). */
  function ConfigGet(value: Json, default: Json): (r: Json)
    ensures value != JNull ==> r == value
    ensures value == JNull ==> r == default
  {
    if value == JNull then default else value
  }

  /** `_read_default_cron_expr`: the configured default cron expression
      (under its current or its misspelt legacy key), trimmed; the fallback
      when it is blank or does not validate. */
  function ReadDefaultCron(setting: Json, legacySetting: Json, check: TriggerCheck, repr: Json -> string): (r: string)
    ensures var given := Strip(PyStr(ConfigGet(setting, ConfigGet(legacySetting, JStr(FallbackCron))), repr));
      && (given != "" && ValidateCronExpr(given, check).ok ==> r == given)
      && (given == "" || !ValidateCronExpr(given, check).ok ==> r == FallbackCron)
  {
    var cron := Strip(PyStr(ConfigGet(setting, ConfigGet(legacySetting, JStr(FallbackCron))), repr));
    var cron := if cron == "" then FallbackCron else cron;
    if ValidateCronExpr(cron, check).ok then cron else FallbackCron
  }

  lemma FallbackStripped()
    ensures Strip(FallbackCron) == FallbackCron
  {
    assert FallbackCron[0] == '*' && FallbackCron[|FallbackCron| - 1] == '*';
    assert IsStripped(FallbackCron);
    StripStripped(FallbackCron);
  }

  /** With neither key set, the default is the fallback expression; a valid
      expression set under the current key wins over the legacy key. */
  lemma DefaultCronSettings(expr: string, legacy: Json, check: TriggerCheck, repr: Json -> string)
    ensures ReadDefaultCron(JNull, JNull, check, repr) == FallbackCron
    ensures expr != "" && IsStripped(expr) && ValidateCronExpr(expr, check).ok ==>
      ReadDefaultCron(JStr(expr), legacy, check, repr) == expr
  {
    FallbackStripped();
    if expr != "" && IsStripped(expr) {
      StripStripped(expr);
    }
  }

  // ---------------------------------------------------------------------
  // The commands, as functions of the store

  /** `/rss add <url> [cron]` from `channel`, with the result the fetch of the
      URL would give: the reply and the new store. */
  function AddCommand(feeds: Store, channel: string, args: seq<string>, fetched: Result<Fetched>, default: string, check: TriggerCheck, capacity: nat): (r: (Reply, Store))
    requires StoreValid(feeds)
    ensures StoreValid(r.1)
    ensures r.0 == Usage <==> |args| == 0
    ensures !r.0.Added? ==> r.1 == feeds
    ensures r.0 == BadUrl ==> |args| > 0 && NormalizeUrl(args[0]) == Ok("")
    ensures r.0.BadCron? ==> !ValidateCronExpr(CommandCron(args, default), check).ok
    ensures r.0 == AlreadySubscribed ==>
      |args| > 0 && NormalizeUrl(args[0]).Ok? && Subscribes(feeds, NormalizeUrl(args[0]).value, channel)
    ensures r.0.FetchFailed? ==> fetched.Err?
    ensures r.0.Added? ==>
      && |args| > 0 && NormalizeUrl(args[0]) == Ok(r.0.url) && r.0.url != ""
      && r.0.cron == CommandCron(args, default) && ValidateCronExpr(r.0.cron, check).ok
      && !Subscribes(feeds, r.0.url, channel) && fetched.Ok?
      && Subscribes(r.1, r.0.url, channel)
      && SubscriptionAt(r.1, r.0.url, channel) == InitialSubscription(r.0.cron, fetched.value.items, capacity)
      && SameElsewhere(r.1, feeds, r.0.url, channel)
    ensures r.0 in {Usage, BadUrl, AlreadySubscribed} || r.0.BadCron? || r.0.FetchFailed? || r.0.Added? || r.0.Raised?
    ensures r.0.Raised? <==> |args| > 0 && NormalizeUrl(args[0]).Err?
    ensures r.0.Raised? ==> r.0.error == NormalizeUrl(args[0]).msg
    ensures |args| > 0 && NormalizeUrl(args[0]).Ok? ==>
      var url := NormalizeUrl(args[0]).value;
      var cron := CommandCron(args, default);
      var valid := ValidateCronExpr(cron, check);
      && (r.0 == BadUrl <==> url == "")
      && (r.0.BadCron? <==> url != "" && !valid.ok)
      && (r.0.BadCron? ==> r.0.error == valid.message)
      && (r.0 == AlreadySubscribed <==> url != "" && valid.ok && Subscribes(feeds, url, channel))
      && (r.0.FetchFailed? <==> url != "" && valid.ok && !Subscribes(feeds, url, channel) && fetched.Err?)
      && (r.0.FetchFailed? ==> r.0.error == fetched.msg)
      && (url != "" && valid.ok && !Subscribes(feeds, url, channel) && fetched.Ok? ==>
            r == (Added(url, cron), Subscribe(feeds, url, channel, cron, fetched.value, capacity)))
  {
    if |args| < 1 then (Usage, feeds)
    else if NormalizeUrl(args[0]).Err? then (Raised(NormalizeUrl(args[0]).msg), feeds)
    else
      var url := NormalizeUrl(args[0]).value;
      var cron := CommandCron(args, default);
      var validation := ValidateCronExpr(cron, check);
      if url == "" then (BadUrl, feeds)
      else if !validation.ok then (BadCron(validation.message), feeds)
      else if Subscribes(feeds, url, channel) then (AlreadySubscribed, feeds)
      else if fetched.Err? then (FetchFailed(fetched.msg), feeds)
      else (Added(url, cron), Subscribe(feeds, url, channel, cron, fetched.value, capacity))
  }

  /** After a successful `add` the subscription is listed for the channel,
      and repeating the same `add` is refused without changing anything. */
  lemma AddThenListedAndRefused(feeds: Store, channel: string, args: seq<string>, f1: Result<Fetched>, f2: Result<Fetched>, default: string, check: TriggerCheck, capacity: nat)
    requires StoreValid(feeds)
    requires AddCommand(feeds, channel, args, f1, default, check, capacity).0.Added?
    ensures var (reply, after) := AddCommand(feeds, channel, args, f1, default, check, capacity);
      && (reply.url, after.entries[reply.url], InitialSubscription(reply.cron, f1.value.items, capacity))
           in ChannelSubs(after.Items(), channel)
      && AddCommand(after, channel, args, f2, default, check, capacity) == (AlreadySubscribed, after)
  {
    var (reply, after) := AddCommand(feeds, channel, args, f1, default, check, capacity);
    ListedSubscriptions(after, channel, (reply.url, after.entries[reply.url], InitialSubscription(reply.cron, f1.value.items, capacity)));
  }

  /** `/rss remove <index>` from `channel`. */
  function RemoveCommand(feeds: Store, channel: string, args: seq<string>): (r: (Reply, Store))
    requires StoreValid(feeds)
    ensures StoreValid(r.1)
    ensures r.0 == Usage <==> |args| != 1
    ensures r.0 != Removed ==> r.1 == feeds
    ensures r.0 == BadIndex ==> ParseIndex(args[0]).None?
    ensures r.0 == OutOfRange ==> ParseIndex(args[0]).Some? && ParseIndex(args[0]).value >= |ChannelSubs(feeds.Items(), channel)|
    ensures r.0 == Removed ==>
      var subs := ChannelSubs(feeds.Items(), channel);
      && ParseIndex(args[0]).Some? && ParseIndex(args[0]).value < |subs|
      && var url := subs[ParseIndex(args[0]).value].0;
      && Subscribes(feeds, url, channel) && r.1 == Unsubscribe(feeds, url, channel)
      && !Subscribes(r.1, url, channel)
      && SameElsewhere(r.1, feeds, url, channel)
      && (url !in r.1.entries <==> feeds.entries[url].subscribers.entries.Keys <= {channel})
    ensures r.0 in {Usage, BadIndex, OutOfRange, Removed}
  {
    if |args| != 1 then (Usage, feeds)
    else
      match ParseIndex(args[0])
      case None => (BadIndex, feeds)
      case Some(idx) =>
        var subs := ChannelSubs(feeds.Items(), channel);
        if idx >= |subs| then (OutOfRange, feeds)
        else
          ListedSubscribes(feeds, channel, idx);
          (Removed, Unsubscribe(feeds, subs[idx].0, channel))
  }

  /** After a successful `remove` the listing of the channel is the old one
      without the removed feed. */
  lemma RemoveUnlists(feeds: Store, channel: string, args: seq<string>, t: ChannelSub)
    requires StoreValid(feeds)
    requires RemoveCommand(feeds, channel, args).0 == Removed
    ensures var after := RemoveCommand(feeds, channel, args).1;
      var url := ChannelSubs(feeds.Items(), channel)[ParseIndex(args[0]).value].0;
      t in ChannelSubs(after.Items(), channel) <==> t in ChannelSubs(feeds.Items(), channel) && t.0 != url
  {
    var after := RemoveCommand(feeds, channel, args).1;
    ListedSubscriptions(feeds, channel, t);
    ListedSubscriptions(after, channel, t);
  }

  /** `/rss change <index> [cron]` from `channel`. */
  function ChangeCommand(feeds: Store, channel: string, args: seq<string>, default: string, check: TriggerCheck): (r: (Reply, Store))
    requires StoreValid(feeds)
    ensures StoreValid(r.1)
    ensures r.0 == Usage <==> |args| == 0
    ensures !r.0.Changed? ==> r.1 == feeds
    ensures r.0 == BadIndex ==> ParseIndex(args[0]).None?
    ensures r.0.BadCron? ==> ParseIndex(args[0]).Some? && !ValidateCronExpr(CommandCron(args, default), check).ok
    ensures r.0 == OutOfRange ==> ParseIndex(args[0]).Some? && ParseIndex(args[0]).value >= |ChannelSubs(feeds.Items(), channel)|
    ensures r.0.Changed? ==>
      var subs := ChannelSubs(feeds.Items(), channel);
      && ParseIndex(args[0]).Some? && ParseIndex(args[0]).value < |subs|
      && r.0.cron == CommandCron(args, default) && ValidateCronExpr(r.0.cron, check).ok
      && var url := subs[ParseIndex(args[0]).value].0;
      && Subscribes(feeds, url, channel) && Subscribes(r.1, url, channel)
      && SubscriptionAt(r.1, url, channel) == SubscriptionAt(feeds, url, channel).(cronExpr := r.0.cron)
      && SameElsewhere(r.1, feeds, url, channel)
    ensures r.0 in {Usage, BadIndex, OutOfRange} || r.0.BadCron? || r.0.Changed?
    ensures |args| > 0 ==> (r.0 == BadIndex <==> ParseIndex(args[0]).None?)
    ensures |args| > 0 && ParseIndex(args[0]).Some? ==>
      var idx := ParseIndex(args[0]).value;
      var cron := CommandCron(args, default);
      var valid := ValidateCronExpr(cron, check);
      var subs := ChannelSubs(feeds.Items(), channel);
      && (r.0.BadCron? <==> !valid.ok)
      && (r.0.BadCron? ==> r.0.error == valid.message)
      && (r.0 == OutOfRange <==> valid.ok && idx >= |subs|)
      && (valid.ok && idx < |subs| ==>
            && Subscribes(feeds, subs[idx].0, channel)
            && r == (Changed(cron), SetCron(feeds, subs[idx].0, channel, cron)))
  {
    if |args| < 1 then (Usage, feeds)
    else
      match ParseIndex(args[0])
      case None => (BadIndex, feeds)
      case Some(idx) =>
        var cron := CommandCron(args, default);
        var validation := ValidateCronExpr(cron, check);
        var subs := ChannelSubs(feeds.Items(), channel);
        if !validation.ok then (BadCron(validation.message), feeds)
        else if idx >= |subs| then (OutOfRange, feeds)
        else
          ListedSubscribes(feeds, channel, idx);
          (Changed(cron), SetCron(feeds, subs[idx].0, channel, cron))
  }

  /** The channel subscribes to the URL at every position of its listing. */
  lemma ListedSubscribes(feeds: Store, channel: string, idx: nat)
    requires feeds.Valid() && idx < |ChannelSubs(feeds.Items(), channel)|
    ensures Subscribes(feeds, ChannelSubs(feeds.Items(), channel)[idx].0, channel)
  {
    ListedSubscriptions(feeds, channel, ChannelSubs(feeds.Items(), channel)[idx]);
  }

  /** A URL appears in the channel's listing exactly when the channel
      subscribes to it. */
  lemma ListedUrl(feeds: Store, channel: string, url: string)
    requires feeds.Valid()
    ensures var subs := ChannelSubs(feeds.Items(), channel);
      Subscribes(feeds, url, channel) <==> exists m :: 0 <= m < |subs| && subs[m].0 == url
  {
    var subs := ChannelSubs(feeds.Items(), channel);
    if Subscribes(feeds, url, channel) {
      var t := (url, feeds.entries[url], SubscriptionAt(feeds, url, channel));
      ListedSubscriptions(feeds, channel, t);
      var m :| 0 <= m < |subs| && subs[m] == t;
    }
    if exists m :: 0 <= m < |subs| && subs[m].0 == url {
      var m :| 0 <= m < |subs| && subs[m].0 == url;
      ListedSubscriptions(feeds, channel, subs[m]);
    }
  }

  /** The duplicate check of `add`: whether some listed subscription is of
      `url`. */
  method ListsUrl(subs: seq<ChannelSub>, url: string) returns (found: bool)
    ensures found <==> exists m :: 0 <= m < |subs| && subs[m].0 == url
  {
    var k := 0;
    while k < |subs|
      invariant 0 <= k <= |subs|
      invariant forall m :: 0 <= m < k ==> subs[m].0 != url
    {
      if subs[k].0 == url {
        return true;
      }
      k := k + 1;
    }
    return false;
  }

  /** The order in which the poll pushes the new entries: `reversed`. */
  method PushOrder(found: seq<RssItem>) returns (pushed: seq<RssItem>)
    ensures pushed == Reversed(found)
  {
    pushed := [];
    var i := |found|;
    while i > 0
      invariant 0 <= i <= |found|
      invariant pushed == Reversed(found[i..])
    {
      i := i - 1;
      assert found[i..][1..] == found[i + 1..];
      pushed := pushed + [found[i]];
    }
  }

  // ---------------------------------------------------------------------
  // The plugin object

  class RssPlugin {
    const store: DataHandler
    const defaultCronExpr: string
    const initFetchCount: nat
    const pollFetchCount: nat
    const check: TriggerCheck
    /** Whether the scheduler has been started. */
    var running: bool
    /** The scheduler's jobs, by job id. */
    var jobs: map<string, Job>

    /** A running scheduler holds exactly the jobs of the stored
        subscriptions. */
    ghost predicate Synced()
      reads this, store
    {
      running ==> jobs == AllJobs(store.feeds.Items(), defaultCronExpr, CronTrigger(check))
    }

    ghost predicate Valid()
      reads this, store
    {
      store.Valid() && initFetchCount >= 1 && pollFetchCount >= 1 && Synced()
    }

    /** The plugin over the loaded store and the configured settings (each
        `JNull` when unset), with the scheduler not yet started. */
    constructor(feeds: Store, cronSetting: Json, legacyCronSetting: Json, initSetting: Json, pollSetting: Json,
                check: TriggerCheck, repr: Json -> string)
      requires StoreValid(feeds)
      ensures Valid() && fresh(store) && store.feeds == feeds
      ensures !running && jobs == map[]
      ensures defaultCronExpr == ReadDefaultCron(cronSetting, legacyCronSetting, check, repr)
      ensures initFetchCount == ToInt(ConfigGet(initSetting, JInt(20)), 20, 1)
      ensures pollFetchCount == ToInt(ConfigGet(pollSetting, JInt(initFetchCount)), initFetchCount, 1)
      ensures this.check == check
    {
      defaultCronExpr := ReadDefaultCron(cronSetting, legacyCronSetting, check, repr);
      var initCount := ToInt(ConfigGet(initSetting, JInt(20)), 20, 1);
      initFetchCount := initCount;
      pollFetchCount := ToInt(ConfigGet(pollSetting, JInt(initCount)), initCount, 1);
      this.check := check;
      store := new DataHandler(feeds);
      running := false;
      jobs := map[];
    }

    /** `initialize`: start the scheduler and schedule every subscription. */
    method Initialize()
      requires Valid()
      modifies this
      ensures Valid() && running
      ensures jobs == AllJobs(store.feeds.Items(), defaultCronExpr, CronTrigger(check))
    {
      running := true;
      RefreshScheduler();
    }

    /** `terminate`: shut the scheduler down. */
    method Terminate()
      requires Valid()
      modifies this
      ensures Valid() && !running && jobs == old(jobs)
    {
      running := false;
    }

    /** `_refresh_scheduler`: when the scheduler runs, drop every job and add
        one per subscription whose effective cron expression validates. */
    method RefreshScheduler()
      modifies this`jobs
      ensures running ==> jobs == AllJobs(store.feeds.Items(), defaultCronExpr, CronTrigger(check))
      ensures !running ==> jobs == old(jobs)
    {
      if !running {
        return;
      }
      jobs := map[];
      var items := store.feeds.Items();
      var i := 0;
      while i < |items|
        invariant 0 <= i <= |items|
        invariant jobs == AllJobs(items[..i], defaultCronExpr, CronTrigger(check))
      {
        var (url, feed) := items[i];
        ScheduleFeed(url, feed.subscribers.Items());
        AllJobsStep(items, i, defaultCronExpr, CronTrigger(check));
        i := i + 1;
      }
      assert items[..i] == items;
    }

    /** The inner loop of `_refresh_scheduler`: add the job of every
        subscriber of one feed whose effective cron expression validates. */
    method ScheduleFeed(url: string, subs: seq<(string, Subscription)>)
      modifies this`jobs
      ensures jobs == FeedJobs(old(jobs), url, subs, defaultCronExpr, CronTrigger(check))
    {
      var j := 0;
      while j < |subs|
        invariant 0 <= j <= |subs|
        invariant jobs == FeedJobs(old(jobs), url, subs[..j], defaultCronExpr, CronTrigger(check))
      {
        var (channel, sub) := subs[j];
        var cron := EffectiveCron(sub, defaultCronExpr);
        var validation := ValidateCronExpr(cron, check);
        FeedJobsStep(old(jobs), url, subs, j, defaultCronExpr, CronTrigger(check));
        AddJobValidated(jobs, url, channel, sub, defaultCronExpr, check);
        if validation.ok {
          var fields := ParseCronExpr(cron).value;
          jobs := jobs[JobId(url, channel) := Job(url, channel, fields)];
        }
        j := j + 1;
      }
      assert subs[..j] == subs;
    }

    /** What every command that changes the store does last: keep the new
        store (`save_data`) and reschedule (`_refresh_scheduler`). */
    method Commit(next: Store)
      requires Valid() && StoreValid(next)
      modifies this, store
      ensures Valid() && store.feeds == next && running == old(running)
      ensures !running ==> jobs == old(jobs)
    {
      store.feeds := next;
      RefreshScheduler();
    }

    /** `_cmd_add`, with the result the fetch of the URL would give. */
    method CmdAdd(channel: string, args: seq<string>, fetched: Result<Fetched>) returns (reply: Reply)
      requires Valid()
      modifies this, store
      ensures Valid() && running == old(running)
      ensures (reply, store.feeds) == AddCommand(old(store.feeds), channel, args, fetched, defaultCronExpr, check, initFetchCount)
      ensures !reply.Added? ==> jobs == old(jobs)
      ensures !old(running) ==> jobs == old(jobs)
    {
      if |args| < 1 {
        return Usage;
      }
      var normalized := NormalizeUrl(args[0]);
      if normalized.Err? {
        return Raised(normalized.msg);
      }
      var url := normalized.value;
      if url == "" {
        return BadUrl;
      }
      var cron := CommandCron(args, defaultCronExpr);
      var validation := ValidateCronExpr(cron, check);
      if !validation.ok {
        return BadCron(validation.message);
      }
      var subs := store.ListChannelSubscriptions(channel);
      var listed := ListsUrl(subs, url);
      ListedUrl(store.feeds, channel, url);
      if listed {
        return AlreadySubscribed;
      }
      if fetched.Err? {
        return FetchFailed(fetched.msg);
      }
      Commit(Subscribe(store.feeds, url, channel, cron, fetched.value, initFetchCount));
      reply := Added(url, cron);
    }

    /** `_cmd_remove` */
    method CmdRemove(channel: string, args: seq<string>) returns (reply: Reply)
      requires Valid()
      modifies this, store
      ensures Valid() && running == old(running)
      ensures (reply, store.feeds) == RemoveCommand(old(store.feeds), channel, args)
      ensures reply != Removed ==> jobs == old(jobs)
      ensures !old(running) ==> jobs == old(jobs)
    {
      if |args| != 1 {
        return Usage;
      }
      var index := ParseIndex(args[0]);
      if index.None? {
        return BadIndex;
      }
      var idx := index.value;
      var subs := store.ListChannelSubscriptions(channel);
      if idx >= |subs| {
        return OutOfRange;
      }
      var (url, _, _) := subs[idx];
      ListedSubscribes(store.feeds, channel, idx);
      Commit(Unsubscribe(store.feeds, url, channel));
      reply := Removed;
    }

    /** `_cmd_change` */
    method CmdChange(channel: string, args: seq<string>) returns (reply: Reply)
      requires Valid()
      modifies this, store
      ensures Valid() && running == old(running)
      ensures (reply, store.feeds) == ChangeCommand(old(store.feeds), channel, args, defaultCronExpr, check)
      ensures !reply.Changed? ==> jobs == old(jobs)
      ensures !old(running) ==> jobs == old(jobs)
    {
      if |args| < 1 {
        return Usage;
      }
      var index := ParseIndex(args[0]);
      if index.None? {
        return BadIndex;
      }
      var idx := index.value;
      var cron := CommandCron(args, defaultCronExpr);
      var validation := ValidateCronExpr(cron, check);
      if !validation.ok {
        return BadCron(validation.message);
      }
      var subs := store.ListChannelSubscriptions(channel);
      if idx >= |subs| {
        return OutOfRange;
      }
      var (url, _, _) := subs[idx];
      ListedSubscribes(store.feeds, channel, idx);
      Commit(SetCron(store.feeds, url, channel, cron));
      reply := Changed(cron);
    }

    /** `_scheduled_poll(url, channel)`, with the result the fetch would
        give; `pushed` lists the entries sent to the channel, in order. The
        scheduler is left as it is, and stays in step with the store. */
    method ScheduledPoll(url: string, channel: string, fetched: Result<Fetched>) returns (pushed: seq<RssItem>)
      requires Valid()
      modifies store
      ensures Valid()
      ensures (store.feeds, pushed) == Poll(old(store.feeds), url, channel, fetched, initFetchCount)
    {
      var feeds := store.feeds;
      PollKeepsJobs(feeds, url, channel, fetched, initFetchCount, defaultCronExpr, CronTrigger(check));
      PollCases(feeds, url, channel, fetched, initFetchCount);
      if url !in feeds.entries || channel !in feeds.entries[url].subscribers.entries {
        return [];
      }
      if fetched.Err? {
        return [];
      }
      var feed := WithInfo(feeds.entries[url], fetched.value.title, fetched.value.description);
      var sub := feed.subscribers.entries[channel];
      var found := CollectNewItems(fetched.value.items, sub);
      if found == [] {
        Keep(feeds.Put(url, feed));
        return [];
      }
      pushed := PushOrder(found);
      var next := UpdateSubscriptionCheckpoint(sub, found, initFetchCount);
      Keep(feeds.Put(url, feed.(subscribers := feed.subscribers.Put(channel, next))));
    }

    /** What the scheduled poll does last: keep the new store, whose jobs
        are those already scheduled, without touching the scheduler. */
    method Keep(next: Store)
      requires Valid() && StoreValid(next)
      requires AllJobs(next.Items(), defaultCronExpr, CronTrigger(check)) == AllJobs(store.feeds.Items(), defaultCronExpr, CronTrigger(check))
      modifies store
      ensures Valid() && store.feeds == next
    {
      store.feeds := next;
    }
  }
}
