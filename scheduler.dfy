/** The poll jobs the plugin schedules: one per subscription whose effective
    cron expression is valid, keyed by the subscription's job id. */
module Scheduling {
  import opened Wrappers
  import opened OrderedMaps
  import opened Cron
  import opened DataHandling
  import opened StoreOps
  import opened Commands
  import opened Checkpoint

  /** A scheduled poll of `url` for `channel` on the trigger `fields`. */
  datatype Job = Job(url: string, channel: string, fields: CronFields)

  /** `sub.get("cron_expr") or default_cron_expr` */
  function EffectiveCron(sub: Subscription, default: string): (r: string)
    ensures sub.cronExpr != "" ==> r == sub.cronExpr
    ensures sub.cronExpr == "" ==> r == default
  {
    if sub.cronExpr != "" then sub.cronExpr else default
  }

  /** What the scheduler makes of a cron expression: its trigger fields, or
      none when the expression is refused. */
  type Triggers = string -> Option<CronFields>

  /** `validate_cron_expr` followed by `parse_cron_expr`, as the plugin
      applies them before adding a job. */
  function CronTrigger(check: TriggerCheck): Triggers {
    cron => TriggerFor(cron, check)
  }

  /** The trigger built for one cron expression: its parse, when it
      validates. */
  function TriggerFor(cron: string, check: TriggerCheck): (r: Option<CronFields>)
    ensures r.Some? <==> ValidateCronExpr(cron, check).ok
    ensures r.Some? ==> ParseCronExpr(cron) == Ok(r.value)
  {
    match ParseCronExpr(cron)
    case Err(_) => None
    case Ok(fields) => if check(fields).None? then Some(fields) else None
  }

  /** A cron expression gets a trigger exactly when it validates, and the
      trigger is its parse. */
  lemma CronTriggerMeans(check: TriggerCheck, cron: string)
    ensures CronTrigger(check)(cron).Some? <==> ValidateCronExpr(cron, check).ok
    ensures CronTrigger(check)(cron).Some? ==> ParseCronExpr(cron) == Ok(CronTrigger(check)(cron).value)
  {
    assert CronTrigger(check)(cron) == TriggerFor(cron, check);
  }

  /** The job of one subscription; none when its cron expression is
      refused. */
  function JobOf(url: string, channel: string, sub: Subscription, default: string, triggerOf: Triggers): (r: Option<Job>)
    ensures r.Some? <==> triggerOf(EffectiveCron(sub, default)).Some?
    ensures r.Some? ==> r.value == Job(url, channel, triggerOf(EffectiveCron(sub, default)).value)
  {
    match triggerOf(EffectiveCron(sub, default))
    case Some(fields) => Some(Job(url, channel, fields))
    case None => None
  }

  /** `add_job(..., id=job_id, replace_existing=True)` for one subscription. */
  function AddJob(jobs: map<string, Job>, url: string, channel: string, sub: Subscription, default: string, triggerOf: Triggers): map<string, Job> {
    match JobOf(url, channel, sub, default, triggerOf)
    case Some(j) => jobs[JobId(url, channel) := j]
    case None => jobs
  }

  /** Adding the job of one subscription, in the plugin's terms: it is added
      exactly when its effective cron expression validates, with that
      expression's parse as the trigger. */
  lemma AddJobValidated(jobs: map<string, Job>, url: string, channel: string, sub: Subscription, default: string, check: TriggerCheck)
    ensures var cron := EffectiveCron(sub, default);
      AddJob(jobs, url, channel, sub, default, CronTrigger(check))
      == if ValidateCronExpr(cron, check).ok then jobs[JobId(url, channel) := Job(url, channel, ParseCronExpr(cron).value)] else jobs
  {
    CronTriggerMeans(check, EffectiveCron(sub, default));
  }

  /** The jobs after visiting the subscribers of one feed, in order. */
  function FeedJobs(jobs: map<string, Job>, url: string, subs: seq<(string, Subscription)>, default: string, triggerOf: Triggers): map<string, Job> {
    if subs == [] then jobs
    else
      var last := subs[|subs| - 1];
      AddJob(FeedJobs(jobs, url, subs[..|subs| - 1], default, triggerOf), url, last.0, last.1, default, triggerOf)
  }

  /** One more subscriber visited: its job is added to those of the ones
      before it. */
  lemma FeedJobsStep(jobs: map<string, Job>, url: string, subs: seq<(string, Subscription)>, j: nat, default: string, triggerOf: Triggers)
    requires j < |subs|
    ensures FeedJobs(jobs, url, subs[..j + 1], default, triggerOf)
      == AddJob(FeedJobs(jobs, url, subs[..j], default, triggerOf), url, subs[j].0, subs[j].1, default, triggerOf)
  {
    assert subs[..j + 1][..j] == subs[..j];
  }

  /** The jobs after visiting every feed, in order, from no jobs at all. */
  function AllJobs(feeds: seq<(string, Feed)>, default: string, triggerOf: Triggers): map<string, Job> {
    if feeds == [] then map[]
    else
      var last := feeds[|feeds| - 1];
      FeedJobs(AllJobs(feeds[..|feeds| - 1], default, triggerOf), last.0, last.1.subscribers.Items(), default, triggerOf)
  }

  /** One more feed visited: the jobs of its subscribers are added to those
      of the feeds before it. */
  lemma AllJobsStep(feeds: seq<(string, Feed)>, i: nat, default: string, triggerOf: Triggers)
    requires i < |feeds|
    ensures AllJobs(feeds[..i + 1], default, triggerOf)
      == FeedJobs(AllJobs(feeds[..i], default, triggerOf), feeds[i].0, feeds[i].1.subscribers.Items(), default, triggerOf)
  {
    assert feeds[..i + 1][..i] == feeds[..i];
  }

  /** The job stored under `id` is the job of a subscription of `feeds`
      whose id is `id`. */
  ghost predicate SoundJob(feeds: Store, id: string, j: Job, default: string, triggerOf: Triggers) {
    && id == JobId(j.url, j.channel)
    && Subscribes(feeds, j.url, j.channel)
    && JobOf(j.url, j.channel, SubscriptionAt(feeds, j.url, j.channel), default, triggerOf) == Some(j)
  }

  /** A sequence of pairs drawn from the store: each is a feed of it. */
  ghost predicate DrawnFrom(feeds: Store, items: seq<(string, Feed)>) {
    forall i :: 0 <= i < |items| ==> items[i].0 in feeds.entries && items[i].1 == feeds.entries[items[i].0]
  }

  /** Every job of `jobs` is sound for `feeds`. */
  ghost predicate AllSound(feeds: Store, jobs: map<string, Job>, default: string, triggerOf: Triggers) {
    forall id :: id in jobs ==> SoundJob(feeds, id, jobs[id], default, triggerOf)
  }

  lemma {:induction false} FeedJobsSound(feeds: Store, jobs: map<string, Job>, url: string, subs: seq<(string, Subscription)>, default: string, triggerOf: Triggers)
    requires url in feeds.entries
    requires forall i :: 0 <= i < |subs| ==> Subscribes(feeds, url, subs[i].0) && subs[i].1 == SubscriptionAt(feeds, url, subs[i].0)
    requires AllSound(feeds, jobs, default, triggerOf)
    ensures AllSound(feeds, FeedJobs(jobs, url, subs, default, triggerOf), default, triggerOf)
  {
    if subs != [] {
      var init := subs[..|subs| - 1];
      var last := subs[|subs| - 1];
      assert forall i :: 0 <= i < |init| ==> init[i] == subs[i];
      FeedJobsSound(feeds, jobs, url, init, default, triggerOf);
      var mid := FeedJobs(jobs, url, init, default, triggerOf);
      assert Subscribes(feeds, url, last.0) && last.1 == SubscriptionAt(feeds, url, last.0);
      match JobOf(url, last.0, last.1, default, triggerOf)
      case Some(j) =>
        assert SoundJob(feeds, JobId(url, last.0), j, default, triggerOf);
        assert FeedJobs(jobs, url, subs, default, triggerOf) == mid[JobId(url, last.0) := j];
      case None =>
        assert FeedJobs(jobs, url, subs, default, triggerOf) == mid;
    }
  }

  /** Every scheduled job belongs to a subscription with a valid cron
      expression and carries that subscription's trigger. */
  lemma {:induction false} AllJobsSound(feeds: Store, items: seq<(string, Feed)>, default: string, triggerOf: Triggers)
    requires DrawnFrom(feeds, items)
    ensures AllSound(feeds, AllJobs(items, default, triggerOf), default, triggerOf)
  {
    if items != [] {
      var init := items[..|items| - 1];
      var (url, feed) := items[|items| - 1];
      assert forall i :: 0 <= i < |init| ==> init[i] == items[i];
      AllJobsSound(feeds, init, default, triggerOf);
      var subs := feed.subscribers.Items();
      assert feed == feeds.entries[url];
      assert forall i :: 0 <= i < |subs| ==> Subscribes(feeds, url, subs[i].0) && subs[i].1 == SubscriptionAt(feeds, url, subs[i].0);
      FeedJobsSound(feeds, AllJobs(init, default, triggerOf), url, subs, default, triggerOf);
    }
  }

  /** Visiting more subscriptions never drops a job id. */
  lemma {:induction false} FeedJobsKeeps(jobs: map<string, Job>, url: string, subs: seq<(string, Subscription)>, default: string, triggerOf: Triggers, id: string)
    requires id in jobs
    ensures id in FeedJobs(jobs, url, subs, default, triggerOf)
  {
    if subs != [] {
      FeedJobsKeeps(jobs, url, subs[..|subs| - 1], default, triggerOf, id);
    }
  }

  lemma {:induction false} FeedJobsComplete(jobs: map<string, Job>, url: string, subs: seq<(string, Subscription)>, default: string, triggerOf: Triggers, k: nat)
    requires k < |subs| && JobOf(url, subs[k].0, subs[k].1, default, triggerOf).Some?
    ensures JobId(url, subs[k].0) in FeedJobs(jobs, url, subs, default, triggerOf)
  {
    var init := subs[..|subs| - 1];
    if k == |subs| - 1 {
    } else {
      FeedJobsComplete(jobs, url, init, default, triggerOf, k);
    }
  }

  lemma {:induction false} AllJobsKeeps(items: seq<(string, Feed)>, n: nat, default: string, triggerOf: Triggers, id: string)
    requires n <= |items| && id in AllJobs(items[..n], default, triggerOf)
    ensures id in AllJobs(items, default, triggerOf)
    decreases |items|
  {
    if n < |items| {
      var init := items[..|items| - 1];
      assert init[..n] == items[..n];
      AllJobsKeeps(init, n, default, triggerOf, id);
      FeedJobsKeeps(AllJobs(init, default, triggerOf), items[|items| - 1].0, items[|items| - 1].1.subscribers.Items(), default, triggerOf, id);
    } else {
      assert items[..n] == items;
    }
  }

  /** Every subscription whose effective cron expression validates gets a
      job under its id. */
  lemma {:induction false} AllJobsComplete(items: seq<(string, Feed)>, default: string, triggerOf: Triggers, i: nat, channel: string)
    requires i < |items| && channel in items[i].1.subscribers.entries
    requires JobOf(items[i].0, channel, items[i].1.subscribers.entries[channel], default, triggerOf).Some?
    requires items[i].1.subscribers.Valid()
    ensures JobId(items[i].0, channel) in AllJobs(items, default, triggerOf)
  {
    var (url, feed) := items[i];
    var subs := feed.subscribers.Items();
    var k :| 0 <= k < |feed.subscribers.keys| && feed.subscribers.keys[k] == channel;
    assert subs[k].0 == channel && subs[k].1 == feed.subscribers.entries[channel];
    var prefix := items[..i + 1];
    assert prefix[..i] == items[..i] && prefix[i] == items[i];
    FeedJobsComplete(AllJobs(items[..i], default, triggerOf), url, subs, default, triggerOf, k);
    assert JobId(url, channel) in AllJobs(prefix, default, triggerOf);
    AllJobsKeeps(items, i + 1, default, triggerOf, JobId(url, channel));
  }

  /** With no `|` in any URL, the scheduled jobs are exactly the jobs of the
      subscriptions whose effective cron expression validates. */
  lemma ScheduledJobs(feeds: Store, default: string, triggerOf: Triggers, url: string, channel: string)
    requires StoreValid(feeds)
    requires forall u :: u in feeds.entries ==> '|' !in u
    requires '|' !in url
    ensures var jobs := AllJobs(feeds.Items(), default, triggerOf);
      && (JobId(url, channel) in jobs <==>
            Subscribes(feeds, url, channel) && JobOf(url, channel, SubscriptionAt(feeds, url, channel), default, triggerOf).Some?)
      && (JobId(url, channel) in jobs ==>
            Some(jobs[JobId(url, channel)]) == JobOf(url, channel, SubscriptionAt(feeds, url, channel), default, triggerOf))
  {
    var items := feeds.Items();
    var jobs := AllJobs(items, default, triggerOf);
    AllJobsSound(feeds, items, default, triggerOf);
    var id := JobId(url, channel);
    if id in jobs {
      var j := jobs[id];
      assert SoundJob(feeds, id, j, default, triggerOf);
      assert '|' !in j.url;
      JobIdInjective(url, channel, j.url, j.channel);
    }
    if Subscribes(feeds, url, channel) && JobOf(url, channel, SubscriptionAt(feeds, url, channel), default, triggerOf).Some? {
      var i :| 0 <= i < |feeds.keys| && feeds.keys[i] == url;
      assert items[i].0 == url;
      AllJobsComplete(items, default, triggerOf, i, channel);
    }
  }

  /** Two subscriber lists with the same channels in the same order and the
      same cron expressions. */
  ghost predicate SameCrons(s1: seq<(string, Subscription)>, s2: seq<(string, Subscription)>) {
    |s1| == |s2| && forall i :: 0 <= i < |s1| ==> s1[i].0 == s2[i].0 && s1[i].1.cronExpr == s2[i].1.cronExpr
  }

  lemma {:induction false} FeedJobsCronOnly(jobs: map<string, Job>, url: string, s1: seq<(string, Subscription)>, s2: seq<(string, Subscription)>, default: string, triggerOf: Triggers)
    requires SameCrons(s1, s2)
    ensures FeedJobs(jobs, url, s1, default, triggerOf) == FeedJobs(jobs, url, s2, default, triggerOf)
  {
    if s1 != [] {
      var n := |s1| - 1;
      assert SameCrons(s1[..n], s2[..n]) by {
        assert forall i :: 0 <= i < n ==> s1[..n][i] == s1[i] && s2[..n][i] == s2[i];
      }
      FeedJobsCronOnly(jobs, url, s1[..n], s2[..n], default, triggerOf);
      assert EffectiveCron(s1[n].1, default) == EffectiveCron(s2[n].1, default);
    }
  }

  /** The jobs depend only on the feeds' order, their subscribers' order and
      the subscribers' cron expressions. */
  lemma {:induction false} AllJobsCronOnly(i1: seq<(string, Feed)>, i2: seq<(string, Feed)>, default: string, triggerOf: Triggers)
    requires |i1| == |i2|
    requires forall i :: 0 <= i < |i1| ==>
      i1[i].0 == i2[i].0 && SameCrons(i1[i].1.subscribers.Items(), i2[i].1.subscribers.Items())
    ensures AllJobs(i1, default, triggerOf) == AllJobs(i2, default, triggerOf)
  {
    if i1 != [] {
      var n := |i1| - 1;
      assert forall i :: 0 <= i < n ==> i1[..n][i] == i1[i] && i2[..n][i] == i2[i];
      AllJobsCronOnly(i1[..n], i2[..n], default, triggerOf);
      FeedJobsCronOnly(AllJobs(i1[..n], default, triggerOf), i1[n].0, i1[n].1.subscribers.Items(), i2[n].1.subscribers.Items(), default, triggerOf);
    }
  }

  /** Replacing one subscription by one with the same cron expression keeps
      the subscriber list's schedule. */
  lemma PutSameCron(subs: OMap<string, Subscription>, channel: string, sub: Subscription)
    requires subs.Valid() && channel in subs.entries && subs.entries[channel].cronExpr == sub.cronExpr
    ensures SameCrons(subs.Put(channel, sub).Items(), subs.Items())
  {
    var a := subs.Items();
    var b := subs.Put(channel, sub).Items();
    forall i | 0 <= i < |a| ensures a[i].0 == b[i].0 && a[i].1.cronExpr == b[i].1.cronExpr {
      assert a[i].0 == subs.keys[i] && b[i].0 == subs.keys[i];
    }
  }

  /** Replacing a feed by one with the same schedule keeps the jobs. */
  lemma PutFeedKeepsJobs(feeds: Store, url: string, feed: Feed, default: string, triggerOf: Triggers)
    requires StoreValid(feeds) && url in feeds.entries
    requires SameCrons(feed.subscribers.Items(), feeds.entries[url].subscribers.Items())
    ensures AllJobs(feeds.Put(url, feed).Items(), default, triggerOf) == AllJobs(feeds.Items(), default, triggerOf)
  {
    var after := feeds.Put(url, feed);
    var i1 := after.Items();
    var i2 := feeds.Items();
    forall i | 0 <= i < |i1|
      ensures i1[i].0 == i2[i].0 && SameCrons(i1[i].1.subscribers.Items(), i2[i].1.subscribers.Items())
    {
      assert i1[i].0 == feeds.keys[i] && i2[i].0 == feeds.keys[i];
      if feeds.keys[i] != url {
        assert i1[i].1 == i2[i].1;
      }
    }
    AllJobsCronOnly(i1, i2, default, triggerOf);
  }

  /** A scheduled poll never changes the jobs that should be scheduled: it
      keeps every feed, every subscriber and every cron expression, which is
      why it does not refresh the scheduler. */
  lemma PollKeepsJobs(feeds: Store, url: string, channel: string, fetched: Result<Fetched>, capacity: nat, default: string, triggerOf: Triggers)
    requires StoreValid(feeds)
    ensures AllJobs(Poll(feeds, url, channel, fetched, capacity).0.Items(), default, triggerOf) == AllJobs(feeds.Items(), default, triggerOf)
  {
    if Subscribes(feeds, url, channel) && fetched.Ok? {
      var oldSubs := feeds.entries[url].subscribers;
      var feed := WithInfo(feeds.entries[url], fetched.value.title, fetched.value.description);
      var sub := feed.subscribers.entries[channel];
      var found := NewItems(fetched.value.items, sub);
      if found == [] {
        assert Poll(feeds, url, channel, fetched, capacity).0 == feeds.Put(url, feed);
        assert SameCrons(feed.subscribers.Items(), oldSubs.Items());
        PutFeedKeepsJobs(feeds, url, feed, default, triggerOf);
      } else {
        var subs := oldSubs.Put(channel, Checkpointed(sub, found, capacity));
        assert Poll(feeds, url, channel, fetched, capacity).0 == feeds.Put(url, feed.(subscribers := subs));
        PutSameCron(oldSubs, channel, Checkpointed(sub, found, capacity));
        PutFeedKeepsJobs(feeds, url, feed.(subscribers := subs), default, triggerOf);
      }
    }
  }

  /** The scheduled jobs in the plugin's terms: with no `|` in any URL, a
      subscription has a job exactly when its effective cron expression
      validates, and the job's trigger is that expression's parse. */
  lemma ScheduledJobsValidate(feeds: Store, default: string, check: TriggerCheck, url: string, channel: string)
    requires StoreValid(feeds)
    requires forall u :: u in feeds.entries ==> '|' !in u
    requires '|' !in url
    ensures var jobs := AllJobs(feeds.Items(), default, CronTrigger(check));
      && (JobId(url, channel) in jobs <==>
            Subscribes(feeds, url, channel) && ValidateCronExpr(EffectiveCron(SubscriptionAt(feeds, url, channel), default), check).ok)
      && (JobId(url, channel) in jobs ==>
            var cron := EffectiveCron(SubscriptionAt(feeds, url, channel), default);
            jobs[JobId(url, channel)] == Job(url, channel, ParseCronExpr(cron).value))
  {
    ScheduledJobs(feeds, default, CronTrigger(check), url, channel);
    if Subscribes(feeds, url, channel) {
      CronTriggerMeans(check, EffectiveCron(SubscriptionAt(feeds, url, channel), default));
    }
  }
}
