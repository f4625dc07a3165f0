/** What the chat commands and the scheduled poll do to the subscription
    store, as functions from the old store to the new one. */
module StoreOps {
  import opened Wrappers
  import opened PyText
  import opened OrderedMaps
  import opened Rss
  import opened DataHandling
  import opened Checkpoint

  /** What fetching a feed yields: its title, description and entries. */
  datatype Fetched = Fetched(title: string, description: string, items: seq<RssItem>)

  /** `channel` subscribes to the feed at `url`. */
  predicate Subscribes(feeds: Store, url: string, channel: string) {
    url in feeds.entries && channel in feeds.entries[url].subscribers.entries
  }

  function SubscriptionAt(feeds: Store, url: string, channel: string): Subscription
    requires Subscribes(feeds, url, channel)
  {
    feeds.entries[url].subscribers.entries[channel]
  }

  /** Every subscription other than `(url, channel)` exists in `a` exactly
      when it exists in `b`, with the same state. */
  ghost predicate SameElsewhere(a: Store, b: Store, url: string, channel: string) {
    forall u, c :: (u != url || c != channel) ==>
      && (Subscribes(a, u, c) <==> Subscribes(b, u, c))
      && (Subscribes(a, u, c) ==> SubscriptionAt(a, u, c) == SubscriptionAt(b, u, c))
  }

  /** Replacing the feed at `url` by one whose subscribers other than
      `channel` are those of the old feed keeps every other subscription. */
  lemma {:induction false} PutFeedElsewhere(feeds: Store, url: string, feed: Feed, channel: string)
    requires StoreValid(feeds) && feed.subscribers.Valid()
    requires url in feeds.entries ==>
      forall c :: c != channel ==>
        && (c in feed.subscribers.entries <==> c in feeds.entries[url].subscribers.entries)
        && (c in feed.subscribers.entries ==> feed.subscribers.entries[c] == feeds.entries[url].subscribers.entries[c])
    requires url !in feeds.entries ==> feed.subscribers.entries.Keys <= {channel}
    ensures StoreValid(feeds.Put(url, feed))
    ensures SameElsewhere(feeds.Put(url, feed), feeds, url, channel)
  {
    var r := feeds.Put(url, feed);
    forall u, c | u != url || c != channel
      ensures (Subscribes(r, u, c) <==> Subscribes(feeds, u, c))
      ensures Subscribes(r, u, c) ==> SubscriptionAt(r, u, c) == SubscriptionAt(feeds, u, c)
    {
      if u != url && u in feeds.entries {
        assert r.entries[u] == feeds.entries[u];
      }
    }
  }

  /** A fetched title or description replaces the stored one only when it is
      not empty. */
  function WithInfo(feed: Feed, title: string, description: string): Feed {
    feed.(title := if title != "" then title else feed.title,
          description := if description != "" then description else feed.description)
  }

  // ---------------------------------------------------------------------
  // _cmd_add

  /** The subscription created by `add`: the given cron expression, the
      newest publication time of the first fetch, and the identities of its
      first `capacity` entries, in fetch order. */
  function InitialSubscription(cron: string, items: seq<RssItem>, capacity: nat): (s: Subscription)
    ensures s.cronExpr == cron
    ensures items == [] ==> s.lastUpdate == 0
    ensures items != [] ==> exists i :: 0 <= i < |items| && s.lastUpdate == items[i].publishedTs
    ensures forall i :: 0 <= i < |items| ==> s.lastUpdate >= items[i].publishedTs
    ensures |s.recentIds| == if |items| <= capacity then |items| else capacity
    ensures forall i :: 0 <= i < |s.recentIds| ==> s.recentIds[i] == Uid(items[i])
  {
    var ids := Prefix(Uids(items), capacity);
    assert forall i :: 0 <= i < |ids| ==> ids[i] == Uid(items[i]) by {
      forall i | 0 <= i < |ids| ensures ids[i] == Uid(items[i]) {
        assert ids[i] == Uids(items)[i];
      }
    }
    Subscription(cron, LatestTs(items), ids)
  }

  /** Unlike the checkpoint update, the first fetch's identities are not
      de-duplicated: two entries with the same link are both remembered. */
  lemma InitialIdsKeepDuplicates(cron: string, a: RssItem, b: RssItem)
    requires Strip(a.link) != "" && Strip(a.link) == Strip(b.link)
    ensures InitialSubscription(cron, [a, b], 2).recentIds == [Strip(a.link), Strip(a.link)]
  {
    UidByLink(a, b);
    var s := InitialSubscription(cron, [a, b], 2);
    assert |s.recentIds| == 2;
    assert s.recentIds[0] == Uid(a) && s.recentIds[1] == Uid(b);
  }

  /** The store after `channel` subscribes to `url`: the feed is created
      from the fetched information when new, its non-empty fetched title
      and description are kept, and the channel's subscription is set. */
  function Subscribe(feeds: Store, url: string, channel: string, cron: string, fetched: Fetched, capacity: nat): (r: Store)
    requires StoreValid(feeds)
    ensures StoreValid(r)
    ensures Subscribes(r, url, channel)
    ensures SubscriptionAt(r, url, channel) == InitialSubscription(cron, fetched.items, capacity)
    ensures SameElsewhere(r, feeds, url, channel)
    ensures r.keys == if url in feeds.entries then feeds.keys else feeds.keys + [url]
    ensures fetched.title != "" || url !in feeds.entries ==> r.entries[url].title == fetched.title
    ensures fetched.title == "" && url in feeds.entries ==> r.entries[url].title == feeds.entries[url].title
    ensures fetched.description != "" || url !in feeds.entries ==> r.entries[url].description == fetched.description
    ensures fetched.description == "" && url in feeds.entries ==> r.entries[url].description == feeds.entries[url].description
    ensures forall u :: u != url ==> (u in r.entries <==> u in feeds.entries)
    ensures forall u :: u != url && u in feeds.entries ==> u in r.entries && r.entries[u] == feeds.entries[u]
  {
    var feed := if url in feeds.entries then feeds.entries[url] else Feed(fetched.title, fetched.description, Empty());
    var updated := WithInfo(feed, fetched.title, fetched.description);
    var subs := updated.subscribers.Put(channel, InitialSubscription(cron, fetched.items, capacity));
    PutFeedElsewhere(feeds, url, updated.(subscribers := subs), channel);
    feeds.Put(url, updated.(subscribers := subs))
  }

  // ---------------------------------------------------------------------
  // _cmd_remove

  /** The store after `channel` leaves the feed at `url`; a feed left with
      no subscriber is deleted. */
  function Unsubscribe(feeds: Store, url: string, channel: string): (r: Store)
    requires StoreValid(feeds) && url in feeds.entries
    ensures StoreValid(r)
    ensures !Subscribes(r, url, channel)
    ensures SameElsewhere(r, feeds, url, channel)
    ensures url !in r.entries <==> feeds.entries[url].subscribers.entries.Keys <= {channel}
    ensures url in r.entries ==> r.entries[url].title == feeds.entries[url].title
                                 && r.entries[url].description == feeds.entries[url].description
    ensures forall u :: u != url ==> (u in r.entries <==> u in feeds.entries)
    ensures forall u :: u != url && u in r.entries ==> r.entries[u] == feeds.entries[u]
  {
    var feed := feeds.entries[url];
    var subs := feed.subscribers.Remove(channel);
    if subs.entries == map[] then
      var r := feeds.Remove(url);
      assert feed.subscribers.entries.Keys - {channel} == subs.entries.Keys == {};
      assert SameElsewhere(r, feeds, url, channel) by {
        forall u, c | u != url || c != channel
          ensures (Subscribes(r, u, c) <==> Subscribes(feeds, u, c))
          ensures Subscribes(r, u, c) ==> SubscriptionAt(r, u, c) == SubscriptionAt(feeds, u, c)
        {
          if u == url { assert c !in subs.entries; }
        }
      }
      r
    else
      assert !(feed.subscribers.entries.Keys <= {channel}) by {
        var c :| c in subs.entries;
      }
      PutFeedElsewhere(feeds, url, feed.(subscribers := subs), channel);
      feeds.Put(url, feed.(subscribers := subs))
  }

  // ---------------------------------------------------------------------
  // _cmd_change

  /** The store after the cron expression of one subscription is replaced;
      nothing else changes. */
  function SetCron(feeds: Store, url: string, channel: string, cron: string): (r: Store)
    requires StoreValid(feeds) && Subscribes(feeds, url, channel)
    ensures StoreValid(r)
    ensures r.keys == feeds.keys && r.entries.Keys == feeds.entries.Keys
    ensures Subscribes(r, url, channel)
    ensures SubscriptionAt(r, url, channel) == SubscriptionAt(feeds, url, channel).(cronExpr := cron)
    ensures SameElsewhere(r, feeds, url, channel)
    ensures forall u :: u in r.entries ==>
      r.entries[u].title == feeds.entries[u].title && r.entries[u].description == feeds.entries[u].description
    ensures forall u :: u != url && u in feeds.entries ==> r.entries[u] == feeds.entries[u]
  {
    var feed := feeds.entries[url];
    var sub := feed.subscribers.entries[channel];
    PutFeedElsewhere(feeds, url, feed.(subscribers := feed.subscribers.Put(channel, sub.(cronExpr := cron))), channel);
    feeds.Put(url, feed.(subscribers := feed.subscribers.Put(channel, sub.(cronExpr := cron))))
  }

  // ---------------------------------------------------------------------
  // _scheduled_poll

  function Reversed<T>(s: seq<T>): (r: seq<T>)
    ensures |r| == |s| && forall i :: 0 <= i < |s| ==> r[i] == s[|s| - 1 - i]
  {
    if s == [] then [] else Reversed(s[1..]) + [s[0]]
  }

  /** One scheduled poll of `(url, channel)`: the new store and the entries
      pushed, in push order. A missing subscription or a failed fetch
      changes nothing. Otherwise the fetched title and description are
      kept when not empty, the new entries are pushed newest-last-first
      (in reverse of fetch order), and the checkpoint advances over them. */
  function Poll(feeds: Store, url: string, channel: string, fetched: Result<Fetched>, capacity: nat): (r: (Store, seq<RssItem>))
    requires StoreValid(feeds)
    ensures StoreValid(r.0)
    ensures !Subscribes(feeds, url, channel) || fetched.Err? ==> r == (feeds, [])
    ensures Subscribes(feeds, url, channel) && fetched.Ok? ==>
      var sub := SubscriptionAt(feeds, url, channel);
      var found := NewItems(fetched.value.items, sub);
      && r.0.keys == feeds.keys
      && Subscribes(r.0, url, channel)
      && r.1 == Reversed(found)
      && SubscriptionAt(r.0, url, channel) == (if found == [] then sub else Checkpointed(sub, found, capacity))
      && r.0.entries[url].title == (if fetched.value.title != "" then fetched.value.title else feeds.entries[url].title)
      && r.0.entries[url].description
         == (if fetched.value.description != "" then fetched.value.description else feeds.entries[url].description)
    ensures SameElsewhere(r.0, feeds, url, channel)
    ensures r.0.entries.Keys == feeds.entries.Keys
    ensures forall u :: u != url && u in feeds.entries ==> r.0.entries[u] == feeds.entries[u]
  {
    if !Subscribes(feeds, url, channel) || fetched.Err? then (feeds, [])
    else
      var feed := WithInfo(feeds.entries[url], fetched.value.title, fetched.value.description);
      var sub := feed.subscribers.entries[channel];
      var found := NewItems(fetched.value.items, sub);
      var next := if found == [] then feed
                  else feed.(subscribers := feed.subscribers.Put(channel, Checkpointed(sub, found, capacity)));
      PutFeedElsewhere(feeds, url, next, channel);
      (feeds.Put(url, next), if found == [] then [] else Reversed(found))
  }

  /** The three outcomes of a poll, one per step of the scheduled poll. */
  lemma PollCases(feeds: Store, url: string, channel: string, fetched: Result<Fetched>, capacity: nat)
    requires StoreValid(feeds)
    ensures !Subscribes(feeds, url, channel) || fetched.Err? ==> Poll(feeds, url, channel, fetched, capacity) == (feeds, [])
    ensures Subscribes(feeds, url, channel) && fetched.Ok? ==>
      var feed := WithInfo(feeds.entries[url], fetched.value.title, fetched.value.description);
      var sub := feed.subscribers.entries[channel];
      var found := NewItems(fetched.value.items, sub);
      Poll(feeds, url, channel, fetched, capacity)
      == if found == [] then (feeds.Put(url, feed), [])
         else (feeds.Put(url, feed.(subscribers := feed.subscribers.Put(channel, Checkpointed(sub, found, capacity)))), Reversed(found))
  {
  }

  /** Everything a poll pushes is new to the subscription, and a poll with
      nothing new leaves the subscription as it was. */
  lemma PollPushesOnlyNew(feeds: Store, url: string, channel: string, fetched: Fetched, capacity: nat, x: RssItem)
    requires StoreValid(feeds) && Subscribes(feeds, url, channel)
    ensures var sub := SubscriptionAt(feeds, url, channel);
      (x in Poll(feeds, url, channel, Ok(fetched), capacity).1)
      <==> x in fetched.items && Uid(x) !in sub.recentIds && (x.publishedTs == 0 || x.publishedTs >= sub.lastUpdate)
  {
    var sub := SubscriptionAt(feeds, url, channel);
    var found := NewItems(fetched.items, sub);
    var pushed := Poll(feeds, url, channel, Ok(fetched), capacity).1;
    assert pushed == Reversed(found);
    NewItemsMembers(fetched.items, sub, x);
    ReversedMembers(found, x);
  }

  lemma ReversedMembers<T>(s: seq<T>, x: T)
    ensures x in Reversed(s) <==> x in s
  {
    var r := Reversed(s);
    if x in s {
      var k :| 0 <= k < |s| && s[k] == x;
      assert r[|s| - 1 - k] == x;
    }
  }
}
