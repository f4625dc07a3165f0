/** Deciding which fetched entries are new to a subscription, and advancing
    its checkpoint once they have been pushed: the newest publication time
    seen and a bounded window of recently pushed identities. */
module Checkpoint {
  import opened PyText
  import opened Rss
  import opened DataHandling

  // ---------------------------------------------------------------------
  // _collect_new_items

  /** The identities a subscription remembers: its non-empty recent ids. */
  function RecentIdSet(ids: seq<string>): (r: set<string>)
    ensures forall x :: x in r <==> x in ids && x != ""
  {
    set x | x in ids && x != ""
  }

  /** An entry is new unless it was pushed recently or carries a known
      publication time older than the checkpoint. */
  predicate IsNew(item: RssItem, sub: Subscription) {
    && Uid(item) !in RecentIdSet(sub.recentIds)
    && (item.publishedTs == 0 || item.publishedTs >= sub.lastUpdate)
  }

  /** The new entries of a batch, in batch order. */
  function NewItems(items: seq<RssItem>, sub: Subscription): (r: seq<RssItem>)
    ensures |r| <= |items|
  {
    if items == [] then []
    else
      var last := items[|items| - 1];
      NewItems(items[..|items| - 1], sub) + (if IsNew(last, sub) then [last] else [])
  }

  /** `_collect_new_items(items, sub)` */
  method CollectNewItems(items: seq<RssItem>, sub: Subscription) returns (newItems: seq<RssItem>)
    ensures newItems == NewItems(items, sub)
  {
    var recentIdSet := RecentIdSet(sub.recentIds);
    var lastUpdate := sub.lastUpdate;
    newItems := [];
    var i := 0;
    while i < |items|
      invariant 0 <= i <= |items|
      invariant newItems == NewItems(items[..i], sub)
    {
      var item := items[i];
      NewItemsStep(items, i, sub);
      i := i + 1;
      if Uid(item) in recentIdSet {
        continue;
      }
      if item.publishedTs != 0 && item.publishedTs < lastUpdate {
        continue;
      }
      newItems := newItems + [item];
    }
    assert items[..i] == items;
  }

  lemma NewItemsStep(items: seq<RssItem>, i: nat, sub: Subscription)
    requires i < |items|
    ensures NewItems(items[..i + 1], sub) == NewItems(items[..i], sub) + (if IsNew(items[i], sub) then [items[i]] else [])
  {
    assert items[..i + 1][..i] == items[..i];
  }

  /** The filter keeps the batch order: it distributes over a split of the
      batch. */
  lemma {:induction false} NewItemsAppend(a: seq<RssItem>, b: seq<RssItem>, sub: Subscription)
    ensures NewItems(a + b, sub) == NewItems(a, sub) + NewItems(b, sub)
    decreases |b|
  {
    if b == [] {
      assert a + b == a;
    } else {
      var b0 := b[..|b| - 1];
      assert (a + b)[..|a + b| - 1] == a + b0;
      NewItemsAppend(a, b0, sub);
    }
  }

  lemma {:induction false} NewItemsFilter(items: seq<RssItem>, sub: Subscription, x: RssItem)
    ensures x in NewItems(items, sub) <==> x in items && IsNew(x, sub)
    decreases |items|
  {
    if items != [] {
      var init := items[..|items| - 1];
      var last := items[|items| - 1];
      assert x in items <==> x in init || x == last by {
        assert items == init + [last];
      }
      NewItemsFilter(init, sub, x);
    }
  }

  /** An entry is kept exactly when its identity is not among the recent ids
      and its time is unknown or not older than the checkpoint. */
  lemma NewItemsMembers(items: seq<RssItem>, sub: Subscription, x: RssItem)
    ensures x in NewItems(items, sub)
        <==> x in items && Uid(x) !in sub.recentIds && (x.publishedTs == 0 || x.publishedTs >= sub.lastUpdate)
  {
    NewItemsFilter(items, sub, x);
    assert Uid(x) != "";
  }

  // ---------------------------------------------------------------------
  // _update_subscription_checkpoint

  /** The largest of `current` and the publication times of `items`. */
  function MaxTs(current: int, items: seq<RssItem>): (r: int)
    ensures r >= current
    ensures forall i :: 0 <= i < |items| ==> r >= items[i].publishedTs
    ensures r == current || exists i :: 0 <= i < |items| && r == items[i].publishedTs
  {
    if items == [] then current
    else
      var init := items[..|items| - 1];
      var m := MaxTs(current, init);
      assert forall i :: 0 <= i < |init| ==> items[i] == init[i];
      if items[|items| - 1].publishedTs > m then items[|items| - 1].publishedTs else m
  }

  /** The newest publication time of a batch, 0 for an empty one (the
      `max(..., default=0)` of `_cmd_add`). */
  function LatestTs(items: seq<RssItem>): (r: int)
    ensures items == [] ==> r == 0
    ensures forall i :: 0 <= i < |items| ==> r >= items[i].publishedTs
    ensures items != [] ==> exists i :: 0 <= i < |items| && r == items[i].publishedTs
  {
    if items == [] then 0
    else
      var rest := items[1..];
      var m := MaxTs(items[0].publishedTs, rest);
      assert forall i :: 0 < i < |items| ==> items[i] == rest[i - 1];
      assert m != items[0].publishedTs ==> exists i :: 0 <= i < |rest| && m == rest[i].publishedTs;
      m
  }

  /** The identities of `items`, in order. */
  function Uids(items: seq<RssItem>): (r: seq<string>)
    ensures |r| == |items| && forall i :: 0 <= i < |items| ==> r[i] == Uid(items[i])
  {
    seq(|items|, i requires 0 <= i < |items| => Uid(items[i]))
  }

  predicate NoDuplicates(s: seq<string>) {
    forall i, j :: 0 <= i < j < |s| ==> s[i] != s[j]
  }

  /** The non-empty strings of `s`, each at its first occurrence. */
  function Distinct(s: seq<string>): seq<string> {
    if s == [] then []
    else
      var d := Distinct(s[..|s| - 1]);
      var x := s[|s| - 1];
      if x != "" && x !in d then d + [x] else d
  }

  /** The de-duplicated list holds every non-empty string of `s` and nothing
      else, each once. */
  lemma {:induction false} DistinctProps(s: seq<string>)
    ensures forall x :: x in Distinct(s) <==> x in s && x != ""
    ensures NoDuplicates(Distinct(s))
    decreases |s|
  {
    if s != [] {
      var init := s[..|s| - 1];
      DistinctProps(init);
      assert s == init + [s[|s| - 1]];
    }
  }

  lemma DistinctStep(s: seq<string>, j: nat)
    requires j < |s|
    ensures var d := Distinct(s[..j]);
      Distinct(s[..j + 1]) == d + (if s[j] != "" && s[j] !in d then [s[j]] else [])
  {
    assert s[..j + 1][..j] == s[..j];
  }

  /** The strings of `b` that do not occur in `a`, in order. */
  function Absent(b: seq<string>, a: seq<string>): seq<string> {
    if b == [] then []
    else Absent(b[..|b| - 1], a) + (if b[|b| - 1] in a then [] else [b[|b| - 1]])
  }

  lemma {:induction false} AbsentMembers(b: seq<string>, a: seq<string>, x: string)
    ensures x in Absent(b, a) <==> x in b && x !in a
    decreases |b|
  {
    if b != [] {
      var init := b[..|b| - 1];
      AbsentMembers(init, a, x);
      assert b == init + [b[|b| - 1]];
    }
  }

  /** De-duplicating a concatenation: the distinct strings of the first part,
      then those of the second part not already seen in the first. */
  lemma {:induction false} DistinctAppend(a: seq<string>, b: seq<string>)
    ensures Distinct(a + b) == Distinct(a) + Distinct(Absent(b, a))
    decreases |b|
  {
    if b == [] {
      assert a + b == a;
    } else {
      var b0 := b[..|b| - 1];
      var x := b[|b| - 1];
      assert b == b0 + [x];
      DistinctAppend(a, b0);
      DistinctAppendStep(a, b0, x);
    }
  }

  /** One step of the induction: `x` appended to the second part. */
  lemma DistinctAppendStep(a: seq<string>, b0: seq<string>, x: string)
    requires Distinct(a + b0) == Distinct(a) + Distinct(Absent(b0, a))
    ensures Distinct(a + (b0 + [x])) == Distinct(a) + Distinct(Absent(b0 + [x], a))
  {
    assert a + (b0 + [x]) == (a + b0) + [x];
    if x in a {
      StepInFirstPart(a, b0, x);
    } else {
      StepInSecondPart(a, b0, x);
    }
  }

  lemma StepInFirstPart(a: seq<string>, b0: seq<string>, x: string)
    requires x in a
    ensures Distinct((a + b0) + [x]) == Distinct(a + b0)
    ensures Absent(b0 + [x], a) == Absent(b0, a)
  {
    DistinctSnoc(a + b0, x);
    AbsentSnoc(b0, x, a);
    SeenInFirstPart(a, b0, x);
  }

  lemma StepInSecondPart(a: seq<string>, b0: seq<string>, x: string)
    requires x !in a
    requires Distinct(a + b0) == Distinct(a) + Distinct(Absent(b0, a))
    ensures Distinct((a + b0) + [x]) == Distinct(a) + Distinct(Absent(b0 + [x], a))
  {
    var r0 := Absent(b0, a);
    var ext := if x != "" && x !in Distinct(r0) then [x] else [];
    calc {
      Distinct((a + b0) + [x]);
      { SnocSecondPart(a, b0, x); }
      Distinct(a + b0) + ext;
      (Distinct(a) + Distinct(r0)) + ext;
      { ConcatAssoc(Distinct(a), Distinct(r0), ext); }
      Distinct(a) + (Distinct(r0) + ext);
      { DistinctSnoc(r0, x); }
      Distinct(a) + Distinct(r0 + [x]);
      { AbsentSnoc(b0, x, a); }
      Distinct(a) + Distinct(Absent(b0 + [x], a));
    }
  }

  lemma ConcatAssoc<T>(p: seq<T>, q: seq<T>, e: seq<T>)
    ensures (p + q) + e == p + (q + e)
  {
  }

  lemma SnocSecondPart(a: seq<string>, b0: seq<string>, x: string)
    requires x !in a
    ensures Distinct((a + b0) + [x])
         == Distinct(a + b0) + (if x != "" && x !in Distinct(Absent(b0, a)) then [x] else [])
  {
    DistinctSnoc(a + b0, x);
    SeenInSecondPart(a, b0, x);
  }

  lemma SeenInFirstPart(a: seq<string>, b0: seq<string>, x: string)
    requires x in a
    ensures x == "" || x in Distinct(a + b0)
  {
    DistinctProps(a + b0);
  }

  lemma SeenInSecondPart(a: seq<string>, b0: seq<string>, x: string)
    requires x !in a
    ensures x in Distinct(a + b0) <==> x in Distinct(Absent(b0, a))
  {
    DistinctProps(a + b0);
    DistinctProps(Absent(b0, a));
    AbsentMembers(b0, a, x);
  }

  lemma DistinctSnoc(s: seq<string>, x: string)
    ensures var d := Distinct(s);
      Distinct(s + [x]) == d + (if x != "" && x !in d then [x] else [])
  {
    assert (s + [x])[..|s + [x]| - 1] == s;
  }

  lemma AbsentSnoc(b: seq<string>, x: string, a: seq<string>)
    ensures Absent(b + [x], a) == Absent(b, a) + (if x in a then [] else [x])
  {
    assert (b + [x])[..|b + [x]| - 1] == b;
  }

  /** The new subscription state after pushing `newItems`: the checkpoint
      time advanced to the newest of them, and the recent ids led by the new
      identities, de-duplicated and cut to `capacity`. */
  function Checkpointed(sub: Subscription, newItems: seq<RssItem>, capacity: nat): (r: Subscription)
    ensures r.cronExpr == sub.cronExpr
    ensures r.lastUpdate >= sub.lastUpdate
    ensures forall i :: 0 <= i < |newItems| ==> r.lastUpdate >= newItems[i].publishedTs
    ensures r.lastUpdate == sub.lastUpdate || exists i :: 0 <= i < |newItems| && r.lastUpdate == newItems[i].publishedTs
    ensures r.recentIds == Prefix(Distinct(Uids(newItems)) + Distinct(Absent(sub.recentIds, Uids(newItems))), capacity)
    ensures |r.recentIds| <= capacity
    ensures NoDuplicates(r.recentIds) && "" !in r.recentIds
  {
    var merged := Distinct(Uids(newItems) + sub.recentIds);
    DistinctAppend(Uids(newItems), sub.recentIds);
    var ids := Prefix(merged, capacity);
    DistinctProps(Uids(newItems) + sub.recentIds);
    assert forall x :: x in ids ==> x in merged;
    sub.(lastUpdate := MaxTs(sub.lastUpdate, newItems), recentIds := ids)
  }

  /** `_update_subscription_checkpoint(sub, new_items)`, with the
      subscription's new value returned. */
  method UpdateSubscriptionCheckpoint(sub: Subscription, newItems: seq<RssItem>, capacity: nat) returns (r: Subscription)
    ensures r == Checkpointed(sub, newItems, capacity)
  {
    var nextLast := NewestTime(sub.lastUpdate, newItems);
    var merged := MergeIds(Uids(newItems) + sub.recentIds);
    r := sub.(lastUpdate := nextLast, recentIds := Prefix(merged, capacity));
  }

  /** The first loop of the checkpoint update: the newest publication time
      of the new entries, starting from the stored one. */
  method NewestTime(current: int, newItems: seq<RssItem>) returns (nextLast: int)
    ensures nextLast == MaxTs(current, newItems)
  {
    nextLast := current;
    var i := 0;
    while i < |newItems|
      invariant 0 <= i <= |newItems|
      invariant nextLast == MaxTs(current, newItems[..i])
    {
      assert newItems[..i + 1][..i] == newItems[..i];
      if newItems[i].publishedTs > nextLast {
        nextLast := newItems[i].publishedTs;
      }
      i := i + 1;
    }
    assert newItems[..i] == newItems;
  }

  /** The second loop of the checkpoint update: every non-empty id once, at
      its first occurrence. */
  method MergeIds(all: seq<string>) returns (merged: seq<string>)
    ensures merged == Distinct(all)
  {
    merged := [];
    var j := 0;
    while j < |all|
      invariant 0 <= j <= |all|
      invariant merged == Distinct(all[..j])
    {
      DistinctStep(all, j);
      var uid := all[j];
      if uid != "" && uid !in merged {
        merged := merged + [uid];
      }
      j := j + 1;
    }
    assert all[..j] == all;
  }

  /** Within capacity, the recent ids are the distinct new identities in
      fetch order, then the old ids not among them, in their old order. */
  lemma RecentIdsWithinCapacity(sub: Subscription, newItems: seq<RssItem>, capacity: nat)
    requires |Distinct(Uids(newItems) + sub.recentIds)| <= capacity
    ensures Checkpointed(sub, newItems, capacity).recentIds
         == Distinct(Uids(newItems)) + Distinct(Absent(sub.recentIds, Uids(newItems)))
  {
    DistinctAppend(Uids(newItems), sub.recentIds);
  }

  /** When the merged ids fit the capacity, polling the same batch again
      right after the checkpoint finds nothing new. */
  lemma NothingNewTwice(items: seq<RssItem>, sub: Subscription, capacity: nat)
    requires |Distinct(Uids(NewItems(items, sub)) + sub.recentIds)| <= capacity
    ensures NewItems(items, Checkpointed(sub, NewItems(items, sub), capacity)) == []
  {
    var pushed := NewItems(items, sub);
    var next := Checkpointed(sub, pushed, capacity);
    var all := Uids(pushed) + sub.recentIds;
    assert next.recentIds == Distinct(all);
    DistinctProps(all);
    forall x | x in items
      ensures !(Uid(x) !in next.recentIds && (x.publishedTs == 0 || x.publishedTs >= next.lastUpdate))
    {
      NewItemsMembers(items, sub, x);
      if x in pushed {
        var k :| 0 <= k < |pushed| && pushed[k] == x;
        assert Uids(pushed)[k] == Uid(x);
        assert Uid(x) in all;
      } else if Uid(x) in sub.recentIds {
        assert Uid(x) in all;
      }
    }
    var again := NewItems(items, next);
    if again != [] {
      NewItemsMembers(items, next, again[0]);
    }
  }
}
