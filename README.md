# Simple RSS subscription plugin: a verified model

This project models the core of `astrbot_plugin_simple_rss`, a chat-bot
plugin that lets a chat channel subscribe to RSS and Atom feeds and pushes
new entries to it on a cron schedule. The model covers:

- **Entry identity** (`Rss`). A feed entry's deduplication key is its trimmed
  link. Without a link, it is the title, publication text and summary
  prefix joined by `|`.
- **New-entry detection and the checkpoint** (`Checkpoint`).
  - A fetched batch is filtered against the subscription's window of
    recently pushed identities and its last-update time.
  - After a push, the time advances and the pushed identities are put in
    front of the window. The window is then de-duplicated and cut to the
    capacity.
- **The subscription store** (`DataHandling`, `OrderedMaps`).
  - It is an insertion-ordered map `url -> feed`, and each feed holds an
    ordered map `channel -> subscription`.
  - The query lists one channel's subscriptions.
  - A legacy data layout is migrated into the current one.
- **The commands and the poll** (`StoreOps`, `Plugin`).
  - `add`, `remove` and `change` act on the store.
  - The scheduled poll detects new entries, pushes them and advances the
    checkpoint.
  - Each is specified as a function from the old store to the new one, then
    implemented by a method of the plugin class that updates its store and
    its scheduler in place.
- **The scheduler's jobs** (`Scheduling`). A running scheduler holds exactly
  one job per subscription whose effective cron expression validates.
- **Cron expressions** (`Cron`): splitting into 5 or 6 named fields, the
  day-of-week aliases, and validation.
- **Feed parsing over an element tree** (`ElementTree`, `ChildSearch`,
  `RssClient`, `HtmlText`, `Urls`):
  - local names of namespaced tags;
  - the pre-order entry walk with a limit;
  - child-text and link selection;
  - feed title and description;
  - the HTML-to-text rewrite chain;
  - the canonical feed URL.
- **Python built-ins the code leans on** (`PyText`): `str.strip()`,
  `split(" ")`/`join`, slicing and `int(str)`.

Python dictionaries are ordered maps. An assignment keeps an existing key's
position, and `pop` keeps the order of the rest. The exceptions the model
covers are `Err` values of `Result`; those raised inside library calls
that enter as total parameters are not (see "Left out"). Some calls go to libraries this model does not open;
they enter as parameters:

| library call | parameter |
|---|---|
| `html.unescape` | `Library.unescape` |
| `urljoin` | `Library.urlJoin` |
| the date parsers | `Library.parseDate` |
| the cron trigger's field check | `TriggerCheck` |
| `repr` of JSON containers | `repr` |
| the network fetch | a `Fetched` result |

## Model

| member | source | states |
|---|---|---|
| Rss.Uid | rss.py:12-17 | The identity is never empty. It is the trimmed link whenever that is not blank. |
| Rss.UidByLink | rss.py:14-16 | Two entries with the same non-blank trimmed link have the same identity, whatever their other fields. |
| Rss.UidFallback | rss.py:17 | Without a link, the identity is the title, publication text and `summary[:48]` joined by vertical bars. The two bars sit right after the title and after the publication text. |
| Rss.UidSummaryPrefix | rss.py:17 | Without a link, summaries that agree on their first 48 characters give the same identity. |
| Cron.NormalizeDayOfWeek | cron_utils.py:6-12 | The result is trimmed. It is never one of the aliases `0-7`, `1-7` or `7`. |
| Cron.DayOfWeekWholeWeek | cron_utils.py:7-9 | A trimmed `0-7` or `1-7` becomes `*`. |
| Cron.DayOfWeekSunday | cron_utils.py:10-11 | A trimmed `7` becomes `0`. |
| Cron.DayOfWeekOther | cron_utils.py:12 | Any other value is only trimmed. |
| Cron.DayOfWeekIdempotent | cron_utils.py:6-12 | Normalising twice is normalising once. |
| Cron.NonBlank | cron_utils.py:16 | The kept tokens are never whitespace-only, and there are no more of them than pieces. |
| Cron.NonBlankAppend | cron_utils.py:16 | Dropping blank pieces distributes over concatenation. |
| Cron.ParseCronExpr | cron_utils.py:15-34 | Parsing succeeds exactly for 5 or 6 tokens; any other count fails with the field-count error. The 6-field form puts the seconds first. Each field is its token verbatim, except the day of the week, which is normalised. |
| Cron.RepeatedSpace | cron_utils.py:16 | A doubled space separates tokens like a single one, so runs of spaces change neither the field count nor the fields. |
| Cron.CronTokensOfJoin | cron_utils.py:16 | Tokens that hold no space and are not blank are recovered from their space-joined form. |
| Cron.ParseFiveFields | cron_utils.py:17-24 | Five fields give minute, hour, day, month and the normalised day of week, with no seconds. |
| Cron.ParseSixFields | cron_utils.py:25-33 | With six fields, the first is the seconds and the rest shift by one. |
| Cron.ValidateCronExpr | cron_utils.py:37-43 | Valid exactly when the parse succeeds and the trigger accepts the fields. A valid result has an empty message. A bad field count gives the field-count message. |
| Cron.WrongFieldCountInvalid | cron_utils.py:34-43 | A wrong field count is `(False, message)` whatever the trigger would accept. |
| Commands.ToInt | main.py:90-97 | The result is never below the minimum. It is the parsed value when that parses and reaches the minimum, and the minimum when the parsed value is below it. When parsing raises it is the default, or the minimum when the default is below it. |
| Commands.ToIntOfString | main.py:87-97 | A setting written as a decimal string reads back as that integer. An unset one gives the default. |
| Commands.ParseIndex | main.py:532-537 | Some exactly when `int()` succeeds with a non-negative value, and then that value. |
| Commands.ParsePositiveInt | main.py:539-544 | Some exactly when `int()` succeeds with a positive value, and then that value. |
| Commands.ParseIndexDecimal | main.py:532-537 | A listed index reads back as itself. A negative one is refused. |
| Commands.ParsePositiveIntDecimal | main.py:539-544 | A positive count reads back as itself. Zero is refused. |
| Commands.CommandCron | main.py:203-205 | With no cron arguments the result is the default. Otherwise it is the cron arguments joined by single spaces and trimmed, or the default when that is blank. |
| Commands.CommandCronFields | main.py:203-205 | Several whitespace-free cron arguments become their space-joined form, and the cron tokens of that are the arguments again, one field each. |
| Commands.CommandCronSingle | main.py:203-205 | A single cron argument is used trimmed, and the default replaces a blank one. |
| Commands.JobIdInjective | main.py:528-530 | Equal job ids mean the same `(url, channel)`, for URLs without a vertical bar. |
| Commands.JobIdCollision | main.py:528-530 | With a vertical bar in the URL, two subscriptions can share a job id. |
| PyText.Strip | cron_utils.py:7 | `strip()`: the result neither starts nor ends with whitespace. It is a contiguous stretch of the input, everything cut off is whitespace, and it is empty exactly for all-whitespace input. |
| PyText.StripIdempotent | cron_utils.py:7 | Stripping twice is stripping once. |
| PyText.JoinSplitSpace | cron_utils.py:16 | Joining the pieces of `split(" ")` with spaces gives back the string. |
| PyText.SplitAtSpace | cron_utils.py:16 | A space separates the pieces of its two sides. |
| PyText.Prefix | rss.py:17 | `s[:n]` is the first `min(n, len)` elements. |
| PyText.ParseInt | main.py:534 | A successful `int()` read a single-underscore-separated group of decimal digits after the trimmed sign. |
| PyText.ParseDecimalString | main.py:534 | `int(str(n)) == n` for natural `n`. |
| PyText.ParseNegativeDecimalString | main.py:534 | `int("-" + str(n)) == -n`. |
| OrderedMaps.OMap.Put | main.py:241-245 | Dict assignment keeps the key order well formed. An existing key keeps its position and a new key is appended. |
| OrderedMaps.OMap.Remove | main.py:289 | `pop` removes the key and keeps the order of the others. |
| OrderedMaps.OMap.Items | data_handler.py:72 | `items()` lists every entry once, in key order. |
| ElementTree.LocalName | rss_client.py:152-157 | The result holds no `}`. It is the end of the tag right after a `}`, or the whole tag. A non-string tag gives `""`. |
| ElementTree.AfterLastBraceAppend | rss_client.py:155-156 | Text without `}` at the end of a tag stays in the local name. |
| ElementTree.LocalNamePlain | rss_client.py:157 | A tag without `}` is its own local name. |
| ElementTree.LocalNameNamespaced | rss_client.py:155-156 | `{ns}local` has local name `local`, whatever the namespace. |
| ElementTree.PreOrder | rss_client.py:82 | `iter()` starts with the element itself. |
| ElementTree.PreOrderHoldsChild | rss_client.py:82 | The walk of an element contains every element of each child's walk, at any depth. |
| ChildSearch.FirstByBlank | rss_client.py:138-144 | When every hit has a non-empty value, the search returns `""` exactly when nothing is a hit. |
| ChildSearch.FirstByAt | rss_client.py:138-144 | A non-empty result is the value of a hit with no hit before it. |
| ChildSearch.FirstByPair | rss_client.py:138-144 | Over two children, the first hit in document order wins. |
| ChildSearch.FirstByStripped | rss_client.py:141 | When every value is trimmed, the result is trimmed. |
| ChildSearch.LinkByAt | rss_client.py:118-136 | The first child that ends the search decides the result: its primary href, else its text. |
| ChildSearch.LinkByWithout | rss_client.py:129-136 | With no child ending the search, the result is the fallback found before, else the first href of any relation. |
| ChildSearch.LinkByStripped | rss_client.py:124-134 | When every href and text read is trimmed, so is the result. |
| RssClient.ParseDatetime | rss_client.py:169-190 | Blank text gives 0 without consulting the date parser. Otherwise the result is the parser's value for the trimmed text. |
| RssClient.FirstTextIsFirstHit | rss_client.py:138-144 | The child text is `""` exactly when no child has an accepted name and non-blank text. Otherwise it is the text of the first such child in document order, so the order of the children decides, not the set of names. |
| RssClient.DirectChildText | rss_client.py:138-144 | The loop with its early return computes the first-hit text. |
| RssClient.SummaryFieldByDocumentOrder | rss_client.py:104 | Of two summary-type children, a non-blank earlier one is taken, whichever of `description`, `summary` or `content` it is: a `summary` before a `description` wins, and a `description` before a `summary` wins. A blank earlier one gives way to the later. |
| RssClient.FirstNamed | rss_client.py:146-150 | A match is an element of the walk whose local name is accepted. There is none exactly when no element of the walk has an accepted name. |
| RssClient.FirstNode | rss_client.py:146-150 | The pre-order search with early return yields the first element with an accepted name. |
| RssClient.ExtractFeedInfo | rss_client.py:69-78 | Title and description come from the first `channel` anywhere, else from the root's children, where `subtitle` also counts as the description. |
| RssClient.RssFeedInfo | rss_client.py:70-74 | `<rss><channel>…` reads title and description from the channel. |
| RssClient.AtomFeedInfo | rss_client.py:76-78 | A document with no `channel` reads them from the root's children. |
| RssClient.LinkIsFirstDecision | rss_client.py:118-136 | The entry link is decided by the first link child with a primary href (returned) or non-blank text (returned), so a link's text wins over an earlier non-primary href. Only without such a child does the first href of any relation count. |
| RssClient.ExtractItemLink | rss_client.py:118-136 | The loop, carrying the fallback href, computes that link. |
| RssClient.ItemTitle | rss_client.py:99-111 | The title is non-empty and trimmed. It is the first non-blank title child's text, else `无标题`. |
| RssClient.ItemLink | rss_client.py:100-112 | The link is trimmed. A link starting with `http://` or `https://` is kept as found, and no link gives `""`. Any other link is resolved against the feed URL with `urljoin`, then trimmed. |
| RssClient.ParseItemNode | rss_client.py:98-116 | Every entry yields an item. Its title is `ItemTitle` (non-empty and trimmed, the placeholder when untitled), and its link is `ItemLink`. Its summary is the plain-text form of the first non-blank `description`/`summary`/`content` child. Its publication text is the first non-blank date child's trimmed text, and its timestamp is the date parser's reading of that text (0 without one). |
| RssClient.EntryNodesMembers | rss_client.py:81-85 | The collected nodes are exactly the `item`/`entry` elements of the walk. |
| RssClient.CollectEntries | rss_client.py:81-85 | The first loop collects the `item`/`entry` elements of the pre-order walk, in order. |
| RssClient.Kept | rss_client.py:93 | With a positive limit, at most `limit` items are kept, and fewer only when the nodes run out. With no limit every node is kept. |
| RssClient.ParseUpTo | rss_client.py:87-94 | The parsing loop with its `break` returns the first `Kept` parsed nodes, in order. |
| RssClient.ExtractItems | rss_client.py:80-96 | The items are the parsed `item`/`entry` nodes of the pre-order walk (nested ones included), in document order, cut to the limit. |
| RssClient.NestedEntryFound | rss_client.py:82-85 | An entry nested at any depth under any child of the root is among the parsed nodes. |
| HtmlText.BrMatch | rss_client.py:161 | The line-break pattern matches `<`, `b`, `r`, a literal backslash and ends with `>`. |
| HtmlText.TagMatch | rss_client.py:162 | A tag match is `<`, at least one character that is not `>`, then `>`. |
| HtmlText.DropCarriageReturns | rss_client.py:164 | No carriage return is left, and no character is added. |
| HtmlText.CollapseNewlines | rss_client.py:165 | No three newlines are left in a row. |
| HtmlText.CollapseHSpace | rss_client.py:166 | No two spaces or tabs are left in a row. The result is empty exactly when the input is. |
| HtmlText.CollapseHSpaceKeeps | rss_client.py:165-166 | Collapsing blanks brings back neither a triple newline nor a carriage return. |
| HtmlText.StripKeepsShape | rss_client.py:167 | The final strip keeps all three properties. |
| HtmlText.StripHtml | rss_client.py:159-167 | The summary text has no carriage return, no three newlines in a row, no two spaces or tabs in a row, and is trimmed. |
| HtmlText.CollapseNewlinesFixed | rss_client.py:165 | Text without a triple newline is left as it is. |
| HtmlText.CollapseHSpaceFixed | rss_client.py:166 | Text without doubled blanks is left as it is. |
| HtmlText.PlainTextUnchanged | rss_client.py:159-167 | Text already in output form comes out unchanged. |
| HtmlText.PlainBrIsDeleted | rss_client.py:161-162 | An ordinary `<br>` is deleted by the tag rule: `a<br>b` becomes `ab`. |
| HtmlText.BackslashBrIsNewline | rss_client.py:161 | Only `<br\>` becomes a newline. |
| Urls.ParseUrl | rss_client.py:27 | `urlparse` fails exactly on a lone square bracket in the network location, with the IPv6 error. Otherwise the parts hold no tab or line break, no `#` except in the fragment, and no `/` in the network location. |
| Urls.SplitParams | rss_client.py:27 | `;params` is split off the last path segment only. |
| Urls.ParseHttp | rss_client.py:27 | An `http`/`https` URL parses into its scheme, its network location up to the first `/`, `?` or `#`, and its tail. |
| Urls.TailQueryFragment | rss_client.py:27 | The fragment is cut at the first `#`, then the query at the first `?`. |
| Urls.NormalizeUrl | rss_client.py:19-34 | Blank input gives `""`. A non-empty key starts with `http://` or `https://` and holds no `#`, tab or line break. The only error is the IPv6 error. |
| Urls.Canonical | rss_client.py:27-34 | Fails exactly when `urlparse` raises. Otherwise the key is `""` exactly when the scheme is not `http`/`https` or the network location is empty. |
| Urls.EmptyNetlocRefused | rss_client.py:27-29 | An `http`/`https` URL with nothing between `//` and its path, query or fragment (such as `http:///feed`) gets the empty key. |
| Urls.ParamsDropped | rss_client.py:27-31 | `;params` on the last path segment are split off by the parse and are not part of the key. |
| Urls.NormalizeStripped | rss_client.py:20-25 | Input that needs no trimming is keyed by itself when it has an `http(s)://` prefix, else by `https://` + itself. |
| Urls.Compose | rss_client.py:31-34 | The key starts with the scheme and `://` and holds no `#`. |
| Urls.BareHost | rss_client.py:24-34 | A host without scheme, with or without a path, gets `https://` and is otherwise kept. |
| Urls.PhraseBecomesUrl | rss_client.py:24-34 | Spaces are not rejected: `not a url` becomes `https://not a url`. |
| Urls.TrailingSlashMatters | rss_client.py:31 | The path is kept as given, so `host` and `host/` are different keys. |
| Urls.FullUrl | rss_client.py:19-34 | A full URL keeps scheme, host, path and a non-empty query. The fragment is dropped, and so is the `?` of an empty query. |
| DataHandling.PyInt | data_handler.py:55 | `int()` keeps integers, and raises a type error on `None`, lists and objects. |
| DataHandling.IntStringRoundTrip | data_handler.py:55 | `int(str(n)) == n`. |
| DataHandling.SubJsonRoundTrip | data_handler.py:53-57 | A subscription survives being written in the data file's layout and read back. |
| DataHandling.LegacyRecentIds | data_handler.py:51-52 | The migrated window has at most one id: the trimmed `latest_link` when not blank, else none. |
| DataHandling.MigrateSub | data_handler.py:49-57 | Migration raises exactly when `int()` of a given `last_update` fails (a digit string such as `"12"` is accepted). The cron expression defaults to the fallback and `last_update` to 0. |
| DataHandling.MigrateSubs | data_handler.py:48-57 | The migrated subscriber map is well formed. |
| DataHandling.MigrateFeed | data_handler.py:41-58 | Title and description are the `info` strings, defaulting to `""`. The feed fails exactly when a subscriber fails. |
| DataHandling.Migrate | data_handler.py:38-58 | The migrated store is well formed. |
| DataHandling.Normalized | data_handler.py:30-60 | Current data is returned unchanged and a non-object becomes an empty store. The result is always in the current layout. |
| DataHandling.NormalizeData | data_handler.py:30-60 | The method with its loops computes `Normalized`. |
| DataHandling.MigrateEntries | data_handler.py:38-58 | The top-level migration loop computes `Migrate`, stopping at the first error. |
| DataHandling.MigrateFeedEntry | data_handler.py:41-57 | The subscriber loop computes `MigrateFeed`. |
| DataHandling.MigrateSubsError | data_handler.py:48-57 | The first subscriber error is the one that escapes. |
| DataHandling.MigrateError | data_handler.py:38-58 | The first feed error is the one that escapes. |
| DataHandling.MigrateSubsKeeps | data_handler.py:48-50 | Non-object subscribers are dropped. The rest keep their order and their migration. |
| DataHandling.MigrateKeeps | data_handler.py:38-40 | Entries that are not objects with `subscribers` are dropped. The rest keep their order and their migration. |
| DataHandling.LegacyMigration | data_handler.py:34-60 | A legacy store becomes the store of its legacy feeds, in order, each with its object subscribers, in order. |
| DataHandling.ChannelSubs | data_handler.py:66-80 | The query lists no more triples than there are feeds. |
| DataHandling.ChannelSubsAppend | data_handler.py:72-79 | The query keeps feed order: it distributes over a split of the feeds. |
| DataHandling.ChannelSubsMembers | data_handler.py:72-79 | A triple is listed exactly when its feed is among the items and the channel subscribes with that subscription. |
| DataHandling.DataHandler.constructor | data_handler.py:10-12 | The handler holds the loaded store. |
| DataHandling.DataHandler.ListChannelSubscriptions | data_handler.py:66-80 | The loop lists the channel's subscriptions in feed order and changes nothing. |
| DataHandling.ListedSubscriptions | data_handler.py:66-80 | Over a well-formed store, the list holds exactly the channel's subscriptions, each with its current feed and subscription. |
| Checkpoint.RecentIdSet | main.py:461 | The id set is the non-empty ids of the window. |
| Checkpoint.CollectNewItems | main.py:456-471 | The loop computes the new entries in batch order. |
| Checkpoint.NewItemsAppend | main.py:465-470 | The filter keeps batch order: it distributes over a split of the batch. |
| Checkpoint.NewItemsMembers | main.py:456-471 | An entry is kept exactly when it is in the batch, its identity is not in the window, and its time is 0 or not older than the checkpoint. |
| Checkpoint.MaxTs | main.py:474-478 | The result is at least the start and every entry's time, and is one of them. |
| Checkpoint.LatestTs | main.py:222 | The newest time of a batch, 0 for an empty one. |
| Checkpoint.Uids | main.py:481 | The identities of the entries, position by position. |
| Checkpoint.DistinctProps | main.py:480-483 | The merged list holds every non-empty id of its input and nothing else, each once. |
| Checkpoint.DistinctAppend | main.py:480-483 | De-duplicating a concatenation gives the first part's distinct ids, then the second part's ids not seen in the first. |
| Checkpoint.Checkpointed | main.py:473-486 | The new state keeps the cron expression. Its time is the newest of the stored time and the pushed entries' times: never lower than any, and equal to one of them. Its window is the distinct new identities in fetch order, then the old ids not among them in their old order, cut to `capacity`; it holds no duplicates or empty ids. |
| Checkpoint.UpdateSubscriptionCheckpoint | main.py:473-486 | The method computes `Checkpointed`. |
| Checkpoint.NewestTime | main.py:474-478 | The first loop computes `MaxTs`. |
| Checkpoint.MergeIds | main.py:480-483 | The second loop keeps each non-empty id at its first occurrence. |
| Checkpoint.RecentIdsWithinCapacity | main.py:480-486 | Within capacity, the window is the distinct new identities in fetch order, then the old ids not among them, in old order. |
| Checkpoint.NothingNewTwice | main.py:456-486 | When the merged ids fit the capacity, the same batch polled again right after the checkpoint yields nothing new. |
| StoreOps.InitialSubscription | main.py:222-245 | A new subscription has the given cron expression. Its time is the newest publication time of the first fetch: 0 for none, else one of the entries' times and no lower than any. Its window holds exactly the first `min(capacity, entries)` identities, in fetch order. |
| StoreOps.InitialIdsKeepDuplicates | main.py:223 | The initial window is not de-duplicated: two entries with one link are both remembered. |
| StoreOps.Subscribe | main.py:222-245 | The channel subscribes with the initial subscription and every other subscription is unchanged. A new feed is appended. A fetched title or description replaces the stored one only when it is not empty. Every other feed is unchanged. |
| StoreOps.Unsubscribe | main.py:287-292 | Only the chosen channel leaves the chosen feed. The feed is deleted exactly when no other subscriber is left, and every other feed is unchanged. |
| StoreOps.SetCron | main.py:319-320 | Only the chosen subscription's cron expression changes. Feed order, every title and description, and every other feed are unchanged. |
| StoreOps.Reversed | main.py:423 | Push order is the reverse of fetch order. |
| StoreOps.Poll | main.py:392-432 | No subscription or a failed fetch changes nothing and pushes nothing. Otherwise the new entries are pushed in reverse, and the subscription advances to `Checkpointed` only when there are new entries. A non-empty fetched title or description replaces the stored one. Every other subscription and every other feed is unchanged. |
| StoreOps.PollPushesOnlyNew | main.py:419-431 | An entry is pushed exactly when it was fetched, its identity is not in the window, and its time is 0 or not older than the checkpoint. |
| StoreOps.ReversedMembers | main.py:423 | Reversing keeps the same entries. |
| Scheduling.EffectiveCron | main.py:508 | The subscription's cron expression, or the default when empty. |
| Scheduling.TriggerFor | main.py:509-514 | There is a trigger exactly when the expression validates, and the trigger is its parse. |
| Scheduling.CronTriggerMeans | main.py:509-514 | The scheduler's view of an expression agrees with validation and parsing. |
| Scheduling.JobOf | main.py:504-524 | A subscription has a job exactly when its effective expression gets a trigger, and the job carries that trigger. |
| Scheduling.AddJobValidated | main.py:508-524 | Adding one subscription's job replaces the job under its id exactly when its effective expression validates. |
| Scheduling.AllJobsSound | main.py:497-524 | Every job belongs to a subscription, under that subscription's id, with its trigger. |
| Scheduling.AllJobsComplete | main.py:497-524 | Every subscription whose expression gets a trigger has a job under its id. |
| Scheduling.ScheduledJobs | main.py:488-530 | With no vertical bar in any URL, a subscription has a job exactly when its expression gets a trigger, and the job is that subscription's. |
| Scheduling.ScheduledJobsValidate | main.py:488-530 | With no vertical bar in any URL, a subscription has a job exactly when its effective cron expression validates, and the job's trigger is that expression's parse. |
| Scheduling.AllJobsCronOnly | main.py:497-524 | The jobs depend only on the feeds, the subscribers and their cron expressions, in order. |
| Scheduling.PutFeedKeepsJobs | main.py:497-524 | Replacing a feed by one with the same schedule keeps the jobs. |
| Scheduling.PollKeepsJobs | main.py:392-432 | A poll never changes the jobs that should be scheduled, which is why it does not refresh the scheduler. |
| Plugin.ConfigGet | main.py:64-71 | The configured value, or the default when it is unset. |
| Plugin.ReadDefaultCron | main.py:73-85 | The configured expression, trimmed, under the current or the legacy key, when it is not blank and validates. Otherwise the fallback. |
| Plugin.DefaultCronSettings | main.py:73-85 | With neither key set, the default is the fallback. A valid expression under the current key wins over the legacy key. |
| Plugin.AddCommand | main.py:194-254 | Usage error exactly without arguments. A `urlparse` error escapes exactly when it is raised. Each refusal (empty key, invalid cron, already subscribed, failed fetch) happens exactly when its check is the first to fail, and leaves the store unchanged. When every check passes, the reply is `Added` and the store is `Subscribe`'s. |
| Plugin.AddThenListedAndRefused | main.py:211-245 | After a successful add, the subscription is listed for the channel, and the same add is refused without change. |
| Plugin.RemoveCommand | main.py:274-296 | Usage error exactly without one argument. A bad or out-of-range index changes nothing. A success gives the store `Unsubscribe` makes for the listed feed: only that subscription is removed, and its feed is deleted exactly when no other subscriber is left. |
| Plugin.RemoveUnlists | main.py:283-292 | After a remove, the channel's listing is the old one without the removed feed. |
| Plugin.ChangeCommand | main.py:298-324 | Usage error exactly without arguments. A bad index, an invalid cron and an out-of-range index each happen exactly when that check is the first to fail, and change nothing. When every check passes, the reply is `Changed` and the store is `SetCron`'s for the listed subscription. |
| Plugin.ListedSubscribes | main.py:283-287 | Every listed URL is subscribed to by the channel. |
| Plugin.ListedUrl | main.py:211-213 | A URL is in the channel's listing exactly when the channel subscribes to it. |
| Plugin.ListsUrl | main.py:211-213 | The duplicate-check loop finds the URL exactly when some listed subscription has it. |
| Plugin.PushOrder | main.py:423 | The push loop sends the new entries in reverse. |
| Plugin.RssPlugin.constructor | main.py:25-47 | The plugin starts with the loaded store, the default cron expression and the two fetch counts read from the settings (at least 1), and a stopped scheduler with no jobs. |
| Plugin.RssPlugin.Initialize | main.py:49-52 | After start-up the scheduler runs and holds exactly the jobs of the stored subscriptions. |
| Plugin.RssPlugin.Terminate | main.py:60-62 | Shutting down stops the scheduler. |
| Plugin.RssPlugin.RefreshScheduler | main.py:488-526 | A running scheduler ends up with exactly the jobs of the stored subscriptions. A stopped one is untouched. |
| Plugin.RssPlugin.ScheduleFeed | main.py:504-526 | The inner loop adds each subscriber's job in order. |
| Plugin.RssPlugin.Commit | main.py:247-248 | Keeping a new store and rescheduling keeps the scheduler in step. A stopped scheduler keeps its jobs. |
| Plugin.RssPlugin.CmdAdd | main.py:194-254 | Reply and new store are those of `AddCommand`, and the scheduler stays in step. A refusal, or a scheduler that is not running, leaves the jobs as they were. |
| Plugin.RssPlugin.CmdRemove | main.py:274-296 | Reply and new store are those of `RemoveCommand`, and the scheduler stays in step. A refusal, or a scheduler that is not running, leaves the jobs as they were. |
| Plugin.RssPlugin.CmdChange | main.py:298-324 | Reply and new store are those of `ChangeCommand`, and the scheduler stays in step. A refusal, or a scheduler that is not running, leaves the jobs as they were. |
| Plugin.RssPlugin.ScheduledPoll | main.py:392-432 | New store and pushed entries are those of `Poll`. The scheduler stays in step without a refresh. |
| Plugin.RssPlugin.Keep | main.py:431-432 | A store with the same schedule is kept without touching the scheduler. |

## Left out

- The network fetch (`fetch`, `_fetch_url_bytes`) and XML parsing are not modelled. Commands and the poll receive the fetch's outcome as a `Result<Fetched>`. The feed reader works on an abstract element tree.
- The poll's fetch limit (`poll_fetch_count`) is only stored. Its effect on the fetched entries belongs to the fetch, which is a parameter.
- Date parsing (`parsedate_to_datetime`, `fromisoformat`) is a parameter. Only the blank-input case is modelled.
- `html.unescape` and `urljoin` are parameters. Relative links are resolved by the given function.
- RssClient.ItemLink, RssClient.ParseItemNode and RssClient.ExtractItems: `urljoin` at `rss_client.py:102` can raise `ValueError` (for a link such as `//[x`), which aborts the whole fetch. The model's `urlJoin` parameter is total, so these members always succeed and do not capture that error path. A command still sees any failed fetch, since the fetch's outcome enters as a `Result`.
- `urlparse` is modelled for the parts the key uses (Python 3.12 behaviour).
  - The check of bracketed hosts against the IP address grammar is not modelled.
  - The NFKC check of non-ASCII network locations is not modelled.
  - Only the lone-bracket error is modelled.
- The cron trigger's check of field contents is the `TriggerCheck` parameter. Its messages are not modelled.
- Job timing, firing and the scheduler's internals are not modelled. A failing `add_job` only logs, so it is not modelled either. Jobs are a map from job id to `(url, channel, trigger fields)`.
- Commands.JobId: the md5 digest is replaced by its input string. This keeps the id deterministic and injective for URLs without `|`, and `JobIdCollision` shows the limit of that.
- Scheduling.ScheduledJobs and Scheduling.ScheduledJobsValidate are stated for URLs without `|`. With a `|`, two subscriptions can share an id and the later one replaces the earlier.
- JSON file loading and `save_data` are file I/O and are not modelled. The handler starts from an already normalised store.
- The typed store cannot hold ill-typed entries, so it leaves these out:
  - the `isinstance` skip branches of the query, the poll, the refresh and `_collect_new_items`;
  - `int(sub.get("last_update") or 0)` on a non-integer.
- The conversion of current-layout JSON to the typed store is not modelled beyond `SubOf`.
- JSON floats and duplicate keys are not part of the `Json` datatype. `repr` of lists and objects is a parameter.
- PyText.ParseInt: only ASCII decimal digits and the whitespace `strip()` removes are modelled. Python's `int()` also accepts other Unicode decimal digits.
- Exception texts are constants standing for the raised message.
- Reply texts are the `Reply` datatype.
- Command routing and tokenising (`on_event_message`, `shlex`), help text and message formatting are not modelled.
- Display timezones (`_read_display_timezone`, `_format_item_time`) are not modelled.
- `_cmd_ls` and `_cmd_get` only read the store, apart from `_cmd_get`'s title refresh, and are not modelled.
- Plugin.RssPlugin.ScheduledPoll: sending a message is not modelled. A failed send only logs, and the checkpoint advances either way, as the model does.
- Plugin.RssPlugin.constructor: as written, the plugin's constructor raises `TypeError` at `main.py:46`, because it passes `desc_max_length` to `RSSClient`, whose constructor takes only `user_agent` (`rss_client.py:16`). The model is of the plugin without that argument, so its constructor succeeds. The `desc_max_length` setting is not modelled, and no truncation is implemented.
- The display timezone setting is not modelled.
- Concurrency across `await` points is not modelled. Commands and polls are atomic steps.
- Aliasing between the dictionaries the plugin holds and the ones it mutates is not modelled. The store is a value that each operation replaces.
