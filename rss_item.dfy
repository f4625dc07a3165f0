/** The feed entry record and its deduplication key. */
module Rss {
  import opened PyText

  /** One parsed feed entry. `publishedTs` is Unix seconds, 0 when unknown. */
  datatype RssItem = RssItem(
    title: string,
    link: string,
    summary: string,
    published: string,
    publishedTs: int)

  /** The identity of an entry: its trimmed link when that is not blank,
      otherwise title, publication text and the first 48 characters of the
      summary joined by `|`. */
  function Uid(item: RssItem): (r: string)
    ensures r != ""
    ensures Strip(item.link) != "" ==> r == Strip(item.link)
  {
    var core := Strip(item.link);
    if core != "" then core
    else item.title + "|" + item.published + "|" + Prefix(item.summary, 48)
  }

  /** Two entries with the same non-blank trimmed link share their identity,
      whatever their other fields say. */
  lemma UidByLink(a: RssItem, b: RssItem)
    requires Strip(a.link) != "" && Strip(a.link) == Strip(b.link)
    ensures Uid(a) == Uid(b)
  {
  }

  /** Without a link, the identity is the composite key, which holds at least
      the two separators. */
  lemma UidFallback(item: RssItem)
    requires Strip(item.link) == ""
    ensures Uid(item) == item.title + "|" + item.published + "|" + Prefix(item.summary, 48)
    ensures Uid(item)[|item.title|] == '|'
    ensures Uid(item)[|item.title| + 1 + |item.published|] == '|'
  {
  }

  /** Without a link, only the first 48 characters of the summary count:
      two summaries that agree there give the same identity. */
  lemma UidSummaryPrefix(item: RssItem, longer: string)
    requires Strip(item.link) == ""
    requires |item.summary| >= 48 && |longer| >= 48
    requires longer[..48] == item.summary[..48]
    ensures Uid(item.(summary := longer)) == Uid(item)
  {
  }
}
