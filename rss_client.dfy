/** Reading a parsed feed document: the feed's title and description, and
    its entries (`item` in RSS, `entry` in Atom) in document order. The
    searches over children and over the whole tree are loops with early
    exits, each proved against a recursive specification function; the
    parsing of one entry is a function over those specifications. */
module RssClient {
  import opened PyText
  import opened ElementTree
  import opened HtmlText
  import opened Urls
  import opened Rss
  import opened Wrappers
  import opened ChildSearch

  /** The library calls the parser makes and this model does not open:
      HTML entity decoding, relative-link resolution against the feed URL,
      and date parsing of a non-blank trimmed date text (RFC 2822 first,
      then ISO 8601, 0 when both fail). */
  datatype Library = Library(
    unescape: string -> string,
    urlJoin: (string, string) -> string,
    parseDate: string -> int)

  /** Unix seconds of a date text; blank text is 0 without consulting the
      parser. */
  function ParseDatetime(raw: string, lib: Library): (ts: int)
    ensures Strip(raw) == "" ==> ts == 0
    ensures Strip(raw) != "" ==> ts == lib.parseDate(Strip(raw))
  {
    var value := Strip(raw);
    if value == "" then 0 else lib.parseDate(value)
  }

  // ---------------------------------------------------------------------
  // _direct_child_text

  /** The trimmed text of all of a child's text nodes. */
  function ChildText(c: Element): string {
    Strip(IterText(c))
  }

  /** A child that `_direct_child_text` stops at: accepted name, non-blank
      text. */
  predicate Hit(c: Element, names: set<string>) {
    LocalName(c.tag) in names && ChildText(c) != ""
  }

  function HitOf(names: set<string>): Element -> bool {
    c => Hit(c, names)
  }

  /** The text of the first child, in document order, that is a hit; `""`
      when there is none. */
  function FirstText(children: seq<Element>, names: set<string>): string {
    FirstBy(children, HitOf(names), ChildText)
  }

  /** `FirstText` is blank exactly when no child is a hit, and otherwise is
      the text of the first hit: the order of the children decides, not the
      order of the accepted names. */
  lemma FirstTextIsFirstHit(children: seq<Element>, names: set<string>)
    ensures FirstText(children, names) == "" <==> forall i :: 0 <= i < |children| ==> !Hit(children[i], names)
    ensures FirstText(children, names) != "" ==>
      exists i :: 0 <= i < |children| && Hit(children[i], names)
        && FirstText(children, names) == ChildText(children[i])
        && forall j :: 0 <= j < i ==> !Hit(children[j], names)
  {
    FirstByBlank(children, HitOf(names), ChildText);
    if FirstText(children, names) != "" {
      var k := FirstByAt(children, HitOf(names), ChildText);
    }
  }

  /** `_direct_child_text(node, names)` */
  method DirectChildText(node: Element, names: set<string>) returns (text: string)
    ensures text == FirstText(node.children, names)
  {
    var i := 0;
    while i < |node.children|
      invariant 0 <= i <= |node.children|
      invariant FirstText(node.children, names) == FirstText(node.children[i..], names)
    {
      var child := node.children[i];
      FirstByStep(node.children, i, HitOf(names), ChildText);
      if LocalName(child.tag) in names {
        var t := Strip(IterText(child));
        if t != "" {
          return t;
        }
      }
      i := i + 1;
    }
    return "";
  }

  /** Of two summary-type children, the one earlier in the document wins
      when it is non-blank, whichever of `description`, `summary` and
      `content` it is; a blank earlier one gives way to the later. */
  lemma SummaryFieldByDocumentOrder(first: Element, second: Element)
    requires LocalName(first.tag) in SummaryNames && ChildText(first) != ""
    ensures FirstText([first, second], SummaryNames) == ChildText(first)
    ensures Hit(second, SummaryNames) ==> FirstText([second, first], SummaryNames) == ChildText(second)
    ensures !Hit(second, SummaryNames) ==> FirstText([second, first], SummaryNames) == ChildText(first)
  {
    FirstByPair(first, second, HitOf(SummaryNames), ChildText);
    FirstByPair(second, first, HitOf(SummaryNames), ChildText);
  }

  // ---------------------------------------------------------------------
  // _first_node

  /** The first element of `s` whose local name is in `names`. */
  function FirstNamed(s: seq<Element>, names: set<string>): (r: Option<Element>)
    ensures r.Some? ==> r.value in s && LocalName(r.value.tag) in names
    ensures r.None? <==> forall i :: 0 <= i < |s| ==> LocalName(s[i].tag) !in names
  {
    if s == [] then None
    else if LocalName(s[0].tag) in names then Some(s[0])
    else
      var r := FirstNamed(s[1..], names);
      assert forall i :: 0 < i < |s| ==> s[i] == s[1..][i - 1];
      r
  }

  /** `_first_node(root, names)`: the first match in a pre-order walk. */
  method FirstNode(root: Element, names: set<string>) returns (r: Option<Element>)
    ensures r == FirstNamed(PreOrder(root), names)
  {
    var all := PreOrder(root);
    var i := 0;
    while i < |all|
      invariant 0 <= i <= |all|
      invariant FirstNamed(all, names) == FirstNamed(all[i..], names)
    {
      assert all[i..][0] == all[i] && all[i..][1..] == all[i + 1..];
      if LocalName(all[i].tag) in names {
        return Some(all[i]);
      }
      i := i + 1;
    }
    return None;
  }

  // ---------------------------------------------------------------------
  // _extract_feed_info

  /** Title and description: from the first `channel` anywhere in the
      document (RSS), else from the root's own children, where an Atom
      `subtitle` also counts as the description. */
  function FeedInfo(root: Element): (string, string) {
    match FirstNamed(PreOrder(root), {"channel"})
    case Some(channel) => (FirstText(channel.children, {"title"}), FirstText(channel.children, {"description"}))
    case None => (FirstText(root.children, {"title"}), FirstText(root.children, {"subtitle", "description"}))
  }

  /** `_extract_feed_info(root)` */
  method ExtractFeedInfo(root: Element) returns (title: string, description: string)
    ensures (title, description) == FeedInfo(root)
  {
    var channel := FirstNode(root, {"channel"});
    if channel.Some? {
      title := DirectChildText(channel.value, {"title"});
      description := DirectChildText(channel.value, {"description"});
      return;
    }
    title := DirectChildText(root, {"title"});
    description := DirectChildText(root, {"subtitle", "description"});
  }

  /** An RSS document `<rss><channel>...</channel></rss>` takes title and
      description from the channel. */
  lemma RssFeedInfo(root: Element, channel: Element)
    requires LocalName(root.tag) != "channel" && LocalName(channel.tag) == "channel"
    requires root.children == [channel]
    ensures FeedInfo(root) == (FirstText(channel.children, {"title"}), FirstText(channel.children, {"description"}))
  {
    var all := PreOrder(root);
    assert all[1] == channel by {
      assert all == [root] + ChildrenPreOrder(root, 0);
      assert ChildrenPreOrder(root, 0) == PreOrder(channel) + ChildrenPreOrder(root, 1);
    }
    assert FirstNamed(all, {"channel"}) == Some(channel) by {
      assert FirstNamed(all, {"channel"}) == FirstNamed(all[1..], {"channel"});
      assert all[1..][0] == channel;
    }
  }

  /** A document with no `channel` anywhere (Atom) takes them from the root's
      children, with `subtitle` or `description` as the description. */
  lemma AtomFeedInfo(root: Element)
    requires forall e :: e in PreOrder(root) ==> LocalName(e.tag) != "channel"
    ensures FeedInfo(root) == (FirstText(root.children, {"title"}), FirstText(root.children, {"subtitle", "description"}))
  {
    var all := PreOrder(root);
    assert forall i :: 0 <= i < |all| ==> all[i] in all;
  }

  // ---------------------------------------------------------------------
  // _extract_item_link

  /** What the link search reads from a child. */
  function LinkChildOf(c: Element): LinkChild {
    LinkChild(LocalName(c.tag) == "link", Strip(Attr(c, "href")), Strip(Attr(c, "rel")), Strip(c.text))
  }

  /** A link child that ends the search: a primary href, or any non-blank
      text. */
  predicate Decisive(c: Element) { Ends(LinkChildOf(c)) }

  /** What a decisive link child yields: its href when primary, else its
      text. */
  function Decision(c: Element): string { Outcome(LinkChildOf(c)) }

  /** The loop of `_extract_item_link` from some child on, with the fallback
      href found so far. */
  function LinkFrom(children: seq<Element>, fallback: string): string {
    LinkBy(children, LinkChildOf, fallback)
  }

  /** The first non-blank href among the link children, `""` if none. */
  function FirstHref(children: seq<Element>): string {
    FirstHrefBy(children, LinkChildOf)
  }

  /** The link of an entry is decided by its first decisive link child --
      its primary href, else its text, so a link's text wins over an earlier
      non-primary href -- and only without one does the first href of any
      relation count. */
  lemma LinkIsFirstDecision(children: seq<Element>, fallback: string)
    ensures forall i :: 0 <= i < |children| && Decisive(children[i]) && (forall j :: 0 <= j < i ==> !Decisive(children[j]))
              ==> LinkFrom(children, fallback) == Decision(children[i])
    ensures (forall i :: 0 <= i < |children| ==> !Decisive(children[i]))
              ==> LinkFrom(children, fallback) == if fallback != "" then fallback else FirstHref(children)
  {
    forall i | 0 <= i < |children| && Decisive(children[i]) && (forall j :: 0 <= j < i ==> !Decisive(children[j]))
      ensures LinkFrom(children, fallback) == Decision(children[i])
    {
      LinkByAt(children, LinkChildOf, fallback, i);
    }
    if forall i :: 0 <= i < |children| ==> !Decisive(children[i]) {
      LinkByWithout(children, LinkChildOf, fallback);
    }
  }

  /** `_extract_item_link(node)` */
  method ExtractItemLink(node: Element) returns (link: string)
    ensures link == LinkFrom(node.children, "")
  {
    var fallbackHref := "";
    var i := 0;
    while i < |node.children|
      invariant 0 <= i <= |node.children|
      invariant LinkFrom(node.children, "") == LinkFrom(node.children[i..], fallbackHref)
    {
      var child := node.children[i];
      LinkByStep(node.children, i, LinkChildOf, fallbackHref);
      if LocalName(child.tag) == "link" {
        var href := Strip(Attr(child, "href"));
        var rel := Strip(Attr(child, "rel"));
        if href != "" && (rel == "" || rel == "alternate") {
          return href;
        }
        if href != "" && fallbackHref == "" {
          fallbackHref := href;
        }
        var text := Strip(child.text);
        if text != "" {
          return text;
        }
      }
      i := i + 1;
    }
    return fallbackHref;
  }

  // ---------------------------------------------------------------------
  // _parse_item_node

  const TitleNames: set<string> := {"title"}
  const SummaryNames: set<string> := {"description", "summary", "content"}
  const DateNames: set<string> := {"pubDate", "published", "updated", "date"}
  const Untitled: string := "无标题"

  /** `(title or "无标题").strip()`: the first non-blank title child's text,
      or the placeholder. */
  function ItemTitle(node: Element): (title: string)
    ensures title != "" && IsStripped(title)
    ensures FirstText(node.children, TitleNames) != "" ==> title == FirstText(node.children, TitleNames)
    ensures FirstText(node.children, TitleNames) == "" ==> title == Untitled
  {
    var t := FirstText(node.children, TitleNames);
    var title := if t != "" then t else Untitled;
    FirstTextIsStripped(node.children, TitleNames);
    UntitledIsStripped();
    StripStripped(title);
    Strip(title)
  }

  /** `(link or "").strip()` after a link without an `http://` or
      `https://` prefix has been resolved against the feed URL. */
  function ItemLink(node: Element, baseUrl: string, lib: Library): (link: string)
    ensures IsStripped(link)
    ensures HasHttpPrefix(LinkFrom(node.children, "")) ==> link == LinkFrom(node.children, "")
    ensures LinkFrom(node.children, "") == "" ==> link == ""
    ensures var found := LinkFrom(node.children, "");
      found != "" && !HasHttpPrefix(found) ==> link == Strip(lib.urlJoin(baseUrl, found))
  {
    var found := LinkFrom(node.children, "");
    var link := if found != "" && !HasHttpPrefix(found) then lib.urlJoin(baseUrl, found) else found;
    LinkIsStripped(node.children, "");
    StripStripped(found);
    Strip(link)
  }

  /** One entry: title (or the placeholder), link made absolute unless it
      already starts with `http://` or `https://`, the summary's plain text,
      the trimmed date text and its timestamp. An entry always yields an
      item. */
  function ParseItemNode(node: Element, baseUrl: string, lib: Library): (item: RssItem)
    ensures item.title != "" && IsStripped(item.title)
    ensures FirstText(node.children, TitleNames) == "" ==> item.title == Untitled
    ensures IsStripped(item.link) && IsStripped(item.published)
    ensures HasHttpPrefix(LinkFrom(node.children, "")) ==> item.link == LinkFrom(node.children, "")
    ensures LinkFrom(node.children, "") == "" ==> item.link == ""
    ensures '\r' !in item.summary && NoTripleNewline(item.summary) && NoDoubleHSpace(item.summary)
    ensures IsStripped(item.summary)
    ensures FirstText(node.children, DateNames) == "" ==> item.publishedTs == 0
    ensures item.title == ItemTitle(node) && item.link == ItemLink(node, baseUrl, lib)
    ensures item.summary == StripHtml(FirstText(node.children, SummaryNames), lib.unescape)
    ensures item.published == FirstText(node.children, DateNames)
    ensures item.publishedTs == ParseDatetime(FirstText(node.children, DateNames), lib)
  {
    var published := FirstText(node.children, DateNames);
    FirstTextIsStripped(node.children, DateNames);
    StripStripped(published);
    RssItem(
      ItemTitle(node),
      ItemLink(node, baseUrl, lib),
      StripHtml(FirstText(node.children, SummaryNames), lib.unescape),
      Strip(published),
      ParseDatetime(published, lib))
  }

  lemma FirstTextIsStripped(children: seq<Element>, names: set<string>)
    ensures IsStripped(FirstText(children, names))
  {
    FirstByStripped(children, HitOf(names), ChildText);
  }

  lemma UntitledIsStripped()
    ensures Untitled != "" && Strip(Untitled) == Untitled
  {
    assert !IsSpace(Untitled[0]) && !IsSpace(Untitled[2]);
    StripStripped(Untitled);
  }

  lemma LinkIsStripped(children: seq<Element>, fallback: string)
    requires IsStripped(fallback)
    ensures IsStripped(LinkFrom(children, fallback))
  {
    LinkByStripped(children, LinkChildOf, fallback);
  }

  // ---------------------------------------------------------------------
  // _extract_items

  predicate IsEntry(e: Element) { LocalName(e.tag) in {"item", "entry"} }

  /** The `item` and `entry` elements of a walk, in walk order. */
  function EntryNodes(s: seq<Element>): (r: seq<Element>)
    ensures |r| <= |s|
  {
    if s == [] then []
    else
      var last := s[|s| - 1];
      EntryNodes(s[..|s| - 1]) + (if IsEntry(last) then [last] else [])
  }

  /** The kept nodes are exactly the `item`/`entry` elements of the walk. */
  lemma {:induction false} EntryNodesMembers(s: seq<Element>, x: Element)
    ensures x in EntryNodes(s) <==> x in s && IsEntry(x)
    decreases |s|
  {
    if s != [] {
      var init := s[..|s| - 1];
      EntryNodesMembers(init, x);
      assert s == init + [s[|s| - 1]];
    }
  }

  lemma EntryNodesStep(s: seq<Element>, i: nat)
    requires i < |s|
    ensures EntryNodes(s[..i + 1]) == EntryNodes(s[..i]) + (if IsEntry(s[i]) then [s[i]] else [])
  {
    assert s[..i + 1][..i] == s[..i];
  }

  /** The per-node parser `_extract_items` applies, as a value. */
  function Parser(baseUrl: string, lib: Library): Element -> RssItem {
    node => ParseItemNode(node, baseUrl, lib)
  }

  /** Every node parsed, in order. */
  function ParseAll(nodes: seq<Element>, parse: Element -> RssItem): (r: seq<RssItem>)
    ensures |r| == |nodes|
    ensures forall i :: 0 <= i < |nodes| ==> r[i] == parse(nodes[i])
  {
    seq(|nodes|, i requires 0 <= i < |nodes| => parse(nodes[i]))
  }

  /** How many of `n` nodes are kept under `limit` (0 or less: no limit). */
  function Kept(n: nat, limit: int): (k: nat)
    ensures k <= n
    ensures limit > 0 ==> k <= limit && (k == n || k == limit)
    ensures limit <= 0 ==> k == n
  {
    if limit > 0 && limit < n then limit else n
  }

  /** The pre-order walk of `_extract_items`: the `item`/`entry` nodes in
      document order. */
  method CollectEntries(root: Element) returns (nodes: seq<Element>)
    ensures nodes == EntryNodes(PreOrder(root))
  {
    var all := PreOrder(root);
    nodes := [];
    var i := 0;
    while i < |all|
      invariant 0 <= i <= |all|
      invariant nodes == EntryNodes(all[..i])
    {
      EntryNodesStep(all, i);
      if IsEntry(all[i]) {
        nodes := nodes + [all[i]];
      }
      i := i + 1;
    }
    assert all[..i] == all;
  }

  /** The parsing loop of `_extract_items`: parse in order, stopping as soon
      as `limit` items (when positive) are held. */
  method ParseUpTo(nodes: seq<Element>, parse: Element -> RssItem, limit: int) returns (items: seq<RssItem>)
    ensures items == ParseAll(nodes, parse)[..Kept(|nodes|, limit)]
  {
    items := [];
    var j := 0;
    while j < |nodes|
      invariant 0 <= j <= |nodes|
      invariant |items| == j
      invariant forall k :: 0 <= k < j ==> items[k] == parse(nodes[k])
      invariant limit > 0 ==> j < limit
    {
      items := items + [parse(nodes[j])];
      j := j + 1;
      if limit > 0 && |items| >= limit {
        break;
      }
    }
  }

  /** `_extract_items(root, base_url, limit)`: every `item`/`entry` of the
      pre-order walk, nested ones included, parsed in document order and cut
      to the limit. */
  method ExtractItems(root: Element, baseUrl: string, limit: int, lib: Library) returns (items: seq<RssItem>)
    ensures var nodes := EntryNodes(PreOrder(root));
      items == ParseAll(nodes, Parser(baseUrl, lib))[..Kept(|nodes|, limit)]
  {
    var nodes := CollectEntries(root);
    items := ParseUpTo(nodes, Parser(baseUrl, lib), limit);
  }

  /** An entry nested inside any child of the root is among the parsed
      nodes. */
  lemma NestedEntryFound(root: Element, i: nat, x: Element)
    requires i < |root.children| && x in PreOrder(root.children[i]) && IsEntry(x)
    ensures x in EntryNodes(PreOrder(root))
  {
    PreOrderHoldsChild(root, i, x);
    EntryNodesMembers(PreOrder(root), x);
  }
}
