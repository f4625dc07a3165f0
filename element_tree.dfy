/** An abstract XML element tree, standing for what the XML parser hands
    the feed reader: every element has a tag, attributes, the text before its
    first child, the tail text after its own end tag, and its children in
    document order. */
module ElementTree {

  /** A tag is a name, possibly written `{namespace}local`; comments and
      processing instructions carry a tag that is not a string. */
  datatype Tag = Name(name: string) | NonStringTag

  datatype Element = Element(
    tag: Tag,
    attrib: map<string, string>,
    text: string,
    tail: string,
    children: seq<Element>)

  /** The part of `s` after its last `}`; all of `s` when it has none. */
  function AfterLastBrace(s: string): (r: string)
    ensures |r| <= |s| && r == s[|s| - |r|..]
    ensures '}' !in r
    ensures |r| < |s| ==> s[|s| - |r| - 1] == '}'
  {
    if s == [] then []
    else if s[|s| - 1] == '}' then []
    else AfterLastBrace(s[..|s| - 1]) + [s[|s| - 1]]
  }

  /** The namespace-free name of a tag: the longest end of the tag without
      a `}` (the whole tag when it holds none); `""` for a non-string tag. */
  function LocalName(tag: Tag): (r: string)
    ensures tag.NonStringTag? ==> r == ""
    ensures '}' !in r
    ensures tag.Name? ==> |r| <= |tag.name| && r == tag.name[|tag.name| - |r|..]
    ensures tag.Name? && |r| < |tag.name| ==> tag.name[|tag.name| - |r| - 1] == '}'
  {
    match tag
    case NonStringTag => ""
    case Name(s) => AfterLastBrace(s)
  }

  /** Text without `}` at the end of a tag is kept whole. */
  lemma {:induction false} AfterLastBraceAppend(p: string, q: string)
    requires '}' !in q
    ensures AfterLastBrace(p + q) == AfterLastBrace(p) + q
    decreases |q|
  {
    if q == [] {
      assert p + q == p;
    } else {
      var q', last := q[..|q| - 1], q[|q| - 1];
      var s := p + q;
      assert last in q;
      assert s[|s| - 1] == last;
      assert s[..|s| - 1] == p + q';
      calc {
        AfterLastBrace(s);
        AfterLastBrace(p + q') + [last];
        { AfterLastBraceAppend(p, q'); }
        AfterLastBrace(p) + q' + [last];
        { assert q' + [last] == q; }
        AfterLastBrace(p) + q;
      }
    }
  }

  /** A tag without `}` is its own local name. */
  lemma LocalNamePlain(s: string)
    requires '}' !in s
    ensures LocalName(Name(s)) == s
  {
    AfterLastBraceAppend([], s);
    assert [] + s == s;
  }

  /** `{ns}local` has local name `local` whatever the namespace. */
  lemma LocalNameNamespaced(ns: string, local: string)
    requires '}' !in local
    ensures LocalName(Name("{" + ns + "}" + local)) == local
  {
    AfterLastBraceAppend("{" + ns + "}", local);
  }

  /** `iter()`: the element itself, then each child's subtree in document
      order (pre-order). */
  function PreOrder(e: Element): (r: seq<Element>)
    ensures |r| >= 1 && r[0] == e
    decreases e, 1
  {
    [e] + ChildrenPreOrder(e, 0)
  }

  /** The pre-order walks of the children of `e` from the `i`-th on. */
  function ChildrenPreOrder(e: Element, i: nat): seq<Element>
    requires i <= |e.children|
    decreases e, 0, |e.children| - i
  {
    if i == |e.children| then [] else PreOrder(e.children[i]) + ChildrenPreOrder(e, i + 1)
  }

  /** The walk of an element holds the whole walk of each of its children,
      so entries nested at any depth are reached. */
  lemma {:induction false} PreOrderHoldsChild(e: Element, i: nat, x: Element)
    requires i < |e.children|
    requires x in PreOrder(e.children[i])
    ensures x in PreOrder(e)
  {
    ChildrenHold(e, 0, i, x);
  }

  lemma {:induction false} ChildrenHold(e: Element, j: nat, i: nat, x: Element)
    requires j <= i < |e.children|
    requires x in PreOrder(e.children[i])
    ensures x in ChildrenPreOrder(e, j)
    decreases i - j
  {
    if j < i {
      ChildrenHold(e, j + 1, i, x);
    }
  }

  /** `itertext()` joined: the element's text, then for each child its own
      text and its tail. A non-string tag contributes no text of its own. */
  function IterText(e: Element): string
    decreases e, 1
  {
    if e.tag.NonStringTag? then "" else e.text + ChildrenText(e, 0)
  }

  function ChildrenText(e: Element, i: nat): string
    requires i <= |e.children|
    decreases e, 0, |e.children| - i
  {
    if i == |e.children| then "" else IterText(e.children[i]) + e.children[i].tail + ChildrenText(e, i + 1)
  }

  /** `elem.attrib.get(name) or ""` */
  function Attr(e: Element, name: string): string {
    if name in e.attrib then e.attrib[name] else ""
  }
}
