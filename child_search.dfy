/** The two searches over an element's children that the feed reader makes,
    stated for children of any type and for any way of reading them. The
    reader instantiates them with its elements; the properties about the
    order of the children are proved here, where nothing about how a child
    is read is visible. */
module ChildSearch {
  import opened PyText

  // ---------------------------------------------------------------------
  // First hit

  /** The value of the first element of `s` that `hit` accepts; `""` when
      there is none. */
  function FirstBy<T>(s: seq<T>, hit: T -> bool, value: T -> string): string {
    if s == [] then ""
    else if hit(s[0]) then value(s[0])
    else FirstBy(s[1..], hit, value)
  }

  /** The search from position `i` on, one element at a time. */
  lemma FirstByStep<T>(s: seq<T>, i: nat, hit: T -> bool, value: T -> string)
    requires i < |s|
    ensures FirstBy(s[i..], hit, value) == if hit(s[i]) then value(s[i]) else FirstBy(s[i + 1..], hit, value)
  {
    assert s[i..][0] == s[i] && s[i..][1..] == s[i + 1..];
  }

  /** When every hit has a non-empty value, the result is empty exactly
      when nothing is a hit. */
  lemma {:induction false} FirstByBlank<T>(s: seq<T>, hit: T -> bool, value: T -> string)
    requires forall i :: 0 <= i < |s| && hit(s[i]) ==> value(s[i]) != ""
    ensures FirstBy(s, hit, value) == "" <==> forall i :: 0 <= i < |s| ==> !hit(s[i])
  {
    if s != [] {
      assert forall i :: 0 < i < |s| ==> s[1..][i - 1] == s[i];
      FirstByBlank(s[1..], hit, value);
    }
  }

  /** The search over two elements. */
  lemma FirstByPair<T>(a: T, b: T, hit: T -> bool, value: T -> string)
    ensures FirstBy([a, b], hit, value) == if hit(a) then value(a) else if hit(b) then value(b) else ""
  {
    assert [b][1..] == [];
    assert FirstBy([b], hit, value) == if hit(b) then value(b) else "";
    assert [a, b][1..] == [b];
  }

  /** A non-empty result is the value of the first hit. */
  lemma {:induction false} FirstByAt<T>(s: seq<T>, hit: T -> bool, value: T -> string) returns (k: nat)
    requires FirstBy(s, hit, value) != ""
    ensures k < |s| && hit(s[k]) && FirstBy(s, hit, value) == value(s[k])
    ensures forall j :: 0 <= j < k ==> !hit(s[j])
  {
    if hit(s[0]) {
      return 0;
    }
    var k' := FirstByAt(s[1..], hit, value);
    assert forall j :: 0 < j < |s| ==> s[1..][j - 1] == s[j];
    k := k' + 1;
  }

  /** When every value is trimmed, so is the result. */
  lemma {:induction false} FirstByStripped<T>(s: seq<T>, hit: T -> bool, value: T -> string)
    requires forall i :: 0 <= i < |s| ==> IsStripped(value(s[i]))
    ensures IsStripped(FirstBy(s, hit, value))
  {
    if s != [] {
      assert forall i :: 0 < i < |s| ==> s[1..][i - 1] == s[i];
      FirstByStripped(s[1..], hit, value);
    }
  }

  // ---------------------------------------------------------------------
  // Link search

  /** What the link search reads from one child: whether it is a `link`
      element, its trimmed `href` and `rel` attributes and its trimmed
      text. */
  datatype LinkChild = LinkChild(isLink: bool, href: string, rel: string, text: string)

  /** A link with an href and no relation or the `alternate` relation. */
  predicate IsPrimary(v: LinkChild) {
    v.isLink && v.href != "" && (v.rel == "" || v.rel == "alternate")
  }

  /** A link child that ends the search: a primary href, or any non-blank
      text. */
  predicate Ends(v: LinkChild) {
    IsPrimary(v) || (v.isLink && v.text != "")
  }

  /** What a child that ends the search yields: its href when primary, else
      its text. */
  function Outcome(v: LinkChild): string {
    if IsPrimary(v) then v.href else v.text
  }

  /** The link search from some child on, with the fallback href found so
      far: a primary href ends it, then a non-blank text; a link's href is
      remembered as the fallback when none is yet. */
  function LinkBy<T>(s: seq<T>, view: T -> LinkChild, fallback: string): string {
    if s == [] then fallback
    else
      var v := view(s[0]);
      if !v.isLink then LinkBy(s[1..], view, fallback)
      else if IsPrimary(v) then v.href
      else
        var fb := if v.href != "" && fallback == "" then v.href else fallback;
        if v.text != "" then v.text else LinkBy(s[1..], view, fb)
  }

  /** The first non-blank href among the link children, `""` if none. */
  function FirstHrefBy<T>(s: seq<T>, view: T -> LinkChild): string {
    if s == [] then ""
    else if view(s[0]).isLink && view(s[0]).href != "" then view(s[0]).href
    else FirstHrefBy(s[1..], view)
  }

  /** The search from position `i` on, one child at a time. */
  lemma LinkByStep<T>(s: seq<T>, i: nat, view: T -> LinkChild, fallback: string)
    requires i < |s|
    ensures var v := view(s[i]);
      LinkBy(s[i..], view, fallback)
      == if !v.isLink then LinkBy(s[i + 1..], view, fallback)
         else if IsPrimary(v) then v.href
         else if v.text != "" then v.text
         else LinkBy(s[i + 1..], view, if v.href != "" && fallback == "" then v.href else fallback)
  {
    assert s[i..][0] == s[i] && s[i..][1..] == s[i + 1..];
  }

  /** The first child that ends the search decides it. */
  lemma {:induction false} LinkByAt<T>(s: seq<T>, view: T -> LinkChild, fallback: string, k: nat)
    requires k < |s| && Ends(view(s[k]))
    requires forall j :: 0 <= j < k ==> !Ends(view(s[j]))
    ensures LinkBy(s, view, fallback) == Outcome(view(s[k]))
  {
    if k > 0 {
      var v := view(s[0]);
      assert !Ends(v);
      var fb := if v.isLink && v.href != "" && fallback == "" then v.href else fallback;
      assert forall j :: 0 <= j < k ==> s[1..][j] == s[j + 1];
      LinkByAt(s[1..], view, fb, k - 1);
    }
  }

  /** With no child ending the search, the fallback found before wins, else
      the first href of any relation. */
  lemma {:induction false} LinkByWithout<T>(s: seq<T>, view: T -> LinkChild, fallback: string)
    requires forall i :: 0 <= i < |s| ==> !Ends(view(s[i]))
    ensures LinkBy(s, view, fallback) == if fallback != "" then fallback else FirstHrefBy(s, view)
  {
    if s != [] {
      var v := view(s[0]);
      assert !Ends(v);
      var fb := if v.isLink && v.href != "" && fallback == "" then v.href else fallback;
      assert forall j :: 0 <= j < |s| - 1 ==> s[1..][j] == s[j + 1];
      LinkByWithout(s[1..], view, fb);
    }
  }

  /** When every href and text read is trimmed, so is the result. */
  lemma {:induction false} LinkByStripped<T>(s: seq<T>, view: T -> LinkChild, fallback: string)
    requires IsStripped(fallback)
    requires forall i :: 0 <= i < |s| ==> IsStripped(view(s[i]).href) && IsStripped(view(s[i]).text)
    ensures IsStripped(LinkBy(s, view, fallback))
  {
    if s != [] {
      var v := view(s[0]);
      var fb := if v.href != "" && fallback == "" then v.href else fallback;
      assert forall i :: 0 < i < |s| ==> s[1..][i - 1] == s[i];
      LinkByStripped(s[1..], view, fallback);
      LinkByStripped(s[1..], view, fb);
    }
  }
}
