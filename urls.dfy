/** Canonical feed URLs. The splitting follows the standard library's
    `urlparse` (as in Python 3.12) for the parts the plugin reads: leading
    C0 controls and spaces dropped, tabs and line breaks deleted, the scheme
    recognised and lower-cased, the network location cut at the first `/`,
    `?` or `#`, a lone square bracket in it rejected, the fragment split off
    before the query, and `;params` split off the last path segment. */
module Urls {
  import opened Wrappers
  import opened PyText

  datatype UrlParts = UrlParts(
    scheme: string,
    netloc: string,
    path: string,
    params: string,
    query: string,
    fragment: string)

  const InvalidIpv6: string := "Invalid IPv6 URL"

  /** The characters `urlsplit` deletes wherever they occur. */
  predicate IsUnsafe(c: char) { c == '\t' || c == '\r' || c == '\n' }

  predicate NoUnsafe(s: string) { forall i :: 0 <= i < |s| ==> !IsUnsafe(s[i]) }

  function DropUnsafe(s: string): (r: string)
    ensures NoUnsafe(r)
    ensures NoUnsafe(s) ==> r == s
    ensures forall c :: c in r ==> c in s
  {
    if s == [] then []
    else if IsUnsafe(s[0]) then DropUnsafe(s[1..])
    else [s[0]] + DropUnsafe(s[1..])
  }

  /** `s.lstrip()` of the C0 controls and the space. */
  function DropLeadingControls(s: string): (r: string)
    ensures |r| <= |s| && r == s[|s| - |r|..]
    ensures r != [] ==> r[0] > ' '
    ensures s != [] && s[0] > ' ' ==> r == s
  {
    if s != [] && s[0] <= ' ' then DropLeadingControls(s[1..]) else s
  }

  predicate IsAsciiLetter(c: char) { 'a' <= c <= 'z' || 'A' <= c <= 'Z' }

  predicate IsSchemeChar(c: char) {
    IsAsciiLetter(c) || '0' <= c <= '9' || c == '+' || c == '-' || c == '.'
  }

  /** `s.lower()` on a string of scheme characters. */
  function AsciiLower(s: string): (r: string)
    ensures |r| == |s|
    ensures forall i :: 0 <= i < |s| ==> r[i] == if 'A' <= s[i] <= 'Z' then (s[i] as int + 32) as char else s[i]
  {
    if s == [] then []
    else [if 'A' <= s[0] <= 'Z' then (s[0] as int + 32) as char else s[0]] + AsciiLower(s[1..])
  }

  /** The index of the first character of `s` that is in `cs`, or `|s|`. */
  function FindAny(s: string, cs: set<char>): (i: nat)
    ensures i <= |s|
    ensures forall j :: 0 <= j < i ==> s[j] !in cs
    ensures i < |s| ==> s[i] in cs
  {
    if s == [] then 0 else if s[0] in cs then 0 else 1 + FindAny(s[1..], cs)
  }

  /** The index of the last `c` in `s`, when there is one. */
  function FindLast(s: string, c: char): (i: nat)
    requires c in s
    ensures i < |s| && s[i] == c
    ensures c !in s[i + 1..]
  {
    if s[|s| - 1] == c then |s| - 1
    else
      var i := FindLast(s[..|s| - 1], c);
      assert s[i + 1..] == s[..|s| - 1][i + 1..] + [s[|s| - 1]];
      i
  }

  /** The schemes whose last path segment may carry `;params`. */
  const UsesParams: set<string> := {
    "", "ftp", "hdl", "prospero", "http", "imap", "https", "shttp", "rtsp",
    "rtsps", "rtspu", "sip", "sips", "mms", "sftp", "tel" }

  /** Splitting `;params` off the last path segment (after the last `/`;
      the whole path when it has no `/`). */
  function SplitParams(path: string): (r: (string, string))
    ensures (r.0 == path && r.1 == "") || path == r.0 + ";" + r.1
    ensures '/' in path ==> FindLast(path, '/') <= |r.0| && ';' !in r.0[FindLast(path, '/')..]
    ensures '/' !in path ==> ';' !in r.0
  {
    var start := SegmentStart(path);
    var i := start + Find(path[start..], ';');
    FindFrom(path, start, ';');
    if i == |path| then (path, "") else (path[..i], path[i + 1..])
  }

  /** Where the last path segment starts: at the last `/`, or at 0. */
  function SegmentStart(path: string): (start: nat)
    ensures start <= |path|
    ensures '/' in path ==> start == FindLast(path, '/')
    ensures '/' !in path ==> start == 0
  {
    if '/' in path then FindLast(path, '/') else 0
  }

  /** The first `c` at or after `start`, and what lies on either side. */
  lemma FindFrom(s: string, start: nat, c: char)
    requires start <= |s|
    ensures var i := start + Find(s[start..], c);
      && i <= |s| && c !in s[..i][start..]
      && (i < |s| ==> s == s[..i] + [c] + s[i + 1..])
  {
    var i := start + Find(s[start..], c);
    assert s[..i][start..] == s[start..][..i - start];
    if i < |s| {
      assert s == s[..i] + [c] + s[i + 1..];
    }
  }

  /** `urlparse(url)`, or the `ValueError` it raises for a network location
      holding one square bracket without the other. */
  function ParseUrl(url: string): (r: Result<UrlParts>)
    ensures r.Err? <==>
      var netloc := SplitNetloc(SchemeRest(Clean(url)).1).0;
      ('[' in netloc) != (']' in netloc)
    ensures r.Err? ==> r.msg == InvalidIpv6
    ensures r.Ok? ==> var p := r.value;
      && NoUnsafe(p.netloc) && NoUnsafe(p.path) && NoUnsafe(p.query)
      && '#' !in p.netloc && '#' !in p.path && '#' !in p.params && '#' !in p.query
      && '?' !in p.netloc && '?' !in p.path && '?' !in p.params
      && '/' !in p.netloc
  {
    var (scheme, rest) := SchemeRest(Clean(url));
    var (netloc, after) := SplitNetloc(rest);
    if ('[' in netloc) != (']' in netloc) then Err(InvalidIpv6)
    else Ok(SplitTail(scheme, netloc, after))
  }

  /** What follows the network location: the fragment after the first `#`,
      then the query after the first `?`, then the parameters of the path. */
  function SplitTail(scheme: string, netloc: string, after: string): (p: UrlParts)
    ensures p.scheme == scheme && p.netloc == netloc
    ensures NoUnsafe(after) ==> NoUnsafe(p.path) && NoUnsafe(p.query)
    ensures '#' !in p.path && '#' !in p.params && '#' !in p.query
    ensures '?' !in p.path && '?' !in p.params
  {
    var hash := Find(after, '#');
    var beforeFragment := after[..hash];
    var fragment := if hash < |after| then after[hash + 1..] else "";
    var mark := Find(beforeFragment, '?');
    var path := beforeFragment[..mark];
    var query := if mark < |beforeFragment| then beforeFragment[mark + 1..] else "";
    var (path', params) := if scheme in UsesParams then SplitParams(path) else (path, "");
    CleanParts(after, hash, mark);
    ParamsParts(path, path', params);
    UrlParts(scheme, netloc, path', params, query, fragment)
  }

  /** The string `urlsplit` works on. */
  function Clean(url: string): (r: string)
    ensures NoUnsafe(r)
  {
    DropUnsafe(DropLeadingControls(url))
  }

  /** The scheme and what follows its `:`, when the text before the first
      `:` is a scheme; otherwise no scheme and the whole string. */
  function SchemeRest(u: string): (r: (string, string))
    ensures NoUnsafe(u) ==> NoUnsafe(r.1)
    ensures r.1 == u || (|r.1| < |u| && r.1 == u[|u| - |r.1|..])
  {
    var i := Find(u, ':');
    if 0 < i < |u| && IsAsciiLetter(u[0]) && forall j :: 0 <= j < i ==> IsSchemeChar(u[j]) then
      (AsciiLower(u[..i]), u[i + 1..])
    else ("", u)
  }

  /** The network location when the rest starts with `//`: up to the first
      `/`, `?` or `#`. */
  function SplitNetloc(rest: string): (r: (string, string))
    ensures NoUnsafe(rest) ==> NoUnsafe(r.0) && NoUnsafe(r.1)
    ensures '/' !in r.0 && '?' !in r.0 && '#' !in r.0
    ensures |rest| >= 2 && rest[..2] == "//" ==> rest == "//" + r.0 + r.1
    ensures !(|rest| >= 2 && rest[..2] == "//") ==> r == ("", rest)
  {
    if |rest| >= 2 && rest[..2] == "//" then
      var body := rest[2..];
      var d := FindAny(body, {'/', '?', '#'});
      assert rest == "//" + body[..d] + body[d..];
      (body[..d], body[d..])
    else ("", rest)
  }

  lemma CleanParts(afterNetloc: string, hash: nat, mark: nat)
    requires hash == Find(afterNetloc, '#')
    requires mark == Find(afterNetloc[..hash], '?')
    ensures NoUnsafe(afterNetloc) ==> NoUnsafe(afterNetloc[..hash][..mark])
    ensures NoUnsafe(afterNetloc) && mark < hash ==> NoUnsafe(afterNetloc[..hash][mark + 1..])
    ensures '#' !in afterNetloc[..hash][..mark] && '?' !in afterNetloc[..hash][..mark]
    ensures mark < hash ==> '#' !in afterNetloc[..hash][mark + 1..]
  {
    var b := afterNetloc[..hash];
    if NoUnsafe(afterNetloc) {
      assert forall i :: 0 <= i < |b| ==> b[i] == afterNetloc[i];
    }
    assert forall i :: 0 <= i < |b[..mark]| ==> b[..mark][i] == b[i];
    if mark < hash {
      var t := b[mark + 1..];
      assert forall i :: 0 <= i < |t| ==> t[i] == b[mark + 1 + i];
    }
  }

  lemma ParamsParts(path: string, path': string, params: string)
    requires (path' == path && params == "") || path == path' + ";" + params
    ensures forall c :: c in path' ==> c in path
    ensures forall c :: c in params ==> c in path
    ensures NoUnsafe(path) ==> NoUnsafe(path')
  {
    if path != path' {
      assert forall i :: 0 <= i < |path'| ==> path'[i] == path[i];
      assert forall i :: 0 <= i < |params| ==> params[i] == path[|path'| + 1 + i];
    }
  }

  // ---------------------------------------------------------------------
  // normalize_url

  /** `re.match(r"^https?://", s, flags=re.IGNORECASE)` */
  predicate HasHttpPrefix(s: string) {
    && |s| >= 7
    && MatchesIgnoreCase(s[0], 'h') && MatchesIgnoreCase(s[1], 't')
    && MatchesIgnoreCase(s[2], 't') && MatchesIgnoreCase(s[3], 'p')
    && (|| s[4..7] == "://"
        || (|s| >= 8 && MatchesIgnoreCase(s[4], 's') && s[5..8] == "://"))
  }

  predicate StartsWith(s: string, prefix: string) {
    |prefix| <= |s| && s[..|prefix|] == prefix
  }

  /** The canonical key of a feed URL: `""` for blank input or for anything
      that does not come out as an `http`/`https` URL with a network location,
      otherwise scheme, network location and path, then `?query` when the
      query is not empty. `https://` is put in front of input without an
      `http://` or `https://` prefix. A lone square bracket in the network
      location raises, and the error escapes. */
  function NormalizeUrl(value: string): (r: Result<string>)
    ensures Strip(value) == "" ==> r == Ok("")
    ensures r.Ok? && r.value != "" ==> StartsWith(r.value, "http://") || StartsWith(r.value, "https://")
    ensures r.Ok? ==> '#' !in r.value && NoUnsafe(r.value)
    ensures r.Err? ==> r.msg == InvalidIpv6
  {
    var raw := Strip(value);
    if raw == "" then Ok("")
    else Canonical(if HasHttpPrefix(raw) then raw else "https://" + raw)
  }

  /** The key of an already prefixed URL. */
  function Canonical(full: string): (r: Result<string>)
    ensures r.Ok? && r.value != "" ==> StartsWith(r.value, "http://") || StartsWith(r.value, "https://")
    ensures r.Ok? ==> '#' !in r.value && NoUnsafe(r.value)
    ensures r.Err? ==> r.msg == InvalidIpv6
    ensures r.Err? <==> ParseUrl(full).Err?
    ensures ParseUrl(full).Ok? ==> var p := ParseUrl(full).value;
      r.value == "" <==> (p.scheme != "http" && p.scheme != "https") || p.netloc == ""
  {
    match ParseUrl(full)
    case Err(msg) => Err(msg)
    case Ok(p) =>
      if (p.scheme != "http" && p.scheme != "https") || p.netloc == "" then Ok("")
      else Ok(Compose(p))
  }

  /** `f"{scheme}://{netloc}{path}"`, then `?query` when the query is not
      empty. */
  function Compose(p: UrlParts): (r: string)
    requires p.scheme == "http" || p.scheme == "https"
    requires NoUnsafe(p.netloc) && NoUnsafe(p.path) && NoUnsafe(p.query)
    requires '#' !in p.netloc && '#' !in p.path && '#' !in p.query
    ensures StartsWith(r, "http://") || StartsWith(r, "https://")
    ensures '#' !in r && NoUnsafe(r)
  {
    var head := p.scheme + "://";
    var tail := if p.query != "" then "?" + p.query else "";
    var r := head + p.netloc + p.path + tail;
    assert r[..|head|] == head;
    NoUnsafeConcat(head, p.netloc);
    NoUnsafeConcat(head + p.netloc, p.path);
    NoUnsafeConcat(head + p.netloc + p.path, tail);
    r
  }

  lemma NoUnsafeConcat(a: string, b: string)
    requires NoUnsafe(a) && NoUnsafe(b)
    ensures NoUnsafe(a + b)
  {
    forall i | 0 <= i < |a + b| ensures !IsUnsafe((a + b)[i]) {
      if i >= |a| {
        assert (a + b)[i] == b[i - |a|];
      }
    }
  }

  // ---------------------------------------------------------------------
  // properties

  lemma {:induction false} FindAnyAppend(a: string, b: string, cs: set<char>)
    requires forall i :: 0 <= i < |a| ==> a[i] !in cs
    ensures FindAny(a + b, cs) == |a| + FindAny(b, cs)
  {
    if a != [] {
      assert (a + b)[0] == a[0];
      assert (a + b)[1..] == a[1..] + b;
      FindAnyAppend(a[1..], b, cs);
    } else {
      assert a + b == b;
    }
  }

  lemma CleanPlain(u: string)
    requires u != [] && u[0] > ' ' && NoUnsafe(u)
    ensures Clean(u) == u
  {
  }

  lemma LowerOfLower(s: string)
    requires forall i :: 0 <= i < |s| ==> 'a' <= s[i] <= 'z'
    ensures AsciiLower(s) == s
  {
  }

  /** An `http` or `https` prefix is recognised as the scheme. */
  lemma SchemeOfHttp(scheme: string, tail: string)
    requires scheme == "http" || scheme == "https"
    ensures SchemeRest(scheme + ":" + tail) == (scheme, tail)
  {
    var u := scheme + ":" + tail;
    FindSeparator(scheme, ':', tail);
    assert forall j :: 0 <= j < |scheme| ==> IsSchemeChar(u[j]) by {
      assert u[..|scheme|] == scheme;
    }
    LowerOfLower(scheme);
  }

  /** After `//`, the network location runs up to the first `/`, `?` or
      `#`. */
  lemma NetlocOf(host: string, after: string)
    requires forall i :: 0 <= i < |host| ==> host[i] !in {'/', '?', '#'}
    requires after == [] || after[0] in {'/', '?', '#'}
    ensures SplitNetloc("//" + host + after) == (host, after)
  {
    var rest := "//" + host + after;
    assert rest[..2] == "//";
    assert rest[2..] == host + after;
    FindAnyAppend(host, after, {'/', '?', '#'});
    assert (host + after)[..|host|] == host;
    assert (host + after)[|host|..] == after;
  }

  /** A path without `;` has no parameters. */
  lemma PlainPathParams(path: string)
    requires ';' !in path
    ensures SplitParams(path) == (path, "")
  {
    var start := if '/' in path then FindLast(path, '/') else 0;
    assert ';' !in path[start..];
  }

  /** A path without `?`, `#` or `;` is all of the tail. */
  lemma TailPathOnly(scheme: string, host: string, path: string)
    requires '?' !in path && '#' !in path && ';' !in path
    ensures SplitTail(scheme, host, path) == UrlParts(scheme, host, path, "", "", "")
  {
    assert path[..|path|] == path;
    PlainPathParams(path);
  }

  /** The fragment is cut off at the first `#`, then the query at the first
      `?`. */
  lemma TailQueryFragment(scheme: string, host: string, path: string, query: string, fragment: string)
    requires '?' !in path && '#' !in path && ';' !in path && '#' !in query
    ensures SplitTail(scheme, host, path + "?" + query + "#" + fragment)
         == UrlParts(scheme, host, path, "", query, fragment)
  {
    FindSeparator(path + "?" + query, '#', fragment);
    FindSeparator(path, '?', query);
    PlainPathParams(path);
  }

  /** The scheme-and-host part of an `http`/`https` URL. */
  lemma ParseHttp(scheme: string, host: string, after: string)
    requires scheme == "http" || scheme == "https"
    requires NoUnsafe(host) && NoUnsafe(after)
    requires forall i :: 0 <= i < |host| ==> host[i] !in {'/', '?', '#', '[', ']'}
    requires after == [] || after[0] in {'/', '?', '#'}
    ensures ParseUrl(scheme + "://" + host + after) == Ok(SplitTail(scheme, host, after))
  {
    var u := scheme + "://" + host + after;
    NoUnsafeConcat(scheme + "://", host);
    NoUnsafeConcat(scheme + "://" + host, after);
    CleanPlain(u);
    assert u == scheme + ":" + ("//" + host + after);
    SchemeOfHttp(scheme, "//" + host + after);
    NetlocOf(host, after);
    assert '[' !in host && ']' !in host by {
      assert forall i :: 0 <= i < |host| ==> host[i] != '[' && host[i] != ']';
    }
  }

  lemma HttpPrefixOf(scheme: string, tail: string)
    requires scheme == "http" || scheme == "https"
    ensures HasHttpPrefix(scheme + "://" + tail)
  {
    var u := scheme + "://" + tail;
    assert u[..|scheme| + 3] == scheme + "://";
  }

  /** Input that needs no stripping is keyed by its prefixed form. */
  lemma NormalizeStripped(raw: string)
    requires raw != [] && IsStripped(raw)
    ensures NormalizeUrl(raw) == Canonical(if HasHttpPrefix(raw) then raw else "https://" + raw)
  {
    StripStripped(raw);
  }

  lemma CanonicalHostPath(host: string, path: string)
    requires host != [] && NoUnsafe(host) && NoUnsafe(path)
    requires forall i :: 0 <= i < |host| ==> host[i] !in {'/', '?', '#', '[', ']'}
    requires path == [] || path[0] == '/'
    requires '?' !in path && '#' !in path && ';' !in path
    ensures Canonical("https://" + (host + path)) == Ok("https://" + host + path)
  {
    var full := "https://" + (host + path);
    var parts := UrlParts("https", host, path, "", "", "");
    ParseHostPath(host, path);
    assert ParseUrl(full) == Ok(parts);
    ComposeHostPath(host, path);
    assert Canonical(full) == Ok(Compose(parts));
  }

  lemma ComposeHostPath(host: string, path: string)
    requires NoUnsafe(host) && NoUnsafe(path) && '#' !in host && '#' !in path
    ensures Compose(UrlParts("https", host, path, "", "", "")) == "https://" + host + path
  {
    assert "https" + "://" + host + path + "" == "https://" + host + path;
  }

  lemma ParseHostPath(host: string, path: string)
    requires host != [] && NoUnsafe(host) && NoUnsafe(path)
    requires forall i :: 0 <= i < |host| ==> host[i] !in {'/', '?', '#', '[', ']'}
    requires path == [] || path[0] == '/'
    requires '?' !in path && '#' !in path && ';' !in path
    ensures ParseUrl("https://" + (host + path)) == Ok(UrlParts("https", host, path, "", "", ""))
  {
    assert "https://" + (host + path) == "https" + "://" + host + path;
    ParseHttp("https", host, path);
    TailPathOnly("https", host, path);
  }

  /** A host, with or without a path, and no scheme gets `https://` and is
      otherwise kept exactly: spaces in the host are not rejected, and a
      trailing `/` is kept. */
  lemma BareHost(host: string, path: string)
    requires host != [] && NoUnsafe(host) && NoUnsafe(path)
    requires forall i :: 0 <= i < |host| ==> host[i] !in {'/', '?', '#', '[', ']'}
    requires path == [] || path[0] == '/'
    requires '?' !in path && '#' !in path && ';' !in path
    requires IsStripped(host + path) && !HasHttpPrefix(host + path)
    ensures NormalizeUrl(host + path) == Ok("https://" + host + path)
  {
    NormalizeStripped(host + path);
    CanonicalHostPath(host, path);
  }

  lemma HostOnly(host: string)
    requires host != [] && NoUnsafe(host)
    requires forall i :: 0 <= i < |host| ==> host[i] !in {'/', '?', '#', '[', ']'}
    requires IsStripped(host) && !HasHttpPrefix(host)
    ensures NormalizeUrl(host) == Ok("https://" + host)
  {
    assert host + "" == host;
    assert "https://" + host + "" == "https://" + host;
    BareHost(host, "");
  }

  /** Spaces are kept: a phrase becomes an `https` URL with that phrase as
      its network location. */
  lemma PhraseBecomesUrl()
    ensures NormalizeUrl("not a url") == Ok("https://not a url")
  {
    var host := "not a url";
    assert "https://" + host + "" == "https://not a url";
    assert host + "" == host;
    assert forall i :: 0 <= i < |host| ==> host[i] !in {'/', '?', '#', '[', ']'};
    assert NoUnsafe(host) && IsStripped(host);
    assert !HasHttpPrefix(host) by {
      assert !MatchesIgnoreCase(host[0], 'h');
    }
    BareHost(host, "");
  }

  lemma HostSlash(host: string)
    requires host != [] && NoUnsafe(host)
    requires forall i :: 0 <= i < |host| ==> host[i] !in {'/', '?', '#', '[', ']'}
    requires IsStripped(host) && !HasHttpPrefix(host + "/")
    ensures NormalizeUrl(host + "/") == Ok("https://" + host + "/")
  {
    assert IsStripped(host + "/") && NoUnsafe("/");
    BareHost(host, "/");
  }

  /** The path is kept as given, so a host with and without a trailing `/`
      are two different keys. */
  lemma TrailingSlashMatters(host: string)
    requires host != [] && NoUnsafe(host)
    requires forall i :: 0 <= i < |host| ==> host[i] !in {'/', '?', '#', '[', ']'}
    requires IsStripped(host) && !HasHttpPrefix(host) && !HasHttpPrefix(host + "/")
    ensures NormalizeUrl(host) == Ok("https://" + host)
    ensures NormalizeUrl(host + "/") == Ok("https://" + host + "/")
  {
    HostOnly(host);
    HostSlash(host);
  }

  lemma CanonicalFull(scheme: string, host: string, path: string, query: string, fragment: string)
    requires scheme == "http" || scheme == "https"
    requires host != [] && NoUnsafe(host) && NoUnsafe(path) && NoUnsafe(query) && NoUnsafe(fragment)
    requires forall i :: 0 <= i < |host| ==> host[i] !in {'/', '?', '#', '[', ']'}
    requires path == [] || path[0] == '/'
    requires '?' !in path && '#' !in path && ';' !in path && '#' !in query
    ensures Canonical(scheme + "://" + host + path + "?" + query + "#" + fragment)
         == Ok(scheme + "://" + host + path + (if query != "" then "?" + query else ""))
  {
    var after := path + "?" + query + "#" + fragment;
    var full := scheme + "://" + host + after;
    assert full == scheme + "://" + host + path + "?" + query + "#" + fragment;
    var key := scheme + "://" + host + path + (if query != "" then "?" + query else "");
    assert NoUnsafe(after) by {
      NoUnsafeConcat(path, "?");
      NoUnsafeConcat(path + "?", query);
      NoUnsafeConcat(path + "?" + query, "#");
      NoUnsafeConcat(path + "?" + query + "#", fragment);
    }
    assert after[0] in {'/', '?', '#'};
    var parts := UrlParts(scheme, host, path, "", query, fragment);
    assert ParseUrl(full) == Ok(parts) by {
      ParseHttp(scheme, host, after);
      TailQueryFragment(scheme, host, path, query, fragment);
    }
    assert Compose(parts) == key;
    assert Canonical(full) == Ok(key);
  }

  /** A full URL keeps scheme, host, path and a non-empty query; the
      fragment is dropped, and so is the `?` of an empty query. */
  lemma FullUrl(scheme: string, host: string, path: string, query: string, fragment: string)
    requires scheme == "http" || scheme == "https"
    requires host != [] && NoUnsafe(host) && NoUnsafe(path) && NoUnsafe(query) && NoUnsafe(fragment)
    requires forall i :: 0 <= i < |host| ==> host[i] !in {'/', '?', '#', '[', ']'}
    requires path == [] || path[0] == '/'
    requires '?' !in path && '#' !in path && ';' !in path && '#' !in query
    requires IsStripped(scheme + "://" + host + path + "?" + query + "#" + fragment)
    ensures NormalizeUrl(scheme + "://" + host + path + "?" + query + "#" + fragment)
         == Ok(scheme + "://" + host + path + (if query != "" then "?" + query else ""))
  {
    var full := scheme + "://" + host + path + "?" + query + "#" + fragment;
    assert full == scheme + "://" + (host + path + "?" + query + "#" + fragment);
    HttpPrefixOf(scheme, host + path + "?" + query + "#" + fragment);
    NormalizeStripped(full);
    CanonicalFull(scheme, host, path, query, fragment);
  }

  /** An `http`/`https` URL with nothing between `//` and its path, query
      or fragment has no network location, so it gets the empty key and is
      refused. */
  lemma EmptyNetlocRefused(scheme: string, after: string)
    requires scheme == "http" || scheme == "https"
    requires NoUnsafe(after) && (after == [] || after[0] in {'/', '?', '#'})
    requires IsStripped(scheme + "://" + after)
    ensures NormalizeUrl(scheme + "://" + after) == Ok("")
  {
    var u := scheme + "://" + after;
    assert u == scheme + "://" + "" + after;
    ParseHttp(scheme, "", after);
    assert ParseUrl(u).Ok? && ParseUrl(u).value.netloc == "";
    assert Canonical(u) == Ok("");
    HttpPrefixOf(scheme, after);
    NormalizeStripped(u);
  }

  /** The key keeps the path the parse reports, so `;params` on the last
      path segment are not part of it, while a `;` in an earlier segment
      is kept. */
  lemma ParamsDropped(scheme: string, host: string, dir: string, segment: string, params: string)
    requires scheme == "http" || scheme == "https"
    requires host != [] && NoUnsafe(host) && NoUnsafe(dir) && NoUnsafe(segment) && NoUnsafe(params)
    requires forall i :: 0 <= i < |host| ==> host[i] !in {'/', '?', '#', '[', ']'}
    requires dir == [] || dir[0] == '/'
    requires '?' !in dir && '#' !in dir
    requires '/' !in segment && ';' !in segment && '?' !in segment && '#' !in segment
    requires '/' !in params && '?' !in params && '#' !in params
    ensures Canonical(scheme + "://" + host + (dir + "/" + segment + ";" + params))
         == Ok(scheme + "://" + host + (dir + "/" + segment))
  {
    var full := scheme + "://" + host + (dir + "/" + segment + ";" + params);
    var kept := dir + "/" + segment;
    var parts := UrlParts(scheme, host, kept, params, "", "");
    ParseWithParams(scheme, host, dir, segment, params);
    assert ParseUrl(full) == Ok(parts);
    assert Canonical(full) == Ok(Compose(parts));
    var key := scheme + "://" + host + kept;
    assert key + "" == key;
    assert Compose(parts) == key;
  }

  /** The parse of a URL whose last path segment carries `;params`. */
  lemma ParseWithParams(scheme: string, host: string, dir: string, segment: string, params: string)
    requires scheme == "http" || scheme == "https"
    requires NoUnsafe(host) && NoUnsafe(dir) && NoUnsafe(segment) && NoUnsafe(params)
    requires forall i :: 0 <= i < |host| ==> host[i] !in {'/', '?', '#', '[', ']'}
    requires dir == [] || dir[0] == '/'
    requires '?' !in dir && '#' !in dir
    requires '/' !in segment && ';' !in segment && '?' !in segment && '#' !in segment
    requires '/' !in params && '?' !in params && '#' !in params
    ensures ParseUrl(scheme + "://" + host + (dir + "/" + segment + ";" + params))
         == Ok(UrlParts(scheme, host, dir + "/" + segment, params, "", ""))
  {
    var path := dir + "/" + segment + ";" + params;
    PathChars(dir, segment, params);
    assert path[0] == '/';
    ParseHttp(scheme, host, path);
    PathOnlyTail(scheme, host, path);
    SplitLastParams(dir, segment, params);
  }

  lemma PathChars(dir: string, segment: string, params: string)
    requires NoUnsafe(dir) && NoUnsafe(segment) && NoUnsafe(params)
    requires '?' !in dir && '#' !in dir && '?' !in segment && '#' !in segment && '?' !in params && '#' !in params
    ensures var path := dir + "/" + segment + ";" + params;
      path[|dir|] == '/' && NoUnsafe(path) && '?' !in path && '#' !in path
  {
    var path := dir + "/" + segment + ";" + params;
    var n := |dir| + 1 + |segment|;
    forall i | 0 <= i < |path| ensures !IsUnsafe(path[i]) && path[i] != '?' && path[i] != '#' {
      if i < |dir| {
        assert path[i] == dir[i];
      } else if |dir| < i < n {
        assert path[i] == segment[i - |dir| - 1];
      } else if i > n {
        assert path[i] == params[i - n - 1];
      }
    }
  }

  /** A tail without `?` or `#` is all path, split by `SplitParams` when
      the scheme takes parameters. */
  lemma PathOnlyTail(scheme: string, host: string, path: string)
    requires '?' !in path && '#' !in path
    requires scheme in UsesParams
    ensures SplitTail(scheme, host, path)
         == UrlParts(scheme, host, SplitParams(path).0, SplitParams(path).1, "", "")
  {
    assert path[..|path|] == path;
  }

  /** `SplitParams` cuts at the first `;` after the last `/`. */
  lemma SplitLastParams(dir: string, segment: string, params: string)
    requires '/' !in segment && ';' !in segment && '/' !in params
    ensures SplitParams(dir + "/" + segment + ";" + params) == (dir + "/" + segment, params)
  {
    var path := dir + "/" + segment + ";" + params;
    ParamsAfter(path, dir, segment, params);
    CutAtParams(path, dir, segment, params);
  }

  lemma CutAtParams(path: string, dir: string, segment: string, params: string)
    requires '/' !in segment && ';' !in segment && '/' !in params
    requires path == dir + "/" + segment + ";" + params
    ensures var i := |dir| + 1 + |segment|;
      i < |path| && SplitParams(path).0 == path[..i] && SplitParams(path).1 == path[i + 1..]
  {
    var d := |dir|;
    LastSlashOf(path, dir, segment, params);
    ParamsAfter(path, dir, segment, params);
    SplitParamsAt(path, d, d + 1 + |segment|);
  }

  lemma LastSlashOf(path: string, dir: string, segment: string, params: string)
    requires '/' !in segment && '/' !in params
    requires path == dir + "/" + segment + ";" + params
    ensures SegmentStart(path) == |dir|
  {
    var rest := segment + ";" + params;
    assert path == dir + "/" + rest;
    NoSlashJoin(segment, params);
    LastSlashAt(dir, rest);
  }

  /** `SplitParams` in terms of where the last `/` and the `;` after it are. */
  lemma SplitParamsAt(path: string, start: nat, i: nat)
    requires SegmentStart(path) == start
    requires i == start + Find(path[start..], ';') && i < |path|
    ensures SplitParams(path).0 == path[..i]
    ensures SplitParams(path).1 == path[i + 1..]
  {
  }

  lemma NoSlashJoin(segment: string, params: string)
    requires '/' !in segment && '/' !in params
    ensures '/' !in segment + ";" + params
  {
    var rest := segment + ";" + params;
    forall i | 0 <= i < |rest| ensures rest[i] != '/' {
      if i < |segment| { assert rest[i] == segment[i]; }
      else if i > |segment| { assert rest[i] == params[i - |segment| - 1]; }
    }
  }

  /** From the slash after `dir`, the first `;` ends the segment. */
  lemma ParamsAfter(path: string, dir: string, segment: string, params: string)
    requires ';' !in segment && path == dir + "/" + segment + ";" + params
    ensures |dir| + 1 + |segment| < |path|
    ensures Find(path[|dir|..], ';') == 1 + |segment|
    ensures path[..|dir| + 1 + |segment|] == dir + "/" + segment
    ensures path[|dir| + 1 + |segment| + 1..] == params
  {
    assert path[|dir|..] == ("/" + segment) + [';'] + params;
    FindSeparator("/" + segment, ';', params);
  }

  /** The last `/` of `dir + "/" + rest` is the one after `dir` when `rest`
      holds none. */
  lemma LastSlashAt(dir: string, rest: string)
    requires '/' !in rest
    ensures var path := dir + "/" + rest; '/' in path && FindLast(path, '/') == |dir|
  {
    var path := dir + "/" + rest;
    assert path[|dir|] == '/';
  }
}
