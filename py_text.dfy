/** The parts of Python's string built-ins that the plugin leans on:
    `str.isspace`, `str.strip()`, `str.split(" ")`, `" ".join`, slicing
    and `int(str)` in base 10. Strings are sequences of Unicode scalar values,
    as Python's `str` is a sequence of code points. */
module PyText {
  import opened Wrappers

  /** `c.isspace()`: the characters Python's argument-less `strip()` removes. */
  predicate IsSpace(c: char) {
    || c == ' '
    || '\t' <= c <= '\r'
    || '\U{1C}' <= c <= '\U{1F}'
    || c == '\U{85}' || c == '\U{A0}' || c == '\U{1680}'
    || '\U{2000}' <= c <= '\U{200A}'
    || c == '\U{2028}' || c == '\U{2029}' || c == '\U{202F}' || c == '\U{205F}' || c == '\U{3000}'
  }

  predicate AllSpace(s: string) {
    forall i :: 0 <= i < |s| ==> IsSpace(s[i])
  }

  /** Neither starts nor ends with whitespace. */
  predicate IsStripped(s: string) {
    s == [] || (!IsSpace(s[0]) && !IsSpace(s[|s| - 1]))
  }

  /** How many leading characters `strip` drops: the length of the
      whitespace run at the start. */
  function StripOffset(s: string): (o: nat)
    ensures o <= |s|
    ensures o < |s| ==> !IsSpace(s[o])
    ensures forall i :: 0 <= i < o ==> IsSpace(s[i])
  {
    if s == [] || !IsSpace(s[0]) then 0
    else
      var o := StripOffset(s[1..]);
      assert forall i :: 1 <= i < 1 + o ==> s[i] == s[1..][i - 1];
      1 + o
  }

  /** Where the text `strip` keeps ends: the start of the whitespace run at
      the end. */
  function StripLimit(s: string): (e: nat)
    ensures e <= |s|
    ensures e > 0 ==> !IsSpace(s[e - 1])
    ensures forall i :: e <= i < |s| ==> IsSpace(s[i])
  {
    if s == [] || !IsSpace(s[|s| - 1]) then |s|
    else
      var init := s[..|s| - 1];
      var e := StripLimit(init);
      assert forall i :: e <= i < |init| ==> s[i] == init[i];
      e
  }

  /** `s.strip()`: the longest stretch of `s` that neither starts nor ends
      with whitespace; it is empty exactly when `s` is all whitespace, and
      everything cut off is whitespace. */
  function Strip(s: string): (r: string)
    ensures IsStripped(r)
    ensures StripOffset(s) + |r| <= |s|
    ensures r == s[StripOffset(s)..StripOffset(s) + |r|]
    ensures r == [] <==> AllSpace(s)
    ensures forall i :: 0 <= i < StripOffset(s) ==> IsSpace(s[i])
    ensures forall i :: StripOffset(s) + |r| <= i < |s| ==> IsSpace(s[i])
  {
    var o := StripOffset(s);
    var e := StripLimit(s);
    if e <= o then
      assert AllSpace(s) by {
        forall i | 0 <= i < |s| ensures IsSpace(s[i]) {
          if i >= o {
            assert i >= e;
          }
        }
      }
      []
    else
      assert !AllSpace(s) by {
        assert !IsSpace(s[o]);
      }
      s[o..e]
  }

  lemma StripStripped(s: string)
    requires IsStripped(s)
    ensures Strip(s) == s
  {
  }

  lemma StripIdempotent(s: string)
    ensures Strip(Strip(s)) == Strip(s)
  {
    StripStripped(Strip(s));
  }

  /** `s[:n]` for `n >= 0`: at most the first `n` characters. */
  function Prefix<T>(s: seq<T>, n: nat): (r: seq<T>)
    ensures |r| == if |s| <= n then |s| else n
    ensures r == s[..|r|]
  {
    if |s| <= n then s else s[..n]
  }

  /** The index of the first `c` in `s`, `|s|` when there is none (where
      `s.find(c)` gives -1). */
  function Find(s: string, c: char): (i: nat)
    ensures i <= |s|
    ensures c !in s[..i]
    ensures i < |s| <==> c in s
    ensures i < |s| ==> s[i] == c
  {
    if s == [] then 0
    else if s[0] == c then 0
    else
      var i := 1 + Find(s[1..], c);
      assert s[..i] == [s[0]] + s[1..][..i - 1];
      i
  }

  /** Searching past a stretch without the character. */
  lemma {:induction false} FindAppend(a: string, b: string, c: char)
    requires c !in a
    ensures Find(a + b, c) == |a| + Find(b, c)
  {
    if a != [] {
      assert (a + b)[0] == a[0];
      assert (a + b)[1..] == a[1..] + b;
      FindAppend(a[1..], b, c);
    } else {
      assert a + b == b;
    }
  }

  /** The first `sep` of `a + [sep] + b` when `a` holds none: the parts
      before and after it are `a` and `b`. */
  lemma FindSeparator(a: string, sep: char, b: string)
    requires sep !in a
    ensures var u := a + [sep] + b; Find(u, sep) == |a| && u[..|a|] == a && u[|a| + 1..] == b
  {
    assert a + [sep] + b == a + ([sep] + b);
    FindAppend(a, [sep] + b, sep);
  }

  /** Case-insensitive regular-expression matching of `c` against the
      lower-case ASCII letter `lower`: its upper-case form also matches, and
      Unicode case folding adds the long s for `s` and the Kelvin sign for
      `k`. */
  predicate MatchesIgnoreCase(c: char, lower: char)
    requires 'a' <= lower <= 'z'
  {
    || c == lower
    || c as int == lower as int - 32
    || (lower == 's' && c == '\U{17F}')
    || (lower == 'k' && c == '\U{212A}')
  }

  // ---------------------------------------------------------------------
  // str.split(" ") and " ".join

  /** `s.split(" ")`: the pieces between single spaces, empty pieces kept. */
  function SplitSpace(s: string): (r: seq<string>)
    ensures |r| >= 1
  {
    if s == [] then [""]
    else if s[0] == ' ' then [""] + SplitSpace(s[1..])
    else
      var rest := SplitSpace(s[1..]);
      [[s[0]] + rest[0]] + rest[1..]
  }

  /** `" ".join(parts)` */
  function JoinSpace(parts: seq<string>): string {
    if parts == [] then ""
    else if |parts| == 1 then parts[0]
    else parts[0] + " " + JoinSpace(parts[1..])
  }

  lemma {:induction false} SplitSpacePieces(s: string)
    ensures forall k :: 0 <= k < |SplitSpace(s)| ==> ' ' !in SplitSpace(s)[k]
  {
    if s != [] {
      SplitSpacePieces(s[1..]);
    }
  }

  /** Splitting undoes joining: `" ".join(s.split(" ")) == s`. */
  lemma {:induction false} JoinSplitSpace(s: string)
    ensures JoinSpace(SplitSpace(s)) == s
  {
    if s != [] {
      JoinSplitSpace(s[1..]);
      var rest := SplitSpace(s[1..]);
      if s[0] != ' ' {
        if |rest| > 1 {
          assert rest == [rest[0]] + rest[1..];
          assert JoinSpace(rest) == rest[0] + " " + JoinSpace(rest[1..]);
          assert [[s[0]] + rest[0]] + rest[1..] == [[s[0]] + rest[0]] + rest[1..];
        }
      }
    }
  }

  /** Joining undoes splitting when no part holds a space. */
  lemma {:induction false} SplitJoinSpace(parts: seq<string>)
    requires |parts| >= 1
    requires forall k :: 0 <= k < |parts| ==> ' ' !in parts[k]
    ensures SplitSpace(JoinSpace(parts)) == parts
  {
    if |parts| == 1 {
      SplitNoSpace(parts[0]);
    } else {
      SplitJoinSpace(parts[1..]);
      SplitAtSpace(parts[0], JoinSpace(parts[1..]));
      SplitNoSpace(parts[0]);
      assert parts == [parts[0]] + parts[1..];
    }
  }

  lemma {:induction false} SplitNoSpace(s: string)
    requires ' ' !in s
    ensures SplitSpace(s) == [s]
  {
    if s != [] {
      SplitNoSpace(s[1..]);
      assert [s[0]] + s[1..] == s;
    }
  }

  /** A space separates the pieces of its two sides. */
  lemma {:induction false} SplitAtSpace(p: string, q: string)
    ensures SplitSpace(p + " " + q) == SplitSpace(p) + SplitSpace(q)
  {
    var s := p + " " + q;
    if p == [] {
      assert s[1..] == q;
    } else {
      SplitAtSpace(p[1..], q);
      assert s[1..] == p[1..] + " " + q;
      SplitCons(p[0], p[1..], s[1..], SplitSpace(q));
      assert [p[0]] + p[1..] == p;
      assert [s[0]] + s[1..] == s;
    }
  }

  /** Putting one more character in front of two strings whose pieces agree
      up to a common tail keeps them agreeing. */
  lemma SplitCons(c: char, t: string, u: string, tail: seq<string>)
    requires SplitSpace(u) == SplitSpace(t) + tail
    ensures SplitSpace([c] + u) == SplitSpace([c] + t) + tail
  {
    var rest := SplitSpace(t);
    var x := SplitSpace(u);
    assert ([c] + u)[1..] == u;
    assert ([c] + t)[1..] == t;
    if c != ' ' {
      assert x[0] == rest[0];
      assert x[1..] == rest[1..] + tail;
    }
  }

  // ---------------------------------------------------------------------
  // int(str) in base 10

  predicate IsDigit(c: char) {
    '0' <= c <= '9'
  }

  function DigitValue(c: char): nat
    requires IsDigit(c)
  {
    (c as int) - ('0' as int)
  }

  function DigitChar(d: nat): (c: char)
    requires d < 10
    ensures IsDigit(c) && DigitValue(c) == d
  {
    ('0' as int + d) as char
  }

  /** Decimal digits, with single underscores allowed between two digits. */
  predicate IsDigitGroup(s: string) {
    && |s| > 0
    && IsDigit(s[0]) && IsDigit(s[|s| - 1])
    && (forall i :: 0 <= i < |s| ==> IsDigit(s[i]) || s[i] == '_')
    && (forall i :: 0 <= i < |s| - 1 ==> s[i] == '_' ==> s[i + 1] != '_')
  }

  /** The value of a digit group, underscores ignored. */
  function DigitsValue(s: string): nat
    requires forall i :: 0 <= i < |s| ==> IsDigit(s[i]) || s[i] == '_'
  {
    if s == [] then 0
    else if s[|s| - 1] == '_' then DigitsValue(s[..|s| - 1])
    else 10 * DigitsValue(s[..|s| - 1]) + DigitValue(s[|s| - 1])
  }

  /** `int(s)` for a `str`: surrounding whitespace ignored, an optional sign,
      then a digit group. `None` stands for the `ValueError` Python raises. */
  function ParseInt(s: string): (r: Option<int>)
    ensures r.Some? ==> IsDigitGroup(SignlessBody(Strip(s)))
  {
    var t := Strip(s);
    if t == [] then None
    else
      var body := SignlessBody(t);
      if !IsDigitGroup(body) then None
      else if t[0] == '-' then Some(-(DigitsValue(body) as int))
      else Some(DigitsValue(body))
  }

  /** `t` without its leading sign, if it has one. */
  function SignlessBody(t: string): string {
    if t != [] && (t[0] == '-' || t[0] == '+') then t[1..] else t
  }

  /** `str(n)` for a natural number. */
  function DecimalString(n: nat): (s: string)
    ensures |s| > 0 && forall i :: 0 <= i < |s| ==> IsDigit(s[i])
  {
    if n < 10 then [DigitChar(n)] else DecimalString(n / 10) + [DigitChar(n % 10)]
  }

  lemma {:induction false} DecimalStringValue(n: nat)
    ensures DigitsValue(DecimalString(n)) == n
  {
    if n >= 10 {
      DecimalStringValue(n / 10);
      var s := DecimalString(n);
      assert s[..|s| - 1] == DecimalString(n / 10);
    }
  }

  /** `int(str(n)) == n` */
  lemma ParseDecimalString(n: nat)
    ensures ParseInt(DecimalString(n)) == Some(n)
  {
    var s := DecimalString(n);
    StripStripped(s);
    assert SignlessBody(s) == s;
    assert IsDigitGroup(s);
    DecimalStringValue(n);
  }

  /** `int("-" + str(n)) == -n` */
  lemma ParseNegativeDecimalString(n: nat)
    ensures ParseInt("-" + DecimalString(n)) == Some(-(n as int))
  {
    var d := DecimalString(n);
    var s := "-" + d;
    assert s[0] == '-' && s[|s| - 1] == d[|d| - 1];
    StripStripped(s);
    assert SignlessBody(s) == d;
    assert IsDigitGroup(d);
    DecimalStringValue(n);
  }
}
