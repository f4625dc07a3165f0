/** Turning an entry's HTML summary into plain text, one rewrite after the
    other, in the order the feed reader applies them:
      1. the line-break pattern (a `<br` followed by a literal backslash,
         any number of `s`, an optional `/` and `>`; case-insensitive) becomes
         a newline -- an ordinary `<br>` does not match it;
      2. every `<...>` tag is deleted (so `<br>` disappears without a newline);
      3. HTML entities are unescaped (the entity table is not modelled: the
         unescaper enters as a function);
      4. carriage returns are deleted;
      5. runs of three or more newlines become two;
      6. runs of two or more spaces or tabs become one space;
      7. surrounding whitespace is stripped. */
module HtmlText {
  import opened PyText

  // ---------------------------------------------------------------------
  // 1. <br\ ... > to newline

  /** The letters of the pattern, matched case-insensitively. */
  predicate IsB(c: char) { MatchesIgnoreCase(c, 'b') }
  predicate IsR(c: char) { MatchesIgnoreCase(c, 'r') }
  predicate IsS(c: char) { MatchesIgnoreCase(c, 's') }

  /** The number of leading `s` letters. */
  function SRun(s: string): (n: nat)
    ensures n <= |s|
    ensures forall i :: 0 <= i < n ==> IsS(s[i])
    ensures n < |s| ==> !IsS(s[n])
  {
    if s != [] && IsS(s[0]) then 1 + SRun(s[1..]) else 0
  }

  /** The length of the match of the line-break pattern at the start of
      `s`, or 0: `<`, `b`, `r`, a backslash, any number of `s`, an optional
      `/`, then `>`. */
  function BrMatch(s: string): (n: nat)
    ensures n <= |s|
    ensures n > 0 ==> n >= 5 && s[0] == '<' && IsB(s[1]) && IsR(s[2]) && s[3] == '\\' && s[n - 1] == '>'
  {
    if |s| >= 4 && s[0] == '<' && IsB(s[1]) && IsR(s[2]) && s[3] == '\\' then
      var k := 4 + SRun(s[4..]);
      if k < |s| && s[k] == '>' then k + 1
      else if k + 1 < |s| && s[k] == '/' && s[k + 1] == '>' then k + 2
      else 0
    else 0
  }

  /** Step 1: every match, scanning left to right, becomes `"\n"`. */
  function BrToNewline(s: string): string
    decreases |s|
  {
    if s == [] then []
    else
      var n := BrMatch(s);
      if n > 0 then "\n" + BrToNewline(s[n..]) else [s[0]] + BrToNewline(s[1..])
  }

  // ---------------------------------------------------------------------
  // 2. delete tags

  /** The length of the match of `<[^>]+>` at the start of `s`, or 0: a `<`,
      at least one character other than `>`, then the first `>`. */
  function TagMatch(s: string): (n: nat)
    ensures n <= |s|
    ensures n > 0 ==> n >= 3 && s[0] == '<' && s[n - 1] == '>'
    ensures n > 0 ==> forall j :: 1 <= j < n - 1 ==> s[j] != '>'
  {
    if s != [] && s[0] == '<' then
      var j := Find(s[1..], '>');
      if 0 < j < |s| - 1 then j + 2 else 0
    else 0
  }

  /** Step 2: every tag, scanning left to right, is deleted. */
  function DropTags(s: string): string
    decreases |s|
  {
    if s == [] then []
    else
      var n := TagMatch(s);
      if n > 0 then DropTags(s[n..]) else [s[0]] + DropTags(s[1..])
  }

  // ---------------------------------------------------------------------
  // 4. delete carriage returns

  function DropCarriageReturns(s: string): (r: string)
    ensures '\r' !in r
    ensures forall c :: c in r ==> c in s
  {
    if s == [] then []
    else if s[0] == '\r' then DropCarriageReturns(s[1..])
    else [s[0]] + DropCarriageReturns(s[1..])
  }

  // ---------------------------------------------------------------------
  // 5. collapse newline runs

  /** No three newlines in a row. */
  predicate NoTripleNewline(s: string) {
    forall i :: 0 <= i < |s| - 2 ==> !(s[i] == '\n' && s[i + 1] == '\n' && s[i + 2] == '\n')
  }

  /** The number of leading characters satisfying `p`. */
  function RunLength(s: string, p: char -> bool): (n: nat)
    ensures n <= |s|
    ensures forall i :: 0 <= i < n ==> p(s[i])
    ensures n < |s| ==> !p(s[n])
  {
    if s != [] && p(s[0]) then 1 + RunLength(s[1..], p) else 0
  }

  /** Putting a character in front adds no triple unless it is a newline
      in front of two newlines. */
  lemma NoTripleCons(c: char, b: string)
    requires NoTripleNewline(b)
    requires !(c == '\n' && |b| >= 2 && b[0] == '\n' && b[1] == '\n')
    ensures NoTripleNewline([c] + b)
  {
    var s := [c] + b;
    forall i | 0 <= i < |s| - 2
      ensures !(s[i] == '\n' && s[i + 1] == '\n' && s[i + 2] == '\n')
    {
      if i > 0 {
        assert s[i] == b[i - 1] && s[i + 1] == b[i] && s[i + 2] == b[i + 1];
      }
    }
  }

  /** A short run of newlines followed by text that does not start with a
      newline adds no triple. */
  lemma NoTripleAfterRun(a: string, b: string)
    requires |a| <= 2 && NoTripleNewline(b)
    requires b == [] || b[0] != '\n'
    ensures NoTripleNewline(a + b)
  {
    var s := a + b;
    forall i | 0 <= i < |s| - 2
      ensures !(s[i] == '\n' && s[i + 1] == '\n' && s[i + 2] == '\n')
    {
      if i >= |a| {
        assert s[i] == b[i - |a|] && s[i + 1] == b[i - |a| + 1] && s[i + 2] == b[i - |a| + 2];
      } else {
        assert s[|a|] == b[0];
      }
    }
  }

  /** Step 5: each maximal run of three or more newlines becomes exactly two;
      shorter runs stay. */
  function CollapseNewlines(s: string): (r: string)
    ensures NoTripleNewline(r)
    ensures s == [] ==> r == []
    ensures s != [] && s[0] != '\n' ==> r != [] && r[0] == s[0]
    ensures '\r' !in s ==> '\r' !in r
    decreases |s|
  {
    if s == [] then []
    else if s[0] != '\n' then
      var rest := CollapseNewlines(s[1..]);
      NoTripleCons(s[0], rest);
      [s[0]] + rest
    else
      var n := RunLength(s, c => c == '\n');
      var run := if n >= 3 then "\n\n" else s[..n];
      var rest := CollapseNewlines(s[n..]);
      NoTripleAfterRun(run, rest);
      assert forall i :: 0 <= i < |run| ==> run[i] == '\n';
      run + rest
  }

  // ---------------------------------------------------------------------
  // 6. collapse space and tab runs

  predicate IsHSpace(c: char) { c == ' ' || c == '\t' }

  /** No two spaces or tabs in a row. */
  predicate NoDoubleHSpace(s: string) {
    forall i :: 0 <= i < |s| - 1 ==> !(IsHSpace(s[i]) && IsHSpace(s[i + 1]))
  }

  /** Step 6: each maximal run of two or more spaces or tabs becomes one
      space; a lone space or tab stays. */
  function CollapseHSpace(s: string): (r: string)
    ensures NoDoubleHSpace(r)
    ensures s == [] <==> r == []
    ensures s != [] ==> (IsHSpace(r[0]) <==> IsHSpace(s[0]))
    ensures s != [] && !IsHSpace(s[0]) ==> r[0] == s[0]
    decreases |s|
  {
    if s == [] then []
    else if !IsHSpace(s[0]) then
      [s[0]] + CollapseHSpace(s[1..])
    else
      var n := RunLength(s, IsHSpace);
      var run := if n >= 2 then " " else s[..1];
      run + CollapseHSpace(s[n..])
  }

  /** Collapsing blanks neither creates three newlines in a row nor brings
      back a carriage return. */
  lemma {:induction false} CollapseHSpaceKeeps(s: string)
    ensures NoTripleNewline(s) ==> NoTripleNewline(CollapseHSpace(s))
    ensures '\r' !in s ==> '\r' !in CollapseHSpace(s)
    // two leading newlines of the result are two leading newlines of the input
    ensures var r := CollapseHSpace(s);
      |r| >= 2 && r[0] == '\n' && r[1] == '\n' ==> |s| >= 2 && s[0] == '\n' && s[1] == '\n'
    decreases |s|
  {
    if s != [] {
      var r := CollapseHSpace(s);
      if !IsHSpace(s[0]) {
        var rest := CollapseHSpace(s[1..]);
        CollapseHSpaceKeeps(s[1..]);
        assert r == [s[0]] + rest;
        if NoTripleNewline(s) {
          NoTripleSuffixAt(s, 1);
          NoTripleCons(s[0], rest);
        }
        if '\r' !in s {
          assert '\r' !in s[1..];
        }
      } else {
        var n := RunLength(s, IsHSpace);
        var run := if n >= 2 then " " else s[..1];
        var rest := CollapseHSpace(s[n..]);
        CollapseHSpaceKeeps(s[n..]);
        assert r == run + rest && |run| == 1 && run[0] != '\n' && run[0] != '\r';
        if NoTripleNewline(s) {
          NoTripleSuffixAt(s, n);
          NoTripleCons(run[0], rest);
          assert [run[0]] == run;
        }
        if '\r' !in s {
          assert '\r' !in s[n..];
        }
      }
    }
  }

  lemma NoTripleSuffixAt(s: string, n: nat)
    requires n <= |s| && NoTripleNewline(s)
    ensures NoTripleNewline(s[n..])
  {
    var t := s[n..];
    forall i | 0 <= i < |t| - 2 ensures !(t[i] == '\n' && t[i + 1] == '\n' && t[i + 2] == '\n') {
      assert t[i] == s[n + i] && t[i + 1] == s[n + i + 1] && t[i + 2] == s[n + i + 2];
    }
  }

  // ---------------------------------------------------------------------
  // the whole chain

  /** The plain text of an HTML summary. `unescape` stands for the HTML
      entity decoder. */
  function StripHtml(html: string, unescape: string -> string): (r: string)
    ensures '\r' !in r
    ensures NoTripleNewline(r)
    ensures NoDoubleHSpace(r)
    ensures IsStripped(r)
  {
    var t1 := BrToNewline(html);
    var t2 := DropTags(t1);
    var t3 := unescape(t2);
    var t4 := DropCarriageReturns(t3);
    var t5 := CollapseNewlines(t4);
    var t6 := CollapseHSpace(t5);
    var r := Strip(t6);
    CollapseHSpaceKeeps(t5);
    StripKeepsShape(t6);
    r
  }

  /** Stripping cuts a stretch out of the middle, which keeps every
      "nothing of this kind in a row" property. */
  lemma StripKeepsShape(s: string)
    ensures '\r' !in s ==> '\r' !in Strip(s)
    ensures NoTripleNewline(s) ==> NoTripleNewline(Strip(s))
    ensures NoDoubleHSpace(s) ==> NoDoubleHSpace(Strip(s))
  {
    var r := Strip(s);
    var o := StripOffset(s);
    assert r == s[o..o + |r|];
    forall i | 0 <= i < |r| ensures r[i] == s[o + i] { }
    if '\r' !in s {
      forall i | 0 <= i < |r| ensures r[i] != '\r' {
        assert r[i] == s[o + i];
      }
    }
  }

  // ---------------------------------------------------------------------
  // text that is already plain

  lemma {:induction false} NoAngleKeptByBr(s: string)
    requires '<' !in s
    ensures BrToNewline(s) == s
    decreases |s|
  {
    if s != [] {
      assert s[0] != '<' && '<' !in s[1..];
      NoAngleKeptByBr(s[1..]);
    }
  }

  lemma {:induction false} NoAngleKeptByTags(s: string)
    requires '<' !in s
    ensures DropTags(s) == s
    decreases |s|
  {
    if s != [] {
      assert s[0] != '<' && '<' !in s[1..];
      NoAngleKeptByTags(s[1..]);
    }
  }

  lemma {:induction false} NoCarriageReturnKept(s: string)
    requires '\r' !in s
    ensures DropCarriageReturns(s) == s
  {
    if s != [] {
      assert '\r' !in s[1..];
      NoCarriageReturnKept(s[1..]);
    }
  }

  /** Collapsing newline runs is idempotent: text without a triple newline
      is left as it is. */
  lemma {:induction false} CollapseNewlinesFixed(s: string)
    requires NoTripleNewline(s)
    ensures CollapseNewlines(s) == s
    decreases |s|
  {
    if s != [] {
      if s[0] != '\n' {
        NoTripleSuffixAt(s, 1);
        CollapseNewlinesFixed(s[1..]);
      } else {
        var n := RunLength(s, c => c == '\n');
        assert n <= 2 by {
          if |s| >= 3 {
            assert !(s[0] == '\n' && s[1] == '\n' && s[2] == '\n');
          }
        }
        NoTripleSuffixAt(s, n);
        CollapseNewlinesFixed(s[n..]);
        assert s[..n] + s[n..] == s;
      }
    }
  }

  /** Collapsing space runs is idempotent: text without two blanks in a row
      is left as it is. */
  lemma {:induction false} CollapseHSpaceFixed(s: string)
    requires NoDoubleHSpace(s)
    ensures CollapseHSpace(s) == s
    decreases |s|
  {
    if s != [] {
      assert NoDoubleHSpace(s[1..]) by {
        forall i | 0 <= i < |s[1..]| - 1 ensures !(IsHSpace(s[1..][i]) && IsHSpace(s[1..][i + 1])) {
          assert s[1..][i] == s[i + 1] && s[1..][i + 1] == s[i + 2];
        }
      }
      CollapseHSpaceFixed(s[1..]);
      if IsHSpace(s[0]) {
        var n := RunLength(s, IsHSpace);
        assert n == 1 by {
          if |s| >= 2 {
            assert !(IsHSpace(s[0]) && IsHSpace(s[1]));
          }
        }
        assert s[..1] + s[1..] == s;
      }
    }
  }

  /** Text that already looks like the output -- no `<`, no carriage return,
      no runs, nothing to strip, nothing the unescaper changes -- comes out
      unchanged. */
  lemma PlainTextUnchanged(s: string, unescape: string -> string)
    requires '<' !in s && '\r' !in s && unescape(s) == s
    requires NoTripleNewline(s) && NoDoubleHSpace(s) && IsStripped(s)
    ensures StripHtml(s, unescape) == s
  {
    NoAngleKeptByBr(s);
    NoAngleKeptByTags(s);
    NoCarriageReturnKept(s);
    CollapseNewlinesFixed(s);
    CollapseHSpaceFixed(s);
    StripStripped(s);
  }

  /** An ordinary line break tag is deleted by the tag rule rather than
      turned into a newline. */
  lemma PlainBrIsDeleted(unescape: string -> string)
    requires forall s :: unescape(s) == s
    ensures StripHtml("a<br>b", unescape) == "ab"
  {
    var plain := "a<br>b";
    assert BrMatch(plain[1..]) == 0;
    assert plain[1..][1..] == "br>b";
    NoAngleKeptByBr("br>b");
    assert BrToNewline(plain[1..]) == plain[1..];
    assert BrToNewline(plain) == plain;
    FindAppend("br", ">b", '>');
    assert "br" + ">b" == plain[1..][1..];
    assert TagMatch(plain[1..]) == 4;
    assert plain[1..][4..] == "b";
    assert DropTags(plain[1..]) == "b";
    assert DropTags(plain) == "ab";
    PlainTextUnchanged("ab", unescape);
  }

  /** Only the backslash form of the line break becomes a newline. */
  lemma BackslashBrIsNewline(unescape: string -> string)
    requires forall s :: unescape(s) == s
    ensures StripHtml("a<br\\>b", unescape) == "a\nb"
  {
    var slashed := "a<br\\>b";
    assert BrMatch(slashed[1..]) == 5;
    assert slashed[1..][5..] == "b";
    NoAngleKeptByBr("b");
    assert BrToNewline(slashed[1..]) == "\nb";
    assert BrToNewline(slashed) == "a\nb";
    NoAngleKeptByTags("a\nb");
    PlainTextUnchanged("a\nb", unescape);
  }
}
