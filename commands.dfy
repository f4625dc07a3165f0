/** The small parsing helpers of the chat commands: integer arguments,
    configuration integers, the cron argument and the scheduler job id. */
module Commands {
  import opened Wrappers
  import opened PyText
  import opened DataHandling
  import opened Cron

  /** `_to_int(raw, default, min_value)`: `int(raw)`, the default when that
      raises, and never below `min_value`. */
  function ToInt(raw: Json, default: int, minValue: int): (r: int)
    ensures r >= minValue
    ensures PyInt(raw).Ok? && PyInt(raw).value >= minValue ==> r == PyInt(raw).value
    ensures PyInt(raw).Ok? && PyInt(raw).value < minValue ==> r == minValue
    ensures PyInt(raw).Err? && default >= minValue ==> r == default
    ensures PyInt(raw).Err? && default < minValue ==> r == minValue
  {
    var value := if PyInt(raw).Ok? then PyInt(raw).value else default;
    if value < minValue then minValue else value
  }

  /** A configured integer written as a string is read back as that
      integer, and a missing one (`None`) gives the default. */
  lemma ToIntOfString(n: int, default: int, minValue: int)
    requires n >= minValue && default >= minValue
    ensures ToInt(JStr(IntString(n)), default, minValue) == n
    ensures ToInt(JNull, default, minValue) == default
  {
    IntStringRoundTrip(n);
  }

  /** `_parse_index(value)`: a non-negative integer, `None` for anything
      else. */
  function ParseIndex(value: string): (r: Option<nat>)
    ensures r.Some? ==> ParseInt(value) == Some(r.value as int)
    ensures r.None? ==> ParseInt(value).None? || ParseInt(value).value < 0
  {
    match ParseInt(value)
    case Some(i) => if i >= 0 then Some(i) else None
    case None => None
  }

  /** `_parse_positive_int(value)`: a positive integer, `None` for anything
      else. */
  function ParsePositiveInt(value: string): (r: Option<nat>)
    ensures r.Some? ==> r.value > 0 && ParseInt(value) == Some(r.value as int)
    ensures r.None? ==> ParseInt(value).None? || ParseInt(value).value <= 0
  {
    match ParseInt(value)
    case Some(i) => if i > 0 then Some(i) else None
    case None => None
  }

  /** The index printed by the list command reads back as itself; a
      negative one is refused. */
  lemma ParseIndexDecimal(n: nat)
    ensures ParseIndex(DecimalString(n)) == Some(n)
    ensures n > 0 ==> ParseIndex("-" + DecimalString(n)) == None
  {
    ParseDecimalString(n);
    ParseNegativeDecimalString(n);
  }

  /** A positive count reads back as itself; zero is refused. */
  lemma ParsePositiveIntDecimal(n: nat)
    ensures ParsePositiveInt(DecimalString(n)) == if n > 0 then Some(n) else None
  {
    ParseDecimalString(n);
  }

  /** The cron expression of `add` and `change`: the arguments after the
      first, joined by spaces and trimmed; the default when there are none
      or they are blank. */
  function CommandCron(args: seq<string>, default: string): (r: string)
    ensures |args| <= 1 ==> r == default
    ensures |args| > 1 && Strip(JoinSpace(args[1..])) != "" ==> r == Strip(JoinSpace(args[1..]))
    ensures |args| > 1 && Strip(JoinSpace(args[1..])) == "" ==> r == default
    ensures r == default || (r != "" && IsStripped(r))
  {
    var given := if |args| > 1 then Strip(JoinSpace(args[1..])) else default;
    if given == "" then default else given
  }

  /** A cron expression given as several whitespace-free arguments (the
      way the chat splits the command line) is those arguments joined by
      single spaces, and its tokens are the arguments again: each argument
      becomes one cron field. */
  lemma CommandCronFields(first: string, fields: seq<string>, default: string)
    requires |fields| >= 1
    requires forall k :: 0 <= k < |fields| ==> fields[k] != "" && NoSpace(fields[k])
    ensures CommandCron([first] + fields, default) == JoinSpace(fields)
    ensures CronTokens(CommandCron([first] + fields, default)) == fields
  {
    var args := [first] + fields;
    assert args[1..] == fields;
    JoinedStripped(fields);
    forall k | 0 <= k < |fields|
      ensures ' ' !in fields[k] && Strip(fields[k]) != ""
    {
      NoSpaceToken(fields[k]);
    }
    CronTokensOfJoin(fields);
  }

  lemma NoSpaceToken(t: string)
    requires t != "" && NoSpace(t)
    ensures ' ' !in t && Strip(t) != ""
  {
    assert !IsSpace(t[0]);
  }

  lemma JoinedStripped(fields: seq<string>)
    requires |fields| >= 1
    requires forall k :: 0 <= k < |fields| ==> fields[k] != "" && NoSpace(fields[k])
    ensures JoinSpace(fields) != "" && Strip(JoinSpace(fields)) == JoinSpace(fields)
  {
    var last := fields[|fields| - 1];
    JoinSpaceEnds(fields);
    assert !IsSpace(fields[0][0]) && !IsSpace(last[|last| - 1]);
    StripStripped(JoinSpace(fields));
  }

  /** No character of `s` is whitespace. */
  predicate NoSpace(s: string) {
    forall i :: 0 <= i < |s| ==> !IsSpace(s[i])
  }

  /** The space-joined form of non-empty parts starts with the first
      character of the first part and ends with the last character of the
      last one. */
  lemma {:induction false} JoinSpaceEnds(parts: seq<string>)
    requires |parts| >= 1
    requires forall k :: 0 <= k < |parts| ==> parts[k] != ""
    ensures var j := JoinSpace(parts); var last := parts[|parts| - 1];
      |j| > 0 && j[0] == parts[0][0] && j[|j| - 1] == last[|last| - 1]
  {
    if |parts| > 1 {
      JoinSpaceEnds(parts[1..]);
      var rest := JoinSpace(parts[1..]);
      assert JoinSpace(parts) == parts[0] + " " + rest;
      assert parts[1..][|parts[1..]| - 1] == parts[|parts| - 1];
    }
  }

  /** A single cron argument is used trimmed, unless it is blank. */
  lemma CommandCronSingle(first: string, expr: string, default: string)
    ensures CommandCron([first, expr], default) == if Strip(expr) == "" then default else Strip(expr)
  {
    assert [first, expr][1..] == [expr];
  }

  /** The id of the poll job of one subscription. The digest of the source
      is replaced by its input, which keeps it injective. */
  function JobId(url: string, channel: string): string {
    "rss-" + url + "|" + channel
  }

  /** Different subscriptions get different job ids as long as the URLs hold
      no `|`. */
  lemma JobIdInjective(u1: string, c1: string, u2: string, c2: string)
    requires '|' !in u1 && '|' !in u2
    requires JobId(u1, c1) == JobId(u2, c2)
    ensures u1 == u2 && c1 == c2
  {
    var s1 := u1 + "|" + c1;
    var s2 := u2 + "|" + c2;
    assert s1 == JobId(u1, c1)[4..] && s2 == JobId(u2, c2)[4..];
    assert s1 == u1 + ("|" + c1);
    assert s2 == u2 + ("|" + c2);
    FindAppend(u1, "|" + c1, '|');
    FindAppend(u2, "|" + c2, '|');
    assert u1 == s1[..|u1|] && u2 == s2[..|u2|];
    assert c1 == s1[|u1| + 1..] && c2 == s2[|u2| + 1..];
  }

  /** With a `|` in the URL two subscriptions can share a job id. */
  lemma JobIdCollision()
    ensures JobId("a|b", "c") == JobId("a", "b|c")
  {
  }
}
