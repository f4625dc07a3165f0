/** Cron expression handling: splitting a 5- or 6-field expression into
    named trigger fields, day-of-week aliasing, and validation. The field
    contents themselves are checked by the scheduler's cron trigger, which is
    not part of this model: it enters as a function from the named fields to
    an optional error message. */
module Cron {
  import opened Wrappers
  import opened PyText

  /** The keyword arguments handed to the cron trigger. `second` is present
      only for a 6-field expression. */
  datatype CronFields = CronFields(
    second: Option<string>,
    minute: string,
    hour: string,
    day: string,
    month: string,
    dayOfWeek: string)

  /** The scheduler's own check of the field contents: `None` when it accepts
      them, `Some(message)` when constructing the trigger raises. */
  type TriggerCheck = CronFields -> Option<string>

  /** The message of the error raised for a wrong field count. */
  const FieldCountError: string := "cron 仅支持 5 或 6 段"

  /** Day-of-week aliasing: the two whole-week ranges become `*` and Sunday
      written as `7` becomes `0`. The result is trimmed and never one of the
      aliases again. */
  function NormalizeDayOfWeek(value: string): (r: string)
    ensures IsStripped(r)
    ensures r != "0-7" && r != "1-7" && r != "7"
  {
    var day := Strip(value);
    if day == "0-7" || day == "1-7" then "*"
    else if day == "7" then "0"
    else day
  }

  lemma DayOfWeekWholeWeek(value: string)
    requires Strip(value) == "0-7" || Strip(value) == "1-7"
    ensures NormalizeDayOfWeek(value) == "*"
  {
  }

  lemma DayOfWeekSunday(value: string)
    requires Strip(value) == "7"
    ensures NormalizeDayOfWeek(value) == "0"
  {
  }

  /** Every other value only loses its surrounding whitespace. */
  lemma DayOfWeekOther(value: string)
    requires Strip(value) !in {"0-7", "1-7", "7"}
    ensures NormalizeDayOfWeek(value) == Strip(value)
  {
  }

  lemma DayOfWeekIdempotent(value: string)
    ensures NormalizeDayOfWeek(NormalizeDayOfWeek(value)) == NormalizeDayOfWeek(value)
  {
    var r := NormalizeDayOfWeek(value);
    StripStripped(r);
  }

  // ---------------------------------------------------------------------
  // Tokens and fields

  /** The pieces that hold something other than whitespace (those whose
      `strip()` is not empty), in order. */
  function NonBlank(pieces: seq<string>): (r: seq<string>)
    ensures |r| <= |pieces|
    ensures forall k :: 0 <= k < |r| ==> !AllSpace(r[k])
  {
    if pieces == [] then []
    else if !AllSpace(pieces[0]) then [pieces[0]] + NonBlank(pieces[1..])
    else NonBlank(pieces[1..])
  }

  lemma {:induction false} NonBlankAppend(a: seq<string>, b: seq<string>)
    ensures NonBlank(a + b) == NonBlank(a) + NonBlank(b)
  {
    if a != [] {
      NonBlankAppend(a[1..], b);
      var ab := a + b;
      assert ab[1..] == a[1..] + b;
      assert ab[0] == a[0];
      if !AllSpace(a[0]) {
        assert NonBlank(ab) == [a[0]] + NonBlank(a[1..] + b);
        assert NonBlank(a) == [a[0]] + NonBlank(a[1..]);
      }
    } else {
      assert a + b == b;
    }
  }

  /** The expression split on single spaces, whitespace-only pieces dropped. */
  function CronTokens(expr: string): seq<string> {
    NonBlank(SplitSpace(expr))
  }

  /** A 5-field expression fills minute to day-of-week; a 6-field one starts
      with the seconds. Each field is its token verbatim except the day of
      the week, which is normalized. Any other count raises. */
  function ParseCronExpr(expr: string): (r: Result<CronFields>)
    ensures var n := |CronTokens(expr)|; r.Ok? <==> n == 5 || n == 6
    ensures r.Err? ==> r.msg == FieldCountError
    ensures r.Ok? ==>
      var f := r.value;
      var t := CronTokens(expr);
      var k := |t| - 5;
      && (f.second.Some? <==> k == 1)
      && (f.second.Some? ==> f.second.value == t[0])
      && f.minute == t[k] && f.hour == t[k + 1] && f.day == t[k + 2] && f.month == t[k + 3]
      && f.dayOfWeek == NormalizeDayOfWeek(t[k + 4])
  {
    var fields := CronTokens(expr);
    if |fields| == 5 then
      Ok(CronFields(None, fields[0], fields[1], fields[2], fields[3], NormalizeDayOfWeek(fields[4])))
    else if |fields| == 6 then
      Ok(CronFields(Some(fields[0]), fields[1], fields[2], fields[3], fields[4], NormalizeDayOfWeek(fields[5])))
    else
      Err(FieldCountError)
  }

  /** Tokens that are non-blank and hold no space come back from their
      space-joined form unchanged. */
  lemma CronTokensOfJoin(tokens: seq<string>)
    requires |tokens| >= 1
    requires forall k :: 0 <= k < |tokens| ==> ' ' !in tokens[k] && Strip(tokens[k]) != ""
    ensures CronTokens(JoinSpace(tokens)) == tokens
  {
    SplitJoinSpace(tokens);
    NonBlankAll(tokens);
  }

  lemma {:induction false} NonBlankAll(pieces: seq<string>)
    requires forall k :: 0 <= k < |pieces| ==> Strip(pieces[k]) != ""
    ensures NonBlank(pieces) == pieces
  {
    if pieces != [] {
      NonBlankAll(pieces[1..]);
    }
  }

  /** A doubled space separates tokens like a single one: runs of spaces do
      not change the field count or the fields. */
  lemma RepeatedSpace(p: string, q: string)
    ensures CronTokens(p + "  " + q) == CronTokens(p + " " + q)
  {
    assert p + "  " + q == p + " " + (" " + q);
    SplitAtSpace(p, " " + q);
    SplitAtSpace(p, q);
    SplitAtSpace("", q);
    assert "" + " " + q == " " + q;
    NonBlankAppend(SplitSpace(p), SplitSpace(" " + q));
    NonBlankAppend(SplitSpace(p), SplitSpace(q));
    NonBlankAppend([""], SplitSpace(q));
  }

  /** Five plain fields joined by spaces parse into minute, hour, day, month
      and day of week, with no seconds field. */
  lemma ParseFiveFields(minute: string, hour: string, day: string, month: string, dow: string)
    requires forall t :: t in [minute, hour, day, month, dow] ==> ' ' !in t && Strip(t) != ""
    ensures ParseCronExpr(JoinSpace([minute, hour, day, month, dow]))
         == Ok(CronFields(None, minute, hour, day, month, NormalizeDayOfWeek(dow)))
  {
    var ts := [minute, hour, day, month, dow];
    assert forall k :: 0 <= k < |ts| ==> ts[k] in ts;
    CronTokensOfJoin(ts);
  }

  /** With six fields the first is the seconds and the rest shift by one. */
  lemma ParseSixFields(second: string, minute: string, hour: string, day: string, month: string, dow: string)
    requires forall t :: t in [second, minute, hour, day, month, dow] ==> ' ' !in t && Strip(t) != ""
    ensures ParseCronExpr(JoinSpace([second, minute, hour, day, month, dow]))
         == Ok(CronFields(Some(second), minute, hour, day, month, NormalizeDayOfWeek(dow)))
  {
    var ts := [second, minute, hour, day, month, dow];
    assert forall k :: 0 <= k < |ts| ==> ts[k] in ts;
    CronTokensOfJoin(ts);
  }

  // ---------------------------------------------------------------------
  // Validation

  /** The `(ok, message)` pair of the validator. */
  datatype Validation = Validation(ok: bool, message: string)

  /** Parses, then lets the trigger check the fields; any error makes the
      expression invalid and its message is returned. */
  function ValidateCronExpr(expr: string, check: TriggerCheck): (r: Validation)
    ensures r.ok <==> ParseCronExpr(expr).Ok? && check(ParseCronExpr(expr).value).None?
    ensures r.ok ==> r.message == ""
    ensures ParseCronExpr(expr).Err? ==> r.message == FieldCountError
  {
    match ParseCronExpr(expr)
    case Err(msg) => Validation(false, msg)
    case Ok(fields) =>
      match check(fields)
      case Some(msg) => Validation(false, msg)
      case None => Validation(true, "")
  }

  /** A wrong field count is rejected whatever the trigger would accept. */
  lemma WrongFieldCountInvalid(expr: string, check: TriggerCheck)
    requires |CronTokens(expr)| != 5 && |CronTokens(expr)| != 6
    ensures ValidateCronExpr(expr, check) == Validation(false, FieldCountError)
  {
  }
}
