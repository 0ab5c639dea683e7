/** The `gh-actions-ratelimit-check` action (`action.js`): compare the remaining GitHub API rate
    limit with a threshold and, below it, warn, fail, or wait for the rate-limit window to reset.
    The clock is a parameter (`nowMs`, `new Date().getTime()`), and the API answer is given. */
module RatelimitCheck {
  import opened Wrappers
  import opened JsStrings
  import opened ActionsCore

  /** The `core` resource of `rateLimit.get()`: requests left, the limit, and the reset time in
      seconds since the epoch. */
  datatype RateLimit = RateLimit(remaining: int, limit: int, reset: int)

  const AboveThresholdText := "Remaining rate-limit is above threshold."
  const BelowThresholdText := "Remaining rate-limit is below threshold."
  const InvalidActionTitle := "Invalid input for 'below-threshold-action'"

  predicate IsDigit(ch: char)
  {
    '0' <= ch <= '9'
  }

  /** The longest prefix of decimal digits. */
  function DigitPrefix(s: string): (d: string)
    ensures |d| <= |s| && d == s[..|d|]
    ensures forall i :: 0 <= i < |d| ==> IsDigit(d[i])
    ensures |d| < |s| ==> !IsDigit(s[|d|])
  {
    if s != [] && IsDigit(s[0]) then [s[0]] + DigitPrefix(s[1..]) else []
  }

  /** The value of a string of decimal digits. */
  function DigitsValue(d: string): nat
  {
    if d == [] then 0 else 10 * DigitsValue(d[..|d| - 1]) + ((d[|d| - 1] as int - '0' as int) % 10)
  }

  /** `parseInt(s, 10)`: leading white space skipped, an optional sign, then the longest run of
      decimal digits; `None` (NaN) when there is no digit. */
  function ParseInt(s: string): Option<int>
  {
    var t := TrimStart(s);
    var negative := t != [] && t[0] == '-';
    var body := if t != [] && (t[0] == '-' || t[0] == '+') then t[1..] else t;
    var d := DigitPrefix(body);
    var magnitude: int := DigitsValue(d);
    if d == [] then None else Some(if negative then -magnitude else magnitude)
  }

  /** Every character of a number's decimal text is a digit, and the text is never empty. */
  lemma {:induction false} NatTextDigits(n: nat)
    ensures NatToString(n) != []
    ensures forall i :: 0 <= i < |NatToString(n)| ==> IsDigit(NatToString(n)[i])
    ensures DigitsValue(NatToString(n)) == n
  {
    var digit := ['0' + (n % 10) as char];
    if n >= 10 {
      NatTextDigits(n / 10);
      var prefix := NatToString(n / 10);
      assert (prefix + digit)[..|prefix + digit| - 1] == prefix;
    }
  }

  /** A string made only of digits is its own digit prefix. */
  lemma {:induction false} AllDigitsPrefix(d: string)
    requires forall i :: 0 <= i < |d| ==> IsDigit(d[i])
    ensures DigitPrefix(d) == d
  {
    if d != [] {
      AllDigitsPrefix(d[1..]);
    }
  }

  /** `parseInt` reads back the decimal text of every integer: a threshold written as a number
      is that number. */
  lemma ParseIntRoundTrip(n: int)
    ensures ParseInt(IntToString(n)) == Some(n)
  {
    var m: nat := if n < 0 then -n else n;
    var digits := NatToString(m);
    NatTextDigits(m);
    AllDigitsPrefix(digits);
    var text := IntToString(n);
    assert text == if n < 0 then "-" + digits else digits;
    assert IsDigit(digits[0]);
    NotWhitespace(text);
    var body := if n < 0 then text[1..] else text;
    assert body == digits;
  }

  /** Text that starts with a digit or a minus sign has no leading white space. */
  lemma NotWhitespace(text: string)
    requires text != [] && (text[0] == '-' || IsDigit(text[0]))
    ensures TrimStart(text) == text
  {
  }

  /** A threshold text with no digit after the sign, such as "" or "none", is NaN. */
  lemma ParseIntNoDigits(s: string)
    requires forall i :: 0 <= i < |TrimStart(s)| ==> !IsDigit(TrimStart(s)[i])
    ensures ParseInt(s).None?
  {
    var t := TrimStart(s);
    var body := if t != [] && (t[0] == '-' || t[0] == '+') then t[1..] else t;
    if body != [] {
      assert body[0] == t[|t| - |body|];
      assert !IsDigit(body[0]);
    }
  }

  /** The run, given what `rateLimit.get()` settled to and the clock. */
  function RatelimitEffects(thresholdString: string, belowThresholdAction: string, response: Result<RateLimit>,
                            nowMs: int): Effects<()>
  {
    match response
    case Err(e) => Effects([], Err(e))
    case Ok(rateLimit) =>
      var report := Log(Info, "Remaining rate-limit: " + IntToString(rateLimit.remaining) + " / " + IntToString(rateLimit.limit));
      var threshold := ParseInt(thresholdString);
      var wait := Slept(rateLimit.reset * 1000 - nowMs);
      if threshold.Some? && rateLimit.remaining >= threshold.value then Effects([report, Log(Info, AboveThresholdText)], Ok(()))
      else if belowThresholdAction == "warning" then Effects([report, Log(Warning, BelowThresholdText)], Ok(()))
      else if belowThresholdAction == "failure" then Effects([report, Failed(BelowThresholdText)], Ok(()))
      else if belowThresholdAction == "wait" then Effects([report, Log(Notice, BelowThresholdText), wait], Ok(()))
      else
        Effects([report, Annotated(Level.Error, InvalidActionTitle + ": " + belowThresholdAction, InvalidActionTitle, None), wait], Ok(()))
  }

  /** A step that fails the job. */
  predicate IsFailure(e: Event)
  {
    e.Failed?
  }

  /** The decision: at or above the threshold the run only reports; below it (and always when the
      threshold is not a number), `warning` warns, `failure` fails the step, `wait` gives notice and
      waits until the window resets, and any other action is reported as an error and still
      waits; the wait is the reset time in milliseconds minus now. */
  lemma RatelimitContract(thresholdString: string, belowThresholdAction: string, rateLimit: RateLimit, nowMs: int)
    ensures var run := RatelimitEffects(thresholdString, belowThresholdAction, Ok(rateLimit), nowMs);
            var threshold := ParseInt(thresholdString);
            var above := threshold.Some? && rateLimit.remaining >= threshold.value;
            var slept := exists i :: 0 <= i < |run.events| && run.events[i].Slept?;
            var failed := exists i :: 0 <= i < |run.events| && IsFailure(run.events[i]);
            && run.result.Ok?
            && run.events[0] == Log(Info, "Remaining rate-limit: " + IntToString(rateLimit.remaining) + " / " + IntToString(rateLimit.limit))
            && (above ==> run.events == [run.events[0], Log(Info, "Remaining rate-limit is above threshold.")])
            && (failed <==> !above && belowThresholdAction == "failure")
            && (slept <==> !above && belowThresholdAction != "warning" && belowThresholdAction != "failure")
            && (!above && belowThresholdAction == "warning" ==> run.events[1] == Log(Warning, "Remaining rate-limit is below threshold.") && |run.events| == 2)
            && (!above && belowThresholdAction == "wait" ==> run.events[1] == Log(Notice, "Remaining rate-limit is below threshold."))
            && (!above && belowThresholdAction !in {"warning", "failure", "wait"} ==>
                  run.events[1] == Annotated(Level.Error, "Invalid input for 'below-threshold-action': " + belowThresholdAction,
                                             "Invalid input for 'below-threshold-action'", None))
            && (slept ==> run.events[|run.events| - 1] == Slept(rateLimit.reset * 1000 - nowMs))
            && (threshold.None? ==> !above)
            && Masked(run.events) == {}
  {
    var run := RatelimitEffects(thresholdString, belowThresholdAction, Ok(rateLimit), nowMs);
    var n := |run.events|;
    assert forall i :: 0 <= i < n ==> !run.events[i].Secret?;
    assert forall i :: 0 <= i < n - 1 ==> !run.events[i].Slept?;
    assert forall i :: 0 <= i < n ==> i != 1 ==> !IsFailure(run.events[i]);
    if IsFailure(run.events[1]) {
      assert exists i :: 0 <= i < n && IsFailure(run.events[i]);
    }
    if run.events[n - 1].Slept? {
      assert exists i :: 0 <= i < n && run.events[i].Slept?;
    }
  }
}
