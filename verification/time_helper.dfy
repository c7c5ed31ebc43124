/**
 * The remaining-time text that the bot logs next to every scheduled
 * execution: the signed distance to a target instant, truncated to whole
 * seconds, split into hours, minutes and seconds and printed as
 * "HHh MMm SSs", prefixed with "OVERDUE by " when the instant has passed.
 * The clock reading is an input; the IST wall-clock text is not modelled.
 */
module TimeHelper {
  import opened Wrappers
  import opened Numerals

  /** `abs(int(time_difference))`: whole seconds between now and the target. */
  function RemainingSeconds(diff: real): (r: nat)
    ensures r as real <= (if diff >= 0.0 then diff else -diff) < r as real + 1.0
  {
    var t := TruncateTowardZero(diff);
    if t >= 0 then t else -t
  }

  datatype Hms = Hms(hours: nat, minutes: nat, seconds: nat)

  /** The two `divmod` steps: by 3600, then the remainder by 60. */
  function Split(total: nat): (r: Hms)
    ensures r.hours * 3600 + r.minutes * 60 + r.seconds == total
    ensures r.minutes < 60 && r.seconds < 60
  {
    Hms(total / 3600, (total % 3600) / 60, (total % 3600) % 60)
  }

  lemma DivModUnique(n: int, d: int, q: int, r: int)
    requires d > 0 && 0 <= r < d && n == q * d + r
    ensures n / d == q && n % d == r
  {
    var q', r' := n / d, n % d;
    assert (q - q') * d == r' - r;
    if q > q' {
      MulAtLeast(q - q', d);
    } else if q < q' {
      MulAtLeast(q' - q, d);
    }
  }

  lemma MulAtLeast(a: int, d: int)
    requires a >= 1 && d > 0
    ensures a * d >= d
  {
  }

  /** Any decomposition with minutes and seconds below 60 is the one Split computes. */
  lemma SplitUnique(total: nat, h: Hms)
    requires h.hours * 3600 + h.minutes * 60 + h.seconds == total
    requires h.minutes < 60 && h.seconds < 60
    ensures Split(total) == h
  {
    DivModUnique(total, 3600, h.hours, h.minutes * 60 + h.seconds);
    DivModUnique(h.minutes * 60 + h.seconds, 60, h.minutes, h.seconds);
  }

  const OverduePrefix: string := "OVERDUE by "

  function Fields(t: Hms): string
  {
    Pad2(t.hours) + "h " + Pad2(t.minutes) + "m " + Pad2(t.seconds) + "s"
  }

  /**
   * The remaining-time text of `get_ist_time_and_remaining` for `diff = target - now`.
   * The text determines the sign of the difference and the whole seconds left.
   */
  function FormatRemaining(diff: real): (text: string)
    ensures ParseRemaining(text) == Some((diff < 0.0, RemainingSeconds(diff)))
  {
    var t := Split(RemainingSeconds(diff));
    var body := Fields(t);
    FieldsRoundTrip(t);
    if diff >= 0.0 then
      assert !HasOverduePrefix(body) by {
        if |body| >= |OverduePrefix| {
          assert body[..|OverduePrefix|][0] == body[0];
        }
      }
      body
    else
      var text := OverduePrefix + body;
      assert text[..|OverduePrefix|] == OverduePrefix;
      assert text[|OverduePrefix|..] == body;
      text
  }

  /** Reads "HHh MMm SSs" back into a number of seconds. */
  function ParseFields(body: string): Option<nat>
  {
    if |body| < 11 then None
    else
      var hours := body[..|body| - 9];
      var minutes := body[|body| - 7..|body| - 5];
      var seconds := body[|body| - 3..|body| - 1];
      if AllDigits(hours) && AllDigits(minutes) && AllDigits(seconds)
      then Some(DecimalValue(hours) * 3600 + DecimalValue(minutes) * 60 + DecimalValue(seconds))
      else None
  }

  predicate HasOverduePrefix(text: string)
  {
    |text| >= |OverduePrefix| && text[..|OverduePrefix|] == OverduePrefix
  }

  /** Reads a remaining-time text back: whether it is overdue and how many seconds it shows. */
  function ParseRemaining(text: string): Option<(bool, nat)>
  {
    var overdue := HasOverduePrefix(text);
    var fields := ParseFields(if overdue then text[|OverduePrefix|..] else text);
    if fields.Some? then Some((overdue, fields.value)) else None
  }

  lemma FieldsRoundTrip(t: Hms)
    requires t.minutes < 60 && t.seconds < 60
    ensures ParseFields(Fields(t)) == Some(t.hours * 3600 + t.minutes * 60 + t.seconds)
    ensures IsDigitChar(Fields(t)[0])
  {
    Pad2Spec(t.hours);
    Pad2Spec(t.minutes);
    Pad2Spec(t.seconds);
    var b := Fields(t);
    var n := |Pad2(t.hours)|;
    assert b == Pad2(t.hours) + ("h " + Pad2(t.minutes) + "m " + Pad2(t.seconds) + "s");
    assert b[..|b| - 9] == Pad2(t.hours);
    assert b[|b| - 7..|b| - 5] == Pad2(t.minutes);
    assert b[|b| - 3..|b| - 1] == Pad2(t.seconds);
    assert b[0] == Pad2(t.hours)[0];
  }

  /** Less than one second late still reads as overdue: truncation gives 0 but the sign test uses the raw difference. */
  lemma OverdueUnderOneSecond(diff: real)
    requires -1.0 < diff < 0.0
    ensures FormatRemaining(diff) == "OVERDUE by 00h 00m 00s"
  {
    assert RemainingSeconds(diff) == 0;
    assert Split(0) == Hms(0, 0, 0);
    assert Digits(0) == "0";
  }
}
