/**
 * Local time of day and the "HH:MM" labels of the per-minute buckets.
 *
 * A JavaScript `Date` is modelled as an integer count of milliseconds in
 * local time, so `getHours()` and `getMinutes()` are derived arithmetically
 * from the minute of the day the timestamp falls in.  Dafny's `/` and `%`
 * floor for a positive divisor, as the calendar arithmetic of `Date` does for
 * timestamps before the epoch.
 */
module TimeLabel {
  import opened Wrappers

  const MsPerMinute: int := 60000
  const MinutesPerDay: int := 1440

  /** The minute of the local day that timestamp `t` falls in. */
  function MinuteOfDay(t: int): (m: int)
    ensures 0 <= m < MinutesPerDay
  {
    (t / MsPerMinute) % MinutesPerDay
  }

  /** `Date.getHours()`. */
  function Hours(t: int): (h: int)
    ensures 0 <= h < 24
  {
    MinuteOfDay(t) / 60
  }

  /** `Date.getMinutes()`. */
  function Minutes(t: int): (m: int)
    ensures 0 <= m < 60
  {
    MinuteOfDay(t) % 60
  }

  lemma DivShift(t: int, k: int)
    ensures (t + k * MsPerMinute) / MsPerMinute == t / MsPerMinute + k
  {
    var q, r := t / MsPerMinute, t % MsPerMinute;
    assert t + k * MsPerMinute == (q + k) * MsPerMinute + r;
  }

  lemma ModShift(a: int, k: int)
    ensures (a + k) % MinutesPerDay == (a % MinutesPerDay + k) % MinutesPerDay
  {
    var q := a / MinutesPerDay;
    assert a + k == q * MinutesPerDay + (a % MinutesPerDay + k);
    var j := a % MinutesPerDay + k;
    var p := j / MinutesPerDay;
    assert a + k == (q + p) * MinutesPerDay + j % MinutesPerDay;
  }

  /** Moving a timestamp by `k` whole minutes moves its minute of the day by `k`, modulo a day. */
  lemma MinuteOfDayShift(t: int, k: int)
    ensures MinuteOfDay(t + k * MsPerMinute) == (MinuteOfDay(t) + k) % MinutesPerDay
  {
    DivShift(t, k);
    ModShift(t / MsPerMinute, k);
  }

  predicate IsDigit(c: char) {
    '0' <= c <= '9'
  }

  function Digit(d: int): (c: char)
    requires 0 <= d < 10
    ensures IsDigit(c)
  {
    (48 + d) as char
  }

  function DigitValue(c: char): (d: int)
    requires IsDigit(c)
    ensures 0 <= d < 10 && Digit(d) == c
  {
    c as int - 48
  }

  /**
   * `Number.prototype.toString()` of a non-negative integer below 10^21 (from
   * there on it switches to exponent form): its decimal digits, no leading
   * zero.  The model formats only hours, minutes and row indexes.
   */
  function DecimalString(n: nat): (s: string)
    ensures 1 <= |s|
    ensures forall i :: 0 <= i < |s| ==> IsDigit(s[i])
    ensures n < 10 <==> |s| == 1
    decreases n
  {
    if n < 10 then [Digit(n)] else DecimalString(n / 10) + [Digit(n % 10)]
  }

  /** The value of a string of decimal digits, most significant first. */
  function DecimalValue(s: string): nat
    requires forall i :: 0 <= i < |s| ==> IsDigit(s[i])
  {
    if |s| == 0 then 0 else DecimalValue(s[..|s| - 1]) * 10 + DigitValue(s[|s| - 1])
  }

  /** Reading the digits `toString()` writes gives the number back. */
  lemma {:induction false} DecimalRoundTrip(n: nat)
    ensures DecimalValue(DecimalString(n)) == n
    decreases n
  {
    var s := DecimalString(n);
    if n < 10 {
      assert s[..0] == [];
    } else {
      DecimalRoundTrip(n / 10);
      assert s[..|s| - 1] == DecimalString(n / 10);
    }
  }

  /** Distinct numbers print differently. */
  lemma DecimalStringInjective(a: nat, b: nat)
    ensures DecimalString(a) == DecimalString(b) ==> a == b
  {
    DecimalRoundTrip(a);
    DecimalRoundTrip(b);
  }

  /** `padStart(2, '0')`: prefix zeros up to length two; longer strings are left alone. */
  function PadStart2(s: string): (r: string)
    ensures |r| == if |s| < 2 then 2 else |s|
    ensures r[|r| - |s|..] == s
    ensures forall i :: 0 <= i < |r| - |s| ==> r[i] == '0'
  {
    if |s| == 0 then "00" else if |s| == 1 then "0" + s else s
  }

  /** `n.toString().padStart(2, '0')` for a number below 100 is its tens digit then its units digit. */
  lemma PaddedDecimal(n: nat)
    requires n < 100
    ensures PadStart2(DecimalString(n)) == [Digit(n / 10), Digit(n % 10)]
  {
    var d := DecimalString(n);
    if n >= 10 {
      assert d == DecimalString(n / 10) + [Digit(n % 10)];
    }
  }

  /**
   * The bucket label of a timestamp: zero-padded hour, ':', zero-padded
   * minute, written digit by digit; `LabelIsPaddedFormat` shows this is the
   * `padStart`/`toString` formatting of the source.
   */
  function Label(t: int): (s: string)
    ensures |s| == 5 && s[2] == ':'
    ensures IsDigit(s[0]) && IsDigit(s[1]) && IsDigit(s[3]) && IsDigit(s[4])
  {
    var h, m := Hours(t), Minutes(t);
    [Digit(h / 10), Digit(h % 10), ':', Digit(m / 10), Digit(m % 10)]
  }

  lemma JoinClock(a: char, b: char, c: char, d: char)
    ensures [a, b] + ":" + [c, d] == [a, b, ':', c, d]
  {
  }

  /** `${hours.padStart(2, '0')}:${minutes.padStart(2, '0')}` is `Label`. */
  lemma LabelIsPaddedFormat(t: int)
    ensures Label(t) == PadStart2(DecimalString(Hours(t))) + ":" + PadStart2(DecimalString(Minutes(t)))
  {
    PaddedClock(Hours(t), Minutes(t));
  }

  lemma PaddedClock(h: nat, m: nat)
    requires h < 24 && m < 60
    ensures PadStart2(DecimalString(h)) + ":" + PadStart2(DecimalString(m))
         == [Digit(h / 10), Digit(h % 10), ':', Digit(m / 10), Digit(m % 10)]
  {
    assert PadStart2(DecimalString(h)) == [Digit(h / 10), Digit(h % 10)] by { PaddedDecimal(h); }
    assert PadStart2(DecimalString(m)) == [Digit(m / 10), Digit(m % 10)] by { PaddedDecimal(m); }
    JoinClock(Digit(h / 10), Digit(h % 10), Digit(m / 10), Digit(m % 10));
  }

  /** Reads an "HH:MM" label back as a minute of the day; anything else is rejected. */
  function ParseLabel(s: string): (r: Option<int>)
    ensures r.Some? ==> 0 <= r.value < MinutesPerDay
  {
    if |s| == 5 && s[2] == ':' && IsDigit(s[0]) && IsDigit(s[1]) && IsDigit(s[3]) && IsDigit(s[4]) then
      var h := DigitValue(s[0]) * 10 + DigitValue(s[1]);
      var m := DigitValue(s[3]) * 10 + DigitValue(s[4]);
      if h < 24 && m < 60 then Some(h * 60 + m) else None
    else
      None
  }

  /** A label names exactly the minute of the day of its timestamp. */
  lemma LabelRoundTrip(t: int)
    ensures ParseLabel(Label(t)) == Some(MinuteOfDay(t))
  {
    var s := Label(t);
    var h, m := Hours(t), Minutes(t);
    assert DigitValue(s[0]) * 10 + DigitValue(s[1]) == h;
    assert DigitValue(s[3]) * 10 + DigitValue(s[4]) == m;
  }

  /** Two timestamps get the same label exactly when they fall in the same minute of the day. */
  lemma LabelsEqualIff(t1: int, t2: int)
    ensures Label(t1) == Label(t2) <==> MinuteOfDay(t1) == MinuteOfDay(t2)
  {
    LabelRoundTrip(t1);
    LabelRoundTrip(t2);
  }

  /** Labels of timestamps fewer than 1440 whole minutes apart differ. */
  lemma LabelsDistinctWithinDay(t: int, i: int, j: int)
    requires 0 <= i < j < MinutesPerDay
    ensures Label(t + i * MsPerMinute) != Label(t + j * MsPerMinute)
  {
    var m := MinuteOfDay(t);
    MinuteOfDayShift(t, i);
    MinuteOfDayShift(t, j);
    ShiftedMinutesDiffer(m, i, j);
    LabelsEqualIff(t + i * MsPerMinute, t + j * MsPerMinute);
  }

  lemma ShiftedMinutesDiffer(m: int, i: int, j: int)
    requires 0 <= m < MinutesPerDay && 0 <= i < j < MinutesPerDay
    ensures (m + i) % MinutesPerDay != (m + j) % MinutesPerDay
  {
    var a := if m + i < MinutesPerDay then m + i else m + i - MinutesPerDay;
    var b := if m + j < MinutesPerDay then m + j else m + j - MinutesPerDay;
    assert (m + i) % MinutesPerDay == a;
    assert (m + j) % MinutesPerDay == b;
  }

  /** The label one minute later shows the next minute of the day, wrapping "23:59" to "00:00". */
  lemma NextLabel(t: int)
    ensures ParseLabel(Label(t + MsPerMinute)) == Some((MinuteOfDay(t) + 1) % MinutesPerDay)
  {
    MinuteOfDayShift(t, 1);
    LabelRoundTrip(t + MsPerMinute);
  }
}
