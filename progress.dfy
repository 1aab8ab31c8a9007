/**
 * The progress bar: the elapsed and total play time formatted as `m:ss`, and the share of the
 * track played, handed to the rounded gauge.
 */
module Progress {
  import opened Wrappers
  import opened Text
  import opened Numeric
  import opened Layout
  import Gauge

  /** A `Duration`, in nanoseconds. */
  type Duration = nat

  const NANOS_PER_SEC: nat := 1_000_000_000

  /** `Duration::as_secs`: the whole seconds, the fraction dropped. */
  function Secs(d: Duration): nat {
    d / NANOS_PER_SEC
  }

  /** `Duration::as_secs_f64`, exactly. */
  function SecsReal(d: Duration): real {
    d as real / NANOS_PER_SEC as real
  }

  /** `{:02}` for a number below 100. */
  function TwoDigits(n: nat): (s: string)
    requires n < 100
    ensures |s| == 2 && IsDigit(s[0]) && IsDigit(s[1])
    ensures DigitsValue(s, 10) == Some(n)
  {
    var s := [DigitChar(n / 10), DigitChar(n % 10)];
    assert s[..1] == [DigitChar(n / 10)];
    assert s[..1][..0] == [];
    assert DigitsValue(s[..1], 10) == Some(n / 10);
    s
  }

  /** `format_duration`: the whole minutes, a colon, and the seconds within the minute as two digits. */
  function FormatDuration(d: Duration): (s: string)
    ensures |s| >= 4 && s[|s| - 3] == ':'
    ensures forall i :: 0 <= i < |s| && i != |s| - 3 ==> IsDigit(s[i])
  {
    var secs := Secs(d);
    NatToString(secs / 60) + ":" + TwoDigits(secs % 60)
  }

  /** Reads `m:ss` back: decimal minutes, a colon, then exactly two digits below 60. */
  function ParseClock(s: string): Option<nat> {
    var parts := Split(s, ':');
    if |parts| != 2 || parts[0] == [] || |parts[1]| != 2 then None
    else
      match (DigitsValue(parts[0], 10), DigitsValue(parts[1], 10))
      case (Some(m), Some(sec)) => if sec < 60 then Some(m * 60 + sec) else None
      case _ => None
  }

  /** The formatted time reads back as the whole seconds of the duration. */
  lemma ParseFormatDuration(d: Duration)
    ensures ParseClock(FormatDuration(d)) == Some(Secs(d))
  {
    var secs := Secs(d);
    var m, ss := NatToString(secs / 60), TwoDigits(secs % 60);
    assert ':' !in m by { forall i | 0 <= i < |m| ensures m[i] != ':' { assert IsDigit(m[i]); } }
    assert ':' !in ss;
    assert Join([m, ss], [':']) == FormatDuration(d);
    SplitJoin([m, ss], ':');
    DigitsValueNatToString(secs / 60);
  }

  /** Two durations print the same exactly when they have the same whole seconds. */
  lemma FormatDurationSeconds(d1: Duration, d2: Duration)
    ensures FormatDuration(d1) == FormatDuration(d2) <==> Secs(d1) == Secs(d2)
  {
    ParseFormatDuration(d1);
    ParseFormatDuration(d2);
  }

  /** The progress label: "elapsed / total" when the total is known and not zero, else the elapsed time. */
  function ProgressLabel(elapsed: Duration, total: Option<Duration>): (r: string)
    ensures '/' in r <==> total.Some? && total.value != 0
    ensures |r| >= |FormatDuration(elapsed)| && r[..|FormatDuration(elapsed)|] == FormatDuration(elapsed)
    ensures total.Some? && total.value != 0 ==>
      |r| == |FormatDuration(elapsed)| + 3 + |FormatDuration(total.value)|
      && r[|r| - |FormatDuration(total.value)|..] == FormatDuration(total.value)
    ensures !(total.Some? && total.value != 0) ==> r == FormatDuration(elapsed)
  {
    match total
    case Some(t) =>
      if t != 0 then
        var r := FormatDuration(elapsed) + " / " + FormatDuration(t);
        assert r[|FormatDuration(elapsed)| + 1] == '/';
        r
      else FormatDuration(elapsed)
    case None => FormatDuration(elapsed)
  }

  /** The share played: 0 without a (non-zero) total, else elapsed over total, capped at 1. */
  function ProgressRatio(elapsed: Duration, total: Option<Duration>): (r: real)
    ensures 0.0 <= r <= 1.0
    ensures total == None || total == Some(0) ==> r == 0.0
    ensures total.Some? && total.value > 0 && elapsed >= total.value ==> r == 1.0
    ensures total.Some? && total.value > 0 && elapsed <= total.value ==> r * SecsReal(total.value) == SecsReal(elapsed)
  {
    match total
    case None => 0.0
    case Some(t) =>
      if t == 0 then 0.0
      else
        var e, d := SecsReal(elapsed), SecsReal(t);
        assert d > 0.0 && e >= 0.0;
        assert (e / d) * d == e;
        assert e <= d ==> e / d <= 1.0;
        assert e >= d ==> e / d >= 1.0;
        MinReal(e / d, 1.0)
  }

  /** `draw_progress`: the gauge it renders carries the label and the ratio unchanged. */
  function ProgressGauge(elapsed: Duration, total: Option<Duration>): (g: Gauge.RoundedGauge)
    ensures Gauge.Valid(g)
    ensures g.caption == ProgressLabel(elapsed, total)
    ensures g.ratio == ProgressRatio(elapsed, total)
    ensures g.filledColor == Cyan && g.overflowAt == None && g.waveform == None
  {
    Gauge.New(ProgressRatio(elapsed, total), ProgressLabel(elapsed, total), Cyan)
  }
}
