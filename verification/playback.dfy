/**
 * The playback arithmetic both audio players share: the `m:ss` clock, the ten-second skips,
 * the progress percentage and the seek slider's inverse. Times are non-negative exact reals
 * in seconds.
 */
module Playback {
  import opened Wrappers
  import opened Text

  /** Seconds moved by each skip button. */
  const SkipSeconds: real := 10.0

  // ---------------------------------------------------------------------------
  // formatTime
  // ---------------------------------------------------------------------------

  /** Whole minutes of `t`: `Math.floor(time / 60)`. */
  function Minutes(t: real): (m: nat)
    requires t >= 0.0
    ensures (m as real) * 60.0 <= t < (m as real) * 60.0 + 60.0
    ensures t < 600.0 ==> m < 10
  {
    (t / 60.0).Floor
  }

  /** Whole seconds past the minute: `Math.floor(time % 60)`. */
  function Seconds(t: real): (s: nat)
    requires t >= 0.0
    ensures s < 60
    ensures Minutes(t) * 60 + s == t.Floor
  {
    var m := Minutes(t);
    var rest := t - (m as real) * 60.0;
    assert 0.0 <= rest < 60.0;
    var s := rest.Floor;
    assert (s as real) <= rest < (s as real) + 1.0;
    assert ((m * 60 + s) as real) <= t < ((m * 60 + s) as real) + 1.0;
    s
  }

  /** `formatTime`: minutes, a colon, and the seconds as two digits. */
  function FormatTime(t: real): (r: string)
    requires t >= 0.0
    ensures |r| >= 4 && r[|r| - 3] == ':'
    ensures IsDigit(r[|r| - 2]) && IsDigit(r[|r| - 1])
    ensures t < 600.0 ==> |r| == 4
  {
    Clock(Minutes(t), Seconds(t))
  }

  /** The `m:ss` text of `m` minutes and `s` seconds. */
  function Clock(m: nat, s: nat): (r: string)
    requires s < 60
    ensures |r| == |NatToString(m)| + 3 && r[|r| - 3] == ':'
    ensures IsDigit(r[|r| - 2]) && IsDigit(r[|r| - 1])
  {
    var mins := NatToString(m);
    var secs := PadStartZero(NatToString(s), 2);
    PaddedTwoDigits(s);
    ClockShape(mins, secs);
    mins + ":" + secs
  }

  /** A number below 100, zero-padded to two places, is exactly two digits. */
  lemma PaddedTwoDigits(n: nat)
    requires n < 100
    ensures |PadStartZero(NatToString(n), 2)| == 2
    ensures AllDigits(PadStartZero(NatToString(n), 2))
  {
    var d := NatToString(n);
    if |d| < 2 {
      assert PadStartZero(d, 2) == ['0'] + d;
    }
  }

  /** Minutes, a colon and two digits: the colon is third from the end, digits follow it. */
  lemma ClockShape(mins: string, secs: string)
    requires mins != [] && |secs| == 2 && AllDigits(secs)
    ensures var r := mins + ":" + secs;
      |r| == |mins| + 3 && r[|r| - 3] == ':' && IsDigit(r[|r| - 2]) && IsDigit(r[|r| - 1])
  {
    var r := mins + ":" + secs;
    assert r[|r| - 2] == secs[0] && r[|r| - 1] == secs[1];
  }

  /** Reads an `m:ss` clock back into whole seconds; `None` for anything else. */
  function ParseClock(s: string): (r: Option<nat>)
    ensures r.Some? ==> |s| >= 4 && s[|s| - 3] == ':'
  {
    if |s| < 4 || s[|s| - 3] != ':' then None
    else
      var mins := s[..|s| - 3];
      var secs := s[|s| - 2..];
      if !AllDigits(mins) || !AllDigits(secs) then None
      else
        var sec := ParseDigits(secs);
        if sec >= 60 then None else Some(ParseDigits(mins) * 60 + sec)
  }

  /** A zero-padded numeral below 100 reads back as the number. */
  lemma ParsePadded(n: nat)
    requires n < 100
    ensures AllDigits(PadStartZero(NatToString(n), 2))
    ensures ParseDigits(PadStartZero(NatToString(n), 2)) == n
  {
    var d := NatToString(n);
    var p := PadStartZero(d, 2);
    ParseNatToString(n);
    if |d| < 2 {
      assert p == ['0'] + d;
      assert p[..1] == ['0'];
      assert ParseDigits(p[..1]) == 0 by {
        assert p[..1][..0] == [];
      }
    }
  }

  /** A digit string, a colon and two digits under 60 read back as minutes and seconds. */
  lemma ParseClockParts(mins: string, secs: string)
    requires mins != [] && AllDigits(mins) && |secs| == 2 && AllDigits(secs)
    requires ParseDigits(secs) < 60
    ensures ParseClock(mins + ":" + secs) == Some(ParseDigits(mins) * 60 + ParseDigits(secs))
  {
    var r := mins + ":" + secs;
    assert r[|r| - 3] == ':';
    assert r[..|r| - 3] == mins;
    assert r[|r| - 2..] == secs;
  }

  /** Reading the clock of `m` minutes and `sec` seconds gives back the `n` seconds they make. */
  lemma ParseClockOf(n: nat, m: nat, sec: nat)
    requires sec < 60 && n == m * 60 + sec
    ensures ParseClock(Clock(m, sec)) == Some(n)
  {
    var mins := NatToString(m);
    var secs := PadStartZero(NatToString(sec), 2);
    assert Clock(m, sec) == mins + ":" + secs;
    ParseNatToString(m);
    ParsePadded(sec);
    PaddedTwoDigits(sec);
    ParseClockParts(mins, secs);
  }

  /** Reading the clock gives back the whole seconds it shows. */
  lemma ParseFormatTime(t: real)
    requires t >= 0.0
    ensures ParseClock(FormatTime(t)) == Some(t.Floor as nat)
  {
    var m, sec := Minutes(t), Seconds(t);
    assert m * 60 + sec == t.Floor;
    ParseClockOf(t.Floor as nat, m, sec);
  }

  // ---------------------------------------------------------------------------
  // Skips, progress and seek
  // ---------------------------------------------------------------------------

  /** `Math.max(0, time - 10)`. */
  function SkipBack(t: real): (r: real)
    ensures r >= 0.0
    ensures t >= 0.0 ==> r <= t
    ensures t >= SkipSeconds ==> r == t - SkipSeconds
    ensures t < SkipSeconds ==> r == 0.0
  {
    if 0.0 > t - 10.0 then 0.0 else t - 10.0
  }

  /** `Math.min(total, time + 10)`. */
  function SkipAhead(t: real, total: real): (r: real)
    ensures r <= total
    ensures t <= total ==> t <= r
    ensures t + SkipSeconds <= total ==> r == t + SkipSeconds
    ensures t + SkipSeconds > total ==> r == total
  {
    if total < t + 10.0 then total else t + 10.0
  }

  /** Both skips keep a position inside [0, total] inside it. */
  lemma SkipsStayInRange(t: real, total: real)
    requires 0.0 <= t <= total
    ensures 0.0 <= SkipBack(t) <= total
    ensures 0.0 <= SkipAhead(t, total) <= total
  {
  }

  /** `progressPercentage`: the position as a percentage of the duration, 0 without one. */
  function Progress(t: real, total: real): (r: real)
    ensures total <= 0.0 ==> r == 0.0
    ensures total > 0.0 && 0.0 <= t <= total ==> 0.0 <= r <= 100.0
    ensures total > 0.0 && t == total ==> r == 100.0
  {
    if total > 0.0 then (t / total) * 100.0 else 0.0
  }

  /** The seek slider: the position a slider value of `v` out of 100 stands for. */
  function SeekTime(v: real, total: real): (r: real)
    ensures 0.0 <= v <= 100.0 && total >= 0.0 ==> 0.0 <= r <= total
  {
    (v / 100.0) * total
  }

  /** Seeking to the percentage the progress bar shows keeps the position. */
  lemma SeekToProgress(t: real, total: real)
    requires total > 0.0
    ensures SeekTime(Progress(t, total), total) == t
  {
  }
}
