/** The `m:ss` clock text shown beside the audio players
    (`formatTime` in app/page.tsx, app/components/ModernAudioPlayer.tsx and,
    behind a NaN guard, app/components/AudioPlayer.tsx). Times are real
    numbers of seconds; JavaScript's `Math.floor`, `%` and number-to-string
    are written out. */
module TimeFormat {
  import opened Text

  /** Rounds toward zero, as JavaScript's `%` does with its quotient. */
  function Trunc(x: real): (q: int)
    ensures x >= 0.0 ==> q == x.Floor
    ensures x < 0.0 ==> q == -((-x).Floor)
  {
    if x >= 0.0 then x.Floor else -((-x).Floor)
  }

  /** JavaScript's `x % 60` on numbers: the remainder of the quotient
      truncated toward zero, so it takes the sign of the dividend. */
  function JsRem60(x: real): (r: real)
    ensures x >= 0.0 ==> 0.0 <= r < 60.0
    ensures x >= 0.0 ==> x == 60.0 * (x / 60.0).Floor as real + r
  {
    x - 60.0 * Trunc(x / 60.0) as real
  }

  /** `formatTime(time)`: whole minutes, a colon, whole seconds padded with
      one leading `0` when below 10. */
  function FormatTime(time: real): string {
    var minutes := (time / 60.0).Floor;
    var seconds := JsRem60(time).Floor;
    IntToString(minutes) + ":" + (if seconds < 10 then "0" else "") + IntToString(seconds)
  }

  /** The seconds field `FormatTime` prints for a non-negative time. */
  function SecondsOf(time: real): int {
    JsRem60(time).Floor
  }

  /** Reads a clock text `M:SS` (decimal minutes, exactly two decimal digits
      of seconds) back into its two numbers. */
  function ParseClock(s: string): Option<(nat, nat)> {
    if |s| >= 4 && s[|s| - 3] == ':' && AllDigits(s[..|s| - 3]) && AllDigits(s[|s| - 2..])
    then Some((ParseDigits(s[..|s| - 3]), ParseDigits(s[|s| - 2..])))
    else None
  }

  /** The padded seconds field is exactly two digits and reads back as the
      number of seconds. */
  lemma TwoDigitField(sec: nat)
    requires sec < 60
    ensures var f := (if sec < 10 then "0" else "") + NatToString(sec);
            |f| == 2 && AllDigits(f) && ParseDigits(f) == sec
  {
    var f := (if sec < 10 then "0" else "") + NatToString(sec);
    if sec < 10 {
      assert f == ['0', DigitChar(sec)];
      assert f[..1] == ['0'];
      assert f[..1][..0] == [];
      assert DigitValue(DigitChar(sec)) == sec;
    } else {
      assert NatToString(sec) == NatToString(sec / 10) + [DigitChar(sec % 10)];
      assert f == [DigitChar(sec / 10), DigitChar(sec % 10)];
      assert f[..1] == [DigitChar(sec / 10)];
      assert f[..1][..0] == [];
      assert DigitValue(DigitChar(sec / 10)) == sec / 10;
      assert DigitValue(DigitChar(sec % 10)) == sec % 10;
      assert ParseDigits(f[..1]) == sec / 10;
      assert ParseDigits(f) == ParseDigits(f[..1]) * 10 + sec % 10;
    }
  }

  /** The whole minutes and the whole seconds within the minute of a
      non-negative time make up its whole seconds. */
  lemma MinutesAndSeconds(time: real)
    requires time >= 0.0
    ensures 0 <= (time / 60.0).Floor && 0 <= SecondsOf(time) < 60
    ensures 60 * (time / 60.0).Floor + SecondsOf(time) == time.Floor
  {
    var m := (time / 60.0).Floor;
    var r := JsRem60(time);
    var sec := r.Floor;
    assert time == 60.0 * m as real + r;
    assert (60 * m + sec) as real <= time < (60 * m + sec + 1) as real;
  }

  /** A clock text built from whole minutes and a padded seconds field
      below 60 reads back as those two numbers. */
  lemma ClockText(m: nat, sec: nat)
    requires sec < 60
    ensures ParseClock(IntToString(m) + ":" + (if sec < 10 then "0" else "") + IntToString(sec)) == Some((m, sec))
  {
    var ms := NatToString(m);
    var f := (if sec < 10 then "0" else "") + NatToString(sec);
    TwoDigitField(sec);
    ParseNatToString(m);
    var s := IntToString(m) + ":" + (if sec < 10 then "0" else "") + IntToString(sec);
    assert s == ms + ":" + f;
    assert s[..|s| - 3] == ms;
    assert s[|s| - 2..] == f;
  }

  /** For a non-negative time the text is `M:SS` with SS in 00..59, and it
      reads back as the whole minutes and the whole seconds within the
      minute, which together give back the whole seconds of the time. */
  lemma FormatTimeRoundTrip(time: real)
    requires time >= 0.0
    ensures 0 <= SecondsOf(time) < 60
    ensures ParseClock(FormatTime(time)) == Some(((time / 60.0).Floor, SecondsOf(time)))
    ensures 60 * (time / 60.0).Floor + SecondsOf(time) == time.Floor
  {
    MinutesAndSeconds(time);
    ClockText((time / 60.0).Floor, SecondsOf(time));
  }
}
