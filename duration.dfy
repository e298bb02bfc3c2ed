/** `formatDuration` of the client pages: a track length in milliseconds shown
    as minutes and zero-padded seconds. The seconds are
    `((ms % 60000) / 1000).toFixed(0)`, which rounds to the nearest second with
    ties going up, and nothing carries into the minutes. */
module Duration {
  import opened Text

  /** `minutes + ":" + seconds.padStart(2, '0')`. */
  function Clock(minutes: nat, seconds: nat): string {
    Decimal(minutes) + ":" + PadStart(Decimal(seconds), 2, '0')
  }

  /** The seconds text: two digits that denote `seconds`. */
  lemma SecondsText(seconds: nat)
    requires seconds < 100
    ensures var p := PadStart(Decimal(seconds), 2, '0');
      |p| == 2 && AllDigits(p) && ParseDecimal(p) == seconds
  {
    DecimalTwoDigits(seconds);
    PaddedNumeral(seconds, 2);
  }

  /** Text of the form minutes, colon, two digits of seconds. */
  predicate IsClock(r: string) {
    |r| >= 4 && r[|r| - 3] == ':' && AllDigits(r[..|r| - 3]) && AllDigits(r[|r| - 2..])
  }

  /** Reads a clock text back as its minutes and seconds. */
  function ParseClock(r: string): (nat, nat)
    requires IsClock(r)
  {
    (ParseDecimal(r[..|r| - 3]), ParseDecimal(r[|r| - 2..]))
  }

  /** Clock and ParseClock are inverse for seconds below 100. */
  lemma ClockReadsBack(minutes: nat, seconds: nat)
    requires seconds < 100
    ensures IsClock(Clock(minutes, seconds))
    ensures ParseClock(Clock(minutes, seconds)) == (minutes, seconds)
  {
    var m := Decimal(minutes);
    var p := PadStart(Decimal(seconds), 2, '0');
    SecondsText(seconds);
    DecimalRoundTrip(minutes);
    ClockSlices(m, p);
  }

  /** The two slices ParseClock takes of a clock text are its two parts. */
  lemma ClockSlices(m: string, p: string)
    requires |m| >= 1 && AllDigits(m) && |p| == 2 && AllDigits(p)
    ensures var r := m + ":" + p;
      && IsClock(r) && r[..|r| - 3] == m && r[|r| - 2..] == p
      && ParseClock(r) == (ParseDecimal(m), ParseDecimal(p))
  {
    var r := m + ":" + p;
    assert r[..|m|] == m;
    assert r[|m| + 1..] == p;
  }

  /** The seconds field: the remainder after whole minutes, rounded to the
      nearest second with halves rounded up. */
  function Seconds(ms: nat): (s: nat)
    ensures s * 1000 <= ms % 60000 + 500 < s * 1000 + 1000
    ensures s <= 60
    ensures s == 60 <==> ms % 60000 >= 59500
  {
    (ms % 60000 + 500) / 1000
  }

  /** `formatDuration(ms)` as the pages write it. */
  function FormatDuration(ms: nat): string {
    Clock(ms / 60000, Seconds(ms))
  }

  /** The text reads back as `ms / 60000` minutes and Seconds(ms), which
      together denote a time within half a second of `ms`. */
  lemma FormatDurationReadsBack(ms: nat)
    ensures IsClock(FormatDuration(ms))
    ensures ParseClock(FormatDuration(ms)) == (ms / 60000, Seconds(ms))
    ensures var (minutes, seconds) := ParseClock(FormatDuration(ms));
      minutes * 60000 + seconds * 1000 - 500 <= ms < minutes * 60000 + seconds * 1000 + 500
  {
    ClockReadsBack(ms / 60000, Seconds(ms));
    assert ms == (ms / 60000) * 60000 + ms % 60000;
  }

  /** The seconds field reads 60, and the minutes stay as they are, exactly
      when the remainder is at least 59.5 seconds. */
  lemma FormatDurationShowsSixty(ms: nat)
    ensures IsClock(FormatDuration(ms))
    ensures ParseClock(FormatDuration(ms)).1 == 60 <==> ms % 60000 >= 59500
    ensures ParseClock(FormatDuration(ms)).0 == ms / 60000
  {
    ClockReadsBack(ms / 60000, Seconds(ms));
  }

  /** 59.5 seconds is shown as "0:60". */
  lemma FormatDurationOfFiftyNineAndAHalf()
    ensures FormatDuration(59500) == "0:60"
  {
    assert Seconds(59500) == 60;
    assert Decimal(0) == "0";
    assert Decimal(60) == "60";
    assert PadStart("60", 2, '0') == "60";
  }

  /** `formatDuration` with the carry the display evidently intends: round the
      whole length to the nearest second first, then split it into minutes and
      seconds. */
  function FormatDurationCarried(ms: nat): string {
    var total := (ms + 500) / 1000;
    Clock(total / 60, total % 60)
  }

  /** The carried text reads back as minutes and a seconds field below 60,
      together within half a second of `ms`. */
  lemma FormatDurationCarriedReadsBack(ms: nat)
    ensures IsClock(FormatDurationCarried(ms))
    ensures var (minutes, seconds) := ParseClock(FormatDurationCarried(ms));
      && seconds < 60
      && minutes * 60000 + seconds * 1000 - 500 <= ms < minutes * 60000 + seconds * 1000 + 500
  {
    var total := (ms + 500) / 1000;
    ClockReadsBack(total / 60, total % 60);
    assert total == (total / 60) * 60 + total % 60;
    assert (total / 60) * 60000 + (total % 60) * 1000 == total * 1000;
  }

  /** Below 59.5 seconds into a minute the two renderings agree. */
  lemma FormatDurationCarriedAgrees(ms: nat)
    requires ms % 60000 < 59500
    ensures FormatDurationCarried(ms) == FormatDuration(ms)
  {
    var q, r := ms / 60000, ms % 60000;
    var s := Seconds(ms);
    var total := (ms + 500) / 1000;
    assert s < 60;
    assert total == q * 60 + s by {
      assert ms + 500 == (q * 60 + s) * 1000 + (r + 500 - s * 1000);
      assert 0 <= r + 500 - s * 1000 < 1000;
    }
    assert total / 60 == q && total % 60 == s;
  }

  /** One minute and no seconds reads "1:00". */
  lemma ClockOfOneMinute()
    ensures Clock(1, 0) == "1:00"
  {
    var p := PadStart(Decimal(0), 2, '0');
    assert Decimal(0) == "0";
    assert p[1..] == "0" && p[0] == '0';
    assert p == "00" by { assert p == [p[0]] + p[1..]; }
    assert Decimal(1) == "1";
  }

  /** 59.5 seconds is shown as "1:00" once the carry is made. */
  lemma FormatDurationCarriedOfFiftyNineAndAHalf()
    ensures FormatDurationCarried(59500) == "1:00"
  {
    var total := (59500 + 500) / 1000;
    assert total == 60;
    ClockOfOneMinute();
  }
}
