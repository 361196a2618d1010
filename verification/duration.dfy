/** `formatDuration`: a track length in whole seconds rendered as `H:MM:SS` when it
    reaches an hour and as `M:SS` otherwise. `ParseDuration` reads that clock format
    back and is the partner the round-trip lemma relates it to. */
module Duration {
  import opened Basics
  import opened Text

  /** `n.toString().padStart(2, '0')`. */
  function Pad2(n: nat): string {
    PadStart(Decimal(n), 2, '0')
  }

  /** `formatDuration(seconds)` for a whole, non-negative number of seconds. */
  function FormatDuration(seconds: nat): (r: string)
    ensures |r| >= 4
  {
    var hours := seconds / 3600;
    var minutes := (seconds % 3600) / 60;
    var secs := seconds % 60;
    if hours > 0 then
      Decimal(hours) + [':'] + Pad2(minutes) + [':'] + Pad2(secs)
    else
      Decimal(minutes) + [':'] + Pad2(secs)
  }

  predicate TwoDigits(t: string) {
    |t| == 2 && AllDigits(t)
  }

  /** Reads a clock string in the canonical form `FormatDuration` writes: either
      `H:MM:SS` with a positive unpadded hour count, or `M:SS` with unpadded minutes;
      minutes and seconds below 60. Anything else is rejected. */
  function ParseDuration(t: string): Option<nat> {
    var f := Split(t, ':');
    if |f| == 3 && IsCanonicalDecimal(f[0]) && TwoDigits(f[1]) && TwoDigits(f[2])
       && DigitsValue(f[0]) > 0 && DigitsValue(f[1]) < 60 && DigitsValue(f[2]) < 60
    then Some(DigitsValue(f[0]) * 3600 + DigitsValue(f[1]) * 60 + DigitsValue(f[2]))
    else if |f| == 2 && IsCanonicalDecimal(f[0]) && TwoDigits(f[1])
       && DigitsValue(f[0]) < 60 && DigitsValue(f[1]) < 60
    then Some(DigitsValue(f[0]) * 60 + DigitsValue(f[1]))
    else None
  }

  /** The value of a two-digit string. */
  lemma TwoDigitsValue(t: string)
    requires TwoDigits(t)
    ensures DigitsValue(t) == DigitValue(t[0]) * 10 + DigitValue(t[1])
  {
    var a := t[..1];
    assert DigitsValue(a) == DigitsValue(a[..0]) * 10 + DigitValue(a[0]);
    assert DigitsValue(a[..0]) == 0;
    assert DigitsValue(t) == DigitsValue(t[..1]) * 10 + DigitValue(t[1]);
  }

  /** A padded field below 60 is exactly two digits and denotes its value. */
  lemma Pad2Field(n: nat)
    requires n < 60
    ensures TwoDigits(Pad2(n)) && DigitsValue(Pad2(n)) == n
  {
    var p := Pad2(n);
    if n < 10 {
      assert Decimal(n) == [DigitChar(n)];
      assert p == ['0', DigitChar(n)];
    } else {
      assert Decimal(n / 10) == [DigitChar(n / 10)];
      assert p == [DigitChar(n / 10), DigitChar(n % 10)];
    }
    TwoDigitsValue(p);
  }

  /** The pieces between the colons of a rendered duration. */
  function ClockFields(s: nat): seq<string> {
    if s >= 3600 then [Decimal(s / 3600), Pad2((s % 3600) / 60), Pad2(s % 60)]
    else [Decimal(s / 60), Pad2(s % 60)]
  }

  /** Two colon-free pieces joined by a colon split back into those pieces. */
  lemma SplitTwo(a: string, b: string)
    requires ':' !in a && ':' !in b
    ensures Split(a + [':'] + b, ':') == [a, b]
  {
    SplitAppend(a, ':', b);
    SplitNoSep(b, ':');
  }

  /** Three colon-free pieces joined by colons split back into those pieces. */
  lemma SplitThree(a: string, b: string, c: string)
    requires ':' !in a && ':' !in b && ':' !in c
    ensures Split(a + [':'] + b + [':'] + c, ':') == [a, b, c]
  {
    assert a + [':'] + b + [':'] + c == a + [':'] + (b + [':'] + c);
    SplitAppend(a, ':', b + [':'] + c);
    SplitTwo(b, c);
  }

  lemma FormatDurationSplit(s: nat)
    ensures Split(FormatDuration(s), ':') == ClockFields(s)
  {
    if s >= 3600 {
      SplitWithHours(s);
    } else {
      SplitWithoutHours(s);
    }
  }

  lemma SplitWithHours(s: nat)
    requires s >= 3600
    ensures Split(FormatDuration(s), ':') == ClockFields(s)
  {
    var a, b, c := Decimal(s / 3600), Pad2((s % 3600) / 60), Pad2(s % 60);
    assert ':' !in a by { DigitsHaveNoColon(a); }
    assert ':' !in b by { Pad2Field((s % 3600) / 60); DigitsHaveNoColon(b); }
    assert ':' !in c by { Pad2Field(s % 60); DigitsHaveNoColon(c); }
    assert FormatDuration(s) == a + [':'] + b + [':'] + c;
    SplitThree(a, b, c);
  }

  lemma SplitWithoutHours(s: nat)
    requires s < 3600
    ensures Split(FormatDuration(s), ':') == ClockFields(s)
  {
    var a, c := Decimal(s / 60), Pad2(s % 60);
    assert ':' !in a by { DigitsHaveNoColon(a); }
    assert ':' !in c by { Pad2Field(s % 60); DigitsHaveNoColon(c); }
    assert s / 3600 == 0 && s % 3600 == s;
    assert FormatDuration(s) == a + [':'] + c;
    SplitTwo(a, c);
  }


  /** Whole seconds split into hours, minutes below 60 and seconds below 60. */
  lemma ClockArithmetic(s: nat)
    ensures (s % 3600) / 60 < 60 && s % 60 < 60
    ensures (s / 3600) * 3600 + ((s % 3600) / 60) * 60 + s % 60 == s
    ensures s < 3600 ==> s / 60 < 60 && (s / 60) * 60 + s % 60 == s
  {
    var r := s % 3600;
    assert s == (s / 3600) * 3600 + r;
    assert r == (r / 60) * 60 + r % 60;
    assert r % 60 == s % 60 by {
      assert s == ((s / 3600) * 60 + r / 60) * 60 + r % 60;
    }
  }

  /** From an hour upwards: a positive unpadded hour count, then two-digit minutes and seconds. */
  lemma ClockFieldsWithHours(s: nat)
    requires s >= 3600
    ensures var f := ClockFields(s);
      && |f| == 3 && IsCanonicalDecimal(f[0]) && TwoDigits(f[1]) && TwoDigits(f[2])
      && DigitsValue(f[0]) == s / 3600 && DigitsValue(f[1]) < 60 && DigitsValue(f[2]) < 60
      && DigitsValue(f[0]) * 3600 + DigitsValue(f[1]) * 60 + DigitsValue(f[2]) == s
  {
    var f := ClockFields(s);
    ClockArithmetic(s);
    Pad2Field(s % 60);
    Pad2Field((s % 3600) / 60);
    DecimalRoundTrip(s / 3600);
    var h, m, c := DigitsValue(f[0]), DigitsValue(f[1]), DigitsValue(f[2]);
    assert h == s / 3600 && m == (s % 3600) / 60 && c == s % 60;
  }

  /** Below an hour: unpadded minutes, then two-digit seconds. */
  lemma ClockFieldsWithoutHours(s: nat)
    requires s < 3600
    ensures var f := ClockFields(s);
      && |f| == 2 && f[0] == Decimal(s / 60) && IsCanonicalDecimal(f[0]) && TwoDigits(f[1])
      && DigitsValue(f[0]) < 60 && DigitsValue(f[1]) < 60
      && DigitsValue(f[0]) * 60 + DigitsValue(f[1]) == s
  {
    var f := ClockFields(s);
    ClockArithmetic(s);
    Pad2Field(s % 60);
    DecimalRoundTrip(s / 60);
    var m, c := DigitsValue(f[0]), DigitsValue(f[1]);
    assert m == s / 60 && c == s % 60;
  }

  /** The fields of the rendered clock: the hours field appears exactly when the
      duration reaches an hour; seconds are always two digits; minutes are two digits
      under an hours field and unpadded otherwise; and the field values recompose
      the duration with minutes and seconds below 60. */
  lemma FormatDurationFields(s: nat)
    ensures var f := Split(FormatDuration(s), ':');
      && |f| == (if s >= 3600 then 3 else 2)
      && IsCanonicalDecimal(f[0])
      && TwoDigits(f[|f| - 1])
      && (s >= 3600 ==> TwoDigits(f[1])
                        && DigitsValue(f[0]) == s / 3600 && DigitsValue(f[1]) < 60 && DigitsValue(f[2]) < 60
                        && DigitsValue(f[0]) * 3600 + DigitsValue(f[1]) * 60 + DigitsValue(f[2]) == s)
      && (s < 3600 ==> f[0] == Decimal(s / 60)
                       && DigitsValue(f[0]) < 60 && DigitsValue(f[1]) < 60
                       && DigitsValue(f[0]) * 60 + DigitsValue(f[1]) == s)
  {
    FormatDurationSplit(s);
    if s >= 3600 {
      ClockFieldsWithHours(s);
    } else {
      ClockFieldsWithoutHours(s);
    }
  }

  /** Reading a rendered duration back yields the duration: the rendering loses nothing. */
  lemma FormatParseRoundTrip(s: nat)
    ensures ParseDuration(FormatDuration(s)) == Some(s)
  {
    var t := FormatDuration(s);
    FormatDurationFields(s);
    ParseClock(t, s, s >= 3600);
  }

  /** A clock string whose fields are in canonical form and recompose `s` parses to `s`. */
  lemma ParseClock(t: string, s: nat, withHours: bool)
    requires var f := Split(t, ':');
      && |f| == (if withHours then 3 else 2)
      && IsCanonicalDecimal(f[0]) && TwoDigits(f[|f| - 1])
      && (withHours ==> TwoDigits(f[1]) && DigitsValue(f[0]) > 0
                        && DigitsValue(f[1]) < 60 && DigitsValue(f[2]) < 60
                        && DigitsValue(f[0]) * 3600 + DigitsValue(f[1]) * 60 + DigitsValue(f[2]) == s)
      && (!withHours ==> DigitsValue(f[0]) < 60 && DigitsValue(f[1]) < 60
                         && DigitsValue(f[0]) * 60 + DigitsValue(f[1]) == s)
    ensures ParseDuration(t) == Some(s)
  {
  }

  /** Two different durations never render the same. */
  lemma FormatDurationInjective(s: nat, t: nat)
    requires FormatDuration(s) == FormatDuration(t)
    ensures s == t
  {
    FormatParseRoundTrip(s);
    FormatParseRoundTrip(t);
  }
}
