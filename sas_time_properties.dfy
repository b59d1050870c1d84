/**
 * Properties of FormatTimesForSasSigning (AzureBlobStorage/BlobSasBuilderWasm.cs):
 * the shape of what it writes, a parser that reads the clock back, and what the
 * format does and does not depend on.
 */
module SasTimeProperties {
  import opened Wrappers
  import opened DotNetTime
  import opened BlobSas

  /** The shape of "yyyy-MM-ddTHH:mm:ssZ": 20 characters, digits except for the literal separators. */
  predicate IsSasTimeShape(s: string) {
    |s| == 20
    && s[4] == '-' && s[7] == '-' && s[10] == 'T' && s[13] == ':' && s[16] == ':' && s[19] == 'Z'
    && forall i :: 0 <= i < 19 && i != 4 && i != 7 && i != 10 && i != 13 && i != 16 ==> IsDigit(s[i])
  }

  /** The wall-clock fields a formatted time carries. */
  datatype ClockReading = ClockReading(year: nat, month: nat, day: nat, hour: nat, minute: nat, second: nat)

  function ClockOf(t: DateTimeOffset): ClockReading {
    ClockReading(t.year, t.month, t.day, t.hour, t.minute, t.second)
  }

  /** Reads a "yyyy-MM-ddTHH:mm:ssZ" string back into its clock fields. */
  function ParseSasTime(s: string): (r: Option<ClockReading>)
    ensures r.Some? <==> IsSasTimeShape(s)
  {
    if !IsSasTimeShape(s) then None
    else
      assert forall i :: 0 <= i < 4 ==> s[..4][i] == s[i];
      Some(ClockReading(DigitsValue(s[..4]), DigitsValue(s[5..7]), DigitsValue(s[8..10]),
                        DigitsValue(s[11..13]), DigitsValue(s[14..16]), DigitsValue(s[17..19])))
  }

  /** The six padded fields sit at fixed positions between the separators. */
  lemma FormatLayout(t: DateTimeOffset)
    requires !EqualsMinValue(t)
    ensures var r := FormatTimesForSasSigning(t);
      && r[..4] == Pad(t.year, 4) && r[5..7] == Pad(t.month, 2) && r[8..10] == Pad(t.day, 2)
      && r[11..13] == Pad(t.hour, 2) && r[14..16] == Pad(t.minute, 2) && r[17..19] == Pad(t.second, 2)
      && r[4] == '-' && r[7] == '-' && r[10] == 'T' && r[13] == ':' && r[16] == ':' && r[19] == 'Z'
  {
    var y, mo, d := Pad(t.year, 4), Pad(t.month, 2), Pad(t.day, 2);
    var h, mi, s := Pad(t.hour, 2), Pad(t.minute, 2), Pad(t.second, 2);
    var r := FormatTimesForSasSigning(t);
    assert r == y + "-" + mo + "-" + d + "T" + h + ":" + mi + ":" + s + "Z";
    assert r[..4] == y;
    assert r[5..7] == mo;
    assert r[8..10] == d;
    assert r[11..13] == h;
    assert r[14..16] == mi;
    assert r[17..19] == s;
  }

  /** Any instant other than the default is written as exactly the 20-character pattern. */
  lemma FormatShape(t: DateTimeOffset)
    ensures FormatTimesForSasSigning(t) == "" <==> EqualsMinValue(t)
    ensures !EqualsMinValue(t) ==> IsSasTimeShape(FormatTimesForSasSigning(t))
  {
    if !EqualsMinValue(t) {
      var r := FormatTimesForSasSigning(t);
      FormatLayout(t);
      PadDigits(t.year, 4);
      PadDigits(t.month, 2);
      PadDigits(t.day, 2);
      PadDigits(t.hour, 2);
      PadDigits(t.minute, 2);
      PadDigits(t.second, 2);
      forall i | 0 <= i < 19 && i != 4 && i != 7 && i != 10 && i != 13 && i != 16
        ensures IsDigit(r[i])
      {
        if i < 4 {
          assert r[i] == r[..4][i];
        } else if i < 7 {
          assert r[i] == r[5..7][i - 5];
        } else if i < 10 {
          assert r[i] == r[8..10][i - 8];
        } else if i < 13 {
          assert r[i] == r[11..13][i - 11];
        } else if i < 16 {
          assert r[i] == r[14..16][i - 14];
        } else {
          assert r[i] == r[17..19][i - 17];
        }
      }
    }
  }

  /** Parsing the formatted string gives back the clock reading it was written from. */
  lemma FormatParseRoundTrip(t: DateTimeOffset)
    requires !EqualsMinValue(t)
    ensures ParseSasTime(FormatTimesForSasSigning(t)) == Some(ClockOf(t))
  {
    FormatShape(t);
    FormatLayout(t);
    PadDigits(t.year, 4);
    PadDigits(t.month, 2);
    PadDigits(t.day, 2);
    PadDigits(t.hour, 2);
    PadDigits(t.minute, 2);
    PadDigits(t.second, 2);
  }

  /** Two instants format alike exactly when their clock readings agree (neither being the default). */
  lemma FormatDeterminedByClock(t1: DateTimeOffset, t2: DateTimeOffset)
    requires !EqualsMinValue(t1) && !EqualsMinValue(t2)
    ensures FormatTimesForSasSigning(t1) == FormatTimesForSasSigning(t2) <==> ClockOf(t1) == ClockOf(t2)
  {
    FormatParseRoundTrip(t1);
    FormatParseRoundTrip(t2);
  }

  /**
   * The offset is not applied: 2024-01-01 00:00 at +05:00 is written exactly as
   * 2024-01-01 00:00 UTC is, and reads back as that clock, although the two are
   * different instants five hours apart.
   */
  lemma NoUtcConversion()
    ensures ValidParts(DateTimeParts(2024, 1, 1, 0, 0, 0, 0, 300))
    ensures ValidParts(DateTimeParts(2024, 1, 1, 0, 0, 0, 0, 0))
    ensures FormatTimesForSasSigning(DateTimeParts(2024, 1, 1, 0, 0, 0, 0, 300))
         == FormatTimesForSasSigning(DateTimeParts(2024, 1, 1, 0, 0, 0, 0, 0))
    ensures ParseSasTime(FormatTimesForSasSigning(DateTimeParts(2024, 1, 1, 0, 0, 0, 0, 300)))
         == Some(ClockReading(2024, 1, 1, 0, 0, 0))
  {
    assert DaysInMonth(2024, 1) == 31;
    var east: DateTimeOffset := DateTimeParts(2024, 1, 1, 0, 0, 0, 0, 300);
    var utc: DateTimeOffset := DateTimeParts(2024, 1, 1, 0, 0, 0, 0, 0);
    FormatDeterminedByClock(east, utc);
    FormatParseRoundTrip(east);
  }
}
