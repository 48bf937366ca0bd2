/**
 * The two Go time layouts the program renders: "2006.01.02" for the date
 * part of an index name and "2006-01-02T15:04:05Z" for user timestamps.
 * Go pads the year to four digits and every other field to two; a field
 * that has more digits is written out in full.
 */
module TimeFormat {
  import opened Text

  datatype Date = Date(year: nat, month: nat, day: nat)

  datatype Timestamp = Timestamp(date: Date, hour: nat, minute: nat, second: nat)

  /** A calendar date with a four-digit year, as a clock reports it. */
  predicate ValidDate(d: Date)
  {
    d.year <= 9999 && 1 <= d.month <= 12 && 1 <= d.day <= 31
  }

  predicate ValidTimestamp(t: Timestamp)
  {
    ValidDate(t.date) && t.hour < 24 && t.minute < 60 && t.second < 60
  }

  /** Three fields joined by a one-character separator, as in "2006.01.02" or "15:04:05". */
  function Joined3(a: string, sep: char, b: string, c: string): (s: string)
    ensures |s| == |a| + |b| + |c| + 2
    ensures s[..|a|] == a && s[|a| + 1..|a| + 1 + |b|] == b && s[|a| + |b| + 2..] == c
    ensures s[|a|] == sep && s[|a| + 1 + |b|] == sep
  {
    var s := a + [sep] + b + [sep] + c;
    assert s[|a| + 1..|a| + 1 + |b|] == b;
    s
  }

  /** Layout "2006.01.02". */
  function DotDate(d: Date): string
  {
    Joined3(Padded(d.year, 4), '.', Padded(d.month, 2), Padded(d.day, 2))
  }

  /** Layout "2006-01-02T15:04:05Z"; the trailing Z is a literal, no zone conversion is made. */
  function IsoSeconds(t: Timestamp): string
  {
    Joined3(Padded(t.date.year, 4), '-', Padded(t.date.month, 2), Padded(t.date.day, 2))
      + "T" + Joined3(Padded(t.hour, 2), ':', Padded(t.minute, 2), Padded(t.second, 2)) + "Z"
  }

  /** A valid date renders as exactly ten characters, dots at offsets 4 and 7. */
  lemma DotDateShape(d: Date)
    requires ValidDate(d)
    ensures |DotDate(d)| == 10
    ensures DotDate(d)[4] == '.' && DotDate(d)[7] == '.'
  {
    PaddedLength(d.year, 4);
    PaddedLength(d.month, 2);
    PaddedLength(d.day, 2);
  }

  /** Distinct valid dates render differently. */
  lemma DotDateInjective(d1: Date, d2: Date)
    requires ValidDate(d1) && ValidDate(d2)
    requires DotDate(d1) == DotDate(d2)
    ensures d1 == d2
  {
    PaddedLength(d1.year, 4);
    PaddedLength(d1.month, 2);
    PaddedLength(d1.day, 2);
    PaddedLength(d2.year, 4);
    PaddedLength(d2.month, 2);
    PaddedLength(d2.day, 2);
    var s1, s2 := DotDate(d1), DotDate(d2);
    assert s1[..4] == Padded(d1.year, 4) && s2[..4] == Padded(d2.year, 4);
    assert s1[5..7] == Padded(d1.month, 2) && s2[5..7] == Padded(d2.month, 2);
    assert s1[8..10] == Padded(d1.day, 2) && s2[8..10] == Padded(d2.day, 2);
    PaddedInjective(d1.year, d2.year, 4);
    PaddedInjective(d1.month, d2.month, 2);
    PaddedInjective(d1.day, d2.day, 2);
  }

  /** A valid timestamp renders as exactly twenty characters ending in Z. */
  lemma IsoSecondsShape(t: Timestamp)
    requires ValidTimestamp(t)
    ensures |IsoSeconds(t)| == 20
    ensures IsoSeconds(t)[10] == 'T' && IsoSeconds(t)[19] == 'Z'
  {
    PaddedLength(t.date.year, 4);
    PaddedLength(t.date.month, 2);
    PaddedLength(t.date.day, 2);
    PaddedLength(t.hour, 2);
    PaddedLength(t.minute, 2);
    PaddedLength(t.second, 2);
  }

  /** In a valid timestamp each field sits at its fixed offset of the layout. */
  lemma IsoSecondsFields(t: Timestamp)
    requires ValidTimestamp(t)
    ensures |IsoSeconds(t)| == 20
    ensures IsoSeconds(t)[..4] == Padded(t.date.year, 4)
    ensures IsoSeconds(t)[5..7] == Padded(t.date.month, 2) && IsoSeconds(t)[8..10] == Padded(t.date.day, 2)
    ensures IsoSeconds(t)[11..13] == Padded(t.hour, 2) && IsoSeconds(t)[14..16] == Padded(t.minute, 2)
    ensures IsoSeconds(t)[17..19] == Padded(t.second, 2)
  {
    PaddedLength(t.date.year, 4);
    PaddedLength(t.date.month, 2);
    PaddedLength(t.date.day, 2);
    PaddedLength(t.hour, 2);
    PaddedLength(t.minute, 2);
    PaddedLength(t.second, 2);
    var date := Joined3(Padded(t.date.year, 4), '-', Padded(t.date.month, 2), Padded(t.date.day, 2));
    var clock := Joined3(Padded(t.hour, 2), ':', Padded(t.minute, 2), Padded(t.second, 2));
    var s := IsoSeconds(t);
    assert s == date + "T" + clock + "Z";
    assert s[..10] == date;
    assert s[11..19] == clock;
  }

  /** Distinct valid timestamps render differently. */
  lemma IsoSecondsInjective(t1: Timestamp, t2: Timestamp)
    requires ValidTimestamp(t1) && ValidTimestamp(t2)
    requires IsoSeconds(t1) == IsoSeconds(t2)
    ensures t1 == t2
  {
    IsoSecondsFields(t1);
    IsoSecondsFields(t2);
    PaddedInjective(t1.date.year, t2.date.year, 4);
    PaddedInjective(t1.date.month, t2.date.month, 2);
    PaddedInjective(t1.date.day, t2.date.day, 2);
    PaddedInjective(t1.hour, t2.hour, 2);
    PaddedInjective(t1.minute, t2.minute, 2);
    PaddedInjective(t1.second, t2.second, 2);
  }
}
