/**
 * The time pattern `^([0-1]?[0-9]|2[0-3]):[0-5][0-9]$` of the start and end
 * time fields, written out as a predicate, together with the clock value a
 * matching string denotes and how JavaScript's string order relates to it.
 */
module TimeFormat {
  import opened LexOrder

  predicate IsDigit(c: char)
  {
    '0' <= c <= '9'
  }

  function DigitValue(c: char): (d: nat)
    requires IsDigit(c)
    ensures d < 10 && (d as char) + '0' == c
  {
    (c - '0') as nat
  }

  function DigitChar(d: nat): (c: char)
    requires d < 10
    ensures IsDigit(c) && DigitValue(c) == d
  {
    (d as char) + '0'
  }

  /** `[0-1]?[0-9]|2[0-3]`: one digit, or two digits from 00 to 23. */
  predicate IsHourText(h: string)
  {
    (|h| == 1 && IsDigit(h[0])) ||
    (|h| == 2 && (('0' <= h[0] <= '1' && IsDigit(h[1])) || (h[0] == '2' && '0' <= h[1] <= '3')))
  }

  /** `[0-5][0-9]`: exactly two digits from 00 to 59. */
  predicate IsMinuteText(m: string)
  {
    |m| == 2 && '0' <= m[0] <= '5' && IsDigit(m[1])
  }

  /**
   * The whole anchored pattern. The minute part is exactly two characters,
   * so the colon is the third character from the end.
   */
  predicate IsTime(s: string)
  {
    |s| >= 3 && IsHourText(s[..|s| - 3]) && s[|s| - 3] == ':' && IsMinuteText(s[|s| - 2..])
  }

  /** The hour a matching string names. */
  function HourOf(s: string): (h: nat)
    requires IsTime(s)
    ensures h < 24
    ensures |s| == 4 ==> h < 10
  {
    if |s| == 4 then DigitValue(s[0]) else 10 * DigitValue(s[0]) + DigitValue(s[1])
  }

  /** The minute a matching string names. */
  function MinuteOf(s: string): (m: nat)
    requires IsTime(s)
    ensures m < 60
  {
    10 * DigitValue(s[|s| - 2]) + DigitValue(s[|s| - 1])
  }

  /** The clock value of a matching string, in minutes since midnight. */
  function MinutesOf(s: string): (t: nat)
    requires IsTime(s)
    ensures t < 24 * 60
    ensures t / 60 == HourOf(s) && t % 60 == MinuteOf(s)
  {
    60 * HourOf(s) + MinuteOf(s)
  }

  /** Two digits, zero-padded: `Pad2(7) == "07"`. */
  function Pad2(n: nat): (s: string)
    requires n < 100
    ensures |s| == 2 && IsDigit(s[0]) && IsDigit(s[1])
    ensures 10 * DigitValue(s[0]) + DigitValue(s[1]) == n
  {
    [DigitChar(n / 10), DigitChar(n % 10)]
  }

  /** `HH:MM`, the spelling a time field of a browser produces. */
  function PaddedTime(h: nat, m: nat): string
    requires h < 24 && m < 60
  {
    Pad2(h) + ":" + Pad2(m)
  }

  /** `H:MM`, the single-digit-hour spelling the pattern also admits. */
  function ShortTime(h: nat, m: nat): string
    requires h < 10 && m < 60
  {
    [DigitChar(h)] + ":" + Pad2(m)
  }

  /** Every accepted string is four or five characters long and holds a colon; the empty string is refused. */
  lemma TimeShape(s: string)
    requires IsTime(s)
    ensures |s| == 4 || |s| == 5
    ensures ':' in s && s != ""
  {
    assert s[|s| - 3] == ':';
  }

  /** A matching string spells its own hour and minute back. */
  lemma TimeSpelling(s: string)
    requires IsTime(s)
    ensures |s| == 5 ==> s == PaddedTime(HourOf(s), MinuteOf(s))
    ensures |s| == 4 ==> s == ShortTime(HourOf(s), MinuteOf(s))
  {
    TimeShape(s);
    var m := Pad2(MinuteOf(s));
    assert m[0] == s[|s| - 2] && m[1] == s[|s| - 1];
    if |s| == 5 {
      var h := Pad2(HourOf(s));
      assert h[0] == s[0] && h[1] == s[1];
      assert s == h + ":" + m;
    } else {
      assert s == [DigitChar(HourOf(s))] + ":" + m;
    }
  }

  /** Every zero-padded time from 00:00 to 23:59, and every single-digit-hour time, matches. */
  lemma SpelledTimesMatch(h: nat, m: nat)
    requires h < 24 && m < 60
    ensures IsTime(PaddedTime(h, m)) && HourOf(PaddedTime(h, m)) == h && MinuteOf(PaddedTime(h, m)) == m
    ensures h < 10 ==> IsTime(ShortTime(h, m)) && HourOf(ShortTime(h, m)) == h && MinuteOf(ShortTime(h, m)) == m
  {
    var s := PaddedTime(h, m);
    assert s[..2] == Pad2(h) && s[2] == ':' && s[3..] == Pad2(m);
    if h < 10 {
      var t := ShortTime(h, m);
      assert t[..1] == [DigitChar(h)] && t[1] == ':' && t[2..] == Pad2(m);
    }
  }

  /** The pattern accepts exactly the `HH:MM` and `H:MM` spellings of the times of a day. */
  lemma TimeFormatExact(s: string)
    ensures IsTime(s) <==>
      exists h: nat, m: nat :: h < 24 && m < 60 &&
        (s == PaddedTime(h, m) || (h < 10 && s == ShortTime(h, m)))
  {
    if IsTime(s) {
      TimeSpelling(s);
      TimeShape(s);
      var h, m := HourOf(s), MinuteOf(s);
      assert s == PaddedTime(h, m) || (h < 10 && s == ShortTime(h, m));
    } else {
      forall h: nat, m: nat | h < 24 && m < 60
        ensures s != PaddedTime(h, m) && (h < 10 ==> s != ShortTime(h, m))
      {
        SpelledTimesMatch(h, m);
      }
    }
  }

  /** On two digits, the character order is the order of their values. */
  lemma DigitOrder(c: char, d: char)
    requires IsDigit(c) && IsDigit(d)
    ensures c < d <==> DigitValue(c) < DigitValue(d)
    ensures c == d <==> DigitValue(c) == DigitValue(d)
  {
  }

  /**
   * For two matching strings of the same width (both `HH:MM`, or both `H:MM`),
   * JavaScript's string order is the chronological order.
   */
  lemma SameWidthOrderIsChronological(a: string, b: string)
    requires IsTime(a) && IsTime(b) && |a| == |b|
    ensures Less(a, b) <==> MinutesOf(a) < MinutesOf(b)
  {
    TimeShape(a);
    TimeShape(b);
    var n := |a|;
    assert a[0..] == a && b[0..] == b;
    assert Less(a[n..], b[n..]) == false;
    LessStep(a, b, 0);
    LessStep(a, b, 1);
    LessStep(a, b, 2);
    LessStep(a, b, 3);
    if n == 5 {
      LessStep(a, b, 4);
      DigitOrder(a[0], b[0]);
      DigitOrder(a[1], b[1]);
    } else {
      DigitOrder(a[0], b[0]);
    }
    DigitOrder(a[n - 2], b[n - 2]);
    DigitOrder(a[n - 1], b[n - 1]);
  }

  /**
   * The pattern also admits single-digit hours, and then the string order is
   * not chronological: 9:00 comes before 10:00 on the clock, yet "10:00" is
   * not greater than "9:00" as a string.
   */
  lemma SingleDigitHourBreaksOrder()
    ensures IsTime("9:00") && IsTime("10:00")
    ensures MinutesOf("9:00") < MinutesOf("10:00")
    ensures !Less("9:00", "10:00") && Less("10:00", "9:00")
  {
    assert "9:00"[..1] == "9" && "9:00"[2..] == "00";
    assert "10:00"[..2] == "10" && "10:00"[3..] == "00";
  }
}
