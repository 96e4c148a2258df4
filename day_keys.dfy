/**
 * Day keys: the `YYYY-MM-DD` strings that `dateToKey` produces through
 * `toISOString().split("T")[0]` (app.js:28-30), JavaScript's `<=` on strings
 * used to compare them with today's key (app.js:214), and `parseDateString`
 * (app.js:39-42), which turns the date picker's value back into a date.
 */
module DayKeys {
  import opened Calendar

  function Pow10(n: nat): (p: nat)
    ensures 1 <= p
  {
    if n == 0 then 1 else 10 * Pow10(n - 1)
  }

  predicate IsDigit(c: char) {
    '0' <= c <= '9'
  }

  predicate AllDigits(s: string) {
    forall i :: 0 <= i < |s| ==> IsDigit(s[i])
  }

  function DigitChar(v: int): (c: char)
    requires 0 <= v < 10
    ensures IsDigit(c) && c as int - '0' as int == v
  {
    ('0' as int + v) as char
  }

  /** The last `width` decimal digits of `x`, zero-padded on the left. */
  function Digits(x: nat, width: nat): (s: string)
    ensures |s| == width && AllDigits(s)
  {
    if width == 0 then [] else Digits(x / 10, width - 1) + [DigitChar(x % 10)]
  }

  /** The number a string of decimal digits denotes (JavaScript's `Number(s)` on such a string). */
  function Value(s: string): (v: nat)
    requires AllDigits(s)
    ensures v < Pow10(|s|)
  {
    if s == [] then 0 else Value(s[..|s| - 1]) * 10 + (s[|s| - 1] as int - '0' as int)
  }

  /** Reading back a padded number gives the number. */
  lemma {:induction false} ValueOfDigits(x: nat, width: nat)
    requires x < Pow10(width)
    ensures Value(Digits(x, width)) == x
  {
    if width > 0 {
      var s := Digits(x, width);
      assert s[..|s| - 1] == Digits(x / 10, width - 1);
      ValueOfDigits(x / 10, width - 1);
    }
  }

  /** Padding the value of a digit string to its own width gives the string back. */
  lemma {:induction false} DigitsOfValue(s: string)
    requires AllDigits(s)
    ensures Digits(Value(s), |s|) == s
  {
    if s != [] {
      var init := s[..|s| - 1];
      var v := Value(s);
      var last := s[|s| - 1] as int - '0' as int;
      assert v / 10 == Value(init) && v % 10 == last;
      DigitsOfValue(init);
      assert s == init + [s[|s| - 1]];
    }
  }

  lemma DigitsInjective(x: nat, y: nat, width: nat)
    requires x < Pow10(width) && y < Pow10(width)
    requires Digits(x, width) == Digits(y, width)
    ensures x == y
  {
    ValueOfDigits(x, width);
    ValueOfDigits(y, width);
  }

  // ---------------------------------------------------------------------
  // JavaScript's `<=` on strings: character by character, a proper prefix first.
  // For the ASCII keys compared here this is JavaScript's UTF-16 code-unit order.

  predicate StrLe(a: string, b: string)
    decreases |a|
  {
    if a == [] then true
    else if b == [] then false
    else if a[0] != b[0] then a[0] < b[0]
    else StrLe(a[1..], b[1..])
  }

  lemma {:induction false} StrLeReflexive(a: string)
    ensures StrLe(a, a)
    decreases |a|
  {
    if a != [] {
      StrLeReflexive(a[1..]);
    }
  }

  lemma {:induction false} StrLeTransitive(a: string, b: string, c: string)
    requires StrLe(a, b) && StrLe(b, c)
    ensures StrLe(a, c)
    decreases |a|
  {
    if a != [] && b != [] && c != [] && a[0] == b[0] && b[0] == c[0] {
      StrLeTransitive(a[1..], b[1..], c[1..]);
    }
  }

  lemma {:induction false} StrLeTotal(a: string, b: string)
    ensures StrLe(a, b) || StrLe(b, a)
    decreases |a|
  {
    if a != [] && b != [] && a[0] == b[0] {
      StrLeTotal(a[1..], b[1..]);
    }
  }

  lemma {:induction false} StrLeAntisymmetric(a: string, b: string)
    requires StrLe(a, b) && StrLe(b, a)
    ensures a == b
    decreases |a|
  {
    if a != [] && b != [] {
      StrLeAntisymmetric(a[1..], b[1..]);
      assert a == [a[0]] + a[1..] && b == [b[0]] + b[1..];
    }
  }

  /** Two strings that start with fields of the same width compare by the first field that differs. */
  lemma {:induction false} StrLeConcat(a: string, b: string, c: string, d: string)
    requires |a| == |b|
    ensures StrLe(a + c, b + d) <==> if a == b then StrLe(c, d) else StrLe(a, b)
    decreases |a|
  {
    if a != [] {
      assert (a + c)[1..] == a[1..] + c && (b + d)[1..] == b[1..] + d;
      StrLeConcat(a[1..], b[1..], c, d);
      if a[0] == b[0] && a[1..] == b[1..] {
        assert a == [a[0]] + a[1..] && b == [b[0]] + b[1..];
      }
    } else {
      assert a + c == c && b + d == d;
    }
  }

  /** Zero-padded numbers of one width compare as strings exactly as they compare as numbers. */
  lemma {:induction false} DigitsOrder(x: nat, y: nat, width: nat)
    requires x < Pow10(width) && y < Pow10(width)
    ensures StrLe(Digits(x, width), Digits(y, width)) <==> x <= y
  {
    if width > 0 {
      var hx, hy := Digits(x / 10, width - 1), Digits(y / 10, width - 1);
      var cx, cy := DigitChar(x % 10), DigitChar(y % 10);
      StrLeConcat(hx, hy, [cx], [cy]);
      DigitsOrder(x / 10, y / 10, width - 1);
      if hx == hy {
        DigitsInjective(x / 10, y / 10, width - 1);
      }
    }
  }

  // ---------------------------------------------------------------------
  // The key of a calendar day.

  /** The `-MM-DD` part of a key, grouped so that each field starts a suffix. */
  function MonthDayPart(d: Date): (s: string)
    requires Valid(d)
    ensures |s| == 6
  {
    "-" + (Digits(d.month, 2) + ("-" + Digits(d.day, 2)))
  }

  /** `toISOString` writes years 0..9999 with four digits and other years as a sign and six digits. */
  function YearPart(y: int): (s: string)
    requires 0 <= y <= 999999
    ensures |s| == if y <= 9999 then 4 else 7
  {
    if y <= 9999 then Digits(y, 4) else "+" + Digits(y, 6)
  }

  /** `dateToKey`: the calendar date part of the ISO 8601 timestamp of `d`. */
  function Key(d: Date): (k: string)
    requires Valid(d) && 0 <= d.year <= 999999
  {
    YearPart(d.year) + MonthDayPart(d)
  }

  /** Keys of days in four-digit years compare as strings exactly as the days compare in time. */
  lemma KeyOrder(a: Date, b: Date)
    requires Valid(a) && Valid(b) && 0 <= a.year <= 9999 && 0 <= b.year <= 9999
    ensures StrLe(Key(a), Key(b)) <==> Le(a, b)
  {
    StrLeConcat(Digits(a.year, 4), Digits(b.year, 4), MonthDayPart(a), MonthDayPart(b));
    DigitsOrder(a.year, b.year, 4);
    if a.year == b.year {
      var ma, mb := Digits(a.month, 2), Digits(b.month, 2);
      var da, db := Digits(a.day, 2), Digits(b.day, 2);
      StrLeConcat("-", "-", ma + ("-" + da), mb + ("-" + db));
      StrLeConcat(ma, mb, "-" + da, "-" + db);
      DigitsOrder(a.month, b.month, 2);
      if a.month == b.month {
        StrLeConcat("-", "-", da, db);
        DigitsOrder(a.day, b.day, 2);
      } else {
        if ma == mb {
          DigitsInjective(a.month, b.month, 2);
        }
      }
    } else if Digits(a.year, 4) == Digits(b.year, 4) {
      DigitsInjective(a.year, b.year, 4);
    }
  }

  /** Where the fields of a key sit. */
  lemma KeyFields(d: Date)
    requires Valid(d) && 0 <= d.year <= 999999
    ensures var k, o := Key(d), if d.year <= 9999 then 0 else 3;
      && |k| == 10 + o
      && (o == 3 ==> k[0] == '+' && k[1..7] == Digits(d.year, 6))
      && (o == 0 ==> k[..4] == Digits(d.year, 4))
      && k[4 + o] == '-' && k[7 + o] == '-'
      && k[5 + o..7 + o] == Digits(d.month, 2)
      && k[8 + o..] == Digits(d.day, 2)
  {
  }

  /** Different days have different keys, in every year `toISOString` can write. */
  lemma KeyInjective(a: Date, b: Date)
    requires Valid(a) && Valid(b) && 0 <= a.year <= 999999 && 0 <= b.year <= 999999
    requires Key(a) == Key(b)
    ensures a == b
  {
    KeyFields(a);
    KeyFields(b);
    var o := if a.year <= 9999 then 0 else 3;
    if o == 3 {
      DigitsInjective(a.year, b.year, 6);
    } else {
      DigitsInjective(a.year, b.year, 4);
    }
    assert Key(a)[5 + o..7 + o] == Key(b)[5 + o..7 + o];
    DigitsInjective(a.month, b.month, 2);
    DigitsInjective(a.day, b.day, 2);
  }

  /**
   * A key in the six-digit extended format (years after 9999) sorts before every
   * four-digit key, although its day is later: the string comparison of app.js:214
   * is chronological only while all keys have four-digit years.
   */
  lemma ExtendedKeySortsFirst(a: Date, b: Date)
    requires Valid(a) && Valid(b) && 9999 < a.year <= 999999 && 0 <= b.year <= 9999
    ensures Lt(b, a)
    ensures StrLe(Key(a), Key(b)) && !StrLe(Key(b), Key(a))
  {
    KeyFields(a);
    KeyFields(b);
    assert Key(b)[0] == Digits(b.year, 4)[0];
  }

  // ---------------------------------------------------------------------
  // The date picker's value and parseDateString.

  /**
   * A value the start-date picker holds: `YYYY-MM-DD` naming a real day of a
   * year after 0. Assigning any other string to the picker leaves it empty.
   */
  predicate IsDateString(s: string) {
    && |s| == 10 && s[4] == '-' && s[7] == '-'
    && AllDigits(s[..4]) && AllDigits(s[5..7]) && AllDigits(s[8..])
    && var y, m, d := Value(s[..4]), Value(s[5..7]), Value(s[8..]);
       1 <= y && 1 <= m <= 12 && 1 <= d <= DaysInMonth(y, m)
  }

  /** What the picker holds after `input.value = s`. */
  function PickerValue(s: string): (v: string)
    ensures v == "" || IsDateString(v)
    ensures IsDateString(s) ==> v == s
    ensures !IsDateString(s) ==> v == ""
  {
    if IsDateString(s) then s else ""
  }

  /** The Date constructor reads a year 0..99 as 1900..1999. */
  function JsYear(y: int): int {
    if 0 <= y <= 99 then 1900 + y else y
  }

  /** `new Date(year, monthIndex, day)` with a month index 0..11 and a day of at least 1. */
  function NewDate(year: int, monthIndex: int, day: int): (r: Date)
    requires 0 <= monthIndex <= 11 && 1 <= day
    ensures Valid(r)
    ensures r == AddDays(Date(JsYear(year), monthIndex + 1, 1), day - 1)
  {
    SetDateAddsDays(Date(JsYear(year), monthIndex + 1, 1), day - 1);
    Normalize(JsYear(year), monthIndex + 1, day)
  }

  lemma LeapYearUnshifted(y: int)
    requires 1 <= y
    ensures IsLeapYear(JsYear(y)) == IsLeapYear(y)
  {
  }

  /** `parseDateString`: split at the dashes, month made 0-based, local calendar fields. */
  function ParseDateString(s: string): (d: Date)
    requires IsDateString(s)
    ensures Valid(d) && 100 <= d.year <= 9999
    ensures d.month == Value(s[5..7]) && d.day == Value(s[8..])
    ensures d.year == JsYear(Value(s[..4]))
  {
    var y, m, dd := Value(s[..4]), Value(s[5..7]), Value(s[8..]);
    LeapYearUnshifted(y);
    NewDate(y, m - 1, dd)
  }

  /** The key of a day in years 100..9999 is a picker value that parses back to that day. */
  lemma ParseKeyRoundTrip(d: Date)
    requires Valid(d) && 100 <= d.year <= 9999
    ensures IsDateString(Key(d)) && ParseDateString(Key(d)) == d
  {
    var k := Key(d);
    KeyFields(d);
    ValueOfDigits(d.year, 4);
    ValueOfDigits(d.month, 2);
    ValueOfDigits(d.day, 2);
  }

  /** A picker value whose year is at least 100 is the key of the day it parses to. */
  lemma KeyParseRoundTrip(s: string)
    requires IsDateString(s) && 100 <= Value(s[..4])
    ensures Key(ParseDateString(s)) == s
  {
    var d := ParseDateString(s);
    KeyFields(d);
    DigitsOfValue(s[..4]);
    DigitsOfValue(s[5..7]);
    DigitsOfValue(s[8..]);
    var k := Key(d);
    assert k[..4] == s[..4] && k[4..7] == s[4..7] && k[7..] == s[7..];
    assert k == k[..4] + k[4..7] + k[7..];
    assert s == s[..4] + s[4..7] + s[7..];
  }

  /** A picker year 1..99 is read as 1900..1999, so its key is not the picked string. */
  lemma TwoDigitYearShift(s: string)
    requires IsDateString(s) && Value(s[..4]) <= 99
    ensures ParseDateString(s).year == Value(s[..4]) + 1900
    ensures Key(ParseDateString(s)) != s
  {
    var d := ParseDateString(s);
    KeyFields(d);
    if Key(d) == s {
      ValueOfDigits(d.year, 4);
    }
  }
}
