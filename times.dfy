/**
 * The hour:minute value of the club program (main.go:325-365, 514-521, 738-744).
 * A `Time` is either a wall-clock time (hour 0..23) or an accumulated duration
 * (the work time of a table), whose hour is unbounded.
 */
module Times {

  datatype Time = Time(hour: int, minute: int)

  /** The number of minutes a time value stands for. */
  function Minutes(t: Time): int
  {
    t.hour * 60 + t.minute
  }

  /** A wall-clock time, as parseTime produces it. */
  predicate IsClock(t: Time)
  {
    0 <= t.hour <= 23 && 0 <= t.minute <= 59
  }

  /** isFirstTimeEarlier: hour first, then minute. */
  predicate IsFirstTimeEarlier(t1: Time, t2: Time)
  {
    t1.hour < t2.hour || (t1.hour == t2.hour && t1.minute < t2.minute)
  }

  /** With minutes in 0..59 the comparison is the order of total minutes. */
  lemma EarlierIsMinuteOrder(a: Time, b: Time)
    requires 0 <= a.minute < 60 && 0 <= b.minute < 60
    ensures IsFirstTimeEarlier(a, b) <==> Minutes(a) < Minutes(b)
  {
  }

  /** isFirstTimeEarlier is a strict total order on time values. */
  lemma EarlierIsStrictOrder(a: Time, b: Time, c: Time)
    ensures !IsFirstTimeEarlier(a, a)
    ensures IsFirstTimeEarlier(a, b) ==> !IsFirstTimeEarlier(b, a)
    ensures IsFirstTimeEarlier(a, b) && IsFirstTimeEarlier(b, c) ==> IsFirstTimeEarlier(a, c)
    ensures a != b ==> IsFirstTimeEarlier(a, b) || IsFirstTimeEarlier(b, a)
  {
  }

  /** subtractTime: minutes from `earlier` to `latter`. */
  function SubtractTime(earlier: Time, latter: Time): (d: int)
    ensures d == Minutes(latter) - Minutes(earlier)
    ensures 0 <= earlier.minute < 60 && 0 <= latter.minute < 60 ==>
              (d >= 0 <==> !IsFirstTimeEarlier(latter, earlier))
  {
    (latter.hour * 60 + latter.minute) - (earlier.hour * 60 + earlier.minute)
  }

  /** Go's integer division, which truncates toward zero. */
  function Quot(a: int, b: int): int
    requires b > 0
  {
    if a >= 0 then a / b else -((-a) / b)
  }

  /** Go's remainder, whose sign follows the dividend. */
  function Rem(a: int, b: int): int
    requires b > 0
  {
    if a >= 0 then a % b else -((-a) % b)
  }

  /** Division by 60 as Go does it: quotient and remainder rebuild the dividend. */
  lemma QuotRem60(a: int)
    ensures Quot(a, 60) * 60 + Rem(a, 60) == a
    ensures a >= 0 ==> Quot(a, 60) >= 0 && 0 <= Rem(a, 60) < 60
    ensures a < 0 ==> Quot(a, 60) <= 0 && -60 < Rem(a, 60) <= 0
  {
    if a < 0 {
      assert (-a) / 60 * 60 + (-a) % 60 == -a;
    }
  }

  /** makeTimeFromMinutes: splits a number of minutes into hours and minutes. */
  function MakeTimeFromMinutes(minutes: int): (t: Time)
    ensures Minutes(t) == minutes
    ensures minutes >= 0 ==> t.hour >= 0 && 0 <= t.minute < 60
  {
    QuotRem60(minutes);
    Time(Quot(minutes, 60), Rem(minutes, 60))
  }

  /** addTwoTime: adds minutes with carry; the hour is not wrapped. */
  function AddTwoTime(t1: Time, t2: Time): (t: Time)
    ensures Minutes(t) == Minutes(t1) + Minutes(t2)
    ensures t1.minute + t2.minute >= 0 ==> 0 <= t.minute < 60
  {
    var newMinute := t1.minute + t2.minute;
    QuotRem60(newMinute);
    Time(t1.hour + t2.hour + Quot(newMinute, 60), Rem(newMinute, 60))
  }

  /** The character of a decimal digit. */
  function DigitChar(d: int): char
    requires 0 <= d <= 9
  {
    ('0' as int + d) as char
  }

  /** Decimal rendering of a natural number, as Go's %d writes it. */
  function NatToString(n: nat): (s: string)
    ensures |s| >= 1
    decreases n
  {
    if n < 10 then [DigitChar(n)] else NatToString(n / 10) + [DigitChar(n % 10)]
  }

  /** Decimal rendering of an integer, with a leading '-' when negative. */
  function IntToString(i: int): string
  {
    if i < 0 then "-" + NatToString(-i) else NatToString(i)
  }

  /** makeStringFromTime: "HH:MM", a '0' in front of each field below 10. */
  function MakeStringFromTime(t: Time): string
  {
    if t.hour < 10 && t.minute < 10 then "0" + IntToString(t.hour) + ":0" + IntToString(t.minute)
    else if t.hour < 10 then "0" + IntToString(t.hour) + ":" + IntToString(t.minute)
    else if t.minute < 10 then IntToString(t.hour) + ":0" + IntToString(t.minute)
    else IntToString(t.hour) + ":" + IntToString(t.minute)
  }

  /** Every wall-clock time is written as five characters "DD:DD". */
  lemma ClockStringShape(t: Time)
    requires IsClock(t)
    ensures var s := MakeStringFromTime(t);
      |s| == 5 && s[2] == ':' &&
      s[0] == DigitChar(t.hour / 10) && s[1] == DigitChar(t.hour % 10) &&
      s[3] == DigitChar(t.minute / 10) && s[4] == DigitChar(t.minute % 10)
  {
    TwoDigits(t.hour);
    TwoDigits(t.minute);
  }

  lemma TwoDigits(n: nat)
    requires n < 100
    ensures n < 10 ==> IntToString(n) == [DigitChar(n)]
    ensures n >= 10 ==> IntToString(n) == [DigitChar(n / 10), DigitChar(n % 10)]
  {
    if n >= 10 {
      assert NatToString(n / 10) == [DigitChar(n / 10)];
    }
  }
}
