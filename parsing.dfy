/**
 * Validation of the text of an input line: strconv.Atoi, strings.Split on a
 * single space, parseTime (main.go:231-272) and mustParseEvent
 * (main.go:276-323). Every log.Fatal of the source is a `None` here.
 */
module Parsing {
  import opened Wrappers
  import opened Times

  const MinInt64: int := -0x8000_0000_0000_0000
  const MaxInt64: int := 0x7fff_ffff_ffff_ffff

  predicate IsDigit(c: char)
  {
    '0' <= c <= '9'
  }

  function DigitValue(c: char): (d: int)
    requires IsDigit(c)
    ensures 0 <= d <= 9 && DigitChar(d) == c
  {
    c as int - '0' as int
  }

  predicate AllDigits(s: string)
  {
    forall i :: 0 <= i < |s| ==> IsDigit(s[i])
  }

  /** The value of a string of decimal digits. */
  function DecimalValue(s: string): nat
    requires AllDigits(s)
  {
    if |s| == 0 then 0 else DecimalValue(s[..|s| - 1]) * 10 + DigitValue(s[|s| - 1])
  }

  /**
   * strconv.Atoi on a 64-bit platform: an optional sign, then at least one
   * decimal digit, and a value that fits in an int.
   */
  function Atoi(s: string): (r: Option<int>)
    ensures r.Some? ==> MinInt64 <= r.value <= MaxInt64
  {
    var signed := |s| > 0 && (s[0] == '+' || s[0] == '-');
    var digits := if signed then s[1..] else s;
    if |digits| == 0 || !AllDigits(digits) then None
    else
      var v: int := if signed && s[0] == '-' then -(DecimalValue(digits) as int) else DecimalValue(digits);
      if v < MinInt64 || v > MaxInt64 then None else Some(v)
  }

  /** Atoi of a one-character string accepts exactly the digits. */
  lemma AtoiOneChar(c: char)
    ensures Atoi([c]) == if IsDigit(c) then Some(DigitValue(c)) else None
  {
    assert [c][1..] == [];
    if IsDigit(c) {
      assert [c][..0] == [];
      assert DecimalValue([c]) == DigitValue(c);
    }
  }

  lemma {:induction false} NatToStringDigits(n: nat)
    ensures AllDigits(NatToString(n)) && DecimalValue(NatToString(n)) == n
    decreases n
  {
    var s := NatToString(n);
    if n >= 10 {
      NatToStringDigits(n / 10);
      assert s[..|s| - 1] == NatToString(n / 10);
    } else {
      assert s[..0] == [];
    }
  }

  /** Atoi reads back what %d (strconv.Itoa) writes, for every int. */
  lemma AtoiIntToString(i: int)
    requires MinInt64 <= i <= MaxInt64
    ensures Atoi(IntToString(i)) == Some(i)
  {
    var s := IntToString(i);
    if i < 0 {
      NatToStringDigits(-i);
      assert s[0] == '-' && s[1..] == NatToString(-i);
      assert DecimalValue(s[1..]) == -i;
    } else {
      NatToStringDigits(i);
      assert IsDigit(s[0]);
      assert DecimalValue(s) == i;
    }
  }

  /** Putting one character in front of a split line: a space opens a new first field. */
  function Prepend(c: char, fields: seq<string>): (r: seq<string>)
    requires |fields| >= 1
    ensures |r| >= 1
  {
    if c == ' ' then [""] + fields else [[c] + fields[0]] + fields[1..]
  }

  /** Prepend only touches the first field, so it commutes with appending more fields. */
  lemma PrependAppend(c: char, r: seq<string>, more: seq<string>)
    requires |r| >= 1
    ensures Prepend(c, r + more) == Prepend(c, r) + more
  {
    if c != ' ' {
      assert (r + more)[1..] == r[1..] + more;
    }
  }

  /** strings.Split(s, " "): the fields between single spaces; never empty. */
  function Split(s: string): (fields: seq<string>)
    ensures |fields| >= 1
  {
    if |s| == 0 then [""] else Prepend(s[0], Split(s[1..]))
  }

  /** strings.Join(fields, " "), the inverse of Split. */
  function Join(fields: seq<string>): string
    requires |fields| >= 1
  {
    if |fields| == 1 then fields[0] else fields[0] + " " + Join(fields[1..])
  }

  /** Split cuts at every space and loses nothing: joining the fields gives the line back. */
  lemma {:induction false} SplitJoin(s: string)
    ensures Join(Split(s)) == s
    ensures forall i :: 0 <= i < |Split(s)| ==> ' ' !in Split(s)[i]
  {
    if |s| > 0 {
      SplitJoin(s[1..]);
      var rest := Split(s[1..]);
      if s[0] != ' ' {
        if |rest| == 1 {
          assert Split(s) == [[s[0]] + rest[0]];
        } else {
          assert Join(Split(s)) == [s[0]] + rest[0] + " " + Join(rest[1..]);
          assert Join(rest) == rest[0] + " " + Join(rest[1..]);
        }
        assert s == [s[0]] + s[1..];
        forall i | 0 <= i < |Split(s)| ensures ' ' !in Split(s)[i] {
          if i > 0 {
            assert Split(s)[i] == rest[i];
          }
        }
      } else {
        assert Split(s)[1..] == rest;
        assert s == " " + s[1..];
      }
    }
  }

  /** A field without spaces is one field. */
  lemma {:induction false} SplitOneField(s: string)
    requires ' ' !in s
    ensures Split(s) == [s]
  {
    if |s| > 0 {
      assert ' ' !in s[1..] by { assert forall c :: c in s[1..] ==> c in s; }
      SplitOneField(s[1..]);
      assert [s[0]] + s[1..] == s;
    }
  }

  /** One step of Split, for a line written as its first character and the rest. */
  lemma SplitCons(c: char, t: string)
    ensures Split([c] + t) == Prepend(c, Split(t))
  {
    assert ([c] + t)[0] == c && ([c] + t)[1..] == t;
  }

  /** Splitting a concatenation at a space is concatenating the splits. */
  lemma {:induction false} SplitAtSpace(a: string, b: string)
    ensures Split(a + " " + b) == Split(a) + Split(b)
  {
    if |a| == 0 {
      assert a + " " + b == [' '] + b;
      SplitCons(' ', b);
    } else {
      var t := a[1..] + " " + b;
      assert a + " " + b == [a[0]] + t;
      assert a == [a[0]] + a[1..];
      SplitAtSpace(a[1..], b);
      SplitCons(a[0], t);
      SplitCons(a[0], a[1..]);
      PrependAppend(a[0], Split(a[1..]), Split(b));
    }
  }

  /**
   * parseTime: exactly five characters, a digit at positions 0, 1, 3 and 4,
   * a ':' at position 2, an hour up to 23 and a minute up to 59.
   */
  function ParseTime(s: string): (r: Option<Time>)
    ensures r.Some? ==> IsClock(r.value)
  {
    if |s| != 5 then None
    else
      var hour1, hour2 := Atoi([s[0]]), Atoi([s[1]]);
      if hour1.None? || hour2.None? then None
      else
        var hour := hour1.value * 10 + hour2.value;
        if hour < 0 || hour > 23 then None
        else if s[2] != ':' then None
        else
          var minute1, minute2 := Atoi([s[3]]), Atoi([s[4]]);
          if minute1.None? || minute2.None? then None
          else
            var minute := minute1.value * 10 + minute2.value;
            if minute < 0 || minute > 59 then None else Some(Time(hour, minute))
  }

  /** What parseTime accepts, and the value it reads. */
  lemma ParseTimeAccepts(s: string)
    ensures ParseTime(s).Some? <==>
      |s| == 5 && IsDigit(s[0]) && IsDigit(s[1]) && s[2] == ':' && IsDigit(s[3]) && IsDigit(s[4]) &&
      DigitValue(s[0]) * 10 + DigitValue(s[1]) <= 23 && DigitValue(s[3]) * 10 + DigitValue(s[4]) <= 59
    ensures ParseTime(s).Some? ==>
      ParseTime(s).value == Time(DigitValue(s[0]) * 10 + DigitValue(s[1]), DigitValue(s[3]) * 10 + DigitValue(s[4]))
  {
    if |s| == 5 {
      AtoiOneChar(s[0]);
      AtoiOneChar(s[1]);
      AtoiOneChar(s[3]);
      AtoiOneChar(s[4]);
    }
  }

  /** parseTime reads back every wall-clock time makeStringFromTime writes. */
  lemma FormatParseRoundTrip(t: Time)
    requires IsClock(t)
    ensures ParseTime(MakeStringFromTime(t)) == Some(t)
  {
    ClockStringShape(t);
    var s := MakeStringFromTime(t);
    ParseTimeAccepts(s);
    assert DigitValue(s[0]) == t.hour / 10 && DigitValue(s[1]) == t.hour % 10;
    assert DigitValue(s[3]) == t.minute / 10 && DigitValue(s[4]) == t.minute % 10;
  }

  /** A client name may only use 0-9, a-z, '_' and '-' (main.go:293-297). */
  predicate IsValidSymbol(c: char)
  {
    ('0' <= c <= '9') || ('a' <= c <= 'z') || c == '_' || c == '-'
  }

  predicate ValidName(name: string)
  {
    forall i :: 0 <= i < |name| ==> IsValidSymbol(name[i])
  }

  /** One input event (main.go:23-28); `table` is 0 when the line has no table field. */
  datatype Event = Event(time: Time, id: int, client: string, table: int)

  /**
   * mustParseEvent: three or four fields, a valid time, an id from 1 to 4,
   * a valid name, and a fourth field only for id 2, holding a non-zero int.
   */
  function ParseEvent(line: string): (r: Option<Event>)
    ensures r.Some? ==> IsClock(r.value.time) && 1 <= r.value.id <= 4 && ValidName(r.value.client)
    ensures r.Some? ==> ' ' !in r.value.client
    ensures r.Some? && r.value.table != 0 ==> r.value.id == 2
    ensures r.Some? ==> (r.value.table != 0 <==> |Split(line)| == 4)
  {
    var fields := Split(line);
    SplitJoin(line);
    if |fields| < 3 || |fields| > 4 then None
    else
      match ParseTime(fields[0])
      case None => None
      case Some(eventTime) =>
        match Atoi(fields[1])
        case None => None
        case Some(eventId) =>
          if eventId < 1 || eventId > 4 then None
          else if !ValidName(fields[2]) then None
          else if |fields| == 4 then
            if eventId != 2 then None
            else
              match Atoi(fields[3])
              case None => None
              case Some(eventTable) =>
                if eventTable == 0 then None else Some(Event(eventTime, eventId, fields[2], eventTable))
          else Some(Event(eventTime, eventId, fields[2], 0))
  }

  /**
   * The lines mustParseEvent accepts, stated per field: every log.Fatal
   * condition of main.go:276-313 is negated, and the event is built from
   * fields 0 to 3.
   */
  lemma ParseEventAccepts(line: string)
    ensures var f := Split(line);
      ParseEvent(line).Some? <==>
        3 <= |f| <= 4 && ParseTime(f[0]).Some? && Atoi(f[1]).Some? &&
        1 <= Atoi(f[1]).value <= 4 && ValidName(f[2]) &&
        (|f| == 4 ==> Atoi(f[1]).value == 2 && Atoi(f[3]).Some? && Atoi(f[3]).value != 0)
    ensures var f := Split(line);
      ParseEvent(line).Some? ==>
        ParseEvent(line).value ==
          Event(ParseTime(f[0]).value, Atoi(f[1]).value, f[2], if |f| == 4 then Atoi(f[3]).value else 0)
  {
  }

}
