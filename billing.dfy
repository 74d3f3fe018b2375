/**
 * A table's accounts (main.go:30-35) and calculatePayment (main.go:719-736):
 * a stay is charged one unit per started hour, and at least one unit.
 */
module Billing {
  import opened Wrappers
  import opened Times

  /** One table; `lastSit` is None (a nil *Time) until somebody first sits down. */
  datatype TableVal = TableVal(isBusy: bool, payments: int, workTime: Time, lastSit: Option<Time>)

  /** A table as main creates it (main.go:58-63). */
  const FreshTable := TableVal(false, 0, Time(0, 0), None)

  /**
   * The units calculatePayment adds for a stay of `minutes`: one for a stay of
   * zero minutes, otherwise the number of started hours; a negative stay runs
   * the loop zero times.
   */
  function Charge(minutes: int): (units: int)
    ensures minutes == 0 ==> units == 1
    ensures minutes > 0 ==> (units - 1) * 60 < minutes <= units * 60
    ensures minutes < 0 ==> units == 0
  {
    if minutes == 0 then 1 else if minutes < 0 then 0 else (minutes + 59) / 60
  }

  lemma ChargeExamples()
    ensures Charge(0) == 1 && Charge(1) == 1 && Charge(60) == 1
    ensures Charge(61) == 2 && Charge(120) == 2 && Charge(121) == 3
  {
  }

  /** A longer stay never costs less, once it is at least a minute long. */
  lemma ChargeMonotone(m: int, m': int)
    requires 0 < m <= m'
    ensures 1 <= Charge(m) <= Charge(m')
  {
  }

  /**
   * Freeing a table at time `up`: the stay since lastSit is billed, added to
   * the work time, and the table is no longer busy. It fails (the source
   * dereferences nil) when nobody ever sat at the table.
   */
  function Vacate(t: TableVal, up: Time): (r: Option<TableVal>)
    ensures r.Some? <==> t.lastSit.Some?
    ensures r.Some? ==>
      var m := SubtractTime(t.lastSit.value, up);
      && !r.value.isBusy
      && r.value.payments == t.payments + Charge(m)
      && Minutes(r.value.workTime) == Minutes(t.workTime) + m
      && r.value.lastSit == t.lastSit
    ensures r.Some? && t.workTime.minute >= 0 && SubtractTime(t.lastSit.value, up) >= 0 ==>
      r.value.workTime.hour >= t.workTime.hour && 0 <= r.value.workTime.minute < 60
  {
    match t.lastSit
    case None => None
    case Some(sit) =>
      var m := SubtractTime(sit, up);
      Some(t.(isBusy := false,
              payments := t.payments + Charge(m),
              workTime := AddTwoTime(t.workTime, MakeTimeFromMinutes(m))))
  }

  /**
   * calculatePayment on tables[i]: counts 60-minute steps until the stay is
   * used up. `ok` is false where the source would dereference a nil LastSit.
   */
  method CalculatePayment(tables: array<TableVal>, i: int, up: Time) returns (ok: bool)
    requires 0 <= i < tables.Length
    modifies tables
    ensures ok == old(tables[i]).lastSit.Some?
    ensures ok ==> tables[..] == old(tables[..])[i := old(tables[i]).(payments :=
              old(tables[i]).payments + Charge(SubtractTime(old(tables[i]).lastSit.value, up)))]
    ensures !ok ==> tables[..] == old(tables[..])
  {
    if tables[i].lastSit.None? {
      return false;
    }
    var minutesOnTheComputer := SubtractTime(tables[i].lastSit.value, up);
    ghost var minutes := minutesOnTheComputer;
    if minutesOnTheComputer == 0 {
      tables[i] := tables[i].(payments := tables[i].payments + 1);
      return true;
    }
    var totalPayments := 0;
    while minutesOnTheComputer > 0
      invariant totalPayments >= 0
      invariant totalPayments * 60 + minutesOnTheComputer == minutes
      invariant minutes > 0 ==> minutesOnTheComputer > -60
      invariant minutes < 0 ==> totalPayments == 0
    {
      totalPayments := totalPayments + 1;
      minutesOnTheComputer := minutesOnTheComputer - 60;
    }
    tables[i] := tables[i].(payments := tables[i].payments + totalPayments);
    return true;
  }
}
