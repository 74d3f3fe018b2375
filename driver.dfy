/**
 * The body of main after the three header lines (main.go:53-168): the event
 * loop with its checks, then the end of the day. The header values (number of
 * tables, opening and closing time, price per hour) are inputs; the event
 * lines are a sequence of strings and the output a sequence of records.
 */
module Driver {
  import opened Wrappers
  import opened Times
  import opened Parsing
  import opened Billing
  import opened Engine
  import opened Lexicographic
  import opened Clubs

  /**
   * How the program ends: it writes its report, or log.Fatal stops it on an
   * offending line, or it dies of a run-time panic. In the last two cases the
   * buffered report is not flushed.
   */
  datatype RunResult = Report(lines: seq<Record>) | Fatal(line: string) | Panicked

  datatype Progress = Running(state: State, out: seq<Record>) | Stopped(result: RunResult)

  /**
   * mustParseEvent and the checks of main.go:84-101 on one event line; None
   * where the program calls log.Fatal with that line.
   */
  function Admit(line: string, numberOfTables: nat, clubClose: Time, prev: Time): (r: Option<Event>)
    ensures ParseEvent(line).None? ==> r.None?
    ensures r.Some? ==> ParseEvent(line) == r
    ensures r.Some? ==> 1 <= r.value.id <= 4 && IsClock(r.value.time)
    ensures r.Some? && r.value.id == 2 ==> r.value.table != 0 && r.value.table <= numberOfTables
    ensures r.Some? && IsClock(prev) ==> Minutes(prev) <= Minutes(r.value.time)
    ensures r.Some? && IsClock(clubClose) ==> Minutes(r.value.time) <= Minutes(clubClose)
    ensures ParseEvent(line).Some? && IsClock(prev) && IsClock(clubClose) ==>
      var e := ParseEvent(line).value;
      (r.Some? <==> Minutes(prev) <= Minutes(e.time) <= Minutes(clubClose) &&
                    (e.id == 2 ==> e.table != 0 && e.table <= numberOfTables))
  {
    match ParseEvent(line)
    case None => None
    case Some(e) =>
      if IsFirstTimeEarlier(clubClose, e.time) || IsFirstTimeEarlier(e.time, prev) then None
      else if e.id == 2 && (e.table == 0 || e.table > numberOfTables) then None
      else Some(e)
  }

  /** The event loop of main.go:82-132, line by line; `prev` is prevEventTime. */
  function Feed(s: State, out: seq<Record>, prev: Time, lines: seq<string>,
                numberOfTables: nat, clubOpen: Time, clubClose: Time): Progress
    decreases |lines|
  {
    if |lines| == 0 then Running(s, out)
    else
      match Admit(lines[0], numberOfTables, clubClose, prev)
      case None => Stopped(Fatal(lines[0]))
      case Some(e) =>
        match Play(s, e, clubOpen, clubClose)
        case Panic => Stopped(Panicked)
        case Next(s1, more) => Feed(s1, out + more, e.time, lines[1..], numberOfTables, clubOpen, clubClose)
  }

  /** closeEvent for each name in turn (main.go:144-156). */
  function CloseAll(s: State, out: seq<Record>, names: seq<string>, now: Time): Outcome
    decreases |names|
  {
    if |names| == 0 then Next(s, out)
    else
      match Close(s, names[0], now)
      case Panic => Panic
      case Next(s1, more) => CloseAll(s1, out + more, names[1..], now)
  }

  /** The summary lines of main.go:161-167, one per table 1..N. */
  function Summaries(tables: seq<TableVal>, costPerHour: int): seq<Record>
  {
    if |tables| == 0 then []
    else
      seq(|tables| - 1, k requires 0 <= k < |tables| - 1 =>
        SummaryLine(k + 1, tables[k + 1].payments * costPerHour, tables[k + 1].workTime))
  }

  /** The end of the day: the remaining clients leave in name order, then the closing time and the summaries. */
  ghost function Finish(s: State, out: seq<Record>, clubClose: Time, costPerHour: int): RunResult
  {
    match CloseAll(s, out, SortedNames(s.clients.Keys), clubClose)
    case Panic => Panicked
    case Next(s1, out1) => Report(out1 + [ClockLine(clubClose)] + Summaries(s1.tables, costPerHour))
  }

  /** What the program does with the header values and the event lines. */
  ghost function RunSpec(numberOfTables: nat, clubOpen: Time, clubClose: Time, costPerHour: int,
                         lines: seq<string>): RunResult
  {
    match Feed(Initial(numberOfTables), [ClockLine(clubOpen)], Time(0, 0), lines, numberOfTables, clubOpen, clubClose)
    case Stopped(r) => r
    case Running(s, out) => Finish(s, out, clubClose, costPerHour)
  }

  /** The switch of main.go:103-131 on the Club. */
  method Dispatch(club: Club, e: Event, clubOpen: Time, clubClose: Time) returns (ok: bool)
    requires club.Valid()
    modifies club, club.tables, club.queue
    ensures club.Valid()
    ensures ok == Play(old(club.Abstract()), e, clubOpen, clubClose).Next?
    ensures ok ==> club.Abstract() == Play(old(club.Abstract()), e, clubOpen, clubClose).state
    ensures ok ==> club.out == old(club.out) + Play(old(club.Abstract()), e, clubOpen, clubClose).out
  {
    ok := true;
    if e.id == 1 {
      club.PlayEvent1(e, clubOpen, clubClose);
    } else if e.id == 2 {
      ok := club.PlayEvent2(e);
    } else if e.id == 3 {
      ok := club.PlayEvent3(e);
    } else if e.id == 4 {
      ok := club.PlayEvent4(e);
    }
  }

  /** The event loop of main.go:82-132 on the Club: Stopped where the program stops, else Running. */
  method PlayLines(club: Club, lines: seq<string>, numberOfTables: nat, clubOpen: Time, clubClose: Time)
    returns (stop: Option<RunResult>)
    requires club.Valid() && club.tables.Length == numberOfTables + 1
    modifies club, club.tables, club.queue
    ensures club.Valid()
    ensures var f := Feed(old(club.Abstract()), old(club.out), Time(0, 0), lines, numberOfTables, clubOpen, clubClose);
      match stop
      case Some(res) => f == Stopped(res)
      case None => f == Running(club.Abstract(), club.out)
  {
    ghost var start := Feed(club.Abstract(), club.out, Time(0, 0), lines, numberOfTables, clubOpen, clubClose);
    var prevEventTime := Time(0, 0);
    var i := 0;
    while i < |lines|
      invariant 0 <= i <= |lines|
      invariant club.Valid()
      invariant Feed(club.Abstract(), club.out, prevEventTime, lines[i..], numberOfTables, clubOpen, clubClose) == start
    {
      assert lines[i..][0] == lines[i] && lines[i..][1..] == lines[i + 1..];
      var admitted := Admit(lines[i], numberOfTables, clubClose, prevEventTime);
      if admitted.None? {
        return Some(Fatal(lines[i]));
      }
      var event := admitted.value;
      prevEventTime := event.time;
      var ok := Dispatch(club, event, clubOpen, clubClose);
      if !ok {
        return Some(Panicked);
      }
      i := i + 1;
    }
    return None;
  }

  /** The names in the client map, sorted (main.go:139-142). */
  method SortedClients(clients: map<string, int>) returns (sorted: seq<string>)
    ensures sorted == SortedNames(clients.Keys)
  {
    var names: seq<string> := [];
    var rest := clients.Keys;
    while rest != {}
      invariant forall x :: (x in names || x in rest) <==> x in clients
      invariant forall x :: x in rest ==> x !in names
      invariant forall a, b :: 0 <= a < b < |names| ==> names[a] != names[b]
      decreases rest
    {
      var x :| x in rest;
      names := names + [x];
      rest := rest - {x};
    }
    sorted := SortStrings(names);
    SortAnyListing(names, clients.Keys);
  }

  /** closeEvent for each name in turn (main.go:144-156); false where it panics. */
  method CloseClients(club: Club, names: seq<string>, now: Time) returns (ok: bool)
    requires club.Valid()
    modifies club, club.tables, club.queue
    ensures club.Valid()
    ensures ok == CloseAll(old(club.Abstract()), old(club.out), names, now).Next?
    ensures ok ==> CloseAll(old(club.Abstract()), old(club.out), names, now) == Next(club.Abstract(), club.out)
  {
    ghost var closing := CloseAll(club.Abstract(), club.out, names, now);
    var j := 0;
    while j < |names|
      invariant 0 <= j <= |names|
      invariant club.Valid()
      invariant CloseAll(club.Abstract(), club.out, names[j..], now) == closing
    {
      assert names[j..][0] == names[j] && names[j..][1..] == names[j + 1..];
      ok := club.CloseEvent(now, names[j]);
      if !ok {
        return false;
      }
      j := j + 1;
    }
    return true;
  }

  /** The closing time and the summaries (main.go:157-167). */
  method WriteSummaries(club: Club, numberOfTables: nat, clubClose: Time, costPerHour: int)
    requires club.tables.Length == numberOfTables + 1
    modifies club
    ensures club.Abstract() == old(club.Abstract())
    ensures club.out == old(club.out) + [ClockLine(clubClose)] + Summaries(club.tables[..], costPerHour)
  {
    club.out := club.out + [ClockLine(clubClose)];
    ghost var summaries := Summaries(club.tables[..], costPerHour);
    ghost var written := club.out;
    var i := 1;
    while i < numberOfTables + 1
      invariant 1 <= i <= numberOfTables + 1
      invariant club.out == written + summaries[..i - 1]
      invariant club.clients == old(club.clients)
    {
      var table := club.tables[i];
      var totalMoney := table.payments * costPerHour;
      club.out := club.out + [SummaryLine(i, totalMoney, table.workTime)];
      i := i + 1;
    }
    assert summaries[..numberOfTables] == summaries;
  }

  /** main.go:53-168 on a fresh Club. */
  method Run(numberOfTables: nat, clubOpen: Time, clubClose: Time, costPerHour: int, lines: seq<string>)
    returns (r: RunResult)
    ensures r == RunSpec(numberOfTables, clubOpen, clubClose, costPerHour, lines)
  {
    var club := new Club(numberOfTables, clubOpen);
    var stop := PlayLines(club, lines, numberOfTables, clubOpen, clubClose);
    if stop.Some? {
      return stop.value;
    }
    var names := SortedClients(club.clients);
    var ok := CloseClients(club, names, clubClose);
    if !ok {
      return Panicked;
    }
    WriteSummaries(club, numberOfTables, clubClose, costPerHour);
    return Report(club.out);
  }
}
