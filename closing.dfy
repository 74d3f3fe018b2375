/**
 * The end of the day (main.go:137-168) and the whole run: the event loop
 * keeps the invariant, the remaining clients leave in ascending name order at
 * closing time with code 11, the map is then empty, every table a departing
 * client held (and who was not still queued) is freed and billed, and the
 * report ends with the closing time and one summary line per table 1..N.
 */
module Closing {
  import opened Wrappers
  import opened Times
  import opened Parsing
  import opened Queues
  import opened Billing
  import opened Engine
  import opened Invariants
  import opened Events
  import opened Lexicographic
  import opened Driver

  /** One code-11 line per name, in order. */
  function Departures(names: seq<string>, now: Time): (r: seq<Record>)
    ensures |r| == |names|
    ensures forall k :: 0 <= k < |names| ==> r[k] == ClientLine(now, 11, names[k])
  {
    seq(|names|, k requires 0 <= k < |names| => ClientLine(now, 11, names[k]))
  }

  /** closeEvent of c frees table i: c sits there and ClientsInQueue does not hold the name. */
  ghost predicate Frees(s: State, c: string, i: int)
  {
    i != NotSitting && c in s.clients && s.clients[c] == i && !s.queue.IsInQueue(c)
  }

  /** Table i is freed by one of the departures. */
  ghost predicate ClosesAt(s: State, names: seq<string>, i: int)
  {
    exists k :: 0 <= k < |names| && Frees(s, names[k], i)
  }

  lemma ClosesAtCons(s: State, names: seq<string>, i: int)
    requires |names| > 0
    ensures ClosesAt(s, names, i) <==> Frees(s, names[0], i) || ClosesAt(s, names[1..], i)
  {
    if ClosesAt(s, names, i) {
      var k :| 0 <= k < |names| && Frees(s, names[k], i);
      if k > 0 {
        assert names[1..][k - 1] == names[k];
      }
    }
    if ClosesAt(s, names[1..], i) {
      var k :| 0 <= k < |names[1..]| && Frees(s, names[1..][k], i);
      assert names[k + 1] == names[1..][k];
    }
  }

  /** Departures of names that see the same seats and queue entries free the same tables. */
  lemma ClosesAtSame(s: State, s1: State, names: seq<string>, i: int)
    requires forall c :: c in names ==>
      && (c in s1.clients <==> c in s.clients)
      && (c in s.clients ==> s1.clients[c] == s.clients[c])
      && (s1.queue.IsInQueue(c) <==> s.queue.IsInQueue(c))
    ensures ClosesAt(s1, names, i) <==> ClosesAt(s, names, i)
  {
    if ClosesAt(s1, names, i) {
      var k :| 0 <= k < |names| && Frees(s1, names[k], i);
      assert Frees(s, names[k], i);
    }
    if ClosesAt(s, names, i) {
      var k :| 0 <= k < |names| && Frees(s, names[k], i);
      assert Frees(s1, names[k], i);
    }
  }

  /** The tables after the departures of `names`: those the departures free are vacated, the rest are as they were. */
  ghost function AfterClosing(s: State, names: seq<string>, now: Time): (r: seq<TableVal>)
    ensures |r| == |s.tables|
  {
    seq(|s.tables|, i requires 0 <= i < |s.tables| =>
      if ClosesAt(s, names, i) && Vacate(s.tables[i], now).Some? then Vacate(s.tables[i], now).value
      else s.tables[i])
  }

  /** The event loop keeps the invariant and the number of tables, and only appends to the output. */
  lemma {:induction false} FeedKeeps(s: State, out: seq<Record>, prev: Time, lines: seq<string>,
                                      n: nat, clubOpen: Time, clubClose: Time)
    requires Consistent(s, prev) && IsClock(prev) && IsClock(clubClose) && Minutes(prev) <= Minutes(clubClose)
    ensures var f := Feed(s, out, prev, lines, n, clubOpen, clubClose);
      f.Running? ==>
        Consistent(f.state, clubClose) && |f.state.tables| == |s.tables| && |f.out| >= |out| && f.out[..|out|] == out
    decreases |lines|
  {
    if |lines| == 0 {
      ClockForward(s, prev, clubClose);
      return;
    }
    var a := Admit(lines[0], n, clubClose, prev);
    if a.Some? {
      var e := a.value;
      PlayKeeps(s, e, clubOpen, clubClose, prev);
      PlayKeepsSize(s, e, clubOpen, clubClose);
      var o := Play(s, e, clubOpen, clubClose);
      if o.Next? {
        FeedKeeps(o.state, out + o.out, e.time, lines[1..], n, clubOpen, clubClose);
        var f := Feed(o.state, out + o.out, e.time, lines[1..], n, clubOpen, clubClose);
        if f.Running? {
          assert f.out[..|out|] == (f.out[..|out + o.out|])[..|out|];
        }
      }
    }
  }

  /** No event changes the number of tables. */
  lemma PlayKeepsSize(s: State, e: Event, clubOpen: Time, clubClose: Time)
    ensures Play(s, e, clubOpen, clubClose).Next? ==> |Play(s, e, clubOpen, clubClose).state.tables| == |s.tables|
  {
  }

  /** One departure: its line, and the state the next departures see. */
  lemma CloseStep(s: State, names: seq<string>, now: Time, clock: Time)
    requires Sound(s, clock) && Minutes(clock) <= Minutes(now) && |names| > 0
    requires forall a, b :: 0 <= a < b < |names| ==> names[a] != names[b]
    ensures var s1 := Close(s, names[0], now).state;
      && Close(s, names[0], now) == Next(s1, [ClientLine(now, 11, names[0])])
      && Sound(s1, now)
      && (forall c :: c in s1.clients <==> c in s.clients && c != names[0])
      && AfterClosing(s1, names[1..], now) == AfterClosing(s, names, now)
  {
    CloseKeeps(s, names[0], now, clock);
    CloseSparesRest(s, names, now);
    CloseStepTables(s, names, now, clock);
  }

  /** The departure of the first name leaves the seats and queue entries of the others as they were. */
  lemma CloseSparesRest(s: State, names: seq<string>, now: Time)
    requires |names| > 0 && Close(s, names[0], now).Next?
    requires forall a, b :: 0 <= a < b < |names| ==> names[a] != names[b]
    ensures var s1 := Close(s, names[0], now).state;
      forall c :: c in names[1..] ==>
        && c != names[0]
        && (c in s1.clients <==> c in s.clients)
        && (c in s.clients ==> s1.clients[c] == s.clients[c])
        && (s1.queue.IsInQueue(c) <==> s.queue.IsInQueue(c))
  {
    var rest := names[1..];
    forall c | c in rest ensures c != names[0] {
      var k :| 0 <= k < |rest| && rest[k] == c;
      assert names[k + 1] == c;
    }
  }

  /** After the first departure, the remaining departures close what all of them would have closed. */
  lemma CloseStepTables(s: State, names: seq<string>, now: Time, clock: Time)
    requires Sound(s, clock) && Minutes(clock) <= Minutes(now) && |names| > 0 && Close(s, names[0], now).Next?
    requires forall a, b :: 0 <= a < b < |names| ==> names[a] != names[b]
    requires var s1 := Close(s, names[0], now).state;
      forall c :: c in names[1..] ==>
        && (c in s1.clients <==> c in s.clients)
        && (c in s.clients ==> s1.clients[c] == s.clients[c])
        && (s1.queue.IsInQueue(c) <==> s.queue.IsInQueue(c))
    ensures AfterClosing(Close(s, names[0], now).state, names[1..], now) == AfterClosing(s, names, now)
  {
    var c0 := names[0];
    var s1 := Close(s, c0, now).state;
    var rest := names[1..];
    CloseTables(s, c0, now, clock);
    forall i | 0 <= i < |s.tables|
      ensures AfterClosing(s1, rest, now)[i] == AfterClosing(s, names, now)[i]
    {
      ClosesAtCons(s, names, i);
      ClosesAtSame(s, s1, rest, i);
      if Frees(s, c0, i) {
        forall k | 0 <= k < |rest| ensures !Frees(s, rest[k], i) {
          assert names[k + 1] == rest[k];
        }
      }
    }
  }

  /** closeEvent changes only the table it frees, which it vacates. */
  lemma CloseTables(s: State, c: string, now: Time, clock: Time)
    requires Sound(s, clock) && Minutes(clock) <= Minutes(now)
    ensures var t := Close(s, c, now).state.tables;
      && |t| == |s.tables|
      && (forall i :: 0 <= i < |s.tables| && Frees(s, c, i) ==> Vacate(s.tables[i], now) == Some(t[i]))
      && (forall i :: 0 <= i < |s.tables| && !Frees(s, c, i) ==> t[i] == s.tables[i])
  {
    if !s.queue.IsInQueue(c) && c in s.clients && s.clients[c] != NotSitting {
      assert TableSane(s.tables[s.clients[c]], clock);
    }
  }

  /**
   * The departures never panic on a sound state, and the tables end as
   * AfterClosing says.
   */
  lemma {:induction false} CloseAllEffect(s: State, out: seq<Record>, names: seq<string>, now: Time, clock: Time)
    requires Sound(s, clock) && Minutes(clock) <= Minutes(now)
    requires forall a, b :: 0 <= a < b < |names| ==> names[a] != names[b]
    ensures var o := CloseAll(s, out, names, now);
      && o.Next?
      && o.state.tables == AfterClosing(s, names, now)
    decreases |names|
  {
    if |names| == 0 {
      assert AfterClosing(s, names, now) == s.tables;
      return;
    }
    CloseStep(s, names, now, clock);
    var s1 := Close(s, names[0], now).state;
    var line := [ClientLine(now, 11, names[0])];
    var rest := names[1..];
    assert forall a, b :: 0 <= a < b < |rest| ==> rest[a] != rest[b] by {
      forall a, b | 0 <= a < b < |rest| ensures rest[a] != rest[b] {
        assert rest[a] == names[a + 1] && rest[b] == names[b + 1];
      }
    }
    CloseAllEffect(s1, out + line, rest, now, now);
    assert CloseAll(s, out, names, now) == CloseAll(s1, out + line, rest, now);
  }

  /** Each departure that does not panic writes exactly its code-11 line. */
  lemma {:induction false} CloseAllLines(s: State, out: seq<Record>, names: seq<string>, now: Time)
    ensures var o := CloseAll(s, out, names, now);
      o.Next? ==> o.out == out + Departures(names, now)
    decreases |names|
  {
    if |names| == 0 {
      assert Departures(names, now) == [];
    } else {
      var o1 := Close(s, names[0], now);
      if o1.Next? {
        assert o1.out == [ClientLine(now, 11, names[0])];
        CloseAllLines(o1.state, out + o1.out, names[1..], now);
        assert o1.out + Departures(names[1..], now) == Departures(names, now);
      }
    }
  }

  /** The departing names, and only they, leave the map. */
  lemma {:induction false} CloseAllClients(s: State, out: seq<Record>, names: seq<string>, now: Time, clock: Time)
    requires Sound(s, clock) && Minutes(clock) <= Minutes(now)
    ensures var o := CloseAll(s, out, names, now);
      o.Next? ==> forall c :: c in o.state.clients <==> c in s.clients && c !in names
    decreases |names|
  {
    if |names| > 0 {
      CloseKeeps(s, names[0], now, clock);
      var o1 := Close(s, names[0], now);
      assert forall c :: c in o1.state.clients <==> c in s.clients && c != names[0];
      CloseAllClients(o1.state, out + o1.out, names[1..], now, now);
      assert names == [names[0]] + names[1..];
    }
  }

  /** Departing tables are billed as calculatePayment bills; the others keep their accounts. */
  lemma AfterClosingBills(s: State, names: seq<string>, now: Time, clock: Time)
    requires Sound(s, clock) && Minutes(clock) <= Minutes(now)
    ensures forall i :: 0 <= i < |s.tables| && ClosesAt(s, names, i) ==> Billed(s.tables[i], AfterClosing(s, names, now)[i], now)
    ensures forall i :: 0 <= i < |s.tables| && !ClosesAt(s, names, i) ==> AfterClosing(s, names, now)[i] == s.tables[i]
  {
    forall i | 0 <= i < |s.tables| && ClosesAt(s, names, i)
      ensures Billed(s.tables[i], AfterClosing(s, names, now)[i], now)
    {
      var k :| 0 <= k < |names| && Frees(s, names[k], i);
      assert TableSane(s.tables[i], clock);
    }
  }

  /** The names the end of the day walks through: each client once, in ascending order. */
  lemma ClosingOrder(s: State)
    ensures var names := SortedNames(s.clients.Keys);
      && StrictlySorted(names) && (forall c :: c in names <==> c in s.clients)
      && (forall a, b :: 0 <= a < b < |names| ==> names[a] != names[b])
  {
    var names := SortedNames(s.clients.Keys);
    forall a, b | 0 <= a < b < |names| ensures names[a] != names[b] {
      LessIrreflexive(names[a]);
    }
  }

  /** After the departures at closing time nobody is left in the map. */
  lemma ClosingEmptiesClub(s: State, out: seq<Record>, clubClose: Time, clock: Time)
    requires Sound(s, clock) && Minutes(clock) <= Minutes(clubClose)
    ensures var o := CloseAll(s, out, SortedNames(s.clients.Keys), clubClose);
      o.Next? && o.state.clients == map[]
  {
    var names := SortedNames(s.clients.Keys);
    ClosingOrder(s);
    CloseAllEffect(s, out, names, clubClose, clock);
    CloseAllClients(s, out, names, clubClose, clock);
    var o := CloseAll(s, out, names, clubClose);
    assert o.state.clients.Keys == {};
  }

  /**
   * The end of the day on a sound state: the report is the output so far, a
   * code-11 line for each remaining client in ascending name order, the closing
   * time, and a summary line for each table 1..N, in order, with revenue
   * Payments * costPerHour and the work time of the table after the departures.
   */
  lemma EndOfDay(s: State, out: seq<Record>, clubClose: Time, costPerHour: int, clock: Time)
    requires Sound(s, clock) && Minutes(clock) <= Minutes(clubClose)
    ensures var names := SortedNames(s.clients.Keys);
      var tables := AfterClosing(s, names, clubClose);
      var r := Finish(s, out, clubClose, costPerHour);
      && r.Report?
      && r.lines == out + Departures(names, clubClose) + [ClockLine(clubClose)] + Summaries(tables, costPerHour)
  {
    var names := SortedNames(s.clients.Keys);
    ClosingOrder(s);
    CloseAllEffect(s, out, names, clubClose, clock);
    CloseAllLines(s, out, names, clubClose);
  }

  /** The summary lines name tables 1..N in order, each with its revenue and work time. */
  lemma SummariesInOrder(tables: seq<TableVal>, costPerHour: int)
    requires |tables| >= 1
    ensures |Summaries(tables, costPerHour)| == |tables| - 1
    ensures forall k :: 0 <= k < |tables| - 1 ==>
      Summaries(tables, costPerHour)[k] ==
        SummaryLine(k + 1, tables[k + 1].payments * costPerHour, tables[k + 1].workTime)
  {
  }

  /**
   * A run that gets through every event line ends with a report, never a
   * panic: it starts with the opening time, the state before closing is
   * consistent, and the last N lines are the summaries of tables 1..N.
   */
  lemma DayReport(n: nat, clubOpen: Time, clubClose: Time, costPerHour: int, lines: seq<string>)
    requires IsClock(clubClose)
    ensures var f := Feed(Initial(n), [ClockLine(clubOpen)], Time(0, 0), lines, n, clubOpen, clubClose);
      f.Running? ==>
        var r := RunSpec(n, clubOpen, clubClose, costPerHour, lines);
        && Consistent(f.state, clubClose) && |f.state.tables| == n + 1
        && r.Report? && |r.lines| >= n + 2 && r.lines[0] == ClockLine(clubOpen)
        && var tail := r.lines[|r.lines| - n..];
           forall k :: 0 <= k < n ==> tail[k].SummaryLine? && tail[k].table == k + 1
  {
    InitialConsistent(n);
    FeedKeeps(Initial(n), [ClockLine(clubOpen)], Time(0, 0), lines, n, clubOpen, clubClose);
    var f := Feed(Initial(n), [ClockLine(clubOpen)], Time(0, 0), lines, n, clubOpen, clubClose);
    if f.Running? {
      EndOfDay(f.state, f.out, clubClose, costPerHour, clubClose);
      var names := SortedNames(f.state.clients.Keys);
      var tables := AfterClosing(f.state, names, clubClose);
      SummariesInOrder(tables, costPerHour);
      var r := RunSpec(n, clubOpen, clubClose, costPerHour, lines);
      var head := f.out + Departures(names, clubClose) + [ClockLine(clubClose)];
      assert r.lines == head + Summaries(tables, costPerHour);
      assert r.lines[|r.lines| - n..] == Summaries(tables, costPerHour);
      assert f.out[0] == f.out[..1][0];
    }
  }
}
