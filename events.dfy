/**
 * What each kind of event does to the club, stated against the Engine
 * functions: which events are refused and that a refusal changes nothing,
 * how a seated client's table is freed, billed and handed to the queue's
 * front client, how an idle client's wait is handled, and that the line
 * echoed for an event reads back as that event.
 */
module Events {
  import opened Wrappers
  import opened Times
  import opened Parsing
  import opened Queues
  import opened Billing
  import opened Engine
  import opened Invariants

  /**
   * The refusals of main.go:426-435, 458-461, 466-469, 549-552, 590-599 and
   * 629-632, collected in one place: the error an event gets, or None.
   */
  function Refusal(s: State, e: Event, clubOpen: Time, clubClose: Time): Option<ErrorKind>
  {
    if e.id == 1 then
      if IsFirstTimeEarlier(e.time, clubOpen) || IsFirstTimeEarlier(clubClose, e.time) then Some(NotOpenYet)
      else if e.client in s.clients then Some(YouShallNotPass)
      else None
    else if e.client !in s.clients then Some(ClientUnknown)
    else if e.id == 2 && 0 <= e.table < |s.tables| && s.tables[e.table].isBusy then Some(PlaceIsBusy)
    else if e.id == 3 && s.clients[e.client] == NotSitting && AnyFree(s.tables) then Some(CantWait)
    else None
  }

  /**
   * A refused event writes its own line and the error, and changes nothing;
   * conversely an error right after the echo means the event was refused.
   */
  lemma RefusalsChangeNothing(s: State, e: Event, clubOpen: Time, clubClose: Time)
    requires 1 <= e.id <= 4
    ensures Refusal(s, e, clubOpen, clubClose).Some? ==>
      Play(s, e, clubOpen, clubClose) == Next(s, [Echo(e), ErrorLine(e.time, Refusal(s, e, clubOpen, clubClose).value)])
    ensures var o := Play(s, e, clubOpen, clubClose);
      o.Next? && |o.out| >= 2 && o.out[1].ErrorLine? ==>
        o.state == s && |o.out| == 2 && Refusal(s, e, clubOpen, clubClose) == Some(o.out[1].error)
  {
    if e.id == 3 && e.client in s.clients && s.clients[e.client] != NotSitting {
      var o := WaitSeated(s, e, s.clients[e.client]);
      if o.Next? {
        var p := s.clients[e.client];
        var s1 := s.(tables := s.tables[p := Vacate(s.tables[p], e.time).value],
                     clients := s.clients[e.client := NotSitting]);
        assert Refill(s1, e.time, p).out == [] || Refill(s1, e.time, p).out[0].TableLine?;
      }
    }
  }

  /** Otherwise a kind-1 event enters the client, not seated, and changes nothing else (main.go:437). */
  lemma ArrivalRegisters(s: State, e: Event, clubOpen: Time, clubClose: Time)
    requires e.id == 1 && Refusal(s, e, clubOpen, clubClose).None?
    ensures Play(s, e, clubOpen, clubClose) == Next(s.(clients := s.clients[e.client := NotSitting]), [Echo(e)])
  {
  }

  /** A kind-2 event that is not refused seats the client, unless it panics. */
  lemma SitSeats(s: State, e: Event, clubOpen: Time, clubClose: Time)
    requires e.id == 2 && Refusal(s, e, clubOpen, clubClose).None?
    ensures var o := Play(s, e, clubOpen, clubClose);
      o.Next? ==>
        && 0 <= e.table < |s.tables| && s.clients[e.client] == NotSitting
        && o.out == [Echo(e)]
        && o.state.clients == s.clients[e.client := e.table]
        && o.state.queue == s.queue
        && o.state.tables == s.tables[e.table := s.tables[e.table].(isBusy := true, lastSit := Some(e.time))]
  {
  }

  /** `after` is `before` vacated at `now`: free, billed as calculatePayment bills, its work time grown by the stay. */
  ghost predicate Billed(before: TableVal, after: TableVal, now: Time)
  {
    && before.lastSit.Some?
    && !after.isBusy
    && after.payments == before.payments + Charge(SubtractTime(before.lastSit.value, now))
    && Minutes(after.workTime) == Minutes(before.workTime) + SubtractTime(before.lastSit.value, now)
    && after.lastSit == before.lastSit
  }

  /**
   * A client without a table leaves (main.go:636-643): the name leaves the
   * map, its queue element is removed when ClientsInQueue has it, the tables
   * stay as they were and only the echo is written.
   */
  lemma LeaveIdle(s: State, e: Event)
    requires e.id == 4 && e.client in s.clients && s.clients[e.client] == NotSitting && WellFormed(s.queue)
    ensures var o := Leave(s, e);
      && o.Next? && o.out == [Echo(e)]
      && o.state.tables == s.tables
      && o.state.clients == s.clients - {e.client}
      && !o.state.queue.IsInQueue(e.client)
      && (!s.queue.IsInQueue(e.client) ==> o.state.queue == s.queue)
      && (s.queue.IsInQueue(e.client) ==>
            var k := Position(s.queue.elems, s.queue.index[e.client]);
            Names(o.state.queue.elems) == Names(s.queue.elems)[..k] + Names(s.queue.elems)[k + 1..])
  {
    if s.queue.IsInQueue(e.client) {
      RemoveDeletes(s.queue, e.client);
    }
  }

  /**
   * A seated client leaves (main.go:644-686): the table is freed and billed;
   * with an empty queue it stays free; otherwise the front client is taken
   * from the queue and, when in the map and not seated, seated at the same
   * table at the same time with code 12; a front name that is no longer in
   * the map gets ClientUnknown and the table stays free.
   */
  lemma LeaveSeated(s: State, e: Event, clock: Time)
    requires Consistent(s, clock) && e.id == 4
    requires e.client in s.clients && s.clients[e.client] != NotSitting
    ensures var p := s.clients[e.client];
      Vacate(s.tables[p], e.time).Some? && Billed(s.tables[p], Vacate(s.tables[p], e.time).value, e.time)
    ensures
      var p := s.clients[e.client];
      var freed := s.tables[p := Vacate(s.tables[p], e.time).value];
      var gone := s.clients - {e.client};
      var o := Leave(s, e);
      && (s.queue.Len() == 0 ==> o == Next(State(gone, freed, s.queue), [Echo(e)]))
      && (s.queue.Len() > 0 ==>
            var front := Names(s.queue.elems)[0];
            var rest := s.queue.GetFront().1;
            && Names(rest.elems) == Names(s.queue.elems)[1..]
            && (front in gone && gone[front] == NotSitting ==>
                  o == Next(State(gone[front := p], freed[p := Occupy(freed[p], e.time)], rest),
                            [Echo(e), TableLine(e.time, 12, front, p)]))
            && (front !in gone ==>
                  o == Next(State(gone, freed, rest),
                            [Echo(e), TableLine(e.time, 12, front, p), ErrorLine(e.time, ClientUnknown)])))
  {
    var p := s.clients[e.client];
    assert TableSane(s.tables[p], clock);
    GetFrontPops(s.queue);
  }

  /**
   * A seated client waits (main.go:555-587): the table is freed, billed and
   * refilled exactly as when leaving, the client stays in the map but not
   * seated, and is then pushed to the back of the queue.
   */
  lemma WaitSeatedRequeues(s: State, e: Event, clock: Time)
    requires Consistent(s, clock) && e.id == 3
    requires e.client in s.clients && s.clients[e.client] != NotSitting
    ensures var p := s.clients[e.client];
      Vacate(s.tables[p], e.time).Some? && Billed(s.tables[p], Vacate(s.tables[p], e.time).value, e.time)
    ensures
      var p := s.clients[e.client];
      var freed := s.tables[p := Vacate(s.tables[p], e.time).value];
      var idle := s.clients[e.client := NotSitting];
      var o := Wait(s, e);
      && (s.queue.Len() == 0 ==>
            o == Next(State(idle, freed, s.queue.PushBack(e.client)), [Echo(e)]) &&
            Names(o.state.queue.elems) == Names(s.queue.elems) + [e.client])
      && (s.queue.Len() > 0 ==>
            var front := Names(s.queue.elems)[0];
            var rest := s.queue.GetFront().1;
            && (front in idle && idle[front] == NotSitting ==>
                  o == Next(State(idle[front := p], freed[p := Occupy(freed[p], e.time)], rest.PushBack(e.client)),
                            [Echo(e), TableLine(e.time, 12, front, p)]))
            && (front !in idle ==>
                  o == Next(State(idle, freed, rest.PushBack(e.client)),
                            [Echo(e), TableLine(e.time, 12, front, p), ErrorLine(e.time, ClientUnknown)]))
            && (o.Next? ==> Names(o.state.queue.elems) == Names(s.queue.elems)[1..] + [e.client]))
  {
    var p := s.clients[e.client];
    assert TableSane(s.tables[p], clock);
    if s.queue.Len() == 0 {
      PushBackAppends(s.queue, e.client);
    } else {
      WaitSeatedFront(s, e, p);
    }
  }

  lemma WaitSeatedFront(s: State, e: Event, p: int)
    requires WellFormed(s.queue) && s.queue.Len() > 0 && e.client in s.clients && s.clients[e.client] == p
    requires 0 <= p < |s.tables| && p != NotSitting && Vacate(s.tables[p], e.time).Some?
    ensures
      var freed := s.tables[p := Vacate(s.tables[p], e.time).value];
      var idle := s.clients[e.client := NotSitting];
      var o := WaitSeated(s, e, p);
      var front := Names(s.queue.elems)[0];
      var rest := s.queue.GetFront().1;
      && (front in idle && idle[front] == NotSitting ==>
            o == Next(State(idle[front := p], freed[p := Occupy(freed[p], e.time)], rest.PushBack(e.client)),
                      [TableLine(e.time, 12, front, p)]))
      && (front !in idle ==>
            o == Next(State(idle, freed, rest.PushBack(e.client)),
                      [TableLine(e.time, 12, front, p), ErrorLine(e.time, ClientUnknown)]))
      && (o.Next? ==> Names(o.state.queue.elems) == Names(s.queue.elems)[1..] + [e.client])
  {
    GetFrontPops(s.queue);
    PushBackAppends(s.queue.GetFront().1, e.client);
  }

  /**
   * A client without a table waits (main.go:588-615): refused while a table
   * 1..N is free; sent away with code 11 once the queue holds N names, even
   * when already queued (the name then stays in the queue); otherwise put at
   * the back unless ClientsInQueue already has the name.
   */
  lemma WaitIdleCases(s: State, e: Event)
    requires e.id == 3 && e.client in s.clients && s.clients[e.client] == NotSitting && WellFormed(s.queue)
    ensures var o := Wait(s, e); var n := |s.tables| - 1;
      && o.Next? && o.state.tables == s.tables
      && (AnyFree(s.tables) ==> o == Next(s, [Echo(e), ErrorLine(e.time, CantWait)]))
      && (!AnyFree(s.tables) && s.queue.Len() >= n ==>
            o == Next(s.(clients := s.clients - {e.client}), [Echo(e), ClientLine(e.time, 11, e.client)]))
      && (!AnyFree(s.tables) && s.queue.Len() < n ==>
            && o.out == [Echo(e)] && o.state.clients == s.clients && o.state.queue.IsInQueue(e.client)
            && Names(o.state.queue.elems) ==
                 (if s.queue.IsInQueue(e.client) then Names(s.queue.elems) else Names(s.queue.elems) + [e.client]))
  {
    PushBackAppends(s.queue, e.client);
  }

  /**
   * The queue holds up to N names, not N-1: with one table, taken, a second
   * client who waits is queued, and only a third one is sent away.
   */
  lemma CapacityIsNumberOfTables()
    ensures
      var t := Time(12, 0);
      var busy := TableVal(true, 0, Time(0, 0), Some(Time(11, 0)));
      var s := State(map["a" := 1, "b" := NotSitting, "c" := NotSitting], [FreshTable, busy], EmptyQueue);
      var o := Wait(s, Event(t, 3, "b", 0));
      && o.Next? && o.out == [ClientLine(t, 3, "b")] && Names(o.state.queue.elems) == ["b"]
      && Wait(o.state, Event(t, 3, "c", 0)) ==
           Next(o.state.(clients := o.state.clients - {"c"}), [ClientLine(t, 3, "c"), ClientLine(t, 11, "c")])
  {
    var t := Time(12, 0);
    var busy := TableVal(true, 0, Time(0, 0), Some(Time(11, 0)));
    var s := State(map["a" := 1, "b" := NotSitting, "c" := NotSitting], [FreshTable, busy], EmptyQueue);
    assert !AnyFree(s.tables);
    EmptyQueueCoherent();
    PushBackAppends(EmptyQueue, "b");
  }

  /** No space in a rendered time or number. */
  lemma NoSpaceInNumbers(t: Time, i: int)
    requires IsClock(t)
    ensures ' ' !in MakeStringFromTime(t) && ' ' !in IntToString(i)
  {
    ClockStringShape(t);
    var s := MakeStringFromTime(t);
    assert forall k :: 0 <= k < |s| ==> s[k] != ' ';
    var n := if i < 0 then -i else i;
    NatToStringDigits(n);
    var d := NatToString(n);
    assert forall k :: 0 <= k < |d| ==> d[k] != ' ';
    assert i < 0 ==> IntToString(i) == "-" + d;
  }

  /** Fields without spaces, joined by single spaces, split back into those fields. */
  lemma SplitFields(time: string, id: string, client: string)
    requires ' ' !in time && ' ' !in id && ' ' !in client
    ensures Split(time + " " + id + " " + client) == [time, id, client]
  {
    SplitOneField(time);
    SplitOneField(id);
    SplitOneField(client);
    SplitAtSpace(time, id);
    SplitAtSpace(time + " " + id, client);
  }

  /** An arrival whose id carries a '+' sign is accepted: strconv.Atoi reads "+1" as 1. */
  lemma SignedIdAccepted(t: Time, name: string)
    requires IsClock(t) && ValidName(name)
    ensures ParseEvent(MakeStringFromTime(t) + " +1 " + name) == Some(Event(t, 1, name, 0))
  {
    var time := MakeStringFromTime(t);
    NoSpaceInNumbers(t, 1);
    assert ' ' !in name by {
      assert forall k :: 0 <= k < |name| ==> name[k] != ' ';
    }
    SplitFields(time, "+1", name);
    assert time + " +1 " + name == time + " " + "+1" + " " + name;
    FormatParseRoundTrip(t);
    assert Atoi("+1") == Some(1) by {
      assert "+1"[1..] == "1";
      AtoiOneChar('1');
    }
    ParseEventAccepts(time + " +1 " + name);
  }

  /** A fourth field is refused on every event but a sit (kind 2), whatever table it names. */
  lemma TableOnlyForSit(t: Time, id: int, name: string, table: int)
    requires IsClock(t) && 1 <= id <= 4 && id != 2 && ValidName(name)
    ensures ParseEvent(MakeStringFromTime(t) + " " + IntToString(id) + " " + name + " " + IntToString(table)) == None
  {
    var time, ids, tables := MakeStringFromTime(t), IntToString(id), IntToString(table);
    NoSpaceInNumbers(t, id);
    NoSpaceInNumbers(t, table);
    assert ' ' !in name by {
      assert forall k :: 0 <= k < |name| ==> name[k] != ' ';
    }
    SplitFields(time, ids, name);
    SplitOneField(tables);
    SplitAtSpace(time + " " + ids + " " + name, tables);
    AtoiIntToString(id);
    ParseEventAccepts(time + " " + ids + " " + name + " " + tables);
  }

  /** A name holding a letter outside a-z, such as an upper-case one, is refused. */
  lemma UpperCaseNameRefused(t: Time, id: int, name: string, k: int)
    requires IsClock(t) && ' ' !in name && 0 <= k < |name| && 'A' <= name[k] <= 'Z'
    ensures ParseEvent(MakeStringFromTime(t) + " " + IntToString(id) + " " + name) == None
  {
    var time, ids := MakeStringFromTime(t), IntToString(id);
    NoSpaceInNumbers(t, id);
    SplitFields(time, ids, name);
    assert !IsValidSymbol(name[k]);
    ParseEventAccepts(time + " " + ids + " " + name);
  }

  /**
   * The line the program echoes for an event (main.go:422, 453, 546, 627)
   * reads back, through mustParseEvent, as that same event.
   */
  lemma EchoParsesBack(e: Event)
    requires IsClock(e.time) && 1 <= e.id <= 4 && ValidName(e.client)
    requires (e.table != 0 <==> e.id == 2) && MinInt64 <= e.table <= MaxInt64
    ensures ParseEvent(Render(Echo(e))) == Some(e)
  {
    var time, id := MakeStringFromTime(e.time), IntToString(e.id);
    NoSpaceInNumbers(e.time, e.id);
    NoSpaceInNumbers(e.time, e.table);
    assert ' ' !in e.client by {
      assert forall k :: 0 <= k < |e.client| ==> e.client[k] != ' ';
    }
    SplitFields(time, id, e.client);
    FormatParseRoundTrip(e.time);
    AtoiIntToString(e.id);
    var three := time + " " + id + " " + e.client;
    if e.id == 2 {
      var table := IntToString(e.table);
      SplitOneField(table);
      SplitAtSpace(three, table);
      AtoiIntToString(e.table);
      assert Render(Echo(e)) == three + " " + table;
      assert Split(three + " " + table) == [time, id, e.client, table];
    } else {
      assert Render(Echo(e)) == three;
    }
  }
}
