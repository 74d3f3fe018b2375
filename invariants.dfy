/**
 * The invariant the event engine keeps between events: every seated client
 * points at a busy table of its own, every busy table 1..N has such a client,
 * and the tables' accounts are well-formed durations and amounts. `clock` is a
 * time no earlier than any stay that is still running.
 */
module Invariants {
  import opened Wrappers
  import opened Times
  import opened Parsing
  import opened Queues
  import opened Billing
  import opened Engine

  /** A table's account: a non-negative amount, a work time with minute 0..59, a running stay started by `clock`. */
  ghost predicate TableSane(t: TableVal, clock: Time)
  {
    && t.payments >= 0
    && t.workTime.hour >= 0 && 0 <= t.workTime.minute < 60
    && (t.isBusy ==> t.lastSit.Some? && Minutes(t.lastSit.value) <= Minutes(clock))
  }

  /**
   * What every step keeps, end-of-day departures included: client values are
   * table indices, a seated client's table is busy and no other client is
   * seated there.
   */
  ghost predicate Sound(s: State, clock: Time)
  {
    && |s.tables| >= 1
    && WellFormed(s.queue)
    && (forall i :: 0 <= i < |s.tables| ==> TableSane(s.tables[i], clock))
    && (forall c :: c in s.clients ==> 0 <= s.clients[c] < |s.tables|)
    && (forall c :: c in s.clients && s.clients[c] != NotSitting ==> s.tables[s.clients[c]].isBusy)
    && (forall c, d :: c in s.clients && d in s.clients && c != d && s.clients[c] != NotSitting ==>
          s.clients[c] != s.clients[d])
  }

  /** Sound, and conversely each busy table has exactly one client in the map: the invariant between events. */
  ghost predicate Consistent(s: State, clock: Time)
  {
    && Sound(s, clock)
    && !s.tables[0].isBusy
    && (forall i :: 1 <= i < |s.tables| && s.tables[i].isBusy ==> i in s.clients.Values)
  }

  lemma InitialConsistent(n: nat)
    ensures Consistent(Initial(n), Time(0, 0))
  {
    EmptyQueueCoherent();
  }

  /** The bound `clock` may move forward. */
  lemma ClockForward(s: State, a: Time, b: Time)
    requires Minutes(a) <= Minutes(b)
    ensures Sound(s, a) ==> Sound(s, b)
    ensures Consistent(s, a) ==> Consistent(s, b)
  {
    if Sound(s, a) {
      forall i | 0 <= i < |s.tables| ensures TableSane(s.tables[i], b) {
        assert TableSane(s.tables[i], a);
      }
    }
  }

  /** Vacating a table that was busy since `clock` or earlier leaves a sane account. */
  lemma VacateSane(t: TableVal, clock: Time, now: Time)
    requires TableSane(t, clock) && t.isBusy && Minutes(clock) <= Minutes(now)
    ensures Vacate(t, now).Some? && TableSane(Vacate(t, now).value, now)
  {
  }

  /**
   * Vacating the table of seated client c at `now` and then dropping c from
   * the map or setting c to not seated keeps the invariant.
   */
  lemma VacateKeeps(s: State, c: string, now: Time, clock: Time)
    requires Sound(s, clock) && Minutes(clock) <= Minutes(now)
    requires c in s.clients && s.clients[c] != NotSitting
    ensures Vacate(s.tables[s.clients[c]], now).Some?
    ensures
      var p := s.clients[c];
      var t := s.tables[p := Vacate(s.tables[p], now).value];
      && Sound(s.(tables := t, clients := s.clients - {c}), now)
      && Sound(s.(tables := t, clients := s.clients[c := NotSitting]), now)
      && (Consistent(s, clock) ==>
            Consistent(s.(tables := t, clients := s.clients - {c}), now) &&
            Consistent(s.(tables := t, clients := s.clients[c := NotSitting]), now))
  {
    var p := s.clients[c];
    VacateSane(s.tables[p], clock, now);
    var t := s.tables[p := Vacate(s.tables[p], now).value];
    var s1 := s.(tables := t, clients := s.clients - {c});
    var s2 := s.(tables := t, clients := s.clients[c := NotSitting]);
    forall i | 0 <= i < |t| ensures TableSane(t[i], now) {
      if i != p {
        assert TableSane(s.tables[i], clock);
      }
    }
    assert Sound(s1, now);
    assert Sound(s2, now);
    if Consistent(s, clock) {
      forall i | 1 <= i < |t| && t[i].isBusy ensures i in s1.clients.Values && i in s2.clients.Values {
        assert i != p && s.tables[i].isBusy;
        var d :| d in s.clients && s.clients[d] == i;
        assert d != c;
        assert s1.clients[d] == i && s2.clients[d] == i;
      }
    }
  }

  /** A successful Sit (direct or the engine's own) keeps the invariant. */
  lemma SitKeeps(s: State, e: Event, clock: Time)
    requires Consistent(s, clock) && Minutes(clock) <= Minutes(e.time) && e.table != 0
    ensures Sit(s, e).Next? ==> Consistent(Sit(s, e).state, e.time)
  {
    ClockForward(s, clock, e.time);
    if Sit(s, e).Next? && e.client in s.clients && 0 <= e.table < |s.tables| && !s.tables[e.table].isBusy {
      SeatKeeps(s, e.client, e.table, e.time);
    }
  }

  /** Seating an idle client at a free table 1..N, which then starts its stay at `now`, keeps the invariant. */
  lemma SeatKeeps(s: State, c: string, p: int, now: Time)
    requires Consistent(s, now) && c in s.clients && s.clients[c] == NotSitting
    requires 1 <= p < |s.tables| && !s.tables[p].isBusy
    ensures Consistent(s.(tables := s.tables[p := Occupy(s.tables[p], now)], clients := s.clients[c := p]), now)
  {
    var s1 := s.(tables := s.tables[p := Occupy(s.tables[p], now)], clients := s.clients[c := p]);
    SeatSound(s, c, p, now);
    forall i | 1 <= i < |s1.tables| && s1.tables[i].isBusy ensures i in s1.clients.Values {
      if i == p {
        assert s1.clients[c] == p;
      } else {
        var d :| d in s.clients && s.clients[d] == i;
        assert d != c;
        assert s1.clients[d] == i;
      }
    }
  }

  /** The Sound part of SeatKeeps: the new stay is the only one at table p. */
  lemma SeatSound(s: State, c: string, p: int, now: Time)
    requires Sound(s, now) && c in s.clients && s.clients[c] == NotSitting
    requires 1 <= p < |s.tables| && !s.tables[p].isBusy
    ensures Sound(s.(tables := s.tables[p := Occupy(s.tables[p], now)], clients := s.clients[c := p]), now)
  {
    var s1 := s.(tables := s.tables[p := Occupy(s.tables[p], now)], clients := s.clients[c := p]);
    forall i | 0 <= i < |s1.tables| ensures TableSane(s1.tables[i], now) {
      assert TableSane(s.tables[i], now);
    }
    forall a, b | a in s1.clients && b in s1.clients && a != b && s1.clients[a] != NotSitting
      ensures s1.clients[a] != s1.clients[b]
    {
      if a != c && b != c {
        assert s1.clients[a] == s.clients[a] && s1.clients[b] == s.clients[b];
      } else if a == c {
        assert s.tables[s.clients[b]].isBusy || s.clients[b] == NotSitting;
      } else {
        assert s.tables[s.clients[a]].isBusy;
      }
    }
  }

  /** Seating the queue's front client at a table just freed keeps the invariant. */
  lemma RefillKeeps(s: State, now: Time, p: int, clock: Time)
    requires Consistent(s, clock) && Minutes(clock) <= Minutes(now) && p != 0
    ensures Refill(s, now, p).Next? ==> Consistent(Refill(s, now, p).state, now)
  {
    ClockForward(s, clock, now);
    if s.queue.Len() > 0 {
      GetFrontPops(s.queue);
      var (front, rest) := s.queue.GetFront();
      var s1 := s.(queue := rest);
      assert Consistent(s1, now);
      SitKeeps(s1, Event(now, 0, front, p), now);
    }
  }

  lemma WaitSeatedKeeps(s: State, e: Event, clock: Time)
    requires Consistent(s, clock) && Minutes(clock) <= Minutes(e.time)
    requires e.client in s.clients && s.clients[e.client] != NotSitting
    ensures var o := WaitSeated(s, e, s.clients[e.client]); o.Next? ==> Consistent(o.state, e.time)
  {
    var p := s.clients[e.client];
    VacateKeeps(s, e.client, e.time, clock);
    var s1 := s.(tables := s.tables[p := Vacate(s.tables[p], e.time).value],
                 clients := s.clients[e.client := NotSitting]);
    RefillKeeps(s1, e.time, p, e.time);
    var r := Refill(s1, e.time, p);
    if r.Next? {
      PushBackAppends(r.state.queue, e.client);
    }
  }

  lemma WaitIdleKeeps(s: State, e: Event, clock: Time)
    requires Consistent(s, clock) && Minutes(clock) <= Minutes(e.time)
    requires e.client in s.clients && s.clients[e.client] == NotSitting
    ensures Consistent(WaitIdle(s, e).state, e.time)
  {
    ClockForward(s, clock, e.time);
    PushBackAppends(s.queue, e.client);
    var s1 := s.(clients := s.clients - {e.client});
    forall i | 1 <= i < |s.tables| && s.tables[i].isBusy ensures i in s1.clients.Values {
      var d :| d in s.clients && s.clients[d] == i;
      assert d != e.client;
      assert s1.clients[d] == i;
    }
  }

  lemma LeaveIdleKeeps(s: State, e: Event, clock: Time)
    requires Consistent(s, clock) && Minutes(clock) <= Minutes(e.time)
    requires e.client in s.clients && s.clients[e.client] == NotSitting
    ensures Consistent(Leave(s, e).state, e.time)
  {
    ClockForward(s, clock, e.time);
    if s.queue.IsInQueue(e.client) {
      RemoveDeletes(s.queue, e.client);
    }
    var s1 := s.(clients := s.clients - {e.client});
    forall i | 1 <= i < |s.tables| && s.tables[i].isBusy ensures i in s1.clients.Values {
      var d :| d in s.clients && s.clients[d] == i;
      assert d != e.client;
      assert s1.clients[d] == i;
    }
  }

  lemma LeaveSeatedKeeps(s: State, e: Event, clock: Time)
    requires Consistent(s, clock) && Minutes(clock) <= Minutes(e.time)
    requires e.client in s.clients && s.clients[e.client] != NotSitting
    ensures Leave(s, e).Next? ==> Consistent(Leave(s, e).state, e.time)
  {
    var p := s.clients[e.client];
    VacateKeeps(s, e.client, e.time, clock);
    var s1 := s.(tables := s.tables[p := Vacate(s.tables[p], e.time).value],
                 clients := s.clients - {e.client});
    RefillKeeps(s1, e.time, p, e.time);
  }

  lemma LeaveKeeps(s: State, e: Event, clock: Time)
    requires Consistent(s, clock) && Minutes(clock) <= Minutes(e.time)
    ensures Leave(s, e).Next? ==> Consistent(Leave(s, e).state, e.time)
  {
    if e.client in s.clients {
      if s.clients[e.client] == NotSitting {
        LeaveIdleKeeps(s, e, clock);
      } else {
        LeaveSeatedKeeps(s, e, clock);
      }
    }
  }

  /** playEvent1 registers a new client without a table, which keeps the invariant. */
  lemma ArriveKeeps(s: State, e: Event, clubOpen: Time, clubClose: Time, clock: Time)
    requires Consistent(s, clock)
    ensures Consistent(Arrive(s, e, clubOpen, clubClose).state, clock)
  {
    if e.client !in s.clients {
      var s1 := Arrive(s, e, clubOpen, clubClose).state;
      forall i | 1 <= i < |s.tables| && s.tables[i].isBusy ensures i in s1.clients.Values {
        var d :| d in s.clients && s.clients[d] == i;
        assert d != e.client;
        assert s1.clients[d] == i;
      }
    }
  }

  /**
   * Every event the driver lets through keeps the invariant, and the clock
   * moves to the event's time.
   */
  lemma PlayKeeps(s: State, e: Event, clubOpen: Time, clubClose: Time, clock: Time)
    requires Consistent(s, clock) && Minutes(clock) <= Minutes(e.time)
    requires e.id == 2 ==> e.table != 0
    ensures Play(s, e, clubOpen, clubClose).Next? ==> Consistent(Play(s, e, clubOpen, clubClose).state, e.time)
  {
    ClockForward(s, clock, e.time);
    if e.id == 1 {
      ArriveKeeps(s, e, clubOpen, clubClose, e.time);
    } else if e.id == 2 {
      SitKeeps(s, e, e.time);
    } else if e.id == 3 {
      if e.client in s.clients {
        if s.clients[e.client] != NotSitting {
          WaitSeatedKeeps(s, e, e.time);
        } else {
          WaitIdleKeeps(s, e, e.time);
        }
      }
    } else if e.id == 4 {
      LeaveKeeps(s, e, e.time);
    }
  }

  /**
   * closeEvent never panics on a sound state and keeps it sound. It may leave a
   * busy table without a client (a seated client who is still queued is only
   * taken out of the queue), so it does not keep Consistent.
   */
  lemma CloseKeeps(s: State, client: string, now: Time, clock: Time)
    requires Sound(s, clock) && Minutes(clock) <= Minutes(now)
    ensures Close(s, client, now).Next? && Sound(Close(s, client, now).state, now)
  {
    ClockForward(s, clock, now);
    if s.queue.IsInQueue(client) {
      RemoveDeletes(s.queue, client);
    } else if client in s.clients && s.clients[client] != NotSitting {
      VacateKeeps(s, client, now, now);
    }
  }

  /** The queue's front client is someone other than c, is in the map, and is seated. */
  ghost predicate FrontSeated(s: State, c: string)
  {
    |s.queue.elems| > 0 && s.queue.elems[0].name != c &&
    s.queue.elems[0].name in s.clients && s.clients[s.queue.elems[0].name] != NotSitting
  }

  /** The auto-seat at a table p that nobody holds panics exactly when the front client is seated elsewhere. */
  lemma RefillPanics(s: State, now: Time, p: int)
    requires 0 <= p < |s.tables| && !s.tables[p].isBusy
    ensures Refill(s, now, p).Panic? <==>
      |s.queue.elems| > 0 && s.queue.elems[0].name in s.clients && s.clients[s.queue.elems[0].name] != NotSitting
  {
  }

  /**
   * On a consistent state the program panics only where a seated client is
   * seated again, directly (kind 2 to a free table) or by the auto-seat of a
   * queued client who already sits elsewhere, or where a known client names a
   * table outside the slice.
   */
  lemma PanicCases(s: State, e: Event, clubOpen: Time, clubClose: Time, clock: Time)
    requires Consistent(s, clock)
    ensures Play(s, e, clubOpen, clubClose).Panic? <==>
      || (e.id == 2 && e.client in s.clients &&
          (e.table < 0 || e.table >= |s.tables| ||
           (!s.tables[e.table].isBusy && s.clients[e.client] != NotSitting)))
      || ((e.id == 3 || e.id == 4) && e.client in s.clients && s.clients[e.client] != NotSitting &&
          FrontSeated(s, e.client))
  {
    if (e.id == 3 || e.id == 4) && e.client in s.clients && s.clients[e.client] != NotSitting {
      var c := e.client;
      var p := s.clients[c];
      assert TableSane(s.tables[p], clock);
      var t := s.tables[p := Vacate(s.tables[p], e.time).value];
      if e.id == 3 {
        RefillPanics(s.(tables := t, clients := s.clients[c := NotSitting]), e.time, p);
      } else {
        RefillPanics(s.(tables := t, clients := s.clients - {c}), e.time, p);
      }
    }
  }
}
