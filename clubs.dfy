/**
 * The club as the Go program keeps it: the client map, the slice of tables
 * and the Queue, updated in place by playEvent1-playEvent4 and closeEvent,
 * plus the writer's output. Each method is proved to do what the matching
 * Engine function says.
 */
module Clubs {
  import opened Wrappers
  import opened Times
  import opened Parsing
  import opened Queues
  import opened Billing
  import opened Engine

  class Club {
    /** tables[0] exists but is never a real table (main.go:53-56). */
    const tables: array<TableVal>
    const queue: Queue
    var clients: map<string, int>
    /** What has been written to the buffered writer so far. */
    var out: seq<Record>

    ghost predicate Valid()
      reads this, queue
    {
      queue.Valid()
    }

    ghost function Abstract(): State
      reads this, tables, queue
    {
      State(clients, tables[..], queue.Value())
    }

    /** main.go:56-74: the tables, the queue, the empty map and the opening-time line. */
    constructor (numberOfTables: nat, clubOpen: Time)
      ensures Valid() && fresh(tables) && fresh(queue)
      ensures Abstract() == Initial(numberOfTables) && out == [ClockLine(clubOpen)]
    {
      tables := new TableVal[numberOfTables + 1](_ => FreshTable);
      queue := new Queue();
      clients := map[];
      out := [ClockLine(clubOpen)];
      new;
      assert tables[..] == Initial(numberOfTables).tables;
    }

    method PlayEvent1(e: Event, clubOpen: Time, clubClose: Time)
      requires Valid()
      modifies this
      ensures Valid()
      ensures Abstract() == Arrive(old(Abstract()), e, clubOpen, clubClose).state
      ensures out == old(out) + Arrive(old(Abstract()), e, clubOpen, clubClose).out
    {
      out := out + [ClientLine(e.time, 1, e.client)];
      if IsFirstTimeEarlier(e.time, clubOpen) || IsFirstTimeEarlier(clubClose, e.time) {
        out := out + [ErrorLine(e.time, NotOpenYet)];
        return;
      }
      if e.client in clients {
        out := out + [ErrorLine(e.time, YouShallNotPass)];
        return;
      }
      clients := clients[e.client := NotSitting];
    }

    /**
     * playEvent2. `ok` is false where the Go program panics: an index outside
     * the slice (main.go:464), or a seated client moving to a free table, where
     * main.go:487 calls Len on the nil Queue once the old table is freed.
     */
    method PlayEvent2(e: Event) returns (ok: bool)
      requires Valid()
      modifies this, tables
      ensures Valid()
      ensures ok == Sit(old(Abstract()), e).Next?
      ensures ok ==> Abstract() == Sit(old(Abstract()), e).state
      ensures ok ==> out == old(out) + Sit(old(Abstract()), e).out
    {
      var code := if e.id == 0 then 12 else 2;
      out := out + [TableLine(e.time, code, e.client, e.table)];
      if e.client !in clients {
        out := out + [ErrorLine(e.time, ClientUnknown)];
        return true;
      }
      if e.table < 0 || e.table >= tables.Length {
        return false;
      }
      if tables[e.table].isBusy {
        out := out + [ErrorLine(e.time, PlaceIsBusy)];
        return true;
      }
      var clientTable := clients[e.client];
      if clientTable != NotSitting {
        return false;
      }
      tables[e.table] := tables[e.table].(isBusy := true, lastSit := Some(e.time));
      clients := clients[e.client := e.table];
      return true;
    }

    /** Frees tables[place] at `now` the way main.go:559-562 does; false on a nil LastSit. */
    method FreeTable(place: int, now: Time) returns (ok: bool)
      requires 0 <= place < tables.Length
      modifies tables
      ensures ok == Vacate(old(tables[place]), now).Some?
      ensures ok ==> tables[..] == old(tables[..])[place := Vacate(old(tables[place]), now).value]
    {
      tables[place] := tables[place].(isBusy := false);
      if tables[place].lastSit.None? {
        return false;
      }
      var periodOfPlaying := MakeTimeFromMinutes(SubtractTime(tables[place].lastSit.value, now));
      tables[place] := tables[place].(workTime := AddTwoTime(tables[place].workTime, periodOfPlaying));
      ok := CalculatePayment(tables, place, now);
    }

    /** "if somebody in queue is waiting", seat the front client at `place`. */
    method RefillTable(now: Time, place: int) returns (ok: bool)
      requires Valid()
      modifies this, tables, queue
      ensures Valid()
      ensures ok == Refill(old(Abstract()), now, place).Next?
      ensures ok ==> Abstract() == Refill(old(Abstract()), now, place).state
      ensures ok ==> out == old(out) + Refill(old(Abstract()), now, place).out
    {
      var waiting := queue.Len();
      if waiting > 0 {
        var clientFromQueue := queue.GetFront();
        ok := PlayEvent2(Event(now, 0, clientFromQueue, place));
      } else {
        ok := true;
      }
    }

    /** The loop of main.go:590-598: is any table 1..N free? */
    method HasFreeTable() returns (free: bool)
      ensures free == AnyFree(tables[..])
    {
      var i := 0;
      while i < tables.Length
        invariant 0 <= i <= tables.Length
        invariant forall j :: 1 <= j < i ==> tables[j].isBusy
      {
        if !tables[i].isBusy && i != 0 {
          return true;
        }
        i := i + 1;
      }
      return false;
    }

    method PlayEvent3(e: Event) returns (ok: bool)
      requires Valid()
      modifies this, tables, queue
      ensures Valid()
      ensures ok == Wait(old(Abstract()), e).Next?
      ensures ok ==> Abstract() == Wait(old(Abstract()), e).state
      ensures ok ==> out == old(out) + Wait(old(Abstract()), e).out
    {
      out := out + [ClientLine(e.time, 3, e.client)];
      if e.client !in clients {
        out := out + [ErrorLine(e.time, ClientUnknown)];
        return true;
      }
      var place := clients[e.client];
      if place != NotSitting {
        ok := WaitSeated(e, place);
      } else {
        ok := WaitIdle(e);
      }
    }

    /** main.go:555-587. */
    method WaitSeated(e: Event, place: int) returns (ok: bool)
      requires Valid() && e.client in clients
      modifies this, tables, queue
      ensures Valid()
      ensures ok == Engine.WaitSeated(old(Abstract()), e, place).Next?
      ensures ok ==> Abstract() == Engine.WaitSeated(old(Abstract()), e, place).state
      ensures ok ==> out == old(out) + Engine.WaitSeated(old(Abstract()), e, place).out
    {
      if place < 0 || place >= tables.Length {
        return false;
      }
      ok := FreeTable(place, e.time);
      if !ok {
        return false;
      }
      clients := clients[e.client := NotSitting];
      ok := RefillTable(e.time, place);
      if !ok {
        return false;
      }
      queue.PushBack(e.client);
    }

    /** main.go:590-615. */
    method WaitIdle(e: Event) returns (ok: bool)
      requires Valid()
      modifies this, queue
      ensures Valid() && ok
      ensures Abstract() == Engine.WaitIdle(old(Abstract()), e).state
      ensures out == old(out) + Engine.WaitIdle(old(Abstract()), e).out
    {
      var free := HasFreeTable();
      if free {
        out := out + [ErrorLine(e.time, CantWait)];
        return true;
      }
      var waiting := queue.Len();
      if waiting >= tables.Length - 1 {
        out := out + [ClientLine(e.time, 11, e.client)];
        clients := clients - {e.client};
        return true;
      }
      var inQueue := queue.IsInQueue(e.client);
      if !inQueue {
        queue.PushBack(e.client);
      }
      return true;
    }

    method PlayEvent4(e: Event) returns (ok: bool)
      requires Valid()
      modifies this, tables, queue
      ensures Valid()
      ensures ok == Leave(old(Abstract()), e).Next?
      ensures ok ==> Abstract() == Leave(old(Abstract()), e).state
      ensures ok ==> out == old(out) + Leave(old(Abstract()), e).out
    {
      out := out + [ClientLine(e.time, 4, e.client)];
      if e.client !in clients {
        out := out + [ErrorLine(e.time, ClientUnknown)];
        return true;
      }
      var clientPlace := clients[e.client];
      if clientPlace == NotSitting {
        var inQueue := queue.IsInQueue(e.client);
        if inQueue {
          queue.Remove(e.client);
        }
        clients := clients - {e.client};
        return true;
      }
      if clientPlace < 0 || clientPlace >= tables.Length {
        return false;
      }
      ok := FreeTable(clientPlace, e.time);
      if !ok {
        return false;
      }
      clients := clients - {e.client};
      ok := RefillTable(e.time, clientPlace);
    }

    method CloseEvent(now: Time, client: string) returns (ok: bool)
      requires Valid()
      modifies this, tables, queue
      ensures Valid()
      ensures ok == Close(old(Abstract()), client, now).Next?
      ensures ok ==> Abstract() == Close(old(Abstract()), client, now).state
      ensures ok ==> out == old(out) + Close(old(Abstract()), client, now).out
    {
      out := out + [ClientLine(now, 11, client)];
      var inQueue := queue.IsInQueue(client);
      if inQueue {
        queue.Remove(client);
        clients := clients - {client};
        return true;
      }
      var place := if client in clients then clients[client] else NotSitting;
      if place != NotSitting {
        if place < 0 || place >= tables.Length {
          return false;
        }
        ok := FreeTable(place, now);
        if !ok {
          return false;
        }
      }
      clients := clients - {client};
      return true;
    }
  }
}
