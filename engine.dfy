/**
 * The club's state machine as functions on values: playEvent1-playEvent4
 * (main.go:420-687), closeEvent (main.go:691-717) and the dispatch of
 * main.go:103-131. Each function returns the new state and the lines it
 * writes, or Panic where the Go program dies with a run-time panic.
 */
module Engine {
  import opened Wrappers
  import opened Times
  import opened Parsing
  import opened Queues
  import opened Billing

  /** The client-map value of a client who is in the club but not at a table. */
  const NotSitting := 0

  datatype ErrorKind = NotOpenYet | YouShallNotPass | PlaceIsBusy | ClientUnknown | CantWait

  /** The error strings of main.go:14-19. */
  function ErrorText(k: ErrorKind): string
  {
    match k
    case NotOpenYet => "NotOpenYet"
    case YouShallNotPass => "YouShallNotPass"
    case PlaceIsBusy => "PlaceIsBusy"
    case ClientUnknown => "ClientUnknown"
    case CantWait => "ICanWaitNoLonger!"
  }

  /** One line of the program's standard output. */
  datatype Record =
    | ClientLine(time: Time, code: int, client: string)             // codes 1, 3, 4 and 11
    | TableLine(time: Time, code: int, client: string, table: int)  // codes 2 and 12
    | ErrorLine(time: Time, error: ErrorKind)                        // code 13
    | ClockLine(time: Time)                                          // opening and closing time
    | SummaryLine(table: int, revenue: int, workTime: Time)          // one per table at the end

  /** The text of a line, as the WriteString calls compose it. */
  function Render(r: Record): string
  {
    match r
    case ClientLine(t, code, c) => MakeStringFromTime(t) + " " + IntToString(code) + " " + c
    case TableLine(t, code, c, table) =>
      MakeStringFromTime(t) + " " + IntToString(code) + " " + c + " " + IntToString(table)
    case ErrorLine(t, k) => MakeStringFromTime(t) + " 13 " + ErrorText(k)
    case ClockLine(t) => MakeStringFromTime(t)
    case SummaryLine(i, money, w) => IntToString(i) + " " + IntToString(money) + " " + MakeStringFromTime(w)
  }

  /** The line a client event writes first: its own text. */
  function Echo(e: Event): Record
  {
    if e.id == 2 then TableLine(e.time, 2, e.client, e.table) else ClientLine(e.time, e.id, e.client)
  }

  /**
   * The three registries: the client map (name to table, 0 for not seated),
   * the table slice (index 0 exists and is never a real table) and the queue.
   */
  datatype State = State(clients: map<string, int>, tables: seq<TableVal>, queue: QueueVal)

  datatype Outcome = Next(state: State, out: seq<Record>) | Panic

  /** The state main builds for n tables (main.go:56-70). */
  function Initial(n: nat): (s: State)
    ensures |s.tables| == n + 1 && s.clients == map[] && s.queue == EmptyQueue
    ensures forall i :: 0 <= i < |s.tables| ==> s.tables[i] == FreshTable
  {
    State(map[], seq(n + 1, _ => FreshTable), EmptyQueue)
  }

  /** The lines `out` written in front of whatever `o` writes. */
  function Prefix(out: seq<Record>, o: Outcome): Outcome
  {
    match o
    case Panic => Panic
    case Next(s, more) => Next(s, out + more)
  }

  /** A table becomes busy with the stay starting now (main.go:507-508). */
  function Occupy(t: TableVal, now: Time): TableVal
  {
    t.(isBusy := true, lastSit := Some(now))
  }

  /** playEvent1: a client arrives. */
  function Arrive(s: State, e: Event, clubOpen: Time, clubClose: Time): (r: Outcome)
    ensures r.Next?
  {
    var echo := [ClientLine(e.time, 1, e.client)];
    if IsFirstTimeEarlier(e.time, clubOpen) || IsFirstTimeEarlier(clubClose, e.time) then
      Next(s, echo + [ErrorLine(e.time, NotOpenYet)])
    else if e.client in s.clients then
      Next(s, echo + [ErrorLine(e.time, YouShallNotPass)])
    else
      Next(s.(clients := s.clients[e.client := NotSitting]), echo)
  }

  /**
   * playEvent2: a client asks for a table; id 0 marks the engine's own
   * seating of the queue's front client (code 12). Every caller leaves the
   * Queue field nil, so a seated client moving to a free table panics at
   * main.go:487 after the old table is freed.
   */
  function Sit(s: State, e: Event): Outcome
  {
    var echo := [TableLine(e.time, if e.id == 0 then 12 else 2, e.client, e.table)];
    if e.client !in s.clients then Next(s, echo + [ErrorLine(e.time, ClientUnknown)])
    else if e.table < 0 || e.table >= |s.tables| then Panic
    else if s.tables[e.table].isBusy then Next(s, echo + [ErrorLine(e.time, PlaceIsBusy)])
    else if s.clients[e.client] != NotSitting then Panic
    else
      Next(s.(tables := s.tables[e.table := Occupy(s.tables[e.table], e.time)],
              clients := s.clients[e.client := e.table]),
           echo)
  }

  /** The queue's front client is seated at `table` (main.go:489-503, 570-583, 648-672). */
  function SeatFront(s: State, now: Time, table: int): Outcome
  {
    var (front, rest) := s.queue.GetFront();
    Sit(s.(queue := rest), Event(now, 0, front, table))
  }

  /** "if somebody in queue is waiting", seat them at the table just freed. */
  function Refill(s: State, now: Time, table: int): Outcome
  {
    if s.queue.Len() > 0 then SeatFront(s, now, table) else Next(s, [])
  }

  /** Some table 1..N is free: the loop of main.go:590-598. */
  predicate AnyFree(tables: seq<TableVal>)
  {
    exists i :: 1 <= i < |tables| && !tables[i].isBusy
  }

  /** playEvent3: a client waits. */
  function Wait(s: State, e: Event): Outcome
  {
    var echo := [ClientLine(e.time, 3, e.client)];
    if e.client !in s.clients then Next(s, echo + [ErrorLine(e.time, ClientUnknown)])
    else if s.clients[e.client] != NotSitting then Prefix(echo, WaitSeated(s, e, s.clients[e.client]))
    else Prefix(echo, WaitIdle(s, e))
  }

  /**
   * A seated client waits (main.go:555-587): the table is freed and billed,
   * the queue's front client (if any) is seated there, and the client goes to
   * the back of the queue, already queued or not.
   */
  function WaitSeated(s: State, e: Event, place: int): Outcome
    requires e.client in s.clients
  {
    if place < 0 || place >= |s.tables| then Panic
    else
      match Vacate(s.tables[place], e.time)
      case None => Panic
      case Some(freed) =>
        var s1 := s.(tables := s.tables[place := freed], clients := s.clients[e.client := NotSitting]);
        match Refill(s1, e.time, place)
        case Panic => Panic
        case Next(s2, seated) => Next(s2.(queue := s2.queue.PushBack(e.client)), seated)
  }

  /**
   * A client without a table waits (main.go:590-615): refused while a table
   * is free; sent away (code 11) once the queue holds N names; otherwise
   * queued unless already queued.
   */
  function WaitIdle(s: State, e: Event): Outcome
  {
    if AnyFree(s.tables) then Next(s, [ErrorLine(e.time, CantWait)])
    else if s.queue.Len() >= |s.tables| - 1 then
      Next(s.(clients := s.clients - {e.client}), [ClientLine(e.time, 11, e.client)])
    else if s.queue.IsInQueue(e.client) then Next(s, [])
    else Next(s.(queue := s.queue.PushBack(e.client)), [])
  }

  /** playEvent4: a client leaves. */
  function Leave(s: State, e: Event): Outcome
  {
    var echo := [ClientLine(e.time, 4, e.client)];
    if e.client !in s.clients then Next(s, echo + [ErrorLine(e.time, ClientUnknown)])
    else
      var place := s.clients[e.client];
      if place == NotSitting then
        var q := if s.queue.IsInQueue(e.client) then s.queue.Remove(e.client) else s.queue;
        Next(s.(queue := q, clients := s.clients - {e.client}), echo)
      else if place < 0 || place >= |s.tables| then Panic
      else
        match Vacate(s.tables[place], e.time)
        case None => Panic
        case Some(freed) =>
          Prefix(echo, Refill(s.(tables := s.tables[place := freed], clients := s.clients - {e.client}), e.time, place))
  }

  /** closeEvent: the end-of-day departure of one client, written with code 11. */
  function Close(s: State, client: string, now: Time): Outcome
  {
    var out := [ClientLine(now, 11, client)];
    if s.queue.IsInQueue(client) then
      Next(s.(queue := s.queue.Remove(client), clients := s.clients - {client}), out)
    else
      var place := if client in s.clients then s.clients[client] else NotSitting;
      if place == NotSitting then Next(s.(clients := s.clients - {client}), out)
      else if place < 0 || place >= |s.tables| then Panic
      else
        match Vacate(s.tables[place], now)
        case None => Panic
        case Some(freed) => Next(s.(tables := s.tables[place := freed], clients := s.clients - {client}), out)
  }

  /** The switch of main.go:103-131; ids outside 1..4 never reach it. */
  function Play(s: State, e: Event, clubOpen: Time, clubClose: Time): Outcome
  {
    if e.id == 1 then Arrive(s, e, clubOpen, clubClose)
    else if e.id == 2 then Sit(s, e)
    else if e.id == 3 then Wait(s, e)
    else if e.id == 4 then Leave(s, e)
    else Next(s, [])
  }
}
