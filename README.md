# pc-club in Dafny

A model of the computer-club event processor of `main.go`, with proofs about it.

The program reads a header: the number of tables N, the opening and closing time, and the price per hour. It then reads one event per line:

- kind 1: a client arrives;
- kind 2: a client takes table k;
- kind 3: a client waits;
- kind 4: a client leaves.

It answers on standard output with:

- the opening time;
- every event echoed, followed by the lines the event causes:
  - code 13 for an error;
  - code 12 when a queued client is seated automatically;
  - code 11 when a client is sent away;
- at closing time, a code-11 line for each remaining client, in name order;
- the closing time;
- one line per table 1..N with its revenue and its total busy time.

Billing counts started hours, and a stay of zero minutes costs one hour.

The model has three layers:

- **Functions on values.**
  - `Times`: the time helpers.
  - `Parsing`: `strconv.Atoi`, `strings.Split`, `parseTime`, `mustParseEvent`.
  - `Queues`: the queue value, a list of named elements plus the `ClientsInQueue` map.
  - `Billing`: the payment rule.
  - `Engine`: `playEvent1`-`playEvent4` and `closeEvent`. Each is a function from a club state to the next state and the lines written, or `Panic` where the Go program dies with a run-time panic.
  - `Driver.RunSpec`: the whole run, as a fold over the event lines.
- **Imperative code in the source's own form.**
  - Class `Queues.Queue`; its fields are the list and the map.
  - Class `Clubs.Club`; its fields are the client map, the array of tables, the queue and the output written so far.
  - `Billing.CalculatePayment`, with its counting loop.
  - `Driver.Run`, the body of `main`, with its loops.

  Each method is proved to leave its object in the state the matching function describes, and to append the lines that function writes.
- **Properties**, in modules `Events`, `Invariants`, `Closing` and `Lexicographic`:
  - what each event does, and that a refused event changes nothing;
  - an invariant that every admitted event keeps;
  - exactly when the program panics;
  - the end-of-day report;
  - that the order of Go's map iteration cannot change the output;
  - round trips, such as parsing a rendered time or echoed event line giving back the original.

Three behaviours of the code are easy to misread; the model follows the code in each:

- **Queue capacity.** `main.go:601` compares with `len(tables)-1`, and the slice holds N+1 tables (index 0 is unused), so the limit is N. `Events.CapacityIsNumberOfTables` shows a case with one table where a second waiting client is queued.
- **A seated client asking for another free table.** Every call of `playEvent2` leaves its `Queue` field nil, so `main.go:487` dereferences nil and the program panics. `Engine.Sit` returns `Panic` there, and `Invariants.PanicCases` lists every panic.
- **A negative table number.** It passes the checks of `main.go:98`, so, when the client is in the club, the index expression of `main.go:464` panics. For a client who has not arrived, `main.go:458-461` writes ClientUnknown and returns first.

## Model

| member | source | states |
|---|---|---|
| Times.EarlierIsMinuteOrder | main.go:333-340 | for minutes in 0..59, isFirstTimeEarlier holds exactly when the first time has fewer total minutes |
| Times.EarlierIsStrictOrder | main.go:333-340 | isFirstTimeEarlier is irreflexive, asymmetric, transitive and total on distinct times |
| Times.IsFirstTimeEarlier | main.go:333-340 | no contract of its own; described by Times.EarlierIsMinuteOrder and Times.EarlierIsStrictOrder |
| Times.SubtractTime | main.go:740-744 | the result is the difference of the total minutes; it is non-negative exactly when the latter time is not earlier |
| Times.QuotRem60 | main.go:514-521 | Go's truncating division by 60: quotient*60 + remainder rebuilds the dividend, and the remainder is in 0..59 for a non-negative dividend and in -59..0 for a negative one |
| Times.MakeTimeFromMinutes | main.go:514-521 | the time stands for exactly the given minutes, with minute 0..59 when they are non-negative |
| Times.AddTwoTime | main.go:355-365 | the sum in minutes is the sum of the two times; the carry keeps the minute in 0..59 (the hour is not wrapped) |
| Times.ClockStringShape | main.go:342-353 | a wall-clock time is written as five characters: two hour digits, ':', two minute digits |
| Times.MakeStringFromTime | main.go:342-353 | no contract of its own; described by Times.ClockStringShape and Parsing.FormatParseRoundTrip |
| Times.IntToString | main.go:450 | strconv.Itoa / %d; no contract of its own; described by Parsing.AtoiIntToString and Events.NoSpaceInNumbers |
| Parsing.AtoiOneChar | main.go:238-246 | Atoi of a one-character string accepts exactly a decimal digit and gives its value |
| Parsing.AtoiIntToString | main.go:287-290 | Atoi reads back every 64-bit integer as %d writes it |
| Parsing.Atoi | main.go:287-290 | an accepted value lies in the 64-bit range; what it accepts is described by Parsing.AtoiOneChar and Parsing.AtoiIntToString |
| Parsing.SplitJoin | main.go:277 | Split cuts at every space and loses nothing: joining the fields with spaces gives the line back, and no field contains a space |
| Parsing.SplitOneField | main.go:277 | a string without a space splits into itself |
| Parsing.SplitAtSpace | main.go:277 | splitting a + " " + b gives the fields of a followed by those of b |
| Parsing.Split | main.go:277 | strings.Split(line, " ") gives at least one field; described by Parsing.SplitJoin, Parsing.SplitOneField and Parsing.SplitAtSpace |
| Parsing.ParseTime | main.go:231-272 | an accepted time is a wall-clock time (hour 0..23, minute 0..59) |
| Parsing.ParseTimeAccepts | main.go:231-272 | parseTime accepts exactly five characters DD:DD with hour at most 23 and minute at most 59, and reads those digits |
| Parsing.FormatParseRoundTrip | main.go:231-272 | parseTime reads back every wall-clock time that makeStringFromTime writes |
| Parsing.ParseEvent | main.go:276-323 | an accepted line has a wall-clock time, a kind 1..4, a name over 0-9 a-z _ -, and a non-zero table exactly when it has a fourth field, which only kind 2 may have; which lines it accepts, and with which fields, is Parsing.ParseEventAccepts |
| Parsing.ValidName | main.go:291-302 | the name check of mustParseEvent; no contract of its own; used by Parsing.ParseEventAccepts |
| Parsing.ParseEventAccepts | main.go:276-323 | mustParseEvent accepts a line exactly when it has 3 or 4 fields, a valid time, an Atoi id 1..4, a valid name, and a fourth field only for id 2 holding a non-zero Atoi value; the event is built from those fields, with table 0 when there are three |
| Events.SignedIdAccepted | main.go:286-290 | a line whose id is written "+1", as strconv.Atoi allows, is accepted as an arrival of that client at that time |
| Events.TableOnlyForSit | main.go:304-308 | any event line of kind 1, 3 or 4 with a fourth field is refused, whatever the table |
| Events.UpperCaseNameRefused | main.go:291-302 | a name with an upper-case letter is refused |
| Queues.EmptyQueueCoherent | main.go:372-377 | a new queue is empty and satisfies the queue invariant |
| Queues.PushBackAppends | main.go:379-382 | PushBack appends the name at the back, makes IsInQueue true, adds one to Len and keeps the invariant; the queue stays free of duplicates when the name was not queued; every other name keeps its IsInQueue answer |
| Queues.PushBackTwice | main.go:379-382 | pushing a name that is already queued leaves the name twice in the list |
| Queues.GetFrontPops | main.go:388-397 | on an empty queue GetFront gives "" and changes nothing; otherwise it gives the front name, the rest of the list in order, one fewer element and no map entry for that name |
| Queues.GetFrontSparesOthers | main.go:388-397 | GetFront deletes only the front name's entry: every other name keeps its IsInQueue answer, also on a queue that holds a name twice |
| Queues.RemoveDeletes | main.go:400-404 | Remove deletes exactly the element the name's map entry points at, keeps the order of the others, shortens the list by one, drops the entry and keeps the invariant; every other name keeps its IsInQueue answer |
| Queues.IsInQueueIsListMembership | main.go:406-411 | while no name is queued twice, IsInQueue means the name is in the list |
| Queues.QueueVal.Len | main.go:384-386 | no contract of its own; the length of the list, used by Engine.WaitIdle and Events.WaitIdleCases |
| Queues.QueueVal.IsInQueue | main.go:406-411 | no contract of its own; a lookup in ClientsInQueue, described by Queues.IsInQueueIsListMembership |
| Queues.QueueVal.PushBack | main.go:379-382 | no contract of its own; described by Queues.PushBackAppends and Queues.PushBackTwice |
| Queues.QueueVal.GetFront | main.go:388-397 | no contract of its own; described by Queues.GetFrontPops and Queues.GetFrontSparesOthers |
| Queues.QueueVal.Remove | main.go:400-404 | requires an entry for the name; described by Queues.RemoveDeletes |
| Queues.Queue.constructor | main.go:372-377 | New gives an empty list and an empty map |
| Queues.Queue.PushBack | main.go:379-382 | the object's new value is the queue value after PushBack |
| Queues.Queue.Len | main.go:384-386 | the length of the list |
| Queues.Queue.GetFront | main.go:388-397 | the returned name and the new value are those GetFront gives on the old value |
| Queues.Queue.Remove | main.go:400-404 | the new value is the old one with the name removed; the list is one shorter |
| Queues.Queue.IsInQueue | main.go:406-411 | the answer is whether ClientsInQueue has the name |
| Billing.Charge | main.go:719-736 | a zero-minute stay costs 1 unit; a positive stay costs the number of started hours; a negative one costs nothing |
| Billing.ChargeExamples | main.go:723-733 | 0, 1 and 60 minutes cost 1 unit; 61 and 120 minutes cost 2; 121 minutes cost 3 |
| Billing.ChargeMonotone | main.go:729-733 | a longer stay of at least one minute never costs less |
| Billing.Vacate | main.go:557-562 | freeing a table needs a LastSit; it bills the stay, adds it to the work time and leaves the table not busy |
| Billing.CalculatePayment | main.go:719-736 | the loop adds Charge of the stay to the payments of that one table, and fails on a nil LastSit |
| Engine.Initial | main.go:56-70 | N+1 fresh tables, an empty client map and an empty queue |
| Engine.Arrive | main.go:420-439 | playEvent1 never panics |
| Engine.Occupy | main.go:507-508 | no contract of its own; a table becomes busy with LastSit now; used by Engine.Sit and described by Events.SitSeats |
| Engine.Sit | main.go:448-512 | no contract of its own; described by Events.SitSeats, Events.RefusalsChangeNothing, Invariants.SitKeeps and Invariants.PanicCases |
| Engine.SeatFront | main.go:567-584 | no contract of its own; described by Invariants.RefillPanics and Invariants.SeatKeeps |
| Engine.Refill | main.go:567-584 | no contract of its own; described by Invariants.RefillKeeps, Invariants.RefillPanics and Events.LeaveSeated |
| Engine.AnyFree | main.go:590-598 | no contract of its own; the loop computing it is Clubs.Club.HasFreeTable; used by Events.WaitIdleCases |
| Engine.Wait | main.go:544-616 | no contract of its own; described by Events.WaitSeatedRequeues, Events.WaitIdleCases and Invariants.WaitSeatedKeeps/WaitIdleKeeps |
| Engine.WaitSeated | main.go:555-587 | no contract of its own; described by Events.WaitSeatedRequeues, Events.WaitSeatedFront and Invariants.WaitSeatedKeeps |
| Engine.WaitIdle | main.go:590-615 | no contract of its own; described by Events.WaitIdleCases, Events.CapacityIsNumberOfTables and Invariants.WaitIdleKeeps |
| Engine.Leave | main.go:625-687 | no contract of its own; described by Events.LeaveIdle, Events.LeaveSeated, Invariants.LeaveKeeps and Invariants.PanicCases |
| Engine.Close | main.go:691-717 | no contract of its own; described by Closing.CloseTables, Closing.CloseSparesRest and Invariants.CloseKeeps |
| Engine.Play | main.go:103-131 | no contract of its own; described by Invariants.PlayKeeps, Closing.PlayKeepsSize and Driver.Dispatch |
| Engine.Echo | main.go:420-423 | no contract of its own; the echoed line is described by Events.EchoParsesBack |
| Engine.Render | main.go:420-454 | no contract of its own; the text of every output line: the echoes and errors of main.go:422-467, 546-550, 593, 602, 627-630 and 693, and the closing lines of main.go:72, 158 and 167; the echoed lines are described by Events.EchoParsesBack |
| Clubs.Club.constructor | main.go:56-74 | the club starts in the initial state and has written the opening time |
| Clubs.Club.PlayEvent1 | main.go:420-439 | the new state and the lines written are those of Arrive |
| Clubs.Club.PlayEvent2 | main.go:448-512 | it fails exactly where Sit panics; otherwise the new state and the lines are those of Sit |
| Clubs.Club.FreeTable | main.go:557-562 | it fails exactly on a nil LastSit; otherwise the table is vacated as Vacate says and no other table changes |
| Clubs.Club.RefillTable | main.go:567-584 | it seats the queue's front client as Refill does, and fails where Refill panics |
| Clubs.Club.HasFreeTable | main.go:590-598 | the loop finds a free table exactly when one of tables 1..N is free |
| Clubs.Club.PlayEvent3 | main.go:544-616 | it fails exactly where Wait panics; otherwise the new state and the lines are those of Wait |
| Clubs.Club.WaitSeated | main.go:555-587 | a seated client's wait: the state and lines of Engine.WaitSeated, failing where it panics |
| Clubs.Club.WaitIdle | main.go:590-615 | an idle client's wait never fails and does what Engine.WaitIdle says |
| Clubs.Club.PlayEvent4 | main.go:625-687 | it fails exactly where Leave panics; otherwise the new state and the lines are those of Leave |
| Clubs.Club.CloseEvent | main.go:691-717 | it fails exactly where Close panics; otherwise the new state and the lines are those of Close |
| Events.RefusalsChangeNothing | main.go:420-632 | a refused event writes its echo and its error and changes nothing; conversely, an error line right after the echo means the event was refused with that error |
| Events.ArrivalRegisters | main.go:432-438 | an arrival that is not refused enters the client, not seated, and writes only the echo |
| Events.SitSeats | main.go:457-511 | a table request that is not refused and does not panic comes from an idle client; it occupies that table from now, and changes nothing else |
| Events.LeaveIdle | main.go:636-643 | a client without a table leaving is dropped from the map, removed from the queue when ClientsInQueue has the name (keeping the order of the others), leaves the tables unchanged and writes only the echo |
| Events.LeaveSeated | main.go:644-686 | a seated client leaving frees and bills the table; with an empty queue the table stays free; otherwise the front client is taken from the queue and seated there with code 12, or gets ClientUnknown if no longer in the club |
| Events.WaitSeatedRequeues | main.go:554-587 | a seated client waiting frees and bills the table, refills it from the queue as a departure does, stays in the club not seated, and ends at the back of the queue |
| Events.WaitSeatedFront | main.go:567-586 | with a non-empty queue, the front client is seated at the freed table, or gets ClientUnknown, and the waiting client goes to the back |
| Events.WaitIdleCases | main.go:590-615 | an idle client who waits: refused with ICanWaitNoLonger! while a table is free; sent away with code 11 once the queue holds N names; otherwise queued at the back unless already queued |
| Events.CapacityIsNumberOfTables | main.go:600-606 | with one busy table, a second client who waits is queued and only a third is sent away |
| Events.NoSpaceInNumbers | main.go:342-353 | a rendered time or number contains no space |
| Events.SplitFields | main.go:277 | three fields without spaces, joined by spaces, split back into those three fields |
| Events.EchoParsesBack | main.go:276-323 | the line echoed for any valid event parses back, through mustParseEvent, to that same event |
| Invariants.InitialConsistent | main.go:56-70 | the initial state satisfies the invariant |
| Invariants.ClockForward | main.go:90-94 | the invariant survives the clock moving forward |
| Invariants.VacateSane | main.go:557-562 | vacating a table busy since an earlier time succeeds and leaves a well-formed account |
| Invariants.VacateKeeps | main.go:555-565 | freeing a seated client's table, and then dropping the client or marking it not seated, keeps the invariant |
| Invariants.SitKeeps | main.go:507-511 | a successful table request keeps the invariant |
| Invariants.SeatKeeps | main.go:507-511 | seating an idle client at a free table 1..N keeps the full invariant |
| Invariants.SeatSound | main.go:507-511 | that seating makes the client the only one at the table |
| Invariants.RefillKeeps | main.go:567-584 | seating the queue's front client at a freed table keeps the invariant |
| Invariants.WaitSeatedKeeps | main.go:555-587 | a seated client's wait keeps the invariant |
| Invariants.WaitIdleKeeps | main.go:590-615 | an idle client's wait keeps the invariant |
| Invariants.LeaveIdleKeeps | main.go:636-643 | an idle client's departure keeps the invariant |
| Invariants.LeaveSeatedKeeps | main.go:644-686 | a seated client's departure keeps the invariant |
| Invariants.LeaveKeeps | main.go:625-687 | every departure that does not panic keeps the invariant |
| Invariants.ArriveKeeps | main.go:420-439 | every arrival keeps the invariant |
| Invariants.PlayKeeps | main.go:103-131 | every admitted event that does not panic keeps the invariant at the event's time |
| Invariants.CloseKeeps | main.go:691-717 | a closing departure never panics on a sound state and keeps it sound |
| Invariants.RefillPanics | main.go:471-487 | auto-seating at a free table panics exactly when the front client is in the club and already seated |
| Invariants.PanicCases | main.go:448-512 | on a consistent state an event panics exactly when:<br>(1) a known client names a table outside the slice;<br>(2) a seated client asks for a free table;<br>(3) a seated client waits or leaves while the queue's front client, someone else, is seated |
| Lexicographic.LessIrreflexive | main.go:141 | no name is below itself in the order sort.Strings uses |
| Lexicographic.LessTransitive | main.go:141 | the order is transitive |
| Lexicographic.LessTotal | main.go:141 | any two different names are ordered |
| Lexicographic.LessAsymmetric | main.go:141 | the order is asymmetric |
| Lexicographic.Less | main.go:141 | no contract of its own; the byte order sort.Strings uses, described by the four lemmas above |
| Lexicographic.InsertSorted | main.go:141 | inserting into a sorted list keeps it sorted and adds exactly that name |
| Lexicographic.SortStrings | main.go:141 | sort.Strings yields an ascending permutation of its input |
| Lexicographic.SortedDistinct | main.go:141 | sorting names without repetitions gives a strictly ascending list |
| Lexicographic.StrictlySortedUnique | main.go:137-141 | two strictly ascending lists of the same names are equal |
| Lexicographic.SortedNames | main.go:137-141 | the sorted names of a set are strictly ascending and are exactly its elements |
| Lexicographic.SortAnyListing | main.go:137-141 | whatever order the map iteration lists the names in, sorting gives the same list |
| Closing.Departures | main.go:144-156 | one code-11 line at closing time per name, in the given order |
| Closing.FeedKeeps | main.go:81-132 | the event loop keeps the invariant and the number of tables, and only appends to the output |
| Closing.PlayKeepsSize | main.go:103-131 | no event changes the number of tables |
| Closing.CloseStep | main.go:144-156 | one closing departure writes its line, keeps the state sound, removes only that name, and leaves what the remaining departures free unchanged |
| Closing.CloseSparesRest | main.go:697-716 | a departure leaves the seats and queue entries of the other clients unchanged |
| Closing.CloseStepTables | main.go:144-156 | after the first departure, the remaining ones free the same tables all of them would have freed |
| Closing.CloseTables | main.go:703-713 | closeEvent vacates only the table of a seated client who is not queued, and changes no other table |
| Closing.CloseAllEffect | main.go:144-156 | the closing departures never panic on a sound state, and the tables end vacated as AfterClosing says |
| Closing.CloseAllLines | main.go:144-156 | the closing departures write exactly one code-11 line per name, in order |
| Closing.CloseAllClients | main.go:144-156 | the departing names, and only they, leave the client map |
| Closing.AfterClosingBills | main.go:703-713 | the tables freed at closing are billed as calculatePayment bills; the others keep their accounts |
| Closing.ClosingOrder | main.go:137-141 | the closing walk takes every client once, in strictly ascending name order |
| Closing.ClosingEmptiesClub | main.go:137-156 | after the closing departures the client map is empty |
| Closing.EndOfDay | main.go:137-168 | the report is the output so far, then the departures in name order, the closing time, and the summaries of the tables after the departures |
| Closing.SummariesInOrder | main.go:161-168 | one summary per table 1..N, in order, with revenue Payments * costPerHour and the table's work time |
| Closing.DayReport | main.go:72-168 | a run that gets through every event line ends with a report, never a panic; the report starts with the opening time and ends with the summaries of tables 1..N |
| Driver.Admit | main.go:81-101 | an admitted line parses; its time lies between the previous event's time and closing time; a kind-2 event names a table 1..N or a negative number; and this condition is also sufficient |
| Driver.Feed | main.go:81-132 | no contract of its own; described by Closing.FeedKeeps and computed by Driver.PlayLines |
| Driver.CloseAll | main.go:144-156 | no contract of its own; described by Closing.CloseAllEffect, Closing.CloseAllLines and Closing.CloseAllClients |
| Driver.Summaries | main.go:158-168 | no contract of its own; described by Closing.SummariesInOrder and computed by Driver.WriteSummaries |
| Driver.Finish | main.go:133-168 | no contract of its own; described by Closing.EndOfDay |
| Driver.RunSpec | main.go:53-168 | no contract of its own; described by Closing.DayReport and computed by Driver.Run |
| Driver.Dispatch | main.go:103-131 | the switch on the event kind does what Play says, and fails where Play panics |
| Driver.PlayLines | main.go:81-132 | the loop stops exactly where the event-loop fold stops, with the same result, and otherwise ends in the fold's state and output |
| Driver.SortedClients | main.go:137-141 | collecting the map's keys in any order and sorting them gives the sorted names of the map |
| Driver.CloseClients | main.go:144-156 | the closing loop ends in the state and output of the closing fold, and fails exactly where it panics |
| Driver.WriteSummaries | main.go:157-168 | writes the closing time and one summary per table 1..N, changing nothing else |
| Driver.Run | main.go:53-168 | the body of main returns exactly what the specification RunSpec gives on the same header values and lines |

## Left out

- Opening the file and reading the three header lines (`main.go:173-227`) are not modelled. `Driver.Run` takes the number of tables, the opening and closing times and the price as parameters. The scanner's lines are a sequence of strings.
- Output is a sequence of `Record` values. `Engine.Render` gives each record's text. Write errors are not modelled: the source discards all of them except the opening line's (`main.go:72-74`), which would end the run with `log.Fatal` and cannot happen on a fresh buffer.
- When `log.Fatal` halts the run (`Fatal`) or a panic does (`Panicked`), the buffered report is never flushed, so the result holds no lines. A run whose writer had already flushed part of a long report to standard output before dying is therefore not modelled.
- Strings are sequences of characters. Go's `len` counts bytes, so an input line with a non-ASCII character can be judged differently by the length test of `parseTime`.
- Go's string order in `sort.Strings` is also byte order. It agrees with the character order used here because client names are ASCII.
- `Parsing.Atoi` checks the range of a 64-bit `int`. Arithmetic on Payments, revenue (`payments * costPerHour`) and minute counts is unbounded in the model, so its 64-bit wrap-around is not modelled. Real inputs stay far below that range.
- The randomised iteration order of Go maps is modelled as an arbitrary choice in `Driver.SortedClients`. `Lexicographic.SortAnyListing` proves that the choice cannot change the result.
- The algorithm inside `sort.Strings` is not modelled. `Lexicographic.SortStrings` is an insertion sort that serves as a reference for its result, an ascending permutation.
- The source keeps a slice of references to `Table` objects (`[]*Table`). The model keeps an array of `TableVal` values: no two slots ever share a table, so updating one in place changes nothing else.
- Clubs.Club.PlayEvent2: when a seated client asks for a free table, the source bills the old table before the nil-queue panic. The model stops at the panic without those updates, which are lost with the program anyway.
- Clubs.Club.PlayEvent4: the source takes the queue's front client before it vacates the table; the model vacates first. The two steps touch different state, so the final state is the same.
- Queues.Queue.Remove: requires the name to be in `ClientsInQueue`. For an absent name the source passes a nil element to `list.Remove`, which dereferences it; every caller checks `IsInQueue` first.
- Invariants.CloseKeeps: states that a closing departure keeps the state sound, not the full invariant. A client who is seated and still queued (`main.go:586`) is only taken out of the queue by `closeEvent`, and the table stays busy with nobody at it; the model keeps that behaviour.
- Engine.Arrive: its own contract states only that it never panics. What it does is stated by `Events.ArrivalRegisters` and `Events.RefusalsChangeNothing`.
