# Verification model of the industrial gateway

The program polls up to 50 Modbus and OPC UA clients at three rates (100 ms, 1 s, 1 min), runs each
reading through the counter attached to its client, and every few minutes publishes all values as one
JSON snapshot over MQTT. This project models that program in Dafny and proves what holds over its whole
runs, whatever the network, the broker and the timer signal do.

`dafny verify dfyconfig.toml` checks everything.

## How it is built

The state the program updates in place is kept in classes, one per source file, each method proved
against a function of the old state:

* `Counters.CounterTable` (counters.c), `ClientQueue.Queue` (client_queue.c), `Timer.SignalTimer`
  (timer.c), `Connections.Manager` (client_manager.c with the handle of opc_connect.c and the contexts of
  modbus_connect.c), the buffer-writing printer `Json.GetJson` (ts_data.c), and the word copying loops
  of `Decode` (`modbusToClientData`).
* `Gateway.Gateway` (main.c) wires them together and runs the INIT_SYS / PROCESS / SEND_DATA loop. Every
  answer from outside is a nondeterministic choice, and any number of timer signals may land before each
  step. The class records what happens in a ghost trace.

The value side says what those traces mean:

* `Machine` is the step relation: which event can come next and what it does to the timer, the countdown,
  the counters and the slots. `Gateway` keeps its real arrays and fields equal to what its trace leads to,
  so each law about legal traces is a law about the loop; the lemmas at the end of class `Gateway` restate
  the main ones about the fields in memory.
* `TickLaws` proves the timing laws, `EndToEnd` the laws about what is published, by projecting a trace to
  one client's history; `ClientRuns` and `CumulatedRuns` prove them about one history.
* `Snapshot` and `JsonParser` say what the text of a snapshot is and that reading it gives the fields back.
* `Values` follows one number from the device through counter and multiplier into its slot, in plain arithmetic, and
  replays the examples of the documentation.
* `Freshness` says when the order of the loop alone keeps every send fresh.
* `Witnesses` builds configurations and traces on which the program falls short, one for each exact condition.

The capacity (MAX_CLIENT_NUM), the send interval, the settings and the width of C `long` (32 or 64 bits)
are parameters. C conversions wrap in two's complement (`CInts`).

## Where the code does not do what its documentation says, or surprises

* "cumulated" is documented as counting changes (README.md:247). The code adds increases for INT and
  differences modulo 2^32 for DWORD (src/counters.c:94-136). The model follows the code.
* A failed poll in the INIT pass feeds a zero reading through the counter and skips the multiplier
  (src/main.c:444-466). For "cumulated_not_100" that publishes an unmultiplied 1:
  `Witnesses.UnmultipliedRun` is a run, `ClientRuns.ConservationOfFreshRuns` the exact condition.
* Counters restart on an accepted send, slots do not. A second accepted send without a poll in between
  publishes the same amount again: `Witnesses.StaleRun` is a run, `ClientRuns.Conservation` the exact condition.
  With sends at least two minutes apart, and for a client of the minute sweep always, only a failed poll can cause
  that (`Freshness.SchedulerKeepsFresh`); with an interval of one minute or less a faster client can be stale with no
  poll lost (`Witnesses.StaleTenthRun`, `Witnesses.StaleSecondRun`).
  Losing a poll can make a client report more (`Witnesses.LostPollRun`: 10 instead of 5);
  `ClientRuns.LossyPollsReportLess` says exactly when.
* A "cumulated" counter marks "not started" with -1. An overflow, or on a 32-bit `long` just a DWORD meter one
  below its start, takes it back there, and then an update is swallowed: `Witnesses.SwallowedRun` is a run,
  `CumulatedRuns.SentinelCollision`, `CumulatedRuns.TelescopesExactly` and `CumulatedRuns.Telescoping32` the exact
  conditions.
* `send_data` ignores the result of `get_json` (src/main.c:44-47): a snapshot that does not fit the buffer is
  published cut off, and is then not a JSON object (`Snapshot.SnapshotText`; `Witnesses.CutOffRun` is a run).
  With no field at all the printer leaves "}" (`Json.NoFieldsNoObject`); a configured gateway always has fields.
* The room the printer keeps is for lines of 100 characters, and a double alone may print in 316 (10^308 and
  more). A longer line is written past the buffer: `Json.WritesStayInsideExactly` says exactly when,
  `Witnesses.OverrunRun` is a run.
* An OPC value of another type than the client's is a successful reading of zero (src/opc_connect.c:142-238),
  which a counter then counts (`Connections.WrongTypeReadsZero`).
* The text of an OPC string is lost: strncpy reads at the address of the UA_String header, so it copies the bytes of
  the length, at most 7 characters of them with a 64-bit size_t (src/opc_connect.c:223,
  src/open62541.h:12839-12842; `Connections.OpcTextIsLost`).
* A Modbus DOUBLE is copied to the address of the DWORD field (src/client_manager.c:103), so the number that is
  published is whatever the shared buffer held before (`Connections.ModbusDoubleIsLost`).
* `opcConnect` leaves its handle behind when a certificate or key cannot be loaded
  (src/opc_connect.c:36-46). It does not leak, because a reconnect closes before it connects
  (`Connections.Manager.Reconnect`).

## Model

| member | source | states |
|---|---|---|
| Gateway.Gateway.Run | src/main.c:390-721 | After any number of rounds of the loop, from any state and under every behaviour of network, broker and timer, the invariant holds: the fields and arrays in memory are those a legal trace of the machine leads to, the trace only grows, and INIT_SYS is never re-entered |
| Gateway.Gateway.CountersBalance | src/main.c:390-721 | Between any two rounds: accepted published amounts plus what the counter in memory still holds (scaled) equal what the readings amount to, if and only if every accepted send was fresh |
| Gateway.Gateway.SlotShowsNetChange | src/counters.c:117-125 | The slot in memory of a DWORD "cumulated" client polled since the last accepted send is the scaled net change of the meter since then, modulo 2^32 |
| Gateway.Gateway.TicksBalance | src/main.c:476-713 | Between any two rounds: raises of a flag = sweeps + coalesced raises + 1 if the flag in memory is set; the timer counter in memory is the ticks mod 600, seconds were raised ticks div 10 times and minutes ticks div 600; sends are within the rate bound |
| Gateway.Gateway.ReadyToPrint | src/main.c:674-692 | Whenever the loop is about to send, every slot in memory has a name and a type the printer knows |
| Gateway.Gateway.LinksHold | src/main.c:68-98 | Connections are initialised at most once; at most one OPC handle is alive and only if it is referenced; every live Modbus context is the one of exactly one Modbus client; OPC clients share one flag; a connected client has its handle or context |
| Gateway.Gateway.Check | src/main.c:478-538 | Apart from ticks, exactly these events happen: if the flag is found set, the start of the sweep, one poll for each client of the lane in order, and the clearing of the flag; if it is found clear, nothing is polled. A flag that was set before is found set |
| Gateway.Gateway.Begin | src/main.c:540-548 | One event and the control state it leads to: the minute sweep counts down, and at 0 or below reloads the interval and makes the state SEND_DATA; the other sweeps do not |
| Gateway.Gateway.End | src/main.c:537-537 | Apart from ticks one event happens, the clearing of the flag, and only when every client of the lane has been polled; afterwards the flag is clear, whatever signals came before |
| Gateway.Gateway.Poll | src/main.c:506-534 | Apart from ticks one event happens: exactly one receive, with its numbers of reconnects and reads; if it succeeds the reading it delivered goes through counter, multiplier and slot, otherwise no counter and no slot changes |
| Gateway.Gateway.Store | src/main.c:509-526 | counterUpdate, counterGet, client_computation and client_to_mqtt together change the client's own counter and slot to what the machine records, and nothing else |
| Gateway.Gateway.Publish | src/main.c:689-711 | A snapshot renews the dynamic fields; all counters are reset if and only if the broker accepted |
| Gateway.Gateway.ResetCounters | src/main.c:694-706 | Exactly the configured clients' counters are reset |
| Gateway.Gateway.FirstPoll | src/main.c:408-467 | In the INIT pass one receive; a successful one is recorded scaled, a failed one records a zero reading of the client's type, unscaled |
| Gateway.Gateway.Survey | src/main.c:397-470 | Apart from ticks, exactly these events happen: the countdown and the device fields are set, then one INIT poll for each client in index order; the countdown is the interval |
| Gateway.Gateway.Initialize | src/main.c:52-118 | The loop leaves INIT_SYS exactly when broker, manager and timer are all up; until then the connections are initialised at most once |
| Gateway.Gateway.RegisterClients | src/main.c:79-95 | Registration never runs out of queue space; afterwards each lane holds the clients of its rate and every client's counter is prepared |
| Gateway.Gateway.SetStaticFields | src/main.c:234-265 | The six static device fields get their names, types and values; other slots and other members of these slots are unchanged |
| Gateway.Gateway.SetDynamicFields | src/main.c:193-232 | The same for the four dynamic fields, with the given time stamp |
| EndToEnd.Projection | src/counters.c:14-150 | Whatever the other clients do in between, client i's counter and slot are a fold over its own history |
| EndToEnd.HistoryLegal | src/main.c:408-467 | In every run a client's history starts with exactly one INIT reading, present once the INIT pass has reached it |
| EndToEnd.EndToEndAccounts | src/main.c:692-707 | In every run, for every counter and number type, within the range of the slot: accepted sums + scaled counter = scaled measure of the readings + what stale sends published again − what unmultiplied INIT counts fell short of |
| EndToEnd.EndToEndConservation | src/main.c:692-707 | Accepted sums + scaled counter equal the scaled measure if and only if each accepted send was fresh (given none carried an unmultiplied INIT count), and, of runs with fresh sends, if and only if none did; "difference" and "cumulated" clients never need the second condition |
| EndToEnd.SmallTotalsBalance | src/main.c:692-707 | They balance in every run with fresh, multiplied sends whose total is at most 2147483647, or 4294967295 for a DWORD with a 64-bit long |
| EndToEnd.EndToEndConservationModulo | src/counters.c:31-61 | The same accounts modulo 2^32 for every counter without any range assumption, as long as no update of a "cumulated" counter is swallowed |
| EndToEnd.NothingSwallowedInRange | src/counters.c:94-100 | No update is swallowed by a "difference" or "cumulated_not_100" counter, nor by a "cumulated" one that does not overflow |
| EndToEnd.EndToEndNetChange | src/counters.c:117-125 | A DWORD "cumulated" client: its fresh slot is the scaled net change since the last accepted send, and its accepted sums and the change not yet sent are the net change since the first reading plus what stale sends published again, modulo 2^32 |
| Freshness.SchedulerKeepsFresh | src/main.c:476-713 | In every run in which no poll of a client fails, all its accepted sends are fresh, if it is polled by the minute sweep or the send interval is at least two minutes; then the accounts balance |
| EndToEnd.LossyIsLegal | src/main.c:530-534 | Turning any polls of a run into failures leaves a possible run with the same control state |
| EndToEnd.LossyRunsMeasureLess | src/main.c:530-534 | In a run with some polls lost the readings of a "difference" client amount to no more than without the loss; no range or freshness is assumed |
| EndToEnd.LossyRunsReportLess | src/main.c:530-534 | In a run with some polls lost a "difference" client within range reports at most what it reports without the loss, plus what its stale sends publish again; exactly when it reports no more at all; and always so if its sends stay fresh |
| EndToEnd.SlotsWellFormed | src/main.c:128-265 | Device slots are printable from preparation on, a client's slot from its INIT poll on, even if every poll fails |
| EndToEnd.SnapshotsPrintable | src/ts_data.c:82-82 | In every snapshot of every run all fields are named and printable, so the unknown-type return is unreachable |
| EndToEnd.SentinelGone | src/counters.c:254-257 | After a client's INIT reading its "cumulated" counter is never -1 again unless the counter overflows, so no reset meets the sentinel |
| ClientRuns.ValueIsWindow | src/counters.c:14-150 | A counter that does not overflow holds exactly the measure added since the last accepted send |
| ClientRuns.CounterIsWindow | src/counters.c:14-150 | Within the range of the slot, a slot polled since then holds it scaled |
| ClientRuns.AcceptedPlusWindow | src/main.c:692-707 | For every history within range: accepted sum + scaled window = scaled total + what stale sends published twice − what unmultiplied INIT counts fell short of |
| ClientRuns.Conservation | src/main.c:692-707 | Conservation holds if and only if every accepted send found the client polled since the previous one, or its slot at 0 |
| ClientRuns.ConservationOfFreshRuns | src/main.c:444-466 | With fresh sends it holds if and only if no accepted send carried a count left unmultiplied by a failed INIT poll |
| ClientRuns.StaleSendCountsTwice | src/main.c:692-707 | A history without freshness: readings amount to 5 and 10 is published |
| ClientRuns.InitMissSkipsMultiplier | src/main.c:444-466 | A history with a failed INIT poll: readings amount to 60 and 1 is published |
| ClientRuns.CountsUnlessSwallowed | src/counters.c:94-100 | For every counter, without any range: it is the window modulo 2^32 throughout a history if and only if every later reading that found a "cumulated" counter at -1 added just 1 |
| ClientRuns.CounterIsWindowModulo | src/counters.c:31-61 | If no update is swallowed, counter and fresh slot are the window and the scaled window modulo 2^32 |
| ClientRuns.ReportModulo | src/counters.c:31-61 | If no update is swallowed, the report is what the readings amount to, plus stale sends, less unmultiplied ones, modulo 2^32 |
| ClientRuns.ConservationModulo | src/counters.c:31-61 | Conservation modulo 2^32 with no range assumption, for every counter, for INT and DWORD |
| ClientRuns.LossyTotal | src/counters.c:136-136 | Losing any subset of the polls never raises what the readings of a "difference" client amount to |
| ClientRuns.LossyPollsReportLess | src/counters.c:136-136 | Within range, losing any subset of the polls raises the report by at most what stale sends publish again; exactly when it does not raise it; never if the sends stay fresh |
| ClientRuns.LostPollReportsMore | src/main.c:692-707 | Two histories that differ in one lost poll: 5 is reported with it and 10 without |
| ClientRuns.MeterReportsLastReading | src/counters.c:31-61 | For a meter that never runs backwards the report is the last successful reading, scaled, plus what stale sends published again; just that reading if and only if all sends were fresh |
| ClientRuns.CurrentIsLatest | src/counters.c:136-136 | The stored previous reading is the latest reading of the history |
| Values.IntIntoSlot | src/main.c:279-298 | A reading n of an uncounted INT client is published as n, or ≡ 60·n, 1000·n or 60000000·n modulo 2^32, by its computation |
| Values.DwordIntoSlot | src/main.c:299-318 | The same for a DWORD |
| Values.DoubleIntoSlot | src/main.c:319-338 | A reading x of a DOUBLE client is published as x, x·60.0, x·1000.0 or x·60000000.0 |
| Values.OthersIntoSlot | src/main.c:128-191 | A BOOL, ENUM, CHAR or TIME is published as it is read |
| Values.CountIntoSlot | src/main.c:509-526 | The slot of a counted client is its counter times 1, 60, 1000 or 60000000, modulo 2^32 |
| Values.RegistersIntoSlot | src/main.c:506-529 | A number a Modbus device sends in its registers is published as itself times 1, 60, 1000 or 60000000, modulo 2^32 |
| Values.FailedInitShowsZero | src/main.c:444-466 | After a failed INIT poll the slot shows zero, of each type; a "cumulated_not_100" counter shows 1 |
| Values.CounterLaw | src/counters.c:14-150 | In plain numbers, what one reading adds to each kind of counter, for INT and DWORD, while none overflows |
| Values.CounterRests | src/counters.c:244-258 | Failed polls and refused sends leave a counter as it is, an accepted send zeroes it |
| Values.DifferenceExample | README.md:229-237 | The documented example: 10, 10, 30 make 10, 10, 30 |
| Values.Not100Example | README.md:239-245 | The documented example: 101, 100 make 1, 1 |
| Values.CumulatedExample | README.md:247-255 | On the documented example 100, 200, 200 the program makes 0, 100, 100, not 0, 1, 1 |
| ClientRuns.SlotShowsLatest | src/main.c:274-346 | For every data type, the slot of a client without a counter, or with one that cannot count its type, shows its latest successful reading under its name, multiplied by its factor, whatever polls failed and sends happened since; a zero reading until the first success |
| CumulatedRuns.CounterFollowsAnchor | src/counters.c:117-125 | A DWORD "cumulated" counter is, modulo 2^32, the distance of the meter from the reading that last found the counter at -1 or reset |
| CumulatedRuns.SentinelCollision | src/counters.c:94-100 | On a 32-bit long the counter equals the sentinel exactly when the meter stands one below that anchor |
| CumulatedRuns.Telescoping32 | src/counters.c:94-136 | On a 32-bit long the counter telescopes throughout a run if and only if, whenever the meter stood one below the start of the window, the next reading was back at the start |
| CumulatedRuns.TelescopesExactly | src/counters.c:94-136 | For either width of long: the counter telescopes throughout a history if and only if no update is swallowed |
| CumulatedRuns.ThirtyTwoBitsLoseAnUpdate | src/counters.c:96-100 | A history where it does not: 5, a refused send, 4, 10 leaves 0 |
| CumulatedRuns.FreshSlotIsNet | src/main.c:506-529 | A slot polled since the last accepted send is the scaled net change since then, modulo 2^32 |
| CumulatedRuns.PublishesNetChange | src/main.c:692-707 | Accepted sums and the change not yet sent are the net change since the first reading, plus what stale sends published again, modulo 2^32 |
| CumulatedRuns.WithoutOverflow | src/counters.c:94-136 | While the changes in each window stay below half the range of long, the counter is their sum, never the sentinel, and a DWORD counter telescopes |
| CumulatedRuns.IntWindow | src/counters.c:107-113 | An INT counter is then the positive variation after the first reading, less what was measured by the last accepted send |
| CumulatedRuns.ShortWindowsFit | src/counters.c:117-125 | A 64-bit long never overflows if no window holds more than 2^31 readings |
| CumulatedRuns.Telescoping64 | src/counters.c:214-231 | On a 64-bit long that does not overflow a DWORD "cumulated" value is last reading − reading at the last reset (or the first), mod 2^32 |
| CumulatedRuns.SentinelSafety | src/counters.c:94-116 | After its first reading a "cumulated" counter that does not overflow is never -1 again, for either width and every type |
| TickLaws.TimerPhase | src/timer.c:5-18 | After t ticks the counter is t mod 600, seconds were raised t div 10 times, minutes t div 600, in these numbers |
| TickLaws.MinuteRaisesSecond | src/timer.c:11-18 | Every minute raise is also a second raise, despite the wrap to zero |
| TickLaws.TickAccounting | src/main.c:478-538 | At every point of every run, for each rate: raises = sweeps started + coalesced raises + 1 if the flag is set and no sweep of that rate runs; during a sweep its flag is set |
| TickLaws.MinutesServed | src/main.c:540-548 | After the first send became due, minutes served = M · (entries − 1) + countdown progress, with M = max(1, interval) |
| TickLaws.SendsPerMinutes | src/main.c:674-713 | Entries into SEND_DATA = 1 + minutes served div M, whether or not sends succeed |
| TickLaws.EntriesAreSent | src/main.c:674-713 | Each entry leads to one send; at most the latest is outstanding |
| TickLaws.SendRate | src/main.c:397-400 | After t ticks there were at most 1 + t div (600·M) sends, M being the interval or 1 |
| TickLaws.OnePollPerSweep | src/main.c:482-535 | Every sweep polls each client of its rate exactly once and no client of another rate |
| ClientQueue.Queue.Clean | src/client_queue.c:12-26 | All lanes empty, cursors at 0 |
| ClientQueue.Queue.Add | src/client_queue.c:34-100 | Appends to the lane of the rate; fails, changing nothing, exactly when that lane is full; other lanes unchanged |
| ClientQueue.Queue.GetFirst | src/client_queue.c:108-127 | The first id of the lane or -1; only this cursor moves |
| ClientQueue.Queue.GetNext | src/client_queue.c:135-175 | The id after the cursor or -1, also when the array is completely full and the cursor wraps |
| ClientQueue.SweepVisits | src/client_queue.c:34-100 | A lane's sweep visits exactly the clients of its rate, once each, in increasing order |
| ClientQueue.SweepsPartition | src/main.c:79-95 | The three sweeps together visit each client exactly once |
| Counters.CounterTable.Add | src/counters.c:6-12 | The client's entry is marked; a "cumulated" one is set to -1; other entries unchanged |
| Counters.CounterTable.Update | src/counters.c:14-150 | The client's entry and the result are those of the update function for each counter and data type; other entries unchanged |
| Counters.CounterTable.Get | src/counters.c:152-242 | The reading with its number replaced by the counter value, or the stored reading if there is no counter; failure for other data types |
| Counters.CounterTable.Reset | src/counters.c:244-258 | The counter of the client's kind is 0; everything else unchanged |
| Timer.SignalTimer.Handler100ms | src/timer.c:5-27 | One tick: the counter wraps at 600, the seconds flag is raised every 10 ticks and the minute flag at the wrap; a flag once up stays up |
| Timer.SignalTimer.Clear | src/main.c:537-537 | Clears one flag and nothing else |
| Connections.ReceiveContract | src/client_manager.c:743-789 | For every client and every behaviour of the network a receive makes at most two reconnects and two reads, keeps the invariant, and leaves the flag (for OPC: all OPC flags) equal to its result; other flags unchanged |
| Connections.SerialReceive | src/modbus_connect.c:182-240 | A disconnected serial client is read exactly when its context exists and the handshake succeeds, whatever any port; a first or second read succeeds exactly when it is answered |
| Connections.TcpReceive | src/modbus_connect.c:182-240 | A TCP client also needs its port open, for each of the two reads |
| Connections.OpcReceive | src/opc_connect.c:19-105 | An OPC client needs the certificate files only if secure, and a node name of at most 80 characters; only a failure for want of the files leaves a handle |
| Connections.ReceiveIsSteps | src/client_manager.c:743-789 | The closed form of a receive is what reconnect and read compose to, step by step, with their counts |
| Connections.ReceiveNeedsConnection | src/client_manager.c:749-760 | A receive on a client marked disconnected succeeds only after a reconnect; on a Modbus client only if its context exists |
| Connections.ReceivesKeepSound | src/client_manager.c:681-734 | The shared-connection invariant holds after any sequence of receives, and contexts never change |
| Connections.NoContextNoReading | src/modbus_connect.c:182-240 | A Modbus client whose context could not be created at start-up never delivers a reading |
| Connections.StartUp | src/client_manager.c:524-598 | After start-up a Modbus client is connected exactly when its context was created and, over TCP, its port is open; OPC clients exactly as the first of them; when the handle exists |
| Connections.StartUpModbusOnly | src/client_manager.c:524-598 | The same without OPC clients: there is no handle |
| Connections.InitialLinksSound | src/client_manager.c:524-598 | The state after connection initialisation satisfies the shared-connection invariant |
| Connections.Manager.SetConnectStatus | src/client_manager.c:24-44 | A Modbus client's own flag, or all OPC flags, get the status; others unchanged |
| Connections.Manager.OpcConnect | src/opc_connect.c:19-105 | Success and the presence of the handle afterwards, for each way it can fail; the set of live handles |
| Connections.Manager.OpcCloseConnection | src/opc_connect.c:257-264 | The handle is deleted and nulled |
| Connections.Manager.OpcReceiveData | src/opc_connect.c:114-252 | Fails without a handle, for an over-long node name, or when the server refuses; otherwise delivers the value converted for each type: zero for a value of another type, the bytes of the length field for a string, nothing for TIME |
| Connections.OpcReadsValue | src/opc_connect.c:142-238 | A value of an accepted type is the reading: exact in the range of the field, modulo 2^32 beyond |
| Connections.ModbusReadsRegisters | src/client_manager.c:67-132 | The reading is the registers the device sent, the first one the lowest word, on hosts of either byte order |
| Connections.ModbusReadsBool | src/client_manager.c:63-65 | A BOOL is true exactly when its register is not zero |
| Connections.ModbusReadsNumber | src/client_manager.c:67-132 | A number sent lowest word first is the reading if it is in the range of its type |
| Connections.WrongTypeReadsZero | src/opc_connect.c:142-238 | An OPC value of any type the client does not accept is delivered as a successful reading of zero; a TIME client keeps the time of the reading before |
| Connections.OpcTextIsLost | src/opc_connect.c:223-223 | What a text client reads depends on the length of the string only, and has at most 3 or 7 characters, by the width of size_t |
| Connections.ModbusDoubleIsLost | src/client_manager.c:93-104 | What a Modbus DOUBLE client reads never reaches the double that is published |
| Connections.Manager.ModbusConnect | src/modbus_connect.c:60-130 | Success exactly when a context was created and, for TCP, the port is open; the context stays even if the port is closed; nothing leaks |
| Connections.Manager.ModbusReconnect | src/modbus_connect.c:182-240 | Success exactly when there is a context, the port is open (TCP) and the handshake succeeds |
| Connections.Manager.ModbusReceiveData | src/modbus_connect.c:139-174 | Called only with a context; delivers the registers read, the others zero |
| Connections.Manager.ModbusCloseConnection | src/modbus_connect.c:247-255 | The context is freed and nulled |
| Connections.Manager.InitConnections | src/client_manager.c:524-598 | Called with no handle and no context; flags, handle and contexts are the closed form: one OPC connection for all OPC clients, one context per Modbus client; true exactly when all are connected |
| Connections.Manager.ReceiveDataSimple | src/client_manager.c:621-673 | Reads only a connected client, exactly once; on failure drops the connection; on success delivers the reading; error for an index out of range |
| Connections.Manager.Reconnect | src/client_manager.c:681-734 | A Modbus context is reused; the OPC handle is closed before a new one is made, so at most one is alive; flags follow the result |
| Connections.Manager.ReceiveData | src/client_manager.c:743-789 | State, result, delivered reading and numbers of reconnects and reads are those of the closed form; no leak; error for an index out of range |
| Connections.Manager.CloseAllConnections | src/client_manager.c:795-822 | Afterwards no handle and no context is alive and no client is connected |
| Decode.ByteOrderIndependence | src/client_manager.c:67-78 | On hosts of either byte order, reversing or copying the words and reinterpreting the bytes gives the sum of word i times 2^(16i) |
| Decode.FillService | src/client_manager.c:71-75 | The loop or the copy leaves the words in the order the host needs |
| Decode.CopyOut | src/client_manager.c:67-78 | The copied integer is the value of the words, lowest first |
| Decode.ModbusToClientData | src/client_manager.c:52-140 | Fails exactly for CHAR; otherwise the field of the type holds the decoded value and the others keep theirs; a DOUBLE leaves its field alone and puts the half that comes first in memory into the DWORD field |
| Decode.RoundTrip | src/client_manager.c:52-140 | INT, ENUM, DWORD and TIME values split into words are read back exactly |
| Json.GetJson | src/ts_data.c:53-95 | The result code and, for every outcome, the exact text left in the buffer with its terminator; nothing past the written extent is touched |
| Json.WritesStayInsideExactly | src/ts_data.c:85-90 | With printable fields nothing is written at or past the length if and only if no line that starts with room before it reaches the end |
| Json.WritesStayInside | src/ts_data.c:85-90 | Nothing is written at or past the length if every member with its comma fits 100 characters and the buffer has at least 102 |
| Json.BoundedMembers | src/ts_data.c:62-80 | Line lengths for each type; with accepted names booleans and 32-bit numbers always fit a line |
| Json.SucceedsExactly | src/ts_data.c:85-94 | With printable fields the result is 0 when the text of all members but the last is more than 100 characters short of the buffer, and 5 otherwise |
| Json.UnknownTypeStops | src/ts_data.c:82-82 | A field of an unknown type stops the printer with result 3 |
| Json.SampleValues | src/ts_data.c:62-80 | The exact text of one value of each type |
| Json.SampleText | src/ts_data.c:53-95 | The exact text of three fields, and result 0 |
| Json.TextIsObject | src/ts_data.c:53-95 | A printer that gives up never leaves an object (section 4 of RFC 8259); for fields without characters that need escaping, it leaves one if and only if it succeeds |
| Json.TextIsJoinedMembers | src/ts_data.c:53-95 | On success the text is the comma-joined members between braces |
| Json.NoFieldsNoObject | src/ts_data.c:53-95 | With no field the text is "}", which is no object |
| JsonParser.NumberRead | src/ts_data.c:66-72 | Decimal printing and parsing are inverse for every integer |
| JsonParser.ParseInvertsPrint | src/ts_data.c:53-95 | Whenever the printer succeeds, parsing its text gives back every name and value, in order |
| Snapshot.SnapshotText | src/main.c:38-50 | In every snapshot of every run the printer fails only for lack of room, exactly as stated, and then the broker gets no object; with clean texts it gets one exactly when there was room, and parsing it gives the slots back |
| Snapshot.DeviceFieldsStay | src/main.c:193-265 | From the start of the INIT pass on, all ten device fields keep their names, types, texts and numbers, but for the time stamp |
| Snapshot.ClientSlotPlain | src/main.c:128-191 | From its INIT poll on, the slot of a BOOL, INT, DWORD or ENUM client carries its name and a boolean or a 32-bit number, through any counter and multiplier |
| Snapshot.PlainSnapshotsFit | src/ts_data.c:85-90 | If all clients are of these types, no snapshot of any run writes past the 3072 characters of the send buffer; with at most 29 clients none is cut off (20 if %f needs up to 80 rather than 20 characters for a fixed coordinate) |
| Snapshot.PlainSnapshotsReadBack | src/main.c:38-50 | If the names need no escaping either, every snapshot is a JSON object that reads back as the slots |
| Snapshot.LongNamesCutOff | src/main.c:38-50 | With at least 36 such clients whose names have 80 characters every snapshot of every run is cut off |
| Witnesses.UnmultipliedRun | src/main.c:444-466 | A run of an accepted configuration that should publish 60 and publishes 1 |
| Witnesses.StaleRun | src/main.c:692-707 | A run whose readings amount to 5 and that publishes 10 |
| Witnesses.StaleTenthRun | src/main.c:478-608 | A run with an interval of one minute in which no poll is lost and a 100 ms client is stale: 5 is read, 10 published |
| Witnesses.StaleSecondRun | src/main.c:540-670 | The same for a second client: 10 is read, 15 published |
| Witnesses.LostPollRun | src/main.c:530-534 | Two runs that differ in one lost poll: the fresh one reports 5, the other 10 |
| Witnesses.SwallowedRun | src/counters.c:96-100 | A run with a 32-bit long whose counter stands at 0 although the meter has moved from 5 to 10 |
| Witnesses.CutOffRun | src/main.c:44-47 | A run of fifty INT clients whose snapshot is accepted cut off, and is no JSON object |
| Witnesses.OverrunRun | src/ts_data.c:85-90 | A run of eight OPC double clients that read a number of 316 characters, for which the printer writes past its buffer |

## Left out

- Sockets, libmodbus, open62541, mosquitto, setitimer and sigaction: their results are nondeterministic; allocation failure inside open62541 is not modelled.
- `manager_init_config`: string matching and libconfig look-ups are replaced by the predicate ValidSettings, which states what an accepted configuration satisfies; a rejected one is a nondeterministic failure.
- Logging, file archiving, console output, `sleep`, wall-clock time: the time stamp is an arbitrary number.
- `src/mqtt_connect.c`, certificates, build scripts, `init_count` and `init_data` of `src/ts_data.c`.
- Floating point: DOUBLE values are reals and `%f` is an arbitrary function to text.
- Decode.ModbusToClientData: of the eight bytes a DOUBLE leaves at the DWORD field, the last four fall on padding or on the time, depending on the layout; the model lets the time be anything.
- Decode.RoundTrip: TIME is as wide as `long`; a 64-bit time_t beside a 32-bit long is not covered.
- C signed overflow, undefined in C, is modelled as two's-complement wrap; underflow of the countdown for the most negative interval is not modelled.
- Names are unbounded except by the configuration; lines are proved to fit for BOOL and 32-bit members only, not for CHAR, DOUBLE and 64-bit TIME members.
- Json.GetJson: requires a buffer that holds what is written; WritesStayInside gives the condition under which the claimed length is enough.
- The text of a snapshot is derived from the slots by Snapshot.SnapshotText and is not written inside the loop of Gateway, since the program ignores the printer's result.
- Connections.Manager.OpcReceiveData: an empty variant, on which the program would dereference a null type, is not modelled; neither is the missing terminator of a text of 500 characters.
- Gateway.Gateway.Run: the endless loop is cut after an arbitrary number of rounds, and no claim is made that initialisation ever succeeds.
- The members of the shared reading buffer that do not belong to the client's type are whatever the last poll left there.
- Leaks inside the libraries (UA_Variant contents, sockets of `checkServer`) are not tracked; only OPC client objects and Modbus contexts are.
