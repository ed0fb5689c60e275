/** The program itself (main.c): the components wired together, and the endless loop.
    Whatever the network, the broker and the timer do is chosen by `*`. Every action is
    recorded in a trace of module Machine, and the class keeps its real state equal to
    what that trace leads to; so the laws about legal traces are laws about this loop. */
module Gateway {
  import opened CInts
  import opened Types
  import opened Decode
  import opened Counters
  import opened ClientQueue
  import opened Timer
  import opened Connections
  import opened Machine
  import opened TickLaws
  import opened EndToEnd
  import Runs = ClientRuns
  import Cumulated = CumulatedRuns

  datatype Mode = InitSys | Process | SendData

  /** A later trace of the same run. */
  predicate Continues(before: Trace, after: Trace) {
    before == after || (!after.Empty? && Continues(before, after.earlier))
  }

  /** A later trace to which just these events have been added, and ticks. */
  predicate Adds(before: Trace, after: Trace, events: seq<Event>) {
    if before == after then events == []
    else
      && !after.Empty?
      && if after.last.Tick? then Adds(before, after.earlier, events)
         else events != [] && events[|events| - 1] == after.last && Adds(before, after.earlier, events[..|events| - 1])
  }

  lemma {:induction false} AddsTrans(a: Trace, b: Trace, c: Trace, e: seq<Event>, f: seq<Event>)
    requires Adds(a, b, e) && Adds(b, c, f)
    ensures Adds(a, c, e + f)
  {
    if b == c {
      assert e + f == e;
    } else {
      var f' := if c.last.Tick? then f else f[..|f| - 1];
      AddsTrans(a, b, c.earlier, e, f');
      NotLonger(a, c.earlier, e + f');
      assert c.last.Tick? || (e + f)[..|e + f| - 1] == e + f';
    }
  }

  lemma {:induction false} NotLonger(a: Trace, b: Trace, e: seq<Event>)
    requires Adds(a, b, e)
    ensures Continues(a, b) && Length(a) <= Length(b)
  {
    if a != b {
      NotLonger(a, b.earlier, if b.last.Tick? then e else e[..|e| - 1]);
    }
  }

  function Length(tr: Trace): nat {
    if tr.Empty? then 0 else Length(tr.earlier) + 1
  }

  lemma {:induction false} ContinuesTrans(a: Trace, b: Trace, c: Trace)
    requires Continues(a, b) && Continues(b, c)
    ensures Continues(a, c)
  {
    if b != c {
      ContinuesTrans(a, b, c.earlier);
    }
  }

  /** The poll of a client, whatever came of it. */
  predicate IsPoll(e: Event, i: int) {
    (e.Answered? || e.Silent?) && e.i == i
  }

  /** One poll for each of the first n clients of a lane, in order. */
  predicate PollsFirst(lane: seq<int>, n: nat, events: seq<Event>) {
    |events| == n <= |lane| && forall k :: 0 <= k < n ==> IsPoll(events[k], lane[k])
  }

  lemma OneMorePoll(a: Trace, b: Trace, c: Trace, lane: seq<int>, n: nat, polls: seq<Event>, e: Event)
    requires Adds(a, b, polls) && Adds(b, c, [e]) && PollsFirst(lane, n, polls) && n < |lane| && IsPoll(e, lane[n])
    ensures Adds(a, c, polls + [e]) && PollsFirst(lane, n + 1, polls + [e])
  {
    AddsTrans(a, b, c, polls, [e]);
  }

  /** One INIT poll for each of the first n clients, in order. */
  predicate SurveysFirst(n: nat, events: seq<Event>) {
    |events| == n && forall k :: 0 <= k < n ==> (events[k].InitAnswered? || events[k].InitSilent?) && events[k].i == k
  }

  /** One call of manager_receive_data: the state and the buffer it found, what the network answered,
      its result, and the reading if there is one. */
  datatype Receipt = Receipt(i: nat, links: Links, exchange: Exchange, before: ClientData, ok: bool, d: ClientData) {

    predicate Asked(c: Config) {
      i < |c.clients| && Connections.Fits(c.clients, links)
    }

    function Outcome(c: Config): Outcome {
      if Asked(c) then Connections.Receive(c.clients, links, i, exchange) else Connections.Outcome(links, false, 0, 0)
    }

    /** Result and reading are what that call promises. */
    predicate Right(c: Config, order: ByteOrder) {
      && Asked(c) && ok == Outcome(c).ok
      && (ok ==> Delivered(c.width, order, c.clients[i], AnswerUsed(c.clients, links, i, exchange), before, d))
    }
  }

  class Gateway {
    const config: Config
    const manager: Manager
    const table: CounterTable
    const queue: Queue
    const timer: SignalTimer
    const slots: array<Slot>       // mqtt_data
    var mode: Mode                 // dev_status.state
    var timerOn: bool
    var mqttOn: bool
    var managerOn: bool
    var minutesLeft: int           // sendDataMin
    var clientData: ClientData     // the one reading buffer all clients share
    ghost var trace: Trace         // everything since init_sys succeeded
    ghost var control: Control     // where the trace leads
    ghost var data: Data
    ghost var links: Links         // the state of the connections
    ghost var connectionInits: nat // calls of manager_init_connections

    // ----- invariants -----

    /** The components fit the configuration. */
    ghost predicate Wired() {
      && config.Valid()
      && manager.clients == config.clients && manager.width == table.width == config.width
      && table.entries.Length == queue.capacity == config.capacity
      && slots.Length == SF_CLIENT_POS + config.capacity
      && queue.Allocated() && manager.Allocated()
    }

    /** The connection invariants. */
    ghost predicate Linked()
      requires Wired()
      reads this`links, manager, manager.connected, manager.context
    {
      manager.Valid() && manager.State() == links && Sound(config.clients, links)
    }

    /** The queues hold what the sweeps should visit. */
    ghost predicate Queued()
      requires Wired()
      reads queue.rate100ms, queue.rate1s, queue.rate1m
    {
      queue.Valid() && forall rate :: queue.Lane(rate) == config.Lane(rate)
    }

    /** The trace is legal, and control and data are what it leads to. */
    ghost predicate Logged()
      reads this`trace, this`control, this`data
    {
      config.Fits() && ControlAfter(config, trace) == Some(control) && DataAfter(config, trace) == data
    }

    /** The real state is the one the trace leads to. */
    ghost predicate Tracks()
      reads this`control, this`data, this`minutesLeft, table.entries, slots, timer
    {
      && timer.State() == control.timer
      && minutesLeft == control.minutesLeft
      && table.entries[..] == data.counters
      && slots[..] == data.slots
      && Shaped(config, data)
    }

    ghost predicate Running()
      reads this`trace, this`control, this`data, this`minutesLeft, this`managerOn, this`connectionInits, this`links
      reads table.entries, slots, timer, manager, manager.connected, manager.context
      reads queue.rate100ms, queue.rate1s, queue.rate1m
    {
      Wired() && Linked() && Queued() && Logged() && Tracks() && managerOn && connectionInits == 1
    }

    /** Before init_sys has succeeded. */
    ghost predicate Off()
      reads this`trace, this`control, this`data, this`minutesLeft, this`managerOn, this`connectionInits, this`links
      reads table.entries, slots, timer, manager, manager.connected, manager.context
      reads queue.rate100ms, queue.rate1s, queue.rate1m
    {
      && Wired() && Linked() && Logged() && trace == Empty
      && timer.State() == control.timer && minutesLeft == control.minutesLeft && slots[..] == data.slots
      && connectionInits == (if managerOn then 1 else 0)
      && (managerOn ==> Queued() && table.entries[..] == data.counters)
      && (!managerOn ==>
            && (forall i :: 0 <= i < table.entries.Length ==> table.entries[i] == ZERO_INFO)
            && manager.handler.None? && forall i :: 0 <= i < |config.clients| ==> manager.context[i].None?)
    }

    /** What holds whenever the loop looks at its state variable. */
    ghost predicate LoopInvariant()
      reads this`trace, this`control, this`data, this`minutesLeft, this`managerOn, this`connectionInits, this`mode
      reads this`links
      reads table.entries, slots, timer, manager, manager.connected, manager.context
      reads queue.rate100ms, queue.rate1s, queue.rate1m
    {
      match mode
      case InitSys => Off()
      case Process => Running() && control.pc == Checking(Rate100ms) && !control.sendDue
      case SendData => Running() && control.pc == Sending
    }

    constructor (config: Config, order: ByteOrder)
      requires config.Valid()
      ensures this.config == config && LoopInvariant() && mode == InitSys
      ensures fresh(manager) && fresh(manager.connected) && fresh(manager.context) && fresh(table.entries)
      ensures fresh(queue) && fresh(queue.rate100ms) && fresh(queue.rate1s) && fresh(queue.rate1m) && fresh(timer)
      ensures fresh(slots)
    {
      this.config := config;
      manager := new Manager(config.width, order, config.clients);
      table := new CounterTable(config.width, config.capacity);
      queue := new Queue(config.capacity);
      timer := new SignalTimer();
      slots := new Slot[SF_CLIENT_POS + config.capacity](_ => EMPTY_SLOT);
      mode := InitSys;
      timerOn, mqttOn, managerOn := false, false, false;
      minutesLeft := 0;
      clientData := ZeroData(Bool);
      trace, control, data := Empty, POWER_ON, InitialData(config);
      links := Links(seq(|config.clients|, _ => false), false, seq(|config.clients|, _ => false));
      connectionInits := 0;
      new;
      assert Wired() && Linked();
      assert slots[..] == InitialData(config).slots;
    }

    /** One more event has happened. */
    ghost method Emit(e: Event)
      requires Logged() && Enabled(config, control, e)
      modifies this`trace, this`control, this`data
      ensures Logged() && trace == Then(old(trace), e)
      ensures control == Steer(config, old(control), e)
      ensures data == Record(config, old(data), e)
    {
      trace := Then(trace, e);
      control := Steer(config, control, e);
      data := Record(config, data, e);
    }

    // ----- the timer signal -----

    /** Any number of timer signals, landing here. */
    method Signals()
      requires Logged() && Tracks()
      modifies this`trace, this`control, this`data, timer
      ensures Logged() && Tracks() && Adds(old(trace), trace, [])
      ensures control == old(control).(timer := control.timer)
      ensures forall rate :: old(control).timer.Flag(rate) ==> control.timer.Flag(rate)
    {
      var n: nat := *;
      while n > 0
        invariant Logged() && Tracks() && Adds(old(trace), trace, [])
        invariant control == old(control).(timer := control.timer)
        invariant forall rate :: old(control).timer.Flag(rate) ==> control.timer.Flag(rate)
      {
        NotLonger(old(trace), trace, []);
        timer.Handler100ms();
        Emit(Tick);
        n := n - 1;
      }
    }

    // ----- one poll -----

    /** manager_receive_data into the shared buffer. */
    method Receive(i: nat) returns (ok: bool, ghost r: Receipt)
      requires Wired() && Linked() && i < |config.clients|
      modifies this`links, this`clientData, manager, manager.connected
      ensures Linked()
      ensures r == Receipt(i, old(links), r.exchange, old(clientData), ok, if ok then clientData else r.d)
      ensures r.Right(config, manager.order) && links == r.Outcome(config).links
      ensures manager.reconnectCalls == old(manager.reconnectCalls) + r.Outcome(config).reconnectCount
      ensures manager.readCalls == old(manager.readCalls) + r.Outcome(config).readCount
    {
      var exchange: Exchange := *;
      r := Receipt(i, links, exchange, clientData, false, clientData);
      clientData, ok := manager.ReceiveData(i, exchange, clientData);
      links := manager.State();
      r := r.(ok := ok, d := clientData);
    }

    /** The same while the timer goes on. */
    method Ask(i: nat) returns (ok: bool, ghost r: Receipt)
      requires Wired() && Linked() && Logged() && Tracks() && i < |config.clients|
      modifies this`links, this`trace, this`control, this`data, this`clientData, timer, manager, manager.connected
      ensures Linked() && Logged() && Tracks() && Adds(old(trace), trace, [])
      ensures control == old(control).(timer := control.timer)
      ensures r == Receipt(i, old(links), r.exchange, old(clientData), ok, if ok then clientData else r.d)
      ensures r.Right(config, manager.order)
      ensures manager.reconnectCalls == old(manager.reconnectCalls) + r.Outcome(config).reconnectCount
      ensures manager.readCalls == old(manager.readCalls) + r.Outcome(config).readCount
    {
      ok, r := Receive(i);
      Signals();
    }

    /** The reading in the buffer goes through the counter and, scaled if it was really read, into the slot. */
    method Store(i: nat, scale: bool)
      requires Wired() && i < |config.clients|
      modifies this`clientData, table.entries, slots
      ensures var before := Data(old(table.entries[..]), old(slots[..]));
              Data(table.entries[..], slots[..]) == Recorded(config, before, i, old(clientData), scale)
    {
      var c := config.clients[i];
      assert ValidClient(c, i);
      var updated := table.Update(c, clientData);
      var fetched;
      clientData, fetched := table.Get(c, clientData);
      if scale {
        clientData := Compute(c, clientData).0;
      }
      slots[SF_CLIENT_POS + i] := ToSlot(config.width, c, clientData, slots[SF_CLIENT_POS + i]);
    }

    /** A successful poll is counted. */
    method SettleAnswer(i: nat)
      requires Wired() && Logged() && Tracks() && NextInSweep(config, control.pc, i)
      requires clientData.dataType == config.clients[i].dataType
      modifies this`trace, this`control, this`data, this`clientData, table.entries, slots
      ensures Logged() && Tracks()
      ensures control == old(control).(pc := old(control.pc).(done := old(control.pc).done + 1))
      ensures trace == Then(old(trace), Answered(i, old(clientData)))
    {
      ghost var d := clientData;
      assert Data(table.entries[..], slots[..]) == data;
      Store(i, true);
      Emit(Answered(i, d));
    }

    /** A failed one changes no counter and no slot. */
    method Settle(i: nat, ok: bool)
      requires Wired() && Linked() && Logged() && Tracks() && NextInSweep(config, control.pc, i)
      requires ok ==> clientData.dataType == config.clients[i].dataType
      modifies this`trace, this`control, this`data, this`clientData, table.entries, slots
      ensures Linked() && Logged() && Tracks()
      ensures control == old(control).(pc := old(control.pc).(done := old(control.pc).done + 1))
      ensures trace == Then(old(trace), if ok then Answered(i, old(clientData)) else Silent(i))
    {
      if ok {
        SettleAnswer(i);
      } else {
        Emit(Silent(i));
      }
    }

    /** One client of a sweep: one receive, and what came of it. */
    method Poll(i: nat) returns (ghost r: Receipt)
      requires Wired() && Linked() && Logged() && Tracks() && NextInSweep(config, control.pc, i)
      modifies this`links, this`trace, this`control, this`data, this`clientData, timer, manager, manager.connected
      modifies table.entries, slots
      ensures Linked() && Logged() && Tracks()
      ensures control.pc == old(control.pc).(done := old(control.pc).done + 1)
      ensures control.sendDue == old(control).sendDue
      ensures r.Right(config, manager.order) && r.i == i && r.links == old(links) && r.before == old(clientData)
      ensures trace.Then? && Adds(old(trace), trace.earlier, [])
      ensures trace.last == if r.ok then Answered(i, r.d) else Silent(i)
      ensures manager.reconnectCalls == old(manager.reconnectCalls) + r.Outcome(config).reconnectCount
      ensures manager.readCalls == old(manager.readCalls) + r.Outcome(config).readCount
    {
      var ok;
      ok, r := Ask(i);
      Settle(i, ok);
    }

    /** One more event, after ticks. */
    lemma AddsOne(before: Trace, after: Trace)
      requires after.Then? && !after.last.Tick? && Adds(before, after.earlier, [])
      ensures Adds(before, after, [after.last])
    {
      NotLonger(before, after.earlier, []);
      assert [after.last][..0] == [];
    }

    // ----- one sweep -----

    /** Where a sweep stands: the id in hand is the one at the cursor. */
    ghost predicate Standing(rate: RefreshRate, id: int, done: nat)
      requires Wired()
      reads this`control, queue, queue.rate100ms, queue.rate1s, queue.rate1m
    {
      && Queued()
      && done <= |config.Lane(rate)| && control.pc == Sweeping(rate, done)
      && id == queue.At(rate, done)
      && queue.Pos(rate) < queue.capacity
      && (id != -1 ==> queue.Pos(rate) == done)
    }

    method First(rate: RefreshRate) returns (id: int)
      requires Wired() && Queued() && control.pc == Sweeping(rate, 0)
      modifies queue
      ensures Standing(rate, id, 0)
    {
      PackedPrefix(queue.Cells(rate)[..]);
      id := queue.GetFirst(rate);
    }

    method Next(rate: RefreshRate, ghost done: nat) returns (id: int)
      requires Wired() && Queued() && done < |config.Lane(rate)| && queue.Pos(rate) == done
      requires control.pc == Sweeping(rate, done + 1)
      modifies queue
      ensures Standing(rate, id, done + 1)
    {
      PackedPrefix(queue.Cells(rate)[..]);
      id := queue.GetNext(rate);
    }

    /** A valid id at the cursor is the client the sweep polls next. */
    lemma InHand(rate: RefreshRate, id: int, done: nat)
      requires Wired() && Standing(rate, id, done) && id != -1
      ensures done < |config.Lane(rate)| && 0 <= id < |config.clients| && NextInSweep(config, control.pc, id)
      ensures config.clients[id].innerIdx == id
    {
      SweepVisits(config.clients, rate);
      assert id == ClientsAt(config.clients, rate)[done];
      assert ValidClient(config.clients[id], id);
    }

    /** -1 means that every client of the rate has been polled. */
    lemma SweepDone(rate: RefreshRate, id: int, done: nat)
      requires Wired() && Standing(rate, id, done) && id == -1
      ensures done == |config.Lane(rate)|
    {
      NoFreeCell(config.clients, rate);
    }

    /** The client in hand is looked up and polled. */
    method PollInHand(rate: RefreshRate, id: int, ghost done: nat)
      requires Wired() && Linked() && Logged() && Tracks() && Standing(rate, id, done) && id != -1
      modifies this`links, this`trace, this`control, this`data, this`clientData, timer, manager, manager.connected
      modifies table.entries, slots
      ensures Linked() && Logged() && Tracks()
      ensures control.pc == Sweeping(rate, done + 1) && control.sendDue == old(control).sendDue
      ensures trace.Then? && IsPoll(trace.last, id) && Adds(old(trace), trace, [trace.last])
      ensures done < |config.Lane(rate)| && id == config.Lane(rate)[done]
    {
      InHand(rate, id, done);
      var c := manager.GetClient(id);
      ghost var _ := Poll(c.value.innerIdx);
      AddsOne(old(trace), trace);
    }

    /** One round of the polling loop. */
    method PollAndAdvance(rate: RefreshRate, id: int, ghost done: nat) returns (id': int)
      requires Wired() && Linked() && Logged() && Tracks() && Standing(rate, id, done) && id != -1
      modifies this`links, this`trace, this`control, this`data, this`clientData, timer, queue, manager
      modifies manager.connected, table.entries, slots
      ensures Linked() && Logged() && Tracks() && Standing(rate, id', done + 1)
      ensures control.sendDue == old(control).sendDue
      ensures trace.Then? && IsPoll(trace.last, id) && Adds(old(trace), trace, [trace.last])
      ensures done < |config.Lane(rate)| && id == config.Lane(rate)[done]
    {
      PollInHand(rate, id, done);
      id' := Next(rate, done);
    }

    /** GetFirst, then GetNext until -1. */
    method SweepClients(rate: RefreshRate) returns (ghost polls: seq<Event>)
      requires Wired() && Linked() && Queued() && Logged() && Tracks() && control.pc == Sweeping(rate, 0)
      modifies this`links, this`trace, this`control, this`data, this`clientData, timer, queue, manager
      modifies manager.connected, table.entries, slots
      ensures Linked() && Logged() && Tracks() && Adds(old(trace), trace, polls)
      ensures PollsFirst(config.Lane(rate), |config.Lane(rate)|, polls)
      ensures control.pc == Sweeping(rate, |config.Lane(rate)|) && control.sendDue == old(control).sendDue
    {
      ghost var done := 0;
      polls := [];
      var id := First(rate);
      while id != -1
        invariant Linked() && Logged() && Tracks() && Standing(rate, id, done)
        invariant Adds(old(trace), trace, polls) && PollsFirst(config.Lane(rate), done, polls)
        invariant control.sendDue == old(control).sendDue
        decreases |config.Lane(rate)| - done
      {
        ghost var before := trace;
        id := PollAndAdvance(rate, id, done);
        done := done + 1;
        OneMorePoll(old(trace), before, trace, config.Lane(rate), done - 1, polls, trace.last);
        polls := polls + [trace.last];
      }
      SweepDone(rate, id, done);
    }

    /** The countdown of the minute sweep. */
    method Begin(rate: RefreshRate)
      requires Wired() && Logged() && Tracks() && control.pc == Checking(rate) && control.timer.Flag(rate)
      requires mode == SendData <==> control.sendDue
      modifies this`trace, this`control, this`data, this`minutesLeft, this`mode
      ensures Logged() && Tracks() && trace == Then(old(trace), Begun(rate))
      ensures control == Steer(config, old(control), Begun(rate))
      ensures mode == if BecomesDue(old(control), Begun(rate)) then SendData else old(mode)
      ensures mode == SendData <==> control.sendDue
    {
      if rate == Rate1m {
        minutesLeft := minutesLeft - 1;
        if minutesLeft <= 0 {
          mode := SendData;
          minutesLeft := config.interval;
        }
      }
      Emit(Begun(rate));
    }

    /** Only after the last client is the flag cleared: signals that land before are lost to it. */
    method End(rate: RefreshRate)
      requires Wired() && Logged() && Tracks() && control.pc == Sweeping(rate, |config.Lane(rate)|)
      modifies this`trace, this`control, this`data, timer
      ensures Logged() && Tracks() && Adds(old(trace), trace, [Ended(rate)]) && trace.Then? && trace.last == Ended(rate)
      ensures control.pc == AfterCheck(rate, control.sendDue) && control.sendDue == old(control).sendDue
      ensures !control.timer.Flag(rate)
    {
      Signals();
      timer.Clear(rate);
      Emit(Ended(rate));
      AddsOne(old(trace), trace);
    }

    /** The clients of a rate, then its flag. */
    method SweepAndClear(rate: RefreshRate) returns (ghost polls: seq<Event>)
      requires Wired() && Linked() && Queued() && Logged() && Tracks() && control.pc == Sweeping(rate, 0)
      modifies this`links, this`trace, this`control, this`data, this`clientData, timer, queue, manager
      modifies manager.connected, table.entries, slots
      ensures Linked() && Logged() && Tracks()
      ensures Adds(old(trace), trace, polls + [Ended(rate)])
      ensures PollsFirst(config.Lane(rate), |config.Lane(rate)|, polls)
      ensures control.pc == AfterCheck(rate, control.sendDue) && control.sendDue == old(control).sendDue
    {
      polls := SweepClients(rate);
      ghost var before := trace;
      End(rate);
      AddsTrans(old(trace), before, trace, polls, [Ended(rate)]);
    }

    /** The body of the test of a period flag. */
    method SweepRate(rate: RefreshRate) returns (ghost polls: seq<Event>)
      requires Wired() && Linked() && Queued() && Logged() && Tracks() && control.pc == Checking(rate)
      requires control.timer.Flag(rate)
      requires mode == SendData <==> control.sendDue
      modifies this`trace, this`control, this`data, this`clientData, this`minutesLeft, this`mode
      modifies this`links, timer, queue, manager, manager.connected, table.entries, slots
      ensures Linked() && Logged() && Tracks() && PollsFirst(config.Lane(rate), |config.Lane(rate)|, polls)
      ensures Adds(Then(old(trace), Begun(rate)), trace, polls + [Ended(rate)])
      ensures control.pc == AfterCheck(rate, control.sendDue)
      ensures mode == SendData <==> control.sendDue
      ensures mode == if BecomesDue(old(control), Begun(rate)) then SendData else old(mode)
    {
      Begin(rate);
      polls := SweepAndClear(rate);
    }

    /** PROCESS, one period flag: if it is set, poll the clients of that rate and then clear it. */
    method Check(rate: RefreshRate) returns (ghost swept: bool, ghost polls: seq<Event>)
      requires Wired() && Linked() && Queued() && Logged() && Tracks() && control.pc == Checking(rate)
      requires mode == SendData <==> control.sendDue
      modifies this`trace, this`control, this`data, this`clientData, this`minutesLeft, this`mode
      modifies this`links, timer, queue, manager, manager.connected, table.entries, slots
      ensures Linked() && Logged() && Tracks()
      ensures old(control).timer.Flag(rate) ==> swept
      ensures swept ==> PollsFirst(config.Lane(rate), |config.Lane(rate)|, polls)
      ensures Adds(old(trace), trace, if swept then [Begun(rate)] + (polls + [Ended(rate)]) else [Skipped(rate)])
      ensures control.pc == AfterCheck(rate, control.sendDue)
      ensures mode == SendData <==> control.sendDue
      ensures mode == SendData || mode == old(mode)
    {
      Signals();
      ghost var before := trace;
      swept, polls := timer.State().Flag(rate), [];
      if timer.State().Flag(rate) {
        polls := SweepRate(rate);
        AddsOne(old(trace), Then(before, Begun(rate)));
        AddsTrans(old(trace), Then(before, Begun(rate)), trace, [Begun(rate)], polls + [Ended(rate)]);
      } else {
        Emit(Skipped(rate));
        AddsOne(old(trace), trace);
      }
    }

    /** The same, of a round: the trace has grown. */
    method CheckRate(rate: RefreshRate)
      requires Wired() && Linked() && Queued() && Logged() && Tracks() && control.pc == Checking(rate)
      requires mode == SendData <==> control.sendDue
      modifies this`trace, this`control, this`data, this`clientData, this`minutesLeft, this`mode
      modifies this`links, timer, queue, manager, manager.connected, table.entries, slots
      ensures Linked() && Logged() && Tracks() && Continues(old(trace), trace)
      ensures control.pc == AfterCheck(rate, control.sendDue)
      ensures mode == SendData <==> control.sendDue
      ensures mode == SendData || mode == old(mode)
    {
      ghost var swept, polls := Check(rate);
      NotLonger(old(trace), trace, if swept then [Begun(rate)] + (polls + [Ended(rate)]) else [Skipped(rate)]);
    }

    /** The three period flags, in the order of the loop. */
    method CheckAll()
      requires Wired() && Linked() && Queued() && Logged() && Tracks() && control.pc == Checking(Rate100ms)
      requires mode == SendData <==> control.sendDue
      modifies this`trace, this`control, this`data, this`clientData, this`minutesLeft, this`mode
      modifies this`links, timer, queue, manager, manager.connected, table.entries, slots
      ensures Linked() && Logged() && Tracks() && Continues(old(trace), trace)
      ensures control.pc == AfterCheck(Rate1s, control.sendDue)
      ensures mode == SendData <==> control.sendDue
      ensures mode == SendData || mode == old(mode)
    {
      CheckRate(Rate100ms);
      ghost var t1 := trace;
      CheckRate(Rate1m);
      ContinuesTrans(old(trace), t1, trace);
      ghost var t2 := trace;
      CheckRate(Rate1s);
      ContinuesTrans(old(trace), t2, trace);
    }

    /** State PROCESS, once round. */
    method ProcessRound()
      requires LoopInvariant() && mode == Process
      modifies this`trace, this`control, this`data, this`clientData, this`minutesLeft, this`mode
      modifies this`links, timer, queue, manager, manager.connected, table.entries, slots
      ensures LoopInvariant() && Continues(old(trace), trace)
      ensures mode != InitSys
    {
      CheckAll();
    }

    // ----- the device fields -----

    method SetStaticFields()
      requires slots.Length >= SF_CLIENT_POS
      modifies slots
      ensures slots[..] == WithStaticFields(old(slots[..]))
    {
      slots[2] := Named(slots[2], "ver", TsChar).(charData := "0.0.1+linux");
      slots[5] := Named(slots[5], "ep", TsChar).(charData := "868186040127613");
      slots[6] := Named(slots[6], "type", TsChar).(charData := "full");
      slots[7] := Named(slots[7], "lon", TsDouble).(doubleData := 18.0993);
      slots[8] := Named(slots[8], "lat", TsDouble).(doubleData := 54.084);
      slots[9] := Named(slots[9], "loc", TsInt).(intData := 1);
    }

    method SetDynamicFields(now: int)
      requires slots.Length >= SF_CLIENT_POS
      modifies slots
      ensures slots[..] == WithDynamicFields(old(slots[..]), now)
    {
      slots[0] := Named(slots[0], "bat", TsInt).(intData := 95);
      slots[1] := Named(slots[1], "sig", TsInt).(intData := 25);
      slots[3] := Named(slots[3], "ts", TsLint).(longData := now);
      slots[4] := Named(slots[4], "id", TsInt).(intData := 0);
    }

    // ----- SEND_DATA -----

    /** counterReset for every client. */
    method ResetCounters()
      requires Wired()
      modifies table.entries
      ensures table.entries[..] == ResetAll(config, old(table.entries[..]))
    {
      ghost var before := table.entries[..];
      for i := 0 to |config.clients|
        invariant table.entries[i..] == before[i..]
        invariant forall k :: 0 <= k < i ==> table.entries[k] == AfterReset(config.clients[k], before[k])
      {
        assert ValidClient(config.clients[i], i);
        assert table.entries[i] == table.entries[i..][0] == before[i];
        var c := manager.GetClient(i);
        table.Reset(c.value);
        assert table.entries[i + 1..] == before[i..][1..];
      }
      var n := |config.clients|;
      assert forall k :: n <= k < |before| ==> table.entries[k] == before[n..][k - n];
    }

    /** The snapshot goes out; the counters restart only if the broker took it. */
    method Publish()
      requires Wired() && Logged() && Tracks() && control.pc == Sending
      modifies this`trace, this`control, this`data, timer, table.entries, slots
      ensures Logged() && Tracks()
      ensures control == old(control).(pc := Checking(Rate100ms), timer := control.timer, sendDue := false)
      ensures trace.Then? && trace.last.Sent? && Adds(old(trace), trace, [trace.last])
    {
      Signals();
      var now: int, accepted: bool := *, *;
      SetDynamicFields(now);
      if accepted {
        ResetCounters();
      }
      Emit(Sent(now, accepted));
      AddsOne(old(trace), trace);
    }

    /** State SEND_DATA. */
    method Send()
      requires LoopInvariant() && mode == SendData
      modifies this`trace, this`control, this`data, this`mode, timer, table.entries, slots
      ensures LoopInvariant() && Continues(old(trace), trace)
      ensures mode == Process && trace.Then? && trace.last.Sent? && Adds(old(trace), trace, [trace.last])
    {
      Publish();
      mode := Process;
      NotLonger(old(trace), trace, [trace.last]);
    }

    // ----- INIT_SYS -----

    /** The queues once the first n clients are registered. */
    ghost predicate QueuedFirst(n: nat)
      requires Wired() && n <= |config.clients|
      reads queue.rate100ms, queue.rate1s, queue.rate1m
    {
      queue.Valid() && forall rate :: queue.Lane(rate) == ClientsAt(config.clients[..n], rate)
    }

    /** The counters then. */
    ghost predicate CountersFirst(n: nat)
      requires Wired() && n <= |config.clients|
      reads table.entries
    {
      && (forall k :: 0 <= k < n ==> table.entries[k] == AfterAdd(config.clients[k], ZERO_INFO))
      && (forall k :: n <= k < table.entries.Length ==> table.entries[k] == ZERO_INFO)
    }

    /** A lane holds at most the clients before, and so has room for one more. */
    lemma LaneGrows(i: nat, rate: RefreshRate)
      requires Wired() && i < |config.clients|
      ensures var lane, c := ClientsAt(config.clients[..i], rate), config.clients[i];
              && |lane| < queue.capacity && c.innerIdx == i
              && ClientsAt(config.clients[..i + 1], rate) == if c.refreshRate == rate then lane + [i] else lane
    {
      assert ValidClient(config.clients[i], i);
      assert config.clients[..i + 1][..i] == config.clients[..i];
    }

    method Enqueue(i: nat) returns (ok: bool)
      requires Wired() && i < |config.clients| && QueuedFirst(i)
      modifies queue.Cells(config.clients[i].refreshRate)
      ensures ok && QueuedFirst(i + 1)
    {
      forall rate
        ensures var lane, c := ClientsAt(config.clients[..i], rate), config.clients[i];
                && |lane| < queue.capacity && c.innerIdx == i
                && ClientsAt(config.clients[..i + 1], rate) == if c.refreshRate == rate then lane + [i] else lane
      {
        LaneGrows(i, rate);
      }
      ok := queue.Add(config.clients[i].refreshRate, config.clients[i].innerIdx);
    }

    method AddCounter(i: nat)
      requires Wired() && i < |config.clients| && CountersFirst(i)
      modifies table.entries
      ensures CountersFirst(i + 1)
    {
      assert ValidClient(config.clients[i], i);
      table.Add(config.clients[i]);
    }

    /** queueAdd and counterAdd for one client. The queue always has room. */
    method Register(i: nat) returns (ok: bool)
      requires Wired() && i < |config.clients| && QueuedFirst(i) && CountersFirst(i)
      modifies queue.Cells(config.clients[i].refreshRate), table.entries
      ensures ok && QueuedFirst(i + 1) && CountersFirst(i + 1)
    {
      ok := Enqueue(i);
      if ok {
        AddCounter(i);
      }
    }

    method RegisterClients() returns (ok: bool)
      requires Wired() && queue.Valid() && forall rate :: queue.Lane(rate) == []
      requires forall k :: 0 <= k < table.entries.Length ==> table.entries[k] == ZERO_INFO
      modifies queue.rate100ms, queue.rate1s, queue.rate1m, table.entries
      ensures ok && Queued() && table.entries[..] == InitialData(config).counters
    {
      var i := 0;
      ok := true;
      while i < config.capacity
        invariant i <= |config.clients| && QueuedFirst(i) && CountersFirst(i)
      {
        if manager.GetClient(i).None? {
          break;
        }
        ok := Register(i);
        if !ok {
          return;
        }
        i := i + 1;
      }
      assert config.clients[..i] == config.clients;
    }

    /** Connections, queues and counters. */
    method SetUp() returns (ok: bool)
      requires Wired() && Linked() && manager.handler.None?
      requires forall i :: 0 <= i < |config.clients| ==> manager.context[i].None?
      requires forall k :: 0 <= k < table.entries.Length ==> table.entries[k] == ZERO_INFO
      modifies this`links, queue, queue.rate100ms, queue.rate1s, queue.rate1m, table.entries, manager, manager.connected
      modifies manager.context
      ensures ok && Linked() && Queued() && table.entries[..] == InitialData(config).counters
    {
      var attempts: seq<Attempt> := *;
      if |attempts| != |config.clients| {
        attempts := seq(|config.clients|, _ => Attempt(false, false, false, false));
      }
      InitialLinksSound(config.clients, attempts);
      var _ := manager.InitConnections(attempts);
      links := manager.State();
      queue.Clean();
      ok := RegisterClients();
    }

    /** The manager's part of init_sys. It succeeds as soon as the configuration is accepted,
        so the connections are set up once only. */
    method StartManager() returns (ok: bool)
      requires Off()
      modifies this`managerOn, this`connectionInits
      modifies this`links, queue, queue.rate100ms, queue.rate1s, queue.rate1m, table.entries, manager, manager.connected
      modifies manager.context
      ensures Off() && (ok <==> managerOn)
    {
      if managerOn {
        return true;
      }
      var accepted: bool := *;
      if !accepted {
        return false;
      }
      ok := SetUp();
      connectionInits := connectionInits + 1;
      if !ok {
        return;
      }
      managerOn := true;
    }

    /** The timer is stopped while the broker is tried. */
    method StartBroker()
      modifies this`timerOn, this`mqttOn
      ensures !timerOn && (old(mqttOn) ==> mqttOn)
    {
      timerOn := false;
      if !mqttOn {
        mqttOn := *;
      }
    }

    /** The timer's part: started last, and only then does the loop leave INIT_SYS. */
    method StartTimer()
      modifies this`mode, this`timerOn
      ensures mode == if timerOn && managerOn && mqttOn then Process else old(mode)
      ensures timerOn ==> old(timerOn) || (managerOn && mqttOn)
    {
      if !timerOn && managerOn && mqttOn {
        timerOn := *;
      }
      if timerOn && managerOn && mqttOn {
        mode := Process;
      }
    }

    /** init_sys: repeated until the broker, the manager and the timer are all up. */
    method Initialize()
      requires Off() && mode == InitSys
      modifies this`mode, this`timerOn, this`mqttOn, this`managerOn, this`connectionInits
      modifies this`links, queue, queue.rate100ms, queue.rate1s, queue.rate1m, table.entries, manager, manager.connected
      modifies manager.context
      ensures Off() && mode != SendData
      ensures mode == Process <==> managerOn && mqttOn && timerOn
    {
      StartBroker();
      var ok := StartManager();
      if ok {
        StartTimer();
      }
    }

    /** The first reading of a client. A failed poll feeds a zero reading, unscaled. */
    method SettleFirst(i: nat, ok: bool)
      requires Wired() && Logged() && Tracks() && i < |config.clients| && control.pc == Surveying(i)
      requires ok ==> clientData.dataType == config.clients[i].dataType
      modifies this`trace, this`control, this`data, this`clientData, table.entries, slots
      ensures Logged() && Tracks()
      ensures control == old(control).(pc := AfterSurvey(config, i))
      ensures trace == Then(old(trace), if ok then InitAnswered(i, old(clientData)) else InitSilent(i))
    {
      if ok {
        ghost var d := clientData;
        Store(i, true);
        Emit(InitAnswered(i, d));
      } else {
        clientData := ZeroData(config.clients[i].dataType);
        Store(i, false);
        Emit(InitSilent(i));
      }
    }

    /** One client of the INIT pass. */
    method FirstPoll(i: nat) returns (ghost r: Receipt)
      requires Wired() && Linked() && Logged() && Tracks() && i < |config.clients| && control.pc == Surveying(i)
      modifies this`links, this`trace, this`control, this`data, this`clientData, timer, manager, manager.connected
      modifies table.entries, slots
      ensures Linked() && Logged() && Tracks()
      ensures control.pc == AfterSurvey(config, i) && control.sendDue == old(control).sendDue
      ensures r.Right(config, manager.order) && r.i == i && r.links == old(links) && r.before == old(clientData)
      ensures trace.Then? && Adds(old(trace), trace.earlier, [])
      ensures trace.last == if r.ok then InitAnswered(i, r.d) else InitSilent(i)
      ensures manager.reconnectCalls == old(manager.reconnectCalls) + r.Outcome(config).reconnectCount
      ensures manager.readCalls == old(manager.readCalls) + r.Outcome(config).readCount
    {
      var ok;
      ok, r := Ask(i);
      SettleFirst(i, ok);
    }

    method LoadFields(now: int)
      requires slots.Length >= SF_CLIENT_POS
      modifies this`minutesLeft, slots
      ensures minutesLeft == config.interval && slots[..] == WithDynamicFields(WithStaticFields(old(slots[..])), now)
    {
      minutesLeft := config.interval;
      SetStaticFields();
      SetDynamicFields(now);
    }

    /** The countdown and the device fields at the start of the INIT pass. */
    method Prepare()
      requires Wired() && Logged() && Tracks() && control.pc.Boot?
      modifies this`trace, this`control, this`data, this`minutesLeft, timer, slots
      ensures Logged() && Tracks()
      ensures trace.Then? && trace.last.Prepared? && Adds(old(trace), trace, [trace.last])
      ensures control.pc == Surveying(0) && control.sendDue == old(control).sendDue && minutesLeft == config.interval
    {
      Signals();
      var now: int := *;
      LoadFields(now);
      Emit(Prepared(now));
      AddsOne(old(trace), trace);
    }

    /** One round of the loop over the clients. */
    method SurveyClient(i: nat)
      requires Wired() && Linked() && Logged() && Tracks() && i < |config.clients| && control.pc == Surveying(i)
      modifies this`links, this`trace, this`control, this`data, this`clientData, timer, manager, manager.connected
      modifies table.entries, slots
      ensures Linked() && Logged() && Tracks() && control.pc == AfterSurvey(config, i)
      ensures trace.Then? && (trace.last.InitAnswered? || trace.last.InitSilent?) && trace.last.i == i
      ensures Adds(old(trace), trace, [trace.last])
    {
      assert ValidClient(config.clients[i], i);
      var c := manager.GetClient(i);
      ghost var _ := FirstPoll(c.value.innerIdx);
      AddsOne(old(trace), trace);
    }

    method SurveyAll() returns (ghost polls: seq<Event>)
      requires Wired() && Linked() && Logged() && Tracks() && control.pc == Surveying(0)
      modifies this`links, this`trace, this`control, this`data, this`clientData, timer, manager, manager.connected
      modifies table.entries, slots
      ensures Linked() && Logged() && Tracks() && control.pc.Sending?
      ensures Adds(old(trace), trace, polls) && SurveysFirst(|config.clients|, polls)
    {
      polls := [];
      for i := 0 to |config.clients|
        invariant Linked() && Logged() && Tracks()
        invariant Adds(old(trace), trace, polls) && SurveysFirst(i, polls)
        invariant control.pc == if i == |config.clients| then Sending else Surveying(i)
      {
        ghost var before := trace;
        SurveyClient(i);
        AddsTrans(old(trace), before, trace, polls, [trace.last]);
        polls := polls + [trace.last];
      }
    }

    /** The INIT pass: every client polled once, in index order. */
    method Survey() returns (ghost prepared: Event, ghost polls: seq<Event>)
      requires Wired() && Linked() && Logged() && Tracks() && control.pc.Boot?
      modifies this`trace, this`control, this`data, this`clientData, this`minutesLeft
      modifies this`links, timer, manager, manager.connected, table.entries, slots
      ensures Linked() && Logged() && Tracks() && control.pc.Sending? && minutesLeft == config.interval
      ensures prepared.Prepared? && SurveysFirst(|config.clients|, polls)
      ensures Adds(old(trace), trace, [prepared] + polls)
    {
      Prepare();
      prepared := trace.last;
      ghost var before := trace;
      polls := SurveyAll();
      AddsTrans(old(trace), before, trace, [prepared], polls);
    }

    /** What follows a successful init_sys. */
    method FirstRound()
      requires Off() && managerOn
      modifies this`trace, this`control, this`data, this`clientData, this`minutesLeft, this`mode
      modifies this`links, timer, manager, manager.connected, table.entries, slots
      ensures Running() && control.pc == Sending && mode == SendData
      ensures Continues(old(trace), trace)
    {
      ghost var prepared, polls := Survey();
      NotLonger(old(trace), trace, [prepared] + polls);
      mode := SendData;
    }

    /** State INIT_SYS, once round. */
    method InitRound()
      requires LoopInvariant() && mode == InitSys
      modifies this, timer, queue, queue.rate100ms, queue.rate1s, queue.rate1m
      modifies manager, manager.connected, manager.context, table.entries, slots
      ensures LoopInvariant() && Continues(old(trace), trace)
      ensures mode != Process
    {
      Initialize();
      if mode != InitSys {
        FirstRound();
      }
    }

    // ----- the endless loop -----

    /** Any number of rounds of the main loop, whatever the environment does. */
    method Run(rounds: nat)
      requires LoopInvariant()
      modifies this, timer, queue, queue.rate100ms, queue.rate1s, queue.rate1m
      modifies manager, manager.connected, manager.context, table.entries, slots
      ensures LoopInvariant() && Continues(old(trace), trace)
      ensures old(mode) != InitSys ==> mode != InitSys
    {
      for n := 0 to rounds
        invariant LoopInvariant() && Continues(old(trace), trace)
        invariant old(mode) != InitSys ==> mode != InitSys
      {
        ghost var before := trace;
        match mode {
          case InitSys => InitRound();
          case Process => ProcessRound();
          case SendData => Send();
        }
        ContinuesTrans(old(trace), before, trace);
      }
    }

    // ----- what follows for the running program -----

    /** Between any two rounds: what was accepted and what the counter in memory still holds
        is what the readings amount to, exactly when every accepted send was fresh. */
    lemma CountersBalance(i: nat)
      requires LoopInvariant() && mode != InitSys && i < |config.clients|
      requires Runs.Countable(config.clients[i]) && InRange(config, trace, i) && SendsScaled(config, trace, i)
      ensures Legal(config, trace)
      ensures var unpublished := config.clients[i].Scaled(CounterValue(config.clients[i], table.entries[i]));
              SendsFresh(config, trace, i) <==>
              PublishedSum(config, trace, i) + unpublished == Measured(config, trace, i)
    {
      EndToEndConservation(config, trace, i);
    }

    /** A DWORD "cumulated" slot in memory that was polled since the last accepted send shows the scaled net change
        of the meter since then. */
    lemma SlotShowsNetChange(i: nat)
      requires LoopInvariant() && mode != InitSys && i < |config.clients|
      requires Cumulated.CumulatedDword(config.clients[i]) && NothingSwallowed(config, trace, i)
      requires PolledSinceAccept(trace, i)
      ensures Congruent(slots[SF_CLIENT_POS + i].longData,
                        config.clients[i].Scaled(Cumulated.NetChange(config.clients[i], History(trace, i))))
    {
      EndToEndNetChange(config, trace, i);
    }

    /** Whenever the loop is about to send, all the slots in memory are printable. */
    lemma ReadyToPrint()
      requires LoopInvariant() && mode == SendData
      ensures forall j :: 0 <= j < SF_CLIENT_POS + |config.clients| ==> slots[j].WellFormed()
    {
      forall j | 0 <= j < SF_CLIENT_POS + |config.clients|
        ensures slots[j].WellFormed()
      {
        SlotsWellFormed(config, trace, j);
      }
    }

    /** Between any two rounds, every tick so far is accounted for by the flags in memory,
        and the sends so far respect the rate bound. */
    lemma TicksBalance(rate: RefreshRate)
      requires LoopInvariant()
      ensures Legal(config, trace)
      ensures Raised(config, trace, rate) ==
              Sweeps(trace, rate) + Coalesced(config, trace, rate) + Bit(timer.State().Flag(rate))
      ensures timer.counter == Ticks(trace) % 600
      ensures Raised(config, trace, Rate1s) == Ticks(trace) / 10 && Raised(config, trace, Rate1m) == Ticks(trace) / 600
      ensures Sends(trace) <= 1 + Ticks(trace) / (600 * (if config.interval < 1 then 1 else config.interval))
    {
      TickAccounting(config, trace, rate);
      TimerPhase(config, trace);
      SendRate(config, trace);
    }

    /** Between any two rounds nothing has leaked, OPC clients agree, and connected means usable. */
    lemma LinksHold()
      requires LoopInvariant()
      ensures connectionInits <= 1
      ensures |manager.liveHandles| <= 1 && (manager.liveHandles == {} <==> manager.handler.None?)
      ensures forall i :: 0 <= i < |config.clients| && manager.context[i].Some? ==>
                manager.context[i].value in manager.liveContexts
      ensures forall id :: id in manager.liveContexts ==>
                var i := manager.liveContexts[id];
                i < |config.clients| && config.clients[i].protocol.Modbus? && manager.context[i] == Some(id)
      ensures forall i :: 0 <= i < |config.clients| && manager.connected[i] ==>
                if config.clients[i].protocol.Opc? then manager.handler.Some? else manager.context[i].Some?
      ensures forall i, j | 0 <= i < |config.clients| && 0 <= j < |config.clients| ::
                (config.clients[i].protocol.Opc? && config.clients[j].protocol.Opc?) ==>
                manager.connected[i] == manager.connected[j]
    {
      var l := manager.State();
      assert forall i :: 0 <= i < |config.clients| ==>
               l.connected[i] == manager.connected[i] && l.context[i] == manager.context[i].Some?;
    }
  }
}
