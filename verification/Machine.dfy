/** The main loop as a machine that takes one small step per event, with the timer
    signal landing between any two of them. Class Gateway runs the loop and emits
    these events; the laws below hold of every legal trace. */
module Machine {
  import opened CInts
  import opened Types
  import opened Counters
  import Runs = ClientRuns
  import opened ClientQueue
  import opened Timer

  datatype Config = Config(width: LongWidth, capacity: nat, interval: int, clients: seq<ClientSettings>) {

    ghost predicate Valid() {
      ValidSettings(clients, capacity)
    }

    predicate Fits() {
      |clients| <= capacity
    }

    function Lane(rate: RefreshRate): seq<int> {
      ClientsAt(clients, rate)
    }

    /** Minutes between two sends; an interval of 0 or less sends every minute. */
    function Period(): int {
      Max(1, interval)
    }
  }

  /** Where the main loop stands. */
  datatype Pc =
    | Boot                                     // init_sys has just succeeded
    | Surveying(next: nat)                     // the INIT pass, next client
    | Sending                                  // state SEND_DATA
    | Checking(rate: RefreshRate)              // about to test a period flag
    | Sweeping(rate: RefreshRate, done: nat)   // sweeping that rate, done clients polled

  /** What decides which action comes next. */
  datatype Control = Control(
    pc: Pc,
    timer: TimerState,
    minutesLeft: int,            // sendDataMin
    sendDue: bool)               // dev_status.state is already SEND_DATA

  /** What is measured and published. */
  datatype Data = Data(
    counters: seq<CounterInfo>,
    slots: seq<Slot>)            // mqtt_data

  datatype Event =
    | Tick
    | Prepared(now: int)                     // static and dynamic fields set, countdown loaded
    | InitAnswered(i: nat, d: ClientData)    // INIT pass, poll of client i succeeded
    | InitSilent(i: nat)                     // INIT pass, poll of client i failed
    | Begun(rate: RefreshRate)               // flag found set
    | Skipped(rate: RefreshRate)             // flag found clear
    | Answered(i: nat, d: ClientData)        // sweep, poll of client i succeeded
    | Silent(i: nat)                         // sweep, poll of client i failed
    | Ended(rate: RefreshRate)               // sweep finished, flag cleared
    | Sent(now: int, accepted: bool)         // snapshot sent

  type Trace = Log<Event>

  // ---------- the fixed fields ----------

  function Named(s: Slot, name: string, t: SlotType): Slot {
    s.(alias := Some(name), slotType := t)
  }

  /** set_mqtt_static_fields */
  function WithStaticFields(slots: seq<Slot>): (r: seq<Slot>)
    requires |slots| >= SF_CLIENT_POS
    ensures |r| == |slots| && r[SF_CLIENT_POS..] == slots[SF_CLIENT_POS..]
  {
    slots[2 := Named(slots[2], "ver", TsChar).(charData := "0.0.1+linux")]
         [5 := Named(slots[5], "ep", TsChar).(charData := "868186040127613")]
         [6 := Named(slots[6], "type", TsChar).(charData := "full")]
         [7 := Named(slots[7], "lon", TsDouble).(doubleData := 18.0993)]
         [8 := Named(slots[8], "lat", TsDouble).(doubleData := 54.084)]
         [9 := Named(slots[9], "loc", TsInt).(intData := 1)]
  }

  /** set_mqtt_dynamic_fields */
  function WithDynamicFields(slots: seq<Slot>, now: int): (r: seq<Slot>)
    requires |slots| >= SF_CLIENT_POS
    ensures |r| == |slots| && r[SF_CLIENT_POS..] == slots[SF_CLIENT_POS..]
  {
    slots[0 := Named(slots[0], "bat", TsInt).(intData := 95)]
         [1 := Named(slots[1], "sig", TsInt).(intData := 25)]
         [3 := Named(slots[3], "ts", TsLint).(longData := now)]
         [4 := Named(slots[4], "id", TsInt).(intData := 0)]
  }

  // ---------- control ----------

  const POWER_ON := Control(Boot, STOPPED, 0, false)

  /** The loop tests the flags in the order 100 ms, 1 min, 1 s. */
  function AfterCheck(rate: RefreshRate, sendDue: bool): Pc {
    match rate
    case Rate100ms => Checking(Rate1m)
    case Rate1m => Checking(Rate1s)
    case Rate1s => if sendDue then Sending else Checking(Rate100ms)
  }

  function AfterSurvey(c: Config, i: nat): Pc {
    if i + 1 == |c.clients| then Sending else Surveying(i + 1)
  }

  /** The client a sweep polls next. */
  predicate NextInSweep(c: Config, pc: Pc, i: nat) {
    pc.Sweeping? && pc.done < |c.Lane(pc.rate)| && c.Lane(pc.rate)[pc.done] == i < |c.clients|
  }

  predicate Enabled(c: Config, k: Control, e: Event) {
    match e
    case Tick => true
    case Prepared(_) => k.pc.Boot?
    case InitAnswered(i, d) => k.pc == Surveying(i) && i < |c.clients| && d.dataType == c.clients[i].dataType
    case InitSilent(i) => k.pc == Surveying(i) && i < |c.clients|
    case Begun(r) => k.pc == Checking(r) && k.timer.Flag(r)
    case Skipped(r) => k.pc == Checking(r) && !k.timer.Flag(r)
    case Answered(i, d) => NextInSweep(c, k.pc, i) && d.dataType == c.clients[i].dataType
    case Silent(i) => NextInSweep(c, k.pc, i)
    case Ended(r) => k.pc == Sweeping(r, |c.Lane(r)|)
    case Sent(_, _) => k.pc.Sending?
  }

  /** Whether this is the minute in which a snapshot falls due. */
  predicate BecomesDue(k: Control, e: Event) {
    e == Begun(Rate1m) && k.minutesLeft - 1 <= 0
  }

  function Steer(c: Config, k: Control, e: Event): Control
    requires Enabled(c, k, e)
  {
    match e
    case Tick => k.(timer := k.timer.Ticked())
    case Prepared(_) => k.(pc := Surveying(0), minutesLeft := c.interval)
    case InitAnswered(i, _) => k.(pc := AfterSurvey(c, i))
    case InitSilent(i) => k.(pc := AfterSurvey(c, i))
    case Begun(r) =>
      if BecomesDue(k, e) then k.(pc := Sweeping(r, 0), minutesLeft := c.interval, sendDue := true)
      else k.(pc := Sweeping(r, 0), minutesLeft := if r.Rate1m? then k.minutesLeft - 1 else k.minutesLeft)
    case Skipped(r) => k.(pc := AfterCheck(r, k.sendDue))
    case Answered(_, _) => k.(pc := k.pc.(done := k.pc.done + 1))
    case Silent(_) => k.(pc := k.pc.(done := k.pc.done + 1))
    case Ended(r) => k.(pc := AfterCheck(r, k.sendDue), timer := k.timer.Cleared(r))
    case Sent(_, _) => k.(pc := Checking(Rate100ms), sendDue := false)
  }

  /** Where a trace leads, if each of its events was possible where it happened. */
  function ControlAfter(c: Config, tr: Trace): Option<Control> {
    if tr.Empty? then Some(POWER_ON)
    else match ControlAfter(c, tr.earlier)
      case None => None
      case Some(k) => if Enabled(c, k, tr.last) then Some(Steer(c, k, tr.last)) else None
  }

  predicate Legal(c: Config, tr: Trace) {
    ControlAfter(c, tr).Some?
  }

  function At(c: Config, tr: Trace): Control
    requires Legal(c, tr)
  {
    ControlAfter(c, tr).value
  }

  // ---------- data ----------

  predicate Shaped(c: Config, d: Data) {
    && |d.counters| == c.capacity >= |c.clients|
    && |d.slots| == SF_CLIENT_POS + c.capacity
  }

  function InitialData(c: Config): (d: Data)
    requires c.Fits()
    ensures Shaped(c, d)
  {
    Data(seq(c.capacity, i requires 0 <= i < c.capacity =>
           if i < |c.clients| then AfterAdd(c.clients[i], ZERO_INFO) else ZERO_INFO),
         seq(SF_CLIENT_POS + c.capacity, _ => EMPTY_SLOT))
  }

  /** Client i's part after a reading. */
  function Recorded(c: Config, s: Data, i: nat, d: ClientData, scale: bool): (r: Data)
    requires Shaped(c, s) && i < |c.clients|
    ensures Shaped(c, r)
  {
    var (info, slot) := Runs.Surveyed(c.width, c.clients[i], s.counters[i], s.slots[SF_CLIENT_POS + i], d, scale);
    Data(s.counters[i := info], s.slots[SF_CLIENT_POS + i := slot])
  }

  function ResetAll(c: Config, counters: seq<CounterInfo>): (r: seq<CounterInfo>)
    requires |c.clients| <= |counters|
    ensures |r| == |counters|
  {
    seq(|counters|, i requires 0 <= i < |counters| =>
      if i < |c.clients| then AfterReset(c.clients[i], counters[i]) else counters[i])
  }

  function Record(c: Config, s: Data, e: Event): (r: Data)
    requires Shaped(c, s)
    ensures Shaped(c, r)
  {
    match e
    case Prepared(now) => s.(slots := WithDynamicFields(WithStaticFields(s.slots), now))
    case InitAnswered(i, d) => if i < |c.clients| then Recorded(c, s, i, d, true) else s
    case InitSilent(i) => if i < |c.clients| then Recorded(c, s, i, ZeroData(c.clients[i].dataType), false) else s
    case Answered(i, d) => if i < |c.clients| then Recorded(c, s, i, d, true) else s
    case Sent(now, accepted) =>
      Data(if accepted then ResetAll(c, s.counters) else s.counters, WithDynamicFields(s.slots, now))
    case _ => s
  }

  function DataAfter(c: Config, tr: Trace): (d: Data)
    requires c.Fits()
    ensures Shaped(c, d)
  {
    if tr.Empty? then InitialData(c) else Record(c, DataAfter(c, tr.earlier), tr.last)
  }
}
