/** One client over a whole run: every pattern of successful polls, failed polls,
    accepted sends and refused sends. Everything here is a fold over the client's
    own history; module Machine shows that the gateway computes these folds. */
module ClientRuns {
  import opened CInts
  import opened Types
  import opened Counters

  datatype ClientEvent =
    | Read(d: ClientData)  // a successful poll
    | InitMissed           // the poll of the INIT pass failed: a zero reading is counted, unscaled
    | Missed               // a later poll failed
    | Accepted             // the broker took the snapshot; counters are zeroed
    | Refused              // the broker did not

  type History = Log<ClientEvent>

  datatype ClientState = ClientState(info: CounterInfo, slot: Slot)

  predicate IsReading(e: ClientEvent) {
    e.Read? || e.InitMissed?
  }

  /** The INIT pass gives every client exactly one reading before anything else. */
  predicate Legal(h: History) {
    h.Empty? || (Legal(h.earlier) && if h.earlier.Empty? then IsReading(h.last) else !h.last.InitMissed?)
  }

  /** A reading goes through the counter, the multiplier and into the slot. */
  function Surveyed(w: LongWidth, c: ClientSettings, info: CounterInfo, slot: Slot, d: ClientData, scale: bool)
    : (CounterInfo, Slot)
  {
    var info' := AfterUpdate(w, c, info, d).0;
    var value := Fetched(c, info', d).0;
    var scaled := if scale then Compute(c, value).0 else value;
    (info', ToSlot(w, c, scaled, slot))
  }

  /** The reading an event counts. */
  function Counted(c: ClientSettings, e: ClientEvent): ClientData
    requires IsReading(e)
  {
    if e.Read? then e.d else ZeroData(c.dataType)
  }

  function Step(w: LongWidth, c: ClientSettings, s: ClientState, e: ClientEvent): ClientState {
    if IsReading(e) then
      var (info, slot) := Surveyed(w, c, s.info, s.slot, Counted(c, e), e.Read?);
      ClientState(info, slot)
    else if e.Accepted? then s.(info := AfterReset(c, s.info))
    else s
  }

  function Run(w: LongWidth, c: ClientSettings, h: History): ClientState {
    if h.Empty? then ClientState(AfterAdd(c, ZERO_INFO), EMPTY_SLOT)
    else Step(w, c, Run(w, c, h.earlier), h.last)
  }

  // ---------- what a run should publish ----------

  /** The numbers a client reported; a failed INIT poll reports 0. */
  function Readings(c: ClientSettings, h: History): Log<int> {
    if h.Empty? then Empty
    else if IsReading(h.last) then Then(Readings(c, h.earlier), Number(c.dataType, Counted(c, h.last)))
    else Readings(c, h.earlier)
  }

  function Latest(base: int, rs: Log<int>): int {
    if rs.Empty? then base else rs.last
  }

  function First(rs: Log<int>): int {
    if rs.Empty? then 0 else if rs.earlier.Empty? then rs.last else First(rs.earlier)
  }

  /** Total positive variation of readings from a baseline. */
  function Variation(base: int, rs: Log<int>): nat {
    if rs.Empty? then 0
    else Variation(base, rs.earlier) + Max(0, rs.last - Latest(base, rs.earlier))
  }

  /** How many readings differ from 100. */
  function CountNot100(rs: Log<int>): nat {
    if rs.Empty? then 0 else CountNot100(rs.earlier) + if rs.last != 100 then 1 else 0
  }

  /** Total travel of a meter that may run either way, each step taken modulo 2^32. */
  function Travel(rs: Log<int>): nat {
    if rs.Empty? || rs.earlier.Empty? then 0 else Travel(rs.earlier) + ToDword(rs.last - rs.earlier.last)
  }

  /** Clients with a counter of a type it can count. */
  predicate Countable(c: ClientSettings) {
    c.Numeric() && !c.counter.NoCounter?
  }

  /** What the counter of a client measures. A "cumulated" counter starts from the first reading;
      it adds increases of an INT, and any change of a DWORD modulo 2^32. */
  function Measure(c: ClientSettings, rs: Log<int>): nat {
    match c.counter
    case NoCounter => 0
    case Difference => Variation(0, rs)
    case CumulatedNot100 => CountNot100(rs)
    case Cumulated => if c.dataType.Dword? then Travel(rs) else Variation(First(rs), rs)
  }

  /** The measure of all readings of a history. */
  function Total(c: ClientSettings, h: History): nat {
    Measure(c, Readings(c, h))
  }

  /** The part of it that was added since the last accepted send. */
  function Window(c: ClientSettings, h: History): int {
    if h.Empty? || h.last.Accepted? then 0
    else Window(c, h.earlier) + Total(c, h) - Total(c, h.earlier)
  }

  /** The largest number the client's slot can publish unchanged. */
  function SlotMax(w: LongWidth, c: ClientSettings): int {
    if c.dataType.Dword? && w.Long64? then DWORD_MAX else INT_MAX
  }

  /** No scaled window leaves the range of the slot. */
  predicate WindowsFit(w: LongWidth, c: ClientSettings, h: History) {
    h.Empty? || (WindowsFit(w, c, h.earlier) && c.Scaled(Window(c, h)) <= SlotMax(w, c))
  }

  /** The counter itself does not overflow: no window reaches half the range of `long`,
      and no INT reading jumps by more than an `int` holds. */
  predicate AccumulatorFits(w: LongWidth, c: ClientSettings, h: History) {
    h.Empty? ||
    (&& AccumulatorFits(w, c, h.earlier)
     && Window(c, h) < w.Half()
     && (c.dataType.Int? ==> Total(c, h) - Total(c, h.earlier) <= INT_MAX))
  }

  /** A "cumulated" counter that a later reading finds at -1 starts again from 0; that is right only
      if the reading adds 1. */
  predicate NothingSwallowed(w: LongWidth, c: ClientSettings, h: History) {
    h.Empty? ||
    (&& NothingSwallowed(w, c, h.earlier)
     && (c.counter.Cumulated? && IsReading(h.last) && !h.earlier.Empty? && Value(w, c, h.earlier) == -1 ==>
           Total(c, h) - Total(c, h.earlier) == 1))
  }

  /** The client was polled, successfully or in the INIT pass, since the last accepted send. */
  predicate ReadSinceAccept(h: History) {
    !h.Empty? && !h.last.Accepted? && (IsReading(h.last) || ReadSinceAccept(h.earlier))
  }

  function Value(w: LongWidth, c: ClientSettings, h: History): int {
    CounterValue(c, Run(w, c, h).info)
  }

  /** The number in the client's slot. */
  function Published(w: LongWidth, c: ClientSettings, h: History): int {
    SlotNumber(c.dataType, Run(w, c, h).slot)
  }

  /** Sum of the client's numbers in the accepted snapshots. */
  function AcceptedSum(w: LongWidth, c: ClientSettings, h: History): int {
    if h.Empty? then 0
    else AcceptedSum(w, c, h.earlier) + if h.last.Accepted? then Published(w, c, h.earlier) else 0
  }

  /** The sum, and what the counter has still to report. */
  function Report(w: LongWidth, c: ClientSettings, h: History): int {
    AcceptedSum(w, c, h) + c.Scaled(Value(w, c, h))
  }

  /** The part of that sum that was published again without a poll in between. */
  function StaleSum(w: LongWidth, c: ClientSettings, h: History): int {
    if h.Empty? then 0
    else StaleSum(w, c, h.earlier) +
         if h.last.Accepted? && !ReadSinceAccept(h.earlier) then Published(w, c, h.earlier) else 0
  }

  /** At every accepted send the client had been polled since the previous one, or its slot held 0. */
  predicate AcceptsFresh(w: LongWidth, c: ClientSettings, h: History) {
    h.Empty? ||
    (&& AcceptsFresh(w, c, h.earlier)
     && (h.last.Accepted? ==> ReadSinceAccept(h.earlier) || Published(w, c, h.earlier) == 0))
  }

  /** No poll has succeeded since the INIT poll failed. */
  predicate OnlyInitMissed(h: History) {
    !h.Empty? && (h.last.InitMissed? || (!h.last.Read? && OnlyInitMissed(h.earlier)))
  }

  /** The slot holds a count that was never multiplied. */
  predicate Unscaled(c: ClientSettings, h: History) {
    c.counter.CumulatedNot100? && OnlyInitMissed(h)
  }

  /** What sends of such a count fell short of. */
  function Shortfall(c: ClientSettings, h: History): int {
    if h.Empty? then 0
    else Shortfall(c, h.earlier) +
         if h.last.Accepted? && ReadSinceAccept(h.earlier) && Unscaled(c, h.earlier)
         then c.Scaled(Window(c, h.earlier)) - Window(c, h.earlier) else 0
  }

  /** No accepted send came between a failed INIT poll and the first good one, if that would show. */
  predicate AcceptsScaled(c: ClientSettings, h: History) {
    h.Empty? ||
    (&& AcceptsScaled(c, h.earlier)
     && (h.last.Accepted? && ReadSinceAccept(h.earlier) && Unscaled(c, h.earlier) ==> c.computation.NoComputation?))
  }

  // ---------- the counters measure what they should ----------

  /** What a reading adds to the measure, from the previous reading alone. */
  function Gain(c: ClientSettings, first: bool, previous: int, n: int): nat {
    match c.counter
    case NoCounter => 0
    case Difference => Max(0, n - previous)
    case CumulatedNot100 => if n != 100 then 1 else 0
    case Cumulated =>
      if first then 0 else if c.dataType.Dword? then ToDword(n - previous) else Max(0, n - previous)
  }

  lemma MeasureGain(c: ClientSettings, rs: Log<int>, v: int)
    ensures Measure(c, Then(rs, v)) == Measure(c, rs) + Gain(c, rs.Empty?, Latest(0, rs), v)
  {
    var base := First(Then(rs, v));
    assert Variation(base, Then(rs, v)) == Variation(base, rs) + Max(0, v - Latest(base, rs));
  }

  lemma TotalGain(c: ClientSettings, h: History)
    requires !h.Empty?
    ensures Total(c, h) == Total(c, h.earlier) +
            if IsReading(h.last) then
              Gain(c, Readings(c, h.earlier).Empty?, Latest(0, Readings(c, h.earlier)),
                   Number(c.dataType, Counted(c, h.last)))
            else 0
  {
    if IsReading(h.last) {
      MeasureGain(c, Readings(c, h.earlier), Number(c.dataType, Counted(c, h.last)));
    }
  }

  lemma {:induction false} CurrentIsLatest(w: LongWidth, c: ClientSettings, h: History)
    requires c.Numeric() && !c.counter.NoCounter? && Legal(h)
    ensures Run(w, c, h).info.added
    ensures Number(c.dataType, Run(w, c, h).info.current) == Latest(0, Readings(c, h))
    ensures Readings(c, h).Empty? <==> h.Empty?
  {
    if !h.Empty? {
      CurrentIsLatest(w, c, h.earlier);
    }
  }

  lemma {:induction false} WindowBounds(c: ClientSettings, h: History)
    ensures 0 <= Window(c, h) <= Total(c, h)
  {
    if !h.Empty? {
      WindowBounds(c, h.earlier);
      TotalGain(c, h);
    }
  }

  lemma {:induction false} NothingReadWindow(c: ClientSettings, h: History)
    requires !ReadSinceAccept(h)
    ensures Window(c, h) == 0
  {
    if !h.Empty? && !h.last.Accepted? {
      NothingReadWindow(c, h.earlier);
    }
  }

  lemma ScaledPlus(c: ClientSettings, a: int, b: int)
    ensures c.Scaled(a + b) == c.Scaled(a) + c.Scaled(b)
    ensures c.Scaled(a - b) == c.Scaled(a) - c.Scaled(b)
    ensures c.Scaled(0) == 0
  {
  }

  lemma ScaledGrowth(c: ClientSettings, a: int, b: int, a0: int, b0: int)
    requires a - b == a0 - b0
    ensures c.Scaled(a) - c.Scaled(b) == c.Scaled(a0) - c.Scaled(b0)
  {
  }

  lemma ScaledOrder(c: ClientSettings, a: int, b: int)
    requires 0 <= a <= b
    ensures 0 <= c.Scaled(a) <= c.Scaled(b) && b <= c.Scaled(b)
  {
  }

  lemma ScaledCongruent(c: ClientSettings, a: int, b: int)
    requires Congruent(a, b)
    ensures Congruent(c.Scaled(a), c.Scaled(b))
  {
    var q := Quotient(a, b);
    CongruentBy(c.Scaled(a), c.Scaled(b), c.Scaled(q));
  }

  /** Scaling wraps like the C type of the reading. */
  lemma ComputedNumber(c: ClientSettings, d: ClientData)
    requires c.Numeric() && d.dataType == c.dataType
    ensures var r, n := Compute(c, d).0, Number(c.dataType, d);
            && r.dataType == c.dataType
            && Congruent(Number(c.dataType, r), c.Scaled(n))
            && (0 <= c.Scaled(n) <= (if c.dataType.Int? then INT_MAX else DWORD_MAX) ==>
                  Number(c.dataType, r) == c.Scaled(n))
  {
    CongruentSelf(Number(c.dataType, d));
  }

  lemma FetchedNumber(c: ClientSettings, info: CounterInfo, d: ClientData)
    requires c.Numeric() && !c.counter.NoCounter?
    ensures var r, v := Fetched(c, info, d).0, CounterValue(c, info);
            && r.dataType == c.dataType
            && Congruent(Number(c.dataType, r), v)
            && (0 <= v <= (if c.dataType.Int? then INT_MAX else DWORD_MAX) ==> Number(c.dataType, r) == v)
  {
  }

  lemma StoredNumber(w: LongWidth, c: ClientSettings, d: ClientData, slot: Slot)
    requires c.Numeric() && d.dataType == c.dataType
    ensures var s, n := SlotNumber(c.dataType, ToSlot(w, c, d, slot)), Number(c.dataType, d);
            && Congruent(s, n)
            && (0 <= n <= SlotMax(w, c) ==> s == n)
  {
    CongruentSelf(Number(c.dataType, d));
  }

  /** What a poll writes into the slot: the scaled counter value, wrapped. */
  lemma SurveyedNumber(w: LongWidth, c: ClientSettings, info: CounterInfo, slot: Slot, d: ClientData, scale: bool)
    requires c.Numeric() && !c.counter.NoCounter?
    ensures var (i, s) := Surveyed(w, c, info, slot, d, scale);
            var v := CounterValue(c, i);
            var goal := if scale then c.Scaled(v) else v;
            && Congruent(SlotNumber(c.dataType, s), goal)
            && (0 <= v && c.Scaled(v) <= SlotMax(w, c) ==> SlotNumber(c.dataType, s) == goal)
  {
    var i := AfterUpdate(w, c, info, d).0;
    var value := Fetched(c, i, d).0;
    var v, n := CounterValue(c, i), Number(c.dataType, value);
    var scaled := if scale then Compute(c, value).0 else value;
    var m := Number(c.dataType, scaled);
    var goal := if scale then c.Scaled(v) else v;
    FetchedNumber(c, i, d);
    ComputedNumber(c, value);
    StoredNumber(w, c, scaled, slot);
    ScaledCongruent(c, n, v);
    if scale {
      CongruentTrans(m, c.Scaled(n), goal);
    }
    CongruentTrans(SlotNumber(c.dataType, ToSlot(w, c, scaled, slot)), m, goal);
    if 0 <= v {
      ScaledOrder(c, v, v);
    }
  }

  lemma UpdateAddsGain(w: LongWidth, c: ClientSettings, info: CounterInfo, d: ClientData)
    requires Countable(c) && info.added
    requires CounterValue(c, info) >= if c.counter.Cumulated? then -1 else 0
    requires var gain := Gain(c, info.cumulated == -1, Number(c.dataType, info.current), Number(c.dataType, d));
             Max(0, CounterValue(c, info)) + gain < w.Half() && (c.dataType.Int? ==> gain <= INT_MAX)
    ensures CounterValue(c, AfterUpdate(w, c, info, d).0) ==
            Max(0, CounterValue(c, info)) +
            Gain(c, info.cumulated == -1, Number(c.dataType, info.current), Number(c.dataType, d))
  {
  }

  /** What the last reading of a history did. */
  lemma AfterReading(w: LongWidth, c: ClientSettings, h: History)
    requires Legal(h) && !h.Empty? && IsReading(h.last) && c.Numeric() && !c.counter.NoCounter?
    ensures var s0, d := Run(w, c, h.earlier), Counted(c, h.last);
            && s0.info.added
            && Run(w, c, h).info == AfterUpdate(w, c, s0.info, d).0
            && (Run(w, c, h).info, Run(w, c, h).slot) == Surveyed(w, c, s0.info, s0.slot, d, h.last.Read?)
            && Window(c, h) == Window(c, h.earlier) +
                 Gain(c, h.earlier.Empty?, Number(c.dataType, s0.info.current), Number(c.dataType, d))
  {
    CurrentIsLatest(w, c, h.earlier);
    TotalGain(c, h);
  }

  /** A counter that does not overflow is the window. */
  lemma {:induction false} ValueIsWindow(w: LongWidth, c: ClientSettings, h: History)
    requires Countable(c) && Legal(h) && AccumulatorFits(w, c, h)
    ensures Value(w, c, h) == if h.Empty? && c.counter.Cumulated? then -1 else Window(c, h)
  {
    if !h.Empty? {
      ValueIsWindow(w, c, h.earlier);
      if IsReading(h.last) {
        AfterReading(w, c, h);
        WindowBounds(c, h.earlier);
        UpdateAddsGain(w, c, Run(w, c, h.earlier).info, Counted(c, h.last));
      }
    }
  }

  /** What fits the slot fits the counter. */
  lemma {:induction false} SlotIsNarrower(w: LongWidth, c: ClientSettings, h: History)
    requires Countable(c) && WindowsFit(w, c, h)
    ensures AccumulatorFits(w, c, h)
  {
    if !h.Empty? {
      SlotIsNarrower(w, c, h.earlier);
      WindowBounds(c, h);
      WindowBounds(c, h.earlier);
      TotalGain(c, h);
      ScaledOrder(c, Window(c, h), Window(c, h));
    }
  }

  /** Within range a fresh slot is the scaled window. */
  lemma {:induction false} CounterIsWindow(w: LongWidth, c: ClientSettings, h: History)
    requires Countable(c) && Legal(h) && WindowsFit(w, c, h)
    ensures Value(w, c, h) == if h.Empty? && c.counter.Cumulated? then -1 else Window(c, h)
    ensures ReadSinceAccept(h) ==> Published(w, c, h) == if Unscaled(c, h) then Window(c, h) else c.Scaled(Window(c, h))
    ensures Published(w, c, h) >= 0
  {
    SlotIsNarrower(w, c, h);
    ValueIsWindow(w, c, h);
    if !h.Empty? {
      CounterIsWindow(w, c, h.earlier);
      if IsReading(h.last) {
        ReadingFits(w, c, h);
      }
    }
  }

  lemma ReadingFits(w: LongWidth, c: ClientSettings, h: History)
    requires Countable(c) && Legal(h) && WindowsFit(w, c, h) && !h.Empty? && IsReading(h.last)
    requires Value(w, c, h) == Window(c, h)
    ensures Published(w, c, h) == (if Unscaled(c, h) then Window(c, h) else c.Scaled(Window(c, h))) >= 0
  {
    var s0, d := Run(w, c, h.earlier), Counted(c, h.last);
    AfterReading(w, c, h);
    WindowBounds(c, h);
    ScaledOrder(c, Window(c, h), Window(c, h));
    SurveyedNumber(w, c, s0.info, s0.slot, d, h.last.Read?);
    if h.last.InitMissed? {
      ZeroReading(c, h);
    }
  }

  /** The zero reading of a failed INIT poll adds something to a "not 100" counter only. */
  lemma ZeroReading(c: ClientSettings, h: History)
    requires Countable(c) && Legal(h) && !h.Empty? && h.last.InitMissed?
    ensures Window(c, h) == if c.counter.CumulatedNot100? then 1 else 0
    ensures c.Scaled(0) == 0
  {
    TotalGain(c, h);
  }

  // ---------- conservation ----------

  /** How the sums of a run grow with its last event. */
  lemma SumsStep(w: LongWidth, c: ClientSettings, h: History)
    requires !h.Empty?
    ensures !h.last.Accepted? ==>
              && AcceptedSum(w, c, h) == AcceptedSum(w, c, h.earlier) && StaleSum(w, c, h) == StaleSum(w, c, h.earlier)
              && c.Scaled(Window(c, h)) - c.Scaled(Total(c, h)) ==
                 c.Scaled(Window(c, h.earlier)) - c.Scaled(Total(c, h.earlier))
    ensures h.last.Accepted? ==>
              && AcceptedSum(w, c, h) == AcceptedSum(w, c, h.earlier) + Published(w, c, h.earlier)
              && c.Scaled(Window(c, h)) == 0 && Total(c, h) == Total(c, h.earlier)
    ensures h.last.Accepted? && !ReadSinceAccept(h.earlier) ==> c.Scaled(Window(c, h.earlier)) == 0
  {
    if !h.last.Accepted? {
      ScaledGrowth(c, Window(c, h), Total(c, h), Window(c, h.earlier), Total(c, h.earlier));
    } else if !ReadSinceAccept(h.earlier) {
      NothingReadWindow(c, h.earlier);
    }
  }

  /** Accounting for every run whose windows fit: what was published and what is still in the counter
      is what the readings amount to, plus what stale sends published twice, less what unscaled ones fell short of. */
  lemma {:induction false} AcceptedPlusWindow(w: LongWidth, c: ClientSettings, h: History)
    requires Countable(c) && Legal(h) && WindowsFit(w, c, h)
    ensures AcceptedSum(w, c, h) + c.Scaled(Window(c, h)) == c.Scaled(Total(c, h)) + StaleSum(w, c, h) - Shortfall(c, h)
  {
    if !h.Empty? {
      SumsStep(w, c, h);
      AcceptedPlusWindow(w, c, h.earlier);
      CounterIsWindow(w, c, h.earlier);
    }
  }

  lemma {:induction false} StaleSumZero(w: LongWidth, c: ClientSettings, h: History)
    requires Countable(c) && Legal(h) && WindowsFit(w, c, h)
    ensures StaleSum(w, c, h) >= 0
    ensures StaleSum(w, c, h) == 0 <==> AcceptsFresh(w, c, h)
  {
    if !h.Empty? {
      StaleSumZero(w, c, h.earlier);
      CounterIsWindow(w, c, h.earlier);
    }
  }

  /** The zero reading of the failed INIT poll is all there is to count. */
  lemma {:induction false} UnscaledWindow(c: ClientSettings, h: History)
    requires Legal(h) && Unscaled(c, h) && c.Numeric() && ReadSinceAccept(h)
    ensures Window(c, h) == 1
  {
    TotalGain(c, h);
    if !h.last.InitMissed? {
      UnscaledWindow(c, h.earlier);
    }
  }

  lemma {:induction false} ShortfallZero(c: ClientSettings, h: History)
    requires Countable(c) && Legal(h)
    ensures Shortfall(c, h) >= 0
    ensures Shortfall(c, h) == 0 <==> AcceptsScaled(c, h)
  {
    if !h.Empty? {
      ShortfallZero(c, h.earlier);
      if ReadSinceAccept(h.earlier) && Unscaled(c, h.earlier) {
        UnscaledWindow(c, h.earlier);
      }
    }
  }

  /** Conservation, exactly: it holds if and only if every accepted send found the client
      polled since the previous one, or its slot at 0. */
  lemma Conservation(w: LongWidth, c: ClientSettings, h: History)
    requires Countable(c) && Legal(h) && AcceptsScaled(c, h) && WindowsFit(w, c, h) && !h.Empty?
    ensures Report(w, c, h) == c.Scaled(Total(c, h)) <==> AcceptsFresh(w, c, h)
  {
    AcceptedPlusWindow(w, c, h);
    StaleSumZero(w, c, h);
    ShortfallZero(c, h);
    CounterIsWindow(w, c, h);
  }

  /** And of runs with fresh sends: it holds if and only if no accepted send carried an unmultiplied count. */
  lemma ConservationOfFreshRuns(w: LongWidth, c: ClientSettings, h: History)
    requires Countable(c) && Legal(h) && AcceptsFresh(w, c, h) && WindowsFit(w, c, h) && !h.Empty?
    ensures Report(w, c, h) == c.Scaled(Total(c, h)) <==> AcceptsScaled(c, h)
  {
    AcceptedPlusWindow(w, c, h);
    StaleSumZero(w, c, h);
    ShortfallZero(c, h);
    CounterIsWindow(w, c, h);
  }

  /** Why freshness is needed: two accepted sends around one poll publish its increase twice. */
  lemma StaleSendCountsTwice(w: LongWidth, c: ClientSettings, d: ClientData)
    requires c.counter.Difference? && c.dataType.Int? && c.computation.NoComputation? && d.dataInt == 5
    ensures var h := Then(Then(Then(Then(Empty, Read(d)), Accepted), Missed), Accepted);
            Legal(h) && WindowsFit(w, c, h) && !AcceptsFresh(w, c, h) && Total(c, h) == 5 && AcceptedSum(w, c, h) == 10
  {
    var h1 := Then(Empty, Read(d));
    var h2 := Then(h1, Accepted);
    var h3 := Then(h2, Missed);
    assert Readings(c, h1) == Then(Empty, 5);
    assert Readings(c, h2) == Readings(c, h1);
    assert Readings(c, h3) == Readings(c, h2);
    assert Total(c, h1) == 5;
    assert Window(c, h2) == 0;
    assert Window(c, h3) == 0;
    assert Legal(h1) && Legal(h2);
    assert WindowsFit(w, c, Empty) && WindowsFit(w, c, h1);
    assert WindowsFit(w, c, h2) && WindowsFit(w, c, h3);
    assert Run(w, c, h2).slot == Run(w, c, h3).slot == Run(w, c, h1).slot;
    CounterIsWindow(w, c, h1);
    assert AcceptedSum(w, c, h1) == 0 && Published(w, c, h1) == 5;
    assert AcceptedSum(w, c, h2) == AcceptedSum(w, c, h3) == 5;
    assert !ReadSinceAccept(h2) && !ReadSinceAccept(h3) && Published(w, c, h3) == 5;
  }

  /** What a second accepted send without a poll in between does. */
  lemma SentAgain(w: LongWidth, c: ClientSettings, h: History)
    requires !h.Empty? && h.last.Accepted? && Legal(h)
    ensures var again := Then(h, Accepted);
            && Legal(again) && Total(c, again) == Total(c, h)
            && AcceptedSum(w, c, again) == AcceptedSum(w, c, h) + Published(w, c, h)
            && (AcceptsFresh(w, c, again) <==> AcceptsFresh(w, c, h) && Published(w, c, h) == 0)
  {
    assert !ReadSinceAccept(h);
  }

  /** A first reading of a "difference" client and the accepted send after it: all is well. */
  lemma SentOnce(w: LongWidth, c: ClientSettings, d: ClientData)
    requires c.counter.Difference? && c.dataType.Int? && c.computation.NoComputation? && d.dataInt == 5
    ensures var h := Then(Then(Empty, Read(d)), Accepted);
            && Legal(h) && AcceptsFresh(w, c, h) && WindowsFit(w, c, h)
            && Readings(c, h) == Then(Empty, 5) && Total(c, h) == 5
            && AcceptedSum(w, c, h) == 5 && Published(w, c, h) == 5
  {
    var h1 := Then(Empty, Read(d));
    var h := Then(h1, Accepted);
    assert Legal(h1) by { assert IsReading(Read(d)) && Legal(Empty); }
    assert Readings(c, h1) == Then(Empty, 5) && Readings(c, h) == Readings(c, h1);
    assert Variation(0, Then(Empty, 5)) == 5;
    assert Window(c, h1) == 5 && Window(c, h) == 0;
    assert WindowsFit(w, c, Empty) && WindowsFit(w, c, h1);
    CounterIsWindow(w, c, h1);
    assert ReadSinceAccept(h1) && AcceptsFresh(w, c, h1);
    assert AcceptedSum(w, c, h1) == 0;
    assert Run(w, c, h).slot == Run(w, c, h1).slot;
  }

  /** A second reading and its accepted send. */
  lemma SentTwice(w: LongWidth, c: ClientSettings, d: ClientData, d': ClientData)
    requires c.counter.Difference? && c.dataType.Int? && c.computation.NoComputation?
    requires d.dataInt == 5 && d'.dataInt == 10
    ensures var h := Then(Then(Then(Then(Empty, Read(d)), Accepted), Read(d')), Accepted);
            && Legal(h) && AcceptsFresh(w, c, h) && Total(c, h) == 10
            && AcceptedSum(w, c, h) == 10 && Published(w, c, h) == 5
  {
    var h2 := Then(Then(Empty, Read(d)), Accepted);
    var h3 := Then(h2, Read(d'));
    var h := Then(h3, Accepted);
    SentOnce(w, c, d);
    assert Readings(c, h3) == Then(Then(Empty, 5), 10) && Readings(c, h) == Readings(c, h3);
    assert Variation(0, Then(Then(Empty, 5), 10)) == 10;
    assert Window(c, h2) == 0;
    assert Window(c, h3) == 5;
    CounterIsWindow(w, c, h3);
    assert ReadSinceAccept(h3) && AcceptsFresh(w, c, h3);
    assert AcceptedSum(w, c, h3) == 5;
    assert Run(w, c, h).slot == Run(w, c, h3).slot;
  }

  /** Why "cumulated_not_100" needs AcceptsScaled: after a failed INIT poll the slot holds the unscaled count. */
  lemma InitMissSkipsMultiplier(w: LongWidth, c: ClientSettings)
    requires c.counter.CumulatedNot100? && c.dataType.Int? && c.computation.Mul60?
    ensures var h := Then(Then(Empty, InitMissed), Accepted);
            && Legal(h) && AcceptsFresh(w, c, h) && !AcceptsScaled(c, h)
            && c.Scaled(Total(c, h)) == 60 && AcceptedSum(w, c, h) == 1
  {
    var h1 := Then(Empty, InitMissed);
    TotalGain(c, h1);
    TotalGain(c, Then(h1, Accepted));
    assert Run(w, c, h1) == Step(w, c, Run(w, c, Empty), InitMissed);
    assert Published(w, c, h1) == 1;
    assert AcceptedSum(w, c, h1) == 0;
  }

  // ---------- conservation modulo 2^32 ----------

  lemma UpdateAddsGainModulo(w: LongWidth, c: ClientSettings, info: CounterInfo, d: ClientData)
    requires Countable(c) && info.added
    ensures Congruent(CounterValue(c, AfterUpdate(w, c, info, d).0),
                      if c.counter.Cumulated? && info.cumulated == -1 then 0
                      else CounterValue(c, info) +
                           Gain(c, false, Number(c.dataType, info.current), Number(c.dataType, d)))
  {
    var v, v' := CounterValue(c, info), CounterValue(c, AfterUpdate(w, c, info, d).0);
    var gain := Gain(c, false, Number(c.dataType, info.current), Number(c.dataType, d));
    CongruentSelf(v);
    CongruentSelf(0);
    if c.counter.Difference? || (c.counter.Cumulated? && info.cumulated != -1) {
      var step := if c.counter.Difference? then Increase(w, c.dataType, info.current, d)
                  else CumulatedStep(w, c.dataType, info.current, d);
      StepModulo(w, c, info.current, d);
      CongruentPlus(v, v, step, gain);
      if step != 0 {
        CongruentTrans(v', v + step, v + gain);
      }
    }
  }

  lemma StepModulo(w: LongWidth, c: ClientSettings, before: ClientData, after: ClientData)
    requires Countable(c)
    ensures var gain := Gain(c, false, Number(c.dataType, before), Number(c.dataType, after));
            && (c.counter.Difference? ==> Congruent(Increase(w, c.dataType, before, after), gain))
            && (c.counter.Cumulated? ==> Congruent(CumulatedStep(w, c.dataType, before, after), gain))
  {
    CongruentSelf(ToDword(after.dataDword - before.dataDword));
    IncreaseModulo(w, c.dataType, before, after);
  }

  lemma IncreaseModulo(w: LongWidth, t: DataType, before: ClientData, after: ClientData)
    requires t.Int? || t.Dword?
    ensures Congruent(Increase(w, t, before, after), Max(0, Number(t, after) - Number(t, before)))
  {
    CongruentSelf(0);
    if Number(t, after) > Number(t, before) && t.Int? {
      var step := after.dataInt - before.dataInt;
      CongruentTrans(Increase(w, t, before, after), ToInt(step), step);
    }
  }

  /** What the last reading does to the counter, whatever overflows. */
  lemma ReadingValue(w: LongWidth, c: ClientSettings, h: History)
    requires Countable(c) && Legal(h) && !h.Empty? && IsReading(h.last)
    ensures var swallowed := c.counter.Cumulated? && Value(w, c, h.earlier) == -1;
            Congruent(Value(w, c, h),
                      if swallowed then 0 else Value(w, c, h.earlier) + (Window(c, h) - Window(c, h.earlier)))
  {
    AfterReading(w, c, h);
    UpdateAddsGainModulo(w, c, Run(w, c, h.earlier).info, Counted(c, h.last));
  }

  /** The counter counts: at every point of the history it is the window modulo 2^32. */
  ghost predicate AlwaysCounts(w: LongWidth, c: ClientSettings, h: History) {
    h.Empty? || (AlwaysCounts(w, c, h.earlier) && Congruent(Value(w, c, h), Window(c, h)))
  }

  /** Exactly when it does: overflow never matters, except that it may take a "cumulated" counter to -1. */
  lemma {:induction false} CountsUnlessSwallowed(w: LongWidth, c: ClientSettings, h: History)
    requires Countable(c) && Legal(h)
    ensures AlwaysCounts(w, c, h) <==> NothingSwallowed(w, c, h)
  {
    if !h.Empty? {
      CountsUnlessSwallowed(w, c, h.earlier);
      if IsReading(h.last) {
        if AlwaysCounts(w, c, h.earlier) {
          ReadingCounts(w, c, h);
        }
      } else {
        CongruentSelf(0);
      }
    }
  }

  lemma ReadingCounts(w: LongWidth, c: ClientSettings, h: History)
    requires Countable(c) && Legal(h) && !h.Empty? && IsReading(h.last)
    requires h.earlier.Empty? || Congruent(Value(w, c, h.earlier), Window(c, h.earlier))
    ensures Congruent(Value(w, c, h), Window(c, h)) <==>
            (c.counter.Cumulated? && !h.earlier.Empty? && Value(w, c, h.earlier) == -1 ==>
               Total(c, h) - Total(c, h.earlier) == 1)
  {
    var v0, v, w0, w1 := Value(w, c, h.earlier), Value(w, c, h), Window(c, h.earlier), Window(c, h);
    ReadingValue(w, c, h);
    GainBounds(c, h);
    if !(c.counter.Cumulated? && v0 == -1) {
      if h.earlier.Empty? {
        CongruentSelf(0);
      }
      CongruentSelf(w1 - w0);
      CongruentPlus(v0, w0, w1 - w0, w1 - w0);
      CongruentTrans(v, v0 + (w1 - w0), w1);
    } else if h.earlier.Empty? {
      assert w1 == 0 by { AfterReading(w, c, h); }
    } else {
      AfterMinusOne(v, w0, w1);
    }
  }

  lemma GainBounds(c: ClientSettings, h: History)
    requires Countable(c) && Legal(h) && !h.Empty? && IsReading(h.last)
    ensures Total(c, h) - Total(c, h.earlier) == Window(c, h) - Window(c, h.earlier)
    ensures 0 <= Window(c, h) - Window(c, h.earlier) < TWO32
  {
    TotalGain(c, h);
    LatestBounds(c, h.earlier);
  }

  lemma {:induction false} LatestBounds(c: ClientSettings, h: History)
    requires c.Numeric()
    ensures (if c.dataType.Int? then -TWO31 else 0) <= Latest(0, Readings(c, h))
    ensures Latest(0, Readings(c, h)) <= (if c.dataType.Int? then INT_MAX else DWORD_MAX)
  {
    if !h.Empty? {
      LatestBounds(c, h.earlier);
    }
  }

  lemma AfterMinusOne(v: int, w0: int, w1: int)
    requires Congruent(-1, w0) && Congruent(v, 0) && 0 <= w1 - w0 < TWO32
    ensures Congruent(v, w1) <==> w1 - w0 == 1
  {
    var p := Quotient(-1, w0);
    var q := Quotient(v, 0);
    if w1 - w0 == 1 {
      CongruentBy(v, w1, q + p);
    }
    if Congruent(v, w1) {
      var r := Quotient(v, w1);
      CongruentBy(w1 - w0, 1, q + p - r);
      CongruentEqual(w1 - w0, 1);
    }
  }

  /** The counter is the window and a fresh slot the scaled window, whatever overflows on the way. */
  lemma {:induction false} CounterIsWindowModulo(w: LongWidth, c: ClientSettings, h: History)
    requires Countable(c) && Legal(h) && NothingSwallowed(w, c, h) && !h.Empty?
    ensures Congruent(Value(w, c, h), Window(c, h))
    ensures ReadSinceAccept(h) ==>
              Congruent(Published(w, c, h), if Unscaled(c, h) then Window(c, h) else c.Scaled(Window(c, h)))
  {
    CountsUnlessSwallowed(w, c, h);
    if IsReading(h.last) {
      FreshSlotModulo(w, c, h);
    } else if !h.last.Accepted? {
      CounterIsWindowModulo(w, c, h.earlier);
    }
  }

  lemma FreshSlotModulo(w: LongWidth, c: ClientSettings, h: History)
    requires Countable(c) && Legal(h) && !h.Empty? && IsReading(h.last) && Congruent(Value(w, c, h), Window(c, h))
    ensures Congruent(Published(w, c, h), if Unscaled(c, h) then Window(c, h) else c.Scaled(Window(c, h)))
  {
    var s0, d, v := Run(w, c, h.earlier), Counted(c, h.last), Value(w, c, h);
    AfterReading(w, c, h);
    SurveyedNumber(w, c, s0.info, s0.slot, d, h.last.Read?);
    ScaledCongruent(c, v, Window(c, h));
    if h.last.Read? {
      CongruentTrans(Published(w, c, h), c.Scaled(v), c.Scaled(Window(c, h)));
    } else {
      CongruentTrans(Published(w, c, h), v, Window(c, h));
      ZeroReading(c, h);
    }
  }

  /** The accounting of AcceptedPlusWindow, modulo 2^32, without any range. */
  lemma {:induction false} AcceptedPlusWindowModulo(w: LongWidth, c: ClientSettings, h: History)
    requires Countable(c) && Legal(h) && NothingSwallowed(w, c, h)
    ensures Congruent(AcceptedSum(w, c, h) + c.Scaled(Window(c, h)),
                      c.Scaled(Total(c, h)) + StaleSum(w, c, h) - Shortfall(c, h))
  {
    if h.Empty? {
      ScaledPlus(c, 0, 0);
      CongruentSelf(0);
    } else {
      SumsStep(w, c, h);
      AcceptedPlusWindowModulo(w, c, h.earlier);
      var h0 := h.earlier;
      var sum0 := AcceptedSum(w, c, h0) + c.Scaled(Window(c, h0));
      var due0 := c.Scaled(Total(c, h0)) + StaleSum(w, c, h0) - Shortfall(c, h0);
      var sent, scaled := Published(w, c, h0), c.Scaled(Window(c, h0));
      if h.last.Accepted? && ReadSinceAccept(h0) {
        CounterIsWindowModulo(w, c, h0);
        var goal := if Unscaled(c, h0) then Window(c, h0) else scaled;
        CongruentSelf(scaled);
        CongruentPlus(sum0, due0, sent, goal);
        CongruentPlus(sum0 + sent, due0 + goal, scaled, scaled);
      } else {
        var d := AcceptedSum(w, c, h) + c.Scaled(Window(c, h)) - sum0;
        CongruentSelf(d);
        CongruentPlus(sum0, due0, d, d);
      }
    }
  }

  lemma {:induction false} NoStaleSum(w: LongWidth, c: ClientSettings, h: History)
    requires AcceptsFresh(w, c, h)
    ensures StaleSum(w, c, h) == 0
  {
    if !h.Empty? {
      NoStaleSum(w, c, h.earlier);
    }
  }

  /** The report modulo 2^32, for every counter and without any range: what the readings amount to,
      plus stale sends, less unmultiplied ones. */
  lemma ReportModulo(w: LongWidth, c: ClientSettings, h: History)
    requires Countable(c) && Legal(h) && NothingSwallowed(w, c, h) && !h.Empty?
    ensures Congruent(Report(w, c, h), c.Scaled(Total(c, h)) + StaleSum(w, c, h) - Shortfall(c, h))
  {
    var a, v, k := AcceptedSum(w, c, h), c.Scaled(Value(w, c, h)), c.Scaled(Window(c, h));
    AcceptedPlusWindowModulo(w, c, h);
    CounterIsWindowModulo(w, c, h);
    ScaledCongruent(c, Value(w, c, h), Window(c, h));
    CongruentSelf(a);
    CongruentPlus(a, a, v, k);
    CongruentTrans(a + v, a + k, c.Scaled(Total(c, h)) + StaleSum(w, c, h) - Shortfall(c, h));
  }

  /** Conservation modulo 2^32 needs no range at all. */
  lemma ConservationModulo(w: LongWidth, c: ClientSettings, h: History)
    requires Countable(c) && Legal(h) && NothingSwallowed(w, c, h) && !h.Empty?
    requires AcceptsFresh(w, c, h) && AcceptsScaled(c, h)
    ensures Congruent(Report(w, c, h), c.Scaled(Total(c, h)))
  {
    ReportModulo(w, c, h);
    NoStaleSum(w, c, h);
    ShortfallZero(c, h);
  }

  /** A counter that does not overflow swallows nothing; the other kinds never do. */
  lemma {:induction false} FitsSwallowsNothing(w: LongWidth, c: ClientSettings, h: History)
    requires Countable(c) && Legal(h) && (c.counter.Cumulated? ==> AccumulatorFits(w, c, h))
    ensures NothingSwallowed(w, c, h)
  {
    if !h.Empty? {
      FitsSwallowsNothing(w, c, h.earlier);
      if c.counter.Cumulated? {
        ValueIsWindow(w, c, h.earlier);
        WindowBounds(c, h.earlier);
      }
    }
  }

  // ---------- lossy polling ----------

  /** `lossy` is `h` with some polls failing instead. */
  predicate Lossier(lossy: History, h: History) {
    if h.Empty? || lossy.Empty? then h == lossy
    else
      && Lossier(lossy.earlier, h.earlier)
      && (lossy.last == h.last || (h.last.Read? && lossy.last == if h.earlier.Empty? then InitMissed else Missed))
  }

  lemma {:induction false} LossierThanItself(h: History)
    ensures Lossier(h, h)
  {
    if !h.Empty? {
      LossierThanItself(h.earlier);
    }
  }

  /** The variation a next reading x would complete. */
  function Completed(rs: Log<int>, x: int): int {
    Variation(0, rs) + Max(0, x - Latest(0, rs))
  }

  lemma {:induction false} LossyCompleted(c: ClientSettings, lossy: History, h: History, x: int)
    requires Lossier(lossy, h)
    ensures Completed(Readings(c, lossy), x) <= Completed(Readings(c, h), x)
  {
    if !h.Empty? && !lossy.Empty? {
      LossyCompleted(c, lossy.earlier, h.earlier, x);
      if IsReading(h.last) {
        LossyCompleted(c, lossy.earlier, h.earlier, Number(c.dataType, Counted(c, h.last)));
      }
    }
  }

  lemma {:induction false} FitsAsAWhole(w: LongWidth, c: ClientSettings, h: History)
    requires c.Scaled(Total(c, h)) <= SlotMax(w, c)
    ensures WindowsFit(w, c, h)
  {
    if !h.Empty? {
      TotalGain(c, h);
      ScaledOrder(c, Total(c, h.earlier), Total(c, h));
      FitsAsAWhole(w, c, h.earlier);
      WindowBounds(c, h);
      ScaledOrder(c, Window(c, h), Total(c, h));
    }
  }

  lemma {:induction false} AlwaysScaled(c: ClientSettings, h: History)
    requires !c.counter.CumulatedNot100?
    ensures AcceptsScaled(c, h)
  {
    if !h.Empty? {
      AlwaysScaled(c, h.earlier);
    }
  }

  /** Losing polls never raises what the readings of a "difference" client amount to. */
  lemma LossyTotal(c: ClientSettings, lossy: History, h: History)
    requires c.counter.Difference? && Lossier(lossy, h)
    ensures Total(c, lossy) <= Total(c, h)
  {
    var a, b := Latest(0, Readings(c, lossy)), Latest(0, Readings(c, h));
    LossyCompleted(c, lossy, h, if a < b then a else b);
  }

  /** Nor does it raise what is reported by more than stale sends publish again: exactly when it does not at all. */
  lemma LossyPollsReportLess(w: LongWidth, c: ClientSettings, lossy: History, h: History)
    requires c.counter.Difference? && c.Numeric() && Lossier(lossy, h) && Legal(lossy) && Legal(h) && !h.Empty?
    requires c.Scaled(Total(c, h)) <= SlotMax(w, c)
    ensures Report(w, c, lossy) <= Report(w, c, h) + StaleSum(w, c, lossy)
    ensures Report(w, c, lossy) <= Report(w, c, h) <==>
            c.Scaled(Total(c, lossy)) + StaleSum(w, c, lossy) <= c.Scaled(Total(c, h)) + StaleSum(w, c, h)
    ensures AcceptsFresh(w, c, lossy) ==> Report(w, c, lossy) <= Report(w, c, h)
  {
    LossyTotal(c, lossy, h);
    ScaledOrder(c, Total(c, lossy), Total(c, h));
    DifferenceReport(w, c, h);
    DifferenceReport(w, c, lossy);
  }

  lemma DifferenceReport(w: LongWidth, c: ClientSettings, h: History)
    requires c.counter.Difference? && c.Numeric() && Legal(h) && !h.Empty? && c.Scaled(Total(c, h)) <= SlotMax(w, c)
    ensures Report(w, c, h) == c.Scaled(Total(c, h)) + StaleSum(w, c, h)
    ensures StaleSum(w, c, h) >= 0 && (StaleSum(w, c, h) == 0 <==> AcceptsFresh(w, c, h))
  {
    FitsAsAWhole(w, c, h);
    AcceptedPlusWindow(w, c, h);
    AlwaysScaled(c, h);
    ShortfallZero(c, h);
    StaleSumZero(w, c, h);
    CounterIsWindow(w, c, h);
  }

  /** Why stale sends must be counted: of the readings 5 and 5 with an accepted send after each 5 is reported;
      if the second poll is lost, 10. */
  lemma LostPollReportsMore(w: LongWidth, c: ClientSettings, d: ClientData)
    requires c.counter.Difference? && c.dataType.Int? && c.computation.NoComputation? && d.dataInt == 5
    ensures var h := Then(Then(Then(Then(Empty, Read(d)), Accepted), Read(d)), Accepted);
            var lossy := Then(Then(Then(Then(Empty, Read(d)), Accepted), Missed), Accepted);
            && Lossier(lossy, h) && Legal(h) && Legal(lossy) && AcceptsFresh(w, c, h)
            && Report(w, c, h) == 5 && Report(w, c, lossy) == 10
  {
    var h1 := Then(Empty, Read(d));
    var h2 := Then(h1, Accepted);
    var h3 := Then(h2, Read(d));
    var h := Then(h3, Accepted);
    var lossy := Then(Then(h2, Missed), Accepted);
    assert Legal(h1) && Legal(h2) && Legal(h3) by { assert IsReading(Read(d)) && Legal(Empty); }
    LossierThanItself(h2);
    assert Lossier(Then(h2, Missed), h3);
    assert Readings(c, h1) == Then(Empty, 5);
    assert Readings(c, h2) == Then(Empty, 5);
    assert Readings(c, h3) == Then(Then(Empty, 5), 5);
    assert Readings(c, h) == Readings(c, h3);
    assert Variation(0, Readings(c, h1)) == 5;
    assert Total(c, h) == 5;
    assert AcceptsFresh(w, c, h2) && AcceptsFresh(w, c, h3) && ReadSinceAccept(h3);
    DifferenceReport(w, c, h);
    StaleSendCountsTwice(w, c, d);
    DifferenceReport(w, c, lossy);
    FitsAsAWhole(w, c, lossy);
    CounterIsWindow(w, c, lossy);
  }

  predicate NonDecreasing(base: int, rs: Log<int>) {
    rs.Empty? || (NonDecreasing(base, rs.earlier) && Latest(base, rs.earlier) <= rs.last)
  }

  lemma {:induction false} MeterVariation(base: int, rs: Log<int>)
    requires NonDecreasing(base, rs)
    ensures Variation(base, rs) == Latest(base, rs) - base
  {
    if !rs.Empty? {
      MeterVariation(base, rs.earlier);
    }
  }

  /** On a meter that never runs backwards the report is the last successful reading, whichever polls failed
      before it, plus what stale sends published again. */
  lemma MeterReportsLastReading(w: LongWidth, c: ClientSettings, h: History)
    requires c.counter.Difference? && c.Numeric() && Legal(h) && !h.Empty?
    requires NonDecreasing(0, Readings(c, h)) && c.Scaled(Latest(0, Readings(c, h))) <= SlotMax(w, c)
    ensures Report(w, c, h) == c.Scaled(Latest(0, Readings(c, h))) + StaleSum(w, c, h)
    ensures Report(w, c, h) == c.Scaled(Latest(0, Readings(c, h))) <==> AcceptsFresh(w, c, h)
  {
    MeterVariation(0, Readings(c, h));
    DifferenceReport(w, c, h);
  }

  // ---------- clients whose readings are published as they are ----------

  /** The latest reading of a history, and whether it is scaled. */
  function LatestReading(c: ClientSettings, h: History): Option<(ClientData, bool)> {
    if h.Empty? then None
    else if IsReading(h.last) then Some((Counted(c, h.last), h.last.Read?))
    else LatestReading(c, h.earlier)
  }

  /** A number as it is published: multiplied, if it was really read. */
  function Goal(c: ClientSettings, n: int, scale: bool): int {
    if scale then c.Scaled(n) else n
  }

  /** The slot publishes a reading under the client's name, numbers multiplied by the client's factor. */
  ghost predicate Shows(w: LongWidth, c: ClientSettings, s: Slot, d: ClientData, scale: bool) {
    && s.alias == Some(c.name)
    && match d.dataType
       case Bool => s.slotType == TsBool && s.boolData == d.dataBool
       case Int => s.slotType == TsInt && Congruent(s.intData, Goal(c, d.dataInt, scale))
       case Dword => s.slotType == TsLint && Congruent(s.longData, Goal(c, d.dataDword, scale))
       case Double =>
         s.slotType == TsDouble && s.doubleData == if scale then d.dataDouble * c.Factor() else d.dataDouble
       case Time => s.slotType == TsLint && s.longData == w.ToLong(d.dataTime)
       case Enum => s.slotType == TsLint && s.longData == d.dataEnum
       case Char => s.slotType == TsChar && s.charData == d.dataChar
  }

  /** The integer and the real multiplier of a client are the same number. */
  lemma ScaledByFactor(c: ClientSettings, x: int)
    ensures c.Scaled(x) as real == x as real * c.Factor()
  {
  }

  /** Numbers published by way of `int`, or of DWORD and `long`, are right modulo 2^32. */
  lemma Narrowed(w: LongWidth, x: int)
    ensures Congruent(ToInt(x), x) && Congruent(w.ToLong(ToDword(x)), x)
  {
    CongruentTrans(w.ToLong(ToDword(x)), ToDword(x), x);
  }

  /** Where a reading of an INT or DWORD client ends up. */
  function Shown(w: LongWidth, t: DataType, x: int): int {
    if t.Int? then ToInt(x) else w.ToLong(ToDword(x))
  }

  lemma SurveyedNumberShows(w: LongWidth, c: ClientSettings, info: CounterInfo, slot: Slot, d: ClientData, scale: bool)
    requires !Countable(c) && info.added && (d.dataType.Int? || d.dataType.Dword?)
    ensures var s, n := Surveyed(w, c, info, slot, d, scale).1, Number(d.dataType, d);
            && s.alias == Some(c.name) && s.slotType == (if d.dataType.Int? then TsInt else TsLint)
            && SlotNumber(d.dataType, s) == Shown(w, d.dataType, Goal(c, n, scale))
  {
  }

  lemma NumberShows(w: LongWidth, c: ClientSettings, s: Slot, d: ClientData, scale: bool)
    requires d.dataType.Int? || d.dataType.Dword?
    requires s.alias == Some(c.name) && s.slotType == (if d.dataType.Int? then TsInt else TsLint)
    requires SlotNumber(d.dataType, s) == Shown(w, d.dataType, Goal(c, Number(d.dataType, d), scale))
    ensures Shows(w, c, s, d, scale)
  {
    Narrowed(w, Goal(c, Number(d.dataType, d), scale));
  }

  lemma SurveyedOtherShows(w: LongWidth, c: ClientSettings, info: CounterInfo, slot: Slot, d: ClientData, scale: bool)
    requires !Countable(c) && info.added && !d.dataType.Int? && !d.dataType.Dword?
    ensures Shows(w, c, Surveyed(w, c, info, slot, d, scale).1, d, scale)
  {
  }

  lemma SurveyedShows(w: LongWidth, c: ClientSettings, info: CounterInfo, slot: Slot, d: ClientData, scale: bool)
    requires !Countable(c) && info.added
    ensures Shows(w, c, Surveyed(w, c, info, slot, d, scale).1, d, scale)
  {
    if d.dataType.Int? || d.dataType.Dword? {
      SurveyedNumberShows(w, c, info, slot, d, scale);
      NumberShows(w, c, Surveyed(w, c, info, slot, d, scale).1, d, scale);
    } else {
      SurveyedOtherShows(w, c, info, slot, d, scale);
    }
  }

  /** Without a counter, and with one that cannot count the client's type, the slot shows the latest successful
      reading, multiplied; failed polls and sends, accepted or not, do not change it. Until the first success it
      shows a zero reading. */
  lemma {:induction false} SlotShowsLatest(w: LongWidth, c: ClientSettings, h: History)
    requires !Countable(c) && LatestReading(c, h).Some?
    ensures var (d, scaled) := LatestReading(c, h).value;
            Shows(w, c, Run(w, c, h).slot, d, scaled)
  {
    if IsReading(h.last) {
      var s := Run(w, c, h.earlier);
      StaysAdded(w, c, h.earlier);
      SurveyedShows(w, c, s.info, s.slot, Counted(c, h.last), h.last.Read?);
    } else {
      SlotShowsLatest(w, c, h.earlier);
    }
  }

  lemma {:induction false} StaysAdded(w: LongWidth, c: ClientSettings, h: History)
    ensures Run(w, c, h).info.added
  {
    if !h.Empty? {
      StaysAdded(w, c, h.earlier);
    }
  }
}
