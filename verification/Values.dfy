/** One number on its way from the device through counter and multiplier into the slot, in plain arithmetic. */
module Values {
  import opened CInts
  import opened Types
  import opened Decode
  import opened Counters
  import opened Connections
  import opened ClientRuns

  // ---------- the multiplier ----------

  /** What a successful reading of an INT client leaves in the slot if no counter counts it. */
  lemma IntIntoSlot(w: LongWidth, c: ClientSettings, info: CounterInfo, slot: Slot, d: ClientData)
    requires !Countable(c) && info.added && d.dataType.Int?
    ensures var s, n: int := Surveyed(w, c, info, slot, d, true).1, d.dataInt;
            && s.alias == Some(c.name) && s.slotType == TsInt
            && (c.computation.NoComputation? ==> s.intData == n)
            && (c.computation.Mul60? ==> Congruent(s.intData, 60 * n))
            && (c.computation.Mul1000? ==> Congruent(s.intData, 1000 * n))
            && (c.computation.Mul60000000? ==> Congruent(s.intData, 60000000 * n))
  {
    SurveyedNumberShows(w, c, info, slot, d, true);
  }

  /** Of a DWORD client. */
  lemma DwordIntoSlot(w: LongWidth, c: ClientSettings, info: CounterInfo, slot: Slot, d: ClientData)
    requires !Countable(c) && info.added && d.dataType.Dword?
    ensures var s, n: int := Surveyed(w, c, info, slot, d, true).1, d.dataDword;
            && s.alias == Some(c.name) && s.slotType == TsLint
            && (c.computation.NoComputation? ==> Congruent(s.longData, n))
            && (c.computation.Mul60? ==> Congruent(s.longData, 60 * n))
            && (c.computation.Mul1000? ==> Congruent(s.longData, 1000 * n))
            && (c.computation.Mul60000000? ==> Congruent(s.longData, 60000000 * n))
  {
    SurveyedNumberShows(w, c, info, slot, d, true);
    Narrowed(w, Goal(c, d.dataDword, true));
  }

  /** Of a DOUBLE client. */
  lemma DoubleIntoSlot(w: LongWidth, c: ClientSettings, info: CounterInfo, slot: Slot, d: ClientData)
    requires !Countable(c) && info.added && d.dataType.Double?
    ensures var s, x := Surveyed(w, c, info, slot, d, true).1, d.dataDouble;
            && s.alias == Some(c.name) && s.slotType == TsDouble
            && (c.computation.NoComputation? ==> s.doubleData == x)
            && (c.computation.Mul60? ==> s.doubleData == x * 60.0)
            && (c.computation.Mul1000? ==> s.doubleData == x * 1000.0)
            && (c.computation.Mul60000000? ==> s.doubleData == x * 60000000.0)
  {
  }

  /** Of a client of another type: no multiplier applies. */
  lemma OthersIntoSlot(w: LongWidth, c: ClientSettings, info: CounterInfo, slot: Slot, d: ClientData)
    requires !Countable(c) && info.added
    ensures var s := Surveyed(w, c, info, slot, d, true).1;
            && s.alias == Some(c.name)
            && (d.dataType.Bool? ==> s.slotType == TsBool && (s.boolData <==> d.dataBool))
            && (d.dataType.Enum? ==> s.slotType == TsLint && s.longData == d.dataEnum)
            && (d.dataType.Char? ==> s.slotType == TsChar && s.charData == d.dataChar)
            && (d.dataType.Time? ==> s.slotType == TsLint && Congruent(s.longData, d.dataTime))
            && (d.dataType.Time? && -2147483648 <= d.dataTime <= 2147483647 ==> s.longData == d.dataTime)
            && (d.dataType.Time? && w.Long64? && -TWO63 <= d.dataTime < TWO63 ==> s.longData == d.dataTime)
  {
  }

  /** The slot of a client that is counted: the counter value, multiplied. */
  lemma CountIntoSlot(w: LongWidth, c: ClientSettings, info: CounterInfo, slot: Slot, d: ClientData)
    requires Countable(c)
    ensures var (i, s) := Surveyed(w, c, info, slot, d, true);
            var published, v := SlotNumber(c.dataType, s), CounterValue(c, i);
            && s.alias == Some(c.name) && s.slotType == (if c.dataType.Int? then TsInt else TsLint)
            && (c.computation.NoComputation? ==> Congruent(published, v))
            && (c.computation.Mul60? ==> Congruent(published, 60 * v))
            && (c.computation.Mul1000? ==> Congruent(published, 1000 * v))
            && (c.computation.Mul60000000? ==> Congruent(published, 60000000 * v))
  {
    SurveyedNumber(w, c, info, slot, d, true);
  }

  /** In plain numbers, what the laws about runs call the scaled counter, measure and window. */
  lemma ScaledMeans(c: ClientSettings, x: int)
    ensures c.computation.NoComputation? ==> c.Scaled(x) == x
    ensures c.computation.Mul60? ==> c.Scaled(x) == 60 * x
    ensures c.computation.Mul1000? ==> c.Scaled(x) == 1000 * x
    ensures c.computation.Mul60000000? ==> c.Scaled(x) == 60000000 * x
  {
  }

  /** A client whose INIT poll failed shows zero until it first answers; a "not 100" counter counts that zero once. */
  lemma FailedInitShowsZero(w: LongWidth, c: ClientSettings)
    ensures var s := Run(w, c, Then(Empty, InitMissed)).slot;
            && s.alias == Some(c.name)
            && match c.dataType
               case Bool => s.slotType == TsBool && !s.boolData
               case Int => s.slotType == TsInt && s.intData == if c.counter.CumulatedNot100? then 1 else 0
               case Dword => s.slotType == TsLint && s.longData == if c.counter.CumulatedNot100? then 1 else 0
               case Double => s.slotType == TsDouble && s.doubleData == 0.0
               case Time => s.slotType == TsLint && s.longData == 0
               case Enum => s.slotType == TsLint && s.longData == 0
               case Char => s.slotType == TsChar && s.charData == ""
  {
    assert Run(w, c, Empty) == ClientState(AfterAdd(c, ZERO_INFO), EMPTY_SLOT);
  }

  // ---------- the counters ----------

  lemma ValueGrows(w: LongWidth, c: ClientSettings, h: History, d: ClientData)
    requires Countable(c) && Legal(h) && d.dataType == c.dataType && AccumulatorFits(w, c, Then(h, Read(d)))
    ensures var before := Value(w, c, h);
            && (if h.Empty? && c.counter.Cumulated? then before == -1 else before >= 0)
            && Value(w, c, Then(h, Read(d))) ==
               Max(0, before) + Gain(c, h.Empty?, Latest(0, Readings(c, h)), Number(c.dataType, d))
  {
    assert AccumulatorFits(w, c, h);
    ValueIsWindow(w, c, h);
    ValueIsWindow(w, c, Then(h, Read(d)));
    WindowBounds(c, h);
    CurrentIsLatest(w, c, h);
    TotalGain(c, Then(h, Read(d)));
  }

  /** What one reading n after a reading p adds to each counter while none overflows; the first reading follows a zero,
      and starts a "cumulated" counter. */
  lemma CounterLaw(w: LongWidth, c: ClientSettings, h: History, d: ClientData)
    requires Countable(c) && Legal(h) && d.dataType == c.dataType && AccumulatorFits(w, c, Then(h, Read(d)))
    ensures var n, p: int := Number(c.dataType, d), Latest(0, Readings(c, h));
            var before, after := Value(w, c, h), Value(w, c, Then(h, Read(d)));
            && (c.counter.Difference? ==> after == if n > p then before + (n - p) else before)
            && (c.counter.CumulatedNot100? ==> after == if n != 100 then before + 1 else before)
            && (c.counter.Cumulated? && h.Empty? ==> before == -1 && after == 0)
            && (c.counter.Cumulated? && c.dataType.Int? && !h.Empty? ==>
                  after == if n > p then before + (n - p) else before)
            && (c.counter.Cumulated? && c.dataType.Dword? && !h.Empty? ==>
                  after == if n >= p then before + (n - p) else before + (n - p) + 4294967296)
  {
    ValueGrows(w, c, h, d);
    if c.dataType.Dword? {
      LatestBounds(c, h);
      ModularStep(Number(c.dataType, d), Latest(0, Readings(c, h)));
    }
  }

  /** The reading p: the last one, 0 before the first. */
  lemma LatestReadingNumber(c: ClientSettings, h: History, d: ClientData)
    ensures Latest(0, Readings(c, Empty)) == 0
    ensures Latest(0, Readings(c, Then(h, Read(d)))) == if c.dataType.Int? then d.dataInt else d.dataDword
    ensures Latest(0, Readings(c, Then(h, InitMissed))) == 0
    ensures forall e | e in {Missed, Accepted, Refused} :: Readings(c, Then(h, e)) == Readings(c, h)
  {
  }

  lemma ModularStep(n: dword, p: dword)
    ensures ToDword(n - p) == if n >= p then n - p else n - p + 4294967296
  {
    if n < p {
      CongruentBy(n - p, n - p + 4294967296, -1);
      CongruentTrans(ToDword(n - p), n - p, n - p + 4294967296);
      CongruentEqual(ToDword(n - p), n - p + 4294967296);
    }
  }

  /** Nothing else changes a counter, but an accepted send zeroes it. */
  lemma CounterRests(w: LongWidth, c: ClientSettings, h: History)
    requires Countable(c)
    ensures Value(w, c, Then(h, Missed)) == Value(w, c, Then(h, Refused)) == Value(w, c, h)
    ensures Value(w, c, Then(h, Accepted)) == 0
  {
  }

  // ---------- from the device into the slot ----------

  /** A number that a Modbus device sends lowest word first is published as itself, multiplied. */
  lemma RegistersIntoSlot(w: LongWidth, order: ByteOrder, c: ClientSettings, i: nat, r: Answer, before: ClientData,
                          d: ClientData, info: CounterInfo, slot: Slot, value: int)
    requires c.protocol.Modbus? && ValidClient(c, i) && Delivered(w, order, c, r, before, d)
    requires !Countable(c) && info.added && (c.dataType.Int? || c.dataType.Dword?)
    requires |r.registers| >= 2 && r.registers[..2] == ToWords(value, 2)
    requires if c.dataType.Int? then -2147483648 <= value <= 2147483647 else 0 <= value <= 4294967295
    ensures var published := SlotNumber(c.dataType, Surveyed(w, c, info, slot, d, true).1);
            && (c.computation.NoComputation? ==> Congruent(published, value))
            && (c.computation.Mul60? ==> Congruent(published, 60 * value))
            && (c.computation.Mul1000? ==> Congruent(published, 1000 * value))
            && (c.computation.Mul60000000? ==> Congruent(published, 60000000 * value))
  {
    ModbusReadsNumber(w, order, c, i, r, before, d, value);
    if c.dataType.Int? {
      CongruentSelf(value);
      IntIntoSlot(w, c, info, slot, d);
    } else {
      DwordIntoSlot(w, c, info, slot, d);
    }
  }

  // ---------- the examples of the documentation ----------

  function Reads(t: DataType, n: int): ClientEvent
    requires 0 <= n < TWO31 && (t.Int? || t.Dword?)
  {
    Read(if t.Int? then ZeroData(Int).(dataInt := n) else ZeroData(Dword).(dataDword := n))
  }

  /** "difference": 10, 10 and 30 make 10, 10 and 30. */
  lemma DifferenceExample(w: LongWidth, c: ClientSettings)
    requires c.counter.Difference? && c.Numeric()
    ensures var h1 := Then(Empty, Reads(c.dataType, 10));
            var h2 := Then(h1, Reads(c.dataType, 10));
            var h3 := Then(h2, Reads(c.dataType, 30));
            Value(w, c, h1) == 10 && Value(w, c, h2) == 10 && Value(w, c, h3) == 30
  {
    var h1 := Then(Empty, Reads(c.dataType, 10));
    var h2 := Then(h1, Reads(c.dataType, 10));
    var h3 := Then(h2, Reads(c.dataType, 30));
    assert Run(w, c, Empty).info == AfterAdd(c, ZERO_INFO);
    assert Run(w, c, h1) == Step(w, c, Run(w, c, Empty), h1.last);
    assert Run(w, c, h2) == Step(w, c, Run(w, c, h1), h2.last);
    assert Run(w, c, h3) == Step(w, c, Run(w, c, h2), h3.last);
  }

  /** "cumulated_not_100": 101 and 100 make 1 and 1. */
  lemma Not100Example(w: LongWidth, c: ClientSettings)
    requires c.counter.CumulatedNot100? && c.Numeric()
    ensures var h1 := Then(Empty, Reads(c.dataType, 101));
            Value(w, c, h1) == 1 && Value(w, c, Then(h1, Reads(c.dataType, 100))) == 1
  {
    var h1 := Then(Empty, Reads(c.dataType, 101));
    assert Run(w, c, Empty).info == AfterAdd(c, ZERO_INFO);
    assert Run(w, c, h1) == Step(w, c, Run(w, c, Empty), h1.last);
  }

  /** "cumulated": of 100, 200 and 200 the documentation makes 0, 1 and 1; the program makes 0, 100 and 100. */
  lemma CumulatedExample(w: LongWidth, c: ClientSettings)
    requires c.counter.Cumulated? && c.Numeric()
    ensures var h1 := Then(Empty, Reads(c.dataType, 100));
            var h2 := Then(h1, Reads(c.dataType, 200));
            var h3 := Then(h2, Reads(c.dataType, 200));
            Value(w, c, h1) == 0 && Value(w, c, h2) == 100 && Value(w, c, h3) == 100
  {
    var h1 := Then(Empty, Reads(c.dataType, 100));
    var h2 := Then(h1, Reads(c.dataType, 200));
    var h3 := Then(h2, Reads(c.dataType, 200));
    assert Run(w, c, Empty).info == AfterAdd(c, ZERO_INFO);
    assert Run(w, c, h1) == Step(w, c, Run(w, c, Empty), h1.last);
    assert Run(w, c, h2) == Step(w, c, Run(w, c, h1), h2.last);
    assert Run(w, c, h3) == Step(w, c, Run(w, c, h2), h3.last);
  }
}
