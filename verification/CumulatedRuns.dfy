/** "cumulated" counters: a DWORD counter telescopes, until its 32-bit value
    meets the -1 that marks a counter before its first update. */
module CumulatedRuns {
  import opened CInts
  import opened Types
  import opened Counters
  import opened ClientRuns

  predicate CumulatedDword(c: ClientSettings) {
    c.counter.Cumulated? && c.dataType.Dword?
  }

  function Latest0(c: ClientSettings, h: History): int {
    Latest(0, Readings(c, h))
  }

  function Cumulated(w: LongWidth, c: ClientSettings, h: History): int {
    Run(w, c, h).info.cumulated
  }

  /** The reading the counter actually counts from: the last one that found it at -1 or saw it reset. */
  function Anchor(w: LongWidth, c: ClientSettings, h: History): int {
    if h.Empty? then 0
    else if IsReading(h.last) && Cumulated(w, c, h.earlier) == -1 then Latest0(c, h)
    else if h.last.Accepted? then Latest0(c, h)
    else Anchor(w, c, h.earlier)
  }

  /** The reading it should count from: the one current at the last accepted send, or the first. */
  function WindowStart(c: ClientSettings, h: History): int {
    if h.Empty? then 0
    else if h.earlier.Empty? || h.last.Accepted? then Latest0(c, h)
    else WindowStart(c, h.earlier)
  }

  /** The net change of the meter over the window, and since the first reading. */
  function NetChange(c: ClientSettings, h: History): int {
    Latest0(c, h) - WindowStart(c, h)
  }

  function NetTotal(c: ClientSettings, h: History): int {
    Latest0(c, h) - First(Readings(c, h))
  }

  lemma LatestStep(c: ClientSettings, h: History)
    requires !h.Empty?
    ensures Latest0(c, h) == if IsReading(h.last) then Number(c.dataType, Counted(c, h.last)) else Latest0(c, h.earlier)
  {
  }

  lemma {:induction false} DwordReadings(w: LongWidth, c: ClientSettings, h: History)
    requires c.dataType.Dword?
    ensures 0 <= Latest0(c, h) < TWO32 && 0 <= WindowStart(c, h) < TWO32 && 0 <= Anchor(w, c, h) < TWO32
  {
    if !h.Empty? {
      DwordReadings(w, c, h.earlier);
      LatestStep(c, h);
    }
  }

  /** The counter after a reading n. */
  function NextCumulated(w: LongWidth, cumulated: int, previous: int, n: int): int {
    if cumulated == -1 then 0 else AddLong(w, cumulated, ToDword(n - previous))
  }

  lemma StepCumulated(w: LongWidth, c: ClientSettings, s: ClientState, e: ClientEvent)
    requires CumulatedDword(c) && s.info.added
    ensures IsReading(e) ==>
              Step(w, c, s, e).info.cumulated ==
              NextCumulated(w, s.info.cumulated, s.info.current.dataDword, Counted(c, e).dataDword)
    ensures !IsReading(e) ==> Step(w, c, s, e).info.cumulated == if e.Accepted? then 0 else s.info.cumulated
  {
  }

  lemma CumulatedStepValue(w: LongWidth, c: ClientSettings, h: History)
    requires CumulatedDword(c) && Legal(h) && !h.Empty?
    ensures IsReading(h.last) ==>
              Cumulated(w, c, h) == NextCumulated(w, Cumulated(w, c, h.earlier), Latest0(c, h.earlier), Latest0(c, h))
    ensures !IsReading(h.last) ==>
              Cumulated(w, c, h) == if h.last.Accepted? then 0 else Cumulated(w, c, h.earlier)
  {
    CurrentIsLatest(w, c, h.earlier);
    StepCumulated(w, c, Run(w, c, h.earlier), h.last);
    LatestStep(c, h);
    assert Run(w, c, h) == Step(w, c, Run(w, c, h.earlier), h.last);
  }

  lemma AddLongFollows(w: LongWidth, x: int, previous: int, n: int, anchor: int)
    requires Congruent(x, previous - anchor) && -w.Half() <= x < w.Half()
    ensures Congruent(AddLong(w, x, ToDword(n - previous)), n - anchor)
    ensures -w.Half() <= AddLong(w, x, ToDword(n - previous)) < w.Half()
  {
    var step := ToDword(n - previous);
    CongruentPlus(x, previous - anchor, step, n - previous);
    if step != 0 {
      CongruentTrans(AddLong(w, x, step), x + step, n - anchor);
    }
  }

  /** The counter always is the distance from its anchor, modulo 2^32. */
  lemma {:induction false} CounterFollowsAnchor(w: LongWidth, c: ClientSettings, h: History)
    requires CumulatedDword(c) && Legal(h) && !h.Empty?
    ensures Congruent(Cumulated(w, c, h), Latest0(c, h) - Anchor(w, c, h))
    ensures -w.Half() <= Cumulated(w, c, h) < w.Half()
  {
    CumulatedStepValue(w, c, h);
    LatestStep(c, h);
    CongruentSelf(0);
    if !h.earlier.Empty? {
      CounterFollowsAnchor(w, c, h.earlier);
      if IsReading(h.last) && Cumulated(w, c, h.earlier) != -1 {
        AddLongFollows(w, Cumulated(w, c, h.earlier), Latest0(c, h.earlier), Latest0(c, h), Anchor(w, c, h.earlier));
      }
    }
  }

  /** On a 32-bit `long` the counter falls back to "not started" exactly when the meter stands one below its anchor. */
  lemma SentinelCollision(c: ClientSettings, h: History)
    requires CumulatedDword(c) && Legal(h) && !h.Empty?
    ensures Cumulated(Long32, c, h) == -1 <==> Congruent(Latest0(c, h), Anchor(Long32, c, h) - 1)
  {
    CounterFollowsAnchor(Long32, c, h);
    MinusOne(Cumulated(Long32, c, h), Latest0(c, h), Anchor(Long32, c, h));
  }

  lemma MinusOne(x: int, latest: int, anchor: int)
    requires Congruent(x, latest - anchor) && -TWO31 <= x < TWO31
    ensures x == -1 <==> Congruent(latest, anchor - 1)
  {
    var q := Quotient(x, latest - anchor);
    if x == -1 {
      CongruentBy(latest, anchor - 1, -q);
    }
    if Congruent(latest, anchor - 1) {
      var p := Quotient(latest, anchor - 1);
    }
  }

  // ---------- telescoping ----------

  /** The published number (before scaling) is the net change of the meter over the window. */
  predicate Telescopes(w: LongWidth, c: ClientSettings, h: History) {
    ToDword(Cumulated(w, c, h)) == ToDword(NetChange(c, h))
  }

  predicate AlwaysTelescopes(w: LongWidth, c: ClientSettings, h: History) {
    h.Empty? || (AlwaysTelescopes(w, c, h.earlier) && Telescopes(w, c, h))
  }

  /** Whenever the meter stood one below the start of the window, the next reading was back at the start. */
  ghost predicate NoLoss(c: ClientSettings, h: History) {
    h.Empty? ||
    (&& NoLoss(c, h.earlier)
     && (!h.earlier.Empty? && IsReading(h.last) && Congruent(Latest0(c, h.earlier), WindowStart(c, h.earlier) - 1) ==>
           Latest0(c, h) == WindowStart(c, h)))
  }

  lemma SameDword(x: int, latest: int, a: dword, b: dword)
    requires Congruent(x, latest - a)
    ensures ToDword(x) == ToDword(latest - b) <==> a == b
  {
  }

  /** Numbers are equal as DWORDs exactly when they are congruent. */
  lemma DwordEquality(a: int, b: int)
    ensures ToDword(a) == ToDword(b) <==> Congruent(a, b)
  {
    if ToDword(a) == ToDword(b) {
      var p := Quotient(ToDword(a), a);
      var q := Quotient(ToDword(b), b);
      CongruentBy(a, b, q - p);
    }
    if Congruent(a, b) {
      CongruentTrans(ToDword(a), a, b);
      CongruentPlus(ToDword(a), b, ToDword(b), b);
      CongruentEqual(ToDword(a) - ToDword(b), 0);
    }
  }

  lemma TelescopesFromStart(w: LongWidth, c: ClientSettings, h: History)
    requires CumulatedDword(c) && Legal(h) && !h.Empty?
    ensures Telescopes(w, c, h) <==> Anchor(w, c, h) == WindowStart(c, h)
  {
    CounterFollowsAnchor(w, c, h);
    DwordReadings(w, c, h);
    SameDword(Cumulated(w, c, h), Latest0(c, h), Anchor(w, c, h), WindowStart(c, h));
  }

  /** With a 32-bit `long`, a "cumulated" DWORD client telescopes throughout a run if and only if NoLoss. */
  lemma {:induction false} Telescoping32(c: ClientSettings, h: History)
    requires CumulatedDword(c) && Legal(h)
    ensures AlwaysTelescopes(Long32, c, h) <==> NoLoss(c, h)
  {
    if !h.Empty? {
      var h0 := h.earlier;
      Telescoping32(c, h0);
      TelescopesFromStart(Long32, c, h);
      if h0.Empty? {
        CumulatedStepValue(Long32, c, h);
      } else {
        TelescopesFromStart(Long32, c, h0);
        SentinelCollision(c, h0);
      }
    }
  }

  lemma ReadEffects(c: ClientSettings, h: History, d: ClientData)
    requires CumulatedDword(c) && Legal(h)
    ensures var h' := Then(h, Read(d));
            && Legal(h') && Latest0(c, h') == d.dataDword
            && WindowStart(c, h') == (if h.Empty? then d.dataDword else WindowStart(c, h))
            && Cumulated(Long32, c, h') == NextCumulated(Long32, Cumulated(Long32, c, h), Latest0(c, h), d.dataDword)
  {
    var h' := Then(h, Read(d));
    CumulatedStepValue(Long32, c, h');
    LatestStep(c, h');
  }

  /** A history on which it does not: with 32-bit `long` the readings 5, 4 and 10 leave 0 instead of 5.
      Module Witnesses shows a run of the program with this history. */
  lemma ThirtyTwoBitsLoseAnUpdate(c: ClientSettings, five: ClientData, four: ClientData, ten: ClientData)
    requires CumulatedDword(c) && five.dataDword == 5 && four.dataDword == 4 && ten.dataDword == 10
    ensures var h := Then(Then(Then(Then(Empty, Read(five)), Refused), Read(four)), Read(ten));
            && Legal(h) && Cumulated(Long32, c, h) == 0
            && NetChange(c, h) == 5 && !NoLoss(c, h)
  {
    var h1 := Then(Empty, Read(five));
    var h2 := Then(h1, Refused);
    var h3 := Then(h2, Read(four));
    assert Cumulated(Long32, c, Empty) == -1;
    ReadEffects(c, Empty, five);
    assert Cumulated(Long32, c, h2) == 0 && Latest0(c, h2) == 5 && WindowStart(c, h2) == 5;
    ReadEffects(c, h2, four);
    ReadEffects(c, h3, ten);
    CongruentBy(Latest0(c, h3), WindowStart(c, h3) - 1, 0);
  }

  // ---------- the net change ----------

  lemma {:induction false} TravelIsNet(rs: Log<int>)
    ensures Congruent(Travel(rs), Latest(0, rs) - First(rs))
  {
    CongruentSelf(0);
    if !rs.Empty? && !rs.earlier.Empty? {
      TravelIsNet(rs.earlier);
      var step := rs.last - rs.earlier.last;
      CongruentPlus(Travel(rs.earlier), Latest(0, rs.earlier) - First(rs), ToDword(step), step);
    }
  }

  /** The modular steps of a window add up to the net change of the meter over it, and those of a history
      to the net change since the first reading. */
  lemma {:induction false} WindowIsNet(c: ClientSettings, h: History)
    requires CumulatedDword(c) && Legal(h)
    ensures Congruent(Window(c, h), NetChange(c, h))
    ensures Congruent(Total(c, h), NetTotal(c, h))
  {
    TravelIsNet(Readings(c, h));
    CongruentSelf(0);
    if !h.Empty? && !h.last.Accepted? {
      var h0 := h.earlier;
      WindowIsNet(c, h0);
      TotalGain(c, h);
      if IsReading(h.last) && !h0.Empty? {
        CurrentIsLatest(Long64, c, h0);
        var step := Latest0(c, h) - Latest0(c, h0);
        CongruentPlus(Window(c, h0), Latest0(c, h0) - WindowStart(c, h0), ToDword(step), step);
      } else if h0.Empty? {
        assert Window(c, h) == 0;
      }
    }
  }

  lemma TelescopesIsCounting(w: LongWidth, c: ClientSettings, h: History)
    requires CumulatedDword(c) && Legal(h) && !h.Empty?
    ensures Telescopes(w, c, h) <==> Congruent(Value(w, c, h), Window(c, h))
  {
    var x, net, k := Cumulated(w, c, h), NetChange(c, h), Window(c, h);
    DwordEquality(x, net);
    DwordEquality(x, k);
    DwordEquality(k, net);
    WindowIsNet(c, h);
  }

  /** For either width: the counter telescopes throughout a history if and only if no reading is swallowed. */
  lemma {:induction false} TelescopesExactly(w: LongWidth, c: ClientSettings, h: History)
    requires CumulatedDword(c) && Legal(h)
    ensures AlwaysTelescopes(w, c, h) <==> NothingSwallowed(w, c, h)
    ensures AlwaysTelescopes(w, c, h) <==> AlwaysCounts(w, c, h)
  {
    CountsUnlessSwallowed(w, c, h);
    if !h.Empty? {
      TelescopesExactly(w, c, h.earlier);
      TelescopesIsCounting(w, c, h);
    }
  }

  /** What such a client publishes: a fresh slot is the scaled net change over the window, modulo 2^32. */
  lemma FreshSlotIsNet(w: LongWidth, c: ClientSettings, h: History)
    requires CumulatedDword(c) && Legal(h) && !h.Empty? && NothingSwallowed(w, c, h) && ReadSinceAccept(h)
    ensures Congruent(Published(w, c, h), c.Scaled(NetChange(c, h)))
  {
    WindowIsNet(c, h);
    ScaledCongruent(c, Window(c, h), NetChange(c, h));
    CounterIsWindowModulo(w, c, h);
    CongruentTrans(Published(w, c, h), c.Scaled(Window(c, h)), c.Scaled(NetChange(c, h)));
  }

  /** The accepted sums and the change not yet sent are the net change since the first reading,
      plus what stale sends published again, modulo 2^32. */
  lemma PublishesNetChange(w: LongWidth, c: ClientSettings, h: History)
    requires CumulatedDword(c) && Legal(h) && !h.Empty? && NothingSwallowed(w, c, h)
    ensures Congruent(AcceptedSum(w, c, h) + c.Scaled(NetChange(c, h)), c.Scaled(NetTotal(c, h)) + StaleSum(w, c, h))
  {
    WindowIsNet(c, h);
    SumsWithoutShortfall(w, c, h);
    ScaledExchange(c, AcceptedSum(w, c, h), Window(c, h), Total(c, h), StaleSum(w, c, h),
                   NetChange(c, h), NetTotal(c, h));
  }

  lemma SumsWithoutShortfall(w: LongWidth, c: ClientSettings, h: History)
    requires CumulatedDword(c) && Legal(h) && NothingSwallowed(w, c, h)
    ensures Congruent(AcceptedSum(w, c, h) + c.Scaled(Window(c, h)), c.Scaled(Total(c, h)) + StaleSum(w, c, h))
  {
    AcceptedPlusWindowModulo(w, c, h);
    AlwaysScaled(c, h);
    ShortfallZero(c, h);
  }

  lemma ScaledExchange(c: ClientSettings, sent: int, window: int, total: int, stale: int, net: int, all: int)
    requires Congruent(sent + c.Scaled(window), c.Scaled(total) + stale)
    requires Congruent(window, net) && Congruent(total, all)
    ensures Congruent(sent + c.Scaled(net), c.Scaled(all) + stale)
  {
    ScaledCongruent(c, window, net);
    ScaledCongruent(c, total, all);
    Exchange(sent, c.Scaled(window), c.Scaled(total), stale, c.Scaled(net), c.Scaled(all));
  }

  lemma Exchange(sent: int, window: int, total: int, stale: int, net: int, all: int)
    requires Congruent(sent + window, total + stale) && Congruent(window, net) && Congruent(total, all)
    ensures Congruent(sent + net, all + stale)
  {
    var p := Quotient(sent + window, total + stale);
    var q := Quotient(window, net);
    var r := Quotient(total, all);
    CongruentBy(sent + net, all + stale, p - q + r);
  }

  // ---------- no overflow ----------

  /** While the accumulator does not overflow, the counter is the sum of the changes in the window; it never stands
      at the sentinel, and a DWORD counter telescopes. */
  lemma WithoutOverflow(w: LongWidth, c: ClientSettings, h: History)
    requires c.counter.Cumulated? && c.Numeric() && Legal(h) && !h.Empty? && AccumulatorFits(w, c, h)
    ensures Cumulated(w, c, h) == Window(c, h) >= 0
    ensures c.dataType.Dword? ==>
              Telescopes(w, c, h) && AlwaysTelescopes(w, c, h) && Anchor(w, c, h) == WindowStart(c, h)
  {
    ValueIsWindow(w, c, h);
    WindowBounds(c, h);
    FitsSwallowsNothing(w, c, h);
    if c.dataType.Dword? {
      TelescopesExactly(w, c, h);
      TelescopesFromStart(w, c, h);
    }
  }

  /** An INT counter is the positive variation after the first reading, less what was sent before. */
  lemma IntWindow(w: LongWidth, c: ClientSettings, h: History)
    requires c.counter.Cumulated? && c.dataType.Int? && Legal(h) && !h.Empty? && AccumulatorFits(w, c, h)
    ensures Cumulated(w, c, h) == Window(c, h)
    ensures Total(c, h) == Variation(First(Readings(c, h)), Readings(c, h))
    ensures SentTotal(c, h) + Window(c, h) == Total(c, h)
  {
    ValueIsWindow(w, c, h);
    SentPlusWindow(c, h);
  }

  /** The measure at the last accepted send. */
  function SentTotal(c: ClientSettings, h: History): int {
    if h.Empty? then 0 else if h.last.Accepted? then Total(c, h) else SentTotal(c, h.earlier)
  }

  lemma {:induction false} SentPlusWindow(c: ClientSettings, h: History)
    requires c.counter.Cumulated?
    ensures SentTotal(c, h) + Window(c, h) == Total(c, h)
  {
    if !h.Empty? {
      SentPlusWindow(c, h.earlier);
    }
  }

  /** Readings counted since the counter last stood at 0 for certain. */
  function ReadingsInWindow(h: History): nat {
    if h.Empty? || h.last.Accepted? then 0
    else ReadingsInWindow(h.earlier) + if IsReading(h.last) then 1 else 0
  }

  predicate ShortWindows(h: History) {
    h.Empty? || (ShortWindows(h.earlier) && ReadingsInWindow(h) <= TWO31)
  }

  /** A window of n readings adds less than 2^32 each time. */
  lemma {:induction false} WindowsAddUp(c: ClientSettings, h: History)
    requires CumulatedDword(c)
    ensures Window(c, h) <= ReadingsInWindow(h) * DWORD_MAX
  {
    if !h.Empty? {
      WindowsAddUp(c, h.earlier);
      TotalGain(c, h);
    }
  }

  lemma BelowHalf(n: nat)
    requires n <= TWO31
    ensures n * DWORD_MAX < TWO63
  {
  }

  /** In particular a 64-bit `long` never overflows if no window holds more than 2^31 readings
      (almost seven years at ten polls a second). */
  lemma {:induction false} ShortWindowsFit(c: ClientSettings, h: History)
    requires CumulatedDword(c) && ShortWindows(h)
    ensures AccumulatorFits(Long64, c, h)
  {
    if !h.Empty? {
      ShortWindowsFit(c, h.earlier);
      WindowsAddUp(c, h);
      BelowHalf(ReadingsInWindow(h));
    }
  }

  /** With a 64-bit `long` a DWORD client telescopes whenever the changes in each window stay below 2^63. */
  lemma Telescoping64(c: ClientSettings, h: History)
    requires CumulatedDword(c) && Legal(h) && !h.Empty? && (AccumulatorFits(Long64, c, h) || ShortWindows(h))
    ensures Telescopes(Long64, c, h) && 0 <= Cumulated(Long64, c, h) < TWO63
  {
    if ShortWindows(h) {
      ShortWindowsFit(c, h);
    }
    WithoutOverflow(Long64, c, h);
  }

  /** Once it has had its first reading a counter that does not overflow never stands at -1 again, so no update is
      swallowed and no reset meets the sentinel. A type it cannot count leaves it at 0. */
  lemma {:induction false} SentinelSafety(w: LongWidth, c: ClientSettings, h: History)
    requires c.counter.Cumulated? && Legal(h) && !h.Empty?
    requires c.Numeric() ==> AccumulatorFits(w, c, h)
    ensures if c.Numeric() then Cumulated(w, c, h) == Window(c, h) >= 0 else Cumulated(w, c, h) == 0
  {
    if c.Numeric() {
      WithoutOverflow(w, c, h);
    } else {
      StaysAdded(w, c, h.earlier);
      if !h.earlier.Empty? {
        SentinelSafety(w, c, h.earlier);
      }
    }
  }
}
