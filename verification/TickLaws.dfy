/** Timing: what becomes of every tick, and how often a snapshot is sent. */
module TickLaws {
  import opened CInts
  import opened Types
  import opened Timer
  import opened Machine
  import ClientQueue

  // ---------- the phase of the timer ----------

  function Ticks(tr: Trace): nat {
    if tr.Empty? then 0 else Ticks(tr.earlier) + Bit(tr.last.Tick?)
  }

  /** Ticks of the trace that raised the flag of a rate. */
  function Raised(c: Config, tr: Trace, rate: RefreshRate): nat
    requires Legal(c, tr)
  {
    if tr.Empty? then 0
    else Raised(c, tr.earlier, rate) + Bit(tr.last.Tick? && At(c, tr.earlier).timer.Raises(rate))
  }

  lemma TickArithmetic(n: nat)
    ensures var counter := n % 600;
            && (n + 1) % 600 == (if counter + 1 == 600 then 0 else counter + 1)
            && (n + 1) / 10 == n / 10 + (if (counter + 1) % 10 == 0 then 1 else 0)
            && (n + 1) / 600 == n / 600 + (if counter + 1 == 600 then 1 else 0)
  {
    var minutes, counter := n / 600, n % 600;
    var seconds, rest := counter / 10, counter % 10;
    assert n == 600 * minutes + 10 * seconds + rest;
    assert n / 10 == 60 * minutes + seconds;
    assert n + 1 == 10 * (60 * minutes + seconds) + (rest + 1);
    assert counter + 1 == 10 * seconds + (rest + 1);
  }

  /** Seconds and minutes are raised on every 10th and 600th tick, although the counter wraps to 0. */
  lemma {:induction false} TimerPhase(c: Config, tr: Trace)
    requires Legal(c, tr)
    ensures At(c, tr).timer.counter == Ticks(tr) % 600
    ensures Raised(c, tr, Rate100ms) == Ticks(tr)
    ensures Raised(c, tr, Rate1s) == Ticks(tr) / 10
    ensures Raised(c, tr, Rate1m) == Ticks(tr) / 600
  {
    if !tr.Empty? {
      TimerPhase(c, tr.earlier);
      TickArithmetic(Ticks(tr.earlier));
    }
  }

  lemma MinuteRaisesSecond(c: Config, tr: Trace)
    requires Legal(c, tr) && At(c, tr).timer.Raises(Rate1m)
    ensures At(c, tr).timer.Raises(Rate1s)
  {
  }

  // ---------- tick accounting ----------

  function Sweeps(tr: Trace, rate: RefreshRate): nat {
    if tr.Empty? then 0 else Sweeps(tr.earlier, rate) + Bit(tr.last == Begun(rate))
  }

  /** Raises that found the flag already set: no sweep of their own will answer them. */
  function Coalesced(c: Config, tr: Trace, rate: RefreshRate): nat
    requires Legal(c, tr)
  {
    if tr.Empty? then 0
    else
      var timer := At(c, tr.earlier).timer;
      Coalesced(c, tr.earlier, rate) + Bit(tr.last.Tick? && timer.Raises(rate) && timer.Flag(rate))
  }

  predicate SweepRunning(k: Control, rate: RefreshRate) {
    k.pc.Sweeping? && k.pc.rate == rate
  }

  /** Raises that are still waiting for a sweep. */
  function Waiting(k: Control, rate: RefreshRate): nat {
    if k.timer.Flag(rate) && !SweepRunning(k, rate) then 1 else 0
  }

  predicate FlagCoversSweep(k: Control, rate: RefreshRate) {
    SweepRunning(k, rate) ==> k.timer.Flag(rate)
  }

  lemma WaitingStep(c: Config, k: Control, e: Event, rate: RefreshRate)
    requires Enabled(c, k, e) && FlagCoversSweep(k, rate)
    ensures FlagCoversSweep(Steer(c, k, e), rate)
    ensures Waiting(Steer(c, k, e), rate) ==
            Waiting(k, rate) + Bit(e.Tick? && k.timer.Raises(rate)) - Bit(e == Begun(rate)) -
            Bit(e.Tick? && k.timer.Raises(rate) && k.timer.Flag(rate))
  {
  }

  /** Every raise is answered by a sweep, coalesced, or still waiting; a flag stays set throughout its sweep. */
  lemma {:induction false} TickAccounting(c: Config, tr: Trace, rate: RefreshRate)
    requires Legal(c, tr)
    ensures FlagCoversSweep(At(c, tr), rate)
    ensures Raised(c, tr, rate) == Sweeps(tr, rate) + Coalesced(c, tr, rate) + Waiting(At(c, tr), rate)
  {
    if !tr.Empty? {
      TickAccounting(c, tr.earlier, rate);
      WaitingStep(c, At(c, tr.earlier), tr.last, rate);
    }
  }

  // ---------- send rate ----------

  predicate Surveyed(k: Control) {
    !k.pc.Boot? && !k.pc.Surveying?
  }

  /** Times the state became SEND_DATA: once after the INIT pass, then at each expiry of the countdown. */
  function SendEntries(c: Config, tr: Trace): nat
    requires Legal(c, tr)
  {
    if tr.Empty? then 0
    else
      var k0 := At(c, tr.earlier);
      SendEntries(c, tr.earlier) + Bit(BecomesDue(k0, tr.last)) + Bit(!Surveyed(k0) && Surveyed(At(c, tr)))
  }

  function Sends(tr: Trace): nat {
    if tr.Empty? then 0 else Sends(tr.earlier) + Bit(tr.last.Sent?)
  }

  /** Minutes counted towards the next snapshot. */
  function Progress(c: Config, k: Control): int {
    if c.interval <= 0 then 0 else c.interval - k.minutesLeft
  }

  /** n whole periods. */
  function Periods(period: int, n: int): int
    decreases Max(0, n)
  {
    if n <= 0 then 0 else Periods(period, n - 1) + period
  }

  lemma {:induction false} PeriodsProduct(period: int, n: nat)
    ensures Periods(period, n) == period * n
  {
    if n > 0 {
      PeriodsProduct(period, n - 1);
      assert period * (n - 1) == period * n - period;
    }
  }

  /** One step of the countdown. */
  lemma Countdown(c: Config, k: Control, e: Event)
    requires Enabled(c, k, e) && 0 <= Progress(c, k) < c.Period() && (c.interval <= 0 ==> k.minutesLeft == c.interval)
    requires Surveyed(k)
    ensures var k' := Steer(c, k, e);
            && Surveyed(k')
            && 0 <= Progress(c, k') < c.Period() && (c.interval <= 0 ==> k'.minutesLeft == c.interval)
            && (if BecomesDue(k, e) then Progress(c, k) + 1 == c.Period() && Progress(c, k') == 0
                else Progress(c, k') == Progress(c, k) + Bit(e == Begun(Rate1m)))
  {
  }

  /** What holds of the countdown at every point of a run. */
  predicate Counting(c: Config, k: Control) {
    if !Surveyed(k) then k.pc.Surveying? ==> k.minutesLeft == c.interval
    else 0 <= Progress(c, k) < c.Period() && (c.interval <= 0 ==> k.minutesLeft == c.interval)
  }

  lemma CountingStep(c: Config, k: Control, e: Event)
    requires Enabled(c, k, e) && Counting(c, k)
    ensures var k' := Steer(c, k, e);
            && Counting(c, k') && (Surveyed(k) ==> Surveyed(k'))
            && (!Surveyed(k) ==> !BecomesDue(k, e) && e != Begun(Rate1m) && (Surveyed(k') ==> Progress(c, k') == 0))
  {
    if Surveyed(k) {
      Countdown(c, k, e);
    }
  }

  /** The countdown law: minutes served are whole periods, one per send after the first, plus the progress since. */
  lemma {:induction false} MinutesServed(c: Config, tr: Trace)
    requires Legal(c, tr)
    ensures Counting(c, At(c, tr))
    ensures !Surveyed(At(c, tr)) ==> Sweeps(tr, Rate1m) == SendEntries(c, tr) == 0
    ensures Surveyed(At(c, tr)) ==>
              && SendEntries(c, tr) >= 1
              && Sweeps(tr, Rate1m) == Periods(c.Period(), SendEntries(c, tr) - 1) + Progress(c, At(c, tr))
  {
    if !tr.Empty? {
      MinutesServed(c, tr.earlier);
      var k0 := At(c, tr.earlier);
      CountingStep(c, k0, tr.last);
      if Surveyed(k0) {
        Countdown(c, k0, tr.last);
      }
    }
  }

  /** Snapshots fall due exactly once per period of served minutes, whether or not sends succeed. */
  lemma SendsPerMinutes(c: Config, tr: Trace)
    requires Legal(c, tr) && Surveyed(At(c, tr))
    ensures SendEntries(c, tr) == 1 + Sweeps(tr, Rate1m) / c.Period()
  {
    MinutesServed(c, tr);
    EntriesFromMinutes(SendEntries(c, tr), Sweeps(tr, Rate1m), c.Period(), Progress(c, At(c, tr)));
  }

  lemma EntriesFromMinutes(entries: nat, minutes: int, period: nat, progress: int)
    requires entries >= 1 && 0 <= progress < period && minutes == Periods(period, entries - 1) + progress
    ensures entries == 1 + minutes / period
  {
    PeriodsQuotient(period, entries - 1, progress);
  }

  lemma PeriodsQuotient(period: nat, n: nat, rest: int)
    requires 0 <= rest < period
    ensures (Periods(period, n) + rest) / period == n
  {
    PeriodsProduct(period, n);
    QuotientIs(Periods(period, n) + rest, period, n, rest);
  }

  lemma MulOrder(m: nat, a: int, b: int)
    ensures a <= b ==> m * a <= m * b
    ensures m * (a + 1) == m * a + m
  {
  }

  lemma QuotientIs(x: int, m: nat, q: int, r: int)
    requires x == m * q + r && 0 <= r < m
    ensures x / m == q
  {
    var p := x / m;
    assert x == m * p + x % m;
    MulOrder(m, q + 1, p);
    MulOrder(m, p + 1, q);
    MulOrder(m, p, p);
    MulOrder(m, q, q);
  }

  /** Where a send that has fallen due can still be waiting. */
  predicate DueIsNear(k: Control) {
    && (!Surveyed(k) ==> !k.sendDue)
    && (k.sendDue ==> k.pc.Sending? || k.pc == Checking(Rate1s) || SweepRunning(k, Rate1m) || SweepRunning(k, Rate1s))
  }

  lemma DueStep(c: Config, k: Control, e: Event)
    requires Enabled(c, k, e) && DueIsNear(k)
    ensures var k' := Steer(c, k, e);
            && DueIsNear(k')
            && Bit(k'.sendDue || k'.pc.Sending?) ==
               Bit(k.sendDue || k.pc.Sending?) + Bit(BecomesDue(k, e)) + Bit(!Surveyed(k) && Surveyed(k'))
               - Bit(e.Sent?)
  {
  }

  /** Each entry leads to one send; at most the latest is still to come. */
  lemma {:induction false} EntriesAreSent(c: Config, tr: Trace)
    requires Legal(c, tr)
    ensures DueIsNear(At(c, tr))
    ensures SendEntries(c, tr) == Sends(tr) + Bit(At(c, tr).sendDue || At(c, tr).pc.Sending?)
  {
    if !tr.Empty? {
      EntriesAreSent(c, tr.earlier);
      DueStep(c, At(c, tr.earlier), tr.last);
    }
  }

  /** The send-rate bound: after t ticks, at most 1 + t div (600 * M) sends, successful or not. */
  lemma SendRate(c: Config, tr: Trace)
    requires Legal(c, tr)
    ensures var minutes := if c.interval < 1 then 1 else c.interval;
            Sends(tr) <= SendEntries(c, tr) <= 1 + Ticks(tr) / (600 * minutes)
  {
    EntriesAreSent(c, tr);
    MinutesServed(c, tr);
    TimerPhase(c, tr);
    TickAccounting(c, tr, Rate1m);
    var m, q, t := c.Period(), SendEntries(c, tr) - 1, Ticks(tr);
    if q >= 1 {
      PeriodsProduct(m, q);
      AtMost(m, q, t);
    } else {
      AtMost(m, 0, t);
    }
  }

  lemma AtMost(m: nat, q: int, t: int)
    requires 0 < m && m * q <= t / 600
    ensures q <= t / (600 * m)
  {
    var d := 600 * m;
    var p := t / d;
    MinutesToTicks(m, q, t / 600, t);
    assert t == d * p + t % d;
    MulOrder(d, p + 1, q);
    MulOrder(d, p, p);
  }

  lemma MinutesToTicks(m: nat, q: int, minutes: int, t: int)
    requires m * q <= minutes == t / 600
    ensures (600 * m) * q <= t
  {
    assert (600 * m) * q == 600 * (m * q);
  }

  // ---------- polls ----------

  function Polls(tr: Trace, i: nat): nat {
    if tr.Empty? then 0
    else Polls(tr.earlier, i) + Bit(Polled(tr.last, i))
  }

  /** Whether the running sweep has still to reach client i: lanes are in increasing order. */
  predicate StillToPoll(c: Config, k: Control, i: nat)
    requires i < |c.clients|
  {
    var rate := c.clients[i].refreshRate;
    SweepRunning(k, rate) && k.pc.done < |c.Lane(rate)| && c.Lane(rate)[k.pc.done] <= i
  }

  /** Every sweep polls each client of its rate once, and no other client. */
  lemma {:induction false} OnePollPerSweep(c: Config, tr: Trace, i: nat)
    requires Legal(c, tr) && i < |c.clients|
    ensures Sweeps(tr, c.clients[i].refreshRate) == Polls(tr, i) + Bit(StillToPoll(c, At(c, tr), i))
  {
    if !tr.Empty? {
      OnePollPerSweep(c, tr.earlier, i);
      SweepStep(c, At(c, tr.earlier), tr.last, i);
    }
  }

  predicate Polled(e: Event, i: nat) {
    (e.Answered? && e.i == i) || (e.Silent? && e.i == i)
  }

  lemma SweepStep(c: Config, k: Control, e: Event, i: nat)
    requires Enabled(c, k, e) && i < |c.clients|
    ensures Bit(StillToPoll(c, Steer(c, k, e), i))
            == Bit(StillToPoll(c, k, i)) - Bit(Polled(e, i)) + Bit(e == Begun(c.clients[i].refreshRate))
  {
    ClientQueue.SweepVisits(c.clients, c.clients[i].refreshRate);
    if e.Answered? || e.Silent? {
      PollStep(c, k, e, i);
    }
  }

  lemma PollStep(c: Config, k: Control, e: Event, i: nat)
    requires Enabled(c, k, e) && i < |c.clients| && (e.Answered? || e.Silent?)
    ensures Bit(StillToPoll(c, Steer(c, k, e), i)) == Bit(StillToPoll(c, k, i)) - Bit(Polled(e, i))
  {
    var rate := c.clients[i].refreshRate;
    ClientQueue.SweepVisits(c.clients, k.pc.rate);
    if k.pc.rate == rate {
      LaneStep(c.Lane(rate), k.pc.done, i);
    } else {
      assert c.clients[e.i].refreshRate == k.pc.rate;
    }
  }

  /** In an increasing lane that holds i, the cursor passes i exactly when it stands on it. */
  lemma LaneStep(lane: seq<int>, done: nat, i: nat)
    requires i in lane && done < |lane| && ClientQueue.Increasing(lane)
    ensures Bit(done + 1 < |lane| && lane[done + 1] <= i) == Bit(lane[done] <= i) - Bit(lane[done] == i)
  {
    var p :| 0 <= p < |lane| && lane[p] == i;
    if lane[done] < i {
      assert done + 1 <= p;
    }
  }
}
