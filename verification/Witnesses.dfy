/** Runs of the program that show where its promises end: each is a configuration the program accepts and a trace
    of the machine, and belongs to a condition proved exact elsewhere. */
module Witnesses {
  import opened CInts
  import opened Types
  import opened Timer
  import opened Machine
  import opened EndToEnd
  import opened Freshness
  import opened Json
  import opened Snapshot
  import Runs = ClientRuns
  import Cumulated = CumulatedRuns

  // ---------- building traces ----------

  /** One more event that is possible where the trace leads. */
  lemma Next(c: Config, tr: Trace, k: Control, e: Event)
    requires ControlAfter(c, tr) == Some(k) && Enabled(c, k, e)
    ensures Legal(c, Then(tr, e)) && ControlAfter(c, Then(tr, e)) == Some(Steer(c, k, e))
  {
  }

  /** An answer of the right type for each client, or none. */
  predicate Answers(c: Config, polls: seq<Option<ClientData>>) {
    && |polls| == |c.clients|
    && forall i :: 0 <= i < |polls| && polls[i].Some? ==> polls[i].value.dataType == c.clients[i].dataType
  }

  function InitPoll(i: nat, answer: Option<ClientData>): Event {
    match answer
    case None => InitSilent(i)
    case Some(d) => InitAnswered(i, d)
  }

  /** The INIT pass over the first n clients. */
  function InitPass(polls: seq<Option<ClientData>>, n: nat): Trace
    requires n <= |polls|
  {
    if n == 0 then Then(Empty, Prepared(0)) else Then(InitPass(polls, n - 1), InitPoll(n - 1, polls[n - 1]))
  }

  lemma {:induction false} InitPassControl(c: Config, polls: seq<Option<ClientData>>, n: nat)
    requires Answers(c, polls) && n <= |polls| && |polls| > 0
    ensures ControlAfter(c, InitPass(polls, n)) ==
            Some(Control(if n == |polls| then Sending else Surveying(n), STOPPED, c.interval, false))
  {
    if n == 0 {
      assert ControlAfter(c, Empty) == Some(POWER_ON);
      Next(c, Empty, POWER_ON, Prepared(0));
    } else {
      InitPassControl(c, polls, n - 1);
      var before := Control(Surveying(n - 1), STOPPED, c.interval, false);
      Next(c, InitPass(polls, n - 1), before, InitPoll(n - 1, polls[n - 1]));
    }
  }

  /** The shortest run that sends: the INIT pass and the snapshot it always ends with. */
  function FirstSnapshot(polls: seq<Option<ClientData>>, accepted: bool): Trace {
    Then(InitPass(polls, |polls|), Sent(0, accepted))
  }

  lemma FirstSnapshotControl(c: Config, polls: seq<Option<ClientData>>, accepted: bool)
    requires Answers(c, polls) && |polls| > 0
    ensures Legal(c, FirstSnapshot(polls, accepted))
    ensures ControlAfter(c, FirstSnapshot(polls, accepted)) ==
            Some(Control(Checking(Rate100ms), STOPPED, c.interval, false))
  {
    InitPassControl(c, polls, |polls|);
    Next(c, InitPass(polls, |polls|), Control(Sending, STOPPED, c.interval, false), Sent(0, accepted));
  }

  lemma {:induction false} InitPassHistory(polls: seq<Option<ClientData>>, n: nat, i: nat)
    requires n <= |polls| && i < |polls|
    ensures History(InitPass(polls, n), i) ==
            if i >= n then Empty
            else Then(Empty, if polls[i].Some? then Runs.Read(polls[i].value) else Runs.InitMissed)
  {
    if n == 0 {
      assert History(Empty, i) == Empty;
    } else {
      InitPassHistory(polls, n - 1, i);
    }
  }

  // ---------- a count that is never multiplied ----------

  function OneClient(w: LongWidth, client: ClientSettings): Config {
    Config(w, 1, 1, [client])
  }

  function IntClientAt(rate: RefreshRate, counter: CounterType, computation: Computation): ClientSettings {
    ClientSettings("c", 0, rate, Modbus, Int, counter, computation, true, 2, false, "")
  }

  function IntClient(counter: CounterType, computation: Computation): ClientSettings {
    IntClientAt(Rate1m, counter, computation)
  }

  lemma OneClientValid(w: LongWidth, client: ClientSettings)
    requires ValidClient(client, 0)
    ensures OneClient(w, client).Valid()
  {
  }

  /** There is a run whose only INIT poll fails: 60 should be published, 1 is. */
  lemma UnmultipliedRun(w: LongWidth) returns (c: Config, tr: Trace)
    ensures c.Valid() && Legal(c, tr) && |c.clients| == 1 && SendsFresh(c, tr, 0) && !SendsScaled(c, tr, 0)
    ensures Measured(c, tr, 0) == 60 && PublishedSum(c, tr, 0) == 1
  {
    c, tr := OneClient(w, IntClient(CumulatedNot100, Mul60)), FirstSnapshot([None], true);
    OneClientValid(w, c.clients[0]);
    FirstSnapshotControl(c, [None], true);
    InitPassHistory([None], 1, 0);
    assert History(tr, 0) == Then(Then(Empty, Runs.InitMissed), Runs.Accepted);
    Runs.InitMissSkipsMultiplier(w, c.clients[0]);
    SumsProject(c, tr, 0);
  }

  // ---------- a swallowed update ----------

  function DwordClient(): ClientSettings {
    ClientSettings("c", 0, Rate100ms, Modbus, Dword, CounterType.Cumulated, NoComputation, true, 4, false, "")
  }

  function DwordReading(n: dword): ClientData {
    ZeroData(Dword).(dataDword := n)
  }

  /** A tick, and the sweep it starts answered with n. */
  function Swept(tr: Trace, n: dword): Trace {
    Then(Then(Then(Then(tr, Tick), Begun(Rate100ms)), Answered(0, DwordReading(n))), Ended(Rate100ms))
  }

  /** The two other flags are clear. */
  function RoundOver(tr: Trace): Trace {
    Then(Then(tr, Skipped(Rate1m)), Skipped(Rate1s))
  }

  lemma SweptControl(c: Config, tr: Trace, ticks: nat, n: dword)
    requires c.clients == [DwordClient()] && ticks < 8
    requires ControlAfter(c, tr) == Some(Control(Checking(Rate100ms), TimerState(ticks, false, false, false), 1, false))
    ensures Legal(c, Swept(tr, n))
    ensures ControlAfter(c, Swept(tr, n)) ==
            Some(Control(Checking(Rate1m), TimerState(ticks + 1, false, false, false), 1, false))
  {
    var raised := TimerState(ticks + 1, true, false, false);
    assert c.Lane(Rate100ms) == [0];
    Next(c, tr, Control(Checking(Rate100ms), TimerState(ticks, false, false, false), 1, false), Tick);
    var t1 := Then(tr, Tick);
    Next(c, t1, Control(Checking(Rate100ms), raised, 1, false), Begun(Rate100ms));
    var t2 := Then(t1, Begun(Rate100ms));
    Next(c, t2, Control(Sweeping(Rate100ms, 0), raised, 1, false), Answered(0, DwordReading(n)));
    var t3 := Then(t2, Answered(0, DwordReading(n)));
    Next(c, t3, Control(Sweeping(Rate100ms, 1), raised, 1, false), Ended(Rate100ms));
  }

  lemma RoundOverControl(c: Config, tr: Trace, timer: TimerState)
    requires !timer.period1m && !timer.period1s
    requires ControlAfter(c, tr) == Some(Control(Checking(Rate1m), timer, 1, false))
    ensures Legal(c, RoundOver(tr))
    ensures ControlAfter(c, RoundOver(tr)) == Some(Control(Checking(Rate100ms), timer, 1, false))
  {
    Next(c, tr, Control(Checking(Rate1m), timer, 1, false), Skipped(Rate1m));
    Next(c, Then(tr, Skipped(Rate1m)), Control(Checking(Rate1s), timer, 1, false), Skipped(Rate1s));
  }

  /** The meter reads 5 in the INIT pass, the first snapshot is refused, then it reads 4 and 10. */
  function SwallowingRun(): Trace {
    Swept(RoundOver(Swept(FirstSnapshot([Some(DwordReading(5))], false), 4)), 10)
  }

  /** There is a run on which a 32-bit `long` loses an update: the counter stands at 0, although the meter
      has moved from 5 to 10 since it was first read and no snapshot has been accepted. */
  lemma SwallowedRun() returns (c: Config, tr: Trace)
    ensures c.Valid() && Legal(c, tr) && |c.clients| == 1 && c.width == Long32 && !NothingSwallowed(c, tr, 0)
    ensures Cumulated.CumulatedDword(c.clients[0]) && Cumulated.NetChange(c.clients[0], History(tr, 0)) == 5
    ensures DataAfter(c, tr).counters[0].cumulated == 0
  {
    c, tr := OneClient(Long32, DwordClient()), SwallowingRun();
    var first := FirstSnapshot([Some(DwordReading(5))], false);
    OneClientValid(Long32, c.clients[0]);
    FirstSnapshotControl(c, [Some(DwordReading(5))], false);
    SweptControl(c, first, 0, 4);
    RoundOverControl(c, Swept(first, 4), TimerState(1, false, false, false));
    SweptControl(c, RoundOver(Swept(first, 4)), 1, 10);
    SwallowingHistory();
    SwallowedHistory(c, tr);
  }

  lemma SwallowedHistory(c: Config, tr: Trace)
    requires c == OneClient(Long32, DwordClient()) && Legal(c, tr) && History(tr, 0) == Readings5And4And10()
    ensures !NothingSwallowed(c, tr, 0) && DataAfter(c, tr).counters[0].cumulated == 0
    ensures Cumulated.NetChange(c.clients[0], History(tr, 0)) == 5
  {
    Cumulated.ThirtyTwoBitsLoseAnUpdate(c.clients[0], DwordReading(5), DwordReading(4), DwordReading(10));
    Projection(c, tr, 0);
    Cumulated.TelescopesExactly(Long32, c.clients[0], History(tr, 0));
    Cumulated.Telescoping32(c.clients[0], History(tr, 0));
  }

  function Readings5And4And10(): Runs.History {
    Then(Then(Then(Then(Empty, Runs.Read(DwordReading(5))), Runs.Refused), Runs.Read(DwordReading(4))),
         Runs.Read(DwordReading(10)))
  }

  lemma SwallowingHistory()
    ensures History(SwallowingRun(), 0) == Readings5And4And10()
  {
    var polls := [Some(DwordReading(5))];
    var first := FirstSnapshot(polls, false);
    InitPassHistory(polls, 1, 0);
    assert History(first, 0) == Then(Then(Empty, Runs.Read(DwordReading(5))), Runs.Refused);
    SweptHistory(first, 4);
    SweptHistory(RoundOver(Swept(first, 4)), 10);
  }

  lemma SweptHistory(tr: Trace, n: dword)
    ensures History(Swept(tr, n), 0) == Then(History(tr, 0), Runs.Read(DwordReading(n)))
    ensures History(RoundOver(tr), 0) == History(tr, 0)
  {
    var t1 := Then(tr, Tick);
    var t2 := Then(t1, Begun(Rate100ms));
    assert History(t2, 0) == History(t1, 0) == History(tr, 0);
    assert History(Then(tr, Skipped(Rate1m)), 0) == History(tr, 0);
  }

  // ---------- a stale send ----------

  function WithTicks(tr: Trace, n: nat): Trace {
    if n == 0 then tr else Then(WithTicks(tr, n - 1), Tick)
  }

  lemma {:induction false} TicksControl(c: Config, tr: Trace, k: Control, n: nat)
    requires n < TIMER_1M && ControlAfter(c, tr) == Some(k) && k.timer.counter == 0
    ensures ControlAfter(c, WithTicks(tr, n)).Some?
    ensures var t := ControlAfter(c, WithTicks(tr, n)).value.timer;
            ControlAfter(c, WithTicks(tr, n)).value == k.(timer := t) && t.counter == n
  {
    if n > 0 {
      TicksControl(c, tr, k, n - 1);
    }
  }

  /** After a minute of ticks without a sweep all three flags are up. */
  lemma MinuteControl(c: Config, tr: Trace, k: Control)
    requires ControlAfter(c, tr) == Some(k) && k.timer.counter == 0
    ensures ControlAfter(c, WithTicks(tr, TIMER_1M)) == Some(k.(timer := TimerState(0, true, true, true)))
  {
    TicksControl(c, tr, k, TIMER_1M - 1);
    var before := ControlAfter(c, WithTicks(tr, TIMER_1M - 1)).value;
    Next(c, WithTicks(tr, TIMER_1M - 1), before, Tick);
  }

  lemma {:induction false} TicksHistory(tr: Trace, n: nat, i: nat)
    ensures History(WithTicks(tr, n), i) == History(tr, i)
  {
    if n > 0 {
      TicksHistory(tr, n - 1, i);
    }
  }

  /** The minute passes, the minute sweep polls the client, the snapshot falls due and is accepted. */
  function MinuteLater(tr: Trace, poll: Event): Trace {
    var t1 := Then(Then(WithTicks(tr, TIMER_1M), Begun(Rate100ms)), Ended(Rate100ms));
    var t2 := Then(Then(Then(t1, Begun(Rate1m)), poll), Ended(Rate1m));
    Then(Then(Then(t2, Begun(Rate1s)), Ended(Rate1s)), Sent(0, true))
  }

  lemma EmptySweep(c: Config, tr: Trace, k: Control, rate: RefreshRate)
    requires ControlAfter(c, tr) == Some(k) && k.pc == Checking(rate) && k.timer.Flag(rate) && c.Lane(rate) == []
    requires !rate.Rate1m?
    ensures ControlAfter(c, Then(Then(tr, Begun(rate)), Ended(rate))) ==
            Some(k.(pc := AfterCheck(rate, k.sendDue), timer := k.timer.Cleared(rate)))
  {
    Next(c, tr, k, Begun(rate));
    Next(c, Then(tr, Begun(rate)), k.(pc := Sweeping(rate, 0)), Ended(rate));
  }

  lemma MinuteSweep(c: Config, tr: Trace, timer: TimerState, poll: Event)
    requires c.Lane(Rate1m) == [0] && |c.clients| == 1 && c.interval == 1 && timer.period1m
    requires poll == Silent(0) || (poll.Answered? && poll.i == 0 && poll.d.dataType == c.clients[0].dataType)
    requires ControlAfter(c, tr) == Some(Control(Checking(Rate1m), timer, 1, false))
    ensures ControlAfter(c, Then(Then(Then(tr, Begun(Rate1m)), poll), Ended(Rate1m))) ==
            Some(Control(Checking(Rate1s), timer.Cleared(Rate1m), 1, true))
  {
    Next(c, tr, Control(Checking(Rate1m), timer, 1, false), Begun(Rate1m));
    var t1 := Then(tr, Begun(Rate1m));
    Next(c, t1, Control(Sweeping(Rate1m, 0), timer, 1, true), poll);
    Next(c, Then(t1, poll), Control(Sweeping(Rate1m, 1), timer, 1, true), Ended(Rate1m));
  }

  lemma MinuteLaterControl(c: Config, tr: Trace, poll: Event)
    requires c.Lane(Rate100ms) == c.Lane(Rate1s) == [] && c.Lane(Rate1m) == [0] && |c.clients| == 1 && c.interval == 1
    requires poll == Silent(0) || (poll.Answered? && poll.i == 0 && poll.d.dataType == c.clients[0].dataType)
    requires ControlAfter(c, tr) == Some(Control(Checking(Rate100ms), STOPPED, 1, false))
    ensures Legal(c, MinuteLater(tr, poll))
  {
    var k := Control(Checking(Rate100ms), STOPPED, 1, false);
    MinuteControl(c, tr, k);
    var t0 := WithTicks(tr, TIMER_1M);
    EmptySweep(c, t0, k.(timer := TimerState(0, true, true, true)), Rate100ms);
    var t1 := Then(Then(t0, Begun(Rate100ms)), Ended(Rate100ms));
    MinuteSweep(c, t1, TimerState(0, false, true, true), poll);
    var t2 := Then(Then(Then(t1, Begun(Rate1m)), poll), Ended(Rate1m));
    EmptySweep(c, t2, Control(Checking(Rate1s), TimerState(0, false, true, false), 1, true), Rate1s);
    var t3 := Then(Then(t2, Begun(Rate1s)), Ended(Rate1s));
    Next(c, t3, Control(Sending, TimerState(0, false, false, false), 1, true), Sent(0, true));
  }

  lemma MinuteLaterHistory(tr: Trace, poll: Event)
    requires Seen(poll, 0).Some?
    ensures History(MinuteLater(tr, poll), 0) == Then(Then(History(tr, 0), Seen(poll, 0).value), Runs.Accepted)
  {
    var t0 := WithTicks(tr, TIMER_1M);
    TicksHistory(tr, TIMER_1M, 0);
    var t1 := Then(Then(t0, Begun(Rate100ms)), Ended(Rate100ms));
    assert History(Then(t0, Begun(Rate100ms)), 0) == History(t0, 0);
    assert History(t1, 0) == History(t0, 0);
    var t2 := Then(Then(t1, Begun(Rate1m)), poll);
    assert History(Then(t1, Begun(Rate1m)), 0) == History(t1, 0);
    assert History(t2, 0) == Then(History(t0, 0), Seen(poll, 0).value);
    var t3 := Then(Then(t2, Ended(Rate1m)), Begun(Rate1s));
    assert History(Then(t2, Ended(Rate1m)), 0) == History(t2, 0);
    assert History(t3, 0) == History(t2, 0);
    assert History(Then(t3, Ended(Rate1s)), 0) == History(t3, 0);
  }

  function Five(): ClientData {
    ZeroData(Int).(dataInt := 5)
  }

  /** A meter that reads 5 in the INIT pass and, if it is polled, a minute later; both snapshots are accepted. */
  function TwoSnapshots(poll: Event): Trace {
    MinuteLater(FirstSnapshot([Some(Five())], true), poll)
  }

  function Second(e: Runs.ClientEvent): Runs.History {
    Then(Then(Then(Then(Empty, Runs.Read(Five())), Runs.Accepted), e), Runs.Accepted)
  }

  lemma TwoSnapshotsRun(c: Config, poll: Event)
    requires c == OneClient(c.width, IntClient(Difference, NoComputation))
    requires poll == Silent(0) || poll == Answered(0, Five())
    ensures c.Valid() && Legal(c, TwoSnapshots(poll))
    ensures History(TwoSnapshots(poll), 0) ==
            Second(if poll.Silent? then Runs.Missed else Runs.Read(Five()))
  {
    var first := FirstSnapshot([Some(Five())], true);
    OneClientValid(c.width, c.clients[0]);
    FirstSnapshotControl(c, [Some(Five())], true);
    InitPassHistory([Some(Five())], 1, 0);
    MinuteLaterControl(c, first, poll);
    MinuteLaterHistory(first, poll);
    assert History(first, 0) == Then(Then(Empty, Runs.Read(Five())), Runs.Accepted);
  }

  /** The two runs, the second with the second poll lost. */
  lemma PolledOrNot(w: LongWidth) returns (c: Config, tr: Trace, lossy: Trace)
    ensures c == OneClient(w, IntClient(Difference, NoComputation))
    ensures c.Valid() && Legal(c, tr) && Legal(c, lossy) && Lossier(lossy, tr)
    ensures History(tr, 0) == Second(Runs.Read(Five())) && History(lossy, 0) == Second(Runs.Missed)
  {
    c := OneClient(w, IntClient(Difference, NoComputation));
    tr, lossy := TwoSnapshots(Answered(0, Five())), TwoSnapshots(Silent(0));
    TwoSnapshotsRun(c, Answered(0, Five()));
    TwoSnapshotsRun(c, Silent(0));
    OnePollLost(FirstSnapshot([Some(Five())], true), Five());
  }

  /** There is a run in which a second accepted send without a poll publishes the same increase again:
      10 instead of 5. */
  lemma StaleRun(w: LongWidth) returns (c: Config, tr: Trace)
    ensures c.Valid() && Legal(c, tr) && |c.clients| == 1 && !SendsFresh(c, tr, 0)
    ensures Measured(c, tr, 0) == 5 && PublishedSum(c, tr, 0) == 10
  {
    var polled;
    c, polled, tr := PolledOrNot(w);
    Runs.StaleSendCountsTwice(w, c.clients[0], Five());
    SumsProject(c, tr, 0);
  }

  /** There are two runs that differ in one lost poll, and the one that lost it reports more: 10 instead of 5. */
  lemma LostPollRun(w: LongWidth) returns (c: Config, tr: Trace, lossy: Trace)
    ensures c.Valid() && Legal(c, tr) && Legal(c, lossy) && Lossier(lossy, tr) && |c.clients| == 1
    ensures SendsFresh(c, tr, 0) && Reported(c, tr, 0) == 5 && Reported(c, lossy, 0) == 10
  {
    c, tr, lossy := PolledOrNot(w);
    Runs.LostPollReportsMore(w, c.clients[0], Five());
    HistoryLegal(c, tr, 0);
    HistoryLegal(c, lossy, 0);
    ReportProjects(c, tr, 0);
    ReportProjects(c, lossy, 0);
  }

  lemma {:induction false} LossierThanItself(tr: Trace)
    ensures Lossier(tr, tr)
  {
    if !tr.Empty? {
      LossierThanItself(tr.earlier);
    }
  }

  lemma LossierStep(lossy: Trace, tr: Trace, e: Event, e': Event)
    requires Lossier(lossy, tr) && LostOrSame(e, e')
    ensures Lossier(Then(lossy, e), Then(tr, e'))
  {
  }

  lemma OnePollLost(tr: Trace, d: ClientData)
    ensures Lossier(MinuteLater(tr, Silent(0)), MinuteLater(tr, Answered(0, d)))
  {
    var t1 := Then(Then(WithTicks(tr, TIMER_1M), Begun(Rate100ms)), Ended(Rate100ms));
    var t2 := Then(t1, Begun(Rate1m));
    var a, b := Then(t2, Silent(0)), Then(t2, Answered(0, d));
    LossierThanItself(t2);
    LossierStep(t2, t2, Silent(0), Answered(0, d));
    LossierStep(a, b, Ended(Rate1m), Ended(Rate1m));
    var a1, b1 := Then(a, Ended(Rate1m)), Then(b, Ended(Rate1m));
    LossierStep(a1, b1, Begun(Rate1s), Begun(Rate1s));
    var a2, b2 := Then(a1, Begun(Rate1s)), Then(b1, Begun(Rate1s));
    LossierStep(a2, b2, Ended(Rate1s), Ended(Rate1s));
    LossierStep(Then(a2, Ended(Rate1s)), Then(b2, Ended(Rate1s)), Sent(0, true), Sent(0, true));
  }

  // ---------- stale sends with no poll lost ----------

  /** Where a trace leads, client 0's history in it, and that none of its polls failed. */
  predicate Reaches(c: Config, tr: Trace, k: Control, h: Runs.History) {
    ControlAfter(c, tr) == Some(k) && History(tr, 0) == h && NoPollLost(tr, 0)
  }

  lemma Advance(c: Config, tr: Trace, k: Control, h: Runs.History, e: Event)
    requires Reaches(c, tr, k, h) && Enabled(c, k, e) && e != Silent(0)
    ensures Legal(c, Then(tr, e))
    ensures Reaches(c, Then(tr, e), Steer(c, k, e), if Seen(e, 0).None? then h else Then(h, Seen(e, 0).value))
  {
  }

  lemma {:induction false} TicksLoseNothing(tr: Trace, n: nat)
    requires NoPollLost(tr, 0)
    ensures NoPollLost(WithTicks(tr, n), 0)
  {
    if n > 0 {
      TicksLoseNothing(tr, n - 1);
    }
  }

  lemma MinutePasses(c: Config, tr: Trace, k: Control, h: Runs.History)
    requires Reaches(c, tr, k, h) && k.timer.counter == 0
    ensures Reaches(c, WithTicks(tr, TIMER_1M), k.(timer := TimerState(0, true, true, true)), h)
  {
    MinuteControl(c, tr, k);
    TicksHistory(tr, TIMER_1M, 0);
    TicksLoseNothing(tr, TIMER_1M);
  }

  lemma {:induction false} InitPassLosesNothing(polls: seq<Option<ClientData>>, n: nat)
    requires n <= |polls|
    ensures NoPollLost(InitPass(polls, n), 0)
  {
    if n == 0 {
      assert NoPollLost(Empty, 0);
    } else {
      InitPassLosesNothing(polls, n - 1);
    }
  }

  /** An INT "difference" client that reads 5 in the INIT pass, and its first accepted snapshot. */
  lemma FirstFive(c: Config, rate: RefreshRate) returns (tr: Trace)
    requires c == OneClient(c.width, IntClientAt(rate, Difference, NoComputation))
    ensures c.Valid()
    ensures Reaches(c, tr, Control(Checking(Rate100ms), STOPPED, 1, false),
                    Then(Then(Empty, Runs.Read(Five())), Runs.Accepted))
  {
    tr := FirstSnapshot([Some(Five())], true);
    OneClientValid(c.width, c.clients[0]);
    FirstSnapshotControl(c, [Some(Five())], true);
    InitPassHistory([Some(Five())], 1, 0);
    InitPassLosesNothing([Some(Five())], 1);
  }

  /** A sweep without clients. */
  lemma SweepNobody(c: Config, tr: Trace, k: Control, h: Runs.History, rate: RefreshRate) returns (tr': Trace)
    requires Reaches(c, tr, k, h) && k.pc == Checking(rate) && k.timer.Flag(rate) && c.Lane(rate) == []
    requires c.interval == 1 == k.minutesLeft
    ensures var due := k.sendDue || rate.Rate1m?;
            Reaches(c, tr', Control(AfterCheck(rate, due), k.timer.Cleared(rate), 1, due), h)
  {
    Advance(c, tr, k, h, Begun(rate));
    tr' := Then(tr, Begun(rate));
    Advance(c, tr', Control(Sweeping(rate, 0), k.timer, 1, k.sendDue || rate.Rate1m?), h, Ended(rate));
    tr' := Then(tr', Ended(rate));
  }

  /** From the test of the minute flag to the test of the second flag, a minute after the last send. */
  lemma NextMinute(c: Config, tr: Trace, h: Runs.History) returns (tr': Trace)
    requires c.Lane(Rate1m) == [] && c.interval == 1
    requires Reaches(c, tr, Control(Checking(Rate100ms), STOPPED, 1, false), h)
    ensures Reaches(c, tr', Control(Checking(Rate1s), TimerState(0, true, true, false), 1, true), h)
  {
    Advance(c, tr, Control(Checking(Rate100ms), STOPPED, 1, false), h, Skipped(Rate100ms));
    tr' := Then(tr, Skipped(Rate100ms));
    MinutePasses(c, tr', Control(Checking(Rate1m), STOPPED, 1, false), h);
    tr' := WithTicks(tr', TIMER_1M);
    tr' := SweepNobody(c, tr', Control(Checking(Rate1m), TimerState(0, true, true, true), 1, false), h, Rate1m);
  }

  /** There is a run in which a 100 ms client is never asked between two accepted sends although no poll is lost:
      the minute passes between the test of its flag and that of the minute flag. */
  lemma StaleTenthRun(w: LongWidth) returns (c: Config, tr: Trace)
    ensures c.Valid() && Legal(c, tr) && |c.clients| == 1 && c.clients[0].refreshRate.Rate100ms? && c.interval == 1
    ensures NoPollLost(tr, 0) && !SendsFresh(c, tr, 0)
    ensures Measured(c, tr, 0) == 5 && PublishedSum(c, tr, 0) == 10
  {
    c := OneClient(w, IntClientAt(Rate100ms, Difference, NoComputation));
    var h := Then(Then(Empty, Runs.Read(Five())), Runs.Accepted);
    assert c.Lane(Rate1m) == [] && c.Lane(Rate1s) == [];
    tr := FirstFive(c, Rate100ms);
    tr := NextMinute(c, tr, h);
    tr := SweepNobody(c, tr, Control(Checking(Rate1s), TimerState(0, true, true, false), 1, true), h, Rate1s);
    Advance(c, tr, Control(Sending, TimerState(0, true, false, false), 1, true), h, Sent(0, true));
    tr := Then(tr, Sent(0, true));
    Runs.SentOnce(w, c.clients[0], Five());
    Runs.SentAgain(w, c.clients[0], h);
    SumsProject(c, tr, 0);
  }

  function Ten(): ClientData {
    ZeroData(Int).(dataInt := 10)
  }

  /** The round that sends what the second sweep has just read, while another minute passes. */
  lemma SecondSweepSends(c: Config, tr: Trace, h: Runs.History) returns (tr': Trace)
    requires c == OneClient(c.width, IntClientAt(Rate1s, Difference, NoComputation))
    requires Reaches(c, tr, Control(Checking(Rate1s), TimerState(0, true, true, false), 1, true), h)
    ensures Reaches(c, tr', Control(Checking(Rate100ms), TimerState(0, true, false, true), 1, false),
                    Then(Then(h, Runs.Read(Ten())), Runs.Accepted))
  {
    var raised := TimerState(0, true, true, true);
    assert c.Lane(Rate1s) == [0];
    MinutePasses(c, tr, Control(Checking(Rate1s), TimerState(0, true, true, false), 1, true), h);
    tr' := WithTicks(tr, TIMER_1M);
    Advance(c, tr', Control(Checking(Rate1s), raised, 1, true), h, Begun(Rate1s));
    tr' := Then(tr', Begun(Rate1s));
    Advance(c, tr', Control(Sweeping(Rate1s, 0), raised, 1, true), h, Answered(0, Ten()));
    tr' := Then(tr', Answered(0, Ten()));
    var h' := Then(h, Runs.Read(Ten()));
    Advance(c, tr', Control(Sweeping(Rate1s, 1), raised, 1, true), h', Ended(Rate1s));
    tr' := Then(tr', Ended(Rate1s));
    Advance(c, tr', Control(Sending, TimerState(0, true, false, true), 1, true), h', Sent(0, true));
    tr' := Then(tr', Sent(0, true));
  }

  /** The next round: the minute flag is up again, the second flag is not. */
  lemma SendsAgainAtOnce(c: Config, tr: Trace, h: Runs.History) returns (tr': Trace)
    requires c == OneClient(c.width, IntClientAt(Rate1s, Difference, NoComputation))
    requires Reaches(c, tr, Control(Checking(Rate100ms), TimerState(0, true, false, true), 1, false), h)
    ensures Legal(c, tr') && History(tr', 0) == Then(h, Runs.Accepted) && NoPollLost(tr', 0)
  {
    assert c.Lane(Rate100ms) == [] && c.Lane(Rate1m) == [];
    tr' := SweepNobody(c, tr, Control(Checking(Rate100ms), TimerState(0, true, false, true), 1, false), h, Rate100ms);
    tr' := SweepNobody(c, tr', Control(Checking(Rate1m), TimerState(0, false, false, true), 1, false), h, Rate1m);
    Advance(c, tr', Control(Checking(Rate1s), STOPPED, 1, true), h, Skipped(Rate1s));
    tr' := Then(tr', Skipped(Rate1s));
    Advance(c, tr', Control(Sending, STOPPED, 1, true), h, Sent(0, true));
    tr' := Then(tr', Sent(0, true));
  }

  /** There is such a run for a second client too: two minutes pass in one round, and the sweep before the first
      of two sends takes down the flag that the second minute has raised. */
  lemma StaleSecondRun(w: LongWidth) returns (c: Config, tr: Trace)
    ensures c.Valid() && Legal(c, tr) && |c.clients| == 1 && c.clients[0].refreshRate.Rate1s? && c.interval == 1
    ensures NoPollLost(tr, 0) && !SendsFresh(c, tr, 0)
    ensures Measured(c, tr, 0) == 10 && PublishedSum(c, tr, 0) == 15
  {
    c := OneClient(w, IntClientAt(Rate1s, Difference, NoComputation));
    var h := Then(Then(Empty, Runs.Read(Five())), Runs.Accepted);
    var h' := Then(Then(h, Runs.Read(Ten())), Runs.Accepted);
    assert c.Lane(Rate1m) == [];
    tr := FirstFive(c, Rate1s);
    tr := NextMinute(c, tr, h);
    tr := SecondSweepSends(c, tr, h);
    tr := SendsAgainAtOnce(c, tr, h');
    Runs.SentTwice(w, c.clients[0], Five(), Ten());
    Runs.SentAgain(w, c.clients[0], h');
    SumsProject(c, tr, 0);
  }

  // ---------- snapshots that do not fit ----------

  function Letters(c: char, n: nat): (s: string)
    ensures |s| == n && (Unescaped(c) ==> Clean(s))
  {
    seq(n, _ => c)
  }

  function SameClient(i: nat, protocol: Protocol, t: DataType, nameLength: nat): (c: ClientSettings)
    requires protocol == Opc || t == Int
    ensures |c.name| == nameLength && c.dataType == t && c.counter.NoCounter?
    ensures nameLength <= MAX_CLIENT_NAME_LEN ==> ValidClient(c, i)
  {
    ClientSettings(Letters('n', nameLength), i, Rate1s, protocol, t, NoCounter, NoComputation, true, 2, false, "node")
  }

  /** Clients of one kind with names of a given length. */
  function SameClients(count: nat, protocol: Protocol, t: DataType, nameLength: nat): (clients: seq<ClientSettings>)
    requires protocol == Opc || t == Int
    ensures |clients| == count
    ensures forall i :: 0 <= i < count ==> clients[i] == SameClient(i, protocol, t, nameLength)
  {
    seq(count, i requires i >= 0 => SameClient(i, protocol, t, nameLength))
  }

  function Silence(n: nat): (polls: seq<Option<ClientData>>)
    ensures |polls| == n
  {
    seq(n, _ => None)
  }

  /** A run of fifty INT clients with names of 80 characters up to its first snapshot. */
  lemma LongNamesRun() returns (c: Config, tr: Trace)
    ensures c.Valid() && PlainClients(c) && |c.clients| == 50
    ensures forall i :: 0 <= i < |c.clients| ==> |c.clients[i].name| == MAX_CLIENT_NAME_LEN
    ensures Legal(c, tr) && tr.Then? && tr.last == Sent(0, true)
  {
    c := Config(Long64, 50, 1, SameClients(50, Modbus, Int, MAX_CLIENT_NAME_LEN));
    tr := FirstSnapshot(Silence(50), true);
    FirstSnapshotControl(c, Silence(50), true);
  }

  /** There is a gateway the configuration accepts, and a run of it, whose snapshot is published cut off
      and is no JSON object. */
  lemma CutOffRun(fmt: DoubleFormat) returns (c: Config, tr: Trace)
    ensures c.Valid() && Legal(c, tr) && tr.Then? && tr.last == Sent(0, true)
    ensures !Room(MAX_BUF, Members(fmt, FieldsSent(c, tr)))
    ensures !IsObject(Text(MAX_BUF, FieldsSent(c, tr), Members(fmt, FieldsSent(c, tr))))
  {
    c, tr := LongNamesRun();
    LongNamesCutOff(c, tr, fmt);
    SnapshotText(c, tr, fmt, MAX_BUF);
  }

  /** A run of eight double clients with names of 55 characters that all read x in the INIT pass. */
  ghost predicate BigDoubleRun(c: Config, tr: Trace, x: real) {
    && c.Valid() && |c.clients| == 8 && Legal(c, tr) && tr.Then? && tr.last == Sent(0, true)
    && forall i :: 0 <= i < 8 ==>
         && c.clients[i] == SameClient(i, Opc, Double, 55)
         && History(tr, i) == Then(Then(Empty, Runs.Read(DoubleReading(x))), Runs.Accepted)
  }

  function DoubleReading(x: real): ClientData {
    ZeroData(Double).(dataDouble := x)
  }

  function DoubleReadings(n: nat, x: real): (polls: seq<Option<ClientData>>)
    ensures |polls| == n
  {
    seq(n, _ => Some(DoubleReading(x)))
  }

  lemma BigDoubleHistory(x: real, i: nat)
    requires i < 8
    ensures History(FirstSnapshot(DoubleReadings(8, x), true), i) ==
            Then(Then(Empty, Runs.Read(DoubleReading(x))), Runs.Accepted)
  {
    InitPassHistory(DoubleReadings(8, x), 8, i);
  }

  lemma BigDoubleRunExists(x: real) returns (c: Config, tr: Trace)
    ensures BigDoubleRun(c, tr, x)
  {
    c, tr := Config(Long64, 8, 1, SameClients(8, Opc, Double, 55)), FirstSnapshot(DoubleReadings(8, x), true);
    FirstSnapshotControl(c, DoubleReadings(8, x), true);
    forall i | 0 <= i < 8
      ensures History(tr, i) == Then(Then(Empty, Runs.Read(DoubleReading(x))), Runs.Accepted)
    {
      BigDoubleHistory(x, i);
    }
  }

  /** The fields of such a run's snapshot. */
  predicate BigDoubleFields(data: seq<Slot>, x: real) {
    && |data| == 18 && DeviceSlots(data) && data[3].longData == 0
    && forall k :: 10 <= k < 18 ==> data[k].slotType.TsDouble? && data[k].doubleData == x && |AliasText(data[k])| == 55
  }

  /** Every client's slot holds the reading after its INIT poll. */
  lemma BigDoubleSlot(c: Config, tr: Trace, x: real, i: nat)
    requires BigDoubleRun(c, tr, x) && i < 8
    ensures var s := DataAfter(c, tr).slots[SF_CLIENT_POS + i];
            s.slotType == TsDouble && s.doubleData == x && |AliasText(s)| == 55
  {
    var d := DoubleReading(x);
    Projection(c, tr, i);
    assert Runs.LatestReading(c.clients[i], Then(Empty, Runs.Read(d))) == Some((d, true));
    assert c.clients[i].Factor() == 1.0;
    Runs.SlotShowsLatest(c.width, c.clients[i], History(tr, i));
  }

  lemma BigDoublesSent(c: Config, tr: Trace, x: real)
    requires BigDoubleRun(c, tr, x)
    ensures BigDoubleFields(FieldsSent(c, tr), x)
  {
    var data := FieldsSent(c, tr);
    DeviceFieldsStay(c, tr);
    TimeStamp(c, DataAfter(c, tr.earlier), tr.last);
    forall k | 10 <= k < 18
      ensures data[k].slotType.TsDouble? && data[k].doubleData == x && |AliasText(data[k])| == 55
    {
      BigDoubleSlot(c, tr, x, k - 10);
    }
  }

  /** Ten short lines, then eight of 377 characters: the last one runs over the end. */
  lemma EighthLineOverruns(ms: seq<string>)
    requires |ms| == 18
    requires forall k :: 0 <= k < 10 ==> 6 <= |ms[k]| + 1 <= 29
    requires forall k :: 10 <= k < 18 ==> |ms[k]| + 1 == 377
    ensures Overruns(MAX_BUF, ms, 17)
  {
    LinesAtMost(ms, 0, 10, 29);
    LinesAtMost(ms, 10, 17, 377);
    LinesAtLeast(ms, 0, 10, 6);
    LinesAtLeast(ms, 10, 18, 377);
  }

  lemma BigDoubleFieldsOverrun(fmt: DoubleFormat, data: seq<Slot>, x: real)
    requires BigDoubleFields(data, x) && ShortCoordinates(fmt, 20) && |fmt(x)| == 316
    ensures Overruns(MAX_BUF, Members(fmt, data), 17)
  {
    forall k | 0 <= k < 18
      ensures if k < 10 then 6 <= |Member(fmt, data[k])| + 1 <= 29 else |Member(fmt, data[k])| + 1 == 377
    {
      if k < 10 {
        DeviceLines(fmt, 20, data, k);
      } else {
        BoundedMembers(fmt, data[k]);
      }
    }
    EighthLineOverruns(Members(fmt, data));
  }

  /** There is a gateway of eight OPC double clients, and a run of it, for which the printer writes past the buffer.
      A double x of 10^308 or more prints in 316 characters. */
  lemma OverrunRun(fmt: DoubleFormat, x: real) returns (c: Config, tr: Trace)
    requires ShortCoordinates(fmt, 20) && |fmt(x)| == 316
    ensures c.Valid() && Legal(c, tr) && tr.Then? && tr.last == Sent(0, true) && |c.clients| == 8
    ensures Extent(MAX_BUF, FieldsSent(c, tr), Members(fmt, FieldsSent(c, tr))) > MAX_BUF
  {
    c, tr := BigDoubleRunExists(x);
    var data := FieldsSent(c, tr);
    BigDoublesSent(c, tr, x);
    BigDoubleFieldsOverrun(fmt, data, x);
    SnapshotsPrintable(c, tr);
    WritesStayInsideExactly(MAX_BUF, data, Members(fmt, data));
  }
}
