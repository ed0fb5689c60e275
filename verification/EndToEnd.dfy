/** What the gateway publishes over a whole run, client by client. */
module EndToEnd {
  import opened CInts
  import opened Types
  import opened Counters
  import opened Machine
  import Runs = ClientRuns
  import Cumulated = CumulatedRuns

  // ---------- projection ----------

  /** What one event of the machine is to client i. */
  function Seen(e: Event, i: nat): Option<Runs.ClientEvent> {
    match e
    case InitAnswered(j, d) => if i == j then Some(Runs.Read(d)) else None
    case InitSilent(j) => if i == j then Some(Runs.InitMissed) else None
    case Answered(j, d) => if i == j then Some(Runs.Read(d)) else None
    case Silent(j) => if i == j then Some(Runs.Missed) else None
    case Sent(_, accepted) => Some(if accepted then Runs.Accepted else Runs.Refused)
    case _ => None
  }

  /** Client i's own history. */
  function History(tr: Trace, i: nat): Runs.History {
    if tr.Empty? then Empty
    else match Seen(tr.last, i)
      case None => History(tr.earlier, i)
      case Some(e) => Then(History(tr.earlier, i), e)
  }

  /** Client i's part of the shared data. */
  function Part(c: Config, s: Data, i: nat): Runs.ClientState
    requires Shaped(c, s) && i < |c.clients|
  {
    Runs.ClientState(s.counters[i], s.slots[SF_CLIENT_POS + i])
  }

  lemma PartStep(c: Config, s: Data, e: Event, i: nat)
    requires Shaped(c, s) && i < |c.clients|
    ensures Part(c, Record(c, s, e), i) ==
            match Seen(e, i)
            case None => Part(c, s, i)
            case Some(ce) => Runs.Step(c.width, c.clients[i], Part(c, s, i), ce)
  {
    var prepared := WithStaticFields(s.slots);
    assert prepared[SF_CLIENT_POS + i] == prepared[SF_CLIENT_POS..][i] == s.slots[SF_CLIENT_POS..][i];
  }

  /** Interleaving: whatever the other clients do, each one's counter and slot are those of its own history alone. */
  lemma {:induction false} Projection(c: Config, tr: Trace, i: nat)
    requires c.Fits() && i < |c.clients|
    ensures Part(c, DataAfter(c, tr), i) == Runs.Run(c.width, c.clients[i], History(tr, i))
  {
    if !tr.Empty? {
      Projection(c, tr.earlier, i);
      PartStep(c, DataAfter(c, tr.earlier), tr.last, i);
    }
  }

  /** Whether the INIT pass has dealt with client i. */
  predicate Introduced(k: Control, i: nat) {
    !k.pc.Boot? && (k.pc.Surveying? ==> i < k.pc.next)
  }

  lemma IntroductionStep(c: Config, k: Control, e: Event, i: nat)
    requires Enabled(c, k, e) && i < |c.clients|
    ensures var k' := Steer(c, k, e);
            if Introduced(k, i) then
              && Introduced(k', i)
              && (Seen(e, i).Some? ==> !Seen(e, i).value.InitMissed?)
            else if Introduced(k', i) then Seen(e, i).Some? && Runs.IsReading(Seen(e, i).value)
            else Seen(e, i).None?
  {
  }

  /** Every client's history starts with its one reading in the INIT pass. */
  lemma {:induction false} HistoryLegal(c: Config, tr: Trace, i: nat)
    requires Legal(c, tr) && i < |c.clients|
    ensures Runs.Legal(History(tr, i))
    ensures History(tr, i).Empty? <==> !Introduced(At(c, tr), i)
  {
    if !tr.Empty? {
      HistoryLegal(c, tr.earlier, i);
      IntroductionStep(c, At(c, tr.earlier), tr.last, i);
    }
  }

  // ---------- conservation over whole runs ----------

  /** Sum of client i's numbers over the accepted snapshots of a run. */
  function PublishedSum(c: Config, tr: Trace, i: nat): int
    requires c.Fits() && i < |c.clients|
  {
    if tr.Empty? then 0
    else PublishedSum(c, tr.earlier, i) +
         if tr.last.Sent? && tr.last.accepted
         then SlotNumber(c.clients[i].dataType, DataAfter(c, tr).slots[SF_CLIENT_POS + i])
         else 0
  }

  /** What client i's counter still holds. */
  function Unpublished(c: Config, tr: Trace, i: nat): int
    requires c.Fits() && i < |c.clients|
  {
    c.clients[i].Scaled(CounterValue(c.clients[i], DataAfter(c, tr).counters[i]))
  }

  /** What client i has reported, or has still to report. */
  function Reported(c: Config, tr: Trace, i: nat): int
    requires c.Fits() && i < |c.clients|
  {
    PublishedSum(c, tr, i) + Unpublished(c, tr, i)
  }

  /** The part of the published sum that was sent without a poll of client i since the accepted send before. */
  function Republished(c: Config, tr: Trace, i: nat): int
    requires c.Fits() && i < |c.clients|
  {
    if tr.Empty? then 0
    else Republished(c, tr.earlier, i) +
         if tr.last.Sent? && tr.last.accepted && !PolledSinceAccept(tr.earlier, i)
         then SlotNumber(c.clients[i].dataType, DataAfter(c, tr).slots[SF_CLIENT_POS + i]) else 0
  }

  /** What client i's readings amount to. */
  function Measured(c: Config, tr: Trace, i: nat): int
    requires i < |c.clients|
  {
    c.clients[i].Scaled(Runs.Total(c.clients[i], History(tr, i)))
  }

  /** Every accepted send found client i polled since the previous accepted send, or its slot at 0. */
  predicate SendsFresh(c: Config, tr: Trace, i: nat)
    requires c.Fits() && i < |c.clients|
  {
    tr.Empty? ||
    (&& SendsFresh(c, tr.earlier, i)
     && (tr.last.Sent? && tr.last.accepted ==>
           || PolledSinceAccept(tr.earlier, i)
           || SlotNumber(c.clients[i].dataType, DataAfter(c, tr.earlier).slots[SF_CLIENT_POS + i]) == 0))
  }

  /** Client i was surveyed in the INIT pass, or answered in a sweep, since the last accepted send. */
  predicate PolledSinceAccept(tr: Trace, i: nat) {
    !tr.Empty? && !(tr.last.Sent? && tr.last.accepted) &&
    ((Seen(tr.last, i).Some? && Runs.IsReading(Seen(tr.last, i).value)) || PolledSinceAccept(tr.earlier, i))
  }

  lemma {:induction false} SumsProject(c: Config, tr: Trace, i: nat)
    requires c.Fits() && i < |c.clients|
    ensures PublishedSum(c, tr, i) == Runs.AcceptedSum(c.width, c.clients[i], History(tr, i))
    ensures Republished(c, tr, i) == Runs.StaleSum(c.width, c.clients[i], History(tr, i))
    ensures PolledSinceAccept(tr, i) <==> Runs.ReadSinceAccept(History(tr, i))
    ensures SendsFresh(c, tr, i) <==> Runs.AcceptsFresh(c.width, c.clients[i], History(tr, i))
  {
    if !tr.Empty? {
      SumsProject(c, tr.earlier, i);
      Projection(c, tr.earlier, i);
      PartStep(c, DataAfter(c, tr.earlier), tr.last, i);
    }
  }

  /** No scaled window of client i leaves the range of its slot. */
  predicate InRange(c: Config, tr: Trace, i: nat)
    requires i < |c.clients|
  {
    Runs.WindowsFit(c.width, c.clients[i], History(tr, i))
  }

  /** No accepted snapshot carried a count of client i that a failed INIT poll left unmultiplied. */
  predicate SendsScaled(c: Config, tr: Trace, i: nat)
    requires i < |c.clients|
  {
    Runs.AcceptsScaled(c.clients[i], History(tr, i))
  }

  /** What those snapshots fell short of. */
  function Understated(c: Config, tr: Trace, i: nat): int
    requires i < |c.clients|
  {
    Runs.Shortfall(c.clients[i], History(tr, i))
  }

  /** The report of a run is that of the client's own history. */
  lemma ReportProjects(c: Config, tr: Trace, i: nat)
    requires c.Fits() && Legal(c, tr) && i < |c.clients| && Introduced(At(c, tr), i)
    ensures Runs.Legal(History(tr, i)) && !History(tr, i).Empty?
    ensures Reported(c, tr, i) == Runs.Report(c.width, c.clients[i], History(tr, i))
    ensures Republished(c, tr, i) == Runs.StaleSum(c.width, c.clients[i], History(tr, i))
    ensures SendsFresh(c, tr, i) <==> Runs.AcceptsFresh(c.width, c.clients[i], History(tr, i))
  {
    HistoryLegal(c, tr, i);
    SumsProject(c, tr, i);
    Projection(c, tr, i);
  }

  /** The accounts of every run, whatever the interleaving, the failed polls and the refused sends. */
  lemma EndToEndAccounts(c: Config, tr: Trace, i: nat)
    requires c.Fits() && Legal(c, tr) && i < |c.clients| && Introduced(At(c, tr), i)
    requires Runs.Countable(c.clients[i]) && InRange(c, tr, i)
    ensures Reported(c, tr, i) == Measured(c, tr, i) + Republished(c, tr, i) - Understated(c, tr, i)
  {
    var h := History(tr, i);
    ReportProjects(c, tr, i);
    Runs.AcceptedPlusWindow(c.width, c.clients[i], h);
    Runs.CounterIsWindow(c.width, c.clients[i], h);
  }

  /** End-to-end conservation: the accepted snapshots and the counter add up to what the readings amount to
      if and only if every accepted send was fresh for the client; and, of fresh runs, if and only if none
      carried an unmultiplied count. */
  lemma EndToEndConservation(c: Config, tr: Trace, i: nat)
    requires c.Fits() && Legal(c, tr) && i < |c.clients| && Introduced(At(c, tr), i)
    requires Runs.Countable(c.clients[i]) && InRange(c, tr, i)
    ensures SendsScaled(c, tr, i) ==> (Reported(c, tr, i) == Measured(c, tr, i) <==> SendsFresh(c, tr, i))
    ensures SendsFresh(c, tr, i) ==> (Reported(c, tr, i) == Measured(c, tr, i) <==> SendsScaled(c, tr, i))
    ensures c.clients[i].counter.Difference? || c.clients[i].counter.Cumulated? ==> SendsScaled(c, tr, i)
  {
    ReportProjects(c, tr, i);
    if SendsScaled(c, tr, i) {
      Runs.Conservation(c.width, c.clients[i], History(tr, i));
    }
    if SendsFresh(c, tr, i) {
      Runs.ConservationOfFreshRuns(c.width, c.clients[i], History(tr, i));
    }
    if !c.clients[i].counter.CumulatedNot100? {
      Runs.AlwaysScaled(c.clients[i], History(tr, i));
    }
  }

  /** In particular they balance as long as the whole total is a number the slot can hold. */
  lemma SmallTotalsBalance(c: Config, tr: Trace, i: nat)
    requires c.Fits() && Legal(c, tr) && i < |c.clients| && Introduced(At(c, tr), i) && Runs.Countable(c.clients[i])
    requires SendsFresh(c, tr, i) && SendsScaled(c, tr, i)
    requires Measured(c, tr, i) <= if c.clients[i].dataType.Dword? && c.width.Long64? then 4294967295 else 2147483647
    ensures Reported(c, tr, i) == Measured(c, tr, i)
  {
    Runs.FitsAsAWhole(c.width, c.clients[i], History(tr, i));
    EndToEndConservation(c, tr, i);
  }

  /** No reading of client i found its "cumulated" counter back at -1, unless it added just 1. */
  predicate NothingSwallowed(c: Config, tr: Trace, i: nat)
    requires i < |c.clients|
  {
    Runs.NothingSwallowed(c.width, c.clients[i], History(tr, i))
  }

  /** The same accounts modulo 2^32 for every counter, whatever leaves whichever range. */
  lemma EndToEndConservationModulo(c: Config, tr: Trace, i: nat)
    requires c.Fits() && Legal(c, tr) && i < |c.clients| && Introduced(At(c, tr), i)
    requires Runs.Countable(c.clients[i]) && NothingSwallowed(c, tr, i)
    ensures Congruent(Reported(c, tr, i), Measured(c, tr, i) + Republished(c, tr, i) - Understated(c, tr, i))
    ensures SendsFresh(c, tr, i) && SendsScaled(c, tr, i) ==> Congruent(Reported(c, tr, i), Measured(c, tr, i))
  {
    var h := History(tr, i);
    ReportProjects(c, tr, i);
    Runs.ReportModulo(c.width, c.clients[i], h);
    if SendsFresh(c, tr, i) && SendsScaled(c, tr, i) {
      Runs.ConservationModulo(c.width, c.clients[i], h);
    }
  }

  /** "difference" and "cumulated_not_100" clients never meet the sentinel,
      nor does a counter that does not overflow. */
  lemma NothingSwallowedInRange(c: Config, tr: Trace, i: nat)
    requires c.Fits() && Legal(c, tr) && i < |c.clients| && Runs.Countable(c.clients[i])
    requires c.clients[i].counter.Cumulated? ==> Runs.AccumulatorFits(c.width, c.clients[i], History(tr, i))
    ensures NothingSwallowed(c, tr, i)
  {
    HistoryLegal(c, tr, i);
    Runs.FitsSwallowsNothing(c.width, c.clients[i], History(tr, i));
  }

  /** What a DWORD "cumulated" client publishes over a run: a slot polled since the last accepted send is the scaled
      net change of the meter since then, and all accepted snapshots together are its net change since the first
      reading, up to what stale sends published again and the change not yet sent (modulo 2^32). */
  lemma EndToEndNetChange(c: Config, tr: Trace, i: nat)
    requires c.Fits() && Legal(c, tr) && i < |c.clients| && Introduced(At(c, tr), i)
    requires Cumulated.CumulatedDword(c.clients[i]) && NothingSwallowed(c, tr, i)
    ensures PolledSinceAccept(tr, i) ==>
              Congruent(DataAfter(c, tr).slots[SF_CLIENT_POS + i].longData,
                        c.clients[i].Scaled(Cumulated.NetChange(c.clients[i], History(tr, i))))
    ensures Congruent(PublishedSum(c, tr, i) + c.clients[i].Scaled(Cumulated.NetChange(c.clients[i], History(tr, i))),
                      c.clients[i].Scaled(Cumulated.NetTotal(c.clients[i], History(tr, i))) + Republished(c, tr, i))
  {
    ReportProjects(c, tr, i);
    SumsProject(c, tr, i);
    Projection(c, tr, i);
    Cumulated.PublishesNetChange(c.width, c.clients[i], History(tr, i));
    if PolledSinceAccept(tr, i) {
      Cumulated.FreshSlotIsNet(c.width, c.clients[i], History(tr, i));
    }
  }

  // ---------- losing polls ----------

  /** The same run with some polls failing. */
  predicate Lossier(lossy: Trace, tr: Trace) {
    if tr.Empty? || lossy.Empty? then tr == lossy
    else Lossier(lossy.earlier, tr.earlier) && LostOrSame(lossy.last, tr.last)
  }

  predicate LostOrSame(lossy: Event, e: Event) {
    || lossy == e
    || (e.InitAnswered? && lossy == InitSilent(e.i))
    || (e.Answered? && lossy == Silent(e.i))
  }

  /** Failing polls do not change what the loop does next. */
  lemma {:induction false} LossyIsLegal(c: Config, lossy: Trace, tr: Trace)
    requires Legal(c, tr) && Lossier(lossy, tr)
    ensures Legal(c, lossy) && At(c, lossy) == At(c, tr)
  {
    if !tr.Empty? && !lossy.Empty? {
      LossyIsLegal(c, lossy.earlier, tr.earlier);
    }
  }

  lemma {:induction false} LossyHistory(c: Config, lossy: Trace, tr: Trace, i: nat)
    requires Legal(c, tr) && Lossier(lossy, tr) && i < |c.clients|
    ensures Runs.Lossier(History(lossy, i), History(tr, i))
    ensures History(lossy, i).Empty? <==> History(tr, i).Empty?
  {
    if !tr.Empty? && !lossy.Empty? {
      LossyHistory(c, lossy.earlier, tr.earlier, i);
      HistoryLegal(c, tr, i);
      HistoryLegal(c, tr.earlier, i);
    }
  }

  /** Losing any subset of the polls of a run leaves a possible run in which the readings of a "difference" client
      amount to no more. */
  lemma LossyRunsMeasureLess(c: Config, lossy: Trace, tr: Trace, i: nat)
    requires c.Fits() && Legal(c, tr) && Lossier(lossy, tr) && i < |c.clients| && c.clients[i].counter.Difference?
    ensures Legal(c, lossy)
    ensures Measured(c, lossy, i) <= Measured(c, tr, i)
  {
    LossyIsLegal(c, lossy, tr);
    LossyHistory(c, lossy, tr, i);
    Runs.LossyTotal(c.clients[i], History(lossy, i), History(tr, i));
    Runs.ScaledOrder(c.clients[i], Runs.Total(c.clients[i], History(lossy, i)),
                     Runs.Total(c.clients[i], History(tr, i)));
  }

  /** It reports no more either, but for what a lost poll makes it publish again: exactly when it does not. */
  lemma LossyRunsReportLess(c: Config, lossy: Trace, tr: Trace, i: nat)
    requires c.Fits() && Legal(c, tr) && Lossier(lossy, tr) && i < |c.clients| && Introduced(At(c, tr), i)
    requires c.clients[i].counter.Difference? && c.clients[i].Numeric()
    requires Measured(c, tr, i) <= Runs.SlotMax(c.width, c.clients[i])
    ensures Legal(c, lossy)
    ensures Reported(c, lossy, i) <= Reported(c, tr, i) + Republished(c, lossy, i)
    ensures Reported(c, lossy, i) <= Reported(c, tr, i) <==>
            Measured(c, lossy, i) + Republished(c, lossy, i) <= Measured(c, tr, i) + Republished(c, tr, i)
    ensures SendsFresh(c, lossy, i) ==> Reported(c, lossy, i) <= Reported(c, tr, i)
  {
    LossyIsLegal(c, lossy, tr);
    LossyHistory(c, lossy, tr, i);
    ReportProjects(c, lossy, i);
    ReportProjects(c, tr, i);
    Runs.LossyPollsReportLess(c.width, c.clients[i], History(lossy, i), History(tr, i));
  }

  // ---------- what a snapshot holds ----------

  /** Slots that must be printable: the device fields once prepared, a client's once introduced. */
  predicate Due(c: Config, k: Control, j: nat) {
    !k.pc.Boot? && (j >= SF_CLIENT_POS ==> j < SF_CLIENT_POS + |c.clients| && Introduced(k, j - SF_CLIENT_POS))
  }

  lemma DeviceSlotStep(c: Config, s: Data, k: Control, e: Event, j: nat)
    requires Shaped(c, s) && Enabled(c, k, e) && j < SF_CLIENT_POS
    requires Due(c, k, j) ==> s.slots[j].WellFormed()
    ensures Due(c, Steer(c, k, e), j) ==> Record(c, s, e).slots[j].WellFormed()
  {
  }

  lemma ClientSlotStep(c: Config, s: Data, k: Control, e: Event, i: nat)
    requires Shaped(c, s) && Enabled(c, k, e) && i < |c.clients|
    requires Introduced(k, i) ==> Part(c, s, i).slot.WellFormed()
    ensures Introduced(Steer(c, k, e), i) ==> Part(c, Record(c, s, e), i).slot.WellFormed()
  {
    PartStep(c, s, e, i);
    IntroductionStep(c, k, e, i);
  }

  lemma SlotStep(c: Config, s: Data, k: Control, e: Event, j: nat)
    requires Shaped(c, s) && Enabled(c, k, e) && j < SF_CLIENT_POS + |c.clients|
    requires Due(c, k, j) ==> s.slots[j].WellFormed()
    ensures Due(c, Steer(c, k, e), j) ==> Record(c, s, e).slots[j].WellFormed()
  {
    if j < SF_CLIENT_POS {
      DeviceSlotStep(c, s, k, e, j);
    } else {
      ClientSlotStep(c, s, k, e, j - SF_CLIENT_POS);
    }
  }

  lemma {:induction false} SlotsWellFormed(c: Config, tr: Trace, j: nat)
    requires c.Fits() && Legal(c, tr) && j < SF_CLIENT_POS + |c.clients| && Due(c, At(c, tr), j)
    ensures DataAfter(c, tr).slots[j].WellFormed()
  {
    if !tr.Empty? {
      if Due(c, At(c, tr.earlier), j) {
        SlotsWellFormed(c, tr.earlier, j);
      }
      SlotStep(c, DataAfter(c, tr.earlier), At(c, tr.earlier), tr.last, j);
    }
  }

  /** Every snapshot, from the first, names all its fields and gives them printable types,
      even if every poll has failed. */
  lemma SnapshotsPrintable(c: Config, tr: Trace)
    requires c.Fits() && Legal(c, tr) && !tr.Empty? && tr.last.Sent?
    ensures forall j :: 0 <= j < SF_CLIENT_POS + |c.clients| ==> DataAfter(c, tr).slots[j].WellFormed()
  {
    forall j | 0 <= j < SF_CLIENT_POS + |c.clients|
      ensures DataAfter(c, tr).slots[j].WellFormed()
    {
      SlotsWellFormed(c, tr, j);
    }
  }

  // ---------- the -1 sentinel ----------

  /** After the INIT pass no "cumulated" counter that does not overflow stands at -1 again: no update is swallowed,
      no reset meets the sentinel. */
  lemma SentinelGone(c: Config, tr: Trace, i: nat)
    requires c.Fits() && Legal(c, tr) && i < |c.clients| && Introduced(At(c, tr), i) && c.clients[i].counter.Cumulated?
    requires c.clients[i].Numeric() ==> Runs.AccumulatorFits(c.width, c.clients[i], History(tr, i))
    ensures DataAfter(c, tr).counters[i].cumulated >= 0
  {
    HistoryLegal(c, tr, i);
    Projection(c, tr, i);
    Cumulated.SentinelSafety(c.width, c.clients[i], History(tr, i));
  }
}
