/** When the order of the loop alone sees to it that no accepted send is stale: always for a client of the minute
    sweep, and for every client if the send interval is at least two minutes. Module Witnesses shows that faster
    clients can be stale with an interval of one minute. */
module Freshness {
  import opened CInts
  import opened Types
  import opened Timer
  import opened Machine
  import opened TickLaws
  import opened EndToEnd
  import Runs = ClientRuns

  /** No poll of client i in a sweep has failed. */
  predicate NoPollLost(tr: Trace, i: nat) {
    tr.Empty? || (tr.last != Silent(i) && NoPollLost(tr.earlier, i))
  }

  /** Whether client i has been polled since the last accepted send, after one more event. */
  predicate FreshAfter(polled: bool, e: Event, i: nat) {
    !(e.Sent? && e.accepted) && ((Seen(e, i).Some? && Runs.IsReading(Seen(e, i).value)) || polled)
  }

  /** The configurations that are safe for a client. */
  predicate FreshByDesign(c: Config, i: nat)
    requires i < |c.clients|
  {
    c.clients[i].refreshRate.Rate1m? || c.interval >= 2
  }

  // ---------- what the loop keeps whoever is fresh ----------

  /** Past the minute sweep of a round a minute flag was raised after the 100 ms sweep of that round. */
  predicate MinuteIsLate(k: Control) {
    k.pc.Boot? || k.pc.Surveying? || k.pc.Sending? || k.pc == Checking(Rate1s) || SweepRunning(k, Rate1s) ==>
      (k.timer.period1m ==> k.timer.period100ms)
  }

  /** A send that is due has just reloaded the countdown. */
  predicate JustReloaded(c: Config, k: Control) {
    k.pc.Surveying? || k.pc.Sending? || k.sendDue ==> k.minutesLeft == c.interval
  }

  predicate Orderly(c: Config, k: Control) {
    MinuteIsLate(k) && JustReloaded(c, k) && DueIsNear(k)
  }

  lemma OrderlyStep(c: Config, k: Control, e: Event)
    requires Enabled(c, k, e) && Orderly(c, k)
    ensures Orderly(c, Steer(c, k, e))
  {
    DueStep(c, k, e);
  }

  // ---------- what stands between a stale client and a send ----------

  /** A client of the minute sweep is polled by the very sweep that makes the send due. */
  predicate GuardedByMinute(c: Config, k: Control, i: nat)
    requires i < |c.clients|
  {
    k.sendDue || k.pc.Sending? ==> StillToPoll(c, k, i)
  }

  /** A second client is polled before a send is due, or by the sweep that follows the minute sweep. */
  predicate GuardedBySecond(c: Config, k: Control, i: nat)
    requires i < |c.clients|
  {
    && !k.pc.Sending?
    && (SweepRunning(k, Rate1s) ==> StillToPoll(c, k, i))
    && (if k.sendDue then
          k.timer.period1s && (SweepRunning(k, Rate1m) || k.pc == Checking(Rate1s) || SweepRunning(k, Rate1s))
        else
          k.minutesLeft == c.interval || SweepRunning(k, Rate1m) || (k.timer.period1m ==> k.timer.period1s))
  }

  /** A 100 ms client is polled at the start of the round after the first minute sweep at the latest. */
  predicate GuardedByTenth(c: Config, k: Control, i: nat)
    requires i < |c.clients|
  {
    && !k.pc.Sending? && !k.sendDue
    && (SweepRunning(k, Rate100ms) ==> StillToPoll(c, k, i))
    && (k.timer.period1m ==> k.timer.period100ms)
    && (k.minutesLeft == c.interval || (k.timer.period100ms && k.pc != Checking(Rate1m)))
  }

  /** And the INIT pass is over, since that polls every client. */
  predicate Guarded(c: Config, k: Control, i: nat)
    requires i < |c.clients|
  {
    !k.pc.Surveying? &&
    match c.clients[i].refreshRate
    case Rate1m => GuardedByMinute(c, k, i)
    case Rate1s => GuardedBySecond(c, k, i)
    case Rate100ms => GuardedByTenth(c, k, i)
  }

  /** Without a poll or an accepted send the guard stays up. */
  lemma GuardStep(c: Config, k: Control, e: Event, i: nat)
    requires Enabled(c, k, e) && i < |c.clients| && FreshByDesign(c, i) && Orderly(c, k) && Guarded(c, k, i)
    requires e != Silent(i) && Introduced(k, i) && !FreshAfter(false, e, i)
    ensures !e.Sent? && Guarded(c, Steer(c, k, e), i)
  {
    SweepStep(c, k, e, i);
  }

  /** An accepted send raises it. */
  lemma GuardRaised(c: Config, k: Control, e: Event, i: nat)
    requires Enabled(c, k, e) && i < |c.clients| && Orderly(c, k) && e.Sent?
    ensures Guarded(c, Steer(c, k, e), i)
  {
  }

  /** In every run in which no poll of the client fails, it is fresh or guarded. */
  lemma {:induction false} FreshOrGuarded(c: Config, tr: Trace, i: nat)
    requires c.Fits() && Legal(c, tr) && i < |c.clients| && FreshByDesign(c, i) && NoPollLost(tr, i)
    ensures Orderly(c, At(c, tr))
    ensures Introduced(At(c, tr), i) ==> PolledSinceAccept(tr, i) || Guarded(c, At(c, tr), i)
    ensures SendsFresh(c, tr, i)
  {
    if !tr.Empty? {
      var k, e := At(c, tr.earlier), tr.last;
      FreshOrGuarded(c, tr.earlier, i);
      OrderlyStep(c, k, e);
      IntroductionStep(c, k, e, i);
      if e.Sent? && e.accepted {
        GuardRaised(c, k, e, i);
      }
      if Introduced(k, i) && !PolledSinceAccept(tr.earlier, i) && !FreshAfter(false, e, i) {
        GuardStep(c, k, e, i);
      }
    }
  }

  /** Every accepted send is fresh for a client none of whose polls failed, if it belongs to the minute sweep
      or sends are at least two minutes apart; and then the accounts balance. */
  lemma SchedulerKeepsFresh(c: Config, tr: Trace, i: nat)
    requires c.Fits() && Legal(c, tr) && i < |c.clients| && FreshByDesign(c, i) && NoPollLost(tr, i)
    ensures SendsFresh(c, tr, i)
    ensures Introduced(At(c, tr), i) && Runs.Countable(c.clients[i]) && InRange(c, tr, i) && SendsScaled(c, tr, i) ==>
              Reported(c, tr, i) == Measured(c, tr, i)
  {
    FreshOrGuarded(c, tr, i);
    if Introduced(At(c, tr), i) && Runs.Countable(c.clients[i]) && InRange(c, tr, i) {
      EndToEndConservation(c, tr, i);
    }
  }
}
