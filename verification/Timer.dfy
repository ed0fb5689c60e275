/** The 100 ms timer signal (timer.c). */
module Timer {
  import opened Types

  const TIMER_1S := 10
  const TIMER_1M := TIMER_1S * 60

  /** The counter and the flags (t_period) the handler shares with the main loop. */
  datatype TimerState = TimerState(counter: int, period100ms: bool, period1s: bool, period1m: bool) {

    predicate Flag(rate: RefreshRate) {
      match rate
      case Rate100ms => period100ms
      case Rate1s => period1s
      case Rate1m => period1m
    }

    function Cleared(rate: RefreshRate): TimerState {
      match rate
      case Rate100ms => this.(period100ms := false)
      case Rate1s => this.(period1s := false)
      case Rate1m => this.(period1m := false)
    }

    /** Whether the next tick raises a flag. */
    predicate Raises(rate: RefreshRate) {
      match rate
      case Rate100ms => true
      case Rate1s => (counter + 1) % TIMER_1S == 0
      case Rate1m => counter + 1 == TIMER_1M
    }

    function Ticked(): TimerState {
      TimerState(if Raises(Rate1m) then 0 else counter + 1,
                 true, period1s || Raises(Rate1s), period1m || Raises(Rate1m))
    }
  }

  const STOPPED := TimerState(0, false, false, false)

  class SignalTimer {
    var counter: int
    var period100ms: bool
    var period1s: bool
    var period1m: bool

    constructor ()
      ensures State() == STOPPED
    {
      counter, period100ms, period1s, period1m := 0, false, false, false;
    }

    function State(): TimerState
      reads this
    {
      TimerState(counter, period100ms, period1s, period1m)
    }

    method Handler100ms()
      modifies this
      ensures State() == old(State()).Ticked()
      ensures counter == if old(counter) + 1 == 600 then 0 else old(counter) + 1
      ensures period100ms
      ensures period1s <==> old(period1s) || (old(counter) + 1) % 10 == 0
      ensures period1m <==> old(period1m) || old(counter) + 1 == 600
    {
      period100ms := true;
      counter := counter + 1;
      if counter % TIMER_1S == 0 {
        period1s := true;
      }
      if counter == TIMER_1M {
        period1m := true;
        counter := 0;
      }
    }

    method Clear(rate: RefreshRate)
      modifies this
      ensures State() == old(State()).Cleared(rate)
    {
      match rate {
        case Rate100ms => period100ms := false;
        case Rate1s => period1s := false;
        case Rate1m => period1m := false;
      }
    }
  }
}
