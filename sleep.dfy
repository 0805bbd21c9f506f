/** The display-sleep state machine of keymap.c, as values: the stored
    activity timestamp and the display's power flag, the events that act on
    them, and what a run of events does. */
module DisplaySleep {
  import opened Timer

  /** `DISPLAY_TIMEOUT`: idle milliseconds before the display sleeps. */
  const DisplayTimeout: nat := 3000
  /** `DISPLAY_TIMEOUT_CHECK_FREQ`: period of the deferred sleep check. */
  const DisplayTimeoutCheckFreq: nat := 1000

  /** `display_sleep_timer` and the display's power flag. */
  datatype SleepState = SleepState(timer: Timer16, powered: bool)

  /** The handlers that act on the sleep state; `now` is the framework's
      millisecond clock when the handler runs. */
  datatype Event =
    | KeyEvent(now: nat)        // process_record_kb
    | SleepCheck(now: nat)      // display_sleep_check
    | SuspendPowerDown          // suspend_power_down_kb
    | SuspendWakeup             // suspend_wakeup_init_kb

  /** Whether the deferred check powers the display off at `now`. */
  predicate TimedOut(s: SleepState, now: nat)
  {
    Elapsed(s.timer, now) > DisplayTimeout
  }

  /** The sleep state after one handler.  Only key records and checks
      touch the timer; the display ends up on exactly after a key record, a
      wake-up, or a check that finds it on and not yet timed out. */
  function Step(s: SleepState, e: Event): (r: SleepState)
    ensures r.timer != s.timer ==> e.KeyEvent? || e.SleepCheck?
    ensures r.powered <==>
      e.KeyEvent? || e.SuspendWakeup? || (e.SleepCheck? && s.powered && !TimedOut(s, e.now))
  {
    match e
    case KeyEvent(now) => SleepState(TimerRead(now), true)
    case SleepCheck(now) => if TimedOut(s, now) then SleepState(TimerRead(now), false) else s
    case SuspendPowerDown => s.(powered := false)
    case SuspendWakeup => s.(powered := true)
  }

  /** The sleep state after a sequence of handlers, run in order. */
  function Run(s: SleepState, events: seq<Event>): SleepState
    decreases |events|
  {
    if events == [] then s else Run(Step(s, events[0]), events[1..])
  }

  /** The events that can power the display on. */
  predicate IsWake(e: Event)
  {
    e.KeyEvent? || e.SuspendWakeup?
  }

  // ---- One handler at a time --------------------------------------------

  /** A key event sets the timer to the current reading and powers the
      display on, whatever the state before. */
  lemma KeyEventWakes(s: SleepState, now: nat)
    ensures Step(s, KeyEvent(now)).powered
    ensures Step(s, KeyEvent(now)).timer == TimerRead(now)
  {
  }

  /** Past the timeout (strictly), the check resets the timer to the
      current reading and powers the display off. */
  lemma CheckAfterTimeout(s: SleepState, now: nat)
    requires Elapsed(s.timer, now) > DisplayTimeout
    ensures Step(s, SleepCheck(now)) == SleepState(TimerRead(now), false)
  {
  }

  /** Up to and including the timeout, the check changes nothing. */
  lemma CheckWithinTimeout(s: SleepState, now: nat)
    requires Elapsed(s.timer, now) <= DisplayTimeout
    ensures Step(s, SleepCheck(now)) == s
  {
  }

  /** The check never powers the display on, and a check on a sleeping
      display leaves it asleep. */
  lemma CheckNeverWakes(s: SleepState, now: nat)
    ensures Step(s, SleepCheck(now)).powered ==> s.powered
  {
  }

  /** Suspend powers off and wake powers on; neither touches the timer. */
  lemma SuspendAndWakeKeepTimer(s: SleepState)
    ensures Step(s, SuspendPowerDown) == SleepState(s.timer, false)
    ensures Step(s, SuspendWakeup) == SleepState(s.timer, true)
  {
  }

  /** Suspend may run many times in a row: repeating it changes nothing. */
  lemma SuspendIdempotent(s: SleepState)
    ensures Step(Step(s, SuspendPowerDown), SuspendPowerDown) == Step(s, SuspendPowerDown)
  {
  }

  // ---- Runs of handlers -------------------------------------------------

  /** Running two sequences one after the other is running their
      concatenation. */
  lemma {:induction false} RunAppend(s: SleepState, a: seq<Event>, b: seq<Event>)
    ensures Run(s, a + b) == Run(Run(s, a), b)
    decreases |a|
  {
    if a == [] {
      assert a + b == b;
    } else {
      assert (a + b)[1..] == a[1..] + b;
      RunAppend(Step(s, a[0]), a[1..], b);
    }
  }

  /** Once asleep, the display stays asleep until a key event or a wake-up:
      checks and suspends never power it on. */
  lemma {:induction false} AsleepUntilWoken(s: SleepState, events: seq<Event>)
    requires !s.powered
    requires forall i :: 0 <= i < |events| ==> !IsWake(events[i])
    ensures !Run(s, events).powered
    decreases |events|
  {
    if events != [] {
      AsleepUntilWoken(Step(s, events[0]), events[1..]);
    }
  }

  /** After a key event at `k`, checks that each find at most
      `DISPLAY_TIMEOUT` elapsed since `k` leave the display on and the
      timer where the key event put it. */
  lemma {:induction false} AwakeWithinTimeout(k: nat, events: seq<Event>)
    requires forall i :: 0 <= i < |events| ==>
      events[i].SleepCheck? && Elapsed(TimerRead(k), events[i].now) <= DisplayTimeout
    ensures Run(SleepState(TimerRead(k), true), events) == SleepState(TimerRead(k), true)
    decreases |events|
  {
    if events != [] {
      AwakeWithinTimeout(k, events[1..]);
    }
  }

  /** After a key event at `k`, a run of checks whose last one finds more
      than `DISPLAY_TIMEOUT` elapsed since `k` leaves the display off: either
      an earlier check already slept it, or the last one does. */
  lemma {:induction false} AsleepAfterTimeout(k: nat, s: SleepState, events: seq<Event>)
    requires s == SleepState(TimerRead(k), true) || !s.powered
    requires events != []
    requires forall i :: 0 <= i < |events| ==> events[i].SleepCheck?
    requires Elapsed(TimerRead(k), events[|events| - 1].now) > DisplayTimeout
    ensures !Run(s, events).powered
    decreases |events|
  {
    var s' := Step(s, events[0]);
    if |events| == 1 {
      assert Run(s', events[1..]) == s';
    } else {
      assert s' == SleepState(TimerRead(k), true) || !s'.powered;
      AsleepAfterTimeout(k, s', events[1..]);
    }
  }

  /** The timeout rule over a run: after a key event at `k`, followed by
      checks at times between `k` and the last check's time `t` (with
      `t - k` below the 16-bit wrap), the display is on exactly when
      `t - k` is at most `DISPLAY_TIMEOUT`. */
  lemma SleepsExactlyAfterTimeout(s: SleepState, k: nat, checks: seq<Event>)
    requires checks != []
    requires forall i :: 0 <= i < |checks| ==> checks[i].SleepCheck?
    requires forall i :: 0 <= i < |checks| ==>
      k <= checks[i].now <= checks[|checks| - 1].now
    requires checks[|checks| - 1].now < k + TimerModulus
    ensures Run(s, [KeyEvent(k)] + checks).powered <==>
      checks[|checks| - 1].now - k <= DisplayTimeout
  {
    var woke := SleepState(TimerRead(k), true);
    var t := checks[|checks| - 1].now;
    RunAppend(s, [KeyEvent(k)], checks);
    assert Run(s, [KeyEvent(k)]) == woke;
    ElapsedSinceRead(k, t);
    if t - k <= DisplayTimeout {
      forall i | 0 <= i < |checks|
        ensures Elapsed(TimerRead(k), checks[i].now) <= DisplayTimeout
      {
        ElapsedSinceRead(k, checks[i].now);
      }
      AwakeWithinTimeout(k, checks);
    } else {
      AsleepAfterTimeout(k, woke, checks);
    }
  }

  /** The deferred check as the executor runs it: the first run at
      `first`, and each later run the delay the check returned
      (`DISPLAY_TIMEOUT_CHECK_FREQ`) after the previous one. */
  function ScheduledChecks(first: nat, n: nat): (checks: seq<Event>)
    ensures |checks| == n
    decreases n
  {
    if n == 0 then []
    else [SleepCheck(first)] + ScheduledChecks(first + DisplayTimeoutCheckFreq, n - 1)
  }

  /** The schedule is periodic: the i-th check runs at `first + 1000 * i`. */
  lemma {:induction false} ScheduledChecksPeriodic(first: nat, n: nat, i: nat)
    requires i < n
    ensures ScheduledChecks(first, n)[i] == SleepCheck(first + i * DisplayTimeoutCheckFreq)
    decreases n
  {
    if i > 0 {
      ScheduledChecksPeriodic(first + DisplayTimeoutCheckFreq, n - 1, i - 1);
    }
  }

  /** With the check running every second, the display is asleep by the
      fifth check after the last key event, and by the fourth unless that
      key event came exactly at a check's time. */
  lemma SleepsWithinFiveChecks(s: SleepState, k: nat, first: nat, n: nat)
    requires k <= first < k + DisplayTimeoutCheckFreq
    requires n >= 5 || (n == 4 && k < first)
    requires n * DisplayTimeoutCheckFreq < TimerModulus
    ensures !Run(s, [KeyEvent(k)] + ScheduledChecks(first, n)).powered
  {
    var checks := ScheduledChecks(first, n);
    ScheduledChecksPeriodic(first, n, n - 1);
    assert checks[n - 1].now == first + (n - 1) * DisplayTimeoutCheckFreq;
    forall i | 0 <= i < n
      ensures checks[i].SleepCheck? && k <= checks[i].now <= checks[n - 1].now
    {
      ScheduledChecksPeriodic(first, n, i);
      assert i * DisplayTimeoutCheckFreq <= (n - 1) * DisplayTimeoutCheckFreq;
    }
    SleepsExactlyAfterTimeout(s, k, checks);
  }
}
