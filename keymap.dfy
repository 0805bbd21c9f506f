/** The handlers of keymap.c acting on the keyboard's module-level state:
    the sleep timer, the display's power flag, and the calls made into
    Quantum Painter and the deferred executor, kept as a log. */
module Keymap {
  import opened Timer
  import opened Layers
  import opened DisplaySleep

  /** A call from the keymap into the display driver or the scheduler. */
  datatype Call =
    | PainterInit                              // qp_sh1106_make_i2c_device, qp_init
    | Power(on: bool)                          // qp_power
    | DrawImage(x: int, y: int, image: Image)  // qp_drawimage
    | Flush                                    // qp_flush
    | DeferExec(delay: nat)                    // defer_exec(delay, display_sleep_check, NULL)

  /** Where the default-layer image is drawn. */
  const DefaultStateImageX: int := 0
  const DefaultStateImageY: int := 0

  /** A `uint16_t` keycode. */
  type Keycode = k: int | 0 <= k < 0x1_0000

  /** The parts of `keyrecord_t` the framework passes; the hook reads none. */
  datatype KeyRecord = KeyRecord(pressed: bool, time: Timer16)

  /** The draw calls for the default-layer image of `state`: one image at the
      top-left corner, then one flush. */
  function DefaultLayerDraw(state: LayerState): (calls: seq<Call>)
    ensures |calls| == 2 && calls[1] == Flush
    ensures calls[0].DrawImage? && calls[0].x == 0 && calls[0].y == 0
    ensures calls[0].image == DefaultLayerImage(state)
  {
    [DrawImage(DefaultStateImageX, DefaultStateImageY, DefaultLayerImage(state)), Flush]
  }

  class Keyboard {
    /** `display_sleep_timer`. */
    var displaySleepTimer: Timer16
    /** The display's power state, as last set through `qp_power`. */
    var powered: bool
    /** Every call made so far into the display driver and the scheduler. */
    var calls: seq<Call>

    /** The sleep state the handlers act on. */
    function Sleep(): SleepState
      reads this
    {
      SleepState(displaySleepTimer, powered)
    }

    /** `keyboard_post_init_kb`: set up the display (which Quantum Painter
        leaves powered on), seed the sleep timer, schedule the first sleep
        check, then draw the default-layer image. */
    constructor PostInit(now: nat, defaultLayerState: LayerState)
      ensures Sleep() == SleepState(TimerRead(now), true)
      ensures calls == [PainterInit, DeferExec(DisplayTimeoutCheckFreq)]
                       + DefaultLayerDraw(defaultLayerState)
    {
      powered := true;
      displaySleepTimer := TimerRead(now);
      calls := [PainterInit, DeferExec(DisplayTimeoutCheckFreq)];
      new;
      DrawDefaultLayerImage(defaultLayerState);
    }

    /** `draw_default_layer_image`: one image at (0,0), then one flush. */
    method DrawDefaultLayerImage(state: LayerState)
      modifies this
      ensures calls == old(calls) + DefaultLayerDraw(state)
      ensures Sleep() == old(Sleep())
    {
      var image: Image;
      if IsLayerOnState(state, DVK) {
        image := ModeDvorak;
      } else if IsLayerOnState(state, QWT) {
        image := ModeQwerty;
      } else {
        image := ModeStenography;
      }
      calls := calls + [DrawImage(DefaultStateImageX, DefaultStateImageY, image)];
      calls := calls + [Flush];
    }

    /** `display_sleep_check`: past the timeout, reset the timer and power
        the display off; always ask to run again in one period. */
    method DisplaySleepCheck(now: nat) returns (delay: nat)
      modifies this
      ensures delay == DisplayTimeoutCheckFreq
      ensures Sleep() == Step(old(Sleep()), SleepCheck(now))
      ensures calls == old(calls) + if TimedOut(old(Sleep()), now) then [Power(false)] else []
    {
      if Elapsed(displaySleepTimer, now) > DisplayTimeout {
        displaySleepTimer := TimerRead(now);
        powered := false;
        calls := calls + [Power(false)];
      }
      delay := DisplayTimeoutCheckFreq;
    }

    /** `suspend_power_down_kb`: power the display off. */
    method SuspendPowerDownKb()
      modifies this
      ensures Sleep() == Step(old(Sleep()), SuspendPowerDown)
      ensures calls == old(calls) + [Power(false)]
    {
      powered := false;
      calls := calls + [Power(false)];
    }

    /** `suspend_wakeup_init_kb`: power the display on. */
    method SuspendWakeupInitKb()
      modifies this
      ensures Sleep() == Step(old(Sleep()), SuspendWakeup)
      ensures calls == old(calls) + [Power(true)]
    {
      powered := true;
      calls := calls + [Power(true)];
    }

    /** `default_layer_state_set_kb`: redraw the default-layer image for the
        new state and hand the state back unchanged. */
    method DefaultLayerStateSetKb(state: LayerState) returns (r: LayerState)
      modifies this
      ensures r == state
      ensures calls == old(calls) + DefaultLayerDraw(state)
      ensures Sleep() == old(Sleep())
    {
      DrawDefaultLayerImage(state);
      r := state;
    }

    /** `process_record_kb`: on every key record, reset the sleep timer,
        power the display on and let processing continue. */
    method ProcessRecordKb(keycode: Keycode, record: KeyRecord, now: nat) returns (cont: bool)
      modifies this
      ensures cont
      ensures Sleep() == Step(old(Sleep()), KeyEvent(now))
      ensures calls == old(calls) + [Power(true)]
    {
      displaySleepTimer := TimerRead(now);
      powered := true;
      calls := calls + [Power(true)];
      cont := true;
    }
  }

  /** A session driven through the handlers: start-up, a key press, checks
      one period apart, a suspend and a wake-up.  The display stays on while
      checks find at most the timeout elapsed and is off after the first
      check past it. */
  method Session(boot: nat, key: nat)
    requires boot <= key
  {
    var kb := new Keyboard.PostInit(boot, 1);
    assert DefaultLayerImage(1) == ModeDvorak;
    var cont := kb.ProcessRecordKb(4, KeyRecord(true, 0), key);
    assert cont && kb.powered;
    ElapsedSinceRead(key, key + 1000);
    var d := kb.DisplaySleepCheck(key + 1000);
    ElapsedSinceRead(key, key + 2000);
    d := kb.DisplaySleepCheck(key + 2000);
    ElapsedSinceRead(key, key + 3000);
    d := kb.DisplaySleepCheck(key + 3000);
    assert kb.powered && kb.displaySleepTimer == TimerRead(key);
    ElapsedSinceRead(key, key + 4000);
    d := kb.DisplaySleepCheck(key + 4000);
    assert !kb.powered && d == DisplayTimeoutCheckFreq;
    kb.SuspendPowerDownKb();
    kb.SuspendWakeupInitKb();
    assert kb.powered && kb.displaySleepTimer == TimerRead(key + 4000);
  }
}
