# Display sleep and default-layer indicator of custom_keyboard_v2

A Dafny model of the default keymap of the `custom_keyboard_v2` QMK
keyboard. The keymap drives a small SH1106 status display through Quantum
Painter. The model covers the two pieces of logic in that keymap:

- **Display sleep.** The keymap keeps a 16-bit activity timestamp,
  `display_sleep_timer`, and the display's power state. A key record resets
  the timestamp and powers the display on. A deferred check runs every
  `DISPLAY_TIMEOUT_CHECK_FREQ` = 1000 ms. Once more than `DISPLAY_TIMEOUT` =
  3000 ms have elapsed, it powers the display off and resets the timestamp.
  Suspend and wake-up force the power off and on without touching the
  timestamp. Start-up seeds the timestamp and schedules the first check.
- **Default-layer image.** The default-layer state is a bitmask. If the
  framework's layer test says the Dvorak layer is on, the display shows the
  Dvorak image. That is the case when the Dvorak bit is set, or when the
  state is empty. Otherwise, if the QWERTY bit is set, it shows the QWERTY
  image. Otherwise it shows the stenography image. The image is drawn at
  (0,0) and then flushed.

Files:

- `timer.dfy` (module `Timer`): the framework's 16-bit `timer_read` and
  `timer_elapsed`.
- `layers.dfy` (module `Layers`): the layer bitmask, the image choice and
  `layer_state_set_kb`.
- `sleep.dfy` (module `DisplaySleep`): the sleep state as a value. `Step`
  applies one handler and `Run` applies a sequence of handlers. The lemmas
  cover single steps and whole runs.
- `keymap.dfy` (module `Keymap`): the class `Keyboard` holds the keymap's
  module-level state and has one method per handler. Each method's contract
  gives the new sleep state as `Step` of the old one. It also lists the calls
  the handler makes into Quantum Painter and the deferred executor, in order,
  as entries appended to a call log.

Assumptions about the framework, which is not part of this model:

- `now` is the framework's millisecond clock, taken as an unbounded count.
- `timer_read()` returns `now mod 65536`. The framework's 32-bit clock
  wraps at a multiple of 65536, so its wrap does not change this value.
- `timer_elapsed(last)` returns `(now - last) mod 65536`, which is unsigned
  16-bit subtraction.
- `IS_LAYER_ON_STATE(state, layer)` is the framework's `layer_state_cmp`.
  An empty state (0) counts as layer 0 alone being on. Otherwise the
  layer's bit decides. So an empty default-layer state shows the Dvorak
  image, because DVK is layer 0.
- `qp_init` leaves the panel powered on.
- The deferred executor runs the check again after the delay the check
  returns. The first run comes `DISPLAY_TIMEOUT_CHECK_FREQ` after start-up,
  and each later run comes that delay after the previous one.
- Each handler reads the clock once. `display_sleep_check` calls
  `timer_elapsed` and then `timer_read`. Both are modelled with the same
  `now`.

Behaviours of the code worth noting:

- `qp_power` is called on every key record, suspend and wake, even when the
  display is already in the requested state.
- The idle check also fires while the display is already off. It then
  resets the timestamp and calls `qp_power(false)` again. The power state
  does not change (`CheckNeverWakes`, `AsleepUntilWoken`).
- `process_record_kb` runs for every key record, releases included, and
  ignores its keycode and record.
- `default_layer_state_set_kb` draws without powering the display on first.

## Model

| member | source | states |
|---|---|---|
| Timer.TimerRead | keyboards/custom_keyboard_v2/keymaps/default/keymap.c:99 | the stored reading is the clock reduced to 16 bits: in range and congruent to `now` modulo 65536 |
| Timer.Elapsed | keyboards/custom_keyboard_v2/keymaps/default/keymap.c:97 | the elapsed time is below 65536 and, added to the stored reading, gives the current reading modulo 65536 |
| Timer.ElapsedSinceRead | keyboards/custom_keyboard_v2/keymaps/default/keymap.c:97 | for a timestamp read at time `earlier`, the elapsed time equals the true distance `now - earlier` whenever that distance is below 65536 |
| Layers.IsLayerOnState | keyboards/custom_keyboard_v2/keymaps/default/keymap.c:86-87 | the framework's layer test: in the empty state only layer 0 (DVK) counts as on; DVK is on iff the state is empty or bit 0 is set; QWT is on iff bit 1 is set |
| Layers.DefaultLayerImage | keyboards/custom_keyboard_v2/keymaps/default/keymap.c:86-88 | the image drawn for a default-layer state, by the raw bits: Dvorak iff the state is empty or bit 0 is set; QWERTY iff bits 0-1 are exactly `10`; stenography iff the state is non-empty and bits 0-1 are both clear |
| Layers.ImageChoice | keyboards/custom_keyboard_v2/keymaps/default/keymap.c:86-88 | in terms of the framework's layer test: Dvorak iff DVK is on; QWERTY iff DVK is off and QWT is on; stenography iff neither base layer is on |
| Layers.DvorakTakesPriority | keyboards/custom_keyboard_v2/keymaps/default/keymap.c:86-87 | with both base-layer bits set the Dvorak image is chosen |
| Layers.SingleLayerImage | keyboards/custom_keyboard_v2/keymaps/default/keymap.c:81-91 | for a state holding one layer, the image is that layer's own image (Dvorak for DVK, QWERTY for QWT, stenography for every other layer) |
| Layers.OnlyBaseLayersMatter | keyboards/custom_keyboard_v2/keymaps/default/keymap.c:86-88 | two states that are both empty or both non-empty, and agree on the DVK and QWT bits, get the same image, whatever other layers are on |
| Layers.LayerStateSetKb | keyboards/custom_keyboard_v2/keymaps/default/keymap.c:142-158 | the layer-change hook returns its input state unchanged |
| DisplaySleep.Step | keyboards/custom_keyboard_v2/keymaps/default/keymap.c:95-107 | one handler's effect on the sleep state: only key records and checks change the timer; the display is on afterwards iff the handler was a key record, a wake-up, or a check that found it on and not timed out. Its single-handler cases are stated by the lemmas below |
| DisplaySleep.KeyEventWakes | keyboards/custom_keyboard_v2/keymaps/default/keymap.c:168-174 | after a key record the display is powered and the timer holds the current reading, from any state |
| DisplaySleep.CheckAfterTimeout | keyboards/custom_keyboard_v2/keymaps/default/keymap.c:97-103 | when strictly more than 3000 ms have elapsed, the check sets the timer to the current reading and powers the display off |
| DisplaySleep.CheckWithinTimeout | keyboards/custom_keyboard_v2/keymaps/default/keymap.c:97 | when at most 3000 ms have elapsed (exactly 3000 included), the check changes neither the timer nor the power state |
| DisplaySleep.CheckNeverWakes | keyboards/custom_keyboard_v2/keymaps/default/keymap.c:95-107 | the check never powers the display on |
| DisplaySleep.SuspendAndWakeKeepTimer | keyboards/custom_keyboard_v2/keymaps/default/keymap.c:130-139 | suspend powers off and wake powers on; neither changes the timer |
| DisplaySleep.SuspendIdempotent | keyboards/custom_keyboard_v2/keymaps/default/keymap.c:129-133 | running suspend twice leaves the same state as running it once |
| DisplaySleep.RunAppend | keyboards/custom_keyboard_v2/keymaps/default/keymap.c:95-107 | running two sequences of handlers one after the other equals running their concatenation |
| DisplaySleep.AsleepUntilWoken | keyboards/custom_keyboard_v2/keymaps/default/keymap.c:95-107 | once off, the display stays off through any run of checks and suspends; only a key record or a wake-up powers it on |
| DisplaySleep.AwakeWithinTimeout | keyboards/custom_keyboard_v2/keymaps/default/keymap.c:170-171 | after a key record at `k`, checks that each find at most 3000 ms elapsed since `k` leave the display on and the timer at `k`'s reading |
| DisplaySleep.AsleepAfterTimeout | keyboards/custom_keyboard_v2/keymaps/default/keymap.c:97-103 | after a key record at `k`, a run of checks whose last check finds more than 3000 ms elapsed since `k` leaves the display off |
| DisplaySleep.SleepsExactlyAfterTimeout | keyboards/custom_keyboard_v2/keymaps/default/keymap.c:95-107 | after a key record at `k` and checks up to time `t` (with `t - k` below 65536), the display is on if and only if `t - k <= 3000` |
| DisplaySleep.ScheduledChecks | keyboards/custom_keyboard_v2/keymaps/default/keymap.c:106 | the runs of the check, each one the returned delay (1000) after the previous; there are as many as asked for |
| DisplaySleep.ScheduledChecksPeriodic | keyboards/custom_keyboard_v2/keymaps/default/keymap.c:106 | the i-th scheduled check runs at `first + 1000 * i` |
| DisplaySleep.SleepsWithinFiveChecks | keyboards/custom_keyboard_v2/keymaps/default/keymap.c:95-107 | with the check scheduled every 1000 ms, the display is off by the fifth check after the last key record, and by the fourth unless the key record came exactly at a check's time |
| Keymap.DefaultLayerDraw | keyboards/custom_keyboard_v2/keymaps/default/keymap.c:81-91 | a default-layer redraw is exactly one image draw at (0,0) of the chosen image, followed by one flush |
| Keymap.Keyboard.PostInit | keyboards/custom_keyboard_v2/keymaps/default/keymap.c:110-127 | start-up seeds the timer with the current reading and leaves the display on. It initialises the display, schedules the check with delay 1000, then draws the image for the current default-layer state |
| Keymap.Keyboard.DrawDefaultLayerImage | keyboards/custom_keyboard_v2/keymaps/default/keymap.c:81-91 | appends one image draw at (0,0) of the chosen image and one flush; the sleep state is unchanged |
| Keymap.Keyboard.DisplaySleepCheck | keyboards/custom_keyboard_v2/keymaps/default/keymap.c:95-107 | always returns 1000; the new sleep state is the `SleepCheck` step of the old one; `qp_power(false)` is called exactly when the timeout has passed |
| Keymap.Keyboard.SuspendPowerDownKb | keyboards/custom_keyboard_v2/keymaps/default/keymap.c:130-133 | the display is powered off and the timer is unchanged; one `qp_power(false)` call |
| Keymap.Keyboard.SuspendWakeupInitKb | keyboards/custom_keyboard_v2/keymaps/default/keymap.c:136-139 | the display is powered on and the timer is unchanged; one `qp_power(true)` call |
| Keymap.Keyboard.DefaultLayerStateSetKb | keyboards/custom_keyboard_v2/keymaps/default/keymap.c:161-165 | returns its input state unchanged and redraws the default-layer image for that same state; the sleep state is unchanged |
| Keymap.Keyboard.ProcessRecordKb | keyboards/custom_keyboard_v2/keymaps/default/keymap.c:168-174 | returns true for every keycode and record; the timer holds the current reading and the display is powered; one `qp_power(true)` call |

## Left out

- The key table `keymaps` is static data, and its keycodes mean something only to the framework.
- Pin assignments, enabled RGB effects, default colours and WPM constants in `config.h` are preprocessor configuration with no logic.
- Quantum Painter internals (device creation, initialisation, drawing, flushing, power) and I2C are foreign library calls. They appear only as entries in the call log, and the power state is a field.
- Image decoding (`qp_load_image_mem`) and the unused `speed_indicator` handle are left out. The code never checks the loaded handles for failure, so the model has no failure path there. Images are named by a tag.
- The deferred executor's internals are left out. Only the delay the check asks for and the initial `defer_exec` registration are modelled. `ScheduledChecks` stands for the schedule it produces. The check's arguments (trigger time, callback argument) are unused by the code and not modelled.
- The body of `layer_state_set_kb` is commented out in the source. Only its identity return is modelled.
- The WPM bar, lock indicators, RGB bars and per-layer indicators do not exist in this keymap.
- The framework also calls `default_layer_state_set_kb` during keyboard initialisation, before `keyboard_post_init_kb` has created the display. That early redraw is not modelled: the `Keyboard` object, and so its call log, exists only from `keyboard_post_init_kb` on.
- A handler that reads the clock twice is modelled with one reading. A millisecond tick between `timer_elapsed` and `timer_read` in `display_sleep_check` is not captured.
- Width of `layer_state_t`: modelled as 32 bits, the framework's default.
