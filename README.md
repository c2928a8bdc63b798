# LED channel control loop

A model of the per-channel control loop of `projekt1/src/main.c`. The program drives two LED
channels. Each channel has one button and two LEDs, and one thread runs it forever. An iteration
of the thread's loop does three things:

1. It polls the button for a rising edge.
2. On an edge, it takes the terminal semaphore and flips `enabled`. It then prints one status
   line naming the new state and both LED pins, waits 10 ms and releases the semaphore.
3. It drives the LEDs. A disabled channel switches both off. An enabled channel runs one blink
   cycle: A on and B off, wait `blink_speed_ms`, then A off and B on, wait `blink_speed_ms`.

Modules:

- `Types` (types.dfy): `u8` and `u16`, the C widths of `last_input_value` and `blink_speed_ms`
  and of the pin offsets that `%hu` prints, plus `Option`.
- `Events` (events.dfy): the side effects of the loop as a trace of events. The events are
  `Reserve`, `Print(enabled, pinA, pinB)`, `Delay(ms)`, `Release` and `Set(pin, value)`. The
  module also defines the functions that read a trace:
  - `Prints`: the status lines printed;
  - `LockAfter` and `LockBalanced`: how the semaphore is used, including the settle delay that
    must pass under it between a status line and the release;
  - `Level`: the value last written to a pin;
  - `Suspended`: the total time spent in `delay_ms`.
- `StatusLine` (status_line.dfy): the text of the status line, with the pins in decimal. It also
  has a parser for that text. Parse recovers what Render printed (Parse is a left inverse of
  Render), so a printed line determines the state and both pins. The parser also accepts
  numerals with leading zeros, which Render never prints. `Console` maps a trace to the lines
  it leaves on the terminal.
- `ControlLoop` (control_loop.dfy):
  - the specification functions for one iteration (`StepEvents`) and for a run of iterations
    (`EnabledAfter`, `RunEvents`);
  - the class `Channel`, which is `struct thread_args`. Its `Step` is one loop iteration and
    `Run` is a bounded prefix of the endless loop. Both change the record in place and append
    to a ghost trace;
  - `Bootstrap`, the two records that `main` sets up.
- `RunFacts` (run_facts.dfy): what one iteration and any number of iterations guarantee.

The edge poll `gpiod_line_event_detected` is a call into `gpiod_utils.h`, and that file is not
part of this model. `Step` therefore takes two inputs: the poll's verdict (`edge`) and the value
the poll leaves in `last_input_value` (`sampled`). Line handles are modelled by their pin
offsets.

## Model

| member | source | states |
|---|---|---|
| `ControlLoop.Channel.constructor` | projekt1/src/main.c:97-98 | A new channel record has the given LED pins, button pin and period. It starts with `enabled` false, `last_input_value` 0 and nothing done yet. |
| `ControlLoop.Channel.Step` | projekt1/src/main.c:40-78 | One iteration. An edge flips `enabled`, and with no edge `enabled` is unchanged. `last_input_value` takes the polled value. The frame leaves `led_a`, `led_b`, `button` and `blink_speed_ms` untouched. The trace grows by exactly the events `StepEvents` gives for the old state and the edge. |
| `ControlLoop.Channel.Run` | projekt1/src/main.c:40-79 | N iterations of the endless loop. `enabled` ends as `EnabledAfter` of the edges. The trace grows by `RunEvents`. `last_input_value` holds the last poll's value. The configuration fields are unchanged. |
| `ControlLoop.Bootstrap` | projekt1/src/main.c:89-98 | The two channels of `main`. The first uses LEDs 17 and 23, button 27 and 100 ms. The second uses LEDs 22 and 24, button 25 and 500 ms. Both start disabled with `last_input_value` 0, and their pin sets are disjoint. |
| `RunFacts.StepPrints` | projekt1/src/main.c:43-59 | An iteration prints exactly one status line on an edge and none without one. That line reports the new value of `enabled` (disabled exactly when it is false) and names `led_a`'s pin, then `led_b`'s. |
| `RunFacts.StepLockBalanced` | projekt1/src/main.c:45-61 | Within one iteration every reserve is released. The status line is printed only while the semaphore is held, and the 10 ms settle delay passes after it before the release. No LED is written while the semaphore is held. The iteration begins with a reserve exactly when an edge was seen. On an edge its first four events are reserve, the status line, the 10 ms delay and release, so the lock phase comes before all LED writes. |
| `RunFacts.StepLedPattern` | projekt1/src/main.c:63-77 | After the lock phase a disabled channel writes A=0 and B=0 and nothing else. An enabled one writes A=1, B=0, waits the period, writes A=0, B=1 and waits the period. |
| `RunFacts.StepLevels` | projekt1/src/main.c:63-77 | For distinct LED pins: after an iteration LED A is 0, and LED B is 1 exactly when the channel is enabled: (0,1) when enabled, (0,0) when disabled. |
| `RunFacts.StepSuspended` | projekt1/src/main.c:60-77 | An iteration waits 10 ms if it saw an edge, plus twice the period if it is enabled, and no other time. A disabled iteration without an edge does not wait at all. |
| `RunFacts.ToggleParity` | projekt1/src/main.c:47 | After any sequence of iterations, `enabled` differs from its start exactly when an odd number of edges was seen. From the disabled start of both channels, it is true exactly after an odd number of edges. |
| `RunFacts.AnnouncementsAlternate` | projekt1/src/main.c:43-59 | A run prints exactly one status line per edge. Starting disabled, the lines alternate enabled, disabled, enabled, and so on. Each names `led_a`'s pin, then `led_b`'s. |
| `RunFacts.RunLockBalanced` | projekt1/src/main.c:45-61 | Over any number of iterations, reserves and releases strictly alternate and the semaphore ends free. Status lines are printed only under it, and each is followed by the 10 ms settle delay before the release. LEDs are written only outside it. |
| `RunFacts.RunConsole` | projekt1/src/main.c:43-59 | The terminal output of a run is one line per edge. Starting disabled, the lines read back as enabled, disabled, enabled, and so on. Each line names `led_a`'s pin, then `led_b`'s. |
| `RunFacts.RunLevels` | projekt1/src/main.c:63-77 | For distinct LED pins: after one or more iterations LED A is 0, and LED B is 1 exactly when the channel is enabled. |
| `RunFacts.RunWithoutEdges` | projekt1/src/main.c:63-77 | Without edges `enabled` never changes and every iteration repeats the same LED phase. A disabled channel repeats "both off" with no output and no wait. An enabled channel repeats the (1,0)/(0,1) blink cycle. |
| `Events.LockAfterAppend` | projekt1/src/main.c:45-61 | Replaying the semaphore over two traces in a row is the same as replaying the second from where the first left it. |
| `Events.ReleaseBeforeSettleRefused` | projekt1/src/main.c:59-61 | Releasing the semaphore right after the status line, or after a delay shorter than 10 ms, breaks the lock discipline. |
| `Events.LevelAppend` | projekt1/src/main.c:63-77 | The level of a pin after two traces is the second trace's last write to it, or the first's if the second never writes it. |
| `StatusLine.DecimalValueOfDecimal` | projekt1/src/main.c:50-52 | The decimal numeral printed for a pin (`%hu`) reads back as that pin. |
| `StatusLine.ParseRender` | projekt1/src/main.c:48-59 | Parsing the printed status line gives back the new state and both pins: "disabled!" exactly when `enabled` is false, and `led_a`'s pin before `led_b`'s. |
| `StatusLine.ConsoleParses` | projekt1/src/main.c:48-59 | Each line on the terminal reads back as the state and both pins of the print that wrote it. |
| `StatusLine.RenderInjective` | projekt1/src/main.c:48-59 | Two status lines are equal only when they report the same state and the same two pins. |

## Left out

- Thread creation and joining (`pthread_create`, `pthread_join`, lines 99-104) are not modelled,
  and neither is the interleaving of the two channels' threads. The semaphore appears only as
  `Reserve` and `Release` events inside one channel. Mutual exclusion between the two channels
  is therefore not stated.
- GPIO line acquisition (`gpiod_line_new`, lines 89-95) and the line functions
  `gpiod_line_set_value`, `gpiod_line_offset` and `gpiod_line_event_detected` are not modelled,
  because `gpiod_utils.h` is not part of this model. Lines are their pin offsets and writes are
  `Set` events. The edge verdict and the stored button level are inputs to `Step`, so the
  guarantee that an edge is neither missed nor reported twice is not modelled.
- Real time: `delay_ms` is a `Delay` event. No claim is made about latency or busy-polling cost.
- The endless `while (1)` is modelled as single steps and as runs of any finite length.
- `printf` is modelled only through the text it writes. Writing to the terminal itself is a
  `Print` event.
- `main`'s return value and line directions are not modelled.
- `ControlLoop.Channel.constructor`: any `u16` period is accepted, including 0. The C code does
  not check that the period is positive, although a fixed positive period is the intended design.
- `StatusLine.ParseRender`: pin offsets are taken to fit in 16 bits, as `%hu` prints them. The
  truncation of a wider offset is not modelled, and all pins used here (17 to 27) fit.
