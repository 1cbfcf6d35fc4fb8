# Sampling filter and LED blinker, modelled in Dafny

Two small firmware programs for a Raspberry Pi Pico are modelled and verified here.

- **exe3** is a FreeRTOS pipeline. A producer task puts the samples of a waveform table
  into a FIFO queue. A consumer task (`process_task`) runs each sample through a 5-sample
  moving-average filter. The filter is a fixed array `vetor[5]`, a fill counter
  `preenchidos` and a running `sum`. Once the window is full, the array is shifted down one
  slot per sample. The task prints `sum / 5` with C's truncating division.
  `moving_average.dfy` (module `MovingAverage`) models this as the class `AverageFilter`:
  - `window` is an `array<int>` of length 5 (for `vetor`);
  - `filled` stands for `preenchidos`, and `sum` is the running sum;
  - `Step` returns the printed average, if any;
  - `Feed` and `Run` stand for the in-order queue feed.

  The class invariant `Valid` ties the three fields to `Replay` of the samples received so
  far. `Replay` is the filter's step on values (`Receive`), folded over the history from five
  zero slots. The lemma `ReplayInv` then says what any such state holds: the recent samples
  in order, zeros in the unused slots, the counter, and the sum of the slots.

  Pure functions give the specification: `Sum`, `Recent` (the last five samples),
  `Average` (the truncating mean), `Emit` and `Emissions` (everything printed for an input
  sequence). The lemmas say what that specification means. In particular, the k-th printed
  value is the truncating mean of samples k..k+4. Exactly max(0, n-4) values are printed
  for n samples.
- **exe4** is a bare-metal polling loop. Every 25 ms an ADC reading selects a blink period:
  off below 1.0 V, 300 ms below 2.0 V, 500 ms otherwise. A repeating LED timer at half the
  period toggles the LED. Interrupt callbacks only raise the flags `adc_tick` and
  `led_tick`, and the loop consumes them. `led_blink.dfy` (module `LedBlink`) models the
  loop's globals as the class `Blinker`:
  - `period`;
  - `blinking`, which stands for `led_piscando`;
  - `ledOn` and the two flags;
  - `pinHigh`, the level last written to `PIN_LED_B`;
  - `ledTimer`, the history of `Start(ms)` / `Cancel` operations on `led_timer`.

  Its invariant `Valid` says four things:
  - the period is 0, 300 or 500;
  - the timer runs exactly when a period is selected, at half that period;
  - it is never started twice or cancelled while idle;
  - the pin always shows `led_on`.

  A fifth fact is carried by the event-driven `Run` as a loop invariant, not by `Valid`:
  across any run of events, the LED is off while no period is selected.

`wrappers.dfy` holds the `Option` type used for "maybe printed" and "maybe running".

The comment at exe4/main.c:17-21 gives the blink periods as 150 ms and 400 ms. The code
selects 300 ms and 500 ms (exe4/main.c:67-69), and the model follows the code.

## Model

| member | source | states |
|---|---|---|
| MovingAverage.TruncDivTruncates | exe3/main.c:43 | `TruncDiv(a, b)` rounds toward zero. For `a >= 0`, `q*b <= a < q*b + b` with `q*b >= 0`. For `a < 0`, `q*b - b < a <= q*b <= 0`. This is C's `/`, not Dafny's Euclidean one. |
| MovingAverage.TruncDivOdd | exe3/main.c:55 | Truncating division is odd: negating the sum negates the average. |
| MovingAverage.SumSnoc | exe3/main.c:39 | Adding a sample at the end of the window adds it to the sum (`sum += data`). |
| MovingAverage.SumEvict | exe3/main.c:47-53 | Dropping the oldest sample and appending a new one changes the sum by `-oldest + new`. |
| MovingAverage.Recent | exe3/main.c:37-52 | The window's contents after a sample history are its last `min(n, 5)` samples, in arrival order. |
| MovingAverage.EmissionsSnoc | exe3/main.c:42-56 | One more sample appends exactly one printed value if the history then has at least 5 samples, and none otherwise. |
| MovingAverage.EmissionsLength | exe3/main.c:37-56 | For `n` samples, nothing is printed while `n < 5`. Otherwise exactly `n - 4` values are printed: one on the fifth sample and one for each sample after it. |
| MovingAverage.EmissionsAt | exe3/main.c:42-56 | The k-th printed value is the truncating average of samples `k .. k+4`. |
| MovingAverage.EmissionsClosedForm | exe3/main.c:33-56 | Everything printed for an input is the sliding window of truncating averages over every 5 consecutive samples, in order. |
| MovingAverage.ScenarioRising | exe3/main.c:37-56 | Samples 10, 20, …, 60 print 30 then 40. |
| MovingAverage.ScenarioMixedSign | exe3/main.c:55 | Samples 1, 1, 1, 1, -6 (sum -2) print 0. Floor division of the same sum would give -1, so truncation and floor really differ here. |
| MovingAverage.AllZerosPrintZeros | exe3/main.c:42-56 | A run of zero samples prints only zeros. |
| MovingAverage.ShiftIn | exe3/main.c:48-52 | The shift loop plus the store into the last slot turns the array into the old slots `1..4` followed by the new sample. |
| MovingAverage.SlotsShape | exe3/main.c:29 | The array after a sample history (`Slots`) always has exactly five slots, and they begin with the recent samples in arrival order. |
| MovingAverage.InvInitial | exe3/main.c:29-31 | Before any sample arrives, the slots are five zeros and the filter invariant holds with counter 0 and sum 0. |
| MovingAverage.SlotsFill | exe3/main.c:37-38 | While fewer than 5 samples have arrived, the new sample lands in slot `preenchidos`, and the other slots keep their values. |
| MovingAverage.SlotsShift | exe3/main.c:46-52 | With the window full, the slots after the new sample are the old slots shifted down one place, followed by the new sample. |
| MovingAverage.InvMeaning | exe3/main.c:30-31 | Under the filter invariant, `preenchidos` is in 0..5, and it equals 5 exactly when at least 5 samples have arrived. `vetor[0..preenchidos)` holds the last `preenchidos` samples in order. The unfilled slots are 0, and `sum` equals the sum of the filled slots. |
| MovingAverage.InvFill | exe3/main.c:37-40 | The filling branch (store, `sum += data`, `preenchidos++`) keeps the invariant for the extended history. |
| MovingAverage.InvShift | exe3/main.c:46-53 | The full branch (`sum -= vetor[0]`, shift, store in slot 4, `sum += data`) keeps the invariant, with `preenchidos` staying at 5. |
| MovingAverage.Receive | exe3/main.c:37-57 | One received sample, on values. The window stays five slots. The counter rises by one while below 5 and stays at 5 once it gets there. |
| MovingAverage.ReplayInv | exe3/main.c:29-57 | After any sample history, the state reached from five zero slots satisfies the filter invariant. The slots are the recent samples in arrival order followed by zeros, the counter is their number, and the running sum is the total of the slots. |
| MovingAverage.ReplayEmit | exe3/main.c:42-56 | What a step prints can be read off the state alone: nothing while the counter is below 5, then the truncating average of the running sum, which is `Emit` of the history. |
| MovingAverage.EmitRecent | exe3/main.c:42-56 | A step prints exactly when the history has reached 5 samples, and then prints the truncating average of the window. |
| MovingAverage.AverageFilter.constructor | exe3/main.c:27-31 | The window starts as five zeros, with `preenchidos == 0`, `sum == 0` and nothing received. |
| MovingAverage.AverageFilter.Step | exe3/main.c:37-57 | One received sample records the sample and takes the fields to `Replay` of the extended history. While filling, the array changes only in slot `preenchidos` and the counter rises by one. Once full, the counter stays at 5 and the array shifts. The printed value (or none) is `Emit` of the history. |
| MovingAverage.AverageFilter.Feed | exe3/main.c:33-34 | Samples are received in order, none skipped or repeated. The values printed along the way extend `Emissions` of the history by exactly those values. |
| MovingAverage.Run | exe3/main.c:16-19 | Feeding a whole waveform table through a fresh filter prints exactly `Emissions(samples)`: the sliding truncating averages. |
| LedBlink.Classify | exe4/main.c:64-69 | Every reading selects a period in {0, 300, 500}. It selects 0 exactly when the voltage is below 1.0 V, and 500 exactly when it is at least 2.0 V. |
| LedBlink.ClassifyMonotone | exe4/main.c:67-69 | A higher reading never selects a shorter period. |
| LedBlink.ClassifyThresholds | exe4/main.c:15 | On the 12-bit scale, 1241 is the last reading that turns the LED off, 1242 the first that selects 300 ms, and 2483 the first that selects 500 ms. |
| LedBlink.HalfPeriod | exe4/main.c:86-87 | The LED timer interval is never 0 ms. It is half the period, rounded down, for periods of at least 2 ms. |
| LedBlink.DisciplinedSnoc | exe4/main.c:76-78 | A timer operation keeps the history disciplined exactly when it starts an idle timer or cancels a running one. Afterwards the timer runs exactly when it was started, at the given interval. |
| LedBlink.Blinker.constructor | exe4/main.c:46-49 | At start-up the pin is low and the LED is off. No period is selected, and the LED timer has never been started. |
| LedBlink.Blinker.AdcTimerFired | exe4/main.c:31-35 | The ADC timer callback raises `adc_tick` and changes nothing else. |
| LedBlink.Blinker.LedTimerFired | exe4/main.c:37-41 | The LED timer callback raises `led_tick` and changes nothing else. |
| LedBlink.Blinker.OnAdc | exe4/main.c:59-101 | Handling an ADC tick clears `adc_tick`. If the period is unchanged, no other state changes. Switching to 0 cancels a running timer and turns the LED off. Switching to 300 or 500 cancels a running timer, turns the LED and pin off, and starts the timer at half the period. In every case the timer still runs exactly when a period is selected. |
| LedBlink.Blinker.OnLedTick | exe4/main.c:105-117 | Handling an LED tick clears `led_tick`. With period 0 the LED ends off. Otherwise it toggles and the pin follows. Period, blinking and the timer are untouched. |
| LedBlink.Blinker.Poll | exe4/main.c:57-117 | One loop turn consumes both flags. A pending ADC tick sets the period the reading selects, and appends to the timer log exactly what `OnAdc` appends (nothing if the period is unchanged). Without one, the period and timer stay as they were. The LED after the turn is given exactly. The ADC step leaves it off if the period changed and as it was otherwise. A pending LED tick then forces it off at period 0, or else toggles it. "LED off while no period is selected" is preserved. |
| LedBlink.Blinker.PollDiscardingStaleTick | exe4/main.c:71-117 | The corrected loop turn: a turn whose ADC tick changes the period ends with the LED and pin off. The timer log changes exactly as in `Poll`: not at all when the period is unchanged, and by the cancel and restart otherwise. Otherwise the LED behaves as in `Poll`. |
| LedBlink.StaleTickScenario | exe4/main.c:94-117 | As written: from 300 ms with an LED tick pending, an ADC reading of 4000 switches to 500 ms and the turn ends with the LED on. |
| LedBlink.FreshStartScenario | exe4/main.c:94-99 | Corrected: the same events end at 500 ms with the LED off. |
| LedBlink.Run | exe4/main.c:43-118 | After any sequence of callbacks and loop turns from start-up, the period is in {0, 300, 500}, and the LED timer runs exactly when the period is nonzero, at half of it. The pin equals `led_on`, and the LED is off while the period is 0. |

## Left out

- The FreeRTOS queue, the tasks, their delays and receive timeouts, and the scheduler (exe3/main.c:14, 18, 21-23, 34, 60, 65-77) are not modelled. The queue is FIFO, so the model hands the consumer the samples in table order, and a timed-out receive does nothing.
- data.h is not part of this model. The waveform table is an arbitrary `seq<int>`.
- `printf` (exe3/main.c:44, 56) is modelled as appending the printed value to a sequence.
- MovingAverage.AverageFilter.Step: does not model 32-bit overflow of `sum`, because samples are unbounded integers here. The C code is only correct while the sum of five samples fits in an `int`.
- MovingAverage.TruncDivTruncates: states C division only for a positive divisor, because the code only ever divides by 5.
- LedBlink.Classify: uses exact rational arithmetic in place of single-precision float. The readings nearest the thresholds (1241/1242 and 2482/2483) lie between 1.7·10⁻⁴ V and 6.3·10⁻⁴ V from them, far more than float32 rounding. Readings are not restricted to the ADC's 0..4095.
- The ADC itself (`adc_init`, `adc_select_input`, `adc_read`) is not modelled: the reading is a parameter of `Poll`. The 25 ms ADC timer (exe4/main.c:55) is not modelled either: it appears only as `AdcTimer` events.
- The pin's initial configuration (`gpio_init`, `gpio_set_dir`) is not modelled. `gpio_put` is modelled as the `pinHigh` field.
- LedBlink.Blinker.LedTimerFired: requires the LED timer to be running, because the hardware only calls this callback while it is armed. `Run` drops an LED-timer event delivered otherwise.
- LedBlink.Blinker.OnAdc: assumes every `add_repeating_timer_ms` succeeds. The firmware ignores its result (exe4/main.c:98) and sets `led_piscando` anyway, so when no alarm slot is free the LED would stay still while the model, and `Run`'s "the timer runs exactly when a period is selected", say it blinks.
- Interrupts are not modelled as concurrent with the loop. Callbacks are discrete events between loop turns, so the races on the `volatile` flags are out of scope.
- `stdio_init_all` (exe3/main.c:66) is I/O set-up and is not modelled.

## Findings

| source | as written | input that shows it | evidently intended | confidence | as-written member | corrected member |
|---|---|---|---|---|---|---|
| exe4/main.c:89-117 | The restart cancels the old LED timer and turns the LED off ("starts dark"), but it leaves a `led_tick` already raised by the cancelled timer pending. The same loop turn then toggles the LED on, so the new blink runs in the opposite phase. | Period 300 and the LED off, with both `adc_tick` and `led_tick` pending. The reading is 4000 (about 3.2 V, so 500 ms). The turn ends with the LED on. | Discard the stale LED tick when the period changes, so the new blink starts dark. | medium, not executed | LedBlink.StaleTickScenario | LedBlink.Blinker.PollDiscardingStaleTick |

`Run` drives `Poll`, because it models the firmware as written.
