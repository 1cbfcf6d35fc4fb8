/**
 * The polling loop of exe4/main.c: an ADC reading taken every 25 ms selects a blink period
 * (off, 300 ms or 500 ms), and a repeating LED timer at half that period toggles the LED.
 * Interrupt callbacks only raise flags; the loop consumes them. The GPIO pin and the LED
 * timer are modelled as state: the level last written to the pin, and the history of
 * operations on the timer.
 */
module LedBlink {
  import opened Wrappers

  /** Full scale of the 12-bit ADC (`1 << 12`). */
  const AdcSteps: int := 4096

  /** The periods the loop selects, in ms: 0 (LED off), 300 and 500. */
  predicate IsPeriod(p: int)
  {
    p == 0 || p == 300 || p == 500
  }

  /** The voltage of a raw reading, `result * 3.3 / 4096`, in exact arithmetic. */
  function Voltage(reading: int): real
  {
    reading as real * 3.3 / AdcSteps as real
  }

  /** The period selected by a reading: below 1.0 V off, below 2.0 V 300 ms, else 500 ms. */
  function Classify(reading: int): (p: int)
    ensures IsPeriod(p)
    ensures p == 0 <==> Voltage(reading) < 1.0
    ensures p == 500 <==> Voltage(reading) >= 2.0
  {
    var v := Voltage(reading);
    if v < 1.0 then 0 else if v < 2.0 then 300 else 500
  }

  /** A higher reading never selects a shorter period. */
  lemma ClassifyMonotone(r1: int, r2: int)
    requires r1 <= r2
    ensures Classify(r1) <= Classify(r2)
  {
    assert Voltage(r1) <= Voltage(r2);
  }

  /** Where the thresholds fall on the 12-bit scale: 1241 is the last reading that turns the
   *  LED off, 2482 the last that selects 300 ms. */
  lemma ClassifyThresholds()
    ensures Classify(1241) == 0 && Classify(1242) == 300
    ensures Classify(2482) == 300 && Classify(2483) == 500
  {
  }

  /** The LED timer's interval for a period: half of it, and at least 1 ms. */
  function HalfPeriod(period: int): (half: int)
    requires period >= 0
    ensures half >= 1
    ensures period >= 2 ==> period - 1 <= 2 * half <= period
    ensures period < 2 ==> half == 1
  {
    var half := period / 2;
    if half == 0 then 1 else half
  }

  /** An operation on the LED's repeating timer. */
  datatype TimerOp = Start(intervalMs: int) | Cancel

  /** The interval the LED timer runs at after a history of operations, if it runs. */
  function Running(log: seq<TimerOp>): Option<int>
  {
    if log == [] then None
    else match log[|log| - 1]
      case Start(ms) => Some(ms)
      case Cancel => None
  }

  /** Every start finds the timer idle and every cancel finds it running: the timer is never
   *  armed twice nor cancelled while idle. */
  predicate Disciplined(log: seq<TimerOp>)
  {
    log == [] ||
    (Disciplined(log[..|log| - 1]) && (log[|log| - 1].Start? <==> Running(log[..|log| - 1]).None?))
  }

  /** Appending one operation keeps the history disciplined exactly when it starts an idle
   *  timer or cancels a running one; afterwards the timer runs exactly when it was started. */
  lemma {:induction false} DisciplinedSnoc(log: seq<TimerOp>, op: TimerOp)
    ensures Disciplined(log + [op]) <==> Disciplined(log) && (op.Start? <==> Running(log).None?)
    ensures Running(log + [op]) == if op.Start? then Some(op.intervalMs) else None
  {
    assert (log + [op])[..|log|] == log;
  }

  /** The loop's state: the globals `period`, `led_piscando` (as `blinking`), `led_on`, the
   *  flags `adc_tick` and `led_tick`, the level last written to `PIN_LED_B` and the
   *  history of operations on `led_timer`. */
  class Blinker {
    var period: int
    var blinking: bool
    var ledOn: bool
    var pinHigh: bool
    var adcTick: bool
    var ledTick: bool
    var ledTimer: seq<TimerOp>

    /** The timer blinks exactly when a period is selected, at half that period, and the
     *  pin shows the LED's state. */
    ghost predicate Valid()
      reads this
    {
      IsPeriod(period) &&
      (blinking <==> period != 0) &&
      pinHigh == ledOn &&
      Disciplined(ledTimer) &&
      Running(ledTimer) == (if blinking then Some(HalfPeriod(period)) else None)
    }

    /** Start-up: the pin is driven low, the LED is off, no period is selected and the LED
     *  timer has never been started. */
    constructor ()
      ensures Valid()
      ensures period == 0 && !blinking && !ledOn && !pinHigh
      ensures !adcTick && !ledTick && ledTimer == []
    {
      period := 0;
      blinking := false;
      ledOn := false;
      pinHigh := false;
      adcTick := false;
      ledTick := false;
      ledTimer := [];
    }

    /** The ADC timer's callback: it only raises the flag. */
    method AdcTimerFired()
      modifies this
      ensures adcTick
      ensures period == old(period) && blinking == old(blinking) && ledOn == old(ledOn)
      ensures pinHigh == old(pinHigh) && ledTick == old(ledTick) && ledTimer == old(ledTimer)
    {
      adcTick := true;
    }

    /** The LED timer's callback, which runs only while that timer is armed: it only raises
     *  the flag. */
    method LedTimerFired()
      requires Running(ledTimer).Some?
      modifies this
      ensures ledTick
      ensures period == old(period) && blinking == old(blinking) && ledOn == old(ledOn)
      ensures pinHigh == old(pinHigh) && adcTick == old(adcTick) && ledTimer == old(ledTimer)
    {
      ledTick := true;
    }

    /** The loop's handling of an ADC tick, given the period the reading selects. The same
     *  period changes nothing. Period 0 cancels the timer if it runs and turns the LED off.
     *  Any other period restarts the timer at half the period, from the LED-off phase. */
    method OnAdc(newPeriod: int)
      requires Valid() && IsPeriod(newPeriod)
      modifies this
      ensures Valid()
      ensures !adcTick && ledTick == old(ledTick)
      ensures newPeriod == old(period) ==>
                period == old(period) && blinking == old(blinking) && ledOn == old(ledOn) &&
                pinHigh == old(pinHigh) && ledTimer == old(ledTimer)
      ensures newPeriod != old(period) ==>
                period == newPeriod && blinking == (newPeriod != 0) && !ledOn && !pinHigh
      ensures newPeriod != old(period) ==>
                ledTimer == old(ledTimer) + (if old(blinking) then [Cancel] else [])
                                          + (if newPeriod != 0 then [Start(HalfPeriod(newPeriod))] else [])
    {
      adcTick := false;
      if newPeriod != period {
        period := newPeriod;
        if period == 0 {
          if blinking {
            DisciplinedSnoc(ledTimer, Cancel);
            ledTimer := ledTimer + [Cancel];
            blinking := false;
          }
          if ledOn {
            ledOn := false;
            pinHigh := false;
          }
        } else {
          var half := period / 2;
          if half == 0 {
            half := 1;
          }
          ghost var before := ledTimer;
          if blinking {
            DisciplinedSnoc(ledTimer, Cancel);
            ledTimer := ledTimer + [Cancel];
            blinking := false;
          }
          ledOn := false;
          pinHigh := false;
          DisciplinedSnoc(ledTimer, Start(half));
          ledTimer := ledTimer + [Start(half)];
          blinking := true;
          assert ledTimer == before + (if old(blinking) then [Cancel] else []) + [Start(half)];
        }
      }
    }

    /** The loop's handling of an LED tick: with no period selected the LED is forced off,
     *  otherwise it toggles and the pin follows. */
    method OnLedTick()
      requires Valid()
      modifies this
      ensures Valid()
      ensures !ledTick && adcTick == old(adcTick)
      ensures period == old(period) && blinking == old(blinking) && ledTimer == old(ledTimer)
      ensures period == 0 ==> !ledOn
      ensures period != 0 ==> ledOn == !old(ledOn)
    {
      ledTick := false;
      if period == 0 {
        // Defensive in the firmware: `Run` shows the LED is already off whenever the period is 0.
        if ledOn {
          ledOn := false;
          pinHigh := false;
        }
      } else {
        ledOn := !ledOn;
        pinHigh := ledOn;
      }
    }

    /** One turn of the `while (1)` loop: a pending ADC tick is handled with the period the
     *  current reading selects, then a pending LED tick. Both flags are consumed. An LED tick
     *  still pending from a timer that the ADC tick has just cancelled is handled too: after
     *  a restart it turns the LED on at once (see `StaleTickScenario`). */
    method Poll(reading: int)
      requires Valid()
      modifies this
      ensures Valid() && !adcTick && !ledTick
      ensures old(adcTick) ==> period == Classify(reading)
      ensures !old(adcTick) ==> period == old(period) && ledTimer == old(ledTimer)
      ensures old(adcTick) ==>
                ledTimer == old(ledTimer) +
                  (if Classify(reading) == old(period) then []
                   else (if old(blinking) then [Cancel] else []) +
                        (if period != 0 then [Start(HalfPeriod(period))] else []))
      ensures var restarted := old(adcTick) && Classify(reading) != old(period);
              var afterAdc := !restarted && old(ledOn);
              ledOn == if old(ledTick) then period != 0 && !afterAdc else afterAdc
      ensures old(period == 0 ==> !ledOn) ==> (period == 0 ==> !ledOn)
    {
      ghost var afterAdc := !(adcTick && Classify(reading) != period) && ledOn;
      if adcTick {
        OnAdc(Classify(reading));
      }
      assert ledOn == afterAdc;
      if ledTick {
        OnLedTick();
      }
    }

    /** The loop turn with the restart made to start dark, as its comment intends: when the
     *  ADC tick changes the period, an LED tick raised by the cancelled timer is discarded,
     *  so the turn ends with the LED and the pin off. */
    method PollDiscardingStaleTick(reading: int)
      requires Valid()
      modifies this
      ensures Valid() && !adcTick && !ledTick
      ensures old(adcTick) ==> period == Classify(reading)
      ensures !old(adcTick) ==> period == old(period) && ledTimer == old(ledTimer)
      ensures old(adcTick) ==>
                ledTimer == old(ledTimer) +
                  (if Classify(reading) == old(period) then []
                   else (if old(blinking) then [Cancel] else []) +
                        (if period != 0 then [Start(HalfPeriod(period))] else []))
      ensures old(adcTick) && Classify(reading) != old(period) ==> !ledOn && !pinHigh
      ensures !(old(adcTick) && Classify(reading) != old(period)) ==>
                ledOn == if old(ledTick) then period != 0 && !old(ledOn) else old(ledOn)
    {
      if adcTick {
        var newPeriod := Classify(reading);
        if newPeriod != period {
          ledTick := false;
        }
        OnAdc(newPeriod);
      }
      if ledTick {
        OnLedTick();
      }
    }
  }

  /** The loop as written: from 300 ms with an LED tick pending, an ADC tick selecting 500 ms
   *  restarts the timer with the LED off, and the stale tick then turns it on in the same
   *  turn, so the new blink starts in the lit phase. */
  method StaleTickScenario() returns (period: int, ledOn: bool)
    ensures period == 500 && ledOn
  {
    var device := new Blinker();
    device.AdcTimerFired();
    device.Poll(2000);
    device.LedTimerFired();
    device.AdcTimerFired();
    device.Poll(4000);
    period, ledOn := device.period, device.ledOn;
  }

  /** The same events with the stale tick discarded: the new blink starts dark. */
  method FreshStartScenario() returns (period: int, ledOn: bool)
    ensures period == 500 && !ledOn
  {
    var device := new Blinker();
    device.AdcTimerFired();
    device.PollDiscardingStaleTick(2000);
    device.LedTimerFired();
    device.AdcTimerFired();
    device.PollDiscardingStaleTick(4000);
    period, ledOn := device.period, device.ledOn;
  }

  /** What happens to the device, in order: a timer callback, or a turn of the loop that
   *  would read `reading` from the ADC. */
  datatype Event = AdcTimer | LedTimer | Loop(reading: int)

  /** The observable outputs: the selected period, whether the LED timer runs and at what
   *  interval, the LED state and the pin level. */
  datatype Outputs = Outputs(period: int, timer: Option<int>, ledOn: bool, pinHigh: bool)

  /** Runs the device from start-up through `events`. An LED timer callback can only happen
   *  while that timer is armed, so one that arrives otherwise is not delivered. Whatever the
   *  events, the timer runs exactly when a period is selected and at half of it, the pin
   *  shows the LED, and the LED is off while no period is selected. */
  method Run(events: seq<Event>) returns (out: Outputs)
    ensures IsPeriod(out.period)
    ensures out.timer == if out.period == 0 then None else Some(HalfPeriod(out.period))
    ensures out.pinHigh == out.ledOn
    ensures out.period == 0 ==> !out.ledOn
  {
    var device := new Blinker();
    var i := 0;
    while i < |events|
      invariant 0 <= i <= |events|
      invariant device.Valid()
      invariant device.period == 0 ==> !device.ledOn
    {
      match events[i] {
        case AdcTimer =>
          device.AdcTimerFired();
        case LedTimer =>
          if Running(device.ledTimer).Some? {
            device.LedTimerFired();
          }
        case Loop(reading) =>
          device.Poll(reading);
      }
      i := i + 1;
    }
    out := Outputs(device.period, Running(device.ledTimer), device.ledOn, device.pinHigh);
  }
}
