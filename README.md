# RGB PWM ramp task (ESP32 LEDC), modelled in Dafny

The program drives an RGB LED through three channels of the ESP32 LEDC PWM
peripheral. Its task `tarefa_pwm` fills three channel-configuration records
with `configurar_pwm` and registers them with the driver. Then it loops
forever. Each iteration:

- derives the red, green and blue duties from one stepping value,
  `incremento`, as `2x`, `1x` and `3x`, each taken `% 256`;
- sets and latches each channel in R, G, B order;
- prints a log line behind the gate `contador % 1 == 0`;
- adds 5 to `incremento`, and resets it to 0 once it is greater than 255;
- increments `contador`.

There are two modules:

- `Ledc` (`ledc.dfy`) is the driver as the task sees it. It holds the
  channel-configuration record, a class with the six fields the program
  writes and, standing for the fields it never touches, `intr_type` and
  `flags`. It also holds the driver calls as plain values.
- `PwmTask` (`pwm_task.dfy`) holds the rest. A pure state machine over
  `(incremento, contador)` has `Step`, `Iterate` and `Trace`, which gives
  every driver call and log line of `n` iterations. `TarefaPwm` and
  `ConfigurarPwm` are imperative methods that follow the C code line by
  line. The lemmas about the ramp are stated on the pure functions.

`TarefaPwm` is proved to emit exactly `SetupEvents() + Trace(Initial, n)` and
to end in `Iterate(Initial, n)`. So the lemmas about `Trace` and `Iterate`
hold for what the loop does.

The model follows the code on points that are easy to get wrong:

- `incremento` starts at 5, not 0, so the first triple is (10, 5, 15).
- The blue duty at 255 is 253.
- The duties depend on `incremento`, not on `contador`.

## Model

| member | source | states |
|---|---|---|
| `PwmTask.ConfiguredSettings` | Programa2/main.c:23-30 | the value configurar_pwm leaves in the record: channel and gpio_num from the arguments, duty and hpoint 0, speed_mode LEDC_MODE, timer_sel LEDC_TIMER |
| `PwmTask.ConfigurarPwm` | Programa2/main.c:23-30 | after the call the six written fields of the record hold exactly `ConfiguredSettings(gpio_num, channel)`, and the fields it does not write are unchanged |
| `PwmTask.SetupEvents` | Programa2/main.c:37-43 | the task hands the driver exactly three channel configurations before the loop, in order: channel 0 on pin 25 (red), channel 1 on pin 26 (green), channel 2 on pin 27 (blue) |
| `PwmTask.SetupChannelsDistinct` | Programa2/main.c:37-43 | the three configs passed to the driver start at duty 0 with hpoint 0, on one timer and one speed mode, and have distinct channels and distinct pins |
| `PwmTask.ColourReachesItsPin` | Programa2/main.c:37-66 | in every iteration, each colour's duty is staged and latched on the channel configured on that colour's pin: red on pin 25, green on 26, blue on 27 |
| `PwmTask.CQuot` | Programa2/main.c:54-56 | the program has no `/` here; C's truncating quotient exists only so that `CRemIsRemainder` can pin down the `%` of these lines, and its contract says the quotient has the sign of the dividend |
| `PwmTask.CRem` | Programa2/main.c:54-56 | C's `%` gives a result smaller in magnitude than the divisor, with the sign of the dividend (non-negative for a non-negative dividend) |
| `PwmTask.CRemIsRemainder` | Programa2/main.c:54-56 | the dividend equals C's truncating quotient times the divisor plus C's remainder; with the bounds of `CRem` this fixes both |
| `PwmTask.DutiesOf` | Programa2/main.c:54-56 | each duty is below 256 in magnitude for any incremento, and all three lie in [0,255] for a non-negative incremento |
| `PwmTask.DutiesInRange` | Programa2/main.c:54-56 | for a non-negative incremento all three duties lie in [0,255] and equal `(2x) % 256`, `x % 256` and `(3x) % 256` |
| `PwmTask.GreenIsIncremento` | Programa2/main.c:55 | for an incremento in [0,255] the green duty is incremento itself |
| `PwmTask.DutiesAtBoundaries` | Programa2/main.c:49-56 | incremento 5 gives (10,5,15), 255 gives (254,255,253) and 0 gives (0,0,0) |
| `PwmTask.LogGate` | Programa2/main.c:69 | the gate `contador % 1 == 0` is open for every contador |
| `PwmTask.IterationEvents` | Programa2/main.c:59-70 | one iteration emits seven events: six driver calls, then a log event carrying that iteration's incremento |
| `PwmTask.IterationShape` | Programa2/main.c:59-70 | one iteration's seven events are set and update for red, then green, then blue, each set staging that iteration's duty, and then the log event carrying incremento and the three duties |
| `PwmTask.IterationIgnoresContador` | Programa2/main.c:54-70 | what an iteration emits depends only on incremento |
| `PwmTask.NextIncremento` | Programa2/main.c:74-77 | the new incremento is 0 or the old one plus 5; a multiple of 5 in [0,255] stays one, and it becomes 0 exactly when it was 255 |
| `PwmTask.Step` | Programa2/main.c:74-81 | one iteration adds 1 to contador and keeps a reachable incremento reachable |
| `PwmTask.Iterate` | Programa2/main.c:52-82 | after n iterations contador has grown by exactly n, and a reachable incremento is still reachable |
| `PwmTask.Trace` | Programa2/main.c:52-82 | n iterations emit exactly 7n events |
| `PwmTask.StepKeepsReachable` | Programa2/main.c:74-81 | one step keeps incremento a multiple of 5 in [0,255] and adds 1 to contador |
| `PwmTask.AlwaysReachable` | Programa2/main.c:49-77 | from the initial state, incremento is a multiple of 5 in [0,255] after every number of iterations |
| `PwmTask.ResetExactlyAt255` | Programa2/main.c:74-77 | for a reachable incremento the reset fires exactly when incremento is 255; every other value advances by 5 |
| `PwmTask.StepFromCyclePosition` | Programa2/main.c:74-77 | a step from the value at cycle position m (5m) lands on position m+1, or on 0 from position 51 |
| `PwmTask.IncrementoClosedForm` | Programa2/main.c:74-77 | from a reachable incremento x, incremento after n iterations is `5 * ((x/5 + n) % 52)` |
| `PwmTask.IncrementoAt` | Programa2/main.c:49-77 | the value incremento has in iteration k is always a multiple of 5 in [0,255] |
| `PwmTask.IterateMatchesIndex` | Programa2/main.c:49-81 | the stepped state after k iterations is `(5 * ((k+1) % 52), k)`, the same as the function of the index |
| `PwmTask.FirstWrap` | Programa2/main.c:49-77 | iterations 0 to 50 have incremento 5, 10, ..., 255, and among iterations 0 to 51 incremento is 0 exactly in iteration 51, the first reset |
| `PwmTask.IncrementoInWindow` | Programa2/main.c:74-77 | iteration start+d, for d < 52, holds 5 times the cycle position of iteration start moved on by d, wrapping at 52 |
| `PwmTask.IterateInWindow` | Programa2/main.c:49-81 | the same window formula holds for the incremento of the stepped state machine |
| `PwmTask.CycleValuesAreReachable` | Programa2/main.c:49-77 | the 52 values 0, 5, ..., 255 are exactly the reachable values of incremento |
| `PwmTask.CycleHits` | Programa2/main.c:49-81 | any 52 consecutive iterations of the loop contain every reachable value of incremento |
| `PwmTask.CycleNoRepeat` | Programa2/main.c:49-81 | no two of 52 consecutive iterations of the loop have the same incremento, so each value shows exactly once |
| `PwmTask.Period52` | Programa2/main.c:74-81 | from any reachable state, the states 52 iterations apart have the same incremento, and contador is 52 larger |
| `PwmTask.TraceBlock` | Programa2/main.c:52-82 | within n iterations, iteration k's events are exactly the trace entries 7k to 7k+6 |
| `PwmTask.TraceDutiesInRange` | Programa2/main.c:49-82 | every duty the loop stages with a set call, and every duty it logs, lies in [0,255] |
| `PwmTask.OutputPeriodic` | Programa2/main.c:52-82 | iterations k and k+52 emit identical driver calls and log lines |
| `PwmTask.FirstIteration` | Programa2/main.c:49-70 | the first iteration stages (10,5,15) on channels 0, 1 and 2 in that order, latching each one, and logs (5,10,5,15) |
| `PwmTask.TarefaPwm` | Programa2/main.c:33-83 | the first n iterations of the task, after the three channel configurations, emit exactly `SetupEvents() + Trace(Initial, n)`, and end with incremento and contador equal to `Iterate(Initial, n)` |

## Left out

- `app_main` is not modelled: the timer configuration (5 kHz, 8-bit, low speed) and the `xTaskCreate` call are platform plumbing.
- The driver's behaviour is not modelled. This covers `ledc_channel_config`, `ledc_set_duty` and `ledc_update_duty` and their `esp_err_t` results. The code ignores those results, so a call appears only as a trace entry. No fault from the driver stops the loop.
- `vTaskDelay(50 / portTICK_PERIOD_MS)` is not modelled. It depends on the scheduler and the tick rate.
- The `printf` formatting is not modelled. A log line is a `Log` event carrying incremento and the three duties.
- `TarefaPwm` models the endless `while (1)` by its first n iterations.
- `TarefaPwm` treats `contador` as an unbounded natural number, so the eventual overflow of the C `int` is not modelled. `incremento` never goes above 260, so it cannot overflow.
- The `ledc_channel_config_t` fields that `configurar_pwm` does not write start indeterminate, because the three records are uninitialised locals (Programa2/main.c:35). Examples are `intr_type` and `flags`; which other fields exist depends on the driver version. The model leaves them unconstrained, and the `ChannelConfig` trace entry records only the six written fields. So the model does not say how the driver treats whatever those fields hold when `ledc_channel_config` reads them (Programa2/main.c:41-43). The result of that call is ignored, so a rejected configuration would go unnoticed.
