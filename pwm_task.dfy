/**
 The PWM task of Programa2/main.c: it configures three LEDC channels (red,
 green, blue) and then, forever, derives three 8-bit duties from a single
 stepping value `incremento`, pushes them to the driver channel by channel,
 logs them, and advances `incremento` by 5, resetting it to 0 once it
 passes 255. The endless loop is modelled by its first n iterations; every
 driver call and every log line is recorded, in order, in one trace.
 */
module PwmTask {
  import opened Ledc

  // Pins, channels and driver settings of the program.
  const PinoRed: int := 25
  const PinoGreen: int := 26
  const PinoBlue: int := 27
  const LedcTimer: int := 0           // LEDC_TIMER_0
  const LedcMode: SpeedMode := LowSpeedMode
  const LedcChannelRed: int := 0      // LEDC_CHANNEL_0
  const LedcChannelGreen: int := 1    // LEDC_CHANNEL_1
  const LedcChannelBlue: int := 2     // LEDC_CHANNEL_2
  /** Step of the ramp, and also the value it starts from. */
  const Incremento: int := 5

  /** What the task observably does: a driver call, or one console line. */
  datatype Event =
    | Driver(call: Call)
    | Log(incremento: int, red: int, green: int, blue: int)

  /** The two locals the loop carries from one iteration to the next. */
  datatype RampState = RampState(incremento: int, contador: nat)

  /** The three duties of one iteration. */
  datatype Duties = Duties(red: int, green: int, blue: int)

  // ---------------------------------------------------------------------
  // configurar_pwm

  /**
   The settings configurar_pwm gives a channel: pin and channel from the
   caller, duty and hpoint 0, the program's speed mode and timer.
   */
  function ConfiguredSettings(gpioNum: int, channel: int): (c: ChannelSettings)
    ensures c.channel == channel && c.gpioNum == gpioNum
    ensures c.duty == 0 && c.hpoint == 0
    ensures c.speedMode == LedcMode && c.timerSel == LedcTimer
  {
    ChannelSettings(channel, 0, gpioNum, LedcMode, 0, LedcTimer)
  }

  /**
   configurar_pwm: writes six fields of the record and leaves every other
   field as it was.
   */
  method ConfigurarPwm(config: ChannelConfigStruct, gpioNum: int, channel: int)
    modifies config
    ensures config.Settings() == ConfiguredSettings(gpioNum, channel)
    ensures config.intrType == old(config.intrType) && config.flags == old(config.flags)
  {
    config.channel := channel;
    config.duty := 0;
    config.gpioNum := gpioNum;
    config.speedMode := LedcMode;
    config.hpoint := 0;
    config.timerSel := LedcTimer;
  }

  /**
   The three channel configurations tarefa_pwm hands to the driver, in
   order: red on channel 0 at pin 25, green on channel 1 at pin 26, blue
   on channel 2 at pin 27.
   */
  function SetupEvents(): (r: seq<Event>)
    ensures |r| == 3
    ensures forall i :: 0 <= i < |r| ==> r[i].Driver? && r[i].call.ChannelConfig?
    ensures r[0].call.settings.channel == LedcChannelRed && r[0].call.settings.gpioNum == PinoRed
    ensures r[1].call.settings.channel == LedcChannelGreen && r[1].call.settings.gpioNum == PinoGreen
    ensures r[2].call.settings.channel == LedcChannelBlue && r[2].call.settings.gpioNum == PinoBlue
  {
    [ Driver(ChannelConfig(ConfiguredSettings(PinoRed, LedcChannelRed))),
      Driver(ChannelConfig(ConfiguredSettings(PinoGreen, LedcChannelGreen))),
      Driver(ChannelConfig(ConfiguredSettings(PinoBlue, LedcChannelBlue))) ]
  }

  /**
   The configured channels are distinct, sit on distinct pins, and all
   start at duty 0 on the same timer in the same speed mode.
   */
  lemma SetupChannelsDistinct()
    ensures |SetupEvents()| == 3
    ensures forall i :: 0 <= i < 3 ==>
      SetupEvents()[i].Driver? && SetupEvents()[i].call.ChannelConfig? &&
      SetupEvents()[i].call.settings.duty == 0 &&
      SetupEvents()[i].call.settings.hpoint == 0 &&
      SetupEvents()[i].call.settings.timerSel == LedcTimer &&
      SetupEvents()[i].call.settings.speedMode == LedcMode
    ensures forall i, j :: 0 <= i < j < 3 ==>
      SetupEvents()[i].call.settings.channel != SetupEvents()[j].call.settings.channel &&
      SetupEvents()[i].call.settings.gpioNum != SetupEvents()[j].call.settings.gpioNum
  {
  }

  // ---------------------------------------------------------------------
  // Duties

  /**
   C's `/` on int: division truncated toward zero, so the quotient has the
   sign of the dividend. CRemIsRemainder and the bounds of CRem pin it down.
   */
  function CQuot(a: int, b: int): (q: int)
    requires b > 0
    ensures a >= 0 ==> q >= 0
    ensures a <= 0 ==> q <= 0
  {
    if a >= 0 then a / b else -((-a) / b)
  }

  /** C's `%` on int: the remainder of the truncating division, with the sign of the dividend. */
  function CRem(a: int, b: int): (r: int)
    requires b > 0
    ensures -b < r < b
    ensures a >= 0 ==> r >= 0
    ensures a <= 0 ==> r <= 0
  {
    if a >= 0 then a % b else -((-a) % b)
  }

  /** C's `/` and `%` fit together: the dividend is quotient times divisor plus remainder. */
  lemma CRemIsRemainder(a: int, b: int)
    requires b > 0
    ensures a == CQuot(a, b) * b + CRem(a, b)
  {
    if a < 0 {
      assert -a == ((-a) / b) * b + (-a) % b;
    }
  }

  /** duty_red, duty_green and duty_blue for a given incremento. */
  function DutiesOf(incremento: int): (d: Duties)
    ensures -256 < d.red < 256 && -256 < d.green < 256 && -256 < d.blue < 256
    ensures incremento >= 0 ==> 0 <= d.red <= 255 && 0 <= d.green <= 255 && 0 <= d.blue <= 255
  {
    Duties(CRem(incremento * 2, 256), CRem(incremento * 1, 256), CRem(incremento * 3, 256))
  }

  /**
   For a non-negative incremento every duty is an 8-bit value and C's
   remainder agrees with the mathematical one.
   */
  lemma DutiesInRange(incremento: int)
    requires incremento >= 0
    ensures var d := DutiesOf(incremento);
      0 <= d.red <= 255 && 0 <= d.green <= 255 && 0 <= d.blue <= 255 &&
      d.red == (2 * incremento) % 256 && d.green == incremento % 256 &&
      d.blue == (3 * incremento) % 256
  {
  }

  /** Within [0,255] the green duty is incremento itself. */
  lemma GreenIsIncremento(incremento: int)
    requires 0 <= incremento <= 255
    ensures DutiesOf(incremento).green == incremento
  {
  }

  /** The three boundary triples. */
  lemma DutiesAtBoundaries()
    ensures DutiesOf(Incremento) == Duties(10, 5, 15)
    ensures DutiesOf(255) == Duties(254, 255, 253)
    ensures DutiesOf(0) == Duties(0, 0, 0)
  {
  }

  // ---------------------------------------------------------------------
  // One iteration

  /** The log gate `contador % 1 == 0`: it is open for every value of contador. */
  function LogGate(contador: int): (open: bool)
    ensures open
  {
    CRem(contador, 1) == 0
  }

  /** What one iteration emits: six driver calls in R, G, B order, then the log line. */
  function IterationEvents(s: RampState): (e: seq<Event>)
    ensures |e| == 7
    ensures forall i :: 0 <= i < 6 ==> e[i].Driver?
    ensures e[6].Log? && e[6].incremento == s.incremento
  {
    var d := DutiesOf(s.incremento);
    [ Driver(SetDuty(LedcMode, LedcChannelRed, d.red)),
      Driver(UpdateDuty(LedcMode, LedcChannelRed)),
      Driver(SetDuty(LedcMode, LedcChannelGreen, d.green)),
      Driver(UpdateDuty(LedcMode, LedcChannelGreen)),
      Driver(SetDuty(LedcMode, LedcChannelBlue, d.blue)),
      Driver(UpdateDuty(LedcMode, LedcChannelBlue)) ]
    + (if LogGate(s.contador) then [Log(s.incremento, d.red, d.green, d.blue)] else [])
  }

  /**
   Every iteration issues exactly six driver calls, set then update for
   red, green and blue, staging that iteration's duties, and then logs
   incremento with the three duties.
   */
  lemma IterationShape(s: RampState)
    ensures var e := IterationEvents(s); var d := DutiesOf(s.incremento);
      |e| == 7 &&
      e[0] == Driver(SetDuty(LedcMode, LedcChannelRed, d.red)) &&
      e[1] == Driver(UpdateDuty(LedcMode, LedcChannelRed)) &&
      e[2] == Driver(SetDuty(LedcMode, LedcChannelGreen, d.green)) &&
      e[3] == Driver(UpdateDuty(LedcMode, LedcChannelGreen)) &&
      e[4] == Driver(SetDuty(LedcMode, LedcChannelBlue, d.blue)) &&
      e[5] == Driver(UpdateDuty(LedcMode, LedcChannelBlue)) &&
      e[6] == Log(s.incremento, d.red, d.green, d.blue)
  {
  }

  /** The events of an iteration depend on incremento alone, not on contador. */
  lemma IterationIgnoresContador(s: RampState, t: RampState)
    requires s.incremento == t.incremento
    ensures IterationEvents(s) == IterationEvents(t)
  {
  }

  /**
   Each colour's duty is staged and latched on the channel that was
   configured on that colour's pin: red on pin 25, green on 26, blue on 27.
   */
  lemma ColourReachesItsPin(s: RampState)
    ensures var e := IterationEvents(s); var d := DutiesOf(s.incremento); var c := SetupEvents();
      e[0].call.SetDuty? && e[0].call.duty == d.red &&
      e[0].call.channel == c[0].call.settings.channel && c[0].call.settings.gpioNum == PinoRed &&
      e[1].call.UpdateDuty? && e[1].call.channel == c[0].call.settings.channel &&
      e[2].call.SetDuty? && e[2].call.duty == d.green &&
      e[2].call.channel == c[1].call.settings.channel && c[1].call.settings.gpioNum == PinoGreen &&
      e[3].call.UpdateDuty? && e[3].call.channel == c[1].call.settings.channel &&
      e[4].call.SetDuty? && e[4].call.duty == d.blue &&
      e[4].call.channel == c[2].call.settings.channel && c[2].call.settings.gpioNum == PinoBlue &&
      e[5].call.UpdateDuty? && e[5].call.channel == c[2].call.settings.channel
  {
    IterationShape(s);
  }

  /** The update of incremento at the end of an iteration. */
  function NextIncremento(incremento: int): (r: int)
    ensures r == 0 || r == incremento + Incremento
    ensures Reachable(incremento) ==> Reachable(r)
    ensures Reachable(incremento) ==> (r == 0 <==> incremento == 255)
  {
    if incremento + Incremento > 255 then 0 else incremento + Incremento
  }

  /** The state after one iteration. */
  function Step(s: RampState): (t: RampState)
    ensures t.contador == s.contador + 1
    ensures Reachable(s.incremento) ==> Reachable(t.incremento)
  {
    RampState(NextIncremento(s.incremento), s.contador + 1)
  }

  /** The state at the top of the loop when tarefa_pwm first enters it. */
  const Initial: RampState := RampState(Incremento, 0)

  /**
   The state after n iterations from s: contador has counted them, and a
   reachable incremento stays reachable.
   */
  function Iterate(s: RampState, n: nat): (t: RampState)
    ensures t.contador == s.contador + n
    ensures Reachable(s.incremento) ==> Reachable(t.incremento)
  {
    if n == 0 then s else Step(Iterate(s, n - 1))
  }

  /** Everything n iterations from s emit, in order. */
  function Trace(s: RampState, n: nat): (r: seq<Event>)
    ensures |r| == 7 * n
  {
    if n == 0 then []
    else Trace(s, n - 1) + IterationEvents(Iterate(s, n - 1))
  }

  // ---------------------------------------------------------------------
  // The range of incremento

  /** The values incremento can hold at the top of the loop. */
  predicate Reachable(incremento: int)
  {
    0 <= incremento <= 255 && incremento % Incremento == 0
  }

  /** One iteration keeps incremento a multiple of 5 in [0,255]. */
  lemma StepKeepsReachable(s: RampState)
    requires Reachable(s.incremento)
    ensures Reachable(Step(s).incremento)
    ensures Step(s).contador == s.contador + 1
  {
  }

  /** From the start, incremento stays a multiple of 5 in [0,255] forever. */
  lemma {:induction false} AlwaysReachable(n: nat)
    ensures Reachable(Iterate(Initial, n).incremento)
  {
    if n > 0 {
      AlwaysReachable(n - 1);
      StepKeepsReachable(Iterate(Initial, n - 1));
    }
  }

  /**
   The reset to 0 fires exactly when incremento is 255 before the step;
   every other reachable value just advances by 5.
   */
  lemma ResetExactlyAt255(incremento: int)
    requires Reachable(incremento)
    ensures incremento + Incremento > 255 <==> incremento == 255
    ensures NextIncremento(incremento) == if incremento == 255 then 0 else incremento + 5
  {
  }

  /** Counting modulo 52, the successor of 51 is 0 and of every other position the next one. */
  lemma SuccMod52(x: nat)
    ensures (x + 1) % 52 == if x % 52 == 51 then 0 else x % 52 + 1
  {
    assert x == (x / 52) * 52 + x % 52;
    assert x + 1 == (x / 52) * 52 + (x % 52 + 1);
  }

  /** A step from the value at cycle position m lands on the value at the next position. */
  lemma StepFromCyclePosition(m: nat)
    requires m < 52
    ensures NextIncremento(5 * m) == 5 * (if m == 51 then 0 else m + 1)
  {
  }

  /**
   From any reachable value, incremento after n iterations is 5 times the
   position, counted modulo 52, of the start in the cycle 0, 5, ..., 255.
   */
  lemma {:induction false} IncrementoClosedForm(s: RampState, n: nat)
    requires Reachable(s.incremento)
    ensures Iterate(s, n).incremento == 5 * ((s.incremento / 5 + n) % 52)
  {
    var q := s.incremento / 5;
    if n == 0 {
      assert s.incremento == 5 * q;
    } else {
      IncrementoClosedForm(s, n - 1);
      SuccMod52(q + n - 1);
      StepFromCyclePosition((q + n - 1) % 52);
    }
  }

  /** The value of incremento in iteration k (counting from 0), as a function of k alone. */
  function IncrementoAt(k: nat): (r: int)
    ensures Reachable(r)
  {
    5 * ((k + 1) % 52)
  }

  /** The stepped state machine and the index formula agree on every iteration. */
  lemma IterateMatchesIndex(k: nat)
    ensures Iterate(Initial, k) == RampState(IncrementoAt(k), k)
  {
    IncrementoClosedForm(Initial, k);
  }

  /**
   The ramp climbs 5, 10, ..., 255 in the first 51 iterations (0 to 50),
   and incremento is 0 for the first time in iteration 51.
   */
  lemma FirstWrap()
    ensures forall k: nat :: k < 51 ==> Iterate(Initial, k).incremento == 5 * (k + 1)
    ensures forall k: nat :: k <= 51 ==> (Iterate(Initial, k).incremento == 0 <==> k == 51)
  {
    forall k: nat | k <= 51
      ensures Iterate(Initial, k).incremento == if k < 51 then 5 * (k + 1) else 0
    {
      IterateMatchesIndex(k);
      assert (k + 1) % 52 == if k < 51 then k + 1 else 0;
    }
  }

  /** Iteration start + d, for d < 52, holds 5 times the cycle position of start, shifted by d. */
  lemma IncrementoInWindow(start: nat, d: nat)
    requires d < 52
    ensures var p := (start + 1) % 52;
      IncrementoAt(start + d) == 5 * (if p + d < 52 then p + d else p + d - 52)
  {
    var p := (start + 1) % 52;
    assert start + 1 == ((start + 1) / 52) * 52 + p;
    assert start + d + 1 == ((start + 1) / 52) * 52 + p + d;
  }

  /** The same window, read off the stepped state machine. */
  lemma IterateInWindow(start: nat, d: nat)
    requires d < 52
    ensures var p := (start + 1) % 52;
      Iterate(Initial, start + d).incremento == 5 * (if p + d < 52 then p + d else p + d - 52)
  {
    IncrementoInWindow(start, d);
    IterateMatchesIndex(start + d);
  }

  /** The 52 values of one cycle: 0, 5, ..., 250, 255. */
  function CycleValues(): set<int>
  {
    set m | 0 <= m < 52 :: 5 * m
  }

  /** The values of one cycle are exactly the reachable values of incremento. */
  lemma CycleValuesAreReachable(v: int)
    ensures v in CycleValues() <==> Reachable(v)
  {
    if Reachable(v) {
      assert v == 5 * (v / 5);
    }
  }

  /**
   Any window of 52 consecutive iterations of the loop shows every
   reachable value of incremento (0, 5, ..., 255) at least once.
   */
  lemma CycleHits(start: nat, v: int)
    requires Reachable(v)
    ensures exists k: nat :: start <= k < start + 52 && Iterate(Initial, k).incremento == v
  {
    CycleValuesAreReachable(v);
    var p := (start + 1) % 52;
    var m :| 0 <= m < 52 && v == 5 * m;
    var d := if m >= p then m - p else m - p + 52;
    IterateInWindow(start, d);
    assert Iterate(Initial, start + d).incremento == v;
  }

  /**
   Within any window of 52 consecutive iterations no value of incremento
   repeats; with CycleHits, each of the 52 values shows exactly once.
   */
  lemma CycleNoRepeat(start: nat, j: nat, k: nat)
    requires start <= j < k < start + 52
    ensures Iterate(Initial, j).incremento != Iterate(Initial, k).incremento
  {
    IterateInWindow(start, j - start);
    IterateInWindow(start, k - start);
  }

  /** Positions 52 apart are the same position of the cycle. */
  lemma AddPeriodMod52(x: nat)
    ensures (x + 52) % 52 == x % 52
  {
    assert x == (x / 52) * 52 + x % 52;
    assert x + 52 == (x / 52 + 1) * 52 + x % 52;
  }

  /** States 52 iterations apart hold the same incremento; contador has moved on by 52. */
  lemma Period52(s: RampState, n: nat)
    requires Reachable(s.incremento)
    ensures Iterate(s, n + 52) == RampState(Iterate(s, n).incremento, Iterate(s, n).contador + 52)
  {
    IncrementoClosedForm(s, n);
    IncrementoClosedForm(s, n + 52);
    AddPeriodMod52(s.incremento / 5 + n);
  }

  /** Iteration k of a trace of n iterations occupies events 7k to 7k+6. */
  lemma {:induction false} TraceBlock(s: RampState, n: nat, k: nat)
    requires k < n
    ensures Trace(s, n)[7 * k .. 7 * k + 7] == IterationEvents(Iterate(s, k))
  {
    if k < n - 1 {
      TraceBlock(s, n - 1, k);
      assert Trace(s, n)[7 * k .. 7 * k + 7] == Trace(s, n - 1)[7 * k .. 7 * k + 7];
    } else {
      assert Trace(s, n)[7 * k .. 7 * k + 7] == IterationEvents(Iterate(s, n - 1));
    }
  }

  /**
   Every duty the loop stages, and every duty it logs, in the first n
   iterations is an 8-bit value.
   */
  lemma TraceDutiesInRange(n: nat)
    ensures forall i :: 0 <= i < |Trace(Initial, n)| && Trace(Initial, n)[i].Driver? &&
                        Trace(Initial, n)[i].call.SetDuty?
                        ==> 0 <= Trace(Initial, n)[i].call.duty <= 255
    ensures forall i :: 0 <= i < |Trace(Initial, n)| && Trace(Initial, n)[i].Log? ==>
      var e := Trace(Initial, n)[i]; 0 <= e.red <= 255 && 0 <= e.green <= 255 && 0 <= e.blue <= 255
  {
    var t := Trace(Initial, n);
    forall i | 0 <= i < |t|
      ensures t[i].Driver? && t[i].call.SetDuty? ==> 0 <= t[i].call.duty <= 255
      ensures t[i].Log? ==> 0 <= t[i].red <= 255 && 0 <= t[i].green <= 255 && 0 <= t[i].blue <= 255
    {
      var k := i / 7;
      TraceBlock(Initial, n, k);
      var s := Iterate(Initial, k);
      IterationShape(s);
      assert t[i] == IterationEvents(s)[i - 7 * k];
    }
  }

  /**
   The output repeats every 52 iterations: the driver calls and log line of
   iteration k + 52 are those of iteration k.
   */
  lemma OutputPeriodic(n: nat, k: nat)
    requires k + 52 < n
    ensures Trace(Initial, n)[7 * (k + 52) .. 7 * (k + 52) + 7] == Trace(Initial, n)[7 * k .. 7 * k + 7]
  {
    TraceBlock(Initial, n, k);
    TraceBlock(Initial, n, k + 52);
    Period52(Initial, k);
    IterationIgnoresContador(Iterate(Initial, k + 52), Iterate(Initial, k));
  }

  /** The first iteration stages (10, 5, 15) and logs incremento 5. */
  lemma FirstIteration()
    ensures Trace(Initial, 1) ==
      [ Driver(SetDuty(LedcMode, LedcChannelRed, 10)),
        Driver(UpdateDuty(LedcMode, LedcChannelRed)),
        Driver(SetDuty(LedcMode, LedcChannelGreen, 5)),
        Driver(UpdateDuty(LedcMode, LedcChannelGreen)),
        Driver(SetDuty(LedcMode, LedcChannelBlue, 15)),
        Driver(UpdateDuty(LedcMode, LedcChannelBlue)),
        Log(5, 10, 5, 15) ]
  {
    IterationShape(Initial);
  }

  // ---------------------------------------------------------------------
  // tarefa_pwm

  /**
   tarefa_pwm run for its first n loop iterations: it configures the three
   channels, then each iteration computes the duties, pushes and latches
   them channel by channel, logs them and advances incremento. Returns what
   it emitted and the values of incremento and contador at the top of the
   next iteration.
   */
  method TarefaPwm(n: nat) returns (events: seq<Event>, incremento: int, contador: nat)
    ensures events == SetupEvents() + Trace(Initial, n)
    ensures RampState(incremento, contador) == Iterate(Initial, n)
  {
    var channelRed := new ChannelConfigStruct.Uninitialized();
    var channelGreen := new ChannelConfigStruct.Uninitialized();
    var channelBlue := new ChannelConfigStruct.Uninitialized();

    ConfigurarPwm(channelRed, PinoRed, LedcChannelRed);
    ConfigurarPwm(channelGreen, PinoGreen, LedcChannelGreen);
    ConfigurarPwm(channelBlue, PinoBlue, LedcChannelBlue);

    events := [Driver(ChannelConfig(channelRed.Settings()))];
    events := events + [Driver(ChannelConfig(channelGreen.Settings()))];
    events := events + [Driver(ChannelConfig(channelBlue.Settings()))];

    var dutyRed, dutyGreen, dutyBlue := 0, 0, 0;
    incremento := Incremento;
    contador := 0;

    while contador < n
      invariant contador <= n
      invariant RampState(incremento, contador) == Iterate(Initial, contador)
      invariant events == SetupEvents() + Trace(Initial, contador)
    {
      dutyRed := CRem(incremento * 2, 256);
      dutyGreen := CRem(incremento * 1, 256);
      dutyBlue := CRem(incremento * 3, 256);

      events := events + [
        Driver(SetDuty(LedcMode, LedcChannelRed, dutyRed)),
        Driver(UpdateDuty(LedcMode, LedcChannelRed)),
        Driver(SetDuty(LedcMode, LedcChannelGreen, dutyGreen)),
        Driver(UpdateDuty(LedcMode, LedcChannelGreen)),
        Driver(SetDuty(LedcMode, LedcChannelBlue, dutyBlue)),
        Driver(UpdateDuty(LedcMode, LedcChannelBlue))];

      if CRem(contador, 1) == 0 {
        events := events + [Log(incremento, dutyRed, dutyGreen, dutyBlue)];
      }

      incremento := incremento + Incremento;
      if incremento > 255 {
        incremento := 0;
      }
      contador := contador + 1;
    }
  }
}
