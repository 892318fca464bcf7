/** The behaviour shared by both buzzer classes: the parameters and their
    validation, the values `on()` and `off()` write, and the exact sequence of
    Arduino calls each of the five blocking sound patterns makes. The lemmas
    give each pattern's shape: how many calls, how many writes of the on and
    off values, how long it blocks, how long the output is held at each
    value, and the value the pin is left at. */
module Sounds {
  import opened Arduino
  import opened Trace

  /** The `parameters` struct: the GPIO pin (`int PIN_NUM`) and the active
      level (`uint8_t ACTIVE_MODE`, 1: active high, 0: active low). */
  datatype Parameters = Parameters(pinNum: int, activeMode: byte)

  /** What the constructor sets. */
  const DefaultParameters := Parameters(-1, 0)

  /** The check `_checkParameters` makes. */
  predicate ParametersValid(p: Parameters)
  {
    p.activeMode <= 1 && p.pinNum >= 0
  }

  /** A freshly constructed object does not pass the parameter check, so
      `init()` fails until the caller sets the parameters. */
  lemma DefaultParametersInvalid()
    ensures !ParametersValid(DefaultParameters)
  {
  }

  /** The value `off()` writes: `~ACTIVE_MODE`, computed as an `int` and
      narrowed to the `uint8_t` that `digitalWrite` takes. It is the bitwise
      complement of the active mode and never equal to it. */
  function OffValue(mode: byte): (r: byte)
    ensures r as int == 255 - mode as int
    ensures r != mode
  {
    ToByte(BitNot(mode as int))
  }

  /** Complementing twice gives back the active mode. */
  lemma OffValueInvolutive(mode: byte)
    ensures OffValue(OffValue(mode)) == mode
  {
  }

  /** The call `on()` makes. */
  function OnCall(p: Parameters): Event
  {
    DigitalWrite(p.pinNum, p.activeMode)
  }

  /** The call `off()` makes. */
  function OffCall(p: Parameters): Event
  {
    DigitalWrite(p.pinNum, OffValue(p.activeMode))
  }

  /** Calls made by `init()` once the parameters pass the check. */
  function InitCalls(p: Parameters): seq<Event>
  {
    [PinMode(p.pinNum, Output), OffCall(p)]
  }

  /** `on(); delay(onMs); off(); delay(offMs);` — the body every pattern is
      built from. */
  function Beep(p: Parameters, onMs: nat, offMs: nat): seq<Event>
  {
    [OnCall(p), Delay(onMs), OffCall(p), Delay(offMs)]
  }

  function InitSound(p: Parameters): seq<Event>
  {
    Beep(p, 1000, 100)
  }

  function StopSound(p: Parameters): seq<Event>
  {
    Repeat(Beep(p, 100, 100), 2)
  }

  /** One pass of the outer loop of `soundWarning_1`. */
  function Warning1Burst(p: Parameters): seq<Event>
  {
    Repeat(Beep(p, 5, 5), 20) + [Delay(200)]
  }

  function Warning1Sound(p: Parameters): seq<Event>
  {
    Repeat(Warning1Burst(p), 10)
  }

  function Warning2Sound(p: Parameters): seq<Event>
  {
    Beep(p, 100, 100)
  }

  function Warning3Sound(p: Parameters): seq<Event>
  {
    Repeat(Beep(p, 25, 25), 10)
  }

  // ---------------------------------------------------------------------
  // Shape of each pattern. `before` is the value last written to the pin
  // before the pattern starts; every pattern writes first, so nothing below
  // depends on it.

  /** `init()` sets the pin to output and leaves it at the off value. */
  lemma InitCallsLeaveOff(p: Parameters, before: Option<byte>)
    ensures |InitCalls(p)| == 2 && InitCalls(p)[0] == PinMode(p.pinNum, Output)
    ensures LevelAfter(InitCalls(p), before) == Some(OffValue(p.activeMode))
    ensures CountWrites(InitCalls(p), p.activeMode) == 0
    ensures TotalDelay(InitCalls(p)) == 0
  {
    var t := InitCalls(p);
    var t1 := t[..1];
    assert t1[..0] == [];
    assert CountWrites(t1, p.activeMode) == 0 && TotalDelay(t1) == 0;
  }

  /** One beep: one on write, one off write, `onMs` at the on value,
      `offMs` at the off value, ending at the off value. */
  lemma BeepShape(p: Parameters, onMs: nat, offMs: nat, before: Option<byte>)
    ensures StartsWithWrite(Beep(p, onMs, offMs)) && |Beep(p, onMs, offMs)| == 4
    ensures CountWrites(Beep(p, onMs, offMs), p.activeMode) == 1
    ensures CountWrites(Beep(p, onMs, offMs), OffValue(p.activeMode)) == 1
    ensures TotalDelay(Beep(p, onMs, offMs)) == onMs + offMs
    ensures TimeAt(Beep(p, onMs, offMs), p.activeMode, before) == onMs
    ensures TimeAt(Beep(p, onMs, offMs), OffValue(p.activeMode), before) == offMs
    ensures LevelAfter(Beep(p, onMs, offMs), before) == Some(OffValue(p.activeMode))
  {
    var on, off := p.activeMode, OffValue(p.activeMode);
    var b := Beep(p, onMs, offMs);
    var b3, b2, b1 := b[..3], b[..2], b[..1];
    assert b3[..2] == b2 && b2[..1] == b1 && b1[..0] == [];
    assert DelayOf(b1[0]) == 0 && DelayOf(b3[2]) == 0;
    assert TimeAt(b1[..0], on, before) == 0 && TimeAt(b1[..0], off, before) == 0;
    assert LevelAfter(b1, before) == Some(on);
    assert CountWrites(b1, on) == 1 && CountWrites(b1, off) == 0 && TotalDelay(b1) == 0;
    assert TimeAt(b1, on, before) == 0 && TimeAt(b1, off, before) == 0;
    assert LevelAfter(b2, before) == Some(on);
    assert CountWrites(b2, on) == 1 && CountWrites(b2, off) == 0 && TotalDelay(b2) == onMs;
    assert TimeAt(b2, on, before) == onMs && TimeAt(b2, off, before) == 0;
    assert LevelAfter(b3, before) == Some(off);
    assert CountWrites(b3, on) == 1 && CountWrites(b3, off) == 1 && TotalDelay(b3) == onMs;
    assert TimeAt(b3, on, before) == onMs && TimeAt(b3, off, before) == 0;
  }

  lemma InitSoundShape(p: Parameters, before: Option<byte>)
    ensures |InitSound(p)| == 4
    ensures CountWrites(InitSound(p), p.activeMode) == 1
    ensures TotalDelay(InitSound(p)) == 1100
    ensures TimeAt(InitSound(p), p.activeMode, before) == 1000
    ensures TimeAt(InitSound(p), OffValue(p.activeMode), before) == 100
    ensures LevelAfter(InitSound(p), before) == Some(OffValue(p.activeMode))
  {
    BeepShape(p, 1000, 100, before);
  }

  lemma Warning2SoundShape(p: Parameters, before: Option<byte>)
    ensures |Warning2Sound(p)| == 4
    ensures CountWrites(Warning2Sound(p), p.activeMode) == 1
    ensures TotalDelay(Warning2Sound(p)) == 200
    ensures TimeAt(Warning2Sound(p), p.activeMode, before) == 100
    ensures TimeAt(Warning2Sound(p), OffValue(p.activeMode), before) == 100
    ensures LevelAfter(Warning2Sound(p), before) == Some(OffValue(p.activeMode))
  {
    BeepShape(p, 100, 100, before);
  }

  /** Shape of `n` beeps in a row. */
  lemma {:induction false} RepeatedBeepShape(p: Parameters, onMs: nat, offMs: nat, n: nat, before: Option<byte>)
    requires n > 0
    ensures StartsWithWrite(Repeat(Beep(p, onMs, offMs), n))
    ensures |Repeat(Beep(p, onMs, offMs), n)| == 4 * n
    ensures CountWrites(Repeat(Beep(p, onMs, offMs), n), p.activeMode) == n
    ensures CountWrites(Repeat(Beep(p, onMs, offMs), n), OffValue(p.activeMode)) == n
    ensures TotalDelay(Repeat(Beep(p, onMs, offMs), n)) == n * (onMs + offMs)
    ensures TimeAt(Repeat(Beep(p, onMs, offMs), n), p.activeMode, before) == n * onMs
    ensures TimeAt(Repeat(Beep(p, onMs, offMs), n), OffValue(p.activeMode), before) == n * offMs
    ensures LevelAfter(Repeat(Beep(p, onMs, offMs), n), before) == Some(OffValue(p.activeMode))
  {
    var b := Beep(p, onMs, offMs);
    BeepShape(p, onMs, offMs, before);
    RepeatStartsWithWrite(b, n);
    RepeatLength(b, n);
    RepeatCountWrites(b, n, p.activeMode);
    RepeatCountWrites(b, n, OffValue(p.activeMode));
    RepeatTotalDelay(b, n);
    RepeatTimeAt(b, n, p.activeMode, before);
    RepeatTimeAt(b, n, OffValue(p.activeMode), before);
    RepeatLevelAfter(b, n, before);
  }

  lemma StopSoundShape(p: Parameters, before: Option<byte>)
    ensures |StopSound(p)| == 8
    ensures CountWrites(StopSound(p), p.activeMode) == 2
    ensures TotalDelay(StopSound(p)) == 400
    ensures TimeAt(StopSound(p), p.activeMode, before) == 200
    ensures TimeAt(StopSound(p), OffValue(p.activeMode), before) == 200
    ensures LevelAfter(StopSound(p), before) == Some(OffValue(p.activeMode))
  {
    RepeatedBeepShape(p, 100, 100, 2, before);
  }

  lemma Warning3SoundShape(p: Parameters, before: Option<byte>)
    ensures |Warning3Sound(p)| == 40
    ensures CountWrites(Warning3Sound(p), p.activeMode) == 10
    ensures TotalDelay(Warning3Sound(p)) == 500
    ensures TimeAt(Warning3Sound(p), p.activeMode, before) == 250
    ensures TimeAt(Warning3Sound(p), OffValue(p.activeMode), before) == 250
    ensures LevelAfter(Warning3Sound(p), before) == Some(OffValue(p.activeMode))
  {
    RepeatedBeepShape(p, 25, 25, 10, before);
  }

  /** One burst: 20 short beeps, then a 200 ms gap at the off value. */
  lemma Warning1BurstShape(p: Parameters, before: Option<byte>)
    ensures StartsWithWrite(Warning1Burst(p))
    ensures |Warning1Burst(p)| == 81
    ensures CountWrites(Warning1Burst(p), p.activeMode) == 20
    ensures CountWrites(Warning1Burst(p), OffValue(p.activeMode)) == 20
    ensures TotalDelay(Warning1Burst(p)) == 400
    ensures TimeAt(Warning1Burst(p), p.activeMode, before) == 100
    ensures TimeAt(Warning1Burst(p), OffValue(p.activeMode), before) == 300
    ensures LevelAfter(Warning1Burst(p), before) == Some(OffValue(p.activeMode))
  {
    var on, off := p.activeMode, OffValue(p.activeMode);
    var beeps, gap := Repeat(Beep(p, 5, 5), 20), [Delay(200)];
    RepeatedBeepShape(p, 5, 5, 20, before);
    assert gap[..0] == [];
    CountWritesAppend(beeps, gap, on);
    CountWritesAppend(beeps, gap, off);
    TotalDelayAppend(beeps, gap);
    TimeAtAppend(beeps, gap, on, before);
    TimeAtAppend(beeps, gap, off, before);
    LevelAfterAppend(beeps, gap, before);
    assert (beeps + gap)[0] == beeps[0];
  }

  /** The whole of `soundWarning_1`: 10 bursts. */
  lemma Warning1SoundShape(p: Parameters, before: Option<byte>)
    ensures |Warning1Sound(p)| == 810
    ensures CountWrites(Warning1Sound(p), p.activeMode) == 200
    ensures CountWrites(Warning1Sound(p), OffValue(p.activeMode)) == 200
    ensures TotalDelay(Warning1Sound(p)) == 4000
    ensures TimeAt(Warning1Sound(p), p.activeMode, before) == 1000
    ensures TimeAt(Warning1Sound(p), OffValue(p.activeMode), before) == 3000
    ensures LevelAfter(Warning1Sound(p), before) == Some(OffValue(p.activeMode))
  {
    var burst := Warning1Burst(p);
    Warning1BurstShape(p, before);
    RepeatLength(burst, 10);
    RepeatCountWrites(burst, 10, p.activeMode);
    RepeatCountWrites(burst, 10, OffValue(p.activeMode));
    RepeatTotalDelay(burst, 10);
    RepeatTimeAt(burst, 10, p.activeMode, before);
    RepeatTimeAt(burst, 10, OffValue(p.activeMode), before);
    RepeatLevelAfter(burst, 10, before);
  }

  // ---------------------------------------------------------------------
  // The value `init()` returns, as written: on the success path control
  // reaches the end of a function declared to return `bool` without a
  // `return` statement, so no value is returned (None).

  function InitResultAsWritten(p: Parameters): Option<bool>
  {
    if !ParametersValid(p) then Some(false) else None
  }

  /** With valid parameters (pin 13, active high) `init()` as written
      returns no value, where its documentation promises true. */
  lemma InitAsWrittenReturnsNothing()
    ensures ParametersValid(Parameters(13, 1))
    ensures InitResultAsWritten(Parameters(13, 1)) == None
  {
  }
}
