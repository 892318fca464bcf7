# Buzzer driver for Arduino, modelled in Dafny

The repository is a driver for a buzzer on one GPIO pin. The caller sets
`parameters.PIN_NUM` and `parameters.ACTIVE_MODE` (1: the buzzer sounds on a
high level, 0: on a low level) and calls `init()`. That call validates the
parameters, makes the pin an output and switches the buzzer off. Then `on()`,
`off()` and five blocking sound patterns drive the pin: `soundInit`,
`soundStop`, `soundWarning_1`, `soundWarning_2` and `soundWarning_3`. The
driver exists twice with the same logic: class `BuzzerAlarm` and class
`Buzzer`. They differ only in the text of the error message.

The model records every call the driver makes into the Arduino core
(`pinMode`, `digitalWrite`, `delay`) as an event appended to the object's
`calls` field. Each method's contract states exactly which events it
appends. Lemmas then give the shape of each pattern: the number of events,
the number of on writes, the total blocking time, the time spent at the on
and off values, and the value the pin is left at.

Files:

- `arduino.dfy` (module `Arduino`): the `uint8_t` type, the events, C++ `~`
  and the narrowing of an `int` to `uint8_t`.
- `trace.dfy` (module `Trace`): measures over event sequences. `TotalDelay`
  is the blocking time. `CountWrites` counts the writes of one value.
  `LevelAfter` is the value last written. `TimeAt` is the time held at a
  value. `Repeat` stands for a counted loop. The lemmas show how each measure
  behaves under concatenation and repetition.
- `sounds.dfy` (module `Sounds`): the parameters, their validation, the on
  and off values, and the exact calls of `init` and of each pattern. It also
  holds the lemmas that give each pattern's shape. Both classes share it.
- `buzzer_alarm.dfy` (module `BuzzerAlarmDriver`): class `BuzzerAlarm`.
- `buzzer.dfy` (module `BuzzerDriver`): class `Buzzer`.

Names: `parameters.PIN_NUM` is `parameters.pinNum`, `ACTIVE_MODE` is
`activeMode`, and `_checkParameters` is `CheckParameters`. The destructor is
`Release`. The Arduino calls `pinMode`, `digitalWrite` and `delay` are the
recording methods `SetPinMode`, `Write` and `Wait`. Counters declared
`uint8_t` in the loops are `byte` in the model. They never exceed 21, so they
never wrap.

The patterns, with `b(on, off)` standing for `on(); delay(on); off();
delay(off);`:

| pattern | calls | events | on writes | blocking | at on value | at off value |
|---|---|---|---|---|---|---|
| `soundInit` | b(1000, 100) | 4 | 1 | 1100 ms | 1000 ms | 100 ms |
| `soundStop` | 2 × b(100, 100) | 8 | 2 | 400 ms | 200 ms | 200 ms |
| `soundWarning_1` | 10 × (20 × b(5, 5), delay 200) | 810 | 200 | 4000 ms | 1000 ms | 3000 ms |
| `soundWarning_2` | b(100, 100) | 4 | 1 | 200 ms | 100 ms | 100 ms |
| `soundWarning_3` | 10 × b(25, 25) | 40 | 10 | 500 ms | 250 ms | 250 ms |

Every pattern leaves the pin at the off value. None of these facts depends
on what was written to the pin before the pattern started.

## Model

| member | source | states |
|---|---|---|
| `BuzzerAlarmDriver.BuzzerAlarm.constructor` | BuzzerAlarm.cpp:6-10 | parameters start as PIN_NUM = -1, ACTIVE_MODE = 0; no error message, no Arduino call |
| `BuzzerAlarmDriver.BuzzerAlarm.Release` | BuzzerAlarm.cpp:12-16 | the destructor appends exactly one call: `pinMode(PIN_NUM, INPUT)` with the current pin, even -1 |
| `BuzzerAlarmDriver.BuzzerAlarm.CheckParameters` | BuzzerAlarm.cpp:30-41 | returns true iff ACTIVE_MODE <= 1 and PIN_NUM >= 0; on failure errorMessage becomes the fixed "Error BuzzerAlarm: ..." text, on success it is unchanged; no other field changes |
| `BuzzerAlarmDriver.BuzzerAlarm.Init` | BuzzerAlarm.cpp:18-28 | invalid parameters: returns false, sets the error message, makes no Arduino call; valid: appends exactly `pinMode(PIN_NUM, OUTPUT)` then the off write and returns true (corrected; see Findings) |
| `BuzzerAlarmDriver.BuzzerAlarm.On` | BuzzerAlarm.cpp:43-46 | appends exactly `digitalWrite(PIN_NUM, ACTIVE_MODE)` |
| `BuzzerAlarmDriver.BuzzerAlarm.Off` | BuzzerAlarm.cpp:48-51 | appends exactly `digitalWrite(PIN_NUM, 255 - ACTIVE_MODE)`, the narrowed `~ACTIVE_MODE` |
| `BuzzerAlarmDriver.BuzzerAlarm.SoundInit` | BuzzerAlarm.cpp:53-59 | appends exactly on, delay 1000, off, delay 100 |
| `BuzzerAlarmDriver.BuzzerAlarm.SoundStop` | BuzzerAlarm.cpp:61-70 | appends exactly 2 copies of on, delay 100, off, delay 100 (loop proved by invariant) |
| `BuzzerAlarmDriver.BuzzerAlarm.SoundWarning1` | BuzzerAlarm.cpp:72-85 | appends exactly 10 bursts, each 20 copies of on, delay 5, off, delay 5 followed by delay 200 (nested loops proved by invariants) |
| `BuzzerAlarmDriver.BuzzerAlarm.SoundWarning2` | BuzzerAlarm.cpp:87-93 | appends exactly on, delay 100, off, delay 100 |
| `BuzzerAlarmDriver.BuzzerAlarm.SoundWarning3` | BuzzerAlarm.cpp:95-104 | appends exactly 10 copies of on, delay 25, off, delay 25 (loop proved by invariant) |
| `BuzzerAlarmDriver.FreshObjectInitFails` | BuzzerAlarm.cpp:6-10 | on a freshly constructed object `init` returns false, stores the "Error BuzzerAlarm: ..." message and makes no Arduino call |
| `BuzzerDriver.Buzzer.constructor` | Buzzer.cpp:10-14 | parameters start as PIN_NUM = -1, ACTIVE_MODE = 0; no error message, no Arduino call |
| `BuzzerDriver.Buzzer.Release` | Buzzer.cpp:16-20 | the destructor appends exactly `pinMode(PIN_NUM, INPUT)` |
| `BuzzerDriver.Buzzer.CheckParameters` | Buzzer.cpp:34-45 | returns true iff ACTIVE_MODE <= 1 and PIN_NUM >= 0; on failure errorMessage becomes "One or some parameters are not correct.", on success it is unchanged |
| `BuzzerDriver.Buzzer.Init` | Buzzer.cpp:22-32 | invalid parameters: returns false with no Arduino call; valid: appends `pinMode(PIN_NUM, OUTPUT)` then the off write and returns true (corrected; see Findings) |
| `BuzzerDriver.Buzzer.On` | Buzzer.cpp:47-50 | appends exactly `digitalWrite(PIN_NUM, ACTIVE_MODE)` |
| `BuzzerDriver.Buzzer.Off` | Buzzer.cpp:52-55 | appends exactly `digitalWrite(PIN_NUM, 255 - ACTIVE_MODE)` |
| `BuzzerDriver.Buzzer.SoundInit` | Buzzer.cpp:57-63 | appends exactly on, delay 1000, off, delay 100 |
| `BuzzerDriver.Buzzer.SoundStop` | Buzzer.cpp:65-74 | appends exactly 2 copies of on, delay 100, off, delay 100 |
| `BuzzerDriver.Buzzer.SoundWarning1` | Buzzer.cpp:76-89 | appends exactly 10 bursts of 20 × (on, delay 5, off, delay 5) then delay 200 |
| `BuzzerDriver.Buzzer.SoundWarning2` | Buzzer.cpp:91-97 | appends exactly on, delay 100, off, delay 100 |
| `BuzzerDriver.Buzzer.SoundWarning3` | Buzzer.cpp:99-108 | appends exactly 10 copies of on, delay 25, off, delay 25 |
| `BuzzerDriver.FreshObjectInitFails` | Buzzer.cpp:10-14 | on a freshly constructed object `init` returns false, stores "One or some parameters are not correct." and makes no Arduino call |
| `Arduino.ToByte` | BuzzerAlarm.cpp:50 | narrowing an `int` to `uint8_t` keeps the value modulo 256 |
| `Sounds.OffValue` | BuzzerAlarm.cpp:48-51 | the off value is 255 - ACTIVE_MODE and differs from the on value for every byte |
| `Sounds.OffValueInvolutive` | Buzzer.cpp:52-55 | complementing the off value gives back the active mode |
| `Sounds.DefaultParametersInvalid` | BuzzerAlarm.cpp:30-32 | the constructor's defaults (-1, 0) fail the parameter check |
| `Sounds.InitCallsLeaveOff` | BuzzerAlarm.cpp:25-27 | a successful `init` makes two calls, sets the pin to output first, writes no on value, does not block, and leaves the pin at the off value |
| `Sounds.BeepShape` | BuzzerAlarm.cpp:55-58 | `on(); delay(a); off(); delay(b);` makes 4 calls, one on and one off write, blocks a + b ms, holds the on value a ms and the off value b ms, and ends at the off value |
| `Sounds.RepeatedBeepShape` | BuzzerAlarm.cpp:97-103 | n > 0 beeps make 4n calls and n on and n off writes; they block n(a + b) ms, hold on n·a ms and off n·b ms, and end off |
| `Sounds.InitSoundShape` | BuzzerAlarm.cpp:53-59 | `soundInit`: 4 calls, 1 on write, 1100 ms, 1000 ms on, 100 ms off, ends off |
| `Sounds.StopSoundShape` | BuzzerAlarm.cpp:61-70 | `soundStop`: 8 calls, 2 on writes, 400 ms, 200 ms on, 200 ms off, ends off |
| `Sounds.Warning1BurstShape` | BuzzerAlarm.cpp:76-83 | one outer pass of `soundWarning_1`: 81 calls, 20 on and 20 off writes, 400 ms, 100 ms on, 300 ms off, ends off |
| `Sounds.Warning1SoundShape` | BuzzerAlarm.cpp:72-85 | `soundWarning_1`: 810 calls, 200 on and 200 off writes, 4000 ms, 1000 ms on, 3000 ms off, ends off |
| `Sounds.Warning2SoundShape` | BuzzerAlarm.cpp:87-93 | `soundWarning_2`: 4 calls, 1 on write, 200 ms, 100 ms on, 100 ms off, ends off |
| `Sounds.Warning3SoundShape` | BuzzerAlarm.cpp:95-104 | `soundWarning_3`: 40 calls, 10 on writes, 500 ms, 250 ms on, 250 ms off, ends off |
| `Sounds.InitAsWrittenReturnsNothing` | BuzzerAlarm.cpp:18-28 | as written, `init` with valid parameters (pin 13, active high) returns no value |

## Left out

- What `pinMode`, `digitalWrite` and `delay` do in hardware. They are part of the Arduino core, which is not part of this model, so each is one recorded event. Real elapsed time and timing jitter are left out with them.
- The Arduino core's own narrowing of the pin argument to `uint8_t` (a pin of -1 reaches the core as 255). Events carry the pin as the driver passes it.
- How `digitalWrite` reads a byte other than 0 or 1. Under the usual "zero is LOW, anything else is HIGH" rule, `off()` with ACTIVE_MODE = 1 writes 254, which reads as HIGH, the same level as `on()`, so an active-high buzzer would never be silenced. Stating that needs the core's semantics, so the model proves only that the two written values differ.
- The width of C++ `int` for PIN_NUM. The driver does no arithmetic on it, so the model uses an unbounded integer.
- `String` heap allocation. `errorMessage` is a plain string.
- The header-guard typo and `Buzzer.h` declaring `BuzzerAlarm` while `Buzzer.cpp` defines `Buzzer`. These are build problems, not behaviour; the `Buzzer` class is modelled as `Buzzer.cpp` writes it.
- A non-blocking tick engine, a blink engine, repeat counts, stop or busy queries, error kinds and further patterns (heartbeat, SOS and others). The code has none of these; the model follows the code.
- `BuzzerAlarmDriver.BuzzerAlarm.Init` and `BuzzerDriver.Buzzer.Init` return true on success, where the code returns no value (see Findings).

## Findings

| source | as written | input that shows it | evidently intended | confidence | as-written member | corrected member |
|---|---|---|---|---|---|---|
| BuzzerAlarm.cpp:18-28 | on the success path `init` reaches the end of a `bool` function without `return`, so the caller reads an undefined value | ACTIVE_MODE = 1, PIN_NUM = 13 | return true, as BuzzerAlarm.h:44-48 documents | high; not executed | `Sounds.InitAsWrittenReturnsNothing` | `BuzzerAlarmDriver.BuzzerAlarm.Init` |
| Buzzer.cpp:22-32 | the same missing `return` in `Buzzer::init` | ACTIVE_MODE = 1, PIN_NUM = 13 | return true | high; not executed | `Sounds.InitAsWrittenReturnsNothing` | `BuzzerDriver.Buzzer.Init` |
