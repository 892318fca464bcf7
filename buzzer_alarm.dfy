/** The class `BuzzerAlarm`: a buzzer on one GPIO pin, driven through
    `pinMode`, `digitalWrite` and `delay`. Every call it makes into the
    Arduino core is appended to `calls`; each method's contract says exactly
    which calls it appends, and the lemmas of module Sounds give the shape of
    those calls. */
module BuzzerAlarmDriver {
  import opened Arduino
  import opened Trace
  import opened Sounds

  /** The message `_checkParameters` stores when the parameters fail. */
  const ParametersError := "Error BuzzerAlarm: One or some parameters are not correct."

  class BuzzerAlarm {
    /** Last error that occurred. Only a failed parameter check writes it,
        so it stays set until the caller clears it. */
    var errorMessage: string

    /** Public: the caller sets the pin and the active mode before `Init`. */
    var parameters: Parameters

    /** The Arduino calls this object has made, oldest first. */
    var calls: seq<Event>

    constructor ()
      ensures parameters == DefaultParameters
      ensures errorMessage == "" && calls == []
    {
      parameters := DefaultParameters;
      errorMessage := "";
      calls := [];
    }

    /** The destructor: gives the pin back as an input, whatever the
        parameters are (also when the pin is still -1). */
    method Release()
      modifies this`calls
      ensures calls == old(calls) + [PinMode(parameters.pinNum, Input)]
    {
      SetPinMode(parameters.pinNum, Input);
    }

    /** `_checkParameters`: true iff the active mode is 0 or 1 and the pin is
        non-negative; on failure the error message is set, on success it is
        left as it was. */
    method CheckParameters() returns (ok: bool)
      modifies this`errorMessage
      ensures ok == ParametersValid(parameters)
      ensures errorMessage == if ok then old(errorMessage) else ParametersError
    {
      var state := parameters.activeMode <= 1 && parameters.pinNum >= 0;
      if !state {
        errorMessage := ParametersError;
        return false;
      }
      return true;
    }

    /** `init`: with invalid parameters it fails and touches no pin; with
        valid ones it makes the pin an output and switches the buzzer off.
        The success path returns true, as the header documents (the source
        returns no value there). */
    method Init() returns (ok: bool)
      modifies this`errorMessage, this`calls
      ensures ok == ParametersValid(parameters)
      ensures errorMessage == if ok then old(errorMessage) else ParametersError
      ensures calls == if ok then old(calls) + InitCalls(parameters) else old(calls)
    {
      var valid := CheckParameters();
      if !valid {
        return false;
      }
      SetPinMode(parameters.pinNum, Output);
      Off();
      return true;
    }

    /** `on`: writes the active mode to the pin. */
    method On()
      modifies this`calls
      ensures calls == old(calls) + [DigitalWrite(parameters.pinNum, parameters.activeMode)]
    {
      Write(parameters.pinNum, parameters.activeMode);
    }

    /** `off`: writes the complement of the active mode, narrowed to a byte:
        255 - ACTIVE_MODE, never the value `On` writes. */
    method Off()
      modifies this`calls
      ensures calls == old(calls) + [DigitalWrite(parameters.pinNum, 255 - parameters.activeMode)]
    {
      Write(parameters.pinNum, OffValue(parameters.activeMode));
    }

    method SoundInit()
      modifies this`calls
      ensures calls == old(calls) + InitSound(parameters)
    {
      On();
      Wait(1000);
      Off();
      Wait(100);
    }

    method SoundStop()
      modifies this`calls
      ensures calls == old(calls) + StopSound(parameters)
    {
      var i: byte := 1;
      while i <= 2
        invariant 1 <= i <= 3
        invariant calls == old(calls) + Repeat(Beep(parameters, 100, 100), i as nat - 1)
      {
        On();
        Wait(100);
        Off();
        Wait(100);
        i := i + 1;
      }
    }

    method SoundWarning1()
      modifies this`calls
      ensures calls == old(calls) + Warning1Sound(parameters)
    {
      var j: int := 1;
      while j <= 10
        invariant 1 <= j <= 11
        invariant calls == old(calls) + Repeat(Warning1Burst(parameters), j - 1)
      {
        ghost var start := calls;
        var i: byte := 1;
        while i <= 20
          invariant 1 <= i <= 21
          invariant calls == start + Repeat(Beep(parameters, 5, 5), i as nat - 1)
        {
          On();
          Wait(5);
          Off();
          Wait(5);
          i := i + 1;
        }
        Wait(200);
        assert calls == start + Warning1Burst(parameters);
        j := j + 1;
      }
    }

    method SoundWarning2()
      modifies this`calls
      ensures calls == old(calls) + Warning2Sound(parameters)
    {
      On();
      Wait(100);
      Off();
      Wait(100);
    }

    method SoundWarning3()
      modifies this`calls
      ensures calls == old(calls) + Warning3Sound(parameters)
    {
      var i: byte := 1;
      while i <= 10
        invariant 1 <= i <= 11
        invariant calls == old(calls) + Repeat(Beep(parameters, 25, 25), i as nat - 1)
      {
        On();
        Wait(25);
        Off();
        Wait(25);
        i := i + 1;
      }
    }

    // The Arduino core: each call is recorded, nothing else happens.

    method SetPinMode(pin: int, direction: PinDirection)
      modifies this`calls
      ensures calls == old(calls) + [PinMode(pin, direction)]
    {
      calls := calls + [PinMode(pin, direction)];
    }

    method Write(pin: int, value: byte)
      modifies this`calls
      ensures calls == old(calls) + [DigitalWrite(pin, value)]
    {
      calls := calls + [DigitalWrite(pin, value)];
    }

    method Wait(ms: nat)
      modifies this`calls
      ensures calls == old(calls) + [Delay(ms)]
    {
      calls := calls + [Delay(ms)];
    }
  }

  /** A freshly constructed object fails `Init`: it reports false, stores
      the error message and makes no Arduino call. */
  method FreshObjectInitFails() returns (ok: bool, message: string, made: seq<Event>)
    ensures !ok && message == ParametersError && made == []
  {
    var buzzer := new BuzzerAlarm();
    DefaultParametersInvalid();
    ok := buzzer.Init();
    message, made := buzzer.errorMessage, buzzer.calls;
  }
}
