// igt/igt_ds.py: how the IGT driver turns a Sequence into the pulse, the
// pulse train, the number of train repetitions and the ramp modulation it
// uploads to the generator.

module IgtDs {
  import opened Common
  import opened EquipmentTable
  import opened Sequences
  import opened TransducerXYZ

  /** The phases of a pulse: the generator's default, or an explicit list. */
  datatype PhaseSetting = DefaultPhases | Phases(values: seq<real>)

  /** A unifus pulse: duration and delay [ms], frequencies [Hz], amplitudes [%]. */
  datatype Pulse = Pulse(
    channels: int,
    duration: real,
    delay: real,
    frequencies: seq<int>,
    amplitudes: seq<real>,
    phases: PhaseSetting)

  /** The arguments of setPulseModulation: the ramp-up attenuations and
      their step [ms], then the ramp-down attenuations and their step. */
  datatype Modulation = Modulation(rampUp: seq<int>, upStep: real, rampDown: seq<int>, downStep: real)

  /** The outcome of looking up the focus in the steer table named by
      steer_info (the file, the row whose 'Distance' is round(focus, 1)). */
  datatype TableLookup = NoTableFile | NoMatchingFocus | DuplicateFocus | MatchingRow(phases: seq<real>)

  /** What the package resource named by steer_info holds: the parsed
      element definition of a '.ini' file (None when it cannot be read),
      and the result of the steer-table lookup otherwise. */
  datatype SteerResource = SteerResource(definition: Option<ElementsSection>, table: TableLookup)

  /** Python's round(x, 1), on exact decimals. */
  function RoundTenth(x: real): (r: real)
    ensures x - 0.05 <= r <= x + 0.05
  {
    RoundHalfEven(x * 10.0) as real / 10.0
  }

  /** The pulse before its phases: one operating frequency in Hz and one
      amplitude for all channels; the delay is the rest of the repetition
      interval, rounded to 0.1 ms. */
  function BasePulse(nChannels: int, t: Timing, operFreq: int, ampl: real): (pulse: Pulse)
  {
    Pulse(nChannels, t.pulseDur, RoundTenth(t.pulseRepInt - t.pulseDur), [operFreq * 1000], [ampl], DefaultPhases)
  }

  /** The pulse's frequencies [Hz] as computePhases receives them. */
  function PulseFrequencies(pulse: Pulse): seq<real>
  {
    seq(|pulse.frequencies|, i requires 0 <= i < |pulse.frequencies| => pulse.frequencies[i] as real)
  }

  /** _set_phases. On the '.ini' path the phases are computed for the aim
      point z = natural_foc - focus and then discarded, so only the ways
      computePhases can stop the program reach the caller; the pulse keeps
      its phases. On the steer-table path every lookup outcome stops the
      program, and a matching row fails at igt_ds.py:408. So whenever the
      call returns, it returns the pulse it was given. */
  function SetPhasesOutcome(pulse: Pulse, focus: real, steerInfo: Option<string>, naturalFoc: real,
                            dephasing: Option<seq<real>>, res: SteerResource, sqrt: real -> real): (r: Result<Pulse>)
    ensures r.Ok? ==> r.value == pulse
    ensures r != Rejected
    ensures steerInfo.None? ==> r == Raised(AttributeError)
    ensures steerInfo.Some? && !EndsWith(steerInfo.value, ".ini") ==> !r.Ok?
    ensures (&& steerInfo.Some? && EndsWith(steerInfo.value, ".ini")
             && (res.definition.None? || Loaded(res.definition.value).None?)) ==> r == Exited
    ensures steerInfo.Some? && EndsWith(steerInfo.value, ".ini") &&
            res.definition.Some? && Loaded(res.definition.value).Some? ==>
      var n, freqs := |Loaded(res.definition.value).value|, PulseFrequencies(pulse);
      (r == Ok(pulse) <==>
         || !FrequenciesFit(freqs, n)
         || (&& WavelengthsDefined(freqs, n)
             && (dephasing.Some? ==> |dephasing.value| == 1 && dephasing.value[0] != 0.0)))
  {
    if steerInfo.None? then Raised(AttributeError)
    else if EndsWith(steerInfo.value, ".ini") then
      if res.definition.None? || Loaded(res.definition.value).None? then Exited
      else
        match PhasesFor(Loaded(res.definition.value).value, PulseFrequencies(pulse), Point(0.0, 0.0, naturalFoc - focus), dephasing, sqrt)
        case Exited => Exited
        case Raised(e) => Raised(e)
        case _ => Ok(pulse)
    else if res.table.MatchingRow? then Raised(AttributeError)
    else Exited
  }

  /** _set_phases. */
  method SetPhases(pulse: Pulse, focus: real, steerInfo: Option<string>, naturalFoc: real,
                   dephasing: Option<seq<real>>, res: SteerResource, sqrt: real -> real) returns (r: Result<Pulse>)
    ensures r == SetPhasesOutcome(pulse, focus, steerInfo, naturalFoc, dephasing, res, sqrt)
  {
    if steerInfo.None? {
      return Raised(AttributeError);
    }
    if EndsWith(steerInfo.value, ".ini") {
      var trans := new Transducer();
      if res.definition.None? {
        return Exited;
      }
      var ok := trans.LoadConfig(res.definition.value);
      if !ok {
        return Exited;
      }
      var aim := naturalFoc - focus;
      var phases := trans.ComputePhases(PulseFrequencies(pulse), Point(0.0, 0.0, aim), dephasing, sqrt);
      if phases.Exited? {
        return Exited;
      }
      if phases.Raised? {
        return Raised(phases.error);
      }
      return Ok(pulse);
    }
    match res.table
    case MatchingRow(_) =>
      return Raised(AttributeError);
    case _ =>
      return Exited;
  }

  /** The steer-table branch's dephasing of a row of phases: only the first
      entry of the list is used, even when there are more. */
  method DephaseTablePhases(phases: seq<real>, dephasing: Option<seq<real>>) returns (r: Result<seq<real>>)
    ensures dephasing.None? ==> r == Ok(phases)
    ensures dephasing.Some? && |dephasing.value| == 0 ==> r == Raised(IndexError)
    ensures dephasing.Some? && |dephasing.value| > 0 && dephasing.value[0] == 0.0 ==> r == Raised(ZeroDivisionError)
    ensures dephasing.Some? && |dephasing.value| > 0 && dephasing.value[0] != 0.0 ==>
      var delta := dephasing.value[0];
      r == Ok(Dephased(phases, delta, RoundHalfEven(360.0 / delta)))
  {
    if dephasing.None? {
      return Ok(phases);
    }
    if |dephasing.value| == 0 {
      return Raised(IndexError);
    }
    var delta := dephasing.value[0];
    if delta == 0.0 {
      return Raised(ZeroDivisionError);
    }
    var dephased := Dephase(phases, delta);
    return Ok(dephased);
  }

  /** The phase choice of _define_pulse: a dephasing list with one entry
      per transducer element replaces the phases verbatim; any other goes
      through _set_phases, so the pulse never carries explicit phases.
      Either way the pulse has one frequency in Hz and one amplitude, and a
      delay within 0.05 ms of the rest of the repetition interval. */
  function DefinedPulse(nChannels: int, t: Timing, operFreq: int, ampl: real, focus: real,
                        elements: int, steerInfo: Option<string>, naturalFoc: real,
                        dephasing: Option<seq<real>>, res: SteerResource, sqrt: real -> real): (r: Result<Pulse>)
    ensures dephasing.Some? && |dephasing.value| == elements ==> r.Ok? && r.value.phases == Phases(dephasing.value)
    ensures !(dephasing.Some? && |dephasing.value| == elements) && r.Ok? ==> r.value.phases == DefaultPhases
    ensures r.Ok? ==> r.value.frequencies == [operFreq * 1000] && r.value.amplitudes == [ampl]
    ensures r.Ok? ==> r.value.duration == t.pulseDur
                      && t.pulseRepInt - t.pulseDur - 0.05 <= r.value.delay <= t.pulseRepInt - t.pulseDur + 0.05
  {
    var pulse := BasePulse(nChannels, t, operFreq, ampl);
    if dephasing.Some? && |dephasing.value| == elements then Ok(pulse.(phases := Phases(dephasing.value)))
    else SetPhasesOutcome(pulse, focus, steerInfo, naturalFoc, dephasing, res, sqrt)
  }

  /** floor(dur / interval) whole intervals fit in dur, one more does not. */
  lemma FloorFits(dur: real, interval: real)
    ensures interval > 0.0 ==>
      var n := (dur / interval).Floor;
      n as real * interval <= dur < (n + 1) as real * interval
  {
    if interval > 0.0 {
      var q := dur / interval;
      var n := q.Floor;
      assert n as real <= q < n as real + 1.0;
      assert q * interval == dur;
      var m := (n + 1) as real;
      assert q < m;
      MulMonotone(n as real, q, interval);
      MulMonotone(q, m, interval);
      assert dur < m * interval;
    }
  }

  /** math.floor(dur / interval): the largest number of whole intervals
      that fit in dur, failing on a zero interval. */
  function RepetitionCount(dur: real, interval: real): (r: Result<int>)
    ensures r.Ok? || r == Raised(ZeroDivisionError)
    ensures r == Raised(ZeroDivisionError) <==> interval == 0.0
    ensures interval > 0.0 ==> r.value as real * interval <= dur < (r.value + 1) as real * interval
  {
    if interval == 0.0 then Raised(ZeroDivisionError)
    else
      FloorFits(dur, interval);
      Ok((dur / interval).Floor)
  }

  lemma MulMonotone(a: real, b: real, c: real)
    ensures a <= b && c > 0.0 ==> a * c <= b * c
    ensures a < b && c > 0.0 ==> a * c < b * c
  {
  }

  /** n copies of the same pulse; `n * [pulse]` is empty for n <= 0. */
  function Repeat(pulse: Pulse, n: int): (r: seq<Pulse>)
    ensures n > 0 ==> |r| == n
    ensures n <= 0 ==> r == []
    ensures forall i :: 0 <= i < |r| ==> r[i] == pulse
  {
    seq(NonNeg(n), _ => pulse)
  }

  // ---------------------------------------------------------------------
  // Ramping

  const MIN_RAMP_TEMP_RES: real := 0.005   // [ms]
  const MAX_RAMP_STEPS: int := 1023

  /** The step of the ramp: the best resolution, unless that needs more
      than 1023 steps, in which case the ramp is spread over 1023 steps. */
  function RampResolution(dur: real): (res: real)
    ensures res == MIN_RAMP_TEMP_RES || res == dur / MAX_RAMP_STEPS as real
  {
    if Trunc(dur / MIN_RAMP_TEMP_RES) > MAX_RAMP_STEPS then dur / MAX_RAMP_STEPS as real
    else MIN_RAMP_TEMP_RES
  }

  /** For a non-negative ramp duration the step is positive and the
      envelope has between 0 and 1023 points. */
  lemma RampStepsBounded(dur: real)
    requires dur >= 0.0
    ensures RampResolution(dur) > 0.0
    ensures 0 <= (dur / RampResolution(dur)).Floor <= MAX_RAMP_STEPS
  {
    if Trunc(dur / MIN_RAMP_TEMP_RES) > MAX_RAMP_STEPS {
      assert dur > 0.0;
      assert dur / (dur / 1023.0) == 1023.0;
    } else {
      assert (dur / MIN_RAMP_TEMP_RES).Floor == Trunc(dur / MIN_RAMP_TEMP_RES);
    }
  }

  /** numpy.linspace(a, b, n). */
  function Linspace(a: real, b: real, n: nat): (r: seq<real>)
    ensures |r| == n
  {
    if n == 1 then [a]
    else
      var step := (b - a) / ((n - 1) as real);
      seq(n, i requires 0 <= i < n => a + (i as real) * step)
  }

  /** The linear envelope: evenly spaced from 0 to 1 and non-decreasing. */
  lemma LinearEnvelope(n: nat)
    ensures var env := Linspace(0.0, 1.0, n);
      && (n >= 1 ==> env[0] == 0.0)
      && (n >= 2 ==> env[n - 1] == 1.0)
      && (forall i :: 0 <= i < n ==> 0.0 <= env[i] <= 1.0)
      && (forall i, j :: 0 <= i <= j < n ==> env[i] <= env[j])
  {
    var env := Linspace(0.0, 1.0, n);
    if n >= 2 {
      LinearPoint(n, n - 1);
      assert ((n - 1) as real) * (1.0 / (n - 1) as real) == 1.0;
      forall i, j | 0 <= i <= j < n
        ensures 0.0 <= env[i] <= env[j] <= 1.0
      {
        LinearPointsOrdered(n, i, j);
      }
    }
  }

  /** Point i of the linear envelope of n >= 2 points. */
  lemma LinearPoint(n: nat, i: int)
    requires n >= 2 && 0 <= i < n
    ensures Linspace(0.0, 1.0, n)[i] == (i as real) * (1.0 / (n - 1) as real)
  {
  }

  lemma LinearPointsOrdered(n: nat, i: int, j: int)
    requires n >= 2 && 0 <= i <= j < n
    ensures 0.0 <= Linspace(0.0, 1.0, n)[i] <= Linspace(0.0, 1.0, n)[j] <= 1.0
  {
    LinearPoint(n, i);
    LinearPoint(n, j);
    FractionsOrdered(i as real, j as real, (n - 1) as real, Linspace(0.0, 1.0, n)[i], Linspace(0.0, 1.0, n)[j]);
  }

  /** x = a / d and y = b / d lie in order within [0, 1] when a <= b <= d. */
  lemma FractionsOrdered(a: real, b: real, d: real, x: real, y: real)
    requires 0.0 <= a <= b <= d && d > 0.0
    requires x == a * (1.0 / d) && y == b * (1.0 / d)
    ensures 0.0 <= x <= y <= 1.0
  {
    var step := 1.0 / d;
    assert d * step == 1.0;
    MulMonotone(0.0, a, step);
    MulMonotone(a, b, step);
    MulMonotone(b, d, step);
  }

  /** One point of the Tukey envelope with alpha = 1: within [0, 1] when
      the cosine is within [-1, 1]. */
  function TukeyPoint(x: real, cos: real -> real): (y: real)
    ensures -1.0 <= cos((2.0 * PI / 1.0) * (x - 1.0 / 2.0)) <= 1.0 ==> 0.0 <= y <= 1.0
  {
    0.5 * (1.0 + cos((2.0 * PI / 1.0) * (x - 1.0 / 2.0)))
  }

  const PI: real := 3.141592653589793

  /** The envelope _get_ramping_amplitude returns for a ramp of dur ms at
      step res: a linear or Tukey ramp of floor(dur / res) points. Any other
      shape reaches the return with the envelope never assigned. */
  function Envelope(shape: string, dur: real, res: real, cos: real -> real): (r: Result<seq<real>>)
    ensures r == Raised(UnboundLocalError) <==> shape != RAMP_LIN && shape != RAMP_TUK
    ensures r.Ok? ==> res != 0.0 && |r.value| == (dur / res).Floor
    ensures (shape == RAMP_LIN || shape == RAMP_TUK) && res > 0.0 && dur >= 0.0 ==> r.Ok?
  {
    if shape != RAMP_LIN && shape != RAMP_TUK then Raised(UnboundLocalError)
    else if res == 0.0 then Raised(ZeroDivisionError)
    else
      var n := (dur / res).Floor;
      if n < 0 then Raised(ValueError)
      else if shape == RAMP_LIN then Ok(Linspace(0.0, 1.0, n))
      else
        var x := Linspace(0.0, 1.0 / 2.0, n);
        Ok(seq(n, i requires 0 <= i < n => TukeyPoint(x[i], cos)))
  }

  /** The Tukey ramp stays within [0, 1] whatever cosine is supplied, as
      long as it keeps to [-1, 1], and rises from 0 to 1 when it agrees
      with the cosine at -pi and 0. */
  lemma TukeyEnvelope(dur: real, res: real, cos: real -> real)
    requires forall t :: -1.0 <= cos(t) <= 1.0
    requires Envelope(RAMP_TUK, dur, res, cos).Ok?
    ensures var env := Envelope(RAMP_TUK, dur, res, cos).value;
      && (forall i :: 0 <= i < |env| ==> 0.0 <= env[i] <= 1.0)
      && (|env| >= 1 && cos(-PI) == -1.0 ==> env[0] == 0.0)
      && (|env| >= 2 && cos(0.0) == 1.0 ==> env[|env| - 1] == 1.0)
  {
    var n := (dur / res).Floor;
    var x := Linspace(0.0, 1.0 / 2.0, n);
    if n >= 2 {
      assert x[0] == 0.0;
      assert x[n - 1] == 0.5;
    } else if n == 1 {
      assert x[0] == 0.0;
    }
  }

  /** _get_ramping_amplitude. The Tukey envelope is filled in place. */
  method GetRampingAmplitude(shape: string, dur: real, res: real, cos: real -> real) returns (r: Result<seq<real>>)
    ensures r == Envelope(shape, dur, res, cos)
  {
    if shape == RAMP_LIN || shape == RAMP_TUK {
      if res == 0.0 {
        return Raised(ZeroDivisionError);
      }
      var n := (dur / res).Floor;
      if n < 0 {
        return Raised(ValueError);
      }
      if shape == RAMP_LIN {
        return Ok(Linspace(0.0, 1.0, n));
      }
      var alpha := 1.0;
      var x := Linspace(0.0, alpha / 2.0, n);
      assert x == Linspace(0.0, 1.0 / 2.0, n);
      var ampl := new real[n];
      var i := 0;
      while i < n
        invariant 0 <= i <= n
        invariant forall j :: 0 <= j < i ==> ampl[j] == TukeyPoint(x[j], cos)
      {
        ampl[i] := 0.5 * (1.0 + cos((2.0 * PI / alpha) * (x[i] - alpha / 2.0)));
        i := i + 1;
      }
      assert ampl[..] == seq(n, i requires 0 <= i < n => TukeyPoint(x[i], cos));
      return Ok(ampl[..]);
    }
    return Raised(UnboundLocalError);
  }

  function Reverse<T>(s: seq<T>): (r: seq<T>)
    ensures |r| == |s|
  {
    seq(|s|, i requires 0 <= i < |s| => s[|s| - 1 - i])
  }

  /** The ramp-down attenuations: int(100 * env[i]). */
  function RampDown(env: seq<real>): (r: seq<int>)
    ensures |r| == |env|
  {
    seq(|env|, i requires 0 <= i < |env| => Trunc(env[i] * 100.0))
  }

  /** The ramp-up attenuations: the envelope flipped, then as ramp-down. */
  function RampUp(env: seq<real>): (r: seq<int>)
    ensures |r| == |env|
  {
    var flipped := Reverse(env);
    seq(|flipped|, i requires 0 <= i < |flipped| => Trunc(flipped[i] * 100.0))
  }

  /** The two ramps have the envelope's length, are reverses of each other,
      and stay within [0, 100] for an envelope within [0, 1]. */
  lemma RampsMirror(env: seq<real>)
    ensures RampUp(env) == Reverse(RampDown(env))
    ensures (forall i :: 0 <= i < |env| ==> 0.0 <= env[i] <= 1.0) ==>
      forall i :: 0 <= i < |env| ==> 0 <= RampDown(env)[i] <= 100 && 0 <= RampUp(env)[i] <= 100
  {
  }

  /** _apply_ramping: the modulation sent to the generator. */
  method ApplyRamping(t: Timing, cos: real -> real) returns (r: Result<Modulation>)
    ensures var res := RampResolution(t.pulseRampDur);
      var env := Envelope(t.pulseRampShape, t.pulseRampDur, res, cos);
      && (!env.Ok? ==> r == Raised(env.error))
      && (env.Ok? ==> r == Ok(Modulation(RampUp(env.value), res, RampDown(env.value), res)))
  {
    var res := MIN_RAMP_TEMP_RES;
    var steps := Trunc(t.pulseRampDur / res);
    if steps > MAX_RAMP_STEPS {
      res := t.pulseRampDur / MAX_RAMP_STEPS as real;
    }
    var env := GetRampingAmplitude(t.pulseRampShape, t.pulseRampDur, res, cos);
    if !env.Ok? {
      return Raised(env.error);
    }
    var rampDown := seq(|env.value|, i requires 0 <= i < |env.value| => Trunc(env.value[i] * 100.0));
    var flipped := Reverse(env.value);
    var rampUp := seq(|flipped|, i requires 0 <= i < |flipped| => Trunc(flipped[i] * 100.0));
    return Ok(Modulation(rampUp, res, rampDown, res));
  }

  /** A negative ramp duration reaches numpy.linspace with a negative number
      of points. */
  lemma NegativeRampDuration(t: Timing, cos: real -> real)
    requires t.pulseRampDur < 0.0 && (t.pulseRampShape == RAMP_LIN || t.pulseRampShape == RAMP_TUK)
    ensures Envelope(t.pulseRampShape, t.pulseRampDur, RampResolution(t.pulseRampDur), cos) == Raised(ValueError)
  {
    assert RampResolution(t.pulseRampDur) == MIN_RAMP_TEMP_RES;
    assert t.pulseRampDur / MIN_RAMP_TEMP_RES < 0.0;
  }

  // ---------------------------------------------------------------------
  // The driver

  class IgtDriver {
    /** The channel count the generator reports on connection. */
    const nChannels: int
    /** The pulses of one train; None before a sequence is sent. */
    var pulses: Option<seq<Pulse>>
    var pulseTrainDelay: real
    var nPulseTrainRep: int
    /** The last modulation handed to setPulseModulation. */
    var modulation: Option<Modulation>

    constructor (nChannels: int)
      ensures this.nChannels == nChannels && pulses == None
      ensures pulseTrainDelay == 0.0 && nPulseTrainRep == 0 && modulation == None
    {
      this.nChannels := nChannels;
      pulses := None;
      pulseTrainDelay := 0.0;
      nPulseTrainRep := 0;
      modulation := None;
    }

    /** _define_pulse. */
    method DefinePulse(s: Sequence, res: SteerResource, sqrt: real -> real) returns (r: Result<Pulse>)
      ensures r == DefinedPulse(nChannels, s.timing, s.operFreq, s.ampl, s.focus, s.tran.elements,
                                s.tran.steerInfo, s.tran.naturalFoc, s.dephasingDegree, res, sqrt)
    {
      var t := s.timing;
      var operFreqHz := s.operFreq * 1000;  // int() of a whole number of kHz, in Hz
      var pulse := Pulse(nChannels, t.pulseDur, RoundTenth(t.pulseRepInt - t.pulseDur), [operFreqHz], [s.ampl], DefaultPhases);
      if s.dephasingDegree.Some? && |s.dephasingDegree.value| == s.tran.elements {
        return Ok(pulse.(phases := Phases(s.dephasingDegree.value)));
      }
      r := SetPhases(pulse, s.focus, s.tran.steerInfo, s.tran.naturalFoc, s.dephasingDegree, res, sqrt);
    }

    /** _define_pulse_train: floor(pulse_train_dur / pulse_rep_int) copies
        of the pulse, then the pause between trains. */
    method DefinePulseTrain(t: Timing, pulse: Pulse) returns (status: Status)
      modifies this
      ensures t.pulseRepInt == 0.0 ==>
        status == Raised(ZeroDivisionError)
        && pulses == old(pulses) && pulseTrainDelay == old(pulseTrainDelay)
      ensures t.pulseRepInt != 0.0 ==>
        && status == Done
        && pulses == Some(Repeat(pulse, RepetitionCount(t.pulseTrainDur, t.pulseRepInt).value))
        && pulseTrainDelay == t.pulseTrainRepInt - t.pulseTrainDur
      ensures nPulseTrainRep == old(nPulseTrainRep) && modulation == old(modulation)
    {
      if t.pulseRepInt == 0.0 {
        return Raised(ZeroDivisionError);
      }
      var nPulseTrain := (t.pulseTrainDur / t.pulseRepInt).Floor;
      pulses := Some(Repeat(pulse, nPulseTrain));
      pulseTrainDelay := t.pulseTrainRepInt - t.pulseTrainDur;
      return Done;
    }

    /** send_sequence on a connected generator: pulse, pulse train, the
        number of train repetitions, and the ramp unless it is rectangular. */
    method SendSequence(s: Sequence, res: SteerResource, sqrt: real -> real, cos: real -> real) returns (status: Status)
      modifies this
      ensures var t := s.timing;
        var p := DefinedPulse(nChannels, t, s.operFreq, s.ampl, s.focus, s.tran.elements,
                              s.tran.steerInfo, s.tran.naturalFoc, s.dephasingDegree, res, sqrt);
        var reps := RepetitionCount(t.pulseTrainRepDur, t.pulseTrainRepInt);
        var m := Envelope(t.pulseRampShape, t.pulseRampDur, RampResolution(t.pulseRampDur), cos);
        if !p.Ok? then
          && ((p.Exited? && status == Exited) || (p.Raised? && status == Raised(p.error)))
          && pulses == old(pulses) && pulseTrainDelay == old(pulseTrainDelay)
          && nPulseTrainRep == old(nPulseTrainRep) && modulation == old(modulation)
        else if t.pulseRepInt == 0.0 then
          && status == Raised(ZeroDivisionError)
          && pulses == old(pulses) && pulseTrainDelay == old(pulseTrainDelay)
          && nPulseTrainRep == old(nPulseTrainRep) && modulation == old(modulation)
        else
          && pulses == Some(Repeat(p.value, RepetitionCount(t.pulseTrainDur, t.pulseRepInt).value))
          && pulseTrainDelay == t.pulseTrainRepInt - t.pulseTrainDur
          && (!reps.Ok? ==>
                status == Raised(ZeroDivisionError)
                && nPulseTrainRep == old(nPulseTrainRep) && modulation == old(modulation))
          && (reps.Ok? ==> nPulseTrainRep == reps.value)
          && (reps.Ok? && t.pulseRampShape == RAMP_RECT ==> status == Done && modulation == old(modulation))
          && (reps.Ok? && t.pulseRampShape != RAMP_RECT && !m.Ok? ==>
                status == Raised(m.error) && modulation == old(modulation))
          && (reps.Ok? && t.pulseRampShape != RAMP_RECT && m.Ok? ==>
                status == Done
                && modulation == Some(Modulation(RampUp(m.value), RampResolution(t.pulseRampDur),
                                                 RampDown(m.value), RampResolution(t.pulseRampDur))))
    {
      var pulse := DefinePulse(s, res, sqrt);
      if !pulse.Ok? {
        return if pulse.Exited? then Exited else Raised(pulse.error);
      }
      status := DefinePulseTrain(s.timing, pulse.value);
      if !status.Ok? {
        return;
      }
      var reps := RepetitionCount(s.timing.pulseTrainRepDur, s.timing.pulseTrainRepInt);
      if !reps.Ok? {
        return Raised(ZeroDivisionError);
      }
      nPulseTrainRep := reps.value;
      if s.timing.pulseRampShape != RAMP_RECT {
        var m := ApplyRamping(s.timing, cos);
        if !m.Ok? {
          return Raised(m.error);
        }
        modulation := Some(m.value);
      }
      return Done;
    }
  }
}
