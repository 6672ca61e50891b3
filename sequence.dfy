// sequence.py: the Sequence object that holds the chosen equipment, the
// intensity of the ultrasound (global power, pressure, voltage, amplitude)
// and the timing of pulses and pulse trains. The intensity setters are
// gated on the family of the driving system and on whether the chosen
// driving system~transducer pair is a registered combination, and they
// derive the sibling intensity fields through the conversion parameters.

module Sequences {
  import opened Common
  import opened Config
  import opened EquipmentTable
  import DrivingSystems
  import Transducers

  /** The driving-system families the setters distinguish. */
  datatype Family = SonicConcepts | Igt | OtherFamily

  /** The family named by a driving system's manufacturer field. */
  function FamilyOf(manufact: Option<string>): Family
  {
    if manufact == Some(SONIC_CONCEPTS) then SonicConcepts
    else if manufact == Some(IGT) then Igt
    else OtherFamily
  }

  /** The conversion parameters of _conv_param: the voltage-to-amplitude
      line A = V2A_a * V + V2A_b, the normalised-pressure polynomial
      a0 .. a5 over the focal depth and the voltage-to-pressure line. */
  datatype ConvParam = ConvParam(
    v2aA: real, v2aB: real,
    a0: real, a1: real, a2: real, a3: real, a4: real, a5: real,
    v2pA: real, v2pB: real)

  /** The entries _update_conv_param reads from the section of combination
      k; None when one of them is missing, where Python raises KeyError. */
  function ConvFor(cfg: Configuration, k: string): Option<ConvParam>
  {
    if k in cfg.combinations && k in cfg.pressureLaws then
      var rec, law := cfg.combinations[k], cfg.pressureLaws[k];
      Some(ConvParam(rec.v2aA, rec.v2aB, law.a0, law.a1, law.a2, law.a3, law.a4, law.a5, law.v2pA, law.v2pB))
    else None
  }

  /** The configuration the package ships has no F2NP or V2P entries, so
      _update_conv_param raises KeyError for every combination. */
  lemma ShippedTableHasNoPressureLaw(k: string)
    ensures ConvFor(TABLE, k) == None
  {
  }

  // ---------------------------------------------------------------------
  // Conversion arithmetic (_calc_norm_press, _calc_volt, _calc_ampl, _calc_press)

  function Pow(x: real, n: nat): real
  {
    if n == 0 then 1.0 else x * Pow(x, n - 1)
  }

  /** A polynomial with coefficients cs (the constant first), by Horner's rule. */
  function Poly(cs: seq<real>, x: real): real
    decreases |cs|
  {
    if |cs| == 0 then 0.0 else cs[0] + x * Poly(cs[1..], x)
  }

  /** Poly on six coefficients, unfolded. */
  lemma PolySix(a0: real, a1: real, a2: real, a3: real, a4: real, a5: real, f: real)
    ensures Poly([a0, a1, a2, a3, a4, a5], f) == a0 + f * (a1 + f * (a2 + f * (a3 + f * (a4 + f * a5))))
  {
    assert Poly([a5], f) == a5 by {
      assert [a5][1..] == [];
    }
    assert Poly([a4, a5], f) == a4 + f * a5 by {
      assert [a4, a5][1..] == [a5];
    }
    assert Poly([a3, a4, a5], f) == a3 + f * (a4 + f * a5) by {
      assert [a3, a4, a5][1..] == [a4, a5];
    }
    assert Poly([a2, a3, a4, a5], f) == a2 + f * (a3 + f * (a4 + f * a5)) by {
      assert [a2, a3, a4, a5][1..] == [a3, a4, a5];
    }
    assert Poly([a1, a2, a3, a4, a5], f) == a1 + f * (a2 + f * (a3 + f * (a4 + f * a5))) by {
      assert [a1, a2, a3, a4, a5][1..] == [a2, a3, a4, a5];
    }
    assert [a0, a1, a2, a3, a4, a5][1..] == [a1, a2, a3, a4, a5];
  }

  /** The powers of f up to the fifth, one factor at a time. */
  lemma PowSteps(f: real)
    ensures Pow(f, 2) == f * f && Pow(f, 3) == f * Pow(f, 2)
    ensures Pow(f, 4) == f * Pow(f, 3) && Pow(f, 5) == f * Pow(f, 4)
  {
    assert Pow(f, 1) == f by {
      assert Pow(f, 0) == 1.0;
    }
  }

  /** The Horner form multiplied out, with p2 .. p5 the powers of f. */
  lemma ExpandHorner(a0: real, a1: real, a2: real, a3: real, a4: real, a5: real,
                     f: real, p2: real, p3: real, p4: real, p5: real)
    requires p2 == f * f && p3 == f * p2 && p4 == f * p3 && p5 == f * p4
    ensures a0 + f * (a1 + f * (a2 + f * (a3 + f * (a4 + f * a5))))
            == a0 + a1 * f + a2 * p2 + a3 * p3 + a4 * p4 + a5 * p5
  {
    assert f * (a4 + f * a5) == a4 * f + a5 * p2;
    assert f * (a3 + a4 * f + a5 * p2) == a3 * f + a4 * p2 + a5 * p3;
    assert f * (a2 + a3 * f + a4 * p2 + a5 * p3) == a2 * f + a3 * p2 + a4 * p3 + a5 * p4;
    assert f * (a1 + a2 * f + a3 * p2 + a4 * p3 + a5 * p4)
        == f * a1 + f * (a2 * f) + f * (a3 * p2) + f * (a4 * p3) + f * (a5 * p4);
    assert f * (a2 * f) == a2 * p2 && f * (a3 * p2) == a3 * p3;
    assert f * (a4 * p3) == a4 * p4 && f * (a5 * p4) == a5 * p5;
  }

  /** The quintic a0 + a1 f + ... + a5 f^5 in Horner form. */
  lemma HornerQuintic(a0: real, a1: real, a2: real, a3: real, a4: real, a5: real, f: real)
    ensures a0 + a1 * f + a2 * Pow(f, 2) + a3 * Pow(f, 3) + a4 * Pow(f, 4) + a5 * Pow(f, 5)
            == Poly([a0, a1, a2, a3, a4, a5], f)
  {
    PolySix(a0, a1, a2, a3, a4, a5, f);
    PowSteps(f);
    ExpandHorner(a0, a1, a2, a3, a4, a5, f, Pow(f, 2), Pow(f, 3), Pow(f, 4), Pow(f, 5));
  }

  /** Normalised pressure at focal depth f: the quintic polynomial with
      coefficients a0 .. a5. */
  function NormPress(c: ConvParam, f: real): (np: real)
    ensures np == Poly([c.a0, c.a1, c.a2, c.a3, c.a4, c.a5], f)
  {
    HornerQuintic(c.a0, c.a1, c.a2, c.a3, c.a4, c.a5, f);
    c.a0 + c.a1 * f + c.a2 * Pow(f, 2) + c.a3 * Pow(f, 3) + c.a4 * Pow(f, 4) + c.a5 * Pow(f, 5)
  }

  /** Whether _calc_volt can divide: it short-cuts a zero normalised
      pressure and otherwise divides by V2P_a. */
  predicate VoltDefined(np: real, c: ConvParam)
  {
    np == 0.0 || c.v2pA != 0.0
  }

  /** _calc_volt as written: 0 for a zero normalised pressure, otherwise
      ((press / np) - V2P_a) / V2P_a. The doc-comment at sequence.py:1004
      gives ((P / Pnorm) - b) / a; the code subtracts V2P_a, so the voltage
      it finds answers the pressure on the line with intercept V2P_a. */
  function VoltForPress(press: real, np: real, c: ConvParam): (v: real)
    requires VoltDefined(np, c)
    ensures np == 0.0 ==> v == 0.0
    ensures np != 0.0 ==> (c.v2pA * v + c.v2pA) * np == press
  {
    if np == 0.0 then 0.0 else ((press / np) - c.v2pA) / c.v2pA
  }

  /** _calc_press: (V2P_a * volt + V2P_b) * np. The inverse its
      doc-comment documents, ((P / np) - V2P_b) / V2P_a, gives the voltage
      back. */
  function PressFromVolt(volt: real, np: real, c: ConvParam): (p: real)
    ensures np != 0.0 && c.v2pA != 0.0 ==> ((p / np) - c.v2pB) / c.v2pA == volt
  {
    (c.v2pA * volt + c.v2pB) * np
  }

  /** The inverse used by the ampl setter: (ampl - V2A_b) / V2A_a, the
      voltage whose amplitude on the V2A line is ampl. */
  function VoltFromAmpl(ampl: real, c: ConvParam): (v: real)
    requires c.v2aA != 0.0
    ensures c.v2aA * v + c.v2aB == ampl
  {
    (ampl - c.v2aB) / c.v2aA
  }

  /** _calc_ampl: V2A_a * volt + V2A_b; with a non-zero slope the ampl
      setter's inverse gives the voltage back. */
  function AmplFromVolt(volt: real, c: ConvParam): (a: real)
    ensures c.v2aA != 0.0 ==> VoltFromAmpl(a, c) == volt
  {
    c.v2aA * volt + c.v2aB
  }

  /** Amplitude and voltage convert into each other without loss. */
  lemma AmplVoltRoundTrip(c: ConvParam, ampl: real, volt: real)
    requires c.v2aA != 0.0
    ensures AmplFromVolt(VoltFromAmpl(ampl, c), c) == ampl
    ensures VoltFromAmpl(AmplFromVolt(volt, c), c) == volt
  {
  }

  /** Pressure to voltage and back, with _calc_volt as written, is off by
      (V2P_b - V2P_a) * np: it returns the pressure exactly when the two
      coefficients of the voltage-to-pressure line coincide. */
  lemma {:induction false} PressVoltRoundTrip(c: ConvParam, press: real, np: real)
    requires np != 0.0 && c.v2pA != 0.0
    ensures PressFromVolt(VoltForPress(press, np, c), np, c) == press + (c.v2pB - c.v2pA) * np
    ensures PressFromVolt(VoltForPress(press, np, c), np, c) == press <==> c.v2pA == c.v2pB
  {
    var q := press / np;
    var v := (q - c.v2pA) / c.v2pA;
    assert VoltForPress(press, np, c) == v;
    assert c.v2pA * v == q - c.v2pA;
    assert q * np == press;
    assert PressFromVolt(v, np, c) == (q - c.v2pA + c.v2pB) * np;
  }

  /** Voltage to pressure and back is off by (V2P_b - V2P_a) / V2P_a. */
  lemma {:induction false} VoltPressRoundTrip(c: ConvParam, volt: real, np: real)
    requires np != 0.0 && c.v2pA != 0.0
    ensures VoltForPress(PressFromVolt(volt, np, c), np, c) == volt + (c.v2pB - c.v2pA) / c.v2pA
    ensures VoltForPress(PressFromVolt(volt, np, c), np, c) == volt <==> c.v2pA == c.v2pB
  {
    var p := PressFromVolt(volt, np, c);
    assert p / np == c.v2pA * volt + c.v2pB;
    assert ((c.v2pA * volt + c.v2pB) - c.v2pA) / c.v2pA == volt + (c.v2pB - c.v2pA) / c.v2pA;
  }

  // ---------------------------------------------------------------------
  // The state of a Sequence

  /** The _timing_param dictionary, in ms. */
  datatype Timing = Timing(
    pulseDur: real,
    pulseRepInt: real,
    pulseRampShape: string,
    pulseRampDur: real,
    pulseTrainDur: real,
    pulseTrainRepInt: real,
    pulseTrainRepDur: real)

  const DEFAULT_TIMING := Timing(0.25, 200.0, RAMP_SHAPES[0], 0.0, 200.0, 200.0, 200.0)

  /** A snapshot of every field a setter may assign. */
  datatype SeqState = SeqState(
    dsTranCombo: string,
    conv: Option<ConvParam>,
    chosenPower: string,
    globalPower: real,
    press: real,
    volt: real,
    ampl: real,
    normPress: real,
    focus: real,
    operFreq: int,
    dephasingDegree: Option<seq<real>>,
    timing: Timing)

  /** How a call ends together with the state it leaves behind. */
  datatype Step = Step(status: Status, state: SeqState)

  /** s and r differ at most in the fields the intensity setters assign:
      the chosen power and the four intensities. */
  predicate SameExceptIntensities(s: SeqState, r: SeqState)
  {
    r == s.(chosenPower := r.chosenPower, globalPower := r.globalPower,
            press := r.press, volt := r.volt, ampl := r.ampl)
  }

  /** The ampl setter on a driving system that is not IGT: only a reset to
      -1 while a global power is set is honoured, and it clears the
      voltage and pressure too. The global power and the chosen power are
      never touched. */
  function AmplOutsideIgt(s: SeqState, ampl: real): (r: SeqState)
    ensures r.globalPower == s.globalPower && r.chosenPower == s.chosenPower
    ensures SameExceptIntensities(s, r)
    ensures r != s ==> ampl == -1.0 && s.globalPower > -1.0
  {
    if ampl == -1.0 && s.globalPower > -1.0 then s.(ampl := -1.0, volt := -1.0, press := -1.0)
    else s
  }

  /** The global_power setter. It assigns intensity fields only; the
      focus, the key, the conversion parameters and the timing are kept. */
  function GlobalPowerSet(s: SeqState, g: real, fam: Family): (r: SeqState)
    ensures SameExceptIntensities(s, r)
  {
    if fam == SonicConcepts then
      AmplOutsideIgt(s.(globalPower := g, chosenPower := POW_GP), -1.0)
    else if g == -1.0 && s.ampl > -1.0 then s.(globalPower := -1.0)
    else s
  }

  /** On Sonic Concepts a global power above -1 replaces every other
      intensity field by the -1 sentinel; -1 or less only records the value. */
  lemma GlobalPowerOnSonicConcepts(s: SeqState, g: real)
    ensures var r := GlobalPowerSet(s, g, SonicConcepts);
      && r.globalPower == g && r.chosenPower == POW_GP
      && (g > -1.0 ==> r == s.(globalPower := g, chosenPower := POW_GP, ampl := -1.0, volt := -1.0, press := -1.0))
      && (g <= -1.0 ==> r == s.(globalPower := g, chosenPower := POW_GP))
  {
  }

  /** On other families the setter can only reset the global power to -1,
      and only when asked for -1 while an amplitude is set. */
  lemma GlobalPowerElsewhere(s: SeqState, g: real, fam: Family)
    requires fam != SonicConcepts
    ensures var r := GlobalPowerSet(s, g, fam);
      r == s || (g == -1.0 && s.ampl > -1.0 && r == s.(globalPower := -1.0))
  {
  }

  /** The power option a setter records is one its family offers: the
      global power on Sonic Concepts, amplitude, pressure and voltage on IGT. */
  lemma ChosenPowerOffered(s: SeqState, g: real)
    ensures GlobalPowerSet(s, g, SonicConcepts).chosenPower in SC_POWER_OPTIONS
    ensures POW_GP !in IGT_POWER_OPTIONS
    ensures POW_AMPL in IGT_POWER_OPTIONS && POW_PRESS in IGT_POWER_OPTIONS && POW_VOLT in IGT_POWER_OPTIONS
    ensures POW_AMPL !in SC_POWER_OPTIONS && POW_PRESS !in SC_POWER_OPTIONS && POW_VOLT !in SC_POWER_OPTIONS
  {
  }

  /** _update_conv_param on combination key s.dsTranCombo: load the
      parameters, then recompute the normalised pressure at the current
      focus, the voltage for the unchanged pressure and the amplitude for
      that voltage. */
  function UpdateConv(cfg: Configuration, s: SeqState): (r: Step)
    ensures r.status == Done || r.status == Raised(KeyError) || r.status == Raised(ZeroDivisionError)
    ensures r.status == Raised(KeyError) <==> ConvFor(cfg, s.dsTranCombo).None?
    ensures r.status == Raised(KeyError) ==> r.state == s
    ensures r.state.(conv := s.conv, normPress := s.normPress, volt := s.volt, ampl := s.ampl) == s
  {
    var conv := ConvFor(cfg, s.dsTranCombo);
    if conv.None? then Step(Raised(KeyError), s)
    else
      var c := conv.value;
      var np := NormPress(c, s.focus);
      var s1 := s.(conv := Some(c), normPress := np);
      if !VoltDefined(np, c) then Step(Raised(ZeroDivisionError), s1)
      else
        var v := VoltForPress(s.press, np, c);
        Step(Done, s1.(volt := v, ampl := AmplFromVolt(v, c)))
  }

  /** Selecting equipment keeps the pressure and the focus, and once the
      update succeeds the voltage and amplitude answer that pressure
      through the new parameters. */
  lemma UpdateConvKeepsPressure(cfg: Configuration, s: SeqState)
    requires UpdateConv(cfg, s).status == Done
    ensures var r := UpdateConv(cfg, s).state;
      && r.press == s.press && r.focus == s.focus && r.chosenPower == s.chosenPower
      && r.globalPower == s.globalPower
      && r.conv == ConvFor(cfg, s.dsTranCombo)
      && r.normPress == NormPress(r.conv.value, s.focus)
      && r.volt == VoltForPress(s.press, r.normPress, r.conv.value)
      && r.ampl == AmplFromVolt(r.volt, r.conv.value)
  {
  }

  /** A successful update is idempotent, so the second update the
      constructor performs changes nothing. */
  lemma UpdateConvIdempotent(cfg: Configuration, s: SeqState)
    requires UpdateConv(cfg, s).status == Done
    ensures UpdateConv(cfg, UpdateConv(cfg, s).state) == UpdateConv(cfg, s)
  {
  }

  class Sequence {
    const cfg: Configuration
    /** config['Equipment']['Combinations']: the registered keys joined by newlines. */
    const equipCombos: string
    const ds: DrivingSystems.DrivingSystem
    const tran: Transducers.Transducer

    var dsTranCombo: string
    var conv: Option<ConvParam>
    var chosenPower: string
    var globalPower: real   // Sonic Concepts: global power; -1 = unset
    var press: real         // IGT: maximum pressure in free water [MPa]; -1 = unset
    var volt: real          // IGT: voltage [V]; -1 = unset
    var ampl: real          // IGT: amplitude [%]; -1 = unset
    var normPress: real
    var focus: real         // [mm]
    var operFreq: int       // [kHz]
    var dephasingDegree: Option<seq<real>>
    var timing: Timing

    function State(): SeqState
      reads this
    {
      SeqState(dsTranCombo, conv, chosenPower, globalPower, press, volt, ampl,
               normPress, focus, operFreq, dephasingDegree, timing)
    }

    function Family(): Family
      reads ds
    {
      FamilyOf(ds.manufact)
    }

    /** `self._ds_tran_combo in self._equip_combos`: substring containment
        in the newline-joined list of combinations. */
    predicate Registered()
      reads this
    {
      Contains(equipCombos, dsTranCombo)
    }

    /** The key names the chosen equipment, and a registered key has had
        its conversion parameters loaded. */
    ghost predicate Valid()
      reads this, ds, tran
    {
      && ds.serial.Some? && tran.serial.Some?
      && dsTranCombo == ds.serial.value + "~" + tran.serial.value
      && (Registered() ==> conv.Some?)
    }

    /** The attribute defaults of __init__, before a transducer is chosen. */
    constructor (cfg: Configuration, ds: DrivingSystems.DrivingSystem, tran: Transducers.Transducer)
      ensures this.cfg == cfg && this.ds == ds && this.tran == tran
      ensures equipCombos == Join(cfg.combos, "\n")
      ensures State() == SeqState("", None, "", -1.0, -1.0, -1.0, -1.0, 0.0, 40.0, 0, None, DEFAULT_TIMING)
    {
      this.cfg := cfg;
      this.ds := ds;
      this.tran := tran;
      equipCombos := Join(cfg.combos, "\n");
      dsTranCombo := "";
      conv := None;
      chosenPower := "";
      globalPower := -1.0;
      press := -1.0;
      volt := -1.0;
      ampl := -1.0;
      normPress := 0.0;
      focus := 40.0;
      operFreq := 0;
      dephasingDegree := None;
      timing := DEFAULT_TIMING;
    }

    /** Sequence(): pick the first active driving system, then the first
        active transducer, then update the conversion parameters once more
        when the pair is registered. */
    static method Create(cfg: Configuration) returns (r: Result<Sequence>)
      ensures var dss := ActiveSerials(cfg.dsSerials, DsFlags(cfg));
        var trs := ActiveSerials(cfg.trSerials, TrFlags(cfg));
        if !dss.Ok? then r == Raised(KeyError)
        else if |dss.value| == 0 then r == Raised(IndexError)
        else if !trs.Ok? then r == Raised(KeyError)
        else if |trs.value| == 0 then r == Raised(IndexError)
        else
          var d, t := dss.value[0], trs.value[0];
          d in cfg.drivingSystems && t in cfg.transducers &&
          var rec := cfg.transducers[t];
          var k := d + "~" + t;
          var s0 := SeqState(k, None, "", -1.0, -1.0, -1.0, -1.0, 0.0, rec.minFoc, rec.fundFreq, None, DEFAULT_TIMING);
          var u := UpdateConv(cfg, s0);
          && (!Contains(Join(cfg.combos, "\n"), k) ==> r.Ok? && r.value.State() == s0)
          && (Contains(Join(cfg.combos, "\n"), k) && u.status.Raised? ==> r == Raised(u.status.error))
          && (Contains(Join(cfg.combos, "\n"), k) && u.status.Ok? ==> r.Ok? && r.value.State() == u.state)
          && (r.Ok? ==>
                && fresh(r.value) && fresh(r.value.ds) && fresh(r.value.tran)
                && r.value.cfg == cfg && r.value.Valid()
                && r.value.ds.serial == Some(d) && r.value.ds.Describes(cfg.drivingSystems[d])
                && r.value.tran.serial == Some(t) && r.value.tran.Describes(rec))
    {
      var dss := DrivingSystems.GetDsSerials(cfg);
      if !dss.Ok? {
        return Raised(KeyError);
      }
      if |dss.value| == 0 {
        return Raised(IndexError);
      }
      assert dss.value[0] in dss.value;
      var ds := new DrivingSystems.DrivingSystem();
      var _ := ds.SetDsInfo(cfg, dss.value[0]);
      var tran := new Transducers.Transducer();
      var s := new Sequence(cfg, ds, tran);
      var trs := Transducers.GetTranSerials(cfg);
      if !trs.Ok? {
        return Raised(KeyError);
      }
      if |trs.value| == 0 {
        return Raised(IndexError);
      }
      assert trs.value[0] in trs.value;
      var status := s.SelectTransducer(trs.value[0]);
      if status.Raised? {
        return Raised(status.error);
      }
      if s.Registered() {
        // the first update succeeded, so repeating it changes nothing
        status := s.UpdateConvParam();
        assert status == Done;
      }
      return Ok(s);
    }

    /** The driving_sys setter. An unknown serial ends the program after
        the serial is stored. */
    method SelectDrivingSystem(serial: string) returns (status: Status)
      requires tran.serial.Some?
      modifies this, ds
      ensures ds.serial == Some(serial)
      ensures serial !in cfg.drivingSystems ==> status == Exited && State() == old(State())
      ensures serial in cfg.drivingSystems ==>
        && ds.Describes(cfg.drivingSystems[serial])
        && var s1 := old(State()).(dsTranCombo := serial + "~" + tran.serial.value);
        && (!Contains(equipCombos, s1.dsTranCombo) ==> status == Done && State() == s1)
        && (Contains(equipCombos, s1.dsTranCombo) ==> Step(status, State()) == UpdateConv(cfg, s1))
      ensures status == Done ==> Valid()
    {
      status := ds.SetDsInfo(cfg, serial);
      if status == Exited {
        return;
      }
      dsTranCombo := ds.serial.value + "~" + tran.serial.value;
      if Registered() {
        status := UpdateConvParam();
      }
    }

    /** The transducer setter: the operating frequency and the focus take
        the transducer's fundamental frequency and minimum focus, then the
        combination key is renewed. An unknown serial ends the program. */
    method SelectTransducer(serial: string) returns (status: Status)
      requires ds.serial.Some?
      modifies this, tran
      ensures tran.serial == Some(serial)
      ensures serial !in cfg.transducers ==> status == Exited && State() == old(State())
      ensures serial in cfg.transducers ==>
        && var rec := cfg.transducers[serial];
        && tran.Describes(rec)
        && var s1 := old(State()).(operFreq := rec.fundFreq, focus := rec.minFoc,
                                   dsTranCombo := ds.serial.value + "~" + serial);
        && (!Contains(equipCombos, s1.dsTranCombo) ==> status == Done && State() == s1)
        && (Contains(equipCombos, s1.dsTranCombo) ==> Step(status, State()) == UpdateConv(cfg, s1))
      ensures status == Done ==> Valid()
    {
      status := tran.SetTransducerInfo(cfg, serial);
      if status == Exited {
        return;
      }
      operFreq := tran.fundFreq;
      focus := tran.minFoc;
      dsTranCombo := ds.serial.value + "~" + tran.serial.value;
      if Registered() {
        status := UpdateConvParam();
      }
    }

    /** _update_conv_param. */
    method UpdateConvParam() returns (status: Status)
      modifies this
      ensures Step(status, State()) == UpdateConv(cfg, old(State()))
    {
      var c := ConvFor(cfg, dsTranCombo);
      if c.None? {
        return Raised(KeyError);
      }
      conv := c;
      CalcNormPress();
      status := CalcVolt();
      if status.Raised? {
        return;
      }
      CalcAmpl();
    }

    /** _calc_norm_press. */
    method CalcNormPress()
      requires conv.Some?
      modifies this
      ensures State() == old(State()).(normPress := NormPress(old(conv).value, old(focus)))
    {
      normPress := NormPress(conv.value, focus);
    }

    /** _calc_volt: ZeroDivisionError when np is not 0 but V2P_a is. */
    method CalcVolt() returns (status: Status)
      requires conv.Some?
      modifies this
      ensures !VoltDefined(normPress, old(conv).value) ==> status == Raised(ZeroDivisionError) && State() == old(State())
      ensures VoltDefined(normPress, old(conv).value) ==>
        status == Done && State() == old(State()).(volt := VoltForPress(press, normPress, old(conv).value))
    {
      if normPress == 0.0 {
        volt := 0.0;
      } else {
        if conv.value.v2pA == 0.0 {
          return Raised(ZeroDivisionError);
        }
        volt := ((press / normPress) - conv.value.v2pA) / conv.value.v2pA;
      }
      return Done;
    }

    /** _calc_ampl. */
    method CalcAmpl()
      requires conv.Some?
      modifies this
      ensures State() == old(State()).(ampl := AmplFromVolt(old(volt), old(conv).value))
    {
      ampl := conv.value.v2aA * volt + conv.value.v2aB;
    }

    /** _calc_press. */
    method CalcPress()
      requires conv.Some?
      modifies this
      ensures State() == old(State()).(press := PressFromVolt(old(volt), old(normPress), old(conv).value))
    {
      press := (conv.value.v2pA * volt + conv.value.v2pB) * normPress;
    }

    /** The oper_freq setter: int() truncates toward zero. */
    method SetOperFreq(f: real)
      modifies this
      ensures State() == old(State()).(operFreq := Trunc(f))
    {
      operFreq := Trunc(f);
    }

    /** The global_power setter. */
    method SetGlobalPower(g: real)
      requires Valid()
      modifies this
      decreases if Family() == SonicConcepts then 1 else 0
      ensures Valid() && State() == GlobalPowerSet(old(State()), g, Family())
    {
      if Family() == SonicConcepts {
        globalPower := g;
        chosenPower := POW_GP;
        var _ := SetAmpl(-1.0);
      } else if g == -1.0 && ampl > -1.0 {
        globalPower := -1.0;
      }
    }

    /** The press setter. Without a registered combination nothing changes. */
    method SetPress(p: real) returns (status: Status)
      requires Valid()
      modifies this
      ensures Valid()
      ensures !old(Registered()) ==> status == Done && State() == old(State())
      ensures old(Registered()) ==>
        var c, np := old(conv).value, old(normPress);
        var s1 := old(State()).(press := p, chosenPower := POW_PRESS);
        if !VoltDefined(np, c) then status == Raised(ZeroDivisionError) && State() == s1
        else
          var v := VoltForPress(p, np, c);
          status == Done && State() == GlobalPowerSet(s1.(volt := v, ampl := AmplFromVolt(v, c)), -1.0, Family())
    {
      if !Registered() {
        return Done;
      }
      press := p;
      chosenPower := POW_PRESS;
      status := CalcVolt();
      if status.Raised? {
        return;
      }
      CalcAmpl();
      SetGlobalPower(-1.0);
    }

    /** The volt setter. Without a registered combination nothing changes. */
    method SetVolt(v: real)
      requires Valid()
      modifies this
      ensures Valid()
      ensures !old(Registered()) ==> State() == old(State())
      ensures old(Registered()) ==>
        var c, np := old(conv).value, old(normPress);
        var s1 := old(State()).(volt := v, chosenPower := POW_VOLT,
                                press := PressFromVolt(v, np, c), ampl := AmplFromVolt(v, c));
        State() == GlobalPowerSet(s1, -1.0, Family())
    {
      if !Registered() {
        return;
      }
      volt := v;
      chosenPower := POW_VOLT;
      CalcPress();
      CalcAmpl();
      SetGlobalPower(-1.0);
    }

    /** The ampl setter. On IGT the option is chosen whatever the
        combination; with a registered one the voltage and pressure follow
        the amplitude. Other families only honour a reset to -1. */
    method SetAmpl(a: real) returns (status: Status)
      requires Valid()
      modifies this
      decreases if Family() == Igt then 1 else 0
      ensures Valid()
      ensures Family() != Igt ==> status == Done && State() == AmplOutsideIgt(old(State()), a)
      ensures Family() == Igt && !old(Registered()) ==>
        status == Done && State() == old(State()).(chosenPower := POW_AMPL, ampl := a)
      ensures Family() == Igt && old(Registered()) ==>
        var c, np := old(conv).value, old(normPress);
        var s1 := old(State()).(chosenPower := POW_AMPL, ampl := a);
        if c.v2aA == 0.0 then status == Raised(ZeroDivisionError) && State() == s1
        else
          var v := VoltFromAmpl(a, c);
          status == Done && State() == GlobalPowerSet(s1.(volt := v, press := PressFromVolt(v, np, c)), -1.0, Igt)
    {
      if Family() == Igt {
        chosenPower := POW_AMPL;
        if Registered() {
          ampl := a;
          if conv.value.v2aA == 0.0 {
            return Raised(ZeroDivisionError);
          }
          volt := (ampl - conv.value.v2aB) / conv.value.v2aA;
          CalcPress();
          SetGlobalPower(-1.0);
        } else {
          ampl := a;
        }
      } else if a == -1.0 && globalPower > -1.0 {
        ampl := -1.0;
        volt := -1.0;
        press := -1.0;
      }
      return Done;
    }

    /** The focus setter. With a registered combination the normalised
        pressure and the voltage follow the new focus; the amplitude is not
        recomputed. */
    method SetFocus(f: real) returns (status: Status)
      requires Valid()
      modifies this
      ensures Valid()
      ensures !old(Registered()) ==> status == Done && State() == old(State()).(focus := f)
      ensures old(Registered()) ==>
        var c := old(conv).value;
        var np := NormPress(c, f);
        var s1 := old(State()).(focus := f, normPress := np);
        if !VoltDefined(np, c) then status == Raised(ZeroDivisionError) && State() == s1
        else status == Done && State() == s1.(volt := VoltForPress(old(press), np, c))
    {
      focus := f;
      if Registered() {
        CalcNormPress();
        status := CalcVolt();
      } else {
        status := Done;
      }
    }

    /** The pulse_train_rep_dur setter takes seconds and stores ms. */
    method SetPulseTrainRepDur(d: real)
      modifies this
      ensures State() == old(State()).(timing := old(timing).(pulseTrainRepDur := d * 1000.0))
    {
      timing := timing.(pulseTrainRepDur := d * 1000.0);
    }
  }
}
