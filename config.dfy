// The parsed configuration file that transducer.py, driving_system.py and
// sequence.py read: one record per driving-system, transducer and
// combination section, plus the ordered serial lists of the 'Equipment'
// section. The lists are kept as sequences of serials (see README).

module Config {
  import opened Common

  /** A section 'Equipment.Driving system.<serial>'. */
  datatype DsRecord = DsRecord(
    name: string,
    manufact: string,
    availableCh: int,
    connectInfo: string,
    tranComp: seq<string>,
    active: string)

  /** A section 'Equipment.Transducer.<serial>'. */
  datatype TrRecord = TrRecord(
    name: string,
    manufact: string,
    elements: int,
    fundFreq: int,          // [kHz]
    naturalFoc: real,       // [mm]
    exitPlaneDist: real,    // [mm]
    minFoc: real,           // [mm]
    maxFoc: real,           // [mm]
    steerInfo: string,
    active: string)

  /** One focus range of the equalisation-factor law of a combination,
      with the six polynomial coefficients a0 .. a5. */
  datatype Segment = Segment(low: real, upper: real, coeffs: seq<real>)

  /** A section 'Equipment.Combination.<ds>~<tr>' as create_config.py writes it. */
  datatype ComboRecord = ComboRecord(
    dsSerial: string,
    trSerial: string,
    v2aA: real,
    v2aB: real,
    p2aA: real,
    p2aB: real,
    eqf1: Segment,
    eqf2: Segment)

  /** The entries 'F2NP a0-coeff' .. 'F2NP a5-coeff', 'V2P a-coeff' and
      'V2P b-coeff' of a combination section: the focus-to-normalised-pressure
      polynomial and the voltage-to-pressure line that sequence.py reads. */
  datatype PressureLaw = PressureLaw(
    a0: real, a1: real, a2: real, a3: real, a4: real, a5: real,
    v2pA: real, v2pB: real)

  datatype Configuration = Configuration(
    dsSerials: seq<string>,                    // 'Equipment' / 'Driving systems'
    trSerials: seq<string>,                    // 'Equipment' / 'Transducers'
    combos: seq<string>,                       // 'Equipment' / 'Combinations'
    drivingSystems: map<string, DsRecord>,
    transducers: map<string, TrRecord>,
    combinations: map<string, ComboRecord>,
    pressureLaws: map<string, PressureLaw>)    // combinations that carry those entries

  /** The 'Active?' field of every driving-system section. */
  function DsFlags(cfg: Configuration): (flags: map<string, string>)
    ensures forall s :: s in flags <==> s in cfg.drivingSystems
    ensures forall s :: s in flags ==> flags[s] == cfg.drivingSystems[s].active
  {
    map s | s in cfg.drivingSystems :: cfg.drivingSystems[s].active
  }

  /** The 'Active?' field of every transducer section. */
  function TrFlags(cfg: Configuration): (flags: map<string, string>)
    ensures forall s :: s in flags <==> s in cfg.transducers
    ensures forall s :: s in flags ==> flags[s] == cfg.transducers[s].active
  {
    map s | s in cfg.transducers :: cfg.transducers[s].active
  }

  /** The serials of a list, in order, whose section says Active? = 'True'.
      A serial without a section makes the lookup raise KeyError. The
      listing picks from the list, so it is no longer than the list, and
      everything it picks is active. */
  function ActiveSerials(serials: seq<string>, flags: map<string, string>): (r: Result<seq<string>>)
    ensures r.Ok? || r == Raised(KeyError)
    ensures r.Ok? ==> |r.value| <= |serials|
    ensures r.Ok? ==> forall s :: s in r.value ==> s in serials && s in flags && flags[s] == "True"
    decreases |serials|
  {
    if |serials| == 0 then Ok([])
    else
      var last := serials[|serials| - 1];
      match ActiveSerials(serials[..|serials| - 1], flags)
      case Ok(prefix) =>
        if last !in flags then Raised(KeyError)
        else if flags[last] == "True" then Ok(prefix + [last])
        else Ok(prefix)
      case other => other
  }

  /** The listing fails exactly when some listed serial has no section. */
  lemma {:induction false} ActiveSerialsFails(serials: seq<string>, flags: map<string, string>)
    ensures ActiveSerials(serials, flags).Ok? <==> forall s :: s in serials ==> s in flags
    decreases |serials|
  {
    if |serials| > 0 {
      var init := serials[..|serials| - 1];
      ActiveSerialsFails(init, flags);
      assert serials == init + [serials[|serials| - 1]];
    }
  }

  /** A serial is listed exactly when it is in the list and active. */
  lemma {:induction false} ActiveSerialsMembers(serials: seq<string>, flags: map<string, string>)
    requires ActiveSerials(serials, flags).Ok?
    ensures forall s :: s in ActiveSerials(serials, flags).value <==>
      s in serials && s in flags && flags[s] == "True"
    decreases |serials|
  {
    if |serials| > 0 {
      var init := serials[..|serials| - 1];
      ActiveSerialsMembers(init, flags);
      assert serials == init + [serials[|serials| - 1]];
    }
  }

  /** The listing keeps the order of the configuration: it starts with the
      first serial when that one is active. */
  lemma {:induction false} ActiveSerialsOrder(serials: seq<string>, flags: map<string, string>)
    requires ActiveSerials(serials, flags).Ok?
    ensures |serials| > 0 && serials[0] in flags && flags[serials[0]] == "True" ==>
      |ActiveSerials(serials, flags).value| > 0 && ActiveSerials(serials, flags).value[0] == serials[0]
    decreases |serials|
  {
    if |serials| > 1 {
      var init := serials[..|serials| - 1];
      ActiveSerialsOrder(init, flags);
      assert init[0] == serials[0];
    }
  }

  /** Appending to the configured list appends to the listing. */
  lemma {:induction false} ActiveSerialsAppend(a: seq<string>, b: seq<string>, flags: map<string, string>)
    requires ActiveSerials(a, flags).Ok? && ActiveSerials(b, flags).Ok?
    ensures ActiveSerials(a + b, flags) == Ok(ActiveSerials(a, flags).value + ActiveSerials(b, flags).value)
    decreases |b|
  {
    if |b| == 0 {
      assert a + b == a;
      assert ActiveSerials(b, flags).value == [];
      assert ActiveSerials(a, flags).value + [] == ActiveSerials(a, flags).value;
    } else {
      var binit, last := b[..|b| - 1], b[|b| - 1];
      assert ActiveSerials(binit, flags).Ok?;
      assert (a + b)[..|a + b| - 1] == a + binit;
      assert (a + b)[|a + b| - 1] == last;
      ActiveSerialsAppend(a, binit, flags);
      var pa, pb := ActiveSerials(a, flags).value, ActiveSerials(binit, flags).value;
      if flags[last] == "True" {
        assert pa + pb + [last] == pa + (pb + [last]);
      }
    }
  }
}
