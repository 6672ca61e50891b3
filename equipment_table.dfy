// config/create_config.py: the configuration table the package ships, as
// constant data, and the consistency facts that the rest of the package
// relies on, proved by computation over the table.

module EquipmentTable {
  import opened Common
  import opened Config

  // General options (create_config.py writes them into the 'General' section).
  const RAMP_RECT := "Rectangular - no ramping"
  const RAMP_LIN := "Linear"
  const RAMP_TUK := "Tukey"
  const RAMP_SHOTA := "Shota"
  const RAMP_SHAPES := [RAMP_RECT, RAMP_LIN, RAMP_TUK, RAMP_SHOTA]

  const POW_GP := "Global power [mW]"
  const POW_AMPL := "Amplitude [%]"
  const POW_PRESS := "Max. pressure in free water [MPa]"
  const POW_VOLT := "Voltage [V]"

  // Manufacturers and the power options each one offers.
  const SONIC_CONCEPTS := "Sonic Concepts"
  const IGT := "IGT"
  const IMASONIC := "Imasonic"
  const SC_POWER_OPTIONS := [POW_GP]
  const IGT_POWER_OPTIONS := [POW_AMPL, POW_PRESS, POW_VOLT]

  // Folders of the per-equipment files (Windows path separators).
  const SC_TRAN_FOLDER := "igt\\config\\sonic_concepts_transducers"
  const IGT_DS_FOLDER := "igt\\config"
  const IS_TRAN_FOLDER := "igt\\config\\imasonic_transducers"

  // Serial numbers.
  const SC_DS := ["203-035", "105-010"]
  const SC_TRAN_2CH := ["CTX-250-009", "CTX-250-014", "CTX-500-006"]
  const SC_TRAN_4CH := ["CTX-250-001", "CTX-250-026", "CTX-500-024", "CTX-500-026"]
  const SC_TRANS := SC_TRAN_2CH + SC_TRAN_4CH
  const IGT_DS := [
    "IGT-128-ch", "IGT-128-ch_comb_2x10-ch", "IGT-128-ch_comb_1x10-ch",
    "IGT-128-ch_comb_1x8-ch", "IGT-128-ch_comb_1x4-ch", "IGT-128-ch_comb_1x2-ch",
    "IGT-32-ch", "IGT-32-ch_comb_2x10-ch", "IGT-32-ch_comb_1x10-ch",
    "IGT-8-ch_comb_2x4-ch", "IGT-8-ch_comb_1x4-ch", "IGT-8-ch_comb_2x2-ch",
    "IGT-8-ch_comb_1x2-ch"]
  const IS_TRANS := ["IS_PCD15287_01001", "IS_PCD15287_01002", "IS_PCD15473_01001", "IS_PCD15473_01002"]
  const DUMMY := "Dummy"
  const DUMMIES := [DUMMY]

  /** The key of a combination section: '~'.join([ds, tr]). */
  function ComboKey(ds: string, tr: string): (k: string)
    ensures k == Join([ds, tr], "~")
  {
    ds + "~" + tr
  }

  /** Splitting a key on '~' gives back its two serials. */
  lemma SplitComboKey(ds: string, tr: string)
    requires '~' !in ds && '~' !in tr
    ensures Split(ComboKey(ds, tr), '~') == [ds, tr]
  {
    SplitJoin([ds, tr], '~');
  }

  /** The driving systems that have calibrated combinations. */
  const COMBO_DS := [IGT_DS[1], IGT_DS[2], IGT_DS[7], IGT_DS[8]]

  /** The 'Combinations' entry: every driving system of COMBO_DS with each
      Imasonic transducer, in that order. */
  const DS_TRAN_COMBOS: seq<string> :=
    seq(|COMBO_DS| * |IS_TRANS|, i requires 0 <= i < |COMBO_DS| * |IS_TRANS| =>
      ComboKey(COMBO_DS[i / |IS_TRANS|], IS_TRANS[i % |IS_TRANS|]))

  const DS_SECTIONS: map<string, DsRecord> :=
    map[
      SC_DS[0] := DsRecord("NeuroFUS 1 x 4 ch. or 1 x 2 ch. TPO junior 203-035", SONIC_CONCEPTS, 4, "COM7", SC_TRANS + DUMMIES, "True"),
      SC_DS[1] := DsRecord("NeuroFUS 1 x 4 ch. or 1 x 2 ch. TPO senior 105-010", SONIC_CONCEPTS, 4, "COM8", SC_TRANS + DUMMIES, "True"),
      IGT_DS[0] := DsRecord(IGT + " 128 ch. - all channels", IGT, 128, IGT_DS_FOLDER + "\\gen_Nijmegen128_393F.json", DUMMIES, "True"),
      IGT_DS[1] := DsRecord(IGT + " 128 ch. - 2 x 10 ch.", IGT, 20, IGT_DS_FOLDER + "\\gen_Nijmegen128_2x10_393F.json", IS_TRANS + DUMMIES, "True"),
      IGT_DS[2] := DsRecord(IGT + " 128 ch. - 1 x 10 ch.", IGT, 10, IGT_DS_FOLDER + "\\gen_Nijmegen128_1x10_393F.json", IS_TRANS + DUMMIES, "True"),
      IGT_DS[3] := DsRecord(IGT + " 128 ch. - 8 ch.", IGT, 8, IGT_DS_FOLDER + "\\gen_Nijmegen128_8c.json", SC_TRAN_4CH + DUMMIES, "False"),
      IGT_DS[4] := DsRecord(IGT + " 128 ch. - 4 ch.", IGT, 4, IGT_DS_FOLDER + "\\gen_Nijmegen128_4ch.json", SC_TRANS + DUMMIES, "False"),
      IGT_DS[5] := DsRecord(IGT + " 128 ch. - 2 ch.", IGT, 2, IGT_DS_FOLDER + "\\gen_Nijmegen128_2ch.json", SC_TRAN_2CH + DUMMIES, "False"),
      IGT_DS[6] := DsRecord(IGT + " 32 ch. - all channels", IGT, 32, IGT_DS_FOLDER + "\\gen_Nijmegen32_71D8.json", DUMMIES, "True"),
      IGT_DS[7] := DsRecord(IGT + " 32 ch. - 2 x 10 ch.", IGT, 20, IGT_DS_FOLDER + "\\gen_Nijmegen32_2x10c_71D8.json", IS_TRANS + DUMMIES, "True"),
      IGT_DS[8] := DsRecord(IGT + " 32 ch. - 1 x 10 ch.", IGT, 10, IGT_DS_FOLDER + "\\gen_Nijmegen32_10c_71D8.json", IS_TRANS + DUMMIES, "True"),
      IGT_DS[9] := DsRecord(IGT + " 8 ch. - 2 x 4 ch.", IGT, 8, IGT_DS_FOLDER + "\\gen_Nijmegen_8_F720.json", SC_TRAN_4CH + DUMMIES, "False"),
      IGT_DS[10] := DsRecord(IGT + " 8 ch. - 1 x 4 ch.", IGT, 4, IGT_DS_FOLDER + "\\gen_Nijmegen_4_F720.json", SC_TRAN_4CH + DUMMIES, "False"),
      IGT_DS[11] := DsRecord(IGT + " 8 ch. - 2 x 2 ch.", IGT, 4, IGT_DS_FOLDER + "\\gen_Nijmegen_8c4_F720.json", SC_TRAN_2CH + DUMMIES, "False"),
      IGT_DS[12] := DsRecord(IGT + " 8 ch. - 1 x 2 ch.", IGT, 2, IGT_DS_FOLDER + "\\gen_Nijmegen_4c2_F720.json", SC_TRAN_2CH + DUMMIES, "False")
    ]

  const TR_SECTIONS: map<string, TrRecord> :=
    map[
      SC_TRANS[0] := TrRecord("NeuroFUS 2 ch. CTX-250-009", SONIC_CONCEPTS, 2, 250, 0.0, 0.0, 15.9, 46.0, SC_TRAN_FOLDER + "\\CTX-250-009 - TPO-105-010 - Steer Table.xlsx", "True"),
      SC_TRANS[1] := TrRecord("NeuroFUS 2 ch. CTX-250-014", SONIC_CONCEPTS, 2, 250, 0.0, 0.0, 12.6, 44.1, SC_TRAN_FOLDER + "\\CTX-250-014 - TPO-105-010 - Steer Table.xlsx", "True"),
      SC_TRANS[2] := TrRecord("NeuroFUS 2 ch. CTX-500-006", SONIC_CONCEPTS, 2, 500, 0.0, 0.0, 33.2, 79.4, SC_TRAN_FOLDER + "\\CTX-500-006 - TPO-105-010 - Steer Table.xlsx", "True"),
      SC_TRANS[3] := TrRecord("NeuroFUS 4 ch. CTX-250-001", SONIC_CONCEPTS, 4, 250, 0.0, 0.0, 14.2, 60.9, SC_TRAN_FOLDER + "\\CTX-250-001 - TPO-105-010 - Steer Table.xlsx", "True"),
      SC_TRANS[4] := TrRecord("NeuroFUS 4 ch. CTX-250-026", SONIC_CONCEPTS, 4, 250, 0.0, 0.0, 22.2, 61.5, SC_TRAN_FOLDER + "\\CTX-250-026 - TPO-105-010 - Steer Table.xlsx", "True"),
      SC_TRANS[5] := TrRecord("NeuroFUS 4 ch. CTX-500-024", SONIC_CONCEPTS, 4, 500, 0.0, 0.0, 31.7, 77.0, SC_TRAN_FOLDER + "\\CTX-500-024 - TPO-105-010 - Steer Table.xlsx", "False"),
      SC_TRANS[6] := TrRecord("NeuroFUS 4 ch. CTX-500-026", SONIC_CONCEPTS, 4, 500, 0.0, 0.0, 39.6, 79.6, SC_TRAN_FOLDER + "\\CTX-500-026 - TPO-105-010 - Steer Table.xlsx", "True"),
      IS_TRANS[0] := TrRecord(IMASONIC + " 10 ch. PCD15287_01001 ROC 75 mm", IMASONIC, 10, 300, 75.0, 9.7, 7.0, 92.0, IS_TRAN_FOLDER + "\\transducer_15287_10_300kHz.ini", "True"),
      IS_TRANS[1] := TrRecord(IMASONIC + " 10 ch. PCD15287_01002 ROC 75 mm", IMASONIC, 10, 300, 75.0, 9.7, 7.0, 92.0, IS_TRAN_FOLDER + "\\transducer_15287_10_300kHz.ini", "True"),
      IS_TRANS[2] := TrRecord(IMASONIC + " 10 ch. PCD15473_01001 ROC 100 mm", IMASONIC, 10, 300, 100.0, 7.3, 10.0, 150.0, IS_TRAN_FOLDER + "\\transducer_15473_10_300kHz.ini", "True"),
      IS_TRANS[3] := TrRecord(IMASONIC + " 10 ch. PCD15473_01002 ROC 100 mm", IMASONIC, 10, 300, 100.0, 7.3, 10.0, 150.0, IS_TRAN_FOLDER + "\\transducer_15473_10_300kHz.ini", "True"),
      DUMMY := TrRecord("Dummy load", "", 0, 0, 0.0, 0.0, 0.0, 1000.0, "", "False")
    ]

  // Calibration data of the combination sections.
  const V2A_128 := (6.1122, -0.4917)   // the 128-channel driving system
  const V2A_32 := (6.1393, -0.7172)    // the 32-channel driving system

  /** Pressure-to-amplitude line and the two focus segments of the
      equalisation-factor law: segment 1 includes both limits, segment 2
      only its upper one. */
  datatype LawTable = LawTable(p2aA: real, p2aB: real, eqf1: Segment, eqf2: Segment)

  const PCD15287_LAW := LawTable(
    0.0000834, -0.0379,
    Segment(7.0, 17.7, [-7.40, 3.64, -0.577, 0.0430, -0.00155, 0.0000218]),
    Segment(17.7, 92.0, [0.501, 0.00321, 0.000128, -0.000000442, 0.0, 0.0]))

  const ZERO_SEGMENT := Segment(0.0, 0.0, [0.0, 0.0, 0.0, 0.0, 0.0, 0.0])

  /** The PCD15473 transducers have no calibration yet: every entry is 0. */
  const NO_LAW := LawTable(0.0, 0.0, ZERO_SEGMENT, ZERO_SEGMENT)

  /** The calibration that create_config.py writes for a combination: the
      voltage-to-amplitude line depends on the driving system, the
      pressure and equalisation laws on the transducer model. */
  function Calibration(ds: string, tr: string): ComboRecord
  {
    var v2a := if ds in COMBO_DS[..2] then V2A_128 else V2A_32;
    var law := if tr in IS_TRANS[..2] then PCD15287_LAW else NO_LAW;
    ComboRecord(ds, tr, v2a.0, v2a.1, law.p2aA, law.p2aB, law.eqf1, law.eqf2)
  }

  /** One section per key; its serial entries are key.split('~')[0] and [1]. */
  function ComboSection(k: string): ComboRecord
  {
    var parts := Split(k, '~');
    Calibration(parts[0], if |parts| > 1 then parts[1] else "")
  }

  const COMBO_SECTIONS: map<string, ComboRecord> :=
    map k | k in DS_TRAN_COMBOS :: ComboSection(k)

  /** The whole configuration file. It has no 'F2NP' or 'V2P' entries. */
  const TABLE := Configuration(
    SC_DS + IGT_DS,
    SC_TRANS + IS_TRANS + DUMMIES,
    DS_TRAN_COMBOS,
    DS_SECTIONS,
    TR_SECTIONS,
    COMBO_SECTIONS,
    map[])

  /** Every listed serial has a section, so neither listing raises KeyError. */
  lemma ListingsSucceed()
    ensures ActiveSerials(TABLE.dsSerials, DsFlags(TABLE)).Ok?
    ensures ActiveSerials(TABLE.trSerials, TrFlags(TABLE)).Ok?
  {
    forall s | s in TABLE.dsSerials
      ensures s in DsFlags(TABLE)
    {
      var i :| 0 <= i < |TABLE.dsSerials| && TABLE.dsSerials[i] == s;
      DsSectionAt(i);
    }
    forall s | s in TABLE.trSerials
      ensures s in TrFlags(TABLE)
    {
      var i :| 0 <= i < |TABLE.trSerials| && TABLE.trSerials[i] == s;
      TrSectionAt(i);
    }
    ActiveSerialsFails(TABLE.dsSerials, DsFlags(TABLE));
    ActiveSerialsFails(TABLE.trSerials, TrFlags(TABLE));
  }

  /** The i-th listed driving system has a section. */
  lemma DsSectionAt(i: int)
    requires 0 <= i < |SC_DS + IGT_DS|
    ensures (SC_DS + IGT_DS)[i] in DS_SECTIONS
  {
    if i < 2 {
      assert (SC_DS + IGT_DS)[i] == SC_DS[i];
    } else {
      assert (SC_DS + IGT_DS)[i] == IGT_DS[i - 2];
    }
  }

  /** The i-th listed transducer has a section. */
  lemma TrSectionAt(i: int)
    requires 0 <= i < |SC_TRANS + IS_TRANS + DUMMIES|
    ensures (SC_TRANS + IS_TRANS + DUMMIES)[i] in TR_SECTIONS
  {
  }

  /** The equipment a new Sequence starts with: the first active driving
      system is the junior TPO 203-035 and the first active transducer the
      CTX-250-009. */
  lemma DefaultEquipment()
    ensures var ds := ActiveSerials(TABLE.dsSerials, DsFlags(TABLE));
      ds.Ok? && |ds.value| > 0 && ds.value[0] == "203-035"
    ensures var tr := ActiveSerials(TABLE.trSerials, TrFlags(TABLE));
      tr.Ok? && |tr.value| > 0 && tr.value[0] == "CTX-250-009"
  {
    ListingsSucceed();
    FirstDsActive();
    FirstTrActive();
    assert TABLE.dsSerials[0] == SC_DS[0];
    assert TABLE.trSerials[0] == SC_TRANS[0];
    ActiveSerialsOrder(TABLE.dsSerials, DsFlags(TABLE));
    ActiveSerialsOrder(TABLE.trSerials, TrFlags(TABLE));
  }

  /** The first listed driving system has an active section. */
  lemma FirstDsActive()
    ensures SC_DS[0] in DS_SECTIONS && DS_SECTIONS[SC_DS[0]].active == "True"
  {
  }

  /** The first listed transducer has an active section. */
  lemma FirstTrActive()
    ensures SC_TRANS[0] in TR_SECTIONS && TR_SECTIONS[SC_TRANS[0]].active == "True"
  {
  }

  /** The dummy load and the CTX-500-024 are configured but never offered. */
  lemma InactiveTransducersNotListed()
    ensures DUMMY in TABLE.trSerials && "CTX-500-024" in TABLE.trSerials
    ensures var tr := ActiveSerials(TABLE.trSerials, TrFlags(TABLE));
      tr.Ok? && DUMMY !in tr.value && "CTX-500-024" !in tr.value
  {
    ListingsSucceed();
    ActiveSerialsMembers(TABLE.trSerials, TrFlags(TABLE));
    InactiveTransducerSections();
    assert TABLE.trSerials[5] == SC_TRANS[5] && TABLE.trSerials[11] == DUMMY;
  }

  /** The sections of the dummy load and the CTX-500-024 say Active? = 'False'. */
  lemma InactiveTransducerSections()
    ensures SC_TRANS[5] == "CTX-500-024"
    ensures DUMMY in TR_SECTIONS && TR_SECTIONS[DUMMY].active == "False"
    ensures SC_TRANS[5] in TR_SECTIONS && TR_SECTIONS[SC_TRANS[5]].active == "False"
  {
  }

  /** The IGT configurations for Sonic Concepts transducers are switched off. */
  lemma InactiveDrivingSystemsNotListed()
    ensures var ds := ActiveSerials(TABLE.dsSerials, DsFlags(TABLE));
      ds.Ok? && forall d :: 3 <= d < 6 || 9 <= d < |IGT_DS| ==> IGT_DS[d] !in ds.value
  {
    ListingsSucceed();
    ActiveSerialsMembers(TABLE.dsSerials, DsFlags(TABLE));
    assert TABLE.drivingSystems == DS_SECTIONS;
    forall d | 3 <= d < 6 || 9 <= d < |IGT_DS|
      ensures DS_SECTIONS[IGT_DS[d]].active == "False"
    {
      InactiveDrivingSystemSection(d);
    }
  }

  /** The section of each of those configurations says Active? = 'False'. */
  lemma InactiveDrivingSystemSection(d: int)
    requires 3 <= d < 6 || 9 <= d < |IGT_DS|
    ensures IGT_DS[d] in DS_SECTIONS && DS_SECTIONS[IGT_DS[d]].active == "False"
  {
    if d == 3 {
    } else if d == 4 {
    } else if d == 5 {
    } else if d == 9 {
    } else if d == 10 {
    } else if d == 11 {
    } else {
    }
  }

  /** What a combination section promises about one key. */
  ghost predicate WellFormedCombo(cfg: Configuration, k: string)
  {
    && k in cfg.combinations
    && var rec := cfg.combinations[k];
    && Split(k, '~') == [rec.dsSerial, rec.trSerial]
    && rec.dsSerial in cfg.drivingSystems
    && cfg.drivingSystems[rec.dsSerial].manufact == IGT
    && cfg.drivingSystems[rec.dsSerial].active == "True"
    && rec.trSerial in cfg.drivingSystems[rec.dsSerial].tranComp
    && rec.trSerial in cfg.transducers
    && cfg.transducers[rec.trSerial].manufact == IMASONIC
    && cfg.transducers[rec.trSerial].active == "True"
    && rec.v2aA != 0.0
  }

  /** The driving-system half of a combination. */
  lemma ComboDrivingSystem(d: int)
    requires 0 <= d < |COMBO_DS|
    ensures '~' !in COMBO_DS[d]
    ensures COMBO_DS[d] in DS_SECTIONS
    ensures DS_SECTIONS[COMBO_DS[d]].manufact == IGT && DS_SECTIONS[COMBO_DS[d]].active == "True"
    ensures forall t :: 0 <= t < |IS_TRANS| ==> IS_TRANS[t] in DS_SECTIONS[COMBO_DS[d]].tranComp
  {
    ComboDsKey(d);
    var rec := ComboDsSection(d);
    assert forall t :: 0 <= t < |IS_TRANS| ==> IS_TRANS[t] in IS_TRANS + DUMMIES;
  }

  /** No combined driving-system serial contains the key separator. */
  lemma ComboDsKey(d: int)
    requires 0 <= d < |COMBO_DS|
    ensures '~' !in COMBO_DS[d]
  {
    if d == 0 {
    } else if d == 1 {
    } else if d == 2 {
    } else {
    }
  }

  /** The section of a combined driving system. */
  lemma ComboDsSection(d: int) returns (rec: DsRecord)
    requires 0 <= d < |COMBO_DS|
    ensures COMBO_DS[d] in DS_SECTIONS && DS_SECTIONS[COMBO_DS[d]] == rec
    ensures rec.manufact == IGT && rec.active == "True" && rec.tranComp == IS_TRANS + DUMMIES
  {
    if d == 0 {
      rec := DS_SECTIONS[IGT_DS[1]];
    } else if d == 1 {
      rec := DS_SECTIONS[IGT_DS[2]];
    } else if d == 2 {
      rec := DS_SECTIONS[IGT_DS[7]];
    } else {
      rec := DS_SECTIONS[IGT_DS[8]];
    }
  }

  /** The transducer half of a combination. */
  lemma ComboTransducer(t: int)
    requires 0 <= t < |IS_TRANS|
    ensures '~' !in IS_TRANS[t]
    ensures IS_TRANS[t] in TR_SECTIONS
    ensures TR_SECTIONS[IS_TRANS[t]].manufact == IMASONIC && TR_SECTIONS[IS_TRANS[t]].active == "True"
  {
  }

  lemma ComboWellFormed(i: int)
    requires 0 <= i < |DS_TRAN_COMBOS|
    ensures WellFormedCombo(TABLE, DS_TRAN_COMBOS[i])
  {
    var d, t := i / |IS_TRANS|, i % |IS_TRANS|;
    var rec := ComboSectionAt(i);
    ComboDrivingSystem(d);
    ComboTransducer(t);
    SplitComboKey(COMBO_DS[d], IS_TRANS[t]);
    assert DS_TRAN_COMBOS[i] == ComboKey(COMBO_DS[d], IS_TRANS[t]);
    assert rec.dsSerial == COMBO_DS[d] && rec.trSerial == IS_TRANS[t];
  }

  /** Every combination key names an active IGT driving system and an
      active Imasonic transducer that the driving system lists as
      compatible, the serial entries of its section are the two halves of
      the key, and its voltage-to-amplitude slope is not zero. */
  lemma CombinationsWellFormed()
    ensures forall k :: k in TABLE.combos ==> WellFormedCombo(TABLE, k)
  {
    forall k | k in TABLE.combos
      ensures WellFormedCombo(TABLE, k)
    {
      var i :| 0 <= i < |DS_TRAN_COMBOS| && DS_TRAN_COMBOS[i] == k;
      ComboWellFormed(i);
    }
  }

  /** Every combination key is found by the substring test that Sequence
      uses on the '\n'-joined 'Combinations' entry. */
  lemma CombinationsRegistered(k: string)
    requires k in TABLE.combos
    ensures Contains(Join(TABLE.combos, "\n"), k)
  {
  }

  /** Segment 1 of the equalisation-factor law includes both limits. */
  predicate InLowerSegment(s: Segment, focus: real)
  {
    s.low <= focus <= s.upper
  }

  /** Segment 2 excludes its lower limit. */
  predicate InUpperSegment(s: Segment, focus: real)
  {
    s.low < focus <= s.upper
  }

  /** For the calibrated PCD15287 combinations the two segments of the
      equalisation-factor law split the transducer's focal range
      [min. focus, max. focus] without overlap or gap: every focus in it
      belongs to exactly one segment. */
  lemma CalibratedSegmentsPartitionFocalRange(i: int, focus: real)
    requires 0 <= i < |DS_TRAN_COMBOS| && i % |IS_TRANS| < 2
    ensures DS_TRAN_COMBOS[i] in TABLE.combinations
    ensures TABLE.combinations[DS_TRAN_COMBOS[i]].trSerial in TABLE.transducers
    ensures var rec := TABLE.combinations[DS_TRAN_COMBOS[i]];
      var tr := TABLE.transducers[rec.trSerial];
      && rec.eqf1.low == tr.minFoc && rec.eqf1.upper == rec.eqf2.low && rec.eqf2.upper == tr.maxFoc
      && (tr.minFoc <= focus <= tr.maxFoc <==>
            InLowerSegment(rec.eqf1, focus) || InUpperSegment(rec.eqf2, focus))
      && !(InLowerSegment(rec.eqf1, focus) && InUpperSegment(rec.eqf2, focus))
  {
    var t := i % |IS_TRANS|;
    var rec := ComboSectionAt(i);
    assert IS_TRANS[t] in IS_TRANS[..2];
    assert rec.eqf1 == PCD15287_LAW.eqf1 && rec.eqf2 == PCD15287_LAW.eqf2;
    Pcd15287FocalRange(t);
  }

  /** The PCD15287 transducers focus from 7 mm to 92 mm. */
  lemma Pcd15287FocalRange(t: int)
    requires 0 <= t < 2
    ensures IS_TRANS[t] in TR_SECTIONS
    ensures TR_SECTIONS[IS_TRANS[t]].minFoc == 7.0 && TR_SECTIONS[IS_TRANS[t]].maxFoc == 92.0
  {
    if t == 0 {
    } else {
    }
  }

  /** The PCD15473 combinations carry no calibration: every pressure and
      equalisation coefficient and limit is zero. */
  lemma UncalibratedCombinations(i: int)
    requires 0 <= i < |DS_TRAN_COMBOS| && 2 <= i % |IS_TRANS|
    ensures DS_TRAN_COMBOS[i] in TABLE.combinations
    ensures var rec := TABLE.combinations[DS_TRAN_COMBOS[i]];
      && rec.p2aA == 0.0 && rec.p2aB == 0.0
      && rec.eqf1 == rec.eqf2 == ZERO_SEGMENT
      && forall j :: 0 <= j < |rec.eqf1.coeffs| ==> rec.eqf1.coeffs[j] == 0.0
  {
    var rec := ComboSectionAt(i);
    Pcd15473Uncalibrated(COMBO_DS[i / |IS_TRANS|], i % |IS_TRANS|);
  }

  /** A PCD15473 transducer gets the all-zero law whatever the driving system. */
  lemma Pcd15473Uncalibrated(ds: string, t: int)
    requires 2 <= t < |IS_TRANS|
    ensures var rec := Calibration(ds, IS_TRANS[t]);
      && rec.p2aA == 0.0 && rec.p2aB == 0.0
      && rec.eqf1 == rec.eqf2 == ZERO_SEGMENT
      && forall j :: 0 <= j < |rec.eqf1.coeffs| ==> rec.eqf1.coeffs[j] == 0.0
  {
    assert IS_TRANS[t] !in IS_TRANS[..2] by {
      assert IS_TRANS[..2] == [IS_TRANS[0], IS_TRANS[1]];
      assert IS_TRANS[t][8] == '4' && IS_TRANS[0][8] == '2' && IS_TRANS[1][8] == '2';
    }
  }

  /** The section of the i-th combination is the calibration of its two halves. */
  lemma ComboSectionAt(i: int) returns (rec: ComboRecord)
    requires 0 <= i < |DS_TRAN_COMBOS|
    ensures 0 <= i / |IS_TRANS| < |COMBO_DS|
    ensures DS_TRAN_COMBOS[i] in TABLE.combinations
    ensures rec == TABLE.combinations[DS_TRAN_COMBOS[i]]
    ensures rec == Calibration(COMBO_DS[i / |IS_TRANS|], IS_TRANS[i % |IS_TRANS|])
    ensures rec.trSerial == IS_TRANS[i % |IS_TRANS|]
  {
    var d, t := i / |IS_TRANS|, i % |IS_TRANS|;
    ComboDrivingSystem(d);
    ComboTransducer(t);
    SplitComboKey(COMBO_DS[d], IS_TRANS[t]);
    rec := TABLE.combinations[DS_TRAN_COMBOS[i]];
  }
}
