# FUS driving-system software: a Dafny model of the sequence and IGT core

The Radboud FUS driving-system package drives focused-ultrasound equipment. A driving system (a
Sonic Concepts NeuroFUS generator or an IGT multi-channel generator) and a transducer are chosen
from a configuration file. A `Sequence` object holds the intensity of the ultrasound (global power
on Sonic Concepts; voltage, amplitude and maximum pressure in free water on IGT) and the timing of
pulses and pulse trains. The IGT driver turns a `Sequence` into a pulse, a pulse train, a number of
train repetitions and a ramp modulation, and computes the element phases that steer the focus.

The project models:

- `common.dfy` (module `Common`): how the Python code ends (`Result`: a value, a `False` return, a
  `sys.exit()` or an uncaught exception) and the runtime primitives it uses: `int()`, the
  fractional part of `math.modf`, `round()`, substring `in`, `'\n'.join` and `str.split`.
- `config.dfy` (module `Config`): the parsed configuration file, and the "active serials"
  listing that both `get_ds_serials` and `get_tran_serials` perform.
- `equipment_table.dfy` (module `EquipmentTable`): the configuration that `create_config.py`
  writes, as constant data, and the facts about it that the rest of the package relies on.
- `driving_system.dfy` and `transducer.dfy`: the `DrivingSystem` and `Transducer` classes, filled
  from a section, and the module-level listing functions.
- `sequence.dfy` (module `Sequences`): the `Sequence` class, with its setters as methods over the
  object's fields. Each setter's new state is tied to a pure transition function of the old state
  (`GlobalPowerSet`, `AmplOutsideIgt`, `UpdateConv`), and the conversion laws are proved about those
  functions.
- `transducer_xyz.dfy` (module `TransducerXYZ`): the element geometry of an IGT transducer, its
  loading from the `[elements]` section, and `computePhases` with its round-robin dephasing.
- `igt_ds.dfy` (module `IgtDs`): `_define_pulse`, `_set_phases`, `_define_pulse_train`, the
  repetition count of `send_sequence`, `_apply_ramping` and `_get_ramping_amplitude`.

Parameters stand for things outside the program:

- `math.sqrt` and `math.cos` are function-typed parameters (`sqrt`, `cos`). Lemmas that need a
  property of them state it as a requirement, for example `-1 <= cos(t) <= 1`.
- The contents of package resource files are parameters: the parsed `[elements]` section of a
  transducer `.ini` file, and the outcome of the steer-table lookup (`SteerResource`).
- The configuration is a value of type `Config.Configuration`. Its serial lists are sequences of
  serials.

All numbers are exact reals. Python's integer operations are written out where they matter:
`int()` truncates toward zero, `math.modf` keeps the sign, `round()` rounds half to even, and
`n * [p]` is empty for `n <= 0`.

Where the code and its own documentation disagree, the model follows the code:

- `_calc_volt` subtracts `V2P_a` where its doc-comment (sequence.py:1004) gives `b`.
  `Sequences.PressVoltRoundTrip` shows that pressure → voltage → pressure is then the identity
  only when `V2P_a == V2P_b`.
- The `.ini` branch of `_set_phases` computes the phases and drops them. In the source a list is
  returned and the pulse is left unchanged. The model returns the pulse unchanged and passes on
  only the ways `computePhases` can stop the program.
- On the steer-table branch, a table row that matches the focus reaches a call of `to_list` on a
  Python list (igt_ds.py:408). That raises `AttributeError`, so the dephasing loop after it is never
  reached from `_set_phases`. That loop is modelled on its own (`IgtDs.DephaseTablePhases`).
- The `focus` setter recomputes the normalised pressure and the voltage but not the amplitude.
- The `dephasing_degree` doc-comment (sequence.py:133) gives 0 for "no dephasing", but a
  `[0.0]` list divides by zero in `round(360 / dephasing_degree)` (transducerXYZ.py:191).
  `TransducerXYZ.PhasesFor` raises ZeroDivisionError for it.

## Model

| member | source | states |
|---|---|---|
| Common.Trunc | fus_ds_package/fus_driving_systems/sequence.py:416 | `int()` of a float: the integer next to x toward zero, within 1 of x on the side of 0 |
| Common.Frac | fus_ds_package/fus_driving_systems/igt/transducerXYZ.py:179 | fractional part of `math.modf`: in [0, 1) for x >= 0, in (-1, 0] for x < 0, and x minus it is a whole number |
| Common.RoundHalfEven | fus_ds_package/fus_driving_systems/igt/igt_ds.py:417 | `round()`: within 0.5 of x, even at an exact half, exact on whole numbers |
| Common.Contains | fus_ds_package/fus_driving_systems/sequence.py:142 | substring `in`: holds exactly when the substring occurs at some offset of the string |
| Common.Join | fus_ds_package/fus_driving_systems/config/create_config.py:181 | `sep.join(parts)`: every part is a substring of the result, whatever the separator, which is what the registration test relies on |
| Common.Split | fus_ds_package/fus_driving_systems/config/create_config.py:553-557 | `s.split(c)` for one character: one more part than there are separators in s |
| Common.SplitJoin | fus_ds_package/fus_driving_systems/config/create_config.py:163-181 | `c.join(parts).split(c) == parts` for a non-empty list of parts free of c; the combination keys `'~'.join([ds, tr])` split back into `[ds, tr]` |
| Config.ActiveSerials | fus_ds_package/fus_driving_systems/driving_system.py:122-130 | the listing succeeds or raises KeyError; it is no longer than the list and holds only listed serials whose section says Active? = 'True' |
| Config.ActiveSerialsFails | fus_ds_package/fus_driving_systems/driving_system.py:122-130 | the listing succeeds exactly when every listed serial has a section (otherwise KeyError, by `ActiveSerials`) |
| Config.ActiveSerialsMembers | fus_ds_package/fus_driving_systems/driving_system.py:125-128 | a serial is listed iff it is in the list, has a section and that section says Active? = 'True' |
| Config.ActiveSerialsOrder | fus_ds_package/fus_driving_systems/transducer.py:136-142 | a successful listing starts with the first serial when that one is active |
| Config.ActiveSerialsAppend | fus_ds_package/fus_driving_systems/transducer.py:136-142 | the listing of a concatenation is the concatenation of the listings |
| DrivingSystems.DrivingSystem.constructor | fus_ds_package/fus_driving_systems/driving_system.py:57-69 | the defaults: no serial, name, manufacturer, connection info or compatibility; 0 channels; active |
| DrivingSystems.DrivingSystem.SetDsInfo | fus_ds_package/fus_driving_systems/driving_system.py:71-92 | the serial is always stored; a known serial loads every field of its section; an unknown one exits and leaves the other fields |
| DrivingSystems.GetDsSerials | fus_ds_package/fus_driving_systems/driving_system.py:114-130 | the loop returns exactly the active serials in configuration order, or KeyError |
| DrivingSystems.GetDsNames | fus_ds_package/fus_driving_systems/driving_system.py:133-150 | one name per active serial, in the same order, taken from its section; the listing's error otherwise |
| DrivingSystems.GetDsList | fus_ds_package/fus_driving_systems/driving_system.py:153-174 | one fresh object per active serial describing its section; KeyError from the listing; exit on an empty listing |
| Transducers.Transducer.constructor | fus_ds_package/fus_driving_systems/transducer.py:60-75 | the defaults, among them max. focus 200 mm and no steer information |
| Transducers.Transducer.SetTransducerInfo | fus_ds_package/fus_driving_systems/transducer.py:77-100 | the serial is always stored; a known serial loads every field of its section; an unknown one exits and leaves the other fields |
| Transducers.GetTranSerials | fus_ds_package/fus_driving_systems/transducer.py:126-142 | the loop returns exactly the active serials in configuration order, or KeyError |
| Transducers.GetTranNames | fus_ds_package/fus_driving_systems/transducer.py:145-162 | one name per active serial, in the same order, taken from its section |
| Transducers.GetTranList | fus_ds_package/fus_driving_systems/transducer.py:165-186 | one fresh object per active serial describing its section; exit on an empty listing |
| EquipmentTable.ListingsSucceed | fus_ds_package/fus_driving_systems/config/create_config.py:156-161 | every serial of the shipped 'Driving systems' and 'Transducers' lists has a section |
| EquipmentTable.DefaultEquipment | fus_ds_package/fus_driving_systems/config/create_config.py:103-108 | the first active driving system is 203-035 and the first active transducer CTX-250-009 |
| EquipmentTable.InactiveTransducersNotListed | fus_ds_package/fus_driving_systems/config/create_config.py:439-547 | the dummy load and CTX-500-024 are configured but never listed as active |
| EquipmentTable.InactiveDrivingSystemsNotListed | fus_ds_package/fus_driving_systems/config/create_config.py:247-361 | the IGT configurations 3-5 and 9-12 are never listed as active |
| EquipmentTable.ComboDrivingSystem | fus_ds_package/fus_driving_systems/config/create_config.py:225-314 | each combination driving system is an active IGT section, free of '~', compatible with every Imasonic transducer |
| EquipmentTable.ComboTransducer | fus_ds_package/fus_driving_systems/config/create_config.py:472-530 | each Imasonic transducer is an active Imasonic section, free of '~' |
| EquipmentTable.ComboWellFormed | fus_ds_package/fus_driving_systems/config/create_config.py:553-560 | the i-th combination key is well formed (as below) |
| EquipmentTable.CombinationsWellFormed | fus_ds_package/fus_driving_systems/config/create_config.py:163-181 | every combination key splits on '~' into the serials of its section, names an active IGT system and an active compatible Imasonic transducer, and has a non-zero V2A slope |
| EquipmentTable.CombinationsRegistered | fus_ds_package/fus_driving_systems/config/create_config.py:181 | every combination key is found by the substring test on the newline-joined 'Combinations' entry |
| EquipmentTable.CalibratedSegmentsPartitionFocalRange | fus_ds_package/fus_driving_systems/config/create_config.py:565-581 | for the PCD15287 combinations the two equalisation segments cover [min. focus, max. focus] exactly, without overlap |
| EquipmentTable.UncalibratedCombinations | fus_ds_package/fus_driving_systems/config/create_config.py:612-640 | the PCD15473 combinations carry zero pressure and equalisation coefficients and limits |
| EquipmentTable.ComboSectionAt | fus_ds_package/fus_driving_systems/config/create_config.py:553-563 | the section of the i-th key is the calibration of its driving system (V2A line) and transducer model |
| EquipmentTable.ComboKey | fus_ds_package/fus_driving_systems/config/create_config.py:163-179 | the key built by concatenation is `'~'.join([ds, tr])` |
| Sequences.ShippedTableHasNoPressureLaw | fus_ds_package/fus_driving_systems/sequence.py:970 | the shipped configuration has no F2NP/V2P entries, so every parameter update raises KeyError |
| Sequences.NormPress | fus_ds_package/fus_driving_systems/sequence.py:992-1000 | the normalised pressure is the quintic with coefficients a0 .. a5 at the focus, equal to its Horner form |
| Sequences.VoltForPress | fus_ds_package/fus_driving_systems/sequence.py:1002-1013 | `_calc_volt` as written: 0 for Pnorm = 0, otherwise the voltage V with (V2P_a·V + V2P_a)·Pnorm = P, i.e. on the line with intercept V2P_a, not V2P_b |
| Sequences.PressFromVolt | fus_ds_package/fus_driving_systems/sequence.py:1023-1030 | `_calc_press`: for Pnorm != 0 and V2P_a != 0 the inverse documented at sequence.py:1004, ((P / Pnorm) − V2P_b) / V2P_a, gives the voltage back |
| Sequences.VoltFromAmpl | fus_ds_package/fus_driving_systems/sequence.py:582-583 | the ampl setter's voltage is the one whose amplitude on the V2A line is the requested amplitude |
| Sequences.AmplFromVolt | fus_ds_package/fus_driving_systems/sequence.py:1015-1021 | `_calc_ampl`: with V2A_a != 0 the ampl setter's inverse gives the voltage back |
| Sequences.AmplVoltRoundTrip | fus_ds_package/fus_driving_systems/sequence.py:1015-1021 | amplitude → voltage → amplitude and voltage → amplitude → voltage are identities when V2A_a != 0 |
| Sequences.PressVoltRoundTrip | fus_ds_package/fus_driving_systems/sequence.py:1002-1030 | pressure → voltage → pressure is off by (V2P_b − V2P_a)·Pnorm; identity iff V2P_a == V2P_b |
| Sequences.VoltPressRoundTrip | fus_ds_package/fus_driving_systems/sequence.py:1002-1030 | voltage → pressure → voltage is off by (V2P_b − V2P_a)/V2P_a; identity iff V2P_a == V2P_b |
| Sequences.AmplOutsideIgt | fus_ds_package/fus_driving_systems/sequence.py:600-611 | the ampl setter off IGT changes only amplitude, voltage and pressure, never the global or chosen power, and changes anything only for a -1 request while a global power is set |
| Sequences.GlobalPowerSet | fus_ds_package/fus_driving_systems/sequence.py:452-474 | the global_power setter changes at most the chosen power and the four intensity fields; focus, key, conversion parameters and timing are kept |
| Sequences.GlobalPowerOnSonicConcepts | fus_ds_package/fus_driving_systems/sequence.py:452-474 | on Sonic Concepts the global power is recorded and, when above -1, every other intensity becomes -1 |
| Sequences.GlobalPowerElsewhere | fus_ds_package/fus_driving_systems/sequence.py:466-474 | on other families the state is unchanged except a reset of the global power to -1 while an amplitude is set |
| Sequences.ChosenPowerOffered | fus_ds_package/fus_driving_systems/config/create_config.py:95-124 | the Sonic Concepts global-power setter records POW_GP, an option Sonic Concepts offers; amplitude, pressure and voltage (which the IGT setters record, by their own contracts) are IGT options and not Sonic Concepts ones |
| Sequences.UpdateConv | fus_ds_package/fus_driving_systems/sequence.py:961-990 | ends in success, KeyError or ZeroDivisionError; KeyError exactly when the section lacks an entry, and then nothing changes; only the parameters, Pnorm, voltage and amplitude can change |
| Sequences.UpdateConvKeepsPressure | fus_ds_package/fus_driving_systems/sequence.py:961-990 | the update keeps pressure and focus, and voltage and amplitude then answer the pressure through the new parameters |
| Sequences.UpdateConvIdempotent | fus_ds_package/fus_driving_systems/sequence.py:141-143 | a successful update repeated changes nothing, so the constructor's second update is harmless |
| Sequences.Sequence.constructor | fus_ds_package/fus_driving_systems/sequence.py:105-169 | the attribute defaults (-1 intensities, focus 40, default timing) |
| Sequences.Sequence.Create | fus_ds_package/fus_driving_systems/sequence.py:105-169 | the first active driving system and transducer are chosen; errors of the listings; the resulting state is the update of the defaults; the object is valid |
| Sequences.Sequence.SelectDrivingSystem | fus_ds_package/fus_driving_systems/sequence.py:272-289 | loads the section, renews the key and, for a registered key, performs the parameter update; the object stays valid |
| Sequences.Sequence.SelectTransducer | fus_ds_package/fus_driving_systems/sequence.py:373-394 | loads the section, takes its frequency and min. focus, renews the key and updates a registered one |
| Sequences.Sequence.UpdateConvParam | fus_ds_package/fus_driving_systems/sequence.py:961-990 | the new state and status are those of `UpdateConv` |
| Sequences.Sequence.CalcNormPress | fus_ds_package/fus_driving_systems/sequence.py:992-1000 | only the normalised pressure changes, to the polynomial at the focus |
| Sequences.Sequence.CalcVolt | fus_ds_package/fus_driving_systems/sequence.py:1002-1013 | only the voltage changes; ZeroDivisionError when Pnorm != 0 and V2P_a == 0 |
| Sequences.Sequence.CalcAmpl | fus_ds_package/fus_driving_systems/sequence.py:1015-1021 | only the amplitude changes, to V2A_a·V + V2A_b |
| Sequences.Sequence.CalcPress | fus_ds_package/fus_driving_systems/sequence.py:1023-1030 | only the pressure changes, to (V2P_a·V + V2P_b)·Pnorm |
| Sequences.Sequence.SetOperFreq | fus_ds_package/fus_driving_systems/sequence.py:408-416 | only the operating frequency changes, to int() of the argument |
| Sequences.Sequence.SetGlobalPower | fus_ds_package/fus_driving_systems/sequence.py:452-474 | keeps Valid; the new state is `GlobalPowerSet` of the old one for the driving system's family |
| Sequences.Sequence.SetPress | fus_ds_package/fus_driving_systems/sequence.py:488-515 | keeps Valid; unregistered: nothing changes; registered: pressure and POW_PRESS are stored, then a ZeroDivisionError from `_calc_volt` keeps only those, else voltage and amplitude follow and the state is that of `global_power = -1` for the family (on IGT a reset of the global power only while the amplitude is > -1; on Sonic Concepts the global power becomes -1 and the chosen power POW_GP, and the derived pressure, voltage and amplitude stay) |
| Sequences.Sequence.SetVolt | fus_ds_package/fus_driving_systems/sequence.py:529-556 | keeps Valid; unregistered: nothing changes; registered: voltage and POW_VOLT are stored, pressure and amplitude follow, and the state is then that of `global_power = -1` for the family (as for SetPress) |
| Sequences.Sequence.SetAmpl | fus_ds_package/fus_driving_systems/sequence.py:570-611 | keeps Valid; IGT: the amplitude and POW_AMPL are stored, and a registered combination derives voltage and pressure, then `global_power = -1`; a zero V2A slope raises ZeroDivisionError; elsewhere `AmplOutsideIgt` |
| Sequences.Sequence.SetFocus | fus_ds_package/fus_driving_systems/sequence.py:625-641 | keeps Valid; the focus changes; with a registered combination Pnorm and the voltage follow, the amplitude, pressure and chosen power do not |
| Sequences.Sequence.SetPulseTrainRepDur | fus_ds_package/fus_driving_systems/sequence.py:950-959 | only the train repetition duration changes, to seconds × 1000 |
| TransducerXYZ.MmToM | fus_ds_package/fus_driving_systems/igt/transducerXYZ.py:129-130 | the coordinates divided by 1000: times 1000 they are the input |
| TransducerXYZ.SquaredDistance | fus_ds_package/fus_driving_systems/igt/transducerXYZ.py:177-178 | the sum of squared coordinate differences is non-negative |
| TransducerXYZ.Wavelength | fus_ds_package/fus_driving_systems/igt/transducerXYZ.py:58 | the wavelength in water: times the frequency it is 1500 m/s, and it is positive for a positive frequency |
| TransducerXYZ.AimPhase | fus_ds_package/fus_driving_systems/igt/transducerXYZ.py:177-180 | the phase `frac(d / λ) · 360` lies in [0, 360) for a positive wavelength and a non-negative distance |
| TransducerXYZ.Loaded | fus_ds_package/fus_driving_systems/igt/transducerXYZ.py:110-136 | loading succeeds iff the size is present and not 0 and entries 1 .. size exist; then the elements are those entries in m |
| TransducerXYZ.DephaseCounter | fus_ds_package/fus_driving_systems/igt/transducerXYZ.py:190-199 | the counter stays below n when n >= 1, and counts freely when it can never reach n |
| TransducerXYZ.DephaseCounterIsModulo | fus_ds_package/fus_driving_systems/igt/transducerXYZ.py:190-199 | the counter of element i is i mod n |
| TransducerXYZ.Dephased | fus_ds_package/fus_driving_systems/igt/transducerXYZ.py:183-199 | dephasing keeps the number of phases |
| TransducerXYZ.AimPhases | fus_ds_package/fus_driving_systems/igt/transducerXYZ.py:173-181 | one phase per element |
| TransducerXYZ.PhasesFor | fus_ds_package/fus_driving_systems/igt/transducerXYZ.py:142-206 | False iff the frequencies do not fit; a result iff they fit, every wavelength exists and any dephasing list is one non-zero entry; exit iff the list is longer; a result has one phase per element |
| TransducerXYZ.Transducer.constructor | fus_ds_package/fus_driving_systems/igt/transducerXYZ.py:72-75 | no elements |
| TransducerXYZ.Transducer.LoadConfig | fus_ds_package/fus_driving_systems/igt/transducerXYZ.py:110-136 | True iff `Loaded` succeeds, and then the elements are its result; a failure keeps the entries read before the first missing one |
| TransducerXYZ.Transducer.ComputePhases | fus_ds_package/fus_driving_systems/igt/transducerXYZ.py:138-206 | the result is `PhasesFor` of the elements: the frequency checks, the aim phases, and the dephasing with its failures; a result has `channelCount` phases |
| TransducerXYZ.Dephase | fus_ds_package/fus_driving_systems/igt/transducerXYZ.py:183-199 | the loop adds delta times the resetting counter, with n = round(360 / delta) |
| TransducerXYZ.SharedWavelength | fus_ds_package/fus_driving_systems/igt/transducerXYZ.py:161-179 | with one frequency, elements equally far from the target get the same phase |
| TransducerXYZ.AimPhasesInRange | fus_ds_package/fus_driving_systems/igt/transducerXYZ.py:177-181 | with positive frequencies and a non-negative sqrt every phase lies in [0, 360) |
| TransducerXYZ.DephasedIsModular | fus_ds_package/fus_driving_systems/igt/transducerXYZ.py:183-199 | element i is shifted by delta·(i mod n), so the shifts repeat every n elements |
| TransducerXYZ.NinetyDegreeDephasing | fus_ds_package/fus_driving_systems/igt/transducerXYZ.py:183-199 | a 90° dephasing shifts elements by 0, 90, 180, 270, 0 degrees |
| IgtDs.RoundTenth | fus_ds_package/fus_driving_systems/igt/igt_ds.py:308 | `round(x, 1)` is within 0.05 of x |
| IgtDs.SetPhasesOutcome | fus_ds_package/fus_driving_systems/igt/igt_ds.py:351-437 | a returned pulse is the pulse given (the computed phases are dropped); never False; no steer information raises AttributeError; on the '.ini' path an unreadable definition exits, and for a loaded one the pulse comes back exactly when the frequencies do not fit (computePhases' False) or every wavelength exists and any dephasing list is one non-zero entry; the steer-table path never returns |
| IgtDs.SetPhases | fus_ds_package/fus_driving_systems/igt/igt_ds.py:351-437 | the result is `SetPhasesOutcome`: no steer information raises AttributeError; the '.ini' path exits on a load failure and passes on computePhases' exit or exception; every table outcome stops the program |
| IgtDs.DephaseTablePhases | fus_ds_package/fus_driving_systems/igt/igt_ds.py:410-425 | no list: phases unchanged; empty list: IndexError; first entry 0: ZeroDivisionError; otherwise only the first entry dephases the row |
| IgtDs.DefinedPulse | fus_ds_package/fus_driving_systems/igt/igt_ds.py:294-329 | a dephasing list with one entry per element becomes the phases; otherwise phases stay the default; frequency in Hz, one amplitude, delay within 0.05 of interval − duration |
| IgtDs.RepetitionCount | fus_ds_package/fus_driving_systems/igt/igt_ds.py:182-183 | the count is the largest n with n·interval <= duration; ZeroDivisionError exactly on a zero interval |
| IgtDs.RampResolution | fus_ds_package/fus_driving_systems/igt/igt_ds.py:448-456 | the step is 0.005 ms or the duration spread over 1023 steps |
| IgtDs.RampStepsBounded | fus_ds_package/fus_driving_systems/igt/igt_ds.py:448-456 | for a non-negative duration the step is positive and the ramp has at most 1023 points |
| IgtDs.Linspace | fus_ds_package/fus_driving_systems/igt/igt_ds.py:490 | `numpy.linspace` returns n points |
| IgtDs.LinearEnvelope | fus_ds_package/fus_driving_systems/igt/igt_ds.py:486-490 | the linear ramp starts at 0, ends at 1, stays in [0, 1] and never decreases |
| IgtDs.TukeyPoint | fus_ds_package/fus_driving_systems/igt/igt_ds.py:496-497 | a Tukey point lies in [0, 1] when the cosine at its argument lies in [-1, 1] |
| IgtDs.TukeyEnvelope | fus_ds_package/fus_driving_systems/igt/igt_ds.py:492-498 | the Tukey ramp stays in [0, 1] for a cosine in [-1, 1], and rises from 0 to 1 |
| IgtDs.Envelope | fus_ds_package/fus_driving_systems/igt/igt_ds.py:473-500 | UnboundLocalError exactly for shapes other than Linear and Tukey; a result has floor(dur / res) points; Linear and Tukey succeed for a positive step and a non-negative duration |
| IgtDs.GetRampingAmplitude | fus_ds_package/fus_driving_systems/igt/igt_ds.py:473-500 | the result is `Envelope`: linear or Tukey ramp of floor(dur/res) points; other shapes UnboundLocalError; zero step ZeroDivisionError; negative count ValueError |
| IgtDs.Reverse | fus_ds_package/fus_driving_systems/igt/igt_ds.py:466 | flipping keeps the length |
| IgtDs.RampDown | fus_ds_package/fus_driving_systems/igt/igt_ds.py:463-464 | one attenuation per envelope point |
| IgtDs.RampUp | fus_ds_package/fus_driving_systems/igt/igt_ds.py:466-467 | one attenuation per envelope point |
| IgtDs.RampsMirror | fus_ds_package/fus_driving_systems/igt/igt_ds.py:463-467 | ramp up is ramp down reversed; both lie in [0, 100] for an envelope in [0, 1] |
| IgtDs.ApplyRamping | fus_ds_package/fus_driving_systems/igt/igt_ds.py:439-471 | the modulation is the truncated percentages of the envelope, flipped for ramp-up, at the chosen step; envelope errors are passed on |
| IgtDs.NegativeRampDuration | fus_ds_package/fus_driving_systems/igt/igt_ds.py:448-456 | a negative ramp duration makes the envelope raise ValueError |
| IgtDs.IgtDriver.constructor | fus_ds_package/fus_driving_systems/igt/igt_ds.py:71-88 | no pulses, no modulation, zero train delay and repetitions; `nChannels` stands for the channel count that the connect step (not modelled) reads from the generator |
| IgtDs.IgtDriver.DefinePulse | fus_ds_package/fus_driving_systems/igt/igt_ds.py:294-329 | the result is `DefinedPulse` of the sequence's fields (see `IgtDs.DefinedPulse`) |
| IgtDs.IgtDriver.DefinePulseTrain | fus_ds_package/fus_driving_systems/igt/igt_ds.py:331-349 | floor(train duration / repetition interval) copies of the pulse and the pause between trains; ZeroDivisionError on a zero interval |
| IgtDs.IgtDriver.SendSequence | fus_ds_package/fus_driving_systems/igt/igt_ds.py:159-187 | pulse, pulse train, repetition count and, unless rectangular, the ramp modulation; every failure of a step ends the call with that failure and leaves the fields the later steps would set as they were |

## Left out

- The Sonic Concepts driver, the `unifus` generator calls (connect, upload, execute, wait for a
  trigger, disconnect) and the reconnect branch of `send_sequence`: hardware I/O. `SendSequence`
  models the connected branch, up to the upload.
- Reading files: `load` and `loadFromString` of `transducerXYZ.py` and the Excel steer table. Their
  outcomes are parameters (`ElementsSection`, `TableLookup`).
- Logging, `__str__`, the `setFocusMm` argument of `computePhases` (only logged) and the
  `total_sequence_duration_ms` bookkeeping: no effect on the modelled state.
- Floating point: all arithmetic is exact. `round(x, 1)` rounds the exact decimal, and
  `int(oper_freq * 1e3)` on a whole number of kHz is `oper_freq * 1000`.
- `math.sqrt` and `math.cos` are parameters, not definitions.
- The `General` entries (default ramp shape and timing, the `Power option.*` names) and the
  manufacturers' `Name` entries that sequence.py reads from the configuration are fixed to the
  values create_config.py writes (`DEFAULT_TIMING`, `POW_*`, `FamilyOf`); a configuration file
  edited by hand to other values is not modelled.
- Config.ActiveSerials: the driving-system listing splits the 'Driving systems' entry and the
  compatibility entry on ', ' (driving_system.py:88, 122), but create_config.py joins them with
  newlines. The model takes the lists already split into serials, so it does not show that a
  newline-joined list reaches the lookup as one unknown serial.
- The P2A law and the equalisation-factor polynomial have no reader in the modelled code. They are
  table data only (`EquipmentTable.CalibratedSegmentsPartitionFocalRange`).
- The trigger, sequence-number and plain timing setters (`pulse_dur`, `pulse_rep_int`,
  `pulse_ramp_shape`, `pulse_ramp_dur`, `pulse_train_dur`, `pulse_train_rep_int`,
  `dephasing_degree`) and the `chosen_power` setter: each stores its argument, so each is a plain
  field assignment of `timing`, `dephasingDegree` or `chosenPower`.
- The AttributeError of reading a conversion parameter before the first update: the setters
  require and ensure `Sequences.Sequence.Valid`, which says a registered key has its parameters.
- The `ampl is None` exit of `_define_pulse`: `ampl` is a real in the model and is never None.
- The getters of `V2A_a` … `V2P_b` convert with `float()`. The model stores the entries as reals.
- The contracts of the `Sequences.Sequence` setters, of the constructors and of
  `DefinePulseTrain`/`SendSequence` use `old`, `fresh` or `modifies`. Their meaning is carried by
  the lemmas about the transition functions.
