// transducer.py: a transducer object filled from its configuration section,
// and the listings of the active transducers.

module Transducers {
  import opened Common
  import opened Config

  class Transducer {
    var serial: Option<string>
    var name: Option<string>
    var manufact: Option<string>
    var elements: int
    var fundFreq: int        // [kHz]
    var naturalFoc: real     // [mm]
    var exitPlaneDist: real  // [mm]
    var minFoc: real         // [mm]
    var maxFoc: real         // [mm]
    var steerInfo: Option<string>
    var isActive: bool

    /** The object holds every field of the section `rec`. */
    predicate Describes(rec: TrRecord)
      reads this
    {
      && name == Some(rec.name)
      && manufact == Some(rec.manufact)
      && elements == rec.elements
      && fundFreq == rec.fundFreq
      && naturalFoc == rec.naturalFoc
      && exitPlaneDist == rec.exitPlaneDist
      && minFoc == rec.minFoc
      && maxFoc == rec.maxFoc
      && steerInfo == Some(rec.steerInfo)
      && isActive == (rec.active == "True")
    }

    /** A new transducer that is not yet bound to any section. */
    constructor ()
      ensures serial == None && name == None && manufact == None
      ensures elements == 0 && fundFreq == 0
      ensures naturalFoc == 0.0 && exitPlaneDist == 0.0 && minFoc == 0.0 && maxFoc == 200.0
      ensures steerInfo == None && isActive
    {
      serial := None;
      name := None;
      manufact := None;
      elements := 0;
      fundFreq := 0;
      naturalFoc := 0.0;
      exitPlaneDist := 0.0;
      minFoc := 0.0;
      maxFoc := 200.0;
      steerInfo := None;
      isActive := true;
    }

    /** set_transducer_info: the serial is stored first; a serial without a
        section then ends the program and leaves every other field as it was. */
    method SetTransducerInfo(cfg: Configuration, s: string) returns (status: Status)
      modifies this
      ensures serial == Some(s)
      ensures s in cfg.transducers ==> status == Done && Describes(cfg.transducers[s])
      ensures s !in cfg.transducers ==>
        && status == Exited
        && name == old(name) && manufact == old(manufact)
        && elements == old(elements) && fundFreq == old(fundFreq)
        && naturalFoc == old(naturalFoc) && exitPlaneDist == old(exitPlaneDist)
        && minFoc == old(minFoc) && maxFoc == old(maxFoc)
        && steerInfo == old(steerInfo) && isActive == old(isActive)
    {
      serial := Some(s);
      if s !in cfg.transducers {
        return Exited;
      }
      var rec := cfg.transducers[s];
      name := Some(rec.name);
      manufact := Some(rec.manufact);
      elements := rec.elements;
      fundFreq := rec.fundFreq;
      naturalFoc := rec.naturalFoc;
      exitPlaneDist := rec.exitPlaneDist;
      minFoc := rec.minFoc;
      maxFoc := rec.maxFoc;
      steerInfo := Some(rec.steerInfo);
      isActive := rec.active == "True";
      return Done;
    }
  }

  /** get_tran_serials: the active transducers, in configuration order. */
  method GetTranSerials(cfg: Configuration) returns (r: Result<seq<string>>)
    ensures r == ActiveSerials(cfg.trSerials, TrFlags(cfg))
  {
    var serials, flags := cfg.trSerials, TrFlags(cfg);
    var active: seq<string> := [];
    var i := 0;
    while i < |serials|
      invariant 0 <= i <= |serials|
      invariant ActiveSerials(serials[..i], flags) == Ok(active)
    {
      var s := serials[i];
      assert serials[..i + 1][..i] == serials[..i];
      if s !in cfg.transducers {
        ActiveSerialsFails(serials, flags);
        return Raised(KeyError);
      }
      if cfg.transducers[s].active == "True" {
        active := active + [s];
      }
      i := i + 1;
    }
    assert serials[..i] == serials;
    return Ok(active);
  }

  /** get_tran_names: the names of the active transducers, in the same
      order as get_tran_serials. */
  method GetTranNames(cfg: Configuration) returns (r: Result<seq<string>>)
    ensures var ss := ActiveSerials(cfg.trSerials, TrFlags(cfg));
      if ss.Ok? then
        && r.Ok? && |r.value| == |ss.value|
        && forall i :: 0 <= i < |ss.value| ==>
             ss.value[i] in cfg.transducers && r.value[i] == cfg.transducers[ss.value[i]].name
      else r == ss
  {
    var ss := GetTranSerials(cfg);
    if !ss.Ok? {
      return ss;
    }
    var serials := ss.value;
    ActiveSerialsMembers(cfg.trSerials, TrFlags(cfg));
    var names: seq<string> := [];
    var i := 0;
    while i < |serials|
      invariant 0 <= i <= |serials|
      invariant |names| == i
      invariant forall j :: 0 <= j < i ==> names[j] == cfg.transducers[serials[j]].name
    {
      // every listed serial has a section, so the sys.exit branch cannot fire
      assert serials[i] in cfg.transducers;
      names := names + [cfg.transducers[serials[i]].name];
      i := i + 1;
    }
    return Ok(names);
  }

  /** get_tran_list: one new object per active transducer; an empty
      listing ends the program. */
  method GetTranList(cfg: Configuration) returns (r: Result<seq<Transducer>>)
    ensures var ss := ActiveSerials(cfg.trSerials, TrFlags(cfg));
      if !ss.Ok? then r == Raised(KeyError)
      else if |ss.value| == 0 then r == Exited
      else
        && r.Ok? && |r.value| == |ss.value|
        && forall i :: 0 <= i < |ss.value| ==>
             && fresh(r.value[i])
             && r.value[i].serial == Some(ss.value[i])
             && ss.value[i] in cfg.transducers
             && r.value[i].Describes(cfg.transducers[ss.value[i]])
  {
    var ss := GetTranSerials(cfg);
    if !ss.Ok? {
      return Raised(KeyError);
    }
    var serials := ss.value;
    var list: seq<Transducer> := [];
    var i := 0;
    while i < |serials|
      invariant 0 <= i <= |serials|
      invariant |list| == i
      invariant forall j :: 0 <= j < i ==>
        && fresh(list[j])
        && list[j].serial == Some(serials[j])
        && list[j].Describes(cfg.transducers[serials[j]])
    {
      var tran := new Transducer();
      var _ := tran.SetTransducerInfo(cfg, serials[i]);
      list := list + [tran];
      i := i + 1;
    }
    if |list| < 1 {
      return Exited;
    }
    return Ok(list);
  }
}
