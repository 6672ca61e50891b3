// driving_system.py: a driving system object filled from its configuration
// section, and the listings of the active driving systems.

module DrivingSystems {
  import opened Common
  import opened Config

  class DrivingSystem {
    var serial: Option<string>
    var name: Option<string>
    var manufact: Option<string>
    var availableCh: int
    var connectInfo: Option<string>
    var tranComp: Option<seq<string>>
    var isActive: bool

    /** The object holds every field of the section `rec`. */
    predicate Describes(rec: DsRecord)
      reads this
    {
      && name == Some(rec.name)
      && manufact == Some(rec.manufact)
      && availableCh == rec.availableCh
      && connectInfo == Some(rec.connectInfo)
      && tranComp == Some(rec.tranComp)
      && isActive == (rec.active == "True")
    }

    /** A new driving system that is not yet bound to any section. */
    constructor ()
      ensures serial == None && name == None && manufact == None
      ensures availableCh == 0 && connectInfo == None && tranComp == None
      ensures isActive
    {
      serial := None;
      name := None;
      manufact := None;
      availableCh := 0;
      connectInfo := None;
      tranComp := None;
      isActive := true;
    }

    /** set_ds_info: the serial is stored first; a serial without a section
        then ends the program and leaves every other field as it was. */
    method SetDsInfo(cfg: Configuration, s: string) returns (status: Status)
      modifies this
      ensures serial == Some(s)
      ensures s in cfg.drivingSystems ==> status == Done && Describes(cfg.drivingSystems[s])
      ensures s !in cfg.drivingSystems ==>
        && status == Exited
        && name == old(name) && manufact == old(manufact)
        && availableCh == old(availableCh) && connectInfo == old(connectInfo)
        && tranComp == old(tranComp) && isActive == old(isActive)
    {
      serial := Some(s);
      if s !in cfg.drivingSystems {
        return Exited;
      }
      var rec := cfg.drivingSystems[s];
      name := Some(rec.name);
      connectInfo := Some(rec.connectInfo);
      manufact := Some(rec.manufact);
      availableCh := rec.availableCh;
      tranComp := Some(rec.tranComp);
      isActive := rec.active == "True";
      return Done;
    }
  }

  /** get_ds_serials: the active driving systems, in configuration order. */
  method GetDsSerials(cfg: Configuration) returns (r: Result<seq<string>>)
    ensures r == ActiveSerials(cfg.dsSerials, DsFlags(cfg))
  {
    var serials, flags := cfg.dsSerials, DsFlags(cfg);
    var active: seq<string> := [];
    var i := 0;
    while i < |serials|
      invariant 0 <= i <= |serials|
      invariant ActiveSerials(serials[..i], flags) == Ok(active)
    {
      var s := serials[i];
      assert serials[..i + 1][..i] == serials[..i];
      if s !in cfg.drivingSystems {
        ActiveSerialsFails(serials, flags);
        return Raised(KeyError);
      }
      if cfg.drivingSystems[s].active == "True" {
        active := active + [s];
      }
      i := i + 1;
    }
    assert serials[..i] == serials;
    return Ok(active);
  }

  /** get_ds_names: the names of the active driving systems, in the same
      order as get_ds_serials. */
  method GetDsNames(cfg: Configuration) returns (r: Result<seq<string>>)
    ensures var ss := ActiveSerials(cfg.dsSerials, DsFlags(cfg));
      if ss.Ok? then
        && r.Ok? && |r.value| == |ss.value|
        && forall i :: 0 <= i < |ss.value| ==>
             ss.value[i] in cfg.drivingSystems && r.value[i] == cfg.drivingSystems[ss.value[i]].name
      else r == ss
  {
    var ss := GetDsSerials(cfg);
    if !ss.Ok? {
      return ss;
    }
    var serials := ss.value;
    ActiveSerialsMembers(cfg.dsSerials, DsFlags(cfg));
    var names: seq<string> := [];
    var i := 0;
    while i < |serials|
      invariant 0 <= i <= |serials|
      invariant |names| == i
      invariant forall j :: 0 <= j < i ==> names[j] == cfg.drivingSystems[serials[j]].name
    {
      // every listed serial has a section, so the sys.exit branch cannot fire
      assert serials[i] in cfg.drivingSystems;
      names := names + [cfg.drivingSystems[serials[i]].name];
      i := i + 1;
    }
    return Ok(names);
  }

  /** get_ds_list: one new object per active driving system; an empty
      listing ends the program. */
  method GetDsList(cfg: Configuration) returns (r: Result<seq<DrivingSystem>>)
    ensures var ss := ActiveSerials(cfg.dsSerials, DsFlags(cfg));
      if !ss.Ok? then r == Raised(KeyError)
      else if |ss.value| == 0 then r == Exited
      else
        && r.Ok? && |r.value| == |ss.value|
        && forall i :: 0 <= i < |ss.value| ==>
             && fresh(r.value[i])
             && r.value[i].serial == Some(ss.value[i])
             && ss.value[i] in cfg.drivingSystems
             && r.value[i].Describes(cfg.drivingSystems[ss.value[i]])
  {
    var ss := GetDsSerials(cfg);
    if !ss.Ok? {
      return Raised(KeyError);
    }
    var serials := ss.value;
    var list: seq<DrivingSystem> := [];
    var i := 0;
    while i < |serials|
      invariant 0 <= i <= |serials|
      invariant |list| == i
      invariant forall j :: 0 <= j < i ==>
        && fresh(list[j])
        && list[j].serial == Some(serials[j])
        && list[j].Describes(cfg.drivingSystems[serials[j]])
    {
      var ds := new DrivingSystem();
      var _ := ds.SetDsInfo(cfg, serials[i]);
      list := list + [ds];
      i := i + 1;
    }
    if |list| < 1 {
      return Exited;
    }
    return Ok(list);
  }
}
