// igt/transducerXYZ.py: the element geometry of a multi-element IGT
// transducer and the phases that focus its beam on a target point. The
// working space has its origin at the natural focal point; Z points toward
// the transducer.

module TransducerXYZ {
  import opened Common

  /** Sound speed in water [m/s]. */
  const SOUND_SPEED_WATER: real := 1500.0

  /** Cartesian coordinates. */
  datatype Point = Point(x: real, y: real, z: real)

  /** Coordinates read in mm, stored in m. */
  function MmToM(p: Point): (q: Point)
    ensures q.x * 1000.0 == p.x && q.y * 1000.0 == p.y && q.z * 1000.0 == p.z
  {
    Point(p.x / 1000.0, p.y / 1000.0, p.z / 1000.0)
  }

  /** The sum of math.pow(delta, 2) over the three axes. */
  function SquaredDistance(p: Point, q: Point): (d: real)
    ensures d >= 0.0
  {
    (p.x - q.x) * (p.x - q.x) + (p.y - q.y) * (p.y - q.y) + (p.z - q.z) * (p.z - q.z)
  }

  /** The parsed [elements] section of a transducer definition: its size
      entry when it parses as an integer, and the entries "1", "2", ...
      whose three '|'-separated fields parse as numbers, in mm. */
  datatype ElementsSection = ElementsSection(size: Option<int>, entries: map<int, Point>)

  /** The elements _loadConfig ends with when it returns True, None when it
      returns False: the size must be present and not 0, and every entry
      1 .. size must parse. A negative size loads no element. */
  function Loaded(sec: ElementsSection): (r: Option<seq<Point>>)
    ensures r.Some? <==> sec.size.Some? && sec.size.value != 0
                         && forall i :: 1 <= i <= sec.size.value ==> i in sec.entries
    ensures r.Some? ==> |r.value| == NonNeg(sec.size.value)
    ensures r.Some? ==> forall j :: 0 <= j < |r.value| ==> r.value[j] == MmToM(sec.entries[j + 1])
  {
    if sec.size.None? || sec.size.value == 0 then None
    else if forall i :: 1 <= i <= sec.size.value ==> i in sec.entries then
      Some(seq(NonNeg(sec.size.value), j requires 0 <= j < NonNeg(sec.size.value) => MmToM(sec.entries[j + 1])))
    else None
  }

  /** The frequency checks of computePhases: at least one frequency, the
      first not 0, and either one shared frequency or one per element. */
  predicate FrequenciesFit(freqs: seq<real>, n: nat)
  {
    |freqs| > 0 && freqs[0] != 0.0 && (|freqs| == 1 || |freqs| == n)
  }

  /** The frequency element i is driven at: one of the pulse's. */
  function FrequencyOf(freqs: seq<real>, i: nat): (f: real)
    requires |freqs| == 1 || i < |freqs|
    ensures f in freqs
  {
    if |freqs| == 1 then freqs[0] else freqs[i]
  }

  /** The wavelength in water at frequency f: wavelength times frequency
      is the sound speed. */
  function Wavelength(f: real): (w: real)
    requires f != 0.0
    ensures w * f == SOUND_SPEED_WATER
    ensures f > 0.0 ==> w > 0.0
  {
    SOUND_SPEED_WATER / f
  }

  /** The phase that aims element e at target: the fractional part of the
      distance counted in wavelengths, in degrees; it lies in [0, 360) for
      a positive wavelength and a non-negative distance. */
  function AimPhase(e: Point, target: Point, wavelen: real, sqrt: real -> real): (phase: real)
    requires wavelen != 0.0
    ensures wavelen > 0.0 && sqrt(SquaredDistance(e, target)) >= 0.0 ==> 0.0 <= phase < 360.0
  {
    Frac(sqrt(SquaredDistance(e, target)) / wavelen) * 360.0
  }

  /** The dephasing counter of element i: it counts 0, 1, ... and returns to
      0 on reaching n. A counter that never reaches n keeps counting. */
  function DephaseCounter(i: nat, n: int): (k: nat)
    ensures n >= 1 ==> k < n
    ensures n < 1 ==> k == i
  {
    if i == 0 then 0
    else
      var k := DephaseCounter(i - 1, n) + 1;
      if k == n then 0 else k
  }

  /** Once the counter can reset, it is the index modulo n. */
  lemma {:induction false} DephaseCounterIsModulo(i: nat, n: int)
    requires n >= 1
    ensures DephaseCounter(i, n) == i % n
  {
    if i > 0 {
      DephaseCounterIsModulo(i - 1, n);
      ModSuccessor(i - 1, n);
    }
  }

  /** The remainder of a + 1 is one more than that of a, or 0 on reaching n. */
  lemma ModSuccessor(a: int, n: int)
    requires n >= 1
    ensures (a + 1) % n == if a % n + 1 == n then 0 else a % n + 1
  {
    var q, k := a / n, a % n;
    assert a == q * n + k;
    if k + 1 == n {
      assert (q + 1) * n == q * n + n;
      ModUnique(a + 1, n, q + 1, 0);
    } else {
      ModUnique(a + 1, n, q, k + 1);
    }
  }

  /** The round-robin overlay: element i gets delta times its counter. */
  function Dephased(phases: seq<real>, delta: real, n: int): (r: seq<real>)
    ensures |r| == |phases|
  {
    seq(|phases|, i requires 0 <= i < |phases| => phases[i] + delta * DephaseCounter(i, n) as real)
  }

  /** Every element's frequency is non-zero, so its wavelength exists. */
  predicate WavelengthsDefined(freqs: seq<real>, n: nat)
    requires |freqs| == 1 || |freqs| == n
  {
    forall i :: 0 <= i < n ==> FrequencyOf(freqs, i) != 0.0
  }

  /** The phase of every element before dephasing. */
  function AimPhases(elements: seq<Point>, freqs: seq<real>, target: Point, sqrt: real -> real): (r: seq<real>)
    requires FrequenciesFit(freqs, |elements|) && WavelengthsDefined(freqs, |elements|)
    ensures |r| == |elements|
  {
    seq(|elements|, i requires 0 <= i < |elements| =>
      AimPhase(elements[i], target, Wavelength(FrequencyOf(freqs, i)), sqrt))
  }

  /** What computePhases returns for the elements, the pulse frequencies
      (freqs), a target in mm and the dephasing list. It returns False
      exactly on the frequency checks, and a result exactly when every
      wavelength exists and any dephasing list is one non-zero entry; a
      longer list ends the program. A result has one phase per element. */
  function PhasesFor(elements: seq<Point>, freqs: seq<real>, pointMm: Point,
                     dephasing: Option<seq<real>>, sqrt: real -> real): (r: Result<seq<real>>)
    ensures r == Rejected <==> !FrequenciesFit(freqs, |elements|)
    ensures r.Ok? <==> && FrequenciesFit(freqs, |elements|) && WavelengthsDefined(freqs, |elements|)
                       && (dephasing.Some? ==> |dephasing.value| == 1 && dephasing.value[0] != 0.0)
    ensures r == Exited <==> && FrequenciesFit(freqs, |elements|) && WavelengthsDefined(freqs, |elements|)
                             && dephasing.Some? && |dephasing.value| > 1
    ensures r.Ok? ==> |r.value| == |elements|
  {
    if !FrequenciesFit(freqs, |elements|) then Rejected
    else if !WavelengthsDefined(freqs, |elements|) then Raised(ZeroDivisionError)
    else
      var aim := AimPhases(elements, freqs, MmToM(pointMm), sqrt);
      match dephasing
      case None => Ok(aim)
      case Some(ds) =>
        if |ds| > 1 then Exited
        else if |ds| == 0 then Raised(IndexError)
        else if ds[0] == 0.0 then Raised(ZeroDivisionError)
        else Ok(Dephased(aim, ds[0], RoundHalfEven(360.0 / ds[0])))
  }

  class Transducer {
    /** Element positions [m]. */
    var elements: seq<Point>

    constructor ()
      ensures elements == []
    {
      elements := [];
    }

    /** channelCount: the number of elements. */
    function ChannelCount(): nat
      reads this
    {
      |elements|
    }

    /** _loadConfig: the elements are rebuilt entry by entry; on a missing
        or unparsable entry it stops and reports failure, keeping the
        elements read so far. */
    method LoadConfig(sec: ElementsSection) returns (ok: bool)
      modifies this
      ensures ok <==> Loaded(sec).Some?
      ensures ok ==> elements == Loaded(sec).value
      ensures sec.size.None? || sec.size == Some(0) ==> elements == old(elements)
      ensures !ok && sec.size.Some? && sec.size.value != 0 ==>
        && |elements| < sec.size.value
        && |elements| + 1 !in sec.entries
        && forall j :: 0 <= j < |elements| ==> j + 1 in sec.entries && elements[j] == MmToM(sec.entries[j + 1])
    {
      if sec.size.None? || sec.size.value == 0 {
        return false;
      }
      var size := sec.size.value;
      elements := [];
      var i := 1;
      while i < 1 + size
        invariant 1 <= i <= NonNeg(size) + 1
        invariant |elements| == i - 1
        invariant forall j :: 1 <= j < i ==> j in sec.entries
        invariant forall j :: 0 <= j < |elements| ==> elements[j] == MmToM(sec.entries[j + 1])
      {
        if i !in sec.entries {
          return false;
        }
        elements := elements + [MmToM(sec.entries[i])];
        i := i + 1;
      }
      return true;
    }

    /** computePhases. The phases are returned, not written into a pulse. */
    method ComputePhases(freqs: seq<real>, pointMm: Point, dephasing: Option<seq<real>>,
                         sqrt: real -> real) returns (r: Result<seq<real>>)
      ensures r == PhasesFor(elements, freqs, pointMm, dephasing, sqrt)
      ensures r.Ok? ==> |r.value| == ChannelCount()
    {
      var n := |elements|;
      if |freqs| == 0 || freqs[0] == 0.0 {
        return Rejected;
      }
      var wavelen := 0.0;
      if |freqs| == 1 {
        wavelen := SOUND_SPEED_WATER / freqs[0];
      } else if |freqs| != n {
        return Rejected;
      }
      var phases := seq(n, _ => 0.0);
      var target := MmToM(pointMm);
      var i := 0;
      while i < n
        invariant 0 <= i <= n && |phases| == n
        invariant |freqs| == 1 ==> wavelen == Wavelength(freqs[0])
        invariant forall j :: 0 <= j < i ==> FrequencyOf(freqs, j) != 0.0
        invariant forall j :: 0 <= j < i ==>
          phases[j] == AimPhase(elements[j], target, Wavelength(FrequencyOf(freqs, j)), sqrt)
      {
        if |freqs| > 1 {
          if freqs[i] == 0.0 {
            assert FrequencyOf(freqs, i) == 0.0;
            return Raised(ZeroDivisionError);
          }
          wavelen := SOUND_SPEED_WATER / freqs[i];
        }
        var e := elements[i];
        var dist := sqrt(SquaredDistance(e, target));
        assert wavelen == Wavelength(FrequencyOf(freqs, i));
        phases := phases[i := Frac(dist / wavelen) * 360.0];
        i := i + 1;
      }
      ghost var aim := phases;
      assert aim == AimPhases(elements, freqs, target, sqrt);
      if dephasing.None? {
        return Ok(phases);
      }
      if |dephasing.value| > 1 {
        return Exited;
      }
      if |dephasing.value| == 0 {
        return Raised(IndexError);
      }
      var delta := dephasing.value[0];
      if delta == 0.0 {
        return Raised(ZeroDivisionError);
      }
      phases := Dephase(phases, delta);
      return Ok(phases);
    }
  }

  /** The dephasing loop shared by computePhases and the steer-table branch
      of the IGT driver: element i gets delta times a counter that resets
      on reaching round(360 / delta). */
  method Dephase(phases: seq<real>, delta: real) returns (r: seq<real>)
    requires delta != 0.0
    ensures r == Dephased(phases, delta, RoundHalfEven(360.0 / delta))
  {
    var nth := RoundHalfEven(360.0 / delta);
    ghost var target := Dephased(phases, delta, nth);
    var counter := 0;
    r := phases;
    var i := 0;
    while i < |r|
      invariant 0 <= i <= |r| == |phases|
      invariant counter == DephaseCounter(i, nth)
      invariant forall j :: 0 <= j < i ==> r[j] == target[j]
      invariant forall j :: i <= j < |r| ==> r[j] == phases[j]
    {
      assert target[i] == phases[i] + delta * counter as real;
      r := r[i := r[i] + delta * counter as real];
      counter := counter + 1;
      if counter == nth {
        counter := 0;
      }
      i := i + 1;
    }
  }

  /** Euclidean division has one remainder. */
  lemma ModUnique(a: int, n: int, q: int, r: int)
    requires n >= 1 && a == q * n + r && 0 <= r < n
    ensures a % n == r
  {
    var q', r' := a / n, a % n;
    assert (q - q') * n == r' - r;
    assert (q' - q) * n == r - r';
    MulAtLeast(q - q', n);
    MulAtLeast(q' - q, n);
  }

  lemma {:induction false} MulAtLeast(d: int, n: int)
    ensures d >= 1 && n >= 1 ==> d * n >= n
    decreases if d >= 1 then d else 0
  {
    if d > 1 {
      MulAtLeast(d - 1, n);
      assert d * n == (d - 1) * n + n;
    }
  }

  /** With one shared frequency every element has the same wavelength, and
      elements at the same distance from the target get the same phase. */
  lemma SharedWavelength(elements: seq<Point>, f: real, pointMm: Point, sqrt: real -> real, i: nat, j: nat)
    requires f != 0.0 && i < |elements| && j < |elements|
    requires SquaredDistance(elements[i], MmToM(pointMm)) == SquaredDistance(elements[j], MmToM(pointMm))
    ensures PhasesFor(elements, [f], pointMm, None, sqrt).Ok?
    ensures var aim := PhasesFor(elements, [f], pointMm, None, sqrt).value;
      aim[i] == aim[j] == AimPhase(elements[i], MmToM(pointMm), Wavelength(f), sqrt)
  {
  }

  /** Before dephasing every phase lies in [0, 360) when the distances are
      non-negative and the frequencies positive. */
  lemma {:induction false} AimPhasesInRange(elements: seq<Point>, freqs: seq<real>, pointMm: Point, sqrt: real -> real)
    requires forall d :: 0.0 <= d ==> 0.0 <= sqrt(d)
    requires FrequenciesFit(freqs, |elements|)
    requires forall k :: 0 <= k < |freqs| ==> freqs[k] > 0.0
    ensures PhasesFor(elements, freqs, pointMm, None, sqrt).Ok?
    ensures forall i :: 0 <= i < |elements| ==>
      0.0 <= PhasesFor(elements, freqs, pointMm, None, sqrt).value[i] < 360.0
  {
    assert WavelengthsDefined(freqs, |elements|) by {
      forall i | 0 <= i < |elements|
        ensures FrequencyOf(freqs, i) > 0.0
      {
        if |freqs| > 1 {
          assert FrequencyOf(freqs, i) == freqs[i];
        }
      }
    }
    var target := MmToM(pointMm);
    forall i | 0 <= i < |elements|
      ensures 0.0 <= AimPhase(elements[i], target, Wavelength(FrequencyOf(freqs, i)), sqrt) < 360.0
    {
      var f := FrequencyOf(freqs, i);
      assert f > 0.0 by {
        if |freqs| > 1 {
          assert f == freqs[i];
        }
      }
      var d := sqrt(SquaredDistance(elements[i], target));
      assert 0.0 <= d;
      var w := Wavelength(f);
      assert w > 0.0;
      assert 0.0 <= d / w;
      var fr := Frac(d / w);
      assert 0.0 <= fr < 1.0;
    }
  }

  /** With n = round(360 / delta) >= 1 element i is shifted by
      delta * (i mod n), so the overlay repeats every n elements. */
  lemma DephasedIsModular(phases: seq<real>, delta: real, n: int)
    requires n >= 1
    ensures forall i :: 0 <= i < |phases| ==> Dephased(phases, delta, n)[i] == phases[i] + delta * (i % n) as real
    ensures forall i :: 0 <= i < |phases| - n ==>
      Dephased(phases, delta, n)[i + n] - phases[i + n] == Dephased(phases, delta, n)[i] - phases[i]
  {
    forall i | 0 <= i < |phases|
      ensures DephaseCounter(i, n) == i % n
    {
      DephaseCounterIsModulo(i, n);
    }
    forall i | 0 <= i < |phases| - n
      ensures (i + n) % n == i % n
    {
      ModUnique(i + n, n, i / n + 1, i % n);
    }
  }

  /** A dephasing of 90 degrees shifts successive elements by 0, 90, 180,
      270, 0, ... degrees. */
  lemma NinetyDegreeDephasing(phases: seq<real>)
    requires |phases| >= 5
    ensures var r := Dephased(phases, 90.0, RoundHalfEven(360.0 / 90.0));
      && r[0] == phases[0] && r[1] == phases[1] + 90.0 && r[2] == phases[2] + 180.0
      && r[3] == phases[3] + 270.0 && r[4] == phases[4]
  {
    assert 360.0 / 90.0 == 4.0;
    assert RoundHalfEven(4.0) == 4;
  }
}
