/**
 * The control-point encoder and the beam-limiting-device builder: jaw and leaf conversion from the
 * planning system's centimetres to the standard's millimetres, the fixed MLC leaf boundaries, and
 * the two procedures that fill a Beam Sequence entry in place (`mapBeamDeviceLimitingSequence`,
 * `mapBeamControlPointSequence`).
 */
module ControlPointEncoder {
  import opened Wrappers
  import opened Pinnacle
  import opened RtPlanTypes

  /** `x1, x2, y1, y2`: the right and top jaws are negated, all four are multiplied by 10. */
  function JawPositions(cp: SourceControlPoint): (real, real, real, real) {
    (-cp.rightJawPosition * 10.0, cp.leftJawPosition * 10.0, -cp.topJawPosition * 10.0, cp.bottomJawPosition * 10.0)
  }

  /** The values at even positions of `p`, negated and scaled, in order (`leafpositions1` before reversal). */
  function EvenBank(p: seq<real>): seq<real>
    decreases |p|
  {
    if |p| == 0 then []
    else if (|p| - 1) % 2 == 0 then EvenBank(p[..|p| - 1]) + [-p[|p| - 1] * 10.0]
    else EvenBank(p[..|p| - 1])
  }

  /** The values at odd positions of `p`, scaled, in order (`leafpositions2` before reversal). */
  function OddBank(p: seq<real>): seq<real>
    decreases |p|
  {
    if |p| == 0 then []
    else if (|p| - 1) % 2 == 1 then OddBank(p[..|p| - 1]) + [p[|p| - 1] * 10.0]
    else OddBank(p[..|p| - 1])
  }

  /** `list(reversed(s))`: the last element first, then the rest reversed. */
  function Reverse(s: seq<real>): (r: seq<real>)
    ensures |r| == |s| && forall k :: 0 <= k < |s| ==> r[k] == s[|s| - 1 - k]
    decreases |s|
  {
    if |s| == 0 then [] else [s[|s| - 1]] + Reverse(s[..|s| - 1])
  }

  /** The MLC leaf positions of one control point: both banks reversed, the even bank first. */
  function LeafPositions(p: LeafPoints): seq<real> {
    Reverse(EvenBank(p)) + Reverse(OddBank(p))
  }

  lemma {:induction false} EvenBankAt(p: seq<real>)
    ensures |EvenBank(p)| == (|p| + 1) / 2
    ensures forall k :: 0 <= k < (|p| + 1) / 2 ==> EvenBank(p)[k] == -p[2 * k] * 10.0
    decreases |p|
  {
    if |p| > 0 {
      var q := p[..|p| - 1];
      EvenBankAt(q);
      assert forall k :: 0 <= k < |q| ==> q[k] == p[k];
      if (|p| - 1) % 2 == 0 {
        assert EvenBank(p) == EvenBank(q) + [-p[|p| - 1] * 10.0];
        assert (|p| + 1) / 2 == (|q| + 1) / 2 + 1;
        assert 2 * ((|q| + 1) / 2) == |p| - 1;
      } else {
        assert EvenBank(p) == EvenBank(q);
        assert (|p| + 1) / 2 == (|q| + 1) / 2;
      }
    }
  }

  lemma {:induction false} OddBankAt(p: seq<real>)
    ensures |OddBank(p)| == |p| / 2
    ensures forall k :: 0 <= k < |p| / 2 ==> OddBank(p)[k] == p[2 * k + 1] * 10.0
    decreases |p|
  {
    if |p| > 0 {
      var q := p[..|p| - 1];
      OddBankAt(q);
      assert forall k :: 0 <= k < |q| ==> q[k] == p[k];
      if (|p| - 1) % 2 == 1 {
        assert OddBank(p) == OddBank(q) + [p[|p| - 1] * 10.0];
        assert |p| / 2 == |q| / 2 + 1;
        assert 2 * (|q| / 2) + 1 == |p| - 1;
      } else {
        assert OddBank(p) == OddBank(q);
        assert |p| / 2 == |q| / 2;
      }
    }
  }

  /**
   * The leaf position list has one entry per raw value: first the even-indexed values negated,
   * times 10 and in reverse order, then the odd-indexed values times 10 in reverse order.
   */
  lemma LeafPositionsSpec(p: LeafPoints)
    ensures |LeafPositions(p)| == |p|
    ensures forall k :: 0 <= k < (|p| + 1) / 2 ==>
              LeafPositions(p)[k] == -p[2 * ((|p| + 1) / 2 - 1 - k)] * 10.0
    ensures forall k :: (|p| + 1) / 2 <= k < |p| ==>
              LeafPositions(p)[k] == p[2 * (|p| / 2 - 1 - (k - (|p| + 1) / 2)) + 1] * 10.0
  {
    EvenBankAt(p);
    OddBankAt(p);
  }

  /**
   * The leaf-bank loop of the translator: values go alternately to the two banks, and once the
   * last value is placed both banks are reversed and joined.
   */
  method MapLeafPositions(points: LeafPoints) returns (leafPositions: seq<real>)
    ensures leafPositions == LeafPositions(points)
  {
    leafPositions := [];
    var pCount := 0;
    var bank1: seq<real> := [];
    var bank2: seq<real> := [];
    while pCount < |points|
      invariant 0 <= pCount <= |points|
      invariant pCount < |points| ==> bank1 == EvenBank(points[..pCount]) && bank2 == OddBank(points[..pCount])
      invariant pCount == |points| ==> leafPositions == LeafPositions(points)
    {
      var leafPoint := points[pCount];
      assert points[..pCount + 1][..pCount] == points[..pCount];
      if pCount % 2 == 0 {
        bank1 := bank1 + [-leafPoint * 10.0];
        assert bank1 == EvenBank(points[..pCount + 1]) && bank2 == OddBank(points[..pCount + 1]);
      } else {
        bank2 := bank2 + [leafPoint * 10.0];
        assert bank1 == EvenBank(points[..pCount + 1]) && bank2 == OddBank(points[..pCount + 1]);
      }
      pCount := pCount + 1;
      if pCount == |points| {
        assert points[..pCount] == points;
        bank1 := Reverse(bank1);
        bank2 := Reverse(bank2);
        leafPositions := bank1 + bank2;
      }
    }
  }

  /** Boundary `i` in closed form: 10 mm leaves out to 100 mm from the axis, 5 mm leaves inside. */
  function BoundaryAt(i: int): int {
    if i <= 10 then -200 + 10 * i
    else if i <= 50 then -100 + 5 * (i - 10)
    else 100 + 10 * (i - 50)
  }

  /** Width of the gap between boundary `i` and boundary `i + 1`. */
  function BoundaryStep(i: int): int {
    if i < 10 || i >= 50 then 10 else 5
  }

  /** The first `n` boundaries. */
  function BoundariesUpTo(n: nat): (r: seq<int>)
    ensures |r| == n
  {
    if n == 0 then [] else BoundariesUpTo(n - 1) + [BoundaryAt(n - 1)]
  }

  /** The Leaf Position Boundaries of the MLCX device, fixed whatever the machine or the beam. */
  function MlcBoundaries(): seq<int> {
    BoundariesUpTo(61)
  }

  /** The boundary list as the translator spells it out (written in rows of ten). */
  function BoundaryTable(): seq<int> {
    [-200, -190, -180, -170, -160, -150, -140, -130, -120, -110] +
    [-100, -95, -90, -85, -80, -75, -70, -65, -60, -55] +
    [-50, -45, -40, -35, -30, -25, -20, -15, -10, -5] +
    [0, 5, 10, 15, 20, 25, 30, 35, 40, 45] +
    [50, 55, 60, 65, 70, 75, 80, 85, 90, 95] +
    [100, 110, 120, 130, 140, 150, 160, 170, 180, 190] +
    [200]
  }

  lemma {:induction false} BoundariesUpToAt(n: nat)
    ensures forall i :: 0 <= i < n ==> BoundariesUpTo(n)[i] == BoundaryAt(i)
  {
    if n > 0 {
      BoundariesUpToAt(n - 1);
    }
  }

  lemma BoundaryTableAt()
    ensures |BoundaryTable()| == 61
    ensures forall i :: 0 <= i < 61 ==> BoundaryTable()[i] == BoundaryAt(i)
  {
  }

  /** The spelled-out list is the closed form. */
  lemma BoundaryTableClosedForm()
    ensures BoundaryTable() == MlcBoundaries()
  {
    BoundariesUpToAt(61);
    BoundaryTableAt();
    assert forall i :: 0 <= i < 61 ==> BoundaryTable()[i] == MlcBoundaries()[i];
  }

  /**
   * 61 boundaries from -200 to 200, strictly increasing and symmetric about 0: 10 apart in the
   * outer ten gaps on each side and 5 apart in the inner forty.
   */
  lemma MlcBoundariesShape()
    ensures |MlcBoundaries()| == 61
    ensures MlcBoundaries()[0] == -200 && MlcBoundaries()[60] == 200 && MlcBoundaries()[30] == 0
    ensures forall i :: 0 <= i < 60 ==> MlcBoundaries()[i + 1] - MlcBoundaries()[i] == BoundaryStep(i)
    ensures forall i :: 0 <= i < 60 ==> MlcBoundaries()[i] < MlcBoundaries()[i + 1]
    ensures forall i :: 0 <= i <= 60 ==> MlcBoundaries()[60 - i] == -MlcBoundaries()[i]
  {
    BoundariesUpToAt(61);
  }

  /** The three beam-limiting devices of a beam whose last control point has `nPoints` raw leaf values. */
  function DeviceDescriptors(nPoints: nat): (r: seq<LimitingDevice>)
    ensures |r| == 3
  {
    [LimitingDevice("ASYMX", 1.0, None),
     LimitingDevice("ASYMY", 1.0, None),
     LimitingDevice("MLCX", nPoints as real / 2.0, Some(MlcBoundaries()))]
  }

  /** The record one call of `mapBeamControlPointSequence` writes into its slot. */
  function ControlPointFor(
    ctrlptIndex: int, ssd: real, beamEnergy: string, doseRate: real, leafPositions: seq<real>,
    isoCenter: Point, gantryRotDir: string, gantryAngle: real, colAngle: real, psupportAngle: real,
    numWedges: nat, currentMeterset: real, x1: real, x2: real, y1: real, y2: real): ControlPoint
  {
    ControlPoint(
      ctrlptIndex,
      currentMeterset,
      [DoseReference(currentMeterset, "1")],
      [DevicePosition("ASYMX", [x1, x2]), DevicePosition("ASYMY", [y1, y2]), DevicePosition("MLCX", leafPositions)],
      if ctrlptIndex == 0 then
        Some(FirstPointFields(
          beamEnergy, doseRate, gantryRotDir, gantryAngle, colAngle, "NONE", ssd * 10.0,
          if numWedges > 0 then Some([WedgePosition("IN", "1")]) else None,
          psupportAngle, "NONE", isoCenter))
      else None)
  }

  /** A Beam Sequence entry under construction (the `beam_sequence` dataset). */
  class BeamDataset {
    const header: BeamHeader
    var controlPoints: seq<ControlPoint>
    var limitingDevices: Option<seq<LimitingDevice>>

    constructor (header: BeamHeader)
      ensures this.header == header && controlPoints == [] && limitingDevices == None
    {
      this.header := header;
      controlPoints := [];
      limitingDevices := None;
    }

    function Record(): BeamRecord
      reads this
    {
      BeamRecord(header, controlPoints, limitingDevices)
    }
  }

  /** Replaces the beam's Beam Limiting Device Sequence by the three descriptors. */
  method MapBeamDeviceLimitingSequence(beamSequence: BeamDataset, nPoints: nat)
    modifies beamSequence`limitingDevices
    ensures beamSequence.limitingDevices == Some(DeviceDescriptors(nPoints))
  {
    var devices: seq<LimitingDevice> := [];
    devices := devices + [LimitingDevice("ASYMX", 1.0, None)];
    devices := devices + [LimitingDevice("ASYMY", 1.0, None)];
    devices := devices + [LimitingDevice("MLCX", nPoints as real / 2.0, Some(BoundaryTable()))];
    BoundaryTableClosedForm();
    assert devices == DeviceDescriptors(nPoints);
    beamSequence.limitingDevices := Some(devices);
  }

  /** The position that Python's `l[idx]` names in a list of length `n`; `None` for `IndexError`. */
  function PythonIndex(n: nat, idx: int): (r: Option<nat>)
    ensures r.Some? <==> -(n as int) <= idx < n
    ensures 0 <= idx < n ==> r == Some(idx)
    ensures -(n as int) <= idx < 0 ==> r == Some(n + idx)
  {
    if 0 <= idx < n then Some(idx) else if -(n as int) <= idx < 0 then Some(n + idx) else None
  }

  /**
   * The dataset in a slot after the attributes of `written` are set on it. Index, cumulative
   * weight and the two sequences are always assigned; the first-point attributes only when
   * `written` has them, and the wedge sequence only when `written` has one. Whatever is not
   * assigned stays as the slot had it.
   */
  function FillSlot(slot: ControlPoint, written: ControlPoint): ControlPoint
    requires written.ControlPoint?
  {
    var kept := if slot.ControlPoint? then slot.firstPoint else None;
    var first :=
      match written.firstPoint
      case None => kept
      case Some(f) =>
        if f.wedgePositionSequence.None? && kept.Some? then
          Some(f.(wedgePositionSequence := kept.value.wedgePositionSequence))
        else Some(f);
    ControlPoint(written.controlPointIndex, written.cumulativeMetersetWeight,
                 written.referencedDoseReferences, written.devicePositions, first)
  }

  /**
   * Appends a blank control point and then sets the attributes on the dataset at `ctrlptIndex`,
   * with Python's negative indices. An index outside the grown list raises `IndexError` after
   * the append.
   */
  method MapBeamControlPointSequence(
    ctrlptIndex: int, beam: SourceBeam, beamSequence: BeamDataset, beamEnergy: string, doseRate: real,
    leafPositions: seq<real>, isoCenter: Point, gantryRotDir: string, gantryAngle: real, colAngle: real,
    psupportAngle: real, numWedges: nat, currentMeterset: real, x1: real, x2: real, y1: real, y2: real)
    returns (r: Result<(), Fault>)
    modifies beamSequence`controlPoints
    ensures var grown := old(beamSequence.controlPoints) + [BlankControlPoint];
            match PythonIndex(|grown|, ctrlptIndex)
            case None => r == Err(ControlPointOutOfRange) && beamSequence.controlPoints == grown
            case Some(k) =>
              r == Ok(()) &&
              beamSequence.controlPoints ==
                grown[k := FillSlot(grown[k], ControlPointFor(ctrlptIndex, beam.ssd, beamEnergy, doseRate,
                                                              leafPositions, isoCenter, gantryRotDir, gantryAngle,
                                                              colAngle, psupportAngle, numWedges, currentMeterset,
                                                              x1, x2, y1, y2))]
  {
    beamSequence.controlPoints := beamSequence.controlPoints + [BlankControlPoint];
    var n := |beamSequence.controlPoints|;
    if ctrlptIndex < -n || n <= ctrlptIndex {
      return Err(ControlPointOutOfRange);
    }
    var k := if ctrlptIndex < 0 then n + ctrlptIndex else ctrlptIndex;
    var current := beamSequence.controlPoints[k];
    var written := ControlPointFor(ctrlptIndex, beam.ssd, beamEnergy, doseRate, leafPositions, isoCenter,
                                   gantryRotDir, gantryAngle, colAngle, psupportAngle, numWedges,
                                   currentMeterset, x1, x2, y1, y2);
    beamSequence.controlPoints := beamSequence.controlPoints[k := FillSlot(current, written)];
    r := Ok(());
  }

  /** Filling the freshly appended blank slot gives exactly the written point: it is appended. */
  lemma AppendedSlot(old_: seq<ControlPoint>, point: ControlPoint)
    requires point.ControlPoint?
    ensures PythonIndex(|old_| + 1, |old_|) == Some(|old_|)
    ensures (old_ + [BlankControlPoint])[|old_| := FillSlot(BlankControlPoint, point)] == old_ + [point]
  {
  }

  /**
   * Filling a slot that already holds a point: the first-point attributes survive a fill at
   * another index, and the wedge entry survives a fill at index 0 that sets no wedge.
   */
  lemma RefillKeepsAttributes(slot: ControlPoint, written: ControlPoint)
    requires slot.ControlPoint? && written.ControlPoint?
    ensures FillSlot(slot, written).controlPointIndex == written.controlPointIndex
    ensures FillSlot(slot, written).devicePositions == written.devicePositions
    ensures written.firstPoint.None? ==> FillSlot(slot, written).firstPoint == slot.firstPoint
    ensures written.firstPoint.Some? && slot.firstPoint.Some? &&
            written.firstPoint.value.wedgePositionSequence.None? ==>
              FillSlot(slot, written).firstPoint ==
                Some(written.firstPoint.value.(wedgePositionSequence := slot.firstPoint.value.wedgePositionSequence))
  {
  }

  /** Two fills of slot 0, the first with a wedge and the second without, leave the wedge entry in place. */
  lemma RefillKeepsWedge(
    ssd: real, beamEnergy: string, doseRate: real, leafPositions: seq<real>, isoCenter: Point,
    gantryRotDir: string, gantryAngle: real, colAngle: real, psupportAngle: real, currentMeterset: real,
    x1: real, x2: real, y1: real, y2: real)
    ensures var withWedge := ControlPointFor(0, ssd, beamEnergy, doseRate, leafPositions, isoCenter, gantryRotDir,
                                             gantryAngle, colAngle, psupportAngle, 1, currentMeterset, x1, x2, y1, y2);
            var noWedge := ControlPointFor(0, ssd, beamEnergy, doseRate, leafPositions, isoCenter, gantryRotDir,
                                           gantryAngle, colAngle, psupportAngle, 0, currentMeterset, x1, x2, y1, y2);
            FillSlot(FillSlot(BlankControlPoint, withWedge), noWedge).firstPoint.value.wedgePositionSequence
              == Some([WedgePosition("IN", "1")])
  {
  }
}
