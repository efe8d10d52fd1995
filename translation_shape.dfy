/**
 * Closed forms of the translation fold: what one control-point step, one beam and the whole beam
 * loop produce, stated without the fold. The properties of the translated document follow from
 * these.
 */
module TranslationShape {
  import opened Wrappers
  import opened Text
  import opened Pinnacle
  import opened RtPlanTypes
  import opened WedgeClassifier
  import opened ControlPointEncoder
  import opened BeamAttributes
  import opened PlanTranslation

  /** The lookups every beam does after its control points, and that every control point repeats. */
  predicate BeamLookupsSucceed(plan: SourcePlan, src: SourceBeam) {
    FindPrescription(plan.trialInfo.prescriptionList, src.prescriptionName).Ok? &&
    MachineNameAndVersion(src.machineNameAndVersion).Ok? &&
    EnergyToken(src.machineEnergyName).Some? &&
    BeamMu(plan, src).Ok?
  }

  /** The Beam Sequence entry the translation writes for beam `b`, given the weight list. */
  function ExpectedBeam(plan: SourcePlan, b: nat, weights: seq<real>): BeamRecord
    requires b < |Beams(plan)|
  {
    var src := Beams(plan)[b];
    var cps := ControlPoints(src);
    BeamRecord(
      BeamHeaderFor(b, src),
      seq(|cps|, k requires 0 <= k < |cps| => ExpectedPoint(plan, src, k, CumulativeAt(src, weights, k))),
      if |cps| == 0 then None else Some(DeviceDescriptors(|cps[|cps| - 1].leafPoints|)))
  }

  /** The Referenced Beam Sequence entry of beam `b`. */
  function ExpectedRef(plan: SourcePlan, b: nat): ReferencedBeam
    requires b < |Beams(plan)|
  {
    var src := Beams(plan)[b];
    var base := ReferencedBeam(b, Some(DoseReferencePoint(plan.points, src.prescriptionPointName, plan.isoCenter)), None, None);
    if BeamMu(plan, src).Ok? then ApplyMonitorUnits(base, BeamMu(plan, src).value) else base
  }

  lemma ApplyMonitorUnitsTwice(ref: ReferencedBeam, mu: (real, Option<real>))
    ensures ApplyMonitorUnits(ApplyMonitorUnits(ref, mu), mu) == ApplyMonitorUnits(ref, mu)
  {
  }

  /** The beam's lookups succeed exactly when each of them does, and give what each gives. */
  lemma LookupBeamOk(plan: SourcePlan, src: SourceBeam)
    ensures LookupBeam(plan, src).Ok? <==> BeamLookupsSucceed(plan, src)
    ensures LookupBeam(plan, src).Ok? ==>
              LookupBeam(plan, src).value ==
                Lookups(FindPrescription(plan.trialInfo.prescriptionList, src.prescriptionName).value.numberOfFractions,
                        EnergyToken(src.machineEnergyName).value, BeamMu(plan, src).value)
  {
  }

  /** A successful iteration is the advance with the wedge it classified and the beam's lookups. */
  lemma CpStepOk(plan: SourcePlan, src: SourceBeam, i: nat, st: BeamState)
    requires i < |ControlPoints(src)| && st.meterCount <= i < |st.msw|
    requires CpStep(plan, src, i, st).Ok?
    ensures ClassifyWedge(ControlPoints(src)[i].wedgeContext, st.locals).Ok?
    ensures LookupBeam(plan, src).Ok? && BeamLookupsSucceed(plan, src)
    ensures CpStep(plan, src, i, st).value ==
              Advance(plan, src, i, st, ClassifyWedge(ControlPoints(src)[i].wedgeContext, st.locals).value,
                      LookupBeam(plan, src).value)
  {
    LookupBeamOk(plan, src);
  }

  /** One loop iteration appends the control point's weight to the plan-wide list. */
  lemma CpStepWeight(plan: SourcePlan, src: SourceBeam, i: nat, st: BeamState)
    requires i < |ControlPoints(src)| && st.meterCount <= i < |st.msw|
    requires CpStep(plan, src, i, st).Ok?
    ensures CpStep(plan, src, i, st).value.msw == st.msw + [ControlPoints(src)[i].weight]
  {
    CpStepOk(plan, src, i, st);
  }

  /** One loop iteration appends the expected control point and sets the devices from this point's leaves. */
  lemma CpStepPoint(plan: SourcePlan, src: SourceBeam, i: nat, st: BeamState)
    requires i < |ControlPoints(src)| && st.meterCount <= i < |st.msw|
    requires CpStep(plan, src, i, st).Ok?
    ensures var r := CpStep(plan, src, i, st).value;
            r.beam.header == st.beam.header &&
            r.beam.controlPoints == st.beam.controlPoints + [ExpectedPoint(plan, src, i, r.currentMeterset)] &&
            r.beam.limitingDevices == Some(DeviceDescriptors(|ControlPoints(src)[i].leafPoints|))
  {
    CpStepOk(plan, src, i, st);
    LookupBeamOk(plan, src);
    ClassifiedCount(ControlPoints(src)[i].wedgeContext, st.locals);
  }

  /** A successful iteration has made every lookup of the beam and applied its monitor units. */
  lemma CpStepLookups(plan: SourcePlan, src: SourceBeam, i: nat, st: BeamState)
    requires i < |ControlPoints(src)| && st.meterCount <= i < |st.msw|
    requires CpStep(plan, src, i, st).Ok?
    ensures BeamLookupsSucceed(plan, src)
    ensures CpStep(plan, src, i, st).value.ref == ApplyMonitorUnits(st.ref, BeamMu(plan, src).value)
  {
    CpStepOk(plan, src, i, st);
    LookupBeamOk(plan, src);
  }

  /** Odd control points of a step-and-shoot beam add the next weight of the list to the meterset. */
  lemma CpStepMeterset(plan: SourcePlan, src: SourceBeam, i: nat, st: BeamState)
    requires i < |ControlPoints(src)| && st.meterCount <= i < |st.msw|
    requires CpStep(plan, src, i, st).Ok?
    ensures var r := CpStep(plan, src, i, st).value;
            var stepped := StepAndShoot(src.setBeamType) && i % 2 == 1;
            r.currentMeterset == (if stepped then st.currentMeterset + r.msw[st.meterCount] else st.currentMeterset) &&
            r.meterCount == (if stepped then st.meterCount + 1 else st.meterCount)
  {
    CpStepOk(plan, src, i, st);
  }

  /** The loop state before control point `i`: the meter count and meterset of the odd points so far. */
  predicate MetersetSoFar(src: SourceBeam, i: nat, st: BeamState) {
    i / 2 <= |st.msw| &&
    st.meterCount == (if StepAndShoot(src.setBeamType) then i / 2 else 0) &&
    st.currentMeterset == (if StepAndShoot(src.setBeamType) then Sum(st.msw[..i / 2]) else 0.0)
  }

  lemma SumPrefix(s: seq<real>, m: nat)
    requires m < |s|
    ensures Sum(s[..m + 1]) == Sum(s[..m]) + s[m]
  {
    assert s[..m + 1][..m] == s[..m];
  }

  /** One successful loop iteration followed by the rest of the loop. */
  lemma RunCpsUnfold(plan: SourcePlan, src: SourceBeam, i: nat, st: BeamState)
    requires i < |ControlPoints(src)| && st.meterCount <= i < |st.msw|
    requires RunCps(plan, src, i, st).Ok?
    ensures CpStep(plan, src, i, st).Ok?
    ensures var next := CpStep(plan, src, i, st).value;
            next.meterCount <= i + 1 < |next.msw| &&
            RunCps(plan, src, i + 1, next).Ok? &&
            RunCps(plan, src, i, st).value == RunCps(plan, src, i + 1, next).value
  {
  }

  lemma WeightsFrom(cps: seq<SourceControlPoint>, i: nat, before: seq<real>, after: seq<real>)
    requires i < |cps| && after == before + [cps[i].weight]
    ensures after + Weights(cps)[i + 1..] == before + Weights(cps)[i..]
  {
    assert Weights(cps)[i..] == [cps[i].weight] + Weights(cps)[i + 1..];
    assert (before + [cps[i].weight]) + Weights(cps)[i + 1..] == before + ([cps[i].weight] + Weights(cps)[i + 1..]);
  }

  lemma PrefixFrom(whole: seq<ControlPoint>, before: seq<ControlPoint>, point: ControlPoint)
    requires |before| < |whole| && whole[..|before| + 1] == before + [point]
    ensures whole[..|before|] == before
  {
    assert whole[..|before|] == whole[..|before| + 1][..|before|];
  }

  /** The control-point loop appends one weight per control point. */
  lemma {:induction false} RunCpsWeights(plan: SourcePlan, src: SourceBeam, i: nat, st: BeamState)
    requires i <= |ControlPoints(src)| && st.meterCount <= i < |st.msw|
    requires RunCps(plan, src, i, st).Ok?
    ensures RunCps(plan, src, i, st).value.msw == st.msw + Weights(ControlPoints(src))[i..]
    decreases |ControlPoints(src)| - i
  {
    var cps := ControlPoints(src);
    if i == |cps| {
      assert Weights(cps)[i..] == [];
    } else {
      RunCpsUnfold(plan, src, i, st);
      var next := CpStep(plan, src, i, st).value;
      CpStepWeight(plan, src, i, st);
      RunCpsWeights(plan, src, i + 1, next);
      WeightsFrom(cps, i, st.msw, next.msw);
    }
  }

  /** The control-point loop keeps the header and appends one point per control point. */
  lemma {:induction false} RunCpsFrame(plan: SourcePlan, src: SourceBeam, i: nat, st: BeamState)
    requires i <= |ControlPoints(src)| && st.meterCount <= i < |st.msw|
    requires |st.beam.controlPoints| == i
    requires RunCps(plan, src, i, st).Ok?
    ensures var r := RunCps(plan, src, i, st).value;
            r.beam.header == st.beam.header &&
            |r.beam.controlPoints| == |ControlPoints(src)| &&
            r.beam.controlPoints[..i] == st.beam.controlPoints
    ensures i == |ControlPoints(src)| ==> RunCps(plan, src, i, st).value == st
    decreases |ControlPoints(src)| - i
  {
    if i < |ControlPoints(src)| {
      RunCpsUnfold(plan, src, i, st);
      var next := CpStep(plan, src, i, st).value;
      CpStepPoint(plan, src, i, st);
      RunCpsFrame(plan, src, i + 1, next);
      PrefixFrom(RunCps(plan, src, i, st).value.beam.controlPoints, st.beam.controlPoints,
                 ExpectedPoint(plan, src, i, next.currentMeterset));
    } else {
      assert st.beam.controlPoints[..i] == st.beam.controlPoints;
    }
  }

  /** One step keeps `MetersetSoFar`. */
  lemma NextMetersetSoFar(plan: SourcePlan, src: SourceBeam, i: nat, st: BeamState)
    requires i < |ControlPoints(src)| && st.meterCount <= i < |st.msw|
    requires MetersetSoFar(src, i, st)
    requires CpStep(plan, src, i, st).Ok?
    ensures MetersetSoFar(src, i + 1, CpStep(plan, src, i, st).value)
    ensures var next := CpStep(plan, src, i, st).value;
            StepAndShoot(src.setBeamType) ==> next.currentMeterset == Sum(next.msw[..(i + 1) / 2])
    ensures var next := CpStep(plan, src, i, st).value;
            !StepAndShoot(src.setBeamType) ==> next.currentMeterset == 0.0
    ensures var next := CpStep(plan, src, i, st).value;
            next.currentMeterset == CumulativeAt(src, next.msw, i)
  {
    var next := CpStep(plan, src, i, st).value;
    CpStepWeight(plan, src, i, st);
    CpStepMeterset(plan, src, i, st);
    assert next.msw[..i / 2] == st.msw[..i / 2];
    if StepAndShoot(src.setBeamType) && i % 2 == 1 {
      SumPrefix(next.msw, i / 2);
    }
  }

  /** The cumulative weight of control point `k` reads only the first (k + 1) / 2 weights. */
  lemma CumulativeAtPrefix(src: SourceBeam, w: seq<real>, rest: seq<real>, k: nat)
    requires (k + 1) / 2 <= |w|
    ensures CumulativeAt(src, w + rest, k) == CumulativeAt(src, w, k)
  {
    assert (w + rest)[..(k + 1) / 2] == w[..(k + 1) / 2];
  }

  /** The points from `i` on are the expected ones, given that those from `i + 1` on are. */
  lemma PointsNext(plan: SourcePlan, src: SourceBeam, i: nat, before: seq<ControlPoint>, after: seq<ControlPoint>,
                   whole: seq<ControlPoint>, w: seq<real>, rest: seq<real>, wAll: seq<real>, cm: real)
    requires i < |ControlPoints(src)| && |before| == i
    requires after == before + [ExpectedPoint(plan, src, i, cm)]
    requires |whole| == |ControlPoints(src)| && whole[..i + 1] == after
    requires (i + 1) / 2 <= |w| && cm == CumulativeAt(src, w, i) && wAll == w + rest
    requires forall k :: i + 1 <= k < |ControlPoints(src)| ==>
               whole[k] == ExpectedPoint(plan, src, k, CumulativeAt(src, wAll, k))
    ensures forall k :: i <= k < |ControlPoints(src)| ==>
              whole[k] == ExpectedPoint(plan, src, k, CumulativeAt(src, wAll, k))
  {
    CumulativeAtPrefix(src, w, rest, i);
    assert whole[i] == whole[..i + 1][i];
  }

  /** Every control point the loop writes is the expected one, with the cumulative weight of its index. */
  lemma {:induction false} RunCpsPoints(plan: SourcePlan, src: SourceBeam, i: nat, st: BeamState)
    requires i <= |ControlPoints(src)| && st.meterCount <= i < |st.msw|
    requires |st.beam.controlPoints| == i && MetersetSoFar(src, i, st)
    requires RunCps(plan, src, i, st).Ok?
    ensures var r := RunCps(plan, src, i, st).value;
            |r.beam.controlPoints| == |ControlPoints(src)| &&
            forall k :: i <= k < |ControlPoints(src)| ==>
              r.beam.controlPoints[k] == ExpectedPoint(plan, src, k, CumulativeAt(src, r.msw, k))
    decreases |ControlPoints(src)| - i
  {
    var cps := ControlPoints(src);
    if i < |cps| {
      RunCpsUnfold(plan, src, i, st);
      var next := CpStep(plan, src, i, st).value;
      CpStepPoint(plan, src, i, st);
      NextMetersetSoFar(plan, src, i, st);
      assert next.meterCount <= i + 1 < |next.msw| && |next.beam.controlPoints| == i + 1;
      assert MetersetSoFar(src, i + 1, next) && RunCps(plan, src, i + 1, next).Ok?;
      RunCpsPoints(plan, src, i + 1, next);
      RunCpsFrame(plan, src, i + 1, next);
      RunCpsWeights(plan, src, i + 1, next);
      var r := RunCps(plan, src, i, st).value;
      PointsNext(plan, src, i, st.beam.controlPoints, next.beam.controlPoints, r.beam.controlPoints,
                 next.msw, Weights(cps)[i + 1..], r.msw, next.currentMeterset);
    } else {
      RunCpsFrame(plan, src, i, st);
    }
  }

  /** The devices sequence is that of the last control point, and unchanged when there is none. */
  lemma {:induction false} RunCpsDevices(plan: SourcePlan, src: SourceBeam, i: nat, st: BeamState)
    requires i <= |ControlPoints(src)| && st.meterCount <= i < |st.msw|
    requires RunCps(plan, src, i, st).Ok?
    ensures var r := RunCps(plan, src, i, st).value;
            var cps := ControlPoints(src);
            r.beam.limitingDevices == (if i < |cps| then Some(DeviceDescriptors(|cps[|cps| - 1].leafPoints|))
                                       else st.beam.limitingDevices)
    decreases |ControlPoints(src)| - i
  {
    if i < |ControlPoints(src)| {
      RunCpsUnfold(plan, src, i, st);
      var next := CpStep(plan, src, i, st).value;
      CpStepPoint(plan, src, i, st);
      RunCpsDevices(plan, src, i + 1, next);
    }
  }

  /** After at least one control point the beam's lookups have succeeded and its monitor units are set. */
  lemma {:induction false} RunCpsMonitorUnits(plan: SourcePlan, src: SourceBeam, i: nat, st: BeamState)
    requires i <= |ControlPoints(src)| && st.meterCount <= i < |st.msw|
    requires RunCps(plan, src, i, st).Ok?
    ensures var r := RunCps(plan, src, i, st).value;
            i < |ControlPoints(src)| ==>
              BeamLookupsSucceed(plan, src) && r.ref == ApplyMonitorUnits(st.ref, BeamMu(plan, src).value)
    ensures i == |ControlPoints(src)| ==> RunCps(plan, src, i, st).value.ref == st.ref
    decreases |ControlPoints(src)| - i
  {
    if i < |ControlPoints(src)| {
      RunCpsUnfold(plan, src, i, st);
      var next := CpStep(plan, src, i, st).value;
      CpStepLookups(plan, src, i, st);
      RunCpsMonitorUnits(plan, src, i + 1, next);
      ApplyMonitorUnitsTwice(st.ref, BeamMu(plan, src).value);
    }
  }

  /** The post-loop block of a beam succeeds exactly on the beam's own lookups. */
  lemma AfterCpsShape(plan: SourcePlan, src: SourceBeam, st: BeamState)
    ensures AfterCps(plan, src, st).Ok? <==> BeamLookupsSucceed(plan, src)
    ensures AfterCps(plan, src, st).Ok? ==>
              AfterCps(plan, src, st).value ==
                (ApplyMonitorUnits(st.ref, BeamMu(plan, src).value),
                 FindPrescription(plan.trialInfo.prescriptionList, src.prescriptionName).value.numberOfFractions)
  {
    LookupBeamOk(plan, src);
  }

  /** The beam written by a successful control-point loop is the expected one. */
  lemma LoopBeamExpected(plan: SourcePlan, b: nat, msw: seq<real>, locals: WedgeLocals)
    requires b < |Beams(plan)| && |msw| >= 1
    requires RunCps(plan, Beams(plan)[b], 0, BeamStart(plan, b, msw, locals)).Ok?
    ensures var r := RunCps(plan, Beams(plan)[b], 0, BeamStart(plan, b, msw, locals)).value;
            r.beam == ExpectedBeam(plan, b, r.msw) &&
            r.msw == msw + Weights(ControlPoints(Beams(plan)[b]))
  {
    var src := Beams(plan)[b];
    var start := BeamStart(plan, b, msw, locals);
    assert start.msw[..0] == [];
    RunCpsFrame(plan, src, 0, start);
    RunCpsWeights(plan, src, 0, start);
    RunCpsPoints(plan, src, 0, start);
    RunCpsDevices(plan, src, 0, start);
    assert Weights(ControlPoints(src))[0..] == Weights(ControlPoints(src));
  }

  /** The Referenced Beam Sequence entry after the loop and the post-loop block is the expected one. */
  lemma LoopRefExpected(plan: SourcePlan, b: nat, msw: seq<real>, locals: WedgeLocals)
    requires b < |Beams(plan)| && |msw| >= 1
    requires RunCps(plan, Beams(plan)[b], 0, BeamStart(plan, b, msw, locals)).Ok?
    requires AfterCps(plan, Beams(plan)[b], RunCps(plan, Beams(plan)[b], 0, BeamStart(plan, b, msw, locals)).value).Ok?
    ensures var r := RunCps(plan, Beams(plan)[b], 0, BeamStart(plan, b, msw, locals)).value;
            BeamLookupsSucceed(plan, Beams(plan)[b]) &&
            AfterCps(plan, Beams(plan)[b], r).value ==
              (ExpectedRef(plan, b),
               FindPrescription(plan.trialInfo.prescriptionList, Beams(plan)[b].prescriptionName).value.numberOfFractions)
  {
    var src := Beams(plan)[b];
    var start := BeamStart(plan, b, msw, locals);
    RunCpsMonitorUnits(plan, src, 0, start);
    var r := RunCps(plan, src, 0, start).value;
    AfterCpsShape(plan, src, r);
    if |ControlPoints(src)| > 0 {
      ApplyMonitorUnitsTwice(start.ref, BeamMu(plan, src).value);
    }
  }

  lemma BeamStepShape(plan: SourcePlan, b: nat, ps: PlanState)
    requires b < |Beams(plan)|
    requires |ps.patientSetups| == 2 * b && |ps.referencedBeams| == b && |ps.beams| == b && |ps.msw| >= 1
    requires BeamStep(plan, b, ps).Ok?
    ensures var r := BeamStep(plan, b, ps).value;
            r.patientSetups == (ps.patientSetups + [BlankSetup, BlankSetup])[b := PatientSetup(plan.patientPosition, b)] &&
            r.referencedBeams == ps.referencedBeams + [ExpectedRef(plan, b)] &&
            r.msw == ps.msw + Weights(ControlPoints(Beams(plan)[b])) &&
            r.beams == ps.beams + [ExpectedBeam(plan, b, r.msw)]
    ensures var r := BeamStep(plan, b, ps).value;
            BeamLookupsSucceed(plan, Beams(plan)[b]) &&
            r.numFractions == FindPrescription(plan.trialInfo.prescriptionList, Beams(plan)[b].prescriptionName).value.numberOfFractions
  {
    LoopBeamExpected(plan, b, ps.msw, ps.locals);
    LoopRefExpected(plan, b, ps.msw, ps.locals);
  }
}
