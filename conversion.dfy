/**
 * `convert_plan` as the Python code runs it: a dataset object whose sequences grow beam by beam,
 * a Beam Sequence entry filled in place control point by control point, and the loop variables
 * (`metersetweight`, `currentmeterset`, `metercount`, the wedge locals) updated as it goes. Each
 * method is proved to compute what the fold `Translate` describes, so the properties proved about
 * `Translate` hold for the document `ConvertPlan` writes.
 */
module PlanConversion {
  import opened Wrappers
  import opened Pinnacle
  import opened RtPlanTypes
  import opened WedgeClassifier
  import opened ControlPointEncoder
  import opened BeamAttributes
  import opened PlanTranslation

  /** The RT Plan dataset `ds` under construction. */
  class PlanDataset {
    const header: PlanHeader
    var fractionGroup: Option<FractionGroupTotals>
    var referencedBeams: seq<ReferencedBeam>
    var beams: seq<BeamRecord>
    var patientSetups: seq<PatientSetup>

    constructor (header: PlanHeader)
      ensures this.header == header && fractionGroup == None
      ensures referencedBeams == [] && beams == [] && patientSetups == []
    {
      this.header := header;
      fractionGroup := None;
      referencedBeams := [];
      beams := [];
      patientSetups := [];
    }

    /** What `save_as` writes. */
    function Document(): PlanDocument
      reads this
    {
      PlanDocument(header, fractionGroup, referencedBeams, beams, patientSetups)
    }
  }

  /** The local variables of the control-point loop besides the beam entry itself. */
  datatype PointLoopVars = PointLoopVars(
    ref: ReferencedBeam,
    msw: seq<real>,
    locals: WedgeLocals,
    currentMeterset: real,
    meterCount: nat)

  /** The local variables that the beam loop carries from one beam to the next. */
  datatype BeamLoopVars = BeamLoopVars(msw: seq<real>, locals: WedgeLocals, numFractions: int)

  function BeamStateOf(beam: BeamRecord, v: PointLoopVars): BeamState {
    BeamState(beam, v.ref, v.msw, v.locals, v.currentMeterset, v.meterCount)
  }

  function PlanStateOf(ds: PlanDataset, v: BeamLoopVars): PlanState
    reads ds
  {
    PlanState(ds.patientSetups, ds.referencedBeams, ds.beams, v.msw, v.locals, v.numFractions)
  }

  /**
   * The lookups the translator repeats for a beam: the prescription by name, the split of the
   * machine string, the first number in the energy name, the dose per monitor unit of the
   * machine's energy and from it the beam meterset and dose.
   */
  method LookUpBeam(plan: SourcePlan, src: SourceBeam) returns (r: Result<Lookups, Fault>)
    ensures r == LookupBeam(plan, src)
  {
    var prescription :- FindPrescription(plan.trialInfo.prescriptionList, src.prescriptionName);
    var machine :- MachineNameAndVersion(src.machineNameAndVersion);
    var energy :- EnergyTokenOf(src.machineEnergyName);
    var dosePerMu := DosePerMuAtCalibration(plan.machineInfo, machine.0, machine.1, src.machineEnergyName);
    var mu :- BeamMonitorUnits(src.prescriptionDose, src.normalizedDose, dosePerMu);
    r := Ok(Lookups(prescription.numberOfFractions, energy, mu));
  }

  /**
   * One iteration of the control-point loop on the Beam Sequence entry `beamSequence`: the wedge
   * is classified and the beam's lookups are made, either of which can fail, and then the entry
   * and the loop variables are updated. The outcome is the fold's step `CpStep`.
   */
  method ConvertControlPoint(plan: SourcePlan, src: SourceBeam, i: nat, beamSequence: BeamDataset, v: PointLoopVars)
    returns (r: Result<PointLoopVars, Fault>)
    requires i < |ControlPoints(src)|
    requires v.meterCount <= i < |v.msw| && |beamSequence.controlPoints| == i
    modifies beamSequence`controlPoints, beamSequence`limitingDevices
    ensures var step := CpStep(plan, src, i, BeamStateOf(old(beamSequence.Record()), v));
            r.Err? == step.Err? && (r.Err? ==> r.error == step.error) &&
            (r.Ok? ==> step.value == BeamStateOf(beamSequence.Record(), r.value))
  {
    ghost var st := BeamStateOf(beamSequence.Record(), v);
    var wedge :- ClassifyWedge(ControlPoints(src)[i].wedgeContext, v.locals);
    var lookups :- LookUpBeam(plan, src);
    var next := FillControlPoint(plan, src, i, beamSequence, v, wedge, lookups);
    CpStepBy(plan, src, i, st, wedge, lookups);
    r := Ok(next);
  }

  /**
   * The updates of one control-point iteration once its wedge and the beam's lookups are known:
   * the weight appended to `metersetweight`, the leaf banks built, the meterset written into the
   * Referenced Beam Sequence entry, the limiting devices replaced, the cumulative weight advanced
   * at odd step-and-shoot points, and the control point appended and filled.
   */
  method FillControlPoint(plan: SourcePlan, src: SourceBeam, i: nat, beamSequence: BeamDataset, v: PointLoopVars,
                          wedge: (WedgeClass, WedgeLocals), lookups: Lookups)
    returns (next: PointLoopVars)
    requires i < |ControlPoints(src)|
    requires v.meterCount <= i < |v.msw| && |beamSequence.controlPoints| == i
    modifies beamSequence`controlPoints, beamSequence`limitingDevices
    ensures BeamStateOf(beamSequence.Record(), next) ==
              Advance(plan, src, i, BeamStateOf(old(beamSequence.Record()), v), wedge, lookups)
  {
    var cp := ControlPoints(src)[i];
    var msw := v.msw + [cp.weight];
    var jaws := JawPositions(cp);
    var leafPositions := MapLeafPositions(cp.leafPoints);
    var ref := ApplyMonitorUnits(v.ref, lookups.mu);
    var gantryRotDir := GantryRotation(src.cpManager);
    var doseRate := DoseRate(src);
    MapBeamDeviceLimitingSequence(beamSequence, |cp.leafPoints|);
    var currentMeterset := v.currentMeterset;
    var meterCount := v.meterCount;
    if StepAndShoot(src.setBeamType) && i % 2 == 1 {
      currentMeterset := currentMeterset + msw[meterCount];
      meterCount := meterCount + 1;
    }
    ghost var before := beamSequence.controlPoints;
    var filled := MapBeamControlPointSequence(i, src, beamSequence, lookups.energy, doseRate, leafPositions,
                                              plan.isoCenter, gantryRotDir, cp.gantry, cp.collimator, cp.couch,
                                              NumWedges(wedge.0), currentMeterset, jaws.0, jaws.1, jaws.2, jaws.3);
    AppendedSlot(before, ControlPointFor(i, src.ssd, lookups.energy, doseRate, leafPositions, plan.isoCenter,
                                         gantryRotDir, cp.gantry, cp.collimator, cp.couch, NumWedges(wedge.0),
                                         currentMeterset, jaws.0, jaws.1, jaws.2, jaws.3));
    next := PointLoopVars(ref, msw, wedge.1, currentMeterset, meterCount);
  }

  /** With the wedge classified and the lookups made, the step is `Advance`. */
  lemma CpStepBy(plan: SourcePlan, src: SourceBeam, i: nat, st: BeamState, wedge: (WedgeClass, WedgeLocals), lookups: Lookups)
    requires i < |ControlPoints(src)| && st.meterCount <= i < |st.msw|
    requires ClassifyWedge(ControlPoints(src)[i].wedgeContext, st.locals) == Ok(wedge)
    requires LookupBeam(plan, src) == Ok(lookups)
    ensures CpStep(plan, src, i, st) == Ok(Advance(plan, src, i, st, wedge, lookups))
  {
  }

  /**
   * One iteration of the beam loop on the dataset `ds`: two Patient Setup entries appended and
   * the first of them filled, the Beam Sequence entry started, the dose reference point found,
   * the control points converted, the lookups made once more and the number of fractions read.
   * The outcome is the fold's step `BeamStep`.
   */
  method ConvertBeam(plan: SourcePlan, b: nat, ds: PlanDataset, v: BeamLoopVars) returns (r: Result<BeamLoopVars, Fault>)
    requires b < |Beams(plan)|
    requires |ds.patientSetups| == 2 * b && |ds.referencedBeams| == b && |ds.beams| == b && |v.msw| >= 1
    modifies ds`patientSetups, ds`referencedBeams, ds`beams
    ensures var step := BeamStep(plan, b, old(PlanStateOf(ds, v)));
            r.Err? == step.Err? && (r.Err? ==> r.error == step.error) &&
            (r.Ok? ==> step.value == PlanStateOf(ds, r.value))
  {
    var src := Beams(plan)[b];
    var cps := ControlPoints(src);
    var setups := ds.patientSetups + [BlankSetup];
    setups := setups + [BlankSetup];
    setups := setups[b := PatientSetup(plan.patientPosition, b)];
    assert setups == (ds.patientSetups + [BlankSetup, BlankSetup])[b := PatientSetup(plan.patientPosition, b)];
    ds.patientSetups := setups;
    var beamSequence := new BeamDataset(BeamHeaderFor(b, src));
    var doseRefPt := FindDoseReferencePoint(plan.points, src.prescriptionPointName, plan.isoCenter);
    var pv := PointLoopVars(ReferencedBeam(b, Some(doseRefPt), None, None), v.msw, v.locals, 0.0, 0);
    ghost var start := BeamStart(plan, b, v.msw, v.locals);
    assert BeamStateOf(beamSequence.Record(), pv) == start;
    var i := 0;
    while i < |cps|
      invariant 0 <= i <= |cps| && pv.meterCount <= i < |pv.msw| && |beamSequence.controlPoints| == i
      invariant ds.patientSetups == setups && ds.referencedBeams == old(ds.referencedBeams) && ds.beams == old(ds.beams)
      invariant RunCps(plan, src, 0, start) == RunCps(plan, src, i, BeamStateOf(beamSequence.Record(), pv))
      decreases |cps| - i
    {
      var next :- ConvertControlPoint(plan, src, i, beamSequence, pv);
      pv := next;
      i := i + 1;
    }
    var lookups :- LookUpBeam(plan, src);
    var ref := ApplyMonitorUnits(pv.ref, lookups.mu);
    ds.referencedBeams := ds.referencedBeams + [ref];
    ds.beams := ds.beams + [beamSequence.Record()];
    r := Ok(BeamLoopVars(pv.msw, pv.locals, lookups.numberOfFractions));
  }

  /**
   * The beam loop of `convert_plan` on a dataset whose sequences are still empty. The outcome is
   * the fold's `RunBeams` from the first beam.
   */
  method ConvertBeams(plan: SourcePlan, ds: PlanDataset) returns (r: Result<BeamLoopVars, Fault>)
    requires ds.patientSetups == [] && ds.referencedBeams == [] && ds.beams == []
    modifies ds`patientSetups, ds`referencedBeams, ds`beams
    ensures var loop := RunBeams(plan, 0, InitialPlanState());
            r.Err? == loop.Err? && (r.Err? ==> r.error == loop.error) &&
            (r.Ok? ==> loop.value == PlanStateOf(ds, r.value))
  {
    var beams := Beams(plan);
    var v := BeamLoopVars([0.0], WedgeLocals(None, None), 0);
    assert PlanStateOf(ds, v) == InitialPlanState();
    var b := 0;
    while b < |beams|
      invariant 0 <= b <= |beams| && |v.msw| >= 1
      invariant |ds.patientSetups| == 2 * b && |ds.referencedBeams| == b && |ds.beams| == b
      invariant RunBeams(plan, 0, InitialPlanState()) == RunBeams(plan, b, PlanStateOf(ds, v))
      decreases |beams| - b
    {
      var next :- ConvertBeam(plan, b, ds, v);
      v := next;
      b := b + 1;
    }
    r := Ok(v);
  }

  /**
   * `convert_plan`: the document it saves, or the reason it saves none. The outcome is exactly
   * the translation `Translate`.
   */
  method ConvertPlan(plan: SourcePlan) returns (r: Result<PlanDocument, Fault>)
    ensures r == Translate(plan)
  {
    if plan.primaryImage.None? {
      return Err(NoPrimaryImage);
    }
    var stamp :- StudyDateTime(plan.trialInfo.writeTimeStamp);
    var sex :- PatientSex(plan.patientInfo.gender);
    var ds := new PlanDataset(PlanHeaderFor(plan, plan.primaryImage.value, stamp.0, stamp.1, sex));
    if |Beams(plan)| == 0 {
      return Err(NoBeams);
    }
    TranslateAfterHeader(plan);
    var v :- ConvertBeams(plan, ds);
    ds.fractionGroup := Some(FractionGroupTotals(1, v.numFractions, |Beams(plan)| - 1, "0"));
    r := Ok(ds.Document());
  }

  /** Once the header is made and there are beams, the translation is decided by the beam loop. */
  lemma TranslateAfterHeader(plan: SourcePlan)
    requires plan.primaryImage.Some? && |Beams(plan)| > 0
    requires StudyDateTime(plan.trialInfo.writeTimeStamp).Ok? && PatientSex(plan.patientInfo.gender).Ok?
    ensures var loop := RunBeams(plan, 0, InitialPlanState());
            var stamp := StudyDateTime(plan.trialInfo.writeTimeStamp).value;
            var header := PlanHeaderFor(plan, plan.primaryImage.value, stamp.0, stamp.1, PatientSex(plan.patientInfo.gender).value);
            (loop.Err? ==> Translate(plan) == Err(loop.error)) &&
            (loop.Ok? ==> Translate(plan) == Ok(PlanDocument(header, Some(FractionGroupTotals(1, loop.value.numFractions, |Beams(plan)| - 1, "0")),
                                                            loop.value.referencedBeams, loop.value.beams, loop.value.patientSetups)))
  {
  }
}
