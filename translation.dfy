/**
 * `convert_plan` as a fold: the plan header, then one step per beam, and inside it one step per
 * control point, each step failing exactly where the Python code raises or returns. `Translate`
 * is the specification that the imperative `ConvertPlan` is proved against.
 *
 * Two lists outlive a single beam in the Python code and are threaded through the fold: the
 * meterset weights (`metersetweight`, which starts as ["0"] and grows by one weight per control
 * point of every beam) and the wedge locals (`wedgename`, `numberinname`).
 */
module PlanTranslation {
  import opened Wrappers
  import opened Text
  import opened Pinnacle
  import opened RtPlanTypes
  import opened WedgeClassifier
  import opened ControlPointEncoder
  import opened BeamAttributes

  /** The state of the control-point loop of one beam. */
  datatype BeamState = BeamState(
    beam: BeamRecord,            // the Beam Sequence entry
    ref: ReferencedBeam,         // its Referenced Beam Sequence entry
    msw: seq<real>,              // `metersetweight`
    locals: WedgeLocals,
    currentMeterset: real,
    meterCount: nat)

  /** The state of the beam loop. */
  datatype PlanState = PlanState(
    patientSetups: seq<PatientSetup>,
    referencedBeams: seq<ReferencedBeam>,
    beams: seq<BeamRecord>,
    msw: seq<real>,
    locals: WedgeLocals,
    numFractions: int)

  function Sum(s: seq<real>): real
    decreases |s|
  {
    if |s| == 0 then 0.0 else Sum(s[..|s| - 1]) + s[|s| - 1]
  }

  /** The weights of a beam's control points, in order. */
  function Weights(cps: seq<SourceControlPoint>): (w: seq<real>)
    ensures |w| == |cps| && forall k :: 0 <= k < |cps| ==> w[k] == cps[k].weight
  {
    seq(|cps|, k requires 0 <= k < |cps| => cps[k].weight)
  }

  /** The weights of all control points of the given beams, beam after beam. */
  function AllWeights(beams: seq<SourceBeam>): seq<real>
    decreases |beams|
  {
    if |beams| == 0 then [] else AllWeights(beams[..|beams| - 1]) + Weights(ControlPoints(beams[|beams| - 1]))
  }

  /** `metersetweight` at the end of a successful translation. */
  function PlanWeights(plan: SourcePlan): seq<real> {
    [0.0] + AllWeights(Beams(plan))
  }

  function EnergyTokenOf(machineEnergyName: string): Result<string, Fault> {
    match EnergyToken(machineEnergyName)
    case None => Err(NoEnergyToken)
    case Some(t) => Ok(t)
  }

  /** The nominal beam energy of a beam (the empty string stands for the failing case). */
  function BeamEnergy(src: SourceBeam): string {
    match EnergyToken(src.machineEnergyName)
    case None => ""
    case Some(t) => t
  }

  /** Beam meterset and dose of a beam, from its own monitor-unit data and the machine's. */
  function BeamMu(plan: SourcePlan, src: SourceBeam): Result<(real, Option<real>), Fault> {
    var mv :- MachineNameAndVersion(src.machineNameAndVersion);
    BeamMonitorUnits(src.prescriptionDose, src.normalizedDose,
                     DosePerMu(plan.machineInfo, mv.0, mv.1, src.machineEnergyName))
  }

  function BeamHeaderFor(b: nat, src: SourceBeam): BeamHeader {
    BeamHeader(b, "TREATMENT", b, "1000", "1", "MU", "STANDARD", src.fieldID, src.name,
               RadiationType(src.modality), BeamType(src.setBeamType),
               TreatmentMachineName(src.machineNameAndVersion))
  }

  /** The control point written for source control point `k` of `src`, given its cumulative weight. */
  function ExpectedPoint(plan: SourcePlan, src: SourceBeam, k: nat, cumulative: real): ControlPoint
    requires k < |ControlPoints(src)|
  {
    var cp := ControlPoints(src)[k];
    var jaws := JawPositions(cp);
    ControlPointFor(k, src.ssd, BeamEnergy(src), DoseRate(src), LeafPositions(cp.leafPoints), plan.isoCenter,
                    GantryRotation(src.cpManager), cp.gantry, cp.collimator, cp.couch,
                    WedgeCount(cp.wedgeContext.wedgeName), cumulative, jaws.0, jaws.1, jaws.2, jaws.3)
  }

  /**
   * The cumulative meterset weight of control point `k`: 0 for a beam that is not step-and-shoot,
   * otherwise the sum of the first (k + 1) / 2 entries of the plan-wide weight list.
   */
  function CumulativeAt(src: SourceBeam, weights: seq<real>, k: nat): real {
    if StepAndShoot(src.setBeamType) then Sum(weights[..if (k + 1) / 2 <= |weights| then (k + 1) / 2 else |weights|])
    else 0.0
  }

  /** What the translator looks up for a beam, at every control point and once more after them. */
  datatype Lookups = Lookups(numberOfFractions: int, energy: string, mu: (real, Option<real>))

  /**
   * The beam's lookups in the Python order of their faults: its prescription, the split of its
   * machine string, the number in its energy name, then its monitor units.
   */
  function LookupBeam(plan: SourcePlan, src: SourceBeam): Result<Lookups, Fault> {
    var prescription :- FindPrescription(plan.trialInfo.prescriptionList, src.prescriptionName);
    var _ :- MachineNameAndVersion(src.machineNameAndVersion);
    var energy :- EnergyTokenOf(src.machineEnergyName);
    var mu :- BeamMu(plan, src);
    Ok(Lookups(prescription.numberOfFractions, energy, mu))
  }

  /** The state after control point `i` once its wedge is classified and the beam's lookups are made. */
  function Advance(plan: SourcePlan, src: SourceBeam, i: nat, st: BeamState,
                   wedge: (WedgeClass, WedgeLocals), lookups: Lookups): (r: BeamState)
    requires i < |ControlPoints(src)|
    requires st.meterCount <= i < |st.msw|
    ensures |r.msw| == |st.msw| + 1 && r.meterCount <= i + 1
    ensures |r.beam.controlPoints| == |st.beam.controlPoints| + 1
  {
    var cp := ControlPoints(src)[i];
    var msw := st.msw + [cp.weight];
    var stepped := StepAndShoot(src.setBeamType) && i % 2 == 1;
    var currentMeterset := if stepped then st.currentMeterset + msw[st.meterCount] else st.currentMeterset;
    var meterCount := if stepped then st.meterCount + 1 else st.meterCount;
    var jaws := JawPositions(cp);
    var point := ControlPointFor(i, src.ssd, lookups.energy, DoseRate(src), LeafPositions(cp.leafPoints), plan.isoCenter,
                                 GantryRotation(src.cpManager), cp.gantry, cp.collimator, cp.couch,
                                 NumWedges(wedge.0), currentMeterset, jaws.0, jaws.1, jaws.2, jaws.3);
    BeamState(st.beam.(controlPoints := st.beam.controlPoints + [point],
                       limitingDevices := Some(DeviceDescriptors(|cp.leafPoints|))),
              ApplyMonitorUnits(st.ref, lookups.mu), msw, wedge.1, currentMeterset, meterCount)
  }

  /** One iteration of the control-point loop: the wedge is classified before the beam's lookups. */
  function CpStep(plan: SourcePlan, src: SourceBeam, i: nat, st: BeamState): (r: Result<BeamState, Fault>)
    requires i < |ControlPoints(src)|
    requires st.meterCount <= i < |st.msw|
    ensures r.Ok? ==> |r.value.msw| == |st.msw| + 1 && r.value.meterCount <= i + 1
    ensures r.Ok? ==> |r.value.beam.controlPoints| == |st.beam.controlPoints| + 1
  {
    var wedge :- ClassifyWedge(ControlPoints(src)[i].wedgeContext, st.locals);
    var lookups :- LookupBeam(plan, src);
    Ok(Advance(plan, src, i, st, wedge, lookups))
  }

  /** The control-point loop from control point `i` on. */
  function RunCps(plan: SourcePlan, src: SourceBeam, i: nat, st: BeamState): (r: Result<BeamState, Fault>)
    requires i <= |ControlPoints(src)|
    requires st.meterCount <= i < |st.msw|
    ensures r.Ok? ==> |r.value.msw| == |st.msw| + |ControlPoints(src)| - i
    decreases |ControlPoints(src)| - i
  {
    if i == |ControlPoints(src)| then Ok(st)
    else
      var next :- CpStep(plan, src, i, st);
      RunCps(plan, src, i + 1, next)
  }

  /**
   * The work done for beam `b` after its control-point loop: the same lookups once more, the
   * monitor units set again, and the number of fractions taken from the prescription.
   */
  function AfterCps(plan: SourcePlan, src: SourceBeam, st: BeamState): Result<(ReferencedBeam, int), Fault> {
    var lookups :- LookupBeam(plan, src);
    Ok((ApplyMonitorUnits(st.ref, lookups.mu), lookups.numberOfFractions))
  }

  /**
   * The state before the control points of beam `b`: the header set, no control point yet, the
   * Referenced Beam Sequence entry with its number and dose specification point.
   */
  function BeamStart(plan: SourcePlan, b: nat, msw: seq<real>, locals: WedgeLocals): BeamState
    requires b < |Beams(plan)|
  {
    var src := Beams(plan)[b];
    var ref := ReferencedBeam(b, Some(DoseReferencePoint(plan.points, src.prescriptionPointName, plan.isoCenter)), None, None);
    BeamState(BeamRecord(BeamHeaderFor(b, src), [], None), ref, msw, locals, 0.0, 0)
  }

  /** One iteration of the beam loop. */
  function BeamStep(plan: SourcePlan, b: nat, ps: PlanState): (r: Result<PlanState, Fault>)
    requires b < |Beams(plan)|
    requires |ps.patientSetups| == 2 * b && |ps.referencedBeams| == b && |ps.beams| == b && |ps.msw| >= 1
    ensures r.Ok? ==> |r.value.patientSetups| == 2 * (b + 1) && |r.value.referencedBeams| == b + 1
    ensures r.Ok? ==> |r.value.beams| == b + 1 && |r.value.msw| >= 1
  {
    var src := Beams(plan)[b];
    var setups := (ps.patientSetups + [BlankSetup, BlankSetup])[b := PatientSetup(plan.patientPosition, b)];
    var st :- RunCps(plan, src, 0, BeamStart(plan, b, ps.msw, ps.locals));
    var after :- AfterCps(plan, src, st);
    Ok(PlanState(setups, ps.referencedBeams + [after.0], ps.beams + [st.beam], st.msw, st.locals, after.1))
  }

  /** The beam loop from beam `b` on. */
  function RunBeams(plan: SourcePlan, b: nat, ps: PlanState): (r: Result<PlanState, Fault>)
    requires b <= |Beams(plan)|
    requires |ps.patientSetups| == 2 * b && |ps.referencedBeams| == b && |ps.beams| == b && |ps.msw| >= 1
    ensures r.Ok? ==> |r.value.patientSetups| == 2 * |Beams(plan)| && |r.value.beams| == |Beams(plan)|
    ensures r.Ok? ==> |r.value.referencedBeams| == |Beams(plan)|
    decreases |Beams(plan)| - b
  {
    if b == |Beams(plan)| then Ok(ps)
    else
      var next :- BeamStep(plan, b, ps);
      RunBeams(plan, b + 1, next)
  }

  function InitialPlanState(): PlanState {
    PlanState([], [], [], [0.0], WedgeLocals(None, None), 0)
  }

  function PlanHeaderFor(plan: SourcePlan, image: ImageInfo, date: string, time: string, sex: string): PlanHeader {
    PlanHeader(
      "ISO_IR 100", plan.planInstanceUID, date, time, "", "", plan.planInfo.toolType,
      [plan.planInfo.pinnacleVersionDescription], plan.patientInfo.radiationOncologist,
      plan.patientInfo.fullName, plan.patientInfo.dob, plan.patientInfo.medicalRecordNumber, sex,
      image.studyInstanceUID, plan.planInstanceUID, image.studyID, image.frameUID, "",
      RtPlanLabel(plan.planInfo.planName), plan.planInfo.planName, plan.patientInfo.comment,
      date, time, "PATIENT", "UNAPPROVED", plan.structInstanceUID)
  }

  /** The whole translation: the RT Plan document, or why none is written. */
  function Translate(plan: SourcePlan): Result<PlanDocument, Fault> {
    if plan.primaryImage.None? then Err(NoPrimaryImage)
    else
      var stamp :- StudyDateTime(plan.trialInfo.writeTimeStamp);
      var sex :- PatientSex(plan.patientInfo.gender);
      var header := PlanHeaderFor(plan, plan.primaryImage.value, stamp.0, stamp.1, sex);
      if |Beams(plan)| == 0 then Err(NoBeams)
      else
        var ps :- RunBeams(plan, 0, InitialPlanState());
        Ok(PlanDocument(header, Some(FractionGroupTotals(1, ps.numFractions, |Beams(plan)| - 1, "0")),
                        ps.referencedBeams, ps.beams, ps.patientSetups))
  }
}
