/**
 * Properties of the RT Plan document `Translate` produces: when translation fails and with which
 * fault, the patient setups, the fraction group, the referenced beams with their monitor units,
 * and, per beam, its header, control points, cumulative meterset weights and devices.
 */
module PlanProperties {
  import opened Wrappers
  import opened Text
  import opened Pinnacle
  import opened RtPlanTypes
  import opened WedgeClassifier
  import opened ControlPointEncoder
  import opened BeamAttributes
  import opened PlanTranslation
  import opened TranslationShape

  lemma AllWeightsStep(beams: seq<SourceBeam>, b: nat)
    requires b < |beams|
    ensures AllWeights(beams[..b + 1]) == AllWeights(beams[..b]) + Weights(ControlPoints(beams[b]))
  {
    assert beams[..b + 1][..b] == beams[..b];
  }

  /** The plan-wide weight list after beam `b`, from the list before it. */
  lemma WeightListStep(beams: seq<SourceBeam>, b: nat, msw: seq<real>, msw': seq<real>)
    requires b < |beams|
    requires msw == [0.0] + AllWeights(beams[..b])
    requires msw' == msw + Weights(ControlPoints(beams[b]))
    ensures msw' == [0.0] + AllWeights(beams[..b + 1])
  {
    AllWeightsStep(beams, b);
    assert ([0.0] + AllWeights(beams[..b])) + Weights(ControlPoints(beams[b])) ==
           [0.0] + (AllWeights(beams[..b]) + Weights(ControlPoints(beams[b])));
  }

  /** The weights of the first `b` beams are a prefix of the weights of all of them. */
  lemma {:induction false} AllWeightsPrefix(beams: seq<SourceBeam>, b: nat)
    requires b <= |beams|
    ensures |AllWeights(beams[..b])| <= |AllWeights(beams)|
    ensures AllWeights(beams)[..|AllWeights(beams[..b])|] == AllWeights(beams[..b])
    decreases |beams|
  {
    if b == |beams| {
      assert beams[..b] == beams;
    } else {
      var front := beams[..|beams| - 1];
      AllWeightsPrefix(front, b);
      assert front[..b] == beams[..b];
    }
  }

  /** The expected beam only reads the weight list up to its own control points. */
  lemma ExpectedBeamWeights(plan: SourcePlan, b: nat, w1: seq<real>, w2: seq<real>)
    requires b < |Beams(plan)|
    requires |ControlPoints(Beams(plan)[b])| <= |w1| <= |w2| && w2[..|w1|] == w1
    ensures ExpectedBeam(plan, b, w1) == ExpectedBeam(plan, b, w2)
  {
    var src := Beams(plan)[b];
    forall k | 0 <= k < |ControlPoints(src)|
      ensures CumulativeAt(src, w1, k) == CumulativeAt(src, w2, k)
    {
      assert w1[..(k + 1) / 2] == w2[..(k + 1) / 2];
    }
  }

  /** The Patient Setup Sequence once the first `b` beams are done. */
  predicate SetupsBuilt(plan: SourcePlan, b: nat, setups: seq<PatientSetup>) {
    |setups| == 2 * b &&
    (forall i :: 0 <= i < b ==> setups[i] == PatientSetup(plan.patientPosition, i)) &&
    (forall i :: b <= i < 2 * b ==> setups[i] == BlankSetup)
  }

  /** The Beam Sequence entries of the first `n` beams. */
  function ExpectedBeams(plan: SourcePlan, n: nat): (r: seq<BeamRecord>)
    requires n <= |Beams(plan)|
    ensures |r| == n
  {
    if n == 0 then [] else ExpectedBeams(plan, n - 1) + [ExpectedBeam(plan, n - 1, PlanWeights(plan))]
  }

  /** The Referenced Beam Sequence entries of the first `n` beams. */
  function ExpectedRefs(plan: SourcePlan, n: nat): (r: seq<ReferencedBeam>)
    requires n <= |Beams(plan)|
    ensures |r| == n
  {
    if n == 0 then [] else ExpectedRefs(plan, n - 1) + [ExpectedRef(plan, n - 1)]
  }

  lemma {:induction false} ExpectedBeamsAt(plan: SourcePlan, n: nat, j: nat)
    requires j < n <= |Beams(plan)|
    ensures ExpectedBeams(plan, n)[j] == ExpectedBeam(plan, j, PlanWeights(plan))
    decreases n
  {
    if j < n - 1 {
      ExpectedBeamsAt(plan, n - 1, j);
    }
  }

  lemma {:induction false} ExpectedRefsAt(plan: SourcePlan, n: nat, j: nat)
    requires j < n <= |Beams(plan)|
    ensures ExpectedRefs(plan, n)[j] == ExpectedRef(plan, j)
    decreases n
  {
    if j < n - 1 {
      ExpectedRefsAt(plan, n - 1, j);
    }
  }

  /** The Referenced Beam and Beam Sequences once the first `b` beams are done. */
  predicate BeamsBuilt(plan: SourcePlan, b: nat, refs: seq<ReferencedBeam>, beams: seq<BeamRecord>) {
    b <= |Beams(plan)| &&
    refs == ExpectedRefs(plan, b) && beams == ExpectedBeams(plan, b) &&
    (forall j :: 0 <= j < b ==> BeamLookupsSucceed(plan, Beams(plan)[j]))
  }

  /** What the beam loop has built once the first `b` beams are done. */
  predicate BeamLoopInvariant(plan: SourcePlan, b: nat, ps: PlanState) {
    b <= |Beams(plan)| &&
    SetupsBuilt(plan, b, ps.patientSetups) &&
    BeamsBuilt(plan, b, ps.referencedBeams, ps.beams) &&
    ps.msw == [0.0] + AllWeights(Beams(plan)[..b]) &&
    (b > 0 ==> ps.numFractions ==
                 FindPrescription(plan.trialInfo.prescriptionList, Beams(plan)[b - 1].prescriptionName).value.numberOfFractions)
  }

  lemma SetupsStep(plan: SourcePlan, b: nat, setups: seq<PatientSetup>)
    requires SetupsBuilt(plan, b, setups)
    ensures SetupsBuilt(plan, b + 1, (setups + [BlankSetup, BlankSetup])[b := PatientSetup(plan.patientPosition, b)])
  {
  }

  lemma BeamsStep(plan: SourcePlan, b: nat, refs: seq<ReferencedBeam>, beams: seq<BeamRecord>, msw: seq<real>,
                  refs': seq<ReferencedBeam>, beams': seq<BeamRecord>)
    requires b < |Beams(plan)| && BeamsBuilt(plan, b, refs, beams)
    requires BeamLookupsSucceed(plan, Beams(plan)[b])
    requires msw == [0.0] + AllWeights(Beams(plan)[..b + 1])
    requires refs' == refs + [ExpectedRef(plan, b)] && beams' == beams + [ExpectedBeam(plan, b, msw)]
    ensures BeamsBuilt(plan, b + 1, refs', beams')
  {
    AllWeightsStep(Beams(plan), b);
    AllWeightsPrefix(Beams(plan), b + 1);
    assert PlanWeights(plan)[..|msw|] == msw;
    ExpectedBeamWeights(plan, b, msw, PlanWeights(plan));
  }

  /** The Referenced Beam and Beam Sequences after beam `b`, from those before it. */
  lemma BeamsNext(plan: SourcePlan, b: nat, refs: seq<ReferencedBeam>, beams: seq<BeamRecord>, msw: seq<real>,
                  refs': seq<ReferencedBeam>, beams': seq<BeamRecord>, msw': seq<real>)
    requires b < |Beams(plan)| && BeamsBuilt(plan, b, refs, beams)
    requires msw == [0.0] + AllWeights(Beams(plan)[..b])
    requires msw' == msw + Weights(ControlPoints(Beams(plan)[b]))
    requires refs' == refs + [ExpectedRef(plan, b)] && beams' == beams + [ExpectedBeam(plan, b, msw')]
    requires BeamLookupsSucceed(plan, Beams(plan)[b])
    ensures BeamsBuilt(plan, b + 1, refs', beams')
  {
    WeightListStep(Beams(plan), b, msw, msw');
    BeamsStep(plan, b, refs, beams, msw', refs', beams');
  }

  /** The invariant after beam `b`, from what one beam step is known to produce. */
  lemma BeamLoopNext(plan: SourcePlan, b: nat, ps: PlanState, next: PlanState)
    requires b < |Beams(plan)| && BeamLoopInvariant(plan, b, ps)
    requires next.patientSetups == (ps.patientSetups + [BlankSetup, BlankSetup])[b := PatientSetup(plan.patientPosition, b)]
    requires next.referencedBeams == ps.referencedBeams + [ExpectedRef(plan, b)]
    requires next.msw == ps.msw + Weights(ControlPoints(Beams(plan)[b]))
    requires next.beams == ps.beams + [ExpectedBeam(plan, b, next.msw)]
    requires BeamLookupsSucceed(plan, Beams(plan)[b])
    requires next.numFractions ==
               FindPrescription(plan.trialInfo.prescriptionList, Beams(plan)[b].prescriptionName).value.numberOfFractions
    ensures BeamLoopInvariant(plan, b + 1, next)
  {
    BeamsNext(plan, b, ps.referencedBeams, ps.beams, ps.msw, next.referencedBeams, next.beams, next.msw);
    WeightListStep(Beams(plan), b, ps.msw, next.msw);
    SetupsStep(plan, b, ps.patientSetups);
  }

  lemma BeamLoopStep(plan: SourcePlan, b: nat, ps: PlanState)
    requires b < |Beams(plan)| && BeamLoopInvariant(plan, b, ps)
    requires BeamStep(plan, b, ps).Ok?
    ensures BeamLoopInvariant(plan, b + 1, BeamStep(plan, b, ps).value)
  {
    BeamStepShape(plan, b, ps);
    BeamLoopNext(plan, b, ps, BeamStep(plan, b, ps).value);
  }

  lemma {:induction false} BeamLoop(plan: SourcePlan, b: nat, ps: PlanState)
    requires b <= |Beams(plan)| && BeamLoopInvariant(plan, b, ps)
    requires RunBeams(plan, b, ps).Ok?
    ensures BeamLoopInvariant(plan, |Beams(plan)|, RunBeams(plan, b, ps).value)
    decreases |Beams(plan)| - b
  {
    if b < |Beams(plan)| {
      BeamLoopStep(plan, b, ps);
      BeamLoop(plan, b + 1, BeamStep(plan, b, ps).value);
    }
  }

  /** The beam loop run from its start keeps the invariant to the end. */
  lemma LoopFromStart(plan: SourcePlan)
    requires RunBeams(plan, 0, InitialPlanState()).Ok?
    ensures BeamLoopInvariant(plan, |Beams(plan)|, RunBeams(plan, 0, InitialPlanState()).value)
  {
    InitialInvariant(plan);
    BeamLoop(plan, 0, InitialPlanState());
  }

  lemma InitialInvariant(plan: SourcePlan)
    ensures BeamLoopInvariant(plan, 0, InitialPlanState())
  {
    assert Beams(plan)[..0] == [];
  }

  /** The beam loop's result on a successful translation. */
  function FinalState(plan: SourcePlan): PlanState
    requires Translate(plan).Ok?
  {
    RunBeams(plan, 0, InitialPlanState()).value
  }

  /** A successful translation passed every check before the loop and reports the loop's result. */
  lemma TranslateSteps(plan: SourcePlan)
    requires Translate(plan).Ok?
    ensures plan.primaryImage.Some? && |Beams(plan)| > 0
    ensures StudyDateTime(plan.trialInfo.writeTimeStamp).Ok? && PatientSex(plan.patientInfo.gender).Ok?
    ensures RunBeams(plan, 0, InitialPlanState()).Ok?
    ensures var stamp := StudyDateTime(plan.trialInfo.writeTimeStamp).value;
            Translate(plan).value.header ==
              PlanHeaderFor(plan, plan.primaryImage.value, stamp.0, stamp.1, PatientSex(plan.patientInfo.gender).value)
    ensures var doc := Translate(plan).value;
            var ps := FinalState(plan);
            doc.beams == ps.beams && doc.referencedBeams == ps.referencedBeams &&
            doc.patientSetups == ps.patientSetups &&
            doc.fractionGroup == Some(FractionGroupTotals(1, ps.numFractions, |Beams(plan)| - 1, "0"))
  {
  }

  lemma TranslateShape(plan: SourcePlan)
    requires Translate(plan).Ok?
    ensures plan.primaryImage.Some? && |Beams(plan)| > 0
    ensures StudyDateTime(plan.trialInfo.writeTimeStamp).Ok? && PatientSex(plan.patientInfo.gender).Ok?
    ensures RunBeams(plan, 0, InitialPlanState()).Ok?
    ensures BeamLoopInvariant(plan, |Beams(plan)|, FinalState(plan))
    ensures var doc := Translate(plan).value;
            var ps := FinalState(plan);
            doc.beams == ps.beams && doc.referencedBeams == ps.referencedBeams &&
            doc.patientSetups == ps.patientSetups &&
            doc.fractionGroup == Some(FractionGroupTotals(1, ps.numFractions, |Beams(plan)| - 1, "0"))
  {
    TranslateSteps(plan);
    LoopFromStart(plan);
  }

  /** Beam `b` of a written plan, its referenced-beam entry, and the lookups its translation made. */
  lemma DocBeam(plan: SourcePlan, b: nat)
    requires Translate(plan).Ok? && b < |Beams(plan)|
    ensures |Translate(plan).value.beams| == |Beams(plan)| == |Translate(plan).value.referencedBeams|
    ensures Translate(plan).value.beams[b] == ExpectedBeam(plan, b, PlanWeights(plan))
    ensures Translate(plan).value.referencedBeams[b] == ExpectedRef(plan, b)
    ensures BeamLookupsSucceed(plan, Beams(plan)[b])
  {
    TranslateShape(plan);
    ExpectedBeamsAt(plan, |Beams(plan)|, b);
    ExpectedRefsAt(plan, |Beams(plan)|, b);
  }

  /** Control point `k` of an expected beam comes from source control point `k`. */
  lemma ExpectedPointsLayout(plan: SourcePlan, b: nat, w: seq<real>)
    requires b < |Beams(plan)|
    ensures var cps := ExpectedBeam(plan, b, w).controlPoints;
            var src := ControlPoints(Beams(plan)[b]);
            |cps| == |src| &&
            forall k :: 0 <= k < |src| ==>
              cps[k].ControlPoint? && cps[k].controlPointIndex == k &&
              cps[k].devicePositions ==
                [DevicePosition("ASYMX", [-src[k].rightJawPosition * 10.0, src[k].leftJawPosition * 10.0]),
                 DevicePosition("ASYMY", [-src[k].topJawPosition * 10.0, src[k].bottomJawPosition * 10.0]),
                 DevicePosition("MLCX", LeafPositions(src[k].leafPoints))]
  {
  }

  lemma ExpectedFirstPoint(plan: SourcePlan, b: nat, w: seq<real>)
    requires b < |Beams(plan)| && EnergyToken(Beams(plan)[b].machineEnergyName).Some?
    ensures var cps := ExpectedBeam(plan, b, w).controlPoints;
            forall k :: 0 <= k < |cps| ==> cps[k].ControlPoint? && (cps[k].firstPoint.Some? <==> k == 0)
    ensures var cps := ExpectedBeam(plan, b, w).controlPoints;
            var src := Beams(plan)[b];
            |cps| == |ControlPoints(src)| &&
            (|cps| > 0 ==>
              var first := ControlPoints(src)[0];
              cps[0].firstPoint == Some(FirstPointFields(
                EnergyToken(src.machineEnergyName).value, DoseRate(src), GantryRotation(src.cpManager),
                first.gantry, first.collimator, "NONE", src.ssd * 10.0,
                if WedgeCount(first.wedgeContext.wedgeName) > 0 then Some([WedgePosition("IN", "1")]) else None,
                first.couch, "NONE", plan.isoCenter)))
  {
    FirstPointFlags(plan, b, w);
    var src := Beams(plan)[b];
    if |ControlPoints(src)| > 0 {
      assert ExpectedBeam(plan, b, w).controlPoints[0] == ExpectedPoint(plan, src, 0, CumulativeAt(src, w, 0));
      PointFirstValue(plan, src, CumulativeAt(src, w, 0));
    }
  }

  lemma FirstPointFlags(plan: SourcePlan, b: nat, w: seq<real>)
    requires b < |Beams(plan)|
    ensures var cps := ExpectedBeam(plan, b, w).controlPoints;
            forall k :: 0 <= k < |cps| ==> cps[k].ControlPoint? && (cps[k].firstPoint.Some? <==> k == 0)
  {
    var src := Beams(plan)[b];
    var cps := ExpectedBeam(plan, b, w).controlPoints;
    forall k | 0 <= k < |cps|
      ensures cps[k].ControlPoint? && (cps[k].firstPoint.Some? <==> k == 0)
    {
      assert cps[k] == ExpectedPoint(plan, src, k, CumulativeAt(src, w, k));
      PointFirstFields(plan, src, k, CumulativeAt(src, w, k));
    }
  }

  lemma PointFirstFields(plan: SourcePlan, src: SourceBeam, k: nat, cumulative: real)
    requires k < |ControlPoints(src)|
    ensures ExpectedPoint(plan, src, k, cumulative).ControlPoint?
    ensures ExpectedPoint(plan, src, k, cumulative).firstPoint.Some? <==> k == 0
  {
  }

  lemma PointFirstValue(plan: SourcePlan, src: SourceBeam, cumulative: real)
    requires |ControlPoints(src)| > 0 && EnergyToken(src.machineEnergyName).Some?
    ensures var first := ControlPoints(src)[0];
            ExpectedPoint(plan, src, 0, cumulative).firstPoint == Some(FirstPointFields(
              EnergyToken(src.machineEnergyName).value, DoseRate(src), GantryRotation(src.cpManager),
              first.gantry, first.collimator, "NONE", src.ssd * 10.0,
              if WedgeCount(first.wedgeContext.wedgeName) > 0 then Some([WedgePosition("IN", "1")]) else None,
              first.couch, "NONE", plan.isoCenter))
  {
  }

  lemma ExpectedCumulative(plan: SourcePlan, b: nat, w: seq<real>)
    requires b < |Beams(plan)|
    ensures var cps := ExpectedBeam(plan, b, w).controlPoints;
            var src := Beams(plan)[b];
            forall k :: 0 <= k < |cps| ==>
              cps[k].ControlPoint? &&
              cps[k].cumulativeMetersetWeight == CumulativeAt(src, w, k) &&
              cps[k].referencedDoseReferences == [DoseReference(cps[k].cumulativeMetersetWeight, "1")]
    ensures var cps := ExpectedBeam(plan, b, w).controlPoints;
            !StepAndShoot(Beams(plan)[b].setBeamType) ==>
              forall k :: 0 <= k < |cps| ==> cps[k].ControlPoint? && cps[k].cumulativeMetersetWeight == 0.0
  {
  }

  lemma ExpectedDevices(plan: SourcePlan, b: nat, w: seq<real>)
    requires b < |Beams(plan)|
    ensures var beam := ExpectedBeam(plan, b, w);
            var cps := ControlPoints(Beams(plan)[b]);
            (beam.limitingDevices.None? <==> |cps| == 0) &&
            (|cps| > 0 ==>
               beam.limitingDevices == Some([
                 LimitingDevice("ASYMX", 1.0, None),
                 LimitingDevice("ASYMY", 1.0, None),
                 LimitingDevice("MLCX", |cps[|cps| - 1].leafPoints| as real / 2.0, Some(MlcBoundaries()))]))
  {
  }

  // ---------------------------------------------------------------------------------------------
  // When no file is written

  /** The checks before the beam loop, in their order: primary image, timestamp, gender, beams. */
  lemma EarlyFaults(plan: SourcePlan)
    ensures plan.primaryImage.None? ==> Translate(plan) == Err(NoPrimaryImage)
    ensures plan.primaryImage.Some? && |Words(plan.trialInfo.writeTimeStamp)| < 2 ==>
              Translate(plan) == Err(MalformedTimeStamp)
    ensures plan.primaryImage.Some? && |Words(plan.trialInfo.writeTimeStamp)| >= 2 && plan.patientInfo.gender == "" ==>
              Translate(plan) == Err(EmptyGender)
    ensures plan.primaryImage.Some? && |Words(plan.trialInfo.writeTimeStamp)| >= 2 && plan.patientInfo.gender != "" &&
            |Beams(plan)| == 0 ==>
              Translate(plan) == Err(NoBeams)
  {
  }

  /** What the four per-beam lookups need of the beam and the plan. */
  lemma LookupsMeaning(plan: SourcePlan, src: SourceBeam)
    requires BeamLookupsSucceed(plan, src)
    ensures exists p :: p in plan.trialInfo.prescriptionList && p.name == src.prescriptionName
    ensures Occurs(": ", src.machineNameAndVersion)
    ensures exists i :: 0 <= i < |src.machineEnergyName| && IsDigit(src.machineEnergyName[i])
    ensures BeamMu(plan, src).Ok?
  {
    EnergyTokenSpec(src.machineEnergyName);
    var p := FindPrescription(plan.trialInfo.prescriptionList, src.prescriptionName).value;
    assert p in plan.trialInfo.prescriptionList && p.name == src.prescriptionName;
  }

  /**
   * A translation that succeeds found, for every beam, its prescription, a ": " in its machine
   * name, a digit in its energy name, and computed its monitor units.
   */
  lemma SuccessNeedsLookups(plan: SourcePlan, b: nat)
    requires Translate(plan).Ok? && b < |Beams(plan)|
    ensures var src := Beams(plan)[b];
            (exists p :: p in plan.trialInfo.prescriptionList && p.name == src.prescriptionName) &&
            Occurs(": ", src.machineNameAndVersion) &&
            (exists i :: 0 <= i < |src.machineEnergyName| && IsDigit(src.machineEnergyName[i])) &&
            BeamMu(plan, src).Ok?
  {
    DocBeam(plan, b);
    LookupsMeaning(plan, Beams(plan)[b]);
  }

  /** What `SuccessNeedsLookups` finds for a beam: its prescription, ": ", a digit, its monitor units. */
  predicate LookupSources(plan: SourcePlan, src: SourceBeam) {
    (exists p :: p in plan.trialInfo.prescriptionList && p.name == src.prescriptionName) &&
    Occurs(": ", src.machineNameAndVersion) &&
    (exists i :: 0 <= i < |src.machineEnergyName| && IsDigit(src.machineEnergyName[i])) &&
    BeamMu(plan, src).Ok?
  }

  /** A wedge whose classification fails whatever the wedge locals hold. */
  ghost predicate WedgeNeverFails(w: WedgeContext) {
    forall locals :: ClassifyWedge(w, locals).Ok?
  }

  /** Empty, "No Wedge" and unrecognised wedge names never fail, so plans without wedges qualify. */
  lemma NoWedgeNeverFails(w: WedgeContext)
    requires IsNoWedgeName(w.wedgeName) || !(IsDynamicName(w.wedgeName) || IsStandardName(w.wedgeName))
    ensures WedgeNeverFails(w)
  {
    forall locals {
      NoWedgeRules(w, locals);
    }
  }

  /**
   * The converse of `EarlyFaults` and `SuccessNeedsLookups` for plans whose wedges always
   * classify: a primary image, a time stamp of two fields, a gender, at least one beam and the
   * sources of every beam's lookups are enough for the translation to succeed.
   */
  lemma LookupsSuffice(plan: SourcePlan)
    requires plan.primaryImage.Some? && |Words(plan.trialInfo.writeTimeStamp)| >= 2
    requires plan.patientInfo.gender != "" && |Beams(plan)| > 0
    requires forall b :: 0 <= b < |Beams(plan)| ==> LookupSources(plan, Beams(plan)[b])
    requires forall b, k :: 0 <= b < |Beams(plan)| && 0 <= k < |ControlPoints(Beams(plan)[b])| ==>
               WedgeNeverFails(ControlPoints(Beams(plan)[b])[k].wedgeContext)
    ensures Translate(plan).Ok?
  {
    BeamLoopSucceeds(plan, 0, InitialPlanState());
  }

  lemma SourcesGiveLookups(plan: SourcePlan, src: SourceBeam)
    requires LookupSources(plan, src)
    ensures LookupBeam(plan, src).Ok?
  {
    EnergyTokenSpec(src.machineEnergyName);
  }

  lemma {:induction false} BeamLoopSucceeds(plan: SourcePlan, b: nat, ps: PlanState)
    requires b <= |Beams(plan)|
    requires |ps.patientSetups| == 2 * b && |ps.referencedBeams| == b && |ps.beams| == b && |ps.msw| >= 1
    requires forall j :: b <= j < |Beams(plan)| ==> LookupSources(plan, Beams(plan)[j])
    requires forall j, k :: b <= j < |Beams(plan)| && 0 <= k < |ControlPoints(Beams(plan)[j])| ==>
               WedgeNeverFails(ControlPoints(Beams(plan)[j])[k].wedgeContext)
    ensures RunBeams(plan, b, ps).Ok?
    decreases |Beams(plan)| - b
  {
    if b < |Beams(plan)| {
      var src := Beams(plan)[b];
      SourcesGiveLookups(plan, src);
      CpLoopSucceeds(plan, src, 0, BeamStart(plan, b, ps.msw, ps.locals));
      var next := BeamStep(plan, b, ps);
      assert next.Ok?;
      BeamLoopSucceeds(plan, b + 1, next.value);
    }
  }

  lemma {:induction false} CpLoopSucceeds(plan: SourcePlan, src: SourceBeam, i: nat, st: BeamState)
    requires i <= |ControlPoints(src)|
    requires st.meterCount <= i < |st.msw|
    requires LookupBeam(plan, src).Ok?
    requires forall k :: i <= k < |ControlPoints(src)| ==> WedgeNeverFails(ControlPoints(src)[k].wedgeContext)
    ensures RunCps(plan, src, i, st).Ok?
    decreases |ControlPoints(src)| - i
  {
    if i < |ControlPoints(src)| {
      assert WedgeNeverFails(ControlPoints(src)[i].wedgeContext);
      assert ClassifyWedge(ControlPoints(src)[i].wedgeContext, st.locals).Ok?;
      var next := CpStep(plan, src, i, st);
      assert next.Ok?;
      CpLoopSucceeds(plan, src, i + 1, next.value);
    }
  }

  // ---------------------------------------------------------------------------------------------
  // The plan-level attributes

  lemma PlanHeaderFields(plan: SourcePlan)
    requires Translate(plan).Ok?
    ensures var h := Translate(plan).value.header;
            var fields := Words(plan.trialInfo.writeTimeStamp);
            |fields| >= 2 &&
            h.studyDate == RemoveAll(fields[0], '-') && h.studyTime == RemoveAll(fields[1], ':') &&
            h.rtPlanDate == h.studyDate && h.rtPlanTime == h.studyTime &&
            '-' !in h.studyDate && ':' !in h.studyTime
    ensures var h := Translate(plan).value.header;
            |plan.patientInfo.gender| > 0 && h.patientSex == [plan.patientInfo.gender[0]] &&
            h.rtPlanLabel == plan.planInfo.planName + ".0" && h.rtPlanName == plan.planInfo.planName &&
            h.sopInstanceUID == plan.planInstanceUID && h.seriesInstanceUID == plan.planInstanceUID &&
            h.studyInstanceUID == plan.primaryImage.value.studyInstanceUID &&
            h.frameOfReferenceUID == plan.primaryImage.value.frameUID &&
            h.referencedStructureSetUID == plan.structInstanceUID &&
            h.softwareVersions == [plan.planInfo.pinnacleVersionDescription]
  {
    TranslateSteps(plan);
  }

  /**
   * The single fraction group: number 1, the fractions of the last beam's prescription, a beam
   * count one less than the number of beams, and no brachytherapy setups.
   */
  lemma FractionGroup(plan: SourcePlan)
    requires Translate(plan).Ok?
    ensures |Beams(plan)| > 0
    ensures var last := Beams(plan)[|Beams(plan)| - 1];
            FindPrescription(plan.trialInfo.prescriptionList, last.prescriptionName).Ok? &&
            Translate(plan).value.fractionGroup ==
              Some(FractionGroupTotals(
                1, FindPrescription(plan.trialInfo.prescriptionList, last.prescriptionName).value.numberOfFractions,
                |Beams(plan)| - 1, "0"))
  {
    TranslateShape(plan);
  }

  /**
   * Two Patient Setup entries are appended per beam and only the first half is filled: entry `i`
   * of the first half is numbered `i` with the plan's patient position, the second half is blank.
   */
  lemma PatientSetupsLayout(plan: SourcePlan)
    requires Translate(plan).Ok?
    ensures var setups := Translate(plan).value.patientSetups;
            |setups| == 2 * |Beams(plan)| &&
            (forall i :: 0 <= i < |Beams(plan)| ==> setups[i] == PatientSetup(plan.patientPosition, i)) &&
            (forall i :: |Beams(plan)| <= i < 2 * |Beams(plan)| ==> setups[i] == BlankSetup)
  {
    TranslateShape(plan);
  }

  /**
   * Referenced beam `b` is numbered `b`, points at the beam's dose reference point, and carries the
   * beam's meterset and dose; the meterset times normalized dose times dose per MU is the
   * prescription dose whenever the normalized dose is not zero.
   */
  lemma ReferencedBeams(plan: SourcePlan, b: nat)
    requires Translate(plan).Ok? && b < |Beams(plan)|
    ensures |Translate(plan).value.referencedBeams| == |Beams(plan)|
    ensures var ref := Translate(plan).value.referencedBeams[b];
            var src := Beams(plan)[b];
            BeamMu(plan, src).Ok? &&
            ref.referencedBeamNumber == b &&
            ref.beamDoseSpecificationPoint == Some(DoseReferencePoint(plan.points, src.prescriptionPointName, plan.isoCenter)) &&
            ref.beamMeterset == Some(BeamMu(plan, src).value.0) &&
            ref.beamDose == BeamMu(plan, src).value.1
  {
    DocBeam(plan, b);
  }

  /**
   * The meterset of a beam in terms of the beam's and the machine's own data: with a normalized
   * dose of 0 it is 0 and no dose is given; otherwise the dose per MU at calibration is not 0, the
   * meterset times the normalized dose times the dose per MU is the prescription dose, and the
   * beam dose is the prescription dose in gray.
   */
  lemma BeamMeterset(plan: SourcePlan, src: SourceBeam)
    requires BeamMu(plan, src).Ok?
    ensures MachineNameAndVersion(src.machineNameAndVersion).Ok?
    ensures var mv := MachineNameAndVersion(src.machineNameAndVersion).value;
            var dpmu := DosePerMu(plan.machineInfo, mv.0, mv.1, src.machineEnergyName);
            var mu := BeamMu(plan, src).value;
            (src.normalizedDose == 0.0 ==> mu == (0.0, None)) &&
            (src.normalizedDose != 0.0 ==>
               dpmu != 0.0 && mu.0 * (src.normalizedDose * dpmu) == src.prescriptionDose &&
               mu.1 == Some(src.prescriptionDose / 100.0))
  {
  }

  // ---------------------------------------------------------------------------------------------
  // The beams

  /** Beam `b` of the document is made from source beam `b`: numbering, names, types, machine and fixed values. */
  lemma BeamHeaders(plan: SourcePlan, b: nat)
    requires Translate(plan).Ok? && b < |Beams(plan)|
    ensures |Translate(plan).value.beams| == |Beams(plan)|
    ensures var h := Translate(plan).value.beams[b].header;
            var src := Beams(plan)[b];
            h.beamNumber == b && h.referencedPatientSetupNumber == b &&
            h.beamName == src.fieldID && h.beamDescription == src.name &&
            h.radiationType == RadiationType(src.modality) && h.beamType == BeamType(src.setBeamType) &&
            h.treatmentMachineName == PartitionHead(src.machineNameAndVersion, ':') &&
            h.sourceAxisDistance == "1000" && h.primaryDosimeterUnit == "MU" &&
            h.treatmentDeliveryType == "TREATMENT" && h.fluenceMode == "STANDARD" &&
            h.finalCumulativeMetersetWeight == "1"
  {
    DocBeam(plan, b);
  }

  /**
   * Every source control point gives one control point, in order and numbered by its position,
   * with the jaws and leaves converted from centimetres to millimetres.
   */
  lemma ControlPointsOfBeam(plan: SourcePlan, b: nat)
    requires Translate(plan).Ok? && b < |Beams(plan)|
    ensures |Translate(plan).value.beams| == |Beams(plan)|
    ensures var cps := Translate(plan).value.beams[b].controlPoints;
            var src := ControlPoints(Beams(plan)[b]);
            |cps| == |src| &&
            forall k :: 0 <= k < |src| ==>
              cps[k].ControlPoint? && cps[k].controlPointIndex == k &&
              cps[k].devicePositions ==
                [DevicePosition("ASYMX", [-src[k].rightJawPosition * 10.0, src[k].leftJawPosition * 10.0]),
                 DevicePosition("ASYMY", [-src[k].topJawPosition * 10.0, src[k].bottomJawPosition * 10.0]),
                 DevicePosition("MLCX", LeafPositions(src[k].leafPoints))]
  {
    DocBeam(plan, b);
    ExpectedPointsLayout(plan, b, PlanWeights(plan));
  }

  /**
   * Only control point 0 carries the beam-wide attributes (energy, dose rate, gantry, collimator
   * and couch angles, rotation directions, source-to-surface distance, wedge, isocenter); they
   * come from the beam and its first control point.
   */
  lemma FirstPointOnly(plan: SourcePlan, b: nat)
    requires Translate(plan).Ok? && b < |Beams(plan)|
    ensures |Translate(plan).value.beams| == |Beams(plan)|
    ensures EnergyToken(Beams(plan)[b].machineEnergyName).Some?
    ensures var cps := Translate(plan).value.beams[b].controlPoints;
            forall k :: 0 <= k < |cps| ==> cps[k].ControlPoint? && (cps[k].firstPoint.Some? <==> k == 0)
    ensures var cps := Translate(plan).value.beams[b].controlPoints;
            var src := Beams(plan)[b];
            |cps| == |ControlPoints(src)| &&
            (|cps| > 0 ==>
              var first := ControlPoints(src)[0];
              cps[0].firstPoint == Some(FirstPointFields(
                EnergyToken(src.machineEnergyName).value, DoseRate(src), GantryRotation(src.cpManager),
                first.gantry, first.collimator, "NONE", src.ssd * 10.0,
                if WedgeCount(first.wedgeContext.wedgeName) > 0 then Some([WedgePosition("IN", "1")]) else None,
                first.couch, "NONE", plan.isoCenter)))
  {
    DocBeam(plan, b);
    ExpectedFirstPoint(plan, b, PlanWeights(plan));
  }

  /**
   * Cumulative meterset weight and dose reference coefficient of every control point: 0 unless the
   * beam is step-and-shoot, and then the sum of the first (k + 1) / 2 entries of the plan-wide
   * weight list, which starts with a 0 and holds the weights of all control points of all beams.
   */
  lemma CumulativeWeights(plan: SourcePlan, b: nat)
    requires Translate(plan).Ok? && b < |Beams(plan)|
    ensures |Translate(plan).value.beams| == |Beams(plan)|
    ensures var cps := Translate(plan).value.beams[b].controlPoints;
            var src := Beams(plan)[b];
            forall k :: 0 <= k < |cps| ==>
              cps[k].ControlPoint? &&
              cps[k].cumulativeMetersetWeight == CumulativeAt(src, PlanWeights(plan), k) &&
              cps[k].referencedDoseReferences == [DoseReference(cps[k].cumulativeMetersetWeight, "1")]
    ensures var cps := Translate(plan).value.beams[b].controlPoints;
            !StepAndShoot(Beams(plan)[b].setBeamType) ==>
              forall k :: 0 <= k < |cps| ==> cps[k].ControlPoint? && cps[k].cumulativeMetersetWeight == 0.0
  {
    DocBeam(plan, b);
    ExpectedCumulative(plan, b, PlanWeights(plan));
  }

  /** The weight list is long enough for every cumulative index of every beam. */
  lemma PlanWeightsLength(plan: SourcePlan, b: nat)
    requires b < |Beams(plan)|
    ensures |PlanWeights(plan)| >= 1 + |ControlPoints(Beams(plan)[b])|
  {
    AllWeightsPrefix(Beams(plan), b + 1);
    AllWeightsStep(Beams(plan), b);
  }

  /**
   * In a step-and-shoot beam the cumulative weight stays the same from an odd control point to
   * the next even one and grows by one entry of the plan-wide list at every odd control point.
   * The list is read from its start for every beam, so all step-and-shoot beams of a plan share
   * the same cumulative weights.
   */
  lemma StepAndShootPairs(plan: SourcePlan, b: nat, k: nat)
    requires b < |Beams(plan)| && StepAndShoot(Beams(plan)[b].setBeamType)
    requires 0 < k < |ControlPoints(Beams(plan)[b])|
    ensures var src := Beams(plan)[b];
            var w := PlanWeights(plan);
            (k % 2 == 0 ==> CumulativeAt(src, w, k) == CumulativeAt(src, w, k - 1)) &&
            k / 2 < |w| &&
            (k % 2 == 1 ==> CumulativeAt(src, w, k) == CumulativeAt(src, w, k - 1) + w[k / 2])
  {
    PlanWeightsLength(plan, b);
    if k % 2 == 1 {
      SumPrefix(PlanWeights(plan), k / 2);
    }
  }

  lemma SharedCumulative(plan: SourcePlan, b1: nat, b2: nat, k: nat)
    requires b1 < |Beams(plan)| && b2 < |Beams(plan)|
    requires StepAndShoot(Beams(plan)[b1].setBeamType) && StepAndShoot(Beams(plan)[b2].setBeamType)
    requires k < |ControlPoints(Beams(plan)[b1])| && k < |ControlPoints(Beams(plan)[b2])|
    ensures CumulativeAt(Beams(plan)[b1], PlanWeights(plan), k) == CumulativeAt(Beams(plan)[b2], PlanWeights(plan), k)
  {
  }

  /** With non-negative weights the cumulative weight never decreases along a beam. */
  lemma {:induction false} CumulativeMonotone(plan: SourcePlan, b: nat, k: nat)
    requires b < |Beams(plan)| && k < |ControlPoints(Beams(plan)[b])|
    requires forall i :: 0 <= i < |PlanWeights(plan)| ==> PlanWeights(plan)[i] >= 0.0
    ensures forall j :: 0 <= j <= k ==>
              CumulativeAt(Beams(plan)[b], PlanWeights(plan), j) <= CumulativeAt(Beams(plan)[b], PlanWeights(plan), k)
    decreases k
  {
    if k > 0 {
      CumulativeMonotone(plan, b, k - 1);
      if StepAndShoot(Beams(plan)[b].setBeamType) {
        StepAndShootPairs(plan, b, k);
      }
    }
  }

  /**
   * The Beam Limiting Device Sequence is set inside the control-point loop only: absent for a beam
   * without control points, otherwise the three devices sized by the last control point's leaves.
   */
  lemma LimitingDevicesOfBeam(plan: SourcePlan, b: nat)
    requires Translate(plan).Ok? && b < |Beams(plan)|
    ensures |Translate(plan).value.beams| == |Beams(plan)|
    ensures var beam := Translate(plan).value.beams[b];
            var cps := ControlPoints(Beams(plan)[b]);
            (beam.limitingDevices.None? <==> |cps| == 0) &&
            (|cps| > 0 ==>
               beam.limitingDevices == Some([
                 LimitingDevice("ASYMX", 1.0, None),
                 LimitingDevice("ASYMY", 1.0, None),
                 LimitingDevice("MLCX", |cps[|cps| - 1].leafPoints| as real / 2.0, Some(MlcBoundaries()))]))
  {
    DocBeam(plan, b);
    ExpectedDevices(plan, b, PlanWeights(plan));
  }
}
