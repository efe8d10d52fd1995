/**
 * The attribute computations of the translator that look a value up or derive it from the plan:
 * radiation and beam type, machine name and version, prescription, dose per monitor unit, dose
 * reference point, monitor units, gantry rotation, study date and time, and Python's `list_get`.
 */
module BeamAttributes {
  import opened Wrappers
  import opened Text
  import opened Pinnacle
  import opened RtPlanTypes

  /** `RadiationType` from the beam's modality: a substring test, "Photons" checked first. */
  function RadiationType(modality: string): (r: string)
    ensures r == "PHOTON" <==> Occurs("Photons", modality)
    ensures r == "ELECTRON" <==> !Occurs("Photons", modality) && Occurs("Electrons", modality)
    ensures r == "" <==> !Occurs("Photons", modality) && !Occurs("Electrons", modality)
  {
    if Occurs("Photons", modality) then "PHOTON"
    else if Occurs("Electrons", modality) then "ELECTRON"
    else ""
  }

  /** `BeamType`: the upper-cased set beam type when it contains "STATIC", otherwise "DYNAMIC". */
  function BeamType(setBeamType: string): (r: string)
    ensures Occurs("STATIC", r) <==> Occurs("STATIC", Upper(setBeamType))
    ensures Occurs("STATIC", r) ==> r == Upper(setBeamType)
    ensures !Occurs("STATIC", r) ==> r == "DYNAMIC"
  {
    if Occurs("STATIC", Upper(setBeamType)) then Upper(setBeamType)
    else
      AbsentLetter("STATIC", "DYNAMIC", 0);
      "DYNAMIC"
  }

  /** A beam is delivered step-and-shoot when its upper-cased set beam type names both words. */
  predicate StepAndShoot(setBeamType: string) {
    Occurs("STEP", Upper(setBeamType)) && Occurs("SHOOT", Upper(setBeamType))
  }

  /** Both beam-type tests read the set beam type through `upper()`, so its letter case does not matter. */
  lemma BeamTypeIgnoresCase(setBeamType: string)
    ensures BeamType(Upper(setBeamType)) == BeamType(setBeamType)
    ensures StepAndShoot(Upper(setBeamType)) == StepAndShoot(setBeamType)
  {
    var u := Upper(setBeamType);
    assert Upper(u) == u by {
      assert forall i :: 0 <= i < |u| ==> UpperChar(u[i]) == u[i];
    }
  }

  /** A step-and-shoot beam is sent as "DYNAMIC", and a "Static" one as "STATIC", not step-and-shoot. */
  lemma BeamTypeExamples()
    ensures StepAndShoot("Step & Shoot MLC") && BeamType("Step & Shoot MLC") == "DYNAMIC"
    ensures !StepAndShoot("Static") && BeamType("Static") == "STATIC"
  {
    StepAndShootText();
    StaticText();
  }

  /** The upper-cased "Step & Shoot MLC" names STEP and SHOOT but not STATIC. */
  lemma StepAndShootText()
    ensures Upper("Step & Shoot MLC") == "STEP & SHOOT MLC"
    ensures Occurs("STEP", "STEP & SHOOT MLC") && Occurs("SHOOT", "STEP & SHOOT MLC")
    ensures !Occurs("STATIC", "STEP & SHOOT MLC")
  {
    var u := "STEP & SHOOT MLC";
    assert OccursAt("STEP", u, 0) && OccursAt("SHOOT", u, 7);
    assert forall k :: 0 <= k < |u| ==> u[k] != 'A';
    AbsentLetter("STATIC", u, 2);
  }

  /** The upper-cased "Static" names STATIC but not STEP. */
  lemma StaticText()
    ensures Upper("Static") == "STATIC"
    ensures Occurs("STATIC", "STATIC") && !Occurs("STEP", "STATIC")
  {
    var v := "STATIC";
    assert OccursAt("STATIC", v, 0);
    assert forall k :: 0 <= k < |v| ==> v[k] != 'E';
    AbsentLetter("STEP", v, 2);
  }

  /** `TreatmentMachineName`: everything before the first ':' (`str.partition(":")[0]`). */
  function TreatmentMachineName(machineNameAndVersion: string): string {
    PartitionHead(machineNameAndVersion, ':')
  }

  /**
   * The machine name and version: the first two fields of `split(": ")`. Python raises
   * `IndexError` when there is no second field.
   */
  function MachineNameAndVersion(machineNameAndVersion: string): (r: Result<(string, string), Fault>)
    ensures r.Err? <==> !Occurs(": ", machineNameAndVersion)
    ensures r.Err? ==> r.error == MalformedMachineName
    ensures r.Ok? ==> OccursAt(r.value.0 + ": " + r.value.1, machineNameAndVersion, 0)
    ensures r.Ok? ==> NoOccurrenceBefore(": ", machineNameAndVersion, |r.value.0|)
    ensures r.Ok? && |r.value.0| + 2 <= |machineNameAndVersion| ==>
              NoOccurrenceBefore(": ", machineNameAndVersion[|r.value.0| + 2..], |r.value.1|)
    ensures r.Ok? && |r.value.0| + 2 + |r.value.1| < |machineNameAndVersion| ==>
              OccursAt(": ", machineNameAndVersion[|r.value.0| + 2..], |r.value.1|)
  {
    match FirstTwoFields(machineNameAndVersion, ": ")
    case None => Err(MalformedMachineName)
    case Some(fields) => Ok(fields)
  }

  /**
   * The two readings of the machine string agree as far as they can: the treatment machine name
   * is a prefix of the split's machine name, and equal to it when that name holds no ':'.
   */
  lemma MachineNamesAgree(m: string)
    requires MachineNameAndVersion(m).Ok?
    ensures var name := MachineNameAndVersion(m).value.0;
            |TreatmentMachineName(m)| <= |name| && TreatmentMachineName(m) == name[..|TreatmentMachineName(m)|]
    ensures var name := MachineNameAndVersion(m).value.0;
            ':' !in name ==> TreatmentMachineName(m) == name
  {
    var name := MachineNameAndVersion(m).value.0;
    var head := TreatmentMachineName(m);
    var whole := name + ": " + MachineNameAndVersion(m).value.1;
    assert m[..|whole|] == whole;
    assert m[|name|] == whole[|name|] == ':';
    assert forall k :: 0 <= k < |head| ==> m[k] == head[k] && m[k] != ':';
    assert forall k :: 0 <= k < |head| ==> head[k] == m[k] == name[k];
  }

  /**
   * `GantryRotationDirection`: "CC" when `GantryIsCCW` is 1, then overridden by "CW" when
   * `GantryIsCW` is 1; "NONE" otherwise, including when a key is absent.
   */
  function GantryRotation(cm: ControlPointManager): (r: string)
    ensures r == "CW" <==> cm.gantryIsCW == Some(1)
    ensures r == "CC" <==> cm.gantryIsCW != Some(1) && cm.gantryIsCCW == Some(1)
    ensures r == "NONE" <==> cm.gantryIsCW != Some(1) && cm.gantryIsCCW != Some(1)
  {
    var afterCcw := if cm.gantryIsCCW == Some(1) then "CC" else "NONE";
    if cm.gantryIsCW == Some(1) then "CW" else afterCcw
  }

  /** `DoseRateSet`: the beam's dose rate, 0 when the beam has none. */
  function DoseRate(beam: SourceBeam): (r: real)
    ensures beam.doseRate.None? ==> r == 0.0
    ensures beam.doseRate.Some? ==> r == beam.doseRate.value
  {
    if beam.doseRate.Some? then beam.doseRate.value else 0.0
  }

  /** The prescriptions called `name`, in list order (the list comprehension). */
  function PrescriptionsNamed(ps: seq<Prescription>, name: string): (r: seq<Prescription>)
    ensures forall p :: p in r <==> p in ps && p.name == name
  {
    if |ps| == 0 then []
    else (if ps[0].name == name then [ps[0]] else []) + PrescriptionsNamed(ps[1..], name)
  }

  /** The first prescription called `name`; Python raises `IndexError` when there is none. */
  function FindPrescription(ps: seq<Prescription>, name: string): (r: Result<Prescription, Fault>)
    ensures r.Ok? ==> r.value in ps && r.value.name == name
    ensures r.Err? <==> forall p :: p in ps ==> p.name != name
    ensures r.Err? ==> r.error == MissingPrescription
  {
    var matching := PrescriptionsNamed(ps, name);
    if |matching| == 0 then Err(MissingPrescription) else Ok(matching[0])
  }

  /** When several prescriptions share the name, the earliest one is used. */
  lemma {:induction false} FindPrescriptionFirst(ps: seq<Prescription>, name: string, i: nat)
    requires i < |ps| && ps[i].name == name
    requires forall j :: 0 <= j < i ==> ps[j].name != name
    ensures FindPrescription(ps, name) == Ok(ps[i])
    decreases i
  {
    if i > 0 {
      FindPrescriptionFirst(ps[1..], name, i - 1);
    }
  }

  /** The `DosePerMuAtCalibration` of the last energy called `energyName`, `fallback` when none is. */
  function LastDosePerMu(energies: seq<PhotonEnergy>, energyName: string, fallback: real): real
    decreases |energies|
  {
    if |energies| == 0 then fallback
    else if energies[|energies| - 1].name == energyName then energies[|energies| - 1].dosePerMuAtCalibration
    else LastDosePerMu(energies[..|energies| - 1], energyName, fallback)
  }

  /**
   * The beam's dose per monitor unit at calibration: -1 unless the machine's name and version
   * timestamp are those of the beam, and then the last matching photon energy's value.
   */
  function DosePerMu(machine: MachineInfo, machineName: string, machineVersion: string, energyName: string): real {
    if machine.name == machineName && machine.versionTimestamp == machineVersion then
      LastDosePerMu(machine.photonEnergyList, energyName, -1.0)
    else -1.0
  }

  /** With no energy of that name the result is the fallback. */
  lemma {:induction false} LastDosePerMuAbsent(energies: seq<PhotonEnergy>, energyName: string, fallback: real)
    requires forall k :: 0 <= k < |energies| ==> energies[k].name != energyName
    ensures LastDosePerMu(energies, energyName, fallback) == fallback
    decreases |energies|
  {
    if |energies| > 0 {
      LastDosePerMuAbsent(energies[..|energies| - 1], energyName, fallback);
    }
  }

  /** Otherwise it is the value of the last energy with that name. */
  lemma {:induction false} LastDosePerMuLast(energies: seq<PhotonEnergy>, energyName: string, fallback: real, i: nat)
    requires i < |energies| && energies[i].name == energyName
    requires forall k :: i < k < |energies| ==> energies[k].name != energyName
    ensures LastDosePerMu(energies, energyName, fallback) == energies[i].dosePerMuAtCalibration
    decreases |energies|
  {
    if i < |energies| - 1 {
      LastDosePerMuLast(energies[..|energies| - 1], energyName, fallback, i);
    }
  }

  /** The energy loop of the translator. */
  method DosePerMuAtCalibration(machine: MachineInfo, machineName: string, machineVersion: string, energyName: string)
    returns (dosePerMuAtCal: real)
    ensures dosePerMuAtCal == DosePerMu(machine, machineName, machineVersion, energyName)
  {
    dosePerMuAtCal := -1.0;
    if machine.name == machineName && machine.versionTimestamp == machineVersion {
      var energies := machine.photonEnergyList;
      var k := 0;
      while k < |energies|
        invariant 0 <= k <= |energies|
        invariant dosePerMuAtCal == LastDosePerMu(energies[..k], energyName, -1.0)
      {
        assert energies[..k + 1][..k] == energies[..k];
        if energies[k].name == energyName {
          dosePerMuAtCal := energies[k].dosePerMuAtCalibration;
        }
        k := k + 1;
      }
      assert energies[..k] == energies;
    }
  }

  /** The converted position of the last named point called `name`, if any. */
  function LastNamedPoint(points: seq<NamedPoint>, name: string): Option<Point>
    decreases |points|
  {
    if |points| == 0 then None
    else if points[|points| - 1].name == name then Some(points[|points| - 1].converted)
    else LastNamedPoint(points[..|points| - 1], name)
  }

  /** `BeamDoseSpecificationPoint`: the last point named as the beam's prescription point, else the isocenter. */
  function DoseReferencePoint(points: seq<NamedPoint>, name: string, isoCenter: Point): Point {
    match LastNamedPoint(points, name)
    case Some(p) => p
    case None => isoCenter
  }

  /** No point is found exactly when no point has the name. */
  lemma {:induction false} LastNamedPointAbsent(points: seq<NamedPoint>, name: string)
    ensures LastNamedPoint(points, name).None? <==> forall k :: 0 <= k < |points| ==> points[k].name != name
    decreases |points|
  {
    if |points| > 0 {
      var front := points[..|points| - 1];
      LastNamedPointAbsent(front, name);
      assert forall k :: 0 <= k < |front| ==> front[k] == points[k];
    }
  }

  /** The point found is that of the last point with the name. */
  lemma {:induction false} LastNamedPointLast(points: seq<NamedPoint>, name: string, i: nat)
    requires i < |points| && points[i].name == name
    requires forall k :: i < k < |points| ==> points[k].name != name
    ensures LastNamedPoint(points, name) == Some(points[i].converted)
    decreases |points|
  {
    if i < |points| - 1 {
      LastNamedPointLast(points[..|points| - 1], name, i);
    }
  }

  /** The named-point loop of the translator, with the isocenter fallback after it. */
  method FindDoseReferencePoint(points: seq<NamedPoint>, name: string, isoCenter: Point) returns (doseRefPt: Point)
    ensures doseRefPt == DoseReferencePoint(points, name, isoCenter)
  {
    var found: Option<Point> := None;
    var k := 0;
    while k < |points|
      invariant 0 <= k <= |points|
      invariant found == LastNamedPoint(points[..k], name)
    {
      assert points[..k + 1][..k] == points[..k];
      if points[k].name == name {
        found := Some(points[k].converted);
      }
      k := k + 1;
    }
    assert points[..k] == points;
    if found.None? {
      doseRefPt := isoCenter;
    } else {
      doseRefPt := found.value;
    }
  }

  /**
   * Beam meterset and beam dose from the prescription dose, the normalized dose and the dose per
   * monitor unit. A zero normalized dose gives a meterset of 0 and leaves the beam dose unset;
   * otherwise the dose is set first and then the division raises `ZeroDivisionError` when the
   * dose per monitor unit is 0.
   */
  function BeamMonitorUnits(prescriptionDose: real, normalizedDose: real, dosePerMu: real): (r: Result<(real, Option<real>), Fault>)
    ensures r.Err? <==> normalizedDose != 0.0 && dosePerMu == 0.0
    ensures r.Err? ==> r.error == DivisionByZero
    ensures r.Ok? && normalizedDose == 0.0 ==> r.value == (0.0, None)
    ensures r.Ok? && normalizedDose != 0.0 ==>
              r.value.0 * (normalizedDose * dosePerMu) == prescriptionDose &&
              r.value.1 == Some(prescriptionDose / 100.0)
  {
    if normalizedDose == 0.0 then Ok((0.0, None))
    else if normalizedDose * dosePerMu == 0.0 then Err(DivisionByZero)
    else Ok((prescriptionDose / (normalizedDose * dosePerMu), Some(prescriptionDose / 100.0)))
  }

  /** Writes a meterset (and a dose, when there is one) into a Referenced Beam Sequence entry. */
  function ApplyMonitorUnits(ref: ReferencedBeam, mu: (real, Option<real>)): ReferencedBeam {
    ref.(beamMeterset := Some(mu.0), beamDose := if mu.1.Some? then mu.1 else ref.beamDose)
  }

  /** Python's `l[idx]` with negative indices counting from the end, and `default` on `IndexError`. */
  function ListGet<T>(l: seq<T>, idx: int, default: T): (r: T)
    ensures r == default || r in l
    ensures 0 <= idx < |l| ==> r == l[idx]
    ensures idx < -|l| || |l| <= idx ==> r == default
  {
    if 0 <= idx < |l| then l[idx]
    else if -|l| <= idx < 0 then l[|l| + idx]
    else default
  }

  /** A negative index names the same element as that index plus the length. */
  lemma ListGetNegative<T>(l: seq<T>, idx: int, default: T)
    requires 0 <= idx < |l|
    ensures ListGet(l, idx - |l|, default) == ListGet(l, idx, default) == l[idx]
  {
  }

  /**
   * `StudyDate` and `StudyTime` from a write timestamp: the first two whitespace-separated fields
   * with every '-' and every ':' removed. Python raises `IndexError` with fewer than two fields.
   */
  function StudyDateTime(stamp: string): (r: Result<(string, string), Fault>)
    ensures r.Err? <==> |Words(stamp)| < 2
    ensures r.Err? ==> r.error == MalformedTimeStamp
    ensures r.Ok? ==> '-' !in r.value.0 && ':' !in r.value.1
    ensures r.Ok? ==> r.value.0 == RemoveAll(Words(stamp)[0], '-') && r.value.1 == RemoveAll(Words(stamp)[1], ':')
  {
    var fields := Words(stamp);
    if |fields| < 2 then Err(MalformedTimeStamp)
    else Ok((RemoveAll(fields[0], '-'), RemoveAll(fields[1], ':')))
  }

  /** Example: a Pinnacle write time stamp gives the DICOM study date and time. */
  lemma StudyDateTimeExample()
    ensures StudyDateTime("2020-01-02 10:11:12") == Ok(("20200102", "101112"))
  {
    StampWords();
    DateDigits();
    TimeDigits();
  }

  lemma StampWords()
    ensures Words("2020-01-02 10:11:12") == ["2020-01-02", "10:11:12"]
  {
    var date, time := "2020-01-02", "10:11:12";
    assert "2020-01-02 10:11:12" == date + " " + time;
    WordsOfToken(time);
    WordsSplit(date, " ", time);
  }

  lemma DateDigits()
    ensures RemoveAll("2020-01-02", '-') == "20200102"
  {
    assert "01-02" == "01" + "-" + "02";
    assert "2020-01-02" == "2020" + "-" + "01-02";
    RemoveSeparator("01", '-', "02");
    RemoveSeparator("2020", '-', "01-02");
    RemoveAllAbsent("02", '-');
    assert "2020" + ("01" + "02") == "20200102";
  }

  lemma TimeDigits()
    ensures RemoveAll("10:11:12", ':') == "101112"
  {
    assert "11:12" == "11" + ":" + "12";
    assert "10:11:12" == "10" + ":" + "11:12";
    RemoveSeparator("11", ':', "12");
    RemoveSeparator("10", ':', "11:12");
    RemoveAllAbsent("12", ':');
    assert "10" + ("11" + "12") == "101112";
  }

  /** Removing a separator after a separator-free part keeps the part and goes on behind it. */
  lemma RemoveSeparator(x: string, c: char, y: string)
    requires c !in x
    ensures RemoveAll(x + [c] + y, c) == x + RemoveAll(y, c)
  {
    RemoveAllConcat(x + [c], y, c);
    RemoveAllConcat(x, [c], c);
    RemoveAllAbsent(x, c);
    assert [c][1..] == [];
    assert RemoveAll([c], c) == [];
    assert RemoveAll(x + [c], c) == x;
  }

  /** `PatientSex`: the first character of the gender; Python raises `IndexError` when it is empty. */
  function PatientSex(gender: string): (r: Result<string, Fault>)
    ensures r.Err? <==> gender == ""
    ensures r.Ok? ==> |r.value| == 1 && r.value[0] == gender[0]
  {
    if |gender| == 0 then Err(EmptyGender) else Ok(gender[..1])
  }

  /** `RTPlanLabel`: the plan name with ".0" appended. */
  function RtPlanLabel(planName: string): (r: string)
    ensures |r| == |planName| + 2 && r[..|planName|] == planName && r[|planName|..] == ".0"
  {
    planName + ".0"
  }
}
