/**
 * The Pinnacle plan as the translator reads it: the trial's beams with their control-point
 * manager, the prescriptions, the machine's calibration data, the named points and the isocenter.
 * Everything here is read-only input.
 */
module Pinnacle {
  import opened Wrappers

  /** A coordinate triple as the plan object's point conversion hands it over. */
  datatype Point = Point(x: real, y: real, z: real)

  /**
   * The values of `MLCLeafPositions.RawData["Points[]"]` after the comma split and `float` parse.
   * `str.split(",")` always yields at least one field, so the list is never empty.
   */
  type LeafPoints = s: seq<real> | |s| > 0 witness [0.0]

  datatype WedgeContext = WedgeContext(wedgeName: string, orientation: string, angle: int)

  datatype SourceControlPoint = SourceControlPoint(
    weight: real,
    rightJawPosition: real,
    leftJawPosition: real,
    topJawPosition: real,
    bottomJawPosition: real,
    leafPoints: LeafPoints,
    gantry: real,
    collimator: real,
    couch: real,
    wedgeContext: WedgeContext)

  /**
   * The control-point manager. `gantryIsCCW`/`gantryIsCW` are `None` when the key is absent.
   * `numberOfControlPoints` is the declared count; the translator iterates over the list instead.
   */
  datatype ControlPointManager = ControlPointManager(
    numberOfControlPoints: int,
    controlPointList: seq<SourceControlPoint>,
    gantryIsCCW: Option<int>,
    gantryIsCW: Option<int>)

  datatype SourceBeam = SourceBeam(
    name: string,
    fieldID: string,
    modality: string,
    setBeamType: string,
    machineNameAndVersion: string,
    machineEnergyName: string,
    prescriptionName: string,
    prescriptionPointName: string,
    doseRate: Option<real>,
    ssd: real,
    cpManager: ControlPointManager,
    prescriptionDose: real,
    normalizedDose: real)

  datatype Prescription = Prescription(name: string, numberOfFractions: int)

  datatype PhotonEnergy = PhotonEnergy(name: string, dosePerMuAtCalibration: real)

  datatype MachineInfo = MachineInfo(name: string, versionTimestamp: string, photonEnergyList: seq<PhotonEnergy>)

  /** A named point of the plan together with what the plan's point conversion makes of it. */
  datatype NamedPoint = NamedPoint(name: string, converted: Point)

  datatype TrialInfo = TrialInfo(writeTimeStamp: string, beamList: seq<SourceBeam>, prescriptionList: seq<Prescription>)

  datatype ImageInfo = ImageInfo(studyInstanceUID: string, frameUID: string, studyID: string)

  datatype PatientInfo = PatientInfo(
    fullName: string,
    dob: string,
    medicalRecordNumber: string,
    gender: string,
    radiationOncologist: string,
    comment: string)

  datatype PlanInfo = PlanInfo(planName: string, writeTimeStamp: string, toolType: string, pinnacleVersionDescription: string)

  datatype SourcePlan = SourcePlan(
    primaryImage: Option<ImageInfo>,
    patientInfo: PatientInfo,
    planInfo: PlanInfo,
    trialInfo: TrialInfo,
    machineInfo: MachineInfo,
    points: seq<NamedPoint>,
    isoCenter: Point,
    patientPosition: string,
    planInstanceUID: string,
    structInstanceUID: string)

  function Beams(plan: SourcePlan): seq<SourceBeam> {
    plan.trialInfo.beamList
  }

  function ControlPoints(beam: SourceBeam): seq<SourceControlPoint> {
    beam.cpManager.controlPointList
  }
}
