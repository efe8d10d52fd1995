/**
 * The pieces of the DICOM RT Plan object that the translator fills in (RT General Plan, RT Patient
 * Setup, RT Fraction Scheme and RT Beams modules of DICOM PS3.3, sections C.8.8.9, C.8.8.12,
 * C.8.8.13 and C.8.8.14), as values, and the ways a translation can end without a file.
 */
module RtPlanTypes {
  import opened Wrappers
  import opened Pinnacle

  /**
   * Why the modelled operations write no RT Plan file. The first two are early returns, the rest
   * the Python exceptions of the modelled operations. The debug dump to a JSON file and the float
   * parsing of the leaf strings are not modelled, so their exceptions are not here.
   */
  datatype Fault =
    | NoPrimaryImage          // return at the primary image check
    | NoBeams                 // return when the trial's beam list is empty
    | MalformedTimeStamp      // WriteTimeStamp.split() has fewer than two fields
    | EmptyGender             // Gender[0] of an empty string
    | UnboundWedgeName        // wedgename read before any assignment
    | UnboundNumberInName     // numberinname read before any assignment
    | MissingPrescription     // [...][0] of an empty prescription match list
    | MalformedMachineName    // MachineNameAndVersion.split(": ")[1] does not exist
    | NoEnergyToken           // re.findall(...)[0] of an empty match list
    | DivisionByZero          // NormalizedDose * DosePerMuAtCalibration is zero
    | ControlPointOutOfRange  // ControlPointSequence[ctrlpt_index] beyond the list

  /** An entry of the Patient Setup Sequence; `BlankSetup` is an appended, never filled dataset. */
  datatype PatientSetup = BlankSetup | PatientSetup(patientPosition: string, patientSetupNumber: int)

  /** An entry of the fraction group's Referenced Beam Sequence. */
  datatype ReferencedBeam = ReferencedBeam(
    referencedBeamNumber: int,
    beamDoseSpecificationPoint: Option<Point>,
    beamMeterset: Option<real>,
    beamDose: Option<real>)

  /** An entry of the Beam Limiting Device Sequence; the boundaries are the decimal strings' values. */
  datatype LimitingDevice = LimitingDevice(
    rtBeamLimitingDeviceType: string,
    numberOfLeafJawPairs: real,
    leafPositionBoundaries: Option<seq<int>>)

  datatype DevicePosition = DevicePosition(rtBeamLimitingDeviceType: string, leafJawPositions: seq<real>)

  datatype DoseReference = DoseReference(cumulativeDoseReferenceCoefficient: real, referencedDoseReferenceNumber: string)

  datatype WedgePosition = WedgePosition(wedgePosition: string, referencedWedgeNumber: string)

  /** The attributes that only the first control point of a beam carries. */
  datatype FirstPointFields = FirstPointFields(
    nominalBeamEnergy: string,
    doseRateSet: real,
    gantryRotationDirection: string,
    gantryAngle: real,
    beamLimitingDeviceAngle: real,
    beamLimitingDeviceRotationDirection: string,
    sourceToSurfaceDistance: real,
    wedgePositionSequence: Option<seq<WedgePosition>>,
    patientSupportAngle: real,
    patientSupportRotationDirection: string,
    isocenterPosition: Point)

  /** An entry of the Control Point Sequence; `BlankControlPoint` is a freshly appended dataset. */
  datatype ControlPoint =
    | BlankControlPoint
    | ControlPoint(
        controlPointIndex: int,
        cumulativeMetersetWeight: real,
        referencedDoseReferences: seq<DoseReference>,
        devicePositions: seq<DevicePosition>,
        firstPoint: Option<FirstPointFields>)

  /** The attributes of a Beam Sequence entry that are set once, before its control points. */
  datatype BeamHeader = BeamHeader(
    beamNumber: int,
    treatmentDeliveryType: string,
    referencedPatientSetupNumber: int,
    sourceAxisDistance: string,
    finalCumulativeMetersetWeight: string,
    primaryDosimeterUnit: string,
    fluenceMode: string,
    beamName: string,
    beamDescription: string,
    radiationType: string,
    beamType: string,
    treatmentMachineName: string)

  /** A Beam Sequence entry. `limitingDevices` stays `None` for a beam without control points. */
  datatype BeamRecord = BeamRecord(
    header: BeamHeader,
    controlPoints: seq<ControlPoint>,
    limitingDevices: Option<seq<LimitingDevice>>)

  /** The scalar attributes of the single fraction group, set after the beam loop. */
  datatype FractionGroupTotals = FractionGroupTotals(
    fractionGroupNumber: int,
    numberOfFractionsPlanned: int,
    numberOfBeams: int,
    numberOfBrachyApplicationSetups: string)

  /** The top-level attributes set before the beam loop. */
  datatype PlanHeader = PlanHeader(
    specificCharacterSet: string,
    sopInstanceUID: string,
    studyDate: string,
    studyTime: string,
    accessionNumber: string,
    operatorsName: string,
    manufacturersModelName: string,
    softwareVersions: seq<string>,
    physiciansOfRecord: string,
    patientName: string,
    patientBirthDate: string,
    patientID: string,
    patientSex: string,
    studyInstanceUID: string,
    seriesInstanceUID: string,
    studyID: string,
    frameOfReferenceUID: string,
    positionReferenceIndicator: string,
    rtPlanLabel: string,
    rtPlanName: string,
    rtPlanDescription: string,
    rtPlanDate: string,
    rtPlanTime: string,
    rtPlanGeometry: string,
    approvalStatus: string,
    referencedStructureSetUID: string)

  /** The whole document that is written to the RT Plan file. */
  datatype PlanDocument = PlanDocument(
    header: PlanHeader,
    fractionGroup: Option<FractionGroupTotals>,
    referencedBeams: seq<ReferencedBeam>,
    beams: seq<BeamRecord>,
    patientSetups: seq<PatientSetup>)
}
