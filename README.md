# Pinnacle to DICOM RT Plan translator

This project models the RT Plan exporter of pymedphys's experimental Pinnacle module
(`lib/pymedphys/_experimental/pinnacle/rtplan.py`), in Dafny. The exporter is made of:

- `convert_plan`, which reads a Pinnacle plan (trial, beams, control-point managers,
  prescriptions, machine calibration data, named points);
- `mapBeamDeviceLimitingSequence` and `mapBeamControlPointSequence`, which fill a Beam Sequence
  entry;
- `list_get`.

Together they fill the RT General Plan, RT Patient Setup, RT Fraction Scheme and RT Beams modules
of DICOM PS3.3, sections C.8.8.9, C.8.8.12, C.8.8.13 and C.8.8.14.

**Layout.**

- `pinnacle.dfy`: the plan as read-only datatypes.
- `rtplan_types.dfy`: the RT Plan attributes the exporter writes, and `Fault`. A `Fault` names
  each way the modelled operations end without a file: the two early returns of `convert_plan`,
  and the exceptions of the modelled operations (the debug dump and the leaf-string parsing are
  not modelled; see "Left out").
- `text.dfy`: the string operations the exporter uses:
  - `in`, `upper`, `split()` and `split(": ")`;
  - `partition(":")[0]` and `replace`;
  - the `re.findall` energy pattern;
  - integer formatting.
- `wedge.dfy`: the wedge classification. The locals `wedgename` and `numberinname` persist across
  control points and beams, and un-assigned reads fail.
- `beam_attributes.dfy`: the per-beam attribute rules and lookups, `list_get`, and the
  date/time/sex/label rules of the plan header.
- `control_points.dfy`:
  - the jaw and leaf conversion, and the leaf-bank loop;
  - the fixed MLC boundaries and `mapBeamDeviceLimitingSequence`;
  - `mapBeamControlPointSequence`, which works on a `BeamDataset` object.
- `translation.dfy`: `Translate`, a functional specification of `convert_plan`. It is a fold over
  beams and control points, with the plan-wide `metersetweight` list, the per-beam
  `currentmeterset`/`metercount` and the wedge locals threaded through it. It fails exactly
  where, and in the order in which, the Python code returns or raises.
- `translation_shape.dfy` and `plan_properties.dfy`: the properties of the translated document.
  They give closed forms of every beam and referenced beam, then plan-level properties.
- `conversion.dfy`: `convert_plan` as an imperative program. A `PlanDataset` object has growing
  sequences, each Beam Sequence entry is filled in place, and the loop variables are updated
  control point by control point. The methods are proved to compute exactly `Translate`.

**Behaviour of the code a reader may not expect (the model follows the code):**

- Gantry angle, collimator angle, couch angle, isocenter, energy, dose rate and SSD are written
  only on control point 0, not on every control point.
- The MLC leaf boundaries are a fixed 61-entry list, not derived from calibration data.
- The dynamic-wedge test is case-sensitive ("edw" or "EDW" only).
- A beam with no control points is not skipped. It gets a Beam Sequence entry without control
  points and without a Beam Limiting Device Sequence, and its meterset still comes from the
  post-loop block.
- `NumberOfBeams` is the last `enumerate` index, which is one less than the number of beams.
- `metersetweight` is one list for the whole plan, starting with 0, while `metercount` restarts
  at 0 for every beam. So the cumulative weights of every step-and-shoot beam are read from the
  start of the list. All step-and-shoot beams of a plan therefore share the same cumulative
  weights: `StepAndShootPairs` and `SharedCumulative` below.

## Model

| member | source | states |
|---|---|---|
| `PlanConversion.ConvertPlan` | lib/pymedphys/_experimental/pinnacle/rtplan.py:57-1095 | The document `convert_plan` saves, or the fault that stops it, is exactly `Translate(plan)`; every property below therefore holds of the saved document |
| `PlanConversion.ConvertBeams` | lib/pymedphys/_experimental/pinnacle/rtplan.py:156-165 | The beam loop, started on empty sequences with `metersetweight = [0]`, fails where the fold `RunBeams` fails with the same fault, and otherwise leaves the dataset's sequences and loop variables as `RunBeams` gives them |
| `PlanConversion.ConvertBeam` | lib/pymedphys/_experimental/pinnacle/rtplan.py:165-533 | One beam iteration on the dataset equals the fold's step `BeamStep`: same fault, or same patient setups, referenced beams, beams, weight list, wedge locals and number of fractions |
| `PlanConversion.ConvertControlPoint` | lib/pymedphys/_experimental/pinnacle/rtplan.py:251-467 | One control-point iteration on the Beam Sequence entry equals the fold's step `CpStep`: the wedge failure or the lookup failure it raises, or the same entry and loop variables |
| `PlanConversion.FillControlPoint` | lib/pymedphys/_experimental/pinnacle/rtplan.py:253-467 | Once the wedge and the lookups are known, the in-place updates of the iteration (weight appended, leaf banks, meterset written, devices replaced, odd step-and-shoot advance, point appended) give exactly `Advance` |
| `PlanConversion.LookUpBeam` | lib/pymedphys/_experimental/pinnacle/rtplan.py:351-395 | The repeated per-beam lookups (prescription, machine split, energy token, dose per MU, monitor units) fail at the first failing one and otherwise return its fractions, energy and meterset/dose, as `LookupBeam` says |
| `PlanConversion.CpStepBy` | lib/pymedphys/_experimental/pinnacle/rtplan.py:281-467 | With the wedge classified and the lookups made, the control-point step succeeds with `Advance` |
| `PlanConversion.TranslateAfterHeader` | lib/pymedphys/_experimental/pinnacle/rtplan.py:143-165 | Once the header is made and there are beams, a failing beam loop is the translation's fault, and a successful one gives the document with fraction group (1, fractions, beams - 1, "0") |
| `PlanConversion.PlanDataset.constructor` | lib/pymedphys/_experimental/pinnacle/rtplan.py:90-151 | The dataset starts with its header and empty fraction group, referenced beam, beam and patient setup sequences |
| `PlanTranslation.Advance` | lib/pymedphys/_experimental/pinnacle/rtplan.py:251-467 | An iteration appends exactly one weight and one control point and advances `metercount` by at most one |
| `PlanTranslation.CpStep` | lib/pymedphys/_experimental/pinnacle/rtplan.py:251-467 | A successful control-point iteration appends exactly one weight and one control point |
| `PlanTranslation.RunCps` | lib/pymedphys/_experimental/pinnacle/rtplan.py:251-467 | A successful control-point loop appends one weight per remaining control point |
| `PlanTranslation.BeamStep` | lib/pymedphys/_experimental/pinnacle/rtplan.py:165-533 | A successful beam iteration adds two patient setups, one referenced beam and one beam |
| `PlanTranslation.RunBeams` | lib/pymedphys/_experimental/pinnacle/rtplan.py:165-1085 | A successful beam loop leaves twice as many patient setups as beams, and one beam and one referenced beam per source beam |
| `PlanProperties.EarlyFaults` | lib/pymedphys/_experimental/pinnacle/rtplan.py:60-163 | No file without a primary image, with a timestamp of fewer than two fields, with an empty gender, or with no beams, checked in that order |
| `PlanProperties.SuccessNeedsLookups` | lib/pymedphys/_experimental/pinnacle/rtplan.py:351-395 | A successful translation found, for every beam, a prescription of its name, a ": " in its machine string, a digit in its energy name, and non-failing monitor units |
| `PlanProperties.LookupsSuffice` | lib/pymedphys/_experimental/pinnacle/rtplan.py:60-395 | The converse, for plans whose wedges classify whatever the wedge locals hold: a primary image, a two-field timestamp, a gender, at least one beam and, for every beam, its prescription, ": ", an energy digit and monitor units make the translation succeed |
| `PlanProperties.NoWedgeNeverFails` | lib/pymedphys/_experimental/pinnacle/rtplan.py:282-288 | Empty, "No Wedge" and unrecognised wedge names classify for every binding of the wedge locals, so plans without wedges meet the condition of `LookupsSuffice` |
| `PlanProperties.LookupsMeaning` | lib/pymedphys/_experimental/pinnacle/rtplan.py:351-363 | The per-beam lookups succeed only for a beam with such a prescription, machine string and energy name |
| `PlanProperties.PlanHeaderFields` | lib/pymedphys/_experimental/pinnacle/rtplan.py:94-151 | Study and plan date/time are the first two timestamp fields without '-' and ':'; patient sex is the gender's first character; label is name + ".0"; the UIDs, frame, structure set and software version come from the plan |
| `PlanProperties.FractionGroup` | lib/pymedphys/_experimental/pinnacle/rtplan.py:1080-1090 | Exactly one fraction group: number 1, the last beam's prescription's fractions, beam count minus one, no brachytherapy setups |
| `PlanProperties.PatientSetupsLayout` | lib/pymedphys/_experimental/pinnacle/rtplan.py:173-179 | There are 2n patient setups; entry i < n is numbered i with the plan's patient position; entries n..2n-1 are blank |
| `PlanProperties.ReferencedBeams` | lib/pymedphys/_experimental/pinnacle/rtplan.py:181-235 | One referenced beam per beam: numbered by its 0-based index, with the dose reference point, and with the beam's meterset and dose |
| `PlanProperties.BeamMeterset` | lib/pymedphys/_experimental/pinnacle/rtplan.py:366-395 | Normalized dose 0 gives meterset 0 and no dose; otherwise dose per MU is non-zero, meterset times normalized dose times dose per MU is the prescription dose, and the dose is prescription dose / 100 |
| `PlanProperties.BeamHeaders` | lib/pymedphys/_experimental/pinnacle/rtplan.py:187-219 | Beam b is numbered b, references patient setup b, carries field ID, name, radiation type, beam type, machine name before ':', delivery type "TREATMENT", SAD "1000", final cumulative meterset weight "1", unit "MU" and fluence mode "STANDARD" |
| `PlanProperties.DocBeam` | lib/pymedphys/_experimental/pinnacle/rtplan.py:165-533 | In a written plan, beam b and referenced beam b are the closed forms built from source beam b and the plan-wide weight list |
| `PlanProperties.ControlPointsOfBeam` | lib/pymedphys/_experimental/pinnacle/rtplan.py:251-276 | One control point per source control point, index k at position k, with ASYMX [-right·10, left·10], ASYMY [-top·10, bottom·10] and the converted MLC positions |
| `PlanProperties.FirstPointOnly` | lib/pymedphys/_experimental/pinnacle/rtplan.py:1295-1327 | Only control point 0 carries energy, dose rate, gantry direction and angle, collimator angle, "NONE" directions, SSD·10, couch angle, isocenter, and the wedge entry ("IN", "1") exactly when the wedge count is positive |
| `PlanProperties.CumulativeWeights` | lib/pymedphys/_experimental/pinnacle/rtplan.py:1244-1251 | Cumulative meterset weight equals the dose reference coefficient at every point; it is 0 for a beam that is not step-and-shoot, and otherwise the sum of the first (k+1)/2 plan-wide weights |
| `PlanProperties.PlanWeightsLength` | lib/pymedphys/_experimental/pinnacle/rtplan.py:156-253 | The final plan-wide weight list has more entries than any beam has control points (the in-loop bound for `metersetweight[metercount]` is a precondition of `Advance`, which the fold meets) |
| `PlanProperties.StepAndShootPairs` | lib/pymedphys/_experimental/pinnacle/rtplan.py:425-438 | In a step-and-shoot beam, an even point repeats the previous cumulative weight, and an odd point k adds plan-wide weight k/2 |
| `PlanProperties.SharedCumulative` | lib/pymedphys/_experimental/pinnacle/rtplan.py:246-438 | Two step-and-shoot beams of a plan have equal cumulative weights at equal indices |
| `PlanProperties.CumulativeMonotone` | lib/pymedphys/_experimental/pinnacle/rtplan.py:434-438 | With non-negative weights the cumulative weight never decreases along a beam |
| `PlanProperties.LimitingDevicesOfBeam` | lib/pymedphys/_experimental/pinnacle/rtplan.py:423 | A beam has a Beam Limiting Device Sequence iff it has control points; it is then ASYMX/ASYMY with 1 pair and MLCX with (last point's leaf count)/2 pairs and the fixed boundaries |
| `TranslationShape.ApplyMonitorUnitsTwice` | lib/pymedphys/_experimental/pinnacle/rtplan.py:469-513 | Setting the same meterset and dose again (the post-loop repeat) changes nothing |
| `TranslationShape.LookupBeamOk` | lib/pymedphys/_experimental/pinnacle/rtplan.py:351-395 | The lookups succeed iff each of the four does, and return the prescription's fractions, the energy token and the monitor units |
| `TranslationShape.AfterCpsShape` | lib/pymedphys/_experimental/pinnacle/rtplan.py:469-533 | The post-loop block succeeds iff the beam's lookups do, writes the monitor units and gives the prescription's fractions |
| `TranslationShape.BeamStepShape` | lib/pymedphys/_experimental/pinnacle/rtplan.py:165-533 | A successful beam iteration appends the expected referenced beam and beam, fills setup b, and appends the beam's weights to the plan-wide list |
| `ControlPointEncoder.Reverse` | lib/pymedphys/_experimental/pinnacle/rtplan.py:274-275 | `list(reversed(..))`: same length, element k is element n-1-k |
| `ControlPointEncoder.EvenBankAt` | lib/pymedphys/_experimental/pinnacle/rtplan.py:263-271 | `leafpositions1` holds the ⌈n/2⌉ even-indexed values, each negated and times 10, in order |
| `ControlPointEncoder.OddBankAt` | lib/pymedphys/_experimental/pinnacle/rtplan.py:264-271 | `leafpositions2` holds the ⌊n/2⌋ odd-indexed values, each times 10, in order |
| `ControlPointEncoder.LeafPositionsSpec` | lib/pymedphys/_experimental/pinnacle/rtplan.py:260-276 | The MLC list has one entry per raw value: the even-indexed values negated ×10 in reverse, then the odd-indexed values ×10 in reverse |
| `ControlPointEncoder.MapLeafPositions` | lib/pymedphys/_experimental/pinnacle/rtplan.py:260-276 | The leaf-bank loop with `p_count` computes exactly `LeafPositions` |
| `ControlPointEncoder.BoundaryTableClosedForm` | lib/pymedphys/_experimental/pinnacle/rtplan.py:1127-1190 | The literal 61-entry boundary list is, entry by entry, the closed form (10 mm outer leaves, 5 mm inner leaves) |
| `ControlPointEncoder.MlcBoundariesShape` | lib/pymedphys/_experimental/pinnacle/rtplan.py:1127-1190 | 61 boundaries from -200 to 200 through 0, strictly increasing, symmetric about 0, gaps of 10 in the outer ten on each side and 5 in the inner forty |
| `ControlPointEncoder.DeviceDescriptors` | lib/pymedphys/_experimental/pinnacle/rtplan.py:1117-1126 | There are exactly three limiting devices |
| `ControlPointEncoder.MapBeamDeviceLimitingSequence` | lib/pymedphys/_experimental/pinnacle/rtplan.py:1116-1192 | Replaces the entry's Beam Limiting Device Sequence by ASYMX, ASYMY (1 pair each) and MLCX (n/2 pairs, the fixed boundaries), and nothing else |
| `ControlPointEncoder.PythonIndex` | lib/pymedphys/_experimental/pinnacle/rtplan.py:1223 | The slot `ControlPointSequence[ctrlpt_index]` names: the index itself when in range, counted from the end when negative, an `IndexError` outside -len..len-1 |
| `ControlPointEncoder.MapBeamControlPointSequence` | lib/pymedphys/_experimental/pinnacle/rtplan.py:1195-1329 | Appends a blank control point; then raises `IndexError` (the list stays grown) when the index names no slot, and otherwise sets the attributes on the slot it names, keeping whatever the call does not assign; no other slot changes |
| `ControlPointEncoder.AppendedSlot` | lib/pymedphys/_experimental/pinnacle/rtplan.py:1221-1223 | Called with the old length as index, the new point is appended and no other point changes |
| `ControlPointEncoder.RefillKeepsAttributes` | lib/pymedphys/_experimental/pinnacle/rtplan.py:1225-1327 | Setting attributes on a slot that holds a point replaces index and device positions; the first-point attributes survive a call at another index, and the wedge entry survives a call at 0 without wedges |
| `ControlPointEncoder.RefillKeepsWedge` | lib/pymedphys/_experimental/pinnacle/rtplan.py:1295-1316 | Two calls at index 0, the first with a wedge and the second without, leave the wedge entry ("IN", "1") in place |
| `ControlPointEncoder.BeamDataset.constructor` | lib/pymedphys/_experimental/pinnacle/rtplan.py:187-237 | A Beam Sequence entry starts with its header, no control point and no limiting devices |
| `BeamAttributes.RadiationType` | lib/pymedphys/_experimental/pinnacle/rtplan.py:205-210 | "PHOTON" iff the modality contains "Photons"; "ELECTRON" iff it contains "Electrons" and not "Photons"; "" iff it contains neither |
| `BeamAttributes.BeamType` | lib/pymedphys/_experimental/pinnacle/rtplan.py:212-215 | The beam type contains "STATIC" iff the upper-cased set beam type does, and is then that upper-cased text; otherwise it is "DYNAMIC" |
| `BeamAttributes.BeamTypeIgnoresCase` | lib/pymedphys/_experimental/pinnacle/rtplan.py:212-215 | The beam type, and the step-and-shoot test at 425-427, give the same answer for a set beam type and its upper-cased form |
| `BeamAttributes.BeamTypeExamples` | lib/pymedphys/_experimental/pinnacle/rtplan.py:212-215 | "Step & Shoot MLC" is step-and-shoot (the test at 425-427) with beam type "DYNAMIC"; "Static" is not step-and-shoot and has beam type "STATIC" |
| `BeamAttributes.DoseRate` | lib/pymedphys/_experimental/pinnacle/rtplan.py:415-419 | The beam's dose rate when it has one, 0 otherwise |
| `BeamAttributes.MachineNameAndVersion` | lib/pymedphys/_experimental/pinnacle/rtplan.py:358-360 | Fails iff the machine string has no ": "; otherwise name + ": " + version is a prefix of the string, the name ends at the first ": ", and the version ends at the next ": " or at the end of the string |
| `BeamAttributes.MachineNamesAgree` | lib/pymedphys/_experimental/pinnacle/rtplan.py:217-219 | `partition(":")[0]` is a prefix of the `split(": ")` machine name, and equal to it when that name has no ':' |
| `BeamAttributes.GantryRotation` | lib/pymedphys/_experimental/pinnacle/rtplan.py:397-406 | "CW" iff GantryIsCW is 1; "CC" iff GantryIsCCW is 1 and GantryIsCW is not; "NONE" otherwise, absent keys included |
| `BeamAttributes.PrescriptionsNamed` | lib/pymedphys/_experimental/pinnacle/rtplan.py:351-355 | The comprehension keeps exactly the prescriptions of the name |
| `BeamAttributes.FindPrescription` | lib/pymedphys/_experimental/pinnacle/rtplan.py:351-355 | Fails with `IndexError` iff no prescription has the name; otherwise returns one in the list with that name |
| `BeamAttributes.FindPrescriptionFirst` | lib/pymedphys/_experimental/pinnacle/rtplan.py:351-355 | `[0]` picks the first prescription with the name |
| `BeamAttributes.LastDosePerMuAbsent` | lib/pymedphys/_experimental/pinnacle/rtplan.py:366-381 | With no energy of the name the dose per MU stays at the sentinel |
| `BeamAttributes.LastDosePerMuLast` | lib/pymedphys/_experimental/pinnacle/rtplan.py:372-377 | The last energy of the name wins |
| `BeamAttributes.DosePerMuAtCalibration` | lib/pymedphys/_experimental/pinnacle/rtplan.py:366-381 | The calibration loop computes exactly `DosePerMu`: -1 unless machine name and version match, then the last matching energy's value |
| `BeamAttributes.LastNamedPointAbsent` | lib/pymedphys/_experimental/pinnacle/rtplan.py:221-229 | No point is found iff no point has the prescription point's name |
| `BeamAttributes.LastNamedPointLast` | lib/pymedphys/_experimental/pinnacle/rtplan.py:222-224 | The last point of the name wins |
| `BeamAttributes.FindDoseReferencePoint` | lib/pymedphys/_experimental/pinnacle/rtplan.py:221-229 | The point loop with the isocenter fallback computes exactly `DoseReferencePoint` |
| `BeamAttributes.BeamMonitorUnits` | lib/pymedphys/_experimental/pinnacle/rtplan.py:382-395 | Fails with a division by zero iff normalized dose ≠ 0 and dose per MU = 0; zero normalized dose gives (0, no dose); otherwise meterset·normdose·dpmu = prescription dose and dose = prescription dose / 100 |
| `BeamAttributes.ListGet` | lib/pymedphys/_experimental/pinnacle/rtplan.py:1098-1102 | `list_get` returns `l[idx]` for an index in range, the default outside -len..len-1, and always the default or an element |
| `BeamAttributes.ListGetNegative` | lib/pymedphys/_experimental/pinnacle/rtplan.py:1098-1102 | A negative index counts from the end |
| `BeamAttributes.StudyDateTime` | lib/pymedphys/_experimental/pinnacle/rtplan.py:101-109 | Fails iff the timestamp has fewer than two whitespace fields; otherwise the date is the first field without its '-' and the time the second without its ':' |
| `BeamAttributes.StudyDateTimeExample` | lib/pymedphys/_experimental/pinnacle/rtplan.py:101-109 | "2020-01-02 10:11:12" gives study date "20200102" and study time "101112" |
| `BeamAttributes.RemoveSeparator` | lib/pymedphys/_experimental/pinnacle/rtplan.py:108-109 | Removing the separator that follows a separator-free part leaves the part, followed by the rest with its separators removed |
| `BeamAttributes.PatientSex` | lib/pymedphys/_experimental/pinnacle/rtplan.py:120 | Fails iff the gender is empty; otherwise its first character |
| `BeamAttributes.RtPlanLabel` | lib/pymedphys/_experimental/pinnacle/rtplan.py:129 | The plan name followed by ".0" |
| `WedgeClassifier.WedgeCount` | lib/pymedphys/_experimental/pinnacle/rtplan.py:281-317 | `numwedges` is 1 iff the name is neither empty nor "No Wedge" and contains "edw", "EDW" or "UP", else 0 |
| `WedgeClassifier.ClassifiedCount` | lib/pymedphys/_experimental/pinnacle/rtplan.py:281-347 | A successful classification's wedge count depends on the name alone |
| `WedgeClassifier.NoWedgeRules` | lib/pymedphys/_experimental/pinnacle/rtplan.py:282-288 | Empty, "No Wedge" and unrecognised names are no wedge and leave the locals as they were |
| `WedgeClassifier.DynamicWedgeRule` | lib/pymedphys/_experimental/pinnacle/rtplan.py:289-312 | An "edw"/"EDW" name (checked before "UP") is DYNAMIC with name upper(name)+angle+"IN"/"OUT" and code "0"/"180"; any other orientation fails on an unbound `wedgename` |
| `WedgeClassifier.StandardWedgeRule` | lib/pymedphys/_experimental/pinnacle/rtplan.py:313-347 | A "UP" name is STANDARD with W{a}R/L/OUT/IN{n} and codes 90/270/180/0, n from 15→30, 30→30, 45→20, 60→15; other angles fail on `numberinname`, other orientations on `wedgename` |
| `WedgeClassifier.BoundLocalsNeverFail` | lib/pymedphys/_experimental/pinnacle/rtplan.py:281-347 | Once both locals are bound, classification cannot fail and keeps them bound |
| `WedgeClassifier.DynamicWedgeExample` | lib/pymedphys/_experimental/pinnacle/rtplan.py:289-303 | "EDW15" bottom-to-top at 15 degrees is "EDW1515IN" with code "0" |
| `Text.PartitionHead` | lib/pymedphys/_experimental/pinnacle/rtplan.py:217-219 | `partition(":")[0]` is the longest prefix without ':', followed by ':' when shorter than the string |
| `Text.Find` | lib/pymedphys/_experimental/pinnacle/rtplan.py:358 | The first index where the separator occurs, or none iff it does not occur |
| `Text.FirstTwoFields` | lib/pymedphys/_experimental/pinnacle/rtplan.py:358-360 | `split(sep)[0]` and `[1]`: none iff sep does not occur; otherwise field0 + sep + field1 is a prefix, and neither field contains sep |
| `Text.WordsAreTokens` | lib/pymedphys/_experimental/pinnacle/rtplan.py:101-106 | Every field of `split()` is non-empty and free of white space |
| `Text.WordsOfToken` | lib/pymedphys/_experimental/pinnacle/rtplan.py:101-106 | A non-empty string without white space splits into itself |
| `Text.WordsSkipSpace` | lib/pymedphys/_experimental/pinnacle/rtplan.py:101-106 | Leading white space does not change the fields of `split()` |
| `Text.WordsSplit` | lib/pymedphys/_experimental/pinnacle/rtplan.py:101-106 | A word followed by white space is the first field, and the fields after it are those of the rest |
| `Text.RemoveAll` | lib/pymedphys/_experimental/pinnacle/rtplan.py:108-109 | `replace(c, "")` leaves no `c`, is no longer than the input, and keeps every other character as often as it occurs |
| `Text.RemoveAllConcat` | lib/pymedphys/_experimental/pinnacle/rtplan.py:108-109 | Removal distributes over concatenation, so the kept characters stay in their order |
| `Text.RemoveAllAbsent` | lib/pymedphys/_experimental/pinnacle/rtplan.py:108-109 | Removing an absent character changes nothing |
| `Text.MatchAtSound` | lib/pymedphys/_experimental/pinnacle/rtplan.py:363 | A match of the energy pattern at p is a non-empty number token containing a digit |
| `Text.EnergyTokenFromSpec` | lib/pymedphys/_experimental/pinnacle/rtplan.py:363 | From position p a token is found iff a digit follows p; it is a number token |
| `Text.EnergyTokenFromLeftmost` | lib/pymedphys/_experimental/pinnacle/rtplan.py:363 | The token found from p is the whole match at the leftmost position from p where the pattern matches |
| `Text.EnergyTokenSpec` | lib/pymedphys/_experimental/pinnacle/rtplan.py:363 | `re.findall(..)[0]` exists iff the energy name holds a digit, and is then the number token matched at the leftmost matching position |
| `Text.EnergyTokenExample` | lib/pymedphys/_experimental/pinnacle/rtplan.py:363 | For "6MV 10" the token is "6", not "10" |

## Left out

- File I/O and pydicom: the `FileDataset`/`file_meta` construction, `os.path.join`, `save_as`,
  and the debug dump to a JSON file. `ConvertPlan` returns the document that would be saved.
- `time.strftime` for the instance creation date and time. The clock is outside the model, so
  those two attributes are not part of `PlanHeader`.
- Logging and `print` calls: they are side effects only.
- The constant UIDs and fixed attributes that need no logic: SOP class, transfer syntax,
  manufacturer, modality, and the `.Manufacturer` of each beam. The model keeps the computed
  UIDs and every string-literal attribute that the other attributes depend on.
- The commented-out blocks of `convert_plan` (534-1077).
- `mapBeam` and `mapBeamWedgeSequence`: the first refers to undefined names, the second is empty.
- `plan.convert_point`, `plan.iso_center` and the `plan` object's other attributes: these are
  covered in the Pinnacle reader, which this model does not include. Each named point carries its
  converted value, and the isocenter is a given `Point`. The truthiness test on the converted
  point (227) is taken to hold for every found point.
- `CPManagerObject` nesting (240-243): `SourceBeam.cpManager` is the already un-nested manager.
- `image_info[0]` and `if trial_info:` (72, 104-106): the model takes the trial's timestamp and
  the first image info as given.
- Float parsing of the leaf strings (`float(p.strip())`): the raw leaf list is given as reals
  after the comma split. It is never empty, because `str.split(",")` always yields a field. The
  model assumes every leaf string parses, so the `ValueError` that `float` raises is not a `Fault`.
- The debug dump at the top of each beam iteration (`open("/home/neil/beam.json", "w")` and
  `json.dump`, 167-169): the model assumes it succeeds. Where that path cannot be written, Python
  raises `FileNotFoundError` or `PermissionError` and writes no RT Plan file; the model does not
  capture that.
- Floating point: `×10`, `/100`, `/2` and the MU division are over `real`, without rounding.
- `Upper` handles ASCII letters only, `IsSpace` accepts only the ASCII white-space characters,
  and `IsDigit` accepts only '0'..'9', where the regular expression's `\d` matches every Unicode
  decimal digit.
- The wedge angle is an `int`. `f"{angle}"` is modelled as its decimal text, and `int(angle)` as
  the same value.
- The MLC boundaries are kept as the integers the decimal strings denote. The "1" jaw-pair counts
  are kept as the reals they stand for.
- The unused parameters of `mapBeamControlPointSequence` (`numctrlpts`, `metersetweight`,
  `is_stepwise`) are dropped. So are the locals `ctrlpt_range`, `is_stepwise` and `numctrlpts`,
  which never reach the document. The locals `wedgetype` and `wedgeorientation` are kept in the
  classification result (`WedgeClass.Wedge`) and not carried from one control point to the next:
  where no orientation branch matches, the result has orientation `None`, while the Python local
  keeps the value of the last iteration. Neither local is written to the document.
- PlanConversion.ConvertBeam: it keeps the Referenced Beam Sequence entry and the Beam Sequence
  entry of the current beam in locals. It appends them to the dataset when the beam is done,
  where Python appends them first and fills them through the dataset. A failure writes no file,
  so the order is not observable.
- PlanConversion.FillControlPoint: the pure computations of an iteration (jaws, leaf banks,
  gantry direction, dose rate) are made after the wedge classification and the lookups, not
  before them. They cannot fail, so the order is not observable.
- ControlPointEncoder.DeviceDescriptors: its own contract states only the count. The contents
  are stated by `MapBeamDeviceLimitingSequence` and `LimitingDevicesOfBeam`.
- PlanTranslation.CpStep: its own contract states only lengths; the closed-form lemmas of
  `TranslationShape` state its contents.
- PlanTranslation.RunCps: its own contract states only lengths; `TranslationShape` states its
  contents.
- PlanTranslation.BeamStep: its own contract states only lengths; `BeamStepShape` states its
  contents.
- PlanTranslation.RunBeams: its own contract states only lengths; `PlanProperties` states its
  contents.
- PlanTranslation.Advance: its own contract states only lengths; `TranslationShape` states its
  contents.
