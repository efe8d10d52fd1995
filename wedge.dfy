/**
 * The wedge classifier: from a control point's wedge context to the wedge's type, identifier and
 * orientation code, or to "no wedge".
 *
 * The Python code assigns `wedgename` and `numberinname` only in some branches, and both are
 * locals of the whole translation: a branch that does not assign them reads whatever an earlier
 * control point (of any beam) left there, and raises `UnboundLocalError` when nothing did.
 * `WedgeLocals` carries those two bindings from one classification to the next.
 */
module WedgeClassifier {
  import opened Wrappers
  import opened Text
  import opened Pinnacle
  import opened RtPlanTypes

  datatype WedgeType = Dynamic | Standard

  datatype WedgeClass =
    | NoWedge
    | Wedge(wedgeType: WedgeType, wedgeAngle: int, wedgeName: string, wedgeOrientation: Option<string>)

  /** The bindings of the locals `wedgename` and `numberinname`; `None` while unbound. */
  datatype WedgeLocals = WedgeLocals(wedgeName: Option<string>, numberInName: Option<string>)

  function NumWedges(c: WedgeClass): nat {
    if c.NoWedge? then 0 else 1
  }

  predicate IsNoWedgeName(name: string) {
    name == "No Wedge" || name == ""
  }

  /** Case-sensitive: only the spellings "edw" and "EDW" are recognised. */
  predicate IsDynamicName(name: string) {
    Occurs("edw", name) || Occurs("EDW", name)
  }

  predicate IsStandardName(name: string) {
    Occurs("UP", name)
  }

  /** The number the standard-wedge identifier carries for each nominal angle. */
  function NumberInName(angle: int): Option<string> {
    if angle == 15 then Some("30")
    else if angle == 45 then Some("20")
    else if angle == 30 then Some("30")
    else if angle == 60 then Some("15")
    else None
  }

  /** Letter of the standard-wedge identifier and orientation code, per orientation. */
  function StandardOrientation(orientation: string): Option<(string, string)> {
    if orientation == "WedgeRightToLeft" then Some(("R", "90"))
    else if orientation == "WedgeLeftToRight" then Some(("L", "270"))
    else if orientation == "WedgeTopToBottom" then Some(("OUT", "180"))
    else if orientation == "WedgeBottomToTop" then Some(("IN", "0"))
    else None
  }

  /** Suffix of the dynamic-wedge identifier and orientation code, per orientation. */
  function DynamicOrientation(orientation: string): Option<(string, string)> {
    if orientation == "WedgeBottomToTop" then Some(("IN", "0"))
    else if orientation == "WedgeTopToBottom" then Some(("OUT", "180"))
    else None
  }

  function ClassifyWedge(w: WedgeContext, locals: WedgeLocals): Result<(WedgeClass, WedgeLocals), Fault> {
    var name := w.wedgeName;
    if IsNoWedgeName(name) then
      Ok((NoWedge, locals))
    else if IsDynamicName(name) then
      var branch := DynamicOrientation(w.orientation);
      var wedgeName := if branch.Some? then Some(Upper(name) + IntToString(w.angle) + branch.value.0)
                       else locals.wedgeName;
      if wedgeName.None? then Err(UnboundWedgeName)
      else
        var orientation := if branch.Some? then Some(branch.value.1) else None;
        Ok((Wedge(Dynamic, w.angle, wedgeName.value, orientation), locals.(wedgeName := wedgeName)))
    else if IsStandardName(name) then
      var numberInName := if NumberInName(w.angle).Some? then NumberInName(w.angle) else locals.numberInName;
      var branch := StandardOrientation(w.orientation);
      if branch.Some? && numberInName.None? then Err(UnboundNumberInName)
      else
        var wedgeName := if branch.Some? then Some("W" + IntToString(w.angle) + branch.value.0 + numberInName.value)
                         else locals.wedgeName;
        if wedgeName.None? then Err(UnboundWedgeName)
        else
          var orientation := if branch.Some? then Some(branch.value.1) else None;
          Ok((Wedge(Standard, w.angle, wedgeName.value, orientation), WedgeLocals(wedgeName, numberInName)))
    else
      Ok((NoWedge, locals))
  }

  /** What `numwedges` becomes for a wedge name: 1 for a dynamic or standard wedge, else 0. */
  function WedgeCount(name: string): (n: nat)
    ensures n == 1 <==> !IsNoWedgeName(name) && (IsDynamicName(name) || IsStandardName(name))
    ensures n == 0 || n == 1
  {
    if IsNoWedgeName(name) then 0 else if IsDynamicName(name) || IsStandardName(name) then 1 else 0
  }

  /** Whenever classification succeeds, the wedge count depends on the name alone. */
  lemma ClassifiedCount(w: WedgeContext, locals: WedgeLocals)
    requires ClassifyWedge(w, locals).Ok?
    ensures NumWedges(ClassifyWedge(w, locals).value.0) == WedgeCount(w.wedgeName)
  {
  }

  /** Rule 1 and rule 4: empty, "No Wedge" and unrecognised names are no wedge, whatever was bound. */
  lemma NoWedgeRules(w: WedgeContext, locals: WedgeLocals)
    requires IsNoWedgeName(w.wedgeName) || !(IsDynamicName(w.wedgeName) || IsStandardName(w.wedgeName))
    ensures ClassifyWedge(w, locals) == Ok((NoWedge, locals))
  {
  }

  /** Rule 2: a dynamic wedge ("edw"/"EDW" is checked before "UP"), on a first classification. */
  lemma DynamicWedgeRule(w: WedgeContext)
    requires !IsNoWedgeName(w.wedgeName) && IsDynamicName(w.wedgeName)
    ensures w.orientation == "WedgeBottomToTop" ==>
              ClassifyWedge(w, WedgeLocals(None, None)).Ok? &&
              ClassifyWedge(w, WedgeLocals(None, None)).value.0
                == Wedge(Dynamic, w.angle, Upper(w.wedgeName) + IntToString(w.angle) + "IN", Some("0"))
    ensures w.orientation == "WedgeTopToBottom" ==>
              ClassifyWedge(w, WedgeLocals(None, None)).Ok? &&
              ClassifyWedge(w, WedgeLocals(None, None)).value.0
                == Wedge(Dynamic, w.angle, Upper(w.wedgeName) + IntToString(w.angle) + "OUT", Some("180"))
    ensures w.orientation != "WedgeBottomToTop" && w.orientation != "WedgeTopToBottom" ==>
              ClassifyWedge(w, WedgeLocals(None, None)) == Err(UnboundWedgeName)
  {
  }

  /** Rule 3: a standard wedge, on a first classification: the angle table and the four orientations. */
  lemma StandardWedgeRule(w: WedgeContext)
    requires !IsNoWedgeName(w.wedgeName) && !IsDynamicName(w.wedgeName) && IsStandardName(w.wedgeName)
    ensures StandardOrientation(w.orientation).Some? && NumberInName(w.angle).Some? ==>
              ClassifyWedge(w, WedgeLocals(None, None)).Ok? &&
              ClassifyWedge(w, WedgeLocals(None, None)).value.0
                == Wedge(Standard, w.angle,
                         "W" + IntToString(w.angle) + StandardOrientation(w.orientation).value.0
                             + NumberInName(w.angle).value,
                         Some(StandardOrientation(w.orientation).value.1))
    ensures StandardOrientation(w.orientation).Some? && NumberInName(w.angle).None? ==>
              ClassifyWedge(w, WedgeLocals(None, None)) == Err(UnboundNumberInName)
    ensures StandardOrientation(w.orientation).None? ==>
              ClassifyWedge(w, WedgeLocals(None, None)) == Err(UnboundWedgeName)
  {
  }

  /** Once both locals are bound, classification can no longer fail, and they stay bound. */
  lemma BoundLocalsNeverFail(w: WedgeContext, locals: WedgeLocals)
    requires locals.wedgeName.Some? && locals.numberInName.Some?
    ensures ClassifyWedge(w, locals).Ok?
    ensures ClassifyWedge(w, locals).value.1.wedgeName.Some?
    ensures ClassifyWedge(w, locals).value.1.numberInName.Some?
  {
  }

  /** Example: "EDW15" bottom-to-top at 15 degrees is "EDW1515IN", code "0". */
  lemma DynamicWedgeExample()
    ensures ClassifyWedge(WedgeContext("EDW15", "WedgeBottomToTop", 15), WedgeLocals(None, None))
            == Ok((Wedge(Dynamic, 15, "EDW1515IN", Some("0")), WedgeLocals(Some("EDW1515IN"), None)))
  {
    assert OccursAt("EDW", "EDW15", 0);
    assert IsDynamicName("EDW15");
    assert Upper("EDW15") == "EDW15";
    assert NatToString(1) == "1";
    assert IntToString(15) == "15";
    assert "EDW15" + "15" + "IN" == "EDW1515IN";
  }
}
