// The duct actions: creation with a system type and a size, the elbow or
// transition between two ducts, insulation, lining and the bulk offset.

module MepDuct {
  import opened Text
  import opened Seqs
  import opened Revit
  import opened Mep

  // ---------------------------------------------------------------------------
  // Duct.Create
  // ---------------------------------------------------------------------------

  /** A mechanical system type: its name and its classification ("SupplyAir", "ReturnAir", ...). */
  datatype SystemType = SystemType(id: int, name: string, classification: string)

  predicate SystemMatches(s: SystemType, token: string)
  {
    EqIgnoreCase(s.name, token) || EqIgnoreCase(s.classification, token)
  }

  /** The system type named or classified as the token, otherwise the first one. */
  function SystemFor(systems: seq<SystemType>, token: Option<string>): (r: Option<SystemType>)
  {
    var m := if !IsBlankOpt(token) then FirstWhere(systems, (s: SystemType) => SystemMatches(s, token.value)) else None;
    if m.Some? then m else FirstOf(systems)
  }

  /**
   * There is a system type exactly when there is any; it is one matching the
   * token by name or classification when one does, and the first otherwise.
   */
  lemma SystemForSpec(systems: seq<SystemType>, token: Option<string>)
    ensures SystemFor(systems, token).None? <==> systems == []
    ensures SystemFor(systems, token).Some? ==> SystemFor(systems, token).value in systems
    ensures !IsBlankOpt(token) && (exists i :: 0 <= i < |systems| && SystemMatches(systems[i], token.value)) ==>
      SystemMatches(SystemFor(systems, token).value, token.value)
    ensures (IsBlankOpt(token) || forall i :: 0 <= i < |systems| ==> !SystemMatches(systems[i], token.value)) && systems != [] ==>
      SystemFor(systems, token) == Some(systems[0])
  {
  }

  datatype DuctRequest = DuctRequest(systemType: Option<string>, ductType: Option<string>, elevationM: Option<real>,
                                     start: Option<Pt2>, end: Option<Pt2>,
                                     widthMm: Option<real>, heightMm: Option<real>, diameterMm: Option<real>)

  const DuctElevationM: real := 2.7
  const NoDuctSystem := "No MEPSystemType available for ducts."
  const MissingPoints := "Duct requires start and end points."
  const NoDuctType := "No suitable DuctType found."

  /**
   * Duct.Create: the level, the system type, both points, the duct type (the
   * named one, else the first), a run that is not degenerate, and the size:
   * a diameter alone when given, otherwise the width and height given.
   */
  function DuctCreate(level: Result<Level>, systems: seq<SystemType>, types: seq<ElemType>, req: DuctRequest): Result<CurvePlan>
  {
    if level.Err? then Err(level.error)
    else
      var e := OrReal(req.elevationM, DuctElevationM);
      var z := level.value.elevation + MToFt(e);
      var sys := SystemFor(systems, req.systemType);
      if sys.None? then Err(NoDuctSystem)
      else if req.start.None? || req.end.None? then Err(MissingPoints)
      else
        var t := TypeOrFirst(types, req.ductType);
        if t.None? then Err(WithExamples(NoDuctType, Examples(types, Label)))
        else
          var run := RunAt(req.start.value, req.end.value, z);
          if AlmostEqual(run.start, run.end) then Err(SamePoints)
          else
            var diameter := MmOpt(req.diameterMm);
            var width := if diameter.Some? then None else MmOpt(req.widthMm);
            var height := if diameter.Some? then None else MmOpt(req.heightMm);
            Ok(CurvePlan(Some(sys.value.name), t.value, level.value, run, diameter, width, height, level.value.name,
                         Some(sys.value.classification + " / " + sys.value.name), Label(t.value), e))
  }

  /**
   * A duct is created exactly when the level resolves, a system type and a
   * duct type exist, both points are given and they differ in feet; missing
   * points are reported before the type. With a diameter only the diameter
   * is set, otherwise the width and height given; the run lies at the
   * elevation over the level, 2.7 m by default.
   */
  lemma DuctCreateSpec(level: Result<Level>, systems: seq<SystemType>, types: seq<ElemType>, req: DuctRequest)
    ensures var r := DuctCreate(level, systems, types, req);
      (level.Err? ==> r == Err(level.error)) &&
      (level.Ok? && systems == [] ==> r == Err(NoDuctSystem)) &&
      (level.Ok? && systems != [] && (req.start.None? || req.end.None?) ==> r == Err(MissingPoints)) &&
      (level.Ok? && systems != [] && req.start.Some? && req.end.Some? && types == [] ==> r == Err(NoDuctType)) &&
      (r.Ok? <==> level.Ok? && systems != [] && types != [] && req.start.Some? && req.end.Some? &&
                  !AlmostEqual(Lift(req.start.value, level.value.elevation + MToFt(OrReal(req.elevationM, 2.7))),
                               Lift(req.end.value, level.value.elevation + MToFt(OrReal(req.elevationM, 2.7))))) &&
      (r.Ok? ==>
        NonDegenerate(r.value.line) && r.value.curveType in types &&
        r.value.line.start.z == level.value.elevation + MToFt(r.value.usedElevationM) &&
        r.value.usedElevationM == (if req.elevationM.Some? then req.elevationM.value else 2.7) &&
        (req.diameterMm.Some? ==> r.value.diameterFt == Some(MmToFt(req.diameterMm.value)) &&
                                  r.value.widthFt.None? && r.value.heightFt.None?) &&
        (req.diameterMm.None? ==> r.value.diameterFt.None? &&
                                  (r.value.widthFt.Some? <==> req.widthMm.Some?) &&
                                  (r.value.heightFt.Some? <==> req.heightMm.Some?)) &&
        r.value.usedType == Label(r.value.curveType))
  {
    assert Examples([], Label) == "";
    SystemForSpec(systems, req.systemType);
  }

  // ---------------------------------------------------------------------------
  // Duct.Connect
  // ---------------------------------------------------------------------------

  /**
   * The duct fitting compat helpers: the signature with the document first,
   * then the one without it when the first is missing or returns null; only
   * an instance is returned, an exception of either signature propagates, and
   * otherwise the helper throws `missing`.
   */
  function DuctFittingCompat(api: FittingApi, missing: string): (r: Result<Option<int>>)
    ensures r.Ok? <==> Yields(api)
    ensures r.Ok? ==> r.value.Some?
    ensures api.withDoc.Returned? ==> r == Ok(Some(api.withDoc.id))
    ensures api.withDoc.Raised? ==> r == Err(api.withDoc.message)
    ensures (api.withDoc.Missing? || api.withDoc.ReturnedNull?) && api.withoutDoc.Raised? ==> r == Err(api.withoutDoc.message)
    ensures r.Err? ==> r.error == missing || ThrownBy(api, r.error)
    ensures r.Err? && !api.withDoc.Raised? && !api.withoutDoc.Raised? ==> r.error == missing
  {
    match api.withDoc
    case Returned(id) => Ok(Some(id))
    case Raised(m) => Err(m)
    case _ =>
      match api.withoutDoc
      case Returned(id) => Ok(Some(id))
      case Raised(m) => Err(m)
      case _ => Err(missing)
  }

  /** A fitting factory that yields an instance: its first signature does, or the second does once the first is missing or returns null. */
  predicate Yields(api: FittingApi)
  {
    api.withDoc.Returned? || (!api.withDoc.Raised? && api.withoutDoc.Returned?)
  }

  /** `m` is the message of an exception one of the factory's signatures throws. */
  predicate ThrownBy(api: FittingApi, m: string)
  {
    (api.withDoc.Raised? && m == api.withDoc.message) || (api.withoutDoc.Raised? && m == api.withoutDoc.message)
  }

  const DuctElbowMissing := "CreateElbowFitting no disponible en esta versión del API."
  const DuctTransitionMissing := "CreateTransitionFitting no disponible en esta versión del API."

  /** Duct.Connect: Connect with the mechanical fitting factories. */
  function DuctConnect(doc: Doc, req: ConnectRequest, elbowApi: FittingApi, transitionApi: FittingApi): Result<ConnectReply>
  {
    Connect(doc, req, DuctFittingCompat(elbowApi, DuctElbowMissing), DuctFittingCompat(transitionApi, DuctTransitionMissing))
  }

  /**
   * Since the duct helpers never return null, connecting two ducts never
   * fails on a null fitting: past the element and free-connector checks, it
   * succeeds when both factories yield a fitting, and otherwise reports a
   * factory's own message or the exception one of its signatures threw.
   */
  lemma DuctConnectSpec(doc: Doc, req: ConnectRequest, elbowApi: FittingApi, transitionApi: FittingApi)
    ensures var r := DuctConnect(doc, req, elbowApi, transitionApi);
      req.aId in doc && req.bId in doc && Free(doc[req.aId]) != [] && Free(doc[req.bId]) != [] ==>
        (r.Err? ==> r.error == DuctElbowMissing || r.error == DuctTransitionMissing ||
                    ThrownBy(elbowApi, r.error) || ThrownBy(transitionApi, r.error)) &&
        (Yields(elbowApi) && Yields(transitionApi) ==> r.Ok?)
  {
    var elbow := DuctFittingCompat(elbowApi, DuctElbowMissing);
    var transition := DuctFittingCompat(transitionApi, DuctTransitionMissing);
    ConnectErrors(doc, req, elbow, transition);
  }

  // ---------------------------------------------------------------------------
  // Insulation, lining and offset
  // ---------------------------------------------------------------------------

  /** Duct.AddInsulation. */
  function DuctAddInsulation(doc: Doc, types: seq<ElemType>, req: InsulationRequest, sigs: Signatures,
                             make: Maker): (r: Result<InsulationReply>)
    ensures r.Err? <==> types == []
    ensures r.Err? ==> r.error == NoTypeMessage("DuctInsulationType")
    ensures r.Ok? ==> r.value.createdCount + |r.value.failed| == |OfKind(doc, req.ids, DuctElem)|
  {
    AddInsulationSpec(doc, types, req, DuctElem, "DuctInsulationType", sigs, make, "DuctInsulation");
    AddInsulation(doc, types, req, DuctElem, "DuctInsulationType", sigs, make, "DuctInsulation")
  }

  /** Duct.AddLining. */
  function DuctAddLining(doc: Doc, types: seq<ElemType>, req: InsulationRequest, sigs: Signatures,
                         make: Maker): (r: Result<InsulationReply>)
    ensures r.Err? <==> types == []
    ensures r.Err? ==> r.error == NoTypeMessage("DuctLiningType")
    ensures r.Ok? ==> r.value.createdCount + |r.value.failed| == |OfKind(doc, req.ids, DuctElem)|
  {
    AddInsulationSpec(doc, types, req, DuctElem, "DuctLiningType", sigs, make, "DuctLining");
    AddInsulation(doc, types, req, DuctElem, "DuctLiningType", sigs, make, "DuctLining")
  }

  /** Duct.SetOffset. */
  function DuctSetOffset(doc: Doc, req: OffsetRequest): (r: Bulk)
    ensures |r.updated| + |r.failed| == |OfKind(doc, req.ids, DuctElem)|
    ensures forall x :: x in r.updated ==> x in req.ids && x in doc && doc[x].kind == DuctElem
    ensures forall x :: x in doc && (x !in req.ids || doc[x].kind != DuctElem) ==> x in r.doc && r.doc[x] == doc[x]
  {
    var assigns := [Assign(OffsetParam, MToFt(req.offsetM))];
    BulkCountSpec(doc, req.ids, DuctElem, assigns, OffsetReason);
    BulkEntriesSpec(doc, req.ids, DuctElem, assigns, OffsetReason);
    BulkDocSpec(doc, req.ids, DuctElem, assigns, OffsetReason);
    SetOffset(doc, DuctElem, req)
  }
}
