// The struct.* actions: beams, columns, structural floors, isolated and wall
// foundations, beam systems and straight rebar. The document is given as
// records: the family symbols and types it holds, the level the request
// resolves to, and the outcome of the Revit calls whose behaviour is not part
// of the bridge.

module Structure {
  import opened Text
  import opened Seqs
  import opened Revit

  // BuiltInCategory ids the actions filter family symbols by.
  const OST_StructuralFraming: int := -2001320
  const OST_StructuralColumns: int := -2001330
  const OST_StructuralFoundation: int := -2001300

  // ---------------------------------------------------------------------------
  // FindSymbolByName
  // ---------------------------------------------------------------------------

  /**
   * FindSymbolByName: nothing when the category holds no symbol, the first
   * symbol for a blank token, else the first symbol whose name or
   * "Family: Type" label equals the token ignoring case (possibly none).
   */
  function FindSymbolByName(symbols: seq<ElemType>, bic: int, token: Option<string>): Option<ElemType>
  {
    var inCat := InCategory(symbols, bic);
    if inCat == [] then None
    else if IsBlankOpt(token) then Some(inCat[0])
    else MatchNameOrLabel(inCat, token.value)
  }

  /** The symbol found belongs to the category; the cases above, in both directions. */
  lemma FindSymbolByNameSpec(symbols: seq<ElemType>, bic: int, token: Option<string>)
    ensures var r := FindSymbolByName(symbols, bic, token);
      (r.Some? ==> r.value in symbols && r.value.category == Some(bic)) &&
      (InCategory(symbols, bic) == [] ==> r.None?) &&
      (InCategory(symbols, bic) != [] && IsBlankOpt(token) ==> r == Some(InCategory(symbols, bic)[0])) &&
      (!IsBlankOpt(token) && r.Some? ==> NameOrLabel(r.value, token.value)) &&
      (!IsBlankOpt(token) ==>
        (r.None? <==> forall s :: s in symbols && s.category == Some(bic) ==> !NameOrLabel(s, token.value)))
  {
    var inCat := InCategory(symbols, bic);
    var r := FindSymbolByName(symbols, bic, token);
    forall s ensures s in inCat <==> s in symbols && s.category == Some(bic) {
      KeepMembers(symbols, (s: ElemType) => s.category == Some(bic), s);
    }
    if inCat != [] {
      assert inCat[0] in inCat;
    }
    if !IsBlankOpt(token) && r.None? && inCat != [] {
      forall s | s in symbols && s.category == Some(bic) ensures !NameOrLabel(s, token.value) {
        var k :| 0 <= k < |inCat| && inCat[k] == s;
      }
    }
  }

  /** A blank token never fails while the category holds a symbol: it takes the first one. */
  lemma BlankTokenTakesFirst(symbols: seq<ElemType>, bic: int)
    requires InCategory(symbols, bic) != []
    ensures FindSymbolByName(symbols, bic, None) == Some(InCategory(symbols, bic)[0])
    ensures FindSymbolByName(symbols, bic, Some("")) == Some(InCategory(symbols, bic)[0])
  {
  }

  // ---------------------------------------------------------------------------
  // BuildClosedProfileXY
  // ---------------------------------------------------------------------------

  /**
   * The closed profile at height z: edge i joins point i to point (i + 1) % n,
   * a null point throws NullReferenceException when its coordinates are read,
   * an edge whose end points coincide is skipped, and fewer than three edges
   * left is an invalid profile.
   */
  function ClosedProfile(poly: Option<seq<Option<Pt2>>>, z: real): Result<seq<Edge>>
  {
    if poly.None? || |poly.value| < 3 then Err("Profile requires at least 3 points.")
    else if !AllGiven(poly.value) then Err(NullReferenceMessage)
    else
      var curves := Keep(Ring(LiftAll(Given(poly.value), z)), NonDegenerate);
      if |curves| < 3 then Err("Invalid profile.") else Ok(curves)
  }

  /** The edge loop of BuildClosedProfileXY. */
  method BuildClosedProfileXY(poly: Option<seq<Option<Pt2>>>, z: real) returns (r: Result<seq<Edge>>)
    ensures r == ClosedProfile(poly, z)
  {
    if poly.None? || |poly.value| < 3 {
      return Err("Profile requires at least 3 points.");
    }
    var pts := poly.value;
    var n := |pts|;
    var curves: seq<Edge> := [];
    var i := 0;
    while i < n
      invariant 0 <= i <= n
      invariant forall j :: 0 <= j < i ==> EndsGiven(pts, j)
      invariant curves == Keep(EdgesUpTo(pts, z, i), NonDegenerate)
    {
      var a := pts[i];
      var b := pts[(i + 1) % n];
      if a.None? || b.None? {
        assert !AllGiven(pts) by {
          if a.None? { assert pts[i].None?; } else { assert pts[(i + 1) % n].None?; }
        }
        return Err(NullReferenceMessage);
      }
      var p1 := Lift(a.value, z);
      var p2 := Lift(b.value, z);
      assert Edge(p1, p2) == EdgeAt(pts, z, i);
      KeepAppend(EdgesUpTo(pts, z, i), Edge(p1, p2), NonDegenerate);
      if !AlmostEqual(p1, p2) {
        curves := curves + [Edge(p1, p2)];
      }
      i := i + 1;
    }
    assert AllGiven(pts) by {
      forall j | 0 <= j < n ensures pts[j].Some? {
        assert EndsGiven(pts, j);
      }
    }
    EdgesUpToRing(pts, z, n);
    if |curves| < 3 {
      return Err("Invalid profile.");
    }
    return Ok(curves);
  }

  /** No consecutive points coincide (cyclically) once placed at height z. */
  predicate NoCoincidentNeighbours(ps: seq<Pt2>, z: real)
  {
    forall i :: 0 <= i < |ps| ==> NonDegenerate(RingEdge(LiftAll(ps, z), i))
  }

  /**
   * A profile is refused for fewer than three points, and one of three or
   * more fails with NullReferenceException exactly when a point is null; an
   * accepted one has between three and n edges, none degenerate, all at
   * height z and all edges of the closed loop; with no coincident
   * neighbours it is the whole closed loop.
   */
  lemma ClosedProfileSpec(poly: Option<seq<Option<Pt2>>>, z: real)
    ensures ClosedProfile(poly, z) == Err("Profile requires at least 3 points.") <==> poly.None? || |poly.value| < 3
    ensures poly.Some? && |poly.value| >= 3 ==>
      (ClosedProfile(poly, z) == Err(NullReferenceMessage) <==> !AllGiven(poly.value))
    ensures ClosedProfile(poly, z).Ok? ==>
      var es := ClosedProfile(poly, z).value;
      AllGiven(poly.value) &&
      3 <= |es| <= |poly.value| &&
      (forall k :: 0 <= k < |es| ==> NonDegenerate(es[k]) && es[k].start.z == z && es[k].end.z == z) &&
      (forall k :: 0 <= k < |es| ==> es[k] in Ring(LiftAll(Given(poly.value), z)))
    ensures poly.Some? && |poly.value| >= 3 && AllGiven(poly.value) && NoCoincidentNeighbours(Given(poly.value), z) ==>
      ClosedProfile(poly, z) == Ok(Ring(LiftAll(Given(poly.value), z)))
  {
    if poly.Some? && |poly.value| >= 3 && AllGiven(poly.value) {
      KeptEdges(Given(poly.value), z);
    }
  }

  /** The non-degenerate edges of the loop through given points lie at height z; with no coincident neighbours all are kept. */
  lemma KeptEdges(pts: seq<Pt2>, z: real)
    ensures var ring := Ring(LiftAll(pts, z));
      |Keep(ring, NonDegenerate)| <= |pts| &&
      (forall e :: e in Keep(ring, NonDegenerate) ==> e in ring && NonDegenerate(e) && e.start.z == z && e.end.z == z)
    ensures NoCoincidentNeighbours(pts, z) ==> Keep(Ring(LiftAll(pts, z)), NonDegenerate) == Ring(LiftAll(pts, z))
  {
    var ps := LiftAll(pts, z);
    var ring := Ring(ps);
    RingUpToIndex(ps, |ps|);
    forall e | e in ring ensures e.start.z == z && e.end.z == z {
      var i :| 0 <= i < |ring| && ring[i] == e;
    }
    forall e ensures e in Keep(ring, NonDegenerate) <==> e in ring && NonDegenerate(e) {
      KeepMembers(ring, NonDegenerate, e);
    }
    if NoCoincidentNeighbours(pts, z) {
      forall i | 0 <= i < |ring| ensures NonDegenerate(ring[i]) {
        assert ring[i] == RingEdge(ps, i);
      }
      KeepAll(ring, NonDegenerate);
    }
  }

  // ---------------------------------------------------------------------------
  // TrySetOffsetByName
  // ---------------------------------------------------------------------------

  /** An element parameter, with whether Parameter.Set succeeds on it. */
  datatype Param = Param(name: Option<string>, hasDefinition: bool, isDouble: bool, readOnly: bool, setSucceeds: bool)

  /** The preferred offset parameter names, in priority order (English, then Spanish). */
  const PreferredOffsetKeys: seq<string> := [
    "Elevation at Top", "Top Elevation", "Level Offset", "Top Offset", "Offset", "Elevation",
    "Cota superior", "Desfase de nivel", "Desfase", "Elevación"]

  /** A parameter with a definition that holds a writable double. */
  predicate Writable(p: Param)
  {
    p.hasDefinition && p.isDouble && !p.readOnly
  }

  /** Definition.Name ?? "". */
  function ParamName(p: Param): string
  {
    if p.name.Some? then p.name.value else ""
  }

  /** The name contains one of the keys, ignoring case. */
  predicate HasKey(name: string, keys: seq<string>)
  {
    exists k :: 0 <= k < |keys| && ContainsIgnoreCase(name, keys[k])
  }

  predicate HasPreferredKey(name: string)
  {
    HasKey(name, PreferredOffsetKeys)
  }

  /** The first pass writes a writable parameter whose name contains a preferred key. */
  predicate PreferredHit(p: Param)
  {
    Writable(p) && HasPreferredKey(ParamName(p)) && p.setSucceeds
  }

  /** The second pass writes a writable parameter named "Offset". */
  const FallbackKey: string := "Offset"

  predicate FallbackHit(p: Param)
  {
    Writable(p) && EqIgnoreCase(ParamName(p), FallbackKey) && p.setSucceeds
  }

  /** The parameter TrySetOffsetByName writes: none for a missing element, else the first pass's, else the second's. */
  function OffsetTarget(e: Option<seq<Param>>): Option<nat>
  {
    if e.None? then None
    else
      var first := FirstIndexFrom(e.value, PreferredHit, 0);
      if first.Some? then first else FirstIndexFrom(e.value, FallbackHit, 0)
  }

  /** The inner loop of the first pass: try the write once per preferred key the name contains. */
  method TryKeys(p: Param, keys: seq<string>) returns (done: bool)
    ensures done <==> HasKey(ParamName(p), keys) && p.setSucceeds
  {
    var name := ParamName(p);
    var k := 0;
    while k < |keys|
      invariant 0 <= k <= |keys|
      invariant forall m :: 0 <= m < k ==> !(ContainsIgnoreCase(name, keys[m]) && p.setSucceeds)
    {
      if ContainsIgnoreCase(name, keys[k]) && p.setSucceeds {
        return true;
      }
      k := k + 1;
    }
    return false;
  }

  /** TrySetOffsetByName: both passes over the parameters, stopping at the first successful write. */
  method TrySetOffsetByName(e: Option<seq<Param>>) returns (ok: bool, written: Option<nat>)
    ensures written == OffsetTarget(e)
    ensures ok <==> written.Some?
  {
    if e.None? {
      return false, None;
    }
    written := PreferredPass(e.value);
    if written.None? {
      written := FallbackPass(e.value, FallbackKey);
    }
    ok := written.Some?;
  }

  /** The first pass: the first writable parameter whose name contains a preferred key and takes the value. */
  method PreferredPass(ps: seq<Param>) returns (written: Option<nat>)
    ensures written == FirstIndexFrom(ps, PreferredHit, 0)
  {
    var i := 0;
    while i < |ps|
      invariant 0 <= i <= |ps|
      invariant forall j :: 0 <= j < i ==> !PreferredHit(ps[j])
    {
      var p := ps[i];
      if p.hasDefinition && p.isDouble && !p.readOnly {
        var done := TryKeys(p, PreferredOffsetKeys);
        if done {
          assert PreferredHit(ps[i]);
          FirstIndexAt(ps, PreferredHit, i);
          return Some(i);
        }
        assert !PreferredHit(ps[i]);
      }
      i := i + 1;
    }
    return None;
  }

  /** The second pass: the first writable parameter named `key` ignoring case that takes the value. */
  method FallbackPass(ps: seq<Param>, key: string) returns (written: Option<nat>)
    requires key == FallbackKey
    ensures written == FirstIndexFrom(ps, FallbackHit, 0)
  {
    var i := 0;
    while i < |ps|
      invariant 0 <= i <= |ps|
      invariant forall j :: 0 <= j < i ==> !FallbackHit(ps[j])
    {
      var p := ps[i];
      if p.hasDefinition && p.isDouble && !p.readOnly {
        if EqIgnoreCase(ParamName(p), key) && p.setSucceeds {
          FirstIndexAt(ps, FallbackHit, i);
          return Some(i);
        }
      }
      i := i + 1;
    }
    return None;
  }

  /**
   * The parameter written is writable, its name contains a preferred key and
   * its write succeeded, and every earlier such parameter failed to take the
   * value; nothing is written for a missing element or when no parameter
   * qualifies.
   */
  lemma OffsetTargetSpec(e: Option<seq<Param>>)
    ensures e.None? ==> OffsetTarget(e).None?
    ensures OffsetTarget(e).Some? ==>
      var i := OffsetTarget(e).value;
      i < |e.value| && Writable(e.value[i]) && HasPreferredKey(ParamName(e.value[i])) && e.value[i].setSucceeds &&
      forall j :: 0 <= j < i ==> !PreferredHit(e.value[j])
    ensures e.Some? && OffsetTarget(e).None? ==> forall j :: 0 <= j < |e.value| ==> !PreferredHit(e.value[j])
  {
    if e.Some? {
      FallbackAddsNothing(e.value);
    }
  }

  /**
   * The second pass never writes anything: a parameter named "Offset"
   * contains the preferred key "Offset", so the first pass already tried it.
   */
  lemma FallbackAddsNothing(ps: seq<Param>)
    ensures OffsetTarget(Some(ps)) == FirstIndexFrom(ps, PreferredHit, 0)
  {
    assert PreferredOffsetKeys[4] == FallbackKey;
    forall j | 0 <= j < |ps| && FallbackHit(ps[j]) ensures PreferredHit(ps[j]) {
      EqIgnoreCaseContains(ParamName(ps[j]), FallbackKey);
    }
  }

  // ---------------------------------------------------------------------------
  // Family instances: struct.beam.create, struct.column.create,
  // struct.foundation.isolated.create
  // ---------------------------------------------------------------------------

  /** Where NewFamilyInstance places the instance. */
  datatype Location = AlongLine(line: Edge) | AtPoint(point: XYZ)

  datatype StructuralKind = Beam | Column | Footing

  /** What is handed to NewFamilyInstance, and the "used" part of the reply. */
  datatype InstancePlan = InstancePlan(
    kind: StructuralKind, symbol: ElemType, level: Level, at: Location,
    baseOffsetFt: Option<real>, pinned: bool,
    usedLevel: string, usedFamilyType: string)

  datatype BeamRequest = BeamRequest(familyType: Option<string>, elevation: Option<real>, start: Option<Pt2>,
                                     end: Option<Pt2>)
  datatype ColumnRequest = ColumnRequest(familyType: Option<string>, elevation: Option<real>, point: Option<Pt2>)
  datatype FoundationRequest = FoundationRequest(familyType: Option<string>, point: Option<Pt2>, baseOffset: Option<real>,
                                                 pinned: Option<bool>)

  /** A symbol of the category, or the action's error. */
  function SymbolOr(symbols: seq<ElemType>, bic: int, token: Option<string>, missing: string): Result<ElemType>
  {
    var s := FindSymbolByName(symbols, bic, token);
    if s.Some? then Ok(s.value) else Err(missing)
  }

  /**
   * struct.beam.create: a framing instance along start-end, elevation_m (3.0
   * by default) above the level; a missing end point is read through null
   * once the symbol is found.
   */
  function BeamCreate(level: Result<Level>, symbols: seq<ElemType>, req: BeamRequest): Result<InstancePlan>
  {
    if level.Err? then Err(level.error)
    else
      var lv := level.value;
      var z := lv.elevation + MToFt(OrReal(req.elevation, 3.0));
      var sym := SymbolOr(symbols, OST_StructuralFraming, req.familyType, "No Structural Framing FamilySymbol found.");
      if sym.Err? then Err(sym.error)
      else if req.start.None? || req.end.None? then Err(NullReferenceMessage)
      else Ok(InstancePlan(Beam, sym.value, lv, AlongLine(Edge(Lift(req.start.value, z), Lift(req.end.value, z))),
                           None, false, lv.name, Label(sym.value)))
  }

  /** struct.column.create: a column instance at the point, elevation_m (0.0 by default) above the level; no point is a null read. */
  function ColumnCreate(level: Result<Level>, symbols: seq<ElemType>, req: ColumnRequest): Result<InstancePlan>
  {
    if level.Err? then Err(level.error)
    else
      var lv := level.value;
      var z := lv.elevation + MToFt(OrReal(req.elevation, 0.0));
      var sym := SymbolOr(symbols, OST_StructuralColumns, req.familyType, "No Structural Column FamilySymbol found.");
      if sym.Err? then Err(sym.error)
      else if req.point.None? then Err(NullReferenceMessage)
      else Ok(InstancePlan(Column, sym.value, lv, AtPoint(Lift(req.point.value, z)), None, false, lv.name, Label(sym.value)))
  }

  /**
   * struct.foundation.isolated.create: a footing at the point on the level,
   * with the optional base offset and pin; no point is a null read.
   */
  function FoundationIsolatedCreate(level: Result<Level>, symbols: seq<ElemType>, req: FoundationRequest): Result<InstancePlan>
  {
    if level.Err? then Err(level.error)
    else
      var lv := level.value;
      var sym := SymbolOr(symbols, OST_StructuralFoundation, req.familyType,
                          "No Structural Foundation FamilySymbol (isolated) found.");
      if sym.Err? then Err(sym.error)
      else if req.point.None? then Err(NullReferenceMessage)
      else
        var offset := if req.baseOffset.Some? then Some(MToFt(req.baseOffset.value)) else None;
        Ok(InstancePlan(Footing, sym.value, lv, AtPoint(Lift(req.point.value, lv.elevation)), offset,
                        req.pinned == Some(true), lv.name, Label(sym.value)))
  }

  /**
   * Each family-instance action fails exactly when the level fails, its
   * category has no symbol for the token, or a point it reads is missing
   * (the null-reference message); otherwise it places the symbol
   * FindSymbolByName chose, and reports that symbol's "Family: Type" label.
   * The beam runs along start-end at its elevation above the level.
   */
  lemma BeamCreateSpec(level: Result<Level>, symbols: seq<ElemType>, b: BeamRequest)
    ensures BeamCreate(level, symbols, b).Ok? <==>
      level.Ok? && FindSymbolByName(symbols, OST_StructuralFraming, b.familyType).Some? && b.start.Some? && b.end.Some?
    ensures level.Ok? && FindSymbolByName(symbols, OST_StructuralFraming, b.familyType).Some? && (b.start.None? || b.end.None?)
      ==> BeamCreate(level, symbols, b) == Err(NullReferenceMessage)
    ensures BeamCreate(level, symbols, b).Ok? ==>
      var p := BeamCreate(level, symbols, b).value;
      Some(p.symbol) == FindSymbolByName(symbols, OST_StructuralFraming, b.familyType) &&
      p.symbol.category == Some(OST_StructuralFraming) && p.usedFamilyType == Label(p.symbol) &&
      p.at.AlongLine? && p.at.line.start.z == level.value.elevation + MToFt(OrReal(b.elevation, 3.0))
    ensures level.Ok? && FindSymbolByName(symbols, OST_StructuralFraming, b.familyType).None? ==>
      BeamCreate(level, symbols, b) == Err("No Structural Framing FamilySymbol found.")
  {
    FindSymbolByNameSpec(symbols, OST_StructuralFraming, b.familyType);
  }

  /** The column stands at the point, at its base offset above the level. */
  lemma ColumnCreateSpec(level: Result<Level>, symbols: seq<ElemType>, c: ColumnRequest)
    ensures ColumnCreate(level, symbols, c).Ok? <==>
      level.Ok? && FindSymbolByName(symbols, OST_StructuralColumns, c.familyType).Some? && c.point.Some?
    ensures level.Ok? && FindSymbolByName(symbols, OST_StructuralColumns, c.familyType).Some? && c.point.None? ==>
      ColumnCreate(level, symbols, c) == Err(NullReferenceMessage)
    ensures ColumnCreate(level, symbols, c).Ok? ==>
      var p := ColumnCreate(level, symbols, c).value;
      Some(p.symbol) == FindSymbolByName(symbols, OST_StructuralColumns, c.familyType) &&
      p.symbol.category == Some(OST_StructuralColumns) && p.usedFamilyType == Label(p.symbol) &&
      p.at.AtPoint? && p.at.point.z == level.value.elevation + MToFt(OrReal(c.elevation, 0.0))
    ensures level.Ok? && FindSymbolByName(symbols, OST_StructuralColumns, c.familyType).None? ==>
      ColumnCreate(level, symbols, c) == Err("No Structural Column FamilySymbol found.")
  {
    FindSymbolByNameSpec(symbols, OST_StructuralColumns, c.familyType);
  }

  /** The footing sits on the level; the base offset and pin are applied only when requested. */
  lemma FoundationIsolatedSpec(level: Result<Level>, symbols: seq<ElemType>, f: FoundationRequest)
    ensures FoundationIsolatedCreate(level, symbols, f).Ok? <==>
      level.Ok? && FindSymbolByName(symbols, OST_StructuralFoundation, f.familyType).Some? && f.point.Some?
    ensures level.Ok? && FindSymbolByName(symbols, OST_StructuralFoundation, f.familyType).Some? && f.point.None? ==>
      FoundationIsolatedCreate(level, symbols, f) == Err(NullReferenceMessage)
    ensures FoundationIsolatedCreate(level, symbols, f).Ok? ==>
      var p := FoundationIsolatedCreate(level, symbols, f).value;
      Some(p.symbol) == FindSymbolByName(symbols, OST_StructuralFoundation, f.familyType) &&
      p.symbol.category == Some(OST_StructuralFoundation) && p.usedFamilyType == Label(p.symbol) &&
      p.at.AtPoint? && p.at.point.z == level.value.elevation &&
      (p.baseOffsetFt.Some? <==> f.baseOffset.Some?) && (p.pinned <==> f.pinned == Some(true))
    ensures level.Ok? && FindSymbolByName(symbols, OST_StructuralFoundation, f.familyType).None? ==>
      FoundationIsolatedCreate(level, symbols, f) == Err("No Structural Foundation FamilySymbol (isolated) found.")
  {
    FindSymbolByNameSpec(symbols, OST_StructuralFoundation, f.familyType);
  }

  // ---------------------------------------------------------------------------
  // struct.floor.create
  // ---------------------------------------------------------------------------

  datatype FloorRequest = FloorRequest(floorType: Option<string>, profile: Option<seq<Option<Pt2>>>)

  datatype FloorPlan = FloorPlan(floorType: ElemType, level: Level, curves: seq<Edge>, usedLevel: string, usedFloorType: string)

  /** The floor type: the first for a blank name, else the first matching name or label. */
  function StructuralFloorType(ftypes: seq<ElemType>, token: Option<string>): Option<ElemType>
  {
    if IsBlankOpt(token) then FirstOf(ftypes) else MatchNameOrLabel(ftypes, token.value)
  }

  /** struct.floor.create: the floor type, then the closed profile at the level's elevation. */
  function StructuralFloorCreate(level: Result<Level>, ftypes: seq<ElemType>, req: FloorRequest): Result<FloorPlan>
  {
    if level.Err? then Err(level.error)
    else
      var lv := level.value;
      var ft := StructuralFloorType(ftypes, req.floorType);
      if ft.None? then Err("FloorType not found.")
      else
        var curves := ClosedProfile(req.profile, lv.elevation);
        if curves.Err? then Err(curves.error)
        else Ok(FloorPlan(ft.value, lv, curves.value, lv.name, Label(ft.value)))
  }

  /**
   * The floor type is checked before the profile; an unmatched name is an
   * error rather than a fall back to the first type; the floor's outline
   * is the closed profile at the level's elevation, and a profile error,
   * a null point among them, is the action's error.
   */
  lemma StructuralFloorSpec(level: Result<Level>, ftypes: seq<ElemType>, req: FloorRequest)
    ensures level.Ok? && !IsBlankOpt(req.floorType) && (forall t :: t in ftypes ==> !NameOrLabel(t, req.floorType.value)) ==>
      StructuralFloorCreate(level, ftypes, req) == Err("FloorType not found.")
    ensures level.Ok? && ftypes == [] ==> StructuralFloorCreate(level, ftypes, req) == Err("FloorType not found.")
    ensures StructuralFloorCreate(level, ftypes, req).Ok? ==>
      var p := StructuralFloorCreate(level, ftypes, req).value;
      ClosedProfile(req.profile, level.value.elevation) == Ok(p.curves) && p.floorType in ftypes &&
      (IsBlankOpt(req.floorType) ==> p.floorType == ftypes[0]) &&
      (!IsBlankOpt(req.floorType) ==> NameOrLabel(p.floorType, req.floorType.value))
    ensures level.Ok? && StructuralFloorType(ftypes, req.floorType).Some? && ClosedProfile(req.profile, level.value.elevation).Err? ==>
      StructuralFloorCreate(level, ftypes, req) == Err(ClosedProfile(req.profile, level.value.elevation).error)
    ensures level.Ok? && StructuralFloorType(ftypes, req.floorType).Some? &&
            req.profile.Some? && |req.profile.value| >= 3 && !AllGiven(req.profile.value) ==>
      StructuralFloorCreate(level, ftypes, req) == Err(NullReferenceMessage)
  {
    if level.Ok? && !IsBlankOpt(req.floorType) && (forall t :: t in ftypes ==> !NameOrLabel(t, req.floorType.value)) {
      assert MatchNameOrLabel(ftypes, req.floorType.value).None?;
    }
  }

  // ---------------------------------------------------------------------------
  // struct.columns.place_on_grid
  // ---------------------------------------------------------------------------

  const ColumnsPlaceOnGridMessage: string :=
    "ColumnsPlaceOnGrid is already defined in your previous file; deja esta signatura como estaba."

  /**
   * struct.columns.place_on_grid: whatever its arguments, the job fails when it
   * runs, so the request is not modelled.
   */
  function ColumnsPlaceOnGrid(): (r: Result<seq<int>>)
    ensures r == Err(ColumnsPlaceOnGridMessage)
  {
    Err(ColumnsPlaceOnGridMessage)
  }

  // ---------------------------------------------------------------------------
  // struct.foundation.wall.create
  // ---------------------------------------------------------------------------

  datatype WallFoundationRequest = WallFoundationRequest(wallId: int, typeName: Option<string>, baseOffset: Option<real>)

  /** The foundation WallFoundation.Create returned: its id and its parameters. */
  datatype CreatedFoundation = CreatedFoundation(id: int, params: seq<Param>)

  /** The reply, and the parameter the base offset was written to. */
  datatype WallFoundationReply = WallFoundationReply(elementId: int, wallId: int, foundationType: string, offsetWritten: Option<nat>)

  /** The foundation type: the first for a blank name, else the first name match, else the first. */
  function WallFoundationType(types: seq<ElemType>, token: Option<string>): Option<ElemType>
  {
    if types == [] then None
    else if IsBlankOpt(token) then Some(types[0])
    else
      var m := MatchName(types, token.value);
      if m.Some? then m else Some(types[0])
  }

  /**
   * struct.foundation.wall.create. `wall` is the element with wallId when it
   * is a wall; `hasCreate` whether WallFoundation.Create(Document, ElementId,
   * ElementId) exists; `created` what it returned.
   */
  function WallFoundationCreate(wall: Option<int>, types: seq<ElemType>, req: WallFoundationRequest,
                                hasCreate: bool, created: Option<CreatedFoundation>): Result<WallFoundationReply>
  {
    if wall.None? then Err("Wall " + IntToString(req.wallId) + " not found.")
    else if types == [] then Err("No WallFoundationType types in model.")
    else if !hasCreate then Err("WallFoundation.Create API not available in this Revit version.")
    else
      var t := WallFoundationType(types, req.typeName).value;
      var written := if req.baseOffset.Some? && created.Some? then OffsetTarget(Some(created.value.params)) else None;
      var id := if created.Some? then created.value.id else 0;
      Ok(WallFoundationReply(id, wall.value, t.name, written))
  }

  /**
   * A foundation type is always found when the model has one: an unmatched
   * name falls back to the first type instead of failing. The base offset
   * is written only when requested and the foundation exists, to the
   * parameter TrySetOffsetByName picks; a missing foundation reports id 0.
   */
  lemma WallFoundationSpec(wall: Option<int>, types: seq<ElemType>, req: WallFoundationRequest,
                           hasCreate: bool, created: Option<CreatedFoundation>)
    ensures types != [] ==> WallFoundationType(types, req.typeName).Some? && WallFoundationType(types, req.typeName).value in types
    ensures types != [] && !IsBlankOpt(req.typeName) && (forall t :: t in types ==> !EqIgnoreCase(t.name, req.typeName.value)) ==>
      WallFoundationType(types, req.typeName) == Some(types[0])
    ensures types != [] && !IsBlankOpt(req.typeName) && MatchName(types, req.typeName.value).Some? ==>
      EqIgnoreCase(WallFoundationType(types, req.typeName).value.name, req.typeName.value)
    ensures WallFoundationCreate(wall, types, req, hasCreate, created).Ok? <==> wall.Some? && types != [] && hasCreate
    ensures WallFoundationCreate(wall, types, req, hasCreate, created).Ok? ==>
      var r := WallFoundationCreate(wall, types, req, hasCreate, created).value;
      (r.offsetWritten.Some? ==>
         req.baseOffset.Some? && created.Some? && r.offsetWritten == FirstIndexFrom(created.value.params, PreferredHit, 0)) &&
      (created.None? ==> r.elementId == 0 && r.offsetWritten.None?)
  {
    if types != [] && !IsBlankOpt(req.typeName) && (forall t :: t in types ==> !EqIgnoreCase(t.name, req.typeName.value)) {
      assert MatchName(types, req.typeName.value).None?;
    }
    if created.Some? {
      FallbackAddsNothing(created.value.params);
    }
  }

  // ---------------------------------------------------------------------------
  // struct.beamsystem.create
  // ---------------------------------------------------------------------------

  /** The beam direction: a basis vector, or the direction of a profile edge. */
  datatype Direction = BasisX | BasisY | AlongEdge(edge: Edge)

  /** "X" or "Y" ignoring case when given; otherwise the direction of the first profile edge. */
  function BeamDirection(direction: Option<string>, curves: seq<Edge>): Direction
    requires |curves| > 0
  {
    if !IsBlankOpt(direction) && EqIgnoreCase(direction.value, "X") then BasisX
    else if !IsBlankOpt(direction) && EqIgnoreCase(direction.value, "Y") then BasisY
    else AlongEdge(curves[0])
  }

  datatype BeamSystemRequest = BeamSystemRequest(
    profile: Option<seq<Option<Pt2>>>, beamType: Option<string>, direction: Option<string>,
    spacing: Option<real>, is3D: Option<bool>)

  datatype BeamSystemPlan = BeamSystemPlan(
    level: Level, curves: seq<Edge>, direction: Direction, is3D: bool, beamSymbol: Option<ElemType>,
    usedLevel: string, usedBeamType: string, usedSpacing: Option<real>, usedDirection: string)

  /**
   * struct.beamsystem.create. `created` is whether one of the BeamSystem.Create
   * overloads the bridge probes for produced a beam system.
   */
  function BeamSystemCreate(level: Result<Level>, symbols: seq<ElemType>, req: BeamSystemRequest, created: bool): Result<BeamSystemPlan>
  {
    if level.Err? then Err(level.error)
    else
      var lv := level.value;
      var curves := ClosedProfile(req.profile, lv.elevation);
      if curves.Err? then Err(curves.error)
      else
        var dir := BeamDirection(req.direction, curves.value);
        var beamSym := FindSymbolByName(symbols, OST_StructuralFraming, req.beamType);
        if !created then Err("BeamSystem.Create API not available/compatible in this Revit version.")
        else
          Ok(BeamSystemPlan(lv, curves.value, dir, req.is3D == Some(true), beamSym, lv.name,
                            if beamSym.Some? then Label(beamSym.value) else "(system default)",
                            req.spacing, if req.direction.Some? then req.direction.value else "auto"))
  }

  /**
   * The direction is X or Y exactly when the request names it (ignoring
   * case), and otherwise follows the first profile edge; the reply echoes
   * the requested text (or "auto"), not the direction used. A profile
   * error, a null point among them, is the action's error.
   */
  lemma BeamSystemSpec(level: Result<Level>, symbols: seq<ElemType>, req: BeamSystemRequest, created: bool)
    ensures BeamSystemCreate(level, symbols, req, created).Ok? ==>
      var p := BeamSystemCreate(level, symbols, req, created).value;
      ClosedProfile(req.profile, level.value.elevation) == Ok(p.curves) &&
      (p.direction == BasisX <==> req.direction.Some? && EqIgnoreCase(req.direction.value, "X")) &&
      (p.direction == BasisY <==> req.direction.Some? && EqIgnoreCase(req.direction.value, "Y")) &&
      (p.direction.AlongEdge? ==> p.direction.edge == p.curves[0]) &&
      (req.direction.None? ==> p.usedDirection == "auto") &&
      (req.direction.Some? ==> p.usedDirection == req.direction.value)
    ensures BeamSystemCreate(level, symbols, req, created).Ok? <==>
      level.Ok? && ClosedProfile(req.profile, level.value.elevation).Ok? && created
    ensures level.Ok? && ClosedProfile(req.profile, level.value.elevation).Err? ==>
      BeamSystemCreate(level, symbols, req, created) == Err(ClosedProfile(req.profile, level.value.elevation).error)
    ensures level.Ok? && req.profile.Some? && |req.profile.value| >= 3 && !AllGiven(req.profile.value) ==>
      BeamSystemCreate(level, symbols, req, created) == Err(NullReferenceMessage)
  {
    if BeamSystemCreate(level, symbols, req, created).Ok? {
      var p := BeamSystemCreate(level, symbols, req, created).value;
      var d := req.direction;
      if d.Some? && EqIgnoreCase(d.value, "X") {
        assert !IsBlank(d.value) by { assert |d.value| == 1 && !IsSpace(d.value[0]); }
      }
      if d.Some? && EqIgnoreCase(d.value, "Y") {
        assert !IsBlank(d.value) by { assert |d.value| == 1 && !IsSpace(d.value[0]); }
        assert !EqIgnoreCase(d.value, "X");
      }
    }
  }

  // ---------------------------------------------------------------------------
  // struct.rebar.add_straight_on_beam
  // ---------------------------------------------------------------------------

  /** The host element with hostId when it is a family instance: its category and location curve. */
  datatype RebarHost = RebarHost(id: int, category: Option<int>, curve: Option<Edge>)

  datatype RebarRequest = RebarRequest(hostId: int, barType: Option<string>, number: Option<int>,
                                       spacing: Option<real>, zOffset: Option<real>)

  datatype RebarLayout = Single | FixedNumber(n: int) | NumberWithSpacing(n: int, spacingFt: real)

  datatype RebarPlan = RebarPlan(host: int, barType: ElemType, line: Edge, layout: RebarLayout)

  /** Math.Max(1, number ?? 1). */
  function RebarCount(number: Option<int>): (n: int)
    ensures n >= 1
    ensures number.Some? && number.value >= 1 ==> n == number.value
    ensures number.None? || number.value <= 1 ==> n == 1
  {
    var k := if number.Some? then number.value else 1;
    if k > 1 then k else 1
  }

  /** The layout changes from a single bar only for more than one bar. */
  function RebarLayoutOf(number: Option<int>, spacing: Option<real>): RebarLayout
  {
    var n := RebarCount(number);
    if n > 1 then
      if spacing.Some? then NumberWithSpacing(n, MToFt(spacing.value)) else FixedNumber(n)
    else Single
  }

  /** The bar's end points, raised by the optional vertical offset. */
  function Raise(e: Edge, zOffset: Option<real>): Edge
  {
    if zOffset.Some? then
      var dz := MToFt(zOffset.value);
      Edge(XYZ(e.start.x, e.start.y, e.start.z + dz), XYZ(e.end.x, e.end.y, e.end.z + dz))
    else e
  }

  function RebarAddStraightOnBeam(host: Option<RebarHost>, barTypes: seq<ElemType>, req: RebarRequest): Result<RebarPlan>
  {
    if host.None? then Err("Host " + IntToString(req.hostId) + " not found or not FamilyInstance.")
    else if host.value.category != Some(OST_StructuralFraming) then Err("Host must be a Structural Framing (beam).")
    else if host.value.curve.None? then Err("Host beam has no LocationCurve.")
    else
      var line := Raise(host.value.curve.value, req.zOffset);
      var bt := if IsBlankOpt(req.barType) then FirstOf(barTypes) else MatchName(barTypes, req.barType.value);
      if bt.None? then Err("No RebarBarType found.")
      else Ok(RebarPlan(host.value.id, bt.value, line, RebarLayoutOf(req.number, req.spacing)))
  }

  /**
   * The host must be a framing instance with a location curve; the bar runs
   * along that curve, raised by the offset; a named bar type must match by
   * name; the layout is a single bar unless more than one is requested, and
   * then holds exactly that many.
   */
  lemma RebarSpec(host: Option<RebarHost>, barTypes: seq<ElemType>, req: RebarRequest)
    ensures RebarAddStraightOnBeam(host, barTypes, req).Ok? ==>
      var p := RebarAddStraightOnBeam(host, barTypes, req).value;
      host.Some? && host.value.category == Some(OST_StructuralFraming) && host.value.curve.Some? &&
      p.barType in barTypes &&
      (!IsBlankOpt(req.barType) ==> EqIgnoreCase(p.barType.name, req.barType.value)) &&
      p.line.start.z - host.value.curve.value.start.z == (if req.zOffset.Some? then MToFt(req.zOffset.value) else 0.0) &&
      (p.layout.Single? <==> req.number.None? || req.number.value <= 1) &&
      (!p.layout.Single? ==> p.layout.n == req.number.value && p.layout.n > 1) &&
      (p.layout.NumberWithSpacing? <==> !p.layout.Single? && req.spacing.Some?)
    ensures host.Some? && host.value.category == Some(OST_StructuralFraming) && host.value.curve.Some? && barTypes == [] ==>
      RebarAddStraightOnBeam(host, barTypes, req) == Err("No RebarBarType found.")
  {
  }
}
