// The architecture actions: walls, floors, ceilings and roofs from closed
// profiles, doors and windows hosted in walls, rooms on levels, floors and
// ceilings from rooms, and free-standing families. The document is given as
// records (the types, walls, levels and rooms it holds, and the level a
// request resolves to); the Revit calls whose behaviour is not part of the
// bridge are parameters that give their outcome.

module Architecture {
  import opened Text
  import opened Seqs
  import opened Revit

  // BuiltInCategory ids of the hosted families.
  const OST_Doors: int := -2000023
  const OST_Windows: int := -2000014

  /**
   * The outcome of an action that checks some of its arguments in the
   * factory: `Refused` is thrown while parsing the arguments, before any job
   * is queued; `Failed` is thrown by the queued job when it runs.
   */
  datatype Phased<T> = Done(value: T) | Refused(message: string) | Failed(message: string)

  // ---------------------------------------------------------------------------
  // Family symbols and element types
  // ---------------------------------------------------------------------------

  /**
   * ResolveFamilySymbolByCategory: among the symbols of the category, the
   * first whose name or label is the token (ignoring case), else an error
   * listing up to ten labels; with a blank token, the first symbol of the
   * category, else an error saying none is loaded.
   */
  function ResolveFamilySymbolByCategory(symbols: seq<ElemType>, bic: int, token: Option<string>, notFoundMsg: string): Result<ElemType>
  {
    var q := InCategory(symbols, bic);
    if !IsBlankOpt(token) then
      match MatchNameOrLabel(q, token.value)
      case Some(s) => Ok(s)
      case None => Err(notFoundMsg + " Ejemplos: " + Examples(q, Label))
    else if q == [] then Err(notFoundMsg + " (no hay tipos cargados).")
    else Ok(q[0])
  }

  /**
   * The symbol found belongs to the category; a named symbol matches the
   * token and fails exactly when no symbol of the category matches; a blank
   * token takes the first symbol and fails exactly when the category is
   * empty. Every error starts with the caller's message.
   */
  lemma ResolveFamilySymbolByCategorySpec(symbols: seq<ElemType>, bic: int, token: Option<string>, notFoundMsg: string)
    ensures var r := ResolveFamilySymbolByCategory(symbols, bic, token, notFoundMsg);
      (r.Ok? ==> r.value in symbols && r.value.category == Some(bic)) &&
      (r.Err? ==> StartsWith(r.error, notFoundMsg)) &&
      (!IsBlankOpt(token) ==>
        (r.Ok? ==> NameOrLabel(r.value, token.value)) &&
        (r.Err? <==> forall s :: s in symbols && s.category == Some(bic) ==> !NameOrLabel(s, token.value))) &&
      (IsBlankOpt(token) ==>
        (r.Err? <==> forall s :: s in symbols ==> s.category != Some(bic)) &&
        (r.Ok? ==> r.value == InCategory(symbols, bic)[0]))
  {
    var q := InCategory(symbols, bic);
    forall s ensures s in q <==> s in symbols && s.category == Some(bic) {
      KeepMembers(symbols, (s: ElemType) => s.category == Some(bic), s);
    }
    if q != [] {
      assert q[0] in q;
    }
    var r := ResolveFamilySymbolByCategory(symbols, bic, token, notFoundMsg);
    if !IsBlankOpt(token) && r.Err? {
      forall s | s in symbols && s.category == Some(bic) ensures !NameOrLabel(s, token.value) {
        var k :| 0 <= k < |q| && q[k] == s;
      }
    }
    if r.Err? {
      assert r.error[..|notFoundMsg|] == notFoundMsg;
    }
  }

  const SymbolRequiredMessage: string := "familySymbol requerido (e.g. \"Familia: Tipo\" o \"Tipo\")."

  /**
   * ResolveFamilySymbolAny: a blank token is an error; otherwise the first
   * symbol of any category whose name or label is the token, else an error
   * naming the token and listing up to ten labels.
   */
  function ResolveFamilySymbolAny(symbols: seq<ElemType>, token: Option<string>): Result<ElemType>
  {
    if IsBlankOpt(token) then Err(SymbolRequiredMessage)
    else
      match MatchNameOrLabel(symbols, token.value)
      case Some(s) => Ok(s)
      case None => Err("FamilySymbol '" + token.value + "' no encontrado. Ejemplos: " + Examples(symbols, Label))
  }

  lemma ResolveFamilySymbolAnySpec(symbols: seq<ElemType>, token: Option<string>)
    ensures IsBlankOpt(token) ==> ResolveFamilySymbolAny(symbols, token) == Err(SymbolRequiredMessage)
    ensures var r := ResolveFamilySymbolAny(symbols, token);
      !IsBlankOpt(token) ==>
        (r.Ok? ==> r.value in symbols && NameOrLabel(r.value, token.value)) &&
        (r.Err? <==> forall i :: 0 <= i < |symbols| ==> !NameOrLabel(symbols[i], token.value))
  {
  }

  /**
   * The type choice of the floor, ceiling and roof actions: the first type
   * whose name or label is the token, else "<Kind> '<token>' not found.";
   * with a blank token the first type, else "No <Kind> found.".
   */
  function ResolveType(types: seq<ElemType>, token: Option<string>, kind: string): Result<ElemType>
  {
    if !IsBlankOpt(token) then
      match MatchNameOrLabel(types, token.value)
      case Some(t) => Ok(t)
      case None => Err(kind + " '" + token.value + "' not found.")
    else if types == [] then Err("No " + kind + " found.")
    else Ok(types[0])
  }

  lemma ResolveTypeSpec(types: seq<ElemType>, token: Option<string>, kind: string)
    ensures var r := ResolveType(types, token, kind);
      (r.Ok? ==> r.value in types) &&
      (!IsBlankOpt(token) ==>
        (r.Ok? ==> NameOrLabel(r.value, token.value)) &&
        (r.Err? <==> forall i :: 0 <= i < |types| ==> !NameOrLabel(types[i], token.value))) &&
      (IsBlankOpt(token) ==> (r.Err? <==> types == []) && (r.Ok? ==> r.value == types[0]))
  {
  }

  // ---------------------------------------------------------------------------
  // Default wall type
  // ---------------------------------------------------------------------------

  /** A wall type, and whether its kind is WallKind.Curtain. */
  datatype WallType = WallType(elem: ElemType, isCurtain: bool)

  const GenericMarker: string := "Generic"

  predicate IsGeneric(w: WallType)
  {
    ContainsIgnoreCase(w.elem.name, GenericMarker)
  }

  /**
   * `a` sorts strictly before `b` under OrderByDescending(name contains
   * "Generic").ThenBy(name): a generic type before a non-generic one, then
   * by name.
   */
  predicate Precedes(a: WallType, b: WallType)
  {
    (IsGeneric(a) && !IsGeneric(b)) || (IsGeneric(a) == IsGeneric(b) && !LessEq(b.elem.name, a.elem.name))
  }

  lemma PrecedesIrreflexive(a: WallType)
    ensures !Precedes(a, a)
  {
    LessEqTotal(a.elem.name, a.elem.name);
  }

  lemma PrecedesAsym(a: WallType, b: WallType)
    ensures Precedes(a, b) ==> !Precedes(b, a)
  {
    LessEqTotal(a.elem.name, b.elem.name);
  }

  /** Sorting strictly before `b`, which sorts no later than `c`, sorts strictly before `c`. */
  lemma PrecedesThrough(a: WallType, b: WallType, c: WallType)
    ensures Precedes(a, b) && !Precedes(c, b) ==> Precedes(a, c)
  {
    if LessEq(b.elem.name, c.elem.name) && LessEq(c.elem.name, a.elem.name) {
      LessEqTrans(b.elem.name, c.elem.name, a.elem.name);
    }
  }

  lemma PrecedesTrans(a: WallType, b: WallType, c: WallType)
    ensures Precedes(a, b) && Precedes(b, c) ==> Precedes(a, c)
  {
    PrecedesAsym(b, c);
    PrecedesThrough(a, b, c);
  }

  /** When type n - 1 sorts before the best of the first n - 1 types, it becomes the first of the n. */
  lemma LastComesFirst(ws: seq<WallType>, n: nat, k: nat)
    requires 0 <= k < n - 1 && n <= |ws|
    requires forall j :: 0 <= j < n - 1 ==> !Precedes(ws[j], ws[k])
    requires Precedes(ws[n - 1], ws[k])
    ensures forall j :: 0 <= j < n ==> !Precedes(ws[j], ws[n - 1])
    ensures forall j :: 0 <= j < n - 1 ==> Precedes(ws[n - 1], ws[j])
  {
    var last := ws[n - 1];
    PrecedesIrreflexive(last);
    forall j | 0 <= j < n - 1
      ensures !Precedes(ws[j], last) && Precedes(last, ws[j])
    {
      PrecedesTrans(ws[j], last, ws[k]);
      PrecedesThrough(last, ws[k], ws[j]);
    }
  }

  /** Among the first n types, the index of the one a stable sort puts first. */
  function FirstInOrderUpTo(ws: seq<WallType>, n: nat): (k: nat)
    requires 0 < n <= |ws|
    ensures k < n
  {
    if n == 1 then 0
    else
      var k := FirstInOrderUpTo(ws, n - 1);
      if Precedes(ws[n - 1], ws[k]) then n - 1 else k
  }

  /**
   * No type sorts strictly before the one chosen, and every type ahead
   * of it in collector order sorts strictly after it (so ties keep the
   * earliest): it is the first element of the stable sort.
   */
  lemma {:induction false} FirstInOrderSpec(ws: seq<WallType>, n: nat)
    requires 0 < n <= |ws|
    ensures forall j :: 0 <= j < n ==> !Precedes(ws[j], ws[FirstInOrderUpTo(ws, n)])
    ensures forall j :: 0 <= j < FirstInOrderUpTo(ws, n) ==> Precedes(ws[FirstInOrderUpTo(ws, n)], ws[j])
  {
    if n == 1 {
      PrecedesIrreflexive(ws[0]);
    } else {
      FirstInOrderSpec(ws, n - 1);
      var k := FirstInOrderUpTo(ws, n - 1);
      if Precedes(ws[n - 1], ws[k]) {
        assert FirstInOrderUpTo(ws, n) == n - 1;
        LastComesFirst(ws, n, k);
      } else {
        assert FirstInOrderUpTo(ws, n) == k;
        forall j | 0 <= j < n ensures !Precedes(ws[j], ws[k]) {
          if j == n - 1 {
            assert ws[j] == ws[n - 1];
          }
        }
      }
    }
  }

  function FirstInOrder(ws: seq<WallType>): nat
    requires |ws| > 0
  {
    FirstInOrderUpTo(ws, |ws|)
  }

  function NonCurtain(types: seq<WallType>): seq<WallType>
  {
    Keep(types, (w: WallType) => !w.isCurtain)
  }

  /** The wall type used when the request names none: the first non-curtain type in that order. */
  function DefaultWallType(types: seq<WallType>): Option<WallType>
  {
    var c := NonCurtain(types);
    if c == [] then None else Some(c[FirstInOrder(c)])
  }

  /**
   * The default is missing exactly when every type is a curtain wall; it is
   * a non-curtain type, generic whenever some non-curtain type is, and its
   * name is ordinally no greater than that of any non-curtain type of the
   * same kind.
   */
  lemma DefaultWallTypeSpec(types: seq<WallType>)
    ensures DefaultWallType(types).None? <==> forall w :: w in types ==> w.isCurtain
    ensures DefaultWallType(types).Some? ==>
      var d := DefaultWallType(types).value;
      d in types && !d.isCurtain &&
      (forall w :: w in types && !w.isCurtain && IsGeneric(w) ==> IsGeneric(d)) &&
      (forall w :: w in types && !w.isCurtain && IsGeneric(w) == IsGeneric(d) ==> LessEq(d.elem.name, w.elem.name))
  {
    var c := NonCurtain(types);
    forall w ensures w in c <==> w in types && !w.isCurtain {
      KeepMembers(types, (w: WallType) => !w.isCurtain, w);
    }
    if c != [] {
      var k := FirstInOrder(c);
      FirstInOrderSpec(c, |c|);
      assert c[k] in c;
      forall w | w in types && !w.isCurtain ensures !Precedes(w, c[k]) {
        var j :| 0 <= j < |c| && c[j] == w;
      }
    }
  }

  // ---------------------------------------------------------------------------
  // wall.create
  // ---------------------------------------------------------------------------

  datatype WallRequest = WallRequest(wallType: Option<string>, start: Option<Pt2>, end: Option<Pt2>, heightM: real,
                                   structural: bool)

  /** The wall to create, and the `used` part of the reply. */
  datatype WallPlan = WallPlan(line: Edge, level: Level, wallType: WallType, heightFt: real, structural: bool,
                               usedLevel: string, usedWallType: string, usedHeightM: real)

  const DefaultWallHeightM: real := 3.0

  /** A named wall type (any kind, by name or label), else the default type. */
  function WallTypeFor(types: seq<WallType>, token: Option<string>): Result<WallType>
  {
    if !IsBlankOpt(token) then
      match FirstWhere(types, (w: WallType) => NameOrLabel(w.elem, token.value))
      case Some(w) => Ok(w)
      case None => Err("WallType '" + token.value + "' not found.")
    else
      match DefaultWallType(types)
      case Some(w) => Ok(w)
      case None => Err("No suitable WallType found.")
  }

  /**
   * wall.create: the level, the wall type, a height of 3 m unless a positive
   * one is given, the base line at z = 0 (a missing end point is a null
   * dereference, coincident end points an error), and the user-height
   * parameter, which must be writable.
   */
  function WallCreate(level: Result<Level>, types: seq<WallType>, req: WallRequest, heightWritable: bool): Result<WallPlan>
  {
    if level.Err? then Err(level.error)
    else
      var wt := WallTypeFor(types, req.wallType);
      if wt.Err? then Err(wt.error)
      else
        var h := if req.heightM > 0.0 then req.heightM else DefaultWallHeightM;
        if req.start.None? || req.end.None? then Err(NullReferenceMessage)
        else
          var p1 := Lift(req.start.value, 0.0);
          var p2 := Lift(req.end.value, 0.0);
          if AlmostEqual(p1, p2) then Err("Start and end points are the same.")
          else if !heightWritable then Err("Cannot set user wall height.")
          else Ok(WallPlan(Edge(p1, p2), level.value, wt.value, MToFt(h), req.structural,
                           level.value.name, Label(wt.value.elem), h))
  }

  /**
   * The wall is created exactly when the level and the type resolve, both end
   * points are given and do not coincide, and the height is writable; a
   * missing end point fails with the null-reference message. Its height is always
   * positive (the requested one when positive), its line is a proper segment
   * at z = 0, and its type is the named one or a non-curtain default.
   */
  lemma WallCreateSpec(level: Result<Level>, types: seq<WallType>, req: WallRequest, heightWritable: bool)
    ensures var r := WallCreate(level, types, req, heightWritable);
      (r.Ok? <==> level.Ok? && WallTypeFor(types, req.wallType).Ok? && req.start.Some? && req.end.Some? &&
                  !AlmostEqual(Lift(req.start.value, 0.0), Lift(req.end.value, 0.0)) && heightWritable) &&
      (level.Err? ==> r == Err(level.error)) &&
      (level.Ok? && WallTypeFor(types, req.wallType).Ok? && (req.start.None? || req.end.None?) ==>
        r == Err(NullReferenceMessage)) &&
      (r.Ok? ==>
        r.value.usedHeightM > 0.0 &&
        (req.heightM > 0.0 ==> r.value.usedHeightM == req.heightM) &&
        r.value.heightFt == MToFt(r.value.usedHeightM) &&
        NonDegenerate(r.value.line) && r.value.line.start.z == 0.0 && r.value.line.end.z == 0.0 &&
        r.value.wallType in types &&
        (!IsBlankOpt(req.wallType) ==> NameOrLabel(r.value.wallType.elem, req.wallType.value)) &&
        (IsBlankOpt(req.wallType) ==> !r.value.wallType.isCurtain) &&
        r.value.usedWallType == Label(r.value.wallType.elem))
  {
    DefaultWallTypeSpec(types);
  }

  // ---------------------------------------------------------------------------
  // floor.create, ceiling.create, roof.create_footprint
  // ---------------------------------------------------------------------------

  predicate ShortProfile(profile: Option<seq<Option<Pt2>>>)
  {
    profile.None? || |profile.value| < 3
  }

  datatype FloorRequest = FloorRequest(floorType: Option<string>, profile: Option<seq<Option<Pt2>>>)

  /** A slab along a closed loop, and the `used` part of the reply. */
  datatype SlabPlan = SlabPlan(level: Level, slabType: ElemType, loop: seq<Edge>, usedLevel: string, usedType: string)

  /**
   * floor.create: the level, the floor type, then a profile of at least three
   * points, closed at the level's elevation; the edge loop ends the action at
   * its first failure, a null point or an edge Line.CreateBound refuses.
   */
  function FloorCreate(level: Result<Level>, types: seq<ElemType>, req: FloorRequest, bound: LineMaker): Result<SlabPlan>
  {
    if level.Err? then Err(level.error)
    else
      var ft := ResolveType(types, req.floorType, "FloorType");
      if ft.Err? then Err(ft.error)
      else if ShortProfile(req.profile) then Err("Floor profile requires at least 3 points.")
      else
        var fault := LoopFault(req.profile.value, level.value.elevation, bound, 0);
        if fault.Some? then Err(fault.value)
        else
          var loop := Ring(LiftAll(Given(req.profile.value), level.value.elevation));
          Ok(SlabPlan(level.value, ft.value, loop, level.value.name, ft.value.name))
  }

  /**
   * A floor is created exactly when the level and the type resolve and the
   * profile has three points or more, none null, whose every edge
   * Line.CreateBound accepts; the type error comes before the profile error,
   * the loop's first failure is the action's error, and with no edge refused
   * a null point fails with NullReferenceException. The loop has one edge per point, closes
   * back to the first point and lies at the level's elevation; the reply
   * names the type by its name only.
   */
  lemma FloorCreateSpec(level: Result<Level>, types: seq<ElemType>, req: FloorRequest, bound: LineMaker)
    ensures var r := FloorCreate(level, types, req, bound);
      var z := if level.Ok? then level.value.elevation else 0.0;
      (r.Ok? <==> level.Ok? && ResolveType(types, req.floorType, "FloorType").Ok? && !ShortProfile(req.profile) &&
                  AllGiven(req.profile.value) &&
                  var loop := Ring(LiftAll(Given(req.profile.value), z));
                  forall k :: 0 <= k < |loop| ==> bound(loop[k]).None?) &&
      (level.Ok? && ResolveType(types, req.floorType, "FloorType").Err? ==>
        r == Err(ResolveType(types, req.floorType, "FloorType").error)) &&
      (level.Ok? && ResolveType(types, req.floorType, "FloorType").Ok? && !ShortProfile(req.profile) &&
       LoopFault(req.profile.value, z, bound, 0).Some? ==>
        r == Err(LoopFault(req.profile.value, z, bound, 0).value)) &&
      (level.Ok? && ResolveType(types, req.floorType, "FloorType").Ok? && !ShortProfile(req.profile) &&
       !AllGiven(req.profile.value) && GivenEdgesAccepted(req.profile.value, z, bound) ==>
        r == Err(NullReferenceMessage)) &&
      (r.Ok? ==>
        var ps := Given(req.profile.value);
        var n := |ps|;
        |r.value.loop| == n &&
        (forall i :: 0 <= i < n ==>
          r.value.loop[i].start == Lift(ps[i], z) &&
          r.value.loop[i].end == Lift(ps[if i + 1 < n then i + 1 else 0], z)) &&
        r.value.usedType == r.value.slabType.name && r.value.slabType in types)
  {
    ResolveTypeSpec(types, req.floorType, "FloorType");
    if req.profile.Some? && level.Ok? {
      LoopFaultSpec(req.profile.value, level.value.elevation, bound);
      if AllGiven(req.profile.value) {
        ProfileLoopSpec(Given(req.profile.value), level.value.elevation);
      }
    }
  }

  datatype CeilingRequest = CeilingRequest(ceilingType: Option<string>, profile: Option<seq<Option<Pt2>>>, baseOffsetM: Option<real>)

  datatype CeilingPlan = CeilingPlan(level: Level, ceilingType: ElemType, loop: seq<Edge>,
                                     usedLevel: string, usedCeilingType: string, usedBaseOffsetM: real)

  const CeilingProfileMessage: string := "ceiling.create requires a closed profile with at least 3 points."
  const CeilingVersionMessage: string := "ceiling.create requiere Revit 2022+ (API Ceiling.Create)."

  /**
   * ceiling.create: the profile is checked when the arguments are parsed;
   * the job resolves the level and the ceiling type and closes the loop at
   * the level's elevation plus the base offset (0 m by default), where a
   * null point or an edge Line.CreateBound refuses ends it. Before Revit 2022 there is no
   * Ceiling.Create and the job fails.
   */
  function CeilingCreate(level: Result<Level>, types: seq<ElemType>, req: CeilingRequest, revit2022: bool,
                         bound: LineMaker): Phased<CeilingPlan>
  {
    if ShortProfile(req.profile) then Refused(CeilingProfileMessage)
    else if level.Err? then Failed(level.error)
    else
      var ct := ResolveType(types, req.ceilingType, "CeilingType");
      if ct.Err? then Failed(ct.error)
      else
        var offset := OrReal(req.baseOffsetM, 0.0);
        var z := level.value.elevation + MToFt(offset);
        var fault := LoopFault(req.profile.value, z, bound, 0);
        if fault.Some? then Failed(fault.value)
        else if !revit2022 then Failed(CeilingVersionMessage)
        else
          var loop := Ring(LiftAll(Given(req.profile.value), z));
          Done(CeilingPlan(level.value, ct.value, loop, level.value.name, Label(ct.value), offset))
  }

  /**
   * A short profile is refused before anything runs, whatever the document;
   * otherwise the ceiling is created exactly when the level and the type
   * resolve, no point is null, Line.CreateBound accepts every edge and Revit
   * is 2022 or later; the loop's first failure is the job's, before the
   * version is checked, and with no edge refused a null point fails with
   * NullReferenceException.
   * The loop closes through every point at the offset height and the reply
   * reports the offset used.
   */
  lemma CeilingCreateSpec(level: Result<Level>, types: seq<ElemType>, req: CeilingRequest, revit2022: bool,
                          bound: LineMaker)
    ensures var r := CeilingCreate(level, types, req, revit2022, bound);
      var z := if level.Ok? then level.value.elevation + MToFt(OrReal(req.baseOffsetM, 0.0)) else 0.0;
      (r.Refused? <==> ShortProfile(req.profile)) &&
      (r.Refused? ==> r.message == CeilingProfileMessage) &&
      (r.Done? <==> !ShortProfile(req.profile) && level.Ok? &&
                    ResolveType(types, req.ceilingType, "CeilingType").Ok? &&
                    AllGiven(req.profile.value) &&
                    (var loop := Ring(LiftAll(Given(req.profile.value), z)); forall k :: 0 <= k < |loop| ==> bound(loop[k]).None?) &&
                    revit2022) &&
      (!ShortProfile(req.profile) && level.Ok? && ResolveType(types, req.ceilingType, "CeilingType").Ok? &&
       LoopFault(req.profile.value, z, bound, 0).Some? ==>
        r == Failed(LoopFault(req.profile.value, z, bound, 0).value)) &&
      (!ShortProfile(req.profile) && level.Ok? && ResolveType(types, req.ceilingType, "CeilingType").Ok? &&
       !AllGiven(req.profile.value) && GivenEdgesAccepted(req.profile.value, z, bound) ==>
        r == Failed(NullReferenceMessage)) &&
      (r.Done? ==>
        var ps := Given(req.profile.value);
        |r.value.loop| == |ps| &&
        (forall i :: 0 <= i < |r.value.loop| ==>
          r.value.loop[i].start == Lift(ps[i], z) && r.value.loop[i].end.z == z) &&
        (req.baseOffsetM.None? ==> r.value.usedBaseOffsetM == 0.0 && z == level.value.elevation) &&
        r.value.usedCeilingType == Label(r.value.ceilingType))
  {
    if !ShortProfile(req.profile) && level.Ok? {
      var z := level.value.elevation + MToFt(OrReal(req.baseOffsetM, 0.0));
      LoopFaultSpec(req.profile.value, z, bound);
      if AllGiven(req.profile.value) {
        ProfileLoopSpec(Given(req.profile.value), z);
      }
    }
  }

  datatype RoofRequest = RoofRequest(level: Option<string>, roofType: Option<string>, profile: Option<seq<Option<Pt2>>>, slopeDeg: Option<real>)

  /**
   * A footprint roof: `slopeDeg` is the angle, in degrees, set on every
   * footprint curve (each then defines slope), or none.
   */
  datatype RoofPlan = RoofPlan(level: Level, roofType: ElemType, footprint: seq<Edge>, slopeDeg: Option<real>,
                               usedLevel: string, usedRoofType: string, usedSlopeDeg: Option<real>)

  const RoofProfileMessage: string := "Roof footprint requires at least 3 points."
  const RoofLevelMessage: string := "Level is required."

  /**
   * roof.create_footprint: a profile of three points or more and a level
   * name are required when parsing; the job resolves the level and the roof
   * type, closes the footprint at the level's elevation (a null point or an
   * edge Line.CreateBound refuses ends it), and sets the slope on every footprint curve only for
   * a positive slope.
   */
  function RoofFootprintCreate(level: Result<Level>, types: seq<ElemType>, req: RoofRequest, bound: LineMaker): Phased<RoofPlan>
  {
    if ShortProfile(req.profile) then Refused(RoofProfileMessage)
    else if IsBlankOpt(req.level) then Refused(RoofLevelMessage)
    else if level.Err? then Failed(level.error)
    else
      var rt := ResolveType(types, req.roofType, "RoofType");
      if rt.Err? then Failed(rt.error)
      else
        var fault := LoopFault(req.profile.value, level.value.elevation, bound, 0);
        if fault.Some? then Failed(fault.value)
        else
          var footprint := Ring(LiftAll(Given(req.profile.value), level.value.elevation));
          var slope := if req.slopeDeg.Some? && req.slopeDeg.value > 0.0 then req.slopeDeg else None;
          Done(RoofPlan(level.value, rt.value, footprint, slope, level.value.name, Label(rt.value), req.slopeDeg))
  }

  /**
   * The profile is checked before the level name; a roof is made exactly
   * when both pass, the level and type resolve, no point is null and
   * Line.CreateBound accepts every footprint edge; the loop's first failure
   * is the job's, and with no edge refused a null point fails with
   * NullReferenceException. Slope is defined on the
   * footprint exactly when the requested slope is positive, and then it is
   * that slope; the reply echoes the request's slope either way.
   */
  lemma RoofFootprintSpec(level: Result<Level>, types: seq<ElemType>, req: RoofRequest, bound: LineMaker)
    ensures var r := RoofFootprintCreate(level, types, req, bound);
      var z := if level.Ok? then level.value.elevation else 0.0;
      (ShortProfile(req.profile) ==> r == Refused(RoofProfileMessage)) &&
      (r.Refused? <==> ShortProfile(req.profile) || IsBlankOpt(req.level)) &&
      (r.Done? <==> !ShortProfile(req.profile) && !IsBlankOpt(req.level) && level.Ok? &&
                    ResolveType(types, req.roofType, "RoofType").Ok? && AllGiven(req.profile.value) &&
                    var footprint := Ring(LiftAll(Given(req.profile.value), z));
                    forall k :: 0 <= k < |footprint| ==> bound(footprint[k]).None?) &&
      (!ShortProfile(req.profile) && !IsBlankOpt(req.level) && level.Ok? &&
       ResolveType(types, req.roofType, "RoofType").Ok? && LoopFault(req.profile.value, z, bound, 0).Some? ==>
        r == Failed(LoopFault(req.profile.value, z, bound, 0).value)) &&
      (!ShortProfile(req.profile) && !IsBlankOpt(req.level) && level.Ok? &&
       ResolveType(types, req.roofType, "RoofType").Ok? &&
       !AllGiven(req.profile.value) && GivenEdgesAccepted(req.profile.value, z, bound) ==>
        r == Failed(NullReferenceMessage)) &&
      (r.Done? ==>
        (r.value.slopeDeg.Some? <==> req.slopeDeg.Some? && req.slopeDeg.value > 0.0) &&
        (r.value.slopeDeg.Some? ==> r.value.slopeDeg == req.slopeDeg) &&
        r.value.usedSlopeDeg == req.slopeDeg &&
        |r.value.footprint| == |req.profile.value| &&
        (forall i :: 0 <= i < |r.value.footprint| ==>
          r.value.footprint[i].start.z == level.value.elevation && r.value.footprint[i].end.z == level.value.elevation))
  {
    if !ShortProfile(req.profile) && level.Ok? {
      LoopFaultSpec(req.profile.value, level.value.elevation, bound);
      if AllGiven(req.profile.value) {
        ProfileLoopSpec(Given(req.profile.value), level.value.elevation);
      }
    }
  }

  // ---------------------------------------------------------------------------
  // ResolveHostWall
  // ---------------------------------------------------------------------------

  /** Curve.Project of the request point: the curve parameter of the closest point and its distance, in feet. */
  datatype Projection = Projection(parameter: real, distance: real)

  /** A wall's LocationCurve: its end parameters, its length in feet, and the projection of the request point onto it. */
  datatype WallCurve = WallCurve(end0: real, end1: real, length: real, projection: Option<Projection>)

  datatype Wall = Wall(id: int, curve: Option<WallCurve>)

  /** How far from the request point, in feet, a wall is still taken as the host. */
  const HostToleranceFt: real := 2.0
  /** The slack on the curve's end parameters when testing that the projection lies on the segment. */
  const ParamSlack: real := 0.000000001

  /** The request point projects onto the wall's location line within its end parameters. */
  predicate OnSegment(w: Wall)
  {
    w.curve.Some? && w.curve.value.projection.Some? &&
    w.curve.value.end0 - ParamSlack <= w.curve.value.projection.value.parameter <= w.curve.value.end1 + ParamSlack
  }

  function Distance(w: Wall): real
    requires OnSegment(w)
  {
    w.curve.value.projection.value.distance
  }

  /** The closest wall on its segment among the first k walls, the earliest on ties (the strict `<` of the scan). */
  function NearestUpTo(walls: seq<Wall>, k: nat): (r: Option<nat>)
    requires k <= |walls|
    ensures r.Some? ==> r.value < k && OnSegment(walls[r.value])
  {
    if k == 0 then None
    else
      var b := NearestUpTo(walls, k - 1);
      if !OnSegment(walls[k - 1]) then b
      else if b.None? || Distance(walls[k - 1]) < Distance(walls[b.value]) then Some(k - 1)
      else b
  }

  function Nearest(walls: seq<Wall>): (r: Option<nat>)
    ensures r.Some? ==> r.value < |walls| && OnSegment(walls[r.value])
  {
    NearestUpTo(walls, |walls|)
  }

  /**
   * There is a nearest wall exactly when some wall is on its segment; it is
   * no farther than any such wall and strictly closer than every such wall
   * before it.
   */
  lemma {:induction false} NearestUpToSpec(walls: seq<Wall>, k: nat)
    requires k <= |walls|
    ensures NearestUpTo(walls, k).None? <==> forall j :: 0 <= j < k ==> !OnSegment(walls[j])
    ensures NearestUpTo(walls, k).Some? ==>
      var b := NearestUpTo(walls, k).value;
      (forall j :: 0 <= j < k && OnSegment(walls[j]) ==> Distance(walls[b]) <= Distance(walls[j])) &&
      (forall j :: 0 <= j < b && OnSegment(walls[j]) ==> Distance(walls[b]) < Distance(walls[j]))
  {
    if k > 0 {
      NearestUpToSpec(walls, k - 1);
    }
  }

  /** The scan over the walls keeping the closest on-segment one. */
  method NearestWall(walls: seq<Wall>) returns (best: Option<nat>)
    ensures best == Nearest(walls)
  {
    best := None;
    var bestDist: real := 0.0;
    var i := 0;
    while i < |walls|
      invariant 0 <= i <= |walls|
      invariant best == NearestUpTo(walls, i)
      invariant best.Some? ==> bestDist == Distance(walls[best.value])
    {
      var w := walls[i];
      if w.curve.Some? {
        var c := w.curve.value;
        if c.projection.Some? {
          var proj := c.projection.value;
          var onSeg := proj.parameter >= c.end0 - ParamSlack && proj.parameter <= c.end1 + ParamSlack;
          if onSeg {
            var d := proj.distance;
            if best.None? || d < bestDist {
              bestDist := d;
              best := Some(i);
            }
          }
        }
      }
      i := i + 1;
    }
  }

  /** doc.GetElement(id) as Wall. */
  function WallById(walls: seq<Wall>, id: int): Option<Wall>
  {
    FirstWhere(walls, (w: Wall) => w.id == id)
  }

  /** The nearest wall, when it is within the host tolerance. */
  function NearHint(walls: seq<Wall>): Option<Wall>
  {
    var n := Nearest(walls);
    if n.Some? && Distance(walls[n.value]) <= HostToleranceFt then Some(walls[n.value]) else None
  }

  /**
   * ResolveHostWall: a positive host id must name a wall; otherwise a single
   * selected wall; otherwise, given a point, the nearest wall it projects
   * onto if within two feet; otherwise the first wall of the model.
   */
  function ResolveHostWall(walls: seq<Wall>, selection: seq<int>, hostWallId: Option<int>, hint: Option<XYZ>): Result<Wall>
  {
    if hostWallId.Some? && hostWallId.value > 0 then
      match WallById(walls, hostWallId.value)
      case Some(w) => Ok(w)
      case None => Err("Host wall " + IntToString(hostWallId.value) + " not found.")
    else if |selection| == 1 && WallById(walls, selection[0]).Some? then Ok(WallById(walls, selection[0]).value)
    else if hint.Some? && NearHint(walls).Some? then Ok(NearHint(walls).value)
    else if walls == [] then Err("No walls found in the model.")
    else Ok(walls[0])
  }

  predicate ExplicitHost(hostWallId: Option<int>)
  {
    hostWallId.Some? && hostWallId.value > 0
  }

  predicate SelectedWall(walls: seq<Wall>, selection: seq<int>)
  {
    |selection| == 1 && exists i :: 0 <= i < |walls| && walls[i].id == selection[0]
  }

  /**
   * The host is a wall of the model. An explicit id wins and fails exactly
   * when no wall has it; otherwise a single selected wall wins; otherwise a
   * point picks the closest wall on its segment within two feet; the search
   * fails only when the model has no wall at all.
   */
  lemma HostWallSpec(walls: seq<Wall>, selection: seq<int>, hostWallId: Option<int>, hint: Option<XYZ>)
    ensures var r := ResolveHostWall(walls, selection, hostWallId, hint);
      (r.Ok? ==> r.value in walls) &&
      (ExplicitHost(hostWallId) ==>
        (r.Ok? ==> r.value.id == hostWallId.value) &&
        (r.Err? <==> forall i :: 0 <= i < |walls| ==> walls[i].id != hostWallId.value)) &&
      (!ExplicitHost(hostWallId) ==> (r.Err? <==> walls == [])) &&
      (!ExplicitHost(hostWallId) && SelectedWall(walls, selection) ==> r.Ok? && r.value.id == selection[0]) &&
      (!ExplicitHost(hostWallId) && !SelectedWall(walls, selection) && hint.Some? && NearHint(walls).Some? ==>
        OnSegment(r.value) && Distance(r.value) <= HostToleranceFt &&
        forall j :: 0 <= j < |walls| && OnSegment(walls[j]) ==> Distance(r.value) <= Distance(walls[j])) &&
      (!ExplicitHost(hostWallId) && !SelectedWall(walls, selection) && (hint.None? || NearHint(walls).None?) && walls != [] ==>
        r == Ok(walls[0]))
  {
    NearestUpToSpec(walls, |walls|);
    if walls != [] {
      assert walls[0] in walls;
    }
    if !ExplicitHost(hostWallId) && |selection| == 1 {
      if WallById(walls, selection[0]).None? {
        assert !SelectedWall(walls, selection);
      }
    }
  }

  // ---------------------------------------------------------------------------
  // ResolveInsertionPoint
  // ---------------------------------------------------------------------------

  /**
   * Where an opening goes: a point given in the request, or the point at
   * normalised parameter t of the host's location curve; the placement
   * drops the z of either point to 0.
   */
  datatype Insertion = AtPoint(point: XYZ) | AlongCurve(t: real)

  function Clamp01(x: real): (r: real)
    ensures 0.0 <= r <= 1.0
    ensures 0.0 <= x <= 1.0 ==> r == x
    ensures x < 0.0 ==> r == 0.0
    ensures x > 1.0 ==> r == 1.0
  {
    if x < 0.0 then 0.0 else if x > 1.0 then 1.0 else x
  }

  /** A curve shorter than this, in feet, is not divided by. */
  const MinCurveLengthFt: real := 0.000000001

  /**
   * ResolveInsertionPoint: the request's point (in feet, z = 0); otherwise,
   * on the host's location curve, the clamped normalised parameter, else
   * the clamped ratio of the offset along the wall to its length (the
   * middle of a curve of no length), else the middle.
   */
  function ResolveInsertionPoint(host: Wall, pt: Option<Pt2>, offsetAlongM: Option<real>, alongNormalized: Option<real>): Result<Insertion>
  {
    if pt.Some? then Ok(AtPoint(Lift(pt.value, 0.0)))
    else if host.curve.None? then Err("Host wall has no LocationCurve.")
    else if alongNormalized.Some? then Ok(AlongCurve(Clamp01(alongNormalized.value)))
    else if offsetAlongM.Some? then
      var len := host.curve.value.length;
      var off := MToFt(offsetAlongM.value);
      Ok(AlongCurve(if len > MinCurveLengthFt then Clamp01(off / len) else 0.5))
    else Ok(AlongCurve(0.5))
  }

  /** Where the ratio of an offset to a positive length falls. */
  lemma RatioBounds(off: real, len: real)
    requires len > 0.0
    ensures 0.0 <= off <= len ==> 0.0 <= off / len <= 1.0 && (off / len) * len == off
    ensures off < 0.0 ==> off / len < 0.0
    ensures off > len ==> off / len > 1.0
  {
    var q := off / len;
    assert q * len == off;
    if off > len {
      assert (q - 1.0) * len == off - len;
    }
  }

  /**
   * A parameter on the curve always lies in [0, 1]. A given point is used
   * whatever the host; otherwise the host must have a location curve. An
   * in-range normalised parameter is kept; an offset within the wall's
   * length lands at that distance along it, a negative one at the start and
   * one past the end at the end; with neither the middle is used.
   */
  lemma InsertionSpec(host: Wall, pt: Option<Pt2>, offsetAlongM: Option<real>, alongNormalized: Option<real>)
    ensures var r := ResolveInsertionPoint(host, pt, offsetAlongM, alongNormalized);
      (r.Ok? && r.value.AlongCurve? ==> 0.0 <= r.value.t <= 1.0) &&
      (pt.Some? ==> r.Ok? && r.value.AtPoint? && r.value.point.z == 0.0 &&
                    r.value.point.x == MToFt(pt.value.x) && r.value.point.y == MToFt(pt.value.y)) &&
      (pt.None? ==> (r.Err? <==> host.curve.None?)) &&
      (pt.None? && host.curve.Some? ==> r.Ok? && r.value.AlongCurve?) &&
      (pt.None? && host.curve.Some? && alongNormalized.Some? && 0.0 <= alongNormalized.value <= 1.0 ==>
        r.value.t == alongNormalized.value) &&
      (pt.None? && host.curve.Some? && alongNormalized.None? && offsetAlongM.Some? &&
       host.curve.value.length > MinCurveLengthFt ==>
        var len := host.curve.value.length;
        var off := MToFt(offsetAlongM.value);
        (0.0 <= off <= len ==> r.value.t * len == off) &&
        (off < 0.0 ==> r.value.t == 0.0) &&
        (off > len ==> r.value.t == 1.0)) &&
      (pt.None? && host.curve.Some? && alongNormalized.None? && offsetAlongM.None? ==> r.value.t == 0.5)
  {
    if pt.None? && host.curve.Some? && alongNormalized.None? && offsetAlongM.Some? {
      var len := host.curve.value.length;
      var off := MToFt(offsetAlongM.value);
      if len > MinCurveLengthFt {
        RatioBounds(off, len);
      }
    }
  }

  // ---------------------------------------------------------------------------
  // door.place, window.place
  // ---------------------------------------------------------------------------

  datatype OpeningKind = Door | Window

  function OpeningCategory(kind: OpeningKind): int
  {
    match kind
    case Door => OST_Doors
    case Window => OST_Windows
  }

  function OpeningNotFound(kind: OpeningKind): string
  {
    match kind
    case Door => "Door type not found."
    case Window => "Window type not found."
  }

  datatype OpeningRequest = OpeningRequest(hostWallId: Option<int>, familySymbol: Option<string>, point: Option<Pt2>,
                                           offsetM: real, offsetAlongM: Option<real>, alongNormalized: Option<real>,
                                           flipHand: bool, flipFacing: bool)

  /** The opening to place: `sillHeightFt` is written to the sill height parameter when present. */
  datatype OpeningPlan = OpeningPlan(symbol: ElemType, host: Wall, level: Level, at: Insertion, sillHeightFt: Option<real>,
                                     flipHand: bool, flipFacing: bool,
                                     usedLevel: string, usedHostId: int, usedSymbol: string)

  /** An offset smaller than this, in metres, leaves the sill height alone. */
  const SillSlackM: real := 0.000000001

  /**
   * door.place / window.place: the level, a symbol of the door or window
   * category, the host wall (the request point, at z = 0, as the hint), and
   * the insertion point on it.
   */
  function OpeningPlace(kind: OpeningKind, level: Result<Level>, symbols: seq<ElemType>, walls: seq<Wall>,
                        selection: seq<int>, req: OpeningRequest): Result<OpeningPlan>
  {
    if level.Err? then Err(level.error)
    else
      var sym := ResolveFamilySymbolByCategory(symbols, OpeningCategory(kind), req.familySymbol, OpeningNotFound(kind));
      if sym.Err? then Err(sym.error)
      else
        var hint := if req.point.Some? then Some(Lift(req.point.value, 0.0)) else None;
        var host := ResolveHostWall(walls, selection, req.hostWallId, hint);
        if host.Err? then Err(host.error)
        else
          var at := ResolveInsertionPoint(host.value, req.point, req.offsetAlongM, req.alongNormalized);
          if at.Err? then Err(at.error)
          else
            var sill := if Abs(req.offsetM) > SillSlackM then Some(MToFt(req.offsetM)) else None;
            Ok(OpeningPlan(sym.value, host.value, level.value, at.value, sill, req.flipHand, req.flipFacing,
                           level.value.name, host.value.id, Label(sym.value)))
  }

  /**
   * An opening is placed exactly when the level, the symbol, the host and
   * the insertion point all resolve; its symbol is of the door or window
   * category, its host is a wall of the model (the requested one when an id
   * is given) and the reply reports that host; the sill height is written
   * exactly when the offset is not negligible.
   */
  lemma OpeningPlaceSpec(kind: OpeningKind, level: Result<Level>, symbols: seq<ElemType>, walls: seq<Wall>,
                         selection: seq<int>, req: OpeningRequest)
    ensures var r := OpeningPlace(kind, level, symbols, walls, selection, req);
      var hint := if req.point.Some? then Some(Lift(req.point.value, 0.0)) else None;
      var host := ResolveHostWall(walls, selection, req.hostWallId, hint);
      (r.Ok? <==> level.Ok? &&
                  ResolveFamilySymbolByCategory(symbols, OpeningCategory(kind), req.familySymbol, OpeningNotFound(kind)).Ok? &&
                  host.Ok? && ResolveInsertionPoint(host.value, req.point, req.offsetAlongM, req.alongNormalized).Ok?) &&
      (r.Ok? ==>
        r.value.symbol in symbols && r.value.symbol.category == Some(OpeningCategory(kind)) &&
        r.value.host in walls && r.value.usedHostId == r.value.host.id &&
        (ExplicitHost(req.hostWallId) ==> r.value.host.id == req.hostWallId.value) &&
        (r.value.sillHeightFt.Some? <==> Abs(req.offsetM) > SillSlackM) &&
        (r.value.at.AtPoint? ==> r.value.at.point.z == 0.0) &&
        (r.value.at.AlongCurve? ==> 0.0 <= r.value.at.t <= 1.0))
  {
    ResolveFamilySymbolByCategorySpec(symbols, OpeningCategory(kind), req.familySymbol, OpeningNotFound(kind));
    var hint := if req.point.Some? then Some(Lift(req.point.value, 0.0)) else None;
    HostWallSpec(walls, selection, req.hostWallId, hint);
    var host := ResolveHostWall(walls, selection, req.hostWallId, hint);
    if host.Ok? {
      InsertionSpec(host.value, req.point, req.offsetAlongM, req.alongNormalized);
    }
  }

  // ---------------------------------------------------------------------------
  // rooms.create_on_levels
  // ---------------------------------------------------------------------------

  predicate SortedByElevation(ls: seq<Level>)
  {
    forall i, j :: 0 <= i < j < |ls| ==> ls[i].elevation <= ls[j].elevation
  }

  /** Inserts a level before the first level at the same elevation or higher. */
  function InsertByElevation(l: Level, sorted: seq<Level>): seq<Level>
    decreases |sorted|
  {
    if sorted == [] then [l]
    else if l.elevation <= sorted[0].elevation then [l] + sorted
    else [sorted[0]] + InsertByElevation(l, sorted[1..])
  }

  /** OrderBy(l => l.Elevation). */
  function SortByElevation(ls: seq<Level>): seq<Level>
    decreases |ls|
  {
    if ls == [] then [] else InsertByElevation(ls[0], SortByElevation(ls[1..]))
  }

  lemma {:induction false} InsertByElevationCount(l: Level, sorted: seq<Level>)
    ensures multiset(InsertByElevation(l, sorted)) == multiset(sorted) + multiset{l}
    decreases |sorted|
  {
    if sorted != [] && l.elevation > sorted[0].elevation {
      assert sorted == [sorted[0]] + sorted[1..];
      InsertByElevationCount(l, sorted[1..]);
    }
  }

  lemma {:induction false} InsertByElevationMembers(l: Level, sorted: seq<Level>)
    ensures forall x :: x in InsertByElevation(l, sorted) <==> x == l || x in sorted
    decreases |sorted|
  {
    if sorted != [] && l.elevation > sorted[0].elevation {
      assert sorted == [sorted[0]] + sorted[1..];
      InsertByElevationMembers(l, sorted[1..]);
    }
  }

  lemma {:induction false} InsertByElevationSorted(l: Level, sorted: seq<Level>)
    requires SortedByElevation(sorted)
    ensures SortedByElevation(InsertByElevation(l, sorted))
    decreases |sorted|
  {
    if sorted != [] && l.elevation > sorted[0].elevation {
      var rest := sorted[1..];
      InsertByElevationSorted(l, rest);
      InsertByElevationMembers(l, rest);
      var ins := InsertByElevation(l, rest);
      forall x | x in ins ensures sorted[0].elevation <= x.elevation {
        if x != l {
          var k :| 0 <= k < |rest| && rest[k] == x;
          assert sorted[k + 1] == x;
        }
      }
      var r := [sorted[0]] + ins;
      forall i, j | 0 <= i < j < |r| ensures r[i].elevation <= r[j].elevation {
        if i == 0 {
          assert r[j] in ins;
        } else {
          assert r[i] == ins[i - 1] && r[j] == ins[j - 1];
        }
      }
    }
  }

  /** Ordering by elevation sorts the levels and keeps every one of them. */
  lemma {:induction false} SortByElevationSpec(ls: seq<Level>)
    ensures SortedByElevation(SortByElevation(ls))
    ensures multiset(SortByElevation(ls)) == multiset(ls)
    decreases |ls|
  {
    if ls != [] {
      SortByElevationSpec(ls[1..]);
      InsertByElevationSorted(ls[0], SortByElevation(ls[1..]));
      InsertByElevationCount(ls[0], SortByElevation(ls[1..]));
      assert ls == [ls[0]] + ls[1..];
    }
  }

  /** The levels at exactly elevation `e`. */
  function AtElevation(e: real): Level -> bool
  {
    (l: Level) => l.elevation == e
  }

  /** Inserting a level puts it ahead of every level at its own elevation and moves no other level past one. */
  lemma {:induction false} InsertByElevationTies(l: Level, sorted: seq<Level>, e: real)
    ensures Keep(InsertByElevation(l, sorted), AtElevation(e)) ==
      (if l.elevation == e then [l] else []) + Keep(sorted, AtElevation(e))
    decreases |sorted|
  {
    var p := AtElevation(e);
    if sorted == [] {
      assert [l][1..] == [];
    } else if l.elevation <= sorted[0].elevation {
      assert ([l] + sorted)[1..] == sorted;
    } else {
      var rest := sorted[1..];
      InsertByElevationTies(l, rest, e);
      var ins := [sorted[0]] + InsertByElevation(l, rest);
      assert ins[1..] == InsertByElevation(l, rest);
      var mine: seq<Level> := if l.elevation == e then [l] else [];
      var first: seq<Level> := if p(sorted[0]) then [sorted[0]] else [];
      assert Keep(sorted, p) == first + Keep(rest, p);
      assert Keep(ins, p) == first + (mine + Keep(rest, p));
      assert mine == [] || first == [];
    }
  }

  /**
   * OrderBy is a stable sort: the levels at any one elevation come out in the
   * order they went in.
   */
  lemma {:induction false} SortByElevationStable(ls: seq<Level>, e: real)
    ensures Keep(SortByElevation(ls), AtElevation(e)) == Keep(ls, AtElevation(e))
    decreases |ls|
  {
    if ls != [] {
      SortByElevationStable(ls[1..], e);
      InsertByElevationTies(ls[0], SortByElevation(ls[1..]), e);
    }
  }

  /** The level's name equals one of the names, ignoring case. */
  predicate Named(l: Level, names: seq<string>)
  {
    exists k :: 0 <= k < |names| && EqIgnoreCase(names[k], l.name)
  }

  /** The named levels in collector order, or every level by elevation when no name is given. */
  function TargetLevels(levels: seq<Level>, levelNames: Option<seq<string>>): seq<Level>
  {
    if levelNames.Some? && |levelNames.value| > 0 then Keep(levels, (l: Level) => Named(l, levelNames.value))
    else SortByElevation(levels)
  }

  /**
   * With names, the targets are exactly the levels carrying one of them;
   * without, every level, sorted by elevation.
   */
  lemma TargetLevelsSpec(levels: seq<Level>, levelNames: Option<seq<string>>)
    ensures levelNames.Some? && |levelNames.value| > 0 ==>
      forall l :: l in TargetLevels(levels, levelNames) <==> l in levels && Named(l, levelNames.value)
    ensures !(levelNames.Some? && |levelNames.value| > 0) ==>
      SortedByElevation(TargetLevels(levels, levelNames)) &&
      multiset(TargetLevels(levels, levelNames)) == multiset(levels)
  {
    if levelNames.Some? && |levelNames.value| > 0 {
      forall l ensures l in TargetLevels(levels, levelNames) <==> l in levels && Named(l, levelNames.value) {
        KeepMembers(levels, (l: Level) => Named(l, levelNames.value), l);
      }
    } else {
      SortByElevationSpec(levels);
    }
  }

  datatype LevelFailure = LevelFailure(level: string, error: string)

  /** What one level gives: the ids of the rooms placed on it, or its failure. */
  datatype LevelRooms = Placed(ids: seq<int>) | LevelFailed(failure: LevelFailure)

  /**
   * One level: when placing only enclosed rooms, NewRooms2 places a room in
   * every enclosed region (`newRooms2`; no such method is the same as no
   * room); if nothing was placed, NewRoom places one room (`newRoom`; none
   * when it returns null). An exception from either fails the level alone.
   */
  function RoomsOnLevel(l: Level, enclosedOnly: bool, newRooms2: Level -> Result<seq<int>>,
                        newRoom: Level -> Result<Option<int>>): LevelRooms
  {
    var first := if enclosedOnly then newRooms2(l) else Ok([]);
    if first.Err? then LevelFailed(LevelFailure(l.name, first.error))
    else if first.value != [] then Placed(first.value)
    else
      match newRoom(l)
      case Err(e) => LevelFailed(LevelFailure(l.name, e))
      case Ok(None) => Placed([])
      case Ok(Some(id)) => Placed([id])
  }

  /**
   * A level fails exactly when the call it reaches throws; rooms placed by
   * NewRooms2 make NewRoom unnecessary, and NewRoom places at most one room.
   */
  lemma RoomsOnLevelSpec(l: Level, enclosedOnly: bool, newRooms2: Level -> Result<seq<int>>,
                         newRoom: Level -> Result<Option<int>>)
    ensures var o := RoomsOnLevel(l, enclosedOnly, newRooms2, newRoom);
      (enclosedOnly && newRooms2(l).Ok? && newRooms2(l).value != [] ==> o == Placed(newRooms2(l).value)) &&
      (enclosedOnly && newRooms2(l).Err? ==> o == LevelFailed(LevelFailure(l.name, newRooms2(l).error))) &&
      (!enclosedOnly || (newRooms2(l).Ok? && newRooms2(l).value == []) ==>
        (o.LevelFailed? <==> newRoom(l).Err?) &&
        (o.Placed? ==> |o.ids| <= 1 && (o.ids != [] <==> newRoom(l).value.Some?))) &&
      (o.LevelFailed? ==> o.failure.level == l.name)
  {
  }

  function RoomIdsOf(o: LevelRooms): seq<int>
  {
    if o.Placed? then o.ids else []
  }

  function FailuresOf(o: LevelRooms): seq<LevelFailure>
  {
    if o.LevelFailed? then [o.failure] else []
  }

  /** The ids of the rooms placed on the levels, level by level. */
  function PlacedRooms(ls: seq<Level>, enclosedOnly: bool, newRooms2: Level -> Result<seq<int>>,
                       newRoom: Level -> Result<Option<int>>): seq<int>
    decreases |ls|
  {
    if ls == [] then []
    else PlacedRooms(ls[..|ls| - 1], enclosedOnly, newRooms2, newRoom) +
         RoomIdsOf(RoomsOnLevel(ls[|ls| - 1], enclosedOnly, newRooms2, newRoom))
  }

  /** The failures of the levels, level by level. */
  function FailedLevels(ls: seq<Level>, enclosedOnly: bool, newRooms2: Level -> Result<seq<int>>,
                        newRoom: Level -> Result<Option<int>>): seq<LevelFailure>
    decreases |ls|
  {
    if ls == [] then []
    else FailedLevels(ls[..|ls| - 1], enclosedOnly, newRooms2, newRoom) +
         FailuresOf(RoomsOnLevel(ls[|ls| - 1], enclosedOnly, newRooms2, newRoom))
  }

  /**
   * The levels are processed independently: the rooms of two runs of levels
   * are those of each run, one after the other, so a failing level neither
   * drops the rooms of the levels before it nor stops those after it.
   */
  lemma {:induction false} PlacedRoomsConcat(a: seq<Level>, b: seq<Level>, enclosedOnly: bool,
                                             newRooms2: Level -> Result<seq<int>>, newRoom: Level -> Result<Option<int>>)
    ensures PlacedRooms(a + b, enclosedOnly, newRooms2, newRoom) ==
      PlacedRooms(a, enclosedOnly, newRooms2, newRoom) + PlacedRooms(b, enclosedOnly, newRooms2, newRoom)
    decreases |b|
  {
    if b == [] {
      assert a + b == a;
    } else {
      var b0 := b[..|b| - 1];
      assert (a + b)[..|a + b| - 1] == a + b0;
      assert (a + b)[|a + b| - 1] == b[|b| - 1];
      PlacedRoomsConcat(a, b0, enclosedOnly, newRooms2, newRoom);
    }
  }

  /** Likewise, the failures of two runs of levels are those of each run, one after the other. */
  lemma {:induction false} FailedLevelsConcat(a: seq<Level>, b: seq<Level>, enclosedOnly: bool,
                                              newRooms2: Level -> Result<seq<int>>, newRoom: Level -> Result<Option<int>>)
    ensures FailedLevels(a + b, enclosedOnly, newRooms2, newRoom) ==
      FailedLevels(a, enclosedOnly, newRooms2, newRoom) + FailedLevels(b, enclosedOnly, newRooms2, newRoom)
    decreases |b|
  {
    if b == [] {
      assert a + b == a;
    } else {
      var b0 := b[..|b| - 1];
      assert (a + b)[..|a + b| - 1] == a + b0;
      assert (a + b)[|a + b| - 1] == b[|b| - 1];
      FailedLevelsConcat(a, b0, enclosedOnly, newRooms2, newRoom);
    }
  }

  /** When every call succeeds at every level, no level fails. */
  lemma {:induction false} NoFailures(ls: seq<Level>, enclosedOnly: bool, newRooms2: Level -> Result<seq<int>>,
                                      newRoom: Level -> Result<Option<int>>)
    requires forall i :: 0 <= i < |ls| ==> newRooms2(ls[i]).Ok? && newRoom(ls[i]).Ok?
    ensures FailedLevels(ls, enclosedOnly, newRooms2, newRoom) == []
    decreases |ls|
  {
    if ls != [] {
      NoFailures(ls[..|ls| - 1], enclosedOnly, newRooms2, newRoom);
    }
  }

  /** Each level fails at most once, so there are no more failures than levels. */
  lemma {:induction false} FailuresBounded(ls: seq<Level>, enclosedOnly: bool, newRooms2: Level -> Result<seq<int>>,
                                           newRoom: Level -> Result<Option<int>>)
    ensures |FailedLevels(ls, enclosedOnly, newRooms2, newRoom)| <= |ls|
    decreases |ls|
  {
    if ls != [] {
      FailuresBounded(ls[..|ls| - 1], enclosedOnly, newRooms2, newRoom);
    }
  }

  /** The per-level loop inside the transaction. */
  method PlaceRooms(ls: seq<Level>, enclosedOnly: bool, newRooms2: Level -> Result<seq<int>>,
                    newRoom: Level -> Result<Option<int>>) returns (created: seq<int>, failed: seq<LevelFailure>)
    ensures created == PlacedRooms(ls, enclosedOnly, newRooms2, newRoom)
    ensures failed == FailedLevels(ls, enclosedOnly, newRooms2, newRoom)
  {
    created := [];
    failed := [];
    var i := 0;
    while i < |ls|
      invariant 0 <= i <= |ls|
      invariant created == PlacedRooms(ls[..i], enclosedOnly, newRooms2, newRoom)
      invariant failed == FailedLevels(ls[..i], enclosedOnly, newRooms2, newRoom)
    {
      var lvl := ls[i];
      assert ls[..i + 1][..i] == ls[..i];
      assert ls[..i + 1][i] == lvl;
      ghost var o := RoomsOnLevel(lvl, enclosedOnly, newRooms2, newRoom);
      ghost var created0, failed0 := created, failed;
      var placedAny := false;
      var threw: Option<string> := None;
      if enclosedOnly {
        var placed := newRooms2(lvl);
        if placed.Err? {
          threw := Some(placed.error);
        } else {
          created := created + placed.value;
          placedAny := placed.value != [];
        }
      }
      if threw.None? && !placedAny {
        var room := newRoom(lvl);
        if room.Err? {
          threw := Some(room.error);
        } else if room.value.Some? {
          created := created + [room.value.value];
        }
      }
      if threw.Some? {
        failed := failed + [LevelFailure(lvl.name, threw.value)];
      }
      assert created == created0 + RoomIdsOf(o) && failed == failed0 + FailuresOf(o);
      i := i + 1;
    }
    assert ls[..|ls|] == ls;
  }

  datatype RoomsRequest = RoomsRequest(levelNames: Option<seq<string>>, placeOnlyEnclosed: Option<bool>)

  /** The reply: how many rooms were created, their ids, and the levels that failed. */
  datatype RoomsReply = RoomsReply(created: nat, rooms: seq<int>, failed: seq<LevelFailure>)

  /** rooms.create_on_levels: the target levels must not be empty; rooms are placed level by level. */
  function RoomsCreateOnLevels(levels: seq<Level>, req: RoomsRequest, newRooms2: Level -> Result<seq<int>>,
                               newRoom: Level -> Result<Option<int>>): Result<RoomsReply>
  {
    var targets := TargetLevels(levels, req.levelNames);
    if targets == [] then Err("No target levels resolved.")
    else
      var enclosedOnly := OrBool(req.placeOnlyEnclosed, true);
      var rooms := PlacedRooms(targets, enclosedOnly, newRooms2, newRoom);
      Ok(RoomsReply(|rooms|, rooms, FailedLevels(targets, enclosedOnly, newRooms2, newRoom)))
  }

  /**
   * The action fails exactly when no level is targeted (with no names, when
   * the model has no level); the count is the number of room ids; there is
   * at most one failure per target level, and none when every call
   * succeeds.
   */
  lemma RoomsCreateSpec(levels: seq<Level>, req: RoomsRequest, newRooms2: Level -> Result<seq<int>>,
                        newRoom: Level -> Result<Option<int>>)
    ensures var r := RoomsCreateOnLevels(levels, req, newRooms2, newRoom);
      var targets := TargetLevels(levels, req.levelNames);
      (r.Err? <==> targets == []) &&
      (!(req.levelNames.Some? && |req.levelNames.value| > 0) ==> (r.Err? <==> levels == [])) &&
      (r.Ok? ==>
        r.value.created == |r.value.rooms| &&
        |r.value.failed| <= |targets| &&
        ((forall i :: 0 <= i < |targets| ==> newRooms2(targets[i]).Ok? && newRoom(targets[i]).Ok?) ==>
          r.value.failed == []))
  {
    var targets := TargetLevels(levels, req.levelNames);
    TargetLevelsSpec(levels, req.levelNames);
    if !(req.levelNames.Some? && |req.levelNames.value| > 0) && levels != [] {
      assert levels[0] in multiset(levels);
      assert targets != [];
    }
    var enclosedOnly := OrBool(req.placeOnlyEnclosed, true);
    FailuresBounded(targets, enclosedOnly, newRooms2, newRoom);
    if forall i :: 0 <= i < |targets| ==> newRooms2(targets[i]).Ok? && newRoom(targets[i]).Ok? {
      NoFailures(targets, enclosedOnly, newRooms2, newRoom);
    }
  }

  // ---------------------------------------------------------------------------
  // floors.from_rooms, ceilings.from_rooms
  // ---------------------------------------------------------------------------

  datatype BoundaryLocation = Finish | Center

  /** A room: whether it has a location, its area, its level, and its number of boundary loops for each boundary location. */
  datatype Room = Room(id: int, hasLocation: bool, area: real, level: Option<Level>, finishLoops: nat, centerLoops: nat)

  function Loops(r: Room, loc: BoundaryLocation): nat
  {
    match loc
    case Finish => r.finishLoops
    case Center => r.centerLoops
  }

  /** A room with an area no larger than this, in square feet, is not enclosed. */
  const MinRoomArea: real := 0.000001

  /** What one requested room gives: a new element, a skip with its reason, or a skip with the exception's message. */
  datatype RoomResult = Made(roomId: int, elementId: int) | Skipped(roomId: int, reason: string) | Errored(roomId: int, error: string)

  predicate IsMade(o: RoomResult)
  {
    o.Made?
  }

  predicate NotMade(o: RoomResult)
  {
    !o.Made?
  }

  function RoomById(rooms: seq<Room>, id: int): Option<Room>
  {
    FirstWhere(rooms, (r: Room) => r.id == id)
  }

  /**
   * One requested room: missing, unplaced or of negligible area, then
   * without a level, then without boundary loops, it is skipped; otherwise
   * `create` gives the outcome of Floor.Create / Ceiling.Create on its loops
   * moved to the level's elevation plus the offset.
   */
  function FromRoom(rooms: seq<Room>, rid: int, loc: BoundaryLocation, offsetFt: real,
                    create: (Room, BoundaryLocation, real) -> Result<int>): RoomResult
  {
    var room := RoomById(rooms, rid);
    if room.None? || !room.value.hasLocation || room.value.area <= MinRoomArea then Skipped(rid, "Room not found or not enclosed.")
    else if room.value.level.None? then Skipped(rid, "Room has no valid level.")
    else if Loops(room.value, loc) == 0 then Skipped(rid, "No boundary segments.")
    else
      match create(room.value, loc, room.value.level.value.elevation + offsetFt)
      case Ok(id) => Made(rid, id)
      case Err(e) => Errored(rid, e)
  }

  function FromRoomsAll(rooms: seq<Room>, ids: seq<int>, loc: BoundaryLocation, offsetFt: real,
                        create: (Room, BoundaryLocation, real) -> Result<int>): seq<RoomResult>
    decreases |ids|
  {
    if ids == [] then []
    else FromRoomsAll(rooms, ids[..|ids| - 1], loc, offsetFt, create) + [FromRoom(rooms, ids[|ids| - 1], loc, offsetFt, create)]
  }

  /** One result per requested id, in order, about that id; an element is made only for an enclosed room with a level and loops. */
  lemma {:induction false} FromRoomsAllSpec(rooms: seq<Room>, ids: seq<int>, loc: BoundaryLocation, offsetFt: real,
                                            create: (Room, BoundaryLocation, real) -> Result<int>)
    ensures |FromRoomsAll(rooms, ids, loc, offsetFt, create)| == |ids|
    ensures forall i :: 0 <= i < |ids| ==> FromRoomsAll(rooms, ids, loc, offsetFt, create)[i] == FromRoom(rooms, ids[i], loc, offsetFt, create)
    decreases |ids|
  {
    if ids != [] {
      FromRoomsAllSpec(rooms, ids[..|ids| - 1], loc, offsetFt, create);
    }
  }

  lemma FromRoomSpec(rooms: seq<Room>, rid: int, loc: BoundaryLocation, offsetFt: real,
                     create: (Room, BoundaryLocation, real) -> Result<int>)
    ensures var o := FromRoom(rooms, rid, loc, offsetFt, create);
      var room := RoomById(rooms, rid);
      o.roomId == rid &&
      (room.None? <==> forall i :: 0 <= i < |rooms| ==> rooms[i].id != rid) &&
      (room.Some? ==> room.value in rooms && room.value.id == rid) &&
      (o.Made? <==>
        room.Some? && room.value.hasLocation && room.value.area > MinRoomArea &&
        room.value.level.Some? && Loops(room.value, loc) > 0 &&
        create(room.value, loc, room.value.level.value.elevation + offsetFt).Ok?) &&
      (o.Made? ==> o.elementId == create(room.value, loc, room.value.level.value.elevation + offsetFt).value) &&
      (o.Errored? ==> create(room.value, loc, room.value.level.value.elevation + offsetFt).Err?)
  {
    var room := RoomById(rooms, rid);
    if room.None? {
      forall i | 0 <= i < |rooms| ensures rooms[i].id != rid {
        assert !(((r: Room) => r.id == rid)(rooms[i]));
      }
    }
  }

  /** The per-room loop inside the transaction, filling the created and skipped lists. */
  method FromRoomsLoop(rooms: seq<Room>, ids: seq<int>, loc: BoundaryLocation, offsetFt: real,
                       create: (Room, BoundaryLocation, real) -> Result<int>)
    returns (created: seq<RoomResult>, skipped: seq<RoomResult>)
    ensures created == Keep(FromRoomsAll(rooms, ids, loc, offsetFt, create), IsMade)
    ensures skipped == Keep(FromRoomsAll(rooms, ids, loc, offsetFt, create), NotMade)
  {
    created := [];
    skipped := [];
    var i := 0;
    while i < |ids|
      invariant 0 <= i <= |ids|
      invariant created == Keep(FromRoomsAll(rooms, ids[..i], loc, offsetFt, create), IsMade)
      invariant skipped == Keep(FromRoomsAll(rooms, ids[..i], loc, offsetFt, create), NotMade)
    {
      var o := FromRoom(rooms, ids[i], loc, offsetFt, create);
      assert ids[..i + 1][..i] == ids[..i];
      KeepAppend(FromRoomsAll(rooms, ids[..i], loc, offsetFt, create), o, IsMade);
      KeepAppend(FromRoomsAll(rooms, ids[..i], loc, offsetFt, create), o, NotMade);
      if o.Made? {
        created := created + [o];
      } else {
        skipped := skipped + [o];
      }
      i := i + 1;
    }
    assert ids[..|ids|] == ids;
  }

  /** The counts and lists of the reply. */
  datatype RoomsBatch = RoomsBatch(createdCount: nat, items: seq<RoomResult>, skippedCount: nat, skippedItems: seq<RoomResult>)

  function Batch(rooms: seq<Room>, ids: seq<int>, loc: BoundaryLocation, offsetFt: real,
                 create: (Room, BoundaryLocation, real) -> Result<int>): RoomsBatch
  {
    var all := FromRoomsAll(rooms, ids, loc, offsetFt, create);
    var made := Keep(all, IsMade);
    var notMade := Keep(all, NotMade);
    RoomsBatch(|made|, made, |notMade|, notMade)
  }

  /**
   * Every requested room is accounted for exactly once: the created and the
   * skipped counts add up to the number of ids; the created items are the
   * made ones and the skipped items the others.
   */
  lemma BatchSpec(rooms: seq<Room>, ids: seq<int>, loc: BoundaryLocation, offsetFt: real,
                  create: (Room, BoundaryLocation, real) -> Result<int>)
    ensures var b := Batch(rooms, ids, loc, offsetFt, create);
      b.createdCount + b.skippedCount == |ids| &&
      b.createdCount == |b.items| && b.skippedCount == |b.skippedItems| &&
      (forall k :: 0 <= k < |b.items| ==> b.items[k].Made?) &&
      (forall k :: 0 <= k < |b.skippedItems| ==> !b.skippedItems[k].Made?)
  {
    var all := FromRoomsAll(rooms, ids, loc, offsetFt, create);
    FromRoomsAllSpec(rooms, ids, loc, offsetFt, create);
    KeepComplement(all, IsMade, NotMade);
  }

  datatype FloorsFromRoomsRequest = FloorsFromRoomsRequest(roomIds: Option<seq<int>>, floorType: Option<string>, baseOffsetM: Option<real>)

  /** floors.from_rooms: room ids are required when the job runs; the floor type; then one floor per enclosed room, at finish boundaries. */
  function FloorsFromRooms(rooms: seq<Room>, types: seq<ElemType>, req: FloorsFromRoomsRequest,
                           create: (Room, BoundaryLocation, real) -> Result<int>): Result<RoomsBatch>
  {
    if req.roomIds.None? || req.roomIds.value == [] then Err("floors.from_rooms requires roomIds.")
    else
      var ft := ResolveType(types, req.floorType, "FloorType");
      if ft.Err? then Err(ft.error)
      else Ok(Batch(rooms, req.roomIds.value, Finish, MToFt(OrReal(req.baseOffsetM, 0.0)), create))
  }

  lemma FloorsFromRoomsSpec(rooms: seq<Room>, types: seq<ElemType>, req: FloorsFromRoomsRequest,
                            create: (Room, BoundaryLocation, real) -> Result<int>)
    ensures var r := FloorsFromRooms(rooms, types, req, create);
      ((req.roomIds.None? || req.roomIds.value == []) ==> r == Err("floors.from_rooms requires roomIds.")) &&
      (r.Ok? <==> req.roomIds.Some? && req.roomIds.value != [] && ResolveType(types, req.floorType, "FloorType").Ok?) &&
      (r.Ok? ==> r.value.createdCount + r.value.skippedCount == |req.roomIds.value| &&
                 r.value == Batch(rooms, req.roomIds.value, Finish, MToFt(OrReal(req.baseOffsetM, 0.0)), create))
  {
    if req.roomIds.Some? {
      BatchSpec(rooms, req.roomIds.value, Finish, MToFt(OrReal(req.baseOffsetM, 0.0)), create);
    }
  }

  datatype CeilingsFromRoomsRequest = CeilingsFromRoomsRequest(roomIds: Option<seq<int>>, ceilingType: Option<string>,
                                                               baseOffsetM: Option<real>, useFinishBoundaries: Option<bool>)

  datatype CeilingsReply = CeilingsReply(batch: RoomsBatch, usedCeilingType: string, usedBaseOffsetM: Option<real>)

  const CeilingsNeedIdsMessage: string := "ceilings.from_rooms requires roomIds."
  const CeilingsVersionMessage: string := "ceilings.from_rooms requiere Revit 2022+ (API Ceiling.Create)."

  /**
   * ceilings.from_rooms: room ids are required when parsing; the job
   * resolves the ceiling type, needs Revit 2022 or later, and makes one
   * ceiling per enclosed room at finish boundaries unless asked otherwise.
   */
  function CeilingsFromRooms(rooms: seq<Room>, types: seq<ElemType>, req: CeilingsFromRoomsRequest, revit2022: bool,
                             create: (Room, BoundaryLocation, real) -> Result<int>): Phased<CeilingsReply>
  {
    if req.roomIds.None? || req.roomIds.value == [] then Refused(CeilingsNeedIdsMessage)
    else
      var ct := ResolveType(types, req.ceilingType, "CeilingType");
      if ct.Err? then Failed(ct.error)
      else if !revit2022 then Failed(CeilingsVersionMessage)
      else
        var loc := if OrBool(req.useFinishBoundaries, true) then Finish else Center;
        Done(CeilingsReply(Batch(rooms, req.roomIds.value, loc, MToFt(OrReal(req.baseOffsetM, 0.0)), create),
                           Label(ct.value), req.baseOffsetM))
  }

  /**
   * Missing ids are refused before anything runs; the type error comes
   * before the version error; finish boundaries are the default; every
   * requested room is accounted for once; the reply echoes the requested
   * offset, absent or not.
   */
  lemma CeilingsFromRoomsSpec(rooms: seq<Room>, types: seq<ElemType>, req: CeilingsFromRoomsRequest, revit2022: bool,
                              create: (Room, BoundaryLocation, real) -> Result<int>)
    ensures var r := CeilingsFromRooms(rooms, types, req, revit2022, create);
      (r.Refused? <==> req.roomIds.None? || req.roomIds.value == []) &&
      (r.Refused? ==> r.message == CeilingsNeedIdsMessage) &&
      (!r.Refused? && ResolveType(types, req.ceilingType, "CeilingType").Err? ==>
        r == Failed(ResolveType(types, req.ceilingType, "CeilingType").error)) &&
      (r.Done? <==> !r.Refused? && ResolveType(types, req.ceilingType, "CeilingType").Ok? && revit2022) &&
      (r.Done? ==>
        r.value.batch.createdCount + r.value.batch.skippedCount == |req.roomIds.value| &&
        r.value.usedBaseOffsetM == req.baseOffsetM &&
        (req.useFinishBoundaries.None? ==>
          r.value.batch == Batch(rooms, req.roomIds.value, Finish, MToFt(OrReal(req.baseOffsetM, 0.0)), create)))
  {
    if req.roomIds.Some? {
      var loc := if OrBool(req.useFinishBoundaries, true) then Finish else Center;
      BatchSpec(rooms, req.roomIds.value, loc, MToFt(OrReal(req.baseOffsetM, 0.0)), create);
    }
  }

  // ---------------------------------------------------------------------------
  // family.load, family.place
  // ---------------------------------------------------------------------------

  datatype FamilyLoadRequest = FamilyLoadRequest(path: Option<string>, overwriteExisting: Option<bool>)

  datatype Family = Family(id: int, name: string)

  /** The reply of family.load, with the overwrite flag given to the load options. */
  datatype FamilyLoaded = FamilyLoaded(familyId: int, familyName: string, from: string, overwrite: bool)

  const FamilyPathMessage: string := "family.load requiere 'path' a un .rfa"

  /**
   * family.load: a path is required when parsing; `load` gives the outcome
   * of Document.LoadFamily with the options that always load and overwrite
   * parameter values as asked (by default yes): an exception, no family, or
   * the family loaded.
   */
  function FamilyLoad(req: FamilyLoadRequest, load: (string, bool) -> Result<Option<Family>>): Phased<FamilyLoaded>
  {
    if IsBlankOpt(req.path) then Refused(FamilyPathMessage)
    else
      var overwrite := OrBool(req.overwriteExisting, true);
      match load(req.path.value, overwrite)
      case Err(e) => Failed(e)
      case Ok(None) => Failed("No se pudo cargar la familia desde '" + req.path.value + "'.")
      case Ok(Some(f)) => Done(FamilyLoaded(f.id, f.name, req.path.value, overwrite))
  }

  lemma FamilyLoadSpec(req: FamilyLoadRequest, load: (string, bool) -> Result<Option<Family>>)
    ensures var r := FamilyLoad(req, load);
      (r.Refused? <==> IsBlankOpt(req.path)) &&
      (r.Done? <==> !IsBlankOpt(req.path) && load(req.path.value, OrBool(req.overwriteExisting, true)).Ok? &&
                    load(req.path.value, OrBool(req.overwriteExisting, true)).value.Some?) &&
      (r.Done? ==> r.value.from == req.path.value && (req.overwriteExisting.None? ==> r.value.overwrite))
  {
  }

  datatype FamilyPlaceRequest = FamilyPlaceRequest(familySymbol: Option<string>, point: Option<Pt2>)

  /** The outcome of NewFamilyInstance: the new instance, Revit's ArgumentException (a hosted type), or another exception. */
  datatype PlaceOutcome = Created(id: int) | HostRequired | Threw(message: string)

  datatype FamilyPlaced = FamilyPlaced(elementId: int, point: XYZ, symbol: string, level: string)

  const FamilyPointMessage: string := "family.place requiere 'point' {x,y} en metros."
  const HostedTypeMessage: string := "Este tipo parece ser HOSTED (requiere muro/suelo/etc.). Usa herramientas específicas (door.place, window.place) o selecciona un tipo no-hosted."

  /**
   * family.place: the point is checked first, then the level and a symbol of
   * any category; the instance goes at the point, in feet, at the level's
   * elevation. A hosted type is reported as such; any other exception is
   * wrapped.
   */
  function FamilyPlace(level: Result<Level>, symbols: seq<ElemType>, req: FamilyPlaceRequest,
                       place: (XYZ, ElemType, Level) -> PlaceOutcome): Result<FamilyPlaced>
  {
    if req.point.None? then Err(FamilyPointMessage)
    else if level.Err? then Err(level.error)
    else
      var sym := ResolveFamilySymbolAny(symbols, req.familySymbol);
      if sym.Err? then Err(sym.error)
      else
        var p := Lift(req.point.value, level.value.elevation);
        match place(p, sym.value, level.value)
        case Created(id) => Ok(FamilyPlaced(id, p, Label(sym.value), level.value.name))
        case HostRequired => Err(HostedTypeMessage)
        case Threw(m) => Err("family.place falló: " + m)
  }

  lemma FamilyPlaceSpec(level: Result<Level>, symbols: seq<ElemType>, req: FamilyPlaceRequest,
                        place: (XYZ, ElemType, Level) -> PlaceOutcome)
    ensures var r := FamilyPlace(level, symbols, req, place);
      (req.point.None? ==> r == Err(FamilyPointMessage)) &&
      (req.point.Some? && level.Ok? && IsBlankOpt(req.familySymbol) ==> r == Err(SymbolRequiredMessage)) &&
      (r.Ok? ==>
        level.Ok? && ResolveFamilySymbolAny(symbols, req.familySymbol).Ok? &&
        r.value.point == Lift(req.point.value, level.value.elevation) &&
        r.value.point.z == level.value.elevation &&
        r.value.level == level.value.name &&
        r.value.symbol == Label(ResolveFamilySymbolAny(symbols, req.familySymbol).value) &&
        NameOrLabel(ResolveFamilySymbolAny(symbols, req.familySymbol).value, req.familySymbol.value))
  {
    ResolveFamilySymbolAnySpec(symbols, req.familySymbol);
  }
}
