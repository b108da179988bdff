// The MEP actions on pipes, conduits and cable trays, and the connector,
// bulk-setter and insulation logic that the duct actions share with them.

module Mep {
  import opened Text
  import opened Seqs
  import opened Revit

  // ---------------------------------------------------------------------------
  // Connectors
  // ---------------------------------------------------------------------------

  /** ConnectorProfileType. */
  datatype Shape = Round | Rectangular | Oval

  /**
   * A connector of an MEP element: its profile, its size read-outs, its
   * connection state and its origin in feet. A read-out is None where the
   * Revit property throws (Radius on a rectangular connector, Width or Height
   * on a round one, IsConnected where it is unavailable).
   */
  datatype Connector = Connector(shape: Shape, radius: Option<real>, width: Option<real>, height: Option<real>,
                                 connected: Option<bool>, origin: XYZ)

  /** The tolerance, in feet, under which two sizes are taken as equal. */
  const SizeTolerance: real := 0.000001

  predicate Nearly(x: real, y: real)
  {
    Abs(x - y) <= SizeTolerance
  }

  /**
   * `a > 0 && b > 0 ? Nearly(a, b) : true` for one dimension of two
   * connectors, None when reading a dimension throws; `b` is read only
   * when `a` is positive.
   */
  function DimAgrees(a: Option<real>, b: Option<real>): Option<bool>
  {
    if a.None? then None
    else if a.value <= 0.0 then Some(true)
    else if b.None? then None
    else Some(b.value <= 0.0 || Nearly(a.value, b.value))
  }

  /**
   * SameSize: two round connectors compare their radii; otherwise the
   * widths and the heights are compared where both are positive. A read
   * that throws makes the connectors different.
   */
  predicate SameSize(c1: Connector, c2: Connector)
  {
    if c1.shape == Round && c2.shape == Round then
      c1.radius.Some? && c2.radius.Some? && Nearly(c1.radius.value, c2.radius.value)
    else
      var w := DimAgrees(c1.width, c2.width);
      var h := DimAgrees(c1.height, c2.height);
      w.Some? && w.value && h.Some? && h.value
  }

  /** The sizes SameSize reads can be read: the radius of a round connector, the width and height of any other. */
  predicate Sized(c: Connector)
  {
    if c.shape == Round then c.radius.Some? else c.width.Some? && c.height.Some?
  }

  /**
   * Two round connectors are the same size exactly when their radii are
   * readable and within the tolerance; two other readable connectors exactly
   * when each dimension that is positive on both agrees within the tolerance;
   * a width read that throws makes them different.
   */
  lemma SameSizeSpec(c1: Connector, c2: Connector)
    ensures c1.shape == Round && c2.shape == Round ==>
      (SameSize(c1, c2) <==> c1.radius.Some? && c2.radius.Some? && Abs(c1.radius.value - c2.radius.value) <= SizeTolerance)
    ensures c1.shape != Round && c2.shape != Round && Sized(c1) && Sized(c2) ==>
      (SameSize(c1, c2) <==>
        (c1.width.value > 0.0 && c2.width.value > 0.0 ==> Abs(c1.width.value - c2.width.value) <= SizeTolerance) &&
        (c1.height.value > 0.0 && c2.height.value > 0.0 ==> Abs(c1.height.value - c2.height.value) <= SizeTolerance))
    ensures !(c1.shape == Round && c2.shape == Round) && c1.width.None? ==> !SameSize(c1, c2)
  {
  }

  /** Between connectors of the same kind whose sizes can be read, SameSize is reflexive and symmetric. */
  lemma SameSizeEquivalence(c1: Connector, c2: Connector)
    requires (c1.shape == Round) == (c2.shape == Round) && Sized(c1) && Sized(c2)
    ensures SameSize(c1, c1)
    ensures SameSize(c1, c2) == SameSize(c2, c1)
  {
  }

  /** IsFreeEnd: a connector that is not connected; one whose state cannot be read counts as free. */
  predicate IsFreeEnd(c: Connector)
  {
    c.connected.None? || !c.connected.value
  }

  // ---------------------------------------------------------------------------
  // FindClosestPair
  // ---------------------------------------------------------------------------

  /** A pair of positions: one in the first connector list and one in the second. */
  datatype Pair = Pair(a: nat, b: nat)

  /**
   * The squared distance between two points. It orders pairs of points as
   * XYZ.DistanceTo does, since both are non-negative and the square root is
   * increasing.
   */
  function Dist2(p: XYZ, q: XYZ): real
  {
    (p.x - q.x) * (p.x - q.x) + (p.y - q.y) * (p.y - q.y) + (p.z - q.z) * (p.z - q.z)
  }

  predicate InRange(aa: seq<Connector>, bb: seq<Connector>, p: Option<Pair>)
  {
    p.Some? ==> p.value.a < |aa| && p.value.b < |bb|
  }

  function D(aa: seq<Connector>, bb: seq<Connector>, i: nat, j: nat): real
    requires i < |aa| && j < |bb|
  {
    Dist2(aa[i].origin, bb[j].origin)
  }

  /** The scan's step at pair (i, j): it replaces the best pair only when strictly closer. */
  function Consider(aa: seq<Connector>, bb: seq<Connector>, best: Option<Pair>, i: nat, j: nat): (r: Option<Pair>)
    requires i < |aa| && j < |bb| && InRange(aa, bb, best)
    ensures InRange(aa, bb, r)
  {
    if best.None? || D(aa, bb, i, j) < D(aa, bb, best.value.a, best.value.b) then Some(Pair(i, j)) else best
  }

  /** The best pair after scanning row i up to column j, from `start`. */
  function ScanRow(aa: seq<Connector>, bb: seq<Connector>, i: nat, j: nat, start: Option<Pair>): (r: Option<Pair>)
    requires i < |aa| && j <= |bb| && InRange(aa, bb, start)
    ensures InRange(aa, bb, r)
  {
    if j == 0 then start else Consider(aa, bb, ScanRow(aa, bb, i, j - 1, start), i, j - 1)
  }

  /** The best pair after scanning the first i rows. */
  function ScanRows(aa: seq<Connector>, bb: seq<Connector>, i: nat): (r: Option<Pair>)
    requires i <= |aa|
    ensures InRange(aa, bb, r)
  {
    if i == 0 then None else ScanRow(aa, bb, i - 1, |bb|, ScanRows(aa, bb, i - 1))
  }

  /** FindClosestPair: the pair the nested scan over both lists keeps. */
  function ClosestPair(aa: seq<Connector>, bb: seq<Connector>): (r: Option<Pair>)
    ensures InRange(aa, bb, r)
  {
    ScanRows(aa, bb, |aa|)
  }

  /** Pair (i, j) comes before pair (k, l) in the scan's row-by-row order. */
  predicate Before(i: nat, j: nat, k: nat, l: nat)
  {
    i < k || (i == k && j < l)
  }

  /**
   * `best` is the closest of the pairs scanned before (i, j), the first of
   * them on ties, and there is one exactly when some pair was scanned.
   */
  predicate ClosestBefore(aa: seq<Connector>, bb: seq<Connector>, best: Option<Pair>, i: nat, j: nat)
  {
    InRange(aa, bb, best) &&
    (best.None? <==> (i == 0 || |bb| == 0) && j == 0) &&
    (best.Some? ==>
      Before(best.value.a, best.value.b, i, j) &&
      forall k, l :: 0 <= k < |aa| && 0 <= l < |bb| && Before(k, l, i, j) ==>
        D(aa, bb, best.value.a, best.value.b) <= D(aa, bb, k, l) &&
        (Before(k, l, best.value.a, best.value.b) ==> D(aa, bb, best.value.a, best.value.b) < D(aa, bb, k, l)))
  }

  lemma {:induction false} ScanRowSpec(aa: seq<Connector>, bb: seq<Connector>, i: nat, j: nat, start: Option<Pair>)
    requires i < |aa| && j <= |bb| && ClosestBefore(aa, bb, start, i, 0)
    ensures ClosestBefore(aa, bb, ScanRow(aa, bb, i, j, start), i, j)
  {
    if j > 0 {
      ScanRowSpec(aa, bb, i, j - 1, start);
      var prev := ScanRow(aa, bb, i, j - 1, start);
      var r := ScanRow(aa, bb, i, j, start);
      assert r == Consider(aa, bb, prev, i, j - 1);
      forall k, l | 0 <= k < |aa| && 0 <= l < |bb| && Before(k, l, i, j)
        ensures D(aa, bb, r.value.a, r.value.b) <= D(aa, bb, k, l)
        ensures Before(k, l, r.value.a, r.value.b) ==> D(aa, bb, r.value.a, r.value.b) < D(aa, bb, k, l)
      {
        if !(k == i && l == j - 1) {
          assert Before(k, l, i, j - 1);
        }
      }
    }
  }

  lemma {:induction false} ScanRowsSpec(aa: seq<Connector>, bb: seq<Connector>, i: nat)
    requires i <= |aa|
    ensures ClosestBefore(aa, bb, ScanRows(aa, bb, i), i, 0)
  {
    if i > 0 {
      ScanRowsSpec(aa, bb, i - 1);
      ScanRowSpec(aa, bb, i - 1, |bb|, ScanRows(aa, bb, i - 1));
      var r := ScanRows(aa, bb, i);
      assert r == ScanRow(aa, bb, i - 1, |bb|, ScanRows(aa, bb, i - 1));
      assert ClosestBefore(aa, bb, r, i - 1, |bb|);
      forall k, l | 0 <= k < |aa| && 0 <= l < |bb| && Before(k, l, i, 0)
        ensures Before(k, l, i - 1, |bb|)
      {
      }
    }
  }

  /**
   * A closest pair exists exactly when both lists are non-empty; no pair of
   * connectors is closer than it, and every pair scanned before it is
   * strictly farther (the scan's strict `<` keeps the first of equals).
   */
  lemma ClosestPairSpec(aa: seq<Connector>, bb: seq<Connector>)
    ensures ClosestPair(aa, bb).None? <==> |aa| == 0 || |bb| == 0
    ensures ClosestPair(aa, bb).Some? ==>
      var p := ClosestPair(aa, bb).value;
      p.a < |aa| && p.b < |bb| &&
      (forall k, l :: 0 <= k < |aa| && 0 <= l < |bb| ==> D(aa, bb, p.a, p.b) <= D(aa, bb, k, l)) &&
      (forall k, l :: 0 <= k < |aa| && 0 <= l < |bb| && Before(k, l, p.a, p.b) ==> D(aa, bb, p.a, p.b) < D(aa, bb, k, l))
  {
    ScanRowsSpec(aa, bb, |aa|);
  }

  /** The nested scan over both connector lists keeping the strictly closer pair. */
  method FindClosestPair(aa: seq<Connector>, bb: seq<Connector>) returns (best: Option<Pair>)
    ensures best == ClosestPair(aa, bb)
  {
    best := None;
    var bestDist: real := 0.0;
    var i := 0;
    while i < |aa|
      invariant 0 <= i <= |aa|
      invariant best == ScanRows(aa, bb, i)
      invariant best.Some? ==> bestDist == D(aa, bb, best.value.a, best.value.b)
    {
      ghost var rowStart := best;
      var j := 0;
      while j < |bb|
        invariant 0 <= j <= |bb|
        invariant best == ScanRow(aa, bb, i, j, rowStart)
        invariant best.Some? ==> bestDist == D(aa, bb, best.value.a, best.value.b)
      {
        var d := Dist2(aa[i].origin, bb[j].origin);
        if best.None? || d < bestDist {
          bestDist := d;
          best := Some(Pair(i, j));
        }
        j := j + 1;
      }
      i := i + 1;
    }
  }

  // ---------------------------------------------------------------------------
  // Connect mode
  // ---------------------------------------------------------------------------

  const AutoMode := "auto"
  const TransitionMode := "transition"
  const ElbowMode := "elbow"

  /** `(mode ?? "auto").ToLowerInvariant()`. */
  function ModeToken(mode: Option<string>): string
  {
    Lower(if mode.Some? then mode.value else AutoMode)
  }

  /** A transition when asked for one, or in the automatic mode when the sizes differ; an elbow otherwise. */
  predicate UseTransition(mode: Option<string>, c1: Connector, c2: Connector)
  {
    var m := ModeToken(mode);
    m == TransitionMode || (m == AutoMode && !SameSize(c1, c2))
  }

  /** The mode reported for the fitting created. */
  function FittingMode(transition: bool): string
  {
    if transition then TransitionMode else ElbowMode
  }

  /**
   * "transition" in any case always gives a transition; no mode behaves as
   * "auto", which gives a transition exactly when the sizes differ; any other
   * mode ("elbow" among them) gives an elbow; and the mode is read without
   * regard to case.
   */
  lemma UseTransitionSpec(mode: Option<string>, c1: Connector, c2: Connector)
    ensures mode.Some? && EqIgnoreCase(mode.value, TransitionMode) ==> UseTransition(mode, c1, c2)
    ensures mode.None? ==> (UseTransition(mode, c1, c2) <==> !SameSize(c1, c2))
    ensures mode.Some? && EqIgnoreCase(mode.value, AutoMode) ==> (UseTransition(mode, c1, c2) <==> !SameSize(c1, c2))
    ensures mode.Some? && !EqIgnoreCase(mode.value, TransitionMode) && !EqIgnoreCase(mode.value, AutoMode) ==>
      !UseTransition(mode, c1, c2)
    ensures forall m :: mode.Some? && EqIgnoreCase(mode.value, m) ==>
      UseTransition(Some(m), c1, c2) == UseTransition(mode, c1, c2)
  {
    assert Lower(AutoMode) == AutoMode;
    if mode.Some? {
      LowerIsKey(mode.value, TransitionMode);
      LowerIsKey(mode.value, AutoMode);
      forall m | EqIgnoreCase(mode.value, m)
        ensures ModeToken(Some(m)) == ModeToken(mode)
      {
        EqIgnoreCaseLower(mode.value, m);
      }
    }
  }

  // ---------------------------------------------------------------------------
  // Elements of the document
  // ---------------------------------------------------------------------------

  /** The element classes the actions test for with `is`. */
  datatype Kind = PipeElem | ConduitElem | CableTrayElem | DuctElem | FittingElem | OtherElem

  /** The built-in parameters the actions read and set. */
  datatype BuiltIn = OffsetParam | PipeDiameterParam | ConduitDiameterParam | TrayWidthParam | TrayHeightParam
                   | CurveDiameterParam | CurveWidthParam | CurveHeightParam

  /**
   * A parameter: whether it is read-only, whether it stores a double, its
   * value, and the message Parameter.Set throws with, if it throws.
   */
  datatype Param = Param(readOnly: bool, isDouble: bool, value: real, setError: Option<string>)

  /** An element: its class, its connectors (CollectConnectors: none for an element that is not an MEP curve or family instance) and its built-in parameters. */
  datatype Element = Element(kind: Kind, connectors: seq<Connector>, params: map<BuiltIn, Param>)

  /** The document's elements by id: doc.GetElement. */
  type Doc = map<int, Element>

  /** Require: the element with that id, or "{what} {id} not found.". */
  function Require(doc: Doc, id: int, what: string): (r: Result<Element>)
    ensures r.Ok? <==> id in doc
    ensures r.Ok? ==> r.value == doc[id]
  {
    if id in doc then Ok(doc[id]) else Err(what + " " + IntToString(id) + " not found.")
  }

  // ---------------------------------------------------------------------------
  // Connect (elbow or transition)
  // ---------------------------------------------------------------------------

  /**
   * One signature looked up by reflection: absent, or present and, when
   * invoked, returning an instance or null, or throwing; `message` is the
   * message of the exception the reflective Invoke raises then.
   */
  datatype Call = Missing | ReturnedNull | Returned(id: int) | Raised(message: string)

  /** What invoking a signature that is present gives: its instance, null, or its exception. */
  function Invoked(c: Call): (r: Result<Option<int>>)
    requires !c.Missing?
    ensures r.Err? <==> c.Raised?
    ensures r.Err? ==> r.error == c.message
    ensures r == Ok(None) <==> c.ReturnedNull?
    ensures c.Returned? ==> r == Ok(Some(c.id))
  {
    match c
    case Raised(m) => Err(m)
    case Returned(id) => Ok(Some(id))
    case _ => Ok(None)
  }

  /** The two signatures of a fitting factory: with the document first, and without it. */
  datatype FittingApi = FittingApi(withDoc: Call, withoutDoc: Call)

  /**
   * The pipe fitting compat helpers: the first signature found is invoked and
   * its result returned as is, even when it is null, and its exception
   * propagated; with neither signature the helper throws `missing`.
   */
  function PipeFittingCompat(api: FittingApi, missing: string): (r: Result<Option<int>>)
    ensures r.Err? <==> api.withDoc.Raised? || (api.withDoc.Missing? && (api.withoutDoc.Missing? || api.withoutDoc.Raised?))
    ensures !api.withDoc.Missing? ==> r == Invoked(api.withDoc)
    ensures api.withDoc.Missing? && !api.withoutDoc.Missing? ==> r == Invoked(api.withoutDoc)
    ensures api.withDoc.Missing? && api.withoutDoc.Missing? ==> r == Err(missing)
  {
    if !api.withDoc.Missing? then Invoked(api.withDoc)
    else if !api.withoutDoc.Missing? then Invoked(api.withoutDoc)
    else Err(missing)
  }

  const PipeElbowMissing := "PlumbingUtils.CreateElbowFitting no disponible en esta versión del API."
  const PipeTransitionMissing := "PlumbingUtils.CreateTransitionFitting no disponible en esta versión del API."


  datatype ConnectRequest = ConnectRequest(aId: int, bId: int, mode: Option<string>)

  /** The reply: the fitting's id and its mode, with the two connectors the fitting joins. */
  datatype ConnectReply = ConnectReply(createdFittingId: int, mode: string, first: Connector, second: Connector)

  /** The element's connectors that are free ends, in order. */
  function Free(e: Element): seq<Connector>
  {
    Keep(e.connectors, IsFreeEnd)
  }

  const NoFreeConnectors := "No free connectors to connect."
  const NoConnectorPair := "Could not resolve connector pair."

  /**
   * Pipe.Connect and Duct.Connect: both elements must exist and have a free
   * connector; the closest pair of free connectors is joined by an elbow or a
   * transition, as the mode decides; `elbow` and `transition` are what the
   * compat helpers return.
   */
  function Connect(doc: Doc, req: ConnectRequest, elbow: Result<Option<int>>, transition: Result<Option<int>>): Result<ConnectReply>
  {
    var a := Require(doc, req.aId, "Element");
    if a.Err? then Err(a.error)
    else
      var b := Require(doc, req.bId, "Element");
      if b.Err? then Err(b.error)
      else
        var conA := Free(a.value);
        var conB := Free(b.value);
        if |conA| == 0 || |conB| == 0 then Err(NoFreeConnectors)
        else
          var pair := ClosestPair(conA, conB);
          if pair.None? then Err(NoConnectorPair)
          else
            var c1 := conA[pair.value.a];
            var c2 := conB[pair.value.b];
            var t := UseTransition(req.mode, c1, c2);
            var fit := if t then transition else elbow;
            if fit.Err? then Err(fit.error)
            else if fit.value.None? then Err(NullReferenceMessage)
            else Ok(ConnectReply(fit.value.value, FittingMode(t), c1, c2))
  }

  /** Pipe.Connect: Connect with the plumbing fitting factories. */
  function PipeConnect(doc: Doc, req: ConnectRequest, elbowApi: FittingApi, transitionApi: FittingApi): Result<ConnectReply>
  {
    Connect(doc, req, PipeFittingCompat(elbowApi, PipeElbowMissing), PipeFittingCompat(transitionApi, PipeTransitionMissing))
  }

  /**
   * The errors of connecting, in order: a missing first element, a missing
   * second element, an element without a free connector; past those checks
   * the pair is always resolved, so the only errors left are a factory's own
   * message and the null-reference error of a factory that returned null;
   * with both factories yielding a fitting the connection succeeds.
   */
  lemma ConnectErrors(doc: Doc, req: ConnectRequest, elbow: Result<Option<int>>, transition: Result<Option<int>>)
    ensures req.aId !in doc ==> Connect(doc, req, elbow, transition) == Err("Element " + IntToString(req.aId) + " not found.")
    ensures req.aId in doc && req.bId !in doc ==>
      Connect(doc, req, elbow, transition) == Err("Element " + IntToString(req.bId) + " not found.")
    ensures req.aId in doc && req.bId in doc && (Free(doc[req.aId]) == [] || Free(doc[req.bId]) == []) ==>
      Connect(doc, req, elbow, transition) == Err(NoFreeConnectors)
    ensures req.aId in doc && req.bId in doc && Free(doc[req.aId]) != [] && Free(doc[req.bId]) != [] ==>
      var r := Connect(doc, req, elbow, transition);
      (elbow.Ok? && elbow.value.Some? && transition.Ok? && transition.value.Some? ==> r.Ok?) &&
      (r.Err? ==> ((elbow == Ok(None) || transition == Ok(None)) && r.error == NullReferenceMessage) ||
                  (elbow.Err? && r.error == elbow.error) || (transition.Err? && r.error == transition.error))
  {
    if req.aId in doc && req.bId in doc {
      ClosestPairSpec(Free(doc[req.aId]), Free(doc[req.bId]));
    }
  }

  /**
   * A connection joins a free connector of each element, at the least
   * distance over all pairs of free connectors.
   */
  lemma ConnectJoinsClosest(doc: Doc, req: ConnectRequest, elbow: Result<Option<int>>, transition: Result<Option<int>>)
    ensures var r := Connect(doc, req, elbow, transition);
      r.Ok? ==>
        req.aId in doc && req.bId in doc &&
        r.value.first in doc[req.aId].connectors && IsFreeEnd(r.value.first) &&
        r.value.second in doc[req.bId].connectors && IsFreeEnd(r.value.second) &&
        (forall k, l :: 0 <= k < |Free(doc[req.aId])| && 0 <= l < |Free(doc[req.bId])| ==>
          Dist2(r.value.first.origin, r.value.second.origin) <=
          Dist2(Free(doc[req.aId])[k].origin, Free(doc[req.bId])[l].origin))
  {
    var r := Connect(doc, req, elbow, transition);
    if r.Ok? {
      var freeA := Free(doc[req.aId]);
      var freeB := Free(doc[req.bId]);
      ClosestPairSpec(freeA, freeB);
      var p := ClosestPair(freeA, freeB).value;
      assert r.value.first == freeA[p.a] && r.value.second == freeB[p.b];
      KeepMembers(doc[req.aId].connectors, IsFreeEnd, freeA[p.a]);
      KeepMembers(doc[req.bId].connectors, IsFreeEnd, freeB[p.b]);
      forall k, l | 0 <= k < |freeA| && 0 <= l < |freeB|
        ensures Dist2(r.value.first.origin, r.value.second.origin) <= Dist2(freeA[k].origin, freeB[l].origin)
      {
        assert D(freeA, freeB, p.a, p.b) <= D(freeA, freeB, k, l);
      }
    }
  }

  /** The reported mode is the kind of fitting created: a transition exactly when the mode calls for one. */
  lemma ConnectModeSpec(doc: Doc, req: ConnectRequest, elbow: Result<Option<int>>, transition: Result<Option<int>>)
    ensures var r := Connect(doc, req, elbow, transition);
      r.Ok? ==>
        (r.value.mode == TransitionMode <==> UseTransition(req.mode, r.value.first, r.value.second)) &&
        (r.value.mode == TransitionMode ==> transition == Ok(Some(r.value.createdFittingId))) &&
        (r.value.mode != TransitionMode ==> r.value.mode == ElbowMode && elbow == Ok(Some(r.value.createdFittingId)))
  {
    var r := Connect(doc, req, elbow, transition);
    if r.Ok? {
      var conA, conB := Free(doc[req.aId]), Free(doc[req.bId]);
      var pair := ClosestPair(conA, conB).value;
      var t := UseTransition(req.mode, conA[pair.a], conB[pair.b]);
      assert r.value.first == conA[pair.a] && r.value.second == conB[pair.b];
      assert r.value.mode == FittingMode(t);
    }
  }

  // ---------------------------------------------------------------------------
  // Pipe, conduit and cable tray creation
  // ---------------------------------------------------------------------------

  /** `prefix` followed by " Available examples: " and the sample, when the sample is not empty. */
  function WithExamples(prefix: string, sample: string): string
  {
    prefix + (if |sample| > 0 then " Available examples: " + sample else "")
  }

  /** A named type (by name or label) when it matches, otherwise the first type. */
  function TypeOrFirst(types: seq<ElemType>, token: Option<string>): (r: Option<ElemType>)
    ensures r.None? <==> types == []
    ensures r.Some? ==> r.value in types
    ensures r.Some? && !IsBlankOpt(token) && MatchNameOrLabel(types, token.value).Some? ==> NameOrLabel(r.value, token.value)
    ensures r.Some? && (IsBlankOpt(token) || MatchNameOrLabel(types, token.value).None?) ==> r.value == types[0]
  {
    var m := if !IsBlankOpt(token) then MatchNameOrLabel(types, token.value) else None;
    if m.Some? then m else FirstOf(types)
  }

  /** The straight run of a pipe, conduit, tray or duct, its type, and the values reported as used. */
  datatype CurvePlan = CurvePlan(system: Option<string>, curveType: ElemType, level: Level, line: Edge,
                                 diameterFt: Option<real>, widthFt: Option<real>, heightFt: Option<real>,
                                 usedLevel: string, usedSystem: Option<string>, usedType: string, usedElevationM: real)

  /** The run between the two request points at height z, converted to feet. */
  function RunAt(start: Pt2, end: Pt2, z: real): Edge
  {
    Edge(Lift(start, z), Lift(end, z))
  }

  /** A size in millimetres, in feet. */
  function MmToFt(mm: real): real
  {
    MToFt(mm / 1000.0)
  }

  function MmOpt(mm: Option<real>): Option<real>
  {
    if mm.Some? then Some(MmToFt(mm.value)) else None
  }

  datatype PipeRequest = PipeRequest(systemType: Option<string>, pipeType: Option<string>, elevationM: Option<real>,
                                     start: Pt2, end: Pt2, diameterMm: Option<real>)

  const PipeElevationM: real := 2.5
  const NoPipingSystem := "No PipingSystemType found."
  const NoPipeType := "No PipeType found."

  /**
   * Pipe.Create: the level (resolved by the caller), the piping system
   * (the first when none is named, otherwise the one of that name), the pipe
   * type (the named one, else the first), the run at the elevation over the
   * level and the optional diameter.
   */
  function PipeCreate(level: Result<Level>, systems: seq<ElemType>, types: seq<ElemType>, req: PipeRequest): Result<CurvePlan>
  {
    if level.Err? then Err(level.error)
    else
      var e := OrReal(req.elevationM, PipeElevationM);
      var z := level.value.elevation + MToFt(e);
      var sys := if IsBlankOpt(req.systemType) then FirstOf(systems) else MatchName(systems, req.systemType.value);
      if sys.None? then Err(NoPipingSystem)
      else
        var t := TypeOrFirst(types, req.pipeType);
        if t.None? then Err(WithExamples(NoPipeType, Examples(types, Label)))
        else
          Ok(CurvePlan(Some(sys.value.name), t.value, level.value, RunAt(req.start, req.end, z),
                       MmOpt(req.diameterMm), None, None,
                       level.value.name, Some(sys.value.name), Label(t.value), e))
  }

  /**
   * A named piping system that does not exist is an error, whereas an
   * unmatched pipe type falls back to the first one; the only pipe type
   * error is having none, and its message then never lists examples. The run
   * lies at the elevation over the level, 2.5 m by default.
   */
  lemma PipeCreateSpec(level: Result<Level>, systems: seq<ElemType>, types: seq<ElemType>, req: PipeRequest)
    ensures var r := PipeCreate(level, systems, types, req);
      (level.Err? ==> r == Err(level.error)) &&
      (level.Ok? && !IsBlankOpt(req.systemType) && MatchName(systems, req.systemType.value).None? ==> r == Err(NoPipingSystem)) &&
      (level.Ok? && systems == [] ==> r == Err(NoPipingSystem)) &&
      (r.Ok? <==> level.Ok? && types != [] &&
                  (if IsBlankOpt(req.systemType) then systems != [] else MatchName(systems, req.systemType.value).Some?)) &&
      (level.Ok? && r.Err? && r.error != NoPipingSystem ==> r == Err(NoPipeType)) &&
      (r.Ok? ==>
        r.value.curveType in types &&
        (!IsBlankOpt(req.pipeType) && MatchNameOrLabel(types, req.pipeType.value).Some? ==>
          NameOrLabel(r.value.curveType, req.pipeType.value)) &&
        (!IsBlankOpt(req.systemType) ==> EqIgnoreCase(r.value.usedSystem.value, req.systemType.value)) &&
        r.value.usedType == Label(r.value.curveType) &&
        r.value.usedElevationM == (if req.elevationM.Some? then req.elevationM.value else 2.5) &&
        r.value.line.start.z == level.value.elevation + MToFt(r.value.usedElevationM) &&
        r.value.line.end.z == r.value.line.start.z &&
        (r.value.diameterFt.Some? <==> req.diameterMm.Some?))
  {
    assert Examples([], Label) == "";
  }

  datatype ConduitRequest = ConduitRequest(conduitType: Option<string>, elevationM: Option<real>,
                                           start: Pt2, end: Pt2, diameterMm: Option<real>)

  const ConduitElevationM: real := 2.4
  const NoConduitType := "No ConduitType found."

  function TypeName(t: ElemType): string
  {
    t.name
  }

  /** Conduit.Create: the level, the conduit type (the named one, else the first), the run and the optional diameter. */
  function ConduitCreate(level: Result<Level>, types: seq<ElemType>, req: ConduitRequest): Result<CurvePlan>
  {
    if level.Err? then Err(level.error)
    else
      var e := OrReal(req.elevationM, ConduitElevationM);
      var z := level.value.elevation + MToFt(e);
      var t := TypeOrFirst(types, req.conduitType);
      if t.None? then Err(WithExamples(NoConduitType, Examples(types, TypeName)))
      else
        Ok(CurvePlan(None, t.value, level.value, RunAt(req.start, req.end, z), MmOpt(req.diameterMm), None, None,
                     level.value.name, None, t.value.name, e))
  }

  /**
   * A conduit is created exactly when the level resolves and there is a
   * conduit type; an unmatched type falls back to the first; the run lies at
   * the elevation over the level, 2.4 m by default, and the type is reported
   * by its name.
   */
  lemma ConduitCreateSpec(level: Result<Level>, types: seq<ElemType>, req: ConduitRequest)
    ensures var r := ConduitCreate(level, types, req);
      (level.Err? ==> r == Err(level.error)) &&
      (r.Ok? <==> level.Ok? && types != []) &&
      (level.Ok? && types == [] ==> r == Err(NoConduitType)) &&
      (r.Ok? ==>
        r.value.curveType in types &&
        (!IsBlankOpt(req.conduitType) && MatchNameOrLabel(types, req.conduitType.value).Some? ==>
          NameOrLabel(r.value.curveType, req.conduitType.value)) &&
        r.value.usedType == r.value.curveType.name &&
        r.value.usedElevationM == (if req.elevationM.Some? then req.elevationM.value else 2.4) &&
        r.value.line.start.z == level.value.elevation + MToFt(r.value.usedElevationM) &&
        r.value.line.end.z == r.value.line.start.z &&
        (r.value.diameterFt.Some? <==> req.diameterMm.Some?))
  {
    assert Examples([], TypeName) == "";
  }

  datatype CableTrayRequest = CableTrayRequest(cableTrayType: Option<string>, elevationM: Option<real>, start: Pt2, end: Pt2)

  const CableTrayElevationM: real := 2.7
  const NoCableTrayType := "No CableTrayType found."
  const SamePoints := "Start and end points are the same."

  /**
   * CableTray.Create: the tray type first (the first one when none is named,
   * otherwise the one of that name), then the level, then the run, which
   * must not be degenerate.
   */
  function CableTrayCreate(level: Result<Level>, types: seq<ElemType>, req: CableTrayRequest): Result<CurvePlan>
  {
    var t := if IsBlankOpt(req.cableTrayType) then FirstOf(types) else MatchName(types, req.cableTrayType.value);
    if t.None? then Err(NoCableTrayType)
    else if level.Err? then Err(level.error)
    else
      var e := OrReal(req.elevationM, CableTrayElevationM);
      var z := level.value.elevation + MToFt(e);
      var run := RunAt(req.start, req.end, z);
      if AlmostEqual(run.start, run.end) then Err(SamePoints)
      else Ok(CurvePlan(None, t.value, level.value, run, None, None, None, level.value.name, None, t.value.name, e))
  }

  /**
   * A named tray type that does not exist is an error (no fallback), and is
   * reported before the level; a tray is created exactly when the type and
   * the level resolve and the two points differ in feet.
   */
  lemma CableTrayCreateSpec(level: Result<Level>, types: seq<ElemType>, req: CableTrayRequest)
    ensures var r := CableTrayCreate(level, types, req);
      (!IsBlankOpt(req.cableTrayType) && MatchName(types, req.cableTrayType.value).None? ==> r == Err(NoCableTrayType)) &&
      (types == [] ==> r == Err(NoCableTrayType)) &&
      (r.Ok? <==>
        (if IsBlankOpt(req.cableTrayType) then types != [] else MatchName(types, req.cableTrayType.value).Some?) &&
        level.Ok? &&
        !AlmostEqual(Lift(req.start, level.value.elevation + MToFt(OrReal(req.elevationM, 2.7))),
                     Lift(req.end, level.value.elevation + MToFt(OrReal(req.elevationM, 2.7))))) &&
      (r.Ok? ==>
        r.value.curveType in types &&
        (!IsBlankOpt(req.cableTrayType) ==> EqIgnoreCase(r.value.curveType.name, req.cableTrayType.value)) &&
        (IsBlankOpt(req.cableTrayType) ==> r.value.curveType == types[0]) &&
        NonDegenerate(r.value.line) && r.value.usedType == r.value.curveType.name)
  {
  }

  // ---------------------------------------------------------------------------
  // Bulk parameter setting
  // ---------------------------------------------------------------------------

  /** One parameter to set, to a value in feet. */
  datatype Assign = Assign(param: BuiltIn, value: real)

  /** An entry of `failed`: a parameter that cannot be set (`reason`), or an exception (`error`). */
  datatype Failure = NotSettable(id: int, reason: string) | Threw(id: int, error: string)

  /** The parameter exists, is writable and stores a double. */
  predicate Settable(e: Element, b: BuiltIn)
  {
    b in e.params && !e.params[b].readOnly && e.params[b].isDouble
  }

  function SetParam(e: Element, b: BuiltIn, v: real): Element
    requires b in e.params
  {
    e.(params := e.params[b := e.params[b].(value := v)])
  }

  /** Two parameters alike in everything but their value. */
  predicate ParamLike(p: Param, q: Param)
  {
    p.readOnly == q.readOnly && p.isDouble == q.isDouble && p.setError == q.setError
  }

  /** Two states of an element that differ at most in parameter values. */
  predicate SameShape(e: Element, f: Element)
  {
    e.kind == f.kind && e.connectors == f.connectors && e.params.Keys == f.params.Keys &&
    forall b :: b in e.params ==> ParamLike(e.params[b], f.params[b])
  }

  /** Some parameter to be set is settable on the element. */
  predicate AnySettable(e: Element, assigns: seq<Assign>)
  {
    exists i :: 0 <= i < |assigns| && Settable(e, assigns[i].param)
  }

  /** The element after the sets, whether any parameter was settable, and the exception a set threw. */
  datatype Applied = Applied(elem: Element, any: bool, error: Option<string>)

  /** The sets in order, each only where the parameter is settable; an exception stops the rest, keeping the earlier sets. */
  function Apply(e: Element, assigns: seq<Assign>): Applied
    decreases |assigns|
  {
    if assigns == [] then Applied(e, false, None)
    else
      var a := assigns[0];
      if !Settable(e, a.param) then Apply(e, assigns[1..])
      else if e.params[a.param].setError.Some? then Applied(e, true, e.params[a.param].setError)
      else
        var rest := Apply(SetParam(e, a.param, a.value), assigns[1..]);
        Applied(rest.elem, true, rest.error)
  }

  lemma SameShapeSettable(e: Element, f: Element, assigns: seq<Assign>)
    requires SameShape(e, f)
    ensures AnySettable(e, assigns) <==> AnySettable(f, assigns)
    ensures forall b :: Settable(e, b) <==> Settable(f, b)
  {
  }

  /**
   * Setting changes parameter values only; something was settable exactly
   * when some parameter to set is settable, and with nothing settable the
   * element is unchanged; a parameter not named is never touched.
   */
  lemma {:induction false} ApplySpec(e: Element, assigns: seq<Assign>)
    ensures SameShape(e, Apply(e, assigns).elem)
    ensures Apply(e, assigns).any <==> AnySettable(e, assigns)
    ensures Apply(e, assigns).error.Some? ==> Apply(e, assigns).any
    ensures !AnySettable(e, assigns) ==> Apply(e, assigns) == Applied(e, false, None)
    ensures forall b :: b in e.params && (forall i :: 0 <= i < |assigns| ==> assigns[i].param != b) ==>
      Apply(e, assigns).elem.params[b] == e.params[b]
    decreases |assigns|
  {
    if assigns != [] {
      var a := assigns[0];
      var tail := assigns[1..];
      if !Settable(e, a.param) {
        ApplySpec(e, tail);
        assert AnySettable(e, assigns) <==> AnySettable(e, tail) by {
          if AnySettable(e, assigns) {
            var i :| 0 <= i < |assigns| && Settable(e, assigns[i].param);
            assert i > 0 && Settable(e, tail[i - 1].param);
          }
          if AnySettable(e, tail) {
            var i :| 0 <= i < |tail| && Settable(e, tail[i].param);
            assert Settable(e, assigns[i + 1].param);
          }
        }
      } else if e.params[a.param].setError.None? {
        var e1 := SetParam(e, a.param, a.value);
        ApplySpec(e1, tail);
        assert SameShape(e, e1);
        assert Settable(e, assigns[0].param);
      } else {
        assert Settable(e, assigns[0].param);
      }
    }
  }

  /** The document and the two reply lists of a bulk setter. */
  datatype Bulk = Bulk(doc: Doc, updated: seq<int>, failed: seq<Failure>)

  /**
   * One id of the loop: an element of the kind is updated when some
   * parameter could be set, failed with the reason when none could, or failed
   * with the exception's message; anything else is passed over.
   */
  function BulkStep(s: Bulk, id: int, kind: Kind, assigns: seq<Assign>, reason: string): Bulk
  {
    if id in s.doc && s.doc[id].kind == kind then
      var ap := Apply(s.doc[id], assigns);
      if ap.error.Some? then Bulk(s.doc[id := ap.elem], s.updated, s.failed + [Threw(id, ap.error.value)])
      else if ap.any then Bulk(s.doc[id := ap.elem], s.updated + [id], s.failed)
      else Bulk(s.doc, s.updated, s.failed + [NotSettable(id, reason)])
    else s
  }

  /** The bulk setters' loop over the ids, in order. */
  function BulkSet(doc: Doc, ids: seq<int>, kind: Kind, assigns: seq<Assign>, reason: string): Bulk
    decreases |ids|
  {
    if ids == [] then Bulk(doc, [], [])
    else BulkStep(BulkSet(doc, ids[..|ids| - 1], kind, assigns, reason), ids[|ids| - 1], kind, assigns, reason)
  }

  /** The ids, in order, that name an element of the kind: the ones the loop acts on. */
  function OfKind(doc: Doc, ids: seq<int>, kind: Kind): (r: seq<int>)
    decreases |ids|
  {
    if ids == [] then []
    else
      var last := ids[|ids| - 1];
      OfKind(doc, ids[..|ids| - 1], kind) + (if last in doc && doc[last].kind == kind then [last] else [])
  }

  function FailureId(f: Failure): int
  {
    match f
    case NotSettable(id, _) => id
    case Threw(id, _) => id
  }

  lemma SameShapeTrans(e: Element, f: Element, g: Element)
    requires SameShape(e, f) && SameShape(f, g)
    ensures SameShape(e, g)
  {
  }

  /** One step of the loop changes at most the element it acts on, and that one in parameter values only. */
  lemma BulkStepDoc(s: Bulk, id: int, kind: Kind, assigns: seq<Assign>, reason: string)
    ensures var t := BulkStep(s, id, kind, assigns, reason);
      t.doc.Keys == s.doc.Keys &&
      (forall x :: x in s.doc && x != id ==> t.doc[x] == s.doc[x]) &&
      (id in s.doc ==> SameShape(s.doc[id], t.doc[id])) &&
      (id in s.doc && s.doc[id].kind != kind ==> t.doc[id] == s.doc[id])
  {
    if id in s.doc {
      ApplySpec(s.doc[id], assigns);
    }
  }

  /**
   * A bulk setter keeps the document's ids, changes elements in parameter
   * values only, and changes only elements of the kind that are among the ids.
   */
  lemma {:induction false} BulkDocSpec(doc: Doc, ids: seq<int>, kind: Kind, assigns: seq<Assign>, reason: string)
    ensures var s := BulkSet(doc, ids, kind, assigns, reason);
      s.doc.Keys == doc.Keys &&
      (forall x :: x in doc ==> SameShape(doc[x], s.doc[x])) &&
      (forall x :: x in doc && (x !in ids || doc[x].kind != kind) ==> s.doc[x] == doc[x])
    decreases |ids|
  {
    if ids != [] {
      var init := ids[..|ids| - 1];
      var id := ids[|ids| - 1];
      assert ids == init + [id];
      BulkDocSpec(doc, init, kind, assigns, reason);
      var s0 := BulkSet(doc, init, kind, assigns, reason);
      var s := BulkSet(doc, ids, kind, assigns, reason);
      assert s == BulkStep(s0, id, kind, assigns, reason);
      BulkStepDoc(s0, id, kind, assigns, reason);
      forall x | x in doc
        ensures SameShape(doc[x], s.doc[x])
      {
        if x == id {
          SameShapeTrans(doc[x], s0.doc[x], s.doc[x]);
        }
      }
    }
  }

  /** Every id naming an element of the kind lands in exactly one of updated or failed, and the others in neither. */
  lemma {:induction false} BulkCountSpec(doc: Doc, ids: seq<int>, kind: Kind, assigns: seq<Assign>, reason: string)
    ensures |BulkSet(doc, ids, kind, assigns, reason).updated| + |BulkSet(doc, ids, kind, assigns, reason).failed| ==
            |OfKind(doc, ids, kind)|
    decreases |ids|
  {
    if ids != [] {
      var init := ids[..|ids| - 1];
      BulkCountSpec(doc, init, kind, assigns, reason);
      BulkDocSpec(doc, init, kind, assigns, reason);
    }
  }

  /**
   * Each updated id names an element of the kind with a settable parameter;
   * each failed id names an element of the kind, and one failed for the
   * reason has no settable parameter.
   */
  lemma {:induction false} BulkEntriesSpec(doc: Doc, ids: seq<int>, kind: Kind, assigns: seq<Assign>, reason: string)
    ensures EntriesHold(doc, ids, kind, assigns, reason, BulkSet(doc, ids, kind, assigns, reason))
    decreases |ids|
  {
    if ids != [] {
      var init := ids[..|ids| - 1];
      var id := ids[|ids| - 1];
      BulkEntriesSpec(doc, init, kind, assigns, reason);
      BulkDocSpec(doc, init, kind, assigns, reason);
      assert ids == init + [id];
      BulkEntriesStep(doc, init, id, kind, assigns, reason, BulkSet(doc, init, kind, assigns, reason));
    }
  }

  /** What the bulk result says about the ids: see BulkEntriesSpec. */
  ghost predicate EntriesHold(doc: Doc, ids: seq<int>, kind: Kind, assigns: seq<Assign>, reason: string, s: Bulk)
  {
    (forall x :: x in s.updated ==> x in ids && x in doc && doc[x].kind == kind && AnySettable(doc[x], assigns)) &&
    (forall f :: f in s.failed ==> FailureId(f) in ids && FailureId(f) in doc && doc[FailureId(f)].kind == kind) &&
    (forall f :: f in s.failed && f.NotSettable? ==> f.id in doc && !AnySettable(doc[f.id], assigns) && f.reason == reason)
  }

  /** One more id keeps the entries' description. */
  lemma BulkEntriesStep(doc: Doc, ids: seq<int>, id: int, kind: Kind, assigns: seq<Assign>, reason: string, s0: Bulk)
    requires EntriesHold(doc, ids, kind, assigns, reason, s0)
    requires s0.doc.Keys == doc.Keys
    requires forall x :: x in doc ==> SameShape(doc[x], s0.doc[x])
    ensures EntriesHold(doc, ids + [id], kind, assigns, reason, BulkStep(s0, id, kind, assigns, reason))
  {
    assert forall x :: x in ids ==> x in ids + [id];
    if id in s0.doc && s0.doc[id].kind == kind {
      ApplySpec(s0.doc[id], assigns);
      SameShapeSettable(doc[id], s0.doc[id], assigns);
    }
  }

  /** An id is acted on exactly when it is one of the ids and names an element of the kind. */
  lemma {:induction false} OfKindMembers(doc: Doc, ids: seq<int>, kind: Kind)
    ensures forall x :: x in OfKind(doc, ids, kind) <==> x in ids && x in doc && doc[x].kind == kind
    decreases |ids|
  {
    if ids != [] {
      OfKindMembers(doc, ids[..|ids| - 1], kind);
      assert ids == ids[..|ids| - 1] + [ids[|ids| - 1]];
    }
  }

  /** The bulk setters' loop: the parameters of each element of the kind are set in order, collecting updated and failed ids. */
  method RunBulkSet(doc: Doc, ids: seq<int>, kind: Kind, assigns: seq<Assign>, reason: string)
    returns (newDoc: Doc, updated: seq<int>, failed: seq<Failure>)
    ensures Bulk(newDoc, updated, failed) == BulkSet(doc, ids, kind, assigns, reason)
  {
    newDoc := doc;
    updated := [];
    failed := [];
    var i := 0;
    while i < |ids|
      invariant 0 <= i <= |ids|
      invariant Bulk(newDoc, updated, failed) == BulkSet(doc, ids[..i], kind, assigns, reason)
    {
      assert ids[..i + 1][..i] == ids[..i];
      var id := ids[i];
      if id in newDoc && newDoc[id].kind == kind {
        var ap := Apply(newDoc[id], assigns);
        if ap.error.Some? {
          newDoc := newDoc[id := ap.elem];
          failed := failed + [Threw(id, ap.error.value)];
        } else if ap.any {
          newDoc := newDoc[id := ap.elem];
          updated := updated + [id];
        } else {
          failed := failed + [NotSettable(id, reason)];
        }
      }
      i := i + 1;
    }
    assert ids[..|ids|] == ids;
  }

  /** The element after setting one parameter: set when settable and the set does not throw, unchanged otherwise. */
  function SetOne(e: Element, b: BuiltIn, v: real): Element
  {
    if Settable(e, b) && e.params[b].setError.None? then SetParam(e, b, v) else e
  }

  /** Setting one parameter once more to the same value changes nothing further. */
  lemma SetOneAgain(e: Element, cur: Element, b: BuiltIn, v: real)
    requires cur == e || cur == SetOne(e, b, v)
    ensures Apply(cur, [Assign(b, v)]).elem == SetOne(e, b, v)
  {
    assert [Assign(b, v)][1..] == [];
    if Settable(e, b) && e.params[b].setError.None? {
      assert SetParam(SetParam(e, b, v), b, v) == SetParam(e, b, v);
    }
  }

  /**
   * With one parameter to set (an offset or a diameter), each element of the
   * kind among the ids ends with that parameter set to the value when it is
   * settable and the set does not throw, and unchanged otherwise.
   */
  lemma {:induction false} SetOneDoc(doc: Doc, ids: seq<int>, kind: Kind, b: BuiltIn, v: real, reason: string)
    ensures var s := BulkSet(doc, ids, kind, [Assign(b, v)], reason);
      forall x :: x in ids && x in doc && doc[x].kind == kind ==> x in s.doc && s.doc[x] == SetOne(doc[x], b, v)
    decreases |ids|
  {
    var assigns := [Assign(b, v)];
    if ids != [] {
      var init := ids[..|ids| - 1];
      var id := ids[|ids| - 1];
      assert ids == init + [id];
      SetOneDoc(doc, init, kind, b, v, reason);
      BulkDocSpec(doc, init, kind, assigns, reason);
      var s0 := BulkSet(doc, init, kind, assigns, reason);
      var s := BulkSet(doc, ids, kind, assigns, reason);
      assert s == BulkStep(s0, id, kind, assigns, reason);
      forall x | x in ids && x in doc && doc[x].kind == kind
        ensures x in s.doc && s.doc[x] == SetOne(doc[x], b, v)
      {
        if x == id {
          SetOneAgain(doc[id], s0.doc[id], b, v);
        } else {
          assert x in init;
        }
      }
    }
  }

  /**
   * With one parameter to set, an element of the kind among the ids is
   * updated when the parameter is settable and the set succeeds; it is failed
   * with the reason when the parameter is not settable, and with the
   * exception's message when the set throws.
   */
  lemma {:induction false} SetOneEntries(doc: Doc, ids: seq<int>, kind: Kind, b: BuiltIn, v: real, reason: string)
    ensures var s := BulkSet(doc, ids, kind, [Assign(b, v)], reason);
      forall x :: x in ids && x in doc && doc[x].kind == kind ==>
        (Settable(doc[x], b) && doc[x].params[b].setError.None? ==> x in s.updated) &&
        (!Settable(doc[x], b) ==> NotSettable(x, reason) in s.failed) &&
        (Settable(doc[x], b) && doc[x].params[b].setError.Some? ==> Threw(x, doc[x].params[b].setError.value) in s.failed)
    decreases |ids|
  {
    var assigns := [Assign(b, v)];
    if ids != [] {
      var init := ids[..|ids| - 1];
      var id := ids[|ids| - 1];
      assert ids == init + [id];
      SetOneEntries(doc, init, kind, b, v, reason);
      BulkDocSpec(doc, init, kind, assigns, reason);
      var s0 := BulkSet(doc, init, kind, assigns, reason);
      var s := BulkSet(doc, ids, kind, assigns, reason);
      assert s == BulkStep(s0, id, kind, assigns, reason);
      assert s0.updated <= s.updated && s0.failed <= s.failed;
      if id in doc && doc[id].kind == kind {
        var e := doc[id];
        var cur := s0.doc[id];
        assert SameShape(e, cur);
        assert assigns[1..] == [];
        if Settable(e, b) && e.params[b].setError.None? {
          assert Apply(cur, assigns) == Applied(SetParam(cur, b, v), true, None);
        } else if Settable(e, b) {
          assert Apply(cur, assigns) == Applied(cur, true, e.params[b].setError);
        } else {
          assert Apply(cur, assigns) == Applied(cur, false, None);
        }
      }
      forall x | x in ids && x in doc && doc[x].kind == kind && x != id
        ensures x in init
      {
      }
    }
  }

  /** The sizes CableTray.SetSize sets: the width when given, then the height when given. */
  function TraySizes(w: Option<real>, h: Option<real>): seq<Assign>
  {
    (if w.Some? then [Assign(TrayWidthParam, w.value)] else []) + (if h.Some? then [Assign(TrayHeightParam, h.value)] else [])
  }

  /** A tray can be updated exactly when a given width or a given height is settable on it. */
  lemma TraySizesSettable(e: Element, w: Option<real>, h: Option<real>)
    ensures AnySettable(e, TraySizes(w, h)) <==>
      (w.Some? && Settable(e, TrayWidthParam)) || (h.Some? && Settable(e, TrayHeightParam))
  {
    var sz := TraySizes(w, h);
    if w.Some? && Settable(e, TrayWidthParam) {
      assert Settable(e, sz[0].param);
    }
    if h.Some? && Settable(e, TrayHeightParam) {
      assert Settable(e, sz[|sz| - 1].param);
    }
  }

  /** The reply of a bulk setter: the updated count and ids, and the failures. */
  datatype BulkReply = BulkReply(updatedCount: nat, updated: seq<int>, failed: seq<Failure>)

  function Reply(s: Bulk): BulkReply
  {
    BulkReply(|s.updated|, s.updated, s.failed)
  }

  datatype OffsetRequest = OffsetRequest(ids: seq<int>, offsetM: real)
  datatype DiameterRequest = DiameterRequest(ids: seq<int>, diameterMm: real)
  datatype SizeRequest = SizeRequest(ids: seq<int>, widthMm: Option<real>, heightMm: Option<real>)

  const OffsetReason := "Offset param not settable"
  const DiameterReason := "Diameter param not settable"
  const SizeReason := "Width/Height not settable"

  /** Pipe.SetOffset, Conduit.SetOffset and CableTray.SetOffset (and Duct.SetOffset): the offset in feet on each element of the kind. */
  function SetOffset(doc: Doc, kind: Kind, req: OffsetRequest): Bulk
  {
    BulkSet(doc, req.ids, kind, [Assign(OffsetParam, MToFt(req.offsetM))], OffsetReason)
  }

  /** Conduit.SetDiameter: the diameter in feet on each conduit. */
  function ConduitSetDiameter(doc: Doc, req: DiameterRequest): Bulk
  {
    BulkSet(doc, req.ids, ConduitElem, [Assign(ConduitDiameterParam, MmToFt(req.diameterMm))], DiameterReason)
  }

  /** CableTray.SetSize: the given width and height in feet on each tray. */
  function CableTraySetSize(doc: Doc, req: SizeRequest): Bulk
  {
    BulkSet(doc, req.ids, CableTrayElem, TraySizes(MmOpt(req.widthMm), MmOpt(req.heightMm)), SizeReason)
  }

  /**
   * A tray is updated only when a given width or height could be set on it,
   * and failed for the reason only when neither could.
   */
  lemma CableTraySetSizeSpec(doc: Doc, req: SizeRequest)
    ensures var s := CableTraySetSize(doc, req);
      (forall x :: x in s.updated ==>
         x in doc && doc[x].kind == CableTrayElem &&
         ((req.widthMm.Some? && Settable(doc[x], TrayWidthParam)) || (req.heightMm.Some? && Settable(doc[x], TrayHeightParam)))) &&
      (forall f :: f in s.failed && f.NotSettable? ==>
         f.id in doc &&
         !(req.widthMm.Some? && Settable(doc[f.id], TrayWidthParam)) && !(req.heightMm.Some? && Settable(doc[f.id], TrayHeightParam)) &&
         f.reason == SizeReason)
  {
    var w := MmOpt(req.widthMm);
    var h := MmOpt(req.heightMm);
    BulkEntriesSpec(doc, req.ids, CableTrayElem, TraySizes(w, h), SizeReason);
    forall x | x in doc
      ensures AnySettable(doc[x], TraySizes(w, h)) <==>
        (req.widthMm.Some? && Settable(doc[x], TrayWidthParam)) || (req.heightMm.Some? && Settable(doc[x], TrayHeightParam))
    {
      TraySizesSettable(doc[x], w, h);
    }
  }

  // ---------------------------------------------------------------------------
  // Insulation and lining
  // ---------------------------------------------------------------------------

  /** A parameter of a created element: its definition's name (None when there is no definition), whether it is writable as a double, and the message its Set throws with, if any. */
  datatype NamedParam = NamedParam(name: Option<string>, readOnly: bool, isDouble: bool, setError: Option<string>)

  /** The parameter has one of the names, ignoring case, and is writable and stores a double. */
  predicate Wanted(p: NamedParam, names: seq<string>)
  {
    p.name.Some? && !p.readOnly && p.isDouble && exists i :: 0 <= i < |names| && EqIgnoreCase(p.name.value, names[i])
  }

  /** The position of the first wanted parameter at or after `from`. */
  function FirstWanted(ps: seq<NamedParam>, names: seq<string>, from: nat): (r: Option<nat>)
    requires from <= |ps|
    ensures r.Some? ==> from <= r.value < |ps| && Wanted(ps[r.value], names)
    ensures forall j :: from <= j < |ps| && (r.None? || j < r.value) ==> !Wanted(ps[j], names)
    decreases |ps| - from
  {
    if from == |ps| then None
    else if Wanted(ps[from], names) then Some(from)
    else FirstWanted(ps, names, from + 1)
  }

  /**
   * TrySetDoubleParamByNames: the scan over the element's parameters and the
   * wanted names; it stops at the first parameter whose name matches one of
   * them and that is writable as a double, the one it sets.
   */
  method TrySetDoubleParamByNames(ps: seq<NamedParam>, names: seq<string>) returns (k: Option<nat>)
    ensures k == FirstWanted(ps, names, 0)
  {
    var i := 0;
    while i < |ps|
      invariant 0 <= i <= |ps|
      invariant FirstWanted(ps, names, i) == FirstWanted(ps, names, 0)
    {
      var p := ps[i];
      if p.name.Some? {
        var j := 0;
        while j < |names|
          invariant 0 <= j <= |names|
          invariant forall m :: 0 <= m < j ==> !(EqIgnoreCase(p.name.value, names[m]) && !p.readOnly && p.isDouble)
        {
          if EqIgnoreCase(p.name.value, names[j]) {
            if !p.readOnly && p.isDouble {
              return Some(i);
            }
          }
          j := j + 1;
        }
      }
      i := i + 1;
    }
    return None;
  }

  /** The parameter names tried for an insulation's or lining's thickness. */
  const ThicknessNames: seq<string> := ["Thickness", "Espesor", "Épaisseur", "Dicke"]

  /** Which Create signatures the insulation or lining class has: with a thickness, and without. */
  datatype Signatures = Signatures(withThickness: bool, withoutThickness: bool)

  /** An insulation or lining element made by Create: its id and its parameters. */
  datatype Made = Made(id: int, params: seq<NamedParam>)

  /**
   * Create invoked by reflection: `make(host, type, t)` is what the signature
   * given the thickness `t` (None for the signature without one) gives: the
   * element, null (Ok(None)), or the message of the exception Invoke raises.
   */
  type Maker = (int, int, Option<real>) -> Result<Option<Made>>

  /** A Create invocation that returned an element. */
  predicate Makes(m: Result<Option<Made>>)
  {
    m.Ok? && m.value.Some?
  }

  /** The outcome of one Create invocation: a null result throws, an exception propagates. */
  function CreatedBy(m: Result<Option<Made>>, what: string): (r: Result<Made>)
    ensures r.Ok? <==> Makes(m)
    ensures r.Ok? ==> r.value == m.value.value
    ensures m.Err? ==> r == Err(m.error)
  {
    match m
    case Err(e) => Err(e)
    case Ok(None) => Err(what + ".Create devolvió null.")
    case Ok(Some(x)) => Ok(x)
  }

  /**
   * The insulation and lining compat helpers: the signature with a thickness
   * (passing the thickness, or 0) when it exists, else the one without; a
   * null result, an exception of Create and a missing signature all throw.
   */
  function CompatCreate(sigs: Signatures, host: int, typeId: int, thicknessFt: Option<real>,
                        make: Maker, what: string): (r: Result<Made>)
    ensures r.Ok? <==> (if sigs.withThickness then Makes(make(host, typeId, Some(OrReal(thicknessFt, 0.0))))
                        else sigs.withoutThickness && Makes(make(host, typeId, None)))
    ensures sigs.withThickness && make(host, typeId, Some(OrReal(thicknessFt, 0.0))).Err? ==>
      r == Err(make(host, typeId, Some(OrReal(thicknessFt, 0.0))).error)
    ensures !sigs.withThickness && sigs.withoutThickness && make(host, typeId, None).Err? ==>
      r == Err(make(host, typeId, None).error)
    ensures r.Ok? ==> r.value == (if sigs.withThickness then make(host, typeId, Some(OrReal(thicknessFt, 0.0)))
                                  else make(host, typeId, None)).value.value
  {
    if sigs.withThickness then CreatedBy(make(host, typeId, Some(OrReal(thicknessFt, 0.0))), what)
    else if sigs.withoutThickness then CreatedBy(make(host, typeId, None), what)
    else Err("No se encontró " + what + ".Create (firmas soportadas).")
  }

  /** The error when the project has no type of the class. */
  function NoTypeMessage(className: string): string
  {
    "No " + className + " in project."
  }

  /**
   * The insulation or lining type: none is an error; the one named (ignoring
   * case) when a name is given and matches, the first one otherwise.
   */
  function InsulationType(types: seq<ElemType>, typeName: Option<string>, className: string): (r: Result<ElemType>)
    ensures r.Err? <==> types == []
    ensures r.Err? ==> r.error == NoTypeMessage(className)
    ensures r.Ok? ==> r.value in types
    ensures r.Ok? && !IsBlankOpt(typeName) && MatchName(types, typeName.value).Some? ==> EqIgnoreCase(r.value.name, typeName.value)
    ensures r.Ok? && (IsBlankOpt(typeName) || MatchName(types, typeName.value).None?) ==> r.value == types[0]
  {
    if types == [] then Err(NoTypeMessage(className))
    else
      var m := if !IsBlankOpt(typeName) then MatchName(types, typeName.value) else None;
      Ok(if m.Some? then m.value else types[0])
  }

  /**
   * One id of the insulation loop: None when it is not an element of the
   * kind; otherwise the created element's id, or the message of the
   * exception thrown by Create or by setting the thickness.
   */
  function InsulateOne(doc: Doc, id: int, kind: Kind, sigs: Signatures, typeId: int, thicknessFt: Option<real>,
                       make: Maker, what: string): Option<Result<int>>
  {
    if id in doc && doc[id].kind == kind then
      var c := CompatCreate(sigs, id, typeId, thicknessFt, make, what);
      if c.Err? then Some(Err(c.error))
      else if thicknessFt.Some? then
        var k := FirstWanted(c.value.params, ThicknessNames, 0);
        if k.Some? && c.value.params[k.value].setError.Some? then Some(Err(c.value.params[k.value].setError.value))
        else Some(Ok(c.value.id))
      else Some(Ok(c.value.id))
    else None
  }

  /** The created ids and the failures of an insulation or lining loop. */
  datatype Insulated = Insulated(created: seq<int>, failed: seq<Failure>)

  /** The insulation and lining loop over the ids, in order. */
  function Insulate(doc: Doc, ids: seq<int>, kind: Kind, sigs: Signatures, typeId: int, thicknessFt: Option<real>,
                    make: Maker, what: string): Insulated
    decreases |ids|
  {
    if ids == [] then Insulated([], [])
    else
      var prev := Insulate(doc, ids[..|ids| - 1], kind, sigs, typeId, thicknessFt, make, what);
      var id := ids[|ids| - 1];
      match InsulateOne(doc, id, kind, sigs, typeId, thicknessFt, make, what)
      case None => prev
      case Some(Ok(x)) => Insulated(prev.created + [x], prev.failed)
      case Some(Err(m)) => Insulated(prev.created, prev.failed + [Threw(id, m)])
  }

  /**
   * Every id naming an element of the kind gives exactly one created id or
   * one failure, and the others give neither; failures are exceptions only,
   * each for such an id.
   */
  lemma {:induction false} InsulateSpec(doc: Doc, ids: seq<int>, kind: Kind, sigs: Signatures, typeId: int,
                                        thicknessFt: Option<real>, make: Maker, what: string)
    ensures var r := Insulate(doc, ids, kind, sigs, typeId, thicknessFt, make, what);
      |r.created| + |r.failed| == |OfKind(doc, ids, kind)| &&
      forall f :: f in r.failed ==> f.Threw? && f.id in ids && f.id in doc && doc[f.id].kind == kind
    decreases |ids|
  {
    if ids != [] {
      InsulateSpec(doc, ids[..|ids| - 1], kind, sigs, typeId, thicknessFt, make, what);
      assert ids == ids[..|ids| - 1] + [ids[|ids| - 1]];
    }
  }

  /** Without a Create signature every element of the kind fails with the same message and nothing is created. */
  lemma {:induction false} InsulateWithoutCreate(doc: Doc, ids: seq<int>, kind: Kind, typeId: int,
                                                 thicknessFt: Option<real>, make: Maker, what: string)
    ensures var r := Insulate(doc, ids, kind, Signatures(false, false), typeId, thicknessFt, make, what);
      r.created == [] &&
      forall f :: f in r.failed ==> f.Threw? && f.error == "No se encontró " + what + ".Create (firmas soportadas)."
    decreases |ids|
  {
    if ids != [] {
      InsulateWithoutCreate(doc, ids[..|ids| - 1], kind, typeId, thicknessFt, make, what);
    }
  }

  /** The insulation and lining loop: Create for each element of the kind, then the thickness by name where one is given. */
  method RunInsulate(doc: Doc, ids: seq<int>, kind: Kind, sigs: Signatures, typeId: int, thicknessFt: Option<real>,
                     make: Maker, what: string)
    returns (created: seq<int>, failed: seq<Failure>)
    ensures Insulated(created, failed) == Insulate(doc, ids, kind, sigs, typeId, thicknessFt, make, what)
  {
    created := [];
    failed := [];
    var i := 0;
    while i < |ids|
      invariant 0 <= i <= |ids|
      invariant Insulated(created, failed) == Insulate(doc, ids[..i], kind, sigs, typeId, thicknessFt, make, what)
    {
      assert ids[..i + 1][..i] == ids[..i];
      var id := ids[i];
      if id in doc && doc[id].kind == kind {
        var c := CompatCreate(sigs, id, typeId, thicknessFt, make, what);
        if c.Err? {
          failed := failed + [Threw(id, c.error)];
        } else {
          var thrown: Option<string> := None;
          if thicknessFt.Some? {
            var k := TrySetDoubleParamByNames(c.value.params, ThicknessNames);
            if k.Some? && c.value.params[k.value].setError.Some? {
              thrown := c.value.params[k.value].setError;
            }
          }
          if thrown.Some? {
            failed := failed + [Threw(id, thrown.value)];
          } else {
            created := created + [c.value.id];
          }
        }
      }
      i := i + 1;
    }
    assert ids[..|ids|] == ids;
  }

  datatype InsulationRequest = InsulationRequest(ids: seq<int>, typeName: Option<string>, thicknessMm: Option<real>)

  /** The reply: the type used, the created count and ids, and the failures. */
  datatype InsulationReply = InsulationReply(typeName: string, createdCount: nat, created: seq<int>, failed: seq<Failure>)

  /**
   * Pipe.AddInsulation, Duct.AddInsulation and Duct.AddLining: the type,
   * then insulation or lining on every element of the kind, with the
   * thickness in feet when given.
   */
  function AddInsulation(doc: Doc, types: seq<ElemType>, req: InsulationRequest, kind: Kind, className: string,
                         sigs: Signatures, make: Maker, what: string): Result<InsulationReply>
  {
    var t := InsulationType(types, req.typeName, className);
    if t.Err? then Err(t.error)
    else
      var r := Insulate(doc, req.ids, kind, sigs, t.value.id, MmOpt(req.thicknessMm), make, what);
      Ok(InsulationReply(t.value.name, |r.created|, r.created, r.failed))
  }

  /** Pipe.AddInsulation. */
  function PipeAddInsulation(doc: Doc, types: seq<ElemType>, req: InsulationRequest, sigs: Signatures,
                             make: Maker): Result<InsulationReply>
  {
    AddInsulation(doc, types, req, PipeElem, "PipeInsulationType", sigs, make, "PipeInsulation")
  }

  /**
   * Adding insulation fails only when there are no types; otherwise every
   * element of the kind among the ids is counted once, created or failed,
   * and the created count is the number of created ids.
   */
  lemma AddInsulationSpec(doc: Doc, types: seq<ElemType>, req: InsulationRequest, kind: Kind, className: string,
                          sigs: Signatures, make: Maker, what: string)
    ensures var r := AddInsulation(doc, types, req, kind, className, sigs, make, what);
      (r.Err? <==> types == []) &&
      (r.Err? ==> r.error == NoTypeMessage(className)) &&
      (r.Ok? ==> r.value.createdCount == |r.value.created| &&
                 r.value.createdCount + |r.value.failed| == |OfKind(doc, req.ids, kind)| &&
                 exists t :: t in types && t.name == r.value.typeName)
  {
    var t := InsulationType(types, req.typeName, className);
    if t.Ok? {
      InsulateSpec(doc, req.ids, kind, sigs, t.value.id, MmOpt(req.thicknessMm), make, what);
    }
  }
}
