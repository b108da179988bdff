// Records shared by the structure, architecture and MEP actions: points and
// edges in feet, closed profiles, levels, and element types named
// "Family: Type".

module Revit {
  import opened Text
  import opened Seqs

  // ---------------------------------------------------------------------------
  // Units and points
  // ---------------------------------------------------------------------------

  const MetresPerFoot: real := 0.3048

  /** Core.Units.MetersToFt: model coordinates are in feet. */
  function MToFt(m: real): real
  {
    m / MetresPerFoot
  }

  /** `x ?? d` / GetValueOrDefault(d) on an optional number. */
  function OrReal(x: Option<real>, d: real): real
  {
    if x.Some? then x.value else d
  }

  /** `x ?? d` / GetValueOrDefault(d) on an optional flag. */
  function OrBool(x: Option<bool>, d: bool): bool
  {
    if x.Some? then x.value else d
  }

  /** A point of a request, in metres on the XY plane. */
  datatype Pt2 = Pt2(x: real, y: real)

  /** A model point, in feet. */
  datatype XYZ = XYZ(x: real, y: real, z: real)

  /** A straight model line, Line.CreateBound(start, end). */
  datatype Edge = Edge(start: XYZ, end: XYZ)

  /** The request point converted to feet and placed at height `z`. */
  function Lift(p: Pt2, z: real): XYZ
  {
    XYZ(MToFt(p.x), MToFt(p.y), z)
  }

  function LiftAll(ps: seq<Pt2>, z: real): (r: seq<XYZ>)
    ensures |r| == |ps|
    ensures forall i :: 0 <= i < |ps| ==> r[i] == Lift(ps[i], z)
  {
    var f := (p: Pt2) => Lift(p, z);
    MapAllIndex(ps, f);
    MapAll(ps, f)
  }

  /** XYZ.IsAlmostEqualTo with Revit's default tolerance of 1e-9 feet per coordinate. */
  const PointTolerance: real := 0.000000001

  function Abs(x: real): real
  {
    if x < 0.0 then -x else x
  }

  predicate AlmostEqual(a: XYZ, b: XYZ)
  {
    Abs(a.x - b.x) <= PointTolerance && Abs(a.y - b.y) <= PointTolerance && Abs(a.z - b.z) <= PointTolerance
  }

  /** An edge whose end points do not coincide. */
  predicate NonDegenerate(e: Edge)
  {
    !AlmostEqual(e.start, e.end)
  }

  // ---------------------------------------------------------------------------
  // Closed profiles
  // ---------------------------------------------------------------------------

  /** Edge i of the closed loop through `ps`: from point i to point (i + 1) % n. */
  function RingEdge(ps: seq<XYZ>, i: nat): Edge
    requires i < |ps|
  {
    Edge(ps[i], ps[(i + 1) % |ps|])
  }

  /** The first k edges of the closed loop through `ps`, in order. */
  function RingUpTo(ps: seq<XYZ>, k: nat): (r: seq<Edge>)
    requires k <= |ps|
    ensures |r| == k
  {
    if k == 0 then [] else RingUpTo(ps, k - 1) + [RingEdge(ps, k - 1)]
  }

  /** The closed loop through `ps`: one edge per point. */
  function Ring(ps: seq<XYZ>): (r: seq<Edge>)
    ensures |r| == |ps|
  {
    RingUpTo(ps, |ps|)
  }

  lemma {:induction false} RingUpToIndex(ps: seq<XYZ>, k: nat)
    requires k <= |ps|
    ensures |RingUpTo(ps, k)| == k
    ensures forall i :: 0 <= i < k ==> RingUpTo(ps, k)[i] == RingEdge(ps, i)
  {
    if k > 0 {
      RingUpToIndex(ps, k - 1);
    }
  }

  /**
   * A loop of n points has n edges; edge i runs from point i to point i + 1,
   * and the last edge returns to the first point, so each edge ends where
   * the next one starts.
   */
  lemma NextIndex(i: nat, n: nat)
    requires i < n
    ensures (i + 1) % n == if i + 1 < n then i + 1 else 0
  {
    if i + 1 == n {
      assert (i + 1) % n == n % n;
    }
  }

  lemma RingSpec(ps: seq<XYZ>)
    ensures |Ring(ps)| == |ps|
    ensures forall i :: 0 <= i < |ps| ==> Ring(ps)[i].start == ps[i]
    ensures forall i :: 0 <= i < |ps| - 1 ==> Ring(ps)[i].end == ps[i + 1]
    ensures |ps| > 0 ==> Ring(ps)[|ps| - 1].end == ps[0]
    ensures forall i :: 0 <= i < |ps| - 1 ==> Ring(ps)[i].end == Ring(ps)[i + 1].start
  {
    RingUpToIndex(ps, |ps|);
    forall i | 0 <= i < |ps|
      ensures Ring(ps)[i].end == if i + 1 < |ps| then ps[i + 1] else ps[0]
    {
      NextIndex(i, |ps|);
    }
  }

  /**
   * The loop through a profile at height z has one edge per point; edge i
   * starts at point i and ends at the next point, the last one closing the
   * loop at the first point, all in feet at height z.
   */
  lemma ProfileLoopSpec(profile: seq<Pt2>, z: real)
    ensures |Ring(LiftAll(profile, z))| == |profile|
    ensures forall i :: 0 <= i < |profile| ==>
      Ring(LiftAll(profile, z))[i].start == Lift(profile[i], z) &&
      Ring(LiftAll(profile, z))[i].end == Lift(profile[if i + 1 < |profile| then i + 1 else 0], z)
    ensures forall i :: 0 <= i < |profile| ==>
      Ring(LiftAll(profile, z))[i].start.z == z && Ring(LiftAll(profile, z))[i].end.z == z
  {
    RingSpec(LiftAll(profile, z));
  }

  /** The message of .NET's NullReferenceException: a member read through a null reference. */
  const NullReferenceMessage := "Object reference not set to an instance of an object."

  /**
   * Line.CreateBound: the message of the exception it throws for an edge whose
   * end points are closer than Revit's short-curve tolerance, none when the line
   * is made. The tolerance is Revit's, so the test is a parameter.
   */
  type LineMaker = Edge -> Option<string>

  /** The exception of the first edge, in loop order, that Line.CreateBound refuses, if any. */
  function FirstRefusal(es: seq<Edge>, bound: LineMaker): Option<string>
    decreases |es|
  {
    if es == [] then None
    else if bound(es[0]).Some? then bound(es[0])
    else FirstRefusal(es[1..], bound)
  }

  /**
   * The loop is built exactly when every edge is accepted; otherwise the
   * failure is the exception of an edge all of whose predecessors were accepted.
   */
  lemma {:induction false} FirstRefusalSpec(es: seq<Edge>, bound: LineMaker)
    ensures FirstRefusal(es, bound).None? <==> forall k :: 0 <= k < |es| ==> bound(es[k]).None?
    ensures FirstRefusal(es, bound).Some? ==>
      exists k :: 0 <= k < |es| && bound(es[k]) == FirstRefusal(es, bound) &&
                  forall j :: 0 <= j < k ==> bound(es[j]).None?
    decreases |es|
  {
    if es != [] && bound(es[0]).None? {
      FirstRefusalSpec(es[1..], bound);
      if FirstRefusal(es, bound).Some? {
        var k :| 0 <= k < |es[1..]| && bound(es[1..][k]) == FirstRefusal(es[1..], bound) &&
                 forall j :: 0 <= j < k ==> bound(es[1..][j]).None?;
        assert bound(es[k + 1]) == FirstRefusal(es, bound);
        forall j | 0 <= j < k + 1 ensures bound(es[j]).None? {
          if j > 0 {
            assert es[j] == es[1..][j - 1];
          }
        }
      }
    }
  }

  // ---------------------------------------------------------------------------
  // Profiles as deserialized
  // ---------------------------------------------------------------------------

  /**
   * Pt2 is a class, so a JSON null inside a profile array deserializes to a
   * null element: a request's profile is a sequence of optional points, and
   * reading a coordinate of a missing one throws NullReferenceException.
   */
  predicate AllGiven(ps: seq<Option<Pt2>>)
  {
    forall i :: 0 <= i < |ps| ==> ps[i].Some?
  }

  /** The points of a profile that has no null element. */
  function Given(ps: seq<Option<Pt2>>): (r: seq<Pt2>)
    requires AllGiven(ps)
    ensures |r| == |ps|
    ensures forall i :: 0 <= i < |ps| ==> r[i] == ps[i].value
  {
    if ps == [] then [] else [ps[0].value] + Given(ps[1..])
  }

  /** Iteration i of an edge loop reads point i and point (i + 1) % n. */
  predicate EndsGiven(profile: seq<Option<Pt2>>, i: nat)
    requires i < |profile|
  {
    profile[i].Some? && profile[(i + 1) % |profile|].Some?
  }

  /** Edge i of the closed loop through the profile, in feet at height z. */
  function EdgeAt(profile: seq<Option<Pt2>>, z: real, i: nat): Edge
    requires i < |profile| && EndsGiven(profile, i)
  {
    Edge(Lift(profile[i].value, z), Lift(profile[(i + 1) % |profile|].value, z))
  }

  /** The edges made by the first k iterations, whose points were all given. */
  function EdgesUpTo(profile: seq<Option<Pt2>>, z: real, k: nat): seq<Edge>
    requires k <= |profile|
    requires forall i :: 0 <= i < k ==> EndsGiven(profile, i)
  {
    if k == 0 then [] else EdgesUpTo(profile, z, k - 1) + [EdgeAt(profile, z, k - 1)]
  }

  /** With every point given, the iterations build the closed loop through the lifted points. */
  lemma {:induction false} EdgesUpToRing(profile: seq<Option<Pt2>>, z: real, k: nat)
    requires AllGiven(profile) && k <= |profile|
    ensures forall i :: 0 <= i < |profile| ==> EndsGiven(profile, i)
    ensures EdgesUpTo(profile, z, k) == RingUpTo(LiftAll(Given(profile), z), k)
  {
    if k > 0 {
      EdgesUpToRing(profile, z, k - 1);
      var ps := LiftAll(Given(profile), z);
      assert EdgeAt(profile, z, k - 1) == RingEdge(ps, k - 1);
    }
  }

  /** Every edge whose two end points are given is accepted by Line.CreateBound. */
  predicate GivenEdgesAccepted(profile: seq<Option<Pt2>>, z: real, bound: LineMaker)
  {
    forall i :: 0 <= i < |profile| && EndsGiven(profile, i) ==> bound(EdgeAt(profile, z, i)).None?
  }

  /**
   * The edge loop of floor.create, ceiling.create and roof.create_footprint
   * from iteration k on: a null end point throws NullReferenceException,
   * otherwise Line.CreateBound may refuse the edge; the first failure, if
   * any. None means every remaining point is given and every remaining edge
   * is made.
   */
  function LoopFault(profile: seq<Option<Pt2>>, z: real, bound: LineMaker, k: nat): (r: Option<string>)
    requires k <= |profile|
    ensures r.None? ==> forall i :: k <= i < |profile| ==> profile[i].Some?
    ensures r.None? ==> forall i :: k <= i < |profile| ==> EndsGiven(profile, i) && bound(EdgeAt(profile, z, i)).None?
    decreases |profile| - k
  {
    if k == |profile| then None
    else if !EndsGiven(profile, k) then Some(NullReferenceMessage)
    else if bound(EdgeAt(profile, z, k)).Some? then bound(EdgeAt(profile, z, k))
    else LoopFault(profile, z, bound, k + 1)
  }

  lemma {:induction false} LoopFaultAccepted(profile: seq<Option<Pt2>>, z: real, bound: LineMaker, k: nat)
    requires k <= |profile|
    requires forall i :: k <= i < |profile| ==> EndsGiven(profile, i) && bound(EdgeAt(profile, z, i)).None?
    ensures LoopFault(profile, z, bound, k).None?
    decreases |profile| - k
  {
    if k < |profile| {
      LoopFaultAccepted(profile, z, bound, k + 1);
    }
  }

  lemma {:induction false} LoopFaultRing(profile: seq<Option<Pt2>>, z: real, bound: LineMaker, k: nat)
    requires AllGiven(profile) && k <= |profile|
    ensures LoopFault(profile, z, bound, k) == FirstRefusal(Ring(LiftAll(Given(profile), z))[k..], bound)
    decreases |profile| - k
  {
    var ps := LiftAll(Given(profile), z);
    var ring := Ring(ps);
    RingUpToIndex(ps, |ps|);
    if k == |profile| {
      assert ring[k..] == [];
    } else {
      LoopFaultRing(profile, z, bound, k + 1);
      EdgesUpToRing(profile, z, |profile|);
      assert EdgeAt(profile, z, k) == RingEdge(ps, k) == ring[k];
      assert ring[k..][0] == ring[k];
      assert ring[k..][1..] == ring[k + 1..];
    }
  }

  lemma {:induction false} LoopFaultNull(profile: seq<Option<Pt2>>, z: real, bound: LineMaker, k: nat, j: nat)
    requires k <= j < |profile| && !EndsGiven(profile, j)
    requires GivenEdgesAccepted(profile, z, bound)
    ensures LoopFault(profile, z, bound, k) == Some(NullReferenceMessage)
    decreases |profile| - k
  {
    if k < j && EndsGiven(profile, k) {
      LoopFaultNull(profile, z, bound, k + 1, j);
    }
  }

  /**
   * The loop is built exactly when every point is given and Line.CreateBound
   * accepts every edge of the closed loop through them; with every point
   * given the failure is the first refused edge's, and when no edge between
   * given points is refused, a null point fails with NullReferenceException.
   */
  lemma LoopFaultSpec(profile: seq<Option<Pt2>>, z: real, bound: LineMaker)
    ensures LoopFault(profile, z, bound, 0).None? <==>
      AllGiven(profile) &&
      var loop := Ring(LiftAll(Given(profile), z));
      forall k :: 0 <= k < |loop| ==> bound(loop[k]).None?
    ensures AllGiven(profile) ==>
      LoopFault(profile, z, bound, 0) == FirstRefusal(Ring(LiftAll(Given(profile), z)), bound)
    ensures !AllGiven(profile) && GivenEdgesAccepted(profile, z, bound) ==>
      LoopFault(profile, z, bound, 0) == Some(NullReferenceMessage)
  {
    if AllGiven(profile) {
      var loop := Ring(LiftAll(Given(profile), z));
      LoopFaultRing(profile, z, bound, 0);
      assert loop[0..] == loop;
      FirstRefusalSpec(loop, bound);
    } else {
      var j :| 0 <= j < |profile| && profile[j].None?;
      assert !EndsGiven(profile, j);
      if GivenEdgesAccepted(profile, z, bound) {
        LoopFaultNull(profile, z, bound, 0, j);
      }
    }
  }

  /**
   * The edge-building loop: iteration i reads points i and (i + 1) % n,
   * converts them to feet at height z and asks Line.CreateBound for the edge;
   * a null point or a refused edge ends it with that exception.
   */
  method BuildLoop(profile: seq<Option<Pt2>>, z: real, bound: LineMaker) returns (r: Result<seq<Edge>>)
    ensures r.Err? <==> LoopFault(profile, z, bound, 0).Some?
    ensures r.Err? ==> r.error == LoopFault(profile, z, bound, 0).value
    ensures r.Ok? ==> AllGiven(profile) && r.value == Ring(LiftAll(Given(profile), z))
  {
    var n := |profile|;
    var edges: seq<Edge> := [];
    var i := 0;
    while i < n
      invariant 0 <= i <= n
      invariant LoopFault(profile, z, bound, i) == LoopFault(profile, z, bound, 0)
      invariant forall j :: 0 <= j < i ==> EndsGiven(profile, j)
      invariant edges == EdgesUpTo(profile, z, i)
    {
      var a := profile[i];
      var b := profile[(i + 1) % n];
      if a.None? || b.None? {
        return Err(NullReferenceMessage);
      }
      var e := Edge(Lift(a.value, z), Lift(b.value, z));
      var refused := bound(e);
      if refused.Some? {
        return Err(refused.value);
      }
      edges := edges + [e];
      i := i + 1;
    }
    assert AllGiven(profile) by {
      forall j | 0 <= j < n ensures profile[j].Some? {
        assert EndsGiven(profile, j);
      }
    }
    EdgesUpToRing(profile, z, n);
    return Ok(edges);
  }

  // ---------------------------------------------------------------------------
  // Levels and element types
  // ---------------------------------------------------------------------------

  datatype Level = Level(id: int, name: string, elevation: real)

  /** An element type (FamilySymbol, WallType, FloorType, PipeType, ...). */
  datatype ElemType = ElemType(id: int, familyName: string, name: string, category: Option<int>)

  /** The "Family: Type" label used to name and to report types. */
  function Label(t: ElemType): string
  {
    t.familyName + ": " + t.name
  }

  /** A type token matches a type by its name or its label, ignoring case. */
  predicate NameOrLabel(t: ElemType, token: string)
  {
    EqIgnoreCase(t.name, token) || EqIgnoreCase(Label(t), token)
  }

  /** The types of the category `bic`, in collector order. */
  function InCategory(symbols: seq<ElemType>, bic: int): seq<ElemType>
  {
    Keep(symbols, (s: ElemType) => s.category == Some(bic))
  }

  /** The first type matching the token by name or label. */
  function MatchNameOrLabel(ts: seq<ElemType>, token: string): Option<ElemType>
  {
    FirstWhere(ts, t => NameOrLabel(t, token))
  }

  /** The first type matching the token by name only. */
  function MatchName(ts: seq<ElemType>, token: string): Option<ElemType>
  {
    FirstWhere(ts, (t: ElemType) => EqIgnoreCase(t.name, token))
  }

  /** The labels of at most the first ten types, joined with ", ": the examples of an error message. */
  function Examples(ts: seq<ElemType>, show: ElemType -> string): string
  {
    Join(MapAll(if |ts| <= 10 then ts else ts[..10], show), ", ")
  }
}
