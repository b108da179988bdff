// The gateway's action-name handling: the manual alias table, the candidate
// spellings tried against the bridge's known actions, and the per-action hints
// that GET /actions adds to the bridge's list.

module GatewayNames {
  import opened Text
  import opened Json

  // ===========================================================================
  // Manual aliases
  // ===========================================================================

  /** The own properties of the alias table, in declaration order. */
  const ManualAliases: seq<(string, string)> := [
    ("model.levels.list", "levels.list"),
    ("qto.walls.types", "qto.walls"),
    ("qto.floor", "qto.floors"),
    ("qto.floor.types", "qto.floors"),
    ("qto.wall", "qto.walls"),
    ("view.category.override", "view.category.override_color"),
    ("view.category.color", "view.category.override_color"),
    ("view.category.set_color", "view.category.override_color")
  ]

  /** An own property of the alias table. */
  function OwnAlias(n: string): (r: Option<string>)
    ensures r.Some? <==> exists i :: 0 <= i < |ManualAliases| && ManualAliases[i].0 == n
    ensures r.Some? ==> exists i :: 0 <= i < |ManualAliases| && ManualAliases[i] == (n, r.value)
  {
    AliasIn(ManualAliases, n)
  }

  function AliasIn(table: seq<(string, string)>, n: string): (r: Option<string>)
    ensures r.Some? <==> exists i :: 0 <= i < |table| && table[i].0 == n
    ensures r.Some? ==> exists i :: 0 <= i < |table| && table[i] == (n, r.value)
  {
    if table == [] then None
    else if table[0].0 == n then Some(table[0].1)
    else
      var r := AliasIn(table[1..], n);
      assert forall i :: 1 <= i < |table| ==> table[i] == table[1..][i - 1];
      r
  }

  // ===========================================================================
  // Candidate spellings
  // ===========================================================================

  /**
   * The spellings tried, in the order the Set keeps them: as given, lower-cased,
   * '_' replaced by '.', spaces removed, spaces replaced by '_' with "__" then
   * collapsed once. A Set drops repeats, which does not change the first hit.
   */
  function Candidates(n: string): (cs: seq<string>)
    ensures |cs| == 5 && cs[0] == n
  {
    [n,
     Lower(n),
     ReplaceAll(n, "_", "."),
     ReplaceAll(n, " ", ""),
     ReplaceAll(ReplaceAll(n, " ", "_"), "__", "_")]
  }

  /** The first candidate that `known` includes. */
  function FirstKnown(cs: seq<string>, known: seq<string>): (r: Option<nat>)
    ensures r.Some? ==> (r.value < |cs| && cs[r.value] in known &&
                         forall j :: 0 <= j < r.value ==> cs[j] !in known)
    ensures r.None? ==> forall j :: 0 <= j < |cs| ==> cs[j] !in known
  {
    if cs == [] then None
    else if cs[0] in known then Some(0)
    else
      match FirstKnown(cs[1..], known)
      case None => None
      case Some(i) => Some(i + 1)
  }

  /** The first hit is at i when i is a hit and nothing before it is. */
  lemma FirstKnownAt(cs: seq<string>, known: seq<string>, i: nat)
    requires i < |cs| && cs[i] in known
    requires forall j :: 0 <= j < i ==> cs[j] !in known
    ensures FirstKnown(cs, known) == Some(i)
  {
  }

  /**
   * normalizeActionName with the alias table read as its own properties only
   * (see ActionNameAsWritten for the inherited-property case).
   */
  function ActionName(name: string, known: seq<string>): (r: string)
  {
    if name == [] then name
    else
      var n := Trim(name);
      match OwnAlias(n)
      case Some(t) => t
      case None =>
        match FirstKnown(Candidates(n), known)
        case Some(i) => Candidates(n)[i]
        case None => n
  }

  /** The loop of normalizeActionName over the candidate set. */
  method NormalizeActionName(name: string, known: seq<string>) returns (r: string)
    ensures r == ActionName(name, known)
  {
    if name == [] {
      return name;
    }
    var n := Trim(name);
    var alias := OwnAlias(n);
    if alias.Some? {
      return alias.value;
    }
    var cs := Candidates(n);
    var i := 0;
    while i < |cs|
      invariant 0 <= i <= |cs|
      invariant forall j :: 0 <= j < i ==> cs[j] !in known
    {
      if cs[i] in known {
        FirstKnownAt(cs, known, i);
        return cs[i];
      }
      i := i + 1;
    }
    return n;
  }

  /**
   * The three outcomes: an alias target, the first known candidate, or the
   * trimmed name passed through.
   */
  lemma ActionNameOutcomes(name: string, known: seq<string>)
    requires name != []
    ensures var n := Trim(name); var r := ActionName(name, known);
      (OwnAlias(n).Some? ==> r == OwnAlias(n).value) &&
      (OwnAlias(n).None? && (exists c :: c in Candidates(n) && c in known) ==>
         r in known && r in Candidates(n)) &&
      (OwnAlias(n).None? && (forall c :: c in Candidates(n) ==> c !in known) ==> r == n)
  {
    var n := Trim(name);
    var cs := Candidates(n);
    if OwnAlias(n).None? {
      match FirstKnown(cs, known)
      case Some(i) =>
        assert cs[i] in cs;
      case None =>
        forall c | c in cs
          ensures c !in known
        {
          var k :| 0 <= k < |cs| && cs[k] == c;
        }
    }
  }

  /** A known name (after trimming) that is not an alias key comes back trimmed and otherwise unchanged. */
  lemma KnownNamePassesThrough(name: string, known: seq<string>)
    requires name != [] && Trim(name) in known && OwnAlias(Trim(name)).None?
    ensures ActionName(name, known) == Trim(name)
  {
  }

  /** The lower-cased spelling is tried as soon as the name itself is unknown. */
  lemma LowerCaseFallback(name: string, known: seq<string>)
    requires name != [] && OwnAlias(Trim(name)).None?
    requires Trim(name) !in known && Lower(Trim(name)) in known
    ensures ActionName(name, known) == Lower(Trim(name))
  {
    FirstKnownAt(Candidates(Trim(name)), known, 1);
  }

  /** Without a bridge list only the alias table applies. */
  lemma NoKnownActions(name: string)
    requires name != [] && OwnAlias(Trim(name)).None?
    ensures ActionName(name, []) == Trim(name)
  {
  }

  // ---------------------------------------------------------------------------
  // The alias lookup as written: a plain object also answers inherited names
  // ---------------------------------------------------------------------------

  /** What `manualAliases[n]` reads: an own target, an inherited function or object, or undefined. */
  datatype AliasRead = OwnTarget(target: string) | InheritedMember | Undefined

  /** The value normalizeActionName returns as written: a string, or the inherited non-string. */
  datatype NameValue = NameString(s: string) | NotAString

  function AliasReadAsWritten(n: string): AliasRead
  {
    match OwnAlias(n)
    case Some(t) => OwnTarget(t)
    case None => if n in PrototypeMembers then InheritedMember else Undefined
  }

  /** normalizeActionName exactly as written, including the `manualAliases[n]` read of inherited members. */
  function ActionNameAsWritten(name: string, known: seq<string>): NameValue
  {
    if name == [] then NameString(name)
    else
      match AliasReadAsWritten(Trim(name))
      case OwnTarget(t) => NameString(t)
      case InheritedMember => NotAString
      case Undefined => NameString(ActionName(name, known))
  }

  /** A name that is no alias key but an inherited member reads as a non-string. */
  lemma InheritedIsNotAName(name: string, known: seq<string>)
    requires name != [] && AliasReadAsWritten(Trim(name)) == InheritedMember
    ensures ActionNameAsWritten(name, known) == NotAString
  {
  }

  /** Every alias key starts with 'm', 'q' or 'v'. */
  lemma NotAnAliasKey(n: string)
    requires n != [] && n[0] != 'm' && n[0] != 'q' && n[0] != 'v'
    ensures OwnAlias(n).None?
  {
    forall i | 0 <= i < |ManualAliases|
      ensures ManualAliases[i].0 != n
    {
      var k := ManualAliases[i].0;
      assert k != [] && (k[0] == 'm' || k[0] == 'q' || k[0] == 'v');
    }
  }

  /** "constructor" is no alias key but is inherited by every object. */
  lemma ConstructorIsInherited(n: string)
    requires n == "constructor"
    ensures OwnAlias(n).None? && n in PrototypeMembers
    ensures AliasReadAsWritten(n) == InheritedMember
  {
    assert PrototypeMembers[0] == n;
    NotAnAliasKey(n);
  }

  /**
   * The discrepancy: "constructor" (and every other inherited member name) comes
   * back as a non-string. The routes hand it to coerceArgsForAction, whose
   * normalizeArgsAliases calls `action.startsWith("qto.")` on it and throws a
   * TypeError, so the async handler rejects before it replies and nothing is
   * forwarded to the bridge. The corrected lookup yields a string (NoAliasIsAName).
   */
  lemma ConstructorIsNotAName(n: string, known: seq<string>)
    requires n == "constructor"
    ensures ActionNameAsWritten(n, known) == NotAString
  {
    TrimNoSpaceEnds(n);
    ConstructorIsInherited(n);
    InheritedIsNotAName(n, known);
  }

  /** Without an alias the corrected lookup yields the trimmed name or a known action. */
  lemma NoAliasIsAName(name: string, known: seq<string>)
    requires name != [] && OwnAlias(Trim(name)).None?
    ensures ActionName(name, known) == Trim(name) || ActionName(name, known) in known
  {
    var n := Trim(name);
    match FirstKnown(Candidates(n), known)
    case Some(i) =>
    case None =>
  }

  /** The corrected lookup agrees with the code everywhere else. */
  lemma AsWrittenAgreesElsewhere(name: string, known: seq<string>)
    requires name == [] || Trim(name) !in PrototypeMembers
    ensures ActionNameAsWritten(name, known) == NameString(ActionName(name, known))
  {
  }

  /** The corrected lookup returns a string for every input: an alias target, a known candidate, or the trimmed name. */
  lemma ActionNameIsAName(name: string, known: seq<string>)
    requires name != []
    ensures var r := ActionName(name, known);
      r == Trim(name) || r in known || exists i :: 0 <= i < |ManualAliases| && ManualAliases[i].1 == r
  {
    ActionNameOutcomes(name, known);
    var n := Trim(name);
    if OwnAlias(n).Some? {
      var i :| 0 <= i < |ManualAliases| && ManualAliases[i] == (n, OwnAlias(n).value);
    }
  }

  // ===========================================================================
  // Hints for GET /actions
  // ===========================================================================

  /** The branch of inferHintForAction an action falls into, in the order the branches are tried. */
  datatype HintKind =
    | EmptyName        // blank action
    | NoArgs           // ends in ".list", or is "view.active"
    | Takeoff(count: bool)  // "qto." prefix; `count` when it ends in ".count"
    | CategoryView     // "view.category." prefix
    | ViewScoped       // "view." or "views." prefix
    | Parameters       // "params." prefix
    | Mutation         // contains ".create", ".place" or ".set"
    | Plain            // anything else

  function HintKindOf(action: string): (k: HintKind)
    ensures k.EmptyName? <==> IsBlank(action)
  {
    var a := Trim(action);
    TrimEmptyIffBlank(action);
    if a == [] then EmptyName
    else if EndsWith(a, ".list") || a == "view.active" then NoArgs
    else if StartsWith(a, "qto.") then Takeoff(EndsWith(a, ".count"))
    else if StartsWith(a, "view.category.") then CategoryView
    else if StartsWith(a, "view.") || StartsWith(a, "views.") then ViewScoped
    else if StartsWith(a, "params.") then Parameters
    else if Contains(a, ".create") || Contains(a, ".place") || Contains(a, ".set") then Mutation
    else Plain
  }

  function Example(a: string, args: Fields): Json
  {
    Obj([("action", Str(a)), ("args", Obj(args))])
  }

  /** The hint object inferHintForAction builds for each branch. */
  function InferHint(action: string): (h: Json)
    ensures h.Obj?
  {
    var a := Trim(action);
    match HintKindOf(action)
    case EmptyName => Obj([("args", Obj([])), ("examples", Arr([Example("", [])]))])
    case NoArgs => Obj([("args", Obj([])), ("examples", Arr([Example(a, [])]))])
    case Takeoff(count) =>
      var base := [("args", Obj([("groupBy", Str("string[]?")), ("includeIds", Str("boolean?"))])),
                   ("examples", Arr([Example(a, []), Example(a, [("groupBy", Arr([Str("type")]))])]))];
      if count then Obj(base + [("notes", Arr([Str("Count endpoint: usually returns grouped counts, not quantities.")]))])
      else Obj(base)
    case CategoryView =>
      Obj([("args", Obj([("categories", Str("string[]")), ("viewId", Str("int?")), ("forceDetachTemplate", Str("boolean?"))])),
           ("examples", Arr([Example(a, [("categories", Arr([Str("Floors")]))])]))])
    case ViewScoped => Obj([("args", Obj([("viewId", Str("int?"))])), ("examples", Arr([Example(a, [])]))])
    case Parameters =>
      Obj([("args", Obj([("varies", Str("See action-specific hints. Use /mcp.flat for tolerant payloads."))])),
           ("examples", Arr([Example(a, [])]))])
    case Mutation =>
      Obj([("args", Obj([("varies", Str("Action-specific object payload"))])), ("examples", Arr([Example(a, [])]))])
    case Plain => Obj([("args", Obj([])), ("examples", Arr([Example(a, [])]))])
  }

  /** The earlier branches take precedence: a ".list" takeoff is a no-argument action, a category view is not a plain view. */
  lemma HintPrecedence(action: string)
    ensures var a := Trim(action);
      (a != [] && EndsWith(a, ".list") ==> HintKindOf(action) == NoArgs) &&
      (a != [] && StartsWith(a, "qto.") && !EndsWith(a, ".list") ==> HintKindOf(action).Takeoff?) &&
      (StartsWith(a, "view.category.") && !EndsWith(a, ".list") ==> HintKindOf(action) == CategoryView)
  {
    var a := Trim(action);
    if StartsWith(a, "view.category.") {
      assert a[0] == a[..14][0] == 'v';
      assert a[..4][0] == 'v';
      assert !StartsWith(a, "qto.");
      assert a != "view.active" by {
        assert |a| >= 14;
      }
    }
  }

  /** The hint of one action: the table's entry when it has one, else the inferred one. */
  function HintFor(action: string, listed: string -> Option<Json>): Json
  {
    match listed(action)
    case Some(h) => h
    case None => InferHint(action)
  }

  /** buildHintsForActions as a fold: one assignment per action, in order. */
  function HintsFold(out: Fields, actions: seq<string>, listed: string -> Option<Json>): (r: Fields)
    decreases |actions|
  {
    if actions == [] then out
    else HintsFold(Put(out, actions[0], HintFor(actions[0], listed)), actions[1..], listed)
  }

  /** buildHintsForActions: fill `out` with one hint per action. */
  method BuildHints(actions: seq<string>, listed: string -> Option<Json>) returns (out: Fields)
    ensures out == HintsFold([], actions, listed)
  {
    out := [];
    var i := 0;
    while i < |actions|
      invariant 0 <= i <= |actions|
      invariant HintsFold(out, actions[i..], listed) == HintsFold([], actions, listed)
    {
      assert actions[i..][1..] == actions[i + 1..];
      out := Put(out, actions[i], HintFor(actions[i], listed));
      i := i + 1;
    }
  }

  /** Every action gets exactly its own hint, and nothing else is hinted. */
  lemma {:induction false} HintsFoldGet(out: Fields, actions: seq<string>, listed: string -> Option<Json>, a: string)
    ensures Get(HintsFold(out, actions, listed), a) ==
      if a in actions then Some(HintFor(a, listed)) else Get(out, a)
    decreases |actions|
  {
    if actions != [] {
      var out' := Put(out, actions[0], HintFor(actions[0], listed));
      HintsFoldGet(out', actions[1..], listed, a);
      PutGet(out, actions[0], HintFor(actions[0], listed), a);
      assert actions == [actions[0]] + actions[1..];
    }
  }

  /** The hinted keys are the actions, each once, in first-occurrence order. */
  lemma {:induction false} HintsFoldUnique(out: Fields, actions: seq<string>, listed: string -> Option<Json>)
    requires UniqueKeys(out)
    ensures UniqueKeys(HintsFold(out, actions, listed))
    ensures forall k :: HasKey(HintsFold(out, actions, listed), k) <==> HasKey(out, k) || k in actions
    decreases |actions|
  {
    if actions != [] {
      var h := HintFor(actions[0], listed);
      var out' := Put(out, actions[0], h);
      PutUnique(out, actions[0], h);
      PutKeys(out, actions[0], h);
      HintsFoldUnique(out', actions[1..], listed);
      assert actions == [actions[0]] + actions[1..];
    }
  }
}
