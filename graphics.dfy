// The view graphics actions of the bridge (view.set_scale, view.set_detail_level,
// view.set_discipline, view.set_phase, views.duplicate, view.set_display_style and
// the template guard the category actions share). A view is a record of the
// settings these actions change.

module Graphics {
  import opened Text
  import opened Seqs

  datatype DetailLevel = Coarse | Medium | Fine

  datatype Discipline = Architectural | Structural | Mechanical | Coordination

  datatype GView = GView(
    id: int, templateId: Option<int>, scale: int, detail: DetailLevel, discipline: Discipline,
    displayStyle: string, phase: Option<int>)

  // ---------------------------------------------------------------------------
  // Resolving the view and the template guard
  // ---------------------------------------------------------------------------

  function FindView(views: seq<GView>, id: int): (r: Option<GView>)
    ensures r.Some? ==> r.value in views && r.value.id == id
    ensures r.None? ==> forall i :: 0 <= i < |views| ==> views[i].id != id
  {
    FirstWhere(views, (v: GView) => v.id == id)
  }

  /** No id means the active view; an id must name a view. */
  function ResolveView(views: seq<GView>, active: GView, viewId: Option<int>): (r: Result<GView>)
    ensures viewId.None? ==> r == Ok(active)
    ensures viewId.Some? && r.Ok? ==> r.value in views && r.value.id == viewId.value
    ensures viewId.Some? && r.Err? ==> forall i :: 0 <= i < |views| ==> views[i].id != viewId.value
  {
    if viewId.None? then Ok(active)
    else match FindView(views, viewId.value)
      case Some(v) => Ok(v)
      case None => Err("View " + IntText(viewId.value) + " not found.")
  }

  function IntText(n: int): string
  {
    if n < 0 then "-" + NatToString(-n) else NatToString(n)
  }

  /**
   * A view governed by a template cannot be edited: the action fails unless
   * `forceDetach`, in which case the template is removed first.
   */
  function EnsureTemplateWritable(v: GView, forceDetach: bool): Result<GView>
  {
    if v.templateId.Some? then
      if !forceDetach then Err("View has a template; set forceDetachTemplate=true to detach.")
      else Ok(v.(templateId := None))
    else Ok(v)
  }

  /** It fails exactly for a templated view without forceDetach; otherwise the view ends up template-free and nothing else changes. */
  lemma EnsureTemplateWritableSpec(v: GView, forceDetach: bool)
    ensures EnsureTemplateWritable(v, forceDetach).Err? <==> v.templateId.Some? && !forceDetach
    ensures EnsureTemplateWritable(v, forceDetach).Ok? ==>
      EnsureTemplateWritable(v, forceDetach).value == v.(templateId := None)
    ensures v.templateId.None? ==> EnsureTemplateWritable(v, forceDetach) == Ok(v)
  {
  }

  /** Guarding twice is guarding once. */
  lemma EnsureTemplateWritableTwice(v: GView, forceDetach: bool)
    requires EnsureTemplateWritable(v, forceDetach).Ok?
    ensures EnsureTemplateWritable(EnsureTemplateWritable(v, forceDetach).value, forceDetach) ==
            EnsureTemplateWritable(v, forceDetach)
  {
  }

  // ---------------------------------------------------------------------------
  // view.set_scale, view.set_detail_level, view.set_discipline
  // ---------------------------------------------------------------------------

  /** The scale written: the requested one, but never below 1. */
  function ScaleOf(requested: int): (s: int)
  {
    if requested < 1 then 1 else requested
  }

  lemma ScaleOfSpec(requested: int)
    ensures ScaleOf(requested) >= 1
    ensures requested >= 1 <==> ScaleOf(requested) == requested
    ensures ScaleOf(ScaleOf(requested)) == ScaleOf(requested)
  {
  }

  /**
   * Revit's View.Scale setter: the message of the exception it throws for a
   * view and a scale (one above Revit's limit, or a view whose scale cannot
   * change, such as a sheet, a schedule or one whose template controls the
   * scale), none when the scale is set. The rules are Revit's, so they are a
   * parameter.
   */
  type ScaleSetter = (GView, int) -> Option<string>

  /**
   * view.set_scale: the view's scale becomes the request, raised to 1 when it
   * is below; the setter's exception fails the request and its transaction
   * rolls back.
   */
  function SetScale(v: GView, requested: int, setter: ScaleSetter): (r: Result<GView>)
    ensures r.Ok? <==> setter(v, ScaleOf(requested)).None?
    ensures r.Err? ==> r.error == setter(v, ScaleOf(requested)).value
    ensures r.Ok? ==> r.value.scale >= 1
    ensures r.Ok? && requested >= 1 ==> r.value.scale == requested
    ensures r.Ok? && requested < 1 ==> r.value.scale == 1
    ensures r.Ok? ==> r.value.(scale := v.scale) == v
  {
    var refused := setter(v, ScaleOf(requested));
    if refused.Some? then Err(refused.value) else Ok(v.(scale := ScaleOf(requested)))
  }

  /** The level table, a dictionary keyed ignoring case. */
  const DetailLevels: seq<(string, DetailLevel)> := [("coarse", Coarse), ("medium", Medium), ("fine", Fine)]

  const Disciplines: seq<(string, Discipline)> := [
    ("architectural", Architectural), ("structural", Structural),
    ("mechanical", Mechanical), ("coordination", Coordination)]

  /** A well-formed dictionary: no two keys are equal ignoring case, and no two entries share a value. */
  predicate DistinctEntries<T(==)>(table: seq<(string, T)>)
  {
    (forall i, j :: 0 <= i < j < |table| ==> !EqIgnoreCase(table[i].0, table[j].0)) &&
    (forall i, j :: 0 <= i < j < |table| ==> table[i].1 != table[j].1)
  }

  /** In a well-formed dictionary the lookup yields the value of entry `j` exactly when the key matches entry `j`. */
  lemma {:induction false} LookupIff<T>(table: seq<(string, T)>, key: string, j: nat)
    requires DistinctEntries(table) && j < |table|
    ensures LookupIgnoreCase(table, key) == Some(table[j].1) <==> EqIgnoreCase(key, table[j].0)
    decreases j
  {
    var t := table;
    if j > 0 {
      assert DistinctEntries(t[1..]) by {
        assert forall i :: 0 <= i < |t| - 1 ==> t[1..][i] == t[i + 1];
      }
      assert t[1..][j - 1] == t[j];
      LookupIff(t[1..], key, j - 1);
      if EqIgnoreCase(key, t[j].0) {
        assert !EqIgnoreCase(t[0].0, t[j].0);
        assert !EqIgnoreCase(t[0].0, key);
      }
      if EqIgnoreCase(t[0].0, key) {
        assert t[0].1 != t[j].1;
      }
    }
  }

  /** No level given means "medium"; an unknown name means Medium too. */
  function DetailLevelOf(name: Option<string>): DetailLevel
  {
    match LookupIgnoreCase(DetailLevels, if name.Some? then name.value else "medium")
    case Some(l) => l
    case None => Medium
  }

  /** Each named level is chosen exactly by its name, in any case; everything else is Medium. */
  lemma DetailLevelOfSpec(name: Option<string>)
    ensures DetailLevelOf(name) == Coarse <==> name.Some? && EqIgnoreCase(name.value, "coarse")
    ensures DetailLevelOf(name) == Fine <==> name.Some? && EqIgnoreCase(name.value, "fine")
    ensures DetailLevelOf(None) == Medium
  {
    var t := DetailLevels;
    assert LowerChar(t[0].0[0]) != LowerChar(t[1].0[0]);
    assert DistinctEntries(t);
    var key := if name.Some? then name.value else "medium";
    LookupIff(t, key, 0);
    LookupIff(t, key, 2);
    LookupIff(t, "medium", 1);
  }

  /** No discipline given, or an unknown one, means Coordination. */
  function DisciplineOf(name: Option<string>): Discipline
  {
    match LookupIgnoreCase(Disciplines, if name.Some? then name.value else "coordination")
    case Some(d) => d
    case None => Coordination
  }

  /** Each named discipline is chosen exactly by its name, in any case; everything else is Coordination. */
  lemma DisciplineOfSpec(name: Option<string>)
    ensures DisciplineOf(name) == Architectural <==> name.Some? && EqIgnoreCase(name.value, "architectural")
    ensures DisciplineOf(name) == Structural <==> name.Some? && EqIgnoreCase(name.value, "structural")
    ensures DisciplineOf(name) == Mechanical <==> name.Some? && EqIgnoreCase(name.value, "mechanical")
    ensures DisciplineOf(None) == Coordination
  {
    var t := Disciplines;
    assert LowerChar(t[1].0[0]) != LowerChar(t[2].0[0]);
    assert DistinctEntries(t);
    var key := if name.Some? then name.value else "coordination";
    LookupIff(t, key, 0);
    LookupIff(t, key, 1);
    LookupIff(t, key, 2);
    LookupIff(t, "coordination", 3);
  }

  // ---------------------------------------------------------------------------
  // view.set_phase
  // ---------------------------------------------------------------------------

  datatype Phase = Phase(id: int, name: string)

  function PhaseNamed(phases: seq<Phase>, name: string): (r: Option<Phase>)
    ensures r.Some? ==> r.value in phases && EqIgnoreCase(r.value.name, name)
    ensures r.None? ==> forall i :: 0 <= i < |phases| ==> !EqIgnoreCase(phases[i].name, name)
    decreases |phases|
  {
    if phases == [] then None
    else if EqIgnoreCase(phases[0].name, name) then Some(phases[0])
    else PhaseNamed(phases[1..], name)
  }

  /** The phase to set: the first named match, or with no name the project's last phase. */
  function ChoosePhase(phases: seq<Phase>, name: Option<string>): Result<Phase>
  {
    if !IsBlankOpt(name) then
      match PhaseNamed(phases, name.value)
      case Some(p) => Ok(p)
      case None => Err("Phase '" + name.value + "' not found.")
    else if phases == [] then Err("No phases available.")
    else Ok(phases[|phases| - 1])
  }

  lemma ChoosePhaseSpec(phases: seq<Phase>, name: Option<string>)
    ensures !IsBlankOpt(name) ==>
      (ChoosePhase(phases, name).Ok? <==> exists i :: 0 <= i < |phases| && EqIgnoreCase(phases[i].name, name.value))
    ensures !IsBlankOpt(name) && ChoosePhase(phases, name).Ok? ==>
      EqIgnoreCase(ChoosePhase(phases, name).value.name, name.value)
    ensures IsBlankOpt(name) ==>
      (ChoosePhase(phases, name).Ok? <==> phases != []) &&
      (phases != [] ==> ChoosePhase(phases, name).value == phases[|phases| - 1])
    ensures ChoosePhase(phases, name).Ok? ==> ChoosePhase(phases, name).value in phases
  {
  }

  /** view.set_phase: the chosen phase goes into the view's VIEW_PHASE parameter when that is settable. */
  function SetPhase(v: GView, phases: seq<Phase>, name: Option<string>, settable: bool): (r: Result<GView>)
    ensures r.Ok? <==> ChoosePhase(phases, name).Ok? && settable
    ensures r.Ok? ==> r.value == v.(phase := Some(ChoosePhase(phases, name).value.id))
  {
    match ChoosePhase(phases, name)
    case Err(e) => Err(e)
    case Ok(p) =>
      if !settable then Err("VIEW_PHASE parameter not settable for this view.")
      else Ok(v.(phase := Some(p.id)))
  }

  // ---------------------------------------------------------------------------
  // views.duplicate
  // ---------------------------------------------------------------------------

  datatype DuplicateOption = Duplicate | WithDetailing | AsDependent

  /** The mode, lower-cased; anything but the two named modes is a plain duplicate. */
  function DuplicateOptionOf(mode: Option<string>): DuplicateOption
  {
    var m := Lower(if mode.Some? then mode.value else "duplicate");
    if m == "with_detailing" then WithDetailing
    else if m == "as_dependent" then AsDependent
    else Duplicate
  }

  lemma DuplicateOptionOfSpec(mode: Option<string>)
    ensures DuplicateOptionOf(mode) == WithDetailing <==> mode.Some? && EqIgnoreCase(mode.value, "with_detailing")
    ensures DuplicateOptionOf(mode) == AsDependent <==> mode.Some? && EqIgnoreCase(mode.value, "as_dependent")
    ensures mode.None? ==> DuplicateOptionOf(mode) == Duplicate
  {
    var m := if mode.Some? then mode.value else "duplicate";
    LowerIsKey(m, "with_detailing");
    LowerIsKey(m, "as_dependent");
    assert |Lower(m)| == |m|;
  }

  /** View.Duplicate: the id of the copy Revit makes, or the message of the exception it throws. */
  type Duplicator = (int, DuplicateOption) -> Result<int>

  predicate IsViewIn(views: seq<GView>, id: int)
  {
    FindView(views, id).Some?
  }

  function IsViewOf(views: seq<GView>): int -> bool
  {
    (id: int) => IsViewIn(views, id)
  }

  /**
   * The duplicate loop: ids that are not views are skipped, each view yields one
   * copy, in order. Nothing catches an exception of View.Duplicate, so the first
   * one ends the loop and the transaction, with its copies, is rolled back.
   */
  function Duplicates(views: seq<GView>, ids: seq<int>, opt: DuplicateOption, dup: Duplicator): Result<seq<int>>
    decreases |ids|
  {
    if ids == [] then Ok([])
    else
      var prev := Duplicates(views, ids[..|ids| - 1], opt, dup);
      var id := ids[|ids| - 1];
      if prev.Err? || !IsViewIn(views, id) then prev
      else match dup(id, opt)
        case Err(m) => Err(m)
        case Ok(copy) => Ok(prev.value + [copy])
  }

  /**
   * The loop succeeds exactly when every id that names a view duplicates; then
   * the copies are those of the views among the ids, one each and in order, so
   * there are no more than ids and none when no id names a view. A failure is
   * the exception of one of those views.
   */
  lemma {:induction false} DuplicateCount(views: seq<GView>, ids: seq<int>, opt: DuplicateOption, dup: Duplicator)
    ensures Duplicates(views, ids, opt, dup).Ok? <==>
      forall k :: 0 <= k < |ids| && IsViewIn(views, ids[k]) ==> dup(ids[k], opt).Ok?
    ensures Duplicates(views, ids, opt, dup).Ok? ==>
      var kept := Keep(ids, IsViewOf(views));
      var copies := Duplicates(views, ids, opt, dup).value;
      |copies| == |kept| <= |ids| && forall k :: 0 <= k < |kept| ==> dup(kept[k], opt) == Ok(copies[k])
    ensures Duplicates(views, ids, opt, dup).Err? ==>
      exists k :: 0 <= k < |ids| && IsViewIn(views, ids[k]) && dup(ids[k], opt) == Err(Duplicates(views, ids, opt, dup).error)
    ensures (forall k :: 0 <= k < |ids| ==> !IsViewIn(views, ids[k])) ==> Duplicates(views, ids, opt, dup) == Ok([])
    decreases |ids|
  {
    if ids != [] {
      var init := ids[..|ids| - 1];
      var id := ids[|ids| - 1];
      assert ids == init + [id];
      DuplicateCount(views, init, opt, dup);
      KeepAppend(init, id, IsViewOf(views));
      var prev := Duplicates(views, init, opt, dup);
      if prev.Err? {
        var k :| 0 <= k < |init| && IsViewIn(views, init[k]) && dup(init[k], opt) == Err(prev.error);
        assert ids[k] == init[k];
      }
      if Duplicates(views, ids, opt, dup).Ok? {
        assert forall k :: 0 <= k < |init| ==> ids[k] == init[k];
      }
    }
  }

  /** Once the loop has failed, the later ids change nothing. */
  lemma {:induction false} DuplicatesFailureSticks(views: seq<GView>, ids: seq<int>, i: nat, opt: DuplicateOption,
                                                   dup: Duplicator)
    requires i <= |ids|
    requires Duplicates(views, ids[..i], opt, dup).Err?
    ensures Duplicates(views, ids, opt, dup) == Duplicates(views, ids[..i], opt, dup)
    decreases |ids|
  {
    if i < |ids| {
      assert ids[..|ids| - 1][..i] == ids[..i];
      DuplicatesFailureSticks(views, ids[..|ids| - 1], i, opt, dup);
    } else {
      assert ids[..i] == ids;
    }
  }

  /** views.duplicate: the copies of the given views with the chosen option, or the first exception. */
  method ViewsDuplicate(views: seq<GView>, viewIds: Option<seq<int>>, mode: Option<string>, dup: Duplicator)
    returns (r: Result<seq<int>>)
    ensures r == Duplicates(views, if viewIds.Some? then viewIds.value else [], DuplicateOptionOf(mode), dup)
  {
    var opt := Lower(if mode.Some? then mode.value else "duplicate");
    var option := Duplicate;
    if opt == "with_detailing" {
      option := WithDetailing;
    } else if opt == "as_dependent" {
      option := AsDependent;
    }
    assert option == DuplicateOptionOf(mode);
    var ids := if viewIds.Some? then viewIds.value else [];
    var created: seq<int> := [];
    var i := 0;
    while i < |ids|
      invariant 0 <= i <= |ids|
      invariant Duplicates(views, ids[..i], option, dup) == Ok(created)
    {
      assert ids[..i + 1][..i] == ids[..i];
      assert ids[..i + 1][i] == ids[i];
      if IsViewIn(views, ids[i]) {
        var copy := dup(ids[i], option);
        if copy.Err? {
          DuplicatesFailureSticks(views, ids, i + 1, option, dup);
          return Err(copy.error);
        }
        created := created + [copy.value];
      }
      i := i + 1;
    }
    assert ids[..i] == ids;
    r := Ok(created);
  }

  // ---------------------------------------------------------------------------
  // view.set_display_style
  // ---------------------------------------------------------------------------

  /** The input with every space removed. */
  function NoSpaces(s: string): (r: string)
    ensures |r| <= |s|
    ensures ' ' !in r
  {
    if s == [] then [] else if s[0] == ' ' then NoSpaces(s[1..]) else [s[0]] + NoSpaces(s[1..])
  }

  /** The style text asked for; none means "HiddenLine". */
  function StyleText(raw: Option<string>): string
  {
    if raw.Some? then raw.value else "HiddenLine"
  }

  /** The lookup key: spaces removed, lower-cased. */
  function StyleKey(text: string): string
  {
    Lower(NoSpaces(text))
  }

  lemma {:induction false} NoSpacesConcat(a: string, b: string)
    ensures NoSpaces(a + b) == NoSpaces(a) + NoSpaces(b)
  {
    if a != [] {
      assert (a + b)[0] == a[0];
      assert (a + b)[1..] == a[1..] + b;
      NoSpacesConcat(a[1..], b);
      if a[0] == ' ' {
        assert NoSpaces(a + b) == NoSpaces(a[1..] + b);
        assert NoSpaces(a) == NoSpaces(a[1..]);
      } else {
        assert NoSpaces(a + b) == [a[0]] + NoSpaces(a[1..] + b);
        assert NoSpaces(a) == [a[0]] + NoSpaces(a[1..]);
        assert [a[0]] + (NoSpaces(a[1..]) + NoSpaces(b)) == ([a[0]] + NoSpaces(a[1..])) + NoSpaces(b);
      }
    } else {
      assert a + b == b;
    }
  }

  lemma {:induction false} NoSpacesLower(s: string)
    ensures NoSpaces(Lower(s)) == Lower(NoSpaces(s))
  {
    if s != [] {
      NoSpacesLower(s[1..]);
      assert Lower(s) == [LowerChar(s[0])] + Lower(s[1..]);
      if s[0] != ' ' {
        LowerConcat([s[0]], NoSpaces(s[1..]));
      }
    }
  }

  /** The key ignores spaces: "Hidden Line" and "HiddenLine" are one key. */
  lemma StyleKeyIgnoresSpaces(a: string, b: string)
    ensures StyleKey(a + " " + b) == StyleKey(a + b)
  {
    NoSpacesConcat(a, " " + b);
    NoSpacesConcat([' '], b);
    NoSpacesConcat(a, b);
    assert NoSpaces([' ']) == [];
    assert a + " " + b == a + (" " + b);
  }

  /** The key ignores case: "HIDDENLINE" and "hiddenline" are one key. */
  lemma StyleKeyIgnoresCase(a: string)
    ensures StyleKey(Lower(a)) == StyleKey(a)
  {
    NoSpacesLower(a);
    LowerIdempotent(NoSpaces(a));
  }

  lemma {:induction false} NoSpacesKeeps(s: string)
    requires ' ' !in s
    ensures NoSpaces(s) == s
  {
    if s != [] {
      assert s[0] in s;
      assert forall c :: c in s[1..] ==> c in s;
      NoSpacesKeeps(s[1..]);
    }
  }

  /** The alias table: each key names one of the five display styles. */
  const StyleAliases: seq<(string, string)> := [
    ("wireframe", "Wireframe"), ("hiddenline", "HiddenLine"), ("hidden_line", "HiddenLine"),
    ("hiddenlines", "HiddenLine"), ("shaded", "Shaded"), ("shadedwithedges", "Shaded"),
    ("consistentcolors", "ConsistentColors"), ("realistic", "Realistic"), ("realisticwithedges", "Realistic")]

  /** The fallback order when the wanted style is not in this Revit build. */
  const StylePreference: seq<string> := ["HiddenLine", "Wireframe", "Shaded", "ConsistentColors", "Realistic"]

  /** The style asked for: the alias of the key, or HiddenLine for an unknown key. */
  function WantedStyle(text: string): (w: string)
  {
    match LookupIgnoreCase(StyleAliases, StyleKey(text))
    case Some(name) => name
    case None => "HiddenLine"
  }

  /** Whatever the input, the wanted style is one of the five preferred names. */
  lemma WantedStyleIsKnown(text: string)
    ensures WantedStyle(text) in StylePreference
  {
    var t := StyleAliases;
    assert forall i :: 0 <= i < |t| ==> t[i].1 in StylePreference;
  }

  /** The default text is keyed "hiddenline". */
  lemma StyleKeyDefault(s: string)
    requires s == "HiddenLine"
    ensures StyleKey(s) == "hiddenline"
  {
    DefaultHasNoSpace(s);
    NoSpacesKeeps(s);
    DefaultLower(s, "hiddenline");
  }

  lemma DefaultHasNoSpace(s: string)
    requires s == "HiddenLine"
    ensures ' ' !in s
  {
    forall i | 0 <= i < |s| ensures s[i] != ' ' {
    }
  }

  lemma DefaultLower(s: string, k: string)
    requires s == "HiddenLine" && k == "hiddenline"
    ensures Lower(s) == k
  {
    var r := Lower(s);
    assert r[0] == 'h' && r[6] == 'l';
    assert forall i | 0 <= i < |s| && i != 0 && i != 6 :: s[i] == k[i] && 'a' <= s[i] <= 'z';
  }

  /** The alias table maps "hiddenline" to HiddenLine. */
  lemma HiddenLineAlias(key: string, t: seq<(string, string)>)
    requires key == "hiddenline" && t == StyleAliases
    ensures LookupIgnoreCase(t, key) == Some("HiddenLine")
  {
    assert EqIgnoreCase(t[1].0, key);
    assert !EqIgnoreCase(t[0].0, key);
    assert LookupIgnoreCase(t, key) == LookupIgnoreCase(t[1..], key);
  }

  /** With no style given the action wants HiddenLine. */
  lemma WantedStyleDefault(s: string)
    requires s == StyleText(None)
    ensures WantedStyle(s) == "HiddenLine"
  {
    StyleKeyDefault(s);
    HiddenLineAlias(StyleKey(s), StyleAliases);
  }

  /** The first available name equal to the target, ignoring case. */
  function FirstEqual(available: seq<string>, target: string): (r: Option<string>)
    ensures r.Some? ==> r.value in available && EqIgnoreCase(r.value, target)
    ensures r.None? ==> forall i :: 0 <= i < |available| ==> !EqIgnoreCase(available[i], target)
    decreases |available|
  {
    if available == [] then None
    else if EqIgnoreCase(available[0], target) then Some(available[0])
    else FirstEqual(available[1..], target)
  }

  /** The available name of the first preference this build has. */
  function FirstPreferred(prefs: seq<string>, available: seq<string>): (r: Option<string>)
    ensures r.Some? ==> r.value in available && exists i :: 0 <= i < |prefs| && EqIgnoreCase(r.value, prefs[i])
    ensures r.None? ==> forall i, j :: 0 <= i < |prefs| && 0 <= j < |available| ==> !EqIgnoreCase(available[j], prefs[i])
    decreases |prefs|
  {
    if prefs == [] then None
    else match FirstEqual(available, prefs[0])
      case Some(n) => Some(n)
      case None =>
        var r := FirstPreferred(prefs[1..], available);
        assert forall i :: 1 <= i < |prefs| ==> prefs[i] == prefs[1..][i - 1];
        r
  }

  /** The style finally set: the wanted one, else the first preference available, else the first name of the build. */
  function FinalStyle(available: seq<string>, wanted: string): Option<string>
  {
    match FirstEqual(available, wanted)
    case Some(n) => Some(n)
    case None =>
      match FirstPreferred(StylePreference, available)
      case Some(n) => Some(n)
      case None => if available != [] then Some(available[0]) else None
  }

  /** A non-empty build always yields one of its names; the wanted style wins whenever the build has it. */
  lemma FinalStyleSpec(available: seq<string>, wanted: string)
    ensures FinalStyle(available, wanted).Some? <==> available != []
    ensures FinalStyle(available, wanted).Some? ==> FinalStyle(available, wanted).value in available
    ensures (exists j :: 0 <= j < |available| && EqIgnoreCase(available[j], wanted)) ==>
      EqIgnoreCase(FinalStyle(available, wanted).value, wanted)
    ensures (forall j :: 0 <= j < |available| ==> !EqIgnoreCase(available[j], wanted)) &&
            (forall i, j :: 0 <= i < |StylePreference| && 0 <= j < |available| ==>
              !EqIgnoreCase(available[j], StylePreference[i])) &&
            available != [] ==>
      FinalStyle(available, wanted) == Some(available[0])
  {
    if available == [] {
      assert FirstEqual(available, wanted).None?;
    }
    var e := FirstEqual(available, wanted);
    if e.Some? {
      var j :| 0 <= j < |available| && available[j] == e.value;
      assert EqIgnoreCase(available[j], wanted);
    }
    var p := FirstPreferred(StylePreference, available);
    if p.Some? {
      var j :| 0 <= j < |available| && available[j] == p.value;
      var i :| 0 <= i < |StylePreference| && EqIgnoreCase(p.value, StylePreference[i]);
      assert EqIgnoreCase(available[j], StylePreference[i]);
    }
  }

  /** The search loop over the available names. */
  method FindName(available: seq<string>, target: string) returns (r: Option<string>)
    ensures r == FirstEqual(available, target)
  {
    var i := 0;
    while i < |available|
      invariant 0 <= i <= |available|
      invariant FirstEqual(available, target) == FirstEqual(available[i..], target)
    {
      assert available[i..][1..] == available[i + 1..];
      if EqIgnoreCase(available[i], target) {
        return Some(available[i]);
      }
      i := i + 1;
    }
    return None;
  }

  /** The fallback loop: the preferences in order, stopping at the first one available. */
  method FindPreferred(prefs: seq<string>, available: seq<string>) returns (r: Option<string>)
    ensures r == FirstPreferred(prefs, available)
  {
    r := None;
    var i := 0;
    while i < |prefs| && r.None?
      invariant 0 <= i <= |prefs|
      invariant r.None? ==> FirstPreferred(prefs, available) == FirstPreferred(prefs[i..], available)
      invariant r.Some? ==> r == FirstPreferred(prefs, available)
    {
      assert prefs[i..][1..] == prefs[i + 1..];
      r := FindName(available, prefs[i]);
      i := i + 1;
    }
    if r.None? {
      assert prefs[i..] == [];
    }
  }

  /** The three-step choice, written as the loops of the action. */
  method ChooseStyle(available: seq<string>, wanted: string) returns (finalName: Option<string>)
    ensures finalName == FinalStyle(available, wanted)
  {
    finalName := FindName(available, wanted);
    if finalName.None? {
      finalName := FindPreferred(StylePreference, available);
      if finalName.None? && |available| > 0 {
        finalName := Some(available[0]);
      }
    }
  }

  /**
   * view.set_display_style: the template guard, then the style chosen among the
   * enum names `available` of this Revit build; with none, Enum.Parse fails.
   */
  method SetDisplayStyle(v: GView, raw: Option<string>, forceDetach: bool, available: seq<string>)
    returns (r: Result<GView>)
    ensures EnsureTemplateWritable(v, forceDetach).Err? ==> r == EnsureTemplateWritable(v, forceDetach)
    ensures r.Ok? <==> EnsureTemplateWritable(v, forceDetach).Ok? && available != []
    ensures r.Ok? ==>
      FinalStyle(available, WantedStyle(StyleText(raw))).Some? &&
      r.value == v.(templateId := None, displayStyle := FinalStyle(available, WantedStyle(StyleText(raw))).value)
  {
    var w := EnsureTemplateWritable(v, forceDetach);
    if w.Err? {
      return w;
    }
    FinalStyleSpec(available, WantedStyle(StyleText(raw)));
    var name := ChooseStyle(available, WantedStyle(StyleText(raw)));
    if name.None? {
      return Err("Value cannot be null.");
    }
    r := Ok(w.value.(displayStyle := name.value));
  }
  /**
   * view.set_display_style as the action is written: the template guard runs
   * before the transaction opens, so detaching a template changes the model
   * outside any transaction, and Revit refuses that with the exception whose
   * message is `outsideTx`.
   */
  function DisplayStyleAsWritten(v: GView, raw: Option<string>, forceDetach: bool,
                                 available: seq<string>, outsideTx: string): (r: Result<GView>)
    ensures r.Ok? ==> v.templateId.None?
    ensures v.templateId.Some? && forceDetach ==> r == Err(outsideTx)
    ensures v.templateId.None? ==> (r.Ok? <==> available != [])
  {
    FinalStyleSpec(available, WantedStyle(StyleText(raw)));
    if v.templateId.Some? then
      if forceDetach then Err(outsideTx) else EnsureTemplateWritable(v, forceDetach)
    else
      match FinalStyle(available, WantedStyle(StyleText(raw)))
      case None => Err("Value cannot be null.")
      case Some(name) => Ok(v.(displayStyle := name))
  }

  /**
   * The request the forceDetachTemplate flag exists for fails as written, while
   * detaching inside the transaction (SetDisplayStyle) passes both guards and
   * sets the style on the template-free view.
   */
  lemma DetachOutsideTransactionFails(v: GView, raw: Option<string>, available: seq<string>, outsideTx: string)
    requires v.templateId.Some? && available != []
    ensures DisplayStyleAsWritten(v, raw, true, available, outsideTx) == Err(outsideTx)
    ensures EnsureTemplateWritable(v, true) == Ok(v.(templateId := None))
    ensures FinalStyle(available, WantedStyle(StyleText(raw))).Some?
  {
    EnsureTemplateWritableSpec(v, true);
    FinalStyleSpec(available, WantedStyle(StyleText(raw)));
  }

  /** Where no template is detached, the action as written and SetDisplayStyle agree. */
  lemma AsWrittenAgreesWithoutDetach(v: GView, raw: Option<string>, forceDetach: bool,
                                     available: seq<string>, outsideTx: string)
    requires v.templateId.None? || !forceDetach
    ensures EnsureTemplateWritable(v, forceDetach).Err? ==>
      DisplayStyleAsWritten(v, raw, forceDetach, available, outsideTx) == EnsureTemplateWritable(v, forceDetach)
    ensures EnsureTemplateWritable(v, forceDetach).Ok? && FinalStyle(available, WantedStyle(StyleText(raw))).Some? ==>
      DisplayStyleAsWritten(v, raw, forceDetach, available, outsideTx) ==
      Ok(v.(templateId := None, displayStyle := FinalStyle(available, WantedStyle(StyleText(raw))).value))
  {
    EnsureTemplateWritableSpec(v, forceDetach);
  }
}
