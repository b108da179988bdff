// The model-hygiene fixes of the bridge (qa.fix.*): pinning links, applying view
// templates, renaming views, unhiding categories and purging unused types,
// templates and filters. The Revit document is a sequence of view records; the
// outcome of each Revit call that can throw (Delete, setting a name) is a parameter.

module Qa {
  import opened Text
  import opened Seqs

  /**
   * A view: its element id, name, whether it is a template, the template it uses
   * (None is InvalidElementId) and its filter ids (None when GetFilters throws).
   */
  datatype View = View(id: int, name: string, isTemplate: bool, templateId: Option<int>, filters: Option<seq<int>>)

  /** ElementId.InvalidElementId. */
  const InvalidId: int := -1

  // ---------------------------------------------------------------------------
  // qa.fix.pin_all_links
  // ---------------------------------------------------------------------------

  /** How many of the links are not pinned. */
  function Unpinned(links: seq<bool>): nat
    decreases |links|
  {
    if links == [] then 0 else Unpinned(links[..|links| - 1]) + (if links[|links| - 1] then 0 else 1)
  }

  lemma {:induction false} UnpinnedZeroIff(links: seq<bool>)
    ensures Unpinned(links) == 0 <==> forall i :: 0 <= i < |links| ==> links[i]
    ensures Unpinned(links) <= |links|
    decreases |links|
  {
    if links != [] {
      var init := links[..|links| - 1];
      UnpinnedZeroIff(init);
      assert forall i :: 0 <= i < |init| ==> init[i] == links[i];
    }
  }

  /** Every link ends pinned; `pinned` counts the links that were not. */
  method FixPinAllLinks(links: seq<bool>) returns (after: seq<bool>, pinned: nat)
    ensures |after| == |links| && forall i :: 0 <= i < |after| ==> after[i]
    ensures pinned == Unpinned(links)
  {
    after := [];
    pinned := 0;
    var i := 0;
    while i < |links|
      invariant 0 <= i <= |links|
      invariant |after| == i && forall k :: 0 <= k < i ==> after[k]
      invariant pinned == Unpinned(links[..i])
    {
      assert links[..i + 1][..i] == links[..i];
      if !links[i] {
        pinned := pinned + 1;
      }
      after := after + [true];
      i := i + 1;
    }
    assert links[..i] == links;
  }

  /** Pinning again pins nothing. */
  lemma PinTwice(links: seq<bool>)
    ensures forall after :: |after| == |links| && (forall i :: 0 <= i < |after| ==> after[i]) ==> Unpinned(after) == 0
  {
    forall after | |after| == |links| && (forall i :: 0 <= i < |after| ==> after[i]) ensures Unpinned(after) == 0 {
      UnpinnedZeroIff(after);
    }
  }

  // ---------------------------------------------------------------------------
  // Views of the document
  // ---------------------------------------------------------------------------

  /** doc.GetElement(id) as View: the position of the view with that id. */
  function FindView(doc: seq<View>, id: int): (r: Option<nat>)
    ensures r.Some? ==> r.value < |doc| && doc[r.value].id == id
    ensures r.None? ==> forall i :: 0 <= i < |doc| ==> doc[i].id != id
    decreases |doc|
  {
    if doc == [] then None
    else if doc[|doc| - 1].id == id && FindView(doc[..|doc| - 1], id).None? then Some(|doc| - 1)
    else
      var r := FindView(doc[..|doc| - 1], id);
      assert forall i :: 0 <= i < |doc| - 1 ==> doc[..|doc| - 1][i] == doc[i];
      r
  }

  predicate ValidIndices(doc: seq<View>, ts: seq<nat>)
  {
    forall k :: 0 <= k < |ts| ==> ts[k] < |doc|
  }

  /** The views named by `viewIds` that exist and are not templates, in the order given. */
  function ViewIdTargets(doc: seq<View>, ids: seq<int>): (r: seq<nat>)
    ensures ValidIndices(doc, r)
    ensures forall k :: 0 <= k < |r| ==> !doc[r[k]].isTemplate
    decreases |ids|
  {
    if ids == [] then []
    else
      var rest := ViewIdTargets(doc, ids[1..]);
      match FindView(doc, ids[0])
      case Some(i) => if !doc[i].isTemplate then [i] + rest else rest
      case None => rest
  }

  /** Every view of the document that is not a template, in collector order. */
  function NonTemplates(doc: seq<View>, from: nat): (r: seq<nat>)
    requires from <= |doc|
    ensures ValidIndices(doc, r)
    ensures forall k :: 0 <= k < |r| ==> from <= r[k] && !doc[r[k]].isTemplate
    ensures forall i :: from <= i < |doc| && !doc[i].isTemplate ==> i in r
    decreases |doc| - from
  {
    if from == |doc| then []
    else if doc[from].isTemplate then NonTemplates(doc, from + 1)
    else [from] + NonTemplates(doc, from + 1)
  }

  /** The target views: the given ids when there are any, else every non-template view. */
  function Targets(doc: seq<View>, viewIds: Option<seq<int>>): (r: seq<nat>)
    ensures ValidIndices(doc, r)
    ensures forall k :: 0 <= k < |r| ==> !doc[r[k]].isTemplate
    ensures (viewIds.None? || viewIds.value == []) ==> forall i :: 0 <= i < |doc| && !doc[i].isTemplate ==> i in r
  {
    if viewIds.Some? && |viewIds.value| > 0 then ViewIdTargets(doc, viewIds.value) else NonTemplates(doc, 0)
  }

  // ---------------------------------------------------------------------------
  // Ordering by name (LINQ OrderBy, stable)
  // ---------------------------------------------------------------------------

  predicate ByName(vs: seq<View>)
  {
    forall i, j :: 0 <= i < j < |vs| ==> LessEq(vs[i].name, vs[j].name)
  }

  function InsertByName(v: View, vs: seq<View>): (r: seq<View>)
    ensures multiset(r) == multiset(vs) + multiset{v}
    decreases |vs|
  {
    if vs == [] || LessEq(v.name, vs[0].name) then [v] + vs
    else
      assert vs == [vs[0]] + vs[1..];
      [vs[0]] + InsertByName(v, vs[1..])
  }

  lemma {:induction false} InsertByNameSorted(v: View, vs: seq<View>)
    requires ByName(vs)
    ensures ByName(InsertByName(v, vs))
    decreases |vs|
  {
    if vs != [] {
      if LessEq(v.name, vs[0].name) {
        forall j | 0 <= j < |vs| ensures LessEq(v.name, vs[j].name) {
          if j > 0 {
            LessEqTrans(v.name, vs[0].name, vs[j].name);
          }
        }
        ByNameCons(v, vs);
      } else {
        var tail := vs[1..];
        assert ByName(tail) by {
          forall i, j | 0 <= i < j < |tail| ensures LessEq(tail[i].name, tail[j].name) {
            assert tail[i] == vs[i + 1] && tail[j] == vs[j + 1];
          }
        }
        InsertByNameSorted(v, tail);
        LessEqTotal(v.name, vs[0].name);
        var rest := InsertByName(v, tail);
        forall k | 0 <= k < |rest| ensures LessEq(vs[0].name, rest[k].name) {
          assert rest[k] in multiset(rest);
          if rest[k] != v {
            assert rest[k] in multiset(tail);
            var m :| 0 <= m < |tail| && tail[m] == rest[k];
            assert tail[m] == vs[m + 1];
          }
        }
        ByNameCons(vs[0], rest);
      }
    }
  }

  /** A name-ordered sequence stays ordered behind a view whose name sorts no later than any of its names. */
  lemma ByNameCons(x: View, r: seq<View>)
    requires ByName(r) && forall k :: 0 <= k < |r| ==> LessEq(x.name, r[k].name)
    ensures ByName([x] + r)
  {
    forall i, j | 0 <= i < j < |[x] + r| ensures LessEq(([x] + r)[i].name, ([x] + r)[j].name) {
      if i > 0 {
        assert ([x] + r)[i] == r[i - 1];
      }
      assert ([x] + r)[j] == r[j - 1];
    }
  }

  function SortByName(vs: seq<View>): (r: seq<View>)
    ensures ByName(r) && multiset(r) == multiset(vs)
    decreases |vs|
  {
    if vs == [] then []
    else
      assert vs == [vs[0]] + vs[1..];
      InsertByNameSorted(vs[0], SortByName(vs[1..]));
      InsertByName(vs[0], SortByName(vs[1..]))
  }

  function IsTemplateView(v: View): bool { v.isTemplate }

  /** All view templates of the document, ordered by name. */
  function AllTemplates(doc: seq<View>): (r: seq<View>)
    ensures ByName(r)
    ensures forall v :: v in r <==> v in doc && v.isTemplate
  {
    var ts := Keep(doc, IsTemplateView);
    forall v ensures v in ts <==> v in doc && v.isTemplate {
      KeepMembers(doc, IsTemplateView, v);
    }
    var r := SortByName(ts);
    assert forall v :: v in r <==> v in multiset(r);
    assert forall v :: v in ts <==> v in multiset(ts);
    r
  }

  // ---------------------------------------------------------------------------
  // qa.fix.apply_view_templates
  // ---------------------------------------------------------------------------

  datatype ApplyRequest = ApplyRequest(
    templateName: Option<string>, templateId: Option<int>, onlyWithoutTemplate: bool,
    viewIds: Option<seq<int>>, autoPickFirst: Option<bool>)

  /** Which template to apply: one (perhaps picked automatically), or none yet because the caller must choose. */
  datatype Choice = Use(template: View, autoPicked: bool) | NeedTemplate

  function FirstNamedIgnoreCase(vs: seq<View>, name: string): (r: Option<View>)
    ensures r.Some? ==> r.value in vs && EqIgnoreCase(r.value.name, name)
    ensures r.None? ==> forall i :: 0 <= i < |vs| ==> !EqIgnoreCase(vs[i].name, name)
    decreases |vs|
  {
    if vs == [] then None
    else if EqIgnoreCase(vs[0].name, name) then Some(vs[0])
    else FirstNamedIgnoreCase(vs[1..], name)
  }

  /** The template resolution: an id, else a name, else the only or first template, else ask. */
  function ChooseTemplate(doc: seq<View>, req: ApplyRequest): Result<Choice>
  {
    var all := AllTemplates(doc);
    if all == [] then Err("No view templates available in this model.")
    else if req.templateId.Some? && req.templateId.value > 0 then
      var tid := req.templateId.value;
      match FindView(doc, tid)
      case Some(i) =>
        if doc[i].isTemplate then Ok(Use(doc[i], false))
        else Err("Template id " + NatToString(tid) + " not found or not a template.")
      case None => Err("Template id " + NatToString(tid) + " not found or not a template.")
    else if !IsBlankOpt(req.templateName) then
      match FirstNamedIgnoreCase(all, req.templateName.value)
      case Some(t) => Ok(Use(t, false))
      case None => Err("Template '" + req.templateName.value + "' not found.")
    else if |all| == 1 || req.autoPickFirst == Some(true) then Ok(Use(all[0], true))
    else Ok(NeedTemplate)
  }

  /** The choice is always a template of the document, and each rule applies exactly in its case. */
  lemma ChooseTemplateCases(doc: seq<View>, req: ApplyRequest)
    ensures (forall v :: v in doc ==> !v.isTemplate) ==> ChooseTemplate(doc, req).Err?
    ensures ChooseTemplate(doc, req).Ok? && ChooseTemplate(doc, req).value.Use? ==>
      var t := ChooseTemplate(doc, req).value.template;
      t in doc && t.isTemplate
    ensures req.templateId.Some? && req.templateId.value > 0 && ChooseTemplate(doc, req).Ok? ==>
      ChooseTemplate(doc, req) == Ok(Use(doc[FindView(doc, req.templateId.value).value], false))
    ensures ChooseTemplate(doc, req) == Ok(NeedTemplate) ==>
      IsBlankOpt(req.templateName) && req.autoPickFirst != Some(true) && |AllTemplates(doc)| > 1
  {
    var all := AllTemplates(doc);
    if all != [] {
      assert all[0] in all;
    }
  }

  /** With no id and no name, the automatic pick is the template that comes first by name. */
  lemma AutoPickIsFirstByName(doc: seq<View>, req: ApplyRequest)
    requires ChooseTemplate(doc, req).Ok? && ChooseTemplate(doc, req).value.Use?
    requires ChooseTemplate(doc, req).value.autoPicked
    ensures forall v :: v in doc && v.isTemplate ==> LessEq(ChooseTemplate(doc, req).value.template.name, v.name)
  {
    var all := AllTemplates(doc);
    forall v | v in doc && v.isTemplate ensures LessEq(all[0].name, v.name) {
      assert v in all;
      var k :| 0 <= k < |all| && all[k] == v;
      if k == 0 {
        LessEqRefl(v.name);
      }
    }
  }

  lemma {:induction false} LessEqRefl(a: string)
    ensures LessEq(a, a)
  {
    if a != [] {
      LessEqRefl(a[1..]);
    }
  }

  /**
   * The apply loop over the views at positions `ts`: a view is skipped when only
   * views without a template are wanted and it has one; otherwise the template is
   * assigned and counts as applied. `refuses(v, tpl)` is the message of the
   * exception Revit's ViewTemplateId setter throws when the template does not fit
   * the view (a sheet or a schedule, say); nothing catches it, so the first
   * refusal ends the loop and the transaction is never committed.
   */
  function ApplyAll(doc: seq<View>, ts: seq<nat>, tpl: int, only: bool,
                    refuses: (View, int) -> Option<string>): (r: Result<(seq<View>, nat)>)
    requires ValidIndices(doc, ts)
    ensures r.Ok? ==> |r.value.0| == |doc|
    decreases |ts|
  {
    if ts == [] then Ok((doc, 0))
    else
      var prev := ApplyAll(doc, ts[..|ts| - 1], tpl, only, refuses);
      var j := ts[|ts| - 1];
      if prev.Err? then prev
      else if only && prev.value.0[j].templateId.Some? then prev
      else if refuses(doc[j], tpl).Some? then Err(refuses(doc[j], tpl).value)
      else Ok((prev.value.0[j := prev.value.0[j].(templateId := Some(tpl))], prev.value.1 + 1))
  }

  /** How many positions of `ts` name a view without a template that no earlier position names. */
  function Fresh(doc: seq<View>, ts: seq<nat>): nat
    requires ValidIndices(doc, ts)
    decreases |ts|
  {
    if ts == [] then 0
    else
      var j := ts[|ts| - 1];
      Fresh(doc, ts[..|ts| - 1]) + (if doc[j].templateId.None? && j !in ts[..|ts| - 1] then 1 else 0)
  }

  /** Every target the loop assigns accepts the template: all targets, or with onlyWithoutTemplate those without one. */
  predicate AllAccept(doc: seq<View>, ts: seq<nat>, tpl: int, only: bool, refuses: (View, int) -> Option<string>)
    requires ValidIndices(doc, ts)
  {
    forall j :: j in ts && !(only && doc[j].templateId.Some?) ==> refuses(doc[j], tpl).None?
  }

  /**
   * When the loop completes, views that are not targets are unchanged; each
   * target has the template, except that with onlyWithoutTemplate a view that had
   * one keeps it. `applied` counts every target, or with onlyWithoutTemplate each
   * view that had no template once.
   */
  lemma {:induction false} ApplyAllEffect(doc: seq<View>, ts: seq<nat>, tpl: int, only: bool,
                                          refuses: (View, int) -> Option<string>)
    requires ValidIndices(doc, ts)
    requires ApplyAll(doc, ts, tpl, only, refuses).Ok?
    ensures forall j :: 0 <= j < |doc| && j !in ts ==> ApplyAll(doc, ts, tpl, only, refuses).value.0[j] == doc[j]
    ensures forall j :: j in ts ==>
      ApplyAll(doc, ts, tpl, only, refuses).value.0[j] ==
        if only && doc[j].templateId.Some? then doc[j] else doc[j].(templateId := Some(tpl))
    ensures ApplyAll(doc, ts, tpl, only, refuses).value.1 == if only then Fresh(doc, ts) else |ts|
    decreases |ts|
  {
    if ts != [] {
      var init := ts[..|ts| - 1];
      ApplyAllEffect(doc, init, tpl, only, refuses);
      var j := ts[|ts| - 1];
      assert ts == init + [j];
      forall i | i in ts ensures i in init || i == j {
        var k :| 0 <= k < |ts| && ts[k] == i;
        if k < |init| {
          assert init[k] == i;
        }
      }
    }
  }

  /**
   * The loop completes exactly when every target it assigns accepts the
   * template; otherwise it fails with the message of a refusing target's
   * exception.
   */
  lemma {:induction false} ApplyAllAccepts(doc: seq<View>, ts: seq<nat>, tpl: int, only: bool,
                                           refuses: (View, int) -> Option<string>)
    requires ValidIndices(doc, ts)
    ensures ApplyAll(doc, ts, tpl, only, refuses).Ok? <==> AllAccept(doc, ts, tpl, only, refuses)
    ensures ApplyAll(doc, ts, tpl, only, refuses).Err? ==>
      exists j :: j in ts && refuses(doc[j], tpl) == Some(ApplyAll(doc, ts, tpl, only, refuses).error)
    decreases |ts|
  {
    if ts != [] {
      var init := ts[..|ts| - 1];
      var j := ts[|ts| - 1];
      assert ts == init + [j];
      ApplyAllAccepts(doc, init, tpl, only, refuses);
      var prev := ApplyAll(doc, init, tpl, only, refuses);
      forall i | i in ts ensures i in init || i == j {
        var k :| 0 <= k < |ts| && ts[k] == i;
        if k < |init| {
          assert init[k] == i;
        }
      }
      if prev.Ok? {
        ApplyAllEffect(doc, init, tpl, only, refuses);
        assert prev.value.0[j].templateId.Some? <==> doc[j].templateId.Some? || j in init;
      } else {
        var i :| i in init && !(only && doc[i].templateId.Some?) && refuses(doc[i], tpl).Some?;
        assert i in ts;
      }
    }
  }

  /** Once the loop has failed, the later targets change nothing: the failure is the whole outcome. */
  lemma {:induction false} ApplyAllFailureSticks(doc: seq<View>, ts: seq<nat>, i: nat, tpl: int, only: bool,
                                                 refuses: (View, int) -> Option<string>)
    requires ValidIndices(doc, ts) && i <= |ts|
    requires ApplyAll(doc, ts[..i], tpl, only, refuses).Err?
    ensures ApplyAll(doc, ts, tpl, only, refuses) == ApplyAll(doc, ts[..i], tpl, only, refuses)
    decreases |ts|
  {
    if i < |ts| {
      assert ts[..|ts| - 1][..i] == ts[..i];
      ApplyAllFailureSticks(doc, ts[..|ts| - 1], i, tpl, only, refuses);
    } else {
      assert ts[..i] == ts;
    }
  }

  /** With onlyWithoutTemplate, at most one application per target. */
  lemma {:induction false} FreshBound(doc: seq<View>, ts: seq<nat>)
    requires ValidIndices(doc, ts)
    ensures Fresh(doc, ts) <= |ts|
    decreases |ts|
  {
    if ts != [] {
      FreshBound(doc, ts[..|ts| - 1]);
    }
  }

  /** The apply loop over the target views, stopping at the first exception. */
  method ApplyToTargets(doc: seq<View>, ts: seq<nat>, tpl: int, only: bool, refuses: (View, int) -> Option<string>)
    returns (r: Result<(seq<View>, nat)>)
    requires ValidIndices(doc, ts)
    ensures r == ApplyAll(doc, ts, tpl, only, refuses)
  {
    var doc' := doc;
    var applied := 0;
    var i := 0;
    while i < |ts|
      invariant 0 <= i <= |ts|
      invariant ApplyAll(doc, ts[..i], tpl, only, refuses) == Ok((doc', applied))
    {
      assert ts[..i + 1][..i] == ts[..i];
      var j := ts[i];
      var hasTemplate := doc'[j].templateId.Some?;
      if !(only && hasTemplate) {
        var thrown := refuses(doc[j], tpl);
        if thrown.Some? {
          ApplyAllFailureSticks(doc, ts, i + 1, tpl, only, refuses);
          return Err(thrown.value);
        }
        doc' := doc'[j := doc'[j].(templateId := Some(tpl))];
        applied := applied + 1;
      }
      i := i + 1;
    }
    assert ts[..i] == ts;
    r := Ok((doc', applied));
  }

  function IdName(v: View): (int, string) { (v.id, v.name) }

  datatype ApplyOutcome =
    | AskForTemplate(available: seq<(int, string)>)
    | Applied(applied: nat, total: nat, template: string, templateId: int, autoPicked: bool, sample: seq<(int, string)>)

  /**
   * qa.fix.apply_view_templates: resolve the template, then apply it to the
   * targets. An error, a request to choose, or a target that refuses the
   * template leaves the document unchanged.
   */
  method FixApplyViewTemplates(doc: seq<View>, req: ApplyRequest, refuses: (View, int) -> Option<string>)
    returns (r: Result<ApplyOutcome>, doc': seq<View>)
    ensures ChooseTemplate(doc, req).Err? ==> r == Err(ChooseTemplate(doc, req).error) && doc' == doc
    ensures ChooseTemplate(doc, req) == Ok(NeedTemplate) ==>
      r == Ok(AskForTemplate(MapAll(AllTemplates(doc), IdName))) && doc' == doc
    ensures ChooseTemplate(doc, req).Ok? && ChooseTemplate(doc, req).value.Use? ==>
      var t := ChooseTemplate(doc, req).value.template;
      var ts := Targets(doc, req.viewIds);
      var all := AllTemplates(doc);
      var a := ApplyAll(doc, ts, t.id, req.onlyWithoutTemplate, refuses);
      && (a.Err? ==> r == Err(a.error) && doc' == doc)
      && (a.Ok? ==> doc' == a.value.0 &&
                    r == Ok(Applied(a.value.1, |ts|, t.name, t.id, ChooseTemplate(doc, req).value.autoPicked,
                                    MapAll(if |all| <= 20 then all else all[..20], IdName))))
  {
    var choice := ChooseTemplate(doc, req);
    if choice.Err? {
      return Err(choice.error), doc;
    }
    var all := AllTemplates(doc);
    if choice.value.NeedTemplate? {
      return Ok(AskForTemplate(MapAll(all, IdName))), doc;
    }
    var t := choice.value.template;
    var ts := Targets(doc, req.viewIds);
    var a := ApplyToTargets(doc, ts, t.id, req.onlyWithoutTemplate, refuses);
    if a.Err? {
      return Err(a.error), doc;
    }
    doc' := a.value.0;
    var sample := MapAll(if |all| <= 20 then all else all[..20], IdName);
    r := Ok(Applied(a.value.1, |ts|, t.name, t.id, choice.value.autoPicked, sample));
  }

  // ---------------------------------------------------------------------------
  // qa.fix.rename_views
  // ---------------------------------------------------------------------------

  /** A view's new name: find replaced (when non-empty), then the prefix added unless already there. */
  function NewName(name: string, prefix: Option<string>, find: Option<string>, replace: Option<string>): string
  {
    var replaced := if find.Some? && find.value != [] then ReplaceAll(name, find.value, OrEmpty(replace)) else name;
    if prefix.Some? && prefix.value != [] && !StartsWith(replaced, prefix.value) then prefix.value + replaced
    else replaced
  }

  function OrEmpty(s: Option<string>): string
  {
    if s.Some? then s.value else ""
  }

  /** The new name always starts with a non-empty prefix. */
  lemma NewNameHasPrefix(name: string, prefix: string, find: Option<string>, replace: Option<string>)
    requires prefix != []
    ensures StartsWith(NewName(name, Some(prefix), find, replace), prefix)
  {
    var n := NewName(name, Some(prefix), find, replace);
    assert n[..|prefix|] == prefix;
  }

  /** A prefix-only rename is idempotent. */
  lemma PrefixRenameIdempotent(name: string, prefix: Option<string>, replace: Option<string>)
    ensures NewName(NewName(name, prefix, None, replace), prefix, None, replace) == NewName(name, prefix, None, replace)
  {
    if prefix.Some? && prefix.value != [] {
      NewNameHasPrefix(name, prefix.value, None, replace);
    }
  }

  /** Replacing a string by itself changes nothing. */
  lemma {:induction false} ReplaceBySelf(s: string, find: string)
    requires find != []
    ensures ReplaceAll(s, find, find) == s
    decreases |s|
  {
    if |s| >= |find| {
      if s[..|find|] == find {
        ReplaceBySelf(s[|find|..], find);
        assert s == s[..|find|] + s[|find|..];
      } else {
        ReplaceBySelf(s[1..], find);
        assert s == [s[0]] + s[1..];
      }
    }
  }

  /**
   * Whether Revit accepts a new name for the view at a position of the current
   * document (setting the name throws on a clash, and the view is then left alone).
   */
  type Accepts = (seq<View>, nat, string) -> bool

  /** The effect of the rename loop; the count is of names that changed and were accepted. */
  function RenameAll(doc: seq<View>, ts: seq<nat>, prefix: Option<string>, find: Option<string>,
                     replace: Option<string>, accepts: Accepts): (r: (seq<View>, nat))
    requires ValidIndices(doc, ts)
    ensures |r.0| == |doc|
    decreases |ts|
  {
    if ts == [] then (doc, 0)
    else
      var prev := RenameAll(doc, ts[..|ts| - 1], prefix, find, replace, accepts);
      var j := ts[|ts| - 1];
      var name := NewName(prev.0[j].name, prefix, find, replace);
      if name != prev.0[j].name && accepts(prev.0, j, name) then (prev.0[j := prev.0[j].(name := name)], prev.1 + 1)
      else prev
  }

  /** Only names change, only targets change, and at most one rename is counted per target position. */
  lemma {:induction false} RenameAllEffect(doc: seq<View>, ts: seq<nat>, prefix: Option<string>, find: Option<string>,
                                           replace: Option<string>, accepts: Accepts)
    requires ValidIndices(doc, ts)
    ensures RenameAll(doc, ts, prefix, find, replace, accepts).1 <= |ts|
    ensures forall j :: 0 <= j < |doc| && j !in ts ==> RenameAll(doc, ts, prefix, find, replace, accepts).0[j] == doc[j]
    ensures forall j :: 0 <= j < |doc| ==>
      RenameAll(doc, ts, prefix, find, replace, accepts).0[j] == doc[j].(name := RenameAll(doc, ts, prefix, find, replace, accepts).0[j].name)
    decreases |ts|
  {
    if ts != [] {
      var init := ts[..|ts| - 1];
      RenameAllEffect(doc, init, prefix, find, replace, accepts);
      assert ts == init + [ts[|ts| - 1]];
    }
  }

  /** When no target's name would change, renaming changes nothing and counts nothing. */
  lemma {:induction false} RenameNothing(doc: seq<View>, ts: seq<nat>, prefix: Option<string>, find: Option<string>,
                                         replace: Option<string>, accepts: Accepts)
    requires ValidIndices(doc, ts)
    requires forall k :: 0 <= k < |ts| ==> NewName(doc[ts[k]].name, prefix, find, replace) == doc[ts[k]].name
    ensures RenameAll(doc, ts, prefix, find, replace, accepts) == (doc, 0)
    decreases |ts|
  {
    if ts != [] {
      RenameNothing(doc, ts[..|ts| - 1], prefix, find, replace, accepts);
    }
  }

  /** A prefix-only rename that Revit accepts leaves every target starting with the prefix. */
  lemma {:induction false} PrefixRenameSettles(doc: seq<View>, ts: seq<nat>, prefix: string,
                                               replace: Option<string>, accepts: Accepts)
    requires ValidIndices(doc, ts) && prefix != []
    requires forall d, j, n :: accepts(d, j, n)
    ensures forall k :: 0 <= k < |ts| ==> StartsWith(RenameAll(doc, ts, Some(prefix), None, replace, accepts).0[ts[k]].name, prefix)
    decreases |ts|
  {
    if ts != [] {
      var init := ts[..|ts| - 1];
      PrefixRenameSettles(doc, init, prefix, replace, accepts);
      var prev := RenameAll(doc, init, Some(prefix), None, replace, accepts);
      var j := ts[|ts| - 1];
      NewNameHasPrefix(prev.0[j].name, prefix, None, replace);
      forall k | 0 <= k < |ts| ensures StartsWith(RenameAll(doc, ts, Some(prefix), None, replace, accepts).0[ts[k]].name, prefix) {
        if k < |init| {
          assert ts[k] == init[k];
        }
      }
    }
  }

  /** Running an accepted prefix-only rename a second time renames nothing. */
  lemma PrefixRenameTwice(doc: seq<View>, ts: seq<nat>, prefix: string, replace: Option<string>, accepts: Accepts)
    requires ValidIndices(doc, ts) && prefix != []
    requires forall d, j, n :: accepts(d, j, n)
    ensures var once := RenameAll(doc, ts, Some(prefix), None, replace, accepts).0;
      RenameAll(once, ts, Some(prefix), None, replace, accepts) == (once, 0)
  {
    var once := RenameAll(doc, ts, Some(prefix), None, replace, accepts).0;
    PrefixRenameSettles(doc, ts, prefix, replace, accepts);
    forall k | 0 <= k < |ts| ensures NewName(once[ts[k]].name, Some(prefix), None, replace) == once[ts[k]].name {
    }
    RenameNothing(once, ts, Some(prefix), None, replace, accepts);
  }

  /** One turn of the rename loop: the effect of target i on the document left by the ones before it. */
  lemma RenameStep(doc: seq<View>, ts: seq<nat>, i: nat, prefix: Option<string>, find: Option<string>,
                   replace: Option<string>, accepts: Accepts)
    requires ValidIndices(doc, ts) && i < |ts|
    ensures ValidIndices(doc, ts[..i]) && ValidIndices(doc, ts[..i + 1])
    ensures var prev := RenameAll(doc, ts[..i], prefix, find, replace, accepts);
      var j := ts[i];
      var name := NewName(prev.0[j].name, prefix, find, replace);
      RenameAll(doc, ts[..i + 1], prefix, find, replace, accepts) ==
        if name != prev.0[j].name && accepts(prev.0, j, name) then (prev.0[j := prev.0[j].(name := name)], prev.1 + 1)
        else prev
  {
    assert ts[..i + 1][..i] == ts[..i];
  }

  method RenameTargets(doc: seq<View>, ts: seq<nat>, prefix: Option<string>, find: Option<string>,
                       replace: Option<string>, accepts: Accepts) returns (doc': seq<View>, renamed: nat)
    requires ValidIndices(doc, ts)
    ensures (doc', renamed) == RenameAll(doc, ts, prefix, find, replace, accepts)
  {
    doc' := doc;
    renamed := 0;
    var i := 0;
    while i < |ts|
      invariant 0 <= i <= |ts|
      invariant doc' == RenameAll(doc, ts[..i], prefix, find, replace, accepts).0
      invariant renamed == RenameAll(doc, ts[..i], prefix, find, replace, accepts).1
    {
      RenameStep(doc, ts, i, prefix, find, replace, accepts);
      var j := ts[i];
      var name := NewName(doc'[j].name, prefix, find, replace);
      if name != doc'[j].name && accepts(doc', j, name) {
        doc' := doc'[j := doc'[j].(name := name)];
        renamed := renamed + 1;
      }
      i := i + 1;
    }
    assert ts[..i] == ts;
  }

  /** qa.fix.rename_views: `renamed` and the renamed document, and `total` the number of targets. */
  method FixRenameViews(doc: seq<View>, viewIds: Option<seq<int>>, prefix: Option<string>, find: Option<string>,
                        replace: Option<string>, accepts: Accepts) returns (doc': seq<View>, renamed: nat, total: nat)
    ensures (doc', renamed) == RenameAll(doc, Targets(doc, viewIds), prefix, find, replace, accepts)
    ensures total == |Targets(doc, viewIds)|
  {
    var ts := Targets(doc, viewIds);
    doc', renamed := RenameTargets(doc, ts, prefix, find, replace, accepts);
    total := |ts|;
  }

  // ---------------------------------------------------------------------------
  // qa.fix.remove_text_notes / qa.fix.unhide_all_in_view: the target view
  // ---------------------------------------------------------------------------

  /** The view a per-view fix works on: the given id (which must be a view), else the active view. */
  function TargetView(doc: seq<View>, viewId: Option<int>, active: Option<nat>): (r: Result<nat>)
    ensures r.Ok? ==> r.value < |doc| || (viewId.None? && active == Some(r.value))
    ensures viewId.Some? ==> (r.Ok? <==> FindView(doc, viewId.value).Some?)
    ensures viewId.None? ==> (r.Ok? <==> active.Some?)
    ensures r.Err? ==> r.error == "Target view not found."
  {
    if viewId.Some? then
      match FindView(doc, viewId.value)
      case Some(i) => Ok(i)
      case None => Err("Target view not found.")
    else if active.Some? then Ok(active.value)
    else Err("Target view not found.")
  }

  /** A category as the view sees it: whether it can be hidden there, and whether it is. */
  datatype CategoryState = CategoryState(canBeHidden: bool, hidden: bool)

  function HiddenCount(cs: seq<CategoryState>): nat
    decreases |cs|
  {
    if cs == [] then 0
    else HiddenCount(cs[..|cs| - 1]) + (if cs[|cs| - 1].canBeHidden && cs[|cs| - 1].hidden then 1 else 0)
  }

  /** Unhiding the categories: each hidden one that can be hidden is shown and counted; the rest are untouched. */
  method UnhideCategories(cs: seq<CategoryState>) returns (after: seq<CategoryState>, unhidden: nat)
    ensures |after| == |cs|
    ensures forall i :: 0 <= i < |cs| ==>
      after[i] == if cs[i].canBeHidden && cs[i].hidden then cs[i].(hidden := false) else cs[i]
    ensures unhidden == HiddenCount(cs)
  {
    after := [];
    unhidden := 0;
    var i := 0;
    while i < |cs|
      invariant 0 <= i <= |cs|
      invariant |after| == i
      invariant forall k :: 0 <= k < i ==>
        after[k] == if cs[k].canBeHidden && cs[k].hidden then cs[k].(hidden := false) else cs[k]
      invariant unhidden == HiddenCount(cs[..i])
    {
      assert cs[..i + 1][..i] == cs[..i];
      var c := cs[i];
      if c.canBeHidden && c.hidden {
        c := c.(hidden := false);
        unhidden := unhidden + 1;
      }
      after := after + [c];
      i := i + 1;
    }
    assert cs[..i] == cs;
  }

  /** After unhiding, no category that can be hidden is hidden, so a second pass unhides nothing. */
  lemma {:induction false} UnhideSettles(after: seq<CategoryState>)
    requires forall i :: 0 <= i < |after| ==> !(after[i].canBeHidden && after[i].hidden)
    ensures HiddenCount(after) == 0
    decreases |after|
  {
    if after != [] {
      var init := after[..|after| - 1];
      assert forall i :: 0 <= i < |init| ==> init[i] == after[i];
      UnhideSettles(init);
    }
  }

  // ---------------------------------------------------------------------------
  // Purges: best-effort deletion of a list of ids
  // ---------------------------------------------------------------------------

  /**
   * The deletion loop: each id is deleted or, when Delete throws, counted as failed.
   * `deletes` says which deletions succeed.
   */
  method DeleteEach(ids: seq<int>, deletes: int -> bool) returns (deleted: nat, failed: nat, removed: seq<int>)
    ensures removed == Keep(ids, deletes)
    ensures deleted == |removed| && deleted + failed == |ids|
  {
    deleted, failed, removed := 0, 0, [];
    var i := 0;
    while i < |ids|
      invariant 0 <= i <= |ids|
      invariant removed == Keep(ids[..i], deletes)
      invariant deleted == |removed| && deleted + failed == i
    {
      assert ids[..i + 1] == ids[..i] + [ids[i]];
      KeepAppend(ids[..i], ids[i], deletes);
      if deletes(ids[i]) {
        removed := removed + [ids[i]];
        deleted := deleted + 1;
      } else {
        failed := failed + 1;
      }
      i := i + 1;
    }
    assert ids[..i] == ids;
  }

  /** An element type as the purge sees it. */
  datatype ElementType = ElementType(id: int, isViewFamilyType: bool, categoryId: Option<int>)

  /** BuiltInCategory.OST_TitleBlocks. */
  const TitleBlocksCategory: int := -2000280

  /** The purge skips view family types, types without a category and title block types. */
  function PurgeableType(t: ElementType): bool
  {
    !t.isViewFamilyType && t.categoryId.Some? && t.categoryId.value != TitleBlocksCategory
  }

  function TypeId(t: ElementType): int { t.id }

  /** qa.fix.delete_unused_types: every purgeable type is attempted once. */
  method FixDeleteUnusedTypes(types: seq<ElementType>, deletes: int -> bool) returns (deleted: nat, failed: nat)
    ensures deleted + failed == |Keep(types, PurgeableType)|
    ensures deleted == |Keep(MapAll(Keep(types, PurgeableType), TypeId), deletes)|
  {
    var candidates := Keep(types, PurgeableType);
    var ids := MapAll(candidates, TypeId);
    MapAllIndex(candidates, TypeId);
    var removed;
    deleted, failed, removed := DeleteEach(ids, deletes);
  }

  // ---------------------------------------------------------------------------
  // qa.fix.delete_unused_view_templates
  // ---------------------------------------------------------------------------

  /** The templates that some non-template view uses. */
  function UsedTemplateIds(doc: seq<View>): set<int>
  {
    set i | 0 <= i < |doc| && !doc[i].isTemplate && doc[i].templateId.Some? :: doc[i].templateId.value
  }

  function Unused(used: set<int>): View -> bool
  {
    (v: View) => v.id !in used
  }

  function UnusedTemplates(doc: seq<View>): seq<View>
  {
    Keep(Keep(doc, IsTemplateView), Unused(UsedTemplateIds(doc)))
  }

  /** A view is an unused template exactly when it is a template that no non-template view uses. */
  lemma UnusedTemplatesExact(doc: seq<View>, t: View)
    ensures t in UnusedTemplates(doc) <==>
      t in doc && t.isTemplate && forall i :: 0 <= i < |doc| && !doc[i].isTemplate ==> doc[i].templateId != Some(t.id)
  {
    var ts := Keep(doc, IsTemplateView);
    KeepMembers(doc, IsTemplateView, t);
    KeepMembers(ts, Unused(UsedTemplateIds(doc)), t);
    if t.id in UsedTemplateIds(doc) {
      var i :| 0 <= i < |doc| && !doc[i].isTemplate && doc[i].templateId.Some? && doc[i].templateId.value == t.id;
      assert doc[i].templateId == Some(t.id);
    }
  }

  function ViewId(v: View): int { v.id }

  datatype PurgeReport = PurgeReport(total: nat, unusedCandidates: nat, deleted: nat, failed: nat)

  /** qa.fix.delete_unused_view_templates: all templates counted, the unused ones attempted. */
  method FixDeleteUnusedViewTemplates(doc: seq<View>, deletes: int -> bool) returns (r: PurgeReport)
    ensures r.total == |Keep(doc, IsTemplateView)|
    ensures r.unusedCandidates == |UnusedTemplates(doc)|
    ensures r.deleted + r.failed == r.unusedCandidates
    ensures r.deleted == |Keep(MapAll(UnusedTemplates(doc), ViewId), deletes)|
  {
    var templates := Keep(doc, IsTemplateView);
    var toDelete := MapAll(UnusedTemplates(doc), ViewId);
    MapAllIndex(UnusedTemplates(doc), ViewId);
    var deleted, failed, _ := DeleteEach(toDelete, deletes);
    r := PurgeReport(|templates|, |toDelete|, deleted, failed);
  }

  // ---------------------------------------------------------------------------
  // qa.fix.delete_unused_view_filters
  // ---------------------------------------------------------------------------

  /** The valid filter ids of one view (none when GetFilters throws). */
  function FiltersOf(v: View): set<int>
  {
    if v.filters.None? then {} else set id | id in v.filters.value && id != InvalidId
  }

  /** The filter ids some view (template or not) uses. */
  function UsedFilterIds(views: seq<View>): set<int>
    decreases |views|
  {
    if views == [] then {} else UsedFilterIds(views[..|views| - 1]) + FiltersOf(views[|views| - 1])
  }

  lemma {:induction false} UsedFilterIdsExact(views: seq<View>, f: int)
    ensures f in UsedFilterIds(views) <==> exists i :: 0 <= i < |views| && f in FiltersOf(views[i])
    decreases |views|
  {
    if views != [] {
      var init := views[..|views| - 1];
      UsedFilterIdsExact(init, f);
      if f in UsedFilterIds(init) {
        var i :| 0 <= i < |init| && f in FiltersOf(init[i]);
        assert init[i] == views[i];
      }
      if exists i :: 0 <= i < |views| && f in FiltersOf(views[i]) {
        var i :| 0 <= i < |views| && f in FiltersOf(views[i]);
        if i < |init| {
          assert init[i] == views[i];
        }
      }
    }
  }

  /** The loop collecting the used filter ids, view by view and id by id. */
  method CollectUsedFilters(views: seq<View>) returns (used: set<int>)
    ensures used == UsedFilterIds(views)
  {
    used := {};
    var i := 0;
    while i < |views|
      invariant 0 <= i <= |views|
      invariant used == UsedFilterIds(views[..i])
    {
      assert views[..i + 1][..i] == views[..i];
      var v := views[i];
      if v.filters.Some? {
        var fids := v.filters.value;
        var before := used;
        var j := 0;
        while j < |fids|
          invariant 0 <= j <= |fids|
          invariant used == before + set id | id in fids[..j] && id != InvalidId
        {
          assert fids[..j + 1] == fids[..j] + [fids[j]];
          if fids[j] != InvalidId {
            used := used + {fids[j]};
          }
          j := j + 1;
        }
        assert fids[..j] == fids;
      }
      i := i + 1;
    }
    assert views[..i] == views;
  }

  function NotIn(used: set<int>): int -> bool
  {
    (f: int) => f !in used
  }

  /** A filter is an unused candidate exactly when no view's filter list holds it. */
  lemma UnusedFiltersExact(filters: seq<int>, views: seq<View>, f: int)
    ensures f in Keep(filters, NotIn(UsedFilterIds(views))) <==>
      f in filters && forall i :: 0 <= i < |views| ==> f !in FiltersOf(views[i])
  {
    KeepMembers(filters, NotIn(UsedFilterIds(views)), f);
    UsedFilterIdsExact(views, f);
  }

  /** qa.fix.delete_unused_view_filters: all filters counted, the unused ones attempted. */
  method FixDeleteUnusedViewFilters(filters: seq<int>, views: seq<View>, deletes: int -> bool) returns (r: PurgeReport)
    ensures r.total == |filters|
    ensures r.unusedCandidates == |Keep(filters, NotIn(UsedFilterIds(views)))|
    ensures r.deleted + r.failed == r.unusedCandidates
    ensures r.deleted == |Keep(Keep(filters, NotIn(UsedFilterIds(views))), deletes)|
  {
    var used := CollectUsedFilters(views);
    var toDelete := Keep(filters, NotIn(used));
    var deleted, failed, _ := DeleteEach(toDelete, deletes);
    r := PurgeReport(|filters|, |toDelete|, deleted, failed);
  }
}
