// The HTTP dispatch bridge that runs inside Revit: the action registry, the UI-thread
// job queue (ActionRunner) and the request handler that routes, authenticates,
// validates the envelope, builds the job and maps its outcome to a response.

module Bridge {
  import opened Text
  import opened Json

  // ===========================================================================
  // Registry
  // ===========================================================================

  /**
   * What a registry entry builds from the request's args: either a named action
   * factory of the action classes, or a counting wrapper that fixes `categories`
   * and delegates to QtoActions.QtoCountsMepElectrical.
   */
  datatype Factory = Handler(name: string) | CountsWrapper(categories: seq<string>)

  const CountsHandler := "QtoActions.QtoCountsMepElectrical"

  type Registry = seq<(string, Factory)>

  /** The dictionary indexer `reg[key] = f` under StringComparer.OrdinalIgnoreCase. */
  function Assign(reg: Registry, key: string, f: Factory): (r: Registry)
  {
    if reg == [] then [(key, f)]
    else if EqIgnoreCase(reg[0].0, key) then [(reg[0].0, f)] + reg[1..]
    else [reg[0]] + Assign(reg[1..], key, f)
  }

  /** The collection initializer: one indexer assignment per entry, in order. */
  function Build(entries: seq<(string, Factory)>): (r: Registry)
    decreases |entries|
  {
    if entries == [] then [] else Assign(Build(entries[..|entries| - 1]), entries[|entries| - 1].0, entries[|entries| - 1].1)
  }

  predicate UniqueIgnoreCase(reg: Registry)
  {
    forall i, j :: 0 <= i < j < |reg| ==> !EqIgnoreCase(reg[i].0, reg[j].0)
  }

  lemma {:induction false} AssignLookup(reg: Registry, key: string, f: Factory, name: string)
    ensures LookupIgnoreCase(Assign(reg, key, f), name) == if EqIgnoreCase(key, name) then Some(f) else LookupIgnoreCase(reg, name)
  {
    if reg != [] && !EqIgnoreCase(reg[0].0, key) {
      AssignLookup(reg[1..], key, f, name);
    }
  }

  lemma {:induction false} AssignKeys(reg: Registry, key: string, f: Factory)
    ensures |Assign(reg, key, f)| == |reg| || |Assign(reg, key, f)| == |reg| + 1
    ensures forall i :: 0 <= i < |reg| ==> Assign(reg, key, f)[i].0 == reg[i].0
    ensures |Assign(reg, key, f)| == |reg| + 1 ==>
      Assign(reg, key, f)[|reg|].0 == key && forall i :: 0 <= i < |reg| ==> !EqIgnoreCase(reg[i].0, key)
    ensures |Assign(reg, key, f)| == |reg| ==> exists i :: 0 <= i < |reg| && EqIgnoreCase(reg[i].0, key)
  {
    if reg != [] && !EqIgnoreCase(reg[0].0, key) {
      AssignKeys(reg[1..], key, f);
      var r := Assign(reg, key, f);
      assert r == [reg[0]] + Assign(reg[1..], key, f);
      if |r| == |reg| {
        var i :| 0 <= i < |reg[1..]| && EqIgnoreCase(reg[1..][i].0, key);
        assert EqIgnoreCase(reg[i + 1].0, key);
      }
    }
  }

  /** The built dictionary never holds two keys that differ only in case. */
  lemma {:induction false} BuildUnique(entries: seq<(string, Factory)>)
    ensures UniqueIgnoreCase(Build(entries))
    decreases |entries|
  {
    if entries != [] {
      var prev := Build(entries[..|entries| - 1]);
      var e := entries[|entries| - 1];
      BuildUnique(entries[..|entries| - 1]);
      AssignKeys(prev, e.0, e.1);
      var r := Assign(prev, e.0, e.1);
      forall i, j | 0 <= i < j < |r| ensures !EqIgnoreCase(r[i].0, r[j].0) {
        if j < |prev| {
          assert r[i].0 == prev[i].0 && r[j].0 == prev[j].0;
        } else {
          assert r[i].0 == prev[i].0;
        }
      }
    }
  }

  /** A name is missing from the built dictionary exactly when no entry has an equal key. */
  lemma {:induction false} BuildLookupNone(entries: seq<(string, Factory)>, name: string)
    ensures LookupIgnoreCase(Build(entries), name).None? <==> forall i :: 0 <= i < |entries| ==> !EqIgnoreCase(entries[i].0, name)
    decreases |entries|
  {
    if entries != [] {
      var n := |entries| - 1;
      var prev := entries[..n];
      BuildLookupNone(prev, name);
      AssignLookup(Build(prev), entries[n].0, entries[n].1, name);
      var none := forall i :: 0 <= i < |entries| ==> !EqIgnoreCase(entries[i].0, name);
      var prevNone := forall i :: 0 <= i < n ==> !EqIgnoreCase(prev[i].0, name);
      assert prevNone <==> (forall i :: 0 <= i < n ==> !EqIgnoreCase(entries[i].0, name)) by {
        assert forall i :: 0 <= i < n ==> prev[i] == entries[i];
      }
      assert none <==> prevNone && !EqIgnoreCase(entries[n].0, name);
    }
  }

  /** Lookup in the built dictionary finds the value of the LAST entry with an equal key. */
  lemma {:induction false} BuildLookupLast(entries: seq<(string, Factory)>, name: string, i: nat)
    requires i < |entries| && EqIgnoreCase(entries[i].0, name)
    requires forall j :: i < j < |entries| ==> !EqIgnoreCase(entries[j].0, name)
    ensures LookupIgnoreCase(Build(entries), name) == Some(entries[i].1)
    decreases |entries|
  {
    var n := |entries| - 1;
    var prev := entries[..n];
    AssignLookup(Build(prev), entries[n].0, entries[n].1, name);
    if i < n {
      assert prev[i] == entries[i];
      assert forall j :: i < j < |prev| ==> prev[j] == entries[j];
      BuildLookupLast(prev, name, i);
    }
  }

  /** The entries of RevitBridge's registry, in declaration order. */
  const RegistryEntries: seq<(string, Factory)> := [
    // core / architecture
    ("wall.create", Handler("ArchitectureActions.WallCreate")),
    ("level.create", Handler("ArchitectureActions.LevelCreate")),
    ("grid.create", Handler("ArchitectureActions.GridCreate")),
    ("floor.create", Handler("ArchitectureActions.FloorCreate")),
    ("ceiling.create", Handler("ArchitectureActions.CeilingCreate")),
    ("door.place", Handler("ArchitectureActions.DoorPlace")),
    ("window.place", Handler("ArchitectureActions.WindowPlace")),
    ("rooms.create_on_levels", Handler("ArchitectureActions.RoomsCreateOnLevels")),
    ("floors.from_rooms", Handler("ArchitectureActions.FloorsFromRooms")),
    ("ceilings.from_rooms", Handler("ArchitectureActions.CeilingsFromRooms")),
    ("roof.create_footprint", Handler("ArchitectureActions.RoofFootprintCreate")),
    ("family.load", Handler("ArchitectureActions.FamilyLoad")),
    ("family.place", Handler("ArchitectureActions.FamilyPlace")),
    ("railing.create", Handler("ArchitectureActions.RailingCreate")),
    ("stair.create", Handler("ArchitectureActions.StairCreate")),
    ("ramp.create", Handler("ArchitectureActions.RampCreate")),
    // structure
    ("struct.beam.create", Handler("StructureActions.BeamCreate")),
    ("struct.column.create", Handler("StructureActions.ColumnCreate")),
    ("struct.floor.create", Handler("StructureActions.StructuralFloorCreate")),
    ("struct.columns.place_on_grid", Handler("StructureActions.ColumnsPlaceOnGrid")),
    ("struct.foundation.isolated.create", Handler("StructureActions.FoundationIsolatedCreate")),
    ("struct.foundation.wall.create", Handler("StructureActions.WallFoundationCreate")),
    ("struct.beamsystem.create", Handler("StructureActions.BeamSystemCreate")),
    ("struct.rebar.add_straight_on_beam", Handler("StructureActions.RebarAddStraightOnBeam")),
    // MEP
    ("mep.duct.create", Handler("MepDuctActions.DuctCreate")),
    ("mep.pipe.create", Handler("MepPipeConduitActions.PipeCreate")),
    ("mep.conduit.create", Handler("MepPipeConduitActions.ConduitCreate")),
    ("mep.cabletray.create", Handler("MepPipeConduitActions.CableTrayCreate")),
    ("mep.pipe.connect", Handler("MepPipeConduitActions.PipeConnect")),
    ("mep.pipe.add_insulation", Handler("MepPipeConduitActions.PipeAddInsulation")),
    ("mep.pipe.set_offset", Handler("MepPipeConduitActions.PipeSetOffset")),
    ("mep.conduit.set_offset", Handler("MepPipeConduitActions.ConduitSetOffset")),
    ("mep.conduit.set_diameter", Handler("MepPipeConduitActions.ConduitSetDiameter")),
    ("mep.cabletray.set_size", Handler("MepPipeConduitActions.CableTraySetSize")),
    ("mep.cabletray.set_offset", Handler("MepPipeConduitActions.CableTraySetOffset")),
    // graphics
    ("view.category.set_visibility", Handler("GraphicsActions.SetVisibility")),
    ("view.category.override_color", Handler("GraphicsActions.OverrideColor")),
    ("view.category.clear_overrides", Handler("GraphicsActions.ClearOverrides")),
    ("view.apply_template", Handler("GraphicsActions.ApplyTemplate")),
    ("view.set_scale", Handler("GraphicsActions.SetScale")),
    ("view.set_detail_level", Handler("GraphicsActions.SetDetailLevel")),
    ("view.set_discipline", Handler("GraphicsActions.SetDiscipline")),
    ("view.set_phase", Handler("GraphicsActions.SetPhase")),
    ("views.duplicate", Handler("GraphicsActions.ViewsDuplicate")),
    ("imports.hide", Handler("GraphicsActions.HideImports")),
    // parameters
    ("params.get", Handler("ParamsActions.ParamsGet")),
    ("params.set", Handler("ParamsActions.ParamsSet")),
    ("params.bulk_from_table", Handler("ParamsActions.ParamsBulkFromTable")),
    ("params.set_where", Handler("ParamsActions.ParamsSetWhere")),
    // documentation
    ("sheets.create", Handler("DocActions.SheetsCreate")),
    ("sheets.add_views", Handler("DocActions.SheetsAddViews")),
    ("sheets.create_bulk", Handler("DocActions.SheetsCreateBulk")),
    ("sheets.assign_revisions", Handler("DocActions.SheetsAssignRevisions")),
    ("views.set_scope_box", Handler("DocActions.ViewsSetScopeBox")),
    ("sheets.add_schedules", Handler("DocActions.SheetsAddSchedules")),
    ("sheets.set_params_bulk", Handler("DocActions.SheetsSetParamsBulk")),
    // queries
    ("levels.list", Handler("QueryActions.LevelsList")),
    ("walltypes.list", Handler("QueryActions.WallTypesList")),
    ("views.list", Handler("QueryActions.ViewsList")),
    ("schedules.list", Handler("QueryActions.SchedulesList")),
    ("materials.list", Handler("QueryActions.MaterialsList")),
    ("categories.list", Handler("QueryActions.CategoriesList")),
    ("families.types.list", Handler("QueryActions.FamiliesTypesList")),
    ("links.list", Handler("QueryActions.LinksList")),
    ("imports.list", Handler("QueryActions.ImportsList")),
    ("worksets.list", Handler("QueryActions.WorksetsList")),
    ("textnotes.find", Handler("QueryActions.TextNotesFind")),
    ("view.active", Handler("QueryActions.ActiveViewInfo")),
    ("selection.info", Handler("QueryActions.SelectionInfo")),
    ("element.info", Handler("QueryActions.ElementInfo")),
    ("ducttypes.list", Handler("QueryActions.DuctTypesList")),
    ("pipetypes.list", Handler("QueryActions.PipeTypesList")),
    ("cabletraytypes.list", Handler("QueryActions.CableTrayTypesList")),
    // export
    ("export.nwc", Handler("ExportActions.ExportNwc")),
    ("export.dwg", Handler("ExportActions.ExportDwg")),
    ("export.pdf", Handler("ExportActions.ExportPdf")),
    // QA fixes
    ("qa.fix.pin_all_links", Handler("QaActions.FixPinAllLinks")),
    ("qa.fix.delete_imports", Handler("QaActions.FixDeleteImports")),
    ("qa.fix.apply_view_templates", Handler("QaActions.FixApplyViewTemplates")),
    ("qa.fix.remove_textnotes", Handler("QaActions.FixRemoveTextNotes")),
    ("qa.fix.delete_unused_types", Handler("QaActions.FixDeleteUnusedTypes")),
    ("qa.fix.rename_views", Handler("QaActions.FixRenameViews")),
    ("qa.fix.unhide_all_in_view", Handler("QaActions.FixUnhideAllInView")),
    ("qa.fix.delete_unused_view_templates", Handler("QaActions.FixDeleteUnusedViewTemplates")),
    ("qa.fix.delete_unused_view_filters", Handler("QaActions.FixDeleteUnusedViewFilters")),
    // quantity take-off
    ("qto.walls", Handler("QtoActions.QtoWalls")),
    ("qto.floors", Handler("QtoActions.QtoFloors")),
    ("qto.ceilings", Handler("QtoActions.QtoCeilings")),
    ("qto.railings", Handler("QtoActions.QtoRailings")),
    ("qto.families.count", Handler("QtoActions.QtoFamiliesCount")),
    ("qto.family.instances", Handler("QtoActions.QtoFamiliesCount")),
    ("qto.struct.beams", Handler("QtoActions.QtoStructBeams")),
    ("qto.struct.columns", Handler("QtoActions.QtoStructColumns")),
    ("qto.struct.foundations", Handler("QtoActions.QtoStructFoundations")),
    ("qto.struct.concrete", Handler("QtoActions.QtoStructConcrete")),
    ("qto.mep.pipes", Handler("QtoActions.QtoMepPipes")),
    ("qto.mep.ducts", Handler("QtoActions.QtoMepDucts")),
    ("qto.mep.cabletrays", Handler("QtoActions.QtoCableTrays")),
    ("qto.mep.conduits", Handler("QtoActions.QtoConduits")),
    ("qto.mep.cabletray.length", Handler("QtoActions.QtoCableTrays")),
    ("qto.mep.conduit.length", Handler("QtoActions.QtoConduits")),
    // counting wrappers with a fixed category list
    ("qto.mep.duct_fittings.count", CountsWrapper(["OST_DuctFitting"])),
    ("qto.mep.air_terminals.count", CountsWrapper(["OST_DuctTerminal"])),
    ("qto.mep.mechanical_equip.count", CountsWrapper(["OST_MechanicalEquipment"])),
    ("qto.mep.pipe_fittings.count", CountsWrapper(["OST_PipeFitting"])),
    ("qto.mep.pipe_accessories.count", CountsWrapper(["OST_PipeAccessory"])),
    ("qto.mep.plumbing_equipment.count", CountsWrapper(["OST_PlumbingEquipment"])),
    ("qto.mep.plumbing_fixtures.count", CountsWrapper(["OST_PlumbingFixtures"])),
    ("qto.electrical.equipment.count", CountsWrapper(["OST_ElectricalEquipment"])),
    ("qto.electrical.lighting.count", CountsWrapper(["OST_LightingFixtures"])),
    ("qto.electrical.devices.count", CountsWrapper(["OST_ElectricalFixtures", "OST_LightingDevices"]))
  ]

  // ---------------------------------------------------------------------------
  // Factory invocation
  // ---------------------------------------------------------------------------

  /**
   * The handler a factory delegates to and the args it hands over. A wrapper works on
   * a copy of the args (an empty object when there are none) with `categories`
   * overwritten; the caller's args are a value and stay as they were.
   */
  function Delegate(f: Factory, args: Option<Fields>): (r: (string, Fields))
    ensures f.Handler? ==> r.0 == f.name
    ensures f.Handler? && args.Some? ==> r.1 == args.value
    ensures f.CountsWrapper? ==> r.0 == CountsHandler
    ensures f.CountsWrapper? ==> Get(r.1, "categories") == Some(StrArray(f.categories))
    ensures f.CountsWrapper? ==> forall k :: k != "categories" ==>
      Get(r.1, k) == (if args.Some? then Get(args.value, k) else None)
  {
    var a := if args.Some? then args.value else [];
    match f
    case Handler(name) => (name, a)
    case CountsWrapper(cats) =>
      var r := Put(a, "categories", StrArray(cats));
      assert forall k :: Get(r, k) == (if k == "categories" then Some(StrArray(cats)) else Get(a, k)) by {
        forall k ensures Get(r, k) == (if k == "categories" then Some(StrArray(cats)) else Get(a, k)) {
          PutGet(a, "categories", StrArray(cats), k);
        }
      }
      (CountsHandler, r)
  }

  /** A wrapper keeps the caller's keys in place and adds `categories` at the end only if absent. */
  lemma WrapperKeys(cats: seq<string>, args: Fields)
    ensures Keys(Delegate(CountsWrapper(cats), Some(args)).1) ==
      if HasKey(args, "categories") then Keys(args) else Keys(args) + ["categories"]
  {
    PutKeys(args, "categories", StrArray(cats));
  }

  // ---------------------------------------------------------------------------
  // ListActions: the registry keys in ascending order
  // ---------------------------------------------------------------------------

  predicate Sorted(s: seq<string>)
  {
    forall i, j :: 0 <= i < j < |s| ==> LessEq(s[i], s[j])
  }

  /** A sorted sequence stays sorted behind a head no greater than any of its elements. */
  lemma SortedCons(x: string, r: seq<string>)
    requires Sorted(r) && forall j :: 0 <= j < |r| ==> LessEq(x, r[j])
    ensures Sorted([x] + r)
  {
    forall i, j | 0 <= i < j < |[x] + r| ensures LessEq(([x] + r)[i], ([x] + r)[j]) {
      if i > 0 {
        assert ([x] + r)[i] == r[i - 1];
      }
      assert ([x] + r)[j] == r[j - 1];
    }
  }

  function Insert(x: string, s: seq<string>): (r: seq<string>)
    requires Sorted(s)
    ensures Sorted(r)
    ensures multiset(r) == multiset(s) + multiset{x}
    ensures |r| == |s| + 1
  {
    if s == [] then [x]
    else if LessEq(x, s[0]) then
      assert forall j :: 0 <= j < |s| ==> LessEq(x, s[j]) by {
        forall j | 0 <= j < |s| ensures LessEq(x, s[j]) {
          if j > 0 {
            LessEqTrans(x, s[0], s[j]);
          }
        }
      }
      SortedCons(x, s);
      [x] + s
    else
      LessEqTotal(x, s[0]);
      var tail := s[1..];
      var rest := Insert(x, tail);
      assert s == [s[0]] + tail;
      forall j | 0 <= j < |rest| ensures LessEq(s[0], rest[j]) {
        assert rest[j] in multiset(rest);
        if rest[j] != x {
          assert rest[j] in multiset(tail);
          var k :| 0 <= k < |tail| && tail[k] == rest[j];
          assert tail[k] == s[k + 1];
        }
      }
      SortedCons(s[0], rest);
      [s[0]] + rest
  }

  function SortStrings(s: seq<string>): (r: seq<string>)
    ensures Sorted(r)
    ensures multiset(r) == multiset(s)
  {
    if s == [] then []
    else
      assert s == [s[0]] + s[1..];
      Insert(s[0], SortStrings(s[1..]))
  }

  /** `_registry.Keys.OrderBy(k => k)`. */
  function ListActions(reg: Registry): (r: seq<string>)
  {
    SortStrings(Keys(reg))
  }

  lemma DistinctCount(ks: seq<string>, k: string)
    requires forall i, j :: 0 <= i < j < |ks| ==> ks[i] != ks[j]
    requires k in ks
    ensures multiset(ks)[k] == 1
  {
    if ks != [] {
      assert ks == [ks[0]] + ks[1..];
      if ks[0] == k {
        assert k !in ks[1..];
      } else {
        DistinctCount(ks[1..], k);
      }
    }
  }

  /** The /actions list is sorted and holds every registry key exactly once, and nothing else. */
  lemma ListActionsExactlyOnce(reg: Registry)
    requires UniqueIgnoreCase(reg)
    ensures Sorted(ListActions(reg))
    ensures forall k :: k in ListActions(reg) <==> k in Keys(reg)
    ensures forall k :: k in Keys(reg) ==> multiset(ListActions(reg))[k] == 1
  {
    var ks := Keys(reg);
    var r := ListActions(reg);
    assert multiset(r) == multiset(ks);
    forall k ensures k in r <==> k in ks {
      assert k in r <==> k in multiset(r);
      assert k in ks <==> k in multiset(ks);
    }
    forall k | k in ks ensures multiset(r)[k] == 1 {
      DistinctCount(ks, k);
    }
  }

  // ===========================================================================
  // Jobs and the ActionRunner
  // ===========================================================================

  /** What an executable leaves behind: the new host state and its value or exception. */
  datatype Outcome<H> = Outcome(host: H, result: Result<Json>)

  /** UiJob: an executable on the host and the id of its completion source. */
  datatype Job<!H> = Job(id: nat, execute: H -> Outcome<H>)

  /** The state of a completion source. */
  datatype JobState = Queued | Running | Succeeded(value: Json) | Failed(message: string)

  predicate Pending(s: JobState)
  {
    s.Queued? || s.Running?
  }

  /** TrySetResult / TrySetException: only a source that is still pending changes. */
  function TrySet(states: map<nat, JobState>, id: nat, r: Result<Json>): (m: map<nat, JobState>)
  {
    if id in states && Pending(states[id]) then
      states[id := if r.Ok? then Succeeded(r.value) else Failed(r.error)]
    else states
  }

  function Ids<H>(q: seq<Job<H>>): (ids: seq<nat>)
    ensures |ids| == |q|
    ensures forall i :: 0 <= i < |q| ==> ids[i] == q[i].id
  {
    if q == [] then [] else [q[0].id] + Ids(q[1..])
  }

  /** Every queued job has its own completion source, still waiting. */
  predicate QueueValid<H>(q: seq<Job<H>>, states: map<nat, JobState>)
  {
    (forall i, j :: 0 <= i < j < |q| ==> q[i].id != q[j].id) &&
    (forall i :: 0 <= i < |q| ==> q[i].id in states && states[q[i].id] == Queued)
  }

  /** One turn of the drain loop on the head job. */
  function Step<H>(h: H, states: map<nat, JobState>, job: Job<H>): (r: (H, map<nat, JobState>))
  {
    var o := job.execute(h);
    (o.host, TrySet(states[job.id := Running], job.id, o.result))
  }

  /** Execute(app): run the queued jobs front to back until the queue is empty. */
  function Drain<H>(h: H, states: map<nat, JobState>, q: seq<Job<H>>): (r: (H, map<nat, JobState>))
    decreases |q|
  {
    if q == [] then (h, states)
    else
      var s := Step(h, states, q[0]);
      Drain(s.0, s.1, q[1..])
  }

  /** Draining a non-empty queue is one step on its head, then draining the rest. */
  lemma DrainHead<H>(h: H, states: map<nat, JobState>, q: seq<Job<H>>)
    requires q != []
    ensures Drain(h, states, q) == Drain(Step(h, states, q[0]).0, Step(h, states, q[0]).1, q[1..])
  {
  }

  /** Moving the head job's id from the queue to the run list keeps their concatenation. */
  lemma RanHead<H>(ran: seq<nat>, q: seq<Job<H>>)
    requires q != []
    ensures (ran + [q[0].id]) + Ids(q[1..]) == ran + Ids(q)
  {
    assert Ids(q) == [q[0].id] + Ids(q[1..]);
  }

  /** The host state that job i of the queue sees: the effect of the jobs before it, in order. */
  function HostBefore<H>(h: H, q: seq<Job<H>>, i: nat): H
    requires i <= |q|
    decreases i
  {
    if i == 0 then h else q[i - 1].execute(HostBefore(h, q, i - 1)).host
  }

  function Resolved(r: Result<Json>): (s: JobState)
    ensures !Pending(s)
    ensures s.Succeeded? <==> r.Ok?
  {
    if r.Ok? then Succeeded(r.value) else Failed(r.error)
  }

  /**
   * A pending source is resolved by the first TrySet with that outcome; a second
   * TrySet, whatever its outcome, changes nothing.
   */
  lemma TrySetOnce(states: map<nat, JobState>, id: nat, first: Result<Json>, second: Result<Json>)
    requires id in states && Pending(states[id])
    ensures var once := TrySet(states, id, first);
      id in once && once[id] == Resolved(first) && TrySet(once, id, second) == once
  {
  }

  lemma {:induction false} HostBeforeTail<H>(h: H, q: seq<Job<H>>, i: nat)
    requires 0 < |q| && i < |q|
    ensures HostBefore(q[0].execute(h).host, q[1..], i) == HostBefore(h, q, i + 1)
    decreases i
  {
    if i > 0 {
      HostBeforeTail(h, q, i - 1);
    }
  }

  lemma StepStates<H>(h: H, states: map<nat, JobState>, job: Job<H>)
    ensures Step(h, states, job).1 == states[job.id := Resolved(job.execute(h).result)]
  {
  }

  /** Running the head job leaves the rest of the queue valid. */
  lemma StepKeepsQueueValid<H>(h: H, states: map<nat, JobState>, q: seq<Job<H>>)
    requires QueueValid(q, states) && q != []
    ensures QueueValid(q[1..], Step(h, states, q[0]).1)
  {
    StepStates(h, states, q[0]);
    var tail := q[1..];
    forall i | 0 <= i < |tail| ensures tail[i].id != q[0].id {
      assert tail[i] == q[i + 1];
    }
  }

  /** After draining, the host is the effect of every queued job, applied in queue order. */
  lemma {:induction false} DrainHost<H>(h: H, states: map<nat, JobState>, q: seq<Job<H>>)
    ensures Drain(h, states, q).0 == HostBefore(h, q, |q|)
    decreases |q|
  {
    if q != [] {
      var s := Step(h, states, q[0]);
      DrainHost(s.0, s.1, q[1..]);
      HostBeforeTail(h, q, |q| - 1);
    }
  }

  /** Draining touches no completion source other than those of the queued jobs. */
  lemma {:induction false} DrainOthers<H>(h: H, states: map<nat, JobState>, q: seq<Job<H>>, id: nat)
    requires id !in Ids(q)
    ensures id in Drain(h, states, q).1 <==> id in states
    ensures id in states ==> Drain(h, states, q).1[id] == states[id]
    decreases |q|
  {
    if q != [] {
      var s := Step(h, states, q[0]);
      StepStates(h, states, q[0]);
      assert Ids(q) == [q[0].id] + Ids(q[1..]);
      DrainOthers(s.0, s.1, q[1..], id);
    }
  }

  /** Draining adds no completion source. */
  lemma {:induction false} DrainOthersDomain<H>(h: H, states: map<nat, JobState>, q: seq<Job<H>>)
    requires forall i :: 0 <= i < |q| ==> q[i].id in states
    ensures Drain(h, states, q).1.Keys == states.Keys
    decreases |q|
  {
    if q != [] {
      var s := Step(h, states, q[0]);
      StepStates(h, states, q[0]);
      DrainOthersDomain(s.0, s.1, q[1..]);
    }
  }

  /**
   * Draining resolves every queued job with the outcome of running it on the host left
   * by the jobs before it: a throwing job is resolved as Failed and does not stop
   * the jobs behind it.
   */
  lemma {:induction false} DrainResolvesEach<H>(h: H, states: map<nat, JobState>, q: seq<Job<H>>)
    requires forall i, j :: 0 <= i < j < |q| ==> q[i].id != q[j].id
    ensures forall i :: 0 <= i < |q| ==>
      q[i].id in Drain(h, states, q).1 &&
      Drain(h, states, q).1[q[i].id] == Resolved(q[i].execute(HostBefore(h, q, i)).result)
    decreases |q|
  {
    if q != [] {
      var s := Step(h, states, q[0]);
      StepStates(h, states, q[0]);
      var tail := q[1..];
      assert forall i :: 0 <= i < |tail| ==> tail[i] == q[i + 1];
      DrainResolvesEach(s.0, s.1, tail);
      var st := Drain(s.0, s.1, tail).1;
      assert Drain(h, states, q).1 == st;
      forall i | 0 <= i < |q|
        ensures q[i].id in st && st[q[i].id] == Resolved(q[i].execute(HostBefore(h, q, i)).result)
      {
        if i > 0 {
          assert tail[i - 1] == q[i];
          HostBeforeTail(h, q, i - 1);
        } else {
          assert q[0].id !in Ids(tail);
          DrainOthers(s.0, s.1, tail, q[0].id);
        }
      }
    }
  }

  /** RevitBridge.ActionRunner: the queue, the completion sources and the host it runs on. */
  class ActionRunner<H> {
    var queue: seq<Job<H>>
    var states: map<nat, JobState>
    var host: H
    /** The ids of the jobs run so far, in the order they ran. */
    ghost var ran: seq<nat>

    ghost predicate Valid()
      reads this
    {
      QueueValid(queue, states)
    }

    constructor (h: H)
      ensures Valid() && queue == [] && states == map[] && host == h && ran == []
    {
      queue := [];
      states := map[];
      host := h;
      ran := [];
    }

    /** Enqueue(job): a fresh completion source, waiting, and the job at the back. */
    method Enqueue(job: Job<H>)
      requires Valid() && job.id !in states
      modifies this
      ensures Valid()
      ensures queue == old(queue) + [job] && states == old(states)[job.id := Queued]
      ensures host == old(host) && ran == old(ran)
    {
      queue := queue + [job];
      states := states[job.id := Queued];
    }

    /** One turn of Execute: dequeue the head job, run it, and resolve its source with its value or exception. */
    method RunNext()
      requires Valid() && queue != []
      modifies this
      ensures Valid()
      ensures queue == old(queue)[1..]
      ensures (host, states) == Step(old(host), old(states), old(queue)[0])
      ensures ran == old(ran) + [old(queue)[0].id]
    {
      StepKeepsQueueValid(host, states, queue);
      var job := queue[0];
      queue := queue[1..];
      states := states[job.id := Running];
      var o := job.execute(host);
      host := o.host;
      match o.result {
        case Ok(v) => states := TrySet(states, job.id, Ok(v));
        case Err(m) => states := TrySet(states, job.id, Err(m));
      }
      ran := ran + [job.id];
    }

    /** Execute(app): `while (TryDequeue(out job))` run the job and resolve its source. */
    method Execute()
      requires Valid()
      modifies this
      ensures Valid() && queue == []
      ensures (host, states) == Drain(old(host), old(states), old(queue))
      ensures ran == old(ran) + Ids(old(queue))
    {
      while queue != []
        invariant Valid()
        invariant Drain(host, states, queue) == Drain(old(host), old(states), old(queue))
        invariant ran + Ids(queue) == old(ran) + Ids(old(queue))
        decreases |queue|
      {
        ghost var h0, st0, q0, ran0 := host, states, queue, ran;
        RunNext();
        DrainHead(h0, st0, q0);
        RanHead(ran0, q0);
      }
    }
  }

  // ===========================================================================
  // Request handling
  // ===========================================================================

  /** MCPEnvelope: `action` and `args`, either possibly absent. */
  datatype Envelope = Envelope(action: Option<string>, args: Option<Fields>)

  /** MCPResponse: ok (default true), message (default "ok") and data. */
  datatype McpResponse = McpResponse(ok: bool, message: string, data: Option<Json>)

  /** An HTTP reply: its status code and, except for the preflight, a JSON body. */
  datatype HttpReply = HttpReply(status: int, body: Option<McpResponse>)

  /**
   * An HTTP request: method, path, Authorization header and the body as the JSON
   * deserializer left it (its exception message, no envelope for "null", or the envelope).
   */
  datatype Request = Request(httpMethod: string, path: string, authorization: Option<string>,
                             body: Result<Option<Envelope>>)

  /** The first phase of Handle: answer at once, or hand a built executable to the UI thread. */
  datatype Dispatch<!H> = Reply(reply: HttpReply) | Run(execute: H -> Outcome<H>)

  const BearerPrefix := "Bearer "

  /** The Authorization check that runs when an API key is configured. */
  predicate Authorized(auth: Option<string>, apiKey: string)
  {
    auth.Some? && !IsBlank(auth.value) &&
    StartsWithIgnoreCase(auth.value, BearerPrefix) &&
    Trim(auth.value[|BearerPrefix|..]) == apiKey
  }

  function Error500(message: string): HttpReply
  {
    HttpReply(500, Some(McpResponse(false, message, None)))
  }

  const EnvelopeError := "Invalid MCP envelope. Expecting { action, args }."

  function UnknownAction(name: string): string
  {
    "Unknown action '" + name + "'."
  }

  /**
   * Handle up to the enqueue: preflight, auth, the two GET routes, the POST /mcp
   * route, envelope validation, registry lookup and the factory's parse phase.
   * `build` is the parse phase of the action factories, by handler name.
   */
  function Route<H>(req: Request, apiKey: Option<string>, reg: Registry,
                    build: (string, Fields) -> Result<H -> Outcome<H>>): (d: Dispatch<H>)
  {
    if req.httpMethod == "OPTIONS" then Reply(HttpReply(204, None))
    else if apiKey.Some? && apiKey.value != [] && !Authorized(req.authorization, apiKey.value) then
      Reply(HttpReply(401, Some(McpResponse(false, "Unauthorized", None))))
    else if req.httpMethod == "GET" && req.path == "/health" then
      Reply(HttpReply(200, Some(McpResponse(true, "ok", Some(Obj([("bridge", Str("/mcp"))]))))))
    else if req.httpMethod == "GET" && req.path == "/actions" then
      Reply(HttpReply(200, Some(McpResponse(true, "ok", Some(Obj([("actions", StrArray(ListActions(reg)))]))))))
    else if req.httpMethod != "POST" || req.path != "/mcp" then
      Reply(HttpReply(404, Some(McpResponse(false, "Not found", None))))
    else if req.body.Err? then Reply(Error500(req.body.error))
    else if req.body.value.None? || IsBlankOpt(req.body.value.value.action) then Reply(Error500(EnvelopeError))
    else
      var env := req.body.value.value;
      var name := env.action.value;
      match LookupIgnoreCase(reg, name)
      case None => Reply(Error500(UnknownAction(name)))
      case Some(f) =>
        var (handler, args) := Delegate(f, Some(if env.args.Some? then env.args.value else []));
        match build(handler, args)
        case Err(m) => Reply(Error500(m))
        case Ok(exec) => Run(exec)
  }

  /** After `await tcs.Task`: the job's value as 200, its exception as 500. */
  function Complete(s: JobState): (r: HttpReply)
    requires !Pending(s)
  {
    match s
    case Succeeded(v) => HttpReply(200, Some(McpResponse(true, "ok", Some(v))))
    case Failed(m) => Error500(m)
  }

  /** A preflight request gets 204 whatever its headers and whatever the key. */
  lemma OptionsBeforeAuth<H>(req: Request, apiKey: Option<string>, reg: Registry,
                             build: (string, Fields) -> Result<H -> Outcome<H>>)
    requires req.httpMethod == "OPTIONS"
    ensures Route(req, apiKey, reg, build) == Reply(HttpReply(204, None))
  {
  }

  /** Routing never hands a job to the UI thread except for an authorized POST /mcp with a known action. */
  lemma OnlyKnownPostsRun<H>(req: Request, apiKey: Option<string>, reg: Registry,
                             build: (string, Fields) -> Result<H -> Outcome<H>>)
    requires Route(req, apiKey, reg, build).Run?
    ensures req.httpMethod == "POST" && req.path == "/mcp"
    ensures apiKey.Some? && apiKey.value != [] ==> Authorized(req.authorization, apiKey.value)
    ensures req.body.Ok? && req.body.value.Some?
    ensures req.body.value.value.action.Some? && !IsBlank(req.body.value.value.action.value)
    ensures LookupIgnoreCase(reg, req.body.value.value.action.value).Some?
  {
  }

  /** Every non-preflight reply other than the two GET routes and POST /mcp is 404, behind auth. */
  lemma OtherRoutesNotFound<H>(req: Request, apiKey: Option<string>, reg: Registry,
                               build: (string, Fields) -> Result<H -> Outcome<H>>)
    requires req.httpMethod != "OPTIONS"
    requires !(req.httpMethod == "GET" && (req.path == "/health" || req.path == "/actions"))
    requires !(req.httpMethod == "POST" && req.path == "/mcp")
    ensures Route(req, apiKey, reg, build).Reply?
    ensures Route(req, apiKey, reg, build).reply.status ==
      if apiKey.Some? && apiKey.value != [] && !Authorized(req.authorization, apiKey.value) then 401 else 404
  {
  }

  /**
   * With an API key set, a header passes exactly when it is "Bearer " in any
   * case followed by a token that trims to the key.
   */
  lemma AuthExact(prefix: string, token: string, apiKey: string)
    requires EqIgnoreCase(prefix, BearerPrefix)
    requires apiKey != [] && !IsSpace(apiKey[0]) && !IsSpace(apiKey[|apiKey| - 1])
    ensures Authorized(Some(prefix + token), apiKey) <==> Trim(token) == apiKey
  {
    var h := prefix + token;
    assert h[..|BearerPrefix|] == prefix;
    assert h[|BearerPrefix|..] == token;
    assert LowerChar(prefix[0]) == 'b';
    assert h[0] == prefix[0];
  }

  /** A key check the request passes, or no key configured. */
  predicate Admitted(req: Request, apiKey: Option<string>)
  {
    apiKey.None? || apiKey.value == [] || Authorized(req.authorization, apiKey.value)
  }

  /** An unknown action is reported by name with 500 and nothing runs, whatever the args. */
  lemma UnknownActionReply<H>(req: Request, apiKey: Option<string>, reg: Registry,
                              build: (string, Fields) -> Result<H -> Outcome<H>>, name: string, args: Option<Fields>)
    requires req.httpMethod == "POST" && req.path == "/mcp" && Admitted(req, apiKey)
    requires req.body == Ok(Some(Envelope(Some(name), args))) && !IsBlank(name)
    requires forall i :: 0 <= i < |reg| ==> !EqIgnoreCase(reg[i].0, name)
    ensures Route(req, apiKey, reg, build) == Reply(Error500("Unknown action '" + name + "'."))
  {
  }

  /**
   * A factory that throws while parsing the args answers 500 with its message
   * before anything is handed to the UI thread; absent args are parsed as {}.
   */
  lemma FactoryErrorReply<H>(req: Request, apiKey: Option<string>, reg: Registry,
                             build: (string, Fields) -> Result<H -> Outcome<H>>,
                             name: string, args: Option<Fields>, f: Factory, m: string)
    requires req.httpMethod == "POST" && req.path == "/mcp" && Admitted(req, apiKey)
    requires req.body == Ok(Some(Envelope(Some(name), args))) && !IsBlank(name)
    requires LookupIgnoreCase(reg, name) == Some(f)
    requires var given := if args.Some? then args.value else [];
      build(Delegate(f, Some(given)).0, Delegate(f, Some(given)).1) == Err(m)
    ensures Route(req, apiKey, reg, build) == Reply(Error500(m))
  {
  }

  /**
   * The awaited job's outcome as the client sees it: a value is 200 with ok,
   * "ok" and the value as data; an exception is 500 with its message and no data.
   */
  lemma CompleteOutcome(r: Result<Json>)
    ensures var reply := Complete(Resolved(r));
      (reply.status == 200 <==> r.Ok?) && reply.body.Some? &&
      (r.Ok? ==> reply.body.value == McpResponse(true, "ok", Some(r.value))) &&
      (r.Err? ==> reply.status == 500 && reply.body.value == McpResponse(false, r.error, None))
  {
  }

  /** The job at the back of a valid queue is resolved by the drain with the outcome of running it last. */
  lemma DrainLast<H>(h: H, states: map<nat, JobState>, q: seq<Job<H>>)
    requires QueueValid(q, states) && q != []
    ensures var job := q[|q| - 1];
      job.id in Drain(h, states, q).1 &&
      Drain(h, states, q).1[job.id] == Resolved(job.execute(HostBefore(h, q, |q| - 1)).result)
  {
    DrainResolvesEach(h, states, q);
  }

  /** The bridge object: its runner, its registry and the configured key. */
  class RevitBridge<H> {
    const apiKey: Option<string>
    const registry: Registry
    const runner: ActionRunner<H>
    var nextId: nat

    ghost predicate Valid()
      reads this, runner
    {
      runner.Valid() && (forall id :: id in runner.states ==> id < nextId)
    }

    constructor (key: Option<string>, h: H, entries: seq<(string, Factory)>)
      ensures Valid() && fresh(runner)
      ensures apiKey == key && registry == Build(entries)
      ensures runner.queue == [] && runner.states == map[] && runner.host == h
    {
      apiKey := key;
      registry := Build(entries);
      runner := new ActionRunner(h);
      nextId := 0;
    }

    /**
     * Handle(ctx) run to completion on one thread: route; if a job was built, enqueue
     * it, raise the external event (which drains the queue) and answer with the
     * job's outcome. Nothing is enqueued when routing answers at once.
     */
    method Handle(req: Request, build: (string, Fields) -> Result<H -> Outcome<H>>) returns (reply: HttpReply)
      requires Valid()
      modifies this, runner
      ensures Valid()
      ensures Route(req, apiKey, registry, build).Reply? ==>
        reply == Route(req, apiKey, registry, build).reply &&
        runner.queue == old(runner.queue) && runner.states == old(runner.states) && runner.host == old(runner.host)
      ensures Route(req, apiKey, registry, build).Run? ==>
        var job := Job(old(nextId), Route(req, apiKey, registry, build).execute);
        var q := old(runner.queue) + [job];
        runner.queue == [] &&
        (runner.host, runner.states) == Drain(old(runner.host), old(runner.states)[job.id := Queued], q) &&
        reply == Complete(Resolved(job.execute(HostBefore(old(runner.host), q, |old(runner.queue)|)).result))
    {
      var d := Route(req, apiKey, registry, build);
      if d.Reply? {
        reply := d.reply;
        return;
      }
      var job := Job(nextId, d.execute);
      assert job.id !in runner.states;
      runner.Enqueue(job);
      nextId := nextId + 1;
      ghost var q := runner.queue;
      ghost var st0 := runner.states;
      ghost var h0 := runner.host;
      // ExternalEvent.Raise(): Revit calls the handler, which drains the queue.
      runner.Execute();
      DrainLast(h0, st0, q);
      DrainOthersDomain(h0, st0, q);
      reply := Complete(runner.states[job.id]);
    }
  }
}
