// The export actions of the bridge: export.nwc, export.dwg and export.pdf. A
// document is its list of views; what Revit's exporters do with a request is a
// parameter, and so are the desktop folder and the Revit version.

module Export {
  import opened Text
  import opened Seqs

  /** A view of the document: whether it is a 3D view and whether it is a template. */
  datatype ViewElem = ViewElem(id: int, name: string, is3D: bool, isTemplate: bool)

  // ---------------------------------------------------------------------------
  // SafeFileName
  // ---------------------------------------------------------------------------

  /** Path.GetInvalidFileNameChars on Windows: the control characters, '"', '<', '>', '|', ':', '*', '?', '\' and '/'. */
  predicate InvalidFileNameChar(c: char)
  {
    c < ' ' || c == '"' || c == '<' || c == '>' || c == '|' || c == ':' || c == '*' || c == '?' || c == '\\' || c == '/'
  }

  /** The name with each invalid file-name character replaced by '_', position by position. */
  function Sanitized(name: string): (r: string)
    ensures |r| == |name|
    ensures forall i :: 0 <= i < |name| ==> r[i] == if InvalidFileNameChar(name[i]) then '_' else name[i]
    decreases |name|
  {
    if name == [] then []
    else [if InvalidFileNameChar(name[0]) then '_' else name[0]] + Sanitized(name[1..])
  }

  /** SafeFileName: the StringBuilder loop over the name. */
  method SafeFileName(name: string) returns (r: string)
    ensures r == Sanitized(name)
  {
    r := [];
    var i := 0;
    while i < |name|
      invariant 0 <= i <= |name|
      invariant |r| == i
      invariant forall k :: 0 <= k < i ==> r[k] == Sanitized(name)[k]
    {
      var c := name[i];
      r := r + [if InvalidFileNameChar(c) then '_' else c];
      i := i + 1;
    }
  }

  /** A sanitised name has no invalid character left, and sanitising it again changes nothing. */
  lemma SanitizedIsSafe(name: string)
    ensures forall i :: 0 <= i < |Sanitized(name)| ==> !InvalidFileNameChar(Sanitized(name)[i])
    ensures Sanitized(Sanitized(name)) == Sanitized(name)
  {
  }

  /** A name with no invalid character is kept as it is. */
  lemma SanitizedKeepsSafeNames(name: string)
    requires forall i :: 0 <= i < |name| ==> !InvalidFileNameChar(name[i])
    ensures Sanitized(name) == name
  {
  }

  // ---------------------------------------------------------------------------
  // export.nwc: the target views
  // ---------------------------------------------------------------------------

  /** Only a 3D view that is not a template can be exported to Navisworks. */
  predicate Exportable(v: ViewElem)
  {
    v.is3D && !v.isTemplate
  }

  /** doc.GetElement(id): the view with that id. */
  function FindById(doc: seq<ViewElem>, id: int): (r: Option<ViewElem>)
    ensures r.Some? ==> r.value in doc && r.value.id == id
    ensures r.None? ==> forall i :: 0 <= i < |doc| ==> doc[i].id != id
    decreases |doc|
  {
    if doc == [] then None
    else if doc[0].id == id then Some(doc[0])
    else FindById(doc[1..], id)
  }

  /** The id, when it names an exportable view. */
  function IdCandidate(doc: seq<ViewElem>, id: int): (r: Option<int>)
  {
    match FindById(doc, id)
    case Some(v) => if Exportable(v) then Some(v.id) else None
    case None => None
  }

  /** The first exportable view whose name matches ignoring case. */
  function NameMatch(doc: seq<ViewElem>, name: string): (r: Option<ViewElem>)
    ensures r.Some? ==> r.value in doc && Exportable(r.value) && EqIgnoreCase(r.value.name, name)
    ensures r.None? ==> forall i :: 0 <= i < |doc| && Exportable(doc[i]) ==> !EqIgnoreCase(doc[i].name, name)
    decreases |doc|
  {
    if doc == [] then None
    else if Exportable(doc[0]) && EqIgnoreCase(doc[0].name, name) then Some(doc[0])
    else NameMatch(doc[1..], name)
  }

  function NameCandidate(doc: seq<ViewElem>, name: string): Option<int>
  {
    match NameMatch(doc, name) case Some(v) => Some(v.id) case None => None
  }

  function IdCandidates(doc: seq<ViewElem>): int -> Option<int> { (id: int) => IdCandidate(doc, id) }

  function NameCandidates(doc: seq<ViewElem>): string -> Option<int> { (n: string) => NameCandidate(doc, n) }

  datatype NwcRequest = NwcRequest(
    folder: Option<string>, filename: Option<string>, viewIds: Option<seq<int>>, viewId: Option<int>,
    viewName: Option<string>, viewNames: Option<seq<string>>)

  function OrNoIds(xs: Option<seq<int>>): seq<int> { if xs.Some? then xs.value else [] }
  function OrNoNames(xs: Option<seq<string>>): seq<string> { if xs.Some? then xs.value else [] }

  /**
   * The views each source proposes, in the order viewId, viewIds, viewName,
   * viewNames; a source that names no exportable view proposes None.
   */
  function Proposed(doc: seq<ViewElem>, req: NwcRequest): seq<Option<int>>
  {
    (if req.viewId.Some? && req.viewId.value > 0 then [IdCandidate(doc, req.viewId.value)] else [])
    + MapAll(OrNoIds(req.viewIds), IdCandidates(doc))
    + (if !IsBlankOpt(req.viewName) then [NameCandidate(doc, req.viewName.value)] else [])
    + MapAll(OrNoNames(req.viewNames), NameCandidates(doc))
  }

  /** The requested targets: each proposed view once, in the order first proposed. */
  function Requested(doc: seq<ViewElem>, req: NwcRequest): seq<int>
  {
    AppendNew([], Proposed(doc, req))
  }

  /** Appending the found values in two rounds is appending them all at once. */
  lemma {:induction false} AppendNewConcat<T>(start: seq<T>, a: seq<Option<T>>, b: seq<Option<T>>)
    ensures AppendNew(AppendNew(start, a), b) == AppendNew(start, a + b)
    decreases |b|
  {
    if b == [] {
      assert a + b == a;
    } else {
      AppendNewConcat(start, a, b[..|b| - 1]);
      assert (a + b)[..|a + b| - 1] == a + b[..|b| - 1];
      assert (a + b)[|a + b| - 1] == b[|b| - 1];
    }
  }

  /** The four source blocks of the target resolution, proposing views and skipping any already there. */
  method CollectTargets(doc: seq<ViewElem>, req: NwcRequest) returns (targets: seq<int>)
    ensures targets == Requested(doc, req)
  {
    var first := if req.viewId.Some? && req.viewId.value > 0 then [IdCandidate(doc, req.viewId.value)] else [];
    var byIds := MapAll(OrNoIds(req.viewIds), IdCandidates(doc));
    var byName := if !IsBlankOpt(req.viewName) then [NameCandidate(doc, req.viewName.value)] else [];
    var byNames := MapAll(OrNoNames(req.viewNames), NameCandidates(doc));
    targets := [];
    if req.viewId.Some? && req.viewId.value > 0 {
      var c := IdCandidate(doc, req.viewId.value);
      if c.Some? {
        targets := targets + [c.value];
      }
    }
    assert targets == AppendNew([], first);
    targets := AppendEachNew(targets, byIds);
    AppendNewConcat([], first, byIds);
    if !IsBlankOpt(req.viewName) {
      var c := NameCandidate(doc, req.viewName.value);
      if c.Some? && c.value !in targets {
        targets := targets + [c.value];
      }
    }
    assert targets == AppendNew(AppendNew([], first + byIds), byName);
    AppendNewConcat([], first + byIds, byName);
    targets := AppendEachNew(targets, byNames);
    AppendNewConcat([], first + byIds + byName, byNames);
  }

  /** The id names an exportable view of the document. */
  predicate ExportableId(doc: seq<ViewElem>, x: int)
  {
    exists i :: 0 <= i < |doc| && doc[i].id == x && Exportable(doc[i])
  }

  lemma IdCandidateExportable(doc: seq<ViewElem>, id: int)
    requires IdCandidate(doc, id).Some?
    ensures IdCandidate(doc, id).value == id && ExportableId(doc, id)
  {
    var v := FindById(doc, id).value;
    var i :| 0 <= i < |doc| && doc[i] == v;
  }

  lemma NameCandidateExportable(doc: seq<ViewElem>, name: string)
    requires NameCandidate(doc, name).Some?
    ensures ExportableId(doc, NameCandidate(doc, name).value)
  {
    var v := NameMatch(doc, name).value;
    var i :| 0 <= i < |doc| && doc[i] == v;
  }

  /** Every proposed id names an exportable view of the document. */
  lemma ProposedExportable(doc: seq<ViewElem>, req: NwcRequest, x: int)
    requires Some(x) in Proposed(doc, req)
    ensures ExportableId(doc, x)
  {
    var a := if req.viewId.Some? && req.viewId.value > 0 then [IdCandidate(doc, req.viewId.value)] else [];
    var b := MapAll(OrNoIds(req.viewIds), IdCandidates(doc));
    var c := if !IsBlankOpt(req.viewName) then [NameCandidate(doc, req.viewName.value)] else [];
    var d := MapAll(OrNoNames(req.viewNames), NameCandidates(doc));
    assert Proposed(doc, req) == a + b + c + d;
    if Some(x) in a {
      IdCandidateExportable(doc, req.viewId.value);
    } else if Some(x) in b {
      MapAllIndex(OrNoIds(req.viewIds), IdCandidates(doc));
      var k :| 0 <= k < |b| && b[k] == Some(x);
      IdCandidateExportable(doc, OrNoIds(req.viewIds)[k]);
    } else if Some(x) in c {
      NameCandidateExportable(doc, req.viewName.value);
    } else {
      assert Some(x) in d;
      MapAllIndex(OrNoNames(req.viewNames), NameCandidates(doc));
      var k :| 0 <= k < |d| && d[k] == Some(x);
      NameCandidateExportable(doc, OrNoNames(req.viewNames)[k]);
    }
  }

  /** The parts of Proposed, one per source. */
  lemma ProposedParts(doc: seq<ViewElem>, req: NwcRequest)
    ensures Proposed(doc, req) ==
      (if req.viewId.Some? && req.viewId.value > 0 then [IdCandidate(doc, req.viewId.value)] else [])
      + (MapAll(OrNoIds(req.viewIds), IdCandidates(doc))
      + (if !IsBlankOpt(req.viewName) then [NameCandidate(doc, req.viewName.value)] else [])
      + MapAll(OrNoNames(req.viewNames), NameCandidates(doc)))
  {
  }

  /** The requested targets are exportable views, each once, and exactly the proposed ones. */
  lemma RequestedExportable(doc: seq<ViewElem>, req: NwcRequest)
    ensures var r := Requested(doc, req);
      && (forall x :: x in r ==> ExportableId(doc, x))
      && (forall m, k :: 0 <= m < k < |r| ==> r[m] != r[k])
      && (forall x :: x in r <==> Some(x) in Proposed(doc, req))
  {
    AppendNewSpec([], Proposed(doc, req));
    forall x | x in Requested(doc, req) ensures ExportableId(doc, x) {
      ProposedExportable(doc, req, x);
    }
  }

  /** A viewId that names an exportable view is the first target. */
  lemma RequestedViewIdFirst(doc: seq<ViewElem>, req: NwcRequest)
    requires req.viewId.Some? && req.viewId.value > 0 && IdCandidate(doc, req.viewId.value).Some?
    ensures Requested(doc, req) != [] && Requested(doc, req)[0] == req.viewId.value
  {
    var a := [IdCandidate(doc, req.viewId.value)];
    var rest := MapAll(OrNoIds(req.viewIds), IdCandidates(doc))
      + (if !IsBlankOpt(req.viewName) then [NameCandidate(doc, req.viewName.value)] else [])
      + MapAll(OrNoNames(req.viewNames), NameCandidates(doc));
    ProposedParts(doc, req);
    IdCandidateExportable(doc, req.viewId.value);
    AppendNewConcat([], a, rest);
    assert AppendNew([], a) == [req.viewId.value] by {
      assert a[..0] == [];
    }
    AppendNewSpec([req.viewId.value], rest);
  }

  /** Every id of viewIds that names an exportable view is a target. */
  lemma RequestedHasIds(doc: seq<ViewElem>, req: NwcRequest, id: int)
    requires id in OrNoIds(req.viewIds) && IdCandidate(doc, id).Some?
    ensures id in Requested(doc, req)
  {
    RequestedExportable(doc, req);
    var b := MapAll(OrNoIds(req.viewIds), IdCandidates(doc));
    MapAllIndex(OrNoIds(req.viewIds), IdCandidates(doc));
    var k :| 0 <= k < |OrNoIds(req.viewIds)| && OrNoIds(req.viewIds)[k] == id;
    IdCandidateExportable(doc, id);
    assert b[k] == Some(id);
    assert Some(id) in Proposed(doc, req);
  }

  /** The view viewName finds is a target. */
  lemma RequestedHasName(doc: seq<ViewElem>, req: NwcRequest)
    requires !IsBlankOpt(req.viewName) && NameCandidate(doc, req.viewName.value).Some?
    ensures NameCandidate(doc, req.viewName.value).value in Requested(doc, req)
  {
    RequestedExportable(doc, req);
    assert NameCandidate(doc, req.viewName.value) in Proposed(doc, req);
  }

  /** Every view a name of viewNames finds is a target. */
  lemma RequestedHasNames(doc: seq<ViewElem>, req: NwcRequest, n: string)
    requires n in OrNoNames(req.viewNames) && NameCandidate(doc, n).Some?
    ensures NameCandidate(doc, n).value in Requested(doc, req)
  {
    RequestedExportable(doc, req);
    var d := MapAll(OrNoNames(req.viewNames), NameCandidates(doc));
    MapAllIndex(OrNoNames(req.viewNames), NameCandidates(doc));
    var k :| 0 <= k < |OrNoNames(req.viewNames)| && OrNoNames(req.viewNames)[k] == n;
    assert d[k] == NameCandidate(doc, n);
    assert NameCandidate(doc, n) in Proposed(doc, req);
  }

  /** The first exportable view of the document. */
  function FirstExportable(doc: seq<ViewElem>): (r: Option<ViewElem>)
    ensures r.Some? ==> r.value in doc && Exportable(r.value)
    ensures r.None? ==> forall i :: 0 <= i < |doc| ==> !Exportable(doc[i])
    decreases |doc|
  {
    if doc == [] then None
    else if Exportable(doc[0]) then Some(doc[0])
    else FirstExportable(doc[1..])
  }

  /**
   * The views to export: the requested ones, else the active view when it is an
   * exportable 3D view, else the first exportable view, else an error.
   */
  function NwcTargets(doc: seq<ViewElem>, activeId: int, req: NwcRequest): Result<seq<int>>
  {
    var ts := Requested(doc, req);
    if ts != [] then Ok(ts)
    else match IdCandidate(doc, activeId)
      case Some(a) => Ok([a])
      case None =>
        match FirstExportable(doc)
        case Some(v) => Ok([v.id])
        case None => Err("No 3D view available for NWC export.")
  }

  /**
   * The export fails exactly when the document has no exportable view; otherwise
   * there is at least one target, each an exportable view, none repeated, and the
   * requested ones are used whenever there are any.
   */
  lemma NwcTargetsSpec(doc: seq<ViewElem>, activeId: int, req: NwcRequest)
    ensures NwcTargets(doc, activeId, req).Err? <==> forall i :: 0 <= i < |doc| ==> !Exportable(doc[i])
    ensures NwcTargets(doc, activeId, req).Ok? ==>
      var ts := NwcTargets(doc, activeId, req).value;
      && ts != []
      && (forall x :: x in ts ==> ExportableId(doc, x))
      && (forall m, k :: 0 <= m < k < |ts| ==> ts[m] != ts[k])
    ensures Requested(doc, req) != [] ==> NwcTargets(doc, activeId, req) == Ok(Requested(doc, req))
    ensures Requested(doc, req) == [] && IdCandidate(doc, activeId).Some? ==>
      NwcTargets(doc, activeId, req) == Ok([activeId])
  {
    RequestedExportable(doc, req);
    var ts := Requested(doc, req);
    if ts != [] {
      assert ts[0] in ts;
      var i :| 0 <= i < |doc| && doc[i].id == ts[0] && Exportable(doc[i]);
    } else if IdCandidate(doc, activeId).Some? {
      IdCandidateExportable(doc, activeId);
      var i :| 0 <= i < |doc| && doc[i].id == activeId && Exportable(doc[i]);
    } else if FirstExportable(doc).Some? {
      var v := FirstExportable(doc).value;
      var i :| 0 <= i < |doc| && doc[i] == v;
    }
  }

  /** The target resolution: the collected targets, then the fallbacks. */
  method ResolveTargets(doc: seq<ViewElem>, activeId: int, req: NwcRequest) returns (r: Result<seq<int>>)
    ensures r == NwcTargets(doc, activeId, req)
  {
    var targets := CollectTargets(doc, req);
    if |targets| == 0 {
      var active := IdCandidate(doc, activeId);
      if active.Some? {
        targets := targets + [active.value];
        assert targets == [active.value];
      } else {
        var any := FirstExportable(doc);
        if any.None? {
          r := Err("No 3D view available for NWC export.");
          return;
        }
        targets := targets + [any.value.id];
        assert targets == [any.value.id];
      }
    }
    r := Ok(targets);
  }

  // ---------------------------------------------------------------------------
  // export.nwc: one file per target
  // ---------------------------------------------------------------------------

  /**
   * The file name without extension: with several targets and a file name, the
   * file name, '_' and the safe view name; with a file name, the file name; else
   * the safe view name.
   */
  function BaseName(count: nat, filename: Option<string>, viewName: string): string
  {
    if count > 1 && !IsBlankOpt(filename) then filename.value + "_" + Sanitized(viewName)
    else if !IsBlankOpt(filename) then filename.value
    else Sanitized(viewName)
  }

  /**
   * A given file name always heads the base name; without one the base name is
   * the view name made safe, with no invalid character; with several targets,
   * views whose safe names differ get different files, and with a single target
   * the file name is used as it is.
   */
  lemma BaseNameSpec(count: nat, filename: Option<string>, a: string, b: string)
    ensures !IsBlankOpt(filename) ==> StartsWith(BaseName(count, filename, a), filename.value)
    ensures IsBlankOpt(filename) ==>
      BaseName(count, filename, a) == Sanitized(a) &&
      forall i :: 0 <= i < |BaseName(count, filename, a)| ==> !InvalidFileNameChar(BaseName(count, filename, a)[i])
    ensures count > 1 && !IsBlankOpt(filename) && Sanitized(a) != Sanitized(b) ==>
      BaseName(count, filename, a) != BaseName(count, filename, b)
    ensures count <= 1 && !IsBlankOpt(filename) ==> BaseName(count, filename, a) == filename.value
  {
    SanitizedIsSafe(a);
    if count > 1 && !IsBlankOpt(filename) && Sanitized(a) != Sanitized(b) {
      var p := filename.value + "_";
      assert BaseName(count, filename, a) == p + Sanitized(a);
      assert BaseName(count, filename, b) == p + Sanitized(b);
      assert (p + Sanitized(a))[|p|..] == Sanitized(a);
      assert (p + Sanitized(b))[|p|..] == Sanitized(b);
    }
  }

  /** The base-name expression of the export loop. */
  method ComputeBaseName(count: nat, filename: Option<string>, viewName: string) returns (b: string)
    ensures b == BaseName(count, filename, viewName)
  {
    var safe := SafeFileName(viewName);
    b := if count > 1 && !IsBlankOpt(filename) then filename.value + "_" + safe
      else if !IsBlankOpt(filename) then filename.value else safe;
  }

  /** Path.Combine on Windows for a relative file name. */
  function CombinePath(folder: string, file: string): string
  {
    if folder == [] then file
    else if folder[|folder| - 1] in "\\/:" then folder + file
    else folder + "\\" + file
  }

  /** The folder asked for, else the desktop. */
  function FolderOf(folder: Option<string>, desktop: string): string
  {
    if folder.Some? then folder.value else desktop
  }

  /** One line of export.nwc's results: the path when the export ran, the error when it threw. */
  datatype NwcEntry = NwcEntry(ok: bool, viewId: int, viewName: string, path: Option<string>, error: Option<string>)

  /**
   * Document.Export of one view under a base name, through whichever overload this
   * Revit build offers: whether the file was written, or the exception's message.
   */
  type NwcExporter = (int, string) -> Result<bool>

  function ViewName(doc: seq<ViewElem>, id: int): string
  {
    match FindById(doc, id) case Some(v) => v.name case None => ""
  }

  function NwcEntryOf(doc: seq<ViewElem>, folder: string, count: nat, filename: Option<string>,
                      exporter: NwcExporter): int -> NwcEntry
  {
    (id: int) =>
      var name := ViewName(doc, id);
      var base := BaseName(count, filename, name);
      match exporter(id, base)
      case Ok(ok) => NwcEntry(ok, id, name, Some(CombinePath(folder, base + ".nwc")), None)
      case Err(e) => NwcEntry(false, id, name, None, Some(e))
  }

  lemma EntryOfUnfold(doc: seq<ViewElem>, folder: string, count: nat, filename: Option<string>,
                      exporter: NwcExporter, id: int)
    ensures var name := ViewName(doc, id);
      var base := BaseName(count, filename, name);
      NwcEntryOf(doc, folder, count, filename, exporter)(id) ==
        if exporter(id, base).Ok? then NwcEntry(exporter(id, base).value, id, name, Some(CombinePath(folder, base + ".nwc")), None)
        else NwcEntry(false, id, name, None, Some(exporter(id, base).error))
  {
  }

  datatype NwcReply = NwcReply(count: nat, results: seq<NwcEntry>)

  /** export.nwc: resolve the targets, then export each one, catching its failure. */
  method ExportNwc(doc: seq<ViewElem>, activeId: int, req: NwcRequest, desktop: string, exporter: NwcExporter)
    returns (r: Result<NwcReply>)
    ensures NwcTargets(doc, activeId, req).Err? ==> r == Err(NwcTargets(doc, activeId, req).error)
    ensures NwcTargets(doc, activeId, req).Ok? ==>
      var ts := NwcTargets(doc, activeId, req).value;
      r.Ok? && r.value.count == |ts| &&
      r.value.results == MapAll(ts, NwcEntryOf(doc, FolderOf(req.folder, desktop), |ts|, req.filename, exporter))
  {
    var folder := if req.folder.Some? then req.folder.value else desktop;
    var resolved := ResolveTargets(doc, activeId, req);
    if resolved.Err? {
      return Err(resolved.error);
    }
    var targets := resolved.value;
    ghost var mk := NwcEntryOf(doc, folder, |targets|, req.filename, exporter);
    var results: seq<NwcEntry> := [];
    var i := 0;
    while i < |targets|
      invariant 0 <= i <= |targets|
      invariant results == MapAll(targets[..i], mk)
    {
      var id := targets[i];
      var name := ViewName(doc, id);
      var baseName := ComputeBaseName(|targets|, req.filename, name);
      var outcome := exporter(id, baseName);
      var entry;
      if outcome.Ok? {
        entry := NwcEntry(outcome.value, id, name, Some(CombinePath(folder, baseName + ".nwc")), None);
      } else {
        entry := NwcEntry(false, id, name, None, Some(outcome.error));
      }
      EntryOfUnfold(doc, folder, |targets|, req.filename, exporter, id);
      assert entry == mk(id);
      MapAllPrefix(targets, i, mk);
      results := results + [entry];
      i := i + 1;
    }
    assert targets[..i] == targets;
    r := Ok(NwcReply(|results|, results));
    MapAllIndex(targets, mk);
  }

  /**
   * Each target yields exactly one result, in order: a failed export is reported
   * with its error and ok = false, a completed one with its .nwc path.
   */
  lemma NwcResultsSpec(doc: seq<ViewElem>, folder: string, ts: seq<int>, filename: Option<string>, exporter: NwcExporter)
    ensures var rs := MapAll(ts, NwcEntryOf(doc, folder, |ts|, filename, exporter));
      && |rs| == |ts|
      && forall i :: 0 <= i < |ts| ==>
        var base := BaseName(|ts|, filename, ViewName(doc, ts[i]));
        && rs[i].viewId == ts[i]
        && (exporter(ts[i], base).Err? <==> rs[i].error.Some?)
        && (rs[i].error.Some? ==> !rs[i].ok && rs[i].path.None?)
        && (rs[i].error.None? ==> rs[i].path == Some(CombinePath(folder, base + ".nwc")))
  {
    MapAllIndex(ts, NwcEntryOf(doc, folder, |ts|, filename, exporter));
  }

  // ---------------------------------------------------------------------------
  // export.dwg and export.pdf
  // ---------------------------------------------------------------------------

  datatype DwgRequest = DwgRequest(folder: Option<string>, filename: Option<string>, viewIds: Option<seq<int>>,
                                   exportSetupName: Option<string>)

  /** The DWG export options: Revit's defaults, or a predefined export setup of the document. */
  datatype DwgOptions = DefaultOptions | Predefined(setup: string)

  /** What export.dwg hands to Document.Export. */
  datatype DwgExport = DwgExport(folder: string, name: string, views: seq<int>, options: DwgOptions)

  /** The request's views, else the active view; the file name, else "export"; a named setup when it exists. */
  function PlanDwg(req: DwgRequest, desktop: string, activeId: int, hasSetup: string -> bool): DwgExport
  {
    var name := if req.filename.Some? then req.filename.value else "export";
    var views := if req.viewIds.Some? && |req.viewIds.value| > 0 then req.viewIds.value else [activeId];
    var opts := if !IsBlankOpt(req.exportSetupName) && hasSetup(req.exportSetupName.value)
      then Predefined(req.exportSetupName.value) else DefaultOptions;
    DwgExport(FolderOf(req.folder, desktop), name, views, opts)
  }

  datatype DwgReply = DwgReply(ok: bool, folder: string, name: string)

  /** Document.Export for DWG: Revit's answer, or the message of the exception it throws. */
  type DwgExporter = DwgExport -> Result<bool>

  /** export.dwg: Revit's answer for the planned export, with the folder and name used. */
  function ExportDwg(req: DwgRequest, desktop: string, activeId: int, hasSetup: string -> bool,
                     exporter: DwgExporter): Result<DwgReply>
  {
    var plan := PlanDwg(req, desktop, activeId, hasSetup);
    match exporter(plan)
    case Err(m) => Err(m)
    case Ok(ok) => Ok(DwgReply(ok, plan.folder, plan.name))
  }

  /**
   * The defaults of export.dwg: "export" for a missing file name, the active view
   * for missing or empty view ids, the desktop for a missing folder, and the
   * default options unless a named setup exists. The reply reports Revit's answer
   * and what was used; an exception of the export is the action's error.
   */
  lemma DwgDefaults(req: DwgRequest, desktop: string, activeId: int, hasSetup: string -> bool,
                    exporter: DwgExporter)
    ensures var p := PlanDwg(req, desktop, activeId, hasSetup);
      && (req.filename.None? ==> p.name == "export")
      && (req.filename.Some? ==> p.name == req.filename.value)
      && (req.folder.None? ==> p.folder == desktop)
      && ((req.viewIds.None? || req.viewIds.value == []) ==> p.views == [activeId])
      && (req.viewIds.Some? && req.viewIds.value != [] ==> p.views == req.viewIds.value)
      && (p.options.Predefined? <==> !IsBlankOpt(req.exportSetupName) && hasSetup(req.exportSetupName.value))
    ensures var r := ExportDwg(req, desktop, activeId, hasSetup, exporter);
      var p := PlanDwg(req, desktop, activeId, hasSetup);
      && (r.Ok? <==> exporter(p).Ok?)
      && (r.Ok? ==> r.value.ok == exporter(p).value && r.value.folder == p.folder && r.value.name == p.name)
      && (r.Err? ==> r.error == exporter(p).error)
  {
  }

  datatype PdfRequest = PdfRequest(folder: Option<string>, filename: Option<string>, viewOrSheetIds: Option<seq<int>>,
                                   combine: bool)

  /** What export.pdf hands to Document.Export. */
  datatype PdfExport = PdfExport(folder: string, name: string, ids: seq<int>, combine: bool)

  datatype PdfReply = PdfReply(ok: bool, path: string)

  /** Document.Export for PDF: Revit's answer, or the message of the exception it throws. */
  type PdfExporter = PdfExport -> Result<bool>

  /** export.pdf: only on Revit 2022 or newer; the file name defaults to "set". */
  function ExportPdf(req: PdfRequest, desktop: string, activeId: int, revit2022: bool,
                     exporter: PdfExporter): Result<PdfReply>
  {
    if !revit2022 then Err("PDF export requires Revit 2022 or newer.")
    else
      var folder := FolderOf(req.folder, desktop);
      var name := if req.filename.Some? then req.filename.value else "set";
      var ids := if req.viewOrSheetIds.Some? && |req.viewOrSheetIds.value| > 0 then req.viewOrSheetIds.value
        else [activeId];
      match exporter(PdfExport(folder, name, ids, req.combine))
      case Err(m) => Err(m)
      case Ok(ok) => Ok(PdfReply(ok, CombinePath(folder, name + ".pdf")))
  }

  /**
   * Before Revit 2022 export.pdf always fails; from then on it fails exactly when
   * the export throws, with its message, and otherwise reports Revit's answer and
   * a path ending in ".pdf", exporting the given ids or else the active view.
   */
  lemma ExportPdfSpec(req: PdfRequest, desktop: string, activeId: int, revit2022: bool, exporter: PdfExporter)
    ensures !revit2022 ==>
      ExportPdf(req, desktop, activeId, revit2022, exporter) == Err("PDF export requires Revit 2022 or newer.")
    ensures revit2022 ==>
      var r := ExportPdf(req, desktop, activeId, revit2022, exporter);
      var name := if req.filename.Some? then req.filename.value else "set";
      var ids := if req.viewOrSheetIds.Some? && req.viewOrSheetIds.value != [] then req.viewOrSheetIds.value
        else [activeId];
      var e := exporter(PdfExport(FolderOf(req.folder, desktop), name, ids, req.combine));
      && (r.Ok? <==> e.Ok?)
      && (r.Err? ==> r.error == e.error)
      && (r.Ok? ==> EndsWith(r.value.path, ".pdf") && r.value.ok == e.value)
  {
    if revit2022 {
      var folder := FolderOf(req.folder, desktop);
      var name := if req.filename.Some? then req.filename.value else "set";
      CombineEnds(folder, name + ".pdf");
      assert EndsWith(name + ".pdf", ".pdf");
    }
  }

  /** The combined path ends with the file name. */
  lemma CombineEnds(folder: string, file: string)
    ensures EndsWith(CombinePath(folder, file), file)
  {
    var r := CombinePath(folder, file);
    assert r[|r| - |file|..] == file;
  }
}
