// The documentation actions of the bridge (sheets.*, views.set_scope_box): title
// block choice, bulk sheet creation, sheet and view resolution, revision
// assignment, schedule layout and bulk sheet parameters. The Revit document is a
// set of record sequences; Revit calls whose outcome the model cannot see are
// parameters.

module Docs {
  import opened Text
  import opened Seqs

  /** A title block type: its family and type names. */
  datatype Titleblock = Titleblock(id: int, familyName: string, name: string)

  /** A sheet: id, name, number and its additional revision ids. */
  datatype Sheet = Sheet(id: int, name: string, number: string, revisions: seq<int>)

  /** A view: id, name, whether it is a template, its scope box and crop setting. */
  datatype DocView = DocView(id: int, name: string, isTemplate: bool, scopeBox: Option<int>, cropActive: bool)

  datatype Schedule = Schedule(id: int, name: string)

  // ---------------------------------------------------------------------------
  // Title blocks (sheets.create, sheets.create_bulk)
  // ---------------------------------------------------------------------------

  /** "Family: Type". */
  function Label(tb: Titleblock): string
  {
    tb.familyName + ": " + tb.name
  }

  function LabelOf(tb: Titleblock): string { Label(tb) }

  predicate MatchesTitleblock(tb: Titleblock, token: string)
  {
    EqIgnoreCase(tb.name, token) || EqIgnoreCase(Label(tb), token)
  }

  function FirstTitleblock(tbs: seq<Titleblock>, token: string): (r: Option<Titleblock>)
    ensures r.Some? ==> r.value in tbs && MatchesTitleblock(r.value, token)
    ensures r.None? ==> forall i :: 0 <= i < |tbs| ==> !MatchesTitleblock(tbs[i], token)
    decreases |tbs|
  {
    if tbs == [] then None
    else if MatchesTitleblock(tbs[0], token) then Some(tbs[0])
    else FirstTitleblock(tbs[1..], token)
  }

  /** The first ten labels, comma separated, as the error messages list them. */
  function Sample(tbs: seq<Titleblock>): string
  {
    Join(MapAll(if |tbs| <= 10 then tbs else tbs[..10], LabelOf), ", ")
  }

  /**
   * The title block for new sheets. A given token must match a type name or a
   * "Family: Type" label; without one, a single title block is used, several are
   * an error and none means sheets without a title block. `bulk` selects the
   * wording of sheets.create_bulk.
   */
  function ResolveTitleblock(tbs: seq<Titleblock>, token: Option<string>, bulk: bool): Result<Option<Titleblock>>
  {
    if !IsBlankOpt(token) then
      match FirstTitleblock(tbs, token.value)
      case Some(tb) => Ok(Some(tb))
      case None => Err("Titleblock '" + token.value + "' not found. Disponibles: " + Sample(tbs))
    else if |tbs| > 1 then
      if bulk then Err("Hay varios titleblocks en el proyecto. Para creaci\U{00F3}n masiva, especifica 'titleBlockType'. Ejemplos: " + Sample(tbs))
      else Err("Hay varios titleblocks en el proyecto. Especifica 'titleBlockType'. Ejemplos: " + Sample(tbs))
    else if |tbs| == 1 then Ok(Some(tbs[0]))
    else Ok(None)
  }

  /** Each outcome of the title block resolution happens exactly in its case. */
  lemma ResolveTitleblockCases(tbs: seq<Titleblock>, token: Option<string>, bulk: bool)
    ensures !IsBlankOpt(token) ==>
      (ResolveTitleblock(tbs, token, bulk).Ok? <==> exists i :: 0 <= i < |tbs| && MatchesTitleblock(tbs[i], token.value))
    ensures !IsBlankOpt(token) && ResolveTitleblock(tbs, token, bulk).Ok? ==>
      ResolveTitleblock(tbs, token, bulk).value.Some? &&
      MatchesTitleblock(ResolveTitleblock(tbs, token, bulk).value.value, token.value)
    ensures IsBlankOpt(token) ==>
      (ResolveTitleblock(tbs, token, bulk).Ok? <==> |tbs| <= 1) &&
      (ResolveTitleblock(tbs, token, bulk) == Ok(None) <==> tbs == [])
  {
    if !IsBlankOpt(token) && FirstTitleblock(tbs, token.value).Some? {
      var tb := FirstTitleblock(tbs, token.value).value;
      var i :| 0 <= i < |tbs| && tbs[i] == tb;
      assert MatchesTitleblock(tbs[i], token.value);
    }
  }

  // ---------------------------------------------------------------------------
  // Sheets
  // ---------------------------------------------------------------------------

  function SheetById(sheets: seq<Sheet>, id: int): (r: Option<Sheet>)
    ensures r.Some? ==> r.value in sheets && r.value.id == id
    ensures r.None? ==> forall i :: 0 <= i < |sheets| ==> sheets[i].id != id
    decreases |sheets|
  {
    if sheets == [] then None
    else if sheets[0].id == id then Some(sheets[0])
    else SheetById(sheets[1..], id)
  }

  predicate NameOrNumber(s: Sheet, token: string)
  {
    EqIgnoreCase(s.name, token) || EqIgnoreCase(s.number, token)
  }

  function SheetNamed(sheets: seq<Sheet>, token: string): (r: Option<Sheet>)
    ensures r.Some? ==> r.value in sheets && NameOrNumber(r.value, token)
    ensures r.None? ==> forall i :: 0 <= i < |sheets| ==> !NameOrNumber(sheets[i], token)
    decreases |sheets|
  {
    if sheets == [] then None
    else if NameOrNumber(sheets[0], token) then Some(sheets[0])
    else SheetNamed(sheets[1..], token)
  }

  /** FindSheet: a positive id that names a sheet, else a name or number match, else nothing. */
  function FindSheet(sheets: seq<Sheet>, id: int, nameOrNumber: Option<string>): Option<Sheet>
  {
    if id > 0 && SheetById(sheets, id).Some? then SheetById(sheets, id)
    else if !IsBlankOpt(nameOrNumber) then SheetNamed(sheets, nameOrNumber.value)
    else None
  }

  /** The id wins when it names a sheet; the name or number is only a fallback; a found sheet matches one of them. */
  lemma FindSheetSpec(sheets: seq<Sheet>, id: int, nameOrNumber: Option<string>)
    ensures id > 0 && (exists i :: 0 <= i < |sheets| && sheets[i].id == id) ==>
      FindSheet(sheets, id, nameOrNumber).Some? && FindSheet(sheets, id, nameOrNumber).value.id == id
    ensures FindSheet(sheets, id, nameOrNumber).Some? ==>
      var s := FindSheet(sheets, id, nameOrNumber).value;
      s in sheets && ((id > 0 && s.id == id) || (!IsBlankOpt(nameOrNumber) && NameOrNumber(s, nameOrNumber.value)))
    ensures IsBlankOpt(nameOrNumber) && (id <= 0 || forall i :: 0 <= i < |sheets| ==> sheets[i].id != id) ==>
      FindSheet(sheets, id, nameOrNumber).None?
  {
  }

  function SheetNotFound(id: Option<int>, name: Option<string>): string
  {
    if id.Some? && id.value > 0 then "Sheet " + NatToString(id.value) + " not found."
    else "Sheet '" + OrEmptyText(name) + "' not found."
  }

  function OrEmptyText(s: Option<string>): string
  {
    if s.Some? then s.value else ""
  }

  // ---------------------------------------------------------------------------
  // sheets.create
  // ---------------------------------------------------------------------------

  /**
   * sheets.create: resolve the title block, then add one sheet with id `newId`; a
   * blank number or name keeps the one Revit gives the new sheet (`defaultNumber`,
   * `defaultName`). A number another sheet holds, ignoring case, makes Revit's
   * SheetNumber setter throw `inUse`: the transaction is not committed and
   * nothing is created.
   */
  method SheetsCreate(tbs: seq<Titleblock>, titleBlockType: Option<string>, sheets: seq<Sheet>,
                      number: Option<string>, name: Option<string>, newId: int, defaultNumber: string, defaultName: string,
                      inUse: string)
    returns (r: Result<(int, Option<string>)>, sheets': seq<Sheet>)
    ensures ResolveTitleblock(tbs, titleBlockType, false).Err? ==>
      r == Err(ResolveTitleblock(tbs, titleBlockType, false).error) && sheets' == sheets
    ensures ResolveTitleblock(tbs, titleBlockType, false).Ok? && !IsBlankOpt(number) && NumberTaken(sheets, number.value) ==>
      r == Err(inUse) && sheets' == sheets
    ensures ResolveTitleblock(tbs, titleBlockType, false).Ok? && (IsBlankOpt(number) || !NumberTaken(sheets, number.value)) ==>
      var tb := ResolveTitleblock(tbs, titleBlockType, false).value;
      && r == Ok((newId, if tb.Some? then Some(Label(tb.value)) else None))
      && sheets' == sheets + [Sheet(newId, if IsBlankOpt(name) then defaultName else name.value,
                                    if IsBlankOpt(number) then defaultNumber else number.value, [])]
    ensures NumbersDistinct(sheets) && (!IsBlankOpt(number) || !NumberTaken(sheets, defaultNumber)) ==>
      NumbersDistinct(sheets')
  {
    var tb := ResolveTitleblock(tbs, titleBlockType, false);
    if tb.Err? {
      return Err(tb.error), sheets;
    }
    if number.Some? && !IsBlank(number.value) && HasNumber(sheets, number.value) {
      return Err(inUse), sheets;
    }
    var sheet := Sheet(newId, defaultName, defaultNumber, []);
    if number.Some? && !IsBlank(number.value) {
      sheet := sheet.(number := number.value);
    }
    if name.Some? && !IsBlank(name.value) {
      sheet := sheet.(name := name.value);
    }
    sheets' := sheets + [sheet];
    if NumbersDistinct(sheets) && !NumberTaken(sheets, sheet.number) {
      AppendKeepsDistinct(sheets, sheet);
    }
    r := Ok((newId, if tb.value.Some? then Some(Label(tb.value.value)) else None));
  }

  // ---------------------------------------------------------------------------
  // sheets.create_bulk
  // ---------------------------------------------------------------------------

  datatype SheetItem = SheetItem(number: Option<string>, name: Option<string>)

  /** A line of the report: the created sheet and its id, a skipped item, or a failed item with its error. */
  datatype Line = Line(id: int, number: Option<string>, name: Option<string>, message: string)

  datatype BulkState = BulkState(sheets: seq<Sheet>, created: seq<Line>, skipped: seq<Line>, failed: seq<Line>)

  /** Whether a sheet with this number exists already, ignoring case. */
  predicate NumberTaken(sheets: seq<Sheet>, number: string)
  {
    exists i :: 0 <= i < |sheets| && EqIgnoreCase(sheets[i].number, number)
  }

  function HasNumber(sheets: seq<Sheet>, number: string): (b: bool)
    ensures b <==> NumberTaken(sheets, number)
    decreases |sheets|
  {
    if sheets == [] then false
    else if EqIgnoreCase(sheets[|sheets| - 1].number, number) then true
    else
      var init := sheets[..|sheets| - 1];
      assert forall i :: 0 <= i < |init| ==> init[i] == sheets[i];
      HasNumber(init, number)
  }

  /**
   * Revit's answer to creating a sheet with a number: the id of the new sheet and
   * the default name Revit gave it, or the message of the exception
   * ViewSheet.Create or setting the number throws.
   */
  type Creator = (seq<Sheet>, string) -> Result<(int, string)>

  /** One item of the loop: a blank number fails, a taken number is skipped, anything else is created. */
  function BulkStep(st: BulkState, it: SheetItem, create: Creator): BulkState
  {
    if IsBlankOpt(it.number) then
      st.(failed := st.failed + [Line(0, it.number, it.name, "Missing sheet number")])
    else if HasNumber(st.sheets, it.number.value) then
      st.(skipped := st.skipped + [Line(0, it.number, it.name, "Already exists")])
    else match create(st.sheets, it.number.value)
      case Err(e) => st.(failed := st.failed + [Line(0, it.number, it.name, e)])
      case Ok(made) =>
        var name := if IsBlankOpt(it.name) then made.1 else it.name.value;
        st.(sheets := st.sheets + [Sheet(made.0, name, it.number.value, [])],
            created := st.created + [Line(made.0, it.number, it.name, "")])
  }

  function BulkAll(st: BulkState, items: seq<SheetItem>, create: Creator): BulkState
    decreases |items|
  {
    if items == [] then st else BulkAll(BulkStep(st, items[0], create), items[1..], create)
  }

  /** Every item lands in exactly one of the three lists. */
  lemma {:induction false} BulkCounts(st: BulkState, items: seq<SheetItem>, create: Creator)
    ensures var r := BulkAll(st, items, create);
      |r.created| + |r.skipped| + |r.failed| == |st.created| + |st.skipped| + |st.failed| + |items|
    decreases |items|
  {
    if items != [] {
      BulkCounts(BulkStep(st, items[0], create), items[1..], create);
    }
  }

  /**
   * No two sheets of the document share a number ignoring case before the bulk
   * creation, and none do after it: an item whose number is taken, by an older
   * sheet or by one created earlier in the same call, is skipped.
   */
  predicate NumbersDistinct(sheets: seq<Sheet>)
  {
    forall i, j :: 0 <= i < j < |sheets| ==> !EqIgnoreCase(sheets[i].number, sheets[j].number)
  }

  lemma {:induction false} BulkKeepsNumbersDistinct(st: BulkState, items: seq<SheetItem>, create: Creator)
    requires NumbersDistinct(st.sheets)
    ensures NumbersDistinct(BulkAll(st, items, create).sheets)
    ensures st.sheets <= BulkAll(st, items, create).sheets
    decreases |items|
  {
    if items != [] {
      var next := BulkStep(st, items[0], create);
      var it := items[0];
      if !IsBlankOpt(it.number) && !HasNumber(st.sheets, it.number.value) && create(st.sheets, it.number.value).Ok? {
        AppendKeepsDistinct(st.sheets, next.sheets[|st.sheets|]);
        assert next.sheets == st.sheets + [next.sheets[|st.sheets|]];
      }
      BulkKeepsNumbersDistinct(next, items[1..], create);
    }
  }

  /** A sheet whose number no sheet holds, ignoring case, keeps the numbers distinct. */
  lemma AppendKeepsDistinct(sheets: seq<Sheet>, s: Sheet)
    requires NumbersDistinct(sheets) && !NumberTaken(sheets, s.number)
    ensures NumbersDistinct(sheets + [s])
  {
    var all := sheets + [s];
    forall i, j | 0 <= i < j < |all| ensures !EqIgnoreCase(all[i].number, all[j].number) {
      if j == |sheets| {
        assert all[i] == sheets[i];
      }
    }
  }

  /**
   * A created item adds a sheet with its number and, when the item's name is
   * blank, the name Revit gave the new sheet.
   */
  lemma CreatedSheet(st: BulkState, it: SheetItem, create: Creator)
    requires it.number.Some? && !IsBlank(it.number.value) && !NumberTaken(st.sheets, it.number.value)
    requires create(st.sheets, it.number.value).Ok?
    ensures var made := create(st.sheets, it.number.value).value;
      BulkStep(st, it, create).sheets ==
        st.sheets + [Sheet(made.0, if IsBlankOpt(it.name) then made.1 else it.name.value, it.number.value, [])]
    ensures |BulkStep(st, it, create).created| == |st.created| + 1
  {
  }

  /** An item with a blank number always fails, whatever came before it. */
  lemma BlankNumberFails(st: BulkState, it: SheetItem, create: Creator)
    requires IsBlankOpt(it.number)
    ensures BulkStep(st, it, create) == st.(failed := st.failed + [Line(0, it.number, it.name, "Missing sheet number")])
  {
  }

  /** An item whose number exists already, ignoring case, is skipped and creates nothing. */
  lemma TakenNumberSkipped(st: BulkState, it: SheetItem, create: Creator)
    requires it.number.Some? && !IsBlank(it.number.value) && NumberTaken(st.sheets, it.number.value)
    ensures BulkStep(st, it, create) == st.(skipped := st.skipped + [Line(0, it.number, it.name, "Already exists")])
  {
  }

  datatype BulkReport = BulkReport(
    created: nat, skipped: nat, failed: nat,
    items: seq<Line>, skippedItems: seq<Line>, failedItems: seq<Line>, usedTitleBlock: Option<string>)

  lemma BulkAllHead(st: BulkState, items: seq<SheetItem>, i: nat, create: Creator)
    requires i < |items|
    ensures BulkAll(st, items[i..], create) == BulkAll(BulkStep(st, items[i], create), items[i + 1..], create)
  {
    assert items[i..][1..] == items[i + 1..];
  }

  /** One item of sheets.create_bulk: validate its number, skip a taken one, else create the sheet. */
  method CreateOne(st: BulkState, it: SheetItem, create: Creator) returns (st': BulkState)
    ensures st' == BulkStep(st, it, create)
  {
    if it.number.None? || IsBlank(it.number.value) {
      st' := st.(failed := st.failed + [Line(0, it.number, it.name, "Missing sheet number")]);
    } else if HasNumber(st.sheets, it.number.value) {
      st' := st.(skipped := st.skipped + [Line(0, it.number, it.name, "Already exists")]);
    } else {
      var made := create(st.sheets, it.number.value);
      if made.Err? {
        st' := st.(failed := st.failed + [Line(0, it.number, it.name, made.error)]);
      } else {
        var name := if it.name.None? || IsBlank(it.name.value) then made.value.1 else it.name.value;
        st' := st.(sheets := st.sheets + [Sheet(made.value.0, name, it.number.value, [])],
                   created := st.created + [Line(made.value.0, it.number, it.name, "")]);
      }
    }
  }

  /** sheets.create_bulk: resolve the title block, then create the items one by one. */
  method SheetsCreateBulk(tbs: seq<Titleblock>, titleBlockType: Option<string>, sheets: seq<Sheet>,
                          items: seq<SheetItem>, create: Creator)
    returns (r: Result<BulkReport>, sheets': seq<Sheet>)
    ensures ResolveTitleblock(tbs, titleBlockType, true).Err? ==>
      r == Err(ResolveTitleblock(tbs, titleBlockType, true).error) && sheets' == sheets
    ensures ResolveTitleblock(tbs, titleBlockType, true).Ok? ==>
      var st := BulkAll(BulkState(sheets, [], [], []), items, create);
      var tb := ResolveTitleblock(tbs, titleBlockType, true).value;
      && sheets' == st.sheets
      && r == Ok(BulkReport(|st.created|, |st.skipped|, |st.failed|, st.created, st.skipped, st.failed,
                            if tb.Some? then Some(Label(tb.value)) else None))
  {
    var tb := ResolveTitleblock(tbs, titleBlockType, true);
    if tb.Err? {
      return Err(tb.error), sheets;
    }
    var st := BulkState(sheets, [], [], []);
    ghost var goal := BulkAll(st, items, create);
    var i := 0;
    while i < |items|
      invariant 0 <= i <= |items|
      invariant BulkAll(st, items[i..], create) == goal
    {
      BulkAllHead(st, items, i, create);
      st := CreateOne(st, items[i], create);
      i := i + 1;
    }
    sheets' := st.sheets;
    var used := if tb.value.Some? then Some(Label(tb.value.value)) else None;
    r := Ok(BulkReport(|st.created|, |st.skipped|, |st.failed|, st.created, st.skipped, st.failed, used));
  }

  // ---------------------------------------------------------------------------
  // Targets given by ids, then by names without repeating an id
  // ---------------------------------------------------------------------------

  function SheetIdOf(s: Sheet): int { s.id }

  /** The sheet ids given that name sheets, in order (a repeated id stays repeated). */
  function SheetIdTargets(sheets: seq<Sheet>, ids: seq<int>): seq<int>
  {
    Keep(ids, (id: int) => SheetById(sheets, id).Some?)
  }

  function FoundSheet(sheets: seq<Sheet>): string -> Option<int>
  {
    (token: string) => match SheetNamed(sheets, token) case Some(s) => Some(s.id) case None => None
  }

  /** The target sheets of sheets.assign_revisions and sheets.set_params_bulk. */
  function SheetTargets(sheets: seq<Sheet>, ids: Option<seq<int>>, names: Option<seq<string>>): seq<int>
  {
    AppendNew(SheetIdTargets(sheets, OrEmptyIds(ids)), MapAll(OrEmptyNames(names), FoundSheet(sheets)))
  }

  function OrEmptyIds(xs: Option<seq<int>>): seq<int> { if xs.Some? then xs.value else [] }
  function OrEmptyNames(xs: Option<seq<string>>): seq<string> { if xs.Some? then xs.value else [] }

  /** A sheet resolved by name or number is a target, once, and every target is a sheet of the document. */
  lemma SheetTargetsSpec(sheets: seq<Sheet>, ids: Option<seq<int>>, names: Option<seq<string>>)
    ensures forall x :: x in SheetTargets(sheets, ids, names) ==> SheetById(sheets, x).Some?
    ensures forall t :: t in OrEmptyNames(names) && SheetNamed(sheets, t).Some? ==>
      SheetNamed(sheets, t).value.id in SheetTargets(sheets, ids, names)
  {
    var start := SheetIdTargets(sheets, OrEmptyIds(ids));
    var found := MapAll(OrEmptyNames(names), FoundSheet(sheets));
    AppendNewSpec(start, found);
    MapAllIndex(OrEmptyNames(names), FoundSheet(sheets));
    forall x | x in start ensures SheetById(sheets, x).Some? {
      KeepMembers(OrEmptyIds(ids), (id: int) => SheetById(sheets, id).Some?, x);
    }
    forall x | Some(x) in found ensures SheetById(sheets, x).Some? {
      var k :| 0 <= k < |found| && found[k] == Some(x);
      var s := SheetNamed(sheets, OrEmptyNames(names)[k]).value;
      var i :| 0 <= i < |sheets| && sheets[i] == s;
      SheetByIdFinds(sheets, i);
    }
    forall t | t in OrEmptyNames(names) && SheetNamed(sheets, t).Some?
      ensures SheetNamed(sheets, t).value.id in SheetTargets(sheets, ids, names)
    {
      var k :| 0 <= k < |OrEmptyNames(names)| && OrEmptyNames(names)[k] == t;
      assert found[k] == Some(SheetNamed(sheets, t).value.id);
    }
  }

  lemma {:induction false} SheetByIdFinds(sheets: seq<Sheet>, i: nat)
    requires i < |sheets|
    ensures SheetById(sheets, sheets[i].id).Some?
    decreases |sheets|
  {
    if i > 0 && sheets[0].id != sheets[i].id {
      SheetByIdFinds(sheets[1..], i - 1);
    }
  }

  method ResolveSheets(sheets: seq<Sheet>, ids: Option<seq<int>>, names: Option<seq<string>>) returns (ts: seq<int>)
    ensures ts == SheetTargets(sheets, ids, names)
  {
    var start := SheetIdTargets(sheets, OrEmptyIds(ids));
    ts := AppendEachNew(start, MapAll(OrEmptyNames(names), FoundSheet(sheets)));
  }

  // ---------------------------------------------------------------------------
  // sheets.assign_revisions
  // ---------------------------------------------------------------------------

  datatype Revision = Revision(id: int, description: string, date: Option<string>)

  /** The description the revision is found or created by; both blank is refused before anything runs. */
  function TargetDescription(revisionName: Option<string>, description: Option<string>): Result<string>
  {
    if IsBlankOpt(revisionName) && IsBlankOpt(description) then Err("revisionName or description is required.")
    else if IsBlankOpt(description) then Ok(revisionName.value)
    else Ok(description.value)
  }

  /** The description wins when it is not blank; the chosen text is never blank. */
  lemma TargetDescriptionSpec(revisionName: Option<string>, description: Option<string>)
    ensures TargetDescription(revisionName, description).Ok? <==> !(IsBlankOpt(revisionName) && IsBlankOpt(description))
    ensures TargetDescription(revisionName, description).Ok? ==> !IsBlank(TargetDescription(revisionName, description).value)
    ensures !IsBlankOpt(description) ==> TargetDescription(revisionName, description) == Ok(description.value)
  {
  }

  /** The position of the first revision whose description matches, ignoring case. */
  function RevisionIndex(revs: seq<Revision>, desc: string): (r: Option<nat>)
    ensures r.Some? ==> r.value < |revs| && EqIgnoreCase(revs[r.value].description, desc)
    ensures r.Some? ==> forall i :: 0 <= i < r.value ==> !EqIgnoreCase(revs[i].description, desc)
    ensures r.None? ==> forall i :: 0 <= i < |revs| ==> !EqIgnoreCase(revs[i].description, desc)
    decreases |revs|
  {
    if revs == [] then None
    else if EqIgnoreCase(revs[0].description, desc) then Some(0)
    else match RevisionIndex(revs[1..], desc) case Some(i) => Some(i + 1) case None => None
  }

  /** The revision used: the first whose description matches ignoring case, else a new one (id `newId`); a non-blank date is set. */
  function UseRevision(revs: seq<Revision>, desc: string, date: Option<string>, newId: int): Revision
  {
    var rev := match RevisionIndex(revs, desc) case Some(i) => revs[i] case None => Revision(newId, desc, None);
    if IsBlankOpt(date) then rev else rev.(date := date)
  }

  /** The revisions after the first transaction: the found one updated in place, or the new one appended. */
  function RevisionsAfter(revs: seq<Revision>, desc: string, date: Option<string>, newId: int): seq<Revision>
  {
    match RevisionIndex(revs, desc)
    case Some(i) => revs[i := UseRevision(revs, desc, date, newId)]
    case None => revs + [UseRevision(revs, desc, date, newId)]
  }

  /**
   * A matching revision is reused (same id, its description kept) and nothing is
   * added; otherwise exactly one revision with the target description is added.
   * The used revision is in the document afterwards either way.
   */
  lemma RevisionsAfterSpec(revs: seq<Revision>, desc: string, date: Option<string>, newId: int)
    ensures UseRevision(revs, desc, date, newId) in RevisionsAfter(revs, desc, date, newId)
    ensures (exists i :: 0 <= i < |revs| && EqIgnoreCase(revs[i].description, desc)) ==>
      |RevisionsAfter(revs, desc, date, newId)| == |revs| &&
      UseRevision(revs, desc, date, newId).id in MapAll(revs, RevisionIdOf)
    ensures (forall i :: 0 <= i < |revs| ==> !EqIgnoreCase(revs[i].description, desc)) ==>
      RevisionsAfter(revs, desc, date, newId) == revs + [UseRevision(revs, desc, date, newId)] &&
      UseRevision(revs, desc, date, newId).id == newId &&
      UseRevision(revs, desc, date, newId).description == desc
    ensures !IsBlankOpt(date) ==> UseRevision(revs, desc, date, newId).date == date
  {
    var idx := RevisionIndex(revs, desc);
    if idx.Some? {
      MapAllIndex(revs, RevisionIdOf);
      assert MapAll(revs, RevisionIdOf)[idx.value] == revs[idx.value].id;
      assert RevisionsAfter(revs, desc, date, newId)[idx.value] == UseRevision(revs, desc, date, newId);
    } else {
      assert RevisionsAfter(revs, desc, date, newId)[|revs|] == UseRevision(revs, desc, date, newId);
    }
  }

  function RevisionIdOf(r: Revision): int { r.id }

  /** The revision added to one sheet's list, unless it is there already. */
  function WithRevision(s: Sheet, rev: int): Sheet
  {
    if rev in s.revisions then s else s.(revisions := s.revisions + [rev])
  }

  /** Assigning is idempotent, keeps the old revisions in order, and leaves the revision on the sheet. */
  lemma WithRevisionSpec(s: Sheet, rev: int)
    ensures WithRevision(WithRevision(s, rev), rev) == WithRevision(s, rev)
    ensures s.revisions <= WithRevision(s, rev).revisions
    ensures rev in WithRevision(s, rev).revisions
    ensures WithRevision(s, rev) == s.(revisions := WithRevision(s, rev).revisions)
  {
  }

  /** The sheets after assigning `rev` to every target sheet. */
  function AssignAll(sheets: seq<Sheet>, targets: seq<int>, rev: int): (r: seq<Sheet>)
    ensures |r| == |sheets|
  {
    seq(|sheets|, i requires 0 <= i < |sheets| => if sheets[i].id in targets then WithRevision(sheets[i], rev) else sheets[i])
  }

  /** Re-assigning the same revision to the same sheets changes nothing. */
  lemma AssignTwice(sheets: seq<Sheet>, targets: seq<int>, rev: int)
    ensures AssignAll(AssignAll(sheets, targets, rev), targets, rev) == AssignAll(sheets, targets, rev)
  {
    var once := AssignAll(sheets, targets, rev);
    forall i | 0 <= i < |sheets| ensures AssignAll(once, targets, rev)[i] == once[i] {
      WithRevisionSpec(sheets[i], rev);
    }
  }

  /** The assignment loop: each target's list gains the revision unless it holds it; every target is reported. */
  method AssignToSheets(sheets: seq<Sheet>, targets: seq<int>, rev: int) returns (sheets': seq<Sheet>, assignedIds: seq<int>)
    requires forall k :: 0 <= k < |targets| ==> SheetById(sheets, targets[k]).Some?
    ensures sheets' == AssignAll(sheets, targets, rev)
    ensures assignedIds == targets
  {
    sheets' := sheets;
    assignedIds := [];
    var k := 0;
    while k < |targets|
      invariant 0 <= k <= |targets|
      invariant |sheets'| == |sheets|
      invariant sheets' == AssignAll(sheets, targets[..k], rev)
      invariant assignedIds == targets[..k]
    {
      var t := targets[k];
      var i := 0;
      while i < |sheets'|
        invariant 0 <= i <= |sheets'| == |sheets|
        invariant forall m :: 0 <= m < |sheets| ==>
          sheets'[m] == if m < i && sheets[m].id in targets[..k + 1] then WithRevision(sheets[m], rev)
                        else if sheets[m].id in targets[..k] then WithRevision(sheets[m], rev) else sheets[m]
      {
        if sheets'[i].id == t {
          WithRevisionSpec(sheets[i], rev);
          sheets' := sheets'[i := WithRevision(sheets'[i], rev)];
        }
        assert targets[..k + 1] == targets[..k] + [t];
        i := i + 1;
      }
      assert targets[..k + 1] == targets[..k] + [t];
      assignedIds := assignedIds + [t];
      k := k + 1;
    }
    assert targets[..k] == targets;
  }

  datatype RevisionReport = RevisionReport(revisionId: int, description: string, date: Option<string>,
                                           assignedCount: nat, sheets: seq<int>)

  /** sheets.assign_revisions: find or create the revision, resolve the sheets, and assign it to each. */
  method SheetsAssignRevisions(revs: seq<Revision>, sheets: seq<Sheet>, sheetIds: Option<seq<int>>,
                               sheetNames: Option<seq<string>>, revisionName: Option<string>,
                               description: Option<string>, date: Option<string>, newId: int)
    returns (r: Result<RevisionReport>, revs': seq<Revision>, sheets': seq<Sheet>)
    ensures TargetDescription(revisionName, description).Err? ==>
      r == Err("revisionName or description is required.") && revs' == revs && sheets' == sheets
    ensures TargetDescription(revisionName, description).Ok? ==>
      revs' == RevisionsAfter(revs, TargetDescription(revisionName, description).value, date, newId)
    ensures TargetDescription(revisionName, description).Ok? && SheetTargets(sheets, sheetIds, sheetNames) == [] ==>
      r == Err("No target sheets resolved.") && sheets' == sheets
    ensures TargetDescription(revisionName, description).Ok? && SheetTargets(sheets, sheetIds, sheetNames) != [] ==>
      var rev := UseRevision(revs, TargetDescription(revisionName, description).value, date, newId);
      var ts := SheetTargets(sheets, sheetIds, sheetNames);
      && sheets' == AssignAll(sheets, ts, rev.id)
      && r == Ok(RevisionReport(rev.id, rev.description, rev.date, |ts|, ts))
  {
    var desc := TargetDescription(revisionName, description);
    if desc.Err? {
      return Err(desc.error), revs, sheets;
    }
    // the revision is committed in its own transaction, before the sheets are resolved
    var rev := UseRevision(revs, desc.value, date, newId);
    revs' := RevisionsAfter(revs, desc.value, date, newId);
    var ts := ResolveSheets(sheets, sheetIds, sheetNames);
    if |ts| == 0 {
      return Err("No target sheets resolved."), revs', sheets;
    }
    SheetTargetsSpec(sheets, sheetIds, sheetNames);
    var assignedIds;
    sheets', assignedIds := AssignToSheets(sheets, ts, rev.id);
    r := Ok(RevisionReport(rev.id, rev.description, rev.date, |assignedIds|, assignedIds));
  }

  // ---------------------------------------------------------------------------
  // sheets.add_views
  // ---------------------------------------------------------------------------

  function ViewById(views: seq<DocView>, id: int): (r: Option<DocView>)
    ensures r.Some? ==> r.value in views && r.value.id == id
    ensures r.None? ==> forall i :: 0 <= i < |views| ==> views[i].id != id
    decreases |views|
  {
    if views == [] then None
    else if views[0].id == id then Some(views[0])
    else ViewById(views[1..], id)
  }

  /** The first non-template view with the name, ignoring case. */
  function ViewNamed(views: seq<DocView>, name: string): (r: Option<DocView>)
    ensures r.Some? ==> r.value in views && !r.value.isTemplate && EqIgnoreCase(r.value.name, name)
    decreases |views|
  {
    if views == [] then None
    else if !views[0].isTemplate && EqIgnoreCase(views[0].name, name) then Some(views[0])
    else ViewNamed(views[1..], name)
  }

  /** The views sheets.add_views tries: the ids as given, then the first view of each name (repeats kept). */
  function AddViewTargets(views: seq<DocView>, ids: Option<seq<int>>, names: Option<seq<string>>): seq<int>
  {
    OrEmptyIds(ids) + FlatMap(OrEmptyNames(names), (n: string) => match ViewNamed(views, n) case Some(v) => [v.id] case None => [])
  }

  /** Whether Viewport.CanAddViewToSheet allows the view, given the views placed so far in this call. */
  type CanAdd = (seq<int>, int) -> bool

  /** The placement loop: an id that is not a view, or a view Revit refuses, is skipped; the rest are placed. */
  function PlaceAll(views: seq<DocView>, ts: seq<int>, canAdd: CanAdd): (r: (seq<int>, seq<int>))
    decreases |ts|
  {
    if ts == [] then ([], [])
    else
      var prev := PlaceAll(views, ts[..|ts| - 1], canAdd);
      var vid := ts[|ts| - 1];
      if ViewById(views, vid).None? || !canAdd(prev.0, vid) then (prev.0, prev.1 + [vid])
      else (prev.0 + [vid], prev.1)
  }

  /** Every target is either added or skipped, every added id is a view, and only the targets appear. */
  lemma {:induction false} PlaceAllSpec(views: seq<DocView>, ts: seq<int>, canAdd: CanAdd)
    ensures |PlaceAll(views, ts, canAdd).0| + |PlaceAll(views, ts, canAdd).1| == |ts|
    ensures forall x :: x in PlaceAll(views, ts, canAdd).0 ==> x in ts && ViewById(views, x).Some?
    ensures forall x :: x in PlaceAll(views, ts, canAdd).1 ==> x in ts
    decreases |ts|
  {
    if ts != [] {
      var init := ts[..|ts| - 1];
      PlaceAllSpec(views, init, canAdd);
      assert ts == init + [ts[|ts| - 1]];
    }
  }

  method PlaceViews(views: seq<DocView>, ts: seq<int>, canAdd: CanAdd) returns (added: seq<int>, skipped: seq<int>)
    ensures (added, skipped) == PlaceAll(views, ts, canAdd)
  {
    added, skipped := [], [];
    var i := 0;
    while i < |ts|
      invariant 0 <= i <= |ts|
      invariant (added, skipped) == PlaceAll(views, ts[..i], canAdd)
    {
      assert ts[..i + 1][..i] == ts[..i];
      var vid := ts[i];
      var v := ViewById(views, vid);
      if v.None? || !canAdd(added, vid) {
        skipped := skipped + [vid];
      } else {
        added := added + [vid];
      }
      i := i + 1;
    }
    assert ts[..i] == ts;
  }

  datatype AddViewsReport = AddViewsReport(sheetId: int, added: seq<int>, skipped: seq<int>)

  /** sheets.add_views: the sheet must exist and some view must be named; each view is then placed or skipped. */
  method SheetsAddViews(sheets: seq<Sheet>, views: seq<DocView>, sheetId: int, sheetName: Option<string>,
                        viewIds: Option<seq<int>>, viewNames: Option<seq<string>>, canAdd: CanAdd)
    returns (r: Result<AddViewsReport>)
    ensures FindSheet(sheets, sheetId, sheetName).None? ==> r == Err(SheetNotFound(Some(sheetId), sheetName))
    ensures FindSheet(sheets, sheetId, sheetName).Some? && AddViewTargets(views, viewIds, viewNames) == [] ==>
      r == Err("No valid views to place on sheet.")
    ensures FindSheet(sheets, sheetId, sheetName).Some? && AddViewTargets(views, viewIds, viewNames) != [] ==>
      var placed := PlaceAll(views, AddViewTargets(views, viewIds, viewNames), canAdd);
      r == Ok(AddViewsReport(FindSheet(sheets, sheetId, sheetName).value.id, placed.0, placed.1))
  {
    var sheet := FindSheet(sheets, sheetId, sheetName);
    if sheet.None? {
      return Err(SheetNotFound(Some(sheetId), sheetName));
    }
    var ts := AddViewTargets(views, viewIds, viewNames);
    if |ts| == 0 {
      return Err("No valid views to place on sheet.");
    }
    var added, skipped := PlaceViews(views, ts, canAdd);
    r := Ok(AddViewsReport(sheet.value.id, added, skipped));
  }

  // ---------------------------------------------------------------------------
  // views.set_scope_box
  // ---------------------------------------------------------------------------

  function ViewIdOf(v: DocView): int { v.id }

  /** The target views: non-template views given by id (repeats kept), then by name without repeating an id. */
  function ScopeTargets(views: seq<DocView>, ids: Option<seq<int>>, names: Option<seq<string>>): seq<int>
  {
    AppendNew(Keep(OrEmptyIds(ids), (id: int) => ViewById(views, id).Some? && !ViewById(views, id).value.isTemplate),
              MapAll(OrEmptyNames(names), (n: string) => match ViewNamed(views, n) case Some(v) => Some(v.id) case None => None))
  }

  /** A scope box element: its id and name. */
  datatype ScopeBox = ScopeBox(id: int, name: string)

  function ScopeBoxNamed(boxes: seq<ScopeBox>, name: string): (r: Option<ScopeBox>)
    ensures r.Some? ==> r.value in boxes && EqIgnoreCase(r.value.name, name)
    ensures r.None? ==> forall i :: 0 <= i < |boxes| ==> !EqIgnoreCase(boxes[i].name, name)
    decreases |boxes|
  {
    if boxes == [] then None
    else if EqIgnoreCase(boxes[0].name, name) then Some(boxes[0])
    else ScopeBoxNamed(boxes[1..], name)
  }

  /** The view with its scope box set and, when asked, its crop box switched. */
  function Scoped(v: DocView, box: int, cropActive: Option<bool>): DocView
  {
    v.(scopeBox := Some(box), cropActive := if cropActive.Some? then cropActive.value else v.cropActive)
  }

  /** Every view among the targets gets the scope box; the others stay as they are. */
  function ScopeAll(views: seq<DocView>, ts: seq<int>, box: int, cropActive: Option<bool>): (r: seq<DocView>)
    ensures |r| == |views|
    ensures forall i :: 0 <= i < |views| ==> r[i] == if views[i].id in ts then Scoped(views[i], box, cropActive) else views[i]
  {
    seq(|views|, i requires 0 <= i < |views| => if views[i].id in ts then Scoped(views[i], box, cropActive) else views[i])
  }

  datatype ScopeReport = ScopeReport(updatedCount: nat, views: seq<int>, scopeBox: string)

  /** Whether views.set_scope_box goes through: a named, existing box and targets that all have the parameter. */
  predicate ScopeApplies(boxes: seq<ScopeBox>, ts: seq<int>, scopeBoxName: Option<string>, editable: int -> bool)
  {
    && !IsBlankOpt(scopeBoxName)
    && ScopeBoxNamed(boxes, scopeBoxName.value).Some?
    && ts != []
    && forall k :: 0 <= k < |ts| ==> editable(ts[k])
  }

  /** The name of the view with the id, as the scope-box error reports it. */
  function ViewNameOf(views: seq<DocView>, id: int): string
  {
    var v := ViewById(views, id);
    if v.Some? then v.value.name else ""
  }

  /**
   * views.set_scope_box. `editable` says which views have an editable scope-box
   * parameter; a target without one aborts the whole transaction.
   */
  method ViewsSetScopeBox(boxes: seq<ScopeBox>, views: seq<DocView>, viewIds: Option<seq<int>>,
                          viewNames: Option<seq<string>>, scopeBoxName: Option<string>, cropActive: Option<bool>,
                          editable: int -> bool)
    returns (r: Result<ScopeReport>, views': seq<DocView>)
    ensures IsBlankOpt(scopeBoxName) ==> r == Err("scopeBoxName is required.")
    ensures !IsBlankOpt(scopeBoxName) && ScopeBoxNamed(boxes, scopeBoxName.value).None? ==>
      r == Err("Scope box '" + scopeBoxName.value + "' not found.")
    ensures (!IsBlankOpt(scopeBoxName) && ScopeBoxNamed(boxes, scopeBoxName.value).Some? &&
             ScopeTargets(views, viewIds, viewNames) == []) ==> r == Err("No target views resolved.")
    ensures (!IsBlankOpt(scopeBoxName) && ScopeBoxNamed(boxes, scopeBoxName.value).Some? && r.Err? &&
             ScopeTargets(views, viewIds, viewNames) != []) ==>
      var ts := ScopeTargets(views, viewIds, viewNames);
      exists k :: 0 <= k < |ts| && !editable(ts[k]) && (forall m :: 0 <= m < k ==> editable(ts[m])) &&
        r == Err("View " + ViewNameOf(views, ts[k]) + " has no editable scope-box parameter.")
    ensures r.Ok? <==> ScopeApplies(boxes, ScopeTargets(views, viewIds, viewNames), scopeBoxName, editable)
    ensures r.Err? ==> views' == views
    ensures r.Ok? ==>
      var box := ScopeBoxNamed(boxes, scopeBoxName.value).value;
      var ts := ScopeTargets(views, viewIds, viewNames);
      r.value == ScopeReport(|ts|, ts, box.name) && views' == ScopeAll(views, ts, box.id, cropActive)
  {
    if scopeBoxName.None? || IsBlank(scopeBoxName.value) {
      return Err("scopeBoxName is required."), views;
    }
    var box := ScopeBoxNamed(boxes, scopeBoxName.value);
    if box.None? {
      return Err("Scope box '" + scopeBoxName.value + "' not found."), views;
    }
    var ts := ScopeTargets(views, viewIds, viewNames);
    if |ts| == 0 {
      return Err("No target views resolved."), views;
    }
    var k := 0;
    while k < |ts|
      invariant 0 <= k <= |ts|
      invariant forall m :: 0 <= m < k ==> editable(ts[m])
    {
      if !editable(ts[k]) {
        return Err("View " + ViewNameOf(views, ts[k]) + " has no editable scope-box parameter."), views;
      }
      k := k + 1;
    }
    views' := ScopeAll(views, ts, box.value.id, cropActive);
    r := Ok(ScopeReport(|ts|, ts, box.value.name));
  }

  // ---------------------------------------------------------------------------
  // sheets.add_schedules: the grid layout
  // ---------------------------------------------------------------------------

  /** The grid cell of the i-th schedule: column i mod cols and row i div cols, or a single column when cols <= 0. */
  function Cell(i: nat, cols: int): (c: (nat, nat))
  {
    if cols <= 0 then (0, i) else (i % cols, i / cols)
  }

  /** Cells fill rows left to right: the column is below cols, and distinct schedules get distinct cells. */
  lemma CellSpec(i: nat, j: nat, cols: int)
    ensures cols > 0 ==> Cell(i, cols).0 < cols && i == Cell(i, cols).1 * cols + Cell(i, cols).0
    ensures i != j ==> Cell(i, cols) != Cell(j, cols)
  {
  }

  /** The position (metres) of the i-th schedule: origin + (col·dx, row·dy). */
  function Position(ox: real, oy: real, dx: real, dy: real, cols: int, i: nat): (real, real)
  {
    (ox + (Cell(i, cols).0 as real) * dx, oy + (Cell(i, cols).1 as real) * dy)
  }

  /** Each attempt: the schedule and where it goes; the i-th schedule always goes to the i-th cell. */
  function Attempts(schedules: seq<Schedule>, ox: real, oy: real, dx: real, dy: real, cols: int): (r: seq<(Schedule, (real, real))>)
    ensures |r| == |schedules|
    ensures forall i :: 0 <= i < |schedules| ==> r[i] == (schedules[i], Position(ox, oy, dx, dy, cols, i))
  {
    seq(|schedules|, i requires 0 <= i < |schedules| => (schedules[i], Position(ox, oy, dx, dy, cols, i)))
  }

  /**
   * ScheduleSheetInstance.Create on the sheet, for a schedule id at a position:
   * the id of the new instance, or the message of the exception it throws.
   */
  type Places = ((int, (real, real))) -> Result<int>

  /** A failed placement as reported: the schedule's id and name and the exception's message. */
  datatype PlaceFailure = PlaceFailure(scheduleId: int, scheduleName: string, error: string)

  /** The reported lists of the placement loop: the new instance ids, and the failures, each in order. */
  function Placements(attempts: seq<(Schedule, (real, real))>, places: Places): (seq<int>, seq<PlaceFailure>)
    decreases |attempts|
  {
    if attempts == [] then ([], [])
    else
      var a := attempts[0];
      var rest := Placements(attempts[1..], places);
      match places((a.0.id, a.1))
      case Ok(id) => ([id] + rest.0, rest.1)
      case Err(m) => (rest.0, [PlaceFailure(a.0.id, a.0.name, m)] + rest.1)
  }

  /**
   * Every attempt is reported once: a placed id is the instance some attempt
   * created, and a failure names the schedule of an attempt that threw, with
   * its message; when every attempt succeeds nothing fails.
   */
  lemma {:induction false} PlacementsSpec(attempts: seq<(Schedule, (real, real))>, places: Places)
    ensures var r := Placements(attempts, places);
      && |r.0| + |r.1| == |attempts|
      && (forall id :: id in r.0 ==> exists k :: 0 <= k < |attempts| && places((attempts[k].0.id, attempts[k].1)) == Ok(id))
      && (forall f :: f in r.1 ==>
            (exists k :: 0 <= k < |attempts| && attempts[k].0 == Schedule(f.scheduleId, f.scheduleName) &&
                         places((attempts[k].0.id, attempts[k].1)) == Err(f.error)))
      && ((forall k :: 0 <= k < |attempts| ==> places((attempts[k].0.id, attempts[k].1)).Ok?) ==> r.1 == [])
    decreases |attempts|
  {
    if attempts != [] {
      var rest := attempts[1..];
      PlacementsSpec(rest, places);
      assert forall k :: 0 <= k < |rest| ==> rest[k] == attempts[k + 1];
    }
  }

  /** One more attempt adds its instance id or its failure at the end of the reported lists. */
  lemma {:induction false} PlacementsAppend(attempts: seq<(Schedule, (real, real))>, a: (Schedule, (real, real)),
                                            places: Places)
    ensures var r := Placements(attempts, places);
      Placements(attempts + [a], places) ==
        match places((a.0.id, a.1))
        case Ok(id) => (r.0 + [id], r.1)
        case Err(m) => (r.0, r.1 + [PlaceFailure(a.0.id, a.0.name, m)])
    decreases |attempts|
  {
    if attempts == [] {
      assert attempts + [a] == [a];
      assert [a][1..] == [];
      assert Placements([], places) == ([], []);
      if places((a.0.id, a.1)).Ok? {
        var x := places((a.0.id, a.1)).value;
        assert [x] + [] == [] + [x];
      } else {
        var g := PlaceFailure(a.0.id, a.0.name, places((a.0.id, a.1)).error);
        assert [g] + [] == [] + [g];
      }
    } else {
      var xs := attempts + [a];
      assert xs[0] == attempts[0];
      assert xs[1..] == attempts[1..] + [a];
      PlacementsAppend(attempts[1..], a, places);
      var h := attempts[0];
      var r := Placements(attempts[1..], places);
      if places((h.0.id, h.1)).Ok? && places((a.0.id, a.1)).Ok? {
        var x, y := places((h.0.id, h.1)).value, places((a.0.id, a.1)).value;
        assert [x] + (r.0 + [y]) == ([x] + r.0) + [y];
      } else if places((h.0.id, h.1)).Err? && places((a.0.id, a.1)).Err? {
        var f := PlaceFailure(h.0.id, h.0.name, places((h.0.id, h.1)).error);
        var g := PlaceFailure(a.0.id, a.0.name, places((a.0.id, a.1)).error);
        assert [f] + (r.1 + [g]) == ([f] + r.1) + [g];
      }
    }
  }

  /**
   * The placement loop: `i` advances for every schedule, placed or not, so a
   * failure leaves its cell empty rather than shifting the later schedules.
   */
  method PlaceSchedules(schedules: seq<Schedule>, ox: real, oy: real, dx: real, dy: real, cols: int, places: Places)
    returns (placed: seq<int>, failed: seq<PlaceFailure>)
    ensures (placed, failed) == Placements(Attempts(schedules, ox, oy, dx, dy, cols), places)
  {
    var attempts := Attempts(schedules, ox, oy, dx, dy, cols);
    placed, failed := [], [];
    var i := 0;
    while i < |schedules|
      invariant 0 <= i <= |schedules|
      invariant (placed, failed) == Placements(attempts[..i], places)
    {
      var sch := schedules[i];
      assert attempts[..i + 1] == attempts[..i] + [attempts[i]];
      PlacementsAppend(attempts[..i], attempts[i], places);
      var made := places((sch.id, Position(ox, oy, dx, dy, cols, i)));
      if made.Ok? {
        placed := placed + [made.value];
      } else {
        failed := failed + [PlaceFailure(sch.id, sch.name, made.error)];
      }
      i := i + 1;
    }
    assert attempts[..i] == attempts;
  }

  function ScheduleById(schedules: seq<Schedule>, id: int): (r: Option<Schedule>)
    ensures r.Some? ==> r.value in schedules && r.value.id == id
    decreases |schedules|
  {
    if schedules == [] then None
    else if schedules[0].id == id then Some(schedules[0])
    else ScheduleById(schedules[1..], id)
  }

  function ScheduleNamed(schedules: seq<Schedule>, name: string): (r: Option<Schedule>)
    ensures r.Some? ==> r.value in schedules && EqIgnoreCase(r.value.name, name)
    decreases |schedules|
  {
    if schedules == [] then None
    else if EqIgnoreCase(schedules[0].name, name) then Some(schedules[0])
    else ScheduleNamed(schedules[1..], name)
  }

  /** The schedules to place: those given by id (repeats kept), then by name without repeating an id. */
  function ScheduleTargets(schedules: seq<Schedule>, ids: Option<seq<int>>, names: Option<seq<string>>): seq<int>
  {
    AppendNew(Keep(OrEmptyIds(ids), (id: int) => ScheduleById(schedules, id).Some?),
              MapAll(OrEmptyNames(names), (n: string) => match ScheduleNamed(schedules, n) case Some(s) => Some(s.id) case None => None))
  }

  function ScheduleOf(schedules: seq<Schedule>): int -> Schedule
  {
    (id: int) => match ScheduleById(schedules, id) case Some(s) => s case None => Schedule(id, "")
  }

  datatype SchedulesReport = SchedulesReport(sheetId: int, placedCount: nat, placed: seq<int>, failed: seq<PlaceFailure>)

  /**
   * sheets.add_schedules (positions in metres; the conversion to feet is Revit's):
   * a missing sheet and an empty schedule list are the errors; otherwise every
   * schedule is tried in its cell and the report lists the new instances and
   * the failures.
   */
  method SheetsAddSchedules(sheets: seq<Sheet>, schedules: seq<Schedule>, sheetId: Option<int>, sheetName: Option<string>,
                            scheduleIds: Option<seq<int>>, scheduleNames: Option<seq<string>>,
                            ox: real, oy: real, dx: real, dy: real, cols: int, places: Places)
    returns (r: Result<SchedulesReport>)
    ensures var sheet := FindSheet(sheets, if sheetId.Some? then sheetId.value else 0, sheetName);
      var ts := MapAll(ScheduleTargets(schedules, scheduleIds, scheduleNames), ScheduleOf(schedules));
      && (r.Ok? <==> sheet.Some? && ts != [])
      && (sheet.None? ==> r == Err(SheetNotFound(sheetId, sheetName)))
      && (sheet.Some? && ts == [] ==> r == Err("No schedules to place."))
      && (r.Ok? ==>
            var (placed, failed) := Placements(Attempts(ts, ox, oy, dx, dy, cols), places);
            r.value == SchedulesReport(sheet.value.id, |placed|, placed, failed))
  {
    var sheet := FindSheet(sheets, if sheetId.Some? then sheetId.value else 0, sheetName);
    if sheet.None? {
      return Err(SheetNotFound(sheetId, sheetName));
    }
    var ts := MapAll(ScheduleTargets(schedules, scheduleIds, scheduleNames), ScheduleOf(schedules));
    if |ts| == 0 {
      return Err("No schedules to place.");
    }
    var placed, failed := PlaceSchedules(ts, ox, oy, dx, dy, cols, places);
    r := Ok(SchedulesReport(sheet.value.id, |placed|, placed, failed));
  }

  // ---------------------------------------------------------------------------
  // sheets.set_params_bulk
  // ---------------------------------------------------------------------------

  /** A value of the `set` object. */
  datatype Value = VBool(b: bool) | VNum(n: real) | VText(s: string) | VNull

  datatype Storage = StringStorage | DoubleStorage | IntegerStorage | ElementIdStorage

  /** A parameter as LookupParameter finds it on a sheet. */
  datatype Param = Param(readOnly: bool, storage: Storage)

  /** What Parameter.Set receives. */
  datatype Written = WText(s: string) | WDouble(d: real) | WInt(i: int)

  /**
   * The .NET conversions the action relies on (Convert.ToString, ToDouble,
   * ToInt32); None means the conversion throws.
   */
  datatype Conversions = Conversions(
    toText: Value -> string, toDouble: Value -> Result<real>, toInt32: Value -> Result<int>)

  /** The value written for one storage type; a bool becomes 1 or 0 in an integer parameter. */
  function Convert(v: Value, st: Storage, conv: Conversions): Result<Written>
    requires st != ElementIdStorage
  {
    match st
    case StringStorage => Ok(WText(conv.toText(v)))
    case DoubleStorage => if conv.toDouble(v).Ok? then Ok(WDouble(conv.toDouble(v).value)) else Err(conv.toDouble(v).error)
    case IntegerStorage =>
      if v.VBool? then Ok(WInt(if v.b then 1 else 0))
      else if conv.toInt32(v).Ok? then Ok(WInt(conv.toInt32(v).value)) else Err(conv.toInt32(v).error)
  }

  lemma BoolToInteger(b: bool, conv: Conversions)
    ensures Convert(VBool(b), IntegerStorage, conv) == Ok(WInt(if b then 1 else 0))
  {
  }

  /** A failure entry: the sheet, the parameter (empty for a conversion exception) and the reason. */
  datatype Failure = Failure(sheet: string, param: string, reason: string)

  /** The per-sheet outcome: writes done, failures logged, and whether an exception aborted the sheet. */
  datatype SheetOutcome = SheetOutcome(writes: seq<(string, Written)>, failures: seq<Failure>, aborted: Option<string>)

  /**
   * The inner loop for one sheet: a missing or read-only parameter and an
   * ElementId parameter add a failure; a value that does not convert aborts the
   * rest of the sheet with the exception's message.
   */
  function SetOnSheet(s: Sheet, entries: seq<(string, Value)>, lookup: (int, string) -> Option<Param>, conv: Conversions): SheetOutcome
    decreases |entries|
  {
    if entries == [] then SheetOutcome([], [], None)
    else
      var key := entries[0].0;
      var p := lookup(s.id, key);
      var rest := SetOnSheet(s, entries[1..], lookup, conv);
      if p.None? || p.value.readOnly then
        rest.(failures := [Failure(s.name, key, "Param not found or read-only")] + rest.failures)
      else if p.value.storage == ElementIdStorage then
        rest.(failures := [Failure(s.name, key, "ElementId unsupported in this action")] + rest.failures)
      else match Convert(entries[0].1, p.value.storage, conv)
        case Err(m) => SheetOutcome([], [], Some(m))
        case Ok(w) => rest.(writes := [(key, w)] + rest.writes)
  }

  /** A sheet on which every parameter converts is updated, with one write or one failure per entry. */
  lemma {:induction false} SetOnSheetSpec(s: Sheet, entries: seq<(string, Value)>, lookup: (int, string) -> Option<Param>, conv: Conversions)
    ensures SetOnSheet(s, entries, lookup, conv).aborted.None? ==>
      |SetOnSheet(s, entries, lookup, conv).writes| + |SetOnSheet(s, entries, lookup, conv).failures| == |entries|
    ensures forall k :: 0 <= k < |entries| && (lookup(s.id, entries[k].0).None? || lookup(s.id, entries[k].0).value.readOnly) ==>
      SetOnSheet(s, entries, lookup, conv).aborted.Some? ||
      Failure(s.name, entries[k].0, "Param not found or read-only") in SetOnSheet(s, entries, lookup, conv).failures
    decreases |entries|
  {
    if entries != [] {
      SetOnSheetSpec(s, entries[1..], lookup, conv);
      forall k | 1 <= k < |entries| ensures entries[k] == entries[1..][k - 1] {
      }
    }
  }

  datatype ParamsReport = ParamsReport(updatedCount: nat, sheets: seq<int>, failed: seq<Failure>)

  /** The failures logged before an exception are kept, and the exception adds one more. */
  function FailuresOf(o: SheetOutcome, s: Sheet): seq<Failure>
  {
    o.failures + if o.aborted.Some? then [Failure(s.name, "", o.aborted.value)] else []
  }

  /** The outer loop over the target sheets. */
  function SetAll(sheets: seq<Sheet>, ts: seq<int>, entries: seq<(string, Value)>,
                  lookup: (int, string) -> Option<Param>, conv: Conversions): (seq<int>, seq<Failure>)
    decreases |ts|
  {
    if ts == [] then ([], [])
    else
      var prev := SetAll(sheets, ts[..|ts| - 1], entries, lookup, conv);
      var step := SheetStep(sheets, ts[|ts| - 1], entries, lookup, conv);
      (prev.0 + step.0, prev.1 + step.1)
  }

  /** One target sheet: it is listed as updated unless a conversion aborted it. */
  function SheetStep(sheets: seq<Sheet>, t: int, entries: seq<(string, Value)>,
                     lookup: (int, string) -> Option<Param>, conv: Conversions): (r: (seq<int>, seq<Failure>))
    ensures |r.0| <= 1 && (r.0 != [] ==> r.0 == [t])
  {
    var s := match SheetById(sheets, t) case Some(s) => s case None => Sheet(t, "", "", []);
    var o := SetOnSheet(s, entries, lookup, conv);
    (if o.aborted.None? then [s.id] else [], FailuresOf(o, s))
  }

  /** Updated sheets are targets, at most one entry per target. */
  lemma {:induction false} SetAllSpec(sheets: seq<Sheet>, ts: seq<int>, entries: seq<(string, Value)>,
                                      lookup: (int, string) -> Option<Param>, conv: Conversions)
    ensures |SetAll(sheets, ts, entries, lookup, conv).0| <= |ts|
    ensures forall x :: x in SetAll(sheets, ts, entries, lookup, conv).0 ==> x in ts
    decreases |ts|
  {
    if ts != [] {
      var init := ts[..|ts| - 1];
      SetAllSpec(sheets, init, entries, lookup, conv);
      assert ts == init + [ts[|ts| - 1]];
    }
  }

  /** The outer loop over the target sheets. */
  method SetOnTargets(sheets: seq<Sheet>, ts: seq<int>, entries: seq<(string, Value)>,
                      lookup: (int, string) -> Option<Param>, conv: Conversions)
    returns (updated: seq<int>, failed: seq<Failure>)
    ensures (updated, failed) == SetAll(sheets, ts, entries, lookup, conv)
  {
    updated, failed := [], [];
    var i := 0;
    while i < |ts|
      invariant 0 <= i <= |ts|
      invariant (updated, failed) == SetAll(sheets, ts[..i], entries, lookup, conv)
    {
      assert ts[..i + 1][..i] == ts[..i];
      var step := SheetStep(sheets, ts[i], entries, lookup, conv);
      updated := updated + step.0;
      failed := failed + step.1;
      i := i + 1;
    }
    assert ts[..i] == ts;
  }

  /** sheets.set_params_bulk: an empty `set` is refused before anything runs; no target sheet is an error. */
  method SheetsSetParamsBulk(sheets: seq<Sheet>, sheetIds: Option<seq<int>>, sheetNames: Option<seq<string>>,
                             entries: seq<(string, Value)>, lookup: (int, string) -> Option<Param>, conv: Conversions)
    returns (r: Result<ParamsReport>)
    ensures entries == [] ==> r == Err("No parameters to set.")
    ensures entries != [] && SheetTargets(sheets, sheetIds, sheetNames) == [] ==> r == Err("No target sheets resolved.")
    ensures entries != [] && SheetTargets(sheets, sheetIds, sheetNames) != [] ==>
      var res := SetAll(sheets, SheetTargets(sheets, sheetIds, sheetNames), entries, lookup, conv);
      r == Ok(ParamsReport(|res.0|, res.0, res.1))
  {
    if |entries| == 0 {
      return Err("No parameters to set.");
    }
    var ts := ResolveSheets(sheets, sheetIds, sheetNames);
    if |ts| == 0 {
      return Err("No target sheets resolved.");
    }
    var updated, failed := SetOnTargets(sheets, ts, entries, lookup, conv);
    r := Ok(ParamsReport(|updated|, updated, failed));
  }
}
