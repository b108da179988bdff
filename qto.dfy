// Quantity take-off rules (QtoActions.cs): group keys, category tokens, the
// wall filter, per-group accumulation, diameter buckets and duct shapes.
// Revit elements are records of the values the take-offs read from them.

module Qto {
  import opened Text
  import opened Json
  import opened Seqs

  // ---------------------------------------------------------------------------
  // Group keys
  // ---------------------------------------------------------------------------

  /** The grouping values of one element, by part name ("type", "level", ...); None is a null value. */
  type Parts = seq<(string, Option<string>)>

  /** How a value reads inside the key text: a missing or null value is "-". */
  function KeyText(parts: Parts, g: string): string
  {
    match LookupIgnoreCase<Option<string>>(parts, g)
    case Some(Some(v)) => v
    case _ => "-"
  }

  /** How a value reads in the key object: a missing or null value is "". */
  function KeyValue(parts: Parts, g: string): string
  {
    match LookupIgnoreCase<Option<string>>(parts, g)
    case Some(Some(v)) => v
    case _ => ""
  }

  function Segment(parts: Parts, g: string): string
  {
    g + ":" + KeyText(parts, g)
  }

  function Segments(parts: Parts, groupBy: seq<string>): seq<string>
  {
    seq(|groupBy|, i requires 0 <= i < |groupBy| => Segment(parts, groupBy[i]))
  }

  const TotalKey: string := "(total)"

  /** The dictionary key of an element's group: "(total)", or "g:v" per grouped name joined with "|". */
  function GroupKey(parts: Parts, groupBy: seq<string>): string
  {
    if groupBy == [] then TotalKey else Join(Segments(parts, groupBy), "|")
  }

  method KeyFromGroupBy(parts: Parts, groupBy: seq<string>) returns (key: string)
    ensures key == GroupKey(parts, groupBy)
  {
    if |groupBy| == 0 {
      return TotalKey;
    }
    var vals: seq<string> := [];
    var i := 0;
    while i < |groupBy|
      invariant 0 <= i <= |groupBy|
      invariant vals == Segments(parts, groupBy)[..i]
    {
      vals := vals + [Segment(parts, groupBy[i])];
      i := i + 1;
    }
    assert vals == Segments(parts, groupBy);
    key := Join(vals, "|");
  }

  lemma JoinStartsWith(parts: seq<string>, sep: string)
    requires |parts| >= 1
    ensures |parts[0]| <= |Join(parts, sep)| && Join(parts, sep)[..|parts[0]|] == parts[0]
  {
    if |parts| > 1 {
      assert Join(parts, sep) == parts[0] + (sep + Join(parts[1..], sep));
    }
  }

  /** With something to group by, no element lands in the "(total)" group. */
  lemma GroupedKeyIsNotTotal(parts: Parts, groupBy: seq<string>)
    requires groupBy != []
    ensures GroupKey(parts, groupBy) != TotalKey
  {
    var segs := Segments(parts, groupBy);
    var g := groupBy[0];
    JoinStartsWith(segs, "|");
    assert segs[0][|g|] == ':';
    assert GroupKey(parts, groupBy)[|g|] == ':';
    assert ':' !in TotalKey;
  }

  /** Names and values that hold no "|" can be read back from the key. */
  predicate Separable(parts: Parts, groupBy: seq<string>)
  {
    forall i :: 0 <= i < |groupBy| ==> '|' !in groupBy[i] && '|' !in KeyText(parts, groupBy[i])
  }

  lemma KeySplits(parts: Parts, groupBy: seq<string>)
    requires groupBy != [] && Separable(parts, groupBy)
    ensures Split(GroupKey(parts, groupBy), '|') == Segments(parts, groupBy)
  {
    var segs := Segments(parts, groupBy);
    forall i | 0 <= i < |segs| ensures '|' !in segs[i] {
      assert segs[i] == groupBy[i] + ":" + KeyText(parts, groupBy[i]);
    }
    SplitJoin(segs, '|');
  }

  /**
   * Two elements share a group exactly when every grouped name reads the same
   * (a missing and a null value both read "-"), given names and values without "|".
   */
  lemma SameGroupIff(p: Parts, q: Parts, groupBy: seq<string>)
    requires Separable(p, groupBy) && Separable(q, groupBy)
    ensures GroupKey(p, groupBy) == GroupKey(q, groupBy)
        <==> forall i :: 0 <= i < |groupBy| ==> KeyText(p, groupBy[i]) == KeyText(q, groupBy[i])
  {
    if groupBy != [] {
      if GroupKey(p, groupBy) == GroupKey(q, groupBy) {
        KeySplits(p, groupBy);
        KeySplits(q, groupBy);
        forall i | 0 <= i < |groupBy| ensures KeyText(p, groupBy[i]) == KeyText(q, groupBy[i]) {
          var g := groupBy[i];
          var sp := Segments(p, groupBy)[i];
          var sq := Segments(q, groupBy)[i];
          assert sp == sq;
          assert sp[|g| + 1..] == KeyText(p, g);
          assert sq[|g| + 1..] == KeyText(q, g);
        }
      }
      if forall i :: 0 <= i < |groupBy| ==> KeyText(p, groupBy[i]) == KeyText(q, groupBy[i]) {
        assert Segments(p, groupBy) == Segments(q, groupBy);
      }
    }
  }

  // ---------------------------------------------------------------------------
  // Key objects: a case-insensitive dictionary from grouped name to value
  // ---------------------------------------------------------------------------

  /** Assignment into a case-insensitive dictionary: the key's first spelling and position are kept. */
  function PutIgnoreCase(f: Fields, k: string, v: Json): Fields
  {
    if f == [] then [(k, v)]
    else if EqIgnoreCase(f[0].0, k) then [(f[0].0, v)] + f[1..]
    else [f[0]] + PutIgnoreCase(f[1..], k, v)
  }

  /** Lookup in a case-insensitive dictionary. */
  function GetIgnoreCase(f: Fields, k: string): Option<Json>
  {
    if f == [] then None
    else if EqIgnoreCase(f[0].0, k) then Some(f[0].1)
    else GetIgnoreCase(f[1..], k)
  }

  lemma {:induction false} PutGetIgnoreCase(f: Fields, k: string, v: Json, k2: string)
    ensures GetIgnoreCase(PutIgnoreCase(f, k, v), k2) == if EqIgnoreCase(k, k2) then Some(v) else GetIgnoreCase(f, k2)
  {
    if f != [] && !EqIgnoreCase(f[0].0, k) {
      PutGetIgnoreCase(f[1..], k, v, k2);
    }
  }

  function KeyFields(parts: Parts, groupBy: seq<string>): Fields
    decreases |groupBy|
  {
    if groupBy == [] then []
    else
      var g := groupBy[|groupBy| - 1];
      PutIgnoreCase(KeyFields(parts, groupBy[..|groupBy| - 1]), g, Str(KeyValue(parts, g)))
  }

  /** The `key` object of a group row: {key: "(total)"}, or each grouped name with its value. */
  function KeyObject(parts: Parts, groupBy: seq<string>): Json
  {
    if groupBy == [] then Obj([("key", Str(TotalKey))]) else Obj(KeyFields(parts, groupBy))
  }

  method KeyObjFromGroupBy(parts: Parts, groupBy: seq<string>) returns (obj: Json)
    ensures obj == KeyObject(parts, groupBy)
  {
    if |groupBy| == 0 {
      return Obj([("key", Str(TotalKey))]);
    }
    var dict: Fields := [];
    var i := 0;
    while i < |groupBy|
      invariant 0 <= i <= |groupBy|
      invariant dict == KeyFields(parts, groupBy[..i])
    {
      var g := groupBy[i];
      assert groupBy[..i + 1][..i] == groupBy[..i];
      dict := PutIgnoreCase(dict, g, Str(KeyValue(parts, g)));
      i := i + 1;
    }
    assert groupBy[..i] == groupBy;
    obj := Obj(dict);
  }

  /** Each grouped name (in any case) maps to its value, or "" when absent or null; no other name is there. */
  lemma {:induction false} KeyFieldsGet(parts: Parts, groupBy: seq<string>, k: string)
    ensures GetIgnoreCase(KeyFields(parts, groupBy), k)
         == if exists i :: 0 <= i < |groupBy| && EqIgnoreCase(groupBy[i], k) then Some(Str(KeyValue(parts, k))) else None
    decreases |groupBy|
  {
    if groupBy != [] {
      var n := |groupBy| - 1;
      var init := groupBy[..n];
      KeyFieldsGet(parts, init, k);
      PutGetIgnoreCase(KeyFields(parts, init), groupBy[n], Str(KeyValue(parts, groupBy[n])), k);
      if EqIgnoreCase(groupBy[n], k) {
        LookupIgnoresCase(parts, groupBy[n], k);
      }
      if exists i :: 0 <= i < |groupBy| && EqIgnoreCase(groupBy[i], k) {
        var i :| 0 <= i < |groupBy| && EqIgnoreCase(groupBy[i], k);
        if i < n {
          assert init[i] == groupBy[i];
        }
      } else {
        forall i | 0 <= i < |init| ensures !EqIgnoreCase(init[i], k) {
          assert init[i] == groupBy[i];
        }
      }
    }
  }

  // ---------------------------------------------------------------------------
  // Category tokens
  // ---------------------------------------------------------------------------

  /**
   * Enum.TryParse with ignoreCase over the enumeration's member names: the first
   * member whose name equals the trimmed text, ignoring case.
   */
  function EnumParse(s: string, names: seq<string>): (r: Option<string>)
    ensures r.Some? ==> r.value in names && EqIgnoreCase(r.value, Trim(s))
    ensures r.None? ==> forall i :: 0 <= i < |names| ==> !EqIgnoreCase(names[i], Trim(s))
  {
    if names == [] then None
    else if EqIgnoreCase(names[0], Trim(s)) then Some(names[0])
    else EnumParse(s, names[1..])
  }

  lemma {:induction false} EnumParseNone(s: string, names: seq<string>)
    requires forall i :: 0 <= i < |names| ==> !EqIgnoreCase(names[i], Trim(s))
    ensures EnumParse(s, names).None?
  {
    if names != [] {
      assert !EqIgnoreCase(names[0], Trim(s));
      EnumParseNone(s, names[1..]);
    }
  }

  /** The second spelling tried: the token with "OST_" in front unless it already starts so (in any case). */
  function OstForm(token: string): string
  {
    if StartsWithIgnoreCase(token, "OST_") then token else "OST_" + token
  }

  /** A blank token is no category; otherwise the token itself, then its "OST_" form, is parsed. */
  function TryParseBuiltInCategory(token: string, names: seq<string>): (r: Option<string>)
    ensures IsBlank(token) ==> r.None?
    ensures r.Some? ==> r.value in names
  {
    if IsBlank(token) then None
    else
      match EnumParse(token, names)
      case Some(c) => Some(c)
      case None => EnumParse(OstForm(token), names)
  }

  /** A token parses exactly when it is not blank and some member is named by it or by its "OST_" form. */
  lemma TryParseIff(token: string, names: seq<string>)
    ensures TryParseBuiltInCategory(token, names).Some? <==> (
      !IsBlank(token) &&
      exists i :: 0 <= i < |names| && (EqIgnoreCase(names[i], Trim(token)) || EqIgnoreCase(names[i], Trim(OstForm(token)))))
  {
  }

  lemma OstFormOfPrefixed(token: string)
    ensures OstForm("OST_" + token) == "OST_" + token
  {
    var t := "OST_" + token;
    assert t[..4] == "OST_";
  }

  /** The "OST_" prefix is optional: a bare token that names no member reads as its "OST_" form. */
  lemma {:induction false} PrefixIsOptional(token: string, names: seq<string>)
    requires token != [] && !IsSpace(token[0]) && !IsSpace(token[|token| - 1])
    requires !StartsWithIgnoreCase(token, "OST_")
    requires forall i :: 0 <= i < |names| ==> !EqIgnoreCase(names[i], token)
    ensures TryParseBuiltInCategory(token, names) == TryParseBuiltInCategory("OST_" + token, names)
    ensures OstForm(token) == "OST_" + token
  {
    OstFormOfPrefixed(token);
    EnumParseNone(token, names);
    ParseOfBare(token, names);
    ParseOfPrefixed("OST_" + token, names);
  }

  lemma ParseOfBare(token: string, names: seq<string>)
    requires !IsBlank(token) && EnumParse(token, names).None?
    ensures TryParseBuiltInCategory(token, names) == EnumParse(OstForm(token), names)
  {
  }

  lemma ParseOfPrefixed(t: string, names: seq<string>)
    requires !IsBlank(t) && OstForm(t) == t
    ensures TryParseBuiltInCategory(t, names) == EnumParse(t, names)
  {
  }

  /** The tokens that parse, in order, each as its member name (duplicates kept). */
  function ParseCategories(tokens: seq<string>, names: seq<string>): (r: seq<string>)
    ensures |r| <= |tokens|
    ensures forall i :: 0 <= i < |r| ==> r[i] in names
    decreases |tokens|
  {
    if tokens == [] then []
    else
      var rest := ParseCategories(tokens[1..], names);
      match TryParseBuiltInCategory(tokens[0], names)
      case Some(c) => [c] + rest
      case None => rest
  }

  /** A member name is parsed from the tokens exactly when some token parses to it. */
  lemma {:induction false} ParseCategoriesMembers(tokens: seq<string>, names: seq<string>, c: string)
    ensures c in ParseCategories(tokens, names)
        <==> exists i :: 0 <= i < |tokens| && TryParseBuiltInCategory(tokens[i], names) == Some(c)
    decreases |tokens|
  {
    if tokens != [] {
      ParseCategoriesMembers(tokens[1..], names, c);
      if exists i :: 0 <= i < |tokens| && TryParseBuiltInCategory(tokens[i], names) == Some(c) {
        var i :| 0 <= i < |tokens| && TryParseBuiltInCategory(tokens[i], names) == Some(c);
        if i > 0 {
          assert tokens[1..][i - 1] == tokens[i];
        }
      }
      if exists i :: 0 <= i < |tokens[1..]| && TryParseBuiltInCategory(tokens[1..][i], names) == Some(c) {
        var i :| 0 <= i < |tokens[1..]| && TryParseBuiltInCategory(tokens[1..][i], names) == Some(c);
        assert tokens[i + 1] == tokens[1..][i];
      }
    }
  }

  /** The HashSet of parsed categories the family count filters on. */
  function CategorySet(tokens: seq<string>, names: seq<string>): set<string>
  {
    set c | c in ParseCategories(tokens, names)
  }

  /** The family-count category filter: an empty set of parsed categories lets every element through. */
  predicate FamilyCategoryPasses(cats: set<string>, category: Option<string>)
  {
    |cats| == 0 || (category.Some? && category.value in cats)
  }

  /** When no token parses (none given, or all unknown or blank), the family count does not filter. */
  lemma NoParsedCategoryNoFilter(tokens: seq<string>, names: seq<string>, category: Option<string>)
    requires forall i :: 0 <= i < |tokens| ==> TryParseBuiltInCategory(tokens[i], names).None?
    ensures FamilyCategoryPasses(CategorySet(tokens, names), category)
  {
    var cats := CategorySet(tokens, names);
    if c :| c in cats {
      ParseCategoriesMembers(tokens, names, c);
      assert false;
    }
    assert cats == {};
  }

  /** The categories the MEP and electrical count walks when no token parses. */
  const DefaultMepCategories: seq<string> := [
    "OST_DuctFitting", "OST_DuctTerminal", "OST_MechanicalEquipment", "OST_PipeFitting",
    "OST_PipeAccessory", "OST_PlumbingEquipment", "OST_PlumbingFixtures", "OST_ElectricalEquipment",
    "OST_ElectricalFixtures", "OST_LightingFixtures", "OST_LightingDevices"
  ]

  // ---------------------------------------------------------------------------
  // Units: Revit's internal unit of length is the foot
  // ---------------------------------------------------------------------------

  const MetresPerFoot: real := 0.3048

  function FtToM(ft: real): real { ft * MetresPerFoot }
  function Ft2ToM2(ft2: real): real { ft2 * MetresPerFoot * MetresPerFoot }
  function Ft3ToM3(ft3: real): real { ft3 * MetresPerFoot * MetresPerFoot * MetresPerFoot }
  function FtToMm(ft: real): real { ft * MetresPerFoot * 1000.0 }

  /** `x ?? 0.0` for a quantity the element may not have. */
  function OrZero(x: Option<real>): real
  {
    match x case Some(v) => v case None => 0.0
  }

  function OrEmpty(s: Option<string>): string
  {
    match s case Some(v) => v case None => ""
  }

  // ---------------------------------------------------------------------------
  // The wall filter
  // ---------------------------------------------------------------------------

  /** A wall as the take-off reads it; quantities in feet, a missing one is None. */
  datatype Wall = Wall(
    id: int, typeId: Option<int>, typeName: Option<string>, level: Option<string>, phase: Option<string>,
    roomBounding: bool, lengthFt: Option<real>, areaFt2: Option<real>, volumeFt3: Option<real>)

  /** The `filter` argument of qto.walls; an absent filter has every criterion empty. */
  datatype WallFilter = WallFilter(
    typeIds: seq<int>, typeNames: seq<string>, nameRegex: Option<string>,
    levels: seq<string>, phase: Option<string>, useSelection: bool)

  /** A regular expression compiled with IgnoreCase; the compiler gives None when the pattern is invalid. */
  type Regex = string -> bool

  predicate NotBlank(s: string)
  {
    !IsBlank(s)
  }

  /** HashSet<string>(OrdinalIgnoreCase).Contains. */
  predicate InIgnoreCase(xs: seq<string>, s: string)
  {
    exists i :: 0 <= i < |xs| && EqIgnoreCase(xs[i], s)
  }

  /** The type id compared against typeIds: -1 for an invalid one. */
  function TypeIdOf(w: Wall): int
  {
    match w.typeId case Some(t) => t case None => -1
  }

  /** The name regex in force: a non-blank pattern that compiles. */
  function RegexOf(f: WallFilter, compile: string -> Option<Regex>): Option<Regex>
  {
    if f.nameRegex.Some? && !IsBlank(f.nameRegex.value) then compile(f.nameRegex.value) else None
  }

  /** Some criterion is given: type ids, a non-blank type name or level, a working regex, or a non-blank phase. */
  predicate FilterActive(f: WallFilter, rx: Option<Regex>)
  {
    |f.typeIds| > 0 || |Keep(f.typeNames, NotBlank)| > 0 || rx.Some?
      || |Keep(f.levels, NotBlank)| > 0 || !IsBlankOpt(f.phase)
  }

  /** Every given criterion holds; absent names, levels and phases compare as "". */
  predicate Passes(f: WallFilter, rx: Option<Regex>, w: Wall)
  {
    var names := Keep(f.typeNames, NotBlank);
    var levels := Keep(f.levels, NotBlank);
    (|f.typeIds| > 0 ==> TypeIdOf(w) in f.typeIds)
      && (|names| > 0 ==> InIgnoreCase(names, OrEmpty(w.typeName)))
      && (rx.Some? ==> rx.value(OrEmpty(w.typeName)))
      && (|levels| > 0 ==> InIgnoreCase(levels, OrEmpty(w.level)))
      && (!IsBlankOpt(f.phase) ==> EqIgnoreCase(f.phase.value, OrEmpty(w.phase)))
  }

  /** The walls of the take-off: the selected ones when useSelection, then those passing an active filter. */
  function FilterWalls(walls: seq<Wall>, f: WallFilter, compile: string -> Option<Regex>, selection: seq<int>): seq<Wall>
  {
    var ws := if f.useSelection then Keep(walls, (w: Wall) => w.id in selection) else walls;
    var rx := RegexOf(f, compile);
    if FilterActive(f, rx) then Keep(ws, (w: Wall) => Passes(f, rx, w)) else ws
  }

  /** With no criterion given, every wall passes, so the filter's guard changes nothing. */
  lemma InactiveFilterPassesAll(f: WallFilter, rx: Option<Regex>, w: Wall)
    requires !FilterActive(f, rx)
    ensures Passes(f, rx, w)
  {
  }

  /** A wall is taken off exactly when it is there, selected if need be, and meets every given criterion. */
  lemma FilterWallsMembers(walls: seq<Wall>, f: WallFilter, compile: string -> Option<Regex>, selection: seq<int>, w: Wall)
    ensures w in FilterWalls(walls, f, compile, selection)
        <==> w in walls && (f.useSelection ==> w.id in selection) && Passes(f, RegexOf(f, compile), w)
  {
    var sel := (w: Wall) => w.id in selection;
    var ws := if f.useSelection then Keep(walls, sel) else walls;
    var rx := RegexOf(f, compile);
    if f.useSelection {
      KeepMembers(walls, sel, w);
    }
    if FilterActive(f, rx) {
      KeepMembers(ws, (w: Wall) => Passes(f, rx, w), w);
    } else {
      InactiveFilterPassesAll(f, rx, w);
    }
  }

  /** A pattern that does not compile is ignored: the result is that of giving no pattern. */
  lemma InvalidRegexIgnored(walls: seq<Wall>, f: WallFilter, compile: string -> Option<Regex>, selection: seq<int>)
    requires f.nameRegex.Some? && compile(f.nameRegex.value).None?
    ensures FilterWalls(walls, f, compile, selection) == FilterWalls(walls, f.(nameRegex := None), compile, selection)
  {
    var g := f.(nameRegex := None);
    var rx := RegexOf(f, compile);
    assert rx == RegexOf(g, compile);
    var ws := if f.useSelection then Keep(walls, (w: Wall) => w.id in selection) else walls;
    KeepSame(ws, (w: Wall) => Passes(f, rx, w), (w: Wall) => Passes(g, rx, w));
  }

  /** Blank type names are ignored: the result is that of giving none. */
  lemma BlankTypeNamesIgnored(walls: seq<Wall>, f: WallFilter, compile: string -> Option<Regex>, selection: seq<int>)
    requires forall i :: 0 <= i < |f.typeNames| ==> IsBlank(f.typeNames[i])
    ensures FilterWalls(walls, f, compile, selection) == FilterWalls(walls, f.(typeNames := []), compile, selection)
  {
    var g := f.(typeNames := []);
    KeepNone(f.typeNames, NotBlank);
    var rx := RegexOf(f, compile);
    assert rx == RegexOf(g, compile);
    assert FilterActive(f, rx) == FilterActive(g, rx);
    var ws := if f.useSelection then Keep(walls, (w: Wall) => w.id in selection) else walls;
    KeepSame(ws, (w: Wall) => Passes(f, rx, w), (w: Wall) => Passes(g, rx, w));
  }

  // ---------------------------------------------------------------------------
  // Per-group accumulation
  // ---------------------------------------------------------------------------

  /** One element of a take-off: its group key and key object, and its quantities in metric units. */
  datatype Item = Item(key: string, keyObj: Json, len: real, area: real, vol: real)

  /** The item of an element with the given parts: its key and key object under `groupBy`. */
  function ItemOf(parts: Parts, groupBy: seq<string>, len: real, area: real, vol: real): Item
  {
    Item(GroupKey(parts, groupBy), KeyObject(parts, groupBy), len, area, vol)
  }

  /** The key and key object of one element, as each take-off's loop computes them. */
  method KeyedItem(parts: Parts, groupBy: seq<string>, len: real, area: real, vol: real) returns (it: Item)
    ensures it == ItemOf(parts, groupBy, len, area, vol)
  {
    var gk := KeyFromGroupBy(parts, groupBy);
    var keyObj := KeyObjFromGroupBy(parts, groupBy);
    it := Item(gk, keyObj, len, area, vol);
  }

  /** A group's running sums, its element count and the key object of its first element. */
  datatype Acc = Acc(len: real, area: real, vol: real, count: nat, keyObj: Json)

  /** How many of the items fall in the group with key `k`. */
  function CountWith(items: seq<Item>, k: string): nat
    decreases |items|
  {
    if items == [] then 0
    else CountWith(items[..|items| - 1], k) + (if items[|items| - 1].key == k then 1 else 0)
  }

  /** The sum of a quantity over the items in the group with key `k`. */
  function SumWith(items: seq<Item>, k: string, q: Item -> real): real
    decreases |items|
  {
    if items == [] then 0.0
    else SumWith(items[..|items| - 1], k, q) + (if items[|items| - 1].key == k then q(items[|items| - 1]) else 0.0)
  }

  /** The key object of the first item in the group with key `k`. */
  function FirstKeyObject(items: seq<Item>, k: string): Option<Json>
    decreases |items|
  {
    if items == [] then None
    else
      var last := items[|items| - 1];
      var before := FirstKeyObject(items[..|items| - 1], k);
      if before.Some? then before
      else if last.key == k then Some(last.keyObj)
      else None
  }

  /** The sum of a quantity over all items. */
  function SumAll(items: seq<Item>, q: Item -> real): real
    decreases |items|
  {
    if items == [] then 0.0 else SumAll(items[..|items| - 1], q) + q(items[|items| - 1])
  }

  function ItemLen(it: Item): real { it.len }
  function ItemArea(it: Item): real { it.area }
  function ItemVol(it: Item): real { it.vol }

  function AccLen(a: Acc): real { a.len }
  function AccArea(a: Acc): real { a.area }
  function AccVol(a: Acc): real { a.vol }
  function AccCount(a: Acc): real { a.count as real }

  /** The sum of a group field over the groups, in key order. */
  function SumOf(keys: seq<string>, groups: map<string, Acc>, f: Acc -> real): real
    decreases |keys|
  {
    if keys == [] then 0.0
    else (if keys[0] in groups then f(groups[keys[0]]) else 0.0) + SumOf(keys[1..], groups, f)
  }

  predicate Distinct(keys: seq<string>)
  {
    forall a, b :: 0 <= a < b < |keys| ==> keys[a] != keys[b]
  }

  lemma {:induction false} SumOfFrame(keys: seq<string>, groups: map<string, Acc>, k: string, a: Acc, f: Acc -> real)
    requires k !in keys
    ensures SumOf(keys, groups[k := a], f) == SumOf(keys, groups, f)
    decreases |keys|
  {
    if keys != [] {
      SumOfFrame(keys[1..], groups, k, a, f);
    }
  }

  lemma {:induction false} SumOfSnoc(keys: seq<string>, groups: map<string, Acc>, k: string, f: Acc -> real)
    ensures SumOf(keys + [k], groups, f) == SumOf(keys, groups, f) + (if k in groups then f(groups[k]) else 0.0)
    decreases |keys|
  {
    if keys == [] {
      assert [k][1..] == [];
    } else {
      assert (keys + [k])[1..] == keys[1..] + [k];
      SumOfSnoc(keys[1..], groups, k, f);
    }
  }

  /** A new group adds its field to the sum. */
  lemma SumOfNew(keys: seq<string>, groups: map<string, Acc>, k: string, a: Acc, f: Acc -> real)
    requires k !in keys
    ensures SumOf(keys + [k], groups[k := a], f) == SumOf(keys, groups, f) + f(a)
  {
    SumOfSnoc(keys, groups[k := a], k, f);
    SumOfFrame(keys, groups, k, a, f);
  }

  /** Replacing one group changes the sum by the change in its field. */
  lemma {:induction false} SumOfUpdate(keys: seq<string>, groups: map<string, Acc>, k: string, a: Acc, f: Acc -> real)
    requires Distinct(keys) && k in keys && k in groups
    ensures SumOf(keys, groups[k := a], f) == SumOf(keys, groups, f) - f(groups[k]) + f(a)
    decreases |keys|
  {
    if keys[0] == k {
      assert k !in keys[1..] by {
        forall j | 0 <= j < |keys[1..]| ensures keys[1..][j] != k {
          assert keys[1..][j] == keys[j + 1];
        }
      }
      SumOfFrame(keys[1..], groups, k, a, f);
    } else {
      assert k in keys[1..] by {
        var j :| 0 <= j < |keys| && keys[j] == k;
        assert keys[1..][j - 1] == k;
      }
      assert Distinct(keys[1..]) by {
        forall a', b' | 0 <= a' < b' < |keys[1..]| ensures keys[1..][a'] != keys[1..][b'] {
          assert keys[1..][a'] == keys[a' + 1] && keys[1..][b'] == keys[b' + 1];
        }
      }
      SumOfUpdate(keys[1..], groups, k, a, f);
    }
  }

  /** What one group holds: its items' count (at least one) and sums, and its first item's key object. */
  ghost predicate GroupHolds(items: seq<Item>, k: string, a: Acc)
  {
    a.count == CountWith(items, k) && a.count > 0
    && a.len == SumWith(items, k, ItemLen)
    && a.area == SumWith(items, k, ItemArea)
    && a.vol == SumWith(items, k, ItemVol)
    && FirstKeyObject(items, k) == Some(a.keyObj)
  }

  /**
   * The groups of a take-off over `items`: the keys in first-seen order, no key
   * twice, and one group per key met, holding that key's items.
   */
  ghost predicate GroupedBy(items: seq<Item>, keys: seq<string>, groups: map<string, Acc>)
  {
    Distinct(keys)
    && (forall k :: k in groups <==> k in keys)
    && (forall j :: 0 <= j < |items| ==> items[j].key in groups)
    && (forall k :: k in groups ==> GroupHolds(items, k, groups[k]))
  }

  /** The group counts and sums add up to the totals over all items. */
  ghost predicate Balanced(items: seq<Item>, keys: seq<string>, groups: map<string, Acc>)
  {
    SumOf(keys, groups, AccCount) == |items| as real
    && SumOf(keys, groups, AccLen) == SumAll(items, ItemLen)
    && SumOf(keys, groups, AccArea) == SumAll(items, ItemArea)
    && SumOf(keys, groups, AccVol) == SumAll(items, ItemVol)
  }

  /** The group of `it` after it is added: a new group starts at zero with the item's key object. */
  function Added(groups: map<string, Acc>, it: Item): Acc
  {
    var acc := if it.key in groups then groups[it.key] else Acc(0.0, 0.0, 0.0, 0, it.keyObj);
    acc.(len := acc.len + it.len, area := acc.area + it.area, vol := acc.vol + it.vol, count := acc.count + 1)
  }

  /** The accumulation step of one element (the new key goes last, as a Dictionary enumerates). */
  method AddItem(keys: seq<string>, groups: map<string, Acc>, it: Item)
    returns (keys': seq<string>, groups': map<string, Acc>)
    ensures keys' == (if it.key in groups then keys else keys + [it.key])
    ensures groups' == groups[it.key := Added(groups, it)]
  {
    var acc: Acc;
    if it.key in groups {
      acc := groups[it.key];
      keys' := keys;
    } else {
      acc := Acc(0.0, 0.0, 0.0, 0, it.keyObj);
      keys' := keys + [it.key];
    }
    acc := acc.(len := acc.len + it.len, area := acc.area + it.area, vol := acc.vol + it.vol, count := acc.count + 1);
    groups' := groups[it.key := acc];
  }

  /** A key no item has: no count, no sums, no key object. */
  lemma {:induction false} AbsentKey(items: seq<Item>, k: string)
    requires forall j :: 0 <= j < |items| ==> items[j].key != k
    ensures CountWith(items, k) == 0
    ensures SumWith(items, k, ItemLen) == 0.0
    ensures SumWith(items, k, ItemArea) == 0.0
    ensures SumWith(items, k, ItemVol) == 0.0
    ensures FirstKeyObject(items, k).None?
    decreases |items|
  {
    if items != [] {
      var init := items[..|items| - 1];
      forall j | 0 <= j < |init| ensures init[j].key != k {
        assert init[j] == items[j];
      }
      AbsentKey(init, k);
    }
  }

  /** The group of the added item holds its items afterwards. */
  lemma AddedHolds(items: seq<Item>, it: Item, groups: map<string, Acc>)
    requires forall j :: 0 <= j < |items| ==> items[j].key in groups
    requires it.key in groups ==> GroupHolds(items, it.key, groups[it.key])
    ensures GroupHolds(items + [it], it.key, Added(groups, it))
  {
    var xs := items + [it];
    assert xs[..|xs| - 1] == items;
    if it.key !in groups {
      AbsentKey(items, it.key);
    }
  }

  /** Every other group is unchanged and still holds its items. */
  lemma OtherHolds(items: seq<Item>, it: Item, k: string, a: Acc)
    requires k != it.key && GroupHolds(items, k, a)
    ensures GroupHolds(items + [it], k, a)
  {
    var xs := items + [it];
    assert xs[..|xs| - 1] == items;
  }

  /** One more item keeps the groups a correct grouping. */
  lemma AddGrouped(items: seq<Item>, it: Item, keys: seq<string>, groups: map<string, Acc>)
    requires GroupedBy(items, keys, groups)
    ensures GroupedBy(items + [it], if it.key in groups then keys else keys + [it.key], groups[it.key := Added(groups, it)])
  {
    var xs := items + [it];
    var keys' := if it.key in groups then keys else keys + [it.key];
    var groups' := groups[it.key := Added(groups, it)];
    AddedHolds(items, it, groups);
    forall k | k in groups' ensures GroupHolds(xs, k, groups'[k]) {
      if k != it.key {
        OtherHolds(items, it, k, groups[k]);
      }
    }
    forall j | 0 <= j < |xs| ensures xs[j].key in groups' {
      if j < |items| {
        assert xs[j] == items[j];
      }
    }
    if it.key !in groups {
      assert Distinct(keys') by {
        forall i, j | 0 <= i < j < |keys'| ensures keys'[i] != keys'[j] {
          if j == |keys| {
            assert keys[i] in keys;
          }
        }
      }
    }
  }

  /** One more item keeps the groups balanced against the totals. */
  lemma AddBalanced(items: seq<Item>, it: Item, keys: seq<string>, groups: map<string, Acc>)
    requires Distinct(keys) && (forall k :: k in groups <==> k in keys)
    requires Balanced(items, keys, groups)
    ensures Balanced(items + [it], if it.key in groups then keys else keys + [it.key], groups[it.key := Added(groups, it)])
  {
    var xs := items + [it];
    assert xs[..|xs| - 1] == items;
    var a := Added(groups, it);
    if it.key !in groups {
      SumOfNew(keys, groups, it.key, a, AccCount);
      SumOfNew(keys, groups, it.key, a, AccLen);
      SumOfNew(keys, groups, it.key, a, AccArea);
      SumOfNew(keys, groups, it.key, a, AccVol);
    } else {
      SumOfUpdate(keys, groups, it.key, a, AccCount);
      SumOfUpdate(keys, groups, it.key, a, AccLen);
      SumOfUpdate(keys, groups, it.key, a, AccArea);
      SumOfUpdate(keys, groups, it.key, a, AccVol);
    }
  }

  /** Adding item i to the groups of the items before it gives the groups of the items up to it. */
  lemma AccumulateStep(items: seq<Item>, i: nat, keys: seq<string>, groups: map<string, Acc>,
                        keys': seq<string>, groups': map<string, Acc>)
    requires i < |items|
    requires GroupedBy(items[..i], keys, groups) && Balanced(items[..i], keys, groups)
    requires keys' == if items[i].key in groups then keys else keys + [items[i].key]
    requires groups' == groups[items[i].key := Added(groups, items[i])]
    ensures GroupedBy(items[..i + 1], keys', groups') && Balanced(items[..i + 1], keys', groups')
  {
    assert items[..i + 1] == items[..i] + [items[i]];
    AddGrouped(items[..i], items[i], keys, groups);
    AddBalanced(items[..i], items[i], keys, groups);
  }

  lemma SumAllPrefix(items: seq<Item>, i: nat, q: Item -> real)
    requires i < |items|
    ensures SumAll(items[..i + 1], q) == SumAll(items[..i], q) + q(items[i])
  {
    assert items[..i + 1][..i] == items[..i];
  }

  /** The state of the foreach after the first i items. */
  ghost predicate AccumulatedTo(items: seq<Item>, i: nat, keys: seq<string>, groups: map<string, Acc>,
                                totalLen: real, totalArea: real, totalVol: real)
    requires i <= |items|
  {
    GroupedBy(items[..i], keys, groups) && Balanced(items[..i], keys, groups)
    && totalLen == SumAll(items[..i], ItemLen)
    && totalArea == SumAll(items[..i], ItemArea)
    && totalVol == SumAll(items[..i], ItemVol)
  }

  /** One turn of the foreach takes the state after i items to the state after i + 1. */
  lemma AccumulatedStep(items: seq<Item>, i: nat, keys: seq<string>, groups: map<string, Acc>,
                        totalLen: real, totalArea: real, totalVol: real,
                        keys': seq<string>, groups': map<string, Acc>)
    requires i < |items| && AccumulatedTo(items, i, keys, groups, totalLen, totalArea, totalVol)
    requires keys' == if items[i].key in groups then keys else keys + [items[i].key]
    requires groups' == groups[items[i].key := Added(groups, items[i])]
    ensures AccumulatedTo(items, i + 1, keys', groups',
      totalLen + items[i].len, totalArea + items[i].area, totalVol + items[i].vol)
  {
    AccumulateStep(items, i, keys, groups, keys', groups');
    SumAllPrefix(items, i, ItemLen);
    SumAllPrefix(items, i, ItemArea);
    SumAllPrefix(items, i, ItemVol);
  }

  /** The foreach over a take-off's elements: totals, and the groups in first-seen order. */
  method Accumulate(items: seq<Item>)
    returns (keys: seq<string>, groups: map<string, Acc>, totalLen: real, totalArea: real, totalVol: real)
    ensures GroupedBy(items, keys, groups) && Balanced(items, keys, groups)
    ensures totalLen == SumAll(items, ItemLen)
    ensures totalArea == SumAll(items, ItemArea)
    ensures totalVol == SumAll(items, ItemVol)
  {
    keys, groups := [], map[];
    totalLen, totalArea, totalVol := 0.0, 0.0, 0.0;
    var i := 0;
    while i < |items|
      invariant 0 <= i <= |items|
      invariant AccumulatedTo(items, i, keys, groups, totalLen, totalArea, totalVol)
    {
      var it := items[i];
      var keys', groups' := AddItem(keys, groups, it);
      AccumulatedStep(items, i, keys, groups, totalLen, totalArea, totalVol, keys', groups');
      totalLen, totalArea, totalVol := totalLen + it.len, totalArea + it.area, totalVol + it.vol;
      keys, groups := keys', groups';
      i := i + 1;
    }
    AccumulatedAll(items, keys, groups, totalLen, totalArea, totalVol);
  }

  /** After the last item the loop state is the state over all items. */
  lemma AccumulatedAll(items: seq<Item>, keys: seq<string>, groups: map<string, Acc>,
                       totalLen: real, totalArea: real, totalVol: real)
    requires AccumulatedTo(items, |items|, keys, groups, totalLen, totalArea, totalVol)
    ensures GroupedBy(items, keys, groups) && Balanced(items, keys, groups)
    ensures totalLen == SumAll(items, ItemLen)
    ensures totalArea == SumAll(items, ItemArea)
    ensures totalVol == SumAll(items, ItemVol)
  {
    assert items[..|items|] == items;
  }

  /** The groups are exactly the keys the items have. */
  lemma GroupKeysAreItemKeys(items: seq<Item>, keys: seq<string>, groups: map<string, Acc>, k: string)
    requires GroupedBy(items, keys, groups)
    ensures k in groups <==> exists j :: 0 <= j < |items| && items[j].key == k
  {
    if k in groups && forall j :: 0 <= j < |items| ==> items[j].key != k {
      AbsentKey(items, k);
      assert false;
    }
  }

  // ---------------------------------------------------------------------------
  // qto.walls
  // ---------------------------------------------------------------------------

  function WallParts(w: Wall): Parts
  {
    [("type", w.typeName), ("level", w.level), ("phase", w.phase)]
  }

  function WallItem(w: Wall, groupBy: seq<string>): Item
  {
    ItemOf(WallParts(w), groupBy, FtToM(OrZero(w.lengthFt)), Ft2ToM2(OrZero(w.areaFt2)), Ft3ToM3(OrZero(w.volumeFt3)))
  }

  /** A row of `rows`: the wall's id, names, room-bounding flag and metric quantities. */
  datatype WallRow = WallRow(
    id: int, typeName: Option<string>, level: Option<string>, phase: Option<string>, roomBounding: bool,
    lengthM: real, areaM2: real, volumeM3: real)

  function RowOf(w: Wall): WallRow
  {
    WallRow(w.id, w.typeName, w.level, w.phase, w.roomBounding,
            FtToM(OrZero(w.lengthFt)), Ft2ToM2(OrZero(w.areaFt2)), Ft3ToM3(OrZero(w.volumeFt3)))
  }

  datatype Summary = Summary(totalCount: nat, totalLength: real, totalArea: real, totalVolume: real)

  /** The result of qto.walls: the summary, the groups (keys in dictionary order) and the optional rows. */
  datatype WallsTakeoff = WallsTakeoff(summary: Summary, keys: seq<string>, groups: map<string, Acc>, rows: Option<seq<WallRow>>)

  method WallItems(ws: seq<Wall>, groupBy: seq<string>) returns (items: seq<Item>)
    ensures items == MapAll(ws, (w: Wall) => WallItem(w, groupBy))
  {
    items := [];
    var i := 0;
    while i < |ws|
      invariant 0 <= i <= |ws|
      invariant items == MapAll(ws[..i], (w: Wall) => WallItem(w, groupBy))
    {
      var w := ws[i];
      assert ws[..i + 1] == ws[..i] + [w];
      MapAllAppend(ws[..i], w, (w: Wall) => WallItem(w, groupBy));
      var it := KeyedItem(WallParts(w), groupBy, FtToM(OrZero(w.lengthFt)), Ft2ToM2(OrZero(w.areaFt2)), Ft3ToM3(OrZero(w.volumeFt3)));
      items := items + [it];
      i := i + 1;
    }
    assert ws[..i] == ws;
  }

  /**
   * qto.walls over the document's walls: the filtered walls are summed, grouped
   * by `groupBy`, and listed when `includeIds`.
   */
  method QtoWalls(walls: seq<Wall>, f: WallFilter, compile: string -> Option<Regex>, selection: seq<int>,
                  groupBy: seq<string>, includeIds: bool) returns (r: WallsTakeoff)
    ensures var ws := FilterWalls(walls, f, compile, selection);
      var items := MapAll(ws, (w: Wall) => WallItem(w, groupBy));
      && r.summary.totalCount == |ws|
      && r.summary.totalLength == SumAll(items, ItemLen)
      && r.summary.totalArea == SumAll(items, ItemArea)
      && r.summary.totalVolume == SumAll(items, ItemVol)
      && GroupedBy(items, r.keys, r.groups)
      && SumOf(r.keys, r.groups, AccCount) == r.summary.totalCount as real
      && SumOf(r.keys, r.groups, AccLen) == r.summary.totalLength
      && SumOf(r.keys, r.groups, AccArea) == r.summary.totalArea
      && SumOf(r.keys, r.groups, AccVol) == r.summary.totalVolume
      && r.rows == (if includeIds then Some(MapAll(ws, RowOf)) else None)
  {
    var ws := FilterWalls(walls, f, compile, selection);
    var items := WallItems(ws, groupBy);
    MapAllIndex(ws, (w: Wall) => WallItem(w, groupBy));
    var keys, groups, len, area, vol := Accumulate(items);
    var rows := if includeIds then Some(MapAll(ws, RowOf)) else None;
    r := WallsTakeoff(Summary(|ws|, len, area, vol), keys, groups, rows);
  }

  // ---------------------------------------------------------------------------
  // Counts: qto.families.count and qto.counts.mep_electrical
  // ---------------------------------------------------------------------------

  /** A family instance or MEP element: its built-in category (if any) and its names. */
  datatype Element = Element(
    id: int, bic: Option<string>, category: Option<string>, family: Option<string>,
    typeName: Option<string>, level: Option<string>)

  function ElementParts(e: Element): Parts
  {
    [("category", e.category), ("family", e.family), ("type", e.typeName), ("level", e.level)]
  }

  /** A counted element carries no quantities. */
  function CountItem(e: Element, groupBy: seq<string>): Item
  {
    ItemOf(ElementParts(e), groupBy, 0.0, 0.0, 0.0)
  }

  /** The result of a take-off: the groups (keys in dictionary order) and the optional rows. */
  datatype Takeoff<R> = Takeoff(keys: seq<string>, groups: map<string, Acc>, rows: Option<seq<R>>)

  method CountItems(es: seq<Element>, groupBy: seq<string>) returns (items: seq<Item>)
    ensures items == MapAll(es, (e: Element) => CountItem(e, groupBy))
  {
    items := [];
    var i := 0;
    while i < |es|
      invariant 0 <= i <= |es|
      invariant items == MapAll(es[..i], (e: Element) => CountItem(e, groupBy))
    {
      var e := es[i];
      assert es[..i + 1] == es[..i] + [e];
      MapAllAppend(es[..i], e, (e: Element) => CountItem(e, groupBy));
      var it := KeyedItem(ElementParts(e), groupBy, 0.0, 0.0, 0.0);
      items := items + [it];
      i := i + 1;
    }
    assert es[..i] == es;
  }

  /** The family instances the family count walks: all of them, or those in a parsed category. */
  function FamilyInstances(insts: seq<Element>, tokens: seq<string>, names: seq<string>): seq<Element>
  {
    var cats := CategorySet(tokens, names);
    if |cats| > 0 then Keep(insts, (e: Element) => FamilyCategoryPasses(cats, e.bic)) else insts
  }

  /** qto.families.count: the instances, filtered by category, counted per group. */
  method QtoFamiliesCount(insts: seq<Element>, tokens: seq<string>, names: seq<string>,
                          groupBy: seq<string>, includeIds: bool) returns (r: Takeoff<Element>)
    ensures var es := FamilyInstances(insts, tokens, names);
      var items := MapAll(es, (e: Element) => CountItem(e, groupBy));
      && GroupedBy(items, r.keys, r.groups)
      && SumOf(r.keys, r.groups, AccCount) == |es| as real
      && r.rows == (if includeIds then Some(es) else None)
  {
    var es := FamilyInstances(insts, tokens, names);
    var items := CountItems(es, groupBy);
    MapAllIndex(es, (e: Element) => CountItem(e, groupBy));
    var keys, groups, _, _, _ := Accumulate(items);
    r := Takeoff(keys, groups, if includeIds then Some(es) else None);
  }

  /** An instance is counted exactly when no category parses or its category is one that does. */
  lemma FamilyInstancesMembers(insts: seq<Element>, tokens: seq<string>, names: seq<string>, e: Element)
    ensures e in FamilyInstances(insts, tokens, names)
        <==> e in insts && (|CategorySet(tokens, names)| == 0 || (e.bic.Some? && e.bic.value in CategorySet(tokens, names)))
  {
    var cats := CategorySet(tokens, names);
    if |cats| > 0 {
      KeepMembers(insts, (e: Element) => FamilyCategoryPasses(cats, e.bic), e);
    }
  }

  /** The categories the MEP and electrical count walks, as written: every parsed token, duplicates kept. */
  function CountsCategoriesAsWritten(tokens: seq<string>, names: seq<string>): (r: seq<string>)
    ensures r != []
  {
    var cats := ParseCategories(tokens, names);
    if cats == [] then DefaultMepCategories else cats
  }

  /** FilteredElementCollector.OfCategory: the elements of one category, in document order. */
  function OfCategory(elems: seq<Element>, c: string): seq<Element>
  {
    Keep(elems, (e: Element) => e.bic == Some(c))
  }

  /** The elements the count visits: those of each category in turn. */
  function Visit(elems: seq<Element>, cats: seq<string>): seq<Element>
  {
    FlatMap(cats, (c: string) => OfCategory(elems, c))
  }

  /** When no token parses, the eleven default MEP and electrical categories are walked. */
  lemma DefaultCategories(tokens: seq<string>, names: seq<string>)
    requires forall i :: 0 <= i < |tokens| ==> TryParseBuiltInCategory(tokens[i], names).None?
    ensures CountsCategoriesAsWritten(tokens, names) == DefaultMepCategories
    ensures CountsCategories(tokens, names) == DefaultMepCategories
    ensures |DefaultMepCategories| == 11 && Distinct(DefaultMepCategories)
  {
    var cats := ParseCategories(tokens, names);
    if cats != [] {
      ParseCategoriesMembers(tokens, names, cats[0]);
      assert false;
    }
    DefaultsDistinct();
    DedupDistinct(DefaultMepCategories);
  }

  lemma DefaultsDistinct()
    ensures Distinct(DefaultMepCategories)
  {
  }

  /** Removing repeats from a list without any leaves it as it is. */
  lemma {:induction false} DedupDistinct(cats: seq<string>)
    requires Distinct(cats)
    ensures Dedup(cats) == cats
    decreases |cats|
  {
    if cats != [] {
      var init := cats[..|cats| - 1];
      assert Distinct(init) by {
        forall a, b | 0 <= a < b < |init| ensures init[a] != init[b] {
          assert init[a] == cats[a] && init[b] == cats[b];
        }
      }
      DedupDistinct(init);
      assert cats[|cats| - 1] !in init by {
        forall j | 0 <= j < |init| ensures init[j] != cats[|cats| - 1] {
          assert init[j] == cats[j];
        }
      }
      assert init + [cats[|cats| - 1]] == cats;
    }
  }

  lemma VisitTwice(e: Element, c: string)
    requires e.bic == Some(c)
    ensures Visit([e], [c, c]) == [e, e]
  {
    var f := (c: string) => OfCategory([e], c);
    assert OfCategory([e], c) == [e];
    assert [c, c][1..] == [c];
    var one: seq<string> := [c];
    assert one[1..] == [];
    assert FlatMap(one, f) == [e];
  }

  /**
   * Two tokens naming the same category (such as "PipeFitting" and "OST_PipeFitting")
   * make the as-written walk visit that category's elements twice; with the repeat
   * removed each is visited once.
   */
  lemma DuplicateCategoryCountsTwice(t1: string, t2: string, names: seq<string>, c: string, e: Element)
    requires TryParseBuiltInCategory(t1, names) == Some(c) && TryParseBuiltInCategory(t2, names) == Some(c)
    requires e.bic == Some(c)
    ensures CountsCategoriesAsWritten([t1, t2], names) == [c, c]
    ensures Visit([e], CountsCategoriesAsWritten([t1, t2], names)) == [e, e]
    ensures Visit([e], CountsCategories([t1, t2], names)) == [e]
  {
    ParsedTwice(t1, t2, names, c);
    VisitTwice(e, c);
    DedupPair(c);
    VisitOnceOne(e, c);
  }

  lemma ParsedTwice(t1: string, t2: string, names: seq<string>, c: string)
    requires TryParseBuiltInCategory(t1, names) == Some(c) && TryParseBuiltInCategory(t2, names) == Some(c)
    ensures CountsCategoriesAsWritten([t1, t2], names) == [c, c]
  {
    var tokens := [t1, t2];
    assert tokens[1..] == [t2];
    var last: seq<string> := [t2];
    assert last[1..] == [];
    assert ParseCategories(last, names) == [c];
  }

  lemma DedupPair(c: string)
    ensures Dedup([c, c]) == [c]
  {
    var one: seq<string> := [c];
    assert [c, c][..1] == one && one[..0] == [];
    assert Dedup(one) == one;
  }

  lemma VisitOnceOne(e: Element, c: string)
    requires e.bic == Some(c)
    ensures Visit([e], [c]) == [e]
  {
    var one: seq<string> := [c];
    var f := (c: string) => OfCategory([e], c);
    assert one[1..] == [];
    assert [e][1..] == [];
    assert OfCategory([e], c) == [e];
    assert FlatMap(one, f) == f(c) + FlatMap(one[1..], f);
  }

  /** The categories with later repeats removed. */
  function Dedup(cats: seq<string>): (r: seq<string>)
    ensures Distinct(r)
    ensures forall c :: c in r <==> c in cats
    decreases |cats|
  {
    if cats == [] then []
    else
      var rest := Dedup(cats[..|cats| - 1]);
      if cats[|cats| - 1] in rest then rest else rest + [cats[|cats| - 1]]
  }

  /** The categories the MEP and electrical count walks: the parsed tokens once each, or the defaults. */
  function CountsCategories(tokens: seq<string>, names: seq<string>): (r: seq<string>)
    ensures Distinct(r)
    ensures forall c :: c in r <==> c in CountsCategoriesAsWritten(tokens, names)
  {
    Dedup(CountsCategoriesAsWritten(tokens, names))
  }

  /** Membership of an element's category in a list of categories. */
  function InCategories(cats: seq<string>): Element -> bool
  {
    (e: Element) => e.bic.Some? && e.bic.value in cats
  }

  /** With distinct categories, the walk visits exactly the elements in one of them, each once. */
  lemma {:induction false} VisitOnce(elems: seq<Element>, cats: seq<string>)
    requires Distinct(cats)
    ensures multiset(Visit(elems, cats)) == multiset(Keep(elems, InCategories(cats)))
    decreases |cats|
  {
    if cats == [] {
      KeepNone(elems, InCategories(cats));
    } else {
      var rest := cats[1..];
      assert Distinct(rest) by {
        forall a, b | 0 <= a < b < |rest| ensures rest[a] != rest[b] {
          assert rest[a] == cats[a + 1] && rest[b] == cats[b + 1];
        }
      }
      VisitOnce(elems, rest);
      assert cats[0] !in rest by {
        forall j | 0 <= j < |rest| ensures rest[j] != cats[0] {
          assert rest[j] == cats[j + 1];
        }
      }
      KeepSplit(elems, cats);
      assert Visit(elems, cats) == OfCategory(elems, cats[0]) + Visit(elems, rest);
    }
  }

  /** Elements in the first category or in the others (which do not repeat it) are those of each. */
  lemma {:induction false} KeepSplit(elems: seq<Element>, cats: seq<string>)
    requires cats != [] && cats[0] !in cats[1..]
    ensures multiset(Keep(elems, InCategories(cats)))
         == multiset(OfCategory(elems, cats[0])) + multiset(Keep(elems, InCategories(cats[1..])))
    decreases |elems|
  {
    if elems != [] {
      KeepSplit(elems[1..], cats);
      var e := elems[0];
      assert InCategories(cats)(e) == (e.bic == Some(cats[0]) || InCategories(cats[1..])(e));
    }
  }

  /** The loop over the categories, collecting each one's elements in category order. */
  method VisitCategories(elems: seq<Element>, cats: seq<string>) returns (es: seq<Element>)
    ensures es == Visit(elems, cats)
  {
    es := [];
    var i := 0;
    while i < |cats|
      invariant 0 <= i <= |cats|
      invariant es == Visit(elems, cats[..i])
    {
      FlatMapPrefix(cats, i, (c: string) => OfCategory(elems, c));
      es := es + OfCategory(elems, cats[i]);
      i := i + 1;
    }
    assert cats[..i] == cats;
  }

  /** qto.counts.mep_electrical: the elements of each category, counted per group. */
  method QtoCountsMepElectrical(elems: seq<Element>, tokens: seq<string>, names: seq<string>,
                                groupBy: seq<string>, includeIds: bool) returns (r: Takeoff<Element>)
    ensures var es := Visit(elems, CountsCategories(tokens, names));
      var items := MapAll(es, (e: Element) => CountItem(e, groupBy));
      && GroupedBy(items, r.keys, r.groups)
      && SumOf(r.keys, r.groups, AccCount) == |es| as real
      && r.rows == (if includeIds then Some(es) else None)
  {
    var cats := CountsCategories(tokens, names);
    var es := VisitCategories(elems, cats);
    var items := CountItems(es, groupBy);
    MapAllIndex(es, (e: Element) => CountItem(e, groupBy));
    var keys, groups, _, _, _ := Accumulate(items);
    r := Takeoff(keys, groups, if includeIds then Some(es) else None);
  }

  // ---------------------------------------------------------------------------
  // qto.mep.pipes: diameter buckets
  // ---------------------------------------------------------------------------

  predicate SortedReals(xs: seq<real>)
  {
    forall i, j :: 0 <= i < j < |xs| ==> xs[i] <= xs[j]
  }

  function InsertReal(x: real, xs: seq<real>): (r: seq<real>)
    ensures multiset(r) == multiset(xs) + multiset{x}
    decreases |xs|
  {
    if xs == [] || x <= xs[0] then [x] + xs
    else
      assert xs == [xs[0]] + xs[1..];
      [xs[0]] + InsertReal(x, xs[1..])
  }

  lemma {:induction false} InsertRealSorted(x: real, xs: seq<real>)
    requires SortedReals(xs)
    ensures SortedReals(InsertReal(x, xs))
    decreases |xs|
  {
    if xs != [] && x > xs[0] {
      var tail := xs[1..];
      assert SortedReals(tail) by {
        forall i, j | 0 <= i < j < |tail| ensures tail[i] <= tail[j] {
          assert tail[i] == xs[i + 1] && tail[j] == xs[j + 1];
        }
      }
      InsertRealSorted(x, tail);
      var rest := InsertReal(x, tail);
      forall k | 0 <= k < |rest| ensures xs[0] <= rest[k] {
        assert rest[k] in multiset(rest);
        if rest[k] != x {
          assert rest[k] in multiset(tail);
          var m :| 0 <= m < |tail| && tail[m] == rest[k];
          assert tail[m] == xs[m + 1];
        }
      }
      SortedRealsCons(xs[0], rest);
    }
  }

  /** A sorted sequence stays sorted behind a head no greater than any of its elements. */
  lemma SortedRealsCons(x: real, r: seq<real>)
    requires SortedReals(r) && forall k :: 0 <= k < |r| ==> x <= r[k]
    ensures SortedReals([x] + r)
  {
    forall i, j | 0 <= i < j < |[x] + r| ensures ([x] + r)[i] <= ([x] + r)[j] {
      if i > 0 {
        assert ([x] + r)[i] == r[i - 1];
      }
      assert ([x] + r)[j] == r[j - 1];
    }
  }

  /** OrderBy(x => x): the bucket bounds ascending. */
  function SortReals(xs: seq<real>): (r: seq<real>)
    ensures SortedReals(r) && multiset(r) == multiset(xs)
    decreases |xs|
  {
    if xs == [] then []
    else
      assert xs == [xs[0]] + xs[1..];
      InsertRealSorted(xs[0], SortReals(xs[1..]));
      InsertReal(xs[0], SortReals(xs[1..]))
  }

  /** A pipe's diameter bucket: all pipes, at most a bound, or above the largest bound. */
  datatype Bucket = All | AtMost(bound: real) | Above(largest: real)

  /** The bucket's label, given how a double is printed: "all", "≤{b}mm" or ">{last}mm". */
  function BucketLabel(b: Bucket, show: real -> string): string
  {
    match b
    case All => "all"
    case AtMost(x) => "\U{2264}" + show(x) + "mm"
    case Above(x) => ">" + show(x) + "mm"
  }

  /**
   * The reply keys byBucket by label. When doubles print distinctly, distinct
   * buckets have distinct labels, so keying by the bucket itself groups the
   * same pipes.
   */
  lemma BucketLabelInjective(b1: Bucket, b2: Bucket, show: real -> string)
    requires forall x, y :: show(x) == show(y) ==> x == y
    ensures BucketLabel(b1, show) == BucketLabel(b2, show) <==> b1 == b2
  {
    var l1, l2 := BucketLabel(b1, show), BucketLabel(b2, show);
    if b1.AtMost? && b2.AtMost? && l1 == l2 {
      MmSuffixCancels(show(b1.bound), show(b2.bound), l1[1..]);
    } else if b1.Above? && b2.Above? && l1 == l2 {
      MmSuffixCancels(show(b1.largest), show(b2.largest), l1[1..]);
    } else if b1.All? != b2.All? || b1.AtMost? != b2.AtMost? {
      assert l1[0] != l2[0];
    }
  }

  /** Two printed numbers followed by "mm" are the same text only when the numbers print the same. */
  lemma MmSuffixCancels(a: string, b: string, t: string)
    requires a + "mm" == t && b + "mm" == t
    ensures a == b
  {
    assert a == t[..|t| - 2];
    assert b == t[..|t| - 2];
  }

  /** The first of the sorted bounds that the diameter does not exceed. */
  function FirstAtLeast(bounds: seq<real>, mm: real): Option<real>
    decreases |bounds|
  {
    if bounds == [] then None
    else if mm <= bounds[0] then Some(bounds[0])
    else FirstAtLeast(bounds[1..], mm)
  }

  function BucketOf(bounds: seq<real>, mm: real): Bucket
  {
    if bounds == [] then All
    else match FirstAtLeast(bounds, mm)
      case Some(b) => AtMost(b)
      case None => Above(bounds[|bounds| - 1])
  }

  /** BucketName: the loop over the sorted bounds, returning at the first bound the diameter does not exceed. */
  method BucketName(bounds: seq<real>, mm: real) returns (r: Bucket)
    ensures r == BucketOf(bounds, mm)
  {
    if |bounds| == 0 {
      return All;
    }
    var i := 0;
    while i < |bounds|
      invariant 0 <= i <= |bounds|
      invariant FirstAtLeast(bounds, mm) == FirstAtLeast(bounds[i..], mm)
    {
      if mm <= bounds[i] {
        return AtMost(bounds[i]);
      }
      assert bounds[i..][1..] == bounds[i + 1..];
      i := i + 1;
    }
    return Above(bounds[|bounds| - 1]);
  }

  /**
   * With ascending bounds, a diameter falls in the bucket of the smallest bound
   * it does not exceed, and above the largest bound when it exceeds them all.
   */
  lemma {:induction false} BucketIsSmallestBound(bounds: seq<real>, mm: real)
    requires SortedReals(bounds)
    ensures bounds == [] <==> BucketOf(bounds, mm) == All
    ensures BucketOf(bounds, mm).AtMost? ==>
      var b := BucketOf(bounds, mm).bound;
      b in bounds && mm <= b && forall j :: 0 <= j < |bounds| && mm <= bounds[j] ==> b <= bounds[j]
    ensures BucketOf(bounds, mm).Above? ==>
      BucketOf(bounds, mm).largest == bounds[|bounds| - 1] && forall j :: 0 <= j < |bounds| ==> bounds[j] < mm
    decreases |bounds|
  {
    if bounds != [] {
      FirstAtLeastSpec(bounds, mm);
    }
  }

  lemma {:induction false} FirstAtLeastSpec(bounds: seq<real>, mm: real)
    requires SortedReals(bounds)
    ensures FirstAtLeast(bounds, mm).Some? ==>
      var b := FirstAtLeast(bounds, mm).value;
      b in bounds && mm <= b && forall j :: 0 <= j < |bounds| && mm <= bounds[j] ==> b <= bounds[j]
    ensures FirstAtLeast(bounds, mm).None? ==> forall j :: 0 <= j < |bounds| ==> bounds[j] < mm
    decreases |bounds|
  {
    if bounds != [] && mm > bounds[0] {
      var rest := bounds[1..];
      assert SortedReals(rest) by {
        forall i, j | 0 <= i < j < |rest| ensures rest[i] <= rest[j] {
          assert rest[i] == bounds[i + 1] && rest[j] == bounds[j + 1];
        }
      }
      FirstAtLeastSpec(rest, mm);
      forall j | 0 < j < |bounds| ensures bounds[j] == rest[j - 1] {
      }
    }
  }

  /** A pipe as the take-off reads it; quantities in feet. */
  datatype Pipe = Pipe(
    id: int, system: Option<string>, typeName: Option<string>, level: Option<string>,
    lengthFt: Option<real>, diameterFt: Option<real>)

  function PipeParts(p: Pipe): Parts
  {
    [("system", p.system), ("type", p.typeName), ("level", p.level)]
  }

  function PipeItem(p: Pipe, groupBy: seq<string>): Item
  {
    ItemOf(PipeParts(p), groupBy, FtToM(OrZero(p.lengthFt)), 0.0, 0.0)
  }

  /** The diameter in millimetres the bucket is chosen by (a missing diameter is 0). */
  function PipeDiameterMm(p: Pipe): real
  {
    FtToMm(OrZero(p.diameterFt))
  }

  /** A row of `rows`: the pipe's id, names, diameter in millimetres and length in metres. */
  datatype PipeRow = PipeRow(
    id: int, system: Option<string>, typeName: Option<string>, level: Option<string>, diameterMm: real, lengthM: real)

  function PipeRowOf(p: Pipe): PipeRow
  {
    PipeRow(p.id, p.system, p.typeName, p.level, PipeDiameterMm(p), FtToM(OrZero(p.lengthFt)))
  }

  method PipeItems(ps: seq<Pipe>, groupBy: seq<string>) returns (items: seq<Item>)
    ensures items == MapAll(ps, (p: Pipe) => PipeItem(p, groupBy))
  {
    items := [];
    var i := 0;
    while i < |ps|
      invariant 0 <= i <= |ps|
      invariant items == MapAll(ps[..i], (p: Pipe) => PipeItem(p, groupBy))
    {
      var p := ps[i];
      assert ps[..i + 1] == ps[..i] + [p];
      MapAllAppend(ps[..i], p, (p: Pipe) => PipeItem(p, groupBy));
      var it := KeyedItem(PipeParts(p), groupBy, FtToM(OrZero(p.lengthFt)), 0.0, 0.0);
      items := items + [it];
      i := i + 1;
    }
    assert ps[..i] == ps;
  }

  function PipeKey(p: Pipe, groupBy: seq<string>): string
  {
    GroupKey(PipeParts(p), groupBy)
  }

  function PipeBucket(p: Pipe, bounds: seq<real>): Bucket
  {
    BucketOf(bounds, PipeDiameterMm(p))
  }

  /** The total length of the pipes in group `k` whose diameter falls in bucket `b`. */
  function BucketLength(ps: seq<Pipe>, bounds: seq<real>, groupBy: seq<string>, k: string, b: Bucket): real
    decreases |ps|
  {
    if ps == [] then 0.0
    else
      var last := ps[|ps| - 1];
      BucketLength(ps[..|ps| - 1], bounds, groupBy, k, b)
        + (if PipeKey(last, groupBy) == k && PipeBucket(last, bounds) == b then FtToM(OrZero(last.lengthFt)) else 0.0)
  }

  /** Some pipe falls in group `kb.0` and bucket `kb.1`. */
  ghost predicate Occurs(ps: seq<Pipe>, bounds: seq<real>, groupBy: seq<string>, kb: (string, Bucket))
  {
    exists i :: 0 <= i < |ps| && PipeKey(ps[i], groupBy) == kb.0 && PipeBucket(ps[i], bounds) == kb.1
  }

  lemma {:induction false} AbsentBucket(ps: seq<Pipe>, bounds: seq<real>, groupBy: seq<string>, kb: (string, Bucket))
    requires !Occurs(ps, bounds, groupBy, kb)
    ensures BucketLength(ps, bounds, groupBy, kb.0, kb.1) == 0.0
    decreases |ps|
  {
    if ps != [] {
      var init := ps[..|ps| - 1];
      assert forall j :: 0 <= j < |init| ==> init[j] == ps[j];
      AbsentBucket(init, bounds, groupBy, kb);
      assert !(PipeKey(ps[|ps| - 1], groupBy) == kb.0 && PipeBucket(ps[|ps| - 1], bounds) == kb.1);
    }
  }

  /** The byBucket dictionaries: per group and bucket that occur, the total length. */
  method BucketTotals(ps: seq<Pipe>, bounds: seq<real>, groupBy: seq<string>) returns (m: map<(string, Bucket), real>)
    ensures forall kb :: kb in m <==> Occurs(ps, bounds, groupBy, kb)
    ensures forall kb :: kb in m ==> m[kb] == BucketLength(ps, bounds, groupBy, kb.0, kb.1)
  {
    m := map[];
    var i := 0;
    while i < |ps|
      invariant 0 <= i <= |ps|
      invariant forall kb :: kb in m <==> Occurs(ps[..i], bounds, groupBy, kb)
      invariant forall kb :: kb in m ==> m[kb] == BucketLength(ps[..i], bounds, groupBy, kb.0, kb.1)
    {
      var p := ps[i];
      var k := KeyFromGroupBy(PipeParts(p), groupBy);
      var b := BucketName(bounds, PipeDiameterMm(p));
      var len := FtToM(OrZero(p.lengthFt));
      BucketStep(ps, bounds, groupBy, i);
      if (k, b) !in m {
        AbsentBucket(ps[..i], bounds, groupBy, (k, b));
      }
      m := m[(k, b) := (if (k, b) in m then m[(k, b)] else 0.0) + len];
      i := i + 1;
    }
    assert ps[..i] == ps;
  }

  lemma BucketStep(ps: seq<Pipe>, bounds: seq<real>, groupBy: seq<string>, i: nat)
    requires i < |ps|
    ensures forall kb :: (Occurs(ps[..i + 1], bounds, groupBy, kb)
      <==> (Occurs(ps[..i], bounds, groupBy, kb) || kb == (PipeKey(ps[i], groupBy), PipeBucket(ps[i], bounds))))
    ensures forall k, b :: (BucketLength(ps[..i + 1], bounds, groupBy, k, b)
      == BucketLength(ps[..i], bounds, groupBy, k, b)
       + (if PipeKey(ps[i], groupBy) == k && PipeBucket(ps[i], bounds) == b then FtToM(OrZero(ps[i].lengthFt)) else 0.0))
  {
    OccursStep(ps, bounds, groupBy, i);
    var pre := ps[..i + 1];
    assert pre[..i] == ps[..i] && pre[i] == ps[i];
  }

  lemma OccursStep(ps: seq<Pipe>, bounds: seq<real>, groupBy: seq<string>, i: nat)
    requires i < |ps|
    ensures forall kb :: (Occurs(ps[..i + 1], bounds, groupBy, kb)
      <==> (Occurs(ps[..i], bounds, groupBy, kb) || kb == (PipeKey(ps[i], groupBy), PipeBucket(ps[i], bounds))))
  {
    var pre := ps[..i + 1];
    assert pre[..i] == ps[..i];
    forall kb | Occurs(pre, bounds, groupBy, kb) && kb != (PipeKey(ps[i], groupBy), PipeBucket(ps[i], bounds))
      ensures Occurs(ps[..i], bounds, groupBy, kb)
    {
      var j :| 0 <= j < |pre| && PipeKey(pre[j], groupBy) == kb.0 && PipeBucket(pre[j], bounds) == kb.1;
      assert pre[j] == ps[..i][j];
    }
    forall kb | Occurs(ps[..i], bounds, groupBy, kb) ensures Occurs(pre, bounds, groupBy, kb) {
      var j :| 0 <= j < i && PipeKey(ps[..i][j], groupBy) == kb.0 && PipeBucket(ps[..i][j], bounds) == kb.1;
      assert pre[j] == ps[..i][j];
    }
    assert pre[i] == ps[i];
  }

  /** qto.mep.pipes: the pipes' lengths and counts per group, and per group the length in each diameter bucket. */
  method QtoMepPipes(pipes: seq<Pipe>, bucketsMm: seq<real>, groupBy: seq<string>, includeIds: bool)
    returns (r: Takeoff<PipeRow>, byBucket: map<(string, Bucket), real>)
    ensures var items := MapAll(pipes, (p: Pipe) => PipeItem(p, groupBy));
      && GroupedBy(items, r.keys, r.groups)
      && SumOf(r.keys, r.groups, AccCount) == |pipes| as real
      && SumOf(r.keys, r.groups, AccLen) == SumAll(items, ItemLen)
      && r.rows == (if includeIds then Some(MapAll(pipes, PipeRowOf)) else None)
    ensures forall kb :: kb in byBucket <==> Occurs(pipes, SortReals(bucketsMm), groupBy, kb)
    ensures forall kb :: kb in byBucket ==> byBucket[kb] == BucketLength(pipes, SortReals(bucketsMm), groupBy, kb.0, kb.1)
  {
    var bounds := SortReals(bucketsMm);
    var items := PipeItems(pipes, groupBy);
    MapAllIndex(pipes, (p: Pipe) => PipeItem(p, groupBy));
    var keys, groups, _, _, _ := Accumulate(items);
    r := Takeoff(keys, groups, if includeIds then Some(MapAll(pipes, PipeRowOf)) else None);
    byBucket := BucketTotals(pipes, bounds, groupBy);
  }

  // ---------------------------------------------------------------------------
  // qto.mep.ducts: shapes and surface areas
  // ---------------------------------------------------------------------------

  /** A duct as the take-off reads it; dimensions in feet, a missing one is None. */
  datatype Duct = Duct(
    id: int, system: Option<string>, typeName: Option<string>, level: Option<string>,
    lengthFt: Option<real>, diameterFt: Option<real>, widthFt: Option<real>, heightFt: Option<real>)

  /** The diameter, in feet, above which a duct counts as round. */
  const RoundMinimum: real := 0.000000001

  /** Math.PI. */
  const Pi: real := 3.141592653589793

  predicate IsRound(d: Duct)
  {
    d.diameterFt.Some? && d.diameterFt.value > RoundMinimum
  }

  function ShapeName(d: Duct): string
  {
    if IsRound(d) then "round" else "rect"
  }

  /** The estimated outer surface: π·d·L for a round duct, 2(w+h)·L for a rectangular one with both sides given, else 0. */
  function SurfaceArea(d: Duct): real
  {
    var len := FtToM(OrZero(d.lengthFt));
    if IsRound(d) then Pi * FtToM(d.diameterFt.value) * len
    else if d.widthFt.Some? && d.heightFt.Some? && d.widthFt.value > 0.0 && d.heightFt.value > 0.0 then
      2.0 * (FtToM(d.widthFt.value) + FtToM(d.heightFt.value)) * len
    else 0.0
  }

  /** The surface estimate is never negative for a duct of non-negative length, and 0 without a usable size. */
  lemma SurfaceAreaBounds(d: Duct)
    requires OrZero(d.lengthFt) >= 0.0
    ensures SurfaceArea(d) >= 0.0
    ensures !IsRound(d) && (d.widthFt.None? || d.heightFt.None?) ==> SurfaceArea(d) == 0.0
  {
    var len := FtToM(OrZero(d.lengthFt));
    assert len >= 0.0;
    if IsRound(d) {
      assert FtToM(d.diameterFt.value) > 0.0;
    } else if d.widthFt.Some? && d.heightFt.Some? && d.widthFt.value > 0.0 && d.heightFt.value > 0.0 {
      assert FtToM(d.widthFt.value) + FtToM(d.heightFt.value) > 0.0;
    }
  }

  /** The duct's parts: system, type and level, and its shape last when roundVsRect. */
  function DuctParts(d: Duct, roundVsRect: bool): Parts
  {
    [("system", d.system), ("type", d.typeName), ("level", d.level)]
      + (if roundVsRect then [("shape", Some(ShapeName(d)))] else [])
  }

  /** The grouping used: groupBy, with "shape" appended when roundVsRect. */
  function DuctGroupBy(groupBy: seq<string>, roundVsRect: bool): seq<string>
  {
    groupBy + (if roundVsRect then ["shape"] else [])
  }

  function DuctItem(d: Duct, groupBy: seq<string>, roundVsRect: bool): Item
  {
    ItemOf(DuctParts(d, roundVsRect), DuctGroupBy(groupBy, roundVsRect), FtToM(OrZero(d.lengthFt)), SurfaceArea(d), 0.0)
  }

  lemma {:induction false} LookupSnoc(parts: Parts, x: (string, Option<string>), g: string)
    ensures LookupIgnoreCase(parts + [x], g)
         == if LookupIgnoreCase(parts, g).Some? then LookupIgnoreCase(parts, g) else if EqIgnoreCase(x.0, g) then Some(x.1) else None
    decreases |parts|
  {
    if parts == [] {
      assert [x][1..] == [];
    } else {
      assert (parts + [x])[1..] == parts[1..] + [x];
      LookupSnoc(parts[1..], x, g);
    }
  }

  /**
   * With roundVsRect and a groupBy that does not already name the shape, a duct's
   * key is its key without the shape followed by "shape:round" or "shape:rect".
   */
  lemma DuctShapeKey(d: Duct, groupBy: seq<string>)
    requires forall i :: 0 <= i < |groupBy| ==> !EqIgnoreCase(groupBy[i], "shape")
    ensures GroupKey(DuctParts(d, true), DuctGroupBy(groupBy, true))
         == if groupBy == [] then "shape:" + ShapeName(d) else GroupKey(DuctParts(d, false), groupBy) + "|shape:" + ShapeName(d)
  {
    var last := "shape:" + ShapeName(d);
    DuctSegments(d, groupBy);
    if groupBy != [] {
      JoinSnoc(Segments(DuctParts(d, false), groupBy), last, "|");
    } else {
      assert Segments(DuctParts(d, false), groupBy) + [last] == [last];
    }
  }

  lemma DuctSegments(d: Duct, groupBy: seq<string>)
    requires forall i :: 0 <= i < |groupBy| ==> !EqIgnoreCase(groupBy[i], "shape")
    ensures Segments(DuctParts(d, true), DuctGroupBy(groupBy, true))
         == Segments(DuctParts(d, false), groupBy) + ["shape:" + ShapeName(d)]
  {
    var base := DuctParts(d, false);
    var full := DuctParts(d, true);
    var x := ("shape", Some(ShapeName(d)));
    assert full == base + [x];
    forall i | 0 <= i < |groupBy| ensures Segment(full, groupBy[i]) == Segment(base, groupBy[i]) {
      LookupSnoc(base, x, groupBy[i]);
    }
    LookupSnoc(base, x, "shape");
    ShapeLookup(d);
    assert Segment(full, "shape") == "shape:" + ShapeName(d);
  }

  lemma ShapeLookup(d: Duct)
    ensures LookupIgnoreCase(DuctParts(d, false), "shape").None?
  {
    var base := DuctParts(d, false);
    assert Lower("level")[0] == 'l';
    assert LookupIgnoreCase(base, "shape") == LookupIgnoreCase(base[1..], "shape");
    assert LookupIgnoreCase(base[1..], "shape") == LookupIgnoreCase(base[2..], "shape");
    assert LookupIgnoreCase(base[2..], "shape") == LookupIgnoreCase(base[3..], "shape");
    assert base[3..] == [];
  }

  /** With roundVsRect, a round and a rectangular duct never share a group. */
  lemma RoundAndRectSeparate(d1: Duct, d2: Duct, groupBy: seq<string>)
    requires forall i :: 0 <= i < |groupBy| ==> !EqIgnoreCase(groupBy[i], "shape")
    requires IsRound(d1) && !IsRound(d2)
    ensures GroupKey(DuctParts(d1, true), DuctGroupBy(groupBy, true)) != GroupKey(DuctParts(d2, true), DuctGroupBy(groupBy, true))
  {
    DuctShapeKey(d1, groupBy);
    DuctShapeKey(d2, groupBy);
    var k1 := GroupKey(DuctParts(d1, true), DuctGroupBy(groupBy, true));
    var k2 := GroupKey(DuctParts(d2, true), DuctGroupBy(groupBy, true));
    assert k1[|k1| - 1] == 'd';
    assert k2[|k2| - 1] == 't';
  }

  /** A row of `rows`: the duct's id, names, shape, length and surface estimate. */
  datatype DuctRow = DuctRow(
    id: int, system: Option<string>, typeName: Option<string>, level: Option<string>,
    shape: string, lengthM: real, surfaceAreaM2: real)

  function DuctRowOf(d: Duct): DuctRow
  {
    DuctRow(d.id, d.system, d.typeName, d.level, ShapeName(d), FtToM(OrZero(d.lengthFt)), SurfaceArea(d))
  }

  method DuctItems(ds: seq<Duct>, groupBy: seq<string>, roundVsRect: bool) returns (items: seq<Item>)
    ensures items == MapAll(ds, (d: Duct) => DuctItem(d, groupBy, roundVsRect))
  {
    ghost var f := (d: Duct) => DuctItem(d, groupBy, roundVsRect);
    items := [];
    var i := 0;
    while i < |ds|
      invariant 0 <= i <= |ds|
      invariant items == MapAll(ds[..i], f)
    {
      var d := ds[i];
      assert ds[..i + 1] == ds[..i] + [d];
      MapAllAppend(ds[..i], d, f);
      var gb := groupBy + (if roundVsRect then ["shape"] else []);
      var it := KeyedItem(DuctParts(d, roundVsRect), gb, FtToM(OrZero(d.lengthFt)), SurfaceArea(d), 0.0);
      items := items + [it];
      i := i + 1;
    }
    assert ds[..i] == ds;
  }

  /** qto.mep.ducts: the ducts' lengths, surface estimates and counts per group. */
  method QtoMepDucts(ducts: seq<Duct>, groupBy: seq<string>, roundVsRect: bool, includeIds: bool)
    returns (r: Takeoff<DuctRow>)
    ensures var items := MapAll(ducts, (d: Duct) => DuctItem(d, groupBy, roundVsRect));
      && GroupedBy(items, r.keys, r.groups)
      && SumOf(r.keys, r.groups, AccCount) == |ducts| as real
      && SumOf(r.keys, r.groups, AccLen) == SumAll(items, ItemLen)
      && SumOf(r.keys, r.groups, AccArea) == SumAll(items, ItemArea)
      && r.rows == (if includeIds then Some(MapAll(ducts, DuctRowOf)) else None)
  {
    var items := DuctItems(ducts, groupBy, roundVsRect);
    MapAllIndex(ducts, (d: Duct) => DuctItem(d, groupBy, roundVsRect));
    var keys, groups, _, _, _ := Accumulate(items);
    r := Takeoff(keys, groups, if includeIds then Some(MapAll(ducts, DuctRowOf)) else None);
  }
}
