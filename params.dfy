// The parameter tools' argument normalisers (mcp_parameters/dist/index.js):
// loose tool arguments become the exact bodies of params.get, params.set and
// params.set_where. JSON.parse is the parameter `parse` (None when it throws);
// `show` is String() of a non-string value.

module Params {
  import opened Text
  import opened Json
  import opened Seqs
  import JsNum

  // ---------------------------------------------------------------------------
  // Scalar helpers
  // ---------------------------------------------------------------------------

  /** parseMaybeJson: a string that parses as JSON becomes the parsed value; anything else is kept. */
  function ParseMaybeJson(v: Option<Json>, parse: string -> Option<Json>): (r: Option<Json>)
    ensures !(v.Some? && v.value.Str?) ==> r == v
    ensures v.Some? ==> r.Some?
    ensures v.Some? && v.value.Str? && parse(v.value.s).None? ==> r == v
    ensures v.Some? && v.value.Str? && parse(v.value.s).Some? ==> r == parse(v.value.s)
  {
    match v
    case Some(Str(s)) => (match parse(s) case Some(j) => Some(j) case None => v)
    case _ => v
  }

  /**
   * toBoolNum. The boolean test trims and lower-cases, but the numeric test reads
   * the untrimmed string and only refuses the empty one, so "  " becomes 0.
   * An infinity is written as null, as JSON.stringify writes it.
   */
  function ToBoolNum(v: Option<Json>): (r: Option<Json>)
    ensures !(v.Some? && v.value.Str?) ==> r == v
    ensures v.Some? ==> r.Some?
  {
    match v
    case Some(Str(str)) =>
      var s := Lower(Trim(str));
      if s == "true" then Some(Bool(true))
      else if s == "false" then Some(Bool(false))
      else if str == [] then v
      else
        (match JsNum.StringToNumber(str)
         case Finite(x) => Some(Num(x))
         case Infinity(_) => Some(Null)
         case NaN => v)
    case _ => v
  }

  /** Trimmed "true" and "false", in any case, become booleans, and nothing else does. */
  lemma ToBoolNumWords(str: string)
    ensures ToBoolNum(Some(Str(str))) == Some(Bool(true)) <==> Lower(Trim(str)) == "true"
    ensures ToBoolNum(Some(Str(str))) == Some(Bool(false)) <==> Lower(Trim(str)) == "false"
  {
  }

  /** Any other non-empty string that Number reads as finite becomes that number; one it cannot read is kept. */
  lemma ToBoolNumNumbers(str: string)
    requires Lower(Trim(str)) != "true" && Lower(Trim(str)) != "false"
    ensures str != [] && JsNum.StringToNumber(str).Finite? ==>
      ToBoolNum(Some(Str(str))) == Some(Num(JsNum.StringToNumber(str).value))
    ensures str == [] || JsNum.StringToNumber(str).NaN? ==> ToBoolNum(Some(Str(str))) == Some(Str(str))
    ensures ToBoolNum(Some(Str(str))).value.Num? ==> str != [] && JsNum.StringToNumber(str).Finite?
  {
  }

  /** A second pass changes nothing: every converted value is no longer a string. */
  lemma ToBoolNumIdempotent(v: Option<Json>)
    ensures ToBoolNum(ToBoolNum(v)) == ToBoolNum(v)
  {
  }

  /** A non-empty blank string is read by Number as 0. */
  lemma ToBoolNumBlank(str: string)
    requires str != [] && IsBlank(str)
    ensures ToBoolNum(Some(Str(str))) == Some(Num(0.0))
  {
    TrimEmptyIffBlank(str);
    assert Lower(Trim(str)) == [];
  }

  /** The decimal spelling of a natural number becomes that number. */
  lemma ToBoolNumNat(n: nat)
    ensures ToBoolNum(Some(Str(NatToString(n)))) == Some(Num(n as real))
  {
    var d := NatToString(n);
    JsNum.NumberOfNat(n);
    DigitsAreNoBoolWord(d);
    ToBoolNumNumbers(d);
  }

  lemma DigitsAreNoBoolWord(d: string)
    requires JsNum.AllDigits(d) && d != []
    ensures Lower(Trim(d)) != "true" && Lower(Trim(d)) != "false"
  {
    JsNum.DigitsNoSpace(d);
    var low := Lower(Trim(d));
    assert low[0] == LowerChar(d[0]) && IsDigit(d[0]);
    assert "true"[0] == 't' && "false"[0] == 'f';
  }

  // ---------------------------------------------------------------------------
  // GUID and built-in-parameter tokens
  // ---------------------------------------------------------------------------

  predicate IsHex(c: char)
  {
    '0' <= c <= '9' || 'a' <= c <= 'f' || 'A' <= c <= 'F'
  }

  predicate AllHex(s: string)
  {
    forall i :: 0 <= i < |s| ==> IsHex(s[i])
  }

  /** The positions of the four dashes of an 8-4-4-4-12 GUID. */
  predicate IsGuidDash(i: int)
  {
    i == 8 || i == 13 || i == 18 || i == 23
  }

  /** looksLikeGuid: 8-4-4-4-12 hex digits in either case, version digit 1-5, variant digit 8, 9, a or b. */
  predicate LooksLikeGuid(s: string)
  {
    |s| == 36 &&
    (forall i :: 0 <= i < 36 ==> if IsGuidDash(i) then s[i] == '-' else IsHex(s[i])) &&
    '1' <= s[14] <= '5' &&
    s[19] in "89abAB"
  }

  predicate IsBipChar(c: char)
  {
    'A' <= c <= 'Z' || '0' <= c <= '9' || c == '_'
  }

  /** looksLikeBip: a non-empty run of capital letters, digits and underscores. */
  predicate LooksLikeBip(s: string)
  {
    s != [] && forall i :: 0 <= i < |s| ==> IsBipChar(s[i])
  }

  function Dashed(a: string, b: string, c: string, d: string, e: string): string
  {
    a + "-" + b + "-" + c + "-" + d + "-" + e
  }

  /** The GUID pattern read segment by segment. */
  lemma GuidBySegments(a: string, b: string, c: string, d: string, e: string)
    requires |a| == 8 && |b| == 4 && |c| == 4 && |d| == 4 && |e| == 12
    ensures LooksLikeGuid(Dashed(a, b, c, d, e)) <==>
      AllHex(a) && AllHex(b) && AllHex(c) && AllHex(d) && AllHex(e) &&
      '1' <= c[0] <= '5' && d[0] in "89abAB"
  {
    var g := Dashed(a, b, c, d, e);
    assert |g| == 36;
    assert g[8] == '-' && g[13] == '-' && g[18] == '-' && g[23] == '-';
    assert g[14] == c[0] && g[19] == d[0];
    if AllHex(a) && AllHex(b) && AllHex(c) && AllHex(d) && AllHex(e) {
      forall i | 0 <= i < 36 ensures if IsGuidDash(i) then g[i] == '-' else IsHex(g[i]) {
        if i < 8 { assert g[i] == a[i]; }
        else if 9 <= i < 13 { assert g[i] == b[i - 9]; }
        else if 14 <= i < 18 { assert g[i] == c[i - 14]; }
        else if 19 <= i < 23 { assert g[i] == d[i - 19]; }
        else if 24 <= i { assert g[i] == e[i - 24]; }
      }
    }
    if LooksLikeGuid(g) {
      forall j | 0 <= j < 8 ensures IsHex(a[j]) { assert g[j] == a[j]; }
      forall j | 0 <= j < 4 ensures IsHex(b[j]) { assert g[9 + j] == b[j]; }
      forall j | 0 <= j < 4 ensures IsHex(c[j]) { assert g[14 + j] == c[j]; }
      forall j | 0 <= j < 4 ensures IsHex(d[j]) { assert g[19 + j] == d[j]; }
      forall j | 0 <= j < 12 ensures IsHex(e[j]) { assert g[24 + j] == e[j]; }
    }
  }

  /** Every GUID-shaped string is five segments joined by dashes. */
  lemma GuidSplits(s: string)
    requires LooksLikeGuid(s)
    ensures s == Dashed(s[..8], s[9..13], s[14..18], s[19..23], s[24..])
  {
    var g := Dashed(s[..8], s[9..13], s[14..18], s[19..23], s[24..]);
    assert s[8] == '-' && s[13] == '-' && s[18] == '-' && s[23] == '-';
    forall i | 0 <= i < 36 ensures g[i] == s[i] {
      if i < 8 { assert g[i] == s[..8][i]; }
      else if i == 8 { assert g[i] == '-'; }
      else if i < 13 { assert g[i] == s[9..13][i - 9]; }
      else if i == 13 { assert g[i] == '-'; }
      else if i < 18 { assert g[i] == s[14..18][i - 14]; }
      else if i == 18 { assert g[i] == '-'; }
      else if i < 23 { assert g[i] == s[19..23][i - 19]; }
      else if i == 23 { assert g[i] == '-'; }
      else { assert g[i] == s[24..][i - 24]; }
    }
  }

  /** The two shapes never overlap: a GUID has dashes, a BIP name has none. */
  lemma GuidIsNotBip(s: string)
    requires LooksLikeGuid(s)
    ensures !LooksLikeBip(s)
  {
    assert s[8] == '-' && !IsBipChar(s[8]);
  }

  /** A BIP name is case-sensitive: a lower-case letter disqualifies it. */
  lemma BipIsUpperCase(s: string, i: nat)
    requires i < |s| && 'a' <= s[i] <= 'z'
    ensures !LooksLikeBip(s)
  {
    assert !IsBipChar(s[i]);
  }

  /** `a ?? b ?? ...`: the first value that is neither undefined nor null. */
  function FirstSet(f: Fields, keys: seq<string>): (r: Option<Json>)
    ensures r.Some? ==> !r.value.Null?
    ensures r.Some? ==> exists i :: (0 <= i < |keys| && Get(f, keys[i]) == r &&
      forall j :: 0 <= j < i ==> !Present(Get(f, keys[j])))
    ensures r.None? ==> forall i :: 0 <= i < |keys| ==> !Present(Get(f, keys[i]))
  {
    if keys == [] then None
    else if Present(Get(f, keys[0])) then Get(f, keys[0])
    else
      var r := FirstSet(f, keys[1..]);
      assert forall i :: 1 <= i < |keys| ==> keys[1..][i - 1] == keys[i];
      r
  }

  /** The fields pickToken reads, in order. */
  const TokenKeys: seq<string> := ["guid", "bip", "param", "parameter", "paramName", "parameterName"]

  /** The spellings of a parameter name, in the order they are preferred. */
  const ParamKeys: seq<string> := ["param", "parameter", "paramName", "parameterName"]

  datatype TokenKind = GuidToken | BipToken | ParamToken

  datatype Token = Token(kind: TokenKind, value: string)

  /** The entry field a token of each kind is written to. */
  function KindKey(k: TokenKind): (r: string)
    ensures r in ["guid", "bip", "param"]
  {
    match k
    case GuidToken => "guid"
    case BipToken => "bip"
    case ParamToken => "param"
  }

  /**
   * pickToken: the first set token field; none when it is not a non-empty string;
   * classified by its shape (GUID before BIP), not by the field it came from.
   */
  function PickToken(obj: Fields): (t: Option<Token>)
    ensures t.Some? <==> (FirstSet(obj, TokenKeys).Some? && FirstSet(obj, TokenKeys).value.Str? &&
      FirstSet(obj, TokenKeys).value.s != [])
    ensures t.Some? ==> FirstSet(obj, TokenKeys) == Some(Str(t.value.value))
    ensures t.Some? ==> (t.value.kind == GuidToken <==> LooksLikeGuid(t.value.value))
    ensures t.Some? ==> (t.value.kind == BipToken <==> !LooksLikeGuid(t.value.value) && LooksLikeBip(t.value.value))
  {
    match FirstSet(obj, TokenKeys)
    case Some(Str(s)) =>
      if s == [] then None
      else if LooksLikeGuid(s) then Some(Token(GuidToken, s))
      else if LooksLikeBip(s) then Some(Token(BipToken, s))
      else Some(Token(ParamToken, s))
    case _ => None
  }

  /** A GUID in the `bip` field is still a GUID token, and a BIP name in `param` is a BIP token. */
  lemma TokenKindIgnoresField(obj: Fields, s: string)
    requires !Present(Get(obj, "guid"))
    requires Get(obj, "bip") == Some(Str(s)) && s != []
    ensures LooksLikeGuid(s) ==> PickToken(obj) == Some(Token(GuidToken, s))
    ensures !LooksLikeGuid(s) && LooksLikeBip(s) ==> PickToken(obj) == Some(Token(BipToken, s))
  {
    assert TokenKeys[0] == "guid" && TokenKeys[1] == "bip";
    assert FirstSet(obj, TokenKeys) == Some(Str(s)) by {
      assert TokenKeys[1..][0] == "bip";
    }
  }

  /** A number in `guid` hides every later field: no token at all. */
  lemma NonStringHidesLaterFields(obj: Fields, x: real)
    requires Get(obj, "guid") == Some(Num(x))
    ensures PickToken(obj).None?
  {
    assert TokenKeys[0] == "guid";
  }

  // ---------------------------------------------------------------------------
  // Element ids
  // ---------------------------------------------------------------------------

  /** The ids of a non-empty `elementIds` array (nothing otherwise). */
  function ManyIds(many: Option<Json>): seq<Json>
  {
    match many
    case Some(Arr(xs)) => xs
    case _ => []
  }

  /** What expandElementIds returns: the `many` array, then `one` if a number, then 0 for the selection. */
  function ExpandedIds(one: Option<Json>, many: Option<Json>, useSelection: Option<Json>): (r: seq<Json>)
    ensures r == [] <==> ManyIds(many) == [] && !(one.Some? && one.value.Num?) && !Truthy(useSelection)
  {
    ManyIds(many)
    + (if one.Some? && one.value.Num? then [one.value] else [])
    + (if Truthy(useSelection) || one == Some(Num(0.0)) then [Num(0.0)] else [])
  }

  /** expandElementIds, pushing into the result array. */
  method ExpandElementIds(one: Option<Json>, many: Option<Json>, useSelection: Option<Json>) returns (ids: seq<Json>)
    ensures ids == ExpandedIds(one, many, useSelection)
  {
    ids := [];
    if many.Some? && many.value.Arr? && |many.value.items| > 0 {
      ids := ids + many.value.items;
    }
    if one.Some? && one.value.Num? {
      ids := ids + [one.value];
    }
    if Truthy(useSelection) || one == Some(Num(0.0)) {
      ids := ids + [Num(0.0)];
    }
  }

  /** The `many` ids come first, in their order. */
  lemma ExpandKeepsManyFirst(one: Option<Json>, many: Option<Json>, useSelection: Option<Json>)
    ensures var r := ExpandedIds(one, many, useSelection);
      |r| >= |ManyIds(many)| && r[..|ManyIds(many)|] == ManyIds(many)
  {
  }

  /** elementId 0 is pushed as the number and again as the selection marker. */
  lemma ExpandZeroTwice(many: Option<Json>, useSelection: Option<Json>)
    ensures ExpandedIds(Some(Num(0.0)), many, useSelection) == ManyIds(many) + [Num(0.0), Num(0.0)]
  {
  }

  /** Any other number is pushed once, with 0 after it only when the selection is asked for. */
  lemma ExpandNonZero(x: real, many: Option<Json>, useSelection: Option<Json>)
    requires x != 0.0
    ensures ExpandedIds(Some(Num(x)), many, useSelection) ==
      ManyIds(many) + [Num(x)] + (if Truthy(useSelection) then [Num(0.0)] else [])
  {
  }

  // ---------------------------------------------------------------------------
  // params.get
  // ---------------------------------------------------------------------------

  /** `raw ?? {}`. */
  function ArgsOf(raw: Option<Fields>): Fields
  {
    match raw
    case Some(f) => f
    case None => []
  }

  /** `String(v)`: a string is itself, anything else is spelled by `show`. */
  function StringOf(v: Json, show: Json -> string): string
  {
    if v.Str? then v.s else show(v)
  }

  function GetIds(args: Fields): seq<Json>
  {
    match Get(args, "elementIds")
    case Some(Arr(xs)) => xs
    case _ =>
      match Get(args, "elementId")
      case Some(Num(n)) => [Num(n)]
      case _ => []
  }

  function GetParamNames(args: Fields, parse: string -> Option<Json>, show: Json -> string): seq<Json>
  {
    match ParseMaybeJson(Get(args, "paramNames"), parse)
    case Some(Arr(xs)) => xs
    case _ =>
      var single := FirstSet(args, ["param", "parameter"]);
      if Truthy(single) then [Str(StringOf(single.value, show))] else []
  }

  /** normalizeParamsGetArgs: exactly the three fields params.get reads. */
  function ParamsGetArgs(raw: Option<Fields>, parse: string -> Option<Json>, show: Json -> string): (r: Json)
    ensures r.Obj? && Keys(r.fields) == ["elementIds", "paramNames", "includeValueString"]
  {
    var args := ArgsOf(raw);
    var inclusion := Get(args, "includeValueString");
    Obj([("elementIds", Arr(GetIds(args))),
         ("paramNames", Arr(GetParamNames(args, parse, show))),
         ("includeValueString", Bool(inclusion.None? || Truthy(inclusion)))])
  }

  /** Without arguments nothing is asked for and value strings are included. */
  lemma ParamsGetDefaults(parse: string -> Option<Json>, show: Json -> string)
    ensures ParamsGetArgs(None, parse, show) ==
      Obj([("elementIds", Arr([])), ("paramNames", Arr([])), ("includeValueString", Bool(true))])
  {
    assert FirstSet([], ["param", "parameter"]).None?;
  }

  /** elementIds falls back to [elementId], then to []. */
  lemma ParamsGetIds(args: Fields, parse: string -> Option<Json>, show: Json -> string)
    ensures var ids := ParamsGetArgs(Some(args), parse, show).fields[0].1;
      match Get(args, "elementIds")
      case Some(Arr(xs)) => ids == Arr(xs)
      case _ => (
        match Get(args, "elementId")
        case Some(Num(n)) => ids == Arr([Num(n)])
        case _ => ids == Arr([]))
  {
  }

  /** paramNames falls back to [param ?? parameter] when that is set and truthy, then to []. */
  lemma ParamsGetNames(args: Fields, parse: string -> Option<Json>, show: Json -> string, p: string)
    requires !(ParseMaybeJson(Get(args, "paramNames"), parse).Some? && ParseMaybeJson(Get(args, "paramNames"), parse).value.Arr?)
    requires Get(args, "param") == Some(Str(p)) && p != []
    ensures ParamsGetArgs(Some(args), parse, show).fields[1].1 == Arr([Str(p)])
  {
  }

  lemma ParamsGetNoNames(args: Fields, parse: string -> Option<Json>, show: Json -> string)
    requires !(ParseMaybeJson(Get(args, "paramNames"), parse).Some? && ParseMaybeJson(Get(args, "paramNames"), parse).value.Arr?)
    requires !Present(Get(args, "param")) && !Present(Get(args, "parameter"))
    ensures ParamsGetArgs(Some(args), parse, show).fields[1].1 == Arr([])
  {
    assert ["param", "parameter"][1..] == ["parameter"];
    assert ["parameter"][1..] == [];
    assert FirstSet(args, ["param", "parameter"]).None?;
  }

  // ---------------------------------------------------------------------------
  // Building an update entry
  // ---------------------------------------------------------------------------

  /** `k in entry`: an own key, or one every object inherits. */
  predicate InEntry(entry: Fields, k: string)
  {
    HasKey(entry, k) || k in PrototypeMembers
  }

  /**
   * The loop `for (k of Object.keys(u)) if (!(k in entry) && !excluded.includes(k)) entry[k] = u[k]`,
   * one key at a time, from the left.
   */
  function CopyExtras(entry: Fields, u: Fields, excluded: seq<string>): (r: Fields)
    decreases |u|
  {
    if u == [] then entry
    else
      var k := u[0].0;
      var next := if !InEntry(entry, k) && k !in excluded then Put(entry, k, u[0].1) else entry;
      CopyExtras(next, u[1..], excluded)
  }

  /** After the copy loop a key keeps its entry value, is skipped when excluded or inherited, or takes u's value. */
  lemma {:induction false} CopyExtrasGet(entry: Fields, u: Fields, excluded: seq<string>, k: string)
    ensures Get(CopyExtras(entry, u, excluded), k) ==
      if HasKey(entry, k) then Get(entry, k)
      else if k in excluded || k in PrototypeMembers then None
      else Get(u, k)
    decreases |u|
  {
    if u != [] {
      var k0 := u[0].0;
      var next := if !InEntry(entry, k0) && k0 !in excluded then Put(entry, k0, u[0].1) else entry;
      CopyExtrasGet(next, u[1..], excluded, k);
      if !InEntry(entry, k0) && k0 !in excluded {
        PutGet(entry, k0, u[0].1, k);
        PutKeys(entry, k0, u[0].1);
        assert HasKey(next, k) <==> HasKey(entry, k) || k == k0;
      }
    }
  }

  lemma {:induction false} CopyExtrasUnique(entry: Fields, u: Fields, excluded: seq<string>)
    requires UniqueKeys(entry)
    ensures UniqueKeys(CopyExtras(entry, u, excluded))
    decreases |u|
  {
    if u != [] {
      var k0 := u[0].0;
      if !InEntry(entry, k0) && k0 !in excluded {
        PutUnique(entry, k0, u[0].1);
      }
      var next := if !InEntry(entry, k0) && k0 !in excluded then Put(entry, k0, u[0].1) else entry;
      CopyExtrasUnique(next, u[1..], excluded);
    }
  }

  /** The copy loop, applying entry[k] = u[k] in place as it goes. */
  method CopyExtraKeys(entry0: Fields, u: Fields, excluded: seq<string>) returns (entry: Fields)
    ensures entry == CopyExtras(entry0, u, excluded)
  {
    entry := entry0;
    var i := 0;
    while i < |u|
      invariant 0 <= i <= |u|
      invariant CopyExtras(entry, u[i..], excluded) == CopyExtras(entry0, u, excluded)
    {
      assert u[i..][1..] == u[i + 1..];
      var k := u[i].0;
      if !InEntry(entry, k) && k !in excluded {
        entry := Put(entry, k, u[i].1);
      }
      i := i + 1;
    }
    assert u[i..] == [];
  }

  /**
   * The token fields of an entry built from `u`: guid and bip copied when truthy;
   * param from the first set spelling when any spelling is truthy, else the token.
   */
  function WithToken(entry: Fields, u: Fields, token: Option<Token>): Fields
  {
    var e2 := WithGuidBip(entry, u);
    if Truthy(Get(u, "param")) || Truthy(Get(u, "parameter")) || Truthy(Get(u, "paramName")) || Truthy(Get(u, "parameterName")) then
      match FirstSet(u, ParamKeys)
      case Some(p) => Put(e2, "param", p)
      case None => e2
    else
      match token
      case Some(t) => Put(e2, KindKey(t.kind), Str(t.value))
      case None => e2
  }

  /** guid and bip copied from `u` when truthy. */
  function WithGuidBip(entry: Fields, u: Fields): Fields
  {
    var g := Get(u, "guid");
    var b := Get(u, "bip");
    var e1 := if Truthy(g) then Put(entry, "guid", g.value) else entry;
    if Truthy(b) then Put(e1, "bip", b.value) else e1
  }

  lemma GuidBipOthers(entry: Fields, u: Fields, k: string)
    requires k != "guid" && k != "bip"
    ensures Get(WithGuidBip(entry, u), k) == Get(entry, k)
  {
    var g := Get(u, "guid");
    var b := Get(u, "bip");
    var e1 := if Truthy(g) then Put(entry, "guid", g.value) else entry;
    if Truthy(g) { PutGet(entry, "guid", g.value, k); }
    if Truthy(b) { PutGet(e1, "bip", b.value, k); }
  }

  lemma WithTokenOthers(entry: Fields, u: Fields, token: Option<Token>, k: string)
    requires k != "guid" && k != "bip" && k != "param"
    ensures Get(WithToken(entry, u, token), k) == Get(entry, k)
    ensures HasKey(WithToken(entry, u, token), k) == HasKey(entry, k)
  {
    var e2 := WithGuidBip(entry, u);
    GuidBipOthers(entry, u, k);
    var r := WithToken(entry, u, token);
    if Truthy(Get(u, "param")) || Truthy(Get(u, "parameter")) || Truthy(Get(u, "paramName")) || Truthy(Get(u, "parameterName")) {
      match FirstSet(u, ParamKeys)
      case Some(p) =>
        assert r == Put(e2, "param", p);
        PutGet(e2, "param", p, k);
      case None =>
    } else {
      match token
      case Some(t) =>
        assert r == Put(e2, KindKey(t.kind), Str(t.value));
        PutGet(e2, KindKey(t.kind), Str(t.value), k);
      case None =>
    }
  }

  lemma WithTokenUnique(entry: Fields, u: Fields, token: Option<Token>)
    requires UniqueKeys(entry)
    ensures UniqueKeys(WithToken(entry, u, token))
  {
    var g := Get(u, "guid");
    var b := Get(u, "bip");
    var e1 := if Truthy(g) then Put(entry, "guid", g.value) else entry;
    var e2 := WithGuidBip(entry, u);
    if Truthy(g) { PutUnique(entry, "guid", g.value); }
    if Truthy(b) { PutUnique(e1, "bip", b.value); }
    var p := FirstSet(u, ParamKeys);
    if p.Some? { PutUnique(e2, "param", p.value); }
    if token.Some? { PutUnique(e2, KindKey(token.value.kind), Str(token.value.value)); }
  }

  /** `{elementId: id, value: val}` (an undefined value is not written). */
  function SetBase(id: Json, val: Option<Json>): Fields
  {
    [("elementId", id)] + (match val case Some(x) => [("value", x)] case None => [])
  }

  /** The keys params.set entries never copy from their update. */
  const SetExcluded: seq<string> := ["elementIds", "useSelection"]

  /** One params.set entry for element `id` of update `u`. */
  function SetEntry(u: Fields, id: Json, val: Option<Json>, token: Option<Token>): Fields
  {
    CopyExtras(WithToken(SetBase(id, val), u, token), u, SetExcluded)
  }

  // ---------------------------------------------------------------------------
  // params.set
  // ---------------------------------------------------------------------------

  predicate HasTokenField(u: Fields, token: Option<Token>)
  {
    token.Some? || Truthy(Get(u, "param")) || Truthy(Get(u, "guid")) || Truthy(Get(u, "bip"))
  }

  function UpdateIds(u: Fields): seq<Json>
  {
    ExpandedIds(Get(u, "elementId"), Get(u, "elementIds"), Get(u, "useSelection"))
  }

  /** An update that the flatMap keeps: an object or array with ids and a token field. */
  predicate Kept(u: Json)
  {
    IsObjectLike(u) && UpdateIds(Entries(u)) != [] && HasTokenField(Entries(u), PickToken(Entries(u)))
  }

  /** `id => entry` for one update. */
  function EntryOf(u: Fields, val: Option<Json>, token: Option<Token>): Json -> Json
  {
    id => Obj(SetEntry(u, id, val, token))
  }

  /** The entries one update expands to: none for a dropped update, else one per id, in id order. */
  function UpdateEntries(u: Json): (r: seq<Json>)
    ensures !Kept(u) ==> r == []
    ensures Kept(u) ==> |r| == |UpdateIds(Entries(u))|
    ensures Kept(u) ==> forall i :: 0 <= i < |r| ==> (r[i].Obj? &&
      Get(r[i].fields, "elementId") == Some(UpdateIds(Entries(u))[i]))
  {
    if !Kept(u) then []
    else
      var f := Entries(u);
      var ids := UpdateIds(f);
      var token := PickToken(f);
      var val := ToBoolNum(Get(f, "value"));
      var r := MapAll(ids, EntryOf(f, val, token));
      MapAllIndex(ids, EntryOf(f, val, token));
      assert forall i :: 0 <= i < |ids| ==> Get(r[i].fields, "elementId") == Some(ids[i]) by {
        forall i | 0 <= i < |ids| ensures Get(r[i].fields, "elementId") == Some(ids[i]) {
          SetEntryId(f, ids[i], val, token);
        }
      }
      r
  }

  lemma SetBaseGet(id: Json, val: Option<Json>, k: string)
    ensures Get(SetBase(id, val), k) == if k == "elementId" then Some(id) else if k == "value" then val else None
    ensures HasKey(SetBase(id, val), k) <==> k == "elementId" || (k == "value" && val.Some?)
  {
    assert Keys(SetBase(id, val)) == if val.Some? then ["elementId", "value"] else ["elementId"];
  }

  /**
   * Every field of a params.set entry other than the token fields: elementId and
   * value as built, never elementIds or useSelection, and otherwise the update's
   * own key unless every object inherits it.
   */
  lemma SetEntryGet(u: Fields, id: Json, val: Option<Json>, token: Option<Token>, k: string)
    requires k != "guid" && k != "bip" && k != "param"
    ensures Get(SetEntry(u, id, val, token), k) ==
      if k == "elementId" then Some(id)
      else if k == "value" && val.Some? then val
      else if k in SetExcluded || k in PrototypeMembers then None
      else Get(u, k)
  {
    var base := SetBase(id, val);
    SetBaseGet(id, val, k);
    WithTokenOthers(base, u, token, k);
    CopyExtrasGet(WithToken(base, u, token), u, SetExcluded, k);
  }

  lemma SetEntryId(u: Fields, id: Json, val: Option<Json>, token: Option<Token>)
    ensures Get(SetEntry(u, id, val, token), "elementId") == Some(id)
  {
    SetEntryGet(u, id, val, token, "elementId");
  }

  /** The keys excluded from the copy never reach the bridge. */
  lemma SetEntryExcludes(u: Fields, id: Json, val: Option<Json>, token: Option<Token>)
    ensures Get(SetEntry(u, id, val, token), "elementIds") == None
    ensures Get(SetEntry(u, id, val, token), "useSelection") == None
  {
    SetEntryGet(u, id, val, token, "elementIds");
    SetEntryGet(u, id, val, token, "useSelection");
  }

  /** Build one params.set entry as the source does: literal, token fields, then the copy loop. */
  method BuildSetEntry(u: Fields, id: Json, val: Option<Json>, token: Option<Token>) returns (entry: Fields)
    ensures entry == SetEntry(u, id, val, token)
  {
    entry := WithToken(SetBase(id, val), u, token);
    entry := CopyExtraKeys(entry, u, SetExcluded);
  }

  /** The update the single-call form builds for one id. */
  function SingleUpdate(id: Json, val: Json, t: Token): Fields
  {
    Put([("elementId", id), ("value", val)], KindKey(t.kind), Str(t.value))
  }

  /** The single-call form `{elementId(s), useSelection, guid|bip|param..., value}` as a list of updates. */
  function SingleCallUpdates(args: Fields): (r: seq<Json>)
    ensures r != [] ==> PickToken(args).Some? && HasKey(args, "value")
    ensures |r| == 0 || |r| == |ExpandedIds(Get(args, "elementId"), Get(args, "elementIds"), Get(args, "useSelection"))|
  {
    var token := PickToken(args);
    var ids := ExpandedIds(Get(args, "elementId"), Get(args, "elementIds"), Get(args, "useSelection"));
    var val := ToBoolNum(Get(args, "value"));
    if token.Some? && ids != [] && HasKey(args, "value") then
      seq(|ids|, i requires 0 <= i < |ids| =>
        Obj(SingleUpdate(ids[i], val.value, token.value)))
    else []
  }

  /** The array of updates the flatMap walks. */
  function SetUpdates(args: Fields, parse: string -> Option<Json>): seq<Json>
  {
    match ParseMaybeJson(Get(args, "updates"), parse)
    case Some(Arr(xs)) => xs
    case _ => SingleCallUpdates(args)
  }

  /** Dropped updates contribute nothing; the kept ones keep their order. */
  lemma FlatEntriesSkipsDropped(us: seq<Json>, vs: seq<Json>)
    requires forall i :: 0 <= i < |us| ==> !Kept(us[i])
    ensures FlatMap(us + vs, UpdateEntries) == FlatMap(vs, UpdateEntries)
  {
    FlatMapSkips(us, vs, UpdateEntries);
  }

  /** normalizeParamsSetArgs: `{updates: norm}`. */
  function ParamsSetArgs(raw: Option<Fields>, parse: string -> Option<Json>): (r: Json)
    ensures r.Obj? && Keys(r.fields) == ["updates"] && r.fields[0].1.Arr?
  {
    Obj([("updates", Arr(FlatMap(SetUpdates(ArgsOf(raw), parse), UpdateEntries)))])
  }

  /** The entries of one update, built one object at a time. */
  method BuildUpdateEntries(u: Json) returns (es: seq<Json>)
    ensures es == UpdateEntries(u)
  {
    if !IsObjectLike(u) {
      return [];
    }
    var f := Entries(u);
    var ids := ExpandElementIds(Get(f, "elementId"), Get(f, "elementIds"), Get(f, "useSelection"));
    var token := PickToken(f);
    var val := ToBoolNum(Get(f, "value"));
    if ids == [] || !HasTokenField(f, token) {
      return [];
    }
    es := BuildEntries(f, ids, val, token);
    UpdateEntriesKept(u);
  }

  /** `ids.map(id => entry)`, one entry object at a time. */
  method BuildEntries(f: Fields, ids: seq<Json>, val: Option<Json>, token: Option<Token>) returns (es: seq<Json>)
    ensures es == MapAll(ids, EntryOf(f, val, token))
  {
    es := [];
    var i := 0;
    while i < |ids|
      invariant 0 <= i <= |ids|
      invariant es == MapAll(ids[..i], EntryOf(f, val, token))
    {
      ghost var mk := EntryOf(f, val, token);
      var entry := BuildSetEntry(f, ids[i], val, token);
      MapAllPrefix(ids, i, mk);
      assert mk(ids[i]) == Obj(entry);
      es := es + [Obj(entry)];
      i := i + 1;
    }
    assert ids[..i] == ids;
  }

  lemma UpdateEntriesKept(u: Json)
    requires Kept(u)
    ensures var f := Entries(u);
      UpdateEntries(u) == MapAll(UpdateIds(f), EntryOf(f, ToBoolNum(Get(f, "value")), PickToken(f)))
  {
  }

  /** normalizeParamsSetArgs, walking the updates with a flatMap loop. */
  method NormalizeParamsSetArgs(raw: Option<Fields>, parse: string -> Option<Json>) returns (out: Json)
    ensures out == ParamsSetArgs(raw, parse)
  {
    var args := ArgsOf(raw);
    var updates := SetUpdates(args, parse);
    var norm := [];
    var i := 0;
    while i < |updates|
      invariant 0 <= i <= |updates|
      invariant norm == FlatMap(updates[..i], UpdateEntries)
    {
      var es := BuildUpdateEntries(updates[i]);
      FlatMapPrefix(updates, i, UpdateEntries);
      norm := norm + es;
      i := i + 1;
    }
    assert updates[..i] == updates;
    out := Obj([("updates", Arr(norm))]);
  }

  /** The single-call form yields one update per expanded id, in order, each carrying the token in its kind's field. */
  lemma SingleCallShape(args: Fields, t: Token)
    requires PickToken(args) == Some(t)
    requires HasKey(args, "value")
    ensures var ids := ExpandedIds(Get(args, "elementId"), Get(args, "elementIds"), Get(args, "useSelection"));
      ids != [] ==> (|SingleCallUpdates(args)| == |ids| &&
        forall i :: 0 <= i < |ids| ==> SingleCallUpdates(args)[i] == Obj(SingleUpdate(ids[i], ToBoolNum(Get(args, "value")).value, t)))
  {
  }

  // ---------------------------------------------------------------------------
  // params.set_where
  // ---------------------------------------------------------------------------

  /** `.filter(s => s && typeof s === "object")`. */
  function KeepObjects(xs: seq<Json>): (r: seq<Json>)
    ensures forall i :: 0 <= i < |r| ==> IsObjectLike(r[i])
    ensures |r| <= |xs|
  {
    if xs == [] then []
    else (if IsObjectLike(xs[0]) then [xs[0]] else []) + KeepObjects(xs[1..])
  }

  /** The filter keeps exactly the objects and arrays. */
  lemma {:induction false} KeepObjectsMembers(xs: seq<Json>, x: Json)
    ensures x in KeepObjects(xs) <==> x in xs && IsObjectLike(x)
  {
    if xs != [] {
      KeepObjectsMembers(xs[1..], x);
      assert xs == [xs[0]] + xs[1..];
    }
  }

  /** One params.set_where entry: value, token fields, then every other key of `s`. */
  function WhereEntry(s: Json): Fields
  {
    var f := Entries(s);
    var val := ToBoolNum(Get(f, "value"));
    var base := match val case Some(x) => [("value", x)] case None => [];
    CopyExtras(WithToken(base, f, PickToken(f)), f, [])
  }

  /** One params.set_where entry as a JSON object. */
  function WhereItem(s: Json): Json
  {
    Obj(WhereEntry(s))
  }

  function WhereOf(args: Fields, parse: string -> Option<Json>): Json
  {
    match ParseMaybeJson(Get(args, "where"), parse)
    case Some(Null) => Obj([])
    case None => Obj([])
    case Some(w) => w
  }

  function SetListOf(args: Fields, parse: string -> Option<Json>): seq<Json>
  {
    match ParseMaybeJson(Get(args, "set"), parse)
    case Some(Arr(xs)) => xs
    case _ => []
  }

  /** A boolean flag copied only when it is a boolean. */
  function BoolFlag(args: Fields, k: string): Fields
  {
    match Get(args, k)
    case Some(Bool(b)) => [(k, Bool(b))]
    case _ => []
  }

  /** normalizeParamsSetWhereArgs: `{where, set}` plus allowTypeParams and dryRun when they are booleans. */
  function ParamsSetWhereArgs(raw: Option<Fields>, parse: string -> Option<Json>): (r: Json)
    ensures r.Obj? && |r.fields| >= 2 && r.fields[0].0 == "where" && r.fields[1].0 == "set"
    ensures r.fields[1].1.Arr?
  {
    var args := ArgsOf(raw);
    Obj([("where", WhereOf(args, parse)), ("set", Arr(MapAll(KeepObjects(SetListOf(args, parse)), WhereItem)))]
      + BoolFlag(args, "allowTypeParams") + BoolFlag(args, "dryRun"))
  }

  /** Only object entries of `set` are kept, each becoming one entry. */
  lemma SetWhereKeepsObjects(raw: Option<Fields>, parse: string -> Option<Json>)
    ensures var items := ParamsSetWhereArgs(raw, parse).fields[1].1.items;
      var kept := KeepObjects(SetListOf(ArgsOf(raw), parse));
      |items| == |kept| &&
      (forall i :: 0 <= i < |kept| ==> items[i] == Obj(WhereEntry(kept[i]))) &&
      (forall x :: x in kept <==> x in SetListOf(ArgsOf(raw), parse) && IsObjectLike(x))
  {
    forall x {
      KeepObjectsMembers(SetListOf(ArgsOf(raw), parse), x);
    }
    MapAllIndex(KeepObjects(SetListOf(ArgsOf(raw), parse)), WhereItem);
  }

  /** allowTypeParams and dryRun are forwarded exactly when they are booleans, and unchanged. */
  lemma SetWhereFlags(raw: Option<Fields>, parse: string -> Option<Json>, k: string)
    requires k == "allowTypeParams" || k == "dryRun"
    ensures var r := ParamsSetWhereArgs(raw, parse);
      (HasKey(r.fields, k) <==> Get(ArgsOf(raw), k).Some? && Get(ArgsOf(raw), k).value.Bool?) &&
      (HasKey(r.fields, k) ==> Get(r.fields, k) == Get(ArgsOf(raw), k))
  {
    var args := ArgsOf(raw);
    var head: Fields := [("where", WhereOf(args, parse)), ("set", Arr(MapAll(KeepObjects(SetListOf(args, parse)), WhereItem)))];
    var a := BoolFlag(args, "allowTypeParams");
    var d := BoolFlag(args, "dryRun");
    assert Get(head, k).None? by {
      assert head[1..][1..] == [];
    }
    BoolFlagGet(args, "allowTypeParams", k);
    BoolFlagGet(args, "dryRun", k);
    GetConcat(head + a, d, k);
    GetConcat(head, a, k);
  }

  lemma BoolFlagGet(args: Fields, flag: string, k: string)
    ensures Get(BoolFlag(args, flag), k) ==
      if k == flag && Get(args, k).Some? && Get(args, k).value.Bool? then Get(args, k) else None
  {
  }

  lemma {:induction false} GetConcat(a: Fields, b: Fields, k: string)
    ensures Get(a + b, k) == if HasKey(a, k) then Get(a, k) else Get(b, k)
    decreases |a|
  {
    if a == [] {
      assert a + b == b;
    } else {
      assert (a + b)[1..] == a[1..] + b;
      assert Keys(a) == [a[0].0] + Keys(a[1..]);
      GetConcat(a[1..], b, k);
    }
  }

  /** An entry copies every own key of its `s` that is not a token field and not inherited. */
  lemma WhereEntryGet(s: Json, k: string)
    requires k !in ["value", "guid", "bip", "param"] && k !in PrototypeMembers
    ensures Get(WhereEntry(s), k) == Get(Entries(s), k)
  {
    var f := Entries(s);
    var val := ToBoolNum(Get(f, "value"));
    var base: Fields := match val case Some(x) => [("value", x)] case None => [];
    WithTokenOthers(base, f, PickToken(f), k);
    CopyExtrasGet(WithToken(base, f, PickToken(f)), f, [], k);
  }

  /** Build one params.set_where entry as the source does: literal, token fields, then the copy loop. */
  method BuildWhereEntry(s: Json) returns (item: Json)
    ensures item == WhereItem(s)
  {
    var f := Entries(s);
    var val := ToBoolNum(Get(f, "value"));
    var base: Fields := match val case Some(x) => [("value", x)] case None => [];
    var entry := WithToken(base, f, PickToken(f));
    entry := CopyExtraKeys(entry, f, []);
    item := Obj(entry);
  }
}
