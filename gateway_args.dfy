// The gateway's argument coercion (gateway/server.js): key spelling, numbers with
// units, booleans, comma lists, key aliases and the per-action pass over the args.

module GatewayArgs {
  import opened Text
  import opened Json
  import opened JsNum

  // ---------------------------------------------------------------------------
  // toCamelCaseKey
  // ---------------------------------------------------------------------------

  lemma LowerOfUpper(c: char)
    ensures LowerChar(UpperChar(c)) == LowerChar(c)
  {
  }

  /** `s.charAt(0).toUpperCase() + s.slice(1)`. */
  function Capitalize(s: string): (r: string)
    ensures |r| == |s|
    ensures '_' !in s ==> '_' !in r
    ensures Lower(r) == Lower(s)
  {
    if s == [] then []
    else
      LowerOfUpper(s[0]);
      [UpperChar(s[0])] + s[1..]
  }

  function CapitalizeAll(ps: seq<string>): (r: seq<string>)
    ensures |r| == |ps|
    ensures forall i :: 0 <= i < |ps| ==> r[i] == Capitalize(ps[i])
  {
    seq(|ps|, i requires 0 <= i < |ps| => Capitalize(ps[i]))
  }

  /** The parts of a snake_case key: the first as it is, every later one capitalised. */
  function CamelParts(k: string): (parts: seq<string>)
    ensures |parts| >= 1
    ensures forall i :: 0 <= i < |parts| ==> '_' !in parts[i]
  {
    var ps := Split(k, '_');
    [ps[0]] + CapitalizeAll(ps[1..])
  }

  /** toCamelCaseKey: a key with underscores loses them, every later word capitalised. */
  function ToCamelCaseKey(k: string): (r: string)
    ensures '_' !in r
    ensures '_' !in k ==> r == k
  {
    if '_' !in k then k
    else
      JoinEmptyFree(CamelParts(k), '_');
      Join(CamelParts(k), [])
  }

  lemma CamelCaseIdempotent(k: string)
    ensures ToCamelCaseKey(ToCamelCaseKey(k)) == ToCamelCaseKey(k)
  {
  }

  /** The string with every `c` deleted. */
  function Without(s: string, c: char): (r: string)
    ensures c !in r
  {
    if s == [] then [] else (if s[0] == c then [] else [s[0]]) + Without(s[1..], c)
  }

  lemma {:induction false} WithoutAbsent(s: string, c: char)
    requires c !in s
    ensures Without(s, c) == s
  {
    if s != [] {
      WithoutAbsent(s[1..], c);
    }
  }

  lemma {:induction false} WithoutConcat(a: string, b: string, c: char)
    ensures Without(a + b, c) == Without(a, c) + Without(b, c)
  {
    if a != [] {
      assert (a + b)[1..] == a[1..] + b;
      WithoutConcat(a[1..], b, c);
    } else {
      assert a + b == b;
    }
  }

  lemma {:induction false} WithoutJoin(parts: seq<string>, c: char)
    requires forall i :: 0 <= i < |parts| ==> c !in parts[i]
    ensures Without(Join(parts, [c]), c) == Join(parts, [])
  {
    if |parts| == 1 {
      WithoutAbsent(parts[0], c);
    } else if |parts| > 1 {
      WithoutJoin(parts[1..], c);
      WithoutConcat(parts[0] + [c], Join(parts[1..], [c]), c);
      WithoutConcat(parts[0], [c], c);
      WithoutAbsent(parts[0], c);
      assert Without([c], c) == [];
      assert Join(parts, []) == parts[0] + [] + Join(parts[1..], []);
    }
  }

  lemma {:induction false} LowerJoinPointwise(a: seq<string>, b: seq<string>)
    requires |a| == |b|
    requires forall i :: 0 <= i < |a| ==> Lower(a[i]) == Lower(b[i])
    ensures Lower(Join(a, [])) == Lower(Join(b, []))
  {
    if |a| > 1 {
      LowerJoinPointwise(a[1..], b[1..]);
      LowerConcat(a[0] + [], Join(a[1..], []));
      LowerConcat(b[0] + [], Join(b[1..], []));
      assert a[0] + [] == a[0] && b[0] + [] == b[0];
    }
  }

  /** Each camel part is its snake part up to case. */
  lemma CamelPartsPointwise(k: string)
    ensures |CamelParts(k)| == |Split(k, '_')|
    ensures forall i :: 0 <= i < |CamelParts(k)| ==> Lower(CamelParts(k)[i]) == Lower(Split(k, '_')[i])
  {
    var ps := Split(k, '_');
    var cs := CamelParts(k);
    var caps := CapitalizeAll(ps[1..]);
    assert cs == [ps[0]] + caps;
    forall i | 0 <= i < |cs| ensures Lower(cs[i]) == Lower(ps[i]) {
      if i > 0 {
        assert cs[i] == caps[i - 1] == Capitalize(ps[1..][i - 1]);
        assert ps[1..][i - 1] == ps[i];
      }
    }
  }

  /** The snake parts joined without separator are the key without underscores. */
  lemma SplitJoinWithout(k: string)
    ensures Join(Split(k, '_'), []) == Without(k, '_')
  {
    JoinSplit(k, '_');
    WithoutJoin(Split(k, '_'), '_');
  }

  /** Joining the capitalised parts gives the underscore-free key up to case. */
  lemma CamelPartsLower(k: string)
    ensures Lower(Join(CamelParts(k), [])) == Lower(Without(k, '_'))
  {
    CamelPartsPointwise(k);
    LowerJoinPointwise(CamelParts(k), Split(k, '_'));
    SplitJoinWithout(k);
  }

  /** Camel-casing changes only letter case and removes the underscores. */
  lemma CamelCaseKeepsLetters(k: string)
    ensures EqIgnoreCase(ToCamelCaseKey(k), Without(k, '_'))
  {
    if '_' !in k {
      WithoutAbsent(k, '_');
    } else {
      CamelPartsLower(k);
    }
    EqIgnoreCaseLower(ToCamelCaseKey(k), Without(k, '_'));
  }

  // ---------------------------------------------------------------------------
  // parseNumericWithUnits and toMeters
  // ---------------------------------------------------------------------------

  const Units: seq<string> := ["mm", "cm", "m", "ft", "feet", "in", "inch", "inches", "\""]

  datatype NumberMatch = NumberMatch(value: real, unit: Option<string>)

  /** A numeral's sign, whole digits, fraction digits and whatever follows. */
  datatype NumeralParts = NumeralParts(negative: bool, whole: string, fraction: string, rest: string)

  /** `-?digits(.digits)?` at the start of `s`. */
  function ScanNumeral(s: string): (r: Option<NumeralParts>)
    ensures r.Some? ==> r.value.whole != [] && AllDigits(r.value.whole) && AllDigits(r.value.fraction)
  {
    var i0 := if |s| > 0 && s[0] == '-' then 1 else 0;
    var t := s[i0..];
    var d1 := DigitRun(t);
    if d1 == 0 then None
    else
      var u := t[d1..];
      var d2 := if |u| > 0 && u[0] == '.' then DigitRun(u[1..]) else 0;
      if d2 > 0 then Some(NumeralParts(i0 == 1, t[..d1], u[1..1 + d2], u[1 + d2..]))
      else Some(NumeralParts(i0 == 1, t[..d1], [], u))
  }

  /**
   * The anchored pattern `-?digits(.digits)?` followed by nothing, or by white
   * space and one of the units.
   */
  function MatchNumberWithUnit(s: string): (r: Option<NumberMatch>)
    ensures r.Some? && r.value.unit.Some? ==> r.value.unit.value in Units
  {
    match ScanNumeral(s)
    case None => None
    case Some(p) =>
      var mag := DigitsValue(p.whole) as real + FractionValue(p.fraction);
      var v := if p.negative then -mag else mag;
      if p.rest == [] then Some(NumberMatch(v, None))
      else if TrimStart(p.rest) in Units then Some(NumberMatch(v, Some(TrimStart(p.rest))))
      else None
  }

  datatype Parsed = Parsed(num: Json, unit: Option<string>)

  /** A lower-cased string never reads as an infinity (the literal is capitalised). */
  lemma LowerReadsNoInfinity(x: string)
    ensures !StringToNumber(Lower(x)).Infinity?
  {
    var s := Lower(x);
    TrimChars(s);
    assert 'I' !in s;
    InfinityNeedsCapital(s);
  }

  /**
   * parseNumericWithUnits: a number with an optional unit, a string `Number` reads,
   * or the input back unchanged.
   */
  function ParseNumericWithUnits(raw: Json): (p: Parsed)
    ensures !raw.Str? ==> p == Parsed(raw, None)
    ensures p.unit.Some? ==> p.unit.value in Units && p.num.Num?
    ensures !p.num.Num? ==> p == Parsed(raw, None)
  {
    if !raw.Str? then Parsed(raw, None)
    else
      var s := Lower(Trim(raw.s));
      LowerReadsNoInfinity(Trim(raw.s));
      match MatchNumberWithUnit(s)
      case Some(m) => Parsed(Num(m.value), m.unit)
      case None =>
        match StringToNumber(s)
        case Finite(v) => Parsed(Num(v), None)
        case NaN => Parsed(raw, None)
  }

  /** A blank string reads as the number 0 (Number("") is 0). */
  lemma ParseBlankIsZero(s: string)
    requires IsBlank(s)
    ensures ParseNumericWithUnits(Str(s)) == Parsed(Num(0.0), None)
  {
    TrimEmptyIffBlank(s);
    assert Lower(Trim(s)) == [];
    assert StringToNumber([]) == Finite(0.0);
  }

  predicate NoUpper(s: string)
  {
    forall i :: 0 <= i < |s| ==> !('A' <= s[i] <= 'Z')
  }

  lemma LowerNoUpper(s: string)
    requires NoUpper(s)
    ensures Lower(s) == s
  {
  }

  lemma {:induction false} TrimStartBlankPrefix(sp: string, u: string)
    requires IsBlank(sp)
    requires u == [] || !IsSpace(u[0])
    ensures TrimStart(sp + u) == u
  {
    if sp != [] {
      assert (sp + u)[1..] == sp[1..] + u;
      TrimStartBlankPrefix(sp[1..], u);
    } else {
      assert sp + u == u;
    }
  }

  /** What the unit spellings have in common: lower case, no white space, digit, dot or comma. */
  lemma UnitFacts(u: string)
    requires u in Units
    ensures u != [] && !IsSpace(u[0]) && !IsDigit(u[0]) && u[0] != '.' && !IsSpace(u[|u| - 1])
    ensures NoUpper(u) && ',' !in u
  {
  }

  /** The spelling `digits, blanks, unit`, and what each part contributes. */
  predicate Numeral(s: string, d: string, sp: string, u: string)
  {
    s == d + sp + u && AllDigits(d) && d != [] && IsBlank(sp) &&
    u != [] && !IsSpace(u[0]) && !IsDigit(u[0]) && u[0] != '.' && !IsSpace(u[|u| - 1]) &&
    NoUpper(u) && ',' !in u
  }

  lemma NumeralTrimmedLower(s: string, d: string, sp: string, u: string)
    requires Numeral(s, d, sp, u)
    ensures Lower(Trim(s)) == s && NoUpper(s) && ',' !in s && IsDigit(s[0])
  {
    assert s[0] == d[0] && s[|s| - 1] == u[|u| - 1];
    TrimNoSpaceEnds(s);
    forall i | 0 <= i < |s| ensures !('A' <= s[i] <= 'Z') && s[i] != ',' {
      if i < |d| {
        assert s[i] == d[i];
      } else if i < |d| + |sp| {
        assert s[i] == sp[i - |d|];
      } else {
        assert s[i] == u[i - |d| - |sp|];
      }
    }
    LowerNoUpper(s);
  }

  /** Digits followed by something that is neither a digit nor a dot scan as a whole number. */
  lemma ScanWhole(d: string, rest: string)
    requires d != [] && AllDigits(d)
    requires rest != [] && !IsDigit(rest[0]) && rest[0] != '.'
    ensures ScanNumeral(d + rest) == Some(NumeralParts(false, d, [], rest))
  {
    var s := d + rest;
    assert s[0] == d[0];
    assert s[0..] == s;
    DigitRunPrefix(d, rest);
    assert s[..|d|] == d && s[|d|..] == rest;
  }

  lemma MatchWholeWithUnit(s: string, d: string, rest: string)
    requires d != [] && AllDigits(d)
    requires ScanNumeral(s) == Some(NumeralParts(false, d, [], rest))
    requires rest != [] && TrimStart(rest) in Units
    ensures MatchNumberWithUnit(s) == Some(NumberMatch(DigitsValue(d) as real, Some(TrimStart(rest))))
  {
    var m := MatchNumberWithUnit(s);
    assert m.Some? && m.value.unit == Some(TrimStart(rest));
    assert m.value.value == DigitsValue(d) as real;
  }

  lemma NumeralMatch(s: string, d: string, sp: string, u: string)
    requires Numeral(s, d, sp, u) && u in Units
    ensures MatchNumberWithUnit(s) == Some(NumberMatch(DigitsValue(d) as real, Some(u)))
  {
    var rest := sp + u;
    assert s == d + rest;
    assert rest[0] == if sp == [] then u[0] else sp[0];
    ScanWhole(d, rest);
    TrimStartBlankPrefix(sp, u);
    MatchWholeWithUnit(s, d, rest);
  }

  /** A number spelled in digits, white space and a unit reads as that number in that unit. */
  lemma ParseNumberWithUnit(n: nat, sp: string, u: string)
    requires IsBlank(sp) && u in Units
    ensures ParseNumericWithUnits(Str(NatToString(n) + sp + u)) == Parsed(Num(n as real), Some(u))
  {
    var s := NatToString(n) + sp + u;
    UnitFacts(u);
    NumeralTrimmedLower(s, NatToString(n), sp, u);
    NumeralMatch(s, NatToString(n), sp, u);
  }

  /** toMeters: the value in metres for a known unit, the number as it is otherwise. */
  function ToMeters(n: Json, unit: Option<string>): (r: Json)
    ensures !n.Num? ==> r == n
    ensures r.Num? <==> n.Num?
  {
    if !n.Num? then n
    else if unit == Some("mm") then Num(n.n / 1000.0)
    else if unit == Some("cm") then Num(n.n / 100.0)
    else if unit == Some("ft") || unit == Some("feet") then Num(n.n * 0.3048)
    else if unit == Some("in") || unit == Some("inch") || unit == Some("inches") || unit == Some("\"") then
      Num(n.n * 0.0254)
    else n
  }

  /** The conversion factors agree with one another, and the spellings of a unit agree. */
  lemma ToMetersConsistent(x: real)
    ensures ToMeters(Num(x * 12.0), Some("in")) == ToMeters(Num(x), Some("ft"))
    ensures ToMeters(Num(x * 10.0), Some("mm")) == ToMeters(Num(x), Some("cm"))
    ensures ToMeters(Num(x * 100.0), Some("cm")) == ToMeters(Num(x), Some("m"))
    ensures ToMeters(Num(x), Some("feet")) == ToMeters(Num(x), Some("ft"))
    ensures ToMeters(Num(x), Some("inch")) == ToMeters(Num(x), Some("in"))
    ensures ToMeters(Num(x), Some("inches")) == ToMeters(Num(x), Some("in"))
    ensures ToMeters(Num(x), Some("\"")) == ToMeters(Num(x), Some("in"))
  {
    assert x * 12.0 * 0.0254 == x * 0.3048;
    assert x * 10.0 / 1000.0 == x / 100.0;
    assert x * 100.0 / 100.0 == x;
  }

  /** Metres, no unit and any word that is not a unit leave the number as it is. */
  lemma ToMetersIdentity(x: real, unit: Option<string>)
    requires unit.None? || unit.value == "m" || unit.value !in Units
    ensures ToMeters(Num(x), unit) == Num(x)
  {
  }

  // ---------------------------------------------------------------------------
  // maybeCoerceScalar, maybeCoerceBool, toArray
  // ---------------------------------------------------------------------------

  predicate ContainsAnyIgnoreCase(s: string, words: seq<string>)
  {
    exists i :: 0 <= i < |words| && ContainsIgnoreCase(s, words[i])
  }

  predicate EndsWithIgnoreCase(s: string, w: string)
  {
    EndsWith(Lower(s), Lower(w))
  }

  predicate EndsWithAnyIgnoreCase(s: string, words: seq<string>)
  {
    exists i :: 0 <= i < |words| && EndsWithIgnoreCase(s, words[i])
  }

  /** Trims each part and drops the empty ones (`.map(s => s.trim()).filter(Boolean)`). */
  /** A trimmed part of a comma split: no comma, and trimming it again changes nothing. */
  lemma TrimmedWord(p: string)
    requires ',' !in p
    ensures ',' !in Trim(p) && Trim(Trim(p)) == Trim(p)
  {
    TrimChars(p);
    TrimIdempotent(p);
  }

  predicate Word(w: string)
  {
    w != [] && ',' !in w && Trim(w) == w
  }

  function TrimmedParts(ps: seq<string>): (r: seq<string>)
    requires forall i :: 0 <= i < |ps| ==> ',' !in ps[i]
    ensures |r| <= |ps|
    ensures forall i :: 0 <= i < |r| ==> Word(r[i])
  {
    if ps == [] then []
    else
      var t := Trim(ps[0]);
      TrimmedWord(ps[0]);
      var rest := TrimmedParts(ps[1..]);
      if t == [] then rest else [t] + rest
  }

  /** `s.split(",").map(s => s.trim()).filter(Boolean)`. */
  function CommaList(s: string): (parts: seq<string>)
    ensures forall i :: 0 <= i < |parts| ==> Word(parts[i])
  {
    TrimmedParts(Split(s, ','))
  }

  const SizeWords: seq<string> := ["elevation", "offset", "diameter", "length", "height", "thickness", "size"]

  /** `/^{|\[/`: starts with `{` or holds a `[` anywhere. */
  predicate ObjectOrArrayText(low: string)
  {
    StartsWith(low, "{") || '[' in low
  }

  /** The suffix rules for numbers (`_mm`, `_cm`, `_ft`, `_in`, `_m`). */
  function NumberBySuffix(key: string, x: real): Json
  {
    var lk := Lower(key);
    if EndsWith(lk, "_mm") then Num(x / 1000.0)
    else if EndsWith(lk, "_cm") then Num(x / 100.0)
    else if EndsWith(lk, "_ft") then Num(x * 0.3048)
    else if EndsWith(lk, "_in") then Num(x * 0.0254)
    else Num(x)
  }

  /**
   * maybeCoerceScalar: "true"/"false" become booleans, a comma list with two or more
   * parts becomes an array, a number (with or without unit) becomes a number (in
   * metres when there is a unit or the key names a size), numbers get the suffix rules.
   */
  function MaybeCoerceScalar(key: string, val: Json): (r: Json)
    ensures !val.Str? && !val.Num? ==> r == val
    ensures val.Num? ==> r.Num?
    ensures r.Bool? && val.Str? ==> r.b == (Lower(Trim(val.s)) == "true")
    ensures r.Str? ==> r == val
    ensures r.Arr? && val.Str? ==>
      (|r.items| > 1 && forall i :: 0 <= i < |r.items| ==> r.items[i].Str? && Word(r.items[i].s))
  {
    if !val.Str? then
      if val.Num? then NumberBySuffix(key, val.n) else val
    else
      var low := Lower(Trim(val.s));
      if low == "true" then Bool(true)
      else if low == "false" then Bool(false)
      else if ',' in low && !ObjectOrArrayText(low) && |CommaList(val.s)| > 1 then StrArray(CommaList(val.s))
      else
        var p := ParseNumericWithUnits(val);
        if p.num.Num? then
          if ContainsAnyIgnoreCase(key, SizeWords) || p.unit.Some? then ToMeters(p.num, p.unit) else p.num
        else val
  }

  /** A blank string becomes the number 0, whatever the key. */
  lemma ScalarBlankIsZero(key: string, s: string)
    requires IsBlank(s)
    ensures MaybeCoerceScalar(key, Str(s)) == Num(0.0)
  {
    TrimEmptyIffBlank(s);
    ParseBlankIsZero(s);
  }

  lemma LowerUnderscore(s: string)
    requires '_' !in s
    ensures '_' !in Lower(s)
  {
  }

  /** The suffix rules never fire on a key without underscores, the only keys the gateway passes. */
  lemma ScalarSuffixRulesIdle(key: string, x: real)
    requires '_' !in key
    ensures MaybeCoerceScalar(key, Num(x)) == Num(x)
  {
    var lk := Lower(key);
    LowerUnderscore(key);
    if |lk| >= 3 {
      assert lk[|lk| - 3..][0] == lk[|lk| - 3] != '_';
    }
  }

  lemma ScalarOfUnitNumber(key: string, s: string, x: real, u: string)
    requires Lower(Trim(s)) == s && s != [] && IsDigit(s[0]) && ',' !in s
    requires ParseNumericWithUnits(Str(s)) == Parsed(Num(x), Some(u))
    ensures MaybeCoerceScalar(key, Str(s)) == ToMeters(Num(x), Some(u))
  {
    assert s != "true" && s != "false" by {
      assert "true"[0] == 't' && "false"[0] == 'f';
    }
  }

  /** A number with a unit becomes metres, whatever the key. */
  lemma ScalarNumberWithUnit(key: string, n: nat, sp: string, u: string)
    requires IsBlank(sp) && u in Units
    ensures MaybeCoerceScalar(key, Str(NatToString(n) + sp + u)) == ToMeters(Num(n as real), Some(u))
  {
    var s := NatToString(n) + sp + u;
    UnitFacts(u);
    NumeralTrimmedLower(s, NatToString(n), sp, u);
    ParseNumberWithUnit(n, sp, u);
    ScalarOfUnitNumber(key, s, n as real, u);
  }

  const BoolWords: seq<string> := [
    "include", "force", "visible", "halftone", "structural", "combine", "exportLinks",
    "convertElementProperties", "useSelection", "projectionLines", "surfaceSolid",
    "placeOnlyEnclosed", "roundVsRect", "dryRun", "allowTypeParams", "flipHand", "flipFacing"
  ]

  /** maybeCoerceBool: for a key ending in one of the flag words, numbers and yes/no words become booleans. */
  function MaybeCoerceBool(key: string, val: Json): (r: Json)
    ensures !EndsWithAnyIgnoreCase(key, BoolWords) ==> r == val
    ensures r == val || (r.Bool? && (val.Num? || val.Str?))
    ensures val.Num? && EndsWithAnyIgnoreCase(key, BoolWords) ==> r == Bool(val.n != 0.0)
  {
    if !EndsWithAnyIgnoreCase(key, BoolWords) then val
    else
      match val
      case Num(x) => Bool(x != 0.0)
      case Str(s) =>
        var low := Lower(Trim(s));
        if low == "true" || low == "1" || low == "yes" then Bool(true)
        else if low == "false" || low == "0" || low == "no" then Bool(false)
        else val
      case _ => val
  }

  lemma BoolIdempotent(key: string, val: Json)
    ensures MaybeCoerceBool(key, MaybeCoerceBool(key, val)) == MaybeCoerceBool(key, val)
  {
  }

  /** toArray: arrays as they are, nothing as empty, a string as its comma list, anything else as a singleton. */
  function ToArray(v: Option<Json>): (r: seq<Json>)
    ensures v.Some? && v.value.Arr? ==> r == v.value.items
    ensures !Present(v) ==> r == []
    ensures v.Some? && v.value.Str? ==> forall i :: 0 <= i < |r| ==>
      r[i].Str? && r[i].s != [] && ',' !in r[i].s && Trim(r[i].s) == r[i].s
    ensures v.Some? && !v.value.Str? && !v.value.Arr? && !v.value.Null? ==> r == [v.value]
  {
    if v.None? then []
    else
      match v.value
      case Arr(xs) => xs
      case Null => []
      case Str(s) =>
        var t := Trim(s);
        TrimIdempotent(s);
        if t == [] then []
        else if ',' in t then StrArray(CommaList(t)).items
        else [Str(t)]
      case _ => [v.value]
  }

  /** A present string with no comma becomes the one-element array of its trimmed self. */
  lemma ToArrayOfWord(s: string)
    requires ',' !in s && !IsBlank(s)
    ensures ToArray(Some(Str(s))) == [Str(Trim(s))]
  {
    TrimEmptyIffBlank(s);
    TrimChars(s);
  }

  // ---------------------------------------------------------------------------
  // normalizeArgsAliases
  // ---------------------------------------------------------------------------

  /** The key an entry is stored under: camel-cased, then the alias renames. */
  function RenameKey(action: string, rawK: string): (k: string)
    ensures CleanKey(action, k)
  {
    var k := ToCamelCaseKey(rawK);
    if k == "groupby" then "groupBy"
    else if k == "includeRows" || k == "rows" || k == "includeDetails" then "includeIds"
    else if k == "category" then "categories"
    else if k == "view" then "viewId"
    else if k == "id" && (action == "element.info" || action == "view.apply_template") then
      (if action == "element.info" then "elementId" else "templateId")
    else k
  }

  /** A key no alias rename would change any more. */
  predicate CleanKey(action: string, k: string)
  {
    '_' !in k &&
    k != "groupby" && k != "includeRows" && k != "rows" && k != "includeDetails" &&
    k != "category" && k != "view" &&
    ((action == "element.info" || action == "view.apply_template") ==> k != "id")
  }

  predicate CleanKeys(action: string, f: Fields)
  {
    forall i :: 0 <= i < |f| ==> CleanKey(action, f[i].0)
  }

  /** One entry of the loop: a second categories key extends the first, anything else is assigned. */
  function AliasStep(action: string, out: Fields, e: (string, Json)): Fields
  {
    var k := RenameKey(action, e.0);
    if k == "categories" && Present(Get(out, "categories")) then
      Put(out, "categories", Arr(ToArray(Get(out, "categories")) + ToArray(Some(e.1))))
    else Put(out, k, e.1)
  }

  function AliasFold(action: string, out: Fields, entries: Fields): Fields
    decreases |entries|
  {
    if entries == [] then out else AliasFold(action, AliasStep(action, out, entries[0]), entries[1..])
  }

  /** `(args && typeof args === "object") ? args : {}`, as entries. */
  function SourceEntries(args: Option<Json>): Fields
  {
    if args.Some? && IsObjectLike(args.value) then Entries(args.value) else []
  }

  /** The value `color` gets from the shortcuts, when it is not set already. */
  function ColorShortcut(out: Fields): Option<Json>
  {
    var rgb := Get(out, "rgb");
    if Present(Get(out, "color")) then None
    else if rgb.Some? && rgb.value.Arr? && |rgb.value.items| >= 3 then
      Some(Obj([("r", rgb.value.items[0]), ("g", rgb.value.items[1]), ("b", rgb.value.items[2])]))
    else if Truthy(rgb) && IsObjectLike(rgb.value) then Some(rgb.value)
    else if Present(Get(out, "r")) && Present(Get(out, "g")) && Present(Get(out, "b")) then
      Some(Obj([("r", Get(out, "r").value), ("g", Get(out, "g").value), ("b", Get(out, "b").value)]))
    else if Present(Get(out, "red")) && Present(Get(out, "green")) && Present(Get(out, "blue")) then
      Some(Obj([("r", Get(out, "red").value), ("g", Get(out, "green").value), ("b", Get(out, "blue").value)]))
    else if Get(out, "hex").Some? && Get(out, "hex").value.Str? then Some(Get(out, "hex").value)
    else None
  }

  /** `out.k = toArray(out.k)` when `out.k != null`. */
  function ArrayValued(out: Fields, k: string): Fields
  {
    if Present(Get(out, k)) then Put(out, k, Arr(ToArray(Get(out, k)))) else out
  }

  function WithColor(out: Fields): Fields
  {
    var c := ColorShortcut(out);
    if c.Some? then Put(out, "color", c.value) else out
  }

  /** `if (out.categories != null && !Array.isArray(out.categories)) out.categories = toArray(out.categories)`. */
  function CategoriesArray(out: Fields): Fields
  {
    if Present(Get(out, "categories")) && !Get(out, "categories").value.Arr? then ArrayValued(out, "categories") else out
  }

  /** The steps after the loop: colour shortcuts, qto groupBy, categories as an array. */
  function AfterAliases(action: string, out: Fields): Fields
  {
    var o1 := if action == "view.category.override_color" then ArrayValued(WithColor(out), "categories") else out;
    var o2 := if StartsWith(action, "qto.") then ArrayValued(o1, "groupBy") else o1;
    CategoriesArray(o2)
  }

  /** normalizeArgsAliases, as a value. */
  function ArgsAliases(action: string, args: Option<Json>): Fields
  {
    AfterAliases(action, AliasFold(action, [], SourceEntries(args)))
  }

  /** normalizeArgsAliases: the loop over the entries, then the fix-ups. */
  method NormalizeArgsAliases(action: string, args: Option<Json>) returns (out: Fields)
    ensures out == ArgsAliases(action, args)
  {
    var src := SourceEntries(args);
    out := [];
    var i := 0;
    while i < |src|
      invariant 0 <= i <= |src|
      invariant AliasFold(action, out, src[i..]) == AliasFold(action, [], src)
    {
      assert src[i..][1..] == src[i + 1..];
      out := AliasStep(action, out, src[i]);
      i := i + 1;
    }
    assert src[i..] == [];
    if action == "view.category.override_color" {
      var c := ColorShortcut(out);
      if c.Some? {
        out := Put(out, "color", c.value);
      }
      if Present(Get(out, "categories")) {
        out := Put(out, "categories", Arr(ToArray(Get(out, "categories"))));
      }
    }
    if StartsWith(action, "qto.") && Present(Get(out, "groupBy")) {
      out := Put(out, "groupBy", Arr(ToArray(Get(out, "groupBy"))));
    }
    if Present(Get(out, "categories")) && !Get(out, "categories").value.Arr? {
      out := Put(out, "categories", Arr(ToArray(Get(out, "categories"))));
    }
  }

  lemma PutClean(action: string, f: Fields, k: string, v: Json)
    requires CleanKeys(action, f) && UniqueKeys(f) && CleanKey(action, k)
    ensures CleanKeys(action, Put(f, k, v)) && UniqueKeys(Put(f, k, v))
  {
    PutEntries(f, k, v);
    PutUnique(f, k, v);
    var r := Put(f, k, v);
    forall i | 0 <= i < |r| ensures CleanKey(action, r[i].0) {
      if r[i] != (k, v) {
        var j :| 0 <= j < |f| && f[j] == r[i];
      }
    }
  }

  lemma {:induction false} AliasFoldClean(action: string, out: Fields, entries: Fields)
    requires CleanKeys(action, out) && UniqueKeys(out)
    ensures CleanKeys(action, AliasFold(action, out, entries)) && UniqueKeys(AliasFold(action, out, entries))
    decreases |entries|
  {
    if entries != [] {
      var e := entries[0];
      var k := RenameKey(action, e.0);
      if k == "categories" && Present(Get(out, "categories")) {
        PutClean(action, out, "categories", Arr(ToArray(Get(out, "categories")) + ToArray(Some(e.1))));
      } else {
        PutClean(action, out, k, e.1);
      }
      AliasFoldClean(action, AliasStep(action, out, e), entries[1..]);
    }
  }

  predicate AliasShape(action: string, f: Fields)
  {
    CleanKeys(action, f) && UniqueKeys(f)
  }

  lemma ArrayValuedShape(action: string, f: Fields, k: string)
    requires AliasShape(action, f) && CleanKey(action, k)
    ensures AliasShape(action, ArrayValued(f, k))
    ensures !Present(Get(ArrayValued(f, k), k)) || Get(ArrayValued(f, k), k).value.Arr?
  {
    if Present(Get(f, k)) {
      var v := Arr(ToArray(Get(f, k)));
      PutClean(action, f, k, v);
      PutGet(f, k, v, k);
    }
  }

  lemma ArrayValuedOthers(f: Fields, k: string, k2: string)
    requires k2 != k
    ensures Get(ArrayValued(f, k), k2) == Get(f, k2)
  {
    if Present(Get(f, k)) {
      PutGet(f, k, Arr(ToArray(Get(f, k))), k2);
    }
  }

  lemma WithColorShape(action: string, f: Fields)
    requires AliasShape(action, f)
    ensures AliasShape(action, WithColor(f))
  {
    var c := ColorShortcut(f);
    if c.Some? {
      PutClean(action, f, "color", c.value);
    }
  }

  lemma CategoriesArrayShape(action: string, f: Fields)
    requires AliasShape(action, f)
    ensures AliasShape(action, CategoriesArray(f))
    ensures !Present(Get(CategoriesArray(f), "categories")) || Get(CategoriesArray(f), "categories").value.Arr?
    ensures Get(CategoriesArray(f), "groupBy") == Get(f, "groupBy")
  {
    if Present(Get(f, "categories")) && !Get(f, "categories").value.Arr? {
      ArrayValuedShape(action, f, "categories");
      ArrayValuedOthers(f, "categories", "groupBy");
    }
  }

  /**
   * After normalizeArgsAliases every key is camel-cased and free of aliases, no key
   * repeats, categories is an array when present, and so is groupBy for qto actions.
   */
  /** The two keys the fix-ups write are clean. */
  lemma FixUpKeysClean(action: string)
    ensures CleanKey(action, "categories") && CleanKey(action, "groupBy")
  {
    var g := "groupBy";
    assert g[5] == 'B' && "groupby"[5] == 'b';
    assert forall i :: 0 <= i < |g| ==> g[i] != '_';
  }

  lemma ArgsAliasesShape(action: string, args: Option<Json>)
    ensures var out := ArgsAliases(action, args);
      AliasShape(action, out) &&
      (!Present(Get(out, "categories")) || Get(out, "categories").value.Arr?) &&
      (StartsWith(action, "qto.") ==> !Present(Get(out, "groupBy")) || Get(out, "groupBy").value.Arr?)
  {
    var f := AliasFold(action, [], SourceEntries(args));
    AliasFoldClean(action, [], SourceEntries(args));
    FixUpKeysClean(action);
    var o1 := f;
    if action == "view.category.override_color" {
      WithColorShape(action, f);
      ArrayValuedShape(action, WithColor(f), "categories");
      o1 := ArrayValued(WithColor(f), "categories");
    }
    var o2 := o1;
    if StartsWith(action, "qto.") {
      ArrayValuedShape(action, o1, "groupBy");
      o2 := ArrayValued(o1, "groupBy");
    }
    CategoriesArrayShape(action, o2);
    assert ArgsAliases(action, args) == CategoriesArray(o2);
  }

  /** A second key naming the categories extends the array instead of replacing it. */
  lemma CategoriesAccumulate(action: string, out: Fields, e: (string, Json))
    requires RenameKey(action, e.0) == "categories" && Present(Get(out, "categories"))
    ensures Get(AliasStep(action, out, e), "categories") ==
      Some(Arr(ToArray(Get(out, "categories")) + ToArray(Some(e.1))))
  {
    PutGet(out, "categories", Arr(ToArray(Get(out, "categories")) + ToArray(Some(e.1))), "categories");
  }

  // ---------------------------------------------------------------------------
  // coerceArgsForAction
  // ---------------------------------------------------------------------------

  const IdListWords: seq<string> := ["viewIds", "levelIds", "typeIds", "templateIds", "elementIds", "categoryIds"]
  const IdWords: seq<string> := ["viewId", "levelId", "typeId", "templateId", "elementId", "categoryId"]

  /** `.map(x => typeof x === "string" ? parseInt(x, 10) : x).filter(not NaN)`. */
  function IdItems(xs: seq<Json>): (r: seq<Json>)
    ensures |r| <= |xs|
    ensures forall i :: 0 <= i < |r| ==> !r[i].Str?
  {
    if xs == [] then []
    else
      var head :=
        if !xs[0].Str? then [xs[0]]
        else match ParseInt10(xs[0].s)
          case Some(n) => [Num(n as real)]
          case None => [];
      head + IdItems(xs[1..])
  }

  /**
   * The coercion of one value: scalar, then bool; then id lists become arrays of
   * numbers and a single id a number (NaN, which JSON writes as null, for a string
   * that does not start with digits).
   */
  function CoerceValue(camel: string, v: Json): (r: Json)
    ensures EndsWithAnyIgnoreCase(camel, IdListWords) ==>
      r.Arr? && forall i :: 0 <= i < |r.items| ==> !r.items[i].Str?
    ensures EndsWithAnyIgnoreCase(camel, IdWords) ==> !r.Str?
  {
    var coerced := MaybeCoerceBool(camel, MaybeCoerceScalar(camel, v));
    if EndsWithAnyIgnoreCase(camel, IdListWords) then Arr(IdItems(ToArray(Some(coerced))))
    else if EndsWithAnyIgnoreCase(camel, IdWords) then
      if coerced.Str? then
        match ParseInt10(coerced.s)
        case Some(n) => Num(n as real)
        case None => Null
      else coerced
    else coerced
  }

  /** A loop writing each entry under `key` of its key, with the value `val` makes of it. */
  function PutEach(out: Fields, entries: Fields, key: string -> string, val: (string, Json) -> Json): Fields
    decreases |entries|
  {
    if entries == [] then out
    else
      var k := key(entries[0].0);
      PutEach(Put(out, k, val(k, entries[0].1)), entries[1..], key, val)
  }

  /** The loop of coerceArgsForAction: keys camel-cased, values coerced. */
  function CoerceFold(out: Fields, entries: Fields): Fields
  {
    PutEach(out, entries, ToCamelCaseKey, CoerceValue)
  }

  /** The two elevation fallbacks after the loop. */
  function ElevationFallback(out: Fields): Fields
  {
    var o1 :=
      if Present(Get(out, "elevation_m")) && !Present(Get(out, "elevation")) then
        Put(out, "elevation", Get(out, "elevation_m").value)
      else out;
    if Present(Get(o1, "elevation_ft")) && !Present(Get(o1, "elevation")) then
      Put(o1, "elevation", FeetValue(Get(o1, "elevation_ft").value))
    else o1
  }

  /** `toMeters(Number(v), "ft")` for a number or a string (NaN is written as null). */
  function FeetValue(v: Json): Json
  {
    var n :=
      match v
      case Num(x) => Finite(x)
      case Str(s) => StringToNumber(s)
      case Bool(b) => Finite(if b then 1.0 else 0.0)
      case _ => NaN;
    match n
    case Finite(x) => Num(x * 0.3048)
    case _ => Null
  }

  /** coerceArgsForAction, as a value. */
  function CoercedArgs(action: string, raw: Option<Json>): Json
  {
    if !Truthy(raw) then Obj([])
    else if !IsObjectLike(raw.value) then raw.value
    else Obj(ElevationFallback(CoerceFold([], ArgsAliases(action, raw))))
  }

  /** coerceArgsForAction: anything but an object goes back (`|| {}`); objects go through the aliases and coercion. */
  method CoerceArgsForAction(action: string, raw: Option<Json>) returns (r: Json)
    ensures r == CoercedArgs(action, raw)
  {
    if !Truthy(raw) {
      return Obj([]);
    }
    if !IsObjectLike(raw.value) {
      return raw.value;
    }
    var normalizedIn := NormalizeArgsAliases(action, raw);
    var out: Fields := [];
    var i := 0;
    while i < |normalizedIn|
      invariant 0 <= i <= |normalizedIn|
      invariant CoerceFold(out, normalizedIn[i..]) == CoerceFold([], normalizedIn)
    {
      assert normalizedIn[i..][1..] == normalizedIn[i + 1..];
      var camel := ToCamelCaseKey(normalizedIn[i].0);
      out := Put(out, camel, CoerceValue(camel, normalizedIn[i].1));
      i := i + 1;
    }
    assert normalizedIn[i..] == [];
    if Present(Get(out, "elevation_m")) && !Present(Get(out, "elevation")) {
      out := Put(out, "elevation", Get(out, "elevation_m").value);
    }
    if Present(Get(out, "elevation_ft")) && !Present(Get(out, "elevation")) {
      out := Put(out, "elevation", FeetValue(Get(out, "elevation_ft").value));
    }
    return Obj(out);
  }

  /** Every entry's value replaced by what `val` makes of it, in place. */
  function MapValues(entries: Fields, val: (string, Json) -> Json): (r: Fields)
    ensures |r| == |entries|
  {
    seq(|entries|, i requires 0 <= i < |entries| => (entries[i].0, val(entries[i].0, entries[i].1)))
  }

  /** Every entry coerced where it stands. */
  function CoerceEach(entries: Fields): (r: Fields)
    ensures |r| == |entries|
    ensures forall i :: 0 <= i < |entries| ==> r[i] == (entries[i].0, CoerceValue(entries[i].0, entries[i].1))
  {
    MapValues(entries, CoerceValue)
  }

  predicate CamelKeys(f: Fields)
  {
    forall i :: 0 <= i < |f| ==> '_' !in f[i].0
  }

  lemma {:induction false} PutAppend(f: Fields, k: string, v: Json)
    requires !HasKey(f, k)
    ensures Put(f, k, v) == f + [(k, v)]
  {
    if f != [] {
      assert Keys(f) == [f[0].0] + Keys(f[1..]);
      PutAppend(f[1..], k, v);
      assert f == [f[0]] + f[1..];
    }
  }

  predicate Disjoint(a: Fields, b: Fields)
  {
    forall i, j :: 0 <= i < |a| && 0 <= j < |b| ==> a[i].0 != b[j].0
  }

  /** Moving the first entry over keeps the two sides apart. */
  lemma DisjointShift(out: Fields, entries: Fields, v: Json)
    requires entries != [] && UniqueKeys(entries) && Disjoint(out, entries)
    ensures !HasKey(out, entries[0].0)
    ensures Disjoint(out + [(entries[0].0, v)], entries[1..])
  {
    forall j | 0 <= j < |out| ensures Keys(out)[j] != entries[0].0 {
      assert out[j].0 != entries[0].0;
    }
    var out' := out + [(entries[0].0, v)];
    forall i, j | 0 <= i < |out'| && 0 <= j < |entries[1..]| ensures out'[i].0 != entries[1..][j].0 {
      assert entries[1..][j] == entries[j + 1];
      if i < |out| {
        assert out'[i] == out[i];
      }
    }
  }

  /** One step of the loop over a key `key` keeps and that is absent from `out` appends the entry. */
  lemma PutEachStep(out: Fields, entries: Fields, key: string -> string, val: (string, Json) -> Json)
    requires entries != [] && key(entries[0].0) == entries[0].0
    requires UniqueKeys(entries) && Disjoint(out, entries)
    ensures PutEach(out, entries, key, val) ==
      PutEach(out + [(entries[0].0, val(entries[0].0, entries[0].1))], entries[1..], key, val)
    ensures UniqueKeys(entries[1..])
    ensures Disjoint(out + [(entries[0].0, val(entries[0].0, entries[0].1))], entries[1..])
  {
    var k := entries[0].0;
    var v := val(k, entries[0].1);
    DisjointShift(out, entries, v);
    PutAppend(out, k, v);
    assert forall i :: 0 <= i < |entries| - 1 ==> entries[1..][i] == entries[i + 1];
  }

  lemma MapValuesCons(entries: Fields, val: (string, Json) -> Json)
    requires entries != []
    ensures MapValues(entries, val) == [(entries[0].0, val(entries[0].0, entries[0].1))] + MapValues(entries[1..], val)
  {
    var a := MapValues(entries, val);
    var b := [(entries[0].0, val(entries[0].0, entries[0].1))] + MapValues(entries[1..], val);
    forall i | 0 <= i < |a| ensures a[i] == b[i] {
      if i > 0 {
        assert entries[1..][i - 1] == entries[i];
        assert b[i] == MapValues(entries[1..], val)[i - 1];
      }
    }
  }

  /** Over distinct keys that `key` keeps, the loop writes every entry in place with its new value. */
  lemma {:induction false} PutEachPointwise(out: Fields, entries: Fields, key: string -> string, val: (string, Json) -> Json)
    requires forall i :: 0 <= i < |entries| ==> key(entries[i].0) == entries[i].0
    requires UniqueKeys(entries) && Disjoint(out, entries)
    ensures PutEach(out, entries, key, val) == out + MapValues(entries, val)
    decreases |entries|
  {
    if entries != [] {
      var e := (entries[0].0, val(entries[0].0, entries[0].1));
      var rest := entries[1..];
      PutEachStep(out, entries, key, val);
      assert forall i :: 0 <= i < |rest| ==> key(rest[i].0) == rest[i].0 by {
        forall i | 0 <= i < |rest| ensures key(rest[i].0) == rest[i].0 {
          assert rest[i] == entries[i + 1];
        }
      }
      PutEachPointwise(out + [e], rest, key, val);
      MapValuesCons(entries, val);
      assert (out + [e]) + MapValues(rest, val) == out + ([e] + MapValues(rest, val));
    }
  }

  /** Over camel-cased, distinct keys the loop keeps every key in place and coerces its value. */
  lemma CoerceFoldPointwise(out: Fields, entries: Fields)
    requires CamelKeys(entries) && UniqueKeys(entries) && Disjoint(out, entries)
    ensures CoerceFold(out, entries) == out + CoerceEach(entries)
  {
    assert forall i :: 0 <= i < |entries| ==> ToCamelCaseKey(entries[i].0) == entries[i].0;
    PutEachPointwise(out, entries, ToCamelCaseKey, CoerceValue);
  }

  lemma CleanKeysCamel(action: string, f: Fields)
    requires CleanKeys(action, f)
    ensures CamelKeys(f)
  {
  }

  /** The fallbacks read keys with underscores, which the gateway has already camel-cased away. */
  lemma ElevationFallbackIdle(out: Fields)
    requires CamelKeys(out)
    ensures ElevationFallback(out) == out
  {
    assert "elevation_m"[9] == '_' && "elevation_ft"[9] == '_';
    forall j | 0 <= j < |out| ensures Keys(out)[j] != "elevation_m" && Keys(out)[j] != "elevation_ft" {
      assert '_' !in out[j].0;
    }
  }

  /**
   * For object args the result is the alias-normalised entries, in their order,
   * each value coerced for its key; nothing is added or dropped.
   */
  lemma CoercedArgsPointwise(action: string, raw: Option<Json>)
    requires raw.Some? && IsObjectLike(raw.value)
    ensures CoercedArgs(action, raw) == Obj(CoerceEach(ArgsAliases(action, raw)))
  {
    var n := ArgsAliases(action, raw);
    assert CoercedArgs(action, raw) == Obj(ElevationFallback(CoerceFold([], n)));
    ArgsAliasesShape(action, raw);
    CoerceFoldPointwise([], n);
    assert [] + CoerceEach(n) == CoerceEach(n);
    assert CamelKeys(CoerceEach(n));
    ElevationFallbackIdle(CoerceEach(n));
  }

  /** Id-list keys carry arrays without strings; single-id keys carry no strings. */
  lemma CoercedIds(action: string, raw: Option<Json>, i: nat)
    requires raw.Some? && IsObjectLike(raw.value)
    requires i < |CoercedArgs(action, raw).fields|
    ensures var e := CoercedArgs(action, raw).fields[i];
      '_' !in e.0 &&
      (EndsWithAnyIgnoreCase(e.0, IdListWords) ==> e.1.Arr? && forall j :: 0 <= j < |e.1.items| ==> !e.1.items[j].Str?) &&
      (EndsWithAnyIgnoreCase(e.0, IdWords) ==> !e.1.Str?)
  {
    CoercedArgsPointwise(action, raw);
    ArgsAliasesShape(action, raw);
  }

  /** Anything but an object or array goes back as it is, or as `{}` when falsy. */
  lemma CoercedNonObject(action: string, raw: Option<Json>)
    requires !(raw.Some? && IsObjectLike(raw.value))
    ensures CoercedArgs(action, raw) == if Truthy(raw) then raw.value else Obj([])
  {
  }
}
