// JSON values as both the gateway (JavaScript objects) and the bridge (JObject)
// see them. An object is a sequence of (key, value) entries in insertion order.

module Json {
  import opened Text

  datatype Json =
    | Null
    | Bool(b: bool)
    | Num(n: real)
    | Str(s: string)
    | Arr(items: seq<Json>)
    | Obj(fields: seq<(string, Json)>)

  type Fields = seq<(string, Json)>

  function Keys<T>(f: seq<(string, T)>): (ks: seq<string>)
    ensures |ks| == |f|
    ensures forall i :: 0 <= i < |f| ==> ks[i] == f[i].0
  {
    if f == [] then [] else [f[0].0] + Keys(f[1..])
  }

  /** No key occurs twice: what every JavaScript object and JObject guarantees. */
  predicate UniqueKeys(f: Fields)
  {
    forall i, j :: 0 <= i < j < |f| ==> f[i].0 != f[j].0
  }

  predicate HasKey(f: Fields, k: string)
  {
    k in Keys(f)
  }

  /** Property read; None is JavaScript's `undefined` (the key is absent). */
  function Get(f: Fields, k: string): (r: Option<Json>)
    ensures r.Some? <==> HasKey(f, k)
    ensures r.Some? ==> exists i :: 0 <= i < |f| && f[i] == (k, r.value)
  {
    if f == [] then None
    else if f[0].0 == k then Some(f[0].1)
    else
      var r := Get(f[1..], k);
      assert Keys(f) == [f[0].0] + Keys(f[1..]);
      r
  }

  /** Property assignment: an existing key keeps its position, a new key goes last. */
  function Put(f: Fields, k: string, v: Json): (r: Fields)
  {
    if f == [] then [(k, v)]
    else if f[0].0 == k then [(k, v)] + f[1..]
    else [f[0]] + Put(f[1..], k, v)
  }

  /** `delete o[k]`. */
  function Remove(f: Fields, k: string): (r: Fields)
  {
    if f == [] then []
    else if f[0].0 == k then Remove(f[1..], k)
    else [f[0]] + Remove(f[1..], k)
  }

  lemma {:induction false} PutGet(f: Fields, k: string, v: Json, k2: string)
    ensures Get(Put(f, k, v), k2) == if k2 == k then Some(v) else Get(f, k2)
  {
    if f != [] && f[0].0 != k {
      PutGet(f[1..], k, v, k2);
    }
  }

  lemma {:induction false} PutKeys(f: Fields, k: string, v: Json)
    ensures Keys(Put(f, k, v)) == if HasKey(f, k) then Keys(f) else Keys(f) + [k]
  {
    if f != [] {
      assert Keys(f) == [f[0].0] + Keys(f[1..]);
      if f[0].0 != k {
        PutKeys(f[1..], k, v);
        assert Keys(Put(f, k, v)) == [f[0].0] + Keys(Put(f[1..], k, v));
      } else {
        assert Keys(Put(f, k, v)) == [k] + Keys(f[1..]);
      }
    }
  }

  lemma PutUnique(f: Fields, k: string, v: Json)
    requires UniqueKeys(f)
    ensures UniqueKeys(Put(f, k, v))
  {
    var r := Put(f, k, v);
    PutKeys(f, k, v);
    var ks := Keys(r);
    forall i, j | 0 <= i < j < |r| ensures r[i].0 != r[j].0 {
      assert ks[i] == r[i].0 && ks[j] == r[j].0;
      if !HasKey(f, k) && j == |f| {
        assert Keys(f)[i] == f[i].0;
      }
    }
  }

  /** Every entry after an assignment is the assigned one or an entry that was already there. */
  lemma {:induction false} PutEntries(f: Fields, k: string, v: Json)
    ensures forall i :: 0 <= i < |Put(f, k, v)| ==> Put(f, k, v)[i] == (k, v) || Put(f, k, v)[i] in f
  {
    if f != [] && f[0].0 != k {
      PutEntries(f[1..], k, v);
      var r := Put(f, k, v);
      assert r == [f[0]] + Put(f[1..], k, v);
      forall i | 0 <= i < |r| ensures r[i] == (k, v) || r[i] in f {
        if i > 0 {
          assert r[i] == Put(f[1..], k, v)[i - 1];
          if r[i] in f[1..] {
            var j :| 0 <= j < |f[1..]| && f[1..][j] == r[i];
            assert f[j + 1] == r[i];
          }
        }
      }
    } else if f != [] {
      var r := Put(f, k, v);
      forall i | 1 <= i < |r| ensures r[i] in f {
        assert r[i] == f[i];
      }
    }
  }

  lemma {:induction false} RemoveSub(f: Fields, k: string)
    ensures forall i :: 0 <= i < |Remove(f, k)| ==> Remove(f, k)[i] in f[..] && Remove(f, k)[i].0 != k
  {
    if f != [] {
      RemoveSub(f[1..], k);
      var t := Remove(f[1..], k);
      forall i | 0 <= i < |t| ensures t[i] in f {
        var j :| 0 <= j < |f[1..]| && f[1..][j] == t[i];
        assert f[j + 1] == t[i];
      }
    }
  }

  lemma {:induction false} RemoveUnique(f: Fields, k: string)
    requires UniqueKeys(f)
    ensures UniqueKeys(Remove(f, k))
  {
    if f != [] {
      RemoveUnique(f[1..], k);
      RemoveSub(f[1..], k);
      var t := Remove(f[1..], k);
      if f[0].0 != k {
        var r := Remove(f, k);
        assert r == [f[0]] + t;
        forall j | 0 <= j < |t| ensures t[j].0 != f[0].0 {
          var a :| 0 <= a < |f[1..]| && f[1..][a] == t[j];
          assert f[a + 1] == t[j];
        }
        forall i, j | 0 <= i < j < |r| ensures r[i].0 != r[j].0 {
          if i > 0 {
            assert r[i] == t[i - 1] && r[j] == t[j - 1];
          } else {
            assert r[j] == t[j - 1];
          }
        }
      }
    }
  }

  lemma {:induction false} RemoveGet(f: Fields, k: string, k2: string)
    ensures Get(Remove(f, k), k2) == if k2 == k then None else Get(f, k2)
  {
    if f != [] {
      RemoveGet(f[1..], k, k2);
    }
  }

  /** An array of strings. */
  function StrArray(xs: seq<string>): (r: Json)
    ensures r.Arr? && |r.items| == |xs|
    ensures forall i :: 0 <= i < |xs| ==> r.items[i] == Str(xs[i])
  {
    Arr(seq(|xs|, i requires 0 <= i < |xs| => Str(xs[i])))
  }

  // ---------------------------------------------------------------------------
  // JavaScript views of a value
  // ---------------------------------------------------------------------------

  /** JavaScript truthiness of a property read (undefined, null, false, 0, "" are falsy). */
  predicate Truthy(v: Option<Json>)
  {
    match v
    case None => false
    case Some(Null) => false
    case Some(Bool(b)) => b
    case Some(Num(n)) => n != 0.0
    case Some(Str(s)) => s != []
    case Some(_) => true
  }

  /** `x != null` (loose inequality: neither undefined nor null). */
  predicate Present(v: Option<Json>)
  {
    v.Some? && !v.value.Null?
  }

  /** `x && typeof x === "object"`: objects and arrays. */
  predicate IsObjectLike(v: Json)
  {
    v.Obj? || v.Arr?
  }

  /** The members every plain JavaScript object inherits from Object.prototype; each reads as a truthy value. */
  const PrototypeMembers: seq<string> := [
    "constructor", "__defineGetter__", "__defineSetter__", "hasOwnProperty",
    "__lookupGetter__", "__lookupSetter__", "isPrototypeOf", "propertyIsEnumerable",
    "toString", "valueOf", "__proto__", "toLocaleString"
  ]

  function Indexed<T>(xs: seq<T>, start: nat): (r: seq<(string, T)>)
    ensures |r| == |xs|
    ensures forall i :: 0 <= i < |xs| ==> r[i].1 == xs[i]
    decreases |xs|
  {
    if xs == [] then [] else [(NatToString(start), xs[0])] + Indexed(xs[1..], start + 1)
  }

  lemma {:induction false} IndexedKeys<T>(xs: seq<T>, start: nat)
    ensures forall i :: 0 <= i < |xs| ==> Indexed(xs, start)[i].0 == NatToString(start + i)
    decreases |xs|
  {
    if xs != [] {
      IndexedKeys(xs[1..], start + 1);
      assert forall i :: 1 <= i < |xs| ==> Indexed(xs, start)[i] == Indexed(xs[1..], start + 1)[i - 1];
    }
  }

  /** Index keys never repeat. */
  lemma IndexedUnique(xs: seq<Json>, start: nat)
    ensures UniqueKeys(Indexed(xs, start))
  {
    IndexedKeys(xs, start);
    var r := Indexed(xs, start);
    forall i, j | 0 <= i < j < |r| ensures r[i].0 != r[j].0 {
      assert DigitsValue(NatToString(start + i)) != DigitsValue(NatToString(start + j));
    }
  }

  /** The shape every object value has: no key twice (arrays and strings have index keys). */
  predicate ShallowUnique(v: Json)
  {
    v.Obj? ==> UniqueKeys(v.fields)
  }

  lemma EntriesUnique(v: Json)
    requires ShallowUnique(v)
    ensures UniqueKeys(Entries(v))
  {
    match v
    case Arr(xs) => IndexedUnique(xs, 0);
    case Str(s) => IndexedUnique(seq(|s|, i requires 0 <= i < |s| => Str([s[i]])), 0);
    case _ =>
  }

  /**
   * Object.entries / the entries that `{...v}` copies: the fields of an object, the
   * indexed elements of an array or the indexed characters of a string, nothing else.
   */
  function Entries(v: Json): (r: Fields)
    ensures v.Obj? ==> r == v.fields
    ensures v.Null? || v.Bool? || v.Num? ==> r == []
  {
    match v
    case Obj(fs) => fs
    case Arr(xs) => Indexed(xs, 0)
    case Str(s) => Indexed(seq(|s|, i requires 0 <= i < |s| => Str([s[i]])), 0)
    case _ => []
  }

  /** `{...a, ...b}`: the entries of `b` assigned over those of `a`. */
  function Spread(a: Fields, b: Fields): (r: Fields)
    decreases |b|
  {
    if b == [] then a else Spread(Put(a, b[0].0, b[0].1), b[1..])
  }

  /** In `{...a, ...b}` the keys of `b` win, and every other key of `a` is kept. */
  lemma {:induction false} SpreadGet(a: Fields, b: Fields, k: string)
    requires UniqueKeys(b)
    ensures Get(Spread(a, b), k) == if HasKey(b, k) then Get(b, k) else Get(a, k)
    decreases |b|
  {
    if b != [] {
      SpreadGet(Put(a, b[0].0, b[0].1), b[1..], k);
      PutGet(a, b[0].0, b[0].1, k);
      assert Keys(b) == [b[0].0] + Keys(b[1..]);
      if HasKey(b[1..], k) {
        var j :| 0 <= j < |b[1..]| && Keys(b[1..])[j] == k;
        assert b[j + 1].0 == k;
      }
    }
  }
}
