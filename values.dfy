/**
 * Python values as the ozon-env core handles them: JSON-like data decoded
 * from form schemas and records, plus datetime objects. Dictionaries keep
 * Python's insertion order, so they are association lists; assignment to an
 * existing key keeps its position. Python exceptions are `Fail` results.
 */
module Values {
  import opened Text

  datatype Option<T> = None | Some(value: T)

  /** A computation that either returns or raises a Python exception. */
  datatype Result<T> = Ok(value: T) | Fail(reason: string)

  datatype Value =
    | VNone
    | VBool(b: bool)
    | VInt(i: int)
    | VFloat(r: real)
    | VStr(s: string)
    | VList(items: seq<Value>)
    | VDict(entries: seq<(string, Value)>)
    | VDateTime(text: string)

  // ---------------------------------------------------------------------
  // Ordered dictionaries as association lists

  function Lookup<K(==), V>(d: seq<(K, V)>, k: K): Option<V>
  {
    if |d| == 0 then None
    else if d[0].0 == k then Some(d[0].1)
    else Lookup(d[1..], k)
  }

  function KeysOf<K, V>(d: seq<(K, V)>): (ks: seq<K>)
    ensures |ks| == |d|
    ensures forall i :: 0 <= i < |d| ==> ks[i] == d[i].0
  {
    if |d| == 0 then [] else [d[0].0] + KeysOf(d[1..])
  }

  /** `d[k] = v`: replaces the value of an existing key in place, otherwise appends. */
  function Put<K(==), V>(d: seq<(K, V)>, k: K, v: V): seq<(K, V)>
  {
    if |d| == 0 then [(k, v)]
    else if d[0].0 == k then [(k, v)] + d[1..]
    else [d[0]] + Put(d[1..], k, v)
  }

  /** Deletes the key. */
  function Remove<K(==), V>(d: seq<(K, V)>, k: K): seq<(K, V)>
  {
    if |d| == 0 then []
    else if d[0].0 == k then Remove(d[1..], k)
    else [d[0]] + Remove(d[1..], k)
  }

  /** `d.update(e)`: every entry of `e`, in order, assigned into `d`. */
  function Update<K(==), V>(d: seq<(K, V)>, e: seq<(K, V)>): seq<(K, V)>
    decreases |e|
  {
    if |e| == 0 then d else Update(Put(d, e[0].0, e[0].1), e[1..])
  }

  lemma {:induction false} LookupIsKey<K, V>(d: seq<(K, V)>, k: K)
    ensures Lookup(d, k).Some? <==> k in KeysOf(d)
  {
    if |d| > 0 {
      LookupIsKey(d[1..], k);
      assert KeysOf(d) == [d[0].0] + KeysOf(d[1..]);
    }
  }

  /** After an assignment the key holds the new value and every other key is untouched. */
  lemma {:induction false} LookupPut<K, V>(d: seq<(K, V)>, k: K, v: V, j: K)
    ensures Lookup(Put(d, k, v), j) == if j == k then Some(v) else Lookup(d, j)
  {
    if |d| > 0 && d[0].0 != k {
      LookupPut(d[1..], k, v, j);
      assert Put(d, k, v)[1..] == Put(d[1..], k, v);
    }
  }

  /** An assignment keeps the key order and appends a key that was absent. */
  lemma {:induction false} KeysPut<K, V>(d: seq<(K, V)>, k: K, v: V)
    ensures KeysOf(Put(d, k, v)) == if k in KeysOf(d) then KeysOf(d) else KeysOf(d) + [k]
  {
    if |d| > 0 {
      KeysPut(d[1..], k, v);
      assert KeysOf(d) == [d[0].0] + KeysOf(d[1..]);
      if d[0].0 != k {
        assert KeysOf(Put(d, k, v)) == [d[0].0] + KeysOf(Put(d[1..], k, v));
      }
    }
  }

  /** Assigning a key twice keeps the second value, in the first one's place. */
  lemma {:induction false} PutTwice<K, V>(d: seq<(K, V)>, k: K, v1: V, v2: V)
    ensures Put(Put(d, k, v1), k, v2) == Put(d, k, v2)
  {
    if |d| > 0 && d[0].0 != k {
      PutTwice(d[1..], k, v1, v2);
      assert Put(d, k, v1)[1..] == Put(d[1..], k, v1);
    }
  }

  /** Looking a key up in a list built entry by entry. */
  lemma LookupCons<K, V>(e: (K, V), rest: seq<(K, V)>, j: K)
    ensures Lookup([e] + rest, j) == if e.0 == j then Some(e.1) else Lookup(rest, j)
  {
    assert ([e] + rest)[1..] == rest;
  }

  /** Every entry after an assignment is the new one or was there before. */
  lemma {:induction false} EntriesPut<K, V>(d: seq<(K, V)>, k: K, v: V)
    ensures forall e :: e in Put(d, k, v) ==> e == (k, v) || e in d
  {
    if |d| > 0 && d[0].0 != k {
      EntriesPut(d[1..], k, v);
    }
  }

  lemma {:induction false} LookupRemove<K, V>(d: seq<(K, V)>, k: K, j: K)
    ensures Lookup(Remove(d, k), j) == if j == k then None else Lookup(d, j)
  {
    if |d| > 0 {
      LookupRemove(d[1..], k, j);
    }
  }

  /** A list that holds each element once. */
  predicate NoDup<T(==)>(s: seq<T>)
  {
    forall i, j :: 0 <= i < j < |s| ==> s[i] != s[j]
  }

  lemma NoDupAppend<T>(s: seq<T>, x: T)
    requires NoDup(s) && x !in s
    ensures NoDup(s + [x])
  {
  }

  // ---------------------------------------------------------------------
  // Python semantics of values

  /** `bool(v)`. */
  predicate Truthy(v: Value) {
    match v
    case VNone => false
    case VBool(b) => b
    case VInt(i) => i != 0
    case VFloat(r) => r != 0.0
    case VStr(s) => |s| > 0
    case VList(xs) => |xs| > 0
    case VDict(e) => |e| > 0
    case VDateTime(_) => true
  }

  predicate IsNumber(v: Value) { v.VBool? || v.VInt? || v.VFloat? }

  function NumberOf(v: Value): real
    requires IsNumber(v)
  {
    match v
    case VBool(b) => if b then 1.0 else 0.0
    case VInt(i) => i as real
    case VFloat(r) => r
  }

  /**
   * Python's `==`: booleans, integers and floats compare by numeric value,
   * lists element by element, dictionaries by key set and values regardless
   * of insertion order.
   */
  predicate PyEq(a: Value, b: Value)
    decreases a
  {
    match a
    case VNone => b.VNone?
    case VStr(s) => b.VStr? && b.s == s
    case VDateTime(t) => b.VDateTime? && b.text == t
    case VList(xs) =>
      b.VList? && |xs| == |b.items|
      && forall i :: 0 <= i < |xs| ==> PyEq(xs[i], b.items[i])
    case VDict(e) =>
      b.VDict? && |e| == |b.entries|
      && forall i :: 0 <= i < |e| ==> EntryMatches(b.entries, e[i].0) && PyEq(e[i].1, ValueAt(b.entries, e[i].0))
    case _ => IsNumber(b) && NumberOf(a) == NumberOf(b)
  }

  predicate EntryMatches(e: seq<(string, Value)>, k: string) { Lookup(e, k).Some? }

  function ValueAt(e: seq<(string, Value)>, k: string): Value
  {
    match Lookup(e, k)
    case Some(v) => v
    case None => VNone
  }

  /** Whether Python can use the value as a dictionary key. */
  predicate Hashable(v: Value) { !v.VList? && !v.VDict? }

  /** `d.get(k, default)` on a value that must be a dictionary. */
  function DictGet(d: Value, k: string, default: Value): Result<Value>
  {
    if d.VDict? then
      match Lookup(d.entries, k)
      case Some(v) => Ok(v)
      case None => Ok(default)
    else Fail("AttributeError: object has no attribute 'get'")
  }

  /** `d.get(k, default)` on the entries of a dictionary. */
  function GetOr(d: seq<(string, Value)>, k: string, default: Value): Value
  {
    match Lookup(d, k)
    case Some(v) => v
    case None => default
  }

  /** `d[k]` on a value that must be a dictionary holding `k`. */
  function Index(d: Value, k: string): Result<Value>
  {
    if !d.VDict? then Fail("TypeError: object is not subscriptable")
    else match Lookup(d.entries, k)
      case Some(v) => Ok(v)
      case None => Fail("KeyError")
  }

  /** `for x in v`: lists yield items, dictionaries their keys, strings their characters. */
  function Iterate(v: Value): (r: Result<seq<Value>>)
    ensures v.VList? ==> r == Ok(v.items)
    ensures r.Ok? <==> v.VList? || v.VDict? || v.VStr?
  {
    match v
    case VList(xs) => Ok(xs)
    case VDict(e) => Ok(seq(|e|, i requires 0 <= i < |e| => VStr(e[i].0)))
    case VStr(s) => Ok(seq(|s|, i requires 0 <= i < |s| => VStr([s[i]])))
    case _ => Fail("TypeError: object is not iterable")
  }

  /** `needle in v` for a string needle. */
  function PyContains(v: Value, needle: string): Result<bool>
  {
    match v
    case VStr(s) => Ok(Contains(s, needle))
    case VList(xs) => Ok(VStr(needle) in xs)
    case VDict(e) => Ok(needle in KeysOf(e))
    case _ => Fail("TypeError: argument is not iterable")
  }

  // ---------------------------------------------------------------------
  // Code outside the core

  /**
   * The library functions the core calls and this model does not define:
   * `json.loads` (None when it raises), dateutil's `parse`, `repr` of
   * floats, containers and datetimes, `float()` of a string, the jsonLogic
   * evaluator (None when it raises) and the datetime default `defaultdt`.
   */
  datatype Externals = Externals(
    jsonLoads: string -> Option<Value>,
    parseDate: string -> Option<Value>,
    repr: Value -> string,
    parseFloat: string -> Option<real>,
    jsonLogic: (Value, Value) -> Option<Value>,
    defaultDt: Value)

  /** `str(v)`. */
  function PyStr(v: Value, ext: Externals): string
  {
    match v
    case VStr(s) => s
    case VBool(b) => if b then "True" else "False"
    case VNone => "None"
    case VInt(i) => IntToDecimal(i)
    case _ => ext.repr(v)
  }

  /** The Python callables the core uses as type converters. */
  datatype Caster =
    | ToStr | ToInt | ToFloat | ToBool | ToDict
    | ToList          // `list` and `list[dict]`
    | ToAnyList       // `typing.List[Any]`, which cannot be instantiated
    | ToDateTime      // `datetime`, which needs more than one argument
    | NotCallable     // `None`

  /** Digits separated by single underscores, as `int()` accepts them. */
  predicate UnderscoredDigits(t: string)
  {
    |t| > 0 && IsDigit(t[0]) && IsDigit(t[|t| - 1])
    && (forall i :: 0 <= i < |t| ==> IsDigit(t[i]) || t[i] == '_')
    && (forall i :: 0 <= i < |t| - 1 ==> !(t[i] == '_' && t[i + 1] == '_'))
  }

  /** `int(s)` for a string: optional white space and sign around decimal digits. */
  function ParseIntLiteral(s: string): Option<int>
  {
    var t := Strip(s);
    if |t| > 0 && (t[0] == '+' || t[0] == '-') then
      var body := t[1..];
      if UnderscoredDigits(body) then
        var n: int := DigitsValue(KeepDigits(body));
        Some(if t[0] == '-' then -n else n)
      else None
    else if UnderscoredDigits(t) then Some(DigitsValue(KeepDigits(t)))
    else None
  }

  /** `int(r)` for a float truncates toward zero. */
  function Truncate(r: real): int
  {
    if r >= 0.0 then r.Floor else -((-r).Floor)
  }

  /** `dict(x)` for a list of two-item pairs with string keys. */
  function DictFromPairs(items: seq<Value>, acc: seq<(string, Value)>): Result<Value>
  {
    if |items| == 0 then Ok(VDict(acc))
    else
      var p := items[0];
      if p.VList? && |p.items| == 2 && p.items[0].VStr? then
        DictFromPairs(items[1..], Put(acc, p.items[0].s, p.items[1]))
      else Fail("TypeError: cannot convert dictionary update sequence element")
  }

  /** Applying a converter to a value, as `int(v)`, `str(v)` and the like do. */
  function PyCast(c: Caster, v: Value, ext: Externals): Result<Value>
  {
    match c
    case ToStr => Ok(VStr(PyStr(v, ext)))
    case ToBool => Ok(VBool(Truthy(v)))
    case ToInt =>
      (match v
       case VInt(_) => Ok(v)
       case VBool(b) => Ok(VInt(if b then 1 else 0))
       case VFloat(r) => Ok(VInt(Truncate(r)))
       case VStr(s) =>
         (match ParseIntLiteral(s)
          case Some(n) => Ok(VInt(n))
          case None => Fail("ValueError: invalid literal for int()"))
       case _ => Fail("TypeError: int() argument"))
    case ToFloat =>
      (match v
       case VFloat(_) => Ok(v)
       case VInt(i) => Ok(VFloat(i as real))
       case VBool(b) => Ok(VFloat(if b then 1.0 else 0.0))
       case VStr(s) =>
         (match ext.parseFloat(s)
          case Some(r) => Ok(VFloat(r))
          case None => Fail("ValueError: could not convert string to float"))
       case _ => Fail("TypeError: float() argument"))
    case ToDict =>
      (match v
       case VDict(_) => Ok(v)
       case VList(items) => DictFromPairs(items, [])
       case _ => Fail("TypeError: object is not iterable"))
    case ToList =>
      (match Iterate(v)
       case Ok(xs) => Ok(VList(xs))
       case Fail(m) => Fail(m))
    case ToAnyList => Fail("TypeError: Type List cannot be instantiated")
    case ToDateTime => Fail("TypeError: function missing required argument")
    case NotCallable => Fail("TypeError: 'NoneType' object is not callable")
  }

  /** Converting to `str` and `bool` never raises, and a value already of the target type passes unchanged. */
  lemma CastTotalAndStable(v: Value, ext: Externals)
    ensures PyCast(ToStr, v, ext).Ok? && PyCast(ToBool, v, ext) == Ok(VBool(Truthy(v)))
    ensures v.VInt? ==> PyCast(ToInt, v, ext) == Ok(v)
    ensures v.VStr? ==> PyCast(ToStr, v, ext) == Ok(v)
    ensures v.VList? ==> PyCast(ToList, v, ext) == Ok(v)
  {
  }

  // ---------------------------------------------------------------------
  // Size, for termination of walks over nested values

  function Size(v: Value): nat
    decreases v, 1
  {
    match v
    case VList(xs) => 1 + SizeList(xs)
    case VDict(e) => 1 + SizeEntries(e, 0)
    case _ => 1
  }

  function SizeList(xs: seq<Value>): nat
    decreases xs
  {
    if |xs| == 0 then 0 else Size(xs[0]) + SizeList(xs[1..])
  }

  function SizeEntries(e: seq<(string, Value)>, i: nat): nat
    requires i <= |e|
    decreases VDict(e), 0, |e| - i
  {
    if i == |e| then 0 else Size(e[i].1) + SizeEntries(e, i + 1)
  }

  lemma {:induction false} ItemSmaller(xs: seq<Value>, i: nat)
    requires i < |xs|
    ensures Size(xs[i]) < Size(VList(xs))
  {
    ItemBelowSum(xs, i);
  }

  lemma {:induction false} ItemBelowSum(xs: seq<Value>, i: nat)
    requires i < |xs|
    ensures Size(xs[i]) <= SizeList(xs)
  {
    if i > 0 { ItemBelowSum(xs[1..], i - 1); }
  }

  lemma LookupSmaller(e: seq<(string, Value)>, k: string)
    requires Lookup(e, k).Some?
    ensures Size(Lookup(e, k).value) < Size(VDict(e))
  {
    LookupBelowSum(e, k, 0);
  }

  lemma {:induction false} LookupBelowSum(e: seq<(string, Value)>, k: string, i: nat)
    requires i <= |e| && Lookup(e[i..], k).Some?
    ensures Size(Lookup(e[i..], k).value) <= SizeEntries(e, i)
    decreases |e| - i
  {
    if e[i].0 != k {
      assert e[i..][1..] == e[i + 1..];
      LookupBelowSum(e, k, i + 1);
    }
  }
}
