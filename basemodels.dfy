/**
 * The record facades of ozon-env: dotted-path reads through nested
 * dictionaries and lists, a stored value beside its display value in
 * `data_value`, the lifecycle flags `deleted`/`active`, the difference
 * against a dictionary and the copy made for cloning. `CoreModel` keeps its
 * fields as pydantic attributes (here an ordered list of field names and
 * values); `DictRecord` keeps everything in one `data` dictionary.
 */
module BaseModels {
  import opened Text
  import opened Values
  import opened Inference
  import Utils

  /** `BasicReturn`: the outcome of an environment or model call. */
  datatype BasicReturn = BasicReturn(fail: bool, msg: string, data: seq<(string, Value)>)

  // ---------------------------------------------------------------------
  // Dotted paths: `scan_data` and `get`

  /** One `operator.getitem` argument: a segment made of digits becomes an integer. */
  datatype Step = KeyStep(key: string) | IndexStep(index: nat)

  function StepOf(seg: string): Step
  {
    if IsDigits(seg) then IndexStep(DigitsValue(seg)) else KeyStep(seg)
  }

  /** The steps of `key.split(".")`. */
  function StepsOf(path: string): (steps: seq<Step>)
    ensures |steps| == |Split(path, '.')| >= 1
  {
    var segs := Split(path, '.');
    seq(|segs|, i requires 0 <= i < |segs| => StepOf(segs[i]))
  }

  /**
   * `v[step]`: a dictionary by string key (its keys are strings, so an
   * integer is never found), a list or a string by index; anything else raises.
   */
  function GetItem(v: Value, step: Step): Result<Value>
  {
    if v.VDict? then
      if step.IndexStep? then Fail("KeyError")
      else match Lookup(v.entries, step.key)
        case Some(x) => Ok(x)
        case None => Fail("KeyError")
    else if step.KeyStep? then Fail("TypeError: indices must be integers")
    else if v.VList? then
      if step.index < |v.items| then Ok(v.items[step.index]) else Fail("IndexError")
    else if v.VStr? then
      if step.index < |v.s| then Ok(VStr([v.s[step.index]])) else Fail("IndexError")
    else Fail("TypeError: object is not subscriptable")
  }

  /** `reduce(operator.getitem, steps, v)`. */
  function Walk(v: Value, steps: seq<Step>): Result<Value>
    decreases |steps|
  {
    if |steps| == 0 then Ok(v)
    else match GetItem(v, steps[0])
      case Fail(e) => Fail(e)
      case Ok(next) => Walk(next, steps[1..])
  }

  /**
   * `scan_data`: subscripts through every segment but the last, then reads
   * the last one with `.get(.., default)`. Every exception on the way (a
   * missing key, an index out of range, a place that is not a dictionary)
   * gives the default, so the result is always a value.
   */
  function ScanData(data: Value, path: string, default: Value): Value
  {
    var steps := StepsOf(path);
    match Walk(data, steps[..|steps| - 1])
    case Fail(_) => default
    case Ok(place) =>
      if !place.VDict? then default
      else match steps[|steps| - 1]
        case IndexStep(_) => default
        case KeyStep(k) => GetOr(place.entries, k, default)
  }

  /**
   * `get` of the dictionary-backed records: a dotted path is scanned; a
   * plain key is read with the default only when the default is truthy.
   */
  function RecordGet(data: seq<(string, Value)>, path: string, default: Value): Value
  {
    if '.' in path then ScanData(VDict(data), path, default)
    else if Truthy(default) then GetOr(data, path, default)
    else GetOr(data, path, VNone)
  }

  /** A segment that is read as a dictionary key. */
  predicate PlainKey(k: string) { '.' !in k && !IsDigits(k) }

  lemma {:induction false} NestSnoc(keys: seq<string>, last: string, v: Value)
    ensures Utils.Nest(keys + [last], v) == Utils.Nest(keys, VDict([(last, v)]))
    decreases |keys|
  {
    if |keys| > 0 {
      assert (keys + [last])[1..] == keys[1..] + [last];
      NestSnoc(keys[1..], last, v);
    }
  }

  /** The steps of plain keys are those keys, in order. */
  function KeySteps(keys: seq<string>): (steps: seq<Step>)
    ensures |steps| == |keys|
  {
    seq(|keys|, i requires 0 <= i < |keys| => KeyStep(keys[i]))
  }

  lemma {:induction false} WalkNest(keys: seq<string>, v: Value)
    ensures Walk(Utils.Nest(keys, v), KeySteps(keys)) == Ok(v)
    decreases |keys|
  {
    if |keys| > 0 {
      assert KeySteps(keys)[1..] == KeySteps(keys[1..]);
      WalkNest(keys[1..], v);
    }
  }

  lemma PathOfKeys(keys: seq<string>)
    requires |keys| >= 1
    requires forall i :: 0 <= i < |keys| ==> PlainKey(keys[i])
    ensures StepsOf(Join(keys, '.')) == KeySteps(keys)
  {
    SplitJoin(keys, '.');
  }

  /** A dotted path of plain keys reaches the value at the end of the dictionaries nested along it. */
  lemma ScanNested(keys: seq<string>, v: Value, default: Value)
    requires |keys| >= 1
    requires forall i :: 0 <= i < |keys| ==> PlainKey(keys[i])
    ensures ScanData(Utils.Nest(keys, v), Join(keys, '.'), default) == v
  {
    var init := keys[..|keys| - 1];
    var last := keys[|keys| - 1];
    assert keys == init + [last];
    PathOfKeys(keys);
    NestSnoc(init, last, v);
    assert KeySteps(keys)[..|keys| - 1] == KeySteps(init);
    WalkNest(init, VDict([(last, v)]));
  }

  /**
   * A digit segment indexes a list: `"rows.<n>.<j>"` reads key `j` of the
   * n-th row, and an index past the end or a row that is not a dictionary
   * gives the default.
   */
  lemma ScanListIndex(k: string, rows: seq<Value>, n: nat, j: string, default: Value)
    requires PlainKey(k) && PlainKey(j)
    ensures ScanData(VDict([(k, VList(rows))]), k + "." + NatToDecimal(n) + "." + j, default)
         == if n < |rows| && rows[n].VDict? then GetOr(rows[n].entries, j, default) else default
  {
    var dn := NatToDecimal(n);
    var path := k + "." + dn + "." + j;
    assert '.' !in dn;
    assert Join([k, dn, j], '.') == path by {
      assert Join([dn, j], '.') == dn + "." + j;
    }
    SplitJoin([k, dn, j], '.');
    DecimalRoundTrip(n);
    var steps := StepsOf(path);
    assert steps == [KeyStep(k), IndexStep(n), KeyStep(j)];
    assert steps[..2] == [KeyStep(k), IndexStep(n)];
    var top := VDict([(k, VList(rows))]);
    assert GetItem(top, KeyStep(k)) == Ok(VList(rows));
    assert [KeyStep(k), IndexStep(n)][1..] == [IndexStep(n)];
    assert Walk(top, [KeyStep(k), IndexStep(n)]) == Walk(VList(rows), [IndexStep(n)]);
    assert Walk(VList(rows), [IndexStep(n)]) == match GetItem(VList(rows), IndexStep(n))
      case Fail(e) => Fail(e)
      case Ok(next) => Walk(next, []);
  }

  /** A two-segment path of plain keys reads the inner dictionary, and anything else there gives the default. */
  lemma ScanTwoKeys(data: seq<(string, Value)>, k: string, j: string, default: Value)
    requires PlainKey(k) && PlainKey(j)
    ensures ScanData(VDict(data), k + "." + j, default)
         == if Lookup(data, k).Some? && Lookup(data, k).value.VDict?
            then GetOr(Lookup(data, k).value.entries, j, default) else default
  {
    PathOfKeys([k, j]);
    assert Join([k, j], '.') == k + "." + j;
    var steps := StepsOf(k + "." + j);
    assert steps[..1] == [KeyStep(k)] && steps[1] == KeyStep(j);
    assert Walk(VDict(data), [KeyStep(k)]) == match GetItem(VDict(data), KeyStep(k))
      case Fail(e) => Fail(e)
      case Ok(next) => Walk(next, []);
  }

  /** An undotted key never yields a falsy default: a missing key gives `None` then. */
  lemma PlainGetDropsFalsyDefault(data: seq<(string, Value)>, key: string, default: Value)
    requires '.' !in key && Lookup(data, key).None?
    ensures RecordGet(data, key, default) == if Truthy(default) then default else VNone
  {
  }

  // ---------------------------------------------------------------------
  // get_value_for_select_list

  /** An item whose `"value"` equals the key. */
  predicate Matches(item: Value, key: Value)
  {
    item.VDict? && PyEq(GetOr(item.entries, "value", VNone), key)
  }

  /**
   * `get_value_for_select_list`: the label of the first item whose
   * `"value"` equals the key, `""` when none does; an item that is not a
   * dictionary before the match raises on `.get`.
   */
  function SelectLabel(items: seq<Value>, key: Value, labelKey: string): Result<Value>
  {
    if |items| == 0 then Ok(VStr(""))
    else match DictGet(items[0], "value", VNone)
      case Fail(e) => Fail(e)
      case Ok(v) =>
        if PyEq(v, key) then DictGet(items[0], labelKey, VNone)
        else SelectLabel(items[1..], key, labelKey)
  }

  /** The first matching item gives its label, even when a later item also matches. */
  lemma {:induction false} SelectFirstMatch(items: seq<Value>, key: Value, labelKey: string, i: nat)
    requires i < |items| && Matches(items[i], key)
    requires forall j :: 0 <= j < i ==> items[j].VDict? && !Matches(items[j], key)
    ensures SelectLabel(items, key, labelKey) == Ok(GetOr(items[i].entries, labelKey, VNone))
    decreases i
  {
    if i > 0 {
      SelectFirstMatch(items[1..], key, labelKey, i - 1);
    }
  }

  /** Without a matching item the label is the empty string. */
  lemma {:induction false} SelectNoMatch(items: seq<Value>, key: Value, labelKey: string)
    requires forall j :: 0 <= j < |items| ==> items[j].VDict? && !Matches(items[j], key)
    ensures SelectLabel(items, key, labelKey) == Ok(VStr(""))
    decreases |items|
  {
    if |items| > 0 {
      SelectNoMatch(items[1..], key, labelKey);
    }
  }

  // ---------------------------------------------------------------------
  // Dictionaries without some keys, and their difference

  /** The fields `get_dict` always leaves out. */
  const Basic: seq<string> := ["status", "message", "res_data"]

  /** The dictionary without the given keys, in its own order. */
  function Exclude(d: seq<(string, Value)>, ks: seq<string>): (r: seq<(string, Value)>)
    ensures forall e :: e in r ==> e in d && e.0 !in ks
  {
    if |d| == 0 then []
    else (if d[0].0 in ks then [] else [d[0]]) + Exclude(d[1..], ks)
  }

  lemma {:induction false} ExcludeLookup(d: seq<(string, Value)>, ks: seq<string>, k: string)
    ensures Lookup(Exclude(d, ks), k) == if k in ks then None else Lookup(d, k)
  {
    if |d| > 0 {
      ExcludeLookup(d[1..], ks, k);
      var rest := Exclude(d[1..], ks);
      if d[0].0 !in ks {
        assert Exclude(d, ks) == [d[0]] + rest;
        LookupCons(d[0], rest, k);
      } else {
        assert Exclude(d, ks) == rest;
      }
    }
  }

  /** The original holds the key with a value that does not equal `v`. */
  predicate Differs(orig: seq<(string, Value)>, k: string, v: Value)
  {
    match Lookup(orig, k)
    case Some(o) => !PyEq(o, v)
    case None => false
  }

  /** The entries of `cmp` whose key the original holds with a different value. */
  function DictDiff(orig: seq<(string, Value)>, cmp: seq<(string, Value)>): (r: seq<(string, Value)>)
  {
    if |cmp| == 0 then []
    else (if Differs(orig, cmp[0].0, cmp[0].1) then [cmp[0]] else []) + DictDiff(orig, cmp[1..])
  }

  /** A Python dictionary holds each key once. */
  predicate UniqueKeys(d: seq<(string, Value)>)
  {
    forall i, j :: 0 <= i < j < |d| ==> d[i].0 != d[j].0
  }

  lemma {:induction false} DiffLookup(orig: seq<(string, Value)>, cmp: seq<(string, Value)>, k: string)
    requires UniqueKeys(cmp)
    ensures Lookup(DictDiff(orig, cmp), k)
         == match Lookup(cmp, k)
            case Some(v) => if Differs(orig, k, v) then Some(v) else None
            case None => None
  {
    if |cmp| > 0 {
      DiffLookup(orig, cmp[1..], k);
      var rest := DictDiff(orig, cmp[1..]);
      if Differs(orig, cmp[0].0, cmp[0].1) {
        assert DictDiff(orig, cmp) == [cmp[0]] + rest;
        LookupCons(cmp[0], rest, k);
      } else {
        assert DictDiff(orig, cmp) == rest;
      }
      if cmp[0].0 == k {
        MissingAfter(cmp, k);
      }
    }
  }

  lemma MissingAfter(d: seq<(string, Value)>, k: string)
    requires UniqueKeys(d) && |d| > 0 && d[0].0 == k
    ensures Lookup(d[1..], k).None?
  {
    LookupIsKey(d[1..], k);
  }

  /**
   * `get_dict_diff`: the entries of the compared dictionary whose key the
   * model's dump (without the ignored fields, when asked) holds with a
   * different value.
   */
  function GetDictDiff(dump: seq<(string, Value)>, cmp: seq<(string, Value)>, ignore: seq<string>, removeIgnored: bool): seq<(string, Value)>
  {
    var orig := if |ignore| > 0 && removeIgnored then Exclude(dump, Basic + ignore) else Exclude(dump, Basic);
    DictDiff(orig, cmp)
  }

  /** A key is in the difference exactly when the dump keeps it with another value; its value is the compared one. */
  lemma GetDictDiffLookup(dump: seq<(string, Value)>, cmp: seq<(string, Value)>, ignore: seq<string>, removeIgnored: bool, k: string)
    requires UniqueKeys(cmp)
    ensures Lookup(GetDictDiff(dump, cmp, ignore, removeIgnored), k)
         == match Lookup(cmp, k)
            case Some(v) =>
              if k !in Basic && !(|ignore| > 0 && removeIgnored && k in ignore) && Differs(dump, k, v)
              then Some(v) else None
            case None => None
  {
    var ks := if |ignore| > 0 && removeIgnored then Basic + ignore else Basic;
    DiffLookup(Exclude(dump, ks), cmp, k);
    ExcludeLookup(dump, ks, k);
  }

  // ---------------------------------------------------------------------
  // Lifecycle flags, shared by the models and the records

  function Activated(d: seq<(string, Value)>): seq<(string, Value)>
  {
    Put(Put(d, "deleted", VInt(0)), "active", VBool(true))
  }

  function Archived(d: seq<(string, Value)>): seq<(string, Value)>
  {
    Put(Put(d, "deleted", VInt(0)), "active", VBool(false))
  }

  function MarkedToDelete(d: seq<(string, Value)>, timestamp: Value): seq<(string, Value)>
  {
    Put(Put(d, "deleted", timestamp), "active", VBool(false))
  }

  /** `v > 0`, which raises unless `v` is a number. */
  function Positive(v: Value): Result<bool>
  {
    if IsNumber(v) then Ok(NumberOf(v) > 0.0) else Fail("TypeError: '>' not supported")
  }

  /** `is_to_delete`: the `deleted` timestamp is positive. */
  function ToDelete(d: seq<(string, Value)>): Result<bool>
  {
    Positive(GetOr(d, "deleted", VNone))
  }

  /** The flags after each setter, and every other field as it was. */
  lemma LifecycleFlags(d: seq<(string, Value)>, timestamp: Value, k: string)
    ensures ToDelete(Activated(d)) == Ok(false) && Lookup(Activated(d), "active") == Some(VBool(true))
    ensures ToDelete(Archived(d)) == Ok(false) && Lookup(Archived(d), "active") == Some(VBool(false))
    ensures ToDelete(MarkedToDelete(d, timestamp)) == Positive(timestamp)
    ensures Lookup(MarkedToDelete(d, timestamp), "active") == Some(VBool(false))
    ensures k != "deleted" && k != "active" ==>
      Lookup(Activated(d), k) == Lookup(d, k) && Lookup(Archived(d), k) == Lookup(d, k)
      && Lookup(MarkedToDelete(d, timestamp), k) == Lookup(d, k)
  {
    LookupPut(Put(d, "deleted", VInt(0)), "active", VBool(true), "deleted");
    LookupPut(Put(d, "deleted", VInt(0)), "active", VBool(false), "deleted");
    LookupPut(Put(d, "deleted", timestamp), "active", VBool(false), "deleted");
    LookupPut(d, "deleted", VInt(0), "deleted");
    LookupPut(d, "deleted", timestamp, "deleted");
    LookupPut(Put(d, "deleted", VInt(0)), "active", VBool(true), "active");
    LookupPut(Put(d, "deleted", VInt(0)), "active", VBool(false), "active");
    LookupPut(Put(d, "deleted", timestamp), "active", VBool(false), "active");
    LookupPut(Put(d, "deleted", VInt(0)), "active", VBool(true), k);
    LookupPut(Put(d, "deleted", VInt(0)), "active", VBool(false), k);
    LookupPut(Put(d, "deleted", timestamp), "active", VBool(false), k);
    LookupPut(d, "deleted", VInt(0), k);
    LookupPut(d, "deleted", timestamp, k);
  }

  // ---------------------------------------------------------------------
  // selection_value

  /**
   * `d[key] = value` followed by `d["data_value"][key] = read_value`; the
   * second assignment raises unless `data_value` is a dictionary, and the
   * first one has happened by then. The flag says whether both ran.
   */
  function Selected(d: seq<(string, Value)>, key: string, value: Value, read: Value): (seq<(string, Value)>, bool)
  {
    var d1 := Put(d, key, value);
    var dv := Lookup(d1, "data_value");
    if dv.Some? && dv.value.VDict? then (Put(d1, "data_value", VDict(Put(dv.value.entries, key, read))), true)
    else (d1, false)
  }

  /** The stored value and its display value are set, and nothing else changes. */
  lemma SelectedEffect(d: seq<(string, Value)>, key: string, value: Value, read: Value, dv: seq<(string, Value)>, j: string)
    requires key != "data_value" && Lookup(d, "data_value") == Some(VDict(dv))
    ensures Selected(d, key, value, read).1
    ensures Lookup(Selected(d, key, value, read).0, key) == Some(value)
    ensures Lookup(Selected(d, key, value, read).0, "data_value") == Some(VDict(Put(dv, key, read)))
    ensures j != key && j != "data_value" ==> Lookup(Selected(d, key, value, read).0, j) == Lookup(d, j)
  {
    var d1 := Put(d, key, value);
    LookupPut(d, key, value, "data_value");
    LookupPut(d1, "data_value", VDict(Put(dv, key, read)), key);
    LookupPut(d1, "data_value", VDict(Put(dv, key, read)), "data_value");
    LookupPut(d1, "data_value", VDict(Put(dv, key, read)), j);
    LookupPut(d, key, value, key);
    LookupPut(d, key, value, j);
  }

  /** Without a `data_value` dictionary only the stored value is written, and the call raises. */
  lemma SelectedWithoutDisplay(d: seq<(string, Value)>, key: string, value: Value, read: Value)
    requires key != "data_value" && Lookup(d, "data_value").None?
    ensures Selected(d, key, value, read) == (Put(d, key, value), false)
  {
    LookupPut(d, key, value, "data_value");
  }

  // ---------------------------------------------------------------------
  // clone_data of the records

  /**
   * `clone_data` of the dictionary-backed records: a copy of `data`
   * without `rec_name` and `list_order`; `pop` raises when either is missing.
   */
  method CloneRecordData(data: seq<(string, Value)>) returns (r: Result<seq<(string, Value)>>)
    ensures r.Ok? <==> "rec_name" in KeysOf(data) && "list_order" in KeysOf(data)
    ensures r.Ok? ==> forall k :: Lookup(r.value, k) == if k == "rec_name" || k == "list_order" then None else Lookup(data, k)
  {
    var dat := data;
    LookupIsKey(data, "rec_name");
    LookupIsKey(data, "list_order");
    if Lookup(dat, "rec_name").None? {
      return Fail("KeyError: 'rec_name'");
    }
    dat := Remove(dat, "rec_name");
    LookupRemove(data, "rec_name", "list_order");
    if Lookup(dat, "list_order").None? {
      return Fail("KeyError: 'list_order'");
    }
    var popped := Remove(dat, "list_order");
    forall k
      ensures Lookup(popped, k) == if k == "rec_name" || k == "list_order" then None else Lookup(data, k)
    {
      LookupRemove(dat, "list_order", k);
      LookupRemove(data, "rec_name", k);
    }
    r := Ok(popped);
  }

  // ---------------------------------------------------------------------
  // The pydantic models

  /**
   * A `CoreModel` (or a subclass) instance: its fields in declaration
   * order, as `model_dump` gives them, and the keys its class leaves out
   * of a clone (`["list_order"]` for `CoreModel`, `["rec_name",
   * "list_order"]` for `BasicModel`, `["token", "list_order"]` for `Session`).
   */
  /**
   * `CoreModel.get` on the attributes `attrs`: a dotted path is scanned in
   * the dump without the identifier; a plain name is read with a truthy
   * default, and without one a missing attribute raises.
   */
  function AttrGet(attrs: seq<(string, Value)>, path: string, default: Value): Result<Value>
  {
    if '.' in path then Ok(ScanData(VDict(Exclude(attrs, Basic + ["_id", "id"])), path, default))
    else if Truthy(default) then Ok(GetOr(attrs, path, default))
    else match Lookup(attrs, path)
      case Some(v) => Ok(v)
      case None => Fail("AttributeError")
  }

  class CoreModel {
    var attrs: seq<(string, Value)>
    const noClone: seq<string>

    constructor (fields: seq<(string, Value)>, noCloneKeys: seq<string>)
      ensures attrs == fields && noClone == noCloneKeys
    {
      attrs := fields;
      noClone := noCloneKeys;
    }

    /** The field names of the class: pydantic refuses to set any other attribute. */
    predicate HasField(key: string)
      reads this`attrs
    {
      key in KeysOf(attrs)
    }

    /** `get`, on the record's attributes. */
    function Get(path: string, default: Value): (r: Result<Value>)
      reads this`attrs
      ensures '.' !in path && HasField(path) ==> r == Ok(GetOr(attrs, path, VNone))
      ensures '.' !in path && !HasField(path) ==> r == (if Truthy(default) then Ok(default) else Fail("AttributeError"))
    {
      LookupIsKey(attrs, path);
      AttrGet(attrs, path, default)
    }

    /** `setattr`, which raises for a name that is not a field. */
    method Set(key: string, value: Value) returns (ok: bool)
      modifies this`attrs
      ensures ok == old(HasField(key))
      ensures attrs == if ok then Put(old(attrs), key, value) else old(attrs)
    {
      if key !in KeysOf(attrs) {
        return false;
      }
      attrs := Put(attrs, key, value);
      ok := true;
    }

    /** `set_from_child`: stores the value read at `path`, or raises with the read or the assignment. */
    method SetFromChild(key: string, path: string, default: Value) returns (ok: bool)
      modifies this`attrs
      ensures ok == (old(Get(path, default)).Ok? && old(HasField(key)))
      ensures attrs == if ok then Put(old(attrs), key, old(Get(path, default)).value) else old(attrs)
    {
      var v := Get(path, default);
      if v.Fail? {
        return false;
      }
      ok := Set(key, v.value);
    }

    /** `set_many`: every entry whose key is a field is assigned, the others are skipped. */
    method SetMany(entries: seq<(string, Value)>)
      modifies this`attrs
      ensures attrs == FieldsUpdated(old(attrs), entries)
    {
      var i := 0;
      while i < |entries|
        invariant 0 <= i <= |entries|
        invariant FieldsUpdated(attrs, entries[i..]) == FieldsUpdated(old(attrs), entries)
      {
        assert entries[i..][1..] == entries[i + 1..];
        var (k, v) := entries[i];
        if k in KeysOf(attrs) {
          attrs := Put(attrs, k, v);
        }
        i := i + 1;
      }
    }

    method SetActive()
      modifies this`attrs
      ensures attrs == Activated(old(attrs))
    {
      attrs := Put(attrs, "deleted", VInt(0));
      attrs := Put(attrs, "active", VBool(true));
    }

    method SetArchive()
      modifies this`attrs
      ensures attrs == Archived(old(attrs))
    {
      attrs := Put(attrs, "deleted", VInt(0));
      attrs := Put(attrs, "active", VBool(false));
    }

    method SetToDelete(timestamp: Value)
      modifies this`attrs
      ensures attrs == MarkedToDelete(old(attrs), timestamp)
    {
      attrs := Put(attrs, "deleted", timestamp);
      attrs := Put(attrs, "active", VBool(false));
    }

    function IsToDelete(): Result<bool>
      reads this`attrs
    {
      ToDelete(attrs)
    }

    /**
     * `selection_value`: sets the field, then the display value under the
     * same key in `data_value`; `ok` is false when either step raised.
     */
    method SelectionValue(key: string, value: Value, read: Value) returns (ok: bool)
      modifies this`attrs
      ensures !old(HasField(key)) ==> !ok && attrs == old(attrs)
      ensures old(HasField(key)) ==> (attrs, ok) == Selected(old(attrs), key, value, read)
    {
      var stored := Set(key, value);
      if !stored {
        return false;
      }
      var dv := Lookup(attrs, "data_value");
      if dv.Some? && dv.value.VDict? {
        attrs := Put(attrs, "data_value", VDict(Put(dv.value.entries, key, read)));
        ok := true;
      } else {
        ok := false;
      }
    }

    /** `selection_value_resources`: the display value is the label the resource list gives the value. */
    method SelectionValueResources(key: string, value: Value, resources: seq<Value>, labelKey: string) returns (ok: bool)
      modifies this`attrs
      ensures SelectLabel(resources, value, labelKey).Fail? ==> !ok && attrs == old(attrs)
      ensures SelectLabel(resources, value, labelKey).Ok? && old(HasField(key)) ==>
        (attrs, ok) == Selected(old(attrs), key, value, SelectLabel(resources, value, labelKey).value)
      ensures !old(HasField(key)) ==> !ok && attrs == old(attrs)
    {
      var found := SelectLabel(resources, value, labelKey);
      if found.Fail? {
        return false;
      }
      ok := SelectionValue(key, value, found.value);
    }

    /** `get_dict_diff` against the model's own dump. */
    function DictDiffWith(cmp: seq<(string, Value)>, ignore: seq<string>, removeIgnored: bool): seq<(string, Value)>
      reads this`attrs
    {
      GetDictDiff(attrs, cmp, ignore, removeIgnored)
    }

    /** `clone_data`: the dump without the class's no-clone keys and the status fields. */
    function CloneData(): (r: seq<(string, Value)>)
      reads this`attrs
      ensures forall k :: Lookup(r, k) == if k in Basic || k in noClone then None else Lookup(attrs, k)
    {
      var ks := Basic + noClone;
      ExcludeLookupAll(attrs, ks);
      Exclude(attrs, ks)
    }
  }

  lemma ExcludeLookupAll(d: seq<(string, Value)>, ks: seq<string>)
    ensures forall k :: Lookup(Exclude(d, ks), k) == if k in ks then None else Lookup(d, k)
  {
    forall k
      ensures Lookup(Exclude(d, ks), k) == if k in ks then None else Lookup(d, k)
    {
      ExcludeLookup(d, ks, k);
    }
  }

  /** What `set_many` leaves: each entry assigned in order when its key is a field. */
  function FieldsUpdated(d: seq<(string, Value)>, entries: seq<(string, Value)>): seq<(string, Value)>
    decreases |entries|
  {
    if |entries| == 0 then d
    else
      var next := if entries[0].0 in KeysOf(d) then Put(d, entries[0].0, entries[0].1) else d;
      FieldsUpdated(next, entries[1..])
  }

  /** `set_many` never adds a field, and a field named by the entries ends with the value its last entry gives. */
  lemma {:induction false} FieldsUpdatedKeys(d: seq<(string, Value)>, entries: seq<(string, Value)>)
    ensures KeysOf(FieldsUpdated(d, entries)) == KeysOf(d)
    decreases |entries|
  {
    if |entries| > 0 {
      if entries[0].0 in KeysOf(d) {
        KeysPut(d, entries[0].0, entries[0].1);
      }
      var next := if entries[0].0 in KeysOf(d) then Put(d, entries[0].0, entries[0].1) else d;
      FieldsUpdatedKeys(next, entries[1..]);
    }
  }

  // ---------------------------------------------------------------------
  // DictRecord

  /** A record held as one dictionary, for models without a class. */
  class DictRecord {
    const model: string
    var recName: string
    var data: seq<(string, Value)>

    /** An empty or missing `data_value` becomes `{}`; otherwise `rec_name` is copied into the data. */
    constructor (modelName: string, name: string, initial: seq<(string, Value)>)
      ensures model == modelName && recName == name
      ensures data == if Truthy(GetOr(initial, "data_value", VNone)) then Put(initial, "rec_name", VStr(name))
                      else Put(initial, "data_value", VDict([]))
    {
      model := modelName;
      recName := name;
      if !Truthy(GetOr(initial, "data_value", VNone)) {
        data := Put(initial, "data_value", VDict([]));
      } else {
        data := Put(initial, "rec_name", VStr(name));
      }
    }

    function DataValue(): Value
      reads this`data
    {
      GetOr(data, "data_value", VDict([]))
    }

    function Get(path: string, default: Value): Value
      reads this`data
    {
      RecordGet(data, path, default)
    }

    /** `set`: stores the parsed value (which may raise, changing nothing) or the value verbatim. */
    method Set(key: string, val: Value, parse: bool, ext: Externals) returns (ok: bool)
      modifies this`data
      ensures !parse ==> ok && data == Put(old(data), key, val)
      ensures parse ==> ok == RecordParseValue(val, ext, false).Ok?
      ensures parse && ok ==> data == Put(old(data), key, RecordParseValue(val, ext, false).value)
      ensures parse && !ok ==> data == old(data)
    {
      if parse {
        var p := RecordParseValue(val, ext, false);
        if p.Fail? {
          return false;
        }
        data := Put(data, key, p.value);
      } else {
        data := Put(data, key, val);
      }
      ok := true;
    }

    method SetFromChild(key: string, path: string, default: Value)
      modifies this`data
      ensures data == Put(old(data), key, RecordGet(old(data), path, default))
    {
      data := Put(data, key, RecordGet(data, path, default));
    }

    /** `update_field_type_value`: re-parses the stored value, `""` when absent. */
    method UpdateFieldTypeValue(key: string, ext: Externals) returns (ok: bool)
      modifies this`data
      ensures ok == RecordParseValue(GetOr(old(data), key, VStr("")), ext, false).Ok?
      ensures data == if ok then Put(old(data), key, RecordParseValue(GetOr(old(data), key, VStr("")), ext, false).value) else old(data)
    {
      var p := RecordParseValue(GetOr(data, key, VStr("")), ext, false);
      if p.Fail? {
        return false;
      }
      data := Put(data, key, p.value);
      ok := true;
    }

    method SetMany(entries: seq<(string, Value)>)
      modifies this`data
      ensures data == Update(old(data), entries)
    {
      data := Update(data, entries);
    }

    method SelectionValue(key: string, value: Value, read: Value) returns (ok: bool)
      modifies this`data
      ensures (data, ok) == Selected(old(data), key, value, read)
    {
      data := Put(data, key, value);
      var dv := Lookup(data, "data_value");
      if dv.Some? && dv.value.VDict? {
        data := Put(data, "data_value", VDict(Put(dv.value.entries, key, read)));
        ok := true;
      } else {
        ok := false;
      }
    }

    method SelectionValueResources(key: string, value: Value, resources: seq<Value>, labelKey: string) returns (ok: bool)
      modifies this`data
      ensures SelectLabel(resources, value, labelKey).Fail? ==> !ok && data == old(data)
      ensures SelectLabel(resources, value, labelKey).Ok? ==>
        (data, ok) == Selected(old(data), key, value, SelectLabel(resources, value, labelKey).value)
    {
      var found := SelectLabel(resources, value, labelKey);
      if found.Fail? {
        return false;
      }
      ok := SelectionValue(key, value, found.value);
    }

    /** `set_active`: live, owned by the user, first in order, with a display dictionary. */
    method SetActive(user: string)
      modifies this`data
      ensures data == ActivatedFor(old(data), user)
    {
      data := Put(data, "deleted", VInt(0));
      data := Put(data, "active", VBool(true));
      data := Put(data, "owner_uid", VStr(user));
      data := Put(data, "list_order", VInt(0));
      if "data_value" !in KeysOf(data) {
        data := Put(data, "data_value", VDict([]));
      }
    }

    method SetListOrder(val: Value)
      modifies this`data
      ensures data == Put(old(data), "list_order", val)
    {
      data := Put(data, "list_order", val);
    }

    method CloneData() returns (r: Result<seq<(string, Value)>>)
      ensures r.Ok? <==> "rec_name" in KeysOf(data) && "list_order" in KeysOf(data)
      ensures r.Ok? ==> forall k :: Lookup(r.value, k) == if k == "rec_name" || k == "list_order" then None else Lookup(data, k)
    {
      r := CloneRecordData(data);
    }
  }

  /** The data after `DictRecord.set_active`. */
  function ActivatedFor(d: seq<(string, Value)>, user: string): seq<(string, Value)>
  {
    var d1 := Put(Put(Activated(d), "owner_uid", VStr(user)), "list_order", VInt(0));
    if "data_value" in KeysOf(d1) then d1 else Put(d1, "data_value", VDict([]))
  }

  /** After `set_active` the record is live and first, and keeps an existing `data_value`. */
  lemma ActivatedForFlags(d: seq<(string, Value)>, user: string)
    ensures ToDelete(ActivatedFor(d, user)) == Ok(false)
    ensures Lookup(ActivatedFor(d, user), "active") == Some(VBool(true))
    ensures Lookup(ActivatedFor(d, user), "owner_uid") == Some(VStr(user))
    ensures Lookup(ActivatedFor(d, user), "list_order") == Some(VInt(0))
    ensures Lookup(d, "data_value").Some? ==> Lookup(ActivatedFor(d, user), "data_value") == Lookup(d, "data_value")
    ensures Lookup(d, "data_value").None? ==> Lookup(ActivatedFor(d, user), "data_value") == Some(VDict([]))
  {
    var a := Activated(d);
    var d0 := Put(a, "owner_uid", VStr(user));
    var d1 := Put(d0, "list_order", VInt(0));
    LifecycleFlags(d, VInt(0), "data_value");
    LifecycleFlags(d, VInt(0), "owner_uid");
    LifecycleFlags(d, VInt(0), "list_order");
    LookupPut(a, "owner_uid", VStr(user), "deleted");
    LookupPut(a, "owner_uid", VStr(user), "active");
    LookupPut(a, "owner_uid", VStr(user), "owner_uid");
    LookupPut(a, "owner_uid", VStr(user), "data_value");
    LookupPut(d0, "list_order", VInt(0), "deleted");
    LookupPut(d0, "list_order", VInt(0), "active");
    LookupPut(d0, "list_order", VInt(0), "owner_uid");
    LookupPut(d0, "list_order", VInt(0), "list_order");
    LookupPut(d0, "list_order", VInt(0), "data_value");
    LookupIsKey(d1, "data_value");
    if "data_value" !in KeysOf(d1) {
      var d2 := Put(d1, "data_value", VDict([]));
      LookupPut(d1, "data_value", VDict([]), "deleted");
      LookupPut(d1, "data_value", VDict([]), "active");
      LookupPut(d1, "data_value", VDict([]), "owner_uid");
      LookupPut(d1, "data_value", VDict([]), "list_order");
      LookupPut(d1, "data_value", VDict([]), "data_value");
    }
  }
}
