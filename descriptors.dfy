/**
 * What a form component's descriptor computes, as functions of the raw
 * node: the configuration record of `update_config`, the dependency walk
 * over jsonLogic expressions that fills the builder's reverse dependency
 * map, the effect of logic actions and conditionals, the select default
 * and the survey answer grid. The classes of the schema compiler carry
 * the state these functions describe.
 */
module Descriptors {
  import opened Text
  import opened Values
  import opened Utils
  import opened Inference

  // ---------------------------------------------------------------------
  // The dependency walk (`_find_logic_rel_fields`)

  /** The field names a walk records, in visiting order, and whether it finished without raising. */
  datatype Walk = Walk(names: seq<string>, ok: bool)

  /** Runs `b` after `a`, unless `a` raised. */
  function Then(a: Walk, b: Walk): Walk
  {
    if !a.ok then a else Walk(a.names + b.names, b.ok)
  }

  /** A non-empty field name is recorded; an empty one is skipped. */
  function Named(val: string): Walk
  {
    if |val| > 0 then Walk([val], true) else Walk([], true)
  }

  /**
   * A `var` operand: a path containing `form.` names the segment after
   * `form.data_value` when that appears (the third dotted segment), else
   * the second dotted segment; `in` on a value that is not a string raises.
   */
  function VarDep(v: Value): (w: Walk)
    ensures |w.names| <= 1
    ensures |w.names| == 1 ==> v.VStr? && Contains(v.s, "form.") && |w.names[0]| > 0
  {
    match v
    case VStr(s) =>
      if !Contains(s, "form.") then Walk([], true)
      else
        var parts := Split(s, '.');
        if Contains(s, "form.data_value") then
          if |parts| > 2 then Named(parts[2]) else Walk([], false)
        else
          assert |parts| >= 2 by {
            ContainsMember(s, "form.", 4);
            SplitSeveral(s, '.');
          }
          Named(parts[1])
    case _ => Walk([], false)
  }

  /** The walk over a jsonLogic expression, which must be a dictionary. */
  function Deps(expr: Value): Walk
    decreases expr, 2
  {
    if expr.VDict? then DepsEntries(expr, |expr.entries|) else Walk([], false)
  }

  /** The walk over the first `n` entries of a dictionary. */
  function DepsEntries(d: Value, n: nat): Walk
    requires d.VDict? && n <= |d.entries|
    decreases d, 1, n
  {
    if n == 0 then Walk([], true)
    else Then(DepsEntries(d, n - 1), DepsEntry(d.entries[n - 1].0, d.entries[n - 1].1))
  }

  /** One entry: dictionaries are walked, lists through their dictionary items, `var` operands are read. */
  function DepsEntry(k: string, v: Value): Walk
    decreases v, 3
  {
    match v
    case VDict(_) => Deps(v)
    case VList(items) => DepsItems(v, |items|)
    case _ => if k == "var" then VarDep(v) else Walk([], true)
  }

  /** The walk over the dictionary items among the first `n` items of a list. */
  function DepsItems(l: Value, n: nat): Walk
    requires l.VList? && n <= |l.items|
    decreases l, 1, n
  {
    if n == 0 then Walk([], true)
    else Then(DepsItems(l, n - 1), if l.items[n - 1].VDict? then Deps(l.items[n - 1]) else Walk([], true))
  }

  /** A walk over a dictionary that raised at entry `i` is the walk over the whole dictionary. */
  lemma {:induction false} DepsEntriesStops(d: Value, i: nat, n: nat)
    requires d.VDict? && i <= n <= |d.entries| && !DepsEntries(d, i).ok
    ensures DepsEntries(d, n) == DepsEntries(d, i)
    decreases n - i
  {
    if n > i {
      DepsEntriesStops(d, i, n - 1);
    }
  }

  /** The same for the dictionary items of a list. */
  lemma {:induction false} DepsItemsStops(l: Value, i: nat, n: nat)
    requires l.VList? && i <= n <= |l.items| && !DepsItems(l, i).ok
    ensures DepsItems(l, n) == DepsItems(l, i)
    decreases n - i
  {
    if n > i {
      DepsItemsStops(l, i, n - 1);
    }
  }

  /** The builder's `realted_fields_logic`: field name to the keys of the components that depend on it. */
  type Related = seq<(string, seq<Value>)>

  function ListAt(r: Related, val: string): seq<Value>
  {
    match Lookup(r, val)
    case Some(ks) => ks
    case None => []
  }

  /** Records that the component `key` depends on `val`, at most once. */
  function RecordDep(r: Related, val: string, key: Value): Related
  {
    match Lookup(r, val)
    case Some(ks) => if key in ks then r else Put(r, val, ks + [key])
    case None => Put(r, val, [key])
  }

  /** Records every name of a walk, in order. */
  function RecordDeps(r: Related, names: seq<string>, key: Value): Related
    decreases |names|
  {
    if |names| == 0 then r else RecordDeps(RecordDep(r, names[0], key), names[1..], key)
  }

  lemma RecordDepLookup(r: Related, val: string, key: Value, j: string)
    ensures Lookup(RecordDep(r, val, key), j) ==
      if j == val then Some(ListAt(r, val) + (if key in ListAt(r, val) then [] else [key]))
      else Lookup(r, j)
  {
    match Lookup(r, val)
    case Some(ks) =>
      if key !in ks { LookupPut(r, val, ks + [key], j); } else { assert ks + [] == ks; }
    case None =>
      assert [] + [key] == [key];
      LookupPut(r, val, [key], j);
  }

  /**
   * After recording a walk, every name it visited lists the component
   * once more only if it was not listed yet; every other entry is as it was.
   */
  lemma {:induction false} RecordDepsLookup(r: Related, names: seq<string>, key: Value, j: string)
    ensures Lookup(RecordDeps(r, names, key), j) ==
      if j in names then Some(ListAt(r, j) + (if key in ListAt(r, j) then [] else [key]))
      else Lookup(r, j)
    decreases |names|
  {
    if |names| > 0 {
      var r1 := RecordDep(r, names[0], key);
      RecordDepsLookup(r1, names[1..], key, j);
      RecordDepLookup(r, names[0], key, j);
      assert names == [names[0]] + names[1..];
      if j == names[0] {
        assert ListAt(r1, j) == ListAt(r, j) + (if key in ListAt(r, j) then [] else [key]);
        assert key in ListAt(r1, j);
        assert ListAt(r1, j) + [] == ListAt(r1, j);
      }
    }
  }

  /** Every name the walk visited lists the component afterwards. */
  lemma RecordDepsMember(r: Related, names: seq<string>, key: Value, j: string)
    requires j in names
    ensures Lookup(RecordDeps(r, names, key), j).Some?
    ensures key in Lookup(RecordDeps(r, names, key), j).value
  {
    RecordDepsLookup(r, names, key, j);
  }

  /** Recording splits over concatenated walks. */
  lemma {:induction false} RecordDepsAppend(r: Related, a: seq<string>, b: seq<string>, key: Value)
    ensures RecordDeps(r, a + b, key) == RecordDeps(RecordDeps(r, a, key), b, key)
    decreases |a|
  {
    if |a| > 0 {
      assert (a + b)[0] == a[0];
      assert (a + b)[1..] == a[1..] + b;
      RecordDepsAppend(RecordDep(r, a[0], key), a[1..], b, key);
    } else {
      assert a + b == b;
    }
  }

  /** Recording names whose lists already hold the component changes nothing. */
  lemma {:induction false} RecordDepsNoop(r: Related, names: seq<string>, key: Value)
    requires forall i :: 0 <= i < |names| ==> key in ListAt(r, names[i])
    ensures RecordDeps(r, names, key) == r
    decreases |names|
  {
    if |names| > 0 {
      RecordDepsNoop(r, names[1..], key);
    }
  }

  /** Recording the same walk twice is recording it once. */
  lemma RecordDepsIdempotent(r: Related, names: seq<string>, key: Value)
    ensures RecordDeps(RecordDeps(r, names, key), names, key) == RecordDeps(r, names, key)
  {
    var r1 := RecordDeps(r, names, key);
    forall i | 0 <= i < |names|
      ensures key in ListAt(r1, names[i])
    {
      RecordDepsMember(r, names, key, names[i]);
    }
    RecordDepsNoop(r1, names, key);
  }

  /** Every field is listed once and lists each dependent component once. */
  predicate RelatedValid(r: Related)
  {
    NoDup(KeysOf(r)) && forall i :: 0 <= i < |r| ==> NoDup(r[i].1)
  }

  /** Appending a component to the list of `val` keeps the keys distinct. */
  lemma RelatedKeysPut(r: Related, val: string, ks: seq<Value>)
    requires NoDup(KeysOf(r))
    ensures NoDup(KeysOf(Put(r, val, ks)))
  {
    KeysPut(r, val, ks);
    if val !in KeysOf(r) {
      NoDupAppend(KeysOf(r), val);
    }
  }

  /** Storing a list without repeats keeps every list without repeats. */
  lemma RelatedListsPut(r: Related, val: string, ks: seq<Value>)
    requires forall i :: 0 <= i < |r| ==> NoDup(r[i].1)
    requires NoDup(ks)
    ensures forall i :: 0 <= i < |Put(r, val, ks)| ==> NoDup(Put(r, val, ks)[i].1)
  {
    var r1 := Put(r, val, ks);
    EntriesPut(r, val, ks);
    forall i | 0 <= i < |r1|
      ensures NoDup(r1[i].1)
    {
      assert r1[i] in r1;
      if r1[i] != (val, ks) {
        var k :| 0 <= k < |r| && r[k] == r1[i];
      }
    }
  }

  lemma RecordDepValid(r: Related, val: string, key: Value)
    requires RelatedValid(r)
    ensures RelatedValid(RecordDep(r, val, key))
  {
    var ks := ListAt(r, val);
    if key !in ks {
      if Lookup(r, val).Some? {
        LookupEntry(r, val);
        var k :| 0 <= k < |r| && r[k] == (val, ks);
        assert NoDup(r[k].1);
      } else {
        assert ks + [key] == [key];
      }
      assert RecordDep(r, val, key) == Put(r, val, ks + [key]);
      NoDupAppend(ks, key);
      RelatedKeysPut(r, val, ks + [key]);
      RelatedListsPut(r, val, ks + [key]);
    }
  }

  /** A value the lookup finds belongs to an entry of the list. */
  lemma {:induction false} LookupEntry<K, V>(d: seq<(K, V)>, k: K)
    requires Lookup(d, k).Some?
    ensures (k, Lookup(d, k).value) in d
  {
    if d[0].0 != k {
      LookupEntry(d[1..], k);
    }
  }

  /** Recording keeps the map free of repeated fields and of repeated components. */
  lemma {:induction false} RecordDepsValid(r: Related, names: seq<string>, key: Value)
    requires RelatedValid(r)
    ensures RelatedValid(RecordDeps(r, names, key))
    decreases |names|
  {
    if |names| > 0 {
      RecordDepValid(r, names[0], key);
      RecordDepsValid(RecordDep(r, names[0], key), names[1..], key);
    }
  }

  /**
   * A `form.<name>` path depends on `<name>`, unless the name itself
   * begins with `data_value`.
   */
  lemma FormPathDependency(f: string)
    requires '.' !in f && |f| > 0
    requires !("data_value" <= f)
    ensures VarDep(VStr("form." + f)) == Walk([f], true)
  {
    var s := "form." + f;
    assert "form." <= s[0..];
    NoDataValueInPath(f);
    assert s == "form" + ['.'] + f;
    SplitPrefix("form", f, '.');
    SplitFree(f, '.');
  }

  /** The only dot of `form.<name>` is the fifth character, so `form.data_value` occurs only at the start. */
  lemma NoDataValueInPath(f: string)
    requires '.' !in f
    requires !("data_value" <= f)
    ensures !Contains("form." + f, "form.data_value")
  {
    var s := "form." + f;
    var t := "form.data_value";
    forall i | 0 <= i <= |s| - |t|
      ensures !(t <= s[i..])
    {
      if i > 0 {
        assert s[i..][4] == f[i - 1] && t[4] == '.';
      } else {
        assert s[5..15] == f[..10] && t[5..] == "data_value";
      }
    }
  }

  /** A path through the display values depends on the name after `form.data_value`. */
  lemma DataValuePathDependency(f: string)
    requires '.' !in f && |f| > 0
    ensures VarDep(VStr("form.data_value." + f)) == Walk([f], true)
  {
    var s := "form.data_value." + f;
    assert "form.data_value" <= s[0..];
    assert "form." <= s[0..];
    assert s == "form" + "." + "data_value" + "." + f;
    ThreeSegments("form", "data_value", f);
  }

  lemma ThreeSegments(p: string, q: string, f: string)
    requires '.' !in p && '.' !in q && '.' !in f
    ensures Split(p + "." + q + "." + f, '.') == [p, q, f]
  {
    assert p + "." + q + "." + f == p + ['.'] + (q + ['.'] + f);
    SplitPrefix(p, q + ['.'] + f, '.');
    SplitPrefix(q, f, '.');
    SplitFree(f, '.');
  }

  /** Only dictionaries are walked: any other expression raises. */
  lemma DepsNeedsDict(expr: Value)
    ensures Deps(expr).ok ==> expr.VDict?
  {
  }

  // ---------------------------------------------------------------------
  // The configuration record (`update_config`)

  /** A raw component node or any other dictionary, as its ordered entries. */
  type Entries = seq<(string, Value)>

  /** A descriptor's `cfg` dictionary. */
  type Cfg = map<Value, Value>

  /** `d.get(k)`. */
  function Get(d: Entries, k: string): Value
  {
    GetOr(d, k, VNone)
  }

  /** What a select descriptor reads from its node when it is built. */
  datatype SelectInit = SelectInit(
    valueProperty: Value, selectValues: Value, defaultValue: Value, idPath: Value,
    multiple: Value, dataSrc: Value, templateKeys: seq<string>, resourceId: Value)

  /** The descriptor class the compiler picks for a node. */
  datatype Variant = Plain | Select(init: SelectInit) | Survey

  const DefaultTemplate := "<span>{{ item.label }}</span>"

  function DataSrc(raw: Entries): Value
  {
    GetOr(raw, "dataSrc", VStr("values"))
  }

  /** A select with an external data source is listed in `components_ext_data_src` before anything that can fail. */
  predicate ExtDataSrc(raw: Entries)
  {
    DataSrc(raw) == VStr("resource") || DataSrc(raw) == VStr("url")
  }

  /** The label path of a resource select: the decoded template, or that of the default template. */
  function TemplateKeys(raw: Entries): Result<seq<string>>
  {
    if DataSrc(raw) != VStr("resource") then Ok([])
    else
      var t := Get(raw, "template");
      if !Truthy(t) then Ok(DecodeResourceTemplate(DefaultTemplate))
      else if t.VStr? then Ok(DecodeResourceTemplate(t.s))
      else Fail("TypeError: expected string")
  }

  /** `data and data.get("resource")` for a resource select, "" otherwise. */
  function ResourceId(raw: Entries): Result<Value>
  {
    if DataSrc(raw) != VStr("resource") then Ok(VStr(""))
    else
      var data := Get(raw, "data");
      if !Truthy(data) then Ok(data) else DictGet(data, "resource", VNone)
  }

  /** A url select reads `data.url` and the first header's key and value; each step can raise. */
  function UrlCheck(raw: Entries): Result<bool>
  {
    if DataSrc(raw) != VStr("url") then Ok(true)
    else
      var data := Get(raw, "data");
      if !data.VDict? then Fail("AttributeError: 'data' has no attribute 'get'")
      else
        var h := GetOr(data.entries, "headers", VList([]));
        if h.VList? && |h.items| > 0 && h.items[0].VDict? then Ok(true)
        else Fail("headers[0].get")
  }

  /** The constructor of a select descriptor. */
  function SelectInitOf(raw: Entries): Result<SelectInit>
  {
    match TemplateKeys(raw)
    case Fail(m) => Fail(m)
    case Ok(keys) =>
      match ResourceId(raw)
      case Fail(m) => Fail(m)
      case Ok(rid) =>
        match UrlCheck(raw)
        case Fail(m) => Fail(m)
        case Ok(_) =>
          Ok(SelectInit(Get(raw, "valueProperty"), Get(raw, "selectValues"), GetOr(raw, "defaultValue", VStr("")),
                        GetOr(raw, "idPath", VStr("")), GetOr(raw, "multiple", VBool(false)), DataSrc(raw), keys, rid))
  }

  /** A resource select without a template decodes the default one to the single key `label`. */
  lemma DefaultTemplateKeys()
    ensures DecodeResourceTemplate(DefaultTemplate) == ["label"]
  {
    DefaultTemplateIsItemTemplate();
    assert PathKey("label");
    SingleKeyTemplate("label");
  }

  /**
   * The missing or falsy `properties` and `validate` blocks become `{}`;
   * then reading `properties` replaces a value that is not a dictionary by `{}`.
   */
  function NormalizedBlocks(raw: Entries): Entries
  {
    var r1 := if Truthy(Get(raw, "properties")) then raw else Put(raw, "properties", VDict([]));
    var r2 := if Truthy(Get(r1, "validate")) then r1 else Put(r1, "validate", VDict([]));
    if Get(r2, "properties").VDict? then r2 else Put(r2, "properties", VDict([]))
  }

  /** The entries of `raw["properties"]` when it is a dictionary. */
  function PropsOf(raw: Entries): Entries
  {
    var p := Get(raw, "properties");
    if p.VDict? then p.entries else []
  }

  function Bool(b: bool): Value { VBool(b) }

  /** The keys every descriptor's `update_config` writes. */
  function BaseCfg(raw: Entries, v: Entries, cfg: Cfg): Cfg
  {
    var props := PropsOf(raw);
    var cv := Get(raw, "calculateValue");
    cfg[VStr("ctype") := Get(raw, "type")][VStr("disabled") := GetOr(raw, "disabled", Bool(false))]
       [VStr("readonly") := if Truthy(Get(props, "readonly")) then Bool(true) else GetOr(raw, "readOnlyValue", Bool(false))]
       [VStr("hidden") := GetOr(raw, "hidden", Bool(false))]
       [VStr("required") := if Truthy(Get(props, "required")) then Bool(true) else GetOr(v, "required", Bool(false))]
       [VStr("unique") := GetOr(v, "unique", Bool(false))]
       [VStr("component") := VStr("Component")]
       [VStr("calculateServer") :=
          if !Truthy(cv) && Truthy(GetOr(props, "calculateServer", Bool(false))) then GetOr(props, "calculateServer", Bool(false))
          else cv]
       [VStr("action_type") := GetOr(props, "action_type", Bool(false))]
       [VStr("no_clone") := GetOr(props, "no_clone", Bool(false))]
       [VStr("transform") := VDict([])][VStr("datetime") := Bool(false)]
       [VStr("min") := Bool(false)][VStr("max") := Bool(false)]
  }

  /** The date flag of a datetime node: set when neither flag is on and the node has no `enableDate` key at all. */
  function DateFlag(raw: Entries): Value
  {
    var time := GetOr(raw, "enableTime", Bool(false));
    var date := GetOr(raw, "enableDate", Bool(false));
    if !Truthy(time) && !Truthy(date) && "enableDate" !in KeysOf(raw) then Bool(true) else date
  }

  /** The datetime keys: the flags, the display transform, and the bounds read from `widget`. */
  function DatetimeCfg(raw: Entries, cfg: Cfg): Result<Cfg>
  {
    if Get(raw, "type") != VStr("datetime") then Ok(cfg)
    else
      var time := GetOr(raw, "enableTime", Bool(false));
      var date := DateFlag(raw);
      var both := date == Bool(true) && time == Bool(true);
      var transform :=
        if both then VDict([("type", VStr("datetime"))])
        else if date == Bool(true) then VDict([("type", VStr("date"))])
        else Lookup0(cfg, "transform", VDict([]));
      match Index(VDict(raw), "widget")
      case Fail(m) => Fail(m)
      case Ok(w) =>
        match Index(w, "minDate")
        case Fail(m) => Fail(m)
        case Ok(lo) =>
          match Index(w, "maxDate")
          case Fail(m) => Fail(m)
          case Ok(hi) =>
            Ok(cfg[VStr("time") := time][VStr("date") := date][VStr("transform") := transform]
                  [VStr("datetime") := if both then Bool(true) else Lookup0(cfg, "datetime", Bool(false))]
                  [VStr("min") := lo][VStr("max") := hi])
  }

  /** The decimal keys of a node with `requireDecimal` set to `True`. */
  function DecimalCfg(raw: Entries, v: Entries, cfg: Cfg): Cfg
  {
    if Get(raw, "requireDecimal") != Bool(true) then cfg
    else
      var mask := GetOr(raw, "displayMask", VStr("decimal"));
      var delimiter := GetOr(raw, "delimiter", VStr(","));
      var dp := GetOr(raw, "decimalLimit", VInt(2));
      cfg[VStr("mask") := mask][VStr("min") := Get(v, "min")][VStr("max") := Get(v, "max")]
         [VStr("delimiter") := delimiter][VStr("dp") := dp]
         [VStr("transform") := VDict([("type", VStr("float")), ("dp", dp), ("mask", mask), ("dps", delimiter)])]
  }

  /** The keys a select or survey descriptor adds. */
  function VariantCfg(raw: Entries, variant: Variant, cfg: Cfg): Result<Cfg>
  {
    match variant
    case Plain => Ok(cfg)
    case Survey =>
      if Get(raw, "type") != VStr("survey") then Ok(cfg)
      else Ok(cfg[VStr("component") := VStr("surveyComponent")][VStr("questions") := Get(raw, "questions")]
                 [VStr("values") := Get(raw, "values")][VStr("defaultValue") := GetOr(raw, "defaultValue", VStr(""))])
    case Select(si) =>
      if Get(raw, "type") != VStr("select") then Ok(cfg)
      else
        var data := Get(raw, "data");
        match DictGet(GetOr(raw, "data", VDict([])), "values", VList([]))
        case Fail(m) => Fail(m)
        case Ok(values) =>
          if !data.VDict? then Fail("AttributeError: 'data' has no attribute 'get'")
          else if !si.dataSrc.VStr? then
            (if Hashable(si.dataSrc) then Ok(SelectCfg(cfg, si, values, VNone, si.dataSrc))
             else Fail("TypeError: unhashable type"))
          else Ok(SelectCfg(cfg, si, values, Get(data.entries, si.dataSrc.s), si.dataSrc))
  }

  function SelectCfg(cfg: Cfg, si: SelectInit, values: Value, src: Value, srcKey: Value): Cfg
  {
    cfg[VStr("component") := VStr("selectComponent")][VStr("valueProperty") := si.valueProperty]
       [VStr("selectValues") := si.selectValues][VStr("defaultValue") := si.defaultValue]
       [VStr("multiple") := si.multiple][VStr("dataSrc") := si.dataSrc][VStr("idPath") := si.idPath]
       [VStr("resource_id") := si.resourceId][VStr("values") := values][srcKey := src]
       [VStr("template_label_keys") := VList(seq(|si.templateKeys|, i requires 0 <= i < |si.templateKeys| => VStr(si.templateKeys[i])))]
  }

  /** `update_config` on a descriptor whose `cfg` is `cfg0`: the normalised node and the updated configuration, or the error that aborts the field. */
  function Configure(raw0: Entries, variant: Variant, cfg0: Cfg): Result<(Entries, Cfg)>
  {
    var raw := NormalizedBlocks(raw0);
    var validate := Get(raw, "validate");
    if !validate.VDict? then Fail("AttributeError: 'validate' has no attribute 'get'")
    else
      match DatetimeCfg(raw, BaseCfg(raw, validate.entries, cfg0))
      case Fail(m) => Fail(m)
      case Ok(cfg1) =>
        match VariantCfg(raw, variant, DecimalCfg(raw, validate.entries, cfg1))
        case Fail(m) => Fail(m)
        case Ok(cfg2) => Ok((raw, cfg2))
  }

  /** The `no_clone` property of a descriptor. */
  function NoClone(cfg: Cfg): (r: Value)
    ensures Truthy(Lookup0(cfg, "calculateServer", Bool(false))) ==> r == Bool(true)
  {
    if Truthy(Lookup0(cfg, "calculateServer", Bool(false))) then Bool(true) else Lookup0(cfg, "no_clone", VNone)
  }

  /** `cfg.get(k, default)`. */
  function Lookup0(cfg: Cfg, k: string, default: Value): Value
  {
    if VStr(k) in cfg then cfg[VStr(k)] else default
  }

  /** The `limit_values` property: the bounds when either is set, else nothing. */
  function LimitValues(cfg: Cfg): (r: Option<Value>)
    ensures r.Some? <==> Truthy(Lookup0(cfg, "min", VNone)) || Truthy(Lookup0(cfg, "max", VNone))
    ensures r.Some? ==> r.value == VDict([("min", Lookup0(cfg, "min", VNone)), ("max", Lookup0(cfg, "max", VNone))])
  {
    if Truthy(Lookup0(cfg, "min", VNone)) || Truthy(Lookup0(cfg, "max", VNone)) then
      Some(VDict([("min", Lookup0(cfg, "min", VNone)), ("max", Lookup0(cfg, "max", VNone))]))
    else None
  }

  /** The `properties` block of the original node when it is a dictionary, else empty. */
  function OrigProps(raw: Entries): Entries
  {
    var p := Get(raw, "properties");
    if p.VDict? then p.entries else []
  }

  /** The `validate` block the descriptor reads: the node's own when truthy, else `{}`. */
  function OrigValidate(raw: Entries): Value
  {
    if Truthy(Get(raw, "validate")) then Get(raw, "validate") else VDict([])
  }

  /** Normalising touches only the two blocks. */
  lemma NormalizedLookup(raw: Entries, k: string)
    ensures Lookup(NormalizedBlocks(raw), k) ==
      if k == "properties" then Some(VDict(OrigProps(raw)))
      else if k == "validate" then Some(OrigValidate(raw))
      else Lookup(raw, k)
  {
    var r1 := if Truthy(Get(raw, "properties")) then raw else Put(raw, "properties", VDict([]));
    var r2 := if Truthy(Get(r1, "validate")) then r1 else Put(r1, "validate", VDict([]));
    LookupPut(raw, "properties", VDict([]), k);
    LookupPut(raw, "properties", VDict([]), "properties");
    LookupPut(raw, "properties", VDict([]), "validate");
    LookupPut(r1, "validate", VDict([]), k);
    LookupPut(r1, "validate", VDict([]), "properties");
    LookupPut(r1, "validate", VDict([]), "validate");
    LookupPut(r2, "properties", VDict([]), k);
    LookupPut(r2, "properties", VDict([]), "properties");
    if k == "properties" {
      var p := Get(raw, "properties");
      if Truthy(p) {
        assert Lookup(raw, "properties") == Some(p);
      }
    }
  }

  lemma NormalizedGet(raw: Entries, k: string)
    requires k != "properties" && k != "validate"
    ensures Get(NormalizedBlocks(raw), k) == Get(raw, k)
    ensures k in KeysOf(NormalizedBlocks(raw)) <==> k in KeysOf(raw)
  {
    NormalizedLookup(raw, k);
    LookupIsKey(raw, k);
    LookupIsKey(NormalizedBlocks(raw), k);
  }

  /** The facts every rule below starts from: the configuration of a node whose `validate` block is usable. */
  lemma NormalizedBlocksFacts(raw: Entries)
    ensures PropsOf(NormalizedBlocks(raw)) == OrigProps(raw)
    ensures Get(NormalizedBlocks(raw), "validate") == OrigValidate(raw)
  {
    NormalizedLookup(raw, "properties");
    NormalizedLookup(raw, "validate");
  }

  /** The normalised node always has dictionary blocks, and keeps a dictionary `properties` block as it was. */
  lemma ConfigureBlocks(raw: Entries, variant: Variant, cfg0: Cfg)
    requires Configure(raw, variant, cfg0).Ok?
    ensures Get(Configure(raw, variant, cfg0).value.0, "properties") == VDict(OrigProps(raw))
    ensures Get(Configure(raw, variant, cfg0).value.0, "validate").VDict?
    ensures Get(raw, "properties").VDict? ==> Get(Configure(raw, variant, cfg0).value.0, "properties") == Get(raw, "properties")
  {
    NormalizedLookup(raw, "properties");
    NormalizedLookup(raw, "validate");
  }

  /** A `validate` block that is truthy but not a dictionary makes the field fail. */
  lemma ConfigureNeedsValidateDict(raw: Entries, variant: Variant, cfg0: Cfg)
    requires Truthy(Get(raw, "validate")) && !Get(raw, "validate").VDict?
    ensures Configure(raw, variant, cfg0).Fail?
  {
    NormalizedBlocksFacts(raw);
  }

  /** A datetime node without a `widget` dictionary holding both bounds makes the field fail. */
  lemma DatetimeNeedsWidget(raw: Entries, variant: Variant, cfg0: Cfg)
    requires Get(raw, "type") == VStr("datetime")
    requires Index(VDict(raw), "widget").Fail?
      || Index(Index(VDict(raw), "widget").value, "minDate").Fail?
      || Index(Index(VDict(raw), "widget").value, "maxDate").Fail?
    ensures Configure(raw, variant, cfg0).Fail?
  {
    NormalizedGet(raw, "type");
    NormalizedLookup(raw, "widget");
  }

  /** The keys that only the first stage of `update_config` writes. */
  predicate BaseKey(k: string)
  {
    k in {"ctype", "disabled", "readonly", "hidden", "required", "unique", "calculateServer", "action_type", "no_clone"}
  }

  /** A select whose `dataSrc` names a key overwrites that key with `data[dataSrc]`. */
  predicate Keeps(variant: Variant, k: string)
  {
    !variant.Select? || variant.init.dataSrc != VStr(k)
  }

  lemma DatetimeKeeps(raw: Entries, cfg: Cfg, k: string)
    requires BaseKey(k) && VStr(k) in cfg && DatetimeCfg(raw, cfg).Ok?
    ensures VStr(k) in DatetimeCfg(raw, cfg).value && DatetimeCfg(raw, cfg).value[VStr(k)] == cfg[VStr(k)]
  {
  }

  lemma DecimalKeeps(raw: Entries, v: Entries, cfg: Cfg, k: string)
    requires BaseKey(k) && VStr(k) in cfg
    ensures VStr(k) in DecimalCfg(raw, v, cfg) && DecimalCfg(raw, v, cfg)[VStr(k)] == cfg[VStr(k)]
  {
  }

  lemma VariantKeeps(raw: Entries, variant: Variant, cfg: Cfg, k: string)
    requires BaseKey(k) && k != "component" && Keeps(variant, k) && VStr(k) in cfg && VariantCfg(raw, variant, cfg).Ok?
    ensures VStr(k) in VariantCfg(raw, variant, cfg).value && VariantCfg(raw, variant, cfg).value[VStr(k)] == cfg[VStr(k)]
  {
  }

  /** What the first stage wrote under a base key survives the later stages. */
  lemma ConfigureBase(raw: Entries, variant: Variant, cfg0: Cfg, k: string)
    requires Configure(raw, variant, cfg0).Ok? && BaseKey(k) && Keeps(variant, k)
    ensures OrigValidate(raw).VDict?
    ensures VStr(k) in Configure(raw, variant, cfg0).value.1
    ensures Configure(raw, variant, cfg0).value.1[VStr(k)] == BaseCfg(NormalizedBlocks(raw), OrigValidate(raw).entries, cfg0)[VStr(k)]
  {
    NormalizedBlocksFacts(raw);
    var n := NormalizedBlocks(raw);
    var v := OrigValidate(raw).entries;
    var c0 := BaseCfg(n, v, cfg0);
    var c1 := DatetimeCfg(n, c0).value;
    DatetimeKeeps(n, c0, k);
    DecimalKeeps(n, v, c1, k);
    VariantKeeps(n, variant, DecimalCfg(n, v, c1), k);
  }

  /** `readonly` is on when `readOnlyValue` or `properties.readonly` is. */
  lemma ReadonlyRule(raw: Entries, variant: Variant, cfg0: Cfg)
    requires Configure(raw, variant, cfg0).Ok? && Keeps(variant, "readonly")
    ensures VStr("readonly") in Configure(raw, variant, cfg0).value.1
    ensures Truthy(Configure(raw, variant, cfg0).value.1[VStr("readonly")]) <==>
      Truthy(Get(raw, "readOnlyValue")) || Truthy(Get(OrigProps(raw), "readonly"))
  {
    ConfigureBase(raw, variant, cfg0, "readonly");
    NormalizedBlocksFacts(raw);
    NormalizedLookup(raw, "readOnlyValue");
  }

  /** `required` is on when `validate.required` or `properties.required` is. */
  lemma RequiredRule(raw: Entries, variant: Variant, cfg0: Cfg)
    requires Configure(raw, variant, cfg0).Ok? && Keeps(variant, "required")
    ensures OrigValidate(raw).VDict? && VStr("required") in Configure(raw, variant, cfg0).value.1
    ensures Truthy(Configure(raw, variant, cfg0).value.1[VStr("required")]) <==>
      Truthy(Get(OrigValidate(raw).entries, "required")) || Truthy(Get(OrigProps(raw), "required"))
  {
    ConfigureBase(raw, variant, cfg0, "required");
    NormalizedBlocksFacts(raw);
  }

  /** `unique` is `validate.unique`, off when absent. */
  lemma UniqueRule(raw: Entries, variant: Variant, cfg0: Cfg)
    requires Configure(raw, variant, cfg0).Ok? && Keeps(variant, "unique")
    ensures OrigValidate(raw).VDict? && VStr("unique") in Configure(raw, variant, cfg0).value.1
    ensures Configure(raw, variant, cfg0).value.1[VStr("unique")] == GetOr(OrigValidate(raw).entries, "unique", Bool(false))
  {
    ConfigureBase(raw, variant, cfg0, "unique");
  }

  /**
   * `calculateServer` is a truthy `calculateValue` as it stands, else the
   * flag from `properties`; either way the field is not cloned.
   */
  lemma CalculateServerRule(raw: Entries, variant: Variant, cfg0: Cfg)
    requires Configure(raw, variant, cfg0).Ok? && Keeps(variant, "calculateServer")
    ensures VStr("calculateServer") in Configure(raw, variant, cfg0).value.1
    ensures var cs := Configure(raw, variant, cfg0).value.1[VStr("calculateServer")];
      (Truthy(cs) <==> Truthy(Get(raw, "calculateValue")) || Truthy(Get(OrigProps(raw), "calculateServer")))
      && (Truthy(Get(raw, "calculateValue")) ==> cs == Get(raw, "calculateValue"))
      && (Truthy(cs) ==> NoClone(Configure(raw, variant, cfg0).value.1) == Bool(true))
  {
    ConfigureBase(raw, variant, cfg0, "calculateServer");
    NormalizedBlocksFacts(raw);
    NormalizedLookup(raw, "calculateValue");
  }

  /** The datetime stage of a plain descriptor, once the earlier stages succeeded. */
  lemma PlainStages(raw: Entries, cfg0: Cfg)
    requires Configure(raw, Plain, cfg0).Ok?
    ensures OrigValidate(raw).VDict?
    ensures DatetimeCfg(NormalizedBlocks(raw), BaseCfg(NormalizedBlocks(raw), OrigValidate(raw).entries, cfg0)).Ok?
    ensures Configure(raw, Plain, cfg0).value.1 ==
      DecimalCfg(NormalizedBlocks(raw), OrigValidate(raw).entries,
                 DatetimeCfg(NormalizedBlocks(raw), BaseCfg(NormalizedBlocks(raw), OrigValidate(raw).entries, cfg0)).value)
  {
    NormalizedBlocksFacts(raw);
  }

  /** Without either flag and without an `enableDate` key, a datetime node shows a date. */
  lemma DatetimeDateDefault(raw: Entries, cfg0: Cfg)
    requires Get(raw, "type") == VStr("datetime") && Get(raw, "requireDecimal") != Bool(true)
    requires !Truthy(Get(raw, "enableTime")) && "enableDate" !in KeysOf(raw)
    requires Configure(raw, Plain, cfg0).Ok?
    ensures var cfg := Configure(raw, Plain, cfg0).value.1;
      VStr("date") in cfg && VStr("transform") in cfg && VStr("datetime") in cfg
      && cfg[VStr("date")] == Bool(true) && cfg[VStr("transform")] == VDict([("type", VStr("date"))])
      && cfg[VStr("datetime")] == Bool(false)
  {
    PlainStages(raw, cfg0);
    var n := NormalizedBlocks(raw);
    var base := BaseCfg(n, OrigValidate(raw).entries, cfg0);
    NormalizedGet(raw, "type");
    NormalizedLookup(raw, "enableTime");
    NormalizedLookup(raw, "enableDate");
    NormalizedGet(raw, "enableDate");
    NormalizedGet(raw, "requireDecimal");
    LookupIsKey(raw, "enableDate");
    assert DateFlag(n) == Bool(true);
    DatetimeFlags(n, base);
    BaseDatetimeOff(n, OrigValidate(raw).entries, cfg0);
  }

  /** The flags and transform `DatetimeCfg` writes, as the date and time flags decide them. */
  lemma DatetimeFlags(raw: Entries, cfg: Cfg)
    requires Get(raw, "type") == VStr("datetime") && DatetimeCfg(raw, cfg).Ok?
    ensures var c := DatetimeCfg(raw, cfg).value;
      var both := DateFlag(raw) == Bool(true) && GetOr(raw, "enableTime", Bool(false)) == Bool(true);
      VStr("date") in c && VStr("transform") in c && VStr("datetime") in c
      && c[VStr("date")] == DateFlag(raw)
      && c[VStr("datetime")] == (if both then Bool(true) else Lookup0(cfg, "datetime", Bool(false)))
      && (both ==> c[VStr("transform")] == VDict([("type", VStr("datetime"))]))
      && (!both && DateFlag(raw) == Bool(true) ==> c[VStr("transform")] == VDict([("type", VStr("date"))]))
  {
  }

  /** The base stage clears the datetime flag. */
  lemma BaseDatetimeOff(raw: Entries, v: Entries, cfg: Cfg)
    ensures Lookup0(BaseCfg(raw, v, cfg), "datetime", Bool(false)) == Bool(false)
  {
  }

  /** Both flags set to `True` give a datetime transform and the datetime flag. */
  lemma DatetimeBoth(raw: Entries, cfg0: Cfg)
    requires Get(raw, "type") == VStr("datetime") && Get(raw, "requireDecimal") != Bool(true)
    requires Get(raw, "enableTime") == Bool(true) && Get(raw, "enableDate") == Bool(true)
    requires Configure(raw, Plain, cfg0).Ok?
    ensures var cfg := Configure(raw, Plain, cfg0).value.1;
      VStr("transform") in cfg && VStr("datetime") in cfg
      && cfg[VStr("transform")] == VDict([("type", VStr("datetime"))]) && cfg[VStr("datetime")] == Bool(true)
  {
    var n := NormalizedBlocks(raw);
    PlainStages(raw, cfg0);
    NormalizedGet(raw, "type");
    NormalizedGet(raw, "enableTime");
    NormalizedGet(raw, "enableDate");
    NormalizedGet(raw, "requireDecimal");
    DatetimeFlags(n, BaseCfg(n, OrigValidate(raw).entries, cfg0));
  }

  /** A decimal number keeps its display rules, with the documented defaults, and its bounds from `validate`. */
  lemma DecimalTransform(raw: Entries, cfg0: Cfg)
    requires Get(raw, "requireDecimal") == Bool(true)
    requires Configure(raw, Plain, cfg0).Ok?
    ensures OrigValidate(raw).VDict?
    ensures var cfg := Configure(raw, Plain, cfg0).value.1;
      VStr("transform") in cfg && VStr("min") in cfg && VStr("max") in cfg
      && cfg[VStr("transform")] == VDict([("type", VStr("float")), ("dp", GetOr(raw, "decimalLimit", VInt(2))),
                                          ("mask", GetOr(raw, "displayMask", VStr("decimal"))), ("dps", GetOr(raw, "delimiter", VStr(",")))])
      && cfg[VStr("min")] == Get(OrigValidate(raw).entries, "min") && cfg[VStr("max")] == Get(OrigValidate(raw).entries, "max")
  {
    PlainStages(raw, cfg0);
    NormalizedGet(raw, "requireDecimal");
    NormalizedLookup(raw, "decimalLimit");
    NormalizedLookup(raw, "displayMask");
    NormalizedLookup(raw, "delimiter");
  }

  /** A select node without a `data` dictionary cannot be configured. */
  lemma SelectNeedsData(raw: Entries, si: SelectInit, cfg0: Cfg)
    requires Get(raw, "type") == VStr("select") && !Get(raw, "data").VDict?
    ensures Configure(raw, Select(si), cfg0).Fail?
  {
    NormalizedGet(raw, "type");
    NormalizedGet(raw, "data");
    NormalizedLookup(raw, "data");
  }

  // ---------------------------------------------------------------------
  // Logic actions and conditionals

  /** The state logic evaluation changes: the descriptor's node and configuration, and the builder's dependency map. */
  datatype Desc = Desc(raw: Entries, cfg: Cfg, related: Related)

  /** The state after an operation, and whether it finished without raising. */
  datatype Step = Step(d: Desc, ok: bool)

  /** The builder's `context_data`, which the core never fills in. */
  const Context: Value := VDict([])

  /** Runs the dependency walk of `expr` on behalf of the component `key`. */
  function Walked(d: Desc, expr: Value, key: Value): (s: Step)
    ensures s.d.raw == d.raw && s.d.cfg == d.cfg
  {
    var w := Deps(expr);
    Step(d.(related := RecordDeps(d.related, w.names, key)), w.ok)
  }

  /**
   * `self.properties[k] = v`: written into the node's `properties`
   * dictionary; one that is not a dictionary is first replaced by `{}`;
   * with no block at all the write goes to a temporary and is lost.
   */
  function MirrorProp(raw: Entries, k: string, v: Value): Entries
  {
    match Lookup(raw, "properties")
    case None => raw
    case Some(p) =>
      if p.VDict? then Put(raw, "properties", VDict(Put(p.entries, k, v)))
      else Put(raw, "properties", VDict([(k, v)]))
  }

  /** `eval_action_value_json_logic`: the right-hand side of `key=expr`, evaluated when it reads as JSON. */
  function ActionValue(d: Desc, elem: string, key: Value, ext: Externals): (Step, Value)
  {
    var data := IsJson(elem, ext);
    if !Truthy(data) then (Step(d, true), VStr(elem))
    else
      var s := Walked(d, data, key);
      if !s.ok then (s, VNone)
      else match ext.jsonLogic(data, Context)
        case None => (Step(s.d, false), VNone)
        case Some(r) => (s, r)
  }

  /** Stores an action's result: `value` is coerced through the field's type, other keys are mirrored into `properties`. */
  function SetActionKey(d: Desc, k: string, res: Value, inputType: Caster, ext: Externals): Step
  {
    if k == "value" then
      match PyCast(inputType, res, ext)
      case Fail(_) => Step(d, false)
      case Ok(c) => Step(d.(cfg := d.cfg[VStr("value") := c]), true)
    else Step(Desc(MirrorProp(d.raw, k, res), d.cfg[VStr(k) := res], d.related), true)
  }

  /** The configuration key a property action names: the second dotted segment of a path mentioning `validate`. */
  function PropertyKey(item: string): Option<string>
  {
    if !Contains(item, "validate") then Some(item)
    else
      var parts := Split(item, '.');
      if |parts| < 2 then None else Some(parts[1])
  }

  /** `apply_action`. */
  function ApplyActionSpec(d: Desc, action: Value, logicRes: Value, key: Value, inputType: Caster, ext: Externals): Step
  {
    if !action.VDict? then Step(d, false)
    else
      var a := action.entries;
      var t := Get(a, "type");
      if t == VStr("property") then
        var p := Get(a, "property");
        if !p.VDict? || !Get(p.entries, "value").VStr? then Step(d, false)
        else
          match PropertyKey(Get(p.entries, "value").s)
          case None => Step(d, false)
          case Some(item) => Step(d.(cfg := d.cfg[VStr(item) := Get(a, "state")]), true)
      else if t == VStr("value") then
        var v := Get(a, "value");
        if !v.VStr? then Step(d, false) else ValueAction(d, v.s, logicRes, key, inputType, ext)
      else Step(d, true)
  }

  /** The actions of a fired trigger, in order, skipping empty ones and stopping at the first that raises. */
  function ApplyActions(d: Desc, items: seq<Value>, logicRes: Value, key: Value, inputType: Caster, ext: Externals): Step
    decreases |items|
  {
    if |items| == 0 then Step(d, true)
    else
      var s := ActionStep(d, items[0], logicRes, key, inputType, ext);
      if !s.ok then s else ApplyActions(s.d, items[1..], logicRes, key, inputType, ext)
  }

  /** One element of the action list: an empty one is skipped. */
  function ActionStep(d: Desc, action: Value, logicRes: Value, key: Value, inputType: Caster, ext: Externals): Step
  {
    if !Truthy(action) then Step(d, true) else ApplyActionSpec(d, action, logicRes, key, inputType, ext)
  }

  /** `compute_logic`: evaluates the trigger and, when it holds, applies the actions. */
  function ComputeLogicSpec(d: Desc, expr: Value, actions: Value, key: Value, inputType: Caster, ext: Externals): Step
  {
    match ext.jsonLogic(expr, Context)
    case None => Step(d, false)
    case Some(r) =>
      if !Truthy(r) then Step(d, true)
      else match Iterate(actions)
        case Fail(_) => Step(d, false)
        case Ok(items) => ApplyActions(d, items, r, key, inputType, ext)
  }

  /** One logic entry: one with a truthy trigger `json` is walked, then computed; a falsy trigger or `json` is skipped. */
  function LogicEntrySpec(d: Desc, entry: Value, key: Value, inputType: Caster, ext: Externals): Step
  {
    if !entry.VDict? then Step(d, false)
    else
      var item := entry.entries;
      var trig := Get(item, "trigger");
      if !Truthy(trig) then Step(d, true)
      else if !trig.VDict? then Step(d, false)
      else
        var j := Get(trig.entries, "json");
        if !Truthy(j) then Step(d, true)
        else
          var s1 := Walked(d, j, key);
          if !s1.ok then s1
          else ComputeLogicSpec(s1.d, j, GetOr(item, "actions", VList([])), key, inputType, ext)
  }

  /** One logic entry after another, stopping at the first that raises. */
  function LogicItems(d: Desc, items: seq<Value>, key: Value, inputType: Caster, ext: Externals): Step
    decreases |items|
  {
    if |items| == 0 then Step(d, true)
    else
      var s := LogicEntrySpec(d, items[0], key, inputType, ext);
      if !s.ok then s else LogicItems(s.d, items[1..], key, inputType, ext)
  }

  /** `eval_logic`. */
  function EvalLogicSpec(d: Desc, key: Value, inputType: Caster, ext: Externals): Step
  {
    var logic := Get(d.raw, "logic");
    if !Truthy(logic) then Step(d, true)
    else match Iterate(logic)
      case Fail(_) => Step(d, false)
      case Ok(items) => LogicItems(d, items, key, inputType, ext)
  }

  /** `has_logic`. */
  predicate HasLogic(raw: Entries)
  {
    Truthy(Get(raw, "logic"))
  }

  /** `has_conditions`: the `conditional` block, when present, must be a dictionary. */
  function HasConditions(raw: Entries): Result<bool>
  {
    var c := GetOr(raw, "conditional", VDict([]));
    if c.VDict? then Ok(Get(c.entries, "json").VDict?) else Fail("AttributeError: 'conditional' has no attribute 'get'")
  }

  /** `aval_conditional`: a truthy condition walks its expression and hides the field when it does not hold. */
  function ConditionalSpec(d: Desc, key: Value, ext: Externals): Step
  {
    var c := Get(d.raw, "conditional");
    if !c.VDict? then Step(d, false)
    else
      var j := Get(c.entries, "json");
      if !Truthy(j) then Step(d, true)
      else
        var s := Walked(d, j, key);
        if !s.ok then s
        else match ext.jsonLogic(j, Context)
          case None => Step(s.d, false)
          case Some(r) => Step(s.d.(cfg := s.d.cfg[VStr("hidden") := Bool(!Truthy(r))]), true)
  }

  /** `compute_logic_and_condition`: the logic first, then the conditional. */
  function LogicAndConditionSpec(d: Desc, key: Value, inputType: Caster, ext: Externals): Step
  {
    var s1 := if HasLogic(d.raw) then EvalLogicSpec(d, key, inputType, ext) else Step(d, true);
    if !s1.ok then s1
    else match HasConditions(s1.d.raw)
      case Fail(_) => Step(s1.d, false)
      case Ok(false) => s1
      case Ok(true) => ConditionalSpec(s1.d, key, ext)
  }

  /** Actions run in list order: running `a + b` is running `a`, then, unless it raised, `b`. */
  lemma {:induction false} ActionsInOrder(d: Desc, a: seq<Value>, b: seq<Value>, logicRes: Value, key: Value, inputType: Caster, ext: Externals)
    ensures ApplyActions(d, a + b, logicRes, key, inputType, ext) ==
      Continue(ApplyActions(d, a, logicRes, key, inputType, ext), b, logicRes, key, inputType, ext)
    decreases |a|
  {
    if |a| == 0 {
      assert a + b == b;
    } else {
      assert a + b == [a[0]] + (a[1..] + b);
      assert a == [a[0]] + a[1..];
      ActionsCons(d, a[0], a[1..] + b, logicRes, key, inputType, ext);
      ActionsCons(d, a[0], a[1..], logicRes, key, inputType, ext);
      var s := ActionStep(d, a[0], logicRes, key, inputType, ext);
      if s.ok {
        ActionsInOrder(s.d, a[1..], b, logicRes, key, inputType, ext);
      }
    }
  }

  lemma ActionsCons(d: Desc, x: Value, rest: seq<Value>, logicRes: Value, key: Value, inputType: Caster, ext: Externals)
    ensures ApplyActions(d, [x] + rest, logicRes, key, inputType, ext) ==
      Continue(ActionStep(d, x, logicRes, key, inputType, ext), rest, logicRes, key, inputType, ext)
  {
    assert ([x] + rest)[0] == x && ([x] + rest)[1..] == rest;
  }

  /** Logic entries run in list order: running `a + b` is running `a`, then, unless it raised, `b`. */
  lemma {:induction false} LogicInOrder(d: Desc, a: seq<Value>, b: seq<Value>, key: Value, inputType: Caster, ext: Externals)
    ensures LogicItems(d, a + b, key, inputType, ext) == LogicContinue(LogicItems(d, a, key, inputType, ext), b, key, inputType, ext)
    decreases |a|
  {
    if |a| == 0 {
      assert a + b == b;
    } else {
      assert (a + b)[0] == a[0];
      assert (a + b)[1..] == a[1..] + b;
      var s := LogicEntrySpec(d, a[0], key, inputType, ext);
      if s.ok {
        LogicInOrder(s.d, a[1..], b, key, inputType, ext);
      }
    }
  }

  /** The rest of the logic entries after a prefix has run, unless the prefix raised. */
  function LogicContinue(s: Step, b: seq<Value>, key: Value, inputType: Caster, ext: Externals): Step
  {
    if !s.ok then s else LogicItems(s.d, b, key, inputType, ext)
  }

  /** The rest of an action list after a prefix has run, unless the prefix raised. */
  function Continue(s: Step, b: seq<Value>, logicRes: Value, key: Value, inputType: Caster, ext: Externals): Step
  {
    if !s.ok then s else ApplyActions(s.d, b, logicRes, key, inputType, ext)
  }

  /** A trigger that evaluates to a falsy value leaves everything as it was. */
  lemma FalsyTriggerKeepsState(d: Desc, expr: Value, actions: Value, key: Value, inputType: Caster, ext: Externals)
    requires ext.jsonLogic(expr, Context).Some? && !Truthy(ext.jsonLogic(expr, Context).value)
    ensures ComputeLogicSpec(d, expr, actions, key, inputType, ext) == Step(d, true)
  {
  }

  /** Reading the three entries of a property action. */
  lemma ThreeEntries(a: (string, Value), b: (string, Value), c: (string, Value))
    requires a.0 == "type" && b.0 == "property" && c.0 == "state"
    ensures Get([a, b, c], "type") == a.1 && Get([a, b, c], "property") == b.1 && Get([a, b, c], "state") == c.1
  {
    assert [a, b, c] == [a] + ([b] + [c]);
    LookupCons(a, [b] + [c], "property");
    LookupCons(a, [b] + [c], "state");
    LookupCons(b, [c], "state");
  }

  /** A property action on `validate.<name>` sets the configuration key `<name>` to the action's state. */
  lemma PropertyActionOnValidate(d: Desc, name: string, state: Value, logicRes: Value, key: Value, inputType: Caster, ext: Externals)
    requires '.' !in name
    ensures var action := VDict([("type", VStr("property")), ("property", VDict([("value", VStr("validate." + name))])), ("state", state)]);
      ApplyActionSpec(d, action, logicRes, key, inputType, ext) == Step(d.(cfg := d.cfg[VStr(name) := state]), true)
  {
    var item := "validate." + name;
    ThreeEntries(("type", VStr("property")), ("property", VDict([("value", VStr(item))])), ("state", state));
    assert "validate" <= item[0..];
    assert Contains(item, "validate");
    assert item == "validate" + ['.'] + name;
    SplitPrefix("validate", name, '.');
    SplitFree(name, '.');
  }

  /** A property action on any other name sets that very key. */
  lemma PropertyActionPlain(d: Desc, item: string, state: Value, logicRes: Value, key: Value, inputType: Caster, ext: Externals)
    requires !Contains(item, "validate")
    ensures var action := VDict([("type", VStr("property")), ("property", VDict([("value", VStr(item))])), ("state", state)]);
      ApplyActionSpec(d, action, logicRes, key, inputType, ext) == Step(d.(cfg := d.cfg[VStr(item) := state]), true)
  {
    ThreeEntries(("type", VStr("property")), ("property", VDict([("value", VStr(item))])), ("state", state));
  }

  /** Mirroring writes the key into a `properties` block that exists and touches no other entry of the node. */
  lemma MirrorPropFacts(raw: Entries, k: string, v: Value, j: string)
    ensures Lookup(raw, "properties").Some? ==> Get(PropsOf(MirrorProp(raw, k, v)), k) == v
    ensures Lookup(raw, "properties").None? ==> MirrorProp(raw, k, v) == raw
    ensures j != "properties" ==> Lookup(MirrorProp(raw, k, v), j) == Lookup(raw, j)
  {
    match Lookup(raw, "properties")
    case None =>
    case Some(p) =>
      if p.VDict? {
        LookupPut(raw, "properties", VDict(Put(p.entries, k, v)), j);
        LookupPut(raw, "properties", VDict(Put(p.entries, k, v)), "properties");
        LookupPut(p.entries, k, v, k);
      } else {
        LookupPut(raw, "properties", VDict([(k, v)]), j);
        LookupPut(raw, "properties", VDict([(k, v)]), "properties");
      }
  }

  /**
   * A value action `<k>` without `=` stores the trigger's result under
   * `<k>` and mirrors it into `properties`; under `value` it stores the
   * result coerced through the field's type instead.
   */
  lemma ValueActionStoresResult(d: Desc, k: string, logicRes: Value, key: Value, inputType: Caster, ext: Externals)
    requires '=' !in k
    ensures var s := ApplyActionSpec(d, VDict([("type", VStr("value")), ("value", VStr(k))]), logicRes, key, inputType, ext);
      (k != "value" ==>
         s.ok && s.d.cfg == d.cfg[VStr(k) := logicRes] && s.d.related == d.related
         && (Lookup(d.raw, "properties").Some? ==> Get(PropsOf(s.d.raw), k) == logicRes))
      && (k == "value" ==>
         s.ok == PyCast(inputType, logicRes, ext).Ok?
         && (s.ok ==> s.d.cfg == d.cfg[VStr("value") := PyCast(inputType, logicRes, ext).value] && s.d.raw == d.raw))
  {
    LookupCons(("type", VStr("value")), [("value", VStr(k))], "value");
    MirrorPropFacts(d.raw, k, logicRes, k);
  }

  /**
   * `<k>=<text>` with text that is not JSON stores the text itself under
   * `<k>`; text that decodes to an expression stores what the evaluator
   * makes of it, after recording the expression's dependencies.
   */
  lemma ValueActionAssigns(d: Desc, k: string, rhs: string, logicRes: Value, key: Value, inputType: Caster, ext: Externals)
    requires |k| > 0 && !IsSpace(k[0]) && !IsSpace(k[|k| - 1]) && '=' !in k && k != "value"
    requires |rhs| > 0 && !IsSpace(rhs[|rhs| - 1])
    ensures var s := ApplyActionSpec(d, VDict([("type", VStr("value")), ("value", VStr(k + "=" + rhs))]), logicRes, key, inputType, ext);
      var data := IsJson(rhs, ext);
      (!Truthy(data) ==> s.ok && s.d.cfg == d.cfg[VStr(k) := VStr(rhs)] && s.d.related == d.related)
      && (Truthy(data) && Deps(data).ok && ext.jsonLogic(data, Context).Some? ==>
            s.ok && s.d.cfg == d.cfg[VStr(k) := ext.jsonLogic(data, Context).value]
            && s.d.related == RecordDeps(d.related, Deps(data).names, key))
  {
    var v := k + "=" + rhs;
    LookupCons(("type", VStr("value")), [("value", VStr(v))], "value");
    AssignmentText(k, rhs);
    assert ApplyActionSpec(d, VDict([("type", VStr("value")), ("value", VStr(v))]), logicRes, key, inputType, ext)
      == ValueAction(d, v, logicRes, key, inputType, ext);
  }

  /** `k=rhs` with no space at either end is already stripped and splits at its first `=`. */
  lemma AssignmentText(k: string, rhs: string)
    requires |k| > 0 && !IsSpace(k[0]) && !IsSpace(k[|k| - 1]) && '=' !in k
    requires |rhs| > 0 && !IsSpace(rhs[|rhs| - 1])
    ensures '=' in k + "=" + rhs && Strip(k + "=" + rhs) == k + "=" + rhs
    ensures Strip(k) == k && SplitOnce(k + "=" + rhs, '=') == [k, rhs]
  {
    var v := k + "=" + rhs;
    assert v[|k|] == '=';
    assert v[0] == k[0] && v[|v| - 1] == rhs[|rhs| - 1];
    StripTrimmed(v);
    StripTrimmed(k);
    assert v == k + ['='] + rhs;
    SplitOnceAt(k, rhs, '=');
  }

  // Logic evaluation changes no entry of the node but `properties`, and keeps the dependency map well formed.

  predicate Tame(d: Desc, e: Desc, j: string)
  {
    (j != "properties" ==> Lookup(e.raw, j) == Lookup(d.raw, j))
    && (RelatedValid(d.related) ==> RelatedValid(e.related))
  }

  lemma WalkedTame(d: Desc, expr: Value, key: Value, j: string)
    ensures Tame(d, Walked(d, expr, key).d, j)
  {
    if RelatedValid(d.related) {
      RecordDepsValid(d.related, Deps(expr).names, key);
    }
  }

  lemma ApplyActionTame(d: Desc, action: Value, logicRes: Value, key: Value, inputType: Caster, ext: Externals, j: string)
    ensures Tame(d, ApplyActionSpec(d, action, logicRes, key, inputType, ext).d, j)
  {
    if action.VDict? && Get(action.entries, "type") == VStr("value") {
      var v := Get(action.entries, "value");
      if v.VStr? {
        ValueActionTame(d, v.s, logicRes, key, inputType, ext, j);
      }
    }
  }

  /** The `value` branch of `apply_action` for the action text `v`. */
  function ValueAction(d: Desc, v: string, logicRes: Value, key: Value, inputType: Caster, ext: Externals): Step
  {
    if '=' !in v then SetActionKey(d, v, logicRes, inputType, ext)
    else
      assert '=' in Strip(v) by { StripKeeps(v, '='); }
      var parts := SplitOnce(Strip(v), '=');
      var (s, res) := ActionValue(d, parts[1], key, ext);
      if !s.ok then s else SetActionKey(s.d, Strip(parts[0]), res, inputType, ext)
  }

  lemma SetActionKeyTame(d: Desc, k: string, res: Value, inputType: Caster, ext: Externals, j: string)
    ensures Tame(d, SetActionKey(d, k, res, inputType, ext).d, j)
  {
    MirrorPropFacts(d.raw, k, res, j);
  }

  lemma ActionValueTame(d: Desc, elem: string, key: Value, ext: Externals, j: string)
    ensures Tame(d, ActionValue(d, elem, key, ext).0.d, j)
  {
    var data := IsJson(elem, ext);
    if Truthy(data) {
      WalkedTame(d, data, key, j);
    }
  }

  lemma ValueActionTame(d: Desc, v: string, logicRes: Value, key: Value, inputType: Caster, ext: Externals, j: string)
    ensures Tame(d, ValueAction(d, v, logicRes, key, inputType, ext).d, j)
  {
    if '=' !in v {
      SetActionKeyTame(d, v, logicRes, inputType, ext, j);
    } else {
      assert '=' in Strip(v) by { StripKeeps(v, '='); }
      var parts := SplitOnce(Strip(v), '=');
      var (s, res) := ActionValue(d, parts[1], key, ext);
      ActionValueTame(d, parts[1], key, ext, j);
      SetActionKeyTame(s.d, Strip(parts[0]), res, inputType, ext, j);
    }
  }

  lemma {:induction false} ApplyActionsTame(d: Desc, items: seq<Value>, logicRes: Value, key: Value, inputType: Caster, ext: Externals, j: string)
    ensures Tame(d, ApplyActions(d, items, logicRes, key, inputType, ext).d, j)
    decreases |items|
  {
    if |items| > 0 {
      var s := ActionStep(d, items[0], logicRes, key, inputType, ext);
      if Truthy(items[0]) {
        ApplyActionTame(d, items[0], logicRes, key, inputType, ext, j);
      }
      if s.ok {
        ApplyActionsTame(s.d, items[1..], logicRes, key, inputType, ext, j);
      }
    }
  }

  lemma {:induction false} LogicItemsTame(d: Desc, items: seq<Value>, key: Value, inputType: Caster, ext: Externals, j: string)
    ensures Tame(d, LogicItems(d, items, key, inputType, ext).d, j)
    decreases |items|
  {
    if |items| > 0 {
      var s := LogicEntrySpec(d, items[0], key, inputType, ext);
      LogicEntryTame(d, items[0], key, inputType, ext, j);
      if s.ok {
        LogicItemsTame(s.d, items[1..], key, inputType, ext, j);
      }
    }
  }

  lemma LogicEntryTame(d: Desc, entry: Value, key: Value, inputType: Caster, ext: Externals, j: string)
    ensures Tame(d, LogicEntrySpec(d, entry, key, inputType, ext).d, j)
  {
    if entry.VDict? {
      var item := entry.entries;
      var trig := Get(item, "trigger");
      if Truthy(trig) && trig.VDict? {
        var jl := Get(trig.entries, "json");
        if Truthy(jl) {
          var s1 := Walked(d, jl, key);
          WalkedTame(d, jl, key, j);
          if s1.ok {
            ComputeLogicTame(s1.d, jl, GetOr(item, "actions", VList([])), key, inputType, ext, j);
          }
        }
      }
    }
  }

  lemma ComputeLogicTame(d: Desc, expr: Value, actions: Value, key: Value, inputType: Caster, ext: Externals, j: string)
    ensures Tame(d, ComputeLogicSpec(d, expr, actions, key, inputType, ext).d, j)
  {
    match ext.jsonLogic(expr, Context)
    case None =>
    case Some(r) =>
      if Truthy(r) && Iterate(actions).Ok? {
        ApplyActionsTame(d, Iterate(actions).value, r, key, inputType, ext, j);
      }
  }

  lemma EvalLogicTame(d: Desc, key: Value, inputType: Caster, ext: Externals, j: string)
    ensures Tame(d, EvalLogicSpec(d, key, inputType, ext).d, j)
  {
    if Truthy(Get(d.raw, "logic")) && Iterate(Get(d.raw, "logic")).Ok? {
      LogicItemsTame(d, Iterate(Get(d.raw, "logic")).value, key, inputType, ext, j);
    }
  }

  lemma ConditionalTame(d: Desc, key: Value, ext: Externals, j: string)
    ensures Tame(d, ConditionalSpec(d, key, ext).d, j)
  {
    var c := Get(d.raw, "conditional");
    if c.VDict? && Truthy(Get(c.entries, "json")) {
      WalkedTame(d, Get(c.entries, "json"), key, j);
    }
  }

  /** Logic and conditional change no entry of the node but `properties`, and keep the dependency map free of repeats. */
  lemma LogicAndConditionTame(d: Desc, key: Value, inputType: Caster, ext: Externals, j: string)
    ensures Tame(d, LogicAndConditionSpec(d, key, inputType, ext).d, j)
  {
    var s1 := if HasLogic(d.raw) then EvalLogicSpec(d, key, inputType, ext) else Step(d, true);
    EvalLogicTame(d, key, inputType, ext, j);
    ConditionalTame(s1.d, key, ext, j);
  }

  /**
   * The conditional runs after the logic: when the field has a condition,
   * its outcome decides `hidden` whatever the actions set.
   */
  lemma ConditionalOverridesHidden(d: Desc, key: Value, inputType: Caster, ext: Externals)
    requires HasConditions(d.raw) == Ok(true)
    requires Truthy(Get(Get(d.raw, "conditional").entries, "json"))
    requires LogicAndConditionSpec(d, key, inputType, ext).ok
    ensures Get(d.raw, "conditional").VDict?
    ensures var j := Get(Get(d.raw, "conditional").entries, "json");
      ext.jsonLogic(j, Context).Some?
      && VStr("hidden") in LogicAndConditionSpec(d, key, inputType, ext).d.cfg
      && LogicAndConditionSpec(d, key, inputType, ext).d.cfg[VStr("hidden")] == Bool(!Truthy(ext.jsonLogic(j, Context).value))
  {
    var s1 := if HasLogic(d.raw) then EvalLogicSpec(d, key, inputType, ext) else Step(d, true);
    EvalLogicTame(d, key, inputType, ext, "conditional");
    assert Lookup(s1.d.raw, "conditional") == Lookup(d.raw, "conditional");
    assert HasConditions(s1.d.raw) == Ok(true);
  }
}
