/**
 * The schema compiler `FormioModelMaker`: it walks the component tree of a
 * form in document order, dispatches every node that is not a layout to
 * its `add_<type>` handler, which appends a `(type, default)` row to the
 * field table `components`, and collects the metadata lists and maps of
 * the model on the way. Layout nodes (`columns`, `panel`, `tabs`) are
 * transparent: their children are walked in their place.
 */
module Compiler {
  import opened Values
  import opened Inference
  import opened Descriptors
  import opened Components

  // ---------------------------------------------------------------------
  // Dispatch

  /** Node kinds that never become a field of their own. */
  const NoCreate: set<Value> := {VStr("tabs"), VStr("columns"), VStr("button"), VStr("panel"), VStr("form"),
                                 VStr("fieldset"), VStr("resource"), VStr("table"), VStr("well"), VStr("htmlelement")}

  /** Node kinds whose children are walked in their place. */
  const Layout: set<Value> := {VStr("tabs"), VStr("columns"), VStr("panel")}

  /** The kinds of the `mapper` table that handlers read. */
  predicate MapperKind(kind: string)
  {
    kind in {"textfield", "password", "file", "email", "content", "textarea", "number", "number_f", "select",
             "select_multi", "checkbox", "radio", "survey", "jsondata", "datetime"}
  }

  /** The `mapper` row of a kind: the declared type and the default of its field. */
  function Mapper(kind: string, ext: Externals): (PyType, Value)
    requires MapperKind(kind)
  {
    if kind == "file" then (ListOf(DictT), VList([]))
    else if kind == "number" then (IntT, VInt(0))
    else if kind == "number_f" then (FloatT, VFloat(0.0))
    else if kind == "select_multi" then (AnyList, VList([]))
    else if kind == "checkbox" then (BoolT, VBool(false))
    else if kind == "survey" || kind == "jsondata" then (DictT, VDict([]))
    else if kind == "datetime" then (DateTimeT, ext.defaultDt)
    else (StrT, VStr(""))
  }

  /** What `compute_component_field` finds for a node: an `add_<type>` handler that adds a row, one that nests a model, or none. */
  datatype Handler = Row(todo: (PyType, Value)) | Nested | NoHandler

  /**
   * The handler named after the node's type and the row it starts from; a
   * `textarea` whose `properties` is not a dictionary raises while choosing.
   */
  function HandlerOf(comp: Entries, ext: Externals): Result<Handler>
  {
    var t := Get(comp, "type");
    if !t.VStr? then Ok(NoHandler)
    else
      var k := t.s;
      if k == "number" then
        Ok(Row(if Truthy(Get(comp, "requireDecimal")) then Mapper("number_f", ext) else Mapper("number", ext)))
      else if k == "numer_decimal" then Ok(Row(Mapper("number_f", ext)))
      else if k == "select" then
        Ok(Row(if GetOr(comp, "multiple", VBool(false)) == VBool(false) then Mapper("select", ext) else Mapper("select_multi", ext)))
      else if k == "textarea" then
        match DictGet(GetOr(comp, "properties", VDict([])), "type", VStr(""))
        case Fail(m) => Fail(m)
        case Ok(pt) => Ok(Row(if pt == VStr("json") then Mapper("jsondata", ext) else Mapper("textarea", ext)))
      else if k == "textarea_json" then Ok(Row(Mapper("jsondata", ext)))
      else if k == "day" then Ok(Row(Mapper("datetime", ext)))
      else if k in {"textfield", "password", "datetime", "checkbox", "radio", "survey", "content", "email", "file"} then
        Ok(Row(Mapper(k, ext)))
      else if k in {"nested", "form", "table", "datagrid"} then Ok(Nested)
      else Ok(NoHandler)
  }

  /** The type converter a field's descriptor gets: `str` for a datetime node, else the row's type. */
  function InputTypeOf(comp: Entries, todo: (PyType, Value)): Caster
  {
    if Get(comp, "type") == VStr("datetime") then ToStr else CasterOf(todo.0)
  }

  /** The descriptor class of a node, or the error its constructor raises. */
  function VariantOf(comp: Entries): Result<Variant>
  {
    var t := Get(comp, "type");
    if !Hashable(Get(comp, "key")) then Fail("TypeError: unhashable type")
    else if t == VStr("select") then
      match SelectInitOf(comp)
      case Fail(m) => Fail(m)
      case Ok(si) => Ok(Select(si))
    else if t == VStr("survey") then Ok(Survey)
    else Ok(Plain)
  }

  /** The configured descriptor of a node: its normalised node and configuration, or the error that drops it. */
  function Configured(comp: Entries): Result<(Entries, Cfg)>
  {
    match VariantOf(comp)
    case Fail(m) => Fail(m)
    case Ok(v) => Configure(comp, v, map[])
  }

  /** The `transform` to record, if any: `.copy()` raises on a truthy value that is neither a dictionary nor a list. */
  function TransformOf(cfg: Cfg): Result<Option<Value>>
  {
    var tr := Lookup0(cfg, "transform", VBool(false));
    if !Truthy(tr) then Ok(None)
    else if tr.VDict? || tr.VList? then Ok(Some(tr))
    else Fail("AttributeError: object has no attribute 'copy'")
  }

  /** The row a field gets: the mapper row, with a truthy `defaultValue` in place of the default. */
  function RowEntry(comp: Entries, todo: (PyType, Value)): (r: (PyType, Value))
    ensures r.0 == todo.0
    ensures Truthy(Get(comp, "defaultValue")) ==> r.1 == Get(comp, "defaultValue")
    ensures !Truthy(Get(comp, "defaultValue")) ==> r.1 == todo.1
  {
    if Truthy(Get(comp, "defaultValue")) then (todo.0, Get(comp, "defaultValue")) else todo
  }

  /** `fields_limit_value` as intended: the bounds of each field under its key. */
  function LimitTable(prev: seq<(Value, Value)>, key: Value, limits: Option<Value>): seq<(Value, Value)>
  {
    match limits
    case None => prev
    case Some(l) => Put(prev, key, l)
  }

  /** `fields_limit_value` as written: each field with bounds replaces the whole table by its own bounds. */
  function LimitTableAsWritten(prev: Value, limits: Option<Value>): Value
  {
    match limits
    case None => prev
    case Some(l) => l
  }

  /** Keyed by field, recording one field's bounds leaves every other field's bounds as they were. */
  lemma LimitTableKeeps(prev: seq<(Value, Value)>, key: Value, limits: Option<Value>, k: Value)
    ensures Lookup(LimitTable(prev, key, limits), k) ==
      if limits.Some? && k == key then Some(limits.value) else Lookup(prev, k)
  {
    if limits.Some? {
      LookupPut(prev, key, limits.value, k);
    }
  }

  /**
   * Two fields with bounds: as written, the table ends up as the second
   * field's bounds, keyed by `min` and `max` rather than by field, so the
   * first field's bounds are lost; keyed by field, both are kept.
   */
  lemma LimitTableFinding(k1: Value, lo1: Value, hi1: Value, k2: Value, lo2: Value, hi2: Value)
    requires k1 != k2
    ensures var l1 := VDict([("min", lo1), ("max", hi1)]);
      var l2 := VDict([("min", lo2), ("max", hi2)]);
      LimitTableAsWritten(LimitTableAsWritten(VDict([]), Some(l1)), Some(l2)) == l2
      && Lookup(LimitTable(LimitTable([], k1, Some(l1)), k2, Some(l2)), k1) == Some(l1)
      && Lookup(LimitTable(LimitTable([], k1, Some(l1)), k2, Some(l2)), k2) == Some(l2)
  {
    var l1 := VDict([("min", lo1), ("max", hi1)]);
    var l2 := VDict([("min", lo2), ("max", hi2)]);
    LookupPut([], k1, l1, k1);
    LookupPut(Put([], k1, l1), k2, l2, k1);
    LookupPut(Put([], k1, l1), k2, l2, k2);
  }

  // ---------------------------------------------------------------------
  // The walk, in document order

  /** The nodes a walk hands to `compute_component_field`, in order, and whether it ended without raising. */
  datatype Visit = Visit(leaves: seq<Entries>, ok: bool)

  /** `b` after `a`, unless `a` raised. */
  function AndThen(a: Visit, b: Visit): Visit
  {
    if !a.ok then a else Visit(a.leaves + b.leaves, b.ok)
  }

  /** An element of the list a node is iterated into is no larger than the node. */
  lemma IterateSmaller(v: Value, i: nat)
    requires Iterate(v).Ok? && i < |Iterate(v).value|
    ensures Size(Iterate(v).value[i]) <= Size(v)
  {
    if v.VList? {
      ItemSmaller(v.items, i);
    }
  }

  /** A child of a node stored under `k` and iterated is smaller than the node. */
  lemma ChildSmaller(comp: Entries, k: string, default: Value, i: nat)
    requires default == VNone || default == VList([])
    requires Iterate(GetOr(comp, k, default)).Ok? && i < |Iterate(GetOr(comp, k, default)).value|
    ensures Size(Iterate(GetOr(comp, k, default)).value[i]) < Size(VDict(comp))
  {
    IterateSmaller(GetOr(comp, k, default), i);
    if Lookup(comp, k).Some? {
      LookupSmaller(comp, k);
    }
  }

  /** One node met inside a layout: a field, a nested layout, or nothing; `.get` on a non-dictionary raises. */
  function ItemVisit(item: Value): Visit
    decreases Size(item), 6
  {
    if !item.VDict? then Visit([], false)
    else
      var t := Get(item.entries, "type");
      if t !in NoCreate then Visit([item.entries], true)
      else if t in Layout then Visit(LayoutVisit(item.entries), true)
      else Visit([], true)
  }

  /** The nodes of a layout, whatever raised on the way: `eval_component` logs the error and the walk goes on. */
  function LayoutVisit(comp: Entries): seq<Entries>
    decreases Size(VDict(comp)), 5
  {
    var t := Get(comp, "type");
    if t == VStr("columns") then
      (match Iterate(Get(comp, "columns"))
       case Fail(_) => []
       case Ok(cols) =>
         assert forall i :: 0 <= i < |cols| ==> Size(cols[i]) < Size(VDict(comp)) by {
           forall i | 0 <= i < |cols| { ChildSmaller(comp, "columns", VNone, i); }
         }
         GroupsVisit(cols, 0, Size(VDict(comp))).leaves)
    else if t == VStr("panel") || t == VStr("tabs") then
      (match Iterate(GetOr(comp, "components", VList([])))
       case Fail(_) => []
       case Ok(xs) =>
         assert forall i :: 0 <= i < |xs| ==> Size(xs[i]) < Size(VDict(comp)) by {
           forall i | 0 <= i < |xs| { ChildSmaller(comp, "components", VList([]), i); }
         }
         if t == VStr("panel") then ItemsVisit(xs, 0, Size(VDict(comp))).leaves
         else GroupsVisit(xs, 0, Size(VDict(comp))).leaves)
    else []
  }

  /** The groups of a `columns` or `tabs` node: each group's `components`, which it must hold. */
  function GroupsVisit(groups: seq<Value>, from: nat, bound: nat): Visit
    requires from <= |groups| && forall i :: 0 <= i < |groups| ==> Size(groups[i]) < bound
    decreases bound, 3, |groups| - from
  {
    if from == |groups| then Visit([], true)
    else AndThen(GroupVisit(groups[from], bound), GroupsVisit(groups, from + 1, bound))
  }

  function GroupVisit(group: Value, bound: nat): Visit
    requires Size(group) < bound
    decreases bound, 2
  {
    match Index(group, "components")
    case Fail(_) => Visit([], false)
    case Ok(c) =>
      match Iterate(c)
      case Fail(_) => Visit([], false)
      case Ok(xs) =>
        assert forall i :: 0 <= i < |xs| ==> Size(xs[i]) < bound by {
          forall i | 0 <= i < |xs| ensures Size(xs[i]) < bound {
            IterateSmaller(c, i);
            LookupSmaller(group.entries, "components");
          }
        }
        ItemsVisit(xs, 0, bound)
  }

  /** The nodes of one container, in order, stopping at the first that raises. */
  function ItemsVisit(items: seq<Value>, from: nat, bound: nat): Visit
    requires from <= |items| && forall i :: 0 <= i < |items| ==> Size(items[i]) < bound
    decreases bound, 1, |items| - from
  {
    if from == |items| then Visit([], true)
    else AndThen(ItemVisit(items[from]), ItemsVisit(items, from + 1, bound))
  }

  /** `_scan` of one entry of the top-level list: a node without a type is skipped. */
  function ScanVisit(c: Value): Visit
  {
    if !c.VDict? then Visit([], false)
    else if !Truthy(Get(c.entries, "type")) then Visit([], true)
    else ItemVisit(c)
  }

  /** The top-level list, in order, stopping at the first entry that is not a dictionary. */
  function TodoVisit(todo: seq<Value>, from: nat): Visit
    requires from <= |todo|
    decreases |todo| - from
  {
    if from == |todo| then Visit([], true)
    else AndThen(ScanVisit(todo[from]), TodoVisit(todo, from + 1))
  }

  /** The top-level list `schema.get("components")[:]`: a list, or a string's characters; anything else raises. */
  function TodoOf(schema: Entries): Result<seq<Value>>
  {
    var c := Get(schema, "components");
    if c.VList? || c.VStr? then Iterate(c) else Fail("TypeError: object is not subscriptable")
  }

  /** `d` before what `v` visits. */
  function Prepend(d: seq<Entries>, v: Visit): Visit
  {
    Visit(d + v.leaves, v.ok)
  }

  /** The nodes `make` adds when the form has no `rec_name` field, or a `data_model` and no field of that name. */
  function DefaultNode(key: string, caption: string, default: Value): Entries
  {
    [("type", VStr("textfield")), ("key", VStr(key)), ("label", VStr(caption)), ("hidden", VBool(true)),
     ("defaultValue", default)]
  }

  function RecNameNode(): Entries { DefaultNode("rec_name", "Name", VStr("")) }

  function DataModelNode(dataModel: Value): Entries { DefaultNode("data_model", "Data Model", dataModel) }

  // ---------------------------------------------------------------------
  // The builder's tables

  /**
   * The lists and dictionaries a builder fills while it compiles a form:
   * the unique, required and no-clone keys, the server-computed fields,
   * the copied `properties`, transforms and bounds, the conditionals and
   * logic, the table columns, the fieldset actions, the default hidden,
   * readonly and required keys, each field's configuration, and a copy
   * of every input node.
   */
  datatype Tables = Tables(
    uniqueFields: seq<Value>, requiredFields: seq<Value>, noCloneFieldKeys: seq<Value>,
    computedFields: seq<(Value, Value)>, fieldsProperties: seq<(Value, Value)>,
    transformDataValue: seq<(Value, Value)>, fieldsLimitValue: seq<(Value, Value)>,
    conditional: seq<(Value, Value)>, logic: seq<(Value, Value)>, columns: seq<(Value, Value)>,
    createTaskAction: seq<Value>, hiddenFields: seq<Value>, readonlyFields: seq<Value>,
    requiredDefaults: seq<Value>, configFields: seq<(Value, Cfg)>, fields: seq<Entries>)

  /** The tables of a new builder: `rec_name` is unique, required and never cloned. */
  function InitialTables(): (t: Tables)
    ensures TablesValid(t)
  {
    Tables([VStr("rec_name")], [VStr("rec_name")], [VStr("rec_name")], [], [], [], [], [], [], [], [], [], [], [], [], [])
  }

  /** `rec_name` heads the unique, required and no-clone keys, and every unique key is also a no-clone key. */
  predicate TablesValid(t: Tables)
  {
    |t.uniqueFields| > 0 && t.uniqueFields[0] == VStr("rec_name")
    && |t.requiredFields| > 0 && t.requiredFields[0] == VStr("rec_name")
    && |t.noCloneFieldKeys| > 0 && t.noCloneFieldKeys[0] == VStr("rec_name")
    && forall k :: k in t.uniqueFields ==> k in t.noCloneFieldKeys
  }

  /** The tables apart from the copies of the input nodes. */
  function WithoutFields(t: Tables): Tables
  {
    t.(fields := [])
  }

  /** The key `k` of a flag the configuration sets. */
  function Flagged(cfg: Cfg, k: string, key: Value): seq<Value>
  {
    if Truthy(Lookup0(cfg, k, VNone)) then [key] else []
  }

  /**
   * What `complete_component_field` books for a configured field: its key
   * among the required keys, among the unique and no-clone keys, the
   * server-computed value, and the no-clone key once.
   */
  function Booked(t: Tables, key: Value, cfg: Cfg): (r: Tables)
    ensures TablesValid(t) ==> TablesValid(r)
    ensures Truthy(Lookup0(cfg, "unique", VNone)) ==> key in r.uniqueFields && key in r.noCloneFieldKeys
    ensures Truthy(Lookup0(cfg, "calculateServer", Bool(false))) ==>
      key in r.noCloneFieldKeys && Lookup(r.computedFields, key) == Some(Lookup0(cfg, "calculateServer", Bool(false)))
    ensures Truthy(NoClone(cfg)) ==> key in r.noCloneFieldKeys
    ensures Truthy(Lookup0(cfg, "required", VNone)) <==> |r.requiredFields| == |t.requiredFields| + 1
    ensures t.noCloneFieldKeys <= r.noCloneFieldKeys && t.requiredFields <= r.requiredFields
    ensures WithoutFields(r).(uniqueFields := t.uniqueFields, requiredFields := t.requiredFields,
                              noCloneFieldKeys := t.noCloneFieldKeys, computedFields := t.computedFields) == WithoutFields(t)
    ensures r.fields == t.fields
  {
    var uniq := Flagged(cfg, "unique", key);
    var nc := t.noCloneFieldKeys + uniq;
    var cs := Lookup0(cfg, "calculateServer", Bool(false));
    LookupPut(t.computedFields, key, cs, key);
    t.(requiredFields := t.requiredFields + Flagged(cfg, "required", key),
       uniqueFields := t.uniqueFields + uniq,
       computedFields := if Truthy(cs) then Put(t.computedFields, key, cs) else t.computedFields,
       noCloneFieldKeys := nc + (if Truthy(NoClone(cfg)) && key !in nc then [key] else []))
  }

  /** The transform and the bounds `complete_component_field` records, the bounds keyed by field. */
  function Transformed(t: Tables, key: Value, transform: Option<Value>, limits: Option<Value>): Tables
  {
    t.(transformDataValue := if transform.Some? then Put(t.transformDataValue, key, transform.value) else t.transformDataValue,
       fieldsLimitValue := LimitTable(t.fieldsLimitValue, key, limits))
  }

  /**
   * What `complete_component` records for a descriptor holding `raw` and
   * `cfg`, apart from the copy of an input node: the table column, a
   * table's server-computed value, a fieldset action, a copy of a
   * non-empty `properties` block, the default flags and, unless the
   * `conditional` block raises, the conditional, the logic and the
   * configuration.
   */
  function CompleteTables(t: Tables, raw: Entries, cfg: Cfg): (r: Tables)
    ensures TablesValid(t) ==> TablesValid(r)
    ensures r.uniqueFields == t.uniqueFields && r.requiredFields == t.requiredFields && r.noCloneFieldKeys == t.noCloneFieldKeys
    ensures r.fields == t.fields
    ensures Truthy(Lookup0(cfg, "hidden", VNone)) <==> r.hiddenFields == t.hiddenFields + [Get(raw, "key")]
    ensures HasConditions(raw).Ok? ==> Lookup(r.configFields, Get(raw, "key")) == Some(cfg)
    ensures HasConditions(raw).Fail? ==> r.configFields == t.configFields && r.conditional == t.conditional && r.logic == t.logic
  {
    var key := Get(raw, "key");
    var hc := HasConditions(raw);
    var props := PropsOf(raw);
    var t1 := t.(
      columns := if Truthy(GetOr(raw, "tableView", Bool(false))) then Put(t.columns, key, Label(raw)) else t.columns,
      computedFields := if Get(raw, "type") == VStr("table") then Put(t.computedFields, key, Lookup0(cfg, "calculateServer", Bool(false)))
                        else t.computedFields,
      createTaskAction := t.createTaskAction + (if Get(raw, "type") == VStr("fieldset") then Flagged(cfg, "action_type", key) else []),
      fieldsProperties := if props != [] then Put(t.fieldsProperties, key, VDict(props)) else t.fieldsProperties,
      hiddenFields := t.hiddenFields + Flagged(cfg, "hidden", key),
      readonlyFields := t.readonlyFields + Flagged(cfg, "readonly", key),
      requiredDefaults := t.requiredDefaults + Flagged(cfg, "required", key));
    if hc.Fail? then t1
    else
      LookupPut(t1.configFields, key, cfg, key);
      t1.(conditional := if hc.value then Put(t1.conditional, key, GetOr(raw, "conditional", VDict([]))) else t1.conditional,
          logic := if HasLogic(raw) then Put(t1.logic, key, GetOr(raw, "logic", VList([]))) else t1.logic,
          configFields := Put(t1.configFields, key, cfg))
  }

  /**
   * The entry `fields` gets for an input: a shallow copy of the node taken
   * before the logic ran, which shares the `properties` dictionary with
   * the descriptor and so sees what the logic wrote into it.
   */
  function SharedProps(raw0: Entries, raw1: Entries): Entries
  {
    if Get(raw0, "properties").VDict? then Put(raw0, "properties", Get(raw1, "properties")) else raw0
  }

  /** Configuring a node keeps the keys `complete_component_field` reads back: `key`, `input`, `defaultValue` and `conditional`. */
  lemma ConfiguredKeeps(comp: Entries)
    requires Configured(comp).Ok?
    ensures var raw := Configured(comp).value.0;
      Get(raw, "key") == Get(comp, "key") && Get(raw, "input") == Get(comp, "input")
      && Get(raw, "defaultValue") == Get(comp, "defaultValue") && HasConditions(raw) == HasConditions(comp)
  {
    NormalizedGet(comp, "key");
    NormalizedGet(comp, "input");
    NormalizedGet(comp, "defaultValue");
    NormalizedLookup(comp, "conditional");
  }

  /** Whether `complete_component_field` gets as far as recording the field's row. */
  predicate FieldOk(comp: Entries)
  {
    Configured(comp).Ok? && TransformOf(Configured(comp).value.1).Ok?
  }

  /** The tables once a descriptor configured as `raw` and `cfg` is recorded under `key`, apart from the copy of an input node. */
  function RecordedTables(t: Tables, key: Value, raw: Entries, cfg: Cfg): Tables
  {
    var t1 := Booked(t, key, cfg);
    match TransformOf(cfg)
    case Fail(_) => t1
    case Ok(tr) => CompleteTables(Transformed(t1, key, tr, LimitValues(cfg)), raw, cfg)
  }

  /** The tables after `complete_component_field`, apart from the copy of an input node. */
  function FieldTables(t: Tables, comp: Entries): Tables
  {
    match Configured(comp)
    case Fail(_) => t
    case Ok(rc) => RecordedTables(t, Get(comp, "key"), rc.0, rc.1)
  }

  /** Whether a nested model compiles: a hashable key and a `components` list whose entries are all dictionaries. */
  predicate NestedOk(comp: Entries)
  {
    Hashable(Get(comp, "key")) && TodoOf(comp).Ok? && TodoVisit(TodoOf(comp).value, 0).ok
  }

  /**
   * What `eval_components` leaves in the registry `r` for a node `raw`: its
   * input key, its table column, its filter at most once per key, and its
   * descriptor among those with logic or conditions.
   */
  twostate predicate Evaluated(r: Registry, raw: Entries)
    reads r
  {
    var key := Get(raw, "key");
    var f := Filtered(raw, old(r.filterKeys));
    var hc := HasConditions(raw);
    r.componentsKeys == old(r.componentsKeys) + (if Truthy(Get(raw, "input")) then [key] else [])
    && r.tableColumns ==
         (if Truthy(GetOr(raw, "tableView", Bool(false))) then Put(old(r.tableColumns), key, Label(raw)) else old(r.tableColumns))
    && r.filterKeys == old(r.filterKeys) + (if f then [key] else [])
    && |r.filters| == |old(r.filters)| + (if f then 1 else 0)
    && |r.componentsLogic| == |old(r.componentsLogic)| + (if HasLogic(raw) || (hc.Ok? && hc.value) then 1 else 0)
  }

  /** Nothing `eval_components` registers has changed in `r`. */
  twostate predicate Untouched(r: Registry)
    reads r
  {
    r.componentsKeys == old(r.componentsKeys) && r.tableColumns == old(r.tableColumns)
    && r.filterKeys == old(r.filterKeys) && r.filters == old(r.filters)
    && r.componentsLogic == old(r.componentsLogic)
  }

  /** The builder `FormioModelMaker`, with the descriptors' registry of its own and the one they write into. */
  class Builder {
    const reg: Registry
    const target: Registry
    const ext: Externals
    var modelName: Value
    var parent: Value
    var todo: seq<Value>
    var componentProps: Value
    var dataModel: Value
    var components: seq<(Value, (PyType, Value))>
    var modelFormFields: seq<(Value, Field)>
    var tables: Tables
    /** The nodes handed to `compute_component_field` so far, in order. */
    ghost var dispatched: seq<Entries>

    predicate Valid()
      reads this`tables, reg`filterKeys, reg`related, target`filterKeys, target`related
    {
      reg.Valid() && target.Valid() && TablesValid(tables)
    }

    /** `FormioModelMaker(model_name)`; a nested builder writes its descriptors into `parentReg`. */
    constructor(modelName: Value, parentReg: Registry?, ext: Externals)
      requires parentReg != null ==> parentReg.Valid()
      ensures Valid() && fresh(reg) && this.ext == ext && this.modelName == modelName
      ensures target == if parentReg == null then reg else parentReg
      ensures parent == VNone && todo == [] && dataModel == VStr("") && components == [] && modelFormFields == []
      ensures tables == InitialTables() && dispatched == []
    {
      var r := new Registry();
      reg := r;
      target := if parentReg == null then r else parentReg;
      this.ext := ext;
      this.modelName := modelName;
      parent, todo, componentProps, dataModel := VNone, [], VDict([]), VStr("");
      components, modelFormFields, tables := [], [], InitialTables();
      dispatched := [];
    }

    /** `field.eval_components()`, whose errors `complete_component` logs: `ok` is false when it raised. */
    method Evaluate(field: Field) returns (ok: bool)
      requires Valid() && (field.builder == reg || field.builder == target)
      modifies field`raw, field`cfg, field.builder`componentsKeys, field.builder`filterKeys, field.builder`filters
      modifies field.builder`tableColumns, field.builder`componentsLogic, field.builder`related
      ensures Valid() && RegistryGrew(field.builder)
      ensures field.Registered(old(field.raw), old(field.builder.componentsKeys), old(field.builder.tableColumns),
        old(field.builder.filterKeys), old(field.builder.filters))
      ensures var raw0, hc := old(field.raw), HasConditions(old(field.raw));
        if !HasLogic(raw0) && hc.Fail? then
          !ok && field.State() == old(field.State()) && field.builder.componentsLogic == old(field.builder.componentsLogic)
        else
          field.builder.componentsLogic == old(field.builder.componentsLogic) + (if HasLogic(raw0) || hc.value then [field] else [])
          && if Get(raw0, "type") == VStr("table") then ok && field.State() == old(field.State())
             else Step(field.State(), ok) == LogicAndConditionSpec(old(field.State()), Get(raw0, "key"), field.inputType, field.ext)
    {
      ok := field.EvalComponents();
    }

    /**
     * `complete_component`: records the descriptor in the builder's
     * tables, then registers it and runs its logic, whose errors are
     * logged; a `conditional` that is not a dictionary raises before.
     */
    method CompleteComponent(field: Field) returns (ok: bool)
      requires Valid() && (field.builder == reg || field.builder == target)
      modifies this`tables, field`raw, field`cfg
      modifies field.builder`componentsKeys, field.builder`filterKeys, field.builder`filters
      modifies field.builder`tableColumns, field.builder`componentsLogic, field.builder`related
      ensures Valid() && RegistryGrew(field.builder)
      ensures var raw0 := old(field.raw);
        WithoutFields(tables) == WithoutFields(CompleteTables(old(tables), raw0, old(field.cfg)))
        && tables.fields == old(tables.fields) + (if Truthy(Get(raw0, "input")) then [SharedProps(raw0, field.raw)] else [])
        && ok == HasConditions(raw0).Ok?
      ensures !Truthy(Get(old(field.raw), "input")) ==> field.builder.componentsKeys == old(field.builder.componentsKeys)
      ensures ok ==> field.Registered(old(field.raw), old(field.builder.componentsKeys), old(field.builder.tableColumns),
        old(field.builder.filterKeys), old(field.builder.filters))
      ensures ok ==> var raw0 := old(field.raw);
        field.builder.componentsLogic ==
          old(field.builder.componentsLogic) + (if HasLogic(raw0) || HasConditions(raw0).value then [field] else [])
      ensures var raw0 := old(field.raw);
        var d0 := Desc(PropsFixed(raw0), old(field.cfg), old(field.builder.related));
        field.State() ==
          if !ok || Get(raw0, "type") == VStr("table") then d0
          else LogicAndConditionSpec(d0, Get(raw0, "key"), field.inputType, field.ext).d
      ensures !ok ==> Untouched(field.builder)
    {
      var raw0, cfg0 := field.raw, field.cfg;
      var _ := field.Properties();
      PropsFixedKeeps(raw0);
      tables := CompleteTables(tables, raw0, cfg0);
      ok := HasConditions(raw0).Ok?;
      if ok {
        var _ := Evaluate(field);
      }
      if Truthy(Get(raw0, "input")) {
        tables := tables.(fields := tables.fields + [SharedProps(raw0, field.raw)]);
      }
    }

    /**
     * The first half of `complete_component_field`: the descriptor, built
     * into the registry it writes to (the parent builder's for a nested
     * model), configured, and given the builder's parent.
     */
    method ConfigureField(comp: Entries, todo: (PyType, Value)) returns (f: Field?)
      requires Valid()
      modifies target`componentsExtDataSrc
      ensures Valid() && RegistryGrew(target) && target.componentsKeys == old(target.componentsKeys)
      ensures (f != null) == Configured(comp).Ok?
      ensures f != null ==> fresh(f) && f.builder == target && Configured(comp) == Ok((f.raw, f.cfg))
    {
      f := NewField(comp, target, InputTypeOf(comp, todo), ext);
      if f == null {
        return;
      }
      var ok := f.UpdateConfig();
      if !ok {
        f := null;
        return;
      }
      f.SetParent(parent);
    }

    /**
     * The second half: books the descriptor's keys, records its transform
     * and bounds, sets its row (a `transform` that cannot be copied raises
     * before), and completes it.
     */
    method RecordField(f: Field, todo: (PyType, Value)) returns (ok: bool)
      requires Valid() && f.builder == target
      modifies this`components, this`tables, f`raw, f`cfg
      modifies target`componentsKeys, target`filterKeys, target`filters, target`tableColumns, target`componentsLogic, target`related
      ensures Valid() && RegistryGrew(target)
      ensures !Truthy(Get(old(f.raw), "input")) ==> target.componentsKeys == old(target.componentsKeys)
      ensures if ok then Evaluated(target, old(f.raw)) else Untouched(target)
      ensures var raw0, cfg0 := old(f.raw), old(f.cfg);
        var key := Get(raw0, "key");
        components == (if TransformOf(cfg0).Ok? then Put(old(components), key, RowEntry(raw0, todo)) else old(components))
        && WithoutFields(tables) == WithoutFields(RecordedTables(old(tables), key, raw0, cfg0))
        && old(tables.fields) <= tables.fields
        && ok == (TransformOf(cfg0).Ok? && HasConditions(raw0).Ok?)
    {
      var key, cfg := f.Key(), f.cfg;
      tables := Booked(tables, key, cfg);
      var tr := TransformOf(cfg);
      if tr.Fail? {
        return false;
      }
      tables := Transformed(tables, key, tr.value, LimitValues(cfg));
      components := Put(components, key, RowEntry(f.raw, todo));
      ok := CompleteComponent(f);
    }

    /** `complete_component_field`: the descriptor configured, then recorded. */
    method CompleteComponentField(comp: Entries, todo: (PyType, Value)) returns (ok: bool)
      requires Valid()
      modifies this`components, this`tables, target
      ensures Valid() && RegistryGrew(target)
      ensures !Truthy(Get(comp, "input")) ==> target.componentsKeys == old(target.componentsKeys)
      ensures components == if FieldOk(comp) then Put(old(components), Get(comp, "key"), RowEntry(comp, todo)) else old(components)
      ensures WithoutFields(tables) == WithoutFields(FieldTables(old(tables), comp))
      ensures old(tables.fields) <= tables.fields
      ensures ok == (FieldOk(comp) && HasConditions(comp).Ok?)
      ensures if ok then Evaluated(target, comp) else Untouched(target)
    {
      var f := ConfigureField(comp, todo);
      if f == null {
        return false;
      }
      ConfiguredKeeps(comp);
      NormalizedGet(comp, "tableView");
      NormalizedGet(comp, "label");
      NormalizedGet(comp, "type");
      NormalizedGet(comp, "logic");
      NormalizedLookup(comp, "tableView");
      ok := RecordField(f, todo);
    }

    /** What `add_nested` leaves: the nested model's row, its descriptor, and its tables, when the nested form compiles. */
    twostate predicate NestedRecorded(comp: Entries)
      reads this
    {
      var key := Get(comp, "key");
      var r := Lookup(components, key);
      if NestedOk(comp) then
        r.Some? && r.value.0.ListOfModel? && r.value.0.name == key && r.value.1 == VList([])
        && components == Put(old(components), key, r.value)
        && Lookup(modelFormFields, key).Some?
        && WithoutFields(tables) == WithoutFields(CompleteTables(old(tables), comp, map[]))
      else
        components == old(components) && tables == old(tables) && modelFormFields == old(modelFormFields)
    }

    /**
     * `add_nested`: compiles the node's own `components` with a nested
     * builder whose descriptors write into this builder's registry, and
     * records the list of nested rows as one field.
     */
    method AddNested(comp: Entries) returns (ok: bool)
      requires Valid()
      modifies this`components, this`tables, this`modelFormFields, reg, target
      decreases Size(VDict(comp)), 5
      ensures Valid() && NestedRecorded(comp)
      ensures ok == (NestedOk(comp) && HasConditions(comp).Ok?)
    {
      var key := Get(comp, "key");
      var g, rows := BuildNested(comp);
      if g == null {
        return false;
      }
      var f: Field := g;
      LookupPut(modelFormFields, key, f, key);
      modelFormFields := Put(modelFormFields, key, f);
      var row := (ListOfModel(key, rows), VList([]));
      LookupPut(components, key, row, key);
      components := Put(components, key, row);
      ok := CompleteComponent(f);
    }

    /**
     * The nested model of `add_nested`: a plain descriptor for the node,
     * and the rows of the nested builder, whose descriptors became the
     * descriptor's children.
     */
    method BuildNested(comp: Entries) returns (f: Field?, rows: seq<(Value, (PyType, Value))>)
      requires Valid()
      modifies reg
      decreases Size(VDict(comp)), 4
      ensures Valid() && (f != null) == NestedOk(comp)
      ensures f != null ==> fresh(f) && f.builder == reg && f.raw == comp && f.cfg == map[]
    {
      var key := Get(comp, "key");
      if !Hashable(key) {
        return null, [];
      }
      f := new Field(comp, reg, NotCallable, Plain, ext);
      var nested := new Builder(key, reg, ext);
      var built := nested.FromFormio(comp, key);
      if !built {
        return null, [];
      }
      f.SetChilds(nested.modelFormFields);
      rows := nested.components;
    }

    /**
     * `compute_component_field`: calls the node's `add_<type>` handler and
     * logs whatever it raises; a node without a handler adds nothing.
     */
    method ComputeComponentField(comp: Entries)
      requires Valid()
      modifies this`components, this`tables, this`modelFormFields, this`dispatched, reg, target
      decreases Size(VDict(comp)), 6
      ensures Valid() && dispatched == old(dispatched) + [comp]
      ensures var h := HandlerOf(comp, ext);
        match h
        case Ok(Row(todo)) =>
          components == (if FieldOk(comp) then Put(old(components), Get(comp, "key"), RowEntry(comp, todo)) else old(components))
          && WithoutFields(tables) == WithoutFields(FieldTables(old(tables), comp))
        case Ok(Nested) => NestedRecorded(comp)
        case _ => components == old(components) && tables == old(tables) && modelFormFields == old(modelFormFields)
    {
      dispatched := dispatched + [comp];
      var h := HandlerOf(comp, ext);
      if h.Fail? || h.value.NoHandler? {
        return;
      }
      if h.value.Row? {
        var _ := CompleteComponentField(comp, h.value.todo);
      } else {
        var _ := AddNested(comp);
      }
    }

    /** One node met inside a layout: a field is computed, a nested layout walked. */
    method DispatchItem(item: Value) returns (ok: bool)
      requires Valid()
      modifies this`components, this`tables, this`modelFormFields, this`dispatched, reg, target
      decreases Size(item), 8
      ensures Valid() && dispatched == old(dispatched) + ItemVisit(item).leaves && ok == ItemVisit(item).ok
    {
      if !item.VDict? {
        return false;
      }
      var t := Get(item.entries, "type");
      if t !in NoCreate {
        ComputeComponentField(item.entries);
      } else if t in Layout {
        EvalComponent(item.entries);
      }
      ok := true;
    }

    /** `eval_component`: walks a `columns`, `panel` or `tabs` node and logs whatever it raises. */
    method EvalComponent(comp: Entries)
      requires Valid()
      modifies this`components, this`tables, this`modelFormFields, this`dispatched, reg, target
      decreases Size(VDict(comp)), 7
      ensures Valid() && dispatched == old(dispatched) + LayoutVisit(comp)
    {
      var t := Get(comp, "type");
      if t == VStr("columns") {
        var cols := Iterate(Get(comp, "columns"));
        if cols.Ok? {
          forall i | 0 <= i < |cols.value| ensures Size(cols.value[i]) < Size(VDict(comp)) {
            ChildSmaller(comp, "columns", VNone, i);
          }
          var _ := EvalGroups(cols.value, Size(VDict(comp)));
        }
      } else if t == VStr("panel") || t == VStr("tabs") {
        var xs := Iterate(GetOr(comp, "components", VList([])));
        if xs.Ok? {
          forall i | 0 <= i < |xs.value| ensures Size(xs.value[i]) < Size(VDict(comp)) {
            ChildSmaller(comp, "components", VList([]), i);
          }
          if t == VStr("panel") {
            var _ := EvalItems(xs.value, Size(VDict(comp)));
          } else {
            var _ := EvalGroups(xs.value, Size(VDict(comp)));
          }
        }
      }
    }

    /** The loop over the columns of `eval_columns` or the tabs of `eval_tabs`. */
    method EvalGroups(groups: seq<Value>, ghost bound: nat) returns (ok: bool)
      requires Valid() && forall i :: 0 <= i < |groups| ==> Size(groups[i]) < bound
      modifies this`components, this`tables, this`modelFormFields, this`dispatched, reg, target
      decreases bound, 6
      ensures Valid() && dispatched == old(dispatched) + GroupsVisit(groups, 0, bound).leaves && ok == GroupsVisit(groups, 0, bound).ok
    {
      var i := 0;
      ghost var done: seq<Entries> := [];
      while i < |groups|
        invariant 0 <= i <= |groups| && Valid()
        invariant dispatched == old(dispatched) + done
        invariant Prepend(done, GroupsVisit(groups, i, bound)) == GroupsVisit(groups, 0, bound)
      {
        PrependThen(done, GroupVisit(groups[i], bound), GroupsVisit(groups, i + 1, bound));
        ghost var v := GroupVisit(groups[i], bound);
        ok := EvalGroup(groups[i], bound);
        if !ok {
          return;
        }
        done := done + v.leaves;
        i := i + 1;
      }
      ok := true;
    }

    /** One column or tab: its `components`, which it must hold. */
    method EvalGroup(group: Value, ghost bound: nat) returns (ok: bool)
      requires Valid() && Size(group) < bound
      modifies this`components, this`tables, this`modelFormFields, this`dispatched, reg, target
      decreases bound, 5
      ensures Valid() && dispatched == old(dispatched) + GroupVisit(group, bound).leaves && ok == GroupVisit(group, bound).ok
    {
      var c := Index(group, "components");
      if c.Fail? {
        return false;
      }
      var xs := Iterate(c.value);
      if xs.Fail? {
        return false;
      }
      forall i | 0 <= i < |xs.value| ensures Size(xs.value[i]) < bound {
        IterateSmaller(c.value, i);
        LookupSmaller(group.entries, "components");
      }
      ok := EvalItems(xs.value, bound);
    }

    /** The loop over the nodes of one container. */
    method EvalItems(items: seq<Value>, ghost bound: nat) returns (ok: bool)
      requires Valid() && forall i :: 0 <= i < |items| ==> Size(items[i]) < bound
      modifies this`components, this`tables, this`modelFormFields, this`dispatched, reg, target
      decreases bound, 4
      ensures Valid() && dispatched == old(dispatched) + ItemsVisit(items, 0, bound).leaves && ok == ItemsVisit(items, 0, bound).ok
    {
      var i := 0;
      ghost var done: seq<Entries> := [];
      while i < |items|
        invariant 0 <= i <= |items| && Valid()
        invariant dispatched == old(dispatched) + done
        invariant Prepend(done, ItemsVisit(items, i, bound)) == ItemsVisit(items, 0, bound)
      {
        PrependThen(done, ItemVisit(items[i]), ItemsVisit(items, i + 1, bound));
        ghost var v := ItemVisit(items[i]);
        ok := DispatchItem(items[i]);
        if !ok {
          return;
        }
        done := done + v.leaves;
        i := i + 1;
      }
      ok := true;
    }

    /** `_scan`: a top-level node with a type is computed or walked; `.get` on a non-dictionary raises. */
    method Scan(c: Value) returns (ok: bool)
      requires Valid()
      modifies this`components, this`tables, this`modelFormFields, this`dispatched, reg, target
      decreases Size(c), 9
      ensures Valid() && dispatched == old(dispatched) + ScanVisit(c).leaves && ok == ScanVisit(c).ok
    {
      if !c.VDict? {
        return false;
      }
      if !Truthy(Get(c.entries, "type")) {
        return true;
      }
      ok := DispatchItem(c);
    }

    /** The loop of `make` over the top-level list, which stops at the first entry that raises. */
    method ScanTodo(ghost bound: nat) returns (ok: bool)
      requires Valid() && forall i :: 0 <= i < |todo| ==> Size(todo[i]) < bound
      modifies this`components, this`tables, this`modelFormFields, this`dispatched, reg, target
      decreases bound, 1
      ensures Valid() && dispatched == old(dispatched) + TodoVisit(todo, 0).leaves && ok == TodoVisit(todo, 0).ok
    {
      var xs := todo;
      var i := 0;
      ghost var done: seq<Entries> := [];
      while i < |xs|
        invariant 0 <= i <= |xs| && Valid()
        invariant dispatched == old(dispatched) + done
        invariant Prepend(done, TodoVisit(xs, i)) == TodoVisit(xs, 0)
      {
        PrependThen(done, ScanVisit(xs[i]), TodoVisit(xs, i + 1));
        ghost var v := ScanVisit(xs[i]);
        ok := Scan(xs[i]);
        if !ok {
          return;
        }
        done := done + v.leaves;
        i := i + 1;
      }
      ok := true;
    }

    /**
     * One default field of `make`: the node handed to
     * `compute_component_field`, whose `textfield` handler records it as a
     * hidden text field with its default.
     */
    method AddDefault(key: string, caption: string, default: Value)
      requires Valid()
      modifies this`components, this`tables, this`dispatched, target
      ensures Valid() && RegistryGrew(target) && target.componentsKeys == old(target.componentsKeys)
      ensures dispatched == old(dispatched) + [DefaultNode(key, caption, default)]
      ensures components == Put(old(components), VStr(key), (StrT, if Truthy(default) then default else VStr("")))
      ensures tables.hiddenFields == old(tables.hiddenFields) + [VStr(key)]
    {
      var node := DefaultNode(key, caption, default);
      DefaultNodeCompiles(key, caption, default, ext);
      DefaultNodeLookup(key, caption, default, "key");
      DefaultNodeHidden(tables, key, caption, default);
      dispatched := dispatched + [node];
      var _ := CompleteComponentField(node, Mapper("textfield", ext));
    }

    /** The tail of `make`: the hidden `rec_name` field when the form has none, and the `data_model` field. */
    method AddDefaults()
      requires Valid()
      modifies this`components, this`tables, this`dispatched, target
      ensures Valid()
      ensures VStr("rec_name") in reg.componentsKeys || Lookup(components, VStr("rec_name")) == Some((StrT, VStr("")))
      ensures Truthy(dataModel) ==>
        VStr("data_model") in reg.componentsKeys || Lookup(components, VStr("data_model")) == Some((StrT, dataModel))
      ensures dispatched == old(dispatched)
        + (if VStr("rec_name") in old(reg.componentsKeys) then [] else [RecNameNode()])
        + (if Truthy(dataModel) && VStr("data_model") !in old(reg.componentsKeys) then [DataModelNode(dataModel)] else [])
    {
      if VStr("rec_name") !in reg.componentsKeys {
        AddDefault("rec_name", "Name", VStr(""));
        LookupPut(old(components), VStr("rec_name"), (StrT, VStr("")), VStr("rec_name"));
      }
      ghost var mid := components;
      if Truthy(dataModel) && VStr("data_model") !in reg.componentsKeys {
        AddDefault("data_model", "Data Model", dataModel);
        LookupPut(mid, VStr("data_model"), (StrT, dataModel), VStr("data_model"));
        LookupPut(mid, VStr("data_model"), (StrT, dataModel), VStr("rec_name"));
      }
    }

    /** `make`: scans the top-level list, then adds the default fields. */
    method Make(ghost bound: nat) returns (ok: bool)
      requires Valid() && forall i :: 0 <= i < |todo| ==> Size(todo[i]) < bound
      modifies this`components, this`tables, this`modelFormFields, this`dispatched, reg, target
      decreases bound, 2
      ensures Valid() && ok == TodoVisit(todo, 0).ok
      ensures old(dispatched) + TodoVisit(todo, 0).leaves <= dispatched
      ensures ok ==> VStr("rec_name") in reg.componentsKeys || Lookup(components, VStr("rec_name")) == Some((StrT, VStr("")))
      ensures ok && Truthy(dataModel) ==>
        VStr("data_model") in reg.componentsKeys || Lookup(components, VStr("data_model")) == Some((StrT, dataModel))
    {
      ok := ScanTodo(bound);
      if ok {
        AddDefaults();
      }
    }

    /**
     * `from_formio`: takes the schema's `components` list, `properties`
     * and `data_model`, then makes the model.
     */
    method FromFormio(schema: Entries, parent: Value) returns (ok: bool)
      requires Valid()
      modifies this, reg, target
      decreases Size(VDict(schema)), 3
      ensures Valid() && this.parent == parent
      ensures ok == (TodoOf(schema).Ok? && TodoVisit(TodoOf(schema).value, 0).ok)
      ensures TodoOf(schema).Ok? ==> old(dispatched) + TodoVisit(TodoOf(schema).value, 0).leaves <= dispatched
      ensures ok ==> VStr("rec_name") in reg.componentsKeys || Lookup(components, VStr("rec_name")) == Some((StrT, VStr("")))
    {
      this.parent := parent;
      var t := TodoOf(schema);
      if t.Fail? {
        return false;
      }
      todo := t.value;
      componentProps := GetOr(schema, "properties", VDict([]));
      dataModel := GetOr(schema, "data_model", VStr(""));
      forall i | 0 <= i < |todo| ensures Size(todo[i]) < Size(VDict(schema)) {
        ChildSmaller(schema, "components", VNone, i);
      }
      ok := Make(Size(VDict(schema)));
    }
  }

  lemma PrependThen(done: seq<Entries>, v: Visit, rest: Visit)
    ensures v.ok ==> Prepend(done, AndThen(v, rest)) == Prepend(done + v.leaves, rest)
    ensures !v.ok ==> Prepend(done, AndThen(v, rest)) == Prepend(done, v)
  {
    assert done + (v.leaves + rest.leaves) == (done + v.leaves) + rest.leaves;
  }

  /** What a default node holds under each key. */
  lemma DefaultNodeLookup(key: string, caption: string, default: Value, k: string)
    ensures Lookup(DefaultNode(key, caption, default), k) ==
      if k == "type" then Some(VStr("textfield"))
      else if k == "key" then Some(VStr(key))
      else if k == "label" then Some(VStr(caption))
      else if k == "hidden" then Some(VBool(true))
      else if k == "defaultValue" then Some(default)
      else None
  {
    var e4: seq<(string, Value)> := [("defaultValue", default)];
    var e3 := [("hidden", VBool(true))] + e4;
    var e2 := [("label", VStr(caption))] + e3;
    var e1 := [("key", VStr(key))] + e2;
    assert DefaultNode(key, caption, default) == [("type", VStr("textfield"))] + e1;
    LookupCons(("defaultValue", default), [], k);
    assert e4 == [("defaultValue", default)] + [];
    LookupCons(("hidden", VBool(true)), e4, k);
    LookupCons(("label", VStr(caption)), e3, k);
    LookupCons(("key", VStr(key)), e2, k);
    LookupCons(("type", VStr("textfield")), e1, k);
  }

  /** A text field that is not a decimal number configures to its base keys. */
  lemma TextFieldConfigured(comp: Entries)
    requires Get(comp, "type") == VStr("textfield") && Hashable(Get(comp, "key")) && Get(comp, "requireDecimal") != Bool(true)
    requires OrigValidate(comp).VDict?
    ensures Configured(comp) == Ok((NormalizedBlocks(comp), BaseCfg(NormalizedBlocks(comp), OrigValidate(comp).entries, map[])))
  {
    NormalizedBlocksFacts(comp);
    NormalizedGet(comp, "type");
    NormalizedGet(comp, "requireDecimal");
  }

  /** The default nodes of `make` configure as plain hidden text fields and are no inputs. */
  lemma DefaultNodeCompiles(key: string, caption: string, default: Value, ext: Externals)
    ensures var node := DefaultNode(key, caption, default);
      HandlerOf(node, ext) == Ok(Row(Mapper("textfield", ext)))
      && FieldOk(node) && !Truthy(Get(node, "input")) && HasConditions(node).Ok?
      && Lookup0(Configured(node).value.1, "hidden", VNone) == VBool(true)
      && RowEntry(node, Mapper("textfield", ext)) == (StrT, if Truthy(default) then default else VStr(""))
  {
    DefaultNodeHandler(key, caption, default, ext);
    DefaultNodeConfigures(key, caption, default);
  }

  lemma DefaultNodeHandler(key: string, caption: string, default: Value, ext: Externals)
    ensures var node := DefaultNode(key, caption, default);
      HandlerOf(node, ext) == Ok(Row(Mapper("textfield", ext)))
      && RowEntry(node, Mapper("textfield", ext)) == (StrT, if Truthy(default) then default else VStr(""))
  {
    DefaultNodeLookup(key, caption, default, "type");
    DefaultNodeLookup(key, caption, default, "defaultValue");
  }

  lemma DefaultNodeConfigures(key: string, caption: string, default: Value)
    ensures var node := DefaultNode(key, caption, default);
      FieldOk(node) && !Truthy(Get(node, "input")) && HasConditions(node).Ok?
      && Lookup0(Configured(node).value.1, "hidden", VNone) == VBool(true)
  {
    var node := DefaultNode(key, caption, default);
    DefaultNodeLookup(key, caption, default, "type");
    DefaultNodeLookup(key, caption, default, "key");
    DefaultNodeLookup(key, caption, default, "hidden");
    DefaultNodeLookup(key, caption, default, "requireDecimal");
    DefaultNodeLookup(key, caption, default, "validate");
    DefaultNodeLookup(key, caption, default, "input");
    DefaultNodeLookup(key, caption, default, "conditional");
    TextFieldConfigured(node);
    var n := NormalizedBlocks(node);
    NormalizedLookup(node, "hidden");
    var cfg := BaseCfg(n, [], map[]);
    assert Lookup0(cfg, "hidden", VNone) == VBool(true);
    assert Lookup0(cfg, "transform", VBool(false)) == VDict([]);
  }

  /** A default node is recorded as hidden, under its key. */
  lemma DefaultNodeHidden(t: Tables, key: string, caption: string, default: Value)
    ensures FieldTables(t, DefaultNode(key, caption, default)).hiddenFields == t.hiddenFields + [VStr(key)]
  {
    var node := DefaultNode(key, caption, default);
    DefaultNodeConfigures(key, caption, default);
    DefaultNodeLookup(key, caption, default, "key");
    ConfiguredKeeps(node);
  }
}
