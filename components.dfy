/**
 * The form component descriptors of the model maker, as objects: a
 * `Field` is a `Component` (or one of its `selectComponent` and
 * `surveyComponent` subclasses) holding its raw node and its `cfg`
 * dictionary, both updated in place; a `Registry` is the part of the
 * builder a descriptor writes into through its `builder` reference (for
 * the fields of a nested grid, the parent builder's). Every method is
 * proved against the functions of the `Descriptors` module, which say
 * what the source computes; a method that returns `false` stands for the
 * Python call raising, and leaves the state it had reached by then.
 */
module Components {
  import opened Text
  import opened Values
  import opened Utils
  import opened Inference
  import opened Descriptors

  /** The builder lists and maps that descriptors fill in. */
  class Registry {
    var componentsKeys: seq<Value>
    var filterKeys: seq<Value>
    var filters: seq<Field>
    var tableColumns: seq<(Value, Value)>
    var componentsLogic: seq<Field>
    var related: Related
    var componentsExtDataSrc: seq<Value>

    /** Filter keys are registered at most once, and the dependency map has no repeated names or keys. */
    predicate Valid()
      reads this`filterKeys, this`related
    {
      NoDup(filterKeys) && RelatedValid(related)
    }

    constructor()
      ensures Valid()
      ensures componentsKeys == [] && filterKeys == [] && filters == [] && tableColumns == []
      ensures componentsLogic == [] && related == [] && componentsExtDataSrc == []
    {
      componentsKeys, filterKeys, filters, tableColumns := [], [], [], [];
      componentsLogic, related, componentsExtDataSrc := [], [], [];
    }
  }

  /** Everything a registry holds only grows by appending. */
  twostate predicate RegistryGrew(r: Registry)
    reads r
  {
    old(r.componentsKeys) <= r.componentsKeys && old(r.filterKeys) <= r.filterKeys
    && old(r.filters) <= r.filters && old(r.componentsLogic) <= r.componentsLogic
    && old(r.componentsExtDataSrc) <= r.componentsExtDataSrc
  }

  /** The label a descriptor shows: `label`, or "" when it is falsy. */
  function Label(raw: Entries): Value
  {
    if Truthy(Get(raw, "label")) then Get(raw, "label") else VStr("")
  }

  /** The node once the `properties` accessor has read it: a block that is present but not a dictionary becomes `{}`. */
  function PropsFixed(raw: Entries): Entries
  {
    match Lookup(raw, "properties")
    case Some(b) => if b.VDict? then raw else Put(raw, "properties", VDict([]))
    case None => raw
  }

  /** Fixing the `properties` block leaves every other key as it was. */
  lemma PropsFixedLookup(raw: Entries, k: string)
    requires k != "properties"
    ensures Lookup(PropsFixed(raw), k) == Lookup(raw, k)
  {
    LookupPut(raw, "properties", VDict([]), k);
  }

  /** Everything `eval_components` reads of a node is the same once its `properties` block is fixed. */
  lemma PropsFixedKeeps(raw: Entries)
    ensures var r := PropsFixed(raw);
      Get(r, "key") == Get(raw, "key") && Get(r, "input") == Get(raw, "input") && Get(r, "type") == Get(raw, "type")
      && GetOr(r, "tableView", Bool(false)) == GetOr(raw, "tableView", Bool(false)) && Label(r) == Label(raw)
      && HasLogic(r) == HasLogic(raw) && HasConditions(r) == HasConditions(raw)
  {
    PropsFixedLookup(raw, "key");
    PropsFixedLookup(raw, "input");
    PropsFixedLookup(raw, "type");
    PropsFixedLookup(raw, "tableView");
    PropsFixedLookup(raw, "label");
    PropsFixedLookup(raw, "logic");
    PropsFixedLookup(raw, "conditional");
  }

  /** Layout kinds that never become filters. */
  predicate NoFilterType(t: Value)
  {
    t == VStr("columns") || t == VStr("column") || t == VStr("well") || t == VStr("panel")
  }

  /** Whether `eval_components` registers the component as a filter. */
  predicate Filtered(raw: Entries, filterKeys: seq<Value>)
  {
    Truthy(Get(raw, "key")) && !NoFilterType(Get(raw, "type")) && Get(raw, "key") !in filterKeys
  }

  class Field {
    var raw: Entries
    var cfg: Cfg
    var parent: Value
    var nested: seq<seq<(Value, Field)>>
    const builder: Registry
    const inputType: Caster
    const variant: Variant
    const ext: Externals

    /** `Component.__init__` for a node whose key can be hashed. */
    constructor(raw0: Entries, builder: Registry, inputType: Caster, variant: Variant, ext: Externals)
      ensures raw == raw0 && cfg == map[] && parent == VStr("") && nested == []
      ensures this.builder == builder && this.inputType == inputType && this.variant == variant && this.ext == ext
    {
      raw, cfg, parent, nested := raw0, map[], VStr(""), [];
      this.builder, this.inputType, this.variant, this.ext := builder, inputType, variant, ext;
    }

    /** The `key` property. */
    function Key(): Value
      reads this`raw
    {
      Get(raw, "key")
    }

    /** The state the logic functions describe. */
    function State(): Desc
      reads this`raw, this`cfg, builder`related
    {
      Desc(raw, cfg, builder.related)
    }

    /** The `parent` setter: a falsy parent is ignored. */
    method SetParent(p: Value)
      modifies this`parent
      ensures parent == if Truthy(p) then p else old(parent)
    {
      if Truthy(p) {
        parent := p;
      }
    }

    /** The `childs` setter: the fields of a nested model are appended, not assigned. */
    method SetChilds(fields: seq<(Value, Field)>)
      modifies this`nested
      ensures nested == old(nested) + [fields]
    {
      nested := nested + [fields];
    }

    /** The `properties` accessor: a block that is present but not a dictionary is replaced by `{}`. */
    method Properties() returns (p: Entries)
      modifies this`raw
      ensures raw == PropsFixed(old(raw))
      ensures p == PropsOf(raw)
    {
      var b := Lookup(raw, "properties");
      if b.Some? && !b.value.VDict? {
        raw := Put(raw, "properties", VDict([]));
        LookupPut(old(raw), "properties", VDict([]), "properties");
      }
      p := PropsOf(raw);
    }

    /**
     * `update_config`: normalises the two blocks of the node and writes
     * the configuration keys into `cfg`, the datetime, decimal and
     * select or survey keys after the common ones.
     */
    method UpdateConfig() returns (ok: bool)
      modifies this`raw, this`cfg
      ensures var c := Configure(old(raw), variant, old(cfg));
        ok == c.Ok? && (ok ==> raw == c.value.0 && cfg == c.value.1)
    {
      if !Truthy(Get(raw, "properties")) {
        LookupPut(raw, "properties", VDict([]), "properties");
        raw := Put(raw, "properties", VDict([]));
      }
      assert Lookup(raw, "properties").Some?;
      if !Truthy(Get(raw, "validate")) {
        LookupPut(raw, "validate", VDict([]), "properties");
        raw := Put(raw, "validate", VDict([]));
      }
      assert Lookup(raw, "properties").Some?;
      var props := Properties();
      assert raw == NormalizedBlocks(old(raw));
      var validate := Get(raw, "validate");
      if !validate.VDict? {
        return false;
      }
      var v := validate.entries;
      ConfigureCommon(props, v);
      ok := ConfigureDatetime();
      if !ok {
        return;
      }
      ConfigureDecimal(v);
      ok := ConfigureVariant();
    }

    /** The keys every descriptor writes. */
    method ConfigureCommon(props: Entries, v: Entries)
      requires props == PropsOf(raw)
      modifies this`cfg
      ensures cfg == BaseCfg(raw, v, old(cfg))
    {
      var ro := GetOr(raw, "readOnlyValue", Bool(false));
      if Truthy(Get(props, "readonly")) {
        ro := Bool(true);
      }
      var req := GetOr(v, "required", Bool(false));
      if Truthy(Get(props, "required")) {
        req := Bool(true);
      }
      var calcServer := Get(raw, "calculateValue");
      if !Truthy(calcServer) && Truthy(GetOr(props, "calculateServer", Bool(false))) {
        calcServer := GetOr(props, "calculateServer", Bool(false));
      }
      cfg := cfg[VStr("ctype") := Get(raw, "type")][VStr("disabled") := GetOr(raw, "disabled", Bool(false))]
                [VStr("readonly") := ro][VStr("hidden") := GetOr(raw, "hidden", Bool(false))]
                [VStr("required") := req][VStr("unique") := GetOr(v, "unique", Bool(false))]
                [VStr("component") := VStr("Component")][VStr("calculateServer") := calcServer]
                [VStr("action_type") := GetOr(props, "action_type", Bool(false))]
                [VStr("no_clone") := GetOr(props, "no_clone", Bool(false))]
                [VStr("transform") := VDict([])][VStr("datetime") := Bool(false)]
                [VStr("min") := Bool(false)][VStr("max") := Bool(false)];
    }

    /** The flag keys as the datetime method writes them, in the order of `DatetimeCfg`. */
    static lemma FlagsWritten(cfg0: Cfg, time: Value, date: Value, cfg: Cfg)
      requires VStr("transform") in cfg0 && VStr("datetime") in cfg0
      requires var c := cfg0[VStr("time") := time][VStr("date") := date];
        var c1 := if date == Bool(true) then c[VStr("transform") := VDict([("type", VStr("date"))])] else c;
        cfg == if date == Bool(true) && time == Bool(true)
               then c1[VStr("datetime") := Bool(true)][VStr("transform") := VDict([("type", VStr("datetime"))])]
               else c1
      ensures var both := date == Bool(true) && time == Bool(true);
        cfg == cfg0[VStr("time") := time][VStr("date") := date]
          [VStr("transform") := if both then VDict([("type", VStr("datetime"))])
                                else if date == Bool(true) then VDict([("type", VStr("date"))])
                                else Lookup0(cfg0, "transform", VDict([]))]
          [VStr("datetime") := if both then Bool(true) else Lookup0(cfg0, "datetime", Bool(false))]
    {
    }

    /** The keys of a datetime node; a node without the widget bounds raises. */
    method ConfigureDatetime() returns (ok: bool)
      requires VStr("transform") in cfg && VStr("datetime") in cfg
      modifies this`cfg
      ensures var c := DatetimeCfg(raw, old(cfg));
        ok == c.Ok? && (ok ==> cfg == c.value)
    {
      if Get(raw, "type") != VStr("datetime") {
        return true;
      }
      var enableDateInCfg := "enableDate" in KeysOf(raw);
      var time := GetOr(raw, "enableTime", Bool(false));
      cfg := cfg[VStr("time") := time];
      var date := GetOr(raw, "enableDate", Bool(false));
      if !Truthy(time) && !Truthy(date) && !enableDateInCfg {
        date := Bool(true);
      }
      cfg := cfg[VStr("date") := date];
      if date == Bool(true) {
        cfg := cfg[VStr("transform") := VDict([("type", VStr("date"))])];
      }
      if date == Bool(true) && time == Bool(true) {
        cfg := cfg[VStr("datetime") := Bool(true)];
        cfg := cfg[VStr("transform") := VDict([("type", VStr("datetime"))])];
      }
      FlagsWritten(old(cfg), time, date, cfg);
      var widget := Index(VDict(raw), "widget");
      if widget.Fail? {
        return false;
      }
      var lo := Index(widget.value, "minDate");
      if lo.Fail? {
        return false;
      }
      cfg := cfg[VStr("min") := lo.value];
      var hi := Index(widget.value, "maxDate");
      if hi.Fail? {
        return false;
      }
      cfg := cfg[VStr("max") := hi.value];
      ok := true;
    }

    /** The keys of a node with `requireDecimal` set to `True`. */
    method ConfigureDecimal(v: Entries)
      modifies this`cfg
      ensures cfg == DecimalCfg(raw, v, old(cfg))
    {
      if Get(raw, "requireDecimal") == Bool(true) {
        cfg := cfg[VStr("mask") := GetOr(raw, "displayMask", VStr("decimal"))];
        cfg := cfg[VStr("min") := Get(v, "min")];
        cfg := cfg[VStr("max") := Get(v, "max")];
        cfg := cfg[VStr("delimiter") := GetOr(raw, "delimiter", VStr(","))];
        cfg := cfg[VStr("dp") := GetOr(raw, "decimalLimit", VInt(2))];
        cfg := cfg[VStr("transform") := VDict([("type", VStr("float")), ("dp", cfg[VStr("dp")]), ("mask", cfg[VStr("mask")]), ("dps", cfg[VStr("delimiter")])])];
      }
    }

    /** The keys the select and survey descriptors add to those of `Component`. */
    method ConfigureVariant() returns (ok: bool)
      modifies this`cfg
      ensures var c := VariantCfg(raw, variant, old(cfg));
        ok == c.Ok? && (ok ==> cfg == c.value)
    {
      match variant
      case Plain =>
        ok := true;
      case Survey =>
        if Get(raw, "type") == VStr("survey") {
          cfg := cfg[VStr("component") := VStr("surveyComponent")];
          cfg := cfg[VStr("questions") := Get(raw, "questions")];
          cfg := cfg[VStr("values") := Get(raw, "values")];
          cfg := cfg[VStr("defaultValue") := GetOr(raw, "defaultValue", VStr(""))];
        }
        ok := true;
      case Select(si) =>
        if Get(raw, "type") != VStr("select") {
          return true;
        }
        var values := DictGet(GetOr(raw, "data", VDict([])), "values", VList([]));
        if values.Fail? {
          return false;
        }
        var data := Get(raw, "data");
        if !data.VDict? {
          return false;
        }
        var src := if si.dataSrc.VStr? then Get(data.entries, si.dataSrc.s) else VNone;
        if !Hashable(si.dataSrc) {
          return false;
        }
        cfg := SelectCfg(cfg, si, values.value, src, si.dataSrc);
        ok := true;
    }

    /**
     * `_find_logic_rel_fields`: walks the expression and records this
     * component under every field name a `var` operand reads.
     */
    method FindLogicRelFields(expr: Value) returns (ok: bool)
      modifies builder`related
      ensures ok == Deps(expr).ok
      ensures builder.related == RecordDeps(old(builder.related), Deps(expr).names, Key())
      decreases expr, 2
    {
      if !expr.VDict? {
        return false;
      }
      var key := Key();
      var i := 0;
      while i < |expr.entries|
        invariant 0 <= i <= |expr.entries|
        invariant DepsEntries(expr, i).ok
        invariant builder.related == RecordDeps(old(builder.related), DepsEntries(expr, i).names, key)
      {
        var k, v := expr.entries[i].0, expr.entries[i].1;
        assert v < expr;
        ok := RelEntry(k, v);
        RecordDepsAppend(old(builder.related), DepsEntries(expr, i).names, DepsEntry(k, v).names, key);
        if !ok {
          DepsEntriesStops(expr, i + 1, |expr.entries|);
          return false;
        }
        i := i + 1;
      }
      ok := true;
    }

    /** One entry of an expression: a dictionary is walked, a list through its dictionaries, a `var` operand recorded. */
    method RelEntry(k: string, v: Value) returns (ok: bool)
      modifies builder`related
      ensures ok == DepsEntry(k, v).ok
      ensures builder.related == RecordDeps(old(builder.related), DepsEntry(k, v).names, Key())
      decreases v, 3
    {
      match v
      case VDict(_) =>
        ok := FindLogicRelFields(v);
      case VList(items) =>
        var key := Key();
        var i := 0;
        while i < |items|
          invariant 0 <= i <= |items|
          invariant DepsItems(v, i).ok
          invariant builder.related == RecordDeps(old(builder.related), DepsItems(v, i).names, key)
        {
          var w := if items[i].VDict? then Deps(items[i]) else Walk([], true);
          if items[i].VDict? {
            assert items[i] < v;
            ok := FindLogicRelFields(items[i]);
          } else {
            ok := true;
          }
          RecordDepsAppend(old(builder.related), DepsItems(v, i).names, w.names, key);
          if !ok {
            DepsItemsStops(v, i + 1, |items|);
            return false;
          }
          i := i + 1;
        }
        ok := true;
      case _ =>
        if k != "var" {
          return true;
        }
        ok := RecordVar(v);
    }

    /** A `var` operand: the field name it reads from the form gets this component's key, once. */
    method RecordVar(v: Value) returns (ok: bool)
      modifies builder`related
      ensures ok == VarDep(v).ok
      ensures builder.related == RecordDeps(old(builder.related), VarDep(v).names, Key())
    {
      if !v.VStr? {
        return false;
      }
      if !Contains(v.s, "form.") {
        return true;
      }
      var vals := Split(v.s, '.');
      var val := "";
      if Contains(v.s, "form.data_value") {
        if |vals| <= 2 {
          return false;
        }
        val := vals[2];
      } else {
        ContainsMember(v.s, "form.", 4);
        SplitSeveral(v.s, '.');
        val := vals[1];
      }
      if |val| > 0 {
        var key := Key();
        ghost var r0 := builder.related;
        if Lookup(builder.related, val).None? {
          LookupPut(r0, val, [], val);
          builder.related := Put(builder.related, val, []);
        }
        if key !in ListAt(builder.related, val) {
          ghost var r1 := builder.related;
          builder.related := Put(builder.related, val, ListAt(builder.related, val) + [key]);
          if Lookup(r0, val).None? {
            assert ListAt(r1, val) + [key] == [key];
            PutTwice(r0, val, [], [key]);
          }
        }
        assert builder.related == RecordDep(r0, val, key);
        assert [val][1..] == [];
      }
      ok := true;
    }

    /** `eval_action_value_json_logic`: the right-hand side of an assignment, evaluated when it reads as JSON. */
    method EvalActionValueJsonLogic(elem: string) returns (ok: bool, res: Value)
      modifies builder`related
      ensures (Step(State(), ok), res) == ActionValue(old(State()), elem, old(Key()), ext)
    {
      var data := IsJson(elem, ext);
      if !Truthy(data) {
        return true, VStr(elem);
      }
      ok := FindLogicRelFields(data);
      if !ok {
        return false, VNone;
      }
      var r := ext.jsonLogic(data, Context);
      if r.None? {
        return false, VNone;
      }
      res := r.value;
    }

    /** `apply_action`: a `property` action sets a configuration key; a `value` action stores a result. */
    method ApplyAction(action: Value, logicRes: Value) returns (ok: bool)
      modifies this`raw, this`cfg, builder`related
      ensures Step(State(), ok) == ApplyActionSpec(old(State()), action, logicRes, old(Key()), inputType, ext)
    {
      if !action.VDict? {
        return false;
      }
      var a := action.entries;
      var t := Get(a, "type");
      if t == VStr("property") {
        var p := Get(a, "property");
        if !p.VDict? || !Get(p.entries, "value").VStr? {
          return false;
        }
        var item := Get(p.entries, "value").s;
        if Contains(item, "validate") {
          var parts := Split(item, '.');
          if |parts| < 2 {
            return false;
          }
          item := parts[1];
        }
        cfg := cfg[VStr(item) := Get(a, "state")];
        ok := true;
      } else if t == VStr("value") {
        var v := Get(a, "value");
        if !v.VStr? {
          return false;
        }
        var key: string, res: Value;
        if '=' !in v.s {
          key, res := v.s, logicRes;
        } else {
          StripKeeps(v.s, '=');
          var func := SplitOnce(Strip(v.s), '=');
          key := Strip(func[0]);
          ok, res := EvalActionValueJsonLogic(func[1]);
          if !ok {
            return false;
          }
        }
        ok := SetKey(key, res);
      } else {
        ok := true;
      }
    }

    /** Stores an action's result under `key`: `value` goes through the field's type, other keys are mirrored into `properties`. */
    method SetKey(key: string, res: Value) returns (ok: bool)
      modifies this`raw, this`cfg
      ensures Step(State(), ok) == SetActionKey(old(State()), key, res, inputType, ext)
    {
      if key == "value" {
        var c := PyCast(inputType, res, ext);
        if c.Fail? {
          return false;
        }
        cfg := cfg[VStr(key) := c.value];
      } else {
        cfg := cfg[VStr(key) := res];
        var p := Lookup(raw, "properties");
        if p.Some? {
          if p.value.VDict? {
            raw := Put(raw, "properties", VDict(Put(p.value.entries, key, res)));
          } else {
            raw := Put(raw, "properties", VDict([(key, res)]));
          }
        }
      }
      ok := true;
    }

    /** `compute_logic`: evaluates the trigger and, when it holds, applies the non-empty actions in order. */
    method ComputeLogic(expr: Value, actions: Value) returns (ok: bool)
      modifies this`raw, this`cfg, builder`related
      ensures Step(State(), ok) == ComputeLogicSpec(old(State()), expr, actions, old(Key()), inputType, ext)
    {
      var logicRes := ext.jsonLogic(expr, Context);
      if logicRes.None? {
        return false;
      }
      if !Truthy(logicRes.value) {
        return true;
      }
      var items := Iterate(actions);
      if items.Fail? {
        return false;
      }
      var xs := items.value;
      var key := Key();
      ghost var target := ApplyActions(old(State()), xs, logicRes.value, key, inputType, ext);
      assert xs[0..] == xs;
      var i := 0;
      while i < |xs|
        invariant 0 <= i <= |xs| && Key() == key
        invariant ApplyActions(State(), xs[i..], logicRes.value, key, inputType, ext) == target
      {
        var before := State();
        assert xs[i..][0] == xs[i] && xs[i..][1..] == xs[i + 1..];
        ok := true;
        if Truthy(xs[i]) {
          ok := ApplyAction(xs[i], logicRes.value);
          ApplyActionTame(before, xs[i], logicRes.value, key, inputType, ext, "key");
        }
        if !ok {
          return false;
        }
        i := i + 1;
      }
      assert xs[i..] == [];
      ok := true;
    }

    /** `eval_logic`: every logic entry with a truthy trigger expression is walked for dependencies, then computed. */
    method EvalLogic() returns (ok: bool)
      modifies this`raw, this`cfg, builder`related
      ensures Step(State(), ok) == EvalLogicSpec(old(State()), old(Key()), inputType, ext)
    {
      var logic := Get(raw, "logic");
      if !Truthy(logic) {
        return true;
      }
      var items := Iterate(logic);
      if items.Fail? {
        return false;
      }
      var xs := items.value;
      var key := Key();
      ghost var target := LogicItems(old(State()), xs, key, inputType, ext);
      assert xs[0..] == xs;
      var i := 0;
      while i < |xs|
        invariant 0 <= i <= |xs| && Key() == key
        invariant LogicItems(State(), xs[i..], key, inputType, ext) == target
      {
        var before := State();
        assert xs[i..][0] == xs[i] && xs[i..][1..] == xs[i + 1..];
        ok := LogicEntry(xs[i]);
        LogicEntryTame(before, xs[i], key, inputType, ext, "key");
        if !ok {
          return false;
        }
        i := i + 1;
      }
      assert xs[i..] == [];
      ok := true;
    }

    /** One entry of the `logic` list. */
    method LogicEntry(item: Value) returns (ok: bool)
      modifies this`raw, this`cfg, builder`related
      ensures Step(State(), ok) == LogicEntrySpec(old(State()), item, old(Key()), inputType, ext)
    {
      if !item.VDict? {
        return false;
      }
      var trig := Get(item.entries, "trigger");
      if !Truthy(trig) {
        return true;
      }
      if !trig.VDict? {
        return false;
      }
      var j := Get(trig.entries, "json");
      if !Truthy(j) {
        return true;
      }
      var actions := GetOr(item.entries, "actions", VList([]));
      ok := FindLogicRelFields(j);
      if !ok {
        return false;
      }
      ok := ComputeLogic(j, actions);
    }

    /** `aval_conditional`: a truthy condition is walked, and the field is hidden when it does not hold. */
    method AvalConditional() returns (ok: bool)
      modifies this`cfg, builder`related
      ensures Step(State(), ok) == ConditionalSpec(old(State()), old(Key()), ext)
    {
      var c := Get(raw, "conditional");
      if !c.VDict? {
        return false;
      }
      var j := Get(c.entries, "json");
      if !Truthy(j) {
        return true;
      }
      ok := FindLogicRelFields(j);
      if !ok {
        return false;
      }
      var r := ext.jsonLogic(j, Context);
      if r.None? {
        return false;
      }
      cfg := cfg[VStr("hidden") := Bool(!Truthy(r.value))];
    }

    /** `compute_logic_and_condition`: the logic first, then the conditional. */
    method ComputeLogicAndCondition() returns (ok: bool)
      modifies this`raw, this`cfg, builder`related
      ensures Step(State(), ok) == LogicAndConditionSpec(old(State()), old(Key()), inputType, ext)
    {
      var key := Key();
      if HasLogic(raw) {
        var before := State();
        ok := EvalLogic();
        EvalLogicTame(before, key, inputType, ext, "key");
        if !ok {
          return false;
        }
      }
      var hc := HasConditions(raw);
      if hc.Fail? {
        return false;
      }
      if hc.value {
        ok := AvalConditional();
      } else {
        ok := true;
      }
    }

    /**
     * `eval_components`: registers the component with its builder, then,
     * unless it is a table, evaluates its logic and conditional.
     */
    method EvalComponents() returns (ok: bool)
      requires builder.Valid()
      modifies this`raw, this`cfg, builder`componentsKeys, builder`filterKeys, builder`filters
      modifies builder`tableColumns, builder`componentsLogic, builder`related
      ensures builder.Valid() && RegistryGrew(builder)
      ensures Registered(old(raw), old(builder.componentsKeys), old(builder.tableColumns), old(builder.filterKeys), old(builder.filters))
      ensures var hc := HasConditions(old(raw));
        if !HasLogic(old(raw)) && hc.Fail? then
          !ok && State() == old(State()) && builder.componentsLogic == old(builder.componentsLogic)
        else
          builder.componentsLogic == old(builder.componentsLogic) + (if HasLogic(old(raw)) || hc.value then [this] else [])
          && if Get(old(raw), "type") == VStr("table") then ok && State() == old(State())
             else Step(State(), ok) == LogicAndConditionSpec(old(State()), old(Key()), inputType, ext)
    {
      Register();
      var key := Key();
      var hasLogic := HasLogic(raw);
      if !hasLogic {
        var hc := HasConditions(raw);
        if hc.Fail? {
          return false;
        }
      }
      if hasLogic || HasConditions(raw).value {
        builder.componentsLogic := builder.componentsLogic + [this];
      }
      if Get(raw, "type") == VStr("table") {
        return true;
      }
      var before := State();
      ok := ComputeLogicAndCondition();
      LogicAndConditionTame(before, key, inputType, ext, "key");
    }

    /** What `eval_components` registers: the input key, the table column, and the filter, at most once per key. */
    twostate predicate Registered(raw0: Entries, keys0: seq<Value>, columns0: seq<(Value, Value)>, filterKeys0: seq<Value>, filters0: seq<Field>)
      reads this`raw, builder
    {
      var key := Get(raw0, "key");
      var f := Filtered(raw0, filterKeys0);
      builder.componentsKeys == keys0 + (if Truthy(Get(raw0, "input")) then [key] else [])
      && builder.tableColumns ==
           (if Truthy(GetOr(raw0, "tableView", Bool(false))) then Put(columns0, key, Label(raw0)) else columns0)
      && builder.filterKeys == filterKeys0 + (if f then [key] else [])
      && builder.filters == filters0 + (if f then [this] else [])
    }

    /** The registrations of `eval_components`. */
    method Register()
      requires builder.Valid()
      modifies builder`componentsKeys, builder`filterKeys, builder`filters, builder`tableColumns
      ensures builder.Valid() && RegistryGrew(builder)
      ensures Registered(raw, old(builder.componentsKeys), old(builder.tableColumns), old(builder.filterKeys), old(builder.filters))
    {
      var key := Key();
      if Truthy(Get(raw, "input")) {
        builder.componentsKeys := builder.componentsKeys + [key];
      }
      if Truthy(GetOr(raw, "tableView", Bool(false))) {
        builder.tableColumns := Put(builder.tableColumns, key, Label(raw));
      }
      if Filtered(raw, builder.filterKeys) {
        NoDupAppend(builder.filterKeys, key);
        builder.filters := builder.filters + [this];
        builder.filterKeys := builder.filterKeys + [key];
      }
    }
  }

  /**
   * The constructors of the three descriptor classes. A key that cannot
   * be hashed raises first; a select with a `resource` or `url` source
   * registers its key before reading what can still raise.
   */
  method NewField(raw: Entries, builder: Registry, inputType: Caster, ext: Externals) returns (f: Field?)
    modifies builder`componentsExtDataSrc
    ensures f != null ==>
      fresh(f) && f.raw == raw && f.cfg == map[] && f.builder == builder
      && f.inputType == inputType && f.ext == ext && f.nested == [] && f.parent == VStr("")
    ensures var t := Get(raw, "type");
      var hashable := Hashable(Get(raw, "key"));
      var ext0 := t == VStr("select") && hashable && ExtDataSrc(raw);
      builder.componentsExtDataSrc == old(builder.componentsExtDataSrc) + (if ext0 then [Get(raw, "key")] else [])
      && (f != null <==> hashable && (t == VStr("select") ==> SelectInitOf(raw).Ok?))
      && (f != null ==>
            f.variant == if t == VStr("select") then Select(SelectInitOf(raw).value)
                         else if t == VStr("survey") then Survey else Plain)
  {
    if !Hashable(Get(raw, "key")) {
      return null;
    }
    var t := Get(raw, "type");
    if t == VStr("select") {
      if ExtDataSrc(raw) {
        builder.componentsExtDataSrc := builder.componentsExtDataSrc + [Get(raw, "key")];
      }
      var si := SelectInitOf(raw);
      if si.Fail? {
        return null;
      }
      f := new Field(raw, builder, inputType, Select(si.value), ext);
    } else if t == VStr("survey") {
      f := new Field(raw, builder, inputType, Survey, ext);
    } else {
      f := new Field(raw, builder, inputType, Plain, ext);
    }
  }
}
