/**
 * The two class-level helpers of the field descriptors that read a
 * compiled configuration: the default of a select field
 * (`selectComponent.get_default`) and the answer grid of a survey field
 * (`surveyComponent.grid`). Both take the configuration dictionary of the
 * whole form, keyed by field key.
 */
module Widgets {
  import opened Text
  import opened Values

  // ---------------------------------------------------------------------
  // Select default

  /** The starting default: the configured one, wrapped in a list for a multi-select. */
  function StartDefault(multiple: Value, defaultValue: Value): Value
  {
    if !Truthy(multiple) then defaultValue
    else if Truthy(defaultValue) then VList([defaultValue])
    else VList([])
  }

  /**
   * `get_default`: the select's default, replaced by (single) or extended
   * with (multiple) the form value named by a dotted `valueProperty` when
   * no id was selected. `form_data` empty leaves the selected id as it is.
   */
  function SelectDefault(cfg: Value, key: string, formData: Value): (r: Result<Value>)
  {
    match Index(cfg, key)
    case Fail(m) => Fail(m)
    case Ok(c) =>
      match (Index(c, "multiple"), Index(c, "defaultValue"), Index(c, "selected_id"), Index(c, "valueProperty"))
      case (Ok(multiple), Ok(dv), Ok(selected), Ok(vp)) =>
        var default := StartDefault(multiple, dv);
        if !Truthy(vp) || Truthy(selected) then Ok(default)
        else
          (match PyContains(vp, ".")
           case Fail(m) => Fail(m)
           case Ok(dotted) =>
             if !dotted then Ok(default)
             else if !vp.VStr? then Fail("AttributeError: object has no attribute 'split'")
             else
               var toEval := Split(vp.s, '.');
               var chosen :=
                 if Truthy(formData) && |toEval| > 1 then DictGet(formData, toEval[1], VStr(""))
                 else Ok(selected);
               (match chosen
                case Fail(m) => Fail(m)
                case Ok(sel) => if Truthy(multiple) then Ok(VList(default.items + [sel])) else Ok(sel)))
      case _ => Fail("KeyError")
  }

  /** The configuration entry of one select field, as the lemmas below describe it. */
  function SelectCfg(multiple: Value, dv: Value, selected: Value, vp: Value): Value
  {
    VDict([("multiple", multiple), ("defaultValue", dv), ("selected_id", selected), ("valueProperty", vp)])
  }

  /** The form of the whole configuration holding one select field under `key`. */
  function FormCfg(key: string, field: Value): Value
  {
    VDict([(key, field)])
  }

  lemma SelectCfgEntries(multiple: Value, dv: Value, selected: Value, vp: Value)
    ensures var c := SelectCfg(multiple, dv, selected, vp);
      Index(c, "multiple") == Ok(multiple) && Index(c, "defaultValue") == Ok(dv)
      && Index(c, "selected_id") == Ok(selected) && Index(c, "valueProperty") == Ok(vp)
  {
    var e := [("multiple", multiple), ("defaultValue", dv), ("selected_id", selected), ("valueProperty", vp)];
    assert e == [e[0]] + ([e[1]] + ([e[2]] + [e[3]]));
    LookupCons(e[0], [e[1]] + ([e[2]] + [e[3]]), "defaultValue");
    LookupCons(e[0], [e[1]] + ([e[2]] + [e[3]]), "selected_id");
    LookupCons(e[0], [e[1]] + ([e[2]] + [e[3]]), "valueProperty");
    LookupCons(e[1], [e[2]] + [e[3]], "selected_id");
    LookupCons(e[1], [e[2]] + [e[3]], "valueProperty");
    LookupCons(e[2], [e[3]], "valueProperty");
  }

  /** A configuration without the field, or a field entry that is not a dictionary or misses one of the four keys, raises. */
  lemma SelectDefaultNeedsKeys(cfg: Value, key: string, formData: Value)
    requires !cfg.VDict? || Lookup(cfg.entries, key).None?
      || (var c := Lookup(cfg.entries, key).value;
          !c.VDict? || Lookup(c.entries, "multiple").None? || Lookup(c.entries, "defaultValue").None?
          || Lookup(c.entries, "selected_id").None? || Lookup(c.entries, "valueProperty").None?)
    ensures SelectDefault(cfg, key, formData).Fail?
  {
  }

  /**
   * Without a dotted `valueProperty` to follow, or with an id already
   * selected, the default is the configured one: as it is for a single
   * select, as a one-item list (or an empty list when it is falsy) for a
   * multi-select.
   */
  lemma SelectDefaultConfigured(key: string, multiple: Value, dv: Value, selected: Value, vp: Value, formData: Value)
    requires !Truthy(vp) || Truthy(selected) || (vp.VStr? && '.' !in vp.s)
    ensures SelectDefault(FormCfg(key, SelectCfg(multiple, dv, selected, vp)), key, formData)
      == Ok(if !Truthy(multiple) then dv else if Truthy(dv) then VList([dv]) else VList([]))
  {
    SelectCfgEntries(multiple, dv, selected, vp);
    if vp.VStr? {
      ContainsChar(vp.s, '.');
    }
  }

  /**
   * With a dotted `valueProperty`, no selected id and a non-empty form,
   * the form value under the segment after the first dot (or "" when it is
   * absent) becomes the default of a single select and is appended to
   * that of a multi-select.
   */
  lemma SelectDefaultFromForm(key: string, multiple: Value, dv: Value, selected: Value, head: string, field: string, rest: string, form: seq<(string, Value)>)
    requires '.' !in head && '.' !in field && (rest == [] || rest[0] == '.') && !Truthy(selected) && |form| > 0
    ensures var vp := VStr(head + "." + field + rest);
      var chosen := GetOr(form, field, VStr(""));
      SelectDefault(FormCfg(key, SelectCfg(multiple, dv, selected, vp)), key, VDict(form))
      == Ok(if !Truthy(multiple) then chosen
            else if Truthy(dv) then VList([dv, chosen]) else VList([chosen]))
  {
    var s := head + "." + field + rest;
    SelectCfgEntries(multiple, dv, selected, VStr(s));
    DottedPath(head, field, rest);
    assert s[|head|] == '.';
    ContainsChar(s, '.');
    var chosen := GetOr(form, field, VStr(""));
    assert VList([dv]).items + [chosen] == [dv, chosen];
    assert VList([]).items + [chosen] == [chosen];
  }

  /** The segment after the first dot of a path with at least one dot. */
  lemma DottedPath(head: string, field: string, rest: string)
    requires '.' !in head && '.' !in field && (rest == [] || rest[0] == '.')
    ensures var parts := Split(head + "." + field + rest, '.');
      |parts| > 1 && parts[1] == field
  {
    var s := head + "." + field + rest;
    assert s == head + ['.'] + (field + rest);
    SplitPrefix(head, field + rest, '.');
    FieldFirst(field, rest);
  }

  /** A dot-free text is the first segment of anything it starts. */
  lemma {:induction false} FieldFirst(field: string, rest: string)
    requires '.' !in field
    ensures |Split(field + rest, '.')| >= 1 && (rest == [] || rest[0] == '.' ==> Split(field + rest, '.')[0] == field)
    ensures Split(field + rest, '.')[0] == field + Split(rest, '.')[0]
  {
    if |field| > 0 {
      FieldFirst(field[1..], rest);
      assert (field + rest)[1..] == field[1..] + rest;
      assert [field[0]] + field[1..] == field;
    } else {
      assert field + rest == rest;
      if rest != [] && rest[0] == '.' {
        assert Split(rest, '.')[0] == "";
      }
    }
  }

  /** With an empty form, the (falsy) selected id itself takes the place of the form value. */
  lemma SelectDefaultEmptyForm(key: string, multiple: Value, dv: Value, selected: Value, head: string, tail: string, formData: Value)
    requires '.' !in head && !Truthy(selected) && !Truthy(formData)
    ensures var vp := VStr(head + "." + tail);
      SelectDefault(FormCfg(key, SelectCfg(multiple, dv, selected, vp)), key, formData)
      == Ok(if !Truthy(multiple) then selected
            else if Truthy(dv) then VList([dv, selected]) else VList([selected]))
  {
    var s := head + "." + tail;
    SelectCfgEntries(multiple, dv, selected, VStr(s));
    assert s[|head|] == '.';
    ContainsChar(s, '.');
    assert VList([dv]).items + [selected] == [dv, selected];
    assert VList([]).items + [selected] == [selected];
  }

  // ---------------------------------------------------------------------
  // Survey grid

  /** Applies `f` to every item in order; the first item that raises stops the walk. */
  function Collect(xs: seq<Value>, f: Value -> Result<Value>): Result<seq<Value>>
  {
    if |xs| == 0 then Ok([])
    else match Collect(xs[..|xs| - 1], f)
      case Fail(m) => Fail(m)
      case Ok(ys) =>
        match f(xs[|xs| - 1])
        case Fail(m) => Fail(m)
        case Ok(y) => Ok(ys + [y])
  }

  /** A walk that completes maps item `i` to result `i`. */
  lemma {:induction false} CollectOk(xs: seq<Value>, f: Value -> Result<Value>, ys: seq<Value>)
    requires Collect(xs, f) == Ok(ys)
    ensures |ys| == |xs| && forall i :: 0 <= i < |xs| ==> f(xs[i]) == Ok(ys[i])
  {
    if |xs| > 0 {
      var prev := Collect(xs[..|xs| - 1], f);
      CollectOk(xs[..|xs| - 1], f, prev.value);
      assert ys == prev.value + [ys[|ys| - 1]];
    }
  }

  /** The walk completes exactly when no item raises. */
  lemma {:induction false} CollectTotal(xs: seq<Value>, f: Value -> Result<Value>)
    requires forall i :: 0 <= i < |xs| ==> f(xs[i]).Ok?
    ensures Collect(xs, f).Ok?
  {
    if |xs| > 0 {
      CollectTotal(xs[..|xs| - 1], f);
    }
  }

  /** Stopping at the first item that raises is the walk's outcome for the whole list. */
  lemma {:induction false} CollectStops(xs: seq<Value>, k: nat, f: Value -> Result<Value>)
    requires k <= |xs| && Collect(xs[..k], f).Fail?
    ensures Collect(xs, f) == Collect(xs[..k], f)
    decreases |xs| - k
  {
    if k < |xs| {
      assert xs[..k + 1][..k] == xs[..k];
      CollectStops(xs, k + 1, f);
    } else {
      assert xs[..k] == xs;
    }
  }

  /**
   * Whether a value cell is ticked. As written, the guard reads
   * `question["value"]` in the freshly built cell, whose keys are `label`,
   * `value` and `checked`, so only a question valued "label" or "value"
   * (with a truthy cell entry) ever compares the answer. The intended guard
   * reads the answers of the form.
   */
  function Checked(qv: Value, caption: Value, bv: Value, answers: Value, intended: bool): Result<bool>
  {
    if !Hashable(qv) then Fail("TypeError: unhashable type")
    else if !intended then
      if qv.VStr? && ((qv.s == "label" && Truthy(caption)) || (qv.s == "value" && Truthy(bv))) then
        match Index(answers, qv.s)
        case Fail(m) => Fail(m)
        case Ok(a) => Ok(PyEq(a, bv))
      else Ok(false)
    else if !answers.VDict? then Fail("AttributeError: object has no attribute 'get'")
    else
      var a := if qv.VStr? then GetOr(answers.entries, qv.s, VNone) else VNone;
      Ok(Truthy(a) && PyEq(a, bv))
  }

  /** One cell of a question row: the builder value with its caption and whether it is ticked. */
  function Cell(qv: Value, answers: Value, intended: bool, b: Value): Result<Value>
  {
    match (Index(b, "label"), Index(b, "value"))
    case (Ok(caption), Ok(bv)) =>
      (match Checked(qv, caption, bv, answers, intended)
       case Fail(m) => Fail(m)
       case Ok(c) => Ok(VDict([("label", caption), ("value", bv), ("checked", VBool(c))])))
    case _ => Fail("KeyError")
  }

  /** One question row: its value, its caption and one cell per builder value. */
  function Row(values: Value, answers: Value, intended: bool, q: Value): Result<Value>
  {
    match (Index(q, "label"), Index(q, "value"))
    case (Ok(caption), Ok(qv)) =>
      (match Iterate(values)
       case Fail(m) => Fail(m)
       case Ok(bs) =>
         match Collect(bs, CellOf(qv, answers, intended))
         case Fail(m) => Fail(m)
         case Ok(cells) => Ok(VDict([("question_value", qv), ("question_label", caption), ("values", VList(cells))])))
    case _ => Fail("KeyError")
  }

  function CellOf(qv: Value, answers: Value, intended: bool): Value -> Result<Value>
  {
    b => Cell(qv, answers, intended, b)
  }

  function RowOf(values: Value, answers: Value, intended: bool): Value -> Result<Value>
  {
    q => Row(values, answers, intended, q)
  }

  /** `grid`: one row per builder question, in order. */
  function GridSpec(cfg: Value, key: string, formData: Value, intended: bool): Result<seq<Value>>
  {
    match Index(cfg, key)
    case Fail(m) => Fail(m)
    case Ok(c) =>
      match (Index(c, "questions"), Index(c, "values"), Index(formData, key))
      case (Ok(questions), Ok(values), Ok(answers)) =>
        (match Iterate(questions)
         case Fail(m) => Fail(m)
         case Ok(qs) => Collect(qs, RowOf(values, answers, intended)))
      case _ => Fail("KeyError")
  }

  /** `grid`, building the rows and their cells with two nested loops. */
  method Grid(cfg: Value, key: string, formData: Value, intended: bool) returns (r: Result<seq<Value>>)
    ensures r == GridSpec(cfg, key, formData, intended)
  {
    var c := Index(cfg, key);
    if c.Fail? {
      return Fail(c.reason);
    }
    var questions, values, answers := Index(c.value, "questions"), Index(c.value, "values"), Index(formData, key);
    if questions.Fail? || values.Fail? || answers.Fail? {
      return Fail("KeyError");
    }
    var qs := Iterate(questions.value);
    if qs.Fail? {
      return Fail(qs.reason);
    }
    r := Rows(qs.value, values.value, answers.value, intended);
  }

  /** The loop over the questions. */
  method Rows(qs: seq<Value>, values: Value, answers: Value, intended: bool) returns (r: Result<seq<Value>>)
    ensures r == Collect(qs, RowOf(values, answers, intended))
  {
        var grid: seq<Value> := [];
    var i := 0;
    while i < |qs|
      invariant 0 <= i <= |qs|
      invariant Collect(qs[..i], RowOf(values, answers, intended)) == Ok(grid)
    {
      assert qs[..i + 1][..i] == qs[..i];
      var row := QuestionRow(values, answers, intended, qs[i]);
      if row.Fail? {
        CollectStops(qs, i + 1, RowOf(values, answers, intended));
        return Fail(row.reason);
      }
      grid := grid + [row.value];
      i := i + 1;
    }
    assert qs[..i] == qs;
    r := Ok(grid);
  }

  /** One question row, its cells built by a loop over the builder values. */
  method QuestionRow(values: Value, answers: Value, intended: bool, q: Value) returns (r: Result<Value>)
    ensures r == Row(values, answers, intended, q)
  {
    var caption, qv := Index(q, "label"), Index(q, "value");
    if caption.Fail? || qv.Fail? {
      return Fail("KeyError");
    }
    var bs := Iterate(values);
    if bs.Fail? {
      return Fail(bs.reason);
    }
        var cells: seq<Value> := [];
    var j := 0;
    while j < |bs.value|
      invariant 0 <= j <= |bs.value|
      invariant Collect(bs.value[..j], CellOf(qv.value, answers, intended)) == Ok(cells)
    {
      assert bs.value[..j + 1][..j] == bs.value[..j];
      var cell := Cell(qv.value, answers, intended, bs.value[j]);
      if cell.Fail? {
        CollectStops(bs.value, j + 1, CellOf(qv.value, answers, intended));
        return Fail(cell.reason);
      }
      cells := cells + [cell.value];
      j := j + 1;
    }
    assert bs.value[..j] == bs.value;
    r := Ok(VDict([("question_value", qv.value), ("question_label", caption.value), ("values", VList(cells))]));
  }

  /** Reading back the three entries of a cell. */
  lemma CellEntries(caption: Value, bv: Value, c: bool)
    ensures var e := [("label", caption), ("value", bv), ("checked", VBool(c))];
      GetOr(e, "label", VNone) == caption && GetOr(e, "value", VNone) == bv && GetOr(e, "checked", VNone) == VBool(c)
  {
    var e := [("label", caption), ("value", bv), ("checked", VBool(c))];
    assert e == [e[0]] + ([e[1]] + [e[2]]);
    LookupCons(e[0], [e[1]] + [e[2]], "value");
    LookupCons(e[0], [e[1]] + [e[2]], "checked");
    LookupCons(e[1], [e[2]], "checked");
  }

  /**
   * As written, a question whose value is any text but "label" or "value"
   * never has a ticked cell, whatever the form answered.
   */
  lemma AsWrittenNeverChecked(qv: string, answers: Value, b: Value)
    requires qv != "label" && qv != "value"
    requires Cell(VStr(qv), answers, false, b).Ok?
    ensures GetOr(Cell(VStr(qv), answers, false, b).value.entries, "checked", VNone) == VBool(false)
  {
    var caption, bv := Index(b, "label").value, Index(b, "value").value;
    CellEntries(caption, bv, false);
  }

  /** With the intended guard, a cell is ticked exactly when the form's answer to the question is truthy and equals the cell's value. */
  lemma IntendedChecksAnswer(qv: string, answers: seq<(string, Value)>, b: Value)
    requires Cell(VStr(qv), VDict(answers), true, b).Ok?
    ensures var a := GetOr(answers, qv, VNone);
      var e := Cell(VStr(qv), VDict(answers), true, b).value.entries;
      GetOr(e, "value", VNone) == Index(b, "value").value
      && (GetOr(e, "checked", VNone) == VBool(true) <==> Truthy(a) && PyEq(a, Index(b, "value").value))
  {
    var caption, bv := Index(b, "label").value, Index(b, "value").value;
    var a := GetOr(answers, qv, VNone);
    CellEntries(caption, bv, Truthy(a) && PyEq(a, bv));
  }

  /** A well-formed grid has one row per question and, in each row, one cell per builder value. */
  lemma GridShape(cfg: Value, key: string, formData: Value, intended: bool, rows: seq<Value>)
    requires GridSpec(cfg, key, formData, intended) == Ok(rows)
    ensures var c := Index(cfg, key).value;
      Index(c, "questions").Ok? && Iterate(Index(c, "questions").value).Ok?
      && |rows| == |Iterate(Index(c, "questions").value).value|
    ensures var c := Index(cfg, key).value;
      var qs := Iterate(Index(c, "questions").value).value;
      forall i :: 0 <= i < |rows| ==> Row(Index(c, "values").value, Index(formData, key).value, intended, qs[i]) == Ok(rows[i])
  {
    var c := Index(cfg, key).value;
    var qs := Iterate(Index(c, "questions").value).value;
    CollectOk(qs, RowOf(Index(c, "values").value, Index(formData, key).value, intended), rows);
  }

  /** The answered value of `q1` is `yes`, yet the grid as written leaves `yes` unticked. */
  lemma SurveyFinding()
    ensures Cell(VStr("q1"), VDict([("q1", VStr("yes"))]), false, VDict([("label", VStr("Yes")), ("value", VStr("yes"))]))
      == Ok(VDict([("label", VStr("Yes")), ("value", VStr("yes")), ("checked", VBool(false))]))
    ensures Cell(VStr("q1"), VDict([("q1", VStr("yes"))]), true, VDict([("label", VStr("Yes")), ("value", VStr("yes"))]))
      == Ok(VDict([("label", VStr("Yes")), ("value", VStr("yes")), ("checked", VBool(true))]))
  {
    var b := [("label", VStr("Yes")), ("value", VStr("yes"))];
    LookupCons(b[0], [b[1]], "value");
  }
}
