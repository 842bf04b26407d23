/**
 * Value inference: guessing a Python type and a cleaned value from the
 * string form of a sample value (the model maker's `get_field_type`,
 * `get_field_value`, `parse_make_field`, `_make_from_dict`), and the
 * record-side variant shared by the two record facades and the model
 * (`parse_value`, `value_type`, `_value_type`).
 */
module Inference {
  import opened Text
  import opened Values
  import opened Scanner

  /** The Python types a field can be declared with. */
  datatype PyType =
    | StrT | IntT | FloatT | BoolT | DictT | ListT | DateTimeT
    | ListOf(elem: PyType)      // `list[dict]`, `List[dict]`, `List[str]`, `List[int]`
    | AnyList                   // `List[Any]`
    | ListOfModel(name: Value, fields: seq<(Value, (PyType, Value))>)  // a nested row model

  function TypeOfKind(k: Kind): PyType
  {
    match k
    case DictK => DictT
    case ListK => ListT
    case FloatK => FloatT
    case IntK => IntT
    case StringK => StrT
  }

  /** The spellings the model maker reads as booleans. */
  predicate IsBoolWord(s: string) { s == "false" || s == "true" || s == "True" || s == "False" }

  function Pow10(n: nat): (p: nat)
    ensures p >= 1
  {
    if n == 0 then 1 else 10 * Pow10(n - 1)
  }

  /** The value of a `\d*\.\d+` text, as an exact decimal. */
  function DecimalValue(t: string): real
  {
    var parts := SplitOnce(t, '.');
    var whole := KeepDigits(parts[0]);
    var frac := if |parts| == 2 then KeepDigits(parts[1]) else "";
    DigitsValue(whole) as real + DigitsValue(frac) as real / Pow10(|frac|) as real
  }

  // ---------------------------------------------------------------------
  // The model maker's inference

  /** `get_field_type` on the string form `s` of a value. */
  function FieldTypeOfText(s: string): PyType
  {
    if IsBoolWord(s) then BoolT
    else if SearchDateTime(s).Some? then DateTimeT
    else match Search(s)
      case None => StrT
      case Some(m) => if |FindAll(s)| > 1 then StrT else TypeOfKind(m.kind)
  }

  /** `get_field_value` on the string form `s` of a value. */
  function FieldValueOfText(s: string, ext: Externals): Value
  {
    if IsBoolWord(s) then VBool(Lower(s) == "true")
    else match SearchDateTime(s)
      case Some(dt) => VStr(s[dt.0..dt.1])
      case None =>
        match Search(s)
        case None => VStr(s)
        case Some(m) =>
          if m.kind != ListK && m.kind != DictK then
            if |FindAll(s)| > 1 then VStr(s)
            else if m.kind == IntK then VInt(DigitsValue(KeepDigits(MatchText(s, m))))
            else if m.kind == FloatK then VFloat(DecimalValue(MatchText(s, m)))
            else VStr(s)
          else
            match ext.jsonLoads(s)
            case Some(v) => v
            case None => VStr(s)
  }

  function FieldType(v: Value, ext: Externals): PyType
  {
    FieldTypeOfText(PyStr(v, ext))
  }

  function FieldValue(v: Value, ext: Externals): Value
  {
    FieldValueOfText(PyStr(v, ext), ext)
  }

  /** A match that spans the whole string is the only match. */
  lemma {:induction false} WholeMatchIsOnly(s: string, m: Match)
    requires |s| > 0 && MatchAt(s, 0) == Some(m) && m.end == |s|
    ensures FindAll(s) == [m] && Search(s) == Some(m)
  {
    assert FindFrom(s, |s|) == [];
  }

  /** A digit string holds no datetime, since that needs a `-`. */
  lemma NoDateTimeWithoutDash(s: string)
    requires '-' !in s
    ensures SearchDateTime(s).None?
  {
  }

  /** Inference inverts rendering: the string form of a natural number is read back as that number. */
  lemma IntRoundTrip(n: nat, ext: Externals)
    ensures FieldType(VInt(n), ext) == IntT && FieldValue(VInt(n), ext) == VInt(n)
  {
    var s := NatToDecimal(n);
    assert PyStr(VInt(n), ext) == s;
    assert !IsBoolWord(s) by { assert IsDigit(s[0]); }
    NoDateTimeWithoutDash(s);
    assert DigitRunEnd(s, 0) == |s|;
    WholeMatchIsOnly(s, Match(IntK, 0, |s|));
    assert MatchText(s, Match(IntK, 0, |s|)) == s;
    KeepDigitsOfDigits(s);
    DecimalRoundTrip(n);
  }

  /** The string form of a boolean is read back as that boolean. */
  lemma BoolRoundTrip(b: bool, ext: Externals)
    ensures FieldType(VBool(b), ext) == BoolT && FieldValue(VBool(b), ext) == VBool(b)
  {
    assert Lower("True") == "true";
    assert Lower("False") == "false";
  }

  /** A word of letters that is not a boolean spelling stays that word. */
  lemma WordRoundTrip(w: string, ext: Externals)
    requires |w| > 0 && forall k :: 0 <= k < |w| ==> IsLetter(w[k])
    requires !IsBoolWord(w)
    ensures FieldType(VStr(w), ext) == StrT && FieldValue(VStr(w), ext) == VStr(w)
  {
    NoDateTimeWithoutDash(w);
    assert LetterRunEnd(w, 0) == |w|;
    WholeMatchIsOnly(w, Match(StringK, 0, |w|));
  }

  lemma {:induction false} KeepDigitsOfDigits(s: string)
    requires forall k :: 0 <= k < |s| ==> IsDigit(s[k])
    ensures KeepDigits(s) == s
  {
    if |s| > 0 {
      KeepDigitsOfDigits(s[1..]);
      assert s == [s[0]] + s[1..];
    }
  }

  /** A single int or float match is coerced from its own text, ignoring what surrounds it. */
  lemma SingleNumberCoerced(s: string, m: Match, ext: Externals)
    requires !IsBoolWord(s) && SearchDateTime(s).None?
    requires FindAll(s) == [m] && (m.kind == IntK || m.kind == FloatK)
    requires m.start < m.end <= |s|
    ensures FieldTypeOfText(s) == TypeOfKind(m.kind)
    ensures m.kind == IntK ==> FieldValueOfText(s, ext) == VInt(DigitsValue(KeepDigits(s[m.start..m.end])))
    ensures m.kind == FloatK ==> FieldValueOfText(s, ext) == VFloat(DecimalValue(s[m.start..m.end]))
  {
    SearchIsFirstFound(s, 0);
  }

  /** Two or more matches leave the text as a string. */
  lemma SeveralMatchesStayText(s: string, ext: Externals)
    requires !IsBoolWord(s) && SearchDateTime(s).None?
    requires |FindAll(s)| > 1
    ensures FieldTypeOfText(s) == StrT
    ensures Search(s).Some? && Search(s).value.kind !in {ListK, DictK} ==> FieldValueOfText(s, ext) == VStr(s)
  {
    SearchIsFirstFound(s, 0);
  }

  /** A text that opens with a list or dict match is decoded as JSON, or kept when it does not parse. */
  lemma LeadingContainerIsJson(s: string, ext: Externals)
    requires !IsBoolWord(s) && SearchDateTime(s).None?
    requires Search(s).Some? && Search(s).value.kind in {ListK, DictK}
    ensures FieldValueOfText(s, ext) == (if ext.jsonLoads(s).Some? then ext.jsonLoads(s).value else VStr(s))
  {
  }

  /** The two brace-free digit runs of `"abc123"` make it a string. */
  lemma MixedTextIsString(ext: Externals)
    ensures FieldTypeOfText("abc123") == StrT && FieldValueOfText("abc123", ext) == VStr("abc123")
  {
    var s := "abc123";
    NoDateTimeWithoutDash(s);
    assert LetterRunEnd(s, 0) == 3;
    assert DigitRunEnd(s, 3) == 6;
    assert FindFrom(s, 3) == [Match(IntK, 3, 6)] + FindFrom(s, 6);
    assert FindAll(s) == [Match(StringK, 0, 3), Match(IntK, 3, 6)];
  }

  /** How the value pattern scans `"#12!"`: one int match on `12`. */
  lemma NoisyIntegerScan()
    ensures SearchDateTime("#12!").None?
    ensures FindAll("#12!") == [Match(IntK, 1, 3)] && Search("#12!") == Some(Match(IntK, 1, 3))
  {
    var s := "#12!";
    NoDateTimeWithoutDash(s);
    assert MatchAt(s, 0).None?;
    assert DigitRunEnd(s, 1) == 3;
    assert MatchAt(s, 3).None?;
    assert FindFrom(s, 3) == [];
    assert FindAll(s) == [Match(IntK, 1, 3)];
    SearchIsFirstFound(s, 0);
  }

  /** `int` and `float` matches keep only the captured digits: `"#12!"` is read as 12. */
  lemma NoisyIntegerIsCleaned(ext: Externals)
    ensures FieldTypeOfText("#12!") == IntT && FieldValueOfText("#12!", ext) == VInt(12)
  {
    var s := "#12!";
    NoisyIntegerScan();
    assert s[1..3] == "12";
    KeepDigitsOfDigits("12");
    assert DigitsValue("12") == 12 by { assert "12"[..1] == "1"; }
  }

  // ---------------------------------------------------------------------
  // Declared parsers

  /** The model maker's `type_def` table. */
  function TypeDefNamed(name: Value): Option<PyType>
  {
    if name == VStr("int") then Some(IntT)
    else if name == VStr("string") then Some(StrT)
    else if name == VStr("float") then Some(FloatT)
    else if name == VStr("dict") then Some(DictT)
    else if name == VStr("list") then Some(ListT)
    else if name == VStr("date") then Some(DateTimeT)
    else None
  }

  /** The callable each `type_def` entry is. */
  function CasterOf(t: PyType): Caster
  {
    match t
    case IntT => ToInt
    case StrT => ToStr
    case FloatT => ToFloat
    case DictT => ToDict
    case ListT => ToList
    case DateTimeT => ToDateTime
    case BoolT => ToBool
    case ListOf(_) => ToList
    case AnyList => ToAnyList
    case ListOfModel(_, _) => NotCallable
  }

  /**
   * `parse_make_field`: a field named in `fields_parser` is converted with
   * the declared type, any other value goes through inference.
   */
  function ParseMakeField(v: Value, k: string, parser: seq<(string, Value)>, ext: Externals): (r: Result<(PyType, Value)>)
    ensures Lookup(parser, k).None? ==> r == Ok((FieldType(v, ext), FieldValue(v, ext)))
    ensures Lookup(parser, k).Some? && r.Ok? ==>
      Index(Lookup(parser, k).value, "type").Ok?
      && TypeDefNamed(Index(Lookup(parser, k).value, "type").value) == Some(r.value.0)
      && PyCast(CasterOf(r.value.0), v, ext) == Ok(r.value.1)
  {
    match Lookup(parser, k)
    case None => Ok((FieldType(v, ext), FieldValue(v, ext)))
    case Some(entry) =>
      match Index(entry, "type")
      case Fail(e) => Fail(e)
      case Ok(name) =>
        match TypeDefNamed(name)
        case None => Fail("KeyError")
        case Some(t) =>
          match PyCast(CasterOf(t), v, ext)
          case Fail(e) => Fail(e)
          case Ok(x) => Ok((t, x))
  }

  // ---------------------------------------------------------------------
  // Inferring a field table from a sample record

  /** What `_make_from_dict` puts under each key. */
  datatype FieldSpec =
    | Typed(t: PyType, v: Value)                   // `(type, value)`
    | SubModel(fields: seq<(string, FieldSpec)>)   // `(dict, nested table)`
    | RowModels(rows: seq<seq<(string, FieldSpec)>>)  // `(List[dict], [nested tables])`
    | Kept(v: Value)                               // left as it was

  /** `_make_from_dict` on a dictionary: every key keeps its place and gets a spec. */
  function MakeFromDict(d: Value, parser: seq<(string, Value)>, ext: Externals, intended: bool): Result<seq<(string, FieldSpec)>>
    requires d.VDict?
    decreases d, 2
  {
    MakeEntriesFrom(d, 0, parser, ext, intended)
  }

  function MakeEntriesFrom(d: Value, i: nat, parser: seq<(string, Value)>, ext: Externals, intended: bool): Result<seq<(string, FieldSpec)>>
    requires d.VDict? && i <= |d.entries|
    decreases d, 1, |d.entries| - i
  {
    if i == |d.entries| then Ok([])
    else
      var (k, v) := d.entries[i];
      match InferEntry(k, v, parser, ext, intended)
      case Fail(e) => Fail(e)
      case Ok(spec) =>
        match MakeEntriesFrom(d, i + 1, parser, ext, intended)
        case Fail(e) => Fail(e)
        case Ok(rest) => Ok([(k, spec)] + rest)
  }

  /** The spec one entry gets; `intended` selects the corrected list typing. */
  function InferEntry(k: string, v: Value, parser: seq<(string, Value)>, ext: Externals, intended: bool): Result<FieldSpec>
    decreases v, 3
  {
    match v
    case VDict(_) =>
      if k == "data_value" then Ok(Typed(DictT, v))
      else
        (match MakeFromDict(v, parser, ext, intended)
         case Fail(e) => Fail(e)
         case Ok(sub) => Ok(SubModel(sub)))
    case VList(items) =>
      (match DictRows(v, 0, parser, ext, intended)
       case Fail(e) => Fail(e)
       case Ok(rows) =>
         if |rows| > 0 then Ok(RowModels(rows))
         else if intended then Ok(ListTypedByItems(items, v))
         else Ok(ListTypedAsWritten(v)))
    case _ =>
      if k == "_id" then Ok(Kept(v))
      else
        (match ParseMakeField(v, k, parser, ext)
         case Fail(e) => Fail(e)
         case Ok(tv) => Ok(Typed(tv.0, tv.1)))
  }

  /** The nested tables of the dictionary items of a list, from index `j`. */
  function DictRows(l: Value, j: nat, parser: seq<(string, Value)>, ext: Externals, intended: bool): Result<seq<seq<(string, FieldSpec)>>>
    requires l.VList? && j <= |l.items|
    decreases l, 1, |l.items| - j
  {
    if j == |l.items| then Ok([])
    else
      var x := l.items[j];
      match DictRows(l, j + 1, parser, ext, intended)
      case Fail(e) => Fail(e)
      case Ok(rest) =>
        if x.VDict? then
          (match MakeFromDict(x, parser, ext, intended)
           case Fail(e) => Fail(e)
           case Ok(row) => Ok([row] + rest))
        else Ok(rest)
  }

  /**
   * The list typing as written: the element checks run over the empty list
   * of nested tables, so both succeed and every list without dictionaries
   * is declared `List[int]`.
   */
  function ListTypedAsWritten(l: Value): FieldSpec
  {
    var noRows: seq<Value> := [];
    var allStr := forall x :: x in noRows ==> x.VStr?;
    var allInt := forall x :: x in noRows ==> x.VInt?;
    if allInt then Typed(ListOf(IntT), l)
    else if allStr then Typed(ListOf(StrT), l)
    else Kept(l)
  }

  /** The list typing by the list's own items, as the checks evidently intend. */
  function ListTypedByItems(items: seq<Value>, l: Value): FieldSpec
  {
    if forall x :: x in items ==> x.VInt? then Typed(ListOf(IntT), l)
    else if forall x :: x in items ==> x.VStr? then Typed(ListOf(StrT), l)
    else Kept(l)
  }

  /** A list of words is declared `List[str]` by the corrected typing and `List[int]` as written. */
  lemma ListOfWordsTyping(ext: Externals)
    ensures ListTypedAsWritten(VList([VStr("a"), VStr("b")])) == Typed(ListOf(IntT), VList([VStr("a"), VStr("b")]))
    ensures ListTypedByItems([VStr("a"), VStr("b")], VList([VStr("a"), VStr("b")])) == Typed(ListOf(StrT), VList([VStr("a"), VStr("b")]))
  {
    assert VStr("a") in [VStr("a"), VStr("b")];
  }

  /** The corrected typing only declares an element type that every item has. */
  lemma ListTypingSound(items: seq<Value>)
    ensures ListTypedByItems(items, VList(items)) == Typed(ListOf(IntT), VList(items)) ==> forall x :: x in items ==> x.VInt?
    ensures ListTypedByItems(items, VList(items)) == Typed(ListOf(StrT), VList(items)) ==> forall x :: x in items ==> x.VStr?
    ensures ListTypedByItems(items, VList(items)).Kept? <==> (exists x :: x in items && !x.VInt?) && (exists x :: x in items && !x.VStr?)
  {
  }

  /** The inferred table has exactly the keys of the sample, in the same order. */
  lemma {:induction false} MakeFromDictKeepsKeys(d: Value, i: nat, parser: seq<(string, Value)>, ext: Externals, intended: bool)
    requires d.VDict? && i <= |d.entries|
    requires MakeEntriesFrom(d, i, parser, ext, intended).Ok?
    ensures KeysOf(MakeEntriesFrom(d, i, parser, ext, intended).value) == KeysOf(d.entries[i..])
    decreases |d.entries| - i
  {
    if i < |d.entries| {
      MakeFromDictKeepsKeys(d, i + 1, parser, ext, intended);
      assert d.entries[i..] == [d.entries[i]] + d.entries[i + 1..];
    }
  }

  /** Without declared parsers, inference never raises. */
  lemma {:induction false} MakeFromDictTotal(d: Value, ext: Externals, intended: bool)
    requires d.VDict?
    ensures MakeFromDict(d, [], ext, intended).Ok?
    decreases d, 2
  {
    EntriesTotal(d, 0, ext, intended);
  }

  lemma {:induction false} EntriesTotal(d: Value, i: nat, ext: Externals, intended: bool)
    requires d.VDict? && i <= |d.entries|
    ensures MakeEntriesFrom(d, i, [], ext, intended).Ok?
    decreases d, 1, |d.entries| - i
  {
    if i < |d.entries| {
      EntryTotal(d.entries[i].0, d.entries[i].1, ext, intended);
      EntriesTotal(d, i + 1, ext, intended);
    }
  }

  lemma {:induction false} EntryTotal(k: string, v: Value, ext: Externals, intended: bool)
    ensures InferEntry(k, v, [], ext, intended).Ok?
    decreases v, 3
  {
    match v
    case VDict(_) =>
      if k != "data_value" { MakeFromDictTotal(v, ext, intended); }
    case VList(_) => RowsTotal(v, 0, ext, intended);
    case _ =>
  }

  lemma {:induction false} RowsTotal(l: Value, j: nat, ext: Externals, intended: bool)
    requires l.VList? && j <= |l.items|
    ensures DictRows(l, j, [], ext, intended).Ok?
    decreases l, 1, |l.items| - j
  {
    if j < |l.items| {
      RowsTotal(l, j + 1, ext, intended);
      if l.items[j].VDict? { MakeFromDictTotal(l.items[j], ext, intended); }
    }
  }

  // ---------------------------------------------------------------------
  // The record-side variant

  /**
   * `parse_value` of the record facades: only lower-case `true`/`false`,
   * checked after some match exists; a single int or float match converts
   * the WHOLE string; list and dict text goes to `json.load`, which takes a
   * file object and so raises on every string (`intended` uses `json.loads`).
   */
  function RecordParseValue(v: Value, ext: Externals, intended: bool): Result<Value>
  {
    var s := PyStr(v, ext);
    match SearchDateTime(s)
    case Some(dt) =>
      (match ext.parseDate(s[dt.0..dt.1])
       case Some(x) => Ok(x)
       case None => Fail("ParserError"))
    case None =>
      match Search(s)
      case None => Ok(VStr(s))
      case Some(m) =>
        if s == "false" || s == "true" then Ok(VBool(s == "true"))
        else if m.kind != ListK && m.kind != DictK then
          if |FindAll(s)| > 1 then Ok(VStr(s))
          else PyCast(CasterOf(TypeOfKind(m.kind)), VStr(s), ext)
        else if intended then
          (match ext.jsonLoads(s)
           case Some(x) => Ok(x)
           case None => Fail("JSONDecodeError"))
        else Fail("AttributeError: 'str' object has no attribute 'read'")
  }

  /** `value_type` of the record facades and `_value_type` of the model. */
  function RecordValueType(v: Value, ext: Externals): PyType
  {
    var s := PyStr(v, ext);
    if SearchDateTime(s).Some? then DateTimeT
    else match Search(s)
      case None => StrT
      case Some(m) =>
        if s == "false" || s == "true" then BoolT
        else if |FindAll(s)| > 1 then StrT
        else TypeOfKind(m.kind)
  }

  /** `"True"` is a boolean to the model maker and stays a string for the record facades. */
  lemma CapitalisedTrueStaysText(ext: Externals)
    ensures RecordParseValue(VStr("True"), ext, true) == Ok(VStr("True"))
    ensures FieldValueOfText("True", ext) == VBool(true)
  {
    var t := "True";
    NoDateTimeWithoutDash(t);
    assert LetterRunEnd(t, 0) == 4;
    WholeMatchIsOnly(t, Match(StringK, 0, 4));
    assert Lower(t) == "true";
  }

  /** Noise around a number makes the record parser raise where the model maker cleans it. */
  lemma NoisyIntegerRaises(ext: Externals)
    ensures RecordParseValue(VStr("#12!"), ext, true).Fail?
    ensures RecordValueType(VStr("#12!"), ext) == IntT
  {
    NoisyIntegerScan();
    NoSignNoDigitNotInt("#12!", ext);
    LoneNumberCast("#12!", ext);
  }

  /** A text whose only match is a lone number is cast by the number's type. */
  lemma LoneNumberCast(s: string, ext: Externals)
    requires SearchDateTime(s).None? && Search(s).Some? && |FindAll(s)| == 1
    requires s != "false" && s != "true" && Search(s).value.kind !in {ListK, DictK}
    ensures RecordParseValue(VStr(s), ext, true) == PyCast(CasterOf(TypeOfKind(Search(s).value.kind)), VStr(s), ext)
  {
  }

  /** `int(s)` raises on a text with no white space at either end that opens with neither a sign nor a digit. */
  lemma NoSignNoDigitNotInt(s: string, ext: Externals)
    requires |s| > 0 && !IsSpace(s[0]) && !IsSpace(s[|s| - 1])
    requires s[0] != '+' && s[0] != '-' && !IsDigit(s[0])
    ensures PyCast(CasterOf(IntT), VStr(s), ext).Fail?
  {
    StripTrimmed(s);
  }

  /** Every string that opens with a list or dict match makes the written parser raise. */
  lemma RecordParseContainerRaises(s: string, ext: Externals)
    requires SearchDateTime(s).None? && Search(s).Some? && Search(s).value.kind in {ListK, DictK}
    ensures RecordParseValue(VStr(s), ext, false).Fail?
    ensures ext.jsonLoads(s).Some? ==> RecordParseValue(VStr(s), ext, true) == Ok(ext.jsonLoads(s).value)
  {
  }

  /** `"[1]"` is a list to the inferencer and an error to the written record parser. */
  lemma ListTextRaises(ext: Externals)
    ensures Search("[1]") == Some(Match(ListK, 0, 3))
    ensures RecordParseValue(VStr("[1]"), ext, false).Fail?
  {
    var s := "[1]";
    NoDateTimeWithoutDash(s);
    assert NextCloseBracket(s, 1) == 2;
    WholeMatchIsOnly(s, Match(ListK, 0, 3));
    RecordParseContainerRaises(s, ext);
  }
}
