/**
 * The pure and state-keeping parts of `OzonModelBase`, the per-model
 * service: sort strings, default domains, the `data_model` default, the
 * rejection of record names with disallowed characters, the name given to
 * an unnamed record, the unique-field list, the renaming done by `copy` and
 * the title block of a distinct search. Database calls are not modelled.
 */
module OzonModel {
  import opened Text
  import opened Values
  import opened BaseModels
  import Compiler

  // ---------------------------------------------------------------------
  // eval_sort_str

  /**
   * One comma-separated segment: skipped when empty or without `:`,
   * otherwise the field and the direction of `sort_dir`, whose lookup
   * raises `KeyError` for anything but `asc` and `desc`.
   */
  function SortRule(seg: string): Result<Option<(string, int)>>
  {
    if seg == "" then Ok(None)
    else
      var parts := Split(seg, ':');
      if |parts| <= 1 then Ok(None)
      else if parts[1] == "asc" then Ok(Some((parts[0], 1)))
      else if parts[1] == "desc" then Ok(Some((parts[0], -1)))
      else Fail("KeyError")
  }

  function SortRulesOf(segs: seq<string>): Result<seq<(string, int)>>
    decreases |segs|
  {
    if |segs| == 0 then Ok([])
    else match SortRule(segs[0])
      case Fail(e) => Fail(e)
      case Ok(r) => Prepended(if r.Some? then [r.value] else [], SortRulesOf(segs[1..]))
  }

  function Prepended(acc: seq<(string, int)>, r: Result<seq<(string, int)>>): Result<seq<(string, int)>>
  {
    match r
    case Ok(rest) => Ok(acc + rest)
    case Fail(e) => Fail(e)
  }

  /** The rules of a sort string; an empty one stands for the model's default. */
  function SortRules(sortstr: string, default: string): Result<seq<(string, int)>>
  {
    SortRulesOf(Split(if sortstr == "" then default else sortstr, ','))
  }

  /** A field name that can be written in a sort string. */
  predicate SortField(f: string) { |f| > 0 && ',' !in f && ':' !in f }

  function DirName(dir: int): string { if dir == 1 then "asc" else "desc" }

  /** A sort string naming each rule as `field:asc` or `field:desc`. */
  function SortText(rules: seq<(string, int)>): string
  {
    Join(seq(|rules|, i requires 0 <= i < |rules| => rules[i].0 + ":" + DirName(rules[i].1)), ',')
  }

  lemma RuleOfSegment(f: string, dir: int)
    requires SortField(f) && (dir == 1 || dir == -1)
    ensures SortRule(f + ":" + DirName(dir)) == Ok(Some((f, dir)))
  {
    var d := DirName(dir);
    assert Join([f, d], ':') == f + ":" + d;
    SplitJoin([f, d], ':');
  }

  lemma {:induction false} RulesOfSegments(rules: seq<(string, int)>)
    requires forall i :: 0 <= i < |rules| ==> SortField(rules[i].0) && (rules[i].1 == 1 || rules[i].1 == -1)
    ensures SortRulesOf(seq(|rules|, i requires 0 <= i < |rules| => rules[i].0 + ":" + DirName(rules[i].1))) == Ok(rules)
    decreases |rules|
  {
    if |rules| > 0 {
      var segs := seq(|rules|, i requires 0 <= i < |rules| => rules[i].0 + ":" + DirName(rules[i].1));
      RuleOfSegment(rules[0].0, rules[0].1);
      RulesOfSegments(rules[1..]);
      assert segs[1..] == seq(|rules[1..]|, i requires 0 <= i < |rules[1..]| => rules[1..][i].0 + ":" + DirName(rules[1..][i].1));
      assert [rules[0]] + rules[1..] == rules;
    }
  }

  /** Parsing the text of a non-empty list of rules gives the rules back. */
  lemma SortTextRoundTrip(rules: seq<(string, int)>, default: string)
    requires |rules| >= 1
    requires forall i :: 0 <= i < |rules| ==> SortField(rules[i].0) && (rules[i].1 == 1 || rules[i].1 == -1)
    ensures SortRules(SortText(rules), default) == Ok(rules)
  {
    var segs := seq(|rules|, i requires 0 <= i < |rules| => rules[i].0 + ":" + DirName(rules[i].1));
    forall k | 0 <= k < |segs|
      ensures ',' !in segs[k]
    {
      assert segs[k] == rules[k].0 + ":" + DirName(rules[k].1);
    }
    SplitJoin(segs, ',');
    RulesOfSegments(rules);
  }

  /** A segment with an unknown direction raises. */
  lemma UnknownDirectionRaises(f: string, d: string, default: string)
    requires SortField(f) && ',' !in d && ':' !in d && d != "asc" && d != "desc"
    ensures SortRules(f + ":" + d, default).Fail?
  {
    assert Join([f, d], ':') == f + ":" + d;
    SplitJoin([f, d], ':');
    SplitFree(f + ":" + d, ',');
  }

  /** A segment without a colon is skipped. */
  lemma NoColonSkipped(seg: string, default: string)
    requires |seg| > 0 && ',' !in seg && ':' !in seg
    ensures SortRules(seg, default) == Ok([])
  {
    SplitFree(seg, ',');
    SplitFree(seg, ':');
    assert SortRule(seg) == Ok(None);
    assert [seg][1..] == [];
    assert SortRulesOf([seg]) == Prepended([], SortRulesOf([]));
    PrependedNothing(Ok([]));
  }

  /** A default of the form `<field>:desc,` sorts by that field descending; the trailing empty segment is skipped. */
  lemma DefaultSortOf(f: string)
    requires SortField(f)
    ensures SortRules("", f + ":desc,") == Ok([(f, -1)])
  {
    var seg := f + ":" + "desc";
    assert f + ":desc," == seg + [','] + "";
    SplitPrefix(seg, "", ',');
    RuleOfSegment(f, -1);
    var segs := [seg, ""];
    assert Split(f + ":desc,", ',') == segs;
    assert segs[1..] == [""];
    assert [""][1..] == [];
    assert SortRule("") == Ok(None);
    assert SortRulesOf([""]) == Prepended([], SortRulesOf([]));
    PrependedNothing(Ok([]));
    assert SortRulesOf(segs) == Prepended([(f, -1)], SortRulesOf([""]));
    assert [(f, -1)] + [] == [(f, -1)];
  }

  /** The built-in default `list_order:desc,` sorts by `list_order` descending. */
  lemma DefaultSortOrder()
    ensures SortRules("", "list_order:desc,") == Ok([("list_order", -1)])
  {
    var f := "list_order";
    assert SortField(f);
    DefaultSortOf(f);
    assert f + ":desc," == "list_order:desc,";
  }

  lemma PrependedNothing(r: Result<seq<(string, int)>>)
    ensures Prepended([], r) == r
  {
    if r.Ok? {
      assert [] + r.value == r.value;
    }
  }

  lemma PrependedTwice(a: seq<(string, int)>, b: seq<(string, int)>, r: Result<seq<(string, int)>>)
    ensures Prepended(a, Prepended(b, r)) == Prepended(a + b, r)
  {
    if r.Ok? {
      assert a + (b + r.value) == (a + b) + r.value;
    }
  }

  // ---------------------------------------------------------------------
  // get_domain

  /** `default_domain`. */
  const DefaultDomain: seq<(string, Value)> := [("active", VBool(true)), ("deleted", VInt(0))]

  /** `get_domain`: a copy of the default domain updated with the given keys. */
  function GetDomain(domain: seq<(string, Value)>): seq<(string, Value)>
  {
    Update(DefaultDomain, domain)
  }

  lemma {:induction false} UpdateLookup(d: seq<(string, Value)>, e: seq<(string, Value)>, k: string)
    requires UniqueKeys(e)
    ensures Lookup(Update(d, e), k) == if Lookup(e, k).Some? then Lookup(e, k) else Lookup(d, k)
    decreases |e|
  {
    if |e| > 0 {
      assert UniqueKeys(e[1..]) by {
        forall i, j | 0 <= i < j < |e[1..]| ensures e[1..][i].0 != e[1..][j].0 {
          assert e[1..][i] == e[i + 1] && e[1..][j] == e[j + 1];
        }
      }
      UpdateLookup(Put(d, e[0].0, e[0].1), e[1..], k);
      LookupPut(d, e[0].0, e[0].1, k);
      if e[0].0 == k {
        MissingAfter(e, k);
      }
    }
  }

  /** A key of the given domain wins; otherwise `active` is true, `deleted` is 0 and nothing else is set. */
  lemma GetDomainLookup(domain: seq<(string, Value)>, k: string)
    requires UniqueKeys(domain)
    ensures Lookup(GetDomain(domain), k)
         == if Lookup(domain, k).Some? then Lookup(domain, k)
            else if k == "active" then Some(VBool(true))
            else if k == "deleted" then Some(VInt(0))
            else None
  {
    UpdateLookup(DefaultDomain, domain, k);
    LookupCons(("active", VBool(true)), [("deleted", VInt(0))], k);
    LookupCons(("deleted", VInt(0)), [], k);
  }

  // ---------------------------------------------------------------------
  // Record names

  /** The characters of `[A-Za-z0-9._~()'!*:@,;+?-]`. */
  predicate NameChar(c: char)
  {
    IsLetter(c) || IsDigit(c) || c in "._~()'!*:@,;+?-"
  }

  /** A record name made of allowed characters only: what the check is meant to accept. */
  predicate NameAllowed(s: string)
  {
    forall i :: 0 <= i < |s| ==> NameChar(s[i])
  }

  /**
   * `name_allowed.match(s)` as written: the pattern ends in `$`, which
   * also matches just before a final newline.
   */
  predicate NameAllowedAsWritten(s: string)
  {
    NameAllowed(s) || (|s| > 0 && s[|s| - 1] == '\n' && NameAllowed(s[..|s| - 1]))
  }

  /** The written check lets an allowed name followed by a newline through; the intended one does not. */
  lemma TrailingNewlineAccepted(s: string)
    requires NameAllowed(s)
    ensures NameAllowedAsWritten(s + "\n")
    ensures !NameAllowed(s + "\n")
  {
    assert (s + "\n")[..|s|] == s;
    assert !NameChar((s + "\n")[|s|]);
  }

  /** The intended check accepts only what the written one accepts, and rejects white space and `/`. */
  lemma NameAllowedSound(s: string)
    ensures NameAllowed(s) ==> NameAllowedAsWritten(s)
    ensures NameAllowed(s) ==> ' ' !in s && '/' !in s && '\n' !in s
  {
  }

  /** The generated name `<data_model>.<id>` passes whenever both parts do. */
  lemma GeneratedNameAllowed(dataModel: string, id: string)
    requires NameAllowed(dataModel) && NameAllowed(id)
    ensures NameAllowed(dataModel + "." + id)
  {
    var s := dataModel + "." + id;
    forall i | 0 <= i < |s| ensures NameChar(s[i]) {
      if i < |dataModel| {
        assert s[i] == dataModel[i];
      } else if i > |dataModel| {
        assert s[i] == id[i - |dataModel| - 1];
      }
    }
  }

  /** The message `new` records for a rejected name. */
  function NotAllowedMessage(name: string): string
  {
    "Not allowed chars in field name: " + name
  }

  // ---------------------------------------------------------------------
  // Unique fields and private models: appending what is absent

  /** `if x not in xs: xs.append(x)`. */
  function AddAbsent<T(==)>(xs: seq<T>, x: T): seq<T>
  {
    if x in xs then xs else xs + [x]
  }

  function MergeAbsent<T(==)>(xs: seq<T>, ys: seq<T>): seq<T>
    decreases |ys|
  {
    if |ys| == 0 then xs else MergeAbsent(AddAbsent(xs, ys[0]), ys[1..])
  }

  /** Merging keeps the list as a prefix, holds exactly the elements of both lists, and adds no duplicate. */
  lemma {:induction false} MergeAbsentFacts<T>(xs: seq<T>, ys: seq<T>)
    ensures xs <= MergeAbsent(xs, ys)
    ensures forall x :: x in MergeAbsent(xs, ys) <==> x in xs || x in ys
    ensures NoDup(xs) ==> NoDup(MergeAbsent(xs, ys))
    decreases |ys|
  {
    if |ys| > 0 {
      var xs1 := AddAbsent(xs, ys[0]);
      if ys[0] !in xs && NoDup(xs) {
        NoDupAppend(xs, ys[0]);
      }
      MergeAbsentFacts(xs1, ys[1..]);
      assert forall x :: x in ys <==> x == ys[0] || x in ys[1..];
    }
  }

  /** Merging elements that are all present already changes nothing, so merging twice is merging once. */
  lemma {:induction false} MergePresent<T>(xs: seq<T>, ys: seq<T>)
    requires forall y :: y in ys ==> y in xs
    ensures MergeAbsent(xs, ys) == xs
    decreases |ys|
  {
    if |ys| > 0 {
      MergePresent(xs, ys[1..]);
    }
  }

  lemma MergeIdempotent<T>(xs: seq<T>, ys: seq<T>)
    ensures MergeAbsent(MergeAbsent(xs, ys), ys) == MergeAbsent(xs, ys)
  {
    MergeAbsentFacts(xs, ys);
    MergePresent(MergeAbsent(xs, ys), ys);
  }

  // ---------------------------------------------------------------------
  // copy

  /**
   * The name `copy` gives the reloaded record: `<name>_copy` when it does
   * not contain the model name, otherwise `<data_model>.<new id>`.
   */
  function CopyRecName(modelName: string, dataModel: string, loaded: string, newId: string): string
  {
    if Contains(loaded, modelName) then dataModel + "." + newId else loaded + "_copy"
  }

  /**
   * The copy's name differs from the original's: a name without the model
   * name is extended, and any other one is replaced by the data model and
   * the new id. Either way a name made of allowed characters stays so, as
   * `new` then requires.
   */
  lemma CopyRecNameAllowed(modelName: string, dataModel: string, loaded: string, newId: string)
    requires NameAllowed(loaded) && NameAllowed(dataModel) && NameAllowed(newId)
    ensures NameAllowed(CopyRecName(modelName, dataModel, loaded, newId))
    ensures !Contains(loaded, modelName) ==> loaded < CopyRecName(modelName, dataModel, loaded, newId)
  {
    if Contains(loaded, modelName) {
      GeneratedNameAllowed(dataModel, newId);
    } else {
      var r := loaded + "_copy";
      forall i | 0 <= i < |r| ensures NameChar(r[i]) {
        if i < |loaded| {
          assert r[i] == loaded[i];
        } else {
          assert r[i] in "_copy";
        }
      }
    }
  }

  /**
   * `record.set(k, f"{record.get(k)}_copy")` for each unique field other
   * than `rec_name`, on the record's attributes: a key that is not a string
   * raises in `get`, as does a missing plain name, and `set` raises for a
   * name that is not a field.
   */
  function CopySuffixed(d: seq<(string, Value)>, uniques: seq<Value>, ext: Externals): Result<seq<(string, Value)>>
    decreases |uniques|
  {
    if |uniques| == 0 then Ok(d)
    else
      var u := uniques[0];
      if u == VStr("rec_name") then CopySuffixed(d, uniques[1..], ext)
      else if !u.VStr? then Fail("TypeError")
      else match AttrGet(d, u.s, VNone)
        case Fail(m) => Fail(m)
        case Ok(v) =>
          if u.s in KeysOf(d) then CopySuffixed(Put(d, u.s, VStr(PyStr(v, ext) + "_copy")), uniques[1..], ext)
          else Fail("ValueError")
  }

  /** Each listed plain field other than `rec_name` gets `_copy` appended once; every other field is kept. */
  lemma {:induction false} CopySuffixedLookup(d: seq<(string, Value)>, uniques: seq<Value>, ext: Externals, k: string)
    requires NoDup(uniques)
    requires forall u :: u in uniques ==> u.VStr? && '.' !in u.s && Lookup(d, u.s).Some?
    ensures CopySuffixed(d, uniques, ext).Ok?
    ensures Lookup(CopySuffixed(d, uniques, ext).value, k)
         == if VStr(k) in uniques && k != "rec_name" then Some(VStr(PyStr(Lookup(d, k).value, ext) + "_copy")) else Lookup(d, k)
    decreases |uniques|
  {
    if |uniques| > 0 {
      var u := uniques[0];
      assert NoDup(uniques[1..]) by {
        forall i, j | 0 <= i < j < |uniques[1..]| ensures uniques[1..][i] != uniques[1..][j] {
          assert uniques[1..][i] == uniques[i + 1] && uniques[1..][j] == uniques[j + 1];
        }
      }
      assert u !in uniques[1..] by {
        forall i | 0 <= i < |uniques[1..]| ensures uniques[1..][i] != u {
          assert uniques[1..][i] == uniques[i + 1];
        }
      }
      if u == VStr("rec_name") {
        CopySuffixedLookup(d, uniques[1..], ext, k);
      } else {
        var v := VStr(PyStr(Lookup(d, u.s).value, ext) + "_copy");
        LookupIsKey(d, u.s);
        var d1 := Put(d, u.s, v);
        forall w | w in uniques[1..] ensures Lookup(d1, w.s).Some? {
          LookupPut(d, u.s, v, w.s);
        }
        CopySuffixedLookup(d1, uniques[1..], ext, k);
        LookupPut(d, u.s, v, k);
      }
    }
  }

  /** A unique field other than `rec_name` whose key is not a string makes the copy raise. */
  lemma {:induction false} CopySuffixedNonString(d: seq<(string, Value)>, uniques: seq<Value>, ext: Externals, i: nat)
    requires i < |uniques| && !uniques[i].VStr?
    ensures CopySuffixed(d, uniques, ext).Fail?
    decreases i
  {
    if i > 0 {
      var u := uniques[0];
      assert uniques[1..][i - 1] == uniques[i];
      if u == VStr("rec_name") {
        CopySuffixedNonString(d, uniques[1..], ext, i - 1);
      } else if u.VStr? && AttrGet(d, u.s, VNone).Ok? && u.s in KeysOf(d) {
        CopySuffixedNonString(Put(d, u.s, VStr(PyStr(AttrGet(d, u.s, VNone).value, ext) + "_copy")), uniques[1..], ext, i - 1);
      }
    }
  }

  // ---------------------------------------------------------------------
  // search_all_distinct

  /**
   * The `$concat` block of the title of a distinct search: `$<field>` for
   * each comma-separated field, with `" - "` between neighbours.
   */
  method LabelBlock(computeLabel: string) returns (block: seq<string>)
    ensures var fields := Split(computeLabel, ',');
      |block| == 2 * |fields| - 1
      && (forall i :: 0 <= i < |fields| ==> block[2 * i] == "$" + fields[i])
      && (forall i :: 0 <= i < |fields| - 1 ==> block[2 * i + 1] == " - ")
  {
    var fields := Split(computeLabel, ',');
    block := [];
    var n := 0;
    while n < |fields|
      invariant 0 <= n <= |fields|
      invariant |block| == if n == 0 then 0 else 2 * n - 1
      invariant forall i :: 0 <= i < n ==> block[2 * i] == "$" + fields[i]
      invariant forall i :: 0 <= i < n - 1 ==> block[2 * i + 1] == " - "
    {
      if |block| > 0 {
        block := block + [" - "];
      }
      block := block + ["$" + fields[n]];
      n := n + 1;
    }
  }

  /** The title expression: the first `title` without a label, else the first of the concatenated block. */
  function DistinctTitle(computeLabel: string, block: seq<string>): (r: Value)
    ensures r.VDict? && |r.entries| == 1 && r.entries[0].0 == "$first"
    ensures computeLabel == "" <==> r.entries[0].1 == VStr("$title")
    ensures computeLabel != "" ==>
      var c := r.entries[0].1;
      c.VDict? && |c.entries| == 1 && c.entries[0].0 == "$concat" && c.entries[0].1.VList?
      && |c.entries[0].1.items| == |block| && forall i :: 0 <= i < |block| ==> c.entries[0].1.items[i] == VStr(block[i])
  {
    if computeLabel == "" then VDict([("$first", VStr("$title"))])
    else VDict([("$first", VDict([("$concat", VList(seq(|block|, i requires 0 <= i < |block| => VStr(block[i]))))]))])
  }

  // ---------------------------------------------------------------------
  // The model service

  /** `data_model`: the argument for a virtual model, otherwise the argument or the model name. */
  function DataModelOf(modelName: string, dataModel: string, isVirtual: bool): (r: string)
    ensures isVirtual ==> r == dataModel
    ensures !isVirtual ==> r != "" || modelName == ""
    ensures !isVirtual && dataModel != "" ==> r == dataModel
    ensures !isVirtual && dataModel == "" ==> r == modelName
  {
    if isVirtual then dataModel else if dataModel != "" then dataModel else modelName
  }

  /** The names of a static class's unique fields, as the values the model maker lists. */
  function StrValues(names: seq<string>): (r: seq<Value>)
    ensures |r| == |names| && forall i :: 0 <= i < |names| ==> r[i] == VStr(names[i])
  {
    seq(|names|, i requires 0 <= i < |names| => VStr(names[i]))
  }

  class ModelBase {
    const name: string
    const dataModel: string
    const isVirtual: bool
    const isSessionModel: bool
    /** The model maker `mm` of `init_model`. */
    const mm: Compiler.Builder
    /** Whether `from_formio` finished; when it raised, so did the constructor. */
    const compiled: bool
    var defaultSortStr: string
    var status: BasicReturn
    /** The fields of `model_record`. */
    var record: seq<(string, Value)>

    /** The `unique_fields` property: the model maker's list. */
    function UniqueFields(): seq<Value>
      reads mm`tables
    {
      mm.tables.uniqueFields
    }

    /**
     * `__init__` and `init_model`: the model maker starts from
     * `["rec_name"]`; a static model merges its class's unique fields into
     * it, and a model that is neither static nor virtual compiles its form,
     * whose unique components the maker lists after `rec_name`. The sort
     * stays `list_order:desc,`: the form's sort is read from a fresh
     * component whose properties are always empty.
     */
    constructor (modelName: string, dataModelArg: string, sessionModel: bool, virtual: bool,
                 staticUnique: Option<seq<string>>, schema: seq<(string, Value)>, ext: Externals)
      ensures name == modelName && isVirtual == virtual && isSessionModel == sessionModel
      ensures dataModel == DataModelOf(modelName, dataModelArg, virtual)
      ensures status == BasicReturn(false, "", []) && record == [] && defaultSortStr == "list_order:desc,"
      ensures fresh(mm)
      ensures |UniqueFields()| > 0 && UniqueFields()[0] == VStr("rec_name")
      ensures staticUnique.Some? ==> compiled && UniqueFields() == MergeAbsent([VStr("rec_name")], StrValues(staticUnique.value))
      ensures staticUnique.None? && virtual ==> compiled && UniqueFields() == [VStr("rec_name")]
      ensures staticUnique.None? && !virtual ==>
        compiled == (Compiler.TodoOf(schema).Ok? && Compiler.TodoVisit(Compiler.TodoOf(schema).value, 0).ok)
        && mm.Valid() && mm.parent == VStr("")
        && forall k :: k in UniqueFields() ==> k in mm.tables.noCloneFieldKeys
    {
      name := modelName;
      isVirtual := virtual;
      isSessionModel := sessionModel;
      dataModel := DataModelOf(modelName, dataModelArg, virtual);
      status := BasicReturn(false, "", []);
      record := [];
      defaultSortStr := "list_order:desc,";
      var maker := new Compiler.Builder(VStr(modelName), null, ext);
      var ok := true;
      if staticUnique.None? && !virtual {
        ok := maker.FromFormio(schema, VStr(""));
      }
      mm := maker;
      compiled := ok;
      new;
      if staticUnique.Some? {
        MergeAbsentFacts([VStr("rec_name")], StrValues(staticUnique.value));
        MergeUnique(StrValues(staticUnique.value));
      }
    }

    /** The merge loop of `init_model`, on the model maker's list. */
    method MergeUnique(fields: seq<Value>)
      modifies mm`tables
      ensures mm.tables == old(mm.tables).(uniqueFields := MergeAbsent(old(UniqueFields()), fields))
    {
      var i := 0;
      while i < |fields|
        invariant 0 <= i <= |fields|
        invariant mm.tables == old(mm.tables).(uniqueFields := mm.tables.uniqueFields)
        invariant MergeAbsent(UniqueFields(), fields[i..]) == MergeAbsent(old(UniqueFields()), fields)
      {
        assert fields[i..][1..] == fields[i + 1..];
        if fields[i] !in mm.tables.uniqueFields {
          mm.tables := mm.tables.(uniqueFields := mm.tables.uniqueFields + [fields[i]]);
        }
        i := i + 1;
      }
      assert fields[i..] == [];
    }

    /** `eval_sort_str`. */
    method EvalSortStr(sortstr: string) returns (r: Result<seq<(string, int)>>)
      ensures r == SortRules(sortstr, defaultSortStr)
    {
      var s := if sortstr == "" then defaultSortStr else sortstr;
      var rules := Split(s, ',');
      var sort: seq<(string, int)> := [];
      PrependedNothing(SortRulesOf(rules));
      var i := 0;
      while i < |rules|
        invariant 0 <= i <= |rules|
        invariant SortRulesOf(rules) == Prepended(sort, SortRulesOf(rules[i..]))
      {
        assert rules[i..][1..] == rules[i + 1..];
        var rule := rules[i];
        var r0 := SortRule(rule);
        if rule != "" {
          var parts := Split(rule, ':');
          if |parts| > 1 {
            if parts[1] != "asc" && parts[1] != "desc" {
              assert SortRulesOf(rules[i..]).Fail?;
              return Fail("KeyError");
            }
          }
        }
        var add := if r0.Ok? && r0.value.Some? then [r0.value.value] else [];
        PrependedTwice(sort, add, SortRulesOf(rules[i + 1..]));
        sort := sort + add;
        i := i + 1;
      }
      assert rules[i..] == [];
      assert sort + [] == sort;
      return Ok(sort);
    }

    method InitStatus()
      modifies this`status
      ensures status == BasicReturn(false, "", [])
    {
      status := BasicReturn(false, "", []);
    }

    method ErrorStatus(msg: string, data: seq<(string, Value)>)
      modifies this`status
      ensures status == BasicReturn(true, msg, data)
    {
      status := BasicReturn(true, msg, data);
    }

    /** The data `new` passes on: a given name is stored when the data is empty or the model is virtual, except for sessions. */
    function NewData(data: seq<(string, Value)>, recName: string): seq<(string, Value)>
      reads this
    {
      if ((|data| == 0 && recName != "") || (recName != "" && isVirtual)) && !isSessionModel
      then Put(data, "rec_name", VStr(recName)) else data
    }

    /**
     * The record `_load_data` makes of the data (a virtual model drops a
     * truthy `_id`): an unnamed record of a non-session model is named
     * `<data_model>.<id>`.
     */
    function Loaded(data: seq<(string, Value)>, id: string): seq<(string, Value)>
      reads this
    {
      var rec := if isVirtual && Truthy(GetOr(data, "_id", VNone)) then Remove(data, "_id") else data;
      if !isSessionModel && !Truthy(GetOr(rec, "rec_name", VStr(""))) then Put(rec, "rec_name", VStr(dataModel + "." + id))
      else rec
    }

    method LoadData(data: seq<(string, Value)>, id: string)
      modifies this`record
      ensures record == Loaded(data, id)
    {
      var rec := data;
      if isVirtual && Truthy(GetOr(rec, "_id", VNone)) {
        rec := Remove(rec, "_id");
      }
      record := rec;
      if !isSessionModel && !Truthy(GetOr(record, "rec_name", VStr(""))) {
        record := Put(record, "rec_name", VStr(dataModel + "." + id));
      }
    }

    /**
     * `new`: loads the data, refuses a record name with a disallowed
     * character (setting the error status and returning `None`), and
     * otherwise activates the record.
     */
    method New(data: seq<(string, Value)>, recName: string, id: string) returns (ok: bool)
      modifies this`status, this`record
      ensures record == (if ok then Activated(Loaded(NewData(data, recName), id)) else Loaded(NewData(data, recName), id))
      ensures var n := GetOr(Loaded(NewData(data, recName), id), "rec_name", VStr(""));
        ok == (n.VStr? && NameAllowed(n.s))
        && (ok ==> status == BasicReturn(false, "", []))
        && (!ok && n.VStr? ==> status == BasicReturn(true, NotAllowedMessage(n.s), NewData(data, recName)))
        && (!n.VStr? ==> status == BasicReturn(false, "", []))
    {
      InitStatus();
      var d := NewData(data, recName);
      LoadData(d, id);
      var n := GetOr(record, "rec_name", VStr(""));
      if !n.VStr? {
        return false;
      }
      if !NameAllowed(n.s) {
        ErrorStatus(NotAllowedMessage(n.s), d);
        return false;
      }
      record := Put(record, "deleted", VInt(0));
      record := Put(record, "active", VBool(true));
      ok := true;
    }

    /** The renaming loop of `copy` over the unique fields of the reloaded record. */
    method SuffixUniques(rec: CoreModel, ext: Externals) returns (ok: bool)
      modifies rec`attrs
      ensures ok == CopySuffixed(old(rec.attrs), UniqueFields(), ext).Ok?
      ensures ok ==> rec.attrs == CopySuffixed(old(rec.attrs), UniqueFields(), ext).value
    {
      var uniques := UniqueFields();
      var i := 0;
      while i < |uniques|
        invariant 0 <= i <= |uniques|
        invariant CopySuffixed(rec.attrs, uniques[i..], ext) == CopySuffixed(old(rec.attrs), uniques, ext)
      {
        assert uniques[i..][1..] == uniques[i + 1..];
        var k := uniques[i];
        if k != VStr("rec_name") {
          if !k.VStr? {
            return false;
          }
          var v := rec.Get(k.s, VNone);
          if v.Fail? {
            return false;
          }
          var stored := rec.Set(k.s, VStr(PyStr(v.value, ext) + "_copy"));
          if !stored {
            return false;
          }
        }
        i := i + 1;
      }
      assert uniques[i..] == [];
      ok := true;
    }
  }

  /** A record loaded without a name by a non-session model is named after the data model and its id. */
  lemma UnnamedRecordNamed(m: ModelBase, data: seq<(string, Value)>, id: string)
    requires !m.isSessionModel && !Truthy(GetOr(data, "rec_name", VStr("")))
    ensures Lookup(m.Loaded(data, id), "rec_name") == Some(VStr(m.dataModel + "." + id))
  {
    var rec := if m.isVirtual && Truthy(GetOr(data, "_id", VNone)) then Remove(data, "_id") else data;
    LookupRemove(data, "_id", "rec_name");
    assert GetOr(rec, "rec_name", VStr("")) == GetOr(data, "rec_name", VStr(""));
    LookupPut(rec, "rec_name", VStr(m.dataModel + "." + id), "rec_name");
  }
}
