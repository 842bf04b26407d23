/**
 * The pure helpers of the ORM and of the environment base class: the
 * response envelopes, the list of private models, the name a static model
 * is registered under, the class name derived from a model name, and the
 * `data_model` a model is made with.
 */
module OzonOrm {
  import opened Text
  import opened Values
  import opened BaseModels
  import opened OzonModel

  // ---------------------------------------------------------------------
  // Response envelopes

  /** `fail_response`: the data gets `err_details` only when it has none. */
  function FailResponse(err: string, errDetails: string, data: seq<(string, Value)>): (r: BasicReturn)
    ensures r.fail && r.msg == err
    ensures KeysOf(r.data) == if "err_details" in KeysOf(data) then KeysOf(data) else KeysOf(data) + ["err_details"]
  {
    LookupIsKey(data, "err_details");
    KeysPut(data, "err_details", VStr(errDetails));
    if Lookup(data, "err_details").None? then BasicReturn(true, err, Put(data, "err_details", VStr(errDetails)))
    else BasicReturn(true, err, data)
  }

  /** `success_response`: the message and the data, not failed. */
  function SuccessResponse(msg: string, data: seq<(string, Value)>): BasicReturn
  {
    BasicReturn(false, msg, data)
  }

  /** Every key of the data keeps its value; `err_details` is the given one only when the data had none. */
  lemma FailResponseLookup(err: string, errDetails: string, data: seq<(string, Value)>, k: string)
    ensures Lookup(FailResponse(err, errDetails, data).data, k)
         == if k == "err_details" && Lookup(data, k).None? then Some(VStr(errDetails)) else Lookup(data, k)
  {
    LookupPut(data, "err_details", VStr(errDetails), k);
  }

  // ---------------------------------------------------------------------
  // Model names

  /** `s.replace(c, "")`. */
  function RemoveChar(s: string, c: char): (r: string)
    ensures c !in r
    ensures forall x :: x in r <==> x in s && x != c
  {
    if |s| == 0 then "" else (if s[0] == c then "" else [s[0]]) + RemoveChar(s[1..], c)
  }

  /** The name `add_static_model` registers: spaces removed, then stripped, then lower-cased. */
  function NormalizeModelName(name: string): string
  {
    Lower(Strip(RemoveChar(name, ' ')))
  }

  lemma StripFrom(s: string)
    ensures forall x :: x in Strip(s) ==> x in s
  {
    var l := TrimLeft(s);
    var r := TrimRight(l);
    forall x | x in r ensures x in s {
      var i :| 0 <= i < |r| && r[i] == x;
      assert l[i] == x;
      assert s[i + |s| - |l|] == x;
    }
  }

  /** Lower-casing keeps a character that is not a letter. */
  lemma LowerKeeps(s: string, c: char)
    requires !IsLetter(c)
    ensures c in Lower(s) <==> c in s
  {
    if c in Lower(s) {
      var i :| 0 <= i < |s| && Lower(s)[i] == c;
      assert s[i] == c;
    }
    if c in s {
      var i :| 0 <= i < |s| && s[i] == c;
      assert Lower(s)[i] == c;
    }
  }

  /** A string without upper-case letters is its own lower case. */
  lemma LowerOfLower(s: string)
    requires forall i :: 0 <= i < |s| ==> !IsUpper(s[i])
    ensures Lower(s) == s
  {
  }

  /** A normalised name has no space, no upper-case letter, and no white space at either end. */
  lemma NormalizedShape(name: string)
    ensures var n := NormalizeModelName(name);
      ' ' !in n && (forall i :: 0 <= i < |n| ==> !IsUpper(n[i]))
      && (|n| > 0 ==> !IsSpace(n[0]) && !IsSpace(n[|n| - 1]))
  {
    var t := Strip(RemoveChar(name, ' '));
    StripFrom(RemoveChar(name, ' '));
    LowerKeeps(t, ' ');
  }

  /** Normalising a normalised name changes nothing. */
  lemma NormalizeIdempotent(name: string)
    ensures NormalizeModelName(NormalizeModelName(name)) == NormalizeModelName(name)
  {
    var n := NormalizeModelName(name);
    NormalizedShape(name);
    RemoveAbsent(n, ' ');
    if |n| > 0 {
      StripTrimmed(n);
    }
    LowerOfLower(n);
  }

  lemma {:induction false} RemoveAbsent(s: string, c: char)
    requires c !in s
    ensures RemoveChar(s, c) == s
  {
    if |s| > 0 {
      RemoveAbsent(s[1..], c);
      assert s == [s[0]] + s[1..];
    }
  }

  lemma {:induction false} RemoveConcat(x: string, y: string, c: char)
    ensures RemoveChar(x + y, c) == RemoveChar(x, c) + RemoveChar(y, c)
  {
    if |x| > 0 {
      RemoveConcat(x[1..], y, c);
      assert (x + y)[1..] == x[1..] + y;
    } else {
      assert x + y == y;
    }
  }

  /**
   * Words written with a space between them are registered joined and
   * lower-cased, as `u SEr` is registered as `user`.
   */
  lemma NormalizeTwoWords(a: string, b: string)
    requires |a| > 0 && |b| > 0 && ' ' !in a && ' ' !in b
    requires !IsSpace(a[0]) && !IsSpace(b[|b| - 1])
    ensures NormalizeModelName(a + " " + b) == Lower(a + b)
  {
    RemoveConcat(a + " ", b, ' ');
    RemoveConcat(a, " ", ' ');
    RemoveAbsent(a, ' ');
    RemoveAbsent(b, ' ');
    assert RemoveChar(" ", ' ') == "";
    assert a + "" == a;
    StripTrimmed(a + b);
  }

  /** The class name of a model: each `_`-separated word title-cased, the words joined. */
  function Camel(name: string): string
  {
    TitledConcat(Split(name, '_'))
  }

  function TitledConcat(words: seq<string>): (r: string)
    ensures forall c :: c in r ==> exists i :: 0 <= i < |words| && c in Title(words[i])
  {
    if |words| == 0 then "" else Title(words[0]) + TitledConcat(words[1..])
  }

  /** Title-casing a word without `_` gives a word without `_`. */
  lemma TitleNoUnderscore(w: string)
    requires '_' !in w
    ensures '_' !in Title(w)
  {
    TitleFromNoUnderscore(w, false);
  }

  lemma {:induction false} TitleFromNoUnderscore(w: string, after: bool)
    requires '_' !in w
    ensures '_' !in TitleFrom(w, after)
  {
    if |w| > 0 {
      TitleFromNoUnderscore(w[1..], IsLetter(w[0]));
      assert TitleFrom(w, after) == [TitleFrom(w, after)[0]] + TitleFrom(w[1..], IsLetter(w[0]));
    }
  }

  /** The class name has no `_` and is as long as the name less its underscores. */
  lemma CamelFacts(name: string)
    ensures '_' !in Camel(name)
    ensures |Camel(name)| + |Split(name, '_')| - 1 == |name|
  {
    var words := Split(name, '_');
    forall c | c in Camel(name) ensures c != '_' {
      var i :| 0 <= i < |words| && c in Title(words[i]);
      TitleNoUnderscore(words[i]);
    }
    JoinLength(words);
    JoinSplit(name, '_');
  }

  lemma {:induction false} JoinLength(words: seq<string>)
    requires |words| >= 1
    ensures |TitledConcat(words)| + |words| - 1 == |Join(words, '_')|
  {
    if |words| > 1 {
      JoinLength(words[1..]);
    }
  }

  /** Words written with `_` between them come back title-cased and joined. */
  lemma CamelOfWords(words: seq<string>)
    requires |words| >= 1 && forall i :: 0 <= i < |words| ==> '_' !in words[i]
    ensures Camel(Join(words, '_')) == TitledConcat(words)
  {
    SplitJoin(words, '_');
  }

  // ---------------------------------------------------------------------
  // make_model

  /**
   * The `data_model` of a model `make_model` creates: nothing is made
   * unless the model is static or virtual; then the argument, else the
   * schema's `data_model`, else for a non-virtual model the one of its
   * static class.
   */
  function ResolveDataModel(isStatic: bool, isVirtual: bool, dataModel: Value,
                            schema: seq<(string, Value)>, staticDataModel: Value): (r: Option<Value>)
    ensures r.Some? <==> isStatic || isVirtual
  {
    if !(isStatic || isVirtual) then None
    else
      var fromSchema := if !Truthy(dataModel) && |schema| > 0 then GetOr(schema, "data_model", VStr("")) else dataModel;
      Some(if !Truthy(fromSchema) && !isVirtual && Truthy(staticDataModel) then staticDataModel else fromSchema)
  }

  /** The precedence of the three sources; a virtual model never takes the static class's. */
  lemma ResolvePrecedence(isStatic: bool, isVirtual: bool, dataModel: Value,
                          schema: seq<(string, Value)>, staticDataModel: Value)
    requires isStatic || isVirtual
    ensures Truthy(dataModel) ==> ResolveDataModel(isStatic, isVirtual, dataModel, schema, staticDataModel) == Some(dataModel)
    ensures !Truthy(dataModel) && Truthy(GetOr(schema, "data_model", VStr("")))
      ==> ResolveDataModel(isStatic, isVirtual, dataModel, schema, staticDataModel) == Some(GetOr(schema, "data_model", VStr("")))
    ensures !Truthy(dataModel) && !Truthy(GetOr(schema, "data_model", VStr(""))) && !isVirtual && Truthy(staticDataModel)
      ==> ResolveDataModel(isStatic, isVirtual, dataModel, schema, staticDataModel) == Some(staticDataModel)
    ensures isVirtual ==> ResolveDataModel(isStatic, isVirtual, dataModel, schema, staticDataModel)
                          == ResolveDataModel(isStatic, isVirtual, dataModel, schema, VNone)
  {
    if |schema| == 0 {
      assert GetOr(schema, "data_model", VStr("")) == VStr("");
    }
  }

  // ---------------------------------------------------------------------
  // The registry

  /** The lists of the ORM that `add_static_model` and `add_private_model` extend. */
  class Orm {
    /** `orm_models`: every registered name, in order. */
    var ormModels: seq<string>
    /** The keys of `orm_static_models_map`. */
    var staticModels: seq<string>
    /** The keys of `env.models`. */
    var models: seq<string>
    var privateModels: seq<string>

    constructor ()
      ensures ormModels == ["component", "session", "attachmenttrash", "settings"]
      ensures staticModels == ["component", "session", "attachmenttrash", "settings"]
      ensures models == [] && privateModels == ["settings"]
    {
      ormModels := ["component", "session", "attachmenttrash", "settings"];
      staticModels := ["component", "session", "attachmenttrash", "settings"];
      models := [];
      privateModels := ["settings"];
    }

    /** `add_private_model`: the name is appended unless present. */
    method AddPrivateModel(name: string)
      modifies this`privateModels
      ensures privateModels == AddAbsent(old(privateModels), name)
    {
      if name !in privateModels {
        privateModels := privateModels + [name];
      }
    }

    /**
     * `add_static_model`: the normalised name is listed and made a model;
     * the class is keyed by the name as given; a private model is also
     * listed as private.
     */
    method AddStaticModel(name: string, isPrivate: bool) returns (registered: string)
      modifies this`ormModels, this`staticModels, this`models, this`privateModels
      ensures registered == NormalizeModelName(name)
      ensures ormModels == old(ormModels) + [registered]
      ensures staticModels == AddAbsent(old(staticModels), name)
      ensures models == AddAbsent(old(models), registered)
      ensures privateModels == if isPrivate then AddAbsent(old(privateModels), registered) else old(privateModels)
    {
      registered := NormalizeModelName(name);
      ormModels := ormModels + [registered];
      staticModels := AddAbsent(staticModels, name);
      models := AddAbsent(models, registered);
      if isPrivate {
        AddPrivateModel(registered);
      }
    }
  }

  /** Adding a name is idempotent, keeps the list free of duplicates and makes the name a member. */
  lemma AddAbsentFacts(xs: seq<string>, x: string)
    ensures AddAbsent(AddAbsent(xs, x), x) == AddAbsent(xs, x)
    ensures x in AddAbsent(xs, x) && xs <= AddAbsent(xs, x)
    ensures NoDup(xs) ==> NoDup(AddAbsent(xs, x))
  {
    if x !in xs && NoDup(xs) {
      NoDupAppend(xs, x);
    }
  }
}
