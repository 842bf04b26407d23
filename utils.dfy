/**
 * The helpers of `ozonenv/core/utils.py` that the schema compiler uses:
 * the label-path decoder for resource templates, the nested-dictionary
 * lookup that consumes its key list, and the lenient JSON test.
 */
module Utils {
  import opened Text
  import opened Values

  // ---------------------------------------------------------------------
  // decode_resource_template

  /** The first `>` at or after `i`, provided no line break comes before it (`.` in `<.*?>` stops at `\n`). */
  function CloseTag(s: string, i: nat): (r: Option<nat>)
    requires i <= |s|
    ensures r.Some? ==> i <= r.value < |s| && s[r.value] == '>'
    ensures r.Some? ==> forall k :: i <= k < r.value ==> s[k] != '>' && s[k] != '\n'
    decreases |s| - i
  {
    if i == |s| || s[i] == '\n' then None
    else if s[i] == '>' then Some(i)
    else CloseTag(s, i + 1)
  }

  /** `re.sub(r"<.*?>", " ", s)`: every shortest `<…>` on one line becomes a space. */
  function StripTags(s: string): string
  {
    if |s| == 0 then ""
    else if s[0] == '<' && CloseTag(s, 1).Some? then " " + StripTags(s[CloseTag(s, 1).value + 1..])
    else [s[0]] + StripTags(s[1..])
  }

  /** `re.sub(r"\{{ |\ }}", "", s)`: removes the template markers `{{ ` and ` }}`, left to right. */
  function RemoveMarkers(s: string): string
  {
    if |s| >= 3 && (s[..3] == "{{ " || s[..3] == " }}") then RemoveMarkers(s[3..])
    else if |s| == 0 then ""
    else [s[0]] + RemoveMarkers(s[1..])
  }

  /**
   * `decode_resource_template`: the dotted path inside a template such as
   * `<span>{{ item.label }}</span>`, without its first segment.
   */
  function DecodeResourceTemplate(t: string): (keys: seq<string>)
    ensures forall k :: 0 <= k < |keys| ==> '.' !in keys[k]
  {
    Split(Strip(RemoveMarkers(StripTags(t))), '.')[1..]
  }

  /** The template a form builder writes for a label reached by the path `keys` under `item`. */
  function ItemTemplate(keys: seq<string>): string
  {
    "<span>" + ("{{ item." + Join(keys, '.') + " }}") + "</span>"
  }

  /** A character that can appear in a label path without disturbing the template syntax. */
  predicate PathChar(c: char)
  {
    c != '.' && c != '<' && c != '>' && c != '{' && c != '}' && !IsSpace(c)
  }

  predicate PathKey(k: string)
  {
    forall i :: 0 <= i < |k| ==> PathChar(k[i])
  }

  lemma {:induction false} PlainStripTags(p: string, rest: string)
    requires '<' !in p
    ensures StripTags(p + rest) == p + StripTags(rest)
  {
    if |p| > 0 {
      PlainStripTags(p[1..], rest);
      var s := p + rest;
      assert s[0] == p[0] && p[0] in p;
      assert s[1..] == p[1..] + rest;
      calc {
        StripTags(s);
        [p[0]] + StripTags(p[1..] + rest);
        [p[0]] + (p[1..] + StripTags(rest));
        ([p[0]] + p[1..]) + StripTags(rest);
        { assert [p[0]] + p[1..] == p; }
        p + StripTags(rest);
      }
    } else {
      assert p + rest == rest;
    }
  }

  lemma TagStripTags(rest: string)
    ensures StripTags("<span>" + rest) == " " + StripTags(rest)
    ensures StripTags("</span>" + rest) == " " + StripTags(rest)
  {
    var a := "<span>" + rest;
    assert CloseTag(a, 5) == Some(5);
    assert CloseTag(a, 3) == Some(5);
    assert CloseTag(a, 1) == Some(5);
    assert a[6..] == rest;
    var b := "</span>" + rest;
    assert CloseTag(b, 6) == Some(6);
    assert CloseTag(b, 4) == Some(6);
    assert CloseTag(b, 2) == Some(6);
    assert CloseTag(b, 1) == Some(6);
    assert b[7..] == rest;
  }

  lemma {:induction false} PlainMarkers(p: string, rest: string)
    requires '{' !in p && ' ' !in p
    ensures RemoveMarkers(p + rest) == p + RemoveMarkers(rest)
  {
    if |p| > 0 {
      PlainMarkers(p[1..], rest);
      var s := p + rest;
      assert s[0] == p[0] && p[0] in p;
      assert |s| >= 3 ==> s[..3][0] == p[0];
      assert s[1..] == p[1..] + rest;
      calc {
        RemoveMarkers(s);
        [p[0]] + RemoveMarkers(p[1..] + rest);
        [p[0]] + (p[1..] + RemoveMarkers(rest));
        ([p[0]] + p[1..]) + RemoveMarkers(rest);
        { assert [p[0]] + p[1..] == p; }
        p + RemoveMarkers(rest);
      }
    } else {
      assert p + rest == rest;
    }
  }

  lemma JoinPathChars(keys: seq<string>, k: nat)
    requires forall j :: 0 <= j < |keys| ==> PathKey(keys[j])
    requires k < |Join(keys, '.')|
    ensures Join(keys, '.')[k] == '.' || PathChar(Join(keys, '.')[k])
    decreases |keys|
  {
    if |keys| > 1 {
      var tail := Join(keys[1..], '.');
      assert Join(keys, '.') == keys[0] + ['.'] + tail;
      if k > |keys[0]| {
        JoinPathChars(keys[1..], k - |keys[0]| - 1);
      }
    }
  }

  lemma JoinedPath(keys: seq<string>)
    requires forall j :: 0 <= j < |keys| ==> PathKey(keys[j])
    ensures var J := Join(keys, '.'); '<' !in J && '{' !in J && ' ' !in J && '>' !in J
    ensures var J := Join(keys, '.'); forall k :: 0 <= k < |J| ==> !IsSpace(J[k])
  {
    var J := Join(keys, '.');
    forall k | 0 <= k < |J|
      ensures J[k] == '.' || PathChar(J[k])
    {
      JoinPathChars(keys, k);
    }
  }

  /** A tag-free text between a `<span>` and a `</span>` keeps its text between two spaces. */
  lemma StripSpan(body: string)
    requires '<' !in body
    ensures StripTags("<span>" + body + "</span>") == " " + body + " "
  {
    var closing := "</span>";
    assert "<span>" + body + closing == "<span>" + (body + closing);
    TagStripTags(body + closing);
    PlainStripTags(body, closing);
    assert closing == closing + "";
    TagStripTags("");
    assert StripTags(closing) == " ";
  }

  /** The tags of the item template become spaces. */
  lemma StripItemBody(J: string)
    requires '<' !in J
    ensures StripTags("<span>" + ("{{ item." + J + " }}") + "</span>") == " " + ("{{ item." + J + " }}") + " "
  {
    BodyTagFree(J);
    StripSpan("{{ item." + J + " }}");
  }

  lemma BodyTagFree(J: string)
    requires '<' !in J
    ensures '<' !in "{{ item." + J + " }}"
  {
  }

  /** The markers around the path are removed, leaving the path between two spaces. */
  lemma MarkersItemTemplate(J: string)
    requires '{' !in J && ' ' !in J
    ensures RemoveMarkers(" " + ("{{ item." + J + " }}") + " ") == " " + ("item." + J) + " "
  {
    var x := "item." + J;
    var tail := x + " }} ";
    var t := " " + ("{{ item." + J + " }}") + " ";
    assert t == [' '] + ("{{ " + tail);
    assert t[..3] == " {{";
    assert t[1..] == "{{ " + tail;
    assert RemoveMarkers(t) == [' '] + RemoveMarkers("{{ " + tail);
    assert ("{{ " + tail)[..3] == "{{ ";
    assert ("{{ " + tail)[3..] == tail;
    assert '{' !in x && ' ' !in x;
    PlainMarkers(x, " }} ");
    assert " }} "[..3] == " }}";
    assert RemoveMarkers(" }} ") == " ";
  }

  lemma StripPadded(x: string)
    requires |x| > 0 && !IsSpace(x[0]) && !IsSpace(x[|x| - 1])
    ensures Strip(" " + x + " ") == x
  {
    assert TrimLeft(" " + x + " ") == x + " " by {
      assert (" " + x + " ")[1..] == x + " ";
    }
    assert TrimRight(x + " ") == x by {
      assert (x + " ")[..|x|] == x;
    }
  }

  /** Tags, markers and padding around the path text are all removed. */
  lemma CleanItemTemplate(J: string)
    requires '<' !in J && '{' !in J && ' ' !in J
    requires |J| > 0 ==> !IsSpace(J[|J| - 1])
    ensures Strip(RemoveMarkers(StripTags("<span>" + ("{{ item." + J + " }}") + "</span>"))) == "item." + J
  {
    StripItemBody(J);
    MarkersItemTemplate(J);
    StripItemPath(J);
  }

  lemma StripItemPath(J: string)
    requires |J| > 0 ==> !IsSpace(J[|J| - 1])
    ensures Strip(" " + ("item." + J) + " ") == "item." + J
  {
    var x := "item." + J;
    assert !IsSpace(x[|x| - 1]) by {
      if |J| > 0 { assert x[|x| - 1] == J[|J| - 1]; }
    }
    StripPadded(x);
  }

  /** Decoding inverts the item template: the keys of the path come back, in order. */
  lemma DecodeItemTemplate(keys: seq<string>)
    requires |keys| >= 1
    requires forall j :: 0 <= j < |keys| ==> PathKey(keys[j])
    ensures DecodeResourceTemplate(ItemTemplate(keys)) == keys
  {
    var J := Join(keys, '.');
    JoinedPath(keys);
    CleanItemTemplate(J);
    forall j | 0 <= j < |keys|
      ensures '.' !in keys[j]
    {
      assert forall i :: 0 <= i < |keys[j]| ==> PathChar(keys[j][i]);
    }
    SplitJoin(keys, '.');
    SplitPrefix("item", J, '.');
    assert "item." + J == "item" + ['.'] + J;
  }

  /** The template a select component gets when it declares none is the item template of the key `label`. */
  lemma DefaultTemplateIsItemTemplate()
    ensures ItemTemplate(["label"]) == "<span>{{ item.label }}</span>"
  {
  }

  /** A one-key template decodes to that key, so the default template yields `["label"]`. */
  lemma SingleKeyTemplate(k: string)
    requires PathKey(k)
    ensures DecodeResourceTemplate(ItemTemplate([k])) == [k]
  {
    DecodeItemTemplate([k]);
  }

  // ---------------------------------------------------------------------
  // fetch_dict_get_value

  /** A Python list of dictionary keys, shared with the caller and consumed in place. */
  class KeyList {
    var items: seq<string>

    constructor (keys: seq<string>)
      ensures items == keys
    {
      items := keys;
    }
  }

  /** What `fetch_dict_get_value` returns: the value at the end of the key path, `None` for no keys. */
  function FetchPath(src: Value, keys: seq<string>): Result<Value>
    decreases |keys|
  {
    if |keys| == 0 then Ok(VNone)
    else match DictGet(src, keys[0], VNone)
      case Fail(e) => Fail(e)
      case Ok(next) => if |keys| >= 2 then FetchPath(next, keys[1..]) else Ok(next)
  }

  /** How many keys the lookup removes from the list before it returns or raises. */
  function FetchConsumed(src: Value, keys: seq<string>): (n: nat)
    ensures n <= |keys|
    decreases |keys|
  {
    if |keys| == 0 then 0
    else match DictGet(src, keys[0], VNone)
      case Fail(_) => 1
      case Ok(next) => if |keys| >= 2 then 1 + FetchConsumed(next, keys[1..]) else 1
  }

  /**
   * `fetch_dict_get_value`: removes each key from the shared list as it
   * descends, so a successful lookup leaves the list empty.
   */
  method FetchDictGetValue(src: Value, keys: KeyList) returns (r: Result<Value>)
    modifies keys
    ensures r == FetchPath(src, old(keys.items))
    ensures keys.items == old(keys.items)[FetchConsumed(src, old(keys.items))..]
    decreases |keys.items|
  {
    if |keys.items| == 0 {
      return Ok(VNone);
    }
    var node := keys.items[0];
    keys.items := keys.items[1..];
    var next := DictGet(src, node, VNone);
    if next.Fail? {
      return Fail(next.reason);
    }
    if |keys.items| >= 1 {
      r := FetchDictGetValue(next.value, keys);
    } else {
      r := next;
    }
  }

  /** A lookup that returns consumes the whole list. */
  lemma {:induction false} FetchConsumesAll(src: Value, keys: seq<string>)
    requires FetchPath(src, keys).Ok?
    ensures FetchConsumed(src, keys) == |keys|
    decreases |keys|
  {
    if |keys| >= 2 {
      FetchConsumesAll(DictGet(src, keys[0], VNone).value, keys[1..]);
    }
  }

  /** The dictionary that holds `v` at the end of the path `keys`. */
  function Nest(keys: seq<string>, v: Value): Value
    decreases |keys|
  {
    if |keys| == 0 then v else VDict([(keys[0], Nest(keys[1..], v))])
  }

  /** Following a path through the dictionaries that nest along it finds the value. */
  lemma {:induction false} FetchNested(keys: seq<string>, v: Value)
    requires |keys| >= 1
    ensures FetchPath(Nest(keys, v), keys) == Ok(v)
    decreases |keys|
  {
    if |keys| >= 2 {
      FetchNested(keys[1..], v);
    }
  }

  /** A key missing at the last step gives `None`; missing earlier, the next `.get` raises on `None`. */
  lemma MissingKeys(k: string, j: string)
    ensures FetchPath(VDict([]), [k]) == Ok(VNone)
    ensures FetchPath(VDict([]), [k, j]).Fail?
  {
  }

  // ---------------------------------------------------------------------
  // is_json

  /** `is_json`: the parsed text, else the parsed text with `'` turned into `"`, else `False`. */
  function IsJson(s: string, ext: Externals): (r: Value)
    ensures ext.jsonLoads(s).Some? ==> r == ext.jsonLoads(s).value
  {
    match ext.jsonLoads(s)
    case Some(v) => v
    case None =>
      match ext.jsonLoads(ReplaceChar(s, '\'', '"'))
      case Some(v) => v
      case None => VBool(false)
  }

  /** Whatever `is_json` returns other than `False` was decoded from the text or its re-quoted form. */
  lemma IsJsonSources(s: string, ext: Externals)
    ensures IsJson(s, ext) == VBool(false)
      || ext.jsonLoads(s) == Some(IsJson(s, ext))
      || ext.jsonLoads(ReplaceChar(s, '\'', '"')) == Some(IsJson(s, ext))
    ensures ext.jsonLoads(s).None? && ext.jsonLoads(ReplaceChar(s, '\'', '"')).None? ==> IsJson(s, ext) == VBool(false)
  {
  }

  /** Re-quoting leaves no single quote, and text without one is retried unchanged. */
  lemma RequoteFree(s: string, ext: Externals)
    ensures '\'' !in ReplaceChar(s, '\'', '"')
    ensures '\'' !in s ==> ReplaceChar(s, '\'', '"') == s
    ensures '\'' !in s && ext.jsonLoads(s).None? ==> IsJson(s, ext) == VBool(false)
  {
    if '\'' !in s {
      assert ReplaceChar(s, '\'', '"') == s;
    }
  }
}
