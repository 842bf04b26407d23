/**
 * `Record`, the dictionary-backed record of the environment: its data,
 * the `rec_name` kept beside the data, and the status of the last call.
 * Reads, display values, lifecycle flags and cloning are the shared
 * definitions of the `BaseModels` module.
 */
module OzonRecord {
  import opened Values
  import opened Inference
  import opened BaseModels

  class Record {
    const model: string
    var recName: Value
    var data: seq<(string, Value)>
    var status: string

    /** An empty `rec_name` resets `data_value` to `{}`; otherwise the name is copied into the data. */
    constructor (modelName: string, name: string, initial: seq<(string, Value)>)
      ensures model == modelName && recName == VStr(name) && status == "ok"
      ensures data == if name == "" then Put(initial, "data_value", VDict([])) else Put(initial, "rec_name", VStr(name))
    {
      model := modelName;
      recName := VStr(name);
      status := "ok";
      if name == "" {
        data := Put(initial, "data_value", VDict([]));
      } else {
        data := Put(initial, "rec_name", VStr(name));
      }
    }

    function IsError(): bool
      reads this`status
    {
      status == "error"
    }

    /** `is_active`: `data["active"] is True`, which raises when the key is missing. */
    function IsActive(): (r: Result<bool>)
      reads this`data
      ensures r.Ok? <==> "active" in KeysOf(data)
    {
      LookupIsKey(data, "active");
      match Lookup(data, "active")
      case Some(v) => Ok(v == VBool(true))
      case None => Fail("KeyError: 'active'")
    }

    function IsToDelete(): Result<bool>
      reads this`data
    {
      ToDelete(data)
    }

    function DataValue(): Value
      reads this`data
    {
      GetOr(data, "data_value", VDict([]))
    }

    function Get(path: string, default: Value): Value
      reads this`data
    {
      RecordGet(data, path, default)
    }

    /**
     * `set`: stores the parsed value (a parse that raises changes nothing)
     * or the value verbatim; storing under `rec_name` also renames the record.
     */
    method Set(key: string, val: Value, parse: bool, ext: Externals) returns (ok: bool)
      modifies this`data, this`recName
      ensures ok == (!parse || RecordParseValue(val, ext, false).Ok?)
      ensures ok ==> data == Put(old(data), key, if parse then RecordParseValue(val, ext, false).value else val)
      ensures ok ==> recName == if key == "rec_name" then GetOr(data, key, VNone) else old(recName)
      ensures !ok ==> data == old(data) && recName == old(recName)
    {
      var stored := val;
      if parse {
        var p := RecordParseValue(val, ext, false);
        if p.Fail? {
          return false;
        }
        stored := p.value;
      }
      data := Put(data, key, stored);
      if key == "rec_name" {
        recName := GetOr(data, key, VNone);
      }
      ok := true;
    }

    method SetFromChild(key: string, path: string, default: Value)
      modifies this`data
      ensures data == Put(old(data), key, RecordGet(old(data), path, default))
    {
      data := Put(data, key, RecordGet(data, path, default));
    }

    method UpdateFieldTypeValue(key: string, ext: Externals) returns (ok: bool)
      modifies this`data
      ensures ok == RecordParseValue(GetOr(old(data), key, VStr("")), ext, false).Ok?
      ensures data == if ok then Put(old(data), key, RecordParseValue(GetOr(old(data), key, VStr("")), ext, false).value) else old(data)
    {
      var p := RecordParseValue(GetOr(data, key, VStr("")), ext, false);
      if p.Fail? {
        return false;
      }
      data := Put(data, key, p.value);
      ok := true;
    }

    method SetMany(entries: seq<(string, Value)>)
      modifies this`data
      ensures data == Update(old(data), entries)
    {
      data := Update(data, entries);
    }

    /** `selction_value`: the stored value, then the display value in `data_value`. */
    method SelectionValue(key: string, value: Value, read: Value) returns (ok: bool)
      modifies this`data
      ensures (data, ok) == Selected(old(data), key, value, read)
    {
      data := Put(data, key, value);
      var dv := Lookup(data, "data_value");
      if dv.Some? && dv.value.VDict? {
        data := Put(data, "data_value", VDict(Put(dv.value.entries, key, read)));
        ok := true;
      } else {
        ok := false;
      }
    }

    method SelectionValueResources(key: string, value: Value, resources: seq<Value>, labelKey: string) returns (ok: bool)
      modifies this`data
      ensures SelectLabel(resources, value, labelKey).Fail? ==> !ok && data == old(data)
      ensures SelectLabel(resources, value, labelKey).Ok? ==>
        (data, ok) == Selected(old(data), key, value, SelectLabel(resources, value, labelKey).value)
    {
      var found := SelectLabel(resources, value, labelKey);
      if found.Fail? {
        return false;
      }
      ok := SelectionValue(key, value, found.value);
    }

    method SetActive()
      modifies this`data
      ensures data == Activated(old(data))
    {
      data := Put(data, "deleted", VInt(0));
      data := Put(data, "active", VBool(true));
    }

    method SetArchive()
      modifies this`data
      ensures data == Archived(old(data))
    {
      data := Put(data, "deleted", VInt(0));
      data := Put(data, "active", VBool(false));
    }

    method SetToDelete(timestamp: Value)
      modifies this`data
      ensures data == MarkedToDelete(old(data), timestamp)
    {
      data := Put(data, "deleted", timestamp);
      data := Put(data, "active", VBool(false));
    }

    method SetListOrder(val: Value)
      modifies this`data
      ensures data == Put(old(data), "list_order", val)
    {
      data := Put(data, "list_order", val);
    }

    method CloneData() returns (r: Result<seq<(string, Value)>>)
      ensures r.Ok? <==> "rec_name" in KeysOf(data) && "list_order" in KeysOf(data)
      ensures r.Ok? ==> forall k :: Lookup(r.value, k) == if k == "rec_name" || k == "list_order" then None else Lookup(data, k)
    {
      r := CloneRecordData(data);
    }
  }

  /** A record renamed through `set` keeps the new name both in its data and beside it. */
  lemma RenameKeepsBoth(data: seq<(string, Value)>, name: Value)
    ensures GetOr(Put(data, "rec_name", name), "rec_name", VNone) == name
  {
    LookupPut(data, "rec_name", name, "rec_name");
  }
}
