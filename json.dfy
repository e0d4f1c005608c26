/** The JSON values that the search log stores: Python dicts, lists, strings and numbers
    as `json.dump` writes them and `json.loads` reads them back. */
module JsonValues {
  import opened Wrappers

  /** A JSON value; an object keeps its keys in insertion order, as a Python dict does. */
  datatype Json =
    | Null
    | Bool(b: bool)
    | Int(i: int)
    | Float(f: real)
    | Str(s: string)
    | Arr(items: seq<Json>)
    | Obj(fields: seq<(string, Json)>)

  /** The value stored under `key` in an object's fields (the first one, as Python keeps
      only one). */
  function Lookup(fields: seq<(string, Json)>, key: string): (r: Option<Json>)
  {
    if fields == [] then None
    else if fields[0].0 == key then Some(fields[0].1)
    else
      var r := Lookup(fields[1..], key);
      assert forall i :: 0 < i < |fields| ==> fields[i] == fields[1..][i - 1];
      r
  }

  /** `obj[key]` on a JSON object; `None` for a missing key or a non-object. */
  function Field(j: Json, key: string): Option<Json> {
    if j.Obj? then Lookup(j.fields, key) else None
  }

  /** The keys of an object, in order. */
  function Keys(fields: seq<(string, Json)>): (ks: seq<string>)
    ensures |ks| == |fields|
    ensures forall i :: 0 <= i < |fields| ==> ks[i] == fields[i].0
  {
    if fields == [] then [] else [fields[0].0] + Keys(fields[1..])
  }

  /** A key found among `fields` keeps its value whatever fields follow. */
  lemma {:induction false} LookupPrefixWins(fields: seq<(string, Json)>, more: seq<(string, Json)>, key: string)
    requires Lookup(fields, key).Some?
    ensures Lookup(fields + more, key) == Lookup(fields, key)
  {
    if fields[0].0 != key {
      assert (fields + more)[1..] == fields[1..] + more;
      LookupPrefixWins(fields[1..], more, key);
    }
  }

  /** Adding a field at the end of an object changes a lookup only for a key the
      object did not have yet. */
  lemma {:induction false} LookupAppend(fields: seq<(string, Json)>, extra: (string, Json), key: string)
    ensures Lookup(fields + [extra], key) ==
              if Lookup(fields, key).Some? then Lookup(fields, key)
              else if extra.0 == key then Some(extra.1)
              else None
  {
    if fields != [] {
      assert (fields + [extra])[1..] == fields[1..] + [extra];
      LookupAppend(fields[1..], extra, key);
    }
  }
}
