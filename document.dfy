/**
 * The raw document a tree is built from: what a YAML loader returns, with
 * scalars, order-preserving mappings and lists.
 */
module Document {
  import opened Wrappers

  datatype Value =
    | Str(s: string)
    | Int(i: int)
    | Bool(b: bool)
    | Null
    | Map(entries: seq<KV>)
    | List(items: seq<Value>)

  /** One key of a mapping, in declaration order. */
  datatype KV = KV(key: string, val: Value)

  /** The value stored under `key`, or None; with repeated keys the first one is taken. */
  function Lookup(entries: seq<KV>, key: string): (r: Option<Value>)
    ensures r.None? <==> forall i :: 0 <= i < |entries| ==> entries[i].key != key
    ensures r.Some? ==> exists i :: 0 <= i < |entries| && entries[i].key == key && entries[i].val == r.value
                                    && forall j :: 0 <= j < i ==> entries[j].key != key
  {
    if |entries| == 0 then None
    else if entries[0].key == key then Some(entries[0].val)
    else
      var r := Lookup(entries[1..], key);
      assert forall i :: 1 <= i < |entries| ==> entries[i] == entries[1..][i - 1];
      r
  }

  /** Keyed access on a raw value (`override.key`): only a mapping has keys. */
  function Field(v: Value, key: string): Option<Value>
  {
    if v.Map? then Lookup(v.entries, key) else None
  }
}
