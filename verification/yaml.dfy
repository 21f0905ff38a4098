/** The already-loaded YAML document tree the configuration parsers walk: the
    variants of `yaml_rust::Yaml` that a loaded document can hold. A mapping
    keeps its entries in document order, as `yaml_rust`'s `LinkedHashMap`
    does; the loader never produces two entries with the same key. */
module YamlTree {
  import opened Wrappers
  import opened Decimal

  datatype Yaml =
    | Str(s: string)
    | Int(n: I64)
    | Real(repr: string)
    | Boolean(b: bool)
    | Null
    | Array(items: seq<Yaml>)
    | Hash(entries: seq<(Yaml, Yaml)>)

  /** `hash.get(key)` on a mapping: the value stored under `key`, if any. */
  function HashGet(entries: seq<(Yaml, Yaml)>, key: Yaml): (r: Option<Yaml>)
    ensures r.None? <==> forall i :: 0 <= i < |entries| ==> entries[i].0 != key
    ensures r.Some? ==>
              exists i :: 0 <= i < |entries| && entries[i] == (key, r.value)
    decreases |entries|
  {
    if |entries| == 0 then None
    else if entries[0].0 == key then Some(entries[0].1)
    else HashGet(entries[1..], key)
  }
}
