/** Scalar and container helpers of the `Result`-based configuration parsers
    (src/config_parser/common.rs). A key or scalar value is text: a YAML
    string as is, a YAML integer as its decimal rendering; every other node is
    refused with a `GeneralError`. */
module Common {
  import opened Wrappers
  import opened Decimal
  import opened YamlTree
  import opened Errors
  import opened Config
  import opened Externals
  import opened Walk

  /** A node the scalar helpers accept. */
  predicate IsScalar(y: Yaml) {
    y.Str? || y.Int?
  }

  /** `parse_key`. */
  function ParseKey(ext: Externals, key: Yaml): (r: Result<string, ConfigError>)
    ensures r.Success? <==> IsScalar(key)
    ensures r.Failure? ==> r.error == GeneralError("Key must be a string. Got " + ext.debug(key))
  {
    match key
    case Str(s) => Success(s)
    case Int(n) => Success(IntToString(n))
    case _ => Failure(GeneralError("Key must be a string. Got " + ext.debug(key)))
  }

  /** `parse_yaml_to_string`. */
  function ParseYamlToString(ext: Externals, val: Yaml): (r: Result<string, ConfigError>)
    ensures r.Success? <==> IsScalar(val)
  {
    match val
    case Str(s) => Success(s)
    case Int(n) => Success(IntToString(n))
    case _ => Failure(GeneralError("Key must be a string. Got " + ext.debug(val)))
  }

  /** `parse_yaml_to_vec`: an array of scalars, converted element by element. */
  function ParseYamlToVec(ext: Externals, val: Yaml): (r: Result<seq<string>, ConfigError>)
    ensures r.Success? <==> val.Array? && forall i :: 0 <= i < |val.items| ==> IsScalar(val.items[i])
    ensures r.Success? ==>
              |r.value| == |val.items|
              && forall i :: 0 <= i < |val.items| ==> ParseYamlToString(ext, val.items[i]) == Success(r.value[i])
    ensures !val.Array? ==> r == Failure(GeneralError("Value must be an array. Got " + ext.debug(val)))
  {
    match val
    case Array(items) => Traverse(items, (y: Yaml) => ParseYamlToString(ext, y))
    case _ => Failure(GeneralError("Value must be an array. Got " + ext.debug(val)))
  }

  /** `parse_yaml_to_hash`: the entries of a mapping. */
  function ParseYamlToHash(ext: Externals, val: Yaml): (r: Result<seq<(Yaml, Yaml)>, ConfigError>)
    ensures r.Success? <==> val.Hash?
    ensures r.Success? ==> r.value == val.entries
    ensures r.Failure? ==> r.error == GeneralError("Value must be a hash. Got " + ext.debug(val))
  {
    match val
    case Hash(entries) => Success(entries)
    case _ => Failure(GeneralError("Value must be a hash. Got " + ext.debug(val)))
  }

  /** Some entry of a mapping has a key whose text is `name`. */
  predicate HasKey(ext: Externals, entries: seq<(Yaml, Yaml)>, name: string) {
    exists i :: 0 <= i < |entries| && ParseKey(ext, entries[i].0) == Success(name)
  }

  /** Entry `i` is the last one whose key has the text `name`: the entry an
      attribute loop that overwrites its variable on every such key leaves
      behind. */
  predicate LastKeyAt(ext: Externals, entries: seq<(Yaml, Yaml)>, name: string, i: int) {
    0 <= i < |entries| && ParseKey(ext, entries[i].0) == Success(name)
    && forall j :: i < j < |entries| ==> ParseKey(ext, entries[j].0) != Success(name)
  }

  /** The value of the last entry with key `name` converts to `text`. */
  ghost predicate LastText(ext: Externals, entries: seq<(Yaml, Yaml)>, name: string, text: string) {
    exists i :: LastKeyAt(ext, entries, name, i) && ParseYamlToString(ext, entries[i].1) == Success(text)
  }

  /** `val` is text that the URI parser reads as `u`. */
  predicate UrlText(ext: Externals, val: Yaml, u: Uri) {
    ParseYamlToString(ext, val).Success? && ext.parseUri(ParseYamlToString(ext, val).value) == Some(u)
  }

  /** The last attribute of a kind, in a list converted entry by entry, was
      read from the last entry whose key names that kind. */
  lemma LastEntry<T, V>(ext: Externals, entries: seq<(Yaml, Yaml)>, attrs: seq<T>, name: string,
                        nameOf: T -> string, pick: T -> Option<V>, v: V) returns (i: nat)
    requires |attrs| == |entries|
    requires forall k :: 0 <= k < |entries| ==> ParseKey(ext, entries[k].0) == Success(nameOf(attrs[k]))
    requires forall a :: pick(a).Some? <==> nameOf(a) == name
    requires Last(attrs, pick) == Some(v)
    ensures LastKeyAt(ext, entries, name, i) && pick(attrs[i]) == Some(v)
  {
    var t :| 0 <= t < |attrs| && pick(attrs[t]) == Some(v) && forall j :: t < j < |attrs| ==> pick(attrs[j]).None?;
    forall j | t < j < |entries| ensures ParseKey(ext, entries[j].0) != Success(name) {
      assert pick(attrs[j]).None?;
    }
    i := t;
  }

  /** In such a list an attribute of a kind exists exactly when some entry
      has the key that names it. */
  lemma PresentEntry<T, V>(ext: Externals, entries: seq<(Yaml, Yaml)>, attrs: seq<T>, name: string,
                           nameOf: T -> string, pick: T -> Option<V>)
    requires |attrs| == |entries|
    requires forall k :: 0 <= k < |entries| ==> ParseKey(ext, entries[k].0) == Success(nameOf(attrs[k]))
    requires forall a :: pick(a).Some? <==> nameOf(a) == name
    ensures Last(attrs, pick).Some? <==> HasKey(ext, entries, name)
  {
    if HasKey(ext, entries, name) {
      var k :| 0 <= k < |entries| && ParseKey(ext, entries[k].0) == Success(name);
      assert pick(attrs[k]).Some?;
    } else {
      forall k | 0 <= k < |attrs| ensures pick(attrs[k]).None? {
        assert ParseKey(ext, entries[k].0) == Success(nameOf(attrs[k]));
      }
    }
  }

  /** `parse_key` keeps a string verbatim, renders an integer in decimal so
      that the text reads back as the same integer, and refuses the rest. */
  lemma ParseKeyText(ext: Externals, key: Yaml)
    ensures key.Str? ==> ParseKey(ext, key) == Success(key.s)
    ensures key.Int? ==>
              var t := ParseKey(ext, key).value;
              |t| >= 1 && (t[0] == '-' <==> key.n < 0) && ParseInt(t) == key.n
    ensures !IsScalar(key) ==> ParseKey(ext, key).Failure? && ParseKey(ext, key).error.GeneralError?
  {
    if key.Int? {
      IntToStringRoundTrip(key.n);
    }
  }

  /** `parse_yaml_to_string` accepts exactly what `parse_key` accepts and
      yields the same text. */
  lemma ScalarHelpersAgree(ext: Externals, y: Yaml)
    ensures ParseYamlToString(ext, y) == ParseKey(ext, y)
  {
  }
}
