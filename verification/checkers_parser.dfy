/** The `checkers` section of the configuration document
    (src/config/parser/checkers/mod.rs): a mapping from checker id to the
    body `CheckerParser.Parse` reads. */
module CheckersParser {
  import opened Wrappers
  import opened YamlTree
  import opened Errors
  import opened Config
  import opened Externals
  import opened Walk
  import opened Common
  import CheckerParser

  /** `parse_checkers(val)`: one checker per entry, in document order; the
      first entry that fails decides the error. */
  function ParseCheckers(ext: Externals, val: Yaml): (r: Result<seq<CheckerConfig>, ConfigError>)
    ensures !val.Hash? ==> r == Failure(GeneralError("`checkers` must be a hash. Got " + ext.debug(val)))
    ensures val.Hash? ==>
              (r.Success? <==> forall i :: 0 <= i < |val.entries| ==> CheckerParser.Parse(ext, val.entries[i].0, val.entries[i].1).Success?)
    ensures r.Success? ==>
              val.Hash? && |r.value| == |val.entries|
              && forall i :: 0 <= i < |val.entries| ==>
                   ParseKey(ext, val.entries[i].0) == Success(r.value[i].id)
                   && CheckerParser.Parse(ext, val.entries[i].0, val.entries[i].1) == Success(r.value[i])
    ensures r.Failure? && val.Hash? ==>
              exists i :: 0 <= i < |val.entries|
                          && CheckerParser.Parse(ext, val.entries[i].0, val.entries[i].1) == Failure(r.error)
                          && forall j :: 0 <= j < i ==> CheckerParser.Parse(ext, val.entries[j].0, val.entries[j].1).Success?
  {
    match val
    case Hash(entries) => Traverse(entries, (e: (Yaml, Yaml)) => CheckerParser.Parse(ext, e.0, e.1))
    case _ => Failure(GeneralError("`checkers` must be a hash. Got " + ext.debug(val)))
  }
}
