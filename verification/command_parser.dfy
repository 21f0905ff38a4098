/** Parsing the body of a `type: command` notifier
    (src/config_parser/command_notifier.rs): `command` is a non-empty array
    whose first element is the program and whose rest are its arguments. */
module CommandParser {
  import opened Wrappers
  import opened YamlTree
  import opened Errors
  import opened Config
  import opened Externals
  import opened Walk
  import opened Common

  datatype Attr = Ignored | CommandLine(config: CommandNotifierConfig)

  /** `vals.split_first()` turned into a configuration, for a `command` value. */
  function ParseCommandLine(ext: Externals, id: string, val: Yaml): (r: Result<CommandNotifierConfig, ConfigError>)
    ensures r.Success? <==> ParseYamlToVec(ext, val).Success? && |ParseYamlToVec(ext, val).value| > 0
    ensures r.Success? ==> [r.value.command] + r.value.arguments == ParseYamlToVec(ext, val).value
    ensures ParseYamlToVec(ext, val).Failure? ==>
              r == Failure(GeneralError("`notifiers." + id + ".command` must be an array."))
    ensures ParseYamlToVec(ext, val) == Success([]) ==>
              r == Failure(GeneralError("`notifiers." + id + ".command` must have a command specified"))
  {
    match ParseYamlToVec(ext, val)
    case Success(vals) =>
      if |vals| > 0 then
        assert vals == [vals[0]] + vals[1..];
        Success(CommandNotifierConfig(vals[0], vals[1..]))
      else
        Failure(GeneralError("`notifiers." + id + ".command` must have a command specified"))
    case Failure(_) =>
      Failure(GeneralError("`notifiers." + id + ".command` must be an array."))
  }

  /** The body of the attribute loop, for one entry. */
  function ParseAttr(ext: Externals, id: string, key: Yaml, val: Yaml): (r: Result<Attr, ConfigError>)
    ensures r.Success? && r.value.CommandLine? ==>
              ParseKey(ext, key) == Success("command") && ParseCommandLine(ext, id, val) == Success(r.value.config)
    ensures r.Success? && ParseKey(ext, key) == Success("command") ==> r.value.CommandLine?
  {
    var name :- ParseKey(ext, key);
    if name == "type" then Success(Ignored)
    else if name == "command" then
      var config :- ParseCommandLine(ext, id, val);
      Success(CommandLine(config))
    else
      Failure(UnknownNotifierAttribute(id, "command", name))
  }

  function CommandLineOf(a: Attr): Option<CommandNotifierConfig> {
    if a.CommandLine? then Some(a.config) else None
  }

  function ParseAttrs(ext: Externals, id: string, entries: seq<(Yaml, Yaml)>): Result<seq<Attr>, ConfigError> {
    Traverse(entries, (e: (Yaml, Yaml)) => ParseAttr(ext, id, e.0, e.1))
  }

  /** `command_notifier::parse(id, body)`. */
  function Parse(ext: Externals, id: string, body: Yaml): (r: Result<CommandNotifierConfig, ConfigError>)
    ensures !body.Hash? ==> r == Failure(GeneralError("`notifiers." + id + "` must be a hash. Got " + ext.debug(body)))
    ensures r.Success? ==> body.Hash? && ParseAttrs(ext, id, body.entries).Success?
  {
    match body
    case Hash(entries) =>
      var attrs :- ParseAttrs(ext, id, entries);
      OkOr(Last(attrs, CommandLineOf), FieldMissing("notifiers." + id + ".command"))
    case _ => Failure(GeneralError("`notifiers." + id + "` must be a hash. Got " + ext.debug(body)))
  }

  /** Each attribute was read from the entry at the same position. */
  lemma AttrAt(ext: Externals, id: string, entries: seq<(Yaml, Yaml)>, attrs: seq<Attr>, k: nat)
    requires ParseAttrs(ext, id, entries) == Success(attrs)
    requires k < |attrs|
    ensures k < |entries| && ParseAttr(ext, id, entries[k].0, entries[k].1) == Success(attrs[k])
  {
  }

  /** The entry the command line was read from: the last `command` entry,
      whose array is `[program] + arguments`. */
  predicate LastCommandEntry(ext: Externals, entries: seq<(Yaml, Yaml)>, c: CommandNotifierConfig) {
    exists i :: 0 <= i < |entries| && ParseKey(ext, entries[i].0) == Success("command")
                && ParseYamlToVec(ext, entries[i].1) == Success([c.command] + c.arguments)
                && forall j :: i < j < |entries| ==> ParseKey(ext, entries[j].0) != Success("command")
  }

  /** The program is the first element of the last `command` array and the
      arguments are the rest of it, in order. */
  lemma CommandSplit(ext: Externals, id: string, entries: seq<(Yaml, Yaml)>)
    requires Parse(ext, id, Hash(entries)).Success?
    ensures LastCommandEntry(ext, entries, Parse(ext, id, Hash(entries)).value)
  {
    var c := Parse(ext, id, Hash(entries)).value;
    var attrs := ParseAttrs(ext, id, entries).value;
    assert Last(attrs, CommandLineOf) == Some(c);
    CommandFrom(ext, id, entries, attrs, c);
  }

  lemma CommandFrom(ext: Externals, id: string, entries: seq<(Yaml, Yaml)>, attrs: seq<Attr>, c: CommandNotifierConfig)
    requires ParseAttrs(ext, id, entries) == Success(attrs)
    requires Last(attrs, CommandLineOf) == Some(c)
    ensures LastCommandEntry(ext, entries, c)
  {
    var k :| 0 <= k < |attrs| && CommandLineOf(attrs[k]) == Some(c)
             && forall j :: k < j < |attrs| ==> CommandLineOf(attrs[j]).None?;
    AttrAt(ext, id, entries, attrs, k);
    forall j | k < j < |entries| ensures ParseKey(ext, entries[j].0) != Success("command") {
      AttrAt(ext, id, entries, attrs, j);
      assert !attrs[j].CommandLine?;
    }
  }

  /** A body whose attributes all convert is accepted exactly when it has a
      `command` entry; without one the notifier is refused with the path of
      the missing field. */
  lemma MissingCommand(ext: Externals, id: string, entries: seq<(Yaml, Yaml)>)
    requires ParseAttrs(ext, id, entries).Success?
    ensures !HasKey(ext, entries, "command") ==>
              Parse(ext, id, Hash(entries)) == Failure(FieldMissing("notifiers." + id + ".command"))
    ensures HasKey(ext, entries, "command") ==> Parse(ext, id, Hash(entries)).Success?
  {
    var attrs := ParseAttrs(ext, id, entries).value;
    if !HasKey(ext, entries, "command") {
      forall i | 0 <= i < |attrs| ensures CommandLineOf(attrs[i]).None? {
        AttrAt(ext, id, entries, attrs, i);
      }
    } else {
      var k :| 0 <= k < |entries| && ParseKey(ext, entries[k].0) == Success("command");
      AttrAt(ext, id, entries, attrs, k);
      assert CommandLineOf(attrs[k]).Some?;
    }
  }

  /** The first entry that fails decides the error; the `command` value
      errors are those of `ParseCommandLine`, and any key other than `type`
      and `command` is refused with the `command` label. */
  lemma FirstBadAttribute(ext: Externals, id: string, entries: seq<(Yaml, Yaml)>, i: nat)
    requires i < |entries|
    requires forall j :: 0 <= j < i ==> ParseAttr(ext, id, entries[j].0, entries[j].1).Success?
    requires ParseAttr(ext, id, entries[i].0, entries[i].1).Failure?
    ensures Parse(ext, id, Hash(entries)) == Failure(ParseAttr(ext, id, entries[i].0, entries[i].1).error)
    ensures ParseKey(ext, entries[i].0) == Success("command") ==>
              Parse(ext, id, Hash(entries)) == Failure(ParseCommandLine(ext, id, entries[i].1).error)
    ensures ParseKey(ext, entries[i].0).Success? && ParseKey(ext, entries[i].0).value !in ["type", "command"] ==>
              Parse(ext, id, Hash(entries))
                == Failure(UnknownNotifierAttribute(id, "command", ParseKey(ext, entries[i].0).value))
  {
    TraverseFirstFailure(entries, (e: (Yaml, Yaml)) => ParseAttr(ext, id, e.0, e.1), i);
  }

  /** The `type` key is skipped whatever its value. */
  lemma TypeIgnored(ext: Externals, id: string, key: Yaml, val: Yaml)
    requires ParseKey(ext, key) == Success("type")
    ensures ParseAttr(ext, id, key, val) == Success(Ignored)
  {
  }
}
