/** The `notifiers` section of the configuration document
    (src/config/parser/notifiers/mod.rs): a mapping from notifier id to a body
    whose string `type` entry selects the parser of the rest. */
module NotifiersParser {
  import opened Wrappers
  import opened YamlTree
  import opened Errors
  import opened Config
  import opened Externals
  import opened Walk
  import opened Common
  import TelegramParser
  import CommandParser
  import HipchatParser
  import SlackParser

  /** The `type` value that selects each kind of notifier. */
  function TypeName(c: NotifierConfig): string {
    match c
    case Telegram(_) => "telegram"
    case Command(_) => "command"
    case Hipchat(_) => "hipchat"
    case Slack(_) => "slack"
  }

  /** `parse_notifier_config(id, body)`. The `type` entry is looked up with a
      string key only; an integer key `type` cannot name the type. */
  function ParseNotifierConfig(ext: Externals, id: string, body: Yaml): (r: Result<NotifierConfig, ConfigError>)
    ensures !body.Hash? ==> r == Failure(GeneralError("Value must be a hash. Got " + ext.debug(body)))
    ensures body.Hash? && HashGet(body.entries, Str("type")).None? ==>
              r == Failure(FieldMissing("notifiers." + id + ".type"))
    ensures r.Success? ==>
              body.Hash? && HashGet(body.entries, Str("type")).Some?
              && ParseYamlToString(ext, HashGet(body.entries, Str("type")).value) == Success(TypeName(r.value))
  {
    var entries :- ParseYamlToHash(ext, body);
    var typeYaml :- OkOr(HashGet(entries, Str("type")), FieldMissing("notifiers." + id + ".type"));
    var typeVal :- ParseYamlToString(ext, typeYaml);
    ParseByType(ext, id, body, typeVal)
  }

  /** The `match type_val` of `parse_notifier_config`. */
  function ParseByType(ext: Externals, id: string, body: Yaml, t: string): (r: Result<NotifierConfig, ConfigError>)
    ensures r.Success? ==> TypeName(r.value) == t
    ensures t != "telegram" && t != "command" && t != "hipchat" && t != "slack" ==> r == Failure(InvalidNotifierType(id, t))
  {
    if t == "telegram" then AsTelegram(ext, id, body)
    else if t == "command" then AsCommand(ext, id, body)
    else if t == "hipchat" then AsHipchat(ext, id, body)
    else if t == "slack" then AsSlack(ext, id, body)
    else Failure(InvalidNotifierType(id, t))
  }

  function AsTelegram(ext: Externals, id: string, body: Yaml): (r: Result<NotifierConfig, ConfigError>)
    ensures r.Success? ==> r.value.Telegram?
  {
    var config :- TelegramParser.Parse(ext, id, body);
    Success(Telegram(config))
  }

  function AsCommand(ext: Externals, id: string, body: Yaml): (r: Result<NotifierConfig, ConfigError>)
    ensures r.Success? ==> r.value.Command?
  {
    var config :- CommandParser.Parse(ext, id, body);
    Success(Command(config))
  }

  function AsHipchat(ext: Externals, id: string, body: Yaml): (r: Result<NotifierConfig, ConfigError>)
    ensures r.Success? ==> r.value.Hipchat?
  {
    var config :- HipchatParser.Parse(ext, id, body);
    Success(Hipchat(config))
  }

  function AsSlack(ext: Externals, id: string, body: Yaml): (r: Result<NotifierConfig, ConfigError>)
    ensures r.Success? ==> r.value.Slack?
  {
    var config :- SlackParser.Parse(ext, id, body);
    Success(Slack(config))
  }

  /** Once the `type` text is known, the body goes to the parser of that type
      and its outcome is passed on; any other text is an invalid type. */
  lemma Dispatch(ext: Externals, id: string, entries: seq<(Yaml, Yaml)>, t: string)
    requires HashGet(entries, Str("type")).Some?
    requires ParseYamlToString(ext, HashGet(entries, Str("type")).value) == Success(t)
    ensures t == "telegram" ==>
              ParseNotifierConfig(ext, id, Hash(entries))
                == (match TelegramParser.Parse(ext, id, Hash(entries))
                    case Success(c) => Success(Telegram(c))
                    case Failure(e) => Failure(e))
    ensures t == "command" ==>
              ParseNotifierConfig(ext, id, Hash(entries))
                == (match CommandParser.Parse(ext, id, Hash(entries))
                    case Success(c) => Success(Command(c))
                    case Failure(e) => Failure(e))
    ensures t == "hipchat" ==>
              ParseNotifierConfig(ext, id, Hash(entries))
                == (match HipchatParser.Parse(ext, id, Hash(entries))
                    case Success(c) => Success(Hipchat(c))
                    case Failure(e) => Failure(e))
    ensures t == "slack" ==>
              ParseNotifierConfig(ext, id, Hash(entries))
                == (match SlackParser.Parse(ext, id, Hash(entries))
                    case Success(c) => Success(Slack(c))
                    case Failure(e) => Failure(e))
    ensures t !in ["telegram", "command", "hipchat", "slack"] ==>
              ParseNotifierConfig(ext, id, Hash(entries)) == Failure(InvalidNotifierType(id, t))
  {
  }

  /** `parse_notifier(key, body)`: the id is the key's text. */
  function ParseNotifier(ext: Externals, key: Yaml, body: Yaml): (r: Result<Notifier, ConfigError>)
    ensures ParseKey(ext, key).Failure? ==> r == Failure(ParseKey(ext, key).error)
    ensures r.Success? ==> ParseKey(ext, key) == Success(r.value.id)
    ensures ParseKey(ext, key).Success? ==>
              (r.Success? <==> ParseNotifierConfig(ext, ParseKey(ext, key).value, body).Success?)
  {
    var id :- ParseKey(ext, key);
    var config :- ParseNotifierConfig(ext, id, body);
    Success(Notifier(id, config))
  }

  /** `parse_notifiers(val)`: one notifier per entry, in document order; the
      first entry that fails decides the error. */
  function ParseNotifiers(ext: Externals, val: Yaml): (r: Result<seq<Notifier>, ConfigError>)
    ensures !val.Hash? ==> r == Failure(GeneralError("`notifiers` must be a hash. Got " + ext.debug(val)))
    ensures val.Hash? ==>
              (r.Success? <==> forall i :: 0 <= i < |val.entries| ==> ParseNotifier(ext, val.entries[i].0, val.entries[i].1).Success?)
    ensures r.Success? ==>
              val.Hash? && |r.value| == |val.entries|
              && forall i :: 0 <= i < |val.entries| ==>
                   ParseKey(ext, val.entries[i].0) == Success(r.value[i].id)
                   && ParseNotifierConfig(ext, r.value[i].id, val.entries[i].1) == Success(r.value[i].config)
    ensures r.Failure? && val.Hash? ==>
              exists i :: 0 <= i < |val.entries|
                          && ParseNotifier(ext, val.entries[i].0, val.entries[i].1) == Failure(r.error)
                          && forall j :: 0 <= j < i ==> ParseNotifier(ext, val.entries[j].0, val.entries[j].1).Success?
  {
    match val
    case Hash(entries) => Traverse(entries, (e: (Yaml, Yaml)) => ParseNotifier(ext, e.0, e.1))
    case _ => Failure(GeneralError("`notifiers` must be a hash. Got " + ext.debug(val)))
  }
}
