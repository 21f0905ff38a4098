/** The first configuration parser (src/config_parser.rs), which the
    `Result`-based parsers replaced. It returns a configuration or panics; a
    panic is modelled as a `Failure` carrying the panic message. It knows
    only telegram notifiers, accepts only string keys and has no
    `basic_auth`, so every checker it builds sends no credentials. */
module LegacyParser {
  import opened Wrappers
  import opened Decimal
  import opened YamlTree
  import opened Config
  import opened Externals
  import opened Walk
  import CheckerParser
  import TelegramParser

  /** Why the parser panicked: a message it formats itself, or a failed
      `unwrap()` on a library result, whose message the model does not
      reproduce. */
  datatype Panic = Panic(message: string) | LibraryPanic

  /** `parse_key`: a string key only. */
  function Key(ext: Externals, key: Yaml): (r: Result<string, Panic>)
    ensures r.Success? <==> key.Str?
    ensures r.Success? ==> r.value == key.s
    ensures r.Failure? ==> r.error == Panic("Key must be a string. Got " + ext.debug(key))
  {
    match key
    case Str(s) => Success(s)
    case _ => Failure(Panic("Key must be a string. Got " + ext.debug(key)))
  }

  /** `parse_yaml_to_string`: a string verbatim, an integer in decimal. */
  function YamlToString(ext: Externals, val: Yaml): (r: Result<string, Panic>)
    ensures r.Success? <==> val.Str? || val.Int?
    ensures val.Str? ==> r == Success(val.s)
    ensures val.Int? ==> r == Success(IntToString(val.n))
    ensures r.Failure? ==> r.error == Panic("Value must be a string. Got " + ext.debug(val))
  {
    match val
    case Str(s) => Success(s)
    case Int(n) => Success(IntToString(n))
    case _ => Failure(Panic("Value must be a string. Got " + ext.debug(val)))
  }

  /** `parse_yaml_to_vec`. */
  function YamlToVec(ext: Externals, val: Yaml): (r: Result<seq<string>, Panic>)
    ensures r.Success? ==>
              val.Array? && |r.value| == |val.items|
              && forall i :: 0 <= i < |val.items| ==> YamlToString(ext, val.items[i]) == Success(r.value[i])
    ensures !val.Array? ==> r == Failure(Panic("Value must be an array. Got " + ext.debug(val)))
  {
    match val
    case Array(items) => Traverse(items, (y: Yaml) => YamlToString(ext, y))
    case _ => Failure(Panic("Value must be an array. Got " + ext.debug(val)))
  }

  // ---------------------------------------------------------------------
  // Notifiers.

  /** The body of the attribute loop of `parse_telegram_notifier_config`. */
  function TelegramAttr(ext: Externals, id: string, key: Yaml, val: Yaml): (r: Result<TelegramParser.Attr, Panic>)
    ensures r.Success? ==> key.Str?
  {
    var name :- Key(ext, key);
    if name == "type" then Success(TelegramParser.Ignored)
    else if name == "token" then
      var v :- YamlToString(ext, val);
      Success(TelegramParser.Token(v))
    else if name == "chat_id" then
      var v :- YamlToString(ext, val);
      Success(TelegramParser.ChatId(v))
    else
      Failure(Panic("Unknown telegram notifier attribute: notifiers." + id + "." + name))
  }

  function TelegramAttrs(ext: Externals, id: string, entries: seq<(Yaml, Yaml)>): Result<seq<TelegramParser.Attr>, Panic> {
    Traverse(entries, (e: (Yaml, Yaml)) => TelegramAttr(ext, id, e.0, e.1))
  }

  /** `parse_telegram_notifier_config(id, body)`. */
  function ParseTelegram(ext: Externals, id: string, body: Yaml): (r: Result<TelegramNotifierConfig, Panic>)
    ensures !body.Hash? ==> r == Failure(Panic("notifiers." + id + " must be a hash"))
  {
    match body
    case Hash(entries) =>
      var attrs :- TelegramAttrs(ext, id, entries);
      var token :- OkOr(Last(attrs, TelegramParser.TokenOf), Panic("Missing notifiers." + id + ".token"));
      var chatId :- OkOr(Last(attrs, TelegramParser.ChatIdOf), Panic("Missing notifiers." + id + ".chat_id"));
      Success(TelegramNotifierConfig(token, chatId))
    case _ => Failure(Panic("notifiers." + id + " must be a hash"))
  }

  /** `parse_notifier_config(id, body)`: only `telegram` is a valid type. */
  function ParseNotifierConfig(ext: Externals, id: string, body: Yaml): (r: Result<NotifierConfig, Panic>)
    ensures !body.Hash? ==> r == Failure(Panic("Value must be a hash. Got " + ext.debug(body)))
    ensures body.Hash? && HashGet(body.entries, Str("type")).None? ==>
              r == Failure(Panic("notifiers." + id + ".type is missing"))
    ensures r.Success? ==>
              r.value.Telegram? && body.Hash?
              && HashGet(body.entries, Str("type")).Some?
              && YamlToString(ext, HashGet(body.entries, Str("type")).value) == Success("telegram")
    ensures body.Hash? && HashGet(body.entries, Str("type")).Some?
            && YamlToString(ext, HashGet(body.entries, Str("type")).value).Success?
            && YamlToString(ext, HashGet(body.entries, Str("type")).value).value != "telegram" ==>
              var t := YamlToString(ext, HashGet(body.entries, Str("type")).value).value;
              r == Failure(Panic("notifiers." + id + ".type has invalid value `" + t + "`"))
  {
    var entries :- if body.Hash? then Success(body.entries)
                   else Failure(Panic("Value must be a hash. Got " + ext.debug(body)));
    var typeYaml :- OkOr(HashGet(entries, Str("type")), Panic("notifiers." + id + ".type is missing"));
    var typeVal :- YamlToString(ext, typeYaml);
    if typeVal == "telegram" then
      var config :- ParseTelegram(ext, id, body);
      Success(Telegram(config))
    else
      Failure(Panic("notifiers." + id + ".type has invalid value `" + typeVal + "`"))
  }

  /** `parse_notifier(key, body)`. */
  function ParseNotifier(ext: Externals, key: Yaml, body: Yaml): (r: Result<Notifier, Panic>)
    ensures r.Success? ==> key.Str? && r.value.id == key.s
  {
    var id :- Key(ext, key);
    var config :- ParseNotifierConfig(ext, id, body);
    Success(Notifier(id, config))
  }

  /** `parse_notifiers(val)`. */
  function ParseNotifiers(ext: Externals, val: Yaml): (r: Result<seq<Notifier>, Panic>)
    ensures !val.Hash? ==> r == Failure(Panic("notifiers must be a hash"))
    ensures r.Success? ==>
              val.Hash? && |r.value| == |val.entries|
              && forall i :: 0 <= i < |val.entries| ==>
                   ParseNotifier(ext, val.entries[i].0, val.entries[i].1) == Success(r.value[i])
  {
    match val
    case Hash(entries) => Traverse(entries, (e: (Yaml, Yaml)) => ParseNotifier(ext, e.0, e.1))
    case _ => Failure(Panic("notifiers must be a hash"))
  }

  // ---------------------------------------------------------------------
  // Checkers.

  /** The body of the attribute loop of `parse_checker`; a duration or URL
      the library refuses panics in its `unwrap()`. */
  function CheckerAttr(ext: Externals, id: string, key: Yaml, val: Yaml): (r: Result<CheckerParser.Attr, Panic>)
    ensures r.Success? ==> key.Str? && !r.value.BasicAuthAttr?
    ensures r.Success? && r.value.IntervalAttr? ==> key == Str("interval")
    ensures r.Success? && r.value.UrlAttr? ==> key == Str("url")
    ensures r.Success? && r.value.NotifiersAttr? ==> key == Str("notifiers")
    ensures Key(ext, key).Success? && Key(ext, key).value !in ["interval", "url", "notifiers"] ==>
              r == Failure(Panic("Unknown checker attribute: checkers." + id + "." + key.s))
  {
    var name :- Key(ext, key);
    if name == "interval" then
      var text :- Key(ext, val);
      match ext.parseDuration(text)
      case Some(d) => Success(CheckerParser.IntervalAttr(d))
      case None => Failure(LibraryPanic)
    else if name == "url" then
      var text :- YamlToString(ext, val);
      match ext.parseUri(text)
      case Some(u) => Success(CheckerParser.UrlAttr(u))
      case None => Failure(LibraryPanic)
    else if name == "notifiers" then
      var ids :- YamlToVec(ext, val);
      Success(CheckerParser.NotifiersAttr(ids))
    else
      Failure(Panic("Unknown checker attribute: checkers." + id + "." + name))
  }

  function CheckerAttrs(ext: Externals, id: string, entries: seq<(Yaml, Yaml)>): Result<seq<CheckerParser.Attr>, Panic> {
    Traverse(entries, (e: (Yaml, Yaml)) => CheckerAttr(ext, id, e.0, e.1))
  }

  /** `parse_checker(key, body)`: interval 10 seconds and no notifiers unless
      given; `url` is required. */
  function ParseChecker(ext: Externals, key: Yaml, body: Yaml): (r: Result<CheckerConfig, Panic>)
    ensures r.Success? ==> key.Str? && r.value.id == key.s && body.Hash? && r.value.basicAuth == None
  {
    var id :- Key(ext, key);
    match body
    case Hash(entries) =>
      var attrs :- CheckerAttrs(ext, id, entries);
      var url :- OkOr(Last(attrs, CheckerParser.UrlOf), Panic("checkers." + id + ".url is missing"));
      assert Last(attrs, CheckerParser.BasicAuthOf) == None by {
        forall i | 0 <= i < |attrs| ensures CheckerParser.BasicAuthOf(attrs[i]).None? {
          assert CheckerAttr(ext, id, entries[i].0, entries[i].1) == Success(attrs[i]);
        }
      }
      Success(CheckerConfig(
        id,
        url,
        Last(attrs, CheckerParser.IntervalOf).GetOr(DefaultInterval),
        Last(attrs, CheckerParser.NotifiersOf).GetOr([]),
        None))
    case _ => Failure(Panic("checkers." + id + " must be a hash"))
  }

  /** Some entry of a mapping has the string key `name`. */
  predicate HasStringKey(entries: seq<(Yaml, Yaml)>, name: string) {
    exists i :: 0 <= i < |entries| && entries[i].0 == Str(name)
  }

  /** A checker without `interval` polls every 10 seconds; one without
      `notifiers` has none. */
  lemma CheckerDefaults(ext: Externals, key: Yaml, entries: seq<(Yaml, Yaml)>)
    requires ParseChecker(ext, key, Hash(entries)).Success?
    ensures var c := ParseChecker(ext, key, Hash(entries)).value;
            && (!HasStringKey(entries, "interval") ==> c.interval == DefaultInterval)
            && (!HasStringKey(entries, "notifiers") ==> c.notifiers == [])
  {
    var id := Key(ext, key).value;
    var attrs := CheckerAttrs(ext, id, entries).value;
    assert forall i :: 0 <= i < |entries| ==> CheckerAttr(ext, id, entries[i].0, entries[i].1) == Success(attrs[i]);
    if !HasStringKey(entries, "interval") {
      assert forall i :: 0 <= i < |attrs| ==> CheckerParser.IntervalOf(attrs[i]).None?;
    }
    if !HasStringKey(entries, "notifiers") {
      assert forall i :: 0 <= i < |attrs| ==> CheckerParser.NotifiersOf(attrs[i]).None?;
    }
  }

  /** `parse_checkers(val)`. */
  function ParseCheckers(ext: Externals, val: Yaml): (r: Result<seq<CheckerConfig>, Panic>)
    ensures !val.Hash? ==> r == Failure(Panic("checkers must be a hash"))
    ensures r.Success? ==>
              val.Hash? && |r.value| == |val.entries|
              && forall i :: 0 <= i < |val.entries| ==>
                   ParseChecker(ext, val.entries[i].0, val.entries[i].1) == Success(r.value[i])
  {
    match val
    case Hash(entries) => Traverse(entries, (e: (Yaml, Yaml)) => ParseChecker(ext, e.0, e.1))
    case _ => Failure(Panic("checkers must be a hash"))
  }

  // ---------------------------------------------------------------------
  // The document.

  function RootEntry(ext: Externals, cfg: FileConfig, key: Yaml, val: Yaml): (r: Result<FileConfig, Panic>)
    ensures r.Success? ==> key.Str? && (key.s == "checkers" || key.s == "notifiers")
    ensures key.Str? && key.s != "checkers" && key.s != "notifiers" ==> r == Failure(Panic("Unknown element " + key.s))
  {
    var name :- Key(ext, key);
    if name == "checkers" then
      var checkers :- ParseCheckers(ext, val);
      Success(cfg.(checkers := checkers))
    else if name == "notifiers" then
      var notifiers :- ParseNotifiers(ext, val);
      Success(cfg.(notifiers := notifiers))
    else
      Failure(Panic("Unknown element " + name))
  }

  function ParseRoot(ext: Externals, cfg: FileConfig, entries: seq<(Yaml, Yaml)>): Result<FileConfig, Panic>
    decreases |entries|
  {
    if |entries| == 0 then Success(cfg)
    else
      var next :- RootEntry(ext, cfg, entries[0].0, entries[0].1);
      ParseRoot(ext, next, entries[1..])
  }

  function ParseDocs(ext: Externals, cfg: FileConfig, docs: seq<Yaml>): Result<FileConfig, Panic>
    decreases |docs|
  {
    if |docs| == 0 then Success(cfg)
    else
      match docs[0]
      case Hash(root) =>
        var next :- ParseRoot(ext, cfg, root);
        ParseDocs(ext, next, docs[1..])
      case _ => Failure(Panic("Root element of YAML must be Hash"))
  }

  /** `parse_config(yaml)`, given what the YAML loader returned; a loader
      error panics in `unwrap()`. */
  function ParseConfig(ext: Externals, loaded: Result<seq<Yaml>, string>): (r: Result<FileConfig, Panic>)
    ensures loaded.Failure? ==> r == Failure(LibraryPanic)
    ensures loaded == Success([]) ==> r == Success(FileConfig([], []))
    ensures loaded.Success? && |loaded.value| > 0 && !loaded.value[0].Hash? ==>
              r == Failure(Panic("Root element of YAML must be Hash"))
  {
    match loaded
    case Failure(_) => Failure(LibraryPanic)
    case Success(docs) => ParseDocs(ext, FileConfig([], []), docs)
  }
}
