# hellcheck, modelled in Dafny

hellcheck watches HTTP services and reports their state changes.

- **Watcher.** One watcher per configured checker sends a GET to the checker's URL on every tick of its interval. The request carries a Basic-Auth header when the checker has credentials. Status 200 means the service is Up. Any other status, or a request that got no response, means Down.
- **Reactor.** The reactor keeps the last known state of every checker. When a probe reports a different state, it tells each notifier the checker lists, in list order. The notifiers are Telegram, Slack, a local command and a Hipchat stub.
- **Configuration.** All of this is driven by a YAML configuration with a `checkers` and a `notifiers` section. Before anything runs, the configuration is checked: every notifier a checker names must be declared.

This project is a functional model of that core, with the properties the code promises proved about it:

- the configuration model, its lookups and its validation;
- both configuration parsers over an already-loaded YAML tree: the `Result`-based one, and the older one that panics;
- the error types and their messages;
- the probe: classification, request and Authorization header, including base64 and UTF-8 modelled from their standards;
- the reactor's receive loop, as a fold over a finite sequence of messages;
- what each notifier backend builds and how it maps the outcome to `Ok`/`Err`.

All values are immutable datatypes and every operation is a pure function, except the three validator procedures, which are methods with loops. Effects are parameters:

- the outcome of an HTTP request or of a child process comes from a `Transport`;
- the URI parser, the duration parser and the YAML `Debug` rendering come from `Externals`;
- the YAML loader's result is passed to `ParseConfig` already loaded.

Files, one module each: `wrappers`, `walk` (the two loop shapes every attribute walk shares), `decimal`, `yaml`, `errors`, `config`, `externals`, `events`, `transport`, `utf8`, `base64`, `common`, `checker_parser`, `checkers_parser`, `telegram_parser`, `command_parser`, `hipchat_parser`, `slack_parser`, `notifiers_parser`, `config_parser`, `config_examples`, `legacy_parser`, `legacy_examples`, `legacy_agreement`, `validator`, `watcher`, `notifiers`, `reactor`, `pipeline`.

## Where the model follows the code rather than the design

- The source tree holds two revisions side by side, and the model takes their union:
  - checkers carry the optional `basic_auth` pair, which `src/config.rs` lacks but `src/config_parser/checker.rs` and `src/watcher.rs` use;
  - there are four notifier kinds, where `src/config.rs` lists three.
- The Hipchat token is the `token` field of the configuration. The Hipchat backend reads it as `auth_token`. `Notifiers.FromConfig` copies one into the other.
- The Hipchat and Slack parsers report an unknown key with the notifier-type label `telegram`, because that is what the code passes.
- The `UnknownNotifierAttribute` message says `in checkers.<id>` even though `<id>` is a notifier. `Errors.Display` keeps that text.
- Telegram and Slack map every HTTP response to `Ok`, whatever its status. Only a failed send is `Err`.
- `get_notifier_by_id` returns the first notifier with an id. `build_notifiers` keeps the last one, because a later `HashMap::insert` replaces an earlier one. Both behaviours are modelled as written: `Config.GetNotifierById` and `Reactor.BuildNotifiers`.
- `src/config/parser/checkers/mod.rs` calls `http::parse`, which is not part of this model. The checker parser of `src/config_parser/checker.rs` stands in for it. Likewise the `common` helpers of `src/config/parser` are those of `src/config_parser/common.rs`.
- The notifier `type` entry is looked up with a string key only. An integer key cannot name the type, although `parse_key` accepts integer keys elsewhere.

## Model

| member | source | states |
|---|---|---|
| Config.FindFirst | src/config.rs:51-57 | `iter().find`: None exactly when no element has the id; otherwise the element at the first position with that id |
| Config.GetCheckerById | src/config.rs:51-53 | the first checker in list order with the id, and None exactly when no checker has it |
| Config.GetNotifierById | src/config.rs:55-57 | the first notifier in list order with the id, and None exactly when no notifier has it |
| Config.CheckerIdsAreFound | src/config.rs:51-53 | the set of checker ids holds an id exactly when `get_checker_by_id` finds a checker with it |
| Validator.VerifyCheckerNotifiers | src/config_validator.rs:19-36 | Ok exactly when every notifier named by a checker is declared; otherwise `UnknownNotifier` for the first undeclared pair in checker order, then list order |
| Validator.EmptyWarningsMeaning | src/config_validator.rs:44-49 | the warnings name exactly the checkers with an empty notifier list; there are as many warnings as such checkers; the list is empty exactly when every checker lists a notifier |
| Validator.VerifyEmptyNotifiers | src/config_validator.rs:38-50 | with no notifier declared, exactly the one fixed warning; otherwise one warning per checker without notifiers, in checker order |
| Validator.ValidateConfig | src/config_validator.rs:8-15 | the reference check decides success and the first error; warnings only after it passes; `Ok([])` exactly when notifiers are declared, every checker lists one and all are declared |
| Errors.FramedInjective | src/error.rs:3-40 | a message framed by fixed texts determines what sits between them |
| Errors.FieldMissingDisplay | src/error.rs:29-30 | the message is "Field `" + path + "` is missing", and distinct paths give distinct messages |
| Errors.UnknownRootElementDisplay | src/error.rs:8-9 | the message is "Unknown root element `" + name + "`", and it determines the name |
| Errors.GeneralErrorDisplay | src/error.rs:11-12 | a general error prints its message verbatim |
| Errors.UnknownNotifierAttributeDisplay | src/error.rs:26-27 | the message is "Unknown ", type label, " notifier attribute `", attribute, "` in checkers.", id, at the stated positions |
| Errors.UnknownNotifierDisplay | src/error.rs:38-39 | the message names the checker and the undeclared notifier; with the checker fixed, it determines the notifier |
| Decimal.DigitChar | src/config_parser/common.rs:10 | a decimal digit character whose value is the digit |
| Decimal.NatToString | src/config_parser/common.rs:10 | at least one digit, all digits, and no leading zero |
| Decimal.NatToStringRoundTrip | src/config_parser/common.rs:10 | reading the digits back gives the number |
| Decimal.IntToStringRoundTrip | src/config_parser/common.rs:10 | `i64::to_string` is read back to the same integer, with a leading `-` exactly for negatives |
| Decimal.IntToStringInjective | src/config_parser/common.rs:10 | distinct integers render to distinct texts |
| YamlTree.HashGet | src/config/parser/notifiers/mod.rs:43 | `hash.get(key)`: None exactly when no entry has the key; otherwise the value of an entry with that key |
| Walk.Traverse | src/config_parser/checker.rs:19-70 | the `?` loop: succeeds exactly when every element converts, yielding the conversions in order; otherwise fails with the first failing element's error |
| Walk.TraverseFirstFailure | src/config/parser/checkers/mod.rs:17 | the failure reported is that of the first failing element |
| Walk.Last | src/config_parser/checker.rs:12-17 | an overwritten variable: None exactly when nothing matches; otherwise the value of the last match |
| Walk.LastCons | src/config/parser/mod.rs:18-29 | the last match read from the front: the tail's last match, or else the head's |
| Common.ParseKey | src/config_parser/common.rs:7-16 | accepts exactly strings and integers; otherwise `GeneralError` "Key must be a string. Got ..." |
| Common.ParseKeyText | src/config_parser/common.rs:7-16 | a string is kept verbatim, an integer becomes decimal text that reads back as the integer, anything else is a `GeneralError` |
| Common.ParseYamlToString | src/config_parser/common.rs:18-27 | accepts exactly strings and integers |
| Common.ScalarHelpersAgree | src/config_parser/common.rs:7-27 | `parse_yaml_to_string` accepts the same inputs as `parse_key` and returns the same text or error |
| Common.ParseYamlToVec | src/config_parser/common.rs:29-46 | succeeds exactly on an array of scalars, giving the same length with each element converted in order; a non-array is the "must be an array" error |
| Common.ParseYamlToHash | src/config_parser/common.rs:48-56 | succeeds exactly on a mapping and returns its entries; otherwise the "must be a hash" error |
| CheckerParser.ParseCredential | src/config_parser/checker.rs:98-115 | a `username` or `password` result comes from an entry with that key |
| CheckerParser.ParseBasicAuth | src/config_parser/checker.rs:92-133 | a non-mapping is refused; success means both `username` and `password` keys are present (values: `CredentialsFrom`) |
| CheckerParser.ParseAttr | src/config_parser/checker.rs:22-68 | each attribute kind comes only from its own key |
| CheckerParser.Parse | src/config_parser/checker.rs:10-90 | a bad key is reported as is; on success the id is the key's text and the body was a mapping (field values: `FieldsFrom`, `DefaultsWhenAbsent`) |
| CheckerParser.AttrsLineUp | src/config_parser/checker.rs:19-70 | the converted attributes line up with the entries, one per entry |
| CheckerParser.NonHashBody | src/config_parser/checker.rs:72-75 | a non-mapping body is the "must be a hash" `GeneralError` |
| CheckerParser.DefaultsWhenAbsent | src/config_parser/checker.rs:12-17 | without `interval` the interval is 10 seconds; without `notifiers` the list is empty; without `basic_auth` there are no credentials |
| CheckerParser.FieldsFrom | src/config_parser/checker.rs:19-90 | each field of a parsed checker comes from the last entry with its key: the URL is the URI parse of the last `url` text, the interval the duration parse of the last `interval` text, the notifiers the last `notifiers` array, the credentials the parse of the last `basic_auth` mapping |
| CheckerParser.Accepted | src/config_parser/checker.rs:19-82 | a mapping body is accepted exactly when every attribute converts and some entry has the `url` key |
| CheckerParser.MissingUrl | src/config_parser/checker.rs:78-80 | no `url` entry gives `FieldMissing("checkers.<id>.url")` |
| CheckerParser.FirstBadAttribute | src/config_parser/checker.rs:19-70 | the first entry that fails decides the checker's error |
| CheckerParser.UnknownAttribute | src/config_parser/checker.rs:62-68 | an unknown name gives `UnknownCheckerAttribute(id, name)` unless an earlier entry failed |
| CheckerParser.InvalidInterval | src/config_parser/checker.rs:25-39 | an interval the duration parser refuses gives `InvalidCheckerInterval` with its text |
| CheckerParser.InvalidUrl | src/config_parser/checker.rs:40-54 | a URL the URI parser refuses gives `InvalidCheckerUrl` with its text |
| CheckerParser.BasicAuthMissingField | src/config_parser/checker.rs:96-127 | a missing `username` is reported, and before a missing `password`; with both keys present the mapping is accepted |
| CheckerParser.CredentialsFrom | src/config_parser/checker.rs:100-127 | the username and password are the text of the last `username` and the last `password` entry |
| CheckerParser.BasicAuthUnknownKey | src/config_parser/checker.rs:110-113 | any other `basic_auth` key is a `GeneralError` naming its path |
| CheckersParser.ParseCheckers | src/config/parser/checkers/mod.rs:11-28 | a non-mapping is refused; succeeds exactly when every entry parses, one checker per entry in order with the key's id; otherwise the first failing entry's error |
| TelegramParser.ParseAttr | src/config_parser/telegram_notifier.rs:14-34 | `token` and `chat_id` come only from their keys and carry the value's text |
| TelegramParser.Parse | src/config_parser/telegram_notifier.rs:7-52 | a non-mapping body is the "must be a hash" `GeneralError` |
| TelegramParser.TypeIgnored | src/config_parser/telegram_notifier.rs:17 | `type` is skipped whatever its value |
| TelegramParser.MissingField | src/config_parser/telegram_notifier.rs:43-51 | a body whose attributes convert is accepted exactly when both `token` and `chat_id` are present; a missing `token` is reported, and before a missing `chat_id`, as `FieldMissing("notifiers.<id>.<field>")` |
| TelegramParser.UnknownAttribute | src/config_parser/telegram_notifier.rs:26-33 | any other key gives `UnknownNotifierAttribute` with label `telegram` unless an earlier entry failed |
| TelegramParser.FieldsCopied | src/config_parser/telegram_notifier.rs:18-25 | token and chat id are the text of the last `token` and `chat_id` entries; an integer becomes its decimal text |
| CommandParser.ParseCommandLine | src/config_parser/command_notifier.rs:17-37 | succeeds exactly on a non-empty array of scalars, with `[command] + arguments` equal to it; the "must have a command specified" and "must be an array." errors otherwise |
| CommandParser.ParseAttr | src/config_parser/command_notifier.rs:13-46 | a command line comes only from the `command` key, as `ParseCommandLine` reads it |
| CommandParser.Parse | src/config_parser/command_notifier.rs:49-52 | a non-mapping body is the "must be a hash" `GeneralError` |
| CommandParser.CommandSplit | src/config_parser/command_notifier.rs:17-24 | the program and arguments are the array of the last `command` entry, split at its first element |
| CommandParser.MissingCommand | src/config_parser/command_notifier.rs:55-58 | a body whose attributes convert is accepted exactly when it has a `command` entry; without one, `FieldMissing("notifiers.<id>.command")` |
| CommandParser.FirstBadAttribute | src/config_parser/command_notifier.rs:38-45 | the first failing entry decides the error; an unknown key gives `UnknownNotifierAttribute` with label `command` |
| CommandParser.TypeIgnored | src/config_parser/command_notifier.rs:16 | `type` is skipped whatever its value |
| HipchatParser.ParseAttr | src/config_parser/hipchat_notifier.rs:16-47 | `token`, `room_id` and `base_url` come only from their own keys |
| HipchatParser.Parse | src/config_parser/hipchat_notifier.rs:50-53 | a non-mapping body is the "must be a hash" `GeneralError` (values: `FieldsCopied`) |
| HipchatParser.FieldsCopied | src/config_parser/hipchat_notifier.rs:20-70 | token and room id are the text of the last `token` and `room_id` entries; the base URL is the URI parse of the last `base_url` text |
| HipchatParser.MissingField | src/config_parser/hipchat_notifier.rs:56-64 | accepted exactly when all three keys are present; the first missing of `token`, `room_id`, `base_url` is reported |
| HipchatParser.FirstBadAttribute | src/config_parser/hipchat_notifier.rs:28-46 | an unparsable `base_url` is a `GeneralError` naming value and id; an unknown key gives label `telegram` |
| HipchatParser.TypeIgnored | src/config_parser/hipchat_notifier.rs:19 | `type` is skipped whatever its value |
| SlackParser.ParseAttr | src/config/parser/slack_notifier.rs:14-37 | the webhook URL comes only from `webhook_url` and is the URI parse of its text |
| SlackParser.Parse | src/config/parser/slack_notifier.rs:40-43 | a non-mapping body is the "must be a hash" `GeneralError` |
| SlackParser.WebhookRequired | src/config/parser/slack_notifier.rs:46-48 | accepted exactly when a `webhook_url` entry exists, with the URL the URI parse of the last one's text; otherwise `FieldMissing("notifiers.<id>.webhook_url")` |
| SlackParser.FirstBadAttribute | src/config/parser/slack_notifier.rs:18-36 | an unparsable URL is a `GeneralError` naming value and id; an unknown key gives label `telegram` |
| SlackParser.TypeIgnored | src/config/parser/slack_notifier.rs:17 | `type` is skipped whatever its value |
| NotifiersParser.ParseNotifierConfig | src/config/parser/notifiers/mod.rs:41-76 | a non-mapping is refused; no `type` gives `FieldMissing("notifiers.<id>.type")`; on success the type text names the variant built |
| NotifiersParser.ParseByType | src/config/parser/notifiers/mod.rs:51-74 | the variant built is the one the type names; any other type is `InvalidNotifierType(id, type)` |
| NotifiersParser.Dispatch | src/config/parser/notifiers/mod.rs:51-74 | each of the four type texts passes the body to its parser and its outcome on; any other text is an invalid type |
| NotifiersParser.ParseNotifier | src/config/parser/notifiers/mod.rs:33-39 | the id is the key's text; it succeeds exactly when the body's configuration parses |
| NotifiersParser.ParseNotifiers | src/config/parser/notifiers/mod.rs:14-31 | a non-mapping is refused; succeeds exactly when every entry parses, one notifier per entry in order; otherwise the first failing entry's error |
| ConfigParser.RootEntry | src/config/parser/mod.rs:21-35 | accepted exactly for a section key whose value parses; it replaces that section only; any other key is `UnkownRootElement(name)` |
| ConfigParser.ParseConfig | src/config/parser/mod.rs:12-49 | a loader error is `InvalidYaml`; no documents give the empty configuration; a non-mapping document is "Root element of YAML must be Hash" |
| ConfigParser.RootAccepted | src/config/parser/mod.rs:18-35 | a root mapping is accepted exactly when every entry is |
| ConfigParser.RootSections | src/config/parser/mod.rs:18-35 | each section holds the parse of its last occurrence, or keeps its earlier value |
| ConfigParser.DocsAsOneRoot | src/config/parser/mod.rs:18-43 | reading several documents is reading all their root entries in order |
| ConfigParser.RootAppend | src/config/parser/mod.rs:18-35 | the root loop over two runs is the loop over the first continued over the second |
| ConfigParser.DocsAreMappings | src/config/parser/mod.rs:37-41 | an accepted parse means every document was a mapping |
| ConfigParser.ConfigMeaning | src/config/parser/mod.rs:12-49 | accepted exactly when all documents are mappings and all root entries name a parsing section; sections are the parse of their last occurrence, or empty |
| ConfigParser.UnknownRootKey | src/config/parser/mod.rs:31-33 | a root key other than the two sections is `UnkownRootElement(name)` unless an earlier entry failed |
| ConfigParser.SingleDocument | src/config/parser/mod.rs:18-48 | a document holding checkers then notifiers: checker errors win, then notifier errors, else both sections |
| ConfigExamples.CheckerAccepted | src/config/parser/mod.rs:55-73 | the test's `greyblake` checker is read as exactly: its URL as the URI parser reads it, the 1s interval as the duration parser reads it, `[telebot]`, no credentials |
| ConfigExamples.NotifierAccepted | src/config/parser/mod.rs:55-73 | the test's `telebot` notifier is read as exactly a Telegram notifier with token `TOKENGOESHERE` and chat id `8677112` |
| ConfigExamples.ValidDocument | src/config/parser/mod.rs:55-73 | the valid test document gives one checker and one notifier |
| ConfigExamples.TokenMissing | src/config/parser/mod.rs:75-96 | without the token the document is refused with `FieldMissing("notifiers.telebot.token")` |
| ConfigExamples.UrlMissing | src/config/parser/mod.rs:98-119 | without the URL the document is refused with `FieldMissing("checkers.greyblake.url")`, although its notifiers are fine |
| LegacyParser.Key | src/config_parser.rs:39-44 | accepts strings only, verbatim; anything else panics with "Key must be a string. Got ..." |
| LegacyParser.YamlToString | src/config_parser.rs:46-52 | accepts strings verbatim and integers in decimal; anything else panics |
| LegacyParser.YamlToVec | src/config_parser.rs:54-68 | on success an array, converted element by element; a non-array panics |
| LegacyParser.ParseTelegram | src/config_parser.rs:114-145 | a non-mapping body panics with "notifiers.<id> must be a hash" |
| LegacyParser.ParseNotifierConfig | src/config_parser.rs:100-112 | a non-mapping or missing `type` panics; only the type `telegram` is accepted, and any other type panics naming it |
| LegacyParser.ParseNotifiers | src/config_parser.rs:77-91 | a non-mapping panics; on success one notifier per entry, in order |
| LegacyParser.CheckerAttr | src/config_parser.rs:175-192 | each attribute kind comes only from its string key; any other key panics naming it |
| LegacyParser.ParseChecker | src/config_parser.rs:165-202 | on success the id is the string key, the body was a mapping and there are no credentials |
| LegacyParser.CheckerDefaults | src/config_parser.rs:167-170 | without `interval` the interval is 10 seconds; without `notifiers` the list is empty |
| LegacyParser.ParseCheckers | src/config_parser.rs:149-163 | a non-mapping panics; on success one checker per entry, in order |
| LegacyParser.RootEntry | src/config_parser.rs:17-28 | only `checkers` and `notifiers` are accepted; any other string key panics with "Unknown element <key>" |
| LegacyParser.ParseConfig | src/config_parser.rs:8-37 | a loader error panics; no documents give the empty configuration; a non-mapping root panics |
| LegacyExamples.ValidDocument | src/config_parser.rs:209-227 | the valid test document gives one checker and one notifier |
| LegacyExamples.TokenMissing | src/config_parser.rs:229-245 | without the token the parse panics with "Missing notifiers.telebot.token" |
| LegacyExamples.UrlMissing | src/config_parser.rs:247-263 | without the URL the parse panics with "checkers.greyblake.url is missing" |
| LegacyAgreement.CheckerAgrees | src/config_parser.rs:165-202 | a checker the legacy parser reads is read to the same value by the `Result`-based parser |
| LegacyAgreement.NotifierAgrees | src/config_parser.rs:93-98 | a notifier the legacy parser reads is read to the same value by the `Result`-based parser |
| LegacyAgreement.ConfigAgrees | src/config_parser.rs:8-37 | every load the legacy parser reads without panicking gives the same configuration under the `Result`-based parser |
| Utf8.EncodeChar | src/watcher.rs:91-92 | one to four bytes, one exactly for ASCII |
| Utf8.DecodeEncode | src/watcher.rs:91-92 | the UTF-8 bytes of a string decode back to the string |
| Utf8.EncodeInjective | src/watcher.rs:91-92 | distinct strings have distinct encodings |
| Base64.Value | src/watcher.rs:92 | a decoded alphabet character encodes back to itself |
| Base64.Encode | src/watcher.rs:92 | length 4·⌈n/3⌉, and only alphabet or pad characters |
| Base64.DecodeEncode | src/watcher.rs:92 | decoding undoes encoding |
| Base64.EncodeInjective | src/watcher.rs:92 | distinct byte strings have distinct encodings |
| Watcher.EncodingIsHeaderSafe | src/watcher.rs:92-94 | base64 output is printable ASCII, 0x20 to 0x7E |
| Watcher.AuthorizationValue | src/watcher.rs:90-95 | "Basic " followed by a base64 text that decodes, through UTF-8, to "username:password"; of length 6 + 4·⌈n/3⌉; header-safe, so `from_str` cannot fail |
| Watcher.BuildRequest | src/watcher.rs:79-88 | a GET to the checker's URL with an empty body, carrying exactly the one Authorization header iff the checker has credentials |
| Watcher.Classify | src/watcher.rs:56-64 | Up exactly when the response has status 200; other statuses and send errors are Down |
| Watcher.Probe | src/watcher.rs:48-69 | the message names the probed checker and is Up exactly when the request got status 200 |
| Watcher.Watch | src/watcher.rs:50-74 | one message per tick, in order, each naming the checker and Up exactly on status 200 |
| Notifiers.FromConfig | src/reactor.rs:75-96 | the backend kind matches the configuration variant, and the configuration can be read back from it |
| Notifiers.FromConfigOf | src/notifiers/telegram.rs:14-20 | building from a backend's own configuration gives the same backend, so `from_config` loses nothing |
| Notifiers.Between | src/notifiers/telegram.rs:28-42 | the middle text is exactly what sits between the head and the tail |
| Notifiers.BetweenJoin | src/notifiers/telegram.rs:28-42 | the middle of head + mid + tail is mid |
| Notifiers.TelegramText | src/notifiers/telegram.rs:25-44 | the text is id, state phrase (🎈 up, 🔥 down), newline and URL, and the state reads back from it |
| Notifiers.TelegramRequest | src/notifiers/telegram.rs:45-51 | posts to the bot URL of exactly the token, with a body of exactly `chat_id` and `text` |
| Notifiers.SlackTitleNamesState | src/notifiers/slack.rs:49-52 | the title names the checker and the state reads back from it |
| Notifiers.SlackPayload | src/notifiers/slack.rs:32-67 | exactly one attachment under `attachments`, with fallback = title + newline + URL, title_link = URL, colour good iff Up and danger iff Down |
| Notifiers.CommandEnv | src/notifiers/command.rs:22-33 | HELLCHECK_ID, HELLCHECK_URL and HELLCHECK_OK, the last "true" iff Up |
| Notifiers.Notify | src/notifiers/telegram.rs:51-52 | Telegram and Slack succeed iff a response came back; the command succeeds iff it exited with code 0; Hipchat always succeeds |
| Reactor.UpStates | src/reactor.rs:67-73 | the loop of `build_initial_states`: exactly the checkers' ids, each Up |
| Reactor.InitialStates | src/reactor.rs:67-73 | the table's keys are exactly the configured checker ids, each Up |
| Reactor.BuildNotifiers | src/reactor.rs:75-96 | one backend per declared id, built from the last declaration of that id |
| Reactor.DispatchAll | src/reactor.rs:36-51 | one `notify` per listed id, in list order, whatever earlier ones returned |
| Reactor.Step | src/reactor.rs:29-54 | an unchanged state dispatches nothing; a change dispatches once per listed notifier, in order, with id, URL text and new state; the entry becomes the new state, nothing else changes and the keys stay |
| Reactor.DeliverableKeys | src/reactor.rs:29-32 | what the unwraps need depends on the table only through its keys |
| Reactor.Run | src/reactor.rs:27-55 | the receive loop keeps the table's key set |
| Reactor.RunTable | src/reactor.rs:54 | after the loop every entry is the state of the last message about it, or its starting state |
| Reactor.RunAppend | src/reactor.rs:27-55 | one message more grows the trace by exactly that message's dispatches |
| Reactor.SentAppend | src/reactor.rs:36-51 | what a trace sends splits over concatenation |
| Reactor.StepOutcomesDoNotSteer | src/reactor.rs:41-50 | one turn ends the same and sends the same under any two transports |
| Reactor.OutcomesDoNotSteer | src/reactor.rs:41-50 | notifier failures steer nothing: the same final table and the same notifications, in order, under any transports |
| Reactor.RepeatIsSilent | src/reactor.rs:35 | a repeated report dispatches nothing and leaves the table alone |
| Reactor.RunSingle | src/reactor.rs:27-55 | the loop over one message is that message's turn |
| Reactor.RunRepeat | src/reactor.rs:35-54 | the loop over one report told twice is that report told once |
| Reactor.OutageRun | src/reactor.rs:27-55 | down, down, up runs as the first down turn followed by the up turn |
| Reactor.DownUpRestores | src/reactor.rs:54 | Down then Up leaves a table where the checker was Up as it was |
| Reactor.StepAddressed | src/reactor.rs:35-51 | a changing turn addresses every listed notifier, in order, with the new state |
| Reactor.Outage | src/reactor.rs:27-55 | an outage of two down probes and a recovery notifies each notifier of the down once, then of the up once, and the table ends where it began |
| Reactor.ValidatedIsDeliverable | src/reactor.rs:29-38 | after validation every message about a configured checker satisfies the unwraps of the loop |
| Reactor.React | src/reactor.rs:22-55 | on a validated configuration, the table's keys are the checker ids and each entry is the last reported state, else Up |
| Pipeline.WatchThenReact | src/watcher.rs:48-69 | a checker's probes name configured checkers, and the reactor ends with it Up exactly when its last probe got status 200 (or it was never probed) |
| Pipeline.CommandRunsDocumentArray | src/notifiers/command.rs:28-33 | the command notifier runs exactly the `command` array of the document: its head as the program, its tail as the arguments |

## Left out

- The thread, the mpsc channel and the endless receive loop of the reactor: the loop is a fold over a finite sequence of messages. The `recv().unwrap()` cannot fail in a fold.
- The timer-driven schedule, the hyper/TLS client and the tokio core of the watcher. A tick is one element of the outcome sequence `Watch` is given, and a request's outcome comes from a function passed in.
- HTTP POSTs through reqwest and `std::process::Command`: their outcomes are the `Transport` parameter, and what they are given is modelled as data (`Post`, `Spawn`).
- Loading YAML text (`YamlLoader::load_from_str`): `ParseConfig` receives the loader's error message or the loaded documents.
- The humantime duration parser, the hyper `Uri` parser and the `{:?}` rendering of a YAML node are parameters (`Externals`). A `Duration` is a count of nanoseconds.
- `HeaderValue::from_str(..).unwrap()` is not modelled as a call. Instead, `Watcher.AuthorizationValue` proves that the value holds only printable ASCII (0x20 to 0x7E, the space included), which that parser accepts.
- The Hipchat `notify` is a stub that prints a TODO and returns `Ok`. It is modelled as always succeeding and sending nothing.
- Logging (`info!`), `eprintln!` and the legacy `println!` of the notifier type produce no result and are left out.
- LegacyParser: when a library `unwrap()` panics (loader, duration or URI parse), the message is `LibraryPanic`, not the library's own text.
- src/main.rs, src/cli/*, src/lib.rs, src/config/mod.rs: the entry point, argument handling, file reading and module wiring are not part of this model.
- LegacyAgreement: only the direction "legacy reads it ⇒ the new parser reads it the same" is proved. The converse is false, because the new parser also accepts integer keys, `basic_auth` and three more notifier types.
