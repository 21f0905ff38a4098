/** Parsing the body of a `type: telegram` notifier
    (src/config_parser/telegram_notifier.rs): `token` and `chat_id` are both
    required, `type` is skipped, anything else is refused. */
module TelegramParser {
  import opened Wrappers
  import opened YamlTree
  import opened Errors
  import opened Config
  import opened Externals
  import opened Walk
  import opened Common

  datatype Attr = Ignored | Token(token: string) | ChatId(chatId: string)

  /** The body of the attribute loop, for one entry. */
  function ParseAttr(ext: Externals, id: string, key: Yaml, val: Yaml): (r: Result<Attr, ConfigError>)
    ensures r.Success? && r.value.Token? ==>
              ParseKey(ext, key) == Success("token") && ParseYamlToString(ext, val) == Success(r.value.token)
    ensures r.Success? && r.value.ChatId? ==>
              ParseKey(ext, key) == Success("chat_id") && ParseYamlToString(ext, val) == Success(r.value.chatId)
    ensures r.Success? && ParseKey(ext, key) == Success("token") ==> r.value.Token?
    ensures r.Success? && ParseKey(ext, key) == Success("chat_id") ==> r.value.ChatId?
  {
    var name :- ParseKey(ext, key);
    if name == "type" then Success(Ignored)
    else if name == "token" then
      var v :- ParseYamlToString(ext, val);
      Success(Token(v))
    else if name == "chat_id" then
      var v :- ParseYamlToString(ext, val);
      Success(ChatId(v))
    else
      Failure(UnknownNotifierAttribute(id, "telegram", name))
  }

  function TokenOf(a: Attr): Option<string> {
    if a.Token? then Some(a.token) else None
  }

  function ChatIdOf(a: Attr): Option<string> {
    if a.ChatId? then Some(a.chatId) else None
  }

  function ParseAttrs(ext: Externals, id: string, entries: seq<(Yaml, Yaml)>): Result<seq<Attr>, ConfigError> {
    Traverse(entries, (e: (Yaml, Yaml)) => ParseAttr(ext, id, e.0, e.1))
  }

  /** `telegram_notifier::parse(id, body)`. */
  function Parse(ext: Externals, id: string, body: Yaml): (r: Result<TelegramNotifierConfig, ConfigError>)
    ensures !body.Hash? ==> r == Failure(GeneralError("`notifiers." + id + "` must be a hash. Got " + ext.debug(body)))
    ensures r.Success? ==> body.Hash? && ParseAttrs(ext, id, body.entries).Success?
  {
    match body
    case Hash(entries) =>
      var attrs :- ParseAttrs(ext, id, entries);
      var token :- OkOr(Last(attrs, TokenOf), FieldMissing("notifiers." + id + ".token"));
      var chatId :- OkOr(Last(attrs, ChatIdOf), FieldMissing("notifiers." + id + ".chat_id"));
      Success(TelegramNotifierConfig(token, chatId))
    case _ => Failure(GeneralError("`notifiers." + id + "` must be a hash. Got " + ext.debug(body)))
  }

  /** The `type` key is skipped whatever its value. */
  lemma TypeIgnored(ext: Externals, id: string, key: Yaml, val: Yaml)
    requires ParseKey(ext, key) == Success("type")
    ensures ParseAttr(ext, id, key, val) == Success(Ignored)
  {
  }

  /** A body whose attributes all convert is accepted exactly when it has
      both a `token` and a `chat_id` entry; `token` is required and reported
      first, then `chat_id`. */
  lemma MissingField(ext: Externals, id: string, entries: seq<(Yaml, Yaml)>)
    requires ParseAttrs(ext, id, entries).Success?
    ensures !HasKey(ext, entries, "token") ==>
              Parse(ext, id, Hash(entries)) == Failure(FieldMissing("notifiers." + id + ".token"))
    ensures HasKey(ext, entries, "token") && !HasKey(ext, entries, "chat_id") ==>
              Parse(ext, id, Hash(entries)) == Failure(FieldMissing("notifiers." + id + ".chat_id"))
    ensures HasKey(ext, entries, "token") && HasKey(ext, entries, "chat_id") ==>
              Parse(ext, id, Hash(entries)).Success?
  {
    var attrs := ParseAttrs(ext, id, entries).value;
    if !HasKey(ext, entries, "token") {
      forall i | 0 <= i < |attrs| ensures TokenOf(attrs[i]).None? {
        AttrAt(ext, id, entries, attrs, i);
      }
    } else {
      var k :| 0 <= k < |entries| && ParseKey(ext, entries[k].0) == Success("token");
      AttrAt(ext, id, entries, attrs, k);
      assert TokenOf(attrs[k]).Some?;
    }
    if !HasKey(ext, entries, "chat_id") {
      forall i | 0 <= i < |attrs| ensures ChatIdOf(attrs[i]).None? {
        AttrAt(ext, id, entries, attrs, i);
      }
    } else {
      var m :| 0 <= m < |entries| && ParseKey(ext, entries[m].0) == Success("chat_id");
      AttrAt(ext, id, entries, attrs, m);
      assert ChatIdOf(attrs[m]).Some?;
    }
  }

  /** Any other key is refused with the `telegram` label, unless an earlier
      entry already failed. */
  lemma UnknownAttribute(ext: Externals, id: string, entries: seq<(Yaml, Yaml)>, i: nat, name: string)
    requires i < |entries|
    requires forall j :: 0 <= j < i ==> ParseAttr(ext, id, entries[j].0, entries[j].1).Success?
    requires ParseKey(ext, entries[i].0) == Success(name)
    requires name !in ["type", "token", "chat_id"]
    ensures Parse(ext, id, Hash(entries)) == Failure(UnknownNotifierAttribute(id, "telegram", name))
  {
    TraverseFirstFailure(entries, (e: (Yaml, Yaml)) => ParseAttr(ext, id, e.0, e.1), i);
  }

  /** The configured token and chat id are the text of the last `token` and
      the last `chat_id` entry: a string verbatim, an integer in decimal. */
  lemma FieldsCopied(ext: Externals, id: string, entries: seq<(Yaml, Yaml)>)
    requires Parse(ext, id, Hash(entries)).Success?
    ensures LastText(ext, entries, "token", Parse(ext, id, Hash(entries)).value.token)
    ensures LastText(ext, entries, "chat_id", Parse(ext, id, Hash(entries)).value.chatId)
  {
    var c := Parse(ext, id, Hash(entries)).value;
    var attrs := ParseAttrs(ext, id, entries).value;
    assert Last(attrs, TokenOf) == Some(c.token) && Last(attrs, ChatIdOf) == Some(c.chatId);
    TokenFrom(ext, id, entries, attrs, c.token);
    ChatIdFrom(ext, id, entries, attrs, c.chatId);
  }

  lemma TokenFrom(ext: Externals, id: string, entries: seq<(Yaml, Yaml)>, attrs: seq<Attr>, text: string)
    requires ParseAttrs(ext, id, entries) == Success(attrs)
    requires Last(attrs, TokenOf) == Some(text)
    ensures LastText(ext, entries, "token", text)
  {
    var t :| 0 <= t < |attrs| && TokenOf(attrs[t]) == Some(text)
             && forall j :: t < j < |attrs| ==> TokenOf(attrs[j]).None?;
    AttrAt(ext, id, entries, attrs, t);
    forall j | t < j < |entries| ensures ParseKey(ext, entries[j].0) != Success("token") {
      AttrAt(ext, id, entries, attrs, j);
      assert !attrs[j].Token?;
    }
  }

  lemma ChatIdFrom(ext: Externals, id: string, entries: seq<(Yaml, Yaml)>, attrs: seq<Attr>, text: string)
    requires ParseAttrs(ext, id, entries) == Success(attrs)
    requires Last(attrs, ChatIdOf) == Some(text)
    ensures LastText(ext, entries, "chat_id", text)
  {
    var k :| 0 <= k < |attrs| && ChatIdOf(attrs[k]) == Some(text)
             && forall j :: k < j < |attrs| ==> ChatIdOf(attrs[j]).None?;
    AttrAt(ext, id, entries, attrs, k);
    forall j | k < j < |entries| ensures ParseKey(ext, entries[j].0) != Success("chat_id") {
      AttrAt(ext, id, entries, attrs, j);
      assert !attrs[j].ChatId?;
    }
  }

  /** Each attribute was read from the entry at the same position. */
  lemma AttrAt(ext: Externals, id: string, entries: seq<(Yaml, Yaml)>, attrs: seq<Attr>, k: nat)
    requires ParseAttrs(ext, id, entries) == Success(attrs)
    requires k < |attrs|
    ensures k < |entries| && ParseAttr(ext, id, entries[k].0, entries[k].1) == Success(attrs[k])
  {
  }
}
