/** Parsing the body of a `type: hipchat` notifier
    (src/config_parser/hipchat_notifier.rs): `token`, `room_id` and a valid
    `base_url` are all required. An unknown key is reported with the label
    `telegram`, as hipchat_notifier.rs does. */
module HipchatParser {
  import opened Wrappers
  import opened YamlTree
  import opened Errors
  import opened Config
  import opened Externals
  import opened Walk
  import opened Common

  datatype Attr = Ignored | Token(token: string) | RoomId(roomId: string) | BaseUrl(baseUrl: Uri)

  /** The body of the attribute loop, for one entry. */
  function ParseAttr(ext: Externals, id: string, key: Yaml, val: Yaml): (r: Result<Attr, ConfigError>)
    ensures r.Success? && ParseKey(ext, key) == Success("token") ==> r.value.Token?
    ensures r.Success? && ParseKey(ext, key) == Success("room_id") ==> r.value.RoomId?
    ensures r.Success? && ParseKey(ext, key) == Success("base_url") ==> r.value.BaseUrl?
    ensures r.Success? && r.value.Token? ==> ParseKey(ext, key) == Success("token")
    ensures r.Success? && r.value.RoomId? ==> ParseKey(ext, key) == Success("room_id")
    ensures r.Success? && r.value.BaseUrl? ==> ParseKey(ext, key) == Success("base_url")
  {
    var name :- ParseKey(ext, key);
    if name == "type" then Success(Ignored)
    else if name == "token" then
      var v :- ParseYamlToString(ext, val);
      Success(Token(v))
    else if name == "room_id" then
      var v :- ParseYamlToString(ext, val);
      Success(RoomId(v))
    else if name == "base_url" then
      var v :- ParseYamlToString(ext, val);
      match ext.parseUri(v)
      case Some(u) => Success(BaseUrl(u))
      case None => Failure(GeneralError("`" + v + "` in `notifiers." + id + ".base_url` is not a valid URL"))
    else
      Failure(UnknownNotifierAttribute(id, "telegram", name))
  }

  function TokenOf(a: Attr): Option<string> {
    if a.Token? then Some(a.token) else None
  }

  function RoomIdOf(a: Attr): Option<string> {
    if a.RoomId? then Some(a.roomId) else None
  }

  function BaseUrlOf(a: Attr): Option<Uri> {
    if a.BaseUrl? then Some(a.baseUrl) else None
  }

  function ParseAttrs(ext: Externals, id: string, entries: seq<(Yaml, Yaml)>): Result<seq<Attr>, ConfigError> {
    Traverse(entries, (e: (Yaml, Yaml)) => ParseAttr(ext, id, e.0, e.1))
  }

  /** `hipchat_notifier::parse(id, body)`. */
  function Parse(ext: Externals, id: string, body: Yaml): (r: Result<HipchatNotifierConfig, ConfigError>)
    ensures !body.Hash? ==> r == Failure(GeneralError("`notifiers." + id + "` must be a hash. Got " + ext.debug(body)))
    ensures r.Success? ==> body.Hash? && ParseAttrs(ext, id, body.entries).Success?
    ensures r.Success? ==>
              var attrs := ParseAttrs(ext, id, body.entries).value;
              Last(attrs, TokenOf) == Some(r.value.token) && Last(attrs, RoomIdOf) == Some(r.value.roomId)
              && Last(attrs, BaseUrlOf) == Some(r.value.baseUrl)
  {
    match body
    case Hash(entries) =>
      var attrs :- ParseAttrs(ext, id, entries);
      var token :- OkOr(Last(attrs, TokenOf), FieldMissing("notifiers." + id + ".token"));
      var roomId :- OkOr(Last(attrs, RoomIdOf), FieldMissing("notifiers." + id + ".room_id"));
      var baseUrl :- OkOr(Last(attrs, BaseUrlOf), FieldMissing("notifiers." + id + ".base_url"));
      Success(HipchatNotifierConfig(baseUrl, token, roomId))
    case _ => Failure(GeneralError("`notifiers." + id + "` must be a hash. Got " + ext.debug(body)))
  }

  /** Each attribute was read from the entry at the same position. */
  lemma AttrAt(ext: Externals, id: string, entries: seq<(Yaml, Yaml)>, attrs: seq<Attr>, k: nat)
    requires ParseAttrs(ext, id, entries) == Success(attrs)
    requires k < |attrs|
    ensures k < |entries| && ParseAttr(ext, id, entries[k].0, entries[k].1) == Success(attrs[k])
  {
  }

  /** `token`, `room_id` and `base_url` are required; the first one missing,
      in that order, is the one reported. */
  lemma MissingField(ext: Externals, id: string, entries: seq<(Yaml, Yaml)>)
    requires ParseAttrs(ext, id, entries).Success?
    ensures !HasKey(ext, entries, "token") ==>
              Parse(ext, id, Hash(entries)) == Failure(FieldMissing("notifiers." + id + ".token"))
    ensures HasKey(ext, entries, "token") && !HasKey(ext, entries, "room_id") ==>
              Parse(ext, id, Hash(entries)) == Failure(FieldMissing("notifiers." + id + ".room_id"))
    ensures HasKey(ext, entries, "token") && HasKey(ext, entries, "room_id") && !HasKey(ext, entries, "base_url") ==>
              Parse(ext, id, Hash(entries)) == Failure(FieldMissing("notifiers." + id + ".base_url"))
    ensures Parse(ext, id, Hash(entries)).Success? <==>
              HasKey(ext, entries, "token") && HasKey(ext, entries, "room_id") && HasKey(ext, entries, "base_url")
  {
    var attrs := ParseAttrs(ext, id, entries).value;
    AttrsReadFrom(ext, id, entries);
    AttrsPresent(ext, entries, attrs);
  }

  /** Each required kind of attribute is present exactly when an entry has
      its key. */
  lemma AttrsPresent(ext: Externals, entries: seq<(Yaml, Yaml)>, attrs: seq<Attr>)
    requires ReadFrom(ext, entries, attrs)
    ensures Last(attrs, TokenOf).Some? <==> HasKey(ext, entries, "token")
    ensures Last(attrs, RoomIdOf).Some? <==> HasKey(ext, entries, "room_id")
    ensures Last(attrs, BaseUrlOf).Some? <==> HasKey(ext, entries, "base_url")
  {
    PresentEntry(ext, entries, attrs, "token", Name, TokenOf);
    PresentEntry(ext, entries, attrs, "room_id", Name, RoomIdOf);
    PresentEntry(ext, entries, attrs, "base_url", Name, BaseUrlOf);
  }

  /** The key an attribute is read from. */
  function Name(a: Attr): string {
    match a
    case Ignored => "type"
    case Token(_) => "token"
    case RoomId(_) => "room_id"
    case BaseUrl(_) => "base_url"
  }

  /** `val` is a value the attribute `a` is read from: the text of a token
      or room id, the URI parse of the text of a base URL. */
  predicate Converts(ext: Externals, val: Yaml, a: Attr) {
    match a
    case Ignored => true
    case Token(t) => ParseYamlToString(ext, val) == Success(t)
    case RoomId(r) => ParseYamlToString(ext, val) == Success(r)
    case BaseUrl(u) => UrlText(ext, val, u)
  }

  /** `attrs` is what the attribute loop makes of `entries`: one attribute
      per entry, under a key that names its kind, read from its value. */
  predicate ReadFrom(ext: Externals, entries: seq<(Yaml, Yaml)>, attrs: seq<Attr>) {
    |attrs| == |entries|
    && forall k :: 0 <= k < |entries| ==>
         ParseKey(ext, entries[k].0) == Success(Name(attrs[k])) && Converts(ext, entries[k].1, attrs[k])
  }

  /** A converted entry is read as `ReadFrom` says. */
  lemma AttrFromEntry(ext: Externals, id: string, key: Yaml, val: Yaml, a: Attr)
    requires ParseAttr(ext, id, key, val) == Success(a)
    ensures ParseKey(ext, key) == Success(Name(a)) && Converts(ext, val, a)
  {
  }

  lemma AttrsReadFrom(ext: Externals, id: string, entries: seq<(Yaml, Yaml)>)
    requires ParseAttrs(ext, id, entries).Success?
    ensures ReadFrom(ext, entries, ParseAttrs(ext, id, entries).value)
  {
    var attrs := ParseAttrs(ext, id, entries).value;
    forall k | 0 <= k < |entries|
      ensures ParseKey(ext, entries[k].0) == Success(Name(attrs[k])) && Converts(ext, entries[k].1, attrs[k])
    {
      AttrAt(ext, id, entries, attrs, k);
      AttrFromEntry(ext, id, entries[k].0, entries[k].1, attrs[k]);
    }
  }

  /** The configured token, room id and base URL are those of the last
      `token`, `room_id` and `base_url` entry: the text of the first two, a
      string verbatim or an integer in decimal, and the URI parse of the
      third. */
  lemma FieldsCopied(ext: Externals, id: string, entries: seq<(Yaml, Yaml)>)
    requires Parse(ext, id, Hash(entries)).Success?
    ensures LastText(ext, entries, "token", Parse(ext, id, Hash(entries)).value.token)
    ensures LastText(ext, entries, "room_id", Parse(ext, id, Hash(entries)).value.roomId)
    ensures exists i :: LastKeyAt(ext, entries, "base_url", i)
                        && UrlText(ext, entries[i].1, Parse(ext, id, Hash(entries)).value.baseUrl)
  {
    var attrs := ParseAttrs(ext, id, entries).value;
    AttrsReadFrom(ext, id, entries);
    FieldsOfAttrs(ext, entries, attrs, Parse(ext, id, Hash(entries)).value);
  }

  /** `FieldsCopied`, for the configuration the parse builds from its
      attributes. */
  lemma FieldsOfAttrs(ext: Externals, entries: seq<(Yaml, Yaml)>, attrs: seq<Attr>, c: HipchatNotifierConfig)
    requires ReadFrom(ext, entries, attrs)
    requires Last(attrs, TokenOf) == Some(c.token) && Last(attrs, RoomIdOf) == Some(c.roomId)
    requires Last(attrs, BaseUrlOf) == Some(c.baseUrl)
    ensures LastText(ext, entries, "token", c.token)
    ensures LastText(ext, entries, "room_id", c.roomId)
    ensures exists i :: LastKeyAt(ext, entries, "base_url", i) && UrlText(ext, entries[i].1, c.baseUrl)
  {
    TokenFrom(ext, entries, attrs, c.token);
    RoomIdFrom(ext, entries, attrs, c.roomId);
    BaseUrlFrom(ext, entries, attrs, c.baseUrl);
  }

  lemma TokenFrom(ext: Externals, entries: seq<(Yaml, Yaml)>, attrs: seq<Attr>, text: string)
    requires ReadFrom(ext, entries, attrs) && Last(attrs, TokenOf) == Some(text)
    ensures LastText(ext, entries, "token", text)
  {
    var i := LastEntry(ext, entries, attrs, "token", Name, TokenOf, text);
    assert Converts(ext, entries[i].1, attrs[i]);
  }

  lemma RoomIdFrom(ext: Externals, entries: seq<(Yaml, Yaml)>, attrs: seq<Attr>, text: string)
    requires ReadFrom(ext, entries, attrs) && Last(attrs, RoomIdOf) == Some(text)
    ensures LastText(ext, entries, "room_id", text)
  {
    var i := LastEntry(ext, entries, attrs, "room_id", Name, RoomIdOf, text);
    assert Converts(ext, entries[i].1, attrs[i]);
  }

  lemma BaseUrlFrom(ext: Externals, entries: seq<(Yaml, Yaml)>, attrs: seq<Attr>, u: Uri)
    requires ReadFrom(ext, entries, attrs) && Last(attrs, BaseUrlOf) == Some(u)
    ensures exists i :: LastKeyAt(ext, entries, "base_url", i) && UrlText(ext, entries[i].1, u)
  {
    var i := LastEntry(ext, entries, attrs, "base_url", Name, BaseUrlOf, u);
    assert Converts(ext, entries[i].1, attrs[i]);
  }

  /** The first entry that fails decides the error: an unparsable
      `base_url` names the value and the notifier, and an unknown key is
      refused with the `telegram` label. */
  lemma FirstBadAttribute(ext: Externals, id: string, entries: seq<(Yaml, Yaml)>, i: nat)
    requires i < |entries|
    requires forall j :: 0 <= j < i ==> ParseAttr(ext, id, entries[j].0, entries[j].1).Success?
    requires ParseAttr(ext, id, entries[i].0, entries[i].1).Failure?
    ensures Parse(ext, id, Hash(entries)) == Failure(ParseAttr(ext, id, entries[i].0, entries[i].1).error)
    ensures ParseKey(ext, entries[i].0) == Success("base_url") && ParseYamlToString(ext, entries[i].1).Success? ==>
              var v := ParseYamlToString(ext, entries[i].1).value;
              Parse(ext, id, Hash(entries))
                == Failure(GeneralError("`" + v + "` in `notifiers." + id + ".base_url` is not a valid URL"))
    ensures ParseKey(ext, entries[i].0).Success?
            && ParseKey(ext, entries[i].0).value !in ["type", "token", "room_id", "base_url"] ==>
              Parse(ext, id, Hash(entries))
                == Failure(UnknownNotifierAttribute(id, "telegram", ParseKey(ext, entries[i].0).value))
  {
    TraverseFirstFailure(entries, (e: (Yaml, Yaml)) => ParseAttr(ext, id, e.0, e.1), i);
  }

  /** The `type` key is skipped whatever its value. */
  lemma TypeIgnored(ext: Externals, id: string, key: Yaml, val: Yaml)
    requires ParseKey(ext, key) == Success("type")
    ensures ParseAttr(ext, id, key, val) == Success(Ignored)
  {
  }
}
