/** Parsing one checker entry, `<id>: { url, interval, notifiers, basic_auth }`
    (src/config_parser/checker.rs). The attributes are read in document order;
    the first bad one ends the parse with its error, and when an attribute
    occurs twice the later value wins. */
module CheckerParser {
  import opened Wrappers
  import opened YamlTree
  import opened Errors
  import opened Config
  import opened Externals
  import opened Walk
  import opened Common

  /** One recognised checker attribute, with its value already converted. */
  datatype Attr =
    | IntervalAttr(interval: Duration)
    | UrlAttr(url: Uri)
    | NotifiersAttr(ids: seq<string>)
    | BasicAuthAttr(auth: BasicAuth)

  /** One `basic_auth` attribute. */
  datatype Credential = Username(username: string) | Password(password: string)

  /** The body of the attribute loop of `parse_basic_auth`, for one entry. */
  function ParseCredential(ext: Externals, checkerId: string, key: Yaml, val: Yaml): (r: Result<Credential, ConfigError>)
    ensures r.Success? && r.value.Username? ==> ParseKey(ext, key) == Success("username")
    ensures r.Success? && r.value.Password? ==> ParseKey(ext, key) == Success("password")
  {
    var name :- ParseKey(ext, key);
    if name == "username" then
      var v :- ParseKey(ext, val);
      Success(Username(v))
    else if name == "password" then
      var v :- ParseKey(ext, val);
      Success(Password(v))
    else
      Failure(GeneralError("Unknown attribute checkers." + checkerId + ".basic_auth." + name))
  }

  function UsernameOf(c: Credential): Option<string> {
    if c.Username? then Some(c.username) else None
  }

  function PasswordOf(c: Credential): Option<string> {
    if c.Password? then Some(c.password) else None
  }

  /** `parse_basic_auth`: a mapping holding both `username` and `password`. */
  function ParseBasicAuth(ext: Externals, checkerId: string, val: Yaml): (r: Result<BasicAuth, ConfigError>)
    ensures !val.Hash? ==> r == Failure(GeneralError("basic_auth must be a hash. Got " + ext.debug(val)))
    ensures r.Success? ==>
              val.Hash? && HasKey(ext, val.entries, "username") && HasKey(ext, val.entries, "password")
  {
    match val
    case Hash(entries) =>
      var creds :- Traverse(entries, (e: (Yaml, Yaml)) => ParseCredential(ext, checkerId, e.0, e.1));
      var username :- OkOr(Last(creds, UsernameOf),
                           FieldMissing("checkers." + checkerId + ".basic_auth.username"));
      var password :- OkOr(Last(creds, PasswordOf),
                           FieldMissing("checkers." + checkerId + ".basic_auth.password"));
      assert HasKey(ext, entries, "username") by {
        var i :| 0 <= i < |creds| && UsernameOf(creds[i]) == Some(username);
        assert ParseCredential(ext, checkerId, entries[i].0, entries[i].1) == Success(creds[i]);
      }
      assert HasKey(ext, entries, "password") by {
        var i :| 0 <= i < |creds| && PasswordOf(creds[i]) == Some(password);
        assert ParseCredential(ext, checkerId, entries[i].0, entries[i].1) == Success(creds[i]);
      }
      Success(BasicAuth(username, password))
    case _ => Failure(GeneralError("basic_auth must be a hash. Got " + ext.debug(val)))
  }

  /** The body of the attribute loop of `parse`, for one entry. */
  function ParseAttr(ext: Externals, id: string, key: Yaml, val: Yaml): (r: Result<Attr, ConfigError>)
    ensures r.Success? && r.value.IntervalAttr? ==> ParseKey(ext, key) == Success("interval")
    ensures r.Success? && r.value.UrlAttr? ==> ParseKey(ext, key) == Success("url")
    ensures r.Success? && r.value.NotifiersAttr? ==> ParseKey(ext, key) == Success("notifiers")
    ensures r.Success? && r.value.BasicAuthAttr? ==> ParseKey(ext, key) == Success("basic_auth")
  {
    var name :- ParseKey(ext, key);
    if name == "interval" then
      var text :- ParseKey(ext, val);
      match ext.parseDuration(text)
      case Some(d) => Success(IntervalAttr(d))
      case None => Failure(InvalidCheckerInterval(id, text))
    else if name == "url" then
      var text :- ParseYamlToString(ext, val);
      match ext.parseUri(text)
      case Some(u) => Success(UrlAttr(u))
      case None => Failure(InvalidCheckerUrl(id, text))
    else if name == "notifiers" then
      var ids :- ParseYamlToVec(ext, val);
      Success(NotifiersAttr(ids))
    else if name == "basic_auth" then
      var auth :- ParseBasicAuth(ext, id, val);
      Success(BasicAuthAttr(auth))
    else
      Failure(UnknownCheckerAttribute(id, name))
  }

  function IntervalOf(a: Attr): Option<Duration> {
    if a.IntervalAttr? then Some(a.interval) else None
  }

  function UrlOf(a: Attr): Option<Uri> {
    if a.UrlAttr? then Some(a.url) else None
  }

  function NotifiersOf(a: Attr): Option<seq<string>> {
    if a.NotifiersAttr? then Some(a.ids) else None
  }

  function BasicAuthOf(a: Attr): Option<BasicAuth> {
    if a.BasicAuthAttr? then Some(a.auth) else None
  }

  /** The attributes of a checker body, converted in document order. */
  function ParseAttrs(ext: Externals, id: string, entries: seq<(Yaml, Yaml)>): Result<seq<Attr>, ConfigError> {
    Traverse(entries, (e: (Yaml, Yaml)) => ParseAttr(ext, id, e.0, e.1))
  }

  /** `checker::parse(key, body)`. */
  function Parse(ext: Externals, key: Yaml, body: Yaml): (r: Result<CheckerConfig, ConfigError>)
    ensures ParseKey(ext, key).Failure? ==> r == Failure(ParseKey(ext, key).error)
    ensures r.Success? ==> ParseKey(ext, key) == Success(r.value.id) && body.Hash?
  {
    var id :- ParseKey(ext, key);
    match body
    case Hash(entries) =>
      var attrs :- ParseAttrs(ext, id, entries);
      var url :- OkOr(Last(attrs, UrlOf), FieldMissing("checkers." + id + ".url"));
      Success(CheckerConfig(
        id,
        url,
        Last(attrs, IntervalOf).GetOr(DefaultInterval),
        Last(attrs, NotifiersOf).GetOr([]),
        Last(attrs, BasicAuthOf)))
    case _ => Failure(GeneralError("`checkers." + id + "` must be a hash. Got " + ext.debug(body)))
  }

  /** When every attribute converts, the attribute list lines up with the
      entries and each attribute's kind is that of its key. */
  lemma AttrsLineUp(ext: Externals, id: string, entries: seq<(Yaml, Yaml)>)
    requires ParseAttrs(ext, id, entries).Success?
    ensures var attrs := ParseAttrs(ext, id, entries).value;
            |attrs| == |entries|
            && forall i :: 0 <= i < |entries| ==> ParseAttr(ext, id, entries[i].0, entries[i].1) == Success(attrs[i])
  {
  }

  /** The key an attribute is read from. */
  function Name(a: Attr): string {
    match a
    case IntervalAttr(_) => "interval"
    case UrlAttr(_) => "url"
    case NotifiersAttr(_) => "notifiers"
    case BasicAuthAttr(_) => "basic_auth"
  }

  /** `val` is a value the attribute `a` is read from: the URI parse of its
      text, the duration parse of its text, the array of its texts or the
      parsed `basic_auth` mapping. */
  predicate Converts(ext: Externals, id: string, val: Yaml, a: Attr) {
    match a
    case UrlAttr(u) => UrlText(ext, val, u)
    case IntervalAttr(d) => ParseKey(ext, val).Success? && ext.parseDuration(ParseKey(ext, val).value) == Some(d)
    case NotifiersAttr(ids) => ParseYamlToVec(ext, val) == Success(ids)
    case BasicAuthAttr(auth) => ParseBasicAuth(ext, id, val) == Success(auth)
  }

  /** `attrs` is what the attribute loop makes of `entries`: one attribute
      per entry, under a key that names its kind, read from its value. */
  predicate ReadFrom(ext: Externals, id: string, entries: seq<(Yaml, Yaml)>, attrs: seq<Attr>) {
    |attrs| == |entries|
    && forall k :: 0 <= k < |entries| ==>
         ParseKey(ext, entries[k].0) == Success(Name(attrs[k])) && Converts(ext, id, entries[k].1, attrs[k])
  }

  /** A converted entry is read as `ReadFrom` says. */
  lemma AttrFromEntry(ext: Externals, id: string, key: Yaml, val: Yaml, a: Attr)
    requires ParseAttr(ext, id, key, val) == Success(a)
    ensures ParseKey(ext, key) == Success(Name(a)) && Converts(ext, id, val, a)
  {
  }

  lemma AttrsReadFrom(ext: Externals, id: string, entries: seq<(Yaml, Yaml)>)
    requires ParseAttrs(ext, id, entries).Success?
    ensures ReadFrom(ext, id, entries, ParseAttrs(ext, id, entries).value)
  {
    var attrs := ParseAttrs(ext, id, entries).value;
    AttrsLineUp(ext, id, entries);
    forall k | 0 <= k < |entries|
      ensures ParseKey(ext, entries[k].0) == Success(Name(attrs[k])) && Converts(ext, id, entries[k].1, attrs[k])
    {
      AttrFromEntry(ext, id, entries[k].0, entries[k].1, attrs[k]);
    }
  }

  /** The last attribute of a kind was read from the last entry with the
      key that names the kind. */
  lemma LastAttrEntry<V>(ext: Externals, id: string, entries: seq<(Yaml, Yaml)>, attrs: seq<Attr>,
                         name: string, pick: Attr -> Option<V>, v: V) returns (i: nat)
    requires ReadFrom(ext, id, entries, attrs)
    requires forall a :: pick(a).Some? <==> Name(a) == name
    requires Last(attrs, pick) == Some(v)
    ensures LastKeyAt(ext, entries, name, i) && pick(attrs[i]) == Some(v) && Converts(ext, id, entries[i].1, attrs[i])
  {
    i := LastEntry(ext, entries, attrs, name, Name, pick, v);
  }

  /** Each kind of attribute is present exactly when an entry has its key. */
  lemma AttrsPresent(ext: Externals, id: string, entries: seq<(Yaml, Yaml)>, attrs: seq<Attr>)
    requires ReadFrom(ext, id, entries, attrs)
    ensures Last(attrs, UrlOf).Some? <==> HasKey(ext, entries, "url")
    ensures Last(attrs, IntervalOf).Some? <==> HasKey(ext, entries, "interval")
    ensures Last(attrs, NotifiersOf).Some? <==> HasKey(ext, entries, "notifiers")
    ensures Last(attrs, BasicAuthOf).Some? <==> HasKey(ext, entries, "basic_auth")
  {
    PresentEntry(ext, entries, attrs, "url", Name, UrlOf);
    PresentEntry(ext, entries, attrs, "interval", Name, IntervalOf);
    PresentEntry(ext, entries, attrs, "notifiers", Name, NotifiersOf);
    PresentEntry(ext, entries, attrs, "basic_auth", Name, BasicAuthOf);
  }

  /** Each field of a parsed checker is the conversion of the last entry
      with its key: the URI parse of the `url` text, the duration parse of
      the `interval` text, the `notifiers` array and the `basic_auth`
      mapping. A key that is absent leaves the default (`DefaultsWhenAbsent`). */
  lemma FieldsFrom(ext: Externals, key: Yaml, entries: seq<(Yaml, Yaml)>)
    requires Parse(ext, key, Hash(entries)).Success?
    ensures var c := Parse(ext, key, Hash(entries)).value;
            exists i :: LastKeyAt(ext, entries, "url", i) && UrlText(ext, entries[i].1, c.url)
    ensures var c := Parse(ext, key, Hash(entries)).value;
            HasKey(ext, entries, "interval") ==>
              exists i :: LastKeyAt(ext, entries, "interval", i)
                          && ParseKey(ext, entries[i].1).Success?
                          && ext.parseDuration(ParseKey(ext, entries[i].1).value) == Some(c.interval)
    ensures var c := Parse(ext, key, Hash(entries)).value;
            HasKey(ext, entries, "notifiers") ==>
              exists i :: LastKeyAt(ext, entries, "notifiers", i) && ParseYamlToVec(ext, entries[i].1) == Success(c.notifiers)
    ensures var c := Parse(ext, key, Hash(entries)).value;
            HasKey(ext, entries, "basic_auth") ==>
              c.basicAuth.Some?
              && exists i :: LastKeyAt(ext, entries, "basic_auth", i)
                             && ParseBasicAuth(ext, c.id, entries[i].1) == Success(c.basicAuth.value)
  {
    var c := Parse(ext, key, Hash(entries)).value;
    var id := ParseKey(ext, key).value;
    var attrs := ParseAttrs(ext, id, entries).value;
    AttrsReadFrom(ext, id, entries);
    FieldsOfAttrs(ext, id, entries, attrs, c);
  }

  /** `FieldsFrom`, for the checker the parse builds from its attributes. */
  lemma FieldsOfAttrs(ext: Externals, id: string, entries: seq<(Yaml, Yaml)>, attrs: seq<Attr>, c: CheckerConfig)
    requires ReadFrom(ext, id, entries, attrs)
    requires Last(attrs, UrlOf) == Some(c.url) && c.id == id
    requires c.interval == Last(attrs, IntervalOf).GetOr(DefaultInterval)
    requires c.notifiers == Last(attrs, NotifiersOf).GetOr([])
    requires c.basicAuth == Last(attrs, BasicAuthOf)
    ensures exists i :: LastKeyAt(ext, entries, "url", i) && UrlText(ext, entries[i].1, c.url)
    ensures HasKey(ext, entries, "interval") ==>
              exists i :: LastKeyAt(ext, entries, "interval", i)
                          && ParseKey(ext, entries[i].1).Success?
                          && ext.parseDuration(ParseKey(ext, entries[i].1).value) == Some(c.interval)
    ensures HasKey(ext, entries, "notifiers") ==>
              exists i :: LastKeyAt(ext, entries, "notifiers", i) && ParseYamlToVec(ext, entries[i].1) == Success(c.notifiers)
    ensures HasKey(ext, entries, "basic_auth") ==>
              c.basicAuth.Some?
              && exists i :: LastKeyAt(ext, entries, "basic_auth", i)
                             && ParseBasicAuth(ext, c.id, entries[i].1) == Success(c.basicAuth.value)
  {
    AttrsPresent(ext, id, entries, attrs);
    UrlFrom(ext, id, entries, attrs, c.url);
    if HasKey(ext, entries, "interval") {
      IntervalFrom(ext, id, entries, attrs, c.interval);
    }
    if HasKey(ext, entries, "notifiers") {
      NotifiersFrom(ext, id, entries, attrs, c.notifiers);
    }
    if HasKey(ext, entries, "basic_auth") {
      BasicAuthFrom(ext, id, entries, attrs, c.basicAuth.value);
    }
  }

  lemma UrlFrom(ext: Externals, id: string, entries: seq<(Yaml, Yaml)>, attrs: seq<Attr>, u: Uri)
    requires ReadFrom(ext, id, entries, attrs) && Last(attrs, UrlOf) == Some(u)
    ensures exists i :: LastKeyAt(ext, entries, "url", i) && UrlText(ext, entries[i].1, u)
  {
    var i := LastAttrEntry(ext, id, entries, attrs, "url", UrlOf, u);
  }

  lemma IntervalFrom(ext: Externals, id: string, entries: seq<(Yaml, Yaml)>, attrs: seq<Attr>, d: Duration)
    requires ReadFrom(ext, id, entries, attrs) && Last(attrs, IntervalOf) == Some(d)
    ensures exists i :: LastKeyAt(ext, entries, "interval", i)
                        && ParseKey(ext, entries[i].1).Success? && ext.parseDuration(ParseKey(ext, entries[i].1).value) == Some(d)
  {
    var i := LastAttrEntry(ext, id, entries, attrs, "interval", IntervalOf, d);
  }

  lemma NotifiersFrom(ext: Externals, id: string, entries: seq<(Yaml, Yaml)>, attrs: seq<Attr>, ids: seq<string>)
    requires ReadFrom(ext, id, entries, attrs) && Last(attrs, NotifiersOf) == Some(ids)
    ensures exists i :: LastKeyAt(ext, entries, "notifiers", i) && ParseYamlToVec(ext, entries[i].1) == Success(ids)
  {
    var i := LastAttrEntry(ext, id, entries, attrs, "notifiers", NotifiersOf, ids);
  }

  lemma BasicAuthFrom(ext: Externals, id: string, entries: seq<(Yaml, Yaml)>, attrs: seq<Attr>, auth: BasicAuth)
    requires ReadFrom(ext, id, entries, attrs) && Last(attrs, BasicAuthOf) == Some(auth)
    ensures exists i :: LastKeyAt(ext, entries, "basic_auth", i) && ParseBasicAuth(ext, id, entries[i].1) == Success(auth)
  {
    var i := LastAttrEntry(ext, id, entries, attrs, "basic_auth", BasicAuthOf, auth);
  }

  /** A mapping body is accepted exactly when every attribute converts and
      some entry has the `url` key. */
  lemma Accepted(ext: Externals, key: Yaml, id: string, entries: seq<(Yaml, Yaml)>)
    requires ParseKey(ext, key) == Success(id)
    ensures Parse(ext, key, Hash(entries)).Success? <==>
              ParseAttrs(ext, id, entries).Success? && HasKey(ext, entries, "url")
  {
    if ParseAttrs(ext, id, entries).Success? {
      AttrsReadFrom(ext, id, entries);
      AttrsPresent(ext, id, entries, ParseAttrs(ext, id, entries).value);
    }
  }

  /** A body that is not a mapping is refused. */
  lemma NonHashBody(ext: Externals, key: Yaml, id: string, body: Yaml)
    requires ParseKey(ext, key) == Success(id)
    requires !body.Hash?
    ensures Parse(ext, key, body) == Failure(GeneralError("`checkers." + id + "` must be a hash. Got " + ext.debug(body)))
  {
  }

  /** A checker without `interval` polls every 10 seconds; one without
      `notifiers` has none; one without `basic_auth` sends no credentials. */
  lemma DefaultsWhenAbsent(ext: Externals, key: Yaml, entries: seq<(Yaml, Yaml)>)
    requires Parse(ext, key, Hash(entries)).Success?
    ensures var c := Parse(ext, key, Hash(entries)).value;
            && (!HasKey(ext, entries, "interval") ==> c.interval == DefaultInterval)
            && (!HasKey(ext, entries, "notifiers") ==> c.notifiers == [])
            && (!HasKey(ext, entries, "basic_auth") ==> c.basicAuth == None)
  {
    var id := ParseKey(ext, key).value;
    var attrs := ParseAttrs(ext, id, entries).value;
    AttrsLineUp(ext, id, entries);
    if !HasKey(ext, entries, "interval") {
      assert forall i :: 0 <= i < |attrs| ==> IntervalOf(attrs[i]).None?;
    }
    if !HasKey(ext, entries, "notifiers") {
      assert forall i :: 0 <= i < |attrs| ==> NotifiersOf(attrs[i]).None?;
    }
    if !HasKey(ext, entries, "basic_auth") {
      assert forall i :: 0 <= i < |attrs| ==> BasicAuthOf(attrs[i]).None?;
    }
  }

  /** A body whose attributes all convert but that names no `url` is
      refused with the path of the missing field. */
  lemma MissingUrl(ext: Externals, key: Yaml, id: string, entries: seq<(Yaml, Yaml)>)
    requires ParseKey(ext, key) == Success(id)
    requires ParseAttrs(ext, id, entries).Success?
    requires !HasKey(ext, entries, "url")
    ensures Parse(ext, key, Hash(entries)) == Failure(FieldMissing("checkers." + id + ".url"))
  {
    var attrs := ParseAttrs(ext, id, entries).value;
    AttrsLineUp(ext, id, entries);
    assert forall i :: 0 <= i < |attrs| ==> UrlOf(attrs[i]).None?;
  }

  /** The first entry that fails to convert decides the error of the whole
      checker; the entries after it are never looked at. */
  lemma FirstBadAttribute(ext: Externals, key: Yaml, id: string, entries: seq<(Yaml, Yaml)>, i: nat)
    requires ParseKey(ext, key) == Success(id)
    requires i < |entries|
    requires forall j :: 0 <= j < i ==> ParseAttr(ext, id, entries[j].0, entries[j].1).Success?
    requires ParseAttr(ext, id, entries[i].0, entries[i].1).Failure?
    ensures Parse(ext, key, Hash(entries)) == Failure(ParseAttr(ext, id, entries[i].0, entries[i].1).error)
  {
    TraverseFirstFailure(entries, (e: (Yaml, Yaml)) => ParseAttr(ext, id, e.0, e.1), i);
  }

  /** An attribute name other than the four known ones ends the parse with
      `UnknownCheckerAttribute`, unless an earlier entry already failed. */
  lemma UnknownAttribute(ext: Externals, key: Yaml, id: string, entries: seq<(Yaml, Yaml)>, i: nat, name: string)
    requires ParseKey(ext, key) == Success(id)
    requires i < |entries|
    requires forall j :: 0 <= j < i ==> ParseAttr(ext, id, entries[j].0, entries[j].1).Success?
    requires ParseKey(ext, entries[i].0) == Success(name)
    requires name !in ["interval", "url", "notifiers", "basic_auth"]
    ensures Parse(ext, key, Hash(entries)) == Failure(UnknownCheckerAttribute(id, name))
  {
    FirstBadAttribute(ext, key, id, entries, i);
  }

  /** An interval the duration parser rejects is reported with its text. */
  lemma InvalidInterval(ext: Externals, key: Yaml, id: string, entries: seq<(Yaml, Yaml)>, i: nat, text: string)
    requires ParseKey(ext, key) == Success(id)
    requires i < |entries|
    requires forall j :: 0 <= j < i ==> ParseAttr(ext, id, entries[j].0, entries[j].1).Success?
    requires ParseKey(ext, entries[i].0) == Success("interval")
    requires ParseKey(ext, entries[i].1) == Success(text)
    requires ext.parseDuration(text).None?
    ensures Parse(ext, key, Hash(entries)) == Failure(InvalidCheckerInterval(id, text))
  {
    FirstBadAttribute(ext, key, id, entries, i);
  }

  /** A URL the URI parser rejects is reported with its text. */
  lemma InvalidUrl(ext: Externals, key: Yaml, id: string, entries: seq<(Yaml, Yaml)>, i: nat, text: string)
    requires ParseKey(ext, key) == Success(id)
    requires i < |entries|
    requires forall j :: 0 <= j < i ==> ParseAttr(ext, id, entries[j].0, entries[j].1).Success?
    requires ParseKey(ext, entries[i].0) == Success("url")
    requires ParseYamlToString(ext, entries[i].1) == Success(text)
    requires ext.parseUri(text).None?
    ensures Parse(ext, key, Hash(entries)) == Failure(InvalidCheckerUrl(id, text))
  {
    FirstBadAttribute(ext, key, id, entries, i);
  }

  /** The credentials of a `basic_auth` mapping, converted in order. */
  function ParseCredentials(ext: Externals, checkerId: string, entries: seq<(Yaml, Yaml)>): Result<seq<Credential>, ConfigError> {
    Traverse(entries, (e: (Yaml, Yaml)) => ParseCredential(ext, checkerId, e.0, e.1))
  }

  /** A missing `username` is reported before a missing `password`; with
      both present the mapping is accepted. */
  lemma BasicAuthMissingField(ext: Externals, checkerId: string, entries: seq<(Yaml, Yaml)>)
    requires ParseCredentials(ext, checkerId, entries).Success?
    ensures !HasKey(ext, entries, "username") ==>
              ParseBasicAuth(ext, checkerId, Hash(entries))
                == Failure(FieldMissing("checkers." + checkerId + ".basic_auth.username"))
    ensures HasKey(ext, entries, "username") && !HasKey(ext, entries, "password") ==>
              ParseBasicAuth(ext, checkerId, Hash(entries))
                == Failure(FieldMissing("checkers." + checkerId + ".basic_auth.password"))
    ensures ParseBasicAuth(ext, checkerId, Hash(entries)).Success? <==>
              HasKey(ext, entries, "username") && HasKey(ext, entries, "password")
  {
    var creds := ParseCredentials(ext, checkerId, entries).value;
    assert forall i :: 0 <= i < |entries| ==>
             ParseCredential(ext, checkerId, entries[i].0, entries[i].1) == Success(creds[i]);
    if !HasKey(ext, entries, "username") {
      assert forall i :: 0 <= i < |creds| ==> UsernameOf(creds[i]).None?;
    }
    if HasKey(ext, entries, "username") {
      var k :| 0 <= k < |entries| && ParseKey(ext, entries[k].0) == Success("username");
      assert UsernameOf(creds[k]).Some?;
    }
    if !HasKey(ext, entries, "password") {
      assert forall i :: 0 <= i < |creds| ==> PasswordOf(creds[i]).None?;
    }
    if HasKey(ext, entries, "username") && HasKey(ext, entries, "password") {
      var k :| 0 <= k < |entries| && ParseKey(ext, entries[k].0) == Success("password");
      assert PasswordOf(creds[k]).Some?;
    }
  }

  /** The key a credential is read from. */
  function CredentialName(c: Credential): string {
    if c.Username? then "username" else "password"
  }

  function CredentialText(c: Credential): string {
    if c.Username? then c.username else c.password
  }

  /** `creds` is what the `basic_auth` loop makes of `entries`: one
      credential per entry, under the key that names it, holding the text
      of its value. */
  predicate CredentialsReadFrom(ext: Externals, entries: seq<(Yaml, Yaml)>, creds: seq<Credential>) {
    |creds| == |entries|
    && forall k :: 0 <= k < |entries| ==>
         ParseKey(ext, entries[k].0) == Success(CredentialName(creds[k]))
         && ParseKey(ext, entries[k].1) == Success(CredentialText(creds[k]))
  }

  /** The username and password of a `basic_auth` mapping are the text of
      its last `username` and its last `password` entry. */
  lemma CredentialsFrom(ext: Externals, checkerId: string, entries: seq<(Yaml, Yaml)>)
    requires ParseBasicAuth(ext, checkerId, Hash(entries)).Success?
    ensures var auth := ParseBasicAuth(ext, checkerId, Hash(entries)).value;
            exists i :: LastKeyAt(ext, entries, "username", i) && ParseKey(ext, entries[i].1) == Success(auth.username)
    ensures var auth := ParseBasicAuth(ext, checkerId, Hash(entries)).value;
            exists i :: LastKeyAt(ext, entries, "password", i) && ParseKey(ext, entries[i].1) == Success(auth.password)
  {
    var auth := ParseBasicAuth(ext, checkerId, Hash(entries)).value;
    var creds := CredentialsOf(ext, checkerId, entries);
    CredentialFrom(ext, entries, creds, "username", UsernameOf, auth.username);
    CredentialFrom(ext, entries, creds, "password", PasswordOf, auth.password);
  }

  /** The credentials an accepted `basic_auth` mapping was built from. */
  lemma CredentialsOf(ext: Externals, checkerId: string, entries: seq<(Yaml, Yaml)>) returns (creds: seq<Credential>)
    requires ParseBasicAuth(ext, checkerId, Hash(entries)).Success?
    ensures CredentialsReadFrom(ext, entries, creds)
    ensures var auth := ParseBasicAuth(ext, checkerId, Hash(entries)).value;
            Last(creds, UsernameOf) == Some(auth.username) && Last(creds, PasswordOf) == Some(auth.password)
  {
    creds := ParseCredentials(ext, checkerId, entries).value;
    CredentialNames(ext, checkerId, entries, creds);
  }

  /** The last credential of a kind is the text of the last entry with its key. */
  lemma CredentialFrom(ext: Externals, entries: seq<(Yaml, Yaml)>, creds: seq<Credential>,
                       name: string, pick: Credential -> Option<string>, v: string)
    requires CredentialsReadFrom(ext, entries, creds)
    requires forall c :: pick(c).Some? <==> CredentialName(c) == name
    requires forall c :: pick(c).Some? ==> pick(c) == Some(CredentialText(c))
    requires Last(creds, pick) == Some(v)
    ensures exists i :: LastKeyAt(ext, entries, name, i) && ParseKey(ext, entries[i].1) == Success(v)
  {
    var i := LastEntry(ext, entries, creds, name, CredentialName, pick, v);
    assert ParseKey(ext, entries[i].1) == Success(CredentialText(creds[i]));
  }

  /** The credentials of a converted mapping are read as
      `CredentialsReadFrom` says. */
  lemma CredentialNames(ext: Externals, checkerId: string, entries: seq<(Yaml, Yaml)>, creds: seq<Credential>)
    requires ParseCredentials(ext, checkerId, entries) == Success(creds)
    ensures CredentialsReadFrom(ext, entries, creds)
  {
    forall k | 0 <= k < |entries|
      ensures ParseKey(ext, entries[k].0) == Success(CredentialName(creds[k]))
              && ParseKey(ext, entries[k].1) == Success(CredentialText(creds[k]))
    {
      assert ParseCredential(ext, checkerId, entries[k].0, entries[k].1) == Success(creds[k]);
    }
  }

  /** Any `basic_auth` key other than `username` and `password` is refused,
      unless an earlier entry already failed. */
  lemma BasicAuthUnknownKey(ext: Externals, checkerId: string, entries: seq<(Yaml, Yaml)>, i: nat, name: string)
    requires i < |entries|
    requires forall j :: 0 <= j < i ==> ParseCredential(ext, checkerId, entries[j].0, entries[j].1).Success?
    requires ParseKey(ext, entries[i].0) == Success(name)
    requires name != "username" && name != "password"
    ensures ParseBasicAuth(ext, checkerId, Hash(entries))
              == Failure(GeneralError("Unknown attribute checkers." + checkerId + ".basic_auth." + name))
  {
    TraverseFirstFailure(entries, (e: (Yaml, Yaml)) => ParseCredential(ext, checkerId, e.0, e.1), i);
  }
}
