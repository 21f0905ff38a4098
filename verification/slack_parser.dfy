/** Parsing the body of a `type: slack` notifier
    (src/config/parser/slack_notifier.rs): a valid `webhook_url` is required.
    An unknown key is reported with the label `telegram`, as
    slack_notifier.rs does. */
module SlackParser {
  import opened Wrappers
  import opened YamlTree
  import opened Errors
  import opened Config
  import opened Externals
  import opened Walk
  import opened Common

  datatype Attr = Ignored | WebhookUrl(url: Uri)

  /** The body of the attribute loop, for one entry. */
  function ParseAttr(ext: Externals, id: string, key: Yaml, val: Yaml): (r: Result<Attr, ConfigError>)
    ensures r.Success? && ParseKey(ext, key) == Success("webhook_url") ==> r.value.WebhookUrl?
    ensures r.Success? && r.value.WebhookUrl? ==>
              ParseKey(ext, key) == Success("webhook_url")
              && ParseYamlToString(ext, val).Success?
              && ext.parseUri(ParseYamlToString(ext, val).value) == Some(r.value.url)
  {
    var name :- ParseKey(ext, key);
    if name == "type" then Success(Ignored)
    else if name == "webhook_url" then
      var v :- ParseYamlToString(ext, val);
      match ext.parseUri(v)
      case Some(u) => Success(WebhookUrl(u))
      case None => Failure(GeneralError("`" + v + "` in `notifiers." + id + ".webhook_url` is not a valid URL"))
    else
      Failure(UnknownNotifierAttribute(id, "telegram", name))
  }

  function WebhookUrlOf(a: Attr): Option<Uri> {
    if a.WebhookUrl? then Some(a.url) else None
  }

  function ParseAttrs(ext: Externals, id: string, entries: seq<(Yaml, Yaml)>): Result<seq<Attr>, ConfigError> {
    Traverse(entries, (e: (Yaml, Yaml)) => ParseAttr(ext, id, e.0, e.1))
  }

  /** `slack_notifier::parse(id, body)`. */
  function Parse(ext: Externals, id: string, body: Yaml): (r: Result<SlackNotifierConfig, ConfigError>)
    ensures !body.Hash? ==> r == Failure(GeneralError("`notifiers." + id + "` must be a hash. Got " + ext.debug(body)))
    ensures r.Success? ==> body.Hash? && ParseAttrs(ext, id, body.entries).Success?
  {
    match body
    case Hash(entries) =>
      var attrs :- ParseAttrs(ext, id, entries);
      var url :- OkOr(Last(attrs, WebhookUrlOf), FieldMissing("notifiers." + id + ".webhook_url"));
      Success(SlackNotifierConfig(url))
    case _ => Failure(GeneralError("`notifiers." + id + "` must be a hash. Got " + ext.debug(body)))
  }

  /** Each attribute was read from the entry at the same position. */
  lemma AttrAt(ext: Externals, id: string, entries: seq<(Yaml, Yaml)>, attrs: seq<Attr>, k: nat)
    requires ParseAttrs(ext, id, entries) == Success(attrs)
    requires k < |attrs|
    ensures k < |entries| && ParseAttr(ext, id, entries[k].0, entries[k].1) == Success(attrs[k])
  {
  }

  /** A body whose attributes all convert is accepted exactly when it names
      a `webhook_url`, and the URL is the parse of the last `webhook_url`
      value; otherwise the missing field is reported with its path. */
  lemma WebhookRequired(ext: Externals, id: string, entries: seq<(Yaml, Yaml)>)
    requires ParseAttrs(ext, id, entries).Success?
    ensures !HasKey(ext, entries, "webhook_url") ==>
              Parse(ext, id, Hash(entries)) == Failure(FieldMissing("notifiers." + id + ".webhook_url"))
    ensures HasKey(ext, entries, "webhook_url") ==>
              Parse(ext, id, Hash(entries)).Success?
              && exists i :: LastKeyAt(ext, entries, "webhook_url", i)
                             && UrlText(ext, entries[i].1, Parse(ext, id, Hash(entries)).value.webhookUrl)
  {
    var attrs := ParseAttrs(ext, id, entries).value;
    if !HasKey(ext, entries, "webhook_url") {
      forall i | 0 <= i < |attrs| ensures WebhookUrlOf(attrs[i]).None? {
        AttrAt(ext, id, entries, attrs, i);
      }
    } else {
      var k :| 0 <= k < |entries| && ParseKey(ext, entries[k].0) == Success("webhook_url");
      AttrAt(ext, id, entries, attrs, k);
      assert WebhookUrlOf(attrs[k]).Some?;
      UrlFrom(ext, id, entries, attrs, Last(attrs, WebhookUrlOf).value);
    }
  }

  /** The URL kept is read from the last `webhook_url` entry. */
  lemma UrlFrom(ext: Externals, id: string, entries: seq<(Yaml, Yaml)>, attrs: seq<Attr>, u: Uri)
    requires ParseAttrs(ext, id, entries) == Success(attrs)
    requires Last(attrs, WebhookUrlOf) == Some(u)
    ensures exists i :: LastKeyAt(ext, entries, "webhook_url", i) && UrlText(ext, entries[i].1, u)
  {
    var i :| 0 <= i < |attrs| && WebhookUrlOf(attrs[i]) == Some(u)
             && forall j :: i < j < |attrs| ==> WebhookUrlOf(attrs[j]).None?;
    AttrAt(ext, id, entries, attrs, i);
    forall j | i < j < |entries| ensures ParseKey(ext, entries[j].0) != Success("webhook_url") {
      AttrAt(ext, id, entries, attrs, j);
    }
    assert LastKeyAt(ext, entries, "webhook_url", i);
  }

  /** The first entry that fails decides the error: an unparsable URL is a
      `GeneralError` naming the value and the notifier, and an unknown key
      is refused with the `telegram` label. */
  lemma FirstBadAttribute(ext: Externals, id: string, entries: seq<(Yaml, Yaml)>, i: nat)
    requires i < |entries|
    requires forall j :: 0 <= j < i ==> ParseAttr(ext, id, entries[j].0, entries[j].1).Success?
    requires ParseAttr(ext, id, entries[i].0, entries[i].1).Failure?
    ensures Parse(ext, id, Hash(entries)) == Failure(ParseAttr(ext, id, entries[i].0, entries[i].1).error)
    ensures ParseKey(ext, entries[i].0) == Success("webhook_url") && ParseYamlToString(ext, entries[i].1).Success? ==>
              var v := ParseYamlToString(ext, entries[i].1).value;
              Parse(ext, id, Hash(entries))
                == Failure(GeneralError("`" + v + "` in `notifiers." + id + ".webhook_url` is not a valid URL"))
    ensures ParseKey(ext, entries[i].0).Success?
            && ParseKey(ext, entries[i].0).value !in ["type", "webhook_url"] ==>
              Parse(ext, id, Hash(entries))
                == Failure(UnknownNotifierAttribute(id, "telegram", ParseKey(ext, entries[i].0).value))
  {
    TraverseFirstFailure(entries, (e: (Yaml, Yaml)) => ParseAttr(ext, id, e.0, e.1), i);
  }

  /** The `type` key is skipped whatever its value. */
  lemma TypeIgnored(ext: Externals, id: string, key: Yaml, val: Yaml)
    requires ParseKey(ext, key) == Success("type")
    ensures ParseAttr(ext, id, key, val) == Success(Ignored)
  {
  }
}
