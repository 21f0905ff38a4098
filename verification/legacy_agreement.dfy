/** The `Result`-based parser is a conservative replacement of the legacy
    one: every document the legacy parser reads without panicking is read by
    the `Result`-based parser to the very same configuration. (The converse
    fails: the newer parser also accepts integer keys, `basic_auth` and the
    command, hipchat and slack notifier types.) */
module LegacyAgreement {
  import opened Wrappers
  import opened YamlTree
  import opened Config
  import opened Externals
  import opened Walk
  import opened Common
  import CheckerParser
  import TelegramParser
  import CheckersParser
  import NotifiersParser
  import ConfigParser
  import Legacy = LegacyParser

  lemma CheckerAttrAgrees(ext: Externals, id: string, key: Yaml, val: Yaml)
    requires Legacy.CheckerAttr(ext, id, key, val).Success?
    ensures CheckerParser.ParseAttr(ext, id, key, val) == Success(Legacy.CheckerAttr(ext, id, key, val).value)
  {
    if key.s == "notifiers" {
      TraverseAgree(val.items, (y: Yaml) => Legacy.YamlToString(ext, y), (y: Yaml) => ParseYamlToString(ext, y));
    }
  }

  /** A checker the legacy parser reads is read the same by
      `CheckerParser.Parse`. */
  lemma CheckerAgrees(ext: Externals, key: Yaml, body: Yaml)
    requires Legacy.ParseChecker(ext, key, body).Success?
    ensures CheckerParser.Parse(ext, key, body) == Success(Legacy.ParseChecker(ext, key, body).value)
  {
    var id := key.s;
    var entries := body.entries;
    var f := (e: (Yaml, Yaml)) => Legacy.CheckerAttr(ext, id, e.0, e.1);
    var g := (e: (Yaml, Yaml)) => CheckerParser.ParseAttr(ext, id, e.0, e.1);
    forall i | 0 <= i < |entries| && f(entries[i]).Success?
      ensures g(entries[i]) == Success(f(entries[i]).value)
    {
      CheckerAttrAgrees(ext, id, entries[i].0, entries[i].1);
    }
    TraverseAgree(entries, f, g);
    var attrs := Legacy.CheckerAttrs(ext, id, entries).value;
    forall i | 0 <= i < |attrs| ensures CheckerParser.BasicAuthOf(attrs[i]).None? {
      assert f(entries[i]) == Success(attrs[i]);
    }
  }

  lemma TelegramAttrAgrees(ext: Externals, id: string, key: Yaml, val: Yaml)
    requires Legacy.TelegramAttr(ext, id, key, val).Success?
    ensures TelegramParser.ParseAttr(ext, id, key, val) == Success(Legacy.TelegramAttr(ext, id, key, val).value)
  {
  }

  /** A telegram notifier body the legacy parser reads is read the same by
      `TelegramParser.Parse`. */
  lemma TelegramAgrees(ext: Externals, id: string, body: Yaml)
    requires Legacy.ParseTelegram(ext, id, body).Success?
    ensures TelegramParser.Parse(ext, id, body) == Success(Legacy.ParseTelegram(ext, id, body).value)
  {
    var entries := body.entries;
    var f := (e: (Yaml, Yaml)) => Legacy.TelegramAttr(ext, id, e.0, e.1);
    var g := (e: (Yaml, Yaml)) => TelegramParser.ParseAttr(ext, id, e.0, e.1);
    forall i | 0 <= i < |entries| && f(entries[i]).Success?
      ensures g(entries[i]) == Success(f(entries[i]).value)
    {
      TelegramAttrAgrees(ext, id, entries[i].0, entries[i].1);
    }
    TraverseAgree(entries, f, g);
  }

  /** A notifier the legacy parser reads is read the same by
      `NotifiersParser.ParseNotifier`. */
  lemma NotifierAgrees(ext: Externals, key: Yaml, body: Yaml)
    requires Legacy.ParseNotifier(ext, key, body).Success?
    ensures NotifiersParser.ParseNotifier(ext, key, body) == Success(Legacy.ParseNotifier(ext, key, body).value)
  {
    var id := key.s;
    TelegramAgrees(ext, id, body);
    var typeYaml := HashGet(body.entries, Str("type")).value;
    assert ParseYamlToString(ext, typeYaml) == Success("telegram");
    assert NotifiersParser.ParseByType(ext, id, body, "telegram")
           == Success(Legacy.ParseNotifierConfig(ext, id, body).value);
  }

  /** The `checkers` section. */
  lemma CheckersAgree(ext: Externals, val: Yaml)
    requires Legacy.ParseCheckers(ext, val).Success?
    ensures CheckersParser.ParseCheckers(ext, val) == Success(Legacy.ParseCheckers(ext, val).value)
  {
    var entries := val.entries;
    var f := (e: (Yaml, Yaml)) => Legacy.ParseChecker(ext, e.0, e.1);
    var g := (e: (Yaml, Yaml)) => CheckerParser.Parse(ext, e.0, e.1);
    forall i | 0 <= i < |entries| && f(entries[i]).Success?
      ensures g(entries[i]) == Success(f(entries[i]).value)
    {
      CheckerAgrees(ext, entries[i].0, entries[i].1);
    }
    TraverseAgree(entries, f, g);
  }

  /** The `notifiers` section. */
  lemma NotifiersAgree(ext: Externals, val: Yaml)
    requires Legacy.ParseNotifiers(ext, val).Success?
    ensures NotifiersParser.ParseNotifiers(ext, val) == Success(Legacy.ParseNotifiers(ext, val).value)
  {
    var entries := val.entries;
    var f := (e: (Yaml, Yaml)) => Legacy.ParseNotifier(ext, e.0, e.1);
    var g := (e: (Yaml, Yaml)) => NotifiersParser.ParseNotifier(ext, e.0, e.1);
    forall i | 0 <= i < |entries| && f(entries[i]).Success?
      ensures g(entries[i]) == Success(f(entries[i]).value)
    {
      NotifierAgrees(ext, entries[i].0, entries[i].1);
    }
    TraverseAgree(entries, f, g);
  }

  lemma RootEntryAgrees(ext: Externals, cfg: FileConfig, key: Yaml, val: Yaml)
    requires Legacy.RootEntry(ext, cfg, key, val).Success?
    ensures ConfigParser.RootEntry(ext, cfg, key, val) == Success(Legacy.RootEntry(ext, cfg, key, val).value)
  {
    if key.s == "checkers" {
      CheckersAgree(ext, val);
    } else {
      NotifiersAgree(ext, val);
    }
  }

  lemma {:induction false} RootAgrees(ext: Externals, cfg: FileConfig, entries: seq<(Yaml, Yaml)>)
    requires Legacy.ParseRoot(ext, cfg, entries).Success?
    ensures ConfigParser.ParseRoot(ext, cfg, entries) == Success(Legacy.ParseRoot(ext, cfg, entries).value)
    decreases |entries|
  {
    if |entries| > 0 {
      RootEntryAgrees(ext, cfg, entries[0].0, entries[0].1);
      var next := Legacy.RootEntry(ext, cfg, entries[0].0, entries[0].1).value;
      RootAgrees(ext, next, entries[1..]);
    }
  }

  lemma {:induction false} DocsAgree(ext: Externals, cfg: FileConfig, docs: seq<Yaml>)
    requires Legacy.ParseDocs(ext, cfg, docs).Success?
    ensures ConfigParser.ParseDocs(ext, cfg, docs) == Success(Legacy.ParseDocs(ext, cfg, docs).value)
    decreases |docs|
  {
    if |docs| > 0 {
      RootAgrees(ext, cfg, docs[0].entries);
      var next := Legacy.ParseRoot(ext, cfg, docs[0].entries).value;
      DocsAgree(ext, next, docs[1..]);
    }
  }

  /** Whatever the legacy parser reads without panicking, the
      `Result`-based parser reads to the same configuration. */
  lemma ConfigAgrees(ext: Externals, loaded: Result<seq<Yaml>, string>)
    requires Legacy.ParseConfig(ext, loaded).Success?
    ensures ConfigParser.ParseConfig(ext, loaded) == Success(Legacy.ParseConfig(ext, loaded).value)
  {
    DocsAgree(ext, FileConfig([], []), loaded.value);
  }
}
