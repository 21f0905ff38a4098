/** The unit tests of src/config_parser.rs, on the same three documents as
    the tests of the `Result`-based parser: the first is read, the other two
    panic (with the messages below). */
module LegacyExamples {
  import opened Wrappers
  import opened YamlTree
  import opened Config
  import opened Externals
  import opened Walk
  import CheckerParser
  import TelegramParser
  import opened ConfigExamples
  import opened LegacyParser

  /** A single document holding a `checkers` and then a `notifiers`
      section. */
  lemma SingleDocument(ext: Externals, checkers: Yaml, notifiers: Yaml)
    ensures var r := LegacyParser.ParseConfig(ext, Success([Hash([(Str("checkers"), checkers), (Str("notifiers"), notifiers)])]));
            (LegacyParser.ParseCheckers(ext, checkers).Failure? ==> r == Failure(LegacyParser.ParseCheckers(ext, checkers).error))
            && (LegacyParser.ParseCheckers(ext, checkers).Success? && LegacyParser.ParseNotifiers(ext, notifiers).Failure? ==>
                  r == Failure(LegacyParser.ParseNotifiers(ext, notifiers).error))
            && (LegacyParser.ParseCheckers(ext, checkers).Success? && LegacyParser.ParseNotifiers(ext, notifiers).Success? ==>
                  r == Success(FileConfig(LegacyParser.ParseCheckers(ext, checkers).value,
                                          LegacyParser.ParseNotifiers(ext, notifiers).value)))
  {
    var entries := [(Str("checkers"), checkers), (Str("notifiers"), notifiers)];
    var empty := FileConfig([], []);
    assert LegacyParser.ParseConfig(ext, Success([Hash(entries)])) == LegacyParser.ParseRoot(ext, empty, entries) by {
      var r := LegacyParser.ParseRoot(ext, empty, entries);
      assert LegacyParser.ParseDocs(ext, empty, [Hash(entries)])
             == if r.Failure? then Failure(r.error) else LegacyParser.ParseDocs(ext, r.value, []);
    }
    var first := LegacyParser.RootEntry(ext, empty, entries[0].0, entries[0].1);
    if first.Success? {
      var second := LegacyParser.RootEntry(ext, first.value, entries[1].0, entries[1].1);
      assert LegacyParser.ParseRoot(ext, empty, entries) == LegacyParser.ParseRoot(ext, first.value, entries[1..]);
      assert entries[1..] == [(Str("notifiers"), notifiers)];
      assert LegacyParser.ParseRoot(ext, first.value, entries[1..])
             == if second.Failure? then Failure(second.error) else LegacyParser.ParseRoot(ext, second.value, []);
    }
  }

  /** Every attribute of the `greyblake` body converts. */
  lemma CheckerAttrsRead(ext: Externals, withUrl: bool)
    requires withUrl ==> ext.parseUri(SiteUrl).Some?
    requires ext.parseDuration("1s").Some?
    ensures LegacyParser.CheckerAttrs(ext, "greyblake", CheckerEntries(withUrl)).Success?
    ensures var attrs := LegacyParser.CheckerAttrs(ext, "greyblake", CheckerEntries(withUrl)).value;
            withUrl ==> |attrs| > 0 && attrs[0].UrlAttr?
  {
    var es := CheckerEntries(withUrl);
    var n := |es|;
    assert es[n - 2] == (Str("interval"), Str("1s"));
    assert es[n - 1] == (Str("notifiers"), Array([Str("telebot")]));
    assert LegacyParser.CheckerAttr(ext, "greyblake", es[n - 2].0, es[n - 2].1).Success?;
    var ids := LegacyParser.YamlToVec(ext, Array([Str("telebot")]));
    assert LegacyParser.YamlToString(ext, Array([Str("telebot")]).items[0]).Success?;
    assert ids.Success?;
    assert LegacyParser.CheckerAttr(ext, "greyblake", es[n - 1].0, es[n - 1].1).Success?;
    if withUrl {
      assert LegacyParser.CheckerAttr(ext, "greyblake", es[0].0, es[0].1).Success?;
    }
  }

  /** The `checkers` section of the accepted document. */
  lemma CheckersRead(ext: Externals)
    requires ext.parseUri(SiteUrl).Some?
    requires ext.parseDuration("1s").Some?
    ensures LegacyParser.ParseCheckers(ext, CheckersSection(true)).Success?
    ensures |LegacyParser.ParseCheckers(ext, CheckersSection(true)).value| == 1
  {
    CheckerRead(ext);
    var section := CheckersSection(true);
    assert section.entries == [(Str("greyblake"), Hash(CheckerEntries(true)))];
  }

  /** Checker `greyblake` of the accepted document. */
  lemma CheckerRead(ext: Externals)
    requires ext.parseUri(SiteUrl).Some?
    requires ext.parseDuration("1s").Some?
    ensures LegacyParser.ParseChecker(ext, Str("greyblake"), Hash(CheckerEntries(true))).Success?
  {
    CheckerAttrsRead(ext, true);
    var attrs := LegacyParser.CheckerAttrs(ext, "greyblake", CheckerEntries(true)).value;
    assert CheckerParser.UrlOf(attrs[0]).Some?;
  }

  /** Notifier `telebot` of the accepted document. */
  lemma NotifierRead(ext: Externals)
    ensures LegacyParser.ParseNotifier(ext, Str("telebot"), Hash(NotifierEntries(Some("TOKENGOESHERE")))).Success?
  {
    var es := NotifierEntries(Some("TOKENGOESHERE"));
    assert HashGet(es, Str("type")) == Some(Str("telegram"));
    assert LegacyParser.TelegramAttr(ext, "telebot", es[0].0, es[0].1).Success?;
    assert LegacyParser.TelegramAttr(ext, "telebot", es[1].0, es[1].1).Success?;
    assert LegacyParser.TelegramAttr(ext, "telebot", es[2].0, es[2].1).Success?;
    var attrs := LegacyParser.TelegramAttrs(ext, "telebot", es).value;
    assert TelegramParser.TokenOf(attrs[1]).Some?;
    assert TelegramParser.ChatIdOf(attrs[2]).Some?;
    assert LegacyParser.ParseTelegram(ext, "telebot", Hash(es)).Success?;
  }

  /** The `notifiers` section of the accepted document. */
  lemma NotifiersRead(ext: Externals)
    ensures LegacyParser.ParseNotifiers(ext, NotifiersSection(Some("TOKENGOESHERE"))).Success?
    ensures |LegacyParser.ParseNotifiers(ext, NotifiersSection(Some("TOKENGOESHERE"))).value| == 1
  {
    NotifierRead(ext);
    var section := NotifiersSection(Some("TOKENGOESHERE"));
    assert section.entries == [(Str("telebot"), Hash(NotifierEntries(Some("TOKENGOESHERE"))))];
  }

  /** `test_valid_yaml`: one checker and one notifier. */
  lemma ValidDocument(ext: Externals)
    requires ext.parseUri(SiteUrl).Some?
    requires ext.parseDuration("1s").Some?
    ensures LegacyParser.ParseConfig(ext, Success([Document(true, Some("TOKENGOESHERE"))])).Success?
    ensures var c := LegacyParser.ParseConfig(ext, Success([Document(true, Some("TOKENGOESHERE"))])).value;
            |c.checkers| == 1 && |c.notifiers| == 1
  {
    CheckersRead(ext);
    NotifiersRead(ext);
    SingleDocument(ext, CheckersSection(true), NotifiersSection(Some("TOKENGOESHERE")));
  }

  /** Notifier `telebot` without a token. */
  lemma NotifierWithoutToken(ext: Externals)
    ensures LegacyParser.ParseNotifier(ext, Str("telebot"), Hash(NotifierEntries(None)))
            == Failure(Panic("Missing notifiers.telebot.token"))
  {
    var es := NotifierEntries(None);
    assert es == [(Str("type"), Str("telegram")), (Str("chat_id"), Int(8677112))];
    assert HashGet(es, Str("type")) == Some(Str("telegram"));
    assert LegacyParser.TelegramAttr(ext, "telebot", es[0].0, es[0].1).Success?;
    assert LegacyParser.TelegramAttr(ext, "telebot", es[1].0, es[1].1).Success?;
    var attrs := LegacyParser.TelegramAttrs(ext, "telebot", es).value;
    assert Last(attrs, TelegramParser.TokenOf) == None by {
      assert !TelegramParser.TokenOf(attrs[0]).Some? && !TelegramParser.TokenOf(attrs[1]).Some?;
    }
    assert "Missing notifiers." + "telebot" + ".token" == "Missing notifiers.telebot.token";
    assert LegacyParser.ParseTelegram(ext, "telebot", Hash(es)) == Failure(Panic("Missing notifiers.telebot.token"));
  }

  /** `test_token_is_missing_for_telegram_notifier` panics. */
  lemma TokenMissing(ext: Externals)
    requires ext.parseUri(SiteUrl).Some?
    requires ext.parseDuration("1s").Some?
    ensures LegacyParser.ParseConfig(ext, Success([Document(true, None)]))
            == Failure(Panic("Missing notifiers.telebot.token"))
  {
    CheckersRead(ext);
    NotifierWithoutToken(ext);
    var section := NotifiersSection(None);
    assert section.entries == [(Str("telebot"), Hash(NotifierEntries(None)))];
    var r := LegacyParser.ParseNotifiers(ext, section);
    assert !r.Success?;
    assert r == Failure(Panic("Missing notifiers.telebot.token"));
    SingleDocument(ext, CheckersSection(true), section);
  }

  /** `test_checker_has_no_url` panics. */
  lemma UrlMissing(ext: Externals)
    requires ext.parseDuration("1s").Some?
    ensures LegacyParser.ParseConfig(ext, Success([Document(false, Some("TOKEN"))]))
            == Failure(Panic("checkers.greyblake.url is missing"))
  {
    CheckerWithoutUrl(ext);
    var panic := Panic("checkers.greyblake.url is missing");
    var section := CheckersSection(false);
    assert section.entries == [(Str("greyblake"), Hash(CheckerEntries(false)))];
    assert LegacyParser.ParseCheckers(ext, section) == Failure(panic);
    SingleDocument(ext, section, NotifiersSection(Some("TOKEN")));
  }

  /** Checker `greyblake` without a URL. */
  lemma CheckerWithoutUrl(ext: Externals)
    requires ext.parseDuration("1s").Some?
    ensures LegacyParser.ParseChecker(ext, Str("greyblake"), Hash(CheckerEntries(false)))
            == Failure(Panic("checkers.greyblake.url is missing"))
  {
    CheckerAttrsRead(ext, false);
    var es := CheckerEntries(false);
    var attrs := LegacyParser.CheckerAttrs(ext, "greyblake", es).value;
    assert es == [(Str("interval"), Str("1s")), (Str("notifiers"), Array([Str("telebot")]))];
    assert Last(attrs, CheckerParser.UrlOf) == None by {
      assert LegacyParser.CheckerAttr(ext, "greyblake", es[0].0, es[0].1) == Success(attrs[0]);
      assert LegacyParser.CheckerAttr(ext, "greyblake", es[1].0, es[1].1) == Success(attrs[1]);
      assert !CheckerParser.UrlOf(attrs[0]).Some? && !CheckerParser.UrlOf(attrs[1]).Some?;
    }
    assert "checkers." + "greyblake" + ".url is missing" == "checkers.greyblake.url is missing";
  }
}
