/** The three documents of the unit tests of src/config/parser/mod.rs, as
    the loaded YAML trees, and what `ConfigParser.ParseConfig` makes of them.
    URL and duration parsing are library calls here, so the accepted
    document is accepted for every URL and duration parser that accepts
    `https://www.greyblake.com/` and `1s`. */
module ConfigExamples {
  import opened Wrappers
  import opened YamlTree
  import opened Errors
  import opened Config
  import opened Externals
  import opened Common
  import opened Walk
  import opened Decimal
  import CheckerParser
  import TelegramParser
  import opened CheckersParser
  import opened NotifiersParser
  import opened ConfigParser

  const SiteUrl: string := "https://www.greyblake.com/"

  /** The body of checker `greyblake`: `url` (when present), `interval: 1s`
      and `notifiers: [telebot]`. */
  function CheckerEntries(withUrl: bool): seq<(Yaml, Yaml)> {
    (if withUrl then [(Str("url"), Str(SiteUrl))] else [])
    + [(Str("interval"), Str("1s")), (Str("notifiers"), Array([Str("telebot")]))]
  }

  /** The body of notifier `telebot`: `type: telegram`, `token` (when
      present) and `chat_id: 8677112`. */
  function NotifierEntries(token: Option<string>): seq<(Yaml, Yaml)> {
    [(Str("type"), Str("telegram"))]
    + (if token.Some? then [(Str("token"), Str(token.value))] else [])
    + [(Str("chat_id"), Int(8677112))]
  }

  /** The `checkers` section, with or without the `url` line. */
  function CheckersSection(withUrl: bool): Yaml {
    Hash([(Str("greyblake"), Hash(CheckerEntries(withUrl)))])
  }

  /** The `notifiers` section, with or without the `token` line. */
  function NotifiersSection(token: Option<string>): Yaml {
    Hash([(Str("telebot"), Hash(NotifierEntries(token)))])
  }

  function Document(withUrl: bool, token: Option<string>): Yaml {
    Hash([(Str("checkers"), CheckersSection(withUrl)), (Str("notifiers"), NotifiersSection(token))])
  }

  /** Every attribute of the `greyblake` body converts, the last one being
      its notifier list. */
  lemma CheckerAttrs(ext: Externals, withUrl: bool)
    requires withUrl ==> ext.parseUri(SiteUrl).Some?
    requires ext.parseDuration("1s").Some?
    ensures CheckerParser.ParseAttrs(ext, "greyblake", CheckerEntries(withUrl)).Success?
    ensures var attrs := CheckerParser.ParseAttrs(ext, "greyblake", CheckerEntries(withUrl)).value;
            |attrs| > 1 && attrs[|attrs| - 1] == CheckerParser.NotifiersAttr(["telebot"])
            && attrs[|attrs| - 2] == CheckerParser.IntervalAttr(ext.parseDuration("1s").value)
            && (withUrl ==> attrs[0] == CheckerParser.UrlAttr(ext.parseUri(SiteUrl).value))
  {
    var es := CheckerEntries(withUrl);
    var n := |es|;
    assert es[n - 2] == (Str("interval"), Str("1s"));
    assert es[n - 1] == (Str("notifiers"), Array([Str("telebot")]));
    assert CheckerParser.ParseAttr(ext, "greyblake", es[n - 2].0, es[n - 2].1).Success?;
    var ids := ParseYamlToVec(ext, Array([Str("telebot")]));
    assert IsScalar(Array([Str("telebot")]).items[0]);
    assert ids.Success? && |ids.value| == 1 && ParseYamlToString(ext, Str("telebot")) == Success(ids.value[0]);
    assert ids.value[0] == "telebot";
    assert ids.value == ["telebot"];
    assert CheckerParser.ParseAttr(ext, "greyblake", es[n - 1].0, es[n - 1].1)
           == Success(CheckerParser.NotifiersAttr(["telebot"]));
    if withUrl {
      assert CheckerParser.ParseAttr(ext, "greyblake", es[0].0, es[0].1).Success?;
    }
  }

  /** `Last` over three elements, read from the back. */
  lemma LastOfThree<T, V>(x: T, y: T, z: T, pick: T -> Option<V>)
    ensures Last([x, y, z], pick) ==
              if pick(z).Some? then pick(z) else if pick(y).Some? then pick(y) else pick(x)
  {
    assert [x, y, z][..2] == [x, y];
    assert [x, y][..1] == [x];
    assert [x][..0] == [];
    assert Last([x], pick) == pick(x);
    assert Last([x, y], pick) == if pick(y).Some? then pick(y) else pick(x);
  }

  /** The `greyblake` checker of the accepted document: its URL and its
      one-second interval as the parsers read them, the `telebot` notifier
      and no credentials. */
  lemma CheckerAccepted(ext: Externals)
    requires ext.parseUri(SiteUrl).Some?
    requires ext.parseDuration("1s").Some?
    ensures var c := CheckerParser.Parse(ext, Str("greyblake"), Hash(CheckerEntries(true)));
            c.Success? && c.value == CheckerConfig("greyblake", ext.parseUri(SiteUrl).value,
                                                   ext.parseDuration("1s").value, ["telebot"], None)
  {
    var u := CheckerParser.UrlAttr(ext.parseUri(SiteUrl).value);
    var d := CheckerParser.IntervalAttr(ext.parseDuration("1s").value);
    var n := CheckerParser.NotifiersAttr(["telebot"]);
    CheckerAttrsWithUrl(ext);
    LastOfThree(u, d, n, CheckerParser.UrlOf);
    LastOfThree(u, d, n, CheckerParser.IntervalOf);
    LastOfThree(u, d, n, CheckerParser.NotifiersOf);
    LastOfThree(u, d, n, CheckerParser.BasicAuthOf);
    CheckerFromAttrs(ext, Str("greyblake"), "greyblake", CheckerEntries(true), [u, d, n]);
  }

  /** A checker body whose attributes all convert and include a URL. */
  lemma CheckerFromAttrs(ext: Externals, key: Yaml, id: string, entries: seq<(Yaml, Yaml)>, attrs: seq<CheckerParser.Attr>)
    requires ParseKey(ext, key) == Success(id)
    requires CheckerParser.ParseAttrs(ext, id, entries) == Success(attrs)
    requires Last(attrs, CheckerParser.UrlOf).Some?
    ensures CheckerParser.Parse(ext, key, Hash(entries))
              == Success(CheckerConfig(id, Last(attrs, CheckerParser.UrlOf).value,
                                       Last(attrs, CheckerParser.IntervalOf).GetOr(DefaultInterval),
                                       Last(attrs, CheckerParser.NotifiersOf).GetOr([]),
                                       Last(attrs, CheckerParser.BasicAuthOf)))
  {
  }

  /** The attributes of the accepted `greyblake` body, in document order. */
  lemma CheckerAttrsWithUrl(ext: Externals)
    requires ext.parseUri(SiteUrl).Some?
    requires ext.parseDuration("1s").Some?
    ensures CheckerParser.ParseAttrs(ext, "greyblake", CheckerEntries(true))
              == Success([CheckerParser.UrlAttr(ext.parseUri(SiteUrl).value),
                          CheckerParser.IntervalAttr(ext.parseDuration("1s").value),
                          CheckerParser.NotifiersAttr(["telebot"])])
  {
    CheckerAttrs(ext, true);
    var attrs := CheckerParser.ParseAttrs(ext, "greyblake", CheckerEntries(true)).value;
    assert |attrs| == 3;
    assert attrs == [attrs[0], attrs[1], attrs[2]];
  }

  /** The `telebot` notifier of the accepted document: a Telegram notifier
      with the token, and the chat id rendered from the integer 8677112. */
  lemma NotifierAccepted(ext: Externals)
    ensures var n := ParseNotifier(ext, Str("telebot"), Hash(NotifierEntries(Some("TOKENGOESHERE"))));
            n.Success? && n.value.id == "telebot"
            && n.value.config == Telegram(TelegramNotifierConfig("TOKENGOESHERE", "8677112"))
  {
    var es := NotifierEntries(Some("TOKENGOESHERE"));
    TelegramAccepted(ext, es);
    assert HashGet(es, Str("type")) == Some(Str("telegram"));
    assert ParseNotifierConfig(ext, "telebot", Hash(es)).Success?;
  }

  /** The telegram parser reads the body of the accepted `telebot`. */
  lemma TelegramAccepted(ext: Externals, es: seq<(Yaml, Yaml)>)
    requires es == NotifierEntries(Some("TOKENGOESHERE"))
    ensures TelegramParser.Parse(ext, "telebot", Hash(es)) == Success(TelegramNotifierConfig("TOKENGOESHERE", "8677112"))
  {
    var t := TelegramParser.Token("TOKENGOESHERE");
    var c := TelegramParser.ChatId("8677112");
    TelegramAttrs(ext, es);
    LastOfThree(TelegramParser.Ignored, t, c, TelegramParser.TokenOf);
    LastOfThree(TelegramParser.Ignored, t, c, TelegramParser.ChatIdOf);
  }

  /** The attributes of the accepted `telebot` body, in document order. */
  lemma TelegramAttrs(ext: Externals, es: seq<(Yaml, Yaml)>)
    requires es == NotifierEntries(Some("TOKENGOESHERE"))
    ensures TelegramParser.ParseAttrs(ext, "telebot", es)
              == Success([TelegramParser.Ignored, TelegramParser.Token("TOKENGOESHERE"), TelegramParser.ChatId("8677112")])
  {
    assert es == [(Str("type"), Str("telegram")), (Str("token"), Str("TOKENGOESHERE")), (Str("chat_id"), Int(8677112))];
    ChatIdText();
    assert TelegramParser.ParseAttr(ext, "telebot", es[0].0, es[0].1) == Success(TelegramParser.Ignored);
    assert TelegramParser.ParseAttr(ext, "telebot", es[1].0, es[1].1) == Success(TelegramParser.Token("TOKENGOESHERE"));
    assert TelegramParser.ParseAttr(ext, "telebot", es[2].0, es[2].1) == Success(TelegramParser.ChatId("8677112"));
    var attrs := TelegramParser.ParseAttrs(ext, "telebot", es).value;
    assert attrs == [attrs[0], attrs[1], attrs[2]];
  }

  /** The chat id of the test documents, `8677112`, as `i64::to_string`
      renders it. */
  lemma ChatIdText()
    ensures IntToString(8677112) == "8677112"
  {
    assert NatToString(86) == "86";
    assert NatToString(8677) == NatToString(867) + "7";
    assert NatToString(867711) == NatToString(86771) + "1";
  }

  /** The `checkers` section of the accepted document. */
  lemma CheckersAccepted(ext: Externals)
    requires ext.parseUri(SiteUrl).Some?
    requires ext.parseDuration("1s").Some?
    ensures var checker := CheckerParser.Parse(ext, Str("greyblake"), Hash(CheckerEntries(true)));
            checker.Success? && ParseCheckers(ext, CheckersSection(true)) == Success([checker.value])
  {
    CheckerAccepted(ext);
    var section := CheckersSection(true);
    var checker := CheckerParser.Parse(ext, Str("greyblake"), Hash(CheckerEntries(true)));
    var r := ParseCheckers(ext, section);
    assert r.Success?;
    assert |r.value| == 1 && r.value[0] == checker.value;
    assert r.value == [checker.value];
  }

  /** The `notifiers` section of the accepted document. */
  lemma NotifiersAccepted(ext: Externals)
    ensures var notifier := ParseNotifier(ext, Str("telebot"), Hash(NotifierEntries(Some("TOKENGOESHERE"))));
            notifier.Success? && ParseNotifiers(ext, NotifiersSection(Some("TOKENGOESHERE"))) == Success([notifier.value])
  {
    NotifierAccepted(ext);
    var section := NotifiersSection(Some("TOKENGOESHERE"));
    var notifier := ParseNotifier(ext, Str("telebot"), Hash(NotifierEntries(Some("TOKENGOESHERE"))));
    var r := ParseNotifiers(ext, section);
    assert r.Success?;
    assert |r.value| == 1 && r.value[0].id == notifier.value.id && r.value[0].config == notifier.value.config;
    assert r.value == [notifier.value];
  }

  /** `test_valid_yaml`: one checker and one notifier. */
  lemma ValidDocument(ext: Externals)
    requires ext.parseUri(SiteUrl).Some?
    requires ext.parseDuration("1s").Some?
    ensures ParseConfig(ext, Success([Document(true, Some("TOKENGOESHERE"))])).Success?
    ensures var c := ParseConfig(ext, Success([Document(true, Some("TOKENGOESHERE"))])).value;
            |c.checkers| == 1 && |c.notifiers| == 1
            && c.checkers[0].id == "greyblake" && c.checkers[0].notifiers == ["telebot"]
            && c.notifiers[0].id == "telebot" && c.notifiers[0].config.Telegram?
  {
    CheckersAccepted(ext);
    NotifiersAccepted(ext);
    CheckerAccepted(ext);
    NotifierAccepted(ext);
    SingleDocument(ext, CheckersSection(true), NotifiersSection(Some("TOKENGOESHERE")));
  }

  /** Notifier `telebot` without a token. */
  lemma NotifierWithoutToken(ext: Externals)
    ensures ParseNotifier(ext, Str("telebot"), Hash(NotifierEntries(None)))
            == Failure(FieldMissing("notifiers.telebot.token"))
  {
    var es := NotifierEntries(None);
    var missing := FieldMissing("notifiers.telebot.token");
    TelegramWithoutToken(ext, es);
    assert HashGet(es, Str("type")) == Some(Str("telegram"));
    assert ParseByType(ext, "telebot", Hash(es), "telegram") == Failure(missing);
    assert ParseNotifierConfig(ext, "telebot", Hash(es)) == Failure(missing);
  }

  /** The telegram parser refuses the `telebot` body that lacks a token. */
  lemma TelegramWithoutToken(ext: Externals, es: seq<(Yaml, Yaml)>)
    requires es == NotifierEntries(None)
    ensures TelegramParser.Parse(ext, "telebot", Hash(es)) == Failure(FieldMissing("notifiers.telebot.token"))
  {
    assert es == [(Str("type"), Str("telegram")), (Str("chat_id"), Int(8677112))];
    assert TelegramParser.ParseAttr(ext, "telebot", es[0].0, es[0].1).Success?;
    assert TelegramParser.ParseAttr(ext, "telebot", es[1].0, es[1].1).Success?;
    assert TelegramParser.ParseAttrs(ext, "telebot", es).Success?;
    assert !HasKey(ext, es, "token") by {
      forall i | 0 <= i < |es| ensures ParseKey(ext, es[i].0) != Success("token") {
        assert i == 0 || i == 1;
      }
    }
    TelegramParser.MissingField(ext, "telebot", es);
    assert "notifiers." + "telebot" + ".token" == "notifiers.telebot.token";
  }

  /** `test_token_is_missing_for_telegram_notifier`. */
  lemma TokenMissing(ext: Externals)
    requires ext.parseUri(SiteUrl).Some?
    requires ext.parseDuration("1s").Some?
    ensures ParseConfig(ext, Success([Document(true, None)])) == Failure(FieldMissing("notifiers.telebot.token"))
  {
    CheckersAccepted(ext);
    NotifierWithoutToken(ext);
    var section := NotifiersSection(None);
    assert section.entries == [(Str("telebot"), Hash(NotifierEntries(None)))];
    var r := ParseNotifiers(ext, section);
    assert !r.Success?;
    assert r == Failure(FieldMissing("notifiers.telebot.token"));
    SingleDocument(ext, CheckersSection(true), section);
  }

  /** `test_checker_has_no_url`. */
  lemma UrlMissing(ext: Externals)
    requires ext.parseDuration("1s").Some?
    ensures ParseConfig(ext, Success([Document(false, Some("TOKEN"))])) == Failure(FieldMissing("checkers.greyblake.url"))
  {
    CheckerAttrs(ext, false);
    var es := CheckerEntries(false);
    assert !HasKey(ext, es, "url");
    CheckerParser.MissingUrl(ext, Str("greyblake"), "greyblake", es);
    assert "checkers." + "greyblake" + ".url" == "checkers.greyblake.url";
    var section := CheckersSection(false);
    var r := ParseCheckers(ext, section);
    assert !r.Success?;
    assert r == Failure(FieldMissing("checkers.greyblake.url"));
    SingleDocument(ext, section, NotifiersSection(Some("TOKEN")));
  }
}
