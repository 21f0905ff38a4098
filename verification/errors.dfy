/** The two error enums of the configuration layer and the texts their
    `Display` implementations print. Both derive `PartialEq`, so errors are
    compared structurally: Dafny's datatype equality is the same relation. */
module Errors {

  /** Errors of parsing a configuration document. `UnkownRootElement` keeps
      the source's spelling. A YAML scanner error is kept as its message. */
  datatype ConfigError =
    | InvalidYaml(err: string)
    | UnkownRootElement(name: string)
    | GeneralError(message: string)
    | UnknownCheckerAttribute(checkerId: string, attrName: string)
    | InvalidCheckerInterval(checkerId: string, interval: string)
    | InvalidCheckerUrl(checkerId: string, url: string)
    | InvalidNotifierType(notifierId: string, typeValue: string)
    | UnknownNotifierAttribute(notifierId: string, notifierType: string, attrName: string)
    | FieldMissing(path: string)

  /** Errors of cross-validating a parsed configuration. */
  datatype ConfigValidationError =
    | InvalidYaml(err: string)
    | UnknownNotifier(checkerId: string, notifierId: string)

  /** The `#[fail(display = ...)]` text of a `ConfigError`. */
  function Display(e: ConfigError): string {
    match e
    case InvalidYaml(err) => "Invalid YAML file: " + err
    case UnkownRootElement(name) => "Unknown root element `" + name + "`"
    case GeneralError(message) => message
    case UnknownCheckerAttribute(checkerId, attrName) =>
      "Unknown checker attribute `" + attrName + "` in checkers." + checkerId
    case InvalidCheckerInterval(checkerId, interval) =>
      "Failed to parse interval `" + interval + "` in checkers." + checkerId + ".interval"
    case InvalidCheckerUrl(checkerId, url) =>
      "Failed to parse URL `" + url + "` in checkers." + checkerId + ".url"
    case InvalidNotifierType(notifierId, typeValue) =>
      "Invalid notifier type `" + typeValue + "` in `notifiers." + notifierId + ".type`"
    case UnknownNotifierAttribute(notifierId, notifierType, attrName) =>
      "Unknown " + notifierType + " notifier attribute `" + attrName + "` in checkers." + notifierId
    case FieldMissing(path) => "Field `" + path + "` is missing"
  }

  /** The `#[fail(display = ...)]` text of a `ConfigValidationError`. */
  function DisplayValidation(e: ConfigValidationError): string {
    match e
    case InvalidYaml(err) => "Invalid YAML file: " + err
    case UnknownNotifier(checkerId, notifierId) =>
      "`checkers." + checkerId + ".notifiers` refers to an undeclared notifier `" + notifierId + "`"
  }

  /** `prefix + x + suffix` determines `x`. */
  lemma FramedInjective(prefix: string, x: string, y: string, suffix: string)
    requires prefix + x + suffix == prefix + y + suffix
    ensures x == y
  {
    var s := prefix + x + suffix;
    assert |x| == |y|;
    assert x == s[|prefix|..|prefix| + |x|];
    assert y == (prefix + y + suffix)[|prefix|..|prefix| + |y|];
  }

  /** A `FieldMissing` message names its path: distinct paths print
      distinct messages, and the path sits between the fixed texts. */
  lemma FieldMissingDisplay(path: string, other: string)
    ensures var m := Display(FieldMissing(path));
            m[..7] == "Field `" && m[7..|m| - 12] == path && m[|m| - 12..] == "` is missing"
    ensures Display(FieldMissing(path)) == Display(FieldMissing(other)) ==> path == other
  {
    var m := Display(FieldMissing(path));
    assert m == "Field `" + path + "` is missing";
    if Display(FieldMissing(other)) == m {
      FramedInjective("Field `", path, other, "` is missing");
    }
  }

  /** An `UnkownRootElement` message names the offending key. */
  lemma UnknownRootElementDisplay(name: string, other: string)
    ensures var m := Display(UnkownRootElement(name));
            m[..22] == "Unknown root element `" && m[22..|m| - 1] == name && m[|m| - 1] == '`'
    ensures Display(UnkownRootElement(name)) == Display(UnkownRootElement(other)) ==> name == other
  {
    var m := Display(UnkownRootElement(name));
    assert m == "Unknown root element `" + name + "`";
    if Display(UnkownRootElement(other)) == m {
      FramedInjective("Unknown root element `", name, other, "`");
    }
  }

  /** A `GeneralError` prints its message and nothing else. */
  lemma GeneralErrorDisplay(message: string)
    ensures Display(GeneralError(message)) == message
  {
  }

  /** An `UnknownNotifierAttribute` message names the type label, the
      attribute and the notifier id, in that order. */
  lemma UnknownNotifierAttributeDisplay(notifierId: string, notifierType: string, attrName: string)
    ensures var m := Display(UnknownNotifierAttribute(notifierId, notifierType, attrName));
            var k := 8 + |notifierType|;
            var l := k + 21 + |attrName|;
            |m| == l + 14 + |notifierId|
            && m[..8] == "Unknown " && m[8..k] == notifierType
            && m[k..k + 21] == " notifier attribute `" && m[k + 21..l] == attrName
            && m[l..l + 14] == "` in checkers." && m[l + 14..] == notifierId
  {
    var head := "Unknown " + notifierType;
    var middle := " notifier attribute `" + attrName;
    var tail := "` in checkers." + notifierId;
    var m := Display(UnknownNotifierAttribute(notifierId, notifierType, attrName));
    assert m == head + middle + tail;
    Split(head, "Unknown ", notifierType);
    Split(middle, " notifier attribute `", attrName);
    Split(tail, "` in checkers.", notifierId);
    Split3(m, head, middle, tail);
  }

  /** The two parts of a concatenation are its slices. */
  lemma Split(s: string, a: string, b: string)
    requires s == a + b
    ensures s[..|a|] == a && s[|a|..] == b
  {
  }

  /** The three parts of a concatenation are its slices. */
  lemma Split3(s: string, a: string, b: string, c: string)
    requires s == a + b + c
    ensures s[..|a|] == a && s[|a|..|a| + |b|] == b && s[|a| + |b|..] == c
  {
    assert s[|a|..|a| + |b|] == b;
  }

  /** An `UnknownNotifier` message names the checker and the undeclared
      notifier; with the checker fixed, it determines the notifier. */
  lemma UnknownNotifierDisplay(checkerId: string, notifierId: string, other: string)
    ensures var m := DisplayValidation(UnknownNotifier(checkerId, notifierId));
            var k := 10 + |checkerId|;
            |m| == k + 47 + |notifierId|
            && m[..10] == "`checkers." && m[10..k] == checkerId
            && m[k..k + 46] == ".notifiers` refers to an undeclared notifier `"
            && m[k + 46..|m| - 1] == notifierId && m[|m| - 1] == '`'
    ensures (DisplayValidation(UnknownNotifier(checkerId, notifierId))
               == DisplayValidation(UnknownNotifier(checkerId, other)))
            ==> notifierId == other
  {
    var prefix := "`checkers." + checkerId + ".notifiers` refers to an undeclared notifier `";
    var m := DisplayValidation(UnknownNotifier(checkerId, notifierId));
    assert m == prefix + notifierId + "`";
    assert DisplayValidation(UnknownNotifier(checkerId, other)) == prefix + other + "`";
    if DisplayValidation(UnknownNotifier(checkerId, other)) == m {
      FramedInjective(prefix, notifierId, other, "`");
    }
  }
}
