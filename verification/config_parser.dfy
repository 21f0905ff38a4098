/** The configuration document as a whole (src/config/parser/mod.rs). The
    YAML text is loaded outside this model: `ParseConfig` receives either the
    loader's error message or the loaded documents. Every document must be a
    mapping whose keys are `checkers` or `notifiers`; a section that occurs
    again, in the same or a later document, replaces the earlier one. */
module ConfigParser {
  import opened Wrappers
  import opened YamlTree
  import opened Errors
  import opened Config
  import opened Externals
  import opened Walk
  import opened Common
  import opened CheckersParser
  import opened NotifiersParser

  /** The body of the loop over the root entries, for one entry. */
  function RootEntry(ext: Externals, cfg: FileConfig, key: Yaml, val: Yaml): (r: Result<FileConfig, ConfigError>)
    ensures r.Success? <==> EntryAccepted(ext, (key, val))
    ensures ParseKey(ext, key) == Success("checkers") && r.Success? ==>
              ParseCheckers(ext, val) == Success(r.value.checkers) && r.value.notifiers == cfg.notifiers
    ensures ParseKey(ext, key) == Success("notifiers") && r.Success? ==>
              ParseNotifiers(ext, val) == Success(r.value.notifiers) && r.value.checkers == cfg.checkers
    ensures ParseKey(ext, key).Success? && ParseKey(ext, key).value != "checkers"
            && ParseKey(ext, key).value != "notifiers" ==>
              r == Failure(UnkownRootElement(ParseKey(ext, key).value))
  {
    var name :- ParseKey(ext, key);
    if name == "checkers" then
      var checkers :- ParseCheckers(ext, val);
      Success(cfg.(checkers := checkers))
    else if name == "notifiers" then
      var notifiers :- ParseNotifiers(ext, val);
      Success(cfg.(notifiers := notifiers))
    else
      Failure(UnkownRootElement(name))
  }

  /** The loop over the entries of one root mapping, continuing from the
      sections gathered so far. */
  function ParseRoot(ext: Externals, cfg: FileConfig, entries: seq<(Yaml, Yaml)>): Result<FileConfig, ConfigError>
    decreases |entries|
  {
    if |entries| == 0 then Success(cfg)
    else
      var next :- RootEntry(ext, cfg, entries[0].0, entries[0].1);
      ParseRoot(ext, next, entries[1..])
  }

  /** The loop over the loaded documents. */
  function ParseDocs(ext: Externals, cfg: FileConfig, docs: seq<Yaml>): Result<FileConfig, ConfigError>
    decreases |docs|
  {
    if |docs| == 0 then Success(cfg)
    else
      match docs[0]
      case Hash(root) =>
        var next :- ParseRoot(ext, cfg, root);
        ParseDocs(ext, next, docs[1..])
      case _ => Failure(GeneralError("Root element of YAML must be Hash"))
  }

  /** `parse_config(yaml)`, given what `YamlLoader::load_from_str` returned:
      both sections start out empty. */
  function ParseConfig(ext: Externals, loaded: Result<seq<Yaml>, string>): (r: Result<FileConfig, ConfigError>)
    ensures loaded.Failure? ==> r == Failure(ConfigError.InvalidYaml(loaded.error))
    ensures loaded == Success([]) ==> r == Success(FileConfig([], []))
    ensures loaded.Success? && |loaded.value| > 0 && !loaded.value[0].Hash? ==>
              r == Failure(GeneralError("Root element of YAML must be Hash"))
  {
    match loaded
    case Failure(err) => Failure(ConfigError.InvalidYaml(err))
    case Success(docs) => ParseDocs(ext, FileConfig([], []), docs)
  }

  // ---------------------------------------------------------------------
  // A reference reading of the whole document: the root entries of all
  // documents in order, each of which must be a section that parses, and
  // the value of each section taken from its last occurrence.

  /** A root entry that names a section whose value parses. */
  predicate EntryAccepted(ext: Externals, e: (Yaml, Yaml)) {
    (ParseKey(ext, e.0) == Success("checkers") && ParseCheckers(ext, e.1).Success?)
    || (ParseKey(ext, e.0) == Success("notifiers") && ParseNotifiers(ext, e.1).Success?)
  }

  /** The root entries of all the documents, in order. */
  function RootEntries(docs: seq<Yaml>): seq<(Yaml, Yaml)>
    decreases |docs|
  {
    if |docs| == 0 then []
    else (if docs[0].Hash? then docs[0].entries else []) + RootEntries(docs[1..])
  }

  /** Picks the value of a root entry named `name`. */
  function SectionPick(ext: Externals, name: string): ((Yaml, Yaml)) -> Option<Yaml> {
    (e: (Yaml, Yaml)) => if ParseKey(ext, e.0) == Success(name) then Some(e.1) else None
  }

  /** The value of the last root entry named `name`, if any. */
  function SectionValue(ext: Externals, entries: seq<(Yaml, Yaml)>, name: string): Option<Yaml> {
    Last(entries, SectionPick(ext, name))
  }

  /** One root mapping is accepted exactly when every entry is. */
  lemma {:induction false} RootAccepted(ext: Externals, cfg: FileConfig, entries: seq<(Yaml, Yaml)>)
    ensures ParseRoot(ext, cfg, entries).Success? <==>
              forall i :: 0 <= i < |entries| ==> EntryAccepted(ext, entries[i])
    decreases |entries|
  {
    if |entries| > 0 {
      var rest := entries[1..];
      assert forall i :: 1 <= i < |entries| ==> entries[i] == rest[i - 1];
      var first := RootEntry(ext, cfg, entries[0].0, entries[0].1);
      if first.Success? {
        RootAccepted(ext, first.value, rest);
      }
    }
  }

  /** After an accepted root mapping each section holds the parse of its
      last occurrence, or what it held before when it does not occur. */
  lemma {:induction false} RootSections(ext: Externals, cfg: FileConfig, entries: seq<(Yaml, Yaml)>)
    requires ParseRoot(ext, cfg, entries).Success?
    ensures var out := ParseRoot(ext, cfg, entries).value;
            (SectionValue(ext, entries, "checkers").None? ==> out.checkers == cfg.checkers)
            && (SectionValue(ext, entries, "checkers").Some? ==>
                  ParseCheckers(ext, SectionValue(ext, entries, "checkers").value) == Success(out.checkers))
    ensures var out := ParseRoot(ext, cfg, entries).value;
            (SectionValue(ext, entries, "notifiers").None? ==> out.notifiers == cfg.notifiers)
            && (SectionValue(ext, entries, "notifiers").Some? ==>
                  ParseNotifiers(ext, SectionValue(ext, entries, "notifiers").value) == Success(out.notifiers))
    decreases |entries|
  {
    if |entries| > 0 {
      var rest := entries[1..];
      var first := RootEntry(ext, cfg, entries[0].0, entries[0].1).value;
      assert ParseRoot(ext, cfg, entries) == ParseRoot(ext, first, rest);
      LastCons(entries, SectionPick(ext, "checkers"));
      LastCons(entries, SectionPick(ext, "notifiers"));
      RootSections(ext, first, rest);
    }
  }

  /** Reading the documents one after the other is reading all their root
      entries as one mapping, when every document is a mapping. */
  lemma {:induction false} DocsAsOneRoot(ext: Externals, cfg: FileConfig, docs: seq<Yaml>)
    requires forall i :: 0 <= i < |docs| ==> docs[i].Hash?
    ensures ParseDocs(ext, cfg, docs) == ParseRoot(ext, cfg, RootEntries(docs))
    decreases |docs|
  {
    if |docs| > 0 {
      var rest := docs[1..];
      assert forall i :: 0 <= i < |rest| ==> rest[i] == docs[i + 1];
      assert RootEntries(docs) == docs[0].entries + RootEntries(rest);
      RootAppend(ext, cfg, docs[0].entries, RootEntries(rest));
      var first := ParseRoot(ext, cfg, docs[0].entries);
      if first.Success? {
        DocsAsOneRoot(ext, first.value, rest);
      }
    }
  }

  /** The root loop over two runs of entries is the loop over the first run
      continued over the second. */
  lemma {:induction false} RootAppend(ext: Externals, cfg: FileConfig, a: seq<(Yaml, Yaml)>, b: seq<(Yaml, Yaml)>)
    ensures ParseRoot(ext, cfg, a).Failure? ==> ParseRoot(ext, cfg, a + b) == ParseRoot(ext, cfg, a)
    ensures ParseRoot(ext, cfg, a).Success? ==>
              ParseRoot(ext, cfg, a + b) == ParseRoot(ext, ParseRoot(ext, cfg, a).value, b)
    decreases |a|
  {
    if |a| == 0 {
      assert a + b == b;
    } else {
      var ab := a + b;
      assert ab[0] == a[0];
      assert ab[1..] == a[1..] + b;
      var first := RootEntry(ext, cfg, a[0].0, a[0].1);
      if first.Success? {
        assert ParseRoot(ext, cfg, ab) == ParseRoot(ext, first.value, a[1..] + b);
        assert ParseRoot(ext, cfg, a) == ParseRoot(ext, first.value, a[1..]);
        RootAppend(ext, first.value, a[1..], b);
      }
    }
  }

  /** A document that is not a mapping makes the whole parse fail. */
  lemma {:induction false} DocsAreMappings(ext: Externals, cfg: FileConfig, docs: seq<Yaml>)
    requires ParseDocs(ext, cfg, docs).Success?
    ensures forall i :: 0 <= i < |docs| ==> docs[i].Hash?
    decreases |docs|
  {
    if |docs| > 0 {
      var next := ParseRoot(ext, cfg, docs[0].entries).value;
      DocsAreMappings(ext, next, docs[1..]);
      assert forall i :: 1 <= i < |docs| ==> docs[i] == docs[1..][i - 1];
    }
  }

  /** What a configuration document means: it is accepted exactly when every
      document is a mapping and every root entry names a section whose value
      parses; the sections then hold the parse of their last occurrence, and
      a section that never occurs is empty. */
  lemma ConfigMeaning(ext: Externals, docs: seq<Yaml>)
    ensures ParseConfig(ext, Success(docs)).Success? <==>
              (forall i :: 0 <= i < |docs| ==> docs[i].Hash?)
              && forall i :: 0 <= i < |RootEntries(docs)| ==> EntryAccepted(ext, RootEntries(docs)[i])
    ensures ParseConfig(ext, Success(docs)).Success? ==>
              var out := ParseConfig(ext, Success(docs)).value;
              var entries := RootEntries(docs);
              (SectionValue(ext, entries, "checkers").None? ==> out.checkers == [])
              && (SectionValue(ext, entries, "checkers").Some? ==>
                    ParseCheckers(ext, SectionValue(ext, entries, "checkers").value) == Success(out.checkers))
              && (SectionValue(ext, entries, "notifiers").None? ==> out.notifiers == [])
              && (SectionValue(ext, entries, "notifiers").Some? ==>
                    ParseNotifiers(ext, SectionValue(ext, entries, "notifiers").value) == Success(out.notifiers))
  {
    var empty := FileConfig([], []);
    if forall i :: 0 <= i < |docs| ==> docs[i].Hash? {
      DocsAsOneRoot(ext, empty, docs);
      RootAccepted(ext, empty, RootEntries(docs));
      if ParseDocs(ext, empty, docs).Success? {
        RootSections(ext, empty, RootEntries(docs));
      }
    } else if ParseDocs(ext, empty, docs).Success? {
      DocsAreMappings(ext, empty, docs);
    }
  }

  /** A root key other than the two sections is refused by name, unless an
      earlier entry already failed. */
  lemma UnknownRootKey(ext: Externals, cfg: FileConfig, entries: seq<(Yaml, Yaml)>, i: nat, name: string)
    requires i < |entries|
    requires forall j :: 0 <= j < i ==> EntryAccepted(ext, entries[j])
    requires ParseKey(ext, entries[i].0) == Success(name)
    requires name != "checkers" && name != "notifiers"
    ensures ParseRoot(ext, cfg, entries) == Failure(UnkownRootElement(name))
    decreases i
  {
    if i > 0 {
      var next := AcceptedEntry(ext, cfg, entries);
      var rest := entries[1..];
      assert rest[i - 1] == entries[i];
      forall j | 0 <= j < i - 1 ensures EntryAccepted(ext, rest[j]) {
        assert rest[j] == entries[j + 1];
      }
      UnknownRootKey(ext, next, rest, i - 1, name);
    } else {
      assert RootEntry(ext, cfg, entries[0].0, entries[0].1) == Failure(UnkownRootElement(name));
    }
  }

  /** An accepted first entry hands the rest of the loop its result. */
  lemma AcceptedEntry(ext: Externals, cfg: FileConfig, entries: seq<(Yaml, Yaml)>) returns (next: FileConfig)
    requires |entries| > 0 && EntryAccepted(ext, entries[0])
    ensures RootEntry(ext, cfg, entries[0].0, entries[0].1) == Success(next)
    ensures ParseRoot(ext, cfg, entries) == ParseRoot(ext, next, entries[1..])
  {
    next := RootEntry(ext, cfg, entries[0].0, entries[0].1).value;
  }

  /** A single document holding a `checkers` and then a `notifiers`
      section: the checkers are parsed first, and their error wins. */
  lemma SingleDocument(ext: Externals, checkers: Yaml, notifiers: Yaml)
    ensures var r := ParseConfig(ext, Success([Hash([(Str("checkers"), checkers), (Str("notifiers"), notifiers)])]));
            (ParseCheckers(ext, checkers).Failure? ==> r == Failure(ParseCheckers(ext, checkers).error))
            && (ParseCheckers(ext, checkers).Success? && ParseNotifiers(ext, notifiers).Failure? ==>
                  r == Failure(ParseNotifiers(ext, notifiers).error))
            && (ParseCheckers(ext, checkers).Success? && ParseNotifiers(ext, notifiers).Success? ==>
                  r == Success(FileConfig(ParseCheckers(ext, checkers).value, ParseNotifiers(ext, notifiers).value)))
  {
    var entries := [(Str("checkers"), checkers), (Str("notifiers"), notifiers)];
    var empty := FileConfig([], []);
    assert ParseConfig(ext, Success([Hash(entries)])) == ParseRoot(ext, empty, entries) by {
      var r := ParseRoot(ext, empty, entries);
      assert ParseDocs(ext, empty, [Hash(entries)])
             == if r.Failure? then Failure(r.error) else ParseDocs(ext, r.value, []);
    }
    var first := RootEntry(ext, empty, entries[0].0, entries[0].1);
    if first.Success? {
      var second := RootEntry(ext, first.value, entries[1].0, entries[1].1);
      assert ParseRoot(ext, empty, entries) == ParseRoot(ext, first.value, entries[1..]);
      assert entries[1..] == [(Str("notifiers"), notifiers)];
      assert ParseRoot(ext, first.value, entries[1..])
             == if second.Failure? then Failure(second.error) else ParseRoot(ext, second.value, []);
    }
  }
}
