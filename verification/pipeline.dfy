/** The watcher feeding the reactor, on a configuration that passed
    `validate_config`: the reactor's unwraps all hold, and its table follows
    the last probe of each checker. */
module Pipeline {
  import opened Wrappers
  import opened Config
  import opened Events
  import opened Transport
  import opened Walk
  import Validator
  import Watcher
  import Reactor
  import Notifiers
  import CommandParser
  import Common
  import Externals
  import YamlTree

  /** The messages of one configured checker can be fed to the reactor,
      which ends with that checker Up exactly when its last probe got status
      200, or Up if it was never probed. */
  lemma WatchThenReact(t: Transport, config: FileConfig, c: nat, outcomes: seq<SendOutcome>)
    requires Validator.AllDeclared(config)
    requires c < |config.checkers|
    ensures var msgs := Watcher.Watch(config.checkers[c], outcomes);
            (forall k :: 0 <= k < |msgs| ==> msgs[k].checkerId in CheckerIds(config))
            && var table := Reactor.React(t, config, msgs).0;
               var id := config.checkers[c].id;
               id in table
               && (|outcomes| == 0 ==> table[id] == Up)
               && (|outcomes| > 0 ==> (table[id] == Up <==> outcomes[|outcomes| - 1] == Responded(200)))
  {
    var checker := config.checkers[c];
    var msgs := Watcher.Watch(checker, outcomes);
    assert checker.id in CheckerIds(config);
    if |outcomes| > 0 {
      assert Reactor.ReportFor(checker.id)(msgs[|msgs| - 1]) == Some(msgs[|msgs| - 1].state);
    }
  }

  /** The command notifier runs exactly the array the document gave under
      `command`: its first element as the program, the rest as arguments. */
  lemma CommandRunsDocumentArray(ext: Externals.Externals, id: string, val: YamlTree.Yaml, n: Notification)
    requires CommandParser.ParseCommandLine(ext, id, val).Success?
    ensures var b := Notifiers.FromConfig(Command(CommandParser.ParseCommandLine(ext, id, val).value));
            var s := Notifiers.CommandSpawn(b.command, b.arguments, n);
            [s.program] + s.args == Common.ParseYamlToVec(ext, val).value
  {
  }
}
