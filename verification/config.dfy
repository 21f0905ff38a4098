/** The validated configuration model shared by the watcher and the reactor.
    It is the union of the two revisions of the source: checkers carry the
    optional Basic-Auth credential pair and there are four notifier kinds.
    All values are immutable, so the lookups below hand out copies and can
    never change the configuration they read. */
module Config {
  import opened Wrappers

  /** A `std::time::Duration`, counted in nanoseconds. */
  type Duration = nat

  const NanosPerSecond: nat := 1_000_000_000

  /** `Duration::new(10, 0)`: the interval of a checker that names none. */
  const DefaultInterval: Duration := 10 * NanosPerSecond

  /** A parsed `hyper::Uri`, kept as the text its `Display` prints. */
  datatype Uri = Uri(text: string)

  datatype BasicAuth = BasicAuth(username: string, password: string)

  datatype CheckerConfig = CheckerConfig(
    id: string,
    url: Uri,
    interval: Duration,
    notifiers: seq<string>,
    basicAuth: Option<BasicAuth>)

  datatype TelegramNotifierConfig = TelegramNotifierConfig(token: string, chatId: string)

  datatype CommandNotifierConfig = CommandNotifierConfig(command: string, arguments: seq<string>)

  /** The token is the field the Hipchat backend reads as `auth_token`. */
  datatype HipchatNotifierConfig = HipchatNotifierConfig(baseUrl: Uri, token: string, roomId: string)

  datatype SlackNotifierConfig = SlackNotifierConfig(webhookUrl: Uri)

  datatype NotifierConfig =
    | Telegram(telegram: TelegramNotifierConfig)
    | Command(command: CommandNotifierConfig)
    | Hipchat(hipchat: HipchatNotifierConfig)
    | Slack(slack: SlackNotifierConfig)

  datatype Notifier = Notifier(id: string, config: NotifierConfig)

  datatype FileConfig = FileConfig(checkers: seq<CheckerConfig>, notifiers: seq<Notifier>)

  /** `iter().find(...)`: the first element, in list order, whose key is `id`. */
  function FindFirst<T>(xs: seq<T>, key: T -> string, id: string): (r: Option<T>)
    ensures r.None? <==> forall i :: 0 <= i < |xs| ==> key(xs[i]) != id
    ensures r.Some? ==>
              exists i :: 0 <= i < |xs| && xs[i] == r.value && key(r.value) == id
                          && forall j :: 0 <= j < i ==> key(xs[j]) != id
    decreases |xs|
  {
    if |xs| == 0 then None
    else if key(xs[0]) == id then Some(xs[0])
    else
      var r := FindFirst(xs[1..], key, id);
      assert r.Some? ==> exists i :: 1 <= i < |xs| && xs[i] == r.value && key(r.value) == id
                                     && forall j :: 0 <= j < i ==> key(xs[j]) != id by {
        if r.Some? {
          var i :| 0 <= i < |xs[1..]| && xs[1..][i] == r.value && key(r.value) == id
                   && forall j :: 0 <= j < i ==> key(xs[1..][j]) != id;
          assert xs[i + 1] == r.value;
          assert forall j :: 0 <= j < i + 1 ==> key(xs[j]) != id by {
            forall j | 0 <= j < i + 1 ensures key(xs[j]) != id {
              if j > 0 { assert xs[j] == xs[1..][j - 1]; }
            }
          }
        }
      }
      r
  }

  function CheckerId(c: CheckerConfig): string { c.id }

  function NotifierId(n: Notifier): string { n.id }

  /** `FileConfig::get_checker_by_id`. */
  function GetCheckerById(config: FileConfig, id: string): (r: Option<CheckerConfig>)
    ensures r.None? <==> forall i :: 0 <= i < |config.checkers| ==> config.checkers[i].id != id
    ensures r.Some? ==>
              exists i :: 0 <= i < |config.checkers| && config.checkers[i] == r.value && r.value.id == id
                          && forall j :: 0 <= j < i ==> config.checkers[j].id != id
  {
    FindFirst(config.checkers, CheckerId, id)
  }

  /** `FileConfig::get_notifier_by_id`. */
  function GetNotifierById(config: FileConfig, id: string): (r: Option<Notifier>)
    ensures r.None? <==> forall i :: 0 <= i < |config.notifiers| ==> config.notifiers[i].id != id
    ensures r.Some? ==>
              exists i :: 0 <= i < |config.notifiers| && config.notifiers[i] == r.value && r.value.id == id
                          && forall j :: 0 <= j < i ==> config.notifiers[j].id != id
  {
    FindFirst(config.notifiers, NotifierId, id)
  }

  /** The identifiers of all configured checkers. */
  function CheckerIds(config: FileConfig): (ids: set<string>)
    ensures forall id :: id in ids <==> exists i :: 0 <= i < |config.checkers| && config.checkers[i].id == id
  {
    set i | 0 <= i < |config.checkers| :: config.checkers[i].id
  }

  /** A checker id is configured exactly when the lookup finds it. */
  lemma CheckerIdsAreFound(config: FileConfig, id: string)
    ensures id in CheckerIds(config) <==> GetCheckerById(config, id).Some?
  {
  }
}
