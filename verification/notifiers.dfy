/** The notifier backends (src/notifiers/telegram.rs, slack.rs, command.rs,
    hipchat.rs): each turns a `Notification` into one request or one child
    process and maps what came back to `Ok` or `Err`. The request itself is
    data; its outcome comes from the `Transport`. */
module Notifiers {
  import opened Wrappers
  import opened Config
  import opened Events
  import opened Transport

  /** A constructed backend: the fields each `from_config` copies out of its
      configuration. */
  datatype Backend =
    | TelegramBackend(token: string, chatId: string)
    | CommandBackend(command: string, arguments: seq<string>)
    | HipchatBackend(baseUrl: Uri, authToken: string, roomId: string)
    | SlackBackend(webhookUrl: Uri)

  /** The configuration a backend was built from. */
  function ConfigOf(b: Backend): NotifierConfig {
    match b
    case TelegramBackend(token, chatId) => Telegram(TelegramNotifierConfig(token, chatId))
    case CommandBackend(command, arguments) => Command(CommandNotifierConfig(command, arguments))
    case HipchatBackend(baseUrl, authToken, roomId) => Hipchat(HipchatNotifierConfig(baseUrl, authToken, roomId))
    case SlackBackend(webhookUrl) => Slack(SlackNotifierConfig(webhookUrl))
  }

  /** The `match` of `build_notifiers` followed by the variant's
      `from_config`: the backend kind follows the configuration variant and
      every field is copied unchanged. */
  function FromConfig(c: NotifierConfig): (b: Backend)
    ensures b.TelegramBackend? <==> c.Telegram?
    ensures b.CommandBackend? <==> c.Command?
    ensures b.HipchatBackend? <==> c.Hipchat?
    ensures b.SlackBackend? <==> c.Slack?
    ensures ConfigOf(b) == c
  {
    match c
    case Telegram(t) => TelegramBackend(t.token, t.chatId)
    case Command(cmd) => CommandBackend(cmd.command, cmd.arguments)
    case Hipchat(h) => HipchatBackend(h.baseUrl, h.token, h.roomId)
    case Slack(s) => SlackBackend(s.webhookUrl)
  }

  /** Building loses nothing: every backend is the one built from its own
      configuration. */
  lemma FromConfigOf(b: Backend)
    ensures FromConfig(ConfigOf(b)) == b
  {
  }

  // ---------------------------------------------------------------------
  // Text helpers.

  /** The text strictly between `head` and `tail`, when `text` starts with
      `head` and ends with `tail` and the two do not overlap. */
  function Between(text: string, head: string, tail: string): (r: Option<string>)
    ensures r.Some? ==> text == head + r.value + tail
  {
    if |head| + |tail| <= |text| && text[..|head|] == head && text[|text| - |tail|..] == tail then
      var mid := text[|head|..|text| - |tail|];
      assert text == text[..|head|] + mid + text[|text| - |tail|..];
      Some(mid)
    else None
  }

  lemma BetweenJoin(head: string, mid: string, tail: string)
    ensures Between(head + mid + tail, head, tail) == Some(mid)
  {
    var text := head + mid + tail;
    assert text[..|head|] == head;
    assert text[|text| - |tail|..] == tail;
    assert text[|head|..|text| - |tail|] == mid;
  }

  // ---------------------------------------------------------------------
  // Telegram.

  const Balloon: char := '\U{1F388}'
  const Fire: char := '\U{1F525}'

  /** What the Telegram message says between the checker id and its URL. */
  function TelegramStatus(s: State): string {
    match s
    case Up => " is up " + [Balloon]
    case Down => " is down " + [Fire]
  }

  /** Reads the state back from a Telegram message about checker `id` at
      `url`. */
  function TelegramStateOf(id: string, url: string, text: string): Option<State> {
    match Between(text, id, "\n" + url)
    case Some(status) =>
      if status == TelegramStatus(Up) then Some(Up)
      else if status == TelegramStatus(Down) then Some(Down)
      else None
    case None => None
  }

  /** The message text: the checker id, then the state with a balloon (up) or
      a fire (down) emoji, then a line with the URL. The state can be read
      back from it. */
  function TelegramText(n: Notification): (text: string)
    ensures Between(text, n.checkerId, "\n" + n.checkerUrl).Some?
    ensures TelegramStateOf(n.checkerId, n.checkerUrl, text) == Some(n.state)
  {
    var text := n.checkerId + TelegramStatus(n.state) + ("\n" + n.checkerUrl);
    BetweenJoin(n.checkerId, TelegramStatus(n.state), "\n" + n.checkerUrl);
    assert TelegramStatus(Up) != TelegramStatus(Down) by {
      assert |TelegramStatus(Up)| != |TelegramStatus(Down)|;
    }
    text
  }

  const TelegramApiPrefix: string := "https://api.telegram.org/bot"
  const TelegramApiSuffix: string := "/sendMessage"

  /** The `sendMessage` call of the bot whose token is `token`, with exactly
      the chat id and the message text in its body. */
  function TelegramRequest(token: string, chatId: string, n: Notification): (p: Post)
    ensures Between(p.url, TelegramApiPrefix, TelegramApiSuffix) == Some(token)
    ensures p.body.JObject? && p.body.fields.Keys == {"chat_id", "text"}
    ensures p.body.fields["chat_id"] == JString(chatId)
    ensures p.body.fields["text"] == JString(TelegramText(n))
  {
    BetweenJoin(TelegramApiPrefix, token, TelegramApiSuffix);
    Post(TelegramApiPrefix + token + TelegramApiSuffix,
         JObject(map["chat_id" := JString(chatId), "text" := JString(TelegramText(n))]))
  }

  // ---------------------------------------------------------------------
  // Slack.

  /** The attachment title: the checker id and the state. */
  function SlackTitle(n: Notification): string {
    match n.state
    case Up => n.checkerId + " is up :thumbsup:"
    case Down => n.checkerId + " is down :fire:"
  }

  /** Reads the state back from a Slack title about checker `id`. */
  function SlackStateOf(id: string, title: string): Option<State> {
    match Between(title, id, "")
    case Some(status) =>
      if status == " is up :thumbsup:" then Some(Up)
      else if status == " is down :fire:" then Some(Down)
      else None
    case None => None
  }

  lemma SlackTitleNamesState(n: Notification)
    ensures SlackStateOf(n.checkerId, SlackTitle(n)) == Some(n.state)
  {
    var status := if n.state == Up then " is up :thumbsup:" else " is down :fire:";
    assert SlackTitle(n) == n.checkerId + status + "";
    BetweenJoin(n.checkerId, status, "");
  }

  function SlackColor(s: State): string {
    match s
    case Up => "good"
    case Down => "danger"
  }

  /** `build_payload`: a single `attachments` key holding exactly one
      attachment, whose fallback is the title followed by the URL, whose link
      is the URL, and whose colour is `good` exactly when the service is up. */
  function SlackPayload(n: Notification): (p: Json)
    ensures p.JObject? && p.fields.Keys == {"attachments"}
    ensures p.fields["attachments"].JArray? && |p.fields["attachments"].items| == 1
    ensures var a := p.fields["attachments"].items[0];
            a.JObject? && a.fields.Keys == {"fallback", "color", "title", "title_link"}
            && a.fields["title"] == JString(SlackTitle(n))
            && a.fields["fallback"] == JString(SlackTitle(n) + "\n" + n.checkerUrl)
            && a.fields["title_link"] == JString(n.checkerUrl)
            && (a.fields["color"] == JString("good") <==> n.state == Up)
            && (a.fields["color"] == JString("danger") <==> n.state == Down)
  {
    var fallback := match n.state
      case Up => n.checkerId + " is up :thumbsup:\n" + n.checkerUrl
      case Down => n.checkerId + " is down :fire:\n" + n.checkerUrl;
    var attachment := map[
      "fallback" := JString(fallback),
      "color" := JString(SlackColor(n.state)),
      "title" := JString(SlackTitle(n)),
      "title_link" := JString(n.checkerUrl)];
    JObject(map["attachments" := JArray([JObject(attachment)])])
  }

  /** The post to the webhook: the configured URL as text, the payload above. */
  function SlackRequest(webhookUrl: Uri, n: Notification): (p: Post)
    ensures p.url == webhookUrl.text && p.body == SlackPayload(n)
  {
    Post(webhookUrl.text, SlackPayload(n))
  }

  // ---------------------------------------------------------------------
  // Command.

  /** The environment the command gets: the checker id, its URL and whether
      it is up, as `true` or `false`. */
  function CommandEnv(n: Notification): (env: map<string, string>)
    ensures env.Keys == {"HELLCHECK_ID", "HELLCHECK_URL", "HELLCHECK_OK"}
    ensures env["HELLCHECK_ID"] == n.checkerId && env["HELLCHECK_URL"] == n.checkerUrl
    ensures env["HELLCHECK_OK"] in {"true", "false"}
    ensures env["HELLCHECK_OK"] == "true" <==> n.state == Up
  {
    var ok := match n.state
      case Up => "true"
      case Down => "false";
    map["HELLCHECK_ID" := n.checkerId, "HELLCHECK_URL" := n.checkerUrl, "HELLCHECK_OK" := ok]
  }

  /** The process to run: the configured program and arguments, in order. */
  function CommandSpawn(command: string, arguments: seq<string>, n: Notification): (s: Spawn)
    ensures [s.program] + s.args == [command] + arguments
    ensures s.env == CommandEnv(n)
  {
    Spawn(command, arguments, CommandEnv(n))
  }

  // ---------------------------------------------------------------------
  // Dispatch.

  /** `Notifier::notify`. Telegram and Slack succeed on any response,
      whatever its status, and fail only when nothing came back; the command
      succeeds exactly when the process ran and exited with code 0; the
      Hipchat backend sends nothing and always succeeds. */
  function Notify(t: Transport, b: Backend, n: Notification): (r: Result<(), ()>)
    ensures b.TelegramBackend? ==> (r.Success? <==> t.post(TelegramRequest(b.token, b.chatId, n)).Responded?)
    ensures b.SlackBackend? ==> (r.Success? <==> t.post(SlackRequest(b.webhookUrl, n)).Responded?)
    ensures b.CommandBackend? ==> (r.Success? <==> Succeeded(t.spawn(CommandSpawn(b.command, b.arguments, n))))
    ensures b.HipchatBackend? ==> r.Success?
  {
    match b
    case TelegramBackend(token, chatId) =>
      if t.post(TelegramRequest(token, chatId, n)).Responded? then Success(()) else Failure(())
    case SlackBackend(webhookUrl) =>
      if t.post(SlackRequest(webhookUrl, n)).Responded? then Success(()) else Failure(())
    case CommandBackend(command, arguments) =>
      (match t.spawn(CommandSpawn(command, arguments, n))
       case Exited(code) => if code == 0 then Success(()) else Failure(())
       case _ => Failure(()))
    case HipchatBackend(_, _, _) => Success(())
  }
}
