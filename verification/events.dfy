/** The values that flow from the watcher to the reactor and from the
    reactor to the notifier backends (src/reactor.rs, src/notifiers/mod.rs). */
module Events {

  /** The health of a checked service. */
  datatype State = Up | Down

  /** One probe result, sent by the watcher over the channel. */
  datatype StateMessage = StateMessage(checkerId: string, state: State)

  /** What a notifier backend is told: the checker, its URL as text and the
      new state. */
  datatype Notification = Notification(checkerId: string, checkerUrl: string, state: State)
}
