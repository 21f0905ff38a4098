/** The effects the notifier backends and the watcher cause, as data: an HTTP
    request with a JSON body, the spawn of a child process, and the outcome
    each one has. The outcomes come from a `Transport` passed in by the
    caller, so the network and the operating system stay outside the model. */
module Transport {

  /** The part of JSON the payloads use: strings, arrays and objects. A
      `HashMap` serialises to an object, so its keys form a map. */
  datatype Json =
    | JString(s: string)
    | JArray(items: seq<Json>)
    | JObject(fields: map<string, Json>)

  /** `client.post(url).json(&payload)`. */
  datatype Post = Post(url: string, body: Json)

  /** What `send()` gave back: a response with its status, or an error
      (connection refused, DNS failure, TLS failure, ...). */
  datatype SendOutcome = Responded(status: nat) | SendFailed

  /** `Command::new(program).args(args).env(..)...`: the environment entries
      the command adds on top of the inherited environment. */
  datatype Spawn = Spawn(program: string, args: seq<string>, env: map<string, string>)

  /** What `status()` gave back: an exit code, termination by a signal (no
      code), or a failure to start the process at all. */
  datatype ExitOutcome = Exited(code: int) | Signalled | SpawnFailed

  /** `ExitStatus::success()`: the process exited with code 0. */
  predicate Succeeded(o: ExitOutcome) {
    o.Exited? && o.code == 0
  }

  /** The world the notifiers talk to. */
  datatype Transport = Transport(post: Post -> SendOutcome, spawn: Spawn -> ExitOutcome)
}
