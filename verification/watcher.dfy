/** The probe of the watcher (src/watcher.rs): on every tick of a checker's
    interval it sends a GET to the checker's URL, with a Basic-Auth header
    when the checker has credentials, and reports Up exactly when the answer
    has status 200. The HTTP client is the `fetch` function passed in. */
module Watcher {
  import opened Wrappers
  import opened Config
  import opened Events
  import opened Transport
  import opened Utf8
  import Base64

  /** A GET request: the target, the headers in the order they are set, and
      the body. */
  datatype Request = Get(url: Uri, headers: seq<(string, string)>, body: seq<Byte>)

  /** `hyper::header::AUTHORIZATION`, whose name is lower case. */
  const Authorization: string := "authorization"

  const BasicPrefix: string := "Basic "

  /** The `username:password` text that is encoded. */
  function Credentials(auth: BasicAuth): string {
    auth.username + ":" + auth.password
  }

  /** Characters a header value may hold: printable ASCII, 0x20 to 0x7E. */
  predicate IsHeaderChar(c: char) {
    0x20 <= c as int < 0x7F
  }

  /** Base64 output is plain ASCII. */
  lemma EncodingIsHeaderSafe(bytes: seq<Byte>)
    ensures forall i :: 0 <= i < |Base64.Encode(bytes)| ==> IsHeaderChar(Base64.Encode(bytes)[i])
  {
    var encoded := Base64.Encode(bytes);
    forall i | 0 <= i < |encoded| ensures IsHeaderChar(encoded[i]) {
      assert Base64.IsEncodingChar(encoded[i]);
    }
  }

  /** `Basic ` before header-safe text is header-safe, and the text can be
      cut back out. */
  lemma Prefixed(encoded: string)
    requires forall i :: 0 <= i < |encoded| ==> IsHeaderChar(encoded[i])
    ensures var v := BasicPrefix + encoded;
            v[..|BasicPrefix|] == BasicPrefix && v[|BasicPrefix|..] == encoded
            && forall i :: 0 <= i < |v| ==> IsHeaderChar(v[i])
  {
    var v := BasicPrefix + encoded;
    assert v[..|BasicPrefix|] == BasicPrefix && v[|BasicPrefix|..] == encoded;
    forall i | 0 <= i < |v| ensures IsHeaderChar(v[i]) {
      if i >= |BasicPrefix| { assert v[i] == encoded[i - |BasicPrefix|]; }
    }
  }

  /** `build_authorization_header_value`: `Basic ` and the base64 of the
      UTF-8 bytes of `username:password`. The credentials decode back out of
      it, and it holds only characters a header value allows, so the
      `unwrap()` of `HeaderValue::from_str` cannot fail. */
  function AuthorizationValue(auth: BasicAuth): (v: string)
    ensures |BasicPrefix| <= |v| && v[..|BasicPrefix|] == BasicPrefix
    ensures Base64.Decode(v[|BasicPrefix|..]).Some?
            && Utf8.Decode(Base64.Decode(v[|BasicPrefix|..]).value) == Some(Credentials(auth))
    ensures |v| == |BasicPrefix| + 4 * ((|Utf8.Encode(Credentials(auth))| + 2) / 3)
    ensures forall i :: 0 <= i < |v| ==> IsHeaderChar(v[i])
  {
    var bytes := Utf8.Encode(Credentials(auth));
    Base64.DecodeEncode(bytes);
    Utf8.DecodeEncode(Credentials(auth));
    EncodingIsHeaderSafe(bytes);
    Prefixed(Base64.Encode(bytes));
    BasicPrefix + Base64.Encode(bytes)
  }

  /** `build_request`: a GET to the checker's URL with an empty body, which
      carries an `authorization` header exactly when the checker has
      credentials, and then only that one. */
  function BuildRequest(checker: CheckerConfig): (req: Request)
    ensures req.url == checker.url && req.body == []
    ensures checker.basicAuth.None? <==> req.headers == []
    ensures checker.basicAuth.Some? ==>
              req.headers == [(Authorization, AuthorizationValue(checker.basicAuth.value))]
  {
    match checker.basicAuth
    case None => Get(checker.url, [], [])
    case Some(auth) => Get(checker.url, [(Authorization, AuthorizationValue(auth))], [])
  }

  /** The `then` closure of `build_future`: status 200 is Up; any other
      status, and a request that got no response, is Down. */
  function Classify(outcome: SendOutcome): (s: State)
    ensures s == Up <==> outcome == Responded(200)
  {
    match outcome
    case Responded(status) => if status == 200 then Up else Down
    case SendFailed => Down
  }

  /** One tick: the request goes out, its outcome is classified, and the
      message names the checker that was probed. */
  function Probe(fetch: Request -> SendOutcome, checker: CheckerConfig): (msg: StateMessage)
    ensures msg.checkerId == checker.id
    ensures msg.state == Up <==> fetch(BuildRequest(checker)) == Responded(200)
  {
    StateMessage(checker.id, Classify(fetch(BuildRequest(checker))))
  }

  /** The stream of one checker over successive ticks whose requests had
      the outcomes `outcomes`: one message per tick, in order. */
  function Watch(checker: CheckerConfig, outcomes: seq<SendOutcome>): (msgs: seq<StateMessage>)
    ensures |msgs| == |outcomes|
    ensures forall i :: 0 <= i < |outcomes| ==>
              msgs[i].checkerId == checker.id && (msgs[i].state == Up <==> outcomes[i] == Responded(200))
  {
    seq(|outcomes|, i requires 0 <= i < |outcomes| => StateMessage(checker.id, Classify(outcomes[i])))
  }
}
