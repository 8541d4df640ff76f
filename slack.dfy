/** The Slack side of the hook (`sendSlackMessage` in main.go): the JSON body
    of a chat.postMessage request, and the chain of checks that turns what came
    back from the network into "sent" or "failed".

    The network exchange itself is not modelled: whatever the HTTP client, the
    server and the JSON decoder produced is given as a `Response` value. */
module Slack {
  import opened Wrappers

  /** The keys of the JSON request body. */
  const UsernameField := "username"
  const IconField := "icon_emoji"
  const UnfurlField := "unfurl_links"
  const ChannelField := "channel"
  const TextField := "text"

  /** The fixed cosmetic values. `unfurl_links` is sent as the STRING "false":
      the body is a map from strings to strings. */
  const BotName := "NZBGet"
  const BotIcon := ":seal:"
  const NoUnfurl := "false"

  /** `http.StatusOK`. */
  const StatusOK := 200

  /** The JSON body of the request: exactly five string-valued keys. */
  function Payload(text: string, channel: string): (p: map<string, string>)
    ensures p.Keys == {UsernameField, IconField, UnfurlField, ChannelField, TextField}
    ensures p[UsernameField] == BotName && p[IconField] == BotIcon && p[UnfurlField] == NoUnfurl
    ensures p[ChannelField] == channel && p[TextField] == text
  {
    map[UsernameField := BotName, IconField := BotIcon, UnfurlField := NoUnfurl,
        ChannelField := channel, TextField := text]
  }

  /** The payload map carries the channel and the text unchanged: two
      payload maps are equal exactly when their (text, channel) pairs are. */
  lemma PayloadInjective(text1: string, channel1: string, text2: string, channel2: string)
    ensures Payload(text1, channel1) == Payload(text2, channel2) <==> text1 == text2 && channel1 == channel2
  {
  }

  /** One attempted POST to chat.postMessage: the JSON body and the token that
      goes into the `Authorization: Bearer` header. */
  datatype Request = Request(payload: map<string, string>, bearerToken: string)

  function SlackRequest(msg: string, token: string, channel: string): (r: Request)
    ensures r.payload == Payload(msg, channel) && r.bearerToken == token
  {
    Request(Payload(msg, channel), token)
  }

  /** A decoded JSON value, as `json.Unmarshal` produces it into an
      `interface{}`. Numbers are kept as their literal text; a literal that
      does not convert to a float64 makes the whole decode fail, which is
      `NotAnObject` below. */
  datatype JsonValue =
    | JNull
    | JBool(b: bool)
    | JNumber(literal: string)
    | JString(s: string)
    | JArray(elements: seq<JsonValue>)
    | JObject(members: map<string, JsonValue>)

  /** The outcome of `json.Unmarshal(body, &respJsonMap)` with
      `respJsonMap map[string]interface{}`: an error (the body is not JSON, is
      JSON of another type, holds a number out of float64 range, or nests
      deeper than the decoder allows), or the object's members. A JSON `null` decodes
      without error to a nil map, which is `Object(map[])` here. */
  datatype Decoded = NotAnObject | Object(members: map<string, JsonValue>)

  /** The outcome of `io.ReadAll(resp.Body)` followed by decoding. */
  datatype Body = Unreadable | Read(decoded: Decoded)

  /** What the network gave back for one request. */
  datatype Response =
    | RequestNotCreated                         // http.NewRequest failed (cannot happen for its constant method and URL; kept for the branch)
    | TransportFailed                           // client.Do failed
    | Received(statusCode: int, body: Body)     // an HTTP response arrived

  /** Why a send failed; each one is logged differently, all count the same. */
  datatype Failure =
    | RequestError
    | TransportError
    | BadStatus(code: int)
    | UnreadableBody
    | MalformedBody
    | Rejected(error: Option<JsonValue>)        // `ok` was false; `error` is logged

  datatype Delivery = Delivered | Failed(reason: Failure)

  /** Go's `m[key]` on a map of interfaces: absent keys give nil. */
  function Lookup(members: map<string, JsonValue>, key: string): (v: Option<JsonValue>)
    ensures v.Some? <==> key in members
    ensures v.Some? ==> v.value == members[key]
  {
    if key in members then Some(members[key]) else None
  }

  /** The type assertion `respJsonMap["ok"].(bool)`: a value only when the
      entry is present and a boolean. */
  function OkFlag(members: map<string, JsonValue>): (flag: Option<bool>)
    ensures flag.Some? <==> "ok" in members && members["ok"].JBool?
    ensures flag.Some? ==> members["ok"] == JBool(flag.value)
  {
    match Lookup(members, "ok")
    case Some(JBool(b)) => Some(b)
    case _ => None
  }

  /** The chain of early returns in `sendSlackMessage`, in the source's order.
      A send succeeds exactly when the status is 200, the body was read, it
      decodes as an object, and its `ok` entry is not the boolean false; an
      absent or non-boolean `ok` counts as success. */
  function Classify(r: Response): (d: Delivery)
    ensures d.Delivered? <==>
      && r.Received?
      && r.statusCode == StatusOK
      && r.body.Read?
      && r.body.decoded.Object?
      && Lookup(r.body.decoded.members, "ok") != Some(JBool(false))
    ensures d == Failed(RequestError) <==> r == RequestNotCreated
    ensures d == Failed(TransportError) <==> r == TransportFailed
    ensures d.Failed? && d.reason.BadStatus? <==> r.Received? && r.statusCode != StatusOK
    ensures d.Failed? && d.reason.BadStatus? ==> d.reason.code == r.statusCode
    ensures d == Failed(UnreadableBody) <==> r == Received(StatusOK, Unreadable)
    ensures d == Failed(MalformedBody) <==> r == Received(StatusOK, Read(NotAnObject))
    ensures d.Failed? && d.reason.Rejected? ==>
      r.Received? && r.body.Read? && r.body.decoded.Object? &&
      d.reason.error == Lookup(r.body.decoded.members, "error")
  {
    match r
    case RequestNotCreated => Failed(RequestError)
    case TransportFailed => Failed(TransportError)
    case Received(code, body) =>
      if code != StatusOK then Failed(BadStatus(code))
      else
        match body
        case Unreadable => Failed(UnreadableBody)
        case Read(NotAnObject) => Failed(MalformedBody)
        case Read(Object(members)) =>
          if OkFlag(members) == Some(false) then Failed(Rejected(Lookup(members, "error")))
          else Delivered
  }

  /** The quirk: a 200 response whose object has no `ok` entry, or a
      non-boolean one, is a successful send. */
  lemma MissingOrNonBooleanOkIsSuccess(members: map<string, JsonValue>)
    requires "ok" !in members || !members["ok"].JBool?
    ensures Classify(Received(StatusOK, Read(Object(members)))) == Delivered
  {
  }

  /** A body of `null` decodes without error and so is a success too. */
  lemma NullBodyIsSuccess()
    ensures Classify(Received(StatusOK, Read(Object(map[])))) == Delivered
  {
  }

  /** `{"ok": false, "error": e}` with status 200 fails, and `e` is what is
      reported; `{"ok": true}` succeeds. */
  lemma ExplicitOkFlag(e: JsonValue)
    ensures Classify(Received(StatusOK, Read(Object(map["ok" := JBool(false), "error" := e]))))
         == Failed(Rejected(Some(e)))
    ensures Classify(Received(StatusOK, Read(Object(map["ok" := JBool(true)])))) == Delivered
  {
  }
}
