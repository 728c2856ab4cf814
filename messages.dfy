/**
 Control messages of the signaling demo, as the peers and the relay see them
 after `json.loads`: one JSON object per websocket text frame.

 JSON numbers, booleans and arrays never occur in this protocol and are not
 represented; Python's `None` and JSON `null` are the same value, `Null`.
 */
module Messages {

  datatype Option<+T> = None | Some(value: T)

  /** A decoded JSON value. */
  datatype Json = Null | Str(s: string) | Object(fields: map<string, Json>)

  /** A control message: the top-level JSON object of one text frame. */
  type Msg = map<string, Json>

  /** Python's `data.get(key)`: the value under `key`, or `None` when the key is absent. */
  function Get(data: Msg, key: string): Json
  {
    if key in data then data[key] else Null
  }

  /** Python truthiness of a JSON value (`not v`): `None`, `""` and `{}` are false. */
  predicate Falsy(v: Json)
  {
    v == Null || v == Str("") || v == Object(map[])
  }

  /** A session description produced by the media engine; the relay only carries it. */
  datatype SessionDescription = SessionDescription(kind: string, sdp: string)

  /** The JSON object `{type, sdp}` that carries a session description on the wire. */
  function DescriptionJson(d: SessionDescription): Json
  {
    Object(map["type" := Str(d.kind), "sdp" := Str(d.sdp)])
  }

  /** Reads a session description back from its `{type, sdp}` object, if it is one. */
  function DescriptionOf(v: Json): (r: Option<SessionDescription>)
    ensures forall d :: v == DescriptionJson(d) ==> r == Some(d)
    ensures r.Some? ==> v.Object? && "type" in v.fields && "sdp" in v.fields
  {
    match v
    case Object(f) =>
      if "type" in f && "sdp" in f && f["type"].Str? && f["sdp"].Str?
      then Some(SessionDescription(f["type"].s, f["sdp"].s))
      else None
    case _ => None
  }

  /** `{type: "registered", sender_id}`: tells a new sender its id (server.py:22-25). */
  function SenderRegistered(id: string): Msg
  {
    map["type" := Str("registered"), "sender_id" := Str(id)]
  }

  /** `{type: "registered", receiver_id}`: tells a new receiver its id (server.py:74-77). */
  function ReceiverRegistered(id: string): Msg
  {
    map["type" := Str("registered"), "receiver_id" := Str(id)]
  }

  /** `{type: "sender", sender_id}`: announces an existing sender to a receiver (server.py:84-87). */
  function SenderAvailable(id: string): Msg
  {
    map["type" := Str("sender"), "sender_id" := Str(id)]
  }

  /** The offer as the relay re-packs it for the receiver (server.py:43-48). */
  function ForwardedOffer(senderId: string, receiverId: string, offer: Json): Msg
  {
    map["sender_id" := Str(senderId), "type" := Str("offer"),
        "receiver_id" := Str(receiverId), "offer" := offer]
  }
}
