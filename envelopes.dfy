/**
 * The objects the relay serialises with `JSON.stringify` and sends. An
 * envelope is a JSON object; a property whose value is undefined is left out,
 * as `JSON.stringify` leaves it out.
 */
module Envelopes {
  import opened Json

  type Envelope = Json.Object

  /** An inbound frame: text that `JSON.parse` rejected, or the object it produced. */
  datatype Frame = Malformed | Parsed(data: Json.Object)

  /** `o[k] = v` as it survives `JSON.stringify`: an undefined value drops the key. */
  function Put(o: Envelope, k: string, v: Value): (r: Envelope)
    ensures v != Undefined ==> k in r && r[k] == v
    ensures v == Undefined ==> k !in r
    ensures forall j :: j != k ==> (j in r <==> j in o)
    ensures forall j :: j in r && j != k ==> r[j] == o[j]
  {
    if v == Undefined then o - {k} else o[k := v]
  }

  /**
   * The reply to a frame that failed to parse: `{type: 'error', error: e}`.
   * `e` is a SyntaxError, which has no enumerable properties, so it
   * serialises as the empty object.
   */
  function ErrorEnvelope(): Envelope {
    map["type" := Str("error"), "error" := Obj(map[])]
  }

  /** `{...data, from: id}`: the frame's own properties, with `from` set to the sender. */
  function Spread(data: Json.Object, id: string): (r: Envelope)
    ensures "from" in r && r["from"] == Str(id)
    ensures forall k :: k != "from" ==> (k in r <==> k in data)
    ensures forall k :: k in data && k != "from" ==> r[k] == data[k]
  {
    data["from" := Str(id)]
  }

  /** `username || "unknown"`: the name a chat envelope carries. */
  function SenderName(name: Value): (r: Value)
    ensures r != Undefined && Truthy(r)
    ensures Truthy(name) ==> r == name
    ensures !Truthy(name) ==> r == Str("unknown")
  {
    if Truthy(name) then name else Str("unknown")
  }

  /** `{type: 'message', message, sender}`, `message` dropped when undefined. */
  function Chat(message: Value, sender: Value): (r: Envelope)
    requires sender != Undefined
    ensures r.Keys == {"type", "sender"} + (if message == Undefined then {} else {"message"})
    ensures r["type"] == Str("message") && r["sender"] == sender
    ensures "message" in r ==> r["message"] == message
  {
    Put(map["type" := Str("message")], "message", message)["sender" := sender]
  }

  /** Reading the chat envelope's properties back gives what it was built from. */
  lemma ChatFields(message: Value, sender: Value)
    requires sender != Undefined
    ensures Get(Chat(message, sender), "type") == Str("message")
    ensures Get(Chat(message, sender), "sender") == sender
    ensures Get(Chat(message, sender), "message") == message
  {
  }

  /** `{type: 'join', position, broadcaster, id}`: the reply to the joining client. */
  function JoinReply(position: nat, isBroadcaster: bool, id: string): Envelope {
    map["type" := Str("join"), "position" := Num(position),
        "broadcaster" := Bool(isBroadcaster), "id" := Str(id)]
  }

  /** `{type: 'join', position, id}`: the notice to the broadcaster. */
  function JoinNotice(position: nat, id: string): Envelope {
    map["type" := Str("join"), "position" := Num(position), "id" := Str(id)]
  }
}
