// The gateway payloads exchanged with Discord, and what the client decodes from them.
module Protocol {

  datatype Option<+T> = None | Some(value: T)

  // A field of a decoded JSON object.
  datatype Field<+T> = Absent | Has(content: T) | WrongType

  // The "d" member of a payload, as far as the client looks into it: `True` is the literal true,
  // `Scalar` any other value that is neither null nor an object.
  datatype Data =
    | Missing
    | Null
    | True
    | Scalar
    | Object(sessionId: Field<string>, heartbeatMillis: Field<int>)

  // Event names; those the client treats specially apart.
  datatype EventName = READY | RESUMED | Named(text: string)

  datatype Payload = Payload(op: int, data: Data, number: int, name: EventName)

  const DISPATCH := 0
  const HEARTBEAT := 1
  const INVALID_SESSION := 9
  const HELLO := 10
  const HEARTBEAT_ACK := 11

  // Decoding one field into a struct: an absent field keeps the zero value.
  function FieldOr<T>(f: Field<T>, zero: T): Option<T> {
    match f
    case Absent => Some(zero)
    case Has(v) => Some(v)
    case WrongType => None
  }

  // The session id of a READY payload, or None when the data does not decode.
  function ReadySession(d: Data): Option<string> {
    match d
    case Missing => None
    case Null => Some("")
    case True => None
    case Scalar => None
    case Object(s, _) => FieldOr(s, "")
  }

  // The heartbeat interval of a hello payload, or None when the data does not decode.
  function HelloMillis(d: Data): Option<int> {
    match d
    case Missing => None
    case Null => Some(0)
    case True => None
    case Scalar => None
    case Object(_, ms) => FieldOr(ms, 0)
  }

  // Decoding fails exactly for data that is missing, is neither null nor an object, or has the field
  // with another type; null, and an object without the field, give the zero value.
  lemma Decodes(d: Data)
    ensures ReadySession(d).None? <==> d in {Missing, True, Scalar} || (d.Object? && d.sessionId.WrongType?)
    ensures HelloMillis(d).None? <==> d in {Missing, True, Scalar} || (d.Object? && d.heartbeatMillis.WrongType?)
    ensures d == Null || (d.Object? && d.sessionId.Absent?) ==> ReadySession(d) == Some("")
    ensures d == Null || (d.Object? && d.heartbeatMillis.Absent?) ==> HelloMillis(d) == Some(0)
    ensures d.Object? && d.sessionId.Has? ==> ReadySession(d) == Some(d.sessionId.content)
    ensures d.Object? && d.heartbeatMillis.Has? ==> HelloMillis(d) == Some(d.heartbeatMillis.content)
  {
  }

  // Heartbeat requests and ACKs are handled by the heartbeat goroutine, not returned by `next`.
  predicate IsBeat(p: Payload) {
    p.op == HEARTBEAT || p.op == HEARTBEAT_ACK
  }
}
