/** Gateway frames of the qq adapter: the opcode table, the wire aliases
    `op` / `d` / `s` / `t`, and the decoding of a received frame into a
    tagged union that falls back to a generic payload. */
module QQPayload {
  import opened Wrappers
  import opened Json

  const DISPATCH: int := 0
  const HEARTBEAT: int := 1
  const IDENTIFY: int := 2
  const RESUME: int := 6
  const RECONNECT: int := 7
  const INVALID_SESSION: int := 9
  const HELLO: int := 10
  const HEARTBEAT_ACK: int := 11
  const HTTP_CALLBACK_ACK: int := 12
  const WEBHOOK_VERIFY: int := 13

  /** `PAYLOAD_FIELD_ALIASES`: field name to wire name. */
  function Alias(name: string): (r: string)
    ensures name == "opcode" ==> r == "op"
    ensures name == "data" ==> r == "d"
    ensures name == "sequence" ==> r == "s"
    ensures name == "type" ==> r == "t"
    ensures name !in {"opcode", "data", "sequence", "type"} ==> r == name
  {
    if name == "opcode" then "op"
    else if name == "data" then "d"
    else if name == "sequence" then "s"
    else if name == "type" then "t"
    else name
  }

  datatype IdentifyData = IdentifyData(token: string, intents: int, shard: (int, int), properties: Fields)

  datatype ResumeData = ResumeData(token: string, sessionId: string, seqNo: int)

  /** One gateway frame. `extra` holds the undeclared wire keys that the
      permissive payload models keep. */
  datatype Payload =
    | Dispatch(data: Fields, sequence: Option<int>, eventType: string, id: Option<string>, extra: Fields)
    | Heartbeat(beat: int)
    | Identify(identify: IdentifyData)
    | Resume(resume: ResumeData)
    | Reconnect(extra: Fields)
    | InvalidSession(extra: Fields)
    | Hello(heartbeatInterval: int, extra: Fields)
    | HeartbeatAck(extra: Fields)
    | HttpCallbackAck(ack: int)
    | WebhookVerify(plainToken: string, eventTs: string, extra: Fields)
    | Generic(fields: Fields)

  /** The opcode a typed payload carries. */
  function Opcode(p: Payload): (op: int)
    requires !p.Generic?
  {
    match p
    case Dispatch(_, _, _, _, _) => DISPATCH
    case Heartbeat(_) => HEARTBEAT
    case Identify(_) => IDENTIFY
    case Resume(_) => RESUME
    case Reconnect(_) => RECONNECT
    case InvalidSession(_) => INVALID_SESSION
    case Hello(_, _) => HELLO
    case HeartbeatAck(_) => HEARTBEAT_ACK
    case HttpCallbackAck(_) => HTTP_CALLBACK_ACK
    case WebhookVerify(_, _, _) => WEBHOOK_VERIFY
  }

  const DispatchKeys: set<string> := {"op", "d", "s", "t", "id"}
  const OpKeys: set<string> := {"op"}
  const DataKeys: set<string> := {"op", "d"}

  function OptionalInt(v: Option<Json>): Option<Option<int>> {
    match v
    case None => Some(None)
    case Some(JNull) => Some(None)
    case Some(JInt(n)) => Some(Some(n))
    case Some(_) => None
  }

  function OptionalStr(v: Option<Json>): Option<Option<string>> {
    match v
    case None => Some(None)
    case Some(JNull) => Some(None)
    case Some(JStr(s)) => Some(Some(s))
    case Some(_) => None
  }

  /** Validation of the `Dispatch` model: `d` an object, `t` a string, `s`
      and `id` optional. */
  function ValidateDispatch(f: Fields): (r: Option<Payload>)
    ensures r.Some? ==>
              r.value.Dispatch? && Get(f, "d") == Some(JObj(r.value.data))
              && Get(f, "t") == Some(JStr(r.value.eventType))
  {
    var d, t, sq, id := Get(f, "d"), Get(f, "t"), OptionalInt(Get(f, "s")), OptionalStr(Get(f, "id"));
    if d.Some? && d.value.JObj? && t.Some? && t.value.JStr? && sq.Some? && id.Some?
    then Some(Dispatch(d.value.fields, sq.value, t.value.s, id.value, Without(f, DispatchKeys)))
    else None
  }

  function ValidateHello(f: Fields): (r: Option<Payload>)
    ensures r.Some? ==> r.value.Hello?
  {
    match Get(f, "d")
    case Some(JObj(d)) =>
      (match Get(d, "heartbeat_interval")
       case Some(JInt(n)) => Some(Hello(n, Without(f, DataKeys)))
       case _ => None)
    case _ => None
  }

  function ValidateWebhookVerify(f: Fields): (r: Option<Payload>)
    ensures r.Some? ==> r.value.WebhookVerify?
  {
    match Get(f, "d")
    case Some(JObj(d)) =>
      (match (Get(d, "plain_token"), Get(d, "event_ts"))
       case (Some(JStr(pt)), Some(JStr(ts))) => Some(WebhookVerify(pt, ts, Without(f, DataKeys)))
       case _ => None)
    case _ => None
  }

  datatype DecodeError = NotAnObject

  /** The variant selected by the opcode, validated; the generic payload
      when validation fails or the opcode selects no variant. */
  function ByOpcode(op: int, f: Fields): (p: Payload)
    ensures !p.Generic? ==> Opcode(p) == op
    ensures op in {RECONNECT, INVALID_SESSION, HEARTBEAT_ACK} ==> !p.Generic?
    ensures p.Generic? ==> p.fields == f
    ensures !(p.Heartbeat? || p.Identify? || p.Resume? || p.HttpCallbackAck?)
  {
    if op == DISPATCH then ValidateDispatch(f).GetOr(Generic(f))
    else if op == RECONNECT then Reconnect(Without(f, OpKeys))
    else if op == INVALID_SESSION then InvalidSession(Without(f, OpKeys))
    else if op == HELLO then ValidateHello(f).GetOr(Generic(f))
    else if op == HEARTBEAT_ACK then HeartbeatAck(Without(f, OpKeys))
    else if op == WEBHOOK_VERIFY then ValidateWebhookVerify(f).GetOr(Generic(f))
    else Generic(f)
  }

  /** `PayloadType` validation of an object: discriminated by `op` among
      Dispatch, Reconnect, InvalidSession, Hello, HeartbeatAck and
      WebhookVerify, falling back to the generic payload. */
  function DecodeFields(f: Fields): (p: Payload)
    ensures !p.Generic? ==> Get(f, "op") == Some(JInt(Opcode(p)))
    ensures p.Generic? ==> p.fields == f
  {
    match Get(f, "op")
    case Some(JInt(op)) => ByOpcode(op, f)
    case _ => Generic(f)
  }

  /** Decoding a received frame: only a frame that is not an object is
      refused; everything else yields some payload. */
  function Decode(j: Json): (r: Result<Payload, DecodeError>)
    ensures r.Ok? <==> j.JObj?
    ensures r.Ok? && !r.value.Generic? ==> Get(j.fields, "op") == Some(JInt(Opcode(r.value)))
    ensures r.Ok? ==> !(r.value.Heartbeat? || r.value.Identify? || r.value.Resume? || r.value.HttpCallbackAck?)
    ensures r.Ok? && Get(j.fields, "op") in {Some(JInt(RECONNECT)), Some(JInt(INVALID_SESSION)), Some(JInt(HEARTBEAT_ACK))}
      ==> !r.value.Generic?
    ensures r.Ok? && r.value.Generic? ==> r.value.fields == j.fields
  {
    if j.JObj? then Ok(DecodeFields(j.fields)) else Err(NotAnObject)
  }

  function OptIntJson(v: Option<int>): Json {
    match v
    case None => JNull
    case Some(n) => JInt(n)
  }

  function OptStrJson(v: Option<string>): Json {
    match v
    case None => JNull
    case Some(s) => JStr(s)
  }

  /** The declared wire keys of a typed payload, in declaration order. */
  function Declared(p: Payload): Fields
    requires !p.Generic?
  {
    match p
    case Dispatch(d, s, t, id, _) =>
      [("op", JInt(DISPATCH)), ("d", JObj(d)), ("s", OptIntJson(s)), ("t", JStr(t)), ("id", OptStrJson(id))]
    case Heartbeat(n) => [("op", JInt(HEARTBEAT)), ("d", JInt(n))]
    case Identify(i) =>
      [("op", JInt(IDENTIFY)),
       ("d", JObj([("token", JStr(i.token)), ("intents", JInt(i.intents)),
                   ("shard", JArr([JInt(i.shard.0), JInt(i.shard.1)])),
                   ("properties", JObj(i.properties))]))]
    case Resume(r) =>
      [("op", JInt(RESUME)),
       ("d", JObj([("token", JStr(r.token)), ("session_id", JStr(r.sessionId)), ("seq", JInt(r.seqNo))]))]
    case Reconnect(_) => [("op", JInt(RECONNECT))]
    case InvalidSession(_) => [("op", JInt(INVALID_SESSION))]
    case Hello(n, _) => [("op", JInt(HELLO)), ("d", JObj([("heartbeat_interval", JInt(n))]))]
    case HeartbeatAck(_) => [("op", JInt(HEARTBEAT_ACK))]
    case HttpCallbackAck(n) => [("op", JInt(HTTP_CALLBACK_ACK)), ("d", JInt(n))]
    case WebhookVerify(pt, ts, _) =>
      [("op", JInt(WEBHOOK_VERIFY)), ("d", JObj([("plain_token", JStr(pt)), ("event_ts", JStr(ts))]))]
  }

  function ExtraOf(p: Payload): Fields {
    if p.Dispatch? || p.Reconnect? || p.InvalidSession? || p.Hello? || p.HeartbeatAck? || p.WebhookVerify?
    then p.extra else []
  }

  /** `payload_to_json`: dump by alias, declared fields first, then extras. */
  function Encode(p: Payload): (j: Json)
    ensures j.JObj?
    ensures !p.Generic? ==> Get(j.fields, "op") == Some(JInt(Opcode(p)))
  {
    if p.Generic? then JObj(p.fields)
    else JObj(Declared(p) + ExtraOf(p))
  }

  /** The keys a payload's extras may not reuse. */
  function ReservedKeys(p: Payload): set<string> {
    if p.Dispatch? then DispatchKeys
    else if p.Hello? || p.WebhookVerify? then DataKeys
    else OpKeys
  }

  /** A payload the server can send: one of the received variants, whose
      extra keys do not shadow declared ones. */
  predicate Receivable(p: Payload) {
    (p.Dispatch? || p.Reconnect? || p.InvalidSession? || p.Hello? || p.HeartbeatAck? || p.WebhookVerify?)
    && KeysOutside(p.extra, ReservedKeys(p))
  }

  lemma OptionalRoundTrip(s: Option<int>, id: Option<string>)
    ensures OptionalInt(Some(OptIntJson(s))) == Some(s)
    ensures OptionalStr(Some(OptStrJson(id))) == Some(id)
  {
  }

  lemma DispatchRoundTrip(d: Fields, s: Option<int>, t: string, id: Option<string>, extra: Fields)
    requires KeysOutside(extra, DispatchKeys)
    ensures Decode(Encode(Dispatch(d, s, t, id, extra))) == Ok(Dispatch(d, s, t, id, extra))
  {
    var decl := [("op", JInt(DISPATCH)), ("d", JObj(d)), ("s", OptIntJson(s)), ("t", JStr(t)), ("id", OptStrJson(id))];
    var f := decl + extra;
    GetIn(decl, extra, 0);
    GetIn(decl, extra, 1);
    GetIn(decl, extra, 2);
    GetIn(decl, extra, 3);
    GetIn(decl, extra, 4);
    WithoutAppend(decl, extra, DispatchKeys);
    OptionalRoundTrip(s, id);
    assert ValidateDispatch(f) == Some(Dispatch(d, s, t, id, extra));
  }

  lemma HelloRoundTrip(n: int, extra: Fields)
    requires KeysOutside(extra, DataKeys)
    ensures Decode(Encode(Hello(n, extra))) == Ok(Hello(n, extra))
  {
    var inner := [("heartbeat_interval", JInt(n))];
    var decl := [("op", JInt(HELLO)), ("d", JObj(inner))];
    var f := decl + extra;
    GetIn(decl, extra, 0);
    GetIn(decl, extra, 1);
    GetIn(inner, [], 0);
    assert inner + [] == inner;
    WithoutAppend(decl, extra, DataKeys);
    assert ValidateHello(f) == Some(Hello(n, extra));
  }

  lemma WebhookVerifyRoundTrip(pt: string, ts: string, extra: Fields)
    requires KeysOutside(extra, DataKeys)
    ensures Decode(Encode(WebhookVerify(pt, ts, extra))) == Ok(WebhookVerify(pt, ts, extra))
  {
    var inner := [("plain_token", JStr(pt)), ("event_ts", JStr(ts))];
    var decl := [("op", JInt(WEBHOOK_VERIFY)), ("d", JObj(inner))];
    var f := decl + extra;
    GetIn(decl, extra, 0);
    GetIn(decl, extra, 1);
    GetIn(inner, [], 0);
    GetIn(inner, [], 1);
    assert inner + [] == inner;
    WithoutAppend(decl, extra, DataKeys);
    assert ValidateWebhookVerify(f) == Some(WebhookVerify(pt, ts, extra));
  }

  lemma BareRoundTrip(p: Payload)
    requires Receivable(p) && (p.Reconnect? || p.InvalidSession? || p.HeartbeatAck?)
    ensures Decode(Encode(p)) == Ok(p)
  {
    var decl := [("op", JInt(Opcode(p)))];
    GetIn(decl, p.extra, 0);
    WithoutAppend(decl, p.extra, OpKeys);
    assert Encode(p).fields == decl + p.extra;
  }

  /** Every received variant survives an encode / decode round trip. */
  lemma DecodeEncode(p: Payload)
    requires Receivable(p)
    ensures Decode(Encode(p)) == Ok(p)
  {
    match p
    case Dispatch(d, s, t, id, extra) => DispatchRoundTrip(d, s, t, id, extra);
    case Hello(n, extra) => HelloRoundTrip(n, extra);
    case WebhookVerify(pt, ts, extra) => WebhookVerifyRoundTrip(pt, ts, extra);
    case _ => BareRoundTrip(p);
  }

  /** Frames the client sends (Heartbeat, Identify, Resume) and the HTTP
      callback acknowledgement are not part of the received union: decoding
      one yields the generic payload with the same wire fields. */
  lemma SentFramesDecodeGeneric(p: Payload)
    requires p.Heartbeat? || p.Identify? || p.Resume? || p.HttpCallbackAck?
    ensures Decode(Encode(p)) == Ok(Generic(Encode(p).fields))
  {
    assert Get(Encode(p).fields, "op") == Some(JInt(Opcode(p)));
  }
}
