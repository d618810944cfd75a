/** Gateway frames of the stand-alone qqguild adapter. Unlike the qq
    adapter's frames, a Dispatch must carry its sequence number, and there
    are no HTTP-callback or webhook opcodes. */
module GuildPayload {
  import opened Wrappers
  import opened Json

  const DISPATCH: int := 0
  const HEARTBEAT: int := 1
  const IDENTIFY: int := 2
  const RESUME: int := 6
  const RECONNECT: int := 7
  const INVALID_SESSION: int := 9
  const HELLO: int := 10
  const HEARTBEAT_ACK: int := 11

  datatype IdentifyData = IdentifyData(token: string, intents: int, shard: (int, int), properties: Fields)

  datatype ResumeData = ResumeData(token: string, sessionId: string, seqNo: int)

  datatype Payload =
    | Dispatch(data: Fields, sequence: int, eventType: string, extra: Fields)
    | Heartbeat(beat: int)
    | Identify(identify: IdentifyData)
    | Resume(resume: ResumeData)
    | Reconnect(extra: Fields)
    | InvalidSession(extra: Fields)
    | Hello(heartbeatInterval: int, extra: Fields)
    | HeartbeatAck(extra: Fields)
    | Generic(fields: Fields)

  function Opcode(p: Payload): (op: int)
    requires !p.Generic?
  {
    match p
    case Dispatch(_, _, _, _) => DISPATCH
    case Heartbeat(_) => HEARTBEAT
    case Identify(_) => IDENTIFY
    case Resume(_) => RESUME
    case Reconnect(_) => RECONNECT
    case InvalidSession(_) => INVALID_SESSION
    case Hello(_, _) => HELLO
    case HeartbeatAck(_) => HEARTBEAT_ACK
  }

  const DispatchKeys: set<string> := {"op", "d", "s", "t"}
  const OpKeys: set<string> := {"op"}
  const DataKeys: set<string> := {"op", "d"}

  /** Validation of `Dispatch`: `d` an object, `s` an integer, `t` a string. */
  function ValidateDispatch(f: Fields): (r: Option<Payload>)
    ensures r.Some? ==>
              r.value.Dispatch? && Get(f, "s") == Some(JInt(r.value.sequence))
    ensures r.None? ==> !(Get(f, "s").Some? && Get(f, "s").value.JInt?)
                        || !(Get(f, "d").Some? && Get(f, "d").value.JObj?)
                        || !(Get(f, "t").Some? && Get(f, "t").value.JStr?)
  {
    var d, s, t := Get(f, "d"), Get(f, "s"), Get(f, "t");
    if d.Some? && d.value.JObj? && s.Some? && s.value.JInt? && t.Some? && t.value.JStr?
    then Some(Dispatch(d.value.fields, s.value.n, t.value.s, Without(f, DispatchKeys)))
    else None
  }

  function ValidateHello(f: Fields): (r: Option<Payload>)
    ensures r.Some? ==> r.value.Hello?
  {
    match Get(f, "d")
    case Some(JObj(d)) =>
      (match Get(d, "heartbeat_interval")
       case Some(JInt(n)) => Some(Hello(n, Without(f, DataKeys)))
       case _ => None)
    case _ => None
  }

  datatype DecodeError = NotAnObject

  function ByOpcode(op: int, f: Fields): (p: Payload)
    ensures !p.Generic? ==> Opcode(p) == op
    ensures op in {RECONNECT, INVALID_SESSION, HEARTBEAT_ACK} ==> !p.Generic?
    ensures p.Generic? ==> p.fields == f
    ensures !(p.Heartbeat? || p.Identify? || p.Resume?)
  {
    if op == DISPATCH then ValidateDispatch(f).GetOr(Generic(f))
    else if op == RECONNECT then Reconnect(Without(f, OpKeys))
    else if op == INVALID_SESSION then InvalidSession(Without(f, OpKeys))
    else if op == HELLO then ValidateHello(f).GetOr(Generic(f))
    else if op == HEARTBEAT_ACK then HeartbeatAck(Without(f, OpKeys))
    else Generic(f)
  }

  function DecodeFields(f: Fields): (p: Payload)
    ensures !p.Generic? ==> Get(f, "op") == Some(JInt(Opcode(p)))
    ensures p.Generic? ==> p.fields == f
  {
    match Get(f, "op")
    case Some(JInt(op)) => ByOpcode(op, f)
    case _ => Generic(f)
  }

  /** `PayloadType` validation. A Dispatch frame without an integer `s`
      falls back to the generic payload instead of being refused. */
  function Decode(j: Json): (r: Result<Payload, DecodeError>)
    ensures r.Ok? <==> j.JObj?
    ensures r.Ok? && !r.value.Generic? ==> Get(j.fields, "op") == Some(JInt(Opcode(r.value)))
    ensures r.Ok? && r.value.Dispatch? ==> Get(j.fields, "s") == Some(JInt(r.value.sequence))
    ensures r.Ok? ==> !(r.value.Heartbeat? || r.value.Identify? || r.value.Resume?)
    ensures r.Ok? && r.value.Generic? ==> r.value.fields == j.fields
  {
    if j.JObj? then Ok(DecodeFields(j.fields)) else Err(NotAnObject)
  }

  /** A Dispatch frame whose `s` is missing or null is not a Dispatch. */
  lemma DispatchNeedsSequence(f: Fields)
    requires Get(f, "op") == Some(JInt(DISPATCH))
    requires Get(f, "s").None? || Get(f, "s") == Some(JNull)
    ensures Decode(JObj(f)) == Ok(Generic(f))
  {
    assert DecodeFields(f) == ByOpcode(DISPATCH, f);
  }

  /** Export by alias: declared keys `op`, `d`, `s`, `t` first, then extras. */
  function Declared(p: Payload): Fields
    requires !p.Generic?
  {
    match p
    case Dispatch(d, s, t, _) => [("op", JInt(DISPATCH)), ("d", JObj(d)), ("s", JInt(s)), ("t", JStr(t))]
    case Heartbeat(n) => [("op", JInt(HEARTBEAT)), ("d", JInt(n))]
    case Identify(i) =>
      [("op", JInt(IDENTIFY)),
       ("d", JObj([("token", JStr(i.token)), ("intents", JInt(i.intents)),
                   ("shard", JArr([JInt(i.shard.0), JInt(i.shard.1)])),
                   ("properties", JObj(i.properties))]))]
    case Resume(r) =>
      [("op", JInt(RESUME)),
       ("d", JObj([("token", JStr(r.token)), ("session_id", JStr(r.sessionId)), ("seq", JInt(r.seqNo))]))]
    case Reconnect(_) => [("op", JInt(RECONNECT))]
    case InvalidSession(_) => [("op", JInt(INVALID_SESSION))]
    case Hello(n, _) => [("op", JInt(HELLO)), ("d", JObj([("heartbeat_interval", JInt(n))]))]
    case HeartbeatAck(_) => [("op", JInt(HEARTBEAT_ACK))]
  }

  function ExtraOf(p: Payload): Fields {
    if p.Dispatch? || p.Reconnect? || p.InvalidSession? || p.Hello? || p.HeartbeatAck? then p.extra else []
  }

  function Encode(p: Payload): (j: Json)
    ensures j.JObj?
    ensures !p.Generic? ==> Get(j.fields, "op") == Some(JInt(Opcode(p)))
  {
    if p.Generic? then JObj(p.fields) else JObj(Declared(p) + ExtraOf(p))
  }

  function ReservedKeys(p: Payload): set<string> {
    if p.Dispatch? then DispatchKeys
    else if p.Hello? then DataKeys
    else OpKeys
  }

  predicate Receivable(p: Payload) {
    (p.Dispatch? || p.Reconnect? || p.InvalidSession? || p.Hello? || p.HeartbeatAck?)
    && KeysOutside(p.extra, ReservedKeys(p))
  }

  lemma DispatchRoundTrip(d: Fields, sq: int, t: string, extra: Fields)
    requires KeysOutside(extra, DispatchKeys)
    ensures Decode(Encode(Dispatch(d, sq, t, extra))) == Ok(Dispatch(d, sq, t, extra))
  {
    var decl := [("op", JInt(DISPATCH)), ("d", JObj(d)), ("s", JInt(sq)), ("t", JStr(t))];
    var f := decl + extra;
    GetIn(decl, extra, 0);
    GetIn(decl, extra, 1);
    GetIn(decl, extra, 2);
    GetIn(decl, extra, 3);
    WithoutAppend(decl, extra, DispatchKeys);
    assert ValidateDispatch(f) == Some(Dispatch(d, sq, t, extra));
  }

  lemma HelloRoundTrip(n: int, extra: Fields)
    requires KeysOutside(extra, DataKeys)
    ensures Decode(Encode(Hello(n, extra))) == Ok(Hello(n, extra))
  {
    var inner := [("heartbeat_interval", JInt(n))];
    var decl := [("op", JInt(HELLO)), ("d", JObj(inner))];
    var f := decl + extra;
    GetIn(decl, extra, 0);
    GetIn(decl, extra, 1);
    GetIn(inner, [], 0);
    assert inner + [] == inner;
    WithoutAppend(decl, extra, DataKeys);
    assert ValidateHello(f) == Some(Hello(n, extra));
  }

  lemma BareRoundTrip(p: Payload)
    requires Receivable(p) && (p.Reconnect? || p.InvalidSession? || p.HeartbeatAck?)
    ensures Decode(Encode(p)) == Ok(p)
  {
    var decl := [("op", JInt(Opcode(p)))];
    GetIn(decl, p.extra, 0);
    WithoutAppend(decl, p.extra, OpKeys);
    assert Encode(p).fields == decl + p.extra;
  }

  /** Every received variant survives an encode / decode round trip. */
  lemma DecodeEncode(p: Payload)
    requires Receivable(p)
    ensures Decode(Encode(p)) == Ok(p)
  {
    match p
    case Dispatch(d, sq, t, extra) => DispatchRoundTrip(d, sq, t, extra);
    case Hello(n, extra) => HelloRoundTrip(n, extra);
    case _ => BareRoundTrip(p);
  }
}
