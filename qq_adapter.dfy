/** The qq adapter's gateway client (`nonebot/adapters/qq/adapter.py`):
    the hello, identify/resume handshake, the receive loop and the
    heartbeat of one websocket connection, the shard plan, turning a
    dispatch into an event, and the webhook's key seed and signature
    checks. The socket is a list of received frames (running out of frames
    is the socket closing) and a list of sent payloads; whether a send
    succeeds is a parameter. */
module QQAdapter {
  import opened Wrappers
  import opened PyStr
  import opened Json
  import opened QQConfig
  import opened QQPayload
  import opened QQBot
  import opened QQEvent

  /** Why a connection step stopped by raising. */
  datatype Fault =
    | Closed               // WebSocketClosed: no frame left
    | Malformed            // the frame or the READY data failed validation
    | Raised(e: BotError)  // an error from the bot: token fetch, unset property

  /** `data_to_payload` on the next frame: what it returns or raises, the
      frames left, and the bot's sequence after `on_dispatch`. */
  function ReceiveSpec(inbox: seq<Json>, sequence: Option<int>): (r: (Result<Payload, Fault>, seq<Json>, Option<int>))
    ensures inbox == [] ==> r == (Err(Closed), [], sequence)
    ensures inbox != [] ==> r.1 == inbox[1..] && (r.0 == Err(Malformed) <==> !inbox[0].JObj?)
    ensures r.0.Ok? && r.0.value.Dispatch? ==> r.2 == r.0.value.sequence
    ensures !(r.0.Ok? && r.0.value.Dispatch?) ==> r.2 == sequence
  {
    if inbox == [] then (Err(Closed), [], sequence)
    else match Decode(inbox[0])
      case Err(_) => (Err(Malformed), inbox[1..], sequence)
      case Ok(p) => (Ok(p), inbox[1..], if p.Dispatch? then p.sequence else sequence)
  }

  /** The event a dispatch is validated as: the class registered for its
      type, or the base event tagged with that type, and the fields it is
      validated from. */
  datatype TypedEvent = TypedEvent(cls: (string, Family), data: Fields)

  /** Which fields an event class accepts. */
  type Validator = ((string, Family), Fields) -> bool

  /** The payload's id as a JSON value. */
  function IdJson(id: Option<string>): Json {
    match id
    case Some(s) => JStr(s)
    case None => JNull
  }

  /** `{"event_id": payload.id, **payload.data}`: the dispatch's fields with
      its id under `event_id`, unless the fields carry an `event_id` of
      their own, which wins. */
  function EventFields(p: Payload): (f: Fields)
    requires p.Dispatch?
  {
    if HasKey(p.data, "event_id") then p.data else [("event_id", IdJson(p.id))] + p.data
  }

  /** The event's `event_id` is the payload's id unless the data has its
      own; every other key reads as in the data. */
  lemma EventFieldsKeys(p: Payload, key: string)
    requires p.Dispatch?
    ensures key == "event_id" && !HasKey(p.data, "event_id") ==> Get(EventFields(p), key) == Some(IdJson(p.id))
    ensures key != "event_id" || HasKey(p.data, "event_id") ==> Get(EventFields(p), key) == Get(p.data, key)
  {
  }

  /** `payload_to_event`: the class registered for the dispatch's type (the
      base event for an unknown type) validated from `EventFields`; `None`
      is the validation error it raises. `validates` says which fields a
      class accepts; the class registered under `READY` is `ReadyEvent`,
      which accepts exactly what `ReadyOf` reads. */
  function PayloadToEvent(classes: map<string, Family>, validates: Validator, p: Payload)
    : (e: Option<TypedEvent>)
    requires p.Dispatch?
    ensures e.Some? ==> e.value.cls.0 == p.eventType && e.value.data == EventFields(p)
    ensures e.Some? && p.eventType in classes ==> e.value.cls.1 == classes[p.eventType]
    ensures e.Some? && p.eventType !in classes ==> e.value.cls.1 == Base
    ensures p.eventType == "READY" ==> (e.Some? <==> ReadyOf(p.data).Some?)
    ensures p.eventType != "READY" ==> (e.Some? <==> validates(ClassFor(classes, p.eventType), EventFields(p)))
  {
    var cls := ClassFor(classes, p.eventType);
    var ok := if p.eventType == "READY" then ReadyOf(p.data).Some? else validates(cls, EventFields(p));
    if ok then Some(TypedEvent(cls, EventFields(p))) else None
  }

  /** What `dispatch_event` hands on for a dispatch: its event, or nothing
      when `payload_to_event` raises. */
  function Handed(classes: map<string, Family>, validates: Validator, p: Payload): (r: seq<TypedEvent>)
    requires p.Dispatch?
    ensures |r| <= 1
    ensures |r| == 1 <==> PayloadToEvent(classes, validates, p).Some?
    ensures |r| == 1 ==> r[0] == PayloadToEvent(classes, validates, p).value
  {
    match PayloadToEvent(classes, validates, p)
    case Some(e) => [e]
    case None => []
  }

  /** The READY event's user and session id; `None` when its data does not
      validate as a `ReadyEvent` (version, session_id, user, shard). */
  function ReadyOf(data: Fields): (r: Option<(User, string)>)
    ensures r.Some? ==> Get(data, "session_id") == Some(JStr(r.value.1))
  {
    match (Get(data, "version"), Get(data, "session_id"), Get(data, "user"), Get(data, "shard"))
    case (Some(JInt(_)), Some(JStr(sid)), Some(JObj(u)), Some(JArr(sh))) =>
      if |sh| != 2 || !sh[0].JInt? || !sh[1].JInt? then None
      else
        (match (Get(u, "id"), Get(u, "username"))
         case (Some(JStr(id)), None) => Some((User(id, None), sid))
         case (Some(JStr(id)), Some(JNull)) => Some((User(id, None), sid))
         case (Some(JStr(id)), Some(JStr(name))) => Some((User(id, Some(name)), sid))
         case _ => None)
    case _ => None
  }

  /** One websocket: the frames still to be received and the payloads
      sent so far. */
  class Socket {
    var inbox: seq<Json>
    var outbox: seq<Payload>

    constructor(frames: seq<Json>)
      ensures inbox == frames && outbox == []
    {
      inbox := frames;
      outbox := [];
    }

    /** `ws.send`; `ok` says whether the send went through. */
    method Send(p: Payload, ok: bool)
      modifies this
      ensures inbox == old(inbox)
      ensures outbox == if ok then old(outbox) + [p] else old(outbox)
    {
      if ok {
        outbox := outbox + [p];
      }
    }
  }

  /** What the adapter keeps across connections: the registered event
      classes and which fields each accepts, the connected bots and the
      events handed to handlers. */
  class Adapter {
    const classes: map<string, Family>
    const validates: Validator
    var bots: set<string>
    var handled: seq<TypedEvent>

    constructor(classes: map<string, Family>, validates: Validator)
      ensures this.classes == classes && this.validates == validates && bots == {} && handled == []
    {
      this.classes := classes;
      this.validates := validates;
      bots := {};
      handled := [];
    }
  }

  /** `receive_payload`: decode the next frame; a dispatch updates the
      bot's sequence before anything else sees it. */
  method Receive(bot: Bot, ws: Socket) returns (r: Result<Payload, Fault>)
    modifies bot, ws
    ensures (r, ws.inbox, bot.sequence) == ReceiveSpec(old(ws.inbox), old(bot.sequence))
    ensures ws.outbox == old(ws.outbox)
    ensures bot.selfInfo == old(bot.selfInfo) && bot.sessionId == old(bot.sessionId) && bot.cache == old(bot.cache)
  {
    if ws.inbox == [] {
      return Err(Closed);
    }
    var frame := ws.inbox[0];
    ws.inbox := ws.inbox[1..];
    var d := Decode(frame);
    if d.Err? {
      return Err(Malformed);
    }
    r := Ok(d.value);
    if d.value.Dispatch? {
      bot.OnDispatch(d.value.sequence);
    }
  }

  /** `_hello`: the heartbeat interval of a Hello frame; `None` for any
      other frame or a failed receive. An interval of 0 is accepted. */
  method ReceiveHello(bot: Bot, ws: Socket) returns (interval: Option<int>)
    modifies bot, ws
    ensures var (p, rest, s) := ReceiveSpec(old(ws.inbox), old(bot.sequence));
            ws.inbox == rest && bot.sequence == s
            && interval == (if p.Ok? && p.value.Hello? then Some(p.value.heartbeatInterval) else None)
    ensures ws.outbox == old(ws.outbox)
    ensures bot.selfInfo == old(bot.selfInfo) && bot.sessionId == old(bot.sessionId) && bot.cache == old(bot.cache)
  {
    var p := Receive(bot, ws);
    if p.Ok? && p.value.Hello? {
      interval := Some(p.value.heartbeatInterval);
    } else {
      interval := None;
    }
  }

  /** The authorization string `_get_authorization_header` returns, given
      the token cache and the token endpoint's reply. */
  function AuthString(info: BotInfo, c: TokenCache, now: int, reply: TokenReply): (r: Result<string, BotError>)
    ensures r.Err? <==> IsGroupBot(info) && Refresh(c, now, reply).0.Err?
    ensures r.Ok? ==> r.value == Headers(info, if IsGroupBot(info) then Refresh(c, now, reply).0.value else "")[0].1
  {
    if IsGroupBot(info) then
      match Refresh(c, now, reply).0
      case Ok(t) => Ok("QQBot " + t)
      case Err(e) => Err(e)
    else Ok("Bot " + info.id + "." + info.token)
  }

  method AuthorizationString(bot: Bot, now: int, reply: TokenReply) returns (r: Result<string, BotError>)
    modifies bot
    ensures r == AuthString(bot.info, old(bot.cache), now, reply)
    ensures IsGroupBot(bot.info) ==> bot.cache == Refresh(old(bot.cache), now, reply).1
    ensures !IsGroupBot(bot.info) ==> bot.cache == old(bot.cache)
    ensures bot.selfInfo == old(bot.selfInfo) && bot.sessionId == old(bot.sessionId) && bot.sequence == old(bot.sequence)
  {
    var h := bot.AuthorizationHeaders(now, reply);
    if h.Err? {
      return Err(h.error);
    }
    r := Ok(h.value[0].1);
  }

  /** How `_authenticate` ends: it returns `True` or `None`, or raises. */
  datatype AuthOutcome = Returned(ok: bool) | Threw(f: Fault)

  /** What `_authenticate` leaves: how it ends, the frames it sends, the
      frames left, the bot's session id, sequence, own user and token
      cache, and the events it hands on. */
  datatype AuthOut = AuthOut(r: AuthOutcome, sent: seq<Payload>, rest: seq<Json>, sessionId: Option<string>,
                             sequence: Option<int>, selfInfo: Option<User>, cache: TokenCache, events: seq<TypedEvent>)

  /** `_authenticate` as a function of the bot's state, the token
      endpoint's reply and the frames. */
  function AuthSpec(classes: map<string, Family>, validates: Validator, info: BotInfo, cache: TokenCache, now: int,
                    reply: TokenReply, inbox: seq<Json>, sessionId: Option<string>, sequence: Option<int>,
                    selfInfo: Option<User>, shard: (int, int), properties: Fields, sendOk: bool): (a: AuthOut)
    ensures a.r.Threw? || !a.r.ok ==> a.events == [] && a.sessionId == sessionId && a.selfInfo == selfInfo
    ensures a.r == Returned(true) ==> a.sessionId.Some?
    ensures a.cache == if IsGroupBot(info) then Refresh(cache, now, reply).1 else cache
  {
    var t := AuthString(info, cache, now, reply);
    var c := if IsGroupBot(info) then Refresh(cache, now, reply).1 else cache;
    if t.Err? then AuthOut(Threw(Raised(t.error)), [], inbox, sessionId, sequence, selfInfo, c, [])
    else if sessionId.Some? && sequence.None? then
      AuthOut(Threw(Raised(NotConnected)), [], inbox, sessionId, sequence, selfInfo, c, [])
    else
      var payload := if sessionId.None? then Identify(IdentifyData(t.value, ToInt(info.intent), shard, properties))
                     else Resume(ResumeData(t.value, sessionId.value, sequence.value));
      if !sendOk then AuthOut(Returned(false), [], inbox, sessionId, sequence, selfInfo, c, [])
      else if sessionId.Some? then AuthOut(Returned(true), [payload], inbox, sessionId, sequence, selfInfo, c, [])
      else
        var (p, rest, s) := ReceiveSpec(inbox, sequence);
        if p.Err? then AuthOut(Threw(p.error), [payload], rest, sessionId, s, selfInfo, c, [])
        else if !p.value.Dispatch? then AuthOut(Returned(false), [payload], rest, sessionId, s, selfInfo, c, [])
        else
          var ev := PayloadToEvent(classes, validates, p.value);
          if ev.None? then AuthOut(Threw(Malformed), [payload], rest, sessionId, s, selfInfo, c, [])
          else if p.value.eventType != "READY" then AuthOut(Returned(false), [payload], rest, sessionId, s, selfInfo, c, [])
          else
            var ready := ReadyOf(p.value.data).value;
            AuthOut(Returned(true), [payload], rest, Some(ready.1), s, Some(ready.0), c, [ev.value])
  }

  /** `_authenticate`. Without a session it sends Identify with the intent
      mask and the shard, then waits for the READY dispatch; with a session
      it sends Resume with the stored session id and sequence and does not
      wait for a reply. `properties` stands for the platform description. */
  method Authenticate(adapter: Adapter, bot: Bot, ws: Socket, shard: (int, int), properties: Fields,
                      now: int, reply: TokenReply, sendOk: bool)
    returns (r: AuthOutcome)
    modifies adapter, bot, ws
    ensures var a := AuthSpec(adapter.classes, adapter.validates, bot.info, old(bot.cache), now, reply, old(ws.inbox),
                              old(bot.sessionId), old(bot.sequence), old(bot.selfInfo), shard, properties, sendOk);
            r == a.r && ws.outbox == old(ws.outbox) + a.sent && ws.inbox == a.rest && bot.sessionId == a.sessionId
            && bot.sequence == a.sequence && bot.selfInfo == a.selfInfo && bot.cache == a.cache
            && adapter.handled == old(adapter.handled) + a.events
    // no authorization: raise before sending
    ensures AuthString(bot.info, old(bot.cache), now, reply).Err? ==>
      r == Threw(Raised(AuthString(bot.info, old(bot.cache), now, reply).error))
      && ws.outbox == old(ws.outbox) && ws.inbox == old(ws.inbox)
    // the request sent
    ensures AuthString(bot.info, old(bot.cache), now, reply).Ok? && !old(bot.Ready()) ==>
      ws.outbox == old(ws.outbox) + (if sendOk then [Identify(IdentifyData(AuthString(bot.info, old(bot.cache), now, reply).value,
                                                                           ToInt(bot.info.intent), shard, properties))]
                                     else [])
    ensures AuthString(bot.info, old(bot.cache), now, reply).Ok? && old(bot.Ready()) && old(bot.sequence).Some? ==>
      ws.outbox == old(ws.outbox) + (if sendOk then [Resume(ResumeData(AuthString(bot.info, old(bot.cache), now, reply).value,
                                                                       old(bot.sessionId).value, old(bot.sequence).value))]
                                     else [])
    // a resume without a sequence raises before sending
    ensures AuthString(bot.info, old(bot.cache), now, reply).Ok? && old(bot.Ready()) && old(bot.sequence).None? ==>
      r == Threw(Raised(NotConnected)) && ws.outbox == old(ws.outbox) && ws.inbox == old(ws.inbox)
    // a failed send returns None
    ensures AuthString(bot.info, old(bot.cache), now, reply).Ok? && !sendOk
            && !(old(bot.Ready()) && old(bot.sequence).None?) ==>
      r == Returned(false) && ws.inbox == old(ws.inbox)
    // a resume reads nothing and succeeds once sent
    ensures AuthString(bot.info, old(bot.cache), now, reply).Ok? && old(bot.Ready()) && old(bot.sequence).Some? && sendOk ==>
      r == Returned(true) && ws.inbox == old(ws.inbox)
    // an identify reads exactly one reply
    ensures AuthString(bot.info, old(bot.cache), now, reply).Ok? && !old(bot.Ready()) && sendOk ==>
      var (p, rest, s) := ReceiveSpec(old(ws.inbox), old(bot.sequence));
      ws.inbox == rest && bot.sequence == s
      && (p.Err? ==> r == Threw(p.error))
      && (p.Ok? && !p.value.Dispatch? ==> r == Returned(false))
      && (p.Ok? && p.value.Dispatch? ==>
            var ev := PayloadToEvent(adapter.classes, adapter.validates, p.value);
            (ev.None? ==> r == Threw(Malformed))
            && (ev.Some? && p.value.eventType != "READY" ==> r == Returned(false))
            && (ev.Some? && p.value.eventType == "READY" ==>
                  r == Returned(true)
                  && bot.selfInfo == Some(ReadyOf(p.value.data).value.0)
                  && bot.sessionId == Some(ReadyOf(p.value.data).value.1)
                  && adapter.handled == old(adapter.handled) + [ev.value]))
    // the session id and own user change only by a READY; the sequence only by a received dispatch
    ensures r != Returned(true) ==> bot.selfInfo == old(bot.selfInfo) && bot.sessionId == old(bot.sessionId)
    ensures old(bot.Ready()) ==> bot.sequence == old(bot.sequence) && bot.sessionId == old(bot.sessionId)
    ensures r == Returned(true) ==> bot.Ready() && adapter.bots == old(adapter.bots) + {bot.info.id}
    ensures r == Returned(true) && old(bot.Ready()) ==> adapter.handled == old(adapter.handled)
    ensures r != Returned(true) ==> adapter.bots == old(adapter.bots) && adapter.handled == old(adapter.handled)
  {
    var wasReady := bot.sessionId.Some?;
    var token := AuthorizationString(bot, now, reply);
    if token.Err? {
      return Threw(Raised(token.error));
    }
    var payload;
    if !wasReady {
      payload := Identify(IdentifyData(token.value, ToInt(bot.info.intent), shard, properties));
    } else if bot.sequence.None? {
      // reading `bot.sequence` raises
      return Threw(Raised(NotConnected));
    } else {
      payload := Resume(ResumeData(token.value, bot.sessionId.value, bot.sequence.value));
    }
    ws.Send(payload, sendOk);
    if !sendOk {
      return Returned(false);
    }
    var ready: Option<TypedEvent> := None;
    if !wasReady {
      var p := Receive(bot, ws);
      if p.Err? {
        return Threw(p.error);
      }
      if p.value.InvalidSession? || !p.value.Dispatch? {
        return Returned(false);
      }
      var ev := PayloadToEvent(adapter.classes, adapter.validates, p.value);
      if ev.None? {
        return Threw(Malformed);
      }
      if p.value.eventType != "READY" {
        return Returned(false);
      }
      var info := ReadyOf(p.value.data);
      bot.OnReady(info.value.0, info.value.1);
      ready := ev;
    }
    adapter.bots := adapter.bots + {bot.info.id};
    if ready.Some? {
      adapter.handled := adapter.handled + [ready.value];
    }
    r := Returned(true);
  }

  /** How the receive loop ends. */
  datatype LoopEnd = Reconnected | Invalidated | Failed(f: Fault)

  /** The receive loop over the frames `inbox`: how it ends, the frames
      left, the session id and sequence it leaves, and the events it
      hands on, in order. */
  datatype LoopOut = LoopOut(end: LoopEnd, rest: seq<Json>, sessionId: Option<string>, sequence: Option<int>,
                             events: seq<TypedEvent>)

  /** `_loop` as a function of the frames. A dispatch stores its sequence
      whether or not its event validates; one that does not is dropped. */
  function LoopSpec(classes: map<string, Family>, validates: Validator, inbox: seq<Json>, sessionId: Option<string>, sequence: Option<int>)
    : (o: LoopOut)
    ensures |o.rest| <= |inbox| && o.rest == inbox[|inbox| - |o.rest|..]
    ensures o.end.Failed? && o.end.f == Closed <==> o.rest == [] && o.end.Failed? && o.end.f != Malformed
    decreases |inbox|
  {
    if inbox == [] then LoopOut(Failed(Closed), [], sessionId, sequence, [])
    else
      var d := Decode(inbox[0]);
      if d.Err? then LoopOut(Failed(Malformed), inbox[1..], sessionId, sequence, [])
      else if d.value.Dispatch? then
        var o := LoopSpec(classes, validates, inbox[1..], sessionId, d.value.sequence);
        o.(events := Handed(classes, validates, d.value) + o.events)
      else if d.value.Reconnect? then LoopOut(Reconnected, inbox[1..], sessionId, sequence, [])
      else if d.value.InvalidSession? then LoopOut(Invalidated, inbox[1..], None, None, [])
      else LoopSpec(classes, validates, inbox[1..], sessionId, sequence)
  }

  /** `_loop`: receive until a Reconnect, an InvalidSession (which resets
      the session) or a failure; every dispatch whose event validates is
      handed on. */
  method Loop(adapter: Adapter, bot: Bot, ws: Socket) returns (end: LoopEnd)
    modifies adapter, bot, ws
    ensures var o := LoopSpec(adapter.classes, adapter.validates, old(ws.inbox), old(bot.sessionId), old(bot.sequence));
            end == o.end && ws.inbox == o.rest && bot.sessionId == o.sessionId && bot.sequence == o.sequence
            && adapter.handled == old(adapter.handled) + o.events
    ensures bot.selfInfo == old(bot.selfInfo) && bot.cache == old(bot.cache)
    ensures adapter.bots == old(adapter.bots) && ws.outbox == old(ws.outbox)
  {
    ghost var total := LoopSpec(adapter.classes, adapter.validates, ws.inbox, bot.sessionId, bot.sequence);
    ghost var handled0 := adapter.handled;
    var stop: Option<LoopEnd> := None;
    while stop.None?
      invariant stop.None? ==> LoopInv(adapter.classes, adapter.validates, ws.inbox, bot.sessionId, bot.sequence, total, handled0, adapter.handled)
      invariant stop.Some? ==> LoopDone(stop.value, ws.inbox, bot.sessionId, bot.sequence, total, handled0, adapter.handled)
      invariant bot.selfInfo == old(bot.selfInfo) && bot.cache == old(bot.cache)
      invariant adapter.bots == old(adapter.bots) && ws.outbox == old(ws.outbox)
      decreases |ws.inbox| + (if stop.None? then 1 else 0)
    {
      ghost var inbox, sid, sq, handled := ws.inbox, bot.sessionId, bot.sequence, adapter.handled;
      LoopAdvance(adapter.classes, adapter.validates, inbox, sid, sq, total, handled0, handled);
      var p := Receive(bot, ws);
      if p.Err? {
        stop := Some(Failed(p.error));
      } else {
        var payload := p.value;
        if payload.Dispatch? {
          adapter.handled := adapter.handled + Handed(adapter.classes, adapter.validates, payload);
        } else if payload.Reconnect? {
          stop := Some(Reconnected);
        } else if payload.InvalidSession? {
          bot.Reset();
          stop := Some(Invalidated);
        }
      }
    }
    end := stop.value;
  }

  /** The loop has ended as the whole loop does. */
  ghost predicate LoopDone(end: LoopEnd, inbox: seq<Json>, sessionId: Option<string>, sequence: Option<int>,
                           total: LoopOut, handled0: seq<TypedEvent>, handled: seq<TypedEvent>)
  {
    end == total.end && inbox == total.rest && sessionId == total.sessionId && sequence == total.sequence
    && handled == handled0 + total.events
  }

  /** The loop so far and the loop still to run make up the whole loop. */
  ghost predicate LoopInv(classes: map<string, Family>, validates: Validator, inbox: seq<Json>, sessionId: Option<string>, sequence: Option<int>,
                          total: LoopOut, handled0: seq<TypedEvent>, handled: seq<TypedEvent>)
  {
    var o := LoopSpec(classes, validates, inbox, sessionId, sequence);
    o.end == total.end && o.rest == total.rest && o.sessionId == total.sessionId
    && o.sequence == total.sequence && handled + o.events == handled0 + total.events
  }

  /** One turn of the loop keeps `LoopInv`, or ends it where `LoopSpec`
      ends. */
  lemma LoopAdvance(classes: map<string, Family>, validates: Validator, inbox: seq<Json>, sessionId: Option<string>, sequence: Option<int>,
                    total: LoopOut, handled0: seq<TypedEvent>, handled: seq<TypedEvent>)
    requires LoopInv(classes, validates, inbox, sessionId, sequence, total, handled0, handled)
    ensures var (r, rest, s) := ReceiveSpec(inbox, sequence);
            (r.Err? ==> LoopDone(Failed(r.error), rest, sessionId, s, total, handled0, handled))
            && (r.Ok? && r.value.Dispatch? ==>
                  LoopInv(classes, validates, rest, sessionId, s, total, handled0, handled + Handed(classes, validates, r.value)))
            && (r.Ok? && r.value.Reconnect? ==> LoopDone(Reconnected, rest, sessionId, s, total, handled0, handled))
            && (r.Ok? && r.value.InvalidSession? ==> LoopDone(Invalidated, rest, None, None, total, handled0, handled))
            && (r.Ok? && !r.value.Dispatch? && !r.value.Reconnect? && !r.value.InvalidSession? ==>
                  LoopInv(classes, validates, rest, sessionId, s, total, handled0, handled))
  {
    var (r, rest, s) := ReceiveSpec(inbox, sequence);
    if r.Ok? && r.value.Dispatch? {
      var o := LoopSpec(classes, validates, rest, sessionId, s);
      assert handled + Handed(classes, validates, r.value) + o.events == handled + (Handed(classes, validates, r.value) + o.events);
    } else if r.Err? || r.value.Reconnect? || r.value.InvalidSession? {
      assert handled + [] == handled;
    }
  }

  /** The events of the dispatches among `frames` that validate, in
      order. */
  function Dispatched(classes: map<string, Family>, validates: Validator, frames: seq<Json>): seq<TypedEvent> {
    if frames == [] then []
    else
      var d := Decode(frames[0]);
      (if d.Ok? && d.value.Dispatch? then Handed(classes, validates, d.value) else [])
      + Dispatched(classes, validates, frames[1..])
  }

  /** The sequence number left by the dispatches among `frames`, read from
      the last frame back: that of the last dispatch, or `start`. */
  function LastSequence(frames: seq<Json>, start: Option<int>): Option<int>
    decreases |frames|
  {
    if frames == [] then start
    else
      var d := Decode(frames[|frames| - 1]);
      if d.Ok? && d.value.Dispatch? then d.value.sequence else LastSequence(frames[..|frames| - 1], start)
  }

  lemma {:induction false} LastSequenceCons(f: Json, frames: seq<Json>, start: Option<int>)
    ensures LastSequence([f] + frames, start) == LastSequence(frames, ReceiveSpec([f], start).2)
    decreases |frames|
  {
    if frames == [] {
      assert [f] + frames == [f];
      assert [f][..0] == [];
    } else {
      assert ([f] + frames)[..|frames|] == [f] + frames[..|frames| - 1];
      LastSequenceCons(f, frames[..|frames| - 1], start);
    }
  }

  /** The frames the loop consumed. */
  function Consumed(classes: map<string, Family>, validates: Validator, inbox: seq<Json>, sessionId: Option<string>, sequence: Option<int>)
    : seq<Json>
  {
    inbox[..|inbox| - |LoopSpec(classes, validates, inbox, sessionId, sequence).rest|]
  }

  /** One frame that does not end the loop: what follows is the loop on
      the remaining frames. */
  lemma ConsumedStep(classes: map<string, Family>, validates: Validator, inbox: seq<Json>, sessionId: Option<string>, sequence: Option<int>)
    requires inbox != [] && Decode(inbox[0]).Ok?
    requires var p := Decode(inbox[0]).value; !p.Reconnect? && !p.InvalidSession?
    ensures var s := ReceiveSpec(inbox, sequence).2;
            Consumed(classes, validates, inbox, sessionId, sequence) == [inbox[0]] + Consumed(classes, validates, inbox[1..], sessionId, s)
  {
    var s := ReceiveSpec(inbox, sequence).2;
    var o' := LoopSpec(classes, validates, inbox[1..], sessionId, s);
    assert LoopSpec(classes, validates, inbox, sessionId, sequence).rest == o'.rest;
    assert inbox[..|inbox| - |o'.rest|] == [inbox[0]] + inbox[1..][..|inbox| - 1 - |o'.rest|];
  }

  /** The session the loop leaves: the session id survives everything but
      InvalidSession, which also clears the sequence; otherwise the
      sequence is that of the last consumed dispatch. */
  lemma {:induction false} LoopSession(classes: map<string, Family>, validates: Validator, inbox: seq<Json>, sessionId: Option<string>,
                                       sequence: Option<int>)
    ensures var o := LoopSpec(classes, validates, inbox, sessionId, sequence);
            (o.end != Invalidated ==> o.sessionId == sessionId
                                      && o.sequence == LastSequence(Consumed(classes, validates, inbox, sessionId, sequence), sequence))
            && (o.end == Invalidated ==> o.sessionId.None? && o.sequence.None?)
    decreases |inbox|
  {
    if inbox != [] {
      var d := Decode(inbox[0]);
      var s := ReceiveSpec(inbox, sequence).2;
      if d.Ok? && !d.value.Reconnect? && !d.value.InvalidSession? {
        LoopSession(classes, validates, inbox[1..], sessionId, s);
        ConsumedStep(classes, validates, inbox, sessionId, sequence);
        LastSequenceCons(inbox[0], Consumed(classes, validates, inbox[1..], sessionId, s), sequence);
      } else {
        assert Consumed(classes, validates, inbox, sessionId, sequence) == [inbox[0]];
        assert [inbox[0]][..0] == [];
      }
    }
  }

  /** The events the loop hands on are exactly the consumed dispatches. */
  lemma {:induction false} LoopEvents(classes: map<string, Family>, validates: Validator, inbox: seq<Json>, sessionId: Option<string>,
                                      sequence: Option<int>)
    ensures LoopSpec(classes, validates, inbox, sessionId, sequence).events == Dispatched(classes, validates, Consumed(classes, validates, inbox, sessionId, sequence))
    decreases |inbox|
  {
    if inbox != [] {
      var d := Decode(inbox[0]);
      var s := ReceiveSpec(inbox, sequence).2;
      if d.Ok? && !d.value.Reconnect? && !d.value.InvalidSession? {
        LoopEvents(classes, validates, inbox[1..], sessionId, s);
        ConsumedStep(classes, validates, inbox, sessionId, sequence);
        var c := Consumed(classes, validates, inbox[1..], sessionId, s);
        assert ([inbox[0]] + c)[1..] == c;
      } else {
        assert Consumed(classes, validates, inbox, sessionId, sequence) == [inbox[0]];
        assert [inbox[0]][1..] == [];
      }
    }
  }

  /** After a Reconnect the next handshake resumes with the kept session;
      after an InvalidSession it identifies. */
  lemma ReconnectKeepsSession(classes: map<string, Family>, validates: Validator, inbox: seq<Json>, sessionId: Option<string>,
                              sequence: Option<int>)
    ensures LoopSpec(classes, validates, inbox, sessionId, sequence).end == Reconnected ==>
      LoopSpec(classes, validates, inbox, sessionId, sequence).sessionId == sessionId
    ensures LoopSpec(classes, validates, inbox, sessionId, sequence).end == Invalidated ==>
      LoopSpec(classes, validates, inbox, sessionId, sequence).sessionId.None?
      && LoopSpec(classes, validates, inbox, sessionId, sequence).sequence.None?
  {
    LoopSession(classes, validates, inbox, sessionId, sequence);
  }

  /** What one heartbeat tick sends: nothing while not ready, the current
      sequence while ready; an unset sequence raises. */
  function HeartbeatFrame(sessionId: Option<string>, sequence: Option<int>): (r: Result<Option<Payload>, BotError>)
    ensures r == Ok(None) <==> sessionId.None?
    ensures r.Err? <==> sessionId.Some? && sequence.None?
    ensures r.Ok? && r.value.Some? ==> r.value.value == Heartbeat(sequence.value)
  {
    if sessionId.None? then Ok(None)
    else if sequence.None? then Err(NotConnected)
    else Ok(Some(Heartbeat(sequence.value)))
  }

  /** One pass of `_heartbeat`; a failed send is ignored. */
  method HeartbeatTick(bot: Bot, ws: Socket, sendOk: bool) returns (r: Result<Option<Payload>, BotError>)
    modifies ws
    ensures r == HeartbeatFrame(bot.sessionId, bot.sequence)
    ensures ws.inbox == old(ws.inbox)
    ensures ws.outbox == if r.Ok? && r.value.Some? && sendOk then old(ws.outbox) + [r.value.value] else old(ws.outbox)
  {
    if bot.Ready() {
      var s := bot.Sequence();
      if s.Err? {
        return Err(s.error);
      }
      r := Ok(Some(Heartbeat(s.value)));
      ws.Send(r.value.value, sendOk);
    } else {
      r := Ok(None);
    }
  }

  /** How one pass of `_forward_ws` ends. */
  datatype ConnectEnd = NoHello | NotAuthenticated | AuthRaised(f: Fault) | LoopEnded(end: LoopEnd)

  /** One pass of `_forward_ws`: hello, handshake, then the receive loop;
      however it ends, the bot is disconnected. */
  method Connect(adapter: Adapter, bot: Bot, ws: Socket, shard: (int, int), properties: Fields,
                 now: int, reply: TokenReply, sendOk: bool)
    returns (r: ConnectEnd)
    modifies adapter, bot, ws
    ensures bot.info.id !in adapter.bots
    ensures r.LoopEnded? && r.end == Reconnected ==> bot.Ready()
    ensures r.LoopEnded? && r.end == Invalidated ==> !bot.Ready() && bot.sequence.None?
    ensures r == NoHello <==> !(ReceiveSpec(old(ws.inbox), old(bot.sequence)).0.Ok?
                                && ReceiveSpec(old(ws.inbox), old(bot.sequence)).0.value.Hello?)
    ensures r == NoHello ==> bot.sessionId == old(bot.sessionId) && bot.selfInfo == old(bot.selfInfo)
                             && ws.outbox == old(ws.outbox) && adapter.handled == old(adapter.handled)
                             && ws.inbox == ReceiveSpec(old(ws.inbox), old(bot.sequence)).1
                             && bot.sequence == ReceiveSpec(old(ws.inbox), old(bot.sequence)).2
    ensures r != NoHello ==>
      var a := AuthSpec(adapter.classes, adapter.validates, bot.info, old(bot.cache), now, reply,
                        ReceiveSpec(old(ws.inbox), old(bot.sequence)).1, old(bot.sessionId), old(bot.sequence),
                        old(bot.selfInfo), shard, properties, sendOk);
      ws.outbox == old(ws.outbox) + a.sent && bot.selfInfo == a.selfInfo && bot.cache == a.cache
      && (a.r.Threw? ==> r == AuthRaised(a.r.f))
      && (a.r == Returned(false) ==> r == NotAuthenticated)
      && (a.r != Returned(true) ==> ws.inbox == a.rest && bot.sessionId == a.sessionId && bot.sequence == a.sequence
                                    && adapter.handled == old(adapter.handled))
      && (a.r == Returned(true) ==>
            var o := LoopSpec(adapter.classes, adapter.validates, a.rest, a.sessionId, a.sequence);
            r == LoopEnded(o.end) && ws.inbox == o.rest && bot.sessionId == o.sessionId && bot.sequence == o.sequence
            && adapter.handled == old(adapter.handled) + a.events + o.events)
  {
    var interval := ReceiveHello(bot, ws);
    if interval.None? {
      r := NoHello;
    } else {
      var a := Authenticate(adapter, bot, ws, shard, properties, now, reply, sendOk);
      if a.Threw? {
        r := AuthRaised(a.f);
      } else if !a.ok {
        r := NotAuthenticated;
      } else {
        ghost var inbox, sid, sequence := ws.inbox, bot.sessionId, bot.sequence;
        var end := Loop(adapter, bot, ws);
        ReconnectKeepsSession(adapter.classes, adapter.validates, inbox, sid, sequence);
        r := LoopEnded(end);
      }
    }
    adapter.bots := adapter.bots - {bot.info.id};
  }

  /** `shards or 1`. */
  function ShardCount(shards: int): int {
    if shards == 0 then 1 else shards
  }

  /** The shard pairs `run_bot_websocket` opens connections for; `None`
      when the session start limit is exhausted (a non-zero `remaining`
      that is not positive). */
  method PlanShards(remaining: int, configured: Option<(int, int)>, shards: int) returns (r: Option<seq<(int, int)>>)
    ensures r.None? <==> remaining != 0 && remaining <= 0
    ensures r.Some? && configured.Some? ==> r.value == [configured.value]
    ensures r.Some? && configured.None? ==>
      |r.value| == (if ShardCount(shards) < 0 then 0 else ShardCount(shards))
      && forall i :: 0 <= i < |r.value| ==> r.value[i] == (i, ShardCount(shards))
  {
    if remaining != 0 && remaining <= 0 {
      return None;
    }
    if configured.Some? {
      return Some([configured.value]);
    }
    var n := ShardCount(shards);
    var plan: seq<(int, int)> := [];
    for i := 0 to (if n < 0 then 0 else n)
      invariant |plan| == i
      invariant forall j :: 0 <= j < i ==> plan[j] == (j, n)
    {
      plan := plan + [(i, n)];
    }
    r := Some(plan);
  }

  /** `_get_ed25519_key`'s seed: the secret's bytes repeated until there
      are at least 32, cut to 32: it starts with the secret and repeats
      with the secret's length as period. An empty secret never ends the
      loop. */
  method Ed25519Seed(secret: seq<Byte>) returns (seed: seq<Byte>)
    requires |secret| > 0
    ensures |seed| == 32
    ensures forall i :: 0 <= i < 32 && i < |secret| ==> seed[i] == secret[i]
    ensures forall i :: 0 <= i && i + |secret| < 32 ==> seed[i + |secret|] == seed[i]
  {
    var n := |secret|;
    var grown := secret;
    while |grown| < 32
      invariant |grown| >= n && grown[..n] == secret && grown[|grown| - n..] == secret
      invariant forall i :: 0 <= i && i + n < |grown| ==> grown[i + n] == grown[i]
      decreases 32 - |grown|
    {
      ghost var before := grown;
      grown := grown + secret;
      assert grown[..n] == secret by { assert grown[..n] == before[..n]; }
      forall i | 0 <= i && i + n < |grown|
        ensures grown[i + n] == grown[i]
      {
        if i + n >= |before| {
          assert grown[i + n] == secret[i + n - |before|];
          assert grown[i] == before[|before| - n..][i + n - |before|];
        }
      }
    }
    seed := grown[..32];
  }

  /** The webhook signature's shape test: 64 bytes, and the top three bits
      of the last one clear. */
  predicate SignatureShapeOk(sig: seq<Byte>) {
    |sig| == 64 && (sig[63] as bv8) & 0xE0 == 0
  }

  /** The top three bits of a byte are clear exactly when it is below 32. */
  lemma {:induction false} SignatureShape(sig: seq<Byte>)
    ensures SignatureShapeOk(sig) <==> |sig| == 64 && sig[63] < 32
  {
    if |sig| == 64 {
      var b := sig[63] as bv8;
      assert (b & 0xE0 == 0) <==> b < 32;
    }
  }

  /** The digit for a nibble, lower case as `binascii.hexlify` writes. */
  function HexDigit(n: int): (c: char)
    requires 0 <= n < 16
  {
    if n < 10 then ('0' as int + n) as char else ('a' as int + n - 10) as char
  }

  /** The value of a hex digit of either case. */
  function HexValue(c: char): (r: Option<int>)
    ensures r.Some? ==> 0 <= r.value < 16
  {
    if '0' <= c <= '9' then Some(c as int - '0' as int)
    else if 'a' <= c <= 'f' then Some(c as int - 'a' as int + 10)
    else if 'A' <= c <= 'F' then Some(c as int - 'A' as int + 10)
    else None
  }

  /** `binascii.hexlify(b).decode()`. */
  function Hexlify(b: seq<Byte>): (s: string)
    ensures |s| == 2 * |b|
  {
    if b == [] then "" else [HexDigit(b[0] / 16), HexDigit(b[0] % 16)] + Hexlify(b[1..])
  }

  /** `binascii.unhexlify(s)`; `None` where it raises (odd length or a
      character that is not a hex digit). */
  function Unhexlify(s: string): (r: Option<seq<Byte>>)
    ensures r.Some? ==> 2 * |r.value| == |s|
    decreases |s|
  {
    if s == [] then Some([])
    else if |s| == 1 then None
    else match (HexValue(s[0]), HexValue(s[1]), Unhexlify(s[2..]))
      case (Some(hi), Some(lo), Some(rest)) => Some([hi * 16 + lo] + rest)
      case _ => None
  }

  /** The hex signature the webhook verification answers with decodes back
      to the signature. */
  lemma {:induction false} UnhexlifyHexlify(b: seq<Byte>)
    ensures Unhexlify(Hexlify(b)) == Some(b)
  {
    if b != [] {
      var s := Hexlify(b);
      assert s[2..] == Hexlify(b[1..]);
      UnhexlifyHexlify(b[1..]);
      assert HexValue(s[0]) == Some(b[0] / 16);
      assert HexValue(s[1]) == Some(b[0] % 16);
      assert [b[0]] + b[1..] == b;
    }
  }

  /** `_webhook_verify`'s answer to a validation request: status 200, the
      plain token, and in hex the signature over `event_ts` followed by the
      plain token. `sign` stands for signing with the bot's Ed25519 key,
      whose seed is `Ed25519Seed`. */
  function WebhookVerifyReply(p: Payload, sign: string -> seq<Byte>): (r: (int, Fields))
    requires p.WebhookVerify?
    ensures r.0 == 200
    ensures Get(r.1, "plain_token") == Some(JStr(p.plainToken))
    ensures match Get(r.1, "signature")
            case Some(JStr(h)) => Unhexlify(h) == Some(sign(p.eventTs + p.plainToken))
            case _ => false
  {
    var signature := sign(p.eventTs + p.plainToken);
    UnhexlifyHexlify(signature);
    var f := [("plain_token", JStr(p.plainToken)), ("signature", JStr(Hexlify(signature)))];
    assert f[1..][0].0 == "signature";
    assert Get(f, "signature") == Some(JStr(Hexlify(signature)));
    (200, f)
  }

  /** What `_check_signature` decides before handing over to the Ed25519
      library: a response status, an exception, or the signature and
      message to verify. */
  datatype SignatureCheck = Reject(status: int) | Crash | Verify(sig: seq<Byte>, msg: string)

  function CheckSignature(signature: Option<string>, timestamp: Option<string>, content: Option<string>)
    : (r: SignatureCheck)
    ensures (signature.None? || signature == Some("") || timestamp.None? || timestamp == Some("")) ==> r == Reject(403)
    ensures signature.Some? && signature != Some("") && timestamp.Some? && timestamp != Some("") && content.None?
            ==> r == Reject(400)
    ensures r.Verify? ==> SignatureShapeOk(r.sig) && content.Some? && timestamp.Some?
                          && r.msg == timestamp.value + content.value
                          && Unhexlify(signature.value) == Some(r.sig)
    ensures r == Crash <==> signature.Some? && signature != Some("") && timestamp.Some? && timestamp != Some("")
                            && content.Some? && Unhexlify(signature.value).None?
    ensures signature.Some? && signature != Some("") && timestamp.Some? && timestamp != Some("")
            && content.Some? && Unhexlify(signature.value).Some?
            ==> r == (if SignatureShapeOk(Unhexlify(signature.value).value)
                      then Verify(Unhexlify(signature.value).value, timestamp.value + content.value)
                      else Reject(403))
  {
    if signature.None? || signature.value == "" || timestamp.None? || timestamp.value == "" then Reject(403)
    else if content.None? then Reject(400)
    else match Unhexlify(signature.value)
      case None => Crash
      case Some(sig) => if !SignatureShapeOk(sig) then Reject(403) else Verify(sig, timestamp.value + content.value)
  }
}
