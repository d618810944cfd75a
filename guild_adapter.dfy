/** The stand-alone qqguild adapter's gateway client
    (`packages/nonebot-adapter-qqguild/.../adapter.py`): the hello check,
    the identify/resume handshake, the receive loop, the heartbeat, the
    shard plan and turning a dispatch into an event. As in the qq adapter's
    model, the socket is a list of received frames (running out of frames
    is the socket closing) and a list of sent payloads, and whether a send
    succeeds is a parameter. Unlike the qq adapter, the sequence number is
    only ever set to a received one, so a held session always comes with a
    sequence and a resume never fails on reading it. */
module GuildAdapter {
  import opened Wrappers
  import opened Json
  import opened GuildConfig
  import opened GuildPayload
  import opened GuildBot

  /** Why a connection step stopped by raising. */
  datatype Fault =
    | Closed               // WebSocketClosed: no frame left
    | Malformed            // the frame or the event data failed validation
    | Unexpected           // a failed `assert isinstance(...)`
    | Raised(e: BotError)  // reading an unset session property

  /** `receive_payload` on the next frame: what it returns or raises, and
      the frames left. Receiving does not touch the bot. */
  function ReceiveSpec(inbox: seq<Json>): (r: (Result<Payload, Fault>, seq<Json>))
    ensures inbox == [] ==> r == (Err(Closed), [])
    ensures inbox != [] ==> r.1 == inbox[1..] && (r.0 == Err(Malformed) <==> !inbox[0].JObj?)
    ensures r.0.Ok? ==> r.0.value == Decode(inbox[0]).value
  {
    if inbox == [] then (Err(Closed), [])
    else match Decode(inbox[0])
      case Err(_) => (Err(Malformed), inbox[1..])
      case Ok(p) => (Ok(p), inbox[1..])
  }

  /** An event as validated: the class chosen for its type, the type, and
      the data. */
  datatype GuildEvent = GuildEvent(cls: string, eventType: string, data: Fields)

  /** `User` validation: `id` an integer or absent, `username` a string or
      absent (null counts as absent). */
  function UserOf(u: Fields): (r: Option<User>)
    ensures r.Some? ==> (r.value.id.Some? <==> Get(u, "id").Some? && Get(u, "id").value.JInt?)
  {
    var id := Get(u, "id");
    var name := Get(u, "username");
    if !(id.None? || id == Some(JNull) || id.value.JInt?) then None
    else if !(name.None? || name == Some(JNull) || name.value.JStr?) then None
    else Some(User(if id.Some? && id.value.JInt? then Some(id.value.n) else None,
                   if name.Some? && name.value.JStr? then Some(name.value.s) else None))
  }

  /** The READY event's user and session id; `None` when its data does not
      validate as a `ReadyEvent` (version, session_id, user, shard pair). */
  function ReadyOf(data: Fields): (r: Option<(User, string)>)
    ensures r.Some? ==> Get(data, "session_id") == Some(JStr(r.value.1))
    ensures r.Some? ==> Get(data, "version").Some? && Get(data, "version").value.JInt?
  {
    match (Get(data, "version"), Get(data, "session_id"), Get(data, "user"), Get(data, "shard"))
    case (Some(JInt(_)), Some(JStr(sid)), Some(JObj(u)), Some(JArr(sh))) =>
      if |sh| != 2 || !sh[0].JInt? || !sh[1].JInt? then None
      else (match UserOf(u)
            case Some(user) => Some((user, sid))
            case None => None)
    case _ => None
  }

  /** The name of the class registered for an event type, the base `Event`
      when none is. */
  function ClassName(classes: map<string, string>, eventType: string): (c: string)
    ensures eventType in classes ==> c == classes[eventType]
    ensures eventType !in classes ==> c == "Event"
  {
    if eventType in classes then classes[eventType] else "Event"
  }

  /** `payload_to_event`: validate the data as the class registered for
      the type, or as the base event tagged with the type; `None` where
      validation raises. A `ReadyEvent` validates exactly when `ReadyOf`
      finds its fields; any other class's validation is `validates`. */
  function ParseEvent(classes: map<string, string>, validates: (string, Fields) -> bool, p: Payload)
    : (r: Option<GuildEvent>)
    requires p.Dispatch?
    ensures r.Some? ==> r.value == GuildEvent(ClassName(classes, p.eventType), p.eventType, p.data)
    ensures ClassName(classes, p.eventType) == "ReadyEvent" ==> (r.Some? <==> ReadyOf(p.data).Some?)
    ensures ClassName(classes, p.eventType) != "ReadyEvent" ==>
              (r.Some? <==> validates(ClassName(classes, p.eventType), p.data))
  {
    var cls := ClassName(classes, p.eventType);
    var ok := if cls == "ReadyEvent" then ReadyOf(p.data).Some? else validates(cls, p.data);
    if ok then Some(GuildEvent(cls, p.eventType, p.data)) else None
  }

  /** One websocket: the frames still to be received and the payloads
      sent so far. */
  class Socket {
    var inbox: seq<Json>
    var outbox: seq<Payload>

    constructor(frames: seq<Json>)
      ensures inbox == frames && outbox == []
    {
      inbox := frames;
      outbox := [];
    }

    /** `ws.send`; `ok` says whether the send went through. */
    method Send(p: Payload, ok: bool)
      modifies this
      ensures inbox == old(inbox)
      ensures outbox == if ok then old(outbox) + [p] else old(outbox)
    {
      if ok {
        outbox := outbox + [p];
      }
    }
  }

  /** What the adapter keeps across connections: the event classes by
      type, the validation of the classes other than `ReadyEvent`, the
      connected bots and the events handed to handlers. */
  class Adapter {
    const classes: map<string, string>
    const validates: (string, Fields) -> bool
    var bots: set<string>
    var handled: seq<GuildEvent>

    constructor(classes: map<string, string>, validates: (string, Fields) -> bool)
      ensures this.classes == classes && this.validates == validates && bots == {} && handled == []
    {
      this.classes := classes;
      this.validates := validates;
      bots := {};
      handled := [];
    }
  }

  /** `receive_payload`. */
  method Receive(ws: Socket) returns (r: Result<Payload, Fault>)
    modifies ws
    ensures r == ReceiveSpec(old(ws.inbox)).0 && ws.inbox == ReceiveSpec(old(ws.inbox)).1
    ensures ws.outbox == old(ws.outbox)
  {
    if ws.inbox == [] {
      return Err(Closed);
    }
    var frame := ws.inbox[0];
    ws.inbox := ws.inbox[1..];
    var d := Decode(frame);
    if d.Err? {
      return Err(Malformed);
    }
    r := Ok(d.value);
  }

  /** The heartbeat interval the first frame announces, if it is a Hello. */
  function HelloOf(inbox: seq<Json>): (r: Option<int>)
    ensures r.Some? ==> inbox != [] && Decode(inbox[0]).Ok? && Decode(inbox[0]).value.Hello?
    ensures inbox != [] && Decode(inbox[0]).Ok? && Decode(inbox[0]).value.Hello? ==>
              r == Some(Decode(inbox[0]).value.heartbeatInterval)
  {
    match ReceiveSpec(inbox).0
    case Ok(Hello(n, _)) => Some(n)
    case _ => None
  }

  /** `_hello`: the interval of a Hello frame, `None` for any other frame
      or a failed receive. */
  method ReceiveHello(ws: Socket) returns (interval: Option<int>)
    modifies ws
    ensures interval == HelloOf(old(ws.inbox)) && ws.inbox == ReceiveSpec(old(ws.inbox)).1
    ensures ws.outbox == old(ws.outbox)
  {
    var p := Receive(ws);
    if p.Ok? && p.value.Hello? {
      interval := Some(p.value.heartbeatInterval);
    } else {
      interval := None;
    }
  }

  /** `get_authorization`. */
  function Authorization(info: BotInfo): (r: string)
    ensures |r| == 5 + |info.id| + |info.token| && r[..4] == "Bot "
    ensures r[4..4 + |info.id|] == info.id && r[4 + |info.id|] == '.' && r[5 + |info.id|..] == info.token
  {
    "Bot " + info.id + "." + info.token
  }

  /** The session a resume needs: a held session id comes with a held
      sequence. */
  predicate SessionSound(sessionId: Option<string>, sequence: Option<int>) {
    sessionId.Some? ==> sequence.Some?
  }

  /** The frame `_authenticate` sends: Identify without a session, Resume
      with the stored session id and sequence otherwise; reading an unset
      sequence raises. */
  function Handshake(info: BotInfo, sessionId: Option<string>, sequence: Option<int>, shard: (int, int),
                     properties: Fields): (r: Result<Payload, Fault>)
    ensures r.Err? <==> !SessionSound(sessionId, sequence)
    ensures r.Err? ==> r.error == Raised(NotConnected)
    ensures r.Ok? && sessionId.None? ==>
              r.value.Identify? && r.value.identify.shard == shard && r.value.identify.intents == ToInt(info.intent)
    ensures r.Ok? && sessionId.Some? ==>
              r.value.Resume? && r.value.resume.sessionId == sessionId.value && r.value.resume.seqNo == sequence.value
    ensures r.Ok? ==> (r.value.Identify? && r.value.identify.token == Authorization(info))
                      || (r.value.Resume? && r.value.resume.token == Authorization(info))
  {
    if sessionId.None? then Ok(Identify(IdentifyData(Authorization(info), ToInt(info.intent), shard, properties)))
    else if sequence.None? then Err(Raised(NotConnected))
    else Ok(Resume(ResumeData(Authorization(info), sessionId.value, sequence.value)))
  }

  /** How `_authenticate` ends: it returns `True` or `None`, or raises. */
  datatype AuthOutcome = Returned(ok: bool) | Threw(f: Fault)

  /** What `_authenticate` leaves: how it ends, the frames it sends, the
      frames left, the bot's session id, sequence and own user, and the
      events it hands on. */
  datatype AuthOut = AuthOut(r: AuthOutcome, sent: seq<Payload>, rest: seq<Json>, sessionId: Option<string>,
                             sequence: Option<int>, selfInfo: Option<User>, events: seq<GuildEvent>)

  /** `_authenticate` as a function of the bot's session and the frames. */
  function AuthSpec(classes: map<string, string>, validates: (string, Fields) -> bool, info: BotInfo, inbox: seq<Json>,
                    sessionId: Option<string>, sequence: Option<int>, selfInfo: Option<User>, shard: (int, int),
                    properties: Fields, sendOk: bool): (a: AuthOut)
    ensures a.r.Threw? || !a.r.ok ==> a.events == [] && a.sessionId == sessionId && a.selfInfo == selfInfo
    ensures a.r == Returned(true) ==> a.sessionId.Some?
  {
    var h := Handshake(info, sessionId, sequence, shard, properties);
    if h.Err? then AuthOut(Threw(h.error), [], inbox, sessionId, sequence, selfInfo, [])
    else if !sendOk then AuthOut(Returned(false), [], inbox, sessionId, sequence, selfInfo, [])
    else if sessionId.Some? then AuthOut(Returned(true), [h.value], inbox, sessionId, sequence, selfInfo, [])
    else
      var (p, rest) := ReceiveSpec(inbox);
      if p.Err? then AuthOut(Threw(p.error), [h.value], rest, sessionId, sequence, selfInfo, [])
      else if !p.value.Dispatch? then AuthOut(Threw(Unexpected), [h.value], rest, sessionId, sequence, selfInfo, [])
      else
        var ev := ParseEvent(classes, validates, p.value);
        if ev.None? then AuthOut(Threw(Malformed), [h.value], rest, sessionId, Some(p.value.sequence), selfInfo, [])
        else if ev.value.cls != "ReadyEvent" then
          AuthOut(Threw(Unexpected), [h.value], rest, sessionId, Some(p.value.sequence), selfInfo, [])
        else
          var ready := ReadyOf(p.value.data).value;
          AuthOut(Returned(true), [h.value], rest, Some(ready.1), Some(p.value.sequence), Some(ready.0), [ev.value])
  }

  /** `_authenticate`. Without a session it sends Identify and then reads
      one reply, which must be a dispatch (its sequence is stored before
      anything else) validating as a `ReadyEvent`; with a session it sends
      Resume and reads nothing. `properties` stands for the platform
      description. */
  method Authenticate(adapter: Adapter, bot: Bot, ws: Socket, shard: (int, int), properties: Fields, sendOk: bool)
    returns (r: AuthOutcome)
    modifies adapter, bot, ws
    ensures var a := AuthSpec(adapter.classes, adapter.validates, bot.info, old(ws.inbox), old(bot.sessionId),
                              old(bot.sequence), old(bot.selfInfo), shard, properties, sendOk);
            r == a.r && ws.outbox == old(ws.outbox) + a.sent && ws.inbox == a.rest && bot.sessionId == a.sessionId
            && bot.sequence == a.sequence && bot.selfInfo == a.selfInfo && adapter.handled == old(adapter.handled) + a.events
    ensures var h := Handshake(bot.info, old(bot.sessionId), old(bot.sequence), shard, properties);
            (h.Err? ==> r == Threw(h.error) && ws.outbox == old(ws.outbox) && ws.inbox == old(ws.inbox))
            && (h.Ok? ==> ws.outbox == old(ws.outbox) + (if sendOk then [h.value] else []))
            && (h.Ok? && !sendOk ==> r == Returned(false) && ws.inbox == old(ws.inbox))
            && (h.Ok? && sendOk && old(bot.Ready()) ==> r == Returned(true) && ws.inbox == old(ws.inbox))
    // an identify reads exactly one reply
    ensures !old(bot.Ready()) && sendOk ==>
      var (p, rest) := ReceiveSpec(old(ws.inbox));
      ws.inbox == rest
      && (p.Err? ==> r == Threw(p.error))
      && (p.Ok? && !p.value.Dispatch? ==> r == Threw(Unexpected) && bot.sequence == old(bot.sequence))
      && (p.Ok? && p.value.Dispatch? ==>
            bot.sequence == Some(p.value.sequence)
            && var ev := ParseEvent(adapter.classes, adapter.validates, p.value);
            (ev.None? ==> r == Threw(Malformed))
            && (ev.Some? && ev.value.cls != "ReadyEvent" ==> r == Threw(Unexpected))
            && (ev.Some? && ev.value.cls == "ReadyEvent" ==>
                  r == Returned(true)
                  && bot.selfInfo == Some(ReadyOf(p.value.data).value.0)
                  && bot.sessionId == Some(ReadyOf(p.value.data).value.1)
                  && adapter.handled == old(adapter.handled) + [ev.value]))
    // the session id and own user change only by a READY; a resume changes nothing of the bot
    ensures r != Returned(true) ==> bot.selfInfo == old(bot.selfInfo) && bot.sessionId == old(bot.sessionId)
    ensures old(bot.Ready()) ==> bot.sequence == old(bot.sequence) && bot.sessionId == old(bot.sessionId)
    ensures old(bot.HasSequence()) ==> bot.HasSequence()
    ensures old(SessionSound(bot.sessionId, bot.sequence)) ==> SessionSound(bot.sessionId, bot.sequence)
    ensures r == Returned(true) ==> bot.Ready() && adapter.bots == old(adapter.bots) + {bot.info.id}
    ensures r == Returned(true) && old(bot.Ready()) ==> adapter.handled == old(adapter.handled)
    ensures r != Returned(true) ==> adapter.bots == old(adapter.bots) && adapter.handled == old(adapter.handled)
  {
    var h := Handshake(bot.info, bot.sessionId, bot.sequence, shard, properties);
    if h.Err? {
      return Threw(h.error);
    }
    var wasReady := bot.Ready();
    ws.Send(h.value, sendOk);
    if !sendOk {
      return Returned(false);
    }
    var ready: Option<GuildEvent> := None;
    if !wasReady {
      var p := Receive(ws);
      if p.Err? {
        return Threw(p.error);
      }
      if !p.value.Dispatch? {
        return Threw(Unexpected);
      }
      bot.SetSequence(p.value.sequence);
      var ev := ParseEvent(adapter.classes, adapter.validates, p.value);
      if ev.None? {
        return Threw(Malformed);
      }
      if ev.value.cls != "ReadyEvent" {
        return Threw(Unexpected);
      }
      var info := ReadyOf(p.value.data);
      bot.SetSessionId(info.value.1);
      bot.SetSelfInfo(info.value.0);
      ready := ev;
    }
    adapter.bots := adapter.bots + {bot.info.id};
    if ready.Some? {
      adapter.handled := adapter.handled + [ready.value];
    }
    r := Returned(true);
  }

  /** How the receive loop ends. */
  datatype LoopEnd = Reconnected | Invalidated | Failed(f: Fault)

  /** The receive loop over the frames `inbox`: how it ends, the frames
      left, the session id and sequence it leaves, and the events it hands
      on, in order. */
  datatype LoopOut = LoopOut(end: LoopEnd, rest: seq<Json>, sessionId: Option<string>, sequence: Option<int>,
                             events: seq<GuildEvent>)

  /** `_loop` as a function of the frames. A dispatch stores its sequence
      whether or not its event validates; one that does not is dropped. */
  function LoopSpec(classes: map<string, string>, validates: (string, Fields) -> bool, inbox: seq<Json>,
                    sessionId: Option<string>, sequence: Option<int>): (o: LoopOut)
    ensures |o.rest| <= |inbox| && o.rest == inbox[|inbox| - |o.rest|..]
    ensures o.end.Failed? ==> o.end.f == Closed || o.end.f == Malformed
    decreases |inbox|
  {
    if inbox == [] then LoopOut(Failed(Closed), [], sessionId, sequence, [])
    else
      var d := Decode(inbox[0]);
      if d.Err? then LoopOut(Failed(Malformed), inbox[1..], sessionId, sequence, [])
      else if d.value.Dispatch? then
        var o := LoopSpec(classes, validates, inbox[1..], sessionId, Some(d.value.sequence));
        var ev := ParseEvent(classes, validates, d.value);
        o.(events := (if ev.Some? then [ev.value] else []) + o.events)
      else if d.value.Reconnect? then LoopOut(Reconnected, inbox[1..], sessionId, sequence, [])
      else if d.value.InvalidSession? then LoopOut(Invalidated, inbox[1..], None, None, [])
      else LoopSpec(classes, validates, inbox[1..], sessionId, sequence)
  }

  /** `_loop`: receive until a Reconnect, an InvalidSession (which clears
      the session) or a failure. */
  method Loop(adapter: Adapter, bot: Bot, ws: Socket) returns (end: LoopEnd)
    modifies adapter, bot, ws
    ensures var o := LoopSpec(adapter.classes, adapter.validates, old(ws.inbox), old(bot.sessionId), old(bot.sequence));
            end == o.end && ws.inbox == o.rest && bot.sessionId == o.sessionId && bot.sequence == o.sequence
            && adapter.handled == old(adapter.handled) + o.events
    ensures bot.selfInfo == old(bot.selfInfo)
    ensures adapter.bots == old(adapter.bots) && ws.outbox == old(ws.outbox)
  {
    ghost var total := LoopSpec(adapter.classes, adapter.validates, ws.inbox, bot.sessionId, bot.sequence);
    ghost var handled0 := adapter.handled;
    var stop: Option<LoopEnd> := None;
    while stop.None?
      invariant stop.None? ==> LoopInv(adapter.classes, adapter.validates, ws.inbox, bot.sessionId, bot.sequence,
                                       total, handled0, adapter.handled)
      invariant stop.Some? ==> LoopDone(stop.value, ws.inbox, bot.sessionId, bot.sequence, total, handled0, adapter.handled)
      invariant bot.selfInfo == old(bot.selfInfo)
      invariant adapter.bots == old(adapter.bots) && ws.outbox == old(ws.outbox)
      decreases |ws.inbox| + (if stop.None? then 1 else 0)
    {
      ghost var inbox, sid, sequence, handled := ws.inbox, bot.sessionId, bot.sequence, adapter.handled;
      LoopAdvance(adapter.classes, adapter.validates, inbox, sid, sequence, total, handled0, handled);
      var p := Receive(ws);
      if p.Err? {
        stop := Some(Failed(p.error));
      } else {
        var payload := p.value;
        if payload.Dispatch? {
          bot.SetSequence(payload.sequence);
          var ev := ParseEvent(adapter.classes, adapter.validates, payload);
          if ev.Some? {
            adapter.handled := adapter.handled + [ev.value];
          }
          assert adapter.handled == handled + (if ev.Some? then [ev.value] else []);
        } else if payload.Reconnect? {
          stop := Some(Reconnected);
        } else if payload.InvalidSession? {
          bot.Clear();
          stop := Some(Invalidated);
        }
      }
    }
    end := stop.value;
  }

  /** The loop has ended as the whole loop does. */
  ghost predicate LoopDone(end: LoopEnd, inbox: seq<Json>, sessionId: Option<string>, sequence: Option<int>,
                           total: LoopOut, handled0: seq<GuildEvent>, handled: seq<GuildEvent>)
  {
    end == total.end && inbox == total.rest && sessionId == total.sessionId && sequence == total.sequence
    && handled == handled0 + total.events
  }

  /** The loop so far and the loop still to run make up the whole loop. */
  ghost predicate LoopInv(classes: map<string, string>, validates: (string, Fields) -> bool, inbox: seq<Json>,
                          sessionId: Option<string>, sequence: Option<int>,
                          total: LoopOut, handled0: seq<GuildEvent>, handled: seq<GuildEvent>)
  {
    var o := LoopSpec(classes, validates, inbox, sessionId, sequence);
    o.end == total.end && o.rest == total.rest && o.sessionId == total.sessionId
    && o.sequence == total.sequence && handled + o.events == handled0 + total.events
  }

  /** A dispatch turn stores the sequence, hands on the event if it
      validates, and keeps `LoopInv`. */
  lemma LoopAdvanceDispatch(classes: map<string, string>, validates: (string, Fields) -> bool, inbox: seq<Json>,
                            sessionId: Option<string>, sequence: Option<int>,
                            total: LoopOut, handled0: seq<GuildEvent>, handled: seq<GuildEvent>)
    requires LoopInv(classes, validates, inbox, sessionId, sequence, total, handled0, handled)
    requires ReceiveSpec(inbox).0.Ok? && ReceiveSpec(inbox).0.value.Dispatch?
    ensures var (r, rest) := ReceiveSpec(inbox);
            var ev := ParseEvent(classes, validates, r.value);
            LoopInv(classes, validates, rest, sessionId, Some(r.value.sequence), total, handled0,
                    handled + (if ev.Some? then [ev.value] else []))
  {
    var (r, rest) := ReceiveSpec(inbox);
    var o := LoopSpec(classes, validates, rest, sessionId, Some(r.value.sequence));
    var ev := ParseEvent(classes, validates, r.value);
    var e := if ev.Some? then [ev.value] else [];
    assert handled + e + o.events == handled + (e + o.events);
  }

  /** One turn of the loop keeps `LoopInv`, or ends it where `LoopSpec`
      ends. */
  lemma LoopAdvance(classes: map<string, string>, validates: (string, Fields) -> bool, inbox: seq<Json>,
                    sessionId: Option<string>, sequence: Option<int>,
                    total: LoopOut, handled0: seq<GuildEvent>, handled: seq<GuildEvent>)
    requires LoopInv(classes, validates, inbox, sessionId, sequence, total, handled0, handled)
    ensures var (r, rest) := ReceiveSpec(inbox);
            (r.Err? ==> LoopDone(Failed(r.error), rest, sessionId, sequence, total, handled0, handled))
            && (r.Ok? && r.value.Dispatch? ==>
                  var ev := ParseEvent(classes, validates, r.value);
                  LoopInv(classes, validates, rest, sessionId, Some(r.value.sequence), total, handled0,
                          handled + (if ev.Some? then [ev.value] else [])))
            && (r.Ok? && r.value.Reconnect? ==> LoopDone(Reconnected, rest, sessionId, sequence, total, handled0, handled))
            && (r.Ok? && r.value.InvalidSession? ==> LoopDone(Invalidated, rest, None, None, total, handled0, handled))
            && (r.Ok? && !r.value.Dispatch? && !r.value.Reconnect? && !r.value.InvalidSession? ==>
                  LoopInv(classes, validates, rest, sessionId, sequence, total, handled0, handled))
  {
    var r := ReceiveSpec(inbox).0;
    if r.Err? {
      LoopAdvanceFailed(classes, validates, inbox, sessionId, sequence, total, handled0, handled);
    } else if r.value.Reconnect? {
      LoopAdvanceReconnect(classes, validates, inbox, sessionId, sequence, total, handled0, handled);
    } else if r.value.InvalidSession? {
      LoopAdvanceInvalid(classes, validates, inbox, sessionId, sequence, total, handled0, handled);
    } else if r.value.Dispatch? {
      LoopAdvanceDispatch(classes, validates, inbox, sessionId, sequence, total, handled0, handled);
    } else {
      LoopAdvanceSkip(classes, validates, inbox, sessionId, sequence, total, handled0, handled);
    }
  }

  /** A failure ends the loop where `LoopSpec` ends it. */
  lemma LoopAdvanceFailed(classes: map<string, string>, validates: (string, Fields) -> bool, inbox: seq<Json>,
                       sessionId: Option<string>, sequence: Option<int>,
                       total: LoopOut, handled0: seq<GuildEvent>, handled: seq<GuildEvent>)
    requires LoopInv(classes, validates, inbox, sessionId, sequence, total, handled0, handled)
    requires ReceiveSpec(inbox).0.Err?
    ensures LoopDone(Failed(ReceiveSpec(inbox).0.error), ReceiveSpec(inbox).1, sessionId, sequence, total, handled0, handled)
  {
    assert handled + [] == handled;
  }

  /** A Reconnect ends the loop where `LoopSpec` ends it. */
  lemma LoopAdvanceReconnect(classes: map<string, string>, validates: (string, Fields) -> bool, inbox: seq<Json>,
                       sessionId: Option<string>, sequence: Option<int>,
                       total: LoopOut, handled0: seq<GuildEvent>, handled: seq<GuildEvent>)
    requires LoopInv(classes, validates, inbox, sessionId, sequence, total, handled0, handled)
    requires ReceiveSpec(inbox).0.Ok? && ReceiveSpec(inbox).0.value.Reconnect?
    ensures LoopDone(Reconnected, ReceiveSpec(inbox).1, sessionId, sequence, total, handled0, handled)
  {
    assert handled + [] == handled;
  }

  /** An InvalidSession ends the loop where `LoopSpec` ends it, with the
      session cleared. */
  lemma LoopAdvanceInvalid(classes: map<string, string>, validates: (string, Fields) -> bool, inbox: seq<Json>,
                       sessionId: Option<string>, sequence: Option<int>,
                       total: LoopOut, handled0: seq<GuildEvent>, handled: seq<GuildEvent>)
    requires LoopInv(classes, validates, inbox, sessionId, sequence, total, handled0, handled)
    requires ReceiveSpec(inbox).0.Ok? && ReceiveSpec(inbox).0.value.InvalidSession?
    ensures LoopDone(Invalidated, ReceiveSpec(inbox).1, None, None, total, handled0, handled)
  {
    assert handled + [] == handled;
  }

  /** Any other frame is skipped and keeps `LoopInv`. */
  lemma LoopAdvanceSkip(classes: map<string, string>, validates: (string, Fields) -> bool, inbox: seq<Json>,
                        sessionId: Option<string>, sequence: Option<int>,
                        total: LoopOut, handled0: seq<GuildEvent>, handled: seq<GuildEvent>)
    requires LoopInv(classes, validates, inbox, sessionId, sequence, total, handled0, handled)
    requires var r := ReceiveSpec(inbox).0;
             r.Ok? && !r.value.Dispatch? && !r.value.Reconnect? && !r.value.InvalidSession?
    ensures LoopInv(classes, validates, ReceiveSpec(inbox).1, sessionId, sequence, total, handled0, handled)
  {
  }

  /** The events among `frames` that validate, in order. */
  function Dispatched(classes: map<string, string>, validates: (string, Fields) -> bool, frames: seq<Json>)
    : seq<GuildEvent>
  {
    if frames == [] then []
    else
      var d := Decode(frames[0]);
      (if d.Ok? && d.value.Dispatch? && ParseEvent(classes, validates, d.value).Some?
       then [ParseEvent(classes, validates, d.value).value] else [])
      + Dispatched(classes, validates, frames[1..])
  }

  /** The sequence number left by the dispatches among `frames`, read from
      the last frame back: that of the last dispatch, or `start`. */
  function LastSequence(frames: seq<Json>, start: Option<int>): Option<int>
    decreases |frames|
  {
    if frames == [] then start
    else
      var d := Decode(frames[|frames| - 1]);
      if d.Ok? && d.value.Dispatch? then Some(d.value.sequence) else LastSequence(frames[..|frames| - 1], start)
  }

  /** The sequence after one frame: a dispatch's own, otherwise unchanged. */
  function StepSequence(f: Json, start: Option<int>): Option<int> {
    var d := Decode(f);
    if d.Ok? && d.value.Dispatch? then Some(d.value.sequence) else start
  }

  lemma {:induction false} LastSequenceCons(f: Json, frames: seq<Json>, start: Option<int>)
    ensures LastSequence([f] + frames, start) == LastSequence(frames, StepSequence(f, start))
    decreases |frames|
  {
    if frames == [] {
      assert [f] + frames == [f];
      assert [f][..0] == [];
    } else {
      assert ([f] + frames)[..|frames|] == [f] + frames[..|frames| - 1];
      LastSequenceCons(f, frames[..|frames| - 1], start);
    }
  }

  /** The frames the loop consumed. */
  function Consumed(classes: map<string, string>, validates: (string, Fields) -> bool, inbox: seq<Json>,
                    sessionId: Option<string>, sequence: Option<int>): seq<Json>
  {
    inbox[..|inbox| - |LoopSpec(classes, validates, inbox, sessionId, sequence).rest|]
  }

  /** One frame that does not end the loop: what follows is the loop on
      the remaining frames. */
  lemma ConsumedStep(classes: map<string, string>, validates: (string, Fields) -> bool, inbox: seq<Json>,
                     sessionId: Option<string>, sequence: Option<int>)
    requires inbox != [] && Decode(inbox[0]).Ok?
    requires var p := Decode(inbox[0]).value; !p.Reconnect? && !p.InvalidSession?
    ensures var s := StepSequence(inbox[0], sequence);
            var o, o' := LoopSpec(classes, validates, inbox, sessionId, sequence),
                         LoopSpec(classes, validates, inbox[1..], sessionId, s);
            o.end == o'.end && o.sessionId == o'.sessionId && o.sequence == o'.sequence
            && Consumed(classes, validates, inbox, sessionId, sequence)
               == [inbox[0]] + Consumed(classes, validates, inbox[1..], sessionId, s)
  {
    var s := StepSequence(inbox[0], sequence);
    var o' := LoopSpec(classes, validates, inbox[1..], sessionId, s);
    assert LoopSpec(classes, validates, inbox, sessionId, sequence).rest == o'.rest;
    assert inbox[..|inbox| - |o'.rest|] == [inbox[0]] + inbox[1..][..|inbox| - 1 - |o'.rest|];
  }

  /** The session the loop leaves: the session id survives everything but
      InvalidSession, which also clears the sequence; otherwise the
      sequence is that of the last consumed dispatch. */
  lemma {:induction false} LoopSession(classes: map<string, string>, validates: (string, Fields) -> bool,
                                       inbox: seq<Json>, sessionId: Option<string>, sequence: Option<int>)
    ensures var o := LoopSpec(classes, validates, inbox, sessionId, sequence);
            (o.end != Invalidated ==>
               o.sessionId == sessionId
               && o.sequence == LastSequence(Consumed(classes, validates, inbox, sessionId, sequence), sequence))
            && (o.end == Invalidated ==> o.sessionId.None? && o.sequence.None?)
    decreases |inbox|
  {
    if inbox != [] {
      var d := Decode(inbox[0]);
      var s := StepSequence(inbox[0], sequence);
      if d.Ok? && !d.value.Reconnect? && !d.value.InvalidSession? {
        LoopSession(classes, validates, inbox[1..], sessionId, s);
        ConsumedStep(classes, validates, inbox, sessionId, sequence);
        LastSequenceCons(inbox[0], Consumed(classes, validates, inbox[1..], sessionId, s), sequence);
      } else {
        assert Consumed(classes, validates, inbox, sessionId, sequence) == [inbox[0]];
        assert [inbox[0]][..0] == [];
      }
    }
  }

  /** A held sequence is never lost except by clearing the whole session:
      `LastSequence` from a held start stays held. */
  lemma {:induction false} LastSequenceKeeps(frames: seq<Json>, start: Option<int>)
    requires start.Some?
    ensures LastSequence(frames, start).Some?
    decreases |frames|
  {
    if frames != [] {
      LastSequenceKeeps(frames[..|frames| - 1], start);
    }
  }

  /** The loop keeps `SessionSound`: a session that could resume before it
      still can after it. */
  lemma LoopSound(classes: map<string, string>, validates: (string, Fields) -> bool,
                  inbox: seq<Json>, sessionId: Option<string>, sequence: Option<int>)
    requires SessionSound(sessionId, sequence)
    ensures var o := LoopSpec(classes, validates, inbox, sessionId, sequence);
            SessionSound(o.sessionId, o.sequence)
  {
    LoopSession(classes, validates, inbox, sessionId, sequence);
    if sequence.Some? {
      LastSequenceKeeps(Consumed(classes, validates, inbox, sessionId, sequence), sequence);
    }
  }

  /** The events the loop hands on are exactly the consumed dispatches
      whose events validate. */
  lemma {:induction false} LoopEvents(classes: map<string, string>, validates: (string, Fields) -> bool,
                                      inbox: seq<Json>, sessionId: Option<string>, sequence: Option<int>)
    ensures LoopSpec(classes, validates, inbox, sessionId, sequence).events
            == Dispatched(classes, validates, Consumed(classes, validates, inbox, sessionId, sequence))
    decreases |inbox|
  {
    if inbox != [] {
      var d := Decode(inbox[0]);
      var s := StepSequence(inbox[0], sequence);
      if d.Ok? && !d.value.Reconnect? && !d.value.InvalidSession? {
        LoopEvents(classes, validates, inbox[1..], sessionId, s);
        ConsumedStep(classes, validates, inbox, sessionId, sequence);
        var c := Consumed(classes, validates, inbox[1..], sessionId, s);
        assert ([inbox[0]] + c)[1..] == c;
      } else {
        assert Consumed(classes, validates, inbox, sessionId, sequence) == [inbox[0]];
        assert [inbox[0]][1..] == [];
      }
    }
  }

  /** What one heartbeat tick sends: the current sequence while one is
      held, whether or not the bot is ready; nothing otherwise. */
  function HeartbeatFrame(sequence: Option<int>): (r: Option<Payload>)
    ensures r.Some? <==> sequence.Some?
    ensures r.Some? ==> r.value.Heartbeat? && r.value.beat == sequence.value
  {
    if sequence.Some? then Some(Heartbeat(sequence.value)) else None
  }

  /** One pass of `_heartbeat`; a failed send is ignored. */
  method HeartbeatTick(bot: Bot, ws: Socket, sendOk: bool) returns (r: Option<Payload>)
    modifies ws
    ensures r == HeartbeatFrame(bot.sequence)
    ensures ws.inbox == old(ws.inbox)
    ensures ws.outbox == if r.Some? && sendOk then old(ws.outbox) + [r.value] else old(ws.outbox)
  {
    if bot.HasSequence() {
      var s := bot.Sequence();
      r := Some(Heartbeat(s.value));
      ws.Send(r.value, sendOk);
    } else {
      r := None;
    }
  }

  /** How one pass of `_forward_ws` ends. */
  datatype ConnectEnd = NoHello | NotAuthenticated | AuthRaised(f: Fault) | LoopEnded(end: LoopEnd)

  /** One pass of `_forward_ws`: hello (a missing or zero interval means
      reconnect), handshake, then the receive loop; however it ends, the
      bot is disconnected. A sound session stays sound, so the next
      handshake never fails on reading the sequence. */
  method Connect(adapter: Adapter, bot: Bot, ws: Socket, shard: (int, int), properties: Fields, sendOk: bool)
    returns (r: ConnectEnd)
    modifies adapter, bot, ws
    requires SessionSound(bot.sessionId, bot.sequence)
    ensures r == NoHello <==> HelloOf(old(ws.inbox)).None? || HelloOf(old(ws.inbox)) == Some(0)
    ensures r == NoHello ==> bot.sessionId == old(bot.sessionId) && bot.sequence == old(bot.sequence)
                             && ws.outbox == old(ws.outbox) && adapter.handled == old(adapter.handled)
    ensures !r.AuthRaised? || r.f != Raised(NotConnected)
    ensures r != NoHello ==>
      var a := AuthSpec(adapter.classes, adapter.validates, bot.info, ReceiveSpec(old(ws.inbox)).1, old(bot.sessionId),
                        old(bot.sequence), old(bot.selfInfo), shard, properties, sendOk);
      ws.outbox == old(ws.outbox) + a.sent && bot.selfInfo == a.selfInfo
      && (a.r.Threw? ==> r == AuthRaised(a.r.f))
      && (a.r == Returned(false) ==> r == NotAuthenticated)
      && (a.r != Returned(true) ==> ws.inbox == a.rest && bot.sessionId == a.sessionId && bot.sequence == a.sequence
                                    && adapter.handled == old(adapter.handled))
      && (a.r == Returned(true) ==>
            var o := LoopSpec(adapter.classes, adapter.validates, a.rest, a.sessionId, a.sequence);
            r == LoopEnded(o.end) && ws.inbox == o.rest && bot.sessionId == o.sessionId && bot.sequence == o.sequence
            && adapter.handled == old(adapter.handled) + a.events + o.events)
    ensures SessionSound(bot.sessionId, bot.sequence)
    ensures bot.info.id !in adapter.bots
    ensures r.LoopEnded? && r.end == Reconnected ==> bot.Ready() && bot.HasSequence()
    ensures r.LoopEnded? && r.end == Invalidated ==> !bot.Ready() && !bot.HasSequence()
  {
    var interval := ReceiveHello(ws);
    if interval.None? || interval.value == 0 {
      r := NoHello;
    } else {
      var a := Authenticate(adapter, bot, ws, shard, properties, sendOk);
      if a.Threw? {
        r := AuthRaised(a.f);
      } else if !a.ok {
        r := NotAuthenticated;
      } else {
        ghost var inbox, sid, sequence := ws.inbox, bot.sessionId, bot.sequence;
        var end := Loop(adapter, bot, ws);
        LoopSound(adapter.classes, adapter.validates, inbox, sid, sequence);
        LoopSession(adapter.classes, adapter.validates, inbox, sid, sequence);
        r := LoopEnded(end);
      }
    }
    adapter.bots := adapter.bots - {bot.info.id};
  }

  /** The session start limit of the gateway reply. */
  datatype StartLimit = StartLimit(remaining: Option<int>, maxConcurrency: Option<int>)

  /** `shard_url_get`'s reply. */
  datatype GatewayInfo = GatewayInfo(url: Option<string>, shards: Option<int>, limit: Option<StartLimit>)

  /** `remain and remain <= 0`: a non-zero `remaining` that is not
      positive; a missing limit or remaining count passes. */
  predicate LimitExhausted(g: GatewayInfo) {
    g.limit.Some? && g.limit.value.remaining.Some?
    && g.limit.value.remaining.value != 0 && g.limit.value.remaining.value <= 0
  }

  /** `gateway_info.shards or 1`. */
  function ShardCount(shards: Option<int>): (n: int)
    ensures shards.None? || shards == Some(0) ==> n == 1
    ensures shards.Some? && shards.value != 0 ==> n == shards.value
  {
    if shards.None? || shards.value == 0 then 1 else shards.value
  }

  /** `run_bot`: the shard pairs it opens connections for; `None` when the
      gateway request failed (`gateway` is `None`), its url is missing or
      empty, or the session start limit is exhausted. */
  method PlanShards(gateway: Option<GatewayInfo>, configured: Option<(int, int)>) returns (r: Option<seq<(int, int)>>)
    ensures r.None? <==> gateway.None? || gateway.value.url.None? || gateway.value.url == Some("")
                         || LimitExhausted(gateway.value)
    ensures r.Some? && configured.Some? ==> r.value == [configured.value]
    ensures r.Some? && configured.None? ==>
      var n := ShardCount(gateway.value.shards);
      |r.value| == (if n < 0 then 0 else n) && forall i :: 0 <= i < |r.value| ==> r.value[i] == (i, n)
  {
    if gateway.None? || gateway.value.url.None? || gateway.value.url.value == "" {
      return None;
    }
    var g := gateway.value;
    if LimitExhausted(g) {
      return None;
    }
    if configured.Some? {
      return Some([configured.value]);
    }
    var n := ShardCount(g.shards);
    var plan: seq<(int, int)> := [];
    for i := 0 to (if n < 0 then 0 else n)
      invariant |plan| == i
      invariant forall j :: 0 <= j < i ==> plan[j] == (j, n)
    {
      plan := plan + [(i, n)];
    }
    r := Some(plan);
  }
}
