/** The events of the qq adapter (`nonebot/adapters/qq/event.py`): the
    registry from a dispatch type to its event class, the user and session
    ids each class reports, `to_me`, and the memoised message of a message
    event. */
module QQEvent {
  import opened Wrappers
  import opened PyStr
  import opened Segments

  /** The event classes, grouped by the methods they share. `Base` is the
      plain `Event` that unknown dispatch types fall back to. */
  datatype Family =
    | Meta | GuildNotice | ChannelNotice | GuildMember | GuildMessage
    | MessageDelete | C2CMessage | GroupAtMessage | Interaction | Audit
    | Reaction | Audio | Forum | OpenForum | FriendRobot | GroupRobot | Base

  /** Every decorated class, in declaration order: its `__type__` value and
      its family. */
  const Registered: seq<(string, Family)> := [
    ("READY", Meta), ("RESUMED", Meta),
    ("GUILD_CREATE", GuildNotice), ("GUILD_UPDATE", GuildNotice), ("GUILD_DELETE", GuildNotice),
    ("CHANNEL_CREATE", ChannelNotice), ("CHANNEL_UPDATE", ChannelNotice), ("CHANNEL_DELETE", ChannelNotice),
    ("GUILD_MEMBER_ADD", GuildMember), ("GUILD_MEMBER_UPDATE", GuildMember), ("GUILD_MEMBER_REMOVE", GuildMember),
    ("MESSAGE_CREATE", GuildMessage), ("MESSAGE_DELETE", MessageDelete),
    ("AT_MESSAGE_CREATE", GuildMessage), ("PUBLIC_MESSAGE_DELETE", MessageDelete),
    ("DIRECT_MESSAGE_CREATE", GuildMessage), ("DIRECT_MESSAGE_DELETE", MessageDelete),
    ("C2C_MESSAGE_CREATE", C2CMessage), ("GROUP_AT_MESSAGE_CREATE", GroupAtMessage),
    ("INTERACTION_CREATE", Interaction),
    ("MESSAGE_AUDIT_PASS", Audit), ("MESSAGE_AUDIT_REJECT", Audit),
    ("MESSAGE_REACTION_ADD", Reaction), ("MESSAGE_REACTION_REMOVE", Reaction),
    ("AUDIO_START", Audio), ("AUDIO_FINISH", Audio), ("AUDIO_ON_MIC", Audio), ("AUDIO_OFF_MIC", Audio),
    ("FORUM_THREAD_CREATE", Forum), ("FORUM_THREAD_UPDATE", Forum), ("FORUM_THREAD_DELETE", Forum),
    ("FORUM_POST_CREATE", Forum), ("FORUM_POST_DELETE", Forum),
    ("FORUM_REPLY_CREATE", Forum), ("FORUM_REPLY_DELETE", Forum),
    ("FORUM_PUBLISH_AUDIT_RESULT", Forum),
    ("OPEN_FORUM_THREAD_CREATE", OpenForum), ("OPEN_FORUM_THREAD_UPDATE", OpenForum),
    ("OPEN_FORUM_THREAD_DELETE", OpenForum), ("OPEN_FORUM_POST_CREATE", OpenForum),
    ("OPEN_FORUM_POST_DELETE", OpenForum), ("OPEN_FORUM_REPLY_CREATE", OpenForum),
    ("OPEN_FORUM_REPLY_DELETE", OpenForum),
    ("FRIEND_ADD", FriendRobot), ("FRIEND_DEL", FriendRobot),
    ("C2C_MSG_REJECT", FriendRobot), ("C2C_MSG_RECEIVE", FriendRobot),
    ("GROUP_ADD_ROBOT", GroupRobot), ("GROUP_DEL_ROBOT", GroupRobot),
    ("GROUP_MSG_REJECT", GroupRobot), ("GROUP_MSG_RECEIVE", GroupRobot)
  ]

  /** The dict the decorators leave behind: each `__type__` under its class,
      a later registration replacing an earlier one. */
  function RegistryOf(entries: seq<(string, Family)>): (m: map<string, Family>)
    ensures forall i :: 0 <= i < |entries| ==> entries[i].0 in m
    ensures forall k :: k in m ==> exists i :: 0 <= i < |entries| && entries[i].0 == k
    ensures |entries| > 0 ==> m[entries[|entries| - 1].0] == entries[|entries| - 1].1
    decreases |entries|
  {
    if |entries| == 0 then map[]
    else
      var m0 := RegistryOf(entries[..|entries| - 1]);
      m0[entries[|entries| - 1].0 := entries[|entries| - 1].1]
  }

  /** The last registration of a type name decides its class. */
  lemma {:induction false} RegistryLastWins(entries: seq<(string, Family)>, i: nat)
    requires i < |entries|
    requires forall j :: i < j < |entries| ==> entries[j].0 != entries[i].0
    ensures RegistryOf(entries)[entries[i].0] == entries[i].1
    decreases |entries|
  {
    if i < |entries| - 1 {
      RegistryLastWins(entries[..|entries| - 1], i);
    }
  }

  /** `EVENT_CLASSES`: a module-level dict that `register_event_class`
      fills as each class is declared. */
  class EventRegistry {
    var classes: map<string, Family>

    constructor()
      ensures classes == map[]
    {
      classes := map[];
    }

    /** `register_event_class`: store the class under its type name and
        hand it back unchanged. */
    method Register(cls: (string, Family)) returns (r: (string, Family))
      modifies this
      ensures classes == old(classes)[cls.0 := cls.1]
      ensures r == cls
    {
      classes := classes[cls.0 := cls.1];
      r := cls;
    }

    /** Importing the module: every decorated class, in order. */
    method RegisterAll(entries: seq<(string, Family)>)
      modifies this
      ensures classes == old(classes) + RegistryOf(entries)
    {
      for i := 0 to |entries|
        invariant classes == old(classes) + RegistryOf(entries[..i])
      {
        assert entries[..i + 1][..i] == entries[..i];
        UpdateUnion(old(classes), RegistryOf(entries[..i]), entries[i].0, entries[i].1);
        var _ := Register(entries[i]);
      }
      assert entries[..|entries|] == entries;
    }
  }

  lemma UpdateUnion<K, V>(a: map<K, V>, b: map<K, V>, k: K, v: V)
    ensures (a + b)[k := v] == a + b[k := v]
  {
  }

  /** A registered type name stands for its class; any other becomes the
      base `Event`, tagged with that name, instead of failing. */
  function ClassFor(classes: map<string, Family>, eventType: string): (r: (string, Family))
    ensures r.0 == eventType
    ensures eventType in classes ==> r.1 == classes[eventType]
    ensures eventType !in classes ==> r.1 == Base
  {
    if eventType in classes then (eventType, classes[eventType]) else (eventType, Base)
  }

  /** A type name no class was registered under falls back to the base
      event; one registered once keeps its class. */
  lemma RegistryLookup(entries: seq<(string, Family)>, t: string)
    ensures (forall i :: 0 <= i < |entries| ==> entries[i].0 != t) ==> ClassFor(RegistryOf(entries), t) == (t, Base)
    ensures forall i :: 0 <= i < |entries| && entries[i].0 == t && (forall j :: i < j < |entries| ==> entries[j].0 != t) ==>
      ClassFor(RegistryOf(entries), t) == (t, entries[i].1)
  {
    forall i | 0 <= i < |entries| && entries[i].0 == t && (forall j :: i < j < |entries| ==> entries[j].0 != t)
      ensures ClassFor(RegistryOf(entries), t) == (t, entries[i].1)
    {
      RegistryLastWins(entries, i);
    }
  }

  /** The fields each event class reads for its ids. Ids the server may
      omit are `Option`. */
  datatype Event =
    | MetaEvent(typeName: string)
    | NoticeEvent(typeName: string)           // guild, channel, audit and audio notices
    | MemberEvent(typeName: string, guildId: string, userId: string)
    | GuildMessageEvent(typeName: string, guildId: string, channelId: string, authorId: string)
    | MessageDeleteEvent(typeName: string, guildId: string, channelId: string, opUserId: string)
    | C2CMessageEvent(authorId: string, userOpenid: string)  // `author.id` and `author.user_openid`
    | GroupAtMessageEvent(groupOpenid: string, memberOpenid: string)
    | InteractionEvent(chatType: int, iGuildId: Option<string>, iChannelId: Option<string>,
                       resolvedUserId: Option<string>, iGroupOpenid: Option<string>,
                       groupMemberOpenid: Option<string>, iUserOpenid: Option<string>)
    | ChannelUserEvent(typeName: string, guildId: string, channelId: string, userId: string)  // reactions and forums
    | FriendEvent(typeName: string, openid: string)
    | GroupRobotEvent(typeName: string, groupOpenid: string, opMemberOpenid: string)
    | BaseEvent(typeName: string)

  datatype EventError = NoContext | NoMessage | UnknownChatType(chatType: int)

  /** How an f-string shows an optional value. */
  function Show(o: Option<string>): string {
    if o.Some? then o.value else "None"
  }

  function GuildChannelSession(guild: string, channel: string, user: string): string {
    "guild_" + guild + "_channel_" + channel + "_" + user
  }

  function FriendSession(openid: string): string {
    "friend_" + openid
  }

  function GroupSession(group: string, member: string): string {
    "group_" + group + "_" + member
  }

  /** `get_session_id`: one of three formats, or `ValueError`. */
  function SessionId(e: Event): (r: Result<string, EventError>)
    ensures e.MetaEvent? || e.NoticeEvent? || e.BaseEvent? ==> r == Err(NoContext)
    ensures e.InteractionEvent? && e.chatType !in {0, 1, 2} ==> r == Err(UnknownChatType(e.chatType))
    ensures r.Ok? ==> StartsWith(r.value, "guild_") || StartsWith(r.value, "friend_") || StartsWith(r.value, "group_")
  {
    match e
    case MemberEvent(_, g, u) => Ok("guild_" + g + "_" + u)
    case GuildMessageEvent(_, g, c, a) => Ok(GuildChannelSession(g, c, a))
    case MessageDeleteEvent(_, g, c, u) => Ok(GuildChannelSession(g, c, u))
    case C2CMessageEvent(_, o) => Ok(FriendSession(o))
    case GroupAtMessageEvent(g, m) => Ok(GroupSession(g, m))
    case InteractionEvent(ct, g, c, ru, go, gm, uo) =>
      if ct == 0 then Ok(GuildChannelSession(Show(g), Show(c), Show(ru)))
      else if ct == 1 then Ok(GroupSession(Show(go), Show(gm)))
      else if ct == 2 then Ok(FriendSession(Show(uo)))
      else Err(UnknownChatType(ct))
    case ChannelUserEvent(_, g, c, u) => Ok(GuildChannelSession(g, c, u))
    case FriendEvent(_, o) => Ok(FriendSession(o))
    case GroupRobotEvent(_, g, m) => Ok(GroupSession(g, m))
    case _ => Err(NoContext)
  }

  /** `get_user_id`. An interaction may report `None`. */
  function UserId(e: Event): (r: Result<Option<string>, EventError>)
    ensures e.MetaEvent? || e.NoticeEvent? || e.BaseEvent? || e.MessageDeleteEvent? ==> r == Err(NoContext)
    ensures e.InteractionEvent? && e.chatType !in {0, 1, 2} ==> r == Err(UnknownChatType(e.chatType))
    ensures r.Ok? && r.value.None? ==> e.InteractionEvent?
  {
    match e
    case MemberEvent(_, _, u) => Ok(Some(u))
    case GuildMessageEvent(_, _, _, a) => Ok(Some(a))
    case C2CMessageEvent(_, o) => Ok(Some(o))
    case GroupAtMessageEvent(_, m) => Ok(Some(m))
    case InteractionEvent(ct, _, _, ru, _, gm, uo) =>
      if ct == 0 then Ok(ru)
      else if ct == 1 then Ok(gm)
      else if ct == 2 then Ok(uo)
      else Err(UnknownChatType(ct))
    case ChannelUserEvent(_, _, _, u) => Ok(Some(u))
    case FriendEvent(_, o) => Ok(Some(o))
    case GroupRobotEvent(_, _, m) => Ok(Some(m))
    case _ => Err(NoContext)
  }

  /** Every event that reports a session and a user id names that user at
      the end of its session id. */
  lemma SessionEndsWithUser(e: Event)
    requires SessionId(e).Ok? && UserId(e).Ok? && UserId(e).value.Some?
    ensures var s := SessionId(e).value; var u := UserId(e).value.value;
            |u| <= |s| && s[|s| - |u|..] == u
  {
  }

  /** A button interaction reports the session of the conversation it came
      from: a guild channel, a group, or a friend chat. */
  lemma InteractionSessions(e: Event)
    requires e.InteractionEvent? && e.iGuildId.Some? && e.iChannelId.Some? && e.resolvedUserId.Some?
             && e.iGroupOpenid.Some? && e.groupMemberOpenid.Some? && e.iUserOpenid.Some?
    ensures e.chatType == 0 ==>
      SessionId(e) == SessionId(GuildMessageEvent("AT_MESSAGE_CREATE", e.iGuildId.value, e.iChannelId.value, e.resolvedUserId.value))
    ensures e.chatType == 1 ==>
      SessionId(e) == SessionId(GroupAtMessageEvent(e.iGroupOpenid.value, e.groupMemberOpenid.value))
    ensures e.chatType == 2 ==>
      SessionId(e) == SessionId(C2CMessageEvent(e.iUserOpenid.value, e.iUserOpenid.value))
    ensures e.chatType !in {0, 1, 2} ==> SessionId(e).Err? && UserId(e).Err?
  {
  }

  /** `is_tome` of the events that are not message events. */
  predicate NeverToMe(e: Event) {
    !(e.GuildMessageEvent? || e.C2CMessageEvent? || e.GroupAtMessageEvent?)
  }

  /** The class default of `to_me`: false for a plain guild message, true
      for @-messages, direct messages, C2C and group-@ messages. */
  function DefaultToMe(e: Event): (r: bool)
    requires !NeverToMe(e)
    ensures e.GuildMessageEvent? && e.typeName == "MESSAGE_CREATE" ==> !r
    ensures e.GuildMessageEvent? ==> (r <==> e.typeName in {"AT_MESSAGE_CREATE", "DIRECT_MESSAGE_CREATE"})
    ensures e.C2CMessageEvent? || e.GroupAtMessageEvent? ==> r
  {
    if e.GuildMessageEvent? then e.typeName in {"AT_MESSAGE_CREATE", "DIRECT_MESSAGE_CREATE"} else true
  }

  /** The group-@ message fix: the first text segment is left-stripped. */
  function LStripFirstText(msg: seq<Segment>): (r: seq<Segment>)
    ensures |r| == |msg|
    ensures |msg| > 0 ==> r[1..] == msg[1..]
    ensures |msg| > 0 && msg[0].Text? ==> r[0] == Text(LStrip(msg[0].text))
    ensures |msg| > 0 && !msg[0].Text? ==> r == msg
  {
    if |msg| > 0 && msg[0].Text? then [Text(LStrip(msg[0].text))] + msg[1..] else msg
  }

  /** A message event: its data, what `from_guild_message` or
      `from_qq_message` builds from it, and the attributes set on the
      instance (`to_me`, the memoised `_message`, `_reply_seq`). */
  class MessageEvent {
    const data: Event
    const built: seq<Segment>
    var toMe: bool
    var message: Option<seq<Segment>>
    var replySeq: int

    constructor(data: Event, built: seq<Segment>)
      requires !NeverToMe(data)
      ensures this.data == data && this.built == built
      ensures toMe == DefaultToMe(data) && message.None? && replySeq == -1
    {
      this.data := data;
      this.built := built;
      toMe := DefaultToMe(data);
      message := None;
      replySeq := -1;
    }

    /** The message the first `get_message` call stores. */
    function FirstMessage(): (r: seq<Segment>)
      ensures |r| == |built|
      ensures !data.GroupAtMessageEvent? ==> r == built
      ensures |built| > 0 ==> r[1..] == built[1..]
    {
      if data.GroupAtMessageEvent? then LStripFirstText(built) else built
    }

    /** `get_message`: the first call stores the message, every later call
        returns the stored one, edits included. */
    method GetMessage() returns (msg: seq<Segment>)
      modifies this
      ensures message == Some(msg)
      ensures old(message).Some? ==> msg == old(message).value
      ensures old(message).None? ==> msg == FirstMessage()
      ensures toMe == old(toMe) && replySeq == old(replySeq)
    {
      if message.None? {
        message := Some(FirstMessage());
      }
      msg := message.value;
    }

    /** `is_tome`. */
    function IsToMe(): (r: bool)
      reads this
      ensures r <==> toMe
    {
      toMe
    }
  }
}
