/** The qqguild `Bot` (`packages/nonebot-adapter-qqguild/.../bot.py`; the
    older `nonebot/adapters/qqguild/bot.py` has the same code): the gateway
    session it holds, stripping a mention of itself from a received
    message, the send fields of an outgoing message, and where a reply
    goes. */
module GuildBot {
  import opened Wrappers
  import opened PyStr
  import opened Segments
  import opened QQMessage
  import opened QQSend
  import opened GuildMessages
  import opened GuildConfig
  import opened Utils

  /** The bot's own user; guild user ids are integers. */
  datatype User = User(id: Option<int>, username: Option<string>)

  /** RuntimeError from a session property read while unset. */
  datatype BotError = NotConnected

  /** A connection to the guild gateway for one configured bot. */
  class Bot {
    const info: BotInfo
    var selfInfo: Option<User>
    var sessionId: Option<string>
    var sequence: Option<int>

    constructor(info: BotInfo)
      ensures this.info == info
      ensures selfInfo.None? && sessionId.None? && sequence.None?
      ensures !Ready() && !HasSequence()
    {
      this.info := info;
      selfInfo := None;
      sessionId := None;
      sequence := None;
    }

    /** `ready`: a session id is held. */
    predicate Ready()
      reads this
    {
      sessionId.Some?
    }

    /** `has_sequence`: a sequence number is held. */
    predicate HasSequence()
      reads this
    {
      sequence.Some?
    }

    /** The `session_id` property: fails exactly while not ready. */
    function SessionId(): (r: Result<string, BotError>)
      reads this
      ensures r.Ok? <==> Ready()
      ensures r.Ok? ==> sessionId == Some(r.value)
    {
      if sessionId.Some? then Ok(sessionId.value) else Err(NotConnected)
    }

    /** The `self_info` property. */
    function SelfInfo(): (r: Result<User, BotError>)
      reads this
      ensures r.Ok? <==> selfInfo.Some?
      ensures r.Ok? ==> selfInfo == Some(r.value)
    {
      if selfInfo.Some? then Ok(selfInfo.value) else Err(NotConnected)
    }

    /** The `sequence` property: fails exactly while `has_sequence` is
        false. */
    function Sequence(): (r: Result<int, BotError>)
      reads this
      ensures r.Ok? <==> HasSequence()
      ensures r.Ok? ==> sequence == Some(r.value)
    {
      if sequence.Some? then Ok(sequence.value) else Err(NotConnected)
    }

    /** The `session_id` setter: stores the value as given. */
    method SetSessionId(s: string)
      modifies this
      ensures sessionId == Some(s) && Ready() && SessionId() == Ok(s)
      ensures selfInfo == old(selfInfo) && sequence == old(sequence)
    {
      sessionId := Some(s);
    }

    /** The `self_info` setter. */
    method SetSelfInfo(u: User)
      modifies this
      ensures selfInfo == Some(u) && SelfInfo() == Ok(u)
      ensures sessionId == old(sessionId) && sequence == old(sequence)
    {
      selfInfo := Some(u);
    }

    /** The `sequence` setter. */
    method SetSequence(n: int)
      modifies this
      ensures sequence == Some(n) && HasSequence() && Sequence() == Ok(n)
      ensures sessionId == old(sessionId) && selfInfo == old(selfInfo)
    {
      sequence := Some(n);
    }

    /** `clear`: forget the session and the sequence, keep the user. */
    method Clear()
      modifies this
      ensures sessionId == None && sequence == None
      ensures !Ready() && !HasSequence()
      ensures SessionId() == Err(NotConnected) && Sequence() == Err(NotConnected)
      ensures selfInfo == old(selfInfo)
    {
      sessionId := None;
      sequence := None;
    }
  }

  /** `str(self_info.id)`, the text a mention segment is compared with. */
  function SelfIdText(me: User): (r: string)
    ensures me.id.Some? ==> r == IntToStr(me.id.value)
    ensures me.id.None? ==> r == "None"
  {
    if me.id.Some? then IntToStr(me.id.value) else "None"
  }

  /** The kinds of guild message event. */
  datatype MessageKind = MessageCreate | AtMessageCreate | DirectMessageCreate

  /** A received guild message event: its kind, the message
      `from_guild_message` builds from it, the ids of its mentioned users,
      and the ids a reply needs. */
  class MessageEvent {
    const kind: MessageKind
    const built: seq<Segment>
    const mentions: Option<seq<Option<int>>>
    const guildId: Option<int>
    const channelId: Option<int>
    const id: Option<string>
    var toMe: bool
    var message: Option<seq<Segment>>

    /** `to_me` starts true for at-messages and direct messages only. */
    constructor(kind: MessageKind, built: seq<Segment>, mentions: Option<seq<Option<int>>>,
                guildId: Option<int>, channelId: Option<int>, id: Option<string>)
      ensures this.kind == kind && this.built == built && this.mentions == mentions
      ensures this.guildId == guildId && this.channelId == channelId && this.id == id
      ensures toMe == (kind != MessageCreate) && message.None?
    {
      this.kind := kind;
      this.built := built;
      this.mentions := mentions;
      this.guildId := guildId;
      this.channelId := channelId;
      this.id := id;
      toMe := kind != MessageCreate;
      message := None;
    }

    /** `get_message`: the first call stores the built message, every later
        call returns the stored one, edits included. */
    method GetMessage() returns (msg: seq<Segment>)
      modifies this
      ensures message == Some(msg)
      ensures old(message).Some? ==> msg == old(message).value
      ensures old(message).None? ==> msg == built
      ensures toMe == old(toMe)
    {
      if message.None? {
        message := Some(built);
      }
      msg := message.value;
    }

    /** What `send` needs to know about the event. */
    function Target(): (t: ReplyTarget)
      ensures t.MessageOf? && t.kind == kind && t.guildId == guildId && t.channelId == channelId && t.id == id
    {
      MessageOf(kind, guildId, channelId, id)
    }
  }

  /** `_check_at_me`, given the bot's own user: `to_me` is set when the
      guild message's mentions include the bot; a leading or trailing
      mention of the bot is stripped from the message as in the qq adapter,
      but stripping it does not set `to_me`. */
  method CheckAtMe(ev: MessageEvent, me: User)
    modifies ev
    ensures ev.message.Some?
    ensures var before := if old(ev.message).Some? then old(ev.message).value else ev.built;
            ev.message.value == AtMe(before, SelfIdText(me)).0
    ensures ev.toMe == (old(ev.toMe) || (ev.mentions.Some? && me.id in ev.mentions.value))
  {
    if ev.mentions.Some? && me.id in ev.mentions.value {
      ev.toMe := true;
    }
    var selfId := SelfIdText(me);
    var message := ev.GetMessage();
    var deleted;
    message, deleted := RemoveAtMe(message, selfId);
    ev.message := Some(message);
  }

  /** A mention of the bot leading a message is stripped, with the blanks
      of the text after it. */
  lemma GuildAtMeLeading(me: User, t: string, rest: seq<Segment>)
    requires |LStrip(t)| > 0
    ensures AtMe([MentionUser(SelfIdText(me)), Text(t)] + rest, SelfIdText(me)).0 == [Text(LStrip(t))] + rest
  {
    AtMeLeading(SelfIdText(me), t, rest);
  }

  /** The keyword arguments `_extract_send_message` builds. */
  datatype GuildSendFields = GuildSendFields(
    content: Option<string>,
    embed: Option<Model>,
    ark: Option<Model>,
    image: Option<string>,
    fileImage: Option<seq<Byte>>,
    markdown: Option<Model>,
    messageReference: Option<Ref>)

  predicate IsAttachment(s: Segment) {
    s.Attachment? && s.kind == "attachment"
  }

  predicate IsFileImage(s: Segment) {
    s.LocalAttachment? && s.kind == "file_image"
  }

  /** `_extract_send_message`: the content (absent when empty) and, for
      each kind, the last segment of that kind; an `attachment` segment
      gives the image url. */
  function ExtractGuildSend(msg: seq<Segment>): (f: GuildSendFields)
    ensures f.content.None? <==> GuildContent(msg) == ""
    ensures f.content.Some? ==> f.content.value == GuildContent(msg)
  {
    var content := GuildContent(msg);
    var e := LastIndex(msg, (s: Segment) => s.Embed?);
    var a := LastIndex(msg, (s: Segment) => s.Ark?);
    var im := LastIndex(msg, IsAttachment);
    var fi := LastIndex(msg, IsFileImage);
    var md := LastIndex(msg, (s: Segment) => s.Markdown?);
    var rf := LastIndex(msg, (s: Segment) => s.Reference?);
    GuildSendFields(
      if content == "" then None else Some(content),
      if e.Some? then Some(msg[e.value].embed) else None,
      if a.Some? then Some(msg[a.value].ark) else None,
      if im.Some? then Some(msg[im.value].url) else None,
      if fi.Some? then Some(msg[fi.value].content) else None,
      if md.Some? then Some(msg[md.value].markdown) else None,
      if rf.Some? then Some(msg[rf.value].reference) else None)
  }

  /** An embed is sent exactly when the message has one, and it is the
      last of them. */
  lemma ExtractGuildEmbedLast(msg: seq<Segment>)
    ensures ExtractGuildSend(msg).embed.Some? <==> exists i :: 0 <= i < |msg| && msg[i].Embed?
    ensures ExtractGuildSend(msg).embed.Some? ==>
      exists i :: 0 <= i < |msg| && msg[i] == Embed(ExtractGuildSend(msg).embed.value)
                  && forall j :: i < j < |msg| ==> !msg[j].Embed?
  {
    var x := LastIndex(msg, (s: Segment) => s.Embed?);
    if x.Some? {
      assert msg[x.value] == Embed(ExtractGuildSend(msg).embed.value);
    } else {
      assert forall j :: 0 <= j < |msg| ==> !msg[j].Embed?;
    }
  }

  /** An ark is sent exactly when the message has one, and it is the last
      of them. */
  lemma ExtractGuildArkLast(msg: seq<Segment>)
    ensures ExtractGuildSend(msg).ark.Some? <==> exists i :: 0 <= i < |msg| && msg[i].Ark?
    ensures ExtractGuildSend(msg).ark.Some? ==>
      exists i :: 0 <= i < |msg| && msg[i] == Ark(ExtractGuildSend(msg).ark.value)
                  && forall j :: i < j < |msg| ==> !msg[j].Ark?
  {
    var x := LastIndex(msg, (s: Segment) => s.Ark?);
    if x.Some? {
      assert msg[x.value] == Ark(ExtractGuildSend(msg).ark.value);
    } else {
      assert forall j :: 0 <= j < |msg| ==> !msg[j].Ark?;
    }
  }

  /** The image sent is the url of the last `attachment` segment, present
      exactly when there is one. */
  lemma ExtractGuildImageLast(msg: seq<Segment>)
    ensures ExtractGuildSend(msg).image.Some? <==> exists i :: 0 <= i < |msg| && IsAttachment(msg[i])
    ensures ExtractGuildSend(msg).image.Some? ==>
      exists i :: 0 <= i < |msg| && msg[i] == Attachment("attachment", ExtractGuildSend(msg).image.value)
                  && forall j :: i < j < |msg| ==> !IsAttachment(msg[j])
  {
    var x := LastIndex(msg, IsAttachment);
    if x.Some? {
      assert msg[x.value] == Attachment("attachment", ExtractGuildSend(msg).image.value);
    } else {
      assert forall j :: 0 <= j < |msg| ==> !IsAttachment(msg[j]);
    }
  }

  /** The uploaded image is the content of the last `file_image` segment,
      present exactly when there is one. */
  lemma ExtractGuildFileImageLast(msg: seq<Segment>)
    ensures ExtractGuildSend(msg).fileImage.Some? <==> exists i :: 0 <= i < |msg| && IsFileImage(msg[i])
    ensures ExtractGuildSend(msg).fileImage.Some? ==>
      exists i :: 0 <= i < |msg| && msg[i] == LocalAttachment("file_image", ExtractGuildSend(msg).fileImage.value)
                  && forall j :: i < j < |msg| ==> !IsFileImage(msg[j])
  {
    var x := LastIndex(msg, IsFileImage);
    if x.Some? {
      assert msg[x.value] == LocalAttachment("file_image", ExtractGuildSend(msg).fileImage.value);
    } else {
      assert forall j :: 0 <= j < |msg| ==> !IsFileImage(msg[j]);
    }
  }

  /** A markdown is sent exactly when the message has one, and it is the
      last of them. */
  lemma ExtractGuildMarkdownLast(msg: seq<Segment>)
    ensures ExtractGuildSend(msg).markdown.Some? <==> exists i :: 0 <= i < |msg| && msg[i].Markdown?
    ensures ExtractGuildSend(msg).markdown.Some? ==>
      exists i :: 0 <= i < |msg| && msg[i] == Markdown(ExtractGuildSend(msg).markdown.value)
                  && forall j :: i < j < |msg| ==> !msg[j].Markdown?
  {
    var x := LastIndex(msg, (s: Segment) => s.Markdown?);
    if x.Some? {
      assert msg[x.value] == Markdown(ExtractGuildSend(msg).markdown.value);
    } else {
      assert forall j :: 0 <= j < |msg| ==> !msg[j].Markdown?;
    }
  }

  /** The message reference sent is the last reference segment, present
      exactly when there is one. */
  lemma ExtractGuildReferenceLast(msg: seq<Segment>)
    ensures ExtractGuildSend(msg).messageReference.Some? <==> exists i :: 0 <= i < |msg| && msg[i].Reference?
    ensures ExtractGuildSend(msg).messageReference.Some? ==>
      exists i :: 0 <= i < |msg| && msg[i] == Reference(ExtractGuildSend(msg).messageReference.value)
                  && forall j :: i < j < |msg| ==> !msg[j].Reference?
  {
    var x := LastIndex(msg, (s: Segment) => s.Reference?);
    if x.Some? {
      assert msg[x.value] == Reference(ExtractGuildSend(msg).messageReference.value);
    } else {
      assert forall j :: 0 <= j < |msg| ==> !msg[j].Reference?;
    }
  }

  /** A message made only of text sends just its escaped text. */
  lemma ExtractGuildText(t: string)
    requires t != ""
    ensures ExtractGuildSend([Text(t)]) == GuildSendFields(Some(Escape(t)), None, None, None, None, None, None)
  {
    assert GuildContent([Text(t)]) == Escape(t) + GuildContent([]);
    var m := [Text(t)];
    assert m[..0] == [];
    assert LastIndex(m, (s: Segment) => s.Embed?) == None;
    assert LastIndex(m, IsAttachment) == None;
    assert GuildContent(m) == Escape(t);
    assert Escape(t) != "" by {
      EscapeNonEmpty(t);
    }
  }

  lemma EscapeNonEmpty(t: string)
    requires t != ""
    ensures Escape(t) != ""
  {
    assert Enc(t, true, true) == Piece(t[0], true, true) + Enc(t[1..], true, true);
  }

  /** What `send` is replying to: a message event with the ids it carries,
      or any other event. */
  datatype ReplyTarget =
    | OtherEvent
    | MessageOf(kind: MessageKind, guildId: Option<int>, channelId: Option<int>, id: Option<string>)

  /** The API call a reply turns into. */
  datatype GuildSendCall =
    | PostDmsMessages(guildId: Option<int>, msgId: string, fields: GuildSendFields)
    | PostMessages(channelId: int, msgId: string, fields: GuildSendFields)

  /** A reply is possible for a message event with a non-zero channel id
      and a non-empty message id. */
  predicate Replyable(t: ReplyTarget) {
    t.MessageOf? && t.channelId.Some? && t.channelId.value != 0 && t.id.Some? && t.id.value != ""
  }

  /** `send`: a direct message is answered through the DM endpoint of its
      guild, any other message in its channel, both quoting the message id;
      anything else cannot be replied to. */
  function Send(t: ReplyTarget, msg: seq<Segment>): (r: Result<GuildSendCall, SendError>)
    ensures r.Ok? <==> Replyable(t)
    ensures r.Ok? ==> r.value.fields == ExtractGuildSend(msg) && r.value.msgId == t.id.value
    ensures r.Ok? ==> (r.value.PostDmsMessages? <==> t.kind == DirectMessageCreate)
    ensures r.Ok? && r.value.PostDmsMessages? ==> r.value.guildId == t.guildId
    ensures r.Ok? && r.value.PostMessages? ==> r.value.channelId == t.channelId.value
  {
    if !Replyable(t) then Err(CannotReply)
    else if t.kind == DirectMessageCreate then Ok(PostDmsMessages(t.guildId, t.id.value, ExtractGuildSend(msg)))
    else Ok(PostMessages(t.channelId.value, t.id.value, ExtractGuildSend(msg)))
  }
}
