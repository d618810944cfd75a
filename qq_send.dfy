/** What the qq `Bot` does with messages (`nonebot/adapters/qq/bot.py`):
    stripping a mention of itself from a received message, pulling the
    send fields out of an outgoing message, choosing the C2C/group
    `msg_type` and media, and routing a reply by the kind of event. */
module QQSend {
  import opened Wrappers
  import opened PyStr
  import opened Segments
  import opened QQMessage
  import opened QQEvent

  /** A mention of the bot itself. */
  predicate IsAtMe(seg: Segment, selfId: string) {
    seg.MentionUser? && seg.userId == selfId
  }

  /** How many self-mentions a message holds. */
  function CountAtMe(msg: seq<Segment>, selfId: string): nat
    decreases |msg|
  {
    if |msg| == 0 then 0
    else CountAtMe(msg[..|msg| - 1], selfId) + (if IsAtMe(msg[|msg| - 1], selfId) then 1 else 0)
  }

  lemma {:induction false} CountAtMeAppend(a: seq<Segment>, b: seq<Segment>, selfId: string)
    ensures CountAtMe(a + b, selfId) == CountAtMe(a, selfId) + CountAtMe(b, selfId)
    decreases |b|
  {
    if |b| == 0 {
      assert a + b == a;
    } else {
      assert (a + b)[..|a + b| - 1] == a + b[..|b| - 1];
      CountAtMeAppend(a, b[..|b| - 1], selfId);
    }
  }

  /** An empty message gets one empty text segment. */
  function NonEmpty(msg: seq<Segment>): (r: seq<Segment>)
    ensures |r| >= 1
    ensures |msg| > 0 ==> r == msg
  {
    if |msg| == 0 then [Text("")] else msg
  }

  /** After a leading self-mention: the next text segment loses its
      leading `\xa0` and whitespace, and goes if nothing is left. */
  function StripHead(msg: seq<Segment>): (r: seq<Segment>)
  {
    if |msg| > 0 && msg[0].Text? then
      var t := LStrip(LStripChar(msg[0].text, '\U{a0}'));
      if t == "" then msg[1..] else [Text(t)] + msg[1..]
    else msg
  }

  /** Where a trailing self-mention would sit: last, or last but one when a
      blank text segment closes a message of two or more segments. */
  function TailIndex(msg: seq<Segment>): (i: nat)
    requires |msg| >= 1
    ensures i < |msg| && |msg| - 2 <= i
    ensures i == |msg| - 2 ==> msg[|msg| - 1].Text? && IsBlank(msg[|msg| - 1].text)
  {
    var last := msg[|msg| - 1];
    if last.Text? && IsBlank(last.text) && |msg| >= 2 then |msg| - 2 else |msg| - 1
  }

  /** `_check_at_me` on the message: the new message, and whether a
      self-mention was removed. */
  function AtMe(msg: seq<Segment>, selfId: string): (r: (seq<Segment>, bool))
  {
    var m := NonEmpty(msg);
    if IsAtMe(m[0], selfId) then (NonEmpty(StripHead(m[1..])), true)
    else
      var i := TailIndex(m);
      if IsAtMe(m[i], selfId) then (NonEmpty(m[..i]), true)
      else (m, false)
  }

  lemma StripHeadCount(msg: seq<Segment>, selfId: string)
    ensures CountAtMe(StripHead(msg), selfId) == CountAtMe(msg, selfId)
  {
    if |msg| > 0 && msg[0].Text? {
      assert msg == [msg[0]] + msg[1..];
      CountAtMeAppend([msg[0]], msg[1..], selfId);
      var t := LStrip(LStripChar(msg[0].text, '\U{a0}'));
      if t != "" {
        CountAtMeAppend([Text(t)], msg[1..], selfId);
      }
    }
  }

  /** The message is never left empty; at most one self-mention goes, and
      exactly one when the result says so; a message without a removal is
      kept as it was. */
  lemma AtMeSpec(msg: seq<Segment>, selfId: string)
    ensures |AtMe(msg, selfId).0| >= 1
    ensures !AtMe(msg, selfId).1 ==> AtMe(msg, selfId).0 == NonEmpty(msg)
    ensures AtMe(msg, selfId).1 ==> CountAtMe(AtMe(msg, selfId).0, selfId) + 1 == CountAtMe(msg, selfId)
  {
    var m := NonEmpty(msg);
    NonEmptyCount(msg, selfId);
    if IsAtMe(m[0], selfId) {
      AtMeCountHead(m, selfId);
    } else {
      var i := TailIndex(m);
      if IsAtMe(m[i], selfId) {
        AtMeCountTail(m, selfId, i);
      }
    }
  }

  /** Removing the leading self-mention takes one self-mention away. */
  lemma AtMeCountHead(m: seq<Segment>, selfId: string)
    requires |m| > 0 && IsAtMe(m[0], selfId)
    ensures CountAtMe(NonEmpty(StripHead(m[1..])), selfId) + 1 == CountAtMe(m, selfId)
  {
    assert m == [m[0]] + m[1..];
    CountAtMeAppend([m[0]], m[1..], selfId);
    assert CountAtMe([m[0]], selfId) == CountAtMe([], selfId) + 1;
    StripHeadCount(m[1..], selfId);
    NonEmptyCount(StripHead(m[1..]), selfId);
  }

  /** Removing the trailing self-mention (and the blank text after it)
      takes one self-mention away. */
  lemma AtMeCountTail(m: seq<Segment>, selfId: string, i: nat)
    requires |m| >= 1 && i == TailIndex(m) && IsAtMe(m[i], selfId)
    ensures CountAtMe(NonEmpty(m[..i]), selfId) + 1 == CountAtMe(m, selfId)
  {
    assert m == m[..i] + [m[i]] + m[i + 1..];
    CountAtMeAppend(m[..i] + [m[i]], m[i + 1..], selfId);
    CountAtMeAppend(m[..i], [m[i]], selfId);
    assert CountAtMe([m[i]], selfId) == CountAtMe([], selfId) + 1;
    if i + 1 < |m| {
      assert m[i + 1..] == [m[|m| - 1]];
      assert CountAtMe(m[i + 1..], selfId) == CountAtMe([], selfId) + 0;
    }
    NonEmptyCount(m[..i], selfId);
  }

  lemma NonEmptyCount(msg: seq<Segment>, selfId: string)
    ensures CountAtMe(NonEmpty(msg), selfId) == CountAtMe(msg, selfId)
  {
    if |msg| == 0 {
      assert CountAtMe([Text("")], selfId) == CountAtMe([], selfId) + 0;
    }
  }

  /** A message that starts with a self-mention followed by text loses the
      mention and the text's leading blanks. */
  lemma AtMeLeading(selfId: string, t: string, rest: seq<Segment>)
    requires |LStrip(t)| > 0
    ensures AtMe([MentionUser(selfId), Text(t)] + rest, selfId) == ([Text(LStrip(t))] + rest, true)
  {
    var m := [MentionUser(selfId), Text(t)] + rest;
    AtMeHead(m, selfId);
    assert m[1..] == [Text(t)] + rest;
    StripHeadText(t, rest);
  }

  /** A leading self-mention is the one removed. */
  lemma AtMeHead(m: seq<Segment>, selfId: string)
    requires |m| > 0 && IsAtMe(m[0], selfId)
    ensures AtMe(m, selfId) == (NonEmpty(StripHead(m[1..])), true)
  {
    assert NonEmpty(m) == m;
  }

  lemma StripHeadText(t: string, rest: seq<Segment>)
    ensures StripHead([Text(t)] + rest) == if LStrip(t) == "" then rest else [Text(LStrip(t))] + rest
  {
    var tail := [Text(t)] + rest;
    assert tail[1..] == rest;
    LStripNbsp(t);
  }

  /** `\xa0` counts as whitespace, so stripping it first changes nothing
      about whether text remains. */
  lemma {:induction false} LStripNbsp(t: string)
    ensures LStrip(LStripChar(t, '\U{a0}')) == LStrip(t)
    decreases |t|
  {
    if |t| > 0 && t[0] == '\U{a0}' {
      LStripNbsp(t[1..]);
    }
  }

  /** `_check_at_me`: `to_me` is set by a guild message that mentions the
      bot, and by removing a self-mention from the message. */
  method CheckAtMe(ev: MessageEvent, selfId: string, mentions: Option<seq<string>>)
    modifies ev
    ensures ev.message.Some?
    ensures var before := if old(ev.message).Some? then old(ev.message).value else ev.FirstMessage();
            ev.message.value == AtMe(before, selfId).0
            && ev.toMe == (old(ev.toMe)
                           || (ev.data.GuildMessageEvent? && mentions.Some? && selfId in mentions.value)
                           || AtMe(before, selfId).1)
    ensures ev.replySeq == old(ev.replySeq)
  {
    if ev.data.GuildMessageEvent? && mentions.Some? && selfId in mentions.value {
      ev.toMe := true;
    }
    var message := ev.GetMessage();
    var deleted;
    message, deleted := RemoveAtMe(message, selfId);
    if deleted {
      ev.toMe := true;
    }
    ev.message := Some(message);
  }

  /** The message part of `_check_at_me`: drop a leading self-mention
      (and the whitespace after it), or else a trailing one, possibly
      followed by one blank text. */
  method RemoveAtMe(msg: seq<Segment>, selfId: string) returns (message: seq<Segment>, deleted: bool)
    ensures message == AtMe(msg, selfId).0 && deleted == AtMe(msg, selfId).1
  {
    message := msg;
    if |message| == 0 {
      message := message + [Text("")];
    }
    ghost var m := message;
    assert m == NonEmpty(msg);
    deleted := false;
    if IsAtMe(message[0], selfId) {
      message := message[1..];
      deleted := true;
      if |message| > 0 && message[0].Text? {
        var t := LStrip(LStripChar(message[0].text, '\U{a0}'));
        var rest := message[1..];
        message := [Text(t)] + rest;
        if t == "" {
          message := message[1..];
          assert message == rest;
        }
      }
      assert message == StripHead(m[1..]);
    }
    if !deleted {
      var i := |message| - 1;
      var last := message[i];
      if last.Text? && IsBlank(last.text) && |message| >= 2 {
        i := i - 1;
        last := message[i];
      }
      assert i == TailIndex(m);
      if IsAtMe(last, selfId) {
        deleted := true;
        message := message[..i];
      }
    }
    if |message| == 0 {
      message := message + [Text("")];
    }
  }

  /** The index of the last segment satisfying `p`: "the last one wins". */
  function LastIndex(msg: seq<Segment>, p: Segment -> bool): (r: Option<nat>)
    ensures r.Some? ==> r.value < |msg| && p(msg[r.value]) && forall j :: r.value < j < |msg| ==> !p(msg[j])
    ensures r.None? ==> forall j :: 0 <= j < |msg| ==> !p(msg[j])
    decreases |msg|
  {
    if |msg| == 0 then None
    else if p(msg[|msg| - 1]) then Some(|msg| - 1)
    else LastIndex(msg[..|msg| - 1], p)
  }

  /** The keyword fields `_extract_send_message` fills. */
  datatype SendFields = SendFields(
    content: Option<string>,
    embed: Option<Model>,
    ark: Option<Model>,
    markdown: Option<Model>,
    reference: Option<Ref>,
    keyboard: Option<Model>)

  /** `_extract_send_message`: the escaped content (absent when empty) and,
      for each structured kind, the last segment of that kind. */
  function ExtractSendMessage(msg: seq<Segment>): (f: SendFields)
    ensures f.content.Some? <==> ExtractContent(msg, true) != ""
    ensures f.embed.Some? <==> exists i :: 0 <= i < |msg| && msg[i].Embed?
    ensures f.keyboard.Some? <==> exists i :: 0 <= i < |msg| && msg[i].Keyboard?
  {
    var content := ExtractContent(msg, true);
    var e := LastIndex(msg, (s: Segment) => s.Embed?);
    var a := LastIndex(msg, (s: Segment) => s.Ark?);
    var md := LastIndex(msg, (s: Segment) => s.Markdown?);
    var rf := LastIndex(msg, (s: Segment) => s.Reference?);
    var k := LastIndex(msg, (s: Segment) => s.Keyboard?);
    SendFields(
      if content == "" then None else Some(content),
      if e.Some? then Some(msg[e.value].embed) else None,
      if a.Some? then Some(msg[a.value].ark) else None,
      if md.Some? then Some(msg[md.value].markdown) else None,
      if rf.Some? then Some(msg[rf.value].reference) else None,
      if k.Some? then Some(msg[k.value].keyboard) else None)
  }

  /** The content sent is the escaped content, absent when empty. */
  lemma ExtractContentSent(msg: seq<Segment>)
    ensures ExtractSendMessage(msg).content
            == (if ExtractContent(msg, true) == "" then None else Some(ExtractContent(msg, true)))
  {
  }

  /** An embed is sent exactly when the message has one, and it is the
      last of them. */
  lemma ExtractEmbedLast(msg: seq<Segment>)
    ensures ExtractSendMessage(msg).embed.Some? <==> exists i :: 0 <= i < |msg| && msg[i].Embed?
    ensures ExtractSendMessage(msg).embed.Some? ==>
      exists i :: 0 <= i < |msg| && msg[i] == Embed(ExtractSendMessage(msg).embed.value)
                  && forall j :: i < j < |msg| ==> !msg[j].Embed?
  {
    var x := LastIndex(msg, (s: Segment) => s.Embed?);
    if x.Some? {
      assert msg[x.value] == Embed(ExtractSendMessage(msg).embed.value);
    } else {
      assert forall j :: 0 <= j < |msg| ==> !msg[j].Embed?;
    }
  }

  /** An ark is sent exactly when the message has one, and it is the
      last of them. */
  lemma ExtractArkLast(msg: seq<Segment>)
    ensures ExtractSendMessage(msg).ark.Some? <==> exists i :: 0 <= i < |msg| && msg[i].Ark?
    ensures ExtractSendMessage(msg).ark.Some? ==>
      exists i :: 0 <= i < |msg| && msg[i] == Ark(ExtractSendMessage(msg).ark.value)
                  && forall j :: i < j < |msg| ==> !msg[j].Ark?
  {
    var x := LastIndex(msg, (s: Segment) => s.Ark?);
    if x.Some? {
      assert msg[x.value] == Ark(ExtractSendMessage(msg).ark.value);
    } else {
      assert forall j :: 0 <= j < |msg| ==> !msg[j].Ark?;
    }
  }

  /** A markdown is sent exactly when the message has one, and it is the
      last of them. */
  lemma ExtractMarkdownLast(msg: seq<Segment>)
    ensures ExtractSendMessage(msg).markdown.Some? <==> exists i :: 0 <= i < |msg| && msg[i].Markdown?
    ensures ExtractSendMessage(msg).markdown.Some? ==>
      exists i :: 0 <= i < |msg| && msg[i] == Markdown(ExtractSendMessage(msg).markdown.value)
                  && forall j :: i < j < |msg| ==> !msg[j].Markdown?
  {
    var x := LastIndex(msg, (s: Segment) => s.Markdown?);
    if x.Some? {
      assert msg[x.value] == Markdown(ExtractSendMessage(msg).markdown.value);
    } else {
      assert forall j :: 0 <= j < |msg| ==> !msg[j].Markdown?;
    }
  }

  /** A reference is sent exactly when the message has one, and it is the
      last of them. */
  lemma ExtractReferenceLast(msg: seq<Segment>)
    ensures ExtractSendMessage(msg).reference.Some? <==> exists i :: 0 <= i < |msg| && msg[i].Reference?
    ensures ExtractSendMessage(msg).reference.Some? ==>
      exists i :: 0 <= i < |msg| && msg[i] == Reference(ExtractSendMessage(msg).reference.value)
                  && forall j :: i < j < |msg| ==> !msg[j].Reference?
  {
    var x := LastIndex(msg, (s: Segment) => s.Reference?);
    if x.Some? {
      assert msg[x.value] == Reference(ExtractSendMessage(msg).reference.value);
    } else {
      assert forall j :: 0 <= j < |msg| ==> !msg[j].Reference?;
    }
  }

  /** A keyboard is sent exactly when the message has one, and it is the
      last of them. */
  lemma ExtractKeyboardLast(msg: seq<Segment>)
    ensures ExtractSendMessage(msg).keyboard.Some? <==> exists i :: 0 <= i < |msg| && msg[i].Keyboard?
    ensures ExtractSendMessage(msg).keyboard.Some? ==>
      exists i :: 0 <= i < |msg| && msg[i] == Keyboard(ExtractSendMessage(msg).keyboard.value)
                  && forall j :: i < j < |msg| ==> !msg[j].Keyboard?
  {
    var x := LastIndex(msg, (s: Segment) => s.Keyboard?);
    if x.Some? {
      assert msg[x.value] == Keyboard(ExtractSendMessage(msg).keyboard.value);
    } else {
      assert forall j :: 0 <= j < |msg| ==> !msg[j].Keyboard?;
    }
  }

  /** The media types, in the order the sender tries them. */
  const MediaOrder: seq<string> := ["image", "video", "audio", "file", "file_image", "file_audio", "file_video", "file_file"]

  /** A segment of type `t` (`message[t]`). */
  predicate OfType(seg: Segment, t: string) {
    (seg.Attachment? || seg.LocalAttachment?) && seg.kind == t
  }

  predicate HasType(msg: seq<Segment>, t: string) {
    exists i :: 0 <= i < |msg| && OfType(msg[i], t)
  }

  /** `seg` is the last segment of type `t` in `msg` (`message[t][-1]`). */
  predicate IsLastOfType(msg: seq<Segment>, seg: Segment, t: string) {
    exists i :: 0 <= i < |msg| && msg[i] == seg && OfType(seg, t) && forall j :: i < j < |msg| ==> !OfType(msg[j], t)
  }

  /** The `file_type` sent for the media type at position `k` of
      `MediaOrder`: image 1, video 2, audio 3, file 4; then by position,
      so `file_image` 1, `file_audio` 2, `file_video` 3 and `file_file` 4,
      as the source's table has it. */
  function FileType(k: nat): (n: int)
    requires k < 8
    ensures n == [1, 2, 3, 4, 1, 2, 3, 4][k]
  {
    k % 4 + 1
  }

  /** `_extract_qq_media` from position `k` of the order on: the file type
      and the last segment of the first type present. */
  function MediaFrom(msg: seq<Segment>, k: nat): (r: Option<(int, Segment)>)
    requires k <= 8
    decreases 8 - k
  {
    if k == 8 then None
    else
      var i := LastIndex(msg, (s: Segment) => OfType(s, MediaOrder[k]));
      if i.Some? then Some((FileType(k), msg[i.value])) else MediaFrom(msg, k + 1)
  }

  /** `_extract_qq_media`. */
  function QQMedia(msg: seq<Segment>): Option<(int, Segment)> {
    MediaFrom(msg, 0)
  }

  /** The media chosen is of the first type in the order that the message
      has, it is the last segment of that type, and there is none exactly
      when the message has no media. */
  lemma {:induction false} MediaFromSpec(msg: seq<Segment>, k: nat)
    requires k <= 8
    ensures MediaFrom(msg, k).None? <==> forall t :: k <= t < 8 ==> !HasType(msg, MediaOrder[t])
    ensures MediaFrom(msg, k).Some? ==>
      exists t :: k <= t < 8 && HasType(msg, MediaOrder[t]) && (forall u :: k <= u < t ==> !HasType(msg, MediaOrder[u]))
                  && MediaFrom(msg, k).value.0 == FileType(t) && IsLastOfType(msg, MediaFrom(msg, k).value.1, MediaOrder[t])
    decreases 8 - k
  {
    if k < 8 {
      var order := MediaOrder[k];
      var i := LastIndex(msg, (s: Segment) => OfType(s, order));
      if i.None? {
        assert !HasType(msg, order);
        assert MediaFrom(msg, k) == MediaFrom(msg, k + 1);
        MediaFromSpec(msg, k + 1);
        if MediaFrom(msg, k).Some? {
          var t :| k + 1 <= t < 8 && HasType(msg, MediaOrder[t]) && (forall u :: k + 1 <= u < t ==> !HasType(msg, MediaOrder[u]))
                  && MediaFrom(msg, k).value.0 == FileType(t) && IsLastOfType(msg, MediaFrom(msg, k).value.1, MediaOrder[t]);
          assert forall u :: k <= u < t ==> !HasType(msg, MediaOrder[u]);
        }
      } else {
        assert OfType(msg[i.value], order);
        assert HasType(msg, order);
        assert MediaFrom(msg, k) == Some((FileType(k), msg[i.value]));
        assert IsLastOfType(msg, msg[i.value], order);
      }
    }
  }

  /** `msg_type` of a C2C or group message: embed 4, ark 3, markdown 2,
      any media 7, plain 0. */
  function MsgType(f: SendFields, msg: seq<Segment>): (n: int)
    ensures n in {0, 2, 3, 4, 7}
    ensures n == 4 <==> f.embed.Some?
    ensures n == 3 <==> f.embed.None? && f.ark.Some?
    ensures n == 2 <==> f.embed.None? && f.ark.None? && f.markdown.Some?
    ensures n == 7 <==> f.embed.None? && f.ark.None? && f.markdown.None? && QQMedia(msg).Some?
  {
    if f.embed.Some? then 4
    else if f.ark.Some? then 3
    else if f.markdown.Some? then 2
    else if (exists t :: 0 <= t < 8 && HasType(msg, MediaOrder[t])) then
      (MediaFromSpec(msg, 0); 7)
    else
      (MediaFromSpec(msg, 0); 0)
  }

  /** A message with only text, emoji and mentions is sent as type 0 with
      no media. */
  lemma PlainMessageType(msg: seq<Segment>)
    requires forall i :: 0 <= i < |msg| ==> IsContent(msg[i])
    ensures MsgType(ExtractSendMessage(msg), msg) == 0
    ensures QQMedia(msg).None?
  {
    forall t | 0 <= t < 8
      ensures !HasType(msg, MediaOrder[t])
    {
      forall i | 0 <= i < |msg|
        ensures !OfType(msg[i], MediaOrder[t])
      {
        assert IsContent(msg[i]);
      }
    }
    MediaFromSpec(msg, 0);
    var f := ExtractSendMessage(msg);
    NoStructured(msg);
  }

  lemma NoStructured(msg: seq<Segment>)
    requires forall i :: 0 <= i < |msg| ==> IsContent(msg[i])
    ensures ExtractSendMessage(msg).embed.None?
    ensures ExtractSendMessage(msg).ark.None?
    ensures ExtractSendMessage(msg).markdown.None?
  {
    var e := LastIndex(msg, (s: Segment) => s.Embed?);
    var a := LastIndex(msg, (s: Segment) => s.Ark?);
    var md := LastIndex(msg, (s: Segment) => s.Markdown?);
  }

  /** The call a reply turns into. */
  datatype SendCall =
    | ToDms(guildId: string, msgId: string, fields: SendFields, image: Option<string>, fileImage: Option<seq<Byte>>)
    | ToChannel(channelId: string, msgId: string, fields: SendFields, image: Option<string>, fileImage: Option<seq<Byte>>)
    | ToC2C(openid: string, msgType: int, msgId: string, msgSeq: int, fields: SendFields, media: Option<(int, Segment)>)
    | ToGroup(groupOpenid: string, msgType: int, msgId: string, msgSeq: int, fields: SendFields, media: Option<(int, Segment)>)

  datatype SendError = CannotReply   // RuntimeError: the event cannot be replied to

  /** `_extract_guild_image`: the last image url and the last uploaded
      image. */
  function GuildImage(msg: seq<Segment>): (r: (Option<string>, Option<seq<Byte>>))
    ensures r.0.Some? ==> exists i :: 0 <= i < |msg| && msg[i] == Attachment("image", r.0.value)
    ensures r.1.Some? ==> exists i :: 0 <= i < |msg| && msg[i] == LocalAttachment("file_image", r.1.value)
  {
    var i := LastIndex(msg, (s: Segment) => s.Attachment? && s.kind == "image");
    var j := LastIndex(msg, (s: Segment) => s.LocalAttachment? && s.kind == "file_image");
    (if i.Some? then Some(msg[i.value].url) else None,
     if j.Some? then Some(msg[j.value].content) else None)
  }

  /** The media uploaded before a C2C/group message: only for type 7. */
  function MediaFor(msgType: int, msg: seq<Segment>): Option<(int, Segment)> {
    if msgType == 7 then QQMedia(msg) else None
  }

  /** `send` to the event's conversation. `eventId` is the event's `id`. A
      reply to a C2C or group message counts up the event's `_reply_seq`
      and sends the new value. */
  method Send(ev: MessageEvent, eventId: string, msg: seq<Segment>) returns (r: Result<SendCall, SendError>)
    modifies ev
    ensures r.Err? <==> NeverToMe(ev.data)
    ensures ev.data.C2CMessageEvent? || ev.data.GroupAtMessageEvent? ==>
      ev.replySeq == old(ev.replySeq) + 1 && r.Ok? && (r.value.ToC2C? || r.value.ToGroup?) && r.value.msgSeq == ev.replySeq
    ensures !(ev.data.C2CMessageEvent? || ev.data.GroupAtMessageEvent?) ==> ev.replySeq == old(ev.replySeq)
    ensures ev.toMe == old(ev.toMe) && ev.message == old(ev.message)
    ensures ev.data.GuildMessageEvent? && ev.data.typeName == "DIRECT_MESSAGE_CREATE" ==>
      r == Ok(ToDms(ev.data.guildId, eventId, ExtractSendMessage(msg), GuildImage(msg).0, GuildImage(msg).1))
    ensures ev.data.GuildMessageEvent? && ev.data.typeName != "DIRECT_MESSAGE_CREATE" ==>
      r == Ok(ToChannel(ev.data.channelId, eventId, ExtractSendMessage(msg), GuildImage(msg).0, GuildImage(msg).1))
    ensures ev.data.C2CMessageEvent? ==>
      r == Ok(ToC2C(ev.data.authorId, MsgType(ExtractSendMessage(msg), msg), eventId, ev.replySeq,
                    ExtractSendMessage(msg), MediaFor(MsgType(ExtractSendMessage(msg), msg), msg)))
    ensures ev.data.GroupAtMessageEvent? ==>
      r == Ok(ToGroup(ev.data.groupOpenid, MsgType(ExtractSendMessage(msg), msg), eventId, ev.replySeq,
                      ExtractSendMessage(msg), MediaFor(MsgType(ExtractSendMessage(msg), msg), msg)))
  {
    var fields := ExtractSendMessage(msg);
    var d := ev.data;
    if d.GuildMessageEvent? {
      var (image, fileImage) := GuildImage(msg);
      if d.typeName == "DIRECT_MESSAGE_CREATE" {
        r := Ok(ToDms(d.guildId, eventId, fields, image, fileImage));
      } else {
        r := Ok(ToChannel(d.channelId, eventId, fields, image, fileImage));
      }
    } else if d.C2CMessageEvent? {
      ev.replySeq := ev.replySeq + 1;
      var t := MsgType(fields, msg);
      r := Ok(ToC2C(d.authorId, t, eventId, ev.replySeq, fields, MediaFor(t, msg)));
    } else if d.GroupAtMessageEvent? {
      ev.replySeq := ev.replySeq + 1;
      var t := MsgType(fields, msg);
      r := Ok(ToGroup(d.groupOpenid, t, eventId, ev.replySeq, fields, MediaFor(t, msg)));
    } else {
      r := Err(CannotReply);
    }
  }
}
