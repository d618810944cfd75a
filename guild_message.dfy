/** The message layers of the two qqguild adapters
    (`packages/nonebot-adapter-qqguild/.../message.py` and the older
    `nonebot/adapters/qqguild/message.py`). Both parse text exactly as the
    qq adapter does (`MessageParse.Parse`) and render text, mentions and
    emoji the same way; they differ from it, and from each other, in how
    attachments, embeds, arks and references render and in the order in
    which `from_guild_message` assembles a received guild message. */
module GuildMessages {
  import opened Wrappers
  import opened PyStr
  import opened Utils
  import opened Segments
  import opened MessageParse
  import opened QQMessage

  /** A segment's `__str__` in both qqguild modules: images show their url,
      the local image and the reference are fixed tags, and embeds and arks
      show their model's `str()`. */
  function GuildSegStr(seg: Segment): (r: string)
    ensures IsContent(seg) ==> r == SegStr(seg)
    ensures seg.Text? ==> '<' !in r && '>' !in r
  {
    match seg
    case Attachment(_, url) => "<attachment:" + url + ">"
    case LocalAttachment(_, _) => "<local_image>"
    case Reference(_) => "<reference>"
    case Embed(m) => "<embed:" + m.strText + ">"
    case Ark(m) => "<ark:" + m.strText + ">"
    case _ => SegStr(seg)
  }

  /** `str(message)` in the qqguild modules. */
  function GuildStr(msg: seq<Segment>): (r: string)
    ensures |msg| == 0 ==> r == ""
    ensures |msg| > 0 ==> r == GuildSegStr(msg[0]) + GuildStr(msg[1..])
  {
    if |msg| == 0 then "" else GuildSegStr(msg[0]) + GuildStr(msg[1..])
  }

  /** `extract_content` of both qqguild modules: the renderings of the
      text, emoji and mention segments, which is what the qq adapter's
      `extract_content()` (text escaped) gives. */
  function GuildContent(msg: seq<Segment>): (r: string)
    ensures r == ExtractContent(msg, true)
  {
    if |msg| == 0 then ""
    else (if IsContent(msg[0]) then GuildSegStr(msg[0]) else "") + GuildContent(msg[1..])
  }

  /** On a message of text, emoji and mention segments only, the qqguild
      rendering is the qq adapter's, and `extract_content` is the whole
      rendering of the message. */
  lemma {:induction false} GuildContentIsStr(msg: seq<Segment>)
    requires AllContent(msg)
    ensures GuildStr(msg) == Str(msg)
    ensures GuildContent(msg) == GuildStr(msg)
  {
    if |msg| > 0 {
      GuildContentIsStr(msg[1..]);
    }
  }

  /** Rendering one text, or one mention, channel mention or emoji whose id
      is a non-empty run of word characters, and parsing it back gives that
      same segment. */
  lemma GuildRenderParse(seg: Segment)
    requires (seg.MentionUser? || seg.MentionChannel? || seg.Emoji?) ==> |TagId(seg)| > 0 && IsWord(TagId(seg))
    requires seg.Text? ==> |seg.text| > 0
    requires seg.Text? || seg.MentionUser? || seg.MentionChannel? || seg.Emoji?
    ensures Parse(GuildSegStr(seg)) == [seg]
  {
    RenderParse(seg);
  }

  /** `MessageSegment.image(url)`: an attachment segment whose type is
      `attachment`, not `image`. */
  function Image(url: string): (r: Segment)
    ensures TypeName(r) == "attachment" && r.Attachment? && r.url == url
    ensures GuildSegStr(r) == "<attachment:" + url + ">"
  {
    Attachment("attachment", url)
  }

  /** `MessageSegment.file_image(data)`: a local image of type
      `file_image` holding the bytes. */
  function FileImage(data: seq<Byte>): (r: Segment)
    ensures TypeName(r) == "file_image" && r.LocalAttachment? && r.content == data
    ensures GuildSegStr(r) == "<local_image>"
  {
    LocalAttachment("file_image", data)
  }

  /** `MessageSegment.mention_user(user_id)`: the integer id is stored as
      its decimal text. */
  function MentionUserOf(userId: int): (r: Segment)
    ensures r.MentionUser? && r.userId == IntToStr(userId)
    ensures GuildSegStr(r) == "<@" + IntToStr(userId) + ">"
  {
    MentionUser(IntToStr(userId))
  }

  /** `MessageSegment.mention_channel(channel_id)`. */
  function MentionChannelOf(channelId: int): (r: Segment)
    ensures r.MentionChannel? && r.channelId == IntToStr(channelId)
    ensures GuildSegStr(r) == "<#" + IntToStr(channelId) + ">"
  {
    MentionChannel(IntToStr(channelId))
  }

  /** A mention built from a non-negative user id renders to text that
      parses back to the same mention. */
  lemma MentionUserRoundTrip(userId: nat)
    ensures Parse(GuildSegStr(MentionUserOf(userId))) == [MentionUserOf(userId)]
  {
    GuildRenderParse(MentionUserOf(userId));
  }

  /** What `reference()` of the packaged module is given: a message id, or
      a `MessageReference` model. */
  datatype RefArg = ById(messageId: string) | ByModel(model: Ref)

  /** The packaged `MessageSegment.reference`: an id is wrapped in a
      reference carrying the `ignore_error` flag; a model is stored as it
      is and the flag is not consulted. */
  function PackagedReference(arg: RefArg, ignoreError: Option<bool>): (r: Segment)
    ensures r.Reference?
    ensures arg.ById? ==> r.reference.messageId == arg.messageId
                          && r.reference.ignoreGetMessageError == ignoreError
    ensures arg.ByModel? ==> r.reference == arg.model
    ensures GuildSegStr(r) == "<reference>"
  {
    match arg
    case ById(id) => Reference(Ref(id, ignoreError))
    case ByModel(model) => Reference(model)
  }

  /** The packaged `from_guild_message`: mention-everyone, the content, one
      `attachment` segment per attachment with a url, the embeds, the ark. */
  function PackagedFromGuild(m: GuildMessage): (r: seq<Segment>)
    ensures m.mentionEveryone == Some(true) ==> |r| > 0 && r[0] == MentionEveryone
    ensures m.ark.Some? ==> |r| > 0 && r[|r| - 1] == Ark(m.ark.value)
  {
    EveryonePart(m)
    + ContentSegments(m.content)
    + UrlAttachments("attachment", m.attachments.GetOr([]))
    + Embeds(m.embeds.GetOr([]))
    + ArkPart(m)
  }

  /** The packaged `from_guild_message`, appending part after part. */
  method PackagedFromGuildMessage(m: GuildMessage) returns (msg: seq<Segment>)
    ensures msg == PackagedFromGuild(m)
  {
    msg := [];
    if m.mentionEveryone == Some(true) {
      msg := msg + [MentionEveryone];
    }
    assert msg == EveryonePart(m);
    msg := AppendContent(msg, m.content);
    if m.attachments.Some? && |m.attachments.value| > 0 {
      msg := AppendUrlAttachments(msg, "attachment", m.attachments.value);
    } else {
      assert msg == msg + UrlAttachments("attachment", m.attachments.GetOr([]));
    }
    if m.embeds.Some? && |m.embeds.value| > 0 {
      msg := AppendEmbeds(msg, m.embeds.value);
    } else {
      assert msg == msg + Embeds(m.embeds.GetOr([]));
    }
    if m.ark.Some? {
      msg := msg + [Ark(m.ark.value)];
    } else {
      assert msg == msg + ArkPart(m);
    }
  }

  /** The packaged message is ordered like the qq one: mention-everyone,
      content, attachments, embeds, ark. */
  lemma PackagedFromGuildOrdered(m: GuildMessage)
    ensures GuildSorted(PackagedFromGuild(m))
  {
    ContentRanked(m.content);
    UrlAttachmentsRanked("attachment", m.attachments.GetOr([]));
    GuildSortedParts(EveryonePart(m), ContentSegments(m.content), UrlAttachments("attachment", m.attachments.GetOr([])),
      Embeds(m.embeds.GetOr([])), ArkPart(m));
  }

  /** The attachment segments of the packaged message are exactly the
      `attachment` segments of the non-empty urls; no `image` segment is
      ever built. */
  lemma PackagedFromGuildAttachments(m: GuildMessage)
    ensures forall x :: x in PackagedFromGuild(m) && x.Attachment? <==>
      x.Attachment? && x.kind == "attachment" && x.url in m.attachments.GetOr([]) && x.url != ""
  {
    ContentRanked(m.content);
    UrlAttachmentsSpec("attachment", m.attachments.GetOr([]));
    var c := ContentSegments(m.content);
    forall x | x in c
      ensures !x.Attachment?
    {
      var i :| 0 <= i < |c| && c[i] == x;
      assert GuildRank(c[i]) == 1;
    }
  }

  /** A guild message as the older module reads it: the packaged fields
      and the message reference. */
  datatype LegacyGuildMessage = LegacyGuildMessage(base: GuildMessage, reference: Option<Ref>)

  function ReferencePart(reference: Option<Ref>): seq<Segment> {
    if reference.Some? then [Reference(reference.value)] else []
  }

  /** The older `from_guild_message`: the content, the attachments, the
      embeds, the ark, the reference, and mention-everyone last. */
  function LegacyFromGuild(m: LegacyGuildMessage): (r: seq<Segment>)
    ensures m.base.mentionEveryone == Some(true) ==> |r| > 0 && r[|r| - 1] == MentionEveryone
    ensures m.base.mentionEveryone != Some(true) && m.reference.Some? ==> |r| > 0 && r[|r| - 1] == Reference(m.reference.value)
  {
    ContentSegments(m.base.content)
    + UrlAttachments("attachment", m.base.attachments.GetOr([]))
    + Embeds(m.base.embeds.GetOr([]))
    + ArkPart(m.base)
    + ReferencePart(m.reference)
    + EveryonePart(m.base)
  }

  /** The older `from_guild_message`, appending part after part. */
  method LegacyFromGuildMessage(m: LegacyGuildMessage) returns (msg: seq<Segment>)
    ensures msg == LegacyFromGuild(m)
  {
    msg := AppendContent([], m.base.content);
    assert msg == ContentSegments(m.base.content);
    if m.base.attachments.Some? && |m.base.attachments.value| > 0 {
      msg := AppendUrlAttachments(msg, "attachment", m.base.attachments.value);
    } else {
      assert msg == msg + UrlAttachments("attachment", m.base.attachments.GetOr([]));
    }
    if m.base.embeds.Some? && |m.base.embeds.value| > 0 {
      msg := AppendEmbeds(msg, m.base.embeds.value);
    } else {
      assert msg == msg + Embeds(m.base.embeds.GetOr([]));
    }
    if m.base.ark.Some? {
      msg := msg + [Ark(m.base.ark.value)];
    } else {
      assert msg == msg + ArkPart(m.base);
    }
    if m.reference.Some? {
      msg := msg + [Reference(m.reference.value)];
    } else {
      assert msg == msg + ReferencePart(m.reference);
    }
    if m.base.mentionEveryone == Some(true) {
      msg := msg + [MentionEveryone];
    } else {
      assert msg == msg + EveryonePart(m.base);
    }
  }

  /** The position of each kind of segment in a message built by the older
      module. */
  function LegacyRank(seg: Segment): nat {
    match seg
    case Text(_) => 0
    case MentionUser(_) => 0
    case MentionChannel(_) => 0
    case Emoji(_) => 0
    case Attachment(_, _) => 1
    case Embed(_) => 2
    case Ark(_) => 3
    case Reference(_) => 4
    case MentionEveryone => 5
    case _ => 6
  }

  /** A part all of whose segments have one GuildRank has one LegacyRank. */
  lemma Reranked(r: seq<Segment>, k: nat, l: nat)
    requires RankedAs(r, GuildRank, k)
    requires k == 1 ==> l == 0
    requires k == 2 ==> l == 1
    requires k == 1 || k == 2
    ensures RankedAs(r, LegacyRank, l)
  {
    forall i | 0 <= i < |r|
      ensures LegacyRank(r[i]) == l
    {
      assert GuildRank(r[i]) == k;
    }
  }

  /** The part of an older message before mention-everyone. */
  function LegacyFront(m: LegacyGuildMessage): seq<Segment> {
    ContentSegments(m.base.content)
    + UrlAttachments("attachment", m.base.attachments.GetOr([]))
    + Embeds(m.base.embeds.GetOr([]))
    + ArkPart(m.base)
    + ReferencePart(m.reference)
  }

  /** The front is sorted and ranks below mention-everyone. */
  lemma LegacyFrontSorted(m: LegacyGuildMessage)
    ensures SortedBy(LegacyFront(m), LegacyRank) && RankedBelow(LegacyFront(m), LegacyRank, 4)
  {
    var c := ContentSegments(m.base.content);
    var a := UrlAttachments("attachment", m.base.attachments.GetOr([]));
    var b := Embeds(m.base.embeds.GetOr([]));
    var k := ArkPart(m.base);
    ContentRanked(m.base.content);
    Reranked(c, 1, 0);
    UrlAttachmentsRanked("attachment", m.base.attachments.GetOr([]));
    Reranked(a, 2, 1);
    LegacySortedParts(c, a, b, k, ReferencePart(m.reference));
  }

  /** Five runs of legacy ranks 0 to 4, in that order, make a sorted
      message ranked below mention-everyone. */
  lemma LegacySortedParts(c: seq<Segment>, a: seq<Segment>, b: seq<Segment>, k: seq<Segment>, f: seq<Segment>)
    requires RankedAs(c, LegacyRank, 0) && RankedAs(a, LegacyRank, 1) && RankedAs(b, LegacyRank, 2)
    requires RankedAs(k, LegacyRank, 3) && RankedAs(f, LegacyRank, 4)
    ensures SortedBy(c + a + b + k + f, LegacyRank) && RankedBelow(c + a + b + k + f, LegacyRank, 4)
  {
    SortedJoin([], c, LegacyRank, 0);
    assert [] + c == c;
    SortedJoin(c, a, LegacyRank, 1);
    SortedJoin(c + a, b, LegacyRank, 2);
    SortedJoin(c + a + b, k, LegacyRank, 3);
    SortedJoin(c + a + b + k, f, LegacyRank, 4);
  }

  /** The older message is ordered: content, attachments, embeds, ark,
      reference, mention-everyone. */
  lemma LegacyFromGuildOrdered(m: LegacyGuildMessage)
    ensures SortedBy(LegacyFromGuild(m), LegacyRank)
  {
    LegacyFrontSorted(m);
    SortedJoin(LegacyFront(m), EveryonePart(m.base), LegacyRank, 5);
    assert LegacyFromGuild(m) == LegacyFront(m) + EveryonePart(m.base);
  }

  /** In the older module mention-everyone appears exactly when the guild
      message says so, and then it is the last segment. */
  lemma LegacyFromGuildEveryone(m: LegacyGuildMessage)
    ensures MentionEveryone in LegacyFromGuild(m) <==> m.base.mentionEveryone == Some(true)
    ensures m.base.mentionEveryone == Some(true) ==> LegacyFromGuild(m)[|LegacyFromGuild(m)| - 1] == MentionEveryone
  {
    var r := LegacyFromGuild(m);
    assert r == LegacyFront(m) + EveryonePart(m.base);
    if m.base.mentionEveryone != Some(true) {
      LegacyFrontSorted(m);
      assert r == LegacyFront(m);
      forall i | 0 <= i < |r|
        ensures r[i] != MentionEveryone
      {
        assert LegacyRank(r[i]) <= 4;
      }
    }
  }
}
