/** The message layer of the QQ adapter (`nonebot/adapters/qq/message.py`):
    how each segment renders as text, which segments `extract_content` keeps,
    how a segment is validated from a dict, and how messages are built from
    guild and QQ (C2C/group) messages received from the server. Parsing text
    into segments is the shared `MessageParse.Parse`. */
module QQMessage {
  import opened Wrappers
  import opened PyStr
  import opened Utils
  import opened Json
  import opened Segments
  import opened MessageParse

  /** A segment's `__str__`: text is escaped, mentions and emoji are tags,
      structured payloads show their `repr()`. */
  function SegStr(seg: Segment): (r: string)
    ensures seg.Text? ==> r == Escape(seg.text) && '<' !in r && '>' !in r
    ensures seg.MentionEveryone? ==> r == "@everyone"
    ensures seg.MentionUser? || seg.MentionChannel? || seg.Emoji? ==> r == TagText(TagMatch(seg))
  {
    match seg
    case Text(t) => EscapeNoAngle(t); Escape(t)
    case Emoji(id) => "<emoji:" + id + ">"
    case MentionUser(u) => "<@" + u + ">"
    case MentionChannel(c) => "<#" + c + ">"
    case MentionEveryone => "@everyone"
    case Attachment(k, url) => "<attachment[" + k + "]:" + url + ">"
    case LocalAttachment(k, _) => "<local_attachment[" + k + "]>"
    case Embed(m) => "<embed:" + m.reprText + ">"
    case Ark(m) => "<ark:" + m.reprText + ">"
    case Reference(ref) => "<reference:" + ref.messageId + ">"
    case Markdown(m) => "<markdown:" + m.reprText + ">"
    case Keyboard(m) => "<keyboard:" + m.reprText + ">"
    case ActionButton(m) => "<action_button:" + m.reprText + ">"
    case PromptKeyboard(m) => "<prompt_keyboard:" + m.reprText + ">"
    case Stream(m) => "<stream:" + m.reprText + ">"
  }

  /** The id a mention or emoji segment carries. */
  function TagId(seg: Segment): string
    requires seg.MentionUser? || seg.MentionChannel? || seg.Emoji?
  {
    match seg
    case MentionUser(u) => u
    case MentionChannel(c) => c
    case Emoji(e) => e
  }

  /** Rendering one mention, channel mention or emoji whose id is a
      non-empty run of word characters, or one non-empty text, and parsing
      the result gives back exactly that segment. */
  lemma RenderParse(seg: Segment)
    requires (seg.MentionUser? || seg.MentionChannel? || seg.Emoji?) ==> |TagId(seg)| > 0 && IsWord(TagId(seg))
    requires seg.Text? ==> |seg.text| > 0
    requires seg.Text? || seg.MentionUser? || seg.MentionChannel? || seg.Emoji?
    ensures Parse(SegStr(seg)) == [seg]
  {
    if seg.Text? {
      ParseEscaped(seg.text);
    } else {
      ParseTag(TagMatch(seg));
    }
  }

  /** `str(message)`: the rendering of every segment, in order. */
  function Str(msg: seq<Segment>): (r: string)
    ensures |msg| == 0 ==> r == ""
    ensures |msg| > 0 ==> r == SegStr(msg[0]) + Str(msg[1..])
  {
    if |msg| == 0 then "" else SegStr(msg[0]) + Str(msg[1..])
  }

  /** What `extract_content` takes from one kept segment: its rendering, or
      its raw text when `escapeText` is off and it is a text segment. */
  function ContentPiece(seg: Segment, escapeText: bool): (r: string)
    ensures !escapeText && seg.Text? ==> r == seg.text
    ensures escapeText || !seg.Text? ==> r == SegStr(seg)
  {
    if !escapeText && seg.Text? then seg.text else SegStr(seg)
  }

  /** `extract_content(escape_text)`: the pieces of the text, emoji and
      mention segments, in order; every other segment is skipped. */
  function ExtractContent(msg: seq<Segment>, escapeText: bool): (r: string)
    ensures (forall i :: 0 <= i < |msg| ==> !IsContent(msg[i])) ==> r == ""
  {
    if |msg| == 0 then ""
    else (if IsContent(msg[0]) then ContentPiece(msg[0], escapeText) else "")
         + ExtractContent(msg[1..], escapeText)
  }

  /** The kept segments of a message, in order. */
  function ContentOnly(msg: seq<Segment>): (r: seq<Segment>)
    ensures |r| <= |msg|
    ensures forall i :: 0 <= i < |r| ==> IsContent(r[i])
  {
    if |msg| == 0 then []
    else (if IsContent(msg[0]) then [msg[0]] else []) + ContentOnly(msg[1..])
  }

  /** Segments other than text, emoji and mentions contribute nothing:
      extracting from a message equals extracting from its kept segments. */
  lemma {:induction false} ExtractContentOnly(msg: seq<Segment>, escapeText: bool)
    ensures ExtractContent(msg, escapeText) == ExtractContent(ContentOnly(msg), escapeText)
  {
    if |msg| > 0 {
      ExtractContentOnly(msg[1..], escapeText);
      var rest := ContentOnly(msg[1..]);
      var tail := ExtractContent(msg[1..], escapeText);
      if IsContent(msg[0]) {
        var piece := ContentPiece(msg[0], escapeText);
        var c := [msg[0]] + rest;
        assert ContentOnly(msg) == c;
        assert c[0] == msg[0] && c[1..] == rest;
        assert ExtractContent(c, escapeText) == piece + ExtractContent(rest, escapeText);
        assert ExtractContent(msg, escapeText) == piece + tail;
      } else {
        assert ContentOnly(msg) == [] + rest == rest;
        assert ExtractContent(msg, escapeText) == "" + tail;
      }
    }
  }

  /** Extraction distributes over message concatenation. */
  lemma {:induction false} ExtractContentAppend(a: seq<Segment>, b: seq<Segment>, escapeText: bool)
    ensures ExtractContent(a + b, escapeText) == ExtractContent(a, escapeText) + ExtractContent(b, escapeText)
  {
    if |a| == 0 {
      assert a + b == b;
    } else {
      assert (a + b)[1..] == a[1..] + b;
      ExtractContentAppend(a[1..], b, escapeText);
    }
  }

  predicate AllContent(msg: seq<Segment>) {
    forall i :: 0 <= i < |msg| ==> IsContent(msg[i])
  }

  /** On a message made only of text, emoji and mentions, escaped extraction
      is the message's full rendering. */
  lemma {:induction false} ExtractContentIsStr(msg: seq<Segment>)
    requires AllContent(msg)
    ensures ExtractContent(msg, true) == Str(msg)
  {
    if |msg| > 0 {
      ExtractContentIsStr(msg[1..]);
    }
  }

  predicate AllText(msg: seq<Segment>) {
    forall i :: 0 <= i < |msg| ==> msg[i].Text?
  }

  /** On a text-only message, raw extraction is `extract_plain_text`. */
  lemma {:induction false} ExtractRawIsPlain(msg: seq<Segment>)
    requires AllText(msg)
    ensures ExtractContent(msg, false) == PlainText(msg)
  {
    if |msg| > 0 {
      ExtractRawIsPlain(msg[1..]);
    }
  }

  /** The segment classes. The last three exist but have no entry in
      `SEGMENT_TYPE_MAP`. */
  datatype SegClass =
    | TextClass | EmojiClass | MentionUserClass | MentionChannelClass | MentionEveryoneClass
    | AttachmentClass | LocalAttachmentClass | ArkClass | EmbedClass | MarkdownClass
    | KeyboardClass | ReferenceClass
    | ActionButtonClass | PromptKeyboardClass | StreamClass

  /** `SEGMENT_TYPE_MAP`: the 18 type strings a dict may carry. */
  const SegmentTypeMap: map<string, SegClass> := map[
    "text" := TextClass,
    "emoji" := EmojiClass,
    "mention_user" := MentionUserClass,
    "mention_channel" := MentionChannelClass,
    "mention_everyone" := MentionEveryoneClass,
    "image" := AttachmentClass,
    "file_image" := LocalAttachmentClass,
    "audio" := AttachmentClass,
    "file_audio" := LocalAttachmentClass,
    "video" := AttachmentClass,
    "file_video" := LocalAttachmentClass,
    "file" := AttachmentClass,
    "file_file" := LocalAttachmentClass,
    "ark" := ArkClass,
    "embed" := EmbedClass,
    "markdown" := MarkdownClass,
    "keyboard" := KeyboardClass,
    "reference" := ReferenceClass
  ]

  /** The key a class's `_validate` override demands inside `data`. */
  function PayloadKey(c: SegClass): Option<string> {
    match c
    case EmbedClass => Some("embed")
    case ArkClass => Some("ark")
    case ReferenceClass => Some("reference")
    case MarkdownClass => Some("markdown")
    case KeyboardClass => Some("keyboard")
    case _ => None
  }

  datatype ValidateError = NotADict | NoType | InvalidType | NotConvertible | MissingPayload

  /** A validated segment: its class, its type string and its data. */
  datatype Validated = Validated(cls: SegClass, typeName: string, data: Json)

  predicate HasPayload(data: Json, key: string) {
    data.JObj? && HasKey(data.fields, key)
  }

  /** `_validate(value)` called on `MessageSegment` (`target == None`) or on
      one segment class. A dict needs a `type` in the map; a direct call on a
      class needs that class; `data` defaults to `{}` and the five payload
      classes need their key in it. */
  function Validate(value: Json, target: Option<SegClass>): (r: Result<Validated, ValidateError>)
    ensures !value.JObj? ==> r == Err(NotADict)
    ensures value.JObj? && !HasKey(value.fields, "type") ==> r == Err(NoType)
    ensures r.Ok? ==> && value.JObj?
                      && Get(value.fields, "type") == Some(JStr(r.value.typeName))
                      && r.value.typeName in SegmentTypeMap
                      && SegmentTypeMap[r.value.typeName] == r.value.cls
                      && (target.Some? ==> target.value == r.value.cls)
                      && (PayloadKey(r.value.cls).Some? ==> HasPayload(r.value.data, PayloadKey(r.value.cls).value))
  {
    if !value.JObj? then Err(NotADict)
    else
      GetSpec(value.fields, "type");
      match Get(value.fields, "type")
      case None => Err(NoType)
      case Some(t) =>
        if !t.JStr? || t.s !in SegmentTypeMap then Err(InvalidType)
        else
          var cls := SegmentTypeMap[t.s];
          if target.Some? && target.value != cls then Err(NotConvertible)
          else
            var data := Get(value.fields, "data").GetOr(JObj([]));
            if PayloadKey(cls).Some? && !HasPayload(data, PayloadKey(cls).value) then Err(MissingPayload)
            else Ok(Validated(cls, t.s, data))
  }

  /** Stream, prompt-keyboard and action-button dicts are always rejected:
      their type strings are not in the map. */
  lemma UnmappedTypesRejected(fields: Fields, t: string, target: Option<SegClass>)
    requires t in {"stream", "prompt_keyboard", "action_button"}
    requires Get(fields, "type") == Some(JStr(t))
    ensures Validate(JObj(fields), target) == Err(InvalidType)
  {
    GetSpec(fields, "type");
  }

  /** Every mapped type is accepted through `MessageSegment` when its
      payload key is present (or not needed); the data is kept as given. */
  lemma ValidateAccepts(fields: Fields, t: string, data: Json)
    requires t in SegmentTypeMap
    requires Get(fields, "type") == Some(JStr(t)) && Get(fields, "data") == Some(data)
    requires PayloadKey(SegmentTypeMap[t]).Some? ==> HasPayload(data, PayloadKey(SegmentTypeMap[t]).value)
    ensures Validate(JObj(fields), None) == Ok(Validated(SegmentTypeMap[t], t, data))
  {
    GetSpec(fields, "type");
  }

  /** Without a `data` key, a payload class is rejected and every other class
      gets the empty dict. */
  lemma ValidateNoData(fields: Fields, t: string)
    requires t in SegmentTypeMap
    requires Get(fields, "type") == Some(JStr(t)) && Get(fields, "data") == None
    ensures PayloadKey(SegmentTypeMap[t]).Some? ==> Validate(JObj(fields), None) == Err(MissingPayload)
    ensures PayloadKey(SegmentTypeMap[t]).None? ==> Validate(JObj(fields), None) == Ok(Validated(SegmentTypeMap[t], t, JObj([])))
  {
    GetSpec(fields, "type");
  }

  /** A guild message as far as `from_guild_message` reads it; each
      attachment is its url. */
  datatype GuildMessage = GuildMessage(
    content: Option<string>,
    mentionEveryone: Option<bool>,
    attachments: Option<seq<string>>,
    embeds: Option<seq<Model>>,
    ark: Option<Model>)

  /** `Message(content)` when the content is truthy. */
  function ContentSegments(content: Option<string>): seq<Segment> {
    if content.Some? && content.value != "" then Parse(content.value) else []
  }

  function EveryonePart(m: GuildMessage): seq<Segment> {
    if m.mentionEveryone == Some(true) then [MentionEveryone] else []
  }

  function ArkPart(m: GuildMessage): seq<Segment> {
    if m.ark.Some? then [Ark(m.ark.value)] else []
  }

  /** The message `from_guild_message` builds. */
  function FromGuild(m: GuildMessage): (r: seq<Segment>)
    ensures m.mentionEveryone == Some(true) ==> |r| > 0 && r[0] == MentionEveryone
    ensures m.ark.Some? ==> |r| > 0 && r[|r| - 1] == Ark(m.ark.value)
  {
    EveryonePart(m)
    + ContentSegments(m.content)
    + UrlAttachments("image", m.attachments.GetOr([]))
    + Embeds(m.embeds.GetOr([]))
    + ArkPart(m)
  }

  /** `msg.extend(...)` over the attachments with a url, one segment at a
      time. */
  method AppendUrlAttachments(msg: seq<Segment>, kind: string, urls: seq<string>) returns (r: seq<Segment>)
    ensures r == msg + UrlAttachments(kind, urls)
  {
    r := msg;
    for i := 0 to |urls|
      invariant r == msg + UrlAttachments(kind, urls[..i])
    {
      assert urls[..i + 1][..i] == urls[..i];
      if urls[i] != "" {
        r := r + [Attachment(kind, urls[i])];
      }
    }
    assert urls[..|urls|] == urls;
  }

  /** `msg.extend(...)` over the embeds, one segment at a time. */
  method AppendEmbeds(msg: seq<Segment>, embeds: seq<Model>) returns (r: seq<Segment>)
    ensures r == msg + Embeds(embeds)
  {
    r := msg;
    for i := 0 to |embeds|
      invariant r == msg + Embeds(embeds[..i])
    {
      assert embeds[..i + 1][..i] == embeds[..i];
      r := r + [Embed(embeds[i])];
    }
    assert embeds[..|embeds|] == embeds;
  }

  /** `msg.extend(Message(content))` when the content is truthy. */
  method AppendContent(msg: seq<Segment>, content: Option<string>) returns (r: seq<Segment>)
    ensures r == msg + ContentSegments(content)
  {
    if content.Some? && content.value != "" {
      var parsed := Construct(content.value);
      r := msg + parsed;
    } else {
      r := msg;
      assert r == msg + [];
    }
  }

  /** `from_guild_message`: appends the parts one after another. */
  method FromGuildMessage(m: GuildMessage) returns (msg: seq<Segment>)
    ensures msg == FromGuild(m)
  {
    msg := [];
    if m.mentionEveryone == Some(true) {
      msg := msg + [MentionEveryone];
    }
    assert msg == EveryonePart(m);
    msg := AppendContent(msg, m.content);
    if m.attachments.Some? && |m.attachments.value| > 0 {
      msg := AppendUrlAttachments(msg, "image", m.attachments.value);
    } else {
      assert msg == msg + UrlAttachments("image", m.attachments.GetOr([]));
    }
    if m.embeds.Some? && |m.embeds.value| > 0 {
      msg := AppendEmbeds(msg, m.embeds.value);
    } else {
      assert msg == msg + Embeds(m.embeds.GetOr([]));
    }
    if m.ark.Some? {
      msg := msg + [Ark(m.ark.value)];
    } else {
      assert msg == msg + ArkPart(m);
    }
  }

  /** The position of each kind of segment in a built guild message. */
  function GuildRank(seg: Segment): nat {
    match seg
    case MentionEveryone => 0
    case Text(_) => 1
    case MentionUser(_) => 1
    case MentionChannel(_) => 1
    case Emoji(_) => 1
    case Attachment(_, _) => 2
    case Embed(_) => 3
    case Ark(_) => 4
    case _ => 5
  }

  lemma ContentRanked(content: Option<string>)
    ensures RankedAs(ContentSegments(content), GuildRank, 1)
  {
    if content.Some? && content.value != "" {
    }
  }

  lemma UrlAttachmentsRanked(kind: string, urls: seq<string>)
    ensures RankedAs(UrlAttachments(kind, urls), GuildRank, 2)
  {
    var r := UrlAttachments(kind, urls);
    UrlAttachmentsSpec(kind, urls);
    forall i | 0 <= i < |r|
      ensures GuildRank(r[i]) == 2
    {
      assert r[i] in r;
    }
  }

  /** No segment of a built guild message precedes one of lower rank. */
  predicate GuildSorted(r: seq<Segment>) {
    SortedBy(r, GuildRank)
  }

  /** Five runs of ranks 0 to 4, in that order, make a sorted message. */
  lemma GuildSortedParts(e: seq<Segment>, c: seq<Segment>, a: seq<Segment>, b: seq<Segment>, k: seq<Segment>)
    requires RankedAs(e, GuildRank, 0) && RankedAs(c, GuildRank, 1) && RankedAs(a, GuildRank, 2)
    requires RankedAs(b, GuildRank, 3) && RankedAs(k, GuildRank, 4)
    ensures GuildSorted(e + c + a + b + k)
  {
    SortedJoin([], e, GuildRank, 0);
    assert [] + e == e;
    SortedJoin(e, c, GuildRank, 1);
    SortedJoin(e + c, a, GuildRank, 2);
    SortedJoin(e + c + a, b, GuildRank, 3);
    SortedJoin(e + c + a + b, k, GuildRank, 4);
  }

  /** `from_guild_message` orders its segments: mention-everyone, then the
      content, then the images, then the embeds, then the ark. */
  lemma FromGuildOrdered(m: GuildMessage)
    ensures GuildSorted(FromGuild(m))
  {
    ContentRanked(m.content);
    UrlAttachmentsRanked("image", m.attachments.GetOr([]));
    GuildSortedParts(EveryonePart(m), ContentSegments(m.content), UrlAttachments("image", m.attachments.GetOr([])),
      Embeds(m.embeds.GetOr([])), ArkPart(m));
  }

  /** The built message holds a mention-everyone segment exactly when the
      guild message's `mention_everyone` is true. */
  lemma FromGuildEveryone(m: GuildMessage)
    ensures MentionEveryone in FromGuild(m) <==> m.mentionEveryone == Some(true)
  {
    ContentRanked(m.content);
    UrlAttachmentsRanked("image", m.attachments.GetOr([]));
    var c := ContentSegments(m.content);
    var a := UrlAttachments("image", m.attachments.GetOr([]));
    assert forall i :: 0 <= i < |c| ==> c[i] != MentionEveryone by {
      forall i | 0 <= i < |c| ensures c[i] != MentionEveryone {
        assert GuildRank(c[i]) == 1;
      }
    }
    assert forall i :: 0 <= i < |a| ==> a[i] != MentionEveryone by {
      forall i | 0 <= i < |a| ensures a[i] != MentionEveryone {
        assert GuildRank(a[i]) == 2;
      }
    }
  }

  /** The attachment segments of the built message are exactly the images
      of the attachments whose url is non-empty. */
  lemma FromGuildImages(m: GuildMessage)
    ensures forall x :: x in FromGuild(m) && x.Attachment? <==>
      x.Attachment? && x.kind == "image" && x.url in m.attachments.GetOr([]) && x.url != ""
  {
    ContentRanked(m.content);
    UrlAttachmentsSpec("image", m.attachments.GetOr([]));
    var c := ContentSegments(m.content);
    forall x | x in c
      ensures !x.Attachment?
    {
      var i :| 0 <= i < |c| && c[i] == x;
      assert GuildRank(c[i]) == 1;
    }
  }

  /** The embeds come one segment each, in order, right before the ark
      (which ends the message when there is one). */
  lemma FromGuildEmbeds(m: GuildMessage)
    ensures var r := FromGuild(m); var n := |r| - |ArkPart(m)|;
      && |Embeds(m.embeds.GetOr([]))| <= n
      && r[n - |m.embeds.GetOr([])|..n] == Embeds(m.embeds.GetOr([]))
      && r[n..] == ArkPart(m)
  {
    var front := EveryonePart(m) + ContentSegments(m.content) + UrlAttachments("image", m.attachments.GetOr([]));
    var b := Embeds(m.embeds.GetOr([]));
    var r := FromGuild(m);
    assert r == front + b + ArkPart(m);
    assert r[|front|..|front| + |b|] == b;
    assert r[|front| + |b|..] == ArkPart(m);
  }

  /** An attachment of a C2C or group message. */
  datatype QQAttachment = QQAttachment(contentType: string, url: Option<string>)

  datatype QQMessageIn = QQMessageIn(content: string, attachments: Option<seq<QQAttachment>>)

  /** The media types `from_qq_message` keeps as segment types. */
  const MediaKinds: set<string> := {"image", "audio", "file", "video"}

  /** `content_type.split("/", maxsplit=1)[0]`, kept when it is a media type
      and replaced by `file` otherwise. */
  function MediaKind(contentType: string): (k: string)
    ensures k in MediaKinds
  {
    var major := Split(contentType, '/')[0];
    if major in MediaKinds then major else "file"
  }

  /** The major type is everything before the first `/`. */
  lemma MediaKindMajor(major: string, rest: string)
    requires '/' !in major
    ensures MediaKind(major + "/" + rest) == (if major in MediaKinds then major else "file")
    ensures MediaKind(major) == (if major in MediaKinds then major else "file")
  {
    var s := major + "/" + rest;
    assert forall i :: 0 <= i < |major| ==> s[i] != '/' by {
      forall i | 0 <= i < |major| ensures s[i] != '/' {
        assert s[i] == major[i];
      }
    }
    assert s[|major|] == '/';
    assert IndexOf(s, '/') == |major| by {
      IndexOfFirst(s, '/', |major|);
    }
    assert s[..|major|] == major;
    assert IndexOf(major, '/') == |major| by {
      IndexOfFirst(major, '/', |major|);
    }
    assert major[..|major|] == major;
  }

  /** `IndexOf` is the first occurrence. */
  lemma IndexOfFirst(s: string, c: char, k: nat)
    requires k <= |s|
    requires forall i :: 0 <= i < k ==> s[i] != c
    requires k < |s| ==> s[k] == c
    ensures IndexOf(s, c) == k
  {
  }

  /** The attachment segments `from_qq_message` builds: one per attachment
      with a non-empty url, typed by its media kind. */
  function QQAttachments(atts: seq<QQAttachment>): (r: seq<Segment>)
    ensures |r| <= |atts|
    decreases |atts|
  {
    if |atts| == 0 then []
    else
      var a := atts[|atts| - 1];
      QQAttachments(atts[..|atts| - 1])
      + (if a.url.Some? && a.url.value != "" then [Attachment(MediaKind(a.contentType), a.url.value)] else [])
  }

  /** Every built attachment comes from an attachment with a url, and is of
      that attachment's media kind; every attachment with a url yields one. */
  lemma {:induction false} QQAttachmentsSpec(atts: seq<QQAttachment>)
    ensures forall x :: x in QQAttachments(atts) <==>
      exists a :: a in atts && a.url.Some? && a.url.value != ""
                 && x == Attachment(MediaKind(a.contentType), a.url.value)
    decreases |atts|
  {
    if |atts| > 0 {
      var init := atts[..|atts| - 1];
      QQAttachmentsSpec(init);
      assert atts == init + [atts[|atts| - 1]];
    }
  }

  /** The message `from_qq_message` builds. */
  function FromQQ(m: QQMessageIn): (r: seq<Segment>)
    ensures m.content == "" ==> r == QQAttachments(m.attachments.GetOr([]))
    ensures m.content != "" && m.attachments.GetOr([]) == [] ==> r == Parse(m.content)
  {
    (if m.content != "" then Parse(m.content) else [])
    + QQAttachments(m.attachments.GetOr([]))
  }

  /** `from_qq_message`: the parsed content, then the attachments one at a
      time. */
  method FromQQMessage(m: QQMessageIn) returns (msg: seq<Segment>)
    ensures msg == FromQQ(m)
  {
    msg := AppendContent([], Some(m.content));
    assert msg == (if m.content != "" then Parse(m.content) else []);
    if m.attachments.Some? && |m.attachments.value| > 0 {
      var atts := m.attachments.value;
      ghost var before := msg;
      for i := 0 to |atts|
        invariant msg == before + QQAttachments(atts[..i])
      {
        assert atts[..i + 1][..i] == atts[..i];
        var a := atts[i];
        if a.url.Some? && a.url.value != "" {
          msg := msg + [Attachment(MediaKind(a.contentType), a.url.value)];
        }
      }
      assert atts[..|atts|] == atts;
    } else {
      assert msg == msg + QQAttachments(m.attachments.GetOr([]));
    }
  }

  /** Every attachment segment of a built QQ message has one of the four
      media types and a non-empty url. */
  lemma FromQQKinds(m: QQMessageIn)
    ensures forall x :: x in FromQQ(m) && x.Attachment? ==> x.kind in MediaKinds && x.url != ""
  {
    var c := if m.content != "" then Parse(m.content) else [];
    if m.content != "" {
    }
    assert forall x :: x in c ==> !x.Attachment? by {
      forall x | x in c ensures !x.Attachment? {
        var i :| 0 <= i < |c| && c[i] == x;
      }
    }
    QQAttachmentsSpec(m.attachments.GetOr([]));
  }
}
