/** Message segments: the typed parts of a chat message. All three message
    modules (qq, packaged qqguild, older qqguild) build their messages from
    this one datatype; each defines which kinds it can produce and how they
    render. */
module Segments {
  import opened Wrappers
  import opened PyStr

  /** A structured payload (embed, ark, markdown, keyboard, ...). Its Python
      `repr()` and `str()` texts are carried as given. */
  datatype Model = Model(reprText: string, strText: string)

  /** `MessageReference`. */
  datatype Ref = Ref(messageId: string, ignoreGetMessageError: Option<bool>)

  datatype Segment =
    | Text(text: string)
    | Emoji(id: string)
    | MentionUser(userId: string)
    | MentionChannel(channelId: string)
    | MentionEveryone
    | Attachment(kind: string, url: string)
    | LocalAttachment(kind: string, content: seq<Byte>)
    | Embed(embed: Model)
    | Ark(ark: Model)
    | Markdown(markdown: Model)
    | Keyboard(keyboard: Model)
    | Reference(reference: Ref)
    | Stream(stream: Model)
    | PromptKeyboard(promptKeyboard: Model)
    | ActionButton(actionButton: Model)

  /** The segment's `type` string. */
  function TypeName(s: Segment): string {
    match s
    case Text(_) => "text"
    case Emoji(_) => "emoji"
    case MentionUser(_) => "mention_user"
    case MentionChannel(_) => "mention_channel"
    case MentionEveryone => "mention_everyone"
    case Attachment(k, _) => k
    case LocalAttachment(k, _) => k
    case Embed(_) => "embed"
    case Ark(_) => "ark"
    case Markdown(_) => "markdown"
    case Keyboard(_) => "keyboard"
    case Reference(_) => "reference"
    case Stream(_) => "stream"
    case PromptKeyboard(_) => "prompt_keyboard"
    case ActionButton(_) => "action_button"
  }

  /** The segments that `extract_content` keeps: text, emoji and mentions. */
  predicate IsContent(s: Segment) {
    s.Text? || s.Emoji? || s.MentionUser? || s.MentionChannel? || s.MentionEveryone?
  }

  /** `extract_plain_text`: the raw text of the text segments, in order. */
  function PlainText(msg: seq<Segment>): (r: string)
    ensures |msg| == 0 ==> r == ""
    ensures |msg| > 0 && !msg[0].Text? ==> r == PlainText(msg[1..])
  {
    if |msg| == 0 then ""
    else if msg[0].Text? then msg[0].text + PlainText(msg[1..])
    else PlainText(msg[1..])
  }

  /** Plain text distributes over concatenation of messages. */
  lemma {:induction false} PlainTextAppend(a: seq<Segment>, b: seq<Segment>)
    ensures PlainText(a + b) == PlainText(a) + PlainText(b)
  {
    if |a| == 0 {
      assert a + b == b;
    } else {
      assert (a + b)[1..] == a[1..] + b;
      PlainTextAppend(a[1..], b);
    }
  }

  /** A message without text segments has no plain text. */
  lemma {:induction false} PlainTextNoText(msg: seq<Segment>)
    requires forall i :: 0 <= i < |msg| ==> !msg[i].Text?
    ensures PlainText(msg) == ""
  {
    if |msg| > 0 {
      PlainTextNoText(msg[1..]);
    }
  }

  /** `Message + str` and `MessageSegment + str`: the string is appended as
      one text segment, never parsed. */
  function AddText(msg: seq<Segment>, s: string): (r: seq<Segment>)
    ensures |r| == |msg| + 1 && r[..|msg|] == msg && r[|msg|] == Text(s)
  {
    msg + [Text(s)]
  }

  /** `str + Message` and `str + MessageSegment`: the string becomes one
      leading text segment. */
  function PrependText(s: string, msg: seq<Segment>): (r: seq<Segment>)
    ensures |r| == |msg| + 1 && r[0] == Text(s) && r[1..] == msg
  {
    [Text(s)] + msg
  }

  /** Appending a string adds exactly that string to the plain text. */
  lemma AddTextPlain(msg: seq<Segment>, s: string)
    ensures PlainText(AddText(msg, s)) == PlainText(msg) + s
  {
    PlainTextAppend(msg, [Text(s)]);
  }

  /** The attachment segments of kind `kind` built for the non-empty urls
      of a list, in order (`url` is falsy exactly when it is empty). */
  function UrlAttachments(kind: string, urls: seq<string>): (r: seq<Segment>)
    ensures |r| <= |urls|
    decreases |urls|
  {
    if |urls| == 0 then []
    else UrlAttachments(kind, urls[..|urls| - 1])
         + (if urls[|urls| - 1] != "" then [Attachment(kind, urls[|urls| - 1])] else [])
  }

  /** The segments built are exactly the attachments of kind `kind` whose url
      is a non-empty url of the list. */
  lemma {:induction false} UrlAttachmentsSpec(kind: string, urls: seq<string>)
    ensures forall x :: x in UrlAttachments(kind, urls) <==>
      x.Attachment? && x.kind == kind && x.url in urls && x.url != ""
    decreases |urls|
  {
    if |urls| > 0 {
      var init := urls[..|urls| - 1];
      UrlAttachmentsSpec(kind, init);
      assert urls == init + [urls[|urls| - 1]];
    }
  }

  /** One embed segment per embed, in order. */
  function Embeds(embeds: seq<Model>): (r: seq<Segment>)
    ensures |r| == |embeds|
    ensures forall i :: 0 <= i < |r| ==> r[i] == Embed(embeds[i])
    decreases |embeds|
  {
    if |embeds| == 0 then []
    else Embeds(embeds[..|embeds| - 1]) + [Embed(embeds[|embeds| - 1])]
  }

  /** No segment comes before one of lower rank. */
  predicate SortedBy(r: seq<Segment>, rank: Segment -> nat) {
    forall i, j :: 0 <= i < j < |r| ==> rank(r[i]) <= rank(r[j])
  }

  /** Every segment has rank `k`. */
  predicate RankedAs(r: seq<Segment>, rank: Segment -> nat, k: nat) {
    forall i :: 0 <= i < |r| ==> rank(r[i]) == k
  }

  /** Every segment has rank at most `k`. */
  predicate RankedBelow(r: seq<Segment>, rank: Segment -> nat, k: nat) {
    forall i :: 0 <= i < |r| ==> rank(r[i]) <= k
  }

  /** A sorted message followed by segments of one rank no lower than any
      before them is sorted, and ranked no higher than that rank. */
  lemma SortedJoin(a: seq<Segment>, b: seq<Segment>, rank: Segment -> nat, k: nat)
    requires SortedBy(a, rank) && RankedBelow(a, rank, k) && RankedAs(b, rank, k)
    ensures SortedBy(a + b, rank) && RankedBelow(a + b, rank, k)
  {
    var r := a + b;
    forall i, j | 0 <= i < j < |r|
      ensures rank(r[i]) <= rank(r[j])
    {
      if j >= |a| {
        assert r[j] == b[j - |a|];
        if i >= |a| {
          assert r[i] == b[i - |a|];
        }
      }
    }
    forall i | 0 <= i < |r|
      ensures rank(r[i]) <= k
    {
      if i >= |a| {
        assert r[i] == b[i - |a|];
      }
    }
  }
}
