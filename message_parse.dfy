/** Parsing message text into segments, shared by the three message modules
    (their `_construct` methods are identical): the text is cut at every
    `<@id>`, `<#id>` and `<emoji:id>` tag (an optional `!` may precede the
    id, which is a run of word characters), the text between tags is
    unescaped, and empty text pieces are not emitted. */
module MessageParse {
  import opened Wrappers
  import opened PyStr
  import opened Utils
  import opened Segments

  datatype TagKind = User | Channel | EmojiTag

  /** One match of the tag pattern at the start of a string. */
  datatype Match = Match(kind: TagKind, bang: bool, id: string, len: nat)

  function Opener(k: TagKind): string {
    match k
    case User => "<@"
    case Channel => "<#"
    case EmojiTag => "<emoji:"
  }

  function BangText(bang: bool): string {
    if bang then "!" else ""
  }

  /** The text a match spans. */
  function TagText(m: Match): string {
    Opener(m.kind) + BangText(m.bang) + m.id + ">"
  }

  predicate IsWord(s: string) {
    forall i :: 0 <= i < |s| ==> IsWordChar(s[i])
  }

  /** Where the matcher is: before the `<`, after it, inside `emoji:`
      with `i` characters of `<emoji:` read, right after the whole opener,
      or inside the id (which starts at `start`, after the optional `!`). */
  datatype ScanState =
    | Start
    | Lt
    | Emo(i: nat)
    | Opened(kind: TagKind)
    | InId(kind: TagKind, bang: bool, start: nat)

  function Rank(st: ScanState): nat {
    match st
    case Opened(_) => 1
    case _ => 0
  }

  /** The regex `<(@|#|emoji:)!?(\w+?)>` run from position `j` of `s` in
      state `st`, one character at a time. The optional `!` is taken only
      when it is there (the id cannot start with `!`), and the lazy `\w+?`
      followed by `>` succeeds exactly when the run of word characters from
      `start` is non-empty and ends at a `>`. */
  function Scan(s: string, j: nat, st: ScanState): (r: Option<Match>)
    requires j <= |s|
    ensures r.Some? ==> 0 < r.value.len <= |s|
    decreases |s| - j, Rank(st)
  {
    match st
    case Start =>
      if j < |s| && s[j] == '<' then Scan(s, j + 1, Lt) else None
    case Lt =>
      if j == |s| then None
      else if s[j] == '@' then Scan(s, j + 1, Opened(User))
      else if s[j] == '#' then Scan(s, j + 1, Opened(Channel))
      else if s[j] == 'e' then Scan(s, j + 1, Emo(2))
      else None
    case Emo(i) =>
      if j == |s| || i >= 7 || s[j] != "<emoji:"[i] then None
      else if i == 6 then Scan(s, j + 1, Opened(EmojiTag))
      else Scan(s, j + 1, Emo(i + 1))
    case Opened(k) =>
      if j < |s| && s[j] == '!' then Scan(s, j + 1, InId(k, true, j + 1))
      else Scan(s, j, InId(k, false, j))
    case InId(k, bang, start) =>
      if j == |s| then None
      else if IsWordChar(s[j]) then Scan(s, j + 1, st)
      else if s[j] == '>' && start < j then Some(Match(k, bang, s[start..j], j + 1))
      else None
  }

  /** The regex match attempted at position 0 of `s`. */
  function MatchAt(s: string): (r: Option<Match>)
    ensures r.Some? ==> 0 < r.value.len <= |s|
  {
    Scan(s, 0, Start)
  }

  /** Only a `<` can start a tag. */
  lemma MatchAtLt(s: string)
    requires |s| == 0 || s[0] != '<'
    ensures MatchAt(s).None?
  {
  }

  /** What the matcher has read inside the id: the opener, the optional
      `!` and word characters from `start` up to `j`. */
  predicate IdOk(s: string, j: nat, k: TagKind, bang: bool, start: nat) {
    && start == |Opener(k)| + |BangText(bang)| <= j <= |s|
    && s[..start] == Opener(k) + BangText(bang)
    && IsWord(s[start..j])
  }

  lemma {:induction false} ScanIdText(s: string, j: nat, k: TagKind, bang: bool, start: nat)
    requires IdOk(s, j, k, bang, start)
    ensures var r := Scan(s, j, InId(k, bang, start));
      r.Some? ==> s[..r.value.len] == TagText(r.value) && |r.value.id| > 0 && IsWord(r.value.id)
    decreases |s| - j
  {
    var st := InId(k, bang, start);
    if j < |s| {
      if IsWordChar(s[j]) {
        assert Scan(s, j, st) == Scan(s, j + 1, st);
        IdOkStep(s, j, k, bang, start);
        ScanIdText(s, j + 1, k, bang, start);
      } else if s[j] == '>' && start < j {
        assert Scan(s, j, st) == Some(Match(k, bang, s[start..j], j + 1));
        CloseTag(s, j, k, bang, start);
      }
    }
  }

  /** A word character extends the id read so far. */
  lemma IdOkStep(s: string, j: nat, k: TagKind, bang: bool, start: nat)
    requires IdOk(s, j, k, bang, start) && j < |s| && IsWordChar(s[j])
    ensures IdOk(s, j + 1, k, bang, start)
  {
    var w := s[start..j + 1];
    assert w == s[start..j] + [s[j]];
    forall i | 0 <= i < |w| ensures IsWordChar(w[i]) {
      if i < j - start {
        assert w[i] == s[start..j][i];
      }
    }
  }

  /** The `>` that ends a non-empty id completes the tag's text. */
  lemma CloseTag(s: string, j: nat, k: TagKind, bang: bool, start: nat)
    requires IdOk(s, j, k, bang, start) && j < |s| && s[j] == '>'
    ensures s[..j + 1] == TagText(Match(k, bang, s[start..j], j + 1))
  {
    assert s[..j + 1] == s[..j] + [s[j]];
    assert s[..j] == s[..start] + s[start..j];
  }

  lemma ScanOpenedText(s: string, k: TagKind)
    requires |Opener(k)| <= |s| && s[..|Opener(k)|] == Opener(k)
    ensures var r := Scan(s, |Opener(k)|, Opened(k));
      r.Some? ==> s[..r.value.len] == TagText(r.value) && |r.value.id| > 0 && IsWord(r.value.id)
  {
    var j := |Opener(k)|;
    if j < |s| && s[j] == '!' {
      assert s[..j + 1] == s[..j] + [s[j]];
      assert s[j + 1..j + 1] == "";
      ScanIdText(s, j + 1, k, true, j + 1);
    } else {
      assert s[j..j] == "";
      ScanIdText(s, j, k, false, j);
    }
  }

  lemma {:induction false} ScanEmoText(s: string, i: nat)
    requires 2 <= i <= 6 && i <= |s| && s[..i] == "<emoji:"[..i]
    ensures var r := Scan(s, i, Emo(i));
      r.Some? ==> s[..r.value.len] == TagText(r.value) && |r.value.id| > 0 && IsWord(r.value.id)
    decreases 7 - i
  {
    if i < |s| && s[i] == "<emoji:"[i] {
      assert s[..i + 1] == s[..i] + [s[i]];
      assert "<emoji:"[..i + 1] == "<emoji:"[..i] + ["<emoji:"[i]];
      if i == 6 {
        ScanOpenedText(s, EmojiTag);
      } else {
        ScanEmoText(s, i + 1);
      }
    }
  }

  /** A match spans exactly the text of its tag, and its id is a non-empty
      run of word characters. */
  lemma MatchAtText(s: string)
    requires MatchAt(s).Some?
    ensures s[..MatchAt(s).value.len] == TagText(MatchAt(s).value)
    ensures |MatchAt(s).value.id| > 0 && IsWord(MatchAt(s).value.id)
  {
    assert 0 < |s| && s[0] == '<';
    assert MatchAt(s) == Scan(s, 1, Lt);
    assert 1 < |s|;
    assert s[..2] == [s[0], s[1]];
    if s[1] == '@' {
      assert MatchAt(s) == Scan(s, 2, Opened(User));
      ScanOpenedText(s, User);
    } else if s[1] == '#' {
      assert MatchAt(s) == Scan(s, 2, Opened(Channel));
      ScanOpenedText(s, Channel);
    } else {
      assert s[1] == 'e' && MatchAt(s) == Scan(s, 2, Emo(2));
      assert "<emoji:"[..2] == "<e";
      ScanEmoText(s, 2);
    }
  }

  /** Reading the rest of `<emoji:` once its first `i` characters are read. */
  lemma {:induction false} ScanEmoji(s: string, i: nat)
    requires 2 <= i <= 6 && 7 <= |s| && s[..7] == "<emoji:"
    ensures Scan(s, i, Emo(i)) == Scan(s, 7, Opened(EmojiTag))
    decreases 7 - i
  {
    assert s[i] == s[..7][i];
    if i < 6 {
      ScanEmoji(s, i + 1);
    }
  }

  /** Reading a whole opener leads to the state right after it. */
  lemma ScanOpener(s: string, k: TagKind)
    requires |Opener(k)| <= |s| && s[..|Opener(k)|] == Opener(k)
    ensures Scan(s, 0, Start) == Scan(s, |Opener(k)|, Opened(k))
  {
    assert s[0] == s[..|Opener(k)|][0] && s[1] == s[..|Opener(k)|][1];
    if k == EmojiTag {
      ScanEmoji(s, 2);
    }
  }

  lemma {:induction false} ScanId(m: Match, s: string, start: nat, j: nat)
    requires |m.id| > 0 && IsWord(m.id)
    requires start <= j <= start + |m.id| < |s| && s[start..start + |m.id| + 1] == m.id + ">"
    requires m.len == start + |m.id| + 1
    ensures Scan(s, j, InId(m.kind, m.bang, start)) == Some(m)
    decreases |s| - j
  {
    var e := start + |m.id|;
    var w := s[start..e + 1];
    assert w == m.id + ">";
    assert s[e] == w[|m.id|] == (m.id + ">")[|m.id|] == '>';
    if j < e {
      assert s[j] == w[j - start] == (m.id + ">")[j - start] == m.id[j - start];
      ScanId(m, s, start, j + 1);
    } else {
      assert s[start..j] == w[..|m.id|] == (m.id + ">")[..|m.id|] == m.id;
    }
  }

  /** Where the parts of a tag sit in a string that starts with it. */
  lemma TagTextParts(m: Match, rest: string)
    requires |m.id| > 0
    ensures var s := TagText(m) + rest; var o := Opener(m.kind); var start := |o| + |BangText(m.bang)|;
      && start + |m.id| < |s|
      && s[..|o|] == o
      && s[|o|] == (if m.bang then '!' else m.id[0])
      && s[start..start + |m.id| + 1] == m.id + ">"
  {
    var s := TagText(m) + rest;
    var o := Opener(m.kind);
    var b := BangText(m.bang);
    var tail := m.id + ">" + rest;
    Regroup5(o, b, m.id, ">", rest);
    assert s == o + (b + tail);
    assert s[..|o|] == o;
    var bt := s[|o|..];
    assert bt == b + tail;
    assert s[|o| + |b|..] == bt[|b|..] == tail;
    assert tail[..|m.id| + 1] == m.id + ">";
    if !m.bang {
      assert bt[0] == tail[0] == m.id[0];
    }
  }

  lemma Regroup5<T>(a: seq<T>, b: seq<T>, c: seq<T>, d: seq<T>, e: seq<T>)
    ensures a + b + c + d + e == a + (b + (c + d + e))
  {
  }

  /** The tag of a well-formed match is recognised again, in full. */
  lemma MatchTagText(m: Match, rest: string)
    requires |m.id| > 0 && IsWord(m.id)
    requires m.len == |TagText(m)|
    ensures MatchAt(TagText(m) + rest) == Some(m)
  {
    var s := TagText(m) + rest;
    var k := |Opener(m.kind)|;
    var start := k + |BangText(m.bang)|;
    TagTextParts(m, rest);
    ScanOpener(s, m.kind);
    assert m.len == start + |m.id| + 1;
    ScanId(m, s, start, start);
  }

  function TagSegment(m: Match): Segment {
    match m.kind
    case User => MentionUser(m.id)
    case Channel => MentionChannel(m.id)
    case EmojiTag => Emoji(m.id)
  }

  /** The text segment for a pending piece: none when the piece is empty. */
  function TextSeg(pending: string): (r: seq<Segment>)
    ensures pending == [] <==> r == []
    ensures r != [] ==> r == [Text(Unescape(pending))]
  {
    if pending == [] then [] else [Text(Unescape(pending))]
  }

  /** `re.finditer`'s next match at or after position `j`: the first
      position where the tag pattern matches, with that match. */
  function Find(s: string, j: nat): (r: Option<(nat, Match)>)
    requires j <= |s|
    ensures r.Some? ==> j <= r.value.0 < |s| && r.value.0 + r.value.1.len <= |s|
    ensures r.Some? ==> 0 < r.value.1.len
    decreases |s| - j
  {
    if j == |s| then None
    else
      match MatchAt(s[j..])
      case Some(m) => Some((j, m))
      case None => Find(s, j + 1)
  }

  /** `Find` returns the leftmost match: the pattern matches at the position
      it reports and nowhere between `j` and there; when it reports none,
      the pattern matches nowhere from `j` on. */
  lemma {:induction false} FindLeftmost(s: string, j: nat)
    requires j <= |s|
    ensures Find(s, j).Some? ==> MatchAt(s[Find(s, j).value.0..]) == Some(Find(s, j).value.1)
    ensures Find(s, j).Some? ==> forall q :: j <= q < Find(s, j).value.0 ==> MatchAt(s[q..]).None?
    ensures Find(s, j).None? ==> forall q :: j <= q < |s| ==> MatchAt(s[q..]).None?
    decreases |s| - j
  {
    if j < |s| && MatchAt(s[j..]).None? {
      FindLeftmost(s, j + 1);
    }
  }

  /** Spans of matches that start at or after `from`, each at or after the
      end of the one before, are non-empty and end by `to`. */
  predicate Ordered(ms: seq<(nat, Match)>, from: nat, to: nat)
    decreases |ms|
  {
    if ms == [] then from <= to
    else
      && from <= ms[0].0
      && 0 < ms[0].1.len
      && ms[0].0 + ms[0].1.len <= to
      && Ordered(ms[1..], ms[0].0 + ms[0].1.len, to)
  }

  /** `re.finditer` from position `j`: the leftmost match, then the matches
      after its end. */
  function Matches(s: string, j: nat): (ms: seq<(nat, Match)>)
    requires j <= |s|
    ensures Ordered(ms, j, |s|)
    decreases |s| - j
  {
    match Find(s, j)
    case None => []
    case Some((p, m)) =>
      var rest := Matches(s, p + m.len);
      assert ([(p, m)] + rest)[1..] == rest;
      [(p, m)] + rest
  }

  /** The segments of `msg` from `textBegin` on, given the matches still
      ahead: the text up to the next match and its tag, then the rest; the
      text after the last match closes the list. */
  function ParseWith(msg: string, textBegin: nat, ms: seq<(nat, Match)>): seq<Segment>
    requires Ordered(ms, textBegin, |msg|)
    decreases |ms|
  {
    if ms == [] then TextSeg(msg[textBegin..])
    else
      var (p, m) := ms[0];
      TextSeg(msg[textBegin..p]) + [TagSegment(m)] + ParseWith(msg, p + m.len, ms[1..])
  }

  /** `Message(str)`: the segments of a string. They are only text,
      mention and emoji segments, with no empty text segment and no two
      text segments side by side. */
  function Parse(s: string): (r: seq<Segment>)
    ensures ParsedKinds(r) && Compact(r)
  {
    ParseWithShape(s, 0, Matches(s, 0));
    ParseWith(s, 0, Matches(s, 0))
  }

  /** One turn of `_construct`'s loop keeps its invariant: with the text
      before match `i` and its tag emitted, what is left to emit is the
      parse after that match. */
  lemma ConstructStep(msg: string, textBegin: nat, matches: seq<(nat, Match)>, i: nat, p: nat, m: Match,
                      before: seq<Segment>, after: seq<Segment>, whole: seq<Segment>)
    requires i < |matches| && matches[i] == (p, m) && Ordered(matches[i..], textBegin, |msg|)
    requires before + ParseWith(msg, textBegin, matches[i..]) == whole
    requires after == before + TextSeg(msg[textBegin..p]) + [TagSegment(m)]
    ensures p + m.len <= |msg| && Ordered(matches[i + 1..], p + m.len, |msg|)
    ensures after + ParseWith(msg, p + m.len, matches[i + 1..]) == whole
  {
    var ms := matches[i..];
    assert ms[0] == (p, m) && ms[1..] == matches[i + 1..];
    var head := TextSeg(msg[textBegin..p]) + [TagSegment(m)];
    var rest := ParseWith(msg, p + m.len, matches[i + 1..]);
    ParseWithStep(msg, textBegin, ms);
    Regroup(before, head, rest, ParseWith(msg, textBegin, ms), after, whole);
  }

  /** One step of `ParseWith`: the text before the next match and its tag,
      then the rest. */
  lemma ParseWithStep(msg: string, textBegin: nat, ms: seq<(nat, Match)>)
    requires ms != [] && Ordered(ms, textBegin, |msg|)
    ensures Ordered(ms[1..], ms[0].0 + ms[0].1.len, |msg|)
    ensures ParseWith(msg, textBegin, ms)
         == TextSeg(msg[textBegin..ms[0].0]) + [TagSegment(ms[0].1)] + ParseWith(msg, ms[0].0 + ms[0].1.len, ms[1..])
  {
  }

  lemma Regroup<T>(before: seq<T>, head: seq<T>, rest: seq<T>, x: seq<T>, after: seq<T>, whole: seq<T>)
    requires x == head + rest && before + x == whole && after == before + head
    ensures after + rest == whole
  {
    AppendAssoc(before, head, rest);
  }

  lemma AppendAssoc<T>(a: seq<T>, b: seq<T>, c: seq<T>)
    ensures a + (b + c) == (a + b) + c
  {
  }

  /** One turn of `_construct`'s loop: emits the text before match `i`
      (unescaped, when there is any) and the match's tag, and returns where
      the text after the match starts. */
  method EmitMatch(msg: string, textBegin: nat, matches: seq<(nat, Match)>, i: nat,
                   segs: seq<Segment>, ghost whole: seq<Segment>)
      returns (segs': seq<Segment>, next: nat)
    requires i < |matches| && Ordered(matches[i..], textBegin, |msg|)
    requires segs + ParseWith(msg, textBegin, matches[i..]) == whole
    ensures Ordered(matches[i + 1..], next, |msg|)
    ensures segs' + ParseWith(msg, next, matches[i + 1..]) == whole
  {
    var (p, m) := matches[i];
    segs' := segs;
    var content := msg[textBegin..p];
    if content != [] {
      segs' := segs' + [Text(Unescape(content))];
    }
    segs' := segs' + [TagSegment(m)];
    ConstructStep(msg, textBegin, matches, i, p, m, segs, segs', whole);
    next := p + m.len;
  }

  /** `_construct`: iterates over the matches of `re.finditer`, keeping in
      `textBegin` where the text after the previous match starts. */
  method Construct(msg: string) returns (segs: seq<Segment>)
    ensures segs == Parse(msg)
  {
    var matches := Matches(msg, 0);
    segs := [];
    var textBegin: nat := 0;
    ghost var whole := ParseWith(msg, 0, matches);
    for i := 0 to |matches|
      invariant Ordered(matches[i..], textBegin, |msg|)
      invariant segs + ParseWith(msg, textBegin, matches[i..]) == whole
    {
      segs, textBegin := EmitMatch(msg, textBegin, matches, i, segs, whole);
    }
    assert matches[|matches|..] == [];
    var content := msg[textBegin..];
    if content != [] {
      segs := segs + [Text(Unescape(content))];
    }
  }

  /** Every segment the parser produces is text, a mention or an emoji. */
  predicate ParsedKinds(r: seq<Segment>) {
    forall i :: 0 <= i < |r| ==> r[i].Text? || r[i].MentionUser? || r[i].MentionChannel? || r[i].Emoji?
  }

  /** No empty text segment, and no two text segments side by side. */
  ghost predicate Compact(r: seq<Segment>) {
    && (forall i :: 0 <= i < |r| && r[i].Text? ==> |r[i].text| > 0)
    && (forall i, j :: 0 <= i < j < |r| && j == i + 1 ==> !(r[i].Text? && r[j].Text?))
  }

  /** A text piece is at most one non-empty text segment. */
  lemma TextSegShape(pending: string)
    ensures ParsedKinds(TextSeg(pending)) && Compact(TextSeg(pending))
    ensures |TextSeg(pending)| <= 1
  {
    if pending != [] {
      assert |Unescape(pending)| > 0;
    }
  }

  /** A text piece, a tag and a well-shaped rest make a well-shaped whole. */
  lemma ShapeJoin(text: seq<Segment>, tag: Segment, tail: seq<Segment>)
    requires |text| <= 1 && ParsedKinds(text) && Compact(text)
    requires tag.MentionUser? || tag.MentionChannel? || tag.Emoji?
    requires ParsedKinds(tail) && Compact(tail)
    ensures ParsedKinds(text + [tag] + tail) && Compact(text + [tag] + tail)
  {
    var head := text + [tag];
    var r := head + tail;
    forall i, j | 0 <= i < j < |r| && j == i + 1
      ensures !(r[i].Text? && r[j].Text?)
    {
      if i >= |head| {
        assert r[i] == tail[i - |head|] && r[j] == tail[j - |head|];
      }
    }
  }

  lemma {:induction false} ParseWithShape(msg: string, textBegin: nat, ms: seq<(nat, Match)>)
    requires Ordered(ms, textBegin, |msg|)
    ensures ParsedKinds(ParseWith(msg, textBegin, ms))
    ensures Compact(ParseWith(msg, textBegin, ms))
    decreases |ms|
  {
    if ms == [] {
      TextSegShape(msg[textBegin..]);
    } else {
      ParseWithShape(msg, ms[0].0 + ms[0].1.len, ms[1..]);
      ShapeStep(msg, textBegin, ms);
    }
  }

  /** The text before the next match, its tag and a well-shaped rest make a
      well-shaped parse. */
  lemma ShapeStep(msg: string, textBegin: nat, ms: seq<(nat, Match)>)
    requires ms != [] && Ordered(ms, textBegin, |msg|)
    requires ParsedKinds(ParseWith(msg, ms[0].0 + ms[0].1.len, ms[1..]))
    requires Compact(ParseWith(msg, ms[0].0 + ms[0].1.len, ms[1..]))
    ensures ParsedKinds(ParseWith(msg, textBegin, ms))
    ensures Compact(ParseWith(msg, textBegin, ms))
  {
    var (p, m) := ms[0];
    ParseWithStep(msg, textBegin, ms);
    TextSegShape(msg[textBegin..p]);
    ShapeJoin(TextSeg(msg[textBegin..p]), TagSegment(m), ParseWith(msg, p + m.len, ms[1..]));
  }

  /** No tag starts inside a stretch of text without `<`. */
  lemma {:induction false} FindSkip(s: string, j: nat, k: nat)
    requires j <= k <= |s|
    requires forall q :: j <= q < k ==> s[q] != '<'
    ensures Find(s, j) == Find(s, k)
    decreases k - j
  {
    if j < k {
      MatchAtLt(s[j..]);
      FindSkip(s, j + 1, k);
    }
  }

  /** An escaped non-empty string parses back to one text segment. */
  lemma ParseEscaped(t: string)
    requires |t| > 0
    ensures Parse(Escape(t)) == [Text(t)]
  {
    var s := Escape(t);
    EscapeNoAngle(t);
    FindSkip(s, 0, |s|);
    assert Matches(s, 0) == [];
    assert s[0..] == s;
    UnescapeEscape(t);
  }

  /** The match a mention or emoji segment renders as: no `!`, and the id
      followed by `>` right after the opener. */
  function TagMatch(seg: Segment): (m: Match)
    requires seg.MentionUser? || seg.MentionChannel? || seg.Emoji?
    ensures TagSegment(m) == seg && !m.bang && m.len == |TagText(m)|
  {
    match seg
    case MentionUser(u) => Match(User, false, u, |Opener(User)| + |u| + 1)
    case MentionChannel(c) => Match(Channel, false, c, |Opener(Channel)| + |c| + 1)
    case Emoji(e) => Match(EmojiTag, false, e, |Opener(EmojiTag)| + |e| + 1)
  }

  /** The text of one well-formed tag parses back to exactly its segment. */
  lemma ParseTag(m: Match)
    requires |m.id| > 0 && IsWord(m.id) && m.len == |TagText(m)|
    ensures Parse(TagText(m)) == [TagSegment(m)]
  {
    var s := TagText(m);
    MatchTagText(m, "");
    assert s + "" == s && s[0..] == s;
    assert Find(s, 0) == Some((0, m));
    assert Find(s, |s|) == None;
    var ms := Matches(s, 0);
    assert ms == [(0, m)];
    assert s[0..0] == [] && s[|s|..] == [];
    assert ParseWith(s, |s|, ms[1..]) == [];
  }
}
