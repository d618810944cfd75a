/** The adapter's HTML-like text escaping of `&`, `<` and `>`
    (`escape` / `unescape`, identical in the qq and qqguild trees). */
module Utils {
  import opened PyStr

  /** `escape`: `&` first, then `<`, then `>`. The chain encodes every
      `&`, `<` and `>` as its entity and keeps every other character. */
  function Escape(s: string): (r: string)
    ensures r == Enc(s, true, true)
  {
    AmpStep(s);
    LtStep(s);
    GtStep(s);
    Replace(Replace(Replace(s, "&", "&amp;"), "<", "&lt;"), ">", "&gt;")
  }

  /** `unescape`: `&lt;`, then `&gt;`, then `&amp;`. Every entity is
      replaced by a character, so non-empty text stays non-empty. */
  function Unescape(s: string): (r: string)
    ensures |s| > 0 ==> |r| > 0
  {
    Replace(Replace(Replace(s, "&lt;", "<"), "&gt;", ">"), "&amp;", "&")
  }

  /** Text without `&` holds no entity and is left as it is. */
  lemma UnescapePlain(s: string)
    requires '&' !in s
    ensures Unescape(s) == s
  {
    ReplaceNoLead(s, "&lt;", "<");
    ReplaceNoLead(s, "&gt;", ">");
    ReplaceNoLead(s, "&amp;", "&");
  }

  /** What one character becomes when `&` is always encoded and `<` / `>`
      are encoded when `lt` / `gt` hold: the intermediate strings of both
      replacement chains are all of this form. */
  function Piece(c: char, lt: bool, gt: bool): string {
    if c == '&' then "&amp;"
    else if c == '<' && lt then "&lt;"
    else if c == '>' && gt then "&gt;"
    else [c]
  }

  function Enc(s: string, lt: bool, gt: bool): string
    decreases |s|
  {
    if |s| == 0 then "" else Piece(s[0], lt, gt) + Enc(s[1..], lt, gt)
  }

  /** `Replace` copies a prefix in which no position can start `pat`,
      judged by the first two characters of `pat` only. */
  predicate NoStartAt(p: string, pat: string, i: nat)
    requires 0 < |pat| && i < |p|
  {
    p[i] != pat[0] || (1 < |pat| && i + 1 < |p| && p[i + 1] != pat[1])
  }

  lemma ReplaceSkipShort(p: string, rest: string, pat: string, rep: string)
    requires |pat| > 0
    requires forall i: nat :: i < |p| ==> NoStartAt(p, pat, i)
    ensures Replace(p + rest, pat, rep) == p + Replace(rest, pat, rep)
  {
    forall i | 0 <= i < |p|
      ensures !StartsWith((p + rest)[i..], pat)
    {
      assert NoStartAt(p, pat, i);
      var w := (p + rest)[i..];
      if |pat| <= |w| {
        assert w[..|pat|][0] == p[i];
        if p[i] == pat[0] {
          assert w[..|pat|][1] == p[i + 1];
        }
      }
    }
    ReplaceSkip(p, rest, pat, rep);
  }

  lemma {:induction false} AmpStep(s: string)
    ensures Replace(s, "&", "&amp;") == Enc(s, false, false)
    decreases |s|
  {
    if |s| > 0 {
      AmpStep(s[1..]);
      assert s == [s[0]] + s[1..];
      if s[0] == '&' {
        ReplaceHit("&", s[1..], "&amp;");
      } else {
        ReplaceSkipShort([s[0]], s[1..], "&", "&amp;");
      }
    }
  }

  lemma {:induction false} LtStep(s: string)
    ensures Replace(Enc(s, false, false), "<", "&lt;") == Enc(s, true, false)
    decreases |s|
  {
    if |s| > 0 {
      LtStep(s[1..]);
      var p := Piece(s[0], false, false);
      if s[0] == '<' {
        ReplaceHit("<", Enc(s[1..], false, false), "&lt;");
      } else {
        ReplaceSkipShort(p, Enc(s[1..], false, false), "<", "&lt;");
      }
    }
  }

  lemma {:induction false} GtStep(s: string)
    ensures Replace(Enc(s, true, false), ">", "&gt;") == Enc(s, true, true)
    decreases |s|
  {
    if |s| > 0 {
      GtStep(s[1..]);
      var p := Piece(s[0], true, false);
      if s[0] == '>' {
        ReplaceHit(">", Enc(s[1..], true, false), "&gt;");
      } else {
        ReplaceSkipShort(p, Enc(s[1..], true, false), ">", "&gt;");
      }
    }
  }

  lemma {:induction false} UnLtStep(s: string)
    ensures Replace(Enc(s, true, true), "&lt;", "<") == Enc(s, false, true)
    decreases |s|
  {
    if |s| > 0 {
      UnLtStep(s[1..]);
      var p := Piece(s[0], true, true);
      if s[0] == '<' {
        ReplaceHit("&lt;", Enc(s[1..], true, true), "<");
      } else {
        ReplaceSkipShort(p, Enc(s[1..], true, true), "&lt;", "<");
      }
    }
  }

  lemma {:induction false} UnGtStep(s: string)
    ensures Replace(Enc(s, false, true), "&gt;", ">") == Enc(s, false, false)
    decreases |s|
  {
    if |s| > 0 {
      UnGtStep(s[1..]);
      var p := Piece(s[0], false, true);
      if s[0] == '>' {
        ReplaceHit("&gt;", Enc(s[1..], false, true), ">");
      } else {
        ReplaceSkipShort(p, Enc(s[1..], false, true), "&gt;", ">");
      }
    }
  }

  lemma {:induction false} UnAmpStep(s: string)
    ensures Replace(Enc(s, false, false), "&amp;", "&") == s
    decreases |s|
  {
    if |s| > 0 {
      UnAmpStep(s[1..]);
      var p := Piece(s[0], false, false);
      assert s == [s[0]] + s[1..];
      if s[0] == '&' {
        ReplaceHit("&amp;", Enc(s[1..], false, false), "&");
      } else {
        ReplaceSkipShort(p, Enc(s[1..], false, false), "&amp;", "&");
      }
    }
  }

  /** Unescaping an escaped string gives back the original, for every string. */
  lemma UnescapeEscape(s: string)
    ensures Unescape(Escape(s)) == s
  {
    UnLtStep(s);
    UnGtStep(s);
    UnAmpStep(s);
  }

  lemma {:induction false} EncNoAngle(s: string)
    ensures '<' !in Enc(s, true, true) && '>' !in Enc(s, true, true)
    decreases |s|
  {
    if |s| > 0 {
      EncNoAngle(s[1..]);
    }
  }

  /** The escaped text contains no `<` and no `>`, so it can never be
      mistaken for a mention or emoji tag. */
  lemma EscapeNoAngle(s: string)
    ensures '<' !in Escape(s) && '>' !in Escape(s)
  {
    EncNoAngle(s);
  }

  predicate EntityAt(t: string, i: nat)
    requires i <= |t|
  {
    StartsWith(t[i..], "&amp;") || StartsWith(t[i..], "&lt;") || StartsWith(t[i..], "&gt;")
  }

  predicate AmpsAreEntities(t: string) {
    forall i :: 0 <= i < |t| && t[i] == '&' ==> EntityAt(t, i)
  }

  lemma {:induction false} EncAmpsAreEntities(s: string)
    ensures AmpsAreEntities(Enc(s, true, true))
    decreases |s|
  {
    if |s| > 0 {
      EncAmpsAreEntities(s[1..]);
      var p := Piece(s[0], true, true);
      var rest := Enc(s[1..], true, true);
      var t := p + rest;
      forall i | 0 <= i < |t| && t[i] == '&'
        ensures EntityAt(t, i)
      {
        if i < |p| {
          assert i == 0;
          assert t[i..][..|p|] == p;
        } else {
          assert t[i..] == rest[i - |p|..];
          assert rest[i - |p|] == '&';
        }
      }
    }
  }

  /** Every `&` in escaped text begins `&amp;`, `&lt;` or `&gt;`. */
  lemma EscapeAmpsAreEntities(s: string)
    ensures AmpsAreEntities(Escape(s))
  {
    EncAmpsAreEntities(s);
  }

  lemma {:induction false} EncPlain(s: string)
    requires '&' !in s && '<' !in s && '>' !in s
    ensures Enc(s, true, true) == s
    decreases |s|
  {
    if |s| > 0 {
      assert s[0] in s;
      assert forall c :: c in s[1..] ==> c in s;
      EncPlain(s[1..]);
      assert s == [s[0]] + s[1..];
    }
  }

  /** Text without `&`, `<` or `>` is left as it is. */
  lemma EscapePlain(s: string)
    requires '&' !in s && '<' !in s && '>' !in s
    ensures Escape(s) == s
  {
    EncPlain(s);
  }
}
