/** The code generator's OpenAPI sources (`codegen/source.py`): the JSON
    Pointer walk of a URL fragment and the per-URL cache of loaded
    documents. A loaded YAML document is a JSON value; fetching it (from
    a file or over HTTP) is a parameter. */
module CodegenSource {
  import opened Wrappers
  import opened PyStr
  import opened Json
  import opened Utils

  /** What one character of a reference token becomes when `~` is always
      written `~0` and `/` is written `~1` when `slash` holds. Every
      intermediate string of both replacement chains has this form. */
  function TokenPiece(c: char, slash: bool): string {
    if c == '~' then "~0" else if c == '/' && slash then "~1" else [c]
  }

  function TokenEnc(s: string, slash: bool): string
    decreases |s|
  {
    if |s| == 0 then "" else TokenPiece(s[0], slash) + TokenEnc(s[1..], slash)
  }

  /** Writing a key as a reference token (section 3 of RFC 6901): `~`
      first, then `/`. */
  function EscapeToken(s: string): string {
    Replace(Replace(s, "~", "~0"), "/", "~1")
  }

  /** The unescaping of one reference token: `~1` to `/` first, then `~0`
      to `~`, the order section 4 of RFC 6901 requires. */
  function UnescapeToken(s: string): string {
    Replace(Replace(s, "~1", "/"), "~0", "~")
  }

  lemma {:induction false} TildeStep(s: string)
    ensures Replace(s, "~", "~0") == TokenEnc(s, false)
    decreases |s|
  {
    if |s| > 0 {
      TildeStep(s[1..]);
      assert s == [s[0]] + s[1..];
      if s[0] == '~' {
        ReplaceHit("~", s[1..], "~0");
      } else {
        ReplaceSkipShort([s[0]], s[1..], "~", "~0");
      }
    }
  }

  lemma {:induction false} SlashStep(s: string)
    ensures Replace(TokenEnc(s, false), "/", "~1") == TokenEnc(s, true)
    decreases |s|
  {
    if |s| > 0 {
      SlashStep(s[1..]);
      var p := TokenPiece(s[0], false);
      if s[0] == '/' {
        ReplaceHit("/", TokenEnc(s[1..], false), "~1");
      } else {
        ReplaceSkipShort(p, TokenEnc(s[1..], false), "/", "~1");
      }
    }
  }

  lemma {:induction false} UnSlashStep(s: string)
    ensures Replace(TokenEnc(s, true), "~1", "/") == TokenEnc(s, false)
    decreases |s|
  {
    if |s| > 0 {
      UnSlashStep(s[1..]);
      var p := TokenPiece(s[0], true);
      if s[0] == '/' {
        ReplaceHit("~1", TokenEnc(s[1..], true), "/");
      } else {
        ReplaceSkipShort(p, TokenEnc(s[1..], true), "~1", "/");
      }
    }
  }

  lemma {:induction false} UnTildeStep(s: string)
    ensures Replace(TokenEnc(s, false), "~0", "~") == s
    decreases |s|
  {
    if |s| > 0 {
      UnTildeStep(s[1..]);
      var p := TokenPiece(s[0], false);
      assert s == [s[0]] + s[1..];
      if s[0] == '~' {
        ReplaceHit("~0", TokenEnc(s[1..], false), "~");
      } else {
        ReplaceSkipShort(p, TokenEnc(s[1..], false), "~0", "~");
      }
    }
  }

  /** An escaped token holds no `/`, and is empty only for the empty key. */
  lemma {:induction false} TokenEncNoSlash(s: string)
    ensures '/' !in TokenEnc(s, true)
    ensures |TokenEnc(s, true)| >= |s|
    decreases |s|
  {
    if |s| > 0 {
      TokenEncNoSlash(s[1..]);
    }
  }

  /** Unescaping undoes escaping, for every key. */
  lemma UnescapeEscapeToken(s: string)
    ensures UnescapeToken(EscapeToken(s)) == s
    ensures '/' !in EscapeToken(s) && (s != "" ==> EscapeToken(s) != "")
  {
    TildeStep(s);
    SlashStep(s);
    UnSlashStep(s);
    UnTildeStep(s);
    TokenEncNoSlash(s);
  }

  function DigitValue(c: char): (d: int)
    requires '0' <= c <= '9'
    ensures 0 <= d < 10
  {
    c as int - '0' as int
  }

  predicate AllDigits(s: string) {
    forall i :: 0 <= i < |s| ==> '0' <= s[i] <= '9'
  }

  /** The value of a string of decimal digits, read from its last digit. */
  function ParseNat(s: string): (n: nat)
    requires |s| > 0 && AllDigits(s)
    decreases |s|
  {
    if |s| == 1 then DigitValue(s[0])
    else 10 * ParseNat(s[..|s| - 1]) + DigitValue(s[|s| - 1])
  }

  /** `s.rstrip()`. */
  function RStrip(s: string): (r: string)
    ensures |r| <= |s|
    ensures r == [] || !IsSpace(r[|r| - 1])
    decreases |s|
  {
    if |s| > 0 && IsSpace(s[|s| - 1]) then RStrip(s[..|s| - 1]) else s
  }

  /** What `rstrip` leaves is a prefix of the string. */
  lemma {:induction false} RStripPrefix(s: string)
    ensures RStrip(s) == s[..|RStrip(s)|]
    decreases |s|
  {
    if |s| > 0 && IsSpace(s[|s| - 1]) {
      RStripPrefix(s[..|s| - 1]);
    }
  }

  /** `s.strip()`. */
  function Strip(s: string): string {
    RStrip(LStrip(s))
  }

  /** The digits of a base-10 integer literal as `int` reads them: ASCII
      digits, where each `_` sits between two digits. */
  predicate DigitGroups(s: string) {
    && |s| > 0
    && DigitsOrUnderscores(s)
    && s[0] != '_' && s[|s| - 1] != '_'
    && NoDoubleUnderscore(s)
  }

  predicate DigitsOrUnderscores(s: string) {
    forall i :: 0 <= i < |s| ==> ('0' <= s[i] <= '9') || s[i] == '_'
  }

  /** No two underscores stand next to each other. */
  predicate NoDoubleUnderscore(s: string)
    decreases |s|
  {
    |s| < 2 || (!(s[0] == '_' && s[1] == '_') && NoDoubleUnderscore(s[1..]))
  }

  /** The value of the digits of `s`, read from its last one, skipping
      underscores. */
  function GroupValue(s: string): nat
    requires DigitsOrUnderscores(s)
    decreases |s|
  {
    if s == [] then 0
    else
      var v := GroupValue(s[..|s| - 1]);
      if s[|s| - 1] == '_' then v else 10 * v + DigitValue(s[|s| - 1])
  }

  /** A stripped base-10 literal: an optional sign and the digits, which
      may be grouped by single underscores. Only ASCII digits are read. */
  function ParseLiteral(t: string): (r: Option<int>)
    ensures r.Some? ==> DigitGroups(if |t| > 0 && (t[0] == '-' || t[0] == '+') then t[1..] else t)
  {
    var signed := |t| > 0 && (t[0] == '-' || t[0] == '+');
    var body := if signed then t[1..] else t;
    if !DigitGroups(body) then None
    else Some(if signed && t[0] == '-' then -(GroupValue(body) as int) else GroupValue(body))
  }

  /** `int(token)`: surrounding whitespace is ignored; `None` where `int`
      raises. */
  function ParseInt(s: string): Option<int> {
    ParseLiteral(Strip(s))
  }

  /** Reading back what `str(n)` wrote gives `n`. */
  lemma {:induction false} ParseNatToStr(n: nat)
    ensures |NatToStr(n)| > 0 && AllDigits(NatToStr(n)) && ParseNat(NatToStr(n)) == n
    decreases n
  {
    var s := NatToStr(n);
    if n >= 10 {
      ParseNatToStr(n / 10);
      assert s[..|s| - 1] == NatToStr(n / 10);
      assert DigitValue(s[|s| - 1]) == n % 10;
    }
  }

  /** Python indexing of a sequence of length `len`: negative indices
      count from the end; `None` is an IndexError. */
  function PyIndex(len: nat, k: int): (r: Option<nat>)
    ensures r.Some? <==> -(len as int) <= k < len
    ensures r.Some? ==> r.value < len && (k >= 0 ==> r.value == k) && (k < 0 ==> r.value == len + k)
  {
    if 0 <= k < len then Some(k) else if -(len as int) <= k < 0 then Some(len + k) else None
  }

  /** One step of the walk with an unescaped token: a list or a string (a
      Python `Sequence`) is indexed by the token read as an integer, an
      object by the token as a key; anything else, a missing key, a
      non-integer index or an index out of range fails. */
  function Step(d: Json, token: string): (r: Option<Json>)
    ensures d.JObj? ==> r == Get(d.fields, token)
  {
    match d
    case JObj(fields) => Get(fields, token)
    case JArr(items) =>
      (match ParseInt(token)
       case Some(k) => (match PyIndex(|items|, k) case Some(i) => Some(items[i]) case None => None)
       case None => None)
    case JStr(s) =>
      (match ParseInt(token)
       case Some(k) => (match PyIndex(|s|, k) case Some(i) => Some(JStr([s[i]])) case None => None)
       case None => None)
    case _ => None
  }

  /** The walk along unescaped tokens. */
  function Walk(d: Json, tokens: seq<string>): Option<Json>
    decreases |tokens|
  {
    if tokens == [] then Some(d)
    else match Step(d, tokens[0])
      case Some(x) => Walk(x, tokens[1..])
      case None => None
  }

  function UnescapeAll(parts: seq<string>): seq<string>
    decreases |parts|
  {
    if parts == [] then [] else [UnescapeToken(parts[0])] + UnescapeAll(parts[1..])
  }

  /** Each part is unescaped on its own. */
  lemma {:induction false} UnescapeAllAt(parts: seq<string>)
    ensures |UnescapeAll(parts)| == |parts|
    ensures forall i :: 0 <= i < |parts| ==> UnescapeAll(parts)[i] == UnescapeToken(parts[i])
    decreases |parts|
  {
    if parts != [] {
      UnescapeAllAt(parts[1..]);
    }
  }

  function EscapeAll(keys: seq<string>): (r: seq<string>)
    ensures |r| == |keys| && forall i :: 0 <= i < |keys| ==> r[i] == EscapeToken(keys[i])
  {
    seq(|keys|, i requires 0 <= i < |keys| => EscapeToken(keys[i]))
  }

  /** `resolve_fragment` raises ValueError naming the fragment, after its
      leading slashes are stripped. */
  datatype PointerError = Unresolvable(fragment: string)

  /** `resolve_fragment` as a function. Every leading `/` is stripped; an
      empty rest is the whole document. */
  function Pointer(data: Json, fragment: string): (r: Result<Json, PointerError>)
    ensures LStripChar(fragment, '/') == "" ==> r == Ok(data)
    ensures r.Err? ==> r.error == Unresolvable(LStripChar(fragment, '/'))
  {
    var f := LStripChar(fragment, '/');
    if f == "" then Ok(data)
    else match Walk(data, UnescapeAll(Split(f, '/')))
      case Some(x) => Ok(x)
      case None => Err(Unresolvable(f))
  }

  /** `Source.resolve_fragment`. */
  method ResolveFragment(data: Json, fragment: string) returns (r: Result<Json, PointerError>)
    ensures r == Pointer(data, fragment)
  {
    var f := LStripChar(fragment, '/');
    if f == "" {
      return Ok(data);
    }
    var d := WalkParts(data, Split(f, '/'));
    if d.None? {
      return Err(Unresolvable(f));
    }
    r := Ok(d.value);
  }

  /** The loop of `resolve_fragment`: one step per part, each unescaped,
      stopping at the first that fails. */
  method WalkParts(data: Json, parts: seq<string>) returns (r: Option<Json>)
    ensures r == Walk(data, UnescapeAll(parts))
  {
    var d := data;
    for i := 0 to |parts|
      invariant Walk(d, UnescapeAll(parts[i..])) == Walk(data, UnescapeAll(parts))
    {
      var part := UnescapeToken(parts[i]);
      var next := Step(d, part);
      WalkAt(d, parts, i, next);
      if next.None? {
        return None;
      }
      d := next.value;
    }
    assert UnescapeAll(parts[|parts|..]) == [];
    r := Some(d);
  }

  /** The walk from the `i`-th part takes one step with that part. */
  lemma WalkAt(d: Json, parts: seq<string>, i: nat, next: Option<Json>)
    requires i < |parts| && next == Step(d, UnescapeToken(parts[i]))
    ensures next.None? ==> Walk(d, UnescapeAll(parts[i..])) == None
    ensures next.Some? ==> Walk(d, UnescapeAll(parts[i..])) == Walk(next.value, UnescapeAll(parts[i + 1..]))
  {
    var t := UnescapeAll(parts[i..]);
    UnescapeAllAt(parts[i..]);
    UnescapeAllAt(parts[i + 1..]);
    assert t[0] == UnescapeToken(parts[i]);
    assert t[1..] == UnescapeAll(parts[i + 1..]);
  }

  /** `/a` and `//a` resolve alike: a leading slash more changes nothing. */
  lemma PointerSlashes(data: Json, fragment: string)
    ensures Pointer(data, "/" + fragment) == Pointer(data, fragment)
  {
    assert ("/" + fragment)[1..] == fragment;
  }

  /** `int("-" + d)` for a run of digits `d` is minus their value. */
  lemma ParseNegative(d: string)
    requires |d| > 0 && AllDigits(d)
    ensures ParseInt("-" + d) == Some(-(ParseNat(d) as int))
  {
    NegativeStripped(d);
    NegativeLiteral(d);
  }

  lemma NegativeStripped(d: string)
    requires |d| > 0 && AllDigits(d)
    ensures Strip("-" + d) == "-" + d
  {
    var t := "-" + d;
    assert t[|t| - 1] == d[|d| - 1];
    DigitNotSpace(d[|d| - 1]);
    StripPlain(t);
  }

  lemma NegativeLiteral(d: string)
    requires |d| > 0 && AllDigits(d)
    ensures ParseLiteral("-" + d) == Some(-(ParseNat(d) as int))
  {
    var t := "-" + d;
    assert t[1..] == d;
    PlainDigits(d);
  }

  lemma DigitNotSpace(c: char)
    requires '0' <= c <= '9'
    ensures !IsSpace(c)
  {
  }

  /** A string with no blank at either end is its own strip. */
  lemma StripPlain(t: string)
    requires |t| > 0 && !IsSpace(t[0]) && !IsSpace(t[|t| - 1])
    ensures Strip(t) == t
  {
    assert LStrip(t) == t;
  }

  /** Plain digits form a literal of the value they spell. */
  lemma PlainDigits(d: string)
    requires |d| > 0 && AllDigits(d)
    ensures DigitGroups(d) && GroupValue(d) == ParseNat(d)
  {
    assert '_' !in d by {
      forall i | 0 <= i < |d| ensures d[i] != '_' {
        assert '0' <= d[i] <= '9';
      }
    }
    NoUnderscoreNoDouble(d);
    PlainValue(d);
  }

  /** A string without underscores has no two in a row. */
  lemma {:induction false} NoUnderscoreNoDouble(s: string)
    requires '_' !in s
    ensures NoDoubleUnderscore(s)
    decreases |s|
  {
    if |s| >= 2 {
      assert s[0] != '_';
      assert '_' !in s[1..] by {
        forall i | 0 <= i < |s| - 1 ensures s[1..][i] != '_' {
          assert s[1..][i] == s[i + 1];
        }
      }
      NoUnderscoreNoDouble(s[1..]);
    }
  }

  /** Without underscores the value skipping them is the plain value. */
  lemma {:induction false} PlainValue(d: string)
    requires |d| > 0 && AllDigits(d)
    ensures GroupValue(d) == ParseNat(d)
    decreases |d|
  {
    var init := d[..|d| - 1];
    if |d| == 1 {
      assert GroupValue(init) == 0;
    } else {
      assert AllDigits(init) by {
        forall i | 0 <= i < |init| ensures '0' <= init[i] <= '9' {
          assert init[i] == d[i];
        }
      }
      PlainValue(init);
    }
  }

  /** Blanks around an integer and underscores between its digits do not
      change it: `int(" 1_0 ")` is 10. */
  lemma ParseIntLoose()
    ensures ParseInt(" 1_0 ") == Some(10)
  {
    LStripLoose();
    RStripLoose();
    GroupsLoose();
  }

  lemma LStripLoose()
    ensures LStrip(" 1_0 ") == "1_0 "
  {
    var s := " 1_0 ";
    assert IsSpace(s[0]) && !IsSpace(s[1]);
    assert LStrip(s) == LStrip(s[1..]) == s[1..];
  }

  lemma RStripLoose()
    ensures RStrip("1_0 ") == "1_0"
  {
    var s := "1_0 ";
    assert IsSpace(s[3]) && !IsSpace(s[2]);
    assert s[..3] == "1_0";
  }

  lemma GroupsLoose()
    ensures DigitGroups("1_0") && GroupValue("1_0") == 10
  {
    var t := "1_0";
    assert NoDoubleUnderscore(t) by {
      assert t[1..] == "_0" && "_0"[1..] == "0";
    }
    assert GroupValue(t) == 10 by {
      assert t[..2] == "1_" && "1_"[..1] == "1" && "1"[..0] == "";
    }
  }

  /** A token that reads as an integer in range indexes a list, counting
      from its end when negative. */
  lemma StepIndex(items: seq<Json>, token: string, k: int)
    requires ParseInt(token) == Some(k) && -(|items| as int) <= k < |items|
    ensures Step(JArr(items), token) == Some(items[if k < 0 then |items| + k else k])
  {
  }

  /** Splitting a join of pieces free of the separator gives the pieces
      back. */
  lemma {:induction false} SplitOfJoin(parts: seq<string>, c: char)
    requires |parts| > 0
    requires forall i :: 0 <= i < |parts| ==> c !in parts[i]
    ensures Split(Join([c], parts), c) == parts
    decreases |parts|
  {
    var s := Join([c], parts);
    if |parts| == 1 {
      assert IndexOf(s, c) == |s|;
    } else {
      var rest := Join([c], parts[1..]);
      assert s == parts[0] + [c] + rest;
      assert IndexOf(s, c) == |parts[0]| by {
        assert s[|parts[0]|] == c;
        forall i | 0 <= i < |parts[0]|
          ensures s[i] != c
        {
          assert s[i] == parts[0][i];
        }
      }
      assert s[..|parts[0]|] == parts[0];
      assert s[|parts[0]| + 1..] == rest;
      SplitOfJoin(parts[1..], c);
    }
  }

  /** The pointer written for a path of keys, each escaped. */
  function PointerOf(keys: seq<string>): string {
    "/" + Join("/", EscapeAll(keys))
  }

  /** A pointer written from a path of keys resolves along exactly those
      keys, as long as the first key is not empty (an empty first key
      would be stripped with the leading slashes). */
  lemma PointerRoundTrip(data: Json, keys: seq<string>)
    requires |keys| > 0 && keys[0] != ""
    ensures Pointer(data, PointerOf(keys)) == match Walk(data, keys)
                                              case Some(x) => Ok(x)
                                              case None => Err(Unresolvable(Join("/", EscapeAll(keys))))
  {
    var esc := EscapeAll(keys);
    forall i | 0 <= i < |keys|
      ensures '/' !in esc[i] && UnescapeToken(esc[i]) == keys[i]
    {
      UnescapeEscapeToken(keys[i]);
    }
    UnescapeEscapeToken(keys[0]);
    var j := Join("/", esc);
    assert j[..|esc[0]|] == esc[0] by {
      if |esc| > 1 {
        assert j == esc[0] + "/" + Join("/", esc[1..]);
      }
    }
    assert j[0] == esc[0][0];
    assert LStripChar(PointerOf(keys), '/') == j by {
      assert PointerOf(keys)[1..] == j;
    }
    SplitOfJoin(esc, '/');
    UnescapeAllAt(Split(j, '/'));
    assert UnescapeAll(Split(j, '/')) == keys;
  }

  /** A loaded document and the URL, without fragment, it was loaded from. */
  datatype Source = Source(url: string, data: Json)

  /** `url.with_fragment("")`: everything before the first `#`. */
  function DropFragment(url: string): (r: string)
    ensures '#' !in r
  {
    url[..IndexOf(url, '#')]
  }

  /** Why loading a document failed: the HTTP status was not 200. */
  datatype FetchError = FetchFailed(url: string)

  /** The class-level `_cache`: one source per fragment-less URL. */
  class SourceCache {
    var cache: map<string, Source>

    constructor()
      ensures cache == map[]
    {
      cache := map[];
    }

    /** Every entry is stored under its own fragment-less URL. */
    predicate Valid()
      reads this
    {
      forall u :: u in cache ==> cache[u].url == u && '#' !in u
    }

    /** `Source.from_source`: the cached source for the URL without its
        fragment, or the document `fetched` from it, which is cached only
        when it loaded. */
    method FromSource(url: string, fetched: Option<Json>) returns (r: Result<Source, FetchError>)
      modifies this
      requires Valid()
      ensures Valid()
      ensures var u := DropFragment(url);
              (u in old(cache) ==> r == Ok(old(cache)[u]) && cache == old(cache))
              && (u !in old(cache) && fetched.Some? ==>
                    r == Ok(Source(u, fetched.value)) && cache == old(cache)[u := r.value])
              && (u !in old(cache) && fetched.None? ==> r == Err(FetchFailed(u)) && cache == old(cache))
      ensures r.Ok? ==> r.value.url == DropFragment(url) && DropFragment(url) in cache
    {
      var u := DropFragment(url);
      if u in cache {
        return Ok(cache[u]);
      }
      if fetched.None? {
        return Err(FetchFailed(u));
      }
      var s := Source(u, fetched.value);
      cache := cache[u := s];
      r := Ok(s);
    }

    /** `Source.resolve` with `joined` the reference already joined to the
        current source's URL: `from_source` runs first as the default of
        `_cache.get`, so the result is `from_source`'s. */
    method Resolve(joined: string, fetched: Option<Json>) returns (r: Result<Source, FetchError>)
      modifies this
      requires Valid()
      ensures Valid()
      ensures var u := DropFragment(joined);
              (u in old(cache) ==> r == Ok(old(cache)[u]) && cache == old(cache))
              && (u !in old(cache) && fetched.Some? ==>
                    r == Ok(Source(u, fetched.value)) && cache == old(cache)[u := r.value])
              && (u !in old(cache) && fetched.None? ==> r == Err(FetchFailed(u)) && cache == old(cache))
    {
      var u := DropFragment(joined);
      r := FromSource(u, fetched);
      assert DropFragment(u) == u by {
        assert IndexOf(u, '#') == |u|;
      }
      if r.Ok? {
        r := Ok(cache[u]);
      }
    }
  }
}
