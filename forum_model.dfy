/** The forum part of the qq adapter's guild models
    (`nonebot/adapters/qq/models/guild.py`): the element type a rich-text
    element is given when the server leaves it out, and the pre-validators
    that turn a JSON-encoded rich text into its parsed form. Validator
    inputs are the raw dicts pydantic hands them, here JSON objects. */
module ForumModel {
  import opened Wrappers
  import opened Json

  /** `ElemType` values. */
  const UNSUPPORTED: int := 0
  const TEXT: int := 1
  const IMAGE: int := 2
  const VIDEO: int := 3
  const URL: int := 4

  /** `values.get(key) is not None`. */
  predicate Present(values: Fields, key: string) {
    Get(values, key).Some? && Get(values, key) != Some(JNull)
  }

  /** The type `infer_type` derives from the members present: the first of
      text, image, video and url, or unsupported. */
  function InferredType(values: Fields): (t: int)
    ensures UNSUPPORTED <= t <= URL
    ensures t == TEXT <==> Present(values, "text")
    ensures t == IMAGE <==> !Present(values, "text") && Present(values, "image")
    ensures t == VIDEO <==> !Present(values, "text") && !Present(values, "image") && Present(values, "video")
    ensures t == URL <==> !Present(values, "text") && !Present(values, "image") && !Present(values, "video")
                          && Present(values, "url")
  {
    if Present(values, "text") then TEXT
    else if Present(values, "image") then IMAGE
    else if Present(values, "video") then VIDEO
    else if Present(values, "url") then URL
    else UNSUPPORTED
  }

  /** `Elem.infer_type`: a type given and not `None`, even unsupported, is
      kept and nothing changes; otherwise the derived type is written
      under `type` and no other key is touched. */
  function InferType(values: Fields): (r: Fields)
    ensures Present(values, "type") ==> r == values
    ensures !Present(values, "type") ==> Get(r, "type") == Some(JInt(InferredType(values)))
    ensures forall k :: k != "type" ==> Get(r, k) == Get(values, k)
    ensures Present(r, "type")
  {
    PutGet(values, "type", JInt(InferredType(values)));
    if Present(values, "type") then values else Put(values, "type", JInt(InferredType(values)))
  }

  /** What a pre-validator hands on: the value to validate, or a parse
      error. */
  datatype Parsed = Pass(v: Json) | ParseError

  /** `RichText.parse_raw` on a string: the decoded JSON, or an error where
      the text is not JSON or does not validate as rich text. The JSON
      decoder and the rich-text validation are `decode`. */
  function ParseRaw(s: string, decode: string -> Option<Json>): (r: Parsed)
    ensures r == ParseError <==> decode(s).None?
    ensures r.Pass? ==> r.v == decode(s).value
  {
    match decode(s)
    case Some(j) => Pass(j)
    case None => ParseError
  }

  /** `ThreadObjectInfo.parse_content`: a string is parsed as rich text,
      anything else is passed on unchanged. */
  function ParseContent(v: Json, decode: string -> Option<Json>): (r: Parsed)
    ensures v.JStr? ==> r == ParseRaw(v.s, decode)
    ensures !v.JStr? ==> r == Pass(v)
  {
    if v.JStr? then ParseRaw(v.s, decode) else Pass(v)
  }

  /** `ThreadInfo.parse_title`: a string is parsed only when the title type
      parameter is rich text (`richTitle`); a plain-text title stays the
      string it is. */
  function ParseTitle(v: Json, richTitle: bool, decode: string -> Option<Json>): (r: Parsed)
    ensures richTitle ==> r == ParseContent(v, decode)
    ensures !richTitle ==> r == Pass(v)
  {
    if v.JStr? && richTitle then ParseRaw(v.s, decode) else Pass(v)
  }
}
