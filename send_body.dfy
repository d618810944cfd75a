/** Building the request body of a message send: keyword fields whose value
    is `None` are dropped, and a non-empty `file_image` switches the body
    from JSON to multipart form data, where object and list fields travel
    as JSON parts. Three variants: the qq tree's `Bot._parse_send_message`,
    the packaged qqguild `parse_send_message`, and the older qqguild one,
    which puts every field into one `files` dict. */
module SendBody {
  import opened Wrappers
  import opened PyStr
  import opened Json

  /** A keyword value: a JSON-like value (`JNull` for `None`), or bytes. */
  datatype Value = J(j: Json) | Bytes(b: seq<Byte>)

  type Entries = seq<(string, Value)>

  predicate IsNone(v: Value) {
    v == J(JNull)
  }

  /** `isinstance(v, (dict, list))`. */
  predicate IsContainer(v: Value) {
    v.J? && (v.j.JObj? || v.j.JArr?)
  }

  predicate ValueTruthy(v: Value) {
    match v
    case J(j) => Truthy(j)
    case Bytes(b) => b != []
  }

  /** Dict keys are unique. */
  predicate UniqueKeys(es: Entries) {
    forall i, j :: 0 <= i < j < |es| ==> es[i].0 != es[j].0
  }

  predicate HasEntry(es: Entries, k: string) {
    exists i :: 0 <= i < |es| && es[i].0 == k
  }

  /** `exclude_none`: the entries whose value is not `None`, in order. */
  function ExcludeNone(es: Entries): (r: Entries)
    ensures |r| <= |es|
    decreases |es|
  {
    if |es| == 0 then []
    else ExcludeNone(es[..|es| - 1]) + (if IsNone(es[|es| - 1].1) then [] else [es[|es| - 1]])
  }

  /** `exclude_none` keeps exactly the non-`None` entries, unchanged. */
  lemma {:induction false} ExcludeNoneSpec(es: Entries)
    ensures forall e :: e in ExcludeNone(es) <==> e in es && !IsNone(e.1)
    decreases |es|
  {
    if |es| > 0 {
      ExcludeNoneSpec(es[..|es| - 1]);
      assert es == es[..|es| - 1] + [es[|es| - 1]];
    }
  }

  /** Applying `exclude_none` twice is applying it once. */
  lemma {:induction false} ExcludeNoneIdempotent(es: Entries)
    ensures ExcludeNone(ExcludeNone(es)) == ExcludeNone(es)
    decreases |es|
  {
    if |es| > 0 {
      var init := es[..|es| - 1];
      ExcludeNoneIdempotent(init);
      var r := ExcludeNone(init);
      if !IsNone(es[|es| - 1].1) {
        var r2 := r + [es[|es| - 1]];
        assert r2[..|r2| - 1] == r;
        assert ExcludeNone(r2) == ExcludeNone(r) + [es[|es| - 1]];
      } else {
        assert ExcludeNone(es) == r + [] == r;
      }
    }
  }

  /** `exclude_none` keeps keys unique: its result is a subsequence. */
  lemma {:induction false} ExcludeNoneUnique(es: Entries)
    requires UniqueKeys(es)
    ensures UniqueKeys(ExcludeNone(es))
    decreases |es|
  {
    if |es| > 0 {
      var init := es[..|es| - 1];
      ExcludeNoneUnique(init);
      ExcludeNoneSpec(init);
      var r := ExcludeNone(init);
      var last := es[|es| - 1];
      if !IsNone(last.1) {
        var r2 := r + [last];
        forall i, j | 0 <= i < j < |r2|
          ensures r2[i].0 != r2[j].0
        {
          if j == |r2| - 1 {
            assert r2[i] in init;
            var k :| 0 <= k < |init| && init[k] == r2[i];
            assert es[k] == init[k];
          }
        }
      }
    }
  }

  /** `d.pop(key, None)`: the value under `key` (if any) and the dict
      without that entry. */
  function Pop(es: Entries, key: string): (r: (Option<Value>, Entries))
    ensures |r.1| <= |es|
    ensures r.0.Some? ==> |r.1| < |es|
    ensures r.0.None? ==> r.1 == es
    decreases |es|
  {
    if |es| == 0 then (None, [])
    else
      assert es == es[..|es| - 1] + [es[|es| - 1]];
      var (v, rest) := Pop(es[..|es| - 1], key);
      if es[|es| - 1].0 == key then (Some(es[|es| - 1].1), rest)
      else (v, rest + [es[|es| - 1]])
  }

  /** Popping removes every entry under `key`, keeps the others in order,
      and returns the value stored under `key`. */
  lemma {:induction false} PopSpec(es: Entries, key: string)
    ensures forall e :: e in Pop(es, key).1 <==> e in es && e.0 != key
    ensures Pop(es, key).0.Some? <==> HasEntry(es, key)
    ensures Pop(es, key).0.Some? ==> (key, Pop(es, key).0.value) in es
    decreases |es|
  {
    if |es| > 0 {
      var init := es[..|es| - 1];
      PopSpec(init, key);
      assert es == init + [es[|es| - 1]];
      if HasEntry(init, key) {
        var i :| 0 <= i < |init| && init[i].0 == key;
        assert es[i].0 == key;
      }
      if HasEntry(es, key) && es[|es| - 1].0 != key {
        var i :| 0 <= i < |es| && es[i].0 == key;
        assert init[i].0 == key;
      }
    }
  }

  /** One part of a multipart body. */
  datatype Part =
    | File(name: Option<string>, content: Value)               // (name, content)
    | JsonPart(name: Option<string>, key: string, value: Json)  // (name, json.dumps({key: value}), "application/json")
    | TextPart(name: Option<string>, text: string)             // (name, text, "text/plain")

  /** The request parameters: a JSON body, or multipart files and form
      data. */
  datatype Params =
    | JsonBody(json: Entries)
    | Multipart(files: seq<(string, Part)>, data: Entries)
    | FilesOnly(files: seq<(string, Part)>)

  /** The JSON parts the loop adds after `file_image`: one per object or
      list field, named by its key. */
  function ContainerParts(es: Entries): (r: seq<(string, Part)>)
    ensures |r| <= |es|
    decreases |es|
  {
    if |es| == 0 then []
    else
      var (k, v) := es[|es| - 1];
      ContainerParts(es[..|es| - 1]) + (if IsContainer(v) then [(k, JsonPart(Some(k), k, v.j))] else [])
  }

  /** The form data the loop fills: every other field, unchanged. */
  function ScalarData(es: Entries): (r: Entries)
    ensures |r| <= |es|
    decreases |es|
  {
    if |es| == 0 then []
    else ScalarData(es[..|es| - 1]) + (if IsContainer(es[|es| - 1].1) then [] else [es[|es| - 1]])
  }

  /** Every field goes to exactly one side: containers become JSON parts
      under their own key, everything else stays as form data. */
  lemma {:induction false} SplitSpec(es: Entries)
    ensures forall k, p :: (k, p) in ContainerParts(es) <==>
      exists v :: (k, v) in es && IsContainer(v) && p == JsonPart(Some(k), k, v.j)
    ensures forall e :: e in ScalarData(es) <==> e in es && !IsContainer(e.1)
    ensures |ContainerParts(es)| + |ScalarData(es)| == |es|
    decreases |es|
  {
    if |es| > 0 {
      var init := es[..|es| - 1];
      var (k, v) := es[|es| - 1];
      SplitSpec(init);
      assert es == init + [(k, v)];
      forall k', p | (k', p) in ContainerParts(es)
        ensures exists v' :: (k', v') in es && IsContainer(v') && p == JsonPart(Some(k'), k', v'.j)
      {
        if (k', p) !in ContainerParts(init) {
          assert (k', p) == (k, JsonPart(Some(k), k, v.j));
          assert (k, v) in es;
        }
      }
    }
  }

  /** The loop of the multipart branch. */
  method SplitFields(es: Entries) returns (files: seq<(string, Part)>, data: Entries)
    ensures files == ContainerParts(es) && data == ScalarData(es)
  {
    files := [];
    data := [];
    for i := 0 to |es|
      invariant files == ContainerParts(es[..i]) && data == ScalarData(es[..i])
    {
      assert es[..i + 1][..i] == es[..i];
      var (k, v) := es[i];
      if IsContainer(v) {
        files := files + [(k, JsonPart(Some(k), k, v.j))];
      } else {
        data := data + [(k, v)];
      }
    }
    assert es[..|es|] == es;
  }

  /** The body built from fields that hold no `None`. */
  function SendParamsOf(fields: Entries): Params {
    var (fileImage, rest) := Pop(fields, "file_image");
    if fileImage.Some? && ValueTruthy(fileImage.value) then
      Multipart([("file_image", File(Some("file_image"), fileImage.value))] + ContainerParts(rest), ScalarData(rest))
    else JsonBody(rest)
  }

  /** What the qq tree's `_parse_send_message` returns. */
  function QQSendParams(es: Entries): Params {
    SendParamsOf(ExcludeNone(es))
  }

  /** `_parse_send_message` / the packaged `parse_send_message`: drops
      `None` fields, pops `file_image`, and builds a multipart body when it
      is non-empty. */
  method ParseSendMessage(es: Entries) returns (params: Params)
    ensures params == QQSendParams(es)
  {
    params := BuildParams(ExcludeNone(es));
  }

  /** The part shared by both trees once `None` fields are gone. */
  method BuildParams(fields: Entries) returns (params: Params)
    ensures params == SendParamsOf(fields)
  {
    var (fileImage, rest) := Pop(fields, "file_image");
    if fileImage.Some? && ValueTruthy(fileImage.value) {
      var files, data := SplitFields(rest);
      params := Multipart([("file_image", File(Some("file_image"), fileImage.value))] + files, data);
    } else {
      params := JsonBody(rest);
    }
  }

  /** Without a non-empty `file_image`, the body is JSON and holds exactly
      the non-`None` fields other than `file_image`. */
  lemma QQSendJson(es: Entries)
    requires forall v :: ("file_image", v) in es ==> IsNone(v) || !ValueTruthy(v)
    ensures QQSendParams(es).JsonBody?
    ensures forall e :: e in QQSendParams(es).json <==> e in es && !IsNone(e.1) && e.0 != "file_image"
  {
    var fields := ExcludeNone(es);
    ExcludeNoneSpec(es);
    PopSpec(fields, "file_image");
  }

  /** With a non-empty `file_image`, it is the first file part, no other
      part or form field is named `file_image`, and every other non-`None`
      field lands on exactly one side. */
  lemma QQSendMultipart(es: Entries, img: Value)
    requires UniqueKeys(es) && ("file_image", img) in es && ValueTruthy(img)
    ensures QQSendParams(es).Multipart?
    ensures QQSendParams(es).files[0] == ("file_image", File(Some("file_image"), img))
    ensures forall i :: 1 <= i < |QQSendParams(es).files| ==> QQSendParams(es).files[i].0 != "file_image"
    ensures forall e :: e in QQSendParams(es).data ==> e.0 != "file_image"
    ensures |QQSendParams(es).files| - 1 + |QQSendParams(es).data| == |Pop(ExcludeNone(es), "file_image").1|
  {
    var fields := ExcludeNone(es);
    ExcludeNoneSpec(es);
    ExcludeNoneUnique(es);
    PopSpec(fields, "file_image");
    var (fi, rest) := Pop(fields, "file_image");
    assert !IsNone(img);
    assert ("file_image", img) in fields;
    assert HasEntry(fields, "file_image") by {
      var i :| 0 <= i < |fields| && fields[i] == ("file_image", img);
    }
    UniqueValue(fields, "file_image", fi.value, img);
    SplitSpec(rest);
    var files := [("file_image", File(Some("file_image"), img))] + ContainerParts(rest);
    forall i | 1 <= i < |files|
      ensures files[i].0 != "file_image"
    {
      assert files[i] in ContainerParts(rest);
    }
  }

  /** In a dict, a key has one value. */
  lemma UniqueValue(es: Entries, k: string, a: Value, b: Value)
    requires UniqueKeys(es) && (k, a) in es && (k, b) in es
    ensures a == b
  {
    var i :| 0 <= i < |es| && es[i] == (k, a);
    var j :| 0 <= j < |es| && es[j] == (k, b);
    assert i == j;
  }

  /** `MessageSend`, the fields a guild message send accepts. */
  datatype MessageSend = MessageSend(
    content: Option<string>,
    embed: Option<Fields>,
    ark: Option<Fields>,
    markdown: Option<Fields>,
    messageReference: Option<Fields>,
    keyboard: Option<Fields>,
    image: Option<string>,
    msgId: Option<string>,
    fileImage: Option<seq<Byte>>)

  /** A `None`-able string field as a keyword value. */
  function StrValue(v: Option<string>): Value {
    if v.Some? then J(JStr(v.value)) else J(JNull)
  }

  /** A `None`-able model field, exported as a dict. */
  function ObjValue(v: Option<Fields>): Value {
    if v.Some? then J(JObj(v.value)) else J(JNull)
  }

  /** `MessageSend(**data).dict()`: every declared field, in declaration
      order, `None` included. */
  function ModelFields(ms: MessageSend): Entries {
    [("content", StrValue(ms.content)),
     ("embed", ObjValue(ms.embed)),
     ("ark", ObjValue(ms.ark)),
     ("markdown", ObjValue(ms.markdown)),
     ("message_reference", ObjValue(ms.messageReference)),
     ("keyboard", ObjValue(ms.keyboard)),
     ("image", StrValue(ms.image)),
     ("msg_id", StrValue(ms.msgId)),
     ("file_image", if ms.fileImage.Some? then Bytes(ms.fileImage.value) else J(JNull))]
  }

  /** `MessageSend(**data).dict(exclude_none=True)`. */
  function ModelDict(ms: MessageSend): (r: Entries)
    ensures |r| <= 9
    ensures forall e :: e in r ==> !IsNone(e.1)
  {
    ExcludeNoneSpec(ModelFields(ms));
    ExcludeNone(ModelFields(ms))
  }

  /** The exported dict holds only declared, set fields, each once. */
  lemma ModelDictShape(ms: MessageSend)
    ensures forall e :: e in ModelDict(ms) <==> e in ModelFields(ms) && !IsNone(e.1)
    ensures forall e :: e in ModelDict(ms) ==> e.0 in DeclaredFields
    ensures UniqueKeys(ModelDict(ms))
  {
    var f := ModelFields(ms);
    assert UniqueKeys(f);
    ExcludeNoneSpec(f);
    ExcludeNoneUnique(f);
  }

  const DeclaredFields: set<string> :=
    {"content", "embed", "ark", "markdown", "message_reference", "keyboard", "image", "msg_id", "file_image"}

  /** The packaged qqguild `parse_send_message`. */
  method PackagedParseSendMessage(ms: MessageSend) returns (params: Params)
    ensures params == SendParamsOf(ModelDict(ms))
  {
    params := BuildParams(ModelDict(ms));
  }

  /** With a non-empty image file, the packaged body is multipart: the file
      first, every object field as a JSON part, and the string fields as
      form data. */
  lemma PackagedMultipart(ms: MessageSend)
    requires ms.fileImage.Some? && ms.fileImage.value != []
    ensures SendParamsOf(ModelDict(ms)).Multipart?
    ensures SendParamsOf(ModelDict(ms)).files[0] == ("file_image", File(Some("file_image"), Bytes(ms.fileImage.value)))
    ensures ms.embed.Some? ==> ("embed", JsonPart(Some("embed"), "embed", JObj(ms.embed.value))) in SendParamsOf(ModelDict(ms)).files
    ensures ms.content.Some? ==> ("content", J(JStr(ms.content.value))) in SendParamsOf(ModelDict(ms)).data
  {
    var f := ModelFields(ms);
    var img := Bytes(ms.fileImage.value);
    ModelImage(ms);
    QQSendMultipart(f, img);
    var rest := Pop(ModelDict(ms), "file_image").1;
    var params := SendParamsOf(ModelDict(ms));
    assert params.files == [("file_image", File(Some("file_image"), img))] + ContainerParts(rest);
    assert params.data == ScalarData(rest);
    ModelRest(ms);
    SplitSpec(rest);
    if ms.embed.Some? {
      var e := ("embed", J(JObj(ms.embed.value)));
      assert IsContainer(e.1);
      assert ("embed", JsonPart(Some("embed"), "embed", JObj(ms.embed.value))) in ContainerParts(rest);
    }
  }

  /** The model's fields have unique keys and hold the image file. */
  lemma ModelImage(ms: MessageSend)
    requires ms.fileImage.Some?
    ensures UniqueKeys(ModelFields(ms)) && ("file_image", Bytes(ms.fileImage.value)) in ModelFields(ms)
  {
    var f := ModelFields(ms);
    assert f[8] == ("file_image", Bytes(ms.fileImage.value));
  }

  /** What stays in a model dict once `file_image` is popped. */
  lemma ModelRest(ms: MessageSend)
    ensures ms.embed.Some? ==> ("embed", J(JObj(ms.embed.value))) in Pop(ModelDict(ms), "file_image").1
    ensures ms.content.Some? ==> ("content", J(JStr(ms.content.value))) in Pop(ModelDict(ms), "file_image").1
  {
    var f := ModelFields(ms);
    if ms.embed.Some? {
      KeptField(f, ("embed", J(JObj(ms.embed.value))), 1);
    }
    if ms.content.Some? {
      KeptField(f, ("content", J(JStr(ms.content.value))), 0);
    }
  }

  /** A set field other than `file_image` survives `exclude_none` and the
      pop. */
  lemma KeptField(f: Entries, e: (string, Value), i: nat)
    requires i < |f| && f[i] == e && !IsNone(e.1) && e.0 != "file_image"
    ensures e in Pop(ExcludeNone(f), "file_image").1
  {
    ExcludeNoneSpec(f);
    PopSpec(ExcludeNone(f), "file_image");
  }

  /** Apart from `file_image`, a model dict holds only strings and
      objects. */
  lemma ModelDictScalars(ms: MessageSend)
    ensures forall e :: e in ModelDict(ms) ==> e.0 == "file_image" || IsContainer(e.1) || (e.1.J? && e.1.j.JStr?)
  {
    ExcludeNoneSpec(ModelFields(ms));
  }

  /** Every non-container field holds a string (`v.encode("utf-8")`). */
  predicate ScalarsAreStrings(es: Entries) {
    forall i :: 0 <= i < |es| && !IsContainer(es[i].1) ==> es[i].1.J? && es[i].1.j.JStr?
  }

  function LegacyPart(k: string, v: Value): Part
    requires IsContainer(v) || (v.J? && v.j.JStr?)
  {
    if IsContainer(v) then JsonPart(None, k, v.j) else TextPart(None, v.j.s)
  }

  /** The parts the older tree's loop adds after `file_image`: every field
      is a file part without a file name. */
  function LegacyParts(es: Entries): (r: seq<(string, Part)>)
    requires ScalarsAreStrings(es)
    ensures |r| == |es|
    ensures forall i :: 0 <= i < |r| ==> r[i].0 == es[i].0 && r[i].1.name.None?
    decreases |es|
  {
    if |es| == 0 then []
    else LegacyParts(es[..|es| - 1]) + [(es[|es| - 1].0, LegacyPart(es[|es| - 1].0, es[|es| - 1].1))]
  }

  /** What the older tree's `parse_send_message` returns. */
  function LegacySendParams(ms: MessageSend): Params {
    var (fileImage, rest) := Pop(ModelDict(ms), "file_image");
    ModelDictScalars(ms);
    PopScalars(ModelDict(ms));
    if fileImage.Some? && ValueTruthy(fileImage.value) then
      FilesOnly([("file_image", File(Some("file_image"), fileImage.value))] + LegacyParts(rest))
    else JsonBody(rest)
  }

  /** The fields left after popping `file_image` from a model dict are
      strings or objects. */
  lemma PopScalars(fields: Entries)
    requires forall e :: e in fields ==> e.0 == "file_image" || IsContainer(e.1) || (e.1.J? && e.1.j.JStr?)
    ensures ScalarsAreStrings(Pop(fields, "file_image").1)
  {
    PopSpec(fields, "file_image");
    var rest := Pop(fields, "file_image").1;
    forall i | 0 <= i < |rest| && !IsContainer(rest[i].1)
      ensures rest[i].1.J? && rest[i].1.j.JStr?
    {
      assert rest[i] in rest;
    }
  }

  /** The older tree's loop over the fields left after the image: each
      becomes a part after the image's own. */
  method AppendLegacyParts(image: Value, rest: Entries) returns (files: seq<(string, Part)>)
    requires ScalarsAreStrings(rest)
    ensures files == [("file_image", File(Some("file_image"), image))] + LegacyParts(rest)
  {
    files := [("file_image", File(Some("file_image"), image))];
    for i := 0 to |rest|
      invariant files == [("file_image", File(Some("file_image"), image))] + LegacyParts(rest[..i])
    {
      assert rest[..i + 1][..i] == rest[..i];
      var (k, v) := rest[i];
      files := files + [(k, LegacyPart(k, v))];
    }
    assert rest[..|rest|] == rest;
  }

  /** The older tree's `parse_send_message`: with a non-empty image file,
      everything goes into one `files` dict. */
  method LegacyParseSendMessage(ms: MessageSend) returns (params: Params)
    ensures params == LegacySendParams(ms)
  {
    var (fileImage, rest) := Pop(ModelDict(ms), "file_image");
    ModelDictScalars(ms);
    PopScalars(ModelDict(ms));
    if fileImage.Some? && ValueTruthy(fileImage.value) {
      var files := AppendLegacyParts(fileImage.value, rest);
      params := FilesOnly(files);
    } else {
      params := JsonBody(rest);
    }
  }

  /** The older multipart body has no separate form data: every field but
      the image is a part without a file name, in field order. */
  lemma LegacyAllFiles(ms: MessageSend)
    requires ms.fileImage.Some? && ms.fileImage.value != []
    ensures LegacySendParams(ms).FilesOnly?
    ensures LegacySendParams(ms).files[0] == ("file_image", File(Some("file_image"), Bytes(ms.fileImage.value)))
    ensures forall i :: 1 <= i < |LegacySendParams(ms).files| ==>
      LegacySendParams(ms).files[i].1.name.None? && LegacySendParams(ms).files[i].0 != "file_image"
  {
    var f := ModelFields(ms);
    assert UniqueKeys(f);
    ExcludeNoneSpec(f);
    ExcludeNoneUnique(f);
    var fields := ModelDict(ms);
    PopSpec(fields, "file_image");
    assert ("file_image", Bytes(ms.fileImage.value)) in fields;
    var (fi, rest) := Pop(fields, "file_image");
    UniqueValue(fields, "file_image", fi.value, Bytes(ms.fileImage.value));
    ModelDictScalars(ms);
    PopScalars(fields);
    var parts := LegacyParts(rest);
    forall i | 0 <= i < |parts|
      ensures parts[i].0 != "file_image"
    {
      assert rest[i] in rest;
    }
  }
}
