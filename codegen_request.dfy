/** The request handler generator (`codegen/gen_request.py`): for every
    documented operation, an `async def _name(adapter, bot, ...)` that
    builds the HTTP request, and the handler table naming it. */
module CodegenRequest {
  import opened Wrappers
  import opened PyStr
  import opened Json
  import opened CodegenParse
  import opened CodegenClient

  /** `s.upper()` on ASCII letters. */
  function UpperStr(s: string): (r: string)
    ensures |r| == |s|
    ensures forall i :: 0 <= i < |s| ==> r[i] == Upper(s[i]) && !('a' <= r[i] <= 'z')
  {
    seq(|s|, i requires 0 <= i < |s| => Upper(s[i]))
  }

  /** The opening of a handler's signature, up to its first argument. */
  function RequestHead(name: string): string {
    "async def _" + name + "(adapter: \"Adapter\", bot: \"Bot\", "
  }

  /** The annotation of a parameter: its schema's `type` looked up in
      `TYPES_MAP`, with no reference resolved; a type the map lacks is a
      KeyError. */
  function ParamType(schema: Json): Result<string, GenError> {
    if !schema.JObj? then Err(Shape)
    else
      match Get(schema.fields, "type")
      case None => Err(Shape)
      case Some(JStr(t)) => if t in TypesMap then Ok(TypesMap[t]) else Err(UnknownType(JStr(t)))
      case Some(JArr(items)) => Err(Shape)
      case Some(JObj(fields)) => Err(Shape)
      case Some(v) => Err(UnknownType(v))
  }

  /** One parameter as an argument `name: annotation`, with ` = None`
      when it is not required; its `in` plays no part. */
  function ParamArg(p: Json): Result<Arg, GenError> {
    if !p.JObj? then Err(Shape)
    else
      match Get(p.fields, "name")
      case Some(JStr(pname)) =>
        (match Get(p.fields, "schema")
         case None => Err(Shape)
         case Some(s) =>
           match ParamType(s)
           case Err(e) => Err(e)
           case Ok(ptype) =>
             var required := Truthy(GetDefault(p.fields, "required", JBool(false)));
             Ok(Arg(pname, ptype, if required then "" else " = None")))
      case _ => Err(Shape)
  }

  /** The parameters from the `k`-th on, after the arguments `acc`; the
      first that fails stops the generation. */
  function RequestParams(params: seq<Json>, k: nat, acc: seq<Arg>): (r: Result<seq<Arg>, GenError>)
    requires k <= |params|
    decreases |params| - k
  {
    if k == |params| then Ok(acc)
    else
      match ParamArg(params[k])
      case Err(e) => Err(e)
      case Ok(a) => RequestParams(params, k + 1, acc + [a])
  }

  /** One argument per parameter, after the arguments already there. */
  lemma {:induction false} RequestParamsCount(params: seq<Json>, k: nat, acc: seq<Arg>)
    requires k <= |params|
    ensures var r := RequestParams(params, k, acc);
            r.Ok? ==> |r.value| == |acc| + |params| - k && r.value[..|acc|] == acc
    decreases |params| - k
  {
    if k < |params| && ParamArg(params[k]).Ok? {
      var a := ParamArg(params[k]).value;
      RequestParamsCount(params, k + 1, acc + [a]);
      var r := RequestParams(params, k + 1, acc + [a]);
      if r.Ok? {
        assert r.value[..|acc|] == (r.value[..|acc| + 1])[..|acc|];
      }
    }
  }

  /** The `i`-th parameter gives the matching argument. */
  lemma {:induction false} RequestParamAt(params: seq<Json>, k: nat, acc: seq<Arg>, i: nat)
    requires k <= i < |params|
    ensures var r := RequestParams(params, k, acc);
            r.Ok? ==> |acc| + i - k < |r.value| && ParamArg(params[i]) == Ok(r.value[|acc| + i - k])
    decreases |params| - k
  {
    if ParamArg(params[k]).Ok? {
      var a := ParamArg(params[k]).value;
      RequestParamsStep(params, k, acc);
      var r := RequestParams(params, k + 1, acc + [a]);
      if i == k {
        RequestParamsCount(params, k + 1, acc + [a]);
        if r.Ok? {
          assert r.value[|acc|] == r.value[..|acc| + 1][|acc|] == (acc + [a])[|acc|];
        }
      } else {
        RequestParamAt(params, k + 1, acc + [a], i);
      }
    }
  }

  lemma RequestParamsStep(params: seq<Json>, k: nat, acc: seq<Arg>)
    requires k < |params| && ParamArg(params[k]).Ok?
    ensures RequestParams(params, k, acc) == RequestParams(params, k + 1, acc + [ParamArg(params[k]).value])
  {
  }

  /** What a handler's signature is made of: its name, whether the
      parameters are keyword-only, the parameters, and whether it takes
      `**data`. */
  datatype Handler = Handler(name: string, star: bool, args: seq<Arg>, data: bool)

  /** `method_str` once the arguments are written after `head` and the
      trailing `, ` is dropped. */
  function Line(head: string, args: seq<Arg>, data: bool): string {
    RemoveSuffix(head + ArgsText(args) + (if data then "**data" else ""), ", ") + "):"
  }

  /** The signature line of a handler. */
  function HandlerLine(h: Handler): string {
    Line(RequestHead(h.name) + (if h.star then "*, " else ""), h.args, h.data)
  }

  /** The handler of the operation named `name`: keyword-only parameters
      when there are any, and `**data` when the request body's schema is
      not empty. */
  function HandlerOf(name: string, op: Json, content: Json): (r: Result<Handler, GenError>) {
    match ParamsOf(op)
    case Err(e) => Err(e)
    case Ok(params) =>
      match RequestParams(params, 0, [])
      case Err(e) => Err(e)
      case Ok(args) =>
        match BodyOf(op, content)
        case Err(e) => Err(e)
        case Ok(schema) => Ok(Handler(name, params != [], args, Truthy(schema)))
  }

  /** The fixed text of a handler's body: the lines around the method and
      the path. */
  datatype Template = Template(open: string, verbLead: string, verbTail: string,
                               pathLead: string, pathTail: string, authKey: string, authValue: string,
                               close: string, ret: string)

  /** The text `gen_request` writes: build the request for the upper-cased
      method and the path under the API base, authorised for the bot, then
      send it. */
  function Standard(): Template {
    Template("request = Request(", "    \"", "\",",
                             "    adapter.get_api_base() / \"", "\",",
                             "    headers={\"Authorization\": ", "adapter.get_authorization(bot.bot_info)},",
                             ")", "return await _request(adapter, bot, request)")
  }

  /** The handler's body, line by line before indentation. */
  function BodyLines(t: Template, verb: string, path: string): (r: seq<string>)
    ensures |r| == 6 && r[0] == t.open
  {
    [t.open, t.verbLead + UpperStr(verb) + t.verbTail, t.pathLead + path + t.pathTail, t.authKey + t.authValue, t.close, t.ret]
  }

  /** The body as the generator writes it: the lines indented by four
      spaces. */
  function Body(t: Template, verb: string, path: string): string {
    Indent(Join("\n", BodyLines(t, verb, path)), "    ")
  }

  function Prefixed(lines: seq<string>, prefix: string): (r: seq<string>)
    ensures |r| == |lines|
  {
    seq(|lines|, i requires 0 <= i < |lines| => prefix + lines[i])
  }

  /** Indenting lines that hold no newline and none of which is blank puts
      the prefix before each of them. */
  lemma {:induction false} IndentJoin(lines: seq<string>, prefix: string)
    requires lines != []
    requires forall i :: 0 <= i < |lines| ==> '\n' !in lines[i] && !IsBlank(lines[i])
    ensures Indent(Join("\n", lines), prefix) == Join("\n", Prefixed(lines, prefix))
    decreases |lines|
  {
    if |lines| == 1 {
      assert lines[0] != [] by {
        var i :| 0 <= i < |lines[0]| && !IsSpace(lines[0][i]);
      }
      IndentLast(lines[0], prefix);
    } else {
      assert !IsBlank(lines[0]) && '\n' !in lines[0];
      IndentLine(lines[0], Join("\n", lines[1..]), prefix);
      IndentJoin(lines[1..], prefix);
      PrefixedTail(lines, prefix);
      JoinStep(lines, Prefixed(lines, prefix));
    }
  }

  lemma PrefixedTail(lines: seq<string>, prefix: string)
    requires lines != []
    ensures Prefixed(lines, prefix)[0] == prefix + lines[0]
    ensures Prefixed(lines, prefix)[1..] == Prefixed(lines[1..], prefix)
  {
  }

  lemma JoinStep(a: seq<string>, b: seq<string>)
    requires |a| >= 2 && |b| >= 2
    ensures Join("\n", a) == a[0] + "\n" + Join("\n", a[1..])
    ensures Join("\n", b) == b[0] + "\n" + Join("\n", b[1..])
  {
  }

  /** No piece of the template holds a newline, and each line's opening
      piece is not blank. */
  predicate Plain(t: Template) {
    '\n' !in t.open && '\n' !in t.verbLead && '\n' !in t.verbTail && '\n' !in t.pathLead
    && '\n' !in t.pathTail && '\n' !in t.authKey && '\n' !in t.authValue && '\n' !in t.close && '\n' !in t.ret
    && !IsBlank(t.open) && !IsBlank(t.verbLead) && !IsBlank(t.pathLead)
    && !IsBlank(t.authKey) && !IsBlank(t.close) && !IsBlank(t.ret)
  }

  /** A line of text: no newline, and not blank because of its
      character at `i`. */
  lemma PlainPiece(s: string, i: nat)
    requires i < |s| && !IsSpace(s[i])
    requires forall j :: 0 <= j < |s| ==> s[j] != '\n'
    ensures '\n' !in s && !IsBlank(s)
  {
  }

  lemma StandardPlain()
    ensures Plain(Standard())
  {
    var t := Standard();
    PlainPiece(t.open, 0);
    PlainPiece(t.verbLead, 4);
    PlainPiece(t.verbTail, 0);
    PlainPiece(t.pathTail, 0);
    PlainPiece(t.close, 0);
    PathLeadPlain();
    AuthPlain();
    ReturnPlain();
  }

  lemma PathLeadPlain()
    ensures '\n' !in Standard().pathLead && !IsBlank(Standard().pathLead)
  {
    PlainPiece(Standard().pathLead, 4);
  }

  lemma AuthPlain()
    ensures '\n' !in Standard().authKey && !IsBlank(Standard().authKey)
    ensures '\n' !in Standard().authValue
  {
    PlainPiece(Standard().authKey, 4);
    PlainPiece(Standard().authValue, 0);
  }

  lemma ReturnPlain()
    ensures '\n' !in Standard().ret && !IsBlank(Standard().ret)
  {
    PlainPiece(Standard().ret, 0);
  }

  lemma NotBlankLead(a: string, b: string)
    requires !IsBlank(a)
    ensures !IsBlank(a + b)
  {
    var i :| 0 <= i < |a| && !IsSpace(a[i]);
    assert (a + b)[i] == a[i];
  }

  /** With a plain template, a method and a path on one line each make six
      plain lines. */
  lemma BodyLinesPlain(t: Template, verb: string, path: string)
    requires Plain(t) && '\n' !in verb && '\n' !in path
    ensures var lines := BodyLines(t, verb, path);
            forall i :: 0 <= i < 6 ==> '\n' !in lines[i] && !IsBlank(lines[i])
  {
    var u := UpperStr(verb);
    assert '\n' !in u by {
      assert forall i :: 0 <= i < |u| ==> verb[i] in verb && u[i] == Upper(verb[i]);
    }
    NotBlankLead(t.verbLead, u);
    NotBlankLead(t.verbLead + u, t.verbTail);
    NotBlankLead(t.pathLead, path);
    NotBlankLead(t.pathLead + path, t.pathTail);
    NotBlankLead(t.authKey, t.authValue);
  }

  /** The body of a handler for `verb` on `path`. */
  function RequestBody(verb: string, path: string): string {
    Body(Standard(), verb, path)
  }

  /** A method and a path on one line each give the body every line of
      which is indented by four spaces. */
  lemma RequestBodyText(verb: string, path: string)
    requires '\n' !in verb && '\n' !in path
    ensures RequestBody(verb, path) == Join("\n", Prefixed(BodyLines(Standard(), verb, path), "    "))
  {
    StandardPlain();
    BodyLinesPlain(Standard(), verb, path);
    IndentJoin(BodyLines(Standard(), verb, path), "    ");
  }

  /** `sep.join(parts)` opens with the first part. */
  lemma JoinStart(sep: string, parts: seq<string>)
    requires parts != []
    ensures StartsWith(Join(sep, parts), parts[0])
  {
    var j := Join(sep, parts);
    if |parts| > 1 {
      assert j == parts[0] + (sep + Join(sep, parts[1..]));
    }
  }

  /** Whatever the method and path, a body opens with its first line
      indented. */
  lemma BodyStart(t: Template, verb: string, path: string)
    requires Plain(t)
    ensures StartsWith(Body(t, verb, path), "    " + t.open)
  {
    var lines := BodyLines(t, verb, path);
    JoinStart("\n", lines);
    IndentStart(Join("\n", lines), t.open, "    ");
  }

  predicate EndsWith(s: string, t: string) {
    |t| <= |s| && s[|s| - |t|..] == t
  }

  /** Dropping a trailing `, ` and closing keeps what the text opens with. */
  lemma LineKeeps(head: string, rest: string, p: string)
    requires StartsWith(head, p) && |p| + 2 <= |head|
    ensures StartsWith(RemoveSuffix(head + rest, ", ") + "):", p) && EndsWith(RemoveSuffix(head + rest, ", ") + "):", "):")
  {
    var s := head + rest;
    var t := RemoveSuffix(s, ", ");
    assert |t| >= |s| - 2;
    assert t[..|p|] == s[..|p|];
    assert s[..|p|] == head[..|p|];
    assert (t + "):")[..|p|] == t[..|p|];
  }

  lemma HeadOpens(name: string, star: bool)
    ensures var h := RequestHead(name) + (if star then "*, " else "");
            StartsWith(h, "async def _") && 13 <= |h|
  {
    var h := RequestHead(name) + (if star then "*, " else "");
    assert h[..11] == "async def _";
  }

  /** Every signature line opens `async def _` and closes `):`. */
  lemma HandlerLineShape(h: Handler)
    ensures StartsWith(HandlerLine(h), "async def _") && EndsWith(HandlerLine(h), "):")
  {
    var head := RequestHead(h.name) + (if h.star then "*, " else "");
    HeadOpens(h.name, h.star);
    LineKeeps(head, ArgsText(h.args) + (if h.data then "**data" else ""), "async def _");
    assert head + ArgsText(h.args) + (if h.data then "**data" else "")
           == head + (ArgsText(h.args) + (if h.data then "**data" else ""));
  }

  /** A handler taking `**data` keeps it last. */
  lemma DataLast(x: string)
    ensures RemoveSuffix(x + "**data", ", ") + "):" == x + "**data):"
  {
    var s := x + "**data";
    assert s[|s| - 1] == 'a';
  }

  /** The handler takes `**data` exactly when the body's schema is not
      empty, and its parameters are keyword-only exactly when there are
      any; each parameter gives its argument. */
  lemma HandlerSignature(name: string, op: Json, content: Json)
    ensures var r := HandlerOf(name, op, content);
            r.Ok? ==> ParamsOf(op).Ok? && BodyOf(op, content).Ok?
                      && (r.value.star <==> ParamsOf(op).value != [])
                      && (r.value.data <==> Truthy(BodyOf(op, content).value))
                      && |r.value.args| == |ParamsOf(op).value|
                      && (forall i :: 0 <= i < |r.value.args| ==> ParamArg(ParamsOf(op).value[i]) == Ok(r.value.args[i]))
                      && (r.value.data ==> EndsWith(HandlerLine(r.value), "**data):"))
  {
    var r := HandlerOf(name, op, content);
    if r.Ok? {
      var params := ParamsOf(op).value;
      RequestParamsCount(params, 0, []);
      forall i | 0 <= i < |r.value.args|
        ensures ParamArg(params[i]) == Ok(r.value.args[i])
      {
        RequestParamAt(params, 0, [], i);
      }
      if r.value.data {
        var h := r.value;
        var x := RequestHead(h.name) + (if h.star then "*, " else "") + ArgsText(h.args);
        DataLast(x);
        assert HandlerLine(h) == x + "**data):";
      }
    }
  }

  /** The generator's state: the definitions written so far and the
      handler table, name to function name. */
  datatype Requests = Requests(definitions: seq<string>, handlers: seq<(string, string)>)

  /** A documented operation named `name`: its handler is named in the
      table first, then its signature and body are added. */
  function Emit(st: Requests, t: Template, name: string, h: Result<Handler, GenError>, verb: string, path: string)
    : (Result<(), GenError>, Requests)
  {
    var handlers := Put(st.handlers, name, "_" + name);
    match h
    case Err(e) => (Err(e), Requests(st.definitions, handlers))
    case Ok(h) => (Ok(()), Requests(st.definitions + [HandlerLine(h), Body(t, verb, path)], handlers))
  }

  /** One entry of a path item: skipped without a documentation URL. */
  function OperationReq(st: Requests, t: Template, path: string, verb: string, op: Json, content: Json)
    : (Result<(), GenError>, Requests)
  {
    match DocUrl(op)
    case Err(_) => (Err(Shape), st)
    case Ok(None) => (Ok(()), st)
    case Ok(Some(url)) => Emit(st, t, ApiName(url), HandlerOf(ApiName(url), op, content), verb, path)
  }

  function OpsReq(st: Requests, t: Template, path: string, methods: Fields, content: Json, k: nat): (Result<(), GenError>, Requests)
    requires k <= |methods|
    decreases |methods| - k
  {
    if k == |methods| then (Ok(()), st)
    else
      var o := OperationReq(st, t, path, methods[k].0, methods[k].1, content);
      if o.0.Err? then o else OpsReq(o.1, t, path, methods, content, k + 1)
  }

  function PathsReq(st: Requests, t: Template, paths: Fields, content: Json, k: nat): (Result<(), GenError>, Requests)
    requires k <= |paths|
    decreases |paths| - k
  {
    if k == |paths| then (Ok(()), st)
    else if !paths[k].1.JObj? then (Err(Shape), st)
    else
      var o := OpsReq(st, t, paths[k].0, paths[k].1.fields, content, 0);
      if o.0.Err? then o else PathsReq(o.1, t, paths, content, k + 1)
  }

  /** `generate_request` up to writing the file, for a body template. */
  function RequestsOut(t: Template, content: Json): (r: (Result<(), GenError>, Requests))
    ensures !content.JObj? ==> r == (Err(Shape), Requests([], []))
    ensures content.JObj? && !HasKey(content.fields, "paths") ==> r == (Ok(()), Requests([], []))
  {
    match DictGet(content, "paths", JObj([]), Shape)
    case Err(e) => (Err(e), Requests([], []))
    case Ok(JObj(paths)) => PathsReq(Requests([], []), t, paths, content, 0)
    case Ok(_) => (Err(Shape), Requests([], []))
  }

  /** The handler table names each operation's handler by an underscore
      before the operation's name, once per name. */
  predicate Named(handlers: seq<(string, string)>) {
    UniqueKeys(handlers) && forall e :: e in handlers ==> e.1 == "_" + e.0
  }

  /** The definitions come in pairs: a handler's signature line, then its
      indented body. */
  predicate Paired(definitions: seq<string>, t: Template) {
    |definitions| % 2 == 0
    && forall i :: 0 <= i < |definitions| / 2 ==>
         StartsWith(definitions[2 * i], "async def _") && EndsWith(definitions[2 * i], "):")
         && StartsWith(definitions[2 * i + 1], "    " + t.open)
  }

  /** A sound state: the table is well named and the definitions are
      paired. */
  predicate Sound(st: Requests, t: Template) {
    Named(st.handlers) && Paired(st.definitions, t)
  }

  lemma NamedPut(handlers: seq<(string, string)>, name: string)
    requires Named(handlers)
    ensures Named(Put(handlers, name, "_" + name))
  {
    PutKeys(handlers, name, "_" + name);
    PutEntries(handlers, name, "_" + name);
  }

  lemma PairedSnoc(definitions: seq<string>, t: Template, line: string, body: string)
    requires Paired(definitions, t)
    requires StartsWith(line, "async def _") && EndsWith(line, "):") && StartsWith(body, "    " + t.open)
    ensures Paired(definitions + [line, body], t)
  {
    var d := definitions + [line, body];
    forall i | 0 <= i < |d| / 2
      ensures StartsWith(d[2 * i], "async def _") && EndsWith(d[2 * i], "):")
              && StartsWith(d[2 * i + 1], "    " + t.open)
    {
      if i < |definitions| / 2 {
        assert d[2 * i] == definitions[2 * i] && d[2 * i + 1] == definitions[2 * i + 1];
      }
    }
  }

  /** Naming a handler and adding its definitions keeps the state sound,
      and the handler is then in the table. */
  lemma EmitSound(st: Requests, t: Template, name: string, h: Result<Handler, GenError>, verb: string, path: string)
    requires Plain(t) && Sound(st, t)
    ensures var o := Emit(st, t, name, h, verb, path);
            Sound(o.1, t) && (name, "_" + name) in o.1.handlers
            && (o.0.Ok? ==> |o.1.definitions| == |st.definitions| + 2)
  {
    NamedPut(st.handlers, name);
    PutEntries(st.handlers, name, "_" + name);
    if h.Ok? {
      HandlerLineShape(h.value);
      BodyStart(t, verb, path);
      PairedSnoc(st.definitions, t, HandlerLine(h.value), Body(t, verb, path));
    }
  }

  lemma {:induction false} OpsSound(st: Requests, t: Template, path: string, methods: Fields, content: Json, k: nat)
    requires k <= |methods| && Plain(t) && Sound(st, t)
    ensures Sound(OpsReq(st, t, path, methods, content, k).1, t)
    decreases |methods| - k
  {
    if k < |methods| {
      var op := methods[k].1;
      if DocUrl(op).Ok? && DocUrl(op).value.Some? {
        var name := ApiName(DocUrl(op).value.value);
        EmitSound(st, t, name, HandlerOf(name, op, content), methods[k].0, path);
      }
      var o := OperationReq(st, t, path, methods[k].0, op, content);
      if o.0.Ok? {
        OpsSound(o.1, t, path, methods, content, k + 1);
      }
    }
  }

  lemma {:induction false} PathsSound(st: Requests, t: Template, paths: Fields, content: Json, k: nat)
    requires k <= |paths| && Plain(t) && Sound(st, t)
    ensures Sound(PathsReq(st, t, paths, content, k).1, t)
    decreases |paths| - k
  {
    if k < |paths| && paths[k].1.JObj? {
      OpsSound(st, t, paths[k].0, paths[k].1.fields, content, 0);
      var o := OpsReq(st, t, paths[k].0, paths[k].1.fields, content, 0);
      if o.0.Ok? {
        PathsSound(o.1, t, paths, content, k + 1);
      }
    }
  }

  /** Whatever the document, the handler table names every handler after
      its operation, once per name, and the definitions alternate
      signature and body. */
  lemma RequestsSound(t: Template, content: Json)
    requires Plain(t)
    ensures Sound(RequestsOut(t, content).1, t)
  {
    var paths := DictGet(content, "paths", JObj([]), Shape);
    if paths.Ok? && paths.value.JObj? {
      PathsSound(Requests([], []), t, paths.value.fields, content, 0);
    }
  }

  /** `generate_request`'s state. */
  class RequestGenerator {
    var definitions: seq<string>
    var handlers: seq<(string, string)>
    /** The fixed text of every handler's body. */
    const template: Template

    constructor()
      ensures definitions == [] && handlers == [] && template == Standard()
    {
      definitions := [];
      handlers := [];
      template := Standard();
    }

    /** The parameters loop: `method_str` grows by one argument per
        parameter. */
    static method AddParams(params: seq<Json>, head: string) returns (r: Result<seq<Arg>, GenError>, text: string)
      ensures r == RequestParams(params, 0, [])
      ensures r.Ok? ==> text == head + ArgsText(r.value)
    {
      var acc: seq<Arg> := [];
      text := head;
      var k := 0;
      while k < |params|
        invariant k <= |params|
        invariant RequestParams(params, k, acc) == RequestParams(params, 0, [])
        invariant text == head + ArgsText(acc)
      {
        var a := ParamArg(params[k]);
        if a.Err? {
          return Err(a.error), text;
        }
        TextStep(head, acc, a.value);
        text := text + ArgText(a.value);
        acc := acc + [a.value];
        k := k + 1;
      }
      r := Ok(acc);
    }

    /** Building `method_str` for the operation named `name`. */
    static method GenerateHandler(name: string, op: Json, content: Json) returns (r: Result<Handler, GenError>, line: string)
      ensures r == HandlerOf(name, op, content)
      ensures r.Ok? ==> line == HandlerLine(r.value)
    {
      var methodStr := RequestHead(name);
      var params := ParamsOf(op);
      if params.Err? {
        return Err(params.error), methodStr;
      }
      if params.value != [] {
        methodStr := methodStr + "*, ";
      }
      ghost var head := methodStr;
      assert head == RequestHead(name) + (if params.value != [] then "*, " else "");
      var args;
      args, methodStr := AddParams(params.value, methodStr);
      if args.Err? {
        return Err(args.error), methodStr;
      }
      var schema := BodyOf(op, content);
      if schema.Err? {
        return Err(schema.error), methodStr;
      }
      ghost var signed := methodStr;
      if Truthy(schema.value) {
        methodStr := methodStr + "**data";
      }
      assert methodStr == signed + (if Truthy(schema.value) then "**data" else "");
      methodStr := RemoveSuffix(methodStr, ", ");
      methodStr := methodStr + "):";
      r := Ok(Handler(name, params.value != [], args.value, Truthy(schema.value)));
      assert methodStr == Line(head, args.value, Truthy(schema.value));
      line := methodStr;
    }

    /** One operation: name its handler, then add the signature and the
        body. */
    method GenerateOperation(path: string, verb: string, op: Json, content: Json) returns (r: Result<(), GenError>)
      modifies this
      ensures (r, Requests(definitions, handlers))
              == OperationReq(Requests(old(definitions), old(handlers)), template, path, verb, op, content)
    {
      var url := DocUrl(op);
      if url.Err? {
        return Err(Shape);
      }
      if url.value.None? {
        return Ok(());
      }
      var name := ApiName(url.value.value);
      ghost var before := Requests(definitions, handlers);
      handlers := Put(handlers, name, "_" + name);
      var h, line := GenerateHandler(name, op, content);
      assert OperationReq(before, template, path, verb, op, content) == Emit(before, template, name, h, verb, path);
      if h.Err? {
        return Err(h.error);
      }
      definitions := definitions + [line];
      definitions := definitions + [Body(template, verb, path)];
      assert definitions == before.definitions + [HandlerLine(h.value), Body(template, verb, path)];
      r := Ok(());
    }

    method GenerateOps(path: string, methods: Fields, content: Json) returns (r: Result<(), GenError>)
      modifies this
      ensures (r, Requests(definitions, handlers))
              == OpsReq(Requests(old(definitions), old(handlers)), template, path, methods, content, 0)
    {
      var k := 0;
      while k < |methods|
        invariant k <= |methods|
        invariant OpsReq(Requests(definitions, handlers), template, path, methods, content, k)
                  == OpsReq(Requests(old(definitions), old(handlers)), template, path, methods, content, 0)
      {
        ghost var before := Requests(definitions, handlers);
        var o := GenerateOperation(path, methods[k].0, methods[k].1, content);
        assert OpsReq(before, template, path, methods, content, k)
               == if o.Err? then (o, Requests(definitions, handlers))
                  else OpsReq(Requests(definitions, handlers), template, path, methods, content, k + 1);
        if o.Err? {
          return o;
        }
        k := k + 1;
      }
      r := Ok(());
    }

    /** `generate_request` up to writing the file: every path item in
        turn. */
    method GenerateRequests(content: Json) returns (r: Result<(), GenError>)
      requires definitions == [] && handlers == [] && Plain(template)
      modifies this
      ensures (r, Requests(definitions, handlers)) == RequestsOut(template, content)
      ensures Named(handlers) && Paired(definitions, template)
    {
      RequestsSound(template, content);
      var paths := DictGet(content, "paths", JObj([]), Shape);
      if paths.Err? {
        return Err(paths.error);
      }
      if !paths.value.JObj? {
        return Err(Shape);
      }
      var items := paths.value.fields;
      var k := 0;
      while k < |items|
        invariant k <= |items|
        invariant PathsReq(Requests(definitions, handlers), template, items, content, k) == RequestsOut(template, content)
      {
        if !items[k].1.JObj? {
          return Err(Shape);
        }
        ghost var before := Requests(definitions, handlers);
        var o := GenerateOps(items[k].0, items[k].1.fields, content);
        assert PathsReq(before, template, items, content, k)
               == if o.Err? then (o, Requests(definitions, handlers))
                  else PathsReq(Requests(definitions, handlers), template, items, content, k + 1);
        if o.Err? {
          return o;
        }
        k := k + 1;
      }
      r := Ok(());
    }
  }
}
