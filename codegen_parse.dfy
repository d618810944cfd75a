/** `parse` of the code generator's `parse.py`: reading the OpenAPI
    document into `API` descriptions, converting every schema it meets into
    a `Type` (and so registering each object schema in `obj_schemas`). */
module CodegenParse {
  import opened Wrappers
  import opened PyStr
  import opened Json
  import opened CodegenSource
  import opened CodegenModel
  import opened CodegenResolve

  /** The contents of `obj_schemas`. */
  type Schemas = seq<(string, Type)>

  /** `required` of an object schema: absent means none, otherwise a list
      of strings. */
  function RequiredList(v: Option<Json>): (r: Option<seq<string>>)
    ensures v.None? ==> r == Some([])
    ensures r.Some? && v.Some? ==> v.value.JArr? && |r.value| == |v.value.items|
  {
    match v
    case None => Some([])
    case Some(JArr(items)) => Strings(items)
    case Some(_) => None
  }

  function Strings(items: seq<Json>): (r: Option<seq<string>>)
    ensures r.Some? ==> |r.value| == |items|
    ensures r.Some? <==> forall i :: 0 <= i < |items| ==> items[i].JStr?
  {
    if items == [] then Some([])
    else if !items[0].JStr? then None
    else
      match Strings(items[1..])
      case None => None
      case Some(rest) => Some([items[0].s] + rest)
  }

  /** `parse_obj_as(Type, j)`, with the schemas it registers: the value of
      `type` picks the kind, an array converts its `items`, and an object
      needs a string `name`, a dict of convertible `properties` and a list
      of strings as `required`. As pydantic validates every field, the
      nested objects that convert are constructed, and so registered, even
      where the whole fails; an object registers after its properties. */
  function Convert(m: Schemas, j: Json): (r: (Option<Type>, Schemas))
    ensures !j.JObj? ==> r == (None, m)
    ensures r.0.Some? && !r.0.value.Array? && !r.0.value.Object? ==> r.1 == m
    decreases j, 1
  {
    match j
    case JObj(f) =>
      var ti := FirstKey(f, "type");
      if ti == |f| || !f[ti].1.JStr? then (None, m)
      else
        var tag := f[ti].1.s;
        if tag == "array" then
          var ii := FirstKey(f, "items");
          if ii == |f| then (None, m)
          else
            var c := Convert(m, f[ii].1);
            (if c.0.Some? then Some(Array(c.0.value)) else None, c.1)
        else if tag == "boolean" then (Some(Boolean), m)
        else if tag == "integer" then (Some(Integer), m)
        else if tag == "number" then (Some(Number), m)
        else if tag == "string" then (Some(String), m)
        else if tag == "object" then
          var pi := FirstKey(f, "properties");
          var ps := if pi < |f| && f[pi].1.JObj? then ConvertProps(m, j, pi, |f[pi].1.fields|) else (None, m);
          var name := Get(f, "name");
          var req := RequiredList(Get(f, "required"));
          if ps.0.Some? && name.Some? && name.value.JStr? && req.Some? then
            var o := Object(name.value.s, ps.0.value, req.value);
            (Some(o), Put(ps.1, o.name, o))
          else (None, ps.1)
        else (None, m)
    case _ => (None, m)
  }

  /** The first `k` properties of the object schema `j`, whose
      `properties` is its `pi`-th entry. */
  function ConvertProps(m: Schemas, j: Json, pi: nat, k: nat): (r: (Option<seq<(string, Type)>>, Schemas))
    requires j.JObj? && pi < |j.fields| && j.fields[pi].1.JObj? && k <= |j.fields[pi].1.fields|
    ensures r.0.Some? ==> |r.0.value| == k
    decreases j, 0, k
  {
    if k == 0 then (Some([]), m)
    else
      var before := ConvertProps(m, j, pi, k - 1);
      var (key, value) := j.fields[pi].1.fields[k - 1];
      var c := Convert(before.1, value);
      (if before.0.Some? && c.0.Some? then Some(before.0.value + [(key, c.0.value)]) else None, c.1)
  }

  /** Conversion keeps the registry's names unique and never drops one,
      and a converted object ends up registered under its name. */
  lemma {:induction false} ConvertRegisters(m: Schemas, j: Json)
    requires UniqueKeys(m)
    ensures var r := Convert(m, j);
            UniqueKeys(r.1)
            && (forall key :: HasKey(m, key) ==> HasKey(r.1, key))
            && (r.0.Some? && r.0.value.Object? ==> (r.0.value.name, r.0.value) in r.1)
    decreases j, 1
  {
    if j.JObj? {
      var f := j.fields;
      var ti := FirstKey(f, "type");
      if ti < |f| && f[ti].1.JStr? {
        var tag := f[ti].1.s;
        if tag == "array" {
          var ii := FirstKey(f, "items");
          if ii < |f| {
            ConvertRegisters(m, f[ii].1);
          }
        } else if tag == "object" {
          var pi := FirstKey(f, "properties");
          if pi < |f| && f[pi].1.JObj? {
            ConvertPropsRegisters(m, j, pi, |f[pi].1.fields|);
          }
          var ps := if pi < |f| && f[pi].1.JObj? then ConvertProps(m, j, pi, |f[pi].1.fields|) else (None, m);
          var name := Get(f, "name");
          var req := RequiredList(Get(f, "required"));
          if ps.0.Some? && name.Some? && name.value.JStr? && req.Some? {
            var o := Object(name.value.s, ps.0.value, req.value);
            PutEntries(ps.1, o.name, o);
            PutKeys(ps.1, o.name, o);
          }
        }
      }
    }
  }

  lemma {:induction false} ConvertPropsRegisters(m: Schemas, j: Json, pi: nat, k: nat)
    requires j.JObj? && pi < |j.fields| && j.fields[pi].1.JObj? && k <= |j.fields[pi].1.fields|
    requires UniqueKeys(m)
    ensures UniqueKeys(ConvertProps(m, j, pi, k).1)
    ensures forall key :: HasKey(m, key) ==> HasKey(ConvertProps(m, j, pi, k).1, key)
    decreases j, 0, k
  {
    if k > 0 {
      ConvertPropsRegisters(m, j, pi, k - 1);
      var before := ConvertProps(m, j, pi, k - 1);
      ConvertRegisters(before.1, j.fields[pi].1.fields[k - 1].1);
    }
  }

  /** `_schema_to_model`: resolve the schema's references from the current
      source, convert it, and register it once more when it is an object. */
  function ModelOf(env: Env, base: string, m: Schemas, schema: Json, loc: seq<string>, fuel: nat)
    : (r: (Result<Type, ResolveError>, Schemas))
  {
    match ResolveRef(HopOf(env), base, schema, loc, fuel)
    case Err(e) => (Err(e), m)
    case Ok(s) =>
      var c := Convert(m, s);
      if c.0.None? then (Err(Malformed), c.1)
      else if c.0.value.Object? then (Ok(c.0.value), Put(c.1, c.0.value.name, c.0.value))
      else (Ok(c.0.value), c.1)
  }

  /** A schema that converts to an object leaves it in the registry under
      its own name, the names unique and none lost. */
  lemma ModelRegistered(env: Env, base: string, m: Schemas, schema: Json, loc: seq<string>, fuel: nat)
    requires UniqueKeys(m)
    ensures var r := ModelOf(env, base, m, schema, loc, fuel);
            UniqueKeys(r.1)
            && (forall key :: HasKey(m, key) ==> HasKey(r.1, key))
            && (r.0.Ok? && r.0.value.Object? ==> (r.0.value.name, r.0.value) in r.1)
  {
    var s := ResolveRef(HopOf(env), base, schema, loc, fuel);
    if s.Ok? {
      var c := Convert(m, s.value);
      ConvertRegisters(m, s.value);
      if c.0.Some? && c.0.value.Object? {
        PutAppendOrKeep(c.1, c.0.value.name, c.0.value);
      }
    }
  }

  predicate IsSchemeChar(c: char) {
    'a' <= c <= 'z' || 'A' <= c <= 'Z' || '0' <= c <= '9' || c == '+' || c == '-' || c == '.'
  }

  /** What follows the scheme and its `:`, when the text before the first
      `:` is a scheme (a letter, then letters, digits, `+`, `-` or `.`). */
  function AfterScheme(w: string): string {
    var i := IndexOf(w, ':');
    if 0 < i < |w| && ('a' <= w[0] <= 'z' || 'A' <= w[0] <= 'Z') && forall j :: 0 <= j < i ==> IsSchemeChar(w[j])
    then w[i + 1..]
    else w
  }

  /** `urlparse(u).path`: the fragment, the query, the scheme and a `//`
      network location are taken off. */
  function UrlPath(u: string): string {
    var noFragment := u[..IndexOf(u, '#')];
    var noQuery := noFragment[..IndexOf(noFragment, '?')];
    var rest := AfterScheme(noQuery);
    if |rest| >= 2 && rest[..2] == "//" then rest[2..][IndexOf(rest[2..], '/')..] else rest
  }

  /** The API name the documentation URL gives: its path's last segment,
      without `;` parameters, with `.html` removed and `-` turned into
      `_`. */
  function ApiName(url: string): string {
    SegmentName(LastSegment(UrlPath(url)))
  }

  /** The API name one path segment gives. */
  function SegmentName(segment: string): string {
    ReplaceChar(RemoveSuffix(segment[..IndexOf(segment, ';')], ".html"), '-', '_')
  }

  /** The last piece of a split is what follows the last separator. */
  lemma {:induction false} SplitLast(a: string, b: string, c: char)
    requires c !in b
    ensures var parts := Split(a + [c] + b, c); parts[|parts| - 1] == b
    decreases |a|
  {
    var s := a + [c] + b;
    var k := IndexOf(s, c);
    assert s[|a|] == c;
    assert k <= |a|;
    if k == |a| {
      assert s[k + 1..] == b;
      assert IndexOf(b, c) == |b|;
    } else {
      assert s[k + 1..] == a[k + 1..] + [c] + b;
      SplitLast(a[k + 1..], b, c);
    }
  }

  /** The path of `https://<rest>`, with a host free of `/`, `?` and `#`
      and a tail free of `?` and `#` making up the rest, is the tail. */
  lemma {:induction false} HttpsPath(rest: string, host: string, tail: string)
    requires rest == host + tail
    requires '/' !in host && '?' !in host && '#' !in host
    requires '?' !in tail && '#' !in tail
    requires |tail| > 0 && tail[0] == '/'
    ensures UrlPath("https://" + rest) == tail
  {
    var u := "https://" + rest;
    NoMarks(u);
    HttpsScheme(rest);
    NetlocEnd(host, tail);
  }

  lemma NoMarks(u: string)
    requires '?' !in u && '#' !in u
    ensures u[..IndexOf(u, '#')] == u && u[..IndexOf(u, '?')] == u
  {
    assert IndexOf(u, '#') == |u| && IndexOf(u, '?') == |u|;
  }

  lemma HttpsScheme(rest: string)
    ensures AfterScheme("https://" + rest) == "//" + rest
  {
    var u := "https://" + rest;
    assert forall i :: 0 <= i < 8 ==> u[i] == "https://"[i];
    assert u[5] == ':' && forall i :: 0 <= i < 5 ==> u[i] != ':';
    assert IndexOf(u, ':') == 5;
    assert u[6..] == "//" + rest;
  }

  lemma NetlocEnd(host: string, tail: string)
    requires '/' !in host && |tail| > 0 && tail[0] == '/'
    ensures ("//" + host + tail)[..2] == "//" && ("//" + host + tail)[2..] == host + tail
    ensures IndexOf(host + tail, '/') == |host| && (host + tail)[|host|..] == tail
  {
    var s := host + tail;
    assert s[|host|] == '/';
    forall i | 0 <= i < |host| ensures s[i] != '/' {
      assert s[i] == host[i];
    }
    var k := IndexOf(s, '/');
    assert !(k < |host|);
    assert !(k > |host|);
    assert s[|host|..] == tail;
    assert "//" + host + tail == "//" + s;
  }

  /** The page `<page>.html` names the API `<page>`, with `-` turned into
      `_`. */
  lemma PageName(page: string)
    requires ';' !in page
    ensures SegmentName(page + ".html") == ReplaceChar(page, '-', '_')
  {
    var segment := page + ".html";
    assert ';' !in segment;
    assert IndexOf(segment, ';') == |segment|;
    assert segment[..|segment|] == segment;
    assert segment[|segment| - 5..] == ".html";
  }

  lemma UrlShape(host: string, dir: string, page: string)
    ensures "https://" + host + dir + "/" + page + ".html" == "https://" + (host + (dir + ['/'] + (page + ".html")))
  {
  }

  /** The path of `https://host<dir>/<page>.html`. */
  lemma DocUrlPath(host: string, dir: string, page: string)
    requires '/' !in host && '?' !in host && '#' !in host
    requires dir == "" || dir[0] == '/'
    requires '?' !in dir && '#' !in dir
    requires '?' !in page && '#' !in page
    ensures UrlPath("https://" + host + dir + "/" + page + ".html") == dir + ['/'] + (page + ".html")
  {
    var tail := dir + ['/'] + (page + ".html");
    UrlShape(host, dir, page);
    assert '?' !in tail && '#' !in tail;
    HttpsPath(host + tail, host, tail);
  }

  /** A documentation URL `https://host<dir>/<page>.html` names the API
      after the page, with `-` turned into `_`. */
  lemma ApiNameOf(host: string, dir: string, page: string)
    requires '/' !in host && '?' !in host && '#' !in host
    requires dir == "" || dir[0] == '/'
    requires '?' !in dir && '#' !in dir
    requires '/' !in page && '?' !in page && '#' !in page && ';' !in page
    ensures ApiName("https://" + host + dir + "/" + page + ".html") == ReplaceChar(page, '-', '_')
  {
    DocUrlPath(host, dir, page);
    NoSlashHtml(page);
    PathName(UrlPath("https://" + host + dir + "/" + page + ".html"), dir, page);
  }

  lemma NoSlashHtml(page: string)
    requires '/' !in page
    ensures '/' !in page + ".html"
  {
  }

  /** A path ending in `/<page>.html` names the API after the page. */
  lemma PathName(path: string, dir: string, page: string)
    requires path == dir + ['/'] + (page + ".html")
    requires '/' !in page + ".html" && ';' !in page
    ensures SegmentName(LastSegment(path)) == ReplaceChar(page, '-', '_')
  {
    SplitLast(dir, page + ".html", '/');
    PageName(page);
  }

  /** The entries of a path item that describe operations. */
  const HttpMethods: set<string> := {"get", "put", "post", "delete", "options", "head", "patch", "trace"}

  /** `.get("content", {}).get("application/json", {}).get("schema", None)`. */
  function JsonSchemaOf(j: Json): Result<Json, ResolveError> {
    match DictGet(j, "content", JObj([]), Malformed)
    case Err(e) => Err(e)
    case Ok(content) =>
      match DictGet(content, "application/json", JObj([]), Malformed)
      case Err(e) => Err(e)
      case Ok(media) => DictGet(media, "schema", JNull, Malformed)
  }

  /** The request body's schema. */
  function BodySchema(op: Json): Result<Json, ResolveError> {
    match DictGet(op, "requestBody", JObj([]), Malformed)
    case Err(e) => Err(e)
    case Ok(body) => JsonSchemaOf(body)
  }

  /** The schema of the response the return type comes from: the 200 one
      when it is not empty, else the default one. The YAML key `200` is an
      integer; here it is the key `"200"`. */
  function ReturnSchema(op: Json): Result<Json, ResolveError> {
    match DictGet(op, "responses", JObj([]), Malformed)
    case Err(e) => Err(e)
    case Ok(responses) =>
      match DictGet(responses, "200", JObj([]), Malformed)
      case Err(e) => Err(e)
      case Ok(ok) =>
        if Truthy(ok) then JsonSchemaOf(ok)
        else
          match DictGet(responses, "default", JObj([]), Malformed)
          case Err(e) => Err(e)
          case Ok(default) => JsonSchemaOf(default)
  }

  /** The return schema is the 200 response's when that one is not empty,
      and the default response's otherwise. */
  lemma ReturnFallback(op: Fields, responses: Fields)
    requires Get(op, "responses") == Some(JObj(responses))
    ensures var ok := Get(responses, "200");
            (ok.Some? && Truthy(ok.value) ==> ReturnSchema(JObj(op)) == JsonSchemaOf(ok.value))
            && (!(ok.Some? && Truthy(ok.value)) ==>
                  ReturnSchema(JObj(op)) == JsonSchemaOf(DictGet(JObj(responses), "default", JObj([]), Malformed).value))
  {
  }

  /** `operation.get("externalDocs", {}).get("url", None)`: the URL, or
      `None` when there is none. */
  function DocUrl(op: Json): Result<Option<string>, ResolveError> {
    match DictGet(op, "externalDocs", JObj([]), Malformed)
    case Err(e) => Err(e)
    case Ok(docs) =>
      match DictGet(docs, "url", JNull, Malformed)
      case Err(e) => Err(e)
      case Ok(JNull) => Ok(None)
      case Ok(JStr(u)) => Ok(Some(u))
      case Ok(_) => Err(Malformed)
  }

  /** The path item's parameters followed by the operation's. */
  function ParamList(common: Json, op: Json): (r: Result<seq<Json>, ResolveError>)
    ensures r.Ok? ==> common.JArr? && |common.items| <= |r.value| && r.value[..|common.items|] == common.items
  {
    match DictGet(op, "parameters", JArr([]), Malformed)
    case Err(e) => Err(e)
    case Ok(own) => if common.JArr? && own.JArr? then Ok(common.items + own.items) else Err(Malformed)
  }

  /** `_schema_to_model` when the schema is not empty, `None` otherwise. */
  function OptionalModel(env: Env, base: string, m: Schemas, schema: Json, loc: seq<string>, fuel: nat)
    : (r: (Result<Option<Type>, ResolveError>, Schemas))
    ensures !Truthy(schema) ==> r == (Ok(None), m)
    ensures Truthy(schema) ==> r.1 == ModelOf(env, base, m, schema, loc, fuel).1
  {
    if !Truthy(schema) then (Ok(None), m)
    else
      var s := ModelOf(env, base, m, schema, loc, fuel);
      (if s.0.Ok? then Ok(Some(s.0.value)) else Err(s.0.error), s.1)
  }

  /** One parameter of the API `apiName`: `Some((true, p))` for a path
      parameter, `Some((false, p))` for a query one, `None` for any other
      kind. A referenced parameter is resolved from the root document and
      its schema against the document it was found in. */
  function ParamOf(env: Env, rootUrl: string, base: string, m: Schemas, apiName: string, param: Json, fuel: nat)
    : (r: (Result<Option<(bool, Param)>, ResolveError>, Schemas))
  {
    if !param.JObj? then (Err(Malformed), m)
    else
      var hop :=
        match Get(param.fields, "$ref")
        case None => Ok((base, param))
        case Some(ref) => if ref.JStr? then Hop(env, rootUrl, ref.s) else Err(Malformed);
      if hop.Err? then (Err(hop.error), m)
      else
        var (pbase, p) := hop.value;
        if !p.JObj? || Get(p.fields, "in").None? then (Err(Malformed), m)
        else
          var kind := Get(p.fields, "in").value;
          if kind != JStr("path") && kind != JStr("query") then (Ok(None), m)
          else
            var name := Get(p.fields, "name");
            var required := Get(p.fields, "required");
            var schema := Get(p.fields, "schema");
            if name.None? || !name.value.JStr? || schema.None? || (required.Some? && !required.value.JBool?) then
              (Err(Malformed), m)
            else
              var s := ModelOf(env, pbase, m, schema.value, [apiName, name.value.s], fuel);
              if s.0.Err? then (Err(s.0.error), s.1)
              else (Ok(Some((kind == JStr("path"), Param(name.value.s, required.Some? && required.value.b, s.0.value)))), s.1)
  }

  /** The loop over the parameters from the `k`-th on, appending each to
      the path or the query list. */
  function ParamsFrom(env: Env, rootUrl: string, base: string, m: Schemas, apiName: string, params: seq<Json>,
                      fuel: nat, k: nat, paths: seq<Param>, queries: seq<Param>)
    : (r: (Result<(seq<Param>, seq<Param>), ResolveError>, Schemas))
    requires k <= |params|
    ensures r.0.Ok? ==> |r.0.value.0| + |r.0.value.1| <= |paths| + |queries| + |params| - k
    decreases |params| - k
  {
    if k == |params| then (Ok((paths, queries)), m)
    else
      var p := ParamOf(env, rootUrl, base, m, apiName, params[k], fuel);
      match p.0
      case Err(e) => (Err(e), p.1)
      case Ok(None) => ParamsFrom(env, rootUrl, base, p.1, apiName, params, fuel, k + 1, paths, queries)
      case Ok(Some(q)) =>
        if q.0 then ParamsFrom(env, rootUrl, base, p.1, apiName, params, fuel, k + 1, paths + [q.1], queries)
        else ParamsFrom(env, rootUrl, base, p.1, apiName, params, fuel, k + 1, paths, queries + [q.1])
  }

  /** The name of a parameter declared `in` the given place, or nothing. */
  function NameIn(p: Json, place: string): seq<string> {
    if p.JObj? && Get(p.fields, "in") == Some(JStr(place)) && Get(p.fields, "name").Some?
       && Get(p.fields, "name").value.JStr?
    then [Get(p.fields, "name").value.s] else []
  }

  /** The names of the parameters declared `in` the given place, in
      order. */
  function InNames(params: seq<Json>, place: string): seq<string>
    decreases |params|
  {
    if params == [] then [] else NameIn(params[0], place) + InNames(params[1..], place)
  }

  function Names(ps: seq<Param>): (r: seq<string>)
    ensures |r| == |ps| && forall i :: 0 <= i < |ps| ==> r[i] == ps[i].name
  {
    seq(|ps|, i requires 0 <= i < |ps| => ps[i].name)
  }

  /** A parameter given in place lands in the list its `in` names, under
      its own name, or nowhere when `in` names another place. */
  lemma ParamOfPlain(env: Env, rootUrl: string, base: string, m: Schemas, apiName: string, param: Json, fuel: nat)
    requires param.JObj? && Get(param.fields, "$ref").None?
    requires ParamOf(env, rootUrl, base, m, apiName, param, fuel).0.Ok?
    ensures var r := ParamOf(env, rootUrl, base, m, apiName, param, fuel).0.value;
            var place := Get(param.fields, "in");
            (r.None? ==> place.Some? && place.value != JStr("path") && place.value != JStr("query"))
            && (r.Some? ==> place == Some(JStr(if r.value.0 then "path" else "query"))
                            && Get(param.fields, "name") == Some(JStr(r.value.1.name)))
  {
  }

  /** One turn of the parameter loop. */
  lemma ParamsStep(env: Env, rootUrl: string, base: string, m: Schemas, apiName: string,
                   params: seq<Json>, fuel: nat, k: nat, paths: seq<Param>, queries: seq<Param>)
    requires k < |params|
    requires ParamsFrom(env, rootUrl, base, m, apiName, params, fuel, k, paths, queries).0.Ok?
    ensures var p := ParamOf(env, rootUrl, base, m, apiName, params[k], fuel);
            p.0.Ok?
            && ParamsFrom(env, rootUrl, base, m, apiName, params, fuel, k, paths, queries)
               == ParamsFrom(env, rootUrl, base, p.1, apiName, params, fuel, k + 1,
                             if p.0.value.Some? && p.0.value.value.0 then paths + [p.0.value.value.1] else paths,
                             if p.0.value.Some? && !p.0.value.value.0 then queries + [p.0.value.value.1] else queries)
  {
  }

  /** Parameters given in place are partitioned: the path list holds the
      `in: path` ones and the query list the `in: query` ones, each in
      order, and every other kind is dropped. */
  lemma {:induction false} Partition(env: Env, rootUrl: string, base: string, m: Schemas, apiName: string,
                                     params: seq<Json>, fuel: nat, k: nat, paths: seq<Param>, queries: seq<Param>)
    requires k <= |params|
    requires forall i :: k <= i < |params| ==> params[i].JObj? && Get(params[i].fields, "$ref").None?
    requires ParamsFrom(env, rootUrl, base, m, apiName, params, fuel, k, paths, queries).0.Ok?
    ensures var r := ParamsFrom(env, rootUrl, base, m, apiName, params, fuel, k, paths, queries).0.value;
            Names(r.0) == Names(paths) + InNames(params[k..], "path")
            && Names(r.1) == Names(queries) + InNames(params[k..], "query")
    decreases |params| - k
  {
    if k == |params| {
      assert params[k..] == [];
    } else {
      var p := ParamOf(env, rootUrl, base, m, apiName, params[k], fuel);
      ParamsStep(env, rootUrl, base, m, apiName, params, fuel, k, paths, queries);
      var r := p.0.value;
      var paths' := if r.Some? && r.value.0 then paths + [r.value.1] else paths;
      var queries' := if r.Some? && !r.value.0 then queries + [r.value.1] else queries;
      Partition(env, rootUrl, base, p.1, apiName, params, fuel, k + 1, paths', queries');
      PartitionStep(env, rootUrl, base, m, apiName, params[k], fuel, paths, queries);
      InNamesStep(params, k, "path");
      InNamesStep(params, k, "query");
      var res := ParamsFrom(env, rootUrl, base, m, apiName, params, fuel, k, paths, queries).0.value;
      assert res == ParamsFrom(env, rootUrl, base, p.1, apiName, params, fuel, k + 1, paths', queries').0.value;
      Assoc(Names(paths), NameIn(params[k], "path"), InNames(params[k + 1..], "path"));
      Assoc(Names(queries), NameIn(params[k], "query"), InNames(params[k + 1..], "query"));
    }
  }

  lemma Assoc(a: seq<string>, b: seq<string>, c: seq<string>)
    ensures a + b + c == a + (b + c)
  {
  }

  lemma InNamesStep(params: seq<Json>, k: nat, place: string)
    requires k < |params|
    ensures InNames(params[k..], place) == NameIn(params[k], place) + InNames(params[k + 1..], place)
  {
    assert params[k..][0] == params[k] && params[k..][1..] == params[k + 1..];
  }

  /** One parameter given in place adds its name to the list of its
      place. */
  lemma PartitionStep(env: Env, rootUrl: string, base: string, m: Schemas, apiName: string, param: Json, fuel: nat,
                      paths: seq<Param>, queries: seq<Param>)
    requires param.JObj? && Get(param.fields, "$ref").None?
    requires ParamOf(env, rootUrl, base, m, apiName, param, fuel).0.Ok?
    ensures var r := ParamOf(env, rootUrl, base, m, apiName, param, fuel).0.value;
            Names(if r.Some? && r.value.0 then paths + [r.value.1] else paths) == Names(paths) + NameIn(param, "path")
            && Names(if r.Some? && !r.value.0 then queries + [r.value.1] else queries)
               == Names(queries) + NameIn(param, "query")
  {
    ParamOfPlain(env, rootUrl, base, m, apiName, param, fuel);
    var r := ParamOf(env, rootUrl, base, m, apiName, param, fuel).0.value;
    if r.Some? {
      NamesSnoc(paths, r.value.1);
      NamesSnoc(queries, r.value.1);
    }
  }

  lemma NamesSnoc(ps: seq<Param>, q: Param)
    ensures Names(ps + [q]) == Names(ps) + [q.name]
  {
  }

  /** One entry of a path item. Only the HTTP methods describe operations;
      an operation without a documentation URL is skipped. The API is
      named after that URL, its parameters are partitioned, and its body
      and return type are converted where their schemas are not empty. */
  function ApiOf(env: Env, rootUrl: string, base: string, m: Schemas, path: string, verb: string, op: Json,
                 common: Json, fuel: nat)
    : (r: (Result<Option<Api>, ResolveError>, Schemas))
    ensures verb !in HttpMethods ==> r == (Ok(None), m)
    ensures verb in HttpMethods && DocUrl(op) == Ok(None) ==> r == (Ok(None), m)
    ensures r.0.Ok? && r.0.value.Some? ==>
              DocUrl(op).Ok? && DocUrl(op).value.Some?
              && r.0.value.value.name == ApiName(DocUrl(op).value.value)
              && r.0.value.value.verb == verb && r.0.value.value.path == path
  {
    if verb !in HttpMethods then (Ok(None), m)
    else
      match DocUrl(op)
      case Err(e) => (Err(e), m)
      case Ok(None) => (Ok(None), m)
      case Ok(Some(url)) =>
        match ParamList(common, op)
        case Err(e) => (Err(e), m)
        case Ok(params) =>
          var name := ApiName(url);
          var ps := ParamsFrom(env, rootUrl, base, m, name, params, fuel, 0, [], []);
          if ps.0.Err? then (Err(ps.0.error), ps.1)
          else Finish(env, base, ps.1, path, verb, op, name, ps.0.value.0, ps.0.value.1, fuel)
  }

  /** The rest of an operation once its parameters are in: the body, then
      the return type. */
  function Finish(env: Env, base: string, m: Schemas, path: string, verb: string, op: Json, name: string,
                  pathParams: seq<Param>, queryParams: seq<Param>, fuel: nat)
    : (r: (Result<Option<Api>, ResolveError>, Schemas))
    ensures r.0.Ok? ==> r.0.value.Some? && r.0.value.value.name == name && r.0.value.value.verb == verb
                        && r.0.value.value.path == path
                        && r.0.value.value.pathParams == pathParams && r.0.value.value.queryParams == queryParams
  {
    match BodySchema(op)
    case Err(e) => (Err(e), m)
    case Ok(bodySchema) =>
      var body := OptionalModel(env, base, m, bodySchema, [name, "body"], fuel);
      if body.0.Err? then (Err(body.0.error), body.1)
      else
        match ReturnSchema(op)
        case Err(e) => (Err(e), body.1)
        case Ok(returnSchema) =>
          var ret := OptionalModel(env, base, body.1, returnSchema, [name, "return"], fuel);
          if ret.0.Err? then (Err(ret.0.error), ret.1)
          else (Ok(Some(Api(name, verb, path, pathParams, queryParams, body.0.value, ret.0.value))), ret.1)
  }

  /** The loop over a path item's entries from the `k`-th on. */
  function OpsFrom(env: Env, rootUrl: string, base: string, m: Schemas, path: string, item: Fields, common: Json,
                   fuel: nat, k: nat, acc: seq<Api>)
    : (r: (Result<seq<Api>, ResolveError>, Schemas))
    requires k <= |item|
    decreases |item| - k
  {
    if k == |item| then (Ok(acc), m)
    else
      var a := ApiOf(env, rootUrl, base, m, path, item[k].0, item[k].1, common, fuel);
      match a.0
      case Err(e) => (Err(e), a.1)
      case Ok(None) => OpsFrom(env, rootUrl, base, a.1, path, item, common, fuel, k + 1, acc)
      case Ok(Some(api)) => OpsFrom(env, rootUrl, base, a.1, path, item, common, fuel, k + 1, acc + [api])
  }

  /** The APIs of one path item. A referenced item is resolved from the
      root document, and the schemas in it against the document it was
      found in. */
  function PathItemApis(env: Env, rootUrl: string, m: Schemas, path: string, item: Json, fuel: nat)
    : (r: (Result<seq<Api>, ResolveError>, Schemas))
  {
    if !item.JObj? then (Err(Malformed), m)
    else
      var hop :=
        match Get(item.fields, "$ref")
        case None => Ok((rootUrl, item))
        case Some(ref) => if ref.JStr? then Hop(env, rootUrl, ref.s) else Err(Malformed);
      if hop.Err? then (Err(hop.error), m)
      else
        var (base, it) := hop.value;
        if !it.JObj? then (Err(Malformed), m)
        else
          var common := match Get(it.fields, "parameters") case Some(c) => c case None => JArr([]);
          OpsFrom(env, rootUrl, base, m, path, it.fields, common, fuel, 0, [])
  }

  /** The loop over `paths` from the `k`-th entry on. */
  function PathsFrom(env: Env, rootUrl: string, m: Schemas, paths: Fields, fuel: nat, k: nat, acc: seq<Api>)
    : (r: (Result<seq<Api>, ResolveError>, Schemas))
    requires k <= |paths|
    decreases |paths| - k
  {
    if k == |paths| then (Ok(acc), m)
    else
      var p := PathItemApis(env, rootUrl, m, paths[k].0, paths[k].1, fuel);
      match p.0
      case Err(e) => (Err(e), p.1)
      case Ok(apis) => PathsFrom(env, rootUrl, p.1, paths, fuel, k + 1, acc + apis)
  }

  /** The loop over `components.schemas` from the `k`-th entry on, each
      converted at the location of its own name; `None` when all
      convert. */
  function ComponentsFrom(env: Env, rootUrl: string, m: Schemas, schemas: Fields, fuel: nat, k: nat)
    : (r: (Option<ResolveError>, Schemas))
    requires k <= |schemas|
    decreases |schemas| - k
  {
    if k == |schemas| then (None, m)
    else
      var s := ModelOf(env, rootUrl, m, schemas[k].1, [schemas[k].0], fuel);
      if s.0.Err? then (Some(s.0.error), s.1)
      else ComponentsFrom(env, rootUrl, s.1, schemas, fuel, k + 1)
  }

  /** `parse(source)`: the component schemas are converted first, then the
      APIs of every path are collected in order. Empty or missing `paths`
      give no APIs. */
  function ParseSpec(env: Env, root: Source, m: Schemas, fuel: nat): (r: (Result<seq<Api>, ResolveError>, Schemas))
    ensures !root.data.JObj? ==> r == (Err(Malformed), m)
    ensures root.data.JObj? && !HasKey(root.data.fields, "components") && !HasKey(root.data.fields, "paths") ==> r == (Ok([]), m)
  {
    match DictGet(root.data, "components", JObj([]), Malformed)
    case Err(e) => (Err(e), m)
    case Ok(components) =>
      match DictGet(components, "schemas", JObj([]), Malformed)
      case Err(e) => (Err(e), m)
      case Ok(schemas) =>
        if !schemas.JObj? then (Err(Malformed), m)
        else
          var c := ComponentsFrom(env, root.url, m, schemas.fields, fuel, 0);
          if c.0.Some? then (Err(c.0.value), c.1)
          else
            var paths := DictGet(root.data, "paths", JObj([]), Malformed).value;
            var paths := if Truthy(paths) then paths else JObj([]);
            if !paths.JObj? then (Err(Malformed), c.1)
            else PathsFrom(env, root.url, c.1, paths.fields, fuel, 0, [])
  }

  /** Every API comes from an HTTP-method entry of its path item and
      carries that path. */
  lemma {:induction false} OpsFromApis(env: Env, rootUrl: string, base: string, m: Schemas, path: string, item: Fields,
                                       common: Json, fuel: nat, k: nat, acc: seq<Api>)
    requires k <= |item|
    requires forall a :: a in acc ==> a.verb in HttpMethods && HasKey(item, a.verb) && a.path == path
    ensures var r := OpsFrom(env, rootUrl, base, m, path, item, common, fuel, k, acc);
            r.0.Ok? ==> forall a :: a in r.0.value ==> a.verb in HttpMethods && HasKey(item, a.verb) && a.path == path
    decreases |item| - k
  {
    if k < |item| {
      var a := ApiOf(env, rootUrl, base, m, path, item[k].0, item[k].1, common, fuel);
      if a.0.Ok? {
        if a.0.value.None? {
          OpsFromApis(env, rootUrl, base, a.1, path, item, common, fuel, k + 1, acc);
        } else {
          var api := a.0.value.value;
          assert HasKey(item, api.verb) by {
            assert item[k].0 == api.verb;
          }
          OpsFromApis(env, rootUrl, base, a.1, path, item, common, fuel, k + 1, acc + [api]);
        }
      }
    }
  }

  lemma {:induction false} PathsFromApis(env: Env, rootUrl: string, m: Schemas, paths: Fields, fuel: nat, k: nat,
                                         acc: seq<Api>)
    requires k <= |paths|
    requires forall a :: a in acc ==> a.verb in HttpMethods && HasKey(paths, a.path)
    ensures var r := PathsFrom(env, rootUrl, m, paths, fuel, k, acc);
            r.0.Ok? ==> forall a :: a in r.0.value ==> a.verb in HttpMethods && HasKey(paths, a.path)
    decreases |paths| - k
  {
    if k < |paths| {
      var (path, item) := paths[k];
      var p := PathItemApis(env, rootUrl, m, path, item, fuel);
      if p.0.Ok? {
        var hop :=
          match Get(item.fields, "$ref")
          case None => Ok((rootUrl, item))
          case Some(ref) => if ref.JStr? then Hop(env, rootUrl, ref.s) else Err(Malformed);
        var (base, it) := hop.value;
        var common := match Get(it.fields, "parameters") case Some(c) => c case None => JArr([]);
        OpsFromApis(env, rootUrl, base, m, path, it.fields, common, fuel, 0, []);
        assert forall a :: a in p.0.value ==> a.path == path;
        assert HasKey(paths, path) by {
          assert paths[k].0 == path;
        }
        PathsFromApis(env, rootUrl, p.1, paths, fuel, k + 1, acc + p.0.value);
      }
    }
  }

  /** Only HTTP-method entries become APIs, and each API's path is one of
      the document's paths. */
  lemma ParseApis(env: Env, root: Source, m: Schemas, fuel: nat)
    requires ParseSpec(env, root, m, fuel).0.Ok?
    ensures var paths := DictGet(root.data, "paths", JObj([]), Malformed).value;
            forall a :: a in ParseSpec(env, root, m, fuel).0.value ==>
              a.verb in HttpMethods && paths.JObj? && HasKey(paths.fields, a.path)
  {
    var components := DictGet(root.data, "components", JObj([]), Malformed).value;
    var schemas := DictGet(components, "schemas", JObj([]), Malformed).value;
    var c := ComponentsFrom(env, root.url, m, schemas.fields, fuel, 0);
    var paths := DictGet(root.data, "paths", JObj([]), Malformed).value;
    var paths' := if Truthy(paths) then paths else JObj([]);
    PathsFromApis(env, root.url, c.1, paths'.fields, fuel, 0, []);
    if !Truthy(paths) {
      assert PathsFrom(env, root.url, c.1, [], fuel, 0, []).0 == Ok([]);
    }
  }

  /** `_schema_to_model` against the current source; `obj_schemas` is
      `reg`. */
  method SchemaToModel(res: Resolver, reg: Registry, schema: Json, loc: seq<string>, fuel: nat)
    returns (r: Result<Type, ResolveError>)
    modifies res, res.sources, reg
    requires res.Coherent()
    ensures res.Coherent() && res.current == old(res.current)
    ensures r == ModelOf(res.env, old(res.current), old(reg.objSchemas), schema, loc, fuel).0
    ensures reg.objSchemas == ModelOf(res.env, old(res.current), old(reg.objSchemas), schema, loc, fuel).1
  {
    var s := res.Resolve(schema, loc, fuel);
    if s.Err? {
      return Err(s.error);
    }
    var c := Convert(reg.objSchemas, s.value);
    reg.objSchemas := c.1;
    if c.0.None? {
      return Err(Malformed);
    }
    r := Ok(c.0.value);
    if r.value.Object? {
      reg.objSchemas := Put(reg.objSchemas, r.value.name, r.value);
    }
  }

  /** One turn of the parameter loop: a referenced parameter is looked up
      from the root document, and the current source is the document it
      came from until the parameter is done. */
  method ParseParam(res: Resolver, reg: Registry, rootUrl: string, apiName: string, param: Json, fuel: nat)
    returns (r: Result<Option<(bool, Param)>, ResolveError>)
    modifies res, res.sources, reg
    requires res.Coherent()
    ensures res.Coherent() && res.current == old(res.current)
    ensures r == ParamOf(res.env, rootUrl, old(res.current), old(reg.objSchemas), apiName, param, fuel).0
    ensures reg.objSchemas == ParamOf(res.env, rootUrl, old(res.current), old(reg.objSchemas), apiName, param, fuel).1
  {
    var base := res.current;
    if !param.JObj? {
      return Err(Malformed);
    }
    var pbase, p := base, param;
    var ref := Get(param.fields, "$ref");
    if ref.Some? {
      if !ref.value.JStr? {
        return Err(Malformed);
      }
      var h := res.Load(rootUrl, ref.value.s);
      if h.Err? {
        return Err(h.error);
      }
      pbase, p := h.value.0, h.value.1;
    }
    if !p.JObj? || Get(p.fields, "in").None? {
      return Err(Malformed);
    }
    var kind := Get(p.fields, "in").value;
    if kind != JStr("path") && kind != JStr("query") {
      return Ok(None);
    }
    var name := Get(p.fields, "name");
    var required := Get(p.fields, "required");
    var schema := Get(p.fields, "schema");
    if name.None? || !name.value.JStr? || schema.None? || (required.Some? && !required.value.JBool?) {
      return Err(Malformed);
    }
    res.current := pbase;
    var t := SchemaToModel(res, reg, schema.value, [apiName, name.value.s], fuel);
    res.current := base;
    if t.Err? {
      return Err(t.error);
    }
    r := Ok(Some((kind == JStr("path"), Param(name.value.s, required.Some? && required.value.b, t.value))));
  }

  /** `_schema_to_model` when the schema is not empty. */
  method ParseOptional(res: Resolver, reg: Registry, schema: Json, loc: seq<string>, fuel: nat)
    returns (r: Result<Option<Type>, ResolveError>)
    modifies res, res.sources, reg
    requires res.Coherent()
    ensures res.Coherent() && res.current == old(res.current)
    ensures r == OptionalModel(res.env, old(res.current), old(reg.objSchemas), schema, loc, fuel).0
    ensures reg.objSchemas == OptionalModel(res.env, old(res.current), old(reg.objSchemas), schema, loc, fuel).1
  {
    if !Truthy(schema) {
      return Ok(None);
    }
    var t := SchemaToModel(res, reg, schema, loc, fuel);
    r := if t.Ok? then Ok(Some(t.value)) else Err(t.error);
  }

  /** The loop over an operation's parameters. */
  method ParseParams(res: Resolver, reg: Registry, rootUrl: string, name: string, params: seq<Json>, fuel: nat)
    returns (r: Result<(seq<Param>, seq<Param>), ResolveError>)
    modifies res, res.sources, reg
    requires res.Coherent()
    ensures res.Coherent() && res.current == old(res.current)
    ensures r == ParamsFrom(res.env, rootUrl, old(res.current), old(reg.objSchemas), name, params, fuel, 0, [], []).0
    ensures reg.objSchemas == ParamsFrom(res.env, rootUrl, old(res.current), old(reg.objSchemas), name, params, fuel, 0, [], []).1
  {
    var base := res.current;
    var paths, queries := [], [];
    for i := 0 to |params|
      invariant res.Coherent() && res.current == base
      invariant ParamsFrom(res.env, rootUrl, base, reg.objSchemas, name, params, fuel, i, paths, queries)
             == ParamsFrom(res.env, rootUrl, base, old(reg.objSchemas), name, params, fuel, 0, [], [])
    {
      var q := ParseParam(res, reg, rootUrl, name, params[i], fuel);
      if q.Err? {
        return Err(q.error);
      }
      if q.value.Some? {
        if q.value.value.0 {
          paths := paths + [q.value.value.1];
        } else {
          queries := queries + [q.value.value.1];
        }
      }
    }
    r := Ok((paths, queries));
  }

  /** The body and the return type of an operation. */
  method FinishApi(res: Resolver, reg: Registry, path: string, verb: string, op: Json, name: string,
                   pathParams: seq<Param>, queryParams: seq<Param>, fuel: nat)
    returns (r: Result<Option<Api>, ResolveError>)
    modifies res, res.sources, reg
    requires res.Coherent()
    ensures res.Coherent() && res.current == old(res.current)
    ensures r == Finish(res.env, old(res.current), old(reg.objSchemas), path, verb, op, name, pathParams, queryParams, fuel).0
    ensures reg.objSchemas == Finish(res.env, old(res.current), old(reg.objSchemas), path, verb, op, name, pathParams, queryParams, fuel).1
  {
    var bodySchema := BodySchema(op);
    if bodySchema.Err? {
      return Err(bodySchema.error);
    }
    var body := ParseOptional(res, reg, bodySchema.value, [name, "body"], fuel);
    if body.Err? {
      return Err(body.error);
    }
    var returnSchema := ReturnSchema(op);
    if returnSchema.Err? {
      return Err(returnSchema.error);
    }
    var ret := ParseOptional(res, reg, returnSchema.value, [name, "return"], fuel);
    if ret.Err? {
      return Err(ret.error);
    }
    r := Ok(Some(Api(name, verb, path, pathParams, queryParams, body.value, ret.value)));
  }

  /** One entry of a path item, as the body of `parse`'s loop over it. */
  method ParseOperation(res: Resolver, reg: Registry, rootUrl: string, path: string, verb: string, op: Json,
                        common: Json, fuel: nat)
    returns (r: Result<Option<Api>, ResolveError>)
    modifies res, res.sources, reg
    requires res.Coherent()
    ensures res.Coherent() && res.current == old(res.current)
    ensures r == ApiOf(res.env, rootUrl, old(res.current), old(reg.objSchemas), path, verb, op, common, fuel).0
    ensures reg.objSchemas == ApiOf(res.env, rootUrl, old(res.current), old(reg.objSchemas), path, verb, op, common, fuel).1
  {
    if verb !in HttpMethods {
      return Ok(None);
    }
    var doc := DocUrl(op);
    if doc.Err? {
      return Err(doc.error);
    }
    if doc.value.None? {
      return Ok(None);
    }
    var params := ParamList(common, op);
    if params.Err? {
      return Err(params.error);
    }
    var name := ApiName(doc.value.value);
    var ps := ParseParams(res, reg, rootUrl, name, params.value, fuel);
    if ps.Err? {
      return Err(ps.error);
    }
    r := FinishApi(res, reg, path, verb, op, name, ps.value.0, ps.value.1, fuel);
  }

  /** The loop over the entries of a path item, with the document the
      item came from current. */
  method ParseOps(res: Resolver, reg: Registry, rootUrl: string, path: string, item: Fields, common: Json, fuel: nat)
    returns (r: Result<seq<Api>, ResolveError>)
    modifies res, res.sources, reg
    requires res.Coherent()
    ensures res.Coherent() && res.current == old(res.current)
    ensures r == OpsFrom(res.env, rootUrl, old(res.current), old(reg.objSchemas), path, item, common, fuel, 0, []).0
    ensures reg.objSchemas == OpsFrom(res.env, rootUrl, old(res.current), old(reg.objSchemas), path, item, common, fuel, 0, []).1
  {
    var base := res.current;
    var apis := [];
    for i := 0 to |item|
      invariant res.Coherent() && res.current == base
      invariant OpsFrom(res.env, rootUrl, base, reg.objSchemas, path, item, common, fuel, i, apis)
             == OpsFrom(res.env, rootUrl, base, old(reg.objSchemas), path, item, common, fuel, 0, [])
    {
      var a := ParseOperation(res, reg, rootUrl, path, item[i].0, item[i].1, common, fuel);
      if a.Err? {
        return Err(a.error);
      }
      if a.value.Some? {
        apis := apis + [a.value.value];
      }
    }
    r := Ok(apis);
  }

  /** One path item: a referenced item is looked up from the root
      document, which is current otherwise, and the document it came from
      is current until the item is done. */
  method ParsePathItem(res: Resolver, reg: Registry, path: string, item: Json, fuel: nat)
    returns (r: Result<seq<Api>, ResolveError>)
    modifies res, res.sources, reg
    requires res.Coherent()
    ensures res.Coherent() && res.current == old(res.current)
    ensures r == PathItemApis(res.env, old(res.current), old(reg.objSchemas), path, item, fuel).0
    ensures reg.objSchemas == PathItemApis(res.env, old(res.current), old(reg.objSchemas), path, item, fuel).1
  {
    var rootUrl := res.current;
    if !item.JObj? {
      return Err(Malformed);
    }
    var base, it := rootUrl, item;
    var ref := Get(item.fields, "$ref");
    if ref.Some? {
      if !ref.value.JStr? {
        return Err(Malformed);
      }
      var h := res.Load(rootUrl, ref.value.s);
      if h.Err? {
        return Err(h.error);
      }
      base, it := h.value.0, h.value.1;
    }
    if !it.JObj? {
      return Err(Malformed);
    }
    var common := match Get(it.fields, "parameters") case Some(c) => c case None => JArr([]);
    res.current := base;
    r := ParseOps(res, reg, rootUrl, path, it.fields, common, fuel);
    res.current := rootUrl;
  }

  /** The loop over `components.schemas`. */
  method ParseComponents(res: Resolver, reg: Registry, schemas: Fields, fuel: nat) returns (r: Option<ResolveError>)
    modifies res, res.sources, reg
    requires res.Coherent()
    ensures res.Coherent() && res.current == old(res.current)
    ensures r == ComponentsFrom(res.env, old(res.current), old(reg.objSchemas), schemas, fuel, 0).0
    ensures reg.objSchemas == ComponentsFrom(res.env, old(res.current), old(reg.objSchemas), schemas, fuel, 0).1
  {
    var base := res.current;
    for i := 0 to |schemas|
      invariant res.Coherent() && res.current == base
      invariant ComponentsFrom(res.env, base, reg.objSchemas, schemas, fuel, i)
             == ComponentsFrom(res.env, base, old(reg.objSchemas), schemas, fuel, 0)
    {
      var t := SchemaToModel(res, reg, schemas[i].1, [schemas[i].0], fuel);
      if t.Err? {
        return Some(t.error);
      }
    }
    r := None;
  }

  /** The loop over `paths`. */
  method ParsePaths(res: Resolver, reg: Registry, paths: Fields, fuel: nat) returns (r: Result<seq<Api>, ResolveError>)
    modifies res, res.sources, reg
    requires res.Coherent()
    ensures res.Coherent() && res.current == old(res.current)
    ensures r == PathsFrom(res.env, old(res.current), old(reg.objSchemas), paths, fuel, 0, []).0
    ensures reg.objSchemas == PathsFrom(res.env, old(res.current), old(reg.objSchemas), paths, fuel, 0, []).1
  {
    var base := res.current;
    var apis := [];
    for i := 0 to |paths|
      invariant res.Coherent() && res.current == base
      invariant PathsFrom(res.env, base, reg.objSchemas, paths, fuel, i, apis)
             == PathsFrom(res.env, base, old(reg.objSchemas), paths, fuel, 0, [])
    {
      var more := ParsePathItem(res, reg, paths[i].0, paths[i].1, fuel);
      if more.Err? {
        return Err(more.error);
      }
      apis := apis + more.value;
    }
    r := Ok(apis);
  }

  /** `parse(source)`: the source becomes the current one, the component
      schemas are converted and the paths read in order. */
  method Parse(res: Resolver, reg: Registry, root: Source, fuel: nat) returns (r: Result<seq<Api>, ResolveError>)
    modifies res, res.sources, reg
    requires res.Coherent()
    ensures res.Coherent() && res.current == root.url
    ensures r == ParseSpec(res.env, root, old(reg.objSchemas), fuel).0
    ensures reg.objSchemas == ParseSpec(res.env, root, old(reg.objSchemas), fuel).1
  {
    res.current := root.url;
    var components := DictGet(root.data, "components", JObj([]), Malformed);
    if components.Err? {
      return Err(components.error);
    }
    var schemas := DictGet(components.value, "schemas", JObj([]), Malformed);
    if schemas.Err? {
      return Err(schemas.error);
    }
    if !schemas.value.JObj? {
      return Err(Malformed);
    }
    var failed := ParseComponents(res, reg, schemas.value.fields, fuel);
    if failed.Some? {
      return Err(failed.value);
    }
    var paths := DictGet(root.data, "paths", JObj([]), Malformed).value;
    if !Truthy(paths) {
      paths := JObj([]);
    }
    if !paths.JObj? {
      return Err(Malformed);
    }
    r := ParsePaths(res, reg, paths.fields, fuel);
  }
}
