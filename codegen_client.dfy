/** The API client stub generator (`codegen/gen_api_client.py`): the
    annotation each OpenAPI schema renders as, the model classes written
    for inline object schemas, and one `async def` signature per
    documented operation. */
module CodegenClient {
  import opened Wrappers
  import opened PyStr
  import opened Json
  import opened CodegenResolve
  import opened CodegenParse

  /** Why generation stops: a value of the wrong shape or a missing key
      (a KeyError, TypeError or AttributeError in Python), or a schema
      type that has no annotation. */
  datatype GenError = Shape | UnknownType(t: Json)

  /** `TYPES_MAP`; `number` becomes `int`, not `float`. */
  const TypesMap: map<string, string> := map["string" := "str", "integer" := "int", "boolean" := "bool", "number" := "int"]

  predicate IsSubstring(x: string, s: string) {
    exists i :: 0 <= i <= |s| && StartsWith(s[i..], x)
  }

  /** Python's `x in container` for a string `x`: an element of a list, a
      key of a dict, a substring of a string; `None` is the TypeError
      other values raise. */
  function Contains(container: Json, x: string): Option<bool> {
    match container
    case JArr(items) => Some(JStr(x) in items)
    case JObj(fields) => Some(HasKey(fields, x))
    case JStr(s) => Some(IsSubstring(x, s))
    case _ => None
  }

  // Indentation

  /** `textwrap.indent(text, prefix)`: `prefix` goes in front of every line
      that is not blank; a line ends after its `\n`. */
  function Indent(text: string, prefix: string): string
    decreases |text|
  {
    if text == [] then []
    else
      var k := IndexOf(text, '\n');
      var n := if k < |text| then k + 1 else k;
      IndentedLine(text[..n], prefix) + Indent(text[n..], prefix)
  }

  /** One line under `textwrap.indent`: a blank line stays as it is. */
  function IndentedLine(line: string, prefix: string): string {
    if IsBlank(line) then line else prefix + line
  }

  lemma LineEnd(line: string, rest: string)
    requires '\n' !in line
    ensures IndexOf(line + "\n" + rest, '\n') == |line|
  {
    var s := line + "\n" + rest;
    assert s[|line|] == '\n';
  }

  /** A trailing `\n` does not change whether a line is blank. */
  lemma BlankNewline(line: string)
    ensures IsBlank(line + "\n") <==> IsBlank(line)
  {
    var l := line + "\n";
    assert IsSpace(l[|line|]);
    if IsBlank(line) {
      forall i | 0 <= i < |l| ensures IsSpace(l[i]) {
        if i < |line| {
          assert l[i] == line[i];
        }
      }
    }
    if IsBlank(l) {
      forall i | 0 <= i < |line| ensures IsSpace(line[i]) {
        assert l[i] == line[i];
      }
    }
  }

  /** A line ended by `\n` gets the prefix unless it is blank, and the
      text after it is indented on its own. */
  lemma IndentLine(line: string, rest: string, prefix: string)
    requires '\n' !in line
    ensures Indent(line + "\n" + rest, prefix)
            == (if IsBlank(line) then "" else prefix) + line + "\n" + Indent(rest, prefix)
  {
    var s := line + "\n" + rest;
    LineEnd(line, rest);
    var n := |line| + 1;
    assert s[..n] == line + "\n";
    assert s[n..] == rest;
    IndentHead(s, prefix);
    IndentedNewline(line, prefix);
  }

  /** A line ended by `\n` gets the prefix unless it is blank. */
  lemma IndentedNewline(line: string, prefix: string)
    ensures IndentedLine(line + "\n", prefix) == (if IsBlank(line) then "" else prefix) + line + "\n"
  {
    BlankNewline(line);
    if IsBlank(line) {
      assert "" + line + "\n" == line + "\n";
    } else {
      assert prefix + line + "\n" == prefix + (line + "\n");
    }
  }

  /** A last line without `\n` gets the prefix unless it is blank. */
  lemma IndentLast(line: string, prefix: string)
    requires '\n' !in line && line != []
    ensures Indent(line, prefix) == (if IsBlank(line) then "" else prefix) + line
  {
    assert line[..|line|] == line;
    assert line[|line|..] == [];
  }

  /** A text that starts with a non-blank `lead` holding no newline comes
      out starting with the prefix and `lead`. */
  lemma IndentStart(text: string, lead: string, prefix: string)
    requires StartsWith(text, lead) && '\n' !in lead && !IsBlank(lead)
    ensures StartsWith(Indent(text, prefix), prefix + lead)
  {
    var k := IndexOf(text, '\n');
    var n := if k < |text| then k + 1 else k;
    assert n >= |lead| && StartsWith(text[..n], lead) by {
      assert forall i :: 0 <= i < |lead| ==> text[i] == text[..|lead|][i];
    }
    assert !IsBlank(text[..n]) by {
      var i :| 0 <= i < |lead| && !IsSpace(lead[i]);
      assert text[..n][i] == lead[i];
    }
    IndentHead(text, prefix);
    StartsWithConcat(prefix, text[..n], lead, Indent(text[n..], prefix));
  }

  /** The first line of a text, indented, and the rest indented after it. */
  lemma IndentHead(text: string, prefix: string)
    requires text != []
    ensures var k := IndexOf(text, '\n');
            var n := if k < |text| then k + 1 else k;
            Indent(text, prefix) == IndentedLine(text[..n], prefix) + Indent(text[n..], prefix)
  {
  }

  lemma StartsWithConcat(a: string, b: string, lead: string, c: string)
    requires StartsWith(b, lead)
    ensures StartsWith(a + b + c, a + lead)
  {
    assert (a + b + c)[..|a + lead|] == a + b[..|lead|];
  }

  /** Indenting never shortens the text. */
  lemma {:induction false} IndentLength(text: string, prefix: string)
    ensures |Indent(text, prefix)| >= |text|
    decreases |text|
  {
    if text != [] {
      var k := IndexOf(text, '\n');
      var n := if k < |text| then k + 1 else k;
      IndentLength(text[n..], prefix);
      IndentHead(text, prefix);
      var line := IndentedLine(text[..n], prefix);
      assert |line| >= n;
      assert |Indent(text, prefix)| == |line| + |Indent(text[n..], prefix)|;
    }
  }

  // Schemas and model classes

  function ClassHeader(name: string): string {
    "class " + name + "(BaseModel, extra=Extra.allow):"
  }

  /** A property of a model class; one that is not required defaults to
      `None`. */
  function PropertyLine(pname: string, ptype: string, required: bool): string {
    pname + ": " + (if required then ptype else "Optional[" + ptype + "] = None")
  }

  /** The value of an optional key, with a default. */
  function GetDefault(fields: Fields, key: string, default: Json): Json {
    match Get(fields, key)
    case Some(v) => v
    case None => default
  }

  /** `generate_type`: the annotation `schema` renders as under `name`, and
      `types` after the model classes it declares are appended. A
      reference renders as its last segment, an empty schema as `None`, a
      missing type counts as `object`. */
  function TypeLines(types: seq<string>, name: string, schema: Json): (r: (Result<string, GenError>, seq<string>))
    ensures types <= r.1
    decreases schema, 1
  {
    match Contains(schema, "$ref")
    case None => (Err(Shape), types)
    case Some(true) =>
      if schema.JObj? && Get(schema.fields, "$ref").Some? && Get(schema.fields, "$ref").value.JStr? then
        (Ok(LastSegment(Get(schema.fields, "$ref").value.s)), types)
      else (Err(Shape), types)
    case Some(false) =>
      if !Truthy(schema) then (Ok("None"), types)
      else if !schema.JObj? then (Err(Shape), types)
      else
        var f := schema.fields;
        var t := GetDefault(f, "type", JStr("object"));
        if t == JStr("object") then
          var pi := FirstKey(f, "properties");
          var required := GetDefault(f, "required", JArr([]));
          if pi == |f| then (Ok(name), types + [ClassHeader(name)])
          else if !f[pi].1.JObj? then (Err(Shape), types)
          else PropsFrom(types, name, schema, pi, required, 0, [])
        else if t.JStr? && t.s in TypesMap then (Ok(TypesMap[t.s]), types)
        else if t == JStr("array") then
          var ii := FirstKey(f, "items");
          if ii == |f| then (Err(Shape), types)
          else
            var c := TypeLines(types, name, f[ii].1);
            (if c.0.Ok? then Ok("List[" + c.0.value + "]") else c.0, c.1)
        else if t.JArr? || t.JObj? then (Err(Shape), types)
        else (Err(UnknownType(t)), types)
  }

  /** A property of the class under way: its name, its annotation and
      whether the schema lists it as required. */
  datatype Prop = Prop(name: string, annotation: string, required: bool)

  /** The lines the properties add to the class under way, each indented
      by four spaces, in order. */
  function PropertyLines(ps: seq<Prop>): (r: seq<string>)
    ensures |r| == |ps|
  {
    if ps == [] then []
    else
      var p := ps[|ps| - 1];
      PropertyLines(ps[..|ps| - 1]) + [Indent(PropertyLine(p.name, p.annotation, p.required), "    ")]
  }

  /** `r` holds at least as many entries as `types`, and the header of
      class `name` opens its last `m + 1` entries. */
  predicate HeaderAt(r: seq<string>, types: seq<string>, name: string, m: nat) {
    |types| + 1 + m <= |r| && r[|r| - m - 1] == ClassHeader(name)
  }

  /** The properties of an object schema from the `k`-th on: each one's
      annotation is generated first (its own classes are appended right
      away), then it joins the properties of the class under way, `done`;
      once all are done, the class header and one line per property are
      appended. What `types` held stays; when every property renders, the
      class ends the list, its header followed by nothing but one line for
      each property. */
  function PropsFrom(types: seq<string>, name: string, schema: Json, pi: nat, required: Json, k: nat,
                     done: seq<Prop>): (r: (Result<string, GenError>, seq<string>))
    requires schema.JObj? && pi < |schema.fields| && schema.fields[pi].1.JObj?
    requires k <= |schema.fields[pi].1.fields|
    ensures types <= r.1
    ensures r.0.Ok? ==> r.0.value == name && HeaderAt(r.1, types, name, |done| + |schema.fields[pi].1.fields| - k)
    decreases schema, 0, |schema.fields[pi].1.fields| - k
  {
    var props := schema.fields[pi].1.fields;
    if k == |props| then (Ok(name), types + ([ClassHeader(name)] + PropertyLines(done)))
    else
      var pname := props[k].0;
      var c := TypeLines(types, name + "_" + pname, props[k].1);
      match c.0
      case Err(e) => (Err(e), c.1)
      case Ok(ptype) =>
        match Contains(required, pname)
        case None => (Err(Shape), c.1)
        case Some(isRequired) => PropsFrom(c.1, name, schema, pi, required, k + 1, done + [Prop(pname, ptype, isRequired)])
  }

  /** One more property: its annotation is generated, then its
      requiredness looked up, and it joins the class under way. */
  lemma PropsNext(types: seq<string>, name: string, schema: Json, pi: nat, required: Json, k: nat, done: seq<Prop>)
    requires schema.JObj? && pi < |schema.fields| && schema.fields[pi].1.JObj?
    requires k < |schema.fields[pi].1.fields|
    ensures var p := schema.fields[pi].1.fields[k];
            var c := TypeLines(types, name + "_" + p.0, p.1);
            PropsFrom(types, name, schema, pi, required, k, done)
            == if c.0.Err? then c
               else if Contains(required, p.0).None? then (Err(Shape), c.1)
               else PropsFrom(c.1, name, schema, pi, required, k + 1, done + [Prop(p.0, c.0.value, Contains(required, p.0).value)])
  {
  }

  lemma LinesSnoc(done: seq<Prop>, p: Prop)
    ensures PropertyLines(done + [p]) == PropertyLines(done) + [Indent(PropertyLine(p.name, p.annotation, p.required), "    ")]
  {
    assert (done + [p])[..|done|] == done;
  }

  lemma SnocAssoc(head: seq<string>, xs: seq<string>, x: string)
    ensures head + (xs + [x]) == (head + xs) + [x]
  {
  }

  /** With every property done, the class header and one line per
      property are appended. */
  lemma PropsDone(types: seq<string>, name: string, schema: Json, pi: nat, required: Json, k: nat, done: seq<Prop>)
    requires schema.JObj? && pi < |schema.fields| && schema.fields[pi].1.JObj?
    requires k == |schema.fields[pi].1.fields|
    ensures PropsFrom(types, name, schema, pi, required, k, done)
            == (Ok(name), types + ([ClassHeader(name)] + PropertyLines(done)))
  {
  }

  /** An object schema, the case `generate_object` handles. */
  predicate IsObject(schema: Json) {
    Contains(schema, "$ref") == Some(false) && schema.JObj? && schema.fields != []
    && GetDefault(schema.fields, "type", JStr("object")) == JStr("object")
  }

  /** An object schema without properties is a class with only its
      header; one whose properties are not a dict fails; otherwise its
      properties are generated in order. */
  lemma ObjectLines(types: seq<string>, name: string, schema: Json)
    requires IsObject(schema)
    ensures var f := schema.fields;
            var pi := FirstKey(f, "properties");
            TypeLines(types, name, schema)
            == if pi == |f| then (Ok(name), types + [ClassHeader(name)])
               else if !f[pi].1.JObj? then (Err(Shape), types)
               else PropsFrom(types, name, schema, pi, GetDefault(f, "required", JArr([])), 0, [])
  {
  }

  /** `generate_object`: an object schema renders as its own name; its
      class header comes after every class its properties declared and is
      followed by exactly one line per property, at the end of `types`. */
  lemma ObjectClass(types: seq<string>, name: string, schema: Json)
    requires IsObject(schema)
    ensures var r := TypeLines(types, name, schema);
            var pi := FirstKey(schema.fields, "properties");
            var n := if pi < |schema.fields| && schema.fields[pi].1.JObj? then |schema.fields[pi].1.fields| else 0;
            types <= r.1
            && (r.0.Ok? ==> r.0.value == name && |types| + 1 + n <= |r.1| && r.1[|r.1| - n - 1] == ClassHeader(name))
  {
    ObjectLines(types, name, schema);
  }

  /** An array renders as `List[...]` of its items, with the same name,
      and a scalar type as `TYPES_MAP` says. */
  lemma ArrayAndScalar(types: seq<string>, name: string, f: Fields)
    requires !HasKey(f, "$ref") && f != []
    ensures var r := TypeLines(types, name, JObj(f));
            var ii := FirstKey(f, "items");
            (Get(f, "type") == Some(JStr("array")) && ii < |f| ==>
               r.1 == TypeLines(types, name, f[ii].1).1
               && (r.0.Ok? <==> TypeLines(types, name, f[ii].1).0.Ok?)
               && (r.0.Ok? ==> r.0.value == "List[" + TypeLines(types, name, f[ii].1).0.value + "]"))
            && (Get(f, "type") == Some(JStr("array")) && ii == |f| ==> r == (Err(Shape), types))
            && (forall t :: Get(f, "type") == Some(JStr(t)) && t in TypesMap ==> r == (Ok(TypesMap[t]), types))
  {
  }

  /** A reference renders as the last segment of its target, whatever
      comes with it; an empty dict renders as `None`; a type that is none
      of `object`, `array` and the scalar types raises `ValueError`. None of
      them declares a class. */
  lemma LeafTypes(types: seq<string>, name: string, f: Fields)
    ensures HasKey(f, "$ref") && Get(f, "$ref").Some? && Get(f, "$ref").value.JStr? ==>
              TypeLines(types, name, JObj(f)) == (Ok(LastSegment(Get(f, "$ref").value.s)), types)
    ensures TypeLines(types, name, JObj([])) == (Ok("None"), types)
    ensures var t := GetDefault(f, "type", JStr("object"));
            !HasKey(f, "$ref") && f != [] && t != JStr("object") && t != JStr("array")
            && !(t.JStr? && t.s in TypesMap) && !t.JArr? && !t.JObj? ==>
              TypeLines(types, name, JObj(f)) == (Err(UnknownType(t)), types)
  {
  }

  /** One property line of a model class, indented by four spaces. */
  function PropLine(p: Prop): string {
    Indent(PropertyLine(p.name, p.annotation, p.required), "    ")
  }

  lemma {:induction false} PropertyLinesAt(ps: seq<Prop>)
    ensures forall i :: 0 <= i < |ps| ==> PropertyLines(ps)[i] == PropLine(ps[i])
    decreases |ps|
  {
    if ps != [] {
      PropertyLinesAt(ps[..|ps| - 1]);
    }
  }

  /** The property the `j`-th entry of `props` becomes, rendered against
      `types`: its name, its annotation and whether `required` lists it;
      `None` when either fails. */
  function PropAt(types: seq<string>, name: string, props: Fields, required: Json, j: nat): Option<Prop>
    requires j < |props|
  {
    var c := TypeLines(types, name + "_" + props[j].0, props[j].1);
    if c.0.Ok? && Contains(required, props[j].0).Some? then Some(Prop(props[j].0, c.0.value, Contains(required, props[j].0).value))
    else None
  }

  /** The annotation a schema renders as, or the error it raises, does not
      depend on the classes declared before it. */
  lemma {:induction false} AnnotationFree(t1: seq<string>, t2: seq<string>, name: string, schema: Json)
    ensures TypeLines(t1, name, schema).0 == TypeLines(t2, name, schema).0
    decreases schema, 1
  {
    if Contains(schema, "$ref") == Some(false) && Truthy(schema) && schema.JObj? {
      var f := schema.fields;
      var t := GetDefault(f, "type", JStr("object"));
      if t == JStr("object") {
        var pi := FirstKey(f, "properties");
        if pi < |f| && f[pi].1.JObj? {
          PropsFree(t1, t2, name, schema, pi, GetDefault(f, "required", JArr([])), 0, []);
        }
      } else if t == JStr("array") {
        var ii := FirstKey(f, "items");
        if ii < |f| {
          AnnotationFree(t1, t2, name, f[ii].1);
        }
      }
    }
  }

  lemma {:induction false} PropsFree(t1: seq<string>, t2: seq<string>, name: string, schema: Json, pi: nat,
                                     required: Json, k: nat, done: seq<Prop>)
    requires schema.JObj? && pi < |schema.fields| && schema.fields[pi].1.JObj?
    requires k <= |schema.fields[pi].1.fields|
    ensures PropsFrom(t1, name, schema, pi, required, k, done).0 == PropsFrom(t2, name, schema, pi, required, k, done).0
    decreases schema, 0, |schema.fields[pi].1.fields| - k
  {
    var props := schema.fields[pi].1.fields;
    if k < |props| {
      var pname := props[k].0;
      var c1 := TypeLines(t1, name + "_" + pname, props[k].1);
      var c2 := TypeLines(t2, name + "_" + pname, props[k].1);
      AnnotationFree(t1, t2, name + "_" + pname, props[k].1);
      if c1.0.Ok? && Contains(required, pname).Some? {
        PropsFree(c1.1, c2.1, name, schema, pi, required, k + 1, done + [Prop(pname, c1.0.value, Contains(required, pname).value)]);
      }
    }
  }

  /** The properties the entries of `props` from the `k`-th on become,
      rendered against `types`; `None` when one of them fails. */
  function PropsAt(types: seq<string>, name: string, props: Fields, required: Json, k: nat): Option<seq<Prop>>
    requires k <= |props|
    decreases |props| - k
  {
    if k == |props| then Some([])
    else match PropAt(types, name, props, required, k)
      case None => None
      case Some(p) =>
        match PropsAt(types, name, props, required, k + 1)
        case None => None
        case Some(rest) => Some([p] + rest)
  }

  lemma {:induction false} PropsAtFree(t1: seq<string>, t2: seq<string>, name: string, props: Fields, required: Json, k: nat)
    requires k <= |props|
    ensures PropsAt(t1, name, props, required, k) == PropsAt(t2, name, props, required, k)
    decreases |props| - k
  {
    if k < |props| {
      AnnotationFree(t1, t2, name + "_" + props[k].0, props[k].1);
      PropsAtFree(t1, t2, name, props, required, k + 1);
    }
  }

  lemma {:induction false} PropsAtIndex(types: seq<string>, name: string, props: Fields, required: Json, k: nat)
    requires k <= |props|
    ensures var ps := PropsAt(types, name, props, required, k);
            ps.Some? ==> |ps.value| == |props| - k
                         && forall j :: k <= j < |props| ==>
                              PropAt(types, name, props, required, j) == Some(ps.value[j - k])
    decreases |props| - k
  {
    if k < |props| {
      PropsAtIndex(types, name, props, required, k + 1);
    }
  }

  /** When the properties from the `k`-th on all render, the list ends with
      the lines of the properties already done followed by those of the
      remaining ones. */
  lemma {:induction false} PropsTail(types: seq<string>, name: string, schema: Json, pi: nat, required: Json, k: nat,
                                     done: seq<Prop>)
    requires schema.JObj? && pi < |schema.fields| && schema.fields[pi].1.JObj?
    requires k <= |schema.fields[pi].1.fields|
    ensures var r := PropsFrom(types, name, schema, pi, required, k, done);
            var props := schema.fields[pi].1.fields;
            r.0.Ok? ==>
              PropsAt(types, name, props, required, k).Some?
              && r.1[|r.1| - (|done| + |props| - k)..] == PropertyLines(done + PropsAt(types, name, props, required, k).value)
    decreases |schema.fields[pi].1.fields| - k, 1
  {
    if k == |schema.fields[pi].1.fields| {
      PropsTailDone(types, name, schema, pi, required, k, done);
    } else {
      PropsTailNext(types, name, schema, pi, required, k, done);
    }
  }

  lemma {:induction false} PropsTailNext(types: seq<string>, name: string, schema: Json, pi: nat, required: Json, k: nat,
                                         done: seq<Prop>)
    requires schema.JObj? && pi < |schema.fields| && schema.fields[pi].1.JObj?
    requires k < |schema.fields[pi].1.fields|
    ensures var r := PropsFrom(types, name, schema, pi, required, k, done);
            var props := schema.fields[pi].1.fields;
            r.0.Ok? ==>
              PropsAt(types, name, props, required, k).Some?
              && r.1[|r.1| - (|done| + |props| - k)..] == PropertyLines(done + PropsAt(types, name, props, required, k).value)
    decreases |schema.fields[pi].1.fields| - k, 0
  {
    var props := schema.fields[pi].1.fields;
    PropsNext(types, name, schema, pi, required, k, done);
    var pname := props[k].0;
    var c := TypeLines(types, name + "_" + pname, props[k].1);
    if c.0.Ok? && Contains(required, pname).Some? {
      var p := PropAt(types, name, props, required, k).value;
      PropsTail(c.1, name, schema, pi, required, k + 1, done + [p]);
      PropsAtFree(c.1, types, name, props, required, k + 1);
      PropsTailStep(types, name, schema, pi, required, k, done, c.1, p);
    }
  }

  /** The step of `PropsTail`: the `k`-th property joins the lines already
      done, and renders against `types` as it does against `c1`. */
  lemma PropsTailStep(types: seq<string>, name: string, schema: Json, pi: nat, required: Json, k: nat, done: seq<Prop>,
                      c1: seq<string>, p: Prop)
    requires schema.JObj? && pi < |schema.fields| && schema.fields[pi].1.JObj?
    requires k < |schema.fields[pi].1.fields|
    requires PropAt(types, name, schema.fields[pi].1.fields, required, k) == Some(p)
    requires PropsFrom(types, name, schema, pi, required, k, done) == PropsFrom(c1, name, schema, pi, required, k + 1, done + [p])
    requires PropsAt(c1, name, schema.fields[pi].1.fields, required, k + 1)
             == PropsAt(types, name, schema.fields[pi].1.fields, required, k + 1)
    requires var r := PropsFrom(c1, name, schema, pi, required, k + 1, done + [p]);
             var props := schema.fields[pi].1.fields;
             r.0.Ok? ==>
               PropsAt(c1, name, props, required, k + 1).Some?
               && r.1[|r.1| - (|done + [p]| + |props| - (k + 1))..]
                  == PropertyLines(done + [p] + PropsAt(c1, name, props, required, k + 1).value)
    ensures var r := PropsFrom(types, name, schema, pi, required, k, done);
            var props := schema.fields[pi].1.fields;
            r.0.Ok? ==>
              PropsAt(types, name, props, required, k).Some?
              && r.1[|r.1| - (|done| + |props| - k)..] == PropertyLines(done + PropsAt(types, name, props, required, k).value)
  {
    var props := schema.fields[pi].1.fields;
    if PropsAt(types, name, props, required, k + 1).Some? {
      var rest := PropsAt(types, name, props, required, k + 1).value;
      PropsAtCons(types, name, props, required, k);
      PropsAssoc(done, p, rest);
    }
  }

  lemma PropsAtCons(types: seq<string>, name: string, props: Fields, required: Json, k: nat)
    requires k < |props| && PropAt(types, name, props, required, k).Some?
    requires PropsAt(types, name, props, required, k + 1).Some?
    ensures PropsAt(types, name, props, required, k)
            == Some([PropAt(types, name, props, required, k).value] + PropsAt(types, name, props, required, k + 1).value)
  {
  }

  lemma PropsAssoc(done: seq<Prop>, p: Prop, rest: seq<Prop>)
    ensures done + ([p] + rest) == (done + [p]) + rest
  {
  }

  lemma PropsTailDone(types: seq<string>, name: string, schema: Json, pi: nat, required: Json, k: nat, done: seq<Prop>)
    requires schema.JObj? && pi < |schema.fields| && schema.fields[pi].1.JObj?
    requires k == |schema.fields[pi].1.fields|
    ensures var r := PropsFrom(types, name, schema, pi, required, k, done);
            r.1[|r.1| - |done|..] == PropertyLines(done + [])
  {
    PropsDone(types, name, schema, pi, required, k, done);
    var lines := PropertyLines(done);
    var r1 := types + ([ClassHeader(name)] + lines);
    assert r1[|r1| - |done|..] == lines;
    assert done + [] == done;
  }

  /** `generate_object`'s property lines: when the class renders, its last
      lines are one per property, in the schema's order, each the property's
      name and annotation, wrapped in `Optional[...] = None` exactly when
      `required` does not list it. */
  lemma ObjectProperties(types: seq<string>, name: string, schema: Json)
    requires IsObject(schema)
    ensures var r := TypeLines(types, name, schema);
            var f := schema.fields;
            var pi := FirstKey(f, "properties");
            var required := GetDefault(f, "required", JArr([]));
            r.0.Ok? && pi < |f| ==>
              f[pi].1.JObj?
              && forall j :: 0 <= j < |f[pi].1.fields| ==>
                   PropAt(types, name, f[pi].1.fields, required, j).Some?
                   && r.1[|r.1| - |f[pi].1.fields| + j] == PropLine(PropAt(types, name, f[pi].1.fields, required, j).value)
  {
    ObjectLines(types, name, schema);
    var f := schema.fields;
    var pi := FirstKey(f, "properties");
    if pi < |f| && f[pi].1.JObj? {
      var required := GetDefault(f, "required", JArr([]));
      PropsTail(types, name, schema, pi, required, 0, []);
      var r := TypeLines(types, name, schema);
      if r.0.Ok? {
        TailIndex(r.1, types, name, f[pi].1.fields, required);
      }
    }
  }

  /** A list ending with the lines of all the properties has the line of
      the `j`-th property at the `j`-th of its last `|props|` entries. */
  lemma TailIndex(lines: seq<string>, types: seq<string>, name: string, props: Fields, required: Json)
    requires PropsAt(types, name, props, required, 0).Some? && |props| <= |lines|
    requires lines[|lines| - |props|..] == PropertyLines([] + PropsAt(types, name, props, required, 0).value)
    ensures forall j :: 0 <= j < |props| ==>
              PropAt(types, name, props, required, j).Some?
              && lines[|lines| - |props| + j] == PropLine(PropAt(types, name, props, required, j).value)
  {
    var ps := PropsAt(types, name, props, required, 0).value;
    PropsAtIndex(types, name, props, required, 0);
    PropertyLinesAt(ps);
    assert [] + ps == ps;
  }

  // Signatures

  /** One argument of a generated signature: its name, its annotation and
      the default text after them (empty when it has none). */
  datatype Arg = Arg(name: string, annotation: string, default: string)

  function ArgText(a: Arg): string {
    a.name + ": " + a.annotation + a.default + ", "
  }

  /** The arguments as `method_str` grows by them, each followed by `, `. */
  function ArgsText(args: seq<Arg>): string {
    if args == [] then "" else ArgsText(args[..|args| - 1]) + ArgText(args[|args| - 1])
  }

  function ArgBody(a: Arg): string {
    a.name + ": " + a.annotation + a.default
  }

  function ArgBodies(args: seq<Arg>): (r: seq<string>)
    ensures |r| == |args|
  {
    if args == [] then [] else ArgBodies(args[..|args| - 1]) + [ArgBody(args[|args| - 1])]
  }

  /** What a signature is made of: the indented `async def name(self, `,
      whether the arguments are keyword-only, the arguments, and the return
      annotation. */
  datatype Signature = Signature(head: string, star: bool, args: seq<Arg>, result: string)

  /** The text `method_str` ends up as: its last `, ` taken off, then the
      closing parenthesis, the return annotation and `: ...`. */
  function Render(sig: Signature): string {
    RemoveSuffix(sig.head + (if sig.star then "*, " else "") + ArgsText(sig.args), ", ") + ") -> " + sig.result + ": ..."
  }

  lemma {:induction false} ArgsTextJoin(args: seq<Arg>)
    requires args != []
    ensures ArgsText(args) == Join(", ", ArgBodies(args)) + ", "
    decreases |args|
  {
    var init := args[..|args| - 1];
    var last := args[|args| - 1];
    if init != [] {
      ArgsTextJoin(init);
      JoinSnoc(", ", ArgBodies(init), ArgBody(last));
    } else {
      assert ArgBodies(args) == [ArgBody(last)];
    }
  }

  lemma {:induction false} JoinSnoc(sep: string, parts: seq<string>, last: string)
    requires parts != []
    ensures Join(sep, parts + [last]) == Join(sep, parts) + sep + last
    decreases |parts|
  {
    assert (parts + [last])[1..] == parts[1..] + [last];
    if |parts| > 1 {
      JoinSnoc(sep, parts[1..], last);
    }
  }

  /** A signature with arguments lists them separated by `, ` after the
      head, with nothing trailing before the parenthesis. */
  lemma RenderArgs(sig: Signature)
    requires sig.args != []
    ensures Render(sig) == sig.head + (if sig.star then "*, " else "") + Join(", ", ArgBodies(sig.args))
                           + ") -> " + sig.result + ": ..."
  {
    ArgsTextJoin(sig.args);
    var pre := sig.head + (if sig.star then "*, " else "") + Join(", ", ArgBodies(sig.args));
    assert sig.head + (if sig.star then "*, " else "") + ArgsText(sig.args) == pre + ", ";
    assert (pre + ", ")[|pre + ", "| - 2..] == ", ";
    assert (pre + ", ")[..|pre + ", "| - 2] == pre;
  }

  /** `operation.get("parameters", [])`, as something a `for` can walk: an
      empty dict or string walks nothing, a non-empty one yields keys or
      characters that `param["name"]` rejects. */
  function ParamsOf(op: Json): Result<seq<Json>, GenError> {
    match DictGet(op, "parameters", JArr([]), Shape)
    case Err(e) => Err(e)
    case Ok(JArr(items)) => Ok(items)
    case Ok(v) => if !Truthy(v) && (v.JObj? || v.JStr?) then Ok([]) else Err(Shape)
  }

  /** The parameters from the `k`-th on, each `name: annotation`, with
      `=...` when it is not required. */
  function ParamArgs(types: seq<string>, name: string, params: seq<Json>, k: nat, acc: seq<Arg>)
    : (r: (Result<seq<Arg>, GenError>, seq<string>))
    requires k <= |params|
    decreases |params| - k
  {
    if k == |params| then (Ok(acc), types)
    else
      var p := params[k];
      if !p.JObj? then (Err(Shape), types)
      else
        match Get(p.fields, "name")
        case Some(JStr(pname)) =>
          (match Get(p.fields, "schema")
           case None => (Err(Shape), types)
           case Some(s) =>
             var c := TypeLines(types, name + "_param_" + pname, s);
             match c.0
             case Err(e) => (Err(e), c.1)
             case Ok(ptype) =>
               var required := Truthy(GetDefault(p.fields, "required", JBool(false)));
               ParamArgs(c.1, name, params, k + 1, acc + [Arg(pname, ptype, if required then "" else "=...")]))
        case _ => (Err(Shape), types)
  }

  /** `j.get("content", {}).get("application/json", {}).get("schema", {})`. */
  function SchemaIn(j: Json): Result<Json, GenError> {
    match DictGet(j, "content", JObj([]), Shape)
    case Err(e) => Err(e)
    case Ok(content) =>
      match DictGet(content, "application/json", JObj([]), Shape)
      case Err(e) => Err(e)
      case Ok(media) => DictGet(media, "schema", JObj([]), Shape)
  }

  /** The request body's schema; a reference is looked up by its last
      segment among the document's component schemas, `None` when it is
      not there. */
  function BodyOf(op: Json, content: Json): Result<Json, GenError> {
    match DictGet(op, "requestBody", JObj([]), Shape)
    case Err(e) => Err(e)
    case Ok(body) =>
      match SchemaIn(body)
      case Err(e) => Err(e)
      case Ok(schema) =>
        match Contains(schema, "$ref")
        case None => Err(Shape)
        case Some(false) => Ok(schema)
        case Some(true) =>
          if schema.JObj? && Get(schema.fields, "$ref").Some? && Get(schema.fields, "$ref").value.JStr? then
            match DictGet(content, "components", JObj([]), Shape)
            case Err(e) => Err(e)
            case Ok(components) =>
              match DictGet(components, "schemas", JObj([]), Shape)
              case Err(e) => Err(e)
              case Ok(schemas) => DictGet(schemas, LastSegment(Get(schema.fields, "$ref").value.s), JNull, Shape)
          else Err(Shape)
  }

  /** The body's properties from the `k`-th on, each `name: annotation`,
      with ` = ...` when it is not required. */
  function BodyArgs(types: seq<string>, name: string, props: Fields, required: Json, k: nat, acc: seq<Arg>)
    : (r: (Result<seq<Arg>, GenError>, seq<string>))
    requires k <= |props|
    decreases |props| - k
  {
    if k == |props| then (Ok(acc), types)
    else
      var pname := props[k].0;
      var c := TypeLines(types, name + "_body_" + pname, props[k].1);
      match c.0
      case Err(e) => (Err(e), c.1)
      case Ok(ptype) =>
        match Contains(required, pname)
        case None => (Err(Shape), c.1)
        case Some(isRequired) =>
          BodyArgs(c.1, name, props, required, k + 1, acc + [Arg(pname, ptype, if isRequired then "" else " = ...")])
  }

  /** The body arguments: none for an empty schema, else one per
      property. */
  function BodyArgsOf(types: seq<string>, name: string, schema: Json): (r: (Result<seq<Arg>, GenError>, seq<string>)) {
    if !Truthy(schema) then (Ok([]), types)
    else if !schema.JObj? then (Err(Shape), types)
    else
      var pi := FirstKey(schema.fields, "properties");
      if pi == |schema.fields| then (Ok([]), types)
      else if !schema.fields[pi].1.JObj? then (Err(Shape), types)
      else BodyArgs(types, name, schema.fields[pi].1.fields, GetDefault(schema.fields, "required", JArr([])), 0, [])
  }

  /** The schema of the response the return annotation comes from: the 200
      one unless it is empty, else the default one. The YAML key `200` is
      an integer; here it is the key `"200"`. */
  function ReturnOf(op: Json): Result<Json, GenError> {
    match DictGet(op, "responses", JObj([]), Shape)
    case Err(e) => Err(e)
    case Ok(responses) =>
      match DictGet(responses, "200", JObj([]), Shape)
      case Err(e) => Err(e)
      case Ok(ok) =>
        if Truthy(ok) then SchemaIn(ok)
        else
          match DictGet(responses, "default", JObj([]), Shape)
          case Err(e) => Err(e)
          case Ok(default) => SchemaIn(default)
  }

  function Head(name: string): string {
    Indent("async def " + name + "(self, ", "    ")
  }

  /** The arguments of the operation named `name`, whether they are
      keyword-only, and `types` after the classes they declared: the
      parameters first, then the body's properties. */
  function ArgsOf(types: seq<string>, name: string, op: Json, content: Json)
    : (r: (Result<(bool, seq<Arg>), GenError>, seq<string>))
  {
    var p := ParamsStage(types, name, op);
    match p.0
    case Err(e) => (Err(e), p.1)
    case Ok(pargs) =>
      match BodyOf(op, content)
      case Err(e) => (Err(e), p.1)
      case Ok(schema) =>
        var b := BodyArgsOf(p.1, name, schema);
        match b.0
        case Err(e) => (Err(e), b.1)
        case Ok(bargs) => (Ok((pargs.0, pargs.1 + bargs)), b.1)
  }

  /** The parameters' arguments, and whether there are any. */
  function ParamsStage(types: seq<string>, name: string, op: Json): (r: (Result<(bool, seq<Arg>), GenError>, seq<string>)) {
    match ParamsOf(op)
    case Err(e) => (Err(e), types)
    case Ok(params) =>
      var p := ParamArgs(types, name, params, 0, []);
      match p.0
      case Err(e) => (Err(e), p.1)
      case Ok(pargs) => (Ok((params != [], pargs)), p.1)
  }

  /** The signature of the operation named `name`, and `types` after the
      classes its arguments and return type declared. */
  function SignatureOf(types: seq<string>, name: string, op: Json, content: Json)
    : (r: (Result<Signature, GenError>, seq<string>))
  {
    var a := ArgsOf(types, name, op, content);
    match a.0
    case Err(e) => (Err(e), a.1)
    case Ok(args) =>
      match ReturnOf(op)
      case Err(e) => (Err(e), a.1)
      case Ok(rs) =>
        var t := TypeLines(a.1, name + "_return", rs);
        match t.0
        case Err(e) => (Err(e), t.1)
        case Ok(ret) => (Ok(Signature(Head(name), args.0, args.1, ret)), t.1)
  }

  lemma {:induction false} ParamArgsCount(types: seq<string>, name: string, params: seq<Json>, k: nat, acc: seq<Arg>)
    requires k <= |params|
    ensures var r := ParamArgs(types, name, params, k, acc);
            r.0.Ok? ==> |r.0.value| == |acc| + |params| - k && r.0.value[..|acc|] == acc
                        && forall i :: |acc| <= i < |r.0.value| ==> r.0.value[i].default in {"", "=..."}
    decreases |params| - k
  {
    if k < |params| && params[k].JObj? {
      var p := params[k];
      if Get(p.fields, "name").Some? && Get(p.fields, "name").value.JStr? && Get(p.fields, "schema").Some? {
        var pname := Get(p.fields, "name").value.s;
        var c := TypeLines(types, name + "_param_" + pname, Get(p.fields, "schema").value);
        if c.0.Ok? {
          var required := Truthy(GetDefault(p.fields, "required", JBool(false)));
          var a := Arg(pname, c.0.value, if required then "" else "=...");
          ParamArgsCount(c.1, name, params, k + 1, acc + [a]);
        }
      }
    }
  }

  /** The arguments are keyword-only exactly when the operation has
      parameters; the parameters come first, one argument each, marked
      `=...` or nothing, and the body's properties follow. */
  lemma SignatureArgs(types: seq<string>, name: string, op: Json, content: Json)
    ensures var r := SignatureOf(types, name, op, content);
            r.0.Ok? ==> ParamsOf(op).Ok?
                        && (r.0.value.star <==> |ParamsOf(op).value| > 0)
                        && |ParamsOf(op).value| <= |r.0.value.args|
                        && (forall i :: 0 <= i < |ParamsOf(op).value| ==> r.0.value.args[i].default in {"", "=..."})
                        && r.0.value.head == Head(name)
  {
    if ParamsOf(op).Ok? {
      ParamArgsCount(types, name, ParamsOf(op).value, 0, []);
    }
  }

  /** The head starts the `async def` line, whatever the name. */
  lemma HeadStart(name: string)
    ensures StartsWith(Head(name), "    async def ") && |Head(name)| >= 17
  {
    var lead := "async def ";
    var text := lead + name + "(self, ";
    assert text[..10] == lead;
    assert lead[0] == 'a';
    assert !IsBlank(lead);
    IndentStart(text, lead, "    ");
    IndentLength(text, "    ");
    assert |text| >= 17;
    DefLead();
  }

  lemma DefLead()
    ensures "    " + "async def " == "    async def "
  {
  }

  /** Every signature is one `async def` line ending in `: ...`, whatever
      the name. */
  lemma RenderShape(sig: Signature, name: string)
    requires sig.head == Head(name)
    ensures StartsWith(Render(sig), "    async def ")
    ensures |Render(sig)| >= 5 && Render(sig)[|Render(sig)| - 5..] == ": ..."
  {
    HeadStart(name);
    var s := sig.head + (if sig.star then "*, " else "") + ArgsText(sig.args);
    assert s[..14] == sig.head[..14];
    var t := RemoveSuffix(s, ", ");
    assert |t| >= 15 && t[..14] == s[..14];
    var tail := ") -> " + sig.result + ": ...";
    assert Render(sig) == t + tail;
    assert (t + tail)[..14] == t[..14];
  }

  /** The `i`-th property, counted from the `k`-th, becomes the matching
      argument after those already in `acc`. */
  lemma {:induction false} BodyArgAt(types: seq<string>, name: string, props: Fields, required: Json,
                                     k: nat, acc: seq<Arg>, i: nat)
    requires k <= i < |props|
    ensures var r := BodyArgs(types, name, props, required, k, acc);
            r.0.Ok? ==> |r.0.value| == |acc| + |props| - k
                        && r.0.value[|acc| + i - k].name == props[i].0
                        && r.0.value[|acc| + i - k].default
                           == if Contains(required, props[i].0) == Some(true) then "" else " = ..."
    decreases |props| - k
  {
    var pname := props[k].0;
    var c := TypeLines(types, name + "_body_" + pname, props[k].1);
    if c.0.Ok? && Contains(required, pname).Some? {
      var isRequired := Contains(required, pname).value;
      var a := Arg(pname, c.0.value, if isRequired then "" else " = ...");
      var r := BodyArgs(c.1, name, props, required, k + 1, acc + [a]);
      assert BodyArgs(types, name, props, required, k, acc) == r;
      if i > k {
        BodyArgAt(c.1, name, props, required, k + 1, acc + [a], i);
        assert |acc + [a]| + i - (k + 1) == |acc| + i - k;
      } else {
        BodyArgsPrefix(c.1, name, props, required, k + 1, acc + [a]);
        if r.0.Ok? {
          assert r.0.value[|acc|] == r.0.value[..|acc + [a]|][|acc|] == (acc + [a])[|acc|] == a;
        }
      }
    } else {
      assert BodyArgs(types, name, props, required, k, acc).0.Err?;
    }
  }

  lemma {:induction false} BodyArgsPrefix(types: seq<string>, name: string, props: Fields, required: Json,
                                          k: nat, acc: seq<Arg>)
    requires k <= |props|
    ensures var r := BodyArgs(types, name, props, required, k, acc);
            r.0.Ok? ==> |r.0.value| == |acc| + |props| - k && r.0.value[..|acc|] == acc
    decreases |props| - k
  {
    if k < |props| {
      var pname := props[k].0;
      var c := TypeLines(types, name + "_body_" + pname, props[k].1);
      if c.0.Ok? && Contains(required, pname).Some? {
        var isRequired := Contains(required, pname).value;
        var a := Arg(pname, c.0.value, if isRequired then "" else " = ...");
        BodyArgsPrefix(c.1, name, props, required, k + 1, acc + [a]);
        var r := BodyArgs(c.1, name, props, required, k + 1, acc + [a]);
        if r.0.Ok? {
          assert r.0.value[..|acc|] == r.0.value[..|acc + [a]|][..|acc|];
        }
      }
    }
  }

  /** The body's properties become arguments one for one, in the
      schema's order, each defaulting to `...` exactly when it is not
      required. Without parameters nothing makes them keyword-only, so an
      optional property listed before a required one yields a signature
      Python rejects. */
  lemma BodyArgsShape(types: seq<string>, name: string, props: Fields, required: Json)
    ensures var r := BodyArgs(types, name, props, required, 0, []);
            r.0.Ok? ==> |r.0.value| == |props|
                        && forall i :: 0 <= i < |props| ==>
                             r.0.value[i].name == props[i].0
                             && r.0.value[i].default
                                == if Contains(required, props[i].0) == Some(true) then "" else " = ..."
  {
    BodyArgsPrefix(types, name, props, required, 0, []);
    forall i | 0 <= i < |props|
      ensures var r := BodyArgs(types, name, props, required, 0, []);
              r.0.Ok? ==> r.0.value[i].name == props[i].0
                          && r.0.value[i].default
                             == if Contains(required, props[i].0) == Some(true) then "" else " = ..."
    {
      BodyArgAt(types, name, props, required, 0, [], i);
    }
  }

  // The generator

  /** `generate_api_client`'s two lists: the model classes and the method
      definitions. */
  datatype Output = Output(types: seq<string>, definitions: seq<string>)

  /** One entry of a path item: skipped when it has no documentation URL,
      else its signature is added under the name that URL gives. */
  function OperationOut(out: Output, op: Json, content: Json): (r: (Result<(), GenError>, Output)) {
    match DocUrl(op)
    case Err(_) => (Err(Shape), out)
    case Ok(None) => (Ok(()), out)
    case Ok(Some(url)) =>
      var s := SignatureOf(out.types, ApiName(url), op, content);
      match s.0
      case Err(e) => (Err(e), Output(s.1, out.definitions))
      case Ok(sig) => (Ok(()), Output(s.1, out.definitions + [Render(sig)]))
  }

  /** The entries of one path item from the `k`-th on. */
  function OpsOut(out: Output, methods: Fields, content: Json, k: nat): (r: (Result<(), GenError>, Output))
    requires k <= |methods|
    decreases |methods| - k
  {
    if k == |methods| then (Ok(()), out)
    else
      var o := OperationOut(out, methods[k].1, content);
      if o.0.Err? then o else OpsOut(o.1, methods, content, k + 1)
  }

  /** The path items from the `k`-th on; each must be a dict. */
  function PathsOut(out: Output, paths: Fields, content: Json, k: nat): (r: (Result<(), GenError>, Output))
    requires k <= |paths|
    decreases |paths| - k
  {
    if k == |paths| then (Ok(()), out)
    else if !paths[k].1.JObj? then (Err(Shape), out)
    else
      var o := OpsOut(out, paths[k].1.fields, content, 0);
      if o.0.Err? then o else PathsOut(o.1, paths, content, k + 1)
  }

  function Start(): Output {
    Output([], ["class ApiClient:"])
  }

  /** The two lists once the whole document is walked. */
  function ClientOut(content: Json): (r: (Result<(), GenError>, Output))
    ensures !content.JObj? ==> r == (Err(Shape), Start())
    ensures content.JObj? && !HasKey(content.fields, "paths") ==> r == (Ok(()), Start())
  {
    match DictGet(content, "paths", JObj([]), Shape)
    case Err(e) => (Err(e), Start())
    case Ok(JObj(paths)) => PathsOut(Start(), paths, content, 0)
    case Ok(_) => (Err(Shape), Start())
  }

  /** The definitions list opens with the class line and holds nothing
      else but `async def` lines ending in `: ...`. */
  predicate WellFormed(definitions: seq<string>) {
    |definitions| >= 1 && definitions[0] == "class ApiClient:"
    && forall i :: 1 <= i < |definitions| ==>
         StartsWith(definitions[i], "    async def ")
         && |definitions[i]| >= 5 && definitions[i][|definitions[i]| - 5..] == ": ..."
  }

  lemma WellFormedSnoc(definitions: seq<string>, d: string)
    requires WellFormed(definitions)
    requires StartsWith(d, "    async def ") && |d| >= 5 && d[|d| - 5..] == ": ..."
    ensures WellFormed(definitions + [d])
  {
  }

  lemma OperationKeeps(out: Output, op: Json, content: Json)
    requires WellFormed(out.definitions)
    ensures WellFormed(OperationOut(out, op, content).1.definitions)
    ensures out.types <= OperationOut(out, op, content).1.types
  {
    if DocUrl(op).Ok? && DocUrl(op).value.Some? {
      var name := ApiName(DocUrl(op).value.value);
      SignatureTypes(out.types, name, op, content);
      var s := SignatureOf(out.types, name, op, content);
      if s.0.Ok? {
        assert s.0.value.head == Head(name);
        RenderShape(s.0.value, name);
        WellFormedSnoc(out.definitions, Render(s.0.value));
      }
    }
  }

  /** A signature only appends to `types`. */
  lemma SignatureTypes(types: seq<string>, name: string, op: Json, content: Json)
    ensures types <= SignatureOf(types, name, op, content).1
  {
    ArgsTypes(types, name, op, content);
  }

  lemma ArgsTypes(types: seq<string>, name: string, op: Json, content: Json)
    ensures types <= ArgsOf(types, name, op, content).1
  {
    if ParamsOf(op).Ok? {
      var p := ParamArgs(types, name, ParamsOf(op).value, 0, []);
      ParamArgsGrow(types, name, ParamsOf(op).value, 0, []);
      if p.0.Ok? && BodyOf(op, content).Ok? {
        var schema := BodyOf(op, content).value;
        if Truthy(schema) && schema.JObj? {
          var pi := FirstKey(schema.fields, "properties");
          if pi < |schema.fields| && schema.fields[pi].1.JObj? {
            BodyArgsGrow(p.1, name, schema.fields[pi].1.fields, GetDefault(schema.fields, "required", JArr([])), 0, []);
          }
        }
      }
    }
  }

  lemma {:induction false} ParamArgsGrow(types: seq<string>, name: string, params: seq<Json>, k: nat, acc: seq<Arg>)
    requires k <= |params|
    ensures types <= ParamArgs(types, name, params, k, acc).1
    decreases |params| - k
  {
    if k < |params| && params[k].JObj? {
      var p := params[k];
      if Get(p.fields, "name").Some? && Get(p.fields, "name").value.JStr? && Get(p.fields, "schema").Some? {
        var pname := Get(p.fields, "name").value.s;
        var c := TypeLines(types, name + "_param_" + pname, Get(p.fields, "schema").value);
        if c.0.Ok? {
          var required := Truthy(GetDefault(p.fields, "required", JBool(false)));
          ParamArgsGrow(c.1, name, params, k + 1, acc + [Arg(pname, c.0.value, if required then "" else "=...")]);
        }
      }
    }
  }

  lemma {:induction false} BodyArgsGrow(types: seq<string>, name: string, props: Fields, required: Json,
                                        k: nat, acc: seq<Arg>)
    requires k <= |props|
    ensures types <= BodyArgs(types, name, props, required, k, acc).1
    decreases |props| - k
  {
    if k < |props| {
      var pname := props[k].0;
      var c := TypeLines(types, name + "_body_" + pname, props[k].1);
      if c.0.Ok? && Contains(required, pname).Some? {
        var isRequired := Contains(required, pname).value;
        BodyArgsGrow(c.1, name, props, required, k + 1,
                     acc + [Arg(pname, c.0.value, if isRequired then "" else " = ...")]);
      }
    }
  }

  lemma {:induction false} OpsKeep(out: Output, methods: Fields, content: Json, k: nat)
    requires k <= |methods| && WellFormed(out.definitions)
    ensures WellFormed(OpsOut(out, methods, content, k).1.definitions)
    ensures out.types <= OpsOut(out, methods, content, k).1.types
    decreases |methods| - k
  {
    if k < |methods| {
      OperationKeeps(out, methods[k].1, content);
      var o := OperationOut(out, methods[k].1, content);
      if o.0.Ok? {
        OpsKeep(o.1, methods, content, k + 1);
      }
    }
  }

  lemma {:induction false} PathsKeep(out: Output, paths: Fields, content: Json, k: nat)
    requires k <= |paths| && WellFormed(out.definitions)
    ensures WellFormed(PathsOut(out, paths, content, k).1.definitions)
    ensures out.types <= PathsOut(out, paths, content, k).1.types
    decreases |paths| - k
  {
    if k < |paths| && paths[k].1.JObj? {
      OpsKeep(out, paths[k].1.fields, content, 0);
      var o := OpsOut(out, paths[k].1.fields, content, 0);
      if o.0.Ok? {
        PathsKeep(o.1, paths, content, k + 1);
      }
    }
  }

  /** Whatever the document, the client class holds only `async def`
      stubs. */
  lemma ClientWellFormed(content: Json)
    ensures WellFormed(ClientOut(content).1.definitions)
  {
    if DictGet(content, "paths", JObj([]), Shape).Ok? && DictGet(content, "paths", JObj([]), Shape).value.JObj? {
      PathsKeep(Start(), DictGet(content, "paths", JObj([]), Shape).value.fields, content, 0);
    }
  }

  /** `generate_api_client`'s state: the lists it appends to. */
  class ClientGenerator {
    var types: seq<string>
    var definitions: seq<string>

    constructor()
      ensures Output(types, definitions) == Start()
    {
      types := [];
      definitions := ["class ApiClient:"];
    }

    /** `generate_type`. */
    method GenerateType(name: string, schema: Json) returns (r: Result<string, GenError>)
      modifies this
      ensures (r, types) == TypeLines(old(types), name, schema)
      ensures definitions == old(definitions)
      decreases schema, 1
    {
      var hasRef := Contains(schema, "$ref");
      if hasRef.None? {
        return Err(Shape);
      }
      if hasRef.value {
        if schema.JObj? && Get(schema.fields, "$ref").Some? && Get(schema.fields, "$ref").value.JStr? {
          return Ok(LastSegment(Get(schema.fields, "$ref").value.s));
        }
        return Err(Shape);
      }
      if !Truthy(schema) {
        return Ok("None");
      }
      if !schema.JObj? {
        return Err(Shape);
      }
      var f := schema.fields;
      var t := GetDefault(f, "type", JStr("object"));
      if t == JStr("object") {
        r := GenerateObject(name, schema);
      } else if t.JStr? && t.s in TypesMap {
        r := Ok(TypesMap[t.s]);
      } else if t == JStr("array") {
        var ii := FirstKey(f, "items");
        if ii == |f| {
          return Err(Shape);
        }
        var c := GenerateType(name, f[ii].1);
        r := if c.Ok? then Ok("List[" + c.value + "]") else c;
      } else if t.JArr? || t.JObj? {
        r := Err(Shape);
      } else {
        r := Err(UnknownType(t));
      }
    }

    /** `generate_object`: the class under way is kept aside and appended
        after its properties' own classes. */
    method GenerateObject(name: string, schema: Json) returns (r: Result<string, GenError>)
      requires IsObject(schema)
      modifies this
      ensures (r, types) == TypeLines(old(types), name, schema)
      ensures definitions == old(definitions)
      decreases schema, 0
    {
      ObjectLines(types, name, schema);
      var f := schema.fields;
      var temp := [ClassHeader(name)];
      var required := GetDefault(f, "required", JArr([]));
      var pi := FirstKey(f, "properties");
      if pi == |f| {
        types := types + temp;
        return Ok(name);
      }
      if !f[pi].1.JObj? {
        return Err(Shape);
      }
      var props := f[pi].1.fields;
      var k := 0;
      ghost var done: seq<Prop> := [];
      while k < |props|
        invariant k <= |props|
        invariant temp == [ClassHeader(name)] + PropertyLines(done)
        invariant PropsFrom(types, name, schema, pi, required, k, done)
                  == TypeLines(old(types), name, schema)
        invariant definitions == old(definitions)
      {
        var pname := props[k].0;
        PropsNext(types, name, schema, pi, required, k, done);
        var c := GenerateType(name + "_" + pname, props[k].1);
        if c.Err? {
          return c;
        }
        var isRequired := Contains(required, pname);
        if isRequired.None? {
          return Err(Shape);
        }
        var line := Indent(PropertyLine(pname, c.value, isRequired.value), "    ");
        LinesSnoc(done, Prop(pname, c.value, isRequired.value));
        SnocAssoc([ClassHeader(name)], PropertyLines(done), line);
        temp := temp + [line];
        done := done + [Prop(pname, c.value, isRequired.value)];
        k := k + 1;
      }
      PropsDone(types, name, schema, pi, required, k, done);
      types := types + temp;
      r := Ok(name);
    }

    /** The parameters loop: `method_str` grows by one argument per
        parameter. */
    method ParamsPart(name: string, params: seq<Json>, head: string) returns (r: Result<seq<Arg>, GenError>, text: string)
      modifies this
      ensures (r, types) == ParamArgs(old(types), name, params, 0, [])
      ensures r.Ok? ==> text == head + ArgsText(r.value)
      ensures definitions == old(definitions)
    {
      var acc: seq<Arg> := [];
      text := head;
      var k := 0;
      while k < |params|
        invariant k <= |params|
        invariant ParamArgs(types, name, params, k, acc) == ParamArgs(old(types), name, params, 0, [])
        invariant text == head + ArgsText(acc)
        invariant definitions == old(definitions)
      {
        var p := params[k];
        if !p.JObj? {
          return Err(Shape), text;
        }
        var pn := Get(p.fields, "name");
        if pn.None? || !pn.value.JStr? {
          return Err(Shape), text;
        }
        var pname := pn.value.s;
        var s := Get(p.fields, "schema");
        if s.None? {
          return Err(Shape), text;
        }
        var c := GenerateType(name + "_param_" + pname, s.value);
        if c.Err? {
          return Err(c.error), text;
        }
        var required := Truthy(GetDefault(p.fields, "required", JBool(false)));
        var a := Arg(pname, c.value, if required then "" else "=...");
        TextStep(head, acc, a);
        text := text + ArgText(a);
        acc := acc + [a];
        k := k + 1;
      }
      r := Ok(acc);
    }

    /** The body loop: one argument per property of the body schema. */
    method BodyPart(name: string, schema: Json, text0: string) returns (r: Result<seq<Arg>, GenError>, text: string)
      modifies this
      ensures (r, types) == BodyArgsOf(old(types), name, schema)
      ensures r.Ok? ==> text == text0 + ArgsText(r.value)
      ensures definitions == old(definitions)
    {
      text := text0;
      if !Truthy(schema) {
        return Ok([]), text;
      }
      if !schema.JObj? {
        return Err(Shape), text;
      }
      var required := GetDefault(schema.fields, "required", JArr([]));
      var pi := FirstKey(schema.fields, "properties");
      if pi == |schema.fields| {
        return Ok([]), text;
      }
      if !schema.fields[pi].1.JObj? {
        return Err(Shape), text;
      }
      var props := schema.fields[pi].1.fields;
      var acc: seq<Arg> := [];
      var k := 0;
      while k < |props|
        invariant k <= |props|
        invariant BodyArgs(types, name, props, required, k, acc) == BodyArgsOf(old(types), name, schema)
        invariant text == text0 + ArgsText(acc)
        invariant definitions == old(definitions)
      {
        var pname := props[k].0;
        var c := GenerateType(name + "_body_" + pname, props[k].1);
        if c.Err? {
          return Err(c.error), text;
        }
        var isRequired := Contains(required, pname);
        if isRequired.None? {
          return Err(Shape), text;
        }
        var a := Arg(pname, c.value, if isRequired.value then "" else " = ...");
        TextStep(text0, acc, a);
        text := text + ArgText(a);
        acc := acc + [a];
        k := k + 1;
      }
      r := Ok(acc);
    }

    /** The parameters part of `method_str`: the head, `*, ` when there
        are parameters, then one argument per parameter. */
    method GenerateParams(name: string, op: Json) returns (r: Result<(bool, seq<Arg>), GenError>, text: string)
      modifies this
      ensures (r, types) == ParamsStage(old(types), name, op)
      ensures r.Ok? ==> text == Head(name) + (if r.value.0 then "*, " else "") + ArgsText(r.value.1)
      ensures definitions == old(definitions)
    {
      var params := ParamsOf(op);
      if params.Err? {
        return Err(params.error), "";
      }
      var head := Head(name) + (if params.value != [] then "*, " else "");
      var pargs;
      pargs, text := ParamsPart(name, params.value, head);
      if pargs.Err? {
        return Err(pargs.error), text;
      }
      r := Ok((params.value != [], pargs.value));
    }

    /** The arguments part of `method_str`: the parameters, then the body's
        properties. */
    method GenerateArgs(name: string, op: Json, content: Json) returns (r: Result<(bool, seq<Arg>), GenError>, text: string)
      modifies this
      ensures (r, types) == ArgsOf(old(types), name, op, content)
      ensures r.Ok? ==> text == Head(name) + (if r.value.0 then "*, " else "") + ArgsText(r.value.1)
      ensures definitions == old(definitions)
    {
      ghost var t0 := types;
      var pargs, afterParams := GenerateParams(name, op);
      ghost var t1 := types;
      if pargs.Err? {
        return pargs, afterParams;
      }
      var schema := BodyOf(op, content);
      if schema.Err? {
        return Err(schema.error), afterParams;
      }
      var bargs, afterBody := BodyPart(name, schema.value, afterParams);
      assert (bargs, types) == BodyArgsOf(t1, name, schema.value);
      if bargs.Err? {
        return Err(bargs.error), afterBody;
      }
      ArgsTextAppend(pargs.value.1, bargs.value);
      ghost var h, x, y := Head(name) + (if pargs.value.0 then "*, " else ""), ArgsText(pargs.value.1), ArgsText(bargs.value);
      ConcatAssoc(h, x, y);
      r, text := Ok((pargs.value.0, pargs.value.1 + bargs.value)), afterBody;
    }

    /** One operation's signature, built up in `method_str` as the source
        does. */
    method GenerateSignature(name: string, op: Json, content: Json) returns (r: Result<string, GenError>)
      modifies this
      ensures var s := SignatureOf(old(types), name, op, content);
              types == s.1 && (r.Ok? ==> s.0.Ok? && r.value == Render(s.0.value))
              && (r.Err? ==> s.0 == Err(r.error))
      ensures definitions == old(definitions)
    {
      var args, methodStr := GenerateArgs(name, op, content);
      if args.Err? {
        return Err(args.error);
      }
      ghost var argsText := methodStr;
      methodStr := RemoveSuffix(methodStr, ", ") + ")";
      var rs := ReturnOf(op);
      if rs.Err? {
        return Err(rs.error);
      }
      var ret := GenerateType(name + "_return", rs.value);
      if ret.Err? {
        return Err(ret.error);
      }
      methodStr := methodStr + " -> " + ret.value;
      methodStr := methodStr + ": ...";
      r := Ok(methodStr);
      RenderSteps(Head(name), args.value.0, args.value.1, ret.value, methodStr);
    }

    /** One entry of a path item. */
    method GenerateOperation(op: Json, content: Json) returns (r: Result<(), GenError>)
      modifies this
      ensures (r, Output(types, definitions)) == OperationOut(Output(old(types), old(definitions)), op, content)
    {
      var url := DocUrl(op);
      if url.Err? {
        return Err(Shape);
      }
      if url.value.None? {
        return Ok(());
      }
      var sig := GenerateSignature(ApiName(url.value.value), op, content);
      if sig.Err? {
        return Err(sig.error);
      }
      definitions := definitions + [sig.value];
      r := Ok(());
    }

    /** The entries of one path item. */
    method GenerateOps(methods: Fields, content: Json) returns (r: Result<(), GenError>)
      modifies this
      ensures (r, Output(types, definitions)) == OpsOut(Output(old(types), old(definitions)), methods, content, 0)
    {
      var k := 0;
      while k < |methods|
        invariant k <= |methods|
        invariant OpsOut(Output(types, definitions), methods, content, k)
                  == OpsOut(Output(old(types), old(definitions)), methods, content, 0)
      {
        ghost var before := Output(types, definitions);
        var o := GenerateOperation(methods[k].1, content);
        ghost var step := OperationOut(before, methods[k].1, content);
        assert (o, Output(types, definitions)) == step;
        if o.Err? {
          return o;
        }
        assert OpsOut(before, methods, content, k) == OpsOut(step.1, methods, content, k + 1);
        k := k + 1;
      }
      r := Ok(());
    }

    /** `generate_api_client` up to writing the file: every path item in
        turn. */
    method GenerateClient(content: Json) returns (r: Result<(), GenError>)
      requires Output(types, definitions) == Start()
      modifies this
      ensures (r, Output(types, definitions)) == ClientOut(content)
      ensures WellFormed(definitions)
    {
      ClientWellFormed(content);
      var paths := DictGet(content, "paths", JObj([]), Shape);
      if paths.Err? {
        return Err(paths.error);
      }
      if !paths.value.JObj? {
        return Err(Shape);
      }
      var items := paths.value.fields;
      var k := 0;
      while k < |items|
        invariant k <= |items|
        invariant PathsOut(Output(types, definitions), items, content, k) == ClientOut(content)
      {
        if !items[k].1.JObj? {
          return Err(Shape);
        }
        var o := GenerateOps(items[k].1.fields, content);
        if o.Err? {
          return o;
        }
        k := k + 1;
      }
      r := Ok(());
    }
  }

  /** `method_str` grown step by step is the rendered signature. */
  lemma RenderSteps(head: string, star: bool, args: seq<Arg>, ret: string, text: string)
    requires text == ((RemoveSuffix(head + (if star then "*, " else "") + ArgsText(args), ", ") + ")") + " -> " + ret) + ": ..."
    ensures text == Render(Signature(head, star, args, ret))
  {
  }

  /** One more argument on `method_str`. */
  lemma TextStep(head: string, acc: seq<Arg>, a: Arg)
    ensures (head + ArgsText(acc)) + ArgText(a) == head + ArgsText(acc + [a])
  {
    assert (acc + [a])[..|acc|] == acc;
    ConcatAssoc(head, ArgsText(acc), ArgText(a));
  }

  lemma ConcatAssoc(h: string, x: string, y: string)
    ensures (h + x) + y == h + (x + y)
  {
  }

  lemma {:induction false} ArgsTextAppend(a: seq<Arg>, b: seq<Arg>)
    ensures ArgsText(a + b) == ArgsText(a) + ArgsText(b)
    decreases |b|
  {
    if b == [] {
      assert a + b == a;
    } else {
      var init, last := b[..|b| - 1], b[|b| - 1];
      assert (a + b)[..|a + b| - 1] == a + init;
      assert (a + b)[|a + b| - 1] == last;
      ArgsTextAppend(a, init);
      var x, y, z := ArgsText(a), ArgsText(init), ArgText(last);
      assert ArgsText(a + b) == (x + y) + z;
      assert ArgsText(b) == y + z;
      assert (x + y) + z == x + (y + z);
    }
  }
}
