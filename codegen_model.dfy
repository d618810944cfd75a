/** The code generator's schema types (`codegen/model.py`): the six
    OpenAPI types, the Python annotation each renders as, and the global
    registry every constructed object schema enters. */
module CodegenModel {
  import opened Wrappers
  import opened PyStr
  import opened Json

  /** `Type`, discriminated by `type`. An object's properties are a dict,
      kept in insertion order. */
  datatype Type =
    | Array(items: Type)
    | Boolean
    | Integer
    | Number
    | Object(name: string, properties: seq<(string, Type)>, required: seq<string>)
    | String

  /** The rest of `re.sub(r"(?:^|_)(.)", ...)` once past the start: an
      underscore followed by any character but a newline is replaced by
      that character upper-cased; everything else is copied. */
  function PascalRest(s: string): (r: string)
    ensures |r| <= |s| && (|s| > 0 ==> |r| > 0)
    decreases |s|
  {
    if |s| == 0 then ""
    else if s[0] == '_' && |s| >= 2 && s[1] != '\n' then [Upper(s[1])] + PascalRest(s[2..])
    else [s[0]] + PascalRest(s[1..])
  }

  /** `snake_to_pascal`: at the start the first character itself is
      upper-cased (even an underscore, which stays one), unless it is a
      newline; after that each `_` and the character after it become that
      character upper-cased. */
  function SnakeToPascal(s: string): (r: string)
    ensures |r| <= |s|
    ensures |s| > 0 && s[0] != '\n' ==> |r| > 0 && r[0] == Upper(s[0])
  {
    if |s| > 0 && s[0] != '\n' then [Upper(s[0])] + PascalRest(s[1..]) else PascalRest(s)
  }

  /** A word of a snake-case name: not empty, no underscore, not starting
      with a newline. */
  predicate IsWord(w: string) {
    |w| > 0 && w[0] != '\n' && NoUnderscore(w)
  }

  predicate NoUnderscore(x: string) {
    forall i :: 0 <= i < |x| ==> x[i] != '_'
  }

  function Capitalize(w: string): string
    requires |w| > 0
  {
    [Upper(w[0])] + w[1..]
  }

  function CapitalizeAll(words: seq<string>): (r: seq<string>)
    requires forall i :: 0 <= i < |words| ==> IsWord(words[i])
    ensures |r| == |words|
    decreases |words|
  {
    if words == [] then []
    else
      assert IsWord(words[0]);
      [Capitalize(words[0])] + CapitalizeAll(words[1..])
  }

  /** Text without underscores passes through unchanged. */
  lemma {:induction false} PascalRestPlain(x: string, t: string)
    requires NoUnderscore(x)
    ensures PascalRest(x + t) == x + PascalRest(t)
    decreases |x|
  {
    if |x| > 0 {
      assert (x + t)[0] == x[0] != '_';
      assert (x + t)[1..] == x[1..] + t;
      assert NoUnderscore(x[1..]) by {
        forall i | 0 <= i < |x[1..]|
          ensures x[1..][i] != '_'
        {
          assert x[1..][i] == x[i + 1];
        }
      }
      assert PascalRest(x + t) == [x[0]] + PascalRest(x[1..] + t);
      PascalRestPlain(x[1..], t);
      assert [x[0]] + (x[1..] + PascalRest(t)) == x + PascalRest(t);
    } else {
      assert x + t == t;
    }
  }

  /** One word, after an underscore or at the start, comes out
      capitalized. */
  lemma WordStep(w: string, tail: string)
    requires IsWord(w)
    ensures PascalRest("_" + w + tail) == Capitalize(w) + PascalRest(tail)
    ensures SnakeToPascal(w + tail) == Capitalize(w) + PascalRest(tail)
  {
    var u := "_" + w + tail;
    assert u[0] == '_' && u[1] == w[0] && u[2..] == w[1..] + tail;
    assert (w + tail)[0] == w[0] && (w + tail)[1..] == w[1..] + tail;
    assert NoUnderscore(w[1..]) by {
      forall i | 0 <= i < |w[1..]|
        ensures w[1..][i] != '_'
      {
        assert w[1..][i] == w[i + 1];
      }
    }
    PascalRestPlain(w[1..], tail);
  }

  /** After the start, `_word_word...` becomes the capitalized words. */
  lemma {:induction false} PascalRestWords(words: seq<string>)
    requires |words| > 0 && forall i :: 0 <= i < |words| ==> IsWord(words[i])
    ensures PascalRest("_" + Join("_", words)) == Concat(CapitalizeAll(words))
    decreases |words|
  {
    var w := words[0];
    assert IsWord(w);
    var tail := if |words| == 1 then "" else "_" + Join("_", words[1..]);
    assert "_" + Join("_", words) == "_" + w + tail;
    WordStep(w, tail);
    if |words| > 1 {
      PascalRestWords(words[1..]);
    }
  }

  /** `snake_to_pascal` of words joined by `_` is the words capitalized and
      concatenated. */
  lemma {:induction false} SnakeToPascalWords(words: seq<string>)
    requires |words| > 0 && forall i :: 0 <= i < |words| ==> IsWord(words[i])
    ensures SnakeToPascal(Join("_", words)) == Concat(CapitalizeAll(words))
  {
    var w := words[0];
    assert IsWord(w);
    var tail := if |words| == 1 then "" else "_" + Join("_", words[1..]);
    assert Join("_", words) == w + tail;
    WordStep(w, tail);
    if |words| > 1 {
      PascalRestWords(words[1..]);
    }
  }

  /** `to_annotation` of each type. */
  function Annotation(t: Type): (r: string)
    ensures !t.Array? && !t.Object? ==> r in {"bool", "int", "float", "str"}
  {
    match t
    case Array(items) => "List[" + Annotation(items) + "]"
    case Boolean => "bool"
    case Integer => "int"
    case Number => "float"
    case Object(name, _, _) => SnakeToPascal(name)
    case String => "str"
  }

  /** `n` arrays around `t`. */
  function Nest(t: Type, n: nat): Type
    decreases n
  {
    if n == 0 then t else Array(Nest(t, n - 1))
  }

  function Repeat(s: string, n: nat): string
    decreases n
  {
    if n == 0 then "" else s + Repeat(s, n - 1)
  }

  /** Nested arrays render as nested `List[...]`, one per level. */
  lemma {:induction false} NestedAnnotation(t: Type, n: nat)
    ensures Annotation(Nest(t, n)) == Repeat("List[", n) + Annotation(t) + Repeat("]", n)
    decreases n
  {
    if n > 0 {
      NestedAnnotation(t, n - 1);
      RepeatSnoc("]", n - 1);
      var a, open, close := Annotation(t), Repeat("List[", n - 1), Repeat("]", n - 1);
      var inner := Nest(t, n - 1);
      assert Nest(t, n) == Array(inner);
      assert Annotation(Array(inner)) == "List[" + Annotation(inner) + "]";
      assert Repeat("List[", n) == "List[" + open;
      Regroup("List[", open, a, close, "]");
    }
  }

  lemma Regroup(x: string, o: string, a: string, c: string, y: string)
    ensures x + (o + a + c) + y == (x + o) + a + (c + y)
  {
  }

  lemma {:induction false} RepeatSnoc(s: string, n: nat)
    ensures Repeat(s, n + 1) == Repeat(s, n) + s
    decreases n
  {
    if n > 0 {
      RepeatSnoc(s, n - 1);
    }
  }

  /** `self.properties[name]`; `None` is the KeyError. */
  function PropertyType(properties: seq<(string, Type)>, name: string): (r: Option<Type>)
    ensures r.Some? ==> (name, r.value) in properties
    ensures r.None? <==> forall i :: 0 <= i < |properties| ==> properties[i].0 != name
    decreases |properties|
  {
    if properties == [] then None
    else if properties[0].0 == name then Some(properties[0].1)
    else PropertyType(properties[1..], name)
  }

  function Optional(annotation: string): string {
    "Optional[" + annotation + "]"
  }

  /** `Object.property_annotation`: the property's annotation, wrapped in
      `Optional[...]` exactly when the property is not required; a
      property the object does not have raises. */
  function PropertyAnnotation(o: Type, name: string): (r: Option<string>)
    requires o.Object?
    ensures r.None? <==> PropertyType(o.properties, name).None?
    ensures r.Some? && name in o.required ==> r.value == Annotation(PropertyType(o.properties, name).value)
    ensures r.Some? && name !in o.required ==> r.value == Optional(Annotation(PropertyType(o.properties, name).value))
  {
    match PropertyType(o.properties, name)
    case None => None
    case Some(t) => Some(if name in o.required then Annotation(t) else Optional(Annotation(t)))
  }

  /** `PathParam` and `QueryParam`, which are the same shape. */
  datatype Param = Param(name: string, required: bool, ty: Type)

  /** `PathParam.to_annotation` and `QueryParam.to_annotation`: the
      type's annotation, wrapped in `Optional[...]` exactly when the
      parameter is not required. */
  function ParamAnnotation(p: Param): (r: string)
    ensures p.required ==> r == Annotation(p.ty)
    ensures !p.required ==> r == Optional(Annotation(p.ty))
  {
    if p.required then Annotation(p.ty) else Optional(Annotation(p.ty))
  }

  /** One API operation, as `parse` builds it; `verb` is its HTTP method. */
  datatype Api = Api(name: string, verb: string, path: string, pathParams: seq<Param>, queryParams: seq<Param>,
                     body: Option<Type>, returnType: Option<Type>)

  /** The module-level `obj_schemas`: every object schema constructed so
      far, by name, in the order the names were first seen. */
  class Registry {
    var objSchemas: seq<(string, Type)>

    constructor()
      ensures objSchemas == []
    {
      objSchemas := [];
    }

    /** `Object(...)`: constructing an object schema registers it under
        its name, replacing an earlier one of that name in its place. */
    method NewObject(name: string, properties: seq<(string, Type)>, required: seq<string>) returns (o: Type)
      modifies this
      ensures o == Object(name, properties, required)
      ensures objSchemas == Put(old(objSchemas), name, o)
    {
      o := Object(name, properties, required);
      objSchemas := Put(objSchemas, name, o);
    }
  }

  /** After registering, the name holds the new schema, the names stay
      unique, and every other entry is kept. */
  lemma RegisterSpec(schemas: seq<(string, Type)>, o: Type)
    requires o.Object? && UniqueKeys(schemas)
    ensures var r := Put(schemas, o.name, o);
            UniqueKeys(r) && (o.name, o) in r
            && (forall e :: e in schemas && e.0 != o.name ==> e in r)
            && (forall e :: e in r ==> e == (o.name, o) || e in schemas)
  {
    PutEntries(schemas, o.name, o);
    PutKeys(schemas, o.name, o);
  }
}
