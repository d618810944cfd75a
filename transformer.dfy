/** The four `dict()` overrides of the stand-alone qqguild package
    (`transformer.py`), which API models mix in to shape request bodies.
    A model is its declared fields with their names, aliases and current
    values. Nested models and lists are plain JSON values here: every
    override rewrites only the top level, and the nested values are kept
    as given. */
module Transformers {
  import opened Wrappers
  import opened PyStr
  import opened Json

  /** A declared field: its attribute name, its alias and its value
      (`JNull` for `None`). */
  datatype ModelField = ModelField(name: string, alias: string, value: Json)

  function KeyOf(f: ModelField, byAlias: bool): string {
    if byAlias then f.alias else f.name
  }

  /** pydantic's `BaseModel.dict` at the top level: one entry per field in
      declaration order, keyed by alias or by name, leaving out the `None`
      ones when `excludeNone` is set. */
  function Dump(fs: seq<ModelField>, byAlias: bool, excludeNone: bool): (r: Fields)
    ensures |r| <= |fs|
    ensures !excludeNone ==> |r| == |fs| && forall i :: 0 <= i < |fs| ==> r[i] == (KeyOf(fs[i], byAlias), fs[i].value)
    ensures excludeNone ==> forall i :: 0 <= i < |r| ==> r[i].1 != JNull
    decreases |fs|
  {
    if fs == [] then []
    else
      var last := fs[|fs| - 1];
      Dump(fs[..|fs| - 1], byAlias, excludeNone)
      + (if excludeNone && last.value == JNull then [] else [(KeyOf(last, byAlias), last.value)])
  }

  /** With `excludeNone`, the entries are exactly the fields whose value is
      not `None`. */
  lemma {:induction false} DumpExcludes(fs: seq<ModelField>, byAlias: bool)
    ensures forall i :: 0 <= i < |fs| && fs[i].value != JNull ==>
              (KeyOf(fs[i], byAlias), fs[i].value) in Dump(fs, byAlias, true)
    ensures forall e :: e in Dump(fs, byAlias, true) ==>
              exists i :: 0 <= i < |fs| && fs[i].value != JNull && e == (KeyOf(fs[i], byAlias), fs[i].value)
    decreases |fs|
  {
    if fs != [] {
      var init := fs[..|fs| - 1];
      DumpExcludes(init, byAlias);
      forall e | e in Dump(fs, byAlias, true)
        ensures exists i :: 0 <= i < |fs| && fs[i].value != JNull && e == (KeyOf(fs[i], byAlias), fs[i].value)
      {
        if e in Dump(init, byAlias, true) {
          var i :| 0 <= i < |init| && init[i].value != JNull && e == (KeyOf(init[i], byAlias), init[i].value);
          assert fs[i] == init[i];
        } else {
          assert e == (KeyOf(fs[|fs| - 1], byAlias), fs[|fs| - 1].value);
        }
      }
      forall i | 0 <= i < |fs| && fs[i].value != JNull
        ensures (KeyOf(fs[i], byAlias), fs[i].value) in Dump(fs, byAlias, true)
      {
        if i < |init| {
          assert init[i] == fs[i];
        }
      }
    }
  }

  /** `ExcludeNoneTransformer.dict`: always drops `None` fields, whatever
      `exclude_none` the caller passes. */
  function ExcludeNoneDict(fs: seq<ModelField>, byAlias: bool, excludeNone: bool): (r: Fields)
    ensures forall i :: 0 <= i < |r| ==> r[i].1 != JNull
    ensures forall i :: 0 <= i < |fs| && fs[i].value != JNull ==> (KeyOf(fs[i], byAlias), fs[i].value) in r
    ensures forall e :: e in r ==> exists i :: 0 <= i < |fs| && fs[i].value != JNull && e == (KeyOf(fs[i], byAlias), fs[i].value)
  {
    DumpExcludes(fs, byAlias);
    Dump(fs, byAlias, true)
  }

  /** `int(value)` of a bool; any other value as it is. */
  function BoolAsInt(v: Json): Json {
    if v.JBool? then JInt(if v.b then 1 else 0) else v
  }

  /** `BoolToIntTransformer.dict`: every top-level bool becomes 0 or 1;
      keys, order and all other values, nested bools included, stay. */
  method BoolToIntDict(fs: seq<ModelField>, byAlias: bool, excludeNone: bool) returns (data: Fields)
    ensures var d := Dump(fs, byAlias, excludeNone);
            |data| == |d|
            && (forall i :: 0 <= i < |d| ==> data[i].0 == d[i].0)
            && (forall i :: 0 <= i < |d| && !d[i].1.JBool? ==> data[i].1 == d[i].1)
            && (forall i :: 0 <= i < |d| && d[i].1.JBool? ==> data[i].1 == JInt(if d[i].1.b then 1 else 0))
    ensures forall i :: 0 <= i < |data| ==> !data[i].1.JBool?
  {
    data := Dump(fs, byAlias, excludeNone);
    ghost var d := data;
    for i := 0 to |data|
      invariant |data| == |d|
      invariant forall j :: 0 <= j < |d| ==> data[j].0 == d[j].0
      invariant forall j :: 0 <= j < i ==> data[j].1 == BoolAsInt(d[j].1)
      invariant forall j :: i <= j < |d| ==> data[j].1 == d[j].1
    {
      if data[i].1.JBool? {
        data := data[i := (data[i].0, BoolAsInt(data[i].1))];
      }
    }
  }

  /** `str(value)` of an int; bools are ints in Python, so they become
      `"True"` and `"False"`; any other value as it is. */
  function IntAsStr(v: Json): Json {
    match v
    case JInt(n) => JStr(IntToStr(n))
    case JBool(b) => JStr(if b then "True" else "False")
    case _ => v
  }

  /** `IntToStrTransformer.dict`: every top-level int or bool becomes its
      `str()`; keys, order and all other values stay. */
  method IntToStrDict(fs: seq<ModelField>, byAlias: bool, excludeNone: bool) returns (data: Fields)
    ensures var d := Dump(fs, byAlias, excludeNone);
            |data| == |d|
            && (forall i :: 0 <= i < |d| ==> data[i].0 == d[i].0)
            && (forall i :: 0 <= i < |d| && !d[i].1.JBool? && !d[i].1.JInt? ==> data[i].1 == d[i].1)
            && (forall i :: 0 <= i < |d| && d[i].1.JInt? ==> data[i].1 == JStr(IntToStr(d[i].1.n)))
            && (forall i :: 0 <= i < |d| && d[i].1.JBool? ==>
                  data[i].1 == JStr(if d[i].1.b then "True" else "False"))
    ensures forall i :: 0 <= i < |data| ==> !data[i].1.JBool? && !data[i].1.JInt?
  {
    data := Dump(fs, byAlias, excludeNone);
    ghost var d := data;
    for i := 0 to |data|
      invariant |data| == |d|
      invariant forall j :: 0 <= j < |d| ==> data[j].0 == d[j].0
      invariant forall j :: 0 <= j < i ==> data[j].1 == IntAsStr(d[j].1)
      invariant forall j :: i <= j < |d| ==> data[j].1 == d[j].1
    {
      if data[i].1.JInt? || data[i].1.JBool? {
        data := data[i := (data[i].0, IntAsStr(data[i].1))];
      }
    }
  }

  /** Different integers print differently, so the conversion loses no
      information about the ints it rewrites. */
  lemma {:induction false} IntToStrInjective(a: int, b: int)
    requires IntToStr(a) == IntToStr(b)
    ensures a == b
  {
    if a < 0 && b < 0 {
      NegStr(a);
      NegStr(b);
      NatToStrInjective(-a, -b);
    } else if a >= 0 && b >= 0 {
      NatToStrInjective(a, b);
    }
  }

  /** A negative number is its magnitude after the sign. */
  lemma NegStr(a: int)
    requires a < 0
    ensures IntToStr(a)[1..] == NatToStr(-a)
  {
    var t := NatToStr(-a);
    assert ("-" + t)[1..] == t;
  }

  lemma {:induction false} NatToStrInjective(a: nat, b: nat)
    requires NatToStr(a) == NatToStr(b)
    ensures a == b
    decreases a
  {
    var s := NatToStr(a);
    if a >= 10 && b >= 10 {
      assert NatToStr(a / 10) == s[..|s| - 1] == NatToStr(b / 10);
      NatToStrInjective(a / 10, b / 10);
      assert DigitChar(a % 10) == s[|s| - 1] == DigitChar(b % 10);
      DigitCharInjective(a % 10, b % 10);
    } else if a < 10 && b < 10 {
      DigitCharInjective(a, b);
    }
  }

  lemma DigitCharInjective(a: nat, b: nat)
    requires a < 10 && b < 10 && DigitChar(a) == DigitChar(b)
    ensures a == b
  {
  }

  /** `AliasExportTransformer.dict`: always keyed by alias, whatever
      `by_alias` the caller passes. */
  function AliasExportDict(fs: seq<ModelField>, byAlias: bool, excludeNone: bool): (r: Fields)
    ensures !excludeNone ==> |r| == |fs| && forall i :: 0 <= i < |fs| ==> r[i] == (fs[i].alias, fs[i].value)
    ensures excludeNone ==> forall i :: 0 <= i < |fs| && fs[i].value != JNull ==> (fs[i].alias, fs[i].value) in r
    ensures excludeNone ==> forall e :: e in r ==> exists i :: 0 <= i < |fs| && fs[i].value != JNull && e == (fs[i].alias, fs[i].value)
  {
    DumpExcludes(fs, true);
    Dump(fs, true, excludeNone)
  }
}
