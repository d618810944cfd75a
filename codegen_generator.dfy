/** `sort_models` of the code generator (`codegen/generator.py`): the
    object schemas to emit as pydantic models, each after every model its
    properties use. A dict of schemas is a sequence of (name, schema)
    pairs in insertion order. */
module CodegenGenerator {
  import opened Wrappers
  import opened Json
  import opened CodegenModel

  /** The number of type nodes in a schema. */
  function Size(t: Type): nat
    decreases t, 1
  {
    match t
    case Array(items) => 1 + Size(items)
    case Object(_, properties, _) => 1 + SizeProps(t, |properties|)
    case _ => 1
  }

  function SizeProps(t: Type, k: nat): nat
    requires t.Object? && k <= |t.properties|
    decreases t, 0, k
  {
    if k == 0 then 0 else SizeProps(t, k - 1) + Size(t.properties[k - 1].1)
  }

  function SizeSeq(ps: seq<(string, Type)>): nat
    decreases |ps|
  {
    if ps == [] then 0 else SizeSeq(ps[..|ps| - 1]) + Size(ps[|ps| - 1].1)
  }

  lemma {:induction false} SizePropsSeq(t: Type, k: nat)
    requires t.Object? && k <= |t.properties|
    ensures SizeProps(t, k) == SizeSeq(t.properties[..k])
    decreases k
  {
    if k > 0 {
      SizePropsSeq(t, k - 1);
      assert t.properties[..k][..k - 1] == t.properties[..k - 1];
    }
  }

  lemma ObjectSize(t: Type)
    requires t.Object?
    ensures Size(t) == 1 + SizeSeq(t.properties)
  {
    SizePropsSeq(t, |t.properties|);
    assert t.properties[..|t.properties|] == t.properties;
  }

  lemma {:induction false} SizeAt(ps: seq<(string, Type)>, k: nat)
    requires k < |ps|
    ensures Size(ps[k].1) <= SizeSeq(ps)
    decreases |ps|
  {
    if k < |ps| - 1 {
      SizeAt(ps[..|ps| - 1], k);
    }
  }

  /** What the loop looks at for one schema: an array is unwrapped once. */
  function Unwrap(t: Type): (u: Type)
    ensures Size(u) <= Size(t)
  {
    if t.Array? then t.items else t
  }

  /** The object schemas `sort_models` reaches from one schema: the schema
      (unwrapped once) if it is an object, and what its properties reach. */
  ghost function ReachOne(t: Type): (r: set<Type>)
    ensures forall o :: o in r ==> o.Object? && Size(o) <= Size(t)
    decreases Size(t), 1
  {
    var u := Unwrap(t);
    if u.Object? then
      ObjectSize(u);
      {u} + Reach(u.properties)
    else {}
  }

  /** The object schemas reached from a dict of schemas. */
  ghost function Reach(ps: seq<(string, Type)>): (r: set<Type>)
    ensures forall o :: o in r ==> o.Object? && Size(o) <= SizeSeq(ps)
    decreases SizeSeq(ps), 2
  {
    if ps == [] then {} else Reach(ps[..|ps| - 1]) + ReachOne(ps[|ps| - 1].1)
  }

  lemma {:induction false} ReachPrefix(ps: seq<(string, Type)>, k: nat)
    requires k <= |ps|
    ensures Reach(ps[..k]) <= Reach(ps)
    decreases |ps| - k
  {
    if k < |ps| {
      ReachPrefix(ps, k + 1);
      assert ps[..k + 1][..k] == ps[..k];
    } else {
      assert ps[..k] == ps;
    }
  }

  /** The models a model's properties reach, which must come before it. */
  ghost function Deps(t: Type): set<Type> {
    if t.Object? then Reach(t.properties) else {}
  }

  /** Every entry is an object stored under its own name, drawn from `s`. */
  ghost predicate Registered(m: seq<(string, Type)>, s: set<Type>) {
    forall e :: e in m ==> e.1.Object? && e.0 == e.1.name && e.1 in s
  }

  /** Schemas that share a name are the same schema. */
  ghost predicate Consistent(s: set<Type>) {
    forall a, b :: a in s && b in s && a.Object? && b.Object? && a.name == b.name ==> a == b
  }

  /** Every schema of `s` has an entry under its name. */
  ghost predicate Complete(m: seq<(string, Type)>, s: set<Type>) {
    forall o :: o in s && o.Object? ==> HasKey(m, o.name)
  }

  /** Every model the properties of an entry reach has an earlier entry. */
  ghost predicate Ordered(m: seq<(string, Type)>) {
    forall i :: 0 <= i < |m| ==>
      forall d :: d in Deps(m[i].1) ==> exists j :: 0 <= j < i && m[j].0 == d.name
  }

  /** `models.update(sub)`: each entry of `sub` put in turn. */
  function UpdateAll(m: seq<(string, Type)>, sub: seq<(string, Type)>): seq<(string, Type)>
    decreases |sub|
  {
    if sub == [] then m else Put(UpdateAll(m, sub[..|sub| - 1]), sub[|sub| - 1].0, sub[|sub| - 1].1)
  }

  lemma HasKeySnoc(sub: seq<(string, Type)>, x: string)
    requires sub != []
    ensures HasKey(sub, x) <==> HasKey(sub[..|sub| - 1], x) || sub[|sub| - 1].0 == x
  {
    if HasKey(sub, x) {
      var j :| 0 <= j < |sub| && sub[j].0 == x;
      if j < |sub| - 1 {
        assert sub[..|sub| - 1][j].0 == x;
      }
    }
    if HasKey(sub[..|sub| - 1], x) {
      var j :| 0 <= j < |sub| - 1 && sub[..|sub| - 1][j].0 == x;
      assert sub[j].0 == x;
    }
  }

  /** After an update the entries come from either dict, the keys are
      those of both, and they stay unique. */
  lemma {:induction false} UpdateAllSpec(m: seq<(string, Type)>, sub: seq<(string, Type)>)
    ensures forall e :: e in UpdateAll(m, sub) ==> e in m || e in sub
    ensures forall x :: HasKey(UpdateAll(m, sub), x) <==> HasKey(m, x) || HasKey(sub, x)
    ensures UniqueKeys(m) ==> UniqueKeys(UpdateAll(m, sub))
    decreases |sub|
  {
    if sub != [] {
      var init, last := sub[..|sub| - 1], sub[|sub| - 1];
      UpdateAllSpec(m, init);
      var u := UpdateAll(m, init);
      PutEntries(u, last.0, last.1);
      PutKeys(u, last.0, last.1);
      forall x
        ensures HasKey(sub, x) <==> HasKey(init, x) || last.0 == x
      {
        HasKeySnoc(sub, x);
      }
      assert forall e :: e in init ==> e in sub;
    }
  }

  /** Putting a model whose dependencies are all present keeps the order:
      either its name is already there, under the very same schema, and
      nothing changes, or it is appended after everything. */
  lemma AddEntry(m: seq<(string, Type)>, o: Type, s: set<Type>)
    requires Registered(m, s) && UniqueKeys(m) && Consistent(s) && Ordered(m)
    requires o.Object? && o in s
    requires forall d :: d in Deps(o) ==> HasKey(m, d.name)
    ensures Ordered(Put(m, o.name, o))
  {
    PutAppendOrKeep(m, o.name, o);
    if HasKey(m, o.name) {
      var j :| 0 <= j < |m| && m[j].0 == o.name;
      assert m[j] in m;
      assert m[j] == (o.name, o);
    } else {
      var r := m + [(o.name, o)];
      forall i | 0 <= i < |r|
        ensures forall d :: d in Deps(r[i].1) ==> exists j :: 0 <= j < i && r[j].0 == d.name
      {
        if i < |m| {
          assert r[i] == m[i];
          forall d | d in Deps(r[i].1)
            ensures exists j :: 0 <= j < i && r[j].0 == d.name
          {
            var j :| 0 <= j < i && m[j].0 == d.name;
            assert r[j] == m[j];
          }
        } else {
          forall d | d in Deps(r[i].1)
            ensures exists j :: 0 <= j < i && r[j].0 == d.name
          {
            var j :| 0 <= j < |m| && m[j].0 == d.name;
            assert r[j] == m[j];
          }
        }
      }
    }
  }

  lemma OrderedPrefix(m: seq<(string, Type)>, n: nat)
    requires Ordered(m) && n <= |m|
    ensures Ordered(m[..n])
  {
    forall i | 0 <= i < n
      ensures forall d :: d in Deps(m[..n][i].1) ==> exists j :: 0 <= j < i && m[..n][j].0 == d.name
    {
      assert m[..n][i] == m[i];
      forall d | d in Deps(m[i].1)
        ensures exists j :: 0 <= j < i && m[..n][j].0 == d.name
      {
        var j :| 0 <= j < i && m[j].0 == d.name;
        assert m[..n][j] == m[j];
      }
    }
  }

  lemma RegisteredPrefix(m: seq<(string, Type)>, n: nat, s: set<Type>)
    requires Registered(m, s) && n <= |m|
    ensures Registered(m[..n], s)
  {
    forall e | e in m[..n]
      ensures e in m
    {
      var j :| 0 <= j < n && m[..n][j] == e;
      assert m[j] == e;
    }
  }

  /** Updating an ordered dict with an ordered one over a consistent set of
      schemas keeps the order. */
  lemma {:induction false} UpdateAllOrdered(m: seq<(string, Type)>, sub: seq<(string, Type)>, s: set<Type>)
    requires Registered(m, s) && Registered(sub, s) && UniqueKeys(m) && Consistent(s)
    requires Ordered(m) && Ordered(sub)
    ensures Ordered(UpdateAll(m, sub))
    decreases |sub|
  {
    if sub != [] {
      var n := |sub| - 1;
      var init, last := sub[..n], sub[n];
      RegisteredPrefix(sub, n, s);
      OrderedPrefix(sub, n);
      UpdateAllOrdered(m, init, s);
      UpdateAllSpec(m, init);
      var u := UpdateAll(m, init);
      assert u == UpdateAll(m, sub[..|sub| - 1]);
      assert last in sub;
      forall d | d in Deps(last.1)
        ensures HasKey(u, d.name)
      {
        var j :| 0 <= j < n && sub[j].0 == d.name;
        assert init[j].0 == d.name;
      }
      AddEntry(u, last.1, s);
    }
  }

  /** A schema whose name is already present: under consistency it is the
      schema stored there, whose dependencies are present too. */
  lemma KnownModelStep(models: seq<(string, Type)>, model: Type, sk: set<Type>, all: set<Type>, c: bool)
    requires Registered(models, sk) && sk <= all && (c ==> Consistent(all) && Complete(models, sk) && Ordered(models))
    requires model.Object? && model in all && HasKey(models, model.name)
    ensures var sk1 := sk + ({model} + Reach(model.properties));
            Registered(models, sk1) && (c ==> Complete(models, sk1))
  {
    if c {
      var j :| 0 <= j < |models| && models[j].0 == model.name;
      assert models[j] in models;
      assert models[j].1 == model;
      assert Deps(models[j].1) == Reach(model.properties);
      forall o | o in Reach(model.properties)
        ensures HasKey(models, o.name)
      {
        var i :| 0 <= i < j && models[i].0 == o.name;
      }
    }
  }

  /** A new schema: its sorted properties are merged in, then it is put
      after them. */
  lemma NewModelStep(models: seq<(string, Type)>, sub: seq<(string, Type)>, model: Type,
                     sk: set<Type>, all: set<Type>, c: bool)
    requires Registered(models, sk) && UniqueKeys(models) && sk <= all
    requires c ==> Consistent(all) && Complete(models, sk) && Ordered(models)
    requires model.Object? && model in all && Reach(model.properties) <= all
    requires Registered(sub, Reach(model.properties)) && UniqueKeys(sub)
    requires Consistent(Reach(model.properties)) ==> Complete(sub, Reach(model.properties)) && Ordered(sub)
    ensures var r := Put(UpdateAll(models, sub), model.name, model);
            var sk1 := sk + ({model} + Reach(model.properties));
            Registered(r, sk1) && UniqueKeys(r) && (c ==> Complete(r, sk1) && Ordered(r))
  {
    var sk1 := sk + ({model} + Reach(model.properties));
    UpdateAllSpec(models, sub);
    var u := UpdateAll(models, sub);
    assert Registered(u, sk1);
    PutEntries(u, model.name, model);
    PutKeys(u, model.name, model);
    if c {
      UpdateAllOrdered(models, sub, all);
      forall d | d in Deps(model)
        ensures HasKey(u, d.name)
      {
      }
      AddEntry(u, model, all);
    }
  }

  /** One turn of the loop over a dict of schemas: what the next schema
      adds to what is reached, and that its properties are smaller than
      the dict. */
  lemma ReachStep(schemas: seq<(string, Type)>, k: nat)
    requires k < |schemas|
    ensures Reach(schemas[..k + 1]) == Reach(schemas[..k]) + ReachOne(schemas[k].1)
    ensures Reach(schemas[..k]) <= Reach(schemas[..k + 1]) <= Reach(schemas)
    ensures var u := Unwrap(schemas[k].1);
            u.Object? ==> ReachOne(schemas[k].1) == {u} + Reach(u.properties)
                          && SizeSeq(u.properties) < SizeSeq(schemas)
  {
    assert schemas[..k + 1][..k] == schemas[..k];
    ReachPrefix(schemas, k + 1);
    var u := Unwrap(schemas[k].1);
    if u.Object? {
      ObjectSize(u);
      SizeAt(schemas, k);
    }
  }

  /** `sort_models`: only objects are returned, an array being unwrapped
      once and anything else skipped; each name once; a name already
      present is not processed again. When schemas sharing a name are the
      same schema, every object reached is there, after every model its
      properties reach. */
  method SortModels(schemas: seq<(string, Type)>) returns (models: seq<(string, Type)>)
    ensures Registered(models, Reach(schemas)) && UniqueKeys(models)
    ensures Consistent(Reach(schemas)) ==> Complete(models, Reach(schemas)) && Ordered(models)
    decreases SizeSeq(schemas)
  {
    ghost var all := Reach(schemas);
    ghost var c := Consistent(all);
    models := [];
    for k := 0 to |schemas|
      invariant Registered(models, Reach(schemas[..k])) && UniqueKeys(models)
      invariant c ==> Complete(models, Reach(schemas[..k])) && Ordered(models)
    {
      ghost var sk := Reach(schemas[..k]);
      ReachStep(schemas, k);
      var model := schemas[k].1;
      if model.Array? {
        model := model.items;
      }
      if !model.Object? {
        continue;
      }
      if HasKey(models, model.name) {
        KnownModelStep(models, model, sk, all, c);
        continue;
      }
      var sub := SortModels(model.properties);
      NewModelStep(models, sub, model, sk, all, c);
      models := UpdateAll(models, sub);
      models := Put(models, model.name, model);
    }
    assert schemas[..|schemas|] == schemas;
  }
}
