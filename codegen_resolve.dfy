/** `_resolve_ref` of the code generator's `parse.py`: inlining every
    `$ref` of a schema, following references into other documents, and
    naming each object schema after where it was found. The documents
    are reached through `Source`'s cache; which source is current is the
    `current_source` context variable. */
module CodegenResolve {
  import opened Wrappers
  import opened PyStr
  import opened Json
  import opened CodegenSource

  /** What the resolver cannot see: `fetch` is the document at a
      fragment-less URL, or `None` where loading fails, and `join` is
      yarl's `URL.join` of a reference onto a base URL. */
  datatype Env = Env(fetch: string -> Option<Json>, join: (string, string) -> string)

  /** Why resolving or parsing failed: a value of the wrong shape (a `$ref`
      that is not a string, a missing key, a `get` on what is not a dict, a
      value pydantic rejects), a document that did not load, a fragment that
      does not resolve, or recursion too deep (the `RecursionError` of a
      reference cycle). */
  datatype ResolveError =
    | Malformed
    | LoadFailed(url: string)
    | NoTarget(fragment: string)
    | TooDeep

  /** `URL(ref).fragment`: what follows the first `#`, or nothing. */
  function FragmentOf(ref: string): (r: string)
    ensures IndexOf(ref, '#') < |ref| ==> ref == DropFragment(ref) + "#" + r
    ensures IndexOf(ref, '#') == |ref| ==> r == "" && DropFragment(ref) == ref
  {
    var k := IndexOf(ref, '#');
    if k < |ref| then ref[k + 1..] else ""
  }

  /** `s.split("/")[-1]`. */
  function LastSegment(s: string): (r: string)
    ensures '/' !in r
  {
    var parts := Split(s, '/');
    parts[|parts| - 1]
  }

  /** `source.resolve(ref)` followed by `resolve_fragment(ref.fragment)`:
      the URL of the document the reference points into, and the value it
      points at. */
  function Hop(env: Env, base: string, ref: string): (r: Result<(string, Json), ResolveError>)
    ensures r.Ok? ==> r.value.0 == DropFragment(env.join(base, ref))
                      && env.fetch(r.value.0).Some?
                      && Pointer(env.fetch(r.value.0).value, FragmentOf(ref)) == Ok(r.value.1)
    ensures r.Err? ==> r.error.LoadFailed? || r.error.NoTarget?
  {
    var url := DropFragment(env.join(base, ref));
    match env.fetch(url)
    case None => Err(LoadFailed(url))
    case Some(doc) =>
      match Pointer(doc, FragmentOf(ref))
      case Err(e) => Err(NoTarget(e.fragment))
      case Ok(target) => Ok((url, target))
  }

  /** How one reference is followed from a base URL: to the URL of the
      document it points into and the value it points at. */
  type Hopper = (string, string) -> Result<(string, Json), ResolveError>

  /** The resolver follows references through the source cache. */
  function HopOf(env: Env): Hopper {
    (base, ref) => Hop(env, base, ref)
  }

  /** A dict is an object schema when its `type` is `"object"` or its
      `properties` is a dict. */
  predicate IsObjectSchema(fields: Fields) {
    Get(fields, "type") == Some(JStr("object"))
    || (Get(fields, "properties").Some? && Get(fields, "properties").value.JObj?)
  }

  /** What a resolved dict starts from: an object schema is named after its
      location, joined with `_`, and typed `object`. */
  function Seed(fields: Fields, loc: seq<string>): (r: Fields)
    ensures IsObjectSchema(fields) ==>
              Get(r, "name") == Some(JStr(Join("_", loc))) && Get(r, "type") == Some(JStr("object"))
    ensures !IsObjectSchema(fields) ==> r == []
  {
    if IsObjectSchema(fields) then [("name", JStr(Join("_", loc))), ("type", JStr("object"))] else []
  }

  /** Following a string `$ref` from `base`: a failed hop is that failure,
      and otherwise the target is resolved, with `fuel` hops left, at the
      fragment's last segment against its own document. */
  function Followed(hop: Hopper, base: string, ref: string, fuel: nat): Result<Json, ResolveError>
    decreases fuel + 1
  {
    match hop(base, ref)
    case Err(e) => Err(e)
    case Ok(h) => ResolveRef(hop, h.0, h.1, [LastSegment(FragmentOf(ref))], fuel)
  }

  /** `_resolve_ref(obj, loc)` against the source at `base`. A dict with a
      `$ref` is replaced by the resolved target, whose location restarts at
      the fragment's last segment and whose own references are resolved
      against the target's document; its other keys are dropped. Other
      dicts and lists are resolved entry by entry, anything else is
      returned as it is. `hop` follows one reference, and `fuel` bounds
      the number of hops. */
  function ResolveRef(hop: Hopper, base: string, obj: Json, loc: seq<string>, fuel: nat): (r: Result<Json, ResolveError>)
    ensures !obj.JObj? && !obj.JArr? ==> r == Ok(obj)
    decreases fuel + 1, obj, 1, 0
  {
    match obj
    case JObj(fields) =>
      (match Get(fields, "$ref")
       case Some(ref) =>
         if !ref.JStr? then Err(Malformed)
         else if fuel == 0 then Err(TooDeep)
         else Followed(hop, base, ref.s, fuel - 1)
       case None => ResolveFields(hop, base, obj, loc, fuel, 0, Seed(fields, loc)))
    case JArr(items) => ResolveItems(hop, base, obj, loc, fuel, 0, [])
    case _ => Ok(obj)
  }

  /** The loop over a dict's items from the `k`-th on, writing each
      resolved value into `acc` under its key. */
  function ResolveFields(hop: Hopper, base: string, obj: Json, loc: seq<string>, fuel: nat, k: nat, acc: Fields)
    : (r: Result<Json, ResolveError>)
    requires obj.JObj? && k <= |obj.fields|
    ensures r.Ok? ==> r.value.JObj?
    decreases fuel + 1, obj, 0, |obj.fields| - k
  {
    if k == |obj.fields| then Ok(JObj(acc))
    else
      var (key, value) := obj.fields[k];
      match ResolveRef(hop, base, value, loc + [key], fuel)
      case Err(e) => Err(e)
      case Ok(v) => ResolveFields(hop, base, obj, loc, fuel, k + 1, Put(acc, key, v))
  }

  /** The loop over a list's items from the `k`-th on, appending each
      resolved item to `acc`. */
  function ResolveItems(hop: Hopper, base: string, obj: Json, loc: seq<string>, fuel: nat, k: nat, acc: seq<Json>)
    : (r: Result<Json, ResolveError>)
    requires obj.JArr? && k <= |obj.items|
    ensures r.Ok? ==> r.value.JArr? && |r.value.items| == |acc| + |obj.items| - k
    decreases fuel + 1, obj, 0, |obj.items| - k
  {
    if k == |obj.items| then Ok(JArr(acc))
    else
      match ResolveRef(hop, base, obj.items[k], loc + [NatToStr(k)], fuel)
      case Err(e) => Err(e)
      case Ok(v) => ResolveItems(hop, base, obj, loc, fuel, k + 1, acc + [v])
  }

  /** A reference is replaced wholesale: the keys beside `$ref` and the
      location it was found at make no difference. */
  lemma RefReplaces(hop: Hopper, base: string, fields: Fields, loc: seq<string>, fuel: nat, ref: string)
    requires Get(fields, "$ref") == Some(JStr(ref))
    ensures ResolveRef(hop, base, JObj(fields), loc, fuel)
         == ResolveRef(hop, base, JObj([("$ref", JStr(ref))]), [], fuel)
  {
  }

  /** A resolved list keeps its length, and its `i`-th item is the `i`-th
      item resolved at the location extended by `str(i)`. */
  lemma {:induction false} ResolveItemsAt(hop: Hopper, base: string, obj: Json, loc: seq<string>, fuel: nat, k: nat,
                                          acc: seq<Json>, i: nat)
    requires obj.JArr? && k <= i < |obj.items|
    requires ResolveItems(hop, base, obj, loc, fuel, k, acc).Ok?
    ensures ResolveRef(hop, base, obj.items[i], loc + [NatToStr(i)], fuel).Ok?
    ensures ResolveItems(hop, base, obj, loc, fuel, k, acc).value.items[|acc| + i - k]
         == ResolveRef(hop, base, obj.items[i], loc + [NatToStr(i)], fuel).value
    decreases |obj.items| - k
  {
    ItemsStep(hop, base, obj, loc, fuel, k, acc);
    var v := ResolveRef(hop, base, obj.items[k], loc + [NatToStr(k)], fuel).value;
    var acc' := acc + [v];
    if i == k {
      ItemsKeepPrefix(hop, base, obj, loc, fuel, k + 1, acc');
      var items := ResolveItems(hop, base, obj, loc, fuel, k + 1, acc').value.items;
      assert items[|acc|] == items[..|acc'|][|acc|] == acc'[|acc|] == v;
    } else {
      ResolveItemsAt(hop, base, obj, loc, fuel, k + 1, acc', i);
    }
  }

  /** One turn of the list loop: a loop that succeeds resolved its next
      item and goes on with it appended. */
  lemma ItemsStep(hop: Hopper, base: string, obj: Json, loc: seq<string>, fuel: nat, k: nat, acc: seq<Json>)
    requires obj.JArr? && k < |obj.items|
    requires ResolveItems(hop, base, obj, loc, fuel, k, acc).Ok?
    ensures var v := ResolveRef(hop, base, obj.items[k], loc + [NatToStr(k)], fuel);
            v.Ok? && ResolveItems(hop, base, obj, loc, fuel, k, acc)
                     == ResolveItems(hop, base, obj, loc, fuel, k + 1, acc + [v.value])
  {
  }

  /** One turn of the dict loop: a loop that succeeds resolved its next
      value and goes on with it written under its key. */
  lemma FieldsStep(hop: Hopper, base: string, obj: Json, loc: seq<string>, fuel: nat, k: nat, acc: Fields)
    requires obj.JObj? && k < |obj.fields|
    requires ResolveFields(hop, base, obj, loc, fuel, k, acc).Ok?
    ensures var v := ResolveRef(hop, base, obj.fields[k].1, loc + [obj.fields[k].0], fuel);
            v.Ok? && ResolveFields(hop, base, obj, loc, fuel, k, acc)
                     == ResolveFields(hop, base, obj, loc, fuel, k + 1, Put(acc, obj.fields[k].0, v.value))
  {
  }

  /** What is already in the accumulator stays at the front. */
  lemma {:induction false} ItemsKeepPrefix(hop: Hopper, base: string, obj: Json, loc: seq<string>, fuel: nat, k: nat,
                                           acc: seq<Json>)
    requires obj.JArr? && k <= |obj.items|
    requires ResolveItems(hop, base, obj, loc, fuel, k, acc).Ok?
    ensures ResolveItems(hop, base, obj, loc, fuel, k, acc).value.items[..|acc|] == acc
    decreases |obj.items| - k
  {
    if k < |obj.items| {
      ItemsStep(hop, base, obj, loc, fuel, k, acc);
      var v := ResolveRef(hop, base, obj.items[k], loc + [NatToStr(k)], fuel);
      ItemsKeepPrefix(hop, base, obj, loc, fuel, k + 1, acc + [v.value]);
      assert (acc + [v.value])[..|acc|] == acc;
    }
  }

  /** A resolved dict has exactly the keys of the accumulator and of the
      items still to come, and a key none of those items carries keeps the
      accumulator's value. */
  lemma {:induction false} ResolveFieldsKeys(hop: Hopper, base: string, obj: Json, loc: seq<string>, fuel: nat, k: nat,
                                             acc: Fields, key: string)
    requires obj.JObj? && k <= |obj.fields|
    requires ResolveFields(hop, base, obj, loc, fuel, k, acc).Ok?
    ensures var r := ResolveFields(hop, base, obj, loc, fuel, k, acc).value.fields;
            (HasKey(r, key) <==> HasKey(acc, key) || HasKey(obj.fields[k..], key))
            && (!HasKey(obj.fields[k..], key) ==> Get(r, key) == Get(acc, key))
    decreases |obj.fields| - k
  {
    if k < |obj.fields| {
      FieldsStep(hop, base, obj, loc, fuel, k, acc);
      var (name, value) := obj.fields[k];
      var v := ResolveRef(hop, base, value, loc + [name], fuel).value;
      var acc' := Put(acc, name, v);
      ResolveFieldsKeys(hop, base, obj, loc, fuel, k + 1, acc', key);
      PutKeys(acc, name, v);
      assert obj.fields[k..] == [obj.fields[k]] + obj.fields[k + 1..];
      if !HasKey(obj.fields[k..], key) {
        assert !HasKey(obj.fields[k + 1..], key) && name != key;
        PutEntries(acc, name, v);
        PutOther(acc, name, v, key);
      }
      if HasKey(obj.fields[k..], key) && !HasKey(obj.fields[k + 1..], key) {
        assert name == key;
      }
    }
  }

  /** `Put` under one key leaves `get` of every other key alone. */
  lemma {:induction false} PutOther(fields: Fields, name: string, v: Json, key: string)
    requires name != key
    ensures Get(Put(fields, name, v), key) == Get(fields, key)
    decreases |fields|
  {
    if |fields| > 0 && fields[0].0 != name {
      PutOther(fields[1..], name, v, key);
    }
  }

  /** An object schema, once resolved, carries its location as its name
      unless it names itself, is typed `object` unless it says otherwise,
      and keeps every key it had. */
  lemma ObjectSchemaNamed(hop: Hopper, base: string, fields: Fields, loc: seq<string>, fuel: nat)
    requires !HasKey(fields, "$ref") && IsObjectSchema(fields)
    requires ResolveRef(hop, base, JObj(fields), loc, fuel).Ok?
    ensures var r := ResolveRef(hop, base, JObj(fields), loc, fuel).value;
            r.JObj?
            && (!HasKey(fields, "name") ==> Get(r.fields, "name") == Some(JStr(Join("_", loc))))
            && (!HasKey(fields, "type") ==> Get(r.fields, "type") == Some(JStr("object")))
            && (forall key :: HasKey(fields, key) ==> HasKey(r.fields, key))
  {
    GetSpec(fields, "$ref");
    var obj := JObj(fields);
    assert obj.fields[0..] == fields;
    ResolveFieldsKeys(hop, base, obj, loc, fuel, 0, Seed(fields, loc), "name");
    ResolveFieldsKeys(hop, base, obj, loc, fuel, 0, Seed(fields, loc), "type");
    forall key | HasKey(fields, key)
      ensures HasKey(ResolveRef(hop, base, obj, loc, fuel).value.fields, key)
    {
      ResolveFieldsKeys(hop, base, obj, loc, fuel, 0, Seed(fields, loc), key);
    }
  }

  /** Following a reference: the resolved target, located at the
      fragment's last segment and resolved against its own document. */
  /** A dict whose `$ref` is a string, resolved with fuel to spare, is the
      reference followed; its other keys and its location play no part. */
  lemma RefFollowed(hop: Hopper, base: string, obj: Json, loc: seq<string>, fuel: nat, ref: string)
    requires obj.JObj? && Get(obj.fields, "$ref") == Some(JStr(ref)) && 0 < fuel
    ensures ResolveRef(hop, base, obj, loc, fuel) == Followed(hop, base, ref, fuel - 1)
  {
  }

  /** A `$ref` that is not a string is malformed, and a string `$ref`
      with no hops left is too deep. */
  lemma RefStops(hop: Hopper, base: string, obj: Json, loc: seq<string>, fuel: nat)
    requires obj.JObj? && Get(obj.fields, "$ref").Some?
    ensures !Get(obj.fields, "$ref").value.JStr? ==> ResolveRef(hop, base, obj, loc, fuel) == Err(Malformed)
    ensures Get(obj.fields, "$ref").value.JStr? && fuel == 0 ==> ResolveRef(hop, base, obj, loc, fuel) == Err(TooDeep)
  {
  }

  /** The context the resolver runs in: the source cache and the current
      source's URL. */
  class Resolver {
    const env: Env
    const sources: SourceCache
    var current: string

    constructor(env: Env, sources: SourceCache, root: string)
      ensures this.env == env && this.sources == sources && current == root
    {
      this.env := env;
      this.sources := sources;
      current := root;
    }

    /** The cache is well formed and holds only what `fetch` yields. */
    predicate Coherent()
      reads sources
    {
      sources.Valid() && forall u :: u in sources.cache ==> env.fetch(u) == Some(sources.cache[u].data)
    }

    /** `source.resolve(ref)` from the source at `base`, then
        `resolve_fragment(ref.fragment)`; the cache may gain the loaded
        document. */
    method Load(base: string, ref: string) returns (r: Result<(string, Json), ResolveError>)
      modifies sources
      requires Coherent()
      ensures Coherent() && r == Hop(env, base, ref)
    {
      var joined := env.join(base, ref);
      var u := DropFragment(joined);
      var s := sources.Resolve(joined, env.fetch(u));
      if s.Err? {
        return Err(LoadFailed(u));
      }
      var target := ResolveFragment(s.value.data, FragmentOf(ref));
      if target.Err? {
        return Err(NoTarget(target.error.fragment));
      }
      r := Ok((u, target.value));
    }

    /** `_resolve_ref`: the current source is set to each referenced
        document while its target is resolved and restored afterwards. */
    method Resolve(obj: Json, loc: seq<string>, fuel: nat) returns (r: Result<Json, ResolveError>)
      modifies this, sources
      requires Coherent()
      ensures Coherent() && current == old(current)
      ensures r == ResolveRef(HopOf(env), old(current), obj, loc, fuel)
      decreases fuel + 1, obj, 2
    {
      if obj.JObj? && Get(obj.fields, "$ref").Some? {
        var ref := Get(obj.fields, "$ref").value;
        RefStops(HopOf(env), current, obj, loc, fuel);
        if ref.JStr? && fuel > 0 {
          RefFollowed(HopOf(env), current, obj, loc, fuel, ref.s);
        }
        r := ResolveReference(obj, ref, fuel);
      } else if obj.JObj? {
        r := ResolveDict(obj, loc, fuel);
      } else if obj.JArr? {
        r := ResolveList(obj, loc, fuel);
      } else {
        r := Ok(obj);
      }
    }

    /** The `$ref` of a dict: one that is not a string is malformed, and
        with no hops left the recursion is too deep. */
    method ResolveReference(ghost obj: Json, ref: Json, fuel: nat) returns (r: Result<Json, ResolveError>)
      modifies this, sources
      requires Coherent()
      ensures Coherent() && current == old(current)
      ensures r == if !ref.JStr? then Err(Malformed) else if fuel == 0 then Err(TooDeep)
                   else Followed(HopOf(env), old(current), ref.s, fuel - 1)
      decreases fuel + 1, obj, 1
    {
      if !ref.JStr? {
        return Err(Malformed);
      }
      if fuel == 0 {
        return Err(TooDeep);
      }
      r := Follow(ref.s, fuel - 1);
    }

    /** Following a reference: the current source is set to the referenced
        document while its target is resolved, and restored afterwards. */
    method Follow(ref: string, fuel: nat) returns (r: Result<Json, ResolveError>)
      modifies this, sources
      requires Coherent()
      ensures Coherent() && current == old(current)
      ensures r == Followed(HopOf(env), old(current), ref, fuel)
      decreases fuel + 1
    {
      var base := current;
      var h := Load(base, ref);
      if h.Err? {
        return Err(h.error);
      }
      current := h.value.0;
      r := Resolve(h.value.1, [LastSegment(FragmentOf(ref))], fuel);
      current := base;
    }

    /** The loop over a dict without `$ref`: each value is resolved at the
        location extended by its key and written under that key, on top
        of the dict's seed. */
    method ResolveDict(obj: Json, loc: seq<string>, fuel: nat) returns (r: Result<Json, ResolveError>)
      modifies this, sources
      requires obj.JObj? && Coherent()
      ensures Coherent() && current == old(current)
      ensures r == ResolveFields(HopOf(env), old(current), obj, loc, fuel, 0, Seed(obj.fields, loc))
      decreases fuel + 1, obj, 1
    {
      ghost var base := current;
      var fields := obj.fields;
      var acc := Seed(fields, loc);
      for i := 0 to |fields|
        invariant Coherent() && current == base
        invariant ResolveFields(HopOf(env), base, obj, loc, fuel, i, acc)
               == ResolveFields(HopOf(env), base, obj, loc, fuel, 0, Seed(fields, loc))
      {
        var (key, value) := fields[i];
        var v := Resolve(value, loc + [key], fuel);
        if v.Err? {
          return Err(v.error);
        }
        acc := Put(acc, key, v.value);
      }
      r := Ok(JObj(acc));
    }

    /** The loop over a list: each item is resolved at the location
        extended by its index and appended. */
    method ResolveList(obj: Json, loc: seq<string>, fuel: nat) returns (r: Result<Json, ResolveError>)
      modifies this, sources
      requires obj.JArr? && Coherent()
      ensures Coherent() && current == old(current)
      ensures r == ResolveItems(HopOf(env), old(current), obj, loc, fuel, 0, [])
      decreases fuel + 1, obj, 1
    {
      ghost var base := current;
      var acc := [];
      for i := 0 to |obj.items|
        invariant Coherent() && current == base
        invariant ResolveItems(HopOf(env), base, obj, loc, fuel, i, acc)
               == ResolveItems(HopOf(env), base, obj, loc, fuel, 0, [])
      {
        var v := Resolve(obj.items[i], loc + [NatToStr(i)], fuel);
        if v.Err? {
          return Err(v.error);
        }
        acc := acc + [v.value];
      }
      r := Ok(JArr(acc));
    }
  }
}
