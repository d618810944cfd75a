/** JSON values as the adapter sees them after `json.loads`. Objects keep
    their keys in insertion order, as Python dicts do. */
module Json {
  import opened Wrappers

  datatype Json =
    | JNull
    | JBool(b: bool)
    | JInt(n: int)
    | JStr(s: string)
    | JArr(items: seq<Json>)
    | JObj(fields: seq<(string, Json)>)

  type Fields = seq<(string, Json)>

  predicate HasKey<V>(fields: seq<(string, V)>, key: string) {
    exists i :: 0 <= i < |fields| && fields[i].0 == key
  }

  /** `d.get(key)`: the value stored under the first occurrence of `key`. */
  function Get(fields: Fields, key: string): Option<Json> {
    if |fields| == 0 then None
    else if fields[0].0 == key then Some(fields[0].1)
    else Get(fields[1..], key)
  }

  /** `j.get(key, default)` on what must be a dict: `err` stands for the
      error any other value raises; a missing key gives `default`. */
  function DictGet<E>(j: Json, key: string, default: Json, err: E): (r: Result<Json, E>)
    ensures r.Err? <==> !j.JObj?
    ensures r.Err? ==> r.error == err
    ensures j.JObj? && !HasKey(j.fields, key) ==> r == Ok(default)
    ensures r.Ok? && HasKey(j.fields, key) ==> (key, r.value) in j.fields
  {
    if !j.JObj? then Err(err)
    else
      GetSpec(j.fields, key);
      match Get(j.fields, key)
      case Some(v) => Ok(v)
      case None => Ok(default)
  }

  /** `get` finds a value exactly when the key occurs, and what it finds is
      stored under that key. */
  lemma {:induction false} GetSpec(fields: Fields, key: string)
    ensures Get(fields, key).Some? <==> HasKey(fields, key)
    ensures Get(fields, key).Some? ==> (key, Get(fields, key).value) in fields
  {
    if |fields| > 0 {
      GetSpec(fields[1..], key);
      if HasKey(fields, key) && fields[0].0 != key {
        var i :| 0 <= i < |fields| && fields[i].0 == key;
        assert fields[1..][i - 1].0 == key;
      }
      if HasKey(fields[1..], key) {
        var i :| 0 <= i < |fields[1..]| && fields[1..][i].0 == key;
        assert fields[i + 1].0 == key;
      }
    }
  }

  /** A key whose first occurrence in `decl` is at `i` is found there in
      `decl + rest`, whatever `rest` holds. */
  lemma {:induction false} GetIn(decl: Fields, rest: Fields, i: nat)
    requires i < |decl|
    requires forall j :: 0 <= j < i ==> decl[j].0 != decl[i].0
    ensures Get(decl + rest, decl[i].0) == Some(decl[i].1)
  {
    if i > 0 {
      assert (decl + rest)[1..] == decl[1..] + rest;
      GetIn(decl[1..], rest, i - 1);
    }
  }

  /** `d[key] = v`: overwrite the first entry under `key` in place, or
      append one. */
  function Put<V>(fields: seq<(string, V)>, key: string, v: V): (r: seq<(string, V)>)
    ensures |r| == |fields| || |r| == |fields| + 1
    decreases |fields|
  {
    if fields == [] then [(key, v)]
    else if fields[0].0 == key then [(key, v)] + fields[1..]
    else [fields[0]] + Put(fields[1..], key, v)
  }

  /** After `Put`, the key reads back the new value and every other key
      reads as before. */
  lemma {:induction false} PutGet(fields: Fields, key: string, v: Json)
    ensures Get(Put(fields, key, v), key) == Some(v)
    ensures forall k :: k != key ==> Get(Put(fields, key, v), k) == Get(fields, k)
    decreases |fields|
  {
    if fields != [] && fields[0].0 != key {
      PutGet(fields[1..], key, v);
      var r := Put(fields, key, v);
      assert r[0] == fields[0] && r[1..] == Put(fields[1..], key, v);
    }
  }

  /** No key occurs twice, as in a Python dict. */
  predicate UniqueKeys<V>(fields: seq<(string, V)>) {
    forall i, j :: 0 <= i < j < |fields| ==> fields[i].0 != fields[j].0
  }

  /** The index of the first entry under `key`, or the length. */
  function FirstKey<V>(fields: seq<(string, V)>, key: string): (i: nat)
    ensures i <= |fields|
    ensures i < |fields| ==> fields[i].0 == key
    ensures forall j :: 0 <= j < i ==> fields[j].0 != key
    decreases |fields|
  {
    if fields == [] then 0 else if fields[0].0 == key then 0 else 1 + FirstKey(fields[1..], key)
  }

  /** `Put` overwrites the first entry under the key where it is, or
      appends. */
  lemma {:induction false} PutShape<V>(fields: seq<(string, V)>, key: string, v: V)
    ensures var i := FirstKey(fields, key);
            Put(fields, key, v) == if i < |fields| then fields[..i] + [(key, v)] + fields[i + 1..]
                                   else fields + [(key, v)]
    decreases |fields|
  {
    if fields != [] && fields[0].0 != key {
      PutShape(fields[1..], key, v);
      var i := FirstKey(fields[1..], key);
      if i < |fields| - 1 {
        assert [fields[0]] + (fields[1..][..i] + [(key, v)] + fields[1..][i + 1..])
               == fields[..i + 1] + [(key, v)] + fields[i + 2..];
      } else {
        assert [fields[0]] + (fields[1..] + [(key, v)]) == fields + [(key, v)];
      }
    }
  }

  /** What `Put` does to the entries: the new one is there, every other
      entry is an old one, and every old entry under another key stays. */
  lemma PutEntries<V>(fields: seq<(string, V)>, key: string, v: V)
    ensures (key, v) in Put(fields, key, v)
    ensures forall e :: e in Put(fields, key, v) ==> e == (key, v) || e in fields
    ensures forall e :: e in fields && e.0 != key ==> e in Put(fields, key, v)
  {
    PutShape(fields, key, v);
    var i := FirstKey(fields, key);
    var r := Put(fields, key, v);
    if i < |fields| {
      assert r == fields[..i] + [(key, v)] + fields[i + 1..];
      assert |r| == |fields| && r[i] == (key, v);
      forall e | e in r
        ensures e == (key, v) || e in fields
      {
        var j :| 0 <= j < |r| && r[j] == e;
        if j != i {
          assert r[j] == fields[j];
        }
      }
      forall e | e in fields && e.0 != key
        ensures e in r
      {
        var j :| 0 <= j < |fields| && fields[j] == e;
        assert j != i;
        assert r[j] == fields[j];
      }
    } else {
      assert r == fields + [(key, v)];
      assert r[|fields|] == (key, v);
    }
  }

  /** A new key is appended at the end; an entry already in a dict
      changes nothing. */
  lemma PutAppendOrKeep<V>(fields: seq<(string, V)>, key: string, v: V)
    ensures !HasKey(fields, key) ==> Put(fields, key, v) == fields + [(key, v)]
    ensures UniqueKeys(fields) && (key, v) in fields ==> Put(fields, key, v) == fields
  {
    PutShape(fields, key, v);
    var i := FirstKey(fields, key);
    if i < |fields| {
      assert fields[i].0 == key;
      assert HasKey(fields, key);
    }
    if UniqueKeys(fields) && (key, v) in fields {
      var j :| 0 <= j < |fields| && fields[j] == (key, v);
      assert !(j < i);
      assert !(i < j);
      assert fields[i] == (key, v);
      assert fields[..i] + [(key, v)] + fields[i + 1..] == fields;
    }
  }

  /** `Put` adds its key to the keys and keeps them unique. */
  lemma PutKeys<V>(fields: seq<(string, V)>, key: string, v: V)
    ensures forall k :: HasKey(Put(fields, key, v), k) <==> HasKey(fields, k) || k == key
    ensures UniqueKeys(fields) ==> UniqueKeys(Put(fields, key, v))
  {
    PutShape(fields, key, v);
    var i := FirstKey(fields, key);
    if i < |fields| {
      assert HasKey(fields, key) by { assert fields[i].0 == key; }
      OverwriteKeys(fields, i, (key, v));
    } else {
      AppendKeys(fields, key, v);
    }
  }

  /** Replacing an entry by one under the same key keeps the keys. */
  lemma OverwriteKeys<V>(fields: seq<(string, V)>, i: nat, e: (string, V))
    requires i < |fields| && fields[i].0 == e.0
    ensures var r := fields[..i] + [e] + fields[i + 1..];
            (forall k :: HasKey(r, k) <==> HasKey(fields, k)) && (UniqueKeys(fields) ==> UniqueKeys(r))
  {
    var r := fields[..i] + [e] + fields[i + 1..];
    assert |r| == |fields|;
    forall j | 0 <= j < |r|
      ensures r[j].0 == fields[j].0
    {
      if j != i {
        assert r[j] == fields[j];
      }
    }
    forall k
      ensures HasKey(r, k) <==> HasKey(fields, k)
    {
      if HasKey(r, k) {
        var j :| 0 <= j < |r| && r[j].0 == k;
        assert fields[j].0 == k;
      }
      if HasKey(fields, k) {
        var j :| 0 <= j < |fields| && fields[j].0 == k;
        assert r[j].0 == k;
      }
    }
  }

  /** Appending an entry under a new key adds that key. */
  lemma AppendKeys<V>(fields: seq<(string, V)>, key: string, v: V)
    requires forall j :: 0 <= j < |fields| ==> fields[j].0 != key
    ensures var r := fields + [(key, v)];
            (forall k :: HasKey(r, k) <==> HasKey(fields, k) || k == key) && (UniqueKeys(fields) ==> UniqueKeys(r))
  {
    var r := fields + [(key, v)];
    assert r[|fields|].0 == key;
    forall k
      ensures HasKey(r, k) <==> HasKey(fields, k) || k == key
    {
      if HasKey(r, k) && k != key {
        var j :| 0 <= j < |r| && r[j].0 == k;
        assert fields[j].0 == k;
      }
      if HasKey(fields, k) {
        var j :| 0 <= j < |fields| && fields[j].0 == k;
        assert r[j].0 == k;
      }
    }
  }

  /** The entries whose key is not in `keys`, in order: what pydantic keeps
      as extra fields once the declared ones are taken out. */
  function Without(fields: Fields, keys: set<string>): Fields {
    if |fields| == 0 then []
    else if fields[0].0 in keys then Without(fields[1..], keys)
    else [fields[0]] + Without(fields[1..], keys)
  }

  /** `Without` keeps exactly the entries whose key is outside `keys`. */
  lemma {:induction false} WithoutSpec(fields: Fields, keys: set<string>)
    ensures |Without(fields, keys)| <= |fields|
    ensures forall e :: e in Without(fields, keys) <==> e in fields && e.0 !in keys
  {
    if |fields| > 0 {
      WithoutSpec(fields[1..], keys);
      assert fields == [fields[0]] + fields[1..];
    }
  }

  predicate KeysOutside(fields: Fields, keys: set<string>) {
    forall i :: 0 <= i < |fields| ==> fields[i].0 !in keys
  }

  /** Removing keys that do not occur changes nothing. */
  lemma {:induction false} WithoutNone(fields: Fields, keys: set<string>)
    requires KeysOutside(fields, keys)
    ensures Without(fields, keys) == fields
  {
    if |fields| > 0 {
      WithoutNone(fields[1..], keys);
    }
  }

  /** Taking out keys of a prefix made only of those keys leaves the rest. */
  lemma {:induction false} WithoutAppend(prefix: Fields, rest: Fields, keys: set<string>)
    requires forall i :: 0 <= i < |prefix| ==> prefix[i].0 in keys
    requires KeysOutside(rest, keys)
    ensures Without(prefix + rest, keys) == rest
  {
    if |prefix| > 0 {
      assert (prefix + rest)[1..] == prefix[1..] + rest;
      WithoutAppend(prefix[1..], rest, keys);
    } else {
      assert prefix + rest == rest;
      WithoutNone(rest, keys);
    }
  }

  /** Python truthiness of a decoded value. */
  predicate Truthy(j: Json) {
    match j
    case JNull => false
    case JBool(b) => b
    case JInt(n) => n != 0
    case JStr(s) => s != ""
    case JArr(items) => items != []
    case JObj(fields) => fields != []
  }
}
