/** JSON values as the browser holds them once decoded. Objects keep their fields in insertion
    order, which is the order `Object.keys` and object spread use for string keys; JavaScript
    would list integer-like keys first, and no object the pages build has such a key. Numbers
    are kept exactly (no floating point). */
module Json {
  import opened Wrappers

  datatype Json =
    | JNull
    | JBool(b: bool)
    | JNumber(x: real)
    | JString(s: string)
    | JArray(items: seq<Json>)
    | JObject(fields: seq<Field>)

  datatype Field = Field(key: string, value: Json)

  type Object = seq<Field>

  /** `Object.keys(o)`. */
  function Keys(o: Object): (ks: seq<string>)
    ensures |ks| == |o|
    ensures forall i :: 0 <= i < |o| ==> ks[i] == o[i].key
  {
    if o == [] then [] else [o[0].key] + Keys(o[1..])
  }

  /** `o[k]`, with `None` for a missing key. */
  function Get(o: Object, k: string): (r: Option<Json>)
    ensures r.None? <==> k !in Keys(o)
  {
    if o == [] then None
    else if o[0].key == k then Some(o[0].value)
    else Get(o[1..], k)
  }

  /** `o[k] = v`: an existing key keeps its position, a new key goes last. */
  function Set(o: Object, k: string, v: Json): (r: Object)
  {
    if k in Keys(o) then Replace(o, k, v) else o + [Field(k, v)]
  }

  function Replace(o: Object, k: string, v: Json): (r: Object)
    ensures Keys(r) == Keys(o)
  {
    if o == [] then []
    else [if o[0].key == k then Field(k, v) else o[0]] + Replace(o[1..], k, v)
  }

  lemma {:induction false} ReplaceGet(o: Object, k: string, v: Json, j: string)
    ensures Get(Replace(o, k, v), j) == if j == k && k in Keys(o) then Some(v) else Get(o, j)
  {
    if o != [] {
      var r := Replace(o, k, v);
      assert r[1..] == Replace(o[1..], k, v);
      assert Keys(o) == [o[0].key] + Keys(o[1..]);
      ReplaceGet(o[1..], k, v, j);
    }
  }

  lemma {:induction false} AppendGet(o: Object, k: string, v: Json, j: string)
    requires k !in Keys(o)
    ensures Get(o + [Field(k, v)], j) == if j == k then Some(v) else Get(o, j)
  {
    if o != [] {
      assert (o + [Field(k, v)])[1..] == o[1..] + [Field(k, v)];
      assert Keys(o) == [o[0].key] + Keys(o[1..]);
      AppendGet(o[1..], k, v, j);
    }
  }

  /** Writing a key changes what that key reads and nothing else, and keeps the key order. */
  lemma SetGet(o: Object, k: string, v: Json, j: string)
    ensures Get(Set(o, k, v), j) == if j == k then Some(v) else Get(o, j)
    ensures Keys(Set(o, k, v)) == if k in Keys(o) then Keys(o) else Keys(o) + [k]
  {
    if k in Keys(o) { ReplaceGet(o, k, v, j); } else { AppendGet(o, k, v, j); }
  }

  lemma {:induction false} KeysConcat(a: Object, b: Object)
    ensures Keys(a + b) == Keys(a) + Keys(b)
  {
    if a != [] {
      assert (a + b)[1..] == a[1..] + b;
      KeysConcat(a[1..], b);
    }
  }

  /** Reading an object whose first field is `f`. */
  lemma GetCons(f: Field, o: Object, k: string)
    ensures Get([f] + o, k) == if f.key == k then Some(f.value) else Get(o, k)
  {
    assert ([f] + o)[1..] == o;
  }

  /** Reading a concatenation of field lists finds the first list's field first. */
  lemma {:induction false} GetConcat(a: Object, b: Object, k: string)
    ensures Get(a + b, k) == if k in Keys(a) then Get(a, k) else Get(b, k)
  {
    if a != [] {
      assert (a + b)[0] == a[0];
      if a[0].key != k {
        assert (a + b)[1..] == a[1..] + b;
        assert Keys(a) == [a[0].key] + Keys(a[1..]);
        assert k in Keys(a) <==> k in Keys(a[1..]);
        GetConcat(a[1..], b, k);
      } else {
        assert Keys(a)[0] == k;
      }
    } else {
      assert a + b == b;
    }
  }
}
