/** src/common/interceptors/sensitive-fields.interceptor.ts: removal of hidden fields from every response. */
module Responses {
  import opened Common

  /** What a handler returns: no value, null, a primitive, an array, or a plain object as its own entries in order. */
  datatype Data =
    | Undefined
    | NullData
    | Primitive(text: string)
    | List(items: seq<Data>)
    | Record(fields: seq<Field>)

  datatype Field = Field(key: string, value: Data)

  predicate Hidden(key: string) {
    key == "password"
  }

  /** Assigning to `__proto__` sets the prototype of the result and stores no entry. */
  predicate Kept(key: string) {
    !Hidden(key) && key != "__proto__"
  }

  function Strip(data: Data): Data
    decreases data, if data.Record? then |data.fields| + 1 else 0
  {
    match data
    case List(items) => List(seq(|items|, k requires 0 <= k < |items| => Strip(items[k])))
    case Record(fields) => Record(StripFields(data, |fields|))
    case _ => data
  }

  /** The entries that the first `n` fields leave in the result. */
  function StripFields(data: Data, n: nat): seq<Field>
    requires data.Record? && n <= |data.fields|
    decreases data, n
  {
    if n == 0 then []
    else
      var f := data.fields[n - 1];
      StripFields(data, n - 1) + (if Kept(f.key) then [Field(f.key, Strip(f.value))] else [])
  }

  /** An object lists each of its keys once, so an assignment to `result[key]` adds an entry. */
  method StripData(data: Data) returns (r: Data)
    ensures r == Strip(data)
    decreases data
  {
    match data
    case List(items) =>
      var stripped: seq<Data> := [];
      for k := 0 to |items|
        invariant |stripped| == k && forall i :: 0 <= i < k ==> stripped[i] == Strip(items[i])
      {
        var item := StripData(items[k]);
        stripped := stripped + [item];
      }
      return List(stripped);
    case Record(fields) =>
      var result: seq<Field> := [];
      for n := 0 to |fields|
        invariant result == StripFields(data, n)
      {
        if !Hidden(fields[n].key) {
          var value := StripData(fields[n].value);
          if fields[n].key != "__proto__" {
            result := result + [Field(fields[n].key, value)];
          }
        }
      }
      return Record(result);
    case _ =>
      return data;
  }

  // ── What a reader of the response can reach ────────────────────────────────

  datatype Hop = Key(name: string) | Index(position: nat)

  /** The value under a key. */
  function ValueAt(fields: seq<Field>, key: string): Option<Data>
    decreases |fields|
  {
    if fields == [] then None
    else
      var n := |fields| - 1;
      if fields[n].key == key then Some(fields[n].value) else ValueAt(fields[..n], key)
  }

  function Take(data: Data, hop: Hop): Option<Data> {
    match (data, hop)
    case (List(items), Index(k)) => if k < |items| then Some(items[k]) else None
    case (Record(fields), Key(name)) => ValueAt(fields, name)
    case _ => None
  }

  function Follow(data: Data, path: seq<Hop>): Option<Data>
    decreases |path|
  {
    if path == [] then Some(data)
    else
      var next := Take(data, path[0]);
      if next.None? then None else Follow(next.value, path[1..])
  }

  predicate Open(path: seq<Hop>) {
    forall k :: 0 <= k < |path| && path[k].Key? ==> Kept(path[k].name)
  }

  lemma {:induction false} StripFieldsValueAt(data: Data, n: nat, key: string)
    requires data.Record? && n <= |data.fields|
    ensures var before := ValueAt(data.fields[..n], key);
      ValueAt(StripFields(data, n), key) == if Kept(key) && before.Some? then Some(Strip(before.value)) else None
    decreases n
  {
    if n > 0 {
      var f, init := data.fields[n - 1], StripFields(data, n - 1);
      StripFieldsValueAt(data, n - 1, key);
      assert data.fields[..n][..n - 1] == data.fields[..n - 1];
      if Kept(f.key) {
        assert (init + [Field(f.key, Strip(f.value))])[..|init|] == init;
      } else {
        assert StripFields(data, n) == init;
      }
    }
  }

  lemma StripTakes(data: Data, hop: Hop)
    ensures var before := Take(data, hop);
      Take(Strip(data), hop) == if (hop.Key? ==> Kept(hop.name)) && before.Some? then Some(Strip(before.value))
        else None
  {
    if data.Record? && hop.Key? {
      StripFieldsValueAt(data, |data.fields|, hop.name);
      assert data.fields[..|data.fields|] == data.fields;
    }
  }

  /**
   * Exactly what stripping does at every depth: a path through a hidden key leads nowhere, and
   * every other path leads to what it led to before, stripped in turn.
   */
  lemma {:induction false} StripKeepsExactlyOpenPaths(data: Data, path: seq<Hop>)
    ensures var before := Follow(data, path);
      Follow(Strip(data), path) == if Open(path) && before.Some? then Some(Strip(before.value)) else None
    decreases |path|
  {
    if path != [] {
      StripTakes(data, path[0]);
      var next := Take(data, path[0]);
      if (path[0].Key? ==> Kept(path[0].name)) && next.Some? {
        StripKeepsExactlyOpenPaths(next.value, path[1..]);
        assert Open(path) <==> Open(path[1..]) by {
          assert forall k :: 1 <= k < |path| ==> path[k] == path[1..][k - 1];
        }
      }
    }
  }

  /**
   * In names: nothing is reachable through `password`, and what no `password` or `__proto__` hides
   * stays where it was.
   */
  lemma PasswordsAreGone(data: Data, path: seq<Hop>)
    ensures Key("password") in path ==> Follow(Strip(data), path) == None
    ensures Key("password") !in path && Key("__proto__") !in path && Follow(data, path).Some? ==>
      Follow(Strip(data), path) == Some(Strip(Follow(data, path).value))
  {
    StripKeepsExactlyOpenPaths(data, path);
    if Key("password") in path {
      var k :| 0 <= k < |path| && path[k] == Key("password");
      assert path[k].Key? && !Kept(path[k].name);
    }
  }

  /** Values that are neither arrays nor objects, and the length of arrays, stay as they are. */
  lemma PlainValuesStay(data: Data)
    ensures !data.List? && !data.Record? ==> Strip(data) == data
    ensures data.List? ==> Strip(data).List? && |Strip(data).items| == |data.items|
    ensures data.Record? ==> Strip(data).Record?
  {
  }

  lemma {:induction false} StripFieldsAgain(data: Data, n: nat)
    requires data.Record? && n <= |data.fields|
    requires forall k :: 0 <= k < n ==> Strip(Strip(data.fields[k].value)) == Strip(data.fields[k].value)
    ensures var once := Record(StripFields(data, n)); StripFields(once, |once.fields|) == once.fields
    decreases n
  {
    if n > 0 {
      var f, init := data.fields[n - 1], Record(StripFields(data, n - 1));
      StripFieldsAgain(data, n - 1);
      if Kept(f.key) {
        var last := Field(f.key, Strip(f.value));
        SamePrefixSameStrip(init, Record(init.fields + [last]), |init.fields|);
      } else {
        assert StripFields(data, n) == init.fields;
      }
    }
  }

  lemma {:induction false} SamePrefixSameStrip(a: Data, b: Data, n: nat)
    requires a.Record? && b.Record? && n <= |a.fields| && n <= |b.fields| && a.fields[..n] == b.fields[..n]
    ensures StripFields(a, n) == StripFields(b, n)
    decreases n
  {
    if n > 0 {
      assert a.fields[n - 1] == a.fields[..n][n - 1] && b.fields[n - 1] == b.fields[..n][n - 1];
      assert a.fields[..n - 1] == a.fields[..n][..n - 1] && b.fields[..n - 1] == b.fields[..n][..n - 1];
      SamePrefixSameStrip(a, b, n - 1);
    }
  }

  lemma {:induction false} StripIsIdempotent(data: Data)
    ensures Strip(Strip(data)) == Strip(data)
    decreases data
  {
    match data
    case List(items) =>
      forall k | 0 <= k < |items|
        ensures Strip(Strip(items[k])) == Strip(items[k])
      {
        StripIsIdempotent(items[k]);
      }
      assert Strip(Strip(data)).items == Strip(data).items;
    case Record(fields) =>
      forall k | 0 <= k < |fields|
        ensures Strip(Strip(fields[k].value)) == Strip(fields[k].value)
      {
        StripIsIdempotent(fields[k].value);
      }
      StripFieldsAgain(data, |fields|);
    case _ =>
  }
}
