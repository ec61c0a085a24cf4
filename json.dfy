/** JSON documents as values, with the three ways the core reads them:
    go-simplejson's `Get`/`String`/`Bool`/`Int`/`MustMap`, encoding/json's
    matching of object members to struct fields, and encoding/json's writing
    of a Go map (keys in increasing order). */
module Json {
  import opened Wrappers
  import opened Strings

  /** Numbers are integers here; an object keeps its members in document order. */
  datatype Json =
    | JNull
    | JBool(b: bool)
    | JNumber(n: int)
    | JString(str: string)
    | JArray(items: seq<Json>)
    | JObject(fields: seq<(string, Json)>)

  /** The value of the last member named `k`: decoding an object into a Go map
      keeps the last of several equal keys. */
  function Lookup(fields: seq<(string, Json)>, k: string): (r: Option<Json>)
    ensures r.None? <==> forall i :: 0 <= i < |fields| ==> fields[i].0 != k
    ensures r.Some? ==> (k, r.value) in fields
  {
    if |fields| == 0 then None
    else if fields[|fields| - 1].0 == k then Some(fields[|fields| - 1].1)
    else
      var r := Lookup(fields[..|fields| - 1], k);
      assert r.Some? ==> (k, r.value) in fields by {
        if r.Some? {
          var i :| 0 <= i < |fields| - 1 && fields[..|fields| - 1][i] == (k, r.value);
          assert fields[i] == (k, r.value);
        }
      }
      r
  }

  /** Member names of an object. */
  function Names(fields: seq<(string, Json)>): set<string>
  {
    set i | 0 <= i < |fields| :: fields[i].0
  }

  /** An object decoded into a Go `map[string]interface{}`. */
  function ToMap(fields: seq<(string, Json)>): (m: map<string, Json>)
    ensures forall k :: k in m <==> Lookup(fields, k).Some?
    ensures forall k :: k in m ==> Some(m[k]) == Lookup(fields, k)
  {
    assert forall k :: Lookup(fields, k).Some? ==> k in Names(fields);
    map k | k in Names(fields) :: Lookup(fields, k).value
  }

  ghost predicate DistinctNames(fields: seq<(string, Json)>)
  {
    forall i, j :: 0 <= i < j < |fields| ==> fields[i].0 != fields[j].0
  }

  /** The members of `m` listed in the order of `keys`. */
  function Members(m: map<string, Json>, keys: seq<string>): (fields: seq<(string, Json)>)
    requires forall i :: 0 <= i < |keys| ==> keys[i] in m
    ensures |fields| == |keys|
    ensures forall i :: 0 <= i < |keys| ==> fields[i] == (keys[i], m[keys[i]])
  {
    if |keys| == 0 then [] else [(keys[0], m[keys[0]])] + Members(m, keys[1..])
  }

  /** A Go map written by encoding/json: an object with the keys in increasing order. */
  function ObjectOf(m: map<string, Json>): (j: Json)
    ensures j.JObject? && |j.fields| == |m|
  {
    JObject(Members(m, SortedKeys(m.Keys)))
  }

  /** The members ObjectOf writes: the entries of the map under its sorted keys. */
  lemma {:induction false} ObjectOfFields(m: map<string, Json>)
    ensures ObjectOf(m).fields == Members(m, SortedKeys(m.Keys))
    ensures StrictlySorted(SortedKeys(m.Keys)) && forall k :: k in SortedKeys(m.Keys) <==> k in m
  {
  }

  /** In an object whose names are distinct, a name is found at its one position. */
  lemma {:induction false} LookupDistinct(fields: seq<(string, Json)>, i: nat)
    requires DistinctNames(fields) && i < |fields|
    ensures Lookup(fields, fields[i].0) == Some(fields[i].1)
  {
    var last := |fields| - 1;
    if i < last {
      var init := fields[..last];
      assert DistinctNames(init);
      assert init[i] == fields[i];
      LookupDistinct(init, i);
    }
  }

  /** The entries of `m` listed under distinct keys that cover it: looking a
      name up finds its entry, and a name that is not a key is not found. */
  lemma {:induction false} LookupMembers(m: map<string, Json>, keys: seq<string>, k: string)
    requires forall i, j :: 0 <= i < j < |keys| ==> keys[i] != keys[j]
    requires forall x :: x in keys <==> x in m
    ensures Lookup(Members(m, keys), k) == if k in m then Some(m[k]) else None
  {
    var fields := Members(m, keys);
    if k in m {
      var i :| 0 <= i < |keys| && keys[i] == k;
      assert DistinctNames(fields) by {
        forall a, b | 0 <= a < b < |fields| ensures fields[a].0 != fields[b].0 {
          assert fields[a].0 == keys[a] && fields[b].0 == keys[b];
        }
      }
      LookupDistinct(fields, i);
    } else {
      forall i | 0 <= i < |fields| ensures fields[i].0 != k {
        assert fields[i].0 == keys[i];
      }
    }
  }

  /** Reading a member of a written map gives back the map's entry. */
  lemma {:induction false} LookupObjectOf(m: map<string, Json>, k: string)
    ensures Lookup(ObjectOf(m).fields, k) == if k in m then Some(m[k]) else None
  {
    ObjectOfFields(m);
    LookupMembers(m, SortedKeys(m.Keys), k);
  }

  /** Writing a map and decoding the object gives the same map. */
  lemma {:induction false} ToMapObjectOf(m: map<string, Json>)
    ensures ToMap(ObjectOf(m).fields) == m
  {
    var r := ToMap(ObjectOf(m).fields);
    forall k ensures (k in r <==> k in m) && (k in m ==> r[k] == m[k]) {
      LookupObjectOf(m, k);
    }
  }

  /** Every member of a written map is one of its entries. */
  lemma {:induction false} ObjectOfMembers(m: map<string, Json>)
    ensures forall i :: 0 <= i < |ObjectOf(m).fields| ==>
      ObjectOf(m).fields[i].0 in m && ObjectOf(m).fields[i].1 == m[ObjectOf(m).fields[i].0]
  {
    ObjectOfFields(m);
  }

  /** A one-entry map is written as a one-member object. */
  lemma {:induction false} ObjectOfOne(k: string, v: Json)
    ensures ObjectOf(map[k := v]) == JObject([(k, v)])
  {
    var keys := SortedKeys({k});
    assert keys[0] in {k};
    assert keys == [k];
  }

  /** A two-entry map is written with the lower key first. */
  lemma {:induction false} ObjectOfTwo(k1: string, v1: Json, k2: string, v2: Json)
    requires k1 != k2 && Below(k1, k2)
    ensures ObjectOf(map[k1 := v1, k2 := v2]) == JObject([(k1, v1), (k2, v2)])
  {
    var m := map[k1 := v1, k2 := v2];
    assert m.Keys == {k1, k2};
    var keys := SortedKeys({k1, k2});
    assert |keys| == 2 && keys[0] in {k1, k2} && keys[1] in {k1, k2};
    if keys[0] == k2 {
      assert keys[1] == k1;
      BelowAntisymmetric(k1, k2);
    }
    assert keys == [k1, k2];
  }

  // ---- go-simplejson ----

  /** `js.Get(k)`: a missing member, a JSON null and a member of something that
      is not an object all read as `None`. */
  function Get(v: Option<Json>, k: string): (r: Option<Json>)
    ensures r.Some? ==> v.Some? && v.value.JObject? && r.value != JNull
  {
    if v.Some? && v.value.JObject? then
      match Lookup(v.value.fields, k)
      case Some(JNull) => None
      case other => other
    else None
  }

  function AsString(v: Option<Json>): (r: Result<string>)
    ensures r.Ok? <==> v.Some? && v.value.JString?
  {
    if v.Some? && v.value.JString? then Ok(v.value.str) else Err("type assertion to string failed")
  }

  function AsBool(v: Option<Json>): (r: Result<bool>)
    ensures r.Ok? <==> v.Some? && v.value.JBool?
  {
    if v.Some? && v.value.JBool? then Ok(v.value.b) else Err("type assertion to bool failed")
  }

  function AsInt(v: Option<Json>): (r: Result<int>)
    ensures r.Ok? <==> v.Some? && v.value.JNumber?
  {
    if v.Some? && v.value.JNumber? then Ok(v.value.n) else Err("invalid value type")
  }

  /** `MustMap()`: the members of an object, and an empty map for anything else. */
  function MustMap(v: Option<Json>): (m: map<string, Json>)
    ensures !(v.Some? && v.value.JObject?) ==> m == map[]
    ensures v.Some? && v.value.JObject? ==> forall k :: k in m <==> Lookup(v.value.fields, k).Some?
  {
    if v.Some? && v.value.JObject? then ToMap(v.value.fields) else map[]
  }

  // ---- encoding/json struct fields ----

  /** The values encoding/json stores into the struct field `name`: those of
      every member whose name equals `name` up to case, in document order. */
  function Matching(fields: seq<(string, Json)>, name: string): (vs: seq<Json>)
    ensures |vs| == 0 <==> forall i :: 0 <= i < |fields| ==> !EqualFold(fields[i].0, name)
    ensures |vs| <= |fields|
    decreases |fields|
  {
    if |fields| == 0 then []
    else
      var init := Matching(fields[..|fields| - 1], name);
      if EqualFold(fields[|fields| - 1].0, name) then init + [fields[|fields| - 1].1] else init
  }

  /** A member named exactly `name`, with no other member matching it up to
      case, is the only value the field receives. */
  lemma {:induction false} MatchingOne(fields: seq<(string, Json)>, i: nat, name: string)
    requires i < |fields| && fields[i].0 == name
    requires forall j :: 0 <= j < |fields| && j != i ==> !EqualFold(fields[j].0, name)
    ensures Matching(fields, name) == [fields[i].1]
    decreases |fields|
  {
    var last := |fields| - 1;
    var init := fields[..last];
    if i < last {
      assert init[i] == fields[i];
      MatchingOne(init, i, name);
    } else {
      assert forall j :: 0 <= j < |init| ==> !EqualFold(init[j].0, name) by {
        forall j | 0 <= j < |init| ensures !EqualFold(init[j].0, name) {
          assert init[j] == fields[j];
        }
      }
    }
  }

  /** Every value after position i is null. */
  predicate NullsAfter(vs: seq<Json>, i: nat)
  {
    forall j :: i < j < |vs| ==> vs[j].JNull?
  }

  /** No value after position i is null. */
  predicate NoNullAfter(vs: seq<Json>, i: nat)
  {
    forall j :: i < j < |vs| ==> !vs[j].JNull?
  }

  /** No value after position i is null or has a key k in the map `f` gives for it. */
  ghost predicate LastWithKey<V>(vs: seq<Json>, f: Json -> map<string, V>, i: nat, k: string)
  {
    forall j :: i < j < |vs| ==> !vs[j].JNull? && k !in f(vs[j])
  }

  /** `m` is what a Go map field holds after the values vs were read into it,
      when a null resets the field to a nil map and any other value v adds
      the entries of f(v) to the map already there: it has the keys of the
      values after the last null, each holding what the last value that has
      it gives. */
  ghost predicate MergedAfterNull<V>(vs: seq<Json>, f: Json -> map<string, V>, m: map<string, V>)
  {
    && (forall k :: k in m <==>
          exists i :: 0 <= i < |vs| && !vs[i].JNull? && k in f(vs[i]) && NoNullAfter(vs, i))
    && (forall k, i :: 0 <= i < |vs| && !vs[i].JNull? && k in f(vs[i]) && LastWithKey(vs, f, i, k) ==>
          k in m && m[k] == f(vs[i])[k])
  }

  /** Reading one more value keeps MergedAfterNull: a null empties the map,
      anything else is merged into it. */
  lemma {:induction false} MergedStep<V>(vs: seq<Json>, f: Json -> map<string, V>, m: map<string, V>)
    requires |vs| > 0 && MergedAfterNull(vs[..|vs| - 1], f, m)
    ensures MergedAfterNull(vs, f, if vs[|vs| - 1].JNull? then map[] else m + f(vs[|vs| - 1]))
  {
    var n := |vs| - 1;
    var pre := vs[..n];
    if vs[n].JNull? {
      forall k, i | 0 <= i < |vs| && !vs[i].JNull? && k in f(vs[i])
        ensures !NoNullAfter(vs, i)
      {
        assert i < n && vs[n].JNull?;
      }
    } else {
      var t := f(vs[n]);
      var r := m + t;
      forall k
        ensures k in r <==>
          exists i :: 0 <= i < |vs| && !vs[i].JNull? && k in f(vs[i]) && NoNullAfter(vs, i)
      {
        if k in t {
          assert NoNullAfter(vs, n);
        } else if k in m {
          var i :| 0 <= i < |pre| && !pre[i].JNull? && k in f(pre[i]) && NoNullAfter(pre, i);
          assert pre[i] == vs[i];
          assert NoNullAfter(vs, i);
        } else {
          forall i | 0 <= i < |vs| && !vs[i].JNull? && k in f(vs[i])
            ensures !NoNullAfter(vs, i)
          {
            assert i < n && pre[i] == vs[i];
            if NoNullAfter(vs, i) {
              assert NoNullAfter(pre, i);
            }
          }
        }
      }
      forall k, i | 0 <= i < |vs| && !vs[i].JNull? && k in f(vs[i]) && LastWithKey(vs, f, i, k)
        ensures k in r && r[k] == f(vs[i])[k]
      {
        if i < n {
          assert k !in t;
          assert pre[i] == vs[i];
          assert LastWithKey(pre, f, i, k);
        }
      }
    }
  }

  /** A string field: a null member leaves it as it is, a string sets it, and
      any other value is an error. The last string among the values is the one
      kept; a field no member names, or only null ones, stays "". */
  function StringField(vs: seq<Json>, name: string): (r: Result<string>)
    ensures r.Ok? <==> forall i :: 0 <= i < |vs| ==> vs[i].JNull? || vs[i].JString?
    ensures |vs| == 0 ==> r == Ok("")
    ensures r.Ok? && (forall i :: 0 <= i < |vs| ==> vs[i].JNull?) ==> r.value == ""
    ensures r.Ok? ==> forall i :: 0 <= i < |vs| && vs[i].JString? && NullsAfter(vs, i) ==> r.value == vs[i].str
    decreases |vs|
  {
    if |vs| == 0 then Ok("")
    else
      var s :- StringField(vs[..|vs| - 1], name);
      var v := vs[|vs| - 1];
      if v.JNull? then Ok(s)
      else if v.JString? then Ok(v.str)
      else Err("json: cannot unmarshal into Go struct field jsonCheck." + name + " of type string")
  }

  lemma {:induction false} StringFieldOne(v: string, name: string)
    ensures StringField([JString(v)], name) == Ok(v)
  {
    assert [JString(v)][..0] == [];
  }
}
