/** config_checklist.go: the registry of checks a Config keeps, a map from key
    to check, and its JSON form, an array of `jsonCheck` records. */
module ConfigCheckList {
  import opened Wrappers
  import opened Collections
  import opened Json
  import opened PollerCheck
  import opened CheckJson

  // ---- the JSON form of a list ----

  /** json.Marshal of a `[]*jsonCheck`: a nil slice is written as null. */
  function MarshalList(checks: seq<JsonCheck>): (j: Json)
    ensures j.JNull? <==> |checks| == 0
  {
    if |checks| == 0 then JNull else JArray(seq(|checks|, i requires 0 <= i < |checks| => Marshal(checks[i])))
  }

  /** What JSON() writes for checks with these settings, visited in `order`. */
  function ListJson(m: map<string, Settings>, order: seq<string>): Json
    requires forall i :: 0 <= i < |order| ==> order[i] in m
  {
    MarshalList(seq(|order|, i requires 0 <= i < |order| => ToJsonCheck(m[order[i]])))
  }

  /** The error a nil element gives: toCheck dereferences the nil record. */
  const NilEntry: string := "runtime error: invalid memory address or nil pointer dereference"

  /** One element decoded into a `*jsonCheck`: null leaves the nil pointer. */
  function UnmarshalItem(j: Json): (r: Result<Option<JsonCheck>>)
    ensures r.Ok? ==> (r.value.None? <==> j.JNull?)
  {
    if j.JNull? then Ok(None)
    else
      var jc :- Unmarshal(j);
      Ok(Some(jc))
  }

  function UnmarshalEach(items: seq<Json>): (rs: seq<Result<Option<JsonCheck>>>)
    ensures |rs| == |items|
  {
    seq(|items|, i requires 0 <= i < |items| => UnmarshalItem(items[i]))
  }

  /** The elements of an array decoded into `*jsonCheck`s, None standing for
      the nil pointer a null element leaves; the first element that does not
      decode stops it. */
  function UnmarshalItems(items: seq<Json>): (r: Result<seq<Option<JsonCheck>>>)
    ensures r.Ok? ==> |r.value| == |items|
    ensures r.Ok? ==> forall i :: 0 <= i < |items| ==> (r.value[i].None? <==> items[i].JNull?)
  {
    AllOkValues(UnmarshalEach(items));
    AllOk(UnmarshalEach(items))
  }

  /** json.Unmarshal into `[]*jsonCheck`: null leaves the slice nil, an array
      gives one entry per element, anything else is refused. */
  function UnmarshalList(j: Json): (r: Result<seq<Option<JsonCheck>>>)
    ensures j.JNull? ==> r == Ok([])
    ensures j.JArray? && r.Ok? ==> |r.value| == |j.items|
    ensures !j.JNull? && !j.JArray? ==> r.Err?
  {
    if j.JNull? then Ok([])
    else if j.JArray? then UnmarshalItems(j.items)
    else Err("json: cannot unmarshal into Go value of type []*poller.jsonCheck")
  }

  /** toCheck on one entry: a nil record makes it panic. */
  function EntrySettings(e: Option<JsonCheck>): Result<Settings>
  {
    if e.None? then Err(NilEntry) else ToSettings(e.value)
  }

  function EachSettings(entries: seq<Option<JsonCheck>>): (rs: seq<Result<Settings>>)
    ensures |rs| == |entries|
  {
    seq(|entries|, i requires 0 <= i < |entries| => EntrySettings(entries[i]))
  }

  /** The settings of the checks toCheck builds from the entries, in order;
      the first nil entry or failing toCheck stops it. */
  function ToSettingsAll(entries: seq<Option<JsonCheck>>): (r: Result<seq<Settings>>)
    ensures r.Ok? ==> |r.value| == |entries|
  {
    AllOk(EachSettings(entries))
  }

  /** The checks NewCheckListFromJSON adds, in order, or the error it returns. */
  function Entries(j: Json): Result<seq<Settings>>
  {
    var entries :- UnmarshalList(j);
    ToSettingsAll(entries)
  }

  /** The map a sequence of Add calls leaves: every check under its key, a
      later one replacing an earlier one with the same key. */
  function Keyed(ss: seq<Settings>): (m: map<string, Settings>)
    ensures forall i :: 0 <= i < |ss| ==> ss[i].key in m
    ensures forall k :: k in m ==> m[k].key == k
    decreases |ss|
  {
    if |ss| == 0 then map[]
    else
      var n := |ss| - 1;
      var init := Keyed(ss[..n]);
      assert forall i :: 0 <= i < n ==> ss[..n][i] == ss[i];
      init[ss[n].key := ss[n]]
  }

  /** The settings toCheck gives back for the checks of `m` visited in `order`. */
  function Untyped(m: map<string, Settings>, order: seq<string>): (out: seq<Settings>)
    requires forall i :: 0 <= i < |order| ==> order[i] in m
    ensures |out| == |order|
    ensures forall i :: 0 <= i < |order| ==> out[i] == m[order[i]].(checkType := "")
  {
    seq(|order|, i requires 0 <= i < |order| => m[order[i]].(checkType := ""))
  }

  // ---- lemmas about the specification ----

  lemma {:induction false} EachSettingsPrefix(entries: seq<Option<JsonCheck>>, n: nat)
    requires n <= |entries|
    ensures EachSettings(entries[..n]) == EachSettings(entries)[..n]
  {
    assert forall i :: 0 <= i < n ==> entries[..n][i] == entries[i];
  }

  /** Once a prefix of the entries fails, the whole conversion fails with the same error. */
  lemma {:induction false} ToSettingsAllStops(entries: seq<Option<JsonCheck>>, n: nat)
    requires n <= |entries| && ToSettingsAll(entries[..n]).Err?
    ensures ToSettingsAll(entries) == ToSettingsAll(entries[..n])
  {
    EachSettingsPrefix(entries, n);
    AllOkStops(EachSettings(entries), n);
  }

  /** Writing the records of the checks visited in `order` is ListJson. */
  lemma {:induction false} ListJsonOf(m: map<string, Settings>, order: seq<string>, checks: seq<JsonCheck>)
    requires |checks| == |order|
    requires forall i :: 0 <= i < |order| ==> order[i] in m && checks[i] == ToJsonCheck(m[order[i]])
    ensures MarshalList(checks) == ListJson(m, order)
  {
    assert checks == seq(|order|, i requires 0 <= i < |order| => ToJsonCheck(m[order[i]]));
  }

  /** Elements that each decode to a record give the sequence of those records. */
  lemma {:induction false} UnmarshalItemsAll(items: seq<Json>, checks: seq<JsonCheck>)
    requires |items| == |checks|
    requires forall i :: 0 <= i < |items| ==> !items[i].JNull? && Unmarshal(items[i]) == Ok(checks[i])
    ensures UnmarshalItems(items).Ok?
    ensures forall i :: 0 <= i < |items| ==> UnmarshalItems(items).value[i] == Some(checks[i])
  {
    AllOkValues(UnmarshalEach(items));
  }

  /** After a prefix that converts, the next entry is appended, or its error
      is the result. */
  lemma {:induction false} ToSettingsAllStep(entries: seq<Option<JsonCheck>>, i: nat)
    requires i < |entries| && ToSettingsAll(entries[..i]).Ok?
    ensures EntrySettings(entries[i]).Err? ==> ToSettingsAll(entries[..i + 1]) == Err(EntrySettings(entries[i]).msg)
    ensures EntrySettings(entries[i]).Ok? ==>
      ToSettingsAll(entries[..i + 1]) == Ok(ToSettingsAll(entries[..i]).value + [EntrySettings(entries[i]).value])
    ensures EntrySettings(entries[i]).Ok? ==>
      Keyed(ToSettingsAll(entries[..i + 1]).value) == Keyed(ToSettingsAll(entries[..i]).value)[EntrySettings(entries[i]).value.key := EntrySettings(entries[i]).value]
  {
    EachSettingsPrefix(entries, i);
    EachSettingsPrefix(entries, i + 1);
    AllOkStep(EachSettings(entries), i);
    if EntrySettings(entries[i]).Ok? {
      var ss := ToSettingsAll(entries[..i + 1]).value;
      assert ss[..i] == ToSettingsAll(entries[..i]).value;
    }
  }

  /** Records whose toCheck each succeeds give the sequence of those checks. */
  lemma {:induction false} ToSettingsAllOk(entries: seq<Option<JsonCheck>>, ss: seq<Settings>)
    requires |entries| == |ss|
    requires forall i :: 0 <= i < |ss| ==> entries[i].Some? && ToSettings(entries[i].value) == Ok(ss[i])
    ensures ToSettingsAll(entries) == Ok(ss)
  {
    AllOkValues(EachSettings(entries));
    assert ToSettingsAll(entries).value == ss;
  }

  /** With distinct keys, every check is found under its own key. */
  lemma {:induction false} KeyedDistinct(ss: seq<Settings>)
    requires forall i, j :: 0 <= i < j < |ss| ==> ss[i].key != ss[j].key
    ensures forall i :: 0 <= i < |ss| ==> Keyed(ss)[ss[i].key] == ss[i]
    ensures forall k :: k in Keyed(ss) ==> exists i :: 0 <= i < |ss| && ss[i].key == k
    decreases |ss|
  {
    if |ss| > 0 {
      var n := |ss| - 1;
      KeyedDistinct(ss[..n]);
      forall k | k in Keyed(ss) ensures exists i :: 0 <= i < |ss| && ss[i].key == k {
        if k != ss[n].key {
          var i :| 0 <= i < n && ss[..n][i].key == k;
          assert ss[i].key == k;
        }
      }
    }
  }

  /** The checks read back from what JSON() wrote: one per visited key, in
      order, each without its type. */
  lemma {:induction false} ListEntries(m: map<string, Settings>, order: seq<string>)
    requires forall i :: 0 <= i < |order| ==> order[i] in m
    ensures Entries(ListJson(m, order)) == Ok(Untyped(m, order))
  {
    var out := Untyped(m, order);
    if |order| > 0 {
      var checks := seq(|order|, i requires 0 <= i < |order| => ToJsonCheck(m[order[i]]));
      var items := ListJson(m, order).items;
      forall i | 0 <= i < |items| ensures !items[i].JNull? && Unmarshal(items[i]) == Ok(checks[i]) {
        UnmarshalMarshal(checks[i]);
      }
      UnmarshalItemsAll(items, checks);
      var entries := UnmarshalItems(items).value;
      forall i | 0 <= i < |out| ensures entries[i].Some? && ToSettings(entries[i].value) == Ok(out[i]) {
        ToSettingsToJsonCheck(m[order[i]]);
      }
      ToSettingsAllOk(entries, out);
    }
  }

  /** Adding the checks of a map one key at a time, in any order that visits
      every key once, rebuilds the map. */
  lemma {:induction false} KeyedEnumeration(m: map<string, Settings>, order: seq<string>)
    requires Enumerates(order, m.Keys)
    requires forall k :: k in m ==> m[k].key == k
    ensures Keyed(Untyped(m, order)) == map k | k in m :: m[k].(checkType := "")
  {
    var out := Untyped(m, order);
    KeyedDistinct(out);
    var keyed := Keyed(out);
    forall k | k in m ensures k in keyed && keyed[k] == m[k].(checkType := "") {
      var i :| 0 <= i < |order| && order[i] == k;
      assert out[i] == m[k].(checkType := "");
    }
    forall k | k in keyed ensures k in m {
      var i :| 0 <= i < |out| && out[i].key == k;
      assert out[i] == m[order[i]].(checkType := "");
    }
  }

  /** A list written by JSON() and read back by NewCheckListFromJSON holds the
      same checks under the same keys, each without its type. */
  lemma {:induction false} ListRoundTrip(m: map<string, Settings>, order: seq<string>)
    requires Enumerates(order, m.Keys)
    requires forall k :: k in m ==> m[k].key == k
    ensures Entries(ListJson(m, order)).Ok?
    ensures Keyed(Entries(ListJson(m, order)).value) == map k | k in m :: m[k].(checkType := "")
  {
    ListEntries(m, order);
    KeyedEnumeration(m, order);
  }

  // ---- the list ----

  class CheckList {
    var list: map<string, Check>

    /** Every check is stored under its own key. */
    ghost predicate Valid()
      reads this
    {
      forall k :: k in list ==> list[k].Key == k
    }

    /** The settings of the stored checks, by key. */
    function Specs(): map<string, Settings>
      reads this
    {
      map k | k in list :: list[k].Spec()
    }

    /** NewCheckList: an empty list. */
    constructor()
      ensures Valid() && list == map[]
    {
      list := map[];
    }

    /** Stores `check` under its key, replacing any check stored there. */
    method Add(check: Check)
      requires Valid()
      modifies this
      ensures Valid()
      ensures list == old(list)[check.Key := check]
      ensures Specs() == old(Specs())[check.Key := check.Spec()]
      ensures Get(check.Key) == check
      ensures Len() == old(Len()) + (if check.Key in old(list) then 0 else 1)
    {
      list := list[check.Key := check];
      assert Specs() == old(Specs())[check.Key := check.Spec()];
    }

    /** The check stored under `key`, or null. */
    function Get(key: string): (c: Check?)
      reads this
      ensures c != null <==> key in list
      ensures c != null ==> c == list[key]
    {
      if key in list then list[key] else null
    }

    /** Removes the check stored under `key`, if any, and nothing else. */
    method Delete(key: string)
      requires Valid()
      modifies this
      ensures Valid()
      ensures list == old(list) - {key}
      ensures Get(key) == null
      ensures forall k :: k != key ==> Get(k) == old(Get(k))
    {
      list := list - {key};
    }

    /** The number of stored checks. */
    function Len(): (n: nat)
      reads this
      ensures n == |list.Keys|
    {
      |list|
    }

    /** Each: the checks `each` is applied to, once per stored check, in the
        order the map is visited. */
    method Each() returns (order: seq<string>, visited: seq<Check>)
      ensures Enumerates(order, list.Keys)
      ensures |visited| == |order| && forall i :: 0 <= i < |order| ==> visited[i] == list[order[i]]
    {
      order, visited := [], [];
      var todo := list.Keys;
      while todo != {}
        invariant todo <= list.Keys
        invariant forall i :: 0 <= i < |order| ==> order[i] in list && order[i] !in todo
        invariant forall i, j :: 0 <= i < j < |order| ==> order[i] != order[j]
        invariant forall k :: k in list && k !in todo ==> k in order
        invariant |visited| == |order| && forall i :: 0 <= i < |order| ==> visited[i] == list[order[i]]
        decreases |todo|
      {
        var k :| k in todo;
        order, visited := order + [k], visited + [list[k]];
        todo := todo - {k};
      }
    }

    /** The loop of JSON(): the `json()` record of every stored check, in the
        order the map is visited. */
    method Records() returns (order: seq<string>, checks: seq<JsonCheck>)
      ensures Enumerates(order, list.Keys)
      ensures |checks| == |order| && forall i :: 0 <= i < |order| ==> checks[i] == ToJsonCheck(list[order[i]].Spec())
    {
      checks, order := [], [];
      var todo := list.Keys;
      while todo != {}
        invariant todo <= list.Keys
        invariant forall i :: 0 <= i < |order| ==> order[i] in list && order[i] !in todo
        invariant forall i, j :: 0 <= i < j < |order| ==> order[i] != order[j]
        invariant forall k :: k in list && k !in todo ==> k in order
        invariant |checks| == |order| && forall i :: 0 <= i < |order| ==> checks[i] == ToJsonCheck(list[order[i]].Spec())
        decreases |todo|
      {
        var k :| k in todo;
        order, checks := order + [k], checks + [ToJsonCheck(list[k].Spec())];
        todo := todo - {k};
      }
    }

    /** JSON(): the records of every stored check, in the order the map is visited. */
    method JSON() returns (data: Json, order: seq<string>)
      ensures Enumerates(order, list.Keys)
      ensures data == ListJson(Specs(), order)
    {
      var checks;
      order, checks := Records();
      data := MarshalList(checks);
      ListJsonOf(Specs(), order, checks);
    }

    /** Empties the list. */
    method Clear()
      modifies this
      ensures Valid() && list == map[] && Len() == 0
    {
      list := map[];
    }
  }

  /** NewCheckListFromJSON: a new list holding a check for every entry, or the
      first error met, and then no list. */
  method NewCheckListFromJSON(j: Json) returns (r: Result<CheckList>)
    ensures r.Ok? <==> Entries(j).Ok?
    ensures r.Err? ==> r.msg == Entries(j).msg
    ensures r.Ok? ==> fresh(r.value) && r.value.Valid() && r.value.Specs() == Keyed(Entries(j).value)
  {
    var entries := UnmarshalList(j);
    if entries.Err? {
      return Err(entries.msg);
    }
    var es := entries.value;
    var cl := new CheckList();
    var i := 0;
    while i < |es|
      invariant 0 <= i <= |es|
      invariant ToSettingsAll(es[..i]).Ok?
      invariant fresh(cl) && cl.Valid() && cl.Specs() == Keyed(ToSettingsAll(es[..i]).value)
    {
      ToSettingsAllStep(es, i);
      if es[i].None? {
        ToSettingsAllStops(es, i + 1);
        return Err(NilEntry);
      }
      var s := ToSettings(es[i].value);
      if s.Err? {
        ToSettingsAllStops(es, i + 1);
        return Err(s.msg);
      }
      var chk := new Check(s.value);
      cl.Add(chk);
      i := i + 1;
    }
    assert es[..i] == es;
    return Ok(cl);
  }
}
