/** check/check.go: the older package `check`. A check is a URL polled at an
    interval with request headers; a ChecksList maps keys to checks, is filled
    from a JSON array of records and written back as one. Parsing the URL and
    resolving its address are outside the model: NewCheck is handed the error
    they give, if any. */
module LegacyCheck {
  import opened Wrappers
  import opened Collections
  import opened Strings
  import opened Json
  import Durations

  /** A check. `url` is the URL as written; `header` maps each header name to
      its values, as `http.Header` does. Durations are whole seconds. */
  datatype Check = Check(url: string, key: string, interval: Durations.Duration, header: map<string, seq<string>>)

  /** The state of a check after one poll. */
  datatype CheckEvent = CheckEvent(check: Check, duration: int, statusCode: int, time: int, timeout: bool, up: bool)

  /** NewCheckEvent: the event of a poll that starts at `now`, neither up nor
      timed out yet. */
  function NewCheckEvent(check: Check, now: int): (e: CheckEvent)
    ensures e.check == check && e.time == now
    ensures !e.up && !e.timeout
    ensures e.duration == 0 && e.statusCode == 0
  {
    CheckEvent(check, 0, 0, now, false, false)
  }

  // ---- NewCheck ----

  /** The header NewCheck builds: one value per name. */
  function HeaderOf(headers: map<string, string>): (h: map<string, seq<string>>)
  {
    map k | k in headers :: [headers[k]]
  }

  /** NewCheck: an interval that does not parse is refused before anything
      else is looked at; then the URL and address error, if any, is returned. */
  function NewCheckOf(checkUrl: string, key: string, interval: string, headers: map<string, string>,
                      resolveError: Option<string>): (r: Result<Check>)
    ensures Durations.Parse(interval).Err? ==> r == Err(Durations.Parse(interval).msg)
    ensures r.Ok? <==> Durations.Parse(interval).Ok? && resolveError.None?
    ensures Durations.Parse(interval).Ok? && resolveError.Some? ==> r == Err(resolveError.value)
    ensures r.Ok? ==> r.value.key == key && r.value.url == checkUrl
    ensures r.Ok? ==> Durations.Parse(interval) == Ok(r.value.interval)
    ensures r.Ok? ==> r.value.header.Keys == headers.Keys
    ensures r.Ok? ==> forall k :: k in headers ==> r.value.header[k] == [headers[k]]
  {
    var d :- Durations.Parse(interval);
    if resolveError.Some? then Err(resolveError.value)
    else Ok(Check(checkUrl, key, d, HeaderOf(headers)))
  }

  /** NewCheck, with the header filled one name at a time. */
  method NewCheck(checkUrl: string, key: string, interval: string, headers: map<string, string>,
                  resolveError: Option<string>) returns (r: Result<Check>)
    ensures r == NewCheckOf(checkUrl, key, interval, headers, resolveError)
  {
    var d := Durations.Parse(interval);
    if d.Err? {
      return Err(d.msg);
    }
    var h: map<string, seq<string>> := map[];
    var names := Enumerate(headers.Keys);
    for i := 0 to |names|
      invariant forall k :: k in h <==> k in names[..i]
      invariant forall k :: k in h ==> h[k] == [headers[k]]
    {
      h := h[names[i] := [headers[names[i]]]];
      assert names[..i + 1] == names[..i] + [names[i]];
    }
    assert names[..|names|] == names;
    assert h == HeaderOf(headers);
    if resolveError.Some? {
      return Err(resolveError.value);
    }
    r := Ok(Check(checkUrl, key, d.value, h));
  }

  // ---- the JSON records ----

  /** A `jsonCheck` record: the interval as written, one value per header. */
  datatype Entry = Entry(url: string, key: string, interval: string, headers: map<string, string>)

  /** The check NewCheck builds from a record. */
  function EntryCheck(e: Entry, resolve: string -> Option<string>): Result<Check>
  {
    NewCheckOf(e.url, e.key, e.interval, e.headers, resolve(e.url))
  }

  /** The members of an object read into a `map[string]string`: a later member
      with the same name wins, a null value is stored as "", and any other
      value that is not a string is an error. */
  function StringMap(fields: seq<(string, Json)>): (r: Result<map<string, string>>)
    ensures r.Ok? <==> forall i :: 0 <= i < |fields| ==> fields[i].1.JString? || fields[i].1.JNull?
    ensures r.Ok? ==> forall k :: k in r.value <==> Lookup(fields, k).Some?
  {
    if forall i :: 0 <= i < |fields| ==> fields[i].1.JString? || fields[i].1.JNull? then
      var m := ToMap(fields);
      Ok(map k | k in m :: if m[k].JString? then m[k].str else "")
    else Err("json: cannot unmarshal into Go value of type string")
  }

  /** A value the `Headers` field accepts: null, or an object read as a
      `map[string]string`. */
  predicate HeaderValue(v: Json)
  {
    v.JNull? || (v.JObject? && StringMap(v.fields).Ok?)
  }

  /** What an object adds to the `Headers` map. */
  function HeaderMap(v: Json): map<string, string>
  {
    if v.JObject? && StringMap(v.fields).Ok? then StringMap(v.fields).value else map[]
  }

  /** The `Headers` field: null resets it to a nil map, and an object adds its
      members to the map already there, later keys winning. */
  function HeadersField(vs: seq<Json>): (r: Result<map<string, string>>)
    ensures |vs| == 0 ==> r == Ok(map[])
    ensures r.Ok? <==> forall i :: 0 <= i < |vs| ==> HeaderValue(vs[i])
    ensures r.Ok? ==> MergedAfterNull(vs, HeaderMap, r.value)
    decreases |vs|
  {
    if |vs| == 0 then Ok(map[])
    else
      var m :- HeadersField(vs[..|vs| - 1]);
      var v := vs[|vs| - 1];
      if v.JNull? then
        MergedStep(vs, HeaderMap, m);
        Ok(map[])
      else if v.JObject? then
        var added :- StringMap(v.fields);
        MergedStep(vs, HeaderMap, m);
        Ok(m + added)
      else Err("json: cannot unmarshal into Go struct field jsonCheck.Headers of type map[string]string")
  }

  /** One array element read into a `jsonCheck`: null leaves the zero record,
      members are matched to fields up to case, unknown members are ignored. */
  function UnmarshalEntry(j: Json): (r: Result<Entry>)
    ensures j.JNull? ==> r == Ok(Entry("", "", "", map[]))
    ensures !j.JNull? && !j.JObject? ==> r.Err?
  {
    if j.JNull? then Ok(Entry("", "", "", map[]))
    else if !j.JObject? then Err("json: cannot unmarshal into Go value of type check.jsonCheck")
    else
      var f := j.fields;
      var url :- StringField(Matching(f, "Url"), "Url");
      var key :- StringField(Matching(f, "Key"), "Key");
      var interval :- StringField(Matching(f, "Interval"), "Interval");
      var headers :- HeadersField(Matching(f, "Headers"));
      Ok(Entry(url, key, interval, headers))
  }

  function UnmarshalEntries(items: seq<Json>): (rs: seq<Result<Entry>>)
    ensures |rs| == |items|
  {
    seq(|items|, i requires 0 <= i < |items| => UnmarshalEntry(items[i]))
  }

  /** The elements of an array read in order; the first that fails stops it. */
  function UnmarshalItems(items: seq<Json>): (r: Result<seq<Entry>>)
    ensures r.Ok? ==> |r.value| == |items|
  {
    AllOk(UnmarshalEntries(items))
  }

  /** json.Unmarshal into `jsonChecks`: null gives no records, an array one
      record per element, anything else is refused. */
  function UnmarshalList(j: Json): (r: Result<seq<Entry>>)
    ensures j.JNull? ==> r == Ok([])
    ensures j.JArray? && r.Ok? ==> |r.value| == |j.items|
    ensures !j.JNull? && !j.JArray? ==> r.Err?
  {
    if j.JNull? then Ok([])
    else if j.JArray? then UnmarshalItems(j.items)
    else Err("json: cannot unmarshal into Go value of type check.jsonChecks")
  }

  /** How AddFromJson wraps the errors it returns. */
  const ReadError: string := "There was an error reading your configuration file: "
  const ConfigError: string := "Check configuration error: "

  /** The check NewCheck builds from each record, in order. */
  function EntryChecks(es: seq<Entry>, resolve: string -> Option<string>): (rs: seq<Result<Check>>)
    ensures |rs| == |es|
  {
    seq(|es|, i requires 0 <= i < |es| => EntryCheck(es[i], resolve))
  }

  /** The checks of `rs` added one after the other to `m`: the first error
      stops it, the checks before it added, and is reported as a
      configuration error. */
  function AddChecks(m: map<string, Check>, rs: seq<Result<Check>>): (r: (map<string, Check>, Option<string>))
    decreases |rs|
  {
    if |rs| == 0 then (m, None)
    else
      var n := |rs| - 1;
      var prev := AddChecks(m, rs[..n]);
      if prev.1.Some? then prev
      else if rs[n].Err? then (prev.0, Some(ConfigError + rs[n].msg))
      else (prev.0[rs[n].value.key := rs[n].value], None)
  }

  /** The map AddFromJson leaves and the error it returns: each record becomes
      a check added under its key, until the first record NewCheck refuses. */
  function AddAll(m: map<string, Check>, es: seq<Entry>, resolve: string -> Option<string>): (r: (map<string, Check>, Option<string>))
  {
    AddChecks(m, EntryChecks(es, resolve))
  }

  // ---- what JSON() writes ----

  /** Every header of the check has a value: JSON() reads the first. */
  predicate Writable(c: Check)
  {
    forall k :: k in c.header ==> |c.header[k]| > 0
  }

  /** The record JSON() writes for a check: the first value of each header. */
  function EntryOf(c: Check): Entry
    requires Writable(c)
  {
    Entry(c.url, c.key, Durations.Format(c.interval), map k | k in c.header :: c.header[k][0])
  }

  /** json.Marshal of a record: the field names as declared, the headers as a
      Go map, keys in increasing order. */
  function MarshalEntry(e: Entry): Json
  {
    JObject([("Url", JString(e.url)), ("Key", JString(e.key)), ("Interval", JString(e.interval)),
             ("Headers", ObjectOf(map k | k in e.headers :: JString(e.headers[k])))])
  }

  /** The panic of `h[0]` on a header with no value. */
  const IndexPanic: string := "runtime error: index out of range [0] with length 0"

  /** What JSON() gives for the checks of `m` visited in `order`: the array of
      their records, or the panic when some check has a header without a value. */
  function ListJson(m: map<string, Check>, order: seq<string>): (r: Result<Json>)
    requires forall i :: 0 <= i < |order| ==> order[i] in m
    ensures r.Ok? <==> forall i :: 0 <= i < |order| ==> Writable(m[order[i]])
    ensures r.Ok? ==> r.value.JArray? && |r.value.items| == |order|
  {
    if forall i :: 0 <= i < |order| ==> Writable(m[order[i]]) then
      Ok(JArray(seq(|order|, i requires 0 <= i < |order| => MarshalEntry(EntryOf(m[order[i]])))))
    else Err(IndexPanic)
  }

  // ---- lemmas ----

  /** The records of the checks visited in `order`, written as an array, are ListJson. */
  lemma {:induction false} ListJsonOf(m: map<string, Check>, order: seq<string>, items: seq<Json>)
    requires |items| == |order|
    requires forall i :: 0 <= i < |order| ==> order[i] in m && Writable(m[order[i]]) && items[i] == MarshalEntry(EntryOf(m[order[i]]))
    ensures ListJson(m, order) == Ok(JArray(items))
  {
    assert items == seq(|order|, i requires 0 <= i < |order| => MarshalEntry(EntryOf(m[order[i]])));
  }

  lemma {:induction false} EntryChecksPrefix(es: seq<Entry>, n: nat, resolve: string -> Option<string>)
    requires n <= |es|
    ensures EntryChecks(es[..n], resolve) == EntryChecks(es, resolve)[..n]
  {
    assert forall i :: 0 <= i < n ==> es[..n][i] == es[i];
  }

  lemma {:induction false} AddChecksStops(m: map<string, Check>, rs: seq<Result<Check>>, n: nat)
    requires n <= |rs| && AddChecks(m, rs[..n]).1.Some?
    ensures AddChecks(m, rs) == AddChecks(m, rs[..n])
    decreases |rs|
  {
    if n < |rs| {
      var last := |rs| - 1;
      assert rs[..last][..n] == rs[..n];
      AddChecksStops(m, rs[..last], n);
    } else {
      assert rs[..n] == rs;
    }
  }

  /** Once a prefix of the records fails, the rest is not looked at. */
  lemma {:induction false} AddAllStops(m: map<string, Check>, es: seq<Entry>, n: nat, resolve: string -> Option<string>)
    requires n <= |es| && AddAll(m, es[..n], resolve).1.Some?
    ensures AddAll(m, es, resolve) == AddAll(m, es[..n], resolve)
  {
    EntryChecksPrefix(es, n, resolve);
    AddChecksStops(m, EntryChecks(es, resolve), n);
  }

  /** After a prefix added without error, the next record is added under its
      key or its error is the result. */
  lemma {:induction false} AddAllStep(m: map<string, Check>, es: seq<Entry>, i: nat, resolve: string -> Option<string>)
    requires i < |es| && AddAll(m, es[..i], resolve).1.None?
    ensures EntryCheck(es[i], resolve).Err? ==>
      AddAll(m, es[..i + 1], resolve) == (AddAll(m, es[..i], resolve).0, Some(ConfigError + EntryCheck(es[i], resolve).msg))
    ensures EntryCheck(es[i], resolve).Ok? ==>
      AddAll(m, es[..i + 1], resolve) == (AddAll(m, es[..i], resolve).0[EntryCheck(es[i], resolve).value.key := EntryCheck(es[i], resolve).value], None)
  {
    EntryChecksPrefix(es, i, resolve);
    EntryChecksPrefix(es, i + 1, resolve);
    var rs := EntryChecks(es, resolve);
    assert rs[..i + 1][..i] == rs[..i];
  }

  lemma {:induction false} AddChecksFirstError(m: map<string, Check>, rs: seq<Result<Check>>)
    ensures AddChecks(m, rs).1.None? <==> forall i :: 0 <= i < |rs| ==> rs[i].Ok?
    ensures AddChecks(m, rs).1.Some? ==>
      exists i :: 0 <= i < |rs| && rs[i].Err? && AddChecks(m, rs[..i]).1.None?
        && AddChecks(m, rs) == (AddChecks(m, rs[..i]).0, Some(ConfigError + rs[i].msg))
    decreases |rs|
  {
    if |rs| > 0 {
      var n := |rs| - 1;
      var init := rs[..n];
      AddChecksFirstError(m, init);
      assert forall i :: 0 <= i < n ==> init[i] == rs[i];
      if AddChecks(m, init).1.Some? {
        var i :| 0 <= i < n && init[i].Err? && AddChecks(m, init[..i]).1.None?
          && AddChecks(m, init) == (AddChecks(m, init[..i]).0, Some(ConfigError + init[i].msg));
        assert init[..i] == rs[..i];
      }
    }
  }

  /** AddFromJson fails exactly when some record is refused, and then with the
      error of the first refused record, the records before it all added. */
  lemma {:induction false} AddAllFirstError(m: map<string, Check>, es: seq<Entry>, resolve: string -> Option<string>)
    ensures AddAll(m, es, resolve).1.None? <==> forall i :: 0 <= i < |es| ==> EntryCheck(es[i], resolve).Ok?
    ensures AddAll(m, es, resolve).1.Some? ==>
      exists i :: 0 <= i < |es| && EntryCheck(es[i], resolve).Err?
        && AddAll(m, es[..i], resolve).1.None?
        && AddAll(m, es, resolve) == (AddAll(m, es[..i], resolve).0, Some(ConfigError + EntryCheck(es[i], resolve).msg))
  {
    var rs := EntryChecks(es, resolve);
    AddChecksFirstError(m, rs);
    forall i | 0 <= i < |es| ensures rs[i].Ok? <==> EntryCheck(es[i], resolve).Ok? {
      assert rs[i] == EntryCheck(es[i], resolve);
    }
    if AddAll(m, es, resolve).1.Some? {
      var i :| 0 <= i < |rs| && rs[i].Err? && AddChecks(m, rs[..i]).1.None?
        && AddChecks(m, rs) == (AddChecks(m, rs[..i]).0, Some(ConfigError + rs[i].msg));
      EntryChecksPrefix(es, i, resolve);
      assert rs[i] == EntryCheck(es[i], resolve);
    }
  }

  lemma {:induction false} AddChecksKeeps(m: map<string, Check>, rs: seq<Result<Check>>)
    ensures m.Keys <= AddChecks(m, rs).0.Keys
    decreases |rs|
  {
    if |rs| > 0 {
      AddChecksKeeps(m, rs[..|rs| - 1]);
    }
  }

  /** Checks already in the list stay there: a record may replace a check
      under the same key but removes none. */
  lemma {:induction false} AddAllKeeps(m: map<string, Check>, es: seq<Entry>, resolve: string -> Option<string>)
    ensures m.Keys <= AddAll(m, es, resolve).0.Keys
  {
    AddChecksKeeps(m, EntryChecks(es, resolve));
  }

  /** The member names json.Marshal writes for a record, in field order. */
  predicate EntryNames(f: seq<(string, Json)>)
  {
    |f| == 4 && f[0].0 == "Url" && f[1].0 == "Key" && f[2].0 == "Interval" && f[3].0 == "Headers"
  }

  /** No two of those names are equal up to case, so each field receives
      exactly the member written for it. */
  lemma {:induction false} EntryMatching(f: seq<(string, Json)>)
    requires EntryNames(f)
    ensures Matching(f, "Url") == [f[0].1] && Matching(f, "Key") == [f[1].1]
    ensures Matching(f, "Interval") == [f[2].1] && Matching(f, "Headers") == [f[3].1]
  {
    assert FoldChar("Url"[0]) != FoldChar("Key"[0]);
    MatchingOne(f, 0, "Url");
    MatchingOne(f, 1, "Key");
    MatchingOne(f, 2, "Interval");
    MatchingOne(f, 3, "Headers");
  }

  /** Members that are all strings, decoding to the map of those strings,
      read back as that string map. */
  lemma {:induction false} StringMapOfStrings(fields: seq<(string, Json)>, h: map<string, string>)
    requires forall i :: 0 <= i < |fields| ==> fields[i].1.JString?
    requires ToMap(fields) == map k | k in h :: JString(h[k])
    ensures StringMap(fields) == Ok(h)
  {
    var m := ToMap(fields);
    assert (map k | k in m :: if m[k].JString? then m[k].str else "") == h;
  }

  /** The members of a written string map read back as that map. */
  lemma {:induction false} StringMapObjectOf(h: map<string, string>)
    ensures StringMap(ObjectOf(map k | k in h :: JString(h[k])).fields) == Ok(h)
  {
    var written := map k | k in h :: JString(h[k]);
    ObjectOfMembers(written);
    ToMapObjectOf(written);
    StringMapOfStrings(ObjectOf(written).fields, h);
  }

  /** An object whose members read as `h` is read into a fresh `Headers` field as `h`. */
  lemma {:induction false} HeadersFieldOne(o: Json, h: map<string, string>)
    requires o.JObject? && StringMap(o.fields) == Ok(h)
    ensures HeadersField([o]) == Ok(h)
  {
    assert [o][..0] == [];
    assert map[] + h == h;
  }

  /** json.Unmarshal reads back what json.Marshal wrote for a record. */
  lemma {:induction false} UnmarshalMarshalEntry(e: Entry)
    ensures UnmarshalEntry(MarshalEntry(e)) == Ok(e)
  {
    var f := MarshalEntry(e).fields;
    EntryMatching(f);
    StringFieldOne(e.url, "Url");
    StringFieldOne(e.key, "Key");
    StringFieldOne(e.interval, "Interval");
    StringMapObjectOf(e.headers);
    HeadersFieldOne(f[3].1, e.headers);
  }

  /** Each header of the check has exactly one value, as NewCheck makes them. */
  predicate SingleValued(c: Check)
  {
    forall k :: k in c.header ==> |c.header[k]| == 1
  }

  /** NewCheck builds back, from the record JSON() writes, a check whose
      headers are single-valued and whose URL resolves. */
  lemma {:induction false} EntryOfCheck(c: Check, resolve: string -> Option<string>)
    requires SingleValued(c) && resolve(c.url).None?
    ensures Writable(c) && EntryCheck(EntryOf(c), resolve) == Ok(c)
  {
    Durations.FormatParseRoundTrip(c.interval);
    var e := EntryOf(c);
    assert HeaderOf(e.headers) == c.header by {
      forall k | k in c.header ensures HeaderOf(e.headers)[k] == c.header[k] {
        assert c.header[k] == [c.header[k][0]];
      }
    }
  }

  /** Elements that each read as a record give the sequence of those records. */
  lemma {:induction false} UnmarshalItemsAll(items: seq<Json>, es: seq<Entry>)
    requires |items| == |es|
    requires forall i :: 0 <= i < |items| ==> UnmarshalEntry(items[i]) == Ok(es[i])
    ensures UnmarshalItems(items) == Ok(es)
  {
    AllOkValues(UnmarshalEntries(items));
    assert UnmarshalItems(items).value == es;
  }

  /** The checks of `m` under the keys in `order`. */
  function Restrict(m: map<string, Check>, order: seq<string>): (r: map<string, Check>)
    requires forall i :: 0 <= i < |order| ==> order[i] in m
    ensures forall k :: k in r <==> k in order
    ensures forall k :: k in r ==> r[k] == m[k]
  {
    map k | k in order :: m[k]
  }

  lemma {:induction false} RestrictSnoc(m: map<string, Check>, order: seq<string>)
    requires |order| > 0 && forall i :: 0 <= i < |order| ==> order[i] in m
    ensures Restrict(m, order) == Restrict(m, order[..|order| - 1])[order[|order| - 1] := m[order[|order| - 1]]]
  {
    var n := |order| - 1;
    var next := Restrict(m, order[..n])[order[n] := m[order[n]]];
    forall k ensures k in next <==> k in order {
      assert k in order <==> k in order[..n] || k == order[n] by {
        assert order == order[..n] + [order[n]];
      }
    }
  }

  lemma {:induction false} AddChecksRebuilds(m: map<string, Check>, order: seq<string>, rs: seq<Result<Check>>)
    requires |rs| == |order|
    requires forall i :: 0 <= i < |order| ==> order[i] in m && m[order[i]].key == order[i]
    requires forall i :: 0 <= i < |rs| ==> rs[i] == Ok(m[order[i]])
    ensures AddChecks(map[], rs) == (Restrict(m, order), None)
    decreases |rs|
  {
    if |rs| > 0 {
      var n := |rs| - 1;
      assert forall i :: 0 <= i < n ==> rs[..n][i] == rs[i] && order[..n][i] == order[i];
      AddChecksRebuilds(m, order[..n], rs[..n]);
      RestrictSnoc(m, order);
    }
  }

  /** Records that each build the check of `m` under the key visited at the
      same position add exactly those checks. */
  lemma {:induction false} AddAllRebuilds(m: map<string, Check>, order: seq<string>, es: seq<Entry>, resolve: string -> Option<string>)
    requires |es| == |order|
    requires forall i :: 0 <= i < |order| ==> order[i] in m && m[order[i]].key == order[i]
    requires forall i :: 0 <= i < |es| ==> EntryCheck(es[i], resolve) == Ok(m[order[i]])
    ensures AddAll(map[], es, resolve) == (Restrict(m, order), None)
  {
    AddChecksRebuilds(m, order, EntryChecks(es, resolve));
  }

  /** Every check of `m` can be written and rebuilt by NewCheck. */
  ghost predicate Rebuildable(m: map<string, Check>, resolve: string -> Option<string>)
  {
    forall k :: k in m ==> m[k].key == k && SingleValued(m[k]) && resolve(m[k].url).None?
  }

  /** The records JSON() writes for the checks visited in `order`. */
  function Records(m: map<string, Check>, order: seq<string>): (es: seq<Entry>)
    requires forall i :: 0 <= i < |order| ==> order[i] in m && Writable(m[order[i]])
    ensures |es| == |order|
    ensures forall i :: 0 <= i < |order| ==> es[i] == EntryOf(m[order[i]])
  {
    seq(|order|, i requires 0 <= i < |order| => EntryOf(m[order[i]]))
  }

  /** What JSON() writes reads back as the records it wrote. */
  lemma {:induction false} ListRecords(m: map<string, Check>, order: seq<string>)
    requires forall i :: 0 <= i < |order| ==> order[i] in m && Writable(m[order[i]])
    ensures ListJson(m, order).Ok?
    ensures UnmarshalList(ListJson(m, order).value) == Ok(Records(m, order))
  {
    var items := ListJson(m, order).value.items;
    var es := Records(m, order);
    forall i | 0 <= i < |order| ensures UnmarshalEntry(items[i]) == Ok(es[i]) {
      UnmarshalMarshalEntry(es[i]);
    }
    UnmarshalItemsAll(items, es);
  }

  /** A map is rebuilt from its checks visited in an order that lists every key once. */
  lemma {:induction false} RestrictEnumeration(m: map<string, Check>, order: seq<string>)
    requires Enumerates(order, m.Keys)
    ensures Restrict(m, order) == m
  {
  }

  /** The records of single-valued checks whose URLs resolve, written by JSON()
      and read back by AddFromJson into an empty list, rebuild the same list. */
  lemma {:induction false} ListRoundTrip(m: map<string, Check>, order: seq<string>, resolve: string -> Option<string>)
    requires Enumerates(order, m.Keys)
    requires Rebuildable(m, resolve)
    ensures ListJson(m, order).Ok?
    ensures UnmarshalList(ListJson(m, order).value).Ok?
    ensures AddAll(map[], UnmarshalList(ListJson(m, order).value).value, resolve) == (m, None)
  {
    forall i | 0 <= i < |order| ensures Writable(m[order[i]]) && EntryCheck(EntryOf(m[order[i]]), resolve) == Ok(m[order[i]]) {
      EntryOfCheck(m[order[i]], resolve);
    }
    ListRecords(m, order);
    AddAllRebuilds(m, order, Records(m, order), resolve);
    RestrictEnumeration(m, order);
  }

  class ChecksList {
    var list: map<string, Check>

    /** `make(ChecksList)`: an empty list. */
    constructor()
      ensures list == map[]
    {
      list := map[];
    }

    /** Add: a copy of the check is stored under its key, replacing any check there. */
    method Add(c: Check)
      modifies this
      ensures list == old(list)[c.key := c]
    {
      list := list[c.key := c];
    }

    /** Wipe: every key is deleted, one at a time. */
    method Wipe()
      modifies this
      ensures list == map[]
    {
      var keys := Enumerate(list.Keys);
      ghost var before := list;
      for i := 0 to |keys|
        invariant forall k :: k in list <==> k in before && k !in keys[..i]
      {
        list := list - {keys[i]};
        assert keys[..i + 1] == keys[..i] + [keys[i]];
      }
      assert keys[..|keys|] == keys;
    }

    /** AddFromJson: on a document that does not read as records, the wrapped
        error and an unchanged list; otherwise the records are added in order
        until the first that NewCheck refuses, whose wrapped error is returned.
        `resolve` gives the error parsing and resolving a URL gives, if any. */
    method AddFromJson(data: Json, resolve: string -> Option<string>) returns (err: Option<string>)
      modifies this
      ensures UnmarshalList(data).Err? ==> err == Some(ReadError + UnmarshalList(data).msg) && list == old(list)
      ensures UnmarshalList(data).Ok? ==> (list, err) == AddAll(old(list), UnmarshalList(data).value, resolve)
    {
      var entries := UnmarshalList(data);
      if entries.Err? {
        return Some(ReadError + entries.msg);
      }
      var es := entries.value;
      for i := 0 to |es|
        invariant AddAll(old(list), es[..i], resolve) == (list, None)
      {
        var e := es[i];
        var chk := NewCheck(e.url, e.key, e.interval, e.headers, resolve(e.url));
        AddAllStep(old(list), es, i, resolve);
        if chk.Err? {
          AddAllStops(old(list), es, i + 1, resolve);
          return Some(ConfigError + chk.msg);
        }
        Add(chk.value);
      }
      assert es[..|es|] == es;
      err := None;
    }

    /** JSON: the record of every check, in the order the map is visited; a
        header without a value makes it panic. */
    method JSON() returns (r: Result<Json>, ghost order: seq<string>)
      ensures Enumerates(order, list.Keys)
      ensures r == ListJson(list, order)
    {
      var keys := Enumerate(list.Keys);
      order := keys;
      var items: seq<Json> := [];
      for i := 0 to |keys|
        invariant |items| == i
        invariant forall j :: 0 <= j < i ==> Writable(list[keys[j]]) && items[j] == MarshalEntry(EntryOf(list[keys[j]]))
      {
        var v := list[keys[i]];
        var header := FirstValues(v.header);
        if header.Err? {
          assert !Writable(list[keys[i]]);
          return Err(IndexPanic), order;
        }
        assert Entry(v.url, v.key, Durations.Format(v.interval), header.value) == EntryOf(v);
        items := items + [MarshalEntry(Entry(v.url, v.key, Durations.Format(v.interval), header.value))];
      }
      r := Ok(JArray(items));
      ListJsonOf(list, keys, items);
    }
  }

  /** The loop of JSON() over one check's header: the first value under each
      name, or the panic when a name has no value. */
  method FirstValues(h: map<string, seq<string>>) returns (r: Result<map<string, string>>)
    ensures r.Ok? <==> forall k :: k in h ==> |h[k]| > 0
    ensures r.Err? ==> r.msg == IndexPanic
    ensures r.Ok? ==> r.value == map k | k in h :: h[k][0]
  {
    var first: map<string, string> := map[];
    var names := Enumerate(h.Keys);
    for i := 0 to |names|
      invariant forall k :: k in first <==> k in names[..i]
      invariant forall k :: k in first ==> |h[k]| > 0 && first[k] == h[k][0]
    {
      var values := h[names[i]];
      if |values| == 0 {
        return Err(IndexPanic);
      }
      first := first[names[i] := values[0]];
      assert names[..i + 1] == names[..i] + [names[i]];
    }
    assert names[..|names|] == names;
    r := Ok(first);
  }
}
