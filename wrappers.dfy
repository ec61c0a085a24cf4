/** Failure-carrying results, standing for Go's `(value, error)` pairs and nil pointers. */
module Wrappers {

  datatype Option<+T> = None | Some(value: T)

  /** `Err` carries the text of the Go error value. */
  datatype Result<+T> = Ok(value: T) | Err(msg: string) {
    predicate IsFailure() { Err? }

    function PropagateFailure<U>(): Result<U>
      requires Err?
    {
      Err(msg)
    }

    function Extract(): T
      requires Ok?
    {
      value
    }
  }

  /** The values of `rs`, in order, when every one is Ok; otherwise the error
      of the first that is not, as a Go loop that returns on its first error
      reports it. */
  function AllOk<T>(rs: seq<Result<T>>): (r: Result<seq<T>>)
    ensures r.Ok? ==> |r.value| == |rs|
    decreases |rs|
  {
    if |rs| == 0 then Ok([])
    else
      var init :- AllOk(rs[..|rs| - 1]);
      var last :- rs[|rs| - 1];
      Ok(init + [last])
  }

  /** AllOk succeeds exactly when every result does, and then holds their values. */
  lemma {:induction false} AllOkValues<T>(rs: seq<Result<T>>)
    ensures AllOk(rs).Ok? <==> forall i :: 0 <= i < |rs| ==> rs[i].Ok?
    ensures AllOk(rs).Ok? ==> forall i :: 0 <= i < |rs| ==> AllOk(rs).value[i] == rs[i].value
    decreases |rs|
  {
    if |rs| > 0 {
      var n := |rs| - 1;
      AllOkValues(rs[..n]);
      assert forall i :: 0 <= i < n ==> rs[..n][i] == rs[i];
      if AllOk(rs).Ok? {
        var r, init := AllOk(rs).value, AllOk(rs[..n]).value;
        assert r == init + [rs[n].value];
        forall i | 0 <= i < |rs| ensures r[i] == rs[i].value {
          if i < n {
            assert r[i] == init[i];
          }
        }
      }
    }
  }

  /** Once a prefix fails, the results after it are not looked at. */
  lemma {:induction false} AllOkStops<T>(rs: seq<Result<T>>, n: nat)
    requires n <= |rs| && AllOk(rs[..n]).Err?
    ensures AllOk(rs) == AllOk(rs[..n])
    decreases |rs|
  {
    if n < |rs| {
      var m := |rs| - 1;
      assert rs[..m][..n] == rs[..n];
      AllOkStops(rs[..m], n);
    } else {
      assert rs[..n] == rs;
    }
  }

  /** After a prefix that succeeds, the next result is appended or is the error. */
  lemma {:induction false} AllOkStep<T>(rs: seq<Result<T>>, i: nat)
    requires i < |rs| && AllOk(rs[..i]).Ok?
    ensures rs[i].Ok? ==> AllOk(rs[..i + 1]) == Ok(AllOk(rs[..i]).value + [rs[i].value])
    ensures rs[i].Err? ==> AllOk(rs[..i + 1]) == Err(rs[i].msg)
  {
    assert rs[..i + 1][..i] == rs[..i];
  }
}

/** Enumerations of finite sets: the order in which a Go `range` over a map visits its keys. */
module Collections {

  /** `order` lists every element of `s` exactly once. */
  ghost predicate Enumerates<K>(order: seq<K>, s: set<K>)
  {
    && (forall i, j :: 0 <= i < j < |order| ==> order[i] != order[j])
    && (forall i :: 0 <= i < |order| ==> order[i] in s)
    && (forall x :: x in s ==> x in order)
  }

  /** An enumeration has exactly as many entries as the set has elements. */
  lemma {:induction false} EnumerationLength<K>(order: seq<K>, s: set<K>)
    requires Enumerates(order, s)
    ensures |order| == |s|
  {
    if |order| > 0 {
      var last := order[|order| - 1];
      var rest := order[..|order| - 1];
      assert Enumerates(rest, s - {last}) by {
        forall x | x in s - {last} ensures x in rest {
          var i :| 0 <= i < |order| && order[i] == x;
          assert i != |order| - 1;
        }
      }
      EnumerationLength(rest, s - {last});
    }
  }

  /** The values of `m` met when its keys are visited in `order`. */
  function Visit<K, V>(m: map<K, V>, order: seq<K>): (vs: seq<V>)
    requires forall i :: 0 <= i < |order| ==> order[i] in m
    ensures |vs| == |order|
    ensures forall i :: 0 <= i < |order| ==> vs[i] == m[order[i]]
  {
    seq(|order|, i requires 0 <= i < |order| => m[order[i]])
  }

  /** The order a Go `for k := range m` loop visits the keys of a map in: some
      order listing each key once, chosen by the runtime. */
  method Enumerate<K>(keys: set<K>) returns (order: seq<K>)
    ensures Enumerates(order, keys)
  {
    order := [];
    var todo := keys;
    while todo != {}
      invariant todo <= keys
      invariant forall i :: 0 <= i < |order| ==> order[i] in keys && order[i] !in todo
      invariant forall i, j :: 0 <= i < j < |order| ==> order[i] != order[j]
      invariant forall x :: x in keys && x !in todo ==> x in order
      decreases |todo|
    {
      var x :| x in todo;
      order := order + [x];
      todo := todo - {x};
    }
  }
}
