/** alert/alert.go: a pool of alerters, each handed every alerting event. An
    alerter is any value of type `A`; what its `Alert` does is outside the
    model, so each call is recorded in the pool's trace. */
module Alert {
  import opened Collections
  import opened PollerEvent

  /** A call `a.Alert(event)` made on one member of the pool. */
  datatype Call<A> = Alerted(alerter: A, event: Event)

  /** The calls `Alert(e)` makes on the members visited in `order`. */
  function AlertCalls<A>(order: seq<A>, e: Event): (cs: seq<Call<A>>)
    ensures |cs| == |order|
    ensures forall i :: 0 <= i < |order| ==> cs[i] == Alerted(order[i], e)
  {
    seq(|order|, i requires 0 <= i < |order| => Alerted(order[i], e))
  }

  class Pool<A(==)> {
    /** The keys of the Go map: an alerter is a member once added. */
    var members: set<A>
    /** Every call made on a member, in call order. */
    var calls: seq<Call<A>>

    constructor()
      ensures members == {} && calls == []
    {
      members, calls := {}, [];
    }

    /** Add: `a` is a member afterwards, no member is removed, and adding a
        member again changes nothing. */
    method Add(a: A)
      modifies this
      ensures members == old(members) + {a}
      ensures old(members) <= members
      ensures a in old(members) ==> members == old(members)
      ensures calls == old(calls)
    {
      members := members + {a};
    }

    /** Alert(e): every member is handed `e` once, in the order the map is
        visited; on an empty pool nothing happens. */
    method Alert(e: Event) returns (ghost order: seq<A>)
      modifies this
      ensures members == old(members)
      ensures Enumerates(order, members) && |order| == |members|
      ensures calls == old(calls) + AlertCalls(order, e)
      ensures members == {} ==> calls == old(calls)
    {
      var keys := Enumerate(members);
      order := keys;
      for i := 0 to |keys|
        invariant members == old(members)
        invariant calls == old(calls) + AlertCalls(keys[..i], e)
      {
        calls := calls + [Alerted(keys[i], e)];
        assert AlertCalls(keys[..i + 1], e) == AlertCalls(keys[..i], e) + [Alerted(keys[i], e)];
      }
      assert keys[..|keys|] == keys;
      EnumerationLength(keys, members);
    }
  }
}
