/** backend/backend.go: a pool of backends, each told about every event and
    closed together. A backend is any value of type `B`; what its `Log` and
    `Close` do is outside the model, so a call on a member is recorded in the
    pool's trace. */
module Backend {
  import opened Collections
  import opened PollerEvent

  /** A call made on one member of the pool. */
  datatype Call<B> = Logged(backend: B, event: Event) | Closed(backend: B)

  /** `btou`: 1 for true, 0 for false. */
  function Btou(b: bool): (n: int)
    ensures n == 1 <==> b
    ensures n == 0 <==> !b
  {
    if b then 1 else 0
  }

  /** `btos`: "UP" for true, "DOWN" for false. */
  function Btos(b: bool): (s: string)
    ensures s == "UP" <==> b
    ensures s == "DOWN" <==> !b
  {
    if b then "UP" else "DOWN"
  }

  /** The calls `Log(e)` makes on the members visited in `order`. */
  function LogCalls<B>(order: seq<B>, e: Event): (cs: seq<Call<B>>)
    ensures |cs| == |order|
    ensures forall i :: 0 <= i < |order| ==> cs[i] == Logged(order[i], e)
  {
    seq(|order|, i requires 0 <= i < |order| => Logged(order[i], e))
  }

  /** The calls `Close()` makes on the members visited in `order`. */
  function CloseCalls<B>(order: seq<B>): (cs: seq<Call<B>>)
    ensures |cs| == |order|
    ensures forall i :: 0 <= i < |order| ==> cs[i] == Closed(order[i])
  {
    seq(|order|, i requires 0 <= i < |order| => Closed(order[i]))
  }

  class Pool<B(==)> {
    /** The keys of the Go map: a backend is a member once added. */
    var members: set<B>
    /** Every call made on a member, in call order. */
    var calls: seq<Call<B>>

    constructor()
      ensures members == {} && calls == []
    {
      members, calls := {}, [];
    }

    /** Add: `b` is a member afterwards; adding a member again changes nothing. */
    method Add(b: B)
      modifies this
      ensures members == old(members) + {b}
      ensures b in old(members) ==> members == old(members)
      ensures calls == old(calls)
    {
      members := members + {b};
    }

    /** Log(e): every member is told about `e` once, in the order the map is
        visited, and nothing else is called. */
    method Log(e: Event) returns (ghost order: seq<B>)
      modifies this
      ensures members == old(members)
      ensures Enumerates(order, members) && |order| == |members|
      ensures calls == old(calls) + LogCalls(order, e)
    {
      var keys := Enumerate(members);
      order := keys;
      for i := 0 to |keys|
        invariant members == old(members)
        invariant calls == old(calls) + LogCalls(keys[..i], e)
      {
        calls := calls + [Logged(keys[i], e)];
        assert LogCalls(keys[..i + 1], e) == LogCalls(keys[..i], e) + [Logged(keys[i], e)];
      }
      assert keys[..|keys|] == keys;
      EnumerationLength(keys, members);
    }

    /** Close(): every member is closed once, in the order the map is visited. */
    method Close() returns (ghost order: seq<B>)
      modifies this
      ensures members == old(members)
      ensures Enumerates(order, members) && |order| == |members|
      ensures calls == old(calls) + CloseCalls(order)
    {
      var keys := Enumerate(members);
      order := keys;
      for i := 0 to |keys|
        invariant members == old(members)
        invariant calls == old(calls) + CloseCalls(keys[..i])
      {
        calls := calls + [Closed(keys[i])];
        assert CloseCalls(keys[..i + 1]) == CloseCalls(keys[..i]) + [Closed(keys[i])];
      }
      assert keys[..|keys|] == keys;
      EnumerationLength(keys, members);
    }
  }
}
