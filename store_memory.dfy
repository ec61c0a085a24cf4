/** store_memory.go: an in-memory store of checks keyed by their key. Every
    operation reports a nil error. */
module StoreMemory {
  import opened Wrappers
  import opened Collections
  import opened PollerCheck
  import opened Scheduling

  class InMemoryStore {
    var list: map<string, Check>

    /** Every check is stored under its own key. */
    ghost predicate Valid()
      reads this
    {
      forall k :: k in list ==> list[k].Key == k
    }

    /** NewInMemoryStore: an empty store. */
    constructor()
      ensures Valid() && list == map[]
    {
      list := map[];
    }

    /** Stores `check` under its key, replacing any check stored there. */
    method Add(check: Check) returns (err: Option<string>)
      requires Valid()
      modifies this
      ensures Valid()
      ensures list == old(list)[check.Key := check]
      ensures |list| == |old(list)| + (if check.Key in old(list) then 0 else 1)
      ensures err == None
    {
      list := list[check.Key := check];
      err := None;
    }

    /** The check stored under `key`, or null. */
    method Get(key: string) returns (c: Check?, err: Option<string>)
      ensures c != null <==> key in list
      ensures c != null ==> c == list[key]
      ensures Valid() && c != null ==> c.Key == key
      ensures err == None
    {
      c := if key in list then list[key] else null;
      err := None;
    }

    /** Removes the check under `key`; an absent key leaves the store as it is. */
    method Remove(key: string) returns (err: Option<string>)
      requires Valid()
      modifies this
      ensures Valid()
      ensures list == old(list) - {key}
      ensures key !in old(list) ==> list == old(list)
      ensures forall k :: k != key && k in old(list) ==> k in list && list[k] == old(list)[k]
      ensures err == None
    {
      list := list - {key};
      err := None;
    }

    /** The number of stored checks. */
    method Len() returns (n: int, err: Option<string>)
      ensures n == |list.Keys| && n >= 0
      ensures n == 0 <==> list == map[]
      ensures err == None
    {
      n := |list|;
      err := None;
    }

    /** ScheduleAll: `Schedule` once per stored check, in the order the map is
        visited; the store itself is left as it is. */
    method ScheduleAll(scheduler: Scheduler) returns (err: Option<string>, ghost order: seq<string>)
      requires Valid()
      modifies scheduler
      ensures Enumerates(order, list.Keys)
      ensures scheduler.calls == old(scheduler.calls) + Visit(list, order)
      ensures scheduler.scheduled == old(scheduler.scheduled) + list
      ensures err == None
    {
      var keys := Enumerate(list.Keys);
      order := keys;
      ghost var before := scheduler.scheduled;
      for i := 0 to |keys|
        invariant scheduler.calls == old(scheduler.calls) + Visit(list, keys[..i])
        invariant forall k :: k in scheduler.scheduled <==> k in before || k in keys[..i]
        invariant forall k :: k in scheduler.scheduled ==>
          scheduler.scheduled[k] == if k in keys[..i] then list[k] else before[k]
      {
        scheduler.Schedule(list[keys[i]]);
        assert keys[..i + 1] == keys[..i] + [keys[i]];
        assert Visit(list, keys[..i + 1]) == Visit(list, keys[..i]) + [list[keys[i]]];
      }
      assert keys[..|keys|] == keys;
      assert scheduler.scheduled == before + list;
      err := None;
    }
  }
}
