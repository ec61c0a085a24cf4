/** config.go: a Config keeps a CheckList and a Scheduler in step, so that the
    scheduler polls exactly the checks of the list. The store is seen through
    what it gives: `Load` takes the outcome of the store's Load, and `Persist`
    records each list handed to the store's Persist. */
module PollerConfig {
  import opened Wrappers
  import opened Collections
  import opened PollerCheck
  import opened ConfigCheckList
  import opened Scheduling

  class Config {
    var checks: CheckList
    const scheduler: Scheduler
    /** Every list handed to the store's Persist, in call order. */
    var persisted: seq<CheckList>

    /** The scheduler polls exactly the checks of the list, under the same keys. */
    ghost predicate Synced()
      reads this, checks, scheduler
    {
      scheduler.scheduled == checks.list
    }

    /** NewConfig: a new, empty list beside the given scheduler, which is not touched. */
    constructor(scheduler: Scheduler)
      ensures fresh(checks) && checks.Valid() && checks.list == map[]
      ensures this.scheduler == scheduler && persisted == []
    {
      checks := new CheckList();
      this.scheduler := scheduler;
      persisted := [];
    }

    /** `checks.Each(scheduler.Schedule)`: every check of the list is scheduled
        once, in the order the list's map is visited. */
    method ScheduleEach() returns (ghost order: seq<string>)
      requires checks.Valid()
      modifies scheduler
      ensures Enumerates(order, checks.list.Keys)
      ensures scheduler.calls == old(scheduler.calls) + Visit(checks.list, order)
      ensures scheduler.scheduled == old(scheduler.scheduled) + checks.list
    {
      var keys, visited := checks.Each();
      order := keys;
      ghost var list, before := checks.list, scheduler.scheduled;
      for i := 0 to |visited|
        invariant checks.list == list
        invariant scheduler.calls == old(scheduler.calls) + Visit(list, keys[..i])
        invariant forall k :: k in scheduler.scheduled <==> k in before || k in keys[..i]
        invariant forall k :: k in scheduler.scheduled ==>
          scheduler.scheduled[k] == if k in keys[..i] then list[k] else before[k]
      {
        scheduler.Schedule(visited[i]);
        assert keys[..i + 1] == keys[..i] + [keys[i]];
        assert Visit(list, keys[..i + 1]) == Visit(list, keys[..i]) + [list[keys[i]]];
      }
      assert keys[..|keys|] == keys;
      assert scheduler.scheduled == before + list;
    }

    /** Load: on the store's error, that error and nothing changes; otherwise
        the store's list is installed, the scheduler is wiped, and every check
        of the new list is scheduled. */
    method Load(loaded: Result<CheckList>) returns (err: Option<string>, ghost order: seq<string>)
      requires loaded.Ok? ==> loaded.value.Valid()
      modifies this, scheduler
      ensures loaded.Err? ==> err == Some(loaded.msg) && checks == old(checks)
      ensures loaded.Err? ==> scheduler.scheduled == old(scheduler.scheduled) && scheduler.calls == old(scheduler.calls)
      ensures loaded.Ok? ==> err == None && checks == loaded.value && checks.list == old(loaded.value.list)
      ensures loaded.Ok? ==> Synced()
      ensures loaded.Ok? ==> Enumerates(order, checks.list.Keys)
      ensures loaded.Ok? ==> scheduler.calls == old(scheduler.calls) + Visit(checks.list, order)
      ensures persisted == old(persisted)
    {
      if loaded.Err? {
        return Some(loaded.msg), [];
      }
      checks := loaded.value;
      scheduler.StopAll();
      order := ScheduleEach();
      err := None;
    }

    /** Persist: the current list is handed to the store. */
    method Persist()
      modifies this
      ensures persisted == old(persisted) + [checks]
      ensures checks == old(checks)
    {
      persisted := persisted + [checks];
    }

    /** Add: the check is stored in the list under its key and scheduled. */
    method Add(chk: Check)
      requires checks.Valid()
      modifies checks, scheduler
      ensures checks.Valid()
      ensures checks.list == old(checks.list)[chk.Key := chk]
      ensures scheduler.scheduled == old(scheduler.scheduled)[chk.Key := chk]
      ensures scheduler.calls == old(scheduler.calls) + [chk]
      ensures old(Synced()) ==> Synced()
    {
      checks.Add(chk);
      scheduler.Schedule(chk);
    }

    /** Clear: the list is emptied and nothing is scheduled any more. */
    method Clear()
      modifies checks, scheduler
      ensures checks.Valid() && checks.list == map[]
      ensures Synced()
      ensures scheduler.calls == old(scheduler.calls)
    {
      checks.Clear();
      scheduler.StopAll();
    }

    /** SetCheckList(cl): the list held until now is emptied, `cl` is installed,
        and every check of `cl` is scheduled. When `cl` is the list already
        held, emptying it empties `cl`, so nothing ends up scheduled. */
    method SetCheckList(cl: CheckList) returns (ghost order: seq<string>)
      requires cl.Valid()
      modifies this, checks, scheduler
      ensures checks == cl
      ensures old(checks).list == map[]
      ensures cl.list == if cl == old(checks) then map[] else old(cl.list)
      ensures Synced()
      ensures cl == old(checks) ==> scheduler.scheduled == map[] && scheduler.calls == old(scheduler.calls)
      ensures Enumerates(order, cl.list.Keys)
      ensures scheduler.calls == old(scheduler.calls) + Visit(cl.list, order)
      ensures persisted == old(persisted)
    {
      Clear();
      checks := cl;
      order := ScheduleEach();
      if cl == old(checks) {
        EnumerationLength(order, cl.list.Keys);
      }
    }
  }
}
