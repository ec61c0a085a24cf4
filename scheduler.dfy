/** scheduler.go: the `Scheduler` interface, as its callers see it. Timers,
    goroutines and the `Next` channel belong to the implementations and are
    not modelled; a scheduler is the set of checks it has been asked to poll
    and not told to stop, by key, plus the record of every `Schedule` call. */
module Scheduling {
  import opened PollerCheck

  class Scheduler {
    /** The checks currently scheduled, by key. */
    var scheduled: map<string, Check>
    /** Every check handed to `Schedule`, in call order. */
    var calls: seq<Check>

    constructor()
      ensures scheduled == map[] && calls == []
    {
      scheduled, calls := map[], [];
    }

    /** Schedule(check): the check is polled under its key from now on. */
    method Schedule(check: Check)
      modifies this
      ensures scheduled == old(scheduled)[check.Key := check]
      ensures calls == old(calls) + [check]
    {
      scheduled := scheduled[check.Key := check];
      calls := calls + [check];
    }

    /** Stop(key): the check under `key` is no longer polled; nothing else changes. */
    method Stop(key: string)
      modifies this
      ensures scheduled == old(scheduled) - {key}
      ensures forall k :: k in scheduled <==> k in old(scheduled) && k != key
      ensures calls == old(calls)
    {
      scheduled := scheduled - {key};
    }

    /** StopAll(): nothing is polled any more. */
    method StopAll()
      modifies this
      ensures scheduled == map[]
      ensures calls == old(calls)
    {
      scheduled := map[];
    }
  }
}
