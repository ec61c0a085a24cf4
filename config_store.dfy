/** config_store.go: the in-memory `Store`, which keeps the list last
    persisted and hands that same list back. Neither operation reports an
    error. */
module ConfigStore {
  import opened Wrappers
  import opened ConfigCheckList

  class InMemoryStore {
    var checks: CheckList

    /** NewInMemoryStore: a store holding a new, empty list. */
    constructor()
      ensures fresh(checks) && checks.Valid() && checks.list == map[]
    {
      checks := new CheckList();
    }

    /** Load: the list held, itself and not a copy. */
    method Load() returns (cl: CheckList, err: Option<string>)
      ensures cl == checks
      ensures err == None
    {
      cl, err := checks, None;
    }

    /** Persist(cl): the store holds `cl` from now on, whatever it held before. */
    method Persist(cl: CheckList) returns (err: Option<string>)
      modifies this
      ensures checks == cl
      ensures err == None
    {
      checks, err := cl, None;
    }
  }
}
