/** The extension's `chrome.storage.sync` area: a key/value store holding two
    integers, `installDate` (milliseconds since the epoch) and `usageCount`.
    Reads and writes are modelled as sequential, atomic map updates. */
module Storage {
  import opened Wrappers

  const InstallDate := "installDate"
  const UsageCount := "usageCount"

  /** JavaScript truthiness of a stored number: absent (`undefined`) and `0` are falsy. */
  predicate IsTruthy(v: Option<int>)
  {
    v.Some? && v.value != 0
  }

  /** JavaScript's `v || 0` on a stored number. */
  function OrZero(v: Option<int>): (n: int)
    ensures IsTruthy(v) ==> n == v.value
    ensures !IsTruthy(v) ==> n == 0
  {
    if IsTruthy(v) then v.value else 0
  }

  /** `result[key] || 0` after a `get` of `key`. */
  function Lookup(items: map<string, int>, key: string): int
  {
    OrZero(Find(items, key))
  }

  /** The store after one read-modify-write of the usage counter. */
  function Incremented(items: map<string, int>): (r: map<string, int>)
    ensures UsageCount in r && Lookup(r, UsageCount) == Lookup(items, UsageCount) + 1
    ensures r.Keys == items.Keys + {UsageCount}
    ensures forall k :: k in items && k != UsageCount ==> r[k] == items[k]
  {
    items[UsageCount := Lookup(items, UsageCount) + 1]
  }

  /** The store after the install-time initialisation at time `now`. */
  function Installed(items: map<string, int>, now: int): (r: map<string, int>)
    ensures IsTruthy(Find(items, InstallDate)) ==> r == items
    ensures !IsTruthy(Find(items, InstallDate)) ==>
              r.Keys == items.Keys + {InstallDate, UsageCount}
              && r[InstallDate] == now && r[UsageCount] == 0
              && forall k :: k in items && k !in {InstallDate, UsageCount} ==> r[k] == items[k]
  {
    if IsTruthy(Find(items, InstallDate)) then items
    else items + map[InstallDate := now, UsageCount := 0]
  }

  /** Initialising twice records the first install only: the date is written
      once, and a later install neither moves it nor resets the counter.
      (A clock reading of 0 would be stored as a falsy date, so it is excluded.) */
  lemma InstalledOnce(items: map<string, int>, first: int, later: int)
    requires first != 0
    ensures Installed(Installed(items, first), later) == Installed(items, first)
    ensures Lookup(Installed(items, first), InstallDate) != 0
  {
  }

  /** The whole `chrome.storage.sync` area as seen by the extension. */
  class SyncStorage {
    var items: map<string, int>

    constructor (items: map<string, int>)
      ensures this.items == items
    {
      this.items := items;
    }

    /** `chrome.storage.sync.get([key])`: the value stored under `key`, if any. */
    method Get(key: string) returns (v: Option<int>)
      ensures v == Find(items, key)
    {
      v := Find(items, key);
    }

    /** `chrome.storage.sync.set(changes)`: the given keys are overwritten,
        every other key keeps its value. */
    method Set(changes: map<string, int>)
      modifies this
      ensures items.Keys == old(items).Keys + changes.Keys
      ensures forall k :: k in changes ==> items[k] == changes[k]
      ensures forall k :: k in old(items) && k !in changes ==> items[k] == old(items)[k]
    {
      items := items + changes;
    }

    /** Read `usageCount`, add one (a missing or zero value counts as 0), write it back. */
    method IncrementUsage() returns (count: int)
      modifies this
      ensures items == Incremented(old(items))
      ensures count == Lookup(items, UsageCount) == Lookup(old(items), UsageCount) + 1
    {
      var stored := Get(UsageCount);
      count := OrZero(stored) + 1;
      Set(map[UsageCount := count]);
    }
  }
}
