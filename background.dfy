/** The background service worker: install-time initialisation of the store and
    the `updateUsageCount` message handler. */
module Background {
  import opened Wrappers
  import opened Storage

  const UpdateUsageCount := "updateUsageCount"

  /** The acknowledgement `{success, count}` sent back to the requesting script. */
  datatype Response = Response(success: bool, count: int)

  /** `runtime.onInstalled`: when no (truthy) install date is stored, record `now`
      as the install date and start the counter at 0; otherwise leave the store alone. */
  method OnInstalled(store: SyncStorage, now: int)
    modifies store
    ensures store.items == Installed(old(store.items), now)
  {
    var installDate := store.Get(InstallDate);
    if !IsTruthy(installDate) {
      store.Set(map[InstallDate := now, UsageCount := 0]);
    }
  }

  /** `runtime.onMessage`: an `updateUsageCount` request increments the counter and
      is answered with the new count; any other request is ignored and gets no answer. */
  method OnMessage(store: SyncStorage, action: string) returns (response: Option<Response>)
    modifies store
    ensures action == UpdateUsageCount ==>
              store.items == Incremented(old(store.items))
              && response == Some(Response(true, Lookup(store.items, UsageCount)))
    ensures action != UpdateUsageCount ==>
              store.items == old(store.items) && response == None
    ensures store.items == Handled(old(store.items), action)
  {
    if action == UpdateUsageCount {
      var count := store.IncrementUsage();
      response := Some(Response(true, count));
    } else {
      response := None;
    }
  }

  /** The store after the handler has processed one message. */
  function Handled(items: map<string, int>, action: string): map<string, int>
  {
    if action == UpdateUsageCount then Incremented(items) else items
  }

  /** The store after the handler has processed `actions`, in order. */
  function Deliver(items: map<string, int>, actions: seq<string>): map<string, int>
    decreases |actions|
  {
    if actions == [] then items else Deliver(Handled(items, actions[0]), actions[1..])
  }

  /** How many of `actions` are `updateUsageCount` requests. */
  function Updates(actions: seq<string>): nat
  {
    if actions == [] then 0
    else (if actions[0] == UpdateUsageCount then 1 else 0) + Updates(actions[1..])
  }

  /** N `updateUsageCount` messages raise the counter by exactly N, whatever other
      messages are interleaved, and no other key changes. */
  lemma {:induction false} DeliverCounts(items: map<string, int>, actions: seq<string>)
    ensures Lookup(Deliver(items, actions), UsageCount) == Lookup(items, UsageCount) + Updates(actions)
    ensures forall k :: k != UsageCount ==>
              (k in Deliver(items, actions) <==> k in items)
              && (k in items ==> Deliver(items, actions)[k] == items[k])
    decreases |actions|
  {
    if actions != [] {
      DeliverCounts(Handled(items, actions[0]), actions[1..]);
    }
  }

  /** `n` update messages in a row. */
  function Ups(n: nat): (r: seq<string>)
    ensures |r| == n
  {
    if n == 0 then [] else Ups(n - 1) + [UpdateUsageCount]
  }

  /** The store after `n` successful insertions, each of which increments the counter. */
  function IncrementedTimes(items: map<string, int>, n: nat): map<string, int>
  {
    if n == 0 then items else Incremented(IncrementedTimes(items, n - 1))
  }

  /** Deliver over a sequence ending in one more message is one more step. */
  lemma {:induction false} DeliverSnoc(items: map<string, int>, actions: seq<string>, a: string)
    ensures Deliver(items, actions + [a]) == Handled(Deliver(items, actions), a)
    decreases |actions|
  {
    if actions != [] {
      assert (actions + [a])[1..] == actions[1..] + [a];
      DeliverSnoc(Handled(items, actions[0]), actions[1..], a);
    }
  }

  /** N successful insertions have the same effect on the store as N
      `updateUsageCount` messages: the counter rises by exactly N and no other
      key changes. */
  lemma {:induction false} InsertionsCount(items: map<string, int>, n: nat)
    ensures IncrementedTimes(items, n) == Deliver(items, Ups(n))
    ensures Updates(Ups(n)) == n
    ensures Lookup(IncrementedTimes(items, n), UsageCount) == Lookup(items, UsageCount) + n
  {
    if n > 0 {
      InsertionsCount(items, n - 1);
      DeliverSnoc(items, Ups(n - 1), UpdateUsageCount);
      UpdatesSnoc(Ups(n - 1), UpdateUsageCount);
    }
    DeliverCounts(items, Ups(n));
  }

  lemma {:induction false} UpdatesSnoc(actions: seq<string>, a: string)
    ensures Updates(actions + [a]) == Updates(actions) + (if a == UpdateUsageCount then 1 else 0)
    decreases |actions|
  {
    if actions != [] {
      assert (actions + [a])[1..] == actions[1..] + [a];
      UpdatesSnoc(actions[1..], a);
    }
  }

  /** A fresh install followed by `actions` leaves the counter at the number of
      `updateUsageCount` requests among them and the install date at `now`. */
  lemma InstallThenDeliver(items: map<string, int>, now: int, actions: seq<string>)
    requires !IsTruthy(Find(items, InstallDate))
    ensures Lookup(Deliver(Installed(items, now), actions), UsageCount) == Updates(actions)
    ensures Lookup(Deliver(Installed(items, now), actions), InstallDate) == now
  {
    DeliverCounts(Installed(items, now), actions);
  }
}
