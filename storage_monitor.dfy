/**
 * The page-side storage wrapper (storage-monitor.js): `safeNotify` dispatches
 * `rudderstack_storage_changed` at most once per 50 ms, the overridden
 * `setItem`, `removeItem` and `clear` write first and then notify, and the
 * `_throttle` helper follows the same firing rule with its own wait.
 *
 * Times are parameters.  Dispatched events and throttled invocations are
 * logged in the objects; the calls seen so far are ghost.
 */
module StorageMonitor {
  import opened Ordered
  import Entries

  const NOTIFICATION_DELAY: int := 50

  /**
   * The call times among `calls` that fire when a call fires exactly if strictly
   * more than `delay` has passed since the last firing (or since `start`), and
   * a call that does not fire is dropped.
   */
  function Fired(delay: int, start: int, calls: seq<int>): seq<int>
    decreases |calls|
  {
    if |calls| == 0 then []
    else
      var f := Fired(delay, start, calls[..|calls| - 1]);
      var t := calls[|calls| - 1];
      if t - LastFired(delay, start, f) > delay then f + [t] else f
  }

  /** The time of the last firing in `fired`, `start` when there is none. */
  function LastFired(delay: int, start: int, fired: seq<int>): int
  {
    if |fired| == 0 then start else fired[|fired| - 1]
  }

  /** Every firing is the time of one of the calls, and there are no more firings than calls. */
  lemma {:induction false} FiredFromCalls(delay: int, start: int, calls: seq<int>)
    ensures |Fired(delay, start, calls)| <= |calls|
    ensures forall i :: 0 <= i < |Fired(delay, start, calls)| ==> Fired(delay, start, calls)[i] in calls
    decreases |calls|
  {
    if |calls| > 0 {
      var init := calls[..|calls| - 1];
      FiredFromCalls(delay, start, init);
      forall i | 0 <= i < |Fired(delay, start, init)| ensures Fired(delay, start, init)[i] in calls {
        var j :| 0 <= j < |init| && init[j] == Fired(delay, start, init)[i];
        assert calls[j] == init[j];
      }
    }
  }

  /**
   * Firings are spaced by strictly more than `delay`: from the start, and from
   * each other, whatever order the clock readings come in.
   */
  lemma {:induction false} FiredSpaced(delay: int, start: int, calls: seq<int>)
    requires delay >= 0
    ensures forall i :: 0 <= i < |Fired(delay, start, calls)| ==> Fired(delay, start, calls)[i] - start > delay
    ensures forall i, j :: 0 <= i < j < |Fired(delay, start, calls)| ==>
      Fired(delay, start, calls)[j] - Fired(delay, start, calls)[i] > delay
    decreases |calls|
  {
    if |calls| > 0 {
      var init := calls[..|calls| - 1];
      var f := Fired(delay, start, init);
      FiredSpaced(delay, start, init);
      var t := calls[|calls| - 1];
      if t - LastFired(delay, start, f) > delay {
        var g := f + [t];
        assert Fired(delay, start, calls) == g;
        forall i, j | 0 <= i < j < |g| ensures g[j] - g[i] > delay {
          if j < |f| {
            assert g[j] == f[j] && g[i] == f[i];
          } else if i < |f| - 1 {
            assert g[i] == f[i] && f[i] < f[|f| - 1];
          }
        }
      }
    }
  }

  /** A call fires exactly when strictly more than `delay` has passed since the last firing; otherwise nothing fires, now or later. */
  lemma FiredStep(delay: int, start: int, calls: seq<int>, t: int)
    ensures var before := Fired(delay, start, calls);
      var after := Fired(delay, start, calls + [t]);
      && after[..|before|] == before
      && (|after| == |before| + 1 <==> t - LastFired(delay, start, before) > delay)
      && (|after| == |before| + 1 ==> after[|before|] == t && LastFired(delay, start, after) == t)
      && (|after| == |before| ==> LastFired(delay, start, after) == LastFired(delay, start, before))
  {
    assert (calls + [t])[..|calls|] == calls;
  }

  /**
   * The wrapped storage: its contents, the closure's `lastNotification`,
   * the page load time, and the log of dispatched events.
   */
  class Monitor {
    var store: Assoc<string, string>
    var lastNotification: int
    const loadTime: int
    var dispatched: seq<int>
    ghost var calls: seq<int>

    ghost predicate Valid()
      reads this
    {
      && dispatched == Fired(NOTIFICATION_DELAY, loadTime, calls)
      && lastNotification == LastFired(NOTIFICATION_DELAY, loadTime, dispatched)
    }

    /** `lastNotification` starts at the load time. */
    constructor (loadTime: int, store: Assoc<string, string>)
      ensures Valid()
      ensures this.loadTime == loadTime && this.store == store
      ensures lastNotification == loadTime && dispatched == [] && calls == []
    {
      this.loadTime := loadTime;
      this.store := store;
      lastNotification := loadTime;
      dispatched := [];
      calls := [];
    }

    /** `safeNotify()` called at time `now`. */
    method SafeNotify(now: int) returns (fired: bool)
      requires Valid()
      modifies this
      ensures Valid()
      ensures fired <==> now - old(lastNotification) > NOTIFICATION_DELAY
      ensures lastNotification == if fired then now else old(lastNotification)
      ensures dispatched == old(dispatched) + if fired then [now] else []
      ensures calls == old(calls) + [now]
      ensures store == old(store)
    {
      assert (calls + [now])[..|calls|] == calls;
      calls := calls + [now];
      fired := false;
      if now - lastNotification > NOTIFICATION_DELAY {
        lastNotification := now;
        dispatched := dispatched + [now];
        fired := true;
      }
    }

    /**
     * The overridden `setItem`: the original write comes first; `fits` is false
     * when it throws, and then nothing else happens.  A write notifies only for
     * a non-empty `rudder_batch` key.
     */
    method SetItem(key: string, value: string, now: int, fits: bool) returns (fired: bool)
      requires Valid()
      modifies this
      ensures Valid()
      ensures store == if fits then Put(old(store), key, value) else old(store)
      ensures fits && key != "" && Entries.IsBatchKey(key) ==>
        calls == old(calls) + [now] && (fired <==> now - old(lastNotification) > NOTIFICATION_DELAY)
      ensures !(fits && key != "" && Entries.IsBatchKey(key)) ==>
        !fired && calls == old(calls) && dispatched == old(dispatched) && lastNotification == old(lastNotification)
      ensures dispatched == old(dispatched) + if fired then [now] else []
    {
      fired := false;
      if !fits {
        return;
      }
      store := Put(store, key, value);
      if key != "" && Entries.IsBatchKey(key) {
        fired := SafeNotify(now);
      }
    }

    /** The overridden `removeItem`: remove first, then notify only for a non-empty `rudder_batch` key. */
    method RemoveItem(key: string, now: int) returns (fired: bool)
      requires Valid()
      modifies this
      ensures Valid()
      ensures store == Remove(old(store), key)
      ensures key != "" && Entries.IsBatchKey(key) ==>
        calls == old(calls) + [now] && (fired <==> now - old(lastNotification) > NOTIFICATION_DELAY)
      ensures !(key != "" && Entries.IsBatchKey(key)) ==>
        !fired && calls == old(calls) && dispatched == old(dispatched) && lastNotification == old(lastNotification)
      ensures dispatched == old(dispatched) + if fired then [now] else []
    {
      fired := false;
      store := Remove(store, key);
      if key != "" && Entries.IsBatchKey(key) {
        fired := SafeNotify(now);
      }
    }

    /** The overridden `clear`: clear, then notify whatever the keys were. */
    method Clear(now: int) returns (fired: bool)
      requires Valid()
      modifies this
      ensures Valid()
      ensures store == []
      ensures calls == old(calls) + [now]
      ensures fired <==> now - old(lastNotification) > NOTIFICATION_DELAY
      ensures dispatched == old(dispatched) + if fired then [now] else []
    {
      store := [];
      fired := SafeNotify(now);
    }
  }

  /** `window._throttle(fn, wait)`: `last` starts at 0 and moves only when `fn` is invoked. */
  class Throttle {
    var last: int
    const wait: int
    var invoked: seq<int>
    ghost var calls: seq<int>

    ghost predicate Valid()
      reads this
    {
      invoked == Fired(wait, 0, calls) && last == LastFired(wait, 0, invoked)
    }

    constructor (wait: int)
      ensures Valid()
      ensures this.wait == wait && last == 0 && invoked == [] && calls == []
    {
      this.wait := wait;
      last := 0;
      invoked := [];
      calls := [];
    }

    /** One call of the throttled function at time `now`. */
    method Call(now: int) returns (invoke: bool)
      requires Valid()
      modifies this
      ensures Valid()
      ensures invoke <==> now - old(last) > wait
      ensures last == if invoke then now else old(last)
      ensures invoked == old(invoked) + if invoke then [now] else []
      ensures calls == old(calls) + [now]
    {
      assert (calls + [now])[..|calls|] == calls;
      calls := calls + [now];
      invoke := false;
      if now - last > wait {
        last := now;
        invoked := invoked + [now];
        invoke := true;
      }
    }
  }
}
