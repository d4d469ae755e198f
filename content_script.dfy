/**
 * The page-side observer (contentScript.js): it reads the page's storage,
 * merges the events of intercepted batch requests, forwards a snapshot over its
 * port only when it changed, and keeps its connection state.
 *
 * The port, the storage, `chrome.runtime` and the clock are parameters: a
 * storage read is a sequence of `Slot`s, the presence of `chrome.runtime` is
 * `runtime`, whether `postMessage` or `connect` succeed are `postOk` and
 * `connects`.  Messages posted and reconnections scheduled are logged in the
 * state.
 */
module ContentScript {
  import opened Wrappers
  import opened Json
  import opened Ordered
  import opened Entries
  import Text
  import Popup

  const MAX_RECONNECT_ATTEMPTS: nat := 3

  /* ---------------- safeGetLocalStorage ---------------- */

  /** Index `i` of the storage: `key(i)` with `getItem(key)`, or `Unreadable` when reading it throws. */
  datatype Slot = Readable(key: string, value: string) | Unreadable

  /** The reader keeps a slot when it reads, its key is a non-empty `rudder_batch` key, and its value is non-empty. */
  predicate Kept(s: Slot)
  {
    s.Readable? && s.key != "" && IsBatchKey(s.key) && s.value != ""
  }

  /** The items the index loop has built after the slots `slots`. */
  function Read(codec: Codec, slots: seq<Slot>, now: int): Items
    decreases |slots|
  {
    if |slots| == 0 then []
    else
      var items := Read(codec, slots[..|slots| - 1], now);
      var s := slots[|slots| - 1];
      if Kept(s) then Put(items, s.key, DecodeEntry(codec, s.key, s.value, now)) else items
  }

  /**
   * `safeGetLocalStorage()`: `storage` is `None` when there is no storage or
   * reading it throws outright, and the answer is then empty.
   */
  method SafeGetLocalStorage(codec: Codec, storage: Option<seq<Slot>>, now: int) returns (items: Items)
    ensures storage.None? ==> items == []
    ensures storage.Some? ==> items == Read(codec, storage.value, now)
  {
    items := [];
    if storage.None? {
      return;
    }
    var slots := storage.value;
    var i := 0;
    while i < |slots|
      invariant 0 <= i <= |slots|
      invariant items == Read(codec, slots[..i], now)
    {
      assert slots[..i + 1][..i] == slots[..i];
      var slot := slots[i];
      if slot.Unreadable? {
        // reading this index threw: skip it
      } else if slot.key == "" || !Text.StartsWith(slot.key, BATCH_PREFIX) {
        // not a batch key
      } else if slot.value == "" {
        // empty value
      } else {
        items := Put(items, slot.key, DecodeEntry(codec, slot.key, slot.value, now));
      }
      i := i + 1;
    }
    assert slots[..|slots|] == slots;
  }

  /** The key/value pairs the content script keeps, in storage order. */
  function KeptPairs(slots: seq<Slot>): Assoc<string, string>
    decreases |slots|
  {
    if |slots| == 0 then []
    else
      var s := slots[|slots| - 1];
      KeptPairs(slots[..|slots| - 1]) + if Kept(s) then [(s.key, s.value)] else []
  }

  /**
   * Both readers apply one rule: the content script's result is the panel
   * reader's snapshot of the readable, non-empty slots.
   */
  lemma {:induction false} ReadIsSnapshot(codec: Codec, slots: seq<Slot>, now: int)
    ensures Read(codec, slots, now) == Popup.Snapshot(codec, Some(KeptPairs(slots)), now)
    decreases |slots|
  {
    if |slots| > 0 {
      var init := slots[..|slots| - 1];
      var s := slots[|slots| - 1];
      ReadIsSnapshot(codec, init, now);
      if Kept(s) {
        var pairs := KeptPairs(init) + [(s.key, s.value)];
        assert KeptPairs(slots) == pairs;
        assert pairs[..|pairs| - 1] == KeptPairs(init);
        assert pairs[|pairs| - 1] == (s.key, s.value);
        assert Popup.Collect(codec, pairs, now)
            == Put(Popup.Collect(codec, KeptPairs(init), now), s.key, DecodeEntry(codec, s.key, s.value, now));
      } else {
        assert KeptPairs(slots) == KeptPairs(init) + [] == KeptPairs(init);
      }
    }
  }

  lemma {:induction false} KeptPairsKeys(slots: seq<Slot>, k: string)
    ensures Has(KeptPairs(slots), k) <==> exists i :: 0 <= i < |slots| && Kept(slots[i]) && slots[i].key == k
    decreases |slots|
  {
    if |slots| > 0 {
      var init := slots[..|slots| - 1];
      var s := slots[|slots| - 1];
      KeptPairsKeys(init, k);
      if Kept(s) {
        LookupAppend(KeptPairs(init), s.key, s.value, k);
      } else {
        assert KeptPairs(slots) == KeptPairs(init) + [] == KeptPairs(init);
      }
      if exists i :: 0 <= i < |slots| && Kept(slots[i]) && slots[i].key == k {
        var i :| 0 <= i < |slots| && Kept(slots[i]) && slots[i].key == k;
        if i < |slots| - 1 { assert init[i] == slots[i]; }
      }
      if exists i :: 0 <= i < |init| && Kept(init[i]) && init[i].key == k {
        var i :| 0 <= i < |init| && Kept(init[i]) && init[i].key == k;
        assert slots[i] == init[i];
        assert 0 <= i < |slots| && Kept(slots[i]) && slots[i].key == k;
      }
    }
  }

  /**
   * The reader's keys are exactly the keys of readable slots holding a
   * non-empty value under a `rudder_batch` key, each once, each decoded by
   * the shared rule from its stored text.
   */
  lemma ReadExact(codec: Codec, slots: seq<Slot>, now: int, k: string)
    ensures Unique(Read(codec, slots, now))
    ensures Has(Read(codec, slots, now), k) <==> exists i :: 0 <= i < |slots| && Kept(slots[i]) && slots[i].key == k
    ensures Has(Read(codec, slots, now), k) ==>
      (Has(KeptPairs(slots), k) &&
       DecodedFrom(codec, k, Lookup(KeptPairs(slots), k).value, Lookup(Read(codec, slots, now), k).value))
  {
    ReadIsSnapshot(codec, slots, now);
    KeptPairsKeys(slots, k);
    Popup.SnapshotExact(codec, Some(KeptPairs(slots)), now, k);
    if Has(Read(codec, slots, now), k) {
      Popup.SnapshotEntry(codec, Some(KeptPairs(slots)), now, k);
    }
  }

  lemma {:induction false} KeptPairsSkip(a: seq<Slot>, b: seq<Slot>)
    ensures KeptPairs(a + [Unreadable] + b) == KeptPairs(a + b)
    decreases |b|
  {
    if |b| == 0 {
      assert (a + [Unreadable] + b)[..|a|] == a;
      assert a + b == a;
    } else {
      var b' := b[..|b| - 1];
      KeptPairsSkip(a, b');
      assert (a + [Unreadable] + b)[..|a| + |b|] == a + [Unreadable] + b';
      assert (a + b)[..|a| + |b| - 1] == a + b';
    }
  }

  /** A slot whose reading throws is skipped, and only that slot. */
  lemma UnreadableSkipped(codec: Codec, a: seq<Slot>, b: seq<Slot>, now: int)
    ensures Read(codec, a + [Unreadable] + b, now) == Read(codec, a + b, now)
  {
    ReadIsSnapshot(codec, a + [Unreadable] + b, now);
    ReadIsSnapshot(codec, a + b, now);
    KeptPairsSkip(a, b);
  }

  /**
   * Every snapshot carries its reading time, so the same non-empty storage read
   * at two different instants never serialises the same way.
   */
  lemma ReadDiffersAcrossTime(codec: Codec, slots: seq<Slot>, t1: int, t2: int, k: string)
    requires t1 != t2
    requires exists i :: 0 <= i < |slots| && Kept(slots[i]) && slots[i].key == k
    ensures Read(codec, slots, t1) != Read(codec, slots, t2)
  {
    ReadExact(codec, slots, t1, k);
    ReadIsSnapshot(codec, slots, t1);
    ReadIsSnapshot(codec, slots, t2);
    Popup.SnapshotEntry(codec, Some(KeptPairs(slots)), t1, k);
    Popup.SnapshotExact(codec, Some(KeptPairs(slots)), t2, k);
    Popup.SnapshotEntry(codec, Some(KeptPairs(slots)), t2, k);
  }

  /* ---------------- batch events ---------------- */

  /** `batch_event_<index>`. */
  function BatchKey(index: nat): string
  {
    "batch_event_" + Text.Decimal(index)
  }

  lemma BatchKeyInjective(i: nat, j: nat)
    requires BatchKey(i) == BatchKey(j)
    ensures i == j
  {
    var p := "batch_event_";
    assert Text.Decimal(i) == BatchKey(i)[|p|..] == BatchKey(j)[|p|..] == Text.Decimal(j);
    Text.DecimalInjective(i, j);
  }

  /** Batch keys never look like storage keys, so merged events never replace a stored entry. */
  lemma BatchKeyNotStored(i: nat)
    ensures !IsBatchKey(BatchKey(i))
  {
    if IsBatchKey(BatchKey(i)) {
      Text.PrefixesDisagree(BatchKey(i), BATCH_PREFIX, "batch_event_");
      assert false;
    }
  }

  /** `{...event, timestamp: message.timestamp}` for every event of the message. */
  function Stamped(events: seq<Json>, timestamp: int): (r: seq<Json>)
    ensures |r| == |events|
  {
    seq(|events|, i requires 0 <= i < |events| => WithField(events[i], "timestamp", JNum(timestamp)))
  }

  /**
   * Each stamped event is an object holding the message's `timestamp` and,
   * under every other name, what the spread copies from the original: an
   * object event's own field, an array or string event's element or character
   * under its index, nothing from any other value.
   */
  lemma StampedFields(events: seq<Json>, timestamp: int, i: nat, name: string, k: nat)
    requires i < |events|
    ensures Stamped(events, timestamp)[i].JObj?
    ensures Field(Stamped(events, timestamp)[i], "timestamp") == Some(JNum(timestamp))
    ensures name != "timestamp" && events[i].JObj? ==> Field(Stamped(events, timestamp)[i], name) == Field(events[i], name)
    ensures events[i].JArr? ==>
      Field(Stamped(events, timestamp)[i], Text.Decimal(k)) == if k < |events[i].elems| then Some(events[i].elems[k]) else None
    ensures events[i].JStr? ==>
      Field(Stamped(events, timestamp)[i], Text.Decimal(k)) == if k < |events[i].s| then Some(JStr([events[i].s[k]])) else None
    ensures name != "timestamp" && !events[i].JObj? && (forall d: nat :: name != Text.Decimal(d)) ==>
      Field(Stamped(events, timestamp)[i], name) == None
  {
    SpreadFields(events[i], name, k);
    assert Text.Decimal(k) != "timestamp" by {
      var s := Text.Decimal(k);
      assert s[|s| - 1] == Text.DigitChar(k % 10);
      assert "timestamp"[8] == 'p';
    }
  }

  /** `event.timestamp || Date.now()`; events are stamped with a number, so only that case arises. */
  function EventTime(event: Json, now: int): int
  {
    match Field(event, "timestamp")
    case Some(JNum(t)) => if t != 0 then t else now
    case _ => now
  }

  /** The entry merged for one batch event. */
  function BatchEntry(codec: Codec, event: Json, now: int): Entry
  {
    Entry(codec.stringify(event), event, OrElse(Field(event, "event"), JStr("Batch Event")),
          OrElse(Field(event, "properties"), JNull), Some(EventTime(event, now)), true, None)
  }

  /** The `batchEvents.forEach` writing each event under its index key. */
  function MergeBatch(codec: Codec, items: Items, events: seq<Json>, now: int): Items
    decreases |events|
  {
    if |events| == 0 then items
    else Put(MergeBatch(codec, items, events[..|events| - 1], now), BatchKey(|events| - 1),
             BatchEntry(codec, events[|events| - 1], now))
  }

  /** Event `i` is found under `batch_event_<i>`, as a batch entry built from it. */
  lemma {:induction false} MergeBatchAt(codec: Codec, items: Items, events: seq<Json>, now: int, i: nat)
    requires i < |events|
    ensures Lookup(MergeBatch(codec, items, events, now), BatchKey(i)) == Some(BatchEntry(codec, events[i], now))
    decreases |events|
  {
    var n := |events| - 1;
    LookupPut(MergeBatch(codec, items, events[..n], now), BatchKey(n), BatchEntry(codec, events[n], now), BatchKey(i));
    if i < n {
      if BatchKey(n) == BatchKey(i) { BatchKeyInjective(n, i); }
      MergeBatchAt(codec, items, events[..n], now, i);
    }
  }

  /** A key that is no event's index key keeps what the storage reader gave it. */
  lemma {:induction false} MergeBatchElse(codec: Codec, items: Items, events: seq<Json>, now: int, k: string)
    requires forall i: nat :: i < |events| ==> BatchKey(i) != k
    ensures Lookup(MergeBatch(codec, items, events, now), k) == Lookup(items, k)
    decreases |events|
  {
    if |events| > 0 {
      var n := |events| - 1;
      var init := events[..n];
      var before := MergeBatch(codec, items, init, now);
      assert MergeBatch(codec, items, events, now) == Put(before, BatchKey(n), BatchEntry(codec, events[n], now));
      assert BatchKey(n) != k;
      LookupPut(before, BatchKey(n), BatchEntry(codec, events[n], now), k);
      assert |init| == n && forall i: nat :: i < |init| ==> BatchKey(i) != k;
      MergeBatchElse(codec, items, init, now, k);
    }
  }

  /** Merging leaves every stored `rudder_batch` entry as read. */
  lemma MergeKeepsStored(codec: Codec, items: Items, events: seq<Json>, now: int, k: string)
    requires IsBatchKey(k)
    ensures Lookup(MergeBatch(codec, items, events, now), k) == Lookup(items, k)
  {
    forall i: nat | i < |events| ensures BatchKey(i) != k {
      BatchKeyNotStored(i);
    }
    MergeBatchElse(codec, items, events, now, k);
  }

  /* ---------------- observer state ---------------- */

  /**
   * The closure variables: `lastProcessedState`, `isExtensionActive`, whether
   * `port` and `monitoringInterval` are set, `batchEvents`,
   * `reconnectAttempts`; and, as logs, the snapshots posted on the port and the
   * delays of the reconnections scheduled.
   */
  datatype ObserverState = ObserverState(
    lastProcessedState: Items,
    isExtensionActive: bool,
    hasPort: bool,
    hasInterval: bool,
    batchEvents: seq<Json>,
    reconnectAttempts: nat,
    posted: seq<Items>,
    scheduled: seq<int>)

  function Pow2(n: nat): nat
  {
    if n == 0 then 1 else 2 * Pow2(n - 1)
  }

  /** `1000 * Math.pow(2, attempts)`. */
  function RetryDelay(attempts: nat): nat
  {
    1000 * Pow2(attempts)
  }

  /**
   * What every reachable observer satisfies: at most three reconnections, the
   * k-th scheduled after `RetryDelay(k)`; an inactive observer has nothing
   * left to clean up; a port exists only while active.
   */
  ghost predicate ObserverInv(s: ObserverState)
  {
    Steady(s) && (!s.isExtensionActive ==> s.batchEvents == [])
  }

  /** The invariant apart from `batchEvents`, which a batch request sets before checking whether the observer is active. */
  ghost predicate Steady(s: ObserverState)
  {
    && s.reconnectAttempts <= MAX_RECONNECT_ATTEMPTS
    && |s.scheduled| == s.reconnectAttempts
    && (forall i :: 0 <= i < |s.scheduled| ==> s.scheduled[i] == RetryDelay(i + 1))
    && (!s.isExtensionActive ==> s.lastProcessedState == [] && !s.hasPort && !s.hasInterval)
    && (s.hasPort ==> s.isExtensionActive)
  }

  /** `cleanup()`. */
  function Cleaned(s: ObserverState): ObserverState
  {
    s.(lastProcessedState := [], isExtensionActive := false, hasPort := false, hasInterval := false, batchEvents := [])
  }

  /** `handleConnectionError()`. */
  function AfterConnectionError(s: ObserverState, runtime: bool): ObserverState
  {
    var c := Cleaned(s);
    if runtime && c.reconnectAttempts < MAX_RECONNECT_ATTEMPTS then
      c.(reconnectAttempts := c.reconnectAttempts + 1,
         scheduled := c.scheduled + [RetryDelay(c.reconnectAttempts + 1)])
    else c
  }

  /** The change gate: forward `items` only when it differs from what was forwarded last. */
  function Gate(last: Items, items: Items): Option<Items>
  {
    if items != last then Some(items) else None
  }

  /** The map `processLocalStorageItems` builds: the storage read plus the batch events. */
  function Merged(codec: Codec, storage: Option<seq<Slot>>, events: seq<Json>, now: int): Items
  {
    MergeBatch(codec, if storage.Some? then Read(codec, storage.value, now) else [], events, now)
  }

  /** `processLocalStorageItems()`: the new state and the returned map (`None` for `null`). */
  function ProcessPass(s: ObserverState, codec: Codec, storage: Option<seq<Slot>>, now: int): (ObserverState, Option<Items>)
  {
    if !s.isExtensionActive then (s, None)
    else
      var out := Gate(s.lastProcessedState, Merged(codec, storage, s.batchEvents, now));
      (if out.Some? then s.(lastProcessedState := out.value) else s, out)
  }

  /** `checkAndNotifyChanges()`. */
  function CheckPass(s: ObserverState, runtime: bool, codec: Codec, storage: Option<seq<Slot>>, now: int, postOk: bool): ObserverState
  {
    if !s.isExtensionActive || !runtime then Cleaned(s)
    else
      var (s1, out) := ProcessPass(s, codec, storage, now);
      if out.Some? && s1.hasPort then
        if postOk then s1.(posted := s1.posted + [out.value]) else AfterConnectionError(s1, runtime)
      else s1
  }

  /**
   * Both `batchRequest` listeners, in registration order.  `data` that is not an
   * array makes both throw before any change.  The second listener filters
   * through a `seenItems` that does not exist in this script: with a non-empty
   * array the filter callback throws a ReferenceError, which its catch
   * swallows; with an empty array it clears `batchEvents` and checks again.
   */
  function BatchRequestPass(s: ObserverState, data: Json, timestamp: int, runtime: bool, codec: Codec,
                            storage: Option<seq<Slot>>, now: int, postOk: bool): ObserverState
  {
    match data
    case JArr(events) =>
      var s1 := CheckPass(s.(batchEvents := Stamped(events, timestamp)), runtime, codec, storage, now, postOk);
      if |events| == 0 then CheckPass(s1.(batchEvents := []), runtime, codec, storage, now, postOk) else s1
    case _ => s
  }

  /** `setupConnection()`; `connects` is false when `chrome.runtime.connect` throws. */
  function ConnectPass(s: ObserverState, runtime: bool, connects: bool): ObserverState
  {
    var c := Cleaned(s);
    if runtime && connects then c.(hasPort := true, isExtensionActive := true, hasInterval := true) else c
  }

  /** The port's `onDisconnect` listener: it cleans up only when `chrome.runtime.lastError` is set. */
  function DisconnectPass(s: ObserverState, lastError: bool): ObserverState
  {
    if lastError then Cleaned(s) else s
  }

  /* ---------------- properties ---------------- */

  /** `cleanup()` leaves no interval, no port, no batch events, an inactive observer and an empty last state; twice is once. */
  lemma CleanupSettles(s: ObserverState)
    ensures var c := Cleaned(s);
      && !c.hasInterval && !c.hasPort && c.batchEvents == [] && !c.isExtensionActive && c.lastProcessedState == []
      && c.reconnectAttempts == s.reconnectAttempts && c.posted == s.posted && c.scheduled == s.scheduled
      && Cleaned(c) == c
  {
  }

  /**
   * The gate forwards exactly a changed map and remembers it; an unchanged map
   * is dropped with the state kept, so repeating a forwarded map is silent.
   */
  lemma GateForwardsChanges(s: ObserverState, codec: Codec, storage: Option<seq<Slot>>, now: int)
    requires s.isExtensionActive
    ensures var (s1, out) := ProcessPass(s, codec, storage, now);
      var items := Merged(codec, storage, s.batchEvents, now);
      && (out.Some? <==> items != s.lastProcessedState)
      && (out.Some? ==> out.value == items && s1.lastProcessedState == items)
      && (out.None? ==> s1 == s)
      && ProcessPass(s1, codec, storage, now).1.None?
  {
  }

  /** An inactive observer returns nothing from processing and only cleans up when checking. */
  lemma InactiveIsSilent(s: ObserverState, runtime: bool, codec: Codec, storage: Option<seq<Slot>>, now: int, postOk: bool)
    requires !s.isExtensionActive
    ensures ProcessPass(s, codec, storage, now) == (s, None)
    ensures CheckPass(s, runtime, codec, storage, now, postOk) == Cleaned(s)
  {
  }

  /** A check posts at most one message, and only a changed map while a port exists. */
  lemma CheckPostsOnlyChanges(s: ObserverState, runtime: bool, codec: Codec, storage: Option<seq<Slot>>, now: int, postOk: bool)
    ensures var r := CheckPass(s, runtime, codec, storage, now, postOk);
      var items := Merged(codec, storage, s.batchEvents, now);
      r.posted == s.posted + if s.isExtensionActive && runtime && s.hasPort && postOk && items != s.lastProcessedState
                             then [items] else []
  {
  }

  /** The merged map holds each batch event under its index key and every stored entry unchanged. */
  lemma MergedContents(codec: Codec, storage: Option<seq<Slot>>, events: seq<Json>, now: int, k: string)
    ensures forall i: nat :: i < |events| ==>
      Lookup(Merged(codec, storage, events, now), BatchKey(i)) == Some(BatchEntry(codec, events[i], now))
    ensures IsBatchKey(k) && storage.Some? ==>
      Lookup(Merged(codec, storage, events, now), k) == Lookup(Read(codec, storage.value, now), k)
  {
    var base := if storage.Some? then Read(codec, storage.value, now) else [];
    forall i: nat | i < |events|
      ensures Lookup(Merged(codec, storage, events, now), BatchKey(i)) == Some(BatchEntry(codec, events[i], now))
    {
      MergeBatchAt(codec, base, events, now, i);
    }
    if IsBatchKey(k) {
      MergeKeepsStored(codec, base, events, now, k);
    }
  }

  /**
   * After a batch request with an array, `batchEvents` holds the stamped events
   * (a non-empty array) or nothing (an empty one) while the observer stays
   * active, and nothing once it is not; any other data changes nothing.
   */
  lemma BatchRequestEvents(s: ObserverState, data: Json, timestamp: int, runtime: bool, codec: Codec,
                           storage: Option<seq<Slot>>, now: int, postOk: bool)
    requires ObserverInv(s)
    ensures var r := BatchRequestPass(s, data, timestamp, runtime, codec, storage, now, postOk);
      && (!data.JArr? ==> r == s)
      && (data.JArr? ==> r.batchEvents == if r.isExtensionActive then Stamped(data.elems, timestamp) else [])
  {
    if data.JArr? {
      var s0 := s.(batchEvents := Stamped(data.elems, timestamp));
      var s1 := CheckPass(s0, runtime, codec, storage, now, postOk);
      CheckKeepsInv(s0, runtime, codec, storage, now, postOk);
      assert s1.isExtensionActive ==> s1.batchEvents == s0.batchEvents;
      if |data.elems| == 0 {
        var s2 := CheckPass(s1.(batchEvents := []), runtime, codec, storage, now, postOk);
        assert s2.batchEvents == [];
      }
    }
  }

  /** Cleaning up and handling a connection error keep the observer invariant. */
  lemma CleanupKeepsInv(s: ObserverState, runtime: bool)
    requires Steady(s)
    ensures ObserverInv(Cleaned(s))
    ensures ObserverInv(AfterConnectionError(s, runtime))
  {
  }

  /** A check keeps the invariant, even from a state whose `batchEvents` were just set. */
  lemma CheckKeepsInv(s: ObserverState, runtime: bool, codec: Codec, storage: Option<seq<Slot>>, now: int, postOk: bool)
    requires Steady(s)
    ensures ObserverInv(CheckPass(s, runtime, codec, storage, now, postOk))
  {
    CleanupKeepsInv(s, runtime);
    if s.isExtensionActive && runtime {
      var (s1, out) := ProcessPass(s, codec, storage, now);
      CleanupKeepsInv(s1, runtime);
    }
  }

  /** A batch request and a connection keep the observer invariant. */
  lemma RequestsKeepInv(s: ObserverState, runtime: bool, connects: bool, lastError: bool, data: Json, timestamp: int,
                        codec: Codec, storage: Option<seq<Slot>>, now: int, postOk: bool)
    requires ObserverInv(s)
    ensures ObserverInv(BatchRequestPass(s, data, timestamp, runtime, codec, storage, now, postOk))
    ensures ObserverInv(ConnectPass(s, runtime, connects))
    ensures ObserverInv(DisconnectPass(s, lastError))
  {
    if data.JArr? {
      var s1 := CheckPass(s.(batchEvents := Stamped(data.elems, timestamp)), runtime, codec, storage, now, postOk);
      CheckKeepsInv(s.(batchEvents := Stamped(data.elems, timestamp)), runtime, codec, storage, now, postOk);
      CheckKeepsInv(s1.(batchEvents := []), runtime, codec, storage, now, postOk);
    }
  }

  /** The observer after `n` successive connection errors. */
  function AfterErrors(s: ObserverState, n: nat, runtime: bool): ObserverState
    decreases n
  {
    if n == 0 then s else AfterErrors(AfterConnectionError(s, runtime), n - 1, runtime)
  }

  /**
   * With `chrome.runtime` present, `n` connection errors raise the attempt
   * counter by one each until it reaches the maximum: it ends at
   * `min(attempts + n, 3)` and is never reset.
   */
  lemma {:induction false} AttemptsSaturate(s: ObserverState, n: nat)
    requires s.reconnectAttempts <= MAX_RECONNECT_ATTEMPTS
    ensures AfterErrors(s, n, true).reconnectAttempts ==
      if s.reconnectAttempts + n <= MAX_RECONNECT_ATTEMPTS then s.reconnectAttempts + n else MAX_RECONNECT_ATTEMPTS
    decreases n
  {
    if n > 0 {
      AttemptsSaturate(AfterConnectionError(s, true), n - 1);
    }
  }

  /**
   * No transition resets the attempt counter: cleaning up, processing,
   * connecting and disconnecting leave it as it is, and a connection error
   * raises it by one while `chrome.runtime` is present and the bound is not
   * reached.
   */
  lemma AttemptsNeverDecrease(s: ObserverState, runtime: bool, connects: bool, lastError: bool,
                              codec: Codec, storage: Option<seq<Slot>>, now: int)
    ensures Cleaned(s).reconnectAttempts == s.reconnectAttempts
    ensures ProcessPass(s, codec, storage, now).0.reconnectAttempts == s.reconnectAttempts
    ensures ConnectPass(s, runtime, connects).reconnectAttempts == s.reconnectAttempts
    ensures DisconnectPass(s, lastError).reconnectAttempts == s.reconnectAttempts
    ensures AfterConnectionError(s, runtime).reconnectAttempts ==
      if runtime && s.reconnectAttempts < MAX_RECONNECT_ATTEMPTS then s.reconnectAttempts + 1 else s.reconnectAttempts
  {
  }

  /** A check raises the attempt counter by at most one, through a failed post. */
  lemma CheckAttempts(s: ObserverState, runtime: bool, codec: Codec, storage: Option<seq<Slot>>, now: int, postOk: bool)
    ensures var r := CheckPass(s, runtime, codec, storage, now, postOk);
      s.reconnectAttempts <= r.reconnectAttempts <= s.reconnectAttempts + 1
    ensures postOk ==> CheckPass(s, runtime, codec, storage, now, postOk).reconnectAttempts == s.reconnectAttempts
  {
  }

  /** A batch request runs at most two checks, so it raises the attempt counter by at most two and never lowers it. */
  lemma RequestAttempts(s: ObserverState, data: Json, timestamp: int, runtime: bool, codec: Codec,
                        storage: Option<seq<Slot>>, now: int, postOk: bool)
    ensures var r := BatchRequestPass(s, data, timestamp, runtime, codec, storage, now, postOk);
      s.reconnectAttempts <= r.reconnectAttempts <= s.reconnectAttempts + 2
  {
    if data.JArr? {
      var s0 := s.(batchEvents := Stamped(data.elems, timestamp));
      CheckAttempts(s0, runtime, codec, storage, now, postOk);
      var s1 := CheckPass(s0, runtime, codec, storage, now, postOk);
      CheckAttempts(s1.(batchEvents := []), runtime, codec, storage, now, postOk);
    }
  }

  /** The three reconnections are scheduled after 2, 4 and 8 seconds. */
  lemma RetryDelays(s: ObserverState)
    requires ObserverInv(s)
    ensures s.scheduled == [2000, 4000, 8000][..s.reconnectAttempts]
  {
    assert Pow2(1) == 2 && Pow2(2) == 4 && Pow2(3) == 8;
  }

  /* ---------------- the observer ---------------- */

  class Observer {
    var lastProcessedState: Items
    var isExtensionActive: bool
    var hasPort: bool
    var hasInterval: bool
    var batchEvents: seq<Json>
    var reconnectAttempts: nat
    var posted: seq<Items>
    var scheduled: seq<int>

    function State(): ObserverState
      reads this
    {
      ObserverState(lastProcessedState, isExtensionActive, hasPort, hasInterval, batchEvents,
                    reconnectAttempts, posted, scheduled)
    }

    ghost predicate Valid()
      reads this
    {
      ObserverInv(State())
    }

    /** The closure's initial values. */
    constructor ()
      ensures Valid()
      ensures State() == ObserverState([], true, false, false, [], 0, [], [])
    {
      lastProcessedState := [];
      isExtensionActive := true;
      hasPort := false;
      hasInterval := false;
      batchEvents := [];
      reconnectAttempts := 0;
      posted := [];
      scheduled := [];
    }

    method Cleanup()
      requires Steady(State())
      modifies this
      ensures Valid()
      ensures State() == Cleaned(old(State()))
    {
      if hasInterval {
        hasInterval := false;
      }
      if hasPort {
        hasPort := false;
      }
      batchEvents := [];
      isExtensionActive := false;
      lastProcessedState := [];
    }

    method HandleConnectionError(runtime: bool)
      requires Steady(State())
      modifies this
      ensures Valid()
      ensures State() == AfterConnectionError(old(State()), runtime)
    {
      Cleanup();
      if runtime && reconnectAttempts < MAX_RECONNECT_ATTEMPTS {
        reconnectAttempts := reconnectAttempts + 1;
        scheduled := scheduled + [RetryDelay(reconnectAttempts)];
      }
    }

    method ProcessLocalStorageItems(codec: Codec, storage: Option<seq<Slot>>, now: int) returns (result: Option<Items>)
      requires Valid()
      modifies this
      ensures Valid()
      ensures (State(), result) == ProcessPass(old(State()), codec, storage, now)
    {
      if !isExtensionActive {
        return None;
      }
      var stored := SafeGetLocalStorage(codec, storage, now);
      var items := AddBatchEvents(codec, stored, now);
      if items != lastProcessedState {
        lastProcessedState := items;
        return Some(items);
      }
      return None;
    }

    /** The `batchEvents.forEach` adding each event to `items` under its index key. */
    method AddBatchEvents(codec: Codec, items: Items, now: int) returns (merged: Items)
      ensures merged == MergeBatch(codec, items, batchEvents, now)
    {
      merged := items;
      var index := 0;
      while index < |batchEvents|
        invariant 0 <= index <= |batchEvents|
        invariant merged == MergeBatch(codec, items, batchEvents[..index], now)
      {
        assert batchEvents[..index + 1][..index] == batchEvents[..index];
        merged := Put(merged, BatchKey(index), BatchEntry(codec, batchEvents[index], now));
        index := index + 1;
      }
      assert batchEvents[..|batchEvents|] == batchEvents;
    }

    method CheckAndNotifyChanges(runtime: bool, codec: Codec, storage: Option<seq<Slot>>, now: int, postOk: bool)
      requires Steady(State())
      modifies this
      ensures Valid()
      ensures State() == CheckPass(old(State()), runtime, codec, storage, now, postOk)
    {
      if !isExtensionActive || !runtime {
        Cleanup();
        return;
      }
      var items := ProcessLocalStorageItems(codec, storage, now);
      if items.Some? && hasPort {
        if postOk {
          posted := posted + [items.value];
        } else {
          HandleConnectionError(runtime);
        }
      }
    }

    method OnBatchRequest(data: Json, timestamp: int, runtime: bool, codec: Codec,
                          storage: Option<seq<Slot>>, now: int, postOk: bool)
      requires Valid()
      modifies this
      ensures Valid()
      ensures State() == BatchRequestPass(old(State()), data, timestamp, runtime, codec, storage, now, postOk)
    {
      if !data.JArr? {
        return;
      }
      // first listener
      batchEvents := Stamped(data.elems, timestamp);
      CheckAndNotifyChanges(runtime, codec, storage, now, postOk);
      // second listener
      if |data.elems| == 0 {
        batchEvents := [];
        CheckAndNotifyChanges(runtime, codec, storage, now, postOk);
      }
    }

    method OnDisconnect(lastError: bool)
      requires Valid()
      modifies this
      ensures Valid()
      ensures State() == DisconnectPass(old(State()), lastError)
    {
      if lastError {
        Cleanup();
      }
    }

    method SetupConnection(runtime: bool, connects: bool)
      requires Valid()
      modifies this
      ensures Valid()
      ensures State() == ConnectPass(old(State()), runtime, connects)
    {
      if !runtime {
        Cleanup();
        return;
      }
      Cleanup();
      if !connects {
        Cleanup();
        return;
      }
      hasPort := true;
      isExtensionActive := true;
      // setupMonitoring: the previous interval is cleared and a new one set
      hasInterval := true;
    }
  }
}
