# RudderStack localStorage viewer: the panel's bookkeeping, modelled in Dafny

The extension shows the RudderStack events that a page keeps in its
`localStorage` under `rudder_batch…` keys. Three pieces decide what the panel shows:

* **The panel (popup.js).** An injected reader takes a snapshot of the page's
  `rudder_batch` entries. Each value is decoded twice, and a raw entry is kept
  when decoding fails. `displayResults` reconciles the snapshot with two Maps:
  `seenItems` (every key ever classified as new) and `currentStorageItems` (the baseline
  taken by "clear"). It also reconciles the displayed list, whose rows can be
  marked *sent*. `clearAllItems` resets all of this to a fresh baseline.
* **The page observer (contentScript.js).** It has its own storage reader,
  which also skips empty values. It merges the events of intercepted batch
  requests under `batch_event_<i>` keys. A change gate forwards a snapshot only
  when it differs from the last one forwarded. A connection lifecycle manages
  the port, the polling interval, `cleanup` and at most three reconnections.
* **The storage wrapper (storage-monitor.js).** It wraps `setItem`,
  `removeItem` and `clear`. `safeNotify` dispatches a change event only when
  strictly more than 50 ms have passed since the last one. `_throttle` uses the
  same firing rule.

Modules, one file each:

* `Wrappers`: `Option`.
* `Ordered`: JavaScript objects and Maps as sequences of key/value pairs in
  insertion order. `Put` overwrites a key in place or appends it.
* `Text`: prefixes and decimal numerals.
* `Json`: JSON values, the truthiness `||` relies on, and object spread
  (including the index fields a spread copies from an array or a string).
  `JSON.parse` and `JSON.stringify` are an abstract `Codec` that the caller
  supplies.
* `Entries`: the entry record and the double-decode rule shared by both readers.
* `Popup`: the snapshot reader as a function, and the `Panel` class.
  `DisplayResults` and `ClearAllItems` are loops over the Maps and the
  container, and each is proved against a pure pass (`DisplayPass`,
  `ClearPass`). The lemmas are stated about those passes.
* `ContentScript`: the index-loop reader `SafeGetLocalStorage` and the
  `Observer` class, which holds the closure variables. Each method is proved
  against a pure transition (`ProcessPass`, `CheckPass`, `BatchRequestPass`,
  `ConnectPass`, …) that the lemmas describe.
* `StorageMonitor`: the pure firing rule `Fired`, the class `Monitor`
  (wrapped storage plus `lastNotification`) and the class `Throttle`.

Time (`Date.now()`) is a parameter: one reading per pass. Whether
`chrome.runtime` exists, whether `connect`/`postMessage` succeed, and whether
a storage slot can be read are also parameters. The page's storage and the
extension's `chrome.storage.local` are values held in the model. Posted
messages, scheduled reconnections and dispatched events are kept as logs in
the state.

## Model

| member | source | states |
|---|---|---|
| Popup.SnapshotExact | popup.js:16-53 | The snapshot binds each key once. It has exactly the storage's keys that start with `rudder_batch`, and none when storage cannot be copied. Each key's entry is the decoding of its stored value. |
| Popup.SnapshotEntry | popup.js:24-43 | A kept entry keeps its raw text. If the text double-decodes to a non-null value without an own `hasOwnProperty` field, the entry carries the payload, `originalKey` = payload `event` or else the key, and `propertiesKey` = own `properties` or else null. Otherwise, including when that field makes the `hasOwnProperty` call throw, `parsedValue` is null, `originalKey` is the key and `propertiesKey` is null. The timestamp is the reading time. |
| Entries.ShadowedMethodIsRaw | popup.js:28-41 | A value whose double decoding is an object with its own `hasOwnProperty` field makes `parsedJson.hasOwnProperty('properties')` throw, so the entry falls back to the raw text labelled by its key. |
| Popup.SortByTimeSorts | popup.js:284-285 | The first-load order is descending by `timestamp`, a missing one counting as 0. It is a permutation of `seenItems`, and it is stable: for every timestamp, the entries carrying it appear in their `seenItems` order. |
| Popup.FirstLoadShowsSeen | popup.js:280-292 | On first load with a non-empty `seenItems`, the rows become the sorted entries, unsent, up to the first one whose `originalKey` is not a string, where `createItemElement` throws. `isFirstLoad` stays set exactly when such an entry exists. When every entry renders, all of them are shown. Both Maps and the saved copies are unchanged, so nothing is classified. |
| Popup.RenderedCount | popup.js:286-290 | The number of sorted entries appended before the `forEach` throws: every entry before it has a string label, and the entry at it, if any, does not. |
| Popup.FirstLoadPersists | popup.js:280-292 | While `seenItems` holds an entry with a non-string `originalKey`, every pass stays in the first load. It rebuilds the same truncated rows and never classifies a snapshot, adds to `seenItems` or marks a row sent. |
| Popup.RelayedSourceSticks | popup.js:93-98 | Outside the first load, a relayed update carries the background page's extra `source: 'localStorage'` binding. When `source` is in neither Map, it becomes a seen item with `firstSeen = now` and is saved, but gets no row because its label is undefined. `seenItems` then holds an entry that stops every later first load, as `FirstLoadPersists` states. |
| Popup.ReconcileSeen | popup.js:295-352 | A pass never removes or rewrites a `seenItems` entry and never writes `currentStorageItems`. A key joins `seenItems` with `firstSeen = now` exactly when the snapshot has it and neither Map does. The saved copy is rewritten exactly when `seenItems` grew. |
| Popup.ReconcileNewEntry | popup.js:302-306 | A new key stores the snapshot's entry for it, extended with `firstSeen = now`. |
| Popup.ReconcileRows | popup.js:295-362 | Rows shown before keep their order behind the inserted ones. Such a row ends marked sent exactly when it was already sent or its key is gone from the snapshot. Each inserted row is unsent, at the head, and belongs to a key first seen in this pass whose `originalKey` is a string. Every such key gets one. A newly seen key with a non-string label gets no row, because the deferred `createItemElement` throws. |
| Popup.ReconcileShown | popup.js:339-350 | A displayed row whose key is in the snapshot shows the fresh rendering: the pretty-printed `parsedValue` when truthy, else the raw value. A row whose key is gone keeps its text. |
| Popup.MarkSentIdempotent | popup.js:354-362 | Marking gone rows sent twice is the same as once, and a row never carries more than one badge. |
| Popup.DisplayPassKeepsInv | popup.js:272-364 | A pass keeps the panel invariant: each Map binds a key once, row keys are distinct and all in `seenItems`, and a row has one badge exactly when it is sent. |
| Popup.ClearPassEffect | popup.js:115-144 | With results, `seenItems` and the rows are emptied, `currentStorageItems` holds exactly the snapshot's bindings, the first load is over, and both saved slots hold the new Maps. Without results nothing changes. |
| Popup.SavedMapRoundTrip | popup.js:80-83 | A Map saved as its entry list and rebuilt with `new Map(entries)` is the same Map. |
| Popup.Panel.Open | popup.js:74-85 | Opening the panel rebuilds each Map from its saved slot when the slot exists, empty otherwise. `isFirstLoad` is true and no rows are shown. |
| Popup.Panel.DisplayResults | popup.js:272-364 | With results, it runs the first-load branch or the classification and sent-marking loops, performing exactly `DisplayPass`, including the rows left out when `createItemElement` throws. It keeps the invariant. Without results nothing changes. |
| Popup.Panel.ShowSeenItems | popup.js:280-292 | The first-load loop empties the container and appends the rows of `seenItems`, sorted newest first, until an entry has a non-string label. `isFirstLoad` is cleared only when the loop reaches the end. It leaves both Maps and the saved copies alone. |
| Popup.Panel.ClassifyEntries | popup.js:295-352 | The loop over the snapshot's entries leaves `seenItems`, the rows, the unmatched keys and the saved copy exactly as `ClassifyAll` does. A new key is saved even when its row cannot be built. It does not write `currentStorageItems`. |
| Popup.Panel.MarkGoneRows | popup.js:354-362 | Every row whose key is unmatched ends marked sent, with a badge added only if it had none. Other rows and all other state are unchanged. |
| Popup.Panel.ClearAllItems | popup.js:115-144 | The copy loop and the resets perform exactly `ClearPass`. |
| ContentScript.SafeGetLocalStorage | contentScript.js:11-52 | The index loop builds exactly `Read` of the slots, and nothing when storage is missing or inaccessible. |
| ContentScript.ReadIsSnapshot | contentScript.js:16-42 | The observer's reader applies the panel reader's rule to the readable, non-empty `rudder_batch` slots. |
| ContentScript.ReadExact | contentScript.js:16-42 | The reader binds each key once. Its keys are exactly those of readable slots with a non-empty `rudder_batch` key and a non-empty value. Each entry is decoded from the stored text by the shared rule, including the raw fallback when the `hasOwnProperty` call throws. |
| ContentScript.UnreadableSkipped | contentScript.js:17-45 | A slot whose reading throws is skipped, and only that slot. |
| ContentScript.ReadDiffersAcrossTime | contentScript.js:27-41 | Entries carry the reading time, so a storage with a kept entry reads differently at any two instants. |
| ContentScript.BatchKeyInjective | contentScript.js:63-64 | Distinct event indices give distinct `batch_event_<i>` keys. |
| ContentScript.BatchKeyNotStored | contentScript.js:63-64 | A `batch_event_<i>` key never starts with `rudder_batch`. |
| ContentScript.StampedFields | contentScript.js:212-215 | Each stamped event is an object whose `timestamp` is the message's timestamp. Every other name holds what the spread copies: an object event's own field, an array event's element or a string event's character under its decimal index, and nothing from a number, boolean or null. |
| Json.SpreadFields | contentScript.js:212-215 | `{...j}` copies an object's fields unchanged. It binds index `k` of an array or a string to its element or one-character string, and no other name. It copies nothing from null, a boolean or a number. |
| ContentScript.MergeBatchAt | contentScript.js:62-73 | Event `i` sits under `batch_event_<i>` with value = its serialisation, `originalKey` = `event` or else `'Batch Event'`, `propertiesKey` = `properties` or else null, `timestamp` = its own timestamp or else now, and `isBatchEvent` true. |
| ContentScript.MergeKeepsStored | contentScript.js:59-73 | Merging batch events leaves every stored `rudder_batch` entry as read. |
| ContentScript.MergedContents | contentScript.js:59-73 | The merged map has every event under its index key and every stored entry as read. |
| ContentScript.GateForwardsChanges | contentScript.js:76-84 | The gate returns the map and remembers it exactly when it differs from the last one forwarded. Otherwise it returns null with the state unchanged. An immediate repeat returns null. |
| ContentScript.InactiveIsSilent | contentScript.js:92-97 | While inactive, processing returns null and changes nothing, and a check only runs `cleanup`. |
| ContentScript.CheckPostsOnlyChanges | contentScript.js:92-114 | A check posts at most one message. It posts only while active, with `chrome.runtime`, a port and a changed map, and only if posting succeeds. |
| ContentScript.BatchRequestEvents | contentScript.js:208-236 | After an array arrives, `batchEvents` holds the stamped events while the observer is active, and nothing otherwise. An empty array is cleared by the second listener. Non-array data changes nothing. |
| ContentScript.CleanupSettles | contentScript.js:172-195 | `cleanup` leaves no interval, no port, no batch events, an inactive observer and an empty last state. It keeps the attempt counter and the logs. Applying it twice is the same as once. |
| ContentScript.CleanupKeepsInv | contentScript.js:158-195 | `cleanup` and the connection-error handler keep the observer invariant: at most 3 attempts, the k-th retry scheduled after `1000·2^k` ms, nothing left to clean while inactive, and a port only while active. |
| ContentScript.CheckKeepsInv | contentScript.js:92-114 | A check restores the invariant even right after `batchEvents` was set on an inactive observer. |
| ContentScript.RequestsKeepInv | contentScript.js:198-254 | Batch requests, `onDisconnect` and `setupConnection` keep the invariant. |
| ContentScript.AttemptsSaturate | contentScript.js:157-169 | Starting from a count within the bound, `n` successive connection errors with `chrome.runtime` present leave `min(count + n, 3)` attempts. |
| ContentScript.AttemptsNeverDecrease | contentScript.js:157-195 | No transition resets the attempt counter. `cleanup`, processing, `setupConnection` and `onDisconnect` leave it unchanged. A connection error raises it by one while `chrome.runtime` exists and fewer than 3 attempts were made. |
| ContentScript.CheckAttempts | contentScript.js:92-114 | A check never lowers the attempt counter. It raises it by at most one, and only when posting fails. |
| ContentScript.RequestAttempts | contentScript.js:208-236 | A batch request runs at most two checks. It never lowers the attempt counter and raises it by at most two. |
| ContentScript.RetryDelays | contentScript.js:162-164 | The reconnections scheduled so far are a prefix of 2000, 4000 and 8000 ms. |
| ContentScript.Observer.constructor | contentScript.js:2-8 | The closure starts active, with no port, no interval, no events, no attempts and an empty last state. |
| ContentScript.Observer.Cleanup | contentScript.js:172-195 | Performs `Cleaned`. |
| ContentScript.Observer.HandleConnectionError | contentScript.js:158-169 | Cleans up. Then, while `chrome.runtime` exists and fewer than 3 attempts were made, it counts one more and schedules a reconnection after `1000·2^attempts` ms. |
| ContentScript.Observer.ProcessLocalStorageItems | contentScript.js:55-89 | The read, the merge of batch events and the gate together return and update exactly as `ProcessPass` does. |
| ContentScript.Observer.AddBatchEvents | contentScript.js:62-73 | The `forEach` loop yields exactly `MergeBatch` of the read items and the current `batchEvents`. |
| ContentScript.Observer.CheckAndNotifyChanges | contentScript.js:92-114 | Performs `CheckPass`. |
| ContentScript.Observer.OnBatchRequest | contentScript.js:208-236 | Runs both `batchRequest` listeners in order, as `BatchRequestPass` does. |
| ContentScript.Observer.OnDisconnect | contentScript.js:238-246 | Cleans up exactly when `chrome.runtime.lastError` is set. |
| ContentScript.Observer.SetupConnection | contentScript.js:198-254 | Cleans up. With `chrome.runtime` present and a successful `connect`, it then has a port, is active and has a polling interval. |
| StorageMonitor.FiredSpaced | storage-monitor.js:14-39 | Every dispatch is more than 50 ms after load, and any two dispatches are more than 50 ms apart, whatever order the clock readings come in. |
| StorageMonitor.FiredFromCalls | storage-monitor.js:29-39 | Every dispatch happens at the time of a call, and there are never more dispatches than calls. |
| StorageMonitor.FiredStep | storage-monitor.js:29-39 | A call fires exactly when strictly more than the delay has passed since the last firing, and then becomes the last firing. Otherwise it is dropped and the last firing stays. Earlier firings are never changed or replayed. |
| StorageMonitor.Monitor.constructor | storage-monitor.js:14-16 | `lastNotification` starts at the load time, with nothing dispatched. |
| StorageMonitor.Monitor.SafeNotify | storage-monitor.js:29-39 | Dispatches exactly when `now - lastNotification > 50` (strict). On dispatch `lastNotification := now`. Otherwise nothing changes. |
| StorageMonitor.Monitor.SetItem | storage-monitor.js:45-50 | Writes first. When the write throws, nothing else happens. It notifies only for a non-empty `rudder_batch` key. |
| StorageMonitor.Monitor.RemoveItem | storage-monitor.js:53-58 | Removes first, then notifies only for a non-empty `rudder_batch` key. |
| StorageMonitor.Monitor.Clear | storage-monitor.js:61-64 | Clears, then always notifies. |
| StorageMonitor.Throttle.constructor | storage-monitor.js:5 | `last` starts at 0. |
| StorageMonitor.Throttle.Call | storage-monitor.js:5 | Invokes exactly when `now - last > wait`. `last` moves only on an invocation. |

## Left out

- background.js is not part of this model. It consists of web-request interception, request-body decoding and the connection relay over browser APIs.
- DOM rendering is left out: `createItemElement`, `prettyPrintJson` (a parameter `pretty`), tables, toasts, copy buttons and CSS classes. The container is a sequence of rows (key, shown text, sent, badge count). The one rendering failure that changes state is modelled: `createItemElement` throws on a non-string `originalKey` (`Renders`).
- The 500 ms deferred insertion of a new row is modelled as immediate, and the 3 s "new" highlight is left out. A deferred insertion that throws inserts nothing.
- Comparing `innerHTML` with the fresh rendering is abstracted to comparing the shown text. HTML escaping is not modelled.
- `JSON.parse` and `JSON.stringify` are abstract (`Codec`). The gate's comparison of two serialisations is modelled as equality of the ordered entry sequences, which assumes serialisation is injective on these maps.
- JSON numbers are integers. Fractional numbers are not modelled.
- Objects keep every key in insertion order. JavaScript enumerates integer-like keys first, in ascending order, and the model does not reorder them.
- Each pass reads the clock once. Entries stamped by separate `Date.now()` calls within one loop share that reading.
- `getCurrentTabId`, `chrome.scripting.executeScript` and `chrome.tabs` are not modelled, nor the `updatePopup` listener's message-type and tab checks. `tabId` and the injected reader's `results[0].result` are parameters, and `None` stands for a missing `results[0]`. A live update hands `displayResults` the map `Relay(data)`: the page observer's map plus the background page's `source` binding.
- The `source` binding of a relayed update is the string `'localStorage'`. The model stands for it by `SOURCE_ENTRY`, whose fields are all undefined. The index fields its spread copies into `seenItems` are not modelled. After one such update `seenItems` holds `source` with no timestamp and no label, so from the next panel opening until Clear every first load stops at it and the panel never leaves the first load (`RelayedSourceSticks`, `FirstLoadPersists`).
- `chrome.storage.local` is a map from slot to Map. Its JSON round trip is `SavedMapRoundTrip`: entry list to Map.
- Timers are left out: `setInterval`, `setTimeout` (logged as delays), `_debounce`, `_rafLoop` and the clear button's animation.
- The script injection and event-listener wiring in `setupMonitoring` are left out. A failure inside it, which leads to `cleanup`, is not modelled. Only a failing `connect` is.
- `setupClearListener` (storage-monitor.js:82-94) is left out. It is never called. It is declared outside every closure, so `lastProcessedState` and `lastNotification` there are implicit page globals, not the monitor's or the observer's variables, and its test of the undeclared `monitorInterval` would throw a ReferenceError.
- The monitor's installation is left out: waiting for `DOMContentLoaded`, and giving up when the original methods cannot be bound. The model starts with the overrides installed.
- Exceptions thrown by `dispatchEvent`, `port.disconnect` and `console` are caught in the source and have no effect on the modelled state. They are not modelled.
- Messages of a type other than `batchRequest` are ignored by the source, so the model has no operation for them.
- ContentScript.Observer.SetupConnection: a successful connection always sets up the interval, since `setupMonitoring` succeeds in the model.
