/**
 * The side panel (popup.js): the snapshot reader injected into the page, and the
 * panel's reconciliation of each snapshot against what it has already seen.
 *
 * The panel's list of item elements is a sequence of `Row`s, newest first; the
 * rendering of a value (`prettyPrintJson`) is the parameter `pretty`, the tab
 * id, the clock and the injected script's result are parameters, and
 * `chrome.storage.local` is the map `saved`.
 */
module Popup {
  import opened Wrappers
  import opened Json
  import opened Ordered
  import opened Entries

  /* ---------------- snapshot reader (getLocalStorageCode) ---------------- */

  /** The `forEach` over the copied storage keys, keeping the `rudder_batch` ones. */
  function Collect(codec: Codec, pairs: Assoc<string, string>, now: int): Items
    decreases |pairs|
  {
    if |pairs| == 0 then []
    else
      var items := Collect(codec, pairs[..|pairs| - 1], now);
      var (key, raw) := pairs[|pairs| - 1];
      if IsBatchKey(key) then Put(items, key, DecodeEntry(codec, key, raw, now)) else items
  }

  /**
   * The injected reader: `storage` is the page's storage, `None` when copying it
   * throws (the reader then answers `{}`).
   */
  function Snapshot(codec: Codec, storage: Option<Assoc<string, string>>, now: int): Items
  {
    match storage
    case None => []
    case Some(pairs) => Collect(codec, pairs, now)
  }

  /** What the reader should hold under `key`: the decoded entry of a kept key, nothing otherwise. */
  function Expected(codec: Codec, pairs: Assoc<string, string>, key: string, now: int): Option<Entry>
  {
    if IsBatchKey(key) && Has(pairs, key) then Some(DecodeEntry(codec, key, Lookup(pairs, key).value, now))
    else None
  }

  lemma {:induction false} CollectLookup(codec: Codec, pairs: Assoc<string, string>, now: int, key: string)
    ensures Lookup(Collect(codec, pairs, now), key) == Expected(codec, pairs, key, now)
    decreases |pairs|
  {
    if |pairs| > 0 {
      var init := pairs[..|pairs| - 1];
      var (k, raw) := pairs[|pairs| - 1];
      CollectLookup(codec, init, now, key);
      LookupAppend(init, k, raw, key);
      assert pairs == init + [(k, raw)];
      if IsBatchKey(k) {
        LookupPut(Collect(codec, init, now), k, DecodeEntry(codec, k, raw, now), key);
      }
    }
  }

  lemma {:induction false} CollectUnique(codec: Codec, pairs: Assoc<string, string>, now: int)
    ensures Unique(Collect(codec, pairs, now))
    decreases |pairs|
  {
    if |pairs| > 0 {
      var init := pairs[..|pairs| - 1];
      var (k, raw) := pairs[|pairs| - 1];
      CollectUnique(codec, init, now);
      if IsBatchKey(k) {
        UniqueAfterPut(Collect(codec, init, now), k, DecodeEntry(codec, k, raw, now));
      }
    }
  }

  /**
   * The snapshot holds exactly the storage keys starting with `rudder_batch`,
   * each once, each bound to the entry decoded from its stored value; an
   * inaccessible storage gives the empty snapshot.
   */
  lemma SnapshotExact(codec: Codec, storage: Option<Assoc<string, string>>, now: int, key: string)
    ensures Unique(Snapshot(codec, storage, now))
    ensures Has(Snapshot(codec, storage, now), key) <==> storage.Some? && IsBatchKey(key) && Has(storage.value, key)
    ensures storage.Some? ==> Lookup(Snapshot(codec, storage, now), key) == Expected(codec, storage.value, key, now)
  {
    if storage.Some? {
      CollectLookup(codec, storage.value, now, key);
      CollectUnique(codec, storage.value, now);
    }
  }

  /**
   * Every kept entry keeps its raw text and follows the decoding rule: the
   * double-decoded payload with its `event` label and `properties`, or the raw
   * fallback labelled by its key.  It is stamped with the reading time.
   */
  lemma SnapshotEntry(codec: Codec, storage: Option<Assoc<string, string>>, now: int, key: string)
    requires Has(Snapshot(codec, storage, now), key)
    ensures storage.Some? && Has(storage.value, key)
    ensures DecodedFrom(codec, key, Lookup(storage.value, key).value, Lookup(Snapshot(codec, storage, now), key).value)
    ensures Lookup(Snapshot(codec, storage, now), key).value.timestamp == Some(now)
  {
    SnapshotExact(codec, storage, now, key);
  }

  /* ---------------- panel state ---------------- */

  /** One item element: its key, the text shown as its value, its `sent-item` class and its sent badges. */
  datatype Row = Row(key: string, shown: string, sent: bool, badges: nat)

  /** The two `chrome.storage.local` keys the panel writes, `seenItemsData_<tab>` and `currentStorageItems_<tab>`. */
  datatype SavedSlot = SeenItemsData(tab: int) | CurrentStorageItems(tab: int)

  datatype PanelState = PanelState(
    seen: Items,
    live: Items,
    firstLoad: bool,
    rows: seq<Row>,
    saved: map<SavedSlot, Items>)

  function RowKeys(rows: seq<Row>): set<string>
  {
    set i | 0 <= i < |rows| :: rows[i].key
  }

  /** The text an item element shows: the pretty-printed payload when it is truthy, else the raw text. */
  function Shown(e: Entry, pretty: Json -> string): string
  {
    if Truthy(e.parsedValue) then pretty(e.parsedValue) else e.value
  }

  /**
   * Whether `createItemElement` can build the element of `e`: it calls
   * `data.originalKey.startsWith(…)`, which throws a TypeError unless the label
   * is a string (a truthy non-string `event` field becomes the label).
   */
  predicate Renders(e: Entry)
  {
    e.originalKey.JStr?
  }

  /** How many entries of `m`, from the front, are rendered before the first one that throws. */
  function RenderedCount(m: Items): (n: nat)
    ensures n <= |m|
    ensures forall i :: 0 <= i < n ==> Renders(m[i].1)
    ensures n < |m| ==> !Renders(m[n].1)
    decreases |m|
  {
    if |m| == 0 || !Renders(m[0].1) then 0
    else
      var n := 1 + RenderedCount(m[1..]);
      assert forall i :: 1 <= i < n ==> m[i] == m[1..][i - 1];
      n
  }

  /**
   * What every reachable panel satisfies: each Map has one binding per key, each
   * key is displayed at most once and only if it has been seen, and an element
   * carries a sent badge exactly when it is marked sent.
   */
  ghost predicate Inv(s: PanelState)
  {
    && Unique(s.seen)
    && Unique(s.live)
    && (forall i, j :: 0 <= i < j < |s.rows| ==> s.rows[i].key != s.rows[j].key)
    && (forall i :: 0 <= i < |s.rows| ==> Has(s.seen, s.rows[i].key))
    && (forall i :: 0 <= i < |s.rows| ==> s.rows[i].badges == if s.rows[i].sent then 1 else 0)
  }

  /* ---------------- first load: rebuild from seenItems ---------------- */

  /** `(e.timestamp || 0)`. */
  function TimeKey(e: Entry): int
  {
    match e.timestamp
    case Some(t) => t
    case None => 0
  }

  function Insert(p: (string, Entry), sorted: Items): Items
    decreases |sorted|
  {
    if |sorted| == 0 then [p]
    else if TimeKey(sorted[0].1) <= TimeKey(p.1) then [p] + sorted
    else [sorted[0]] + Insert(p, sorted[1..])
  }

  /** The stable sort by descending timestamp that `Array.prototype.sort` performs. */
  function SortByTime(m: Items): Items
    decreases |m|
  {
    if |m| == 0 then [] else Insert(m[0], SortByTime(m[1..]))
  }

  ghost predicate Descending(m: Items)
  {
    forall i, j :: 0 <= i < j < |m| ==> TimeKey(m[i].1) >= TimeKey(m[j].1)
  }

  lemma {:induction false} InsertPermutes(p: (string, Entry), sorted: Items)
    ensures multiset(Insert(p, sorted)) == multiset(sorted) + multiset{p}
    decreases |sorted|
  {
    if |sorted| > 0 && TimeKey(sorted[0].1) > TimeKey(p.1) {
      InsertPermutes(p, sorted[1..]);
      assert sorted == [sorted[0]] + sorted[1..];
    }
  }

  /** Inserting below a bound stays below it. */
  lemma {:induction false} InsertBounded(p: (string, Entry), sorted: Items, b: int)
    requires TimeKey(p.1) <= b
    requires forall i :: 0 <= i < |sorted| ==> TimeKey(sorted[i].1) <= b
    ensures forall i :: 0 <= i < |Insert(p, sorted)| ==> TimeKey(Insert(p, sorted)[i].1) <= b
    decreases |sorted|
  {
    if |sorted| > 0 && TimeKey(sorted[0].1) > TimeKey(p.1) {
      var rest := Insert(p, sorted[1..]);
      InsertBounded(p, sorted[1..], b);
      var r := [sorted[0]] + rest;
      forall i | 0 <= i < |r| ensures TimeKey(r[i].1) <= b {
        if i > 0 { assert r[i] == rest[i - 1]; }
      }
    }
  }

  lemma {:induction false} InsertDescends(p: (string, Entry), sorted: Items)
    requires Descending(sorted)
    ensures Descending(Insert(p, sorted))
    decreases |sorted|
  {
    if |sorted| > 0 && TimeKey(sorted[0].1) > TimeKey(p.1) {
      var tail := sorted[1..];
      var rest := Insert(p, tail);
      assert forall i :: 0 <= i < |tail| ==> tail[i] == sorted[i + 1];
      InsertDescends(p, tail);
      InsertBounded(p, tail, TimeKey(sorted[0].1));
      var r := [sorted[0]] + rest;
      assert r == Insert(p, sorted);
      forall i, j | 0 <= i < j < |r| ensures TimeKey(r[i].1) >= TimeKey(r[j].1) {
        assert r[j] == rest[j - 1];
        if i > 0 { assert r[i] == rest[i - 1]; }
      }
    }
  }

  /** The entries of `m` whose timestamp key is `t`, in their order in `m`. */
  function WithTime(m: Items, t: int): Items
    decreases |m|
  {
    if |m| == 0 then [] else (if TimeKey(m[0].1) == t then [m[0]] else []) + WithTime(m[1..], t)
  }

  lemma WithTimeCons(x: (string, Entry), m: Items, t: int)
    ensures WithTime([x] + m, t) == (if TimeKey(x.1) == t then [x] else []) + WithTime(m, t)
  {
    assert ([x] + m)[0] == x && ([x] + m)[1..] == m;
  }

  /** An entry is inserted ahead of every entry with the same timestamp key. */
  lemma {:induction false} InsertWithTime(p: (string, Entry), sorted: Items, t: int)
    ensures WithTime(Insert(p, sorted), t) == (if TimeKey(p.1) == t then [p] else []) + WithTime(sorted, t)
    decreases |sorted|
  {
    if |sorted| == 0 {
      WithTimeCons(p, [], t);
      assert [p] + [] == [p];
    } else if TimeKey(sorted[0].1) <= TimeKey(p.1) {
      WithTimeCons(p, sorted, t);
    } else {
      var tail := sorted[1..];
      var mine: Items := if TimeKey(p.1) == t then [p] else [];
      var head: Items := if TimeKey(sorted[0].1) == t then [sorted[0]] else [];
      InsertWithTime(p, tail, t);
      WithTimeCons(sorted[0], Insert(p, tail), t);
      WithTimeCons(sorted[0], tail, t);
      assert sorted == [sorted[0]] + tail;
      assert head == [] || mine == [];
      assert head + (mine + WithTime(tail, t)) == mine + (head + WithTime(tail, t));
    }
  }

  /**
   * The first-load order: descending by timestamp (missing as 0), a permutation
   * of `seenItems`, and stable: entries with equal timestamps keep their Map
   * order, as `Array.prototype.sort` guarantees.
   */
  lemma {:induction false} SortByTimeSorts(m: Items)
    ensures Descending(SortByTime(m))
    ensures multiset(SortByTime(m)) == multiset(m)
    ensures forall t :: WithTime(SortByTime(m), t) == WithTime(m, t)
    decreases |m|
  {
    if |m| > 0 {
      SortByTimeSorts(m[1..]);
      InsertDescends(m[0], SortByTime(m[1..]));
      InsertPermutes(m[0], SortByTime(m[1..]));
      assert m == [m[0]] + m[1..];
      forall t ensures WithTime(SortByTime(m), t) == WithTime(m, t) {
        InsertWithTime(m[0], SortByTime(m[1..]), t);
      }
    }
  }

  /** The item elements for `m`, in order, none of them sent. */
  function RowsOf(m: Items, pretty: Json -> string): (rows: seq<Row>)
    ensures |rows| == |m|
  {
    seq(|m|, i requires 0 <= i < |m| => Row(m[i].0, Shown(m[i].1, pretty), false, 0))
  }

  /* ---------------- reconciliation of one snapshot ---------------- */

  /** The loop state: seenItems, the container, the keys of `existingElements` not yet matched, the saved slots. */
  datatype Acc = Acc(seen: Items, rows: seq<Row>, existing: set<string>, saved: map<SavedSlot, Items>)

  /** `valueElement.innerHTML = currentValue` on the element of `key`, when the text differs. */
  function Refresh(rows: seq<Row>, key: string, text: string): (r: seq<Row>)
    ensures |r| == |rows|
  {
    seq(|rows|, i requires 0 <= i < |rows| =>
      if rows[i].key == key && rows[i].shown != text then rows[i].(shown := text) else rows[i])
  }

  /** Adding the `sent-item` class, and a sent badge when the element has none. */
  function Mark(r: Row): Row
  {
    if r.sent then r else r.(sent := true, badges := if r.badges == 0 then 1 else r.badges)
  }

  /** The final `existingElements.forEach`: every element left unmatched is marked sent. */
  function MarkSent(rows: seq<Row>, gone: set<string>): (r: seq<Row>)
    ensures |r| == |rows|
  {
    seq(|rows|, i requires 0 <= i < |rows| => if rows[i].key in gone then Mark(rows[i]) else rows[i])
  }

  /** One iteration of the `for … of Object.entries(currentItems)` loop. */
  function Classify(acc: Acc, live: Items, key: string, data: Entry, tabId: int, now: int, pretty: Json -> string): Acc
  {
    if !Has(acc.seen, key) && !Has(live, key) then
      var seen := Put(acc.seen, key, data.(firstSeen := Some(now)));
      // the element is built in a later callback, which throws for a non-string label
      var rows := if Renders(data) then [Row(key, Shown(data, pretty), false, 0)] + acc.rows else acc.rows;
      Acc(seen, rows, acc.existing, acc.saved[SeenItemsData(tabId) := seen])
    else if key in acc.existing then
      acc.(rows := Refresh(acc.rows, key, Shown(data, pretty)), existing := acc.existing - {key})
    else acc
  }

  function ClassifyAll(acc: Acc, live: Items, items: Items, tabId: int, now: int, pretty: Json -> string): Acc
    decreases |items|
  {
    if |items| == 0 then acc
    else
      var (key, data) := items[|items| - 1];
      Classify(ClassifyAll(acc, live, items[..|items| - 1], tabId, now, pretty), live, key, data, tabId, now, pretty)
  }

  /** A pass of `displayResults` after the first load: classify, then mark what vanished as sent. */
  function Reconcile(s: PanelState, items: Items, tabId: int, now: int, pretty: Json -> string): PanelState
  {
    var acc := ClassifyAll(Acc(s.seen, s.rows, RowKeys(s.rows), s.saved), s.live, items, tabId, now, pretty);
    s.(seen := acc.seen, rows := MarkSent(acc.rows, acc.existing), saved := acc.saved)
  }

  /**
   * `displayResults(results)`: `None` stands for a missing `results[0]`.  On
   * first load the elements are appended newest first until one throws; the
   * throw leaves `isFirstLoad` set.
   */
  function DisplayPass(s: PanelState, results: Option<Items>, tabId: int, now: int, pretty: Json -> string): PanelState
  {
    match results
    case None => s
    case Some(items) =>
      if s.firstLoad && |s.seen| > 0 then
        var ordered := SortByTime(s.seen);
        var n := RenderedCount(ordered);
        s.(rows := RowsOf(ordered[..n], pretty), firstLoad := n < |ordered|)
      else Reconcile(s, items, tabId, now, pretty)
  }

  /** `clearAllItems` once the injected reader has answered. */
  function ClearPass(s: PanelState, results: Option<Items>, tabId: int): PanelState
  {
    match results
    case None => s
    case Some(items) =>
      var live := PutAll([], items);
      PanelState([], live, false, [], s.saved[SeenItemsData(tabId) := []][CurrentStorageItems(tabId) := live])
  }

  /* ---------------- what one pass does to seenItems ---------------- */

  /**
   * Over any stretch of the loop: a key already in seenItems keeps its entry; a
   * key not yet seen ends up seen exactly when it occurs in the snapshot and is
   * not in currentStorageItems, stamped with `firstSeen = now`; seenItems only
   * grows, and the saved copy is rewritten exactly when it grew.
   */
  lemma {:induction false} ClassifyAllSeen(acc: Acc, live: Items, items: Items, tabId: int, now: int, pretty: Json -> string, k: string)
    ensures var r := ClassifyAll(acc, live, items, tabId, now, pretty);
      && (Has(acc.seen, k) ==> Lookup(r.seen, k) == Lookup(acc.seen, k))
      && (!Has(acc.seen, k) ==> (Has(r.seen, k) <==> Has(items, k) && !Has(live, k)))
      && (!Has(acc.seen, k) && Has(r.seen, k) ==> Lookup(r.seen, k).value.firstSeen == Some(now))
      && r.saved == if r.seen == acc.seen then acc.saved else acc.saved[SeenItemsData(tabId) := r.seen]
    decreases |items|
  {
    ClassifyAllSaved(acc, live, items, tabId, now, pretty);
    if |items| > 0 {
      var init := items[..|items| - 1];
      var (key, data) := items[|items| - 1];
      var r := ClassifyAll(acc, live, init, tabId, now, pretty);
      assert ClassifyAll(acc, live, items, tabId, now, pretty) == Classify(r, live, key, data, tabId, now, pretty);
      ClassifyAllSeen(acc, live, init, tabId, now, pretty, k);
      LookupAppend(init, key, data, k);
      assert items == init + [(key, data)];
      ClassifySeenStep(r, live, key, data, tabId, now, pretty, k);
    }
  }

  /** seenItems only grows over the loop, and its saved copy is rewritten exactly when it grew. */
  lemma {:induction false} ClassifyAllSaved(acc: Acc, live: Items, items: Items, tabId: int, now: int, pretty: Json -> string)
    ensures var r := ClassifyAll(acc, live, items, tabId, now, pretty);
      && (r.seen == acc.seen || |r.seen| > |acc.seen|)
      && r.saved == if r.seen == acc.seen then acc.saved else acc.saved[SeenItemsData(tabId) := r.seen]
    decreases |items|
  {
    if |items| > 0 {
      var (key, data) := items[|items| - 1];
      var r := ClassifyAll(acc, live, items[..|items| - 1], tabId, now, pretty);
      var r' := Classify(r, live, key, data, tabId, now, pretty);
      assert ClassifyAll(acc, live, items, tabId, now, pretty) == r';
      ClassifyAllSaved(acc, live, items[..|items| - 1], tabId, now, pretty);
      ClassifySeenStep(r, live, key, data, tabId, now, pretty, key);
    }
  }

  /** What one iteration does to seenItems and its saved copy. */
  lemma ClassifySeenStep(r: Acc, live: Items, key: string, data: Entry, tabId: int, now: int, pretty: Json -> string, k: string)
    ensures var r' := Classify(r, live, key, data, tabId, now, pretty);
      && (Has(r.seen, k) ==> Lookup(r'.seen, k) == Lookup(r.seen, k))
      && (!Has(r.seen, k) ==> (Has(r'.seen, k) <==> k == key && !Has(live, k)))
      && (!Has(r.seen, k) && Has(r'.seen, k) ==> Lookup(r'.seen, k).value.firstSeen == Some(now))
      && (r'.seen == r.seen || |r'.seen| > |r.seen|)
      && r'.saved == if r'.seen == r.seen then r.saved else r.saved[SeenItemsData(tabId) := r'.seen]
  {
    if !Has(r.seen, key) && !Has(live, key) {
      LookupPut(r.seen, key, data.(firstSeen := Some(now)), k);
      assert Put(r.seen, key, data.(firstSeen := Some(now))) == r.seen + [(key, data.(firstSeen := Some(now)))];
    }
  }

  /**
   * With a snapshot binding each key once, a newly seen key stores the
   * snapshot's own entry with `firstSeen = now`.
   */
  lemma {:induction false} ClassifyAllNewEntry(acc: Acc, live: Items, items: Items, tabId: int, now: int, pretty: Json -> string, k: string)
    requires Unique(items)
    requires !Has(acc.seen, k) && !Has(live, k) && Has(items, k)
    ensures Lookup(ClassifyAll(acc, live, items, tabId, now, pretty).seen, k) == Some(Lookup(items, k).value.(firstSeen := Some(now)))
    decreases |items|
  {
    var init := items[..|items| - 1];
    var (key, data) := items[|items| - 1];
    var r := ClassifyAll(acc, live, init, tabId, now, pretty);
    assert items == init + [(key, data)];
    LookupAppend(init, key, data, k);
    assert Unique(init);
    if key == k {
      UniqueLastFresh(items);
      ClassifyAllSeen(acc, live, init, tabId, now, pretty, k);
      LookupPut(r.seen, key, data.(firstSeen := Some(now)), k);
    } else {
      ClassifyAllNewEntry(acc, live, init, tabId, now, pretty, k);
      if !Has(r.seen, key) && !Has(live, key) {
        LookupPut(r.seen, key, data.(firstSeen := Some(now)), k);
      }
    }
  }

  /* ---------------- what one pass does to the displayed rows ---------------- */

  /** Rows `rows0` reappear, in order and with their sent state, as the tail of `rows`. */
  ghost predicate TailTracks(rows: seq<Row>, rows0: seq<Row>)
  {
    && |rows| >= |rows0|
    && forall i :: 0 <= i < |rows0| ==>
         var r := rows[|rows| - |rows0| + i];
         r.key == rows0[i].key && r.sent == rows0[i].sent && r.badges == rows0[i].badges
  }

  /** The unmatched keys of `existingElements` that are still in the loop state. */
  ghost predicate ExistingSeen(acc: Acc)
  {
    forall k :: k in acc.existing ==> Has(acc.seen, k)
  }

  /** The first `d` rows are unsent and carry no badge. */
  ghost predicate Fresh(rows: seq<Row>, d: int)
  {
    forall i :: 0 <= i < d && i < |rows| ==> !rows[i].sent && rows[i].badges == 0
  }

  /** `a` and `b` have the same rows apart from their text. */
  ghost predicate SameShape(a: seq<Row>, b: seq<Row>)
  {
    |a| == |b| && forall i :: 0 <= i < |a| ==> a[i].key == b[i].key && a[i].sent == b[i].sent && a[i].badges == b[i].badges
  }

  /**
   * One iteration either puts one fresh row in front, for a new key whose entry
   * renders, or keeps the rows apart from their text.
   */
  lemma ClassifyRowsStep(r: Acc, live: Items, key: string, data: Entry, tabId: int, now: int, pretty: Json -> string)
    ensures var r' := Classify(r, live, key, data, tabId, now, pretty);
      if !Has(r.seen, key) && !Has(live, key) && Renders(data) then r'.rows == [Row(key, Shown(data, pretty), false, 0)] + r.rows
      else SameShape(r'.rows, r.rows)
  {
  }

  lemma TailGrow(b: seq<Row>, c: seq<Row>, x: Row)
    requires TailTracks(b, c) && Fresh(b, |b| - |c|)
    requires !x.sent && x.badges == 0
    ensures TailTracks([x] + b, c) && Fresh([x] + b, |[x] + b| - |c|)
  {
    var a := [x] + b;
    forall i | 0 < i < |a| - |c| ensures a[i] == b[i - 1] {
    }
  }

  lemma TailSame(a: seq<Row>, b: seq<Row>, c: seq<Row>)
    requires TailTracks(b, c) && Fresh(b, |b| - |c|)
    requires SameShape(a, b)
    ensures TailTracks(a, c) && Fresh(a, |a| - |c|)
  {
  }

  /**
   * Over any stretch of the loop, the rows present at its start stay, in
   * order, after the rows it inserts, and the inserted rows are unsent with
   * no badge.
   */
  lemma {:induction false} ClassifyAllTail(acc: Acc, live: Items, items: Items, tabId: int, now: int, pretty: Json -> string)
    ensures var r := ClassifyAll(acc, live, items, tabId, now, pretty);
      TailTracks(r.rows, acc.rows) && Fresh(r.rows, |r.rows| - |acc.rows|)
    decreases |items|
  {
    if |items| > 0 {
      var (key, data) := items[|items| - 1];
      var r := ClassifyAll(acc, live, items[..|items| - 1], tabId, now, pretty);
      assert ClassifyAll(acc, live, items, tabId, now, pretty) == Classify(r, live, key, data, tabId, now, pretty);
      ClassifyAllTail(acc, live, items[..|items| - 1], tabId, now, pretty);
      ClassifyRowsStep(r, live, key, data, tabId, now, pretty);
      if !Has(r.seen, key) && !Has(live, key) && Renders(data) {
        TailGrow(r.rows, acc.rows, Row(key, Shown(data, pretty), false, 0));
      } else {
        TailSame(Classify(r, live, key, data, tabId, now, pretty).rows, r.rows, acc.rows);
      }
    }
  }

  /**
   * The rows a stretch of the loop inserts show keys that were not seen at its
   * start, are seen at its end, and whose entries render.
   */
  lemma {:induction false} ClassifyAllNewRows(acc: Acc, live: Items, items: Items, tabId: int, now: int, pretty: Json -> string)
    ensures var r := ClassifyAll(acc, live, items, tabId, now, pretty);
      && |r.rows| >= |acc.rows|
      && forall i :: 0 <= i < |r.rows| - |acc.rows| ==>
           !Has(acc.seen, r.rows[i].key) && Has(r.seen, r.rows[i].key) && Renders(Lookup(r.seen, r.rows[i].key).value)
    decreases |items|
  {
    if |items| > 0 {
      var init := items[..|items| - 1];
      var (key, data) := items[|items| - 1];
      var r := ClassifyAll(acc, live, init, tabId, now, pretty);
      var r' := Classify(r, live, key, data, tabId, now, pretty);
      assert ClassifyAll(acc, live, items, tabId, now, pretty) == r';
      ClassifyAllNewRows(acc, live, init, tabId, now, pretty);
      ClassifyRowsStep(r, live, key, data, tabId, now, pretty);
      var inserted := !Has(r.seen, key) && !Has(live, key) && Renders(data);
      forall i | 0 <= i < |r'.rows| - |acc.rows|
        ensures !Has(acc.seen, r'.rows[i].key) && Has(r'.seen, r'.rows[i].key) && Renders(Lookup(r'.seen, r'.rows[i].key).value)
      {
        if inserted && i == 0 {
          ClassifyAllSeen(acc, live, init, tabId, now, pretty, key);
          LookupPut(r.seen, key, data.(firstSeen := Some(now)), key);
        } else {
          var old_i := if inserted then i - 1 else i;
          assert r'.rows[i].key == r.rows[old_i].key;
          ClassifySeenStep(r, live, key, data, tabId, now, pretty, r.rows[old_i].key);
        }
      }
    }
  }

  /** One iteration takes its key out of the unmatched keys, which stay seen. */
  lemma ClassifyExistingStep(r: Acc, live: Items, key: string, data: Entry, tabId: int, now: int, pretty: Json -> string)
    requires ExistingSeen(r)
    ensures var r' := Classify(r, live, key, data, tabId, now, pretty);
      (forall k :: k in r'.existing <==> k in r.existing && k != key) && ExistingSeen(r')
  {
    if !Has(r.seen, key) && !Has(live, key) {
      forall k | k in r.existing ensures Has(Put(r.seen, key, data.(firstSeen := Some(now))), k) {
        LookupPut(r.seen, key, data.(firstSeen := Some(now)), k);
      }
    }
  }

  /** The unmatched keys after a stretch of the loop are those of its start that the stretch did not meet. */
  lemma {:induction false} ClassifyAllExisting(acc: Acc, live: Items, items: Items, tabId: int, now: int, pretty: Json -> string)
    requires ExistingSeen(acc)
    ensures var r := ClassifyAll(acc, live, items, tabId, now, pretty);
      (forall k :: k in r.existing <==> k in acc.existing && !Has(items, k)) && ExistingSeen(r)
    decreases |items|
  {
    if |items| > 0 {
      var init := items[..|items| - 1];
      var (key, data) := items[|items| - 1];
      var r := ClassifyAll(acc, live, init, tabId, now, pretty);
      assert ClassifyAll(acc, live, items, tabId, now, pretty) == Classify(r, live, key, data, tabId, now, pretty);
      ClassifyAllExisting(acc, live, init, tabId, now, pretty);
      ClassifyExistingStep(r, live, key, data, tabId, now, pretty);
      assert items == init + [(key, data)];
      forall k ensures Has(items, k) == (Has(init, k) || k == key) {
        LookupAppend(init, key, data, k);
      }
    }
  }

  /** Every key first seen during the pass whose entry renders has a row among the rows the pass inserted. */
  lemma {:induction false} ClassifyAllHead(acc: Acc, live: Items, items: Items, tabId: int, now: int, pretty: Json -> string, k: string)
    requires !Has(acc.seen, k) && Has(ClassifyAll(acc, live, items, tabId, now, pretty).seen, k)
    requires Renders(Lookup(ClassifyAll(acc, live, items, tabId, now, pretty).seen, k).value)
    ensures var r := ClassifyAll(acc, live, items, tabId, now, pretty);
      exists i :: 0 <= i < |r.rows| - |acc.rows| && r.rows[i].key == k
    decreases |items|
  {
    var init := items[..|items| - 1];
    var (key, data) := items[|items| - 1];
    var r := ClassifyAll(acc, live, init, tabId, now, pretty);
    var r' := Classify(r, live, key, data, tabId, now, pretty);
    assert ClassifyAll(acc, live, items, tabId, now, pretty) == r';
    ClassifyRowsStep(r, live, key, data, tabId, now, pretty);
    ClassifyAllNewRows(acc, live, init, tabId, now, pretty);
    ClassifySeenStep(r, live, key, data, tabId, now, pretty, k);
    if Has(r.seen, k) {
      ClassifyAllHead(acc, live, init, tabId, now, pretty, k);
      var i :| 0 <= i < |r.rows| - |acc.rows| && r.rows[i].key == k;
      if !Has(r.seen, key) && !Has(live, key) && Renders(data) {
        assert r'.rows[i + 1].key == k;
      } else {
        assert r'.rows[i].key == k;
      }
    } else {
      LookupPut(r.seen, key, data.(firstSeen := Some(now)), k);
      assert r'.rows[0].key == k;
    }
  }

  /** One iteration moves a row by the number of rows it inserts, and rewrites its text only when it matches the key. */
  lemma ClassifyKeepsRow(r: Acc, live: Items, key: string, data: Entry, tabId: int, now: int, pretty: Json -> string, p: nat)
    requires p < |r.rows|
    ensures var r' := Classify(r, live, key, data, tabId, now, pretty);
      var p' := p + |r'.rows| - |r.rows|;
      && |r.rows| <= |r'.rows|
      && r'.rows[p'].key == r.rows[p].key
      && r'.rows[p'].shown ==
           if (Has(r.seen, key) || Has(live, key)) && key in r.existing && r.rows[p].key == key
           then Shown(data, pretty) else r.rows[p].shown
  {
  }

  /**
   * With a snapshot binding each key once, a row that was displayed at the
   * start shows the snapshot's rendering of its key when the key is present,
   * and keeps its text when it is not.
   */
  lemma {:induction false} ClassifyAllShown(acc: Acc, live: Items, items: Items, tabId: int, now: int, pretty: Json -> string, j: nat)
    requires Unique(items)
    requires ExistingSeen(acc)
    requires j < |acc.rows| && acc.rows[j].key in acc.existing
    ensures var r := ClassifyAll(acc, live, items, tabId, now, pretty);
      |r.rows| >= |acc.rows| &&
      r.rows[|r.rows| - |acc.rows| + j].shown ==
        if Has(items, acc.rows[j].key) then Shown(Lookup(items, acc.rows[j].key).value, pretty) else acc.rows[j].shown
    decreases |items|
  {
    var k := acc.rows[j].key;
    if |items| > 0 {
      var init := items[..|items| - 1];
      var (key, data) := items[|items| - 1];
      var r := ClassifyAll(acc, live, init, tabId, now, pretty);
      var r' := Classify(r, live, key, data, tabId, now, pretty);
      assert ClassifyAll(acc, live, items, tabId, now, pretty) == r';
      assert items == init + [(key, data)];
      LookupAppend(init, key, data, k);
      UniqueLastFresh(items);
      ClassifyAllShown(acc, live, init, tabId, now, pretty, j);
      ClassifyAllTail(acc, live, init, tabId, now, pretty);
      var d := |r.rows| - |acc.rows|;
      ClassifyKeepsRow(r, live, key, data, tabId, now, pretty, d + j);
      if key == k {
        ClassifyAllExisting(acc, live, init, tabId, now, pretty);
        assert k in r.existing && Has(r.seen, k);
      }
    }
  }

  /* ---------------- the panel invariant is kept ---------------- */

  /** Row keys are distinct and seen, and a row has one badge exactly when it is sent. */
  ghost predicate RowsOk(rows: seq<Row>, seen: Items)
  {
    && (forall i, j :: 0 <= i < j < |rows| ==> rows[i].key != rows[j].key)
    && (forall i :: 0 <= i < |rows| ==> Has(seen, rows[i].key))
    && (forall i :: 0 <= i < |rows| ==> rows[i].badges == if rows[i].sent then 1 else 0)
  }

  lemma ClassifyShapeStep(r: Acc, live: Items, key: string, data: Entry, tabId: int, now: int, pretty: Json -> string)
    requires Unique(r.seen) && RowsOk(r.rows, r.seen)
    ensures var r' := Classify(r, live, key, data, tabId, now, pretty);
      Unique(r'.seen) && RowsOk(r'.rows, r'.seen)
  {
    if !Has(r.seen, key) && !Has(live, key) {
      var seen := Put(r.seen, key, data.(firstSeen := Some(now)));
      UniqueAfterPut(r.seen, key, data.(firstSeen := Some(now)));
      forall k ensures Has(r.seen, k) ==> Has(seen, k) {
        LookupPut(r.seen, key, data.(firstSeen := Some(now)), k);
      }
      LookupPut(r.seen, key, data.(firstSeen := Some(now)), key);
      if Renders(data) {
        var rows := [Row(key, Shown(data, pretty), false, 0)] + r.rows;
        forall i | 0 < i < |rows| ensures rows[i] == r.rows[i - 1] {
        }
      }
    }
  }

  lemma {:induction false} ClassifyAllShape(acc: Acc, live: Items, items: Items, tabId: int, now: int, pretty: Json -> string)
    requires Unique(acc.seen) && RowsOk(acc.rows, acc.seen)
    ensures var r := ClassifyAll(acc, live, items, tabId, now, pretty);
      Unique(r.seen) && RowsOk(r.rows, r.seen)
    decreases |items|
  {
    if |items| > 0 {
      var (key, data) := items[|items| - 1];
      var r := ClassifyAll(acc, live, items[..|items| - 1], tabId, now, pretty);
      assert ClassifyAll(acc, live, items, tabId, now, pretty) == Classify(r, live, key, data, tabId, now, pretty);
      ClassifyAllShape(acc, live, items[..|items| - 1], tabId, now, pretty);
      ClassifyShapeStep(r, live, key, data, tabId, now, pretty);
    }
  }

  lemma InsertUnique(p: (string, Entry), sorted: Items)
    requires Unique(sorted)
    requires forall i :: 0 <= i < |sorted| ==> sorted[i].0 != p.0
    ensures Unique(Insert(p, sorted))
    decreases |sorted|
  {
    if |sorted| > 0 && TimeKey(sorted[0].1) > TimeKey(p.1) {
      var rest := Insert(p, sorted[1..]);
      InsertUnique(p, sorted[1..]);
      InsertPermutes(p, sorted[1..]);
      forall j | 0 <= j < |rest| ensures rest[j].0 != sorted[0].0 {
        assert rest[j] in multiset(rest);
        if rest[j] != p {
          assert rest[j] in multiset(sorted[1..]);
          var k :| 0 <= k < |sorted[1..]| && sorted[1..][k] == rest[j];
          assert sorted[k + 1] == rest[j];
        }
      }
      var r := [sorted[0]] + rest;
      forall i, j | 0 <= i < j < |r| ensures r[i].0 != r[j].0 {
        assert r[j] == rest[j - 1];
        if i > 0 { assert r[i] == rest[i - 1]; }
      }
    }
  }

  /** Sorting a Map's entries keeps one entry per key, each taken from the Map. */
  lemma {:induction false} SortByTimeUnique(m: Items)
    requires Unique(m)
    ensures Unique(SortByTime(m))
    ensures forall i :: 0 <= i < |SortByTime(m)| ==> Has(m, SortByTime(m)[i].0)
    decreases |m|
  {
    SortByTimeSorts(m);
    forall i | 0 <= i < |SortByTime(m)| ensures Has(m, SortByTime(m)[i].0) {
      assert SortByTime(m)[i] in multiset(m);
      var k :| 0 <= k < |m| && m[k] == SortByTime(m)[i];
      HasKeys(m, m[k].0);
    }
    if |m| > 0 {
      var tail := SortByTime(m[1..]);
      SortByTimeUnique(m[1..]);
      SortByTimeSorts(m[1..]);
      forall i | 0 <= i < |tail| ensures tail[i].0 != m[0].0 {
        assert tail[i] in multiset(m[1..]);
        var k :| 0 <= k < |m[1..]| && m[1..][k] == tail[i];
        assert m[k + 1] == tail[i];
      }
      InsertUnique(m[0], tail);
    }
  }

  /** Every pass of `displayResults` keeps the panel invariant. */
  lemma DisplayPassKeepsInv(s: PanelState, results: Option<Items>, tabId: int, now: int, pretty: Json -> string)
    requires Inv(s)
    ensures Inv(DisplayPass(s, results, tabId, now, pretty))
  {
    if results.Some? {
      if s.firstLoad && |s.seen| > 0 {
        SortByTimeUnique(s.seen);
      } else {
        var acc := Acc(s.seen, s.rows, RowKeys(s.rows), s.saved);
        ClassifyAllShape(acc, s.live, results.value, tabId, now, pretty);
      }
    }
  }

  /* ---------------- properties of one reconciliation pass ---------------- */

  /**
   * `displayResults` never forgets or rewrites a seen item and never touches
   * currentStorageItems; a key joins seenItems, stamped `firstSeen = now`,
   * exactly when the snapshot has it and neither Map does; the saved copy is
   * rewritten exactly when seenItems grew.
   */
  lemma ReconcileSeen(s: PanelState, items: Items, tabId: int, now: int, pretty: Json -> string, k: string)
    ensures var r := Reconcile(s, items, tabId, now, pretty);
      && r.live == s.live && r.firstLoad == s.firstLoad
      && (Has(s.seen, k) ==> Lookup(r.seen, k) == Lookup(s.seen, k))
      && (!Has(s.seen, k) ==> (Has(r.seen, k) <==> Has(items, k) && !Has(s.live, k)))
      && (!Has(s.seen, k) && Has(r.seen, k) ==> Lookup(r.seen, k).value.firstSeen == Some(now))
      && r.saved == if r.seen == s.seen then s.saved else s.saved[SeenItemsData(tabId) := r.seen]
  {
    ClassifyAllSeen(Acc(s.seen, s.rows, RowKeys(s.rows), s.saved), s.live, items, tabId, now, pretty, k);
  }

  /** A new key stores exactly the snapshot's entry for it, with `firstSeen = now`. */
  lemma ReconcileNewEntry(s: PanelState, items: Items, tabId: int, now: int, pretty: Json -> string, k: string)
    requires Unique(items)
    requires !Has(s.seen, k) && !Has(s.live, k) && Has(items, k)
    ensures Lookup(Reconcile(s, items, tabId, now, pretty).seen, k) == Some(Lookup(items, k).value.(firstSeen := Some(now)))
  {
    ClassifyAllNewEntry(Acc(s.seen, s.rows, RowKeys(s.rows), s.saved), s.live, items, tabId, now, pretty, k);
  }

  /**
   * The rows of a pass: the rows displayed before keep their order and sit
   * after the inserted ones; such a row ends marked sent exactly when it was
   * already sent or its key is absent from the snapshot; each inserted row is
   * unsent and shows a key first seen in this pass whose entry renders; every
   * key first seen in this pass whose entry renders has an inserted row, and one
   * whose entry does not render has no row at all.
   */
  lemma ReconcileRows(s: PanelState, items: Items, tabId: int, now: int, pretty: Json -> string)
    requires Inv(s)
    ensures var r := Reconcile(s, items, tabId, now, pretty);
      var d := |r.rows| - |s.rows|;
      && d >= 0
      && (forall i :: 0 <= i < |s.rows| ==> r.rows[d + i].key == s.rows[i].key)
      && (forall i :: 0 <= i < |s.rows| ==> r.rows[d + i].sent == (s.rows[i].sent || !Has(items, s.rows[i].key)))
      && (forall i :: 0 <= i < d ==>
            && !r.rows[i].sent && !Has(s.seen, r.rows[i].key) && Has(r.seen, r.rows[i].key)
            && Renders(Lookup(r.seen, r.rows[i].key).value))
      && (forall k :: !Has(s.seen, k) && Has(r.seen, k) && Renders(Lookup(r.seen, k).value) ==>
            exists i :: 0 <= i < d && r.rows[i].key == k)
      && (forall k :: !Has(s.seen, k) && Has(r.seen, k) && !Renders(Lookup(r.seen, k).value) ==>
            k !in RowKeys(r.rows))
  {
    ReconcileOldRows(s, items, tabId, now, pretty);
    ReconcileNewRows(s, items, tabId, now, pretty);
    ReconcileCover(s, items, tabId, now, pretty);
    var r := Reconcile(s, items, tabId, now, pretty);
    var d := |r.rows| - |s.rows|;
    forall k | !Has(s.seen, k) && Has(r.seen, k) && !Renders(Lookup(r.seen, k).value) ensures k !in RowKeys(r.rows) {
      forall i | 0 <= i < |r.rows| ensures r.rows[i].key != k {
        if i >= d {
          assert r.rows[i].key == s.rows[i - d].key;
        }
      }
    }
  }

  /** The keys of the rows a pass starts from are all seen. */
  lemma StartExisting(s: PanelState)
    requires Inv(s)
    ensures ExistingSeen(Acc(s.seen, s.rows, RowKeys(s.rows), s.saved))
  {
    forall k | k in RowKeys(s.rows) ensures Has(s.seen, k) {
      var i :| 0 <= i < |s.rows| && s.rows[i].key == k;
    }
  }

  lemma ReconcileOldRows(s: PanelState, items: Items, tabId: int, now: int, pretty: Json -> string)
    requires Inv(s)
    ensures var r := Reconcile(s, items, tabId, now, pretty);
      var d := |r.rows| - |s.rows|;
      && d >= 0
      && (forall i :: 0 <= i < |s.rows| ==> r.rows[d + i].key == s.rows[i].key)
      && (forall i :: 0 <= i < |s.rows| ==> r.rows[d + i].sent == (s.rows[i].sent || !Has(items, s.rows[i].key)))
  {
    var acc := Acc(s.seen, s.rows, RowKeys(s.rows), s.saved);
    var a := ClassifyAll(acc, s.live, items, tabId, now, pretty);
    StartExisting(s);
    ClassifyAllTail(acc, s.live, items, tabId, now, pretty);
    ClassifyAllExisting(acc, s.live, items, tabId, now, pretty);
    var r := Reconcile(s, items, tabId, now, pretty);
    assert r.rows == MarkSent(a.rows, a.existing);
    var d := |a.rows| - |s.rows|;
    forall i | 0 <= i < |s.rows|
      ensures r.rows[d + i].key == s.rows[i].key
      ensures r.rows[d + i].sent == (s.rows[i].sent || !Has(items, s.rows[i].key))
    {
      var row := a.rows[d + i];
      assert row.key == s.rows[i].key && row.sent == s.rows[i].sent;
      assert s.rows[i].key in RowKeys(s.rows);
      assert row.key in a.existing <==> !Has(items, row.key);
      assert r.rows[d + i] == if row.key in a.existing then Mark(row) else row;
    }
  }

  lemma ReconcileNewRows(s: PanelState, items: Items, tabId: int, now: int, pretty: Json -> string)
    requires Inv(s)
    ensures var r := Reconcile(s, items, tabId, now, pretty);
      var d := |r.rows| - |s.rows|;
      forall i :: 0 <= i < d ==>
        && !r.rows[i].sent && !Has(s.seen, r.rows[i].key) && Has(r.seen, r.rows[i].key)
        && Renders(Lookup(r.seen, r.rows[i].key).value)
  {
    var acc := Acc(s.seen, s.rows, RowKeys(s.rows), s.saved);
    var a := ClassifyAll(acc, s.live, items, tabId, now, pretty);
    StartExisting(s);
    ClassifyAllTail(acc, s.live, items, tabId, now, pretty);
    ClassifyAllNewRows(acc, s.live, items, tabId, now, pretty);
    ClassifyAllExisting(acc, s.live, items, tabId, now, pretty);
    ClassifyAllShape(acc, s.live, items, tabId, now, pretty);
    forall i | 0 <= i < |a.rows| - |s.rows| ensures a.rows[i].key !in a.existing {
    }
  }

  lemma ReconcileCover(s: PanelState, items: Items, tabId: int, now: int, pretty: Json -> string)
    ensures var r := Reconcile(s, items, tabId, now, pretty);
      var d := |r.rows| - |s.rows|;
      forall k :: !Has(s.seen, k) && Has(r.seen, k) && Renders(Lookup(r.seen, k).value) ==>
        exists i :: 0 <= i < d && r.rows[i].key == k
  {
    var acc := Acc(s.seen, s.rows, RowKeys(s.rows), s.saved);
    var a := ClassifyAll(acc, s.live, items, tabId, now, pretty);
    var r := Reconcile(s, items, tabId, now, pretty);
    var d := |a.rows| - |s.rows|;
    forall k | !Has(s.seen, k) && Has(r.seen, k) && Renders(Lookup(r.seen, k).value)
      ensures exists i :: 0 <= i < d && r.rows[i].key == k
    {
      ClassifyAllHead(acc, s.live, items, tabId, now, pretty, k);
      var i :| 0 <= i < d && a.rows[i].key == k;
      assert r.rows[i].key == k;
    }
  }

  /**
   * With a snapshot binding each key once, a displayed row whose key is in the
   * snapshot shows the fresh rendering of it, and a row whose key is gone keeps
   * its text.
   */
  lemma ReconcileShown(s: PanelState, items: Items, tabId: int, now: int, pretty: Json -> string, j: nat)
    requires Inv(s) && Unique(items) && j < |s.rows|
    ensures var r := Reconcile(s, items, tabId, now, pretty);
      |r.rows| >= |s.rows| &&
      r.rows[|r.rows| - |s.rows| + j].shown ==
        if Has(items, s.rows[j].key) then Shown(Lookup(items, s.rows[j].key).value, pretty) else s.rows[j].shown
  {
    var acc := Acc(s.seen, s.rows, RowKeys(s.rows), s.saved);
    StartExisting(s);
    assert s.rows[j].key in RowKeys(s.rows);
    ClassifyAllShown(acc, s.live, items, tabId, now, pretty, j);
  }

  /** Marking sent is idempotent, and never attaches a second badge. */
  lemma MarkSentIdempotent(rows: seq<Row>, gone: set<string>)
    requires forall i :: 0 <= i < |rows| ==> rows[i].badges <= 1
    ensures MarkSent(MarkSent(rows, gone), gone) == MarkSent(rows, gone)
    ensures forall i :: 0 <= i < |rows| ==> MarkSent(rows, gone)[i].badges <= 1
  {
  }

  /**
   * On first load with seen items, the panel lists them newest first (equal
   * timestamps in Map order), unsent, up to the first one whose element cannot
   * be built; the first load ends exactly when every seen item renders, and
   * nothing is classified.
   */
  lemma FirstLoadShowsSeen(s: PanelState, items: Items, tabId: int, now: int, pretty: Json -> string)
    requires s.firstLoad && |s.seen| > 0
    ensures var r := DisplayPass(s, Some(items), tabId, now, pretty);
      var ordered := SortByTime(s.seen);
      && r.seen == s.seen && r.live == s.live && r.saved == s.saved
      && Descending(ordered) && multiset(ordered) == multiset(s.seen)
      && (forall t :: WithTime(ordered, t) == WithTime(s.seen, t))
      && r.rows == RowsOf(ordered[..RenderedCount(ordered)], pretty)
      && (r.firstLoad <==> exists i :: 0 <= i < |s.seen| && !Renders(s.seen[i].1))
      && (!r.firstLoad ==> r.rows == RowsOf(ordered, pretty))
  {
    var ordered := SortByTime(s.seen);
    var n := RenderedCount(ordered);
    SortByTimeSorts(s.seen);
    if n < |ordered| {
      assert ordered[n] in multiset(s.seen);
    }
    if exists i :: 0 <= i < |s.seen| && !Renders(s.seen[i].1) {
      var i :| 0 <= i < |s.seen| && !Renders(s.seen[i].1);
      assert s.seen[i] in multiset(ordered);
      var j :| 0 <= j < |ordered| && ordered[j] == s.seen[i];
    }
    assert ordered[..|ordered|] == ordered;
  }

  /**
   * While seenItems holds an entry whose element cannot be built, every pass
   * stays in the first load: it rebuilds the same rows, never classifies a
   * snapshot, never adds to seenItems and never marks a row sent.
   */
  lemma FirstLoadPersists(s: PanelState, results: Option<Items>, tabId: int, now: int, pretty: Json -> string, i: nat)
    requires s.firstLoad && i < |s.seen| && !Renders(s.seen[i].1)
    ensures var r := DisplayPass(s, results, tabId, now, pretty);
      var ordered := SortByTime(s.seen);
      && r.firstLoad && r.seen == s.seen && r.live == s.live && r.saved == s.saved
      && (results.Some? ==> r.rows == RowsOf(ordered[..RenderedCount(ordered)], pretty))
      && RenderedCount(ordered) < |s.seen|
  {
    var ordered := SortByTime(s.seen);
    SortByTimeSorts(s.seen);
    assert s.seen[i] in multiset(ordered);
    var j :| 0 <= j < |ordered| && ordered[j] == s.seen[i];
    if results.Some? {
      FirstLoadShowsSeen(s, results.value, tabId, now, pretty);
    }
  }

  /**
   * `clearAllItems`: with results, seenItems and the container are emptied,
   * currentStorageItems holds exactly the snapshot's bindings, the first load is
   * over and both saved slots hold the new Maps; without results nothing changes.
   */
  lemma ClearPassEffect(s: PanelState, results: Option<Items>, tabId: int, k: string)
    ensures results.None? ==> ClearPass(s, results, tabId) == s
    ensures results.Some? ==> var r := ClearPass(s, results, tabId);
      && r.seen == [] && r.rows == [] && !r.firstLoad
      && Unique(r.live) && Lookup(r.live, k) == Lookup(results.value, k)
      && (Unique(results.value) ==> r.live == results.value)
      && r.saved == s.saved[SeenItemsData(tabId) := []][CurrentStorageItems(tabId) := r.live]
  {
    if results.Some? {
      LookupPutAll([], results.value, k);
      UniquePutAll([], results.value);
      if Unique(results.value) { PutAllFresh(results.value); }
    }
  }

  /* ---------------- live updates relayed by the background page ---------------- */

  /**
   * What a relayed update holds under `source`: the background page adds the
   * binding `source: 'localStorage'`, a string, so every field the panel reads
   * from it (`value`, `parsedValue`, `originalKey`, `timestamp`, …) is undefined.
   */
  const SOURCE_ENTRY := Entry("", JNull, JNull, JNull, None, false, None)

  /** `{...data, source: 'localStorage'}`: the map a live update hands to `displayResults`. */
  function Relay(data: Items): Items
  {
    Put(data, "source", SOURCE_ENTRY)
  }

  /**
   * Outside the first load, the first relayed update that meets `source` in
   * neither Map makes it a seen item, saves it, and inserts no row for it, its
   * label being undefined; seenItems then holds an entry that stops every later
   * first load (see `FirstLoadPersists`).
   */
  lemma RelayedSourceSticks(s: PanelState, data: Items, tabId: int, now: int, pretty: Json -> string)
    requires Inv(s) && Unique(data)
    requires !s.firstLoad || |s.seen| == 0
    requires !Has(s.seen, "source") && !Has(s.live, "source")
    ensures var r := DisplayPass(s, Some(Relay(data)), tabId, now, pretty);
      && Lookup(r.seen, "source") == Some(SOURCE_ENTRY.(firstSeen := Some(now)))
      && "source" !in RowKeys(r.rows)
      && SeenItemsData(tabId) in r.saved && r.saved[SeenItemsData(tabId)] == r.seen
      && exists i :: 0 <= i < |r.seen| && !Renders(r.seen[i].1)
  {
    var items := Relay(data);
    UniqueAfterPut(data, "source", SOURCE_ENTRY);
    LookupPut(data, "source", SOURCE_ENTRY, "source");
    ReconcileNewEntry(s, items, tabId, now, pretty, "source");
    ReconcileSeen(s, items, tabId, now, pretty, "source");
    ReconcileRows(s, items, tabId, now, pretty);
    var r := Reconcile(s, items, tabId, now, pretty);
    assert r.seen != s.seen;
    LookupFound(r.seen, "source");
  }

  /* ---------------- the panel ---------------- */

  /** The panel's module-level state: the two Maps, the first-load flag, the container, the extension's storage. */
  class Panel {
    var seenItems: Items
    var currentStorageItems: Items
    var isFirstLoad: bool
    var container: seq<Row>
    var saved: map<SavedSlot, Items>

    function State(): PanelState
      reads this
    {
      PanelState(seenItems, currentStorageItems, isFirstLoad, container, saved)
    }

    ghost predicate Valid()
      reads this
    {
      Inv(State())
    }

    /**
     * Opening the panel on tab `tabId` with `stored` in `chrome.storage.local`:
     * each Map is rebuilt with `new Map(entries)` from its slot when there is one.
     */
    constructor Open(tabId: int, stored: map<SavedSlot, Items>)
      ensures Valid()
      ensures seenItems == (if SeenItemsData(tabId) in stored then PutAll([], stored[SeenItemsData(tabId)]) else [])
      ensures currentStorageItems ==
        (if CurrentStorageItems(tabId) in stored then PutAll([], stored[CurrentStorageItems(tabId)]) else [])
      ensures isFirstLoad && container == [] && saved == stored
    {
      seenItems := if SeenItemsData(tabId) in stored then PutAll([], stored[SeenItemsData(tabId)]) else [];
      currentStorageItems :=
        if CurrentStorageItems(tabId) in stored then PutAll([], stored[CurrentStorageItems(tabId)]) else [];
      isFirstLoad := true;
      container := [];
      saved := stored;
      if SeenItemsData(tabId) in stored { UniquePutAll([], stored[SeenItemsData(tabId)]); }
      if CurrentStorageItems(tabId) in stored { UniquePutAll([], stored[CurrentStorageItems(tabId)]); }
    }

    /** `displayResults(results)`; `results` is `None` when `results[0]` is missing. */
    method DisplayResults(results: Option<Items>, tabId: int, now: int, pretty: Json -> string)
      requires Valid()
      modifies this
      ensures Valid()
      ensures State() == DisplayPass(old(State()), results, tabId, now, pretty)
    {
      DisplayPassKeepsInv(State(), results, tabId, now, pretty);
      if results.None? {
        return;
      }
      if isFirstLoad && |seenItems| > 0 {
        ShowSeenItems(pretty);
        return;
      }
      var existing := ClassifyEntries(results.value, tabId, now, pretty);
      MarkGoneRows(existing);
    }

    /**
     * The first-load branch: the container is emptied and refilled from
     * seenItems, newest first, until an element cannot be built; only a loop
     * that runs to the end clears `isFirstLoad`.
     */
    method ShowSeenItems(pretty: Json -> string)
      modifies this
      ensures var ordered := SortByTime(old(seenItems));
        && container == RowsOf(ordered[..RenderedCount(ordered)], pretty)
        && isFirstLoad == (old(isFirstLoad) && RenderedCount(ordered) < |ordered|)
      ensures seenItems == old(seenItems) && currentStorageItems == old(currentStorageItems) && saved == old(saved)
    {
      var ordered := SortByTime(seenItems);
      container := [];
      var i := 0;
      while i < |ordered| && Renders(ordered[i].1)
        invariant 0 <= i <= |ordered|
        invariant forall t :: 0 <= t < i ==> Renders(ordered[t].1)
        invariant container == RowsOf(ordered[..i], pretty)
        invariant seenItems == old(seenItems) && currentStorageItems == old(currentStorageItems)
        invariant saved == old(saved) && isFirstLoad == old(isFirstLoad)
      {
        container := container + [Row(ordered[i].0, Shown(ordered[i].1, pretty), false, 0)];
        i := i + 1;
      }
      assert i == RenderedCount(ordered);
      if i == |ordered| {
        isFirstLoad := false;
      }
    }

    /**
     * The `for … of Object.entries(currentItems)` loop; it answers the keys of
     * `existingElements` left unmatched.
     */
    method ClassifyEntries(items: Items, tabId: int, now: int, pretty: Json -> string) returns (existing: set<string>)
      modifies this
      ensures Acc(seenItems, container, existing, saved) ==
        ClassifyAll(Acc(old(seenItems), old(container), RowKeys(old(container)), old(saved)),
                    old(currentStorageItems), items, tabId, now, pretty)
      ensures currentStorageItems == old(currentStorageItems) && isFirstLoad == old(isFirstLoad)
    {
      ghost var start := Acc(seenItems, container, RowKeys(container), saved);
      existing := RowKeys(container);
      var i := 0;
      while i < |items|
        invariant 0 <= i <= |items|
        invariant Acc(seenItems, container, existing, saved) ==
          ClassifyAll(start, currentStorageItems, items[..i], tabId, now, pretty)
        invariant currentStorageItems == old(currentStorageItems) && isFirstLoad == old(isFirstLoad)
      {
        var (key, data) := items[i];
        if !Has(seenItems, key) && !Has(currentStorageItems, key) {
          seenItems := Put(seenItems, key, data.(firstSeen := Some(now)));
          saved := saved[SeenItemsData(tabId) := seenItems];
          if Renders(data) {
            container := [Row(key, Shown(data, pretty), false, 0)] + container;
          }
        } else if key in existing {
          container := Refresh(container, key, Shown(data, pretty));
          existing := existing - {key};
        }
        assert items[..i + 1][..i] == items[..i];
        i := i + 1;
      }
      assert items[..|items|] == items;
    }

    /** The final `existingElements.forEach`, marking each unmatched element sent. */
    method MarkGoneRows(existing: set<string>)
      modifies this
      ensures container == MarkSent(old(container), existing)
      ensures seenItems == old(seenItems) && saved == old(saved)
      ensures currentStorageItems == old(currentStorageItems) && isFirstLoad == old(isFirstLoad)
    {
      var j := 0;
      while j < |container|
        invariant 0 <= j <= |container| == |old(container)|
        invariant forall t :: 0 <= t < j ==>
          container[t] == if old(container)[t].key in existing then Mark(old(container)[t]) else old(container)[t]
        invariant forall t :: j <= t < |container| ==> container[t] == old(container)[t]
        invariant seenItems == old(seenItems) && saved == old(saved)
        invariant currentStorageItems == old(currentStorageItems) && isFirstLoad == old(isFirstLoad)
      {
        if container[j].key in existing && !container[j].sent {
          var badges := if container[j].badges == 0 then 1 else container[j].badges;
          container := container[j := container[j].(sent := true, badges := badges)];
        }
        j := j + 1;
      }
    }

    /** `clearAllItems(tabId)` once the injected reader answered `results`. */
    method ClearAllItems(results: Option<Items>, tabId: int)
      requires Valid()
      modifies this
      ensures Valid()
      ensures State() == ClearPass(old(State()), results, tabId)
    {
      if results.None? {
        return;
      }
      var items := results.value;
      seenItems := [];
      currentStorageItems := [];
      for i := 0 to |items|
        invariant currentStorageItems == PutAll([], items[..i])
        invariant seenItems == [] && saved == old(saved)
      {
        assert items[..i + 1][..i] == items[..i];
        currentStorageItems := Put(currentStorageItems, items[i].0, items[i].1);
      }
      assert items[..|items|] == items;
      UniquePutAll([], items);
      saved := saved[SeenItemsData(tabId) := seenItems][CurrentStorageItems(tabId) := currentStorageItems];
      container := [];
      isFirstLoad := false;
    }
  }

  /** A Map saved as its entry list and rebuilt with `new Map(entries)` is the same Map. */
  lemma SavedMapRoundTrip(m: Items)
    requires Unique(m)
    ensures PutAll([], m) == m
  {
    PutAllFresh(m);
  }
}
