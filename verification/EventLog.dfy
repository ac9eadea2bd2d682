/**
 The event queue seen by event number: what the byte-keyed database amounts to, and how it relates
 to an append-only log of all events ever produced.
 */
module EventLog {
  import opened Json
  import opened LevelDb
  import opened Ids
  import opened EventQueue

  /** An event whose ID is a number; `Render` gives the event as it is stored and sent. */
  datatype Item = Item(id: nat, kind: EventType, data: Members)

  function Render(item: Item): Event { Event(FormatHex(item.id), item.kind, item.data) }

  function RenderAll(items: seq<Item>): (events: seq<Event>)
    ensures |events| == |items|
    ensures forall i | 0 <= i < |items| :: events[i] == Render(items[i])
  {
    seq(|items|, i requires 0 <= i < |items| => Render(items[i]))
  }

  datatype Tape = Tape(stored: map<nat, Item>, latest: nat, capacity: nat)

  function NextId(t: Tape): Tape { t.(latest := t.latest + 1) }

  /** What a rotation drops that read the counter at `limit`. */
  function Stale(t: Tape, limit: nat): set<nat> { set id | id in t.stored && id + t.capacity <= limit }

  /** The batch of a rotation. */
  function WriteItem(t: Tape, item: Item, dropped: set<nat>): Tape {
    t.(stored := t.stored[item.id := item] - dropped)
  }

  /** A rotation that nothing interrupts. */
  function StoreItem(t: Tape, item: Item): Tape { WriteItem(t, item, Stale(t, t.latest)) }

  /** The stored items with an ID in (lo, hi], in ID order. */
  function Replay(stored: map<nat, Item>, lo: nat, hi: nat): seq<Item>
    decreases hi
  {
    if hi <= lo then []
    else Replay(stored, lo, hi - 1) + if hi in stored then [stored[hi]] else []
  }

  /** Stored IDs were all handed out. */
  predicate Issued(t: Tape) {
    forall id | id in t.stored :: t.stored[id].id == id && 1 <= id <= t.latest
  }

  // ---------- the byte-keyed queue is this tape ----------

  ghost predicate Represents(q: Queue, t: Tape) {
    && Issued(t)
    && t.latest + 1 < WORD
    && q.latest == t.latest && q.capacity == t.capacity
    && (forall k | k in q.db :: IsKey(k) && IdOf(k) in t.stored && q.db[k] == Render(t.stored[IdOf(k)]))
    && (forall id {:trigger Uint64ToByte(id)} | id in t.stored :: Uint64ToByte(id) in q.db)
  }

  lemma RepresentsWellKeyed(q: Queue, t: Tape)
    requires Represents(q, t)
    ensures WellKeyed(q.db)
  {
    hide PutUint64, FromBigEndian, FormatHex, HexValue;
    forall k | k in q.db ensures ParseHex(q.db[k].id) == Some(IdOf(k)) {
      KeyOrderOf(k, k);
      HexRoundTrip(IdOf(k));
    }
  }

  lemma NewIdRepresents(q: Queue, t: Tape)
    requires Represents(q, t) && t.latest + 2 < WORD
    ensures Represents(NewId(q), NextId(t))
  {
  }

  lemma KeyOfId(k: Key, id: uint64)
    requires IsKey(k)
    ensures IdOf(k) < WORD
    ensures k == Uint64ToByte(id) <==> IdOf(k) == id
  {
    KeyRoundTrip(id, k);
  }

  lemma StoreRepresents(q: Queue, t: Tape, item: Item)
    requires Represents(q, t) && 1 <= item.id <= t.latest
    ensures Store(q, Render(item)).Some?
    ensures Represents(Store(q, Render(item)).value, StoreItem(t, item))
  {
    hide PutUint64, FromBigEndian, FormatHex, HexValue, Less;
    HexRoundTrip(item.id);
    RepresentsWellKeyed(q, t);
    ExpiredIds(q);
    var key := Uint64ToByte(item.id);
    KeyRoundTrip(item.id, key);
    var r, s := Store(q, Render(item)).value, StoreItem(t, item);
    forall k | k in r.db
      ensures IsKey(k) && IdOf(k) in s.stored && r.db[k] == Render(s.stored[IdOf(k)])
    {
      KeyOfId(k, item.id);
    }
    forall id | id in s.stored ensures Uint64ToByte(id) in r.db {
      KeyRoundTrip(id, key);
    }
  }

  predicate Ascending(items: seq<Item>) {
    forall i, j | 0 <= i < j < |items| :: items[i].id < items[j].id
  }

  /** Every element is a stored item with an ID in (lo, hi]. */
  predicate Picked(stored: map<nat, Item>, lo: nat, hi: nat, items: seq<Item>) {
    forall i {:trigger items[i]} | 0 <= i < |items| ::
      lo < items[i].id <= hi && items[i].id in stored && items[i] == stored[items[i].id]
  }

  lemma {:induction false} ReplayContent(stored: map<nat, Item>, lo: nat, hi: nat)
    requires forall n | n in stored :: stored[n].id == n
    ensures Ascending(Replay(stored, lo, hi))
    ensures Picked(stored, lo, hi, Replay(stored, lo, hi))
    ensures forall n | n in stored && lo < n <= hi :: stored[n] in Replay(stored, lo, hi)
    decreases hi
  {
    if hi > lo {
      ReplayContent(stored, lo, hi - 1);
      var before := Replay(stored, lo, hi - 1);
      var items := Replay(stored, lo, hi);
      forall i | 0 <= i < |before| ensures items[i] == before[i] {}
    }
  }

  /** What getAllAfter returns is the replay of the tape. */
  lemma ReplayRepresents(q: Queue, t: Tape, id: uint64)
    requires Represents(q, t) && id + 1 < WORD
    ensures AllAfter(q.db, id) == RenderAll(Replay(t.stored, id, t.latest))
  {
    hide PutUint64, FromBigEndian, FormatHex, HexValue, Less;
    RepresentsWellKeyed(q, t);
    KeysAfterIsTail(q.db, id);
    ReplayContent(t.stored, id, t.latest);
    var items := Replay(t.stored, id, t.latest);
    var keys := seq(|items|, i requires 0 <= i < |items| => Uint64ToByte(items[i].id));
    forall i | 0 <= i < |keys|
      ensures keys[i] == Uint64ToByte(items[i].id) && keys[i] in q.db && IdOf(keys[i]) == items[i].id
    {
      KeyRoundTrip(items[i].id, keys[i]);
    }
    forall k | k in q.db && IdOf(k) > id ensures k in keys {
      assert t.stored[IdOf(k)] in items;
      var i :| 0 <= i < |items| && items[i] == t.stored[IdOf(k)];
      KeyOfId(k, items[i].id);
      assert keys[i] == k;
    }
    KeysSorted(q.db, keys);
    KeysSorted(q.db, KeysAfter(q.db, id));
    SortedUnique(keys, KeysAfter(q.db, id));
  }

  lemma KeysSorted(db: map<Key, Event>, keys: seq<Key>)
    requires WellKeyed(db) && forall k | k in keys :: k in db
    requires forall i, j | 0 <= i < j < |keys| :: IdOf(keys[i]) < IdOf(keys[j])
    ensures Sorted(keys)
  {
    forall i, j | 0 <= i < j < |keys| ensures Less(keys[i], keys[j]) {
      assert keys[i] in keys && keys[j] in keys;
      KeyOrderOf(keys[i], keys[j]);
    }
  }

  /** Closing and reopening resumes the same state, unless the newest ID is not stored. */
  lemma ReopenRepresents(q: Queue, t: Tape)
    requires Represents(q, t)
    ensures Queue(q.db, LatestId(q.db), q.capacity) == q <==> t.latest == 0 || t.latest in t.stored
  {
    hide PutUint64, FromBigEndian, FormatHex, HexValue;
    RepresentsWellKeyed(q, t);
    LatestIsMaximum(q.db);
    if t.latest in t.stored {
      var last := Uint64ToByte(t.latest);
      KeyRoundTrip(t.latest, last);
      assert last in q.db;
    }
    if q.db != map[] {
      var k := Uint64ToByte(LatestId(q.db));
      KeyRoundTrip(LatestId(q.db), k);
      assert k in q.db;
    }
  }

  // ---------- sequential runs ----------

  function Min(a: int, b: int): int { if a < b then a else b }
  function Max(a: int, b: int): int { if a < b then b else a }

  /** How many events are kept of a log of a given length; capacity 0 still keeps one, because the
      rotation does not see the event that is written with it. */
  function Kept(capacity: nat, length: nat): nat { Min(length, Max(capacity, 1)) }

  predicate IsLog(log: seq<Item>) {
    forall i | 0 <= i < |log| :: log[i].id == i + 1
  }

  /** The tape holds exactly the last events of the log, and has handed out its IDs. */
  ghost predicate Refines(t: Tape, log: seq<Item>) {
    && IsLog(log)
    && t.latest == |log|
    && (forall id :: id in t.stored <==> |log| - Kept(t.capacity, |log|) < id <= |log|)
    && (forall id | id in t.stored :: t.stored[id] == log[id - 1])
  }

  /** Allocating an ID and then storing its event appends to the log. */
  lemma StoreAppends(t: Tape, log: seq<Item>, item: Item)
    requires Refines(t, log) && item.id == NextId(t).latest
    ensures Refines(StoreItem(NextId(t), item), log + [item])
    ensures StoreItem(NextId(t), item).capacity == t.capacity
  {
  }

  /** Replay from a log: everything retained above the given ID, in order. */
  lemma {:induction false} ReplayIsLogSuffix(t: Tape, log: seq<Item>, id: nat)
    requires Refines(t, log)
    ensures Replay(t.stored, id, t.latest) == log[Min(|log|, Max(id, |log| - Kept(t.capacity, |log|)))..]
  {
    ReplayIsLogSlice(t, log, id, |log|);
    var from := Min(|log|, Max(id, |log| - Kept(t.capacity, |log|)));
    assert log[from..|log|] == log[from..];
  }

  lemma {:induction false} ReplayIsLogSlice(t: Tape, log: seq<Item>, id: nat, hi: nat)
    requires Refines(t, log) && hi <= |log|
    ensures Replay(t.stored, id, hi) == log[Min(hi, Max(id, |log| - Kept(t.capacity, |log|)))..hi]
    decreases hi
  {
    if hi > id {
      ReplayIsLogSlice(t, log, id, hi - 1);
      var from := Max(id, |log| - Kept(t.capacity, |log|));
      if from < hi {
        assert log[from..hi] == log[from..hi - 1] + [log[hi - 1]];
      }
    }
  }

  // ---------- producers that store out of order ----------

  lemma {:induction false} IdsInRange(s: set<nat>, lo: nat, hi: nat)
    requires lo <= hi && forall id | id in s :: lo < id <= hi
    ensures |s| <= hi - lo
    decreases hi
  {
    if lo == hi {
      assert forall id :: id !in s;
    } else {
      IdsInRange(s - {hi}, lo, hi - 1);
    }
  }

  /** Storing drops nothing but IDs beyond the capacity, and keeps the rest as it was. */
  lemma StoreContent(t: Tape, item: Item)
    requires Issued(t) && 1 <= item.id <= t.latest
    ensures var r := StoreItem(t, item);
            && Issued(r) && r.latest == t.latest && r.capacity == t.capacity
            && (forall id | id in r.stored && id != item.id ::
                  id in t.stored && id + t.capacity > t.latest && r.stored[id] == t.stored[id])
            && (forall id | id in t.stored && id + t.capacity > t.latest && id != item.id :: id in r.stored)
            && (item.id in r.stored <==> item.id !in t.stored || item.id + t.capacity > t.latest)
            && (item.id in r.stored ==> r.stored[item.id] == item)
  {
  }

  /** Whatever order producers store their events in, at most capacity + 1 are kept. */
  lemma StoreBound(t: Tape, item: Item)
    requires Issued(t) && 1 <= item.id <= t.latest && |t.stored| <= t.capacity + 1
    ensures |StoreItem(t, item).stored| <= t.capacity + 1
  {
    StoreContent(t, item);
    var kept := StoreItem(t, item).stored.Keys;
    if t.latest <= t.capacity {
      IdsInRange(kept, 0, t.latest);
    } else {
      IdsInRange(kept - {item.id}, t.latest - t.capacity, t.latest);
    }
    assert |kept| == |StoreItem(t, item).stored|;
  }

  // ---------- whole sequential runs of the byte-keyed queue ----------

  datatype Payload = Payload(kind: EventType, data: Members)

  function LogOf(payloads: seq<Payload>): (log: seq<Item>)
    ensures |log| == |payloads|
  {
    seq(|payloads|, i requires 0 <= i < |payloads| => Item(i + 1, payloads[i].kind, payloads[i].data))
  }

  /** A new queue after each payload was given an ID and stored. */
  function PublishAll(capacity: uint64, payloads: seq<Payload>): Queue {
    if payloads == [] then Queue(map[], 0, capacity)
    else
      var n := |payloads| - 1;
      var q := NewId(PublishAll(capacity, payloads[..n]));
      var r := Store(q, Event(FormatHex(q.latest), payloads[n].kind, payloads[n].data));
      if r.Some? then r.value else q
  }

  function TapeOf(capacity: uint64, payloads: seq<Payload>): Tape {
    if payloads == [] then Tape(map[], 0, capacity)
    else
      var n := |payloads| - 1;
      var t := NextId(TapeOf(capacity, payloads[..n]));
      StoreItem(t, Item(t.latest, payloads[n].kind, payloads[n].data))
  }

  lemma {:induction false} PublishAllRefines(capacity: uint64, payloads: seq<Payload>)
    requires |payloads| + 2 < WORD
    ensures Represents(PublishAll(capacity, payloads), TapeOf(capacity, payloads))
    ensures TapeOf(capacity, payloads).capacity == capacity && Refines(TapeOf(capacity, payloads), LogOf(payloads))
  {
    hide Represents, Refines, Store, StoreItem, FormatHex;
    if payloads == [] {
      NothingPublished(capacity);
    } else {
      var n := |payloads| - 1;
      PublishAllRefines(capacity, payloads[..n]);
      var q, t := PublishAll(capacity, payloads[..n]), TapeOf(capacity, payloads[..n]);
      assert t.latest == n && q.latest == n by { LatestOf(q, t, LogOf(payloads[..n])); }
      var item := Item(n + 1, payloads[n].kind, payloads[n].data);
      NewIdRepresents(q, t);
      StoreRepresents(NewId(q), NextId(t), item);
      StoreAppends(t, LogOf(payloads[..n]), item);
      assert LogOf(payloads) == LogOf(payloads[..n]) + [item];
    }
  }

  lemma NothingPublished(capacity: uint64)
    ensures Represents(Queue(map[], 0, capacity), Tape(map[], 0, capacity))
    ensures Refines(Tape(map[], 0, capacity), LogOf([]))
  {
  }

  lemma LatestOf(q: Queue, t: Tape, log: seq<Item>)
    requires Represents(q, t) && Refines(t, log)
    ensures q.latest == t.latest == |log| && q.capacity == t.capacity
  {
  }

  /** The keys of the last events of a log. */
  function LastKeys(capacity: nat, length: uint64): set<Key> {
    set i: nat | length - Kept(capacity, length) < i <= length :: Uint64ToByte(i)
  }

  /** The events of a log that are above an ID and not rotated out. */
  function Retained(log: seq<Item>, capacity: nat, id: nat): seq<Item> {
    log[Min(|log|, Max(id, |log| - Kept(capacity, |log|)))..]
  }

  /** The queue is the log: after any number of events, exactly the last `capacity` of them are stored
      (one, if the capacity is zero), reading after an ID returns exactly the retained events above it
      in order, and the ID counter is what reopening the database finds. */
  lemma QueueIsLog(capacity: uint64, payloads: seq<Payload>, id: uint64)
    requires |payloads| + 2 < WORD && id + 1 < WORD
    ensures var q, log := PublishAll(capacity, payloads), LogOf(payloads);
            && q.db.Keys == LastKeys(capacity, |log|)
            && AllAfter(q.db, id) == RenderAll(Retained(log, capacity, id))
            && LatestId(q.db) == q.latest == |log| && q.capacity == capacity
  {
    hide AllAfter, Replay, LatestId, PublishAll, TapeOf, PutUint64, FromBigEndian, RenderAll, Less;
    PublishAllRefines(capacity, payloads);
    var q, t, log := PublishAll(capacity, payloads), TapeOf(capacity, payloads), LogOf(payloads);
    ReplayRepresents(q, t, id);
    ReplayIsLogSuffix(t, log, id);
    ReopenRepresents(q, t);
    forall k ensures k in q.db <==> k in LastKeys(capacity, |log|) {
      if k in q.db {
        KeyRoundTrip(0, k);
        assert IdOf(k) in t.stored;
      }
    }
  }
}
