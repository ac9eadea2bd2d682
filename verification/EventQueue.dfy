/** The rotating, persistent queue of notification events. */
module EventQueue {
  import opened Json
  import opened LevelDb
  import opened Ids

  datatype EventType = Create | Update | Delete

  datatype Event = Event(id: string, kind: EventType, data: Members)

  // ---------- specification on values ----------

  /** The database, the ID counter and the configured capacity. */
  datatype Queue = Queue(db: map<Key, Event>, latest: uint64, capacity: uint64)

  function IdOf(k: Key): nat { FromBigEndian(k) }

  /** Addition of one in uint64, which wraps. */
  function Next(v: uint64): uint64 { if v + 1 == WORD then 0 else v + 1 }

  function NewId(q: Queue): Queue { q.(latest := Next(q.latest)) }

  /** What a rotation drops from the stored snapshot: the IDs before latest - capacity + 1. */
  function Expired(q: Queue): set<Key> {
    if q.latest > q.capacity then
      var before := Range(None, Some(Uint64ToByte(Next(q.latest - q.capacity))));
      set k | k in q.db && before.Contains(k)
    else {}
  }

  function Store(q: Queue, event: Event): Option<Queue> {
    var id := ParseHex(event.id);
    if id.None? then None
    else Some(q.(db := q.db[Uint64ToByte(id.value) := event] - Expired(q)))
  }

  function Values(db: map<Key, Event>, keys: seq<Key>): (events: seq<Event>)
    requires forall k | k in keys :: k in db
    ensures |events| == |keys|
    ensures forall i | 0 <= i < |keys| :: events[i] == db[keys[i]]
  {
    seq(|keys|, i requires 0 <= i < |keys| => db[keys[i]])
  }

  /** The keys visited after an ID; the start of the range is computed in uint64. */
  function KeysAfter(db: map<Key, Event>, id: uint64): seq<Key> {
    Scan(db, Range(Some(Uint64ToByte(Next(id))), None))
  }

  function AllAfter(db: map<Key, Event>, id: uint64): seq<Event> { Values(db, KeysAfter(db, id)) }

  function MissedEvents(db: map<Key, Event>, id: string): Option<seq<Event>> {
    var n := ParseHex(id);
    if n.None? then None else Some(AllAfter(db, n.value))
  }

  function LatestId(db: map<Key, Event>): nat {
    var keys := Scan(db, ALL);
    if keys == [] then 0 else IdOf(keys[|keys| - 1])
  }

  predicate WellKeyed(db: map<Key, Event>) {
    forall k | k in db :: IsKey(k) && ParseHex(db[k].id) == Some(IdOf(k))
  }

  // ---------- the class ----------

  datatype BatchOp = Put(key: Key, event: Event) | Remove(key: Key)

  function WriteOne(db: map<Key, Event>, op: BatchOp): map<Key, Event> {
    match op
    case Put(k, e) => db[k := e]
    case Remove(k) => db - {k}
  }

  function WriteBatch(db: map<Key, Event>, batch: seq<BatchOp>): map<Key, Event> {
    if batch == [] then db else WriteOne(WriteBatch(db, batch[..|batch| - 1]), batch[|batch| - 1])
  }

  lemma BatchGrows(db: map<Key, Event>, batch: seq<BatchOp>, op: BatchOp)
    ensures batch == [] ==> WriteBatch(db, batch) == db
    ensures WriteBatch(db, batch + [op]) == WriteOne(WriteBatch(db, batch), op)
  {
    assert (batch + [op])[..|batch|] == batch;
  }

  function KeySet(keys: seq<Key>): set<Key> { set k | k in keys }

  lemma KeySetGrows(keys: seq<Key>, i: nat)
    requires i < |keys|
    ensures KeySet(keys[..i + 1]) == KeySet(keys[..i]) + {keys[i]}
  {
    assert keys[..i + 1] == keys[..i] + [keys[i]];
  }

  lemma ExpiredIsScanned(q: Queue)
    ensures q.latest > q.capacity ==>
              KeySet(Scan(q.db, Range(None, Some(Uint64ToByte(Next(q.latest - q.capacity)))))) == Expired(q)
    ensures q.latest <= q.capacity ==> Expired(q) == {}
  {
    hide PutUint64, Less;
  }

  class LevelDBEventQueue {
    var db: map<Key, Event>
    var latestID: uint64
    const capacity: uint64

    ghost function View(): Queue
      reads this
    {
      Queue(db, latestID, capacity)
    }

    /** Opens a database and takes up the counter where the stored events left it. */
    constructor (db: map<Key, Event>, capacity: uint64)
      requires WellKeyed(db)
      ensures View() == Queue(db, LatestId(db), capacity)
    {
      this.db := db;
      this.capacity := capacity;
      latestID := 0;
      new;
      latestID := FetchLatestID();
    }

    method FetchLatestID() returns (latest: uint64)
      requires WellKeyed(db)
      ensures latest == LatestId(db)
    {
      var iter := Scan(db, ALL);
      latest := 0;
      if iter != [] {
        var last := iter[|iter| - 1];
        KeyRoundTrip(0, last);
        latest := ByteToUint64(last);
      }
    }

    method GetNewID() returns (id: string)
      modifies this`latestID
      ensures View() == NewId(old(View()))
      ensures id == FormatHex(latestID)
    {
      latestID := Next(latestID);
      id := FormatHex(latestID);
    }

    method AddRotate(event: Event) returns (ok: bool)
      modifies this`db
      ensures ok <==> Store(old(View()), event).Some?
      ensures ok ==> View() == Store(old(View()), event).value
      ensures !ok ==> View() == old(View())
    {
      hide ParseHex, PutUint64, Less, WriteBatch, Scan, Expired;
      var uintID := ParseHex(event.id);
      if uintID.None? { return false; }
      var batch := [Put(Uint64ToByte(uintID.value), event)];
      ghost var put := db[Uint64ToByte(uintID.value) := event];
      ExpiredIsScanned(View());
      BatchGrows(db, [], batch[0]);
      assert [] + batch == batch;
      if latestID > capacity {
        var cleanBefore := Next(latestID - capacity);
        var iter := Scan(db, Range(None, Some(Uint64ToByte(cleanBefore))));
        for i := 0 to |iter|
          invariant WriteBatch(db, batch) == put - KeySet(iter[..i])
        {
          BatchGrows(db, batch, Remove(iter[i]));
          KeySetGrows(iter, i);
          batch := batch + [Remove(iter[i])];
        }
        assert iter[..|iter|] == iter;
      }
      db := WriteBatch(db, batch);
      return true;
    }

    method GetAllAfter(id: string) returns (events: Option<seq<Event>>)
      ensures events == MissedEvents(db, id)
    {
      var intID := ParseHex(id);
      if intID.None? { return None; }
      var iter := Scan(db, Range(Some(Uint64ToByte(Next(intID.value))), None));
      var found: seq<Event> := [];
      for i := 0 to |iter|
        invariant found == Values(db, iter)[..i]
      {
        found := found + [db[iter[i]]];
      }
      assert found == Values(db, iter);
      return Some(found);
    }
  }

  // ---------- what iteration in key order means for IDs ----------

  /** Ordered by ID, and exactly the stored events above the given ID. */
  ghost predicate IsTail(db: map<Key, Event>, id: uint64, keys: seq<Key>) {
    && (forall i, j | 0 <= i < j < |keys| :: IdOf(keys[i]) < IdOf(keys[j]))
    && (forall k :: k in keys <==> k in db && IdOf(k) > id)
  }

  lemma KeyOrderOf(a: Key, b: Key)
    requires IsKey(a) && IsKey(b)
    ensures IdOf(a) < WORD && Uint64ToByte(IdOf(a)) == a
    ensures Less(a, b) <==> IdOf(a) < IdOf(b)
  {
    KeyRoundTrip(0, a);
    KeyRoundTrip(0, b);
    KeyOrder(IdOf(a), IdOf(b));
  }

  /** The keys visited after an ID are those of the stored events above it, in ID order, for every
      ID but the largest uint64. */
  lemma KeysAfterIsTail(db: map<Key, Event>, id: uint64)
    requires WellKeyed(db) && id + 1 < WORD
    ensures IsTail(db, id, KeysAfter(db, id))
  {
    var start := Uint64ToByte(id + 1);
    KeyRoundTrip(id + 1, start);
    var keys := KeysAfter(db, id);
    forall k ensures k in keys <==> k in db && IdOf(k) > id {
      if k in db { KeyOrderOf(k, start); }
    }
    forall i, j | 0 <= i < j < |keys| ensures IdOf(keys[i]) < IdOf(keys[j]) {
      assert keys[i] in keys && keys[j] in keys;
      KeyOrderOf(keys[i], keys[j]);
    }
  }

  /** At the largest uint64 the start of the range wraps to zero and every event is returned. */
  lemma AllAfterWraps(db: map<Key, Event>)
    requires WellKeyed(db)
    ensures AllAfter(db, WORD - 1) == Values(db, Scan(db, ALL))
  {
    var start := Uint64ToByte(0);
    KeyRoundTrip(0, start);
    var keys := Scan(db, Range(Some(start), None));
    forall k ensures k in keys <==> k in db {
      if k in db { KeyOrderOf(k, start); }
    }
    SortedUnique(keys, Scan(db, ALL));
  }

  /** The last key of the database carries the largest ID. */
  lemma LatestIsMaximum(db: map<Key, Event>)
    requires WellKeyed(db)
    ensures LatestId(db) < WORD
    ensures forall k | k in db :: IdOf(k) <= LatestId(db)
    ensures db != map[] ==> Uint64ToByte(LatestId(db)) in db
    ensures db == map[] ==> LatestId(db) == 0
  {
    var keys := Scan(db, ALL);
    if keys != [] {
      var last := keys[|keys| - 1];
      assert last in keys;
      KeyOrderOf(last, last);
      forall k | k in db ensures IdOf(k) <= IdOf(last) {
        var i :| 0 <= i < |keys| && keys[i] == k;
        KeyOrderOf(k, last);
        KeyOrderOf(last, k);
      }
    } else {
      assert forall k :: k in db <==> k in keys;
    }
  }

  /** Which stored IDs a rotation drops. */
  lemma ExpiredIds(q: Queue)
    requires WellKeyed(q.db) && q.latest + 1 < WORD
    requires forall k | k in q.db :: IdOf(k) >= 1
    ensures forall k | k in q.db :: k in Expired(q) <==> IdOf(k) + q.capacity <= q.latest
  {
    if q.latest > q.capacity {
      var limit := Uint64ToByte(q.latest - q.capacity + 1);
      KeyRoundTrip(q.latest - q.capacity + 1, limit);
      forall k | k in q.db ensures k in Expired(q) <==> IdOf(k) + q.capacity <= q.latest { KeyOrderOf(k, limit); }
    }
  }
}
