/** An expiry sweep while requests go on: between the snapshot it collects from and its deletions, and
    between one deletion and the next, anything may be written. */
module Sweep {
  import opened Json
  import opened LevelDb
  import opened Registration
  import C = Catalog
  import T = Http

  type Store = C.Store

  datatype Act = Served(req: T.Request, now: Time) | Removed(td: Members)

  function After(env: Env, store: Store, e: Act): Store {
    match e
    case Served(req, now) => T.Serve(env, store, req, now).store
    case Removed(td) => C.RemoveOne(store, td)
  }

  function StoreAfter(env: Env, store: Store, acts: seq<Act>): Store {
    if acts == [] then store
    else After(env, StoreAfter(env, store, acts[..|acts| - 1]), acts[|acts| - 1])
  }

  function Removals(acts: seq<Act>): seq<Members> {
    if acts == [] then []
    else Removals(acts[..|acts| - 1]) + if acts[|acts| - 1].Removed? then [acts[|acts| - 1].td] else []
  }

  /** What may happen once a sweep at time t has taken its snapshot: requests, and the deletions of what
      it collected, in the order it collected them. */
  ghost predicate IsSweep(env: Env, snapshot: Store, t: Time, acts: seq<Act>) {
    && (forall i | 0 <= i < |acts| && acts[i].Served? :: !acts[i].req.Sweep?)
    && Removals(acts) <= C.Collected(env, snapshot, Scan(snapshot, ALL), t)
  }

  function KeyOf(td: Members): string { if C.HasStringId(td) then td["id"].s else "" }

  ghost predicate DistinctKeys(tds: seq<Members>) {
    forall i, j | 0 <= i < j < |tds| :: KeyOf(tds[i]) != KeyOf(tds[j])
  }

  // ---------- what each deletion removes ----------

  lemma {:induction false} RemovalsBefore(acts: seq<Act>, n: nat)
    requires n < |acts|
    ensures Removals(acts[..n + 1]) <= Removals(acts)
    ensures acts[n].Removed? ==> Removals(acts[..n + 1]) == Removals(acts[..n]) + [acts[n].td]
  {
    assert acts[..n + 1][..n] == acts[..n];
    if n + 1 == |acts| {
      assert acts[..n + 1] == acts;
    } else {
      RemovalsBefore(acts[..|acts| - 1], n);
      assert acts[..|acts| - 1][..n + 1] == acts[..n + 1];
      assert acts[..|acts| - 1][..n] == acts[..n];
    }
  }

  lemma {:induction false} CollectedOnce(env: Env, store: Store, born: map<string, Time>, clock: Time,
                                         ids: seq<string>, t: Time)
    requires C.GoodStore(env, store, born, clock) && forall i, j | 0 <= i < j < |ids| :: ids[i] != ids[j]
    ensures DistinctKeys(C.Collected(env, store, ids, t))
  {
    hide C.GoodStore, Overdue, KeyOf;
    if ids != [] {
      var n := |ids| - 1;
      CollectedOnce(env, store, born, clock, ids[..n], t);
      var before, tds := C.Collected(env, store, ids[..n], t), C.Collected(env, store, ids, t);
      forall i, j | 0 <= i < j < |tds| ensures KeyOf(tds[i]) != KeyOf(tds[j]) {
        assert tds[i] == before[i] && before[i] in before;
        CollectedKey(env, store, born, clock, ids[..n], t, before[i]);
        if j == |before| { StoredKey(env, store, born, clock, ids[n]); }
      }
    }
  }

  lemma CollectedKey(env: Env, store: Store, born: map<string, Time>, clock: Time, ids: seq<string>, t: Time,
                     td: Members)
    requires C.GoodStore(env, store, born, clock) && td in C.Collected(env, store, ids, t)
    ensures KeyOf(td) in ids
  {
    C.CollectedIsGood(env, store, born, clock, ids, t);
  }

  lemma StoredKey(env: Env, store: Store, born: map<string, Time>, clock: Time, id: string)
    requires C.GoodStore(env, store, born, clock)
    ensures id in store ==> KeyOf(store[id]) == id
  {
    if id in store { C.GoodTd(env, store, born, clock, id); }
  }

  lemma DistinctScan(store: Store)
    ensures var ids := Scan(store, ALL);
            forall i, j | 0 <= i < j < |ids| :: ids[i] != ids[j]
  {
    var ids := Scan(store, ALL);
    forall i, j | 0 <= i < j < |ids| ensures ids[i] != ids[j] {
      assert Less(ids[i], ids[j]);
      LessTotal(ids[i], ids[i]);
    }
  }

  /** A deletion of a sweep takes away one key, which had expired in the snapshot and which the sweep has
      not deleted before, and leaves everything else as it found it. */
  lemma RemovesOnlyExpired(env: Env, snapshot: Store, born: map<string, Time>, clock: Time, t: Time,
                           acts: seq<Act>, n: nat)
    requires C.GoodStore(env, snapshot, born, clock) && IsSweep(env, snapshot, t, acts)
    requires n < |acts| && acts[n].Removed?
    ensures var td := acts[n].td;
            && C.HasStringId(td)
            && var id := td["id"].s;
               && id in snapshot && snapshot[id] == td && Overdue(env, td, t)
               && StoreAfter(env, snapshot, acts[..n + 1]) == StoreAfter(env, snapshot, acts[..n]) - {id}
               && (forall m | 0 <= m < n && acts[m].Removed? :: KeyOf(acts[m].td) != id)
  {
    hide C.GoodStore, Overdue, C.IsExpired, C.Collected, T.Serve, Scan, Less, Sorted;
    var list := C.Collected(env, snapshot, Scan(snapshot, ALL), t);
    RemovalsBefore(acts, n);
    DistinctScan(snapshot);
    CollectedOnce(env, snapshot, born, clock, Scan(snapshot, ALL), t);
    C.CollectedIsGood(env, snapshot, born, clock, Scan(snapshot, ALL), t);
    var k := |Removals(acts[..n])|;
    assert list[k] == acts[n].td && list[k] in list;
    C.ExpiredMeans(env, acts[n].td, t);
    assert acts[..n + 1][..n] == acts[..n];
    forall m | 0 <= m < n && acts[m].Removed?
      ensures KeyOf(acts[m].td) != KeyOf(acts[n].td)
    {
      RemovedEarlier(acts, m, n);
      var j := |Removals(acts[..m])|;
      assert j < k && list[j] == acts[m].td;
      assert KeyOf(list[j]) != KeyOf(list[k]);
    }
  }

  /** Once all deletions are made, every TD that was overdue in the snapshot has had its own. */
  lemma RemovesAllExpired(env: Env, snapshot: Store, t: Time, acts: seq<Act>, id: string)
    requires IsSweep(env, snapshot, t, acts) && Removals(acts) == C.Collected(env, snapshot, Scan(snapshot, ALL), t)
    requires id in snapshot && Overdue(env, snapshot[id], t)
    ensures exists n :: 0 <= n < |acts| && acts[n] == Removed(snapshot[id])
  {
    hide Overdue, C.Collected, Scan, IsSweep, Removals;
    C.ScansAll(snapshot);
    C.CollectedMeans(env, snapshot, Scan(snapshot, ALL), t);
    RemovalIsAct(acts, snapshot[id]);
  }

  lemma {:induction false} RemovalIsAct(acts: seq<Act>, td: Members)
    requires td in Removals(acts)
    ensures exists n :: 0 <= n < |acts| && acts[n] == Removed(td)
  {
    var k := |acts| - 1;
    if acts[k] != Removed(td) {
      RemovalIsAct(acts[..k], td);
      var n :| 0 <= n < k && acts[..k][n] == Removed(td);
      assert acts[n] == Removed(td);
    }
  }

  lemma {:induction false} RemovedEarlier(acts: seq<Act>, m: nat, n: nat)
    requires m < n <= |acts| && acts[m].Removed?
    ensures |Removals(acts[..m])| < |Removals(acts[..n])| && Removals(acts[..n])[|Removals(acts[..m])|] == acts[m].td
  {
    assert acts[..n][..n - 1] == acts[..n - 1];
    if m + 1 < n {
      RemovedEarlier(acts, m, n - 1);
    }
  }

  // ---------- when a deletion removes what has not expired ----------

  /** A request that was accepted on a key. */
  predicate Touches(env: Env, store: Store, e: Act, id: string) {
    e.Served? && T.Target(e.req) == id && T.Serve(env, store, e.req, e.now).told != []
  }

  /** The expiry that an accepted request leaves, from what it sends: a TTL from now, or as given. */
  function NewExpiry(env: Env, store: Store, req: T.Request, now: Time): Option<Time> {
    match req
    case Post(body, _) => if body.Object? then ExpiryFrom(env, Part(body.td), now) else None
    case Put(_, body) => if body.Object? then ExpiryFrom(env, Part(body.td), now) else None
    case Patch(path, body) =>
      if body.Object? && path in store then ExpiryFrom(env, Part(C.Patched(store[path], body.td)), now) else None
    case _ => None
  }

  lemma AcceptedExpiry(env: Env, store: Store, req: T.Request, now: Time)
    requires Lawful(env) && !req.Sweep? && T.Serve(env, store, req, now).told != []
    ensures var h := T.Serve(env, store, req, now);
            && (T.Target(req) in h.store <==> !req.Delete?)
            && (!req.Delete? ==>
                  var reg := Part(h.store[T.Target(req)]);
                  TimesRead(env, reg) && TimeAt(env, reg, "expires") == NewExpiry(env, store, req, now))
  {
    hide Lawful, C.Patched, C.Register, ExpiryFrom, TimesRead, TimeAt, Part;
    match req
    case Post(body, urn) => AddedExpiry(env, store, body.td, urn, now);
    case Put(path, body) =>
      AddedExpiry(env, store, body.td, "", now);
      if path in store { ReplacedExpiry(env, store, path, body.td, now); }
    case Patch(path, body) => ReplacedExpiry(env, store, path, C.Patched(store[path], body.td), now);
    case Delete(_) =>
  }

  lemma AddedExpiry(env: Env, store: Store, td: Members, urn: string, now: Time)
    requires Lawful(env)
    ensures var o := C.AddTo(env, store, td, urn, now);
            o.Done? ==>
              && o.id in o.store && o.id == (if C.HasId(td) then td["id"].s else urn)
              && var reg := Part(o.store[o.id]);
                 TimesRead(env, reg) && TimeAt(env, reg, "expires") == ExpiryFrom(env, Part(td), now)
  {
    var id := if C.HasId(td) then td["id"].s else urn;
    RegisteredExpiry(env, td["id" := Str(id)], Some(now), now);
    assert Part(td["id" := Str(id)]) == Part(td);
    hide C.Register, ExpiryFrom, TimesRead, TimeAt, Part;
  }

  lemma ReplacedExpiry(env: Env, store: Store, id: string, td: Members, now: Time)
    requires Lawful(env) && id in store
    ensures var o := C.Replace(env, store, id, td, now);
            o.Done? ==>
              && id in o.store
              && var reg := Part(o.store[id]);
                 TimesRead(env, reg) && TimeAt(env, reg, "expires") == ExpiryFrom(env, Part(td), now)
  {
    hide C.Register, ExpiryFrom, TimesRead, TimeAt, Part;
    var before := Read(env, store[id]);
    RegisteredExpiry(env, td, if before.Found? then before.tr.created else None, now);
    hide Read;
  }

  lemma RegisteredExpiry(env: Env, td: Members, created: Option<Time>, now: Time)
    requires Lawful(env)
    ensures var r := C.Register(env, td, created, now);
            r.Accepted? ==>
              var reg := Part(r.td);
              TimesRead(env, reg) && TimeAt(env, reg, "expires") == ExpiryFrom(env, Part(td), now)
  {
    hide C.Register, ExpiryFrom, TimesRead, TimeAt, Part, IsStamped, CanStamp;
    C.RegisterDoes(env, td, created, now);
    var r := C.Register(env, td, created, now);
    if r.Accepted? { StampReads(env, td, r.td, created, now); }
  }

  /** An act that neither deletes a key nor is a request accepted on it leaves it alone. */
  lemma ActSpares(env: Env, store: Store, e: Act, id: string)
    requires (e.Served? ==> !e.req.Sweep?) && !Touches(env, store, e, id)
    requires e.Removed? ==> KeyOf(e.td) != id
    ensures id in After(env, store, e) <==> id in store
    ensures id in store ==> After(env, store, e)[id] == store[id]
  {
    hide T.Serve;
    if e.Served? {
      T.AllOrNothing(env, store, e.req, e.now);
      var after := T.Serve(env, store, e.req, e.now).store;
      if T.Target(e.req) != id {
        assert id in store <==> id in store - {T.Target(e.req)};
        assert id in after <==> id in after - {T.Target(e.req)};
        assert id in store ==> store[id] == (store - {T.Target(e.req)})[id];
        assert id in after ==> after[id] == (after - {T.Target(e.req)})[id];
      }
    }
  }

  lemma {:induction false} Spared(env: Env, snapshot: Store, acts: seq<Act>, i: nat, n: nat, id: string)
    requires i <= n <= |acts|
    requires forall m | i <= m < n :: (acts[m].Served? ==> !acts[m].req.Sweep?)
    requires forall m | i <= m < n :: !Touches(env, StoreAfter(env, snapshot, acts[..m]), acts[m], id)
    requires forall m | i <= m < n && acts[m].Removed? :: KeyOf(acts[m].td) != id
    ensures var a, b := StoreAfter(env, snapshot, acts[..i]), StoreAfter(env, snapshot, acts[..n]);
            (id in a <==> id in b) && (id in a ==> a[id] == b[id])
  {
    hide After, Touches;
    if n > i {
      Spared(env, snapshot, acts, i, n - 1, id);
      assert acts[..n][..n - 1] == acts[..n - 1];
      ActSpares(env, StoreAfter(env, snapshot, acts[..n - 1]), acts[n - 1], id);
    }
  }

  /** The last request accepted on a key before a deletion left it without an expiry that is past. */
  ghost predicate Renewed(env: Env, snapshot: Store, t: Time, acts: seq<Act>, j: nat, n: nat, id: string)
    requires j < n <= |acts|
  {
    var store := StoreAfter(env, snapshot, acts[..j]);
    && Touches(env, store, acts[j], id)
    && !acts[j].req.Delete?
    && (var expiry := NewExpiry(env, store, acts[j].req, acts[j].now);
        expiry.Some? ==> t.nanos <= expiry.value.nanos)
    && forall m | j < m < n :: !Touches(env, StoreAfter(env, snapshot, acts[..m]), acts[m], id)
  }

  /** A deletion removes a TD that has not expired if and only if the last request accepted on its key
      after the snapshot renewed it. */
  lemma RemovesRenewed(env: Env, snapshot: Store, born: map<string, Time>, clock: Time, t: Time, acts: seq<Act>, n: nat)
    requires Lawful(env) && C.GoodStore(env, snapshot, born, clock) && IsSweep(env, snapshot, t, acts)
    requires n < |acts| && acts[n].Removed? && C.HasStringId(acts[n].td)
    ensures var id, before := acts[n].td["id"].s, StoreAfter(env, snapshot, acts[..n]);
            id in before && !Overdue(env, before[id], t)
            <==> exists j :: 0 <= j < n && Renewed(env, snapshot, t, acts, j, n, id)
  {
    hide C.GoodStore, Lawful, C.Collected, T.Serve, Touches, Overdue, StoreAfter;
    RemovesOnlyExpired(env, snapshot, born, clock, t, acts, n);
    var id := acts[n].td["id"].s;
    if exists m :: 0 <= m < n && Touches(env, StoreAfter(env, snapshot, acts[..m]), acts[m], id) {
      var j := LastTouch(env, snapshot, acts, n, id);
      TouchDecides(env, snapshot, t, acts, j, n, id);
      forall i | 0 <= i < n && Renewed(env, snapshot, t, acts, i, n, id) ensures i == j {
        assert Touches(env, StoreAfter(env, snapshot, acts[..i]), acts[i], id);
      }
    } else {
      Spared(env, snapshot, acts, 0, n, id);
      NoActs(env, snapshot, acts);
    }
  }

  lemma NoActs(env: Env, snapshot: Store, acts: seq<Act>)
    ensures StoreAfter(env, snapshot, acts[..0]) == snapshot
  {
  }

  lemma {:induction false} LastTouch(env: Env, snapshot: Store, acts: seq<Act>, n: nat, id: string) returns (j: nat)
    requires n <= |acts|
    requires exists m :: 0 <= m < n && Touches(env, StoreAfter(env, snapshot, acts[..m]), acts[m], id)
    ensures j < n && Touches(env, StoreAfter(env, snapshot, acts[..j]), acts[j], id)
    ensures forall m | j < m < n :: !Touches(env, StoreAfter(env, snapshot, acts[..m]), acts[m], id)
  {
    hide Touches, StoreAfter;
    if Touches(env, StoreAfter(env, snapshot, acts[..n - 1]), acts[n - 1], id) {
      j := n - 1;
    } else {
      j := LastTouch(env, snapshot, acts, n - 1, id);
    }
  }

  lemma TouchDecides(env: Env, snapshot: Store, t: Time, acts: seq<Act>, j: nat, n: nat, id: string)
    requires Lawful(env) && j < n <= |acts|
    requires forall m | 0 <= m < n && acts[m].Served? :: !acts[m].req.Sweep?
    requires forall m | 0 <= m < n && acts[m].Removed? :: KeyOf(acts[m].td) != id
    requires Touches(env, StoreAfter(env, snapshot, acts[..j]), acts[j], id)
    requires forall m | j < m < n :: !Touches(env, StoreAfter(env, snapshot, acts[..m]), acts[m], id)
    ensures var before := StoreAfter(env, snapshot, acts[..n]);
            id in before && !Overdue(env, before[id], t) <==> Renewed(env, snapshot, t, acts, j, n, id)
  {
    hide Lawful, T.Serve, NewExpiry, Overdue, TimesRead, TimeAt, Part;
    var store := StoreAfter(env, snapshot, acts[..j]);
    AcceptedExpiry(env, store, acts[j].req, acts[j].now);
    assert acts[..j + 1][..j] == acts[..j];
    Spared(env, snapshot, acts, j + 1, n, id);
    var after := T.Serve(env, store, acts[j].req, acts[j].now).store;
    if id in after { OverdueAt(env, after[id], t); }
  }

  /** And it happens: a TD that has expired when the sweep takes its snapshot is put again without a time to
      live before the sweep gets to delete it. It is live then, and gone afterwards. */
  lemma RenewedIsRemoved(env: Env, td: Members, born: Time, clock: Time, t: Time, now: Time) returns (acts: seq<Act>)
    requires Lawful(env) && C.GoodStore(env, map["a" := td], map["a" := born], clock) && Overdue(env, td, t)
    requires env.validate(map["id" := Str("a")]).Valid? && env.format(born).Some? && env.format(now).Some?
    ensures IsSweep(env, map["a" := td], t, acts) && |acts| == 2 && acts[1] == Removed(td)
    ensures var before := StoreAfter(env, map["a" := td], acts[..1]);
            "a" in before && !Overdue(env, before["a"], t)
    ensures "a" !in StoreAfter(env, map["a" := td], acts)
  {
    hide C.GoodStore, Overdue, C.Collected, T.Serve, Lawful, ExpiryFrom, TimesRead, TimeAt, Part;
    var snapshot, body: Members := map["a" := td], map["id" := Str("a")];
    var put := T.Put("a", T.Object(body));
    acts := [Served(put, now), Removed(td)];
    assert acts[..1] == [Served(put, now)] && acts[..1][..0] == [];
    PutIsAccepted(env, td, born, clock, body, now);
    AcceptedExpiry(env, snapshot, put, now);
    NothingIn(env, body, now);
    OverdueAt(env, T.Serve(env, snapshot, put, now).store["a"], t);
    OneCollected(env, td, born, clock, t);
    assert Removals(acts[..1]) == [] && Removals(acts) == [td];
    C.GoodTd(env, snapshot, map["a" := born], clock, "a");
  }

  lemma PutIsAccepted(env: Env, td: Members, born: Time, clock: Time, body: Members, now: Time)
    requires C.GoodStore(env, map["a" := td], map["a" := born], clock) && body == map["id" := Str("a")]
    requires env.validate(body).Valid? && env.format(born).Some? && env.format(now).Some?
    ensures T.Serve(env, map["a" := td], T.Put("a", T.Object(body)), now).told != []
  {
    var snapshot := map["a" := td];
    assert C.Good(env, "a", snapshot["a"], map["a" := born]["a"], clock);
  }

  lemma NothingIn(env: Env, body: Members, now: Time)
    requires "registration" !in body
    ensures ExpiryFrom(env, Part(body), now) == None
  {
  }

  lemma OneCollected(env: Env, td: Members, born: Time, clock: Time, t: Time)
    requires Overdue(env, td, t)
    ensures C.Collected(env, map["a" := td], Scan(map["a" := td], ALL), t) == [td]
  {
    hide Overdue, C.IsExpired;
    C.ExpiredMeans(env, td, t);
    var store := map["a" := td];
    var ids := Scan(store, ALL);
    C.ScansAll(store);
    DistinctScan(store);
    assert "a" in ids;
    forall i | 0 <= i < |ids| ensures ids[i] == "a" { assert ids[i] in ids; }
    assert ids[0] == ids[|ids| - 1];
    assert ids == ["a"];
    assert ids[..0] == [];
  }
}
