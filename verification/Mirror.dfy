/**
 A client that rebuilds the directory from its event stream: "create" puts, "update" merges (RFC
 7396), "delete" removes.
 */
module Mirror {
  import opened Json
  import opened EventQueue
  import opened EventLog
  import opened Registration
  import opened MergePatch
  import C = Catalog
  import N = Notification
  import T = Http

  type Store = C.Store

  // ---------- the client ----------

  function ApplyEvent(mirror: Store, kind: EventType, data: Members): Store {
    if "id" !in data || !data["id"].Str? then mirror
    else
      var id := data["id"].s;
      match kind
      case Create => mirror[id := data]
      case Update => mirror[id := Rfc7396(if id in mirror then Obj(mirror[id]) else Null, Obj(data)).m]
      case Delete => mirror - {id}
  }

  function ApplyAll(mirror: Store, items: seq<Item>): Store {
    if items == [] then mirror
    else
      var last := items[|items| - 1];
      ApplyEvent(ApplyAll(mirror, items[..|items| - 1]), last.kind, last.data)
  }

  // ---------- the server's side ----------

  function KindOf(e: C.Emission): EventType {
    match e
    case Created(_) => Create
    case Updated(_, _) => Update
    case Deleted(_) => Delete
  }

  function DataOf(e: C.Emission): Members {
    match e
    case Created(td) => td
    case Updated(before, after) => N.UpdateData(before, after)
    case Deleted(before) => N.DeleteData(before)
  }

  function Told(mirror: Store, told: seq<C.Emission>): Store {
    if told == [] then mirror else ApplyEvent(mirror, KindOf(told[0]), DataOf(told[0]))
  }

  /** When the event of an accepted request carries all it does: what a PUT or a PATCH writes over a
      stored TD keeps its ID and survives being merged into it, the registration aside, and a sweep finds
      nothing to remove. */
  predicate Carries(env: Env, store: Store, req: T.Request, now: Time) {
    match req
    case Put(path, body) =>
      body.Object? && path in store ==> Survives(false, C.Outside(store[path]), C.Outside(body.td))
    case Patch(path, body) =>
      body.Object? && path in store ==>
        && ("id" in body.td ==> body.td["id"] == Str(path))
        && Survives(false, C.Outside(store[path]), C.Outside(C.Patched(store[path], body.td)))
    case Sweep => forall id | id in store :: !C.IsExpired(env, store[id], now)
    case _ => true
  }

  /** A mirror follows a request exactly when it fails or its event carries it: the exceptions are sweeps
      that remove something, updates that change the ID, and updates that put nulls where they do not
      survive a merge. */
  lemma MirrorFollows(env: Env, store: Store, born: map<string, Time>, clock: Time, req: T.Request, now: Time)
    requires C.GoodStore(env, store, born, clock)
    ensures var h := T.Serve(env, store, req, now);
            |h.told| <= 1 && (Told(store, h.told) == h.store <==> T.Failed(h.response) || Carries(env, store, req, now))
  {
    hide C.GoodStore, C.Register, C.Replace, C.AddTo, C.Swept, C.Patched, C.Outside, Survives, N.UpdateData;
    match req
    case Post(body, urn) => if body.Object? { AddFollows(env, store, body.td, urn, now); }
    case Put(path, body) =>
      if body.Object? && C.HasId(body.td) {
        AddFollows(env, store, body.td, "", now);
        if path in store {
          ReplaceFollows(env, store, born, clock, path, body.td, now);
          C.ReplaceUpdates(env, store, path, body.td, now);
        }
      }
    case Patch(path, body) =>
      if body.Object? && path in store {
        C.GoodTd(env, store, born, clock, path);
        C.PatchKeepsId(store[path], body.td, path);
        ReplaceFollows(env, store, born, clock, path, C.Patched(store[path], body.td), now);
      }
    case Delete(path) =>
      if path in store { C.GoodTd(env, store, born, clock, path); }
    case Sweep => SweepFollows(env, store, now);
  }

  /** A PUT with a null member is accepted, stored, and missed by every mirror. */
  lemma NullIsMissed(env: Env, store: Store, born: map<string, Time>, clock: Time, now: Time)
    requires C.GoodStore(env, store, born, clock) && "a" in store && "x" !in store["a"]
    requires T.Serve(env, store, T.Put("a", T.Object(map["id" := Str("a"), "x" := Null])), now).told != []
    ensures var h := T.Serve(env, store, T.Put("a", T.Object(map["id" := Str("a"), "x" := Null])), now);
            "a" in h.store && "x" in h.store["a"] && h.store["a"]["x"] == Null && Told(store, h.told) != h.store
  {
    hide C.GoodStore, Told, T.Serve;
    var td: Members := map["id" := Str("a"), "x" := Null];
    var req := T.Put("a", T.Object(td));
    MirrorFollows(env, store, born, clock, req, now);
    T.AllOrNothing(env, store, req, now);
    assert "x" in td - {"registration"} && (td - {"registration"})["x"] == Null;
    assert !SurvivesAt(false, C.Outside(store["a"]), C.Outside(td), "x");
    StoredAsSent(env, store, td, now);
  }

  lemma StoredAsSent(env: Env, store: Store, td: Members, now: Time)
    requires "a" in store && "id" in td && td["id"] == Str("a")
    requires T.Serve(env, store, T.Put("a", T.Object(td)), now).told != []
    ensures var after := T.Serve(env, store, T.Put("a", T.Object(td)), now).store;
            "a" in after && after["a"] - {"registration"} == td - {"registration"}
    ensures forall k | k in td && k != "registration" ::
              var after := T.Serve(env, store, T.Put("a", T.Object(td)), now).store;
              k in after["a"] && after["a"][k] == td[k]
  {
    hide Read, Write, Writable, ComputeExpiry;
    C.ReplaceUpdates(env, store, "a", td, now);
    var after := T.Serve(env, store, T.Put("a", T.Object(td)), now).store;
    assert after["a"] - {"registration"} == td - {"registration"};
  }

  lemma AddFollows(env: Env, store: Store, td: Members, urn: string, now: Time)
    ensures var o := C.AddTo(env, store, td, urn, now);
            o.Done? ==> o.emission.Created? && Told(store, [o.emission]) == o.store
  {
  }

  lemma SurvivesWithout(a: Members, b: Members, key: string)
    requires key in b ==> SurvivesAt(false, Obj(a), Obj(b), key)
    ensures Survives(false, Obj(a), Obj(b)) <==> Survives(false, Obj(a - {key}), Obj(b - {key}))
  {
    forall k | k in b && k != key
      ensures SurvivesAt(false, Obj(a), Obj(b), k) <==> SurvivesAt(false, Obj(a - {key}), Obj(b - {key}), k)
    {
    }
    assert forall k | k in b && k != key :: k in b - {key};
  }

  /** The server's registration always survives, so only the rest of a TD matters. */
  lemma RegistrationSurvives(env: Env, before: Members, td: Members, created: Option<Time>, now: Time)
    ensures var r := C.Register(env, td, created, now);
            r.Accepted? ==>
              && (Survives(false, Obj(before), Obj(r.td)) <==> Survives(false, C.Outside(before), C.Outside(td)))
              && ("id" in r.td <==> "id" in td) && ("id" in td ==> r.td["id"] == td["id"])
  {
    var r := C.Register(env, td, created, now);
    if r.Accepted? {
      var reading := Read(env, td);
      var tr := if reading.Found? then Some(reading.tr) else None;
      var reg := Registration(created, Some(now), ComputeExpiry(env, tr, now), Ttl(tr));
      hide Write, Read;
      assert r.td == td["registration" := Obj(Write(env, reg))];
      WrittenIsClean(env, reg);
      if "registration" in before && before["registration"].Obj? {
        CleanSurvives(false, before["registration"], r.td["registration"]);
      }
      hide Survives, Clean;
      SurvivesWithout(before, r.td, "registration");
      assert r.td - {"registration"} == td - {"registration"};
    }
  }

  lemma ReplaceFollows(env: Env, store: Store, born: map<string, Time>, clock: Time, id: string, td: Members, now: Time)
    requires C.GoodStore(env, store, born, clock) && id in store
    ensures var o := C.Replace(env, store, id, td, now);
            o.Done? ==>
              && o.emission.Updated?
              && (Told(store, [o.emission]) == o.store
                  <==> "id" in td && td["id"] == Str(id) && Survives(false, C.Outside(store[id]), C.Outside(td)))
  {
    C.GoodTd(env, store, born, clock, id);
    hide Rfc7396, Diff, Survives, C.GoodStore, C.Register, C.Outside;
    var o, read := C.Replace(env, store, id, td, now), Read(env, store[id]);
    RegistrationSurvives(env, store[id], td, if read.Found? then read.tr.created else None, now);
    hide Read;
    if o.Done? {
      var before, after := store[id], o.emission.after;
      N.UpdateRebuilds(false, before, after);
      MergeIsRfc7396(Obj(before), Obj(N.UpdateData(before, after)));
      var told := Told(store, [o.emission]);
      assert told == store[id := Rfc7396(Obj(before), Obj(N.UpdateData(before, after))).m];
      assert o.store == store[id := after];
      assert told[id] == after <==> told == o.store;
    }
  }

  /** A sweep tells nobody: mirrors miss every TD it removes. */
  lemma SweepFollows(env: Env, store: Store, now: Time)
    ensures var h := T.Serve(env, store, T.Sweep, now);
            h.told == [] && (h.store == store <==> forall id | id in store :: !C.IsExpired(env, store[id], now))
  {
    var swept := C.Swept(env, store, now);
    if id :| id in store && C.IsExpired(env, store[id], now) {
      assert id !in swept;
    } else {
      assert swept == store;
    }
  }

  // ---------- null-free requests ----------

  ghost predicate AllClean(store: Store) {
    forall id | id in store :: Clean(false, Obj(store[id]))
  }

  /** A client that puts no null members into what it registers; patches may contain them. */
  predicate NullFree(req: T.Request) {
    match req
    case Post(body, _) => body.Object? ==> Clean(false, Obj(body.td - {"id", "registration"}))
    case Put(_, body) => body.Object? ==> Clean(false, Obj(body.td - {"registration"}))
    case _ => true
  }

  lemma {:induction false} PruneCleans(deep: bool, v: Json)
    requires v != Null
    ensures Prune(deep, v) != Null && Clean(false, Prune(deep, v))
    decreases v
  {
    if v.Obj? {
      forall k | k in v.m && v.m[k] != Null ensures Prune(deep, v.m[k]) != Null && Clean(false, Prune(deep, v.m[k])) {
        PruneCleans(deep, v.m[k]);
      }
    }
  }

  /** Merging never puts a null member into an object that had none. */
  lemma {:induction false} MergeKeepsClean(deep: bool, target: Json, patch: Json)
    requires Clean(false, target) && patch != Null
    ensures Merge(deep, target, patch) != Null && Clean(false, Merge(deep, target, patch))
    decreases patch
  {
    PruneCleans(deep, patch);
    if target.Obj? && patch.Obj? {
      forall k | k in patch.m && patch.m[k] != Null
        ensures Prune(deep, patch.m[k]) != Null && Clean(false, Prune(deep, patch.m[k]))
        ensures k in target.m ==>
                  Merge(deep, target.m[k], patch.m[k]) != Null && Clean(false, Merge(deep, target.m[k], patch.m[k]))
      {
        PruneCleans(deep, patch.m[k]);
        if k in target.m { MergeKeepsClean(deep, target.m[k], patch.m[k]); }
      }
    }
  }

  lemma WrittenIsClean(env: Env, tr: Registration)
    ensures Clean(false, Obj(Write(env, tr)))
  {
    var reg := Write(env, tr);
    assert forall k | k in reg :: reg[k].Str? || reg[k].Num?;
  }

  lemma CleanWith(td: Members, key: string, value: Json)
    requires Clean(false, Obj(td - {key})) && value != Null && Clean(false, value)
    ensures Clean(false, Obj(td[key := value]))
  {
    forall k | k in td && k != key ensures td[k] != Null && Clean(false, td[k]) {
      assert td[k] == (td - {key})[k];
    }
  }

  lemma RegisteredIsClean(env: Env, td: Members, created: Option<Time>, now: Time)
    requires Clean(false, Obj(td - {"registration"})) && C.Register(env, td, created, now).Accepted?
    ensures Clean(false, Obj(C.Register(env, td, created, now).td))
  {
    hide Clean, Write, Read;
    var reading := Read(env, td);
    var tr := if reading.Found? then Some(reading.tr) else None;
    var reg := Registration(created, Some(now), ComputeExpiry(env, tr, now), Ttl(tr));
    WrittenIsClean(env, reg);
    CleanWith(td, "registration", Obj(Write(env, reg)));
  }

  lemma AddIsClean(env: Env, store: Store, td: Members, urn: string, now: Time)
    requires AllClean(store) && Clean(false, Obj(td - {"id", "registration"}))
    ensures var o := C.AddTo(env, store, td, urn, now);
            o.Done? ==> AllClean(o.store)
  {
    var o := C.AddTo(env, store, td, urn, now);
    if o.Done? {
      var named := td["id" := Str(o.id)];
      var m := named - {"registration"};
      forall k | k in m ensures m[k] != Null && Clean(false, m[k]) {
        if k != "id" { assert m[k] == (td - {"id", "registration"})[k]; }
      }
      RegisteredIsClean(env, named, Some(now), now);
    }
  }

  lemma ReplaceIsClean(env: Env, store: Store, id: string, td: Members, now: Time)
    requires id in store && AllClean(store) && Clean(false, Obj(td - {"registration"}))
    ensures var o := C.Replace(env, store, id, td, now);
            o.Done? ==> AllClean(o.store)
  {
    hide Clean, C.Register;
    var o, read := C.Replace(env, store, id, td, now), Read(env, store[id]);
    hide Read;
    if o.Done? {
      RegisteredIsClean(env, td, if read.Found? then read.tr.created else None, now);
    }
  }

  lemma WithoutStaysClean(td: Members, more: set<string>, keys: set<string>)
    requires Clean(false, Obj(td - keys)) && keys <= more
    ensures Clean(false, Obj(td - more))
  {
    forall k | k in td - more ensures td[k] != Null && Clean(false, td[k]) {
      assert (td - keys)[k] == td[k];
    }
  }

  lemma PatchedIsClean(td: Members, patch: Members)
    requires Clean(false, Obj(td))
    ensures Clean(false, Obj(C.Patched(td, patch) - {"registration"}))
  {
    MergeKeepsClean(true, Obj(td), Obj(patch));
    var merged := C.Patched(td, patch);
    assert merged - {} == merged;
    WithoutStaysClean(merged, {"registration"}, {});
  }

  /** On null-free requests that keep the ID a mirror follows every step but a sweep that removes
      something, and the store stays null-free. */
  lemma NullFreeCarries(env: Env, store: Store, born: map<string, Time>, clock: Time, req: T.Request, now: Time)
    requires C.GoodStore(env, store, born, clock) && T.KeepsId(req) && NullFree(req) && AllClean(store)
    requires req.Sweep? ==> forall id | id in store :: !C.IsExpired(env, store[id], now)
    ensures Carries(env, store, req, now)
    ensures AllClean(T.Serve(env, store, req, now).store)
  {
    hide C.GoodStore, C.Replace, C.AddTo, Survives, Clean, C.Patched, Lawful;
    match req
    case Post(body, urn) =>
      if body.Object? {
        AddIsClean(env, store, body.td, urn, now);
      }
    case Put(path, body) =>
      if body.Object? {
        WithoutStaysClean(body.td, {"id", "registration"}, {"registration"});
        AddIsClean(env, store, body.td, "", now);
        if path in store {
          ReplaceIsClean(env, store, path, body.td, now);
          CleanSurvives(false, C.Outside(store[path]), C.Outside(body.td));
        }
      }
    case Patch(path, body) =>
      if body.Object? && path in store {
        PatchedIsClean(store[path], body.td);
        ReplaceIsClean(env, store, path, C.Patched(store[path], body.td), now);
        CleanSurvives(false, C.Outside(store[path]), C.Outside(C.Patched(store[path], body.td)));
      }
    case Delete(_) =>
    case Sweep =>
  }
}
