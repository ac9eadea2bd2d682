/**
 The HTTP API as a client sees it: for every request the answer, the new store and what listeners are told,
 in terms of the members of the JSON that is sent and stored.
 */
module Answers {
  import opened Json
  import opened Registration
  import C = Catalog
  import M = MergePatch
  import T = Http

  type Store = C.Store

  /** Why a TD would not be stored: the validation cannot be done or finds issues, a time in its registration
      cannot be read, or one cannot be written. */
  function Refusal(env: Env, sent: Members, created: Option<Time>, now: Time): Option<T.Response> {
    if env.validate(sent).Unable? then Some(T.ServerError)
    else if env.validate(sent).Issues? then Some(T.BadRequest)
    else if !TimesRead(env, Part(sent)) then Some(T.Aborted)
    else if !CanStamp(env, sent, created, now) then Some(T.ServerError)
    else None
  }

  /** Nothing happens but the answer. */
  predicate IsOnly(h: T.Handled, store: Store, response: T.Response) { h == T.Handled(response, store, []) }

  /** A TD is added under a new ID, with a registration that was made just now, and its creation is told. */
  ghost predicate Adds(env: Env, store: Store, sent: Members, id: string, now: Time, h: T.Handled) {
    var refusal := Refusal(env, sent, Some(now), now);
    if refusal.Some? then IsOnly(h, store, refusal.value)
    else if id == "" then IsOnly(h, store, T.ServerError)
    else if id in store then IsOnly(h, store, T.Conflict)
    else
      && id in h.store && IsStamped(env, sent, h.store[id], Some(now), now)
      && h == T.Handled(T.Created(id), store[id := h.store[id]], [C.Created(h.store[id])])
  }

  /** The registration of a stored TD can be read. */
  predicate IsReadable(env: Env, td: Members) {
    "registration" in td && td["registration"].Obj? && TimesRead(env, Part(td))
  }

  /** A stored TD is replaced, with a registration that keeps the time of its creation, and the update is told. */
  ghost predicate Replaces(env: Env, store: Store, id: string, sent: Members, now: Time, h: T.Handled)
    requires id in store
  {
    var before := store[id];
    var created := TimeAt(env, Part(before), "created");
    if env.validate(sent).Valid? && !IsReadable(env, before) then IsOnly(h, store, T.Aborted)
    else
      var refusal := Refusal(env, sent, created, now);
      if refusal.Some? then IsOnly(h, store, refusal.value)
      else
        && id in h.store && IsStamped(env, sent, h.store[id], created, now)
        && h == T.Handled(T.NoContent, store[id := h.store[id]], [C.Updated(before, h.store[id])])
  }

  // ---------- the operations of the catalog ----------

  lemma AddToDoes(env: Env, store: Store, td: Members, urn: string, now: Time)
    ensures var id := if C.HasId(td) then td["id"].s else urn;
            Adds(env, store, td["id" := Str(id)], id, now, T.AnswerAdd(C.AddTo(env, store, td, urn, now), store))
  {
    hide C.Register, CanStamp, TimesRead, Part, IsStamped;
    var id := if C.HasId(td) then td["id"].s else urn;
    C.RegisterDoes(env, td["id" := Str(id)], Some(now), now);
  }

  lemma ReplaceDoes(env: Env, store: Store, id: string, td: Members, now: Time)
    requires id in store
    ensures Replaces(env, store, id, td, now, T.Answer(C.Replace(env, store, id, td, now), store, T.NoContent))
  {
    hide C.Register, CanStamp, TimesRead, TimeAt, IsStamped, Read;
    ReadMembers(env, store[id]);
    var before := Read(env, store[id]);
    C.RegisterDoes(env, td, if before.Found? then before.tr.created else None, now);
    C.RegisterDoes(env, td, TimeAt(env, Part(store[id]), "created"), now);
  }

  // ---------- the requests ----------

  /** POST: the body must be an object without an ID of its own; it is stored under the URN, and but for that ID
      and the registration it is stored as it was sent. */
  lemma PostDoes(env: Env, store: Store, body: T.Body, urn: string, now: Time)
    ensures var h := T.Serve(env, store, T.Post(body, urn), now);
            if body.Malformed? then IsOnly(h, store, T.BadRequest)
            else if body.NullBody? then IsOnly(h, store, T.Aborted)
            else if "id" in body.td && body.td["id"] != Null && body.td["id"] != Str("") then
              IsOnly(h, store, T.BadRequest)
            else Adds(env, store, body.td["id" := Str(urn)], urn, now, h)
  {
    hide Adds, C.AddTo;
    if body.Object? { AddToDoes(env, store, body.td, urn, now); }
  }

  /** PUT: the body must be an object with the ID of the path; it replaces what is stored there, or is added. */
  lemma PutDoes(env: Env, store: Store, path: string, body: T.Body, now: Time)
    ensures var h := T.Serve(env, store, T.Put(path, body), now);
            if !body.Object? || path == "" || "id" !in body.td || body.td["id"] != Str(path) then
              IsOnly(h, store, T.BadRequest)
            else if path in store then Replaces(env, store, path, body.td, now, h)
            else Adds(env, store, body.td, path, now, h)
  {
    hide Adds, Replaces, C.AddTo, C.Replace;
    if body.Object? && "id" in body.td && body.td["id"] == Str(path) && path != "" {
      assert body.td["id" := Str(path)] == body.td;
      AddToDoes(env, store, body.td, "", now);
      if path in store {
        ReplaceDoes(env, store, path, body.td, now);
        C.ReplaceUpdates(env, store, path, body.td, now);
      }
    }
  }

  /** PATCH: only an empty ID in the body is refused; the body is merged into what is stored under the path, and
      the result replaces it. */
  lemma PatchDoes(env: Env, store: Store, path: string, body: T.Body, now: Time)
    ensures var h := T.Serve(env, store, T.Patch(path, body), now);
            if body.Malformed? then IsOnly(h, store, T.BadRequest)
            else if body.Object? && "id" in body.td && body.td["id"] == Str("") && path != "" then
              IsOnly(h, store, T.BadRequest)
            else if path !in store then IsOnly(h, store, T.NotFound)
            else if body.NullBody? then IsOnly(h, store, T.ServerError)
            else
              var merged := C.Patched(store[path], body.td);
              && Obj(merged) == M.Merge(true, Obj(store[path]), Obj(body.td))
              && Replaces(env, store, path, merged, now, h)
  {
    hide Replaces, C.Replace, M.Merge, C.Patched;
    if body.Object? && path in store {
      PatchedIsMerged(store[path], body.td);
      ReplaceDoes(env, store, path, C.Patched(store[path], body.td), now);
    }
  }

  lemma PatchedIsMerged(td: Members, patch: Members)
    ensures Obj(C.Patched(td, patch)) == M.Merge(true, Obj(td), Obj(patch))
    ensures C.Outside(C.Patched(td, patch)) == M.Merge(true, C.Outside(td), C.Outside(patch))
  {
    M.MergeWithout(true, td, patch, "registration");
  }

  /** DELETE: what is stored under the path is taken away, and its deletion told. */
  lemma DeleteDoes(env: Env, store: Store, path: string, now: Time)
    ensures var h := T.Serve(env, store, T.Delete(path), now);
            if path in store then h == T.Handled(T.NoContent, store - {path}, [C.Deleted(store[path])])
            else IsOnly(h, store, T.NotFound)
  {
  }

  /** A tick of the expiry sweep: exactly the TDs go whose expiry is in the past, and nobody is told. */
  lemma TickDoes(env: Env, store: Store, t: Time)
    ensures var h := T.Serve(env, store, T.Sweep, t);
            && h.told == []
            && (forall id :: id in h.store <==> id in store && !Overdue(env, store[id], t))
            && (forall id | id in h.store :: h.store[id] == store[id])
  {
    C.SweptMeans(env, store, t);
    hide C.Swept, Overdue;
  }

  // ---------- acceptance ----------

  /** When a POST is answered with "created", and what is stored then. */
  lemma PostAccepts(env: Env, store: Store, td: Members, urn: string, now: Time)
    requires "id" !in td && urn != "" && urn !in store
    ensures var h, sent := T.Serve(env, store, T.Post(T.Object(td), urn), now), td["id" := Str(urn)];
            && (h.response == T.Created(urn) <==>
                  env.validate(sent).Valid? && TimesRead(env, Part(td)) && CanStamp(env, td, Some(now), now))
            && (h.response == T.Created(urn) ==>
                  && urn in h.store && h.store - {urn} == store - {urn}
                  && h.store[urn] - {"registration"} == sent - {"registration"}
                  && h.told == [C.Created(h.store[urn])])
  {
    hide T.Serve, TimesRead, IsStamped;
    var h, sent := T.Serve(env, store, T.Post(T.Object(td), urn), now), td["id" := Str(urn)];
    PostDoes(env, store, T.Object(td), urn, now);
    assert Part(sent) == Part(td);
    StampedOutside(env, sent, if urn in h.store then h.store[urn] else map[], Some(now), now);
  }

  lemma StampedOutside(env: Env, sent: Members, stored: Members, created: Option<Time>, now: Time)
    ensures IsStamped(env, sent, stored, created, now) ==> stored - {"registration"} == sent - {"registration"}
  {
  }

  lemma StampedParts(env: Env, sent: Members, stored: Members, created: Option<Time>, now: Time)
    ensures IsStamped(env, sent, stored, created, now) ==>
              C.Outside(stored) == C.Outside(sent) && IsText(env, Part(stored), "created", created)
  {
  }

  /** When a PATCH of a good stored TD is answered with "no content", and what is stored then. */
  lemma PatchAccepts(env: Env, store: Store, born: map<string, Time>, clock: Time, path: string, patch: Members,
                     now: Time)
    requires C.GoodStore(env, store, born, clock) && path in store
    ensures var h := T.Serve(env, store, T.Patch(path, T.Object(patch)), now);
            var merged := C.Patched(store[path], patch);
            && Obj(merged) == M.Merge(true, Obj(store[path]), Obj(patch))
            && (h.response == T.NoContent <==>
                  && ("id" in patch ==> patch["id"] != Str(""))
                  && env.validate(merged).Valid? && TimesRead(env, Part(merged))
                  && CanStamp(env, merged, Some(born[path]), now))
            && (h.response == T.NoContent ==>
                  && path in h.store && h.store - {path} == store - {path}
                  && C.Outside(h.store[path]) == M.Merge(true, C.Outside(store[path]), C.Outside(patch))
                  && IsText(env, Part(h.store[path]), "created", Some(born[path]))
                  && h.told == [C.Updated(store[path], h.store[path])])
  {
    hide T.Serve, TimesRead, M.Merge, C.Patched, TimeAt, CanStamp, IsStamped, C.Outside, IsReadable;
    hide C.GoodStore;
    var h := T.Serve(env, store, T.Patch(path, T.Object(patch)), now);
    var merged := C.Patched(store[path], patch);
    PatchedIsMerged(store[path], patch);
    PatchDoes(env, store, path, T.Object(patch), now);
    GoodReads(env, store, born, clock, path);
    StampedParts(env, merged, if path in h.store then h.store[path] else map[], Some(born[path]), now);
  }

  lemma GoodReads(env: Env, store: Store, born: map<string, Time>, clock: Time, id: string)
    requires C.GoodStore(env, store, born, clock) && id in store
    ensures id != "" && id in born
    ensures IsReadable(env, store[id]) && TimeAt(env, Part(store[id]), "created") == Some(born[id])
  {
    assert C.Good(env, id, store[id], born[id], clock);
    ReadMembers(env, store[id]);
  }
}
