/** The HTTP handlers over the catalog controller, and the state machine they make. */
module Http {
  import opened Json
  import opened JsonText
  import opened Registration
  import C = Catalog
  import S = Storage

  type Store = C.Store

  /** A request body, decoded as a JSON object: it may be unusable, null, or an object. */
  datatype Body = Malformed | NullBody | Object(td: Members)

  datatype Response = Created(id: string) | NoContent | BadRequest | NotFound | Conflict | ServerError | Aborted

  /** A request, with the URN the server would generate; or one tick of the expiry sweep. */
  datatype Request =
    | Post(body: Body, urn: string)
    | Put(path: string, body: Body)
    | Patch(path: string, body: Body)
    | Delete(path: string)
    | Sweep

  datatype Handled = Handled(response: Response, store: Store, told: seq<C.Emission>)

  // ---------- specification on values ----------

  function ErrorResponse(e: C.Error): Response {
    match e
    case NotFound => NotFound
    case Conflict => Conflict
    case Invalid => BadRequest
    case Internal => ServerError
    case Panicked => Aborted
  }

  /** The response to an outcome: `success` if it was done. */
  function Answer(o: C.Outcome, store: Store, success: Response): Handled {
    match o
    case Done(_, after, emission) => Handled(success, after, [emission])
    case Failed(e) => Handled(ErrorResponse(e), store, [])
  }

  function AnswerAdd(o: C.Outcome, store: Store): Handled {
    Answer(o, store, if o.Done? then Created(o.id) else ServerError)
  }

  function Serve(env: Env, store: Store, req: Request, now: Time): Handled {
    match req
    case Post(body, urn) =>
      if body.Malformed? then Handled(BadRequest, store, [])
      else if body.NullBody? then Handled(Aborted, store, [])
      else if "id" in body.td && body.td["id"] != Null && body.td["id"] != Str("") then Handled(BadRequest, store, [])
      else AnswerAdd(C.AddTo(env, store, body.td, urn, now), store)
    case Put(path, body) =>
      if !body.Object? || !C.HasId(body.td) || body.td["id"].s != path then Handled(BadRequest, store, [])
      else
        var o := C.UpdateIn(env, store, path, body.td, now);
        if o == C.Failed(C.NotFound) then AnswerAdd(C.AddTo(env, store, body.td, "", now), store)
        else Answer(o, store, NoContent)
    case Patch(path, body) =>
      if body.Malformed? then Handled(BadRequest, store, [])
      else if body.Object? && "id" in body.td && body.td["id"] == Str("") && path != "" then
        Handled(BadRequest, store, [])
      else Answer(C.PatchIn(env, store, path, if body.Object? then Some(body.td) else None, now), store, NoContent)
    case Delete(path) => Answer(C.DeleteFrom(store, path), store, NoContent)
    case Sweep => Handled(NoContent, C.Swept(env, store, now), [])
  }

  // ---------- the handlers ----------

  class HTTPAPI {
    const controller: C.Controller

    constructor (controller: C.Controller)
      ensures this.controller == controller
    {
      this.controller := controller;
    }

    /** The handler answered, changed the store and told the listeners as specified. */
    ghost predicate Did(h: Handled, told: seq<C.Emission>, response: Response)
      reads controller, controller.storage
    {
      response == h.response && controller.storage.db == h.store && controller.listened == told + h.told
    }

    method HandlePost(body: Body, urn: string, now: Time) returns (response: Response)
      modifies controller`listened, controller.storage
      ensures Did(Serve(controller.env, old(controller.storage.db), Post(body, urn), now), old(controller.listened),
                  response)
    {
      if body.Malformed? { return BadRequest; }
      if body.NullBody? { return Aborted; }
      if "id" in body.td && body.td["id"] != Null {
        if !body.td["id"].Str? || body.td["id"].s != "" { return BadRequest; }
      }
      var id, error := controller.Add(body.td, urn, now);
      response := if error.Some? then ErrorResponse(error.value) else Created(id);
    }

    method HandlePut(path: string, body: Body, now: Time) returns (response: Response)
      modifies controller`listened, controller.storage
      ensures Did(Serve(controller.env, old(controller.storage.db), Put(path, body), now), old(controller.listened),
                  response)
    {
      if !body.Object? || !C.HasId(body.td) { return BadRequest; }
      if path != body.td["id"].s { return BadRequest; }
      var error := controller.Update(path, body.td, now);
      if error == Some(C.NotFound) {
        var id, e := controller.Add(body.td, "", now);
        return if e.Some? then ErrorResponse(e.value) else Created(id);
      }
      response := if error.Some? then ErrorResponse(error.value) else NoContent;
    }

    method HandlePatch(path: string, body: Body, now: Time) returns (response: Response)
      modifies controller`listened, controller.storage
      ensures Did(Serve(controller.env, old(controller.storage.db), Patch(path, body), now), old(controller.listened),
                  response)
    {
      if body.Malformed? { return BadRequest; }
      if body.Object? && "id" in body.td && body.td["id"] == Str("") {
        if path != "" { return BadRequest; }
      }
      var error := controller.Patch(path, if body.Object? then Some(body.td) else None, now);
      response := if error.Some? then ErrorResponse(error.value) else NoContent;
    }

    method HandleDelete(path: string, now: Time) returns (response: Response)
      modifies controller`listened, controller.storage
      ensures Did(Serve(controller.env, old(controller.storage.db), Delete(path), now), old(controller.listened),
                  response)
    {
      var error := controller.Delete(path);
      response := if error.Some? then ErrorResponse(error.value) else NoContent;
    }

    /** The chunked listing: the same bytes as the listing in one piece. */
    method GetAll(number: NumberText) returns (out: string)
      ensures out == ArrayText(S.Texts(number, controller.storage.db))
          && S.IsListing(number, controller.storage.db, out)
    {
      S.TextsAreListing(number, controller.storage.db);
      var items := controller.storage.IterateBytes(number);
      out := WriteChunks(items);
    }

    method WriteChunks(items: seq<string>) returns (out: string)
      ensures out == ArrayText(items)
    {
      out := "[";
      var first := true;
      S.JoinNone();
      hide Join;
      for i := 0 to |items|
        invariant out == "[" + Join(items[..i])
        invariant first <==> i == 0
      {
        S.JoinSnoc(items, i);
        if first {
          first := false;
        } else {
          out := out + ",";
        }
        out := out + items[i];
      }
      assert items[..|items|] == items;
      out := out + "]";
    }
  }

  // ---------- every reachable store ----------

  /** A patch body that has no ID or repeats the one in the path; the handler does not insist on it. */
  predicate KeepsId(req: Request) {
    req.Patch? && req.body.Object? && "id" in req.body.td ==> req.body.td["id"] == Str(req.path)
  }

  /** When each TD was added, as told by the creation events. */
  function Births(born: map<string, Time>, told: seq<C.Emission>, now: Time): map<string, Time> {
    if |told| == 1 && told[0].Created? && C.HasId(told[0].td) then born[told[0].td["id"].s := now] else born
  }

  ghost predicate IsServed(env: Env, stores: seq<Store>, borns: seq<map<string, Time>>, reqs: seq<Request>,
                           times: seq<Time>)
  {
    && |stores| == |borns| == |reqs| + 1 && |times| == |reqs|
    && stores[0] == map[]
    && (forall i, j | 0 <= i <= j < |times| :: times[i].nanos <= times[j].nanos)
    && (forall i | 0 <= i < |reqs| :: KeepsId(reqs[i]))
    && (forall i | 0 <= i < |reqs| :: stores[i + 1] == Serve(env, stores[i], reqs[i], times[i]).store)
    && (forall i | 0 <= i < |reqs| ::
          borns[i + 1] == Births(borns[i], Serve(env, stores[i], reqs[i], times[i]).told, times[i]))
  }

  lemma ServeKeepsGood(env: Env, store: Store, born: map<string, Time>, clock: Time, req: Request, now: Time)
    requires Lawful(env) && C.GoodStore(env, store, born, clock) && clock.nanos <= now.nanos && KeepsId(req)
    ensures var h := Serve(env, store, req, now);
            C.GoodStore(env, h.store, Births(born, h.told, now), now)
  {
    hide C.GoodStore, C.Register, C.Replace, C.AddTo, C.Swept, C.Patched, Lawful;
    C.ClockAdvances(env, store, born, clock, now);
    match req
    case Post(body, urn) =>
      if body.Object? { AddServed(env, store, born, clock, body.td, urn, now); }
    case Put(path, body) =>
      if body.Object? {
        AddServed(env, store, born, clock, body.td, "", now);
        if path in store {
          C.ReplaceKeepsGood(env, store, born, clock, path, body.td, now);
          C.ReplaceUpdates(env, store, path, body.td, now);
        }
      }
    case Patch(path, body) =>
      if body.Object? && path in store {
        C.GoodTd(env, store, born, clock, path);
        C.PatchKeepsId(store[path], body.td, path);
        C.ReplaceKeepsGood(env, store, born, clock, path, C.Patched(store[path], body.td), now);
        C.ReplaceUpdates(env, store, path, C.Patched(store[path], body.td), now);
      }
    case Delete(path) => C.RemovalKeepsGood(env, store, store - {path}, born, now);
    case Sweep =>
      C.SweepRemoves(env, store, now);
      C.RemovalKeepsGood(env, store, C.Swept(env, store, now), born, now);
  }

  lemma AddServed(env: Env, store: Store, born: map<string, Time>, clock: Time, td: Members, urn: string, now: Time)
    requires Lawful(env) && C.GoodStore(env, store, born, clock) && clock.nanos <= now.nanos
    ensures var o := C.AddTo(env, store, td, urn, now);
            o.Done? ==> C.GoodStore(env, o.store, Births(born, [o.emission], now), now)
  {
    hide C.GoodStore, Lawful, C.Register;
    C.AddKeepsGood(env, store, born, clock, td, urn, now);
    C.AddCreates(env, store, td, urn, now);
    hide C.AddTo;
  }

  /** In every store that HTTP requests and expiry sweeps can produce, each TD carries its key as its
      ID and a registration that the server wrote: created when it was added. */
  lemma {:induction false} ReachableStoresAreGood(env: Env, stores: seq<Store>, borns: seq<map<string, Time>>,
                                                  reqs: seq<Request>, times: seq<Time>, n: nat)
    requires Lawful(env) && IsServed(env, stores, borns, reqs, times) && 0 < n < |stores|
    ensures C.GoodStore(env, stores[n], borns[n], times[n - 1])
  {
    var h := Serve(env, stores[n - 1], reqs[n - 1], times[n - 1]);
    if n == 1 {
      assert C.GoodStore(env, stores[0], borns[0], times[0]);
      ServeKeepsGood(env, stores[0], borns[0], times[0], reqs[0], times[0]);
    } else {
      ReachableStoresAreGood(env, stores, borns, reqs, times, n - 1);
      ServeKeepsGood(env, stores[n - 1], borns[n - 1], times[n - 2], reqs[n - 1], times[n - 1]);
    }
  }

  // ---------- all or nothing ----------

  /** The key a request is about. */
  function Target(req: Request): string {
    match req
    case Post(_, urn) => urn
    case Put(path, _) => path
    case Patch(path, _) => path
    case Delete(path) => path
    case Sweep => ""
  }

  predicate Failed(r: Response) { !r.Created? && !r.NoContent? }

  /** A request that fails changes nothing and tells nobody; one that succeeds tells exactly one event
      and touches no key but its own. */
  lemma AllOrNothing(env: Env, store: Store, req: Request, now: Time)
    requires !req.Sweep?
    ensures var h := Serve(env, store, req, now);
            && (if Failed(h.response) then h.store == store && h.told == [] else |h.told| == 1)
            && h.store - {Target(req)} == store - {Target(req)}
  {
    hide C.Register, C.Patched;
    var h, key := Serve(env, store, req, now), Target(req);
    assert (key in h.store && h.store == store[key := h.store[key]]) || h.store == store || h.store == store - {key};
  }

  /** DELETE succeeds exactly on a stored key, which is gone afterwards; POST only on a new one, which is
      stored afterwards; PATCH only on a stored one, which stays. */
  lemma Successes(env: Env, store: Store, req: Request, now: Time)
    ensures var h := Serve(env, store, req, now);
            && (req.Delete? ==> (!Failed(h.response) <==> req.path in store) && req.path !in h.store)
            && (req.Post? && !Failed(h.response) ==>
                  h.response == Created(req.urn) && req.urn !in store && req.urn in h.store)
            && (req.Patch? && !Failed(h.response) ==> req.path in store && req.path in h.store)
  {
    hide C.Register, C.Patched;
  }

  // ---------- PUT ----------

  /** The creation time a PUT leaves behind. */
  function CreatedBy(store: Store, born: map<string, Time>, path: string, now: Time): Time {
    if path in store && path in born then born[path] else now
  }

  /** A PUT replaces a stored TD or adds a new one, in both cases by the same registration. */
  lemma PutRegisters(env: Env, store: Store, born: map<string, Time>, clock: Time, path: string, td: Members, now: Time)
    requires C.GoodStore(env, store, born, clock) && C.HasId(td) && td["id"].s == path
    ensures var h := Serve(env, store, Put(path, Object(td)), now);
            var r := C.Register(env, td, Some(CreatedBy(store, born, path, now)), now);
            if r.Accepted? then
              && h.store == store[path := r.td] && h.told != []
              && h.response == if path in store then NoContent else Created(path)
            else
              h.store == store && h.told == [] && h.response in {BadRequest, ServerError, Aborted}
  {
    assert td["id" := Str(path)] == td;
    if path in store {
      assert C.Good(env, path, store[path], born[path], clock);
    }
  }

  /** A PUT whose body carries the ID of the path either fails and changes nothing, or leaves exactly
      the sent TD under that ID (registration aside): "created" if it was new, else "no content" and
      the old creation time. */
  lemma PutUpserts(env: Env, store: Store, born: map<string, Time>, clock: Time, path: string, td: Members, now: Time)
    requires Lawful(env) && C.GoodStore(env, store, born, clock) && clock.nanos <= now.nanos
    requires C.HasId(td) && td["id"].s == path
    ensures var h := Serve(env, store, Put(path, Object(td)), now);
            if C.Register(env, td, Some(CreatedBy(store, born, path, now)), now).Accepted? then
              && h.response == (if path in store then NoContent else Created(path))
              && path in h.store && h.store - {path} == store - {path}
              && C.Outside(h.store[path]) == C.Outside(td)
              && Read(env, h.store[path]).Found?
              && Read(env, h.store[path]).tr.created == Some(CreatedBy(store, born, path, now))
            else
              h.store == store && h.told == [] && h.response in {BadRequest, ServerError, Aborted}
  {
    PutRegisters(env, store, born, clock, path, td, now);
    var created := CreatedBy(store, born, path, now);
    assert created.nanos <= now.nanos by {
      if path in store { assert C.Good(env, path, store[path], born[path], clock); }
    }
    C.RegisteredIsGood(env, path, td, created, now);
    hide Serve, C.Register, C.GoodStore;
  }

  /** Whether a registration that was accepted once is accepted again at another time. */
  lemma RegisterAgain(env: Env, td: Members, created: Option<Time>, t1: Time, t2: Time)
    requires C.Register(env, td, created, t1).Accepted?
    ensures C.Register(env, td, created, t2).Accepted? <==> C.CanBeWritten(env, td, t2)
  {
    hide C.Register, Read, C.TtlOf, C.ExpiresOf, C.CanBeWritten;
    C.AcceptedReads(env, td, created, t1);
    C.RegisterAccepts(env, td, created, t1);
    C.RegisterAccepts(env, td, created, t2);
  }

  /** Repeating an accepted PUT is accepted again exactly if the times can be written, and then keeps the
      creation time; otherwise it changes nothing. */
  lemma PutTwice(env: Env, store: Store, born: map<string, Time>, clock: Time, path: string, td: Members, t1: Time,
                 t2: Time)
    requires Lawful(env) && C.GoodStore(env, store, born, clock) && clock.nanos <= t1.nanos <= t2.nanos
    requires C.HasId(td) && td["id"].s == path
    requires Serve(env, store, Put(path, Object(td)), t1).told != []
    ensures var s1 := Serve(env, store, Put(path, Object(td)), t1).store;
            var h2 := Serve(env, s1, Put(path, Object(td)), t2);
            && (h2.told != [] <==> C.CanBeWritten(env, td, t2))
            && (h2.told == [] ==> h2.store == s1)
            && (h2.told != [] ==>
                  && h2.response == NoContent
                  && path in s1 && path in h2.store
                  && C.Outside(h2.store[path]) == C.Outside(s1[path])
                  && Read(env, h2.store[path]).Found? && Read(env, s1[path]).Found?
                  && Read(env, h2.store[path]).tr.created == Read(env, s1[path]).tr.created)
  {
    var h1 := Serve(env, store, Put(path, Object(td)), t1);
    var born1 := Births(born, h1.told, t1);
    PutRegisters(env, store, born, clock, path, td, t1);
    PutUpserts(env, store, born, clock, path, td, t1);
    ServeKeepsGood(env, store, born, clock, Put(path, Object(td)), t1);
    assert C.Good(env, path, h1.store[path], born1[path], t1);
    PutRegisters(env, h1.store, born1, t1, path, td, t2);
    PutUpserts(env, h1.store, born1, t1, path, td, t2);
    RegisterAgain(env, td, Some(CreatedBy(store, born, path, t1)), t1, t2);
    hide Serve, C.Register, C.GoodStore;
  }
}
