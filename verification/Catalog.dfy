/** The catalog: a store of Thing Descriptions by ID, and the operations of its controller. */
module Catalog {
  import opened Json
  import opened LevelDb
  import opened Registration
  import MergePatch
  import S = Storage

  type Store = S.Store

  datatype Error = NotFound | Conflict | Invalid | Internal | Panicked

  /** What an operation tells the listeners. */
  datatype Emission =
    | Created(td: Members)
    | Updated(before: Members, after: Members)
    | Deleted(before: Members)

  /** The new store and what is emitted, or an error that leaves the store alone. */
  datatype Outcome =
    | Done(id: string, store: Store, emission: Emission)
    | Failed(error: Error)

  // ---------- specification on values ----------

  datatype Registered = Accepted(td: Members) | Rejected(error: Error)

  /** Validation, then the rewriting of the registration, then serialization. */
  function Register(env: Env, td: Members, created: Option<Time>, now: Time): Registered {
    match env.validate(td)
    case Unable => Rejected(Internal)
    case Issues => Rejected(Invalid)
    case Valid =>
      var reading := Read(env, td);
      if reading.Panic? then Rejected(Panicked)
      else
        var tr := if reading.Found? then Some(reading.tr) else None;
        var reg := Registration(created, Some(now), ComputeExpiry(env, tr, now), Ttl(tr));
        if Writable(env, reg) then Accepted(WithRegistration(env, td, reg)) else Rejected(Internal)
  }

  predicate HasId(td: Members) { "id" in td && td["id"].Str? && td["id"].s != "" }

  function AddTo(env: Env, store: Store, td: Members, urn: string, now: Time): Outcome {
    var id := if HasId(td) then td["id"].s else urn;
    var r := Register(env, td["id" := Str(id)], Some(now), now);
    if r.Rejected? then Failed(r.error)
    else if id == "" then Failed(Internal)
    else if id in store then Failed(Conflict)
    else Done(id, store[id := r.td], Created(r.td))
  }

  /** Replaces a stored TD by another one, keeping its creation time. */
  function Replace(env: Env, store: Store, id: string, td: Members, now: Time): Outcome
    requires id in store
  {
    var before := Read(env, store[id]);
    if env.validate(td).Valid? && !before.Found? then Failed(Panicked)
    else
      var r := Register(env, td, if before.Found? then before.tr.created else None, now);
      if r.Rejected? then Failed(r.error) else Done(id, store[id := r.td], Updated(store[id], r.td))
  }

  function UpdateIn(env: Env, store: Store, id: string, td: Members, now: Time): Outcome {
    if id !in store then Failed(NotFound) else Replace(env, store, id, td, now)
  }

  /** The TD a patch produces, before it is validated. */
  function Patched(td: Members, patch: Members): Members {
    MergePatch.Merge(true, Obj(td), Obj(patch)).m
  }

  /** A patch body of null is not a patch. */
  function PatchIn(env: Env, store: Store, id: string, patch: Option<Members>, now: Time): Outcome {
    if id !in store then Failed(NotFound)
    else if patch.None? then Failed(Internal)
    else Replace(env, store, id, Patched(store[id], patch.value), now)
  }

  function DeleteFrom(store: Store, id: string): Outcome {
    if id !in store then Failed(NotFound) else Done(id, store - {id}, Deleted(store[id]))
  }

  function Expires(env: Env, td: Members): Option<Time> {
    var r := Read(env, td);
    if r.Found? then r.tr.expires else None
  }

  predicate IsExpired(env: Env, td: Members, t: Time) {
    Expires(env, td).Some? && IsAfter(t, Expires(env, td).value)
  }

  /** The store without what has expired at a given time. */
  function Swept(env: Env, store: Store, t: Time): Store {
    map id | id in store && !IsExpired(env, store[id], t) :: store[id]
  }

  /** Exactly which TDs are accepted, and what becomes of them. */
  lemma RegisterDoes(env: Env, td: Members, created: Option<Time>, now: Time)
    ensures var r, verdict := Register(env, td, created, now), env.validate(td);
            if verdict.Unable? then r == Rejected(Internal)
            else if verdict.Issues? then r == Rejected(Invalid)
            else if !TimesRead(env, Part(td)) then r == Rejected(Panicked)
            else if !CanStamp(env, td, created, now) then r == Rejected(Internal)
            else r.Accepted? && IsStamped(env, td, r.td, created, now)
  {
    ReadMembers(env, td);
    var reading := Read(env, td);
    if !reading.Panic? {
      ExpiryComputed(env, td, now);
      var tr := if reading.Found? then Some(reading.tr) else None;
      var reg := Registration(created, Some(now), ComputeExpiry(env, tr, now), Ttl(tr));
      hide Read, Write, ComputeExpiry, ExpiryFrom;
      if Writable(env, reg) { WrittenMembers(env, reg); }
    }
  }

  /** A TD has expired exactly if its readable registration says so. */
  lemma ExpiredMeans(env: Env, td: Members, t: Time)
    ensures IsExpired(env, td, t) <==> Overdue(env, td, t)
  {
    ReadMembers(env, td);
    hide Read;
  }

  // ---------- the stored TDs ----------

  /** A stored TD carries its key as its ID; its registration is readable and was written by the
      server: created when it was added, modified since, and expiring a TTL after that. */
  predicate Good(env: Env, id: string, td: Members, born: Time, clock: Time) {
    && id != "" && "id" in td && td["id"] == Str(id)
    && var r := Read(env, td);
      && r.Found?
      && r.tr.created == Some(born)
      && r.tr.modified.Some? && born.nanos <= r.tr.modified.value.nanos <= clock.nanos
      && (r.tr.ttl.Some? ==> r.tr.expires == Some(Plus(r.tr.modified.value, env.duration(r.tr.ttl.value))))
  }

  predicate GoodStore(env: Env, store: Store, born: map<string, Time>, clock: Time) {
    forall id | id in store :: id in born && Good(env, id, store[id], born[id], clock)
  }

  lemma ClockAdvances(env: Env, store: Store, born: map<string, Time>, clock: Time, now: Time)
    requires GoodStore(env, store, born, clock) && clock.nanos <= now.nanos
    ensures GoodStore(env, store, born, now)
  {
  }

  /** Whatever a client sends as registration, an accepted TD is good. */
  lemma RegisteredIsGood(env: Env, id: string, td: Members, born: Time, now: Time)
    requires Lawful(env) && id != "" && "id" in td && td["id"] == Str(id) && born.nanos <= now.nanos
    ensures var r := Register(env, td, Some(born), now);
            r.Accepted? ==>
              && Good(env, id, r.td, born, now)
              && r.td - {"registration"} == td - {"registration"}
  {
    var r := Register(env, td, Some(born), now);
    if r.Accepted? {
      var reading := Read(env, td);
      var tr := if reading.Found? then Some(reading.tr) else None;
      var reg := Registration(Some(born), Some(now), ComputeExpiry(env, tr, now), Ttl(tr));
      WriteRead(env, td, reg);
    }
  }

  lemma AddKeepsGood(env: Env, store: Store, born: map<string, Time>, clock: Time, td: Members, urn: string, now: Time)
    requires Lawful(env) && GoodStore(env, store, born, clock) && clock.nanos <= now.nanos
    ensures var o := AddTo(env, store, td, urn, now);
            o.Done? ==> GoodStore(env, o.store, born[o.id := now], now)
  {
    var o := AddTo(env, store, td, urn, now);
    if o.Done? {
      RegisteredIsGood(env, o.id, td["id" := Str(o.id)], now, now);
    }
  }

  /** Updating never fails on the stored registration, and keeps the time of creation. */
  lemma ReplaceKeepsGood(env: Env, store: Store, born: map<string, Time>, clock: Time, id: string, td: Members,
                         now: Time)
    requires Lawful(env) && GoodStore(env, store, born, clock) && clock.nanos <= now.nanos && id in store
    ensures Read(env, store[id]).Found?
    ensures var o := Replace(env, store, id, td, now);
            && (o.Done? && "id" in td && td["id"] == Str(id) ==> GoodStore(env, o.store, born, now))
            && (o == Failed(Panicked) ==> Read(env, td).Panic?)
  {
    assert Good(env, id, store[id], born[id], clock);
    if "id" in td && td["id"] == Str(id) {
      RegisteredIsGood(env, id, td, born[id], now);
    }
  }

  lemma ReplaceUpdates(env: Env, store: Store, id: string, td: Members, now: Time)
    requires id in store
    ensures var o := Replace(env, store, id, td, now);
            && o != Failed(NotFound)
            && (o.Done? ==> o.emission.Updated? && o.emission.before == store[id])
  {
  }

  lemma AddCreates(env: Env, store: Store, td: Members, urn: string, now: Time)
    ensures var o := AddTo(env, store, td, urn, now);
            o.Done? ==> o.emission.Created? && HasId(o.emission.td) && o.emission.td["id"].s == o.id
  {
  }

  lemma SweepRemoves(env: Env, store: Store, t: Time)
    ensures forall id | id in Swept(env, store, t) :: id in store && Swept(env, store, t)[id] == store[id]
  {
  }

  /** Taking TDs away leaves a store good. */
  lemma RemovalKeepsGood(env: Env, store: Store, rest: Store, born: map<string, Time>, clock: Time)
    requires GoodStore(env, store, born, clock)
    requires forall id | id in rest :: id in store && rest[id] == store[id]
    ensures GoodStore(env, rest, born, clock)
  {
  }

  /** A patch keeps the ID of a TD exactly when it does not mention it or repeats it. */
  lemma PatchKeepsId(td: Members, patch: Members, id: string)
    requires "id" in td && td["id"] == Str(id)
    ensures "id" in Patched(td, patch) && Patched(td, patch)["id"] == Str(id)
      <==> "id" !in patch || patch["id"] == Str(id)
  {
    if "id" in patch && patch["id"] != Null {
      assert Patched(td, patch)["id"] == MergePatch.Merge(true, td["id"], patch["id"]);
    }
  }

  /** A patch with another ID is accepted, and detaches the stored TD from its key. */
  lemma PatchCanDetachId(env: Env, now: Time)
    requires env.validate(map["id" := Str("b"), "registration" := Obj(map[])]).Valid? && env.format(now).Some?
    ensures var store := map["a" := map["id" := Str("a"), "registration" := Obj(map[])]];
            var o := PatchIn(env, store, "a", Some(map["id" := Str("b")]), now);
            o.Done? && o.store.Keys == {"a"} && "id" in o.store["a"] && o.store["a"]["id"] == Str("b")
  {
    var td := map["id" := Str("a"), "registration" := Obj(map[])];
    var store: Store := map["a" := td];
    var merged := Patched(td, map["id" := Str("b")]);
    assert merged == map["id" := Str("b"), "registration" := Obj(map[])];
    assert Read(env, td) == Found(Registration(None, None, None, None));
    assert Read(env, merged) == Found(Registration(None, None, None, None));
  }

  // ---------- applying the same patch twice ----------

  function RegistrationOf(td: Members): Option<Members> {
    if "registration" in td && td["registration"].Obj? then Some(td["registration"].m) else None
  }

  function MergedMembers(r: Members, q: Members): Members { MergePatch.Merge(true, Obj(r), Obj(q)).m }

  /** Whether a patch leaves the registration, merges into it or takes it away depends on the patch
      alone. */
  lemma PatchedRegistration(td: Members, patch: Members)
    requires RegistrationOf(td).Some?
    ensures RegistrationOf(Patched(td, patch)) ==
            if "registration" !in patch then RegistrationOf(td)
            else if patch["registration"].Obj? then
              Some(MergedMembers(RegistrationOf(td).value, patch["registration"].m))
            else None
  {
    MergePatch.MergedMember(true, td, patch, "registration");
    if "registration" in patch && patch["registration"].Obj? {
      assert Patched(td, patch)["registration"] == MergePatch.Merge(true, td["registration"], patch["registration"]);
    }
  }

  /** If what was written agrees with the merged registration, merging again reads the same. */
  lemma ReadTwice(env: Env, r: Members, written: Members, q: Members)
    ensures ReadTtl(written) == ReadTtl(MergedMembers(r, q)) ==>
              ReadTtl(MergedMembers(written, q)) == ReadTtl(MergedMembers(r, q))
    ensures ReadTime(env, written, "expires") == ReadTime(env, MergedMembers(r, q), "expires") ==>
              ReadTime(env, MergedMembers(written, q), "expires") == ReadTime(env, MergedMembers(r, q), "expires")
  {
    MergePatch.MergedMember(true, r, q, "ttl");
    MergePatch.MergedMember(true, written, q, "ttl");
    MergePatch.MergedMember(true, r, q, "expires");
    MergePatch.MergedMember(true, written, q, "expires");
  }

  lemma WrittenTimes(env: Env, tr: Registration)
    requires Lawful(env) && Writable(env, tr)
    ensures ReadTtl(Write(env, tr)) == tr.ttl
    ensures ReadTime(env, Write(env, tr), "expires") == if tr.expires.Some? then At(tr.expires.value) else Absent
  {
    WriteRead(env, map[], tr);
    assert Read(env, WithRegistration(env, map[], tr)) == Found(tr);
  }

  function TtlOf(td: Members): Option<real> {
    var r := RegistrationOf(td);
    if r.Some? then ReadTtl(r.value) else None
  }

  function ExpiresOf(env: Env, td: Members): TimeReading {
    var r := RegistrationOf(td);
    if r.Some? then ReadTime(env, r.value, "expires") else Absent
  }

  /** An accepted registration repeats the TTL it was given, and without a TTL the expiry. */
  lemma RegisteredTimes(env: Env, td: Members, created: Option<Time>, now: Time)
    requires Lawful(env) && Register(env, td, created, now).Accepted?
    ensures var after := Register(env, td, created, now).td;
            && RegistrationOf(after).Some?
            && TtlOf(after) == TtlOf(td)
            && (TtlOf(td).None? ==> ExpiresOf(env, after) == ExpiresOf(env, td))
            && (TtlOf(td).Some? ==> ExpiresOf(env, after) == At(Plus(now, env.duration(TtlOf(td).value))))
            && after - {"registration"} == td - {"registration"}
  {
    var reading := Read(env, td);
    var tr := if reading.Found? then Some(reading.tr) else None;
    WrittenTimes(env, Registration(created, Some(now), ComputeExpiry(env, tr, now), Ttl(tr)));
  }

  /** The second of two equal patches sees the TTL and the expiry that the first one saw. */
  lemma PatchedTimesTwice(env: Env, td: Members, patch: Members, after: Members)
    requires RegistrationOf(td).Some? && RegistrationOf(after).Some?
    requires TtlOf(after) == TtlOf(Patched(td, patch))
    ensures TtlOf(Patched(after, patch)) == TtlOf(Patched(td, patch))
    ensures ExpiresOf(env, after) == ExpiresOf(env, Patched(td, patch)) ==>
              ExpiresOf(env, Patched(after, patch)) == ExpiresOf(env, Patched(td, patch))
  {
    PatchedRegistration(td, patch);
    PatchedRegistration(after, patch);
    if "registration" in patch && patch["registration"].Obj? {
      ReadTwice(env, RegistrationOf(td).value, RegistrationOf(after).value, patch["registration"].m);
    }
  }

  lemma PatchedTd(env: Env, store: Store, id: string, patch: Members, now: Time)
    requires id in store && PatchIn(env, store, id, Some(patch), now).Done?
    ensures Read(env, store[id]).Found?
    ensures var r := Register(env, Patched(store[id], patch), Read(env, store[id]).tr.created, now);
            r.Accepted? && PatchIn(env, store, id, Some(patch), now).store == store[id := r.td]
  {
  }

  function Outside(td: Members): Json { Obj(td - {"registration"}) }

  /** Outside the registration, an accepted patch is a plain merge. */
  lemma PatchedOutside(env: Env, store: Store, id: string, patch: Members, now: Time)
    requires Lawful(env) && id in store && PatchIn(env, store, id, Some(patch), now).Done?
    ensures var after := PatchIn(env, store, id, Some(patch), now).store;
            && id in after && after - {id} == store - {id}
            && Outside(after[id]) == MergePatch.Merge(true, Outside(store[id]), Outside(patch))
  {
    PatchedTd(env, store, id, patch, now);
    RegisteredTimes(env, Patched(store[id], patch), Read(env, store[id]).tr.created, now);
    MergePatch.MergeWithout(true, store[id], patch, "registration");
  }

  // ---------- whether a patch can be repeated ----------

  lemma TimeReadAgain(env: Env, r: Members, written: Members, q: Members, key: string)
    requires !ReadTime(env, written, key).Unparsable? && !ReadTime(env, MergedMembers(r, q), key).Unparsable?
    ensures !ReadTime(env, MergedMembers(written, q), key).Unparsable?
  {
    MergePatch.MergedMember(true, r, q, key);
    MergePatch.MergedMember(true, written, q, key);
  }

  /** A patch that left a readable registration leaves one again. */
  lemma ReadsAgain(env: Env, td: Members, patch: Members, after: Members)
    requires RegistrationOf(td).Some? && Read(env, after).Found? && !Read(env, Patched(td, patch)).Panic?
    ensures !Read(env, Patched(after, patch)).Panic?
  {
    hide Patched, ReadTime;
    PatchedRegistration(td, patch);
    PatchedRegistration(after, patch);
    if "registration" in patch && patch["registration"].Obj? {
      var r, written, q := RegistrationOf(td).value, RegistrationOf(after).value, patch["registration"].m;
      TimeReadAgain(env, r, written, q, "created");
      TimeReadAgain(env, r, written, q, "modified");
      TimeReadAgain(env, r, written, q, "expires");
    }
  }

  /** The time of a request, and the expiry if the TD sets a TTL, are times that can be written. */
  predicate CanBeWritten(env: Env, td: Members, now: Time) {
    env.format(now).Some? && (TtlOf(td).Some? ==> env.format(Plus(now, env.duration(TtlOf(td).value))).Some?)
  }

  /** What it takes for a patch to be accepted on a TD that it was just accepted on: the merged TD is valid
      again, and the times can be written. */
  predicate Repeatable(env: Env, td: Members, patch: Members, now: Time) {
    env.validate(Patched(td, patch)).Valid? && CanBeWritten(env, td, now)
  }

  lemma ReadFields(env: Env, td: Members)
    ensures Read(env, td).Found? <==> RegistrationOf(td).Some? && !Read(env, td).Panic?
    ensures Read(env, td).Found? ==> TtlOf(td) == Read(env, td).tr.ttl
    ensures Read(env, td).Found? ==> ExpiresOf(env, td) == ExpiryReading(Read(env, td).tr.expires)
    ensures Read(env, td).Missing? ==> TtlOf(td).None? && ExpiresOf(env, td) == Absent
  {
  }

  function ExpiryReading(t: Option<Time>): TimeReading { if t.Some? then At(t.value) else Absent }

  /** Whether a registration is accepted, in terms of what is read of it. */
  lemma RegisterAccepts(env: Env, td: Members, created: Option<Time>, now: Time)
    requires !Read(env, td).Panic?
    ensures Register(env, td, created, now).Accepted? <==>
              && env.validate(td).Valid? && Formattable(env, created) && CanBeWritten(env, td, now)
              && (TtlOf(td).None? && ExpiresOf(env, td).At? ==> env.format(ExpiresOf(env, td).t).Some?)
  {
    ReadFields(env, td);
    hide Read, Write, TtlOf, ExpiresOf;
  }

  lemma AcceptedReads(env: Env, td: Members, created: Option<Time>, now: Time)
    requires Register(env, td, created, now).Accepted?
    ensures env.validate(td).Valid? && !Read(env, td).Panic?
  {
  }

  /** The same patch is accepted again exactly if it is repeatable on what it left. */
  lemma PatchAgain(env: Env, store: Store, id: string, patch: Members, t1: Time, t2: Time)
    requires Lawful(env) && id in store && PatchIn(env, store, id, Some(patch), t1).Done?
    ensures var s1 := PatchIn(env, store, id, Some(patch), t1).store;
            id in s1 && (PatchIn(env, s1, id, Some(patch), t2).Done? <==> Repeatable(env, s1[id], patch, t2))
  {
    hide Lawful, Read, Register, Patched, TtlOf, ExpiresOf, RegistrationOf;
    var td, s1 := store[id], PatchIn(env, store, id, Some(patch), t1).store;
    PatchedTd(env, store, id, patch, t1);
    var p1, p2, created := Patched(td, patch), Patched(s1[id], patch), Read(env, td).tr.created;
    AcceptedReads(env, p1, created, t1);
    RegisterReads(env, p1, created, t1);
    RegisteredTimes(env, p1, created, t1);
    RegisterAccepts(env, p1, created, t1);
    ReadFields(env, td);
    PatchedTimesTwice(env, td, patch, s1[id]);
    ReadsAgain(env, td, patch, s1[id]);
    RegisterAccepts(env, p2, created, t2);
  }

  // ---------- what a repeated patch leaves ----------

  /** Applying the same patch twice: outside the registration the second TD equals the first exactly
      when the patch is stable there. */
  lemma PatchTwice(env: Env, store: Store, id: string, patch: Members, t1: Time, t2: Time)
    requires Lawful(env) && id in store && PatchIn(env, store, id, Some(patch), t1).Done?
    ensures var s1 := PatchIn(env, store, id, Some(patch), t1).store;
            var o2 := PatchIn(env, s1, id, Some(patch), t2);
            && id in s1 && s1 - {id} == store - {id}
            && (o2.Done? <==> Repeatable(env, s1[id], patch, t2))
            && (o2.Done? ==>
                  && id in o2.store && o2.store - {id} == store - {id}
                  && (Outside(o2.store[id]) == Outside(s1[id])
                      <==> MergePatch.Stable(true, Outside(store[id]), Outside(patch))))
  {
    hide PatchIn, Outside, MergePatch.Merge, MergePatch.Stable, Lawful, Repeatable;
    PatchAgain(env, store, id, patch, t1, t2);
    PatchedOutside(env, store, id, patch, t1);
    var s1 := PatchIn(env, store, id, Some(patch), t1).store;
    if PatchIn(env, s1, id, Some(patch), t2).Done? {
      PatchedOutside(env, s1, id, patch, t2);
      MergePatch.MergeTwice(true, Outside(store[id]), Outside(patch));
    }
  }

  /** Applying the same patch twice repeats the TTL, and the expiry too unless a TTL moves it. */
  lemma PatchTwiceTimes(env: Env, store: Store, id: string, patch: Members, t1: Time, t2: Time)
    requires Lawful(env) && id in store && PatchIn(env, store, id, Some(patch), t1).Done?
    ensures var s1 := PatchIn(env, store, id, Some(patch), t1).store;
            var o2 := PatchIn(env, s1, id, Some(patch), t2);
            && id in s1 && (o2.Done? <==> Repeatable(env, s1[id], patch, t2))
            && (o2.Done? ==>
                  && id in o2.store && TtlOf(o2.store[id]) == TtlOf(s1[id])
                  && ExpiresOf(env, o2.store[id]) ==
                     if TtlOf(s1[id]).None? then ExpiresOf(env, s1[id])
                     else At(Plus(t2, env.duration(TtlOf(s1[id]).value))))
  {
    hide Lawful, Read, Register, Patched, TtlOf, ExpiresOf, RegistrationOf, Repeatable;
    PatchAgain(env, store, id, patch, t1, t2);
    var td, s1 := store[id], PatchIn(env, store, id, Some(patch), t1).store;
    PatchedTd(env, store, id, patch, t1);
    RegisteredTimes(env, Patched(td, patch), Read(env, td).tr.created, t1);
    ReadFields(env, td);
    if PatchIn(env, s1, id, Some(patch), t2).Done? {
      PatchedTd(env, s1, id, patch, t2);
      RegisteredTimes(env, Patched(s1[id], patch), Read(env, s1[id]).tr.created, t2);
      PatchedTimesTwice(env, td, patch, s1[id]);
    }
  }

  /** What the server makes of a registration when nothing but the time has changed. */
  function NextRegistration(env: Env, tr: Registration, now: Time): Registration {
    tr.(modified := Some(now),
        expires := if tr.ttl.Some? then Some(Plus(now, env.duration(tr.ttl.value))) else tr.expires)
  }

  lemma RegisterReads(env: Env, td: Members, created: Option<Time>, now: Time)
    requires Lawful(env) && Register(env, td, created, now).Accepted?
    ensures var r, read := Register(env, td, created, now), Read(env, Register(env, td, created, now).td);
            && read.Found? && read.tr.created == created && read.tr.modified == Some(now)
            && r.td == WithRegistration(env, td, read.tr)
            && TtlOf(r.td) == read.tr.ttl
            && ExpiresOf(env, r.td) == if read.tr.expires.Some? then At(read.tr.expires.value) else Absent
  {
    var reading := Read(env, td);
    var tr := if reading.Found? then Some(reading.tr) else None;
    var reg := Registration(created, Some(now), ComputeExpiry(env, tr, now), Ttl(tr));
    WriteRead(env, td, reg);
    WrittenTimes(env, reg);
  }

  lemma SameOutside(env: Env, a: Members, b: Members, tr: Registration)
    ensures WithRegistration(env, a, tr) == WithRegistration(env, b, tr) <==> Outside(a) == Outside(b)
  {
    var l, r := WithRegistration(env, a, tr), WithRegistration(env, b, tr);
    assert l - {"registration"} == a - {"registration"} && r - {"registration"} == b - {"registration"};
    if Outside(a) == Outside(b) {
      assert l.Keys == r.Keys by { assert l.Keys == (a - {"registration"}).Keys + {"registration"}; }
      forall k | k in l ensures l[k] == r[k] {
        if k != "registration" { assert l[k] == (a - {"registration"})[k] && r[k] == (b - {"registration"})[k]; }
      }
    }
  }

  /** Applying the same patch twice leaves the same TD but for the time of modification and, if a TTL is
      set, the expiry, exactly when the patch is stable outside the registration. */
  lemma PatchTwiceSame(env: Env, store: Store, id: string, patch: Members, t1: Time, t2: Time)
    requires Lawful(env) && id in store && PatchIn(env, store, id, Some(patch), t1).Done?
    ensures var s1 := PatchIn(env, store, id, Some(patch), t1).store;
            var o2 := PatchIn(env, s1, id, Some(patch), t2);
            && id in s1 && Read(env, s1[id]).Found?
            && (o2.Done? <==> Repeatable(env, s1[id], patch, t2))
            && (o2.Done? ==>
                  var next := NextRegistration(env, Read(env, s1[id]).tr, t2);
                  && id in o2.store && Read(env, o2.store[id]) == Found(next)
                  && (o2.store[id] == WithRegistration(env, s1[id], next)
                      <==> MergePatch.Stable(true, Outside(store[id]), Outside(patch))))
  {
    hide Register, Read, Lawful, Patched, MergePatch.Stable, Outside, TtlOf, ExpiresOf, RegistrationOf;
    hide WithRegistration;
    hide Repeatable;
    var s1 := PatchIn(env, store, id, Some(patch), t1).store;
    PatchedTd(env, store, id, patch, t1);
    RegisterReads(env, Patched(store[id], patch), Read(env, store[id]).tr.created, t1);
    PatchTwiceTimes(env, store, id, patch, t1, t2);
    PatchTwice(env, store, id, patch, t1, t2);
    if PatchIn(env, s1, id, Some(patch), t2).Done? {
      PatchedTd(env, s1, id, patch, t2);
      var p2, s2 := Patched(s1[id], patch), PatchIn(env, s1, id, Some(patch), t2).store;
      RegisterReads(env, p2, Read(env, s1[id]).tr.created, t2);
      var tr2 := Read(env, s2[id]).tr;
      SameOutside(env, p2, s1[id], tr2);
      OutsideRegistered(env, p2, tr2);
    }
  }

  lemma OutsideRegistered(env: Env, td: Members, tr: Registration)
    ensures Outside(WithRegistration(env, td, tr)) == Outside(td)
  {
    assert WithRegistration(env, td, tr) - {"registration"} == td - {"registration"};
  }

  /** Two accepted patches of a stored TD that are the same and do not leave the same: a null in an array
      that lands on an object is kept the first time and pruned the second time. */
  lemma PatchTwiceDiffers(env: Env, t1: Time, t2: Time)
    requires env.format(t1).Some? && env.format(t2).Some? && env.parse(env.format(t1).value) == Some(t1)
    requires env.validate(map["id" := Str("a"), "x" := Arr([Null]), "registration" := Obj(map[])]).Valid?
    requires env.validate(map["id" := Str("a"), "x" := Arr([]),
                              "registration" := Obj(map["modified" := Str(env.format(t1).value)])]).Valid?
    ensures var td: Members := map["id" := Str("a"), "x" := Obj(map[]), "registration" := Obj(map[])];
            var patch := Some(map["x" := Arr([Null])]);
            var o1 := PatchIn(env, map["a" := td], "a", patch, t1);
            && o1.Done? && "a" in o1.store && "x" in o1.store["a"] && o1.store["a"]["x"] == Arr([Null])
            && var o2 := PatchIn(env, o1.store, "a", patch, t2);
               o2.Done? && "a" in o2.store && "x" in o2.store["a"] && o2.store["a"]["x"] == Arr([])
  {
    hide PatchIn;
    var s1: Members := map["id" := Str("a"), "x" := Arr([Null]),
                           "registration" := Obj(map["modified" := Str(env.format(t1).value)])];
    FirstPatch(env, t1, s1);
    assert s1["x" := Arr([])] == map["id" := Str("a"), "x" := Arr([]),
                                     "registration" := Obj(map["modified" := Str(env.format(t1).value)])];
    SecondPatch(env, t1, t2, s1);
  }

  lemma FirstPatch(env: Env, t1: Time, s1: Members)
    requires env.format(t1).Some?
    requires env.validate(map["id" := Str("a"), "x" := Arr([Null]), "registration" := Obj(map[])]).Valid?
    requires s1 == map["id" := Str("a"), "x" := Arr([Null]),
                       "registration" := Obj(map["modified" := Str(env.format(t1).value)])]
    ensures var td: Members := map["id" := Str("a"), "x" := Obj(map[]), "registration" := Obj(map[])];
            var o := PatchIn(env, map["a" := td], "a", Some(map["x" := Arr([Null])]), t1);
            o.Done? && o.store == map["a" := s1]
  {
    hide Patched, Write;
    var td: Members := map["id" := Str("a"), "x" := Obj(map[]), "registration" := Obj(map[])];
    var p1 := map["id" := Str("a"), "x" := Arr([Null]), "registration" := Obj(map[])];
    FirstMerge(td, p1);
    var none := Registration(None, None, None, None);
    assert Read(env, td) == Found(none) && Read(env, p1) == Found(none);
    var reg1 := none.(modified := Some(t1));
    ModifiedOnly(env, t1);
    var r := Register(env, p1, None, t1);
    assert r == Accepted(WithRegistration(env, p1, reg1));
    assert WithRegistration(env, p1, reg1) == s1;
    assert (map["a" := td])["a" := s1] == map["a" := s1];
  }

  lemma FirstMerge(td: Members, merged: Members)
    requires td == map["id" := Str("a"), "x" := Obj(map[]), "registration" := Obj(map[])]
    requires merged == map["id" := Str("a"), "x" := Arr([Null]), "registration" := Obj(map[])]
    ensures Patched(td, map["x" := Arr([Null])]) == merged
  {
    assert Patched(td, map["x" := Arr([Null])])["x"] == Arr([Null]);
  }

  lemma ModifiedOnly(env: Env, t: Time)
    requires env.format(t).Some?
    ensures Write(env, Registration(None, Some(t), None, None)) == map["modified" := Str(env.format(t).value)]
  {
  }

  lemma SecondPatch(env: Env, t1: Time, t2: Time, s1: Members)
    requires env.format(t1).Some? && env.format(t2).Some? && env.parse(env.format(t1).value) == Some(t1)
    requires s1 == map["id" := Str("a"), "x" := Arr([Null]),
                       "registration" := Obj(map["modified" := Str(env.format(t1).value)])]
    requires env.validate(s1["x" := Arr([])]).Valid?
    ensures var o := PatchIn(env, map["a" := s1], "a", Some(map["x" := Arr([Null])]), t2);
            o.Done? && "a" in o.store && "x" in o.store["a"] && o.store["a"]["x"] == Arr([])
  {
    var patch: Members := map["x" := Arr([Null])];
    assert MergePatch.Prune(true, Arr([Null])) == Arr([]);
    assert Patched(s1, patch) == s1["x" := Arr([])];
    var reg := Registration(None, Some(t1), None, None);
    assert Read(env, s1) == Found(reg) && Read(env, s1["x" := Arr([])]) == Found(reg);
  }

  // ---------- the controller ----------

  class Controller {
    const env: Env
    const storage: S.LevelDBStorage
    var listened: seq<Emission>

    constructor (env: Env, storage: S.LevelDBStorage)
      ensures this.env == env && this.storage == storage && listened == []
    {
      this.env := env;
      this.storage := storage;
      listened := [];
    }

    /** The operation did what the outcome says: all of it, or nothing. */
    ghost predicate Follows(o: Outcome, db: Store, told: seq<Emission>, error: Option<Error>)
      reads this, storage
    {
      match o
      case Done(_, store, emission) => error.None? && storage.db == store && listened == told + [emission]
      case Failed(e) => error == Some(e) && storage.db == db && listened == told
    }

    method Add(td: Members, urn: string, now: Time) returns (id: string, error: Option<Error>)
      modifies this`listened, storage
      ensures Follows(AddTo(env, old(storage.db), td, urn, now), old(storage.db), old(listened), error)
      ensures error.None? ==> id == AddTo(env, old(storage.db), td, urn, now).id
    {
      id := if HasId(td) then td["id"].s else urn;
      var r := Register(env, td["id" := Str(id)], Some(now), now);
      if r.Rejected? { return "", Some(r.error); }
      var e := storage.Add(id, r.td);
      if e.Some? { return "", Some(if e.value.NotUnique? then Conflict else Internal); }
      listened := listened + [Created(r.td)];
      error := None;
    }

    method Get(id: string) returns (td: Option<Members>)
      ensures td == if id in storage.db then Some(storage.db[id]) else None
    {
      td := storage.Get(id);
    }

    method ReplaceStored(id: string, before: Members, td: Members, now: Time) returns (error: Option<Error>)
      requires id in storage.db && storage.db[id] == before
      modifies this`listened, storage
      ensures Follows(Replace(env, old(storage.db), id, td, now), old(storage.db), old(listened), error)
    {
      var verdict := env.validate(td);
      if verdict.Unable? { return Some(Internal); }
      if verdict.Issues? { return Some(Invalid); }
      var oldTr := Read(env, before);
      if !oldTr.Found? { return Some(Panicked); }
      var r := Register(env, td, oldTr.tr.created, now);
      if r.Rejected? { return Some(r.error); }
      var e := storage.Update(id, r.td);
      listened := listened + [Updated(before, r.td)];
      error := None;
    }

    method Update(id: string, td: Members, now: Time) returns (error: Option<Error>)
      modifies this`listened, storage
      ensures Follows(UpdateIn(env, old(storage.db), id, td, now), old(storage.db), old(listened), error)
    {
      var before := storage.Get(id);
      if before.None? { return Some(NotFound); }
      error := ReplaceStored(id, before.value, td, now);
    }

    method Patch(id: string, patch: Option<Members>, now: Time) returns (error: Option<Error>)
      modifies this`listened, storage
      ensures Follows(PatchIn(env, old(storage.db), id, patch, now), old(storage.db), old(listened), error)
    {
      var before := storage.Get(id);
      if before.None? { return Some(NotFound); }
      if patch.None? { return Some(Internal); }
      error := ReplaceStored(id, before.value, Patched(before.value, patch.value), now);
    }

    method Delete(id: string) returns (error: Option<Error>)
      modifies this`listened, storage
      ensures Follows(DeleteFrom(old(storage.db), id), old(storage.db), old(listened), error)
    {
      var before := storage.Get(id);
      if before.None? { return Some(NotFound); }
      var e := storage.Delete(id);
      listened := listened + [Deleted(before.value)];
      error := None;
    }

    /** All TDs, page by page. */
    method ListAll() returns (items: seq<Option<Members>>, total: nat)
      ensures total == |storage.db| && |items| == total
      ensures forall i | 0 <= i < total :: items[i] == Some(S.Contents(storage.db)[i])
      ensures S.ListsAll(storage.db, items)
    {
      hide S.Contents, S.ListsAll, S.ListsPage;
      ghost var all := S.Contents(storage.db);
      items := [];
      var p := 1;
      var pp := S.MAX_PER_PAGE;
      while true
        invariant p >= 1 && (p - 1) * pp <= |all| && |items| == S.AtMost((p - 1) * pp, |all|)
        invariant p > 1 ==> (p - 1) * pp < |all|
        invariant forall i | 0 <= i < |items| :: items[i] == Some(all[i])
        decreases |all| + 1 - p
      {
        var slice, n := storage.List(p, pp);
        S.LowHigh(p, pp, |all|);
        items := items + slice.value;
        if p * pp >= n {
          S.AllAreListed(storage.db, items);
          return items, n;
        }
        p := p + 1;
      }
    }

    /** One tick of the expiry sweep: collect what has expired, then delete it by its ID. It emits
        nothing. On a good store nothing panics, and a TD goes exactly if its expiry is in the past. */
    method CleanExpired(t: Time, ghost born: map<string, Time>, ghost clock: Time)
      returns (panicked: bool, ghost removed: nat)
      modifies storage
      ensures removed <= |Collected(env, old(storage.db), Scan(old(storage.db), ALL), t)|
      ensures storage.db == RemoveAll(old(storage.db),
                                      Collected(env, old(storage.db), Scan(old(storage.db), ALL), t)[..removed])
      ensures GoodStore(env, old(storage.db), born, clock) ==> !panicked && storage.db == Swept(env, old(storage.db), t)
      ensures GoodStore(env, old(storage.db), born, clock) ==>
                && (forall id :: id in storage.db <==> id in old(storage.db) && !Overdue(env, old(storage.db)[id], t))
                && (forall id | id in storage.db :: storage.db[id] == old(storage.db)[id])
    {
      hide Collected, Swept, Read, GoodStore, Scan, Less, Sorted;
      var expired, bad := CollectExpired(t);
      removed := 0;
      if !bad { panicked, removed := RemoveCollected(expired); }
      if GoodStore(env, old(storage.db), born, clock) {
        NothingPanics(env, old(storage.db), born, clock, t);
        assert expired[..|expired|] == expired;
        SweptIsRemoved(env, old(storage.db), born, clock, t);
        SweptMeans(env, old(storage.db), t);
      }
      panicked := bad || panicked;
    }

    /** The scan of a sweep: the expired TDs in key order, or a panic at a registration that cannot be
        read. */
    method CollectExpired(t: Time) returns (expired: seq<Members>, panicked: bool)
      ensures panicked <==> exists id :: id in storage.db && Read(env, storage.db[id]).Panic?
      ensures !panicked ==> expired == Collected(env, storage.db, Scan(storage.db, ALL), t)
      ensures !panicked ==>
                forall td: Members ::
                  td in expired <==> exists id :: id in storage.db && storage.db[id] == td && Overdue(env, td, t)
      ensures !panicked ==> exists ids :: InKeyOrder(storage.db, ids, expired)
    {
      hide Read, Scan, Less, Sorted, Range.Contains, Overdue, InKeyOrder;
      ghost var ids := CollectedInOrder(env, storage.db, t);
      ScansAll(storage.db);
      CollectedMeans(env, storage.db, Scan(storage.db, ALL), t);
      var iter := Scan(storage.db, ALL);
      expired := [];
      for i := 0 to |iter|
        invariant expired == Collected(env, storage.db, iter[..i], t)
        invariant forall k | 0 <= k < i :: !Read(env, storage.db[iter[k]]).Panic?
      {
        assert iter[i] in iter;
        assert iter[..i + 1][..i] == iter[..i];
        var td := storage.db[iter[i]];
        var r := Read(env, td);
        if r.Panic? { return [], true; }
        if r.Found? && r.tr.expires.Some? && IsAfter(t, r.tr.expires.value) {
          expired := expired + [td];
        }
      }
      assert iter[..|iter|] == iter;
      forall id | id in storage.db ensures !Read(env, storage.db[id]).Panic? { assert id in iter; }
      panicked := false;
    }

    /** The deletions of a sweep, up to a TD without an ID, at which it panics. */
    method RemoveCollected(expired: seq<Members>) returns (panicked: bool, ghost removed: nat)
      modifies storage
      ensures removed <= |expired| && storage.db == RemoveAll(old(storage.db), expired[..removed])
      ensures panicked <==> removed < |expired|
      ensures panicked ==> !HasStringId(expired[removed])
    {
      removed := 0;
      for i := 0 to |expired|
        invariant removed == i && storage.db == RemoveAll(old(storage.db), expired[..i])
      {
        panicked := DeleteCollected(expired[i]);
        if panicked { return; }
        assert expired[..i + 1][..i] == expired[..i];
        removed := i + 1;
      }
      panicked := false;
    }

    method DeleteCollected(td: Members) returns (panicked: bool)
      modifies storage
      ensures panicked <==> !HasStringId(td)
      ensures storage.db == RemoveOne(old(storage.db), td)
    {
      if "id" !in td || !td["id"].Str? { return true; }
      var e := storage.Delete(td["id"].s);
      panicked := false;
    }
  }

  predicate HasStringId(td: Members) { "id" in td && td["id"].Str? }

  /** What a sweep collects: the expired TDs among some keys, in order. */
  function Collected(env: Env, store: Store, ids: seq<string>, t: Time): seq<Members> {
    if ids == [] then []
    else
      var n := |ids| - 1;
      Collected(env, store, ids[..n], t)
        + if ids[n] in store && IsExpired(env, store[ids[n]], t) then [store[ids[n]]] else []
  }

  /** One deletion of a sweep, whatever the store has become since the sweep collected. */
  function RemoveOne(store: Store, td: Members): Store {
    if HasStringId(td) then store - {td["id"].s} else store
  }

  function RemoveAll(store: Store, tds: seq<Members>): Store {
    if tds == [] then store else RemoveOne(RemoveAll(store, tds[..|tds| - 1]), tds[|tds| - 1])
  }

  lemma SweptMeans(env: Env, store: Store, t: Time)
    ensures forall id :: id in Swept(env, store, t) <==> id in store && !Overdue(env, store[id], t)
    ensures forall id | id in Swept(env, store, t) :: Swept(env, store, t)[id] == store[id]
  {
    hide IsExpired, Overdue;
    forall id | id in store ensures IsExpired(env, store[id], t) <==> Overdue(env, store[id], t) {
      ExpiredMeans(env, store[id], t);
    }
  }

  lemma {:induction false} CollectedMeans(env: Env, store: Store, ids: seq<string>, t: Time)
    ensures forall td: Members ::
              td in Collected(env, store, ids, t)
              <==> exists id :: id in ids && id in store && store[id] == td && Overdue(env, td, t)
  {
    hide IsExpired, Overdue;
    if ids != [] {
      var n := |ids| - 1;
      CollectedMeans(env, store, ids[..n], t);
      assert ids == ids[..n] + [ids[n]];
      if ids[n] in store { ExpiredMeans(env, store[ids[n]], t); }
    }
  }

  /** TDs of the store under keys that go up. */
  ghost predicate InKeyOrder(store: Store, ids: seq<string>, tds: seq<Members>) {
    && |ids| == |tds|
    && (forall i | 0 <= i < |ids| :: ids[i] in store && tds[i] == store[ids[i]])
    && (forall i, j | 0 <= i < j < |ids| :: Precedes(ids[i], ids[j]))
  }

  /** A sweep collects in the order of the keys. */
  lemma CollectedInOrder(env: Env, store: Store, t: Time) returns (ids: seq<string>)
    ensures InKeyOrder(store, ids, Collected(env, store, Scan(store, ALL), t))
  {
    hide Less, Precedes, Scan, Collected;
    ScanInOrder(store, ALL);
    ids := CollectedPart(env, store, Scan(store, ALL), t);
  }

  lemma {:induction false} CollectedPart(env: Env, store: Store, keys: seq<string>, t: Time) returns (ids: seq<string>)
    requires forall i, j | 0 <= i < j < |keys| :: Precedes(keys[i], keys[j])
    ensures InKeyOrder(store, ids, Collected(env, store, keys, t)) && forall id | id in ids :: id in keys
  {
    hide Precedes, IsExpired;
    if keys == [] {
      ids := [];
    } else {
      var n := |keys| - 1;
      ids := CollectedPart(env, store, keys[..n], t);
      assert forall id | id in ids :: Precedes(id, keys[n]);
      if keys[n] in store && IsExpired(env, store[keys[n]], t) { ids := ids + [keys[n]]; }
    }
  }

  lemma ScansAll(store: Store)
    ensures forall id :: id in Scan(store, ALL) <==> id in store
  {
  }

  /** What is collected from a good store is under its own ID there. */
  lemma {:induction false} CollectedIsGood(env: Env, store: Store, born: map<string, Time>, clock: Time,
                                           ids: seq<string>, t: Time)
    requires GoodStore(env, store, born, clock)
    ensures forall td: Members | td in Collected(env, store, ids, t) ::
              && HasStringId(td) && td["id"].s in ids
              && td["id"].s in store && store[td["id"].s] == td && IsExpired(env, td, t)
  {
    hide GoodStore, Read, IsExpired;
    if ids != [] {
      var n := |ids| - 1;
      CollectedIsGood(env, store, born, clock, ids[..n], t);
      if ids[n] in store { GoodTd(env, store, born, clock, ids[n]); }
    }
  }

  lemma NothingPanics(env: Env, store: Store, born: map<string, Time>, clock: Time, t: Time)
    requires GoodStore(env, store, born, clock)
    ensures forall id | id in store :: !Read(env, store[id]).Panic?
    ensures forall td: Members | td in Collected(env, store, Scan(store, ALL), t) :: HasStringId(td)
  {
    hide Read, Collected;
    forall id | id in store ensures !Read(env, store[id]).Panic? { GoodTd(env, store, born, clock, id); }
    CollectedIsGood(env, store, born, clock, Scan(store, ALL), t);
  }

  function Without(env: Env, store: Store, ids: seq<string>, t: Time): Store {
    map id | id in store && !(id in ids && IsExpired(env, store[id], t)) :: store[id]
  }

  lemma {:induction false} RemovesCollected(env: Env, store: Store, born: map<string, Time>, clock: Time,
                                            ids: seq<string>, t: Time)
    requires GoodStore(env, store, born, clock)
    ensures RemoveAll(store, Collected(env, store, ids, t)) == Without(env, store, ids, t)
  {
    hide GoodStore, Read, IsExpired;
    if ids == [] {
      assert Without(env, store, ids, t) == store;
    } else {
      var n := |ids| - 1;
      RemovesCollected(env, store, born, clock, ids[..n], t);
      var before, id := Collected(env, store, ids[..n], t), ids[n];
      if id in store && IsExpired(env, store[id], t) {
        GoodTd(env, store, born, clock, id);
        assert (before + [store[id]])[..|before|] == before;
        assert Without(env, store, ids[..n], t) - {id} == Without(env, store, ids, t);
      } else {
        assert before + [] == before;
        assert Without(env, store, ids[..n], t) == Without(env, store, ids, t);
      }
    }
  }

  /** Deleting all that was collected from a good store is what sweeping it means. */
  lemma SweptIsRemoved(env: Env, store: Store, born: map<string, Time>, clock: Time, t: Time)
    requires GoodStore(env, store, born, clock)
    ensures RemoveAll(store, Collected(env, store, Scan(store, ALL), t)) == Swept(env, store, t)
  {
    hide GoodStore, IsExpired, RemoveAll, Collected;
    RemovesCollected(env, store, born, clock, Scan(store, ALL), t);
    ScansAll(store);
  }

  lemma GoodTd(env: Env, store: Store, born: map<string, Time>, clock: Time, id: string)
    requires GoodStore(env, store, born, clock) && id in store
    ensures Read(env, store[id]).Found? && "id" in store[id] && store[id]["id"] == Str(id)
  {
    assert Good(env, id, store[id], born[id], clock);
  }
}
