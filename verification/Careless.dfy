/**
 A history in which one careless return spoils the mirror for good: the subscriber comes back while a
 producer is between "taken by the handler" and "written".
 */
module Careless {
  import opened Json
  import opened EventQueue
  import opened EventLog
  import opened Mirror
  import opened Protocol
  import opened Registration
  import opened Directory
  import A = Anomalies
  import C = Catalog
  import H = Hub
  import R = Replays
  import Seam
  import T = Http
  import V = Visits

  // ---------- paths ----------

  lemma Then(env: Env, me: Subscriber, a: seq<Directory>, x: seq<Happening>, b: seq<Directory>, y: seq<Happening>)
    returns (ds: seq<Directory>, es: seq<Happening>)
    requires IsPath(env, me, a, x) && IsPath(env, me, b, y) && a[|x|] == b[0]
    ensures IsPath(env, me, ds, es) && |ds| == |es| + 1 && ds[0] == a[0] && ds[|es|] == b[|y|]
  {
    hide CanHappen, Happen;
    ds, es := a + b[1..], x + y;
    forall i | 0 <= i <= |y| ensures ds[|x| + i] == b[i] {}
    forall i | 0 <= i < |es| ensures CanHappen(env, me, ds[i], es[i]) && ds[i + 1] == Happen(env, me, ds[i], es[i]) {
      if i >= |x| { assert es[i] == y[i - |x|]; }
    }
  }

  lemma OneHappens(env: Env, me: Subscriber, d: Directory, e: Happening)
    returns (ds: seq<Directory>, es: seq<Happening>)
    requires CanHappen(env, me, d, e)
    ensures IsPath(env, me, ds, es) && |ds| == |es| + 1 && ds[0] == d && ds[|es|] == Happen(env, me, d, e)
  {
    ds, es := [d, Happen(env, me, d, e)], [e];
  }

  /** Steps that concern neither the store nor the subscriber. */
  predicate Aside(step: Step) { !step.Allocate? && !step.Subscribe? && !step.Unsubscribe? }

  lemma {:induction false} StepsHappen(env: Env, me: Subscriber, d: Directory, states: seq<State>, steps: seq<Step>)
    returns (ds: seq<Directory>, es: seq<Happening>)
    requires IsRun(states, steps) && states[0] == d.world.state
    requires forall i | 0 <= i < |steps| :: Aside(steps[i])
    ensures IsPath(env, me, ds, es) && |ds| == |es| + 1 && ds[0] == d
    ensures ds[|es|] == d.(world := d.world.(state := states[|steps|]))
    decreases |steps|
  {
    hide Enabled, Apply;
    if steps == [] {
      ds, es := [d], [];
    } else {
      var n := |steps| - 1;
      var a, x := StepsHappen(env, me, d, states[..n + 1], steps[..n]);
      var e := Move(V.Server(steps[n]));
      var b, y := OneHappens(env, me, a[|x|], e);
      ds, es := Then(env, me, a, x, b, y);
    }
  }

  // ---------- a PUT of a new TD ----------

  function Plain(id: string): Members { map["id" := Str(id)] }

  function Stored(env: Env, id: string, now: Time): Members {
    WithRegistration(env, Plain(id), Registration(Some(now), Some(now), None, None))
  }

  predicate Accepts(env: Env, id: string, now: Time) {
    id != "" && env.validate(Plain(id)).Valid? && env.format(now).Some?
  }

  lemma PutAdds(env: Env, store: Store, id: string, now: Time)
    requires Accepts(env, id, now) && id !in store
    ensures var h := T.Serve(env, store, T.Put(id, T.Object(Plain(id))), now);
            h.store == store[id := Stored(env, id, now)] && h.told == [C.Created(Stored(env, id, now))]
    ensures var td := Stored(env, id, now);
            "id" in td && td["id"] == Str(id)
  {
    assert Plain(id)["id" := Str(id)] == Plain(id);
  }

  /** The handler and the readers rest, no event waits, and the listeners are done. */
  predicate Resting(d: Directory) {
    && d.told == [] && H.Safe(d.world.state) && d.world.state.handler.Idle? && d.world.state.buffer == None
    && forall x | x in d.world.state.flight :: d.world.state.flight[x] == Sent
  }

  lemma PutHappens(env: Env, me: Subscriber, d: Directory, id: string, now: Time)
    returns (ds: seq<Directory>, es: seq<Happening>)
    requires Resting(d) && d.world.state.flight == map[] && d.clock.nanos <= now.nanos && d.world.state.tape.latest < 5
    requires Accepts(env, id, now) && id !in d.store
    ensures IsPath(env, me, ds, es) && |ds| == |es| + 1 && ds[0] == d
    ensures var e, w, n := ds[|es|], ds[|es|].world, d.world.state.tape.latest + 1;
            && e.store == d.store[id := Stored(env, id, now)] && Resting(e) && e.clock == now
            && e.opening == d.opening && e.origin == d.origin && w == d.world.(state := w.state)
            && w.state.tape == NextId(d.world.state.tape) && w.state.flight == map[n := Sent]
            && w.state.issued == d.world.state.issued + [Item(n, Create, Stored(env, id, now))]
            && w.state.consumed == d.world.state.consumed + [n]
            && w.state.active == d.world.state.active && w.state.clients.Keys == d.world.state.clients.Keys
  {
    hide Apply, H.Safe, T.Serve, Plain, Stored, IsPath, T.Births, C.IsExpired;
    PutAdds(env, d.store, id, now);
    var td := Stored(env, id, now);
    PutCan(env, me, d, id, now);
    ds, es := OneHappens(env, me, d, Request(T.Put(id, T.Object(Plain(id))), now));
    var b, y := AnnounceHappens(env, me, ds[|es|], Create, td);
    ds, es := Then(env, me, ds, es, b, y);
  }

  lemma AnnounceHappens(env: Env, me: Subscriber, d: Directory, kind: EventType, data: Members)
    returns (ds: seq<Directory>, es: seq<Happening>)
    requires |d.told| == 1 && KindOf(d.told[0]) == kind && DataOf(d.told[0]) == data && Resting(d.(told := []))
    requires d.world.state.flight == map[] && d.world.state.tape.latest < 5
    ensures IsPath(env, me, ds, es) && |ds| == |es| + 1 && ds[0] == d
    ensures var e, w, n := ds[|es|], ds[|es|].world, d.world.state.tape.latest + 1;
            && e == d.(told := [], world := d.world.(state := w.state)) && Resting(e)
            && w.state.tape == NextId(d.world.state.tape) && w.state.flight == map[n := Sent]
            && w.state.issued == d.world.state.issued + [Item(n, kind, data)]
            && w.state.consumed == d.world.state.consumed + [n]
            && w.state.active == d.world.state.active && w.state.clients.Keys == d.world.state.clients.Keys
  {
    hide Apply, Enabled, H.Safe, IsPath;
    var states, steps := H.SendRuns(d.world.state, kind, data);
    ds, es := OneHappens(env, me, d, Move(V.Server(steps[0])));
    var c, z := StepsHappen(env, me, ds[|es|], states[1..], steps[1..]);
    ds, es := Then(env, me, ds, es, c, z);
    var more, next := H.TakeRuns(states[2]);
    var rest, settle := H.SettleRuns(more[1]);
    H.RunConcat(more, next, rest, settle);
    var f, u := StepsHappen(env, me, ds[|es|], more + rest[1..], next + settle);
    ds, es := Then(env, me, ds, es, f, u);
  }

  lemma PutCan(env: Env, me: Subscriber, d: Directory, id: string, now: Time)
    requires Resting(d) && d.world.state.flight == map[] && d.clock.nanos <= now.nanos
    ensures CanHappen(env, me, d, Request(T.Put(id, T.Object(Plain(id))), now))
  {
  }

  // ---------- the steps of the history ----------

  /** The events in flight are written. */
  lemma RotateHappens(env: Env, me: Subscriber, d: Directory, id: nat) returns (ds: seq<Directory>, es: seq<Happening>)
    requires Resting(d) && d.world.state.flight == map[id := Sent] && 1 <= id <= |d.world.state.issued|
    ensures IsPath(env, me, ds, es) && |ds| == |es| + 1 && ds[0] == d
    ensures var e, w := ds[|es|], ds[|es|].world;
            && e == d.(world := d.world.(state := w.state)) && Resting(e)
            && w.state == d.world.state.(flight := map[],
                                         tape := StoreItem(d.world.state.tape, d.world.state.issued[id - 1]))
  {
    hide Apply, Enabled, H.Safe, IsPath, StoreItem;
    var states, steps := H.RotateRuns(d.world.state, id);
    ds, es := StepsHappen(env, me, d, states, steps);
    assert map[id := Sent] - {id} == map[];
  }

  /** What a subscription does to the subscriber's history. */
  ghost predicate Began(me: Subscriber, w: V.World, t: V.World, c: Chan) {
    var s := t.state;
    && t.chan == Some(c) && t.past == w.past && c in s.active
    && s.tape == w.state.tape && s.flight == w.state.flight && s.issued == w.state.issued
    && s.consumed == w.state.consumed
    && s.clients.Keys == w.state.clients.Keys + {c}
    && if t.past == [] then t.first == t.left == |s.consumed| && t.missed == {} && t.repeats == 0
       else t.first == w.first && t.left == V.Reach(s, V.LastId(t.past))
            && t.missed == (set id | id in w.missed && id <= V.LastId(t.past)) + V.MissedBy(me, s, V.LastId(t.past))
  }

  /** The subscriber opens a channel and is subscribed, */
  lemma SubscribeHappens(env: Env, me: Subscriber, d: Directory, c: Chan)
    returns (ds: seq<Directory>, es: seq<Happening>)
    requires Resting(d) && d.world.chan.None? && c !in d.world.state.clients
    ensures IsPath(env, me, ds, es) && |ds| == |es| + 1 && ds[0] == d
    ensures var e := ds[|es|];
            && e == d.(world := e.world) && Began(me, d.world, e.world, c)
            && H.Safe(e.world.state) && e.world.state.buffer == None
  {
    hide Apply, H.Safe, V.Reach, V.MissedBy;
    var states, steps := H.JoinRuns(d.world.state, c, V.Me(me, d.world.past));
    assert Enabled(states[0], steps[0]) && states[1] == Apply(states[0], steps[0]);
    assert Enabled(states[1], steps[1]) && states[2] == Apply(states[1], steps[1]);
    ds, es := OneHappens(env, me, d, Move(V.Arrive(c)));
    var b, y := OneHappens(env, me, ds[|es|], Move(V.Server(Subscribe(c))));
    ds, es := Then(env, me, ds, es, b, y);
    if d.world.past != [] { SameMissed(me, states[1], states[2], V.LastId(d.world.past)); }
  }

  /** and is replayed what there is to replay. */
  lemma ArriveHappens(env: Env, me: Subscriber, d: Directory, c: Chan) returns (ds: seq<Directory>, es: seq<Happening>)
    requires Resting(d) && d.world.chan.None? && c !in d.world.state.clients
    ensures IsPath(env, me, ds, es) && |ds| == |es| + 1 && ds[0] == d
    ensures ds[|es|] == d.(world := ds[|es|].world) && Began(me, d.world, ds[|es|].world, c) && Resting(ds[|es|])
  {
    hide IsPath, Apply, H.Safe, V.Reach, V.MissedBy;
    ds, es := SubscribeHappens(env, me, d, c);
    var w := ds[|es|].world;
    var rest, settle := H.SettleRuns(w.state);
    var f, u := StepsHappen(env, me, ds[|es|], rest, settle);
    ds, es := Then(env, me, ds, es, f, u);
    if w.past != [] { SameMissed(me, w.state, ds[|es|].world.state, V.LastId(w.past)); }
  }

  lemma SameMissed(me: Subscriber, s: State, t: State, L: nat)
    requires s.tape == t.tape && s.issued == t.issued && s.consumed == t.consumed
    ensures V.Reach(s, L) == V.Reach(t, L) && V.MissedBy(me, s, L) == V.MissedBy(me, t, L)
  {
  }

  // ---------- the history ----------

  /** An empty directory, a new queue, and a subscriber that has not come yet. */
  function New(capacity: nat, now: Time): Directory {
    Directory(map[], map[], now, [], V.World(A.Empty(capacity), None, [], 0, 0, {}, 0), map[], 0)
  }

  lemma NewIsOpening(env: Env, capacity: nat, now: Time)
    ensures Opening(env, New(capacity, now)) && Resting(New(capacity, now))
  {
    A.EmptyIsSafe(capacity);
  }

  function ItemA(env: Env, now: Time): Item { Item(1, Create, Stored(env, "a", now)) }
  function ItemB(env: Env, now: Time): Item { Item(2, Create, Stored(env, "b", now)) }

  /** The subscriber has been told of "a" on its first channel; the event is stored. */
  ghost predicate ToldA(env: Env, capacity: nat, now: Time, d: Directory) {
    var w, s := d.world, d.world.state;
    && Resting(d) && d.store == map["a" := Stored(env, "a", now)] && d.clock == now
    && d.opening == 0 && d.origin == map[]
    && w.chan == Some(0) && w.past == [] && w.first == w.left == 0 && w.missed == {} && w.repeats == 0
    && s.flight == map[] && s.issued == [ItemA(env, now)] && s.consumed == [1] && 0 in s.active && s.clients.Keys == {0}
    && s.tape == StoreItem(Tape(map[], 1, capacity), ItemA(env, now)) && s.tape.latest == 1
  }

  lemma FirstVisit(env: Env, me: Subscriber, capacity: nat, now: Time) returns (ds: seq<Directory>, es: seq<Happening>)
    requires Accepts(env, "a", now)
    ensures IsPath(env, me, ds, es) && |ds| == |es| + 1 && ds[0] == New(capacity, now)
    ensures ToldA(env, capacity, now, ds[|es|])
  {
    hide IsPath, H.Safe, Stored, Opening, V.Reach, V.MissedBy;
    NewIsOpening(env, capacity, now);
    ds, es := ArriveHappens(env, me, New(capacity, now), 0);
    var b, y := PutHappens(env, me, ds[|es|], "a", now);
    ds, es := Then(env, me, ds, es, b, y);
    var c, z := RotateHappens(env, me, ds[|es|], 1);
    ds, es := Then(env, me, ds, es, c, z);
  }

  /** What it has been told can be read off its story. */
  lemma HasReceivedA(env: Env, me: Subscriber, capacity: nat, now: Time, ds: seq<Directory>, es: seq<Happening>)
    requires Lawful(env) && WantsAll(me) && IsHistory(env, me, ds, es) && |ds| == |es| + 1
    requires ToldA(env, capacity, now, ds[|es|])
    ensures V.OnLine(ds[|es|].world) == [ItemA(env, now)]
  {
    hide IsHistory, V.Base, V.Client, V.Dedup, Ascending, Project, Consistent, H.Safe, Seam.KeptSince, StoreItem;
    var w := ds[|es|].world;
    HistoryHolds(env, me, ds, es, |es|);
    V.Tells(me, w);
    V.PartIsLog(w.state.issued, 0, 1);
    ProjectAll(me, [ItemA(env, now)]);
    V.DedupLast(V.Received(w));
    assert [] + V.OnLine(w) == V.OnLine(w);
  }

  /** The subscriber has come back on another channel and has been sent nothing; "b" is stored by now. */
  ghost predicate MissedB(env: Env, now: Time, d: Directory) {
    var w, s := d.world, d.world.state;
    && Resting(d) && d.store == map["a" := Stored(env, "a", now), "b" := Stored(env, "b", now)]
    && d.opening == 0 && d.origin == map[]
    && w.chan == Some(1) && w.first == 0 && w.left == 2 && w.missed == {2} && 1 in s.active
    && s.flight == map[] && s.issued == [ItemA(env, now), ItemB(env, now)] && s.consumed == [1, 2]
  }

  /** It has left, and "b" has been taken by the handler and not yet been written. */
  ghost predicate AwayAtB(env: Env, capacity: nat, now: Time, d: Directory) {
    var w, s := d.world, d.world.state;
    && Resting(d) && d.store == map["a" := Stored(env, "a", now), "b" := Stored(env, "b", now)]
    && d.opening == 0 && d.origin == map[]
    && w.chan.None? && w.past == [ItemA(env, now)] && w.first == 0 && w.missed == {}
    && s.flight == map[2 := Sent] && s.issued == [ItemA(env, now), ItemB(env, now)] && s.consumed == [1, 2]
    && s.clients.Keys == {0} && s.tape == NextId(StoreItem(Tape(map[], 1, capacity), ItemA(env, now)))
  }

  lemma LeavesBeforeB(env: Env, me: Subscriber, capacity: nat, now: Time, d: Directory)
    returns (ds: seq<Directory>, es: seq<Happening>)
    requires ToldA(env, capacity, now, d) && V.OnLine(d.world) == [ItemA(env, now)] && Accepts(env, "b", now)
    ensures IsPath(env, me, ds, es) && |ds| == |es| + 1 && ds[0] == d && AwayAtB(env, capacity, now, ds[|es|])
  {
    hide IsPath, H.Safe, Stored, StoreItem, V.OnLine;
    var e := Move(V.Leave(1));
    assert V.OnLine(d.world)[..1] == [ItemA(env, now)] && [] + [ItemA(env, now)] == [ItemA(env, now)];
    ds, es := OneHappens(env, me, d, e);
    var b, y := PutHappens(env, me, ds[|es|], "b", now);
    ds, es := Then(env, me, ds, es, b, y);
  }

  lemma SecondVisit(env: Env, me: Subscriber, capacity: nat, now: Time, d: Directory)
    returns (ds: seq<Directory>, es: seq<Happening>)
    requires WantsAll(me) && AwayAtB(env, capacity, now, d)
    ensures IsPath(env, me, ds, es) && |ds| == |es| + 1 && ds[0] == d && MissedB(env, now, ds[|es|])
  {
    hide IsPath, H.Safe, Stored, StoreItem, V.Reach, V.MissedBy;
    ds, es := ArriveHappens(env, me, d, 1);
    BMissed(env, me, capacity, now, ds[|es|].world.state);
    var f, u := RotateHappens(env, me, ds[|es|], 2);
    ds, es := Then(env, me, ds, es, f, u);
  }

  lemma BMissed(env: Env, me: Subscriber, capacity: nat, now: Time, s: State)
    requires WantsAll(me) && s.issued == [ItemA(env, now), ItemB(env, now)] && s.consumed == [1, 2]
    requires s.tape == NextId(StoreItem(Tape(map[], 1, capacity), ItemA(env, now)))
    ensures V.Reach(s, 1) == 2 && V.MissedBy(me, s, 1) == {2}
  {
    assert s.tape.stored.Keys <= {1};
  }

  /** After one careless return the mirror is not the store, and nothing is on its way that could mend it. It
      happens with any capacity: the event is missed although it is stored a moment later. */
  lemma CarelessReturnSpoils(env: Env, me: Subscriber, capacity: nat, now: Time)
    returns (ds: seq<Directory>, es: seq<Happening>)
    requires Lawful(env) && WantsAll(me) && Accepts(env, "a", now) && Accepts(env, "b", now)
    ensures IsHistory(env, me, ds, es) && |ds| == |es| + 1
    ensures var d := ds[|es|];
            && V.Settled(d.world) && d.told == [] && "b" in d.store
            && ApplyAll(ds[0].store, V.Received(d.world)) == d.store - {"b"}
  {
    hide Opening, IsPath, V.Received, Stored;
    NewIsOpening(env, capacity, now);
    ds, es := FirstVisit(env, me, capacity, now);
    HasReceivedA(env, me, capacity, now, ds, es);
    var b, y := LeavesBeforeB(env, me, capacity, now, ds[|es|]);
    ds, es := Then(env, me, ds, es, b, y);
    var c, z := SecondVisit(env, me, capacity, now, ds[|es|]);
    ds, es := Then(env, me, ds, es, c, z);
    MirrorShows(env, me, ds, es, |es|);
    MirrorIsA(env, me, now, ds[|es|]);
  }

  lemma MirrorIsA(env: Env, me: Subscriber, now: Time, d: Directory)
    requires MissedB(env, now, d)
    ensures V.Extent(d.world) == 2 && Base(d) == map[]
    ensures ApplyAll(map[], V.Part(d.world.state.issued, 0, 2, {2})) == d.store - {"b"}
  {
    hide Stored;
    var a := ItemA(env, now);
    assert V.Part(d.world.state.issued, 0, 1, {2}) == [a];
    assert V.Part(d.world.state.issued, 0, 2, {2}) == [a];
    assert d.world.state.issued[0..0] == [];
    R.ApplyOne(map[], [], a);
    StoredHasId(env, "a", now);
    assert d.store - {"b"} == map["a" := Stored(env, "a", now)];
  }

  lemma StoredHasId(env: Env, id: string, now: Time)
    ensures "id" in Stored(env, id, now) && Stored(env, id, now)["id"] == Str(id)
  {
  }
}
