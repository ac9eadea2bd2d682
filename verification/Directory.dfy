/**
 The whole directory: requests change the store, each one's event goes through the notification
 protocol under any schedule, and one subscriber comes and goes and rebuilds the store from what it
 receives. A request waits until the listeners of the one before are done; nothing else waits.
 */
module Directory {
  import opened EventQueue
  import opened EventLog
  import opened Mirror
  import opened Protocol
  import opened Registration
  import opened Replays
  import Seam
  import Sessions
  import C = Catalog
  import T = Http
  import V = Visits

  /** The store with its history (when each TD was added, and the clock); what its listeners are still to
      be told; the server's notifications and the subscriber; and how it all began. */
  datatype Directory = Directory(store: Store, born: map<string, Time>, clock: Time, told: seq<C.Emission>,
                                 world: V.World, origin: Store, opening: nat)

  datatype Happening =
    | Request(req: T.Request, now: Time)
    | Move(move: V.Move)

  /** Requests are null-free and keep the ID, sweeps remove nothing, and listeners are done before the
      next request: told, and returned from storing the event. The handler may lag behind. */
  predicate CanHappen(env: Env, me: Subscriber, d: Directory, e: Happening) {
    match e
    case Request(req, now) =>
      && d.told == [] && d.world.state.flight == map[]
      && d.clock.nanos <= now.nanos && T.KeepsId(req) && NullFree(req)
      && (req.Sweep? ==> forall id | id in d.store :: !C.IsExpired(env, d.store[id], now))
    case Move(move) =>
      && V.CanMove(me, d.world, move)
      && (move.Server? && move.step.Allocate? ==>
            d.told != [] && move.step.kind == KindOf(d.told[0]) && move.step.data == DataOf(d.told[0]))
  }

  function Happen(env: Env, me: Subscriber, d: Directory, e: Happening): Directory
    requires CanHappen(env, me, d, e)
  {
    match e
    case Request(req, now) =>
      var h := T.Serve(env, d.store, req, now);
      d.(store := h.store, born := T.Births(d.born, h.told, now), clock := now, told := h.told)
    case Move(move) =>
      d.(world := V.Next(me, d.world, move), told := if move.Server? && move.step.Allocate? then [] else d.told)
  }

  ghost predicate Opening(env: Env, d: Directory) {
    && C.GoodStore(env, d.store, d.born, d.clock) && AllClean(d.store) && d.told == [] && d.origin == d.store
    && V.Start(d.world) && d.opening == |d.world.state.issued|
  }

  /** The store as it was after the first n events of the log. */
  function StoreAt(d: Directory, n: nat): Store
    requires d.opening <= n <= |d.world.state.issued|
  {
    ApplyAll(d.origin, d.world.state.issued[d.opening..n])
  }

  /** The store as it was when the handler had taken the last event before the subscriber began. */
  function Base(d: Directory): Store
    requires d.opening <= d.world.first <= |d.world.state.issued|
  {
    StoreAt(d, d.world.first)
  }

  /** The store is what the log makes of the opening store, but for what listeners are still to be told. */
  ghost predicate Consistent(env: Env, d: Directory) {
    && C.GoodStore(env, d.store, d.born, d.clock)
    && AllClean(d.store)
    && |d.told| <= 1
    && d.opening <= d.world.first && d.opening <= |d.world.state.consumed| && d.opening <= |d.world.state.issued|
    && Told(StoreAt(d, |d.world.state.issued|), d.told) == d.store
  }

  predicate WantsAll(me: Subscriber) {
    me.diff && Create in me.types && Update in me.types && Delete in me.types
  }

  /** Such a subscriber is sent the events as they are. */
  lemma {:induction false} ProjectAll(me: Subscriber, items: seq<Item>)
    requires WantsAll(me)
    ensures Project(me, items) == items
  {
    if items != [] {
      var last := items[|items| - 1];
      ProjectAll(me, items[..|items| - 1]);
      assert last.kind == Create || last.kind == Update || last.kind == Delete;
      assert last.kind in me.types && last.(data := last.data) == last;
      assert items == items[..|items| - 1] + [last];
    }
  }

  /** Immediate repeats do no harm. */
  lemma {:induction false} ApplyDedup(mirror: Store, items: seq<Item>)
    ensures ApplyAll(mirror, V.Dedup(items)) == ApplyAll(mirror, items)
  {
    hide ApplyEvent;
    if items != [] {
      var n := |items| - 1;
      ApplyDedup(mirror, items[..n]);
      if n > 0 && items[n - 1] == items[n] {
        var before := ApplyAll(mirror, items[..n][..n - 1]);
        ApplyTwice(before, items[n].kind, items[n].data);
      } else {
        ApplyOne(mirror, V.Dedup(items[..n]), items[n]);
      }
    }
  }

  // ---------- the store and the log ----------

  lemma RequestKeepsConsistent(env: Env, me: Subscriber, d: Directory, e: Happening)
    requires Lawful(env) && Consistent(env, d) && CanHappen(env, me, d, e) && e.Request?
    ensures Consistent(env, Happen(env, me, d, e))
  {
    hide T.Serve, AllClean, C.GoodStore, ApplyAll, T.Births, Carries, Lawful, ApplyEvent;
    NullFreeCarries(env, d.store, d.born, d.clock, e.req, e.now);
    MirrorFollows(env, d.store, d.born, d.clock, e.req, e.now);
    T.ServeKeepsGood(env, d.store, d.born, d.clock, e.req, e.now);
  }

  lemma MoveKeepsConsistent(env: Env, me: Subscriber, d: Directory, e: Happening)
    requires Consistent(env, d) && CanHappen(env, me, d, e) && e.Move?
    ensures Consistent(env, Happen(env, me, d, e))
  {
    hide AllClean, C.GoodStore, ApplyAll, ApplyEvent, V.CanMove;
    HistoryOf(me, d.world, e.move);
    var t := Happen(env, me, d, e);
    var log, grown := d.world.state.issued, t.world.state.issued;
    if e.move.Server? && e.move.step.Allocate? {
      assert grown[d.opening..] == log[d.opening..] + [grown[|log|]];
      ApplyOne(d.origin, log[d.opening..], grown[|log|]);
      assert grown[d.opening..|grown|] == grown[d.opening..] && log[d.opening..|log|] == log[d.opening..];
    } else {
      assert grown == log;
    }
  }

  /** What a move does to the histories. */
  lemma HistoryOf(me: Subscriber, w: V.World, m: V.Move)
    requires V.CanMove(me, w, m)
    ensures var t := V.Next(me, w, m);
            && |w.state.consumed| <= |t.state.consumed|
            && (t.first == w.first || t.first == |w.state.consumed|)
            && if m.Server? && m.step.Allocate?
               then |t.state.issued| == |w.state.issued| + 1 && t.state.issued[..|w.state.issued|] == w.state.issued
                    && t.state.issued[|w.state.issued|].kind == m.step.kind
                    && t.state.issued[|w.state.issued|].data == m.step.data
               else t.state.issued == w.state.issued
  {
    hide Apply, V.Reach, V.MissedBy;
    if m.Server? { Sessions.HistoryAfter(w.state, m.step); }
    if m.Arrive? { Sessions.HistoryAfter(w.state, Open(m.c, V.Me(me, w.past))); }
  }

  // ---------- whole histories ----------

  ghost predicate IsPath(env: Env, me: Subscriber, ds: seq<Directory>, es: seq<Happening>) {
    && |ds| == |es| + 1
    && forall i | 0 <= i < |es| :: CanHappen(env, me, ds[i], es[i]) && ds[i + 1] == Happen(env, me, ds[i], es[i])
  }

  ghost predicate IsHistory(env: Env, me: Subscriber, ds: seq<Directory>, es: seq<Happening>) {
    IsPath(env, me, ds, es) && Opening(env, ds[0])
  }

  lemma {:induction false} HistoryHolds(env: Env, me: Subscriber, ds: seq<Directory>, es: seq<Happening>, n: nat)
    requires Lawful(env) && IsHistory(env, me, ds, es) && n < |ds|
    ensures Consistent(env, ds[n]) && V.Exact(me, ds[n].world)
    ensures Seam.KeptSince(ds[n].world.state, ds[n].world.first)
  {
    hide Consistent, CanHappen, Happen, Opening, V.Exact, Lawful, Seam.KeptSince;
    if n == 0 {
      OpeningHolds(env, me, ds[0]);
    } else {
      HistoryHolds(env, me, ds, es, n - 1);
      if es[n - 1].Request? {
        RequestKeepsConsistent(env, me, ds[n - 1], es[n - 1]);
        SameWorld(env, me, ds[n - 1], es[n - 1]);
      } else {
        MoveKeepsConsistent(env, me, ds[n - 1], es[n - 1]);
        SameWorld(env, me, ds[n - 1], es[n - 1]);
        V.MoveKeepsExact(me, ds[n - 1].world, es[n - 1].move);
        V.MoveKeepsRetained(me, ds[n - 1].world, es[n - 1].move);
      }
    }
  }

  lemma SameWorld(env: Env, me: Subscriber, d: Directory, e: Happening)
    requires CanHappen(env, me, d, e)
    ensures e.Request? ==> Happen(env, me, d, e).world == d.world
    ensures e.Move? ==> V.CanMove(me, d.world, e.move) && Happen(env, me, d, e).world == V.Next(me, d.world, e.move)
  {
    hide V.CanMove, V.Next, T.Serve;
  }

  lemma OpeningHolds(env: Env, me: Subscriber, d: Directory)
    requires Opening(env, d)
    ensures Consistent(env, d) && V.Exact(me, d.world) && Seam.KeptSince(d.world.state, d.world.first)
  {
    hide C.GoodStore, AllClean, V.Exact, Seam.KeptSince;
    V.StartIsExact(me, d.world);
    Seam.InitialRetained(d.world.state);
    assert d.world.state.issued[d.opening..|d.world.state.issued|] == [];
  }

  // ---------- the mirror theorem ----------

  /** At any moment when the handler is idle, a mirror is the store as it was after some number of events,
      applied without those the subscriber missed; if it missed none, it is exactly that earlier store. */
  lemma MirrorShows(env: Env, me: Subscriber, ds: seq<Directory>, es: seq<Happening>, n: nat)
    requires Lawful(env) && WantsAll(me) && IsHistory(env, me, ds, es) && n < |ds|
    requires ds[n].world.state.handler.Idle?
    ensures var d, w := ds[n], ds[n].world;
            && d.opening <= w.first <= V.Extent(w) <= |w.state.issued|
            && ApplyAll(Base(d), V.Received(w))
               == ApplyAll(Base(d), V.Part(w.state.issued, w.first, V.Extent(w), w.missed))
            && (w.missed == {} ==> ApplyAll(Base(d), V.Received(w)) == StoreAt(d, V.Extent(w)))
  {
    hide Consistent, IsHistory, V.Exact, ApplyAll, V.Part, V.Dedup, V.Extent, V.Received, Project, V.Settled, Ascending;
    HistoryHolds(env, me, ds, es, n);
    var d, w := ds[n], ds[n].world;
    V.Tells(me, w);
    V.FirstBound(me, w);
    OpeningBefore(env, d);
    var part := V.Part(w.state.issued, w.first, V.Extent(w), w.missed);
    ProjectAll(me, part);
    ApplyDedup(Base(d), V.Received(w));
    if w.missed == {} {
      V.PartIsLog(w.state.issued, w.first, V.Extent(w));
      var log := w.state.issued;
      assert log[d.opening..V.Extent(w)] == log[d.opening..w.first] + log[w.first..V.Extent(w)];
      ApplyConcat(d.origin, log[d.opening..w.first], log[w.first..V.Extent(w)]);
    }
  }

  lemma OpeningBefore(env: Env, d: Directory)
    requires Consistent(env, d)
    ensures d.opening <= d.world.first && |d.told| <= 1 && d.opening <= |d.world.state.issued|
    ensures d.told == [] ==> StoreAt(d, |d.world.state.issued|) == d.store
  {
    hide ApplyAll, C.GoodStore, AllClean;
  }

  /** Every return so far was careful: not beyond the capacity, and not while a producer was late. */
  predicate AllCareful(me: Subscriber, ds: seq<Directory>, es: seq<Happening>, n: nat)
    requires n <= |es| && n <= |ds|
  {
    forall i | 0 <= i < n && es[i].Move? :: V.Careful(me, ds[i].world, es[i].move)
  }

  lemma {:induction false} CarefulMissesNothing(env: Env, me: Subscriber, ds: seq<Directory>, es: seq<Happening>,
                                                n: nat)
    requires Lawful(env) && IsHistory(env, me, ds, es) && n < |ds| && AllCareful(me, ds, es, n)
    ensures ds[n].world.missed == {}
  {
    hide CanHappen, Happen, V.Exact, V.Careful, Lawful, Consistent, Seam.KeptSince;
    if n > 0 {
      CarefulMissesNothing(env, me, ds, es, n - 1);
      HistoryHolds(env, me, ds, es, n - 1);
      SameWorld(env, me, ds[n - 1], es[n - 1]);
      if es[n - 1].Move? { V.CarefulMissesNothing(me, ds[n - 1].world, es[n - 1].move); }
    }
  }

  // ---------- from any store the client can fetch ----------

  /** How many events the changes to the store amount to so far, told or still to be told. */
  function Changes(d: Directory): nat { |d.world.state.issued| + if d.told == [] then 0 else 1 }

  /** A store of the past is the store after that many events; the last of them may still be to be told. */
  ghost predicate IsPast(d: Directory, store: Store, k: nat) {
    && d.opening <= k <= Changes(d)
    && d.opening <= |d.world.state.issued|
    && store == if k <= |d.world.state.issued| then StoreAt(d, k) else Told(StoreAt(d, |d.world.state.issued|), d.told)
  }

  lemma {:induction false} StoreIsPast(env: Env, me: Subscriber, ds: seq<Directory>, es: seq<Happening>, i: nat, n: nat)
    requires Lawful(env) && IsHistory(env, me, ds, es) && i <= n < |ds|
    ensures IsPast(ds[n], ds[i].store, Changes(ds[i]))
    decreases n
  {
    hide CanHappen, Happen, Opening, Lawful, Consistent, IsPast, V.Exact, Seam.KeptSince;
    if n == i {
      HistoryHolds(env, me, ds, es, n);
      PresentIsPast(env, ds[n]);
    } else {
      StoreIsPast(env, me, ds, es, i, n - 1);
      PastStaysPast(env, me, ds[n - 1], es[n - 1], ds[i].store, Changes(ds[i]));
    }
  }

  lemma PresentIsPast(env: Env, d: Directory)
    requires Consistent(env, d)
    ensures IsPast(d, d.store, Changes(d))
  {
    hide C.GoodStore, AllClean, ApplyAll, ApplyEvent;
  }

  lemma PastStaysPast(env: Env, me: Subscriber, d: Directory, e: Happening, store: Store, k: nat)
    requires IsPast(d, store, k) && CanHappen(env, me, d, e)
    ensures IsPast(Happen(env, me, d, e), store, k)
  {
    hide AllClean, C.GoodStore, ApplyAll, ApplyEvent, V.CanMove, V.Next, T.Serve, T.Births;
    if e.Move? {
      HistoryOf(me, d.world, e.move);
      var t := Happen(env, me, d, e);
      var log, grown := d.world.state.issued, t.world.state.issued;
      if e.move.Server? && e.move.step.Allocate? {
        SliceGrows(log, grown, d.opening, k);
        ApplyOne(d.origin, log[d.opening..|log|], grown[|log|]);
      }
    }
  }

  lemma SliceGrows<T>(log: seq<T>, grown: seq<T>, a: nat, k: nat)
    requires |grown| == |log| + 1 && grown[..|log|] == log && a <= |log| && a <= k <= |grown|
    ensures grown[a..k] == if k <= |log| then log[a..k] else log[a..|log|] + [grown[|log|]]
  {
    if k <= |log| {
      forall i | a <= i < k ensures grown[i] == log[i] { assert grown[i] == grown[..|log|][i]; }
      assert grown[a..k] == log[a..k];
    } else {
      assert grown == grown[..|log|] + [grown[|log|]];
      assert grown[a..k] == log[a..|log|] + [grown[|log|]];
    }
  }

  /** Replaying the log from any point onto the store of a later one leads to the same end. */
  lemma ReplayFromLater(d: Directory, first: nat, k: nat, n: nat)
    requires d.opening <= first <= k <= n <= |d.world.state.issued|
    ensures ApplyAll(StoreAt(d, k), d.world.state.issued[first..n]) == StoreAt(d, n)
  {
    hide ApplyAll;
    var log := d.world.state.issued;
    SlicesJoin(log, d.opening, first, k);
    SlicesJoin(log, d.opening, first, n);
    SlicesJoin(log, first, k, n);
    ApplyConcat(d.origin, log[d.opening..first], log[first..k]);
    ApplyConcat(d.origin, log[d.opening..first], log[first..n]);
    BeginningContained(log[first..k], log[first..n]);
    ReplayAbsorbs(StoreAt(d, first), log[first..k], log[first..n]);
  }

  lemma SlicesJoin<T>(log: seq<T>, a: nat, b: nat, c: nat)
    requires a <= b <= c <= |log|
    ensures log[a..c] == log[a..b] + log[b..c]
  {
  }

  lemma BeginningContained(early: seq<Item>, later: seq<Item>)
    requires early <= later
    ensures forall i | 0 <= i < |early| :: Contains(later, early[i])
  {
    forall i | 0 <= i < |early| ensures Contains(later, early[i]) { assert SameChange(early[i], later[i]); }
  }

  /** The mirror theorem. Over every history, whatever the schedule, whenever the subscriber is
      subscribed and nothing is on its way, applying all it has received, over all its connections, to any
      store it could fetch since the handler had taken no later event than when it began gives exactly the
      store: provided its returns were careful. It may be sent events twice, and the store it fetched may
      be ahead of the events it is sent. */
  lemma MirrorRebuilds(env: Env, me: Subscriber, ds: seq<Directory>, es: seq<Happening>, i: nat, n: nat)
    requires Lawful(env) && WantsAll(me) && IsHistory(env, me, ds, es) && i <= n < |ds| && AllCareful(me, ds, es, n)
    requires V.Settled(ds[n].world) && ds[n].told == [] && ds[n].world.first <= Changes(ds[i])
    ensures ApplyAll(ds[i].store, V.Received(ds[n].world)) == ds[n].store
  {
    hide Consistent, IsHistory, V.Exact, ApplyAll, V.Dedup, V.Extent, V.Received, Project, AllCareful, Ascending;
    hide Seam.KeptSince, StoreAt;
    var d, w := ds[n], ds[n].world;
    HistoryHolds(env, me, ds, es, n);
    OpeningBefore(env, d);
    ReceivedAll(env, me, ds, es, n);
    StoreIsPast(env, me, ds, es, i, n);
    ApplyDedup(ds[i].store, V.Received(w));
    ReplayFromLater(d, w.first, Changes(ds[i]), |w.state.issued|);
    assert w.state.issued[w.first..|w.state.issued|] == w.state.issued[w.first..];
  }

  /** But for repeats it has received the log from where it began. */
  lemma ReceivedAll(env: Env, me: Subscriber, ds: seq<Directory>, es: seq<Happening>, n: nat)
    requires Lawful(env) && WantsAll(me) && IsHistory(env, me, ds, es) && n < |ds| && AllCareful(me, ds, es, n)
    requires V.Settled(ds[n].world)
    ensures var w := ds[n].world;
            w.first <= |w.state.issued| && V.Dedup(V.Received(w)) == w.state.issued[w.first..]
  {
    hide Consistent, IsHistory, V.Exact, V.Dedup, V.Extent, V.Received, Project, AllCareful, Ascending, Seam.KeptSince;
    var w := ds[n].world;
    CarefulMissesNothing(env, me, ds, es, n);
    HistoryHolds(env, me, ds, es, n);
    V.Tells(me, w);
    V.FirstBound(me, w);
    var log := w.state.issued;
    V.PartIsLog(log, w.first, |log|);
    assert log[w.first..|log|] == log[w.first..];
    ProjectAll(me, log[w.first..]);
  }

  /** Any store will do that it fetches once the subscription has begun that brings its first event. */
  lemma FetchedSince(env: Env, me: Subscriber, ds: seq<Directory>, es: seq<Happening>, i: nat, n: nat)
    requires Lawful(env) && IsHistory(env, me, ds, es) && i <= n < |ds| && ds[i].world.first == ds[n].world.first
    ensures ds[n].world.first <= Changes(ds[i])
  {
    hide Consistent, IsHistory, V.Base, V.Story, Seam.KeptSince;
    HistoryHolds(env, me, ds, es, i);
    V.BaseMeans(ds[i].world.state);
  }
}
