/**
 One subscriber that comes and goes while the protocol runs, one producer at a time but under any
 schedule. Every time it comes back it sends the last ID it has seen.
 */
module Visits {
  import opened Json
  import opened Ids
  import opened EventLog
  import opened Protocol
  import opened Seam
  import opened Sessions
  import H = Hub

  /** The server; and the subscriber: its channel while it has one, and what earlier connections brought
      it. As history: where in the log it began, how far the log is covered, which wanted events it was
      not sent, and how many of its subscriptions found an event that would come again. */
  datatype World = World(state: State, chan: Option<Chan>, past: seq<Item>,
                         first: nat, left: nat, missed: set<nat>, repeats: nat)

  /** Any step of the server, the subscriber's arrival, and its departure after it has received some of
      what was sent on its channel. */
  datatype Move = Server(step: Step) | Arrive(c: Chan) | Leave(got: nat)

  function OnLine(w: World): seq<Item> {
    if w.chan.Some? && w.chan.value in w.state.delivered then w.state.delivered[w.chan.value] else []
  }

  function Received(w: World): seq<Item> { w.past + OnLine(w) }

  /** The header sent on returning. */
  function LastSeen(past: seq<Item>): Resume {
    if past == [] || past[|past| - 1].id >= WORD then Fresh else After(past[|past| - 1].id)
  }

  function Me(me: Subscriber, past: seq<Item>): Subscriber { me.(resume := LastSeen(past)) }

  predicate Subscribed(w: World) { w.chan.Some? && w.chan.value in w.state.active }

  predicate CanMove(me: Subscriber, w: World, m: Move) {
    match m
    case Server(step) => Enabled(w.state, step) && (step.Allocate? ==> w.state.flight == map[])
    case Arrive(c) => w.chan.None? && Enabled(w.state, Open(c, Me(me, w.past)))
    case Leave(got) => w.chan.Some? && got <= |OnLine(w)|
  }

  /** The wanted events above an ID that a subscription neither replays nor will be sent. */
  function MissedBy(me: Subscriber, s: State, L: nat): set<nat> {
    set id | id in Lost(s, L) && 1 <= id <= |s.issued| && s.issued[id - 1].kind in me.types
  }

  /** How far the log is covered once a subscription has replayed what is above an ID. */
  function Reach(s: State, L: nat): nat {
    var next := |s.consumed| + 1;
    if next > L && next in s.tape.stored then next else if L > |s.consumed| then L else |s.consumed|
  }

  function LastId(items: seq<Item>): nat
    requires items != []
  {
    items[|items| - 1].id
  }

  function Next(me: Subscriber, w: World, m: Move): World
    requires CanMove(me, w, m)
  {
    match m
    case Server(step) =>
      var w' := w.(state := Apply(w.state, step));
      var taken := |w.state.consumed|;
      if step.Subscribe? && w.chan == Some(step.c) then
        if w.past == [] then w'.(first := taken, left := taken, missed := {}, repeats := 0)
        else
          var L := LastId(w.past);
          w'.(left := Reach(w.state, L),
              missed := (set id | id in w.missed && id <= L) + MissedBy(me, w.state, L),
              repeats := w.repeats + if Reach(w.state, L) > taken then 1 else 0)
      else if step.Unsubscribe? && w.chan == Some(step.c) then w'.(left := Extent(w))
      else w'
    case Arrive(c) => w.(state := Apply(w.state, Open(c, Me(me, w.past))), chan := Some(c))
    case Leave(got) =>
      var past := w.past + OnLine(w)[..got];
      w.(chan := None, past := past, left := if past == [] then w.first else LastId(past))
  }

  /** How much of the log has been sent to the subscriber, or is about to be. */
  function Extent(w: World): nat {
    if Subscribed(w) && |w.state.consumed| > w.left then |w.state.consumed| else w.left
  }

  ghost predicate Start(w: World) {
    && Initial(w.state) && w.state.tape.latest + 1 < WORD
    && w.chan.None? && w.past == [] && w.first == w.left == |w.state.consumed| && w.missed == {} && w.repeats == 0
  }

  // ---------- sequences with repeats ----------

  /** Without the immediate repeats. */
  function Dedup(items: seq<Item>): seq<Item> {
    if items == [] then []
    else
      var n := |items| - 1;
      if n > 0 && items[n - 1] == items[n] then Dedup(items[..n]) else Dedup(items[..n]) + [items[n]]
  }

  lemma DedupSnoc(items: seq<Item>, x: Item)
    ensures Dedup(items + [x]) == if items != [] && items[|items| - 1] == x then Dedup(items) else Dedup(items) + [x]
  {
    assert (items + [x])[..|items|] == items;
  }

  /** Nothing is a repeat among events that go up in ID. */
  lemma {:induction false} DedupFresh(items: seq<Item>, more: seq<Item>)
    requires Ascending(more) && (items != [] && more != [] ==> LastId(items) < more[0].id)
    ensures Dedup(items + more) == Dedup(items) + more
  {
    hide Dedup;
    if more == [] {
      assert items + more == items && Dedup(items) + more == Dedup(items);
    } else {
      var n := |more| - 1;
      DedupFresh(items, more[..n]);
      assert items + more == items + more[..n] + [more[n]];
      DedupSnoc(items + more[..n], more[n]);
      assert Dedup(items) + more[..n] + [more[n]] == Dedup(items) + more;
    }
  }

  /** A prefix has no more repeats than the whole. */
  lemma {:induction false} DedupPrefix(items: seq<Item>, k: nat)
    requires k <= |items|
    ensures Dedup(items[..k]) <= Dedup(items)
    ensures k - |Dedup(items[..k])| <= |items| - |Dedup(items)|
  {
    if k == |items| {
      assert items[..k] == items;
    } else {
      var n := |items| - 1;
      DedupPrefix(items[..n], k);
      assert items[..n][..k] == items[..k];
    }
  }

  lemma {:induction false} DedupLast(items: seq<Item>)
    ensures |Dedup(items)| <= |items|
    ensures items != [] ==> Dedup(items) != [] && Dedup(items)[|Dedup(items)| - 1] == items[|items| - 1]
    ensures |Dedup(items)| == |items| ==> Dedup(items) == items
  {
    if items != [] {
      var n := |items| - 1;
      DedupLast(items[..n]);
      assert items == items[..n] + [items[n]];
    }
  }

  // ---------- parts of the log ----------

  /** The events of the log in (lo, hi] without some. */
  function Part(log: seq<Item>, lo: nat, hi: nat, without: set<nat>): seq<Item>
    requires hi <= |log|
    decreases hi
  {
    if hi <= lo then []
    else Part(log, lo, hi - 1, without) + if hi in without then [] else [log[hi - 1]]
  }

  lemma {:induction false} PartSplit(log: seq<Item>, a: nat, b: nat, c: nat, without: set<nat>)
    requires a <= b <= c <= |log|
    ensures Part(log, a, c, without) == Part(log, a, b, without) + Part(log, b, c, without)
    decreases c
  {
    if b == c {
      assert Part(log, a, c, without) + [] == Part(log, a, c, without);
    } else {
      PartSplit(log, a, b, c - 1, without);
    }
  }

  /** Without exceptions it is the log itself. */
  lemma {:induction false} PartIsLog(log: seq<Item>, lo: nat, hi: nat)
    requires lo <= hi <= |log|
    ensures Part(log, lo, hi, {}) == log[lo..hi]
    decreases hi
  {
    if hi > lo { PartIsLog(log, lo, hi - 1); }
  }

  /** The log may grow. */
  lemma {:induction false} PartGrows(log: seq<Item>, more: seq<Item>, lo: nat, hi: nat, without: set<nat>)
    requires hi <= |log|
    ensures Part(log + more, lo, hi, without) == Part(log, lo, hi, without)
    decreases hi
  {
    if hi > lo { PartGrows(log, more, lo, hi - 1, without); }
  }

  /** What a subscriber is sent of a part does not depend on exceptions it does not want. */
  lemma {:induction false} ProjectPart(me: Subscriber, log: seq<Item>, lo: nat, hi: nat, a: set<nat>, b: set<nat>)
    requires hi <= |log|
    requires forall id | lo < id <= hi && log[id - 1].kind in me.types :: id in a <==> id in b
    ensures Project(me, Part(log, lo, hi, a)) == Project(me, Part(log, lo, hi, b))
    decreases hi
  {
    if hi > lo {
      ProjectPart(me, log, lo, hi - 1, a, b);
      PartStep(me, log, lo, hi, a);
      PartStep(me, log, lo, hi, b);
    }
  }

  function Wanted(me: Subscriber, item: Item): seq<Item> {
    if item.kind in me.types then [item.(data := Trim(me, item.data))] else []
  }

  lemma PartStep(me: Subscriber, log: seq<Item>, lo: nat, hi: nat, without: set<nat>)
    requires lo < hi <= |log|
    ensures Project(me, Part(log, lo, hi, without))
         == Project(me, Part(log, lo, hi - 1, without)) + if hi in without then [] else Wanted(me, log[hi - 1])
  {
    ProjectOne(me, log[hi - 1]);
    ProjectConcat(me, Part(log, lo, hi - 1, without), [log[hi - 1]]);
    hide Project;
    var p := Part(log, lo, hi - 1, without);
    assert p + [] == p && Project(me, p) + [] == Project(me, p);
  }

  /** IDs go up, and lie within the part. */
  lemma {:induction false} PartIds(me: Subscriber, log: seq<Item>, lo: nat, hi: nat, without: set<nat>)
    requires IsLog(log) && hi <= |log|
    ensures Ascending(Project(me, Part(log, lo, hi, without)))
    ensures forall i | 0 <= i < |Project(me, Part(log, lo, hi, without))| ::
              lo < Project(me, Part(log, lo, hi, without))[i].id <= hi
    decreases hi
  {
    hide Project, Part, Wanted;
    if hi > lo {
      PartIds(me, log, lo, hi - 1, without);
      PartStep(me, log, lo, hi, without);
      WantedId(me, log, hi);
    } else {
      EmptyPart(me, log, lo, hi, without);
    }
  }

  lemma EmptyPart(me: Subscriber, log: seq<Item>, lo: nat, hi: nat, without: set<nat>)
    requires hi <= |log| && hi <= lo
    ensures Project(me, Part(log, lo, hi, without)) == []
  {
  }

  lemma WantedId(me: Subscriber, log: seq<Item>, id: nat)
    requires IsLog(log) && 1 <= id <= |log|
    ensures |Wanted(me, log[id - 1])| <= 1 && forall item | item in Wanted(me, log[id - 1]) :: item.id == id
  {
  }

  /** A prefix of what is sent of a part is what is sent up to the last event it contains. */
  lemma {:induction false} PrefixOfPart(me: Subscriber, log: seq<Item>, lo: nat, hi: nat, without: set<nat>,
                                        p: seq<Item>)
    requires IsLog(log) && hi <= |log| && p != [] && p <= Project(me, Part(log, lo, hi, without))
    ensures lo < LastId(p) <= hi && p == Project(me, Part(log, lo, LastId(p), without))
    decreases hi
  {
    hide Project, Part, IsLog, Ascending;
    PartIds(me, log, lo, hi, without);
    var whole := Project(me, Part(log, lo, hi, without));
    assert whole[0] == p[0];
    PartStep(me, log, lo, hi, without);
    var shorter := Project(me, Part(log, lo, hi - 1, without));
    if |p| <= |shorter| {
      assert p == whole[..|p|] && whole[..|shorter|] == shorter;
      PrefixOfPart(me, log, lo, hi - 1, without, p);
    } else {
      WantedId(me, log, hi);
      assert p == whole;
    }
  }

  // ---------- the server, one producer at a time ----------

  /** The handler takes the events in the order of their IDs. */
  predicate Ordered(s: State) { forall i | 0 <= i < |s.consumed| :: s.consumed[i] == i + 1 }

  ghost predicate Base(s: State) {
    H.Safe(s) && Flow(s) && Single(s) && Ordered(s) && s.tape.latest + 1 < WORD
  }

  /** The event in the Notifier is the next one. */
  lemma BufferIsNext(s: State)
    requires Flow(s) && Single(s) && Ordered(s)
    ensures s.buffer.Some? ==> s.buffer.value == |s.consumed| + 1
    ensures |s.consumed| <= s.tape.latest && (s.buffer.Some? ==> |s.consumed| + 1 <= s.tape.latest)
    ensures forall id :: id in s.consumed <==> 1 <= id <= |s.consumed|
  {
    var n := |s.consumed|;
    forall id ensures id in s.consumed <==> 1 <= id <= n {
      if 1 <= id <= n { assert s.consumed[id - 1] == id; }
    }
    if n > 0 { assert s.consumed[n - 1] == n; }
    if s.buffer.Some? { Whereabouts(s, n + 1); }
  }

  lemma OrderedStep(s: State, step: Step)
    requires Flow(s) && Single(s) && Ordered(s) && Enabled(s, step)
    ensures Ordered(Apply(s, step))
  {
    hide Flow, Single, Apply;
    BufferIsNext(s);
    HistoryAfter(s, step);
  }

  lemma BaseStep(s: State, step: Step)
    requires Base(s) && Enabled(s, step) && (step.Allocate? ==> s.flight == map[])
    ensures Base(Apply(s, step))
  {
    hide Apply, H.Safe, Flow, Single, Ordered;
    H.StepKeepsSafe(s, step);
    StepKeepsFlow(s, step);
    StepKeepsSingle(s, step);
    OrderedStep(s, step);
    HistoryAfter(s, step);
  }

  lemma BaseMeans(s: State)
    requires Base(s)
    ensures Channels(s) && Numbered(s) && Recorded(s)
    ensures Flow(s) && Single(s) && Ordered(s)
    ensures IsLog(s.issued) && |s.issued| == s.tape.latest && s.tape.latest + 1 < WORD
    ensures |s.consumed| <= |s.issued|
    ensures s.buffer.Some? ==> s.buffer.value == |s.consumed| + 1 <= |s.issued|
  {
    H.SafeMeans(s);
    BufferIsNext(s);
  }

  // ---------- the subscriber ----------

  predicate SameView(a: Subscriber, b: Subscriber) { a.types == b.types && a.diff == b.diff }

  /** Not on a channel, or its subscription is not yet taken. */
  predicate Before(w: World) { w.chan.None? || !H.Joined(w.state, w.chan.value) }

  predicate Client(me: Subscriber, w: World) {
    && (w.chan.Some? ==>
          var c := w.chan.value;
          && c in w.state.clients && c in w.state.delivered
          && SameView(me, w.state.clients[c].sub)
          && (!H.Joined(w.state, c) ==> w.state.clients[c].sub == Me(me, w.past) && w.state.delivered[c] == [])
          && (c in w.state.active ==> w.state.active[c] == w.state.clients[c].sub))
    && (Before(w) ==> w.left == if w.past == [] then w.first else LastId(w.past))
    && w.first <= w.left <= |w.state.consumed| + 1 && w.first <= |w.state.consumed|
    && (w.left == |w.state.consumed| + 1 ==> w.state.buffer == Some(w.left))
    && (forall id | id in w.missed :: id <= |w.state.consumed|)
  }

  /** What the subscriber has received and will have received before the handler is idle again. */
  function Owes(w: World): seq<Item> {
    if Subscribed(w) && w.chan.value in w.state.delivered then w.past + Owed(w.state, w.chan.value) else Received(w)
  }

  /** Whether the next event will come again. */
  function Again(w: World): nat { if Subscribed(w) && w.left == |w.state.consumed| + 1 then 1 else 0 }

  ghost predicate Story(me: Subscriber, w: World)
    requires Extent(w) <= |w.state.issued|
  {
    && Dedup(Owes(w)) == Project(me, Part(w.state.issued, w.first, Extent(w), w.missed))
    && |Owes(w)| + Again(w) <= |Dedup(Owes(w))| + w.repeats
  }

  ghost predicate Exact(me: Subscriber, w: World) {
    Base(w.state) && Client(me, w) && Extent(w) <= |w.state.issued| && Story(me, w)
  }

  lemma ExtentBound(me: Subscriber, w: World)
    requires Base(w.state) && Client(me, w)
    ensures Extent(w) <= |w.state.issued|
  {
    BaseMeans(w.state);
    hide Base, Flow, Single, Ordered, Channels, Numbered, Recorded;
  }

  lemma {:induction false} SameProjection(a: Subscriber, b: Subscriber, items: seq<Item>)
    requires SameView(a, b)
    ensures Project(a, items) == Project(b, items)
  {
    if items != [] { SameProjection(a, b, items[..|items| - 1]); }
  }

  // ---------- moves that add nothing ----------

  lemma StoryGrows(me: Subscriber, w: World, t: World, more: seq<Item>)
    requires Extent(w) <= |w.state.issued| && Story(me, w)
    requires t.state.issued == w.state.issued + more
    requires Owes(t) == Owes(w) && Extent(t) == Extent(w) && Again(t) <= Again(w)
    requires t.first == w.first && t.missed == w.missed && t.repeats == w.repeats
    ensures Story(me, t)
  {
    PartGrows(w.state.issued, more, w.first, Extent(w), w.missed);
    hide Dedup, Project, Part, Owes, Extent, Again;
  }

  lemma ArriveKeeps(me: Subscriber, w: World, c: Chan)
    requires Exact(me, w) && CanMove(me, w, Arrive(c))
    ensures Exact(me, Next(me, w, Arrive(c)))
  {
    hide Base, Dedup, Project, Part, Story, Trim;
    var t, open := Next(me, w, Arrive(c)), Open(c, Me(me, w.past));
    BaseStep(w.state, open);
    NotActive(w.state, c);
    assert w.past + [] == w.past;
    assert t.state.issued == w.state.issued + [];
    StoryGrows(me, w, t, []);
  }

  lemma NotActive(s: State, c: Chan)
    requires Base(s)
    ensures c !in s.clients ==> c !in s.active
    ensures c in s.active ==> c in s.clients && s.active[c] == s.clients[c].sub && H.Joined(s, c)
    ensures c in s.clients ==> c in s.delivered
  {
    BaseMeans(s);
    if c in s.clients { assert ClientOk(s, c); }
  }

  /** What has been received of what is owed tells the story up to its last event. */
  lemma Shortened(me: Subscriber, log: seq<Item>, first: nat, extent: nat, missed: set<nat>, owes: seq<Item>, k: nat)
    requires IsLog(log) && extent <= |log| && 0 < k <= |owes|
    requires Dedup(owes) == Project(me, Part(log, first, extent, missed))
    ensures first < LastId(owes[..k]) <= extent
    ensures Dedup(owes[..k]) == Project(me, Part(log, first, LastId(owes[..k]), missed))
    ensures k - |Dedup(owes[..k])| <= |owes| - |Dedup(owes)|
  {
    hide Dedup, Project, Part, IsLog;
    DedupPrefix(owes, k);
    DedupLast(owes[..k]);
    PrefixOfPart(me, log, first, extent, missed, Dedup(owes[..k]));
  }

  lemma LeaveKeeps(me: Subscriber, w: World, got: nat)
    requires Exact(me, w) && CanMove(me, w, Leave(got))
    ensures Exact(me, Next(me, w, Leave(got)))
  {
    hide Base, Dedup, Project, Part, Outstanding, IsLog, Channels, Numbered, Recorded, Flow, Single, Ordered;
    BaseMeans(w.state);
    var t, log := Next(me, w, Leave(got)), w.state.issued;
    var k := |w.past| + got;
    assert t.past + [] == t.past;
    assert Owes(w)[..k] == t.past;
    if k == 0 {
      NothingYet(me, log, w.first, w.missed);
    } else {
      Shortened(me, log, w.first, Extent(w), w.missed, Owes(w), k);
    }
  }

  lemma NothingYet(me: Subscriber, log: seq<Item>, first: nat, missed: set<nat>)
    requires first <= |log|
    ensures Dedup([]) == [] && Project(me, Part(log, first, first, missed)) == []
  {
  }

  // ---------- steps of the server ----------

  /** A step that is neither the subscriber's own nor takes an event leaves its story alone. */
  lemma OtherKeeps(me: Subscriber, w: World, step: Step)
    requires Exact(me, w) && CanMove(me, w, Server(step)) && !step.Consume?
    requires !(step.Subscribe? && w.chan == Some(step.c)) && !(step.Unsubscribe? && w.chan == Some(step.c))
    ensures Exact(me, Next(me, w, Server(step)))
  {
    hide Base, Dedup, Project, Part, Story, Trim, Apply, OwesAfter, Channels, Numbered, Recorded, Flow, Single;
    hide Ordered, Outstanding;
    var s, t := w.state, Next(me, w, Server(step));
    BaseMeans(s);
    BaseStep(s, step);
    HistoryAfter(s, step);
    if w.chan.Some? {
      ChannelKept(s, step, w.chan.value);
      NotActive(s, w.chan.value);
      NotActive(t.state, w.chan.value);
      if w.chan.value in s.active { NothingOwed(s, step, w.chan.value); }
    }
    BufferKept(s, step);
    ExtentBound(me, t);
    var more := t.state.issued[|s.issued|..];
    assert t.state.issued == s.issued + more;
    StoryGrows(me, w, t, more);
  }

  lemma BufferKept(s: State, step: Step)
    requires Enabled(s, step) && !step.Consume?
    ensures s.buffer.Some? ==> Apply(s, step).buffer == s.buffer
  {
    hide Project, Missed, WriteItem, Stale, Trim;
  }

  /** A client stays as it is through the steps of others. */
  lemma ChannelKept(s: State, step: Step, c: Chan)
    requires Channels(s) && Enabled(s, step) && c in s.clients && c in s.delivered
    requires step != Subscribe(c) && step != Unsubscribe(c)
    ensures var t := Apply(s, step);
            && c in t.clients && c in t.delivered && t.clients[c].sub == s.clients[c].sub
            && (H.Joined(t, c) <==> H.Joined(s, c))
            && (c in t.active <==> c in s.active)
            && (c !in s.active ==> t.delivered[c] == s.delivered[c])
  {
    if IsDelivery(step) {
      assert c in s.active <==> c in Apply(s, step).active by { DeliveryFrame(s, step); }
      DeliveryFrame(s, step);
      hide Apply, Channels;
    } else {
      OtherChannel(s, step, c);
      hide Apply, Channels;
    }
  }

  lemma OtherChannel(s: State, step: Step, c: Chan)
    requires Enabled(s, step) && c in s.clients && c in s.delivered && !IsDelivery(step)
    requires step != Subscribe(c) && step != Unsubscribe(c)
    ensures var t := Apply(s, step);
            && c in t.clients && c in t.delivered && t.clients[c].sub == s.clients[c].sub
            && (H.Joined(t, c) <==> H.Joined(s, c))
            && (c in t.active <==> c in s.active)
            && (c !in s.active ==> t.delivered[c] == s.delivered[c])
  {
    hide Project, Missed, WriteItem, Stale, Trim, SendTo;
  }

  lemma NothingOwed(s: State, step: Step, c: Chan)
    requires Channels(s) && Numbered(s) && Recorded(s) && Enabled(s, step) && !step.Consume?
    requires c in s.active && c in s.delivered && c in Apply(s, step).active
    ensures c in Apply(s, step).delivered && Owed(Apply(s, step), c) == Owed(s, c)
  {
    hide Apply, Owed, Channels, Numbered, Recorded;
    StepOwes(s, step, c);
    assert Owed(s, c) + [] == Owed(s, c);
  }

  /** The handler takes the next event: a subscriber that has had it already is sent a repeat. */
  lemma ConsumeKeeps(me: Subscriber, w: World)
    requires Exact(me, w) && CanMove(me, w, Server(Consume))
    ensures Exact(me, Next(me, w, Server(Consume)))
  {
    hide Base, Dedup, Project, Part, Story, Trim, Channels, Numbered, Recorded, Flow, Single, Ordered, Outstanding;
    var s, t := w.state, Next(me, w, Server(Consume));
    BaseMeans(s);
    BaseStep(s, Consume);
    if Subscribed(w) {
      NotActive(s, w.chan.value);
      ConsumeOwed(me, w);
      SubscribedConsume(me, w);
    } else {
      assert t.state.issued == s.issued + [];
      StoryGrows(me, w, t, []);
    }
  }

  lemma ConsumeOwed(me: Subscriber, w: World)
    requires Base(w.state) && Client(me, w) && Subscribed(w) && Enabled(w.state, Consume)
    ensures var t := Next(me, w, Server(Consume));
            && Subscribed(t) && |w.state.consumed| < |w.state.issued|
            && Owes(t) == Owes(w) + Wanted(me, w.state.issued[|w.state.consumed|])
  {
    hide Base, Channels, Numbered, Recorded, Flow, Single, Ordered, Apply, Owed, Project;
    var s, c := w.state, w.chan.value;
    BaseMeans(s);
    NotActive(s, c);
    ConsumeActive(s);
    StepOwes(s, Consume, c);
    var item := s.issued[|s.consumed|];
    ProjectOne(s.active[c], item);
    var t := Next(me, w, Server(Consume));
    assert w.past + (Owed(s, c) + Wanted(me, item)) == w.past + Owed(s, c) + Wanted(me, item);
  }

  lemma ConsumeActive(s: State)
    requires Enabled(s, Consume)
    ensures Apply(s, Consume).active == s.active && Apply(s, Consume).clients == s.clients
    ensures Apply(s, Consume).consumed == s.consumed + [s.buffer.value]
  {
  }

  lemma SubscribedConsume(me: Subscriber, w: World)
    requires Base(w.state) && Client(me, w) && Extent(w) <= |w.state.issued| && Story(me, w)
    requires Subscribed(w) && Enabled(w.state, Consume)
    ensures var t := Next(me, w, Server(Consume));
            Extent(t) <= |t.state.issued| && Story(me, t)
  {
    hide Base, Channels, Numbered, Recorded, Flow, Single, Ordered, Owes, Project, Part, Dedup;
    var s, t, n := w.state, Next(me, w, Server(Consume)), |w.state.consumed|;
    BaseMeans(s);
    ConsumeOwed(me, w);
    NotMissed(me, w);
    var item := s.issued[n];
    if w.left == n + 1 {
      RepeatKeeps(me, s.issued, w.first, n + 1, w.missed, Owes(w));
    } else {
      NewKeeps(me, s.issued, w.first, n + 1, w.missed, Owes(w));
    }
  }

  lemma NotMissed(me: Subscriber, w: World)
    requires Client(me, w)
    ensures |w.state.consumed| + 1 !in w.missed
  {
  }

  /** The event comes for the second time. */
  lemma RepeatKeeps(me: Subscriber, log: seq<Item>, first: nat, hi: nat, missed: set<nat>, owes: seq<Item>)
    requires IsLog(log) && first < hi <= |log| && hi !in missed
    requires Dedup(owes) == Project(me, Part(log, first, hi, missed))
    ensures Dedup(owes + Wanted(me, log[hi - 1])) == Dedup(owes)
    ensures |owes + Wanted(me, log[hi - 1])| <= |owes| + 1
  {
    hide Dedup, Part, Project;
    PartStep(me, log, first, hi, missed);
    DedupLast(owes);
    var more := Wanted(me, log[hi - 1]);
    if more == [] {
      assert owes + more == owes;
    } else {
      NonEmpty(owes);
      DedupSnoc(owes, more[0]);
      assert more == [more[0]];
    }
  }

  lemma NonEmpty(items: seq<Item>)
    ensures Dedup(items) != [] ==> items != []
  {
  }

  /** The event comes for the first time. */
  lemma NewKeeps(me: Subscriber, log: seq<Item>, first: nat, hi: nat, missed: set<nat>, owes: seq<Item>)
    requires IsLog(log) && first < hi <= |log| && hi !in missed
    requires Dedup(owes) == Project(me, Part(log, first, hi - 1, missed))
    ensures Dedup(owes + Wanted(me, log[hi - 1])) == Project(me, Part(log, first, hi, missed))
    ensures |owes + Wanted(me, log[hi - 1])| - |owes| == |Dedup(owes + Wanted(me, log[hi - 1]))| - |Dedup(owes)|
  {
    hide Dedup, Part, Project;
    PartStep(me, log, first, hi, missed);
    PartIds(me, log, first, hi - 1, missed);
    DedupLast(owes);
    WantedId(me, log, hi);
    DedupFresh(owes, Wanted(me, log[hi - 1]));
  }

  /** When its channel is closed, the subscriber has been sent all it was owed. */
  lemma MyUnsubscribeKeeps(me: Subscriber, w: World, c: Chan)
    requires Exact(me, w) && w.chan == Some(c) && CanMove(me, w, Server(Unsubscribe(c)))
    ensures Exact(me, Next(me, w, Server(Unsubscribe(c))))
  {
    hide Base, Dedup, Project, Part, Story, Trim, Channels, Numbered, Recorded, Flow, Single, Ordered;
    var s, step := w.state, Unsubscribe(c);
    var t := Next(me, w, Server(step));
    BaseMeans(s);
    BaseStep(s, step);
    NotActive(s, c);
    WatchedIsActive(s, c);
    assert s.delivered[c] + [] == s.delivered[c];
    assert t.state.issued == s.issued + [];
    StoryGrows(me, w, t, []);
  }

  lemma WatchedIsActive(s: State, c: Chan)
    requires Channels(s) && WatcherIs(s, c, Unsubscribing)
    ensures c in s.active && H.Joined(s, c)
  {
    assert ClientOk(s, c);
  }

  /** The first subscription starts the story where the handler is. */
  lemma FirstSubscribeKeeps(me: Subscriber, w: World, c: Chan)
    requires Exact(me, w) && w.chan == Some(c) && w.past == [] && CanMove(me, w, Server(Subscribe(c)))
    ensures Exact(me, Next(me, w, Server(Subscribe(c))))
  {
    hide Base, Dedup, Project, Part, Trim, Channels, Numbered, Recorded, Flow, Single, Ordered, Owed;
    var s, t := w.state, Next(me, w, Server(Subscribe(c)));
    BaseMeans(s);
    BaseStep(s, Subscribe(c));
    SubscribeOwes(s, c);
    assert s.clients[c].sub.resume == Fresh;
    FreshMissesNothing(me, s);
    NothingYet(me, s.issued, |s.consumed|, {});
  }

  lemma FreshMissesNothing(me: Subscriber, s: State)
    ensures forall sub: Subscriber :: sub.resume == Fresh ==> Project(sub, Missed(s.tape, sub.resume)) == []
  {
  }

  /** Which events are stored above an ID, in terms of what a subscription reaches and loses. */
  lemma StoredAbove(s: State, L: nat, id: nat)
    requires Base(s) && L < id <= s.tape.latest && L <= |s.consumed| + 1
    ensures id in s.tape.stored <==> id <= Reach(s, L) && id !in Lost(s, L)
    ensures id in s.tape.stored ==> s.tape.stored[id] == s.issued[id - 1]
  {
    BaseMeans(s);
    BufferIsNext(s);
    LossAndDuplication(s, L);
    if id in s.tape.stored && id > |s.consumed| {
      assert id in Twice(s, L);
    }
  }

  lemma {:induction false} ReplayPart(stored: map<nat, Item>, log: seq<Item>, lo: nat, hi: nat, reach: nat,
                                      lost: set<nat>)
    requires hi <= |log|
    requires forall id | lo < id <= hi :: id in stored <==> id <= reach && id !in lost
    requires forall id | lo < id <= hi && id in stored :: stored[id] == log[id - 1]
    ensures Replay(stored, lo, hi) == Part(log, lo, if hi < reach then hi else reach, lost)
    decreases hi
  {
    if hi > lo {
      ReplayPart(stored, log, lo, hi - 1, reach, lost);
    }
  }

  /** What a returning subscriber is replayed, and what it is not. */
  lemma ReplayReaches(me: Subscriber, s: State, L: nat, missed: set<nat>)
    requires Base(s) && L <= |s.consumed| + 1 && L <= s.tape.latest
    requires forall id | id > L :: id in missed <==> id in MissedBy(me, s, L)
    ensures L <= Reach(s, L) <= |s.issued|
    ensures Project(me, Missed(s.tape, After(L))) == Project(me, Part(s.issued, L, Reach(s, L), missed))
  {
    hide Base, Project, Part, Replay, Flow, Single, Ordered;
    BaseMeans(s);
    ReachBound(s, L);
    forall id | L < id <= s.tape.latest
      ensures id in s.tape.stored <==> id <= Reach(s, L) && id !in Lost(s, L)
      ensures id in s.tape.stored ==> s.tape.stored[id] == s.issued[id - 1]
    {
      StoredAbove(s, L, id);
    }
    hide Lost, Reach;
    ReplayPart(s.tape.stored, s.issued, L, s.tape.latest, Reach(s, L), Lost(s, L));
    ProjectPart(me, s.issued, L, Reach(s, L), Lost(s, L), missed);
  }

  lemma ReachBound(s: State, L: nat)
    requires Base(s) && L <= |s.consumed| + 1 && L <= s.tape.latest
    ensures L <= Reach(s, L) <= |s.issued| && |s.consumed| <= Reach(s, L) <= |s.consumed| + 1
    ensures Reach(s, L) == |s.consumed| + 1 && L <= |s.consumed| ==> s.buffer == Some(|s.consumed| + 1)
    ensures forall id | id in Lost(s, L) :: L < id <= |s.consumed|
  {
    BaseMeans(s);
    BufferIsNext(s);
    LossAndDuplication(s, L);
    var next := |s.consumed| + 1;
    if next > L && next in s.tape.stored { assert next in Twice(s, L); }
  }

  /** The story of a returning subscriber goes on where it broke off. */
  lemma Resumes(me: Subscriber, log: seq<Item>, first: nat, L: nat, reach: nat, earlier: set<nat>, missed: set<nat>,
                past: seq<Item>, replayed: seq<Item>)
    requires IsLog(log) && first <= L <= reach <= |log|
    requires forall id | id <= L :: id in earlier <==> id in missed
    requires Dedup(past) == Project(me, Part(log, first, L, earlier)) && past != [] && LastId(past) == L
    requires replayed == Project(me, Part(log, L, reach, missed))
    ensures Dedup(past + replayed) == Project(me, Part(log, first, reach, missed))
    ensures |Dedup(past + replayed)| == |Dedup(past)| + |replayed|
  {
    hide Dedup, Project, Part, IsLog;
    ProjectPart(me, log, first, L, earlier, missed);
    PartSplit(log, first, L, reach, missed);
    ProjectConcat(me, Part(log, first, L, missed), Part(log, L, reach, missed));
    PartIds(me, log, L, reach, missed);
    DedupFresh(past, replayed);
  }

  lemma ReturnKeeps(me: Subscriber, w: World, c: Chan)
    requires Exact(me, w) && w.chan == Some(c) && w.past != [] && CanMove(me, w, Server(Subscribe(c)))
    ensures Exact(me, Next(me, w, Server(Subscribe(c))))
  {
    hide Base, Dedup, Project, Part, Trim, Channels, Numbered, Recorded, Flow, Single, Ordered, Owed, Reach, MissedBy;
    hide Missed;
    hide IsLog, Lost;
    var s, t, L := w.state, Next(me, w, Server(Subscribe(c))), LastId(w.past);
    BaseMeans(s);
    BaseStep(s, Subscribe(c));
    SubscribeOwes(s, c);
    NotActive(s, c);
    assert w.past + [] == w.past;
    ReachBound(s, L);
    MissedAbove(me, s, L);
    ReplayReaches(me, s, L, t.missed);
    var sub := s.clients[c].sub;
    assert sub.resume == After(L);
    SameProjection(sub, me, Missed(s.tape, sub.resume));
    Resumes(me, s.issued, w.first, L, Reach(s, L), w.missed, t.missed, w.past, Project(me, Missed(s.tape, sub.resume)));
    SubscribeFrame(s, c);
  }

  lemma SubscribeFrame(s: State, c: Chan)
    requires Enabled(s, Subscribe(c))
    ensures var t := Apply(s, Subscribe(c));
            && t.issued == s.issued && t.consumed == s.consumed && t.buffer == s.buffer && t.tape == s.tape
            && c in t.active
            && c in t.clients && t.clients[c].sub == s.clients[c].sub && H.Joined(t, c)
  {
  }

  lemma MissedAbove(me: Subscriber, s: State, L: nat)
    requires Base(s) && L <= |s.consumed| + 1 && L <= s.tape.latest
    ensures forall id | id in MissedBy(me, s, L) :: L < id <= |s.consumed|
  {
    ReachBound(s, L);
  }

  // ---------- whole runs ----------

  lemma MoveKeepsExact(me: Subscriber, w: World, m: Move)
    requires Exact(me, w) && CanMove(me, w, m)
    ensures Exact(me, Next(me, w, m))
  {
    hide Exact, Next, Enabled;
    match m
    case Arrive(c) => ArriveKeeps(me, w, c);
    case Leave(got) => LeaveKeeps(me, w, got);
    case Server(step) =>
      if step.Consume? {
        ConsumeKeeps(me, w);
      } else if step.Subscribe? && w.chan == Some(step.c) {
        if w.past == [] { FirstSubscribeKeeps(me, w, step.c); } else { ReturnKeeps(me, w, step.c); }
      } else if step.Unsubscribe? && w.chan == Some(step.c) {
        MyUnsubscribeKeeps(me, w, step.c);
      } else {
        OtherKeeps(me, w, step);
      }
  }

  lemma StartIsExact(me: Subscriber, w: World)
    requires Start(w)
    ensures Exact(me, w)
  {
    hide Project, Part, Dedup;
    InitialSafe(w.state);
    InitialFlow(w.state);
    NothingYet(me, w.state.issued, w.first, {});
  }

  /** A sequence of worlds, each obtained from the one before by a move. */
  ghost predicate IsVisit(me: Subscriber, worlds: seq<World>, moves: seq<Move>) {
    && |worlds| == |moves| + 1 && Start(worlds[0])
    && forall i | 0 <= i < |moves| :: CanMove(me, worlds[i], moves[i]) && worlds[i + 1] == Next(me, worlds[i], moves[i])
  }

  lemma {:induction false} VisitsKeepExact(me: Subscriber, worlds: seq<World>, moves: seq<Move>, n: nat)
    requires IsVisit(me, worlds, moves) && n < |worlds|
    ensures Exact(me, worlds[n])
  {
    hide Exact, Start, CanMove, Next;
    if n == 0 {
      StartIsExact(me, worlds[0]);
    } else {
      VisitsKeepExact(me, worlds, moves, n - 1);
      MoveKeepsExact(me, worlds[n - 1], moves[n - 1]);
    }
  }

  /** Subscribed, with nothing on its way. */
  predicate Settled(w: World) {
    Subscribed(w) && w.state.handler.Idle? && w.state.buffer.None? && w.state.flight == map[]
  }

  /** At every moment of every run, what the subscriber has received over all its connections is, but for
      immediate repeats, the beginning of its part of the log in ID order: everything it wants from where
      it began, except the events it missed; when the handler is idle it is all of that, and when nothing
      is on its way, up to the end. There are no more repeats than returns that found an event waiting. */
  lemma VisitsTell(me: Subscriber, worlds: seq<World>, moves: seq<Move>, n: nat)
    requires IsVisit(me, worlds, moves) && n < |worlds|
    ensures var w := worlds[n];
            && Extent(w) <= |w.state.issued|
            && var story := Project(me, Part(w.state.issued, w.first, Extent(w), w.missed));
               && Ascending(story) && Dedup(Received(w)) <= story
               && |Received(w)| <= |Dedup(Received(w))| + w.repeats
               && (w.state.handler.Idle? ==> Dedup(Received(w)) == story)
               && (Settled(w) ==> Extent(w) == |w.state.issued|)
  {
    VisitsKeepExact(me, worlds, moves, n);
    Tells(me, worlds[n]);
  }

  lemma Tells(me: Subscriber, w: World)
    requires Exact(me, w)
    ensures var story := Project(me, Part(w.state.issued, w.first, Extent(w), w.missed));
            && Ascending(story) && Dedup(Received(w)) <= story
            && |Received(w)| <= |Dedup(Received(w))| + w.repeats
            && (w.state.handler.Idle? ==> Dedup(Received(w)) == story)
            && (Settled(w) ==> Extent(w) == |w.state.issued|)
  {
    hide Base, Dedup, Project, Part, IsLog, Ascending, Flow, Single, Ordered, Channels, Numbered, Recorded;
    BaseMeans(w.state);
    PartIds(me, w.state.issued, w.first, Extent(w), w.missed);
    if Subscribed(w) && w.chan.value in w.state.delivered {
      assert w.past + (w.state.delivered[w.chan.value] + Outstanding(w.state, w.chan.value))
          == Received(w) + Outstanding(w.state, w.chan.value);
      if w.state.handler.Idle? { assert Received(w) + [] == Received(w); }
    }
    assert Owes(w)[..|Received(w)|] == Received(w);
    DedupPrefix(Owes(w), |Received(w)|);
    if Settled(w) { AllTaken(w.state); }
  }

  lemma AllTaken(s: State)
    requires Base(s) && s.buffer.None? && s.flight == map[]
    ensures |s.consumed| == |s.issued|
  {
    BaseMeans(s);
    BufferIsNext(s);
    Whereabouts(s, s.tape.latest);
  }

  /** What earlier connections brought are issued events. */
  lemma PastIsNumbered(me: Subscriber, w: World)
    requires Exact(me, w)
    ensures forall item | item in w.past :: item.id < WORD
  {
    hide Base, Dedup, Project, Part, IsLog, Ascending, Flow, Single, Ordered, Channels, Numbered, Recorded, Owed;
    hide Client;
    BaseMeans(w.state);
    PartIds(me, w.state.issued, w.first, Extent(w), w.missed);
    forall item | item in w.past ensures item.id < WORD {
      assert item in Owes(w);
      DedupKeepsAll(Owes(w), item);
    }
  }

  lemma {:induction false} DedupKeepsAll(items: seq<Item>, item: Item)
    requires item in items
    ensures item in Dedup(items)
  {
    var n := |items| - 1;
    if item in items[..n] {
      DedupKeepsAll(items[..n], item);
    } else {
      assert items == items[..n] + [items[n]];
    }
  }

  // ---------- when nothing is missed, and when nothing is repeated ----------

  predicate IsReturn(w: World, m: Move) {
    m.Server? && m.step.Subscribe? && w.chan == Some(m.step.c) && w.past != []
  }

  predicate Wants(me: Subscriber, s: State, id: nat) { 1 <= id <= |s.issued| && s.issued[id - 1].kind in me.types }

  /** A return that is not too late and not at a bad moment: no wanted event above the last seen ID is
      beyond the capacity, or has been taken by the handler and not yet been written. */
  predicate Careful(me: Subscriber, w: World, m: Move) {
    IsReturn(w, m) ==>
      var s, L := w.state, LastId(w.past);
      && (forall id | id in Late(s) && L < id :: !Wants(me, s, id))
      && (forall id | L < id <= |s.issued| && id + Max(s.tape.capacity, 1) <= s.tape.latest :: !Wants(me, s, id))
  }

  /** What a return misses are exactly the wanted events of late producers and those that were rotated out. */
  lemma MissedAre(me: Subscriber, s: State, L: nat, id: nat)
    requires Base(s) && Wants(me, s, id) && L < id
    ensures id in MissedBy(me, s, L) <==> id in Late(s) || id in Rotated(s)
  {
    BaseMeans(s);
    Whereabouts(s, id);
  }

  /** Only events beyond the capacity are rotated out; the newest one is not, whatever the capacity. */
  lemma RotatedIsOld(s: State, since: nat, id: nat)
    requires Base(s) && KeptSince(s, since) && id in Rotated(s) && since < id
    ensures id + Max(s.tape.capacity, 1) <= s.tape.latest
  {
    BaseMeans(s);
    WithinCapacity(s, since, 0);
    assert 1 <= id <= s.tape.latest;
  }

  lemma MoveKeepsRetained(me: Subscriber, w: World, m: Move)
    requires Exact(me, w) && KeptSince(w.state, w.first) && CanMove(me, w, m)
    ensures KeptSince(Next(me, w, m).state, Next(me, w, m).first)
  {
    hide Base, Story, Apply, Reach, MissedBy;
    BaseMeans(w.state);
    var step := if m.Server? then m.step else Open(if m.Arrive? then m.c else 0, Me(me, w.past));
    if !m.Leave? { StepKeepsRetained(w.state, w.first, step); }
  }

  lemma {:induction false} VisitsKeepRetained(me: Subscriber, worlds: seq<World>, moves: seq<Move>, n: nat)
    requires IsVisit(me, worlds, moves) && n < |worlds|
    ensures KeptSince(worlds[n].state, worlds[n].first)
  {
    hide Exact, CanMove, Next;
    if n == 0 {
      InitialRetained(worlds[0].state);
    } else {
      hide Start, KeptSince;
      VisitsKeepRetained(me, worlds, moves, n - 1);
      VisitsKeepExact(me, worlds, moves, n - 1);
      MoveKeepsRetained(me, worlds[n - 1], moves[n - 1]);
    }
  }

  lemma {:induction false} NothingMissed(me: Subscriber, worlds: seq<World>, moves: seq<Move>, n: nat)
    requires IsVisit(me, worlds, moves) && n < |worlds|
    requires forall i | 0 <= i < n :: Careful(me, worlds[i], moves[i])
    ensures worlds[n].missed == {}
  {
    hide Exact, CanMove, Careful, Next, KeptSince;
    if n > 0 {
      NothingMissed(me, worlds, moves, n - 1);
      VisitsKeepExact(me, worlds, moves, n - 1);
      VisitsKeepRetained(me, worlds, moves, n - 1);
      CarefulMissesNothing(me, worlds[n - 1], moves[n - 1]);
    }
  }

  lemma CarefulMissesNothing(me: Subscriber, w: World, m: Move)
    requires Exact(me, w) && KeptSince(w.state, w.first) && CanMove(me, w, m) && Careful(me, w, m) && w.missed == {}
    ensures Next(me, w, m).missed == {}
  {
    hide Base, Story, Lost, Late, Rotated, KeptSince;
    if IsReturn(w, m) {
      var s, L := w.state, LastId(w.past);
      forall id ensures id !in MissedBy(me, s, L) {
        if id in MissedBy(me, s, L) {
          MissedIsAbove(me, s, L, id);
          MissedAre(me, s, L, id);
          if id in Rotated(s) { RotatedIsOld(s, w.first, id); }
        }
      }
    }
  }

  lemma MissedIsAbove(me: Subscriber, s: State, L: nat, id: nat)
    requires id in MissedBy(me, s, L)
    ensures L < id && Wants(me, s, id)
  {
  }

  /** No event waits in the Notifier when the subscriber returns. */
  predicate Calm(w: World, m: Move) { IsReturn(w, m) ==> w.state.buffer.None? }

  lemma {:induction false} NothingRepeated(me: Subscriber, worlds: seq<World>, moves: seq<Move>, n: nat)
    requires IsVisit(me, worlds, moves) && n < |worlds|
    requires forall i | 0 <= i < n :: Calm(worlds[i], moves[i])
    ensures worlds[n].repeats == 0
  {
    hide Exact, CanMove, Calm, Next;
    if n > 0 {
      NothingRepeated(me, worlds, moves, n - 1);
      VisitsKeepExact(me, worlds, moves, n - 1);
      CalmRepeatsNothing(me, worlds[n - 1], moves[n - 1]);
    }
  }

  lemma CalmRepeatsNothing(me: Subscriber, w: World, m: Move)
    requires Exact(me, w) && CanMove(me, w, m) && Calm(w, m)
    ensures Next(me, w, m).repeats <= w.repeats
  {
    hide Base, Story, Lost;
    if IsReturn(w, m) {
      BaseMeans(w.state);
      LastIdBound(me, w, m.step.c);
      ReachBound(w.state, LastId(w.past));
    }
  }

  lemma LastIdBound(me: Subscriber, w: World, c: Chan)
    requires Exact(me, w) && w.chan == Some(c) && w.past != [] && Enabled(w.state, Subscribe(c))
    ensures LastId(w.past) <= |w.state.consumed| + 1 && LastId(w.past) <= w.state.tape.latest
    ensures LastId(w.past) == |w.state.consumed| + 1 ==> w.state.buffer.Some?
  {
    hide Base, Story;
    BaseMeans(w.state);
  }

  /** A subscriber whose returns are careful and calm receives exactly its part of the log: no gap and no
      repeat, in increasing ID order, although its last seen ID skips events of other types. */
  lemma VisitsAreExact(me: Subscriber, worlds: seq<World>, moves: seq<Move>, n: nat)
    requires IsVisit(me, worlds, moves) && n < |worlds| && worlds[n].state.handler.Idle?
    requires forall i | 0 <= i < n :: Careful(me, worlds[i], moves[i]) && Calm(worlds[i], moves[i])
    ensures var w := worlds[n];
            && w.first <= Extent(w) <= |w.state.issued|
            && Received(w) == Project(me, w.state.issued[w.first..Extent(w)])
            && Ascending(Received(w))
            && (Settled(w) ==> Extent(w) == |w.state.issued|)
  {
    hide Careful, Calm, Dedup, Project, Part, Ascending, IsVisit;
    VisitsTell(me, worlds, moves, n);
    VisitsKeepExact(me, worlds, moves, n);
    NothingMissed(me, worlds, moves, n);
    NothingRepeated(me, worlds, moves, n);
    var w := worlds[n];
    FirstBound(me, w);
    PartIsLog(w.state.issued, w.first, Extent(w));
    DedupLast(Received(w));
  }

  lemma FirstBound(me: Subscriber, w: World)
    requires Exact(me, w)
    ensures w.first <= Extent(w) <= |w.state.issued|
  {
    hide Base, Story;
  }
}
