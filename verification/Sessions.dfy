/** What one subscription receives over any run, event by event. */
module Sessions {
  import opened Json
  import opened Ids
  import opened EventLog
  import opened Protocol
  import opened Seam

  /** The issued events with the given IDs. */
  function ItemsOf(issued: seq<Item>, ids: seq<nat>): (items: seq<Item>)
    requires forall i | 0 <= i < |ids| :: 1 <= ids[i] <= |issued|
    ensures |items| == |ids|
  {
    seq(|ids|, i requires 0 <= i < |ids| => issued[ids[i] - 1])
  }

  predicate Later(s0: State, s: State) {
    && |s.issued| == s.tape.latest
    && (forall i | 0 <= i < |s.consumed| :: 1 <= s.consumed[i] <= |s.issued|)
    && |s0.consumed| <= |s.consumed| && s.consumed[..|s0.consumed|] == s0.consumed
    && |s0.issued| <= |s.issued| && s.issued[..|s0.issued|] == s0.issued
  }

  /** The events meant for a client that subscribed in state s0: the replay of what it missed, then
      everything the handler consumed since. */
  function Stream(s0: State, s: State, sub: Subscriber): seq<Item>
    requires Later(s0, s)
  {
    Missed(s0.tape, sub.resume) + ItemsOf(s.issued, s.consumed[|s0.consumed|..])
  }

  /** What the loop the handler is in will still send to a client. */
  function Outstanding(s: State, c: Chan): seq<Item>
    requires c in s.active
  {
    match s.handler
    case Idle => []
    case Dispatching(id, pending) =>
      if c in pending && 1 <= id <= |s.issued| then Project(s.active[c], [s.issued[id - 1]]) else []
    case Replaying(to, rest) => if to == c then Project(s.active[c], rest) else []
  }

  /** What a client has received and will receive before the handler is idle again. */
  function Owed(s: State, c: Chan): seq<Item>
    requires c in s.active && c in s.delivered
  {
    s.delivered[c] + Outstanding(s, c)
  }

  predicate InSession(s0: State, s: State, c: Chan, sub: Subscriber) {
    && Later(s0, s)
    && c in s.active && s.active[c] == sub
    && c in s.delivered
    && Owed(s, c) == Project(sub, Stream(s0, s, sub))
  }

  predicate Recorded(s: State) {
    forall c | c in s.clients :: c in s.delivered && (s.clients[c].reader == Subscribing ==> s.delivered[c] == [])
  }

  lemma StepKeepsRecorded(s: State, step: Step)
    requires Recorded(s) && Channels(s) && Enabled(s, step)
    ensures Recorded(Apply(s, step))
  {
    if IsDelivery(step) { DeliveryFrame(s, step); } else { OtherRecorded(s, step); }
    hide Apply, Channels;
  }

  lemma OtherRecorded(s: State, step: Step)
    requires Recorded(s) && Channels(s) && Enabled(s, step) && !IsDelivery(step)
    ensures Recorded(Apply(s, step))
  {
    hide Project, Missed, WriteItem, Stale, Trim, SendTo;
    var t := Apply(s, step);
    forall c | c in t.clients
      ensures c in t.delivered && (t.clients[c].reader == Subscribing ==> t.delivered[c] == [])
    {
      assert c in s.clients ==> ClientOk(s, c);
    }
  }

  lemma ProjectHead(sub: Subscriber, rest: seq<Item>)
    requires rest != []
    ensures Project(sub, rest) == Project(sub, [rest[0]]) + Project(sub, rest[1..])
  {
    ProjectConcat(sub, [rest[0]], rest[1..]);
    assert [rest[0]] + rest[1..] == rest;
  }

  lemma ProjectNone(sub: Subscriber)
    ensures Project(sub, []) == []
  {
  }

  lemma ProjectOne(sub: Subscriber, item: Item)
    ensures Project(sub, [item]) == if item.kind in sub.types then [item.(data := Trim(sub, item.data))] else []
  {
    assert [item][..0] == [];
  }

  // ---------- what a step owes to a client ----------

  /** What a step adds to what a client is owed: the event that the handler takes, if it is wanted. */
  function Added(s: State, step: Step, sub: Subscriber): seq<Item> {
    if step.Consume? && s.buffer.Some? && 1 <= s.buffer.value <= |s.issued| then
      Project(sub, [s.issued[s.buffer.value - 1]])
    else
      []
  }

  ghost predicate OwesAfter(s: State, step: Step, c: Chan)
    requires Enabled(s, step) && c in s.active && c in s.delivered
  {
    var t := Apply(s, step);
    && c in t.active && c in t.delivered && t.active[c] == s.active[c]
    && Owed(t, c) == Owed(s, c) + Added(s, step, s.active[c])
  }

  lemma ConsumeOwes(s: State, c: Chan)
    requires Numbered(s) && Enabled(s, Consume) && c in s.active && c in s.delivered
    ensures OwesAfter(s, Consume, c)
  {
    hide Project, Numbered;
    BufferNumbered(s);
    var d, more := s.delivered[c], Added(s, Consume, s.active[c]);
    assert d + [] + more == d + more;
  }

  lemma BufferNumbered(s: State)
    requires Numbered(s)
    ensures s.buffer.Some? ==> 1 <= s.buffer.value <= |s.issued|
    ensures s.handler.Dispatching? ==> 1 <= s.handler.id <= |s.issued|
    ensures |s.issued| == s.tape.latest
  {
  }

  lemma SendToEffect(s: State, c: Chan, item: Item)
    requires Channels(s) && CanSend(s, c, item) && c in s.delivered
    ensures var t := SendTo(s, c, item);
            && t == s.(clients := t.clients, delivered := t.delivered)
            && t.delivered == s.delivered[c := s.delivered[c] + Project(s.active[c], [item])]
            && c in s.clients
            && (t.clients == s.clients || t.clients == s.clients[c := s.clients[c].(reader := Writing)])
  {
    assert ClientOk(s, c);
    ProjectOne(s.active[c], item);
    assert s.delivered[c] + [] == s.delivered[c];
  }

  lemma DeliverOwes(s: State, to: Chan, c: Chan)
    requires Channels(s) && to in s.delivered && Enabled(s, Deliver(to)) && c in s.active && c in s.delivered
    ensures OwesAfter(s, Deliver(to), c)
  {
    hide SendTo, Project, Channels, ClientOk;
    SendToEffect(s, to, s.issued[s.handler.id - 1]);
    var d, more := s.delivered[c], Project(s.active[c], [s.issued[s.handler.id - 1]]);
    assert d + more + [] == d + more;
  }

  lemma DeliverMissedOwes(s: State, c: Chan)
    requires Channels(s) && Enabled(s, DeliverMissed) && s.handler.to in s.delivered && c in s.active
    requires c in s.delivered
    ensures OwesAfter(s, DeliverMissed, c)
  {
    hide SendTo, Project, Channels, ClientOk;
    var to, rest := s.handler.to, s.handler.rest;
    SendToEffect(s, to, rest[0]);
    ProjectHead(s.active[to], rest);
    var d, first, more := s.delivered[c], Project(s.active[c], [rest[0]]), Project(s.active[c], rest[1..]);
    assert d + first + more == d + (first + more);
    assert d + more + [] == d + more;
  }

  lemma OtherOwes(s: State, step: Step, c: Chan)
    requires Channels(s) && Numbered(s) && Enabled(s, step) && c in s.active && c in s.delivered
    requires c in Apply(s, step).active
    requires !step.Consume? && !step.Deliver? && !step.DeliverMissed?
    ensures OwesAfter(s, step, c)
  {
    if IsProducer(step) {
      ProducerOwes(s, step, c);
    } else {
      ClientOwes(s, step, c);
    }
  }

  lemma ProducerOwes(s: State, step: Step, c: Chan)
    requires Numbered(s) && Enabled(s, step) && IsProducer(step) && c in s.active && c in s.delivered
    ensures OwesAfter(s, step, c)
  {
    hide Project, Missed, Trim, SendTo, WriteItem, Stale;
    BufferNumbered(s);
    assert Owed(s, c) + [] == Owed(s, c);
  }

  lemma ClientOwes(s: State, step: Step, c: Chan)
    requires Channels(s) && Enabled(s, step) && c in s.active && c in s.delivered && c in Apply(s, step).active
    requires !IsProducer(step) && !step.Consume? && !IsDelivery(step)
    ensures OwesAfter(s, step, c)
  {
    hide Project, Missed, Trim, SendTo;
    ProjectNone(s.active[c]);
    assert ClientOk(s, c);
    assert s.delivered[c] + [] == s.delivered[c];
  }

  lemma StepOwes(s: State, step: Step, c: Chan)
    requires Channels(s) && Numbered(s) && Recorded(s) && Enabled(s, step)
    requires c in s.active && c in Apply(s, step).active
    ensures c in s.delivered && OwesAfter(s, step, c)
  {
    hide Numbered, Apply, ClientOk, OwesAfter;
    match step
    case Consume => ConsumeOwes(s, c);
    case Deliver(to) => DeliverOwes(s, to, c);
    case DeliverMissed => DeliverMissedOwes(s, c);
    case _ => OtherOwes(s, step, c);
  }

  /** A subscription is first owed what it missed. */
  lemma SubscribeOwes(s: State, c: Chan)
    requires Recorded(s) && Enabled(s, Subscribe(c))
    ensures var t, sub := Apply(s, Subscribe(c)), s.clients[c].sub;
            && c in t.active && c in t.delivered && t.active[c] == sub
            && Owed(t, c) == Project(sub, Missed(s.tape, sub.resume))
  {
    hide Project;
    var sub := s.clients[c].sub;
    ProjectNone(sub);
    if !sub.resume.After? { assert Missed(s.tape, sub.resume) == []; }
    assert [] + Project(sub, Missed(s.tape, sub.resume)) == Project(sub, Missed(s.tape, sub.resume));
  }

  // ---------- one subscription ----------

  lemma SubscribeOpensSession(s: State, c: Chan)
    requires Flow(s) && Recorded(s) && Enabled(s, Subscribe(c))
    ensures InSession(s, Apply(s, Subscribe(c)), c, s.clients[c].sub)
  {
    hide Project, Missed;
    SubscribeOwes(s, c);
    var t, sub := Apply(s, Subscribe(c)), s.clients[c].sub;
    assert t.consumed[|s.consumed|..] == [];
    assert Stream(s, t, sub) == Missed(s.tape, sub.resume);
  }

  /** Histories only grow, where an ID is allocated and where an event is taken. */
  lemma HistoryAfter(s: State, step: Step)
    requires Enabled(s, step)
    ensures var t := Apply(s, step);
            && t.consumed == s.consumed + (if step.Consume? then [s.buffer.value] else [])
            && t.issued == s.issued + (if step.Allocate? then [Item(s.tape.latest + 1, step.kind, step.data)] else [])
            && t.tape.latest == s.tape.latest + if step.Allocate? then 1 else 0
  {
    if IsDelivery(step) { DeliveryFrame(s, step); } else { OtherHistory(s, step); }
    hide Apply;
  }

  lemma OtherHistory(s: State, step: Step)
    requires Enabled(s, step) && !IsDelivery(step)
    ensures var t := Apply(s, step);
            && t.consumed == s.consumed + (if step.Consume? then [s.buffer.value] else [])
            && t.issued == s.issued + (if step.Allocate? then [Item(s.tape.latest + 1, step.kind, step.data)] else [])
            && t.tape.latest == s.tape.latest + if step.Allocate? then 1 else 0
  {
    hide Project, Missed, Stale, SendTo;
  }

  lemma ItemsOfGrows(issued: seq<Item>, added: seq<Item>, ids: seq<nat>, more: seq<nat>)
    requires forall i | 0 <= i < |ids| :: 1 <= ids[i] <= |issued|
    requires forall i | 0 <= i < |more| :: 1 <= more[i] <= |issued|
    ensures forall i | 0 <= i < |ids + more| :: 1 <= (ids + more)[i] <= |issued + added|
    ensures ItemsOf(issued + added, ids + more) == ItemsOf(issued, ids) + ItemsOf(issued, more)
  {
  }

  lemma LaterAfter(s0: State, s: State, step: Step)
    requires Numbered(s) && Later(s0, s) && Enabled(s, step)
    ensures Later(s0, Apply(s, step))
    ensures ItemsOf(Apply(s, step).issued, Apply(s, step).consumed[|s0.consumed|..])
         == ItemsOf(s.issued, s.consumed[|s0.consumed|..])
            + if step.Consume? && 1 <= s.buffer.value <= |s.issued| then [s.issued[s.buffer.value - 1]] else []
  {
    hide Apply, ItemsOf, Numbered, Enabled, Later;
    HistoryAfter(s, step);
    BufferNumbered(s);
    var more := Taken(s, step);
    var added := if step.Allocate? then [Item(s.tape.latest + 1, step.kind, step.data)] else [];
    LaterGrows(s0, s, Apply(s, step), added, more);
    ItemsOfFew(s.issued, more);
  }

  function Taken(s: State, step: Step): (ids: seq<nat>)
    requires Enabled(s, step) && Numbered(s)
    ensures |ids| <= 1 && forall i | 0 <= i < |ids| :: 1 <= ids[i] <= |s.issued|
    ensures ids == if step.Consume? then [s.buffer.value] else []
  {
    if step.Consume? then [s.buffer.value] else []
  }

  lemma LaterGrows(s0: State, s: State, t: State, added: seq<Item>, more: seq<nat>)
    requires Later(s0, s) && t.issued == s.issued + added && t.consumed == s.consumed + more
    requires |t.issued| == t.tape.latest
    requires forall i | 0 <= i < |more| :: 1 <= more[i] <= |s.issued|
    ensures Later(s0, t)
    ensures ItemsOf(t.issued, t.consumed[|s0.consumed|..])
        == ItemsOf(s.issued, s.consumed[|s0.consumed|..]) + ItemsOf(s.issued, more)
  {
    hide ItemsOf;
    SlicesGrow(s.consumed, more, |s0.consumed|);
    SlicesGrow(s.issued, added, |s0.issued|);
    ItemsOfGrows(s.issued, added, s.consumed[|s0.consumed|..], more);
  }

  lemma SlicesGrow<T>(a: seq<T>, more: seq<T>, n: nat)
    requires n <= |a|
    ensures (a + more)[n..] == a[n..] + more && (a + more)[..n] == a[..n]
  {
  }

  lemma ItemsOfFew(issued: seq<Item>, ids: seq<nat>)
    requires |ids| <= 1 && forall i | 0 <= i < |ids| :: 1 <= ids[i] <= |issued|
    ensures ItemsOf(issued, ids) == if ids == [] then [] else [issued[ids[0] - 1]]
  {
  }

  lemma StepKeepsSession(s0: State, s: State, step: Step, c: Chan, sub: Subscriber)
    requires Channels(s) && Numbered(s) && Recorded(s)
    requires InSession(s0, s, c, sub) && Enabled(s, step) && c in Apply(s, step).active
    ensures InSession(s0, Apply(s, step), c, sub)
  {
    hide Project, Missed, Apply, Channels, Numbered, Recorded, ItemsOf, Outstanding;
    StepOwes(s, step, c);
    LaterAfter(s0, s, step);
    BufferNumbered(s);
    var more := if step.Consume? && 1 <= s.buffer.value <= |s.issued| then [s.issued[s.buffer.value - 1]] else [];
    ProjectNone(sub);
    ProjectConcat(sub, Stream(s0, s, sub), more);
    var missed, since := Missed(s0.tape, sub.resume), ItemsOf(s.issued, s.consumed[|s0.consumed|..]);
    assert missed + (since + more) == missed + since + more;
  }

  lemma StaysSubscribed(s: State, step: Step, c: Chan)
    requires Enabled(s, step)
    requires step == Subscribe(c) || (c in s.clients && s.clients[c].reader != Subscribing)
    ensures var t := Apply(s, step);
            c in t.clients && t.clients[c].reader != Subscribing
    ensures step != Subscribe(c) && c in Apply(s, step).active ==> c in s.active
  {
    if IsDelivery(step) { DeliveryFrame(s, step); } else { OtherStays(s, step, c); }
    hide Apply;
  }

  lemma OtherStays(s: State, step: Step, c: Chan)
    requires Enabled(s, step) && !IsDelivery(step)
    requires step == Subscribe(c) || (c in s.clients && s.clients[c].reader != Subscribing)
    ensures var t := Apply(s, step);
            c in t.clients && t.clients[c].reader != Subscribing
    ensures step != Subscribe(c) && c in Apply(s, step).active ==> c in s.active
  {
    hide Project, Missed, WriteItem, Stale, Trim, SendTo;
  }

  /** Once subscribed, a client never subscribes again on the same channel. */
  lemma {:induction false} SubscribedStays(states: seq<State>, steps: seq<Step>, i: nat, k: nat, c: Chan)
    requires IsRun(states, steps) && i < k < |states| && steps[i] == Subscribe(c)
    ensures c in states[k].clients && states[k].clients[c].reader != Subscribing
  {
    hide Apply;
    if k > i + 1 {
      SubscribedStays(states, steps, i, k - 1, c);
    }
    StaysSubscribed(states[k - 1], steps[k - 1], c);
  }

  lemma {:induction false} SessionHolds(states: seq<State>, steps: seq<Step>, i: nat, k: nat, c: Chan)
    requires IsRun(states, steps) && Initial(states[0]) && i < k < |states|
    requires steps[i] == Subscribe(c) && c in states[k].active
    ensures c in states[i].clients && InSession(states[i], states[k], c, states[i].clients[c].sub)
  {
    hide Apply, Flow, Channels, Numbered, InSession, Initial, Recorded;
    var s, step := states[k - 1], steps[k - 1];
    assert Enabled(states[i], steps[i]) && Enabled(s, step);
    ReachableFlow(states, steps, k - 1);
    ReachableRecorded(states, steps, k - 1);
    if k == i + 1 {
      SubscribeOpensSession(s, c);
    } else {
      ReachableSafe(states, steps, k - 1);
      SubscribedStays(states, steps, i, k - 1, c);
      assert step != Subscribe(c);
      StaysSubscribed(s, step, c);
      SessionHolds(states, steps, i, k - 1, c);
      StepKeepsSession(states[i], s, step, c, states[i].clients[c].sub);
    }
  }

  lemma {:induction false} ReachableRecorded(states: seq<State>, steps: seq<Step>, n: nat)
    requires IsRun(states, steps) && Initial(states[0]) && n < |states|
    ensures Recorded(states[n])
  {
    if n > 0 {
      ReachableRecorded(states, steps, n - 1);
      ReachableSafe(states, steps, n - 1);
      StepKeepsRecorded(states[n - 1], steps[n - 1]);
    }
  }

  // ---------- how often each event is received ----------

  function IdsOf(items: seq<Item>): (ids: seq<nat>)
    ensures |ids| == |items|
  {
    seq(|items|, i requires 0 <= i < |items| => items[i].id)
  }

  predicate Distinct(ids: seq<nat>) {
    forall i, j | 0 <= i < j < |ids| :: ids[i] != ids[j]
  }

  lemma {:induction false} DistinctCount(ids: seq<nat>, id: nat)
    requires Distinct(ids)
    ensures multiset(ids)[id] == if id in ids then 1 else 0
  {
    if ids != [] {
      var n := |ids| - 1;
      DistinctCount(ids[..n], id);
      assert ids == ids[..n] + [ids[n]];
    }
  }

  lemma ReplayCounts(stored: map<nat, Item>, lo: nat, hi: nat, id: nat)
    requires forall n | n in stored :: stored[n].id == n
    requires lo < id <= hi
    ensures multiset(IdsOf(Replay(stored, lo, hi)))[id] == if id in stored then 1 else 0
  {
    var replay := Replay(stored, lo, hi);
    ReplayContent(stored, lo, hi);
    DistinctCount(IdsOf(replay), id);
    if id in stored {
      assert stored[id] in replay;
      var i :| 0 <= i < |replay| && replay[i] == stored[id];
      assert IdsOf(replay)[i] == id;
    }
  }

  lemma SinceCounts(s0: State, s: State, id: nat)
    requires Flow(s) && Later(s0, s) && id in s.consumed
    ensures multiset(s.consumed[|s0.consumed|..])[id] == if id in s0.consumed then 0 else 1
  {
    var since := s.consumed[|s0.consumed|..];
    assert s.consumed == s0.consumed + since;
    DistinctCount(since, id);
    DistinctCount(s.consumed, id);
  }

  /** The number of times an event above the last seen ID occurs in the stream of a subscription: not
      at all if it is lost at the seam, twice if it is both replayed and still to come, else once. */
  lemma StreamCounts(s0: State, s: State, sub: Subscriber, id: nat)
    requires Flow(s0) && Flow(s) && Later(s0, s) && sub.resume.After? && sub.resume.id + 1 < WORD
    requires id in s.consumed && sub.resume.id < id
    ensures multiset(IdsOf(Stream(s0, s, sub)))[id] == Times(s0, sub.resume.id, id)
  {
    var L := sub.resume.id;
    var replay, since := Missed(s0.tape, sub.resume), s.consumed[|s0.consumed|..];
    assert forall i | 0 <= i < |since| :: s.issued[since[i] - 1].id == since[i];
    assert IdsOf(Stream(s0, s, sub)) == IdsOf(replay) + since;
    SinceCounts(s0, s, id);
    if id <= s0.tape.latest {
      ReplayCounts(s0.tape.stored, L, s0.tape.latest, id);
    } else {
      ReplayBounded(s0, L, id);
    }
  }

  /** How often an event is in the stream of a client that subscribes in state s with last ID L. */
  function Times(s: State, L: nat, id: nat): nat {
    if id in Lost(s, L) then 0 else if id in Twice(s, L) then 2 else 1
  }

  lemma ReplayBounded(s: State, L: nat, id: nat)
    requires Flow(s) && id > s.tape.latest
    ensures id !in multiset(IdsOf(Replay(s.tape.stored, L, s.tape.latest)))
    ensures id !in s.tape.stored && id !in s.consumed
  {
    ReplayContent(s.tape.stored, L, s.tape.latest);
  }

  ghost predicate CountsAre(s0: State, s: State, sub: Subscriber, L: nat)
    requires Later(s0, s)
  {
    forall id | id in s.consumed && L < id :: multiset(IdsOf(Stream(s0, s, sub)))[id] == Times(s0, L, id)
  }

  lemma AllCounts(s0: State, s: State, sub: Subscriber)
    requires Flow(s0) && Flow(s) && Later(s0, s) && sub.resume.After? && sub.resume.id + 1 < WORD
    ensures CountsAre(s0, s, sub, sub.resume.id)
  {
    forall id | id in s.consumed && sub.resume.id < id
      ensures multiset(IdsOf(Stream(s0, s, sub)))[id] == Times(s0, sub.resume.id, id)
    {
      StreamCounts(s0, s, sub, id);
    }
  }

  lemma NoBufferNoTwice(s: State, L: nat)
    requires forall id | id in Twice(s, L) :: s.buffer == Some(id)
    ensures s.buffer.None? ==> |Twice(s, L)| == 0
  {
    if s.buffer.None? { assert Twice(s, L) == {}; }
  }

  /** The seam theorem. At any later time when the handler is idle, a subscription with Last-Event-ID
      L has received exactly the type-filtered stream. Every event above L occurs in that stream
      once, except those lost and those repeated at the moment of subscribing. Lost are those whose producer
      was between "consumed" and "stored", and those that had been rotated out; repeated is at most one
      event, the one in the Notifier buffer. */
  lemma SeamTheorem(states: seq<State>, steps: seq<Step>, i: nat, k: nat, c: Chan)
    requires IsRun(states, steps) && Initial(states[0]) && i < k < |states|
    requires steps[i] == Subscribe(c) && c in states[k].active && states[k].handler.Idle?
    ensures c in states[i].clients && c in states[k].delivered && Later(states[i], states[k])
    ensures var s0, s, sub := states[i], states[k], states[i].clients[c].sub;
            && s.delivered[c] == Project(sub, Stream(s0, s, sub))
            && (sub.resume.After? && sub.resume.id + 1 < WORD ==>
                  var L := sub.resume.id;
                  && CountsAre(s0, s, sub, L)
                  && Lost(s0, L) == (set id | id in Late(s0) + Rotated(s0) && L < id)
                  && (NothingRotated(s0, L) ==> |Lost(s0, L)| <= |Late(s0)|)
                  && |Twice(s0, L)| <= if s0.buffer.Some? then 1 else 0)
  {
    SessionHolds(states, steps, i, k, c);
    ReachableFlow(states, steps, i);
    ReachableFlow(states, steps, k);
    var s0, s := states[i], states[k];
    var sub := s0.clients[c].sub;
    assert s.delivered[c] + [] == s.delivered[c];
    hide Flow, IsRun, Initial, Lost, Twice, Late, Rotated, NothingRotated, CountsAre, Stream, Times;
    if sub.resume.After? && sub.resume.id + 1 < WORD {
      AllCounts(s0, s, sub);
      LossAndDuplication(s0, sub.resume.id);
      NoBufferNoTwice(s0, sub.resume.id);
    }
  }
}
