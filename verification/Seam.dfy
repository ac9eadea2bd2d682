/**
 The seam between replay and live delivery: what a subscription with a Last-Event-ID can lose, and
 what it can receive twice, when producers are in flight.
 */
module Seam {
  import opened Json
  import opened EventLog
  import opened Protocol

  // ---------- where every event is ----------

  /** Every issued event is unsent, in the buffer or consumed; what is stored is what was issued, and what is
      in flight is not stored yet. */
  predicate Flow(s: State) {
    && IsLog(s.issued) && |s.issued| == s.tape.latest
    && (forall id | id in s.tape.stored :: 1 <= id <= s.tape.latest && s.tape.stored[id] == s.issued[id - 1])
    && (forall id | id in s.flight :: FlightOk(s, id))
    && (forall i | 0 <= i < |s.consumed| :: 1 <= s.consumed[i] <= s.tape.latest)
    && (forall i, j | 0 <= i < j < |s.consumed| :: s.consumed[i] != s.consumed[j])
    && (s.buffer.Some? ==> 1 <= s.buffer.value <= s.tape.latest && s.buffer.value !in s.consumed)
    && (forall id | 1 <= id <= s.tape.latest :: Placed(s, id))
  }

  predicate FlightOk(s: State, id: nat)
    requires id in s.flight
  {
    && 1 <= id <= s.tape.latest
    && id !in s.tape.stored
    && (s.flight[id] != Unsent <==> id in s.consumed || s.buffer == Some(id))
  }

  predicate Placed(s: State, id: nat) { id in s.flight || id in s.consumed || s.buffer == Some(id) }

  lemma InitialFlow(s: State)
    requires Initial(s)
    ensures Flow(s)
  {
    forall id | 1 <= id <= s.tape.latest ensures Placed(s, id) {
      assert s.consumed[id - 1] == id;
    }
  }

  lemma StepKeepsFlow(s: State, step: Step)
    requires Flow(s) && Enabled(s, step)
    ensures Flow(Apply(s, step))
  {
    hide Flow, Project, Missed, WriteItem, Stale, Trim;
    match step
    case Allocate(_, _) => AllocateKeepsFlow(s, step);
    case Send(_) => SendKeepsFlow(s, step);
    case Rotate(_) => RotateKeepsFlow(s, step);
    case Snapshot(_) => RotateKeepsFlow(s, step);
    case Commit(_) => CommitKeepsFlow(s, step);
    case Consume => ConsumeKeepsFlow(s, step);
    case _ => FlowFrame(s, Apply(s, step));
  }

  lemma FlowFrame(s: State, t: State)
    requires Flow(s)
    requires t.tape == s.tape && t.flight == s.flight && t.buffer == s.buffer
    requires t.issued == s.issued && t.consumed == s.consumed
    ensures Flow(t)
  {
    forall id | id in t.flight ensures FlightOk(t, id) { assert FlightOk(s, id); }
    forall id | 1 <= id <= t.tape.latest ensures Placed(t, id) { assert Placed(s, id); }
  }

  lemma AllocateKeepsFlow(s: State, step: Step)
    requires Flow(s) && Enabled(s, step) && step.Allocate?
    ensures Flow(Apply(s, step))
  {
    var t := Apply(s, step);
    forall id | id in t.flight ensures FlightOk(t, id) {
      if id in s.flight { assert FlightOk(s, id); }
    }
    forall id | 1 <= id <= t.tape.latest ensures Placed(t, id) {
      if id <= s.tape.latest { assert Placed(s, id); }
    }
  }

  lemma SendKeepsFlow(s: State, step: Step)
    requires Flow(s) && Enabled(s, step) && step.Send?
    ensures Flow(Apply(s, step))
  {
    var t := Apply(s, step);
    forall id | id in t.flight ensures FlightOk(t, id) { assert FlightOk(s, id); }
    forall id | 1 <= id <= t.tape.latest ensures Placed(t, id) { assert Placed(s, id); }
  }

  lemma RotateKeepsFlow(s: State, step: Step)
    requires Flow(s) && Enabled(s, step) && (step.Rotate? || step.Snapshot?)
    ensures Flow(Apply(s, step))
  {
    var t := Apply(s, step);
    assert FlightOk(s, step.id);
    forall id | id in t.flight ensures FlightOk(t, id) { assert FlightOk(s, id); }
    forall id | 1 <= id <= t.tape.latest ensures Placed(t, id) { assert Placed(s, id); }
  }

  lemma CommitFrame(s: State, id: nat)
    requires Enabled(s, Commit(id)) && 1 <= id <= |s.issued|
    ensures var t := Apply(s, Commit(id));
            && t.flight == (map x | x in s.flight && x != id :: Overlapped(s.flight[x]))
            && t.peak >= s.peak && t.peak >= s.flight[id].others
            && t.tape == WriteItem(s.tape, s.issued[id - 1], s.flight[id].dropped)
            && t.tape.capacity == s.tape.capacity
            && t.issued == s.issued && t.consumed == s.consumed && t.buffer == s.buffer
  {
    hide Project, Missed, SendTo;
  }

  lemma CommitKeepsFlow(s: State, step: Step)
    requires Flow(s) && Enabled(s, step) && step.Commit?
    ensures Flow(Apply(s, step))
  {
    hide Apply;
    assert FlightOk(s, step.id);
    CommitFrame(s, step.id);
    var t := Apply(s, step);
    forall id | id in t.flight ensures FlightOk(t, id) { assert FlightOk(s, id); }
    forall id | 1 <= id <= t.tape.latest ensures Placed(t, id) { assert Placed(s, id); }
  }

  lemma ConsumeKeepsFlow(s: State, step: Step)
    requires Flow(s) && Enabled(s, step) && step.Consume?
    ensures Flow(Apply(s, step))
  {
    var t := Apply(s, step);
    forall id | id in t.flight ensures FlightOk(t, id) { assert FlightOk(s, id); }
    forall id | 1 <= id <= t.tape.latest ensures Placed(t, id) { assert Placed(s, id); }
  }

  lemma {:induction false} ReachableFlow(states: seq<State>, steps: seq<Step>, n: nat)
    requires IsRun(states, steps) && Initial(states[0]) && n < |states|
    ensures Flow(states[n])
  {
    hide Flow, Apply, Initial;
    if n == 0 {
      InitialFlow(states[0]);
    } else {
      ReachableFlow(states, steps, n - 1);
      StepKeepsFlow(states[n - 1], steps[n - 1]);
    }
  }

  // ---------- what has been dropped ----------

  /** What a call in flight drops is beyond the capacity. */
  predicate DropsOld(t: Tape, p: Phase) {
    && (p.Rotating? ==> p.limit <= t.latest)
    && (p.Scanned? ==> forall x | x in p.dropped :: x + t.capacity <= t.latest)
  }

  /** Every event above some ID is in flight, stored, or beyond the capacity. */
  predicate KeptSince(s: State, since: nat) {
    && (forall id | since < id <= s.tape.latest :: Accounted(s, id))
    && (forall id | id in s.flight :: DropsOld(s.tape, s.flight[id]))
  }

  predicate Accounted(s: State, id: nat) {
    id in s.flight || id in s.tape.stored || id + s.tape.capacity <= s.tape.latest
  }

  lemma StepKeepsRetained(s: State, since: nat, step: Step)
    requires Flow(s) && KeptSince(s, since) && Enabled(s, step)
    ensures KeptSince(Apply(s, step), since)
  {
    if step.Commit? {
      CommitKeepsRetained(s, since, step.id);
    } else if IsProducer(step) {
      ProducerKeepsRetained(s, since, step);
    } else {
      QueueUntouched(s, step);
      hide Apply, Flow;
      var t := Apply(s, step);
      forall id | since < id <= t.tape.latest ensures Accounted(t, id) { assert Accounted(s, id); }
    }
  }

  lemma ProducerKeepsRetained(s: State, since: nat, step: Step)
    requires KeptSince(s, since) && Enabled(s, step) && IsProducer(step) && !step.Commit?
    ensures KeptSince(Apply(s, step), since)
  {
    hide Project, Missed;
    var t := Apply(s, step);
    forall id | since < id <= t.tape.latest ensures Accounted(t, id) {
      if id <= s.tape.latest { assert Accounted(s, id); }
    }
    forall id | id in t.flight ensures DropsOld(t.tape, t.flight[id]) {
      if id in s.flight { assert DropsOld(s.tape, s.flight[id]); }
    }
  }

  lemma CommitKeepsRetained(s: State, since: nat, id: nat)
    requires Flow(s) && KeptSince(s, since) && Enabled(s, Commit(id))
    ensures KeptSince(Apply(s, Commit(id)), since)
  {
    hide Apply;
    InFlight(s, id);
    CommitFrame(s, id);
    var t := Apply(s, Commit(id));
    assert DropsOld(s.tape, s.flight[id]);
    forall x | since < x <= t.tape.latest ensures Accounted(t, x) { assert Accounted(s, x); }
    forall x | x in t.flight ensures DropsOld(t.tape, t.flight[x]) { assert DropsOld(s.tape, s.flight[x]); }
  }

  lemma InitialRetained(s: State)
    requires Initial(s)
    ensures KeptSince(s, |s.issued|)
  {
  }

  /** Nothing that is issued in a run is dropped before it is beyond the capacity; nor is what the capacity
      accounts for at its start. */
  lemma {:induction false} ReachableRetained(states: seq<State>, steps: seq<Step>, n: nat, since: nat)
    requires IsRun(states, steps) && Initial(states[0]) && n < |states|
    requires since >= |states[0].issued| || KeptSince(states[0], since)
    ensures KeptSince(states[n], since)
  {
    hide Flow, Apply, Initial;
    if n > 0 {
      hide KeptSince;
      ReachableRetained(states, steps, n - 1, since);
      ReachableFlow(states, steps, n - 1);
      StepKeepsRetained(states[n - 1], since, steps[n - 1]);
    } else {
      InitialRetained(states[0]);
    }
  }

  // ---------- how many events are stored ----------

  function Remaining(t: Tape, dropped: set<nat>): set<nat> { t.stored.Keys - dropped }

  /** What a call in flight will leave of what is stored. */
  predicate LeavesFew(t: Tape, p: Phase) {
    && (p.Rotating? ==> |Remaining(t, Stale(t, p.limit))| <= t.capacity + p.others)
    && (p.Scanned? ==> |Remaining(t, p.dropped)| <= t.capacity + p.others)
  }

  /** No more than `most` events from before, or as many as overlapping calls can leave. */
  predicate Bounded(s: State, most: nat) {
    && |s.tape.stored| <= Max(most, s.tape.capacity + 1 + s.peak)
    && forall id | id in s.flight :: LeavesFew(s.tape, s.flight[id])
  }

  lemma OneMore(a: set<nat>, b: set<nat>, x: nat)
    requires a <= b + {x}
    ensures |a| <= |b| + 1
  {
    Smaller(a, b + {x});
    if x in b { assert b + {x} == b; }
  }

  lemma RotateKeepsBounded(s: State, most: nat, id: nat)
    requires Flow(s) && Bounded(s, most) && Enabled(s, Rotate(id))
    ensures Bounded(Apply(s, Rotate(id)), most)
  {
    hide Flow, Bounded, Stale;
    FreshFew(s);
    BoundedMeans(s, most);
    var t := Apply(s, Rotate(id));
    forall x | x in t.flight ensures LeavesFew(t.tape, t.flight[x]) {}
    MeansBounded(t, most);
  }

  lemma BoundedMeans(s: State, most: nat)
    requires Bounded(s, most)
    ensures |s.tape.stored| <= Max(most, s.tape.capacity + 1 + s.peak)
    ensures forall id | id in s.flight :: LeavesFew(s.tape, s.flight[id])
  {
  }

  lemma MeansBounded(s: State, most: nat)
    requires |s.tape.stored| <= Max(most, s.tape.capacity + 1 + s.peak)
    requires forall id | id in s.flight :: LeavesFew(s.tape, s.flight[id])
    ensures Bounded(s, most)
  {
  }

  lemma FreshFew(s: State)
    requires Flow(s)
    ensures |Remaining(s.tape, Stale(s.tape, s.tape.latest))| <= s.tape.capacity
  {
    var limit, cap := s.tape.latest, s.tape.capacity;
    IdsInRange(Remaining(s.tape, Stale(s.tape, limit)), if limit > cap then limit - cap else 0, limit);
  }

  lemma OthersLeaveFew(t: Tape, u: Tape, p: Phase, id: nat)
    requires LeavesFew(t, p) && u.capacity == t.capacity && u.stored.Keys <= t.stored.Keys + {id}
    ensures LeavesFew(u, Overlapped(p))
  {
    if p.Rotating? {
      OneMore(Remaining(u, Stale(u, p.limit)), Remaining(t, Stale(t, p.limit)), id);
    } else if p.Scanned? {
      OneMore(Remaining(u, p.dropped), Remaining(t, p.dropped), id);
    }
  }

  /** A write leaves no more than the overlap accounts for, however many events were stored before. */
  lemma CommitBounds(s: State, most: nat, id: nat)
    requires Flow(s) && Bounded(s, most) && Enabled(s, Commit(id))
    ensures Bounded(Apply(s, Commit(id)), 0)
  {
    hide Apply, Flow, LeavesFew, Bounded, WriteItem;
    InFlight(s, id);
    BoundedMeans(s, most);
    CommitFrame(s, id);
    var t, p := Apply(s, Commit(id)), s.flight[id];
    WrittenKeys(s.tape, s.issued[id - 1], p);
    forall x | x in t.flight ensures LeavesFew(t.tape, t.flight[x]) {
      OthersLeaveFew(s.tape, t.tape, s.flight[x], s.issued[id - 1].id);
    }
    MeansBounded(t, 0);
  }

  lemma InFlight(s: State, id: nat)
    requires Flow(s) && id in s.flight
    ensures 1 <= id <= |s.issued| && FlightOk(s, id)
  {
    assert FlightOk(s, id);
  }

  lemma WrittenKeys(t: Tape, item: Item, p: Phase)
    requires p.Scanned? && LeavesFew(t, p)
    ensures var u := WriteItem(t, item, p.dropped);
            && u.stored.Keys <= t.stored.Keys + {item.id}
            && |u.stored| <= t.capacity + p.others + 1
  {
    var u := WriteItem(t, item, p.dropped);
    OneMore(u.stored.Keys, Remaining(t, p.dropped), item.id);
    assert |u.stored.Keys| == |u.stored|;
  }

  lemma StepKeepsBounded(s: State, most: nat, step: Step)
    requires Flow(s) && Bounded(s, most) && Enabled(s, step)
    ensures Bounded(Apply(s, step), most)
  {
    match step
    case Rotate(id) => RotateKeepsBounded(s, most, id);
    case Commit(id) => CommitBounds(s, most, id);
    case _ => OtherKeepsBounded(s, most, step);
  }

  lemma OtherKeepsBounded(s: State, most: nat, step: Step)
    requires Bounded(s, most) && Enabled(s, step) && !step.Rotate? && !step.Commit?
    ensures Bounded(Apply(s, step), most)
  {
    hide Project, Missed;
    if step.Allocate? {
      forall id | id in s.flight ensures LeavesFew(NextId(s.tape), s.flight[id]) {
        assert LeavesFew(s.tape, s.flight[id]);
        var p := s.flight[id];
        if p.Rotating? { assert Stale(NextId(s.tape), p.limit) == Stale(s.tape, p.limit); }
      }
    }
  }

  lemma {:induction false} StaysBounded(states: seq<State>, steps: seq<Step>, m: nat, n: nat, most: nat)
    requires IsRun(states, steps) && Initial(states[0]) && m <= n < |states| && Bounded(states[m], most)
    ensures Bounded(states[n], most)
  {
    hide Flow, Apply, Bounded, Initial;
    if n > m {
      StaysBounded(states, steps, m, n - 1, most);
      ReachableFlow(states, steps, n - 1);
      StepKeepsBounded(states[n - 1], most, steps[n - 1]);
    }
  }

  /** However producers interleave, once an event has been written the queue holds at most capacity + 1
      events, and one more for each event that was written by others while an addRotate was under way. Until
      then it holds what it held at the start. */
  lemma ReachableBound(states: seq<State>, steps: seq<Step>, n: nat)
    requires IsRun(states, steps) && Initial(states[0]) && n < |states|
    ensures var s := states[n];
            |s.tape.stored| <= Max(|states[0].tape.stored|, s.tape.capacity + 1 + s.peak)
    ensures (exists m :: 0 <= m < n && steps[m].Commit?) ==>
              var s := states[n]; |s.tape.stored| <= s.tape.capacity + 1 + s.peak
  {
    hide Flow, Apply, LeavesFew;
    StaysBounded(states, steps, 0, n, |states[0].tape.stored|);
    if m :| 0 <= m < n && steps[m].Commit? {
      StaysBounded(states, steps, 0, m, |states[0].tape.stored|);
      ReachableFlow(states, steps, m);
      CommitBounds(states[m], |states[0].tape.stored|, steps[m].id);
      StaysBounded(states, steps, m + 1, n, 0);
    }
  }

  // ---------- loss and duplication at a subscription ----------

  /** Events above L that are neither replayed (not stored) nor still to come (already consumed). */
  function Lost(s: State, L: nat): set<nat> {
    set id | id in s.consumed && L < id && id !in s.tape.stored
  }

  /** Events above L that are replayed (stored) and still to come (not consumed yet). */
  function Twice(s: State, L: nat): set<nat> {
    set id | id in s.tape.stored && L < id && id !in s.consumed
  }

  /** Producers whose event the handler has taken and that have not stored it yet. */
  function Late(s: State): set<nat> {
    set id | id in s.flight && id in s.consumed
  }

  /** Events that the handler has taken and that are no longer stored: they were rotated out. */
  function Rotated(s: State): set<nat> {
    set id | id in s.consumed && id !in s.flight && id !in s.tape.stored
  }

  predicate NothingRotated(s: State, L: nat) { forall id | id in Rotated(s) :: id <= L }

  /** Nothing is rotated out before its time. */
  lemma WithinCapacity(s: State, since: nat, L: nat)
    requires Flow(s) && KeptSince(s, since)
    ensures forall id | id in Rotated(s) && since < id :: id + s.tape.capacity <= s.tape.latest
    ensures since <= L && L + s.tape.capacity >= s.tape.latest ==> NothingRotated(s, L)
  {
    forall id | id in Rotated(s) && since < id
      ensures id + s.tape.capacity <= s.tape.latest
    {
      assert Accounted(s, id);
    }
  }

  /** Exactly the events of late producers and those that were rotated out are lost, and only the event in
      the buffer can come twice. */
  lemma LossAndDuplication(s: State, L: nat)
    requires Flow(s)
    ensures Lost(s, L) == set id | id in Late(s) + Rotated(s) && L < id
    ensures NothingRotated(s, L) ==> |Lost(s, L)| <= |Late(s)| <= |s.flight|
    ensures forall id | id in Twice(s, L) :: s.buffer == Some(id)
    ensures |Twice(s, L)| <= 1
  {
    hide Flow;
    forall id ensures id in Lost(s, L) <==> id in Late(s) + Rotated(s) && L < id {
      if id in Late(s) { InFlight(s, id); }
    }
    forall id | id in Twice(s, L) ensures s.buffer == Some(id) { TwiceIsBuffered(s, L, id); }
    hide Lost, Twice;
    OnlyOne(Twice(s, L), if s.buffer.Some? then s.buffer.value else 0);
    if NothingRotated(s, L) {
      Smaller(Lost(s, L), Late(s));
      Smaller(Late(s), s.flight.Keys);
      assert |s.flight.Keys| == |s.flight|;
    }
  }

  /** With no producer in flight and an empty buffer, nothing comes twice, and nothing is lost but what was
      rotated out. */
  lemma QuietIsExact(s: State, L: nat)
    requires Flow(s) && s.flight == map[] && s.buffer == None
    ensures Twice(s, L) == {} && Lost(s, L) == set id | id in Rotated(s) && L < id
    ensures NothingRotated(s, L) ==> Lost(s, L) == {}
  {
    LossAndDuplication(s, L);
  }

  // ---------- one producer at a time ----------

  /** An ID is only allocated when no other storeAndNotify call is in flight. */
  predicate OneAtATime(steps: seq<Step>, states: seq<State>)
    requires |states| == |steps| + 1
  {
    forall i | 0 <= i < |steps| && steps[i].Allocate? :: states[i].flight == map[]
  }

  predicate Alone(p: Phase) { (p.Rotating? ==> p.others == 0) && (p.Scanned? ==> p.others == 0) }

  /** Then the one in flight has the newest ID and nobody writes beside it; the newest event is kept; and
      nothing newer than the buffered event was sent. */
  predicate Single(s: State) {
    && s.peak == 0
    && (forall id | id in s.flight :: id == s.tape.latest && Alone(s.flight[id])
                                       && (s.flight[id].Scanned? ==> id !in s.flight[id].dropped))
    && (s.tape.latest == 0 || s.tape.latest in s.flight || s.tape.latest in s.tape.stored)
    && (s.buffer.Some? ==> forall id | s.buffer.value < id <= s.tape.latest :: id in s.flight && s.flight[id] == Unsent)
  }

  lemma StepKeepsSingle(s: State, step: Step)
    requires Flow(s) && Single(s) && Enabled(s, step) && (step.Allocate? ==> s.flight == map[])
    ensures Single(Apply(s, step))
  {
    if step.Commit? {
      CommitKeepsSingle(s, step.id);
    } else if IsProducer(step) {
      ProducerKeepsSingle(s, step);
    } else {
      QueueUntouched(s, step);
      hide Apply, Flow;
    }
  }

  lemma QueueUntouched(s: State, step: Step)
    requires Enabled(s, step) && !IsProducer(step)
    ensures var t := Apply(s, step);
            && t.tape == s.tape && t.flight == s.flight && t.issued == s.issued && t.peak == s.peak
            && t.buffer == if step.Consume? then None else s.buffer
  {
    hide Project, Missed;
  }

  lemma CommitKeepsSingle(s: State, id: nat)
    requires Flow(s) && Single(s) && Enabled(s, Commit(id))
    ensures Single(Apply(s, Commit(id)))
  {
    hide Apply;
    InFlight(s, id);
    CommitFrame(s, id);
    CommitPeak(s, id);
  }

  lemma CommitPeak(s: State, id: nat)
    requires Enabled(s, Commit(id))
    ensures Apply(s, Commit(id)).peak == if s.flight[id].others > s.peak then s.flight[id].others else s.peak
  {
  }

  lemma ProducerKeepsSingle(s: State, step: Step)
    requires Flow(s) && Single(s) && Enabled(s, step) && (step.Allocate? ==> s.flight == map[])
    requires IsProducer(step) && !step.Commit?
    ensures Single(Apply(s, step))
  {
    hide Project, Missed;
    assert step.Snapshot? || step.Rotate? ==> FlightOk(s, step.id);
  }

  lemma {:induction false} ReachableSingle(states: seq<State>, steps: seq<Step>, n: nat)
    requires IsRun(states, steps) && Initial(states[0]) && n < |states| && OneAtATime(steps, states)
    ensures Single(states[n])
  {
    hide Flow, Apply;
    if n > 0 {
      ReachableSingle(states, steps, n - 1);
      ReachableFlow(states, steps, n - 1);
      StepKeepsSingle(states[n - 1], steps[n - 1]);
    }
  }

  /** With one producer the queue never holds more than capacity + 1 events once one has been written. */
  lemma SingleProducerBound(states: seq<State>, steps: seq<Step>, n: nat)
    requires IsRun(states, steps) && Initial(states[0]) && n < |states| && OneAtATime(steps, states)
    ensures |states[n].tape.stored| <= Max(|states[0].tape.stored|, states[n].tape.capacity + 1)
    ensures (exists m :: 0 <= m < n && steps[m].Commit?) ==> |states[n].tape.stored| <= states[n].tape.capacity + 1
  {
    ReachableBound(states, steps, n);
    ReachableSingle(states, steps, n);
  }

  /** With one producer, loss and duplication together concern at most one event: the newest one
      consumed, or the newest one stored. */
  lemma SingleProducerSeam(states: seq<State>, steps: seq<Step>, n: nat, L: nat)
    requires IsRun(states, steps) && Initial(states[0]) && n < |states| && OneAtATime(steps, states)
    requires NothingRotated(states[n], L)
    ensures |Lost(states[n], L) + Twice(states[n], L)| <= 1
    ensures forall id, other | id in Lost(states[n], L) && other in states[n].consumed :: other <= id
    ensures forall id, other | id in Twice(states[n], L) && other in states[n].tape.stored :: other <= id
  {
    ReachableFlow(states, steps, n);
    ReachableSingle(states, steps, n);
    SingleSeam(states[n], L);
  }

  lemma Whereabouts(s: State, id: nat)
    requires Flow(s)
    ensures id in s.flight ==> FlightOk(s, id)
    ensures 1 <= id <= s.tape.latest ==> Placed(s, id)
  {
  }

  lemma LostIsNewest(s: State, L: nat, id: nat)
    requires Flow(s) && Single(s) && NothingRotated(s, L) && id in Lost(s, L)
    ensures id == s.tape.latest && s.buffer == None
    ensures forall other | other in s.consumed :: other <= id
  {
    assert id in Rotated(s) || id in s.flight;
    Whereabouts(s, id);
  }

  lemma TwiceIsNewest(s: State, L: nat, id: nat, other: nat)
    requires Flow(s) && Single(s) && id in Twice(s, L) && other in s.tape.stored
    ensures other <= id && s.buffer == Some(id)
  {
    Whereabouts(s, id);
    Whereabouts(s, other);
  }

  lemma SingleSeam(s: State, L: nat)
    requires Flow(s) && Single(s) && NothingRotated(s, L)
    ensures |Lost(s, L) + Twice(s, L)| <= 1
    ensures forall id, other | id in Lost(s, L) && other in s.consumed :: other <= id
    ensures forall id, other | id in Twice(s, L) && other in s.tape.stored :: other <= id
  {
    hide Flow, Single, Lost, Twice;
    var lost, twice := Lost(s, L), Twice(s, L);
    forall id | id in lost
      ensures id == s.tape.latest && s.buffer == None && forall other | other in s.consumed :: other <= id
    {
      LostIsNewest(s, L, id);
    }
    forall id | id in twice ensures s.buffer == Some(id) { TwiceIsBuffered(s, L, id); }
    forall id, other | id in twice && other in s.tape.stored ensures other <= id { TwiceIsNewest(s, L, id, other); }
    OnlyOne(lost + twice, if s.buffer.Some? then s.buffer.value else s.tape.latest);
  }

  lemma TwiceIsBuffered(s: State, L: nat, id: nat)
    requires Flow(s) && id in Twice(s, L)
    ensures s.buffer == Some(id)
  {
    Whereabouts(s, id);
  }

  lemma OnlyOne(ids: set<nat>, id: nat)
    requires forall x | x in ids :: x == id
    ensures |ids| <= 1
  {
    if ids != {} { assert ids == {id}; }
  }
}
