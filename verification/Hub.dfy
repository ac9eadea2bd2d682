/**
 The protocol from one quiet moment to the next: whatever the schedule in between, one event, one
 subscription or one departure has exactly one outcome.
 */
module Hub {
  import opened Json
  import opened Ids
  import opened EventQueue
  import opened EventLog
  import opened Protocol
  import opened Seam
  import opened Sessions

  datatype Hub = Hub(
    tape: Tape,
    log: seq<Item>,
    active: map<Chan, Subscriber>,
    closed: set<Chan>,
    delivered: map<Chan, seq<Item>>)

  function NextItem(h: Hub, kind: EventType, data: Members): Item { Item(h.tape.latest + 1, kind, data) }

  /** One more event gets its ID and is stored. */
  function Announce(h: Hub, kind: EventType, data: Members): Hub {
    var item := NextItem(h, kind, data);
    h.(tape := StoreItem(NextId(h.tape), item), log := h.log + [item])
  }

  /** An event is sent to every active client. */
  function Dispatch(h: Hub, item: Item): Hub { h.(delivered := Dispatched(h.active, h.delivered, item)) }

  function Dispatched(active: map<Chan, Subscriber>, delivered: map<Chan, seq<Item>>, item: Item)
    : map<Chan, seq<Item>>
  {
    map c | c in delivered :: delivered[c] + if c in active then Project(active[c], [item]) else []
  }

  function Produce(h: Hub, kind: EventType, data: Members): Hub {
    Dispatch(Announce(h, kind, data), NextItem(h, kind, data))
  }

  function Connect(h: Hub, c: Chan, sub: Subscriber): Hub {
    h.(active := h.active[c := sub], delivered := h.delivered[c := Project(sub, Missed(h.tape, sub.resume))])
  }

  function Disconnect(h: Hub, c: Chan): Hub {
    h.(active := h.active - {c}, closed := h.closed + {c})
  }

  // ---------- quiet states ----------

  /** A client whose subscription the handler has taken. */
  predicate Joined(s: State, c: Chan) { c in s.clients && s.clients[c].reader != Subscribing }

  function HubOf(s: State): Hub {
    Hub(s.tape, s.issued, s.active, s.closed, map c | c in s.delivered && Joined(s, c) :: s.delivered[c])
  }

  predicate Safe(s: State) { Channels(s) && Numbered(s) && Recorded(s) }

  /** Nothing is in flight and nobody is busy. */
  predicate Quiet(s: State) {
    && Safe(s)
    && s.flight == map[] && s.buffer == None && s.handler.Idle?
    && forall c | c in s.active :: ReaderIs(s, c, Receiving)
  }

  /** The steps by which something happens; all others carry it through. */
  predicate Matters(step: Step) { step.Allocate? || step.Subscribe? || step.Unsubscribe? }

  /** What should become of the hub by such a step. */
  function HubAfter(s: State, step: Step): Hub
    requires Enabled(s, step)
  {
    match step
    case Allocate(kind, data) => Produce(HubOf(s), kind, data)
    case Subscribe(c) => Connect(HubOf(s), c, s.clients[c].sub)
    case Unsubscribe(c) => Disconnect(HubOf(s), c)
    case _ => HubOf(s)
  }

  // ---------- on the way to the next quiet state ----------

  /** What a call in flight will drop. */
  function DroppedBy(t: Tape, p: Phase): set<nat> {
    match p
    case Rotating(limit, _) => Stale(t, limit)
    case Scanned(dropped, _) => dropped
    case _ => Stale(t, t.latest)
  }

  /** At most the newest event is on its way. */
  predicate InTransit(s: State) {
    && s.flight.Keys <= {s.tape.latest}
    && (s.buffer.Some? ==>
          && s.buffer.value == s.tape.latest
          && (s.tape.latest in s.flight ==> s.flight[s.tape.latest] != Unsent))
  }

  predicate Unwritten(s: State) { s.tape.latest in s.flight && 1 <= s.tape.latest <= |s.issued| }

  /** The tape once the event in flight is written. */
  function Finished(s: State): Tape {
    if Unwritten(s) then
      WriteItem(s.tape, s.issued[s.tape.latest - 1], DroppedBy(s.tape, s.flight[s.tape.latest]))
    else
      s.tape
  }

  /** The handler has still to take the newest event. */
  predicate Awaited(s: State) {
    && 1 <= s.tape.latest <= |s.issued|
    && (s.buffer.Some? || (s.tape.latest in s.flight && s.flight[s.tape.latest] == Unsent))
  }

  function Coming(s: State, sub: Subscriber): seq<Item> {
    if Awaited(s) then Project(sub, [s.issued[s.tape.latest - 1]]) else []
  }

  /** What a client will have received at the next quiet moment. */
  function Due(s: State, c: Chan): seq<Item>
    requires c in s.delivered
  {
    if c in s.active then Owed(s, c) + Coming(s, s.active[c]) else s.delivered[c]
  }

  ghost predicate Heading(g: Hub, s: State) {
    && Safe(s) && InTransit(s)
    && s.issued == g.log && s.active == g.active && s.closed == g.closed
    && Finished(s) == g.tape
    && (forall c :: c in g.delivered <==> c in s.delivered && Joined(s, c))
    && (forall c | c in g.delivered :: g.delivered[c] == Due(s, c))
  }

  lemma StepKeepsSafe(s: State, step: Step)
    requires Safe(s) && Enabled(s, step)
    ensures Safe(Apply(s, step))
  {
    hide Apply, Channels, Numbered, Recorded;
    StepKeepsChannels(s, step);
    StepKeepsRecorded(s, step);
    StepKeepsNumbered(s, step);
  }

  /** Carrying an event through does not change what the tape will be, nor which event it is. */
  lemma TransitStep(s: State, step: Step)
    requires Numbered(s) && InTransit(s) && Enabled(s, step) && !Matters(step)
    ensures var t := Apply(s, step);
            && InTransit(t) && Finished(t) == Finished(s)
            && t.issued == s.issued && t.active == s.active && t.closed == s.closed
            && (Awaited(t) <==> Awaited(s) && !step.Consume?)
            && t.tape.latest == s.tape.latest
  {
    if IsProducer(step) {
      ProducerTransit(s, step);
    } else {
      QueueUntouched(s, step);
      RegistryUntouched(s, step);
      hide Apply, Unwritten;
    }
  }

  lemma ProducerTransit(s: State, step: Step)
    requires Numbered(s) && InTransit(s) && Enabled(s, step) && !Matters(step) && IsProducer(step)
    ensures var t := Apply(s, step);
            && InTransit(t) && Finished(t) == Finished(s)
            && t.issued == s.issued && t.active == s.active && t.closed == s.closed
            && (Awaited(t) <==> Awaited(s)) && t.tape.latest == s.tape.latest
  {
    hide Project, Missed;
  }

  lemma RegistryUntouched(s: State, step: Step)
    requires Enabled(s, step) && !IsProducer(step) && !Matters(step)
    ensures Apply(s, step).active == s.active && Apply(s, step).closed == s.closed
  {
    hide Project, Missed;
  }

  lemma ComingStep(s: State, step: Step, sub: Subscriber)
    requires Numbered(s) && InTransit(s) && Enabled(s, step) && !Matters(step)
    ensures Added(s, step, sub) + Coming(Apply(s, step), sub) == Coming(s, sub)
  {
    hide Project, Apply;
    TransitStep(s, step);
    BufferNumbered(s);
    assert Added(s, step, sub) + [] == Added(s, step, sub);
    assert [] + Coming(s, sub) == Coming(s, sub);
  }

  /** Nobody else is sent anything, and nobody joins. */
  lemma OthersKeep(s: State, step: Step, c: Chan)
    requires Safe(s) && Enabled(s, step) && !Matters(step)
    ensures c in s.delivered && Joined(s, c) <==> c in Apply(s, step).delivered && Joined(Apply(s, step), c)
    ensures c in s.delivered && Joined(s, c) && c !in s.active ==> Apply(s, step).delivered[c] == s.delivered[c]
  {
    if step.Deliver? || step.DeliverMissed? {
      DeliveryKeeps(s, step, c);
    } else {
      hide Project, Missed, WriteItem, Stale, Trim, SendTo, Recorded, Numbered;
    }
  }

  lemma DeliveryKeeps(s: State, step: Step, c: Chan)
    requires Safe(s) && Enabled(s, step) && (step.Deliver? || step.DeliverMissed?)
    ensures c in s.delivered && Joined(s, c) <==> c in Apply(s, step).delivered && Joined(Apply(s, step), c)
    ensures c in s.delivered && Joined(s, c) && c !in s.active ==> Apply(s, step).delivered[c] == s.delivered[c]
  {
    hide SendTo, Project, Numbered;
    var to := if step.Deliver? then step.c else s.handler.to;
    assert ClientOk(s, to);
    SendToEffect(s, to, if step.Deliver? then s.issued[s.handler.id - 1] else s.handler.rest[0]);
  }

  lemma DueStep(s: State, step: Step, c: Chan)
    requires Safe(s) && InTransit(s) && Enabled(s, step) && !Matters(step) && c in s.delivered && Joined(s, c)
    ensures c in Apply(s, step).delivered && Due(Apply(s, step), c) == Due(s, c)
  {
    hide Apply, Owed, Coming, Added, InTransit, Channels, Numbered, Recorded, Joined;
    OthersKeep(s, step, c);
    TransitStep(s, step);
    if c in s.active {
      StepOwes(s, step, c);
      ComingStep(s, step, s.active[c]);
      var t, sub := Apply(s, step), s.active[c];
      assert Owed(s, c) + Added(s, step, sub) + Coming(t, sub) == Owed(s, c) + (Added(s, step, sub) + Coming(t, sub));
    }
  }

  lemma HeadingStep(g: Hub, s: State, step: Step)
    requires Heading(g, s) && Enabled(s, step) && !Matters(step)
    ensures Heading(g, Apply(s, step))
  {
    hide Apply, Safe, Joined, Due, InTransit, Finished;
    StepKeepsSafe(s, step);
    SafeMeans(s);
    TransitStep(s, step);
    var t := Apply(s, step);
    forall c ensures c in g.delivered <==> c in t.delivered && Joined(t, c) { OthersKeep(s, step, c); }
    forall c | c in g.delivered ensures g.delivered[c] == Due(t, c) { DueStep(s, step, c); }
  }

  lemma SafeMeans(s: State)
    requires Safe(s)
    ensures Channels(s) && Numbered(s) && Recorded(s)
  {
  }

  lemma QuietMeans(s: State)
    requires Quiet(s)
    ensures Safe(s) && !s.panicked && |s.issued| == s.tape.latest
    ensures s.flight == map[] && s.buffer == None && s.handler.Idle?
    ensures forall c | c in s.active :: ReaderIs(s, c, Receiving) && c in s.delivered && Joined(s, c)
  {
    forall c | c in s.active ensures Joined(s, c) { assert ClientOk(s, c); }
  }

  lemma QuietDue(s: State, c: Chan)
    requires Quiet(s) && c in s.delivered
    ensures Due(s, c) == s.delivered[c]
  {
    hide Safe;
    assert s.delivered[c] + [] + [] == s.delivered[c];
  }

  /** A quiet state has arrived where it was heading. */
  lemma QuietHasArrived(g: Hub, s: State)
    requires Quiet(s)
    ensures Heading(g, s) <==> HubOf(s) == g
  {
    hide Safe, Joined, Due;
    QuietMeans(s);
    forall c | c in s.delivered ensures Due(s, c) == s.delivered[c] { QuietDue(s, c); }
  }

  /** Nothing that does not matter disturbs a quiet state. */
  lemma QuietStep(s: State, step: Step)
    requires Quiet(s) && Enabled(s, step) && !Matters(step)
    ensures Quiet(Apply(s, step)) && HubOf(Apply(s, step)) == HubOf(s)
  {
    hide Safe, Apply, Heading, HubOf;
    QuietHasArrived(HubOf(s), s);
    HeadingStep(HubOf(s), s, step);
    StepKeepsSafe(s, step);
    NobodyGetsBusy(s, step);
    QuietHasArrived(HubOf(s), Apply(s, step));
  }

  lemma NobodyGetsBusy(s: State, step: Step)
    requires Quiet(s) && Enabled(s, step) && !Matters(step)
    ensures var t := Apply(s, step);
            && t.flight == map[] && t.buffer == None && t.handler.Idle?
            && forall c | c in t.active :: ReaderIs(t, c, Receiving)
  {
    QuietClients(s);
    hide Safe, Project, Missed;
  }

  lemma QuietClients(s: State)
    requires Quiet(s)
    ensures s.closed !! s.active.Keys
  {
    forall c | c in s.clients ensures ClientOk(s, c) {}
  }

  // ---------- the three things that can happen ----------

  lemma AllocateHeads(s: State, step: Step)
    requires Quiet(s) && Enabled(s, step) && step.Allocate?
    ensures Heading(HubAfter(s, step), Apply(s, step))
  {
    hide Safe, Project, Missed, StoreItem, WriteItem, Stale, Joined;
    QuietMeans(s);
    StepKeepsSafe(s, step);
    var t, g := Apply(s, step), HubAfter(s, step);
    assert t.tape.latest == |s.issued| + 1 && Finished(t) == g.tape by { hide *; FinishedAllocated(s, step); }
    forall c | c in g.delivered ensures g.delivered[c] == Due(t, c) {
      assert s.delivered[c] + [] == s.delivered[c];
    }
    forall c ensures Joined(t, c) <==> Joined(s, c) { SameJoined(s, t, c); }
  }

  lemma SameJoined(s: State, t: State, c: Chan)
    requires s.clients == t.clients
    ensures Joined(t, c) <==> Joined(s, c)
  {
  }

  lemma FinishedAllocated(s: State, step: Step)
    requires Quiet(s) && Enabled(s, step) && step.Allocate?
    ensures Apply(s, step).tape.latest == |s.issued| + 1
    ensures Finished(Apply(s, step)) == HubAfter(s, step).tape
  {
    QuietMeans(s);
    hide Safe, Project, Missed;
  }

  lemma SubscribeHeads(s: State, step: Step)
    requires Quiet(s) && Enabled(s, step) && step.Subscribe?
    ensures Heading(HubAfter(s, step), Apply(s, step))
  {
    hide Safe, Project, Missed, StoreItem, WriteItem, Stale;
    QuietMeans(s);
    StepKeepsSafe(s, step);
    SafeMeans(s);
    SubscribeOwes(s, step.c);
    var t, g := Apply(s, step), HubAfter(s, step);
    forall c | c in g.delivered ensures g.delivered[c] == Due(t, c) {
      assert g.delivered[c] + [] == g.delivered[c];
    }
  }

  lemma UnsubscribeHeads(s: State, step: Step)
    requires Quiet(s) && Enabled(s, step) && step.Unsubscribe?
    ensures Heading(HubAfter(s, step), Apply(s, step))
  {
    hide Safe, Project, Missed, StoreItem, WriteItem, Stale;
    QuietMeans(s);
    StepKeepsSafe(s, step);
    var t, g := Apply(s, step), HubAfter(s, step);
    forall c | c in g.delivered ensures g.delivered[c] == Due(t, c) {
      assert g.delivered[c] + [] == g.delivered[c];
    }
  }

  // ---------- every schedule ----------

  /** Of a run's steps exactly the one at a given position matters. */
  predicate Only(steps: seq<Step>, a: nat) {
    a < |steps| && Matters(steps[a]) && forall i | 0 <= i < |steps| && i != a :: !Matters(steps[i])
  }

  lemma {:induction false} StaysQuiet(states: seq<State>, steps: seq<Step>, k: nat)
    requires IsRun(states, steps) && Quiet(states[0]) && k < |states|
    requires forall i | 0 <= i < k :: !Matters(steps[i])
    ensures Quiet(states[k]) && HubOf(states[k]) == HubOf(states[0])
  {
    hide Apply, Quiet, HubOf;
    if k > 0 {
      StaysQuiet(states, steps, k - 1);
      QuietStep(states[k - 1], steps[k - 1]);
    }
  }

  lemma {:induction false} KeepsHeading(g: Hub, states: seq<State>, steps: seq<Step>, a: nat, k: nat)
    requires IsRun(states, steps) && a <= k < |states| && Heading(g, states[a])
    requires forall i | a <= i < k :: !Matters(steps[i])
    ensures Heading(g, states[k])
  {
    hide Apply, Heading;
    if k > a {
      KeepsHeading(g, states, steps, a, k - 1);
      HeadingStep(g, states[k - 1], steps[k - 1]);
    }
  }

  /** In every run from one quiet state to another in which one event is produced, one client subscribes
      or one leaves, and nothing else of the kind happens, the outcome is the same, however the steps of
      the producer, the handler, the queue and all the readers and watchers interleave. */
  lemma EverySchedule(states: seq<State>, steps: seq<Step>, a: nat)
    requires IsRun(states, steps) && Quiet(states[0]) && Quiet(states[|steps|]) && Only(steps, a)
    ensures Enabled(states[a], steps[a])
    ensures steps[a].Allocate? ==> HubOf(states[|steps|]) == Produce(HubOf(states[0]), steps[a].kind, steps[a].data)
    ensures steps[a].Subscribe? ==>
              HubOf(states[|steps|]) == Connect(HubOf(states[0]), steps[a].c, states[a].clients[steps[a].c].sub)
    ensures steps[a].Unsubscribe? ==> HubOf(states[|steps|]) == Disconnect(HubOf(states[0]), steps[a].c)
  {
    hide Apply, Heading, Quiet, HubOf, Produce, Connect, Disconnect;
    StaysQuiet(states, steps, a);
    var g := HubAfter(states[a], steps[a]);
    match steps[a] {
      case Allocate(_, _) => AllocateHeads(states[a], steps[a]);
      case Subscribe(_) => SubscribeHeads(states[a], steps[a]);
      case Unsubscribe(_) => UnsubscribeHeads(states[a], steps[a]);
      case _ =>
    }
    KeepsHeading(g, states, steps, a + 1, |steps|);
    QuietHasArrived(g, states[|steps|]);
  }

  // ---------- such runs exist ----------

  lemma RunConcat(a: seq<State>, x: seq<Step>, b: seq<State>, y: seq<Step>)
    requires IsRun(a, x) && IsRun(b, y) && a[|x|] == b[0]
    ensures IsRun(a + b[1..], x + y)
    ensures (a + b[1..])[0] == a[0] && (a + b[1..])[|x + y|] == b[|y|]
  {
    hide Apply, Enabled;
    var states, steps := a + b[1..], x + y;
    forall i | 0 <= i <= |y| ensures states[|x| + i] == b[i] {}
    forall i | 0 <= i < |steps| ensures Enabled(states[i], steps[i]) && states[i + 1] == Apply(states[i], steps[i]) {
      if i >= |x| { assert steps[i] == y[i - |x|]; }
    }
  }

  predicate Settling(step: Step) { step.Deliver? || step.DeliverMissed? || step.Return? || step.Written? }

  /** Nothing but the handler and the readers has moved. */
  predicate Carried(s: State, t: State) {
    && t.tape == s.tape && t.flight == s.flight && t.buffer == s.buffer && t.peak == s.peak
    && t.issued == s.issued && t.consumed == s.consumed
    && t.active == s.active && t.closed == s.closed && t.clients.Keys == s.clients.Keys
  }

  predicate AtRest(s: State) { s.handler.Idle? && forall c | c in s.active :: ReaderIs(s, c, Receiving) }

  /** The handler and the readers can always come to rest. */
  lemma {:induction false} SettleRuns(s: State) returns (states: seq<State>, steps: seq<Step>)
    requires Safe(s)
    ensures IsRun(states, steps) && states[0] == s
    ensures var t := states[|steps|]; Safe(t) && AtRest(t) && Carried(s, t)
    ensures forall i | 0 <= i < |steps| :: Settling(steps[i])
    decreases Work(s), |BusyAmong(s, s.active.Keys)|
  {
    hide Work, Apply, HandlerStep, Safe, AtRest;
    if s.handler.Idle? && BusyAmong(s, s.active.Keys) == {} {
      states, steps := [s], [];
      AllReceive(s);
    } else {
      var step := SettlingStep(s);
      StepKeepsSafe(s, step);
      SettlingFrame(s, step);
      var more, rest := SettleRuns(Apply(s, step));
      assert IsRun([s, Apply(s, step)], [step]);
      RunConcat([s, Apply(s, step)], [step], more, rest);
      states, steps := [s, Apply(s, step)] + more[1..], [step] + rest;
    }
  }

  lemma SettlingFrame(s: State, step: Step)
    requires Enabled(s, step) && Settling(step)
    ensures Carried(s, Apply(s, step))
  {
    QueueUntouched(s, step);
    RegistryUntouched(s, step);
    HistoryAfter(s, step);
    if IsDelivery(step) {
      DeliveryFrame(s, step);
      hide Apply;
    }
  }

  lemma AllReceive(s: State)
    requires Safe(s) && s.handler.Idle? && BusyAmong(s, s.active.Keys) == {}
    ensures AtRest(s)
  {
    SafeMeans(s);
    forall c | c in s.active ensures ReaderIs(s, c, Receiving) {
      assert ClientOk(s, c) && c !in BusyAmong(s, s.active.Keys);
    }
  }

  lemma SettlingStep(s: State) returns (step: Step)
    requires Safe(s) && (!s.handler.Idle? || BusyAmong(s, s.active.Keys) != {})
    ensures Enabled(s, step) && Settling(step)
    ensures var t := Apply(s, step);
            || Work(t) < Work(s)
            || (Work(t) == Work(s) && |BusyAmong(t, t.active.Keys)| < |BusyAmong(s, s.active.Keys)|)
  {
    if s.handler.Idle? {
      var c :| c in BusyAmong(s, s.active.Keys);
      step := Written(c);
      var t := Apply(s, step);
      assert BusyAmong(t, t.active.Keys) == BusyAmong(s, s.active.Keys) - {c};
    } else {
      step := HandlerStep(s);
      HandlerMoves(s);
      hide Safe, Work, Channels, Numbered, Recorded;
    }
  }

  /** An event can always be produced and handled, */
  lemma ProduceRuns(s: State, kind: EventType, data: Members) returns (states: seq<State>, steps: seq<Step>)
    requires Quiet(s) && s.tape.latest + 2 < WORD
    ensures IsRun(states, steps) && states[0] == s && Only(steps, 0) && steps[0] == Allocate(kind, data)
    ensures Quiet(states[|steps|]) && HubOf(states[|steps|]) == Produce(HubOf(s), kind, data)
  {
    var a, x := AnnounceRuns(s, kind, data);
    var b, y := SettleRuns(a[|x|]);
    RunConcat(a, x, b, y);
    states, steps := a + b[1..], x + y;
    hide *;
    EverySchedule(states, steps, 0);
  }

  lemma AnnounceRuns(s: State, kind: EventType, data: Members) returns (states: seq<State>, steps: seq<Step>)
    requires Quiet(s) && s.tape.latest + 2 < WORD
    ensures IsRun(states, steps) && states[0] == s && |steps| == 6 && steps[0] == Allocate(kind, data)
    ensures forall i | 1 <= i < 6 :: !Matters(steps[i])
    ensures Safe(states[6]) && states[6].flight == map[] && states[6].buffer == None
  {
    hide Safe, Apply, StoreItem;
    QuietMeans(s);
    var a, x := SendRuns(s, kind, data);
    var b, y := TakeRuns(a[2]);
    RunConcat(a, x, b, y);
    var id := s.tape.latest + 1;
    var c, z := RotateRuns(b[1], id);
    RunConcat(a + b[1..], x + y, c, z);
    states, steps := a + b[1..] + c[1..], x + y + z;
  }

  /** An event gets its ID and passes the Notifier, */
  lemma SendRuns(s: State, kind: EventType, data: Members) returns (states: seq<State>, steps: seq<Step>)
    requires Safe(s) && s.buffer == None && s.tape.latest + 2 < WORD
    ensures var id := s.tape.latest + 1;
            && IsRun(states, steps) && states[0] == s && steps == [Allocate(kind, data), Send(id)] && Safe(states[2])
            && states[2] == s.(tape := NextId(s.tape), flight := s.flight[id := Sent], buffer := Some(id),
                               issued := s.issued + [Item(id, kind, data)])
  {
    hide Safe;
    SafeMeans(s);
    var id := s.tape.latest + 1;
    steps := [Allocate(kind, data), Send(id)];
    var s1 := Apply(s, steps[0]);
    StepKeepsSafe(s, steps[0]);
    var s2 := Apply(s1, steps[1]);
    StepKeepsSafe(s1, steps[1]);
    states := [s, s1, s2];
  }

  /** is taken by the handler, */
  lemma TakeRuns(s: State) returns (states: seq<State>, steps: seq<Step>)
    requires Safe(s) && s.buffer.Some? && s.handler.Idle?
    ensures IsRun(states, steps) && states[0] == s && steps == [Consume] && Safe(states[1])
    ensures var id := s.buffer.value;
            states[1] == s.(buffer := None, consumed := s.consumed + [id], handler := Dispatching(id, s.active.Keys))
  {
    hide Safe;
    SafeMeans(s);
    StepKeepsSafe(s, Consume);
    states, steps := [s, Apply(s, Consume)], [Consume];
  }

  /** and is written by an undisturbed addRotate. */
  lemma RotateRuns(s: State, id: nat) returns (states: seq<State>, steps: seq<Step>)
    requires Safe(s) && id in s.flight && forall x | x in s.flight :: s.flight[x] == Sent
    ensures IsRun(states, steps) && states[0] == s && steps == [Rotate(id), Snapshot(id), Commit(id)]
    ensures Safe(states[3]) && 1 <= id <= |s.issued|
    ensures states[3] == s.(flight := s.flight - {id}, tape := StoreItem(s.tape, s.issued[id - 1]))
  {
    hide Safe, WriteItem, Stale;
    SafeMeans(s);
    steps := [Rotate(id), Snapshot(id), Commit(id)];
    var s1 := Apply(s, steps[0]);
    StepKeepsSafe(s, steps[0]);
    var s2 := Apply(s1, steps[1]);
    StepKeepsSafe(s1, steps[1]);
    var s3 := Apply(s2, steps[2]);
    StepKeepsSafe(s2, steps[2]);
    assert s3.flight == s.flight - {id};
    states := [s, s1, s2, s3];
  }

  /** a new client can always subscribe, */
  lemma ConnectRuns(s: State, c: Chan, sub: Subscriber) returns (states: seq<State>, steps: seq<Step>)
    requires Quiet(s) && c !in s.clients
    ensures IsRun(states, steps) && states[0] == s && Only(steps, 1) && steps[..2] == [Open(c, sub), Subscribe(c)]
    ensures Quiet(states[|steps|]) && HubOf(states[|steps|]) == Connect(HubOf(s), c, sub)
  {
    hide Safe, Apply, Enabled, HubOf, Connect;
    QuietMeans(s);
    var a, x := JoinRuns(s, c, sub);
    var b, y := SettleRuns(a[2]);
    RunConcat(a, x, b, y);
    states, steps := a + b[1..], x + y;
    assert states[1] == a[1] && steps[..2] == x;
    EverySchedule(states, steps, 1);
  }

  lemma JoinRuns(s: State, c: Chan, sub: Subscriber) returns (states: seq<State>, steps: seq<Step>)
    requires Safe(s) && s.handler.Idle? && c !in s.clients
    ensures IsRun(states, steps) && states[0] == s && steps == [Open(c, sub), Subscribe(c)]
    ensures c in states[1].clients && states[1].clients[c].sub == sub
    ensures var t := states[2];
            && Safe(t) && c in t.active && t.clients.Keys == s.clients.Keys + {c} && t.active == s.active[c := sub]
            && t.tape == s.tape && t.flight == s.flight && t.buffer == s.buffer
            && t.issued == s.issued && t.consumed == s.consumed
    ensures var t := states[1];
            && t.tape == s.tape && t.flight == s.flight && t.buffer == s.buffer
            && t.issued == s.issued && t.consumed == s.consumed
  {
    hide Project, Missed, Safe;
    SafeMeans(s);
    steps := [Open(c, sub), Subscribe(c)];
    var s1 := Apply(s, steps[0]);
    StepKeepsSafe(s, steps[0]);
    var s2 := Apply(s1, steps[1]);
    StepKeepsSafe(s1, steps[1]);
    states := [s, s1, s2];
  }

  /** and a connected one can always leave. */
  lemma DisconnectRuns(s: State, c: Chan) returns (states: seq<State>, steps: seq<Step>)
    requires Quiet(s) && c in s.active && s.clients[c].watcher == Waiting
    ensures IsRun(states, steps) && states[0] == s && steps == [Cancel(c), Unsubscribe(c)]
    ensures Quiet(states[|steps|]) && HubOf(states[|steps|]) == Disconnect(HubOf(s), c)
  {
    hide Project, Missed, Safe;
    QuietMeans(s);
    var cancel, leave := Cancel(c), Unsubscribe(c);
    QuietStep(s, cancel);
    var s1 := Apply(s, cancel);
    StepKeepsSafe(s1, leave);
    var s2 := Apply(s1, leave);
    states, steps := [s, s1, s2], [cancel, leave];
    EverySchedule(states, steps, 1);
  }
}
