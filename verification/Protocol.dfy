/**
 The notification protocol as a step system: any number of concurrent storeAndNotify calls, the
 Notifier buffer of capacity one, the single handler loop, and one reader and one watcher goroutine
 per client. Every channel operation is one step, taken when the channel lets it through.
 */
module Protocol {
  import opened Json
  import opened Ids
  import opened EventQueue
  import opened EventLog

  type Chan = nat

  /** The Last-Event-ID header: absent, not a number, or an ID. */
  datatype Resume = Fresh | Malformed | After(id: uint64)

  datatype Subscriber = Subscriber(types: seq<EventType>, diff: bool, resume: Resume)

  /** A storeAndNotify call in flight: it has its ID; it has passed the Notifier; its addRotate has read
      the counter; it has taken its snapshot and knows what to drop. `others` counts the events that
      other calls have written since addRotate began. */
  datatype Phase =
    | Unsent
    | Sent
    | Rotating(limit: nat, others: nat)
    | Scanned(dropped: set<nat>, others: nat)

  /** The goroutine of SubscribeEvent. */
  datatype Reader = Subscribing | Receiving | Writing | Finished

  /** The goroutine that waits for the request to end. */
  datatype Watcher = NotStarted | Waiting | Unsubscribing | Gone

  datatype Client = Client(sub: Subscriber, reader: Reader, watcher: Watcher)

  /** The handler is in its select, or inside one of its two sending loops. */
  datatype Handler =
    | Idle
    | Dispatching(id: nat, pending: set<Chan>)
    | Replaying(to: Chan, rest: seq<Item>)

  datatype State = State(
    tape: Tape,
    flight: map<nat, Phase>,          // in-flight producers, by the ID they were given
    buffer: Option<nat>,              // the Notifier channel
    handler: Handler,
    clients: map<Chan, Client>,
    active: map<Chan, Subscriber>,
    closed: set<Chan>,
    panicked: bool,
    issued: seq<Item>,                // history: every event, in ID order
    peak: nat,                        // history: the most writes that fell into one addRotate
    consumed: seq<nat>,               // history: IDs in the order the handler took them
    delivered: map<Chan, seq<Item>>)  // history: what each client received

  // ---------- what a subscriber is sent ----------

  /** Without diff, only the ID of the changed thing is sent. */
  function Trim(sub: Subscriber, data: Members): Members {
    if sub.diff then data else map["id" := if "id" in data then data["id"] else Null]
  }

  /** The events of a sequence that a subscriber is sent. */
  function Project(sub: Subscriber, items: seq<Item>): seq<Item> {
    if items == [] then []
    else
      var last := items[|items| - 1];
      Project(sub, items[..|items| - 1])
        + if last.kind in sub.types then [last.(data := Trim(sub, last.data))] else []
  }

  lemma {:induction false} ProjectConcat(sub: Subscriber, a: seq<Item>, b: seq<Item>)
    ensures Project(sub, a + b) == Project(sub, a) + Project(sub, b)
  {
    if b == [] {
      assert a + b == a;
    } else {
      var n := |a + b| - 1;
      assert (a + b)[..n] == a + b[..|b| - 1];
      ProjectConcat(sub, a, b[..|b| - 1]);
    }
  }

  /** What a subscription replays; a Last-Event-ID of 2^64-1 wraps to the start. */
  function Missed(tape: Tape, resume: Resume): seq<Item> {
    match resume
    case After(id) => Replay(tape.stored, if id + 1 == WORD then 0 else id, tape.latest)
    case _ => []
  }

  // ---------- steps ----------

  datatype Step =
    | Allocate(kind: EventType, data: Members)
    | Send(id: nat)
    | Rotate(id: nat)
    | Snapshot(id: nat)
    | Commit(id: nat)
    | Open(c: Chan, sub: Subscriber)
    | Subscribe(c: Chan)
    | Cancel(c: Chan)
    | Unsubscribe(c: Chan)
    | Consume
    | Deliver(c: Chan)
    | DeliverMissed
    | Return
    | Written(c: Chan)
    | Finish(c: Chan)

  predicate ReaderIs(s: State, c: Chan, r: Reader) { c in s.clients && s.clients[c].reader == r }
  predicate WatcherIs(s: State, c: Chan, w: Watcher) { c in s.clients && s.clients[c].watcher == w }

  /** A send on a channel proceeds when its reader receives; on a closed channel it panics. */
  predicate CanSend(s: State, c: Chan, item: Item) {
    c in s.active && (item.kind in s.active[c].types ==> c in s.closed || ReaderIs(s, c, Receiving))
  }

  predicate Enabled(s: State, step: Step) {
    && !s.panicked
    && match step
       case Allocate(_, _) => s.tape.latest + 2 < WORD
       case Send(id) => id in s.flight && s.flight[id] == Unsent && s.buffer.None?
       case Rotate(id) => id in s.flight && s.flight[id] == Sent
       case Snapshot(id) => id in s.flight && s.flight[id].Rotating?
       case Commit(id) => id in s.flight && s.flight[id].Scanned?
       case Open(c, _) => c !in s.clients
       case Subscribe(c) => s.handler.Idle? && ReaderIs(s, c, Subscribing)
       case Cancel(c) => WatcherIs(s, c, Waiting)
       case Unsubscribe(c) => s.handler.Idle? && WatcherIs(s, c, Unsubscribing)
       case Consume => s.handler.Idle? && s.buffer.Some?
       case Deliver(c) =>
         s.handler.Dispatching? && c in s.handler.pending
         && 1 <= s.handler.id <= |s.issued| && CanSend(s, c, s.issued[s.handler.id - 1])
       case DeliverMissed => s.handler.Replaying? && s.handler.rest != [] && CanSend(s, s.handler.to, s.handler.rest[0])
       case Return =>
         || (s.handler.Dispatching? && s.handler.pending == {})
         || (s.handler.Replaying? && s.handler.rest == [])
       case Written(c) => ReaderIs(s, c, Writing)
       case Finish(c) => ReaderIs(s, c, Receiving) && c in s.closed
  }

  function SetReader(s: State, c: Chan, r: Reader): State
    requires c in s.clients
  {
    s.(clients := s.clients[c := s.clients[c].(reader := r)])
  }

  function SetWatcher(s: State, c: Chan, w: Watcher): State
    requires c in s.clients
  {
    s.(clients := s.clients[c := s.clients[c].(watcher := w)])
  }

  /** sendToSubscriber: nothing if the type is not wanted, else one rendezvous with the reader. */
  function SendTo(s: State, c: Chan, item: Item): State
    requires CanSend(s, c, item)
  {
    if item.kind !in s.active[c].types then s
    else if c in s.closed then s.(panicked := true)
    else
      var got := (if c in s.delivered then s.delivered[c] else []) + Project(s.active[c], [item]);
      SetReader(s.(delivered := s.delivered[c := got]), c, Writing)
  }

  function Overlapped(p: Phase): Phase {
    if p.Rotating? || p.Scanned? then p.(others := p.others + 1) else p
  }

  function Apply(s: State, step: Step): State
    requires Enabled(s, step)
  {
    match step
    case Allocate(kind, data) =>
      var t := NextId(s.tape);
      s.(tape := t, flight := s.flight[t.latest := Unsent], issued := s.issued + [Item(t.latest, kind, data)])
    case Send(id) => s.(flight := s.flight[id := Sent], buffer := Some(id))
    case Rotate(id) => s.(flight := s.flight[id := Rotating(s.tape.latest, 0)])
    case Snapshot(id) =>
      s.(flight := s.flight[id := Scanned(Stale(s.tape, s.flight[id].limit), s.flight[id].others)])
    case Commit(id) =>
      s.(flight := map x | x in s.flight && x != id :: Overlapped(s.flight[x]),
         peak := if s.flight[id].others > s.peak then s.flight[id].others else s.peak,
         tape := if 1 <= id <= |s.issued| then WriteItem(s.tape, s.issued[id - 1], s.flight[id].dropped) else s.tape)
    case Open(c, sub) =>
      s.(clients := s.clients[c := Client(sub, Subscribing, NotStarted)], delivered := s.delivered[c := []])
    case Subscribe(c) =>
      var sub := s.clients[c].sub;
      s.(clients := s.clients[c := Client(sub, Receiving, Waiting)],
         active := s.active[c := sub],
         handler := if sub.resume.After? then Replaying(c, Missed(s.tape, sub.resume)) else Idle)
    case Cancel(c) => SetWatcher(s, c, Unsubscribing)
    case Unsubscribe(c) =>
      var t := SetWatcher(s, c, Gone).(active := s.active - {c}, closed := s.closed + {c});
      if c in s.closed then t.(panicked := true) else t
    case Consume =>
      s.(buffer := None, consumed := s.consumed + [s.buffer.value],
         handler := Dispatching(s.buffer.value, s.active.Keys))
    case Deliver(c) =>
      SendTo(s, c, s.issued[s.handler.id - 1]).(handler := Dispatching(s.handler.id, s.handler.pending - {c}))
    case DeliverMissed =>
      SendTo(s, s.handler.to, s.handler.rest[0]).(handler := Replaying(s.handler.to, s.handler.rest[1..]))
    case Return => s.(handler := Idle)
    case Written(c) => SetReader(s, c, Receiving)
    case Finish(c) => SetReader(s, c, Finished)
  }

  predicate IsDelivery(step: Step) { step.Deliver? || step.DeliverMissed? }

  function Recipient(s: State, step: Step): Chan
    requires Enabled(s, step) && IsDelivery(step)
  {
    if step.Deliver? then step.c else s.handler.to
  }

  /** A send touches nothing but its recipient. */
  lemma DeliveryFrame(s: State, step: Step)
    requires Enabled(s, step) && IsDelivery(step)
    ensures var t, to := Apply(s, step), Recipient(s, step);
            && t == s.(clients := t.clients, delivered := t.delivered, panicked := t.panicked, handler := t.handler)
            && to in s.active && !t.handler.Idle? && !s.handler.Idle?
            && (t.clients == s.clients
                || (to in s.clients && s.clients[to].reader == Receiving
                    && t.clients == s.clients[to := s.clients[to].(reader := Writing)]))
            && (t.delivered == s.delivered || (to in t.delivered && t.delivered == s.delivered[to := t.delivered[to]]))
  {
    hide Project, Missed;
  }

  /** The server as it starts: a queue reopened from disk, nobody connected. However many events earlier
      runs have left, under whatever capacity, the newest of them gives the counter. */
  predicate Initial(s: State) {
    && s.flight == map[] && s.buffer == None && s.handler == Idle
    && s.clients == map[] && s.active == map[] && s.closed == {} && !s.panicked
    && IsLog(s.issued) && |s.issued| == s.tape.latest
    && s.consumed == seq(|s.issued|, i => i + 1) && s.delivered == map[]
    && s.peak == 0
    && (s.tape.latest == 0 || s.tape.latest in s.tape.stored)
    && (forall id | id in s.tape.stored :: 1 <= id <= |s.issued| && s.tape.stored[id] == s.issued[id - 1])
  }

  /** A run: steps[i] leads from states[i] to states[i + 1]. */
  ghost predicate IsRun(states: seq<State>, steps: seq<Step>) {
    && |states| == |steps| + 1
    && forall i | 0 <= i < |steps| :: Enabled(states[i], steps[i]) && states[i + 1] == Apply(states[i], steps[i])
  }

  // ---------- channel safety ----------

  /** The active clients are exactly the subscribed channels that are not yet closed, each with its
      reader in the receive loop; the handler only ever holds active clients. */
  predicate Channels(s: State) {
    && !s.panicked
    && (forall c | c in s.clients :: ClientOk(s, c))
    && s.active.Keys <= s.clients.Keys
    && s.closed <= s.clients.Keys
    && (s.handler.Dispatching? ==> s.handler.pending <= s.active.Keys)
    && (s.handler.Replaying? ==> s.handler.to in s.active)
  }

  predicate ClientOk(s: State, c: Chan)
    requires c in s.clients
  {
    var client := s.clients[c];
    && (c in s.active <==> client.watcher == Waiting || client.watcher == Unsubscribing)
    && (c in s.closed <==> client.watcher == Gone)
    && (client.watcher == NotStarted <==> client.reader == Subscribing)
    && (c in s.active ==> s.active[c] == client.sub && (client.reader == Receiving || client.reader == Writing))
  }

  /** Every ID that is on its way was handed out. */
  predicate Numbered(s: State) {
    && |s.issued| == s.tape.latest
    && (s.handler.Dispatching? ==> 1 <= s.handler.id <= |s.issued|)
    && (s.buffer.Some? ==> 1 <= s.buffer.value <= |s.issued|)
    && (forall id | id in s.flight :: 1 <= id <= |s.issued|)
  }

  lemma InitialSafe(s: State)
    requires Initial(s)
    ensures Channels(s) && Numbered(s)
  {
  }

  predicate IsHandlerLoop(step: Step) { step.Consume? || step.Deliver? || step.DeliverMissed? || step.Return? }
  predicate IsProducer(step: Step) { step.Allocate? || step.Send? || step.Rotate? || step.Snapshot? || step.Commit? }

  /** No step ever sends on a closed channel or closes one twice. */
  lemma StepKeepsChannels(s: State, step: Step)
    requires Channels(s) && Enabled(s, step)
    ensures Channels(Apply(s, step))
  {
    if IsProducer(step) {
      ChannelsFrame(s, Apply(s, step));
    } else if IsHandlerLoop(step) {
      LoopKeepsChannels(s, step);
    } else {
      ClientKeepsChannels(s, step);
    }
  }

  lemma ChannelsFrame(s: State, t: State)
    requires Channels(s)
    requires t.clients == s.clients && t.active == s.active && t.closed == s.closed
    requires t.handler == s.handler && t.panicked == s.panicked
    ensures Channels(t)
  {
    forall c | c in t.clients ensures ClientOk(t, c) { assert ClientOk(s, c); }
  }

  lemma LoopKeepsChannels(s: State, step: Step)
    requires Channels(s) && Enabled(s, step) && IsHandlerLoop(step)
    ensures Channels(Apply(s, step))
  {
    hide Project;
    var t := Apply(s, step);
    forall c | c in t.clients ensures ClientOk(t, c) { assert ClientOk(s, c); }
  }

  lemma ClientKeepsChannels(s: State, step: Step)
    requires Channels(s) && Enabled(s, step) && !IsHandlerLoop(step) && !IsProducer(step)
    ensures Channels(Apply(s, step))
  {
    hide Project, Missed;
    var t := Apply(s, step);
    forall c | c in t.clients ensures ClientOk(t, c) {
      assert c in s.clients ==> ClientOk(s, c);
    }
  }

  lemma StepKeepsNumbered(s: State, step: Step)
    requires Numbered(s) && Enabled(s, step)
    ensures Numbered(Apply(s, step))
  {
    hide Project, Missed;
  }

  /** A step panics exactly if it sends a wanted event on a closed channel, or closes one again. */
  lemma StepPanics(s: State, step: Step)
    requires Enabled(s, step)
    ensures Apply(s, step).panicked <==>
              || (step.Unsubscribe? && step.c in s.closed)
              || (step.Deliver? && step.c in s.closed && s.issued[s.handler.id - 1].kind in s.active[step.c].types)
              || (step.DeliverMissed? && s.handler.to in s.closed
                  && s.handler.rest[0].kind in s.active[s.handler.to].types)
  {
    hide Project, Missed, WriteItem, Stale, Trim;
  }

  lemma ActiveExactly(s: State)
    requires Channels(s)
    ensures forall c :: c in s.active <==> c in s.clients && s.clients[c].reader != Subscribing && c !in s.closed
  {
    forall c | c in s.clients ensures ClientOk(s, c) {}
  }

  /** In every state that can be reached, nothing has panicked and the active clients are exactly
      the subscribed channels that have not been closed. */
  lemma {:induction false} ReachableSafe(states: seq<State>, steps: seq<Step>, n: nat)
    requires IsRun(states, steps) && Initial(states[0]) && n < |states|
    ensures Channels(states[n]) && Numbered(states[n])
    ensures !states[n].panicked
    ensures forall c :: c in states[n].active <==>
              c in states[n].clients && states[n].clients[c].reader != Subscribing && c !in states[n].closed
  {
    hide Apply, ClientOk, Numbered, Initial;
    if n == 0 {
      InitialSafe(states[0]);
    } else {
      ReachableSafe(states, steps, n - 1);
      StepKeepsChannels(states[n - 1], steps[n - 1]);
      StepKeepsNumbered(states[n - 1], steps[n - 1]);
    }
    ActiveExactly(states[n]);
  }

  // ---------- the handler is never stuck ----------

  predicate Busy(s: State, c: Chan) { ReaderIs(s, c, Writing) }

  function BusyAmong(s: State, pending: set<Chan>): set<Chan> { set c | c in pending && Busy(s, c) }

  /** How much of the current loop is left: sends to make, and readers to wait for. */
  function Work(s: State): nat {
    match s.handler
    case Idle => 0
    case Dispatching(_, pending) => 1 + |pending| + |BusyAmong(s, pending)|
    case Replaying(to, rest) => 1 + 2 * |rest| + if Busy(s, to) then 1 else 0
  }

  /** What can move the handler on: itself, or the reader it waits for. */
  ghost function HandlerStep(s: State): Step
    requires !s.handler.Idle?
  {
    match s.handler
    case Dispatching(id, pending) =>
      if pending == {} then Return
      else
        var c :| c in pending;
        if Busy(s, c) then Written(c) else Deliver(c)
    case Replaying(to, rest) =>
      if rest == [] then Return else if Busy(s, to) then Written(to) else DeliverMissed
  }

  /** Whenever the handler is inside a loop, some step of it or of the reader it waits for can be
      taken, and that step leaves it less to do. */
  lemma HandlerMoves(s: State)
    requires Channels(s) && Numbered(s) && !s.handler.Idle?
    ensures Enabled(s, HandlerStep(s))
    ensures Work(Apply(s, HandlerStep(s))) < Work(s)
  {
    hide ClientOk, Numbered, Apply, Work;
    match HandlerStep(s)
    case Written(c) => WriterMoves(s, c);
    case Deliver(c) => DeliveryMoves(s, c);
    case DeliverMissed => ReplayMoves(s);
    case Return => ReturnMoves(s);
  }

  lemma WriterMoves(s: State, c: Chan)
    requires Busy(s, c) && Channels(s)
    requires (s.handler.Dispatching? && c in s.handler.pending) || (s.handler.Replaying? && c == s.handler.to)
    ensures Enabled(s, Written(c)) && Work(Apply(s, Written(c))) < Work(s)
  {
    if s.handler.Dispatching? {
      assert BusyAmong(Apply(s, Written(c)), s.handler.pending) == BusyAmong(s, s.handler.pending) - {c};
    }
  }

  lemma DeliveryMoves(s: State, c: Chan)
    requires Channels(s) && Numbered(s) && s.handler.Dispatching? && c in s.handler.pending && !Busy(s, c)
    ensures Enabled(s, Deliver(c)) && Work(Apply(s, Deliver(c))) < Work(s)
  {
    hide Project;
    assert ClientOk(s, c);
    var t := Apply(s, Deliver(c));
    assert BusyAmong(t, t.handler.pending) == BusyAmong(s, s.handler.pending);
  }

  lemma ReplayMoves(s: State)
    requires Channels(s) && s.handler.Replaying? && s.handler.rest != [] && !Busy(s, s.handler.to)
    ensures Enabled(s, DeliverMissed) && Work(Apply(s, DeliverMissed)) < Work(s)
  {
    hide Project;
    assert ClientOk(s, s.handler.to);
  }

  lemma ReturnMoves(s: State)
    requires !s.panicked && Enabled(s, Return)
    ensures Work(Apply(s, Return)) < Work(s)
  {
  }

  /** No other step gives the busy handler more to do. */
  lemma NobodyAddsWork(s: State, step: Step)
    requires Channels(s) && Enabled(s, step) && !s.handler.Idle?
    ensures Work(Apply(s, step)) <= Work(s)
  {
    hide Project, Missed, WriteItem, Stale, Trim;
    var t := Apply(s, step);
    if s.handler.Dispatching? && t.handler.Dispatching? {
      var before, after := BusyAmong(s, s.handler.pending), BusyAmong(t, t.handler.pending);
      assert t.handler.pending <= s.handler.pending;
      assert after <= before;
      Smaller(after, before);
      Smaller(t.handler.pending, s.handler.pending);
    }
  }

  lemma {:induction false} Smaller<T>(a: set<T>, b: set<T>)
    requires a <= b
    ensures |a| <= |b|
  {
    assert b == a + (b - a);
  }

  /** From any safe state the handler can be brought back to its select within Work(s) steps. */
  lemma {:induction false} HandlerReturns(s: State) returns (states: seq<State>, steps: seq<Step>)
    requires Channels(s) && Numbered(s)
    ensures IsRun(states, steps) && states[0] == s && states[|steps|].handler.Idle? && |steps| <= Work(s)
    decreases Work(s)
  {
    if s.handler.Idle? {
      states, steps := [s], [];
    } else {
      var step := HandlerStep(s);
      HandlerMoves(s);
      StepKeepsChannels(s, step);
      StepKeepsNumbered(s, step);
      var t, u := HandlerReturns(Apply(s, step));
      states, steps := [s] + t, [step] + u;
    }
  }
}
