/**
 What can go wrong, at concrete runs: a queue as full as overlapping calls can make it, a subscriber that
 is not sent an event, and one that is sent it twice.
 */
module Anomalies {
  import opened Json
  import opened Ids
  import opened EventQueue
  import opened EventLog
  import opened Protocol
  import opened Seam
  import opened Sessions
  import opened Hub

  const NOTE: Members := map["id" := Str("a")]

  /** A new queue, and nobody connected. */
  function Empty(capacity: nat): (s: State)
    ensures Initial(s)
  {
    State(Tape(map[], 0, capacity), map[], None, Idle, map[], map[], {}, false, [], 0, [], map[])
  }

  lemma EmptyIsSafe(capacity: nat)
    ensures Safe(Empty(capacity))
  {
  }

  /** Calls 1 to n, all equally far. */
  function AllIn(n: nat, p: Phase): map<nat, Phase> { if n == 0 then map[] else AllIn(n - 1, p)[n := p] }

  lemma {:induction false} AllInHas(n: nat, p: Phase)
    ensures forall id :: id in AllIn(n, p) <==> 1 <= id <= n
    ensures forall id | id in AllIn(n, p) :: AllIn(n, p)[id] == p
    ensures n > 0 ==> AllIn(n, p) - {n} == AllIn(n - 1, p)
  {
    if n > 0 { AllInHas(n - 1, p); }
  }

  function Note(id: nat): Item { Item(id, Create, NOTE) }

  function Notes(n: nat): (log: seq<Item>)
    ensures |log| == n && forall i | 0 <= i < n :: log[i] == Note(i + 1)
  {
    if n == 0 then [] else Notes(n - 1) + [Note(n)]
  }

  /** Nobody is connected, and events have got as far as the handler but not into the queue. */
  predicate IsBacklog(s: State, capacity: nat, n: nat) {
    && Safe(s) && s.tape == Tape(map[], n, capacity) && s.flight == AllIn(n, Sent) && s.buffer == None
    && s.handler.Idle? && s.clients == map[] && s.active == map[] && s.issued == Notes(n) && s.peak == 0
    && s.consumed == seq(n, i => i + 1)
  }

  lemma {:induction false} BacklogRuns(capacity: nat, n: nat) returns (states: seq<State>, steps: seq<Step>)
    requires n + 2 < WORD
    ensures IsRun(states, steps) && states[0] == Empty(capacity) && IsBacklog(states[|steps|], capacity, n)
  {
    hide IsBacklog, Apply, Initial;
    if n == 0 {
      EmptyBacklog(capacity);
      states, steps := [Empty(capacity)], [];
    } else {
      var a, x := BacklogRuns(capacity, n - 1);
      var b, y := OneMoreRuns(a[|x|], capacity, n - 1);
      RunConcat(a, x, b, y);
      states, steps := a + b[1..], x + y;
    }
  }

  lemma EmptyBacklog(capacity: nat)
    ensures IsBacklog(Empty(capacity), capacity, 0)
  {
    EmptyIsSafe(capacity);
    hide Safe;
  }

  lemma OneMoreRuns(s: State, capacity: nat, n: nat) returns (states: seq<State>, steps: seq<Step>)
    requires IsBacklog(s, capacity, n) && n + 3 < WORD
    ensures IsRun(states, steps) && states[0] == s && IsBacklog(states[|steps|], capacity, n + 1)
  {
    hide Safe, Apply;
    var a, x := SendRuns(s, Create, NOTE);
    var b, y := TakeRuns(a[2]);
    RunConcat(a, x, b, y);
    var c, z := SettleRuns(b[1]);
    RunConcat(a + b[1..], x + y, c, z);
    states, steps := a + b[1..] + c[1..], x + y + z;
    assert seq(n, i => i + 1) + [n + 1] == seq(n + 1, i => i + 1);
  }

  // ---------- the bound on stored events is reached ----------

  /** The queue when the events above m are stored. */
  function Filled(capacity: nat, n: nat, m: nat): Tape {
    Tape(map id: nat | m < id <= n :: Note(id), n, capacity)
  }

  /** Writing without dropping anything. */
  lemma FillOne(capacity: nat, n: nat, m: nat)
    requires 1 <= m <= n
    ensures WriteItem(Filled(capacity, n, m), Notes(n)[m - 1], {}) == Filled(capacity, n, m - 1)
  {
    var item := Notes(n)[m - 1];
    assert WriteItem(Filled(capacity, n, m), item, {}).stored == Filled(capacity, n, m - 1).stored;
  }

  /** The newest events are written first, as long as they fit. */
  lemma {:induction false} FillRuns(s: State, capacity: nat, n: nat, m: nat)
    returns (states: seq<State>, steps: seq<Step>)
    requires Safe(s) && s.issued == Notes(n) && s.flight == AllIn(n, Sent) && s.tape == Filled(capacity, n, n)
    requires m <= n <= m + capacity
    ensures IsRun(states, steps) && states[0] == s && Safe(states[|steps|])
    ensures states[|steps|] == s.(flight := AllIn(m, Sent), tape := Filled(capacity, n, m))
    decreases n - m
  {
    hide Safe, Apply, Filled;
    if m == n {
      states, steps := [s], [];
    } else {
      var a, x := FillRuns(s, capacity, n, m + 1);
      var t := a[|x|];
      AllInHas(m + 1, Sent);
      var b, y := RotateRuns(t, m + 1);
      RunConcat(a, x, b, y);
      states, steps := a + b[1..], x + y;
      NothingStale(capacity, n, m + 1);
      FillOne(capacity, n, m + 1);
    }
  }

  lemma NothingStale(capacity: nat, n: nat, m: nat)
    requires n <= m + capacity
    ensures Filled(capacity, n, m).latest == n && Filled(capacity, n, m).capacity == capacity
    ensures Stale(Filled(capacity, n, m), n) == {}
  {
  }

  /** Calls 1 to j have taken their snapshots, the others up to m have not begun to rotate. */
  function Begun(m: nat, j: nat): map<nat, Phase> { AllIn(m, Sent) + AllIn(j, Scanned({}, 0)) }

  lemma {:induction false} ScanRuns(s: State, capacity: nat, n: nat, m: nat, j: nat)
    returns (states: seq<State>, steps: seq<Step>)
    requires !s.panicked && s.flight == Begun(m, 0) && s.tape == Filled(capacity, n, m)
    requires j <= m <= n <= m + capacity
    ensures IsRun(states, steps) && states[0] == s && states[|steps|] == s.(flight := Begun(m, j))
    decreases j
  {
    hide Apply, Filled;
    if j == 0 {
      states, steps := [s], [];
    } else {
      var a, x := ScanRuns(s, capacity, n, m, j - 1);
      var b, y := ScanOne(a[|x|], capacity, n, m, j);
      RunConcat(a, x, b, y);
      states, steps := a + b[1..], x + y;
    }
  }

  lemma BegunNext(m: nat, j: nat)
    requires 1 <= j <= m
    ensures j in Begun(m, j - 1) && Begun(m, j - 1)[j] == Sent
    ensures Begun(m, j - 1)[j := Scanned({}, 0)] == Begun(m, j)
  {
    AllInHas(m, Sent);
    AllInHas(j - 1, Scanned({}, 0));
  }

  lemma ScanOne(s: State, capacity: nat, n: nat, m: nat, j: nat) returns (states: seq<State>, steps: seq<Step>)
    requires 1 <= j <= m <= n <= m + capacity
    requires !s.panicked && s.flight == Begun(m, j - 1) && s.tape == Filled(capacity, n, m)
    ensures IsRun(states, steps) && states[0] == s && states[|steps|] == s.(flight := Begun(m, j))
  {
    hide Project, Missed, Filled, Begun;
    NothingStale(capacity, n, m);
    BegunNext(m, j);
    steps := [Rotate(j), Snapshot(j)];
    var s1 := Apply(s, steps[0]);
    var s2 := Apply(s1, steps[1]);
    assert s2.flight == s.flight[j := Scanned({}, 0)];
    states := [s, s1, s2];
  }

  /** Of m calls that have all taken their snapshots the last ones have written. */
  function Waiting(m: nat, j: nat): map<nat, Phase>
    requires j <= m
  {
    AllIn(j, Scanned({}, m - j))
  }

  lemma {:induction false} WriteRuns(s: State, capacity: nat, n: nat, m: nat, j: nat)
    returns (states: seq<State>, steps: seq<Step>)
    requires !s.panicked && s.issued == Notes(n) && s.peak == 0
    requires s.flight == Waiting(m, m) && s.tape == Filled(capacity, n, m) && j <= m <= n
    ensures IsRun(states, steps) && states[0] == s
    ensures states[|steps|] == s.(flight := Waiting(m, j), tape := Filled(capacity, n, j),
                                  peak := if j == m then 0 else m - j - 1)
    decreases m - j
  {
    hide Apply, Filled;
    if j == m {
      states, steps := [s], [];
    } else {
      var a, x := WriteRuns(s, capacity, n, m, j + 1);
      var b, y := WriteOne(a[|x|], capacity, n, m, j + 1);
      RunConcat(a, x, b, y);
      states, steps := a + b[1..], x + y;
    }
  }

  lemma WaitingNext(m: nat, j: nat)
    requires 1 <= j <= m
    ensures j in Waiting(m, j) && Waiting(m, j)[j] == Scanned({}, m - j)
    ensures (map x | x in Waiting(m, j) && x != j :: Overlapped(Waiting(m, j)[x])) == Waiting(m, j - 1)
  {
    AllInHas(j, Scanned({}, m - j));
    AllInHas(j - 1, Scanned({}, m - j + 1));
  }

  lemma WriteOne(s: State, capacity: nat, n: nat, m: nat, j: nat) returns (states: seq<State>, steps: seq<Step>)
    requires !s.panicked && s.issued == Notes(n) && s.peak <= m - j
    requires 1 <= j <= m <= n && s.flight == Waiting(m, j) && s.tape == Filled(capacity, n, j)
    ensures IsRun(states, steps) && states[0] == s
    ensures states[|steps|] == s.(flight := Waiting(m, j - 1), tape := Filled(capacity, n, j - 1), peak := m - j)
  {
    hide Project, Missed, Filled, WriteItem, Waiting;
    FillOne(capacity, n, j);
    WaitingNext(m, j);
    var t := Apply(s, Commit(j));
    states, steps := [s, t], [Commit(j)];
  }

  lemma {:induction false} FilledSize(capacity: nat, n: nat, m: nat)
    requires m <= n
    ensures |Filled(capacity, n, m).stored| == n - m
    decreases n - m
  {
    var stored := Filled(capacity, n, m).stored;
    if m == n {
      assert stored == map[];
    } else {
      FilledSize(capacity, n, m + 1);
      assert stored.Keys == Filled(capacity, n, m + 1).stored.Keys + {m + 1};
      assert |stored.Keys| == |stored|;
      assert |Filled(capacity, n, m + 1).stored.Keys| == |Filled(capacity, n, m + 1).stored|;
    }
  }

  /** The bound on the stored events is reached, whatever the capacity and however many writes are to fall into
      one addRotate: the calls that have to take their snapshots before any of them writes do so when the
      queue is full. */
  lemma BoundIsReached(capacity: nat, peak: nat) returns (states: seq<State>, steps: seq<Step>)
    requires capacity + peak + 3 < WORD
    ensures IsRun(states, steps) && Initial(states[0])
    ensures var s := states[|steps|];
            s.tape.capacity == capacity && s.peak == peak && |s.tape.stored| == capacity + 1 + peak
  {
    hide Apply, Initial, Filled, Safe;
    var n, m := capacity + 1 + peak, peak + 1;
    var a, x := BacklogRuns(capacity, n);
    var s := a[|x|];
    NothingFilled(capacity, n);
    var b, y := FillRuns(s, capacity, n, m);
    RunConcat(a, x, b, y);
    NotPanicked(s);
    var c, z := ScanRuns(b[|y|], capacity, n, m, m);
    RunConcat(a + b[1..], x + y, c, z);
    AllInHas(m, Sent);
    AllInHas(m, Scanned({}, 0));
    assert Begun(m, m) == Waiting(m, m);
    var d, w := WriteRuns(c[|z|], capacity, n, m, 0);
    RunConcat(a + b[1..] + c[1..], x + y + z, d, w);
    states, steps := a + b[1..] + c[1..] + d[1..], x + y + z + w;
    FilledSize(capacity, n, 0);
    FilledFields(capacity, n, 0);
  }

  lemma NothingFilled(capacity: nat, n: nat)
    ensures Filled(capacity, n, n) == Tape(map[], n, capacity)
  {
  }

  lemma FilledFields(capacity: nat, n: nat, m: nat)
    ensures Filled(capacity, n, m).capacity == capacity
  {
  }

  lemma NotPanicked(s: State)
    requires Safe(s)
    ensures !s.panicked
  {
  }

  // ---------- events that are not sent, and an event that is sent twice ----------

  lemma {:induction false} NothingStored(lo: nat, hi: nat)
    ensures Replay(map[], lo, hi) == []
    decreases hi
  {
    if hi > lo { NothingStored(lo, hi - 1); }
  }

  /** A client that asks for everything after ID 0 subscribes when the handler has taken n events whose
      producers have still to write them. At the next quiet moment all n are stored, and it has been sent
      none of them. */
  lemma LossHappens(n: nat, c: Chan, sub: Subscriber) returns (states: seq<State>, steps: seq<Step>)
    requires sub.resume == After(0) && n + 3 < WORD
    ensures IsRun(states, steps) && Initial(states[0])
    ensures var s := states[|steps|];
            && Quiet(s) && c in s.active && s.active[c] == sub && c in s.delivered
            && s.issued == Notes(n) && (forall id | 1 <= id <= n :: id in s.tape.stored)
            && s.delivered[c] == []
  {
    hide Apply, Initial, Safe, Missed, Project, Replay, Filled;
    var a, x := BacklogRuns(n, n);
    var b, y := JoinRuns(a[|x|], c, sub);
    RunConcat(a, x, b, y);
    var d, z := SettleRuns(b[2]);
    RunConcat(a + b[1..], x + y, d, z);
    NothingFilled(n, n);
    var e, w := FillRuns(d[|z|], n, n, 0);
    RunConcat(a + b[1..] + d[1..], x + y + z, e, w);
    states, steps := a + b[1..] + d[1..] + e[1..], x + y + z + w;
    var i := |x| + 1;
    assert states[i] == b[1] && steps[i] == Subscribe(c);
    SeamTheorem(states, steps, i, |steps|, c);
    AllFilled(n, n);
    MissedAfterZero(states[i].tape);
    NothingStored(0, n);
    var s := states[|steps|];
    assert s.consumed[n..] == [];
    assert Stream(states[i], s, sub) == [];
    ProjectNone(sub);
  }

  lemma AllFilled(capacity: nat, n: nat)
    ensures forall id | 1 <= id <= n :: id in Filled(capacity, n, 0).stored
  {
  }

  lemma MissedAfterZero(t: Tape)
    ensures Missed(t, After(0)) == Replay(t.stored, 0, t.latest)
  {
  }

  /** One event is stored and waits in the Notifier. */
  predicate IsWaiting(s: State) {
    && Safe(s) && s.flight == map[] && s.buffer == Some(1) && s.handler.Idle? && s.clients == map[]
    && s.issued == [Note(1)] && s.consumed == [] && s.tape == StoreItem(Tape(map[], 1, 1), Note(1))
  }

  lemma WaitingRuns() returns (states: seq<State>, steps: seq<Step>)
    ensures IsRun(states, steps) && Initial(states[0]) && IsWaiting(states[|steps|])
  {
    hide Apply, Initial, Safe, StoreItem;
    EmptyIsSafe(1);
    var a, x := SendRuns(Empty(1), Create, NOTE);
    var b, y := RotateRuns(a[2], 1);
    RunConcat(a, x, b, y);
    states, steps := a + b[1..], x + y;
  }

  lemma HearRuns(s: State, c: Chan, sub: Subscriber) returns (states: seq<State>, steps: seq<Step>)
    requires IsWaiting(s)
    ensures IsRun(states, steps) && states[0] == s && |steps| > 2 && steps[1] == Subscribe(c)
    ensures c in states[1].clients && states[1].clients[c].sub == sub
    ensures states[1].consumed == [] && states[1].tape == s.tape
    ensures var t := states[|steps|];
            && Quiet(t) && c in t.active && t.active[c] == sub && t.issued == [Note(1)] && t.consumed == [1]
  {
    hide Apply, Safe, StoreItem;
    var a, x := JoinRuns(s, c, sub);
    var b, y := SettleRuns(a[2]);
    RunConcat(a, x, b, y);
    var d, z := TakeRuns(b[|y|]);
    RunConcat(a + b[1..], x + y, d, z);
    var e, w := SettleRuns(d[1]);
    RunConcat(a + b[1..] + d[1..], x + y + z, e, w);
    states, steps := a + b[1..] + d[1..] + e[1..], x + y + z + w;
    assert states[1] == a[1] && steps[1] == x[1];
    assert steps[2] == (y + z + w)[0];
  }

  /** A client that subscribes when the newest event is stored and waits in the Notifier is replayed it and
      then sent it. */
  lemma RepetitionHappens(c: Chan, sub: Subscriber) returns (states: seq<State>, steps: seq<Step>)
    requires sub.resume == After(0) && Create in sub.types
    ensures IsRun(states, steps) && Initial(states[0])
    ensures var s, item := states[|steps|], Note(1).(data := Trim(sub, NOTE));
            && Quiet(s) && c in s.active && s.active[c] == sub && c in s.delivered
            && s.issued == [Note(1)] && s.delivered[c] == [item, item]
  {
    hide Apply, Initial, Safe, Missed, Project, Trim, StoreItem;
    var a, x := WaitingRuns();
    var b, y := HearRuns(a[|x|], c, sub);
    RunConcat(a, x, b, y);
    states, steps := a + b[1..], x + y;
    var i := |x| + 1;
    assert states[i] == b[1] && steps[i] == Subscribe(c);
    SeamTheorem(states, steps, i, |steps|, c);
    var s := states[|steps|];
    ReplaysOne();
    MissedAfterZero(b[1].tape);
    assert Stream(states[i], s, sub) == [Note(1)] + [Note(1)];
    ProjectConcat(sub, [Note(1)], [Note(1)]);
    ProjectOne(sub, Note(1));
  }

  lemma ReplaysOne()
    ensures var t := StoreItem(Tape(map[], 1, 1), Note(1));
            Replay(t.stored, 0, t.latest) == [Note(1)]
  {
    var t := StoreItem(Tape(map[], 1, 1), Note(1));
    assert t.stored == map[1 := Note(1)];
    assert Replay(t.stored, 0, 0) == [];
    assert Replay(t.stored, 0, 1) == [Note(1)];
  }
}
