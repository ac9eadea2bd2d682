/** The notification controller: its queue, its registry of clients, and what it sends them. */
module Notification {
  import opened Json
  import opened LevelDb
  import opened Ids
  import opened EventQueue
  import opened EventLog
  import opened Protocol
  import opened MergePatch
  import H = Hub
  import Q = EventQueue

  // ---------- the data of an event ----------

  function IdMember(td: Members): Json { if "id" in td then td["id"] else Null }

  /** The changes from one TD to the next, with the ID of the former forced back in. */
  function UpdateData(before: Members, after: Members): Members {
    Diff(Obj(before), Obj(after))["id" := IdMember(before)]
  }

  function DeleteData(before: Members): Members { map["id" := IdMember(before)] }

  /** What the event of an update tells: the old ID, and of the other members exactly those that have changed. */
  lemma UpdateTells(before: Members, after: Members)
    ensures var data := UpdateData(before, after);
            && "id" in data && data["id"] == (if "id" in before then before["id"] else Null)
            && (forall k :: k in data <==> k == "id" || Changed(before, after, k))
            && exists d: Members :: IsDifference(Obj(before), Obj(after), d) && data == d["id" := data["id"]]
  {
    DiffIsDifference(Obj(before), Obj(after));
    assert IsDifference(Obj(before), Obj(after), Diff(Obj(before), Obj(after)));
  }

  lemma UpdateDataId(deep: bool, before: Members, after: Members)
    requires "id" in before && before["id"].Str?
    ensures var r := Merge(deep, Obj(before), Obj(UpdateData(before, after)));
            && "id" in r.m && r.m["id"] == before["id"]
            && ("id" in after && after["id"] == before["id"] ==>
                  r == Merge(deep, Obj(before), Obj(Diff(Obj(before), Obj(after)))))
  {
    var d, u := Diff(Obj(before), Obj(after)), UpdateData(before, after);
    MergedMember(deep, before, u, "id");
    if "id" in after && after["id"] == before["id"] {
      DiffEmpty(Obj(before), Obj(after));
      assert "id" !in d;
      assert Merge(deep, Obj(before), Obj(u)).m == Merge(deep, Obj(before), Obj(d)).m;
    }
  }

  /** Merging the data of an update event into the old TD gives the new one exactly when the ID is the
      same and the new TD survives the merge; forcing the ID back in never breaks this. */
  lemma UpdateRebuilds(deep: bool, before: Members, after: Members)
    requires "id" in before && before["id"].Str?
    ensures Merge(deep, Obj(before), Obj(UpdateData(before, after))) == Obj(after)
      <==> "id" in after && after["id"] == before["id"] && Survives(deep, Obj(before), Obj(after))
  {
    UpdateDataId(deep, before, after);
    DiffRoundTrip(deep, Obj(before), Obj(after));
  }

  /** In particular it holds for every new TD without null members. */
  lemma NullFreeUpdateRebuilds(before: Members, after: Members)
    requires "id" in before && before["id"].Str? && "id" in after && after["id"] == before["id"]
    requires Clean(false, Obj(after))
    ensures Rfc7396(Obj(before), Obj(UpdateData(before, after))) == Obj(after)
  {
    CleanSurvives(false, Obj(before), Obj(after));
    UpdateRebuilds(false, before, after);
    MergeIsRfc7396(Obj(before), Obj(UpdateData(before, after)));
  }

  // ---------- subscriptions ----------

  datatype Subscription = Subscription(types: seq<EventType>, diff: bool, lastEventID: string)

  function ResumeOf(lastEventID: string): Resume {
    if lastEventID == "" then Fresh
    else if ParseHex(lastEventID).None? then Malformed
    else After(ParseHex(lastEventID).value)
  }

  function SubscriberOf(s: Subscription): Subscriber { Subscriber(s.types, s.diff, ResumeOf(s.lastEventID)) }

  /** What an event brings to a subscriber: nothing if its type is not wanted; otherwise the same ID and type,
      and as data all of it with diff, or just the ID of the thing. */
  lemma CopyBrings(s: Subscription, event: Event)
    ensures event.kind !in s.types ==> Copies(s, event) == []
    ensures event.kind in s.types ==>
              && |Copies(s, event)| == 1
              && var copy := Copies(s, event)[0];
                 && copy.id == event.id && copy.kind == event.kind
                 && (s.diff ==> copy.data == event.data)
                 && (!s.diff ==>
                       copy.data.Keys == {"id"}
                       && copy.data["id"] == (if "id" in event.data then event.data["id"] else Null))
  {
  }

  /** What one event brings to one subscriber. */
  function Copies(s: Subscription, event: Event): seq<Event> {
    if event.kind !in s.types then []
    else if s.diff then [event]
    else [event.(data := map["id" := IdMember(event.data)])]
  }

  function CopiesOf(s: Subscription, events: seq<Event>): seq<Event> {
    if events == [] then [] else CopiesOf(s, events[..|events| - 1]) + Copies(s, events[|events| - 1])
  }

  /** Everything that has been sent, after one more event. */
  function CopiedToAll(active: map<Chan, Subscription>, received: map<Chan, seq<Event>>, event: Event)
    : map<Chan, seq<Event>>
  {
    map c | c in received :: received[c] + if c in active then Copies(active[c], event) else []
  }

  lemma {:induction false} CopiesAreProject(s: Subscription, items: seq<Item>)
    ensures CopiesOf(s, RenderAll(items)) == RenderAll(Project(SubscriberOf(s), items))
  {
    hide FormatHex;
    if items != [] {
      var n := |items| - 1;
      assert RenderAll(items)[..n] == RenderAll(items[..n]);
      CopiesAreProject(s, items[..n]);
    }
  }

  lemma CopiesOfOne(s: Subscription, event: Event)
    ensures CopiesOf(s, [event]) == Copies(s, event)
  {
    assert [event][..0] == [];
  }

  /** What a reconnecting client missed, whatever its Last-Event-ID header says. */
  lemma MissedRepresents(q: Queue, t: Tape, lastEventID: string)
    requires Represents(q, t)
    ensures var r := ResumeOf(lastEventID);
            && (r.Malformed? ==> MissedEvents(q.db, lastEventID).None?)
            && (r.After? ==> MissedEvents(q.db, lastEventID) == Some(RenderAll(Missed(t, r))))
  {
    hide AllAfter, Represents, Replay;
    var r := ResumeOf(lastEventID);
    if r.After? {
      if r.id + 1 < WORD { ReplayRepresents(q, t, r.id); } else { WrappedReplay(q, t); }
    }
  }

  lemma WrappedReplay(q: Queue, t: Tape)
    requires Represents(q, t)
    ensures AllAfter(q.db, WORD - 1) == RenderAll(Replay(t.stored, 0, t.latest))
  {
    hide Less, Replay;
    RepresentsWellKeyed(q, t);
    ReplayRepresents(q, t, 0);
    AllAfterWraps(q.db);
    KeysAfterIsTail(q.db, 0);
    SortedUnique(KeysAfter(q.db, 0), Scan(q.db, ALL));
  }

  function Subscribers(active: map<Chan, Subscription>): map<Chan, Subscriber> {
    map c | c in active :: SubscriberOf(active[c])
  }

  function Rendered(delivered: map<Chan, seq<Item>>): map<Chan, seq<Event>> {
    map c | c in delivered :: RenderAll(delivered[c])
  }

  lemma EventRepresents(q: Queue, h: H.Hub, kind: EventType, data: Members)
    requires Represents(q, h.tape) && h.tape.latest + 2 < WORD
    ensures var event := Event(FormatHex(NewId(q).latest), kind, data);
            && event == Render(H.NextItem(h, kind, data))
            && Q.Store(NewId(q), event).Some?
            && Represents(Q.Store(NewId(q), event).value, H.Announce(h, kind, data).tape)
  {
    NewIdRepresents(q, h.tape);
    StoreRepresents(NewId(q), NextId(h.tape), H.NextItem(h, kind, data));
  }

  lemma CopiesAreDispatched(active: map<Chan, Subscription>, delivered: map<Chan, seq<Item>>, item: Item)
    ensures CopiedToAll(active, Rendered(delivered), Render(item))
         == Rendered(H.Dispatched(Subscribers(active), delivered, item))
  {
    hide Project, Render, Copies, CopiesOf;
    var l := CopiedToAll(active, Rendered(delivered), Render(item));
    var r := Rendered(H.Dispatched(Subscribers(active), delivered, item));
    forall c | c in delivered ensures l[c] == r[c] {
      if c in active {
        CopiesAreProject(active[c], [item]);
        assert RenderAll([item]) == [Render(item)];
        CopiesOfOne(active[c], Render(item));
      }
    }
  }

  /** Queue, registry and channels seen as a hub: events by number, deliveries by client. */
  ghost predicate IsModel(q: Queue, active: map<Chan, Subscription>, closed: set<Chan>,
                          received: map<Chan, seq<Event>>, h: H.Hub)
  {
    && Represents(q, h.tape)
    && h.active == Subscribers(active)
    && h.closed == closed
    && received == Rendered(h.delivered)
  }

  /** What a new subscription is sent at once. */
  function Replayed(db: map<Key, Event>, s: Subscription): seq<Event> {
    if s.lastEventID == "" then []
    else
      var missed := MissedEvents(db, s.lastEventID);
      if missed.None? then [] else CopiesOf(s, missed.value)
  }

  lemma ReplayedIsMissed(q: Queue, t: Tape, s: Subscription)
    requires Represents(q, t)
    ensures Replayed(q.db, s) == RenderAll(Project(SubscriberOf(s), Missed(t, ResumeOf(s.lastEventID))))
  {
    var resume := ResumeOf(s.lastEventID);
    MissedRepresents(q, t, s.lastEventID);
    CopiesAreProject(s, Missed(t, resume));
    if !resume.After? { assert Missed(t, resume) == []; }
    hide AllAfter, Represents, Replay;
  }

  /** What a subscription is replayed, by its Last-Event-ID header: nothing without one, or if it is not a number
      below 2^64 in hexadecimal; else the stored events above that number, each once and in increasing order,
      and for the greatest number all of them. */
  lemma HeaderSelects(q: Queue, t: Tape, s: Subscription)
    requires Represents(q, t)
    ensures ParseHex(s.lastEventID).None? ==> Replayed(q.db, s) == []
    ensures ParseHex(s.lastEventID).Some? ==>
              exists items: seq<Item> ::
                && Replayed(q.db, s) == RenderAll(Project(SubscriberOf(s), items))
                && Ascending(items)
                && (forall item | item in items :: item.id in t.stored && item == t.stored[item.id])
                && forall id | id in t.stored ::
                     t.stored[id] in items
                     <==> id > ParseHex(s.lastEventID).value || ParseHex(s.lastEventID).value == WORD - 1
  {
    hide Represents, Project, Replay, ParseHex, Replayed, SubscriberOf;
    ReplayedIsMissed(q, t, s);
    StoredIds(q, t);
    if ParseHex(s.lastEventID).None? {
      assert Missed(t, ResumeOf(s.lastEventID)) == [];
      NothingProjected(SubscriberOf(s));
    } else {
      NotEmpty(s.lastEventID);
      var id := ParseHex(s.lastEventID).value;
      var lo := if id + 1 == WORD then 0 else id;
      var items := Replay(t.stored, lo, t.latest);
      assert Missed(t, ResumeOf(s.lastEventID)) == items;
      ReplayContent(t.stored, lo, t.latest);
      forall item | item in items ensures lo < item.id && item.id in t.stored && item == t.stored[item.id] {
        var i :| 0 <= i < |items| && items[i] == item;
      }
    }
  }

  lemma StoredIds(q: Queue, t: Tape)
    requires Represents(q, t)
    ensures forall id | id in t.stored :: t.stored[id].id == id && 1 <= id <= t.latest
    ensures t.latest + 1 < WORD
  {
  }

  lemma NothingProjected(sub: Subscriber)
    ensures RenderAll(Project(sub, [])) == []
  {
  }

  lemma NotEmpty(lastEventID: string)
    ensures ParseHex(lastEventID).Some? ==> lastEventID != ""
  {
  }

  lemma ConnectModels(q: Queue, active: map<Chan, Subscription>, closed: set<Chan>, received: map<Chan, seq<Event>>,
                      h: H.Hub, c: Chan, s: Subscription)
    requires IsModel(q, active, closed, received, h)
    ensures IsModel(q, active[c := s], closed, received[c := Replayed(q.db, s)], H.Connect(h, c, SubscriberOf(s)))
  {
    hide Project, Missed, Replayed, Represents, SubscriberOf;
    ReplayedIsMissed(q, h.tape, s);
    var g := H.Connect(h, c, SubscriberOf(s));
    assert g.active == Subscribers(active[c := s]);
    assert SubscriberOf(s).resume == ResumeOf(s.lastEventID) by { SubscriberResume(s); }
    assert Rendered(g.delivered) == Rendered(h.delivered)[c := Replayed(q.db, s)];
  }

  lemma SubscriberResume(s: Subscription)
    ensures SubscriberOf(s).resume == ResumeOf(s.lastEventID)
  {
  }

  // ---------- the controller ----------

  class Controller {
    const s: LevelDBEventQueue
    var activeClients: map<Chan, Subscription>
    var closed: set<Chan>
    var notifier: Option<Event>              // the Notifier channel, which buffers one event
    var received: map<Chan, seq<Event>>      // what was sent on each channel, closed ones included

    /** Open channels are those of the active clients. */
    ghost predicate Valid()
      reads this
    {
      activeClients.Keys !! closed && activeClients.Keys + closed == received.Keys
    }

    /** The state seen as a hub: events by number, deliveries by client. */
    ghost predicate Models(h: H.Hub)
      reads this, s
    {
      IsModel(s.View(), activeClients, closed, received, h)
    }

    constructor (s: LevelDBEventQueue)
      ensures this.s == s && Valid() && activeClients == map[] && closed == {} && notifier == None && received == map[]
    {
      this.s := s;
      activeClients, closed, notifier, received := map[], {}, None, map[];
    }

    /** A send on a closed channel would panic. */
    method SendToSubscriber(c: Chan, subscription: Subscription, event: Event)
      requires c in received && c !in closed
      modifies this`received
      ensures received == old(received)[c := old(received)[c] + Copies(subscription, event)]
    {
      ghost var before := received[c];
      for i := 0 to |subscription.types|
        invariant received == old(received) && event.kind !in subscription.types[..i]
      {
        if subscription.types[i] == event.kind {
          var toSend := event;
          if !subscription.diff {
            toSend := toSend.(data := map["id" := IdMember(toSend.data)]);
          }
          received := received[c := received[c] + [toSend]];
          return;
        }
      }
      assert before + [] == before;
    }

    /** The handler takes the event off the Notifier and sends it to every active client. */
    method HandleEvent(ghost h: H.Hub, ghost item: Item)
      requires Valid() && Models(h) && notifier == Some(Render(item))
      modifies this`notifier, this`received
      ensures Valid() && Models(H.Dispatch(h, item)) && notifier == None
    {
      CopiesAreDispatched(activeClients, h.delivered, item);
      hide Represents, Copies, CopiedToAll, Project, SubscriberOf, H.Dispatched, Rendered, Render;
      var event := notifier.value;
      notifier := None;
      SendToAll(event);
    }

    method SendToAll(event: Event)
      requires Valid()
      modifies this`received
      ensures Valid() && received == CopiedToAll(activeClients, old(received), event)
    {
      hide Copies;
      var pending := activeClients.Keys;
      while pending != {}
        invariant pending <= activeClients.Keys && received.Keys == old(received).Keys
        invariant forall c | c in received ::
                    received[c] == if c in activeClients && c !in pending
                                   then old(received)[c] + Copies(activeClients[c], event)
                                   else old(received)[c]
        decreases |pending|
      {
        var c :| c in pending;
        SendToSubscriber(c, activeClients[c], event);
        pending := pending - {c};
      }
      assert forall c | c in received :: old(received)[c] + [] == old(received)[c];
    }

    /** The handler takes a new subscription. */
    method HandleSubscription(c: Chan, subscription: Subscription, ghost h: H.Hub)
      requires Valid() && Models(h) && c !in received
      modifies this`activeClients, this`received
      ensures Valid() && Models(H.Connect(h, c, SubscriberOf(subscription)))
    {
      hide IsModel, MissedEvents, CopiesOf, H.Connect, SubscriberOf;
      ConnectModels(s.View(), activeClients, closed, received, h, c, subscription);
      activeClients := activeClients[c := subscription];
      received := received[c := []];
      if subscription.lastEventID != "" {
        var missedEvents := s.GetAllAfter(subscription.lastEventID);
        if missedEvents.None? { return; }
        SendMissed(c, subscription, missedEvents.value);
        assert [] + CopiesOf(subscription, missedEvents.value) == CopiesOf(subscription, missedEvents.value);
      }
      assert received == old(received)[c := Replayed(s.db, subscription)];
    }

    method SendMissed(c: Chan, subscription: Subscription, missedEvents: seq<Event>)
      requires c in received && c !in closed
      modifies this`received
      ensures received == old(received)[c := old(received)[c] + CopiesOf(subscription, missedEvents)]
    {
      ghost var before := received[c];
      assert before + [] == before;
      for i := 0 to |missedEvents|
        invariant received == old(received)[c := before + CopiesOf(subscription, missedEvents[..i])]
      {
        SendToSubscriber(c, subscription, missedEvents[i]);
        assert missedEvents[..i + 1][..i] == missedEvents[..i];
        var now, more := CopiesOf(subscription, missedEvents[..i]), Copies(subscription, missedEvents[i]);
        assert before + now + more == before + (now + more);
      }
      assert missedEvents[..|missedEvents|] == missedEvents;
    }

    /** The handler takes an unsubscription; closing a channel twice would panic. */
    method HandleUnsubscription(c: Chan, ghost h: H.Hub)
      requires Valid() && Models(h) && c in activeClients
      modifies this`activeClients, this`closed
      ensures Valid() && Models(H.Disconnect(h, c))
    {
      activeClients := activeClients - {c};
      closed := closed + {c};
    }

    /** The event is handed over before it is stored. It then waits in the Notifier, which must have
        let it through; the handler may take it at any later time. */
    method StoreAndNotify(kind: EventType, data: Members, ghost h: H.Hub)
      requires Valid() && Models(h) && notifier.None? && h.tape.latest + 2 < WORD
      modifies this`notifier, s`db, s`latestID
      ensures Valid() && Models(H.Announce(h, kind, data)) && notifier == Some(Render(H.NextItem(h, kind, data)))
    {
      hide Represents, Q.Store, FormatHex, SubscriberOf, NewId, Rendered, StoreItem;
      EventRepresents(s.View(), h, kind, data);
      var id := s.GetNewID();
      var event := Event(id, kind, data);
      notifier := Some(event);
      var stored := s.AddRotate(event);
    }

    method CreateHandler(td: Members, ghost h: H.Hub)
      requires Valid() && Models(h) && notifier.None? && h.tape.latest + 2 < WORD
      modifies this`notifier, s`db, s`latestID
      ensures Valid() && Models(H.Announce(h, Create, td)) && notifier == Some(Render(H.NextItem(h, Create, td)))
      ensures notifier == Some(Event(FormatHex(h.tape.latest + 1), Create, td))
    {
      StoreAndNotify(Create, td, h);
    }

    method UpdateHandler(before: Members, after: Members, ghost h: H.Hub)
      requires Valid() && Models(h) && notifier.None? && h.tape.latest + 2 < WORD
      modifies this`notifier, s`db, s`latestID
      ensures Valid() && Models(H.Announce(h, Update, UpdateData(before, after)))
      ensures notifier == Some(Render(H.NextItem(h, Update, UpdateData(before, after))))
      ensures notifier.value.id == FormatHex(h.tape.latest + 1) && notifier.value.kind == Update
      ensures forall k :: k in notifier.value.data <==> k == "id" || Changed(before, after, k)
    {
      UpdateTells(before, after);
      var td := Diff(Obj(before), Obj(after));
      td := td["id" := IdMember(before)];
      StoreAndNotify(Update, td, h);
    }

    method DeleteHandler(before: Members, ghost h: H.Hub)
      requires Valid() && Models(h) && notifier.None? && h.tape.latest + 2 < WORD
      modifies this`notifier, s`db, s`latestID
      ensures Valid() && Models(H.Announce(h, Delete, DeleteData(before)))
      ensures notifier == Some(Render(H.NextItem(h, Delete, DeleteData(before))))
      ensures notifier.value.id == FormatHex(h.tape.latest + 1) && notifier.value.kind == Delete
      ensures notifier.value.data == map["id" := if "id" in before then before["id"] else Null]
    {
      StoreAndNotify(Delete, map["id" := IdMember(before)], h);
    }
  }
}
