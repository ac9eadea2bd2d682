/** Events applied more than once: to a mirror that has had them already, or to a store that is ahead of them. */
module Replays {
  import opened Json
  import opened EventQueue
  import opened EventLog
  import opened MergePatch
  import opened Mirror

  /** Applying an event again at once changes nothing: merges of RFC 7396 can be repeated. */
  lemma ApplyTwice(mirror: Store, kind: EventType, data: Members)
    ensures ApplyEvent(ApplyEvent(mirror, kind, data), kind, data) == ApplyEvent(mirror, kind, data)
  {
    if "id" in data && data["id"].Str? && kind == Update {
      var id := data["id"].s;
      var target := if id in mirror then Obj(mirror[id]) else Null;
      RfcTwice(target, data);
    }
  }

  lemma RfcTwice(target: Json, data: Members)
    ensures Rfc7396(target, Obj(data)).Obj?
    ensures Rfc7396(Rfc7396(target, Obj(data)), Obj(data)) == Rfc7396(target, Obj(data))
  {
    MergeTwice(false, target, Obj(data));
    RfcMergeIsStable(target, Obj(data));
    MergeIsRfc7396(target, Obj(data));
    MergeIsRfc7396(Rfc7396(target, Obj(data)), Obj(data));
  }

  lemma ApplyOne(mirror: Store, items: seq<Item>, item: Item)
    ensures ApplyAll(mirror, items + [item]) == ApplyEvent(ApplyAll(mirror, items), item.kind, item.data)
  {
    assert (items + [item])[..|items|] == items;
  }

  lemma {:induction false} ApplyConcat(mirror: Store, a: seq<Item>, b: seq<Item>)
    ensures ApplyAll(mirror, a + b) == ApplyAll(ApplyAll(mirror, a), b)
  {
    hide ApplyEvent;
    if b == [] {
      assert a + b == a;
    } else {
      var n := |b| - 1;
      ApplyConcat(mirror, a, b[..n]);
      assert a + b == a + b[..n] + [b[n]];
      ApplyOne(mirror, a + b[..n], b[n]);
    }
  }

  // ---------- two mirrors that an event makes equal ----------

  predicate Agree(a: Store, b: Store, kind: EventType, data: Members) {
    ApplyEvent(a, kind, data) == ApplyEvent(b, kind, data)
  }

  predicate Named(data: Members) { "id" in data && data["id"].Str? }

  function TargetOf(mirror: Store, id: string): Json { if id in mirror then Obj(mirror[id]) else Null }

  /** They are equal but for the TD of that event, and there as far as the event does not overwrite it. */
  lemma AgreeMeans(a: Store, b: Store, kind: EventType, data: Members)
    requires Named(data)
    ensures Agree(a, b, kind, data) <==>
            var id := data["id"].s;
            && a - {id} == b - {id}
            && (kind == Update ==> Rfc7396(TargetOf(a, id), Obj(data)) == Rfc7396(TargetOf(b, id), Obj(data)))
  {
    var id := data["id"].s;
    ApplyHere(a, kind, data);
    ApplyHere(b, kind, data);
    var x, y := ApplyEvent(a, kind, data), ApplyEvent(b, kind, data);
    if x - {id} == y - {id} && TargetOf(x, id) == TargetOf(y, id) { SameStore(x, y, id); }
  }

  lemma SameStore(a: Store, b: Store, id: string)
    requires a - {id} == b - {id} && TargetOf(a, id) == TargetOf(b, id)
    ensures a == b
  {
    forall k ensures (k in a <==> k in b) && (k in a ==> a[k] == b[k]) {
      if k != id {
        assert k in a <==> k in a - {id};
        assert k in b <==> k in b - {id};
        if k in a { assert a[k] == (a - {id})[k] == (b - {id})[k] == b[k]; }
      }
    }
  }

  /** An event changes nothing but its TD, */
  lemma ApplyHere(mirror: Store, kind: EventType, data: Members)
    requires Named(data)
    ensures var id, r := data["id"].s, ApplyEvent(mirror, kind, data);
            && r - {id} == mirror - {id}
            && TargetOf(r, id) == match kind
                                  case Create => Obj(data)
                                  case Update => Rfc7396(TargetOf(mirror, id), Obj(data))
                                  case Delete => Null
  {
  }

  /** and two mirrors that one event makes equal stay so when another comes in between. */
  lemma EventsAgree(a: Store, b: Store, kind: EventType, data: Members, between: Item)
    requires Agree(a, b, kind, data)
    ensures Agree(ApplyEvent(a, between.kind, between.data), ApplyEvent(b, between.kind, between.data), kind, data)
  {
    hide ApplyEvent, Agree, Rfc7396;
    if !Named(data) {
      Unnamed(a, b, kind, data);
    } else if !Named(between.data) {
      Ignored(a, between);
      Ignored(b, between);
    } else {
      AgreeMeans(a, b, kind, data);
      ApplyHere(a, between.kind, between.data);
      ApplyHere(b, between.kind, between.data);
      NamedAgree(a, b, kind, data, between);
    }
  }

  lemma Unnamed(a: Store, b: Store, kind: EventType, data: Members)
    requires Agree(a, b, kind, data) && !Named(data)
    ensures a == b
    ensures forall c: Store :: Agree(c, c, kind, data)
  {
  }

  lemma Ignored(a: Store, item: Item)
    requires !Named(item.data)
    ensures ApplyEvent(a, item.kind, item.data) == a
  {
  }

  lemma NamedAgree(a: Store, b: Store, kind: EventType, data: Members, between: Item)
    requires Agree(a, b, kind, data) && Named(data) && Named(between.data)
    ensures Agree(ApplyEvent(a, between.kind, between.data), ApplyEvent(b, between.kind, between.data), kind, data)
  {
    hide ApplyEvent, Agree, Rfc7396;
    var id, other := data["id"].s, between.data["id"].s;
    var x, y := ApplyEvent(a, between.kind, between.data), ApplyEvent(b, between.kind, between.data);
    AgreeMeans(a, b, kind, data);
    AgreeMeans(x, y, kind, data);
    ApplyHere(a, between.kind, between.data);
    ApplyHere(b, between.kind, between.data);
    if other == id {
      if kind == Update && between.kind == Update {
        MergesAgree(TargetOf(a, id), TargetOf(b, id), Obj(between.data), Obj(data));
      }
    } else {
      ElsewhereEqual(a, b, id, other);
      ElsewhereEqual(a, x, other, id);
      ElsewhereEqual(b, y, other, id);
      OthersEqual(a, b, x, y, id, other);
    }
  }

  lemma ElsewhereEqual(a: Store, b: Store, id: string, other: string)
    requires a - {id} == b - {id} && other != id
    ensures TargetOf(a, other) == TargetOf(b, other)
  {
    assert other in a <==> other in a - {id};
    assert other in b <==> other in b - {id};
    if other in a { assert a[other] == (a - {id})[other] == (b - {id})[other] == b[other]; }
  }

  lemma OthersEqual(a: Store, b: Store, x: Store, y: Store, id: string, other: string)
    requires a - {id} == b - {id} && x - {other} == a - {other} && y - {other} == b - {other}
    requires TargetOf(x, other) == TargetOf(y, other) && id != other
    ensures x - {id} == y - {id}
  {
    forall k | k != id ensures (k in x <==> k in y) && (k in x ==> x[k] == y[k]) {
      if k != other {
        ElsewhereEqual(a, b, id, k);
        ElsewhereEqual(a, x, other, k);
        ElsewhereEqual(b, y, other, k);
      }
    }
  }

  lemma {:induction false} StretchAgrees(a: Store, b: Store, kind: EventType, data: Members, between: seq<Item>)
    requires Agree(a, b, kind, data)
    ensures Agree(ApplyAll(a, between), ApplyAll(b, between), kind, data)
  {
    hide Agree, ApplyEvent;
    if between != [] {
      var n := |between| - 1;
      StretchAgrees(a, b, kind, data, between[..n]);
      EventsAgree(ApplyAll(a, between[..n]), ApplyAll(b, between[..n]), kind, data, between[n]);
    }
  }

  // ---------- replays onto a store that is ahead ----------

  predicate SameChange(a: Item, b: Item) { a.kind == b.kind && a.data == b.data }

  /** An event that comes again later leaves no trace of its first application. */
  lemma Absorbed(mirror: Store, item: Item, later: seq<Item>, i: nat)
    requires i < |later| && SameChange(item, later[i])
    ensures ApplyAll(ApplyEvent(mirror, item.kind, item.data), later) == ApplyAll(mirror, later)
  {
    hide ApplyEvent, ApplyAll;
    var once := ApplyEvent(mirror, item.kind, item.data);
    ApplyTwice(mirror, item.kind, item.data);
    StretchAgrees(once, mirror, item.kind, item.data, later[..i]);
    ApplyOne(once, later[..i], later[i]);
    ApplyOne(mirror, later[..i], later[i]);
    assert later == later[..i] + [later[i]] + later[i + 1..];
    ApplyConcat(once, later[..i] + [later[i]], later[i + 1..]);
    ApplyConcat(mirror, later[..i] + [later[i]], later[i + 1..]);
  }

  predicate Contains(items: seq<Item>, item: Item) { exists i :: 0 <= i < |items| && SameChange(item, items[i]) }

  /** A stretch of events may be replayed onto a store that some of them have already changed. */
  lemma {:induction false} ReplayAbsorbs(mirror: Store, early: seq<Item>, later: seq<Item>)
    requires forall i | 0 <= i < |early| :: Contains(later, early[i])
    ensures ApplyAll(ApplyAll(mirror, early), later) == ApplyAll(mirror, later)
  {
    hide ApplyEvent;
    if early != [] {
      var n := |early| - 1;
      ReplayAbsorbs(mirror, early[..n], later);
      assert Contains(later, early[n]);
      var i :| 0 <= i < |later| && SameChange(early[n], later[i]);
      hide ApplyAll;
      Absorbed(ApplyAll(mirror, early[..n]), early[n], later, i);
      LastApplied(mirror, early);
    }
  }

  lemma LastApplied(mirror: Store, items: seq<Item>)
    requires items != []
    ensures var n := |items| - 1;
            ApplyAll(mirror, items) == ApplyEvent(ApplyAll(mirror, items[..n]), items[n].kind, items[n].data)
  {
  }
}
