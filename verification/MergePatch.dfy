/**
 JSON merge patches: applying one (`MergePatch`) and computing one (`CreateMergePatch`).

 The library used by the directory and RFC 7396 differ in one point only: where a patch value
 replaces something that is not an object, the library also deletes null elements of arrays.
 Both are written as one function; `deep` selects the library's behaviour.
 */
module MergePatch {
  import opened Json

  // ---------- applying a patch ----------

  /** What is stored where a patch value meets no object: its null members are dropped. */
  function Prune(deep: bool, v: Json): Json
    decreases v
  {
    match v
    case Obj(m) => Obj(map k | k in m && m[k] != Null :: Prune(deep, m[k]))
    case Arr(a) => if deep then Arr(PruneElements(a)) else v
    case _ => v
  }

  function PruneElements(a: seq<Json>): seq<Json>
    decreases a
  {
    if a == [] then []
    else (if a[0].Null? then [] else [Prune(true, a[0])]) + PruneElements(a[1..])
  }

  function Merge(deep: bool, target: Json, patch: Json): Json
    decreases patch
  {
    if !target.Obj? then Prune(deep, patch)
    else if !patch.Obj? then patch
    else
      var t, p := target.m, patch.m;
      Obj(map k | k in t.Keys + p.Keys && !(k in p && p[k].Null?) ::
            if k !in p then t[k]
            else if k !in t || t[k].Null? then Prune(deep, p[k])
            else Merge(deep, t[k], p[k]))
  }

  /** The pseudo-code of section 2 of RFC 7396; an absent target is represented by null. */
  function Rfc7396(target: Json, patch: Json): Json
    decreases patch
  {
    if !patch.Obj? then patch
    else
      var t, p := if target.Obj? then target.m else map[], patch.m;
      Obj(map k | k in t.Keys + p.Keys && !(k in p && p[k].Null?) ::
            if k in p then Rfc7396(if k in t then t[k] else Null, p[k]) else t[k])
  }

  // ---------- computing a patch ----------

  function Diff(a: Json, b: Json): Members
    requires a.Obj? && b.Obj?
    decreases b
  {
    map k | k in a.m.Keys + b.m.Keys && !Unchanged(a, b, k) ::
      if k !in b.m then Null
      else if k in a.m && a.m[k].Obj? && b.m[k].Obj? then Obj(Diff(a.m[k], b.m[k]))
      else b.m[k]
  }

  predicate Unchanged(a: Json, b: Json, k: string)
    requires a.Obj? && b.Obj?
    decreases b, 0
  {
    k in a.m && k in b.m
    && if a.m[k].Obj? && b.m[k].Obj? then Diff(a.m[k], b.m[k]) == map[] else a.m[k] == b.m[k]
  }

  // ---------- conditions ----------

  /** No null member at any depth; with `deep`, no null inside an array either. */
  predicate Clean(deep: bool, v: Json)
    decreases v
  {
    match v
    case Obj(m) => forall k | k in m :: m[k] != Null && Clean(deep, m[k])
    case Arr(a) => deep ==> forall i | 0 <= i < |a| :: a[i] != Null && Clean(true, a[i])
    case _ => true
  }

  /** Every place where `b` puts something new over `a` is free of nulls. */
  predicate Survives(deep: bool, a: Json, b: Json)
    requires a.Obj? && b.Obj?
    decreases b, 1
  {
    forall k | k in b.m :: SurvivesAt(deep, a, b, k)
  }

  predicate SurvivesAt(deep: bool, a: Json, b: Json, k: string)
    requires a.Obj? && b.Obj? && k in b.m
    decreases b, 0
  {
    if k in a.m && a.m[k] == b.m[k] then true
    else if k in a.m && a.m[k].Obj? then
      if b.m[k].Obj? then Survives(deep, a.m[k], b.m[k]) else b.m[k] != Null
    else b.m[k] != Null && Clean(deep, b.m[k])
  }

  /** Wherever the patch replaces an object by something else, that something is clean. */
  predicate Stable(deep: bool, target: Json, patch: Json)
    decreases patch
  {
    target.Obj? ==>
      if patch.Obj? then
        forall k | k in patch.m && patch.m[k] != Null && k in target.m :: Stable(deep, target.m[k], patch.m[k])
      else Clean(deep, patch)
  }

  /** Arrays at any depth of a patch value are free of nulls. */
  predicate ArraysClean(v: Json)
    decreases v
  {
    match v
    case Obj(m) => forall k | k in m && m[k] != Null :: ArraysClean(m[k])
    case Arr(_) => Clean(true, v)
    case _ => true
  }

  predicate Agrees(target: Json, patch: Json)
    decreases patch
  {
    if !target.Obj? then ArraysClean(patch)
    else patch.Obj? ==>
        forall k | k in patch.m && patch.m[k] != Null ::
          if k in target.m then Agrees(target.m[k], patch.m[k]) else ArraysClean(patch.m[k])
  }

  // ---------- facts about Prune ----------

  lemma {:induction false} PruneElementsShrinks(a: seq<Json>)
    ensures |PruneElements(a)| <= |a|
    ensures |PruneElements(a)| == |a| ==>
              forall i | 0 <= i < |a| :: a[i] != Null && PruneElements(a)[i] == Prune(true, a[i])
    ensures (forall i | 0 <= i < |a| :: a[i] != Null) ==> |PruneElements(a)| == |a|
  {
    if a != [] {
      PruneElementsShrinks(a[1..]);
      if forall i | 0 <= i < |a| :: a[i] != Null {
        assert forall i | 0 <= i < |a[1..]| :: a[1..][i] == a[i + 1];
      }
      if |PruneElements(a)| == |a| {
        forall i | 0 <= i < |a| ensures a[i] != Null && PruneElements(a)[i] == Prune(true, a[i]) {
          if i > 0 { assert a[i] == a[1..][i - 1]; }
        }
      }
    }
  }

  /** Pruning leaves a value alone exactly when there is nothing to prune. */
  lemma {:induction false} PruneFixed(deep: bool, v: Json)
    ensures Prune(deep, v) == v <==> Clean(deep, v)
    decreases v
  {
    match v
    case Obj(m) =>
      forall k | k in m ensures Prune(deep, m[k]) == m[k] <==> Clean(deep, m[k]) { PruneFixed(deep, m[k]); }
      var p := Prune(deep, v).m;
      if Clean(deep, v) {
        assert p == m;
      } else {
        var k :| k in m && !(m[k] != Null && Clean(deep, m[k]));
        assert k in p ==> p[k] != m[k];
      }
    case Arr(a) =>
      PruneElementsShrinks(a);
      forall i | 0 <= i < |a| ensures Prune(true, a[i]) == a[i] <==> Clean(true, a[i]) { PruneFixed(true, a[i]); }
      if deep && Clean(deep, v) { assert PruneElements(a) == a; }
    case _ =>
  }

  /** Merging a value into its own pruned form changes nothing. */
  lemma {:induction false} MergeIntoPruned(deep: bool, v: Json)
    ensures Merge(deep, Prune(deep, v), v) == Prune(deep, v)
    decreases v
  {
    if v.Obj? {
      forall k | k in v.m && v.m[k] != Null
        ensures Merge(deep, Prune(deep, v.m[k]), v.m[k]) == Prune(deep, v.m[k])
      {
        MergeIntoPruned(deep, v.m[k]);
      }
      assert Merge(deep, Prune(deep, v), v).m == Prune(deep, v).m;
    }
  }

  /** Pruning an array drops its nulls, prunes the rest one by one, and keeps their order; pruning an object
      drops its null members and prunes the rest. */
  lemma {:induction false} PruneKeeps(a: seq<Json>, b: seq<Json>, x: Json)
    ensures Prune(true, Arr(a + b)) == Arr(Prune(true, Arr(a)).a + Prune(true, Arr(b)).a)
    ensures Prune(true, Arr([x])) == Arr(if x == Null then [] else [Prune(true, x)])
    ensures Prune(true, Arr([])) == Arr([])
    ensures x.Obj? ==>
              && Prune(true, x).Obj?
              && (forall k :: k in Prune(true, x).m <==> k in x.m && x.m[k] != Null)
              && (forall k | k in x.m && x.m[k] != Null :: Prune(true, x).m[k] == Prune(true, x.m[k]))
    ensures !x.Obj? && !x.Arr? ==> Prune(true, x) == x
    decreases a
  {
    assert [x][1..] == [] && PruneElements([]) == [];
    if a == [] {
      assert a + b == b;
    } else {
      assert (a + b)[1..] == a[1..] + b && (a + b)[0] == a[0];
      PruneKeeps(a[1..], b, x);
    }
  }

  // ---------- the main results ----------

  /** With `deep` off, Merge is exactly the algorithm of RFC 7396. */
  lemma {:induction false} MergeIsRfc7396(target: Json, patch: Json)
    ensures Merge(false, target, patch) == Rfc7396(target, patch)
    decreases patch
  {
    if patch.Obj? {
      var t, p := if target.Obj? then target.m else map[], patch.m;
      forall k | k in p && p[k] != Null
        ensures k in t ==> Merge(false, t[k], p[k]) == Rfc7396(t[k], p[k])
        ensures Prune(false, p[k]) == Rfc7396(Null, p[k])
      {
        if k in t { MergeIsRfc7396(t[k], p[k]); }
        MergeIsRfc7396(Null, p[k]);
      }
      assert Merge(false, target, patch).m == Rfc7396(target, patch).m;
    }
  }

  lemma {:induction false} PruneAgreement(v: Json)
    ensures Prune(true, v) == Prune(false, v) <==> ArraysClean(v)
    decreases v
  {
    match v
    case Obj(m) =>
      var d, s := Prune(true, v).m, Prune(false, v).m;
      forall k | k in m && m[k] != Null
        ensures Prune(true, m[k]) == Prune(false, m[k]) <==> ArraysClean(m[k])
      {
        PruneAgreement(m[k]);
      }
      if ArraysClean(v) {
        assert d == s;
      } else {
        var k :| k in m && m[k] != Null && !ArraysClean(m[k]);
        assert d[k] != s[k];
      }
    case Arr(_) => PruneFixed(true, v);
    case _ =>
  }

  /** The library, value by value: over anything but an object a patch is pruned, an object is replaced by
      anything but an object as it is, and two objects are merged member by member. */
  lemma LibraryMerges(target: Json, patch: Json, k: string)
    ensures !target.Obj? ==> Merge(true, target, patch) == Prune(true, patch)
    ensures target.Obj? && !patch.Obj? ==> Merge(true, target, patch) == patch
    ensures target.Obj? && patch.Obj? ==>
              var r, t, p := Merge(true, target, patch), target.m, patch.m;
              && r.Obj?
              && (k in r.m <==> if k in p then p[k] != Null else k in t)
              && (k in r.m ==>
                    r.m[k] == if k in p then Merge(true, if k in t then t[k] else Null, p[k]) else t[k])
  {
  }

  /** The server's PATCH does what RFC 7396 says exactly when the patch keeps nulls out of the
      arrays it writes over anything but an object. */
  lemma {:induction false} LibraryMeetsRfc7396(target: Json, patch: Json)
    ensures Merge(true, target, patch) == Rfc7396(target, patch) <==> Agrees(target, patch)
    decreases patch
  {
    MergeIsRfc7396(target, patch);
    if !target.Obj? {
      PruneAgreement(patch);
    } else if patch.Obj? {
      var t, p := target.m, patch.m;
      var d, s := Merge(true, target, patch).m, Merge(false, target, patch).m;
      assert d.Keys == s.Keys;
      forall k | k in p && p[k] != Null
        ensures d[k] == s[k] <==> if k in t then Agrees(t[k], p[k]) else ArraysClean(p[k])
      {
        PruneAgreement(p[k]);
        if k in t {
          LibraryMeetsRfc7396(t[k], p[k]);
          MergeIsRfc7396(t[k], p[k]);
        }
      }
      if Agrees(target, patch) {
        assert d == s;
      } else {
        var k :| k in p && p[k] != Null && !(if k in t then Agrees(t[k], p[k]) else ArraysClean(p[k]));
        assert d[k] != s[k];
      }
    }
  }

  /** Applying the same patch again changes nothing exactly when it is stable on the target. */
  lemma {:induction false} MergeTwice(deep: bool, target: Json, patch: Json)
    ensures Merge(deep, Merge(deep, target, patch), patch) == Merge(deep, target, patch)
        <==> Stable(deep, target, patch)
    decreases patch
  {
    if !target.Obj? {
      MergeIntoPruned(deep, patch);
    } else if !patch.Obj? {
      PruneFixed(deep, patch);
    } else {
      var t, p := target.m, patch.m;
      var once := Merge(deep, target, patch);
      var twice := Merge(deep, once, patch);
      assert once.m.Keys == twice.m.Keys;
      forall k | k in p && p[k] != Null
        ensures twice.m[k] == once.m[k] <==> (k in t ==> Stable(deep, t[k], p[k]))
      {
        MergeIntoPruned(deep, p[k]);
        if k in t { MergeTwice(deep, t[k], p[k]); }
      }
      if Stable(deep, target, patch) {
        assert twice.m == once.m;
      } else {
        var k :| k in p && p[k] != Null && k in t && !Stable(deep, t[k], p[k]);
        assert twice.m[k] != once.m[k];
      }
    }
  }

  /** Under RFC 7396 every patch is stable, so merge patches are idempotent there. */
  lemma {:induction false} RfcMergeIsStable(target: Json, patch: Json)
    ensures Stable(false, target, patch)
    decreases patch
  {
    if target.Obj? && patch.Obj? {
      forall k | k in patch.m && patch.m[k] != Null && k in target.m
        ensures Stable(false, target.m[k], patch.m[k])
      {
        RfcMergeIsStable(target.m[k], patch.m[k]);
      }
    }
  }

  /** The library is not idempotent: an array with a null that lands on an object is kept the
      first time and pruned the second time. */
  lemma LibraryMergeTwiceDiffers()
    ensures var t, p := Obj(map["a" := Obj(map[])]), Obj(map["a" := Arr([Null])]);
            Merge(true, t, p) == p && Merge(true, Merge(true, t, p), p) == Obj(map["a" := Arr([])])
  {
    var t, p := Obj(map["a" := Obj(map[])]), Obj(map["a" := Arr([Null])]);
    assert Prune(true, Arr([Null])) == Arr([]);
    assert Merge(true, t, p).m == p.m;
    assert Merge(true, p, p).m == map["a" := Arr([])];
  }

  /** A diff is empty exactly between equal objects. */
  lemma {:induction false} DiffEmpty(a: Json, b: Json)
    requires a.Obj? && b.Obj?
    ensures Diff(a, b) == map[] <==> a == b
    ensures forall k :: Unchanged(a, b, k) <==> k in a.m && k in b.m && a.m[k] == b.m[k]
    decreases b
  {
    forall k | k in a.m && k in b.m && a.m[k].Obj? && b.m[k].Obj?
      ensures Diff(a.m[k], b.m[k]) == map[] <==> a.m[k] == b.m[k]
    {
      DiffEmpty(a.m[k], b.m[k]);
    }
    if a == b {
      assert Diff(a, b) == map[];
    } else {
      if a.m.Keys == b.m.Keys {
        assert a.m != b.m;
        var k :| k in a.m && a.m[k] != b.m[k];
        assert k in Diff(a, b);
      } else {
        var k :| k in a.m.Keys + b.m.Keys && !(k in a.m && k in b.m);
        assert k in Diff(a, b);
      }
    }
  }

  /** A member that one object has and the other has not, or that differs. */
  predicate Changed(a: Members, b: Members, k: string) {
    if k in a && k in b then a[k] != b[k] else k in a || k in b
  }

  /** Exactly the changed members: null if one was removed, again such a difference if it was and is an
      object, and else the new value. */
  ghost predicate IsDifference(a: Json, b: Json, d: Members)
    requires a.Obj? && b.Obj?
    decreases b
  {
    && (forall k :: k in d <==> Changed(a.m, b.m, k))
    && forall k | k in d ::
         if k !in b.m then d[k] == Null
         else if k in a.m && a.m[k].Obj? && b.m[k].Obj? then d[k].Obj? && IsDifference(a.m[k], b.m[k], d[k].m)
         else d[k] == b.m[k]
  }

  /** A computed patch sends what has changed, and nothing else. */
  lemma {:induction false} DiffIsDifference(a: Json, b: Json)
    requires a.Obj? && b.Obj?
    ensures IsDifference(a, b, Diff(a, b))
    decreases b
  {
    DiffEmpty(a, b);
    var d := Diff(a, b);
    forall k ensures k in d <==> Changed(a.m, b.m, k) {
      assert Unchanged(a, b, k) <==> k in a.m && k in b.m && a.m[k] == b.m[k];
    }
    forall k | k in d && k in a.m && k in b.m && a.m[k].Obj? && b.m[k].Obj?
      ensures d[k].Obj? && IsDifference(a.m[k], b.m[k], d[k].m)
    {
      DiffIsDifference(a.m[k], b.m[k]);
    }
  }

  /** Merging a diff back gives the new object exactly when the new object survives. */
  lemma {:induction false} DiffRoundTrip(deep: bool, a: Json, b: Json)
    requires a.Obj? && b.Obj?
    ensures Merge(deep, a, Obj(Diff(a, b))) == b <==> Survives(deep, a, b)
    decreases b
  {
    DiffEmpty(a, b);
    var r := Merge(deep, a, Obj(Diff(a, b))).m;
    forall k | k in b.m
      ensures k in r && r[k] == b.m[k] <==> SurvivesAt(deep, a, b, k)
    {
      var d := Diff(a, b);
      if k in a.m && a.m[k] == b.m[k] {
        assert k !in d;
        assert r[k] == a.m[k];
      } else if k in a.m && a.m[k].Obj? && b.m[k].Obj? {
        DiffRoundTrip(deep, a.m[k], b.m[k]);
        assert d[k] == Obj(Diff(a.m[k], b.m[k]));
        assert r[k] == Merge(deep, a.m[k], d[k]);
      } else {
        PruneFixed(deep, b.m[k]);
        assert d[k] == b.m[k];
        assert b.m[k] != Null ==>
            r[k] == if k in a.m && a.m[k] != Null then Merge(deep, a.m[k], b.m[k]) else Prune(deep, b.m[k]);
      }
    }
    assert r.Keys <= b.m.Keys;
    if Survives(deep, a, b) {
      assert r == b.m;
    } else {
      var k :| k in b.m && !SurvivesAt(deep, a, b, k);
      assert k !in r || r[k] != b.m[k];
    }
  }

  /** A new object without null members always survives, whatever the old one was. */
  lemma {:induction false} CleanSurvives(deep: bool, a: Json, b: Json)
    requires a.Obj? && b.Obj? && Clean(deep, b)
    ensures Survives(deep, a, b)
    decreases b
  {
    forall k | k in b.m && k in a.m && a.m[k].Obj? && b.m[k].Obj? ensures Survives(deep, a.m[k], b.m[k]) {
      CleanSurvives(deep, a.m[k], b.m[k]);
    }
  }

  // ---------- members of a merged object ----------

  /** What a patch does to one member. */
  lemma MergedMember(deep: bool, t: Members, p: Members, k: string)
    ensures var r := Merge(deep, Obj(t), Obj(p)).m;
            && (k !in p ==> (k in r <==> k in t) && (k in t ==> r[k] == t[k]))
            && (k in p && p[k] == Null ==> k !in r)
            && (k in p && p[k] != Null ==>
                  && k in r && (r[k].Obj? <==> p[k].Obj?) && (r[k].Arr? <==> p[k].Arr?)
                  && (!p[k].Obj? && !p[k].Arr? ==> r[k] == p[k]))
  {
    if k in p && p[k] != Null {
      var r := Merge(deep, Obj(t), Obj(p)).m;
      assert r[k] == if k in t && t[k] != Null then Merge(deep, t[k], p[k]) else Prune(deep, p[k]);
    }
  }

  /** Leaving a member out commutes with merging. */
  lemma MergeWithout(deep: bool, t: Members, p: Members, k: string)
    ensures Merge(deep, Obj(t), Obj(p)).m - {k} == Merge(deep, Obj(t - {k}), Obj(p - {k})).m
  {
    hide Prune;
    var whole, rest := Merge(deep, Obj(t), Obj(p)).m, Merge(deep, Obj(t - {k}), Obj(p - {k})).m;
    assert (whole - {k}).Keys == rest.Keys;
    forall x | x in rest ensures (whole - {k})[x] == rest[x] {
      assert rest[x] == whole[x];
    }
  }

  // ---------- repeated merges ----------

  function MembersOf(v: Json): Members { if v.Obj? then v.m else map[] }

  function MemberOr(m: Members, k: string): Json { if k in m then m[k] else Null }

  lemma RfcMember(x: Json, p: Members, k: string)
    ensures var r, t := Rfc7396(x, Obj(p)), MembersOf(x);
            && r.Obj?
            && (k !in p ==> (k in r.m <==> k in t) && (k in t ==> r.m[k] == t[k]))
            && (k in p ==> (k in r.m <==> p[k] != Null) && (p[k] != Null ==> r.m[k] == Rfc7396(MemberOr(t, k), p[k])))
  {
  }

  /** Two values that a patch makes equal stay so when something else is merged in between. */
  lemma {:induction false} MergesAgree(x: Json, y: Json, between: Json, patch: Json)
    requires Rfc7396(x, patch) == Rfc7396(y, patch)
    ensures Rfc7396(Rfc7396(x, between), patch) == Rfc7396(Rfc7396(y, between), patch)
    decreases between
  {
    if between.Obj? && patch.Obj? {
      var p, q := between.m, patch.m;
      var a, b := Rfc7396(Rfc7396(x, between), patch), Rfc7396(Rfc7396(y, between), patch);
      forall k ensures k in a.m <==> k in b.m
               ensures k in a.m && k in b.m ==> a.m[k] == b.m[k]
      {
        if k in p && k in q && p[k] != Null && q[k] != Null {
          RfcMember(x, q, k);
          RfcMember(y, q, k);
          MergesAgree(MemberOr(MembersOf(x), k), MemberOr(MembersOf(y), k), p[k], q[k]);
        }
        MembersAgree(x, y, p, q, k);
      }
      assert a.m == b.m;
    }
  }

  lemma MembersAgree(x: Json, y: Json, p: Members, q: Members, k: string)
    requires Rfc7396(x, Obj(q)) == Rfc7396(y, Obj(q))
    requires k in p && k in q && p[k] != Null && q[k] != Null ==>
               Rfc7396(Rfc7396(MemberOr(MembersOf(x), k), p[k]), q[k])
               == Rfc7396(Rfc7396(MemberOr(MembersOf(y), k), p[k]), q[k])
    ensures var a, b := Rfc7396(Rfc7396(x, Obj(p)), Obj(q)), Rfc7396(Rfc7396(y, Obj(p)), Obj(q));
            a.Obj? && b.Obj? && (k in a.m <==> k in b.m) && (k in a.m ==> a.m[k] == b.m[k])
  {
    hide Rfc7396;
    RfcMember(x, q, k);
    RfcMember(y, q, k);
    RfcMember(x, p, k);
    RfcMember(y, p, k);
    RfcMember(Rfc7396(x, Obj(p)), q, k);
    RfcMember(Rfc7396(y, Obj(p)), q, k);
  }
}
