/**
 The ordered key/value store under both databases: LevelDB keeps its keys in bytewise order,
 and an iterator walks a snapshot of a key range in that order. A key is a string of bytes.
 */
module LevelDb {
  import opened Json

  type Key = string

  /** Bytewise lexicographic order: LevelDB's default comparer. */
  predicate Less(a: Key, b: Key)
  {
    if b == "" then false
    else if a == "" then true
    else a[0] < b[0] || (a[0] == b[0] && Less(a[1..], b[1..]))
  }

  predicate Sorted(keys: seq<Key>) {
    forall i, j | 0 <= i < j < |keys| :: Less(keys[i], keys[j])
  }

  /** A range [start, limit); an absent bound does not restrict. */
  datatype Range = Range(start: Option<Key>, limit: Option<Key>) {
    predicate Contains(k: Key) {
      (start.Some? ==> !Less(k, start.value)) && (limit.Some? ==> Less(k, limit.value))
    }
  }

  const ALL := Range(None, None)

  lemma {:induction false} LessTotal(a: Key, b: Key)
    ensures Less(a, b) || Less(b, a) || a == b
    ensures !(Less(a, b) && Less(b, a))
    ensures !Less(a, a)
  {
    if a != "" {
      LessTotal(a[1..], a[1..]);
    }
    if a != "" && b != "" {
      LessTotal(a[1..], b[1..]);
      if a[0] == b[0] && a[1..] == b[1..] {
        assert a == [a[0]] + a[1..] && b == [b[0]] + b[1..];
      }
    }
  }

  lemma {:induction false} LessTransitive(a: Key, b: Key, c: Key)
    requires Less(a, b) && Less(b, c)
    ensures Less(a, c)
  {
    if a != "" && a[0] == b[0] && b[0] == c[0] {
      LessTransitive(a[1..], b[1..], c[1..]);
    }
  }

  /** The first difference between two keys, at which the first has the smaller byte. */
  predicate DifferAt(a: Key, b: Key, i: nat) { i < |a| && i < |b| && a[..i] == b[..i] && a[i] < b[i] }

  /** One key is a proper prefix of the other, or has the smaller byte where they first differ. */
  ghost predicate Precedes(a: Key, b: Key) { a < b || exists i :: DifferAt(a, b, i) }

  lemma DifferShift(a: Key, b: Key, i: nat)
    requires a != "" && b != "" && a[0] == b[0]
    ensures DifferAt(a, b, i + 1) <==> DifferAt(a[1..], b[1..], i)
    ensures !DifferAt(a, b, 0)
  {
    if i < |a[1..]| && i < |b[1..]| {
      assert a[..i + 1] == [a[0]] + a[1..][..i] && b[..i + 1] == [b[0]] + b[1..][..i];
      if a[..i + 1] == b[..i + 1] { assert a[1..][..i] == a[..i + 1][1..] == b[..i + 1][1..] == b[1..][..i]; }
    }
  }

  lemma DifferFirst(a: Key, b: Key, i: nat)
    requires DifferAt(a, b, i) && i > 0
    ensures a[0] == b[0]
  {
    assert a[0] == a[..i][0] && b[0] == b[..i][0];
  }

  lemma PrefixTail(a: Key, b: Key)
    requires a != "" && b != "" && a[0] == b[0]
    ensures a < b <==> a[1..] < b[1..]
  {
    if a[1..] < b[1..] {
      forall i | 0 <= i < |a| ensures a[i] == b[i] {
        if i > 0 { assert a[i] == a[1..][i - 1] && b[i] == b[1..][i - 1]; }
      }
    }
  }

  lemma PrecedesTail(a: Key, b: Key)
    requires a != "" && b != "" && a[0] == b[0]
    ensures Precedes(a, b) <==> Precedes(a[1..], b[1..])
  {
    PrefixTail(a, b);
    DifferShift(a, b, 0);
    if i: nat :| DifferAt(a, b, i) {
      DifferShift(a, b, i - 1);
      assert Precedes(a[1..], b[1..]);
    } else if i: nat :| DifferAt(a[1..], b[1..], i) {
      DifferShift(a, b, i);
    }
  }

  /** The order is the lexicographic one. */
  lemma {:induction false} LessIsLexicographic(a: Key, b: Key)
    ensures Less(a, b) <==> Precedes(a, b)
  {
    if a != "" && b != "" {
      if a[0] == b[0] {
        PrecedesTail(a, b);
        LessIsLexicographic(a[1..], b[1..]);
      } else if a[0] < b[0] {
        assert DifferAt(a, b, 0);
      } else {
        forall i: nat ensures !DifferAt(a, b, i) { if DifferAt(a, b, i) && i > 0 { DifferFirst(a, b, i); } }
      }
    }
  }

  /** The keys of a set, each once, every one before the next. */
  ghost predicate InOrder(keys: seq<Key>, s: set<Key>) {
    && |keys| == |s| && (forall k :: k in keys <==> k in s)
    && forall i, j | 0 <= i < j < |keys| :: Precedes(keys[i], keys[j])
  }

  predicate IsLeast(k: Key, s: set<Key>) {
    k in s && forall x | x in s && x != k :: Less(k, x)
  }

  /** The least key of a non-empty set. */
  function Least(s: set<Key>): (k: Key)
    requires s != {}
    ensures IsLeast(k, s)
  {
    LeastExists(s);
    forall k, l | IsLeast(k, s) && IsLeast(l, s) ensures k == l { LessTotal(k, l); }
    var k :| IsLeast(k, s);
    k
  }

  lemma {:induction false} LeastExists(s: set<Key>)
    requires s != {}
    ensures exists k :: IsLeast(k, s)
  {
    var a :| a in s;
    var rest := s - {a};
    if rest == {} {
      assert s == {a};
      assert IsLeast(a, s);
    } else {
      LeastExists(rest);
      var m :| IsLeast(m, rest);
      LessTotal(a, m);
      if Less(a, m) {
        forall x | x in s && x != a ensures Less(a, x) {
          if x != m { LessTransitive(a, m, x); }
        }
        assert IsLeast(a, s);
      } else {
        assert IsLeast(m, s);
      }
    }
  }

  function Sort(s: set<Key>): seq<Key> {
    if s == {} then [] else [Least(s)] + Sort(s - {Least(s)})
  }

  lemma {:induction false} SortSorts(s: set<Key>)
    ensures Sorted(Sort(s)) && |Sort(s)| == |s|
    ensures forall k :: k in Sort(s) <==> k in s
  {
    if s != {} {
      var k := Least(s);
      var rest := Sort(s - {k});
      SortSorts(s - {k});
      forall j | 0 <= j < |rest| ensures Less(k, rest[j]) { assert rest[j] in rest; }
    }
  }

  /** The keys of a set in order. */
  function SortedKeys(s: set<Key>): (r: seq<Key>)
    ensures Sorted(r) && |r| == |s|
    ensures forall k :: k in r <==> k in s
  {
    SortSorts(s);
    Sort(s)
  }

  lemma SortedInOrder(s: set<Key>)
    ensures InOrder(SortedKeys(s), s)
  {
    hide Less, Precedes;
    var keys := SortedKeys(s);
    forall i, j | 0 <= i < j < |keys| ensures Precedes(keys[i], keys[j]) {
      assert Less(keys[i], keys[j]);
      LessIsLexicographic(keys[i], keys[j]);
    }
  }

  lemma HasElement(s: seq<Key>)
    ensures s != [] ==> exists k :: k in s
  {
    if s != [] { assert s[0] in s; }
  }

  lemma SortedTail(s: seq<Key>)
    requires s != [] && Sorted(s)
    ensures forall k :: k in s[1..] <==> k in s && k != s[0]
  {
    LessTotal(s[0], s[0]);
    forall k | k in s && k != s[0] ensures k in s[1..] {
      var n :| 0 <= n < |s| && s[n] == k;
      assert s[1..][n - 1] == k;
    }
  }

  /** Two ordered sequences over the same keys are equal. */
  lemma {:induction false} SortedUnique(a: seq<Key>, b: seq<Key>)
    requires Sorted(a) && Sorted(b)
    requires forall k :: k in a <==> k in b
    ensures a == b
  {
    if a == [] {
      HasElement(b);
    } else {
      assert a[0] in b;
      assert b[0] in a;
      LessTotal(a[0], b[0]);
      assert a[0] == b[0];
      SortedTail(a);
      SortedTail(b);
      SortedUnique(a[1..], b[1..]);
      assert a == [a[0]] + a[1..] && b == [b[0]] + b[1..];
    }
  }

  /** What an iterator over a range of a snapshot yields, in the order it yields it. */
  function Scan<V>(db: map<Key, V>, range: Range): (keys: seq<Key>)
    ensures Sorted(keys)
    ensures forall k :: k in keys <==> k in db && range.Contains(k)
  {
    SortedKeys(set k | k in db && range.Contains(k))
  }

  /** The same in terms of bytes: exactly the keys from the start up to the limit, each once, one before the next. */
  lemma ScanInOrder<V>(db: map<Key, V>, range: Range)
    ensures var keys := Scan(db, range);
            && (forall i, j | 0 <= i < j < |keys| :: Precedes(keys[i], keys[j]))
            && forall k :: k in keys <==>
                 && k in db
                 && (range.start.Some? ==> k == range.start.value || Precedes(range.start.value, k))
                 && (range.limit.Some? ==> Precedes(k, range.limit.value))
  {
    hide Less, Precedes;
    var keys := Scan(db, range);
    forall i, j | 0 <= i < j < |keys| ensures Precedes(keys[i], keys[j]) {
      assert Less(keys[i], keys[j]);
      LessIsLexicographic(keys[i], keys[j]);
    }
    forall k | k in db
      ensures range.start.Some? ==>
                (!Less(k, range.start.value) <==> k == range.start.value || Precedes(range.start.value, k))
      ensures range.limit.Some? ==> (Less(k, range.limit.value) <==> Precedes(k, range.limit.value))
    {
      if range.start.Some? {
        LessTotal(k, range.start.value);
        LessIsLexicographic(range.start.value, k);
      }
      if range.limit.Some? { LessIsLexicographic(k, range.limit.value); }
    }
  }
}
