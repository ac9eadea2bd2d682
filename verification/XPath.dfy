/** XPath results: the node tree of a JSON value, and the value that is read back from it. */
module XPath {
  import opened Json
  import opened LevelDb

  datatype NodeType = DocumentNode | ElementNode | TextNode

  /** A node with its first child and its next sibling. */
  datatype Node = Nil | Node(kind: NodeType, data: string, firstChild: Node, nextSibling: Node)

  /** What strconv.ParseFloat makes of a text: nothing, a number, or an infinity or NaN. */
  datatype Parsed = NoFloat | Finite(n: real) | NonFinite

  /** strconv.FormatFloat and ParseFloat. */
  datatype Floats = Floats(format: real -> string, parse: string -> Parsed)

  predicate Lawful(f: Floats) {
    f.parse("") == NoFloat && f.parse("true") == NoFloat && f.parse("false") == NoFloat
  }

  /** What is read back: a Go value, in which a float need not be finite. */
  datatype Value =
    | Float(parsed: Parsed)
    | Basic(j: Json)
    | List(elements: seq<Value>)
    | Dict(members: map<string, Value>)

  /** json.Marshal refuses a value with a float that is not finite anywhere in it. */
  predicate CanMarshal(v: Value)
    decreases v
  {
    match v
    case Float(parsed) => parsed.Finite?
    case Basic(_) => true
    case List(elements) => forall i | 0 <= i < |elements| :: CanMarshal(elements[i])
    case Dict(members) => forall k | k in members :: CanMarshal(members[k])
  }

  function Marshalled(v: Value): Json
    requires CanMarshal(v)
    decreases v
  {
    match v
    case Float(parsed) => Num(parsed.n)
    case Basic(j) => j
    case List(elements) => Arr(seq(|elements|, i requires 0 <= i < |elements| => Marshalled(elements[i])))
    case Dict(members) => Obj(map k | k in members :: Marshalled(members[k]))
  }

  function Marshal(v: Value): Option<Json> { if CanMarshal(v) then Some(Marshalled(v)) else None }

  /** Every number in a value is one that its text stands for, as every float64 is. */
  predicate Numeric(f: Floats, v: Json)
    decreases v
  {
    match v
    case Num(n) => f.format(n) != "" && f.parse(f.format(n)) == Finite(n)
    case Arr(a) => forall i | 0 <= i < |a| :: Numeric(f, a[i])
    case Obj(m) => forall k | k in m :: Numeric(f, m[k])
    case _ => true
  }

  /** strconv.ParseBool */
  function ParseBool(s: string): Option<bool> {
    if s in {"1", "t", "T", "TRUE", "true", "True"} then Some(true)
    else if s in {"0", "f", "F", "FALSE", "false", "False"} then Some(false)
    else None
  }

  function BasicType(f: Floats, s: string): Value {
    if !f.parse(s).NoFloat? then Float(f.parse(s))
    else if ParseBool(s).Some? then Basic(Bool(ParseBool(s).value))
    else Basic(Str(s))
  }

  // ---------- from values to trees ----------

  /** The children under the node of a value; null has none, like an empty array or object. */
  function ChildrenOf(f: Floats, v: Json): Node
    decreases v, 1
  {
    match v
    case Null => Nil
    case Bool(b) => Node(TextNode, if b then "true" else "false", Nil, Nil)
    case Num(n) => Node(TextNode, f.format(n), Nil, Nil)
    case Str(s) => Node(TextNode, s, Nil, Nil)
    case Arr(a) => ElementsOf(f, a)
    case Obj(m) => MembersOf(f, v, SortedKeys(m.Keys))
  }

  function ElementsOf(f: Floats, a: seq<Json>): Node
    decreases a
  {
    if a == [] then Nil else Node(ElementNode, "", ChildrenOf(f, a[0]), ElementsOf(f, a[1..]))
  }

  function MembersOf(f: Floats, v: Json, keys: seq<string>): Node
    requires v.Obj? && forall k | k in keys :: k in v.m
    decreases v, 0, |keys|
  {
    if keys == [] then Nil
    else Node(ElementNode, keys[0], ChildrenOf(f, v.m[keys[0]]), MembersOf(f, v, keys[1..]))
  }

  // ---------- from trees to values ----------

  function ObjectOf(f: Floats, n: Node): Value
    requires n.Node?
    decreases n, 0
  {
    if n.kind == TextNode then BasicType(f, n.data)
    else if n.firstChild.Node? && n.firstChild.data == "" then List(ArrayOf(f, n.firstChild))
    else MapOf(f, n.firstChild, map[])
  }

  function ArrayOf(f: Floats, child: Node): seq<Value>
    decreases child, 1
  {
    if child.Nil? then [] else [ObjectOf(f, child)] + ArrayOf(f, child.nextSibling)
  }

  function MapOf(f: Floats, child: Node, found: map<string, Value>): Value
    decreases child, 1
  {
    if child.Nil? then Dict(found)
    else if child.kind == TextNode then BasicType(f, child.data)
    else MapOf(f, child.nextSibling, found[child.data := ObjectOf(f, child)])
  }

  method GetObjectFromXPathNode(f: Floats, n: Node) returns (v: Value)
    requires n.Node?
    ensures v == ObjectOf(f, n)
    decreases n
  {
    if n.kind == TextNode { return BasicType(f, n.data); }
    if n.firstChild.Node? && n.firstChild.data == "" {
      var retArray: seq<Value> := [];
      var child := n.firstChild;
      while child.Node?
        invariant child < n && retArray + ArrayOf(f, child) == ArrayOf(f, n.firstChild)
        decreases child
      {
        var element := GetObjectFromXPathNode(f, child);
        assert retArray + ([element] + ArrayOf(f, child.nextSibling))
            == retArray + [element] + ArrayOf(f, child.nextSibling);
        retArray := retArray + [element];
        child := child.nextSibling;
      }
      return List(retArray);
    } else {
      var retMap: map<string, Value> := map[];
      var child := n.firstChild;
      while child.Node?
        invariant child < n && MapOf(f, child, retMap) == MapOf(f, n.firstChild, map[])
        decreases child
      {
        if child.kind != TextNode {
          var member := GetObjectFromXPathNode(f, child);
          retMap := retMap[child.data := member];
        } else {
          return BasicType(f, child.data);
        }
        child := child.nextSibling;
      }
      return Dict(retMap);
    }
  }

  // ---------- what comes back ----------

  /** What a value becomes: nulls and empty arrays turn into empty objects, strings that look like
      numbers or booleans into those, an empty string into an array, and so does an object with an
      empty member name. */
  function Normal(f: Floats, v: Json): Value
    decreases v, 1
  {
    match v
    case Null => Dict(map[])
    case Bool(_) => Basic(v)
    case Num(n) => Float(Finite(n))
    case Str(s) => if s == "" then List([Basic(Str(""))]) else BasicType(f, s)
    case Arr(a) => if a == [] then Dict(map[]) else List(seq(|a|, i requires 0 <= i < |a| => Normal(f, a[i])))
    case Obj(m) =>
      if "" in m then List(NormalValues(f, v, SortedKeys(m.Keys))) else Dict(NormalMembers(f, v, SortedKeys(m.Keys)))
  }

  function NormalMembers(f: Floats, v: Json, keys: seq<string>): map<string, Value>
    requires v.Obj? && forall k | k in keys :: k in v.m
    decreases v, 0
  {
    map k | k in keys :: Normal(f, v.m[k])
  }

  function NormalValues(f: Floats, v: Json, keys: seq<string>): (r: seq<Value>)
    requires v.Obj? && forall k | k in keys :: k in v.m
    ensures |r| == |keys| && forall i | 0 <= i < |r| :: r[i] == Normal(f, v.m[keys[i]])
    decreases v, 0
  {
    seq(|keys|, i requires 0 <= i < |keys| => assert keys[i] in keys; Normal(f, v.m[keys[i]]))
  }

  /** Values that come back as they are. */
  predicate Plain(f: Floats, v: Json)
    decreases v
  {
    match v
    case Null => false
    case Bool(_) => true
    case Num(_) => true
    case Str(s) => s != "" && f.parse(s).NoFloat? && ParseBool(s).None?
    case Arr(a) => a != [] && forall i | 0 <= i < |a| :: Plain(f, a[i])
    case Obj(m) => "" !in m && forall k | k in m :: Plain(f, m[k])
  }

  /** Values with a string that is read as an infinity or NaN, like "nan" or "Infinity". */
  predicate Unprintable(f: Floats, v: Json)
    decreases v
  {
    match v
    case Str(s) => s != "" && f.parse(s).NonFinite?
    case Arr(a) => exists i | 0 <= i < |a| :: Unprintable(f, a[i])
    case Obj(m) => exists k | k in m :: Unprintable(f, m[k])
    case _ => false
  }

  /** The text under a node stands for the number or boolean it was made from. */
  lemma BasicTypes(f: Floats)
    requires Lawful(f)
    ensures BasicType(f, "true") == Basic(Bool(true)) && BasicType(f, "false") == Basic(Bool(false))
    ensures BasicType(f, "") == Basic(Str(""))
  {
  }

  lemma ReadsScalar(f: Floats, v: Json, kind: NodeType, data: string, next: Node)
    requires Lawful(f) && Numeric(f, v) && kind != TextNode && !v.Arr? && !v.Obj?
    ensures ObjectOf(f, Node(kind, data, ChildrenOf(f, v), next)) == Normal(f, v)
  {
    BasicTypes(f);
    if v.Num? { assert BasicType(f, f.format(v.n)) == Float(Finite(v.n)); }
    hide BasicType, Lawful;
    if v.Str? && v.s == "" {
      var child := ChildrenOf(f, v);
      assert ArrayOf(f, child) == [ObjectOf(f, child)] + ArrayOf(f, Nil);
    }
  }

  /** The node tree of any value is read back as its normal form. */
  lemma {:induction false} ReadsNormal(f: Floats, v: Json, kind: NodeType, data: string, next: Node)
    requires Lawful(f) && Numeric(f, v) && kind != TextNode
    ensures ObjectOf(f, Node(kind, data, ChildrenOf(f, v), next)) == Normal(f, v)
    decreases v, 1
  {
    hide BasicType, Lawful, Sorted, Less;
    match v
    case Arr(a) =>
      ReadsElements(f, a);
    case Obj(m) =>
      ReadsObject(f, v, SortedKeys(m.Keys), kind, data, next);
    case _ => ReadsScalar(f, v, kind, data, next);
  }

  lemma ReadsObject(f: Floats, v: Json, keys: seq<string>, kind: NodeType, data: string, next: Node)
    requires Lawful(f) && Numeric(f, v) && kind != TextNode && v.Obj? && Sorted(keys)
    requires forall k | k in keys :: k in v.m
    ensures ObjectOf(f, Node(kind, data, MembersOf(f, v, keys), next))
         == if "" in keys then List(NormalValues(f, v, keys)) else Dict(NormalMembers(f, v, keys))
    decreases v, 0, |keys| + 1
  {
    FirstKey(keys);
    if "" in keys {
      ReadsValues(f, v, keys);
    } else {
      ReadsMembers(f, v, keys, map[]);
      assert (map[] + NormalMembers(f, v, keys)) == NormalMembers(f, v, keys);
    }
  }

  lemma FirstKey(keys: seq<string>)
    requires Sorted(keys)
    ensures keys != [] ==> (keys[0] == "" <==> "" in keys)
    ensures forall i, j | 0 <= i < j < |keys| :: keys[i] != keys[j]
  {
    forall i, j | 0 <= i < j < |keys| ensures keys[i] != keys[j] && keys[j] != "" {
      assert Less(keys[i], keys[j]);
      LessTotal(keys[i], keys[i]);
    }
  }

  lemma {:induction false} ReadsElements(f: Floats, a: seq<Json>)
    requires Lawful(f) && forall i | 0 <= i < |a| :: Numeric(f, a[i])
    ensures ArrayOf(f, ElementsOf(f, a)) == seq(|a|, i requires 0 <= i < |a| => Normal(f, a[i]))
    decreases a
  {
    if a != [] {
      ReadsNormal(f, a[0], ElementNode, "", ElementsOf(f, a[1..]));
      ReadsElements(f, a[1..]);
    }
  }

  lemma {:induction false} ReadsValues(f: Floats, v: Json, keys: seq<string>)
    requires Lawful(f) && Numeric(f, v) && v.Obj? && (forall k | k in keys :: k in v.m)
    ensures ArrayOf(f, MembersOf(f, v, keys)) == NormalValues(f, v, keys)
    decreases v, 0, |keys|
  {
    if keys != [] {
      assert keys[0] in keys;
      ReadsNormal(f, v.m[keys[0]], ElementNode, keys[0], MembersOf(f, v, keys[1..]));
      ReadsValues(f, v, keys[1..]);
      assert NormalValues(f, v, keys) == [Normal(f, v.m[keys[0]])] + NormalValues(f, v, keys[1..]);
    }
  }

  lemma NormalMembersStep(f: Floats, v: Json, keys: seq<string>, found: map<string, Value>)
    requires v.Obj? && keys != [] && (forall k | k in keys :: k in v.m)
    requires forall i, j | 0 <= i < j < |keys| :: keys[i] != keys[j]
    ensures forall k | k in keys[1..] :: k in v.m
    ensures found[keys[0] := Normal(f, v.m[keys[0]])] + NormalMembers(f, v, keys[1..])
        == found + NormalMembers(f, v, keys)
  {
    hide Normal;
    var rest := keys[1..];
    assert keys == [keys[0]] + rest;
    forall k | k in rest ensures k in v.m && k != keys[0] {
      var i :| 0 <= i < |rest| && rest[i] == k;
      assert keys[i + 1] == k;
    }
    assert forall k :: k in keys <==> k == keys[0] || k in rest;
    UpdateFirst(found, NormalMembers(f, v, keys), NormalMembers(f, v, rest), keys[0]);
  }

  lemma UpdateFirst(found: map<string, Value>, all: map<string, Value>, rest: map<string, Value>, key: string)
    requires key in all && key !in rest && all.Keys == rest.Keys + {key}
    requires forall k | k in rest :: all[k] == rest[k]
    ensures found[key := all[key]] + rest == found + all
  {
    var l, r := found[key := all[key]] + rest, found + all;
    assert l.Keys == r.Keys;
    assert forall k | k in l :: l[k] == r[k];
  }

  lemma {:induction false} ReadsMembers(f: Floats, v: Json, keys: seq<string>, found: map<string, Value>)
    requires Lawful(f) && Numeric(f, v) && v.Obj? && (forall k | k in keys :: k in v.m)
    requires forall i, j | 0 <= i < j < |keys| :: keys[i] != keys[j]
    ensures MapOf(f, MembersOf(f, v, keys), found) == Dict(found + NormalMembers(f, v, keys))
    decreases v, 0, |keys|
  {
    hide Normal, ObjectOf, ChildrenOf, Lawful;
    if keys == [] {
      assert found + NormalMembers(f, v, keys) == found;
    } else {
      assert keys[0] in keys;
      NormalMembersStep(f, v, keys, found);
      hide NormalMembers;
      ReadsNormal(f, v.m[keys[0]], ElementNode, keys[0], MembersOf(f, v, keys[1..]));
      ReadsMembers(f, v, keys[1..], found[keys[0] := Normal(f, v.m[keys[0]])]);
    }
  }

  /** What is marshalled is the value itself exactly for plain values. */
  lemma {:induction false} NormalIffPlain(f: Floats, v: Json)
    ensures Marshal(Normal(f, v)) == Some(v) <==> Plain(f, v)
    decreases v
  {
    match v
    case Arr(a) =>
      forall i | 0 <= i < |a|
        ensures Marshal(Normal(f, a[i])) == Some(a[i]) <==> Plain(f, a[i])
      {
        NormalIffPlain(f, a[i]);
      }
      if a != [] { ArrayIffPlain(f, a); }
    case Obj(m) =>
      forall k | k in m ensures Marshal(Normal(f, m[k])) == Some(m[k]) <==> Plain(f, m[k]) { NormalIffPlain(f, m[k]); }
      if "" !in m { ObjectIffPlain(f, v, SortedKeys(m.Keys)); }
    case _ =>
  }

  lemma ArrayIffPlain(f: Floats, a: seq<Json>)
    requires a != [] && forall i | 0 <= i < |a| :: Marshal(Normal(f, a[i])) == Some(a[i]) <==> Plain(f, a[i])
    ensures Marshal(Normal(f, Arr(a))) == Some(Arr(a)) <==> Plain(f, Arr(a))
  {
    var elements := Normal(f, Arr(a)).elements;
    assert forall i | 0 <= i < |a| :: elements[i] == Normal(f, a[i]);
    if Plain(f, Arr(a)) {
      forall i | 0 <= i < |a|
        ensures CanMarshal(elements[i]) && Marshalled(elements[i]) == a[i]
      {
        assert Plain(f, a[i]);
      }
      assert Marshalled(List(elements)).a == a;
    } else if Marshal(List(elements)) == Some(Arr(a)) {
      forall i | 0 <= i < |a|
        ensures Plain(f, a[i])
      {
        assert Marshalled(List(elements)).a[i] == Marshalled(elements[i]);
      }
    }
  }

  lemma ObjectIffPlain(f: Floats, v: Json, keys: seq<string>)
    requires v.Obj? && "" !in v.m && (forall k :: k in keys <==> k in v.m)
    requires forall k | k in v.m :: Marshal(Normal(f, v.m[k])) == Some(v.m[k]) <==> Plain(f, v.m[k])
    ensures Marshal(Dict(NormalMembers(f, v, keys))) == Some(v) <==> Plain(f, v)
  {
    hide Normal;
    var m, members := v.m, NormalMembers(f, v, keys);
    if Plain(f, v) {
      forall k | k in m ensures CanMarshal(members[k]) && Marshalled(members[k]) == m[k] { assert Plain(f, m[k]); }
      assert Marshalled(Dict(members)).m == m;
    } else if Marshal(Dict(members)) == Some(v) {
      forall k | k in m ensures Plain(f, m[k]) { assert Marshalled(Dict(members)).m[k] == Marshalled(members[k]); }
    }
  }

  /** The result of a query cannot be marshalled, and the query fails, exactly if a value in it has a
      string that is read as an infinity or NaN. */
  lemma {:induction false} FailsIffUnprintable(f: Floats, v: Json)
    ensures Marshal(Normal(f, v)) == None <==> Unprintable(f, v)
    decreases v
  {
    match v
    case Arr(a) =>
      forall i | 0 <= i < |a|
        ensures Marshal(Normal(f, a[i])) == None <==> Unprintable(f, a[i])
      {
        FailsIffUnprintable(f, a[i]);
      }
      if a != [] { ArrayFails(f, a); }
    case Obj(m) =>
      forall k | k in m
        ensures Marshal(Normal(f, m[k])) == None <==> Unprintable(f, m[k])
      {
        FailsIffUnprintable(f, m[k]);
      }
      ObjectFails(f, v, SortedKeys(m.Keys));
    case _ =>
  }

  lemma ArrayFails(f: Floats, a: seq<Json>)
    requires a != [] && forall i | 0 <= i < |a| :: Marshal(Normal(f, a[i])) == None <==> Unprintable(f, a[i])
    ensures Marshal(Normal(f, Arr(a))) == None <==> Unprintable(f, Arr(a))
  {
    var elements := Normal(f, Arr(a)).elements;
    if Unprintable(f, Arr(a)) {
      var i :| 0 <= i < |a| && Unprintable(f, a[i]);
      assert elements[i] == Normal(f, a[i]);
    } else {
      forall i | 0 <= i < |a| ensures CanMarshal(elements[i]) { assert !Unprintable(f, a[i]); }
    }
  }

  lemma ObjectFails(f: Floats, v: Json, keys: seq<string>)
    requires v.Obj? && (forall k :: k in keys <==> k in v.m)
    requires forall k | k in v.m :: Marshal(Normal(f, v.m[k])) == None <==> Unprintable(f, v.m[k])
    ensures Marshal(List(NormalValues(f, v, keys))) == None <==> Unprintable(f, v)
    ensures Marshal(Dict(NormalMembers(f, v, keys))) == None <==> Unprintable(f, v)
  {
    if Unprintable(f, v) {
      var k :| k in v.m && Unprintable(f, v.m[k]);
      var i :| 0 <= i < |keys| && keys[i] == k;
      assert NormalValues(f, v, keys)[i] == Normal(f, v.m[k]) && NormalMembers(f, v, keys)[k] == Normal(f, v.m[k]);
    } else {
      forall i | 0 <= i < |keys| ensures CanMarshal(NormalValues(f, v, keys)[i]) { assert keys[i] in keys; }
    }
  }

  /** What the text of a node becomes, and so what a string becomes: a number, true or false if it reads as one
      of them, and else itself. */
  lemma TextBecomes(f: Floats, s: string, first: Node, next: Node)
    ensures var v := ObjectOf(f, Node(TextNode, s, first, next));
            && v == (if !f.parse(s).NoFloat? then Float(f.parse(s))
                     else if s in {"1", "t", "T", "TRUE", "true", "True"} then Basic(Bool(true))
                     else if s in {"0", "f", "F", "FALSE", "false", "False"} then Basic(Bool(false))
                     else Basic(Str(s)))
            && (s != "" ==> Normal(f, Str(s)) == v)
  {
  }

  /** What has nothing under its node becomes an empty object, an empty string an array of one, and an object with
      an empty member name an array of what its members become, in the order of their names. */
  lemma OddValuesBecome(f: Floats, kind: NodeType, data: string, next: Node, m: map<string, Json>)
    requires Lawful(f) && kind != TextNode && (forall k | k in m :: Numeric(f, m[k])) && "" in m
    ensures forall v | v in {Null, Arr([]), Obj(map[])} ::
              Marshal(ObjectOf(f, Node(kind, data, ChildrenOf(f, v), next))) == Some(Obj(map[]))
    ensures Marshal(ObjectOf(f, Node(kind, data, ChildrenOf(f, Str("")), next))) == Some(Arr([Str("")]))
    ensures var v := ObjectOf(f, Node(kind, data, ChildrenOf(f, Obj(m)), next));
            && v.List? && |v.elements| == |m|
            && exists keys: seq<string> ::
                 && InOrder(keys, m.Keys)
                 && forall i | 0 <= i < |keys| :: keys[i] in m && v.elements[i] == Normal(f, m[keys[i]])
  {
    hide Normal, Lawful, BasicType, InOrder;
    EmptyBecome(f, kind, data, next);
    ReadsNormal(f, Obj(m), kind, data, next);
    NamelessNormal(f, m);
    SortedInOrder(m.Keys);
  }

  lemma EmptyBecome(f: Floats, kind: NodeType, data: string, next: Node)
    requires Lawful(f) && kind != TextNode
    ensures forall v | v in {Null, Arr([]), Obj(map[])} ::
              Marshal(ObjectOf(f, Node(kind, data, ChildrenOf(f, v), next))) == Some(Obj(map[]))
    ensures Marshal(ObjectOf(f, Node(kind, data, ChildrenOf(f, Str("")), next))) == Some(Arr([Str("")]))
  {
    ReadsNormal(f, Null, kind, data, next);
    ReadsNormal(f, Arr([]), kind, data, next);
    ReadsNormal(f, Obj(map[]), kind, data, next);
    ReadsNormal(f, Str(""), kind, data, next);
    hide ObjectOf, ChildrenOf;
    assert Normal(f, Obj(map[])) == Dict(map[]);
    assert Marshalled(Dict(map[])) == Obj(map[]);
    assert Marshalled(List([Basic(Str(""))])) == Arr([Str("")]);
  }

  lemma NamelessNormal(f: Floats, m: map<string, Json>)
    requires "" in m
    ensures var v, keys := Normal(f, Obj(m)), SortedKeys(m.Keys);
            && v.List? && |v.elements| == |keys| == |m|
            && forall i | 0 <= i < |keys| :: keys[i] in m && v.elements[i] == Normal(f, m[keys[i]])
  {
    var keys := SortedKeys(m.Keys);
    assert |m.Keys| == |m|;
    forall i | 0 <= i < |keys| ensures keys[i] in m { assert keys[i] in keys; }
  }
}
