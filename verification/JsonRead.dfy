/** Reading printed JSON back: what is stored and sent as text is the value it was printed from. */
module JsonRead {
  import opened Json
  import opened LevelDb
  import opened Ids
  import opened JsonText

  /** How the text of a number is read is left to the caller. */
  type NumberValue = string -> Option<real>

  datatype Read<T> = Read(value: T, rest: string)

  predicate IsNumeral(c: char) { '0' <= c <= '9' || c in {'+', '-', '.', 'e', 'E'} }

  predicate AllNumeral(s: string) { forall i | 0 <= i < |s| :: IsNumeral(s[i]) }

  /** Every number in a value has a text that stands for it, as every float64 has. */
  predicate Readable(number: NumberText, read: NumberValue, j: Json)
    decreases j
  {
    match j
    case Num(n) => number(n) != "" && AllNumeral(number(n)) && read(number(n)) == Some(n)
    case Arr(a) => forall i | 0 <= i < |a| :: Readable(number, read, a[i])
    case Obj(m) => forall k | k in m :: Readable(number, read, m[k])
    case _ => true
  }

  // ---------- reading ----------

  predicate IsScalar(code: nat) { code < 0xD800 || 0xE000 <= code < 0x11_0000 }

  /** One character of a string, escaped or not. */
  function ReadChar(t: string): (r: Option<Read<char>>)
    requires t != ""
    ensures r.Some? ==> |r.value.rest| < |t|
  {
    if t[0] != '\\' then Some(Read(t[0], t[1..]))
    else if |t| < 2 then None
    else
      match t[1]
      case '"' => Some(Read('"', t[2..]))
      case '\\' => Some(Read('\\', t[2..]))
      case 'n' => Some(Read('\n', t[2..]))
      case 'r' => Some(Read('\r', t[2..]))
      case 't' => Some(Read('\t', t[2..]))
      case 'u' =>
        if |t| < 6 then None
        else
          var code := HexValue(t[2..6]);
          if code.Some? && IsScalar(code.value) then Some(Read(code.value as char, t[6..])) else None
      case _ => None
  }

  /** The rest of a string, up to its closing quote. */
  function ReadString(t: string): (r: Option<Read<string>>)
    ensures r.Some? ==> |r.value.rest| < |t|
    decreases |t|
  {
    if t == "" then None
    else if t[0] == '"' then Some(Read("", t[1..]))
    else
      var c := ReadChar(t);
      if c.None? then None
      else
        var s := ReadString(c.value.rest);
        if s.None? then None else Some(Read([c.value.value] + s.value.value, s.value.rest))
  }

  function NumeralLength(t: string): (n: nat)
    ensures n <= |t|
  {
    if t == "" || !IsNumeral(t[0]) then 0 else 1 + NumeralLength(t[1..])
  }

  function ReadValue(read: NumberValue, t: string): (r: Option<Read<Json>>)
    ensures r.Some? ==> |r.value.rest| < |t|
    decreases |t|, 0
  {
    if t == "" then None
    else if t[0] == '"' then
      var s := ReadString(t[1..]);
      if s.None? then None else Some(Read(Str(s.value.value), s.value.rest))
    else if t[0] == '[' then
      if |t| > 1 && t[1] == ']' then Some(Read(Arr([]), t[2..])) else ReadElements(read, t[1..], [])
    else if t[0] == '{' then
      if |t| > 1 && t[1] == '}' then Some(Read(Obj(map[]), t[2..])) else ReadMembers(read, t[1..], map[])
    else if "null" <= t then Some(Read(Null, t[4..]))
    else if "true" <= t then Some(Read(Bool(true), t[4..]))
    else if "false" <= t then Some(Read(Bool(false), t[5..]))
    else
      var n := NumeralLength(t);
      var v := read(t[..n]);
      if n == 0 || v.None? then None else Some(Read(Num(v.value), t[n..]))
  }

  function ReadElements(read: NumberValue, t: string, found: seq<Json>): (r: Option<Read<Json>>)
    ensures r.Some? ==> |r.value.rest| < |t|
    decreases |t|, 1
  {
    var v := ReadValue(read, t);
    if v.None? || v.value.rest == "" then None
    else if v.value.rest[0] == ',' then ReadElements(read, v.value.rest[1..], found + [v.value.value])
    else if v.value.rest[0] == ']' then Some(Read(Arr(found + [v.value.value]), v.value.rest[1..]))
    else None
  }

  function ReadMembers(read: NumberValue, t: string, found: Members): (r: Option<Read<Json>>)
    ensures r.Some? ==> |r.value.rest| < |t|
    decreases |t|, 1
  {
    if t == "" || t[0] != '"' then None
    else
      var key := ReadString(t[1..]);
      if key.None? || key.value.rest == "" || key.value.rest[0] != ':' then None
      else
        var v := ReadValue(read, key.value.rest[1..]);
        if v.None? || v.value.rest == "" then None
        else if v.value.rest[0] == ',' then
          ReadMembers(read, v.value.rest[1..], found[key.value.value := v.value.value])
        else if v.value.rest[0] == '}' then Some(Read(Obj(found[key.value.value := v.value.value]), v.value.rest[1..]))
        else None
  }

  /** json.Unmarshal, on text without white space. */
  function ReadJson(read: NumberValue, t: string): Option<Json> {
    var v := ReadValue(read, t);
    if v.Some? && v.value.rest == "" then Some(v.value.value) else None
  }

  // ---------- reading what was printed ----------

  /** Every escape stands for the character it was made from. */
  lemma ReadEscaped(c: char, rest: string)
    ensures Escape(c) != "" && Escape(c)[0] != '"'
    ensures ReadChar(Escape(c) + rest) == Some(Read(c, rest))
  {
    var e := Escape(c);
    var t := e + rest;
    if |e| == 1 {
      assert t[1..] == rest;
    } else if |e| == 2 {
      assert t[2..] == rest;
    } else {
      assert t[6..] == rest && t[2..6] == e[2..6];
      HexOfEscape(c);
    }
  }

  lemma HexOfEscape(c: char)
    requires |Escape(c)| > 2
    ensures var e := Escape(c);
            |e| == 6 && e[0] == '\\' && e[1] == 'u' && HexValue(e[2..6]) == Some(c as nat) && IsScalar(c as nat)
  {
    var digits := Escape(c)[2..6];
    FourDigits(digits);
  }

  lemma FourDigits(d: string)
    requires |d| == 4 && forall i | 0 <= i < 4 :: DigitValue(d[i]).Some?
    ensures var high := DigitValue(d[0]).value * 16 + DigitValue(d[1]).value;
            HexValue(d) == Some((high * 16 + DigitValue(d[2]).value) * 16 + DigitValue(d[3]).value)
  {
    hide DigitValue;
    var d3, d2, d1 := d[..3], d[..2], d[..1];
    assert d3[..2] == d2 && d2[..1] == d1;
    assert HexValue(d1) == DigitValue(d[0]);
    assert HexValue(d2) == Some(DigitValue(d[0]).value * 16 + DigitValue(d[1]).value);
  }

  lemma {:induction false} ReadQuoted(s: string, rest: string)
    ensures ReadString(EscapeAll(s) + "\"" + rest) == Some(Read(s, rest))
  {
    hide Escape, ReadChar;
    var t := EscapeAll(s) + "\"" + rest;
    if s == "" {
      assert t == "\"" + rest && t[1..] == rest;
    } else {
      var more := EscapeAll(s[1..]) + "\"" + rest;
      ReadEscaped(s[0], more);
      ReadQuoted(s[1..], rest);
      assert t == Escape(s[0]) + more;
      assert [s[0]] + s[1..] == s;
    }
  }

  lemma {:induction false} NumeralEnds(s: string, rest: string)
    requires AllNumeral(s) && (rest == "" || !IsNumeral(rest[0]))
    ensures NumeralLength(s + rest) == |s|
  {
    if s == "" {
      assert s + rest == rest;
    } else {
      NumeralEnds(s[1..], rest);
      assert (s + rest)[1..] == s[1..] + rest;
    }
  }

  predicate Stops(rest: string) { rest == "" || !IsNumeral(rest[0]) }

  lemma ReadNumber(read: NumberValue, n: real, text: string, rest: string)
    requires text != "" && AllNumeral(text) && read(text) == Some(n) && Stops(rest)
    ensures ReadValue(read, text + rest) == Some(Read(Num(n), rest))
  {
    hide ReadString, ReadElements, ReadMembers, NumeralLength;
    var t := text + rest;
    NumeralEnds(text, rest);
    assert t[0] == text[0];
    assert t[..|text|] == text && t[|text|..] == rest;
  }

  lemma ReadText(read: NumberValue, s: string, rest: string)
    ensures ReadValue(read, Quote(s) + rest) == Some(Read(Str(s), rest))
  {
    hide ReadString, EscapeAll, ReadElements, ReadMembers, NumeralLength;
    var t := Quote(s) + rest;
    ReadQuoted(s, rest);
    assert t[1..] == EscapeAll(s) + "\"" + rest;
  }

  lemma ReadWords(read: NumberValue, rest: string)
    ensures ReadValue(read, "null" + rest) == Some(Read(Null, rest))
    ensures ReadValue(read, "true" + rest) == Some(Read(Bool(true), rest))
    ensures ReadValue(read, "false" + rest) == Some(Read(Bool(false), rest))
  {
    hide ReadString, ReadElements, ReadMembers, NumeralLength;
    assert ("null" + rest)[4..] == rest && ("true" + rest)[4..] == rest && ("false" + rest)[5..] == rest;
  }

  lemma ReadScalar(number: NumberText, read: NumberValue, j: Json, rest: string)
    requires Readable(number, read, j) && Stops(rest) && !j.Arr? && !j.Obj?
    ensures ReadValue(read, Print(number, j) + rest) == Some(Read(j, rest))
  {
    hide ReadValue, Quote;
    match j
    case Num(n) => ReadNumber(read, n, number(n), rest);
    case Str(s) => ReadText(read, s, rest);
    case _ => ReadWords(read, rest);
  }

  lemma PrintStarts(number: NumberText, read: NumberValue, j: Json)
    requires Readable(number, read, j)
    ensures Print(number, j) != "" && Print(number, j)[0] != ']'
  {
  }

  /** What was printed is read back, whatever follows it. */
  lemma {:induction false} ReadPrinted(number: NumberText, read: NumberValue, j: Json, rest: string)
    requires Readable(number, read, j) && Stops(rest)
    ensures ReadValue(read, Print(number, j) + rest) == Some(Read(j, rest))
    decreases j, 2
  {
    hide Print, ReadValue, Less, Sorted;
    match j
    case Arr(a) => ReadPrintedArray(number, read, a, rest);
    case Obj(m) => ReadPrintedObject(number, read, j, SortedKeys(m.Keys), rest);
    case _ => ReadScalar(number, read, j, rest);
  }

  lemma ReadPrintedArray(number: NumberText, read: NumberValue, a: seq<Json>, rest: string)
    requires forall i | 0 <= i < |a| :: Readable(number, read, a[i])
    ensures ReadValue(read, Print(number, Arr(a)) + rest) == Some(Read(Arr(a), rest))
    decreases a, 1
  {
    hide ReadElements, ReadMembers, Readable, PrintElements;
    var t := Print(number, Arr(a)) + rest;
    if a == [] {
      NoElements(number);
      assert Print(number, Arr(a)) == "[]" && t[2..] == rest;
    } else {
      ReadPrintedElements(number, read, a, [], rest);
      ElementsStart(number, read, a);
      assert t[1..] == PrintElements(number, a) + "]" + rest;
      assert [] + a == a;
    }
  }

  lemma NoElements(number: NumberText)
    ensures PrintElements(number, []) == ""
  {
  }

  lemma ElementsStart(number: NumberText, read: NumberValue, a: seq<Json>)
    requires a != [] && Readable(number, read, a[0])
    ensures PrintElements(number, a) != "" && PrintElements(number, a)[0] != ']'
  {
    PrintStarts(number, read, a[0]);
    hide Print;
  }

  lemma {:induction false} ReadPrintedElements(number: NumberText, read: NumberValue, a: seq<Json>,
                                               found: seq<Json>, rest: string)
    requires a != [] && forall i | 0 <= i < |a| :: Readable(number, read, a[i])
    ensures ReadElements(read, PrintElements(number, a) + "]" + rest, found) == Some(Read(Arr(found + a), rest))
    decreases a, 0
  {
    hide Print, ReadValue;
    var t := PrintElements(number, a) + "]" + rest;
    if |a| == 1 {
      ReadPrinted(number, read, a[0], "]" + rest);
      assert t == Print(number, a[0]) + ("]" + rest);
      assert ("]" + rest)[1..] == rest && [a[0]] == a;
    } else {
      var more := PrintElements(number, a[1..]) + "]" + rest;
      ReadPrinted(number, read, a[0], "," + more);
      assert t == Print(number, a[0]) + ("," + more);
      assert ("," + more)[1..] == more;
      ReadPrintedElements(number, read, a[1..], found + [a[0]], rest);
      assert found + [a[0]] + a[1..] == found + a;
    }
  }

  function Chosen(j: Json, keys: seq<string>): Members
    requires j.Obj? && forall k | k in keys :: k in j.m
  {
    map k | k in keys :: j.m[k]
  }

  lemma ReadPrintedObject(number: NumberText, read: NumberValue, j: Json, keys: seq<string>, rest: string)
    requires Readable(number, read, j) && Stops(rest) && j.Obj? && keys == SortedKeys(j.m.Keys)
    ensures ReadValue(read, Print(number, j) + rest) == Some(Read(j, rest))
    decreases j, 1
  {
    hide ReadMembers, ReadElements, ReadString, NumeralLength, Print, PrintMembers, Readable, Chosen;
    hide Less, Sorted, SortedKeys;
    PrintObject(number, j);
    var t := Print(number, j) + rest;
    if keys == [] {
      NoKeys(number, j, keys);
      assert Print(number, j) == "{}" && t[2..] == rest;
    } else {
      ReadPrintedMembers(number, read, j, keys, map[], rest);
      assert t[1..] == PrintMembers(number, j, keys) + "}" + rest;
      MembersStart(number, j, keys);
      assert map[] + Chosen(j, keys) == j.m by { AllChosen(j, keys); }
    }
  }

  lemma PrintObject(number: NumberText, j: Json)
    requires j.Obj?
    ensures Print(number, j) == "{" + PrintMembers(number, j, SortedKeys(j.m.Keys)) + "}"
  {
    hide PrintMembers, SortedKeys;
  }

  lemma NoKeys(number: NumberText, j: Json, keys: seq<string>)
    requires j.Obj? && keys == [] && forall k :: k in keys <==> k in j.m
    ensures j == Obj(map[]) && PrintMembers(number, j, keys) == ""
  {
    assert j.m == map[];
  }

  lemma AllChosen(j: Json, keys: seq<string>)
    requires j.Obj? && forall k :: k in keys <==> k in j.m
    ensures Chosen(j, keys) == j.m
  {
  }

  lemma MembersStart(number: NumberText, j: Json, keys: seq<string>)
    requires j.Obj? && keys != [] && forall k | k in keys :: k in j.m
    ensures PrintMembers(number, j, keys) != "" && PrintMembers(number, j, keys)[0] == '"'
  {
  }

  lemma MemberIsReadable(number: NumberText, read: NumberValue, j: Json, key: string)
    requires Readable(number, read, j) && j.Obj? && key in j.m
    ensures Readable(number, read, j.m[key])
  {
  }

  lemma AfterQuote(name: string, value: string, rest: string)
    ensures var t := "\"" + name + "\"" + ":" + value + rest;
            t != "" && t[0] == '"' && t[1..] == name + "\"" + (":" + value + rest)
  {
  }

  /** One member, up to the character after its value. */
  lemma ReadPrintedMember(number: NumberText, read: NumberValue, j: Json, key: string, rest: string)
    requires Readable(number, read, j) && j.Obj? && key in j.m && Stops(rest)
    ensures var t := PrintMember(number, j, key) + rest;
            && t != "" && t[0] == '"'
            && ReadString(t[1..]) == Some(Read(key, ":" + Print(number, j.m[key]) + rest))
            && ReadValue(read, Print(number, j.m[key]) + rest) == Some(Read(j.m[key], rest))
    decreases j, 0
  {
    MemberIsReadable(number, read, j, key);
    hide ReadString, EscapeAll, Print, ReadValue, Readable;
    ReadPrinted(number, read, j.m[key], rest);
    ReadQuoted(key, ":" + Print(number, j.m[key]) + rest);
    AfterQuote(EscapeAll(key), Print(number, j.m[key]), rest);
  }

  /** Reading goes on after a comma and ends after a closing brace. */
  lemma ReadMembersStep(read: NumberValue, t: string, key: string, value: string, v: Json, after: string,
                        found: Members)
    requires t != "" && t[0] == '"' && ReadString(t[1..]) == Some(Read(key, ":" + value + after))
    requires ReadValue(read, value + after) == Some(Read(v, after)) && after != ""
    ensures after[0] == ',' ==> ReadMembers(read, t, found) == ReadMembers(read, after[1..], found[key := v])
    ensures after[0] == '}' ==> ReadMembers(read, t, found) == Some(Read(Obj(found[key := v]), after[1..]))
  {
    hide ReadString, ReadValue;
    assert (":" + value + after)[1..] == value + after;
  }

  lemma {:induction false} ReadPrintedMembers(number: NumberText, read: NumberValue, j: Json, keys: seq<string>,
                                              found: Members, rest: string)
    requires Readable(number, read, j) && j.Obj? && keys != [] && (forall k | k in keys :: k in j.m)
    ensures ReadMembers(read, PrintMembers(number, j, keys) + "}" + rest, found)
         == Some(Read(Obj(found + Chosen(j, keys)), rest))
    decreases j, 1, |keys|
  {
    hide Print, ReadValue, ReadString, Readable, PrintMember, Chosen, ReadMembers;
    var key := keys[0];
    assert key in keys;
    ChosenStep(j, keys, found);
    var t := PrintMembers(number, j, keys) + "}" + rest;
    var more := if |keys| == 1 then rest else PrintMembers(number, j, keys[1..]) + "}" + rest;
    var after := (if |keys| == 1 then "}" else ",") + more;
    ReadPrintedMember(number, read, j, key, after);
    assert t == PrintMember(number, j, key) + after;
    assert after[1..] == more;
    ReadMembersStep(read, t, key, Print(number, j.m[key]), j.m[key], after, found);
    if |keys| > 1 {
      ReadPrintedMembers(number, read, j, keys[1..], found[key := j.m[key]], rest);
    }
  }

  lemma ChosenStep(j: Json, keys: seq<string>, found: Members)
    requires j.Obj? && keys != [] && (forall k | k in keys :: k in j.m)
    ensures found[keys[0] := j.m[keys[0]]] + Chosen(j, keys[1..]) == found + Chosen(j, keys)
    ensures |keys| == 1 ==> found[keys[0] := j.m[keys[0]]] == found + Chosen(j, keys)
  {
    var rest := keys[1..];
    assert keys == [keys[0]] + rest;
    assert forall k :: k in keys <==> k == keys[0] || k in rest;
  }

  /** Marshalling and unmarshalling a value gives the value. */
  lemma JsonRoundTrip(number: NumberText, read: NumberValue, j: Json)
    requires Readable(number, read, j)
    ensures ReadJson(read, Print(number, j)) == Some(j)
  {
    ReadPrinted(number, read, j, "");
    assert Print(number, j) + "" == Print(number, j);
  }
}
