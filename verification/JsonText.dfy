/** JSON as text: the printer behind every stored value and event, and a scanner for arrays. */
module JsonText {
  import opened Json
  import opened LevelDb
  import opened Ids

  /** How numbers are printed is left to the caller; the text has none of JSON's punctuation. */
  type NumberText = real -> string

  predicate IsPlain(c: char) {
    c !in {'"', '\\', ',', '[', ']', '{', '}', '\n', '\r', '\0'}
  }

  predicate AllPlain(s: string) { forall i | 0 <= i < |s| :: IsPlain(s[i]) }

  ghost predicate Numeric(number: NumberText) {
    forall n: real :: number(n) != "" && AllPlain(number(n))
  }

  // ---------- printing ----------

  /** The escapes of encoding/json: quotes and backslashes, control characters, and the characters
      that are unsafe in HTML or JavaScript. */
  function Escape(c: char): string {
    if c == '"' then "\\\""
    else if c == '\\' then "\\\\"
    else if c == '\n' then "\\n"
    else if c == '\r' then "\\r"
    else if c == '\t' then "\\t"
    else if c < ' ' || c in {'<', '>', '&'} then
      "\\u00" + [Digit(c as nat / 16), Digit(c as nat % 16)]
    else if c == '\U{2028}' then "\\u2028"
    else if c == '\U{2029}' then "\\u2029"
    else [c]
  }

  function EscapeAll(s: string): string {
    if s == "" then "" else Escape(s[0]) + EscapeAll(s[1..])
  }

  function Quote(s: string): string { "\"" + EscapeAll(s) + "\"" }

  /** json.Marshal; members are printed in key order. */
  function Print(number: NumberText, j: Json): string
    decreases j, 2
  {
    match j
    case Null => "null"
    case Bool(b) => if b then "true" else "false"
    case Num(n) => number(n)
    case Str(s) => Quote(s)
    case Arr(a) => "[" + PrintElements(number, a) + "]"
    case Obj(m) => "{" + PrintMembers(number, j, SortedKeys(m.Keys)) + "}"
  }

  function PrintElements(number: NumberText, a: seq<Json>): string
    decreases a
  {
    if a == [] then ""
    else if |a| == 1 then Print(number, a[0])
    else Print(number, a[0]) + "," + PrintElements(number, a[1..])
  }

  function PrintMember(number: NumberText, j: Json, key: string): string
    requires j.Obj? && key in j.m
    decreases j, 0
  {
    Quote(key) + ":" + Print(number, j.m[key])
  }

  function PrintMembers(number: NumberText, j: Json, keys: seq<string>): string
    requires j.Obj? && forall k | k in keys :: k in j.m
    decreases j, 1, |keys|
  {
    if keys == [] then ""
    else if |keys| == 1 then PrintMember(number, j, keys[0])
    else PrintMember(number, j, keys[0]) + "," + PrintMembers(number, j, keys[1..])
  }

  // ---------- scanning ----------

  /** Where a scanner is: nesting depth, inside a string or not, after a backslash or not; the element
      it is reading, and those it has read. */
  datatype Scanner = Scanner(depth: nat, quoted: bool, escaped: bool, piece: string, pieces: seq<string>)

  function Step(s: Scanner, c: char): Scanner {
    var more := s.(piece := s.piece + [c]);
    if s.quoted then
      if s.escaped then more.(escaped := false)
      else if c == '\\' then more.(escaped := true)
      else if c == '"' then more.(quoted := false)
      else more
    else if c == '"' then more.(quoted := true)
    else if c == '[' || c == '{' then (if s.depth == 0 then s else more).(depth := s.depth + 1)
    else if c == ']' || c == '}' then
      if s.depth <= 1 then End(s).(depth := 0) else more.(depth := s.depth - 1)
    else if c == ',' && s.depth == 1 then s.(piece := "", pieces := s.pieces + [s.piece])
    else more
  }

  /** At the closing bracket the element being read is complete; an empty array has none. */
  function End(s: Scanner): Scanner {
    if s.piece == "" && s.pieces == [] then s else s.(piece := "", pieces := s.pieces + [s.piece])
  }

  function Run(s: Scanner, text: string): Scanner
    decreases text
  {
    if text == "" then s else Run(Step(s, text[0]), text[1..])
  }

  /** Splits the text of an array at the commas of depth one that are outside strings. */
  function Split(text: string): seq<string> { Run(Scanner(0, false, false, "", []), text).pieces }

  lemma {:induction false} RunConcat(s: Scanner, a: string, b: string)
    ensures Run(s, a + b) == Run(Run(s, a), b)
    decreases a
  {
    if a == "" {
      assert a + b == b;
    } else {
      assert (a + b)[1..] == a[1..] + b;
      RunConcat(Step(s, a[0]), a[1..], b);
    }
  }

  lemma RunOne(s: Scanner, c: char)
    ensures Run(s, [c]) == Step(s, c)
  {
    assert [c][1..] == "";
  }

  function Append(s: Scanner, text: string): Scanner { s.(piece := s.piece + text) }

  predicate Outside(s: Scanner) { s.depth >= 1 && !s.quoted && !s.escaped }

  lemma {:induction false} RunPlain(s: Scanner, text: string)
    requires Outside(s) && AllPlain(text)
    ensures Run(s, text) == Append(s, text)
    decreases text
  {
    if text == "" {
      assert s.piece + text == s.piece;
    } else {
      RunPlain(Step(s, text[0]), text[1..]);
      assert s.piece + text == s.piece + [text[0]] + text[1..];
    }
  }

  /** What is passed over piece by piece is passed over as a whole. */
  lemma RunTwo(s: Scanner, a: string, b: string)
    requires Run(s, a) == Append(s, a) && Run(Append(s, a), b) == Append(Append(s, a), b)
    ensures Run(s, a + b) == Append(s, a + b)
  {
    hide Run;
    RunConcat(s, a, b);
    assert s.piece + a + b == s.piece + (a + b);
  }

  lemma EscapeShape(c: char)
    ensures var e := Escape(c);
            if |e| == 1 then e == [c] && c != '"' && c != '\\'
            else |e| >= 2 && e[0] == '\\' && forall i | 2 <= i < |e| :: e[i] != '"' && e[i] != '\\'
  {
  }

  /** The characters of an escape are passed over inside a string. */
  lemma RunEscape(s: Scanner, c: char)
    requires s.quoted && !s.escaped
    ensures Run(s, Escape(c)) == Append(s, Escape(c))
  {
    var e := Escape(c);
    EscapeShape(c);
    hide Run, Escape;
    if |e| == 1 {
      RunOne(s, c);
    } else {
      RunBackslash(s, e[1]);
      RunQuotedPlain(Append(s, ['\\', e[1]]), e[2..]);
      RunTwo(s, ['\\', e[1]], e[2..]);
      assert ['\\', e[1]] + e[2..] == e;
    }
  }

  lemma RunBackslash(s: Scanner, c: char)
    requires s.quoted && !s.escaped
    ensures Run(s, ['\\', c]) == Append(s, ['\\', c])
  {
    RunConcat(s, ['\\'], [c]);
    RunOne(s, '\\');
    RunOne(Step(s, '\\'), c);
    assert ['\\'] + [c] == ['\\', c];
    assert s.piece + ['\\'] + [c] == s.piece + ['\\', c];
  }

  lemma {:induction false} RunQuotedPlain(s: Scanner, text: string)
    requires s.quoted && !s.escaped && forall i | 0 <= i < |text| :: text[i] != '"' && text[i] != '\\'
    ensures Run(s, text) == Append(s, text)
    decreases text
  {
    if text == "" {
      assert s.piece + text == s.piece;
    } else {
      RunQuotedPlain(Step(s, text[0]), text[1..]);
      assert s.piece + text == s.piece + [text[0]] + text[1..];
    }
  }

  lemma {:induction false} RunEscapeAll(s: Scanner, text: string)
    requires s.quoted && !s.escaped
    ensures Run(s, EscapeAll(text)) == Append(s, EscapeAll(text))
    decreases text
  {
    if text == "" {
      assert s.piece + "" == s.piece;
    } else {
      hide Run, Escape;
      RunEscape(s, text[0]);
      RunEscapeAll(Append(s, Escape(text[0])), text[1..]);
      RunTwo(s, Escape(text[0]), EscapeAll(text[1..]));
    }
  }

  lemma RunQuote(s: Scanner, text: string)
    requires Outside(s)
    ensures Run(s, Quote(text)) == Append(s, Quote(text))
  {
    hide Run, EscapeAll;
    var open := Step(s, '"');
    RunConcat(s, "\"" + EscapeAll(text), "\"");
    RunConcat(s, "\"", EscapeAll(text));
    RunOne(s, '"');
    RunEscapeAll(open, text);
    RunOne(Append(open, EscapeAll(text)), '"');
    assert s.piece + ['"'] + EscapeAll(text) + ['"'] == s.piece + Quote(text);
  }

  /** Printed JSON is passed over as a whole: the scanner ends where it began, at any depth. */
  lemma {:induction false} RunPrint(number: NumberText, s: Scanner, j: Json)
    requires Numeric(number) && Outside(s)
    ensures Run(s, Print(number, j)) == Append(s, Print(number, j))
    decreases j, 2
  {
    match j
    case Null => RunPlain(s, "null");
    case Bool(b) => RunPlain(s, Print(number, j));
    case Num(n) => RunPlain(s, number(n));
    case Str(t) => RunQuote(s, t);
    case Arr(a) =>
      RunElements(number, Step(s, '['), a);
      RunBrackets(s, '[', PrintElements(number, a), ']');
    case Obj(m) =>
      RunMembers(number, Step(s, '{'), j, SortedKeys(m.Keys));
      RunBrackets(s, '{', PrintMembers(number, j, SortedKeys(m.Keys)), '}');
  }

  lemma RunBrackets(s: Scanner, left: char, inner: string, right: char)
    requires Outside(s) && (left == '[' || left == '{') && (right == ']' || right == '}')
    requires Run(Step(s, left), inner) == Append(Step(s, left), inner)
    ensures Run(s, [left] + inner + [right]) == Append(s, [left] + inner + [right])
  {
    hide Run;
    RunConcat(s, [left] + inner, [right]);
    RunConcat(s, [left], inner);
    RunOne(s, left);
    RunOne(Append(Step(s, left), inner), right);
    assert s.piece + [left] + inner + [right] == s.piece + ([left] + inner + [right]);
  }

  lemma RunJoin(s: Scanner, first: string, rest: string)
    requires Outside(s) && s.depth >= 2
    requires Run(s, first) == Append(s, first)
    requires Run(Append(s, first + ","), rest) == Append(Append(s, first + ","), rest)
    ensures Run(s, first + "," + rest) == Append(s, first + "," + rest)
  {
    hide Run;
    RunOne(Append(s, first), ',');
    RunTwo(s, first, ",");
    RunTwo(s, first + ",", rest);
  }

  lemma {:induction false} RunElements(number: NumberText, s: Scanner, a: seq<Json>)
    requires Numeric(number) && Outside(s) && s.depth >= 2
    ensures Run(s, PrintElements(number, a)) == Append(s, PrintElements(number, a))
    decreases a
  {
    if a == [] {
      assert s.piece + "" == s.piece;
    } else {
      RunPrint(number, s, a[0]);
      if |a| > 1 {
        RunElements(number, Append(s, Print(number, a[0]) + ","), a[1..]);
        RunJoin(s, Print(number, a[0]), PrintElements(number, a[1..]));
      }
    }
  }

  lemma RunMember(number: NumberText, s: Scanner, j: Json, key: string)
    requires Numeric(number) && Outside(s) && j.Obj? && key in j.m
    ensures Run(s, PrintMember(number, j, key)) == Append(s, PrintMember(number, j, key))
    decreases j, 0
  {
    RunQuote(s, key);
    RunPlain(Append(s, Quote(key)), ":");
    RunPrint(number, Append(s, Quote(key) + ":"), j.m[key]);
    hide Run, Quote, Print;
    RunTwo(s, Quote(key), ":");
    RunTwo(s, Quote(key) + ":", Print(number, j.m[key]));
  }

  lemma {:induction false} RunMembers(number: NumberText, s: Scanner, j: Json, keys: seq<string>)
    requires Numeric(number) && Outside(s) && s.depth >= 2
    requires j.Obj? && forall k | k in keys :: k in j.m
    ensures Run(s, PrintMembers(number, j, keys)) == Append(s, PrintMembers(number, j, keys))
    decreases j, 1, |keys|
  {
    if keys == [] {
      assert s.piece + "" == s.piece;
    } else {
      RunMember(number, s, j, keys[0]);
      if |keys| > 1 {
        RunMembers(number, Append(s, PrintMember(number, j, keys[0]) + ","), j, keys[1..]);
        RunJoin(s, PrintMember(number, j, keys[0]), PrintMembers(number, j, keys[1..]));
      }
    }
  }

  // ---------- arrays as streams of elements ----------

  function PrintAll(number: NumberText, values: seq<Json>): (texts: seq<string>)
    ensures |texts| == |values|
  {
    seq(|values|, i requires 0 <= i < |values| => Print(number, values[i]))
  }

  /** The texts with commas between them. */
  function Join(texts: seq<string>): string {
    if texts == [] then ""
    else if |texts| == 1 then texts[0]
    else Join(texts[..|texts| - 1]) + "," + texts[|texts| - 1]
  }

  function ArrayText(texts: seq<string>): string { "[" + Join(texts) + "]" }

  lemma PrintNonEmpty(number: NumberText, j: Json)
    requires Numeric(number)
    ensures Print(number, j) != ""
  {
  }

  /** A comma of depth one completes an element. */
  lemma RunComma(read: seq<string>)
    requires read != []
    ensures Run(Scanner(1, false, false, read[|read| - 1], read[..|read| - 1]), ",")
        == Scanner(1, false, false, "", read)
  {
    RunOne(Scanner(1, false, false, read[|read| - 1], read[..|read| - 1]), ',');
    assert read[..|read| - 1] + [read[|read| - 1]] == read;
  }

  lemma RunFirst(number: NumberText, read: seq<string>, j: Json)
    requires Numeric(number)
    ensures Run(Scanner(1, false, false, "", read), Print(number, j))
        == Scanner(1, false, false, Print(number, j), read)
  {
    RunPrint(number, Scanner(1, false, false, "", read), j);
    assert "" + Print(number, j) == Print(number, j);
  }

  lemma {:induction false} RunJoined(number: NumberText, values: seq<Json>)
    requires Numeric(number) && values != []
    ensures var texts := PrintAll(number, values);
            Run(Scanner(1, false, false, "", []), Join(texts))
              == Scanner(1, false, false, texts[|texts| - 1], texts[..|texts| - 1])
    decreases |values|
  {
    hide Run, Print, Numeric;
    var s := Scanner(1, false, false, "", []);
    var texts, n := PrintAll(number, values), |values| - 1;
    assert texts[..n] == PrintAll(number, values[..n]);
    if n == 0 {
      RunFirst(number, [], values[0]);
    } else {
      var init := texts[..n];
      RunJoined(number, values[..n]);
      RunComma(init);
      RunFirst(number, init, values[n]);
      RunConcat(s, Join(init) + ",", texts[n]);
      RunConcat(s, Join(init), ",");
    }
  }

  /** Splitting the text of an array gives back exactly the texts of its elements. */
  lemma SplitRecovers(number: NumberText, values: seq<Json>)
    requires Numeric(number)
    ensures Split(ArrayText(PrintAll(number, values))) == PrintAll(number, values)
  {
    var texts := PrintAll(number, values);
    var start, inside := Scanner(0, false, false, "", []), Scanner(1, false, false, "", []);
    RunConcat(start, "[" + Join(texts), "]");
    RunConcat(start, "[", Join(texts));
    RunOne(start, '[');
    if values == [] {
      RunOne(inside, ']');
      assert "[" + Join(texts) == "[";
    } else {
      var n := |texts| - 1;
      RunJoined(number, values);
      PrintNonEmpty(number, values[n]);
      RunOne(Scanner(1, false, false, texts[n], texts[..n]), ']');
      assert texts[..n] + [texts[n]] == texts;
    }
  }

  // ---------- printed text fits on one line ----------

  predicate OneLine(text: string) {
    forall i | 0 <= i < |text| :: text[i] != '\n' && text[i] != '\r' && text[i] != '\0'
  }

  lemma EscapeCharOneLine(c: char)
    ensures OneLine(Escape(c))
  {
  }

  lemma OneLineConcat(a: string, b: string)
    requires OneLine(a) && OneLine(b)
    ensures OneLine(a + b)
  {
  }

  lemma {:induction false} EscapeOneLine(text: string)
    ensures OneLine(EscapeAll(text))
  {
    hide Escape;
    if text != "" {
      EscapeCharOneLine(text[0]);
      EscapeOneLine(text[1..]);
    }
  }

  lemma QuoteOneLine(text: string)
    ensures OneLine(Quote(text))
  {
    EscapeOneLine(text);
    hide EscapeAll;
  }

  /** Printed JSON has no line break and no NUL, whatever its strings contain. */
  lemma {:induction false} PrintOneLine(number: NumberText, j: Json)
    requires Numeric(number)
    ensures OneLine(Print(number, j))
    decreases j, 1
  {
    hide Quote, PrintElements, PrintMembers, SortedKeys;
    match j
    case Str(s) => QuoteOneLine(s);
    case Arr(a) => ElementsOneLine(number, a);
    case Obj(m) => MembersOneLine(number, j, SortedKeys(m.Keys));
    case _ =>
  }

  lemma {:induction false} ElementsOneLine(number: NumberText, a: seq<Json>)
    requires Numeric(number)
    ensures OneLine(PrintElements(number, a))
    decreases a
  {
    if a != [] {
      PrintOneLine(number, a[0]);
      hide Print;
      ElementsOneLine(number, a[1..]);
    }
  }

  lemma {:induction false} MembersOneLine(number: NumberText, j: Json, keys: seq<string>)
    requires Numeric(number) && j.Obj? && forall k | k in keys :: k in j.m
    ensures OneLine(PrintMembers(number, j, keys))
    decreases j, 0, |keys|
  {
    if keys != [] {
      QuoteOneLine(keys[0]);
      PrintOneLine(number, j.m[keys[0]]);
      hide Print, Quote;
      OneLineConcat(Quote(keys[0]) + ":", Print(number, j.m[keys[0]]));
      MembersOneLine(number, j, keys[1..]);
    }
  }

  // ---------- which characters are escaped ----------

  predicate IsUnsafe(c: char) {
    c < ' ' || c in {'"', '\\', '<', '>', '&', '\U{2028}', '\U{2029}'}
  }

  /** Safe characters stand for themselves, and unsafe ones are escaped. */
  lemma {:induction false} QuoteEscapes(s: string)
    ensures (forall c | c in s :: !IsUnsafe(c)) <==> EscapeAll(s) == s
    ensures forall c | c in EscapeAll(s) :: IsUnsafe(c) ==> c == '"' || c == '\\'
    ensures |EscapeAll(s)| >= |s|
  {
    if s != "" {
      QuoteEscapes(s[1..]);
      assert s == [s[0]] + s[1..];
      var e, rest := Escape(s[0]), EscapeAll(s[1..]);
      assert (e + rest)[|e|..] == rest && (e + rest)[..|e|] == e;
      assert |e| >= 1 && (|e| == 1 <==> !IsUnsafe(s[0])) && (|e| == 1 ==> e == [s[0]]);
      forall c | c in EscapeAll(s) ensures IsUnsafe(c) ==> c == '"' || c == '\\' {
        assert c in e || c in rest;
      }
    }
  }

  /** A printed value: brackets, commas and colons, with the members in the order of their keys. */
  lemma PrintSample(number: NumberText)
    ensures Print(number, Obj(map["b" := Null, "aa" := Arr([Bool(true), Str("x"), Num(0.0)])]))
         == "{" + ("\"aa\"" + ":" + ("[" + ("true" + "," + ("\"x\"" + "," + number(0.0))) + "]")
                   + "," + ("\"b\"" + ":" + "null")) + "}"
  {
    hide Quote, PrintElements, SortedKeys;
    var m: Members := map["b" := Null, "aa" := Arr([Bool(true), Str("x"), Num(0.0)])];
    SampleKeys(m);
    SampleElements(number);
    SampleQuotes();
    assert ["aa", "b"][1..] == ["b"];
  }

  lemma SampleKeys(m: Members)
    requires m.Keys == {"aa", "b"}
    ensures SortedKeys(m.Keys) == ["aa", "b"]
  {
    hide SortedKeys;
    SortedUnique(["aa", "b"], SortedKeys(m.Keys));
  }

  lemma SampleQuotes()
    ensures Quote("aa") == "\"aa\"" && Quote("b") == "\"b\"" && Quote("x") == "\"x\""
  {
    QuoteEscapes("aa");
    QuoteEscapes("b");
    QuoteEscapes("x");
  }

  lemma SampleElements(number: NumberText)
    ensures PrintElements(number, [Bool(true), Str("x"), Num(0.0)])
         == "true" + "," + ("\"x\"" + "," + number(0.0))
  {
    hide Quote;
    SampleQuotes();
    var a := [Bool(true), Str("x"), Num(0.0)];
    assert a[1..] == [Str("x"), Num(0.0)] && a[1..][1..] == [Num(0.0)];
  }
}
