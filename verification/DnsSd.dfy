/** Service instance names as labels: escaping by two replacements, and reading them back. */
module DnsSd {
  import opened Json

  /** strings.ReplaceAll for a text of one character. */
  function ReplaceAll(s: string, before: char, after: string): string {
    if s == "" then "" else (if s[0] == before then after else [s[0]]) + ReplaceAll(s[1..], before, after)
  }

  function EscapeServiceInstance(instance: string): string {
    ReplaceAll(ReplaceAll(instance, '\\', "\\\\"), '.', "\\.")
  }

  /** Section 4.3 of RFC 6763: backslashes and dots are escaped, each by a backslash. */
  function EscapeLabel(s: string): string {
    if s == "" then ""
    else (if s[0] == '\\' || s[0] == '.' then ['\\', s[0]] else [s[0]]) + EscapeLabel(s[1..])
  }

  /** One pass that takes the character after each backslash as it is. */
  function Unescape(s: string): string {
    if s == "" then ""
    else if s[0] == '\\' && |s| > 1 then [s[1]] + Unescape(s[2..])
    else [s[0]] + Unescape(s[1..])
  }

  /** The first label of a name and what follows it: the name is cut at its first unescaped dot. */
  function FirstLabel(name: string): Option<(string, string)> {
    if name == "" then None
    else if name[0] == '.' then Some(("", name[1..]))
    else
      var n := if name[0] == '\\' && |name| > 1 then 2 else 1;
      var rest := FirstLabel(name[n..]);
      if rest.None? then None else Some((name[..n] + rest.value.0, rest.value.1))
  }

  lemma {:induction false} ReplaceAllConcat(a: string, b: string, before: char, after: string)
    ensures ReplaceAll(a + b, before, after) == ReplaceAll(a, before, after) + ReplaceAll(b, before, after)
  {
    if a == "" {
      assert a + b == b;
    } else {
      assert (a + b)[1..] == a[1..] + b;
      ReplaceAllConcat(a[1..], b, before, after);
    }
  }

  /** The second replacement does not disturb the first: together they escape each character once. */
  lemma {:induction false} EscapesEachCharacter(instance: string)
    ensures EscapeServiceInstance(instance) == EscapeLabel(instance)
  {
    if instance != "" {
      var first := if instance[0] == '\\' then "\\\\" else [instance[0]];
      EscapesEachCharacter(instance[1..]);
      ReplaceAllConcat(first, ReplaceAll(instance[1..], '\\', "\\\\"), '.', "\\.");
      if instance[0] == '\\' {
        assert first[1..] == "\\" && first[1..][1..] == "";
      } else {
        assert first[1..] == "";
      }
    }
  }

  lemma EscapeLabelHead(s: string)
    requires s != ""
    ensures var e := EscapeLabel(s);
            if s[0] == '\\' || s[0] == '.'
            then |e| >= 2 && e[0] == '\\' && e[1] == s[0] && e[..2] == ['\\', s[0]] && e[2..] == EscapeLabel(s[1..])
            else |e| >= 1 && e[0] == s[0] && e[..1] == [s[0]] && e[1..] == EscapeLabel(s[1..])
  {
  }

  /** Unescaping an escaped name gives the name, for every name. */
  lemma {:induction false} UnescapeEscaped(instance: string)
    ensures Unescape(EscapeServiceInstance(instance)) == instance
  {
    EscapesEachCharacter(instance);
    if instance != "" {
      EscapesEachCharacter(instance[1..]);
      UnescapeEscaped(instance[1..]);
      EscapeLabelHead(instance);
      assert instance == [instance[0]] + instance[1..];
    }
  }

  lemma FirstLabelStep(name: string)
    requires name != "" && name[0] != '.'
    ensures var n := if name[0] == '\\' && |name| > 1 then 2 else 1;
            FirstLabel(name) == var rest := FirstLabel(name[n..]);
                                if rest.None? then None else Some((name[..n] + rest.value.0, rest.value.1))
  {
  }

  lemma NoLabel(rest: string)
    ensures FirstLabel("") == None && FirstLabel("." + rest) == Some(("", rest)) && EscapeLabel("") == ""
  {
    assert ("." + rest)[1..] == rest;
  }

  /** An escaped name has no unescaped dot; followed by a dot and anything else, it is exactly the first
      label. */
  lemma {:induction false} FirstLabelOfEscaped(instance: string, rest: string)
    ensures FirstLabel(EscapeServiceInstance(instance)) == None
    ensures FirstLabel(EscapeServiceInstance(instance) + "." + rest) == Some((EscapeServiceInstance(instance), rest))
  {
    hide EscapeServiceInstance, EscapeLabel, FirstLabel;
    EscapesEachCharacter(instance);
    NoLabel(rest);
    var e := EscapeLabel(instance);
    var name := e + "." + rest;
    if instance == "" {
      assert name == "." + rest;
    } else {
      EscapesEachCharacter(instance[1..]);
      FirstLabelOfEscaped(instance[1..], rest);
      EscapeLabelHead(instance);
      FirstLabelStep(e);
      FirstLabelStep(name);
      var n := if instance[0] == '\\' || instance[0] == '.' then 2 else 1;
      assert name[n..] == EscapeLabel(instance[1..]) + "." + rest;
      assert name[..n] == e[..n] && e == e[..n] + e[n..];
    }
  }

  /** So different instances, or different domains, never make the same full name. */
  lemma FullNamesDiffer(a: string, b: string, x: string, y: string)
    requires EscapeServiceInstance(a) + "." + x == EscapeServiceInstance(b) + "." + y
    ensures a == b && x == y
  {
    FirstLabelOfEscaped(a, x);
    FirstLabelOfEscaped(b, y);
    UnescapeEscaped(a);
    UnescapeEscaped(b);
  }

  /** A name is escaped character by character, and nothing but backslashes and dots is escaped. */
  lemma EscapesBackslashAndDot(a: string, b: string, c: char)
    ensures EscapeServiceInstance(a + b) == EscapeServiceInstance(a) + EscapeServiceInstance(b)
    ensures EscapeServiceInstance([c]) == if c in {'\\', '.'} then ['\\', c] else [c]
    ensures EscapeServiceInstance("") == ""
  {
    ReplaceAllConcat(a, b, '\\', "\\\\");
    ReplaceAllConcat(ReplaceAll(a, '\\', "\\\\"), ReplaceAll(b, '\\', "\\\\"), '.', "\\.");
    EscapesEachCharacter([c]);
    assert [c][1..] == "" && EscapeLabel("") == "";
  }
}
