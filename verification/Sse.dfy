/** Server-sent events: what a subscription writes, and how a client reads it. */
module Sse {
  import opened Json
  import opened Ids
  import opened JsonText
  import opened EventQueue
  import opened EventLog
  import opened Protocol
  import N = Notification

  datatype Message = Message(kind: string, id: string, data: string)

  // ---------- writing ----------

  function TypeName(kind: EventType): string {
    match kind
    case Create => "create"
    case Update => "update"
    case Delete => "delete"
  }

  function MessageOf(number: NumberText, event: Event): Message {
    Message(TypeName(event.kind), event.id, Print(number, Obj(event.data)))
  }

  function MessagesOf(number: NumberText, events: seq<Event>): (messages: seq<Message>)
    ensures |messages| == |events|
  {
    seq(|events|, i requires 0 <= i < |events| => MessageOf(number, events[i]))
  }

  function LineOf(name: string, value: string): string { name + ": " + value + "\n" }

  function Frame(m: Message): string {
    LineOf("event", m.kind) + LineOf("id", m.id) + LineOf("data", m.data) + "\n"
  }

  function FrameAll(messages: seq<Message>): string {
    if messages == [] then "" else FrameAll(messages[..|messages| - 1]) + Frame(messages[|messages| - 1])
  }

  lemma FrameAllSnoc(number: NumberText, events: seq<Event>, i: nat)
    requires i < |events|
    ensures FrameAll(MessagesOf(number, events[..i + 1]))
         == FrameAll(MessagesOf(number, events[..i])) + Frame(MessageOf(number, events[i]))
  {
    hide Frame, MessageOf;
    assert MessagesOf(number, events[..i + 1])[..i] == MessagesOf(number, events[..i]);
  }

  /** The loop of a subscription over its channel. */
  method WriteEvents(number: NumberText, received: seq<Event>) returns (w: string)
    ensures w == FrameAll(MessagesOf(number, received))
  {
    hide FrameAll, Print;
    w := "";
    NoFrames(number);
    for i := 0 to |received|
      invariant w == FrameAll(MessagesOf(number, received[..i]))
    {
      FrameAllSnoc(number, received, i);
      var event := received[i];
      var data := Print(number, Obj(event.data));
      var frame := "event: " + TypeName(event.kind) + "\n";
      frame := frame + ("id: " + event.id + "\n");
      frame := frame + ("data: " + data + "\n\n");
      FrameInPieces(MessageOf(number, event));
      w := w + frame;
    }
    assert received[..|received|] == received;
  }

  lemma NoFrames(number: NumberText)
    ensures FrameAll(MessagesOf(number, [])) == ""
  {
  }

  lemma FrameInPieces(m: Message)
    ensures Frame(m) == "event: " + m.kind + "\n" + ("id: " + m.id + "\n") + ("data: " + m.data + "\n\n")
  {
    assert LineOf("data", m.data) + "\n" == "data: " + m.data + "\n\n";
  }

  // ---------- reading: section 9.2.6 of the WHATWG HTML Standard ----------

  /** The line being read, whether a carriage return has just ended one, and the three buffers; and, for the
      whole event source, its last event ID and the messages dispatched so far. */
  datatype Parser = Parser(line: string, afterCR: bool, kind: string, data: string, id: string,
                           lastId: string, messages: seq<Message>)

  const START := Parser("", false, "", "", "", "", [])

  /** A new connection begins with empty buffers. */
  function Reconnected(p: Parser): Parser { START.(lastId := p.lastId, messages := p.messages) }

  /** A field; "retry" sets a reconnection time, which no message carries. */
  function SetField(p: Parser, name: string, value: string): Parser {
    if name == "event" then p.(kind := value)
    else if name == "data" then p.(data := p.data + value + "\n")
    else if name == "id" && '\0' !in value then p.(id := value)
    else p
  }

  /** The last event ID is set here, not where its field is read. */
  function Dispatch(p: Parser): Parser {
    if p.data == "" then p.(kind := "", lastId := p.id)
    else
      var n := |p.data| - 1;
      var data := if p.data[n] == '\n' then p.data[..n] else p.data;
      var message := Message(if p.kind == "" then "message" else p.kind, p.id, data);
      p.(kind := "", data := "", lastId := p.id, messages := p.messages + [message])
  }

  /** The position of the first colon, or the length of the line. */
  function Colon(line: string): (n: nat)
    ensures n <= |line|
  {
    if line == "" || line[0] == ':' then 0 else 1 + Colon(line[1..])
  }

  function ProcessLine(p: Parser, line: string): Parser {
    if line == "" then Dispatch(p)
    else
      var n := Colon(line);
      if n == 0 then p
      else if n == |line| then SetField(p, line, "")
      else
        var value := line[n + 1..];
        SetField(p, line[..n], if value != "" && value[0] == ' ' then value[1..] else value)
  }

  /** Lines end with CR, LF or both. */
  function Feed(p: Parser, c: char): Parser {
    if c == '\n' && p.afterCR then p.(afterCR := false)
    else if c == '\n' || c == '\r' then ProcessLine(p, p.line).(line := "", afterCR := c == '\r')
    else p.(line := p.line + [c], afterCR := false)
  }

  function FeedAll(p: Parser, text: string): Parser
    decreases text
  {
    if text == "" then p else FeedAll(Feed(p, text[0]), text[1..])
  }

  /** One more connection, with the text it brings: one leading byte order mark is dropped, and what follows
      the last blank line is never dispatched. */
  function ReadOn(p: Parser, text: string): Parser {
    FeedAll(Reconnected(p), if text != "" && text[0] == '\U{FEFF}' then text[1..] else text)
  }

  function Parse(text: string): seq<Message> { ReadOn(START, text).messages }

  // ---------- reading back what was written ----------

  predicate IsOneLine(text: string) { forall i | 0 <= i < |text| :: text[i] != '\n' && text[i] != '\r' }

  predicate Sendable(m: Message) {
    m.kind != "" && IsOneLine(m.kind) && IsOneLine(m.id) && '\0' !in m.id && IsOneLine(m.data)
  }

  lemma {:induction false} FeedConcat(p: Parser, a: string, b: string)
    ensures FeedAll(p, a + b) == FeedAll(FeedAll(p, a), b)
    decreases a
  {
    if a == "" {
      assert a + b == b;
    } else {
      assert (a + b)[1..] == a[1..] + b;
      FeedConcat(Feed(p, a[0]), a[1..], b);
    }
  }

  lemma {:induction false} FeedText(p: Parser, text: string)
    requires IsOneLine(text) && !p.afterCR
    ensures FeedAll(p, text) == p.(line := p.line + text)
    decreases text
  {
    if text == "" {
      assert p.line + text == p.line;
    } else {
      FeedText(Feed(p, text[0]), text[1..]);
      assert p.line + [text[0]] + text[1..] == p.line + text;
    }
  }

  lemma FeedOne(p: Parser, c: char)
    ensures FeedAll(p, [c]) == Feed(p, c)
  {
    assert [c][1..] == "";
  }

  lemma {:induction false} ColonAfter(name: string, rest: string)
    requires ':' !in name
    ensures Colon(name + ":" + rest) == |name|
  {
    if name == "" {
      assert name + ":" + rest == ":" + rest;
    } else {
      ColonAfter(name[1..], rest);
      assert (name + ":" + rest)[1..] == name[1..] + ":" + rest;
    }
  }

  /** The value of a field is what follows its colon and one space. */
  lemma ProcessField(p: Parser, name: string, value: string)
    requires name != "" && ':' !in name
    ensures ProcessLine(p, name + ": " + value) == SetField(p, name, value)
  {
    hide SetField, Dispatch, Colon;
    var line := name + ": " + value;
    assert line == name + ":" + (" " + value);
    ColonAfter(name, " " + value);
    var rest := line[|name| + 1..];
    assert rest == " " + value;
    assert rest[1..] == value;
    assert line[..|name|] == name;
  }

  lemma FeedLine(p: Parser, name: string, value: string)
    requires name != "" && ':' !in name && IsOneLine(name) && IsOneLine(value)
    requires p.line == "" && !p.afterCR
    ensures FeedAll(p, LineOf(name, value)) == SetField(p, name, value)
  {
    hide SetField, FeedAll, ProcessLine;
    var line := name + ": " + value;
    FeedConcat(p, line, "\n");
    FeedText(p, line);
    assert "" + line == line;
    FeedOne(p.(line := line), '\n');
    ProcessField(p.(line := line), name, value);
    FieldFrame(p, line, name, value);
  }

  lemma FieldFrame(p: Parser, line: string, name: string, value: string)
    ensures SetField(p.(line := line), name, value).(line := p.line, afterCR := p.afterCR) == SetField(p, name, value)
  {
  }

  predicate AtLineStart(p: Parser) { p.line == "" && !p.afterCR }

  lemma FeedFrame(p: Parser, m: Message)
    requires Sendable(m) && AtLineStart(p) && p.kind == "" && p.data == ""
    ensures FeedAll(p, Frame(m)) == Parser("", false, "", "", m.id, m.id, p.messages + [m])
  {
    hide FeedAll, LineOf;
    var p1 := SetField(p, "event", m.kind);
    var p2 := SetField(p1, "id", m.id);
    var p3 := SetField(p2, "data", m.data);
    FeedLine(p, "event", m.kind);
    FeedLine(p1, "id", m.id);
    FeedLine(p2, "data", m.data);
    FeedConcat(p, LineOf("event", m.kind), LineOf("id", m.id));
    FeedConcat(p, LineOf("event", m.kind) + LineOf("id", m.id), LineOf("data", m.data));
    FeedConcat(p, LineOf("event", m.kind) + LineOf("id", m.id) + LineOf("data", m.data), "\n");
    FeedOne(p3, '\n');
    assert "" + m.data + "\n" == m.data + "\n";
    assert (m.data + "\n")[..|m.data|] == m.data;
  }

  function LastIdOf(messages: seq<Message>): string { if messages == [] then "" else messages[|messages| - 1].id }

  lemma {:induction false} FeedFrames(p: Parser, messages: seq<Message>)
    requires forall i | 0 <= i < |messages| :: Sendable(messages[i])
    requires p == Reconnected(p)
    ensures FeedAll(p, FrameAll(messages))
         == p.(id := LastIdOf(messages), lastId := if messages == [] then p.lastId else LastIdOf(messages),
               messages := p.messages + messages)
  {
    hide Frame, Sendable;
    if messages == [] {
      assert p.messages + messages == p.messages;
    } else {
      var n := |messages| - 1;
      FeedFrames(p, messages[..n]);
      FeedConcat(p, FrameAll(messages[..n]), Frame(messages[n]));
      FeedFrame(FeedAll(p, FrameAll(messages[..n])), messages[n]);
      assert p.messages + messages == p.messages + messages[..n] + [messages[n]];
    }
  }

  // ---------- a connection that breaks off ----------

  /** Nothing has been dispatched. */
  predicate Undispatched(p: Parser, q: Parser) { q.lastId == p.lastId && q.messages == p.messages }

  lemma SetFieldOnly(p: Parser, name: string, value: string)
    ensures Undispatched(p, SetField(p, name, value))
    ensures AtLineStart(p) ==> AtLineStart(SetField(p, name, value))
  {
  }

  lemma FeedPartOfLine(p: Parser, name: string, value: string, part: string)
    requires name != "" && ':' !in name && IsOneLine(name) && IsOneLine(value) && AtLineStart(p)
    requires part <= LineOf(name, value)
    ensures Undispatched(p, FeedAll(p, part))
  {
    hide SetField, FeedAll;
    if |part| == |LineOf(name, value)| {
      assert part == LineOf(name, value);
      FeedLine(p, name, value);
      SetFieldOnly(p, name, value);
    } else {
      assert part <= name + ": " + value;
      FeedText(p, part);
    }
  }

  /** A line, and part of what follows it. */
  lemma FeedBeyondLine(p: Parser, name: string, value: string, part: string, rest: string)
    returns (q: Parser, more: string)
    requires name != "" && ':' !in name && IsOneLine(name) && IsOneLine(value) && AtLineStart(p)
    requires |part| > |LineOf(name, value)| && part <= LineOf(name, value) + rest
    ensures more <= rest && |part| == |LineOf(name, value)| + |more| && FeedAll(p, part) == FeedAll(q, more)
    ensures Undispatched(p, q) && AtLineStart(q)
  {
    hide SetField, FeedAll, LineOf;
    var line := LineOf(name, value);
    q, more := SetField(p, name, value), part[|line|..];
    assert part == line + more;
    FeedLine(p, name, value);
    FeedConcat(p, line, more);
    SetFieldOnly(p, name, value);
  }

  /** A frame that breaks off dispatches nothing, and does not become the last event ID. */
  lemma FeedCut(p: Parser, m: Message, cut: string)
    requires Sendable(m) && AtLineStart(p) && cut < Frame(m)
    ensures Undispatched(p, FeedAll(p, cut))
  {
    hide FeedAll, LineOf;
    var first, second, third := LineOf("event", m.kind), LineOf("id", m.id), LineOf("data", m.data);
    assert first + second + third + "\n" == first + (second + (third + "\n"));
    if |cut| <= |first| {
      FeedPartOfLine(p, "event", m.kind, cut);
    } else {
      var q, more := FeedBeyondLine(p, "event", m.kind, cut, second + (third + "\n"));
      if |more| <= |second| {
        FeedPartOfLine(q, "id", m.id, more);
      } else {
        var o, last := FeedBeyondLine(q, "id", m.id, more, third + "\n");
        assert |last| <= |third|;
        FeedPartOfLine(o, "data", m.data, last);
      }
    }
  }

  lemma {:induction false} FrameAllStart(messages: seq<Message>)
    ensures messages != [] ==> FrameAll(messages) != "" && FrameAll(messages)[0] == 'e'
  {
    if messages != [] {
      FrameAllStart(messages[..|messages| - 1]);
    }
  }

  /** What a connection that breaks off brings of its last frame. */
  ghost predicate IsCut(cut: string) { exists m: Message :: Sendable(m) && cut < Frame(m) }

  lemma NoMark(messages: seq<Message>, cut: string)
    requires IsCut(cut)
    ensures var text := FrameAll(messages) + cut;
            text != "" ==> text[0] == 'e'
  {
    FrameAllStart(messages);
    var m: Message :| Sendable(m) && cut < Frame(m);
    assert Frame(m)[0] == 'e';
    if messages == [] { assert FrameAll(messages) + cut == cut; }
  }

  /** Reading what was written, up to some point within a frame, gives back the messages written whole, in
      order, one for one; and the last event ID is that of the last message dispatched. */
  lemma ReadFrames(p: Parser, messages: seq<Message>, cut: string)
    requires (forall i | 0 <= i < |messages| :: Sendable(messages[i])) && IsCut(cut)
    ensures var q := ReadOn(p, FrameAll(messages) + cut);
            && q.messages == p.messages + messages
            && q.lastId == if messages == [] then p.lastId else LastIdOf(messages)
  {
    hide Frame, FrameAll, FeedAll, Sendable;
    var m: Message :| Sendable(m) && cut < Frame(m);
    FeedFrames(Reconnected(p), messages);
    FeedConcat(Reconnected(p), FrameAll(messages), cut);
    FeedCut(FeedAll(Reconnected(p), FrameAll(messages)), m, cut);
    NoMark(messages, cut);
  }

  /** Reading what was written gives back the messages. */
  lemma ParseFrames(messages: seq<Message>)
    requires forall i | 0 <= i < |messages| :: Sendable(messages[i])
    ensures Parse(FrameAll(messages)) == messages
  {
    hide Frame, ReadOn;
    NothingIsCut();
    ReadFrames(START, messages, "");
    assert FrameAll(messages) + "" == FrameAll(messages);
  }

  lemma NothingIsCut()
    ensures IsCut("")
  {
    var m := Message("create", "", "");
    assert Sendable(m) && "" < Frame(m);
  }

  // ---------- the events of the directory ----------

  lemma {:induction false} HexIsPlain(v: nat)
    ensures IsOneLine(FormatHex(v)) && '\0' !in FormatHex(v)
  {
    if v >= 16 { HexIsPlain(v / 16); }
  }

  lemma EventIsSendable(number: NumberText, item: Item)
    requires Numeric(number)
    ensures Sendable(MessageOf(number, Render(item)))
  {
    hide Print, FormatHex;
    HexIsPlain(item.id);
    PrintOneLine(number, Obj(item.data));
  }

  /** The text of one event. */
  lemma FrameText(number: NumberText, item: Item)
    ensures Frame(MessageOf(number, Render(item)))
         == "event: " + (if item.kind.Create? then "create" else if item.kind.Update? then "update" else "delete")
             + "\n"
            + ("id: " + FormatHex(item.id) + "\n") + ("data: " + Print(number, Obj(item.data)) + "\n\n")
  {
    hide Print, FormatHex, Frame;
    FrameInPieces(MessageOf(number, Render(item)));
  }

  /** Every event the directory sends is read back as it was sent, whatever its TD contains and wherever the
      connection breaks off after it. */
  lemma StreamIsReadBack(p: Parser, number: NumberText, items: seq<Item>, cut: string)
    requires Numeric(number) && IsCut(cut)
    ensures var q := ReadOn(p, FrameAll(MessagesOf(number, RenderAll(items))) + cut);
            && q.messages == p.messages + MessagesOf(number, RenderAll(items))
            && q.lastId == if items == [] then p.lastId else FormatHex(items[|items| - 1].id)
  {
    hide ReadOn, FrameAll, Sendable, Print, FormatHex, IsCut;
    var messages := MessagesOf(number, RenderAll(items));
    forall i | 0 <= i < |messages| ensures Sendable(messages[i]) {
      EventIsSendable(number, items[i]);
    }
    ReadFrames(p, messages, cut);
  }

  /** The ID of a message, sent back in the Last-Event-ID header, is understood as the number of the
      event. */
  lemma IdResumes(number: NumberText, item: Item)
    requires item.id < WORD
    ensures N.ResumeOf(MessageOf(number, Render(item)).id) == After(item.id)
  {
    HexRoundTrip(item.id);
  }

  // ---------- the path of a subscription ----------

  function TypeOf(name: string): Option<EventType> {
    if name == "create" then Some(Create)
    else if name == "update" then Some(Update)
    else if name == "delete" then Some(Delete)
    else None
  }

  function ParsePath(event: string): Option<seq<EventType>> {
    if event == "" then Some([Create, Update, Delete])
    else if TypeOf(event).None? then None
    else Some([TypeOf(event).value])
  }

  /** A subscription without a type is to all types, one with a type is to that type alone, and any
      other is refused. */
  lemma PathSelects(event: string, kind: EventType)
    ensures ParsePath(event).None? <==> event !in {"", "create", "update", "delete"}
    ensures ParsePath(event).Some? ==>
              (kind in ParsePath(event).value <==>
                 event == "" || event == if kind.Create? then "create" else if kind.Update? then "update" else "delete")
  {
  }
}
