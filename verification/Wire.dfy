/** The mirror theorem on the wire: a client that only sees the text of its event streams. */
module Wire {
  import opened Json
  import opened JsonText
  import opened JsonRead
  import opened Ids
  import opened EventLog
  import opened Protocol
  import opened Registration
  import opened Mirror
  import opened Directory
  import N = Notification
  import S = Sse
  import V = Visits

  // ---------- the client ----------

  function ApplyMessage(read: NumberValue, mirror: Store, m: S.Message): Store {
    var kind, data := S.TypeOf(m.kind), ReadJson(read, m.data);
    if kind.Some? && data.Some? && data.value.Obj? then ApplyEvent(mirror, kind.value, data.value.m) else mirror
  }

  function ApplyMessages(read: NumberValue, mirror: Store, messages: seq<S.Message>): Store {
    if messages == [] then mirror
    else ApplyMessage(read, ApplyMessages(read, mirror, messages[..|messages| - 1]), messages[|messages| - 1])
  }

  /** What the client has read from several connections, one after the other. */
  function ReadStreams(texts: seq<string>): S.Parser {
    if texts == [] then S.START else S.ReadOn(ReadStreams(texts[..|texts| - 1]), texts[|texts| - 1])
  }

  // ---------- the server ----------

  function StreamText(number: NumberText, items: seq<Item>): string {
    S.FrameAll(S.MessagesOf(number, RenderAll(items)))
  }

  /** Each connection brings some events whole, and may break off within the frame of the next. */
  function StreamTexts(number: NumberText, parts: seq<seq<Item>>, cuts: seq<string>): (texts: seq<string>)
    requires |parts| == |cuts|
    ensures |texts| == |parts|
  {
    seq(|parts|, i requires 0 <= i < |parts| => StreamText(number, parts[i]) + cuts[i])
  }

  ghost predicate AreCuts(cuts: seq<string>) { forall i | 0 <= i < |cuts| :: S.IsCut(cuts[i]) }

  function Concat(parts: seq<seq<Item>>): seq<Item> {
    if parts == [] then [] else Concat(parts[..|parts| - 1]) + parts[|parts| - 1]
  }

  // ---------- together ----------

  predicate AllReadable(number: NumberText, read: NumberValue, items: seq<Item>) {
    forall i | 0 <= i < |items| :: Readable(number, read, Obj(items[i].data))
  }

  function LastIdText(items: seq<Item>): string { if items == [] then "" else FormatHex(items[|items| - 1].id) }

  /** However the events are split into connections, and wherever each of them breaks off, the messages read
      are those of the events, and the last event ID is that of the last one. */
  lemma {:induction false} StreamsAreRead(number: NumberText, parts: seq<seq<Item>>, cuts: seq<string>)
    requires Numeric(number) && |parts| == |cuts| && AreCuts(cuts)
    ensures var p := ReadStreams(StreamTexts(number, parts, cuts));
            p.messages == S.MessagesOf(number, RenderAll(Concat(parts))) && p.lastId == LastIdText(Concat(parts))
  {
    hide S.ReadOn, S.FrameAll, S.MessageOf, S.IsCut, Render, Numeric, FormatHex;
    if parts != [] {
      var n := |parts| - 1;
      StreamsAreRead(number, parts[..n], cuts[..n]);
      var texts := StreamTexts(number, parts, cuts);
      assert texts[..n] == StreamTexts(number, parts[..n], cuts[..n]);
      S.StreamIsReadBack(ReadStreams(texts[..n]), number, parts[n], cuts[n]);
      MessagesConcat(number, Concat(parts[..n]), parts[n]);
      LastOfConcat(Concat(parts[..n]), parts[n]);
    }
  }

  lemma LastOfConcat(a: seq<Item>, b: seq<Item>)
    ensures LastIdText(a + b) == if b == [] then LastIdText(a) else LastIdText(b)
  {
    hide FormatHex;
    if b == [] { assert a + b == a; }
  }

  lemma MessagesConcat(number: NumberText, a: seq<Item>, b: seq<Item>)
    ensures S.MessagesOf(number, RenderAll(a + b))
        == S.MessagesOf(number, RenderAll(a)) + S.MessagesOf(number, RenderAll(b))
  {
    hide S.MessageOf, Render;
  }

  lemma MessageCarries(number: NumberText, read: NumberValue, mirror: Store, item: Item)
    requires Readable(number, read, Obj(item.data))
    ensures ApplyMessage(read, mirror, S.MessageOf(number, Render(item))) == ApplyEvent(mirror, item.kind, item.data)
  {
    hide Print, ReadJson, ApplyEvent;
    JsonRoundTrip(number, read, Obj(item.data));
  }

  lemma {:induction false} MessagesCarry(number: NumberText, read: NumberValue, mirror: Store, items: seq<Item>)
    requires AllReadable(number, read, items)
    ensures ApplyMessages(read, mirror, S.MessagesOf(number, RenderAll(items))) == ApplyAll(mirror, items)
  {
    hide S.MessageOf, Render, ApplyMessage, ApplyEvent;
    if items != [] {
      var n := |items| - 1;
      var messages := S.MessagesOf(number, RenderAll(items));
      assert messages[..n] == S.MessagesOf(number, RenderAll(items[..n]));
      MessagesCarry(number, read, mirror, items[..n]);
      MessageCarries(number, read, ApplyAll(mirror, items[..n]), items[n]);
    }
  }

  /** The header that a client sends on returning, its last event ID, says what the last event was that it
      has received whole, whatever more of the stream it has seen. */
  lemma HeaderIsLastSeen(number: NumberText, parts: seq<seq<Item>>, cuts: seq<string>)
    requires Numeric(number) && |parts| == |cuts| && AreCuts(cuts)
    requires forall item | item in Concat(parts) :: item.id < WORD
    ensures N.ResumeOf(ReadStreams(StreamTexts(number, parts, cuts)).lastId) == V.LastSeen(Concat(parts))
  {
    hide ReadStreams, StreamTexts, FormatHex, ParseHex, Concat, AreCuts;
    StreamsAreRead(number, parts, cuts);
    var items := Concat(parts);
    if items != [] {
      var last := items[|items| - 1];
      assert last in items;
      HexRoundTrip(last.id);
      HexNotEmpty(last.id);
    }
  }

  lemma HexNotEmpty(v: nat)
    ensures FormatHex(v) != ""
  {
  }

  /** So in every history the subscriber that comes back is the one that the model lets return. */
  lemma ReturnsAsItself(env: Env, me: Subscriber, ds: seq<Directory>, es: seq<Happening>, n: nat,
                        number: NumberText, parts: seq<seq<Item>>, cuts: seq<string>)
    requires Lawful(env) && IsHistory(env, me, ds, es) && n < |ds| && ds[n].world.chan.None?
    requires Numeric(number) && |parts| == |cuts| && AreCuts(cuts) && Concat(parts) == ds[n].world.past
    ensures me.(resume := N.ResumeOf(ReadStreams(StreamTexts(number, parts, cuts)).lastId))
        == V.Me(me, ds[n].world.past)
  {
    hide IsHistory, ReadStreams, StreamTexts, FormatHex, ParseHex, Concat, AreCuts, V.Exact;
    HistoryHolds(env, me, ds, es, n);
    V.PastIsNumbered(me, ds[n].world);
    HeaderIsLastSeen(number, parts, cuts);
  }

  /** Whenever the subscriber is subscribed and nothing is on its way, parsing the texts of all its
      connections, each as far as it came, and applying the messages to a store that it fetched since it
      began gives exactly the store. */
  lemma WireRebuilds(env: Env, me: Subscriber, ds: seq<Directory>, es: seq<Happening>, i: nat, n: nat,
                     number: NumberText, read: NumberValue, parts: seq<seq<Item>>, cuts: seq<string>)
    requires Lawful(env) && WantsAll(me) && IsHistory(env, me, ds, es) && i <= n < |ds| && AllCareful(me, ds, es, n)
    requires V.Settled(ds[n].world) && ds[n].told == [] && ds[n].world.first <= Changes(ds[i])
    requires |parts| == |cuts| && AreCuts(cuts) && Concat(parts) == V.Received(ds[n].world)
    requires Numeric(number) && AllReadable(number, read, Concat(parts))
    ensures ApplyMessages(read, ds[i].store, ReadStreams(StreamTexts(number, parts, cuts)).messages) == ds[n].store
  {
    hide IsHistory, ApplyAll, ApplyMessages, ReadStreams, Concat, V.Received, V.Settled, AllCareful, AreCuts;
    MirrorRebuilds(env, me, ds, es, i, n);
    StreamsAreRead(number, parts, cuts);
    MessagesCarry(number, read, ds[i].store, Concat(parts));
  }
}
