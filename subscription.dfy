/**
 * The subscribe/unsubscribe control frames of the streaming client: the exact
 * text each of the six entry points writes, the depth check the two orderbook
 * entry points make first, and a reading of a frame back into its request.
 *
 * Identifiers are pasted into the frame text without escaping. `ParseFrame`
 * recovers the request exactly when the identifiers hold no double quote, and
 * `QuotedIdentifiersCollide` shows two different requests that produce the
 * same frame otherwise. Because nothing is escaped, a double quote, backslash
 * or control character in an identifier can break or change the JSON the text
 * reads as.
 */
module Subscription {
  import opened Types
  import opened Decimal

  datatype Direction = Subscribe | Unsubscribe

  /** The event category and its extra field (interval, depth, or none). */
  datatype Topic = Candle(interval: string) | Orderbook(depth: int) | InstrumentInfo

  datatype Request = Request(dir: Direction, topic: Topic, figi: string, requestID: string)

  function DirectionName(d: Direction): string {
    match d
    case Subscribe => "subscribe"
    case Unsubscribe => "unsubscribe"
  }

  function TopicName(t: Topic): string {
    match t
    case Candle(_) => "candle"
    case Orderbook(_) => "orderbook"
    case InstrumentInfo => "instrument_info"
  }

  /** The value of the "event" field, such as "candle:subscribe". */
  function EventTag(r: Request): string {
    TopicName(r.topic) + (":" + DirectionName(r.dir))
  }

  // The literal pieces of a frame, each as it stands in the source's concatenations.
  const SpacedOpening := "{ \"event\": \""
  const CompactOpening := "{\"event\": \""
  const RequestIDField := "\", \"request_id\": \""
  const FigiField := "\", \"figi\": \""
  const IntervalField := "\", \"interval\": \""
  const DepthField := "\", \"depth\": "
  const QuoteClose := "\"}"
  const BraceClose := "}"

  /**
   * The frame text, by the same concatenation the source uses. Candle and
   * orderbook frames open with "{ " and instrument_info frames with "{";
   * the depth is written unquoted, as strconv.Itoa spells it.
   */
  function Frame(r: Request): (f: string)
    ensures |f| > 0 && f[0] == '{' && f[|f| - 1] == '}'
    ensures SpacedOpening <= f <==> !r.topic.InstrumentInfo?
  {
    match r.topic
    case Candle(interval) =>
      SpacedOpening + EventTag(r) + RequestIDField + r.requestID + FigiField + r.figi
        + IntervalField + interval + QuoteClose
    case Orderbook(depth) =>
      SpacedOpening + EventTag(r) + RequestIDField + r.requestID + FigiField + r.figi
        + DepthField + Itoa(depth) + BraceClose
    case InstrumentInfo =>
      var f := CompactOpening + EventTag(r) + RequestIDField + r.requestID + FigiField + r.figi + QuoteClose;
      assert f[1] == '"';
      f
  }

  // ---------------------------------------------------------------------------
  // Validation and the single write of each entry point

  /** Only orderbook requests are checked: their depth must lie in [1, maxDepth]. */
  predicate Admissible(r: Request, maxDepth: int) {
    r.topic.Orderbook? ==> 1 <= r.topic.depth <= maxDepth
  }

  /** The context a failed write is wrapped with. */
  function WriteContext(d: Direction): string {
    match d
    case Subscribe => "can't subscribe to event"
    case Unsubscribe => "can't unsubscribe from event"
  }

  /** What an entry point hands to the transport, and what it returns. */
  datatype SendResult = SendResult(written: seq<string>, err: Option<Error>)

  /**
   * One entry point: reject an out-of-range depth before writing anything;
   * otherwise write the frame once and wrap a failure of that write.
   * `writeErr` is the transport's answer to the write.
   */
  function Send(r: Request, maxDepth: int, writeErr: Option<Error>): (res: SendResult)
    ensures !Admissible(r, maxDepth) <==> res.err == Some(ErrDepth)
    ensures !Admissible(r, maxDepth) ==> res.written == []
    ensures Admissible(r, maxDepth) ==> res.written == [Frame(r)]
    ensures Admissible(r, maxDepth) ==>
              (res.err.None? <==> writeErr.None?) &&
              (writeErr.Some? ==> res.err == Some(Wrapped(WriteContext(r.dir), writeErr.value)))
  {
    if r.topic.Orderbook? && (r.topic.depth < 1 || r.topic.depth > maxDepth) then
      SendResult([], Some(ErrDepth))
    else
      SendResult([Frame(r)], if writeErr.Some? then Some(Wrapped(WriteContext(r.dir), writeErr.value)) else None)
  }

  // ---------------------------------------------------------------------------
  // Reading a frame back

  function Opening(t: Topic): string {
    if t.InstrumentInfo? then CompactOpening else SpacedOpening
  }


  function StripPrefix(s: string, p: string): (r: Option<string>)
    ensures r.Some? <==> p <= s
    ensures r.Some? ==> s == p + r.value
  {
    if p <= s then Some(s[|p|..]) else None
  }

  /** Splits `s` just before the first occurrence of `c`, which starts the second part. */
  function SplitBefore(s: string, c: char): (r: Option<(string, string)>)
    ensures r.None? <==> c !in s
    ensures r.Some? ==> c !in r.value.0 && s == r.value.0 + r.value.1
    ensures r.Some? ==> |r.value.1| > 0 && r.value.1[0] == c
    decreases |s|
  {
    if s == [] then None
    else if s[0] == c then Some(([], s))
    else match SplitBefore(s[1..], c)
      case None => None
      case Some(p) => Some(([s[0]] + p.0, p.1))
  }

  /** Reads `key`, then a value that runs up to the next double quote. */
  function ParseField(s: string, key: string): (r: Option<(string, string)>)
    ensures r.Some? ==> Unquoted(r.value.0) && s == key + (r.value.0 + r.value.1)
    ensures r.Some? ==> |r.value.1| > 0 && r.value.1[0] == '"'
  {
    var afterKey :- StripPrefix(s, key);
    SplitBefore(afterKey, '"')
  }

  function ParseDirection(s: string): (r: Option<Direction>)
    ensures r.Some? ==> s == DirectionName(r.value)
  {
    if s == "subscribe" then Some(Subscribe)
    else if s == "unsubscribe" then Some(Unsubscribe)
    else None
  }

  /** Reads an event tag "<topic name>:<direction>". */
  function ParseTag(tag: string): (r: Option<(string, Direction)>)
    ensures r.Some? ==> tag == r.value.0 + (":" + DirectionName(r.value.1))
  {
    var name :- SplitBefore(tag, ':');
    var dirName :- StripPrefix(name.1, ":");
    var dir :- ParseDirection(dirName);
    Some((name.0, dir))
  }

  /** Reads what follows the figi's value; which field is expected depends on the topic name. */
  function ParseTopic(name: string, spaced: bool, rest: string): (r: Option<Topic>)
    ensures r.Some? ==> name == TopicName(r.value) && (spaced <==> !r.value.InstrumentInfo?) && rest == Tail(r.value)
    ensures r.Some? && r.value.Candle? ==> Unquoted(r.value.interval)
  {
    if name == "candle" && spaced then ParseInterval(rest)
    else if name == "orderbook" && spaced then ParseDepth(rest)
    else if name == "instrument_info" && !spaced then
      if rest == QuoteClose then Some(InstrumentInfo) else None
    else None
  }

  /** The interval field, the last of a candle frame. */
  function ParseInterval(rest: string): (r: Option<Topic>)
    ensures r.Some? ==> r.value.Candle? && Unquoted(r.value.interval) && rest == Tail(r.value)
  {
    var interval :- ParseField(rest, IntervalField);
    if interval.1 == QuoteClose then Some(Candle(interval.0)) else None
  }

  /** The unquoted depth, the last field of an orderbook frame. */
  function ParseDepth(rest: string): (r: Option<Topic>)
    ensures r.Some? ==> r.value.Orderbook? && rest == Tail(r.value)
  {
    var afterKey :- StripPrefix(rest, DepthField);
    var digits :- SplitBefore(afterKey, '}');
    var depth :- Atoi(digits.0);
    AtoiExact(digits.0, depth);
    if digits.1 == BraceClose then Some(Orderbook(depth)) else None
  }

  /** Reads the request id, figi and topic fields that follow the event tag. */
  function ParseFields(name: string, dir: Direction, spaced: bool, s: string): (r: Option<Request>)
    ensures r.Some? ==> name == TopicName(r.value.topic) && (spaced <==> !r.value.topic.InstrumentInfo?)
    ensures r.Some? ==> r.value.dir == dir && PlainFields(r.value)
    ensures r.Some? ==> s == RequestIDField + (r.value.requestID + (FigiField + (r.value.figi + Tail(r.value.topic))))
  {
    var id :- ParseField(s, RequestIDField);
    var figi :- ParseField(id.1, FigiField);
    var topic :- ParseTopic(name, spaced, figi.1);
    Some(Request(dir, topic, figi.0, id.0))
  }

  /** Reads a control frame of the layout `Frame` writes; anything else is rejected. */
  function ParseFrame(s: string): Option<Request> {
    var spaced := SpacedOpening <= s;
    var afterOpen :- StripPrefix(s, if spaced then SpacedOpening else CompactOpening);
    var tag :- SplitBefore(afterOpen, '"');
    var nameDir :- ParseTag(tag.0);
    ParseFields(nameDir.0, nameDir.1, spaced, tag.1)
  }

  // ---------------------------------------------------------------------------
  // Properties

  predicate Unquoted(s: string) {
    '"' !in s
  }

  /** The caller-supplied strings of a request hold no double quote. */
  predicate PlainFields(r: Request) {
    Unquoted(r.figi) && Unquoted(r.requestID) && (r.topic.Candle? ==> Unquoted(r.topic.interval))
  }

  lemma StripPrefixOf(p: string, t: string)
    ensures StripPrefix(p + t, p) == Some(t)
  {
    assert p <= p + t;
    assert (p + t)[|p|..] == t;
  }

  lemma {:induction false} SplitBeforeFirst(a: string, c: char, b: string)
    requires c !in a && |b| > 0 && b[0] == c
    ensures SplitBefore(a + b, c) == Some((a, b))
    decreases |a|
  {
    var s := a + b;
    if a == [] {
      assert s == b;
    } else {
      assert s[0] == a[0];
      assert s[1..] == a[1..] + b;
      SplitBeforeFirst(a[1..], c, b);
      assert [a[0]] + a[1..] == a;
    }
  }

  lemma ParseFieldOf(key: string, v: string, rest: string)
    requires Unquoted(v) && |rest| > 0 && rest[0] == '"'
    ensures ParseField(key + (v + rest), key) == Some((v, rest))
  {
    StripPrefixOf(key, v + rest);
    SplitBeforeFirst(v, '"', rest);
  }

  lemma ParseTagOfName(name: string, dir: Direction)
    requires ':' !in name
    ensures ParseTag(name + (":" + DirectionName(dir))) == Some((name, dir))
  {
    var dirName := DirectionName(dir);
    SplitBeforeFirst(name, ':', ":" + dirName);
    StripPrefixOf(":", dirName);
  }

  lemma ParseTagOf(r: Request)
    ensures ParseTag(EventTag(r)) == Some((TopicName(r.topic), r.dir))
  {
    assert ':' !in TopicName(r.topic) by {
      match r.topic
      case Candle(_) => assert ':' !in "candle";
      case Orderbook(_) => assert ':' !in "orderbook";
      case InstrumentInfo => assert ':' !in "instrument_info";
    }
    ParseTagOfName(TopicName(r.topic), r.dir);
  }

  /** What follows the figi's value in a frame. */
  function Tail(topic: Topic): (t: string)
    ensures |t| > 0 && t[0] == '"'
  {
    match topic
    case Candle(interval) => IntervalField + (interval + QuoteClose)
    case Orderbook(depth) => DepthField + (Itoa(depth) + BraceClose)
    case InstrumentInfo => QuoteClose
  }

  lemma Reassociate6(a: string, b: string, c: string, d: string, e: string, f: string, t: string)
    ensures a + b + c + d + e + f + t == a + (b + (c + (d + (e + (f + t)))))
  {
  }

  /** Every frame is: opening, tag, request id field, figi field, and the topic's own field. */
  lemma FrameShape(r: Request)
    ensures Frame(r) == Opening(r.topic) + (EventTag(r) + (RequestIDField + (r.requestID
                          + (FigiField + (r.figi + Tail(r.topic))))))
  {
    var head := Opening(r.topic) + EventTag(r) + RequestIDField + r.requestID + FigiField + r.figi;
    Reassociate6(Opening(r.topic), EventTag(r), RequestIDField, r.requestID, FigiField, r.figi, Tail(r.topic));
    match r.topic
    case Candle(interval) =>
      Associate(head, IntervalField, interval + QuoteClose);
      Associate(head + IntervalField, interval, QuoteClose);
    case Orderbook(depth) =>
      assert Frame(r) == head + DepthField + Itoa(depth) + BraceClose;
      Associate(head, DepthField, Itoa(depth) + BraceClose);
      Associate(head + DepthField, Itoa(depth), BraceClose);
    case InstrumentInfo =>
  }

  lemma ParseTopicOfTail(t: Topic)
    requires t.Candle? ==> Unquoted(t.interval)
    ensures ParseTopic(TopicName(t), !t.InstrumentInfo?, Tail(t)) == Some(t)
  {
    match t
    case Candle(interval) =>
      ParseFieldOf(IntervalField, interval, QuoteClose);
      assert Tail(t) == IntervalField + (interval + QuoteClose);
    case Orderbook(depth) =>
      var digits := Itoa(depth);
      assert Tail(t) == DepthField + (digits + BraceClose);
      StripPrefixOf(DepthField, digits + BraceClose);
      ItoaAlphabet(depth);
      assert '}' !in digits;
      SplitBeforeFirst(digits, '}', BraceClose);
      ItoaRoundTrip(depth);
    case InstrumentInfo =>
  }

  lemma OpeningSelectsSpacing(t: Topic, rest: string)
    ensures (SpacedOpening <= Opening(t) + rest) <==> !t.InstrumentInfo?
  {
    if t.InstrumentInfo? {
      var s := Opening(t) + rest;
      assert s[1] == '"';
    } else {
      assert SpacedOpening <= SpacedOpening + rest;
    }
  }

  lemma ParseFieldsOf(r: Request)
    requires PlainFields(r)
    ensures ParseFields(TopicName(r.topic), r.dir, !r.topic.InstrumentInfo?,
                        RequestIDField + (r.requestID + (FigiField + (r.figi + Tail(r.topic))))) == Some(r)
  {
    var afterId := FigiField + (r.figi + Tail(r.topic));
    ParseFieldOf(RequestIDField, r.requestID, afterId);
    ParseFieldOf(FigiField, r.figi, Tail(r.topic));
    ParseTopicOfTail(r.topic);
  }

  lemma TagUnquoted(r: Request)
    ensures Unquoted(EventTag(r))
  {
    assert Unquoted(TopicName(r.topic)) by {
      match r.topic
      case Candle(_) => assert '"' !in "candle";
      case Orderbook(_) => assert '"' !in "orderbook";
      case InstrumentInfo => assert '"' !in "instrument_info";
    }
    assert Unquoted(":" + DirectionName(r.dir)) by {
      match r.dir
      case Subscribe => assert '"' !in ":subscribe";
      case Unsubscribe => assert '"' !in ":unsubscribe";
    }
  }

  /** Reading a frame whose identifiers hold no double quote gives back its request. */
  lemma ParseFrameInverts(r: Request)
    requires PlainFields(r)
    ensures ParseFrame(Frame(r)) == Some(r)
  {
    FrameShape(r);
    var tag := EventTag(r);
    var afterTag := RequestIDField + (r.requestID + (FigiField + (r.figi + Tail(r.topic))));
    var afterOpen := tag + afterTag;
    OpeningSelectsSpacing(r.topic, afterOpen);
    StripPrefixOf(Opening(r.topic), afterOpen);
    TagUnquoted(r);
    SplitBeforeFirst(tag, '"', afterTag);
    ParseTagOf(r);
    ParseFieldsOf(r);
  }

  /** A successful reading is of a frame `Frame` writes, with quote-free identifiers. */
  lemma ParseFrameExact(s: string, r: Request)
    requires ParseFrame(s) == Some(r)
    ensures Frame(r) == s && PlainFields(r)
  {
    var spaced := SpacedOpening <= s;
    var afterOpen := StripPrefix(s, if spaced then SpacedOpening else CompactOpening).value;
    var tag := SplitBefore(afterOpen, '"').value;
    var nameDir := ParseTag(tag.0).value;
    assert tag.0 == EventTag(r);
    assert s == Opening(r.topic) + (tag.0 + tag.1);
    FrameShape(r);
  }

  /** On quote-free identifiers no two requests share a frame. */
  lemma FrameInjective(r1: Request, r2: Request)
    requires PlainFields(r1) && PlainFields(r2)
    requires Frame(r1) == Frame(r2)
    ensures r1 == r2
  {
    ParseFrameInverts(r1);
    ParseFrameInverts(r2);
  }

  /** Where the direction name starts in a frame of topic `t`. */
  function TagOffset(t: Topic): nat {
    |Opening(t)| + |TopicName(t)| + 1
  }

  /**
   * Subscribe and unsubscribe frames of one request differ only in the tag:
   * the unsubscribe frame is the subscribe frame with "un" inserted where the
   * direction name begins.
   */
  lemma UnsubscribeInsertsUn(r: Request)
    ensures TagOffset(r.topic) <= |Frame(r.(dir := Subscribe))|
    ensures var s := Frame(r.(dir := Subscribe));
            Frame(r.(dir := Unsubscribe)) == s[..TagOffset(r.topic)] + "un" + s[TagOffset(r.topic)..]
  {
    var sub := r.(dir := Subscribe);
    var unsub := r.(dir := Unsubscribe);
    var o, t := Opening(r.topic), TopicName(r.topic);
    var head := o + t + ":";
    var rest := RequestIDField + (r.requestID + (FigiField + (r.figi + Tail(r.topic))));
    var sb, usb := DirectionName(Subscribe), DirectionName(Unsubscribe);
    FrameShape(sub);
    FrameShape(unsub);
    Regroup(o, t, ":", sb, rest);
    Regroup(o, t, ":", usb, rest);
    UnPrefixed();
    Associate("un", sb, rest);
    Insertion(head, "un", sb + rest);
  }

  /** The unsubscribe direction name is the subscribe one with "un" in front. */
  lemma UnPrefixed()
    ensures DirectionName(Unsubscribe) == "un" + DirectionName(Subscribe)
  {
  }

  lemma Associate(a: string, b: string, c: string)
    ensures a + b + c == a + (b + c)
  {
  }

  lemma Regroup(o: string, t: string, colon: string, d: string, rest: string)
    ensures o + (t + (colon + d) + rest) == (o + t + colon) + (d + rest)
  {
  }

  lemma Insertion(head: string, x: string, rest: string)
    ensures var s := head + rest; s[..|head|] + x + s[|head|..] == head + (x + rest)
  {
    var s := head + rest;
    assert s[..|head|] == head;
    assert s[|head|..] == rest;
  }

  /**
   * With a double quote in the request id of one and in the figi of the
   * other, two different requests write the same frame.
   */
  lemma QuotedIdentifiersCollide()
    ensures var r1 := Request(Subscribe, Candle("1min"), "z", "x" + FigiField + "y");
            var r2 := Request(Subscribe, Candle("1min"), "y" + FigiField + "z", "x");
            r1 != r2 && Frame(r1) == Frame(r2) && !PlainFields(r1) && !PlainFields(r2)
  {
    var r1 := Request(Subscribe, Candle("1min"), "z", "x" + FigiField + "y");
    var r2 := Request(Subscribe, Candle("1min"), "y" + FigiField + "z", "x");
    assert r1.figi != r2.figi;
    assert r1.requestID[1] == '"' && r2.figi[1] == '"';
    FrameShape(r1);
    FrameShape(r2);
    Shift("x", FigiField, "y", "z", Tail(r1.topic));
  }

  /** Moving the middle piece `m + f + b` between two identifiers leaves the text unchanged. */
  lemma Shift(a: string, f: string, m: string, b: string, t: string)
    ensures (a + f + m) + (f + (b + t)) == a + (f + ((m + f + b) + t))
  {
  }
}
