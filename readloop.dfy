/**
 * The read loop of the streaming client. Inbound frames are a sequence of
 * read results; JSON decoding of the envelope and of each typed payload is
 * an oracle (`Decoders`), and so is the caller's handler, which answers each
 * call (numbered from 0) with an error or none.
 *
 * The loop is specified as a state machine: `Step` is one iteration on the
 * state `Run` (outcome, frames read, handler calls, log lines) and `Loop`
 * iterates it until the loop returns or the input is exhausted.
 */
module ReadLoop {
  import opened Types

  /** One result of reading the connection: a read error or a message's bytes. */
  datatype ReadResult = ReadErr(cause: Error) | Bytes(msg: seq<byte>)

  /** The event kinds the loop routes to the handler. */
  datatype EventKind = CandleEvent | OrderBookEvent | InstrumentInfoEvent | ErrorEvent

  /** A decoded event of kind `kind`; its fields are opaque to routing. */
  datatype Event<P> = Event(kind: EventKind, payload: P)

  /** Decoding a message: its "event" name, and its payload as a given kind. */
  datatype Decoders<P> = Decoders(name: seq<byte> -> Option<string>, payload: (EventKind, seq<byte>) -> Option<P>)

  /** A logger call, recorded without its formatting. */
  datatype LogLine =
    | CantUnmarshalEvent(msg: seq<byte>)
    | CantUnmarshalPayload(kind: EventKind, msg: seq<byte>)
    | UnknownEvent(msg: seq<byte>)

  /** How the loop stands: it has returned an error, or waits for another frame. */
  datatype Outcome = Returned(err: Error) | AwaitingFrame

  /** The loop's state: outcome, frames read, events handed to the handler (in call order), log lines. */
  datatype Run<P> = Run(outcome: Outcome, consumed: nat, delivered: seq<Event<P>>, log: seq<LogLine>)

  const ReadContext := "can't read message"

  function KindName(k: EventKind): string {
    match k
    case CandleEvent => "candle"
    case OrderBookEvent => "orderbook"
    case InstrumentInfoEvent => "instrument_info"
    case ErrorEvent => "error"
  }

  /** The switch on the event name: exactly the four names are recognised. */
  function KindOf(name: string): (r: Option<EventKind>)
    ensures r.Some? ==> KindName(r.value) == name
    ensures r.None? ==> forall k: EventKind :: KindName(k) != name
  {
    if name == "candle" then Some(CandleEvent)
    else if name == "orderbook" then Some(OrderBookEvent)
    else if name == "instrument_info" then Some(InstrumentInfoEvent)
    else if name == "error" then Some(ErrorEvent)
    else None
  }

  /** What one frame means to the loop, before the handler is involved. */
  datatype Disposition<P> = Fatal(cause: Error) | Skip(line: LogLine) | Deliver(event: Event<P>)

  /**
   * A read error is fatal with that error as cause, and nothing else is; a
   * message's bytes are handled as `DisposeMessage` says.
   */
  function Dispose<P>(f: ReadResult, dec: Decoders<P>): (d: Disposition<P>)
    ensures d.Fatal? <==> f.ReadErr?
    ensures f.ReadErr? ==> d.cause == f.cause
    ensures f.Bytes? ==> d == DisposeMessage(f.msg, dec)
  {
    match f
    case ReadErr(cause) => Fatal(cause)
    case Bytes(msg) => DisposeMessage(msg, dec)
  }

  /**
   * A message's bytes: decode the envelope, switch on its name, decode the
   * payload as that kind. A message is delivered exactly when all three
   * succeed, as an event of the kind its name spells.
   */
  function DisposeMessage<P>(msg: seq<byte>, dec: Decoders<P>): (d: Disposition<P>)
    ensures !d.Fatal?
    ensures d.Deliver? <==>
              dec.name(msg).Some? && KindOf(dec.name(msg).value).Some? &&
              dec.payload(KindOf(dec.name(msg).value).value, msg).Some?
    ensures d.Deliver? ==> KindName(d.event.kind) == dec.name(msg).value &&
                           dec.payload(d.event.kind, msg) == Some(d.event.payload)
    ensures d.Skip? && d.line.CantUnmarshalEvent? ==> dec.name(msg).None? && d.line.msg == msg
    ensures d.Skip? && d.line.UnknownEvent? ==>
              dec.name(msg).Some? && KindOf(dec.name(msg).value).None? && d.line.msg == msg
    ensures d.Skip? && d.line.CantUnmarshalPayload? ==>
              dec.name(msg).Some? && KindOf(dec.name(msg).value) == Some(d.line.kind) &&
              dec.payload(d.line.kind, msg).None? && d.line.msg == msg
  {
    match dec.name(msg)
    case None => Skip(CantUnmarshalEvent(msg))
    case Some(name) =>
      match KindOf(name)
      case None => Skip(UnknownEvent(msg))
      case Some(k) =>
        match dec.payload(k, msg)
        case None => Skip(CantUnmarshalPayload(k, msg))
        case Some(p) => Deliver(Event(k, p))
  }

  /** The state before the first frame is read. */
  function Start<P>(): Run<P> {
    Run(AwaitingFrame, 0, [], [])
  }

  /**
   * One iteration on frame `f`: a read error returns it wrapped; a frame to
   * skip logs one line; a decoded event goes to the handler as call number
   * `|st.delivered|`, and its error, if any, is returned as it is.
   */
  function Step<P>(f: ReadResult, dec: Decoders<P>, handler: (nat, Event<P>) -> Option<Error>, st: Run<P>): (r: Run<P>)
    requires st.outcome.AwaitingFrame?
    ensures r.consumed == st.consumed + 1
    ensures |r.delivered| + |r.log| == |st.delivered| + |st.log| + (if f.ReadErr? then 0 else 1)
    ensures r.outcome.AwaitingFrame? ==> f.Bytes?
  {
    match Dispose(f, dec)
    case Fatal(cause) => Run(Returned(Wrapped(ReadContext, cause)), st.consumed + 1, st.delivered, st.log)
    case Skip(line) => Run(AwaitingFrame, st.consumed + 1, st.delivered, st.log + [line])
    case Deliver(ev) =>
      var outcome := match handler(|st.delivered|, ev) case Some(e) => Returned(e) case None => AwaitingFrame;
      Run(outcome, st.consumed + 1, st.delivered + [ev], st.log)
  }

  /** Iterates `Step` from `st` over the frames not read yet, until the loop returns or they run out. */
  function Loop<P>(frames: seq<ReadResult>, dec: Decoders<P>, handler: (nat, Event<P>) -> Option<Error>, st: Run<P>)
    : (r: Run<P>)
    requires st.consumed <= |frames|
    ensures st.consumed <= r.consumed <= |frames|
    ensures r.outcome.AwaitingFrame? ==> r.consumed == |frames|
    ensures st.outcome.Returned? ==> r == st
    ensures st.outcome.AwaitingFrame? && r.outcome.Returned? ==> st.consumed < r.consumed
    decreases |frames| - st.consumed
  {
    if st.outcome.Returned? || st.consumed == |frames| then st
    else Loop(frames, dec, handler, Step(frames[st.consumed], dec, handler, st))
  }

  /**
   * The read loop over all of `frames`: it reads no frame past the input, it
   * keeps waiting only once every frame is read, and it returns only after
   * reading at least one.
   */
  function ReadLoopRun<P>(frames: seq<ReadResult>, dec: Decoders<P>, handler: (nat, Event<P>) -> Option<Error>): (r: Run<P>)
    ensures r.consumed <= |frames|
    ensures r.outcome.AwaitingFrame? ==> r.consumed == |frames|
    ensures r.outcome.Returned? ==> 1 <= r.consumed
  {
    Loop(frames, dec, handler, Start())
  }

  /**
   * RunReadLoop: reads frames one at a time until a read error or a handler
   * error. The outcome and the number of frames read are those of
   * `ReadLoopRun`; the ghost traces record the handler calls and log lines.
   */
  method RunReadLoop<P>(frames: seq<ReadResult>, dec: Decoders<P>, handler: (nat, Event<P>) -> Option<Error>)
    returns (outcome: Outcome, consumed: nat, ghost delivered: seq<Event<P>>, ghost log: seq<LogLine>)
    ensures outcome == ReadLoopRun(frames, dec, handler).outcome
    ensures consumed == ReadLoopRun(frames, dec, handler).consumed
    ensures delivered == ReadLoopRun(frames, dec, handler).delivered && log == ReadLoopRun(frames, dec, handler).log
  {
    consumed, delivered, log := 0, [], [];
    var calls: nat := 0;
    while consumed < |frames|
      invariant consumed <= |frames|
      invariant calls == |delivered|
      invariant Loop(frames, dec, handler, Run(AwaitingFrame, consumed, delivered, log)) == ReadLoopRun(frames, dec, handler)
      decreases |frames| - consumed
    {
      ghost var after := Step(frames[consumed], dec, handler, Run(AwaitingFrame, consumed, delivered, log));
      var frame := frames[consumed];
      consumed := consumed + 1;
      if frame.ReadErr? {
        outcome := Returned(Wrapped(ReadContext, frame.cause));
        assert Run(outcome, consumed, delivered, log) == after;
        return;
      }
      var msg := frame.msg;
      var name := dec.name(msg);
      if name.None? {
        log := log + [CantUnmarshalEvent(msg)];
        assert Run(AwaitingFrame, consumed, delivered, log) == after;
        continue;
      }
      var kind := KindOf(name.value);
      if kind.None? {
        log := log + [UnknownEvent(msg)];
        assert Run(AwaitingFrame, consumed, delivered, log) == after;
        continue;
      }
      var payload := dec.payload(kind.value, msg);
      if payload.None? {
        log := log + [CantUnmarshalPayload(kind.value, msg)];
        assert Run(AwaitingFrame, consumed, delivered, log) == after;
        continue;
      }
      var event := Event(kind.value, payload.value);
      var err := handler(calls, event);
      delivered := delivered + [event];
      calls := calls + 1;
      if err.Some? {
        outcome := Returned(err.value);
        assert Run(outcome, consumed, delivered, log) == after;
        return;
      }
      assert Run(AwaitingFrame, consumed, delivered, log) == after;
    }
    outcome := AwaitingFrame;
  }

  // ---------------------------------------------------------------------------
  // What the frames read determine

  /** The event a frame hands to the handler, if it decodes to one. */
  function EventOf<P>(f: ReadResult, dec: Decoders<P>): seq<Event<P>> {
    match Dispose(f, dec) case Deliver(ev) => [ev] case _ => []
  }

  /** The log line a frame produces, if it is skipped. */
  function LineOf<P>(f: ReadResult, dec: Decoders<P>): seq<LogLine> {
    match Dispose(f, dec) case Skip(line) => [line] case _ => []
  }

  /** The events of the frames that decode, in order: what the handler should see. */
  function Events<P>(frames: seq<ReadResult>, dec: Decoders<P>): seq<Event<P>>
    decreases |frames|
  {
    if frames == [] then [] else Events(frames[..|frames| - 1], dec) + EventOf(frames[|frames| - 1], dec)
  }

  /** The log lines of the frames that are skipped, in order. */
  function Logs<P>(frames: seq<ReadResult>, dec: Decoders<P>): seq<LogLine>
    decreases |frames|
  {
    if frames == [] then [] else Logs(frames[..|frames| - 1], dec) + LineOf(frames[|frames| - 1], dec)
  }

  /** The handler answered no error to each of `events`, call number `j` being `events[j]`. */
  ghost predicate Accepted<P>(handler: (nat, Event<P>) -> Option<Error>, events: seq<Event<P>>) {
    forall j :: 0 <= j < |events| ==> handler(j, events[j]) == None
  }

  /** The traces of `st` are exactly those of the frames it has read. */
  ghost predicate Traced<P>(frames: seq<ReadResult>, dec: Decoders<P>, st: Run<P>) {
    st.consumed <= |frames| &&
    st.delivered == Events(frames[..st.consumed], dec) &&
    st.log == Logs(frames[..st.consumed], dec)
  }

  /** A state the loop can be in while it waits: no read error so far, every handler call answered with none. */
  ghost predicate Waiting<P>(frames: seq<ReadResult>, dec: Decoders<P>, handler: (nat, Event<P>) -> Option<Error>, st: Run<P>) {
    st.outcome.AwaitingFrame? && Traced(frames, dec, st) &&
    (forall j :: 0 <= j < st.consumed ==> frames[j].Bytes?) &&
    Accepted(handler, st.delivered)
  }

  /** How the last frame read ended the loop: a read error returned wrapped, or a handler error for its event. */
  ghost predicate Ended<P>(last: ReadResult, dec: Decoders<P>, handler: (nat, Event<P>) -> Option<Error>, st: Run<P>)
    requires st.outcome.Returned?
  {
    (last.ReadErr? && st.outcome.err == Wrapped(ReadContext, last.cause) && Accepted(handler, st.delivered)) ||
    (|st.delivered| > 0 && Dispose(last, dec) == Deliver(st.delivered[|st.delivered| - 1]) &&
     Accepted(handler, st.delivered[..|st.delivered| - 1]) &&
     handler(|st.delivered| - 1, st.delivered[|st.delivered| - 1]) == Some(st.outcome.err))
  }

  /**
   * A state in which the loop has returned, and why: every frame before the
   * last one read was a message, and the last one ended the loop.
   */
  ghost predicate Finished<P>(frames: seq<ReadResult>, dec: Decoders<P>, handler: (nat, Event<P>) -> Option<Error>, st: Run<P>) {
    st.outcome.Returned? && 1 <= st.consumed && Traced(frames, dec, st) &&
    (forall j :: 0 <= j < st.consumed - 1 ==> frames[j].Bytes?) &&
    Ended(frames[st.consumed - 1], dec, handler, st)
  }

  lemma StartWaiting<P>(frames: seq<ReadResult>, dec: Decoders<P>, handler: (nat, Event<P>) -> Option<Error>)
    ensures Waiting(frames, dec, handler, Start())
  {
    assert frames[..0] == [];
  }

  /** The traces extend with the frame read. */
  lemma StepTraced<P>(frames: seq<ReadResult>, dec: Decoders<P>, handler: (nat, Event<P>) -> Option<Error>, st: Run<P>)
    requires st.outcome.AwaitingFrame? && Traced(frames, dec, st) && st.consumed < |frames|
    ensures Traced(frames, dec, Step(frames[st.consumed], dec, handler, st))
  {
    var c := st.consumed;
    var pre := frames[..c + 1];
    assert pre[..c] == frames[..c];
    assert pre[c] == frames[c];
  }

  /** One iteration from a waiting state leads to a waiting or a finished state. */
  lemma StepKeeps<P>(frames: seq<ReadResult>, dec: Decoders<P>, handler: (nat, Event<P>) -> Option<Error>, st: Run<P>)
    requires Waiting(frames, dec, handler, st) && st.consumed < |frames|
    ensures var r := Step(frames[st.consumed], dec, handler, st);
            (r.outcome.AwaitingFrame? ==> Waiting(frames, dec, handler, r)) &&
            (r.outcome.Returned? ==> Finished(frames, dec, handler, r))
  {
    var f := frames[st.consumed];
    StepTraced(frames, dec, handler, st);
    if Dispose(f, dec).Deliver? {
      if handler(|st.delivered|, Dispose(f, dec).event).Some? {
        DeliverEnds(f, dec, handler, st);
      } else {
        DeliverAccepted(f, dec, handler, st);
      }
    }
  }

  /** An event the handler answers with none extends the calls answered with none. */
  lemma DeliverAccepted<P>(f: ReadResult, dec: Decoders<P>, handler: (nat, Event<P>) -> Option<Error>, st: Run<P>)
    requires st.outcome.AwaitingFrame? && Accepted(handler, st.delivered)
    requires Dispose(f, dec).Deliver? && handler(|st.delivered|, Dispose(f, dec).event).None?
    ensures Step(f, dec, handler, st).outcome.AwaitingFrame?
    ensures Accepted(handler, Step(f, dec, handler, st).delivered)
  {
    var r := Step(f, dec, handler, st);
    assert r.delivered == st.delivered + [Dispose(f, dec).event];
    forall j | 0 <= j < |r.delivered|
      ensures handler(j, r.delivered[j]) == None
    {
      if j < |st.delivered| {
        assert r.delivered[j] == st.delivered[j];
      }
    }
  }

  /** An event the handler answers with an error ends the loop with that error. */
  lemma DeliverEnds<P>(f: ReadResult, dec: Decoders<P>, handler: (nat, Event<P>) -> Option<Error>, st: Run<P>)
    requires st.outcome.AwaitingFrame? && Accepted(handler, st.delivered)
    requires Dispose(f, dec).Deliver? && handler(|st.delivered|, Dispose(f, dec).event).Some?
    ensures Step(f, dec, handler, st).outcome.Returned?
    ensures Ended(f, dec, handler, Step(f, dec, handler, st))
  {
    var r := Step(f, dec, handler, st);
    assert r.delivered == st.delivered + [Dispose(f, dec).event];
    assert r.delivered[..|r.delivered| - 1] == st.delivered;
  }

  /** From a waiting state the loop ends waiting (all frames read) or finished. */
  lemma {:induction false} LoopKeeps<P>(frames: seq<ReadResult>, dec: Decoders<P>,
                                        handler: (nat, Event<P>) -> Option<Error>, st: Run<P>)
    requires Waiting(frames, dec, handler, st)
    ensures var r := Loop(frames, dec, handler, st);
            (r.outcome.AwaitingFrame? ==> Waiting(frames, dec, handler, r)) &&
            (r.outcome.Returned? ==> Finished(frames, dec, handler, r))
    decreases |frames| - st.consumed
  {
    if st.consumed < |frames| {
      var next := Step(frames[st.consumed], dec, handler, st);
      StepKeeps(frames, dec, handler, st);
      if next.outcome.AwaitingFrame? {
        LoopKeeps(frames, dec, handler, next);
      }
    }
  }

  // ---------------------------------------------------------------------------
  // Properties of the read loop

  /**
   * Every frame read either logs one line or makes one handler call, except a
   * final read error; if the loop is still waiting it has read all frames.
   */
  lemma {:induction false} LoopAccounting<P>(frames: seq<ReadResult>, dec: Decoders<P>,
                                             handler: (nat, Event<P>) -> Option<Error>, st: Run<P>)
    requires st.consumed <= |frames|
    requires st.outcome.AwaitingFrame? ==> st.consumed == |st.delivered| + |st.log|
    ensures var r := Loop(frames, dec, handler, st);
            r.outcome.AwaitingFrame? ==> r.consumed == |frames| == |r.delivered| + |r.log|
    ensures var r := Loop(frames, dec, handler, st);
            st.outcome.AwaitingFrame? && r.outcome.Returned? ==>
              1 <= r.consumed &&
              r.consumed == |r.delivered| + |r.log| + (if frames[r.consumed - 1].ReadErr? then 1 else 0)
    decreases |frames| - st.consumed
  {
    if st.outcome.AwaitingFrame? && st.consumed < |frames| {
      LoopAccounting(frames, dec, handler, Step(frames[st.consumed], dec, handler, st));
    }
  }

  /**
   * The handler receives exactly the events of the frames read whose name is
   * one of the four kinds and whose payload decodes, in input order; one line
   * is logged for every other frame read, except a read error.
   */
  lemma LoopDeliversInOrder<P>(frames: seq<ReadResult>, dec: Decoders<P>, handler: (nat, Event<P>) -> Option<Error>)
    ensures var r := ReadLoopRun(frames, dec, handler);
            r.delivered == Events(frames[..r.consumed], dec) && r.log == Logs(frames[..r.consumed], dec)
  {
    StartWaiting(frames, dec, handler);
    LoopKeeps(frames, dec, handler, Start());
  }

  /**
   * Why the loop returned: the last frame read is a read error and the result
   * is that error wrapped, or the last frame read produced the last event and
   * the handler answered that call with the very error returned.
   */
  lemma LoopReturnCause<P>(frames: seq<ReadResult>, dec: Decoders<P>, handler: (nat, Event<P>) -> Option<Error>)
    ensures var r := ReadLoopRun(frames, dec, handler);
            r.outcome.Returned? ==>
              1 <= r.consumed &&
              var last := frames[r.consumed - 1];
              (last.ReadErr? && r.outcome.err == Wrapped(ReadContext, last.cause)) ||
              (|r.delivered| > 0 && Dispose(last, dec) == Deliver(r.delivered[|r.delivered| - 1]) &&
               handler(|r.delivered| - 1, r.delivered[|r.delivered| - 1]) == Some(r.outcome.err))
  {
    StartWaiting(frames, dec, handler);
    LoopKeeps(frames, dec, handler, Start());
  }

  /** No frame before the last one read is a read error; if the loop is still waiting, none at all. */
  lemma LoopReadErrorOnlyLast<P>(frames: seq<ReadResult>, dec: Decoders<P>, handler: (nat, Event<P>) -> Option<Error>)
    ensures var r := ReadLoopRun(frames, dec, handler);
            var clean := if r.outcome.AwaitingFrame? then r.consumed else r.consumed - 1;
            forall j :: 0 <= j < clean ==> frames[j].Bytes?
  {
    StartWaiting(frames, dec, handler);
    LoopKeeps(frames, dec, handler, Start());
  }

  /** Every handler call returned no error, except a last one that ended the loop. */
  lemma LoopHandlerAccepted<P>(frames: seq<ReadResult>, dec: Decoders<P>, handler: (nat, Event<P>) -> Option<Error>)
    ensures var r := ReadLoopRun(frames, dec, handler);
            r.outcome.AwaitingFrame? ==> Accepted(handler, r.delivered)
    ensures var r := ReadLoopRun(frames, dec, handler);
            r.outcome.Returned? && frames[r.consumed - 1].ReadErr? ==> Accepted(handler, r.delivered)
    ensures var r := ReadLoopRun(frames, dec, handler);
            r.outcome.Returned? && frames[r.consumed - 1].Bytes? ==>
              |r.delivered| > 0 && Accepted(handler, r.delivered[..|r.delivered| - 1])
  {
    StartWaiting(frames, dec, handler);
    LoopKeeps(frames, dec, handler, Start());
  }

  /**
   * Running over `a + b` passes through the run over `a`: once that has
   * returned, nothing of `b` is read; while it waits, the loop goes on from
   * there over the frames of `b`.
   */
  lemma {:induction false} LoopAppend<P>(a: seq<ReadResult>, b: seq<ReadResult>, dec: Decoders<P>,
                                         handler: (nat, Event<P>) -> Option<Error>, st: Run<P>)
    requires st.consumed <= |a|
    ensures var ra := Loop(a, dec, handler, st);
            Loop(a + b, dec, handler, st) == if ra.outcome.AwaitingFrame? then Loop(a + b, dec, handler, ra) else ra
    decreases |a| - st.consumed
  {
    if st.outcome.AwaitingFrame? && st.consumed < |a| {
      assert (a + b)[st.consumed] == a[st.consumed];
      LoopAppend(a, b, dec, handler, Step(a[st.consumed], dec, handler, st));
    }
  }

  /** The loop over `pre + [f] + post` reaches frame `f` in the state the run over `pre` ends in. */
  lemma Midstream<P>(pre: seq<ReadResult>, f: ReadResult, post: seq<ReadResult>, dec: Decoders<P>,
                     handler: (nat, Event<P>) -> Option<Error>)
    requires ReadLoopRun(pre, dec, handler).outcome.AwaitingFrame?
    ensures var frames := pre + [f] + post;
            var before := ReadLoopRun(pre, dec, handler);
            before.consumed == |pre| && frames[|pre|] == f &&
            ReadLoopRun(frames, dec, handler) == Loop(frames, dec, handler, before)
  {
    LoopAppend(pre, [f] + post, dec, handler, Start());
    assert pre + [f] + post == pre + ([f] + post);
  }

  /** A read error ends the loop at once: it is returned wrapped, no handler is called for it, nothing after it is read. */
  lemma ReadErrorEndsLoop<P>(pre: seq<ReadResult>, cause: Error, post: seq<ReadResult>, dec: Decoders<P>,
                             handler: (nat, Event<P>) -> Option<Error>)
    requires ReadLoopRun(pre, dec, handler).outcome.AwaitingFrame?
    ensures var before := ReadLoopRun(pre, dec, handler);
            ReadLoopRun(pre + [ReadErr(cause)] + post, dec, handler)
              == Run(Returned(Wrapped(ReadContext, cause)), |pre| + 1, before.delivered, before.log)
  {
    Midstream(pre, ReadErr(cause), post, dec, handler);
  }

  /**
   * A frame that fails to decode, or carries an unknown name, adds one log
   * line and no handler call, and the loop goes on with the next frame.
   */
  lemma SkippedFrameIsLogged<P>(pre: seq<ReadResult>, f: ReadResult, post: seq<ReadResult>, dec: Decoders<P>,
                                handler: (nat, Event<P>) -> Option<Error>)
    requires ReadLoopRun(pre, dec, handler).outcome.AwaitingFrame?
    requires Dispose(f, dec).Skip?
    ensures var before := ReadLoopRun(pre, dec, handler);
            var frames := pre + [f] + post;
            ReadLoopRun(frames, dec, handler)
              == Loop(frames, dec, handler, Run(AwaitingFrame, |pre| + 1, before.delivered, before.log + [Dispose(f, dec).line]))
  {
    Midstream(pre, f, post, dec, handler);
  }

  /**
   * A decoded event goes to the handler as the next call; an error from it is
   * returned as it is and no frame after it is read.
   */
  lemma HandlerErrorEndsLoop<P>(pre: seq<ReadResult>, f: ReadResult, post: seq<ReadResult>, dec: Decoders<P>,
                                handler: (nat, Event<P>) -> Option<Error>, e: Error)
    requires ReadLoopRun(pre, dec, handler).outcome.AwaitingFrame?
    requires Dispose(f, dec).Deliver?
    requires handler(|ReadLoopRun(pre, dec, handler).delivered|, Dispose(f, dec).event) == Some(e)
    ensures var before := ReadLoopRun(pre, dec, handler);
            ReadLoopRun(pre + [f] + post, dec, handler)
              == Run(Returned(e), |pre| + 1, before.delivered + [Dispose(f, dec).event], before.log)
  {
    Midstream(pre, f, post, dec, handler);
  }
}
