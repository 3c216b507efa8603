/**
 * The six subscription entry points of the streaming client. The connection
 * is reduced to the list of text messages handed to it for writing (`outbox`);
 * the transport's answer to each write is the `writeErr` argument.
 */
module Client {
  import opened Types
  import opened Subscription

  class StreamingClient {
    /** The orderbook depth bound, a positive constant defined outside this client. */
    const maxOrderbookDepth: int
    /** Every text message written to the connection, oldest first. */
    var outbox: seq<string>

    constructor (maxOrderbookDepth: int)
      requires maxOrderbookDepth >= 1
      ensures this.maxOrderbookDepth == maxOrderbookDepth && outbox == []
    {
      this.maxOrderbookDepth := maxOrderbookDepth;
      outbox := [];
    }

    /** Writes one frame and wraps a failure of the write in the direction's context. */
    method Write(dir: Direction, sub: string, writeErr: Option<Error>) returns (err: Option<Error>)
      modifies this`outbox
      ensures outbox == old(outbox) + [sub]
      ensures err == if writeErr.Some? then Some(Wrapped(WriteContext(dir), writeErr.value)) else None
    {
      outbox := outbox + [sub];
      if writeErr.Some? {
        err := Some(Wrapped(WriteContext(dir), writeErr.value));
      } else {
        err := None;
      }
    }

    method SubscribeCandle(figi: string, interval: string, requestID: string, writeErr: Option<Error>)
      returns (err: Option<Error>)
      modifies this`outbox
      ensures var res := Send(Request(Subscribe, Candle(interval), figi, requestID), maxOrderbookDepth, writeErr);
              outbox == old(outbox) + res.written && err == res.err
    {
      var sub := Frame(Request(Subscribe, Candle(interval), figi, requestID));
      err := Write(Subscribe, sub, writeErr);
    }

    method UnsubscribeCandle(figi: string, interval: string, requestID: string, writeErr: Option<Error>)
      returns (err: Option<Error>)
      modifies this`outbox
      ensures var res := Send(Request(Unsubscribe, Candle(interval), figi, requestID), maxOrderbookDepth, writeErr);
              outbox == old(outbox) + res.written && err == res.err
    {
      var sub := Frame(Request(Unsubscribe, Candle(interval), figi, requestID));
      err := Write(Unsubscribe, sub, writeErr);
    }

    method SubscribeOrderbook(figi: string, depth: int, requestID: string, writeErr: Option<Error>)
      returns (err: Option<Error>)
      modifies this`outbox
      ensures var res := Send(Request(Subscribe, Orderbook(depth), figi, requestID), maxOrderbookDepth, writeErr);
              outbox == old(outbox) + res.written && err == res.err
    {
      if depth < 1 || depth > maxOrderbookDepth {
        return Some(ErrDepth);
      }
      var sub := Frame(Request(Subscribe, Orderbook(depth), figi, requestID));
      err := Write(Subscribe, sub, writeErr);
    }

    method UnsubscribeOrderbook(figi: string, depth: int, requestID: string, writeErr: Option<Error>)
      returns (err: Option<Error>)
      modifies this`outbox
      ensures var res := Send(Request(Unsubscribe, Orderbook(depth), figi, requestID), maxOrderbookDepth, writeErr);
              outbox == old(outbox) + res.written && err == res.err
    {
      if depth < 1 || depth > maxOrderbookDepth {
        return Some(ErrDepth);
      }
      var sub := Frame(Request(Unsubscribe, Orderbook(depth), figi, requestID));
      err := Write(Unsubscribe, sub, writeErr);
    }

    method SubscribeInstrumentInfo(figi: string, requestID: string, writeErr: Option<Error>)
      returns (err: Option<Error>)
      modifies this`outbox
      ensures var res := Send(Request(Subscribe, InstrumentInfo, figi, requestID), maxOrderbookDepth, writeErr);
              outbox == old(outbox) + res.written && err == res.err
    {
      var sub := Frame(Request(Subscribe, InstrumentInfo, figi, requestID));
      err := Write(Subscribe, sub, writeErr);
    }

    method UnsubscribeInstrumentInfo(figi: string, requestID: string, writeErr: Option<Error>)
      returns (err: Option<Error>)
      modifies this`outbox
      ensures var res := Send(Request(Unsubscribe, InstrumentInfo, figi, requestID), maxOrderbookDepth, writeErr);
              outbox == old(outbox) + res.written && err == res.err
    {
      var sub := Frame(Request(Unsubscribe, InstrumentInfo, figi, requestID));
      err := Write(Unsubscribe, sub, writeErr);
    }
  }
}
