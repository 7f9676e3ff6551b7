/**
  The data stream the server writes to and the client reduces: an ordered,
  append-only sequence of typed parts.
*/
module Streams {
  import opened JsValue

  /** One `dataStream.writeData({type, content})` call. */
  datatype Event =
    | KindPart(kind: string)
    | IdPart(id: string)
    | TitlePart(title: string)
    | ClearPart
    | InvoiceDataPart(data: Text)
    | FinishPart

  /** The write end of the stream; `events` is everything written so far, in order. */
  class DataStream {
    var events: seq<Event>

    constructor ()
      ensures events == []
    {
      events := [];
    }

    method WriteData(e: Event)
      modifies this
      ensures events == old(events) + [e]
    {
      events := events + [e];
    }
  }

  /** Five single writes append the five parts in order. */
  lemma AppendFive(s: seq<Event>, a: Event, b: Event, c: Event, d: Event, e: Event)
    ensures s + [a] + [b] + [c] + [d] + [e] == s + [a, b, c, d, e]
  {
  }

  /** Six single writes append the six parts in order. */
  lemma AppendSix(s: seq<Event>, a: Event, b: Event, c: Event, d: Event, e: Event, f: Event)
    ensures s + [a] + [b] + [c] + [d] + [e] + [f] == s + [a, b, c, d, e, f]
  {
  }
}
