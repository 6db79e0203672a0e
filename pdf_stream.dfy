/** Draining the writer's output stream into one buffer: the routes push every 'data'
    chunk into an array and resolve with Buffer.concat(chunks) on 'end'. */
module PdfStream {
  import opened Base

  /** What the stream emits, in order. */
  datatype StreamEvent = DataEvent(chunk: seq<byte>) | EndEvent | ErrorEvent(err: Error)

  /** How the buffering promise settles. Pending: it never settles, so no response is
      sent (the stream stopped without 'end', or an 'error' arrived with no listener). */
  datatype Drained = Resolved(buffer: seq<byte>) | Rejected(err: Error) | Pending

  /** The promise after the events from here on, with `acc` already pushed. A settled
      promise ignores every later event. `rejectsOnError` says whether the route listens
      for 'error'. */
  function Settle(events: seq<StreamEvent>, rejectsOnError: bool, acc: seq<seq<byte>>): Drained {
    if events == [] then Pending
    else match events[0]
      case DataEvent(c) => Settle(events[1..], rejectsOnError, acc + [c])
      case EndEvent => Resolved(Concat(acc))
      case ErrorEvent(e) => if rejectsOnError then Rejected(e) else Pending
  }

  function Drain(events: seq<StreamEvent>, rejectsOnError: bool): Drained {
    Settle(events, rejectsOnError, [])
  }

  /** The handlers of the routes: a loop over the events as they arrive. */
  method Buffer(events: seq<StreamEvent>, rejectsOnError: bool) returns (d: Drained)
    ensures d == Drain(events, rejectsOnError)
  {
    var chunks: seq<seq<byte>> := [];
    var i := 0;
    while i < |events|
      invariant 0 <= i <= |events|
      invariant Settle(events[i..], rejectsOnError, chunks) == Drain(events, rejectsOnError)
    {
      assert events[i..][1..] == events[i + 1..];
      match events[i] {
        case DataEvent(c) =>
          chunks := chunks + [c];
        case EndEvent =>
          return Resolved(Concat(chunks));
        case ErrorEvent(e) =>
          if rejectsOnError {
            return Rejected(e);
          }
          return Pending;
      }
      i := i + 1;
    }
    return Pending;
  }

  // ---------------------------------------------------------------------------

  predicate AllData(events: seq<StreamEvent>) {
    forall i :: 0 <= i < |events| ==> events[i].DataEvent?
  }

  function Chunks(events: seq<StreamEvent>): (r: seq<seq<byte>>)
    requires AllData(events)
    ensures |r| == |events|
    ensures forall i :: 0 <= i < |events| ==> r[i] == events[i].chunk
  {
    if events == [] then [] else [events[0].chunk] + Chunks(events[1..])
  }

  lemma {:induction false} SettleOverData(data: seq<StreamEvent>, rest: seq<StreamEvent>, rejects: bool, acc: seq<seq<byte>>)
    requires AllData(data)
    ensures Settle(data + rest, rejects, acc) == Settle(rest, rejects, acc + Chunks(data))
  {
    if data == [] {
      assert data + rest == rest;
      assert acc + Chunks(data) == acc;
    } else {
      assert (data + rest)[1..] == data[1..] + rest;
      assert (acc + [data[0].chunk]) + Chunks(data[1..]) == acc + Chunks(data);
      SettleOverData(data[1..], rest, rejects, acc + [data[0].chunk]);
    }
  }

  /** A stream that emits chunks and then ends resolves with exactly those chunks, in
      order, laid end to end: no byte lost, none reordered, none added. Chunk k sits
      right after the bytes of the chunks before it. */
  lemma ResolvesWithAllChunks(data: seq<StreamEvent>, rest: seq<StreamEvent>, rejects: bool)
    requires AllData(data)
    ensures Drain(data + [EndEvent] + rest, rejects) == Resolved(Concat(Chunks(data)))
    ensures |Concat(Chunks(data))| == TotalLength(Chunks(data))
    ensures InPlace(Chunks(data), Concat(Chunks(data)))
  {
    assert data + [EndEvent] + rest == data + ([EndEvent] + rest);
    SettleOverData(data, [EndEvent] + rest, rejects, []);
    assert [] + Chunks(data) == Chunks(data);
    ConcatLength(Chunks(data));
    AllChunksPlaced(Chunks(data));
  }

  /** Every chunk sits in the buffer right after the bytes of the chunks before it. */
  predicate InPlace(chunks: seq<seq<byte>>, buf: seq<byte>) {
    forall k :: 0 <= k < |chunks| ==>
      TotalLength(chunks[..k]) + |chunks[k]| <= |buf| &&
      buf[TotalLength(chunks[..k])..TotalLength(chunks[..k]) + |chunks[k]|] == chunks[k]
  }

  lemma AllChunksPlaced(chunks: seq<seq<byte>>)
    ensures InPlace(chunks, Concat(chunks))
  {
    forall k | 0 <= k < |chunks|
      ensures TotalLength(chunks[..k]) + |chunks[k]| <= |Concat(chunks)| &&
              Concat(chunks)[TotalLength(chunks[..k])..TotalLength(chunks[..k]) + |chunks[k]|] == chunks[k]
    {
      ConcatPlacesChunk(chunks, k);
    }
  }

  /** An error before the end never yields a buffer: the promise rejects with that error
      when the route listens for it, and otherwise never settles. No partial buffer is
      ever returned. */
  lemma ErrorBeforeEndGivesNoBuffer(data: seq<StreamEvent>, e: Error, rest: seq<StreamEvent>, rejects: bool)
    requires AllData(data)
    ensures Drain(data + [ErrorEvent(e)] + rest, rejects) == if rejects then Rejected(e) else Pending
  {
    assert data + [ErrorEvent(e)] + rest == data + ([ErrorEvent(e)] + rest);
    SettleOverData(data, [ErrorEvent(e)] + rest, rejects, []);
  }

  /** A stream that stops without 'end' or 'error' leaves the promise pending. */
  lemma NoEndStaysPending(data: seq<StreamEvent>, rejects: bool)
    requires AllData(data)
    ensures Drain(data, rejects) == Pending
  {
    assert data + [] == data;
    SettleOverData(data, [], rejects, []);
  }
}
