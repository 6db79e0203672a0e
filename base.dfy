/** Values shared by every part of the portal: optional fields, bytes, query results,
    and abstract formatted text. */
module Base {

  /** A nullable column or an absent value. */
  datatype Option<T> = None | Some(value: T) {
    function GetOr(default: T): T {
      match this
      case Some(v) => v
      case None => default
    }
  }

  newtype byte = x: int | 0 <= x < 256

  /** A thrown JavaScript error; `message` is None when the thrown value has no message. */
  datatype Error = Error(message: Option<string>)

  /** What a row query of the hosted store hands back: either an error object, or a
      `data` value that may itself be null. */
  datatype Query<T> = Fetched(data: Option<seq<T>>) | QueryFailed(err: Error)

  /** A wall-clock instant, as `new Date()` reads it (milliseconds since the epoch). */
  datatype Instant = Instant(ms: int)

  /** Formatted text. Every library formatter (locale number and date formatting,
      `toFixed`, currency display) is a constructor here, so the model says WHICH value is
      formatted HOW without fixing the characters the locale produces. */
  datatype Piece =
    | Lit(s: string)                      // literal characters
    | Num(x: real)                        // `${x}` of a number
    | Fixed2(x: real)                     // x.toFixed(2)
    | Currency(x: real)                   // toLocaleString USD, no fraction digits
    | LocaleDate(at: Option<string>)      // new Date(at).toLocaleDateString()
    | MonthDay(at: Option<string>)        // toLocaleDateString("en-US", {month: short, day: numeric})
    | LocaleDateTime(now: Instant)        // now.toLocaleString()

  /** JavaScript truthiness of a nullable string: null and "" are falsy. */
  predicate Truthy(s: Option<string>) {
    s.Some? && s.value != ""
  }

  /** Buffer.concat: the chunks laid end to end. */
  function Concat(chunks: seq<seq<byte>>): seq<byte> {
    if chunks == [] then [] else chunks[0] + Concat(chunks[1..])
  }

  /** Total number of bytes in a list of chunks. */
  function TotalLength(chunks: seq<seq<byte>>): nat {
    if chunks == [] then 0 else |chunks[0]| + TotalLength(chunks[1..])
  }

  /** Pushing one more chunk appends exactly its bytes. */
  lemma {:induction false} ConcatPush(chunks: seq<seq<byte>>, c: seq<byte>)
    ensures Concat(chunks + [c]) == Concat(chunks) + c
  {
    if chunks == [] {
      assert [c][1..] == [];
    } else {
      assert (chunks + [c])[1..] == chunks[1..] + [c];
      ConcatPush(chunks[1..], c);
    }
  }

  /** The concatenated buffer loses and invents no byte. */
  lemma {:induction false} ConcatLength(chunks: seq<seq<byte>>)
    ensures |Concat(chunks)| == TotalLength(chunks)
  {
    if chunks != [] {
      ConcatLength(chunks[1..]);
    }
  }

  /** Chunk k sits in the buffer right after the bytes of the chunks before it. */
  lemma {:induction false} ConcatPlacesChunk(chunks: seq<seq<byte>>, k: nat)
    requires k < |chunks|
    ensures TotalLength(chunks[..k]) + |chunks[k]| <= |Concat(chunks)|
    ensures Concat(chunks)[TotalLength(chunks[..k])..TotalLength(chunks[..k]) + |chunks[k]|] == chunks[k]
  {
    ConcatLength(chunks);
    if k == 0 {
      assert chunks[..0] == [];
    } else {
      assert chunks[..k][1..] == chunks[1..][..k - 1];
      ConcatPlacesChunk(chunks[1..], k - 1);
      ConcatLength(chunks[1..]);
      var off := TotalLength(chunks[1..][..k - 1]);
      assert TotalLength(chunks[..k]) == |chunks[0]| + off;
      var tail := Concat(chunks[1..]);
      assert Concat(chunks) == chunks[0] + tail;
      assert tail[off..off + |chunks[k]|] == chunks[k];
      assert Concat(chunks)[|chunks[0]| + off..|chunks[0]| + off + |chunks[k]|] == tail[off..off + |chunks[k]|];
    }
  }
}
