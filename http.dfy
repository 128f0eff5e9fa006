/** The HTTP transport as the services see it. The network is a tape of
    responses that the environment supplies in advance: each request consumes
    the next one, and a ghost log records every request that was made. */
module Http {
  import opened Js

  type byte = b: int | 0 <= b < 256
  type pos = n: int | n > 0 witness 1

  /** One `data` event of a byte stream: its bytes and the milliseconds
      elapsed on the wall clock since hashing of the stream started. */
  datatype Chunk = Chunk(data: seq<byte>, at: int)

  /** A readable stream: the chunks it delivers, then `end`, or `error`
      when `failed`. */
  datatype Stream = Stream(chunks: seq<Chunk>, failed: bool)

  /** A JavaScript number used as a file size: `NaN`, or the rational
      `num / den` (a content-length header, or the 0.1 used for data URLs). */
  datatype FileSize = NaN | Ratio(num: int, den: pos)

  datatype HttpRequest = HttpRequest(url: string, timeoutMs: int)

  /** A successful response to a streaming GET: the body stream and the
      value of the content-length header as a number. */
  datatype HttpResponse = HttpResponse(data: Option<Stream>, contentLength: FileSize)

  /** All bytes of a sequence of chunks, in order. */
  function Bytes(chunks: seq<Chunk>): (b: seq<byte>)
    ensures chunks == [] ==> b == []
  {
    if chunks == [] then [] else Bytes(chunks[..|chunks| - 1]) + chunks[|chunks| - 1].data
  }

  /** What a consumer that reads a stream to its end obtains: every byte, or
      nothing when the stream errors. */
  function Body(s: Stream): (b: Option<seq<byte>>)
    ensures b.Some? <==> !s.failed
  {
    if s.failed then None else Some(Bytes(s.chunks))
  }

  class Network {
    /** The responses still to be delivered; `None` is a failed request. */
    var responses: seq<Option<HttpResponse>>
    ghost var sent: seq<HttpRequest>

    constructor(responses: seq<Option<HttpResponse>>)
      ensures this.responses == responses && sent == []
    {
      this.responses := responses;
      sent := [];
    }

    /** Makes one request. An exhausted tape answers with a failure. */
    method Send(req: HttpRequest) returns (r: Option<HttpResponse>)
      modifies this
      ensures sent == old(sent) + [req]
      ensures old(responses) == [] ==> r.None? && responses == []
      ensures old(responses) != [] ==> r == old(responses)[0] && responses == old(responses)[1..]
    {
      sent := sent + [req];
      if responses == [] {
        r := None;
      } else {
        r := responses[0];
        responses := responses[1..];
      }
    }
  }
}
