/** The slice of `net/http` that the logging handler relies on, abstracted.

    The real `http.ResponseWriter` is foreign code. Here it is a recording
    writer: it keeps a ghost trace of the `WriteHeader` and `Write` calls it
    received, and the result of a `Write` (what the network reports) is
    handed in by the caller instead of being computed. */
module Http {

  /** Go's `byte`. */
  newtype byte = x: int | 0 <= x < 256

  /** Go's `error`, reduced to its message. */
  datatype Error = Error(msg: string)

  datatype Option<+T> = None | Some(value: T)

  /** `http.StatusOK`: the status a response has when no header was set. */
  const StatusOK: int := 200

  /** One call made on a response writer. */
  datatype Call =
    | Header(code: int)        // WriteHeader(code)
    | Body(bytes: seq<byte>)   // Write(bytes)

  /** What the network answers to a `Write`: Go's `(int, error)` pair. */
  datatype WriteReply = WriteReply(n: int, err: Option<Error>)

  /** The parts of an `*http.Request` that the log line uses. */
  datatype Request = Request(verb: string, path: string)

  /** The underlying `http.ResponseWriter`, seen only through the calls it receives. */
  class ResponseWriter {
    ghost var trace: seq<Call>

    constructor ()
      ensures trace == []
    {
      trace := [];
    }

    method WriteHeader(code: int)
      modifies this
      ensures trace == old(trace) + [Header(code)]
    {
      trace := trace + [Header(code)];
    }

    /** Forwards `b` to the connection; `reply` is what the network reports. */
    method Write(b: seq<byte>, reply: WriteReply) returns (n: int, err: Option<Error>)
      modifies this
      ensures trace == old(trace) + [Body(b)]
      ensures n == reply.n && err == reply.err
    {
      trace := trace + [Body(b)];
      n, err := reply.n, reply.err;
    }
  }

  /** The status code an idealised recording writer reports for a trace: the
      code of a `WriteHeader` that came first, or `StatusOK` when the first
      call was a `Write` or there was no call. Unlike the real writers of
      `net/http` and `httptest`, it accepts any code. */
  function RecordedStatus(trace: seq<Call>): int {
    if trace != [] && trace[0].Header? then trace[0].code else StatusOK
  }
}
