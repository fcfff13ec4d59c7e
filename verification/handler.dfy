/** The logging handler of handler.go: the `logWriter` wrapper as a class that
    mutates `used` and `status` in place, and `ServeHTTP`, which wraps the real
    writer, lets a downstream handler make its calls and then builds the log
    line from whatever `status` holds. */
module Handler {
  import opened Http
  import opened Capture
  import opened Format

  /** `logWriter`: sits between the downstream handler and the real writer `w`. */
  class LogWriter {
    const w: ResponseWriter
    var used: bool
    var status: int
    /** The downstream calls this wrapper has received so far. */
    ghost var calls: seq<Call>
    /** What `w` had received before it was wrapped. */
    ghost var before: seq<Call>

    /** The fields are the state `Replay` gives for the calls seen, and `w` has
        received exactly what `Forwarded` says on top of what it had before. */
    ghost predicate Valid()
      reads this, w
    {
      && State(used, status) == Replay(calls)
      && w.trace == before + Forwarded(calls)
    }

    /** `&logWriter{ResponseWriter: w, status: http.StatusOK}`. */
    constructor (w: ResponseWriter)
      ensures Valid()
      ensures this.w == w && calls == [] && before == w.trace
      ensures !used && status == StatusOK
    {
      this.w := w;
      used := false;
      status := StatusOK;
      calls := [];
      before := w.trace;
    }

    /** The first `WriteHeader` on an unsealed wrapper records `code`, seals the
        wrapper and forwards the call; any later one changes nothing and is
        not forwarded. */
    method WriteHeader(code: int)
      requires Valid()
      modifies this, w
      ensures Valid()
      ensures calls == old(calls) + [Header(code)] && before == old(before)
      ensures old(used) ==> used && status == old(status) && w.trace == old(w.trace)
      ensures !old(used) ==> used && status == code && w.trace == old(w.trace) + [Header(code)]
    {
      ghost var c := calls + [Header(code)];
      assert c[..|c| - 1] == calls;
      assert Replay(c) == Step(Replay(calls), Header(code));
      assert Forwarded(c) == Forwarded(calls) + Emit(Replay(calls), Header(code));
      calls := c;
      if used {
        return;
      }
      used := true;
      status := code;
      w.WriteHeader(code);
    }

    /** `Write` seals the wrapper without touching `status`, forwards `b`
        unchanged and hands back the real writer's result as it is. */
    method Write(b: seq<byte>, reply: WriteReply) returns (n: int, err: Option<Error>)
      requires Valid()
      modifies this, w
      ensures Valid()
      ensures calls == old(calls) + [Body(b)] && before == old(before)
      ensures used && status == old(status)
      ensures w.trace == old(w.trace) + [Body(b)]
      ensures n == reply.n && err == reply.err
    {
      ghost var c := calls + [Body(b)];
      assert c[..|c| - 1] == calls;
      assert Replay(c) == Step(Replay(calls), Body(b));
      assert Forwarded(c) == Forwarded(calls) + Emit(Replay(calls), Body(b));
      calls := c;
      used := true;
      n, err := w.Write(b, reply);
    }
  }

  /** The log line `ServeHTTP` prints (its duration field is not modelled). */
  datatype LogLine = LogLine(status: StatusField, verb: MethodField, path: PathField)

  /** `ServeHTTP`: the downstream handler is the sequence of calls it makes on
      the wrapper (`replies(i)` is the network's answer to the call at index
      `i` when that call is a `Write`). The log line shows the request's
      method and path as they were on entry and the status of the first-call
      rule; the real writer receives what `Forwarded` says. */
  method ServeHTTP(w: ResponseWriter, r: Request, downstream: seq<Call>, replies: nat -> WriteReply)
    returns (line: LogLine)
    modifies w
    ensures line.status == FmtStatus(FirstCallStatus(downstream))
    ensures line.verb == FmtMethod(r.verb) && line.path == FmtPath(r.path)
    ensures w.trace == old(w.trace) + Forwarded(downstream)
  {
    var lw := new LogWriter(w);
    var verb := r.verb;
    var path := r.path;
    var i := 0;
    while i < |downstream|
      invariant 0 <= i <= |downstream|
      invariant lw.Valid() && lw.w == w
      invariant lw.calls == downstream[..i] && lw.before == old(w.trace)
    {
      var c := downstream[i];
      if c.Header? {
        lw.WriteHeader(c.code);
      } else {
        var n, err := lw.Write(c.bytes, replies(i));
      }
      assert downstream[..i + 1] == downstream[..i] + [c];
      i := i + 1;
    }
    assert lw.calls == downstream;
    FirstCallWins(downstream);
    var logged := lw.status;
    assert logged == FirstCallStatus(downstream);
    line := LogLine(FmtStatus(logged), FmtMethod(verb), FmtPath(path));
  }
}
