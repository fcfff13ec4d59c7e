/** The status-capturing wrapper `logWriter` (handler.go) as a state machine
    over values: its state, one step per downstream call, what each step
    forwards to the real writer, and what a whole sequence of calls leaves
    behind. The class in module Handler is proved against these functions. */
module Capture {
  import opened Http

  /** The two fields of `logWriter`: `used` (sealed) and `status`. */
  datatype State = State(used: bool, status: int)

  /** The wrapper as `ServeHTTP` builds it: unsealed, status 200. */
  const Initial: State := State(false, StatusOK)

  /** The new state after one downstream call: every call seals the wrapper;
      only a `WriteHeader` on an unsealed wrapper changes the status, to its
      code; on a sealed wrapper a `WriteHeader` changes nothing at all. */
  function Step(s: State, c: Call): (t: State)
    ensures t.used
    ensures c.Header? && !s.used ==> t.status == c.code
    ensures c.Body? || s.used ==> t.status == s.status
    ensures c.Header? && s.used ==> t == s
  {
    match c
    case Header(code) => if s.used then s else State(true, code)
    case Body(_) => State(true, s.status)
  }

  /** The calls one downstream call makes on the real writer: the call itself,
      unchanged, except that a `WriteHeader` on a sealed wrapper forwards
      nothing. */
  function Emit(s: State, c: Call): (e: seq<Call>)
    ensures e == [] <==> c.Header? && s.used
    ensures e != [] ==> e == [c]
  {
    match c
    case Header(_) => if s.used then [] else [c]
    case Body(_) => [c]
  }

  /** The state after the downstream calls `calls`, from `Initial`. */
  function Replay(calls: seq<Call>): State
    decreases |calls|
  {
    if calls == [] then Initial
    else Step(Replay(calls[..|calls| - 1]), calls[|calls| - 1])
  }

  /** Everything the real writer receives while the wrapper sees `calls`. */
  function Forwarded(calls: seq<Call>): seq<Call>
    decreases |calls|
  {
    if calls == [] then []
    else
      var k := |calls| - 1;
      Forwarded(calls[..k]) + Emit(Replay(calls[..k]), calls[k])
  }

  /** The status the log line should show: the code of the first call when
      that call is a `WriteHeader`, and 200 otherwise (also for no call). */
  function FirstCallStatus(calls: seq<Call>): int {
    if calls != [] && calls[0].Header? then calls[0].code else StatusOK
  }

  /** The first call, when it is a `WriteHeader`. */
  function LeadingHeader(calls: seq<Call>): seq<Call> {
    if calls != [] && calls[0].Header? then [calls[0]] else []
  }

  /** The `Write` calls of `calls`, in order. */
  function Bodies(calls: seq<Call>): seq<Call>
    decreases |calls|
  {
    if calls == [] then []
    else
      var k := |calls| - 1;
      Bodies(calls[..k]) + (if calls[k].Body? then [calls[k]] else [])
  }

  /** Every element of `Bodies(calls)` is a `Write`. */
  lemma {:induction false} BodiesAreWrites(calls: seq<Call>)
    ensures forall i :: 0 <= i < |Bodies(calls)| ==> Bodies(calls)[i].Body?
    decreases |calls|
  {
    if calls != [] {
      BodiesAreWrites(calls[..|calls| - 1]);
    }
  }

  /** The first-call rule: after any sequence of calls the wrapper is sealed
      exactly when some call was made, and its status is the first call's
      code when that call is a `WriteHeader`, 200 otherwise. */
  lemma {:induction false} FirstCallWins(calls: seq<Call>)
    ensures Replay(calls).used <==> calls != []
    ensures Replay(calls).status == FirstCallStatus(calls)
    decreases |calls|
  {
    if |calls| > 1 {
      var p := calls[..|calls| - 1];
      FirstCallWins(p);
      assert p[0] == calls[0];
    }
  }

  /** What the real writer receives: the first call if it is a `WriteHeader`,
      then every `Write`, bytes unchanged and in order, and nothing else. */
  lemma {:induction false} ForwardedShape(calls: seq<Call>)
    ensures Forwarded(calls) == LeadingHeader(calls) + Bodies(calls)
    decreases |calls|
  {
    if calls != [] {
      var k := |calls| - 1;
      var p := calls[..k];
      ForwardedShape(p);
      if p == [] {
        assert calls == [calls[k]];
      } else {
        FirstCallWins(p);
        assert p[0] == calls[0];
      }
    }
  }

  /** The real writer receives `WriteHeader` at most once, and only as its very
      first call: never a second time and never after a `Write`. */
  lemma {:induction false} HeaderForwardedAtMostOnceFirst(calls: seq<Call>)
    ensures forall i :: 0 < i < |Forwarded(calls)| ==> Forwarded(calls)[i].Body?
  {
    ForwardedShape(calls);
    BodiesAreWrites(calls);
    var f := Forwarded(calls);
    var lead := LeadingHeader(calls);
    forall i | 0 < i < |f| ensures f[i].Body? {
      assert f[i] == Bodies(calls)[i - |lead|];
    }
  }

  /** The logged status is the status a recording writer reports for what was
      forwarded to it. */
  lemma {:induction false} LoggedMatchesSent(calls: seq<Call>)
    ensures Replay(calls).status == RecordedStatus(Forwarded(calls))
  {
    FirstCallWins(calls);
    ForwardedShape(calls);
    BodiesAreWrites(calls);
    var b := Bodies(calls);
    if b != [] {
      assert b[0].Body?;
    }
  }

  /** Sealing is final: whatever calls follow a non-empty prefix, the status
      stays the one the prefix left (a second `WriteHeader` with another code,
      or a `Write`, never changes the logged status). */
  lemma SealedStatusIsFinal(p: seq<Call>, q: seq<Call>)
    requires p != []
    ensures Replay(p + q).status == Replay(p).status
  {
    FirstCallWins(p);
    FirstCallWins(p + q);
    assert (p + q)[0] == p[0];
  }

  /** A downstream handler that calls `WriteHeader(status)` only when `status`
      is not 200 leaves both the wrapper and the real writer at `status`. */
  lemma {:induction false} StatusReachesWriter(status: int)
    ensures var calls := if status != StatusOK then [Header(status)] else [];
      Replay(calls).status == status && RecordedStatus(Forwarded(calls)) == status
  {
    var calls := if status != StatusOK then [Header(status)] else [];
    FirstCallWins(calls);
    LoggedMatchesSent(calls);
  }
}
