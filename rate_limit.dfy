/** The fixed-window rate limiter of the chat function (`checkRateLimit`
    over the process-wide `rateLimitMap`). Each client id has at most one
    record; a record admits `MaxRequests` calls until its window closes, and
    the first call after the window's end opens a new one. The clock
    (`Date.now()`) is a parameter `now`, in milliseconds. */
module RateLimit {

  const MaxRequests: int := 20
  const WindowMs: int := 60 * 1000

  datatype RateRecord = RateRecord(count: int, resetTime: int)

  type Records = map<string, RateRecord>

  /** The invariant of the table: every stored count is between 1 and the
      maximum. */
  ghost predicate Bounded(records: Records) {
    forall id :: id in records ==> 1 <= records[id].count <= MaxRequests
  }

  /** Whether a call at `now` starts a new window for `clientId`: there is
      no record yet, or its window ended strictly before `now`. */
  predicate OpensWindow(records: Records, clientId: string, now: int) {
    clientId !in records || now > records[clientId].resetTime
  }

  datatype Verdict = Verdict(allowed: bool, records: Records)

  /** One call of the limiter as a function of the table before it: whether
      the call is allowed, and the table after it. */
  function Step(records: Records, clientId: string, now: int): (v: Verdict)
    ensures v.records.Keys == records.Keys + {clientId}
    ensures forall id :: id in records && id != clientId ==> v.records[id] == records[id]
    ensures v.allowed <==> OpensWindow(records, clientId, now) || records[clientId].count < MaxRequests
    ensures !v.allowed ==> v.records == records
    ensures OpensWindow(records, clientId, now) ==> v.records[clientId] == RateRecord(1, now + WindowMs)
    ensures !OpensWindow(records, clientId, now) ==> v.records[clientId].resetTime == records[clientId].resetTime
    ensures !OpensWindow(records, clientId, now) && v.allowed ==> v.records[clientId].count == records[clientId].count + 1
    ensures Bounded(records) ==> Bounded(v.records)
  {
    if OpensWindow(records, clientId, now) then
      Verdict(true, records[clientId := RateRecord(1, now + WindowMs)])
    else if records[clientId].count >= MaxRequests then
      Verdict(false, records)
    else
      var r := records[clientId];
      Verdict(true, records[clientId := r.(count := r.count + 1)])
  }

  datatype Trace = Trace(verdicts: seq<bool>, records: Records)

  /** A sequence of calls by one client at the given times, one after the
      other: the verdict of each call, and the table after the last. */
  function Run(records: Records, clientId: string, times: seq<int>): (t: Trace)
    ensures |t.verdicts| == |times|
    ensures records.Keys <= t.records.Keys
    decreases |times|
  {
    if times == [] then Trace([], records)
    else
      var v := Step(records, clientId, times[0]);
      var rest := Run(v.records, clientId, times[1..]);
      Trace([v.allowed] + rest.verdicts, rest.records)
  }

  /** Inside an open window whose record has count `c`, the calls are
      allowed while the count stays below the maximum, and no call reopens
      the window. */
  lemma {:induction false} RunInsideWindow(records: Records, clientId: string, times: seq<int>, c: int, reset: int)
    requires clientId in records && records[clientId] == RateRecord(c, reset)
    requires 1 <= c <= MaxRequests
    requires forall i :: 0 <= i < |times| ==> times[i] <= reset
    ensures forall i :: 0 <= i < |times| ==> Run(records, clientId, times).verdicts[i] == (c + i < MaxRequests)
    ensures Run(records, clientId, times).records[clientId]
              == RateRecord(if c + |times| < MaxRequests then c + |times| else MaxRequests, reset)
    decreases |times|
  {
    if times != [] {
      var v := Step(records, clientId, times[0]);
      var c' := if c < MaxRequests then c + 1 else c;
      assert v.records[clientId] == RateRecord(c', reset);
      RunInsideWindow(v.records, clientId, times[1..], c', reset);
      var t := Run(records, clientId, times);
      var rest := Run(v.records, clientId, times[1..]);
      assert t.verdicts == [v.allowed] + rest.verdicts;
      forall i | 0 <= i < |times|
        ensures t.verdicts[i] == (c + i < MaxRequests)
      {
        if i > 0 {
          assert t.verdicts[i] == rest.verdicts[i - 1];
        }
      }
    }
  }

  /** A window admits exactly `MaxRequests` calls: when a client's first call
      at `t0` opens a window, every call up to and including time
      `t0 + WindowMs` is allowed while fewer than twenty calls were made in
      the window, and denied from the twenty-first on. */
  lemma {:induction false} WindowAdmitsExactlyMax(records: Records, clientId: string, t0: int, later: seq<int>)
    requires OpensWindow(records, clientId, t0)
    requires forall i :: 0 <= i < |later| ==> t0 <= later[i] <= t0 + WindowMs
    ensures forall i :: 0 <= i <= |later| ==> Run(records, clientId, [t0] + later).verdicts[i] == (i < MaxRequests)
  {
    var times := [t0] + later;
    var v := Step(records, clientId, t0);
    assert times[1..] == later;
    RunInsideWindow(v.records, clientId, later, 1, t0 + WindowMs);
    var t := Run(records, clientId, times);
    var rest := Run(v.records, clientId, later);
    assert t.verdicts == [true] + rest.verdicts;
    forall i | 0 <= i <= |later|
      ensures t.verdicts[i] == (i < MaxRequests)
    {
      if i > 0 {
        assert t.verdicts[i] == rest.verdicts[i - 1];
      }
    }
  }

  /** The in-memory table of the running function. It is never cleared:
      records accumulate until the process restarts. */
  class RateLimiter {
    var records: Records

    ghost predicate Valid()
      reads this
    {
      Bounded(records)
    }

    /** A cold start: no client has a record. */
    constructor ()
      ensures Valid() && records == map[]
    {
      records := map[];
    }

    /** `checkRateLimit(clientId)` at time `now`, as one atomic step. */
    method Check(clientId: string, now: int) returns (allowed: bool)
      requires Valid()
      modifies this
      ensures Valid()
      ensures Verdict(allowed, records) == Step(old(records), clientId, now)
      ensures forall id :: id in old(records) && id != clientId ==> records[id] == old(records)[id]
    {
      if clientId !in records || now > records[clientId].resetTime {
        records := records[clientId := RateRecord(1, now + WindowMs)];
        return true;
      }
      var record := records[clientId];
      if record.count >= MaxRequests {
        return false;
      }
      records := records[clientId := record.(count := record.count + 1)];
      return true;
    }
  }
}
