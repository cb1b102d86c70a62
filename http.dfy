/** The JSON fetcher: one GET, one retry after a fixed backoff when the
    provider throttles, a status check, and a politeness pause on success.
    The network is a Transport; requests and pauses are recorded on a trace. */
module Http {
  import opened Common

  datatype Request = Request(
    url: string, params: map<string, string>,
    headers: Option<map<string, string>>, timeout: nat)

  datatype Response = Response(status: int, body: Payload)

  /** What the pipeline does to the outside world, in order. */
  datatype Event = Get(req: Request) | Sleep(millis: nat) | Put(key: string)

  /** The outside world's reply to a GET, given everything done so far,
      that GET included. */
  type Transport = seq<Event> -> Response

  const TooManyRequests: int := 429
  const BackoffMillis: nat := 10000
  const PoliteMillis: nat := 1000
  const DefaultTimeout: nat := 30

  /** The statuses for which `raise_for_status` raises: client and server errors. */
  predicate IsErrorStatus(status: int) {
    400 <= status < 600
  }

  datatype HttpError = HttpError(status: int)

  /** The reply the status check looks at: the first one, or the retry's when
      the first one was a throttle. */
  function FinalResponse(req: Request, send: Transport, trace: seq<Event>): Response
  {
    var first := send(trace + [Get(req)]);
    if first.status == TooManyRequests
    then send(trace + [Get(req), Sleep(BackoffMillis), Get(req)])
    else first
  }

  /** The outcome and the extended trace of one `get_json` call. */
  function GetJsonSpec(req: Request, send: Transport, trace: seq<Event>): (Result<Payload, HttpError>, seq<Event>)
  {
    var throttled := send(trace + [Get(req)]).status == TooManyRequests;
    var sent := if throttled then trace + [Get(req), Sleep(BackoffMillis), Get(req)] else trace + [Get(req)];
    var last := FinalResponse(req, send, trace);
    if IsErrorStatus(last.status) then (Err(HttpError(last.status)), sent)
    else (Ok(last.body), sent + [Sleep(PoliteMillis)])
  }

  method GetJson(req: Request, send: Transport, trace: seq<Event>) returns (r: Result<Payload, HttpError>, trace': seq<Event>)
    ensures (r, trace') == GetJsonSpec(req, send, trace)
    // the call only appends, and its first new event is the request
    ensures |trace'| > |trace| && trace'[..|trace|] == trace && trace'[|trace|] == Get(req)
    // at most two requests, both identical; the second one iff the first reply throttled,
    // and right after exactly one backoff pause
    ensures var ev, throttled := trace'[|trace|..], send(trace + [Get(req)]).status == TooManyRequests;
      && (forall i :: 0 < i < |ev| && ev[i].Get? ==> i == 2 && ev[i] == Get(req) && throttled)
      && (throttled ==> |ev| >= 3 && ev[1] == Sleep(BackoffMillis) && ev[2] == Get(req))
      && (forall i :: 0 <= i < |ev| && ev[i] == Sleep(BackoffMillis) ==> i == 1 && throttled)
    // the politeness pause comes only after a passing status check, as the last event
    ensures var ev := trace'[|trace|..];
      && (r.Ok? <==> ev[|ev| - 1] == Sleep(PoliteMillis))
      && (forall i :: 0 <= i < |ev| && ev[i] == Sleep(PoliteMillis) ==> i == |ev| - 1)
    // the outcome is decided by the status of the final reply alone
    ensures var last := FinalResponse(req, send, trace);
      && (r.Ok? <==> !IsErrorStatus(last.status))
      && (r.Ok? ==> r.value == last.body)
      && (r.Err? ==> r.error == HttpError(last.status))
  {
    trace' := trace + [Get(req)];
    var resp := send(trace');
    if resp.status == TooManyRequests {
      trace' := trace' + [Sleep(BackoffMillis)];
      trace' := trace' + [Get(req)];
      assert trace' == trace + [Get(req), Sleep(BackoffMillis), Get(req)];
      resp := send(trace');
    }
    if IsErrorStatus(resp.status) {
      r := Err(HttpError(resp.status));
      return;
    }
    trace' := trace' + [Sleep(PoliteMillis)];
    r := Ok(resp.body);
  }

  /** A throttle followed by a success returns the second body after exactly
      one backoff pause and one politeness pause. */
  lemma ThrottleThenSuccess(req: Request, send: Transport, trace: seq<Event>)
    requires send(trace + [Get(req)]).status == TooManyRequests
    requires !IsErrorStatus(send(trace + [Get(req), Sleep(BackoffMillis), Get(req)]).status)
    ensures GetJsonSpec(req, send, trace) ==
      (Ok(send(trace + [Get(req), Sleep(BackoffMillis), Get(req)]).body),
       trace + [Get(req), Sleep(BackoffMillis), Get(req), Sleep(PoliteMillis)])
  {
    assert trace + [Get(req), Sleep(BackoffMillis), Get(req)] + [Sleep(PoliteMillis)]
        == trace + [Get(req), Sleep(BackoffMillis), Get(req), Sleep(PoliteMillis)];
  }

  /** A second throttle is not retried: it fails with status 429. */
  lemma ThrottleTwiceFails(req: Request, send: Transport, trace: seq<Event>)
    requires send(trace + [Get(req)]).status == TooManyRequests
    requires send(trace + [Get(req), Sleep(BackoffMillis), Get(req)]).status == TooManyRequests
    ensures GetJsonSpec(req, send, trace) ==
      (Err(HttpError(TooManyRequests)), trace + [Get(req), Sleep(BackoffMillis), Get(req)])
  {
  }
}
