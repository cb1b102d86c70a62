/** Raw ingestion: for each configured symbol in order, fetch its daily
    series, reject provider error payloads, and write the payload verbatim to
    its raw partition. The first failure ends the run; earlier writes stay. */
module Ingest {
  import opened Common
  import opened Http
  import opened Lake

  const Symbols: seq<string> := ["AAPL", "MSFT", "TSLA", "NVDA"]
  const BaseUrl: string := "https://www.alphavantage.co/query"

  datatype IngestError =
    | MissingApiKey
    | HttpFailed(status: int)
    | ProviderError(symbol: string, message: Json)
    | RateLimited(symbol: string, note: Json)
    | MissingBucket

  /** The run's configuration: the run date (computed once, from the clock),
      the provider credential, the destination bucket and the network. */
  datatype Env = Env(dt: string, apiKey: string, bucket: string, send: Transport)

  /** The request of the free daily endpoint for one symbol. */
  function DailyRequest(symbol: string, apiKey: string): Request
  {
    Request(BaseUrl,
            map["function" := "TIME_SERIES_DAILY", "symbol" := symbol,
                "outputsize" := "compact", "apikey" := apiKey],
            None, DefaultTimeout)
  }

  /** Fetching one symbol: a missing credential fails before any request. */
  function FetchDaily(symbol: string, env: Env, trace: seq<Event>): (r: (Result<Payload, IngestError>, seq<Event>))
    ensures r.0 == Err(MissingApiKey) <==> env.apiKey == ""
    ensures env.apiKey == "" ==> r.1 == trace
    ensures env.apiKey != "" ==>
      |r.1| > |trace| && r.1[..|trace|] == trace && r.1[|trace|] == Get(DailyRequest(symbol, env.apiKey))
  {
    if env.apiKey == "" then (Err(MissingApiKey), trace)
    else
      var (res, t) := GetJsonSpec(DailyRequest(symbol, env.apiKey), env.send, trace);
      (if res.Ok? then Ok(res.value) else Err(HttpFailed(res.error.status)), t)
  }

  /** The payload-level check: the error message is looked at before the note. */
  function PayloadError(symbol: string, p: Payload): (e: Option<IngestError>)
    ensures e.None? <==> ErrorMessageKey !in p && NoteKey !in p
    ensures ErrorMessageKey in p ==> e == Some(ProviderError(symbol, p[ErrorMessageKey]))
    ensures ErrorMessageKey !in p && NoteKey in p ==> e == Some(RateLimited(symbol, p[NoteKey]))
  {
    if ErrorMessageKey in p then Some(ProviderError(symbol, p[ErrorMessageKey]))
    else if NoteKey in p then Some(RateLimited(symbol, p[NoteKey]))
    else None
  }

  /** Where a run stands: the failure that ended it (if any), the store and the trace. */
  datatype Ingestion = Ingestion(failure: Option<IngestError>, store: Store, trace: seq<Event>)

  /** One iteration of the loop: nothing once the run has failed. */
  function Step(st: Ingestion, symbol: string, env: Env): Ingestion
  {
    if st.failure.Some? then st
    else
      var (fetched, t) := FetchDaily(symbol, env, st.trace);
      if fetched.Err? then Ingestion(Some(fetched.error), st.store, t)
      else if PayloadError(symbol, fetched.value).Some? then Ingestion(PayloadError(symbol, fetched.value), st.store, t)
      else if env.bucket == "" then Ingestion(Some(MissingBucket), st.store, t)
      else
        var key := RawKey(symbol, env.dt);
        Ingestion(None, st.store[key := JsonDoc(fetched.value)], t + [Put(key)])
  }

  /** The loop over a list of symbols, from a starting state. */
  function Run(symbols: seq<string>, env: Env, start: Ingestion): Ingestion
    decreases |symbols|
  {
    if symbols == [] then start
    else Step(Run(symbols[..|symbols| - 1], env, start), symbols[|symbols| - 1], env)
  }

  lemma RunPrefix(symbols: seq<string>, i: nat, env: Env, start: Ingestion)
    requires i < |symbols|
    ensures Run(symbols[..i + 1], env, start) == Step(Run(symbols[..i], env, start), symbols[i], env)
  {
    assert symbols[..i + 1][..i] == symbols[..i];
  }

  /** A failure is final: no later symbol changes the store or the trace. */
  lemma {:induction false} FailureIsFinal(symbols: seq<string>, k: nat, env: Env, start: Ingestion)
    requires k <= |symbols|
    requires Run(symbols[..k], env, start).failure.Some?
    ensures Run(symbols, env, start) == Run(symbols[..k], env, start)
    decreases |symbols|
  {
    if k < |symbols| {
      var n := |symbols|;
      assert symbols[..n - 1][..k] == symbols[..k];
      FailureIsFinal(symbols[..n - 1], k, env, start);
    } else {
      assert symbols[..k] == symbols;
    }
  }

  /** The ingestion run of `main`, over a store and a trace. */
  method IngestAll(symbols: seq<string>, env: Env, store: Store, trace: seq<Event>)
    returns (failure: Option<IngestError>, store': Store, trace': seq<Event>)
    ensures Ingestion(failure, store', trace') == Run(symbols, env, Ingestion(None, store, trace))
  {
    failure, store', trace' := None, store, trace;
    var i := 0;
    while i < |symbols|
      invariant 0 <= i <= |symbols|
      invariant Run(symbols[..i], env, Ingestion(None, store, trace)) == Ingestion(None, store', trace')
    {
      var sym := symbols[i];
      RunPrefix(symbols, i, env, Ingestion(None, store, trace));
      if env.apiKey == "" {
        failure := Some(MissingApiKey);
        break;
      }
      var res;
      res, trace' := GetJson(DailyRequest(sym, env.apiKey), env.send, trace');
      if res.Err? {
        failure := Some(HttpFailed(res.error.status));
        break;
      }
      var payload := res.value;
      if ErrorMessageKey in payload {
        failure := Some(ProviderError(sym, payload[ErrorMessageKey]));
        break;
      }
      if NoteKey in payload {
        failure := Some(RateLimited(sym, payload[NoteKey]));
        break;
      }
      if env.bucket == "" {
        failure := Some(MissingBucket);
        break;
      }
      var key := RawKey(sym, env.dt);
      store' := store'[key := JsonDoc(payload)];
      trace' := trace' + [Put(key)];
      i := i + 1;
    }
    if failure.Some? {
      FailureIsFinal(symbols, i + 1, env, Ingestion(None, store, trace));
    } else {
      assert symbols[..|symbols|] == symbols;
    }
  }

  /** The events one symbol's iteration may add: its own request, pauses, and
      the write of its own raw partition. */
  predicate EventOf(e: Event, symbol: string, env: Env) {
    e == Get(DailyRequest(symbol, env.apiKey)) || e.Sleep? || e == Put(RawKey(symbol, env.dt))
  }

  /** The trace side of one iteration: it only appends, every new event is
      one of this symbol's, and a write can only be the last new event of a
      successful iteration. */
  lemma StepTrace(st: Ingestion, symbol: string, env: Env)
    requires st.failure.None?
    ensures var st' := Step(st, symbol, env);
      && |st'.trace| >= |st.trace| && st'.trace[..|st.trace|] == st.trace
      && (forall i :: |st.trace| <= i < |st'.trace| ==> EventOf(st'.trace[i], symbol, env))
      && (st'.failure.None? ==> st'.trace[|st'.trace| - 1] == Put(RawKey(symbol, env.dt)))
      && (forall i :: |st.trace| <= i < |st'.trace| && st'.trace[i].Put? ==> st'.failure.None? && i == |st'.trace| - 1)
  {
    if env.apiKey != "" {
      var req := DailyRequest(symbol, env.apiKey);
      var sent := GetJsonSpec(req, env.send, st.trace).1;
      assert sent == st.trace + [Get(req)] || sent == st.trace + [Get(req), Sleep(BackoffMillis), Get(req)]
          || sent == st.trace + [Get(req), Sleep(PoliteMillis)]
          || sent == st.trace + [Get(req), Sleep(BackoffMillis), Get(req), Sleep(PoliteMillis)];
    }
  }

  /** One iteration: it succeeds iff the fetch succeeds, the payload carries
      neither error key and a bucket is configured; on success it makes exactly
      one write, of the fetched payload verbatim, as its last event; on failure
      the store is untouched. The series key is never looked at. */
  lemma StepEffects(st: Ingestion, symbol: string, env: Env)
    requires st.failure.None?
    ensures var st', fetched := Step(st, symbol, env), FetchDaily(symbol, env, st.trace).0;
      && |st'.trace| >= |st.trace| && st'.trace[..|st.trace|] == st.trace
      && (forall i :: |st.trace| <= i < |st'.trace| ==> EventOf(st'.trace[i], symbol, env))
      && (st'.failure.None? <==> fetched.Ok? && PayloadError(symbol, fetched.value).None? && env.bucket != "")
      && (st'.failure.None? ==> st'.store == st.store[RawKey(symbol, env.dt) := JsonDoc(fetched.value)]
                                && st'.trace[|st'.trace| - 1] == Put(RawKey(symbol, env.dt)))
      && (forall i :: |st.trace| <= i < |st'.trace| && st'.trace[i].Put? ==> st'.failure.None? && i == |st'.trace| - 1)
      && (st'.failure.Some? ==> st'.store == st.store)
  {
    StepTrace(st, symbol, env);
    StepStore(st, symbol, env);
  }

  /** The store side of one iteration: on success the symbol's raw partition
      holds the fetched payload and nothing else changed; on failure nothing
      changed. */
  lemma StepStore(st: Ingestion, symbol: string, env: Env)
    requires st.failure.None?
    ensures var st', fetched := Step(st, symbol, env), FetchDaily(symbol, env, st.trace).0;
      && (st'.failure.None? <==> fetched.Ok? && PayloadError(symbol, fetched.value).None? && env.bucket != "")
      && (st'.failure.None? ==> st'.store == st.store[RawKey(symbol, env.dt) := JsonDoc(fetched.value)])
      && (st'.failure.Some? ==> st'.store == st.store)
  {
  }

  /** One iteration leaves every key but its symbol's raw partition alone. */
  lemma StepOtherKey(st: Ingestion, symbol: string, env: Env, key: string)
    requires key != RawKey(symbol, env.dt)
    ensures var st' := Step(st, symbol, env);
      && (key in st'.store <==> key in st.store)
      && (key in st.store ==> st'.store[key] == st.store[key])
  {
  }

  /** Nothing but the raw partitions of the run's symbols changes. */
  lemma {:induction false} RunFrame(symbols: seq<string>, env: Env, store: Store, trace: seq<Event>, key: string)
    requires forall j :: 0 <= j < |symbols| ==> key != RawKey(symbols[j], env.dt)
    ensures var st' := Run(symbols, env, Ingestion(None, store, trace));
      && (key in st'.store <==> key in store)
      && (key in store ==> st'.store[key] == store[key])
    decreases |symbols|
  {
    if symbols != [] {
      var n := |symbols|;
      RunFrame(symbols[..n - 1], env, store, trace, key);
      StepOtherKey(Run(symbols[..n - 1], env, Ingestion(None, store, trace)), symbols[n - 1], env, key);
    }
  }

  /** A successful run has written every symbol's raw partition, each holding
      a payload without the two error keys. */
  lemma {:induction false} RunWritesAll(symbols: seq<string>, env: Env, store: Store, trace: seq<Event>)
    requires Run(symbols, env, Ingestion(None, store, trace)).failure.None?
    ensures var st' := Run(symbols, env, Ingestion(None, store, trace));
      forall j :: 0 <= j < |symbols| ==>
        && RawKey(symbols[j], env.dt) in st'.store
        && st'.store[RawKey(symbols[j], env.dt)].JsonDoc?
        && PayloadError(symbols[j], st'.store[RawKey(symbols[j], env.dt)].payload).None?
    decreases |symbols|
  {
    if symbols != [] {
      var n := |symbols|;
      var start := Ingestion(None, store, trace);
      var before := Run(symbols[..n - 1], env, start);
      RunWritesAll(symbols[..n - 1], env, store, trace);
      StepStore(before, symbols[n - 1], env);
      var st' := Run(symbols, env, start);
      var last := RawKey(symbols[n - 1], env.dt);
      forall j | 0 <= j < n
        ensures var key := RawKey(symbols[j], env.dt);
          key in st'.store && st'.store[key].JsonDoc? && PayloadError(symbols[j], st'.store[key].payload).None?
      {
        var key := RawKey(symbols[j], env.dt);
        if key == last {
          RawKeyInjective(symbols[j], symbols[n - 1], env.dt);
        } else {
          assert symbols[j] == symbols[..n - 1][j];
        }
      }
    }
  }

  /** Fail-fast: a failed run failed at some symbol i, and nothing after
      symbol i was fetched or written. */
  lemma {:induction false} FailFast(symbols: seq<string>, env: Env, start: Ingestion)
    requires start.failure.None?
    requires Run(symbols, env, start).failure.Some?
    ensures exists i :: (0 <= i < |symbols|
      && Run(symbols[..i], env, start).failure.None?
      && Run(symbols[..i + 1], env, start) == Run(symbols, env, start))
    decreases |symbols|
  {
    var n := |symbols|;
    assert n > 0;
    assert symbols[..n] == symbols;
    if Run(symbols[..n - 1], env, start).failure.None? {
      assert Run(symbols[..(n - 1) + 1], env, start) == Run(symbols, env, start);
    } else {
      FailFast(symbols[..n - 1], env, start);
      var i :| 0 <= i < n - 1
        && Run(symbols[..n - 1][..i], env, start).failure.None?
        && Run(symbols[..n - 1][..i + 1], env, start) == Run(symbols[..n - 1], env, start);
      assert symbols[..n - 1][..i] == symbols[..i];
      assert symbols[..n - 1][..i + 1] == symbols[..i + 1];
    }
  }

  /** No rollback: the partition written for symbol j is still there, unchanged,
      whatever happens to the later symbols (the symbols being distinct). */
  lemma {:induction false} EarlierWritesRemain(symbols: seq<string>, j: nat, env: Env, start: Ingestion)
    requires j < |symbols|
    requires forall a, b :: 0 <= a < b < |symbols| ==> symbols[a] != symbols[b]
    requires Run(symbols[..j + 1], env, start).failure.None?
    ensures var key := RawKey(symbols[j], env.dt);
      && key in Run(symbols[..j + 1], env, start).store
      && key in Run(symbols, env, start).store
      && Run(symbols, env, start).store[key] == Run(symbols[..j + 1], env, start).store[key]
    decreases |symbols|
  {
    var key, n := RawKey(symbols[j], env.dt), |symbols|;
    if j + 1 == n {
      RunPrefix(symbols, j, env, start);
      StepStore(Run(symbols[..j], env, start), symbols[j], env);
      assert symbols[..n] == symbols;
    } else {
      var init := symbols[..n - 1];
      assert init[..j + 1] == symbols[..j + 1];
      assert init[j] == symbols[j];
      EarlierWritesRemain(init, j, env, start);
      if RawKey(symbols[n - 1], env.dt) == key {
        RawKeyInjective(symbols[n - 1], symbols[j], env.dt);
      }
      StepOtherKey(Run(init, env, start), symbols[n - 1], env, key);
    }
  }

  /** The trace of a prefix of the symbols is a prefix of the whole trace, so
      the per-symbol segments of StepEffects appear in symbol order. */
  lemma {:induction false} RunTraceGrows(symbols: seq<string>, j: nat, env: Env, start: Ingestion)
    requires j <= |symbols|
    ensures var t, t' := Run(symbols[..j], env, start).trace, Run(symbols, env, start).trace;
      |t| <= |t'| && t'[..|t|] == t
    decreases |symbols|
  {
    var n := |symbols|;
    if j == n {
      assert symbols[..n] == symbols;
    } else {
      var init := symbols[..n - 1];
      assert init[..j] == symbols[..j];
      RunTraceGrows(init, j, env, start);
      var before := Run(init, env, start);
      if before.failure.None? {
        StepEffects(before, symbols[n - 1], env);
      }
    }
  }
}
