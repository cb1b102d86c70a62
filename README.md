# market-sentinel: ingest → curate → gate, modelled in Dafny

This project models the daily batch pipeline of market-sentinel:

- **Ingestion** pulls each configured symbol's end-of-day series from the Alpha Vantage
  daily endpoint. It rejects provider error payloads and writes each payload verbatim to
  a dated raw partition `raw/alphavantage/daily/symbol=<SYM>/dt=<DT>/data.json`, which is
  overwritten when the same date is ingested again.
- **Curation** reads those partitions back for one run date and classifies each payload
  as abort, skip or parse. It explodes each daily series into rows sorted by date and
  uploads the concatenation to `curated/prices_daily_csv/dt=<DT>/prices_daily.csv`.
- **The Airflow DAG** chains ingest, curate, two warehouse refreshes and an anomaly gate.
  There are no retries. The gate fails the run when the anomaly count is positive.

Files and modules (one module per file):

| file | module | what it models |
|---|---|---|
| `common.dfy` | `Common` | `Option`/`Result`, a JSON value type, the payload keys the pipeline looks at |
| `order.dfy` | `Order` | lexicographic order on strings (the order of ISO dates), totality, least elements |
| `lake.dfy` | `Lake` | price rows, stored objects, the raw and curated partition keys and their inverses |
| `http.dfy` | `Http` | `get_json`: one GET, one retry after a 10 s backoff on 429, the status check, the 1 s pause |
| `ingest.dfy` | `Ingest` | `fetch_daily`, `put_json`'s bucket guard, and the ingestion loop of `main` |
| `curate.dfy` | `Curate` | `parse_av_daily_adjusted`, and the read/classify/skip/accumulate loop and upload of `main` |
| `pipeline.dfy` | `Pipeline` | `run_cmd`, the exit status of the jobs, `check_anomalies`, the five-task chain with `retries: 0` |

Everything outside the pipeline is a value or a parameter:

- The object store is a `map<string, StoredObject>` (a JSON document or a CSV table).
- The network is a `Transport`, a function from the trace of events so far to the reply
  of the latest GET.
- GETs, pauses and writes are recorded as `Event`s on that trace.
- The run dates, the API key and the bucket name are inputs. The store is the contents of
  one bucket, so a bucket name matters only through the empty-name guard.

The stateful operations are methods that take what they read as inputs and return what
they change:

- `GetJson` takes the trace and returns the extended trace.
- `IngestAll` takes the store and the trace and returns the failure, the new store and the
  new trace.
- `Curate` takes the store and returns the result, the raw keys it read in order, and the
  store after the upload.
- `ParseDaily` and `ReadBlock` change nothing and return a result.

Each method except `ExplodeSeries` is proved equal to a reference function.
`ExplodeSeries`, the row-building loop, states its properties directly.

| method | reference function |
|---|---|
| `GetJson` | `GetJsonSpec` |
| `IngestAll` | `Run` |
| `ParseDaily` | `ParseSpec` |
| `ReadBlock` | `BlockOf` |
| `Curate` | `CurateSpec` |

`Run` folds `Step`, the model of one iteration of the ingestion loop, over the symbols;
the `Step*` lemmas are about that one iteration. The properties are lemmas about those
functions.

Three behaviours of the code are worth stating on their own:

- **The curated partition is not globally sorted.** Each symbol's block is sorted by
  (symbol, date), and the blocks are concatenated in `SYMBOLS` order with no final sort
  (src/curate_prices_csv.py:68). `Curate.NotGloballySorted` shows a run whose output is
  not sorted by (symbol, date). `Curate.CurateInSymbolOrder` states the order the code
  gives.
- **An empty gate result fails the gate task.** With no rows, `rows[0][0]` raises
  (airflow/dags/fin_pipeline_dag.py:36). The model gives `GateError(EmptyResult)`.
- **The temporary CSV is left behind when the upload fails.** `os.remove` runs only after
  `upload_file` returns, with no `finally` (src/curate_prices_csv.py:77-78). The
  filesystem is not modelled (see below).

## Model

| member | source | states |
|---|---|---|
| Http.GetJson | src/common/http.py:4-12 | At most two requests, identical, and the second only after a 429 and exactly one 10 s pause. The outcome depends only on the final reply: an error iff its status is 4xx/5xx (carrying that status), else its body. The 1 s pause happens iff the status check passed, and as the last event. The trace is only appended to. |
| Http.ThrottleThenSuccess | src/common/http.py:5-12 | A 429 followed by a passing reply returns the second body after GET, 10 s pause, GET, 1 s pause. |
| Http.ThrottleTwiceFails | src/common/http.py:5-9 | A second 429 is not retried: the call fails with status 429 after exactly two GETs and no politeness pause. |
| Ingest.FetchDaily | src/extract/alphavantage_daily.py:6-16 | It fails with MissingApiKey iff the key is empty, and then sends nothing. Otherwise it only appends to the trace, and its first event is the GET of the daily endpoint for that symbol and key. |
| Ingest.PayloadError | src/run_ingest_prices_raw.py:15-18 | A payload is rejected iff it has "Error Message" or "Note". "Error Message" takes precedence over "Note", and each error carries the symbol and the offending value. |
| Ingest.IngestAll | src/run_ingest_prices_raw.py:8-22 | The loop of `main` ends in exactly the failure, store and trace given by the reference run `Run` over the symbols. |
| Ingest.StepEffects | src/run_ingest_prices_raw.py:11-22 | One symbol succeeds iff the fetch succeeded, the payload has neither error key and a bucket is set. On success there is exactly one write, of the payload verbatim, to the symbol's raw key, and it is the last event. On failure the store is unchanged. Every new event belongs to that symbol, and the daily series is never inspected. |
| Ingest.StepStore | src/load/s3_uploader.py:4-14 | The store side of one symbol: the raw partition gets the fetched payload iff the fetch, the payload check and the bucket guard all pass; otherwise nothing changes. |
| Ingest.StepTrace | src/run_ingest_prices_raw.py:12-21 | The trace side of one symbol: it only appends, and only this symbol's GETs, pauses and write. A write appears only as the last event of a successful iteration. |
| Ingest.StepOtherKey | src/run_ingest_prices_raw.py:20-21 | One iteration leaves every key other than its own raw partition alone. |
| Ingest.FailureIsFinal | src/run_ingest_prices_raw.py:11-18 | Once an iteration has failed, later symbols change neither the store nor the trace. |
| Ingest.FailFast | src/run_ingest_prices_raw.py:11-18 | A failed run failed at some symbol i after all earlier ones succeeded. The final state is the state right after symbol i: nothing later was fetched or written. |
| Ingest.EarlierWritesRemain | src/run_ingest_prices_raw.py:11-22 | No rollback: the partition written for symbol j is still in the final store, with the same payload, whatever the later symbols do (symbols distinct). |
| Ingest.RunWritesAll | src/run_ingest_prices_raw.py:11-22 | After a successful run, every symbol's raw partition holds a JSON payload without the two error keys. |
| Ingest.RunFrame | src/run_ingest_prices_raw.py:20-21 | A run changes no key except the raw partitions of its own symbols and date: presence and value are kept. |
| Ingest.RunTraceGrows | src/run_ingest_prices_raw.py:11-22 | The trace of a prefix of the symbols is a prefix of the whole run's trace, so the per-symbol segments appear in symbol order. |
| Lake.RawKey | src/run_ingest_prices_raw.py:20 | The raw key is the fixed prefix, then the symbol, then `/dt=`, the date and `/data.json`. |
| Lake.RawKeyRoundTrip | src/run_ingest_prices_raw.py:20 | Decoding a raw key against its date gives back the symbol. |
| Lake.SymbolOfRawKeyExact | src/curate_prices_csv.py:49 | Any key that decodes to a symbol is exactly that symbol's raw key. |
| Lake.RawKeyInjective | src/curate_prices_csv.py:49 | For one date, distinct symbols have distinct raw keys. |
| Lake.RawKeyJointlyInjective | src/curate_prices_csv.py:49 | For symbols without `/`, the raw key determines both the symbol and the date. |
| Lake.CuratedKey | src/curate_prices_csv.py:70 | The curated key is the fixed prefix, the date and `/prices_daily.csv`. |
| Lake.CuratedKeyRoundTrip | src/curate_prices_csv.py:70 | Decoding a curated key gives back its date. |
| Lake.DateOfCuratedKeyExact | src/curate_prices_csv.py:70 | Any key that decodes to a date is exactly that date's curated key. |
| Lake.CuratedKeyInjective | src/curate_prices_csv.py:70 | Curated keys are equal iff their dates are. |
| Lake.RawAndCuratedKeysDiffer | src/curate_prices_csv.py:49-70 | No raw partition key is ever a curated key, so the upload cannot overwrite a raw payload. |
| Order.StrLessTotal | src/curate_prices_csv.py:30-31 | The date order is total on distinct strings (with StrLessIrreflexive, StrLessAsymmetric and StrLessTransitive, a strict total order). |
| Order.StrLessTransitive | src/curate_prices_csv.py:30-31 | The date order is transitive. |
| Order.Least | src/curate_prices_csv.py:30-31 | Every non-empty set of dates has a least element in that order. |
| Curate.Classify | src/curate_prices_csv.py:54-61 | In precedence order: "Error Message" aborts, then "Note" aborts, then a missing series skips. A payload with none of these is parsed. |
| Curate.ParseDaily | src/curate_prices_csv.py:13-31 | `parse_av_daily_adjusted` yields exactly the reference table `ParseSpec`. |
| Curate.ExplodeSeries | src/curate_prices_csv.py:15-25 | The row-building loop fails iff some bar lacks one of the five fields. Otherwise it makes one row per entry, each carrying that entry's date and bar, with distinct dates and every date covered. |
| Curate.ParseSpecFacts | src/curate_prices_csv.py:13-31 | Parsing fails exactly on a non-object, malformed or empty series. A parsed table has one row per entry, carrying the symbol and that entry's bar, strictly ascending by date, and its dates are exactly the series' keys. |
| Curate.DailyTableFacts | src/curate_prices_csv.py:27-31 | The reference table has one row per entry, with exactly the series' dates, strictly ascending. |
| Curate.TableUnique | src/curate_prices_csv.py:30-31 | Any row sequence with the entries' rows, distinct dates and sorted order is the reference table. So the sort result does not depend on the order in which entries were visited. |
| Curate.SortRows | src/curate_prices_csv.py:31 | `sort_values(["symbol", "date"])` gives rows ascending by (symbol, date) that are a permutation of its input. |
| Curate.SortedIsTable | src/curate_prices_csv.py:15-31 | Sorting the collected rows by (symbol, date) gives the reference table. |
| Curate.ReadBlock | src/curate_prices_csv.py:49-63 | One iteration of `main` yields exactly `BlockOf`: a missing object or a non-JSON object fails with its key, then the classification, then the parse. |
| Curate.Curate | src/curate_prices_csv.py:42-78 | The job's result is `CurateSpec`. The keys it reads are those of `ReadKeys`, and none when the bucket is missing. The store gains the curated partition with the table iff curation succeeded, and is otherwise unchanged. |
| Curate.BlockOfFacts | src/curate_prices_csv.py:54-63 | A parsed block is non-empty, all of one symbol and strictly ascending by date. A present but empty series is a NoRows failure, not a skip. A block is skipped iff its payload classifies as Skip. |
| Curate.MissingBucketFirst | src/curate_prices_csv.py:42-43 | Curation fails with MissingBucket iff the bucket is empty, before any read. |
| Curate.GatherErrors | src/curate_prices_csv.py:48-63 | Every failure of the symbol loop is the failure of some symbol's block, and never MissingBucket. |
| Curate.AllSkippedFails | src/curate_prices_csv.py:65-66 | With a bucket, curation fails with NoValidSymbols iff every symbol's block was skipped. |
| Curate.CurateNonEmpty | src/curate_prices_csv.py:65-68 | A successful curation uploads at least one row. |
| Curate.ReadsInOrder | src/curate_prices_csv.py:48-63 | Reads follow the symbol order and stop at the first failing symbol. The keys read are the raw keys of a prefix of the symbols, all of them on success. On failure, the last key read is the failing symbol's and every earlier block was fine. |
| Curate.BlockOfFrame | src/curate_prices_csv.py:49-52 | A symbol's block depends on no key but its own raw partition. |
| Curate.CurateIdempotent | src/curate_prices_csv.py:70-77 | Re-running curation over the store it produced gives the same table, and writing it again leaves the store as it was. |
| Curate.CurateInSymbolOrder | src/curate_prices_csv.py:63-68 | The uploaded table is grouped by symbol in the configured order and strictly ascending by date within a symbol (symbols distinct). |
| Curate.Concat | src/curate_prices_csv.py:68 | `pd.concat` lays the blocks end to end without re-sorting: a row is in the result iff it is in some block, and the first block is an unchanged prefix. |
| Curate.NotGloballySorted | src/curate_prices_csv.py:68 | A run where only TSLA and NVDA carry data uploads [TSLA row, NVDA row], which is not sorted by (symbol, date). |
| Curate.IngestedWithoutSeriesIsSkipped | src/run_ingest_prices_raw.py:15-21 | Ingestion stores a payload that has no daily series and no error key, and curation of that date then skips the symbol. |
| Curate.CurateAfterIngest | src/curate_prices_csv.py:51-63 | After a successful ingestion on the same date into the same bucket, no ingested symbol's block can fail on a read, a decode, an error key or a note. A block can fail only on the shape of its series: a malformed series, a malformed bar or an empty series. |
| Curate.CurateAfterIngestFails | src/curate_prices_csv.py:42-68 | With a bucket, a curation of the same bucket that fails after a successful ingestion of the same date fails on the shape of a series, or with NoValidSymbols, because ingestion also stores payloads without a series. |
| Pipeline.RunCmd | airflow/dags/fin_pipeline_dag.py:16-21 | `run_cmd` fails iff the exit status is nonzero, and the failure names the command line. |
| Pipeline.ExitStatus | airflow/dags/fin_pipeline_dag.py:23-27 | A job exits with 0 iff it raised nothing, and with 1 otherwise. |
| Pipeline.IngestTaskFailsIff | airflow/dags/fin_pipeline_dag.py:23-24 | The ingest task fails iff the ingestion run failed. |
| Pipeline.CurateTaskFailsIff | airflow/dags/fin_pipeline_dag.py:26-27 | The curate task fails iff curation failed, including the run with no bucket. In particular it fails when every symbol was skipped. |
| Pipeline.DatesApartPartitionsApart | airflow/dags/fin_pipeline_dag.py:10 | When the DAG's `DT` and ingestion's own date differ, no raw partition written by ingestion is one read by curation. |
| Pipeline.StaleDateFailsCuration | airflow/dags/fin_pipeline_dag.py:10-27 | When the dates differ and the bucket has no AAPL partition for `DT`, a successful ingestion is followed by a curation of the same bucket that fails reading that AAPL key. |
| Pipeline.ShowNat | airflow/dags/fin_pipeline_dag.py:36-38 | A printed count is a non-empty run of digits whose value is the count. |
| Pipeline.ParseInt | airflow/dags/fin_pipeline_dag.py:38 | `int` on text succeeds iff the text is digits, or a sign followed by digits. A value after `-` is not positive, and a value without `-` is not negative. |
| Pipeline.ParseShowRoundTrip | airflow/dags/fin_pipeline_dag.py:38 | `int` of a printed integer gives the integer back. |
| Pipeline.CheckAnomalies | airflow/dags/fin_pipeline_dag.py:29-39 | The gate reports anomalies iff the first cell is truthy and a positive integer, and the report carries that cell. It passes iff the cell is falsy or a non-positive integer. Otherwise it is an error: no rows, an empty first row, or a truthy non-integer. |
| Pipeline.GateReadsFirstCellOnly | airflow/dags/fin_pipeline_dag.py:36 | Results with the same first cell get the same gate outcome. |
| Pipeline.GateOnCount | airflow/dags/fin_pipeline_dag.py:36-39 | For a count printed as text or given as an integer, the gate passes iff the count is 0 and reports anomalies when it is positive. A null count passes. |
| Pipeline.Attempt | airflow/dags/fin_pipeline_dag.py:41 | A task succeeds on its first passing attempt: every earlier attempt failed, and at most `retries + 1` were made. It fails iff all `retries + 1` attempts failed, and then it made exactly that many. |
| Pipeline.ChainSpec | airflow/dags/fin_pipeline_dag.py:75 | A chain has one task state per stage. |
| Pipeline.ChainFacts | airflow/dags/fin_pipeline_dag.py:75 | A task runs iff every earlier task succeeded, and a task that runs ends as its attempts say. |
| Pipeline.FailureStopsChain | airflow/dags/fin_pipeline_dag.py:75 | Every task after a failed one is upstream-failed. |
| Pipeline.ChainSucceedsIff | airflow/dags/fin_pipeline_dag.py:75 | The whole chain succeeds iff every task succeeds within its attempts. |
| Pipeline.NoRetries | airflow/dags/fin_pipeline_dag.py:41 | With `retries: 0`, every task that runs is attempted exactly once. |
| Pipeline.DagOrder | airflow/dags/fin_pipeline_dag.py:41-75 | The configured DAG has five tasks. The gate runs iff ingest, curate and both refreshes succeeded. A task succeeds iff it and every task before it passed on its one attempt. |

## Left out

- Curate.ParseDaily: the bar fields are carried as JSON values. The `float(...)` and
  `int(float(...))` conversions, and the `ValueError` they raise on non-numeric text, are
  not modelled; floating point is out of scope.
- Curate.ParseDaily: `pd.to_datetime` is not modelled. Dates stay ISO strings, whose
  lexicographic order is their chronological order. A date string pandas cannot parse is
  not a failure in the model.
- Curate.ReadBlock: `get_object` failures other than a missing key (permissions, network)
  are not modelled. Undecodable bytes are a stored object that is not a JSON document.
  A JSON document that is not an object is not modelled, since payloads are JSON objects.
- Curate.Curate: the tempfile / `upload_file` / `os.remove` sequence is a single store
  update, and the temporary file (kept when the upload raises) is not modelled. CSV text
  formatting and `ignore_index` are not modelled; the table is a sequence of rows.
- Ingest.StepStore: `put_object` failures and the JSON serialisation of the body are not
  modelled; the stored document is the fetched payload.
- Http.GetJson: exceptions raised by `requests` itself (connection errors, timeouts) and
  `resp.json()` on a body that is not JSON are not modelled; a reply's body is already a
  JSON object.
- Pipeline.ParseInt: Python `int()` also accepts surrounding whitespace, `_` separators
  and non-ASCII digits; the model accepts an optional sign and ASCII digits only. Numeric
  cells other than integers (floats, decimals) are not modelled.
- The clock: ingestion's `date.today()` and the DAG's `DT` are plain inputs. Sleeps are
  only recorded as trace events, without time passing.
- The two Athena refresh tasks, the count query itself, `subprocess`, `bash -lc`, `.env`
  loading and configuration reading are outside the model. A refresh task is only its
  per-attempt outcome in the chain.
- The Airflow scheduler is reduced to the dependency chain and per-task attempts.
  Scheduling, `catchup`, the start date and concurrency between runs are not modelled.
- Logging and the `print` calls are not modelled.
- The store is the contents of one bucket. Ingestion's configured `S3_BUCKET` and
  curation's `os.getenv("S3_BUCKET")` are assumed to name it (the lemmas relating the two
  jobs require the same bucket name); a bucket name matters only through the empty-name
  guard, and reading a different, non-empty bucket is not modelled.
