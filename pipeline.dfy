/** The daily DAG: five tasks in a line (ingest, curate, two warehouse
    refreshes, the anomaly gate), no retries, each task a command that fails
    on a nonzero exit status, and a gate on the first cell of a count query. */
module Pipeline {
  import opened Common
  import opened Lake
  import Http
  import Ingest
  import Curate

  // ---------------------------------------------------------------- run_cmd

  /** The failure `run_cmd` raises, naming the command line. */
  datatype CommandFailed = CommandFailed(command: seq<string>)

  /** `run_cmd`: the wrapped command fails the task iff its exit status is nonzero. */
  function RunCmd(cmd: seq<string>, returncode: int): (r: Result<(), CommandFailed>)
    ensures r.Err? <==> returncode != 0
    ensures r.Err? ==> r.error.command == cmd
  {
    if returncode != 0 then Err(CommandFailed(cmd)) else Ok(())
  }

  /** The command of the ingest task. */
  const IngestCommand: seq<string> :=
    ["bash", "-lc", "set -a; source .env; set +a; python -m src.run_ingest_prices_raw"]

  /** The command of the curate task, for the DAG's run date. */
  function CurateCommand(dt: string): seq<string> {
    ["bash", "-lc", "set -a; source .env; set +a; python -m src.curate_prices_csv --dt " + dt]
  }

  /** The exit status of a Python job: 0 when `main` returns, 1 when it raises. */
  function ExitStatus<E>(failure: Option<E>): (code: int)
    ensures code == 0 || code == 1
    ensures code == 0 <==> failure.None?
  {
    if failure.None? then 0 else 1
  }

  /** The ingest task fails exactly when the ingestion run ended with a failure. */
  lemma IngestTaskFailsIff(env: Ingest.Env, store: Store, trace: seq<Http.Event>)
    ensures var run := Ingest.Run(Ingest.Symbols, env, Ingest.Ingestion(None, store, trace));
      RunCmd(IngestCommand, ExitStatus(run.failure)).Err? <==> run.failure.Some?
  {
  }

  /** The failure of a curation run, as the exit status sees it. */
  ghost function CurateFailure(bucket: string, dt: string, store: Store): Option<Curate.CurateError>
  {
    var r := Curate.CurateSpec(bucket, dt, Curate.Symbols, store);
    if r.Err? then Some(r.error) else None
  }

  /** The curate task fails exactly when curation raised; a run in which every
      symbol was skipped is such a failure. */
  lemma CurateTaskFailsIff(bucket: string, dt: string, store: Store)
    ensures RunCmd(CurateCommand(dt), ExitStatus(CurateFailure(bucket, dt, store))).Err? <==>
      Curate.CurateSpec(bucket, dt, Curate.Symbols, store).Err?
    ensures (forall j :: 0 <= j < |Curate.Symbols| ==> Curate.BlockOf(Curate.Symbols[j], dt, store) == Ok(None))
      ==> RunCmd(CurateCommand(dt), ExitStatus(CurateFailure(bucket, dt, store))).Err?
  {
    if bucket != "" {
      Curate.AllSkippedFails(bucket, dt, Curate.Symbols, store);
    }
  }

  // ---------------------------------------------------------------- run dates

  /** The DAG's `DT` (fixed when the DAG file is parsed) and the ingest job's
      own `date.today()` are separate inputs. When they differ, the raw
      partitions ingestion writes and those curation reads are disjoint. */
  lemma DatesApartPartitionsApart(today: string, dagDt: string, i: nat, j: nat)
    requires today != dagDt
    requires i < |Ingest.Symbols| && j < |Curate.Symbols|
    ensures RawKey(Ingest.Symbols[i], today) != RawKey(Curate.Symbols[j], dagDt)
  {
    var s1, s2 := Ingest.Symbols[i], Curate.Symbols[j];
    assert '/' !in s1 && '/' !in s2;
    if RawKey(s1, today) == RawKey(s2, dagDt) {
      RawKeyJointlyInjective(s1, today, s2, dagDt);
    }
  }

  /** Consequently, when the dates differ and the bucket held no AAPL
      partition for the DAG's date, a successful ingestion is followed by a
      curation of the same bucket that fails reading that partition. */
  lemma StaleDateFailsCuration(env: Ingest.Env, store: Store, trace: seq<Http.Event>, bucket: string, dagDt: string)
    requires env.dt != dagDt && bucket != ""
    requires bucket == env.bucket
    requires RawKey("AAPL", dagDt) !in store
    ensures var st' := Ingest.Run(Ingest.Symbols, env, Ingest.Ingestion(None, store, trace));
      Curate.CurateSpec(bucket, dagDt, Curate.Symbols, st'.store) == Err(Curate.ReadFailed(RawKey("AAPL", dagDt)))
  {
    var key := RawKey("AAPL", dagDt);
    forall i | 0 <= i < |Ingest.Symbols|
      ensures key != RawKey(Ingest.Symbols[i], env.dt)
    {
      DatesApartPartitionsApart(env.dt, dagDt, i, 0);
    }
    Ingest.RunFrame(Ingest.Symbols, env, store, trace, key);
    var st' := Ingest.Run(Ingest.Symbols, env, Ingest.Ingestion(None, store, trace));
    Curate.GatherUnfold(Curate.Symbols, 0, dagDt, st'.store);
    assert Curate.Symbols[0..] == Curate.Symbols;
  }

  // ---------------------------------------------------------------- the gate

  /** A cell of a query result, as the database hook returns it. */
  datatype Cell = CNull | CInt(i: int) | CText(s: string)

  /** Python truthiness of a cell. */
  predicate Truthy(c: Cell) {
    match c
    case CNull => false
    case CInt(i) => i != 0
    case CText(s) => s != ""
  }

  predicate IsDigit(c: char) {
    '0' <= c <= '9'
  }

  predicate AllDigits(s: string) {
    forall k :: 0 <= k < |s| ==> IsDigit(s[k])
  }

  function DigitsValue(s: string): nat
    requires AllDigits(s)
    decreases |s|
  {
    if s == [] then 0 else DigitsValue(s[..|s| - 1]) * 10 + (s[|s| - 1] as int - '0' as int)
  }

  /** `int` on text: an optional sign followed by one or more decimal digits. */
  function ParseInt(s: string): (r: Option<int>)
    ensures r.Some? <==>
      (|s| > 0 && AllDigits(s)) || (|s| > 1 && (s[0] == '-' || s[0] == '+') && AllDigits(s[1..]))
    ensures r.Some? && s[0] == '-' ==> r.value <= 0
    ensures r.Some? && s[0] != '-' ==> r.value >= 0
    ensures r.Some? && r.value > 0 ==> |s| > 0 && s[0] != '-'
  {
    if |s| > 1 && (s[0] == '-' || s[0] == '+') && AllDigits(s[1..]) then
      var v: int := DigitsValue(s[1..]);
      Some(if s[0] == '-' then -v else v)
    else if |s| > 0 && AllDigits(s) then Some(DigitsValue(s))
    else None
  }

  /** Decimal text of a number, as the database prints a count. */
  function ShowNat(n: nat): (s: string)
    ensures |s| > 0 && AllDigits(s)
    ensures DigitsValue(s) == n
    decreases n
  {
    var d := ['0' + (n % 10) as char];
    if n < 10 then d
    else
      var s := ShowNat(n / 10) + d;
      assert s[..|s| - 1] == ShowNat(n / 10);
      s
  }

  function ShowInt(i: int): string {
    if i < 0 then "-" + ShowNat(-i) else ShowNat(i)
  }

  lemma ParseShowRoundTrip(i: int)
    ensures ParseInt(ShowInt(i)) == Some(i)
  {
    if i < 0 {
      var s := "-" + ShowNat(-i);
      assert s[1..] == ShowNat(-i);
    } else {
      var s := ShowNat(i);
      assert IsDigit(s[0]);
    }
  }

  /** The integer value `int` gives a cell, if any. */
  function IntValue(c: Cell): Option<int> {
    match c
    case CNull => None
    case CInt(i) => Some(i)
    case CText(s) => ParseInt(s)
  }

  datatype GateFailure = EmptyResult | EmptyRow | NotAnInteger(text: string)

  datatype Gate = Pass | AnomaliesDetected(count: Cell) | GateError(reason: GateFailure)

  /** `check_anomalies`: the first cell of the first row is the count; the task
      raises when it is truthy and positive as an integer, and also when the
      result or its first row is empty or the count is not an integer. */
  function CheckAnomalies(rows: seq<seq<Cell>>): (g: Gate)
    // anomalies exactly when the count is truthy and a positive integer
    ensures g.AnomaliesDetected? <==>
      |rows| > 0 && |rows[0]| > 0 && Truthy(rows[0][0])
      && IntValue(rows[0][0]).Some? && IntValue(rows[0][0]).value > 0
    ensures g.AnomaliesDetected? ==> g.count == rows[0][0]
    // a pass exactly when the count is falsy or a non-positive integer
    ensures g == Pass <==>
      |rows| > 0 && |rows[0]| > 0
      && (!Truthy(rows[0][0]) || (IntValue(rows[0][0]).Some? && IntValue(rows[0][0]).value <= 0))
    // an error otherwise: no row, an empty first row, or a truthy non-integer
    ensures g.GateError? <==> |rows| == 0 || |rows[0]| == 0 || (Truthy(rows[0][0]) && IntValue(rows[0][0]).None?)
  {
    if |rows| == 0 then GateError(EmptyResult)
    else if |rows[0]| == 0 then GateError(EmptyRow)
    else
      var c := rows[0][0];
      if !Truthy(c) then Pass
      else
        match c
        case CNull => Pass
        case CInt(i) => if i > 0 then AnomaliesDetected(c) else Pass
        case CText(s) =>
          if ParseInt(s).None? then GateError(NotAnInteger(s))
          else if ParseInt(s).value > 0 then AnomaliesDetected(c) else Pass
  }

  /** Only the first cell of the first row is consulted. */
  lemma GateReadsFirstCellOnly(rows: seq<seq<Cell>>, rows': seq<seq<Cell>>)
    requires |rows| > 0 && |rows'| > 0 && |rows[0]| > 0 && |rows'[0]| > 0
    requires rows[0][0] == rows'[0][0]
    ensures CheckAnomalies(rows) == CheckAnomalies(rows')
  {
  }

  /** A printed count passes the gate iff it is zero; a null count passes. */
  lemma GateOnCount(n: nat, restRow: seq<Cell>, restRows: seq<seq<Cell>>)
    ensures CheckAnomalies([[CText(ShowInt(n))] + restRow] + restRows) == Pass <==> n == 0
    ensures n > 0 ==> CheckAnomalies([[CText(ShowInt(n))] + restRow] + restRows).AnomaliesDetected?
    ensures CheckAnomalies([[CNull] + restRow] + restRows) == Pass
    ensures CheckAnomalies([[CInt(n)] + restRow] + restRows) == Pass <==> n == 0
    ensures n > 0 ==> CheckAnomalies([[CInt(n)] + restRow] + restRows).AnomaliesDetected?
  {
    ParseShowRoundTrip(n);
    var rows := [[CText(ShowInt(n))] + restRow] + restRows;
    assert rows[0][0] == CText(ShowInt(n));
    assert ShowInt(n) != "";
  }

  // ---------------------------------------------------------------- the chain

  datatype Stage = IngestRaw | CurateCsv | RefreshReturns | RefreshAnomalies | CheckAnomaliesTask

  /** `t1 >> t2 >> refresh_returns >> refresh_anoms >> t5`. */
  const Chain: seq<Stage> := [IngestRaw, CurateCsv, RefreshReturns, RefreshAnomalies, CheckAnomaliesTask]

  /** `default_args["retries"]`. */
  const Retries: nat := 0

  /** Where a task ends: succeeded or failed after some attempts, or never
      started because an upstream task failed. */
  datatype TaskState = Succeeded(tries: nat) | Failed(tries: nat) | UpstreamFailed

  /** Attempts of one task from attempt `k` on, at most `retries + 1` in all;
      `outcome(stage, k)` says whether attempt `k` succeeds. */
  function Attempt(stage: Stage, k: nat, retries: nat, outcome: (Stage, nat) -> bool): (st: TaskState)
    requires k <= retries
    ensures st.Succeeded? || st.Failed?
    ensures st.Succeeded? ==> k < st.tries <= retries + 1 && outcome(stage, st.tries - 1)
    ensures st.Succeeded? ==> forall a :: k <= a < st.tries - 1 ==> !outcome(stage, a)
    ensures st.Failed? ==> st.tries == retries + 1
    ensures st.Failed? <==> forall a :: k <= a <= retries ==> !outcome(stage, a)
    decreases retries - k
  {
    if outcome(stage, k) then Succeeded(k + 1)
    else if k == retries then Failed(retries + 1)
    else Attempt(stage, k + 1, retries, outcome)
  }

  /** The states of the tasks of a chain; after a failure every later task is
      upstream-failed. */
  function ChainSpec(chain: seq<Stage>, retries: nat, outcome: (Stage, nat) -> bool, blocked: bool): (s: seq<TaskState>)
    ensures |s| == |chain|
    decreases |chain|
  {
    if chain == [] then []
    else if blocked then [UpstreamFailed] + ChainSpec(chain[1..], retries, outcome, true)
    else
      var st := Attempt(chain[0], 0, retries, outcome);
      [st] + ChainSpec(chain[1..], retries, outcome, st.Failed?)
  }

  /** Task `i` of a chain ran iff the chain was not blocked and every earlier
      task succeeded; a task that ran ended as its attempts say. */
  lemma {:induction false} ChainFacts(chain: seq<Stage>, retries: nat, outcome: (Stage, nat) -> bool, blocked: bool)
    ensures var s := ChainSpec(chain, retries, outcome, blocked);
      && (forall i :: 0 <= i < |s| ==>
            (s[i] != UpstreamFailed <==> !blocked && forall j :: 0 <= j < i ==> s[j].Succeeded?))
      && (forall i :: 0 <= i < |s| && s[i] != UpstreamFailed ==> s[i] == Attempt(chain[i], 0, retries, outcome))
    decreases |chain|
  {
    if chain != [] {
      var s := ChainSpec(chain, retries, outcome, blocked);
      var st := if blocked then UpstreamFailed else Attempt(chain[0], 0, retries, outcome);
      var blocked' := blocked || st.Failed?;
      var rest := ChainSpec(chain[1..], retries, outcome, blocked');
      ChainFacts(chain[1..], retries, outcome, blocked');
      assert s == [st] + rest;
      forall i | 0 < i < |s|
        ensures s[i] != UpstreamFailed <==> !blocked && forall j :: 0 <= j < i ==> s[j].Succeeded?
      {
        PrefixSucceeded(st, rest, i);
        assert s[i] == rest[i - 1];
      }
      forall i | 0 < i < |s| && s[i] != UpstreamFailed
        ensures s[i] == Attempt(chain[i], 0, retries, outcome)
      {
        assert s[i] == rest[i - 1] && chain[1..][i - 1] == chain[i];
      }
    }
  }

  lemma PrefixSucceeded(st: TaskState, rest: seq<TaskState>, i: nat)
    requires 0 < i <= |rest|
    ensures (forall j :: 0 <= j < i ==> ([st] + rest)[j].Succeeded?) <==>
      st.Succeeded? && forall j :: 0 <= j < i - 1 ==> rest[j].Succeeded?
  {
    var s := [st] + rest;
    if st.Succeeded? && forall j :: 0 <= j < i - 1 ==> rest[j].Succeeded? {
      forall j | 0 <= j < i
        ensures s[j].Succeeded?
      {
        if j > 0 {
          assert s[j] == rest[j - 1];
        }
      }
    }
    if forall j :: 0 <= j < i ==> s[j].Succeeded? {
      assert s[0] == st;
      forall j | 0 <= j < i - 1
        ensures rest[j].Succeeded?
      {
        assert s[j + 1] == rest[j];
      }
    }
  }

  /** A failed task leaves every later task upstream-failed: nothing after it runs. */
  lemma FailureStopsChain(chain: seq<Stage>, retries: nat, outcome: (Stage, nat) -> bool, i: nat, j: nat)
    requires i < j < |chain|
    requires ChainSpec(chain, retries, outcome, false)[i].Failed?
    ensures ChainSpec(chain, retries, outcome, false)[j] == UpstreamFailed
  {
    ChainFacts(chain, retries, outcome, false);
  }

  /** The chain as a whole succeeds iff every task succeeded within its attempts. */
  lemma ChainSucceedsIff(chain: seq<Stage>, retries: nat, outcome: (Stage, nat) -> bool)
    ensures var s := ChainSpec(chain, retries, outcome, false);
      (forall i :: 0 <= i < |s| ==> s[i].Succeeded?) <==>
      (forall i :: 0 <= i < |chain| ==> Attempt(chain[i], 0, retries, outcome).Succeeded?)
  {
    ChainFacts(chain, retries, outcome, false);
    var s := ChainSpec(chain, retries, outcome, false);
    if forall i :: 0 <= i < |chain| ==> Attempt(chain[i], 0, retries, outcome).Succeeded? {
      AllAttemptsSucceed(chain, retries, outcome, |chain|);
    }
  }

  lemma {:induction false} AllAttemptsSucceed(chain: seq<Stage>, retries: nat, outcome: (Stage, nat) -> bool, n: nat)
    requires n <= |chain|
    requires forall i :: 0 <= i < |chain| ==> Attempt(chain[i], 0, retries, outcome).Succeeded?
    ensures forall i :: 0 <= i < n ==> ChainSpec(chain, retries, outcome, false)[i].Succeeded?
    decreases n
  {
    ChainFacts(chain, retries, outcome, false);
    if n > 0 {
      AllAttemptsSucceed(chain, retries, outcome, n - 1);
      var s := ChainSpec(chain, retries, outcome, false);
      assert s[n - 1] != UpstreamFailed;
    }
  }

  /** With no retries every task that runs is attempted exactly once. */
  lemma NoRetries(chain: seq<Stage>, outcome: (Stage, nat) -> bool)
    ensures var s := ChainSpec(chain, Retries, outcome, false);
      forall i :: 0 <= i < |s| && s[i] != UpstreamFailed ==> s[i].tries == 1
  {
    ChainFacts(chain, Retries, outcome, false);
  }

  /** The configured DAG: the gate runs only when ingest, curate and both
      refreshes succeeded, each on its only attempt; a task ends succeeded iff
      it and all before it succeeded on their first attempt. */
  lemma DagOrder(outcome: (Stage, nat) -> bool)
    ensures var s := ChainSpec(Chain, Retries, outcome, false);
      && |s| == 5
      && (s[4] != UpstreamFailed <==> s[0].Succeeded? && s[1].Succeeded? && s[2].Succeeded? && s[3].Succeeded?)
      && (forall i :: 0 <= i < 5 ==> (s[i].Succeeded? <==> forall j :: 0 <= j <= i ==> outcome(Chain[j], 0)))
  {
    ChainFacts(Chain, Retries, outcome, false);
    var s := ChainSpec(Chain, Retries, outcome, false);
    forall i | 0 <= i < 5
      ensures s[i].Succeeded? <==> forall j :: 0 <= j <= i ==> outcome(Chain[j], 0)
    {
      forall j | 0 <= j <= i && s[j] != UpstreamFailed
        ensures s[j].Succeeded? <==> outcome(Chain[j], 0)
      {
      }
      if forall j :: 0 <= j <= i ==> outcome(Chain[j], 0) {
        StagesSucceed(s, i, outcome);
      }
    }
  }

  lemma {:induction false} StagesSucceed(s: seq<TaskState>, i: nat, outcome: (Stage, nat) -> bool)
    requires s == ChainSpec(Chain, Retries, outcome, false) && i < 5
    requires forall j :: 0 <= j <= i ==> outcome(Chain[j], 0)
    ensures forall j :: 0 <= j <= i ==> s[j].Succeeded?
    decreases i
  {
    ChainFacts(Chain, Retries, outcome, false);
    if i > 0 {
      StagesSucceed(s, i - 1, outcome);
    }
    assert s[i] != UpstreamFailed;
  }
}
