/** Curation of one run date: read every symbol's raw partition in the
    configured order, abort on provider error payloads, skip payloads without
    a daily series, explode each remaining series into date-sorted rows, and
    write the concatenation of the per-symbol blocks as the curated partition. */
module Curate {
  import opened Common
  import opened Order
  import opened Lake
  import Http
  import Ingest

  const Symbols: seq<string> := ["AAPL", "MSFT", "TSLA", "NVDA"]

  datatype CurateError =
    | MissingBucket
    | ReadFailed(key: string)          // no object at the raw key
    | Undecodable(key: string)         // the object at the raw key is not a JSON document
    | ProviderError(symbol: string, message: Json)
    | RateLimited(symbol: string, note: Json)
    | MalformedSeries(symbol: string)  // the series is not a JSON object
    | MalformedEntry(symbol: string)   // some bar is not an object with the five fields
    | NoRows(symbol: string)           // the series has no entry
    | NoValidSymbols                   // every symbol was skipped

  /** What curation does with one raw payload. */
  datatype Verdict = Abort(err: CurateError) | Skip | Parse

  /** Classification, in precedence order: error message, note, missing series. */
  function Classify(symbol: string, p: Payload): (v: Verdict)
    ensures ErrorMessageKey in p ==> v == Abort(ProviderError(symbol, p[ErrorMessageKey]))
    ensures ErrorMessageKey !in p && NoteKey in p ==> v == Abort(RateLimited(symbol, p[NoteKey]))
    ensures ErrorMessageKey !in p && NoteKey !in p ==> (v == Skip <==> SeriesKey !in p)
    ensures ErrorMessageKey !in p && NoteKey !in p ==> (v == Parse <==> SeriesKey in p)
  {
    if ErrorMessageKey in p then Abort(ProviderError(symbol, p[ErrorMessageKey]))
    else if NoteKey in p then Abort(RateLimited(symbol, p[NoteKey]))
    else if SeriesKey !in p then Skip
    else Parse
  }

  // ---------------------------------------------------------------- parsing

  /** A bar the row builder can read: an object holding the five fields. */
  predicate WellFormedBar(v: Json) {
    && v.JObj?
    && "1. open" in v.fields && "2. high" in v.fields && "3. low" in v.fields
    && "4. close" in v.fields && "5. volume" in v.fields
  }

  predicate WellFormedSeries(e: map<string, Json>) {
    forall d :: d in e ==> WellFormedBar(e[d])
  }

  function MakeRow(symbol: string, date: string, v: Json): PriceRow
    requires WellFormedBar(v)
  {
    PriceRow(symbol, date, v.fields["1. open"], v.fields["2. high"], v.fields["3. low"],
             v.fields["4. close"], v.fields["5. volume"])
  }

  /** The row the parser makes of the entry of the row's own date. */
  predicate RowOf(symbol: string, e: map<string, Json>, row: PriceRow) {
    row.date in e && WellFormedBar(e[row.date]) && row == MakeRow(symbol, row.date, e[row.date])
  }

  /** The series looked at by the parser; an absent one reads as empty. */
  function SeriesOf(p: Payload): Json {
    if SeriesKey in p then p[SeriesKey] else JObj(map[])
  }

  function Dates(s: seq<PriceRow>): set<string> {
    set i | 0 <= i < |s| :: s[i].date
  }

  lemma DatesAppend(s: seq<PriceRow>, x: PriceRow)
    ensures Dates(s + [x]) == Dates(s) + {x.date}
  {
    var t := s + [x];
    assert t[|s|].date == x.date;
    forall d | d in Dates(s)
      ensures d in Dates(t)
    {
      var i :| 0 <= i < |s| && s[i].date == d;
      assert t[i].date == d;
    }
  }

  /** The dates of a series, earliest first. */
  ghost function SortedDates(keys: set<string>): seq<string>
    decreases |keys|
  {
    if keys == {} then []
    else
      var d := Least(keys);
      assert |keys - {d}| == |keys| - 1;
      [d] + SortedDates(keys - {d})
  }

  ghost predicate StrictlyAscending(ds: seq<string>) {
    forall i, j :: 0 <= i < j < |ds| ==> StrLess(ds[i], ds[j])
  }

  /** SortedDates lists exactly the given dates, once each. */
  lemma {:induction false} SortedDatesMembers(keys: set<string>)
    ensures var ds := SortedDates(keys);
      && |ds| == |keys|
      && (forall i :: 0 <= i < |ds| ==> ds[i] in keys)
      && (forall k :: k in keys ==> k in ds)
    decreases |keys|
  {
    if keys != {} {
      var d := Least(keys);
      var rest := keys - {d};
      assert |rest| == |keys| - 1;
      SortedDatesMembers(rest);
      var ds := SortedDates(keys);
      assert ds == [d] + SortedDates(rest);
    }
  }

  /** SortedDates is earliest first. */
  lemma {:induction false} SortedDatesAscending(keys: set<string>)
    ensures StrictlyAscending(SortedDates(keys))
    decreases |keys|
  {
    if keys != {} {
      var d := Least(keys);
      var rest := keys - {d};
      assert |rest| == |keys| - 1;
      SortedDatesAscending(rest);
      SortedDatesMembers(rest);
      var t := SortedDates(rest);
      var ds := SortedDates(keys);
      assert ds == [d] + t;
      forall j | 0 < j < |ds|
        ensures StrLess(d, ds[j])
      {
        assert ds[j] == t[j - 1] && t[j - 1] in rest;
      }
    }
  }

  /** A strictly ascending list of exactly the given dates is SortedDates. */
  lemma {:induction false} SortedDatesUnique(keys: set<string>, ds: seq<string>)
    requires StrictlyAscending(ds)
    requires forall i :: 0 <= i < |ds| ==> ds[i] in keys
    requires forall k :: k in keys ==> k in ds
    ensures ds == SortedDates(keys)
    decreases |ds|
  {
    if ds == [] {
      assert keys == {};
    } else {
      assert ds[0] in keys;
      var d := Least(keys);
      if d != ds[0] {
        var i :| 0 <= i < |ds| && ds[i] == d;
        assert StrLess(ds[0], d);
        StrLessAsymmetric(ds[0], d);
      }
      var rest := keys - {d};
      var tail := ds[1..];
      forall k | k in rest
        ensures k in tail
      {
        var i :| 0 <= i < |ds| && ds[i] == k;
        assert tail[i - 1] == k;
      }
      forall i | 0 <= i < |tail|
        ensures tail[i] in rest
      {
        assert tail[i] == ds[i + 1];
        StrLessIrreflexive(d);
      }
      SortedDatesUnique(rest, tail);
      assert ds == [d] + tail;
    }
  }

  /** The reference table of one series: one row per date, earliest first. */
  ghost function DailyTable(symbol: string, e: map<string, Json>): (r: seq<PriceRow>)
    requires WellFormedSeries(e)
  {
    var ds := SortedDates(e.Keys);
    SortedDatesMembers(e.Keys);
    seq(|ds|, i requires 0 <= i < |ds| => MakeRow(symbol, ds[i], e[ds[i]]))
  }

  /** The reference table has one row per entry, carrying that entry's bar,
      in strictly ascending date order. */
  lemma DailyTableFacts(symbol: string, e: map<string, Json>)
    requires WellFormedSeries(e)
    ensures var r := DailyTable(symbol, e);
      && |r| == |e|
      && Dates(r) == e.Keys
      && (forall i :: 0 <= i < |r| ==> r[i].symbol == symbol && RowOf(symbol, e, r[i]))
      && (forall i, j :: 0 <= i < j < |r| ==> StrLess(r[i].date, r[j].date))
  {
    DailyTableRows(symbol, e);
    DailyTableDates(symbol, e);
  }

  lemma DailyTableRows(symbol: string, e: map<string, Json>)
    requires WellFormedSeries(e)
    ensures var r, ds := DailyTable(symbol, e), SortedDates(e.Keys);
      && |r| == |ds| == |e|
      && (forall i :: 0 <= i < |r| ==> r[i].date == ds[i] && r[i].symbol == symbol && RowOf(symbol, e, r[i]))
      && (forall i, j :: 0 <= i < j < |r| ==> StrLess(r[i].date, r[j].date))
  {
    SortedDatesMembers(e.Keys);
    SortedDatesAscending(e.Keys);
    assert |e.Keys| == |e|;
  }

  lemma DailyTableDates(symbol: string, e: map<string, Json>)
    requires WellFormedSeries(e)
    ensures Dates(DailyTable(symbol, e)) == e.Keys
  {
    var ds := SortedDates(e.Keys);
    SortedDatesMembers(e.Keys);
    DailyTableRows(symbol, e);
    var r := DailyTable(symbol, e);
    forall k | k in e.Keys
      ensures k in Dates(r)
    {
      var i :| 0 <= i < |ds| && ds[i] == k;
      assert r[i].date == k;
    }
  }

  /** What parsing one payload yields. */
  ghost function ParseSpec(symbol: string, p: Payload): Result<seq<PriceRow>, CurateError>
  {
    var ts := SeriesOf(p);
    if !ts.JObj? then Err(MalformedSeries(symbol))
    else if !WellFormedSeries(ts.fields) then Err(MalformedEntry(symbol))
    else if |ts.fields| == 0 then Err(NoRows(symbol))
    else Ok(DailyTable(symbol, ts.fields))
  }

  /** Parsing fails exactly on a non-object, malformed or empty series; a
      parsed table has one row per entry, carrying the symbol and that
      entry's bar, strictly ascending by date. */
  lemma ParseSpecFacts(symbol: string, p: Payload)
    ensures var r := ParseSpec(symbol, p);
      r.Err? <==> !SeriesOf(p).JObj? || !WellFormedSeries(SeriesOf(p).fields) || |SeriesOf(p).fields| == 0
    ensures var r := ParseSpec(symbol, p);
      r.Ok? ==> var e, rows := SeriesOf(p).fields, r.value;
      && |rows| == |e| > 0
      && Dates(rows) == e.Keys
      && (forall i :: 0 <= i < |rows| ==> rows[i].symbol == symbol && RowOf(symbol, e, rows[i]))
      && (forall i, j :: 0 <= i < j < |rows| ==> StrLess(rows[i].date, rows[j].date))
  {
    var ts := SeriesOf(p);
    if ts.JObj? && WellFormedSeries(ts.fields) {
      DailyTableFacts(symbol, ts.fields);
    }
  }

  // ---------------------------------------------------------------- sorting

  /** The sort key of the table: symbol, then date. */
  predicate RowLess(a: PriceRow, b: PriceRow) {
    StrLess(a.symbol, b.symbol) || (a.symbol == b.symbol && StrLess(a.date, b.date))
  }

  predicate SortedRows(s: seq<PriceRow>) {
    forall i, j :: 0 <= i < j < |s| ==> !RowLess(s[j], s[i])
  }

  lemma RowLessAsymmetric(a: PriceRow, b: PriceRow)
    requires RowLess(a, b)
    ensures !RowLess(b, a)
  {
    if StrLess(a.symbol, b.symbol) {
      StrLessAsymmetric(a.symbol, b.symbol);
      if b.symbol == a.symbol {
        StrLessIrreflexive(a.symbol);
      }
    } else {
      StrLessIrreflexive(a.symbol);
      StrLessAsymmetric(a.date, b.date);
    }
  }

  lemma StrNotLessTransitive(a: string, b: string, c: string)
    requires !StrLess(b, a) && !StrLess(c, b)
    ensures !StrLess(c, a)
  {
    if a != b && b != c {
      StrLessTotal(a, b);
      StrLessTotal(b, c);
      StrLessTransitive(a, b, c);
      StrLessAsymmetric(a, c);
    } else if a == b && b != c {
      StrLessTotal(b, c);
      StrLessAsymmetric(a, c);
    } else if a != b && b == c {
      StrLessTotal(a, b);
      StrLessAsymmetric(a, c);
    }
  }

  lemma RowNotLessTransitive(a: PriceRow, b: PriceRow, c: PriceRow)
    requires !RowLess(b, a) && !RowLess(c, b)
    ensures !RowLess(c, a)
  {
    StrNotLessTransitive(a.symbol, b.symbol, c.symbol);
    if c.symbol == a.symbol {
      if a.symbol != b.symbol {
        StrLessTotal(a.symbol, b.symbol);
        StrLessTotal(b.symbol, c.symbol);
        StrLessAsymmetric(a.symbol, b.symbol);
      } else {
        StrNotLessTransitive(a.date, b.date, c.date);
      }
    }
  }

  lemma InsertFrontSorted(x: PriceRow, s: seq<PriceRow>)
    requires SortedRows(s) && s != [] && !RowLess(s[0], x)
    ensures SortedRows([x] + s)
  {
    forall j | 0 < j < |s| + 1
      ensures !RowLess(([x] + s)[j], x)
    {
      if j > 1 {
        RowNotLessTransitive(x, s[0], s[j - 1]);
      }
    }
  }

  lemma InsertBehindSorted(y: PriceRow, x: PriceRow, s: seq<PriceRow>, t: seq<PriceRow>)
    requires SortedRows(s) && SortedRows(t)
    requires forall j :: 0 <= j < |s| ==> !RowLess(s[j], y)
    requires RowLess(y, x)
    requires multiset(t) == multiset(s) + multiset{x}
    ensures SortedRows([y] + t)
  {
    RowLessAsymmetric(y, x);
    forall j | 0 <= j < |t|
      ensures !RowLess(t[j], y)
    {
      assert t[j] in multiset(t);
      if t[j] != x {
        assert t[j] in multiset(s);
        var k :| 0 <= k < |s| && s[k] == t[j];
      }
    }
  }

  /** Insertion of one row into a sorted table. */
  function Insert(x: PriceRow, s: seq<PriceRow>): (r: seq<PriceRow>)
    requires SortedRows(s)
    ensures SortedRows(r)
    ensures multiset(r) == multiset(s) + multiset{x}
  {
    if s == [] then [x]
    else if RowLess(s[0], x) then
      var t := Insert(x, s[1..]);
      assert s == [s[0]] + s[1..];
      InsertBehindSorted(s[0], x, s[1..], t);
      [s[0]] + t
    else
      InsertFrontSorted(x, s);
      [x] + s
  }

  /** The table sort: ascending by (symbol, date), a permutation of its input. */
  function SortRows(s: seq<PriceRow>): (r: seq<PriceRow>)
    ensures SortedRows(r)
    ensures multiset(r) == multiset(s)
  {
    if s == [] then []
    else
      assert s == [s[0]] + s[1..];
      Insert(s[0], SortRows(s[1..]))
  }

  predicate Distinct(s: seq<PriceRow>) {
    forall i, j :: 0 <= i < j < |s| ==> s[i] != s[j]
  }

  lemma {:induction false} DistinctCountsOne(s: seq<PriceRow>, x: PriceRow)
    requires Distinct(s)
    ensures multiset(s)[x] <= 1
    decreases |s|
  {
    if s != [] {
      assert s == [s[0]] + s[1..];
      DistinctCountsOne(s[1..], x);
      if x == s[0] {
        assert x !in s[1..];
      }
    }
  }

  lemma PermutationKeepsDistinct(a: seq<PriceRow>, b: seq<PriceRow>)
    requires Distinct(a) && multiset(a) == multiset(b)
    ensures Distinct(b)
  {
    forall i, j | 0 <= i < j < |b|
      ensures b[i] != b[j]
    {
      if b[i] == b[j] {
        assert b == b[..i] + [b[i]] + b[i + 1..j] + [b[j]] + b[j + 1..];
        assert multiset(b)[b[i]] >= 2;
        DistinctCountsOne(a, b[i]);
      }
    }
  }

  /** A table strictly ordered by date, with one row per entry, is the
      reference table of that series. */
  lemma TableUnique(symbol: string, e: map<string, Json>, s: seq<PriceRow>)
    requires WellFormedSeries(e)
    requires Dates(s) == e.Keys
    requires forall i :: 0 <= i < |s| ==> RowOf(symbol, e, s[i])
    requires forall i, j :: 0 <= i < j < |s| ==> StrLess(s[i].date, s[j].date)
    ensures s == DailyTable(symbol, e)
  {
    var ds := seq(|s|, i requires 0 <= i < |s| => s[i].date);
    forall k | k in e.Keys
      ensures k in ds
    {
      var i :| 0 <= i < |s| && s[i].date == k;
      assert ds[i] == k;
    }
    SortedDatesUnique(e.Keys, ds);
    var r := DailyTable(symbol, e);
    assert |r| == |s|;
    forall i | 0 <= i < |s|
      ensures r[i] == s[i]
    {
      assert ds[i] == s[i].date;
    }
  }

  /** Rows built from every entry show that the whole series is well formed
      and is empty exactly when no row was built. */
  lemma CollectedAll(symbol: string, e: map<string, Json>, rows: seq<PriceRow>)
    requires Dates(rows) == e.Keys
    requires forall i :: 0 <= i < |rows| ==> RowOf(symbol, e, rows[i])
    ensures WellFormedSeries(e)
    ensures |rows| == 0 <==> |e| == 0
  {
    forall d | d in e
      ensures WellFormedBar(e[d])
    {
      var i :| 0 <= i < |rows| && rows[i].date == d;
    }
    if |rows| > 0 {
      assert rows[0].date in e;
    }
  }

  /** Sorting the rows the parser collected, one per entry in any order,
      yields the reference table. */
  lemma SortedIsTable(symbol: string, e: map<string, Json>, rows: seq<PriceRow>)
    requires WellFormedSeries(e)
    requires Dates(rows) == e.Keys
    requires forall i :: 0 <= i < |rows| ==> RowOf(symbol, e, rows[i])
    requires forall i, j :: 0 <= i < j < |rows| ==> rows[i].date != rows[j].date
    ensures SortRows(rows) == DailyTable(symbol, e)
  {
    var sorted := SortRows(rows);
    SortedKeepsRows(symbol, e, rows);
    forall i, j | 0 <= i < j < |sorted|
      ensures StrLess(sorted[i].date, sorted[j].date)
    {
      assert sorted[i] != sorted[j];
      assert sorted[i].date != sorted[j].date;
      StrLessTotal(sorted[i].date, sorted[j].date);
    }
    TableUnique(symbol, e, sorted);
  }

  /** Sorting keeps every row of the parser and their distinct dates. */
  lemma SortedKeepsRows(symbol: string, e: map<string, Json>, rows: seq<PriceRow>)
    requires Dates(rows) == e.Keys
    requires forall i :: 0 <= i < |rows| ==> RowOf(symbol, e, rows[i])
    requires forall i, j :: 0 <= i < j < |rows| ==> rows[i].date != rows[j].date
    ensures var sorted := SortRows(rows);
      && Dates(sorted) == e.Keys
      && (forall i :: 0 <= i < |sorted| ==> RowOf(symbol, e, sorted[i]))
      && Distinct(sorted)
  {
    var sorted := SortRows(rows);
    PermutationKeepsDistinct(rows, sorted);
    PermutationKeepsRowOf(symbol, e, rows, sorted);
    PermutationKeepsDates(rows, sorted);
  }

  lemma PermutationKeepsRowOf(symbol: string, e: map<string, Json>, rows: seq<PriceRow>, s: seq<PriceRow>)
    requires forall i :: 0 <= i < |rows| ==> RowOf(symbol, e, rows[i])
    requires multiset(rows) == multiset(s)
    ensures forall i :: 0 <= i < |s| ==> RowOf(symbol, e, s[i])
  {
    forall i | 0 <= i < |s|
      ensures RowOf(symbol, e, s[i])
    {
      assert s[i] in multiset(rows);
      var k :| 0 <= k < |rows| && rows[k] == s[i];
    }
  }

  lemma PermutationKeepsDates(rows: seq<PriceRow>, s: seq<PriceRow>)
    requires multiset(rows) == multiset(s)
    ensures Dates(s) == Dates(rows)
  {
    forall k | k in Dates(rows)
      ensures k in Dates(s)
    {
      var i :| 0 <= i < |rows| && rows[i].date == k;
      assert rows[i] in multiset(s);
      var j :| 0 <= j < |s| && s[j] == rows[i];
    }
    forall k | k in Dates(s)
      ensures k in Dates(rows)
    {
      var i :| 0 <= i < |s| && s[i].date == k;
      assert s[i] in multiset(rows);
      var j :| 0 <= j < |rows| && rows[j] == s[i];
    }
  }

  /** The state of the row-building loop: one row, carrying its entry's bar,
      for each visited date, all dates distinct and none still to visit. */
  predicate Collected(symbol: string, entries: map<string, Json>, remaining: set<string>, rows: seq<PriceRow>) {
    && remaining <= entries.Keys
    && Dates(rows) == entries.Keys - remaining
    && (forall i :: 0 <= i < |rows| ==> RowOf(symbol, entries, rows[i]) && rows[i].date !in remaining)
    && (forall i, j :: 0 <= i < j < |rows| ==> rows[i].date != rows[j].date)
  }

  /** Visiting one more well-formed entry keeps the loop state. */
  lemma CollectStep(symbol: string, entries: map<string, Json>, remaining: set<string>, rows: seq<PriceRow>, d: string)
    requires Collected(symbol, entries, remaining, rows)
    requires d in remaining && WellFormedBar(entries[d])
    ensures Collected(symbol, entries, remaining - {d}, rows + [MakeRow(symbol, d, entries[d])])
  {
    DatesAppend(rows, MakeRow(symbol, d, entries[d]));
  }

  /** The row-building loop of `parse_av_daily_adjusted`: one row per entry,
      in the order the entries are visited; `None` as soon as an entry is not
      a bar with the five fields. */
  method ExplodeSeries(entries: map<string, Json>, symbol: string) returns (r: Option<seq<PriceRow>>)
    ensures r.None? <==> !WellFormedSeries(entries)
    ensures r.Some? ==> var rows := r.value;
      && Dates(rows) == entries.Keys
      && (|rows| == 0 <==> |entries| == 0)
      && (forall i :: 0 <= i < |rows| ==> RowOf(symbol, entries, rows[i]))
      && (forall i, j :: 0 <= i < j < |rows| ==> rows[i].date != rows[j].date)
  {
    var remaining := entries.Keys;
    var rows: seq<PriceRow> := [];
    while remaining != {}
      invariant Collected(symbol, entries, remaining, rows)
      decreases |remaining|
    {
      var d :| d in remaining;
      var v := entries[d];
      if !WellFormedBar(v) {
        return None;
      }
      CollectStep(symbol, entries, remaining, rows, d);
      rows := rows + [MakeRow(symbol, d, v)];
      remaining := remaining - {d};
    }
    CollectedAll(symbol, entries, rows);
    r := Some(rows);
  }

  /** `parse_av_daily_adjusted`: the reference table of the series, or the
      error the function raises on it. */
  method ParseDaily(p: Payload, symbol: string) returns (r: Result<seq<PriceRow>, CurateError>)
    ensures r == ParseSpec(symbol, p)
  {
    var ts := SeriesOf(p);
    if !ts.JObj? {
      return Err(MalformedSeries(symbol));
    }
    var exploded := ExplodeSeries(ts.fields, symbol);
    if exploded.None? {
      return Err(MalformedEntry(symbol));
    }
    var rows := exploded.value;
    if |rows| == 0 {
      return Err(NoRows(symbol));
    }
    SortedIsTable(symbol, ts.fields, rows);
    r := Ok(SortRows(rows));
  }

  // ---------------------------------------------------------------- the run

  /** What curation makes of one symbol's raw partition: the error that ends
      the run, `None` for a skipped symbol, or the symbol's table. */
  ghost function BlockOf(symbol: string, dt: string, store: Store): Result<Option<seq<PriceRow>>, CurateError>
  {
    var key := RawKey(symbol, dt);
    if key !in store then Err(ReadFailed(key))
    else if !store[key].JsonDoc? then Err(Undecodable(key))
    else
      var p := store[key].payload;
      match Classify(symbol, p)
      case Abort(err) => Err(err)
      case Skip => Ok(None)
      case Parse =>
        var parsed := ParseSpec(symbol, p);
        if parsed.Err? then Err(parsed.error) else Ok(Some(parsed.value))
  }

  /** The blocks of the surviving symbols, in symbol order, or the first error. */
  ghost function Gather(symbols: seq<string>, dt: string, store: Store): Result<seq<seq<PriceRow>>, CurateError>
    decreases |symbols|
  {
    if symbols == [] then Ok([])
    else
      var b := BlockOf(symbols[0], dt, store);
      if b.Err? then Err(b.error)
      else
        var rest := Gather(symbols[1..], dt, store);
        if rest.Err? then rest
        else if b.value.Some? then Ok([b.value.value] + rest.value)
        else rest
  }

  /** The raw keys read, in order, up to and including the one whose symbol
      ended the run. */
  ghost function ReadKeys(symbols: seq<string>, dt: string, store: Store): seq<string>
    decreases |symbols|
  {
    if symbols == [] then []
    else if BlockOf(symbols[0], dt, store).Err? then [RawKey(symbols[0], dt)]
    else [RawKey(symbols[0], dt)] + ReadKeys(symbols[1..], dt, store)
  }

  /** `pd.concat`: the blocks one after another, without re-sorting. */
  function Concat(bs: seq<seq<PriceRow>>): (r: seq<PriceRow>)
    ensures forall x :: x in r <==> exists k :: 0 <= k < |bs| && x in bs[k]
    ensures bs != [] ==> |bs[0]| <= |r| && r[..|bs[0]|] == bs[0]
    decreases |bs|
  {
    if bs == [] then [] else bs[0] + Concat(bs[1..])
  }

  /** The blocks gathered so far in front of what the remaining symbols give. */
  function Prepend(blocks: seq<seq<PriceRow>>, g: Result<seq<seq<PriceRow>>, CurateError>): Result<seq<seq<PriceRow>>, CurateError>
  {
    if g.Err? then g else Ok(blocks + g.value)
  }

  /** The curated table of one run date, or the error the run raises. */
  ghost function CurateSpec(bucket: string, dt: string, symbols: seq<string>, store: Store): Result<seq<PriceRow>, CurateError>
  {
    if bucket == "" then Err(MissingBucket)
    else
      var g := Gather(symbols, dt, store);
      if g.Err? then Err(g.error)
      else if g.value == [] then Err(NoValidSymbols)
      else Ok(Concat(g.value))
  }

  /** One iteration of the loop of `main`: read and decode the symbol's raw
      partition, classify it, and parse it unless it is skipped. */
  method ReadBlock(symbol: string, dt: string, store: Store) returns (b: Result<Option<seq<PriceRow>>, CurateError>)
    ensures b == BlockOf(symbol, dt, store)
  {
    var key := RawKey(symbol, dt);
    if key !in store {
      return Err(ReadFailed(key));
    }
    if !store[key].JsonDoc? {
      return Err(Undecodable(key));
    }
    var payload := store[key].payload;
    if ErrorMessageKey in payload {
      return Err(ProviderError(symbol, payload[ErrorMessageKey]));
    }
    if NoteKey in payload {
      return Err(RateLimited(symbol, payload[NoteKey]));
    }
    if SeriesKey !in payload {
      return Ok(None);
    }
    var parsed := ParseDaily(payload, symbol);
    if parsed.Err? {
      return Err(parsed.error);
    }
    b := Ok(Some(parsed.value));
  }

  lemma GatherUnfold(symbols: seq<string>, i: nat, dt: string, store: Store)
    requires i < |symbols|
    ensures var b, rest := BlockOf(symbols[i], dt, store), Gather(symbols[i + 1..], dt, store);
      Gather(symbols[i..], dt, store) ==
        if b.Err? then Err(b.error)
        else if rest.Err? then rest
        else if b.value.Some? then Ok([b.value.value] + rest.value)
        else rest
    ensures ReadKeys(symbols[i..], dt, store) ==
      if BlockOf(symbols[i], dt, store).Err? then [RawKey(symbols[i], dt)]
      else [RawKey(symbols[i], dt)] + ReadKeys(symbols[i + 1..], dt, store)
  {
    assert symbols[i..][0] == symbols[i] && symbols[i..][1..] == symbols[i + 1..];
  }

  /** `main` of the curation job: the table it uploads, the raw keys it reads
      in order, and the store after the upload (which happens only when a
      table was built). */
  method Curate(bucket: string, dt: string, symbols: seq<string>, store: Store)
    returns (res: Result<seq<PriceRow>, CurateError>, fetched: seq<string>, store': Store)
    ensures res == CurateSpec(bucket, dt, symbols, store)
    ensures fetched == if bucket == "" then [] else ReadKeys(symbols, dt, store)
    ensures store' == if res.Ok? then store[CuratedKey(dt) := CsvTable(res.value)] else store
  {
    fetched, store' := [], store;
    if bucket == "" {
      return Err(MissingBucket), fetched, store';
    }
    var blocks: seq<seq<PriceRow>> := [];
    var i := 0;
    assert symbols[0..] == symbols;
    assert Gather(symbols, dt, store).Ok? ==> [] + Gather(symbols, dt, store).value == Gather(symbols, dt, store).value;
    while i < |symbols|
      invariant 0 <= i <= |symbols|
      invariant Gather(symbols, dt, store) == Prepend(blocks, Gather(symbols[i..], dt, store))
      invariant ReadKeys(symbols, dt, store) == fetched + ReadKeys(symbols[i..], dt, store)
    {
      var sym := symbols[i];
      GatherUnfold(symbols, i, dt, store);
      fetched := fetched + [RawKey(sym, dt)];
      var b := ReadBlock(sym, dt, store);
      if b.Err? {
        return Err(b.error), fetched, store';
      }
      if b.value.Some? {
        ghost var rest := Gather(symbols[i + 1..], dt, store);
        assert rest.Ok? ==> blocks + ([b.value.value] + rest.value) == (blocks + [b.value.value]) + rest.value;
        blocks := blocks + [b.value.value];
      }
      i := i + 1;
    }
    assert symbols[i..] == [];
    assert blocks + [] == blocks;
    if blocks == [] {
      return Err(NoValidSymbols), fetched, store';
    }
    var out := Concat(blocks);
    store' := store[CuratedKey(dt) := CsvTable(out)];
    res := Ok(out);
  }

  // ---------------------------------------------------------------- properties of a run

  /** One symbol's block: a stored table is the reference table of the
      payload's series, non-empty, all of that symbol and strictly ascending
      by date; a present but empty series ends the run instead of skipping. */
  lemma BlockOfFacts(symbol: string, dt: string, store: Store)
    ensures var b, key := BlockOf(symbol, dt, store), RawKey(symbol, dt);
      b.Ok? && b.value.Some? ==>
        && key in store && store[key].JsonDoc?
        && Classify(symbol, store[key].payload) == Parse
        && var t := b.value.value;
        && |t| > 0
        && (forall i :: 0 <= i < |t| ==> t[i].symbol == symbol)
        && (forall i, j :: 0 <= i < j < |t| ==> StrLess(t[i].date, t[j].date))
    ensures var b, key := BlockOf(symbol, dt, store), RawKey(symbol, dt);
      (key in store && store[key].JsonDoc? && Classify(symbol, store[key].payload) == Parse
        && store[key].payload[SeriesKey] == JObj(map[])) ==> b == Err(NoRows(symbol))
    ensures var b, key := BlockOf(symbol, dt, store), RawKey(symbol, dt);
      b == Ok(None) <==> key in store && store[key].JsonDoc? && Classify(symbol, store[key].payload) == Skip
  {
    var key := RawKey(symbol, dt);
    if key in store && store[key].JsonDoc? {
      ParseSpecFacts(symbol, store[key].payload);
    }
  }

  /** Only a missing bucket gives `MissingBucket`, and it comes before any read. */
  lemma MissingBucketFirst(bucket: string, dt: string, symbols: seq<string>, store: Store)
    ensures CurateSpec(bucket, dt, symbols, store) == Err(MissingBucket) <==> bucket == ""
  {
    GatherErrors(symbols, dt, store);
  }

  /** The errors of the gathering loop are those of one symbol's block. */
  lemma {:induction false} GatherErrors(symbols: seq<string>, dt: string, store: Store)
    ensures var g := Gather(symbols, dt, store);
      g.Err? ==> exists j :: 0 <= j < |symbols| && BlockOf(symbols[j], dt, store) == Err(g.error)
    ensures Gather(symbols, dt, store) != Err(MissingBucket)
    decreases |symbols|
  {
    if symbols != [] {
      GatherErrors(symbols[1..], dt, store);
      var g := Gather(symbols, dt, store);
      if g.Err? && BlockOf(symbols[0], dt, store).Ok? {
        var j :| 0 <= j < |symbols[1..]| && BlockOf(symbols[1..][j], dt, store) == Err(g.error);
        assert symbols[1..][j] == symbols[j + 1];
      }
      var b := BlockOf(symbols[0], dt, store);
      if b.Err? {
        var key := RawKey(symbols[0], dt);
        if key in store && store[key].JsonDoc? {
          ParseSpecFacts(symbols[0], store[key].payload);
        }
      }
    }
  }

  /** Curation fails with `NoValidSymbols` exactly when no symbol raised and
      every symbol was skipped. */
  lemma {:induction false} AllSkippedFails(bucket: string, dt: string, symbols: seq<string>, store: Store)
    requires bucket != ""
    ensures CurateSpec(bucket, dt, symbols, store) == Err(NoValidSymbols) <==>
      forall j :: 0 <= j < |symbols| ==> BlockOf(symbols[j], dt, store) == Ok(None)
    decreases |symbols|
  {
    GatherErrors(symbols, dt, store);
    AllSkippedGather(symbols, dt, store);
  }

  lemma {:induction false} AllSkippedGather(symbols: seq<string>, dt: string, store: Store)
    ensures Gather(symbols, dt, store) == Ok([]) <==>
      forall j :: 0 <= j < |symbols| ==> BlockOf(symbols[j], dt, store) == Ok(None)
    decreases |symbols|
  {
    if symbols != [] {
      AllSkippedGather(symbols[1..], dt, store);
      if forall j :: 0 <= j < |symbols| ==> BlockOf(symbols[j], dt, store) == Ok(None) {
        forall j | 0 <= j < |symbols[1..]|
          ensures BlockOf(symbols[1..][j], dt, store) == Ok(None)
        {
          assert symbols[1..][j] == symbols[j + 1];
        }
      }
      if Gather(symbols, dt, store) == Ok([]) {
        forall j | 0 <= j < |symbols|
          ensures BlockOf(symbols[j], dt, store) == Ok(None)
        {
          if j > 0 {
            assert symbols[j] == symbols[1..][j - 1];
          }
        }
      }
    }
  }

  /** Every gathered block is non-empty. */
  lemma {:induction false} GatherBlocksNonEmpty(symbols: seq<string>, dt: string, store: Store)
    requires Gather(symbols, dt, store).Ok?
    ensures forall k :: 0 <= k < |Gather(symbols, dt, store).value| ==> |Gather(symbols, dt, store).value[k]| > 0
    decreases |symbols|
  {
    if symbols != [] {
      BlockOfFacts(symbols[0], dt, store);
      GatherBlocksNonEmpty(symbols[1..], dt, store);
    }
  }

  lemma {:induction false} ConcatNonEmpty(bs: seq<seq<PriceRow>>)
    requires bs != [] && |bs[0]| > 0
    ensures |Concat(bs)| >= |bs[0]| > 0
  {
  }

  /** A successful run uploads at least one row. */
  lemma CurateNonEmpty(bucket: string, dt: string, symbols: seq<string>, store: Store)
    requires CurateSpec(bucket, dt, symbols, store).Ok?
    ensures |CurateSpec(bucket, dt, symbols, store).value| > 0
  {
    GatherBlocksNonEmpty(symbols, dt, store);
    ConcatNonEmpty(Gather(symbols, dt, store).value);
  }

  /** Reads follow the symbol order and stop at the symbol that raised: the
      keys read are the raw keys of a prefix of the symbols, all of them on
      success, and on failure the last one read belongs to the symbol whose
      block is the run's error. */
  lemma {:induction false} ReadsInOrder(symbols: seq<string>, dt: string, store: Store)
    ensures var r := ReadKeys(symbols, dt, store);
      && |r| <= |symbols|
      && (forall i :: 0 <= i < |r| ==> r[i] == RawKey(symbols[i], dt))
      && (Gather(symbols, dt, store).Ok? ==> |r| == |symbols|)
      && (Gather(symbols, dt, store).Err? ==>
            |r| > 0 && BlockOf(symbols[|r| - 1], dt, store) == Err(Gather(symbols, dt, store).error)
            && forall i :: 0 <= i < |r| - 1 ==> BlockOf(symbols[i], dt, store).Ok?)
    decreases |symbols|
  {
    if symbols != [] {
      ReadsInOrder(symbols[1..], dt, store);
      var r, t := ReadKeys(symbols, dt, store), ReadKeys(symbols[1..], dt, store);
      if BlockOf(symbols[0], dt, store).Ok? {
        assert r == [RawKey(symbols[0], dt)] + t;
        forall i | 0 < i < |r|
          ensures r[i] == RawKey(symbols[i], dt)
        {
          assert r[i] == t[i - 1] && symbols[1..][i - 1] == symbols[i];
        }
        if Gather(symbols, dt, store).Err? {
          assert symbols[1..][|t| - 1] == symbols[|r| - 1];
          forall i | 0 < i < |r| - 1
            ensures BlockOf(symbols[i], dt, store).Ok?
          {
            assert symbols[1..][i - 1] == symbols[i];
          }
        }
      }
    }
  }

  /** The raw blocks of a run date do not depend on any key but their own
      raw partitions. */
  lemma BlockOfFrame(symbol: string, dt: string, store: Store, key: string, obj: StoredObject)
    requires key != RawKey(symbol, dt)
    ensures BlockOf(symbol, dt, store[key := obj]) == BlockOf(symbol, dt, store)
  {
  }

  lemma {:induction false} GatherIgnoresCurated(symbols: seq<string>, dt: string, store: Store, d: string, obj: StoredObject)
    ensures Gather(symbols, dt, store[CuratedKey(d) := obj]) == Gather(symbols, dt, store)
    decreases |symbols|
  {
    if symbols != [] {
      RawAndCuratedKeysDiffer(symbols[0], dt, d);
      BlockOfFrame(symbols[0], dt, store, CuratedKey(d), obj);
      GatherIgnoresCurated(symbols[1..], dt, store, d, obj);
    }
  }

  /** Curation is idempotent: running it again over the store it produced
      gives the same table, and the store it then writes is the same. */
  lemma CurateIdempotent(bucket: string, dt: string, symbols: seq<string>, store: Store)
    requires CurateSpec(bucket, dt, symbols, store).Ok?
    ensures var out := CurateSpec(bucket, dt, symbols, store).value;
      var store' := store[CuratedKey(dt) := CsvTable(out)];
      && CurateSpec(bucket, dt, symbols, store') == Ok(out)
      && store'[CuratedKey(dt) := CsvTable(out)] == store'
  {
    var out := CurateSpec(bucket, dt, symbols, store).value;
    GatherIgnoresCurated(symbols, dt, store, dt, CsvTable(out));
  }

  // ---------------------------------------------------------------- order of the output

  predicate DistinctSymbols(s: seq<string>) {
    forall i, j :: 0 <= i < j < |s| ==> s[i] != s[j]
  }

  /** Position of a symbol in the configured list. */
  function IndexOf(s: seq<string>, x: string): (k: nat)
    requires x in s
    ensures k < |s| && s[k] == x
    ensures forall j :: 0 <= j < k ==> s[j] != x
  {
    if s[0] == x then 0 else 1 + IndexOf(s[1..], x)
  }

  /** Grouped by symbol in configured order, and by date within a symbol. */
  ghost predicate InSymbolOrder(symbols: seq<string>, out: seq<PriceRow>) {
    && (forall a :: 0 <= a < |out| ==> out[a].symbol in symbols)
    && (forall a, b :: 0 <= a < b < |out| ==>
          if out[a].symbol == out[b].symbol then StrLess(out[a].date, out[b].date)
          else IndexOf(symbols, out[a].symbol) < IndexOf(symbols, out[b].symbol))
  }

  lemma IndexOfTail(s: string, rest: seq<string>, x: string)
    requires x in rest && x != s
    ensures IndexOf([s] + rest, x) == 1 + IndexOf(rest, x)
  {
    assert ([s] + rest)[1..] == rest;
  }

  /** Adding a skipped symbol in front keeps the order. */
  lemma LiftOrder(s: string, rest: seq<string>, out: seq<PriceRow>)
    requires s !in rest && InSymbolOrder(rest, out)
    ensures InSymbolOrder([s] + rest, out)
  {
    forall a, b | 0 <= a < b < |out| && out[a].symbol != out[b].symbol
      ensures IndexOf([s] + rest, out[a].symbol) < IndexOf([s] + rest, out[b].symbol)
    {
      IndexOfTail(s, rest, out[a].symbol);
      IndexOfTail(s, rest, out[b].symbol);
    }
  }

  /** The first symbol's block in front of the rest keeps the order. */
  lemma PrependOrder(s: string, rest: seq<string>, t: seq<PriceRow>, out: seq<PriceRow>)
    requires s !in rest && InSymbolOrder(rest, out)
    requires forall i :: 0 <= i < |t| ==> t[i].symbol == s
    requires forall i, j :: 0 <= i < j < |t| ==> StrLess(t[i].date, t[j].date)
    ensures InSymbolOrder([s] + rest, t + out)
  {
    LiftOrder(s, rest, out);
    var all, syms := t + out, [s] + rest;
    forall a, b | 0 <= a < b < |all|
      ensures if all[a].symbol == all[b].symbol then StrLess(all[a].date, all[b].date)
              else IndexOf(syms, all[a].symbol) < IndexOf(syms, all[b].symbol)
    {
      if b >= |t| && a < |t| {
        assert all[a] == t[a] && all[b] == out[b - |t|];
      } else if a >= |t| {
        assert all[a] == out[a - |t|] && all[b] == out[b - |t|];
      }
    }
  }

  lemma {:induction false} GatherInOrder(symbols: seq<string>, dt: string, store: Store)
    requires DistinctSymbols(symbols)
    requires Gather(symbols, dt, store).Ok?
    ensures InSymbolOrder(symbols, Concat(Gather(symbols, dt, store).value))
    decreases |symbols|
  {
    if symbols != [] {
      var s, rest := symbols[0], symbols[1..];
      assert symbols == [s] + rest;
      assert s !in rest;
      GatherInOrder(rest, dt, store);
      var bs := Gather(rest, dt, store).value;
      var b := BlockOf(s, dt, store).value;
      if b.Some? {
        BlockOfFacts(s, dt, store);
        assert Concat([b.value] + bs) == b.value + Concat(bs) by {
          assert ([b.value] + bs)[1..] == bs;
        }
        PrependOrder(s, rest, b.value, Concat(bs));
      } else {
        LiftOrder(s, rest, Concat(bs));
      }
    }
  }

  /** The uploaded table is grouped by symbol in the configured order, and
      within each symbol strictly ascending by date. */
  lemma CurateInSymbolOrder(bucket: string, dt: string, symbols: seq<string>, store: Store)
    requires DistinctSymbols(symbols)
    requires CurateSpec(bucket, dt, symbols, store).Ok?
    ensures InSymbolOrder(symbols, CurateSpec(bucket, dt, symbols, store).value)
  {
    GatherInOrder(symbols, dt, store);
  }

  // ---------------------------------------------------------------- with ingestion

  /** Ingestion stores any payload without the two error keys, even one with
      no daily series; curation then skips that symbol. */
  lemma IngestedWithoutSeriesIsSkipped(st: Ingest.Ingestion, symbol: string, env: Ingest.Env)
    requires st.failure.None?
    requires Ingest.Step(st, symbol, env).failure.None?
    requires var f := Ingest.FetchDaily(symbol, env, st.trace).0; f.Ok? && SeriesKey !in f.value
    ensures BlockOf(symbol, env.dt, Ingest.Step(st, symbol, env).store) == Ok(None)
  {
    Ingest.StepStore(st, symbol, env);
  }

  /** After a successful ingestion of the same run date, curation of those
      symbols can only fail on the shape of a series: every raw partition is
      there, decodes, and carries neither error key. */
  lemma CurateAfterIngest(symbols: seq<string>, env: Ingest.Env, store: Store, trace: seq<Http.Event>)
    requires Ingest.Run(symbols, env, Ingest.Ingestion(None, store, trace)).failure.None?
    ensures forall j :: 0 <= j < |symbols| ==>
      var b := BlockOf(symbols[j], env.dt, Ingest.Run(symbols, env, Ingest.Ingestion(None, store, trace)).store);
      b.Err? ==> b.error.MalformedSeries? || b.error.MalformedEntry? || b.error.NoRows?
  {
    Ingest.RunWritesAll(symbols, env, store, trace);
    var st' := Ingest.Run(symbols, env, Ingest.Ingestion(None, store, trace));
    forall j | 0 <= j < |symbols|
      ensures var b := BlockOf(symbols[j], env.dt, st'.store);
        b.Err? ==> b.error.MalformedSeries? || b.error.MalformedEntry? || b.error.NoRows?
    {
      var key := RawKey(symbols[j], env.dt);
      ParseSpecFacts(symbols[j], st'.store[key].payload);
    }
  }

  /** So a curation of the ingested date and bucket that fails after a
      successful ingestion failed on the shape of a series, or because every symbol was
      skipped (ingestion keeps payloads without a series). */
  lemma CurateAfterIngestFails(bucket: string, symbols: seq<string>, env: Ingest.Env, store: Store, trace: seq<Http.Event>)
    requires bucket == env.bucket
    requires Ingest.Run(symbols, env, Ingest.Ingestion(None, store, trace)).failure.None?
    ensures var r := CurateSpec(bucket, env.dt, symbols, Ingest.Run(symbols, env, Ingest.Ingestion(None, store, trace)).store);
      bucket != "" && r.Err? ==>
        r.error.MalformedSeries? || r.error.MalformedEntry? || r.error.NoRows? || r.error == NoValidSymbols
  {
    var st' := Ingest.Run(symbols, env, Ingest.Ingestion(None, store, trace));
    CurateAfterIngest(symbols, env, store, trace);
    GatherErrors(symbols, env.dt, st'.store);
  }

  // ---------------------------------------------------------------- no global sort

  lemma SingleDateTable(symbol: string, d: string, bar: Json)
    requires WellFormedBar(bar)
    ensures DailyTable(symbol, map[d := bar]) == [MakeRow(symbol, d, bar)]
  {
    var keys := map[d := bar].Keys;
    assert keys == {d};
    assert SortedDates(keys) == [d] + SortedDates(keys - {d});
    assert keys - {d} == {};
  }

  lemma SkippedBlock(symbol: string, dt: string, store: Store)
    requires RawKey(symbol, dt) in store && store[RawKey(symbol, dt)] == JsonDoc(map[])
    ensures BlockOf(symbol, dt, store) == Ok(None)
  {
  }

  lemma OneRowBlock(symbol: string, dt: string, store: Store, d: string, bar: Json)
    requires WellFormedBar(bar)
    requires RawKey(symbol, dt) in store
    requires store[RawKey(symbol, dt)] == JsonDoc(map[SeriesKey := JObj(map[d := bar])])
    ensures BlockOf(symbol, dt, store) == Ok(Some([MakeRow(symbol, d, bar)]))
  {
    SingleDateTable(symbol, d, bar);
  }

  lemma ConcatTwo(x: PriceRow, y: PriceRow)
    ensures Concat([[x], [y]]) == [x, y]
  {
    assert [[x], [y]][1..] == [[y]];
    assert [[y]][1..] == [];
    assert Concat([[y]]) == [y] + [] == [y];
    assert [x] + [y] == [x, y];
  }

  lemma GatherNil(dt: string, store: Store)
    ensures Gather([], dt, store) == Ok([])
  {
  }

  /** The concatenated table is not sorted by (symbol, date): when AAPL and
      MSFT are skipped and TSLA and NVDA carry one bar each, the TSLA row
      comes first although NVDA sorts before TSLA. */
  lemma NotGloballySorted(dt: string, store: Store, d: string, bar: Json)
    requires WellFormedBar(bar)
    requires RawKey("AAPL", dt) in store && RawKey("MSFT", dt) in store
    requires RawKey("TSLA", dt) in store && RawKey("NVDA", dt) in store
    requires store[RawKey("AAPL", dt)] == JsonDoc(map[]) && store[RawKey("MSFT", dt)] == JsonDoc(map[])
    requires store[RawKey("TSLA", dt)] == JsonDoc(map[SeriesKey := JObj(map[d := bar])])
    requires store[RawKey("NVDA", dt)] == JsonDoc(map[SeriesKey := JObj(map[d := bar])])
    ensures var out := CurateSpec("bucket", dt, Symbols, store);
      && out == Ok([MakeRow("TSLA", d, bar), MakeRow("NVDA", d, bar)])
      && !SortedRows(out.value)
  {
    var s := Symbols;
    assert s[0] == "AAPL" && s[1] == "MSFT" && s[2] == "TSLA" && s[3] == "NVDA";
    var tsla, nvda := MakeRow("TSLA", d, bar), MakeRow("NVDA", d, bar);
    SkippedBlock("AAPL", dt, store);
    SkippedBlock("MSFT", dt, store);
    OneRowBlock("TSLA", dt, store, d, bar);
    OneRowBlock("NVDA", dt, store, d, bar);
    GatherUnfold(s, 3, dt, store);
    assert s[4..] == [];
    GatherNil(dt, store);
    assert Gather(s[4..], dt, store) == Ok([]);
    assert BlockOf(s[3], dt, store) == Ok(Some([nvda]));
    assert [[nvda]] + [] == [[nvda]];
    assert Gather(s[3..], dt, store) == Ok([[nvda]]);
    GatherUnfold(s, 2, dt, store);
    assert [[tsla]] + [[nvda]] == [[tsla], [nvda]];
    assert Gather(s[2..], dt, store) == Ok([[tsla], [nvda]]);
    GatherUnfold(s, 1, dt, store);
    assert Gather(s[1..], dt, store) == Ok([[tsla], [nvda]]);
    GatherUnfold(s, 0, dt, store);
    assert s[0..] == s;
    assert Gather(s, dt, store) == Ok([[tsla], [nvda]]);
    ConcatTwo(tsla, nvda);
    var out := [tsla, nvda];
    assert out[0] == tsla && out[1] == nvda;
    assert RowLess(out[1], out[0]);
  }
}
