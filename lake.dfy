/** The data-lake layout: the curated row schema, the objects kept in the
    store, and the two object keys, each with its inverse. */
module Lake {
  import opened Common

  /** One curated row, columns in the schema's order. The four prices and the
      volume stay opaque provider values: their float parsing is not modelled. */
  datatype PriceRow = PriceRow(
    symbol: string, date: string,
    open: Json, high: Json, low: Json, close: Json, volume: Json)

  /** What a key of the object store holds: a raw JSON document or a curated table. */
  datatype StoredObject = JsonDoc(payload: Payload) | CsvTable(rows: seq<PriceRow>)

  type Store = map<string, StoredObject>

  const RawPrefix: string := "raw/alphavantage/daily/symbol="
  const DtMarker: string := "/dt="
  const RawSuffix: string := "/data.json"
  const CuratedPrefix: string := "curated/prices_daily_csv/dt="
  const CuratedSuffix: string := "/prices_daily.csv"

  /** The key of the raw partition of one symbol on one run date. */
  function RawKey(sym: string, dt: string): (key: string)
    ensures |key| == |RawPrefix| + |sym| + |DtMarker| + |dt| + |RawSuffix|
    ensures key[..|RawPrefix|] == RawPrefix
  {
    RawPrefix + sym + DtMarker + dt + RawSuffix
  }

  /** The inverse of RawKey for a known run date. */
  function SymbolOfRawKey(key: string, dt: string): Option<string>
  {
    var tail := DtMarker + dt + RawSuffix;
    if |key| >= |RawPrefix| + |tail| && key[..|RawPrefix|] == RawPrefix && key[|key| - |tail|..] == tail
    then Some(key[|RawPrefix|..|key| - |tail|])
    else None
  }

  lemma RawKeyRoundTrip(sym: string, dt: string)
    ensures SymbolOfRawKey(RawKey(sym, dt), dt) == Some(sym)
  {
    var key, tail := RawKey(sym, dt), DtMarker + dt + RawSuffix;
    assert key == RawPrefix + sym + tail;
    assert key[|key| - |tail|..] == tail;
    assert key[|RawPrefix|..|key| - |tail|] == sym;
  }

  lemma SymbolOfRawKeyExact(key: string, dt: string)
    requires SymbolOfRawKey(key, dt).Some?
    ensures key == RawKey(SymbolOfRawKey(key, dt).value, dt)
  {
    var tail := DtMarker + dt + RawSuffix;
    var sym := SymbolOfRawKey(key, dt).value;
    assert key == key[..|RawPrefix|] + key[|RawPrefix|..|key| - |tail|] + key[|key| - |tail|..];
    assert RawKey(sym, dt) == RawPrefix + sym + tail;
  }

  /** For one run date, distinct symbols never share a raw key. */
  lemma RawKeyInjective(a: string, b: string, dt: string)
    requires RawKey(a, dt) == RawKey(b, dt)
    ensures a == b
  {
    RawKeyRoundTrip(a, dt);
    RawKeyRoundTrip(b, dt);
  }

  /** The position of the first `/` at or after position i (|k| if none). */
  function SlashIndex(k: string, i: nat): (j: nat)
    requires i <= |k|
    ensures i <= j <= |k|
    decreases |k| - i
  {
    if i == |k| || k[i] == '/' then i else SlashIndex(k, i + 1)
  }

  lemma {:induction false} SlashIndexAt(k: string, i: nat, j: nat)
    requires i <= j < |k| && k[j] == '/'
    requires forall m :: i <= m < j ==> k[m] != '/'
    ensures SlashIndex(k, i) == j
    decreases j - i
  {
    if i < j {
      SlashIndexAt(k, i + 1, j);
    }
  }

  /** In a raw key, the symbol ends at the first `/` after the prefix. */
  lemma SlashAfterSymbol(sym: string, dt: string)
    requires '/' !in sym
    ensures SlashIndex(RawKey(sym, dt), |RawPrefix|) == |RawPrefix| + |sym|
  {
    var k, p := RawKey(sym, dt), |RawPrefix|;
    assert k == RawPrefix + sym + DtMarker + dt + RawSuffix;
    assert k[p + |sym|] == '/';
    forall m | p <= m < p + |sym|
      ensures k[m] != '/'
    {
      assert k[m] == sym[m - p];
    }
    SlashIndexAt(k, p, p + |sym|);
  }

  /** Across run dates the raw key is injective too, provided that the symbols
      hold no `/`. */
  lemma RawKeyJointlyInjective(s1: string, d1: string, s2: string, d2: string)
    requires '/' !in s1 && '/' !in s2
    requires RawKey(s1, d1) == RawKey(s2, d2)
    ensures s1 == s2 && d1 == d2
  {
    var k, p := RawKey(s1, d1), |RawPrefix|;
    assert k == RawPrefix + s1 + DtMarker + d1 + RawSuffix;
    assert k == RawPrefix + s2 + DtMarker + d2 + RawSuffix;
    SlashAfterSymbol(s1, d1);
    SlashAfterSymbol(s2, d2);
    assert s1 == k[p..p + |s1|] == s2;
    var q := p + |s1| + |DtMarker|;
    assert d1 == k[q..q + |d1|] == d2;
  }

  /** The key of the curated partition of one run date. */
  function CuratedKey(dt: string): (key: string)
    ensures |key| == |CuratedPrefix| + |dt| + |CuratedSuffix|
    ensures key[..|CuratedPrefix|] == CuratedPrefix
  {
    CuratedPrefix + dt + CuratedSuffix
  }

  /** The inverse of CuratedKey. */
  function DateOfCuratedKey(key: string): Option<string>
  {
    if |key| >= |CuratedPrefix| + |CuratedSuffix|
       && key[..|CuratedPrefix|] == CuratedPrefix
       && key[|key| - |CuratedSuffix|..] == CuratedSuffix
    then Some(key[|CuratedPrefix|..|key| - |CuratedSuffix|])
    else None
  }

  lemma CuratedKeyRoundTrip(dt: string)
    ensures DateOfCuratedKey(CuratedKey(dt)) == Some(dt)
  {
    var key := CuratedKey(dt);
    assert key[|key| - |CuratedSuffix|..] == CuratedSuffix;
    assert key[|CuratedPrefix|..|key| - |CuratedSuffix|] == dt;
  }

  lemma DateOfCuratedKeyExact(key: string)
    requires DateOfCuratedKey(key).Some?
    ensures key == CuratedKey(DateOfCuratedKey(key).value)
  {
    var dt := DateOfCuratedKey(key).value;
    assert key == key[..|CuratedPrefix|] + key[|CuratedPrefix|..|key| - |CuratedSuffix|] + key[|key| - |CuratedSuffix|..];
  }

  /** The curated key depends on the run date alone, and determines it. */
  lemma CuratedKeyInjective(d1: string, d2: string)
    ensures CuratedKey(d1) == CuratedKey(d2) <==> d1 == d2
  {
    CuratedKeyRoundTrip(d1);
    CuratedKeyRoundTrip(d2);
  }

  /** Writing the curated partition never overwrites a raw partition. */
  lemma RawAndCuratedKeysDiffer(sym: string, d1: string, d2: string)
    ensures RawKey(sym, d1) != CuratedKey(d2)
  {
    assert RawKey(sym, d1)[0] == RawPrefix[0] == 'r';
    assert CuratedKey(d2)[0] == CuratedPrefix[0] == 'c';
  }
}
