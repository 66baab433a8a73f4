/** The price series that the chart replay walks over, and how it is loaded
    from the six parallel columns of the stored document (Data_analysis.py,
    load_data). Reading the file and parsing JSON are not modelled: the
    loader starts from the columns themselves. */
module Candles {

  /** One OHLCV sample. `time` is the epoch second the bucket starts at; the
      prices and the volume are payload that no property depends on. */
  datatype Candle = Candle(time: int, open: real, high: real, low: real, close: real, volume: real)

  /** The stored document: parallel columns `t, o, h, l, c, v`, where index i
      of every column describes one candle. */
  datatype RawColumns = RawColumns(
    t: seq<int>, o: seq<real>, h: seq<real>, l: seq<real>, c: seq<real>, v: seq<real>)

  /** Why building the table failed: the columns do not all have one length. */
  datatype LoadError = MismatchedColumns

  datatype Result<T> = Ok(value: T) | Err(error: LoadError)

  predicate SameLength(raw: RawColumns) {
    |raw.o| == |raw.t| && |raw.h| == |raw.t| && |raw.l| == |raw.t| &&
    |raw.c| == |raw.t| && |raw.v| == |raw.t|
  }

  /** Row i of the table: the i-th entry of every column. */
  function Row(raw: RawColumns, i: nat): (r: Candle)
    requires SameLength(raw) && i < |raw.t|
  {
    Candle(raw.t[i], raw.o[i], raw.h[i], raw.l[i], raw.c[i], raw.v[i])
  }

  /** The columns with their first entry dropped. */
  function Rest(raw: RawColumns): (r: RawColumns)
    requires SameLength(raw) && |raw.t| > 0
  {
    RawColumns(raw.t[1..], raw.o[1..], raw.h[1..], raw.l[1..], raw.c[1..], raw.v[1..])
  }

  /** The table built from the columns, one record per index, in index order. */
  function Zip(raw: RawColumns): (rows: seq<Candle>)
    requires SameLength(raw)
    ensures |rows| == |raw.t|
    ensures forall i :: 0 <= i < |rows| ==> rows[i] == Row(raw, i)
    decreases |raw.t|
  {
    if |raw.t| == 0 then [] else [Row(raw, 0)] + Zip(Rest(raw))
  }

  /** The inverse of Zip: the table split back into its columns. */
  function Columns(rows: seq<Candle>): (raw: RawColumns)
    ensures SameLength(raw) && |raw.t| == |rows|
  {
    RawColumns(
      seq(|rows|, i requires 0 <= i < |rows| => rows[i].time),
      seq(|rows|, i requires 0 <= i < |rows| => rows[i].open),
      seq(|rows|, i requires 0 <= i < |rows| => rows[i].high),
      seq(|rows|, i requires 0 <= i < |rows| => rows[i].low),
      seq(|rows|, i requires 0 <= i < |rows| => rows[i].close),
      seq(|rows|, i requires 0 <= i < |rows| => rows[i].volume))
  }

  /** Zipping loses nothing: the columns come back from the table. */
  lemma ColumnsOfZip(raw: RawColumns)
    requires SameLength(raw)
    ensures Columns(Zip(raw)) == raw
  {
  }

  /** Splitting loses nothing: the table comes back from its columns. */
  lemma ZipOfColumns(rows: seq<Candle>)
    ensures Zip(Columns(rows)) == rows
  {
  }

  /** Non-decreasing order of time, which is all the sort promises: records
      with equal times may come in either order. */
  predicate SortedByTime(s: seq<Candle>) {
    forall i, j :: 0 <= i < j < |s| ==> s[i].time <= s[j].time
  }

  /** `x` placed into the sorted `s` before the first record later than it. */
  function Insert(x: Candle, s: seq<Candle>): (r: seq<Candle>)
    requires SortedByTime(s)
    ensures SortedByTime(r)
    ensures multiset(r) == multiset(s) + multiset{x}
    ensures |r| > 0 && (r[0] == x || (|s| > 0 && r[0] == s[0]))
  {
    if s == [] then [x]
    else if x.time <= s[0].time then
      SortedCons(x, s);
      [x] + s
    else
      assert s == [s[0]] + s[1..];
      var r := Insert(x, s[1..]);
      SortedCons(s[0], r);
      [s[0]] + r
  }

  /** A record no later than the head of a sorted sequence can go in front. */
  lemma SortedCons(a: Candle, r: seq<Candle>)
    requires SortedByTime(r)
    requires |r| > 0 ==> a.time <= r[0].time
    ensures SortedByTime([a] + r)
  {
  }

  /** The records in non-decreasing order of time, as `sort_values("time")`
      arranges them. The sort is not stable, so only the order of times and
      the multiset of records are promised, and SortedArrangementIsUnique
      shows that nothing more can be observed when time is a key. */
  function SortByTime(s: seq<Candle>): (r: seq<Candle>)
    ensures SortedByTime(r)
    ensures multiset(r) == multiset(s)
  {
    if s == [] then []
    else
      assert s == [s[0]] + s[1..];
      Insert(s[0], SortByTime(s[1..]))
  }

  /** Loading: build the table from the columns and sort it by time. Unequal
      columns are refused, as building the data frame refuses them; the
      result keeps every row and holds nothing else. */
  function LoadData(raw: RawColumns): (r: Result<seq<Candle>>)
    ensures r.Ok? <==> SameLength(raw)
    ensures r.Err? ==> r.error == MismatchedColumns
    ensures r.Ok? ==> |r.value| == |raw.t|
    ensures r.Ok? ==> SortedByTime(r.value)
    ensures r.Ok? ==> multiset(r.value) == multiset(Zip(raw))
  {
    if !SameLength(raw) then Err(MismatchedColumns)
    else
      var rows := Zip(raw);
      var sorted := SortByTime(rows);
      assert |sorted| == |multiset(sorted)| == |multiset(rows)| == |rows|;
      Ok(sorted)
  }

  /** Time is a key of `s`: two records with the same time are the same record. */
  predicate TimeIsKey(s: seq<Candle>) {
    forall x, y :: x in s && y in s && x.time == y.time ==> x == y
  }

  /** When time is a key there is only one sorted arrangement of a collection
      of records, so which sort algorithm the loader uses (stable or not)
      cannot be observed. */
  lemma {:induction false} SortedArrangementIsUnique(a: seq<Candle>, b: seq<Candle>)
    requires SortedByTime(a) && SortedByTime(b)
    requires multiset(a) == multiset(b)
    requires TimeIsKey(a)
    ensures a == b
    decreases |a|
  {
    if a == [] {
      assert |b| == |multiset(b)| == 0;
    } else {
      assert |b| == |multiset(b)| == |multiset(a)| == |a|;
      SameHead(a, b);
      MultisetOfTail(a);
      MultisetOfTail(b);
      KeyOfTail(a);
      SortedArrangementIsUnique(a[1..], b[1..]);
      assert a == [a[0]] + a[1..];
      assert b == [b[0]] + b[1..];
    }
  }

  lemma MultisetOfTail(s: seq<Candle>)
    requires |s| > 0
    ensures multiset(s[1..]) == multiset(s) - multiset{s[0]}
  {
    assert s == [s[0]] + s[1..];
  }

  lemma KeyOfTail(s: seq<Candle>)
    requires |s| > 0 && TimeIsKey(s)
    ensures TimeIsKey(s[1..])
  {
  }

  /** The first records of two sorted arrangements have the least time, so
      they agree when time is a key. */
  lemma SameHead(a: seq<Candle>, b: seq<Candle>)
    requires SortedByTime(a) && SortedByTime(b)
    requires multiset(a) == multiset(b)
    requires TimeIsKey(a)
    requires |a| > 0 && |b| > 0
    ensures a[0] == b[0]
  {
    assert a[0] in multiset(b);
    var j :| 0 <= j < |b| && b[j] == a[0];
    assert b[0] in multiset(a);
    var k :| 0 <= k < |a| && a[k] == b[0];
    assert a[0].time <= a[k].time;
    assert b[0].time <= b[j].time;
  }

  /** So, when no two different rows share a time, every sorted permutation
      of the rows is exactly what the loader returns. */
  lemma LoadDataIsDetermined(raw: RawColumns, other: seq<Candle>)
    requires SameLength(raw) && TimeIsKey(Zip(raw))
    requires SortedByTime(other) && multiset(other) == multiset(Zip(raw))
    ensures LoadData(raw) == Ok(other)
  {
    var loaded := LoadData(raw).value;
    forall x, y | x in loaded && y in loaded && x.time == y.time
      ensures x == y
    {
      assert x in multiset(loaded) && y in multiset(loaded);
      assert x in Zip(raw) && y in Zip(raw);
    }
    SortedArrangementIsUnique(loaded, other);
  }
}
