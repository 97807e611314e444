/** Market data containers of quant/markets.py: symbol classification, the
    column store of price bars (SymbolData) with its chunked aggregation, and
    the most-recent-bar cache (WatchList). src/markets.py keeps the same
    SymbolData (a different dictionary order of the same six columns, no
    float conversion) and the same classifiers, so it is modelled here too. */
module Markets {
  import opened Base

  /** A moment in time, in whole seconds (timezone handling is not modelled). */
  type DateTime = int

  /** One OHLC observation for a symbol; prices are exact. */
  datatype TickBar = TickBar(symbol: string, date: DateTime, open: real, high: real, low: real,
                             close: real, wap: real, volume: int)

  /** The bar resolutions of historical requests, with their length in seconds. */
  datatype Resolution = TICK | FIVE_SEC | MINUTE | DAY | WEEK | MONTH
  {
    function Seconds(): nat
    {
      match this
      case TICK => 0
      case FIVE_SEC => 5
      case MINUTE => 60
      case DAY => 60 * 60 * 24
      case WEEK => 60 * 60 * 24 * 7
      case MONTH => 60 * 60 * 24 * 7 * 30
    }
  }

  /** The enumeration's values are pairwise distinct, so no member is an alias of
      another, and only TICK has length 0. */
  lemma ResolutionSeconds(a: Resolution, b: Resolution)
    ensures a != b ==> a.Seconds() != b.Seconds()
    ensures a.Seconds() == 0 <==> a == TICK
  {
  }

  // ---------------------------------------------------------------------
  // Symbols

  /** `Symbols.is_crypto`: the upper-cased symbol is BTC or ETH. */
  predicate IsCrypto(symbol: string)
  {
    Upper(symbol) in {"BTC", "ETH"}
  }

  /** `Symbols.is_forex`: the upper-cased symbol is EUR or BTC. */
  predicate IsForex(symbol: string)
  {
    Upper(symbol) in {"EUR", "BTC"}
  }

  /** Both classifiers ignore case: classifying the upper-cased symbol gives the same answer. */
  lemma ClassifiersIgnoreCase(symbol: string)
    ensures IsCrypto(Upper(symbol)) == IsCrypto(symbol)
    ensures IsForex(Upper(symbol)) == IsForex(symbol)
  {
    UpperIdempotent(symbol);
  }

  /** For every symbol, whatever its case: BTC is both crypto and forex, ETH only crypto,
      EUR only forex, and every other symbol neither. */
  lemma ClassifierTable(symbol: string)
    ensures IsCrypto(symbol) && IsForex(symbol) <==> Upper(symbol) == "BTC"
    ensures IsCrypto(symbol) && !IsForex(symbol) <==> Upper(symbol) == "ETH"
    ensures !IsCrypto(symbol) && IsForex(symbol) <==> Upper(symbol) == "EUR"
    ensures !IsCrypto(symbol) && !IsForex(symbol) <==> Upper(symbol) !in {"BTC", "ETH", "EUR"}
  {
    assert "BTC" != "ETH" && "BTC" != "EUR" && "ETH" != "EUR" by {
      assert "BTC"[0] != "ETH"[0] && "BTC"[0] != "EUR"[0] && "ETH"[1] != "EUR"[1];
    }
  }

  /** The classifiers on symbols written in either case. */
  lemma ClassifierExamples()
    ensures IsCrypto("btc") && IsForex("btc")
    ensures IsCrypto("ETH") && !IsForex("ETH")
    ensures !IsCrypto("eur") && IsForex("eur")
    ensures !IsCrypto("AAPL") && !IsForex("AAPL")
  {
    assert Upper("btc") == "BTC";
    assert Upper("eur") == "EUR";
    assert Upper("ETH") == "ETH";
    assert Upper("AAPL") == "AAPL";
  }

  // ---------------------------------------------------------------------
  // Aggregates used by condense

  function First(s: seq<real>): real
  {
    if |s| > 0 then s[0] else 0.0
  }

  function LastPrice(s: seq<real>): real
  {
    if |s| > 0 then s[|s| - 1] else 0.0
  }

  function LastDate(s: seq<DateTime>): DateTime
  {
    if |s| > 0 then s[|s| - 1] else 0
  }

  /** The Ref Price aggregate: the chunk sum divided by the factor. */
  function SumOver(f: nat): seq<real> -> real
    requires f > 0
  {
    s => Total(s) / (f as real)
  }

  /** `min(s)` of a non-empty list: an element no larger than any other. */
  function MinOf(s: seq<real>): (m: real)
    ensures |s| > 0 ==> m in s
    ensures forall i :: 0 <= i < |s| ==> m <= s[i]
    decreases |s|
  {
    if |s| == 0 then 0.0
    else if |s| == 1 then s[0]
    else
      var rest := MinOf(s[1..]);
      if s[0] <= rest then s[0] else rest
  }

  /** `max(s)` of a non-empty list: an element no smaller than any other. */
  function MaxOf(s: seq<real>): (m: real)
    ensures |s| > 0 ==> m in s
    ensures forall i :: 0 <= i < |s| ==> s[i] <= m
    decreases |s|
  {
    if |s| == 0 then 0.0
    else if |s| == 1 then s[0]
    else
      var rest := MaxOf(s[1..]);
      if s[0] >= rest then s[0] else rest
  }

  function Total(s: seq<real>): real
  {
    if s == [] then 0.0 else s[0] + Total(s[1..])
  }

  function TotalInt(s: seq<int>): int
  {
    if s == [] then 0 else s[0] + TotalInt(s[1..])
  }

  /** Number of chunks of size f needed for n items. */
  function Chunks(n: nat, f: nat): nat
    requires f > 0
    decreases n
  {
    if n == 0 then 0 else if n <= f then 1 else 1 + Chunks(n - f, f)
  }

  /** The reference definition of chunking: aggregate the first f items, then the rest. */
  function Chunked<T, U>(s: seq<T>, f: nat, agg: seq<T> -> U): seq<U>
    requires f > 0
    decreases |s|
  {
    if |s| == 0 then []
    else if |s| <= f then [agg(s)]
    else [agg(s[..f])] + Chunked(s[f..], f, agg)
  }

  /** Chunk k of s: the items from k*f up to (k+1)*f, cut at the end of s. */
  function Chunk<T>(s: seq<T>, f: nat, k: nat): seq<T>
    requires f > 0 && k * f < |s|
  {
    s[k * f .. if k * f + f < |s| then k * f + f else |s|]
  }

  lemma MulMono(a: int, b: int, f: int)
    requires a <= b && f >= 0
    ensures a * f <= b * f
  {
    assert b * f - a * f == (b - a) * f;
  }

  /** Integer division is determined by quotient and remainder. */
  lemma DivUnique(a: int, b: int, r: int, f: int)
    requires f > 0 && 0 <= r < f && a == b * f + r
    ensures a / f == b
  {
    var q, m := a / f, a % f;
    assert a == q * f + m && 0 <= m < f;
    if q > b {
      MulMono(b + 1, q, f);
    } else if q < b {
      MulMono(q + 1, b, f);
    }
  }

  /** For t >= 0: t*f <= q exactly when t <= q / f. */
  lemma DivLe(t: nat, q: nat, f: nat)
    requires f > 0
    ensures t * f <= q <==> t <= q / f
  {
    var d, r := q / f, q % f;
    assert q == d * f + r && 0 <= r < f;
    if t <= d {
      MulMono(t, d, f);
    } else {
      MulMono(d + 1, t, f);
      assert (d + 1) * f == d * f + f;
    }
  }

  /** The chunk count is the ceiling of n / f. */
  lemma {:induction false} ChunksIsCeiling(n: nat, f: nat)
    requires f > 0
    ensures Chunks(n, f) == (n + f - 1) / f
    decreases n
  {
    if n == 0 {
      DivUnique(f - 1, 0, f - 1, f);
    } else if n <= f {
      DivUnique(n + f - 1, 1, n - 1, f);
    } else {
      ChunksIsCeiling(n - f, f);
      var q, r := (n - 1) / f, (n - 1) % f;
      assert n + f - 1 == (q + 1) * f + r;
      DivUnique(n + f - 1, q + 1, r, f);
    }
  }

  /** Chunk k exists exactly when it starts inside the n items. */
  lemma {:induction false} ChunkBounds(n: nat, f: nat, k: nat)
    requires f > 0
    ensures k < Chunks(n, f) <==> k * f < n
    decreases n
  {
    MulMono(0, k, f);
    if n == 0 {
    } else if n <= f {
      if k >= 1 { MulMono(1, k, f); }
    } else if k > 0 {
      ChunkBounds(n - f, f, k - 1);
      assert (k - 1) * f == k * f - f;
    }
  }

  /** Chunked yields Chunks(|s|, f) aggregates. */
  lemma {:induction false} ChunkedLength<T, U>(s: seq<T>, f: nat, agg: seq<T> -> U)
    requires f > 0
    ensures |Chunked(s, f, agg)| == Chunks(|s|, f)
    decreases |s|
  {
    if |s| > f {
      ChunkedLength(s[f..], f, agg);
    }
  }

  /** Past the first chunk, chunk k of s is chunk k-1 of the rest. */
  lemma ChunkShift<T>(s: seq<T>, f: nat, k: nat)
    requires f > 0 && k > 0 && k * f < |s| && f < |s|
    ensures (k - 1) * f < |s[f..]|
    ensures Chunk(s[f..], f, k - 1) == Chunk(s, f, k)
  {
    var t, a := s[f..], (k - 1) * f;
    assert a == k * f - f;
    var b := if a + f < |t| then a + f else |t|;
    assert Chunk(t, f, k - 1) == t[a..b];
    assert t[a..b] == s[a + f..b + f];
  }

  /** Aggregate k of Chunked is the aggregate of chunk k. */
  lemma {:induction false} ChunkedAt<T, U>(s: seq<T>, f: nat, agg: seq<T> -> U, k: nat)
    requires f > 0 && k * f < |s|
    ensures |Chunked(s, f, agg)| == Chunks(|s|, f) && k < Chunks(|s|, f)
    ensures Chunked(s, f, agg)[k] == agg(Chunk(s, f, k))
    decreases |s|
  {
    ChunkedLength(s, f, agg);
    ChunkBounds(|s|, f, k);
    if |s| <= f {
      assert k == 0 by {
        if k >= 1 { MulMono(1, k, f); }
      }
      assert Chunk(s, f, 0) == s;
    } else if k > 0 {
      ChunkShift(s, f, k);
      ChunkedAt(s[f..], f, agg, k - 1);
    } else {
      assert Chunk(s, f, 0) == s[..f];
    }
  }

  /** The first k+1 aggregates are the first k followed by the aggregate of chunk k. */
  lemma ChunkedPrefix<T, U>(s: seq<T>, f: nat, agg: seq<T> -> U, k: nat)
    requires f > 0 && k * f < |s|
    ensures |Chunked(s, f, agg)| == Chunks(|s|, f) && k < Chunks(|s|, f)
    ensures Chunked(s, f, agg)[..k + 1] == Chunked(s, f, agg)[..k] + [agg(Chunk(s, f, k))]
  {
    ChunkedAt(s, f, agg, k);
    var t := Chunked(s, f, agg);
    assert t[..k + 1] == t[..k] + [t[k]];
  }

  /** The six value columns of a SymbolData, keyed by label in the source. */
  datatype Columns = Columns(open: seq<real>, high: seq<real>, low: seq<real>, close: seq<real>,
                             refPrice: seq<real>, volume: seq<int>)
  {
    /** Every column holds n values. */
    predicate Uniform(n: nat)
    {
      |open| == n && |high| == n && |low| == n && |close| == n && |refPrice| == n && |volume| == n
    }

    /** The first n values of every column. */
    function Take(n: nat): Columns
      requires |open| >= n && |high| >= n && |low| >= n && |close| >= n && |refPrice| >= n && |volume| >= n
    {
      Columns(open[..n], high[..n], low[..n], close[..n], refPrice[..n], volume[..n])
    }

    /** The columns with one more bar appended at the end. */
    function Push(bar: TickBar): (c: Columns)
      ensures forall n: nat :: Uniform(n) ==> c.Uniform(n + 1)
    {
      Columns(open + [bar.open], high + [bar.high], low + [bar.low], close + [bar.close],
              refPrice + [bar.wap], volume + [bar.volume])
    }
  }

  /** Taking as many values as every column holds keeps the columns whole. */
  lemma TakeAll(c: Columns, n: nat)
    requires c.Uniform(n)
    ensures c.Take(n) == c
  {
    assert c.open[..n] == c.open && c.high[..n] == c.high && c.low[..n] == c.low;
    assert c.close[..n] == c.close && c.refPrice[..n] == c.refPrice && c.volume[..n] == c.volume;
  }

  const EmptyColumns := Columns([], [], [], [], [], [])

  /** Pushing a bar onto columns of n values stores its fields at index n under their
      own labels (wap under Ref Price) and keeps the first n values. */
  lemma PushStoresBar(c: Columns, n: nat, bar: TickBar)
    requires c.Uniform(n)
    ensures var d := c.Push(bar);
      && d.open[n] == bar.open && d.high[n] == bar.high && d.low[n] == bar.low
      && d.close[n] == bar.close && d.refPrice[n] == bar.wap && d.volume[n] == bar.volume
      && d.Take(n) == c
  {
    var d := c.Push(bar);
    assert d.open[..n] == c.open && d.high[..n] == c.high && d.low[..n] == c.low;
    assert d.close[..n] == c.close && d.refPrice[..n] == c.refPrice && d.volume[..n] == c.volume;
  }

  /** The aggregated columns of condense(f): first open, max high, min low, last close,
      the chunk sum of Ref Price divided by f (also for a short last chunk), summed volume. */
  function CondensedColumns(c: Columns, f: nat): Columns
    requires f > 0
  {
    Columns(Chunked(c.open, f, First),
            Chunked(c.high, f, MaxOf),
            Chunked(c.low, f, MinOf),
            Chunked(c.close, f, LastPrice),
            Chunked(c.refPrice, f, SumOver(f)),
            Chunked(c.volume, f, TotalInt))
  }

  /** The condensed date index: the last date of each chunk. */
  function CondensedDates(dates: seq<DateTime>, f: nat): seq<DateTime>
    requires f > 0
  {
    Chunked(dates, f, LastDate)
  }

  /** Condensing n uniform columns gives ceil(n / f) bars in every column. */
  lemma CondensedUniform(dates: seq<DateTime>, c: Columns, f: nat)
    requires f > 0 && c.Uniform(|dates|)
    ensures |CondensedDates(dates, f)| == Chunks(|dates|, f)
    ensures CondensedColumns(c, f).Uniform(Chunks(|dates|, f))
  {
    ChunkedLength(dates, f, LastDate);
    ChunkedLength(c.open, f, First);
    ChunkedLength(c.high, f, MaxOf);
    ChunkedLength(c.low, f, MinOf);
    ChunkedLength(c.close, f, LastPrice);
    ChunkedLength(c.refPrice, f, SumOver(f));
    ChunkedLength(c.volume, f, TotalInt);
  }

  /** The aggregated bar of chunk k, as the loop of condense computes it: the date and
      close of the chunk's last bar, the open of its first, the largest high, the smallest
      low, the Ref Price sum divided by f and the volume sum. */
  function ChunkBar(symbol: string, dates: seq<DateTime>, c: Columns, f: nat, k: nat): TickBar
    requires f > 0 && c.Uniform(|dates|) && k * f < |dates|
  {
    var s := k * f;
    var e := if s + f < |dates| then s + f else |dates|;
    TickBar(symbol, LastDate(dates[s..e]), First(c.open[s..e]), MaxOf(c.high[s..e]), MinOf(c.low[s..e]),
            LastPrice(c.close[s..e]), SumOver(f)(c.refPrice[s..e]), TotalInt(c.volume[s..e]))
  }

  /** One more chunk of one column: the prefix grows by the aggregate of the chunk's slice. */
  lemma ColumnStep<T, U>(col: seq<T>, f: nat, agg: seq<T> -> U, k: nat, e: nat, v: U)
    requires f > 0 && k * f < |col|
    requires e == if k * f + f < |col| then k * f + f else |col|
    requires v == agg(col[k * f..e])
    ensures |Chunked(col, f, agg)| == Chunks(|col|, f) && k < Chunks(|col|, f)
    ensures Chunked(col, f, agg)[..k + 1] == Chunked(col, f, agg)[..k] + [v]
  {
    ChunkedPrefix(col, f, agg, k);
  }

  /** The fields of the bar of chunk k, with its bounds named. */
  lemma ChunkBarFields(symbol: string, dates: seq<DateTime>, c: Columns, f: nat, k: nat, e: nat)
    requires f > 0 && c.Uniform(|dates|) && k * f < |dates|
    requires e == if k * f + f < |dates| then k * f + f else |dates|
    ensures 0 <= k * f <= e <= |dates|
    ensures ChunkBar(symbol, dates, c, f, k)
         == TickBar(symbol, LastDate(dates[k * f..e]), First(c.open[k * f..e]), MaxOf(c.high[k * f..e]),
                    MinOf(c.low[k * f..e]), LastPrice(c.close[k * f..e]), SumOver(f)(c.refPrice[k * f..e]),
                    TotalInt(c.volume[k * f..e]))
  {
    MulMono(0, k, f);
  }

  /** One more chunk of the six value columns: taking k+1 condensed values is taking k
      and pushing the chunk's bar. */
  lemma ColumnsStep(n: nat, c: Columns, f: nat, k: nat, st: nat, e: nat, bar: TickBar)
    requires f > 0 && c.Uniform(n) && st == k * f && st < n
    requires k < Chunks(n, f) && CondensedColumns(c, f).Uniform(Chunks(n, f))
    requires e == if st + f < n then st + f else n
    requires bar.open == First(c.open[st..e]) && bar.high == MaxOf(c.high[st..e])
    requires bar.low == MinOf(c.low[st..e]) && bar.close == LastPrice(c.close[st..e])
    requires bar.wap == SumOver(f)(c.refPrice[st..e]) && bar.volume == TotalInt(c.volume[st..e])
    ensures CondensedColumns(c, f).Take(k + 1) == CondensedColumns(c, f).Take(k).Push(bar)
  {
    ColumnStep(c.open, f, First, k, e, bar.open);
    ColumnStep(c.high, f, MaxOf, k, e, bar.high);
    ColumnStep(c.low, f, MinOf, k, e, bar.low);
    ColumnStep(c.close, f, LastPrice, k, e, bar.close);
    ColumnStep(c.refPrice, f, SumOver(f), k, e, bar.wap);
    ColumnStep(c.volume, f, TotalInt, k, e, bar.volume);
    TakePush(CondensedColumns(c, f), k, bar);
  }

  /** One more chunk of the loop extends the condensed prefix by that chunk's bar. */
  lemma CondensedStep(symbol: string, dates: seq<DateTime>, c: Columns, f: nat, k: nat)
    requires f > 0 && c.Uniform(|dates|) && k * f < |dates|
    ensures k < Chunks(|dates|, f)
    ensures CondensedColumns(c, f).Uniform(Chunks(|dates|, f))
    ensures |CondensedDates(dates, f)| == Chunks(|dates|, f)
    ensures CondensedDates(dates, f)[..k + 1] == CondensedDates(dates, f)[..k] + [ChunkBar(symbol, dates, c, f, k).date]
    ensures CondensedColumns(c, f).Take(k + 1) == CondensedColumns(c, f).Take(k).Push(ChunkBar(symbol, dates, c, f, k))
  {
    var e := if k * f + f < |dates| then k * f + f else |dates|;
    var bar := ChunkBar(symbol, dates, c, f, k);
    ChunkBarFields(symbol, dates, c, f, k, e);
    CondensedUniform(dates, c, f);
    ChunkBounds(|dates|, f, k);
    ColumnStep(dates, f, LastDate, k, e, bar.date);
    ColumnsStep(|dates|, c, f, k, k * f, e, bar);
  }

  /** When every column's first k+1 values are its first k and then the bar's value,
      taking k+1 is taking k and pushing the bar. */
  lemma TakePush(cc: Columns, k: nat, bar: TickBar)
    requires |cc.open| > k && |cc.high| > k && |cc.low| > k && |cc.close| > k && |cc.refPrice| > k && |cc.volume| > k
    requires cc.open[..k + 1] == cc.open[..k] + [bar.open] && cc.high[..k + 1] == cc.high[..k] + [bar.high]
    requires cc.low[..k + 1] == cc.low[..k] + [bar.low] && cc.close[..k + 1] == cc.close[..k] + [bar.close]
    requires cc.refPrice[..k + 1] == cc.refPrice[..k] + [bar.wap] && cc.volume[..k + 1] == cc.volume[..k] + [bar.volume]
    ensures cc.Take(k + 1) == cc.Take(k).Push(bar)
  {
  }

  /** The bar of tests/test_markets.py: two bars condensed by 2 give one bar with open 100,
      high 120, low 80, close 115, Ref Price 95 and volume 17. */
  lemma CondenseTestCase()
    ensures var c := CondensedColumns(Columns([100.0, 100.0], [110.0, 120.0], [90.0, 80.0],
                                              [100.0, 115.0], [100.0, 90.0], [4, 13]), 2);
            c == Columns([100.0], [120.0], [80.0], [115.0], [95.0], [17])
  {
    var c := Columns([100.0, 100.0], [110.0, 120.0], [90.0, 80.0], [100.0, 115.0], [100.0, 90.0], [4, 13]);
    assert MaxOf([110.0, 120.0]) == 120.0;
    assert MinOf([90.0, 80.0]) == 80.0;
    assert Total([100.0, 90.0]) == 190.0;
    assert TotalInt([4, 13]) == 17;
  }

  /** A short final chunk still divides its Ref Price sum by the full factor. */
  lemma ShortChunkRefPrice()
    ensures CondensedColumns(Columns([1.0], [1.0], [1.0], [1.0], [100.0], [1]), 2).refPrice == [50.0]
  {
    assert Total([100.0]) == 100.0;
  }

  // ---------------------------------------------------------------------
  // SymbolData

  /** A column store of bars for one symbol (quant/markets.py and src/markets.py). */
  class SymbolData {
    const symbol: string
    var dateIndex: seq<DateTime>
    var columns: Columns

    ghost predicate Valid()
      reads this
    {
      Upper(symbol) == symbol && columns.Uniform(|dateIndex|)
    }

    /** `SymbolData(symbol)` without a data frame: upper-cased symbol, empty columns. */
    constructor (symbol: string)
      ensures this.symbol == Upper(symbol)
      ensures dateIndex == [] && columns == EmptyColumns
      ensures Valid()
    {
      UpperIdempotent(symbol);
      this.symbol := Upper(symbol);
      dateIndex := [];
      columns := EmptyColumns;
    }

    /** `__len__`: the number of dates. */
    function Length(): (n: nat)
      reads this
      requires Valid()
      ensures columns.Uniform(n)
    {
      |dateIndex|
    }

    /** `append_bar`: one more date and one more value in every column, stored as given. */
    method AppendBar(bar: TickBar)
      requires Valid()
      modifies this
      ensures Valid()
      ensures Length() == old(Length()) + 1
      ensures dateIndex == old(dateIndex) + [bar.date]
      ensures columns == old(columns).Push(bar)
    {
      dateIndex := dateIndex + [bar.date];
      columns := columns.Push(bar);
    }

    /** `tick_bar(i)` / `self[i]`: bar i rebuilt from the columns; a negative i counts
        from the end and an index outside the columns raises IndexError. */
    function TickBarAt(i: int): (r: Result<TickBar>)
      reads this
      requires Valid()
      ensures r.Ok? <==> -|dateIndex| <= i < |dateIndex|
      ensures r.Ok? ==> r.value.symbol == symbol
      ensures 0 <= i < |dateIndex| ==>
        && r.Ok? && r.value.date == dateIndex[i]
        && r.value.open == columns.open[i] && r.value.high == columns.high[i]
        && r.value.low == columns.low[i] && r.value.close == columns.close[i]
        && r.value.wap == columns.refPrice[i] && r.value.volume == columns.volume[i]
    {
      var n := |dateIndex|;
      if -n <= i < n then
        var j := if i < 0 then n + i else i;
        Ok(TickBar(symbol, dateIndex[j], columns.open[j], columns.high[j], columns.low[j],
                   columns.close[j], columns.refPrice[j], columns.volume[j]))
      else Err(IndexError)
    }

    /** `condense(factor)`: a new SymbolData of ceil(n / factor) aggregated bars. A zero
        factor raises ZeroDivisionError; a negative factor gives no bars at all. */
    method Condense(factor: int) returns (r: Result<SymbolData>)
      requires Valid()
      ensures r.Err? <==> factor == 0
      ensures r.Err? ==> r.error == ZeroDivisionError
      ensures r.Ok? ==> fresh(r.value) && r.value.Valid() && r.value.symbol == symbol
      ensures r.Ok? && factor < 0 ==> r.value.dateIndex == [] && r.value.columns == EmptyColumns
      ensures r.Ok? && factor > 0 ==>
        r.value.dateIndex == CondensedDates(dateIndex, factor) &&
        r.value.columns == CondensedColumns(columns, factor) &&
        r.value.Length() == Chunks(|dateIndex|, factor)
    {
      if factor == 0 {
        return Err(ZeroDivisionError);
      }
      var dates: seq<DateTime> := [];
      var cols := EmptyColumns;
      if factor > 0 {
        dates, cols := CondenseColumns(symbol, dateIndex, columns, factor);
      }
      var sd := new SymbolData(symbol);
      sd.dateIndex := dates;
      sd.columns := cols;
      return Ok(sd);
    }
  }

  /** The state of the condense loop after `tick` chunks: the produced dates and columns
      are the first `tick` entries of the reference result. */
  ghost predicate CondensedPrefix(dateIndex: seq<DateTime>, columns: Columns, f: nat, tick: nat,
                                  dates: seq<DateTime>, cols: Columns)
    requires f > 0 && columns.Uniform(|dateIndex|)
  {
    CondensedUniform(dateIndex, columns, f);
    && tick <= Chunks(|dateIndex|, f)
    && dates == CondensedDates(dateIndex, f)[..tick]
    && cols == CondensedColumns(columns, f).Take(tick)
  }

  /** Appending the bar of chunk `tick` keeps the loop state a prefix of the reference. */
  lemma CondensedPrefixStep(symbol: string, dateIndex: seq<DateTime>, columns: Columns, f: nat,
                            tick: nat, dates: seq<DateTime>, cols: Columns)
    requires f > 0 && columns.Uniform(|dateIndex|) && tick * f < |dateIndex|
    requires CondensedPrefix(dateIndex, columns, f, tick, dates, cols)
    ensures CondensedPrefix(dateIndex, columns, f, tick + 1,
                            dates + [ChunkBar(symbol, dateIndex, columns, f, tick).date],
                            cols.Push(ChunkBar(symbol, dateIndex, columns, f, tick)))
  {
    CondensedStep(symbol, dateIndex, columns, f, tick);
  }

  /** Once every chunk is produced, the prefix is the whole reference result. */
  lemma CondensedPrefixDone(dateIndex: seq<DateTime>, columns: Columns, f: nat,
                            dates: seq<DateTime>, cols: Columns)
    requires f > 0 && columns.Uniform(|dateIndex|)
    requires CondensedPrefix(dateIndex, columns, f, Chunks(|dateIndex|, f), dates, cols)
    ensures dates == CondensedDates(dateIndex, f) && cols == CondensedColumns(columns, f)
  {
    CondensedUniform(dateIndex, columns, f);
    var m := Chunks(|dateIndex|, f);
    TakeAll(CondensedColumns(columns, f), m);
    assert CondensedDates(dateIndex, f)[..m] == CondensedDates(dateIndex, f);
  }

  /** The loop of the source counts n / f + 1 ticks and stops early when a chunk would
      start at the end; it therefore runs exactly Chunks(n, f) times. */
  lemma CondenseLoopBound(n: nat, f: nat, tick: nat)
    requires f > 0 && tick <= Chunks(n, f)
    ensures Chunks(n, f) <= n / f + 1
    ensures tick < Chunks(n, f) <==> tick * f < n
    ensures tick < n / f + 1 ==> tick * f <= n
    ensures tick == n / f + 1 ==> tick == Chunks(n, f)
  {
    ChunkBounds(n, f, n / f + 1);
    DivLe(n / f + 1, n, f);
    ChunkBounds(n, f, tick);
    DivLe(tick, n, f);
  }

  /** The loop of `condense` for a positive factor: chunk `tick` starts at tick * f and
      the loop stops when that reaches the end of the n bars. */
  method CondenseColumns(symbol: string, dateIndex: seq<DateTime>, columns: Columns, f: nat)
    returns (dates: seq<DateTime>, cols: Columns)
    requires f > 0 && columns.Uniform(|dateIndex|)
    ensures dates == CondensedDates(dateIndex, f) && cols == CondensedColumns(columns, f)
    ensures |dates| == Chunks(|dateIndex|, f) && cols.Uniform(|dates|)
  {
    var cur := |dateIndex|;
    dates, cols := [], EmptyColumns;
    var newTicks := cur / f + 1;
    var tick := 0;
    while tick < newTicks
      invariant tick <= Chunks(cur, f)
      invariant CondensedPrefix(dateIndex, columns, f, tick, dates, cols)
      decreases newTicks - tick
    {
      CondenseLoopBound(cur, f, tick);
      var start := tick * f;
      if start == cur {
        break;
      }
      // the slice start .. min(start + f, cur), aggregated column by column
      var bar := ChunkBar(symbol, dateIndex, columns, f, tick);
      CondensedPrefixStep(symbol, dateIndex, columns, f, tick, dates, cols);
      dates := dates + [bar.date];
      cols := cols.Push(bar);
      tick := tick + 1;
    }
    CondenseLoopBound(cur, f, tick);
    CondensedPrefixDone(dateIndex, columns, f, dates, cols);
    CondensedUniform(dateIndex, columns, f);
  }

  // ---------------------------------------------------------------------
  // WatchList

  /** The (key, value) pairs of `m` in the order of `keys`. */
  function ItemsOf(keys: seq<string>, m: map<string, TickBar>): (r: seq<(string, TickBar)>)
    requires forall k :: k in keys ==> k in m
    ensures |r| == |keys|
    ensures forall i :: 0 <= i < |r| ==> r[i] == (keys[i], m[keys[i]])
  {
    if keys == [] then [] else [(keys[0], m[keys[0]])] + ItemsOf(keys[1..], m)
  }

  /** The most recent bar per symbol. `symbols` is the dictionary's key order
      (insertion order), `lastPrice` its contents. */
  class WatchList {
    var symbols: seq<string>
    var lastPrice: map<string, TickBar>

    ghost predicate Valid()
      reads this
    {
      && (forall i, j :: 0 <= i < j < |symbols| ==> symbols[i] != symbols[j])
      && (forall s :: s in lastPrice <==> s in symbols)
    }

    constructor ()
      ensures Valid() && symbols == [] && lastPrice == map[]
    {
      symbols := [];
      lastPrice := map[];
    }

    /** `watchlist[symbol]`: the stored bar, or KeyError. */
    function Get(symbol: string): (r: Result<TickBar>)
      reads this
      ensures r.Ok? <==> symbol in lastPrice
      ensures r.Ok? ==> r.value == lastPrice[symbol]
      ensures r.Err? ==> r.error == KeyError
    {
      if symbol in lastPrice then Ok(lastPrice[symbol]) else Err(KeyError)
    }

    /** `items()`: the (symbol, bar) pairs in key order. */
    function Items(): (r: seq<(string, TickBar)>)
      reads this
      requires Valid()
      ensures |r| == |symbols|
      ensures forall i :: 0 <= i < |r| ==> r[i] == (symbols[i], lastPrice[symbols[i]])
    {
      ItemsOf(symbols, lastPrice)
    }

    /** `last_close(symbol)`: the close of the stored bar, or KeyError. */
    function LastClose(symbol: string): (r: Result<real>)
      reads this
      ensures r.Ok? <==> symbol in lastPrice
      ensures r.Ok? ==> r.value == lastPrice[symbol].close
      ensures r.Err? ==> r.error == KeyError
    {
      if symbol in lastPrice then Ok(lastPrice[symbol].close) else Err(KeyError)
    }

    /** `__setitem__`, also the TickEvent observer: overwrite the stored bar; a new symbol
        goes to the end of the key order. */
    method Set(symbol: string, bar: TickBar)
      requires Valid()
      modifies this
      ensures Valid()
      ensures lastPrice == old(lastPrice)[symbol := bar]
      ensures symbols == if symbol in old(lastPrice) then old(symbols) else old(symbols) + [symbol]
      ensures Get(symbol) == Ok(bar) && LastClose(symbol) == Ok(bar.close)
      ensures forall s :: s != symbol ==> Get(s) == old(Get(s))
    {
      if symbol !in lastPrice {
        symbols := symbols + [symbol];
      }
      lastPrice := lastPrice[symbol := bar];
    }

    /** The TickEvent observer registered by the constructor: store the event's bar under its symbol. */
    method OnTick(bar: TickBar)
      requires Valid()
      modifies this
      ensures Valid()
      ensures lastPrice == old(lastPrice)[bar.symbol := bar]
      ensures symbols == if bar.symbol in old(lastPrice) then old(symbols) else old(symbols) + [bar.symbol]
    {
      Set(bar.symbol, bar);
    }

    /** `add_symbol(symbol, price)`: seed an upper-cased symbol with a volume-0 bar whose
        prices all equal `price`, only when the symbol is absent; `now` is the clock. */
    method AddSymbol(symbol: string, price: real, now: DateTime)
      requires Valid()
      modifies this
      ensures Valid()
      ensures Upper(symbol) in old(lastPrice) ==> lastPrice == old(lastPrice) && symbols == old(symbols)
      ensures Upper(symbol) !in old(lastPrice) ==>
        lastPrice == old(lastPrice)[Upper(symbol) := TickBar(Upper(symbol), now, price, price, price, price, price, 0)] &&
        symbols == old(symbols) + [Upper(symbol)]
    {
      var s := Upper(symbol);
      if s !in lastPrice {
        Set(s, TickBar(s, now, price, price, price, price, price, 0));
      }
    }
  }
}
