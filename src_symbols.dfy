/** The older five-column bar store of src/symbols.py: dates and the Open, High, Low,
    Close and Volume columns of one upper-cased symbol, with no Ref Price column. Its
    symbol classifiers are the ones of the Markets module. */
module SrcSymbols {
  import opened Base
  import opened Markets

  /** The five columns, one value per date. */
  datatype FiveColumns = FiveColumns(open: seq<real>, high: seq<real>, low: seq<real>,
                                     close: seq<real>, volume: seq<int>)
  {
    /** Every column holds n values. */
    predicate Uniform(n: nat)
    {
      |open| == n && |high| == n && |low| == n && |close| == n && |volume| == n
    }

    /** One more value at the end of every column. */
    function Push(o: real, h: real, l: real, c: real, v: int): (r: FiveColumns)
      ensures forall n: nat :: Uniform(n) ==> r.Uniform(n + 1)
    {
      FiveColumns(open + [o], high + [h], low + [l], close + [c], volume + [v])
    }
  }

  const NoColumns := FiveColumns([], [], [], [], [])

  /** A push stores the given values at the next index and keeps the earlier rows. */
  lemma PushStoresRow(cs: FiveColumns, n: nat, o: real, h: real, l: real, c: real, v: int)
    requires cs.Uniform(n)
    ensures var d := cs.Push(o, h, l, c, v);
      && d.open[n] == o && d.high[n] == h && d.low[n] == l && d.close[n] == c && d.volume[n] == v
      && d.open[..n] == cs.open && d.high[..n] == cs.high && d.low[..n] == cs.low
      && d.close[..n] == cs.close && d.volume[..n] == cs.volume
  {
  }

  /** The symbol, the date index and the five columns. */
  class SymbolData {
    const symbol: string
    var dateIndex: seq<DateTime>
    var columns: FiveColumns

    ghost predicate Valid()
      reads this
    {
      Upper(symbol) == symbol && columns.Uniform(|dateIndex|)
    }

    /** `SymbolData(symbol)` without data: the symbol upper-cased, no dates, five empty
        columns. */
    constructor (symbol: string)
      ensures Valid()
      ensures this.symbol == Upper(symbol) && dateIndex == [] && columns == NoColumns
    {
      UpperIdempotent(symbol);
      this.symbol := Upper(symbol);
      dateIndex := [];
      columns := NoColumns;
    }

    /** `append_bar(date, open_, high, low, close, volume)`: one more date and one more
        value in each column, stored as given (the conversion of an integer timestamp to
        a datetime is the identity on this model's timestamps). */
    method AppendBar(date: DateTime, o: real, h: real, l: real, c: real, v: int)
      requires Valid()
      modifies this
      ensures Valid()
      ensures dateIndex == old(dateIndex) + [date]
      ensures columns == old(columns).Push(o, h, l, c, v)
    {
      dateIndex := dateIndex + [date];
      columns := columns.Push(o, h, l, c, v);
    }
  }
}
