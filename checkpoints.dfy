/**
  Resuming from a checkpoint: a table written by an earlier run, indexed by
  time, with a `<pair>_price` column and a `volume` column. It gives the start
  cursor (the last index entry) and the prefix of the final dataset.
 */
module Checkpoints {
  import opened Trades

  /** The checkpoint's index as read from the file. `Numeric` is a float
      index of epoch seconds, held here already scaled to nanoseconds; any
      other index is handed to a date parser, whose per-entry result in
      nanoseconds (None when it cannot parse the entry) is given here. */
  datatype Index =
    | Numeric(epoch: seq<int>)
    | Textual(parsed: seq<Option<int>>)

  /** A table read from a checkpoint file: its index and its named columns. */
  datatype Table = Table(index: Index, columns: map<string, seq<Quantity>>)

  /** Where a run resumes: the cursor and the rows already known. */
  datatype Start = Start(cursor: int, index: seq<int>, prices: seq<Quantity>, volumes: seq<Quantity>)

  const VOLUME_COLUMN := "volume"

  /** The name of the price column for a currency pair. */
  function PriceColumn(pair: string): (name: string)
    ensures |name| == |pair| + 6 && name[..|pair|] == pair && name[|pair|..] == "_price"
    ensures name != VOLUME_COLUMN
  {
    var name := pair + "_price";
    assert name[|pair|] == '_' != VOLUME_COLUMN[0];
    name
  }

  function IndexLength(i: Index): nat
  {
    match i
    case Numeric(epoch) => |epoch|
    case Textual(parsed) => |parsed|
  }

  /** Every column has one entry per index entry, as in any table read from a file. */
  predicate WellFormed(t: Table)
  {
    forall name :: name in t.columns ==> |t.columns[name]| == IndexLength(t.index)
  }

  /** The index as times; None when some textual entry does not parse. */
  function ParseIndex(i: Index): (r: Option<seq<int>>)
    ensures r.Some? <==> i.Numeric? || forall k :: 0 <= k < |i.parsed| ==> i.parsed[k].Some?
    ensures r.Some? ==> |r.value| == IndexLength(i)
    ensures r.Some? && i.Numeric? ==> r.value == i.epoch
    ensures r.Some? && i.Textual? ==> forall k :: 0 <= k < |r.value| ==> i.parsed[k] == Some(r.value[k])
  {
    match i
    case Numeric(epoch) => Some(epoch)
    case Textual(parsed) =>
      if forall k :: 0 <= k < |parsed| ==> parsed[k].Some? then
        Some(seq(|parsed|, k requires 0 <= k < |parsed| && parsed[k].Some? => parsed[k].value))
      else None
  }

  /** The resume point for `pair` from an optional checkpoint, with the
      source's failures in the order it meets them: a missing price column,
      a missing volume column, an index that does not parse, no last row.
      Without a checkpoint the placeholder index `[0]` has no timestamp, so
      that path fails too. */
  function Resume(pair: string, input: Option<Table>): (r: Result<Start, Error>)
    ensures input.None? ==> r == Err(NoTimestampMethod)
    ensures input.Some? && PriceColumn(pair) !in input.value.columns ==>
      r == Err(MissingColumn(PriceColumn(pair)))
    ensures input.Some? && PriceColumn(pair) in input.value.columns && VOLUME_COLUMN !in input.value.columns ==>
      r == Err(MissingColumn(VOLUME_COLUMN))
    ensures input.Some? && PriceColumn(pair) in input.value.columns && VOLUME_COLUMN in input.value.columns ==>
      match ParseIndex(input.value.index)
      case None => r == Err(MalformedIndex)
      case Some(times) =>
        if times == [] then r == Err(EmptyCheckpoint)
        else r == Ok(Start(times[|times| - 1], times,
                           input.value.columns[PriceColumn(pair)], input.value.columns[VOLUME_COLUMN]))
    ensures r.Ok? && WellFormed(input.value) ==>
      |r.value.index| == |r.value.prices| == |r.value.volumes| > 0
      && r.value.cursor == r.value.index[|r.value.index| - 1]
  {
    match input
    case None => Err(NoTimestampMethod)
    case Some(table) =>
      if PriceColumn(pair) !in table.columns then Err(MissingColumn(PriceColumn(pair)))
      else if VOLUME_COLUMN !in table.columns then Err(MissingColumn(VOLUME_COLUMN))
      else
        match ParseIndex(table.index)
        case None => Err(MalformedIndex)
        case Some(times) =>
          if times == [] then Err(EmptyCheckpoint)
          else Ok(Start(times[|times| - 1], times, table.columns[PriceColumn(pair)], table.columns[VOLUME_COLUMN]))
  }
}
