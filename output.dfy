/**
  Putting the data together: the checkpoint's rows first, then the rows the
  loop fetched, as one table, and the name of the file it goes to.
 */
module Output {
  import opened Trades
  import opened Checkpoints
  import opened Pagination

  /** The table written at the end of a run: a time index and two columns. */
  datatype Dataset = Dataset(priceColumn: string, index: seq<int>, prices: seq<Quantity>, volumes: seq<Quantity>)

  /** The merged table. Each column is the checkpoint part followed by the
      fetched part, with no re-sorting; the table exists only when the two
      columns and the index come out the same length. */
  function Merge(pair: string, start: Start, fetched: State): (r: Result<Dataset, Error>)
    ensures r.Ok? <==>
      |start.prices| + |fetched.prices| == |start.volumes| + |fetched.volumes| == |start.index| + |fetched.timestamps|
    ensures r.Err? ==> r.error == ShapeMismatch
    ensures r.Ok? ==>
      && r.value.priceColumn == PriceColumn(pair)
      && Splits(r.value.index, start.index, fetched.timestamps)
      && Splits(r.value.prices, start.prices, fetched.prices)
      && Splits(r.value.volumes, start.volumes, fetched.volumes)
  {
    var prices := start.prices + fetched.prices;
    var volumes := start.volumes + fetched.volumes;
    var index := start.index + fetched.timestamps;
    if |prices| != |volumes| then Err(ShapeMismatch)       // the two columns cannot be stacked
    else if |index| != |prices| then Err(ShapeMismatch)    // the index does not fit the rows
    else Ok(Dataset(PriceColumn(pair), index, prices, volumes))
  }

  /** A checkpoint prefix and loop buffers that are each aligned always merge,
      into a table whose length is the sum of the two parts. */
  lemma AlignedMerges(pair: string, start: Start, fetched: State)
    requires |start.index| == |start.prices| == |start.volumes|
    requires Aligned(fetched)
    ensures Merge(pair, start, fetched).Ok?
    ensures |Merge(pair, start, fetched).value.prices| == |start.prices| + |fetched.prices|
  {
  }

  /** The placeholder prefix of a run without checkpoint, index `[0]` and empty
      columns, would leave the index one entry longer than the rows: with any
      aligned loop buffers the merge fails. */
  lemma PlaceholderMisaligns(pair: string, fetched: State)
    requires Aligned(fetched)
    ensures Merge(pair, Start(0, [0], [], []), fetched) == Err(ShapeMismatch)
  {
  }

  /** When the checkpoint index is in order and every fetched time lies in
      order strictly after its last entry, the merged index is in order and no
      fetched row repeats a checkpoint time. */
  lemma MergeKeepsOrder(pair: string, start: Start, fetched: State)
    requires Merge(pair, start, fetched).Ok?
    requires start.index != [] && start.cursor == start.index[|start.index| - 1]
    requires Sorted(start.index) && Sorted(fetched.timestamps) && AllAbove(fetched.timestamps, start.cursor)
    ensures Sorted(Merge(pair, start, fetched).value.index)
    ensures forall i, j :: 0 <= i < |start.index| && 0 <= j < |fetched.timestamps| ==>
      start.index[i] < fetched.timestamps[j]
  {
    assert AllAtMost(start.index, start.cursor);
    SortedConcat(start.index, fetched.timestamps, start.cursor);
    assert Merge(pair, start, fetched).value.index == start.index + fetched.timestamps;
  }

  /** The output file: the pair's name unless an output name was given. */
  function OutputName(pair: string, outputFile: string): (name: string)
    ensures outputFile == [] ==> name == pair
    ensures outputFile != [] ==> name == outputFile
  {
    if |outputFile| == 0 then pair else outputFile
  }
}
