/**
  One run of the scraper: resume from the checkpoint, page through trades
  until the cursor reaches the clock or the loop is stopped, merge, and name
  the output file.
 */
module DataScraper {
  import opened Trades
  import opened Checkpoints
  import opened Pagination
  import opened Output

  /** The command-line settings the run reads. */
  datatype Args = Args(pair: string, outputFile: string, verbose: bool)

  /** What a run writes: the file name and the table, and why the loop stopped. */
  datatype Written = Written(file: string, data: Dataset, why: StopReason)

  /** The specification of a run, given the checkpoint (if any) and, for each
      loop iteration, the clock reading and the response. */
  function Outcome(args: Args, input: Option<Table>, ticks: seq<Tick>): (r: Result<Written, Error>)
    ensures r.Ok? ==> Resume(args.pair, input).Ok? && r.value.file == OutputName(args.pair, args.outputFile)
    ensures r.Ok? ==> r.value.why in {LiveEdge, Interrupted, Disconnected}
    ensures Resume(args.pair, input).Err? ==> r == Err(Resume(args.pair, input).error)
  {
    match Resume(args.pair, input)
    case Err(e) => Err(e)
    case Ok(start) =>
      var e := Drive(Initial(start.cursor), ticks, args.verbose);
      if e.why == Raised then Err(Uncaught)
      else if e.why == Exhausted then Err(Unfinished)
      else
        match Merge(args.pair, start, e.last)
        case Err(m) => Err(m)
        case Ok(data) => Ok(Written(OutputName(args.pair, args.outputFile), data, e.why))
  }

  /** A written dataset is the merge of the resumed prefix with the loop's final buffers. */
  lemma WrittenIsMerge(args: Args, input: Option<Table>, ticks: seq<Tick>)
    requires Outcome(args, input, ticks).Ok?
    ensures var start := Resume(args.pair, input).value;
      var e := Drive(Initial(start.cursor), ticks, args.verbose);
      && Merge(args.pair, start, e.last).Ok?
      && Outcome(args, input, ticks).value.data == Merge(args.pair, start, e.last).value
      && Outcome(args, input, ticks).value.why == e.why
  {
  }

  /** A run, with the loop's variables held in a `Pager`. */
  method Scrape(args: Args, input: Option<Table>, ticks: seq<Tick>) returns (r: Result<Written, Error>)
    ensures r == Outcome(args, input, ticks)
  {
    var resumed := Resume(args.pair, input);
    if resumed.Err? {
      return Err(resumed.error);
    }
    var start := resumed.value;
    var pager := new Pager(start.cursor);
    var why, fetches := pager.Run(ticks, args.verbose);
    if why == Raised {
      return Err(Uncaught);
    }
    if why == Exhausted {
      return Err(Unfinished);
    }
    var merged := Merge(args.pair, start, pager.Snapshot());
    if merged.Err? {
      return Err(merged.error);
    }
    r := Ok(Written(OutputName(args.pair, args.outputFile), merged.value, why));
  }

  /** A run that stops at the clock, on an interrupt or on a disconnect writes
      the checkpoint's rows followed by the rows of every page it requested,
      in order, whatever the checkpoint was. */
  lemma StopsWriteEverything(args: Args, table: Table, ticks: seq<Tick>)
    requires WellFormed(table) && Resume(args.pair, Some(table)).Ok?
    requires Drive(Initial(Resume(args.pair, Some(table)).value.cursor), ticks, args.verbose).why
      in {LiveEdge, Interrupted, Disconnected}
    ensures var start := Resume(args.pair, Some(table)).value;
      var e := Drive(Initial(start.cursor), ticks, args.verbose);
      var r := Outcome(args, Some(table), ticks);
      && r.Ok? && r.value.why == e.why
      && Splits(r.value.data.index, start.index, e.last.timestamps)
      && Splits(r.value.data.prices, start.prices, e.last.prices)
      && Splits(r.value.data.volumes, start.volumes, e.last.volumes)
      && r.value.data.index == start.index + Times(PageTrades(ticks[..e.fetches]))
      && r.value.data.prices == start.prices + Prices(PageTrades(ticks[..e.fetches]))
      && r.value.data.volumes == start.volumes + Volumes(PageTrades(ticks[..e.fetches]))
  {
    var start := Resume(args.pair, Some(table)).value;
    var s := Initial(start.cursor);
    var e := Drive(s, ticks, args.verbose);
    DriveKeepsAligned(s, ticks, args.verbose);
    AlignedMerges(args.pair, start, e.last);
    WrittenIsMerge(args, Some(table), ticks);
    var data := Merge(args.pair, start, e.last).value;
    assert data.index == start.index + e.last.timestamps;
    assert data.prices == start.prices + e.last.prices && data.volumes == start.volumes + e.last.volumes;
    CollectsFromStart(start.cursor, ticks, args.verbose);
  }

  /** When the first clock reading is not past the checkpoint's last time, no
      request is made and the checkpoint's index, price and volume columns are
      written back. */
  lemma CaughtUpRewritesCheckpoint(args: Args, table: Table, ticks: seq<Tick>)
    requires WellFormed(table) && Resume(args.pair, Some(table)).Ok?
    requires ticks != [] && ticks[0].now <= Resume(args.pair, Some(table)).value.cursor
    ensures var start := Resume(args.pair, Some(table)).value;
      Outcome(args, Some(table), ticks) ==
        Ok(Written(OutputName(args.pair, args.outputFile),
                   Dataset(PriceColumn(args.pair), start.index, start.prices, start.volumes), LiveEdge))
  {
    var start := Resume(args.pair, Some(table)).value;
    assert start.index + [] == start.index && start.prices + [] == start.prices && start.volumes + [] == start.volumes;
  }

  /** The loop from a sorted prefix, against chaining pages, merges into a
      sorted table whose fetched rows all follow the prefix rows. */
  lemma LoopMergesInOrder(pair: string, start: Start, ticks: seq<Tick>, verbose: bool)
    requires start.index != [] && start.cursor == start.index[|start.index| - 1]
    requires Sorted(start.index) && Chained(start.cursor, ticks[..Drive(Initial(start.cursor), ticks, verbose).fetches])
    requires Merge(pair, start, Drive(Initial(start.cursor), ticks, verbose).last).Ok?
    ensures var data := Merge(pair, start, Drive(Initial(start.cursor), ticks, verbose).last).value;
      && Sorted(data.index)
      && forall i, j :: 0 <= i < |start.index| <= j < |data.index| ==> data.index[i] < data.index[j]
  {
    var s := Initial(start.cursor);
    var e := Drive(s, ticks, verbose);
    DriveKeepsOrder(s, ticks, verbose);
    assert e.last.timestamps[|s.timestamps|..] == e.last.timestamps;
    MergeKeepsOrder(pair, start, e.last);
    var data := Merge(pair, start, e.last).value;
    assert data.index == start.index + e.last.timestamps;
    forall i, j | 0 <= i < |start.index| <= j < |data.index| ensures data.index[i] < data.index[j] {
      assert data.index[j] == e.last.timestamps[j - |start.index|];
    }
  }

  /** Against a server whose pages, among those requested, chain from the
      checkpoint's last time, a checkpoint in time order yields an output in
      time order, and no fetched row repeats a checkpoint time. */
  lemma OutputInOrder(args: Args, table: Table, ticks: seq<Tick>)
    requires WellFormed(table) && Resume(args.pair, Some(table)).Ok?
    requires Sorted(Resume(args.pair, Some(table)).value.index)
    requires var c := Resume(args.pair, Some(table)).value.cursor;
      Chained(c, ticks[..Drive(Initial(c), ticks, args.verbose).fetches])
    requires Outcome(args, Some(table), ticks).Ok?
    ensures var start := Resume(args.pair, Some(table)).value;
      var data := Outcome(args, Some(table), ticks).value.data;
      && Sorted(data.index)
      && forall i, j :: 0 <= i < |start.index| <= j < |data.index| ==> data.index[i] < data.index[j]
  {
    var start := Resume(args.pair, Some(table)).value;
    WrittenIsMerge(args, Some(table), ticks);
    LoopMergesInOrder(args.pair, start, ticks, args.verbose);
  }

  /** With progress lines on, an empty first page ends the run with an
      exception when nothing has been buffered, before anything is written. */
  lemma EmptyFirstPageRaises(args: Args, input: Option<Table>, now: int, last: int, rest: seq<Tick>)
    requires args.verbose && Resume(args.pair, input).Ok?
    requires Resume(args.pair, input).value.cursor < now
    ensures Outcome(args, input, [Tick(now, Page(last, []))] + rest) == Err(Uncaught)
  {
    var ticks := [Tick(now, Page(last, []))] + rest;
    assert ticks[0] == Tick(now, Page(last, []));
  }

  /** A resumed run: a checkpoint row at 100 s, one page holding a trade at
      150 s, an empty page whose marker reaches the clock, then the stop. */
  lemma ResumedRun()
    ensures var second := 1_000_000_000;
      var table := Table(Numeric([100 * second]), map["XETHZEUR_price" := ["10"], "volume" := ["1"]]);
      var ticks := [Tick(200 * second, Page(150 * second, [Trade("11", "2", 150 * second)])),
                    Tick(200 * second, Page(200 * second, [])),
                    Tick(200 * second, NoResult)];
      Outcome(Args("XETHZEUR", "", true), Some(table), ticks) ==
        Ok(Written("XETHZEUR",
                   Dataset("XETHZEUR_price", [100 * second, 150 * second], ["10", "11"], ["1", "2"]),
                   LiveEdge))
  {
    var second := 1_000_000_000;
    var table := Table(Numeric([100 * second]), map["XETHZEUR_price" := ["10"], "volume" := ["1"]]);
    var ticks := [Tick(200 * second, Page(150 * second, [Trade("11", "2", 150 * second)])),
                  Tick(200 * second, Page(200 * second, [])),
                  Tick(200 * second, NoResult)];
    assert PriceColumn("XETHZEUR") == "XETHZEUR_price";
    var start := Start(100 * second, [100 * second], ["10"], ["1"]);
    assert Resume("XETHZEUR", Some(table)) == Ok(start);
    var trade := Trade("11", "2", 150 * second);
    assert Times([trade]) == [150 * second] && Prices([trade]) == ["11"] && Volumes([trade]) == ["2"];
    assert Times([]) == [] && Prices([]) == [] && Volumes([]) == [];
    var s1 := State(150 * second, 1, [150 * second], ["11"], ["2"], 0);
    assert Next(Initial(start.cursor), ticks[0].response, true) == (s1, Continue);
    var s2 := s1.(cursor := 200 * second, pages := 2);
    assert ticks[1].response == Page(200 * second, []) && s1.pages % 10 == 1;
    assert s1.timestamps + Times([]) == s1.timestamps;
    assert s1.prices + Prices([]) == s1.prices && s1.volumes + Volumes([]) == s1.volumes;
    assert Next(s1, ticks[1].response, true) == (s2, Continue);
    assert ticks[1..][1..] == [ticks[2]];
    assert Drive(s2, ticks[1..][1..], true) == Ending(s2, LiveEdge, 0);
    assert Drive(Initial(start.cursor), ticks, true) == Ending(s2, LiveEdge, 2);
    var data := Dataset("XETHZEUR_price", [100 * second, 150 * second], ["10", "11"], ["1", "2"]);
    assert start.index + s2.timestamps == data.index;
    assert start.prices + s2.prices == data.prices && start.volumes + s2.volumes == data.volumes;
    assert Merge("XETHZEUR", start, s2) == Ok(data);
    assert OutputName("XETHZEUR", "") == "XETHZEUR";
  }
}
