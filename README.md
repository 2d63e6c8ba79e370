# CryptoData scraper: resume, pagination and merge

This project models the core of `src/DataScraper.py`, a script that downloads
a currency pair's trades from Kraken's public `Trades` endpoint page by page
and appends them to an earlier download. The model covers four parts:

- **Resume** (`Checkpoints`). The checkpoint file's price and volume columns
  and its time index become the prefix of the output. The start cursor is the
  last index entry.
- **Pagination loop** (`Pagination`). This is the `while` loop over the cursor
  `last_id`, the page counter `i` and the three buffers `timestamps`, `prices`
  and `volumes`.
  - Every iteration first compares the cursor with a fresh clock reading.
  - It then classifies the request's outcome. A reply without `result` means
    sleep and retry. A page moves the cursor to `last` and appends the trades.
    A `ValueError` means retry at once. `KeyboardInterrupt` and
    `RemoteDisconnected` end the loop.
  - `Next` and `Drive` specify the loop. The class `Pager` holds its variables
    in place, and its `Step` and `Run` methods are proved to follow `Next` and
    `Drive`.
- **Merge** (`Output`). The result is the prefix followed by the new rows,
  with no re-sorting, plus the rule for the output file name.
- **A whole run** (`DataScraper`). `Outcome` specifies it and the method
  `Scrape` carries it out.

Units and inputs:

- Every time is an integer number of nanoseconds since the epoch. That is the
  unit of Kraken's `since`/`last` cursor.
- The network client and the clock are inputs. A run gets a sequence of
  `Tick(now, response)` values: the clock reading that one loop test sees,
  and the response to the request made when the test passes.
- A run whose ticks run out before the loop stops ends with
  `Unfinished`. That is where the model stops looking, not behaviour of the
  script.

Behaviour of the code that the model follows as written:

- **No checkpoint.** This path fails. The placeholder index `[0]` has no
  `timestamp()` method, so the script stops at line 73 (`Resume` returns
  `NoTimestampMethod`). Even past that line, the placeholder index would be
  one entry longer than the empty price and volume prefixes
  (`PlaceholderMisaligns`).
- **`ValueError`.** The retry does not sleep, although its message says it
  does. `State.sleeps` counts the sleeps actually taken.
- **Empty first page with progress output on.** When such a page arrives
  while the buffers are still empty, the progress line reads
  `timestamps[-1]` and raises `IndexError`. Nothing catches it, so the run
  ends without output (`EmptyFirstPageRaises`).
- **Other exceptions.** Anything that is not one of the three caught kinds
  propagates, and nothing is written.
- **No deduplication, no re-sort, no schema check.** The merge is plain
  concatenation. Ordering and "no checkpoint time fetched again" hold only
  when the pages the run requests follow the server's cursor contract (`Chained`). The
  script never checks this, so `DriveKeepsOrder` and `OutputInOrder` assume
  it.

Further facts about the code that the model keeps:

- The `--input_file` option defaults to the empty string (line 22), and line 35
  branches on it, with a placeholder prefix at lines 62-65 for the case
  without a checkpoint. That branch crashes at line 73 rather than starting
  from cursor 0.
- The message at line 106 says the script sleeps for 10 seconds after a
  `ValueError`, but the code retries at once.
- The code does not stop cleanly on exceptions other than the three caught
  kinds; they crash the run.
- The code reads only the price, volume and time of each trade. It has no
  buy/sell or market/limit fields and no schema check.

## Model

| member | source | states |
|---|---|---|
| `Pagination.Next` | src/DataScraper.py:85-107 | A reply without `result` keeps cursor, `i` and all three buffers and adds one sleep. A page sets the cursor to `last`, appends its times, prices and volumes after the existing buffers in page order and adds one to `i`; with progress output on at `i % 10 == 0` and still-empty buffers it raises instead. A `ValueError` changes nothing, with no sleep. An interrupt or a disconnect stops with the state unchanged. Any other exception raises. Every step keeps the buffers aligned and never shortens them. |
| `Pagination.Drive` | src/DataScraper.py:79-107 | The loop makes at most one request per clock reading. If the first reading is not above the cursor, it makes zero requests and leaves the state untouched. A stop at the live edge means the cursor reached the next reading. An interrupt, disconnect or raise stop was caused by the last request's response. |
| `Pagination.DriveKeepsAligned` | src/DataScraper.py:91-93 | Every state the loop reaches has `timestamps`, `prices` and `volumes` of equal length, with an interrupt arriving only during a request or a back-off sleep. |
| `Pagination.DriveKeepsRecords` | src/DataScraper.py:98-102 | However the loop ends, including on an interrupt or a disconnect, the buffers only grow and keep what was accumulated before. |
| `Pagination.CursorFromServer` | src/DataScraper.py:83-89 | The final cursor is the start cursor or the `last` marker of a page the run received. |
| `Pagination.StepCollects` | src/DataScraper.py:83-93 | One loop body appends exactly the fields of the trades its response delivered (a page's list, otherwise none) and moves the cursor only to a page's `last` marker. |
| `Pagination.DriveCollectsTrades` | src/DataScraper.py:79-102 | However the loop ends, its buffers are the starting buffers followed by the times, prices and volumes of every page among the requests it made, page after page. |
| `Pagination.DriveEndsAtLastMarker` | src/DataScraper.py:79-89 | However the loop ends, its cursor is the `last` marker of the most recent page among the requests it made, or the start cursor when none was a page. |
| `Pagination.DriveCollects` | src/DataScraper.py:79-107 | The loop keeps exactly what it fetched, with no gap and no repeat: buffers as in `DriveCollectsTrades` and cursor as in `DriveEndsAtLastMarker`. |
| `Pagination.CollectsFromStart` | src/DataScraper.py:68-102 | From the top of the loop (empty buffers), the buffers end holding exactly the fields of the requested pages' trades. |
| `Pagination.SleepsAreInert` | src/DataScraper.py:85-87 | The course of the loop depends only on cursor, counter and buffers, not on how many sleeps were taken. |
| `Pagination.RetriesAreInvisible` | src/DataScraper.py:85-107 | Any number of retried requests (no `result`, or `ValueError`) before a run leave its cursor, counter, buffers and stop reason exactly as without them. Only the request count and the number of back-off sleeps differ. |
| `Pagination.DriveKeepsOrder` | src/DataScraper.py:83-93 | If the pages the loop requests follow the server's cursor contract, the buffered times stay sorted and at most the cursor. Every new time lies strictly after the start cursor. |
| `Pagination.StepKeepsOrder` | src/DataScraper.py:89-93 | A page that fits the request's cursor keeps the buffered times sorted and at most the new cursor. Everything it appends lies strictly after the request's cursor. |
| `Trades.Times` | src/DataScraper.py:91 | The page's trade times (field 2 of each entry), one per trade, in the page's order. |
| `Trades.Prices` | src/DataScraper.py:92 | The page's trade prices (field 0 of each entry), one per trade, in the page's order. |
| `Trades.Volumes` | src/DataScraper.py:93 | The page's trade volumes (field 1 of each entry), one per trade, in the page's order. |
| `Pagination.Pager.constructor` | src/DataScraper.py:68-74 | The loop starts with the resume cursor, `i = 0`, empty buffers and no sleeps. |
| `Pagination.Pager.Step` | src/DataScraper.py:83-107 | One iteration updates the fields in place exactly as `Next` prescribes and returns the same verdict. |
| `Pagination.Pager.Run` | src/DataScraper.py:79-107 | The `while` loop leaves the fields, the stop reason and the request count exactly as `Drive` prescribes from the state it started in. |
| `Checkpoints.PriceColumn` | src/DataScraper.py:38 | The price column name is exactly the pair name followed by `_price`, and never clashes with `volume`. |
| `Checkpoints.ParseIndex` | src/DataScraper.py:45-60 | A float index is taken as epoch times. A textual index parses only when every entry parses, and then yields those times entry by entry. |
| `Checkpoints.Resume` | src/DataScraper.py:35-73 | Without a checkpoint the run fails (`AttributeError`). Then, in the script's order: a missing price column or volume column is a `KeyError`, an unparsable index an `IOError`, and an empty table an `IndexError`. Otherwise the prefix is the two columns and the parsed index, and the cursor is the last index entry. For a well-formed table the prefix is aligned and non-empty. |
| `Output.Merge` | src/DataScraper.py:113-119 | The output exists exactly when index, price and volume come out the same length (otherwise `ShapeMismatch`). Each output column is the checkpoint part followed by the fetched part in order, and its length is the sum of the two. |
| `Output.AlignedMerges` | src/DataScraper.py:113-119 | An aligned prefix and aligned buffers always merge. The price column length is the prefix length plus the new length. |
| `Output.PlaceholderMisaligns` | src/DataScraper.py:63-65 | The placeholder prefix `[0]` with empty columns makes the merge fail for any aligned buffers. |
| `Output.MergeKeepsOrder` | src/DataScraper.py:113-115 | A sorted checkpoint index followed by sorted new times, all after its last entry, gives a sorted merged index. No new time equals or precedes a checkpoint time. |
| `Output.OutputName` | src/DataScraper.py:121-124 | The file name is the pair when no output name is given, otherwise the given name. |
| `DataScraper.Outcome` | src/DataScraper.py:31-126 | A run writes only after a successful resume and a loop stop at the live edge, on an interrupt or on a disconnect. It writes under `OutputName`, and a failed resume is the run's error. |
| `DataScraper.Scrape` | src/DataScraper.py:31-126 | Running resume, the `Pager` loop, merge and naming gives exactly `Outcome`. |
| `DataScraper.StopsWriteEverything` | src/DataScraper.py:89-119 | From a well-formed checkpoint, a stop at the live edge, on a disconnect, or on an interrupt arriving during a request or a back-off sleep always writes the checkpoint rows followed by the buffered rows, and those are exactly the times, prices and volumes of every page the run requested, in order. |
| `DataScraper.CaughtUpRewritesCheckpoint` | src/DataScraper.py:73-119 | If the first clock reading is not past the checkpoint's last time, no request is made and the checkpoint is written back as its index, price and volume columns. |
| `DataScraper.LoopMergesInOrder` | src/DataScraper.py:79-115 | From a sorted prefix whose last time is the start cursor, a loop whose requested pages chain merges into a sorted table. Every fetched row follows every prefix row. |
| `DataScraper.OutputInOrder` | src/DataScraper.py:73-119 | If the pages the run requests follow the server's cursor contract from the checkpoint's last time, a sorted checkpoint gives a sorted output. Every fetched row lies strictly after every checkpoint row. |
| `DataScraper.EmptyFirstPageRaises` | src/DataScraper.py:89-95 | With progress output on, an empty first page makes the run end in an uncaught exception. |
| `DataScraper.ResumedRun` | src/DataScraper.py:35-126 | A checkpoint row at 100 s, a page with one trade at 150 s and an empty page whose marker reaches the clock give the table [(100 s, 10, 1), (150 s, 11, 2)], named after the pair and stopped at the live edge. |

## Left out

- Interrupts: a `KeyboardInterrupt` is modelled only as arriving during a request or a back-off sleep (the `Interrupt` response, state unchanged). Not modelled are: an interrupt after line 89 and before line 91 (cursor moved, page not buffered); one between lines 91 and 93 (buffers of unequal length, so building the table at line 117 raises and nothing is written); and one during the loop test at line 79, outside the `try`, which crashes the run. `Pagination.DriveKeepsAligned` and `DataScraper.StopsWriteEverything` hold only for the modelled interrupts.
- `Pagination.DriveKeepsAligned`: holds only when interrupts arrive during a request or a back-off sleep, because mid-page interrupts are not modelled.
- `DataScraper.StopsWriteEverything`: holds only when interrupts arrive during a request or a back-off sleep, for the same reason.
- Command-line parsing (`parse_args`): the settings the run reads are the `Args` value.
- The Kraken client and its HTTP requests: each request's outcome is a `Response` in the supplied ticks.
- The wall clock and `time.sleep`: clock readings are supplied, and a sleep is only counted, not timed.
- CSV reading and writing and pandas date parsing. The checkpoint is a `Table` whose textual index entries come already parsed (or marked unparsable). Writing the file is the `Written` value.
- Float arithmetic: the seconds-to-nanoseconds scaling and the `'{:.0f}'` formatting of the cursor. Times are integer nanoseconds throughout, so those conversions are exact.
- The dtype of the merged price column (checkpoint floats next to fetched strings): all quantities are strings.
- A server `last` value that `int()` cannot read in the loop test: the cursor is an integer.
- NaN entries in a float index.
- The text and timing of progress output. Only the crash its `timestamps[-1]` can cause is modelled.
- `Pagination.DriveKeepsOrder` and `DataScraper.OutputInOrder`: ordering is proved only when the pages the run actually requests follow the server's cursor contract, because the script itself never checks it. Responses after the stop are unconstrained.
- Trade times arrive as float seconds (`x[2]`, lines 91 and 95) and are converted by `pd.to_datetime(timestamps, unit='s')` at line 115. The model takes trade times already in integer nanoseconds, so `Merge` has no conversion step and no rounding.
- Resuming twice versus once (splitting a run at a checkpoint) is not stated. The model does not relate two runs through a written and re-read file.
