/**
  The pagination loop of the scraper: a cursor (`last_id`), a page counter
  (`i`) and three parallel buffers of new trade fields, driven by one fetch
  outcome and one clock reading per iteration.

  `Next` and `Drive` are the specification; `Pager` holds the loop's state in
  place and its `Step` and `Run` methods are proved to follow them.
 */
module Pagination {
  import opened Trades

  /** What one `Trades` request comes back with. */
  datatype Response =
    | NoResult                              // the reply has no `result` key
    | Page(last: int, trades: seq<Trade>)   // `result['last']` and the pair's trade list
    | ValueErr                              // the request raised ValueError
    | Interrupt                             // KeyboardInterrupt during the iteration
    | Disconnect                            // RemoteDisconnected during the iteration
    | OtherError                            // any other exception: not caught

  /** One loop iteration's inputs: the clock reading taken by the loop test
      (in nanoseconds) and the outcome of the request made if the test passes. */
  datatype Tick = Tick(now: int, response: Response)

  datatype StopReason =
    | LiveEdge      // the cursor reached the clock reading
    | Interrupted   // KeyboardInterrupt: break
    | Disconnected  // RemoteDisconnected: break
    | Raised        // an exception left the loop; the program ends there
    | Exhausted     // the supplied ticks ran out while the loop still ran

  datatype Verdict = Continue | Halt(why: StopReason)

  /** The loop's variables. `sleeps` counts the ten-second back-off sleeps taken. */
  datatype State = State(cursor: int, pages: nat, timestamps: seq<int>,
                         prices: seq<Quantity>, volumes: seq<Quantity>, sleeps: nat)

  /** How a run of the loop ended: its last state, why, and how many requests it made. */
  datatype Ending = Ending(last: State, why: StopReason, fetches: nat)

  /** The state at the top of the loop, before any request. */
  function Initial(cursor: int): State
  {
    State(cursor, 0, [], [], [], 0)
  }

  /** The three buffers have one entry per fetched trade. */
  predicate Aligned(s: State)
  {
    |s.timestamps| == |s.prices| == |s.volumes|
  }

  /** Cursor, page counter and buffers agree (the sleep count may differ). */
  predicate SameProgress(s: State, t: State)
  {
    s.cursor == t.cursor && s.pages == t.pages && s.timestamps == t.timestamps
    && s.prices == t.prices && s.volumes == t.volumes
  }

  /** The buffers of `t` extend those of `s`: nothing accumulated is dropped. */
  predicate Extends(s: State, t: State)
  {
    s.timestamps <= t.timestamps && s.prices <= t.prices && s.volumes <= t.volumes
    && s.pages <= t.pages
  }

  /** One loop body, entered after the loop test has passed. */
  function Next(s: State, r: Response, verbose: bool): (o: (State, Verdict))
    ensures r.NoResult? ==> SameProgress(s, o.0) && o.0.sleeps == s.sleeps + 1 && o.1 == Continue
    ensures r.ValueErr? ==> o == (s, Continue)
    ensures r.Interrupt? ==> o == (s, Halt(Interrupted))
    ensures r.Disconnect? ==> o == (s, Halt(Disconnected))
    ensures r.OtherError? ==> o.1 == Halt(Raised)
    ensures r.Page? ==>
      && o.0.cursor == r.last
      && Splits(o.0.timestamps, s.timestamps, Times(r.trades))
      && Splits(o.0.prices, s.prices, Prices(r.trades))
      && Splits(o.0.volumes, s.volumes, Volumes(r.trades))
      && o.0.sleeps == s.sleeps
      && (o.1 == Continue <==> !(verbose && s.pages % 10 == 0 && o.0.timestamps == []))
      && o.0.pages == (if o.1 == Continue then s.pages + 1 else s.pages)
      && (o.1.Halt? ==> o.1.why == Raised)
    ensures Aligned(s) ==> Aligned(o.0)
    ensures Extends(s, o.0)
  {
    match r
    case NoResult => (s.(sleeps := s.sleeps + 1), Continue)
    case Page(last, trades) =>
      var t := s.(cursor := last,
                  timestamps := s.timestamps + Times(trades),
                  prices := s.prices + Prices(trades),
                  volumes := s.volumes + Volumes(trades));
      // the progress line reads the newest buffered time, which an empty buffer lacks
      if verbose && s.pages % 10 == 0 && t.timestamps == [] then (t, Halt(Raised))
      else (t.(pages := s.pages + 1), Continue)
    case ValueErr => (s, Continue)
    case Interrupt => (s, Halt(Interrupted))
    case Disconnect => (s, Halt(Disconnected))
    case OtherError => (s, Halt(Raised))
  }

  /** The loop from state `s`: each tick first tests the cursor against its
      clock reading, then feeds its response to `Next`. */
  function Drive(s: State, ticks: seq<Tick>, verbose: bool): (e: Ending)
    decreases |ticks|
    ensures e.fetches <= |ticks|
    ensures ticks != [] && ticks[0].now <= s.cursor ==> e == Ending(s, LiveEdge, 0)
    ensures e.why == Exhausted ==> e.fetches == |ticks|
    ensures e.why == LiveEdge ==> e.fetches < |ticks| && ticks[e.fetches].now <= e.last.cursor
    ensures e.why == Interrupted ==> 0 < e.fetches && ticks[e.fetches - 1].response == Interrupt
    ensures e.why == Disconnected ==> 0 < e.fetches && ticks[e.fetches - 1].response == Disconnect
    ensures e.why == Raised ==>
      0 < e.fetches && (ticks[e.fetches - 1].response.OtherError? || ticks[e.fetches - 1].response.Page?)
  {
    if ticks == [] then Ending(s, Exhausted, 0)
    else if ticks[0].now <= s.cursor then Ending(s, LiveEdge, 0)
    else
      var (t, v) := Next(s, ticks[0].response, verbose);
      if v.Halt? then Ending(t, v.why, 1)
      else
        var e := Drive(t, ticks[1..], verbose);
        e.(fetches := e.fetches + 1)
  }

  /** Every state the loop reaches keeps the three buffers the same length. */
  lemma {:induction false} DriveKeepsAligned(s: State, ticks: seq<Tick>, verbose: bool)
    requires Aligned(s)
    ensures Aligned(Drive(s, ticks, verbose).last)
    decreases |ticks|
  {
    if ticks != [] && s.cursor < ticks[0].now {
      var (t, v) := Next(s, ticks[0].response, verbose);
      if v == Continue {
        DriveKeepsAligned(t, ticks[1..], verbose);
      }
    }
  }

  /** Whatever ends the loop, including an interrupt or a disconnect, what was
      accumulated before is kept. */
  lemma {:induction false} DriveKeepsRecords(s: State, ticks: seq<Tick>, verbose: bool)
    ensures Extends(s, Drive(s, ticks, verbose).last)
    decreases |ticks|
  {
    if ticks != [] && s.cursor < ticks[0].now {
      var (t, v) := Next(s, ticks[0].response, verbose);
      if v == Continue {
        DriveKeepsRecords(t, ticks[1..], verbose);
      }
    }
  }

  /** The cursor only ever takes the start value or a `last` marker the server sent. */
  lemma {:induction false} CursorFromServer(s: State, ticks: seq<Tick>, verbose: bool)
    ensures var e := Drive(s, ticks, verbose);
      e.last.cursor == s.cursor
      || exists k :: 0 <= k < e.fetches && ticks[k].response.Page? && ticks[k].response.last == e.last.cursor
    decreases |ticks|
  {
    if ticks != [] && s.cursor < ticks[0].now {
      var (t, v) := Next(s, ticks[0].response, verbose);
      if v == Continue {
        CursorFromServer(t, ticks[1..], verbose);
        var e := Drive(t, ticks[1..], verbose);
        if e.last.cursor != t.cursor {
          var k :| 0 <= k < e.fetches && ticks[1..][k].response.Page? && ticks[1..][k].response.last == e.last.cursor;
          assert ticks[k + 1] == ticks[1..][k];
        } else if t.cursor != s.cursor {
          assert ticks[0].response.Page?;
        }
      }
    }
  }

  /** The trades a response contributes: a page's list, or none. */
  function Delivered(r: Response): seq<Trade>
  {
    if r.Page? then r.trades else []
  }

  /** The trades of the pages among `ticks`, page after page. */
  function PageTrades(ticks: seq<Tick>): seq<Trade>
    decreases |ticks|
  {
    if ticks == [] then []
    else Delivered(ticks[0].response) + PageTrades(ticks[1..])
  }

  /** The cursor after `ticks` starting from `c`: the marker of the last page
      among them, or `c` when there is none. */
  function LastMarker(c: int, ticks: seq<Tick>): int
    decreases |ticks|
  {
    if ticks == [] then c
    else LastMarker(if ticks[0].response.Page? then ticks[0].response.last else c, ticks[1..])
  }

  /** The buffers of `t` are those of `s` followed by the fields of `trades`. */
  predicate Appended(s: State, t: State, trades: seq<Trade>)
  {
    && t.timestamps == s.timestamps + Times(trades)
    && t.prices == s.prices + Prices(trades)
    && t.volumes == s.volumes + Volumes(trades)
  }

  /** Appending two trade lists one after the other appends their concatenation. */
  lemma AppendedTwice(s: State, t: State, u: State, a: seq<Trade>, b: seq<Trade>)
    requires Appended(s, t, a) && Appended(t, u, b)
    ensures Appended(s, u, a + b)
  {
    FieldsConcat(a, b);
    assert s.timestamps + Times(a) + Times(b) == s.timestamps + (Times(a) + Times(b));
    assert s.prices + Prices(a) + Prices(b) == s.prices + (Prices(a) + Prices(b));
    assert s.volumes + Volumes(a) + Volumes(b) == s.volumes + (Volumes(a) + Volumes(b));
  }

  /** One loop body appends exactly the delivered trades' fields and moves
      the cursor only to a page's marker. */
  lemma StepCollects(s: State, r: Response, verbose: bool)
    ensures var t := Next(s, r, verbose).0;
      Appended(s, t, Delivered(r)) && t.cursor == (if r.Page? then r.last else s.cursor)
  {
    if !r.Page? {
      assert s.timestamps + [] == s.timestamps && s.prices + [] == s.prices && s.volumes + [] == s.volumes;
    }
  }

  /** The loop keeps exactly what it fetched: its buffers end as the start
      buffers followed by the fields of every page among the requests it made,
      in order. */
  lemma {:induction false} DriveCollectsTrades(s: State, ticks: seq<Tick>, verbose: bool)
    ensures var e := Drive(s, ticks, verbose);
      Appended(s, e.last, PageTrades(ticks[..e.fetches]))
    decreases |ticks|
  {
    var e := Drive(s, ticks, verbose);
    if ticks == [] || ticks[0].now <= s.cursor {
      assert ticks[..e.fetches] == [];
      assert Appended(s, s, []);
    } else {
      var head := Delivered(ticks[0].response);
      var (t, v) := Next(s, ticks[0].response, verbose);
      StepCollects(s, ticks[0].response, verbose);
      var got := ticks[..e.fetches];
      var rest: seq<Trade>;
      if v.Halt? {
        assert e.last == t && got == [ticks[0]];
        rest := [];
        assert Appended(t, t, rest);
      } else {
        var e' := Drive(t, ticks[1..], verbose);
        assert e.last == e'.last;
        DriveCollectsTrades(t, ticks[1..], verbose);
        assert got[1..] == ticks[1..][..e'.fetches];
        rest := PageTrades(got[1..]);
      }
      assert PageTrades(got) == head + rest;
      AppendedTwice(s, t, e.last, head, rest);
    }
  }

  /** The loop's final cursor is the marker of the most recent page among the
      requests it made, or the start cursor when none was a page. */
  lemma {:induction false} DriveEndsAtLastMarker(s: State, ticks: seq<Tick>, verbose: bool)
    ensures var e := Drive(s, ticks, verbose);
      e.last.cursor == LastMarker(s.cursor, ticks[..e.fetches])
    decreases |ticks|
  {
    var e := Drive(s, ticks, verbose);
    if ticks == [] || ticks[0].now <= s.cursor {
      assert ticks[..e.fetches] == [];
    } else {
      var (t, v) := Next(s, ticks[0].response, verbose);
      var got := ticks[..e.fetches];
      if v.Halt? {
        assert e.last == t && got == [ticks[0]];
        assert LastMarker(s.cursor, got) == LastMarker(t.cursor, []);
      } else {
        var e' := Drive(t, ticks[1..], verbose);
        assert e == e'.(fetches := e'.fetches + 1);
        DriveEndsAtLastMarker(t, ticks[1..], verbose);
        assert got[0] == ticks[0] && got[1..] == ticks[1..][..e'.fetches];
        assert LastMarker(s.cursor, got) == LastMarker(t.cursor, got[1..]);
      }
    }
  }

  /** The loop keeps exactly what it fetched and ends on the server's latest
      marker: buffers and cursor are determined by the requests it made. */
  lemma DriveCollects(s: State, ticks: seq<Tick>, verbose: bool)
    ensures var e := Drive(s, ticks, verbose);
      var got := ticks[..e.fetches];
      && e.last.timestamps == s.timestamps + Times(PageTrades(got))
      && e.last.prices == s.prices + Prices(PageTrades(got))
      && e.last.volumes == s.volumes + Volumes(PageTrades(got))
      && e.last.cursor == LastMarker(s.cursor, got)
  {
    DriveCollectsTrades(s, ticks, verbose);
    DriveEndsAtLastMarker(s, ticks, verbose);
  }

  /** From the top of the loop, the buffers hold exactly the fields of the
      pages among the requests made. */
  lemma CollectsFromStart(c: int, ticks: seq<Tick>, verbose: bool)
    ensures var e := Drive(Initial(c), ticks, verbose);
      var got := PageTrades(ticks[..e.fetches]);
      e.last.timestamps == Times(got) && e.last.prices == Prices(got) && e.last.volumes == Volumes(got)
  {
    var e := Drive(Initial(c), ticks, verbose);
    DriveCollectsTrades(Initial(c), ticks, verbose);
    AppendedToEmpty(Initial(c), e.last, PageTrades(ticks[..e.fetches]));
  }

  lemma AppendedToEmpty(s: State, t: State, trades: seq<Trade>)
    requires s.timestamps == [] && s.prices == [] && s.volumes == []
    requires Appended(s, t, trades)
    ensures t.timestamps == Times(trades) && t.prices == Prices(trades) && t.volumes == Volumes(trades)
  {
    EmptyThen(Times(trades));
    EmptyThen(Prices(trades));
    EmptyThen(Volumes(trades));
  }

  lemma EmptyThen<T>(x: seq<T>)
    ensures [] + x == x
  {
  }

  /** The loop's course depends only on cursor, counter and buffers, not on
      how many sleeps came before. */
  lemma {:induction false} SleepsAreInert(s: State, s': State, ticks: seq<Tick>, verbose: bool)
    requires SameProgress(s, s')
    ensures var e, e' := Drive(s, ticks, verbose), Drive(s', ticks, verbose);
      SameProgress(e.last, e'.last) && e.why == e'.why && e.fetches == e'.fetches
    decreases |ticks|
  {
    if ticks != [] && s.cursor < ticks[0].now {
      var (t, v) := Next(s, ticks[0].response, verbose);
      var (t', v') := Next(s', ticks[0].response, verbose);
      assert SameProgress(t, t') && v == v';
      if v == Continue {
        SleepsAreInert(t, t', ticks[1..], verbose);
      }
    }
  }

  /** A retried request: a reply without `result` or a ValueError, below the clock. */
  predicate Retry(c: int, tick: Tick)
  {
    c < tick.now && (tick.response.NoResult? || tick.response.ValueErr?)
  }

  /** Any number of retried requests before the rest of the run changes
      nothing but the request count (and the sleeps): no duplicated records,
      no lost ones, same cursor and same stop. */
  lemma {:induction false} RetriesAreInvisible(s: State, retries: seq<Tick>, ticks: seq<Tick>, verbose: bool)
    requires forall k :: 0 <= k < |retries| ==> Retry(s.cursor, retries[k])
    ensures var e, e' := Drive(s, retries + ticks, verbose), Drive(s, ticks, verbose);
      SameProgress(e.last, e'.last) && e.why == e'.why && e.fetches == |retries| + e'.fetches
    decreases |retries|
  {
    if retries == [] {
      assert retries + ticks == ticks;
      SleepsAreInert(s, s, ticks, verbose);
    } else {
      var all := retries + ticks;
      assert all[0] == retries[0] && all[1..] == retries[1..] + ticks;
      var (t, v) := Next(s, retries[0].response, verbose);
      assert SameProgress(s, t) && v == Continue;
      assert forall k :: 0 <= k < |retries[1..]| ==> Retry(t.cursor, retries[1..][k]) by {
        forall k | 0 <= k < |retries[1..]| ensures Retry(t.cursor, retries[1..][k]) {
          assert retries[1..][k] == retries[k + 1];
        }
      }
      RetriesAreInvisible(t, retries[1..], ticks, verbose);
      SleepsAreInert(t, s, ticks, verbose);
    }
  }

  /** A page the server may honestly send for a request at cursor `c`: its
      marker does not go back, and its trades are in time order, strictly after
      `c` and no later than its marker. */
  predicate Fits(c: int, last: int, trades: seq<Trade>)
  {
    c <= last && Sorted(Times(trades)) && AllAbove(Times(trades), c) && AllAtMost(Times(trades), last)
  }

  /** Every page among `ticks` fits the cursor it would be requested with. */
  predicate Chained(c: int, ticks: seq<Tick>)
    decreases |ticks|
  {
    ticks == [] ||
    match ticks[0].response
    case Page(last, trades) => Fits(c, last, trades) && Chained(last, ticks[1..])
    case _ => Chained(c, ticks[1..])
  }

  /** One loop body against a page that fits the cursor keeps the buffered
      times sorted and bounded by the cursor, and whatever it appends lies
      strictly after the cursor it was requested with. */
  lemma StepKeepsOrder(s: State, r: Response, verbose: bool)
    requires r.Page? ==> Fits(s.cursor, r.last, r.trades)
    requires Sorted(s.timestamps) && AllAtMost(s.timestamps, s.cursor)
    ensures var t := Next(s, r, verbose).0;
      && Sorted(t.timestamps)
      && AllAtMost(t.timestamps, t.cursor)
      && s.cursor <= t.cursor
      && AllAbove(t.timestamps[|s.timestamps|..], s.cursor)
  {
    var t := Next(s, r, verbose).0;
    if r.Page? {
      SortedConcat(s.timestamps, Times(r.trades), s.cursor);
      assert t.timestamps == s.timestamps + Times(r.trades);
      assert t.timestamps[|s.timestamps|..] == Times(r.trades);
    } else {
      assert t.timestamps[|s.timestamps|..] == [];
    }
  }

  /** Appended parts above a rising bound stay above the first bound. */
  lemma AboveAcross(a: seq<int>, b: seq<int>, c: seq<int>, lo: int, mid: int)
    requires a <= b <= c && lo <= mid
    requires AllAbove(b[|a|..], lo) && AllAbove(c[|b|..], mid)
    ensures AllAbove(c[|a|..], lo)
  {
    var tail := c[|a|..];
    forall k | 0 <= k < |tail| ensures lo < tail[k] {
      if |a| + k < |b| {
        assert tail[k] == b[|a|..][k];
      } else {
        assert tail[k] == c[|b|..][|a| + k - |b|];
      }
    }
  }

  /** Against a server whose pages chain, among the requests the loop makes,
      the buffered times stay in order, never pass the cursor, and every new
      one lies strictly after the cursor the run started from. */
  lemma {:induction false} DriveKeepsOrder(s: State, ticks: seq<Tick>, verbose: bool)
    requires Chained(s.cursor, ticks[..Drive(s, ticks, verbose).fetches])
    requires Sorted(s.timestamps) && AllAtMost(s.timestamps, s.cursor)
    ensures var e := Drive(s, ticks, verbose);
      && Sorted(e.last.timestamps)
      && AllAtMost(e.last.timestamps, e.last.cursor)
      && s.cursor <= e.last.cursor
      && |s.timestamps| <= |e.last.timestamps|
      && AllAbove(e.last.timestamps[|s.timestamps|..], s.cursor)
    decreases |ticks|
  {
    DriveKeepsRecords(s, ticks, verbose);
    if ticks == [] || ticks[0].now <= s.cursor {
      assert Drive(s, ticks, verbose).last == s;
      assert s.timestamps[|s.timestamps|..] == [];
    } else {
      var r := ticks[0].response;
      var (t, v) := Next(s, r, verbose);
      var got := ticks[..Drive(s, ticks, verbose).fetches];
      assert got[0] == ticks[0];
      assert r.Page? ==> Fits(s.cursor, r.last, r.trades);
      StepKeepsOrder(s, r, verbose);
      if v == Continue {
        var e := Drive(t, ticks[1..], verbose);
        assert got[1..] == ticks[1..][..e.fetches];
        assert Chained(t.cursor, ticks[1..][..e.fetches]);
        assert Drive(s, ticks, verbose).last == e.last;
        DriveKeepsOrder(t, ticks[1..], verbose);
        DriveKeepsRecords(t, ticks[1..], verbose);
        AboveAcross(s.timestamps, t.timestamps, e.last.timestamps, s.cursor, t.cursor);
      } else {
        assert Drive(s, ticks, verbose).last == t;
      }
    }
  }

  /** The loop's variables, updated in place. */
  class Pager {
    var cursor: int
    var pages: nat
    var timestamps: seq<int>
    var prices: seq<Quantity>
    var volumes: seq<Quantity>
    var sleeps: nat

    function Snapshot(): State
      reads this
    {
      State(cursor, pages, timestamps, prices, volumes, sleeps)
    }

    /** The state before the loop: the resume cursor, `i = 0`, empty buffers. */
    constructor (start: int)
      ensures Snapshot() == Initial(start)
    {
      cursor, pages := start, 0;
      timestamps, prices, volumes := [], [], [];
      sleeps := 0;
    }

    /** One loop body, given the outcome of its request. */
    method Step(r: Response, verbose: bool) returns (v: Verdict)
      modifies this
      ensures (Snapshot(), v) == Next(old(Snapshot()), r, verbose)
    {
      match r {
        case NoResult =>
          sleeps := sleeps + 1;
          v := Continue;
        case Page(last, trades) =>
          cursor := last;
          timestamps := timestamps + Times(trades);
          prices := prices + Prices(trades);
          volumes := volumes + Volumes(trades);
          if verbose && pages % 10 == 0 && |timestamps| == 0 {
            v := Halt(Raised);
            return;
          }
          pages := pages + 1;
          v := Continue;
        case ValueErr =>
          v := Continue;
        case Interrupt =>
          v := Halt(Interrupted);
        case Disconnect =>
          v := Halt(Disconnected);
        case OtherError =>
          v := Halt(Raised);
      }
    }

    /** The whole loop: test the cursor against each clock reading in turn and
        step on the matching response until a stop. */
    method Run(ticks: seq<Tick>, verbose: bool) returns (why: StopReason, fetches: nat)
      modifies this
      ensures Ending(Snapshot(), why, fetches) == Drive(old(Snapshot()), ticks, verbose)
    {
      var k := 0;
      while k < |ticks| && cursor < ticks[k].now
        invariant k <= |ticks|
        invariant var e := Drive(Snapshot(), ticks[k..], verbose);
          Drive(old(Snapshot()), ticks, verbose) == e.(fetches := e.fetches + k)
      {
        assert ticks[k..][1..] == ticks[k + 1..];
        var v := Step(ticks[k].response, verbose);
        k := k + 1;
        if v.Halt? {
          why, fetches := v.why, k;
          return;
        }
      }
      why := if k == |ticks| then Exhausted else LiveEdge;
      fetches := k;
    }
  }
}
