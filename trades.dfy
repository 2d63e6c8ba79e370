/**
  Values shared by every part of the scraper: trade records, the error kinds
  that end a run, and small helpers over sequences of times.

  Every point in time (checkpoint index entries, trade times, the pagination
  cursor, clock readings) is an integer count of nanoseconds since the epoch,
  the unit the exchange's `since`/`last` cursor uses.
 */
module Trades {

  /** A decimal quantity as the exchange and the CSV file spell it. */
  type Quantity = string

  /** One entry of a page's trade list: its fields 0 (price), 1 (volume) and
      2 (time). Later fields of the entry are never read. */
  datatype Trade = Trade(price: Quantity, volume: Quantity, time: int)

  datatype Option<+T> = None | Some(value: T)

  datatype Result<+T, +E> = Ok(value: T) | Err(error: E)

  /** The ways a run ends without writing a dataset. */
  datatype Error =
    | MissingColumn(name: string)  // KeyError while selecting a checkpoint column
    | MalformedIndex               // IOError: the checkpoint index holds no datetimes
    | EmptyCheckpoint              // IndexError: the checkpoint has no last row
    | NoTimestampMethod            // AttributeError: the placeholder 0 has no timestamp()
    | ShapeMismatch                // ValueError: merged index and columns differ in length
    | Uncaught                     // an exception inside the loop that nothing catches
    | Unfinished                   // the supplied clock readings ran out mid-loop

  /** The times of a page's trades, in the page's order. */
  function Times(trades: seq<Trade>): (r: seq<int>)
    ensures |r| == |trades|
    ensures forall k :: 0 <= k < |r| ==> r[k] == trades[k].time
  {
    seq(|trades|, k requires 0 <= k < |trades| => trades[k].time)
  }

  /** The prices of a page's trades, in the page's order. */
  function Prices(trades: seq<Trade>): (r: seq<Quantity>)
    ensures |r| == |trades|
    ensures forall k :: 0 <= k < |r| ==> r[k] == trades[k].price
  {
    seq(|trades|, k requires 0 <= k < |trades| => trades[k].price)
  }

  /** The volumes of a page's trades, in the page's order. */
  function Volumes(trades: seq<Trade>): (r: seq<Quantity>)
    ensures |r| == |trades|
    ensures forall k :: 0 <= k < |r| ==> r[k] == trades[k].volume
  {
    seq(|trades|, k requires 0 <= k < |trades| => trades[k].volume)
  }

  /** The field lists of two trade lists in a row are the two field lists in a row. */
  lemma FieldsConcat(a: seq<Trade>, b: seq<Trade>)
    ensures Times(a + b) == Times(a) + Times(b)
    ensures Prices(a + b) == Prices(a) + Prices(b)
    ensures Volumes(a + b) == Volumes(a) + Volumes(b)
  {
  }

  /** `whole` is `front` followed by `back`, nothing reordered. */
  predicate Splits<T(==)>(whole: seq<T>, front: seq<T>, back: seq<T>)
  {
    |whole| == |front| + |back| && whole[..|front|] == front && whole[|front|..] == back
  }

  predicate Sorted(s: seq<int>)
  {
    forall i, j :: 0 <= i < j < |s| ==> s[i] <= s[j]
  }

  /** Every element of `s` is at most `hi`. */
  predicate AllAtMost(s: seq<int>, hi: int)
  {
    forall k :: 0 <= k < |s| ==> s[k] <= hi
  }

  /** Every element of `s` is strictly above `lo`. */
  predicate AllAbove(s: seq<int>, lo: int)
  {
    forall k :: 0 <= k < |s| ==> lo < s[k]
  }

  /** Two sorted runs, the first bounded by `mid` and the second above it,
      concatenate to a sorted run. */
  lemma SortedConcat(a: seq<int>, b: seq<int>, mid: int)
    requires Sorted(a) && Sorted(b) && AllAtMost(a, mid) && AllAbove(b, mid)
    ensures Sorted(a + b)
  {
    var c := a + b;
    forall i, j | 0 <= i < j < |c| ensures c[i] <= c[j] {
      if j < |a| {
        assert c[i] == a[i] && c[j] == a[j];
      } else if i >= |a| {
        assert c[i] == b[i - |a|] && c[j] == b[j - |a|];
      } else {
        assert c[i] == a[i] <= mid < b[j - |a|] == c[j];
      }
    }
  }
}
