/**
 * `UpdateGridView`: which of a result's (sorted) samples get a row in the
 * grid, and the colour of each row. Rows are added in data order; the loop
 * leaves as soon as more than 2048 rows are shown, or more than 450 rows are
 * shown and the next sample is above the threshold.
 */
module Grid {
  import opened Samples

  /** Row background: `Color.FromArgb(233, 76, 60)` and `Color.FromArgb(46, 205, 112)`. */
  datatype Colour = Red | Green

  /** A grid row: the sample it shows (its `Tag`) and its background colour. */
  datatype Row = Row(sample: Sample, colour: Colour)

  /** Rows that are always shown, whatever their value. */
  const FreeRows: nat := 451

  /** The largest number of rows the grid gets. */
  const MaxRows: nat := 2049

  /** The loop leaves instead of adding `data[k]` when `k` rows are already in the grid. */
  predicate Halts(data: seq<Sample>, threshold: int, k: nat)
    requires k < |data|
  {
    (data[k].value > threshold as real && k > 450) || k > 2048
  }

  /** The rows `UpdateGridView` puts into the cleared grid for `data`. */
  method GridRows(data: seq<Sample>, threshold: int) returns (rows: seq<Row>)
    ensures |rows| <= |data| && |rows| <= MaxRows
    ensures forall k :: 0 <= k < |rows| ==> rows[k].sample == data[k]
    ensures forall k :: 0 <= k < |rows| ==> (rows[k].colour == Red <==> data[k].value < threshold as real)
    ensures forall k :: 0 <= k < |rows| ==> !Halts(data, threshold, k)
    ensures |rows| < |data| ==> Halts(data, threshold, |rows|)
    ensures forall k :: FreeRows <= k < |rows| ==> rows[k].sample.value <= threshold as real
  {
    rows := [];
    while |rows| < |data|
      invariant |rows| <= |data| && |rows| <= MaxRows
      invariant forall k :: 0 <= k < |rows| ==> rows[k].sample == data[k]
      invariant forall k :: 0 <= k < |rows| ==> (rows[k].colour == Red <==> data[k].value < threshold as real)
      invariant forall k :: 0 <= k < |rows| ==> !Halts(data, threshold, k)
      invariant forall k :: FreeRows <= k < |rows| ==> rows[k].sample.value <= threshold as real
      decreases |data| - |rows|
    {
      var item := data[|rows|];
      if (item.value > threshold as real && |rows| > 450) || |rows| > 2048 {
        break;
      }
      var colour := if item.value < threshold as real then Red else Green;
      rows := rows + [Row(item, colour)];
    }
  }

  /** How many samples are at or below the threshold. */
  function CountAtMost(data: seq<Sample>, threshold: int): (n: nat)
    ensures n <= |data|
  {
    if data == [] then 0
    else CountAtMost(data[..|data| - 1], threshold) + (if data[|data| - 1].value <= threshold as real then 1 else 0)
  }

  /** In sorted data the samples at or below the threshold are exactly the first `CountAtMost` ones. */
  lemma {:induction false} SortedBelowIsPrefix(data: seq<Sample>, threshold: int)
    requires Sorted(data)
    ensures forall k :: 0 <= k < |data| ==> (data[k].value <= threshold as real <==> k < CountAtMost(data, threshold))
  {
    if data != [] {
      var init := data[..|data| - 1];
      assert Sorted(init);
      SortedBelowIsPrefix(init, threshold);
      var last := data[|data| - 1];
      if last.value <= threshold as real {
        forall k | 0 <= k < |init| ensures init[k].value <= threshold as real {
          assert NotAfter(data[k], last);
        }
      }
    }
  }

  function Min(a: int, b: int): int { if a <= b then a else b }
  function Max(a: int, b: int): int { if a <= b then b else a }

  /**
   * For sorted data the row count the loop stops at is determined by the
   * threshold alone: every sample at or below it, but never fewer than 451
   * rows nor more than 2049 (and never more than there are samples).
   */
  lemma RowCountOfSortedData(data: seq<Sample>, threshold: int, n: nat)
    requires Sorted(data) && n <= |data|
    requires forall k :: 0 <= k < n ==> !Halts(data, threshold, k)
    requires n < |data| ==> Halts(data, threshold, n)
    ensures n == Min(|data|, Min(MaxRows, Max(FreeRows, CountAtMost(data, threshold))))
  {
    var c := CountAtMost(data, threshold);
    SortedBelowIsPrefix(data, threshold);
    var want := Min(|data|, Min(MaxRows, Max(FreeRows, c)));
    assert forall k :: 0 <= k < want ==> !Halts(data, threshold, k);
    assert want < |data| ==> Halts(data, threshold, want);
  }
}
