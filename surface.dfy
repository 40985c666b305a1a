/** ExportResult without the spreadsheet write: the result surface (one row
    per price point, one column per simulated day) is cut to the days
    [run_from, run_from + run_days), its rows are put in descending price
    order together with their price labels, and the columns are labelled by
    day number. The numpy and pandas errors the transform can raise are
    modelled as error values. */
module Surface {

  datatype Result<+T, +E> = Ok(value: T) | Err(error: E)

  datatype ExportError =
      /** `np.array([])` is one-dimensional, so `[:, a:b]` raises IndexError. */
    | NotTwoDimensional
      /** Rows of different lengths do not form a two-dimensional array. */
    | Ragged
      /** pandas refuses a row index whose length differs from the row count. */
    | RowLabelsMismatch
      /** pandas refuses column labels whose count differs from the column count. */
    | DayLabelsMismatch

  /** The exported sheet: a price per row, a day number d per column (the
      header "day_d"), and the cells. */
  datatype Table = Table(rowLabels: seq<real>, dayLabels: seq<int>, cells: seq<seq<real>>)

  predicate Rectangular(grid: seq<seq<real>>) {
    forall i :: 0 <= i < |grid| ==> |grid[i]| == |grid[0]|
  }

  /** Where Python puts a slice bound x on a sequence of length len: counted
      from the end when negative, then clamped to [0, len]. */
  function SliceBound(x: int, len: nat): (b: nat)
    ensures b <= len
    ensures 0 <= x <= len ==> b == x
    ensures x > len ==> b == len
    ensures x < 0 ==> b == if x + len < 0 then 0 else x + len
  {
    if x < 0 then (if x + len < 0 then 0 else x + len)
    else if x > len then len
    else x
  }

  /** `row[a:b]` with Python's slice rules. */
  function Slice(row: seq<real>, a: int, b: int): (r: seq<real>)
    ensures var lo, hi := SliceBound(a, |row|), SliceBound(b, |row|);
            && |r| == (if lo < hi then hi - lo else 0)
            && forall j :: 0 <= j < |r| ==> r[j] == row[lo + j]
  {
    var lo, hi := SliceBound(a, |row|), SliceBound(b, |row|);
    if lo < hi then row[lo..hi] else []
  }

  /** The sequence in reverse order (`[::-1]`, `.iloc[::-1]`). */
  function Reverse<T>(s: seq<T>): (r: seq<T>)
    ensures |r| == |s|
    ensures forall i :: 0 <= i < |s| ==> r[i] == s[|s| - 1 - i]
  {
    if s == [] then [] else Reverse(s[1..]) + [s[0]]
  }

  /** The day numbers of the column headers:
      `["day_%d" % (d + 1) for d in np.arange(run_from, run_from + run_days, 1)]`. */
  function DayLabels(runFrom: int, runDays: int): (labels: seq<int>)
    ensures |labels| == if runDays > 0 then runDays else 0
    ensures forall j :: 0 <= j < |labels| ==> labels[j] == runFrom + j + 1
  {
    if runDays <= 0 then [] else DayLabels(runFrom, runDays - 1) + [runFrom + runDays]
  }

  /** The transform of ExportResult, failing where numpy or pandas raise. */
  function Export(grid: seq<seq<real>>, calcPrice: seq<real>, runFrom: int, runDays: int)
    : (r: Result<Table, ExportError>)
    ensures r.Ok? <==> && |grid| > 0 && Rectangular(grid) && |calcPrice| == |grid|
                       && |Slice(grid[0], runFrom, runFrom + runDays)| == |DayLabels(runFrom, runDays)|
    ensures |grid| == 0 ==> r == Err(NotTwoDimensional)
    ensures |grid| > 0 && !Rectangular(grid) ==> r == Err(Ragged)
    ensures |grid| > 0 && Rectangular(grid) && |calcPrice| != |grid| ==> r == Err(RowLabelsMismatch)
  {
    if |grid| == 0 then Err(NotTwoDimensional)
    else if !Rectangular(grid) then Err(Ragged)
    else
      var selected := seq(|grid|, i requires 0 <= i < |grid| => Slice(grid[i], runFrom, runFrom + runDays));
      var cells := Reverse(selected);
      if |calcPrice| != |grid| then Err(RowLabelsMismatch)
      else
        var labels := DayLabels(runFrom, runDays);
        if |labels| != |Slice(grid[0], runFrom, runFrom + runDays)| then Err(DayLabelsMismatch)
        else Ok(Table(Reverse(calcPrice), labels, cells))
  }

  /** The fourth error: once the grid is a non-empty rectangle with one price
      per row, an export that fails does so because pandas refuses the day
      labels. */
  lemma ExportDayLabelsError(grid: seq<seq<real>>, calcPrice: seq<real>, runFrom: int, runDays: int)
    requires |grid| > 0 && Rectangular(grid) && |calcPrice| == |grid|
    ensures var r := Export(grid, calcPrice, runFrom, runDays);
            !r.Ok? ==> r == Err(DayLabelsMismatch)
  {
  }

  /** With the window inside the simulated days, the export keeps every row,
      puts grid row n-1-r at position r under the price calcPrice[n-1-r],
      keeps exactly the days [runFrom, runFrom + runDays) of it, and labels
      column j with day runFrom + j + 1. */
  lemma ExportWindow(grid: seq<seq<real>>, calcPrice: seq<real>, runFrom: int, runDays: int)
    requires |grid| > 0 && Rectangular(grid) && |calcPrice| == |grid|
    requires 0 <= runFrom && 0 <= runDays && runFrom + runDays <= |grid[0]|
    ensures var r := Export(grid, calcPrice, runFrom, runDays);
            var n := |grid|;
            && r.Ok?
            && |r.value.cells| == n && |r.value.rowLabels| == n
            && (forall i :: 0 <= i < n ==> r.value.cells[i] == grid[n - 1 - i][runFrom..runFrom + runDays])
            && (forall i :: 0 <= i < n ==> r.value.rowLabels[i] == calcPrice[n - 1 - i])
            && |r.value.dayLabels| == runDays
            && (forall j :: 0 <= j < runDays ==> r.value.dayLabels[j] == runFrom + j + 1)
  {
    var n := |grid|;
    var t := Export(grid, calcPrice, runFrom, runDays).value;
    forall i | 0 <= i < n ensures t.cells[i] == grid[n - 1 - i][runFrom..runFrom + runDays] {
      var row := grid[n - 1 - i];
      assert |row| == |grid[0]|;
      assert Slice(row, runFrom, runFrom + runDays) == row[runFrom..runFrom + runDays];
    }
  }

  /** A window that runs past the last simulated day is clamped by numpy to
      fewer columns than run_days, so pandas refuses the day labels. */
  lemma ExportPastLastDay(grid: seq<seq<real>>, calcPrice: seq<real>, runFrom: int, runDays: int)
    requires |grid| > 0 && Rectangular(grid) && |calcPrice| == |grid|
    requires 0 <= runFrom <= |grid[0]| < runFrom + runDays
    ensures Export(grid, calcPrice, runFrom, runDays) == Err(DayLabelsMismatch)
  {
  }

  /** Whatever the window, a successful export lists the grid rows bottom
      to top, each under its own price: row i is grid row n-1-i, cut to the
      window, labelled calcPrice[n-1-i]. */
  lemma ExportReversesRows(grid: seq<seq<real>>, calcPrice: seq<real>, runFrom: int, runDays: int)
    requires Export(grid, calcPrice, runFrom, runDays).Ok?
    ensures var t := Export(grid, calcPrice, runFrom, runDays).value;
            var n := |grid|;
            && |t.rowLabels| == |t.cells| == n
            && forall i :: 0 <= i < n ==>
                 && t.rowLabels[i] == calcPrice[n - 1 - i]
                 && t.cells[i] == Slice(grid[n - 1 - i], runFrom, runFrom + runDays)
  {
  }
}
