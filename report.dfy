/**
 * The grid of the publisher report (`print_crates_table` without its rendering): a header,
 * one row per crate in listing order, and a "Total" row.
 */
module Report {
  import opened Types

  /** One cell of the grid; a date cell is rendered as `%Y-%m-%d`, which is not modelled. */
  datatype Cell = Label(text: string) | DateCell(date: Date) | Number(value: nat)

  type Grid = seq<seq<Cell>>

  /**
   * The count shown for a crate and a day: `daily.get(name).unwrap_or(zero).get(day)
   * .unwrap_or(0)`. A crate or a day missing from the map shows 0.
   */
  function CellValue(daily: map<string, DailyDownloads>, name: string, day: Date): (r: nat)
    ensures name !in daily || day !in daily[name] ==> r == 0
    ensures name in daily && day in daily[name] ==> r == daily[name][day]
  {
    if name in daily && day in daily[name] then daily[name][day] else 0
  }

  /** The fold `init + downloads` over the crates' lifetime downloads: no crate's count exceeds it. */
  function Lifetime(crates: seq<Crate>): (r: nat)
    ensures forall i :: 0 <= i < |crates| ==> crates[i].downloads <= r
  {
    if crates == [] then 0 else Lifetime(crates[..|crates| - 1]) + crates[|crates| - 1].downloads
  }

  /**
   * The sum of the cells of `names` at `day`, independent of any iteration order: 0 for no
   * names, and no name's cell exceeds it.
   */
  ghost function SumOver(daily: map<string, DailyDownloads>, names: set<string>, day: Date): (r: nat)
    ensures names == {} ==> r == 0
    ensures forall n :: n in names ==> CellValue(daily, n, day) <= r
    decreases names
  {
    if names == {} then 0
    else
      var n :| n in names;
      CellValue(daily, n, day) + SumOver(daily, names - {n}, day)
  }

  /**
   * `daily_downloads.values().map(|m| m.get(day).unwrap_or(&0)).sum()`: every entry of the
   * map counts, whatever crate it belongs to, so no entry's count for the day exceeds it;
   * an empty map gives 0.
   */
  ghost function DayTotal(daily: map<string, DailyDownloads>, day: Date): (r: nat)
    ensures daily == map[] ==> r == 0
    ensures forall n :: n in daily && day in daily[n] ==> daily[n][day] <= r
  {
    SumOver(daily, daily.Keys, day)
  }

  /** Any element can be taken out of the sum first. */
  lemma {:induction false} SumOverRemove(daily: map<string, DailyDownloads>, names: set<string>, n: string, day: Date)
    requires n in names
    ensures SumOver(daily, names, day) == CellValue(daily, n, day) + SumOver(daily, names - {n}, day)
    decreases names
  {
    var m :| m in names && SumOver(daily, names, day) == CellValue(daily, m, day) + SumOver(daily, names - {m}, day);
    if m != n {
      SumOverRemove(daily, names - {m}, n, day);
      SumOverRemove(daily, names - {n}, m, day);
      assert names - {m} - {n} == names - {n} - {m};
    }
  }

  /** The header: the two labels, then each window date in window order. */
  function DateCells(days: seq<Date>): (r: seq<Cell>)
    ensures |r| == |days|
    ensures forall j :: 0 <= j < |days| ==> r[j] == DateCell(days[j])
  {
    if days == [] then [] else DateCells(days[..|days| - 1]) + [DateCell(days[|days| - 1])]
  }

  function HeaderRow(days: seq<Date>): (r: seq<Cell>)
    ensures |r| == |days| + 2
    ensures r[0] == Label("Crate Name") && r[1] == Label("Download Count")
    ensures forall col :: 2 <= col < |r| ==> r[col] == DateCell(days[col - 2])
  {
    [Label("Crate Name"), Label("Download Count")] + DateCells(days)
  }

  /** The day cells of one crate, zero-filled. */
  function DayCells(daily: map<string, DailyDownloads>, name: string, days: seq<Date>): (r: seq<Cell>)
    ensures |r| == |days|
    ensures forall j :: 0 <= j < |days| ==> r[j] == Number(CellValue(daily, name, days[j]))
  {
    if days == [] then []
    else DayCells(daily, name, days[..|days| - 1]) + [Number(CellValue(daily, name, days[|days| - 1]))]
  }

  function DataRow(c: Crate, daily: map<string, DailyDownloads>, days: seq<Date>): (r: seq<Cell>)
    ensures |r| == |days| + 2
    ensures r[0] == Label(c.name) && r[1] == Number(c.downloads)
    ensures forall col :: 2 <= col < |r| ==> r[col] == Number(CellValue(daily, c.name, days[col - 2]))
  {
    [Label(c.name), Number(c.downloads)] + DayCells(daily, c.name, days)
  }

  /** One data row per crate, in the order of `crates`. */
  function DataRows(crates: seq<Crate>, daily: map<string, DailyDownloads>, days: seq<Date>): (r: Grid)
    ensures |r| == |crates|
    ensures forall i :: 0 <= i < |crates| ==> r[i] == DataRow(crates[i], daily, days)
  {
    if crates == [] then []
    else DataRows(crates[..|crates| - 1], daily, days) + [DataRow(crates[|crates| - 1], daily, days)]
  }

  ghost function TotalCells(daily: map<string, DailyDownloads>, days: seq<Date>): (r: seq<Cell>)
    ensures |r| == |days|
    ensures forall j :: 0 <= j < |days| ==> r[j] == Number(DayTotal(daily, days[j]))
  {
    if days == [] then [] else TotalCells(daily, days[..|days| - 1]) + [Number(DayTotal(daily, days[|days| - 1]))]
  }

  ghost function TotalRow(crates: seq<Crate>, daily: map<string, DailyDownloads>, days: seq<Date>): (r: seq<Cell>)
    ensures |r| == |days| + 2
    ensures r[0] == Label("Total") && r[1] == Number(Lifetime(crates))
    ensures forall col :: 2 <= col < |r| ==> r[col] == Number(DayTotal(daily, days[col - 2]))
  {
    [Label("Total"), Number(Lifetime(crates))] + TotalCells(daily, days)
  }

  /** The whole grid, as a value: a header and a "Total" row around the data rows, all 2 + days wide. */
  ghost function CratesGrid(crates: seq<Crate>, daily: map<string, DailyDownloads>, days: seq<Date>): (r: Grid)
    ensures |r| == |crates| + 2
    ensures forall row :: row in r ==> |row| == |days| + 2
  {
    [HeaderRow(days)] + DataRows(crates, daily, days) + [TotalRow(crates, daily, days)]
  }

  /** The number shown in column `col` of a row; 0 for a label or a missing cell. */
  function NumberAt(row: seq<Cell>, col: nat): nat
  {
    if col < |row| && row[col].Number? then row[col].value else 0
  }

  /** The sum of column `col` over some rows. */
  function ColumnSum(rows: Grid, col: nat): nat
  {
    if rows == [] then 0 else ColumnSum(rows[..|rows| - 1], col) + NumberAt(rows[|rows| - 1], col)
  }

  /** From column 1 on, each cell of `total` is the sum of that column over `rows`. */
  predicate TotalsAreSums(rows: Grid, total: seq<Cell>)
  {
    forall col :: 1 <= col < |total| ==> total[col] == Number(ColumnSum(rows, col))
  }

  /** The names of the crates. */
  function Names(crates: seq<Crate>): set<string>
  {
    set i | 0 <= i < |crates| :: crates[i].name
  }

  /** No two crates of the listing share a name. */
  predicate DistinctNames(crates: seq<Crate>)
  {
    forall i, j :: 0 <= i < j < |crates| ==> crates[i].name != crates[j].name
  }

  /** The sum of one day's cells over the crates, in listing order. */
  function CrateSum(crates: seq<Crate>, daily: map<string, DailyDownloads>, day: Date): nat
  {
    if crates == [] then 0
    else CrateSum(crates[..|crates| - 1], daily, day) + CellValue(daily, crates[|crates| - 1].name, day)
  }

  lemma {:induction false} DayColumn(crates: seq<Crate>, daily: map<string, DailyDownloads>, days: seq<Date>, col: nat)
    requires 2 <= col < |days| + 2
    ensures ColumnSum(DataRows(crates, daily, days), col) == CrateSum(crates, daily, days[col - 2])
    decreases |crates|
  {
    if crates != [] {
      var rows := DataRows(crates, daily, days);
      assert rows[..|rows| - 1] == DataRows(crates[..|crates| - 1], daily, days);
      DayColumn(crates[..|crates| - 1], daily, days, col);
    }
  }

  /** The lifetime cell of the "Total" row is the sum of the data rows' lifetime cells. */
  lemma {:induction false} LifetimeColumn(crates: seq<Crate>, daily: map<string, DailyDownloads>, days: seq<Date>)
    ensures ColumnSum(DataRows(crates, daily, days), 1) == Lifetime(crates)
    decreases |crates|
  {
    if crates != [] {
      var rows := DataRows(crates, daily, days);
      assert rows[..|rows| - 1] == DataRows(crates[..|crates| - 1], daily, days);
      LifetimeColumn(crates[..|crates| - 1], daily, days);
    }
  }

  /** With distinct names, summing over the listing is summing over the set of names. */
  lemma {:induction false} DistinctCrateSum(crates: seq<Crate>, daily: map<string, DailyDownloads>, day: Date)
    requires DistinctNames(crates)
    ensures CrateSum(crates, daily, day) == SumOver(daily, Names(crates), day)
    decreases |crates|
  {
    if crates != [] {
      var front, last := crates[..|crates| - 1], crates[|crates| - 1];
      assert Names(crates) == Names(front) + {last.name} by {
        assert crates == front + [last];
      }
      assert last.name !in Names(front);
      DistinctCrateSum(front, daily, day);
      SumOverRemove(daily, Names(crates), last.name, day);
      assert Names(crates) - {last.name} == Names(front);
    }
  }

  /** The rows of the grid: the header, one data row per crate in listing order, the totals. */
  lemma GridRows(crates: seq<Crate>, daily: map<string, DailyDownloads>, days: seq<Date>)
    ensures CratesGrid(crates, daily, days)[0] == HeaderRow(days)
    ensures forall i :: 0 <= i < |crates| ==> CratesGrid(crates, daily, days)[1 + i] == DataRow(crates[i], daily, days)
    ensures CratesGrid(crates, daily, days)[1..|crates| + 1] == DataRows(crates, daily, days)
    ensures CratesGrid(crates, daily, days)[|crates| + 1] == TotalRow(crates, daily, days)
  {
    var rows := DataRows(crates, daily, days);
    assert CratesGrid(crates, daily, days)[1..|crates| + 1] == rows;
  }

  /** A day cell of the "Total" row is its column's sum once the map's total is the listing's. */
  lemma DayColumnTotal(crates: seq<Crate>, daily: map<string, DailyDownloads>, days: seq<Date>, col: nat)
    requires 2 <= col < |days| + 2
    requires DayTotal(daily, days[col - 2]) == CrateSum(crates, daily, days[col - 2])
    ensures TotalRow(crates, daily, days)[col] == Number(ColumnSum(DataRows(crates, daily, days), col))
  {
    DayColumn(crates, daily, days, col);
    var total := TotalRow(crates, daily, days);
    assert total[col] == Number(DayTotal(daily, days[col - 2]));
  }

  /**
   * The "Total" row is the column sum of the data rows: always for the lifetime column, and
   * for each day column when the map holds exactly the listed crates.
   */
  lemma TotalsAreColumnSums(crates: seq<Crate>, daily: map<string, DailyDownloads>, days: seq<Date>)
    requires DistinctNames(crates)
    requires daily.Keys == Names(crates)
    ensures TotalsAreSums(DataRows(crates, daily, days), TotalRow(crates, daily, days))
  {
    LifetimeColumn(crates, daily, days);
    DayColumnsTotal(crates, daily, days);
  }

  lemma DayColumnsTotal(crates: seq<Crate>, daily: map<string, DailyDownloads>, days: seq<Date>)
    requires DistinctNames(crates)
    requires daily.Keys == Names(crates)
    ensures forall col :: 2 <= col < |days| + 2 ==>
      TotalRow(crates, daily, days)[col] == Number(ColumnSum(DataRows(crates, daily, days), col))
  {
    forall col | 2 <= col < |days| + 2
      ensures TotalRow(crates, daily, days)[col] == Number(ColumnSum(DataRows(crates, daily, days), col))
    {
      ListedDayTotal(crates, daily, days[col - 2]);
      DayColumnTotal(crates, daily, days, col);
    }
  }

  /** With distinct names and the map keyed exactly by them, a day's map total is the listing's sum. */
  lemma ListedDayTotal(crates: seq<Crate>, daily: map<string, DailyDownloads>, day: Date)
    requires DistinctNames(crates)
    requires daily.Keys == Names(crates)
    ensures DayTotal(daily, day) == CrateSum(crates, daily, day)
  {
    DistinctCrateSum(crates, daily, day);
  }

  /** Crates A (lifetime 100) and B (lifetime 50) with 10 and 5 downloads on day 1. */
  lemma TotalsExample()
    ensures TotalRow([Crate("A", 100), Crate("B", 50)], map["A" := map[1 := 10], "B" := map[1 := 5]], [1])
         == [Label("Total"), Number(150), Number(15)]
  {
    var crates := [Crate("A", 100), Crate("B", 50)];
    var daily := map["A" := map[1 := 10], "B" := map[1 := 5]];
    assert daily.Keys == {"A", "B"};
    SumOverRemove(daily, {"A", "B"}, "A", 1);
    assert {"A", "B"} - {"A"} == {"B"};
    SumOverRemove(daily, {"B"}, "B", 1);
    assert {"B"} - {"B"} == {};
    assert crates[..1] == [Crate("A", 100)] && [Crate("A", 100)][..0] == [];
  }

  /** The header loop: the two labels, then one cell per window date. */
  method Header(days: seq<Date>) returns (header: seq<Cell>)
    ensures header == HeaderRow(days)
  {
    header := [Label("Crate Name"), Label("Download Count")];
    for j := 0 to |days|
      invariant header == HeaderRow(days[..j])
    {
      assert days[..j + 1][..j] == days[..j];
      header := header + [DateCell(days[j])];
    }
    assert days[..|days|] == days;
  }

  /** `default_zero_hash`: every window date mapped to 0. */
  method ZeroFill(days: seq<Date>) returns (zero: DailyDownloads)
    ensures zero.Keys == Elements(days)
    ensures forall d :: d in zero ==> zero[d] == 0
  {
    zero := map[];
    for j := 0 to |days|
      invariant zero.Keys == Elements(days[..j])
      invariant forall d :: d in zero ==> zero[d] == 0
    {
      assert days[..j + 1] == days[..j] + [days[j]];
      zero := zero[days[j] := 0];
    }
    assert days[..|days|] == days;
  }

  /** One data row: name, lifetime downloads, then the crate's count for each window day. */
  method CrateRow(c: Crate, daily: map<string, DailyDownloads>, zero: DailyDownloads, days: seq<Date>)
    returns (row: seq<Cell>)
    requires forall d :: d in zero ==> zero[d] == 0
    ensures row == DataRow(c, daily, days)
  {
    row := [Label(c.name), Number(c.downloads)];
    var counts := if c.name in daily then daily[c.name] else zero;
    for j := 0 to |days|
      invariant row == DataRow(c, daily, days[..j])
    {
      var day := days[j];
      var count := if day in counts then counts[day] else 0;
      assert days[..j + 1][..j] == days[..j];
      row := row + [Number(count)];
    }
    assert days[..|days|] == days;
  }

  /** The crate loop: one data row per crate, in listing order. */
  method CrateRows(crates: seq<Crate>, daily: map<string, DailyDownloads>, zero: DailyDownloads, days: seq<Date>)
    returns (rows: Grid)
    requires forall d :: d in zero ==> zero[d] == 0
    ensures rows == DataRows(crates, daily, days)
  {
    rows := [];
    for i := 0 to |crates|
      invariant |rows| == i
      invariant forall k :: 0 <= k < i ==> rows[k] == DataRow(crates[k], daily, days)
    {
      var row := CrateRow(crates[i], daily, zero, days);
      rows := rows + [row];
    }
  }

  /** One day's total over every entry of the map, visited in an unspecified order. */
  method DaySum(daily: map<string, DailyDownloads>, day: Date) returns (total: nat)
    ensures total == DayTotal(daily, day)
  {
    total := 0;
    var remaining := daily.Keys;
    while remaining != {}
      invariant remaining <= daily.Keys
      invariant total + SumOver(daily, remaining, day) == DayTotal(daily, day)
      decreases remaining
    {
      var name :| name in remaining;
      SumOverRemove(daily, remaining, name, day);
      var counts := daily[name];
      total := total + if day in counts then counts[day] else 0;
      remaining := remaining - {name};
    }
  }

  /** The "Total" row: the lifetime fold, then each window day's total. */
  method Totals(crates: seq<Crate>, daily: map<string, DailyDownloads>, days: seq<Date>) returns (row: seq<Cell>)
    ensures row == TotalRow(crates, daily, days)
  {
    row := [Label("Total"), Number(Lifetime(crates))];
    for j := 0 to |days|
      invariant row == TotalRow(crates, daily, days[..j])
    {
      var total := DaySum(daily, days[j]);
      assert days[..j + 1][..j] == days[..j];
      row := row + [Number(total)];
    }
    assert days[..|days|] == days;
  }

  /** `print_crates_table` up to the rendering: the grid of cells it hands to the table. */
  method CratesTable(crates: seq<Crate>, daily: map<string, DailyDownloads>, days: seq<Date>) returns (grid: Grid)
    ensures grid == CratesGrid(crates, daily, days)
    ensures |grid| == |crates| + 2
    ensures grid[0] == HeaderRow(days)
    ensures forall i :: 0 <= i < |crates| ==> grid[1 + i] == DataRow(crates[i], daily, days)
    ensures grid[|crates| + 1] == TotalRow(crates, daily, days)
  {
    var header := Header(days);
    var zero := ZeroFill(days);
    var rows := CrateRows(crates, daily, zero, days);
    var total := Totals(crates, daily, days);
    grid := [header] + rows + [total];
    GridRows(crates, daily, days);
  }
}
