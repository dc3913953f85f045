# crabst download statistics — a Dafny model

crabst is a command-line tool that reports crates.io download statistics, for one crate or
for every crate of a publisher. This project models the sequential logic inside it
(`src/main.rs`) and proves what that logic promises:

- **Per-date aggregation** (`get_crate_downloads`, `get_crate_downloads_multi`). Each
  requested date maps to the sum of the counts of all version records on that date, 0 when
  the fetch failed (module `Aggregation`).
- **The trailing date window** of the publisher report (module `DateWindow`). It pushes
  today, yesterday, … and then reverses the vector.
- **The single-crate series** (module `DailySeries`). `group_by` on the date merges each run
  of adjacent records with the same date, and each run's downloads are folded into one sum.
- **The report grid** built by `print_crates_table` (module `Report`): a header, one row per
  crate in listing order with zero-filled day cells, and a "Total" row.
- **The fan-out** of `handle_user_option` (module `FanOut`). Its end state is modelled as a
  sequential loop that inserts `name -> aggregate` for each crate. `FanOut.UserReport` then
  composes window, fan-out and grid.

Modelling choices:

- Dates are integer day ordinals, and "today" is a parameter.
- Counts are unbounded naturals.
- A registry fetch is an `Option<seq<VersionDownload>>`, where `None` stands for `Err`.
- In the fan-out, the fetch is a function from crate name to such an option.
- `HashMap`s are Dafny `map`s and `Vec`s are sequences.
- A table is a `seq<seq<Cell>>`; rendering it to text is not modelled.

Two behaviours of the code the model keeps:

- A window of 0 days is an empty window: the loop simply runs zero times (`src/main.rs:146`).
- Aggregation filters all records once per requested date. It does not make a single
  bucketing pass, and the model does not prove the two equivalent.

## Model

| member | source | states |
|---|---|---|
| `Aggregation.SumDownloads` | src/main.rs:392 | the download fold (also `src/main.rs:374`): no record's count exceeds it, and it is 0 exactly when every record's count is 0 |
| `Aggregation.OnDate` | src/main.rs:391 | the date filter keeps only records of the input dated `d`, at most as many as the input; it is empty when no record has the date and the whole input when every record has it |
| `Aggregation.DownloadsOn` | src/main.rs:388-392 | filter then fold: never more than the fold over all records, 0 when no record has the date, the whole fold when every record has it |
| `Aggregation.CrateDownloads` | src/main.rs:367-377 | a failed fetch counts 0; otherwise the count is at most the sum of all records and is 0 when no record has the date |
| `Aggregation.Aggregate` | src/main.rs:385-397 | the aggregate's keys are exactly the requested dates, and each maps to that date's per-crate count |
| `Aggregation.AggregateDates` | src/main.rs:379-398 | the insert loop builds exactly `Aggregate`: keys are the requested dates; each holds the sum over that date's records, or 0 for every date when the fetch failed |
| `Aggregation.AggregateExample` | src/main.rs:385-397 | records (v1, day 1, 5), (v2, day 1, 3), (v1, day 2, 0) over days 1..3 aggregate to {1: 8, 2: 0, 3: 0} |
| `Aggregation.FailedFetchIsZero` | src/main.rs:393 | with a failed fetch every requested date is present and maps to 0 |
| `Aggregation.SumDownloadsAppend` | src/main.rs:392 | the download fold over concatenated records is the sum of the two folds |
| `Aggregation.DownloadsOnAppend` | src/main.rs:388-392 | per-date sums are additive over concatenated record lists, so duplicate version/date records are summed, not overwritten |
| `Aggregation.DownloadsOnSingle` | src/main.rs:390-392 | one record adds its count to its own date and nothing to any other date |
| `Aggregation.OtherDatesIgnored` | src/main.rs:391 | records on other dates, inserted anywhere, do not change a date's sum |
| `Aggregation.DownloadsOnPermutation` | src/main.rs:388-392 | a date's sum does not depend on the order of the records |
| `Aggregation.FilterBounded` | src/main.rs:388-392 | filtering the records by date never increases the download fold |
| `DateWindow.Window` | src/main.rs:145-156 | the window has `n` entries, the last is today, entry `i` is `n-1-i` days ago |
| `DateWindow.WindowConsecutive` | src/main.rs:145-156 | for one clock reading `today`, the window is strictly ascending and each day is one after the previous |
| `DateWindow.Reverse` | src/main.rs:156 | reversal keeps the length and puts element `k` at position `len-1-k` |
| `DateWindow.LastDays` | src/main.rs:145-156 | the push-then-reverse loop yields, for one clock reading `today`, exactly `Window(today, n)`: `n` consecutive ascending days ending today, empty for `n = 0` |
| `DailySeries.GroupBy` | src/main.rs:228 | the runs are non-empty, each has one date, they concatenate back to the input in order, and neighbouring runs have different dates |
| `DailySeries.Summaries` | src/main.rs:228-230 | one `(date, fold)` entry per run, in run order: entry `k` is run `k`'s date and the sum of its downloads |
| `DailySeries.SummariesTotals` | src/main.rs:229 | the run totals add up to the downloads of all the records in the runs |
| `DailySeries.GroupKeys` | src/main.rs:228-231 | the series' dates are the records' dates in input order with adjacent repeats dropped |
| `DailySeries.GroupDailyDownloads` | src/main.rs:227-231 | one (date, total) per run, in input date order; neighbouring entries have different dates; the totals sum to all the downloads |
| `Report.CellValue` | src/main.rs:320-324 | a crate missing from the map, or a day missing from its aggregate, shows 0; otherwise the stored count |
| `Report.Lifetime` | src/main.rs:337 | the lifetime fold over the crates: no crate's lifetime count exceeds it |
| `Report.SumOver` | src/main.rs:343-346 | the order-free sum of the names' cells for a day: 0 for no names, and no name's cell exceeds it |
| `Report.DayTotal` | src/main.rs:342-346 | a day's sum over every map entry: no entry's count for that day exceeds it, and an empty map gives 0 |
| `Report.SumOverRemove` | src/main.rs:343-346 | the order-free sum over map entries can take out any entry first |
| `Report.DateCells` | src/main.rs:299-301 | one date cell per window day, in window order |
| `Report.HeaderRow` | src/main.rs:298-301 | the header is "Crate Name", "Download Count", then each window date in order: 2 + days cells |
| `Report.DayCells` | src/main.rs:317-328 | one zero-filled count cell per window day, in window order |
| `Report.DataRow` | src/main.rs:312-330 | a data row is the crate's name, its lifetime downloads, then its zero-filled count for each day: 2 + days cells |
| `Report.DataRows` | src/main.rs:312-333 | one data row per crate, in the order of the crate listing |
| `Report.TotalCells` | src/main.rs:341-351 | one cell per window day holding that day's total over the map |
| `Report.TotalRow` | src/main.rs:335-351 | "Total", the lifetime sum of all crates, then each day's total over every map entry: 2 + days cells |
| `Report.CratesGrid` | src/main.rs:297-353 | the grid has one row per crate plus two, and every row has 2 + days cells |
| `Report.GridRows` | src/main.rs:297-353 | the grid is the header, the data rows in listing order, then the totals row |
| `Report.LifetimeColumn` | src/main.rs:335-339 | the Total row's lifetime cell equals the sum of the data rows' lifetime cells |
| `Report.DayColumn` | src/main.rs:317-328 | a day column's sum over the data rows is the sum of the crates' cells for that day |
| `Report.DistinctCrateSum` | src/main.rs:343-346 | with distinct crate names, summing a day over the listing equals the order-free sum over the set of names |
| `Report.ListedDayTotal` | src/main.rs:342-346 | with distinct names and the map keyed exactly by them, a day's total over the map equals the sum over the listing |
| `Report.DayColumnTotal` | src/main.rs:341-351 | a Total day cell is its column's sum when the map's total equals the listing's sum |
| `Report.DayColumnsTotal` | src/main.rs:341-351 | with distinct names and the map keyed exactly by them, every day cell of the Total row is its column's sum over the data rows |
| `Report.TotalsAreColumnSums` | src/main.rs:335-351 | with distinct names and the map keyed exactly by them, every Total cell from column 1 on is its column's sum over the data rows |
| `Report.TotalsExample` | src/main.rs:335-351 | crates A (100) and B (50) with 10 and 5 downloads on the one window day give the Total row "Total", 150, 15 |
| `Report.Header` | src/main.rs:298-301 | the header-building loop produces `HeaderRow(days)` |
| `Report.ZeroFill` | src/main.rs:303-306 | `default_zero_hash` has exactly the window days as keys, each mapped to 0 |
| `Report.CrateRow` | src/main.rs:312-330 | the row-building loop, with the zero map as fallback, produces `DataRow` |
| `Report.CrateRows` | src/main.rs:312-333 | the crate loop, with the zero map as fallback, produces `DataRows`: one data row per crate in listing order |
| `Report.DaySum` | src/main.rs:342-347 | summing over the map's entries in any order gives `DayTotal` |
| `Report.Totals` | src/main.rs:335-351 | the Total-row loop produces `TotalRow` |
| `Report.CratesTable` | src/main.rs:292-353 | the table's grid is the header, the listing-ordered data rows and the Total row, with `CratesGrid` as its value |
| `FanOut.Collected` | src/main.rs:173-191 | the shared map holds exactly one entry per listed crate name, each that crate's aggregate over the window |
| `FanOut.FailureIsolated` | src/main.rs:180-185 | a failed crate gets an all-zero aggregate; every other crate's entry equals the one it gets when the failed crate is not listed |
| `FanOut.CollectDownloads` | src/main.rs:173-191 | inserting each crate's aggregate in turn gives `Collected`, keyed by exactly the crate names |
| `FanOut.UserReport` | src/main.rs:137-208 | the report grid is built from the window and the collected map; it has one row per crate plus header and totals, each 2 + n wide; with distinct names the Total row is the column sums |

## Left out

- Command-line parsing, the usage text, the `-l` default of 1 and the choice of report mode
  (`src/main.rs:27-69`, `137-144`, `359-365`) are argument plumbing; the window length is
  a parameter.
- The crates.io client calls (`user`, `crates`, `crate_downloads`, `get_crate`,
  `crate_reverse_dependencies`) are network I/O. Their results are parameters. The `expect`
  panics on the listing, the user and `get_crate` are not modelled.
- The tokio tasks, `buffer_unordered(3)` and the `Arc<Mutex<…>>` lock (`src/main.rs:173-191`)
  are concurrency. Only the end state is modelled, as a sequential loop. Completion order
  cannot matter because each crate writes its own key.
- The progress spinner and its messages are presentation.
- The comfy_table rendering, cell alignment, the `%Y-%m-%d` date formatting and the stdout
  writes are not modelled. The grid holds date cells and numbers, not text.
- The single-crate branches that print are left out. On a failed fetch,
  `handle_crate_option` prints "Failed to get downloads". On success it either plots the
  series with rasciigraph or prints `print_downloads_table`, whose Total is the API's
  lifetime figure. The model stops at the grouped series.
- `DailySeries.GroupDailyDownloads` keeps the run totals as naturals; the code pushes them
  `as f64` (`src/main.rs:230`), which the model does not track.
- The `todo!()` graph output of the publisher report (`src/main.rs:200`) is unimplemented.
- The dependents listing (`src/main.rs:71-102`, `400-418`) is a fetch followed by rendering.
- Chrono calendar arithmetic and the `dotago` wall-clock calls are replaced by day
  ordinals and a `today` parameter.
- `DateWindow.LastDays`: the code reads the clock once per iteration
  (`i.days().ago()`, `src/main.rs:148-149`), so a run that crosses UTC midnight can repeat
  a date and miss the new day; the model reads it once, as `today`.
- `Aggregation.SumDownloads`: counts are unbounded, so the model has no `u64` overflow in
  the download folds and sums.
- `Report.TotalsAreColumnSums`: it needs distinct crate names and a map keyed exactly by
  them. Otherwise the Total row sums every map entry, which the model states in
  `Report.TotalRow` without tying it to the data rows.
