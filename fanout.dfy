/**
 * The publisher report (`handle_user_option`): the date window, the fan-out that stores one
 * per-date aggregate per crate in a shared map, and the grid built from that map. The
 * concurrent fetches are modelled by their end state, one insertion per crate in turn.
 */
module FanOut {
  import opened Types
  import opened Aggregation
  import DateWindow
  import Report

  /** The registry fetch of one crate's version downloads; `None` stands for `Err`. */
  type Fetch = string -> Option<seq<VersionDownload>>

  /** The shared map once every crate has been fetched: one aggregate per listed crate. */
  function Collected(crates: seq<Crate>, fetch: Fetch, days: seq<Date>): (all: map<string, DailyDownloads>)
    ensures all.Keys == Report.Names(crates)
    ensures forall n :: n in all ==> all[n] == Aggregate(fetch(n), days)
  {
    if crates == [] then map[]
    else
      var front, last := crates[..|crates| - 1], crates[|crates| - 1];
      assert Report.Names(crates) == Report.Names(front) + {last.name} by {
        assert crates == front + [last];
      }
      Collected(front, fetch, days)[last.name := Aggregate(fetch(last.name), days)]
  }

  /**
   * A failed fetch is absorbed: that crate gets an all-zero aggregate and every other crate
   * gets the aggregate it would get if the failed crate were not listed at all.
   */
  lemma FailureIsolated(crates: seq<Crate>, fetch: Fetch, days: seq<Date>, failed: nat)
    requires failed < |crates| && fetch(crates[failed].name).None?
    ensures forall d :: d in Collected(crates, fetch, days)[crates[failed].name] ==>
      Collected(crates, fetch, days)[crates[failed].name][d] == 0
    ensures forall n :: n in Collected(crates, fetch, days) && n != crates[failed].name ==>
      var others := crates[..failed] + crates[failed + 1..];
      n in Collected(others, fetch, days) && Collected(crates, fetch, days)[n] == Collected(others, fetch, days)[n]
  {
    var others := crates[..failed] + crates[failed + 1..];
    forall n | n in Collected(crates, fetch, days) && n != crates[failed].name
      ensures n in Report.Names(others)
    {
      var i :| 0 <= i < |crates| && crates[i].name == n;
      if i < failed {
        assert others[i] == crates[i];
      } else {
        assert others[i - 1] == crates[i];
      }
    }
  }

  /**
   * The fan-out of `handle_user_option`: for each listed crate, aggregate its fetch over the
   * window and insert the result under the crate's name.
   */
  method CollectDownloads(crates: seq<Crate>, fetch: Fetch, days: seq<Date>)
    returns (all: map<string, DailyDownloads>)
    ensures all == Collected(crates, fetch, days)
    ensures all.Keys == Report.Names(crates)
    ensures forall i :: 0 <= i < |crates| ==> all[crates[i].name] == Aggregate(fetch(crates[i].name), days)
  {
    all := map[];
    for i := 0 to |crates|
      invariant all == Collected(crates[..i], fetch, days)
    {
      var downloadCount := AggregateDates(fetch(crates[i].name), days);
      assert crates[..i + 1][..i] == crates[..i];
      all := all[crates[i].name := downloadCount];
    }
    assert crates[..|crates|] == crates;
  }

  /**
   * `handle_user_option` after the listing has been fetched, table output: the window of the
   * last `n` days, the collected aggregates, then the grid. With distinct crate names the
   * "Total" row is the column sum of the data rows.
   */
  method UserReport(crates: seq<Crate>, fetch: Fetch, today: Date, n: nat) returns (grid: Report.Grid)
    ensures grid == Report.CratesGrid(crates, Collected(crates, fetch, DateWindow.Window(today, n)), DateWindow.Window(today, n))
    ensures |grid| == |crates| + 2
    ensures forall row :: row in grid ==> |row| == n + 2
    ensures Report.DistinctNames(crates) ==> Report.TotalsAreSums(grid[1..|crates| + 1], grid[|crates| + 1])
  {
    var days := DateWindow.LastDays(today, n);
    var all := CollectDownloads(crates, fetch, days);
    grid := Report.CratesTable(crates, all, days);
    Report.GridRows(crates, all, days);
    if Report.DistinctNames(crates) {
      Report.TotalsAreColumnSums(crates, all, days);
    }
  }
}
