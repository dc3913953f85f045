/**
 * The single-crate report (`handle_crate_option`): `group_by` on the date merges each run of
 * adjacent records with the same date, and each run's downloads are folded into one sum.
 */
module DailySeries {
  import opened Types
  import opened Aggregation

  /** All records of a run share the date of its first record. */
  predicate SameDate(g: seq<VersionDownload>)
  {
    forall i :: 0 <= i < |g| ==> g[i].date == g[0].date
  }

  /** The concatenation of the runs, in order. */
  function Flatten(gs: seq<seq<VersionDownload>>): seq<VersionDownload>
  {
    if gs == [] then [] else gs[0] + Flatten(gs[1..])
  }

  /**
   * `group_by(|vd| vd.date)`: the maximal runs of adjacent records with equal dates. The runs
   * are non-empty, cover the input in order, and two neighbouring runs have different dates.
   */
  function GroupBy(rs: seq<VersionDownload>): (gs: seq<seq<VersionDownload>>)
    ensures Flatten(gs) == rs
    ensures forall k :: 0 <= k < |gs| ==> gs[k] != [] && SameDate(gs[k])
    ensures forall k, l :: 0 <= k && l == k + 1 && l < |gs| ==> gs[k][0].date != gs[l][0].date
    ensures rs != [] ==> gs != [] && gs[0][0] == rs[0]
    decreases |rs|
  {
    if rs == [] then []
    else
      var rest := GroupBy(rs[1..]);
      if rest != [] && rest[0][0].date == rs[0].date then
        var gs := [[rs[0]] + rest[0]] + rest[1..];
        assert gs[1..] == rest[1..];
        assert Flatten(gs) == [rs[0]] + (rest[0] + Flatten(rest[1..]));
        gs
      else
        var gs := [[rs[0]]] + rest;
        assert gs[1..] == rest;
        gs
  }

  /** The date of each run. */
  function Keys(series: seq<(Date, nat)>): seq<Date>
  {
    if series == [] then [] else [series[0].0] + Keys(series[1..])
  }

  /** The sum of every run's total. */
  function Totals(series: seq<(Date, nat)>): nat
  {
    if series == [] then 0 else series[0].1 + Totals(series[1..])
  }

  /** The dates of the records, in input order. */
  function DatesOf(rs: seq<VersionDownload>): seq<Date>
  {
    if rs == [] then [] else [rs[0].date] + DatesOf(rs[1..])
  }

  /** A sequence of dates with every repetition of the previous element dropped. */
  function DropRepeats(ds: seq<Date>): seq<Date>
  {
    if |ds| <= 1 then ds
    else if ds[0] == ds[1] then DropRepeats(ds[1..])
    else [ds[0]] + DropRepeats(ds[1..])
  }

  /** One (date, total) entry per run, in the order of the runs. */
  function Summaries(gs: seq<seq<VersionDownload>>): (r: seq<(Date, nat)>)
    requires forall k :: 0 <= k < |gs| ==> gs[k] != []
    ensures |r| == |gs|
    ensures forall k :: 0 <= k < |gs| ==> r[k] == (gs[k][0].date, SumDownloads(gs[k]))
  {
    if gs == [] then [] else [(gs[0][0].date, SumDownloads(gs[0]))] + Summaries(gs[1..])
  }

  lemma {:induction false} SummariesTotals(gs: seq<seq<VersionDownload>>)
    requires forall k :: 0 <= k < |gs| ==> gs[k] != []
    ensures Totals(Summaries(gs)) == SumDownloads(Flatten(gs))
    decreases |gs|
  {
    if gs != [] {
      SummariesTotals(gs[1..]);
      assert Summaries(gs)[1..] == Summaries(gs[1..]);
      SumDownloadsAppend(gs[0], Flatten(gs[1..]));
    }
  }

  /** The run dates of the records are their dates with adjacent repeats dropped: order is kept. */
  lemma {:induction false} GroupKeys(rs: seq<VersionDownload>)
    ensures Keys(Summaries(GroupBy(rs))) == DropRepeats(DatesOf(rs))
    decreases |rs|
  {
    if rs != [] {
      var rest := GroupBy(rs[1..]);
      GroupKeys(rs[1..]);
      var ds := DatesOf(rs);
      assert ds[1..] == DatesOf(rs[1..]);
      if |rs| == 1 {
        assert rest == [];
      } else {
        assert rest[0][0] == rs[1];
        assert ds[1] == rs[1].date;
        var gs := GroupBy(rs);
        if rest[0][0].date == rs[0].date {
          assert gs == [[rs[0]] + rest[0]] + rest[1..];
          assert Summaries(gs)[1..] == Summaries(rest[1..]);
          assert Summaries(rest)[1..] == Summaries(rest[1..]);
        } else {
          assert gs == [[rs[0]]] + rest;
          assert Summaries(gs)[1..] == Summaries(rest);
        }
      }
    }
  }

  /**
   * The loop of `handle_crate_option`: for each run, pushes its date and the fold of its
   * downloads. Dates keep their input order, neighbouring entries have different dates, and
   * the totals add up to all the downloads.
   */
  method GroupDailyDownloads(rs: seq<VersionDownload>) returns (versionDownloads: seq<(Date, nat)>)
    ensures versionDownloads == Summaries(GroupBy(rs))
    ensures Keys(versionDownloads) == DropRepeats(DatesOf(rs))
    ensures forall k :: 0 <= k < |versionDownloads| - 1 ==> versionDownloads[k].0 != versionDownloads[k + 1].0
    ensures Totals(versionDownloads) == SumDownloads(rs)
  {
    var groups: seq<seq<VersionDownload>> := GroupBy(rs);
    versionDownloads := [];
    for i := 0 to |groups|
      invariant |versionDownloads| == i
      invariant forall k :: 0 <= k < i ==> versionDownloads[k] == (groups[k][0].date, SumDownloads(groups[k]))
    {
      var key := groups[i][0].date;
      var allVersionDownloads := SumDownloads(groups[i]);
      versionDownloads := versionDownloads + [(key, allVersionDownloads)];
    }
    SummariesTotals(groups);
    GroupKeys(rs);
  }
}
