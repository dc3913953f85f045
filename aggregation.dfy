/**
 * Per-date aggregation of a crate's version-download records
 * (`get_crate_downloads` and `get_crate_downloads_multi`).
 */
module Aggregation {
  import opened Types

  /**
   * The fold `init + downloads` from 0, left to right, over the records: no record's count
   * exceeds it, and it is 0 exactly when every count is 0.
   */
  function SumDownloads(rs: seq<VersionDownload>): (r: nat)
    ensures forall i :: 0 <= i < |rs| ==> rs[i].downloads <= r
    ensures r == 0 <==> forall i :: 0 <= i < |rs| ==> rs[i].downloads == 0
  {
    if rs == [] then 0 else SumDownloads(rs[..|rs| - 1]) + rs[|rs| - 1].downloads
  }

  /**
   * The records dated `d`, in their original order (the `filter` step): only records of `rs`
   * dated `d`, none when no record has that date, all of them when every record has it.
   */
  function OnDate(rs: seq<VersionDownload>, d: Date): (r: seq<VersionDownload>)
    ensures |r| <= |rs|
    ensures forall i :: 0 <= i < |r| ==> r[i].date == d && r[i] in rs
    ensures (forall i :: 0 <= i < |rs| ==> rs[i].date != d) ==> r == []
    ensures (forall i :: 0 <= i < |rs| ==> rs[i].date == d) ==> r == rs
  {
    if rs == [] then []
    else OnDate(rs[..|rs| - 1], d) + (if rs[|rs| - 1].date == d then [rs[|rs| - 1]] else [])
  }

  /**
   * Sum of the downloads of every record dated `d`: never more than the sum of all records,
   * 0 when no record has that date, the whole sum when every record has it.
   */
  function DownloadsOn(rs: seq<VersionDownload>, d: Date): (r: nat)
    ensures r <= SumDownloads(rs)
    ensures (forall i :: 0 <= i < |rs| ==> rs[i].date != d) ==> r == 0
    ensures (forall i :: 0 <= i < |rs| ==> rs[i].date == d) ==> r == SumDownloads(rs)
  {
    FilterBounded(rs, d);
    SumDownloads(OnDate(rs, d))
  }

  lemma {:induction false} SumDownloadsAppend(a: seq<VersionDownload>, b: seq<VersionDownload>)
    ensures SumDownloads(a + b) == SumDownloads(a) + SumDownloads(b)
    decreases |b|
  {
    if b == [] {
      assert a + b == a;
    } else {
      var b' := b[..|b| - 1];
      assert (a + b)[..|a + b| - 1] == a + b';
      SumDownloadsAppend(a, b');
    }
  }

  lemma {:induction false} OnDateAppend(a: seq<VersionDownload>, b: seq<VersionDownload>, d: Date)
    ensures OnDate(a + b, d) == OnDate(a, d) + OnDate(b, d)
    decreases |b|
  {
    if b == [] {
      assert a + b == a;
    } else {
      var b' := b[..|b| - 1];
      assert (a + b)[..|a + b| - 1] == a + b';
      OnDateAppend(a, b', d);
    }
  }

  /** Records are summed per date: concatenating record lists adds their per-date sums. */
  lemma DownloadsOnAppend(a: seq<VersionDownload>, b: seq<VersionDownload>, d: Date)
    ensures DownloadsOn(a + b, d) == DownloadsOn(a, d) + DownloadsOn(b, d)
  {
    OnDateAppend(a, b, d);
    SumDownloadsAppend(OnDate(a, d), OnDate(b, d));
  }

  /** A single record contributes its count to its own date and nothing to any other. */
  lemma DownloadsOnSingle(r: VersionDownload, d: Date)
    ensures DownloadsOn([r], d) == if r.date == d then r.downloads else 0
  {
  }

  /** Records dated other than `d`, wherever they stand, do not change the sum for `d`. */
  lemma {:induction false} OtherDatesIgnored(a: seq<VersionDownload>, extra: seq<VersionDownload>,
                                             b: seq<VersionDownload>, d: Date)
    requires forall i :: 0 <= i < |extra| ==> extra[i].date != d
    ensures DownloadsOn(a + extra + b, d) == DownloadsOn(a + b, d)
  {
    assert DownloadsOn(extra, d) == 0;
    DownloadsOnAppend(a + extra, b, d);
    DownloadsOnAppend(a, extra, d);
    DownloadsOnAppend(a, b, d);
  }

  /** The per-date sum does not depend on the order of the records. */
  lemma {:induction false} DownloadsOnPermutation(rs: seq<VersionDownload>, rs': seq<VersionDownload>, d: Date)
    requires multiset(rs) == multiset(rs')
    ensures DownloadsOn(rs, d) == DownloadsOn(rs', d)
    decreases |rs|
  {
    if rs == [] {
      assert |rs'| == |multiset(rs')| == 0;
    } else {
      var p, x := rs[..|rs| - 1], rs[|rs| - 1];
      assert rs == p + [x];
      assert x in multiset(rs');
      var i :| 0 <= i < |rs'| && rs'[i] == x;
      var front, back := rs'[..i], rs'[i + 1..];
      assert rs' == front + [x] + back;
      CancelOne(p, x, front, back);
      DownloadsOnPermutation(p, front + back, d);
      DownloadsOnAppend(p, [x], d);
      DownloadsOnAppend(front + [x], back, d);
      DownloadsOnAppend(front, [x], d);
      DownloadsOnAppend(front, back, d);
    }
  }

  lemma CancelOne(p: seq<VersionDownload>, x: VersionDownload, front: seq<VersionDownload>, back: seq<VersionDownload>)
    requires multiset(p + [x]) == multiset(front + [x] + back)
    ensures multiset(p) == multiset(front + back)
  {
    assert multiset(p + [x]) == multiset(p) + multiset{x};
    assert multiset(front + [x] + back) == multiset(front + back) + multiset{x};
    forall y ensures multiset(p)[y] == multiset(front + back)[y] {
      assert (multiset(p) + multiset{x})[y] == (multiset(front + back) + multiset{x})[y];
    }
  }

  /** Filtering by date never increases the download sum. */
  lemma {:induction false} FilterBounded(rs: seq<VersionDownload>, d: Date)
    ensures SumDownloads(OnDate(rs, d)) <= SumDownloads(rs)
    decreases |rs|
  {
    if rs != [] {
      FilterBounded(rs[..|rs| - 1], d);
      assert OnDate(rs, d) == OnDate(rs[..|rs| - 1], d) + (if rs[|rs| - 1].date == d then [rs[|rs| - 1]] else []);
      SumDownloadsAppend(OnDate(rs[..|rs| - 1], d), if rs[|rs| - 1].date == d then [rs[|rs| - 1]] else []);
      assert [rs[|rs| - 1]][..0] == [];
    }
  }

  /**
   * `get_crate_downloads`: the downloads of a crate on one date, 0 when the fetch failed.
   */
  function CrateDownloads(fetch: Option<seq<VersionDownload>>, d: Date): (r: nat)
    ensures fetch.None? ==> r == 0
    ensures fetch.Some? ==> r <= SumDownloads(fetch.value)
    ensures fetch.Some? && (forall i :: 0 <= i < |fetch.value| ==> fetch.value[i].date != d) ==> r == 0
  {
    match fetch
    case Some(rs) =>
      DownloadsOn(rs, d)
    case None => 0
  }

  /** The aggregate `get_crate_downloads_multi` returns: one entry per requested date. */
  function Aggregate(fetch: Option<seq<VersionDownload>>, dates: seq<Date>): (r: DailyDownloads)
    ensures r.Keys == Elements(dates)
    ensures forall d :: d in r ==> r[d] == CrateDownloads(fetch, d)
  {
    map d | d in dates :: CrateDownloads(fetch, d)
  }

  /** Two versions on the first day are summed; days without records map to 0. */
  lemma AggregateExample()
    ensures Aggregate(Some([VersionDownload(1, 1, 5), VersionDownload(2, 1, 3), VersionDownload(1, 2, 0)]), [1, 2, 3])
         == map[1 := 8, 2 := 0, 3 := 0]
  {
    var fetch := Some([VersionDownload(1, 1, 5), VersionDownload(2, 1, 3), VersionDownload(1, 2, 0)]);
    var expected := map[1 := 8, 2 := 0, 3 := 0];
    forall d | d in expected
      ensures CrateDownloads(fetch, d) == expected[d]
    {
      ExampleDay(d);
    }
    assert expected.Keys == Elements([1, 2, 3]);
    AggregateOf(fetch, [1, 2, 3], expected);
  }

  lemma ExampleDay(d: Date)
    ensures CrateDownloads(Some([VersionDownload(1, 1, 5), VersionDownload(2, 1, 3), VersionDownload(1, 2, 0)]), d)
         == if d == 1 then 8 else 0
  {
  }

  /** A map with the requested dates as keys and each date's crate count is the aggregate. */
  lemma AggregateOf(fetch: Option<seq<VersionDownload>>, dates: seq<Date>, m: DailyDownloads)
    requires m.Keys == Elements(dates)
    requires forall d :: d in m ==> m[d] == CrateDownloads(fetch, d)
    ensures Aggregate(fetch, dates) == m
  {
  }

  /** A failed fetch gives 0 for every requested date. */
  lemma FailedFetchIsZero(dates: seq<Date>)
    ensures forall d :: d in dates ==> d in Aggregate(None, dates) && Aggregate(None, dates)[d] == 0
  {
  }

  /**
   * `get_crate_downloads_multi`: inserts, for each requested date in turn, the sum of the
   * counts of the records on that date, or 0 when the fetch failed.
   */
  method AggregateDates(fetch: Option<seq<VersionDownload>>, dates: seq<Date>) returns (result: DailyDownloads)
    ensures result == Aggregate(fetch, dates)
    ensures result.Keys == Elements(dates)
    ensures forall d :: d in dates && fetch.Some? ==> result[d] == DownloadsOn(fetch.value, d)
    ensures forall d :: d in dates && fetch.None? ==> result[d] == 0
  {
    result := map[];
    for i := 0 to |dates|
      invariant result.Keys == Elements(dates[..i])
      invariant forall d :: d in result ==> result[d] == CrateDownloads(fetch, d)
    {
      var d := dates[i];
      var count := match fetch
        case Some(rs) => DownloadsOn(rs, d)
        case None => 0;
      assert Elements(dates[..i + 1]) == Elements(dates[..i]) + {d} by {
        assert dates[..i + 1] == dates[..i] + [d];
      }
      result := result[d := count];
    }
    assert dates[..|dates|] == dates;
    AggregateOf(fetch, dates, result);
  }
}
