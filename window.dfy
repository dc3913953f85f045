/**
 * The trailing date window of the publisher report: the last `n` days, today included,
 * oldest first. Today is sampled by the caller and passed in as a day ordinal.
 */
module DateWindow {
  import opened Types

  /** The window as a value: `n` consecutive days ending with `today`. */
  function Window(today: Date, n: nat): (w: seq<Date>)
    ensures |w| == n
    ensures n > 0 ==> w[n - 1] == today
    ensures forall i :: 0 <= i < n ==> w[i] == today - (n - 1 - i)
  {
    seq(n, i => today - (n - 1) + i)
  }

  /** The window is strictly ascending, each day exactly one after the previous one. */
  lemma WindowConsecutive(today: Date, n: nat)
    ensures forall i :: 0 <= i < n - 1 ==> Window(today, n)[i] + 1 == Window(today, n)[i + 1]
    ensures forall i, j :: 0 <= i < j < n ==> Window(today, n)[i] < Window(today, n)[j]
  {
  }

  /** The elements of `s` in the opposite order (`Vec::reverse`). */
  function Reverse<T>(s: seq<T>): (r: seq<T>)
    ensures |r| == |s|
    ensures forall k :: 0 <= k < |s| ==> r[k] == s[|s| - 1 - k]
  {
    if s == [] then [] else Reverse(s[1..]) + [s[0]]
  }

  /**
   * The loop of `handle_user_option`: pushes today, yesterday, ... (`i` days ago for
   * `i` in `0..n`), then reverses the vector. `n = 0` gives an empty window.
   */
  method LastDays(today: Date, n: nat) returns (days: seq<Date>)
    ensures days == Window(today, n)
    ensures |days| == n
    ensures n > 0 ==> days[n - 1] == today
    ensures forall i, j :: 0 <= i < j < n ==> days[i] < days[j]
    ensures forall i :: 0 <= i < n - 1 ==> days[i] + 1 == days[i + 1]
  {
    days := [];
    for i := 0 to n
      invariant |days| == i
      invariant forall k :: 0 <= k < i ==> days[k] == today - k
    {
      days := days + [today - i];
    }
    days := Reverse(days);
    WindowConsecutive(today, n);
  }
}
