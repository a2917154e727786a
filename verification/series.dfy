/** Aggregates over the trailing window of a daily close series: the window
    itself, its sum, arithmetic mean and maximum. These are what the rolling
    250-day mean and maximum reduce to when only their last value is read. */
module Series {

  /** Trading days in the long-term window (MA250 and the 250-day high). */
  const WindowSize: nat := 250

  /** The most recent close. */
  function Latest(closes: seq<real>): real
    requires closes != []
  {
    closes[|closes| - 1]
  }

  /** The last WindowSize closes. */
  function Window(closes: seq<real>): (w: seq<real>)
    requires |closes| >= WindowSize
    ensures |w| == WindowSize
    ensures forall i :: 0 <= i < WindowSize ==> w[i] == closes[|closes| - WindowSize + i]
    ensures w[WindowSize - 1] == Latest(closes)
  {
    closes[|closes| - WindowSize..]
  }

  function Sum(s: seq<real>): real
  {
    if s == [] then 0.0 else s[0] + Sum(s[1..])
  }

  /** The largest element: it occurs in s and no element exceeds it. */
  function Max(s: seq<real>): (m: real)
    requires s != []
    ensures m in s
    ensures forall i :: 0 <= i < |s| ==> s[i] <= m
  {
    if |s| == 1 then s[0]
    else
      var rest := Max(s[1..]);
      if s[0] >= rest then s[0] else rest
  }

  /** The arithmetic mean: |s| copies of it add up to the sum, and it never
      exceeds the maximum. */
  function Mean(s: seq<real>): (m: real)
    requires s != []
    ensures m * |s| as real == Sum(s)
    ensures m <= Max(s)
  {
    SumAtMostBound(s, Max(s));
    Sum(s) / |s| as real
  }

  predicate AllPositive(s: seq<real>)
  {
    forall i :: 0 <= i < |s| ==> s[i] > 0.0
  }

  /** A sum of |s| terms, none above the bound, is at most |s| times the bound. */
  lemma {:induction false} SumAtMostBound(s: seq<real>, bound: real)
    requires forall i :: 0 <= i < |s| ==> s[i] <= bound
    ensures Sum(s) <= |s| as real * bound
  {
    if s != [] {
      var tail := s[1..];
      assert forall i :: 0 <= i < |tail| ==> tail[i] == s[i + 1];
      SumAtMostBound(tail, bound);
      var k := |tail| as real;
      assert |s| as real * bound == k * bound + bound by {
        assert |s| as real == k + 1.0;
      }
    }
  }

  lemma {:induction false} SumPositive(s: seq<real>)
    requires s != [] && AllPositive(s)
    ensures Sum(s) > 0.0
  {
    if |s| > 1 {
      assert AllPositive(s[1..]) by {
        forall i | 0 <= i < |s| - 1 ensures s[1..][i] > 0.0 {
          assert s[1..][i] == s[i + 1];
        }
      }
      SumPositive(s[1..]);
    }
  }

  /** A positive series has a positive mean. */
  lemma {:induction false} MeanPositive(s: seq<real>)
    requires s != [] && AllPositive(s)
    ensures Mean(s) > 0.0
  {
    SumPositive(s);
  }

  /** Closes older than the window affect neither the window nor the latest
      close. */
  lemma {:induction false} WindowIgnoresEarlier(earlier: seq<real>, closes: seq<real>)
    requires |closes| >= WindowSize
    ensures Window(earlier + closes) == Window(closes)
    ensures Latest(earlier + closes) == Latest(closes)
  {
    var w1, w2 := Window(earlier + closes), Window(closes);
    assert forall i :: 0 <= i < WindowSize ==> w1[i] == w2[i];
  }
}
