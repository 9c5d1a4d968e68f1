/**
 * Trailing simple moving averages of a closing-price series, as computed by
 * `Series.rolling(window=w, min_periods=0).mean()`: entry i is the mean of the
 * closes at indices max(0, i-w+1) .. i, so near the start of the series the
 * window shrinks to the bars that exist and no entry is ever undefined.
 * Prices are exact reals; floating-point rounding is not modelled.
 */
module MovingAverage {

  /** Sum of a sequence, accumulated from the left as a running total would. */
  function Sum(s: seq<real>): real
    decreases |s|
  {
    if s == [] then 0.0 else Sum(s[..|s| - 1]) + s[|s| - 1]
  }

  /** Arithmetic mean of a non-empty sequence. */
  function Mean(s: seq<real>): real
    requires s != []
  {
    Sum(s) / (|s| as real)
  }

  /** First index of the window that ends at index i: max(0, i - w + 1). */
  function WindowStart(i: nat, w: nat): (lo: nat)
    requires w >= 1
    ensures lo <= i
    ensures i - lo + 1 == if i + 1 < w then i + 1 else w
  {
    if i + 1 >= w then i + 1 - w else 0
  }

  /** The closes that the average at index i is taken over. */
  function Window(closes: seq<real>, i: nat, w: nat): (win: seq<real>)
    requires w >= 1 && i < |closes|
    ensures win != []
  {
    closes[WindowStart(i, w)..i + 1]
  }

  /**
   * The moving-average column for window w: built bar by bar, the average of
   * the newest bar appended to the column of the bars before it.
   */
  function Rolling(closes: seq<real>, w: nat): (r: seq<real>)
    requires w >= 1
    ensures |r| == |closes|
    ensures forall i :: 0 <= i < |closes| ==> r[i] == Mean(Window(closes, i, w))
    decreases |closes|
  {
    if closes == [] then []
    else
      var n := |closes| - 1;
      var front := closes[..n];
      var r := Rolling(front, w) + [Mean(Window(closes, n, w))];
      assert forall i :: 0 <= i < n ==> Window(front, i, w) == Window(closes, i, w);
      r
  }

  // ---------------------------------------------------------------------
  // Facts about Sum

  lemma {:induction false} SumSnoc(s: seq<real>, a: nat, b: nat)
    requires a <= b < |s|
    ensures Sum(s[a..b + 1]) == Sum(s[a..b]) + s[b]
  {
    assert s[a..b + 1][..b - a] == s[a..b];
  }

  /** Removing the first element takes it off the sum. */
  lemma {:induction false} SumUncons(s: seq<real>)
    requires s != []
    ensures Sum(s) == s[0] + Sum(s[1..])
    decreases |s|
  {
    if |s| == 1 {
      assert s[..0] == [] && s[1..] == [];
    } else {
      var front := s[..|s| - 1];
      SumUncons(front);
      assert front[1..] == s[1..][..|s| - 2];
    }
  }

  lemma {:induction false} SumDropFirst(s: seq<real>, a: nat, b: nat)
    requires a < b <= |s|
    ensures Sum(s[a + 1..b]) == Sum(s[a..b]) - s[a]
  {
    SumUncons(s[a..b]);
    assert s[a..b][1..] == s[a + 1..b];
  }

  /** A sum of values in [lo, hi] lies between |s| * lo and |s| * hi. */
  lemma {:induction false} SumBetween(s: seq<real>, lo: real, hi: real)
    requires forall k :: 0 <= k < |s| ==> lo <= s[k] <= hi
    ensures (|s| as real) * lo <= Sum(s) <= (|s| as real) * hi
    decreases |s|
  {
    if s != [] {
      SumBetween(s[..|s| - 1], lo, hi);
    }
  }

  /** A mean lies between the smallest and the largest value averaged. */
  lemma MeanBetween(s: seq<real>, lo: real, hi: real)
    requires s != []
    requires forall k :: 0 <= k < |s| ==> lo <= s[k] <= hi
    ensures lo <= Mean(s) <= hi
  {
    SumBetween(s, lo, hi);
    var n := |s| as real;
    assert n * lo <= Sum(s) <= n * hi;
    assert Mean(s) * n == Sum(s);
  }

  // ---------------------------------------------------------------------
  // Properties of the moving-average column

  /** An empty close series gives an empty column, for every window. */
  lemma EmptyHistoryEmptyColumn(w: nat)
    requires w >= 1
    ensures Rolling([], w) == []
  {
  }

  /**
   * The window contents, spelled out: before the window fills up (i < w-1)
   * the entry is the mean of every close so far; afterwards it is the mean
   * of exactly the last w closes.
   */
  lemma ShrinkingWindow(closes: seq<real>, w: nat, i: nat)
    requires w >= 1 && i < |closes|
    ensures i < w - 1 ==> Rolling(closes, w)[i] == Mean(closes[..i + 1])
    ensures i >= w - 1 ==>
      |closes[i - w + 1..i + 1]| == w && Rolling(closes, w)[i] == Mean(closes[i - w + 1..i + 1])
  {
  }

  /**
   * No look-ahead: the column over a prefix of the closes is the prefix of
   * the column, so later bars never change earlier averages.
   */
  lemma {:induction false} RollingPrefix(closes: seq<real>, w: nat, k: nat)
    requires w >= 1 && k <= |closes|
    ensures Rolling(closes[..k], w) == Rolling(closes, w)[..k]
  {
    var front := closes[..k];
    forall i | 0 <= i < k
      ensures Rolling(front, w)[i] == Rolling(closes, w)[i]
    {
      assert Window(front, i, w) == Window(closes, i, w);
    }
  }

  /**
   * No look-ahead, as a change to one bar: replacing the close at index j
   * leaves every average at an index before j unchanged.
   */
  lemma {:induction false} NoLookAhead(closes: seq<real>, w: nat, j: nat, v: real, i: nat)
    requires w >= 1 && i < j < |closes|
    ensures Rolling(closes[j := v], w)[i] == Rolling(closes, w)[i]
  {
    var changed := closes[j := v];
    assert changed[..j] == closes[..j];
    RollingPrefix(changed, w, j);
    RollingPrefix(closes, w, j);
  }

  /** Every average lies between the lowest and the highest close of the series. */
  lemma {:induction false} RollingBetween(closes: seq<real>, w: nat, lo: real, hi: real, i: nat)
    requires w >= 1 && i < |closes|
    requires forall k :: 0 <= k < |closes| ==> lo <= closes[k] <= hi
    ensures lo <= Rolling(closes, w)[i] <= hi
  {
    var win := Window(closes, i, w);
    assert forall k :: 0 <= k < |win| ==> win[k] == closes[WindowStart(i, w) + k];
    MeanBetween(win, lo, hi);
  }

  /** A window of one bar reproduces the closes themselves. */
  lemma {:induction false} WindowOfOne(closes: seq<real>)
    ensures Rolling(closes, 1) == closes
  {
    var r := Rolling(closes, 1);
    forall i | 0 <= i < |closes|
      ensures r[i] == closes[i]
    {
      var win := Window(closes, i, 1);
      assert win == [closes[i]];
      assert win[..0] == [];
      assert Sum(win) == closes[i];
    }
  }

  /** Three closes 10, 20, 30 under a window of 5 average to 10, 15, 20. */
  lemma ThreeBarExample()
    ensures Rolling([10.0, 20.0, 30.0], 5) == [10.0, 15.0, 20.0]
  {
    var c := [10.0, 20.0, 30.0];
    assert Window(c, 0, 5) == [10.0];
    assert Window(c, 1, 5) == [10.0, 20.0];
    assert Window(c, 2, 5) == c;
    assert [10.0][..0] == [];
    assert [10.0, 20.0][..1] == [10.0];
    assert c[..2] == [10.0, 20.0];
  }

  // ---------------------------------------------------------------------
  // Incremental computation

  /** One more bar appends that bar's average to the column. */
  lemma {:induction false} RollingSnoc(closes: seq<real>, w: nat, i: nat)
    requires w >= 1 && i < |closes|
    ensures Rolling(closes[..i + 1], w)
      == Rolling(closes[..i], w) + [Mean(closes[WindowStart(i, w)..i + 1])]
  {
    var front := closes[..i + 1];
    assert front[..i] == closes[..i];
    assert Window(front, i, w) == closes[WindowStart(i, w)..i + 1];
  }

  /**
   * Computes the column in one pass with a running window total: each bar's
   * close is added, and once the window is full the close that falls out of
   * it is subtracted.
   */
  method RollingMean(closes: seq<real>, w: nat) returns (r: seq<real>)
    requires w >= 1
    ensures r == Rolling(closes, w)
  {
    r := [];
    var total := 0.0;
    var lo := 0;
    var i := 0;
    while i < |closes|
      invariant 0 <= i <= |closes|
      invariant lo == if i >= w then i - w else 0
      invariant total == Sum(closes[lo..i])
      invariant r == Rolling(closes[..i], w)
    {
      SumSnoc(closes, lo, i);
      total := total + closes[i];
      if i >= w {
        SumDropFirst(closes, lo, i + 1);
        total := total - closes[lo];
        lo := lo + 1;
      }
      RollingSnoc(closes, w, i);
      assert lo == WindowStart(i, w);
      r := r + [total / ((i + 1 - lo) as real)];
      i := i + 1;
    }
    assert closes[..i] == closes;
  }
}
