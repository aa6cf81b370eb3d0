/**
 * The two-dimensional rate plot: the spikes a recorder saw strictly inside a time window are
 * counted per unit, the counts are padded with zeros to `W * H` cells and laid out row by row
 * as a `W × H` grid. Times are integers in one fixed unit; the drawing itself is not modelled.
 */
module Plots {
  import opened Wrappers

  /** A recorded spike: the unit index `M.i` and the time `M.t`. */
  datatype Spike = Spike(index: nat, time: int)

  datatype PlotError =
    | EmptyWindow       // `np.max` of an empty array
    | NegativePadding   // `np.zeros` of a negative size: some index does not fit the grid

  /** The indices of the spikes with `start < time < stop`, in recording order. */
  function Windowed(spikes: seq<Spike>, start: int, stop: int): seq<nat>
  {
    if spikes == [] then []
    else (if start < spikes[0].time < stop then [spikes[0].index] else []) + Windowed(spikes[1..], start, stop)
  }

  function Max(xs: seq<nat>): (m: nat)
    requires xs != []
    ensures m in xs && forall x :: x in xs ==> x <= m
  {
    if |xs| == 1 then xs[0]
    else
      var rest := Max(xs[1..]);
      assert xs == [xs[0]] + xs[1..];
      if xs[0] >= rest then xs[0] else rest
  }

  /** `np.bincount(xs)`: entry `k` is how often `k` occurs in `xs`, for `k` up to the largest. */
  function BinCount(xs: seq<nat>): seq<nat>
    requires xs != []
  {
    seq(Max(xs) + 1, k => multiset(xs)[k])
  }

  /** `flat.reshape(w, h)`: `w` rows of `h` consecutive entries. */
  function Reshape(flat: seq<nat>, w: nat, h: nat): seq<seq<nat>>
    requires |flat| == w * h
  {
    if w == 0 then []
    else
      assert w * h == (w - 1) * h + h;
      [flat[..h]] + Reshape(flat[h..], w - 1, h)
  }

  /** The bin counts followed by `n - Max(xs) - 1` zeros: `n` entries when the largest fits. */
  function Padded(xs: seq<nat>, n: nat): seq<nat>
    requires xs != [] && Max(xs) < n
  {
    BinCount(xs) + seq(n - Max(xs) - 1, _ => 0)
  }

  /** `rateplot2d(M, start, stop, (w, h))`: the grid of spike counts it draws, or why it fails. */
  function RatePlot2d(spikes: seq<Spike>, start: int, stop: int, w: nat, h: nat): Result<seq<seq<nat>>, PlotError>
  {
    var im := Windowed(spikes, start, stop);
    if im == [] then Failure(EmptyWindow)
    else if w * h - Max(im) - 1 < 0 then Failure(NegativePadding)
    else Success(Reshape(Padded(im, w * h), w, h))
  }

  // ---------------------------------------------------------------------------------------

  /** A unit appears in the window iff one of its spikes lies strictly between the bounds. */
  lemma {:induction false} WindowedMembers(spikes: seq<Spike>, start: int, stop: int, k: nat)
    ensures k in Windowed(spikes, start, stop) <==>
              exists i :: 0 <= i < |spikes| && spikes[i].index == k && start < spikes[i].time < stop
    decreases |spikes|
  {
    if spikes != [] {
      WindowedMembers(spikes[1..], start, stop, k);
      if k in Windowed(spikes[1..], start, stop) {
        var i :| 0 <= i < |spikes[1..]| && spikes[1..][i].index == k && start < spikes[1..][i].time < stop;
        assert spikes[i + 1] == spikes[1..][i];
      }
      if exists i :: 0 <= i < |spikes| && spikes[i].index == k && start < spikes[i].time < stop {
        var i :| 0 <= i < |spikes| && spikes[i].index == k && start < spikes[i].time < stop;
        if i > 0 {
          assert spikes[1..][i - 1] == spikes[i];
        }
      }
    }
  }

  /** Spikes at exactly `start` or `stop` are not counted: both bounds are strict. */
  lemma BoundsExcluded(spikes: seq<Spike>, start: int, stop: int, k: nat)
    requires forall i :: 0 <= i < |spikes| && spikes[i].index == k ==> spikes[i].time in {start, stop}
    ensures k !in Windowed(spikes, start, stop)
  {
    WindowedMembers(spikes, start, stop, k);
  }

  /** The plot fails on an empty window, and on an index that does not fit the `w × h` grid. */
  lemma RatePlotOutcome(spikes: seq<Spike>, start: int, stop: int, w: nat, h: nat)
    ensures var im := Windowed(spikes, start, stop);
            var res := RatePlot2d(spikes, start, stop, w, h);
            && (res == Failure(EmptyWindow) <==> im == [])
            && (res == Failure(NegativePadding) <==> im != [] && exists x :: x in im && x >= w * h)
            && (res.Success? <==> im != [] && forall x :: x in im ==> x < w * h)
  {
  }

  lemma MulStep(k: nat, h: nat)
    requires k >= 1
    ensures k * h == (k - 1) * h + h
  {
  }

  /** Row `r` of the reshaped grid is the `r`-th run of `h` consecutive entries. */
  lemma {:induction false} ReshapeRow(flat: seq<nat>, w: nat, h: nat, r: nat)
    requires |flat| == w * h && r < w
    ensures r * h + h <= |flat| && |Reshape(flat, w, h)| == w
    ensures Reshape(flat, w, h)[r] == flat[r * h .. r * h + h]
    decreases w
  {
    MulStep(w, h);
    ReshapeShape(flat, w, h);
    var rest := flat[h..];
    assert Reshape(flat, w, h) == [flat[..h]] + Reshape(rest, w - 1, h);
    if r > 0 {
      ReshapeRow(rest, w - 1, h, r - 1);
      MulStep(r, h);
      assert Reshape(flat, w, h)[r] == Reshape(rest, w - 1, h)[r - 1];
      assert rest[(r - 1) * h .. (r - 1) * h + h] == flat[r * h .. r * h + h];
    }
  }

  lemma ReshapeCell(flat: seq<nat>, w: nat, h: nat, r: nat, c: nat)
    requires |flat| == w * h && r < w && c < h
    ensures |Reshape(flat, w, h)| == w && |Reshape(flat, w, h)[r]| == h
    ensures r * h + c < |flat| && Reshape(flat, w, h)[r][c] == flat[r * h + c]
  {
    ReshapeRow(flat, w, h, r);
  }

  lemma {:induction false} ReshapeShape(flat: seq<nat>, w: nat, h: nat)
    requires |flat| == w * h
    ensures |Reshape(flat, w, h)| == w
    decreases w
  {
    if w > 0 {
      assert w * h == (w - 1) * h + h;
      ReshapeShape(flat[h..], w - 1, h);
    }
  }

  /** Entry `k` of the padded counts is how often `k` is in the window. */
  lemma PaddedCounts(xs: seq<nat>, n: nat, k: nat)
    requires xs != [] && Max(xs) < n && k < n
    ensures |Padded(xs, n)| == n && Padded(xs, n)[k] == multiset(xs)[k]
  {
    if k > Max(xs) {
      assert k !in xs;
    }
  }

  /**
   * A successful plot is a `w × h` grid whose cell `(r, c)` is the number of windowed spikes of
   * unit `r * h + c`.
   */
  lemma RatePlotCells(spikes: seq<Spike>, start: int, stop: int, w: nat, h: nat)
    requires RatePlot2d(spikes, start, stop, w, h).Success?
    ensures var g := RatePlot2d(spikes, start, stop, w, h).value;
            && |g| == w
            && (forall r :: 0 <= r < w ==> |g[r]| == h)
            && forall r, c :: 0 <= r < w && 0 <= c < h ==>
                 g[r][c] == multiset(Windowed(spikes, start, stop))[r * h + c]
  {
    var im := Windowed(spikes, start, stop);
    var padded := Padded(im, w * h);
    var g := Reshape(padded, w, h);
    assert RatePlot2d(spikes, start, stop, w, h).value == g;
    ReshapeShape(padded, w, h);
    assert h > 0;
    forall r | 0 <= r < w
      ensures |g[r]| == h
    {
      ReshapeCell(padded, w, h, r, 0);
    }
    forall r, c | 0 <= r < w && 0 <= c < h
      ensures g[r][c] == multiset(Windowed(spikes, start, stop))[r * h + c]
    {
      ReshapeCell(padded, w, h, r, c);
      PaddedCounts(im, w * h, r * h + c);
    }
  }

  // ---------------------------------------------------------------------------------------
  // The grid counts every windowed spike once

  function Sum(xs: seq<nat>): nat
  {
    if xs == [] then 0 else xs[0] + Sum(xs[1..])
  }

  function SumRows(g: seq<seq<nat>>): nat
  {
    if g == [] then 0 else Sum(g[0]) + SumRows(g[1..])
  }

  lemma {:induction false} SumConcat(a: seq<nat>, b: seq<nat>)
    ensures Sum(a + b) == Sum(a) + Sum(b)
    decreases |a|
  {
    if a != [] {
      assert (a + b)[1..] == a[1..] + b;
      SumConcat(a[1..], b);
    } else {
      assert a + b == b;
    }
  }

  lemma {:induction false} SumZeros(n: nat)
    ensures Sum(seq(n, _ => 0)) == 0
    decreases n
  {
    if n > 0 {
      assert seq(n, _ => 0)[1..] == seq(n - 1, _ => 0);
      SumZeros(n - 1);
    }
  }

  lemma {:induction false} SumReshape(flat: seq<nat>, w: nat, h: nat)
    requires |flat| == w * h
    ensures SumRows(Reshape(flat, w, h)) == Sum(flat)
    decreases w
  {
    if w > 0 {
      assert w * h == (w - 1) * h + h;
      SumReshape(flat[h..], w - 1, h);
      assert flat == flat[..h] + flat[h..];
      SumConcat(flat[..h], flat[h..]);
    } else {
      assert flat == [];
    }
  }

  /** How many entries of `xs` are below `n`. */
  function CountBelow(xs: seq<nat>, n: nat): nat
  {
    if xs == [] then 0 else (if xs[0] < n then 1 else 0) + CountBelow(xs[1..], n)
  }

  lemma {:induction false} CountBelowStep(xs: seq<nat>, n: nat)
    ensures CountBelow(xs, n + 1) == CountBelow(xs, n) + multiset(xs)[n]
    decreases |xs|
  {
    if xs != [] {
      CountBelowStep(xs[1..], n);
      assert xs == [xs[0]] + xs[1..];
      assert multiset(xs) == multiset([xs[0]]) + multiset(xs[1..]);
    }
  }

  lemma {:induction false} CountBelowAll(xs: seq<nat>, n: nat)
    requires forall x :: x in xs ==> x < n
    ensures CountBelow(xs, n) == |xs|
    decreases |xs|
  {
    if xs != [] {
      assert xs[0] in xs;
      assert forall x :: x in xs[1..] ==> x in xs;
      CountBelowAll(xs[1..], n);
    }
  }

  /** The first `n` bins add up to the number of entries below `n`. */
  lemma {:induction false} SumBins(xs: seq<nat>, n: nat)
    ensures Sum(seq(n, k => multiset(xs)[k])) == CountBelow(xs, n)
    decreases n
  {
    if n == 0 {
      CountBelowZero(xs);
      assert seq(n, k => multiset(xs)[k]) == [];
    } else {
      SumBins(xs, n - 1);
      CountBelowStep(xs, n - 1);
      assert seq(n, k => multiset(xs)[k]) == seq(n - 1, k => multiset(xs)[k]) + [multiset(xs)[n - 1]];
      SumConcat(seq(n - 1, k => multiset(xs)[k]), [multiset(xs)[n - 1]]);
      assert Sum([multiset(xs)[n - 1]]) == multiset(xs)[n - 1] + Sum([]);
    }
  }

  lemma {:induction false} CountBelowZero(xs: seq<nat>)
    ensures CountBelow(xs, 0) == 0
    decreases |xs|
  {
    if xs != [] {
      CountBelowZero(xs[1..]);
    }
  }

  /** The cells of a successful plot add up to the number of spikes inside the window. */
  lemma RatePlotTotal(spikes: seq<Spike>, start: int, stop: int, w: nat, h: nat)
    requires RatePlot2d(spikes, start, stop, w, h).Success?
    ensures SumRows(RatePlot2d(spikes, start, stop, w, h).value) == |Windowed(spikes, start, stop)|
  {
    var im := Windowed(spikes, start, stop);
    var m := Max(im);
    var zeros := seq(w * h - m - 1, _ => 0);
    var padded := Padded(im, w * h);
    assert RatePlot2d(spikes, start, stop, w, h).value == Reshape(padded, w, h);
    SumReshape(padded, w, h);
    SumConcat(BinCount(im), zeros);
    SumZeros(w * h - m - 1);
    SumBins(im, m + 1);
    CountBelowAll(im, m + 1);
  }
}
