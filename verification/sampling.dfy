/** The frame indices `VideoAnalyzer._sample_frames` seeks to: every frame
    when the video has at most `n` of them, otherwise `n` indices spread
    evenly from the first frame to the last, as
    `np.linspace(0, frame_count - 1, n, dtype=int)` computes them. */
module Sampling {

  /** `range(count)` (empty when `count` is not positive). */
  function Range(count: int): (r: seq<int>)
    ensures |r| == if count > 0 then count else 0
    ensures forall i :: 0 <= i < |r| ==> r[i] == i
  {
    if count <= 0 then [] else Range(count - 1) + [count - 1]
  }

  /** Index `i` of `np.linspace(0, last, n, dtype=int)` for `n >= 2`: the
      exact point `i * last / (n - 1)` truncated to an integer. */
  function LinspacePoint(i: nat, last: nat, n: nat): int
    requires n >= 2
  {
    (i * last) / (n - 1)
  }

  /** `np.linspace(0, last, n, dtype=int)`; with one sample numpy returns
      just the start point. */
  function Linspace(last: nat, n: nat): (r: seq<int>)
    ensures |r| == n
  {
    if n == 0 then []
    else if n == 1 then [0]
    else seq(n, i requires 0 <= i < n => LinspacePoint(i, last, n))
  }

  /** The sampled frame indices for a video of `frameCount` frames. */
  function SampleIndices(frameCount: int, n: nat): (idx: seq<int>)
    ensures frameCount <= n ==> idx == Range(frameCount)
    ensures frameCount > n ==> |idx| == n
    ensures forall i :: 0 <= i < |idx| ==> 0 <= idx[i] < frameCount
    ensures forall i, j :: 0 <= i < j < |idx| ==> idx[i] < idx[j]
    ensures frameCount > n && n > 0 ==> idx[0] == 0
    ensures frameCount > n && n >= 2 ==> idx[n - 1] == frameCount - 1
    ensures frameCount > n && n >= 2 ==>
              forall i :: 0 <= i < n ==>
                idx[i] * (n - 1) <= i * (frameCount - 1) < (idx[i] + 1) * (n - 1)
  {
    if frameCount <= n then Range(frameCount)
    else if n >= 2 then
      LinspaceProperties(frameCount - 1, n);
      Linspace(frameCount - 1, n)
    else Linspace(frameCount - 1, n)
  }

  lemma LinspaceProperties(last: nat, n: nat)
    requires n >= 2 && last >= n
    ensures forall i :: 0 <= i < n ==> 0 <= Linspace(last, n)[i] <= last
    ensures forall i, j :: 0 <= i < j < n ==> Linspace(last, n)[i] < Linspace(last, n)[j]
    ensures Linspace(last, n)[0] == 0
    ensures Linspace(last, n)[n - 1] == last
    ensures forall i :: 0 <= i < n ==>
              Linspace(last, n)[i] * (n - 1) <= i * last < (Linspace(last, n)[i] + 1) * (n - 1)
  {
    var r := Linspace(last, n);
    var d := n - 1;
    forall i | 0 <= i < n
      ensures 0 <= r[i] <= last
      ensures r[i] * d <= i * last < (r[i] + 1) * d
    {
      MulNonNegative(i, last);
      FloorBounds(i * last, d);
      MulMonotone(i, d, last);
      DivMonotone(i * last, d * last, d);
      MulDiv(last, d);
      assert d * last == last * d;
    }
    forall i, j | 0 <= i < j < n
      ensures r[i] < r[j]
    {
      MulNonNegative(i, last);
      MulMonotone(1, j - i, last);
      assert j * last == i * last + (j - i) * last;
      DivStrictlyIncreases(i * last, (j - i) * last, d);
    }
    assert r[0] == (0 * last) / d;
    MulDiv(last, d);
    assert r[n - 1] == (d * last) / d;
    assert d * last == last * d;
  }

  lemma MulNonNegative(a: nat, b: nat)
    ensures a * b >= 0
  {
  }

  lemma MulMonotone(a: int, b: int, c: nat)
    requires a <= b
    ensures a * c <= b * c
  {
  }

  lemma MulDiv(k: int, d: int)
    requires d > 0
    ensures (k * d) / d == k
  {
    var q := (k * d) / d;
    FloorBounds(k * d, d);
    if q < k {
      MulMonotone(q + 1, k, d);
    }
  }

  /** `x / d` is the floor of the exact quotient. */
  lemma FloorBounds(x: int, d: int)
    requires d > 0
    ensures x >= 0 ==> x / d >= 0
    ensures (x / d) * d <= x < (x / d + 1) * d
  {
  }

  lemma DivMonotone(a: int, b: int, d: int)
    requires 0 <= a <= b && d > 0
    ensures a / d <= b / d
  {
    FloorBounds(a, d);
    FloorBounds(b, d);
    if a / d > b / d {
      MulMonotone(b / d + 1, a / d, d);
    }
  }

  /** Adding at least one divisor's worth strictly raises the quotient; this
      is why a step `(frame_count - 1) / (n - 1)` above 1 never repeats an index. */
  lemma DivStrictlyIncreases(a: int, b: int, d: int)
    requires a >= 0 && d > 0 && b >= d
    ensures a / d < (a + b) / d
  {
    FloorBounds(a, d);
    FloorBounds(a + b, d);
    if (a + b) / d <= a / d {
      MulMonotone((a + b) / d + 1, a / d + 1, d);
    }
  }
}
