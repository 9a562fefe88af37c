/** Frames of hand-landmark values sent to the tutor backend: 2 hands x 21 points x (x, y, z),
    126 numbers per frame. */
module Frames {

  /** The number of values in one frame. */
  const WIDTH: nat := 126

  /** `new Array(n).fill(0)`. */
  function Zeros(n: nat): (z: seq<real>)
    ensures |z| == n && forall k :: 0 <= k < n ==> z[k] == 0.0
  {
    seq(n, _ => 0.0)
  }

  /** `frame.every((val) => val === 0)`; true of the empty frame. */
  predicate AllZero(frame: seq<real>) {
    forall k :: 0 <= k < |frame| ==> frame[k] == 0.0
  }

  /** The frame cut or zero-padded to exactly `WIDTH` values. */
  function Fit(frame: seq<real>): (r: seq<real>)
    ensures |r| == WIDTH
    ensures forall k :: 0 <= k < WIDTH ==> r[k] == if k < |frame| then frame[k] else 0.0
  {
    if |frame| >= WIDTH then frame[..WIDTH] else frame + Zeros(WIDTH - |frame|)
  }

  /** The per-frame normalisation of `checkSign`: `frame.slice(0, 126)`, then padded and cut
      by `PadAndCut`. */
  method NormalizeFrame(frame: seq<real>) returns (arr: seq<real>)
    ensures arr == Fit(frame)
  {
    arr := if |frame| < WIDTH then frame else frame[..WIDTH];
    arr := PadAndCut(arr);
    FitPointwise(frame, arr);
  }

  /** Zeros pushed while the array is shorter than 126, then `slice(0, 126)`. */
  method PadAndCut(values: seq<real>) returns (arr: seq<real>)
    ensures arr == Fit(values)
  {
    arr := values;
    while |arr| < WIDTH
      invariant |values| <= |arr| && arr[..|values|] == values
      invariant forall k :: |values| <= k < |arr| ==> arr[k] == 0.0
      decreases WIDTH - |arr|
    {
      arr := arr + [0.0];
    }
    arr := arr[..WIDTH];
    FitPointwise(values, arr);
  }

  /** A frame of `WIDTH` values that agrees with `Fit`'s pointwise description is `Fit`. */
  lemma FitPointwise(frame: seq<real>, r: seq<real>)
    requires |r| == WIDTH
    requires forall k :: 0 <= k < WIDTH ==> r[k] == if k < |frame| then frame[k] else 0.0
    ensures r == Fit(frame)
  {
    var f := Fit(frame);
    forall k | 0 <= k < WIDTH ensures r[k] == f[k] {
    }
  }

  /** A frame of exactly `WIDTH` values is left as it is. */
  lemma FitIdentity(frame: seq<real>)
    requires |frame| == WIDTH
    ensures Fit(frame) == frame
  {
    FitPointwise(frame, frame);
  }

  /** Normalising twice is normalising once. */
  lemma FitIdempotent(frame: seq<real>)
    ensures Fit(Fit(frame)) == Fit(frame)
  {
    FitIdentity(Fit(frame));
  }

  /** Normalisation keeps an all-zero frame all zero and a frame with a non-zero value among its
      first `WIDTH` values non-zero. */
  lemma FitKeepsZeroTest(frame: seq<real>)
    ensures AllZero(frame) ==> AllZero(Fit(frame))
    ensures |frame| <= WIDTH ==> (AllZero(Fit(frame)) <==> AllZero(frame))
  {
    var r := Fit(frame);
    if |frame| <= WIDTH && AllZero(r) {
      forall k | 0 <= k < |frame| ensures frame[k] == 0.0 {
        assert r[k] == frame[k];
      }
    }
  }
}
