/** `formatLandmarks` of the alphabet practice page: the hand tracker's result for one video
    frame becomes one frame of exactly 126 numbers. */
module Landmarks {
  import opened Optional
  import opened Frames

  /** Points per hand, and values per hand slot (21 points x 3 coordinates). */
  const POINTS: nat := 21
  const SLOT_WIDTH: nat := 63

  /** One coordinate of a landmark: a JavaScript number, or anything else. */
  datatype Coord = Number(value: real) | NotNumber

  /** An entry of a hand's point list: falsy (missing), or an object with `x`, `y` and `z`. */
  datatype Landmark = Absent | Present(x: Coord, y: Coord, z: Coord)

  /** An entry of `multiHandLandmarks`: something that is not an array, or an array of points. */
  datatype Hand = NotAnArray | Points(points: seq<Landmark>)

  /** The tracker's `results` object: falsy, or one whose `multiHandLandmarks` may be missing. */
  datatype Tracking = NoResults | Results(multiHandLandmarks: Option<seq<Hand>>)

  /** The guard of the early return: no result, no hand list, or an empty one. */
  predicate NoHands(t: Tracking) {
    t.NoResults? || t.multiHandLandmarks.None? || |t.multiHandLandmarks.value| == 0
  }

  /** A hand that fills its slot: an array of at least 21 points. */
  predicate Usable(hand: Hand) {
    hand.Points? && |hand.points| >= POINTS
  }

  /** A point whose three coordinates are all numbers. */
  predicate Complete(lm: Landmark) {
    lm.Present? && lm.x.Number? && lm.y.Number? && lm.z.Number?
  }

  /** Coordinate `c` (0 = x, 1 = y, 2 = z) of a point as it lands in the frame. */
  function CoordValue(lm: Landmark, c: nat): real
    requires c < 3
  {
    if !Complete(lm) then 0.0
    else if c == 0 then lm.x.value
    else if c == 1 then lm.y.value
    else lm.z.value
  }

  /** The reference description of the frame, value by value: value `k` is coordinate `k % 3`
      of point `(k % 63) / 3` of hand `k / 63`, or 0 where that hand or point is unusable. */
  function ValueAt(t: Tracking, k: nat): real
    requires k < WIDTH
  {
    if NoHands(t) then 0.0
    else
      var hands := t.multiHandLandmarks.value;
      var h := k / SLOT_WIDTH;
      if h < |hands| && Usable(hands[h]) then CoordValue(hands[h].points[(k % SLOT_WIDTH) / 3], k % 3)
      else 0.0
  }

  /** The three values one point pushes. */
  function PointValues(lm: Landmark): (v: seq<real>)
    ensures |v| == 3 && forall c :: 0 <= c < 3 ==> v[c] == CoordValue(lm, c)
  {
    if Complete(lm) then [lm.x.value, lm.y.value, lm.z.value] else [0.0, 0.0, 0.0]
  }

  /** The values pushed for the first `n` points of a hand. */
  function PointsValues(points: seq<Landmark>, n: nat): (v: seq<real>)
    requires n <= |points|
    ensures |v| == 3 * n
  {
    if n == 0 then [] else PointsValues(points, n - 1) + PointValues(points[n - 1])
  }

  /** The 63 values of slot `h`. */
  function SlotValues(hands: seq<Hand>, h: nat): (v: seq<real>)
    ensures |v| == SLOT_WIDTH
  {
    if h < |hands| && Usable(hands[h]) then PointsValues(hands[h].points, POINTS) else Zeros(SLOT_WIDTH)
  }

  /** The values of the first `n` slots. */
  function SlotsValues(hands: seq<Hand>, n: nat): (v: seq<real>)
    ensures |v| == SLOT_WIDTH * n
  {
    if n == 0 then [] else SlotsValues(hands, n - 1) + SlotValues(hands, n - 1)
  }

  /** What `formatLandmarks` returns: always exactly 126 values, so the final padding and
      slice of the source change nothing. */
  function Formatted(t: Tracking): (v: seq<real>)
    ensures |v| == WIDTH
  {
    if NoHands(t) then Zeros(WIDTH) else SlotsValues(t.multiHandLandmarks.value, 2)
  }

  /** `formatLandmarks(results)`: two slots of 21 points, each point pushed as x, y, z or as
      three zeros, a slot without a usable hand pushed as 63 zeros; then zeros pushed up to 126
      and the first 126 values kept. */
  method FormatLandmarks(t: Tracking) returns (out: seq<real>)
    ensures out == Formatted(t)
  {
    if t.NoResults? || t.multiHandLandmarks.None? || |t.multiHandLandmarks.value| == 0 {
      return Zeros(WIDTH);
    }
    var hands := t.multiHandLandmarks.value;
    out := [];
    for h := 0 to 2
      invariant out == SlotsValues(hands, h)
    {
      if h < |hands| && hands[h].Points? && |hands[h].points| >= POINTS {
        var hand := hands[h].points;
        for i := 0 to POINTS
          invariant out == SlotsValues(hands, h) + PointsValues(hand, i)
        {
          var lm := hand[i];
          if lm.Present? && lm.x.Number? && lm.y.Number? && lm.z.Number? {
            out := out + [lm.x.value, lm.y.value, lm.z.value];
          } else {
            out := out + [0.0, 0.0, 0.0];
          }
        }
      } else {
        for i := 0 to POINTS
          invariant out == SlotsValues(hands, h) + Zeros(3 * i)
        {
          out := out + [0.0, 0.0, 0.0];
        }
      }
    }
    ghost var full := out;
    out := PadAndCut(out);
    FitIdentity(full);
  }

  /** Within a slot, values `3i`, `3i + 1` and `3i + 2` are point `i`'s x, y and z. */
  lemma {:induction false} PointsValuesAt(points: seq<Landmark>, n: nat, j: nat)
    requires n <= |points| && j < 3 * n
    ensures |PointsValues(points, n)| == 3 * n
    ensures PointsValues(points, n)[j] == CoordValue(points[j / 3], j % 3)
  {
    if j < 3 * (n - 1) {
      PointsValuesAt(points, n - 1, j);
    } else {
      var d := j - 3 * (n - 1);
      assert j / 3 == n - 1 && j % 3 == d;
    }
  }

  /** Value `j` of slot `h` is coordinate `j % 3` of point `j / 3`, or 0 for an unusable hand. */
  lemma SlotValuesAt(hands: seq<Hand>, h: nat, j: nat)
    requires j < SLOT_WIDTH
    ensures SlotValues(hands, h)[j] ==
      if h < |hands| && Usable(hands[h]) then CoordValue(hands[h].points[j / 3], j % 3) else 0.0
  {
    if h < |hands| && Usable(hands[h]) {
      PointsValuesAt(hands[h].points, POINTS, j);
    }
  }

  /** Index `k` of the two slots lies in slot `k / 63`, at `k % 63`. */
  lemma TwoSlotsAt(hands: seq<Hand>, k: nat)
    requires k < WIDTH
    ensures SlotsValues(hands, 2)[k] == SlotValues(hands, k / SLOT_WIDTH)[k % SLOT_WIDTH]
  {
    assert SlotsValues(hands, 2) == SlotValues(hands, 0) + SlotValues(hands, 1);
    if k < SLOT_WIDTH {
      assert k / SLOT_WIDTH == 0 && k % SLOT_WIDTH == k;
    } else {
      assert k / SLOT_WIDTH == 1 && k % SLOT_WIDTH == k - SLOT_WIDTH;
    }
  }

  /** An index keeps its coordinate (its remainder by 3) within its slot. */
  lemma CoordinateOfSlotIndex(k: nat)
    requires k < WIDTH
    ensures (k % SLOT_WIDTH) % 3 == k % 3
  {
    if k >= SLOT_WIDTH {
      assert k % SLOT_WIDTH == k - SLOT_WIDTH;
    }
  }

  /** The value at index `k` is the one the reference description gives. */
  lemma FormattedAt(t: Tracking, k: nat)
    requires k < WIDTH
    ensures |Formatted(t)| == WIDTH && Formatted(t)[k] == ValueAt(t, k)
  {
    if !NoHands(t) {
      var hands := t.multiHandLandmarks.value;
      var h, j := k / SLOT_WIDTH, k % SLOT_WIDTH;
      TwoSlotsAt(hands, k);
      CoordinateOfSlotIndex(k);
      SlotValuesAt(hands, h, j);
      assert Formatted(t) == SlotsValues(hands, 2);
    }
  }

  /** A missing result, a missing hand list and an empty one all give 126 zeros. */
  lemma NoHandsGiveZeros(t: Tracking)
    requires NoHands(t)
    ensures Formatted(t) == Zeros(WIDTH) && AllZero(Formatted(t))
  {
  }

  /** A slot whose hand is absent, not an array or shorter than 21 points is 63 zeros. */
  lemma UnusableSlotIsZero(t: Tracking, k: nat)
    requires k < WIDTH && !NoHands(t)
    requires var hands := t.multiHandLandmarks.value;
      k / SLOT_WIDTH >= |hands| || !Usable(hands[k / SLOT_WIDTH])
    ensures Formatted(t)[k] == 0.0
  {
    FormattedAt(t, k);
  }

  /** Hands after the second are ignored. */
  lemma ExtraHandsIgnored(hands: seq<Hand>)
    requires |hands| > 2
    ensures Formatted(Results(Some(hands))) == Formatted(Results(Some(hands[..2])))
  {
    var a, b := Formatted(Results(Some(hands))), Formatted(Results(Some(hands[..2])));
    forall k | 0 <= k < WIDTH ensures a[k] == b[k] {
      FormattedAt(Results(Some(hands)), k);
      FormattedAt(Results(Some(hands[..2])), k);
    }
  }

  /** Points after the 21st of a hand are ignored. */
  lemma ExtraPointsIgnored(hands: seq<Hand>, h: nat, extra: seq<Landmark>)
    requires h < |hands| && Usable(hands[h])
    ensures var longer := hands[h := Points(hands[h].points + extra)];
      Formatted(Results(Some(longer))) == Formatted(Results(Some(hands)))
  {
    var longer := hands[h := Points(hands[h].points + extra)];
    var a, b := Formatted(Results(Some(longer))), Formatted(Results(Some(hands)));
    forall k | 0 <= k < WIDTH ensures a[k] == b[k] {
      FormattedAt(Results(Some(longer)), k);
      FormattedAt(Results(Some(hands)), k);
    }
  }
}
