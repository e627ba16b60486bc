/** `slider2dB` (utils.py): the fader position to level map. Every band's step
    is a multiple of 0.25 dB, so levels are integers counted in quarter-dB;
    `None` is the "-∞" label of position 0. */
module Slider {
  import opened Wrappers

  /** Quarter-dB per dB. */
  const Quarters: int := 4

  /** The level shown for fader position `pos`, in quarter-dB. */
  function SliderDb(pos: int): (q: Option<int>)
    ensures q.None? <==> pos == 0
  {
    if pos == 0 then None
    else if 0 < pos <= 13 then Some((-74 + (pos - 1) * 2) * Quarters)
    else if 13 < pos <= 43 then Some((-50 + (pos - 13)) * Quarters)
    else if 43 < pos <= 63 then Some(-20 * Quarters + (pos - 43) * 2)
    else Some(-10 * Quarters + (pos - 63))
  }

  /** The step, in quarter-dB, from position `pos` to `pos + 1`, as the band
      comments give it: 2, 1, 0.5 and 0.25 dB. */
  function StepAfter(pos: int): (q: int)
    ensures q > 0
  {
    if pos < 13 then 8
    else if pos < 43 then 4
    else if pos < 63 then 2
    else 1
  }

  /** A reference definition independent of the band formulas: start at
      -74 dB at position 1 and add the step of every position passed. */
  function ReferenceDb(pos: int): int
    requires pos >= 1
    decreases pos
  {
    if pos == 1 then -74 * Quarters else ReferenceDb(pos - 1) + StepAfter(pos - 1)
  }

  /** The band formulas agree with the step table on every position from 1:
      in particular consecutive bands meet without a jump or a repeat. */
  lemma {:induction false} SliderMatchesReference(pos: int)
    requires pos >= 1
    ensures SliderDb(pos) == Some(ReferenceDb(pos))
    decreases pos
  {
    if pos > 1 {
      SliderMatchesReference(pos - 1);
    }
  }

  /** The reference level strictly increases with the position. */
  lemma {:induction false} ReferenceIncreasing(p: int, q: int)
    requires 1 <= p < q
    ensures ReferenceDb(p) < ReferenceDb(q)
    decreases q
  {
    if q > p + 1 {
      ReferenceIncreasing(p, q - 1);
    }
  }

  /** Over the positions from 1 on the level is strictly increasing, across
      the band boundaries 13/14, 43/44 and 63/64 included. */
  lemma SliderIncreasing(p: int, q: int)
    requires 1 <= p < q
    ensures SliderDb(p).Some? && SliderDb(q).Some?
    ensures SliderDb(p).value < SliderDb(q).value
  {
    SliderMatchesReference(p);
    SliderMatchesReference(q);
    ReferenceIncreasing(p, q);
  }

  /** The band end points: -74 dB at 1, -50 dB at 13, -20 dB at 43, -10 dB
      at 63 and +6 dB at 127. */
  lemma SliderEndPoints()
    ensures SliderDb(0) == None
    ensures SliderDb(1) == Some(-74 * Quarters)
    ensures SliderDb(13) == Some(-50 * Quarters)
    ensures SliderDb(43) == Some(-20 * Quarters)
    ensures SliderDb(63) == Some(-10 * Quarters)
    ensures SliderDb(127) == Some(6 * Quarters)
  {
  }

  /** Negative positions fall through to the last branch: they continue the
      0.25 dB band downwards from position 63. */
  lemma NegativeFallsThrough(pos: int)
    requires pos < 0
    ensures SliderDb(pos).Some? && SliderDb(63).Some?
    ensures SliderDb(pos).value == SliderDb(63).value - (63 - pos)
  {
  }
}
