/**
 * The step slider: a single-value slider whose every value goes through
 * `_alignToStep`. The base slider's range and stored value belong to the
 * toolkit; its `setValue` stores the value clamped into
 * `[minimum, maximum]`, which is what the toolkit's slider documents.
 */
module StepSliders {
  import opened StepAlignment

  class StepSlider {
    var minimum: int
    var maximum: int
    var value: int
    var step: int

    ghost predicate Valid()
      reads this
    {
      minimum <= maximum && minimum <= value <= maximum && step >= 1
    }

    /**
     * Construction over a base slider with the given range and value: the
     * step starts at 1, and the construction-time alignment of the current
     * value therefore leaves it as it was.
     */
    constructor (lo: int, hi: int, initial: int)
      requires lo <= hi && lo <= initial <= hi
      ensures Valid()
      ensures minimum == lo && maximum == hi && step == 1 && value == initial
    {
      minimum, maximum, value := lo, hi, initial;
      step := 1;
      new;
      var aligned := AlignToStep(value);
      SetValue(aligned);
    }

    /** `_alignToStep` over the base slider's range. */
    function AlignToStep(v: int): (r: int)
      reads this
      requires minimum <= maximum && step >= 1
      ensures step == 1 ==> r == v
      ensures step > 1 ==> minimum <= r <= maximum
    {
      Align(v, minimum, maximum, step)
    }

    /** The base slider's `setValue`: the value is stored clamped into the range. */
    method BaseSetValue(v: int)
      requires minimum <= maximum && step >= 1
      modifies this`value
      ensures value == Clamp(v, minimum, maximum)
    {
      value := Clamp(v, minimum, maximum);
    }

    /** `setValue`: the aligned value is forwarded, never the raw one. */
    method SetValue(v: int)
      requires minimum <= maximum && step >= 1
      modifies this`value
      ensures Valid()
      ensures value == Clamp(Align(v, minimum, maximum, step), minimum, maximum)
    {
      var aligned := AlignToStep(v);
      BaseSetValue(aligned);
    }

    /**
     * `setStep`: a non-positive step changes nothing; otherwise the step is
     * stored and the current value becomes its alignment to the new step
     * (it is written only when alignment moved it).
     */
    method SetStep(s: int)
      requires Valid()
      modifies this`step, this`value
      ensures Valid()
      ensures s <= 0 ==> step == old(step) && value == old(value)
      ensures s > 0 ==> step == s && value == Align(old(value), minimum, maximum, s)
    {
      if s <= 0 {
        return;
      }
      step := s;
      var aligned := AlignToStep(value);
      if aligned != value {
        AlignIdempotent(value, minimum, maximum, step);
        SetValue(aligned);
      }
    }

    /**
     * `_posToValue`: `raw` is what the base slider computed from the pixel
     * position; the result is its alignment.
     */
    function PosToValue(raw: int): (r: int)
      reads this
      requires Valid()
      ensures step > 1 ==> minimum <= r <= maximum
      ensures step > 1 ==> r == maximum || (r - minimum) % step == 0
      ensures r == Align(raw, minimum, maximum, step)
      ensures step == 1 ==> r == raw
    {
      if step > 1 then AlignOnGrid(raw, minimum, maximum, step); AlignToStep(raw)
      else AlignToStep(raw)
    }
  }

  /**
   * What the slider shows after `setValue(v)`: a point of the step grid
   * counted from the minimum, or the maximum, whatever `v` was.
   */
  lemma SetValueLandsOnGrid(v: int, minimum: int, maximum: int, step: int)
    requires minimum <= maximum && step > 1
    ensures var shown := Clamp(Align(v, minimum, maximum, step), minimum, maximum);
            minimum <= shown <= maximum && (shown == maximum || (shown - minimum) % step == 0)
  {
    AlignOnGrid(v, minimum, maximum, step);
  }
}
