/**
 * The value state of the dual-handle range slider: the range
 * `[minimum, maximum]`, the two handle values, the step, and which handle
 * is being dragged. Signals the widget emits are recorded, in order, in
 * `emitted`; painting and the pixel geometry of the handles are not part
 * of this model (a pixel position reaches the model as the integer the
 * pixel-to-value conversion produced, and a hit test as a `Handle`).
 */
module RangeSliders {
  import opened StepAlignment

  datatype Signal =
    | RangeChanged(low: int, high: int)
    | MinValueChanged(value: int)
    | MaxValueChanged(value: int)
    | SliderPressed
    | SliderReleased

  /** A slider handle; `NoHandle` is Python's `None`. */
  datatype Handle = NoHandle | MinHandle | MaxHandle

  datatype MouseButton = LeftButton | OtherButton

  class RangeSlider {
    var minimum: int
    var maximum: int
    var minValue: int
    var maxValue: int
    var step: int
    var dragging: Handle
    var dragStartValue: int
    var emitted: seq<Signal>

    /** The ordering invariant every setter keeps. */
    ghost predicate Valid()
      reads this
    {
      minimum < maximum && minimum <= minValue <= maxValue <= maximum && step >= 1
    }

    constructor ()
      ensures Valid()
      ensures minimum == 0 && maximum == 100 && minValue == 20 && maxValue == 80 && step == 1
      ensures dragging == NoHandle && dragStartValue == 0 && emitted == []
    {
      minimum, maximum := 0, 100;
      minValue, maxValue := 20, 80;
      step := 1;
      dragging := NoHandle;
      dragStartValue := 0;
      emitted := [];
    }

    /** `_alignToStep` over the slider's current range and step. */
    function AlignToStep(value: int): (r: int)
      reads this
      requires Valid()
      ensures step > 1 ==> minimum <= r <= maximum
      ensures step == 1 ==> r == value
    {
      Align(value, minimum, maximum, step)
    }

    /** The clamp-then-align that every setter applies to a requested value. */
    function Normalize(value: int): (r: int)
      reads this
      requires Valid()
      ensures minimum <= r <= maximum
      ensures r == ClampAlign(value, minimum, maximum, step)
    {
      AlignToStep(Clamp(value, minimum, maximum))
    }

    /**
     * `setRange`: an empty or reversed range is ignored; otherwise both
     * values are clamped into the new range and the lower one is pulled
     * down to the upper one if they crossed. No signal is emitted.
     */
    method SetRange(lo: int, hi: int)
      requires Valid()
      modifies this
      ensures Valid()
      ensures lo >= hi ==> minimum == old(minimum) && maximum == old(maximum)
                           && minValue == old(minValue) && maxValue == old(maxValue)
      ensures lo < hi ==> minimum == lo && maximum == hi
                          && maxValue == Clamp(old(maxValue), lo, hi)
                          && minValue == Clamp(old(minValue), lo, hi)
      ensures step == old(step) && dragging == old(dragging)
      ensures dragStartValue == old(dragStartValue) && emitted == old(emitted)
    {
      if lo >= hi {
        return;
      }
      minimum, maximum := lo, hi;
      var low := Clamp(minValue, lo, hi);
      var high := Clamp(maxValue, lo, hi);
      if low > high {
        low := high;
      }
      minValue, maxValue := low, high;
    }

    /**
     * `setMinValue`: clamp, align, never above the max handle; a change
     * emits `minValueChanged` then `rangeChanged`, no change emits nothing.
     */
    method SetMinValue(value: int)
      requires Valid()
      modifies this
      ensures Valid()
      ensures var v := ClampAlign(value, minimum, maximum, step);
              minValue == (if v > old(maxValue) then old(maxValue) else v)
      ensures minimum == old(minimum) && maximum == old(maximum) && step == old(step)
      ensures maxValue == old(maxValue)
      ensures emitted == old(emitted) + MinMoved(old(minValue), minValue, maxValue)
      ensures dragging == old(dragging) && dragStartValue == old(dragStartValue)
    {
      var v := Clamp(value, minimum, maximum);
      v := AlignToStep(v);
      if v > maxValue {
        v := maxValue;
      }
      if minValue != v {
        minValue := v;
        emitted := emitted + [MinValueChanged(v), RangeChanged(minValue, maxValue)];
      }
    }

    /**
     * `setMaxValue`: clamp, align, never below the min handle; a change
     * emits `maxValueChanged` then `rangeChanged`, no change emits nothing.
     */
    method SetMaxValue(value: int)
      requires Valid()
      modifies this
      ensures Valid()
      ensures var v := ClampAlign(value, minimum, maximum, step);
              maxValue == (if v < old(minValue) then old(minValue) else v)
      ensures minimum == old(minimum) && maximum == old(maximum) && step == old(step)
      ensures minValue == old(minValue)
      ensures emitted == old(emitted) + MaxMoved(old(maxValue), minValue, maxValue)
      ensures dragging == old(dragging) && dragStartValue == old(dragStartValue)
    {
      var v := Clamp(value, minimum, maximum);
      v := AlignToStep(v);
      if v < minValue {
        v := minValue;
      }
      if maxValue != v {
        maxValue := v;
        emitted := emitted + [MaxValueChanged(v), RangeChanged(minValue, maxValue)];
      }
    }

    /**
     * `setValues`: both values are clamped and aligned, swapped if reversed,
     * and stored; each handle that moved emits its own signal and
     * `rangeChanged` is emitted once if either moved.
     */
    method SetValues(low: int, high: int)
      requires Valid()
      modifies this
      ensures Valid()
      ensures var a, b := ClampAlign(low, minimum, maximum, step), ClampAlign(high, minimum, maximum, step);
              minValue == (if a > b then b else a) && maxValue == (if a > b then a else b)
      ensures minimum == old(minimum) && maximum == old(maximum) && step == old(step)
      ensures emitted == old(emitted)
                         + (if minValue != old(minValue) then [MinValueChanged(minValue)] else [])
                         + (if maxValue != old(maxValue) then [MaxValueChanged(maxValue)] else [])
                         + (if minValue != old(minValue) || maxValue != old(maxValue)
                            then [RangeChanged(minValue, maxValue)] else [])
      ensures dragging == old(dragging) && dragStartValue == old(dragStartValue)
    {
      var a := Clamp(low, minimum, maximum);
      var b := Clamp(high, minimum, maximum);
      a := AlignToStep(a);
      b := AlignToStep(b);
      if a > b {
        a, b := b, a;
      }
      var changed := false;
      if minValue != a {
        minValue := a;
        emitted := emitted + [MinValueChanged(a)];
        changed := true;
      }
      if maxValue != b {
        maxValue := b;
        emitted := emitted + [MaxValueChanged(b)];
        changed := true;
      }
      if changed {
        emitted := emitted + [RangeChanged(minValue, maxValue)];
      }
    }

    /**
     * `setStep`: a non-positive step is ignored; otherwise the step is
     * stored, both values are realigned (their order survives because
     * alignment is monotone) and `rangeChanged` is always emitted.
     */
    method SetStep(s: int)
      requires Valid()
      modifies this
      ensures Valid()
      ensures s <= 0 ==> step == old(step) && minValue == old(minValue)
                         && maxValue == old(maxValue) && emitted == old(emitted)
      ensures s > 0 ==> step == s
                        && minValue == Align(old(minValue), minimum, maximum, s)
                        && maxValue == Align(old(maxValue), minimum, maximum, s)
                        && emitted == old(emitted) + [RangeChanged(minValue, maxValue)]
      ensures minimum == old(minimum) && maximum == old(maximum)
      ensures dragging == old(dragging) && dragStartValue == old(dragStartValue)
    {
      if s <= 0 {
        return;
      }
      step := s;
      AlignMonotone(minValue, maxValue, minimum, maximum, s);
      minValue := Align(minValue, minimum, maximum, step);
      maxValue := Align(maxValue, minimum, maximum, step);
      emitted := emitted + [RangeChanged(minValue, maxValue)];
    }

    /**
     * `_posToValue` after its float part: `raw` is the integer the pixel
     * ratio gave; it is clamped into the range and aligned.
     */
    function PosToValue(raw: int): (r: int)
      reads this
      requires Valid()
      ensures minimum <= r <= maximum
      ensures r == ClampAlign(raw, minimum, maximum, step)
    {
      Normalize(raw)
    }

    /** `_onMinHandlePressed`: the min handle becomes the dragged one. */
    method OnMinHandlePressed()
      requires Valid()
      modifies this`dragging, this`emitted
      ensures Valid()
      ensures dragging == MinHandle && emitted == old(emitted) + [SliderPressed]
    {
      dragging := MinHandle;
      emitted := emitted + [SliderPressed];
    }

    /** `_onMaxHandlePressed`: the max handle becomes the dragged one. */
    method OnMaxHandlePressed()
      requires Valid()
      modifies this`dragging, this`emitted
      ensures Valid()
      ensures dragging == MaxHandle && emitted == old(emitted) + [SliderPressed]
    {
      dragging := MaxHandle;
      emitted := emitted + [SliderPressed];
    }

    /** `_onHandleReleased`: no handle is dragged any more. */
    method OnHandleReleased()
      requires Valid()
      modifies this`dragging, this`emitted
      ensures Valid()
      ensures dragging == NoHandle && emitted == old(emitted) + [SliderReleased]
    {
      dragging := NoHandle;
      emitted := emitted + [SliderReleased];
    }

    /**
     * `mousePressEvent`: only the left button counts. A press on a handle
     * (`hit`, the result of the hit test) starts dragging it; a press on
     * the groove moves the nearer handle to the clicked value, the min
     * handle when both are equally near.
     */
    method MousePress(button: MouseButton, hit: Handle, raw: int)
      requires Valid()
      modifies this
      ensures Valid()
      ensures button != LeftButton ==> minValue == old(minValue) && maxValue == old(maxValue)
                                       && dragging == old(dragging) && emitted == old(emitted)
                                       && dragStartValue == old(dragStartValue)
      ensures button == LeftButton && hit != NoHandle ==>
                dragging == hit && minValue == old(minValue) && maxValue == old(maxValue)
                && dragStartValue == (if hit == MinHandle then minValue else maxValue)
                && emitted == old(emitted) + [SliderPressed]
      ensures button == LeftButton && hit == NoHandle ==>
                var c := ClampAlign(raw, minimum, maximum, step);
                dragging == old(dragging) && dragStartValue == old(dragStartValue)
                && (if Abs(c - old(minValue)) <= Abs(c - old(maxValue))
                    then maxValue == old(maxValue)
                         && minValue == (if c > old(maxValue) then old(maxValue) else c)
                         && emitted == old(emitted) + MinMoved(old(minValue), minValue, maxValue)
                    else minValue == old(minValue)
                         && maxValue == (if c < old(minValue) then old(minValue) else c)
                         && emitted == old(emitted) + MaxMoved(old(maxValue), minValue, maxValue))
      ensures minimum == old(minimum) && maximum == old(maximum) && step == old(step)
    {
      if button != LeftButton {
        return;
      }
      if hit != NoHandle {
        dragging := hit;
        if hit == MinHandle {
          dragStartValue := minValue;
          OnMinHandlePressed();
        } else {
          dragStartValue := maxValue;
          OnMaxHandlePressed();
        }
      } else {
        var clickValue := PosToValue(raw);
        ClampAlignIdempotent(raw, minimum, maximum, step);
        var minDistance := Abs(clickValue - minValue);
        var maxDistance := Abs(clickValue - maxValue);
        if minDistance <= maxDistance {
          SetMinValue(clickValue);
        } else {
          SetMaxValue(clickValue);
        }
      }
    }

    /** `mouseMoveEvent`: moves the dragged handle; does nothing while none is dragged. */
    method MouseMove(raw: int)
      requires Valid()
      modifies this
      ensures Valid()
      ensures dragging == old(dragging) && dragStartValue == old(dragStartValue)
      ensures old(dragging) == NoHandle ==>
                minValue == old(minValue) && maxValue == old(maxValue) && emitted == old(emitted)
      ensures old(dragging) == MinHandle ==>
                var c := ClampAlign(raw, minimum, maximum, step);
                maxValue == old(maxValue) && minValue == (if c > old(maxValue) then old(maxValue) else c)
                && emitted == old(emitted) + MinMoved(old(minValue), minValue, maxValue)
      ensures old(dragging) == MaxHandle ==>
                var c := ClampAlign(raw, minimum, maximum, step);
                minValue == old(minValue) && maxValue == (if c < old(minValue) then old(minValue) else c)
                && emitted == old(emitted) + MaxMoved(old(maxValue), minValue, maxValue)
      ensures minimum == old(minimum) && maximum == old(maximum) && step == old(step)
    {
      if dragging == NoHandle {
        return;
      }
      var newValue := PosToValue(raw);
      ClampAlignIdempotent(raw, minimum, maximum, step);
      if dragging == MinHandle {
        SetMinValue(newValue);
      } else {
        SetMaxValue(newValue);
      }
    }

    /** `mouseReleaseEvent`: releasing ends a drag; without a drag it does nothing. */
    method MouseRelease()
      requires Valid()
      modifies this
      ensures Valid()
      ensures dragging == NoHandle
      ensures emitted == old(emitted) + (if old(dragging) != NoHandle then [SliderReleased] else [])
      ensures minValue == old(minValue) && maxValue == old(maxValue)
      ensures minimum == old(minimum) && maximum == old(maximum) && step == old(step)
      ensures dragStartValue == old(dragStartValue)
    {
      if dragging != NoHandle {
        OnHandleReleased();
      }
    }
  }

  /**
   * The signals `setMinValue` emits when the min handle goes from `before`
   * to `low` (with the max handle at `high`): none without a change.
   */
  function MinMoved(before: int, low: int, high: int): (r: seq<Signal>)
    ensures r == [] <==> before == low
    ensures r != [] ==> r == [MinValueChanged(low), RangeChanged(low, high)]
  {
    if before == low then [] else [MinValueChanged(low), RangeChanged(low, high)]
  }

  /** The signals `setMaxValue` emits when the max handle goes from `before` to `high`. */
  function MaxMoved(before: int, low: int, high: int): (r: seq<Signal>)
    ensures r == [] <==> before == high
    ensures r != [] ==> r == [MaxValueChanged(high), RangeChanged(low, high)]
  {
    if before == high then [] else [MaxValueChanged(high), RangeChanged(low, high)]
  }

  /** Clamp into `[lo, hi]`, then align: what every setter does to a requested value. */
  function ClampAlign(value: int, lo: int, hi: int, step: int): (r: int)
    requires lo <= hi
    ensures lo <= r <= hi
    ensures lo <= value <= hi && step <= 1 ==> r == value
  {
    Align(Clamp(value, lo, hi), lo, hi, step)
  }

  /**
   * The groove and drag handlers align a value twice (once converting the
   * position, once in the setter); the second pass changes nothing.
   */
  lemma ClampAlignIdempotent(value: int, lo: int, hi: int, step: int)
    requires lo <= hi
    ensures ClampAlign(ClampAlign(value, lo, hi, step), lo, hi, step) == ClampAlign(value, lo, hi, step)
  {
    AlignIdempotent(Clamp(value, lo, hi), lo, hi, step);
  }

  /**
   * A handle value that some setter produced is never reversed by a later
   * realignment: aligning two ordered values keeps them ordered and inside
   * the range, which is why `setStep` keeps the ordering invariant.
   */
  lemma RealignKeepsOrder(minimum: int, maximum: int, low: int, high: int, step: int)
    requires minimum < maximum && minimum <= low <= high <= maximum && step >= 1
    ensures var a, b := Align(low, minimum, maximum, step), Align(high, minimum, maximum, step);
            minimum <= a <= b <= maximum
  {
    AlignMonotone(low, high, minimum, maximum, step);
  }
}
