/**
 * Placement of the title label of the settings page and of the parameter
 * configuration page (both compute it the same way), and the yes/no caption
 * of the parameter page's switches.
 */
module LabelPlacement {
  import opened UIDimensions

  /** The label's left margin, which is also the layout's left margin. */
  const LabelMargin: int := 36
  /** The label's fixed vertical position. */
  const LabelTop: int := 30

  /**
   * `_updateLabelPosition` for a page of width `width`: a width that is not
   * positive stands for the default window width; the scroll area is at
   * most the settings maximum wide and centred, and the label sits at the
   * margin from its left edge, never closer to the page edge than the margin.
   */
  function LabelPosition(width: int): (p: (int, int))
    ensures p.1 == LabelTop
    ensures p.0 >= LabelMargin
    ensures width <= ScrollAreaMaxWidthSetting ==> p.0 == LabelMargin
    ensures width > ScrollAreaMaxWidthSetting ==>
              p.0 == (width - ScrollAreaMaxWidthSetting) / 2 + LabelMargin
  {
    var windowWidth := if width > 0 then width else WindowDefaultWidth;
    var scrollAreaWidth := if windowWidth < ScrollAreaMaxWidthSetting then windowWidth else ScrollAreaMaxWidthSetting;
    var centerOffset := (windowWidth - scrollAreaWidth) / 2;
    var x := if centerOffset + LabelMargin > LabelMargin then centerOffset + LabelMargin else LabelMargin;
    (x, LabelTop)
  }

  /** A wider page never moves the label to the left. */
  lemma LabelPositionMonotone(w1: int, w2: int)
    requires w1 <= w2
    ensures LabelPosition(w1).0 <= LabelPosition(w2).0
    ensures LabelPosition(w1).1 == LabelPosition(w2).1
  {
    if w1 > ScrollAreaMaxWidthSetting {
      assert (w1 - ScrollAreaMaxWidthSetting) / 2 <= (w2 - ScrollAreaMaxWidthSetting) / 2;
    }
  }

  /** The positions the label tests expect. */
  lemma LabelPositionExamples()
    ensures LabelPosition(800) == (36, 30) && LabelPosition(1200) == (36, 30)
    ensures LabelPosition(1600) == (236, 30) && LabelPosition(2000) == (436, 30)
    ensures LabelPosition(1700) == (286, 30) && LabelPosition(200) == (36, 30)
    ensures LabelPosition(0) == (36, 30)
    ensures LabelPosition(1000).0 != LabelPosition(1500).0
  {
  }

  /** The caption of a switch: "是" (yes) when checked, "否" (no) otherwise. */
  function Caption(isChecked: bool): (r: string)
    ensures r == "是" <==> isChecked
    ensures r == "否" <==> !isChecked
    ensures r != []
  {
    if isChecked then "是" else "否"
  }

  /** A switch setting card's button: its checked state and its caption. */
  class SwitchButton {
    var checked: bool
    var text: string

    ghost predicate Valid()
      reads this
    {
      text == Caption(checked)
    }

    /**
     * `_setup_switch` on a card whose switch is `isChecked`: the caption is
     * set from the current state.
     */
    constructor (isChecked: bool)
      ensures Valid() && checked == isChecked
    {
      checked := isChecked;
      text := Caption(isChecked);
    }

    /**
     * A toggle: the switch takes the new state and the connected handler
     * rewrites the caption from the state it reports.
     */
    method SetChecked(isChecked: bool)
      modifies this
      ensures Valid() && checked == isChecked
    {
      checked := isChecked;
      text := Caption(isChecked);
    }
  }
}
