/**
 * The horizontal scroll container holding four views side by side. The
 * horizontal scroll bar is modelled by its value `position` and its
 * `maxPosition`; a running scroll animation by its end value `animation`.
 * Animation timing and easing are not modelled: an animation is its target.
 */
module ScrollContainers {
  import opened Wrappers

  const Spacing: int := 10
  const AnchorThreshold: int := 50
  const WheelStep: int := 90

  function Dist(a: int, b: int): nat { if a < b then b - a else a - b }

  /**
   * The width a child widget has after `setFixedWidth(w)`: the toolkit
   * refuses negative sizes and uses 0 instead.
   */
  function FixedWidth(w: int): nat { if w < 0 then 0 else w }

  /**
   * The anchors for views of width `unit`: the start, the start of the
   * second view and the start of the third.
   */
  function Anchors(unit: int): seq<int>
  {
    [0, FixedWidth(unit) + Spacing, FixedWidth(unit) + Spacing + FixedWidth(unit) + Spacing]
  }

  /**
   * The anchors are three, strictly increasing and spaced by at least the
   * layout gap, so a scroll position lies within the snap threshold of at
   * most one anchor whenever the views are wider than the threshold allows.
   */
  lemma AnchorsIncreasing(unit: int)
    ensures |Anchors(unit)| == 3 && Anchors(unit)[0] == 0
    ensures forall a, b :: 0 <= a < b < 3 ==> Anchors(unit)[b] - Anchors(unit)[a] >= Spacing
    ensures unit >= 2 * AnchorThreshold - Spacing ==>
              forall pos, a, b :: 0 <= a < b < 3 && Dist(pos, Anchors(unit)[a]) < AnchorThreshold
                ==> Dist(pos, Anchors(unit)[b]) >= AnchorThreshold
  {
  }

  /**
   * `v` is what `_find_nearest_anchor` picks from `anchors` for `pos`: an
   * anchor strictly within the threshold, no farther than any other, and
   * the earliest in the list among the equally near.
   */
  ghost predicate NearestAnchor(anchors: seq<int>, pos: int, v: int)
  {
    exists n :: 0 <= n < |anchors| && anchors[n] == v
      && Dist(pos, v) < AnchorThreshold
      && (forall k :: 0 <= k < |anchors| ==> Dist(pos, v) <= Dist(pos, anchors[k]))
      && (forall k :: 0 <= k < n ==> Dist(pos, anchors[k]) > Dist(pos, v))
  }

  /** At most one anchor is the nearest: the choice is a function of the anchors and the position. */
  lemma NearestAnchorUnique(anchors: seq<int>, pos: int, v: int, w: int)
    requires NearestAnchor(anchors, pos, v) && NearestAnchor(anchors, pos, w)
    ensures v == w
  {
    var n :| 0 <= n < |anchors| && anchors[n] == v
      && (forall k :: 0 <= k < |anchors| ==> Dist(pos, v) <= Dist(pos, anchors[k]))
      && (forall k :: 0 <= k < n ==> Dist(pos, anchors[k]) > Dist(pos, v));
    var m :| 0 <= m < |anchors| && anchors[m] == w
      && (forall k :: 0 <= k < |anchors| ==> Dist(pos, w) <= Dist(pos, anchors[k]))
      && (forall k :: 0 <= k < m ==> Dist(pos, anchors[k]) > Dist(pos, w));
    assert n == m;
  }

  class ScrollContainer {
    var scrollEnabled: bool
    var anchorPoints: seq<int>
    var hasWidgets: bool
    var width: int
    var unitWidth: int
    var contentWidth: int
    var position: int
    var maxPosition: int
    var animation: Option<int>
    var snapPending: bool

    /** The scroll bar keeps its value inside `[0, maximum]`. */
    ghost predicate Valid()
      reads this
    {
      0 <= position <= maxPosition
    }

    constructor (w: int)
      ensures Valid() && !scrollEnabled && anchorPoints == [] && !hasWidgets
      ensures width == w && position == 0 && maxPosition == 0 && animation == None && !snapPending
    {
      scrollEnabled := false;
      anchorPoints := [];
      hasWidgets := false;
      width := w;
      unitWidth, contentWidth := 0, 0;
      position, maxPosition := 0, 0;
      animation := None;
      snapPending := false;
    }

    /** `add_widgets`: the four views are stored, then sizes and anchors are updated. */
    method AddWidgets()
      requires Valid()
      modifies this
      ensures Valid() && hasWidgets && width == old(width)
      ensures unitWidth == (old(width) - 30) / 4 && contentWidth == unitWidth * 4 + 30
      ensures anchorPoints == Anchors(unitWidth)
      ensures scrollEnabled == old(scrollEnabled) && position == old(position)
      ensures maxPosition == old(maxPosition) && animation == old(animation)
      ensures snapPending == old(snapPending)
    {
      hasWidgets := true;
      UpdateWidgetSizes();
    }

    /** `resizeEvent`: the new width, then the size update. */
    method Resize(w: int)
      requires Valid()
      modifies this
      ensures Valid() && width == w && hasWidgets == old(hasWidgets)
      ensures hasWidgets ==> unitWidth == (w - 30) / 4 && contentWidth == unitWidth * 4 + 30
                             && anchorPoints == Anchors(unitWidth)
      ensures !hasWidgets ==> anchorPoints == old(anchorPoints) && unitWidth == old(unitWidth)
                              && contentWidth == old(contentWidth)
      ensures scrollEnabled == old(scrollEnabled) && position == old(position)
      ensures maxPosition == old(maxPosition) && animation == old(animation)
      ensures snapPending == old(snapPending)
    {
      width := w;
      UpdateWidgetSizes();
    }

    /**
     * `_update_widget_sizes`: without all four views nothing changes;
     * otherwise each view gets `(width - 30) // 4`, the content gets four
     * units plus the three gaps, and the anchors are recomputed.
     */
    method UpdateWidgetSizes()
      requires Valid()
      modifies this`unitWidth, this`contentWidth, this`anchorPoints
      ensures Valid()
      ensures !hasWidgets ==> unitWidth == old(unitWidth) && contentWidth == old(contentWidth)
                              && anchorPoints == old(anchorPoints)
      ensures hasWidgets ==> unitWidth == (width - 30) / 4 && contentWidth == unitWidth * 4 + 30
                             && anchorPoints == Anchors(unitWidth)
    {
      if !hasWidgets {
        return;
      }
      var available := width - 30;
      var unit := available / 4;
      unitWidth := unit;
      contentWidth := unit * 4 + 30;
      UpdateAnchorPoints();
    }

    /**
     * `_update_anchor_points`: the list is cleared, and when all four views
     * are present it gets the start, the start of the second view and the
     * start of the third.
     */
    method UpdateAnchorPoints()
      requires Valid()
      modifies this`anchorPoints
      ensures Valid()
      ensures !hasWidgets ==> anchorPoints == []
      ensures hasWidgets ==> anchorPoints == Anchors(unitWidth)
    {
      anchorPoints := [];
      if !hasWidgets {
        return;
      }
      anchorPoints := anchorPoints + [0];
      var anchor1 := FixedWidth(unitWidth) + Spacing;
      anchorPoints := anchorPoints + [anchor1];
      var anchor2 := anchor1 + FixedWidth(unitWidth) + Spacing;
      anchorPoints := anchorPoints + [anchor2];
    }

    /**
     * `_find_nearest_anchor`: the closest anchor strictly within the
     * threshold, the earliest in the list on ties; `None` when the list is
     * empty or no anchor is close enough.
     */
    method FindNearestAnchor(pos: int) returns (r: Option<int>)
      ensures r.None? <==> forall k :: 0 <= k < |anchorPoints| ==> Dist(pos, anchorPoints[k]) >= AnchorThreshold
      ensures r.Some? ==> NearestAnchor(anchorPoints, pos, r.value)
    {
      if |anchorPoints| == 0 {
        return None;
      }
      r := None;
      var minDistance: Option<nat> := None;
      ghost var nearest: nat := 0;
      var i := 0;
      while i < |anchorPoints|
        invariant 0 <= i <= |anchorPoints|
        invariant r.None? <==> minDistance.None?
        invariant r.None? ==> forall k :: 0 <= k < i ==> Dist(pos, anchorPoints[k]) >= AnchorThreshold
        invariant r.Some? ==> nearest < i && anchorPoints[nearest] == r.value
                              && minDistance == Some(Dist(pos, r.value)) && Dist(pos, r.value) < AnchorThreshold
                              && (forall k :: 0 <= k < i ==> Dist(pos, r.value) <= Dist(pos, anchorPoints[k]))
                              && (forall k :: 0 <= k < nearest ==> Dist(pos, anchorPoints[k]) > Dist(pos, r.value))
      {
        var anchor := anchorPoints[i];
        var distance := Dist(pos, anchor);
        if distance < AnchorThreshold && (minDistance.None? || distance < minDistance.value) {
          minDistance := Some(distance);
          r := Some(anchor);
          nearest := i;
        }
        i := i + 1;
      }
    }

    /**
     * `get_current_view_index`: 0 while scrolling is disabled or there are no
     * anchors; otherwise the index of the anchor closest to the scroll
     * position, the earliest on ties.
     */
    method GetCurrentViewIndex() returns (index: nat)
      ensures !scrollEnabled || |anchorPoints| == 0 ==> index == 0
      ensures scrollEnabled && |anchorPoints| > 0 ==>
                index < |anchorPoints|
                && (forall k :: 0 <= k < |anchorPoints| ==> Dist(position, anchorPoints[index]) <= Dist(position, anchorPoints[k]))
                && (forall k :: 0 <= k < index ==> Dist(position, anchorPoints[k]) > Dist(position, anchorPoints[index]))
    {
      if !scrollEnabled {
        return 0;
      }
      var current := position;
      index := 0;
      var minDistance: Option<nat> := None;
      var i := 0;
      while i < |anchorPoints|
        invariant 0 <= i <= |anchorPoints|
        invariant i == 0 <==> minDistance.None?
        invariant i == 0 ==> index == 0
        invariant i > 0 ==> index < i && minDistance == Some(Dist(current, anchorPoints[index]))
                            && (forall k :: 0 <= k < i ==> Dist(current, anchorPoints[index]) <= Dist(current, anchorPoints[k]))
                            && (forall k :: 0 <= k < index ==> Dist(current, anchorPoints[k]) > Dist(current, anchorPoints[index]))
      {
        var distance := Dist(current, anchorPoints[i]);
        if minDistance.None? || distance < minDistance.value {
          minDistance := Some(distance);
          index := i;
        }
        i := i + 1;
      }
    }

    /** `enable_scroll`: disabling also puts the scroll bar back at 0. */
    method EnableScroll(enabled: bool)
      requires Valid()
      modifies this`scrollEnabled, this`position
      ensures Valid() && scrollEnabled == enabled
      ensures position == (if enabled then old(position) else 0)
    {
      scrollEnabled := enabled;
      if !enabled {
        position := 0;
      }
    }

    /** `scroll_to_position`: ignored while disabled; otherwise animates towards `target`. */
    method ScrollToPosition(target: int)
      requires Valid()
      modifies this`animation
      ensures Valid()
      ensures animation == (if scrollEnabled then Some(target) else old(animation))
    {
      if !scrollEnabled {
        return;
      }
      animation := Some(target);
    }

    /** `scroll_to_view`: ignored while disabled or for an index outside the anchor list. */
    method ScrollToView(viewIndex: int)
      requires Valid()
      modifies this`animation
      ensures Valid()
      ensures scrollEnabled && 0 <= viewIndex < |anchorPoints| ==> animation == Some(anchorPoints[viewIndex])
      ensures !(scrollEnabled && 0 <= viewIndex < |anchorPoints|) ==> animation == old(animation)
    {
      if !scrollEnabled || viewIndex < 0 || viewIndex >= |anchorPoints| {
        return;
      }
      var targetPosition := anchorPoints[viewIndex];
      ScrollToPosition(targetPosition);
    }

    /**
     * `wheelEvent`: ignored while disabled; otherwise a running animation is
     * stopped, a positive delta moves 90 left (not below 0), any other delta
     * 90 right (not beyond the maximum), and a snap is scheduled.
     */
    method WheelEvent(angleDelta: int)
      requires Valid()
      modifies this`position, this`animation, this`snapPending
      ensures Valid()
      ensures !scrollEnabled ==> position == old(position) && animation == old(animation)
                                 && snapPending == old(snapPending)
      ensures scrollEnabled ==> animation == None && snapPending
      ensures scrollEnabled && angleDelta > 0 ==> position == (if old(position) < WheelStep then 0 else old(position) - WheelStep)
      ensures scrollEnabled && angleDelta <= 0 ==>
                position == (if maxPosition < old(position) + WheelStep then maxPosition else old(position) + WheelStep)
    {
      if !scrollEnabled {
        return;
      }
      animation := None;
      var current := position;
      var newValue;
      if angleDelta > 0 {
        newValue := if current - WheelStep > 0 then current - WheelStep else 0;
      } else {
        newValue := if maxPosition < current + WheelStep then maxPosition else current + WheelStep;
      }
      position := newValue;
      snapPending := true;
    }

    /**
     * The snap timer's timeout (`_check_and_snap_to_anchor`): animate to the
     * nearest anchor within the threshold, if there is one.
     */
    method CheckAndSnapToAnchor()
      requires Valid()
      modifies this`animation, this`snapPending
      ensures Valid() && !snapPending
      ensures (forall k :: 0 <= k < |anchorPoints| ==> Dist(position, anchorPoints[k]) >= AnchorThreshold)
              ==> animation == old(animation)
      ensures (exists k :: 0 <= k < |anchorPoints| && Dist(position, anchorPoints[k]) < AnchorThreshold)
              ==> animation.Some? && NearestAnchor(anchorPoints, position, animation.value)
    {
      snapPending := false;
      var nearest := FindNearestAnchor(position);
      if nearest.Some? {
        animation := Some(nearest.value);
      }
    }

    /**
     * The toolkit's scroll-bar range update after the content is resized:
     * the value is clamped into the new range.
     */
    method SetScrollMaximum(m: nat)
      requires Valid()
      modifies this`maxPosition, this`position
      ensures Valid() && maxPosition == m
      ensures position == (if old(position) > m then m else old(position))
    {
      maxPosition := m;
      if position > m {
        position := m;
      }
    }
  }
}
