/**
 * The global UI dimension settings: pixel constants and the three sizing
 * helpers computed from them.
 */
module UIDimensions {
  const PaddingSmall: int := 5
  const PaddingMedium: int := 10
  const PaddingLarge: int := 20

  const SpacingSmall: int := 5
  const SpacingMedium: int := 10
  const SpacingLarge: int := 15

  const ScrollAreaMaxWidthPanel: int := 600
  const ScrollAreaMaxWidthSetting: int := 1200

  const WindowDefaultWidth: int := 1200

  /** The width below which a container counts as narrow, and as wide from this one up. */
  const NarrowBelow: int := 600
  const WideFrom: int := 1000

  /** The padding argument's default. */
  const DefaultPanelPadding: int := 40

  /** Why `get_right_panel_width` refuses its arguments. */
  datatype WidthError = TotalNotAbovePadding(total: int, padding: int)

  datatype WidthResult = Width(width: int) | Error(error: WidthError)

  /**
   * `get_right_panel_width`: a third of what is left after the padding,
   * capped at the main-panel scroll-area maximum; an error when nothing
   * is left.
   */
  function RightPanelWidth(total: int, padding: int): (r: WidthResult)
    ensures r.Error? <==> total <= padding
    ensures r.Error? ==> r.error == TotalNotAbovePadding(total, padding)
    ensures r.Width? ==> 0 <= r.width <= ScrollAreaMaxWidthPanel
    ensures r.Width? ==> 3 * r.width <= total - padding
    ensures r.Width? ==> r.width == ScrollAreaMaxWidthPanel || total - padding < 3 * (r.width + 1)
  {
    if total <= padding then Error(TotalNotAbovePadding(total, padding))
    else
      var available := total - padding;
      var calculated := available / 3;
      Width(if calculated < ScrollAreaMaxWidthPanel then calculated else ScrollAreaMaxWidthPanel)
  }

  /** A wider total never gives a narrower right panel. */
  lemma RightPanelWidthMonotone(t1: int, t2: int, padding: int)
    requires padding < t1 <= t2
    ensures RightPanelWidth(t1, padding).Width? && RightPanelWidth(t2, padding).Width?
    ensures RightPanelWidth(t1, padding).width <= RightPanelWidth(t2, padding).width
  {
  }

  /** The values the unit tests expect, with the default padding of 40. */
  lemma RightPanelWidthExamples()
    ensures RightPanelWidth(1200, DefaultPanelPadding) == Width(386)
    ensures RightPanelWidth(41, DefaultPanelPadding) == Width(0)
    ensures RightPanelWidth(40, DefaultPanelPadding).Error?
    ensures RightPanelWidth(30, DefaultPanelPadding).Error?
    ensures RightPanelWidth(4000, DefaultPanelPadding) == Width(ScrollAreaMaxWidthPanel)
  {
  }

  /**
   * `get_responsive_padding`: small below 600, medium below 1000, large
   * from 1000 up.
   */
  function ResponsivePadding(containerWidth: int): (r: int)
    ensures containerWidth < NarrowBelow <==> r == PaddingSmall
    ensures NarrowBelow <= containerWidth < WideFrom <==> r == PaddingMedium
    ensures WideFrom <= containerWidth <==> r == PaddingLarge
  {
    if containerWidth < NarrowBelow then PaddingSmall
    else if containerWidth < WideFrom then PaddingMedium
    else PaddingLarge
  }

  /**
   * `get_responsive_spacing`: the same bands as the padding, with the
   * spacing constants.
   */
  function ResponsiveSpacing(containerWidth: int): (r: int)
    ensures containerWidth < NarrowBelow <==> r == SpacingSmall
    ensures NarrowBelow <= containerWidth < WideFrom <==> r == SpacingMedium
    ensures WideFrom <= containerWidth <==> r == SpacingLarge
  {
    if containerWidth < NarrowBelow then SpacingSmall
    else if containerWidth < WideFrom then SpacingMedium
    else SpacingLarge
  }

  /** Both helpers grow with the container and never shrink. */
  lemma ResponsiveMonotone(w1: int, w2: int)
    requires w1 <= w2
    ensures ResponsivePadding(w1) <= ResponsivePadding(w2)
    ensures ResponsiveSpacing(w1) <= ResponsiveSpacing(w2)
  {
  }

  /** The values the unit tests expect at and around the band boundaries. */
  lemma ResponsiveExamples()
    ensures ResponsivePadding(500) == 5 && ResponsivePadding(599) == 5
    ensures ResponsivePadding(600) == 10 && ResponsivePadding(800) == 10 && ResponsivePadding(999) == 10
    ensures ResponsivePadding(1000) == 20 && ResponsivePadding(1200) == 20
    ensures ResponsiveSpacing(500) == 5 && ResponsiveSpacing(600) == 10 && ResponsiveSpacing(800) == 10
    ensures ResponsiveSpacing(1000) == 15 && ResponsiveSpacing(1200) == 15
  {
  }
}
