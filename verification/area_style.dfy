/** The two small per-element rules of `renderNew` that are not d3 drawing:
    the fill opacity of a series' area and the clamp of a lower edge to the
    plot height. The y scale is a parameter: it belongs to the axis code. */
module AreaStyle {
  import opened ChartData

  /** The fill opacity of an area: `dimmed` while something else is
      selected, `normal` otherwise. The two constants belong to the line
      chart and are passed in. */
  function AreaFillOpacity(hasSelection: bool, selected: bool, normal: real, dimmed: real): (o: real)
    ensures hasSelection && !selected ==> o == dimmed
    ensures !hasSelection || selected ==> o == normal
  {
    if hasSelection && !selected then dimmed else normal
  }

  /** When the two constants differ, an area is dimmed exactly when there is
      a selection and its series is not part of it. */
  lemma AreaDimmedIff(hasSelection: bool, selected: bool, normal: real, dimmed: real)
    requires normal != dimmed
    ensures AreaFillOpacity(hasSelection, selected, normal, dimmed) == dimmed <==> hasSelection && !selected
  {
  }

  /** Opacities drawn from [0, 1] stay in [0, 1]. */
  lemma AreaFillOpacityInUnitRange(hasSelection: bool, selected: bool, normal: real, dimmed: real)
    requires 0.0 <= normal <= 1.0 && 0.0 <= dimmed <= 1.0
    ensures 0.0 <= AreaFillOpacity(hasSelection, selected, normal, dimmed) <= 1.0
  {
  }

  /** `y <= height ? y : height`. */
  function ClampToHeight(y: real, height: real): (c: real)
    ensures c <= height
    ensures c == y || c == height
    ensures y <= height ==> c == y
  {
    if y <= height then y else height
  }

  /** Clamping twice is clamping once, and clamping keeps the order of
      coordinates. */
  lemma ClampProperties(y: real, z: real, height: real)
    ensures ClampToHeight(ClampToHeight(y, height), height) == ClampToHeight(y, height)
    ensures y <= z ==> ClampToHeight(y, height) <= ClampToHeight(z, height)
  {
  }

  /** The area's lower edge at a point: the scaled band bottom, clamped to
      at most the plot height. */
  function AreaBottomY(yScale: real -> real, d: Point, height: real): (y: real)
    ensures y <= height
    ensures yScale(d.stackedValueBelow) <= height ==> y == yScale(d.stackedValueBelow)
    ensures yScale(d.stackedValueBelow) > height ==> y == height
  {
    ClampToHeight(yScale(d.stackedValueBelow), height)
  }

  /** The line's y at a point: the scaled band top, clamped to at most the
      plot height. */
  function LineY(yScale: real -> real, d: Point, height: real): (y: real)
    ensures y <= height
    ensures yScale(d.stackedValue) <= height ==> y == yScale(d.stackedValue)
    ensures yScale(d.stackedValue) > height ==> y == height
  {
    ClampToHeight(yScale(d.stackedValue), height)
  }
}
