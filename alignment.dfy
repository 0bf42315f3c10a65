/** Where a page's content is placed inside the component: the two
    alignment handlers, the alignment used when the text is not rotated,
    and the overflow corrections used when it is. */
module Alignment {
  import opened Skeleton

  /** The left offset of content `contentWidth` wide inside a component
      `componentWidth` wide. Centred content leaves equal gaps on both
      sides; right-aligned content ends `padRight` before the right edge;
      every other alignment starts at `padLeft`. */
  function HorizontalOffset(componentWidth: real, contentWidth: real, padLeft: real, padRight: real,
                            align: HorizontalAlign): (r: real)
    ensures align == Center ==> r == componentWidth - (r + contentWidth)
    ensures align == Right ==> r + contentWidth + padRight == componentWidth
    ensures align != Center && align != Right ==> r == padLeft
  {
    if align == Center then (componentWidth - contentWidth) / 2.0
    else if align == Right then componentWidth - contentWidth - padRight
    else padLeft
  }

  /** The top offset of content `contentHeight` high inside a component
      `componentHeight` high. Middle-aligned content leaves equal gaps
      above and below; bottom-aligned content ends `padBottom` above the
      bottom edge; every other alignment starts at `padTop`. */
  function VerticalOffset(componentHeight: real, contentHeight: real, padTop: real, padBottom: real,
                          align: VerticalAlign): (r: real)
    ensures align == Middle ==> r == componentHeight - (r + contentHeight)
    ensures align == Bottom ==> r + contentHeight + padBottom == componentHeight
    ensures align != Middle && align != Bottom ==> r == padTop
  {
    if align == Middle then (componentHeight - contentHeight) / 2.0
    else if align == Bottom then componentHeight - contentHeight - padBottom
    else padTop
  }

  /** The alignment offset of a page whose text is not rotated: both
      handlers run on the page's dimensions and margins multiplied by the
      scale, and the results are divided by the scale. */
  function NoAngleAlign(stage: Stage, page: Page): Vec
    requires stage.scale != 0.0
  {
    var s := stage.scale;
    var rc := page.renderConfig;
    Vec(HorizontalOffset(stage.width, page.width * s, page.marginLeft * s, page.marginRight * s, rc.horizontalAlign) / s,
        VerticalOffset(stage.height, page.height * s, page.marginTop * s, page.marginBottom * s, rc.verticalAlign) / s)
  }

  /** Because the component's own width and height are not scaled, centred
      and right-aligned pages are placed as if the component were
      `width / scale` wide and `height / scale` high; left- and top-aligned
      pages sit at their margins whatever the scale. */
  lemma NoAngleAlignIsUnscaled(stage: Stage, page: Page)
    requires stage.scale != 0.0
    ensures NoAngleAlign(stage, page).x ==
      HorizontalOffset(stage.width / stage.scale, page.width, page.marginLeft, page.marginRight,
                       page.renderConfig.horizontalAlign)
    ensures NoAngleAlign(stage, page).y ==
      VerticalOffset(stage.height / stage.scale, page.height, page.marginTop, page.marginBottom,
                     page.renderConfig.verticalAlign)
  {
    NoAngleAlignXIsUnscaled(stage, page);
    NoAngleAlignYIsUnscaled(stage, page);
  }

  lemma NoAngleAlignXIsUnscaled(stage: Stage, page: Page)
    requires stage.scale != 0.0
    ensures NoAngleAlign(stage, page).x ==
      HorizontalOffset(stage.width / stage.scale, page.width, page.marginLeft, page.marginRight,
                       page.renderConfig.horizontalAlign)
  {
    var w, s := stage.width, stage.scale;
    match page.renderConfig.horizontalAlign
    case Center =>
      assert w - page.width * s == (w / s - page.width) * s;
    case Right =>
      assert w - page.width * s - page.marginRight * s == (w / s - page.width - page.marginRight) * s;
    case _ =>
      assert page.marginLeft * s / s == page.marginLeft;
  }

  lemma NoAngleAlignYIsUnscaled(stage: Stage, page: Page)
    requires stage.scale != 0.0
    ensures NoAngleAlign(stage, page).y ==
      VerticalOffset(stage.height / stage.scale, page.height, page.marginTop, page.marginBottom,
                     page.renderConfig.verticalAlign)
  {
    var h, s := stage.height, stage.scale;
    match page.renderConfig.verticalAlign
    case Middle =>
      assert h - page.height * s == (h / s - page.height) * s;
    case Bottom =>
      assert h - page.height * s - page.marginBottom * s == (h / s - page.height - page.marginBottom) * s;
    case _ =>
      assert page.marginTop * s / s == page.marginTop;
  }

  /** The width the rotated column is aligned by. It is clipped to the
      width whose rotated height fits the component (`fit`) only when the
      rotated height exceeds the component's height, the wrap strategy is
      not WRAP, and either the strategy is OVERFLOW or the angle is
      positive; a negative angle under any other strategy is never
      clipped. */
  function ExceedWidthFix(env: Envelope, height: real, wrap: WrapStrategy, vertexAngle: real, fit: real): (r: real)
    ensures r == env.rotatedWidth || r == fit
    ensures (env.rotatedHeight > height && wrap != Wrap && (wrap == Overflow || vertexAngle > 0.0)) ==> r == fit
    ensures env.rotatedHeight <= height ==> r == env.rotatedWidth
    ensures wrap == Wrap ==> r == env.rotatedWidth
    ensures vertexAngle <= 0.0 && wrap != Overflow ==> r == env.rotatedWidth
  {
    var exceedWidthFix := env.rotatedWidth;
    if env.rotatedHeight > height && wrap != Wrap then
      if wrap == Overflow || vertexAngle > 0.0 then fit else exceedWidthFix
    else exceedWidthFix
  }

  /** The vertical offset of a rotated column. When it fits, the aligned
      offset corrected by the envelope's `fixOffsetY`; when it is taller
      than the component, a negative angle puts the envelope's bottom on
      the component's bottom edge and any other angle puts its top at 0. */
  function ExceedHeightFix(verticalOffset: real, env: Envelope, height: real, vertexAngle: real): (r: real)
    ensures env.rotatedHeight <= height ==> r + env.fixOffsetY == verticalOffset
    ensures env.rotatedHeight > height && vertexAngle < 0.0 ==> r + env.rotatedHeight + env.fixOffsetY == height
    ensures env.rotatedHeight > height && vertexAngle >= 0.0 ==> r + env.fixOffsetY == 0.0
  {
    var exceedHeightFix := verticalOffset - env.fixOffsetY;
    if env.rotatedHeight > height then
      if vertexAngle < 0.0 then height - (env.rotatedHeight + env.fixOffsetY) else -env.fixOffsetY
    else exceedHeightFix
  }

  /** The alignment offset of a column whose text is rotated by
      `vertexAngle` (radians, non-zero): the handlers run unscaled on the
      rotated envelope, horizontally on the possibly clipped width. */
  function RotatedAlign(stage: Stage, page: Page, env: Envelope, vertexAngle: real, fit: real): Vec
  {
    var rc := page.renderConfig;
    var exceedWidthFix := ExceedWidthFix(env, stage.height, rc.wrapStrategy, vertexAngle, fit);
    var horizontalOffset := HorizontalOffset(stage.width, exceedWidthFix, page.marginLeft, page.marginRight, rc.horizontalAlign);
    var verticalOffset := VerticalOffset(stage.height, env.rotatedHeight, page.marginTop, page.marginBottom, rc.verticalAlign);
    Vec(horizontalOffset + env.fixOffsetX, ExceedHeightFix(verticalOffset, env, stage.height, vertexAngle))
  }

  /** The alignment cases of a 800 by 1000 component holding 600 by 400
      content with paddings left 10, right 20, top 5 and bottom 15. */
  lemma AlignmentExamples()
    ensures HorizontalOffset(800.0, 600.0, 10.0, 20.0, Left) == 10.0
    ensures HorizontalOffset(800.0, 600.0, 10.0, 20.0, Center) == 100.0
    ensures HorizontalOffset(800.0, 600.0, 10.0, 20.0, Right) == 180.0
    ensures VerticalOffset(1000.0, 400.0, 5.0, 15.0, Top) == 5.0
    ensures VerticalOffset(1000.0, 400.0, 5.0, 15.0, Middle) == 300.0
    ensures VerticalOffset(1000.0, 400.0, 5.0, 15.0, Bottom) == 585.0
  {
  }
}
