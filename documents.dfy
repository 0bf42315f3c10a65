/** The document component: its configuration and its draw pass, which
    walks the skeleton with a cursor and records on the drawing surface
    every notification, rotation and extension draw it makes. */
module Render {
  import opened Wrappers
  import opened Skeleton
  import opened Alignment
  import opened DrawTrace
  import opened Cursor

  /** The drawing surface, standing for the canvas, the page observers and
      the extensions together: it records what the pass does to them. */
  class Surface {
    var events: seq<Event>

    constructor ()
      ensures events == []
    {
      events := [];
    }

    method Emit(e: Event)
      modifies this
      ensures events == old(events) + [e]
    {
      events := events + [e];
    }
  }

  /** The optional configuration the component is created with. */
  datatype DocumentsConfig = DocumentsConfig(
    pageMarginLeft: Option<real>,
    pageMarginTop: Option<real>,
    pageLayoutType: Option<PageLayoutType>,
    allowCache: Option<bool>)

  datatype Settings = Settings(pageMarginLeft: real, pageMarginTop: real, pageLayoutType: PageLayoutType, allowCache: bool)

  /** JavaScript's `value || fallback` on an optional number: a missing
      value and 0 are both falsy. */
  function NumberOr(value: Option<real>, fallback: real): (r: real)
    ensures value.Some? && value.value != 0.0 ==> r == value.value
    ensures value.None? || value.value == 0.0 ==> r == fallback
    ensures r == fallback || value == Some(r)
    ensures r == 0.0 ==> fallback == 0.0
  {
    if value.Some? && value.value != 0.0 then value.value else fallback
  }

  /** The settings `setConfig` stores. Margins default to 17 (left) and 14
      (top) when missing or 0, so a stored margin is never 0; the layout
      defaults to VERTICAL and caching to off; an explicit non-zero margin,
      an explicit layout and an explicit true are kept. */
  function ResolveConfig(config: Option<DocumentsConfig>): (r: Settings)
    ensures r.pageMarginLeft != 0.0 && r.pageMarginTop != 0.0
    ensures config.None? ==> r == Settings(17.0, 14.0, Vertical, false)
    ensures config.Some? ==>
      var c := config.value;
      && (c.pageMarginLeft.None? || c.pageMarginLeft.value == 0.0 ==> r.pageMarginLeft == 17.0)
      && (c.pageMarginLeft.Some? && c.pageMarginLeft.value != 0.0 ==> r.pageMarginLeft == c.pageMarginLeft.value)
      && (c.pageMarginTop.Some? && c.pageMarginTop.value != 0.0 ==> r.pageMarginTop == c.pageMarginTop.value)
      && (c.pageMarginTop.None? || c.pageMarginTop.value == 0.0 ==> r.pageMarginTop == 14.0)
      && (c.pageLayoutType.Some? ==> r.pageLayoutType == c.pageLayoutType.value)
      && (c.pageLayoutType.None? ==> r.pageLayoutType == Vertical)
      && (r.allowCache <==> c.allowCache == Some(true))
  {
    match config
    case None => Settings(17.0, 14.0, Vertical, false)
    case Some(c) =>
      Settings(NumberOr(c.pageMarginLeft, 17.0), NumberOr(c.pageMarginTop, 14.0),
               if c.pageLayoutType.Some? then c.pageLayoutType.value else Vertical,
               c.allowCache.Some? && c.allowCache.value)
  }

  class Documents {
    var width: real
    var height: real
    var pageMarginLeft: real
    var pageMarginTop: real
    var pageLayoutType: PageLayoutType
    var allowCache: bool
    /** The registered extensions, in the order `getExtensionsByOrder`
        yields them. */
    var extensions: seq<Extension>
    const drawLiquid: Liquid

    function Config(): Settings
      reads this
    {
      Settings(pageMarginLeft, pageMarginTop, pageLayoutType, allowCache)
    }

    /** What a pass reads of the component, at surface scale `scale`. */
    function StageAt(scale: real): Stage
      reads this
    {
      Stage(width, height, scale, pageLayoutType, pageMarginLeft, pageMarginTop)
    }

    /** A component of size 0 by 0 with the given configuration, a fresh
        cursor at the origin and the default extensions registered. */
    constructor (config: Option<DocumentsConfig>, defaultExtensions: seq<Extension>)
      ensures Config() == ResolveConfig(config)
      ensures extensions == defaultExtensions && width == 0.0 && height == 0.0
      ensures fresh(drawLiquid) && drawLiquid.Pos() == Vec(0.0, 0.0) && drawLiquid.stack == []
    {
      width, height := 0.0, 0.0;
      extensions := defaultExtensions;
      drawLiquid := new Liquid();
      new;
      SetConfig(config);
    }

    method SetConfig(config: Option<DocumentsConfig>)
      modifies this
      ensures Config() == ResolveConfig(config)
      ensures width == old(width) && height == old(height) && extensions == old(extensions)
    {
      var c := if config.Some? then config.value else DocumentsConfig(None, None, None, None);
      pageMarginLeft := NumberOr(c.pageMarginLeft, 17.0);
      pageMarginTop := NumberOr(c.pageMarginTop, 14.0);
      pageLayoutType := if c.pageLayoutType.Some? then c.pageLayoutType.value else Vertical;
      allowCache := c.allowCache.Some? && c.allowCache.value;
    }

    method StartRotation(ctx: Surface, textAngle: real)
      modifies ctx
      ensures ctx.events == old(ctx.events) + [Rotate(textAngle)]
    {
      ctx.Emit(Rotate(textAngle));
    }

    method ResetRotation(ctx: Surface, textAngle: real)
      modifies ctx
      ensures ctx.events == old(ctx.events) + [Rotate(-textAngle)]
    {
      ctx.Emit(Rotate(-textAngle));
    }

    /** One draw pass. Without a skeleton nothing happens; without skeleton
        data only the cursor is reset; otherwise the surface receives the
        events `DrawEvents` describes and the cursor ends with nothing
        saved. */
    method Draw(ctx: Surface, skeleton: Option<DocumentSkeleton>, g: Geometry, scale: real)
      requires scale != 0.0
      modifies drawLiquid, ctx
      ensures ctx.events == old(ctx.events) + DrawEvents(g, StageAt(scale), skeleton, extensions)
      ensures skeleton.None? ==> drawLiquid.Pos() == old(drawLiquid.Pos()) && drawLiquid.stack == old(drawLiquid.stack)
      ensures skeleton.Some? ==> drawLiquid.stack == []
      ensures skeleton.Some? && skeleton.value.data.None? ==> drawLiquid.Pos() == Vec(0.0, 0.0)
      ensures skeleton.Some? && skeleton.value.data.Some? ==>
        drawLiquid.Pos() == PagesOut(g, StageAt(scale), skeleton.value.data.value.pages, extensions).pos
    {
      if skeleton.None? {
        return;
      }
      drawLiquid.Reset();
      var skeletonData := skeleton.value.data;
      if skeletonData.None? {
        return;
      }
      var exts := extensions;
      var stage := StageAt(scale);
      ClearExtensionCaches(ctx, exts);
      DrawPages(ctx, g, stage, skeletonData.value.pages, exts);
      EventsAssoc(old(ctx.events), ClearCaches(exts), PagesOut(g, stage, skeletonData.value.pages, exts).events);
    }

    /** Every extension's cache is cleared, in order. */
    method ClearExtensionCaches(ctx: Surface, exts: seq<Extension>)
      modifies ctx
      ensures ctx.events == old(ctx.events) + ClearCaches(exts)
    {
      var j := 0;
      while j < |exts|
        invariant 0 <= j <= |exts|
        invariant ctx.events == old(ctx.events) + ClearCaches(exts[..j])
      {
        ctx.Emit(ClearCache(exts[j]));
        assert exts[..j + 1][..j] == exts[..j];
        j := j + 1;
      }
      assert exts[..|exts|] == exts;
    }

    /** The page loop, from a reset cursor; `pageLeft` and `pageTop`
        accumulate each page's delta. */
    method DrawPages(ctx: Surface, g: Geometry, stage: Stage, pages: seq<Page>, exts: seq<Extension>)
      requires stage.scale != 0.0
      requires drawLiquid.Pos() == Vec(0.0, 0.0)
      modifies drawLiquid, ctx
      ensures var o := PagesOut(g, stage, pages, exts);
        ctx.events == old(ctx.events) + o.events && drawLiquid.Pos() == o.pos && drawLiquid.stack == old(drawLiquid.stack)
    {
      var pageTop, pageLeft := 0.0, 0.0;
      var i := 0;
      while i < |pages|
        invariant 0 <= i <= |pages|
        invariant var o := PagesOut(g, stage, pages[..i], exts);
          && ctx.events == old(ctx.events) + o.events
          && drawLiquid.Pos() == o.pos && drawLiquid.stack == old(drawLiquid.stack)
          && pageLeft == o.pageLeft && pageTop == o.pageTop
      {
        ghost var before := PagesOut(g, stage, pages[..i], exts);
        var d := DrawPage(ctx, g, stage, i, pages[i], pageLeft, pageTop, exts);
        ghost var last := PageOut(g, stage, i, pages[i], before.pos, before.pageLeft, before.pageTop, exts);
        assert pages[..i + 1][..i] == pages[..i];
        assert PagesOut(g, stage, pages[..i + 1], exts) == PassOut(before.events + last.events, last.pos, last.pageLeft, last.pageTop);
        EventsAssoc(old(ctx.events), before.events, last.events);
        pageLeft := pageLeft + d.x;
        pageTop := pageTop + d.y;
        i := i + 1;
      }
      assert pages[..|pages|] == pages;
    }

    /** Page `k`: notify the observers, rotate, draw the sections, rotate
        back, and move to the next page, returning the move. */
    method DrawPage(ctx: Surface, g: Geometry, stage: Stage, k: nat, page: Page, pageLeft: real, pageTop: real,
                    exts: seq<Extension>) returns (d: Vec)
      requires stage.scale != 0.0
      modifies drawLiquid, ctx
      ensures var o := PageOut(g, stage, k, page, old(drawLiquid.Pos()), pageLeft, pageTop, exts);
        && ctx.events == old(ctx.events) + o.events
        && drawLiquid.Pos() == o.pos && drawLiquid.stack == old(drawLiquid.stack)
        && pageLeft + d.x == o.pageLeft && pageTop + d.y == o.pageTop
    {
      var pf := PageFrameOf(g, stage, page);
      var finalAngle := pf.vertexAngle - pf.centerAngle;
      ghost var head := [Notify(k, pageLeft, pageTop), Rotate(finalAngle)];
      ctx.Emit(Notify(k, pageLeft, pageTop));
      StartRotation(ctx, finalAngle);
      assert ctx.events == old(ctx.events) + head;
      ghost var body := SectionsOut(g, stage, pf, drawLiquid.Pos(), page.sections, exts);
      assert PageOut(g, stage, k, page, drawLiquid.Pos(), pageLeft, pageTop, exts).events == head + body.events + [Rotate(-finalAngle)];
      DrawSections(ctx, g, stage, pf, page.sections, exts);
      ResetRotation(ctx, finalAngle);
      EventsAssoc(old(ctx.events), head, body.events);
      EventsAssoc(old(ctx.events), head + body.events, [Rotate(-finalAngle)]);
      d := drawLiquid.TranslatePage(page, stage.pageLayoutType, stage.pageMarginLeft, stage.pageMarginTop);
    }

    method DrawSections(ctx: Surface, g: Geometry, stage: Stage, pf: PageFrame, sections: seq<Section>, exts: seq<Extension>)
      modifies drawLiquid, ctx
      ensures var o := SectionsOut(g, stage, pf, old(drawLiquid.Pos()), sections, exts);
        ctx.events == old(ctx.events) + o.events && drawLiquid.Pos() == o.pos && drawLiquid.stack == old(drawLiquid.stack)
    {
      ghost var p0 := drawLiquid.Pos();
      var i := 0;
      while i < |sections|
        invariant 0 <= i <= |sections|
        invariant var o := SectionsOut(g, stage, pf, p0, sections[..i], exts);
          ctx.events == old(ctx.events) + o.events && drawLiquid.Pos() == o.pos && drawLiquid.stack == old(drawLiquid.stack)
      {
        ghost var before := SectionsOut(g, stage, pf, p0, sections[..i], exts);
        DrawSection(ctx, g, stage, pf, sections[i], exts);
        ghost var last := SectionOut(g, stage, pf, before.pos, sections[i], exts);
        assert sections[..i + 1][..i] == sections[..i];
        assert SectionsOut(g, stage, pf, p0, sections[..i + 1], exts) == Out(before.events + last.events, last.pos);
        EventsAssoc(old(ctx.events), before.events, last.events);
        i := i + 1;
      }
      assert sections[..|sections|] == sections;
    }

    method DrawSection(ctx: Surface, g: Geometry, stage: Stage, pf: PageFrame, section: Section, exts: seq<Extension>)
      modifies drawLiquid, ctx
      ensures var o := SectionOut(g, stage, pf, old(drawLiquid.Pos()), section, exts);
        ctx.events == old(ctx.events) + o.events && drawLiquid.Pos() == o.pos && drawLiquid.stack == old(drawLiquid.stack)
    {
      drawLiquid.Translate(g.sectionDelta(section));
      DrawColumns(ctx, g, stage, pf, section.columns, exts);
    }

    method DrawColumns(ctx: Surface, g: Geometry, stage: Stage, pf: PageFrame, columns: seq<Column>, exts: seq<Extension>)
      modifies drawLiquid, ctx
      ensures var o := ColumnsOut(g, stage, pf, old(drawLiquid.Pos()), columns, exts);
        ctx.events == old(ctx.events) + o.events && drawLiquid.Pos() == o.pos && drawLiquid.stack == old(drawLiquid.stack)
    {
      ghost var p0 := drawLiquid.Pos();
      var i := 0;
      while i < |columns|
        invariant 0 <= i <= |columns|
        invariant var o := ColumnsOut(g, stage, pf, p0, columns[..i], exts);
          ctx.events == old(ctx.events) + o.events && drawLiquid.Pos() == o.pos && drawLiquid.stack == old(drawLiquid.stack)
      {
        ghost var before := ColumnsOut(g, stage, pf, p0, columns[..i], exts);
        DrawColumn(ctx, g, stage, pf, columns[i], exts);
        ghost var last := ColumnOut(g, stage, pf, before.pos, columns[i], exts);
        assert columns[..i + 1][..i] == columns[..i];
        assert ColumnsOut(g, stage, pf, p0, columns[..i + 1], exts) == Out(before.events + last.events, last.pos);
        EventsAssoc(old(ctx.events), before.events, last.events);
        i := i + 1;
      }
      assert columns[..|columns|] == columns;
    }

    /** A column: move by its delta; for rotated text compute the envelope,
        align it (with the overflow corrections) and move up by its
        `rotateTranslateY`; then draw the lines. */
    method DrawColumn(ctx: Surface, g: Geometry, stage: Stage, pf: PageFrame, column: Column, exts: seq<Extension>)
      modifies drawLiquid, ctx
      ensures var o := ColumnOut(g, stage, pf, old(drawLiquid.Pos()), column, exts);
        ctx.events == old(ctx.events) + o.events && drawLiquid.Pos() == o.pos && drawLiquid.stack == old(drawLiquid.stack)
    {
      var rc := pf.page.renderConfig;
      drawLiquid.Translate(g.columnDelta(column));
      var f: LineFrame;
      if pf.vertexAngle != 0.0 {
        var env := g.rotateOffsetAndFarthestHypotenuse(column.lines, column.width, pf.vertexAngle);
        var alignOffset := RotatedAlign(stage, pf.page, env, pf.vertexAngle, g.fitWidth(stage.height, Abs(pf.vertexAngle)));
        drawLiquid.Translate(Vec(0.0, -env.rotateTranslateY));
        f := LineFrame(alignOffset, Some(env.rotateTranslateXList), pf.centerAngle, pf.vertexAngle, stage.scale, rc);
      } else {
        f := LineFrame(pf.alignOffsetNoAngle, None, pf.centerAngle, pf.vertexAngle, stage.scale, rc);
      }
      assert f == ColumnLineFrame(g, stage, pf, column);
      DrawLines(ctx, g, f, column.lines, exts);
    }

    method DrawLines(ctx: Surface, g: Geometry, f: LineFrame, lines: seq<Line>, exts: seq<Extension>)
      modifies drawLiquid, ctx
      ensures ctx.events == old(ctx.events) + LinesEvents(g, f, old(drawLiquid.Pos()), lines, exts)
      ensures drawLiquid.Pos() == old(drawLiquid.Pos()) && drawLiquid.stack == old(drawLiquid.stack)
    {
      var i := 0;
      while i < |lines|
        invariant 0 <= i <= |lines|
        invariant ctx.events == old(ctx.events) + LinesEvents(g, f, old(drawLiquid.Pos()), lines[..i], exts)
        invariant drawLiquid.Pos() == old(drawLiquid.Pos()) && drawLiquid.stack == old(drawLiquid.stack)
      {
        ghost var before := LinesEvents(g, f, old(drawLiquid.Pos()), lines[..i], exts);
        DrawLine(ctx, g, f, lines[i], i, exts);
        assert lines[..i + 1][..i] == lines[..i];
        assert LinesEvents(g, f, old(drawLiquid.Pos()), lines[..i + 1], exts)
            == before + LineEvents(g, f, old(drawLiquid.Pos()), lines[i], i, exts);
        EventsAssoc(old(ctx.events), before, LineEvents(g, f, old(drawLiquid.Pos()), lines[i], i, exts));
        i := i + 1;
      }
      assert lines[..|lines|] == lines;
    }

    /** Line `i` of a column. A BLOCK line goes to the line extensions; a
        text line is drawn divide by divide between one save and one
        restore, so the cursor ends where it started. */
    method DrawLine(ctx: Surface, g: Geometry, f: LineFrame, line: Line, i: nat, exts: seq<Extension>)
      modifies drawLiquid, ctx
      ensures ctx.events == old(ctx.events) + LineEvents(g, f, old(drawLiquid.Pos()), line, i, exts)
      ensures drawLiquid.Pos() == old(drawLiquid.Pos()) && drawLiquid.stack == old(drawLiquid.stack)
    {
      if line.kind == Block {
        DrawBlockLine(ctx, f, line, exts);
      } else {
        drawLiquid.TranslateSave();
        drawLiquid.Translate(g.lineDelta(line));
        if f.rotateTranslateXList.Some? {
          drawLiquid.Translate(Vec(RotateTranslateX(f, i), 0.0));
        }
        assert drawLiquid.Pos() == LineOrigin(g, f, old(drawLiquid.Pos()), line, i);
        DrawDivides(ctx, g, f, line, line.divides, exts);
        drawLiquid.TranslateRestore();
      }
    }

    /** Hands a BLOCK line to every line extension in turn. */
    method DrawBlockLine(ctx: Surface, f: LineFrame, line: Line, exts: seq<Extension>)
      modifies ctx
      ensures ctx.events == old(ctx.events) + LineExtEvents(exts, line, f.alignOffset, f.renderConfig)
    {
      var j := 0;
      while j < |exts|
        invariant 0 <= j <= |exts|
        invariant ctx.events == old(ctx.events) + LineExtEvents(exts[..j], line, f.alignOffset, f.renderConfig)
      {
        if exts[j].kind == LineExtension {
          ctx.Emit(LineExt(exts[j], line, f.alignOffset, f.renderConfig));
        }
        assert exts[..j + 1][..j] == exts[..j];
        j := j + 1;
      }
      assert exts[..|exts|] == exts;
    }

    method DrawDivides(ctx: Surface, g: Geometry, f: LineFrame, line: Line, divides: seq<Divide>, exts: seq<Extension>)
      modifies drawLiquid, ctx
      ensures ctx.events == old(ctx.events) + DividesEvents(g, f, old(drawLiquid.Pos()), line, divides, exts)
      ensures drawLiquid.Pos() == old(drawLiquid.Pos()) && drawLiquid.stack == old(drawLiquid.stack)
    {
      var k := 0;
      while k < |divides|
        invariant 0 <= k <= |divides|
        invariant ctx.events == old(ctx.events) + DividesEvents(g, f, old(drawLiquid.Pos()), line, divides[..k], exts)
        invariant drawLiquid.Pos() == old(drawLiquid.Pos()) && drawLiquid.stack == old(drawLiquid.stack)
      {
        ghost var before := DividesEvents(g, f, old(drawLiquid.Pos()), line, divides[..k], exts);
        DrawDivide(ctx, g, f, line, divides[k], exts);
        assert divides[..k + 1][..k] == divides[..k];
        assert DividesEvents(g, f, old(drawLiquid.Pos()), line, divides[..k + 1], exts)
            == before + DivideEvents(g, f, old(drawLiquid.Pos()), line, divides[k], exts);
        EventsAssoc(old(ctx.events), before, DivideEvents(g, f, old(drawLiquid.Pos()), line, divides[k], exts));
        k := k + 1;
      }
      assert divides[..|divides|] == divides;
    }

    /** A divide is drawn between a save and a restore of the cursor. */
    method DrawDivide(ctx: Surface, g: Geometry, f: LineFrame, line: Line, divide: Divide, exts: seq<Extension>)
      modifies drawLiquid, ctx
      ensures ctx.events == old(ctx.events) + DivideEvents(g, f, old(drawLiquid.Pos()), line, divide, exts)
      ensures drawLiquid.Pos() == old(drawLiquid.Pos()) && drawLiquid.stack == old(drawLiquid.stack)
    {
      drawLiquid.TranslateSave();
      drawLiquid.Translate(g.divideDelta(divide));
      DrawSpans(ctx, g, f, line, divide.spanGroup, exts);
      drawLiquid.TranslateRestore();
    }

    method DrawSpans(ctx: Surface, g: Geometry, f: LineFrame, line: Line, spans: seq<Span>, exts: seq<Extension>)
      modifies ctx
      ensures ctx.events == old(ctx.events) + SpansEvents(g, f, drawLiquid.Pos(), line, spans, exts)
    {
      var k := 0;
      while k < |spans|
        invariant 0 <= k <= |spans|
        invariant ctx.events == old(ctx.events) + SpansEvents(g, f, drawLiquid.Pos(), line, spans[..k], exts)
      {
        ghost var before := SpansEvents(g, f, drawLiquid.Pos(), line, spans[..k], exts);
        DrawSpan(ctx, g, f, line, spans[k], exts);
        assert spans[..k + 1][..k] == spans[..k];
        assert SpansEvents(g, f, drawLiquid.Pos(), line, spans[..k + 1], exts)
            == before + SpanEvents(g, f, drawLiquid.Pos(), line, spans[k], exts);
        EventsAssoc(old(ctx.events), before, SpanEvents(g, f, drawLiquid.Pos(), line, spans[k], exts));
        k := k + 1;
      }
      assert spans[..|spans|] == spans;
    }

    /** A blank span is skipped; any other span's geometry is computed at
        the cursor and handed to every span extension in turn. */
    method DrawSpan(ctx: Surface, g: Geometry, f: LineFrame, line: Line, span: Span, exts: seq<Extension>)
      modifies ctx
      ensures ctx.events == old(ctx.events) + SpanEvents(g, f, drawLiquid.Pos(), line, span, exts)
    {
      if span.content.None? || |span.content.value| == 0 {
        return;
      }
      var extensionOffset := SpanOffsetAt(g, f, drawLiquid.Pos(), line, span);
      var j := 0;
      while j < |exts|
        invariant 0 <= j <= |exts|
        invariant ctx.events == old(ctx.events) + SpanExtEvents(exts[..j], span, extensionOffset)
      {
        if exts[j].kind == SpanExtension {
          ctx.Emit(SpanExt(exts[j], span, extensionOffset));
        }
        assert exts[..j + 1][..j] == exts[..j];
        j := j + 1;
      }
      assert exts[..|exts|] == exts;
    }
  }
}
