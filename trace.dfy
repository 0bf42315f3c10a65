/** What one draw pass of the document component emits, as pure functions
    of the skeleton, the registered extensions and the component's state,
    and what that event trace guarantees: caches are cleared first, each
    page is announced once at its accumulated origin and bracketed by a
    rotation and its inverse, blank spans reach nobody, and each kind of
    unit reaches only its kind of extension, in registration order.

    Sequences are consumed from their end (`s[..|s| - 1]`, then the last
    element), the order in which a loop that has done `s[..j]` extends
    its work by `s[j]`. */
module DrawTrace {
  import opened Wrappers
  import opened Skeleton
  import opened Alignment

  /** The per-page values `draw` computes before walking the page. */
  datatype PageFrame = PageFrame(
    page: Page,
    centerAngle: real,
    vertexAngle: real,
    finalAngle: real,
    alignOffsetNoAngle: Vec)

  function PageFrameOf(g: Geometry, stage: Stage, page: Page): PageFrame
    requires stage.scale != 0.0
  {
    var centerAngle := g.degToRad(page.renderConfig.centerAngleDeg);
    var vertexAngle := g.degToRad(page.renderConfig.vertexAngleDeg);
    PageFrame(page, centerAngle, vertexAngle, vertexAngle - centerAngle, NoAngleAlign(stage, page))
  }

  /** What the lines of one column are drawn with: the alignment offset,
      the per-line horizontal shifts of rotated text (None when the text
      is not rotated), the two angles, the scale and the render config. */
  datatype LineFrame = LineFrame(
    alignOffset: Vec,
    rotateTranslateXList: Option<seq<real>>,
    centerAngle: real,
    vertexAngle: real,
    scale: real,
    renderConfig: RenderConfig)

  function Abs(a: real): real { if a < 0.0 then -a else a }

  /** The envelope of a column of rotated text. */
  function EnvelopeOf(g: Geometry, pf: PageFrame, column: Column): Envelope
  {
    g.rotateOffsetAndFarthestHypotenuse(column.lines, column.width, pf.vertexAngle)
  }

  function ColumnLineFrame(g: Geometry, stage: Stage, pf: PageFrame, column: Column): LineFrame
  {
    var rc := pf.page.renderConfig;
    if pf.vertexAngle != 0.0 then
      var env := EnvelopeOf(g, pf, column);
      var fit := g.fitWidth(stage.height, Abs(pf.vertexAngle));
      LineFrame(RotatedAlign(stage, pf.page, env, pf.vertexAngle, fit), Some(env.rotateTranslateXList),
                pf.centerAngle, pf.vertexAngle, stage.scale, rc)
    else
      LineFrame(pf.alignOffsetNoAngle, None, pf.centerAngle, pf.vertexAngle, stage.scale, rc)
  }

  /** The horizontal shift of line `i` of a column of rotated text; a list
      too short for the line shifts it by nothing. */
  function RotateTranslateX(f: LineFrame, i: nat): real
  {
    match f.rotateTranslateXList
    case None => 0.0
    case Some(list) => if i < |list| then list[i] else 0.0
  }

  /** The cursor position a text line's divides start from. */
  function LineOrigin(g: Geometry, f: LineFrame, pos: Vec, line: Line, i: nat): Vec
  {
    var p := pos.Add(g.lineDelta(line));
    if f.rotateTranslateXList.Some? then p.Add(Vec(RotateTranslateX(f, i), 0.0)) else p
  }

  /** The geometry handed to span extensions for a span drawn with the
      cursor at `pos`. */
  function SpanOffsetAt(g: Geometry, f: LineFrame, pos: Vec, line: Line, span: Span): SpanOffset
  {
    var s := f.scale;
    var fix := g.fixLineWidthByScale;
    var originTranslate := Vec(fix(pos.x, s), fix(pos.y, s));
    var centerPoint := Vec(fix(span.width / 2.0, s), fix(line.lineHeight / 2.0, s));
    var maxLineAscSin := line.asc * g.sin(f.centerAngle);
    var maxLineAscCos := line.asc * g.cos(f.centerAngle);
    var spanStartPoint := g.calculateRectRotate(
      originTranslate.Add(Vec(fix(span.left + span.paddingLeft, s), 0.0)),
      centerPoint, f.centerAngle, f.vertexAngle, f.alignOffset);
    var spanPointWithFont := g.calculateRectRotate(
      originTranslate.Add(Vec(fix(span.left + maxLineAscSin + span.paddingLeft, s), fix(maxLineAscCos, s))),
      centerPoint, f.centerAngle, f.vertexAngle, f.alignOffset);
    SpanOffset(originTranslate, spanStartPoint, spanPointWithFont, centerPoint, f.alignOffset, f.renderConfig)
  }

  /** The extensions of one kind, in registration order. */
  function OfKind(exts: seq<Extension>, kind: ExtensionType): seq<Extension>
  {
    if exts == [] then []
    else OfKind(exts[..|exts| - 1], kind) + (if exts[|exts| - 1].kind == kind then [exts[|exts| - 1]] else [])
  }

  /** The span-extension draws for one span, visiting every extension. */
  function SpanExtEvents(exts: seq<Extension>, span: Span, off: SpanOffset): seq<Event>
  {
    if exts == [] then []
    else
      var e := exts[|exts| - 1];
      SpanExtEvents(exts[..|exts| - 1], span, off) + (if e.kind == SpanExtension then [SpanExt(e, span, off)] else [])
  }

  /** The line-extension draws for one BLOCK line, visiting every extension. */
  function LineExtEvents(exts: seq<Extension>, line: Line, align: Vec, rc: RenderConfig): seq<Event>
  {
    if exts == [] then []
    else
      var e := exts[|exts| - 1];
      LineExtEvents(exts[..|exts| - 1], line, align, rc) + (if e.kind == LineExtension then [LineExt(e, line, align, rc)] else [])
  }

  function SpanEvents(g: Geometry, f: LineFrame, pos: Vec, line: Line, span: Span, exts: seq<Extension>): seq<Event>
  {
    if IsBlank(span) then [] else SpanExtEvents(exts, span, SpanOffsetAt(g, f, pos, line, span))
  }

  /** The spans of one divide, all drawn from the same cursor position. */
  function SpansEvents(g: Geometry, f: LineFrame, pos: Vec, line: Line, spans: seq<Span>, exts: seq<Extension>): seq<Event>
  {
    if spans == [] then []
    else SpansEvents(g, f, pos, line, spans[..|spans| - 1], exts) + SpanEvents(g, f, pos, line, spans[|spans| - 1], exts)
  }

  function DivideEvents(g: Geometry, f: LineFrame, pos: Vec, line: Line, divide: Divide, exts: seq<Extension>): seq<Event>
  {
    SpansEvents(g, f, pos.Add(g.divideDelta(divide)), line, divide.spanGroup, exts)
  }

  /** The divides of one line; each starts from the line's position, since
      the cursor is restored after every divide. */
  function DividesEvents(g: Geometry, f: LineFrame, pos: Vec, line: Line, divides: seq<Divide>, exts: seq<Extension>): seq<Event>
  {
    if divides == [] then []
    else DividesEvents(g, f, pos, line, divides[..|divides| - 1], exts) + DivideEvents(g, f, pos, line, divides[|divides| - 1], exts)
  }

  /** Line `i` of a column: a BLOCK line goes to the line extensions, any
      other line is drawn divide by divide. */
  function LineEvents(g: Geometry, f: LineFrame, pos: Vec, line: Line, i: nat, exts: seq<Extension>): seq<Event>
  {
    if line.kind == Block then LineExtEvents(exts, line, f.alignOffset, f.renderConfig)
    else DividesEvents(g, f, LineOrigin(g, f, pos, line, i), line, line.divides, exts)
  }

  /** The lines of one column; each starts from the same position, since
      the cursor is restored after every text line. */
  function LinesEvents(g: Geometry, f: LineFrame, pos: Vec, lines: seq<Line>, exts: seq<Extension>): seq<Event>
  {
    if lines == [] then []
    else LinesEvents(g, f, pos, lines[..|lines| - 1], exts) + LineEvents(g, f, pos, lines[|lines| - 1], |lines| - 1, exts)
  }

  /** Events emitted so far and the cursor position reached. */
  datatype Out = Out(events: seq<Event>, pos: Vec)

  /** A column moves the cursor by its own delta and, for rotated text,
      up by the envelope's `rotateTranslateY`; the cursor stays there. */
  function ColumnOut(g: Geometry, stage: Stage, pf: PageFrame, pos: Vec, column: Column, exts: seq<Extension>): Out
  {
    var p1 := pos.Add(g.columnDelta(column));
    var p2 := if pf.vertexAngle != 0.0 then p1.Add(Vec(0.0, -EnvelopeOf(g, pf, column).rotateTranslateY)) else p1;
    Out(LinesEvents(g, ColumnLineFrame(g, stage, pf, column), p2, column.lines, exts), p2)
  }

  function ColumnsOut(g: Geometry, stage: Stage, pf: PageFrame, pos: Vec, columns: seq<Column>, exts: seq<Extension>): Out
  {
    if columns == [] then Out([], pos)
    else
      var before := ColumnsOut(g, stage, pf, pos, columns[..|columns| - 1], exts);
      var last := ColumnOut(g, stage, pf, before.pos, columns[|columns| - 1], exts);
      Out(before.events + last.events, last.pos)
  }

  function SectionOut(g: Geometry, stage: Stage, pf: PageFrame, pos: Vec, section: Section, exts: seq<Extension>): Out
  {
    ColumnsOut(g, stage, pf, pos.Add(g.sectionDelta(section)), section.columns, exts)
  }

  function SectionsOut(g: Geometry, stage: Stage, pf: PageFrame, pos: Vec, sections: seq<Section>, exts: seq<Extension>): Out
  {
    if sections == [] then Out([], pos)
    else
      var before := SectionsOut(g, stage, pf, pos, sections[..|sections| - 1], exts);
      var last := SectionOut(g, stage, pf, before.pos, sections[|sections| - 1], exts);
      Out(before.events + last.events, last.pos)
  }

  /** Events emitted so far, the cursor position, and the accumulated
      origin of the next page. */
  datatype PassOut = PassOut(events: seq<Event>, pos: Vec, pageLeft: real, pageTop: real)

  function PageDeltaOf(stage: Stage, page: Page): Vec
  {
    PageDelta(page, stage.pageLayoutType, stage.pageMarginLeft, stage.pageMarginTop)
  }

  /** Page `k`: announced at (`left`, `top`), drawn between a rotation by
      its final angle and the inverse rotation; the cursor and the page
      origin then advance by the page's delta. */
  function PageOut(g: Geometry, stage: Stage, k: nat, page: Page, pos: Vec, left: real, top: real,
                   exts: seq<Extension>): PassOut
    requires stage.scale != 0.0
  {
    var pf := PageFrameOf(g, stage, page);
    var body := SectionsOut(g, stage, pf, pos, page.sections, exts);
    var d := PageDeltaOf(stage, page);
    PassOut([Notify(k, left, top), Rotate(pf.finalAngle)] + body.events + [Rotate(-pf.finalAngle)],
            body.pos.Add(d), left + d.x, top + d.y)
  }

  /** The pages of a pass, starting from a reset cursor and origin (0, 0). */
  function PagesOut(g: Geometry, stage: Stage, pages: seq<Page>, exts: seq<Extension>): PassOut
    requires stage.scale != 0.0
  {
    if pages == [] then PassOut([], Vec(0.0, 0.0), 0.0, 0.0)
    else
      var before := PagesOut(g, stage, pages[..|pages| - 1], exts);
      var last := PageOut(g, stage, |pages| - 1, pages[|pages| - 1], before.pos, before.pageLeft, before.pageTop, exts);
      PassOut(before.events + last.events, last.pos, last.pageLeft, last.pageTop)
  }

  function ClearCaches(exts: seq<Extension>): seq<Event>
  {
    if exts == [] then [] else ClearCaches(exts[..|exts| - 1]) + [ClearCache(exts[|exts| - 1])]
  }

  /** The whole pass: nothing without a skeleton or without skeleton data;
      otherwise every cache cleared, then the pages. */
  function DrawEvents(g: Geometry, stage: Stage, skeleton: Option<DocumentSkeleton>, exts: seq<Extension>): seq<Event>
    requires stage.scale != 0.0
  {
    match skeleton
    case None => []
    case Some(sk) =>
      match sk.data
      case None => []
      case Some(data) => ClearCaches(exts) + PagesOut(g, stage, data.pages, exts).events
  }

  /** How a column is drawn depends on the page's vertex angle alone.
      Unrotated text uses the page's no-angle alignment, stays where the
      column delta puts it and shifts no line sideways; rotated text uses
      the rotated alignment of the column's envelope, moves up by the
      envelope's `rotateTranslateY`, and shifts line `i` by entry `i` of
      the envelope's list. */
  lemma ColumnFrameCases(g: Geometry, stage: Stage, pf: PageFrame, column: Column, pos: Vec, line: Line, i: nat,
                         exts: seq<Extension>)
    ensures var f := ColumnLineFrame(g, stage, pf, column);
      var p1 := pos.Add(g.columnDelta(column));
      && (pf.vertexAngle == 0.0 ==>
            && f.alignOffset == pf.alignOffsetNoAngle
            && ColumnOut(g, stage, pf, pos, column, exts).pos == p1
            && LineOrigin(g, f, pos, line, i) == pos.Add(g.lineDelta(line)))
      && (pf.vertexAngle != 0.0 ==>
            var env := EnvelopeOf(g, pf, column);
            && f.alignOffset == RotatedAlign(stage, pf.page, env, pf.vertexAngle, g.fitWidth(stage.height, Abs(pf.vertexAngle)))
            && ColumnOut(g, stage, pf, pos, column, exts).pos == p1.Add(Vec(0.0, -env.rotateTranslateY))
            && (i < |env.rotateTranslateXList| ==>
                  LineOrigin(g, f, pos, line, i) == pos.Add(g.lineDelta(line)).Add(Vec(env.rotateTranslateXList[i], 0.0))))
  {
  }

  /** Concatenation is associative; stated once so that extending a trace
      by one more unit is a rewrite rather than a fresh extensionality
      argument. */
  lemma EventsAssoc(a: seq<Event>, b: seq<Event>, c: seq<Event>)
    ensures (a + b) + c == a + (b + c)
  {
  }

  // ---------------------------------------------------------------------
  // Dispatch: only extension draws happen inside a page, each to the
  // right kind of extension.

  /** A BLOCK line drawn by a line extension, or a non-blank span drawn by
      a span extension. */
  predicate Dispatched(e: Event)
  {
    match e
    case LineExt(x, line, _, _) => x.kind == LineExtension && line.kind == Block
    case SpanExt(x, span, _) => x.kind == SpanExtension && !IsBlank(span)
    case _ => false
  }

  predicate AllDispatched(es: seq<Event>)
  {
    forall i :: 0 <= i < |es| ==> Dispatched(es[i])
  }

  lemma DispatchedConcat(a: seq<Event>, b: seq<Event>)
    requires AllDispatched(a) && AllDispatched(b)
    ensures AllDispatched(a + b)
  {
    forall i | 0 <= i < |a + b| ensures Dispatched((a + b)[i]) {
      if i < |a| { assert (a + b)[i] == a[i]; } else { assert (a + b)[i] == b[i - |a|]; }
    }
  }

  /** A blank span reaches no extension; any other span reaches exactly
      the span extensions, in registration order, each with the same
      geometry. */
  lemma {:induction false} SpanDispatch(g: Geometry, f: LineFrame, pos: Vec, line: Line, span: Span, exts: seq<Extension>)
    ensures IsBlank(span) ==> SpanEvents(g, f, pos, line, span, exts) == []
    ensures !IsBlank(span) ==>
      var es := SpanEvents(g, f, pos, line, span, exts);
      var xs := OfKind(exts, SpanExtension);
      |es| == |xs| && forall i :: 0 <= i < |es| ==> es[i] == SpanExt(xs[i], span, SpanOffsetAt(g, f, pos, line, span))
  {
    if !IsBlank(span) {
      SpanExtEventsAreFiltered(exts, span, SpanOffsetAt(g, f, pos, line, span));
    }
  }

  lemma {:induction false} SpanExtEventsAreFiltered(exts: seq<Extension>, span: Span, off: SpanOffset)
    ensures var es := SpanExtEvents(exts, span, off);
      var xs := OfKind(exts, SpanExtension);
      |es| == |xs| && forall i :: 0 <= i < |es| ==> es[i] == SpanExt(xs[i], span, off)
  {
    if exts != [] {
      SpanExtEventsAreFiltered(exts[..|exts| - 1], span, off);
    }
  }

  /** A BLOCK line reaches exactly the line extensions, in registration
      order, each with the column's alignment offset. */
  lemma {:induction false} LineDispatch(exts: seq<Extension>, line: Line, align: Vec, rc: RenderConfig)
    ensures var es := LineExtEvents(exts, line, align, rc);
      var xs := OfKind(exts, LineExtension);
      |es| == |xs| && forall i :: 0 <= i < |es| ==> es[i] == LineExt(xs[i], line, align, rc)
  {
    if exts != [] {
      LineDispatch(exts[..|exts| - 1], line, align, rc);
    }
  }

  lemma {:induction false} SpanExtEventsDispatched(exts: seq<Extension>, span: Span, off: SpanOffset)
    requires !IsBlank(span)
    ensures AllDispatched(SpanExtEvents(exts, span, off))
  {
    if exts != [] {
      SpanExtEventsDispatched(exts[..|exts| - 1], span, off);
      var e := exts[|exts| - 1];
      DispatchedConcat(SpanExtEvents(exts[..|exts| - 1], span, off),
                       if e.kind == SpanExtension then [SpanExt(e, span, off)] else []);
    }
  }

  lemma {:induction false} LineExtEventsDispatched(exts: seq<Extension>, line: Line, align: Vec, rc: RenderConfig)
    requires line.kind == Block
    ensures AllDispatched(LineExtEvents(exts, line, align, rc))
  {
    if exts != [] {
      LineExtEventsDispatched(exts[..|exts| - 1], line, align, rc);
      var e := exts[|exts| - 1];
      DispatchedConcat(LineExtEvents(exts[..|exts| - 1], line, align, rc),
                       if e.kind == LineExtension then [LineExt(e, line, align, rc)] else []);
    }
  }

  lemma {:induction false} SpansDispatched(g: Geometry, f: LineFrame, pos: Vec, line: Line, spans: seq<Span>, exts: seq<Extension>)
    ensures AllDispatched(SpansEvents(g, f, pos, line, spans, exts))
  {
    if spans != [] {
      var span := spans[|spans| - 1];
      SpansDispatched(g, f, pos, line, spans[..|spans| - 1], exts);
      if !IsBlank(span) {
        SpanExtEventsDispatched(exts, span, SpanOffsetAt(g, f, pos, line, span));
      }
      DispatchedConcat(SpansEvents(g, f, pos, line, spans[..|spans| - 1], exts), SpanEvents(g, f, pos, line, span, exts));
    }
  }

  lemma {:induction false} DividesDispatched(g: Geometry, f: LineFrame, pos: Vec, line: Line, divides: seq<Divide>, exts: seq<Extension>)
    ensures AllDispatched(DividesEvents(g, f, pos, line, divides, exts))
  {
    if divides != [] {
      var d := divides[|divides| - 1];
      DividesDispatched(g, f, pos, line, divides[..|divides| - 1], exts);
      SpansDispatched(g, f, pos.Add(g.divideDelta(d)), line, d.spanGroup, exts);
      DispatchedConcat(DividesEvents(g, f, pos, line, divides[..|divides| - 1], exts), DivideEvents(g, f, pos, line, d, exts));
    }
  }

  lemma {:induction false} LinesDispatched(g: Geometry, f: LineFrame, pos: Vec, lines: seq<Line>, exts: seq<Extension>)
    ensures AllDispatched(LinesEvents(g, f, pos, lines, exts))
  {
    if lines != [] {
      var n := |lines| - 1;
      var line := lines[n];
      LinesDispatched(g, f, pos, lines[..n], exts);
      if line.kind == Block {
        LineExtEventsDispatched(exts, line, f.alignOffset, f.renderConfig);
      } else {
        DividesDispatched(g, f, LineOrigin(g, f, pos, line, n), line, line.divides, exts);
      }
      DispatchedConcat(LinesEvents(g, f, pos, lines[..n], exts), LineEvents(g, f, pos, line, n, exts));
    }
  }

  lemma {:induction false} ColumnsDispatched(g: Geometry, stage: Stage, pf: PageFrame, pos: Vec, columns: seq<Column>, exts: seq<Extension>)
    ensures AllDispatched(ColumnsOut(g, stage, pf, pos, columns, exts).events)
  {
    if columns != [] {
      var before := ColumnsOut(g, stage, pf, pos, columns[..|columns| - 1], exts);
      var column := columns[|columns| - 1];
      ColumnsDispatched(g, stage, pf, pos, columns[..|columns| - 1], exts);
      var o := ColumnOut(g, stage, pf, before.pos, column, exts);
      LinesDispatched(g, ColumnLineFrame(g, stage, pf, column), o.pos, column.lines, exts);
      DispatchedConcat(before.events, o.events);
    }
  }

  lemma {:induction false} SectionsDispatched(g: Geometry, stage: Stage, pf: PageFrame, pos: Vec, sections: seq<Section>, exts: seq<Extension>)
    ensures AllDispatched(SectionsOut(g, stage, pf, pos, sections, exts).events)
  {
    if sections != [] {
      var before := SectionsOut(g, stage, pf, pos, sections[..|sections| - 1], exts);
      var section := sections[|sections| - 1];
      SectionsDispatched(g, stage, pf, pos, sections[..|sections| - 1], exts);
      ColumnsDispatched(g, stage, pf, before.pos.Add(g.sectionDelta(section)), section.columns, exts);
      DispatchedConcat(before.events, SectionOut(g, stage, pf, before.pos, section, exts).events);
    }
  }

  /** Each page is announced exactly once, at its origin, and its content,
      which holds nothing but extension draws, sits between a rotation by
      the page's final angle (vertex angle minus center angle) and the
      inverse rotation; a page without sections still gets the bracket. */
  lemma PageIsBracketed(g: Geometry, stage: Stage, k: nat, page: Page, pos: Vec, left: real, top: real, exts: seq<Extension>)
    requires stage.scale != 0.0
    ensures var es := PageOut(g, stage, k, page, pos, left, top, exts).events;
      var pf := PageFrameOf(g, stage, page);
      && |es| >= 3
      && es[0] == Notify(k, left, top)
      && es[1] == Rotate(pf.vertexAngle - pf.centerAngle)
      && es[|es| - 1] == Rotate(-(pf.vertexAngle - pf.centerAngle))
      && AllDispatched(es[2..|es| - 1])
      && (page.sections == [] ==> |es| == 3)
  {
    var pf := PageFrameOf(g, stage, page);
    var body := SectionsOut(g, stage, pf, pos, page.sections, exts);
    SectionsDispatched(g, stage, pf, pos, page.sections, exts);
    var es := PageOut(g, stage, k, page, pos, left, top, exts).events;
    assert es[2..|es| - 1] == body.events;
  }

  // ---------------------------------------------------------------------
  // Page notifications and the accumulated page origin.

  /** The sum of the page deltas of `pages`: the origin of the page after
      them. */
  function SumDelta(stage: Stage, pages: seq<Page>): Vec
  {
    if pages == [] then Vec(0.0, 0.0)
    else SumDelta(stage, pages[..|pages| - 1]).Add(PageDeltaOf(stage, pages[|pages| - 1]))
  }

  /** The page notifications of a trace, in order. */
  function Notifications(es: seq<Event>): seq<Event>
  {
    if es == [] then []
    else Notifications(es[..|es| - 1]) + (if es[|es| - 1].Notify? then [es[|es| - 1]] else [])
  }

  lemma {:induction false} NotificationsConcat(a: seq<Event>, b: seq<Event>)
    ensures Notifications(a + b) == Notifications(a) + Notifications(b)
  {
    if b != [] {
      assert (a + b)[..|a + b| - 1] == a + b[..|b| - 1];
      NotificationsConcat(a, b[..|b| - 1]);
    } else {
      assert a + b == a;
    }
  }

  lemma {:induction false} NoNotificationsWhenDispatched(es: seq<Event>)
    requires AllDispatched(es)
    ensures Notifications(es) == []
  {
    if es != [] {
      assert Dispatched(es[|es| - 1]);
      NoNotificationsWhenDispatched(es[..|es| - 1]);
    }
  }

  /** The page origin after a run of pages is the sum of their deltas. */
  lemma {:induction false} PageOriginIsSumOfDeltas(g: Geometry, stage: Stage, pages: seq<Page>, exts: seq<Extension>)
    requires stage.scale != 0.0
    ensures PagesOut(g, stage, pages, exts).pageLeft == SumDelta(stage, pages).x
    ensures PagesOut(g, stage, pages, exts).pageTop == SumDelta(stage, pages).y
  {
    if pages != [] {
      PageOriginIsSumOfDeltas(g, stage, pages[..|pages| - 1], exts);
    }
  }

  /** A pass over `pages` notifies exactly once per page, in page order,
      and page `k` at the sum of the deltas of pages 0 to k - 1 (the first
      page at (0, 0)). */
  lemma {:induction false} PagesAreNotifiedAtTheirOrigin(g: Geometry, stage: Stage, pages: seq<Page>, exts: seq<Extension>)
    requires stage.scale != 0.0
    ensures var ns := Notifications(PagesOut(g, stage, pages, exts).events);
      && |ns| == |pages|
      && forall k :: 0 <= k < |pages| ==>
           ns[k] == Notify(k, SumDelta(stage, pages[..k]).x, SumDelta(stage, pages[..k]).y)
  {
    if pages != [] {
      var n := |pages| - 1;
      var init := pages[..n];
      var before := PagesOut(g, stage, init, exts);
      var last := PageOut(g, stage, n, pages[n], before.pos, before.pageLeft, before.pageTop, exts);
      PagesAreNotifiedAtTheirOrigin(g, stage, init, exts);
      PageOriginIsSumOfDeltas(g, stage, init, exts);
      PageIsNotifiedOnce(g, stage, n, pages[n], before.pos, before.pageLeft, before.pageTop, exts);
      NotificationsConcat(before.events, last.events);
      var ns := Notifications(PagesOut(g, stage, pages, exts).events);
      var nb := Notifications(before.events);
      assert ns == nb + [Notify(n, before.pageLeft, before.pageTop)];
      forall k | 0 <= k < |pages|
        ensures ns[k] == Notify(k, SumDelta(stage, pages[..k]).x, SumDelta(stage, pages[..k]).y)
      {
        if k < n {
          assert init[..k] == pages[..k];
          assert ns[k] == nb[k];
        } else {
          assert pages[..k] == init;
        }
      }
    }
  }

  /** A page's own events hold exactly one notification, its own. */
  lemma PageIsNotifiedOnce(g: Geometry, stage: Stage, k: nat, page: Page, pos: Vec, left: real, top: real, exts: seq<Extension>)
    requires stage.scale != 0.0
    ensures Notifications(PageOut(g, stage, k, page, pos, left, top, exts).events) == [Notify(k, left, top)]
  {
    var pf := PageFrameOf(g, stage, page);
    var body := SectionsOut(g, stage, pf, pos, page.sections, exts);
    SectionsDispatched(g, stage, pf, pos, page.sections, exts);
    NoNotificationsWhenDispatched(body.events);
    var head := [Notify(k, left, top), Rotate(pf.finalAngle)];
    var tail := [Rotate(-pf.finalAngle)];
    NotificationsConcat(head + body.events, tail);
    NotificationsConcat(head, body.events);
    assert Notifications(head) == [Notify(k, left, top)] by {
      assert head[..1] == [Notify(k, left, top)];
      assert [Notify(k, left, top)][..0] == [];
    }
    assert Notifications(tail) == [] by { assert tail[..0] == []; }
  }

  // ---------------------------------------------------------------------
  // Rotations.

  /** The total angle the canvas is rotated by over a trace. */
  function NetRotation(es: seq<Event>): real
  {
    if es == [] then 0.0
    else NetRotation(es[..|es| - 1]) + (if es[|es| - 1].Rotate? then es[|es| - 1].angle else 0.0)
  }

  lemma {:induction false} NetRotationConcat(a: seq<Event>, b: seq<Event>)
    ensures NetRotation(a + b) == NetRotation(a) + NetRotation(b)
  {
    if b != [] {
      assert (a + b)[..|a + b| - 1] == a + b[..|b| - 1];
      NetRotationConcat(a, b[..|b| - 1]);
    } else {
      assert a + b == a;
    }
  }

  lemma {:induction false} NoRotationWhenDispatched(es: seq<Event>)
    requires AllDispatched(es)
    ensures NetRotation(es) == 0.0
  {
    if es != [] {
      assert Dispatched(es[|es| - 1]);
      NoRotationWhenDispatched(es[..|es| - 1]);
    }
  }

  lemma {:induction false} ClearCachesRotateNothing(exts: seq<Extension>)
    ensures NetRotation(ClearCaches(exts)) == 0.0
    ensures Notifications(ClearCaches(exts)) == []
  {
    if exts != [] {
      ClearCachesRotateNothing(exts[..|exts| - 1]);
      NetRotationConcat(ClearCaches(exts[..|exts| - 1]), [ClearCache(exts[|exts| - 1])]);
      NotificationsConcat(ClearCaches(exts[..|exts| - 1]), [ClearCache(exts[|exts| - 1])]);
      assert [ClearCache(exts[|exts| - 1])][..0] == [];
    }
  }

  /** Every rotation of the pages is undone: over a pass the canvas ends
      up rotated by nothing. */
  lemma {:induction false} PagesRotateNothing(g: Geometry, stage: Stage, pages: seq<Page>, exts: seq<Extension>)
    requires stage.scale != 0.0
    ensures NetRotation(PagesOut(g, stage, pages, exts).events) == 0.0
  {
    if pages != [] {
      var n := |pages| - 1;
      var before := PagesOut(g, stage, pages[..n], exts);
      PagesRotateNothing(g, stage, pages[..n], exts);
      var pf := PageFrameOf(g, stage, pages[n]);
      var body := SectionsOut(g, stage, pf, before.pos, pages[n].sections, exts);
      SectionsDispatched(g, stage, pf, before.pos, pages[n].sections, exts);
      NoRotationWhenDispatched(body.events);
      var head := [Notify(n, before.pageLeft, before.pageTop), Rotate(pf.finalAngle)];
      var tail := [Rotate(-pf.finalAngle)];
      var last := PageOut(g, stage, n, pages[n], before.pos, before.pageLeft, before.pageTop, exts);
      NetRotationConcat(head + body.events, tail);
      NetRotationConcat(head, body.events);
      assert head[..1] == [Notify(n, before.pageLeft, before.pageTop)];
      assert [Notify(n, before.pageLeft, before.pageTop)][..0] == [];
      assert tail[..0] == [];
      NetRotationConcat(before.events, last.events);
    }
  }

  /** The canvas is left unrotated by a whole pass, whatever the skeleton. */
  lemma DrawRotatesNothing(g: Geometry, stage: Stage, skeleton: Option<DocumentSkeleton>, exts: seq<Extension>)
    requires stage.scale != 0.0
    ensures NetRotation(DrawEvents(g, stage, skeleton, exts)) == 0.0
  {
    if skeleton.Some? && skeleton.value.data.Some? {
      var pages := skeleton.value.data.value.pages;
      ClearCachesRotateNothing(exts);
      PagesRotateNothing(g, stage, pages, exts);
      NetRotationConcat(ClearCaches(exts), PagesOut(g, stage, pages, exts).events);
    }
  }

  /** Without a skeleton, or without skeleton data, a pass emits nothing. */
  lemma NoDataDrawsNothing(g: Geometry, stage: Stage, skeleton: Option<DocumentSkeleton>, exts: seq<Extension>)
    requires stage.scale != 0.0
    requires skeleton.None? || skeleton.value.data.None?
    ensures DrawEvents(g, stage, skeleton, exts) == []
  {
  }

  // ---------------------------------------------------------------------
  // Cache clearing.

  lemma {:induction false} ClearCachesInOrder(exts: seq<Extension>)
    ensures |ClearCaches(exts)| == |exts|
    ensures forall i :: 0 <= i < |exts| ==> ClearCaches(exts)[i] == ClearCache(exts[i])
  {
    if exts != [] {
      ClearCachesInOrder(exts[..|exts| - 1]);
    }
  }

  lemma {:induction false} PagesClearNoCache(g: Geometry, stage: Stage, pages: seq<Page>, exts: seq<Extension>)
    requires stage.scale != 0.0
    ensures forall i :: 0 <= i < |PagesOut(g, stage, pages, exts).events| ==> !PagesOut(g, stage, pages, exts).events[i].ClearCache?
  {
    if pages != [] {
      var n := |pages| - 1;
      var before := PagesOut(g, stage, pages[..n], exts);
      PagesClearNoCache(g, stage, pages[..n], exts);
      var last := PageOut(g, stage, n, pages[n], before.pos, before.pageLeft, before.pageTop, exts);
      PageIsBracketed(g, stage, n, pages[n], before.pos, before.pageLeft, before.pageTop, exts);
      var es := before.events + last.events;
      forall i | 0 <= i < |es| ensures !es[i].ClearCache? {
        if i >= |before.events| {
          var j := i - |before.events|;
          assert es[i] == last.events[j];
          if 2 <= j < |last.events| - 1 {
            assert last.events[j] == last.events[2..|last.events| - 1][j - 2];
          }
        }
      }
    }
  }

  /** With skeleton data, every extension's cache is cleared, in
      registration order, before anything else happens, and never again
      during the pass; the first page's notification, at (0, 0), comes
      right after. */
  lemma ClearCacheComesFirst(g: Geometry, stage: Stage, sk: DocumentSkeleton, exts: seq<Extension>)
    requires stage.scale != 0.0
    requires sk.data.Some?
    ensures var es := DrawEvents(g, stage, Some(sk), exts);
      && |es| >= |exts|
      && (forall i :: 0 <= i < |exts| ==> es[i] == ClearCache(exts[i]))
      && (forall i :: |exts| <= i < |es| ==> !es[i].ClearCache?)
      && (sk.data.value.pages != [] ==> |es| > |exts| && es[|exts|] == Notify(0, 0.0, 0.0))
  {
    var pages := sk.data.value.pages;
    var es := DrawEvents(g, stage, Some(sk), exts);
    var rest := PagesOut(g, stage, pages, exts).events;
    ClearCachesInOrder(exts);
    PagesClearNoCache(g, stage, pages, exts);
    assert es == ClearCaches(exts) + rest;
    forall i | |exts| <= i < |es| ensures !es[i].ClearCache? {
      assert es[i] == rest[i - |exts|];
    }
    if pages != [] {
      PagesAreNotifiedAtTheirOrigin(g, stage, pages, exts);
      FirstEventIsFirstNotification(g, stage, pages, exts);
      assert es[|exts|] == rest[0];
    }
  }

  lemma {:induction false} FirstEventIsFirstNotification(g: Geometry, stage: Stage, pages: seq<Page>, exts: seq<Extension>)
    requires stage.scale != 0.0
    requires pages != []
    ensures |PagesOut(g, stage, pages, exts).events| > 0
    ensures PagesOut(g, stage, pages, exts).events[0] == Notify(0, 0.0, 0.0)
  {
    var n := |pages| - 1;
    var before := PagesOut(g, stage, pages[..n], exts);
    PageIsBracketed(g, stage, n, pages[n], before.pos, before.pageLeft, before.pageTop, exts);
    if n > 0 {
      FirstEventIsFirstNotification(g, stage, pages[..n], exts);
    }
  }
}
