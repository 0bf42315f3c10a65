/** The read-only layout tree a draw pass walks (pages, sections, columns,
    lines, divides, spans), the extensions it dispatches to, the events a
    pass leaves behind, and the external geometry helpers it relies on. */
module Skeleton {
  import opened Wrappers

  /** A 2-D point or offset. */
  datatype Vec = Vec(x: real, y: real) {
    function Add(o: Vec): Vec { Vec(x + o.x, y + o.y) }
  }

  datatype HorizontalAlign = HorizontalUnspecified | Left | Center | Right | Justified | Both | Distributed
  datatype VerticalAlign = VerticalUnspecified | Top | Middle | Bottom
  datatype WrapStrategy = WrapUnspecified | Overflow | Clip | Wrap
  datatype PageLayoutType = Vertical | Horizontal

  /** BLOCK lines are drawn as a unit by line extensions; every other line
      is text, broken into divides and spans. */
  datatype LineType = Text | Block

  /** A page's render configuration, with the defaults of the destructuring
      in `draw` already filled in (TOP, LEFT, 0, 0, UNSPECIFIED, FALSE). */
  datatype RenderConfig = RenderConfig(
    verticalAlign: VerticalAlign,
    horizontalAlign: HorizontalAlign,
    centerAngleDeg: real,
    vertexAngleDeg: real,
    wrapStrategy: WrapStrategy,
    isRotateNonEastAsian: bool)

  /** A run of text; `content` is None when the run has no content field. */
  datatype Span = Span(content: Option<string>, width: real, left: real, paddingLeft: real)

  datatype Divide = Divide(spanGroup: seq<Span>)

  datatype Line = Line(kind: LineType, asc: real, lineHeight: real, divides: seq<Divide>)

  datatype Column = Column(width: real, lines: seq<Line>)

  datatype Section = Section(columns: seq<Column>)

  /** A laid-out page. `width` and `height` are the size the page is
      aligned by inside the component; `pageWidth` and `pageHeight` are
      the page's own size, by which pages are stacked. */
  datatype Page = Page(
    sections: seq<Section>,
    marginTop: real,
    marginBottom: real,
    marginLeft: real,
    marginRight: real,
    width: real,
    height: real,
    pageWidth: real,
    pageHeight: real,
    renderConfig: RenderConfig)

  datatype SkeletonData = SkeletonData(pages: seq<Page>)

  /** A document skeleton; `data` is None while it has no computed layout. */
  datatype DocumentSkeleton = DocumentSkeleton(data: Option<SkeletonData>)

  datatype ExtensionType = LineExtension | SpanExtension

  /** A registered rendering extension; its drawing is foreign code, so
      only its identity and kind are kept. */
  datatype Extension = Extension(name: string, kind: ExtensionType)

  /** The geometry a span extension receives before it draws a span. */
  datatype SpanOffset = SpanOffset(
    originTranslate: Vec,
    spanStartPoint: Vec,
    spanPointWithFont: Vec,
    centerPoint: Vec,
    alignOffset: Vec,
    renderConfig: RenderConfig)

  /** Everything a draw pass does outside the component, in order: cache
      clears, page notifications, canvas rotations and extension draws. */
  datatype Event =
    | ClearCache(ext: Extension)
    | Notify(pageIndex: nat, pageLeft: real, pageTop: real)
    | Rotate(angle: real)
    | LineExt(ext: Extension, line: Line, alignOffset: Vec, renderConfig: RenderConfig)
    | SpanExt(ext: Extension, span: Span, offset: SpanOffset)

  /** What the rotated-envelope helper returns for a column. */
  datatype Envelope = Envelope(
    rotateTranslateXList: seq<real>,
    rotatedHeight: real,
    rotatedWidth: real,
    fixOffsetX: real,
    fixOffsetY: real,
    rotateTranslateY: real)

  /** The helpers the pass calls but whose code is not part of this model,
      as uninterpreted functions: angle conversion and trigonometry, the
      sub-pixel snap, the two rotation helpers, the width whose rotated
      height fits a given height (height / tan |angle|), and the cursor
      deltas of a section, a column, a line (as the first line) and a
      divide. */
  datatype Geometry = Geometry(
    degToRad: real -> real,
    sin: real -> real,
    cos: real -> real,
    fixLineWidthByScale: (real, real) -> real,
    fitWidth: (real, real) -> real,
    rotateOffsetAndFarthestHypotenuse: (seq<Line>, real, real) -> Envelope,
    calculateRectRotate: (Vec, Vec, real, real, Vec) -> Vec,
    sectionDelta: Section -> Vec,
    columnDelta: Column -> Vec,
    lineDelta: Line -> Vec,
    divideDelta: Divide -> Vec)

  /** The component's own state that a pass reads: its width and height,
      the scale of the drawing surface, and the page layout settings. */
  datatype Stage = Stage(
    width: real,
    height: real,
    scale: real,
    pageLayoutType: PageLayoutType,
    pageMarginLeft: real,
    pageMarginTop: real)

  /** The offset from one page's origin to the next: pages stack downwards
      in the vertical layout and rightwards in the horizontal one, each
      taking its page size (`pageHeight` or `pageWidth`, not the content's
      `height` or `width`) plus the gap between pages. */
  function PageDelta(page: Page, layout: PageLayoutType, marginLeft: real, marginTop: real): (r: Vec)
    ensures layout == Vertical ==> r.x == 0.0
    ensures layout == Horizontal ==> r.y == 0.0
  {
    match layout
    case Vertical => Vec(0.0, page.pageHeight + marginTop)
    case Horizontal => Vec(page.pageWidth + marginLeft, 0.0)
  }

  /** A span draws nothing when its content is missing or empty. */
  predicate IsBlank(span: Span) {
    span.content.None? || |span.content.value| == 0
  }
}
