# Document rendering, menu tree and select-all: a Dafny model

This project models three pieces of a spreadsheet and document editor and
proves properties of them.

The main piece is the document component's draw pass. `Documents.draw`
walks a document skeleton (pages, sections, columns, lines, divides,
spans) with a cursor (`Liquid`). Before each page it computes where the
page is aligned inside the component. It then announces the page to its
observers at the page's accumulated origin and rotates the canvas by the
page's final angle. Next it hands every BLOCK line to the line extensions
and every non-empty span to the span extensions, rotates back, and moves
the cursor on to the next page.

The model keeps the component as a class (`Render.Documents`) and the
cursor as a class (`Cursor.Liquid`) whose fields the methods update. What
the pass does to the canvas, the page observers and the extensions is
recorded on a `Render.Surface` as a trace of events: `ClearCache`,
`Notify`, `Rotate`, `LineExt` and `SpanExt`. Each draw method is proved to
append exactly the events of a pure specification in `DrawTrace`, and to
leave the cursor where that specification says. The properties of the
pass are then proved about that specification:

- cache clearing comes first;
- each page is notified exactly once, at the sum of the previous pages' deltas;
- each page sits between a rotation and its inverse;
- blank spans reach no extension;
- each kind of unit reaches only its kind of extension, in registration order;
- every save of the cursor is matched by a restore.

`Alignment` holds the alignment handlers and the overflow corrections used
for rotated text.

The two smaller pieces:

- `MenuTree.BuildMenuTree`, the recursive construction of the context-menu
  tree from a flat list of items that name their parent.
- `SelectAll.SelectAllHandler`, the "select all" operation of the document
  editor, over a selection service class.

Files: `wrappers.dfy` (Option), `skeleton.dfy` (the layout tree, events and
geometry helpers), `alignment.dfy`, `trace.dfy` (the pass as functions,
with its lemmas), `liquid.dfy` (the cursor), `documents.dfy` (the
component), `menu_tree.dfy` and `select_all.dfy`.

## Model

| member | source | states |
|---|---|---|
| Alignment.HorizontalOffset | packages/base-render/src/components/docs/document.ts:441-457 | CENTER leaves equal gaps on both sides of the content inside the component's own width; RIGHT ends the content `padRight` before the right edge; every other alignment starts at `padLeft` |
| Alignment.VerticalOffset | packages/base-render/src/components/docs/document.ts:459-474 | MIDDLE leaves equal gaps above and below inside the component's own height; BOTTOM ends the content `padBottom` above the bottom edge; every other alignment starts at `padTop` |
| Alignment.NoAngleAlign | packages/base-render/src/components/docs/document.ts:227-239 | computes the no-angle offset: both handlers on the page's size and margins times the scale, divided by the scale; no ensures of its own, its meaning is stated by `NoAngleAlignIsUnscaled` |
| Alignment.NoAngleAlignIsUnscaled | packages/base-render/src/components/docs/document.ts:227-239 | the no-angle offset, computed on page sizes and paddings multiplied by the scale and then divided by it, equals both handlers applied to the unscaled page inside a component of width/scale by height/scale |
| Alignment.NoAngleAlignXIsUnscaled | packages/base-render/src/components/docs/document.ts:227-232 | the horizontal half of the above, case by case on the alignment |
| Alignment.NoAngleAlignYIsUnscaled | packages/base-render/src/components/docs/document.ts:233-239 | the vertical half of the above, case by case on the alignment |
| Alignment.ExceedWidthFix | packages/base-render/src/components/docs/document.ts:279-284 | the aligned width is either the rotated width or the clipped width; it is clipped exactly when the rotated height exceeds the component's height, the strategy is not WRAP, and the strategy is OVERFLOW or the angle is positive |
| Alignment.ExceedHeightFix | packages/base-render/src/components/docs/document.ts:301-308 | a fitting column keeps the aligned offset minus `fixOffsetY`; a column that is too tall has its bottom put on the component's bottom edge for a negative angle and its top put at 0 otherwise |
| Alignment.RotatedAlign | packages/base-render/src/components/docs/document.ts:279-309 | computes the offset of a rotated column: the horizontal handler on the `ExceedWidthFix` width plus `fixOffsetX`, and the vertical handler on the rotated height corrected by `ExceedHeightFix`; no ensures of its own, the cases are stated by those two functions |
| Alignment.AlignmentExamples | packages/base-render/src/components/docs/document.ts:441-474 | concrete LEFT/CENTER/RIGHT and TOP/MIDDLE/BOTTOM offsets for one component and one content size |
| Render.NumberOr | packages/base-render/src/components/docs/document.ts:100-102 | JavaScript's `value || fallback` on an optional number: a present non-zero value is returned, a missing value or 0 yields the fallback, so the result is 0 only when the fallback is |
| Render.ResolveConfig | packages/base-render/src/components/docs/document.ts:99-107 | with no configuration the settings are margins 17 and 14, VERTICAL and no cache; a missing or 0 margin falls back to its default and a non-zero one is kept, so a stored margin is never 0; a given layout is kept (assuming, as the model does, that no layout value is falsy); caching is on exactly when `allowCache` is true |
| Render.Documents.SetConfig | packages/base-render/src/components/docs/document.ts:99-107 | the component's settings become `ResolveConfig(config)`; size and extensions are untouched |
| Render.Documents.constructor | packages/base-render/src/components/docs/document.ts:75-89 | the settings are resolved from the configuration, the default extensions are registered, and the draw cursor is fresh at the origin with nothing saved |
| Render.Documents.StartRotation | packages/base-render/src/components/docs/document.ts:476-478 | the canvas receives one rotation by the angle |
| Render.Documents.ResetRotation | packages/base-render/src/components/docs/document.ts:480-482 | the canvas receives one rotation by the negated angle |
| Render.Documents.Draw | packages/base-render/src/components/docs/document.ts:176-428 | the surface receives exactly `DrawEvents`; without a skeleton the cursor is untouched; with one it is reset, ends with an empty save stack, and stays at the origin when there is no skeleton data |
| Render.Documents.ClearExtensionCaches | packages/base-render/src/components/docs/document.ts:196-200 | one cache clear per extension, in registration order |
| Render.Documents.DrawPages | packages/base-render/src/components/docs/document.ts:203-427 | starting from a reset cursor and origin (0, 0), the pages' events are appended in page order, and the running page origin accumulates each page's delta |
| Render.Documents.DrawPage | packages/base-render/src/components/docs/document.ts:206-426 | page k appends a notification at the current origin, the rotation, its sections' events and the inverse rotation, then moves the cursor by the page delta it returns |
| Render.Documents.DrawSections | packages/base-render/src/components/docs/document.ts:256-259 | the sections' events in order, each section starting where the previous one left the cursor |
| Render.Documents.DrawSection | packages/base-render/src/components/docs/document.ts:256-264 | the cursor moves by the section delta and the section's columns are drawn from there |
| Render.Documents.DrawColumns | packages/base-render/src/components/docs/document.ts:261-264 | the columns' events in order, each column starting where the previous one left the cursor |
| Render.Documents.DrawColumn | packages/base-render/src/components/docs/document.ts:261-316 | the cursor moves by the column delta and, for rotated text, up by the envelope's `rotateTranslateY`; the lines are drawn with the alignment the page's vertex angle selects |
| Render.Documents.DrawLines | packages/base-render/src/components/docs/document.ts:318-413 | the lines' events in order; the cursor's position and save stack are the same after the lines as before |
| Render.Documents.DrawLine | packages/base-render/src/components/docs/document.ts:318-413 | a BLOCK line reaches the line extensions; a text line is drawn from the line origin between one save and one restore, so position and stack are restored and the restore never meets an empty stack |
| Render.Documents.DrawBlockLine | packages/base-render/src/components/docs/document.ts:333-342 | each line extension, in order, receives the line with the column's alignment offset and render config |
| Render.Documents.DrawDivides | packages/base-render/src/components/docs/document.ts:350-410 | the divides' events in order, each from the line origin; position and stack are unchanged afterwards |
| Render.Documents.DrawDivide | packages/base-render/src/components/docs/document.ts:351-409 | a divide is drawn after moving by its delta, between one save and one restore |
| Render.Documents.DrawSpans | packages/base-render/src/components/docs/document.ts:356-408 | the spans' events in order, all computed at the same cursor position |
| Render.Documents.DrawSpan | packages/base-render/src/components/docs/document.ts:357-407 | a blank span is skipped; any other span reaches each span extension in order with the geometry computed at the cursor |
| Cursor.Liquid.Reset | packages/base-render/src/components/docs/document.ts:186 | the cursor is at the origin with nothing saved |
| Cursor.Liquid.Translate | packages/base-render/src/components/docs/document.ts:259-264 | the cursor moves by the delta; the save stack is unchanged |
| Cursor.Liquid.TranslateSave | packages/base-render/src/components/docs/document.ts:344-353 | the current position is pushed; the position is unchanged |
| Cursor.Liquid.TranslateRestore | packages/base-render/src/components/docs/document.ts:409-411 | requires a saved position; the cursor returns to the last saved position, which is popped |
| Cursor.Liquid.TranslatePage | packages/base-render/src/components/docs/document.ts:419-424 | the cursor moves by `PageDelta` and returns that move; the stack is unchanged |
| Skeleton.PageDelta | packages/base-render/src/components/docs/document.ts:419-424 | the move from one page's origin to the next: along y only in the vertical layout, along x only in the horizontal one; its size (page height plus top gap, page width plus left gap) is an assumption, see Left out |
| DrawTrace.PageFrameOf | packages/base-render/src/components/docs/document.ts:207-245 | computes a page's two angles in radians, its final angle (vertex minus center) and its no-angle alignment; no ensures of its own, used by `PageIsBracketed` and `ColumnFrameCases` |
| DrawTrace.ColumnLineFrame | packages/base-render/src/components/docs/document.ts:268-316 | computes what a column's lines are drawn with; no ensures of its own, its two branches are stated by `ColumnFrameCases` |
| DrawTrace.SpanOffsetAt | packages/base-render/src/components/docs/document.ts:361-400 | computes the geometry a span extension receives (origin, start point, point with font, center, alignment offset, render config); no ensures of its own, it is the offset carried by every span draw in `SpanDispatch` |
| DrawTrace.SpanDispatch | packages/base-render/src/components/docs/document.ts:357-407 | a blank span produces no event; any other span produces one draw per span extension, in registration order, each with the same geometry |
| DrawTrace.SpanExtEventsAreFiltered | packages/base-render/src/components/docs/document.ts:402-407 | the span draws are exactly the span extensions, in order |
| DrawTrace.LineDispatch | packages/base-render/src/components/docs/document.ts:333-342 | a BLOCK line produces one draw per line extension, in registration order, each with the column's alignment offset |
| DrawTrace.LinesDispatched | packages/base-render/src/components/docs/document.ts:318-413 | every event of a column's lines is a line extension drawing a BLOCK line or a span extension drawing a non-blank span |
| DrawTrace.SectionsDispatched | packages/base-render/src/components/docs/document.ts:256-413 | the same for a page's sections: inside a page only extension draws happen, each to the right kind |
| DrawTrace.PageIsBracketed | packages/base-render/src/components/docs/document.ts:245-254 | a page's events start with its notification and a rotation by vertex minus center angle, and end with the inverse rotation; everything between is an extension draw; a page without sections emits just those three |
| DrawTrace.PageIsNotifiedOnce | packages/base-render/src/components/docs/document.ts:247-252 | a page's own events hold exactly one notification, its own |
| DrawTrace.PageOriginIsSumOfDeltas | packages/base-render/src/components/docs/document.ts:419-426 | the running page origin after a run of pages is the sum of their page deltas |
| DrawTrace.PagesAreNotifiedAtTheirOrigin | packages/base-render/src/components/docs/document.ts:203-252 | a pass notifies exactly once per page, in page order, and page k at the sum of the deltas of pages 0 to k-1 |
| DrawTrace.FirstEventIsFirstNotification | packages/base-render/src/components/docs/document.ts:203-252 | with at least one page, the pages' first event is page 0's notification at (0, 0) |
| DrawTrace.PagesRotateNothing | packages/base-render/src/components/docs/document.ts:254-417 | over the pages the rotations add up to 0 |
| DrawTrace.DrawRotatesNothing | packages/base-render/src/components/docs/document.ts:176-428 | over a whole pass the canvas ends up rotated by 0, whatever the skeleton |
| DrawTrace.NoDataDrawsNothing | packages/base-render/src/components/docs/document.ts:176-192 | without a skeleton or without skeleton data a pass emits nothing |
| DrawTrace.ClearCachesInOrder | packages/base-render/src/components/docs/document.ts:198-200 | the cache clears are one per extension, in registration order |
| DrawTrace.PagesClearNoCache | packages/base-render/src/components/docs/document.ts:206-427 | no page clears a cache |
| DrawTrace.ClearCacheComesFirst | packages/base-render/src/components/docs/document.ts:196-252 | with skeleton data, every cache is cleared in order before anything else and never again, and the first page's notification at (0, 0) comes right after |
| DrawTrace.ColumnFrameCases | packages/base-render/src/components/docs/document.ts:269-316 | unrotated text uses the page's no-angle alignment, is not moved up and shifts no line; rotated text uses the rotated alignment of the envelope, moves up by `rotateTranslateY` and shifts line i by entry i of the list |
| MenuTree.BuildMenuTree | packages/ui-plugin-sheets/src/Controller/menu.ts:690-704 | one node per item whose parent is the given id (None at the top), in input order, each carrying its item unchanged |
| MenuTree.BuildLevel | packages/ui-plugin-sheets/src/Controller/menu.ts:693-701 | the nodes contributed by the first n items are the children among them, in order |
| MenuTree.LevelSubMenu | packages/ui-plugin-sheets/src/Controller/menu.ts:695-698 | node k of a level holds as sub-menu the tree built under its own id |
| MenuTree.SubMenusAreTrees | packages/ui-plugin-sheets/src/Controller/menu.ts:695-698 | every node's `subMenuItems` is `BuildMenuTree(items, node.id)` |
| MenuTree.ChildrenMembership | packages/ui-plugin-sheets/src/Controller/menu.ts:693-694 | an item is at a level exactly when it is in the list and names that level's id as parent |
| MenuTree.ChildrenCount | packages/ui-plugin-sheets/src/Controller/menu.ts:693-701 | a level has as many nodes as there are positions in the list whose item names that parent |
| MenuTree.RankedHasNoShortCycles | packages/ui-plugin-sheets/src/Controller/menu.ts:694-697 | the acyclicity the recursion needs excludes an item that is its own parent and two items that are each other's parent |
| SelectAll.WholeBodyRange | packages/docs/src/commands/operations/select-all.operation.ts:24-30 | the range starts at 0, ends two UTF-16 code units before the end of the data stream and is not collapsed |
| SelectAll.WholeBodyRangeCovers | packages/docs/src/commands/operations/select-all.operation.ts:27 | a stream of at least two code units is covered whole except its last two; a shorter stream gives an end before the start, since the end is not clamped, and covers nothing |
| SelectAll.WholeBodyRangeCountsCodeUnits | packages/docs/src/commands/operations/select-all.operation.ts:27 | offsets count UTF-16 code units, as `dataStream.length` does: a body of four characters, one of them outside the Basic Multilingual Plane, is five units long and its range ends at 3 |
| SelectAll.TextSelectionManagerService.ReplaceTextRanges | packages/docs/src/commands/operations/select-all.operation.ts:32 | the service holds exactly the given ranges, and the call is recorded |
| SelectAll.SelectAllHandler | packages/docs/src/commands/operations/select-all.operation.ts:14-35 | succeeds exactly when there is a body; without one the service is not called; with one the selection is exactly the whole-body range, set by a single replacement |

## Left out

- The geometry helpers `degToRad`, `Math.sin`, `Math.cos`, `fixLineWidthByScale`, `calculateRectRotate` and `getRotateOffsetAndFarthestHypotenuse` are parameters of the pass (fields of `Geometry`). Nothing numeric is proved about them.
- The cursor moves of a section, a column, a line and a divide (`translateSection`, `translateColumn`, `translateLine`, `translateDivide`) are `Geometry` functions too. The source of `Liquid` is not part of this model: `Cursor.Liquid` models its save and restore as a push and a pop, and `translatePage` as the move by `PageDelta`.
- Skeleton.PageDelta: the page advance is assumed, not taken from code, because `Liquid.translatePage` is not part of this model. It stacks pages by their page size `pageHeight` plus `pageMarginTop` (vertical) or `pageWidth` plus `pageMarginLeft` (horizontal), as the commented-out stacking code at document.ts:501-513 does. The sum-of-deltas lemmas hold for any delta.
- `this.height / Math.tan(Math.abs(vertexAngle))` is the helper `fitWidth(height, |angle|)`, because a tangent that may be 0 cannot be divided by here.
- `getScale(parentScale)` is the `scale` argument of `Draw`, which requires it to be non-zero; the source divides by it without a check.
- Render.Documents.Draw: the skeleton is an argument rather than the one stored by the base class, and `width`, `height` and the extension registry are fields whose setters live in the base class, which is not part of this model; the constructor starts `width` and `height` at 0, a default of that base class which the component itself never sets.
- The extension registry's order (`getExtensionsByOrder`) is taken as the order of the `extensions` field. The extensions' own `draw` and `clearCache` bodies are foreign code. A `LineExt` or `SpanExt` event records the extension, the line or span, and the offset set just before the call. It does not record the canvas context `ctx` or the `parentScale` that `draw` also receives (document.ts:340, 405).
- `Vector2.addByPoint` (document.ts:372, 383) is taken to return a new vector and leave `originTranslate` unchanged, so both points are computed from the same origin. vector2.ts is not part of this model.
- `extension.extensionOffset` assignments are recorded as the offset carried by each `LineExt` or `SpanExt` event.
- Every foreign call is assumed to return normally: the extensions' `draw` and `clearCache`, the page observers, `ctx.rotate` and the geometry helpers. `draw` has no try/finally around a page (document.ts:254-417), so in the source a throw inside a page leaves the canvas rotated by `finalAngle` and the cursor's save stack non-empty. DrawTrace.DrawRotatesNothing and the stack-balance contracts of the draw methods hold only under this assumption.
- The `renderConfig` in `LineExt` and `SpanExt` events is the page's render configuration with the destructuring defaults filled in. The source hands extensions the raw `renderConfig` object (document.ts:216, 338, 399), which is `{}` when the page has none and may lack fields.
- DrawTrace.RotateTranslateX: a line with no entry in the rotated shift list is shifted by 0. The source calls `translate(rotateTranslateXListApply[i])` with a single, possibly undefined, argument (document.ts:347); this gives a move of (x, 0) only if `Liquid.translate` defaults both coordinates to 0, and Liquid is not part of this model.
- The canvas itself is reduced to the `Rotate` events it receives. Floating-point rounding and NaN are not modelled (numbers are reals), so `textAngle || 0` is the angle itself.
- Render.ResolveConfig: `config?.pageLayoutType || PageLayoutType.VERTICAL` keeps a given layout only if its value is truthy. The enum's values are not part of this model, so the model assumes that `HORIZONTAL` is not 0 and keeps every given layout.
- The `bounds` argument of `draw` is unused by the source and left out.
- `getOffsetConfig`, `changeSkeleton`, `_findLiquid`, `makeDirty`, `onPageRenderObservable`'s subscribers and the commented-out code in document.ts are not modelled.
- MenuTree.BuildMenuTree: requires a rank that orders the whole parent relation (an acyclic parent relation among all items). The source only needs the part reachable from the given parent to be acyclic; on a cycle it does not terminate.
- The menu-item factories in menu.ts are UI wiring (observables, permissions, icons and titles) and are not modelled; a menu item keeps only `id`, `parentId` and `title`.
- SelectAll.SelectAllHandler: the async handler and its service lookups are reduced to the current document's body, given as an argument. The selection service is not part of this model beyond recording what it is asked to replace.
