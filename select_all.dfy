/** The "select all" operation of the document editor: it replaces the
    text selection with one range over the whole body of the current
    document, or does nothing when the document has no body. */
module SelectAll {
  import opened Wrappers

  /** A text range as offsets into the body's data stream. */
  datatype TextRange = TextRange(startOffset: int, endOffset: int, collapsed: bool)

  /** A UTF-16 code unit. The data stream is a JavaScript string, a
      sequence of code units, and its `length` and offsets count units,
      not characters. */
  newtype CodeUnit = u: int | 0 <= u < 0x10000

  /** The body of a document snapshot; its data stream is the text. */
  datatype DocumentBody = DocumentBody(dataStream: seq<CodeUnit>)

  /** The UTF-16 units of one character: one for a character of the Basic
      Multilingual Plane, a surrogate pair for any other. */
  function CharUnits(c: char): (r: seq<CodeUnit>)
    ensures |r| == if c as int < 0x10000 then 1 else 2
    ensures |r| == 2 ==> 0xD800 <= r[0] < 0xDC00 <= r[1] < 0xE000
  {
    var v := c as int;
    if v < 0x10000 then [v as CodeUnit]
    else
      var w := v - 0x10000;
      [(0xD800 + w / 0x400) as CodeUnit, (0xDC00 + w % 0x400) as CodeUnit]
  }

  /** The number of characters of `s` outside the Basic Multilingual
      Plane. */
  function AstralCount(s: string): nat
  {
    if s == [] then 0
    else AstralCount(s[..|s| - 1]) + (if s[|s| - 1] as int >= 0x10000 then 1 else 0)
  }

  /** The UTF-16 encoding of a text: one unit per character plus one more
      for each character outside the Basic Multilingual Plane. */
  function Utf16(s: string): (r: seq<CodeUnit>)
    ensures |r| == |s| + AstralCount(s)
  {
    if s == [] then [] else Utf16(s[..|s| - 1]) + CharUnits(s[|s| - 1])
  }

  /** The selection of the whole body: from offset 0 to two code units
      before the end of the data stream, not collapsed. */
  function WholeBodyRange(body: DocumentBody): (r: TextRange)
    ensures r.startOffset == 0 && !r.collapsed
    ensures r.endOffset + 2 == |body.dataStream|
  {
    TextRange(0, |body.dataStream| - 2, false)
  }

  /** The units a range covers; an inverted range covers nothing. */
  function Covered(s: seq<CodeUnit>, r: TextRange): seq<CodeUnit>
  {
    if 0 <= r.startOffset <= r.endOffset <= |s| then s[r.startOffset..r.endOffset] else []
  }

  /** A stream of two or more units is selected whole except for its last
      two units; a shorter one yields a range whose end lies before its
      start (the end offset is not clamped), which covers nothing. */
  lemma WholeBodyRangeCovers(body: DocumentBody)
    ensures var s, r := body.dataStream, WholeBodyRange(body);
      && (|s| >= 2 ==> Covered(s, r) + s[|s| - 2..] == s)
      && (|s| < 2 <==> r.endOffset < r.startOffset)
      && (|s| < 2 ==> Covered(s, r) == [])
  {
    var s := body.dataStream;
    if |s| >= 2 {
      assert s[..|s| - 2] + s[|s| - 2..] == s;
    }
  }

  /** Offsets count code units: a character outside the Basic
      Multilingual Plane takes two, so a body of "a", the emoji U+1F600,
      CR and LF is four characters but five units long, and its range
      ends at offset 3. */
  lemma WholeBodyRangeCountsCodeUnits()
    ensures var text := "a\U{1F600}\r\n";
      && |text| == 4
      && |Utf16(text)| == 5
      && WholeBodyRange(DocumentBody(Utf16(text))).endOffset == 3
  {
    var text := "a\U{1F600}\r\n";
    assert text[..3] == "a\U{1F600}\r";
    assert text[..2] == "a\U{1F600}";
    assert text[..1] == "a";
    assert "a"[..0] == [];
    assert |Utf16(text[..1])| == 1;
    assert text[..2][..1] == text[..1];
    assert |Utf16(text[..2])| == 3;
    assert text[..3][..2] == text[..2];
    assert |Utf16(text[..3])| == 4;
  }

  /** The text selection service, reduced to the ranges it holds and the
      replacements it has been asked to make. */
  class TextSelectionManagerService {
    var ranges: seq<TextRange>
    /** Every argument `ReplaceTextRanges` was called with, in order. */
    var replacements: seq<seq<TextRange>>

    constructor ()
      ensures ranges == [] && replacements == []
    {
      ranges, replacements := [], [];
    }

    method ReplaceTextRanges(textRanges: seq<TextRange>)
      modifies this
      ensures ranges == textRanges
      ensures replacements == old(replacements) + [textRanges]
    {
      ranges := textRanges;
      replacements := replacements + [textRanges];
    }
  }

  /** The operation's handler, given the current document's body. Without
      a body it reports failure and the selection service is not called;
      with one, the selection becomes exactly the whole-body range, after
      a single replacement, and the handler reports success. */
  method SelectAllHandler(body: Option<DocumentBody>, service: TextSelectionManagerService) returns (ok: bool)
    modifies service
    ensures ok <==> body.Some?
    ensures !ok ==> service.ranges == old(service.ranges) && service.replacements == old(service.replacements)
    ensures ok ==> service.ranges == [WholeBodyRange(body.value)]
    ensures ok ==> service.replacements == old(service.replacements) + [[WholeBodyRange(body.value)]]
  {
    if body.None? {
      return false;
    }
    var textRanges := [WholeBodyRange(body.value)];
    service.ReplaceTextRanges(textRanges);
    return true;
  }
}
