/** The cursor a draw pass threads through the layout tree: an (x, y)
    position plus a stack of saved positions. */
module Cursor {
  import opened Skeleton

  class Liquid {
    var x: real
    var y: real
    var stack: seq<Vec>

    function Pos(): Vec
      reads this
    {
      Vec(x, y)
    }

    constructor ()
      ensures Pos() == Vec(0.0, 0.0) && stack == []
    {
      x, y, stack := 0.0, 0.0, [];
    }

    /** Back to the origin with nothing saved. */
    method Reset()
      modifies this
      ensures Pos() == Vec(0.0, 0.0) && stack == []
    {
      x, y, stack := 0.0, 0.0, [];
    }

    method Translate(d: Vec)
      modifies this
      ensures Pos() == old(Pos()).Add(d) && stack == old(stack)
    {
      x, y := x + d.x, y + d.y;
    }

    /** Pushes the current position. */
    method TranslateSave()
      modifies this
      ensures Pos() == old(Pos()) && stack == old(stack) + [old(Pos())]
    {
      stack := stack + [Vec(x, y)];
    }

    /** Pops the last saved position and moves back to it; restoring with
        nothing saved is a programming error. */
    method TranslateRestore()
      requires stack != []
      modifies this
      ensures Pos() == old(stack[|stack| - 1]) && stack == old(stack[..|stack| - 1])
    {
      var top := stack[|stack| - 1];
      x, y := top.x, top.y;
      stack := stack[..|stack| - 1];
    }

    /** Moves to the next page's origin and returns the move. */
    method TranslatePage(page: Page, layout: PageLayoutType, marginLeft: real, marginTop: real) returns (d: Vec)
      modifies this
      ensures d == PageDelta(page, layout, marginLeft, marginTop)
      ensures Pos() == old(Pos()).Add(d) && stack == old(stack)
    {
      d := PageDelta(page, layout, marginLeft, marginTop);
      x, y := x + d.x, y + d.y;
    }
  }
}
