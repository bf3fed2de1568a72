/** The drawing surface the renderers and editors paint on, reduced to what they
    do with it: clear it, and append filled rectangles. Outlines are not
    modelled: the tile renderers draw none, and the legacy clock's boxes are
    outlined in the constant window background. */
module Canvas {
  /** One `create_rectangle(x1, y1, x2, y2, fill=..., outline="", tags=...)` call;
      an untagged rectangle has the empty tag. */
  datatype Rect = Rect(x1: int, y1: int, x2: int, y2: int, fill: string, tag: string)

  class Canvas {
    /** The rectangles on the canvas, in drawing order (later ones on top). */
    var ops: seq<Rect>

    constructor ()
      ensures ops == []
    {
      ops := [];
    }

    /** `canvas.delete("all")`. */
    method Clear()
      modifies this
      ensures ops == []
    {
      ops := [];
    }

    /** `canvas.create_rectangle(...)`: the new rectangle goes on top. */
    method CreateRectangle(r: Rect)
      modifies this
      ensures ops == old(ops) + [r]
    {
      ops := ops + [r];
    }
  }
}
