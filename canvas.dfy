/**
  * The canvas: a fixed-size, row-major grid of colours that is written pixel
  * by pixel in place, read by coordinate, and walked in index order.
  */
module Canvases {
  import opened Wrappers
  import opened Colors

  /** Row-major linear index of the coordinate (x, y) on a canvas `width` wide. */
  function Index(width: nat, x: nat, y: nat): (i: nat)
    ensures x < width ==> width * y <= i < width * (y + 1)
  {
    assert width * (y + 1) == width * y + width;
    x + width * y
  }

  /** The cells after a write at linear index `i`: the cell at `i` becomes
      `c` and every other cell keeps its colour; a write past the end
      changes nothing. */
  function Written(cells: seq<Color>, i: nat, c: Color): (r: seq<Color>)
    ensures |r| == |cells|
    ensures i < |cells| ==> r[i] == c
    ensures forall j :: 0 <= j < |cells| && j != i ==> r[j] == cells[j]
  {
    if i < |cells| then cells[i := c] else cells
  }

  /** A multiple of `w` by a positive factor is at least `w`. */
  lemma MulStep(w: nat, a: nat, b: nat)
    requires a < b
    ensures w * a + w <= w * b
  {
    var d := b - a;
    assert w * b == w * a + w * d;
    assert w * d == w * (d - 1) + w;
  }

  /** Quotient and remainder are unique. */
  lemma DivModUnique(a: nat, w: nat, q: nat, r: nat)
    requires 0 <= r < w && a == w * q + r
    ensures a / w == q && a % w == r
  {
    var q', r' := a / w, a % w;
    assert a == w * q' + r';
    if q' < q {
      MulStep(w, q', q);
    } else if q < q' {
      MulStep(w, q, q');
    }
  }

  /** On a canvas `width` wide a coordinate inside the canvas is recovered
      from its linear index: the index is row-major. */
  lemma IndexRowMajor(width: nat, x: nat, y: nat)
    requires x < width
    ensures Index(width, x, y) % width == x && Index(width, x, y) / width == y
  {
    DivModUnique(Index(width, x, y), width, y, x);
  }

  /** A coordinate inside a `width` by `height` canvas has a linear index
      inside its buffer. */
  lemma IndexInBounds(width: nat, height: nat, x: nat, y: nat)
    requires x < width && y < height
    ensures Index(width, x, y) < width * height
  {
    assert width * y + width == width * (y + 1);
    assert width * (y + 1) <= width * height;
  }

  /** Every buffer index is the linear index of exactly the coordinate
      (i % width, i / width), which lies inside the canvas. */
  lemma IndexCovers(width: nat, height: nat, i: nat)
    requires i < width * height
    ensures 0 < width && i % width < width && i / width < height
    ensures Index(width, i % width, i / width) == i
    ensures forall x: nat, y: nat :: x < width && Index(width, x, y) == i ==> x == i % width && y == i / width
  {
    assert 0 < width;
    forall x: nat, y: nat | x < width && Index(width, x, y) == i
      ensures x == i % width && y == i / width
    {
      IndexRowMajor(width, x, y);
    }
    if i / width >= height {
      if i / width > height {
        MulStep(width, height, i / width);
      }
      assert false;
    }
  }

  /** The bound `write_pixel` checks is on the linear index only: an `x`
      past the right edge lands in a later row. */
  lemma WriteBoundIsLinear(cells: seq<Color>, width: nat, y: nat, c: Color)
    requires Index(width, 0, y + 1) < |cells|
    ensures Written(cells, Index(width, width, y), c) == Written(cells, Index(width, 0, y + 1), c)
    ensures Written(cells, Index(width, width, y), c) != cells || cells[width * (y + 1)] == c
  {
    assert Index(width, width, y) == Index(width, 0, y + 1);
  }

  /** `Canvas`: a `width` by `height` grid stored row-major in `buffer`.
      Width, height and the buffer object are fixed at creation; only the
      buffer's cells change. */
  class Canvas {
    const width: nat
    const height: nat
    const buffer: array<Color>

    ghost predicate Valid() {
      buffer.Length == width * height
    }

    /** The colours in index order. */
    ghost function Cells(): seq<Color>
      reads buffer
    {
      buffer[..]
    }

    /** `Canvas::new`: `width * height` cells, all `color`, or black when no
        colour is given. */
    constructor (width: nat, height: nat, color: Option<Color>)
      ensures Valid()
      ensures this.width == width && this.height == height && fresh(buffer)
      ensures |Cells()| == width * height
      ensures forall i :: 0 <= i < |Cells()| ==> Cells()[i] == (if color.Some? then color.value else Black)
    {
      var fill := if color.Some? then color.value else Black;
      this.width := width;
      this.height := height;
      buffer := new Color[width * height](_ => fill);
    }

    /** `Canvas::len`: the number of cells. */
    function Len(): (n: nat)
      requires Valid()
      ensures n == buffer.Length
    {
      height * width
    }

    /** `Canvas::get_index`: row-major, so a coordinate inside the canvas
        has an index inside the buffer from which it can be recovered. */
    function GetIndex(x: nat, y: nat): (i: nat)
      ensures i == Index(width, x, y)
      ensures x < width ==> i % width == x && i / width == y
      ensures x < width && y < height ==> i < width * height
    {
      if x < width then
        IndexRowMajor(width, x, y);
        if y < height then IndexInBounds(width, height, x, y); Index(width, x, y) else Index(width, x, y)
      else
        Index(width, x, y)
    }

    /** `Canvas::write_pixel`: cell `x + width*y` becomes `color` when that
        index is inside the buffer; otherwise the write is silently dropped. */
    method WritePixel(x: nat, y: nat, color: Color)
      requires Valid()
      modifies buffer
      ensures Cells() == Written(old(Cells()), GetIndex(x, y), color)
    {
      var idx := GetIndex(x, y);
      if idx < buffer.Length {
        buffer[idx] := color;
      }
    }

    /** `Canvas::pixel_at`: the colour of cell `x + width*y`. Indexing the
        buffer out of range panics in the source, so the index must be inside. */
    function PixelAt(x: nat, y: nat): (c: Color)
      requires Valid()
      requires GetIndex(x, y) < Len()
      reads buffer
      ensures c == Cells()[GetIndex(x, y)]
    {
      buffer[GetIndex(x, y)]
    }
  }

  /** `CanvasIter`: a cursor over a canvas's cells in index order. */
  class CanvasIter {
    const inner: Canvas
    var index: nat

    /** `CanvasIter::new` (what `&canvas` iteration starts from). */
    constructor (canvas: Canvas)
      ensures inner == canvas && index == 0
    {
      inner := canvas;
      index := 0;
    }

    /** `Iterator::next`: the cell at the cursor, advancing it; once the
        cursor reaches the end every call returns `None` and changes nothing. */
    method Next() returns (item: Option<Color>)
      requires inner.Valid()
      modifies this
      ensures old(index) < inner.Len() ==> item == Some(inner.Cells()[old(index)]) && index == old(index) + 1
      ensures old(index) >= inner.Len() ==> item == None && index == old(index)
    {
      if index < inner.Len() {
        item := Some(inner.buffer[index]);
        index := index + 1;
      } else {
        item := None;
      }
    }
  }

  /** `for c in &canvas`: iterating a canvas yields every cell exactly once,
      in increasing index (row-major) order, and then stops. */
  method Collect(cv: Canvas) returns (items: seq<Color>)
    requires cv.Valid()
    ensures items == cv.Cells()
  {
    var it := new CanvasIter(cv);
    items := [];
    while true
      invariant it.inner == cv && it.index <= cv.buffer.Length
      invariant items == cv.buffer[..it.index]
      decreases cv.buffer.Length - it.index
    {
      var next := it.Next();
      if next.None? {
        break;
      }
      items := items + [next.value];
    }
  }

  /** The source's `creates_a_canvas` test: a 10 by 20 canvas without a fill
      colour has 200 cells, all black, and iteration visits all of them. */
  method CreatesACanvas() returns (len: nat, items: seq<Color>)
    ensures len == 200 && |items| == 200
    ensures forall i :: 0 <= i < |items| ==> items[i] == Black
  {
    var cv := new Canvas(10, 20, None);
    len := cv.Len();
    items := Collect(cv);
  }

  /** The source's `writes_pixels_to_canvas` test: red written at (2, 3) on a
      10 by 20 canvas is read back at (2, 3); every other cell stays black. */
  method WritesPixelsToCanvas() returns (c: Color, others: seq<Color>)
    ensures c == Color(1.0, 0.0, 0.0)
    ensures |others| == 200
    ensures forall i :: 0 <= i < 200 && i != 32 ==> others[i] == Black
  {
    var cv := new Canvas(10, 20, None);
    var red := Color(1.0, 0.0, 0.0);
    cv.WritePixel(2, 3, red);
    c := cv.PixelAt(2, 3);
    others := Collect(cv);
  }
}
