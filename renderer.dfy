/**
  The Java2D software renderer (`cga.framework.renderer.RendererJ2d`): the
  mapping from logical pixel coordinates (origin at the centre of the
  surface, y pointing up) to screen cells (origin at the top-left corner,
  rows growing downward), and the draw buffer that `putPixel` paints into
  and `show` presents and clears. The window and its buffer strategy are
  abstracted as a map from cells to colours.
 */
module Renderer {
  import opened JavaArith

  /** A point in logical pixel coordinates; both coordinates are doubles. */
  datatype Pixel = Pixel(x: real, y: real)

  /** A screen cell: column counted rightward and row counted downward from the top-left corner. */
  datatype Cell = Cell(col: int, row: int)

  /** Stand-in for the framework's colour wrapper around an AWT colour. */
  datatype Color = Color(red: int, green: int, blue: int)

  const Black: Color := Color(0, 0, 0)

  /** The cell `putPixel` fills for `p`: `(offsetX + (int) p.x, (int) (-p.y) + offsetY)` in Java `int` arithmetic. */
  function ScreenCell(offsetX: Int32, offsetY: Int32, p: Pixel): (c: Cell)
    ensures MinInt32 <= offsetX + DoubleToInt(p.x) <= MaxInt32 ==> c.col - offsetX == DoubleToInt(p.x)
    ensures -(MaxInt32 as real) <= p.y <= MaxInt32 as real && MinInt32 <= offsetY - DoubleToInt(p.y) <= MaxInt32 ==>
              offsetY - c.row == DoubleToInt(p.y)
  {
    var cell := Cell(IntAdd(offsetX, DoubleToInt(p.x)), IntAdd(DoubleToInt(-p.y), offsetY));
    if -(MaxInt32 as real) <= p.y <= MaxInt32 as real then DoubleToIntNegate(p.y); cell else cell
  }

  /** The logical point whose integral coordinates map to cell `c`. */
  function LogicalPoint(offsetX: Int32, offsetY: Int32, c: Cell): Pixel {
    Pixel((c.col - offsetX) as real, (offsetY - c.row) as real)
  }

  /** The logical origin is the cell (offsetX, offsetY). */
  lemma OriginMapsToOffset(offsetX: Int32, offsetY: Int32)
    ensures ScreenCell(offsetX, offsetY, Pixel(0.0, 0.0)) == Cell(offsetX, offsetY)
  {
  }

  /**
    On integral coordinates that do not overflow, logical x = k lands in column
    offsetX + k and logical y = l in row offsetY - l: the vertical axis is flipped.
   */
  lemma IntegralPixelMapping(offsetX: Int32, offsetY: Int32, k: Int32, l: Int32)
    requires l != MinInt32
    requires MinInt32 <= offsetX + k <= MaxInt32 && MinInt32 <= offsetY - l <= MaxInt32
    ensures ScreenCell(offsetX, offsetY, Pixel(k as real, l as real)) == Cell(offsetX + k, offsetY - l)
  {
    DoubleToIntOfInt(k);
    DoubleToIntOfInt(-l);
  }

  /** On integral coordinates the mapping is inverted by `LogicalPoint`, in both directions. */
  lemma ScreenCellRoundTrip(offsetX: Int32, offsetY: Int32, k: Int32, l: Int32)
    requires l != MinInt32
    requires MinInt32 <= offsetX + k <= MaxInt32 && MinInt32 <= offsetY - l <= MaxInt32
    ensures LogicalPoint(offsetX, offsetY, ScreenCell(offsetX, offsetY, Pixel(k as real, l as real)))
         == Pixel(k as real, l as real)
  {
    IntegralPixelMapping(offsetX, offsetY, k, l);
  }

  lemma LogicalPointRoundTrip(offsetX: Int32, offsetY: Int32, c: Cell)
    requires MinInt32 <= c.col <= MaxInt32 && MinInt32 <= c.row <= MaxInt32
    requires MinInt32 <= c.col - offsetX <= MaxInt32 && MinInt32 < offsetY - c.row <= MaxInt32
    ensures ScreenCell(offsetX, offsetY, LogicalPoint(offsetX, offsetY, c)) == c
  {
    IntegralPixelMapping(offsetX, offsetY, c.col - offsetX, offsetY - c.row);
  }

  /**
    The cast truncates toward zero rather than flooring, so every logical point of
    the open square (-1, 1) x (-1, 1) lands in the centre cell: the central column
    and row are each two units wide.
   */
  lemma CentreSquareCollapses(offsetX: Int32, offsetY: Int32, p: Pixel)
    requires -1.0 < p.x < 1.0 && -1.0 < p.y < 1.0
    ensures ScreenCell(offsetX, offsetY, p) == Cell(offsetX, offsetY)
  {
  }

  /** Where nothing overflows, a larger logical x never lands further left. */
  lemma ColumnMonotone(offsetX: Int32, offsetY: Int32, p: Pixel, q: Pixel)
    requires p.x <= q.x
    requires MinInt32 <= offsetX + DoubleToInt(p.x) && offsetX + DoubleToInt(q.x) <= MaxInt32
    ensures ScreenCell(offsetX, offsetY, p).col <= ScreenCell(offsetX, offsetY, q).col
  {
    DoubleToIntMonotone(p.x, q.x);
  }

  /** Where nothing overflows, a larger logical y never lands lower on the screen. */
  lemma RowAntitone(offsetX: Int32, offsetY: Int32, p: Pixel, q: Pixel)
    requires p.y <= q.y
    requires MinInt32 <= DoubleToInt(-q.y) + offsetY && DoubleToInt(-p.y) + offsetY <= MaxInt32
    ensures ScreenCell(offsetX, offsetY, q).row <= ScreenCell(offsetX, offsetY, p).row
  {
    DoubleToIntMonotone(-q.y, -p.y);
  }

  /** Whether cell `c` lies in the `width` x `height` rectangle whose top-left corner is (x, y). */
  predicate InRect(c: Cell, x: int, y: int, width: int, height: int) {
    x <= c.col < x + width && y <= c.row < y + height
  }

  /**
    `fillRect(c.col, c.row, 1, 1)` on a drawing surface of the given size: the one
    cell is painted if it lies on the surface; drawing off the surface is clipped.
   */
  function FillCell(buffer: map<Cell, Color>, c: Cell, color: Color, width: int, height: int): (r: map<Cell, Color>)
    ensures InRect(c, 0, 0, width, height) ==> c in r && r[c] == color
    ensures !InRect(c, 0, 0, width, height) ==> r == buffer
    ensures forall d :: d != c ==> (d in r <==> d in buffer)
    ensures forall d :: d != c && d in r ==> r[d] == buffer[d]
  {
    if InRect(c, 0, 0, width, height) then buffer[c := color] else buffer
  }

  /** `clearRect(x, y, width, height)`: every cell of the rectangle is erased, the rest kept. */
  function ClearRect(buffer: map<Cell, Color>, x: int, y: int, width: int, height: int): (r: map<Cell, Color>)
    ensures forall c :: c in r <==> c in buffer && !InRect(c, x, y, width, height)
    ensures forall c :: c in r ==> r[c] == buffer[c]
  {
    map c | c in buffer && !InRect(c, x, y, width, height) :: buffer[c]
  }

  /** Clearing the whole surface leaves nothing of a buffer drawn on that surface. */
  lemma {:induction false} ClearSurfaceEmpties(buffer: map<Cell, Color>, width: int, height: int)
    requires forall c :: c in buffer ==> InRect(c, 0, 0, width, height)
    ensures ClearRect(buffer, 0, 0, width, height) == map[]
  {
    var r := ClearRect(buffer, 0, 0, width, height);
    assert r.Keys == {};
  }

  class RendererJ2d {
    const width: Int32
    const height: Int32
    const offsetX: Int32
    const offsetY: Int32
    /** The cells drawn since the last `show()`: the back buffer of the buffer strategy. */
    var drawBuffer: map<Cell, Color>
    /** Every frame `show()` has presented so far, oldest first. */
    var presented: seq<map<Cell, Color>>

    /** Everything drawn lies on the surface. */
    ghost predicate Valid()
      reads this
    {
      && offsetX == ShiftRight1(width)
      && offsetY == ShiftRight1(height)
      && forall c :: c in drawBuffer ==> InRect(c, 0, 0, width, height)
    }

    constructor (width: Int32, height: Int32)
      ensures Valid()
      ensures this.width == width && this.height == height
      ensures 2 * offsetX <= width < 2 * offsetX + 2 && 2 * offsetY <= height < 2 * offsetY + 2
      ensures drawBuffer == map[] && presented == []
    {
      this.width := width;
      this.height := height;
      offsetX := ShiftRight1(width);
      offsetY := ShiftRight1(height);
      drawBuffer := map[];
      presented := [];
    }

    /** `putPixel(pixel)`: paints the pixel's cell black. */
    method PutPixel(pixel: Pixel)
      requires Valid()
      modifies this`drawBuffer
      ensures Valid()
      ensures drawBuffer == FillCell(old(drawBuffer), ScreenCell(offsetX, offsetY, pixel), Black, width, height)
    {
      drawBuffer := FillCell(drawBuffer, ScreenCell(offsetX, offsetY, pixel), Black, width, height);
    }

    /** `putPixel(pixel, color)`: paints the same cell as `putPixel(pixel)`, in the given colour. */
    method PutPixelColored(pixel: Pixel, color: Color)
      requires Valid()
      modifies this`drawBuffer
      ensures Valid()
      ensures drawBuffer == FillCell(old(drawBuffer), ScreenCell(offsetX, offsetY, pixel), color, width, height)
    {
      drawBuffer := FillCell(drawBuffer, ScreenCell(offsetX, offsetY, pixel), color, width, height);
    }

    /** `show()`: presents the drawn frame, then clears the whole surface for the next one. */
    method Show()
      requires Valid()
      modifies this`drawBuffer, this`presented
      ensures Valid()
      ensures presented == old(presented) + [old(drawBuffer)]
      ensures drawBuffer == ClearRect(old(drawBuffer), 0, 0, width, height)
      ensures drawBuffer == map[]
    {
      presented := presented + [drawBuffer];
      drawBuffer := ClearRect(drawBuffer, 0, 0, width, height);
      ClearSurfaceEmpties(old(drawBuffer), width, height);
    }
  }

  /**
    On the framework's 800 x 800 window: a pixel plotted at the logical origin is
    presented in the centre cell (400, 400) and is gone from the next frame.
   */
  method PlotAndShow() returns (frame: map<Cell, Color>, next: map<Cell, Color>)
    ensures frame == map[Cell(400, 400) := Black]
    ensures next == map[]
  {
    var r := new RendererJ2d(800, 800);
    r.PutPixel(Pixel(0.0, 0.0));
    r.Show();
    frame := r.presented[0];
    next := r.drawBuffer;
  }
}
