/** `src/line_drawer.rs`: a line between two pixels, drawn one pixel per column after
    the line has been made shallow (steep lines are transposed) and its endpoints
    ordered left to right. */
module Lines {
  import opened Base
  import opened Raster
  import Numeric

  /** `lerp`: `start + (end − start) · t`, rounded half away from zero, cast to `u32`. */
  function Lerp(start: U32, end: U32, t: real): U32 {
    Numeric.SaturateU32(Numeric.RoundHalfAwayFromZero(Interpolate(start, end, t)))
  }

  /** The unrounded `start + (end − start) · t`. */
  function Interpolate(start: U32, end: U32, t: real): real {
    start as real + Numeric.Scale(end as real - start as real, t)
  }

  lemma LerpAtEnds(start: U32, end: U32)
    ensures Lerp(start, end, 0.0) == start
    ensures Lerp(start, end, 1.0) == end
  {
    Numeric.RoundOfInteger(start);
    Numeric.RoundOfInteger(end);
  }

  /** For t in [0, 1] the result lies between the two ends. */
  lemma {:induction false} LerpBetween(start: U32, end: U32, t: real)
    requires 0.0 <= t <= 1.0
    ensures Min(start, end) <= Lerp(start, end, t) <= Max(start, end)
  {
    Numeric.ScaleBounds(end as real - start as real, t);
    Numeric.RoundBetween(Interpolate(start, end, t), Min(start, end), Max(start, end));
  }

  /** The state of a `LineDrawer` apart from its colour and buffer. */
  datatype Line = Line(start: Point2<U32>, end: Point2<U32>, isSteep: bool)

  function Transpose(p: Point2<U32>): Point2<U32> {
    Point2(p.y, p.x)
  }

  /** `make_line_shallow`: when the line rises more than it runs, start becomes the
      transposed end and end the transposed start, and the line is marked steep. */
  function Shallow(l: Line): Line {
    if AbsDiff(l.start.y, l.end.y) > AbsDiff(l.start.x, l.end.x) then
      Line(Transpose(l.end), Transpose(l.start), true)
    else
      l
  }

  /** `order_points`: start is the left one. */
  function Ordered(l: Line): Line {
    if l.start.x > l.end.x then Line(l.end, l.start, l.isSteep) else l
  }

  /** The line `LineDrawer::new(p, q, ..)` sets up. */
  function Canonical(p: Point2<U32>, q: Point2<U32>): Line {
    Ordered(Shallow(Line(p, q, false)))
  }

  /** After `new` the line runs left to right, rises at most as much as it runs, is
      steep exactly when the original rose more than it ran, and its endpoints are the
      original ones, transposed when steep. */
  lemma CanonicalShape(p: Point2<U32>, q: Point2<U32>)
    ensures var l := Canonical(p, q);
            && l.start.x <= l.end.x
            && AbsDiff(l.start.y, l.end.y) <= l.end.x - l.start.x
            && (l.isSteep <==> AbsDiff(p.y, q.y) > AbsDiff(p.x, q.x))
            && (!l.isSteep ==> {l.start, l.end} == {p, q})
            && (l.isSteep ==> {l.start, l.end} == {Transpose(p), Transpose(q)})
  {
  }

  /** Swapping the arguments sets up the same line. */
  lemma CanonicalSymmetric(p: Point2<U32>, q: Point2<U32>)
    ensures Canonical(p, q) == Canonical(q, p)
  {
  }

  /** The row drawn in column `x`. A line of a single column is the zero-length
      line, and its row is the start's. */
  function Offset(l: Line, x: U32): (y: U32)
    requires l.start.x <= x <= l.end.x
    ensures Min(l.start.y, l.end.y) <= y <= Max(l.start.y, l.end.y)
    ensures x == l.start.x ==> y == l.start.y
    ensures x == l.end.x ==> y == l.end.y || l.start.x == l.end.x
  {
    if l.end.x == l.start.x then
      l.start.y
    else
      var t := Fraction(x - l.start.x, l.end.x - l.start.x);
      LerpBetween(l.start.y, l.end.y, t);
      LerpAtEnds(l.start.y, l.end.y);
      Lerp(l.start.y, l.end.y, t)
  }

  /** The `lerp_amount` of `fill_next_line_point`: how far along the columns `n` of `d` is. */
  function Fraction(n: nat, d: nat): (t: real)
    requires 0 < d && n <= d
    ensures 0.0 <= t <= 1.0
    ensures n == 0 ==> t == 0.0
    ensures n == d ==> t == 1.0
  {
    FractionBounds(n as real, d as real);
    n as real / d as real
  }

  lemma FractionBounds(n: real, d: real)
    requires 0.0 < d && 0.0 <= n <= d
    ensures 0.0 <= n / d <= 1.0
    ensures n == d ==> n / d == 1.0
  {
    assert (n / d) * d == n;
  }

  /** The row as written: `0.0 / 0.0` is NaN for a single column, and NaN cast to
      `u32` is 0. */
  function OffsetAsWritten(l: Line, x: U32): U32
    requires l.start.x <= x <= l.end.x
  {
    if l.end.x == l.start.x then 0
    else Lerp(l.start.y, l.end.y, Fraction(x - l.start.x, l.end.x - l.start.x))
  }

  /** Buffer coordinates (i, j) seen from the line: its column and its row. */
  function Column(l: Line, i: int, j: int): int { if l.isSteep then j else i }
  function Row(l: Line, i: int, j: int): int { if l.isSteep then i else j }

  /** `draw_line` paints (i, j): its column is one of the line's and its row is that column's offset. */
  predicate Paints(l: Line, i: int, j: int) {
    && l.start.x <= Column(l, i, j) <= l.end.x
    && Row(l, i, j) == Offset(l, Column(l, i, j) as U32)
  }

  /** The same with the offset as written. */
  predicate PaintsAsWritten(l: Line, i: int, j: int) {
    && l.start.x <= Column(l, i, j) <= l.end.x
    && Row(l, i, j) == OffsetAsWritten(l, Column(l, i, j) as U32)
  }

  /** The pixels of the columns left of `k`. */
  predicate PaintsBefore(l: Line, k: int, i: int, j: int) {
    Paints(l, i, j) && Column(l, i, j) < k
  }

  /** Both endpoints of the original line are painted. */
  lemma {:induction false} EndpointsPainted(p: Point2<U32>, q: Point2<U32>)
    ensures Paints(Canonical(p, q), p.x, p.y) && Paints(Canonical(p, q), q.x, q.y)
  {
    var l := Canonical(p, q);
    CanonicalShape(p, q);
    if l.start.x == l.end.x {
      assert p == q;
    }
  }

  /** Every painted pixel lies in the rectangle spanned by the two endpoints. */
  lemma {:induction false} PaintedInRectangle(p: Point2<U32>, q: Point2<U32>, i: int, j: int)
    requires Paints(Canonical(p, q), i, j)
    ensures Min(p.x, q.x) <= i <= Max(p.x, q.x) && Min(p.y, q.y) <= j <= Max(p.y, q.y)
  {
    CanonicalShape(p, q);
  }

  /** A zero-length line paints its one point and nothing else. */
  lemma ZeroLengthPaintsDot(p: Point2<U32>, i: int, j: int)
    ensures Paints(Canonical(p, p), i, j) <==> i == p.x && j == p.y
  {
  }

  /** As written, the zero-length line at (3, 2) paints (3, 0) instead. */
  lemma ZeroLengthAsWrittenMissesDot()
    ensures PaintsAsWritten(Canonical(Point2(3, 2), Point2(3, 2)), 3, 0)
    ensures !PaintsAsWritten(Canonical(Point2(3, 2), Point2(3, 2)), 3, 2)
  {
  }

  /** Every column of the line maps inside a buffer of the given size. */
  predicate InBounds(l: Line, width: nat, height: nat) {
    if l.isSteep then l.end.x < height && l.start.y < width && l.end.y < width
    else l.end.x < width && l.start.y < height && l.end.y < height
  }

  /** Endpoints in the buffer put the whole line in it. */
  lemma EndpointsInBounds(p: Point2<U32>, q: Point2<U32>, width: nat, height: nat)
    requires p.x < width && q.x < width && p.y < height && q.y < height
    ensures InBounds(Canonical(p, q), width, height)
  {
    CanonicalShape(p, q);
  }

  class LineDrawer {
    var start: Point2<U32>
    var end: Point2<U32>
    var isSteep: bool
    const col: Rgb
    const buffer: array2<Rgb>

    function AsLine(): Line
      reads this
    {
      Line(start, end, isSteep)
    }

    /** `LineDrawer::new`: the initial instance, made shallow, then ordered. */
    constructor (start: Point2<U32>, end: Point2<U32>, col: Rgb, buffer: array2<Rgb>)
      ensures AsLine() == Canonical(start, end)
      ensures this.col == col && this.buffer == buffer
    {
      this.start := start;
      this.end := end;
      this.col := col;
      this.isSteep := false;
      this.buffer := buffer;
      new;
      MakeLineShallow();
      OrderPoints();
    }

    /** `make_line_shallow`: swaps start.x with end.y and start.y with end.x. */
    method MakeLineShallow()
      modifies this
      ensures AsLine() == Shallow(old(AsLine()))
    {
      var xDistance := AbsDiff(start.x, end.x);
      var yDistance := AbsDiff(start.y, end.y);
      if yDistance > xDistance {
        var sx, ey := start.x, end.y;
        start := start.(x := ey);
        end := end.(y := sx);
        var sy, ex := start.y, end.x;
        start := start.(y := ex);
        end := end.(x := sy);
        isSteep := true;
      }
    }

    /** `order_points`. */
    method OrderPoints()
      modifies this
      ensures AsLine() == Ordered(old(AsLine()))
    {
      if start.x > end.x {
        start, end := end, start;
      }
    }

    /** `draw_line`: one pixel per column from start.x to end.x inclusive; nothing
        else in the buffer changes. */
    method DrawLine()
      requires AsLine().start.x <= AsLine().end.x
      requires InBounds(AsLine(), buffer.Length0, buffer.Length1)
      modifies buffer
      ensures forall i, j :: 0 <= i < buffer.Length0 && 0 <= j < buffer.Length1 ==>
                buffer[i, j] == if Paints(AsLine(), i, j) then col else old(buffer[i, j])
    {
      var x: int := start.x;
      while x <= end.x
        invariant start.x <= x <= end.x + 1
        invariant forall i, j :: 0 <= i < buffer.Length0 && 0 <= j < buffer.Length1 ==>
                    buffer[i, j] == if PaintsBefore(AsLine(), x, i, j) then col else old(buffer[i, j])
      {
        FillNextLinePoint(x as U32);
        x := x + 1;
      }
    }

    /** `fill_next_line_point`: paints column `x` at its offset, (offset, x) when steep. */
    method FillNextLinePoint(x: U32)
      requires start.x <= x <= end.x
      requires InBounds(AsLine(), buffer.Length0, buffer.Length1)
      modifies buffer
      ensures forall i, j :: 0 <= i < buffer.Length0 && 0 <= j < buffer.Length1 ==>
                buffer[i, j] == if Column(AsLine(), i, j) == x && Paints(AsLine(), i, j) then col else old(buffer[i, j])
    {
      var baseOffset := Offset(AsLine(), x);
      if isSteep {
        buffer[baseOffset, x] := col;
      } else {
        buffer[x, baseOffset] := col;
      }
    }
  }

  /** Draws the line from `p` to `q` on a black 2 × 2 buffer, as every unit test does. */
  method DrawOnBlack2x2(p: Point2<U32>, q: Point2<U32>) returns (buffer: array2<Rgb>)
    requires p.x < 2 && q.x < 2 && p.y < 2 && q.y < 2
    ensures buffer.Length0 == 2 && buffer.Length1 == 2
    ensures forall i, j :: 0 <= i < 2 && 0 <= j < 2 ==>
              buffer[i, j] == if Paints(Canonical(p, q), i, j) then Rgb(1, 1, 1) else BLACK
  {
    buffer := new Rgb[2, 2]((i, j) => BLACK);
    var drawer := new LineDrawer(p, q, Rgb(1, 1, 1), buffer);
    CanonicalShape(p, q);
    EndpointsInBounds(p, q, 2, 2);
    drawer.DrawLine();
  }

  /** A line one column long paints its two endpoints, in columns start.x and end.x. */
  lemma {:induction false} TwoColumnPaints(l: Line, i: int, j: int)
    requires l.end.x == l.start.x + 1
    ensures Paints(l, i, j) <==>
              || (Column(l, i, j) == l.start.x && Row(l, i, j) == l.start.y)
              || (Column(l, i, j) == l.end.x && Row(l, i, j) == l.end.y)
  {
    var c := Column(l, i, j);
    if c == l.start.x {
      assert Offset(l, l.start.x) == l.start.y;
    } else if c == l.end.x {
      assert Offset(l, l.end.x) == l.end.y;
    }
  }

  /** In a column of the line, the painted pixel is the one whose row is that column's offset. */
  lemma PaintsAtColumn(l: Line, c: U32, i: int, j: int)
    requires l.start.x <= c <= l.end.x && Column(l, i, j) == c
    ensures Paints(l, i, j) <==> Row(l, i, j) == Offset(l, c)
  {
  }

  /** The pixels of the vertical line (0, 0)–(0, 1): it is transposed into the
      shallow line (0, 0)–(1, 0), so it paints column x = 0. */
  lemma {:induction false} VerticalPaints(i: int, j: int)
    requires 0 <= i < 2 && 0 <= j < 2
    ensures Paints(Canonical(Point2(0, 0), Point2(0, 1)), i, j) <==> i == 0
  {
    var l := Canonical(Point2(0, 0), Point2(0, 1));
    assert Shallow(Line(Point2(0, 0), Point2(0, 1), false)) == Line(Point2(1, 0), Point2(0, 0), true);
    assert l == Line(Point2(0, 0), Point2(1, 0), true);
    TwoColumnPaints(l, i, j);
  }

  /** The pixels of the flat line (0, 0)–(1, 0): the bottom row. */
  lemma {:induction false} FlatPaints(i: int, j: int)
    requires 0 <= i < 2 && 0 <= j < 2
    ensures Paints(Canonical(Point2(0, 0), Point2(1, 0)), i, j) <==> j == 0
  {
    var l := Canonical(Point2(0, 0), Point2(1, 0));
    assert l == Line(Point2(0, 0), Point2(1, 0), false);
    TwoColumnPaints(l, i, j);
  }

  /** A line rising one row per column hits a pixel centre at every column: no rounding
      happens, and the row advances exactly with the column. */
  lemma {:induction false} RisingDiagonalOffset(l: Line, x: U32)
    requires l.start.x < l.end.x && l.end.x - l.start.x == l.end.y - l.start.y
    requires l.start.x <= x <= l.end.x
    ensures Offset(l, x) == l.start.y + (x - l.start.x)
  {
    var n, d := x - l.start.x, l.end.x - l.start.x;
    var t := Fraction(n, d);
    assert t * d as real == n as real;
    assert Interpolate(l.start.y, l.end.y, t) == (l.start.y + n) as real;
    Numeric.RoundOfInteger(l.start.y + n);
  }

  /** The pixels of the diagonal (0, 0)–(1, 1), given either way round. */
  lemma {:induction false} DiagonalPaints(i: int, j: int)
    requires 0 <= i < 2 && 0 <= j < 2
    ensures Paints(Canonical(Point2(0, 0), Point2(1, 1)), i, j) <==> i == j
    ensures Paints(Canonical(Point2(1, 1), Point2(0, 0)), i, j) <==> i == j
  {
    var l := Canonical(Point2(0, 0), Point2(1, 1));
    CanonicalSymmetric(Point2(1, 1), Point2(0, 0));
    assert l == Line(Point2(0, 0), Point2(1, 1), false);
    TwoColumnPaints(l, i, j);
  }

  /** The unit test of the zero-length line: one dot. */
  method TestDot() {
    var dot := DrawOnBlack2x2(Point2(0, 0), Point2(0, 0));
    assert dot[0, 0] == Rgb(1, 1, 1);
    assert dot[1, 1] == BLACK && dot[0, 1] == BLACK && dot[1, 0] == BLACK;
  }

  /** The unit test of the diagonal. */
  method TestDiagonal() {
    var even := DrawOnBlack2x2(Point2(0, 0), Point2(1, 1));
    assert even[0, 0] == Rgb(1, 1, 1) by { DiagonalPaints(0, 0); }
    assert even[1, 1] == Rgb(1, 1, 1) by { DiagonalPaints(1, 1); }
    assert even[0, 1] == BLACK by { DiagonalPaints(0, 1); }
    assert even[1, 0] == BLACK by { DiagonalPaints(1, 0); }
  }

  /** The unit test of the diagonal given right to left. */
  method TestDiagonalReversed() {
    var reversed := DrawOnBlack2x2(Point2(1, 1), Point2(0, 0));
    assert reversed[0, 0] == Rgb(1, 1, 1) by { DiagonalPaints(0, 0); }
    assert reversed[1, 1] == Rgb(1, 1, 1) by { DiagonalPaints(1, 1); }
    assert reversed[0, 1] == BLACK by { DiagonalPaints(0, 1); }
    assert reversed[1, 0] == BLACK by { DiagonalPaints(1, 0); }
  }

  /** The unit test of the flat line along the bottom row. */
  method TestFlat() {
    var flat := DrawOnBlack2x2(Point2(0, 0), Point2(1, 0));
    assert flat[0, 0] == Rgb(1, 1, 1) by { FlatPaints(0, 0); }
    assert flat[1, 0] == Rgb(1, 1, 1) by { FlatPaints(1, 0); }
    assert flat[1, 1] == BLACK by { FlatPaints(1, 1); }
    assert flat[0, 1] == BLACK by { FlatPaints(0, 1); }
  }

  /** The unit test of the vertical line. */
  method TestVertical() {
    var vertical := DrawOnBlack2x2(Point2(0, 0), Point2(0, 1));
    assert vertical[0, 0] == Rgb(1, 1, 1) by { VerticalPaints(0, 0); }
    assert vertical[0, 1] == Rgb(1, 1, 1) by { VerticalPaints(0, 1); }
    assert vertical[1, 1] == BLACK by { VerticalPaints(1, 1); }
    assert vertical[1, 0] == BLACK by { VerticalPaints(1, 0); }
  }
}
