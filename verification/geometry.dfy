/**
 * The nail layout: the frame rectangle in pixels, its four inset corners, the
 * pitch along each side, and the four runs of nails laid out clockwise
 * (top left to right, right top to bottom, bottom right to left, left bottom
 * to top). Pixel coordinates grow rightwards (x) and downwards (y).
 */
module Geometry {

  /** A 2D vector of exact reals, standing for a QVector2D. */
  datatype Vec2 = Vec2(x: real, y: real)

  function Add(a: Vec2, b: Vec2): Vec2 { Vec2(a.x + b.x, a.y + b.y) }

  function Sub(a: Vec2, b: Vec2): Vec2 { Vec2(a.x - b.x, a.y - b.y) }

  /** Scalar multiple k * v. */
  function Mul(k: real, v: Vec2): Vec2 { Vec2(k * v.x, k * v.y) }

  function Abs(r: real): real { if r < 0.0 then -r else r }

  /**
   * Length of a vector that lies along one axis; every side difference the
   * layout measures is of that kind.
   */
  function AxisLength(v: Vec2): (l: real)
    requires v.x == 0.0 || v.y == 0.0
    ensures 0.0 <= l
    ensures l == 0.0 <==> v == Vec2(0.0, 0.0)
  {
    if v.x == 0.0 then Abs(v.y) else Abs(v.x)
  }

  /** It is the Euclidean length: non-negative, with square x² + y². */
  lemma AxisLengthIsEuclidean(v: Vec2)
    requires v.x == 0.0 || v.y == 0.0
    ensures 0.0 <= AxisLength(v) && AxisLength(v) * AxisLength(v) == v.x * v.x + v.y * v.y
  {
  }

  /** The frame rectangle by the pixel coordinates of its edges. */
  datatype Rect = Rect(left: int, top: int, right: int, bottom: int)

  /** Four corner points, named by position. */
  datatype Corners = Corners(tl: Vec2, tr: Vec2, bl: Vec2, br: Vec2)

  /** The interior left after the border is taken off both sides is not reversed. */
  predicate FitsBorder(r: Rect, border: int)
  {
    0 <= 2 * border <= r.right - r.left && 2 * border <= r.bottom - r.top
  }

  /** Each rectangle corner moved inward by the border on both axes. */
  function InsetCorners(r: Rect, border: int): (c: Corners)
    ensures c.tl.x == (r.left + border) as real && c.tl.y == (r.top + border) as real
    ensures c.tr.x == (r.right - border) as real && c.tr.y == (r.top + border) as real
    ensures c.bl.x == (r.left + border) as real && c.bl.y == (r.bottom - border) as real
    ensures c.br.x == (r.right - border) as real && c.br.y == (r.bottom - border) as real
    // the inset corners again form an axis-aligned rectangle
    ensures c.tl.y == c.tr.y && c.bl.y == c.br.y && c.tl.x == c.bl.x && c.tr.x == c.br.x
    ensures c.br.x - c.bl.x == (r.right - r.left - 2 * border) as real
    ensures c.br.y - c.tr.y == (r.bottom - r.top - 2 * border) as real
  {
    Corners(
      Vec2((r.left + border) as real, (r.top + border) as real),
      Vec2((r.right - border) as real, (r.top + border) as real),
      Vec2((r.left + border) as real, (r.bottom - border) as real),
      Vec2((r.right - border) as real, (r.bottom - border) as real))
  }

  /** A point inside the closed frame rectangle. */
  predicate Inside(r: Rect, p: Vec2)
  {
    r.left as real <= p.x <= r.right as real && r.top as real <= p.y <= r.bottom as real
  }

  /** With a border that fits, every inset corner lies inside the closed frame rectangle. */
  lemma InsetCornersInside(r: Rect, border: int)
    requires FitsBorder(r, border)
    ensures var c := InsetCorners(r, border);
      Inside(r, c.tl) && Inside(r, c.tr) && Inside(r, c.bl) && Inside(r, c.br)
  {
  }

  /** Side length divided into n - 1 equal steps; n == 1 would divide by zero. */
  function Pitch(sideLength: real, n: nat): (p: real)
    requires n != 1
    ensures n == 0 ==> p == -sideLength
    ensures 2 <= n ==> (0.0 <= p <==> 0.0 <= sideLength)
  {
    sideLength / (n - 1) as real
  }

  /** n - 1 pitches make up the side; with no nails the divisor -1 negates the side length. */
  lemma PitchSpan(sideLength: real, n: nat)
    requires n != 1
    ensures 2 <= n ==> (n - 1) as real * Pitch(sideLength, n) == sideLength
    ensures n == 0 ==> Pitch(sideLength, n) == -sideLength
  {
  }

  /** Horizontal pitch, measured on the bottom side. */
  function PitchX(r: Rect, border: int, nx: nat): (p: real)
    requires nx != 1
    ensures 2 <= nx ==> 0.0 <= p
    ensures nx == 0 ==> p == -Abs((r.right - r.left - 2 * border) as real)
  {
    var c := InsetCorners(r, border);
    Pitch(AxisLength(Sub(c.br, c.bl)), nx)
  }

  /** Vertical pitch, measured on the right side. */
  function PitchY(r: Rect, border: int, ny: nat): (p: real)
    requires ny != 1
    ensures 2 <= ny ==> 0.0 <= p
    ensures ny == 0 ==> p == -Abs((r.bottom - r.top - 2 * border) as real)
  {
    var c := InsetCorners(r, border);
    Pitch(AxisLength(Sub(c.tr, c.br)), ny)
  }

  /** With at least two nails, n - 1 pitches span the inset side, whose length is taken as absolute. */
  lemma PitchesSpan(r: Rect, border: int, nx: nat, ny: nat)
    requires nx != 1 && ny != 1
    ensures 2 <= nx ==>
      0.0 <= PitchX(r, border, nx) && (nx - 1) as real * PitchX(r, border, nx) == Abs((r.right - r.left - 2 * border) as real)
    ensures 2 <= ny ==>
      0.0 <= PitchY(r, border, ny) && (ny - 1) as real * PitchY(r, border, ny) == Abs((r.bottom - r.top - 2 * border) as real)
  {
    var c := InsetCorners(r, border);
    PitchSpan(AxisLength(Sub(c.br, c.bl)), nx);
    PitchSpan(AxisLength(Sub(c.tr, c.br)), ny);
  }

  /** The n points start, start + step, ..., start + (n-1) * step, appended one by one. */
  function Run(start: Vec2, step: Vec2, n: nat): (r: seq<Vec2>)
    ensures |r| == n
  {
    if n == 0 then [] else Run(start, step, n - 1) + [Add(start, Mul((n - 1) as real, step))]
  }

  /** Appending the next point to a run (after any prefix) extends the run by one. */
  lemma RunAppend(prefix: seq<Vec2>, start: Vec2, step: Vec2, i: nat)
    ensures prefix + Run(start, step, i) + [Add(start, Mul(i as real, step))] == prefix + Run(start, step, i + 1)
  {
    assert Run(start, step, i + 1) == Run(start, step, i) + [Add(start, Mul(i as real, step))];
  }

  /** Point k of a run is k steps from its start. */
  lemma {:induction false} RunAt(start: Vec2, step: Vec2, n: nat, k: nat)
    requires k < n
    ensures Run(start, step, n)[k] == Add(start, Mul(k as real, step))
  {
    if k < n - 1 {
      RunAt(start, step, n - 1, k);
    }
  }

  /** Consecutive points of a run are one step apart. */
  lemma RunStep(start: Vec2, step: Vec2, n: nat, k: nat)
    requires k + 1 < n
    ensures Run(start, step, n)[k + 1] == Add(Run(start, step, n)[k], step)
  {
    RunAt(start, step, n, k);
    RunAt(start, step, n, k + 1);
  }

  function TopStep(r: Rect, border: int, nx: nat): Vec2 requires nx != 1 { Vec2(PitchX(r, border, nx), 0.0) }
  function RightStep(r: Rect, border: int, ny: nat): Vec2 requires ny != 1 { Vec2(0.0, PitchY(r, border, ny)) }
  function BottomStep(r: Rect, border: int, nx: nat): Vec2 requires nx != 1 { Vec2(-PitchX(r, border, nx), 0.0) }
  function LeftStep(r: Rect, border: int, ny: nat): Vec2 requires ny != 1 { Vec2(0.0, -PitchY(r, border, ny)) }

  /**
   * The whole nail list: top run from the top-left inset corner, right run
   * from the top-right, bottom run from the bottom-right, left run from the
   * bottom-left, concatenated in that order.
   */
  function Layout(r: Rect, border: int, nx: nat, ny: nat): (nails: seq<Vec2>)
    requires nx != 1 && ny != 1
    ensures |nails| == 2 * nx + 2 * ny
  {
    var c := InsetCorners(r, border);
    Run(c.tl, TopStep(r, border, nx), nx)
    + Run(c.tr, RightStep(r, border, ny), ny)
    + Run(c.br, BottomStep(r, border, nx), nx)
    + Run(c.bl, LeftStep(r, border, ny), ny)
  }

  /** The layout is the four runs, each with the length of its side's count. */
  lemma LayoutRuns(r: Rect, border: int, nx: nat, ny: nat)
    requires nx != 1 && ny != 1
    ensures var c, L := InsetCorners(r, border), Layout(r, border, nx, ny);
      && L[..nx] == Run(c.tl, TopStep(r, border, nx), nx)
      && L[nx..nx + ny] == Run(c.tr, RightStep(r, border, ny), ny)
      && L[nx + ny..2 * nx + ny] == Run(c.br, BottomStep(r, border, nx), nx)
      && L[2 * nx + ny..] == Run(c.bl, LeftStep(r, border, ny), ny)
  {
    var c := InsetCorners(r, border);
    var top := Run(c.tl, TopStep(r, border, nx), nx);
    var right := Run(c.tr, RightStep(r, border, ny), ny);
    var bottom := Run(c.br, BottomStep(r, border, nx), nx);
    var left := Run(c.bl, LeftStep(r, border, ny), ny);
    var L := top + right + bottom + left;
    assert L[..nx] == top;
    assert L[nx..nx + ny] == right;
    assert L[nx + ny..2 * nx + ny] == bottom;
    assert L[2 * nx + ny..] == left;
  }

  /** Nail k of the layout, by the run it falls in and its offset within that run. */
  lemma NailAt(r: Rect, border: int, nx: nat, ny: nat, k: nat)
    requires nx != 1 && ny != 1
    requires k < 2 * nx + 2 * ny
    ensures var c, L := InsetCorners(r, border), Layout(r, border, nx, ny);
      && (k < nx ==>
            L[k] == Add(c.tl, Mul(k as real, TopStep(r, border, nx))))
      && (nx <= k < nx + ny ==>
            L[k] == Add(c.tr, Mul((k - nx) as real, RightStep(r, border, ny))))
      && (nx + ny <= k < 2 * nx + ny ==>
            L[k] == Add(c.br, Mul((k - nx - ny) as real, BottomStep(r, border, nx))))
      && (2 * nx + ny <= k ==>
            L[k] == Add(c.bl, Mul((k - 2 * nx - ny) as real, LeftStep(r, border, ny))))
  {
    var c, L := InsetCorners(r, border), Layout(r, border, nx, ny);
    LayoutRuns(r, border, nx, ny);
    if k < nx {
      assert L[k] == L[..nx][k];
      RunAt(c.tl, TopStep(r, border, nx), nx, k);
    } else if k < nx + ny {
      assert L[k] == L[nx..nx + ny][k - nx];
      RunAt(c.tr, RightStep(r, border, ny), ny, k - nx);
    } else if k < 2 * nx + ny {
      assert L[k] == L[nx + ny..2 * nx + ny][k - nx - ny];
      RunAt(c.br, BottomStep(r, border, nx), nx, k - nx - ny);
    } else {
      assert L[k] == L[2 * nx + ny..][k - 2 * nx - ny];
      RunAt(c.bl, LeftStep(r, border, ny), ny, k - 2 * nx - ny);
    }
  }

  /** n - 1 steps of a pitch that splits len into n - 1 parts cover len, in each of the four directions. */
  lemma FullSteps(start: Vec2, p: real, n: nat, len: real)
    requires 2 <= n && (n - 1) as real * p == len
    ensures var m := (n - 1) as real;
      && Add(start, Mul(m, Vec2(p, 0.0))) == Vec2(start.x + len, start.y)
      && Add(start, Mul(m, Vec2(0.0, p))) == Vec2(start.x, start.y + len)
      && Add(start, Mul(m, Vec2(-p, 0.0))) == Vec2(start.x - len, start.y)
      && Add(start, Mul(m, Vec2(0.0, -p))) == Vec2(start.x, start.y - len)
  {
    var m := (n - 1) as real;
    assert m * -p == -len;
  }

  /** The top run ends on the top-right inset corner, where the right run starts. */
  lemma TopMeetsRight(r: Rect, border: int, nx: nat, ny: nat)
    requires 2 <= nx && 2 <= ny && FitsBorder(r, border)
    ensures var c, L := InsetCorners(r, border), Layout(r, border, nx, ny);
      L[nx - 1] == c.tr == L[nx]
  {
    var c := InsetCorners(r, border);
    PitchesSpan(r, border, nx, ny);
    NailAt(r, border, nx, ny, nx - 1);
    NailAt(r, border, nx, ny, nx);
    FullSteps(c.tl, PitchX(r, border, nx), nx, c.tr.x - c.tl.x);
  }

  /** The right run ends on the bottom-right inset corner, where the bottom run starts. */
  lemma RightMeetsBottom(r: Rect, border: int, nx: nat, ny: nat)
    requires 2 <= nx && 2 <= ny && FitsBorder(r, border)
    ensures var c, L := InsetCorners(r, border), Layout(r, border, nx, ny);
      L[nx + ny - 1] == c.br == L[nx + ny]
  {
    var c := InsetCorners(r, border);
    PitchesSpan(r, border, nx, ny);
    NailAt(r, border, nx, ny, nx + ny - 1);
    NailAt(r, border, nx, ny, nx + ny);
    FullSteps(c.tr, PitchY(r, border, ny), ny, c.br.y - c.tr.y);
  }

  /** The bottom run ends on the bottom-left inset corner, where the left run starts. */
  lemma BottomMeetsLeft(r: Rect, border: int, nx: nat, ny: nat)
    requires 2 <= nx && 2 <= ny && FitsBorder(r, border)
    ensures var c, L := InsetCorners(r, border), Layout(r, border, nx, ny);
      L[2 * nx + ny - 1] == c.bl == L[2 * nx + ny]
  {
    var c := InsetCorners(r, border);
    PitchesSpan(r, border, nx, ny);
    NailAt(r, border, nx, ny, 2 * nx + ny - 1);
    NailAt(r, border, nx, ny, 2 * nx + ny);
    FullSteps(c.br, PitchX(r, border, nx), nx, c.br.x - c.bl.x);
  }

  /** The left run ends on the top-left inset corner, where the top run starts. */
  lemma LeftMeetsTop(r: Rect, border: int, nx: nat, ny: nat)
    requires 2 <= nx && 2 <= ny && FitsBorder(r, border)
    ensures var c, L := InsetCorners(r, border), Layout(r, border, nx, ny);
      L[2 * nx + 2 * ny - 1] == c.tl == L[0]
  {
    var c := InsetCorners(r, border);
    PitchesSpan(r, border, nx, ny);
    NailAt(r, border, nx, ny, 2 * nx + 2 * ny - 1);
    NailAt(r, border, nx, ny, 0);
    FullSteps(c.bl, PitchY(r, border, ny), ny, c.bl.y - c.tl.y);
  }

  /**
   * Where runs meet: each run ends on the inset corner the next run starts
   * from, so every inset corner occurs twice in the list. This needs at least
   * two nails per side and a border that fits; otherwise the pitch, taken as
   * an absolute length, overshoots the corner.
   */
  lemma RunsMeet(r: Rect, border: int, nx: nat, ny: nat)
    requires 2 <= nx && 2 <= ny && FitsBorder(r, border)
    ensures var c, L := InsetCorners(r, border), Layout(r, border, nx, ny);
      && L[0] == c.tl && L[nx - 1] == c.tr
      && L[nx] == c.tr && L[nx + ny - 1] == c.br
      && L[nx + ny] == c.br && L[2 * nx + ny - 1] == c.bl
      && L[2 * nx + ny] == c.bl && L[2 * nx + 2 * ny - 1] == c.tl
  {
    TopMeetsRight(r, border, nx, ny);
    RightMeetsBottom(r, border, nx, ny);
    BottomMeetsLeft(r, border, nx, ny);
    LeftMeetsTop(r, border, nx, ny);
  }

  /** Consequently the layout is not free of duplicates: the top-left corner is nail 0 and the last nail. */
  lemma CornerRepeated(r: Rect, border: int, nx: nat, ny: nat)
    requires 2 <= nx && 2 <= ny && FitsBorder(r, border)
    ensures var L := Layout(r, border, nx, ny);
      exists i, j :: 0 <= i < j < |L| && L[i] == L[j]
  {
    RunsMeet(r, border, nx, ny);
    var L := Layout(r, border, nx, ny);
    assert L[0] == L[|L| - 1];
  }

  /** Consecutive nails within one run are one pitch apart, stepping in the run's direction. */
  lemma ConsecutiveNails(r: Rect, border: int, nx: nat, ny: nat, k: nat)
    requires nx != 1 && ny != 1
    requires k + 1 < 2 * nx + 2 * ny
    requires k + 1 != nx && k + 1 != nx + ny && k + 1 != 2 * nx + ny
    ensures var L := Layout(r, border, nx, ny);
      && (k + 1 < nx ==> L[k + 1] == Add(L[k], TopStep(r, border, nx)))
      && (nx <= k && k + 1 < nx + ny ==> L[k + 1] == Add(L[k], RightStep(r, border, ny)))
      && (nx + ny <= k && k + 1 < 2 * nx + ny ==> L[k + 1] == Add(L[k], BottomStep(r, border, nx)))
      && (2 * nx + ny <= k ==> L[k + 1] == Add(L[k], LeftStep(r, border, ny)))
      && AxisLength(Sub(L[k + 1], L[k])) == if k < nx || nx + ny <= k < 2 * nx + ny
                                            then Abs(PitchX(r, border, nx))
                                            else Abs(PitchY(r, border, ny))
  {
    var c, L := InsetCorners(r, border), Layout(r, border, nx, ny);
    LayoutRuns(r, border, nx, ny);
    var step;
    if k + 1 < nx {
      step := TopStep(r, border, nx);
      RunStep(c.tl, step, nx, k);
      assert L[k] == L[..nx][k] && L[k + 1] == L[..nx][k + 1];
    } else if k + 1 < nx + ny {
      step := RightStep(r, border, ny);
      RunStep(c.tr, step, ny, k - nx);
      assert L[k] == L[nx..nx + ny][k - nx] && L[k + 1] == L[nx..nx + ny][k + 1 - nx];
    } else if k + 1 < 2 * nx + ny {
      step := BottomStep(r, border, nx);
      RunStep(c.br, step, nx, k - nx - ny);
      assert L[k] == L[nx + ny..2 * nx + ny][k - nx - ny];
      assert L[k + 1] == L[nx + ny..2 * nx + ny][k + 1 - nx - ny];
    } else {
      step := LeftStep(r, border, ny);
      RunStep(c.bl, step, ny, k - 2 * nx - ny);
      assert L[k] == L[2 * nx + ny..][k - 2 * nx - ny];
      assert L[k + 1] == L[2 * nx + ny..][k + 1 - 2 * nx - ny];
    }
    assert L[k + 1] == Add(L[k], step);
    assert Sub(L[k + 1], L[k]) == step;
  }

  /** The nail points lie on the perimeter of the inset rectangle. */
  predicate OnPerimeter(c: Corners, p: Vec2)
  {
    ((p.y == c.tl.y || p.y == c.bl.y) && c.tl.x <= p.x <= c.tr.x)
    || ((p.x == c.tl.x || p.x == c.tr.x) && c.tl.y <= p.y <= c.bl.y)
  }

  /** 0 <= k * p <= len when k counts steps of a pitch that divides len into n - 1 parts. */
  lemma StepWithin(k: nat, n: nat, p: real, len: real)
    requires k < n && 0.0 <= p && (n - 1) as real * p == len
    ensures 0.0 <= k as real * p <= len
  {
    assert (n - 1 - k) as real * p >= 0.0;
    assert (n - 1) as real * p == k as real * p + (n - 1 - k) as real * p;
  }

  /** A point k steps from a along an axis, within a side of length len split into n - 1 steps. */
  lemma StepOnSide(a: real, k: nat, n: nat, p: real, len: real)
    requires k < n && 0.0 <= p && (n - 1) as real * p == len
    ensures a <= a + k as real * p <= a + len
    ensures a - len <= a + k as real * -p <= a
  {
    StepWithin(k, n, p, len);
    assert k as real * -p == -(k as real * p);
  }

  /** m steps of p (or of -p) along x from start stay on its row, within len of it. */
  lemma StepsAlongX(start: Vec2, p: real, m: nat, n: nat, len: real)
    requires m < n && 0.0 <= p && (n - 1) as real * p == len
    ensures var fwd, back := Add(start, Mul(m as real, Vec2(p, 0.0))), Add(start, Mul(m as real, Vec2(-p, 0.0)));
      && fwd.y == start.y && start.x <= fwd.x <= start.x + len
      && back.y == start.y && start.x - len <= back.x <= start.x
  {
    StepOnSide(start.x, m, n, p, len);
  }

  /** m steps of p (or of -p) along y from start stay on its column, within len of it. */
  lemma StepsAlongY(start: Vec2, p: real, m: nat, n: nat, len: real)
    requires m < n && 0.0 <= p && (n - 1) as real * p == len
    ensures var fwd, back := Add(start, Mul(m as real, Vec2(0.0, p))), Add(start, Mul(m as real, Vec2(0.0, -p)));
      && fwd.x == start.x && start.y <= fwd.y <= start.y + len
      && back.x == start.x && start.y - len <= back.y <= start.y
  {
    StepOnSide(start.y, m, n, p, len);
  }

  /** A top-run nail lies on the top side of the inset rectangle. */
  lemma TopNailOnPerimeter(r: Rect, border: int, nx: nat, ny: nat, k: nat)
    requires nx != 1 && ny != 1 && FitsBorder(r, border)
    requires k < nx
    ensures OnPerimeter(InsetCorners(r, border), Layout(r, border, nx, ny)[k])
  {
    var c, L := InsetCorners(r, border), Layout(r, border, nx, ny);
    PitchesSpan(r, border, nx, ny);
    NailAt(r, border, nx, ny, k);
    StepsAlongX(c.tl, PitchX(r, border, nx), k, nx, c.tr.x - c.tl.x);
    assert L[k].y == c.tl.y && c.tl.x <= L[k].x <= c.tr.x;
  }

  /** A right-run nail lies on the right side of the inset rectangle. */
  lemma RightNailOnPerimeter(r: Rect, border: int, nx: nat, ny: nat, k: nat)
    requires nx != 1 && ny != 1 && FitsBorder(r, border)
    requires nx <= k < nx + ny
    ensures OnPerimeter(InsetCorners(r, border), Layout(r, border, nx, ny)[k])
  {
    var c, L := InsetCorners(r, border), Layout(r, border, nx, ny);
    PitchesSpan(r, border, nx, ny);
    NailAt(r, border, nx, ny, k);
    StepsAlongY(c.tr, PitchY(r, border, ny), k - nx, ny, c.bl.y - c.tl.y);
    assert L[k].x == c.tr.x && c.tl.y <= L[k].y <= c.bl.y;
  }

  /** A bottom-run nail lies on the bottom side of the inset rectangle. */
  lemma BottomNailOnPerimeter(r: Rect, border: int, nx: nat, ny: nat, k: nat)
    requires nx != 1 && ny != 1 && FitsBorder(r, border)
    requires nx + ny <= k < 2 * nx + ny
    ensures OnPerimeter(InsetCorners(r, border), Layout(r, border, nx, ny)[k])
  {
    var c, L := InsetCorners(r, border), Layout(r, border, nx, ny);
    PitchesSpan(r, border, nx, ny);
    NailAt(r, border, nx, ny, k);
    StepsAlongX(c.br, PitchX(r, border, nx), k - nx - ny, nx, c.tr.x - c.tl.x);
    assert L[k].y == c.bl.y && c.tl.x <= L[k].x <= c.tr.x;
  }

  /** A left-run nail lies on the left side of the inset rectangle. */
  lemma LeftNailOnPerimeter(r: Rect, border: int, nx: nat, ny: nat, k: nat)
    requires nx != 1 && ny != 1 && FitsBorder(r, border)
    requires 2 * nx + ny <= k < 2 * nx + 2 * ny
    ensures OnPerimeter(InsetCorners(r, border), Layout(r, border, nx, ny)[k])
  {
    var c, L := InsetCorners(r, border), Layout(r, border, nx, ny);
    PitchesSpan(r, border, nx, ny);
    NailAt(r, border, nx, ny, k);
    StepsAlongY(c.bl, PitchY(r, border, ny), k - 2 * nx - ny, ny, c.bl.y - c.tl.y);
    assert L[k].x == c.tl.x && c.tl.y <= L[k].y <= c.bl.y;
  }

  /** Every nail of the layout lies on the perimeter of the inset rectangle. */
  lemma NailsOnPerimeter(r: Rect, border: int, nx: nat, ny: nat)
    requires nx != 1 && ny != 1 && FitsBorder(r, border)
    ensures var c, L := InsetCorners(r, border), Layout(r, border, nx, ny);
      forall k :: 0 <= k < |L| ==> OnPerimeter(c, L[k])
  {
    forall k | 0 <= k < 2 * nx + 2 * ny
      ensures OnPerimeter(InsetCorners(r, border), Layout(r, border, nx, ny)[k])
    {
      if k < nx {
        TopNailOnPerimeter(r, border, nx, ny, k);
      } else if k < nx + ny {
        RightNailOnPerimeter(r, border, nx, ny, k);
      } else if k < 2 * nx + ny {
        BottomNailOnPerimeter(r, border, nx, ny, k);
      } else {
        LeftNailOnPerimeter(r, border, nx, ny, k);
      }
    }
  }
}
