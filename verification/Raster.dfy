/** The line rasteriser of the trajectory preview, in place on its pixel buffer. */
module Raster {
  newtype byte = x: int | 0 <= x < 256

  datatype Point = Point(x: int, y: int)

  datatype Color = Color(red: byte, green: byte, blue: byte)

  const WIDTH := 900

  const HEIGHT := 500

  const SIZE := WIDTH * HEIGHT * 3

  function Abs(v: int): nat {
    if v < 0 then -v else v
  }

  // ----- the pixels of a segment

  /** The integer nearest to `num / den`, the upper one of two. */
  function Rounded(num: int, den: int): int
    requires den > 0
  {
    (2 * num + den) / (2 * den)
  }

  function Width(a: Point, b: Point): nat {
    Abs(b.x - a.x)
  }

  function Height(a: Point, b: Point): nat {
    Abs(b.y - a.y)
  }

  function Long(a: Point, b: Point): nat {
    if Width(a, b) >= Height(a, b) then Width(a, b) else Height(a, b)
  }

  /** How far the `n`th pixel is from the first: one step along the longer axis for each pixel, and the nearest
      whole step to the segment along the other. */
  function Advance(dx: nat, dy: nat, n: nat): (int, int) {
    if dx == 0 && dy == 0 then (0, 0)
    else if dx >= dy then (n, Rounded(dy * n, dx))
    else (Rounded(dx * n, dy), n)
  }

  function Toward(start: int, end: int, steps: int): int {
    if start < end then start + steps else start - steps
  }

  function PixelAt(a: Point, b: Point, n: nat): Point {
    var (i, j) := Advance(Width(a, b), Height(a, b), n);
    Point(Toward(a.x, b.x, i), Toward(a.y, b.y, j))
  }

  // ----- the buffer

  predicate OnImage(p: Point) {
    0 <= p.x < WIDTH && 0 <= p.y < HEIGHT
  }

  function Offset(p: Point): int {
    (p.y * WIDTH + p.x) * 3
  }

  /** The pixel a byte of the buffer belongs to. */
  function PointOf(k: nat): Point {
    Point(k / 3 % WIDTH, k / 3 / WIDTH)
  }

  function Channel(c: Color, k: nat): byte {
    if k % 3 == 0 then c.red else if k % 3 == 1 then c.green else c.blue
  }

  lemma OffsetIff(p: Point, k: nat)
    requires OnImage(p) && k < SIZE
    ensures PointOf(k) == p <==> Offset(p) <= k < Offset(p) + 3
    ensures 0 <= Offset(p) <= SIZE - 3
    ensures Offset(p) <= k < Offset(p) + 3 ==> k % 3 == k - Offset(p)
  {
  }

  /** One of the first `n` pixels of the segment is `p`. */
  predicate Hit(a: Point, b: Point, n: nat, p: Point) {
    exists m :: 0 <= m < n && PixelAt(a, b, m) == p
  }

  method Put(pixels: array<byte>, p: Point, c: Color)
    requires pixels.Length == SIZE
    modifies pixels
    ensures forall k | 0 <= k < SIZE :: pixels[k] == if PointOf(k) == p then Channel(c, k) else old(pixels[k])
  {
    if 0 <= p.x < WIDTH && 0 <= p.y < HEIGHT {
      var offset := (p.y * WIDTH + p.x) * 3;
      OffsetIff(p, 0);
      pixels[offset], pixels[offset + 1], pixels[offset + 2] := c.red, c.green, c.blue;
      forall k: nat | k < SIZE
        ensures pixels[k] == if PointOf(k) == p then Channel(c, k) else old(pixels[k])
      {
        OffsetIff(p, k);
      }
    } else {
      forall k: nat | k < SIZE
        ensures PointOf(k) != p
      {
        PointOnImage(k);
      }
    }
  }

  lemma PointOnImage(k: nat)
    requires k < SIZE
    ensures OnImage(PointOf(k))
  {
  }

  // ----- one step of the error term

  /** `r` is the rounding of `num / den`. */
  predicate Near(den: int, num: int, r: int) {
    -den < 2 * (den * r - num) <= den
  }

  lemma RoundedIff(num: int, den: int, r: int)
    requires den > 0
    ensures Near(den, num, r) <==> r == Rounded(num, den)
  {
    var q := Rounded(num, den);
    assert 2 * den * q <= 2 * num + den < 2 * den * q + 2 * den;
    assert Near(den, num, q) by {
      assert 2 * den * q == 2 * (den * q);
    }
    if Near(den, num, r) && r != q {
      ApartBy(den, r, q);
    }
  }

  lemma Product(a: nat, b: nat)
    ensures a * b >= 0
  {
  }

  lemma Distribute(d: int, r: int, q: int)
    ensures d * (r - q) == d * r - d * q
  {
  }

  lemma Larger(den: int, r: int, q: int)
    requires den > 0 && r > q
    ensures den * r >= den * q + den
  {
    Product(den, r - q - 1);
    Distribute(den, r, q);
    Distribute(den, r - q, 1);
  }

  lemma ApartBy(den: int, r: int, q: int)
    requires den > 0 && r != q
    ensures den * r - den * q >= den || den * q - den * r >= den
  {
    if r > q {
      Larger(den, r, q);
    } else {
      Larger(den, q, r);
    }
  }

  /** The error term after `i` steps across and `j` steps up or down. */
  function ErrorAt(dx: int, dy: int, i: int, j: int): int {
    dx * (j + 1) - dy * (i + 1)
  }

  lemma ErrorSteps(dx: int, dy: int, i: int, j: int)
    ensures ErrorAt(dx, dy, i + 1, j) == ErrorAt(dx, dy, i, j) - dy
    ensures ErrorAt(dx, dy, i, j + 1) == ErrorAt(dx, dy, i, j) + dx
  {
    assert dy * (i + 1 + 1) == dy * (i + 1) + dy && dx * (j + 1 + 1) == dx * (j + 1) + dx;
  }

  lemma ShallowStep(dx: int, dy: int, n: int, j: int)
    requires dx > 0 && 0 <= dy <= dx && Near(dx, dy * n, j)
    ensures var e := ErrorAt(dx, dy, n, j);
      && 2 * e >= -dy
      && (2 * e <= dx ==> Near(dx, dy * (n + 1), j + 1))
      && (2 * e > dx ==> Near(dx, dy * (n + 1), j))
  {
    assert dx * (j + 1) == dx * j + dx && dy * (n + 1) == dy * n + dy;
  }

  lemma SteepStep(dx: int, dy: int, n: int, i: int)
    requires 0 <= dx < dy && Near(dy, dx * n, i)
    ensures var e := ErrorAt(dx, dy, i, n);
      && 2 * e <= dx
      && (2 * e >= -dy ==> Near(dy, dx * (n + 1), i + 1))
      && (2 * e < -dy ==> Near(dy, dx * (n + 1), i))
  {
    assert dx * (n + 1) == dx * n + dx && dy * (i + 1) == dy * i + dy;
  }

  /** Which way the loop steps from the `n`th pixel. */
  lemma StepAdvances(dx: nat, dy: nat, n: nat)
    requires dx + dy > 0
    ensures var (i, j) := Advance(dx, dy, n);
      var twice := 2 * ErrorAt(dx, dy, i, j);
      Advance(dx, dy, n + 1) == (if twice + dy >= 0 then i + 1 else i, if twice <= dx then j + 1 else j)
  {
    var (i, j) := Advance(dx, dy, n);
    if dx >= dy {
      RoundedIff(dy * n, dx, j);
      ShallowStep(dx, dy, n, j);
      RoundedIff(dy * (n + 1), dx, if 2 * ErrorAt(dx, dy, i, j) <= dx then j + 1 else j);
    } else {
      RoundedIff(dx * n, dy, i);
      SteepStep(dx, dy, n, i);
      RoundedIff(dx * (n + 1), dy, if 2 * ErrorAt(dx, dy, i, j) + dy >= 0 then i + 1 else i);
    }
  }

  lemma NearBetween(num: int, den: int, top: int, r: int)
    requires den > 0 && 0 <= num <= den * top && Near(den, num, r)
    ensures 0 <= r <= top
  {
    if r < 0 {
      Larger(den, 0, r);
    } else if r > top {
      Larger(den, r, top);
    }
  }

  lemma RoundedBetween(num: int, den: int, top: int)
    requires den > 0 && 0 <= num <= den * top
    ensures 0 <= Rounded(num, den) <= top
    ensures num == den * top ==> Rounded(num, den) == top
  {
    RoundedIff(num, den, Rounded(num, den));
    NearBetween(num, den, top, Rounded(num, den));
    if num == den * top {
      RoundedIff(num, den, top);
    }
  }

  lemma ProductGrows(f: nat, a: nat, b: nat)
    requires a <= b
    ensures 0 <= f * a <= f * b
  {
    Product(f, a);
    Product(f, b - a);
    Distribute(f, b, a);
  }

  /** No pixel lies past either end on either axis; the last one is the end. */
  lemma AdvanceStays(dx: nat, dy: nat, n: nat)
    requires n <= dx || n <= dy
    ensures var (i, j) := Advance(dx, dy, n);
      && 0 <= i <= dx && 0 <= j <= dy
      && ((i, j) == (dx, dy) <==> n == (if dx >= dy then dx else dy) || (dx == 0 && dy == 0))
  {
    if dx + dy > 0 {
      if dx >= dy {
        ProductGrows(dy, n, dx);
        assert dy * dx == dx * dy;
        RoundedBetween(dy * n, dx, dy);
      } else {
        ProductGrows(dx, n, dy);
        assert dx * dy == dy * dx;
        RoundedBetween(dx * n, dy, dx);
      }
    }
  }

  // ----- the line

  /** Bresenham's loop. It ends, and has then coloured exactly the pixels of the segment. */
  method Line(pixels: array<byte>, a: Point, b: Point, c: Color)
    requires pixels.Length == SIZE
    modifies pixels
    ensures forall k | 0 <= k < SIZE ::
      pixels[k] == if Hit(a, b, Long(a, b) + 1, PointOf(k)) then Channel(c, k) else old(pixels[k])
  {
    var x0, y0 := a.x, a.y;
    var dx: int, dy: int := Width(a, b), 0 - Height(a, b);
    var sx := if a.x < b.x then 1 else -1;
    var sy := if a.y < b.y then 1 else -1;
    var error := dx + dy;
    ghost var n, i, j := 0, 0, 0;
    RoundedIff(0, if dx >= -dy && dx > 0 then dx else if -dy > 0 then -dy else 1, 0);
    while true
      invariant 0 <= n <= Long(a, b) && (i, j) == Advance(dx, -dy, n)
      invariant x0 == Toward(a.x, b.x, i) && y0 == Toward(a.y, b.y, j)
      invariant error == ErrorAt(dx, -dy, i, j)
      invariant forall k | 0 <= k < SIZE :: pixels[k] == if Hit(a, b, n, PointOf(k)) then Channel(c, k) else old(pixels[k])
      decreases Long(a, b) - n
    {
      assert Point(x0, y0) == PixelAt(a, b, n);
      Put(pixels, Point(x0, y0), c);
      HitNext(a, b, n);
      AdvanceStays(dx, -dy, n);
      EndIff(a, b, n);
      if x0 == b.x && y0 == b.y {
        return;
      }
      StepAdvances(dx, -dy, n);
      var twice := 2 * error;
      ErrorSteps(dx, -dy, i, j);
      if twice >= dy {
        error, x0 := error + dy, x0 + sx;
        i := i + 1;
      }
      ErrorSteps(dx, -dy, i, j);
      if twice <= dx {
        error, y0 := error + dx, y0 + sy;
        j := j + 1;
      }
      n := n + 1;
    }
  }

  lemma HitNext(a: Point, b: Point, n: nat)
    ensures forall p :: Hit(a, b, n + 1, p) <==> Hit(a, b, n, p) || PixelAt(a, b, n) == p
  {
    forall p
      ensures Hit(a, b, n + 1, p) <==> Hit(a, b, n, p) || PixelAt(a, b, n) == p
    {
      if Hit(a, b, n, p) {
        var m :| 0 <= m < n && PixelAt(a, b, m) == p;
        assert 0 <= m < n + 1;
      }
    }
  }

  lemma EndIff(a: Point, b: Point, n: nat)
    requires n <= Long(a, b)
    ensures PixelAt(a, b, n) == b <==> n == Long(a, b)
  {
    AdvanceStays(Width(a, b), Height(a, b), n);
  }

  // ----- what the pixels of a segment are

  /** A segment has as many pixels as its longer axis is long, plus one, all different, from end to end, and
      each is within half a pixel of the segment: along the longer axis it is exactly `n` steps on, along the
      other at most half a step from where the segment is. */
  lemma SegmentPixels(a: Point, b: Point, n: nat)
    requires n <= Long(a, b)
    ensures var dx, dy, p := Width(a, b), Height(a, b), PixelAt(a, b, n);
      && (n == 0 ==> p == a)
      && (p == b <==> n == Long(a, b))
      && Abs(p.x - a.x) + Abs(b.x - p.x) == dx && Abs(p.y - a.y) + Abs(b.y - p.y) == dy
      && (dx >= dy ==> Abs(p.x - a.x) == n && 2 * Abs(dx * Abs(p.y - a.y) - dy * n) <= dx)
      && (dx < dy ==> Abs(p.y - a.y) == n && 2 * Abs(dy * Abs(p.x - a.x) - dx * n) <= dy)
  {
    var dx, dy := Width(a, b), Height(a, b);
    EndIff(a, b, n);
    AdvanceStays(dx, dy, n);
    if dx + dy > 0 {
      AdvanceStays(dx, dy, 0);
      var (i, j) := Advance(dx, dy, n);
      if dx >= dy {
        RoundedIff(dy * n, dx, j);
        RoundedIff(0, dx, 0);
      } else {
        RoundedIff(dx * n, dy, i);
        RoundedIff(0, dy, 0);
      }
    }
  }

  lemma PixelsDiffer(a: Point, b: Point, m: nat, n: nat)
    requires m < n <= Long(a, b)
    ensures PixelAt(a, b, m) != PixelAt(a, b, n)
  {
    SegmentPixels(a, b, m);
    SegmentPixels(a, b, n);
  }

  // ----- the whole preview

  datatype Spot = Spot(x: real, y: real)

  /** Truncation toward zero. */
  function Truncated(v: real): int {
    if v >= 0.0 then v.Floor else -((-v).Floor)
  }

  datatype Box = Box(xlo: real, xhi: real, ylo: real, yhi: real)

  function Grown(b: Box, s: Spot): Box {
    Box(if s.x < b.xlo then s.x else b.xlo, if s.x > b.xhi then s.x else b.xhi,
        if s.y < b.ylo then s.y else b.ylo, if s.y > b.yhi then s.y else b.yhi)
  }

  /** The smallest box around some points. */
  function Around(spots: seq<Spot>): Box
    requires spots != []
  {
    var n := |spots| - 1;
    if n == 0 then Box(spots[0].x, spots[0].x, spots[0].y, spots[0].y) else Grown(Around(spots[..n]), spots[n])
  }

  function Scale(room: real, lo: real, hi: real): real {
    if hi != lo then room / (hi - lo) else 1.0
  }

  /** How far into `room` a value is that lies between `lo` and `hi`. */
  function Share(v: real, lo: real, hi: real, room: real): real {
    (v - lo) * Scale(room, lo, hi)
  }

  function Across(v: real, lo: real, hi: real): int {
    Truncated(70.0 + Share(v, lo, hi, 780.0))
  }

  function Up(v: real, lo: real, hi: real): int {
    Truncated(420.0 - Share(v, lo, hi, 380.0))
  }

  function Scaled(b: Box, s: Spot): Point {
    Point(Across(s.x, b.xlo, b.xhi), Up(s.y, b.ylo, b.yhi))
  }

  function Path(b: Box, side: seq<Spot>): seq<Point> {
    seq(|side|, i requires 0 <= i < |side| => Scaled(b, side[i]))
  }

  predicate Contains(b: Box, s: Spot) {
    b.xlo <= s.x <= b.xhi && b.ylo <= s.y <= b.yhi
  }

  lemma {:induction false} AroundContains(spots: seq<Spot>, i: nat)
    requires i < |spots|
    ensures Contains(Around(spots), spots[i])
  {
    var n := |spots| - 1;
    if i < n {
      AroundContains(spots[..n], i);
    }
  }

  lemma ScaleStays(v: real, lo: real, hi: real, room: real)
    requires lo <= v <= hi && room > 0.0
    ensures 0.0 <= Share(v, lo, hi, room) <= room
  {
    if lo < hi {
      var whole, part := hi - lo, v - lo;
      var s := room / whole;
      assert s * whole == room;
      assert s > 0.0 by {
        if s <= 0.0 {
          RealProduct(-s, whole);
        }
      }
      RealProduct(s, part);
      RealProduct(s, whole - part);
      assert s * (whole - part) == s * whole - s * part;
    }
  }

  lemma RealProduct(a: real, b: real)
    requires a >= 0.0 && b >= 0.0
    ensures a * b >= 0.0
  {
  }

  lemma TruncatedBetween(v: real, lo: nat, hi: nat)
    requires lo as real <= v <= hi as real
    ensures lo <= Truncated(v) <= hi
  {
  }

  lemma AcrossStays(v: real, lo: real, hi: real)
    requires lo <= v <= hi
    ensures 70 <= Across(v, lo, hi) <= 850
  {
    var share := Share(v, lo, hi, 780.0);
    ScaleStays(v, lo, hi, 780.0);
    TruncatedBetween(70.0 + share, 70, 850);
  }

  lemma UpStays(v: real, lo: real, hi: real)
    requires lo <= v <= hi
    ensures 40 <= Up(v, lo, hi) <= 420
  {
    var share := Share(v, lo, hi, 380.0);
    ScaleStays(v, lo, hi, 380.0);
    TruncatedBetween(420.0 - share, 40, 420);
  }

  /** Points in the box are scaled into the drawing area. */
  lemma ScaledInside(b: Box, s: Spot)
    requires Contains(b, s)
    ensures var p := Scaled(b, s); 70 <= p.x <= 850 && 40 <= p.y <= 420
  {
    AcrossStays(s.x, b.xlo, b.xhi);
    UpStays(s.y, b.ylo, b.yhi);
  }

  /** Some segment between neighbouring points of a path has the pixel. */
  predicate OnPath(path: seq<Point>, p: Point) {
    OnFirst(path, |path|, p)
  }

  predicate OnFirst(path: seq<Point>, n: nat, p: Point)
    requires n <= |path|
  {
    exists s :: 0 < s < n && Hit(path[s - 1], path[s], Long(path[s - 1], path[s]) + 1, p)
  }

  method DrawPath(pixels: array<byte>, path: seq<Point>, c: Color)
    requires pixels.Length == SIZE
    modifies pixels
    ensures forall k | 0 <= k < SIZE :: pixels[k] == if OnPath(path, PointOf(k)) then Channel(c, k) else old(pixels[k])
  {
    if path == [] {
      return;
    }
    for n := 1 to |path|
      invariant forall k | 0 <= k < SIZE :: pixels[k] == if OnFirst(path, n, PointOf(k)) then Channel(c, k) else old(pixels[k])
    {
      Line(pixels, path[n - 1], path[n], c);
      FirstGrows(path, n);
    }
  }

  lemma FirstGrows(path: seq<Point>, n: nat)
    requires 0 < n < |path|
    ensures forall p :: OnFirst(path, n + 1, p) <==>
      OnFirst(path, n, p) || Hit(path[n - 1], path[n], Long(path[n - 1], path[n]) + 1, p)
  {
    forall p
      ensures OnFirst(path, n + 1, p) <==>
        OnFirst(path, n, p) || Hit(path[n - 1], path[n], Long(path[n - 1], path[n]) + 1, p)
    {
      if OnFirst(path, n, p) {
        var s :| 0 < s < n && Hit(path[s - 1], path[s], Long(path[s - 1], path[s]) + 1, p);
        assert 0 < s < n + 1;
      }
    }
  }

  const WHITE: byte := 255

  const BLUE := Color(30, 95, 190)

  const RED := Color(210, 75, 45)

  function BoxOf(left: seq<Spot>, right: seq<Spot>): Box
    requires left + right != []
  {
    Around(left + right)
  }

  /** The preview of two paths: the right one over the left one on white. Without any point there is no box,
      and nothing is drawn. */
  method DrawTrajectory(left: seq<Spot>, right: seq<Spot>) returns (pixels: array?<byte>)
    ensures pixels == null <==> left + right == []
    ensures pixels != null ==> fresh(pixels) && pixels.Length == SIZE && forall k | 0 <= k < SIZE ::
      pixels[k] == if OnPath(Path(BoxOf(left, right), right), PointOf(k)) then Channel(RED, k)
                   else if OnPath(Path(BoxOf(left, right), left), PointOf(k)) then Channel(BLUE, k)
                   else WHITE
  {
    if left + right == [] {
      return null;
    }
    var box := Around(left + right);
    var image := new byte[SIZE](_ => WHITE);
    DrawPath(image, Path(box, left), BLUE);
    DrawPath(image, Path(box, right), RED);
    return image;
  }

  lemma HitInside(a: Point, b: Point, p: Point)
    requires 70 <= a.x <= 850 && 40 <= a.y <= 420 && 70 <= b.x <= 850 && 40 <= b.y <= 420
    requires Hit(a, b, Long(a, b) + 1, p)
    ensures 70 <= p.x <= 850 && 40 <= p.y <= 420
  {
    var m :| 0 <= m < Long(a, b) + 1 && PixelAt(a, b, m) == p;
    SegmentPixels(a, b, m);
  }

  lemma PathInside(b: Box, side: seq<Spot>, p: Point)
    requires forall i | 0 <= i < |side| :: Contains(b, side[i])
    requires OnPath(Path(b, side), p)
    ensures 70 <= p.x <= 850 && 40 <= p.y <= 420
  {
    var path := Path(b, side);
    var s :| 0 < s < |path| && Hit(path[s - 1], path[s], Long(path[s - 1], path[s]) + 1, p);
    ScaledInside(b, side[s]);
    ScaledInside(b, side[s - 1]);
    HitInside(path[s - 1], path[s], p);
  }

  lemma BoxContains(left: seq<Spot>, right: seq<Spot>)
    requires left + right != []
    ensures forall i | 0 <= i < |left| :: Contains(BoxOf(left, right), left[i])
    ensures forall i | 0 <= i < |right| :: Contains(BoxOf(left, right), right[i])
  {
    var all := left + right;
    forall i: nat | i < |left|
      ensures Contains(BoxOf(left, right), left[i])
    {
      AroundContains(all, i);
    }
    forall i: nat | i < |right|
      ensures Contains(BoxOf(left, right), right[i])
    {
      AroundContains(all, |left| + i);
    }
  }

  /** Every pixel of either path lies in the drawing area, so no write is ever clipped or outside the buffer. */
  lemma TrajectoryInside(left: seq<Spot>, right: seq<Spot>, p: Point)
    requires left + right != []
    requires OnPath(Path(BoxOf(left, right), left), p) || OnPath(Path(BoxOf(left, right), right), p)
    ensures 70 <= p.x <= 850 && 40 <= p.y <= 420 && OnImage(p) && 0 <= Offset(p) <= SIZE - 3
  {
    var box := BoxOf(left, right);
    BoxContains(left, right);
    if OnPath(Path(box, left), p) {
      PathInside(box, left, p);
    } else {
      PathInside(box, right, p);
    }
  }

  // ----- where a point is drawn

  /** The box touches its points on every side. */
  predicate Tight(b: Box, spots: seq<Spot>) {
    && (exists i :: 0 <= i < |spots| && spots[i].x == b.xlo) && (exists i :: 0 <= i < |spots| && spots[i].x == b.xhi)
    && (exists i :: 0 <= i < |spots| && spots[i].y == b.ylo) && (exists i :: 0 <= i < |spots| && spots[i].y == b.yhi)
  }

  lemma TightGrows(b: Box, spots: seq<Spot>, s: Spot)
    requires Tight(b, spots)
    ensures Tight(Grown(b, s), spots + [s])
  {
    var all, g := spots + [s], Grown(b, s);
    assert all[|spots|] == s;
    var i :| 0 <= i < |spots| && spots[i].x == b.xlo;
    var j :| 0 <= j < |spots| && spots[j].x == b.xhi;
    var k :| 0 <= k < |spots| && spots[k].y == b.ylo;
    var l :| 0 <= l < |spots| && spots[l].y == b.yhi;
    assert all[i].x == g.xlo || all[|spots|].x == g.xlo;
    assert all[j].x == g.xhi || all[|spots|].x == g.xhi;
    assert all[k].y == g.ylo || all[|spots|].y == g.ylo;
    assert all[l].y == g.yhi || all[|spots|].y == g.yhi;
  }

  lemma {:induction false} AroundIsTight(spots: seq<Spot>)
    requires spots != []
    ensures Tight(Around(spots), spots)
    decreases |spots|
  {
    var n := |spots| - 1;
    if n == 0 {
      assert spots[0].x == Around(spots).xlo && spots[0].y == Around(spots).ylo;
    } else {
      AroundIsTight(spots[..n]);
      TightGrows(Around(spots[..n]), spots[..n], spots[n]);
      assert spots[..n] + [spots[n]] == spots;
    }
  }

  /** `at` is the pixel of a value on an axis whose range `lo` to `hi` is drawn from pixel 0 to pixel `room`. */
  predicate Drawn(at: int, v: real, lo: real, hi: real, room: real) {
    var low := at as real;
    low * (hi - lo) <= (v - lo) * room < (low + 1.0) * (hi - lo)
  }

  lemma RealTimes(a: real, b: real, c: real)
    requires c > 0.0
    ensures a <= b ==> a * c <= b * c
    ensures a < b ==> a * c < b * c
  {
  }

  lemma ShareTimes(v: real, lo: real, hi: real, room: real)
    requires lo < hi
    ensures Share(v, lo, hi, room) * (hi - lo) == (v - lo) * room
  {
    var s := room / (hi - lo);
    assert s * (hi - lo) == room;
    assert (v - lo) * s * (hi - lo) == (v - lo) * (s * (hi - lo));
  }

  lemma AcrossShare(v: real, lo: real, hi: real)
    requires lo <= v <= hi
    ensures var low := (Across(v, lo, hi) - 70) as real; low <= Share(v, lo, hi, 780.0) < low + 1.0
  {
    ScaleStays(v, lo, hi, 780.0);
  }

  lemma UpShare(v: real, lo: real, hi: real)
    requires lo <= v <= hi
    ensures var high := (420 - Up(v, lo, hi)) as real; high - 1.0 < Share(v, lo, hi, 380.0) <= high
  {
    ScaleStays(v, lo, hi, 380.0);
  }

  lemma NoMore(a: real, b: real, c: real, whole: real)
    requires c > 0.0 && a <= b && b * c == whole
    ensures a * c <= whole
  {
    RealTimes(a, b, c);
  }

  lemma Less(a: real, b: real, c: real, whole: real)
    requires c > 0.0 && a < b && b * c == whole
    ensures a * c < whole
  {
    RealTimes(a, b, c);
  }

  lemma NoLess(a: real, b: real, c: real, whole: real)
    requires c > 0.0 && a <= b && a * c == whole
    ensures whole <= b * c
  {
    RealTimes(a, b, c);
  }

  lemma More(a: real, b: real, c: real, whole: real)
    requires c > 0.0 && a < b && a * c == whole
    ensures whole < b * c
  {
    RealTimes(a, b, c);
  }

  lemma AcrossDrawn(v: real, lo: real, hi: real)
    requires lo <= v <= hi
    ensures lo < hi ==> Drawn(Across(v, lo, hi) - 70, v, lo, hi, 780.0)
    ensures lo == hi ==> Across(v, lo, hi) == 70
  {
    if lo < hi {
      ShareTimes(v, lo, hi, 780.0);
      AcrossShare(v, lo, hi);
      NoMore((Across(v, lo, hi) - 70) as real, Share(v, lo, hi, 780.0), hi - lo, (v - lo) * 780.0);
      More(Share(v, lo, hi, 780.0), (Across(v, lo, hi) - 70) as real + 1.0, hi - lo, (v - lo) * 780.0);
    }
  }

  /** Heights are drawn from the bottom up, and the fraction of a pixel is cut off downwards in the numbering of
      rows, which is upwards on the image. */
  predicate DrawnUp(row: int, v: real, lo: real, hi: real) {
    var high := (420 - row) as real;
    (high - 1.0) * (hi - lo) < (v - lo) * 380.0 <= high * (hi - lo)
  }

  lemma UpDrawn(v: real, lo: real, hi: real)
    requires lo <= v <= hi
    ensures lo < hi ==> DrawnUp(Up(v, lo, hi), v, lo, hi)
    ensures lo == hi ==> Up(v, lo, hi) == 420
  {
    if lo < hi {
      ShareTimes(v, lo, hi, 380.0);
      UpShare(v, lo, hi);
      NoLess(Share(v, lo, hi, 380.0), (420 - Up(v, lo, hi)) as real, hi - lo, (v - lo) * 380.0);
      Less((420 - Up(v, lo, hi)) as real - 1.0, Share(v, lo, hi, 380.0), hi - lo, (v - lo) * 380.0);
    }
  }

  /** Where a point of either path is drawn: the least value of all points at column 70 and the greatest at 850,
      the least height in row 420 and the greatest in row 40, and in proportion between them. */
  lemma PointsPlaced(left: seq<Spot>, right: seq<Spot>, s: Spot)
    requires s in left + right
    ensures var all, b := left + right, BoxOf(left, right);
      && Tight(b, all) && (forall i | 0 <= i < |all| :: Contains(b, all[i]))
    ensures var p, b := Scaled(BoxOf(left, right), s), BoxOf(left, right);
      && (if b.xlo < b.xhi then Drawn(p.x - 70, s.x, b.xlo, b.xhi, 780.0) else p.x == 70)
      && (if b.ylo < b.yhi then DrawnUp(p.y, s.y, b.ylo, b.yhi) else p.y == 420)
  {
    var all, b := left + right, BoxOf(left, right);
    AroundIsTight(all);
    forall i: nat | i < |all|
      ensures Contains(b, all[i])
    {
      AroundContains(all, i);
    }
    assert Contains(b, s);
    AcrossDrawn(s.x, b.xlo, b.xhi);
    UpDrawn(s.y, b.ylo, b.yhi);
  }
}
