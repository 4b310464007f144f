/** One firework particle: a fan of points around a center that spins,
    shrinks, drifts and falls. The point set and the motion state are fields
    that the methods update in place, as the C++ members are. */
module Particles {
  import opened Matrices
  import opened TransformMatrices
  import opened ParticleMotion
  import opened Random

  /** An 8-bit RGB colour. */
  datatype Rgb = Rgb(red: nat, green: nat, blue: nat)

  const WHITE: Rgb := Rgb(255, 255, 255)

  /** The linear map of a 2 x 2 matrix applied to one offset. */
  function Apply(m: Matrix, v: Vec2): Vec2
    requires m.Valid() && m.rows == 2 && m.cols == 2
  {
    Vec2(m.At(0, 0) * v.x + m.At(0, 1) * v.y, m.At(1, 0) * v.x + m.At(1, 1) * v.y)
  }

  /** For one column: the two cells of the product are m applied to the
      column. */
  lemma ProductColumn(m: Matrix, a: Matrix, prod: Matrix, j: nat)
    requires IsPointSet(a) && m.Valid() && m.rows == 2 && m.cols == 2
    requires IsPointSet(prod) && prod.cols == a.cols && j < a.cols
    requires prod.At(0, j) == Dot(m, a, 0, j, 2) && prod.At(1, j) == Dot(m, a, 1, j, 2)
    ensures Column(prod, j) == Apply(m, Column(a, j))
  {
    var x, y := a.At(0, j), a.At(1, j);
    assert prod.At(0, j) == m.At(0, 0) * x + m.At(0, 1) * y by { DotOfTwo(m, a, 0, j); }
    assert prod.At(1, j) == m.At(1, 0) * x + m.At(1, 1) * y by { DotOfTwo(m, a, 1, j); }
    assert Apply(m, Column(a, j)) == Vec2(m.At(0, 0) * x + m.At(0, 1) * y, m.At(1, 0) * x + m.At(1, 1) * y);
  }

  /** Multiplying by a 2 x 2 matrix on the left applies its linear map to
      every point. */
  lemma ProductColumns(m: Matrix, a: Matrix, prod: Matrix)
    requires IsPointSet(a) && m.Valid() && m.rows == 2 && m.cols == 2
    requires IsPointSet(prod) && prod.cols == a.cols
    requires forall i, j :: 0 <= i < 2 && 0 <= j < a.cols ==> prod.At(i, j) == Dot(m, a, i, j, 2)
    ensures forall j :: 0 <= j < a.cols ==> Column(prod, j) == Apply(m, Column(a, j))
  {
    forall j | 0 <= j < a.cols
      ensures Column(prod, j) == Apply(m, Column(a, j))
    {
      ProductColumn(m, a, prod, j);
    }
  }

  /** The rotation matrix applied to an offset turns it. */
  lemma ApplyRotation(c: real, s: real, v: Vec2)
    ensures Apply(Rotation(c, s), v) == v.Turned(c, s)
  {
  }

  /** The scaling matrix applied to an offset stretches it. */
  lemma ApplyScaling(k: real, v: Vec2)
    ensures Apply(Scaling(k), v) == v.Times(k)
  {
  }

  /** `r * a` for the rotation matrix r of (c, s): every point of a turned
      about the origin. */
  method TurnAtOrigin(r: Matrix, a: Matrix, ghost c: real, ghost s: real) returns (p: Matrix)
    requires IsPointSet(a) && r == Rotation(c, s)
    ensures p == RotatedAbout(a, c, s, ORIGIN)
  {
    p := Multiply(r, a);
    ProductColumns(r, a, p);
    forall j | 0 <= j < a.cols
      ensures Column(p, j) == Column(RotatedAbout(a, c, s, ORIGIN), j)
    {
      ApplyRotation(c, s, Column(a, j));
      assert Column(a, j).Minus(ORIGIN) == Column(a, j);
    }
    SamePoints(p, RotatedAbout(a, c, s, ORIGIN));
  }

  /** `m * a` for the scaling matrix m of k: every point of a scaled about
      the origin. */
  method ScaleAtOrigin(m: Matrix, a: Matrix, k: real) returns (p: Matrix)
    requires IsPointSet(a) && m == Scaling(k)
    ensures p == ScaledAbout(a, k, ORIGIN)
  {
    p := Multiply(m, a);
    ProductColumns(m, a, p);
    forall j | 0 <= j < a.cols
      ensures Column(p, j) == Column(ScaledAbout(a, k, ORIGIN), j)
    {
      ApplyScaling(k, Column(a, j));
      assert Column(a, j).Minus(ORIGIN) == Column(a, j);
    }
    SamePoints(p, ScaledAbout(a, k, ORIGIN));
  }

  /** Moving the points by -o, turning them about the origin and moving them
      back by o turns them about o. */
  lemma TurnConjugated(a0: Matrix, a1: Matrix, a2: Matrix, a3: Matrix, c: real, s: real, o: Vec2)
    requires IsPointSet(a0) && a1 == Translated(a0, Vec2(-o.x, -o.y))
    requires a2 == RotatedAbout(a1, c, s, ORIGIN) && a3 == Translated(a2, Vec2(o.x, o.y))
    ensures a3 == RotatedAbout(a0, c, s, o)
  {
    forall j | 0 <= j < a0.cols
      ensures Column(a3, j) == Column(RotatedAbout(a0, c, s, o), j)
    {
      assert Column(a1, j).Minus(ORIGIN) == Column(a0, j).Minus(o);
    }
    SamePoints(a3, RotatedAbout(a0, c, s, o));
  }

  /** The same for scaling: scaling about the origin between the two moves
      scales about o. */
  lemma ScaleConjugated(a0: Matrix, a1: Matrix, a2: Matrix, a3: Matrix, k: real, o: Vec2)
    requires IsPointSet(a0) && a1 == Translated(a0, Vec2(-o.x, -o.y))
    requires a2 == ScaledAbout(a1, k, ORIGIN) && a3 == Translated(a2, Vec2(o.x, o.y))
    ensures a3 == ScaledAbout(a0, k, o)
  {
    forall j | 0 <= j < a0.cols
      ensures Column(a3, j) == Column(ScaledAbout(a0, k, o), j)
    {
      assert Column(a1, j).Minus(ORIGIN) == Column(a0, j).Minus(o);
    }
    SamePoints(a3, ScaledAbout(a0, k, o));
  }

  /** |a - b| < eps, with the absolute value written out: a lies strictly
      inside the interval of radius eps around b, which needs eps > 0. */
  function AlmostEqual(a: real, b: real, eps: real): (r: bool)
    ensures r <==> b - eps < a < b + eps
    ensures r ==> 0.0 < eps
  {
    (if a - b < 0.0 then b - a else a - b) < eps
  }

  /** Every one of the first n points of `after` is within eps, coordinate by
      coordinate, of f applied to the same point of `before`. */
  ghost predicate MappedWithin(before: Matrix, after: Matrix, f: Vec2 -> Vec2, eps: real, n: nat)
    requires IsPointSet(before) && IsPointSet(after) && n <= before.cols <= after.cols
  {
    forall j :: 0 <= j < n ==>
      AlmostEqual(Column(after, j).x, f(Column(before, j)).x, eps) &&
      AlmostEqual(Column(after, j).y, f(Column(before, j)).y, eps)
  }

  /** The three expected mappings of the self-test. */
  function QuarterTurn(p: Vec2): Vec2 { Vec2(-p.y, p.x) }
  function Halved(p: Vec2): Vec2 { Vec2(0.5 * p.x, 0.5 * p.y) }
  function ShiftedBy10And5(p: Vec2): Vec2 { Vec2(10.0 + p.x, 5.0 + p.y) }

  /** What the self-test scores on a particle with points a0 and center o:
      three for the transform constructors (each passes exactly when the
      tolerance is positive, since it compares a value with itself), one when
      the center is the origin, and one for each of the quarter turn, the
      halving and the shift (10, 5) that land within eps of the expected points. */
  ghost function SelfTestScore(a0: Matrix, o: Vec2, cos: real -> real, sin: real -> real, eps: real): nat
    requires IsPointSet(a0)
  {
    var a1 := RotatedAbout(a0, cos(PI / 2.0), sin(PI / 2.0), o);
    var a2 := ScaledAbout(a1, 0.5, o);
    var a3 := Translated(a2, Vec2(10.0, 5.0));
    (if 0.0 < eps then 3 else 0)
    + (if o == ORIGIN then 1 else 0)
    + (if MappedWithin(a0, a1, QuarterTurn, eps, a0.cols) then 1 else 0)
    + (if MappedWithin(a1, a2, Halved, eps, a0.cols) then 1 else 0)
    + (if MappedWithin(a2, a3, ShiftedBy10And5, eps, a0.cols) then 1 else 0)
  }

  /** A particle created at the origin, with a positive tolerance and exact
      cos(PI / 2) = 0 and sin(PI / 2) = 1, scores 7 out of 7. */
  lemma SelfTestPassesAtOrigin(a0: Matrix, cos: real -> real, sin: real -> real, eps: real)
    requires IsPointSet(a0) && 0.0 < eps
    requires cos(PI / 2.0) == 0.0 && sin(PI / 2.0) == 1.0
    ensures SelfTestScore(a0, ORIGIN, cos, sin, eps) == 7
  {
    var a1 := RotatedAbout(a0, 0.0, 1.0, ORIGIN);
    var a2 := ScaledAbout(a1, 0.5, ORIGIN);
    var a3 := Translated(a2, Vec2(10.0, 5.0));
    QuarterTurnAboutOrigin(a0);
    HalfScaleAboutOrigin(a1);
    assert MappedWithin(a0, a1, QuarterTurn, eps, a0.cols);
    assert MappedWithin(a1, a2, Halved, eps, a0.cols);
    assert MappedWithin(a2, a3, ShiftedBy10And5, eps, a0.cols);
  }

  /** Away from the origin the origin check fails, so the score is at most 6. */
  lemma SelfTestFailsOffOrigin(a0: Matrix, o: Vec2, cos: real -> real, sin: real -> real, eps: real)
    requires IsPointSet(a0) && o != ORIGIN
    ensures SelfTestScore(a0, o, cos, sin, eps) <= 6
  {
  }

  /** The first three checks of the self-test: the rotation matrix of
      PI / 4, the scaling matrix of 1.5 and the 2 x 3 translation matrix of
      (5, -5), each compared cell by cell with what it should hold. Each
      compares a value with itself, so each passes exactly when the tolerance
      is positive. */
  method CheckTransformConstructors(cos: real -> real, sin: real -> real, eps: real) returns (passed: nat)
    ensures passed == if 0.0 < eps then 3 else 0
  {
    passed := 0;
    var theta := PI / 4.0;
    var r := RotationMatrix(PI / 4.0, cos, sin);
    if r.rows == 2 && r.cols == 2 && AlmostEqual(r.At(0, 0), cos(theta), eps)
       && AlmostEqual(r.At(0, 1), -sin(theta), eps)
       && AlmostEqual(r.At(1, 0), sin(theta), eps)
       && AlmostEqual(r.At(1, 1), cos(theta), eps) {
      passed := passed + 1;
    }
    var s := ScalingMatrix(1.5);
    if s.rows == 2 && s.cols == 2
       && AlmostEqual(s.At(0, 0), 1.5, eps)
       && AlmostEqual(s.At(0, 1), 0.0, eps)
       && AlmostEqual(s.At(1, 0), 0.0, eps)
       && AlmostEqual(s.At(1, 1), 1.5, eps) {
      passed := passed + 1;
    }
    var t := TranslationMatrix(5.0, -5.0, 3);
    if t.rows == 2 && t.cols == 3
       && AlmostEqual(t.At(0, 0), 5.0, eps)
       && AlmostEqual(t.At(1, 0), -5.0, eps)
       && AlmostEqual(t.At(0, 1), 5.0, eps)
       && AlmostEqual(t.At(1, 1), -5.0, eps)
       && AlmostEqual(t.At(0, 2), 5.0, eps)
       && AlmostEqual(t.At(1, 2), -5.0, eps) {
      passed := passed + 1;
    }
  }

  /** One mapping check of the self-test: walks every point of `before` and
      fails if any point of `after` is not within eps of its image. */
  method AllMapped(before: Matrix, after: Matrix, f: Vec2 -> Vec2, eps: real) returns (passed: bool)
    requires IsPointSet(before) && IsPointSet(after) && before.cols <= after.cols
    ensures passed <==> MappedWithin(before, after, f, eps, before.cols)
  {
    passed := true;
    for j := 0 to before.cols
      invariant passed <==> MappedWithin(before, after, f, eps, j)
    {
      var expected := f(Column(before, j));
      if !AlmostEqual(after.At(0, j), expected.x, eps) || !AlmostEqual(after.At(1, j), expected.y, eps) {
        passed := false;
      }
    }
  }

  /** The point set whose column c is vs[c]. */
  function PointsMatrix(vs: seq<Vec2>): (m: Matrix)
    ensures IsPointSet(m) && m.cols == |vs|
    ensures forall c :: 0 <= c < |vs| ==> Column(m, c) == vs[c]
  {
    Matrix(2, |vs|, [seq(|vs|, c requires 0 <= c < |vs| => vs[c].x), seq(|vs|, c requires 0 <= c < |vs| => vs[c].y)])
  }

  /** The first n vertices of the fan about click: vertex c lies at distance
      Radius(draws(base + c)) in the direction theta0 advanced c times by d. */
  ghost function Vertices(click: Vec2, draws: nat -> nat, base: nat, theta0: real, d: real,
                          cos: real -> real, sin: real -> real, n: nat): (vs: seq<Vec2>)
    ensures |vs| == n
  {
    if n == 0 then []
    else Vertices(click, draws, base, theta0, d, cos, sin, n - 1) +
         [Vertex(click, Radius(draws(base + n - 1)), Sweep(theta0, d, n - 1), cos, sin)]
  }

  /** Vertex c of the fan, whatever its length beyond c. */
  lemma {:induction false} VerticesAt(click: Vec2, draws: nat -> nat, base: nat, theta0: real, d: real,
                                      cos: real -> real, sin: real -> real, n: nat, c: nat)
    requires c < n
    ensures Vertices(click, draws, base, theta0, d, cos, sin, n)[c] ==
            Vertex(click, Radius(draws(base + c)), Sweep(theta0, d, c), cos, sin)
  {
    if c < n - 1 {
      VerticesAt(click, draws, base, theta0, d, cos, sin, n - 1, c);
    }
  }

  /** The fan of n vertices as a point set. */
  ghost function Fan(click: Vec2, draws: nat -> nat, base: nat, theta0: real, d: real,
                     cos: real -> real, sin: real -> real, n: nat): (a: Matrix)
    ensures IsPointSet(a) && a.cols == n
  {
    PointsMatrix(Vertices(click, draws, base, theta0, d, cos, sin, n))
  }

  /** Column c of the fan is vertex c. */
  lemma FanColumn(click: Vec2, draws: nat -> nat, base: nat, theta0: real, d: real,
                  cos: real -> real, sin: real -> real, n: nat, c: nat)
    requires c < n
    ensures Column(Fan(click, draws, base, theta0, d, cos, sin, n), c) ==
            Vertex(click, Radius(draws(base + c)), Sweep(theta0, d, c), cos, sin)
  {
    VerticesAt(click, draws, base, theta0, d, cos, sin, n, c);
  }

  /** The first j columns of the full matrix f, the others still 0: the
      vertex matrix after j passes of the vertex loop. */
  ghost function Prefix(f: Matrix, j: nat): (a: Matrix)
    requires IsPointSet(f)
    ensures IsPointSet(a) && a.cols == f.cols
  {
    Matrix(2, f.cols, [seq(f.cols, c requires 0 <= c < f.cols => if c < j then f.At(0, c) else 0.0),
                       seq(f.cols, c requires 0 <= c < f.cols => if c < j then f.At(1, c) else 0.0)])
  }

  /** No columns taken is the zero matrix; all of them is f itself. */
  lemma PrefixEnds(f: Matrix)
    requires IsPointSet(f)
    ensures Prefix(f, 0) == Zero(2, f.cols) && Prefix(f, f.cols) == f
  {
    IdenticalIffEqual(Prefix(f, 0), Zero(2, f.cols));
    IdenticalIffEqual(Prefix(f, f.cols), f);
  }

  /** Writing column j of f into the prefix of length j gives the prefix of
      length j + 1. */
  lemma PrefixGrows(f: Matrix, j: nat, v: Vec2)
    requires IsPointSet(f) && j < f.cols && v == Column(f, j)
    ensures Prefix(f, j).Set(0, j, v.x).Set(1, j, v.y) == Prefix(f, j + 1)
  {
    IdenticalIffEqual(Prefix(f, j).Set(0, j, v.x).Set(1, j, v.y), Prefix(f, j + 1));
  }

  /** One pass of the vertex loop: draws the radius of vertex j and writes
      the vertex, at that distance from click in direction theta, into
      column j. */
  method PlaceVertex(a: Matrix, j: nat, click: Vec2, rng: Rand, theta: real, ghost fan: Matrix,
                     ghost base: nat, ghost theta0: real, ghost d: real,
                     cos: real -> real, sin: real -> real) returns (b: Matrix)
    requires rng.Valid() && rng.pos == base + j && theta == Sweep(theta0, d, j)
    requires fan == Fan(click, rng.oracle, base, theta0, d, cos, sin, fan.cols) && j < fan.cols
    requires a == Prefix(fan, j)
    modifies rng
    ensures rng.Valid() && rng.pos == old(rng.pos) + 1
    ensures b == Prefix(fan, j + 1)
  {
    var radiusDraw := rng.Next();
    var vertex := Vertex(click, Radius(radiusDraw), theta, cos, sin);
    FanColumn(click, rng.oracle, base, theta0, d, cos, sin, fan.cols, j);
    PrefixGrows(fan, j, vertex);
    b := a.Set(0, j, vertex.x);
    b := b.Set(1, j, vertex.y);
  }

  /** The vertex loop of the particle constructor: vertex j is placed at a
      freshly drawn radius from click, in the direction theta0 advanced j
      times by d. */
  method DrawFan(numPoints: nat, click: Vec2, rng: Rand, theta0: real, d: real,
                 cos: real -> real, sin: real -> real) returns (a: Matrix)
    requires rng.Valid()
    modifies rng
    ensures rng.Valid() && rng.pos == old(rng.pos) + numPoints
    ensures a == Fan(click, rng.oracle, old(rng.pos), theta0, d, cos, sin, numPoints)
  {
    ghost var p0 := rng.pos;
    ghost var fan := Fan(click, rng.oracle, p0, theta0, d, cos, sin, numPoints);
    var theta := theta0;
    a := Zero(2, numPoints);
    PrefixEnds(fan);
    for j := 0 to numPoints
      invariant rng.Valid() && rng.pos == p0 + j
      invariant theta == Sweep(theta0, d, j)
      invariant a == Prefix(fan, j)
    {
      a := PlaceVertex(a, j, click, rng, theta, fan, p0, theta0, d, cos, sin);
      theta := theta + d;
    }
  }

  /** The draws a new particle makes before its vertices, in the order the
      constructor makes them: the spin, the horizontal speed and its sign,
      the vertical speed, the red, green and blue of the outer colour, and the
      angle of the first vertex. */
  method DrawTraits(rng: Rand) returns (spin: real, vx: real, vy: real, color: Rgb, theta0: real)
    requires rng.Valid()
    modifies rng
    ensures rng.Valid() && rng.pos == old(rng.pos) + 8
    ensures spin == Spin(rng.oracle(old(rng.pos)), rng.randMax)
    ensures vx == HorizontalVelocity(rng.oracle(old(rng.pos) + 1), rng.oracle(old(rng.pos) + 2))
    ensures vy == VerticalVelocity(rng.oracle(old(rng.pos) + 3))
    ensures color == Rgb(rng.oracle(old(rng.pos) + 4) % 256, rng.oracle(old(rng.pos) + 5) % 256,
                         rng.oracle(old(rng.pos) + 6) % 256)
    ensures theta0 == StartAngle(rng.oracle(old(rng.pos) + 7), rng.randMax)
  {
    var draw := rng.Next();
    spin := Spin(draw, rng.randMax);
    var speed := rng.Next();
    var sign := rng.Next();
    vx := HorizontalVelocity(speed, sign);
    var upward := rng.Next();
    vy := VerticalVelocity(upward);
    var red := rng.Next();
    var green := rng.Next();
    var blue := rng.Next();
    color := Rgb(red % 256, green % 256, blue % 256);
    var first := rng.Next();
    theta0 := StartAngle(first, rng.randMax);
  }

  class Particle {
    /** The number of vertices, one column of A each. */
    const numPoints: nat
    /** TTL, SCALE and G. */
    const tuning: Tuning
    /** Angular velocity, radians per second. */
    const spin: real
    /** Horizontal velocity. */
    const vx: real
    /** The colour of the center (white) and of the outer vertices. */
    const color1: Rgb
    const color2: Rgb
    /** Time to live, seconds. */
    var ttl: real
    /** Vertical velocity (gravity takes it down every tick). */
    var vy: real
    /** The center, in Cartesian coordinates. */
    var center: Vec2
    /** The vertices, column j being vertex j. */
    var A: Matrix

    ghost predicate Valid()
      reads this
    {
      IsPointSet(A) && A.cols == numPoints
    }

    /** The part of the particle that update reads and writes. */
    function State(): Snapshot
      reads this
    {
      Snapshot(A, center, ttl, spin, vx, vy)
    }

    /** A new particle at `click` (already in Cartesian coordinates) with
        numPoints vertices. From rng it draws, in order: the spin, the
        horizontal speed and its sign, the vertical speed, three colour
        components, the angle of the first vertex and one radius per vertex.
        Vertex j lies at its radius from the center in the direction of the
        first angle advanced j times by 2 PI / (numPoints - 1) (see
        SweepClosedForm). */
    constructor (numPoints: nat, click: Vec2, rng: Rand, tuning: Tuning,
                 cos: real -> real, sin: real -> real)
      requires rng.Valid()
      modifies rng
      ensures Valid() && this.numPoints == numPoints && this.tuning == tuning
      ensures rng.pos == old(rng.pos) + 8 + numPoints
      ensures center == click && ttl == tuning.lifetime
      ensures spin == Spin(rng.oracle(old(rng.pos)), rng.randMax)
      ensures vx == HorizontalVelocity(rng.oracle(old(rng.pos) + 1), rng.oracle(old(rng.pos) + 2))
      ensures vy == VerticalVelocity(rng.oracle(old(rng.pos) + 3))
      ensures color1 == WHITE
      ensures color2 == Rgb(rng.oracle(old(rng.pos) + 4) % 256, rng.oracle(old(rng.pos) + 5) % 256,
                            rng.oracle(old(rng.pos) + 6) % 256)
      ensures A == Fan(click, rng.oracle, old(rng.pos) + 8, StartAngle(rng.oracle(old(rng.pos) + 7), rng.randMax),
                       AngleStep(numPoints), cos, sin, numPoints)
    {
      var w, horizontal, vertical, color, theta0 := DrawTraits(rng);
      var dTheta := AngleStep(numPoints);
      var a := DrawFan(numPoints, click, rng, theta0, dTheta, cos, sin);
      this.numPoints := numPoints;
      this.tuning := tuning;
      spin := w;
      vx := horizontal;
      vy := vertical;
      color1 := WHITE;
      color2 := color;
      ttl := tuning.lifetime;
      center := click;
      A := a;
    }

    /** `translate(xShift, yShift)`: adds the translation matrix to A and
        moves the center by the same offset. */
    method Translate(xShift: real, yShift: real)
      requires Valid()
      modifies this`A, this`center
      ensures Valid()
      ensures A == Translated(old(A), Vec2(xShift, yShift))
      ensures center == Vec2(old(center).x + xShift, old(center).y + yShift)
    {
      var t := TranslationMatrix(xShift, yShift, A.cols);
      var moved := Add(t, A);
      SamePoints(moved, Translated(A, Vec2(xShift, yShift)));
      A := moved;
      center := Vec2(center.x + xShift, center.y + yShift);
    }

    /** `rotate(theta)`: moves the points so that the center is at the origin,
        multiplies by the rotation matrix and moves them back, so every point
        turns about the center, which stays where it is. */
    method Rotate(theta: real, cos: real -> real, sin: real -> real)
      requires Valid()
      modifies this`A, this`center
      ensures Valid()
      ensures A == RotatedAbout(old(A), cos(theta), sin(theta), old(center))
      ensures center == old(center)
    {
      ghost var c, s := cos(theta), sin(theta);
      var temp := center;
      Translate(-temp.x, -temp.y);
      ghost var moved := A;
      var r := RotationMatrix(theta, cos, sin);
      A := TurnAtOrigin(r, A, c, s);
      ghost var turned := A;
      Translate(temp.x, temp.y);
      TurnConjugated(old(A), moved, turned, A, c, s, temp);
    }

    /** `scale(k)`: the same, with the scaling matrix, so every point moves to
        k times its offset from the center. */
    method Scale(k: real)
      requires Valid()
      modifies this`A, this`center
      ensures Valid()
      ensures A == ScaledAbout(old(A), k, old(center))
      ensures center == old(center)
    {
      var temp := center;
      Translate(-temp.x, -temp.y);
      ghost var moved := A;
      var m := ScalingMatrix(k);
      A := ScaleAtOrigin(m, A, k);
      ghost var shrunk := A;
      Translate(temp.x, temp.y);
      ScaleConjugated(old(A), moved, shrunk, A, k, temp);
    }

    /** `update(dt)`: one tick, exactly as Step describes it. */
    method Update(dt: real, cos: real -> real, sin: real -> real)
      requires Valid()
      modifies this`A, this`center, this`ttl, this`vy
      ensures Valid()
      ensures State() == Step(old(State()), dt, tuning, cos(dt * spin), sin(dt * spin))
    {
      ghost var c, sn := cos(dt * spin), sin(dt * spin);
      ghost var s0 := State();
      ghost var turned := RotatedAbout(s0.points, c, sn, s0.center);
      ghost var shrunk := ScaledAbout(turned, tuning.shrink, s0.center);
      ttl := ttl - dt;
      Rotate(dt * spin, cos, sin);
      assert A == turned;
      Scale(tuning.shrink);
      assert A == shrunk && center == s0.center;
      var dx := vx * dt;
      vy := vy - tuning.gravity * dt;
      var dy := vy * dt;
      assert dx == s0.vx * dt && vy == s0.vy - tuning.gravity * dt && dy == vy * dt;
      ghost var s1 := Snapshot(Translated(shrunk, Vec2(dx, dy)), s0.center.Plus(Vec2(dx, dy)),
                               s0.ttl - dt, s0.spin, s0.vx, vy);
      assert Step(s0, dt, tuning, c, sn).center == s0.center.Plus(Vec2(dx, dy));
      assert Step(s0, dt, tuning, c, sn).points == Translated(shrunk, Vec2(dx, dy));
      assert Step(s0, dt, tuning, c, sn) == s1;
      Translate(dx, dy);
      assert State() == s1;
    }

    /** `unitTests()`: checks the three transform constructors, then that the
        center is the origin, then applies a quarter turn, a scale by 0.5 and
        a translation by (10, 5) to this particle and checks each against its
        expected mapping; the score counts the checks that pass. */
    method UnitTests(cos: real -> real, sin: real -> real, eps: real) returns (score: nat)
      requires Valid()
      modifies this`A, this`center
      ensures Valid()
      ensures score == SelfTestScore(old(A), old(center), cos, sin, eps)
      ensures A == Translated(ScaledAbout(RotatedAbout(old(A), cos(PI / 2.0), sin(PI / 2.0), old(center)),
                                          0.5, old(center)), Vec2(10.0, 5.0))
      ensures center == old(center).Plus(Vec2(10.0, 5.0))
    {
      ghost var a0, o := A, center;
      score := CheckTransformConstructors(cos, sin, eps);

      if center.x != 0.0 || center.y != 0.0 {
      } else {
        score := score + 1;
      }

      var initial := A;
      Rotate(PI / 2.0, cos, sin);
      var rotationPassed := AllMapped(initial, A, QuarterTurn, eps);
      if rotationPassed {
        score := score + 1;
      }

      initial := A;
      Scale(0.5);
      var scalePassed := AllMapped(initial, A, Halved, eps);
      if scalePassed {
        score := score + 1;
      }

      initial := A;
      Translate(10.0, 5.0);
      var translatePassed := AllMapped(initial, A, ShiftedBy10And5, eps);
      if translatePassed {
        score := score + 1;
      }
    }
  }
}
