/** The geometry and physics of one particle, as values: points of the
    Cartesian plane, the three ways a particle moves its point set (translate,
    rotate about its center, scale about its center), one tick of `update`,
    and the random draws that shape a new particle. */
module ParticleMotion {
  import opened Matrices

  /** M_PI from <cmath>. */
  const PI: real := 3.14159265358979323846

  /** A point (or an offset) of the Cartesian plane: origin at the center of
      the window, y growing upwards. */
  datatype Vec2 = Vec2(x: real, y: real) {
    function Plus(d: Vec2): Vec2 { Vec2(x + d.x, y + d.y) }
    function Minus(d: Vec2): Vec2 { Vec2(x - d.x, y - d.y) }
    function Neg(): Vec2 { Vec2(-x, -y) }
    function Times(k: real): Vec2 { Vec2(k * x, k * y) }
    /** This offset turned counter-clockwise by the angle with cos c and sin s. */
    function Turned(c: real, s: real): Vec2 { Vec2(c * x - s * y, s * x + c * y) }
    /** The squared length of this offset. */
    function Norm2(): real { x * x + y * y }
  }

  const ORIGIN: Vec2 := Vec2(0.0, 0.0)

  /** A 2 x n matrix read as n points: column j is (m(0, j), m(1, j)). */
  ghost predicate IsPointSet(m: Matrix) {
    m.Valid() && m.rows == 2
  }

  function Column(m: Matrix, j: nat): Vec2
    requires IsPointSet(m) && j < m.cols
  {
    Vec2(m.At(0, j), m.At(1, j))
  }

  /** The point set whose column j is f applied to column j of m. */
  function MapColumns(m: Matrix, f: Vec2 -> Vec2): (r: Matrix)
    requires IsPointSet(m)
    ensures IsPointSet(r) && r.cols == m.cols
    ensures forall j :: 0 <= j < m.cols ==> Column(r, j) == f(Column(m, j))
  {
    Matrix(2, m.cols, [seq(m.cols, j requires 0 <= j < m.cols => f(Column(m, j)).x),
                       seq(m.cols, j requires 0 <= j < m.cols => f(Column(m, j)).y)])
  }

  /** Point sets with the same points, column by column, are the same value. */
  lemma SamePoints(m: Matrix, n: Matrix)
    requires IsPointSet(m) && IsPointSet(n) && m.cols == n.cols
    requires forall j :: 0 <= j < m.cols ==> Column(m, j) == Column(n, j)
    ensures m == n
  {
    forall i, j | 0 <= i < 2 && 0 <= j < m.cols
      ensures m.At(i, j) == n.At(i, j)
    {
      assert Column(m, j) == Column(n, j);
    }
    IdenticalIffEqual(m, n);
  }

  // ---- the three motions of a point set -----------------------------------

  /** Every point shifted by d. */
  function Translated(m: Matrix, d: Vec2): (r: Matrix)
    requires IsPointSet(m)
    ensures IsPointSet(r) && r.cols == m.cols
  {
    MapColumns(m, (p: Vec2) => p.Plus(d))
  }

  /** p turned about o by the angle with cos c and sin s. */
  function RotateAbout(p: Vec2, c: real, s: real, o: Vec2): Vec2
  {
    o.Plus(p.Minus(o).Turned(c, s))
  }

  /** p moved to o + k * (p - o). */
  function ScaleAbout(p: Vec2, k: real, o: Vec2): Vec2
  {
    o.Plus(p.Minus(o).Times(k))
  }

  /** Every point turned about o. */
  function RotatedAbout(m: Matrix, c: real, s: real, o: Vec2): (r: Matrix)
    requires IsPointSet(m)
    ensures IsPointSet(r) && r.cols == m.cols
  {
    MapColumns(m, (p: Vec2) => RotateAbout(p, c, s, o))
  }

  /** Every point scaled about o by k. */
  function ScaledAbout(m: Matrix, k: real, o: Vec2): (r: Matrix)
    requires IsPointSet(m)
    ensures IsPointSet(r) && r.cols == m.cols
  {
    MapColumns(m, (p: Vec2) => ScaleAbout(p, k, o))
  }

  /** Translating by d and then by -d gives back the same point set. */
  lemma TranslateUndone(m: Matrix, d: Vec2)
    requires IsPointSet(m)
    ensures Translated(Translated(m, d), d.Neg()) == m
  {
    SamePoints(Translated(Translated(m, d), d.Neg()), m);
  }

  /** Two translations add up. */
  lemma TranslationsCompose(m: Matrix, d: Vec2, e: Vec2)
    requires IsPointSet(m)
    ensures Translated(Translated(m, d), e) == Translated(m, d.Plus(e))
  {
    SamePoints(Translated(Translated(m, d), e), Translated(m, d.Plus(e)));
  }

  /** The rotation with cos 1 and sin 0 leaves every point where it is. */
  lemma RotationByZero(m: Matrix, o: Vec2)
    requires IsPointSet(m)
    ensures RotatedAbout(m, 1.0, 0.0, o) == m
  {
    SamePoints(RotatedAbout(m, 1.0, 0.0, o), m);
  }

  /** Two rotations about the same point make one rotation whose cos and sin
      follow the angle-addition formulas. */
  lemma RotationsCompose(m: Matrix, c1: real, s1: real, c2: real, s2: real, o: Vec2)
    requires IsPointSet(m)
    ensures RotatedAbout(RotatedAbout(m, c1, s1, o), c2, s2, o)
         == RotatedAbout(m, c2 * c1 - s2 * s1, s2 * c1 + c2 * s1, o)
  {
    var lhs := RotatedAbout(RotatedAbout(m, c1, s1, o), c2, s2, o);
    var rhs := RotatedAbout(m, c2 * c1 - s2 * s1, s2 * c1 + c2 * s1, o);
    forall j | 0 <= j < m.cols
      ensures Column(lhs, j) == Column(rhs, j)
    {
      var u := Column(m, j).Minus(o);
      assert Column(lhs, j) == o.Plus(u.Turned(c1, s1).Turned(c2, s2));
      assert u.Turned(c1, s1).Turned(c2, s2) == u.Turned(c2 * c1 - s2 * s1, s2 * c1 + c2 * s1);
    }
    SamePoints(lhs, rhs);
  }

  /** A proper rotation (cos^2 + sin^2 = 1) keeps every point's distance to the center. */
  lemma RotationKeepsDistance(m: Matrix, c: real, s: real, o: Vec2)
    requires IsPointSet(m) && c * c + s * s == 1.0
    ensures forall j :: 0 <= j < m.cols ==>
              Column(RotatedAbout(m, c, s, o), j).Minus(o).Norm2() == Column(m, j).Minus(o).Norm2()
  {
    forall j | 0 <= j < m.cols
      ensures Column(RotatedAbout(m, c, s, o), j).Minus(o).Norm2() == Column(m, j).Minus(o).Norm2()
    {
      var u := Column(m, j).Minus(o);
      assert Column(RotatedAbout(m, c, s, o), j).Minus(o) == u.Turned(c, s);
      TurnKeepsNorm(c, s, u.x, u.y);
    }
  }

  /** (c x - s y)^2 + (s x + c y)^2 = (c^2 + s^2)(x^2 + y^2). */
  lemma TurnKeepsNorm(c: real, s: real, x: real, y: real)
    requires c * c + s * s == 1.0
    ensures (c * x - s * y) * (c * x - s * y) + (s * x + c * y) * (s * x + c * y) == x * x + y * y
  {
    calc {
      (c * x - s * y) * (c * x - s * y) + (s * x + c * y) * (s * x + c * y);
      (c * c + s * s) * (x * x + y * y);
    }
  }

  /** Scaling by 1 leaves every point where it is. */
  lemma ScaleByOne(m: Matrix, o: Vec2)
    requires IsPointSet(m)
    ensures ScaledAbout(m, 1.0, o) == m
  {
    SamePoints(ScaledAbout(m, 1.0, o), m);
  }

  /** Two scalings about the same point multiply. */
  lemma ScalesCompose(m: Matrix, a: real, b: real, o: Vec2)
    requires IsPointSet(m)
    ensures ScaledAbout(ScaledAbout(m, a, o), b, o) == ScaledAbout(m, b * a, o)
  {
    var lhs := ScaledAbout(ScaledAbout(m, a, o), b, o);
    var rhs := ScaledAbout(m, b * a, o);
    forall j | 0 <= j < m.cols
      ensures Column(lhs, j) == Column(rhs, j)
    {
      var u := Column(m, j).Minus(o);
      assert Column(lhs, j) == o.Plus(u.Times(a).Times(b));
      assert u.Times(a).Times(b) == u.Times(b * a);
    }
    SamePoints(lhs, rhs);
  }

  /** The center itself is fixed by rotation and by scaling about it. */
  lemma CenterIsFixed(o: Vec2, c: real, s: real, k: real)
    ensures RotateAbout(o, c, s, o) == o && ScaleAbout(o, k, o) == o
  {
  }

  /** The self-test's quarter turn about the origin (cos 0, sin 1) maps every
      point (x, y) to (-y, x). */
  lemma QuarterTurnAboutOrigin(m: Matrix)
    requires IsPointSet(m)
    ensures forall j :: 0 <= j < m.cols ==>
              Column(RotatedAbout(m, 0.0, 1.0, ORIGIN), j) == Vec2(-m.At(1, j), m.At(0, j))
  {
  }

  /** The self-test's scale by 0.5 about the origin halves every coordinate. */
  lemma HalfScaleAboutOrigin(m: Matrix)
    requires IsPointSet(m)
    ensures forall j :: 0 <= j < m.cols ==>
              Column(ScaledAbout(m, 0.5, ORIGIN), j) == Vec2(0.5 * m.At(0, j), 0.5 * m.At(1, j))
  {
  }

  // ---- one tick of update -------------------------------------------------

  /** The tuning constants every particle shares: its initial time to live
      (TTL, seconds), the per-tick shrink factor (SCALE) and the downward
      acceleration (G). */
  datatype Tuning = Tuning(lifetime: real, shrink: real, gravity: real)

  /** Everything `update` reads or writes: the point set, its center, the
      time to live, the angular velocity (radians per second) and the two
      velocity components. */
  datatype Snapshot = Snapshot(points: Matrix, center: Vec2, ttl: real, spin: real, vx: real, vy: real)

  /** One `update(dt)`, where c and sn are the cos and sin of this tick's
      angle dt * spin: ttl drops by dt; the points turn about the center,
      then shrink about it by the shrink factor (once per call, whatever dt
      is); dx comes from vx, gravity is taken off vy, dy comes from the new
      vy; finally points and center move by (dx, dy). */
  function Step(s: Snapshot, dt: real, tuning: Tuning, c: real, sn: real): (r: Snapshot)
    requires IsPointSet(s.points)
    ensures IsPointSet(r.points) && r.points.cols == s.points.cols
  {
    var turned := RotatedAbout(s.points, c, sn, s.center);
    var shrunk := ScaledAbout(turned, tuning.shrink, s.center);
    var dx := s.vx * dt;
    var vy := s.vy - tuning.gravity * dt;
    var dy := vy * dt;
    Snapshot(Translated(shrunk, Vec2(dx, dy)), s.center.Plus(Vec2(dx, dy)), s.ttl - dt, s.spin, s.vx, vy)
  }

  /** What one tick does to the scalars: ttl falls by exactly dt; vx and the
      angular velocity are kept; vy loses gravity * dt; the center moves by
      vx * dt across and by the NEW vy times dt upwards. */
  lemma StepMotion(s: Snapshot, dt: real, tuning: Tuning, c: real, sn: real)
    requires IsPointSet(s.points)
    ensures var r := Step(s, dt, tuning, c, sn);
            r.ttl == s.ttl - dt && r.spin == s.spin && r.vx == s.vx &&
            r.vy == s.vy - tuning.gravity * dt &&
            r.center == Vec2(s.center.x + r.vx * dt, s.center.y + r.vy * dt)
  {
  }

  /** For one point: turning and shrinking about o and then moving point and
      center alike by d leaves the offset turned and shrunk. */
  lemma OffsetAfterTick(p: Vec2, o: Vec2, c: real, s: real, k: real, d: Vec2)
    ensures ScaleAbout(RotateAbout(p, c, s, o), k, o).Plus(d).Minus(o.Plus(d))
         == p.Minus(o).Turned(c, s).Times(k)
  {
    var u := p.Minus(o).Turned(c, s);
    assert RotateAbout(p, c, s, o).Minus(o) == u;
    assert ScaleAbout(RotateAbout(p, c, s, o), k, o) == o.Plus(u.Times(k));
  }

  /** Rotation and scaling happen about the OLD center before it moves, so
      each point's offset from the new center is its old offset, turned and
      then shrunk. */
  lemma StepOffsets(s: Snapshot, dt: real, tuning: Tuning, c: real, sn: real)
    requires IsPointSet(s.points)
    ensures var r := Step(s, dt, tuning, c, sn);
            forall j :: 0 <= j < s.points.cols ==>
              Column(r.points, j).Minus(r.center) == Column(s.points, j).Minus(s.center).Turned(c, sn).Times(tuning.shrink)
  {
    var r := Step(s, dt, tuning, c, sn);
    var turned := RotatedAbout(s.points, c, sn, s.center);
    var shrunk := ScaledAbout(turned, tuning.shrink, s.center);
    var d := Vec2(s.vx * dt, (s.vy - tuning.gravity * dt) * dt);
    assert r.center == s.center.Plus(d);
    assert r.points == Translated(shrunk, d);
    forall j | 0 <= j < s.points.cols
      ensures Column(r.points, j).Minus(r.center) == Column(s.points, j).Minus(s.center).Turned(c, sn).Times(tuning.shrink)
    {
      var p := Column(s.points, j);
      assert Column(turned, j) == RotateAbout(p, c, sn, s.center);
      assert Column(shrunk, j) == ScaleAbout(RotateAbout(p, c, sn, s.center), tuning.shrink, s.center);
      assert Column(r.points, j) == Column(shrunk, j).Plus(d);
      OffsetAfterTick(p, s.center, c, sn, tuning.shrink, d);
    }
  }

  /** The shrink is applied per call, not per second: a tick with dt = 0
      (whose rotation has cos 1 and sin 0) still scales the points about the
      unmoved center and changes nothing else. */
  lemma ShrinkIsPerTick(s: Snapshot, tuning: Tuning)
    requires IsPointSet(s.points)
    ensures var r := Step(s, 0.0, tuning, 1.0, 0.0);
            r.points == ScaledAbout(s.points, tuning.shrink, s.center) &&
            r.center == s.center && r.ttl == s.ttl && r.vx == s.vx && r.vy == s.vy
  {
    var r := Step(s, 0.0, tuning, 1.0, 0.0);
    RotationByZero(s.points, s.center);
    var shrunk := ScaledAbout(s.points, tuning.shrink, s.center);
    assert r.points == Translated(shrunk, Vec2(0.0, 0.0));
    SamePoints(Translated(shrunk, Vec2(0.0, 0.0)), shrunk);
  }

  /** n ticks of the same length dt (so of the same angle). */
  function Steps(s: Snapshot, n: nat, dt: real, tuning: Tuning, c: real, sn: real): (r: Snapshot)
    requires IsPointSet(s.points)
    ensures IsPointSet(r.points) && r.points.cols == s.points.cols
  {
    if n == 0 then s else Step(Steps(s, n - 1, dt, tuning, c, sn), dt, tuning, c, sn)
  }

  /** After n ticks of length dt the time to live is exactly ttl - n * dt. */
  lemma {:induction false} TtlAfterSteps(s: Snapshot, n: nat, dt: real, tuning: Tuning, c: real, sn: real)
    requires IsPointSet(s.points)
    ensures Steps(s, n, dt, tuning, c, sn).ttl == s.ttl - n as real * dt
  {
    if n > 0 {
      TtlAfterSteps(s, n - 1, dt, tuning, c, sn);
    }
  }

  /** With a positive tick length, a particle is still alive (ttl > 0) after n
      ticks exactly when n * dt < ttl: it dies on the first tick n with
      n >= ttl / dt, and never before. */
  lemma AliveExactlyWhile(s: Snapshot, n: nat, dt: real, tuning: Tuning, c: real, sn: real)
    requires IsPointSet(s.points) && dt > 0.0
    ensures Steps(s, n, dt, tuning, c, sn).ttl > 0.0 <==> n as real * dt < s.ttl
  {
    TtlAfterSteps(s, n, dt, tuning, c, sn);
  }

  /** 0 + 1 + ... + n. */
  function Triangle(n: nat): real
  {
    if n == 0 then 0.0 else Triangle(n - 1) + n as real
  }

  /** The vertical velocity after n ticks: each tick takes G * dt off it. */
  function Fallen(vy: real, g: real, dt: real, n: nat): real
  {
    if n == 0 then vy else Fallen(vy, g, dt, n - 1) - g * dt
  }

  /** The abscissa after n ticks: each tick adds vx * dt. */
  function Across(x0: real, vx: real, dt: real, n: nat): real
  {
    if n == 0 then x0 else Across(x0, vx, dt, n - 1) + vx * dt
  }

  /** The height after n ticks: tick k adds the velocity after that tick's
      gravity, times dt. */
  function Height(y0: real, vy: real, g: real, dt: real, n: nat): real
  {
    if n == 0 then y0 else Height(y0, vy, g, dt, n - 1) + Fallen(vy, g, dt, n) * dt
  }

  /** n ticks keep vx and the angular velocity and take vy down tick by tick. */
  lemma {:induction false} VelocityAfterSteps(s: Snapshot, n: nat, dt: real, tuning: Tuning, c: real, sn: real)
    requires IsPointSet(s.points)
    ensures var r := Steps(s, n, dt, tuning, c, sn);
            r.vx == s.vx && r.spin == s.spin && r.vy == Fallen(s.vy, tuning.gravity, dt, n)
  {
    if n > 0 {
      VelocityAfterSteps(s, n - 1, dt, tuning, c, sn);
      StepMotion(Steps(s, n - 1, dt, tuning, c, sn), dt, tuning, c, sn);
    }
  }

  /** The center moves across tick by tick. */
  lemma {:induction false} AcrossAfterSteps(s: Snapshot, n: nat, dt: real, tuning: Tuning, c: real, sn: real)
    requires IsPointSet(s.points)
    ensures Steps(s, n, dt, tuning, c, sn).center.x == Across(s.center.x, s.vx, dt, n)
  {
    if n > 0 {
      var prev := Steps(s, n - 1, dt, tuning, c, sn);
      var r := Step(prev, dt, tuning, c, sn);
      AcrossAfterSteps(s, n - 1, dt, tuning, c, sn);
      VelocityAfterSteps(s, n, dt, tuning, c, sn);
      StepMotion(prev, dt, tuning, c, sn);
      AcrossStep(s.center.x, s.vx, dt, n, prev.center.x, r.vx);
    }
  }

  /** One more tick of Across, with the velocity given by any term equal to vx. */
  lemma AcrossStep(x0: real, vx: real, dt: real, n: nat, px: real, v: real)
    requires n > 0 && px == Across(x0, vx, dt, n - 1) && v == vx
    ensures px + v * dt == Across(x0, vx, dt, n)
  {
  }

  /** The center moves up tick by tick. */
  lemma {:induction false} HeightAfterSteps(s: Snapshot, n: nat, dt: real, tuning: Tuning, c: real, sn: real)
    requires IsPointSet(s.points)
    ensures Steps(s, n, dt, tuning, c, sn).center.y == Height(s.center.y, s.vy, tuning.gravity, dt, n)
  {
    if n > 0 {
      var prev := Steps(s, n - 1, dt, tuning, c, sn);
      var r := Step(prev, dt, tuning, c, sn);
      HeightAfterSteps(s, n - 1, dt, tuning, c, sn);
      VelocityAfterSteps(s, n, dt, tuning, c, sn);
      StepMotion(prev, dt, tuning, c, sn);
      HeightStep(s.center.y, s.vy, tuning.gravity, dt, n, prev.center.y, r.vy);
    }
  }

  /** One more tick of Height, with the velocity given by any term equal to
      the velocity after that tick. */
  lemma HeightStep(y0: real, vy: real, g: real, dt: real, n: nat, py: real, v: real)
    requires n > 0 && py == Height(y0, vy, g, dt, n - 1) && v == Fallen(vy, g, dt, n)
    ensures py + v * dt == Height(y0, vy, g, dt, n)
  {
  }

  /** vy after n ticks is vy - n * G * dt. */
  lemma {:induction false} FallenClosedForm(vy: real, g: real, dt: real, n: nat)
    ensures Fallen(vy, g, dt, n) == vy - n as real * g * dt
  {
    if n > 0 {
      FallenClosedForm(vy, g, dt, n - 1);
      VelocityArithmetic(vy, Fallen(vy, g, dt, n - 1), g, dt, (n - 1) as real, n as real);
    }
  }

  lemma VelocityArithmetic(vy: real, pvy: real, g: real, dt: real, k: real, n: real)
    requires n == k + 1.0 && pvy == vy - k * g * dt
    ensures pvy - g * dt == vy - n * g * dt
  {
  }

  /** x after n ticks is x0 + n * vx * dt. */
  lemma {:induction false} AcrossClosedForm(x0: real, vx: real, dt: real, n: nat)
    ensures Across(x0, vx, dt, n) == x0 + n as real * vx * dt
  {
    if n > 0 {
      AcrossClosedForm(x0, vx, dt, n - 1);
      DriftArithmetic(x0, vx, Across(x0, vx, dt, n - 1), dt, (n - 1) as real, n as real);
    }
  }

  lemma DriftArithmetic(x0: real, vx: real, px: real, dt: real, k: real, n: real)
    requires n == k + 1.0 && px == x0 + k * vx * dt
    ensures px + vx * dt == x0 + n * vx * dt
  {
  }

  /** y after n ticks is y0 + n * vy * dt - G * dt^2 * (1 + ... + n). */
  lemma {:induction false} HeightClosedForm(y0: real, vy: real, g: real, dt: real, n: nat)
    ensures Height(y0, vy, g, dt, n) == y0 + n as real * vy * dt - g * dt * dt * Triangle(n)
  {
    if n > 0 {
      HeightClosedForm(y0, vy, g, dt, n - 1);
      FallenClosedForm(vy, g, dt, n);
      HeightArithmetic(y0, vy, Height(y0, vy, g, dt, n - 1), Fallen(vy, g, dt, n),
                       g, dt, (n - 1) as real, Triangle(n - 1), n as real, Triangle(n));
    }
  }

  lemma HeightArithmetic(y0: real, vy: real, py: real, v: real,
                         g: real, dt: real, k: real, t: real, n: real, tn: real)
    requires n == k + 1.0 && tn == t + n
    requires py == y0 + k * vy * dt - g * dt * dt * t
    requires v == vy - n * g * dt
    ensures py + v * dt == y0 + n * vy * dt - g * dt * dt * tn
  {
  }

  /** The discrete trajectory in closed form: after n ticks of length dt the
      center has moved n * vx * dt across and n * vy * dt - G * dt^2 *
      (1 + ... + n) up (each tick moves with the velocity after its own
      gravity), and vy is vy - n * G * dt. */
  lemma Trajectory(s: Snapshot, n: nat, dt: real, tuning: Tuning, c: real, sn: real)
    requires IsPointSet(s.points)
    ensures var r := Steps(s, n, dt, tuning, c, sn);
            r.vx == s.vx && r.vy == s.vy - n as real * tuning.gravity * dt &&
            r.center.x == s.center.x + n as real * s.vx * dt &&
            r.center.y == s.center.y + n as real * s.vy * dt - tuning.gravity * dt * dt * Triangle(n)
  {
    VelocityAfterSteps(s, n, dt, tuning, c, sn);
    AcrossAfterSteps(s, n, dt, tuning, c, sn);
    HeightAfterSteps(s, n, dt, tuning, c, sn);
    FallenClosedForm(s.vy, tuning.gravity, dt, n);
    AcrossClosedForm(s.center.x, s.vx, dt, n);
    HeightClosedForm(s.center.y, s.vy, tuning.gravity, dt, n);
  }

  // ---- the random draws of the constructor --------------------------------

  /** rand() / RAND_MAX, which lies in [0, 1]. */
  function Fraction(draw: nat, randMax: nat): (f: real)
    requires 0 < randMax && draw <= randMax
    ensures 0.0 <= f <= 1.0
  {
    draw as real / randMax as real
  }

  /** The angular velocity: the fraction of PI, so in [0, PI] radians per second. */
  function Spin(draw: nat, randMax: nat): (w: real)
    requires 0 < randMax && draw <= randMax
    ensures 0.0 <= w <= PI
  {
    Fraction(draw, randMax) * PI
  }

  /** The horizontal velocity: a speed 100 + draw % 401 in [100, 500], made
      negative when the sign draw is odd. */
  function HorizontalVelocity(speedDraw: nat, signDraw: nat): (v: real)
    ensures v < 0.0 <==> signDraw % 2 != 0
    ensures 100.0 <= (if v < 0.0 then -v else v) <= 500.0
  {
    var base := 100.0 + (speedDraw % 401) as real;
    if signDraw % 2 != 0 then -base else base
  }

  /** The vertical velocity: 100 + draw % 401, always upwards, in [100, 500]. */
  function VerticalVelocity(draw: nat): (v: real)
    ensures 100.0 <= v <= 500.0
  {
    100.0 + (draw % 401) as real
  }

  /** A vertex's distance from the center: 20 + draw % 61, in [20, 80]. */
  function Radius(draw: nat): (r: real)
    ensures 20.0 <= r <= 80.0
  {
    20.0 + (draw % 61) as real
  }

  /** The angle of the first vertex: the fraction of PI / 2, in [0, PI / 2]. */
  function StartAngle(draw: nat, randMax: nat): (theta: real)
    requires 0 < randMax && draw <= randMax
    ensures 0.0 <= theta <= PI / 2.0
  {
    Fraction(draw, randMax) * (PI / 2.0)
  }

  /** The angle between neighbouring vertices, 2 PI / (numPoints - 1): the
      numPoints - 1 steps of the sweep add up to one full turn, so the last
      vertex lies in the direction of the first. With one vertex the float
      division gives infinity, which the loop adds to the angle once after the
      only vertex, and that angle is never read again; with no vertex the loop
      does not run (the step would be -2 PI). Either way no vertex depends on
      the step, and 0 stands for it. */
  function AngleStep(numPoints: nat): (d: real)
    ensures numPoints >= 2 ==> d > 0.0 && (numPoints - 1) as real * d == 2.0 * PI
  {
    if numPoints >= 2 then 2.0 * PI / (numPoints - 1) as real else 0.0
  }

  /** The angle after adding d to theta0 j times, as the vertex loop does. */
  function Sweep(theta0: real, d: real, j: nat): real
  {
    if j == 0 then theta0 else Sweep(theta0, d, j - 1) + d
  }

  /** The j-th angle of the sweep is theta0 + j * d. */
  lemma {:induction false} SweepClosedForm(theta0: real, d: real, j: nat)
    ensures Sweep(theta0, d, j) == theta0 + j as real * d
  {
    if j > 0 {
      SweepClosedForm(theta0, d, j - 1);
      SweepArithmetic(theta0, d, Sweep(theta0, d, j - 1), (j - 1) as real, j as real);
    }
  }

  lemma SweepArithmetic(theta0: real, d: real, prev: real, k: real, n: real)
    requires n == k + 1.0 && prev == theta0 + k * d
    ensures prev + d == theta0 + n * d
  {
  }

  /** With numPoints >= 2 the last vertex's angle is a full turn past the
      first, so the fan closes on itself. */
  lemma SweepClosesTheFan(theta0: real, numPoints: nat)
    requires numPoints >= 2
    ensures Sweep(theta0, AngleStep(numPoints), numPoints - 1) == theta0 + 2.0 * PI
  {
    SweepClosedForm(theta0, AngleStep(numPoints), numPoints - 1);
  }

  /** The vertex at distance r from the center in direction theta. */
  function Vertex(center: Vec2, r: real, theta: real, cos: real -> real, sin: real -> real): Vec2
  {
    center.Plus(Vec2(r * cos(theta), r * sin(theta)))
  }
}
