# Particles: a verified model of the fireworks core

This project models the core of a small SFML "fireworks" program in Dafny. Each
left click releases five particles. A particle is a star-shaped polygon (a fan
of 25 to 50 random vertices around a center). On every frame it spins about its
center, shrinks towards it, drifts sideways and falls under gravity. It is
erased once its time to live runs out. The core has three parts:

- **A small matrix library** (`Matrices.cpp`): a zero-filled `rows x cols`
  matrix of reals. It provides `+`, `*`, `==`, `!=` and `<<`, and three 2-row
  transform matrices: rotation, scaling and translation. In Dafny, `Matrix` is a
  datatype value (module `Matrices`), because the C++ type has value semantics.
  The transform matrices are in module `TransformMatrices`, and the text form
  written by `<<` is in module `MatrixText`.
- **The particle** (`Particle.cpp`): class `Particles.Particle`. Its fields are
  the ones `update` changes (`A`, `center`, `ttl`, `vy`), plus the constants
  set at construction. Module `ParticleMotion` holds the geometry as values:
  points, point sets, translation, rotation and scaling about a center. It
  also holds one tick of physics (`Step`) and its closed forms over many ticks.
  The random draws of the constructor are modelled by `Random.Rand`: an
  arbitrary sequence of values in `[0, RAND_MAX]` and a position that each
  `rand()` call advances.
- **The engine** (`Engine.cpp`): class `Engines.Engine`. It holds the vector of
  particles and models two things. One is the walk that updates the live
  particles and erases the dead ones in place. The other is the loop that
  appends five new particles per click.

`cos` and `sin` are function parameters, the number formatting of `<<` is a
`show` parameter, and the compile-time constants `TTL`, `SCALE` and `G` are a
`Tuning` record.

Two behaviours of the code shape the contracts:

- `Particle.cpp:60` does not check that a particle has at least two vertices.
  With one vertex the float division by zero makes the angle step infinite;
  `Particle.cpp:73` adds it to `theta` once, after the only vertex is placed,
  and that angle is never read again. With no vertex the loop does not run.
  So the constructor has no such precondition, and `AngleStep` is 0 when there
  are fewer than two vertices (the value is never used then).
- `+` and `*` take their loop bounds from the operands (`Matrices.cpp:15-16`,
  `Matrices.cpp:34-36`) and do not compare the shapes. `Add` and `Multiply`
  require matching shapes; see "## Left out" for what that leaves out.

## Model

| member | source | states |
|---|---|---|
| Matrices.Zero | Matrices.cpp:7-10 | a new `rows x cols` matrix has those dimensions and every cell 0 |
| Matrices.Matrix.Set | Matrices.cpp:24 | writing cell (i, j) gives it the new value, keeps the shape and leaves every other cell unchanged |
| Matrices.Add | Matrices.cpp:13-29 | for operands of the same shape, the result has that shape and each cell is the sum of the two operand cells |
| Matrices.Multiply | Matrices.cpp:32-54 | the result is `lhs.rows x rhs.cols` and cell (i, j) is the dot product of row i of lhs and column j of rhs over the inner dimension |
| Matrices.DotOfTwo | Matrices.cpp:45-48 | with an inner dimension of 2, the sum is the explicit two-term product used by the 2-row transforms |
| Matrices.IdentityDot | Matrices.cpp:45-48 | a partial dot product with the identity picks out cell (i, j) once the sum has passed row i, and is 0 before that |
| Matrices.IdentityIsNeutral | Matrices.cpp:32-54 | multiplying by the identity on the left gives back every cell of the operand |
| Matrices.DotDistributes | Matrices.cpp:32-54 | the product distributes over the cell-wise sum, which ties `*` to `+` |
| Matrices.Equals | Matrices.cpp:57-76 | false when the shapes differ; true exactly when every cell pair is equal, and so exactly when the two values are equal |
| Matrices.NotEquals | Matrices.cpp:78-81 | true exactly when `==` is false |
| Matrices.IdenticalIffEqual | Matrices.cpp:57-76 | the cell-by-cell comparison `==` makes holds in both directions exactly when the matrices are the same value |
| Matrices.IdenticalReflexive | Matrices.cpp:57-76 | every matrix is `==` to itself |
| Matrices.IdenticalSymmetric | Matrices.cpp:57-76 | `==` does not depend on the order of its operands |
| MatrixText.Render | Matrices.cpp:84-106 | the written text is the rows joined by newlines, with no trailing newline |
| MatrixText.RenderRow | Matrices.cpp:91-98 | one row's text is its printed cells joined by single spaces, with no trailing space |
| MatrixText.IndexOf | Matrices.cpp:94-101 | the position found holds the separator, and no earlier position does |
| MatrixText.Split | Matrices.cpp:84-106 | the reading of a text back into pieces gives at least one piece |
| MatrixText.JoinSnoc | Matrices.cpp:94-101 | writing one more piece adds exactly one separator and that piece |
| MatrixText.JoinAvoids | Matrices.cpp:94-101 | the written text holds no character beyond the separator and those of the pieces |
| MatrixText.IndexAfterPrefix | Matrices.cpp:94-101 | the first separator of a piece, a separator and the rest is right after that piece |
| MatrixText.SplitJoin | Matrices.cpp:94-101 | splitting at the separator undoes joining when no piece contains it |
| MatrixText.JoinEndsWithLast | Matrices.cpp:94-101 | a joined text ends with its last piece |
| MatrixText.RowCells | Matrices.cpp:91-93 | a row prints one cell per column |
| MatrixText.RowTexts | Matrices.cpp:89-103 | the text has one line per row |
| MatrixText.TextRoundTrip | Matrices.cpp:84-106 | when no printed number contains a space or a newline, the text splits back into exactly its rows, and each row into exactly its cells |
| MatrixText.TextEndsWithLastCell | Matrices.cpp:94-101 | the text ends with the last cell of the last row, so no separator trails it |
| TransformMatrices.RotationMatrix | Matrices.cpp:109-116 | a 2 x 2 matrix with cells cos, -sin, sin, cos of the angle |
| TransformMatrices.ScalingMatrix | Matrices.cpp:119-126 | a 2 x 2 matrix with the factor on the diagonal and 0 off it |
| TransformMatrices.TranslationMatrix | Matrices.cpp:129-137 | a 2 x n matrix whose every column is (xShift, yShift) |
| TransformMatrices.ScalingOneIsIdentity | Matrices.cpp:119-126 | scaling by 1 is the identity matrix |
| TransformMatrices.RotationByZeroIsIdentity | Matrices.cpp:109-116 | rotating by angle 0 is the identity matrix |
| Random.Rand.Next | Particle.cpp:35 | `rand()` returns the next value of the sequence, which is at most RAND_MAX, and advances the position by one |
| ParticleMotion.MapColumns | Particle.cpp:134 | the point set whose every column is the given map applied to the same column |
| ParticleMotion.SamePoints | Particle.cpp:134 | two point sets with the same points column by column are one value; a helper that identifies the result of `m_A = R * m_A` here, and of `m_A = T + m_A` at `Particle.cpp:158`, with the point set the geometry describes |
| ParticleMotion.Translated | Particle.cpp:153-162 | translating keeps a 2-row point set with the same number of points |
| ParticleMotion.RotatedAbout | Particle.cpp:127-137 | rotating about a center keeps a 2-row point set with the same number of points |
| ParticleMotion.ScaledAbout | Particle.cpp:140-150 | scaling about a center keeps a 2-row point set with the same number of points |
| ParticleMotion.TranslateUndone | Particle.cpp:129-136 | translating by d and then by -d gives back the point set |
| ParticleMotion.TranslationsCompose | Particle.cpp:153-162 | two translations make one translation by the sum |
| ParticleMotion.RotationByZero | Particle.cpp:127-137 | the turn with cos 1 and sin 0 leaves every point in place |
| ParticleMotion.RotationsCompose | Particle.cpp:127-137 | two turns about one center make a single turn whose cos and sin come from the angle-sum formulas |
| ParticleMotion.RotationKeepsDistance | Particle.cpp:127-137 | a proper turn keeps every point's distance from the center |
| ParticleMotion.TurnKeepsNorm | Particle.cpp:133-134 | a proper turn of an offset keeps its length |
| ParticleMotion.ScaleByOne | Particle.cpp:140-150 | scaling by 1 leaves every point in place |
| ParticleMotion.ScalesCompose | Particle.cpp:140-150 | two scalings about one center make one scaling by the product |
| ParticleMotion.CenterIsFixed | Particle.cpp:127-150 | the center is fixed by rotation and by scaling about it |
| ParticleMotion.QuarterTurnAboutOrigin | Particle.cpp:236-249 | a quarter turn about the origin maps (x, y) to (-y, x) |
| ParticleMotion.HalfScaleAboutOrigin | Particle.cpp:260-273 | scaling by 0.5 about the origin halves both coordinates |
| ParticleMotion.Step | Particle.cpp:115-124 | one tick keeps a 2-row point set with the same number of points |
| ParticleMotion.StepMotion | Particle.cpp:115-124 | one tick takes dt off ttl and G * dt off vy, and moves the center by (vx * dt, new vy * dt) |
| ParticleMotion.OffsetAfterTick | Particle.cpp:118-123 | after a rotation and scaling about the old center and a common shift, a point's offset from the new center is the old offset turned and scaled |
| ParticleMotion.StepOffsets | Particle.cpp:115-124 | after one tick, every point's offset from the new center is its old offset turned by the tick's angle and multiplied by SCALE |
| ParticleMotion.ShrinkIsPerTick | Particle.cpp:119 | a tick of length 0 still shrinks the shape by SCALE: the shrink is per call, not per second |
| ParticleMotion.Steps | Particle.cpp:115-124 | n equal ticks keep the number of points |
| ParticleMotion.TtlAfterSteps | Particle.cpp:117 | after n ticks of length dt, ttl is exactly ttl - n * dt |
| ParticleMotion.AliveExactlyWhile | Particle.cpp:117 | with dt > 0, the particle is still alive after n ticks exactly when n * dt < ttl |
| ParticleMotion.VelocityAfterSteps | Particle.cpp:120-122 | n ticks keep vx and the spin and take vy down once per tick |
| ParticleMotion.AcrossAfterSteps | Particle.cpp:120 | the center's abscissa after n ticks is the running sum of vx * dt |
| ParticleMotion.AcrossStep | Particle.cpp:120 | one more tick adds vx * dt to that sum |
| ParticleMotion.HeightAfterSteps | Particle.cpp:121-123 | the center's height after n ticks is the running sum of each tick's new vy * dt |
| ParticleMotion.HeightStep | Particle.cpp:121-123 | one more tick adds that tick's velocity times dt to that sum |
| ParticleMotion.FallenClosedForm | Particle.cpp:121 | vy after n ticks is vy - n * G * dt |
| ParticleMotion.VelocityArithmetic | Particle.cpp:121 | the inductive step of that closed form |
| ParticleMotion.AcrossClosedForm | Particle.cpp:120 | x after n ticks is x0 + n * vx * dt |
| ParticleMotion.DriftArithmetic | Particle.cpp:120 | the inductive step of that closed form |
| ParticleMotion.HeightClosedForm | Particle.cpp:121-123 | y after n ticks is y0 + n * vy * dt - G * dt^2 * (1 + ... + n): gravity is applied before the move |
| ParticleMotion.HeightArithmetic | Particle.cpp:121-123 | the inductive step of that closed form |
| ParticleMotion.Trajectory | Particle.cpp:115-124 | the discrete trajectory after n ticks in closed form: ttl, vx, vy and both coordinates of the center |
| ParticleMotion.Fraction | Particle.cpp:35 | `rand() / RAND_MAX` lies in [0, 1] |
| ParticleMotion.Spin | Particle.cpp:35-36 | the angular velocity lies in [0, PI] |
| ParticleMotion.HorizontalVelocity | Particle.cpp:39-44 | the horizontal speed lies in [100, 500], and it is negative exactly when the sign draw is odd |
| ParticleMotion.VerticalVelocity | Particle.cpp:47 | the vertical velocity lies in [100, 500] |
| ParticleMotion.Radius | Particle.cpp:65 | a vertex radius lies in [20, 80] |
| ParticleMotion.StartAngle | Particle.cpp:58-59 | the first vertex's angle lies in [0, PI / 2] |
| ParticleMotion.AngleStep | Particle.cpp:60 | with at least two vertices the step is positive, and numPoints - 1 steps make one full turn |
| ParticleMotion.SweepClosedForm | Particle.cpp:73 | after j increments the angle is theta0 + j * dTheta |
| ParticleMotion.SweepArithmetic | Particle.cpp:73 | the inductive step of that closed form |
| ParticleMotion.SweepClosesTheFan | Particle.cpp:58-74 | the last vertex's angle is one full turn past the first |
| Particles.ProductColumn | Particle.cpp:134 | column j of `M * A` is M applied to column j of A |
| Particles.ProductColumns | Particle.cpp:134 | every column of `M * A` is M applied to that column |
| Particles.ApplyRotation | Particle.cpp:133-134 | the rotation matrix turns a point counter-clockwise |
| Particles.ApplyScaling | Particle.cpp:146-147 | the scaling matrix multiplies a point by the factor |
| Particles.TurnAtOrigin | Particle.cpp:133-134 | `R * A` is A turned about the origin |
| Particles.ScaleAtOrigin | Particle.cpp:146-147 | `S * A` is A scaled about the origin |
| Particles.TurnConjugated | Particle.cpp:127-137 | moving the center to the origin, turning and moving back is a turn about the center |
| Particles.ScaleConjugated | Particle.cpp:140-150 | moving the center to the origin, scaling and moving back is a scaling about the center |
| Particles.SelfTestPassesAtOrigin | Particle.cpp:169-309 | for a particle at the origin with exact cos and sin at PI / 2 and a positive tolerance, the self-test scores 7 out of 7 |
| Particles.SelfTestFailsOffOrigin | Particle.cpp:224-234 | a particle whose center is not the origin scores at most 6 |
| Particles.AlmostEqual | Particle.cpp:164-167 | true exactly when a lies strictly within eps of b, with `fabs` written out; never true unless eps is positive |
| Particles.CheckTransformConstructors | Particle.cpp:173-221 | the three transform-constructor checks all pass when the tolerance is positive and all fail otherwise |
| Particles.AllMapped | Particle.cpp:239-249 | the per-point check loop passes exactly when every point is mapped within the tolerance |
| Particles.PointsMatrix | Particle.cpp:21 | the 2 x n matrix holds the given points column by column |
| Particles.Vertices | Particle.cpp:62-74 | one vertex per point |
| Particles.VerticesAt | Particle.cpp:62-74 | vertex c lies at radius draw c from the click, in the direction of the first angle advanced c times |
| Particles.Fan | Particle.cpp:62-74 | the fan is a 2-row point set of numPoints points |
| Particles.FanColumn | Particle.cpp:62-74 | column c of the fan is vertex c |
| Particles.Prefix | Particle.cpp:62-74 | the fan with its first j columns filled in is still a point set of the same width |
| Particles.PrefixEnds | Particle.cpp:21-74 | before the loop the matrix is all zeros; after it, it is the whole fan |
| Particles.PrefixGrows | Particle.cpp:70-71 | writing vertex j into column j extends the filled prefix by one |
| Particles.PlaceVertex | Particle.cpp:64-73 | one iteration of the vertex loop draws one radius and fills column j with vertex j |
| Particles.DrawFan | Particle.cpp:57-74 | the vertex loop draws numPoints radii and produces exactly the fan |
| Particles.DrawTraits | Particle.cpp:34-59 | the constructor's first eight draws give, in the order fixed under "## Left out", the spin, the horizontal and vertical velocity, the colour and the start angle |
| Particles.Particle.constructor | Particle.cpp:11-75 | a new particle: ttl is TTL, the center is the click, the spin, velocities and colours are the stated functions of the draws, `A` is the fan, and 8 + numPoints values are drawn |
| Particles.Particle.Translate | Particle.cpp:153-162 | every point and the center move by (xShift, yShift) |
| Particles.Particle.Rotate | Particle.cpp:127-137 | the points are turned about the center, and the center stays where it is |
| Particles.Particle.Scale | Particle.cpp:140-150 | the points are scaled about the center, and the center stays where it is |
| Particles.Particle.Update | Particle.cpp:115-124 | the new state is exactly one `Step` of the old state with this tick's angle dt * spin |
| Particles.Particle.UnitTests | Particle.cpp:169-309 | the score is the self-test's score on the old state; the shape ends up turned a quarter turn, halved and shifted by (10, 5); only the shape and the center change, so ttl and the velocities are as before |
| Engines.Survivors | Engine.cpp:78-95 | the particles kept are never more than those walked |
| Engines.KeptIndices | Engine.cpp:85 | every index kept is in range and has a positive ttl |
| Engines.SurvivorsSnoc | Engine.cpp:85-93 | walking one more particle appends it exactly when its ttl is positive |
| Engines.KeptIndicesIncrease | Engine.cpp:83-94 | the kept particles stay in their original order |
| Engines.KeptIndicesComplete | Engine.cpp:85 | every particle with a positive ttl is kept |
| Engines.SurvivorsAtKept | Engine.cpp:78-95 | survivor i is the particle at the i-th kept index |
| Engines.SurvivorsAdvance | Engine.cpp:85-93 | one step of the walk: keeping advances the iterator and leaves the vector unchanged; erasing removes the current element and does not advance |
| Engines.SurvivorIff | Engine.cpp:85-93 | a particle survives exactly when it was in the vector with a positive ttl |
| Engines.ErasedOnTheNextWalk | Engine.cpp:85-92 | a particle updated with ttl in (0, dt] survives this walk and is erased by the next one |
| Engines.SurvivorsDistinct | Engine.cpp:92 | erasing keeps the particles distinct |
| Engines.States | Engine.cpp:78-95 | the snapshot holds each particle's state, index by index |
| Engines.Ttls | Engine.cpp:85 | the ttl of each snapshot, index by index |
| Engines.PointCount | Engine.cpp:70 | a new particle has between 25 and 50 vertices |
| Engines.Counts | Engine.cpp:67-73 | one point count per particle spawned so far |
| Engines.CountsStep | Engine.cpp:67-73 | one more spawn draws its count where the previous particle's draws end, and its traits right after that count |
| Engines.Starts | Engine.cpp:67-73 | one trait position per particle spawned so far |
| Engines.StartsAt | Particle.cpp:34-36 | the m-th particle of a click draws its traits at the position right after the count drawn at its own spawn |
| Engines.CountsAt | Engine.cpp:70 | the m-th count of a click is the one drawn at the m-th spawn, and it lies in [25, 50] |
| Engines.Engine.constructor | Engine.cpp:9-15 | the engine starts with no particles |
| Engines.Engine.Visit | Engine.cpp:85-93 | a live particle is updated by one `Step` and the iterator advances; a dead one is erased and the iterator stays |
| Engines.Engine.WalkStarts | Engine.cpp:81 | the walk invariant holds with the iterator at the beginning |
| Engines.Engine.WalkEnds | Engine.cpp:83 | at the end of the vector, the vector is the survivors and each old particle is stepped or left alone by its ttl |
| Engines.Engine.Advance | Engine.cpp:83-94 | one iteration keeps the walk invariant and shortens the part not yet walked |
| Engines.Engine.Update | Engine.cpp:78-95 | the vector becomes exactly the old particles with a positive ttl, in order; each of them is advanced by one `Step`; the erased ones are unchanged |
| Engines.Engine.Emplace | Engine.cpp:72 | a new, well-formed particle at the click with the engine's tuning, the drawn count, ttl TTL, and the spin, velocities and colours of the next seven draws; 8 + numPoints values are drawn |
| Engines.Engine.Append | Engine.cpp:72 | the new particle goes at the end of the vector, after the ones already there, which keep their places and states |
| Engines.Engine.SpawnOne | Engine.cpp:69-72 | one iteration draws a count, appends one fresh particle with that count, ttl TTL and the traits drawn right after it, and keeps the spawn invariant |
| Engines.Engine.SpawnOnClick | Engine.cpp:64-73 | five fresh particles are appended after the old ones, which are unchanged; each is at the click, with the engine's tuning, ttl TTL, the count drawn at its turn, and the spin, velocities and colours of the draws right after that count |

## Left out

- Rendering: `Particle::draw`, `Engine::draw`, the SFML window and its views are not modelled (`Particle.cpp:78-112`, `Engine.cpp:97-107`). None of it affects the state.
- Pixel-to-Cartesian mapping (`Particle.cpp:23-32`) is left out, because `mapPixelToCoords` belongs to SFML. The constructor takes the Cartesian center directly.
- The event loop's window handling (`Engine.cpp:47-58`, closing on Closed or Escape) and `Engine::run` (`Engine.cpp:17-43`, the clock and the self-test particle) are I/O and are left out.
- Seeding with `srand(time(0))` in the engine constructor is left out. The generator is any sequence of draws in `[0, RAND_MAX]`.
- Floating point: `float` and `double` are modelled as mathematical reals, so rounding and the float-to-double casts are not captured.
- `cos`, `sin` and `fabs` belong to the C library. The first two are parameters, and `fabs` is written out.
- The `cout` messages of the self-test are not modelled; only its score is.
- `Matrices.h` and `Particle.h` are not part of this model. So `TTL`, `SCALE` and `G` are the fields of `Tuning`, `M_PI` is the `<cmath>` value, and the tolerance `eps` of `almostEqual`, a default argument declared in `Particle.h`, is a parameter of `UnitTests` and `AlmostEqual`.
- `Matrix::operator()` is declared in `Matrices.h`, which is not part of this model, so what an out-of-range read or write does is not modelled. Cell access is `At` and `Set`, with in-range indices required.
- Matrices.Add: requires operands of the same shape. The code loops over the shape of `lhs` and does not compare it with `rhs` (`Matrices.cpp:15-24`), so it also accepts an `rhs` with more rows or columns and ignores its extra cells; that case is not modelled. Every call meets the requirement: `translate` sizes `T` by `m_A.getCols()` (`Particle.cpp:155-158`).
- Matrices.Multiply: requires `lhs.cols == rhs.rows`. The code sums over `lhs.getCols()` terms (`Matrices.cpp:35-47`), so with `lhs.cols < rhs.rows` it also returns a value, summing over the first `lhs.cols` rows of `rhs`; that case is not modelled. Every call meets the requirement: `R` and `S` are 2 x 2 against the 2 x n `m_A` (`Particle.cpp:133-134`, `Particle.cpp:146-147`).
- Particles.DrawTraits: assumes the three `rand() % 256` arguments of `Color(...)` (`Particle.cpp:51-55`) are evaluated left to right, as red, green and blue from draws 4, 5 and 6 (counting from 0). C++ leaves the order of evaluation of function arguments unspecified, so a compiler may assign those three draws to the channels in another order.
- Particles.Particle.constructor: makes the same left-to-right assumption for the colour it stores in `color2`.
- Engines.Engine.Emplace: the contract keeps the new particle's center, tuning, vertex count, ttl, spin, velocities and colours, but not its start angle or vertices (`A` is the fan of `Particle.cpp:57-74`); the constructor's own contract states those.
- Engines.Engine.SpawnOne: the same gap for the particle it appends: its start angle and vertices are not carried, only what `Born` states.
- Engines.Engine.SpawnOnClick: the contracts of `Emplace`, `SpawnOne` and `SpawnOnClick` keep a new particle's center, tuning, vertex count, ttl, spin, velocities and colours, but not its start angle or vertices (`A` is the fan of `Particle.cpp:57-74`). The constructor's own contract states those.
- MatrixText.Render: the stream's number formatting is the `show` parameter, so the model states the layout of the text and not how the digits are written.
- Integer width: the `int` values involved (draws, point counts, 5 per click) are small and non-negative, so no wrap-around is modelled.
- `Uint8` colour components are modelled as `rand() % 256`, which the cast leaves unchanged.
