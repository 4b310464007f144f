/** The engine's collection of live particles: the per-frame update that
    advances every live particle by one tick and erases the expired ones,
    and the left click that appends five new particles. */
module Engines {
  import opened ParticleMotion
  import opened Particles
  import opened Random

  /** How many particles one left click creates. */
  const PARTICLES_PER_CLICK: nat := 5

  /** The entries of xs whose time to live (ttls, index for index) is
      positive, in their original order. */
  function Survivors<T>(xs: seq<T>, ttls: seq<real>): (ys: seq<T>)
    requires |xs| == |ttls|
    ensures |ys| <= |xs|
    decreases |xs|
  {
    if |xs| == 0 then []
    else
      var n := |xs| - 1;
      Survivors(xs[..n], ttls[..n]) + (if ttls[n] > 0.0 then [xs[n]] else [])
  }

  /** The indexes of the positive entries of ttls, in increasing order. */
  function KeptIndices(ttls: seq<real>): (idx: seq<nat>)
    ensures forall i :: 0 <= i < |idx| ==> idx[i] < |ttls| && ttls[idx[i]] > 0.0
    decreases |ttls|
  {
    if |ttls| == 0 then []
    else
      var n := |ttls| - 1;
      KeptIndices(ttls[..n]) + (if ttls[n] > 0.0 then [n] else [])
  }

  /** Taking one more entry into account extends the survivors by that entry
      exactly when it is alive. */
  lemma SurvivorsSnoc<T>(xs: seq<T>, ttls: seq<real>, k: nat)
    requires |xs| == |ttls| && k < |xs|
    ensures Survivors(xs[..k + 1], ttls[..k + 1])
            == Survivors(xs[..k], ttls[..k]) + (if ttls[k] > 0.0 then [xs[k]] else [])
  {
    assert xs[..k + 1][..k] == xs[..k];
    assert ttls[..k + 1][..k] == ttls[..k];
  }

  /** Each entry of s is smaller than the ones after it. */
  predicate Increasing(s: seq<nat>)
  {
    forall i, j :: 0 <= i < j < |s| ==> s[i] < s[j]
  }

  /** The kept indexes are strictly increasing. */
  lemma {:induction false} KeptIndicesIncrease(ttls: seq<real>)
    ensures Increasing(KeptIndices(ttls))
  {
    if |ttls| > 0 {
      var n := |ttls| - 1;
      KeptIndicesIncrease(ttls[..n]);
      var front, idx := KeptIndices(ttls[..n]), KeptIndices(ttls);
      assert idx == front + (if ttls[n] > 0.0 then [n] else []);
      forall i, j | 0 <= i < j < |idx|
        ensures idx[i] < idx[j]
      {
        assert idx[i] == front[i];
        if j >= |front| {
          assert idx[j] == n && front[i] < n;
        } else {
          assert idx[j] == front[j] && front[i] < front[j];
        }
      }
    }
  }

  /** Every index whose entry is positive is kept. */
  lemma {:induction false} KeptIndicesComplete(ttls: seq<real>)
    ensures forall k :: 0 <= k < |ttls| && ttls[k] > 0.0 ==> k in KeptIndices(ttls)
  {
    if |ttls| > 0 {
      var n := |ttls| - 1;
      KeptIndicesComplete(ttls[..n]);
      var front, idx := KeptIndices(ttls[..n]), KeptIndices(ttls);
      assert idx == front + (if ttls[n] > 0.0 then [n] else []);
      forall k | 0 <= k < |ttls| && ttls[k] > 0.0
        ensures k in idx
      {
        if k < n {
          assert ttls[..n][k] == ttls[k];
          assert k in front;
        }
      }
    }
  }

  /** The survivors are exactly the entries at the kept indexes, in order:
      the erasing loop is stable. */
  lemma {:induction false} SurvivorsAtKept<T>(xs: seq<T>, ttls: seq<real>)
    requires |xs| == |ttls|
    ensures var ys, idx := Survivors(xs, ttls), KeptIndices(ttls);
            |ys| == |idx| && forall i :: 0 <= i < |ys| ==> ys[i] == xs[idx[i]]
  {
    if |xs| > 0 {
      var n := |xs| - 1;
      SurvivorsAtKept(xs[..n], ttls[..n]);
    }
  }

  /** One more step of the erasing walk: with the first k entries done and
      the walk at position i, keeping entry k moves the walk to i + 1 and
      leaves the collection as it is, and erasing it removes position i. */
  lemma SurvivorsAdvance<T>(xs: seq<T>, ttls: seq<real>, k: nat, i: nat, before: seq<T>, after: seq<T>)
    requires |xs| == |ttls| && k < |xs|
    requires before == Survivors(xs[..k], ttls[..k]) + xs[k..] && i == |Survivors(xs[..k], ttls[..k])|
    requires ttls[k] > 0.0 ==> after == before
    requires ttls[k] <= 0.0 ==> after == before[..i] + before[i + 1..]
    ensures after == Survivors(xs[..k + 1], ttls[..k + 1]) + xs[k + 1..]
    ensures |Survivors(xs[..k + 1], ttls[..k + 1])| == if ttls[k] > 0.0 then i + 1 else i
  {
    SurvivorsSnoc(xs, ttls, k);
    var front := Survivors(xs[..k], ttls[..k]);
    assert xs[k..] == [xs[k]] + xs[k + 1..];
    if ttls[k] <= 0.0 {
      assert before[..i] == front;
      assert before[i + 1..] == xs[k + 1..];
    }
  }

  /** Something survives exactly when it is an entry whose time to live is
      positive. */
  lemma SurvivorIff<T>(xs: seq<T>, ttls: seq<real>, x: T)
    requires |xs| == |ttls|
    ensures x in Survivors(xs, ttls) <==> exists k :: 0 <= k < |xs| && xs[k] == x && ttls[k] > 0.0
  {
    var ys, idx := Survivors(xs, ttls), KeptIndices(ttls);
    SurvivorsAtKept(xs, ttls);
    KeptIndicesComplete(ttls);
    if x in ys {
      var i :| 0 <= i < |ys| && ys[i] == x;
      assert xs[idx[i]] == x && ttls[idx[i]] > 0.0;
    }
    if exists k :: 0 <= k < |xs| && xs[k] == x && ttls[k] > 0.0 {
      var k :| 0 <= k < |xs| && xs[k] == x && ttls[k] > 0.0;
      var i :| 0 <= i < |idx| && idx[i] == k;
      assert ys[i] == x;
    }
  }

  /** The time to live is tested before the tick: an entry alive on this
      walk survives it even when its tick takes its time to live to zero or
      below, and the next walk erases it. */
  lemma ErasedOnTheNextWalk<T>(xs: seq<T>, ttls: seq<real>, next: seq<real>, k: nat, dt: real)
    requires |xs| == |ttls| && k < |xs| && 0.0 < ttls[k] <= dt
    requires |next| == |Survivors(xs, ttls)|
    requires forall j :: 0 <= j < |next| && Survivors(xs, ttls)[j] == xs[k] ==> next[j] == ttls[k] - dt
    ensures xs[k] in Survivors(xs, ttls)
    ensures xs[k] !in Survivors(Survivors(xs, ttls), next)
  {
    var ys := Survivors(xs, ttls);
    SurvivorIff(xs, ttls, xs[k]);
    SurvivorIff(ys, next, xs[k]);
  }

  /** No two entries of s are the same. */
  predicate Distinct<T(==)>(s: seq<T>)
  {
    forall i, j :: 0 <= i < j < |s| ==> s[i] != s[j]
  }

  /** Erasing keeps distinct entries distinct. */
  lemma SurvivorsDistinct<T>(xs: seq<T>, ttls: seq<real>)
    requires |xs| == |ttls| && Distinct(xs)
    ensures Distinct(Survivors(xs, ttls))
  {
    var ys, idx := Survivors(xs, ttls), KeptIndices(ttls);
    SurvivorsAtKept(xs, ttls);
    KeptIndicesIncrease(ttls);
    forall i, j | 0 <= i < j < |ys|
      ensures ys[i] != ys[j]
    {
      assert idx[i] < idx[j];
    }
  }

  /** The states of ps, index for index. */
  function States(ps: seq<Particle>): (ss: seq<Snapshot>)
    reads ps
    ensures |ss| == |ps| && forall k :: 0 <= k < |ps| ==> ss[k] == ps[k].State()
  {
    if |ps| == 0 then [] else [ps[0].State()] + States(ps[1..])
  }

  /** The times to live of the states ss, index for index. */
  function Ttls(ss: seq<Snapshot>): (t: seq<real>)
    ensures |t| == |ss| && forall k :: 0 <= k < |ss| ==> t[k] == ss[k].ttl
  {
    seq(|ss|, k requires 0 <= k < |ss| => ss[k].ttl)
  }

  /** p is now where one tick takes a particle that was in state s0: it has
      turned by dt times its spin, shrunk and moved (see Step). */
  ghost predicate Advanced(p: Particle, s0: Snapshot, dt: real, cos: real -> real, sin: real -> real)
    requires IsPointSet(s0.points)
    reads p
  {
    p.State() == Step(s0, dt, p.tuning, cos(dt * p.spin), sin(dt * p.spin))
  }

  /** What rand() % 26 adds to 25: the vertex count of a new particle. */
  function PointCount(draw: nat): (n: nat)
    ensures 25 <= n <= 50
  {
    25 + draw % 26
  }

  /** The position in the stream of draws at which the i-th particle of a
      click starts: each takes one draw for its vertex count, eight for its
      traits and one per vertex. */
  ghost function SpawnStart(draws: nat -> nat, p0: nat, i: nat): nat
  {
    if i == 0 then p0
    else
      var s := SpawnStart(draws, p0, i - 1);
      s + 1 + 8 + PointCount(draws(s))
  }

  /** The vertex counts of the first i particles of a click whose draws
      start at p0. */
  ghost function Counts(draws: nat -> nat, p0: nat, i: nat): (ns: seq<nat>)
    ensures |ns| == i
  {
    if i == 0 then [] else Counts(draws, p0, i - 1) + [PointCount(draws(SpawnStart(draws, p0, i - 1)))]
  }


  /** Every particle of a click gets between 25 and 50 vertices, the m-th
      the count drawn at its own start. */
  lemma {:induction false} CountsAt(draws: nat -> nat, p0: nat, i: nat, m: nat)
    requires m < i
    ensures Counts(draws, p0, i)[m] == PointCount(draws(SpawnStart(draws, p0, m)))
    ensures 25 <= Counts(draws, p0, i)[m] <= 50
  {
    if m < i - 1 {
      CountsAt(draws, p0, i - 1, m);
    }
  }

  /** Where the draws of each of the first i particles of a click start,
      right after its vertex count. */
  ghost function Starts(draws: nat -> nat, p0: nat, i: nat): (ps: seq<nat>)
    ensures |ps| == i
  {
    if i == 0 then [] else Starts(draws, p0, i - 1) + [SpawnStart(draws, p0, i - 1) + 1]
  }

  /** One more particle of a click extends the counts by the one drawn at its
      start and the starts by the position right after it, and moves the next
      start past its draws. */
  lemma CountsStep(draws: nat -> nat, p0: nat, i: nat)
    ensures var s := SpawnStart(draws, p0, i);
            Counts(draws, p0, i + 1) == Counts(draws, p0, i) + [PointCount(draws(s))] &&
            Starts(draws, p0, i + 1) == Starts(draws, p0, i) + [s + 1] &&
            SpawnStart(draws, p0, i + 1) == s + 1 + 8 + PointCount(draws(s))
  {
  }

  /** The m-th particle of a click draws its traits right after the count at
      its own start. */
  lemma {:induction false} StartsAt(draws: nat -> nat, p0: nat, i: nat, m: nat)
    requires m < i
    ensures Starts(draws, p0, i)[m] == SpawnStart(draws, p0, m) + 1
  {
    if m < i - 1 {
      StartsAt(draws, p0, i - 1, m);
    }
  }

  /** p is as the constructor left it, vertices aside: created at `click`
      with the given tuning, n vertices and ttl TTL, and the spin,
      velocities and colours of draws pos to pos + 6. */
  ghost predicate Born(p: Particle, click: Vec2, tuning: Tuning, n: nat, draws: nat -> nat, randMax: nat, pos: nat)
    reads p
  {
    p.center == click && p.tuning == tuning && p.numPoints == n && p.ttl == tuning.lifetime &&
    0 < randMax && draws(pos) <= randMax && p.spin == Spin(draws(pos), randMax) &&
    p.vx == HorizontalVelocity(draws(pos + 1), draws(pos + 2)) && p.vy == VerticalVelocity(draws(pos + 3)) &&
    p.color1 == WHITE && p.color2 == Rgb(draws(pos + 4) % 256, draws(pos + 5) % 256, draws(pos + 6) % 256)
  }

  class Engine {
    /** The live particles, in creation order. */
    var particles: seq<Particle>
    /** The source of rand(). */
    const rng: Rand
    /** TTL, SCALE and G, shared by every particle. */
    const tuning: Tuning

    /** Every entry is a distinct, well-formed particle. */
    ghost predicate Valid()
      reads this, particles
    {
      rng.Valid() && Distinct(particles) && forall k :: 0 <= k < |particles| ==> particles[k].Valid()
    }

    /** An engine with no particles. */
    constructor (rng: Rand, tuning: Tuning)
      requires rng.Valid()
      ensures Valid() && particles == [] && this.rng == rng && this.tuning == tuning
    {
      particles := [];
      this.rng := rng;
      this.tuning := tuning;
    }

    /** Inspects entry i: a live particle is advanced one tick and i moves
        past it, an expired one is erased and i stays. */
    method Visit(i: nat, dt: real, cos: real -> real, sin: real -> real) returns (next: nat)
      requires Valid() && i < |particles|
      modifies this`particles, particles[i]
      ensures Valid()
      ensures old(particles[i].ttl) > 0.0 ==>
                next == i + 1 && particles == old(particles) &&
                Advanced(particles[i], old(particles[i].State()), dt, cos, sin)
      ensures old(particles[i].ttl) <= 0.0 ==>
                next == i && particles == old(particles[..i] + particles[i + 1..]) &&
                old(particles[i]).State() == old(particles[i].State())
    {
      var p := particles[i];
      if p.ttl > 0.0 {
        ghost var s0 := p.State();
        p.Update(dt, cos, sin);
        next := i + 1;
        assert Advanced(p, s0, dt, cos, sin);
        assert Advanced(particles[i], s0, dt, cos, sin);
      } else {
        particles := particles[..i] + particles[i + 1..];
        next := i;
        assert forall a :: a in particles ==> a in old(particles);
        forall a, b | 0 <= a < b < |particles|
          ensures particles[a] != particles[b]
        {
          var a', b' := if a < i then a else a + 1, if b < i then b else b + 1;
          assert particles[a] == old(particles)[a'] && particles[b] == old(particles)[b'];
        }
      }
    }

    /** Where the walk of `update` stands after it has inspected the first k
        of the particles olds it started with (their states then were states)
        and is at position i: those k are advanced and kept or erased
        untouched, and the rest are still there, untouched. */
    ghost predicate Walked(olds: seq<Particle>, states: seq<Snapshot>, dt: real,
                           cos: real -> real, sin: real -> real, k: nat, i: nat)
      reads this, particles, olds
    {
      |states| == |olds| && k <= |olds| && Distinct(olds) &&
      (forall j :: 0 <= j < |olds| ==> IsPointSet(states[j].points)) &&
      Valid() &&
      particles == Survivors(olds[..k], Ttls(states)[..k]) + olds[k..] &&
      i == |Survivors(olds[..k], Ttls(states)[..k])| &&
      (forall j :: 0 <= j < k ==>
         (states[j].ttl > 0.0 ==> Advanced(olds[j], states[j], dt, cos, sin)) &&
         (states[j].ttl <= 0.0 ==> olds[j].State() == states[j])) &&
      (forall j :: k <= j < |olds| ==> olds[j].State() == states[j])
    }

    /** The walk starts with nothing inspected, at position 0. */
    lemma WalkStarts(dt: real, cos: real -> real, sin: real -> real)
      requires Valid()
      ensures Walked(particles, States(particles), dt, cos, sin, 0, 0)
    {
      var olds, states := particles, States(particles);
      assert olds[..0] == [] && Ttls(states)[..0] == [] && olds[0..] == olds;
      forall j | 0 <= j < |olds|
        ensures IsPointSet(states[j].points)
      {
        assert olds[j].Valid();
      }
    }

    /** When the walk has passed the end, every particle has been inspected. */
    lemma WalkEnds(olds: seq<Particle>, states: seq<Snapshot>, dt: real,
                   cos: real -> real, sin: real -> real, k: nat, i: nat)
      requires Walked(olds, states, dt, cos, sin, k, i) && i >= |particles|
      ensures Valid() && particles == Survivors(olds, Ttls(states))
      ensures forall j :: 0 <= j < |olds| ==>
                (states[j].ttl > 0.0 ==> Advanced(olds[j], states[j], dt, cos, sin)) &&
                (states[j].ttl <= 0.0 ==> olds[j].State() == states[j])
    {
      assert k == |olds|;
      assert olds[..k] == olds && Ttls(states)[..k] == Ttls(states);
    }

    /** One turn of the loop of `update`. */
    method Advance(i: nat, dt: real, cos: real -> real, sin: real -> real,
                   ghost olds: seq<Particle>, ghost states: seq<Snapshot>, ghost k: nat)
      returns (next: nat)
      requires Walked(olds, states, dt, cos, sin, k, i) && i < |particles|
      modifies this`particles, olds[k]
      ensures k < |olds| && Walked(olds, states, dt, cos, sin, k + 1, next)
      ensures |particles| - next < old(|particles|) - i
    {
      ghost var before := particles;
      ghost var ttls := Ttls(states);
      assert before[i] == olds[k] && before[i].ttl == ttls[k];
      next := Visit(i, dt, cos, sin);
      SurvivorsAdvance(olds, ttls, k, i, before, particles);
    }

    /** `update(dt)`: walks the collection once; every particle whose time to
        live is positive on arrival is advanced one tick and kept, every other
        one is erased untouched, and the order of the kept ones does not
        change. */
    method Update(dt: real, cos: real -> real, sin: real -> real)
      requires Valid()
      modifies this`particles, particles
      ensures Valid()
      ensures particles == Survivors(old(particles), Ttls(old(States(particles))))
      ensures forall k :: 0 <= k < |old(particles)| ==>
                var p, s := old(particles[k]), old(States(particles))[k];
                (s.ttl > 0.0 ==> Advanced(p, s, dt, cos, sin)) &&
                (s.ttl <= 0.0 ==> p.State() == s)
    {
      ghost var olds := particles;
      ghost var states := States(particles);
      ghost var k: nat := 0;
      var i: nat := 0;
      WalkStarts(dt, cos, sin);
      while i < |particles|
        invariant Walked(olds, states, dt, cos, sin, k, i)
        decreases |particles| - i
      {
        i := Advance(i, dt, cos, sin, olds, states, k);
        k := k + 1;
      }
      WalkEnds(olds, states, dt, cos, sin, k, i);
    }

    /** After some particles of a click that started with the particles
        olds: the old ones are still first, and the new ones (all in created)
        follow, born at `click` with the vertex counts counts and the traits
        drawn from the positions starts. */
    ghost predicate Spawned(olds: seq<Particle>, click: Vec2, counts: seq<nat>, starts: seq<nat>, created: set<Particle>)
      reads this, particles
    {
      Valid() && |particles| == |olds| + |counts| && |starts| == |counts| && particles[..|olds|] == olds &&
      forall j :: |olds| <= j < |particles| ==>
        particles[j] in created &&
        Born(particles[j], click, tuning, counts[j - |olds|], rng.oracle, rng.randMax, starts[j - |olds|])
    }

    /** The construction half of `emplace_back`: a new particle from the
        engine's generator and tuning. */
    method Emplace(numPoints: nat, click: Vec2, cos: real -> real, sin: real -> real) returns (p: Particle)
      requires rng.Valid()
      modifies rng
      ensures fresh(p) && p.Valid() && Born(p, click, tuning, numPoints, rng.oracle, rng.randMax, old(rng.pos))
      ensures rng.pos == old(rng.pos) + 8 + numPoints
    {
      p := new Particle(numPoints, click, rng, tuning, cos, sin);
    }

    /** The appending half of `emplace_back`: p, new and born at `click`,
        goes after the particles spawned so far. */
    method Append(p: Particle, ghost olds: seq<Particle>, ghost click: Vec2, ghost counts: seq<nat>,
                  ghost starts: seq<nat>, ghost created: set<Particle>, ghost n: nat, ghost start: nat,
                  ghost counts': seq<nat>, ghost starts': seq<nat>)
      requires Spawned(olds, click, counts, starts, created) && p !in particles && p.Valid()
      requires Born(p, click, tuning, n, rng.oracle, rng.randMax, start)
      requires counts' == counts + [n] && starts' == starts + [start]
      modifies this`particles
      ensures Spawned(olds, click, counts', starts', created + {p})
      ensures particles == old(particles) + [p]
    {
      particles := particles + [p];
      assert particles[..|olds|] == old(particles)[..|olds|];
      assert Distinct(particles) by {
        forall a, b | 0 <= a < b < |particles|
          ensures particles[a] != particles[b]
        {
          if b == |old(particles)| {
            assert particles[a] in old(particles);
          }
        }
      }
      forall j | |olds| <= j < |particles|
        ensures particles[j] in created + {p} &&
                Born(particles[j], click, tuning, counts'[j - |olds|], rng.oracle, rng.randMax, starts'[j - |olds|])
      {
        if j < |particles| - 1 {
          assert particles[j] == old(particles)[j];
        }
      }
    }

    /** One particle of a click: draws its vertex count, 25 plus rand() % 26,
        and appends a new particle with that many vertices at `click`. */
    method SpawnOne(click: Vec2, cos: real -> real, sin: real -> real,
                    ghost olds: seq<Particle>, ghost p0: nat, ghost i: nat, ghost created: set<Particle>)
      returns (p: Particle)
      requires Spawned(olds, click, Counts(rng.oracle, p0, i), Starts(rng.oracle, p0, i), created) && rng.pos == SpawnStart(rng.oracle, p0, i)
      modifies this`particles, rng
      ensures Spawned(olds, click, Counts(rng.oracle, p0, i + 1), Starts(rng.oracle, p0, i + 1), created + {p})
      ensures rng.pos == SpawnStart(rng.oracle, p0, i + 1)
      ensures fresh(p) && particles == old(particles) + [p]
    {
      ghost var s := SpawnStart(rng.oracle, p0, i);
      CountsStep(rng.oracle, p0, i);
      var draw := rng.Next();
      var numPoints := 25 + draw % 26;
      assert numPoints == PointCount(rng.oracle(s));
      ghost var start := rng.pos;
      assert start == s + 1;
      p := Emplace(numPoints, click, cos, sin);
      Append(p, olds, click, Counts(rng.oracle, p0, i), Starts(rng.oracle, p0, i), created, numPoints, start,
             Counts(rng.oracle, p0, i + 1), Starts(rng.oracle, p0, i + 1));
    }

    /** The left click of `input()`: five particles at `click`, appended after
        the existing ones, which are left as they were; the m-th new one has
        Counts(...)[m] vertices, a number between 25 and 50 (CountsAt), and
        the traits of the draws from Starts(...)[m] on, right after that
        count (StartsAt). */
    method SpawnOnClick(click: Vec2, cos: real -> real, sin: real -> real)
      requires Valid()
      modifies this`particles, rng
      ensures Valid()
      ensures |particles| == |old(particles)| + PARTICLES_PER_CLICK
      ensures particles[..|old(particles)|] == old(particles)
      ensures forall p :: p in old(particles) ==> p.State() == old(p.State())
      ensures forall j :: |old(particles)| <= j < |particles| ==>
                fresh(particles[j]) &&
                Born(particles[j], click, tuning, Counts(rng.oracle, old(rng.pos), PARTICLES_PER_CLICK)[j - |old(particles)|],
                     rng.oracle, rng.randMax, Starts(rng.oracle, old(rng.pos), PARTICLES_PER_CLICK)[j - |old(particles)|])
      ensures rng.pos == SpawnStart(rng.oracle, old(rng.pos), PARTICLES_PER_CLICK)
    {
      ghost var olds := particles;
      ghost var p0 := rng.pos;
      assert particles[..|olds|] == olds;
      ghost var created: set<Particle> := {};
      for i := 0 to PARTICLES_PER_CLICK
        invariant Spawned(olds, click, Counts(rng.oracle, p0, i), Starts(rng.oracle, p0, i), created)
        invariant rng.pos == SpawnStart(rng.oracle, p0, i)
        invariant fresh(created)
      {
        var p := SpawnOne(click, cos, sin, olds, p0, i, created);
        created := created + {p};
      }
    }
  }
}
