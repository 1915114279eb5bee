/** Properties of the engine's step rules that relate several calls: conservation over a
    sequence of marbles, when the pair resolver stops the scan, the reflection used by the
    bowl, and the rest detector's counter. */
module PhysicsLaws {
  import opened MarblePhysics

  // ---------------------------------------------------------------------------------
  // Sums

  /** Replacing one marble changes a coordinate sum by the difference of that coordinate. */
  lemma {:induction false} SumUpdate(s: seq<Body>, i: nat, v: Body, a: Axis)
    requires i < |s|
    ensures Sum(s[i := v], a) == Sum(s, a) - Coord(s[i], a) + Coord(v, a)
    decreases |s|
  {
    var n := |s| - 1;
    assert s[i := v][..n] == if i == n then s[..n] else s[..n][i := v];
    if i < n {
      SumUpdate(s[..n], i, v, a);
    }
  }

  /** Replacing two distinct marbles by values with the same coordinate sum leaves the
      total unchanged: the step that makes a resolved pair conserve the jar's totals. */
  lemma {:induction false} SumUpdatePair(s: seq<Body>, i: nat, j: nat, u: Body, v: Body, a: Axis)
    requires i < |s| && j < |s| && i != j
    requires Coord(u, a) + Coord(v, a) == Coord(s[i], a) + Coord(s[j], a)
    ensures Sum(s[i := u][j := v], a) == Sum(s, a)
  {
    SumUpdate(s, i, u, a);
    SumUpdate(s[i := u], j, v, a);
  }

  // ---------------------------------------------------------------------------------
  // Square roots and reflection

  /** `speed < RestSpeed` decides the same as the squared comparison `Slow` uses. */
  lemma SpeedThreshold(speed: real, squared: real)
    requires 0.0 <= speed && speed * speed == squared
    ensures speed < RestSpeed <==> squared < RestSpeed * RestSpeed
  {
    if speed < RestSpeed {
      assert speed * speed <= speed * RestSpeed < RestSpeed * RestSpeed;
    } else {
      assert speed * speed >= RestSpeed * speed >= RestSpeed * RestSpeed;
    }
  }

  /** The distance between two marbles does not depend on which one scans. */
  lemma DistanceSymmetric(s: Body, o: Body, sqrt: real -> real)
    ensures Distance(s, o, sqrt) == Distance(o, s, sqrt)
  {
    assert (s.x - o.x) * (s.x - o.x) + (s.y - o.y) * (s.y - o.y)
        == (o.x - s.x) * (o.x - s.x) + (o.y - s.y) * (o.y - s.y);
  }

  /** Reflection about a unit normal scales the velocity's normal component by
      `1 - 2*bounce` and keeps its tangential component. */
  lemma ReflectSplit(vx: real, vy: real, nx: real, ny: real, bounce: real)
    requires nx * nx + ny * ny == 1.0
    ensures var v := Reflect(vx, vy, nx, ny, bounce);
      && v.0 * nx + v.1 * ny == (1.0 - 2.0 * bounce) * (vx * nx + vy * ny)
      && v.1 * nx - v.0 * ny == vy * nx - vx * ny
  {
    var dot := vx * nx + vy * ny;
    var v := Reflect(vx, vy, nx, ny, bounce);
    calc {
      v.0 * nx + v.1 * ny;
      (vx - 2.0 * dot * nx * bounce) * nx + (vy - 2.0 * dot * ny * bounce) * ny;
      dot - 2.0 * dot * bounce * (nx * nx + ny * ny);
      (1.0 - 2.0 * bounce) * dot;
    }
    calc {
      v.1 * nx - v.0 * ny;
      (vy - 2.0 * dot * ny * bounce) * nx - (vx - 2.0 * dot * nx * bounce) * ny;
      vy * nx - vx * ny;
    }
  }

  // ---------------------------------------------------------------------------------
  // Pairwise resolver

  /** The pair's counterpart of `ReflectSplit`: when a touching pair does not exit, the
      relative velocity is reflected about the unit normal (dx, dy) / d, so its normal
      component is scaled by `1 - 2*bounce` and its tangential component is kept.
      With the pair sums of `PairStep` this fixes both new velocities. */
  lemma PairImpulse(s: Body, o: Body, rs: real, ro: real, bounce: real, d: real)
    requires 0.0 < d < rs + ro
    requires ((o.x - s.x) / d) * ((o.x - s.x) / d) + ((o.y - s.y) / d) * ((o.y - s.y) / d) == 1.0
    requires !PairStep(s, o, rs, ro, bounce, d).exit
    ensures var r := PairStep(s, o, rs, ro, bounce, d);
      var nx, ny := (o.x - s.x) / d, (o.y - s.y) / d;
      && (r.other.vx - r.self.vx) * nx + (r.other.vy - r.self.vy) * ny
         == (1.0 - 2.0 * bounce) * ((o.vx - s.vx) * nx + (o.vy - s.vy) * ny)
      && (r.other.vy - r.self.vy) * nx - (r.other.vx - r.self.vx) * ny
         == (o.vy - s.vy) * nx - (o.vx - s.vx) * ny
  {
    var r := PairStep(s, o, rs, ro, bounce, d);
    var nx, ny := (o.x - s.x) / d, (o.y - s.y) / d;
    var rvx, rvy := o.vx - s.vx, o.vy - s.vy;
    var dot := rvx * nx + rvy * ny;
    PairVelocities(s, o, rs, ro, bounce, d);
    assert r.other.vx - r.self.vx == rvx - 2.0 * dot * nx * bounce;
    assert r.other.vy - r.self.vy == rvy - 2.0 * dot * ny * bounce;
    ReflectSplit(rvx, rvy, nx, ny, bounce);
  }

  /** The velocities a touching pair that does not exit ends with: each marble takes the
      impulse `speed` along the normal, scaled by `bounce`, in opposite directions. */
  lemma PairVelocities(s: Body, o: Body, rs: real, ro: real, bounce: real, d: real)
    requires 0.0 < d < rs + ro
    requires !PairStep(s, o, rs, ro, bounce, d).exit
    ensures var r := PairStep(s, o, rs, ro, bounce, d);
      var nx, ny := (o.x - s.x) / d, (o.y - s.y) / d;
      var speed := (o.vx - s.vx) * nx + (o.vy - s.vy) * ny;
      && r.self.vx == s.vx + speed * nx * bounce && r.self.vy == s.vy + speed * ny * bounce
      && r.other.vx == o.vx - speed * nx * bounce && r.other.vy == o.vy - speed * ny * bounce
  {
  }

  /** For a touching pair, the scan stops exactly when the two marbles are moving towards
      each other: the early exit skips the approaching pairs, not the separating ones. */
  lemma PairExitsIffApproaching(s: Body, o: Body, rs: real, ro: real, bounce: real, d: real)
    requires 0.0 < d < rs + ro
    ensures PairStep(s, o, rs, ro, bounce, d).exit <==> Approaching(s, o)
  {
    var dx, dy := o.x - s.x, o.y - s.y;
    var speed := (o.vx - s.vx) * (dx / d) + (o.vy - s.vy) * (dy / d);
    assert speed * d == (o.vx - s.vx) * dx + (o.vy - s.vy) * dy;
    if speed < 0.0 {
      assert speed * d < 0.0;
    } else {
      assert speed * d >= 0.0;
    }
  }

  /** One resolved pair moves the two centres apart by half the overlap each, along
      the line through them; `PushedApart` shows that this leaves them exactly
      `rs + ro` apart. */
  lemma PairPush(s: Body, o: Body, rs: real, ro: real, bounce: real, d: real)
    requires 0.0 < d < rs + ro
    ensures var r := PairStep(s, o, rs, ro, bounce, d);
      var dx, dy := o.x - s.x, o.y - s.y;
      && r.other.x - r.self.x == dx + 2.0 * ((dx / d) * ((rs + ro - d) / 2.0))
      && r.other.y - r.self.y == dy + 2.0 * ((dy / d) * ((rs + ro - d) / 2.0))
  {
  }

  /** Pushing the ends of a vector (dx, dy) of length `d` apart by half of `m - d`
      each, along the vector, gives a vector (ex, ey) of length `m`. */
  lemma PushedApart(ex: real, ey: real, dx: real, dy: real, d: real, m: real)
    requires d > 0.0 && d * d == dx * dx + dy * dy
    requires ex == dx + 2.0 * ((dx / d) * ((m - d) / 2.0))
    requires ey == dy + 2.0 * ((dy / d) * ((m - d) / 2.0))
    ensures ex * ex + ey * ey == m * m
  {
    var k := m / d;
    assert (dx / d) * (m - d) == dx * k - dx;
    assert (dy / d) * (m - d) == dy * k - dy;
    assert ex == dx * k && ey == dy * k;
    assert ex * ex + ey * ey == (dx * dx + dy * dy) * (k * k);
    assert d * k == m;
  }

  /** A touching pair on the x axis that is not approaching: the other marble moves on by
      half the overlap and its vx drops by `(o.vx - s.vx) * bounce`; its y, vy and rest
      fields are kept. */
  lemma HeadOnPush(s: Body, o: Body, rs: real, ro: real, bounce: real, d: real)
    requires o.y == s.y && o.x - s.x == d && 0.0 < d < rs + ro && o.vx >= s.vx
    ensures PairStep(s, o, rs, ro, bounce, d).other ==
      o.(x := o.x + (rs + ro - d) / 2.0, vx := o.vx - (o.vx - s.vx) * bounce)
  {
    assert (o.x - s.x) / d == 1.0;
    assert (o.y - s.y) / d == 0.0;
  }

  /** A settled marble is not a fixed obstacle: as the `other` of a moving marble's scan
      it is pushed and given a velocity, while it stays marked as settled. */
  lemma SettledMarbleIsDisturbed()
    ensures var s := Body(0.0, 0.0, -1.0, 0.0, false, 0);
      var o := Body(15.0, 0.0, 0.0, 0.0, true, 31);
      var r := PairStep(s, o, 10.0, 10.0, 0.6, 15.0);
      r.other.settled && r.other.x == 17.5 && r.other.vx == -0.6
  {
    HeadOnPush(Body(0.0, 0.0, -1.0, 0.0, false, 0), Body(15.0, 0.0, 0.0, 0.0, true, 31), 10.0, 10.0, 0.6, 15.0);
  }

  // ---------------------------------------------------------------------------------
  // Rest detector

  /** A run of slow steps adds one to the counter per step, and the marble is settled
      at the end exactly when it was already settled or the counter passed `RestFrames`. */
  lemma {:induction false} SlowRun(b: Body, vs: seq<(real, real)>)
    requires forall i :: 0 <= i < |vs| ==> vs[i].0 * vs[i].0 + vs[i].1 * vs[i].1 < RestSpeed * RestSpeed
    ensures Detect(b, vs).settleTime == b.settleTime + |vs|
    ensures Detect(b, vs).settled <==> b.settled || (|vs| > 0 && b.settleTime + |vs| > RestFrames)
    decreases |vs|
  {
    if vs != [] {
      var b1 := RestStep(b.(vx := vs[0].0, vy := vs[0].1));
      assert Slow(b.(vx := vs[0].0, vy := vs[0].1));
      SlowRun(b1, vs[1..]);
    }
  }

  /** From a fresh counter, a moving marble settles on its 31st consecutive slow step and
      not before. */
  lemma SettlesOnStep31(b: Body, vs: seq<(real, real)>)
    requires !b.settled && b.settleTime == 0
    requires forall i :: 0 <= i < |vs| ==> vs[i].0 * vs[i].0 + vs[i].1 * vs[i].1 < RestSpeed * RestSpeed
    ensures Detect(b, vs).settled <==> |vs| >= RestFrames + 1
  {
    SlowRun(b, vs);
  }

  /** One fast step anywhere in the run restarts the count: after it, the counter only
      reflects the slow steps that follow. */
  lemma {:induction false} FastStepResets(b: Body, v: (real, real), vs: seq<(real, real)>)
    requires !(v.0 * v.0 + v.1 * v.1 < RestSpeed * RestSpeed)
    requires forall i :: 0 <= i < |vs| ==> vs[i].0 * vs[i].0 + vs[i].1 * vs[i].1 < RestSpeed * RestSpeed
    ensures Detect(b, [v] + vs).settleTime == |vs|
    ensures !b.settled ==> (Detect(b, [v] + vs).settled <==> |vs| > RestFrames)
  {
    var b1 := RestStep(b.(vx := v.0, vy := v.1));
    assert ([v] + vs)[1..] == vs;
    assert b1.settleTime == 0;
    SlowRun(b1, vs);
  }
}
