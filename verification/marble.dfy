/** The `Marble` class: one marble whose position, velocity and rest-detector fields are
    updated in place once per animation frame. Each method is specified by the pure step
    rules of `MarblePhysics`; `Scan` specifies the pairwise scan over all marbles of the
    jar, seen as the sequence of their states. */
module Marbles {
  import opened MarblePhysics
  import opened PhysicsLaws

  /** The constants every marble is created with. */
  const Radius: real := 10.0
  const Bounce: real := 0.6
  const Friction: real := 0.98
  const Gravity: real := 0.5

  /** No marble occurs twice in the sequence. */
  predicate Distinct(ms: seq<Marble>) {
    forall i, j :: 0 <= i < j < |ms| ==> ms[i] != ms[j]
  }

  /** Where `m` first occurs in `ms`. */
  function IndexOf(ms: seq<Marble>, m: Marble): (r: nat)
    requires m in ms
    ensures r < |ms| && ms[r] == m
  {
    if ms[0] == m then 0 else 1 + IndexOf(ms[1..], m)
  }

  /** The states of the marbles of `ms`, in order. */
  ghost function Snap(ms: seq<Marble>): (r: seq<Body>)
    reads set m | m in ms
    ensures |r| == |ms| && forall k :: 0 <= k < |ms| ==> r[k] == ms[k].State()
  {
    seq(|ms|, k reads set m | m in ms requires 0 <= k < |ms| => ms[k].State())
  }

  /** `checkMarbleCollisions` on values. `ws[me]` is the scanning marble; the scan visits
      indices `k` to `n - 1`, skips `me`, resolves each pair with `PairStep`, and stops
      at the first pair whose step exits. */
  function Scan(ws: seq<Body>, me: nat, k: nat, n: nat, sqrt: real -> real): (r: seq<Body>)
    requires me < |ws| && k <= n <= |ws|
    ensures |r| == |ws|
    decreases n - k
  {
    if k == n then ws
    else if k == me then Scan(ws, me, k + 1, n, sqrt)
    else
      var c := PairStep(ws[me], ws[k], Radius, Radius, Bounce, Distance(ws[me], ws[k], sqrt));
      var ws1 := ws[me := c.self][k := c.other];
      if c.exit then ws1 else Scan(ws1, me, k + 1, n, sqrt)
  }

  /** The index at which `Scan` stops early, or `n` when it runs to the end. */
  function ExitIndex(ws: seq<Body>, me: nat, k: nat, n: nat, sqrt: real -> real): (r: nat)
    requires me < |ws| && k <= n <= |ws|
    ensures k <= r <= n
    decreases n - k
  {
    if k == n then n
    else if k == me then ExitIndex(ws, me, k + 1, n, sqrt)
    else
      var c := PairStep(ws[me], ws[k], Radius, Radius, Bounce, Distance(ws[me], ws[k], sqrt));
      if c.exit then k else ExitIndex(ws[me := c.self][k := c.other], me, k + 1, n, sqrt)
  }

  /** `update` on values: the marble at `me` of `ws` takes one frame, scanning the
      first `n` entries; a settled marble leaves everything as it was. */
  function Step(ws: seq<Body>, me: nat, n: nat, jb: Bounds, sqrt: real -> real): (r: seq<Body>)
    requires me < |ws| && n <= |ws|
    ensures |r| == |ws|
    ensures ws[me].settled ==> r == ws
  {
    if ws[me].settled then ws
    else
      var b := JarCollision(Integrate(ws[me], Gravity, Friction), Radius, Bounce, jb, sqrt);
      var scanned := Scan(ws[me := b], me, 0, n, sqrt);
      scanned[me := RestStep(scanned[me])]
  }

  /** One resolved pair keeps each coordinate sum of the whole sequence. */
  lemma PairKeepsSums(ws: seq<Body>, me: nat, k: nat, sqrt: real -> real, a: Axis)
    requires me < |ws| && k < |ws| && k != me
    ensures var c := PairStep(ws[me], ws[k], Radius, Radius, Bounce, Distance(ws[me], ws[k], sqrt));
      Sum(ws[me := c.self][k := c.other], a) == Sum(ws, a)
  {
    var c := PairStep(ws[me], ws[k], Radius, Radius, Bounce, Distance(ws[me], ws[k], sqrt));
    assert Coord(c.self, a) + Coord(c.other, a) == Coord(ws[me], a) + Coord(ws[k], a);
    SumUpdatePair(ws, me, k, c.self, c.other, a);
  }

  /** The scan conserves the sum of the positions and the sum of the velocities over
      all marbles, whether it runs to the end or stops early. */
  lemma {:induction false} ScanConserves(ws: seq<Body>, me: nat, k: nat, n: nat, sqrt: real -> real, a: Axis)
    requires me < |ws| && k <= n <= |ws|
    ensures Sum(Scan(ws, me, k, n, sqrt), a) == Sum(ws, a)
    decreases n - k
  {
    if k < n {
      if k == me {
        ScanConserves(ws, me, k + 1, n, sqrt, a);
      } else {
        var c := PairStep(ws[me], ws[k], Radius, Radius, Bounce, Distance(ws[me], ws[k], sqrt));
        PairKeepsSums(ws, me, k, sqrt, a);
        if !c.exit {
          ScanConserves(ws[me := c.self][k := c.other], me, k + 1, n, sqrt, a);
        }
      }
    }
  }

  /** The scan never changes whether a marble is settled, nor its rest counter. */
  lemma {:induction false} ScanKeepsRest(ws: seq<Body>, me: nat, k: nat, n: nat, sqrt: real -> real)
    requires me < |ws| && k <= n <= |ws|
    ensures forall i :: 0 <= i < |ws| ==>
      Scan(ws, me, k, n, sqrt)[i].settled == ws[i].settled &&
      Scan(ws, me, k, n, sqrt)[i].settleTime == ws[i].settleTime
    decreases n - k
  {
    if k < n {
      if k == me {
        ScanKeepsRest(ws, me, k + 1, n, sqrt);
      } else {
        var c := PairStep(ws[me], ws[k], Radius, Radius, Bounce, Distance(ws[me], ws[k], sqrt));
        if !c.exit {
          ScanKeepsRest(ws[me := c.self][k := c.other], me, k + 1, n, sqrt);
        }
      }
    }
  }

  /** Only the scanning marble and the marbles the scan reached are changed: those
      before `k` and those after the index where it stopped are left as they were. */
  lemma {:induction false} ScanStopsAtExit(ws: seq<Body>, me: nat, k: nat, n: nat, sqrt: real -> real)
    requires me < |ws| && k <= n <= |ws|
    ensures forall i :: 0 <= i < |ws| && i != me && (i < k || ExitIndex(ws, me, k, n, sqrt) < i) ==>
      Scan(ws, me, k, n, sqrt)[i] == ws[i]
    decreases n - k
  {
    if k < n {
      if k == me {
        ScanStopsAtExit(ws, me, k + 1, n, sqrt);
      } else {
        var c := PairStep(ws[me], ws[k], Radius, Radius, Bounce, Distance(ws[me], ws[k], sqrt));
        if !c.exit {
          ScanStopsAtExit(ws[me := c.self][k := c.other], me, k + 1, n, sqrt);
        }
      }
    }
  }

  /** A frame never un-settles a marble and never touches the rest detector of any
      marble other than the one taking the frame; the one taking it settles only
      through the rest detector, which stops it. */
  lemma StepKeepsSettled(ws: seq<Body>, me: nat, n: nat, jb: Bounds, sqrt: real -> real)
    requires me < |ws| && n <= |ws|
    ensures var r := Step(ws, me, n, jb, sqrt);
      && (forall i :: 0 <= i < |ws| && ws[i].settled ==> r[i].settled)
      && (forall i :: 0 <= i < |ws| && i != me ==>
            r[i].settled == ws[i].settled && r[i].settleTime == ws[i].settleTime)
      && (r[me].settled && !ws[me].settled ==> r[me].vx == 0.0 && r[me].vy == 0.0)
  {
    if !ws[me].settled {
      var b := JarCollision(Integrate(ws[me], Gravity, Friction), Radius, Bounce, jb, sqrt);
      ScanKeepsRest(ws[me := b], me, 0, n, sqrt);
    }
  }

  class Marble {
    var x: real
    var y: real
    var vx: real
    var vy: real
    const radius: real := Radius
    const color: string
    const bounce: real := Bounce
    const friction: real := Friction
    const gravity: real := Gravity
    var settled: bool
    var settleTime: nat

    /** A new marble at rest at (x0, y0), not settled. */
    constructor (x0: real, y0: real, color: string)
      ensures State() == Body(x0, y0, 0.0, 0.0, false, 0) && this.color == color
    {
      x, y := x0, y0;
      vx, vy := 0.0, 0.0;
      this.color := color;
      settled := false;
      settleTime := 0;
    }

    function State(): Body
      reads this
    {
      Body(x, y, vx, vy, settled, settleTime)
    }

    /** Where this marble's state sits in `World(ms)`. */
    function Me(ms: seq<Marble>): nat {
      if this in ms then IndexOf(ms, this) else |ms|
    }

    /** The states of `ms`, followed by this marble's state when it is not one of them. */
    ghost function World(ms: seq<Marble>): (r: seq<Body>)
      reads this, set m | m in ms
      ensures |r| == if this in ms then |ms| else |ms| + 1
      ensures Me(ms) < |r| && r[Me(ms)] == State()
      ensures forall k :: 0 <= k < |ms| ==> r[k] == ms[k].State()
    {
      if this in ms then Snap(ms) else Snap(ms) + [State()]
    }

    /** One animation frame for this marble: nothing when it is settled; otherwise
        gravity, movement and friction, then the jar boundary, the scan over all marbles,
        and the rest detector, each as its step rule states. */
    method Update(marbles: seq<Marble>, jb: Bounds, sqrt: real -> real)
      requires IsSqrt(sqrt) && Distinct(marbles)
      modifies this, set m | m in marbles
      ensures World(marbles) == Step(old(World(marbles)), Me(marbles), |marbles|, jb, sqrt)
    {
      if settled {
        return;
      }
      ghost var ws := World(marbles);
      ghost var me := Me(marbles);

      vy := vy + gravity;
      x := x + vx;
      y := y + vy;
      vx := vx * friction;
      vy := vy * friction;
      assert State() == Integrate(ws[me], Gravity, Friction);
      CheckJarCollision(jb, sqrt);
      ghost var b := State();
      assert World(marbles) == ws[me := b] by {
        forall j | 0 <= j < |ws| && j != me
          ensures World(marbles)[j] == ws[j]
        {
          assert marbles[j] != this;
        }
      }

      CheckMarbleCollisions(marbles, sqrt);
      ghost var scanned := World(marbles);

      CheckIfSettled(sqrt);
      assert World(marbles) == scanned[me := State()] by {
        forall j | 0 <= j < |ws| && j != me
          ensures World(marbles)[j] == scanned[j]
        {
          assert marbles[j] != this;
        }
      }
    }

    /** `checkJarCollision`: the flat floor, then either the bowl or the side walls. */
    method CheckJarCollision(jb: Bounds, sqrt: real -> real)
      modifies this
      ensures State() == JarCollision(old(State()), radius, bounce, jb, sqrt)
    {
      CheckFloor(jb);
      if y >= jb.curveStart {
        CheckBowl(jb, sqrt);
      } else {
        CheckWalls(jb);
      }
    }

    /** The flat-floor branch of `checkJarCollision`. */
    method CheckFloor(jb: Bounds)
      modifies this
      ensures State() == FloorClamp(old(State()), radius, bounce, jb)
    {
      var left, right, bottom := jb.left, jb.right, jb.bottom;
      if y + radius >= bottom {
        var centerX := (left + right) / 2.0;
        var distFromCenter := Abs(x - centerX);
        var maxDistAtBottom := (right - left) / 2.0 - radius;
        if distFromCenter <= maxDistAtBottom {
          y := bottom - radius;
          vy := vy * -bounce;
          if Abs(vy) < JitterSpeed {
            vy := 0.0;
          }
        }
      }
    }

    /** The curved-bowl branch of `checkJarCollision`: the new position and velocity
        are computed from the current ones by `Bowl`, then written back. */
    method CheckBowl(jb: Bounds, sqrt: real -> real)
      modifies this
      ensures State() == Bowl(old(State()), radius, bounce, jb, sqrt)
    {
      var r := Bowl(State(), radius, bounce, jb, sqrt);
      x, y := r.x, r.y;
      vx, vy := r.vx, r.vy;
    }

    /** The side-wall branch of `checkJarCollision`. */
    method CheckWalls(jb: Bounds)
      modifies this
      ensures State() == SideWalls(old(State()), radius, bounce, jb)
    {
      if x - radius <= jb.left {
        x := jb.left + radius;
        vx := vx * -bounce;
      }
      if x + radius >= jb.right {
        x := jb.right - radius;
        vx := vx * -bounce;
      }
    }

    /** `checkMarbleCollisions`: resolve this marble against every other marble in
        array order, stopping at the first pair whose step exits. */
    method CheckMarbleCollisions(marbles: seq<Marble>, sqrt: real -> real)
      requires Distinct(marbles)
      modifies this, set m | m in marbles
      ensures World(marbles) == Scan(old(World(marbles)), Me(marbles), 0, |marbles|, sqrt)
    {
      ghost var ws0 := World(marbles);
      ghost var me := Me(marbles);
      var k := 0;
      while k < |marbles|
        invariant k <= |marbles| && |World(marbles)| == |ws0|
        invariant Scan(World(marbles), me, k, |marbles|, sqrt) == Scan(ws0, me, 0, |marbles|, sqrt)
      {
        var other := marbles[k];
        if other != this {
          ghost var ws := World(marbles);
          ghost var c := PairStep(ws[me], ws[k], Radius, Radius, Bounce, Distance(ws[me], ws[k], sqrt));
          assert k != me;
          var exit := Collide(other, sqrt);
          assert World(marbles) == ws[me := c.self][k := c.other] by {
            forall j | 0 <= j < |ws| && j != me && j != k
              ensures World(marbles)[j] == ws[j]
            {
              assert marbles[j] != this && marbles[j] != other;
            }
          }
          if exit {
            return;
          }
        }
        k := k + 1;
      }
    }

    /** One pair of `checkMarbleCollisions`: the new positions and velocities of both
        marbles are computed by `PairStep` and written back; `exit` reports that the scan
        stops at this pair. */
    method Collide(other: Marble, sqrt: real -> real) returns (exit: bool)
      requires other != this
      modifies this, other
      ensures Contact(State(), other.State(), exit) ==
        PairStep(old(State()), old(other.State()), radius, other.radius, bounce,
                 Distance(old(State()), old(other.State()), sqrt))
    {
      var c := PairStep(State(), other.State(), radius, other.radius, bounce,
                        Distance(State(), other.State(), sqrt));
      x, y, vx, vy := c.self.x, c.self.y, c.self.vx, c.self.vy;
      other.x, other.y, other.vx, other.vy := c.other.x, c.other.y, c.other.vx, c.other.vy;
      exit := c.exit;
    }

    /** `checkIfSettled`: the rest detector, comparing the speed `Math.sqrt` returns with
        `RestSpeed`. */
    method CheckIfSettled(sqrt: real -> real)
      requires IsSqrt(sqrt)
      modifies this
      ensures State() == RestStep(old(State()))
    {
      var squared := vx * vx + vy * vy;
      assert squared >= 0.0 by {
        assert vx * vx >= 0.0 && vy * vy >= 0.0;
      }
      var speed := sqrt(squared);
      SpeedThreshold(speed, squared);
      if speed < RestSpeed {
        settleTime := settleTime + 1;
        if settleTime > RestFrames {
          settled := true;
          vx := 0.0;
          vy := 0.0;
        }
      } else {
        settleTime := 0;
      }
    }
  }
}
