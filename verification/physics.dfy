/** The marble engine's per-step rules as pure functions on a value that holds one
    marble's mutable state. The `Marble` class (marble.dfy) applies exactly these rules
    to its fields in place; the lemmas here state what the rules guarantee.

    JavaScript numbers are modelled as `real`: the arithmetic is exact, so IEEE rounding
    is abstracted away. `Math.sqrt` is a function parameter `sqrt`. Only the rest
    detector needs it to be exact (`IsSqrt`); the pair resolver and the boundary rules
    are stated for any `sqrt`, so their conservation, rest-field and exit results hold
    for any value of the distance. */
module MarblePhysics {

  /** A marble's mutable state: position, velocity and the rest detector's two fields. */
  datatype Body = Body(x: real, y: real, vx: real, vy: real, settled: bool, settleTime: nat)

  /** The collidable boundary of a jar: side walls at `left` and `right`, a flat floor at
      `bottom`, and below `curveStart` a circular bowl joining the walls to the floor. */
  datatype Bounds = Bounds(left: real, right: real, bottom: real, curveStart: real)

  /** What one resolved pair leaves behind: the scanning marble, the other marble, and
      whether the scan stops at this pair. */
  datatype Contact = Contact(self: Body, other: Body, exit: bool)

  /** A floor bounce slower than this is damped to zero. */
  const JitterSpeed: real := 0.5
  /** A marble whose speed is below this counts as being at rest. */
  const RestSpeed: real := 0.1
  /** Number of consecutive slow steps after which the next slow step settles a marble. */
  const RestFrames: nat := 30

  /** `sqrt` agrees with `Math.sqrt` on every argument where the latter is a number. */
  ghost predicate IsSqrt(sqrt: real -> real) {
    forall v :: 0.0 <= v ==> 0.0 <= sqrt(v) && sqrt(v) * sqrt(v) == v
  }

  function Abs(v: real): real { if v < 0.0 then -v else v }

  function Min(a: real, b: real): real { if a <= b then a else b }

  // ---------------------------------------------------------------------------------
  // Integrator

  /** Gravity, then movement with the new velocity, then friction on the velocity. */
  function Integrate(b: Body, gravity: real, friction: real): (r: Body)
    ensures r.x - b.x == b.vx && r.y - b.y == b.vy + gravity
    ensures r.vx == (r.x - b.x) * friction && r.vy == (r.y - b.y) * friction
    ensures r.settled == b.settled && r.settleTime == b.settleTime
  {
    var vy := b.vy + gravity;
    b.(x := b.x + b.vx, y := b.y + vy, vx := b.vx * friction, vy := vy * friction)
  }

  // ---------------------------------------------------------------------------------
  // Jar boundary

  /** The marble reaches the floor line while its horizontal centre lies within the
      flat span of the floor. */
  predicate OnFlatFloor(b: Body, radius: real, jb: Bounds) {
    && b.y + radius >= jb.bottom
    && Abs(b.x - (jb.left + jb.right) / 2.0) <= (jb.right - jb.left) / 2.0 - radius
  }

  /** The flat-floor branch: rest the marble on the floor and reflect `vy`, damping a
      rebound slower than `JitterSpeed` to zero. */
  function FloorClamp(b: Body, radius: real, bounce: real, jb: Bounds): (r: Body)
    ensures !OnFlatFloor(b, radius, jb) ==> r == b
    ensures OnFlatFloor(b, radius, jb) ==> r == b.(y := jb.bottom - radius, vy := r.vy)
    ensures r.vy == b.vy || r.vy == -bounce * b.vy || r.vy == 0.0
    ensures OnFlatFloor(b, radius, jb) ==>
      (r.vy == 0.0 <==> Abs(-bounce * b.vy) < JitterSpeed) &&
      (r.vy != 0.0 ==> r.vy == -bounce * b.vy && Abs(r.vy) >= JitterSpeed)
  {
    if OnFlatFloor(b, radius, jb) then
      var vy := b.vy * -bounce;
      b.(y := jb.bottom - radius, vy := if Abs(vy) < JitterSpeed then 0.0 else vy)
    else
      b
  }

  /** The side-wall branch: clamp against the left wall, then against the right wall,
      each contact reflecting `vx` scaled by `bounce`. */
  function SideWalls(b: Body, radius: real, bounce: real, jb: Bounds): (r: Body)
    ensures r.y == b.y && r.vy == b.vy && r.settled == b.settled && r.settleTime == b.settleTime
    ensures jb.left < b.x - radius && b.x + radius < jb.right ==> r == b
    ensures jb.left + radius <= jb.right - radius ==> jb.left + radius <= r.x <= jb.right - radius
    ensures b.x + radius >= jb.right ==> r.x == jb.right - radius
    ensures b.x - radius <= jb.left && jb.left + 2.0 * radius < jb.right ==>
      r.x == jb.left + radius && r.vx == -bounce * b.vx
    ensures jb.left < b.x - radius && b.x + radius >= jb.right ==> r.vx == -bounce * b.vx
    ensures r.vx == b.vx || r.vx == -bounce * b.vx || r.vx == bounce * bounce * b.vx
  {
    var l := if b.x - radius <= jb.left then b.(x := jb.left + radius, vx := b.vx * -bounce) else b;
    if l.x + radius >= jb.right then l.(x := jb.right - radius, vx := l.vx * -bounce) else l
  }

  /** cos and sin of `Math.atan2(dy, dx)`: the unit vector along (dx, dy), and (1, 0) for
      the zero vector, whose angle `Math.atan2` reports as 0 (the length `h` is zero
      exactly for the zero vector). */
  function Direction(dx: real, dy: real, sqrt: real -> real): (real, real) {
    var h := Hypot(dx, dy, sqrt);
    if h == 0.0 then (1.0, 0.0) else (dx / h, dy / h)
  }

  /** Velocity after reflection about the unit normal (nx, ny), scaled by `bounce`. */
  function Reflect(vx: real, vy: real, nx: real, ny: real, bounce: real): (r: (real, real))
    ensures vx * nx + vy * ny == 0.0 ==> r == (vx, vy)
  {
    var dot := vx * nx + vy * ny;
    (vx - 2.0 * dot * nx * bounce, vy - 2.0 * dot * ny * bounce)
  }

  /** `curveRadius * Math.sqrt(1 - normalizedY²)`: the bowl's half-width at relative
      height `normalizedY`. */
  function HalfWidth(curveRadius: real, normalizedY: real, sqrt: real -> real): (r: real)
    ensures IsSqrt(sqrt) && curveRadius >= 0.0 && normalizedY * normalizedY <= 1.0 ==> r >= 0.0
  {
    curveRadius * sqrt(1.0 - normalizedY * normalizedY)
  }

  /** The curved-bowl branch. Where the source's arithmetic yields NaN (a zero-height
      bowl, or a square root of a negative number) its comparison is false and the
      branch leaves the marble as it was; so does this function. */
  function Bowl(b: Body, radius: real, bounce: real, jb: Bounds, sqrt: real -> real): (r: Body)
    ensures r.y <= b.y
    ensures r.settled == b.settled && r.settleTime == b.settleTime
  {
    var centerX := (jb.left + jb.right) / 2.0;
    var distFromCenter := Abs(b.x - centerX);
    var curveHeight := jb.bottom - jb.curveStart;
    var curveRadius := (jb.right - jb.left) / 2.0;
    if curveHeight == 0.0 then b
    else
      var normalizedY := (b.y - jb.curveStart) / curveHeight;
      if 1.0 - normalizedY * normalizedY < 0.0 then b
      else
        var maxDistAtY := HalfWidth(curveRadius, normalizedY, sqrt);
        if distFromCenter + radius > maxDistAtY then
          var midY := jb.curveStart + curveHeight / 2.0;
          var n := Direction(b.x - centerX, b.y - midY, sqrt);
          var edgeX := centerX + n.0 * (maxDistAtY - radius);
          var edgeY := midY + n.1 * (curveRadius - radius);
          var v := Reflect(b.vx, b.vy, n.0, n.1, bounce);
          b.(x := edgeX, y := Min(b.y, edgeY), vx := v.0, vy := v.1)
        else
          b
  }

  /** The whole boundary check: the floor, then the bowl when the marble is at or below
      `curveStart`, otherwise the side walls. It never touches the rest detector. */
  function JarCollision(b: Body, radius: real, bounce: real, jb: Bounds, sqrt: real -> real): (r: Body)
    ensures r.settled == b.settled && r.settleTime == b.settleTime
    ensures OnFlatFloor(b, radius, jb) && jb.bottom - radius < jb.curveStart ==>
      r.y == jb.bottom - radius
    ensures OnFlatFloor(b, radius, jb) ==> r.y <= jb.bottom - radius
    ensures FloorClamp(b, radius, bounce, jb).y < jb.curveStart && jb.left + radius <= jb.right - radius ==>
      jb.left + radius <= r.x <= jb.right - radius
  {
    var f := FloorClamp(b, radius, bounce, jb);
    if f.y >= jb.curveStart then Bowl(f, radius, bounce, jb, sqrt) else SideWalls(f, radius, bounce, jb)
  }

  // ---------------------------------------------------------------------------------
  // Pairwise resolver

  /** `Math.sqrt(dx*dx + dy*dy)`: the length of (dx, dy). */
  function Hypot(dx: real, dy: real, sqrt: real -> real): (r: real)
    ensures IsSqrt(sqrt) ==> r >= 0.0
  {
    sqrt(dx * dx + dy * dy)
  }

  /** The distance between the centres of two marbles. */
  function Distance(s: Body, o: Body, sqrt: real -> real): (r: real)
    ensures IsSqrt(sqrt) ==> r >= 0.0
  {
    Hypot(o.x - s.x, o.y - s.y, sqrt)
  }

  /** The two marbles are moving towards each other: the distance between their centres
      is decreasing. */
  predicate Approaching(s: Body, o: Body) {
    (o.vx - s.vx) * (o.x - s.x) + (o.vy - s.vy) * (o.y - s.y) < 0.0
  }

  /** One step of `checkMarbleCollisions` for the scanning marble `s` and another marble
      `o` at centre distance `distance`: push both apart by half the overlap each; then
      stop the scan if the relative normal speed is negative, or else exchange an impulse
      scaled by the scanning marble's `bounce`. */
  function PairStep(s: Body, o: Body, rs: real, ro: real, bounce: real, distance: real): (r: Contact)
    ensures !(0.0 < distance < rs + ro) ==> r == Contact(s, o, false)
    ensures r.self.x + r.other.x == s.x + o.x && r.self.y + r.other.y == s.y + o.y
    ensures r.self.vx + r.other.vx == s.vx + o.vx && r.self.vy + r.other.vy == s.vy + o.vy
    ensures r.exit ==> r.self.vx == s.vx && r.self.vy == s.vy && r.other.vx == o.vx && r.other.vy == o.vy
    ensures r.self.settled == s.settled && r.self.settleTime == s.settleTime
    ensures r.other.settled == o.settled && r.other.settleTime == o.settleTime
  {
    var dx := o.x - s.x;
    var dy := o.y - s.y;
    var minDistance := rs + ro;
    if distance < minDistance && distance > 0.0 then
      var overlap := minDistance - distance;
      var moveX := (dx / distance) * (overlap / 2.0);
      var moveY := (dy / distance) * (overlap / 2.0);
      var s1 := s.(x := s.x - moveX, y := s.y - moveY);
      var o1 := o.(x := o.x + moveX, y := o.y + moveY);
      var normalX := dx / distance;
      var normalY := dy / distance;
      var speed := (o.vx - s.vx) * normalX + (o.vy - s.vy) * normalY;
      if speed < 0.0 then
        Contact(s1, o1, true)
      else
        var impulse := 2.0 * speed / 2.0;
        Contact(s1.(vx := s.vx + impulse * normalX * bounce, vy := s.vy + impulse * normalY * bounce),
                o1.(vx := o.vx - impulse * normalX * bounce, vy := o.vy - impulse * normalY * bounce),
                false)
    else
      Contact(s, o, false)
  }

  // ---------------------------------------------------------------------------------
  // Rest detector

  /** Speed below `RestSpeed`, stated on the squared speed. */
  predicate Slow(b: Body) {
    b.vx * b.vx + b.vy * b.vy < RestSpeed * RestSpeed
  }

  /** `checkIfSettled`: count consecutive slow steps, reset the count on a fast one, and
      settle the marble, stopping it, once the count exceeds `RestFrames`. */
  function RestStep(b: Body): (r: Body)
    ensures r.x == b.x && r.y == b.y
    ensures b.settled ==> r.settled
    ensures r.settleTime == if Slow(b) then b.settleTime + 1 else 0
    ensures r.settled <==> b.settled || (Slow(b) && b.settleTime >= RestFrames)
    ensures Slow(b) && b.settleTime >= RestFrames ==> r.vx == 0.0 && r.vy == 0.0
    ensures !(Slow(b) && b.settleTime >= RestFrames) ==> r.vx == b.vx && r.vy == b.vy
  {
    if Slow(b) then
      var t := b.settleTime + 1;
      if t > RestFrames then b.(settleTime := t, settled := true, vx := 0.0, vy := 0.0)
      else b.(settleTime := t)
    else
      b.(settleTime := 0)
  }

  /** The rest detector run on successive steps, each step's velocity given by `vs`. */
  function Detect(b: Body, vs: seq<(real, real)>): Body
    decreases |vs|
  {
    if vs == [] then b
    else Detect(RestStep(b.(vx := vs[0].0, vy := vs[0].1)), vs[1..])
  }

  // ---------------------------------------------------------------------------------
  // Sums over a sequence of marbles

  datatype Axis = X | Y | VX | VY

  function Coord(b: Body, a: Axis): real {
    match a
    case X => b.x
    case Y => b.y
    case VX => b.vx
    case VY => b.vy
  }

  /** The sum of one coordinate over all marbles. */
  function Sum(s: seq<Body>, a: Axis): real {
    if s == [] then 0.0 else Sum(s[..|s| - 1], a) + Coord(s[|s| - 1], a)
  }
}
