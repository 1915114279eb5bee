/** The `OwnerJar` class: one owner's jar, holding its marbles in array order. The canvas
    size fixes the jar's bounds, the jar is filled with settled marbles when it is built,
    new marbles are dropped in from above, and an animation frame updates every marble
    once, in array order. */
module Jars {
  import opened MarblePhysics
  import opened Marbles
  import opened MarbleColors

  /** The eight colours marbles are painted with, taken in turn. */
  const Palette: seq<string> :=
    ["#4169E1", "#FF6B6B", "#4ECDC4", "#45B7D1", "#96CEB4", "#FFEAA7", "#DDA0DD", "#98D8C8"]

  /** The colour of the `i`-th marble painted: the palette taken in turn. */
  function PaletteColor(i: nat): (r: string)
    ensures r in Palette
  {
    Palette[i % |Palette|]
  }

  /** Every colour a marble is painted with is one the colour arithmetic accepts. */
  lemma PaletteIsHex()
    ensures forall i: nat :: IsHexColor(PaletteColor(i))
  {
    forall i: nat
      ensures IsHexColor(PaletteColor(i))
    {
      var c := Palette[i % |Palette|];
      assert IsHex(c[1..]);
    }
  }

  /** `draw` shades every marble with a highlight and an outline of its palette colour;
      both are well-formed colours. */
  lemma PaletteShadesAreHex(i: nat)
    ensures IsHexColor(PaletteColor(i))
    ensures IsHexColor(LightenColor(PaletteColor(i), HighlightAmount))
    ensures IsHexColor(DarkenColor(PaletteColor(i), OutlineAmount))
  {
    PaletteIsHex();
  }

  /** A canvas dimension: the measured size, or `fallback` when it measures 0; the
      canvas attribute keeps the integer part. */
  function CanvasSize(measured: real, fallback: nat): (r: nat)
    requires measured >= 0.0
    ensures measured == 0.0 ==> r == fallback
    ensures measured != 0.0 ==> r as real <= measured < r as real + 1.0
  {
    if measured == 0.0 then fallback else measured.Floor
  }

  /** The bounds `initCanvas` derives from a `w` by `h` canvas: walls 10 from each side,
      the floor 10 above the bottom edge, the bowl from 30% of the height downwards. */
  function JarBounds(w: int, h: int): (jb: Bounds)
    ensures jb.right - jb.left == w as real - 20.0
    ensures h > 15 ==> jb.curveStart < jb.bottom
  {
    Bounds(10.0, w as real - 10.0, h as real - 10.0, h as real * 0.3)
  }

  /** A horizontal position drawn from `rand` in [0, 1): `margin` inside the left wall
      plus `rand` times the width left between the two margins. */
  function DropX(jb: Bounds, margin: real, rand: real): (r: real)
  {
    jb.left + margin + rand * (jb.right - jb.left - 2.0 * margin)
  }

  /** A drawn position keeps its margin from both walls whenever the jar is at least
      two margins wide. */
  lemma DropXInside(jb: Bounds, margin: real, rand: real)
    requires 0.0 <= rand < 1.0 && jb.right - jb.left >= 2.0 * margin
    ensures jb.left + margin <= DropX(jb, margin, rand) <= jb.right - margin
  {
    var span := jb.right - jb.left - 2.0 * margin;
    assert span - rand * span == (1.0 - rand) * span;
    MulNonNegative(1.0 - rand, span);
    MulNonNegative(rand, span);
  }

  lemma MulNonNegative(a: real, b: real)
    requires a >= 0.0 && b >= 0.0
    ensures a * b >= 0.0
  {
  }

  /** `DropX` with the width between the margins already worked out as `w`. */
  lemma DropXWith(jb: Bounds, margin: real, rand: real, w: real)
    requires w == jb.right - jb.left - 2.0 * margin
    ensures DropX(jb, margin, rand) == jb.left + margin + rand * w
  {
  }

  /** The height `createMarbles` stacks the `i`-th marble at. */
  function StackY(jb: Bounds, i: nat): (r: real)
    ensures r <= jb.bottom - 15.0
  {
    jb.bottom - 15.0 - 12.0 * i as real
  }

  /** The stack starts 15 above the floor and each later marble sits 12 higher than
      the one before it (a marble is 20 across, so neighbours start out overlapping). */
  lemma StackRises(jb: Bounds, i: nat, j: nat)
    requires i < j
    ensures StackY(jb, 0) == jb.bottom - 15.0
    ensures StackY(jb, i) - StackY(jb, j) == 12.0 * (j - i) as real
  {
  }

  /** The states `createMarbles` gives its marbles: the `i`-th at rest and settled, at
      the horizontal draw `rands[i]` with a 15 margin and at the `i`-th stack height. */
  function Stacked(jb: Bounds, rands: seq<real>): (r: seq<Body>)
    ensures |r| == |rands|
    ensures forall i :: 0 <= i < |rands| ==> r[i].settled && r[i].vx == 0.0 && r[i].vy == 0.0
    ensures forall i :: 0 <= i < |rands| ==>
      r[i].x == DropX(jb, 15.0, rands[i]) && r[i].y == StackY(jb, i)
  {
    seq(|rands|, i requires 0 <= i < |rands| => Body(DropX(jb, 15.0, rands[i]), StackY(jb, i), 0.0, 0.0, true, 0))
  }

  /** The palette colours of marbles `from` to `to - 1`. */
  function Painted(from: nat, to: nat): (r: seq<string>)
    requires from <= to
    ensures |r| == to - from && forall i :: 0 <= i < to - from ==> r[i] == PaletteColor(from + i)
  {
    seq(to - from, i requires 0 <= i < to - from => PaletteColor(from + i))
  }

  /** Painting one more marble adds the next palette colour at the end. */
  lemma PaintedNext(from: nat, to: nat)
    requires from <= to
    ensures Painted(from, to + 1) == Painted(from, to) + [PaletteColor(to)]
  {
  }

  /** One animation frame on values: the marbles at indices `i` to `|ws| - 1` each take
      their step in array order, every step scanning the whole sequence. */
  function Frame(ws: seq<Body>, i: nat, jb: Bounds, sqrt: real -> real): (r: seq<Body>)
    requires i <= |ws|
    ensures |r| == |ws|
    decreases |ws| - i
  {
    if i == |ws| then ws else Frame(Step(ws, i, |ws|, jb, sqrt), i + 1, jb, sqrt)
  }

  /** A frame never un-settles a marble. */
  lemma {:induction false} FrameKeepsSettled(ws: seq<Body>, i: nat, jb: Bounds, sqrt: real -> real)
    requires i <= |ws|
    ensures forall k :: 0 <= k < |ws| && ws[k].settled ==> Frame(ws, i, jb, sqrt)[k].settled
    decreases |ws| - i
  {
    if i < |ws| {
      StepKeepsSettled(ws, i, |ws|, jb, sqrt);
      FrameKeepsSettled(Step(ws, i, |ws|, jb, sqrt), i + 1, jb, sqrt);
    }
  }

  /** A jar whose marbles are all settled is left exactly as it was by a frame: every
      marble's own update is inert, so no scan runs and nobody is pushed. */
  lemma {:induction false} AllSettledInert(ws: seq<Body>, i: nat, jb: Bounds, sqrt: real -> real)
    requires i <= |ws|
    requires forall k :: 0 <= k < |ws| ==> ws[k].settled
    ensures Frame(ws, i, jb, sqrt) == ws
    decreases |ws| - i
  {
    if i < |ws| {
      assert Step(ws, i, |ws|, jb, sqrt) == ws;
      AllSettledInert(ws, i + 1, jb, sqrt);
    }
  }

  /** In a sequence without repeats, each marble is found at its own index. */
  lemma {:induction false} IndexOfDistinct(ms: seq<Marble>, i: nat)
    requires Distinct(ms) && i < |ms|
    ensures IndexOf(ms, ms[i]) == i
  {
    if ms[0] != ms[i] {
      assert Distinct(ms[1..]);
      assert ms[1..][i - 1] == ms[i];
      IndexOfDistinct(ms[1..], i - 1);
    }
  }

  /** A sequence that starts with `front` and goes on with `back` is their
      concatenation. */
  lemma Appended<T>(whole: seq<T>, front: seq<T>, back: seq<T>)
    requires |whole| == |front| + |back|
    requires forall k :: 0 <= k < |front| ==> whole[k] == front[k]
    requires forall k :: 0 <= k < |back| ==> whole[|front| + k] == back[k]
    ensures whole == front + back
  {
    forall k | |front| <= k < |whole|
      ensures whole[k] == (front + back)[k]
    {
      assert whole[k] == whole[|front| + (k - |front|)];
    }
  }

  /** The colours of `ms`, in order (a marble's colour never changes). */
  function ColoursOf(ms: seq<Marble>): (r: seq<string>)
    ensures |r| == |ms|
  {
    if ms == [] then [] else ColoursOf(ms[..|ms| - 1]) + [ms[|ms| - 1].color]
  }

  /** `new Marble(x, y, color)` then `settled = true`: a new marble at rest, already
      settled. */
  method SettledMarble(x: real, y: real, color: string) returns (m: Marble)
    ensures fresh(m) && m.State() == Body(x, y, 0.0, 0.0, true, 0) && m.color == color
  {
    m := new Marble(x, y, color);
    m.settled := true;
  }

  /** `new Marble(x, y, color)` then the velocity set to (vx, vy): a new moving marble,
      not settled. */
  method ThrownMarble(x: real, y: real, color: string, vx: real, vy: real) returns (m: Marble)
    ensures fresh(m) && m.State() == Body(x, y, vx, vy, false, 0) && m.color == color
  {
    m := new Marble(x, y, color);
    m.vx := vx;
    m.vy := vy;
  }

  class OwnerJar {
    const owner: string
    var marbles: seq<Marble>
    var canvasWidth: nat
    var canvasHeight: nat
    var jarBounds: Bounds

    /** No marble is held twice. */
    predicate Valid()
      reads this
    {
      Distinct(marbles)
    }

    /** The states of the jar's marbles, in array order. */
    ghost function States(): (r: seq<Body>)
      reads this, set m | m in marbles
      ensures |r| == |marbles| && forall k :: 0 <= k < |marbles| ==> r[k] == marbles[k].State()
    {
      Snap(marbles)
    }

    /** The colours of the jar's marbles, in array order. */
    function Colours(): (r: seq<string>)
      reads this
      ensures |r| == |marbles|
    {
      ColoursOf(marbles)
    }

    /** A jar for `owner` holding `count` marbles, on a canvas measured `rectW` by
        `rectH`, with `rands` the horizontal draws: the canvas is sized, the marbles are
        stacked and settled, and the first animation frame runs, which leaves every
        one of them where it was put. */
    constructor (owner: string, count: nat, rectW: real, rectH: real, rands: seq<real>, sqrt: real -> real)
      requires rectW >= 0.0 && rectH >= 0.0 && |rands| == count && IsSqrt(sqrt)
      ensures this.owner == owner && Valid()
      ensures canvasWidth == CanvasSize(rectW, 250) && canvasHeight == CanvasSize(rectH, 300)
      ensures jarBounds == JarBounds(canvasWidth, canvasHeight)
      ensures States() == Stacked(jarBounds, rands) && Colours() == Painted(0, count)
    {
      this.owner := owner;
      marbles := [];
      canvasWidth, canvasHeight := 0, 0;
      jarBounds := Bounds(0.0, 0.0, 0.0, 0.0);
      new;
      InitCanvas(rectW, rectH);
      assert marbles == [] && Colours() == [];
      CreateMarbles(count, rands);
      ghost var cs := Colours();
      assert cs == Painted(0, count);
      ghost var ws := States();
      assert ws == Stacked(jarBounds, rands);
      assert forall k :: 0 <= k < |marbles| ==> fresh(marbles[k]);
      assert forall k :: 0 <= k < |ws| ==> ws[k].settled;
      AllSettledInert(ws, 0, jarBounds, sqrt);
      Animate(sqrt);
      assert Colours() == cs;
    }

    /** `initCanvas`: the canvas takes the measured size, 250 by 300 when it measures
        0, and the bounds follow from it. */
    method InitCanvas(rectW: real, rectH: real)
      requires rectW >= 0.0 && rectH >= 0.0
      modifies this
      ensures canvasWidth == CanvasSize(rectW, 250) && canvasHeight == CanvasSize(rectH, 300)
      ensures jarBounds == JarBounds(canvasWidth, canvasHeight)
      ensures marbles == old(marbles)
    {
      canvasWidth := if rectW == 0.0 then 250 else rectW.Floor;
      canvasHeight := if rectH == 0.0 then 300 else rectH.Floor;
      jarBounds := Bounds(10.0, canvasWidth as real - 10.0, canvasHeight as real - 10.0,
                          canvasHeight as real * 0.3);
    }

    /** `createMarbles`: `count` new settled marbles are appended; the `i`-th takes
        palette colour `i`, the horizontal draw `rands[i]` and the `i`-th stack height. */
    method CreateMarbles(count: nat, rands: seq<real>)
      requires Valid() && |rands| == count
      modifies this
      ensures jarBounds == old(jarBounds) && canvasWidth == old(canvasWidth) && canvasHeight == old(canvasHeight)
      ensures Valid()
      ensures |marbles| == |old(marbles)| + count && marbles[..|old(marbles)|] == old(marbles)
      ensures forall k :: |old(marbles)| <= k < |marbles| ==> fresh(marbles[k])
      ensures States() == old(States()) + Stacked(jarBounds, rands)
      ensures Colours() == old(Colours()) + Painted(0, count)
    {
      var n0 := |marbles|;
      ghost var ws0 := States();
      ghost var st := Stacked(jarBounds, rands);
      StackMarbles(count, rands);
      assert States() == ws0 + st by {
        ghost var ws := States();
        forall k | 0 <= k < n0
          ensures ws[k] == ws0[k]
        {
          assert marbles[k] == old(marbles)[k];
        }
        Appended(ws, ws0, st);
      }
    }

    /** The loop of `createMarbles`, marble by marble: the `i`-th new marble is settled
        at the `i`-th stacked position and painted with palette colour `i`. */
    method StackMarbles(count: nat, rands: seq<real>)
      requires Valid() && |rands| == count
      modifies this
      ensures jarBounds == old(jarBounds) && canvasWidth == old(canvasWidth) && canvasHeight == old(canvasHeight)
      ensures Valid()
      ensures |marbles| == |old(marbles)| + count && marbles[..|old(marbles)|] == old(marbles)
      ensures forall k :: |old(marbles)| <= k < |marbles| ==> fresh(marbles[k])
      ensures forall k :: 0 <= k < count ==> marbles[|old(marbles)| + k].State() == Stacked(jarBounds, rands)[k]
      ensures Colours() == old(Colours()) + Painted(0, count)
    {
      var n0 := |marbles|;
      ghost var cs0 := Colours();
      var jb := jarBounds;
      ghost var st := Stacked(jb, rands);
      var i := 0;
      while i < count
        invariant i <= count && |marbles| == n0 + i && marbles[..n0] == old(marbles)
        invariant Valid() && jarBounds == old(jarBounds)
        invariant canvasWidth == old(canvasWidth) && canvasHeight == old(canvasHeight)
        invariant forall k :: n0 <= k < |marbles| ==> fresh(marbles[k])
        invariant forall k :: 0 <= k < i ==> marbles[n0 + k].State() == st[k]
        invariant Colours() == cs0 + Painted(0, i)
      {
        StackOne(i, rands[i]);
        assert marbles[n0 + i].State() == st[i];
        PaintedNext(0, i);
        i := i + 1;
      }
    }

    /** One pass of the `createMarbles` loop: the `i`-th marble, settled at the `i`-th
        stacked position for the draw `rand` and painted with palette colour `i`, is
        appended. */
    method StackOne(i: nat, rand: real)
      requires Valid()
      modifies this
      ensures jarBounds == old(jarBounds) && canvasWidth == old(canvasWidth) && canvasHeight == old(canvasHeight)
      ensures Valid()
      ensures |marbles| == |old(marbles)| + 1 && marbles[..|old(marbles)|] == old(marbles)
      ensures fresh(marbles[|old(marbles)|])
      ensures marbles[|old(marbles)|].State() == Body(DropX(jarBounds, 15.0, rand), StackY(jarBounds, i), 0.0, 0.0, true, 0)
      ensures Colours() == old(Colours()) + [PaletteColor(i)]
    {
      var color := Palette[i % |Palette|];
      var jb := jarBounds;
      var x := jb.left + 15.0 + rand * (jb.right - jb.left - 30.0);
      var y := jb.bottom - 15.0 - 12.0 * i as real;
      DropXWith(jb, 15.0, rand, jb.right - jb.left - 30.0);
      var marble := SettledMarble(x, y, color);
      ghost var before := marbles;
      marbles := marbles + [marble];
      assert marbles[..|marbles| - 1] == before;
    }

    /** `addMarble`: one new unsettled marble, painted with the next palette colour, is
        dropped from 20 above the canvas at a drawn position with a drawn velocity and
        appended; the marbles already in the jar are neither removed nor changed. */
    method AddMarble(r1: real, r2: real, r3: real)
      requires Valid()
      modifies this
      ensures jarBounds == old(jarBounds) && canvasWidth == old(canvasWidth) && canvasHeight == old(canvasHeight)
      ensures Valid()
      ensures |marbles| == |old(marbles)| + 1 && marbles[..|old(marbles)|] == old(marbles)
      ensures fresh(marbles[|marbles| - 1])
      ensures States() == old(States()) + [Body(DropX(jarBounds, 20.0, r1), -20.0, (r2 - 0.5) * 2.0, r3 * 2.0, false, 0)]
      ensures Colours() == old(Colours()) + [PaletteColor(|old(marbles)|)]
    {
      ghost var ws := States();
      var color := Palette[|marbles| % |Palette|];
      var jb := jarBounds;
      var dropX := jb.left + 20.0 + r1 * (jb.right - jb.left - 40.0);
      DropXWith(jb, 20.0, r1, jb.right - jb.left - 40.0);
      var marble := ThrownMarble(dropX, -20.0, color, (r2 - 0.5) * 2.0, r3 * 2.0);
      ghost var before := marbles;
      marbles := marbles + [marble];
      assert marbles[..|marbles| - 1] == before;
      assert marble.State() == Body(DropX(jb, 20.0, r1), -20.0, (r2 - 0.5) * 2.0, r3 * 2.0, false, 0);
      assert States() == ws + [marble.State()] by {
        forall k | 0 <= k < |ws|
          ensures States()[k] == ws[k]
        {
          assert marbles[k] == old(marbles)[k];
        }
      }
    }

    /** `animate`: every marble takes its update in array order, each against the whole
        array. */
    method Animate(sqrt: real -> real)
      requires Valid() && IsSqrt(sqrt)
      modifies set m | m in marbles
      ensures unchanged(this)
      ensures States() == Frame(old(States()), 0, jarBounds, sqrt)
    {
      ghost var ws0 := States();
      var i := 0;
      while i < |marbles|
        invariant i <= |marbles|
        invariant Frame(States(), i, jarBounds, sqrt) == Frame(ws0, 0, jarBounds, sqrt)
      {
        var marble := marbles[i];
        ghost var ws := States();
        IndexOfDistinct(marbles, i);
        assert marble.World(marbles) == ws && marble.Me(marbles) == i;
        marble.Update(marbles, jarBounds, sqrt);
        assert States() == Step(ws, i, |ws|, jarBounds, sqrt);
        i := i + 1;
      }
    }
  }
}
