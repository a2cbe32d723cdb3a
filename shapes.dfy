/** The plain tap shape (js/shapes.js `Shape`): a circle, square or
    triangle thrown in a random direction, pulled down by gravity, bounced
    off the canvas edges and slowed by friction while it fades. */
module Shapes {
  import opened Geometry

  const ShapeGravity: real := 0.3
  const ShapeBounce: real := 0.7
  const ShapeFriction: real := 0.99
  const ShapeDecay: real := 0.008

  const ShapePalette: seq<string> := ["#64ffda", "#82b1ff", "#b388ff", "#ff8a65", "#81c784", "#ffb74d"]

  /** The six Math.random results a shape is built from, in the order the
      constructor draws them. */
  datatype ShapeDraw = ShapeDraw(vx: real, vy: real, size: real, spin: real, kind: real, color: real)

  predicate IsShapeDraw(d: ShapeDraw) {
    IsRoll(d.vx) && IsRoll(d.vy) && IsRoll(d.size) && IsRoll(d.spin) && IsRoll(d.kind) && IsRoll(d.color)
  }

  /** `Math.floor(roll * n)` for a roll in [0, 1): an index below n. */
  function Pick(roll: real, n: nat): (i: nat)
    requires IsRoll(roll) && n > 0
    ensures i < n
  {
    MulNonNegative(roll, n as real);
    assert roll * n as real < n as real by {
      MulNonNegative(1.0 - roll, n as real);
      assert (1.0 - roll) * n as real == n as real - roll * n as real;
      assert (1.0 - roll) * n as real != 0.0;
    }
    (roll * n as real).Floor
  }

  /** 0: circle, 1: square, 2: triangle. */
  function ShapeKind(roll: real): (k: nat)
    requires IsRoll(roll)
    ensures k < 3
  {
    Pick(roll, 3)
  }

  function ShapeColor(roll: real): (c: string)
    requires IsRoll(roll)
    ensures c in ShapePalette
  {
    ShapePalette[Pick(roll, |ShapePalette|)]
  }

  datatype ShapeState = ShapeState(
    canvas: Canvas, x: real, y: real, vx: real, vy: real, size: real, rotation: real, rotationSpeed: real, life: real, decay: real)

  function NewShape(x: real, y: real, canvas: Canvas, d: ShapeDraw): ShapeState {
    ShapeState(canvas, x, y, (d.vx - 0.5) * 15.0, (d.vy - 0.5) * 15.0 - 5.0, 20.0 + d.size * 30.0, 0.0, (d.spin - 0.5) * 0.2, 1.0, ShapeDecay)
  }

  function Max(a: real, b: real): real {
    if a >= b then a else b
  }

  function Min(a: real, b: real): real {
    if a <= b then a else b
  }

  /** The edge test: the shape's extent pokes past 0 or past the limit. */
  predicate Crosses(p: real, size: real, limit: real) {
    p + size / 2.0 > limit || p - size / 2.0 < 0.0
  }

  /** Position and velocity along one axis after the edge test. */
  datatype Axis = Axis(p: real, v: real)

  /** On a crossing the velocity is reversed and damped by the bounce
      factor, and the position is pulled back inside by
      `Math.max(size/2, Math.min(limit - size/2, p))`. */
  function BounceAxis(p: real, v: real, size: real, limit: real): Axis {
    if Crosses(p, size, limit) then Axis(Max(size / 2.0, Min(limit - size / 2.0, p)), v * -ShapeBounce)
    else Axis(p, v)
  }

  /** One update: gravity into vy, move, turn, bounce on each axis, then
      friction on both velocities, then fade. */
  function ShapeStep(s: ShapeState): ShapeState {
    var h := Horizontal(s);
    var v := Vertical(s);
    s.(x := h.p, y := v.p, vx := h.v * ShapeFriction, vy := v.v * ShapeFriction,
       rotation := s.rotation + s.rotationSpeed, life := s.life - s.decay)
  }

  function Horizontal(s: ShapeState): Axis {
    BounceAxis(s.x + s.vx, s.vx, s.size, s.canvas.width)
  }

  /** Gravity enters vy before the move. */
  function Vertical(s: ShapeState): Axis {
    var vy := s.vy + ShapeGravity;
    BounceAxis(s.y + vy, vy, s.size, s.canvas.height)
  }

  predicate ShapeDead(s: ShapeState) {
    s.life <= 0.0
  }

  /** Whenever the canvas is at least as wide as the shape, the shape ends
      every update fully inside, whether or not it bounced. */
  lemma BounceAxisInside(p: real, v: real, size: real, limit: real)
    requires limit >= size
    ensures size / 2.0 <= BounceAxis(p, v, size, limit).p <= limit - size / 2.0
  {
  }

  function Abs(a: real): real {
    if a >= 0.0 then a else -a
  }

  /** Position bounds of one update. */
  lemma ShapeStepInside(s: ShapeState)
    ensures s.canvas.width >= s.size ==>
      s.size / 2.0 <= ShapeStep(s).x <= s.canvas.width - s.size / 2.0
    ensures s.canvas.height >= s.size ==>
      s.size / 2.0 <= ShapeStep(s).y <= s.canvas.height - s.size / 2.0
  {
    if s.canvas.width >= s.size {
      BounceAxisInside(s.x + s.vx, s.vx, s.size, s.canvas.width);
    }
    if s.canvas.height >= s.size {
      BounceAxisInside(s.y + s.vy + ShapeGravity, s.vy + ShapeGravity, s.size, s.canvas.height);
    }
  }

  /** One axis of an update: bounce (reversed, damped to 70%), then
      friction. The speed never grows, and away from the edges nothing but
      the move happens. */
  lemma AxisStep(p: real, v: real, size: real, limit: real)
    ensures Crosses(p, size, limit) ==> BounceAxis(p, v, size, limit).v == -ShapeBounce * v
    ensures !Crosses(p, size, limit) ==> BounceAxis(p, v, size, limit) == Axis(p, v)
    ensures Abs(BounceAxis(p, v, size, limit).v * ShapeFriction) <= Abs(v)
  {
  }

  /** Friction comes after the bounce: the horizontal speed never grows,
      and away from the side edges the shape moves by its velocity. */
  lemma ShapeStepHorizontal(s: ShapeState)
    ensures Abs(ShapeStep(s).vx) <= Abs(s.vx)
    ensures !Crosses(s.x + s.vx, s.size, s.canvas.width) ==>
      ShapeStep(s).x == s.x + s.vx && ShapeStep(s).vx == s.vx * ShapeFriction
  {
    var h := Horizontal(s);
    assert ShapeStep(s).x == h.p && ShapeStep(s).vx == h.v * ShapeFriction;
    AxisStep(s.x + s.vx, s.vx, s.size, s.canvas.width);
  }

  /** Gravity comes before the move: the vertical speed never exceeds what
      gravity alone would give, and away from the top and bottom edges the
      shape moves by its velocity with gravity already added. */
  lemma ShapeStepVertical(s: ShapeState)
    ensures Abs(ShapeStep(s).vy) <= Abs(s.vy + ShapeGravity)
    ensures !Crosses(s.y + s.vy + ShapeGravity, s.size, s.canvas.height) ==>
      ShapeStep(s).y == s.y + s.vy + ShapeGravity && ShapeStep(s).vy == (s.vy + ShapeGravity) * ShapeFriction
  {
    var v := Vertical(s);
    assert ShapeStep(s).y == v.p && ShapeStep(s).vy == v.v * ShapeFriction;
    AxisStep(s.y + (s.vy + ShapeGravity), s.vy + ShapeGravity, s.size, s.canvas.height);
  }

  /** Life drops by exactly the decay, rotation grows by exactly the spin,
      and the shape is dead after the update exactly when life minus decay
      is at most 0. */
  lemma ShapeStepFades(s: ShapeState)
    ensures ShapeStep(s).life == s.life - s.decay && ShapeStep(s).decay == s.decay
    ensures ShapeStep(s).rotation == s.rotation + s.rotationSpeed
    ensures ShapeDead(ShapeStep(s)) <==> s.life <= s.decay
  {
  }

  function ShapeStepN(s: ShapeState, k: nat): ShapeState
    decreases k
  {
    if k == 0 then s else ShapeStep(ShapeStepN(s, k - 1))
  }

  lemma {:induction false} ShapeStepNLife(s: ShapeState, k: nat)
    ensures ShapeStepN(s, k).life == Faded(s.life, s.decay, k)
    ensures ShapeStepN(s, k).decay == s.decay
    decreases k
  {
    if k > 0 {
      ShapeStepNLife(s, k - 1);
      ShapeStepFades(ShapeStepN(s, k - 1));
      FadedStep(s.life, s.decay, k - 1);
    }
  }

  /** A main shape lives 124 updates and is dead from the 125th; a burst
      particle (decay 0.02) is dead from the 50th. */
  lemma ShapeLifetime(s: ShapeState, k: nat)
    requires s.life == 1.0
    ensures s.decay == ShapeDecay ==> (ShapeDead(ShapeStepN(s, k)) <==> k >= 125)
    ensures s.decay == BurstDecay ==> (ShapeDead(ShapeStepN(s, k)) <==> k >= 50)
  {
    ShapeStepNLife(s, k);
  }

  /** The three extra Math.random results a burst particle overrides its
      fields with. */
  datatype BurstDraw = BurstDraw(base: ShapeDraw, size: real, vx: real, vy: real)

  const BurstDecay: real := 0.02

  /** A burst particle as addShape leaves it: a new shape with its size,
      velocity and decay overwritten. */
  function NewBurst(x: real, y: real, canvas: Canvas, d: BurstDraw): ShapeState {
    NewShape(x, y, canvas, d.base).(size := 5.0 + d.size * 10.0, vx := (d.vx - 0.5) * 20.0,
                                    vy := (d.vy - 0.5) * 20.0, decay := BurstDecay)
  }

  /** A new shape starts at the tap with life 1 and size in [20, 50); a
      burst particle has size in [5, 15) and decay 0.02; both have speed at
      most 10 per axis, a main shape biased upwards. */
  lemma NewShapeRanges(x: real, y: real, canvas: Canvas, d: BurstDraw)
    requires IsShapeDraw(d.base) && IsRoll(d.size) && IsRoll(d.vx) && IsRoll(d.vy)
    ensures var s := NewShape(x, y, canvas, d.base);
      s.x == x && s.y == y && s.life == 1.0 && 20.0 <= s.size < 50.0 &&
      -7.5 <= s.vx < 7.5 && -12.5 <= s.vy < 2.5 && -0.1 <= s.rotationSpeed < 0.1
    ensures var b := NewBurst(x, y, canvas, d);
      b.life == 1.0 && b.decay == BurstDecay && 5.0 <= b.size < 15.0 &&
      -10.0 <= b.vx < 10.0 && -10.0 <= b.vy < 10.0
  {
  }

  /** js/shapes.js `Shape`. The canvas is read for its size only. */
  class Shape {
    const canvas: Canvas
    var x: real
    var y: real
    var vx: real
    var vy: real
    const gravity: real := ShapeGravity
    const bounce: real := ShapeBounce
    const friction: real := ShapeFriction
    var size: real
    var rotation: real
    const rotationSpeed: real
    var life: real
    var decay: real
    const shapeType: nat
    const color: string

    function Value(): ShapeState
      reads this
    {
      ShapeState(canvas, x, y, vx, vy, size, rotation, rotationSpeed, life, decay)
    }

    constructor (x: real, y: real, canvas: Canvas, d: ShapeDraw)
      requires IsRoll(d.kind) && IsRoll(d.color)
      ensures Value() == NewShape(x, y, canvas, d)
      ensures shapeType == ShapeKind(d.kind) && color == ShapeColor(d.color)
    {
      this.x := x;
      this.y := y;
      this.canvas := canvas;
      vx := (d.vx - 0.5) * 15.0;
      vy := (d.vy - 0.5) * 15.0 - 5.0;
      size := 20.0 + d.size * 30.0;
      rotation := 0.0;
      rotationSpeed := (d.spin - 0.5) * 0.2;
      life := 1.0;
      decay := ShapeDecay;
      shapeType := ShapeKind(d.kind);
      color := ShapeColor(d.color);
    }

    method Update()
      modifies this
      ensures Value() == ShapeStep(old(Value()))
    {
      ghost var s0 := Value();
      assert gravity == ShapeGravity && bounce == ShapeBounce && friction == ShapeFriction;
      vy := vy + gravity;
      x := x + vx;
      y := y + vy;
      rotation := rotation + rotationSpeed;
      ghost var h := Horizontal(s0);
      ghost var v := Vertical(s0);
      if x + size / 2.0 > canvas.width || x - size / 2.0 < 0.0 {
        vx := vx * -bounce;
        x := Max(size / 2.0, Min(canvas.width - size / 2.0, x));
      }
      assert x == h.p && vx == h.v;
      if y + size / 2.0 > canvas.height || y - size / 2.0 < 0.0 {
        vy := vy * -bounce;
        y := Max(size / 2.0, Min(canvas.height - size / 2.0, y));
      }
      assert y == v.p && vy == v.v;
      vx := vx * friction;
      vy := vy * friction;
      life := life - decay;
    }

    predicate IsDead()
      reads this
      ensures IsDead() <==> ShapeDead(Value())
    {
      life <= 0.0
    }
  }
}
