/** The special effects (js/effects.js): Supernova, Spiral, Comet and
    Explosion. Each is an object whose update changes its fields in place;
    each exposes its fields as a value, and each update is specified by a
    pure step function on that value. Every Math.random, Math.cos and
    Math.sin result the source draws is a parameter. */
module Effects {
  import opened Seqs
  import opened Geometry

  // =====================================================================
  // Supernova: a growing core plus 20 radial particles

  datatype Ray = Ray(x: real, y: real, vx: real, vy: real, size: real, life: real, decay: real)

  /** The draws one ray is built from: the cosine and sine of its angle and
      four Math.random results. */
  datatype RayDraw = RayDraw(cos: real, sin: real, speedX: real, speedY: real, size: real, decay: real)

  predicate IsRayDraw(d: RayDraw) {
    IsUnit(d.cos) && IsUnit(d.sin) && IsRoll(d.speedX) && IsRoll(d.speedY) && IsRoll(d.size) && IsRoll(d.decay)
  }

  const RayCount: nat := 20
  const NovaExpandSpeed: real := 8.0
  const NovaDecay: real := 0.012
  /** Per-update velocity factor of a ray. */
  const RayDrag: real := 0.98

  function NewRay(x: real, y: real, d: RayDraw): Ray {
    Ray(x, y, d.cos * (5.0 + d.speedX * 10.0), d.sin * (5.0 + d.speedY * 10.0),
        3.0 + d.size * 8.0, 1.0, 0.015 + d.decay * 0.01)
  }

  function NewRays(x: real, y: real, draws: seq<RayDraw>): (rays: seq<Ray>)
    ensures |rays| == |draws|
  {
    seq(|draws|, i requires 0 <= i < |draws| => NewRay(x, y, draws[i]))
  }

  /** A new ray fades by between 0.015 and 0.025 per update. */
  lemma NewRayRanges(x: real, y: real, d: RayDraw)
    requires IsRayDraw(d)
    ensures var r := NewRay(x, y, d);
      r.life == 1.0 && 0.015 <= r.decay < 0.025 && 3.0 <= r.size < 11.0
  {
  }

  /** The supernova the constructor builds at (x, y): no core yet, a
      maximum core size from the size roll, one ray per draw. */
  function NewNova(x: real, y: real, maxRoll: real, draws: seq<RayDraw>): NovaState {
    NovaState(x, y, 0.0, 150.0 + maxRoll * 100.0, NovaExpandSpeed, 1.0, NovaDecay, NewRays(x, y, draws))
  }

  /** With its rolls in [0, 1), a new supernova starts with no core and
      full life, its core grows to between 150 and 250, and every ray
      starts with life 1, a decay in [0.015, 0.025) and a size in [3, 11). */
  lemma NewNovaRanges(x: real, y: real, maxRoll: real, draws: seq<RayDraw>)
    requires IsRoll(maxRoll)
    requires forall i :: 0 <= i < |draws| ==> IsRayDraw(draws[i])
    ensures var s := NewNova(x, y, maxRoll, draws);
      s.size == 0.0 && s.life == 1.0 && 150.0 <= s.maxSize < 250.0 && |s.rays| == |draws|
    ensures var s := NewNova(x, y, maxRoll, draws);
      forall i :: 0 <= i < |s.rays| ==>
        s.rays[i].life == 1.0 && 0.015 <= s.rays[i].decay < 0.025 && 3.0 <= s.rays[i].size < 11.0
  {
    var s := NewNova(x, y, maxRoll, draws);
    forall i | 0 <= i < |s.rays|
      ensures s.rays[i].life == 1.0 && 0.015 <= s.rays[i].decay < 0.025 && 3.0 <= s.rays[i].size < 11.0
    {
      NewRayRanges(x, y, draws[i]);
    }
  }

  function MoveRay(p: Ray): Ray {
    p.(x := p.x + p.vx, y := p.y + p.vy, vx := p.vx * RayDrag, vy := p.vy * RayDrag,
       life := p.life - p.decay)
  }

  predicate RayAlive(p: Ray) {
    p.life > 0.0
  }

  datatype NovaState = NovaState(
    x: real, y: real, size: real, maxSize: real, expandSpeed: real,
    life: real, decay: real, rays: seq<Ray>)

  function NovaStep(s: NovaState): NovaState {
    s.(size := Grow(s.size, s.maxSize, s.expandSpeed),
       rays := Filter(Map(s.rays, MoveRay), RayAlive),
       life := s.life - s.decay)
  }

  /** isDead: the core's own life only, whatever its rays are doing. */
  predicate NovaDead(s: NovaState) {
    s.life <= 0.0
  }

  /** The core grows by its expand speed only while below its maximum, so it
      never reaches maximum plus one step. */
  predicate NovaSizeOk(s: NovaState) {
    s.expandSpeed > 0.0 && 0.0 <= s.size < s.maxSize + s.expandSpeed
  }

  lemma NovaStepKeepsSize(s: NovaState)
    requires NovaSizeOk(s)
    ensures NovaSizeOk(NovaStep(s)) && s.size <= NovaStep(s).size
  {
    GrowBound(s.size, s.maxSize, s.expandSpeed);
  }

  /** Each ray loses its own decay; exactly the living ones stay, in order;
      the core's life drops by the core's decay, independently of the rays. */
  lemma NovaStepRays(s: NovaState)
    ensures ExactlyKept(NovaStep(s).rays, Map(s.rays, MoveRay), RayAlive)
    ensures forall i :: 0 <= i < |s.rays| ==> Map(s.rays, MoveRay)[i].life == s.rays[i].life - s.rays[i].decay
    ensures NovaStep(s).life == s.life - s.decay
    ensures NovaDead(NovaStep(s)) <==> s.life - s.decay <= 0.0
  {
    FilterExactlyKept(Map(s.rays, MoveRay), RayAlive);
  }

  function NovaStepN(s: NovaState, k: nat): NovaState
    decreases k
  {
    if k == 0 then s else NovaStep(NovaStepN(s, k - 1))
  }

  lemma {:induction false} NovaStepNLife(s: NovaState, k: nat)
    ensures NovaStepN(s, k).life == Faded(s.life, s.decay, k)
    ensures NovaStepN(s, k).decay == s.decay
    decreases k
  {
    if k > 0 {
      NovaStepNLife(s, k - 1);
    }
  }

  /** A new supernova is alive for 83 updates and dead from the 84th on. */
  lemma NovaLifetime(s: NovaState, k: nat)
    requires s.life == 1.0 && s.decay == NovaDecay
    ensures NovaDead(NovaStepN(s, k)) <==> k >= 84
  {
    NovaStepNLife(s, k);
  }

  class Supernova {
    const x: real
    const y: real
    var size: real
    const maxSize: real
    const expandSpeed: real
    var life: real
    const decay: real
    const color: string
    var particles: seq<Ray>

    function Value(): NovaState
      reads this
    {
      NovaState(x, y, size, maxSize, expandSpeed, life, decay, particles)
    }

    /** 20 rays from the centre, one per draw. In the source ray i points at
        angle 2πi/20; here its cosine and sine are the draw's own fields, and
        NewNovaRanges states what holds when the draws are in range. */
    constructor (x: real, y: real, maxRoll: real, draws: seq<RayDraw>)
      requires |draws| == RayCount
      ensures Value() == NewNova(x, y, maxRoll, draws)
      ensures color == "#ffff99"
    {
      this.x := x;
      this.y := y;
      size := 0.0;
      maxSize := 150.0 + maxRoll * 100.0;
      expandSpeed := NovaExpandSpeed;
      life := 1.0;
      decay := NovaDecay;
      color := "#ffff99";
      particles := [];
      new;
      var i := 0;
      while i < RayCount
        invariant 0 <= i <= RayCount
        invariant |particles| == i
        invariant forall j :: 0 <= j < i ==> particles[j] == NewRay(x, y, draws[j])
        invariant size == 0.0 && life == 1.0
      {
        var d := draws[i];
        var ray := NewRay(x, y, d);
        particles := particles + [ray];
        i := i + 1;
      }
      assert particles == NewRays(x, y, draws);
    }

    method Update()
      modifies this
      ensures Value() == NovaStep(old(Value()))
    {
      if size < maxSize {
        size := size + expandSpeed;
      }
      var i := 0;
      while i < |particles|
        invariant 0 <= i <= |particles| == |old(particles)|
        invariant forall j :: 0 <= j < i ==> particles[j] == MoveRay(old(particles)[j])
        invariant forall j :: i <= j < |particles| ==> particles[j] == old(particles)[j]
        invariant size == Grow(old(size), maxSize, expandSpeed) && life == old(life)
      {
        var p := particles[i];
        p := p.(x := p.x + p.vx);
        p := p.(y := p.y + p.vy);
        p := p.(vx := p.vx * RayDrag);
        p := p.(vy := p.vy * RayDrag);
        p := p.(life := p.life - p.decay);
        particles := particles[i := p];
        i := i + 1;
      }
      assert particles == Map(old(particles), MoveRay);
      particles := Filter(particles, RayAlive);
      life := life - decay;
    }

    predicate IsDead()
      reads this
      ensures IsDead() <==> NovaDead(Value())
    {
      life <= 0.0
    }
  }

  // =====================================================================
  // Spiral: three arms that shed particles as the spiral turns and widens

  datatype Mote = Mote(distance: real, angle: real, size: real, life: real, decay: real)

  datatype Arm = Arm(angle: real, particles: seq<Mote>)

  /** The three Math.random results one arm may use in one update: whether
      to emit, how far out, how large. */
  datatype ArmDraw = ArmDraw(emit: real, distance: real, size: real)

  predicate IsArmDraw(d: ArmDraw) {
    IsRoll(d.emit) && IsRoll(d.distance) && IsRoll(d.size)
  }

  const ArmCount: nat := 3
  const EmitChance: real := 0.3
  const SpiralRotationSpeed: real := 0.1
  const SpiralStartRadius: real := 20.0
  const SpiralMaxRadius: real := 120.0
  const SpiralExpandSpeed: real := 2.0
  const SpiralDecay: real := 0.008
  /** Per-update turn and fade of a particle. */
  const MoteTurn: real := 0.02
  const MoteDecay: real := 0.02

  /** Arm i starts at angle 2πi/3. */
  function ArmAngle(i: nat): real {
    (Pi * 2.0 / 3.0) * i as real
  }

  function InitialArms(): (arms: seq<Arm>)
    ensures |arms| == ArmCount
  {
    [Arm(ArmAngle(0), []), Arm(ArmAngle(1), []), Arm(ArmAngle(2), [])]
  }

  /** A particle shed at this update, at a fraction of the (already widened)
      radius. */
  function NewMote(arm: Arm, rotation: real, radius: real, d: ArmDraw): Mote {
    var distance := d.distance * radius;
    Mote(distance, arm.angle + rotation + distance * 0.05, 2.0 + d.size * 6.0, 1.0, MoteDecay)
  }

  function TurnMote(p: Mote): Mote {
    p.(angle := p.angle + MoteTurn, life := p.life - p.decay)
  }

  predicate MoteAlive(p: Mote) {
    p.life > 0.0
  }

  /** The particles an arm holds after emitting (or not) and before aging. */
  function Emitted(arm: Arm, rotation: real, radius: real, d: ArmDraw): seq<Mote> {
    if d.emit < EmitChance then arm.particles + [NewMote(arm, rotation, radius, d)] else arm.particles
  }

  function ArmStep(arm: Arm, rotation: real, radius: real, d: ArmDraw): Arm {
    arm.(particles := Filter(Map(Emitted(arm, rotation, radius, d), TurnMote), MoteAlive))
  }

  datatype SpiralState = SpiralState(
    x: real, y: real, rotation: real, rotationSpeed: real, radius: real, maxRadius: real,
    expandSpeed: real, life: real, decay: real, arms: seq<Arm>)

  function StepArms(arms: seq<Arm>, rotation: real, radius: real, draws: seq<ArmDraw>): (r: seq<Arm>)
    requires |draws| == |arms|
    ensures |r| == |arms|
  {
    seq(|arms|, i requires 0 <= i < |arms| => ArmStep(arms[i], rotation, radius, draws[i]))
  }

  /** One update: turn, widen while below the maximum radius, let every arm
      emit and age its particles, fade. */
  function SpiralStep(s: SpiralState, draws: seq<ArmDraw>): SpiralState
    requires |draws| == |s.arms|
  {
    var rotation := s.rotation + s.rotationSpeed;
    var radius := Grow(s.radius, s.maxRadius, s.expandSpeed);
    s.(rotation := rotation, radius := radius, arms := StepArms(s.arms, rotation, radius, draws),
       life := s.life - s.decay)
  }

  predicate SpiralDead(s: SpiralState) {
    s.life <= 0.0
  }

  /** What every update keeps true: three arms, a positive radius below
      maximum plus one step, and every particle closer to the centre than
      the radius. */
  predicate SpiralOk(s: SpiralState) {
    && |s.arms| == ArmCount
    && s.expandSpeed > 0.0
    && 0.0 < s.radius < s.maxRadius + s.expandSpeed
    && forall i, j :: 0 <= i < |s.arms| && 0 <= j < |s.arms[i].particles| ==>
         0.0 <= s.arms[i].particles[j].distance < s.radius
  }

  lemma MoteDistanceBound(d: ArmDraw, arm: Arm, rotation: real, radius: real)
    requires IsArmDraw(d) && radius > 0.0
    ensures 0.0 <= NewMote(arm, rotation, radius, d).distance < radius
  {
    var distance := d.distance * radius;
    assert 0.0 <= distance by {
      MulNonNegative(d.distance, radius);
    }
    assert distance < radius by {
      MulNonNegative(1.0 - d.distance, radius);
      assert (1.0 - d.distance) * radius == radius - distance;
      assert (1.0 - d.distance) * radius != 0.0;
    }
  }

  /** Aging and pruning keeps a particle's distance. */
  lemma ArmStepDistances(arm: Arm, rotation: real, radius: real, d: ArmDraw, bound: real)
    requires IsArmDraw(d) && 0.0 < radius <= bound
    requires forall j :: 0 <= j < |arm.particles| ==> 0.0 <= arm.particles[j].distance < bound
    ensures var ps := ArmStep(arm, rotation, radius, d).particles;
      forall j :: 0 <= j < |ps| ==> 0.0 <= ps[j].distance < bound
  {
    var emitted := Emitted(arm, rotation, radius, d);
    MoteDistanceBound(d, arm, rotation, radius);
    assert forall j :: 0 <= j < |emitted| ==> 0.0 <= emitted[j].distance < bound;
    var turned := Map(emitted, TurnMote);
    FilterPreserves(turned, MoteAlive, (p: Mote) => 0.0 <= p.distance < bound);
  }

  lemma SpiralStepKeepsOk(s: SpiralState, draws: seq<ArmDraw>)
    requires SpiralOk(s) && |draws| == |s.arms|
    requires forall i :: 0 <= i < |draws| ==> IsArmDraw(draws[i])
    ensures SpiralOk(SpiralStep(s, draws))
  {
    var s' := SpiralStep(s, draws);
    GrowBound(s.radius, s.maxRadius, s.expandSpeed);
    forall i | 0 <= i < |s'.arms|
      ensures forall j :: 0 <= j < |s'.arms[i].particles| ==>
        0.0 <= s'.arms[i].particles[j].distance < s'.radius
    {
      ArmStepDistances(s.arms[i], s'.rotation, s'.radius, draws[i], s'.radius);
    }
  }

  /** Each update sheds at most one particle per arm, only on an emit draw
      below 0.3, and leaves the arms' own angles alone. */
  lemma SpiralStepEmitsAtMostOne(s: SpiralState, draws: seq<ArmDraw>, i: nat)
    requires |draws| == |s.arms| && i < |s.arms|
    ensures var arm' := SpiralStep(s, draws).arms[i];
      arm'.angle == s.arms[i].angle &&
      |arm'.particles| <= |s.arms[i].particles| + (if draws[i].emit < EmitChance then 1 else 0)
  {
    var s' := SpiralStep(s, draws);
    var emitted := Emitted(s.arms[i], s'.rotation, s'.radius, draws[i]);
    FilterLength(Map(emitted, TurnMote), MoteAlive);
  }

  /** The arm's particles after an update are exactly the aged ones still
      alive, in order; the new particle is aged in the same update. */
  lemma ArmStepKeepsLiving(arm: Arm, rotation: real, radius: real, d: ArmDraw)
    ensures ExactlyKept(ArmStep(arm, rotation, radius, d).particles,
                        Map(Emitted(arm, rotation, radius, d), TurnMote), MoteAlive)
  {
    FilterExactlyKept(Map(Emitted(arm, rotation, radius, d), TurnMote), MoteAlive);
  }

  /** Updates one after another, draws[k] feeding the k-th. */
  function SpiralRun(s: SpiralState, draws: seq<seq<ArmDraw>>): SpiralState
    requires forall k :: 0 <= k < |draws| ==> |draws[k]| == |s.arms|
    decreases |draws|
  {
    if draws == [] then s else SpiralRun(SpiralStep(s, draws[0]), draws[1..])
  }

  /** However the arms fare, k updates turn the spiral by k rotation steps
      and take k decays off its life. */
  lemma {:induction false} SpiralRunTurnsAndFades(s: SpiralState, draws: seq<seq<ArmDraw>>)
    requires forall k :: 0 <= k < |draws| ==> |draws[k]| == |s.arms|
    ensures SpiralRun(s, draws).life == Faded(s.life, s.decay, |draws|)
    ensures SpiralRun(s, draws).rotation == s.rotation + |draws| as real * s.rotationSpeed
    ensures |SpiralRun(s, draws).arms| == |s.arms|
    decreases |draws|
  {
    if draws != [] {
      var s' := SpiralStep(s, draws[0]);
      assert forall k :: 0 <= k < |draws[1..]| ==> |draws[1..][k]| == |s'.arms| by {
        forall k | 0 <= k < |draws[1..]| ensures |draws[1..][k]| == |s'.arms| {
          assert draws[1..][k] == draws[k + 1];
        }
      }
      SpiralRunTurnsAndFades(s', draws[1..]);
    }
  }

  /** A new spiral is alive for 124 updates and dead from the 125th on. */
  lemma SpiralLifetime(s: SpiralState, draws: seq<seq<ArmDraw>>)
    requires s.life == 1.0 && s.decay == SpiralDecay
    requires forall k :: 0 <= k < |draws| ==> |draws[k]| == |s.arms|
    ensures SpiralDead(SpiralRun(s, draws)) <==> |draws| >= 125
  {
    SpiralRunTurnsAndFades(s, draws);
  }

  /** The inner `forEach` of the spiral's update: every particle turns and
      fades by its own decay. */
  method AgeMotes(ps: seq<Mote>) returns (r: seq<Mote>)
    ensures r == Map(ps, TurnMote)
  {
    r := ps;
    var k := 0;
    while k < |r|
      invariant 0 <= k <= |r| == |ps|
      invariant forall j :: 0 <= j < k ==> r[j] == TurnMote(ps[j])
      invariant forall j :: k <= j < |r| ==> r[j] == ps[j]
    {
      var p := r[k];
      p := p.(angle := p.angle + MoteTurn);
      p := p.(life := p.life - p.decay);
      r := r[k := p];
      k := k + 1;
    }
  }

  lemma SpiralStepFields(s: SpiralState, draws: seq<ArmDraw>)
    requires |draws| == |s.arms|
    ensures var rotation := s.rotation + s.rotationSpeed;
      var radius := Grow(s.radius, s.maxRadius, s.expandSpeed);
      SpiralStep(s, draws) == s.(rotation := rotation, radius := radius,
                                 arms := StepArms(s.arms, rotation, radius, draws), life := s.life - s.decay)
  {
  }

  /** The body of the spiral's per-arm `forEach`: emit, age, prune. */
  method StepArm(arm: Arm, rotation: real, radius: real, d: ArmDraw) returns (a: Arm)
    ensures a == ArmStep(arm, rotation, radius, d)
  {
    a := arm;
    if d.emit < EmitChance {
      var mote := NewMote(a, rotation, radius, d);
      a := a.(particles := a.particles + [mote]);
    }
    var aged := AgeMotes(a.particles);
    a := a.(particles := Filter(aged, MoteAlive));
  }

  /** js/effects.js `Spiral`. The arms are records only this object holds,
      so they are values in a sequence field. */
  class Spiral {
    const x: real
    const y: real
    var rotation: real
    const rotationSpeed: real
    var radius: real
    const maxRadius: real
    const expandSpeed: real
    var life: real
    const decay: real
    var arms: seq<Arm>

    function Value(): SpiralState
      reads this
    {
      SpiralState(x, y, rotation, rotationSpeed, radius, maxRadius, expandSpeed, life, decay, arms)
    }

    constructor (x: real, y: real)
      ensures Value() == SpiralState(x, y, 0.0, SpiralRotationSpeed, SpiralStartRadius, SpiralMaxRadius,
                                     SpiralExpandSpeed, 1.0, SpiralDecay, InitialArms())
    {
      this.x := x;
      this.y := y;
      rotation := 0.0;
      rotationSpeed := SpiralRotationSpeed;
      radius := SpiralStartRadius;
      maxRadius := SpiralMaxRadius;
      expandSpeed := SpiralExpandSpeed;
      life := 1.0;
      decay := SpiralDecay;
      arms := [];
      new;
      var arm := 0;
      while arm < ArmCount
        invariant 0 <= arm <= ArmCount
        invariant arms == InitialArms()[..arm]
        invariant rotation == 0.0 && radius == SpiralStartRadius && life == 1.0
      {
        arms := arms + [Arm(ArmAngle(arm), [])];
        arm := arm + 1;
      }
    }

    /** draws[i] holds the random results arm i may use. */
    method Update(draws: seq<ArmDraw>)
      requires |draws| == |arms|
      modifies this
      ensures Value() == SpiralStep(old(Value()), draws)
    {
      ghost var s0 := Value();
      rotation := rotation + rotationSpeed;
      if radius < maxRadius {
        radius := radius + expandSpeed;
      }
      var stepped := arms;
      var i := 0;
      while i < |stepped|
        invariant 0 <= i <= |stepped| == |arms|
        invariant forall j :: 0 <= j < i ==> stepped[j] == ArmStep(arms[j], rotation, radius, draws[j])
        invariant forall j :: i <= j < |stepped| ==> stepped[j] == arms[j]
        modifies {}
      {
        var arm := StepArm(stepped[i], rotation, radius, draws[i]);
        stepped := stepped[i := arm];
        i := i + 1;
      }
      ghost var target := StepArms(arms, rotation, radius, draws);
      assert forall j :: 0 <= j < |stepped| ==> stepped[j] == target[j];
      assert stepped == target;
      arms := stepped;
      life := life - decay;
      SpiralStepFields(s0, draws);
      assert Value() == s0.(rotation := rotation, radius := radius, arms := arms, life := life);
    }

    predicate IsDead()
      reads this
      ensures IsDead() <==> SpiralDead(Value())
    {
      life <= 0.0
    }
  }

  // =====================================================================
  // Comet: a bouncing head that leaves a fading trail of its last positions

  datatype TrailPoint = TrailPoint(x: real, y: real, life: real)

  /** The draws a comet is built from: the cosine and sine of its random
      heading, and two Math.random results for speed and size. */
  datatype CometDraw = CometDraw(cos: real, sin: real, speed: real, size: real)

  const MaxTrailLength: nat := 25
  const CometDecay: real := 0.006
  /** Velocity factor on hitting an edge: reversed, and slowed to 80%. */
  const Rebound: real := -0.8

  datatype CometState = CometState(
    canvas: Canvas, x: real, y: real, vx: real, vy: real, trail: seq<TrailPoint>,
    maxTrailLength: nat, size: real, life: real, decay: real)

  function NewComet(canvas: Canvas, x: real, y: real, d: CometDraw): CometState {
    var speed := 8.0 + d.speed * 12.0;
    CometState(canvas, x, y, d.cos * speed, d.sin * speed, [], MaxTrailLength,
               8.0 + d.size * 12.0, 1.0, CometDecay)
  }

  function PointAt(p: TrailPoint): Vec {
    Vec(p.x, p.y)
  }

  function Positions(trail: seq<TrailPoint>): (ps: seq<Vec>)
    ensures |ps| == |trail|
  {
    Map(trail, PointAt)
  }

  /** Every point's life becomes its index over the trail's length, so the
      oldest point is faintest. */
  function Relabel(trail: seq<TrailPoint>): (r: seq<TrailPoint>)
    ensures |r| == |trail|
  {
    seq(|trail|, i requires 0 <= i < |trail| => trail[i].(life := i as real / |trail| as real))
  }

  /** The trail after one more head position: pushed, the oldest point
      shifted off past the maximum length, relabelled. */
  function GrowTrail(trail: seq<TrailPoint>, maxLength: nat, head: Vec): seq<TrailPoint> {
    var pushed := trail + [TrailPoint(head.x, head.y, 1.0)];
    Relabel(if |pushed| > maxLength then pushed[1..] else pushed)
  }

  predicate OutOfRange(v: real, limit: real) {
    v < 0.0 || v > limit
  }

  function Bounce(v: real, position: real, limit: real): real {
    if OutOfRange(position, limit) then v * Rebound else v
  }

  function CometStep(s: CometState): CometState {
    var x := s.x + s.vx;
    var y := s.y + s.vy;
    s.(x := x, y := y, trail := GrowTrail(s.trail, s.maxTrailLength, Vec(x, y)),
       vx := Bounce(s.vx, x, s.canvas.width), vy := Bounce(s.vy, y, s.canvas.height),
       life := s.life - s.decay)
  }

  predicate CometDead(s: CometState) {
    s.life <= 0.0
  }

  lemma DivLess(i: real, j: real, n: real)
    requires 0.0 <= i < j && n > 0.0
    ensures i / n < j / n
  {
    assert (j - i) / n > 0.0;
    assert (j - i) / n == j / n - i / n;
  }

  lemma DivBelowOne(i: real, n: real)
    requires 0.0 <= i < n
    ensures 0.0 <= i / n < 1.0
  {
    assert i / n < n / n by {
      DivLess(i, n, n);
    }
    assert n / n == 1.0;
    assert 0.0 <= i / n;
  }

  /** Relabelling keeps the positions and gives lives in [0, 1) that grow
      strictly from the oldest point to the newest. */
  lemma RelabelLives(trail: seq<TrailPoint>)
    ensures Positions(Relabel(trail)) == Positions(trail)
    ensures forall i :: 0 <= i < |trail| ==> 0.0 <= Relabel(trail)[i].life < 1.0
    ensures forall i, j :: 0 <= i < j < |trail| ==> Relabel(trail)[i].life < Relabel(trail)[j].life
  {
    var r := Relabel(trail);
    var n := |trail| as real;
    forall i | 0 <= i < |trail|
      ensures Positions(r)[i] == Positions(trail)[i]
    {
      assert Positions(r)[i] == PointAt(r[i]);
      assert Positions(trail)[i] == PointAt(trail[i]);
      assert r[i].x == trail[i].x && r[i].y == trail[i].y;
    }
    forall i | 0 <= i < |trail|
      ensures 0.0 <= r[i].life < 1.0
    {
      DivBelowOne(i as real, n);
    }
    forall i, j | 0 <= i < j < |trail|
      ensures r[i].life < r[j].life
    {
      DivLess(i as real, j as real, n);
    }
  }

  /** The trail is a window over the head's positions: the newest point is
      the head, and the window holds the last 25 positions. */
  lemma GrowTrailWindow(trail: seq<TrailPoint>, maxLength: nat, head: Vec)
    requires 0 < maxLength && |trail| <= maxLength
    ensures Positions(GrowTrail(trail, maxLength, head)) == LastN(Positions(trail) + [head], maxLength)
    ensures |GrowTrail(trail, maxLength, head)| == if |trail| < maxLength then |trail| + 1 else maxLength
  {
    var pushed := trail + [TrailPoint(head.x, head.y, 1.0)];
    var kept := if |pushed| > maxLength then pushed[1..] else pushed;
    RelabelLives(kept);
    forall i | 0 <= i < |pushed|
      ensures Positions(pushed)[i] == (Positions(trail) + [head])[i]
    {
      assert Positions(pushed)[i] == PointAt(pushed[i]);
    }
    assert Positions(pushed) == Positions(trail) + [head];
    if |pushed| > maxLength {
      assert Positions(kept) == Positions(pushed)[1..];
    }
  }

  /** The head's positions after each of k updates, oldest first. */
  function Heads(s: CometState, k: nat): (hs: seq<Vec>)
    ensures |hs| == k
    decreases k
  {
    if k == 0 then [] else
      var s' := CometStepN(s, k);
      Heads(s, k - 1) + [Vec(s'.x, s'.y)]
  }

  function CometStepN(s: CometState, k: nat): CometState
    decreases k
  {
    if k == 0 then s else CometStep(CometStepN(s, k - 1))
  }

  lemma CometStepTrail(s: CometState)
    ensures var s' := CometStep(s);
      s'.maxTrailLength == s.maxTrailLength && s'.trail == GrowTrail(s.trail, s.maxTrailLength, Vec(s'.x, s'.y))
  {
  }

  /** One more update slides the window by the new head position. */
  lemma CometTrailSlides(s: CometState, k: nat)
    requires k > 0 && s.maxTrailLength > 0
    requires CometStepN(s, k - 1).maxTrailLength == s.maxTrailLength
    requires Positions(CometStepN(s, k - 1).trail) == LastN(Positions(s.trail) + Heads(s, k - 1), s.maxTrailLength)
    ensures CometStepN(s, k).maxTrailLength == s.maxTrailLength
    ensures Positions(CometStepN(s, k).trail) == LastN(Positions(s.trail) + Heads(s, k), s.maxTrailLength)
  {
    var prev := CometStepN(s, k - 1);
    var cur := CometStepN(s, k);
    assert cur == CometStep(prev);
    var head := Vec(cur.x, cur.y);
    assert Heads(s, k) == Heads(s, k - 1) + [head];
    var history := Positions(s.trail) + Heads(s, k - 1);
    CometStepTrail(prev);
    assert |prev.trail| <= s.maxTrailLength;
    GrowTrailWindow(prev.trail, s.maxTrailLength, head);
    LastNSlide(history, head, s.maxTrailLength);
    assert history + [head] == Positions(s.trail) + Heads(s, k);
  }

  /** After any number of updates the trail holds exactly the last 25 head
      positions (after the ones it started with), oldest first. */
  lemma {:induction false} CometTrailIsWindow(s: CometState, k: nat)
    requires s.maxTrailLength > 0 && |s.trail| <= s.maxTrailLength
    ensures CometStepN(s, k).maxTrailLength == s.maxTrailLength
    ensures Positions(CometStepN(s, k).trail) == LastN(Positions(s.trail) + Heads(s, k), s.maxTrailLength)
    decreases k
  {
    if k == 0 {
      assert Positions(s.trail) + Heads(s, 0) == Positions(s.trail);
    } else {
      CometTrailIsWindow(s, k - 1);
      CometTrailSlides(s, k);
    }
  }

  /** A comet turns back only at an edge: off the canvas its velocity is
      reversed and slowed, on it nothing changes, and speed never grows. */
  lemma BounceTurnsBack(v: real, position: real, limit: real)
    ensures OutOfRange(position, limit) ==> Bounce(v, position, limit) == -0.8 * v
    ensures !OutOfRange(position, limit) ==> Bounce(v, position, limit) == v
    ensures position < 0.0 && v < 0.0 ==> Bounce(v, position, limit) > 0.0
    ensures position > limit && v > 0.0 ==> Bounce(v, position, limit) < 0.0
    ensures -v <= Bounce(v, position, limit) <= v || v <= Bounce(v, position, limit) <= -v
  {
  }

  lemma {:induction false} CometStepNLife(s: CometState, k: nat)
    ensures CometStepN(s, k).life == Faded(s.life, s.decay, k)
    ensures CometStepN(s, k).decay == s.decay
    decreases k
  {
    if k > 0 {
      CometStepNLife(s, k - 1);
    }
  }

  /** A new comet is alive for 166 updates and dead from the 167th on. */
  lemma CometLifetime(canvas: Canvas, x: real, y: real, d: CometDraw, k: nat)
    ensures CometDead(CometStepN(NewComet(canvas, x, y, d), k)) <==> k >= 167
  {
    CometStepNLife(NewComet(canvas, x, y, d), k);
  }

  /** The comet's `forEach` over its trail, setting each point's life from
      its index. */
  method RelabelTrail(t: seq<TrailPoint>) returns (r: seq<TrailPoint>)
    ensures r == Relabel(t)
  {
    r := t;
    var index := 0;
    while index < |r|
      invariant 0 <= index <= |r| == |t|
      invariant forall j :: 0 <= j < index ==> r[j] == t[j].(life := j as real / |t| as real)
      invariant forall j :: index <= j < |r| ==> r[j] == t[j]
    {
      r := r[index := r[index].(life := index as real / |r| as real)];
      index := index + 1;
    }
  }

  /** js/effects.js `Comet`. */
  class Comet {
    const canvas: Canvas
    var x: real
    var y: real
    var vx: real
    var vy: real
    var trail: seq<TrailPoint>
    const maxTrailLength: nat
    const size: real
    var life: real
    const decay: real
    const color: string

    function Value(): CometState
      reads this
    {
      CometState(canvas, x, y, vx, vy, trail, maxTrailLength, size, life, decay)
    }

    constructor (x: real, y: real, canvas: Canvas, d: CometDraw)
      ensures Value() == NewComet(canvas, x, y, d)
      ensures color == "#82b1ff"
    {
      this.canvas := canvas;
      var speed := 8.0 + d.speed * 12.0;
      this.x := x;
      this.y := y;
      vx := d.cos * speed;
      vy := d.sin * speed;
      trail := [];
      maxTrailLength := MaxTrailLength;
      size := 8.0 + d.size * 12.0;
      life := 1.0;
      decay := CometDecay;
      color := "#82b1ff";
    }

    method Update()
      modifies this
      ensures Value() == CometStep(old(Value()))
    {
      ghost var s0 := Value();
      x := x + vx;
      y := y + vy;
      var t := trail + [TrailPoint(x, y, 1.0)];
      if |t| > maxTrailLength {
        t := t[1..];
      }
      t := RelabelTrail(t);
      assert t == GrowTrail(s0.trail, maxTrailLength, Vec(x, y));
      trail := t;
      if x < 0.0 || x > canvas.width {
        vx := vx * Rebound;
      }
      if y < 0.0 || y > canvas.height {
        vy := vy * Rebound;
      }
      life := life - decay;
      assert vx == Bounce(s0.vx, x, canvas.width) && vy == Bounce(s0.vy, y, canvas.height);
    }

    predicate IsDead()
      reads this
      ensures IsDead() <==> CometDead(Value())
    {
      life <= 0.0
    }
  }

  // =====================================================================
  // Explosion: 15 to 35 coloured sparks that fall under gravity

  datatype Spark = Spark(x: real, y: real, vx: real, vy: real, size: real, life: real, decay: real,
                         color: string)

  /** The draws one spark is built from: the cosine and sine of its random
      heading, then Math.random results for speed, size, decay and colour. */
  datatype SparkDraw = SparkDraw(cos: real, sin: real, speed: real, size: real, decay: real, color: real)

  predicate IsSparkDraw(d: SparkDraw) {
    IsUnit(d.cos) && IsUnit(d.sin) && IsRoll(d.speed) && IsRoll(d.size) && IsRoll(d.decay) && IsRoll(d.color)
  }

  const ExplosionDecay: real := 0.015
  const SparkDrag: real := 0.95
  const SparkGravity: real := 0.2

  const ExplosionPalette: seq<string> := ["#ff6b6b", "#4ecdc4", "#45b7d1", "#96ceb4", "#feca57", "#ff9ff3"]

  /** `colors[Math.floor(Math.random() * colors.length)]`. */
  function ExplosionColor(roll: real): (c: string)
    requires IsRoll(roll)
    ensures c in ExplosionPalette
  {
    var i := (roll * |ExplosionPalette| as real).Floor;
    assert 0 <= i < |ExplosionPalette| by {
      MulNonNegative(roll, 6.0);
      assert roll * 6.0 < 6.0;
    }
    ExplosionPalette[i]
  }

  /** The number of passes of `for (i = 0; i < limit; i++)`: the least n
      with n >= limit. */
  function PassCount(limit: real): (n: nat)
    ensures n as real >= limit
    ensures n == 0 || (n - 1) as real < limit
  {
    if limit <= 0.0 then 0
    else
      var f := limit.Floor;
      if f as real == limit then f else f + 1
  }

  /** `15 + Math.random() * 20` sparks, rounded up by the loop: 15 to 35. */
  lemma SparkCountRange(roll: real)
    requires IsRoll(roll)
    ensures 15 <= PassCount(15.0 + roll * 20.0) <= 35
  {
    MulNonNegative(roll, 20.0);
  }

  function NewSpark(x: real, y: real, d: SparkDraw): Spark
    requires IsRoll(d.color)
  {
    var speed := 3.0 + d.speed * 15.0;
    Spark(x, y, d.cos * speed, d.sin * speed, 3.0 + d.size * 8.0, 1.0, 0.02 + d.decay * 0.02,
          ExplosionColor(d.color))
  }

  function NewSparks(x: real, y: real, draws: seq<SparkDraw>): (sparks: seq<Spark>)
    requires forall i :: 0 <= i < |draws| ==> IsRoll(draws[i].color)
    ensures |sparks| == |draws|
  {
    seq(|draws|, i requires 0 <= i < |draws| => NewSpark(x, y, draws[i]))
  }

  /** Move, slow to 95%, then fall: gravity is added after the drag. */
  function MoveSpark(p: Spark): Spark {
    p.(x := p.x + p.vx, y := p.y + p.vy, vx := p.vx * SparkDrag, vy := p.vy * SparkDrag + SparkGravity,
       life := p.life - p.decay)
  }

  predicate SparkAlive(p: Spark) {
    p.life > 0.0
  }

  /** Drag then gravity pulls the vertical speed towards 4 px per update
      (0.2 / 0.05), closing 5% of the gap each update, and shrinks the
      horizontal speed by 5%. */
  lemma SparkTerminalSpeed(p: Spark)
    ensures MoveSpark(p).vy - 4.0 == SparkDrag * (p.vy - 4.0)
    ensures MoveSpark(p).vx == SparkDrag * p.vx
  {
  }

  datatype ExplosionState = ExplosionState(x: real, y: real, life: real, decay: real, sparks: seq<Spark>)

  function ExplosionStep(s: ExplosionState): ExplosionState {
    s.(sparks := Filter(Map(s.sparks, MoveSpark), SparkAlive), life := s.life - s.decay)
  }

  /** isDead: out of life, or out of sparks. */
  predicate ExplosionDead(s: ExplosionState) {
    s.life <= 0.0 || |s.sparks| == 0
  }

  lemma ExplosionStepSparks(s: ExplosionState)
    ensures ExactlyKept(ExplosionStep(s).sparks, Map(s.sparks, MoveSpark), SparkAlive)
    ensures ExplosionStep(s).life == s.life - s.decay
  {
    FilterExactlyKept(Map(s.sparks, MoveSpark), SparkAlive);
  }

  /** Once dead, an explosion stays dead. */
  lemma ExplosionDeadStaysDead(s: ExplosionState)
    requires ExplosionDead(s) && s.decay >= 0.0
    ensures ExplosionDead(ExplosionStep(s))
  {
    FilterLength(Map(s.sparks, MoveSpark), SparkAlive);
  }

  function ExplosionStepN(s: ExplosionState, k: nat): ExplosionState
    decreases k
  {
    if k == 0 then s else ExplosionStep(ExplosionStepN(s, k - 1))
  }

  const MinSparkDecay: real := 0.02

  /** Every spark has at most the given life and fades by at least 0.02. */
  predicate SparksBelow(sparks: seq<Spark>, bound: real) {
    forall i :: 0 <= i < |sparks| ==> sparks[i].life <= bound && sparks[i].decay >= MinSparkDecay
  }

  predicate SparkBelow(bound: real, p: Spark) {
    p.life <= bound && p.decay >= MinSparkDecay
  }

  lemma SparksStepBelow(s: ExplosionState, bound: real)
    requires SparksBelow(s.sparks, bound)
    ensures SparksBelow(ExplosionStep(s).sparks, bound - MinSparkDecay)
  {
    var moved := Map(s.sparks, MoveSpark);
    assert forall i :: 0 <= i < |moved| ==> SparkBelow(bound - MinSparkDecay, moved[i]);
    FilterPreserves(moved, SparkAlive, p => SparkBelow(bound - MinSparkDecay, p));
  }

  lemma {:induction false} ExplosionStepNBelow(s: ExplosionState, bound: real, k: nat)
    requires SparksBelow(s.sparks, bound)
    ensures SparksBelow(ExplosionStepN(s, k).sparks, bound - k as real * MinSparkDecay)
    decreases k
  {
    if k > 0 {
      ExplosionStepNBelow(s, bound, k - 1);
      SparksStepBelow(ExplosionStepN(s, k - 1), bound - (k - 1) as real * MinSparkDecay);
    }
  }

  /** Whatever its own life, an explosion whose sparks start at life 1 has
      no sparks left, and so is dead, after 50 updates. */
  lemma ExplosionOverBy50(s: ExplosionState)
    requires SparksBelow(s.sparks, 1.0)
    ensures |ExplosionStepN(s, 50).sparks| == 0 && ExplosionDead(ExplosionStepN(s, 50))
  {
    var before := ExplosionStepN(s, 49);
    ExplosionStepNBelow(s, 1.0, 49);
    var moved := Map(before.sparks, MoveSpark);
    assert forall i :: 0 <= i < |moved| ==> !SparkAlive(moved[i]);
    FilterNoneKept(moved, SparkAlive);
  }

  /** New sparks start at life 1 and fade by between 0.02 and 0.04. */
  lemma NewSparksBelow(x: real, y: real, draws: seq<SparkDraw>)
    requires forall i :: 0 <= i < |draws| ==> IsRoll(draws[i].decay) && IsRoll(draws[i].color)
    ensures SparksBelow(NewSparks(x, y, draws), 1.0)
    ensures forall i :: 0 <= i < |draws| ==> NewSparks(x, y, draws)[i].decay < 0.04
  {
  }

  /** js/effects.js `Explosion`. */
  class Explosion {
    const x: real
    const y: real
    var sparks: seq<Spark>
    var life: real
    const decay: real

    function Value(): ExplosionState
      reads this
    {
      ExplosionState(x, y, life, decay, sparks)
    }

    /** countRoll is the Math.random result behind the spark count; spark i
        is built from draws[i]. */
    constructor (x: real, y: real, countRoll: real, draws: seq<SparkDraw>)
      requires |draws| as real >= 15.0 + countRoll * 20.0
      requires forall i :: 0 <= i < |draws| ==> IsRoll(draws[i].color)
      ensures PassCount(15.0 + countRoll * 20.0) <= |draws|
      ensures Value() == ExplosionState(x, y, 1.0, ExplosionDecay,
                                        NewSparks(x, y, draws[..PassCount(15.0 + countRoll * 20.0)]))
    {
      this.x := x;
      this.y := y;
      sparks := [];
      life := 1.0;
      decay := ExplosionDecay;
      new;
      var particleCount := 15.0 + countRoll * 20.0;
      var i := 0;
      while (i as real) < particleCount
        invariant 0 <= i <= |draws|
        invariant i == 0 || (i - 1) as real < particleCount
        invariant sparks == NewSparks(x, y, draws[..i])
        invariant life == 1.0
        decreases |draws| - i
      {
        var spark := NewSpark(x, y, draws[i]);
        assert draws[..i + 1] == draws[..i] + [draws[i]];
        sparks := sparks + [spark];
        i := i + 1;
      }
      assert i == PassCount(particleCount);
    }

    method Update()
      modifies this
      ensures Value() == ExplosionStep(old(Value()))
    {
      var moved := MoveSparks(sparks);
      sparks := Filter(moved, SparkAlive);
      life := life - decay;
    }

    predicate IsDead()
      reads this
      ensures IsDead() <==> ExplosionDead(Value())
    {
      life <= 0.0 || |sparks| == 0
    }
  }

  /** The explosion's `forEach` over its sparks. */
  method MoveSparks(ps: seq<Spark>) returns (r: seq<Spark>)
    ensures r == Map(ps, MoveSpark)
  {
    r := ps;
    var i := 0;
    while i < |r|
      invariant 0 <= i <= |r| == |ps|
      invariant forall j :: 0 <= j < i ==> r[j] == MoveSpark(ps[j])
      invariant forall j :: i <= j < |r| ==> r[j] == ps[j]
    {
      var p := r[i];
      p := p.(x := p.x + p.vx);
      p := p.(y := p.y + p.vy);
      p := p.(vx := p.vx * SparkDrag);
      p := p.(vy := p.vy * SparkDrag);
      p := p.(vy := p.vy + SparkGravity);
      p := p.(life := p.life - p.decay);
      r := r[i := p];
      i := i + 1;
    }
  }
}
