/** The entity list (js/shapes.js `ShapeManager`): every tap shape and
    special effect on screen, in the order they were added. Each update
    steps every entity once and then keeps the ones still alive, in order. */
module Manager {
  import opened Seqs
  import opened Geometry
  import opened Shapes
  import opened Effects

  /** One element of the list: a reference to one of the five entity kinds. */
  datatype Entity =
    | ShapeEntity(shape: Shape)
    | NovaEntity(nova: Supernova)
    | SpiralEntity(spiral: Spiral)
    | CometEntity(comet: Comet)
    | ExplosionEntity(explosion: Explosion)

  function Obj(e: Entity): object {
    match e
    case ShapeEntity(s) => s
    case NovaEntity(n) => n
    case SpiralEntity(s) => s
    case CometEntity(c) => c
    case ExplosionEntity(x) => x
  }

  function Objs(es: seq<Entity>): set<object> {
    set i | 0 <= i < |es| :: Obj(es[i])
  }

  /** The list holds only entity objects: no other object is in its footprint. */
  lemma NotListed(es: seq<Entity>, o: object)
    requires !(o is Shape) && !(o is Supernova) && !(o is Spiral) && !(o is Comet) && !(o is Explosion)
    ensures o !in Objs(es)
    ensures forall i :: 0 <= i < |es| ==> Obj(es[i]) != o
  {
    if o in Objs(es) {
      var i :| 0 <= i < |es| && Obj(es[i]) == o;
      match es[i]
      case ShapeEntity(s) =>
      case NovaEntity(n) =>
      case SpiralEntity(s) =>
      case CometEntity(c) =>
      case ExplosionEntity(x) =>
    }
  }

  /** The entities' values depend on their own objects only. */
  twostate lemma ValuesFramed(es: seq<Entity>)
    requires forall i :: 0 <= i < |es| ==> unchanged(Obj(es[i]))
    ensures ValuesOf(es) == old(ValuesOf(es))
  {
    forall i | 0 <= i < |es|
      ensures ValueOf(es[i]) == old(ValueOf(es[i]))
    {
      assert unchanged(Obj(es[i]));
    }
  }

  /** An entity's fields, as a value. */
  datatype EntityState =
    | ShapeValue(shape: ShapeState)
    | NovaValue(nova: NovaState)
    | SpiralValue(spiral: SpiralState)
    | CometValue(comet: CometState)
    | ExplosionValue(explosion: ExplosionState)

  function ValueOf(e: Entity): EntityState
    reads Obj(e)
  {
    match e
    case ShapeEntity(s) => ShapeValue(s.Value())
    case NovaEntity(n) => NovaValue(n.Value())
    case SpiralEntity(s) => SpiralValue(s.Value())
    case CometEntity(c) => CometValue(c.Value())
    case ExplosionEntity(x) => ExplosionValue(x.Value())
  }

  function ValuesOf(es: seq<Entity>): (vs: seq<EntityState>)
    reads Objs(es)
    ensures |vs| == |es|
    ensures forall i :: 0 <= i < |es| ==> vs[i] == ValueOf(es[i])
  {
    seq(|es|, i requires 0 <= i < |es| reads Objs(es) => ValueOf(es[i]))
  }

  predicate EntityDead(v: EntityState) {
    match v
    case ShapeValue(s) => ShapeDead(s)
    case NovaValue(n) => NovaDead(n)
    case SpiralValue(s) => SpiralDead(s)
    case CometValue(c) => CometDead(c)
    case ExplosionValue(x) => ExplosionDead(x)
  }

  predicate EntityLive(v: EntityState) {
    !EntityDead(v)
  }

  /** A spiral's update takes one draw per arm; no other entity draws. */
  predicate Fits(v: EntityState, d: seq<ArmDraw>) {
    v.SpiralValue? ==> |d| == |v.spiral.arms|
  }

  predicate FitsAll(vs: seq<EntityState>, draws: seq<seq<ArmDraw>>) {
    |draws| == |vs| && forall i :: 0 <= i < |vs| ==> Fits(vs[i], draws[i])
  }

  function StepEntity(v: EntityState, d: seq<ArmDraw>): EntityState
    requires Fits(v, d)
  {
    match v
    case ShapeValue(s) => ShapeValue(ShapeStep(s))
    case NovaValue(n) => NovaValue(NovaStep(n))
    case SpiralValue(s) => SpiralValue(SpiralStep(s, d))
    case CometValue(c) => CometValue(CometStep(c))
    case ExplosionValue(x) => ExplosionValue(ExplosionStep(x))
  }

  /** Every entity stepped once, in place. */
  function StepAll(vs: seq<EntityState>, draws: seq<seq<ArmDraw>>): (r: seq<EntityState>)
    requires FitsAll(vs, draws)
    ensures |r| == |vs|
  {
    seq(|vs|, i requires 0 <= i < |vs| => StepEntity(vs[i], draws[i]))
  }

  /** One manager update on values: step all, then keep the living. */
  function ManagerStep(vs: seq<EntityState>, draws: seq<seq<ArmDraw>>): seq<EntityState>
    requires FitsAll(vs, draws)
  {
    Filter(StepAll(vs, draws), EntityLive)
  }

  /** After an update the list holds exactly the stepped entities that are
      not dead, in their original relative order, each as often as before;
      it never grows. */
  lemma ManagerStepKeepsLiving(vs: seq<EntityState>, draws: seq<seq<ArmDraw>>)
    requires FitsAll(vs, draws)
    ensures ExactlyKept(ManagerStep(vs, draws), StepAll(vs, draws), EntityLive)
    ensures |ManagerStep(vs, draws)| <= |vs|
  {
    FilterExactlyKept(StepAll(vs, draws), EntityLive);
    FilterLength(StepAll(vs, draws), EntityLive);
  }

  /** An entity is still listed after the update exactly when its stepped
      state is alive. */
  lemma SurvivesStep(vs: seq<EntityState>, draws: seq<seq<ArmDraw>>, i: nat)
    requires FitsAll(vs, draws) && i < |vs|
    ensures StepEntity(vs[i], draws[i]) in ManagerStep(vs, draws) <==> EntityLive(StepEntity(vs[i], draws[i]))
  {
    var all := StepAll(vs, draws);
    var x := all[i];
    FilterCount(all, EntityLive, x);
    assert x in multiset(all);
    assert x in ManagerStep(vs, draws) <==> multiset(ManagerStep(vs, draws))[x] > 0;
  }

  /** When nothing dies, an update steps the list in place. */
  lemma ManagerStepNoDeaths(vs: seq<EntityState>, draws: seq<seq<ArmDraw>>)
    requires FitsAll(vs, draws)
    requires forall i :: 0 <= i < |vs| ==> EntityLive(StepEntity(vs[i], draws[i]))
    ensures ManagerStep(vs, draws) == StepAll(vs, draws)
  {
    FilterAllKept(StepAll(vs, draws), EntityLive);
  }

  /** isDead of whichever entity this is. */
  function EntityIsDead(e: Entity): (dead: bool)
    reads Obj(e)
    ensures dead <==> EntityDead(ValueOf(e))
  {
    match e
    case ShapeEntity(s) => s.IsDead()
    case NovaEntity(n) => n.IsDead()
    case SpiralEntity(s) => s.IsDead()
    case CometEntity(c) => c.IsDead()
    case ExplosionEntity(x) => x.IsDead()
  }

  /** One `shape.update()`, whichever kind of entity it is. */
  method StepOne(e: Entity, d: seq<ArmDraw>)
    requires Fits(ValueOf(e), d)
    modifies Obj(e)
    ensures ValueOf(e) == StepEntity(old(ValueOf(e)), d)
  {
    match e {
      case ShapeEntity(s) => s.Update();
      case NovaEntity(n) => n.Update();
      case SpiralEntity(s) => s.Update(d);
      case CometEntity(c) => c.Update();
      case ExplosionEntity(x) => x.Update();
    }
  }

  lemma ValuesOfAppend(es: seq<Entity>, e: Entity)
    ensures ValuesOf(es + [e]) == ValuesOf(es) + [ValueOf(e)]
  {
    assert forall j :: 0 <= j < |es| ==> (es + [e])[j] == es[j];
  }

  /** Updates the i-th entity of a list without repeats; the others keep
      their state. */
  method StepAt(es: seq<Entity>, i: nat, d: seq<ArmDraw>)
    requires i < |es| && Fits(ValueOf(es[i]), d)
    requires forall k, l :: 0 <= k < l < |es| ==> Obj(es[k]) != Obj(es[l])
    modifies Obj(es[i])
    ensures ValueOf(es[i]) == StepEntity(old(ValueOf(es[i])), d)
    ensures forall j :: 0 <= j < |es| && j != i ==> ValueOf(es[j]) == old(ValueOf(es[j]))
  {
    StepOne(es[i], d);
    forall j | 0 <= j < |es| && j != i
      ensures ValueOf(es[j]) == old(ValueOf(es[j]))
    {
      assert Obj(es[j]) != Obj(es[i]);
    }
  }

  /** The entities of es whose values in vs are alive, in order. */
  function KeptOf(es: seq<Entity>, vs: seq<EntityState>): seq<Entity>
    requires |es| == |vs|
    decreases |es|
  {
    if es == [] then []
    else KeptOf(es[..|es| - 1], vs[..|vs| - 1]) + (if EntityLive(vs[|vs| - 1]) then [es[|es| - 1]] else [])
  }

  /** The kept entities' values are the living values, in order. */
  lemma {:induction false} KeptOfValues(es: seq<Entity>, vs: seq<EntityState>)
    requires |es| == |vs| && forall i :: 0 <= i < |es| ==> vs[i] == ValueOf(es[i])
    ensures ValuesOf(KeptOf(es, vs)) == Filter(vs, EntityLive)
    decreases |es|
  {
    if es != [] {
      var n := |es| - 1;
      KeptOfValues(es[..n], vs[..n]);
      var tail := if EntityLive(vs[n]) then [es[n]] else [];
      var prefix := KeptOf(es[..n], vs[..n]);
      assert ValuesOf(prefix + tail) == ValuesOf(prefix) + ValuesOf(tail);
      assert vs == vs[..n] + [vs[n]];
      FilterAppend(vs[..n], [vs[n]], EntityLive);
      if !EntityLive(vs[n]) {
        assert Filter([vs[n]], EntityLive) == [];
      }
    }
  }

  /** Keeping some entities of a list without repeats gives a list without
      repeats, of entities from the list. */
  lemma {:induction false} KeptOfDistinct(es: seq<Entity>, vs: seq<EntityState>)
    requires |es| == |vs| && forall k, l :: 0 <= k < l < |es| ==> Obj(es[k]) != Obj(es[l])
    ensures forall k :: 0 <= k < |KeptOf(es, vs)| ==> KeptOf(es, vs)[k] in es
    ensures forall k, l :: 0 <= k < l < |KeptOf(es, vs)| ==> Obj(KeptOf(es, vs)[k]) != Obj(KeptOf(es, vs)[l])
    decreases |es|
  {
    if es != [] {
      var n := |es| - 1;
      KeptOfDistinct(es[..n], vs[..n]);
      var prefix := KeptOf(es[..n], vs[..n]);
      var kept := KeptOf(es, vs);
      forall k | 0 <= k < |kept|
        ensures kept[k] in es && (k < |prefix| ==> exists j :: 0 <= j < n && kept[k] == es[j])
      {
        if k < |prefix| {
          assert kept[k] == prefix[k] && prefix[k] in es[..n];
        }
      }
      forall k, l | 0 <= k < l < |kept|
        ensures Obj(kept[k]) != Obj(kept[l])
      {
        if l >= |prefix| {
          var j :| 0 <= j < n && kept[k] == es[j];
          assert kept[l] == es[n];
        } else {
          assert kept[k] == prefix[k] && kept[l] == prefix[l];
        }
      }
    }
  }

  /** The filter of removeDead, as a loop over the list; vs holds the
      entities' values. */
  method KeepLiving(es: seq<Entity>, ghost vs: seq<EntityState>) returns (kept: seq<Entity>)
    requires |es| == |vs| && forall i :: 0 <= i < |es| ==> vs[i] == ValueOf(es[i])
    ensures kept == KeptOf(es, vs)
  {
    kept := [];
    var i := 0;
    while i < |es|
      invariant 0 <= i <= |es|
      invariant kept == KeptOf(es[..i], vs[..i])
    {
      assert es[..i + 1][..i] == es[..i] && vs[..i + 1][..i] == vs[..i];
      if !EntityIsDead(es[i]) {
        kept := kept + [es[i]];
      }
      i := i + 1;
    }
    assert es[..i] == es && vs[..i] == vs;
  }

  /** A new shape whose size, velocity and decay are then overwritten: one
      of addShape's small particles. */
  method NewBurstShape(x: real, y: real, canvas: Canvas, d: BurstDraw) returns (particle: Shape)
    requires IsRoll(d.base.kind) && IsRoll(d.base.color)
    ensures fresh(particle) && particle.Value() == NewBurst(x, y, canvas, d)
  {
    particle := new Shape(x, y, canvas, d.base);
    particle.size := 5.0 + d.size * 10.0;
    particle.vx := (d.vx - 0.5) * 20.0;
    particle.vy := (d.vy - 0.5) * 20.0;
    particle.decay := BurstDecay;
  }

  function BurstValues(x: real, y: real, canvas: Canvas, bursts: seq<BurstDraw>): (vs: seq<EntityState>)
    ensures |vs| == |bursts|
  {
    seq(|bursts|, i requires 0 <= i < |bursts| => ShapeValue(NewBurst(x, y, canvas, bursts[i])))
  }

  /** js/shapes.js `ShapeManager`. */
  class ShapeManager {
    const canvas: Canvas
    var shapes: seq<Entity>

    /** No entity object is listed twice. */
    ghost predicate Valid()
      reads this
    {
      forall i, j :: 0 <= i < j < |shapes| ==> Obj(shapes[i]) != Obj(shapes[j])
    }

    function Values(): seq<EntityState>
      reads this, Objs(shapes)
    {
      ValuesOf(shapes)
    }

    constructor (canvas: Canvas)
      ensures Valid() && shapes == [] && this.canvas == canvas
    {
      this.canvas := canvas;
      shapes := [];
    }

    /** spiralDraws[i] is what the i-th entity draws if it is a spiral. */
    method Update(spiralDraws: seq<seq<ArmDraw>>)
      requires Valid() && FitsAll(Values(), spiralDraws)
      modifies this, Objs(shapes)
      ensures Valid()
      ensures Values() == ManagerStep(old(Values()), spiralDraws)
    {
      ghost var before := Values();
      StepEach(spiralDraws);
      assert ValuesOf(shapes) == StepAll(before, spiralDraws);
      RemoveDead();
    }

    /** `this.shapes.forEach((shape) => shape.update())`. */
    method StepEach(spiralDraws: seq<seq<ArmDraw>>)
      requires Valid() && FitsAll(Values(), spiralDraws)
      modifies Objs(shapes)
      ensures Valid() && shapes == old(shapes)
      ensures Values() == StepAll(old(Values()), spiralDraws)
    {
      ghost var before := Values();
      var i := 0;
      while i < |shapes|
        invariant 0 <= i <= |shapes|
        invariant forall j :: 0 <= j < i ==> ValueOf(shapes[j]) == StepEntity(before[j], spiralDraws[j])
        invariant forall j :: i <= j < |shapes| ==> ValueOf(shapes[j]) == before[j]
        modifies Objs(shapes)
      {
        assert Obj(shapes[i]) in Objs(shapes);
        StepAt(shapes, i, spiralDraws[i]);
        i := i + 1;
      }
    }

    /** `this.shapes = this.shapes.filter((shape) => !shape.isDead())`. */
    method RemoveDead()
      requires Valid()
      modifies this
      ensures Valid()
      ensures Values() == Filter(old(Values()), EntityLive)
    {
      ghost var vs := Values();
      KeptOfValues(shapes, vs);
      KeptOfDistinct(shapes, vs);
      var kept := KeepLiving(shapes, vs);
      NotListed(kept, this);
      shapes := kept;
      ValuesFramed(kept);
    }

    method AddShape(x: real, y: real, main: ShapeDraw, bursts: seq<BurstDraw>)
      requires Valid() && |bursts| == 3
      requires IsRoll(main.kind) && IsRoll(main.color)
      requires forall i :: 0 <= i < |bursts| ==> IsRoll(bursts[i].base.kind) && IsRoll(bursts[i].base.color)
      modifies this
      ensures Valid()
      ensures |shapes| == |old(shapes)| + 4 && shapes[..|old(shapes)|] == old(shapes)
      ensures Values() == old(Values()) + [ShapeValue(NewShape(x, y, canvas, main))] + BurstValues(x, y, canvas, bursts)
    {
      ghost var before := Values();
      var shape := new Shape(x, y, canvas, main);
      ValuesFramed(shapes);
      Push(ShapeEntity(shape));
      var i := 0;
      while i < 3
        invariant 0 <= i <= 3 && Valid()
        invariant |shapes| == |old(shapes)| + 1 + i && shapes[..|old(shapes)|] == old(shapes)
        invariant Values() == before + [ShapeValue(NewShape(x, y, canvas, main))] + BurstValues(x, y, canvas, bursts[..i])
      {
        ghost var prefix := shapes;
        AddBurst(x, y, bursts[i]);
        assert shapes[..|old(shapes)|] == prefix[..|old(shapes)|];
        assert BurstValues(x, y, canvas, bursts[..i + 1]) ==
               BurstValues(x, y, canvas, bursts[..i]) + [ShapeValue(NewBurst(x, y, canvas, bursts[i]))];
        i := i + 1;
      }
      assert bursts[..3] == bursts;
    }

    /** One of addShape's small particles, appended. */
    method AddBurst(x: real, y: real, d: BurstDraw)
      requires Valid() && IsRoll(d.base.kind) && IsRoll(d.base.color)
      modifies this
      ensures Valid() && |shapes| == |old(shapes)| + 1 && shapes[..|old(shapes)|] == old(shapes)
      ensures Values() == old(Values()) + [ShapeValue(NewBurst(x, y, canvas, d))]
    {
      var particle := NewBurstShape(x, y, canvas, d);
      ValuesFramed(shapes);
      Push(ShapeEntity(particle));
    }

    /** `this.shapes.push(entity)` for an entity just created. */
    method Push(e: Entity)
      requires Valid() && Obj(e) !in Objs(shapes)
      modifies this
      ensures Valid()
      ensures shapes == old(shapes) + [e]
      ensures Values() == old(Values()) + [ValueOf(e)]
    {
      ValuesOfAppend(shapes, e);
      shapes := shapes + [e];
    }

    method AddSupernova(x: real, y: real, maxRoll: real, draws: seq<RayDraw>)
      requires Valid() && |draws| == RayCount
      modifies this
      ensures Valid() && |shapes| == |old(shapes)| + 1 && shapes[..|old(shapes)|] == old(shapes)
      ensures Values() == old(Values()) + [NovaValue(NewNova(x, y, maxRoll, draws))]
    {
      var nova := new Supernova(x, y, maxRoll, draws);
      ValuesFramed(shapes);
      Push(NovaEntity(nova));
    }

    method AddSpiral(x: real, y: real)
      requires Valid()
      modifies this
      ensures Valid() && |shapes| == |old(shapes)| + 1 && shapes[..|old(shapes)|] == old(shapes)
      ensures Values() == old(Values()) + [SpiralValue(SpiralState(x, y, 0.0, SpiralRotationSpeed, SpiralStartRadius,
                                                                   SpiralMaxRadius, SpiralExpandSpeed, 1.0, SpiralDecay,
                                                                   InitialArms()))]
    {
      var spiral := new Spiral(x, y);
      ValuesFramed(shapes);
      Push(SpiralEntity(spiral));
    }

    method AddComet(x: real, y: real, d: CometDraw)
      requires Valid()
      modifies this
      ensures Valid() && |shapes| == |old(shapes)| + 1 && shapes[..|old(shapes)|] == old(shapes)
      ensures Values() == old(Values()) + [CometValue(NewComet(canvas, x, y, d))]
    {
      var comet := new Comet(x, y, canvas, d);
      ValuesFramed(shapes);
      Push(CometEntity(comet));
    }

    method AddExplosion(x: real, y: real, countRoll: real, draws: seq<SparkDraw>)
      requires Valid()
      requires |draws| as real >= 15.0 + countRoll * 20.0
      requires forall i :: 0 <= i < |draws| ==> IsRoll(draws[i].color)
      modifies this
      ensures Valid() && |shapes| == |old(shapes)| + 1 && shapes[..|old(shapes)|] == old(shapes)
      ensures PassCount(15.0 + countRoll * 20.0) <= |draws|
      ensures Values() == old(Values()) + [ExplosionValue(ExplosionState(x, y, 1.0, ExplosionDecay,
                                            NewSparks(x, y, draws[..PassCount(15.0 + countRoll * 20.0)])))]
    {
      var explosion := new Explosion(x, y, countRoll, draws);
      ValuesFramed(shapes);
      Push(ExplosionEntity(explosion));
    }

    method GetShapeCount() returns (n: nat)
      ensures n == |shapes|
    {
      n := |shapes|;
    }
  }
}
