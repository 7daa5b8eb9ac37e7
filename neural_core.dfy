/** The particle core of the hero scene: 1200 particles that wait in a tight
    sphere, burst outwards once the boot has completed, and are pulled back
    into the core as the page scrolls.  Every frame computes an explosion
    progress and a concentration and blends each particle between its core
    and its exploded position.

    The transcendental functions are parameters: `pow2(e)` stands for
    `Math.pow(2, e)` and `cos`/`sin` for the orbit's trigonometry. */
module NeuralCore {
  import opened JsRuntime

  // ---------------------------------------------------------------------
  // Easing

  function Cube(x: real): real
  {
    x * x * x
  }

  /** `easeInOutCubic`: `4x^3` below one half, `1 - (2 - 2x)^3 / 2` from
      there on. */
  function EaseInOutCubic(x: real): real
  {
    if x < 0.5 then 4.0 * Cube(x) else 1.0 - Cube(-2.0 * x + 2.0) / 2.0
  }

  /** `easeOutExpo`, with `pow2(-10 * x)` for `Math.pow(2, -10 * x)`. */
  function EaseOutExpo(x: real, pow2: real -> real): (y: real)
    ensures x == 1.0 ==> y == 1.0
    ensures x != 1.0 ==> y == 1.0 - pow2(-10.0 * x)
  {
    if x == 1.0 then 1.0 else 1.0 - pow2(-10.0 * x)
  }

  /** On [0, 1] easeOutExpo stays in [0, 1], provided `2^e` lies in (0, 1]
      for the exponents -10 to 0 it is called with. */
  lemma EaseOutExpoRange(x: real, pow2: real -> real)
    requires 0.0 <= x <= 1.0
    requires forall e :: -10.0 <= e <= 0.0 ==> 0.0 < pow2(e) <= 1.0
    ensures 0.0 <= EaseOutExpo(x, pow2) <= 1.0
  {
    if x != 1.0 {
      assert -10.0 <= -10.0 * x <= 0.0;
      assert 0.0 < pow2(-10.0 * x) <= 1.0;
    }
  }

  lemma CubeBounds(a: real)
    requires 0.0 <= a <= 1.0
    ensures 0.0 <= Cube(a) <= a
  {
    assert 0.0 <= a * a <= a * 1.0;
    assert 0.0 <= a * a * a <= a * a;
  }

  /** The cubic easing starts at 0, passes one half in the middle and ends
      at 1. */
  lemma EaseInOutCubicEnds()
    ensures EaseInOutCubic(0.0) == 0.0 && EaseInOutCubic(0.5) == 0.5 && EaseInOutCubic(1.0) == 1.0
  {
    assert Cube(0.0) == 0.0 * 0.0 * 0.0 == 0.0;
    assert Cube(1.0) == 1.0 * 1.0 * 1.0 == 1.0;
    assert -2.0 * 0.5 + 2.0 == 1.0;
  }

  /** On [0, 1] the cubic easing stays in [0, 1]; below 1 it never exceeds
      1, and from 0 on it is never negative. */
  lemma EaseInOutCubicRange(x: real)
    ensures x <= 1.0 ==> EaseInOutCubic(x) <= 1.0
    ensures x >= 0.0 ==> EaseInOutCubic(x) >= 0.0
  {
    if x < 0.5 {
      if x >= 0.0 {
        CubeBounds(2.0 * x);
        assert Cube(2.0 * x) == 8.0 * Cube(x);
      } else {
        assert x * x > 0.0;
        assert Cube(x) == (x * x) * x;
      }
    } else if x <= 1.0 {
      CubeBounds(-2.0 * x + 2.0);
    } else {
      var y := -2.0 * x + 2.0;
      assert y < 0.0 && y * y > 0.0;
      assert Cube(y) == (y * y) * y;
    }
  }

  /** The cubic easing is point-symmetric about its middle. */
  lemma EaseInOutCubicSymmetric(x: real)
    ensures EaseInOutCubic(1.0 - x) == 1.0 - EaseInOutCubic(x)
  {
    if x < 0.5 {
      assert -2.0 * (1.0 - x) + 2.0 == 2.0 * x;
      assert Cube(2.0 * x) == 8.0 * Cube(x);
    } else if x > 0.5 {
      assert Cube(-2.0 * x + 2.0) == 8.0 * Cube(1.0 - x);
    }
  }

  // ---------------------------------------------------------------------
  // Phases and per-frame progress

  datatype Phase = Waiting | Exploding | Exploded

  function Rank(p: Phase): nat
  {
    match p
    case Waiting => 0
    case Exploding => 1
    case Exploded => 2
  }

  /** The explosion progress of a frame at `time`: 0 while waiting (and on
      an exploding frame with no start time), a linear ramp over 1.5 s
      capped at 1 while exploding, 1 once exploded. */
  function ExplosionProgress(phase: Phase, start: Option<real>, time: real): (e: real)
    ensures e <= 1.0
    ensures phase == Waiting ==> e == 0.0
    ensures phase == Exploded ==> e == 1.0
    ensures phase == Exploding && start.Some? && time >= start.value ==> 0.0 <= e
    ensures phase == Exploding && start.Some? ==> (e == 1.0 <==> time - start.value >= 1.5)
  {
    if phase == Exploding && start.Some? then Min((time - start.value) / 1.5, 1.0)
    else if phase == Exploded then 1.0
    else 0.0
  }

  /** How far the particles are pulled back: nothing before the explosion
      is over, then the eased scroll progress, doubled and capped at 1. */
  function Concentration(phase: Phase, scroll: real): (c: real)
    ensures c <= 1.0
    ensures phase != Exploded ==> c == 0.0
    ensures scroll >= 0.0 ==> c >= 0.0
    ensures phase == Exploded && scroll >= 0.5 ==> c == 1.0
  {
    if phase == Exploded then
      EaseInOutCubicRange(Min(scroll * 2.0, 1.0));
      EaseInOutCubic(Min(scroll * 2.0, 1.0))
    else 0.0
  }

  /** The core mesh's scale. */
  function CoreScale(concentration: real): (s: real)
    ensures 0.0 <= concentration <= 1.0 ==> 0.5 <= s <= 0.8
  {
    0.5 + concentration * 0.3
  }

  /** The tech labels' opacity: 0 up to 0.3 of the page, 1 from 0.3 + 1/3 on. */
  function LabelOpacity(scroll: real): (o: real)
    ensures 0.0 <= o <= 1.0
    ensures scroll <= 0.3 ==> o == 0.0
    ensures scroll >= 0.3 + 1.0 / 3.0 ==> o == 1.0
  {
    Clamp01((scroll - 0.3) * 3.0)
  }

  predicate ShowLabels(scroll: real)
  {
    scroll > 0.25
  }

  /** Labels with any opacity are always mounted. */
  lemma OpaqueLabelsAreShown(scroll: real)
    requires LabelOpacity(scroll) > 0.0
    ensures ShowLabels(scroll)
  {
  }

  // ---------------------------------------------------------------------
  // One particle

  /** Easing argument of a particle with random factor `f`: the progress
      delayed by `f * delay` and stretched over the remaining `span`,
      clamped into [0, 1]. */
  function Staggered(progress: real, f: real, delay: real, span: real): (a: real)
    requires span > 0.0
    ensures 0.0 <= a <= 1.0
  {
    Clamp01((progress - f * delay) / span)
  }

  /** A particle's eased explosion: `easeOutExpo` of its staggered
      explosion progress. */
  function StaggeredExplosion(explosion: real, f: real, pow2: real -> real): real
  {
    EaseOutExpo(Staggered(explosion, f, 0.3, 0.7), pow2)
  }

  /** A particle's eased concentration, always in [0, 1]. */
  function StaggeredConcentration(concentration: real, f: real): (c: real)
    ensures 0.0 <= c <= 1.0
  {
    EaseInOutCubicRange(Staggered(concentration, f, 0.2, 0.8));
    EaseInOutCubic(Staggered(concentration, f, 0.2, 0.8))
  }

  /** With no explosion and no concentration yet, no particle has moved
      at all (given that `2^0` is 1). */
  lemma NothingMovedYet(explosion: real, concentration: real, f: real, pow2: real -> real)
    requires explosion == 0.0 && concentration == 0.0 && 0.0 <= f < 1.0 && pow2(0.0) == 1.0
    ensures StaggeredExplosion(explosion, f, pow2) == 0.0
    ensures StaggeredConcentration(concentration, f) == 0.0
  {
    assert Staggered(explosion, f, 0.3, 0.7) == 0.0;
    assert Staggered(concentration, f, 0.2, 0.8) == 0.0;
    EaseInOutCubicEnds();
  }

  /** At full explosion a particle without delay has gone all the way. */
  lemma UndelayedFullyOut(explosion: real, f: real, pow2: real -> real)
    requires explosion == 1.0 && f == 0.0
    ensures StaggeredExplosion(explosion, f, pow2) == 1.0
  {
    assert Staggered(explosion, f, 0.3, 0.7) == 1.0;
  }

  /** A particle's weights from its eased explosion `se` and concentration
      `sc`: toward its core, toward its exploded position, and the orbit
      radius. */
  function Blend(se: real, sc: real): (w: (real, real, real))
  {
    var exploded := se * (1.0 - sc);
    (1.0 - exploded, exploded, sc * 0.1)
  }

  /** The core and exploded weights sum to 1, and the orbit radius is a
      tenth of the concentration, so between 0 and 0.1. */
  lemma BlendSumsToOne(se: real, sc: real)
    requires 0.0 <= sc <= 1.0
    ensures var w := Blend(se, sc); w.0 + w.1 == 1.0 && 0.0 <= w.2 <= 0.1
  {
  }

  /** Both blend weights lie in [0, 1] when the eased values do, so a
      particle sits on the segment between its core and exploded positions
      (before the orbit is added). */
  lemma BlendConvex(se: real, sc: real)
    requires 0.0 <= se <= 1.0 && 0.0 <= sc <= 1.0
    ensures var w := Blend(se, sc); 0.0 <= w.0 <= 1.0 && 0.0 <= w.1 <= 1.0
  {
    var k := 1.0 - sc;
    assert 0.0 <= se * k;
    assert se * k <= k by {
      assert k - se * k == (1.0 - se) * k;
      assert 0.0 <= (1.0 - se) * k;
    }
  }

  /** A particle's weights are convex for every frame, provided `2^e` lies
      in (0, 1] for the exponents `easeOutExpo` uses, -10 to 0. */
  lemma ParticleWeightsConvex(explosion: real, concentration: real, f: real, pow2: real -> real)
    requires forall e :: -10.0 <= e <= 0.0 ==> 0.0 < pow2(e) <= 1.0
    ensures var w := Blend(StaggeredExplosion(explosion, f, pow2), StaggeredConcentration(concentration, f));
      0.0 <= w.0 <= 1.0 && 0.0 <= w.1 <= 1.0
  {
    var a := Staggered(explosion, f, 0.3, 0.7);
    EaseOutExpoRange(a, pow2);
    BlendConvex(StaggeredExplosion(explosion, f, pow2), StaggeredConcentration(concentration, f));
  }

  datatype Vec3 = Vec3(x: real, y: real, z: real)

  /** Where the frame puts a particle: the blend of its core and exploded
      positions, plus an orbit of the given radius in the x-y plane at the
      angle `time * 0.3 + f * 2 * pi`. */
  function Place(core: Vec3, exploded: Vec3, w: (real, real, real), angle: real,
                 cos: real -> real, sin: real -> real): Vec3
  {
    Vec3(core.x * w.0 + exploded.x * w.1 + cos(angle) * w.2,
         core.y * w.0 + exploded.y * w.1 + sin(angle) * w.2,
         core.z * w.0 + exploded.z * w.1)
  }

  /** Unexploded and unconcentrated, a particle sits exactly at its core
      position; fully exploded and unconcentrated, exactly at its exploded
      position. */
  lemma PlaceAtTheEnds(core: Vec3, exploded: Vec3, angle: real, cos: real -> real, sin: real -> real)
    ensures Place(core, exploded, Blend(0.0, 0.0), angle, cos, sin) == core
    ensures Place(core, exploded, Blend(1.0, 0.0), angle, cos, sin) == exploded
  {
  }

  // ---------------------------------------------------------------------
  // The component

  /** `Math.PI` as a double. */
  const Pi: real := 3.141592653589793

  /** Where particle `i` goes on a frame at `time`. */
  function Target(core: seq<Vec3>, exploded: seq<Vec3>, factors: seq<real>, i: nat,
                  explosion: real, concentration: real, time: real,
                  pow2: real -> real, cos: real -> real, sin: real -> real): Vec3
    requires i < |core| == |exploded| == |factors|
  {
    var f := factors[i];
    Place(core[i], exploded[i],
          Blend(StaggeredExplosion(explosion, f, pow2), StaggeredConcentration(concentration, f)),
          time * 0.3 + f * Pi * 2.0, cos, sin)
  }

  /** The three coordinates of particle `i` in a flat position buffer. */
  function At(a: array<real>, i: nat): Vec3
    requires 3 * i + 2 < a.Length
    reads a
  {
    Vec3(a[3 * i], a[3 * i + 1], a[3 * i + 2])
  }

  /** Writes one particle's coordinates and no other cell. */
  method Put(a: array<real>, i: nat, p: Vec3)
    requires 3 * i + 2 < a.Length
    modifies a
    ensures At(a, i) == p
    ensures forall k :: 0 <= k < a.Length && (k < 3 * i || k > 3 * i + 2) ==> a[k] == old(a[k])
  {
    a[3 * i] := p.x;
    a[3 * i + 1] := p.y;
    a[3 * i + 2] := p.z;
  }

  /** The particle loop of a frame: every particle's three coordinates are
      overwritten in place with its blended position. */
  method UpdatePositions(positions: array<real>, core: seq<Vec3>, exploded: seq<Vec3>, factors: seq<real>,
                         explosion: real, concentration: real, time: real,
                         pow2: real -> real, cos: real -> real, sin: real -> real)
    requires |core| == |exploded| == |factors| && positions.Length == 3 * |factors|
    modifies positions
    ensures forall i :: 0 <= i < |factors| ==>
      At(positions, i) == Target(core, exploded, factors, i, explosion, concentration, time, pow2, cos, sin)
  {
    var i := 0;
    while i < |factors|
      invariant 0 <= i <= |factors|
      invariant forall j :: 0 <= j < i ==>
        At(positions, j) == Target(core, exploded, factors, j, explosion, concentration, time, pow2, cos, sin)
    {
      var p := Target(core, exploded, factors, i, explosion, concentration, time, pow2, cos, sin);
      Put(positions, i, p);
      i := i + 1;
    }
  }

  class Core {
    var phase: Phase
    /** `explosionStartTime`: set on the first exploding frame. */
    var start: Option<real>
    const core: seq<Vec3>
    const exploded: seq<Vec3>
    const factors: seq<real>
    const positions: array<real>

    predicate Valid()
      reads this
    {
      |core| == |exploded| == |factors| && positions.Length == 3 * |factors|
      && (forall i :: 0 <= i < |factors| ==> 0.0 <= factors[i] < 1.0)
      && (phase == Waiting ==> start == None)
    }

    /** A scene waiting for the boot, its particles generated elsewhere. */
    constructor (core: seq<Vec3>, exploded: seq<Vec3>, factors: seq<real>)
      requires |core| == |exploded| == |factors|
      requires forall i :: 0 <= i < |factors| ==> 0.0 <= factors[i] < 1.0
      ensures Valid() && phase == Waiting && fresh(positions)
      ensures this.core == core && this.exploded == exploded && this.factors == factors
    {
      this.core, this.exploded, this.factors := core, exploded, factors;
      positions := new real[3 * |factors|];
      phase, start := Waiting, None;
    }

    /** The effect on `bootComplete` together with its 300 ms timer: a
        waiting core starts exploding once the boot has completed. */
    method BootTimer(bootComplete: bool)
      requires Valid()
      modifies this
      ensures Valid() && Rank(phase) >= Rank(old(phase))
      ensures phase == if bootComplete && old(phase) == Waiting then Exploding else old(phase)
      ensures start == if bootComplete && old(phase) == Waiting then None else old(start)
    {
      if bootComplete && phase == Waiting {
        start := None;
        phase := Exploding;
      }
    }

    /** One `useFrame` callback at `time` with the store's scroll progress:
        returns the explosion progress, the concentration and the core's
        scale.  The phase read by the callback is the one it started with;
        the switch to exploded takes effect on the next frame. */
    method Frame(time: real, scroll: real, pow2: real -> real, cos: real -> real, sin: real -> real)
      returns (explosion: real, concentration: real, scale: real)
      requires Valid()
      modifies this, positions
      ensures Valid() && Rank(phase) >= Rank(old(phase)) && (old(phase) == Waiting ==> phase == Waiting)
      ensures start == if old(phase) == Exploding && old(start) == None then Some(time) else old(start)
      ensures explosion == ExplosionProgress(old(phase), start, time)
      ensures phase == if old(phase) == Exploding && explosion >= 1.0 then Exploded else old(phase)
      ensures concentration == Concentration(old(phase), scroll) && scale == CoreScale(concentration)
      ensures forall i :: 0 <= i < |factors| ==>
        At(positions, i) == Target(core, exploded, factors, i, explosion, concentration, time, pow2, cos, sin)
    {
      var current := phase;
      if current == Exploding && start == None {
        start := Some(time);
      }
      explosion := 0.0;
      if current == Exploding && start != None {
        explosion := Min((time - start.value) / 1.5, 1.0);
        if explosion >= 1.0 {
          phase := Exploded;
        }
      } else if current == Exploded {
        explosion := 1.0;
      }
      concentration := if current == Exploded then EaseInOutCubic(Min(scroll * 2.0, 1.0)) else 0.0;
      UpdatePositions(positions, core, exploded, factors, explosion, concentration, time, pow2, cos, sin);
      scale := 0.5 + concentration * 0.3;
    }
  }

  /** An exploding core reaches the exploded phase on the first frame at
      least 1.5 s after its first exploding frame. */
  lemma ExplodesAfterOneAndAHalfSeconds(start: real, time: real)
    ensures ExplosionProgress(Exploding, Some(start), time) >= 1.0 <==> time >= start + 1.5
  {
  }
}
