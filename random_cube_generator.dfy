/**
 * Rejection-sampling placement of a new target cube: up to fifty random
 * positions are tried in a box in front of the player, and the first whose
 * bounding box touches no existing target is kept and appended to the
 * target list. The random numbers are an input sequence, three per
 * attempt, in the order the code draws them (y, then z, then x).
 */
module RandomCubeGenerator {
  import opened Wrappers
  import opened ThreeMath

  const MaxAttempts: nat := 50
  /** Side of the unit BoxGeometry times the 0.4 scale, halved. */
  const CubeHalfExtent: real := 0.2

  /**
   * A target cube, as far as placement sees it: where it is, half its side
   * (its world box is position plus or minus that on every axis), and the
   * two flags the generator passes to its constructor.
   */
  datatype Cube = Cube(position: Vec3, halfExtent: real, randomColors: bool, shootable: bool)

  /** A THREE.Box3. */
  datatype Box3 = Box3(min: Vec3, max: Vec3)

  /** `new THREE.Box3().setFromObject(cube)` for an axis-aligned cube. */
  function BoxOf(c: Cube): (b: Box3)
    ensures b.min.x + b.max.x == 2.0 * c.position.x && b.max.x - b.min.x == 2.0 * c.halfExtent
    ensures b.min.y + b.max.y == 2.0 * c.position.y && b.max.y - b.min.y == 2.0 * c.halfExtent
    ensures b.min.z + b.max.z == 2.0 * c.position.z && b.max.z - b.min.z == 2.0 * c.halfExtent
  {
    var h := Vec3(c.halfExtent, c.halfExtent, c.halfExtent);
    Box3(Sub(c.position, h), Add(c.position, h))
  }

  /** `a.intersectsBox(b)`: the closed intervals overlap on every axis (touching counts). */
  predicate IntersectsBox(a: Box3, b: Box3) {
    && a.min.x <= b.max.x && b.min.x <= a.max.x
    && a.min.y <= b.max.y && b.min.y <= a.max.y
    && a.min.z <= b.max.z && b.min.z <= a.max.z
  }

  /** Two cubes' boxes meet exactly when, on every axis, their centres are no further apart than their half extents added up. */
  lemma CubeBoxesMeetIff(c: Cube, d: Cube)
    ensures IntersectsBox(BoxOf(c), BoxOf(d)) <==>
              && Abs(c.position.x - d.position.x) <= c.halfExtent + d.halfExtent
              && Abs(c.position.y - d.position.y) <= c.halfExtent + d.halfExtent
              && Abs(c.position.z - d.position.z) <= c.halfExtent + d.halfExtent
  {
  }

  lemma IntersectsBoxSymmetric(a: Box3, b: Box3)
    ensures IntersectsBox(a, b) <==> IntersectsBox(b, a)
  {
  }

  /** The `targets.some(...)` test: the candidate's box meets some existing target's box. */
  predicate Collides(targets: seq<Cube>, c: Cube)
    decreases |targets|
  {
    |targets| > 0 && (IntersectsBox(BoxOf(c), BoxOf(targets[0])) || Collides(targets[1..], c))
  }

  /** `some` finds a witness exactly when one exists. */
  lemma {:induction false} CollidesIffSomeTarget(targets: seq<Cube>, c: Cube)
    ensures Collides(targets, c) <==> exists i :: 0 <= i < |targets| && IntersectsBox(BoxOf(c), BoxOf(targets[i]))
    decreases |targets|
  {
    if |targets| > 0 {
      CollidesIffSomeTarget(targets[1..], c);
      if IntersectsBox(BoxOf(c), BoxOf(targets[0])) {
        assert 0 <= 0 < |targets| && IntersectsBox(BoxOf(c), BoxOf(targets[0]));
      } else if Collides(targets[1..], c) {
        var i :| 0 <= i < |targets[1..]| && IntersectsBox(BoxOf(c), BoxOf(targets[1..][i]));
        assert IntersectsBox(BoxOf(c), BoxOf(targets[i + 1]));
      } else {
        forall i | 0 <= i < |targets|
          ensures !IntersectsBox(BoxOf(c), BoxOf(targets[i]))
        {
          if i > 0 {
            assert targets[i] == targets[1..][i - 1];
          }
        }
      }
    }
  }

  /** `Math.random()` stand-ins: values in [0, 1). */
  predicate UnitInterval(r: real) {
    0.0 <= r < 1.0
  }

  /** The draws needed for every attempt the loop may make. */
  predicate EnoughDraws(draws: seq<real>) {
    |draws| >= 3 * MaxAttempts
  }

  /** The cube built on attempt `attempt`, from draws 3*attempt (y), 3*attempt+1 (z), 3*attempt+2 (x). */
  function Candidate(draws: seq<real>, attempt: nat, randomColors: bool, shootable: bool): (c: Cube)
    requires 3 * attempt + 2 < |draws|
    ensures c.halfExtent == CubeHalfExtent && c.randomColors == randomColors && c.shootable == shootable
    ensures UnitInterval(draws[3 * attempt]) ==> -1.5 <= c.position.y < 1.5
    ensures UnitInterval(draws[3 * attempt + 1]) ==> -2.7 <= c.position.z < 3.1
    ensures UnitInterval(draws[3 * attempt + 2]) ==> 4.0 < c.position.x <= 6.0
  {
    var randomY := draws[3 * attempt] * 3.0 - 1.5;
    var randomZ := draws[3 * attempt + 1] * 5.8 - 2.7;
    var randomX := 6.0 - draws[3 * attempt + 2] * 2.0;
    Cube(Vec3(randomX, randomY, randomZ), CubeHalfExtent, randomColors, shootable)
  }

  /**
   * The first attempt, at or after `from`, whose candidate collides with no
   * target; MaxAttempts when every remaining attempt collides.
   */
  function FirstFree(targets: seq<Cube>, draws: seq<real>, from: nat, randomColors: bool, shootable: bool): (k: nat)
    requires EnoughDraws(draws)
    requires from <= MaxAttempts
    ensures from <= k <= MaxAttempts
    ensures k < MaxAttempts ==> !Collides(targets, Candidate(draws, k, randomColors, shootable))
    ensures forall j :: from <= j < k ==> Collides(targets, Candidate(draws, j, randomColors, shootable))
    decreases MaxAttempts - from
  {
    if from == MaxAttempts then from
    else if !Collides(targets, Candidate(draws, from, randomColors, shootable)) then from
    else FirstFree(targets, draws, from + 1, randomColors, shootable)
  }

  /** The cube `generate` appends, if any. */
  function Placement(targets: seq<Cube>, draws: seq<real>, randomColors: bool, shootable: bool): Option<Cube>
    requires EnoughDraws(draws)
  {
    var k := FirstFree(targets, draws, 0, randomColors, shootable);
    if k < MaxAttempts then Some(Candidate(draws, k, randomColors, shootable)) else None
  }

  /** What `targets` becomes. */
  function Appended(targets: seq<Cube>, placed: Option<Cube>): seq<Cube> {
    match placed
    case Some(c) => targets + [c]
    case None => targets
  }

  /** A placed cube is the first candidate, in draw order, that touches no target. */
  lemma PlacementIsFirstFree(targets: seq<Cube>, draws: seq<real>, randomColors: bool, shootable: bool)
    requires EnoughDraws(draws)
    ensures Placement(targets, draws, randomColors, shootable).Some? ==>
              var k := FirstFree(targets, draws, 0, randomColors, shootable);
              && k < MaxAttempts
              && Placement(targets, draws, randomColors, shootable).value == Candidate(draws, k, randomColors, shootable)
              && forall j :: 0 <= j < k ==> Collides(targets, Candidate(draws, j, randomColors, shootable))
  {
  }

  /** Nothing is placed exactly when all fifty candidates collide. */
  lemma PlacementNoneIffAllCollide(targets: seq<Cube>, draws: seq<real>, randomColors: bool, shootable: bool)
    requires EnoughDraws(draws)
    ensures Placement(targets, draws, randomColors, shootable).None? <==>
              forall j :: 0 <= j < MaxAttempts ==> Collides(targets, Candidate(draws, j, randomColors, shootable))
  {
    var k := FirstFree(targets, draws, 0, randomColors, shootable);
    if k < MaxAttempts {
      assert !Collides(targets, Candidate(draws, k, randomColors, shootable));
    }
  }

  /** A placed cube's box meets the box of no target present before the call. */
  lemma PlacedTouchesNoTarget(targets: seq<Cube>, draws: seq<real>, randomColors: bool, shootable: bool)
    requires EnoughDraws(draws)
    ensures Placement(targets, draws, randomColors, shootable).Some? ==>
              forall i :: 0 <= i < |targets| ==>
                !IntersectsBox(BoxOf(Placement(targets, draws, randomColors, shootable).value), BoxOf(targets[i]))
  {
    var placed := Placement(targets, draws, randomColors, shootable);
    if placed.Some? {
      CollidesIffSomeTarget(targets, placed.value);
    }
  }

  /** With no targets yet, the first candidate is always kept. */
  lemma EmptyTargetsKeepFirst(draws: seq<real>, randomColors: bool, shootable: bool)
    requires EnoughDraws(draws)
    ensures Placement([], draws, randomColors, shootable) == Some(Candidate(draws, 0, randomColors, shootable))
  {
  }

  /** For draws in [0, 1), a placed cube lies in the spawn box in front of the player. */
  lemma PlacementInSpawnBox(targets: seq<Cube>, draws: seq<real>, randomColors: bool, shootable: bool)
    requires EnoughDraws(draws)
    requires forall i :: 0 <= i < |draws| ==> UnitInterval(draws[i])
    ensures Placement(targets, draws, randomColors, shootable).Some? ==>
              var p := Placement(targets, draws, randomColors, shootable).value.position;
              4.0 < p.x <= 6.0 && -1.5 <= p.y < 1.5 && -2.7 <= p.z < 3.1
  {
    var k := FirstFree(targets, draws, 0, randomColors, shootable);
    if k < MaxAttempts {
      assert UnitInterval(draws[3 * k]) && UnitInterval(draws[3 * k + 1]) && UnitInterval(draws[3 * k + 2]);
    }
  }

  class RandomCubeGenerator {
    /** The target list, shared with the game. */
    var targets: seq<Cube>
    const randomColors: bool

    constructor (targets: seq<Cube>, randomColors: bool)
      ensures this.targets == targets && this.randomColors == randomColors
    {
      this.targets := targets;
      this.randomColors := randomColors;
    }

    /**
     * `generate(shootable)`, drawing from `draws`; the ghost `used` counts
     * the draws it read.
     */
    method Generate(shootable: bool, draws: seq<real>) returns (ghost used: nat)
      requires EnoughDraws(draws)
      modifies this`targets
      ensures targets == Appended(old(targets), Placement(old(targets), draws, randomColors, shootable))
      ensures used <= 3 * MaxAttempts
      ensures Placement(old(targets), draws, randomColors, shootable).Some? ==>
                used == 3 * (FirstFree(old(targets), draws, 0, randomColors, shootable) + 1)
      ensures Placement(old(targets), draws, randomColors, shootable).None? ==> used == 3 * MaxAttempts
    {
      var cube: Option<Cube> := None;
      var attempt := 0;

      while attempt < MaxAttempts
        invariant 0 <= attempt <= MaxAttempts
        invariant cube == None
        invariant FirstFree(targets, draws, 0, randomColors, shootable)
                  == FirstFree(targets, draws, attempt, randomColors, shootable)
        decreases MaxAttempts - attempt
      {
        var randomY := draws[3 * attempt] * 3.0 - 1.5;
        var randomZ := draws[3 * attempt + 1] * 5.8 - 2.7;
        var randomX := 6.0 - draws[3 * attempt + 2] * 2.0;
        var candidate := Cube(Vec3(randomX, randomY, randomZ), CubeHalfExtent, randomColors, shootable);
        assert candidate == Candidate(draws, attempt, randomColors, shootable);

        var collides := Collides(targets, candidate);
        if !collides {
          assert FirstFree(targets, draws, attempt, randomColors, shootable) == attempt;
          cube := Some(candidate);
          break;
        }
        assert FirstFree(targets, draws, attempt, randomColors, shootable)
               == FirstFree(targets, draws, attempt + 1, randomColors, shootable);

        cube := None;
        attempt := attempt + 1;
      }

      ghost var k := FirstFree(targets, draws, 0, randomColors, shootable);
      assert cube.Some? ==> k == attempt < MaxAttempts && cube.value == Candidate(draws, k, randomColors, shootable);
      assert cube.None? ==> k == MaxAttempts;
      if cube.Some? {
        targets := targets + [cube.value];
        used := 3 * (attempt + 1);
      } else {
        used := 3 * MaxAttempts;
      }
    }
  }
}
