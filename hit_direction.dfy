/**
 * Hit-direction classification of AEnemy::DirectionalHitReact.
 *
 * The enemy compares its forward vector with the direction towards the
 * impact point: the unsigned angle between them (in degrees, from the
 * arc-cosine of their dot product) is given a sign from the vertical
 * component of their cross product, and the signed angle is bucketed into
 * one of four hit-react montage sections using half-open intervals.
 */
module HitDirection {

  /** A 3D vector or position of the engine's world space. */
  datatype Vec3 = Vec3(x: real, y: real, z: real)

  function Sub(a: Vec3, b: Vec3): Vec3
  {
    Vec3(a.x - b.x, a.y - b.y, a.z - b.z)
  }

  function Scale(k: real, v: Vec3): Vec3
  {
    Vec3(k * v.x, k * v.y, k * v.z)
  }

  /**
   * The Z component of the cross product f x t: zero when t has no
   * horizontal part or points along f, and non-negative (the squared horizontal
   * length of f) when t is f turned a quarter-turn towards +Y.
   */
  function CrossZ(f: Vec3, t: Vec3): (r: real)
    ensures t.x == 0.0 && t.y == 0.0 ==> r == 0.0
    ensures t.x == f.x && t.y == f.y ==> r == 0.0
    ensures t.x == -f.y && t.y == f.x ==> r == f.x * f.x + f.y * f.y && r >= 0.0
  {
    f.x * t.y - f.y * t.x
  }

  /** The four sections of the hit-react montage. */
  datatype Section = FromFront | FromLeft | FromRight | FromBack

  /** The montage section name requested for a section. */
  function SectionName(s: Section): (name: string)
    ensures |name| > 4 && name[..4] == "From"
    ensures name in {"FromFront", "FromLeft", "FromRight", "FromBack"}
  {
    match s
    case FromFront => "FromFront"
    case FromLeft => "FromLeft"
    case FromRight => "FromRight"
    case FromBack => "FromBack"
  }

  /**
   * The signed angle: the unsigned angle is negated exactly when the cross
   * product of forward and to-hit points down.
   */
  function SignedTheta(unsignedTheta: real, crossZ: real): (theta: real)
    requires 0.0 <= unsignedTheta <= 180.0
    ensures -180.0 <= theta <= 180.0
    ensures theta == unsignedTheta || theta == -unsignedTheta
    ensures theta < 0.0 ==> crossZ < 0.0
    ensures crossZ < 0.0 && unsignedTheta > 0.0 ==> theta < 0.0
    ensures crossZ >= 0.0 ==> theta == unsignedTheta
  {
    if crossZ < 0.0 then -unsignedTheta else unsignedTheta
  }

  /**
   * The bucketing of the signed angle: [-45,45) is the front, [-135,-45) the
   * left, [45,135) the right, and everything else the back.
   */
  function Classify(theta: real): (r: Section)
    ensures r == FromFront <==> -45.0 <= theta < 45.0
    ensures r == FromLeft <==> -135.0 <= theta < -45.0
    ensures r == FromRight <==> 45.0 <= theta < 135.0
    ensures r == FromBack <==> theta < -135.0 || theta >= 135.0
  {
    if -45.0 <= theta < 45.0 then FromFront
    else if -135.0 <= theta < -45.0 then FromLeft
    else if 45.0 <= theta < 135.0 then FromRight
    else FromBack
  }

  /**
   * The section for a hit at impactPoint on an actor at location facing
   * forward, given the unsigned angle between forward and the direction to
   * the impact. The direction is the raw displacement to the impact point,
   * not the one lowered to the actor's height.
   */
  function HitSection(forward: Vec3, location: Vec3, impactPoint: Vec3, unsignedTheta: real): (r: Section)
    requires 0.0 <= unsignedTheta <= 180.0
    ensures unsignedTheta < 45.0 ==> r == FromFront
    ensures 135.0 < unsignedTheta ==> r == FromBack
    ensures 45.0 < unsignedTheta < 135.0 ==>
              (r == FromRight <==> CrossZ(forward, Sub(impactPoint, location)) >= 0.0) &&
              (r == FromLeft <==> CrossZ(forward, Sub(impactPoint, location)) < 0.0)
    ensures unsignedTheta == 45.0 ==>
              r == if CrossZ(forward, Sub(impactPoint, location)) >= 0.0 then FromRight else FromFront
    ensures unsignedTheta == 135.0 ==>
              r == if CrossZ(forward, Sub(impactPoint, location)) >= 0.0 then FromBack else FromLeft
  {
    Classify(SignedTheta(unsignedTheta, CrossZ(forward, Sub(impactPoint, location))))
  }

  // ---------------------------------------------------------------------
  // An independent reference definition: the quarter-turn the angle is in
  // ---------------------------------------------------------------------

  /**
   * The index of the 90-degree sector holding theta, sectors being
   * centred on 0, 90, -90, 180 ... and closed at their lower end.
   */
  function Quadrant(theta: real): int
  {
    ((theta + 45.0) / 90.0).Floor
  }

  function QuadrantSection(q: int): Section
  {
    if q == 0 then FromFront
    else if q == 1 then FromRight
    else if q == -1 then FromLeft
    else FromBack
  }

  /** The if-chain agrees with the sector reading of the angle, for every real theta. */
  lemma ClassifyIsQuadrant(theta: real)
    ensures Classify(theta) == QuadrantSection(Quadrant(theta))
  {
    var x := (theta + 45.0) / 90.0;
    var q := x.Floor;
    assert q as real <= x < q as real + 1.0;
    assert theta == 90.0 * x - 45.0;
    if q == 0 {
      assert -45.0 <= theta < 45.0;
    } else if q == 1 {
      assert 45.0 <= theta < 135.0;
    } else if q == -1 {
      assert -135.0 <= theta < -45.0;
    } else if q >= 2 {
      assert theta >= 135.0;
    } else {
      assert theta < -135.0;
    }
  }

  /** Distinct sections are requested under distinct names. */
  lemma SectionNameInjective(a: Section, b: Section)
    ensures SectionName(a) == SectionName(b) ==> a == b
  {
  }

  /** Ties at the interval bounds resolve to the bucket whose lower bound they are. */
  lemma BoundaryTies()
    ensures Classify(45.0) == FromRight
    ensures Classify(-45.0) == FromFront
    ensures Classify(135.0) == FromBack
    ensures Classify(-135.0) == FromLeft
    ensures Classify(180.0) == FromBack && Classify(-180.0) == FromBack
  {
  }

  /** Straight ahead is the front and straight behind is the back, whatever the cross product. */
  lemma AheadAndBehind(crossZ: real)
    ensures Classify(SignedTheta(0.0, crossZ)) == FromFront
    ensures Classify(SignedTheta(180.0, crossZ)) == FromBack
  {
  }

  /** Left and right are swapped by the mirror image of a hit. */
  function Mirror(s: Section): Section
  {
    match s
    case FromLeft => FromRight
    case FromRight => FromLeft
    case _ => s
  }

  /**
   * Mirroring a hit across the forward axis (negating the cross product)
   * swaps left and right, except at the two boundary angles 45 and 135.
   */
  lemma MirrorSymmetry(unsignedTheta: real, crossZ: real)
    requires 0.0 <= unsignedTheta <= 180.0
    requires unsignedTheta != 45.0 && unsignedTheta != 135.0
    requires crossZ != 0.0
    ensures Classify(SignedTheta(unsignedTheta, -crossZ)) == Mirror(Classify(SignedTheta(unsignedTheta, crossZ)))
  {
  }

  /** At the boundary angles the half-open intervals break the mirror symmetry. */
  lemma MirrorBrokenAtBoundaries()
    ensures Classify(SignedTheta(45.0, 1.0)) == FromRight
    ensures Classify(SignedTheta(45.0, -1.0)) == FromFront
    ensures Classify(SignedTheta(135.0, 1.0)) == FromBack
    ensures Classify(SignedTheta(135.0, -1.0)) == FromLeft
  {
  }

  /** Scaling the to-hit vector by a positive factor (normalising it) keeps the sign of CrossZ. */
  lemma CrossZScaleInvariant(f: Vec3, t: Vec3, k: real)
    requires k > 0.0
    ensures CrossZ(f, Scale(k, t)) == k * CrossZ(f, t)
    ensures CrossZ(f, Scale(k, t)) < 0.0 <==> CrossZ(f, t) < 0.0
  {
    var c := CrossZ(f, t);
    assert CrossZ(f, Scale(k, t)) == k * c;
    if c < 0.0 {
      assert k * c < 0.0;
    } else {
      assert k * c >= 0.0;
    }
  }

  /** Hence the section does not depend on the length of the to-hit vector. */
  lemma HitSectionScaleInvariant(forward: Vec3, toHit: Vec3, k: real, unsignedTheta: real)
    requires k > 0.0
    requires 0.0 <= unsignedTheta <= 180.0
    ensures Classify(SignedTheta(unsignedTheta, CrossZ(forward, Scale(k, toHit))))
         == Classify(SignedTheta(unsignedTheta, CrossZ(forward, toHit)))
  {
    CrossZScaleInvariant(forward, toHit, k);
  }

  /**
   * The sign of the cross product ignores the impact's height: lowering the
   * impact point to the actor's own height would not change it.
   */
  lemma CrossZIgnoresHeight(forward: Vec3, location: Vec3, impactPoint: Vec3)
    ensures CrossZ(forward, Sub(Vec3(impactPoint.x, impactPoint.y, location.z), location))
         == CrossZ(forward, Sub(impactPoint, location))
  {
  }

  /**
   * An impact at the actor's own location: the to-hit vector is zero, so
   * the engine's cosine is 0, the angle 90 and the cross product 0, which
   * gives FromRight.
   */
  lemma ZeroDisplacementIsRight(forward: Vec3, location: Vec3)
    ensures HitSection(forward, location, location, 90.0) == FromRight
  {
  }

  /** A hit from straight to the right of an actor facing +X is classified FromRight. */
  lemma RightHandHit()
    ensures HitSection(Vec3(1.0, 0.0, 0.0), Vec3(0.0, 0.0, 0.0), Vec3(0.0, 1.0, 0.0), 90.0) == FromRight
  {
  }
}
