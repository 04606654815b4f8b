/** The projectile simulation's single pure step. */
module Cannonball {
  import opened MathUtils
  import opened Tuples

  datatype Projectile = Projectile(position: Tuple, velocity: Tuple)

  datatype Environment = Environment(gravity: Tuple, wind: Tuple)

  /** The state the simulation starts from and keeps: the position is an
      exact point and every motion term is an exact vector. */
  predicate ExactlyClassified(env: Environment, proj: Projectile)
  {
    proj.position.w == 1.0 && proj.velocity.w == 0.0
    && env.gravity.w == 0.0 && env.wind.w == 0.0
  }

  /** `step`: move by the velocity, then let gravity and wind change it. The
      new velocity is computed as `(velocity + gravity) + wind`; over the
      reals that grouping makes no difference. */
  function Step(env: Environment, proj: Projectile): (next: Projectile)
    ensures next.position.Sub(proj.position) == proj.velocity
    ensures next.velocity.Sub(proj.velocity) == env.gravity.Add(env.wind)
    ensures ExactlyClassified(env, proj) ==>
              ExactlyClassified(env, next) && next.position.IsPoint() && next.velocity.IsVector()
  {
    Projectile(proj.position.Add(proj.velocity), proj.velocity.Add(env.gravity).Add(env.wind))
  }

  /** With merely tolerance-classified tuples, w can drift: the new position
      stays within twice the tolerance of 1, the new velocity within three
      times the tolerance of 0. */
  lemma StepToleranceDrift(env: Environment, proj: Projectile)
    requires proj.position.IsPoint() && proj.velocity.IsVector()
    requires env.gravity.IsVector() && env.wind.IsVector()
    ensures EqualWithin(Step(env, proj).position.w, 1.0, 2.0 * EPSILON)
    ensures EqualWithin(Step(env, proj).velocity.w, 0.0, 3.0 * EPSILON)
  {
  }

  /** The drift is real: whenever the position's w exceeds 1 by more than
      half the tolerance and the velocity's w is as large, every input passes
      its classification, yet the new position is not a point. */
  lemma StepDriftsBy(env: Environment, proj: Projectile, d: real)
    requires EPSILON / 2.0 < d < EPSILON
    requires proj.position.w == 1.0 + d && proj.velocity.w == d
    requires env.gravity.IsVector() && env.wind.IsVector()
    ensures proj.position.IsPoint() && proj.velocity.IsVector()
    ensures !Step(env, proj).position.IsPoint()
  {
  }
}
