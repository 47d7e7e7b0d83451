// The vocabulary every pattern is written in: exact symbolic angles, the
// uninterpreted trigonometry the game calls, and one createEnemyBullet call
// as a value.
//
// Angles are kept exact: Angle(turns, rad) stands for 2*pi*turns + rad, so
// `(Math.PI * 2 * i) / n + offset` is Turn(i / n).Plus(offset) with no
// rounding. Math.cos, Math.sin and Math.atan2 are not interpreted: they are
// the fields of a Trig record that the caller supplies.

module Emissions {

  /** The angle 2*pi*turns + rad (radians). */
  datatype Angle = Angle(turns: real, rad: real) {
    function Plus(b: Angle): Angle {
      Angle(turns + b.turns, rad + b.rad)
    }
  }

  /** The angle 2*pi*t. */
  function Turn(t: real): Angle {
    Angle(t, 0.0)
  }

  /** The angle r, in radians. */
  function Rad(r: real): Angle {
    Angle(0.0, r)
  }

  /** Math.cos, Math.sin and Math.atan2(dy, dx), left uninterpreted. */
  datatype Trig = Trig(cos: Angle -> real, sin: Angle -> real, atan2: (real, real) -> real)

  /** The arguments of one createEnemyBullet(x, y, dirX, dirY, speed) call. */
  datatype Shot = Shot(x: real, y: real, dirX: real, dirY: real, speed: real)

  /** A shot from (x, y) along angle a. */
  function Toward(trig: Trig, x: real, y: real, a: Angle, speed: real): Shot {
    Shot(x, y, trig.cos(a), trig.sin(a), speed)
  }

  /** How many times `for (let i = 0; i < n; i++)` runs. */
  function Count(n: int): nat {
    if n > 0 then n else 0
  }

  /** The point `dist` away from (x, y) along angle a. */
  function Along(trig: Trig, x: real, y: real, a: Angle, dist: real): (real, real) {
    (x + trig.cos(a) * dist, y + trig.sin(a) * dist)
  }

  /** Zero distance along any angle is the starting point. */
  lemma AlongZero(trig: Trig, x: real, y: real, a: Angle)
    ensures Along(trig, x, y, a, 0.0) == (x, y)
  {
    var c := trig.cos(a);
    var s := trig.sin(a);
    assert c * 0.0 == 0.0 && s * 0.0 == 0.0;
  }
}
