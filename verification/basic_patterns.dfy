// The pattern library (src/patterns/BasicPatterns.ts). Every pattern of the
// source is a loop that calls createEnemyBullet once per iteration; here each
// pattern is the sequence of those calls, in order, as a pure function of its
// parameters. BulletManager.BulletManager.Emit feeds such a sequence to the
// pool, one createEnemyBullet call per shot.

module BasicPatterns {

  import opened Wrappers
  import opened Emissions

  // ---------------------------------------------------------------- circle

  /** The angle of bullet i of an n-bullet circle: 2*pi*i/n + offset. */
  function CircleAngle(n: int, i: int, offset: Angle): Angle
    requires n > 0
  {
    Turn(i as real / n as real).Plus(offset)
  }

  /** circle(x, y, bulletCount, speed, offset). */
  function Circle(trig: Trig, x: real, y: real, bulletCount: int, speed: real, offset: Angle): (r: seq<Shot>)
    ensures |r| == Count(bulletCount)
  {
    seq(Count(bulletCount), i requires 0 <= i < Count(bulletCount) =>
      Toward(trig, x, y, CircleAngle(bulletCount, i, offset), speed))
  }

  /** Every circle bullet starts at (x, y) with the same speed, bullet i at
      angle 2*pi*i/n + offset, and consecutive bullets are 1/n turn apart. */
  lemma CircleShape(trig: Trig, x: real, y: real, n: int, speed: real, offset: Angle)
    ensures var r := Circle(trig, x, y, n, speed, offset);
      |r| == Count(n) &&
      (forall i :: 0 <= i < |r| ==>
        r[i].x == x && r[i].y == y && r[i].speed == speed &&
        r[i] == Toward(trig, x, y, Angle(i as real / n as real + offset.turns, offset.rad), speed)) &&
      (forall i :: 0 <= i < |r| - 1 ==>
        CircleAngle(n, i + 1, offset).turns - CircleAngle(n, i, offset).turns == 1.0 / n as real &&
        CircleAngle(n, i + 1, offset).rad == CircleAngle(n, i, offset).rad)
  {
    var r := Circle(trig, x, y, n, speed, offset);
    forall i | 0 <= i < |r| - 1
      ensures CircleAngle(n, i + 1, offset).turns - CircleAngle(n, i, offset).turns == 1.0 / n as real
    {
      assert (i + 1) as real / n as real - i as real / n as real == 1.0 / n as real;
    }
  }

  /** The worked example: 12 bullets at speed 2 from the origin, offset 0,
      are spaced 1/12 turn apart starting at angle 0. */
  lemma CircleOfTwelve(trig: Trig)
    ensures var r := Circle(trig, 0.0, 0.0, 12, 2.0, Turn(0.0));
      |r| == 12 &&
      forall k :: 0 <= k < 12 ==> r[k] == Toward(trig, 0.0, 0.0, Turn(k as real / 12.0), 2.0)
  {
  }

  // ---------------------------------------------------------------- spiral

  /** spiral(x, y, arms, speed, rotation). */
  function Spiral(trig: Trig, x: real, y: real, arms: int, speed: real, rotation: Angle): (r: seq<Shot>)
    ensures |r| == Count(arms)
  {
    seq(Count(arms), i requires 0 <= i < Count(arms) =>
      Toward(trig, x, y, Turn(i as real / arms as real).Plus(rotation), speed))
  }

  /** A spiral is a circle with `arms` bullets whose offset is the rotation. */
  lemma SpiralIsCircle(trig: Trig, x: real, y: real, arms: int, speed: real, rotation: Angle)
    ensures Spiral(trig, x, y, arms, speed, rotation) == Circle(trig, x, y, arms, speed, rotation)
  {
  }

  // ---------------------------------------------------------------- fan

  /** The angle of bullet i of an n-bullet fan from `start` to `end` with
      `bulletCount` at least 2: start + i * (end - start) / (n - 1). */
  function FanAngle(n: int, i: int, start: Angle, end: Angle): Angle
    requires n != 1
  {
    Angle(start.turns + (end.turns - start.turns) / (n - 1) as real * i as real,
          start.rad + (end.rad - start.rad) / (n - 1) as real * i as real)
  }

  /** The angles that fan computes, as written: with bulletCount 1 the step
      (end - start) / 0 is not a number, and neither is the lone angle
      (None stands for NaN). */
  function FanAnglesAsWritten(n: int, start: Angle, end: Angle): (r: seq<Option<Angle>>)
    ensures |r| == Count(n)
  {
    seq(Count(n), i requires 0 <= i < Count(n) =>
      if n == 1 then None else Some(FanAngle(n, i, start, end)))
  }

  /** The source as written: a one-bullet fan fires along a NaN angle. */
  lemma FanOfOneHasNoAngle(start: Angle, end: Angle)
    ensures FanAnglesAsWritten(1, start, end) == [None]
  {
  }

  /** fan(x, y, bulletCount, startAngle, endAngle, speed), with the one-bullet
      case corrected to fire along startAngle. */
  function Fan(trig: Trig, x: real, y: real, bulletCount: int, start: Angle, end: Angle, speed: real): (r: seq<Shot>)
    ensures |r| == Count(bulletCount)
  {
    seq(Count(bulletCount), i requires 0 <= i < Count(bulletCount) =>
      Toward(trig, x, y, if bulletCount == 1 then start else FanAngle(bulletCount, i, start, end), speed))
  }

  /** A fan of n >= 2 bullets starts at startAngle, ends at endAngle, and steps
      by the same (end - start) / (n - 1) between neighbours; the corrected
      one-bullet fan fires along startAngle; every bullet has the given origin
      and speed, and where the code computes an angle the corrected fan uses it. */
  lemma FanEndpoints(trig: Trig, x: real, y: real, n: int, start: Angle, end: Angle, speed: real)
    requires n >= 1
    ensures var r := Fan(trig, x, y, n, start, end, speed);
      |r| == n &&
      r[0] == Toward(trig, x, y, start, speed) &&
      (n >= 2 ==> r[n - 1] == Toward(trig, x, y, end, speed)) &&
      (forall i :: 0 <= i < n - 1 ==>
        FanAngle(n, i + 1, start, end).turns - FanAngle(n, i, start, end).turns == (end.turns - start.turns) / (n - 1) as real &&
        FanAngle(n, i + 1, start, end).rad - FanAngle(n, i, start, end).rad == (end.rad - start.rad) / (n - 1) as real) &&
      (forall i :: 0 <= i < n && FanAnglesAsWritten(n, start, end)[i].Some? ==>
        r[i] == Toward(trig, x, y, FanAnglesAsWritten(n, start, end)[i].value, speed))
  {
    if n >= 2 {
      var m := (n - 1) as real;
      Rescaled(end.turns - start.turns, m);
      Rescaled(end.rad - start.rad, m);
      assert FanAngle(n, n - 1, start, end) == end;
      assert FanAngle(n, 0, start, end) == start;
      forall i | 0 <= i < n - 1
        ensures FanAngle(n, i + 1, start, end).turns - FanAngle(n, i, start, end).turns == (end.turns - start.turns) / m
        ensures FanAngle(n, i + 1, start, end).rad - FanAngle(n, i, start, end).rad == (end.rad - start.rad) / m
      {
        NextStep(start.turns, (end.turns - start.turns) / m, i);
        NextStep(start.rad, (end.rad - start.rad) / m, i);
      }
    }
  }

  /** Dividing by m and multiplying back gives the number again. */
  lemma Rescaled(v: real, m: real)
    requires m != 0.0
    ensures v / m * m == v
  {
  }

  /** Consecutive points of a + d * i are d apart. */
  lemma NextStep(a: real, d: real, i: int)
    ensures (a + d * (i + 1) as real) - (a + d * i as real) == d
  {
    assert d * (i + 1) as real == d * i as real + d;
  }

  // ---------------------------------------------------------------- random

  /** lo + u * (hi - lo). */
  function Lerp(lo: real, hi: real, u: real): real {
    lo + u * (hi - lo)
  }

  /** random(x, y, bulletCount, minSpeed, maxSpeed); `roll(k)` is the k-th
      Math.random() draw of the call: draw 2i gives bullet i's angle and
      draw 2i + 1 its speed. */
  function Random(trig: Trig, x: real, y: real, bulletCount: int, minSpeed: real, maxSpeed: real, roll: nat -> real): (r: seq<Shot>)
    ensures |r| == Count(bulletCount)
  {
    seq(Count(bulletCount), i requires 0 <= i < Count(bulletCount) =>
      Toward(trig, x, y, Turn(roll(2 * i)), Lerp(minSpeed, maxSpeed, roll(2 * i + 1))))
  }

  /** A fraction u in [0, 1) of a width w >= 0 lies in [0, w], below w when w > 0. */
  lemma FractionOf(u: real, w: real)
    requires 0.0 <= u < 1.0 && w >= 0.0
    ensures 0.0 <= u * w <= w
    ensures w > 0.0 ==> u * w < w
  {
    var v := 1.0 - u;
    assert v * w >= 0.0;
    assert w - u * w == v * w;
  }

  /** With draws in [0, 1) and minSpeed <= maxSpeed, every random bullet's
      speed lies in [minSpeed, maxSpeed], below maxSpeed when the range is not
      empty, and it flies along a whole-circle fraction drawn in [0, 1). */
  lemma RandomSpeedInRange(trig: Trig, x: real, y: real, n: int, minSpeed: real, maxSpeed: real, roll: nat -> real)
    requires minSpeed <= maxSpeed
    requires forall k: nat :: 0.0 <= roll(k) < 1.0
    ensures forall i :: 0 <= i < Count(n) ==>
      var s := Random(trig, x, y, n, minSpeed, maxSpeed, roll)[i];
      minSpeed <= s.speed <= maxSpeed && (minSpeed < maxSpeed ==> s.speed < maxSpeed) &&
      s == Toward(trig, x, y, Turn(roll(2 * i)), s.speed) && 0.0 <= roll(2 * i) < 1.0
  {
    forall i | 0 <= i < Count(n)
      ensures var s := Random(trig, x, y, n, minSpeed, maxSpeed, roll)[i];
        minSpeed <= s.speed <= maxSpeed && (minSpeed < maxSpeed ==> s.speed < maxSpeed)
    {
      var u := roll(2 * i + 1);
      assert Random(trig, x, y, n, minSpeed, maxSpeed, roll)[i].speed == Lerp(minSpeed, maxSpeed, u);
      var w := maxSpeed - minSpeed;
      FractionOf(u, w);
      assert Lerp(minSpeed, maxSpeed, u) == minSpeed + u * w;
    }
  }

  // ---------------------------------------------------------------- wave

  /** The sideways shift of wave bullet i: (i - bulletCount / 2) * 15. */
  function WaveOffsetX(n: int, i: int): real {
    (i as real - n as real / 2.0) * 15.0
  }

  /** How far wave bullet i turns from the base angle: sin(i * frequency) * amplitude. */
  function WaveDeflection(trig: Trig, amplitude: real, frequency: real, i: int): real {
    trig.sin(Rad(i as real * frequency)) * amplitude
  }

  /** wave(x, y, bulletCount, amplitude, frequency, speed, baseAngle). */
  function Wave(trig: Trig, x: real, y: real, bulletCount: int, amplitude: real, frequency: real, speed: real, baseAngle: Angle): (r: seq<Shot>)
    ensures |r| == Count(bulletCount)
  {
    seq(Count(bulletCount), i requires 0 <= i < Count(bulletCount) =>
      Toward(trig, x + WaveOffsetX(bulletCount, i), y,
             baseAngle.Plus(Rad(WaveDeflection(trig, amplitude, frequency, i))), speed))
  }

  /** Wave bullets share y, sit 15 apart from left to right starting
      bulletCount * 7.5 left of x, and bullet i turns from baseAngle by
      sin(i * frequency) * amplitude. */
  lemma WaveRow(trig: Trig, x: real, y: real, n: int, amplitude: real, frequency: real, speed: real, baseAngle: Angle)
    ensures var r := Wave(trig, x, y, n, amplitude, frequency, speed, baseAngle);
      (forall i :: 0 <= i < |r| ==>
        r[i].y == y && r[i].speed == speed && r[i].x == x + (i as real - n as real / 2.0) * 15.0 &&
        r[i] == Toward(trig, r[i].x, y, Angle(baseAngle.turns, baseAngle.rad + WaveDeflection(trig, amplitude, frequency, i)), speed)) &&
      (forall i :: 0 <= i < |r| - 1 ==> r[i + 1].x == r[i].x + 15.0) &&
      (|r| > 0 ==> r[0].x == x - n as real * 7.5)
  {
    var r := Wave(trig, x, y, n, amplitude, frequency, speed, baseAngle);
    forall i | 0 <= i < |r| - 1
      ensures r[i + 1].x == r[i].x + 15.0
    {
      assert WaveOffsetX(n, i + 1) == WaveOffsetX(n, i) + 15.0;
    }
  }

  // ---------------------------------------------------------------- laser

  /** How many bullets a laser of the given length has: floor(length / 5). */
  function LaserCount(length: real): int {
    (length / 5.0).Floor
  }

  /** laser(x, y, angle, length, speed). */
  function Laser(trig: Trig, x: real, y: real, angle: Angle, length: real, speed: real): (r: seq<Shot>)
    ensures |r| == Count(LaserCount(length))
  {
    var dirX := trig.cos(angle);
    var dirY := trig.sin(angle);
    seq(Count(LaserCount(length)), i requires 0 <= i < Count(LaserCount(length)) =>
      Shot(x + dirX * i as real * 5.0, y + dirY * i as real * 5.0, dirX, dirY, speed))
  }

  /** A laser of non-negative length holds floor(length / 5) bullets that all
      fly along `angle`; bullet i starts 5i along that direction. */
  lemma LaserLine(trig: Trig, x: real, y: real, angle: Angle, length: real, speed: real)
    requires length >= 0.0
    ensures var r := Laser(trig, x, y, angle, length, speed);
      |r| as real * 5.0 <= length < |r| as real * 5.0 + 5.0 &&
      forall i :: 0 <= i < |r| ==>
        r[i].dirX == trig.cos(angle) && r[i].dirY == trig.sin(angle) && r[i].speed == speed &&
        r[i].x == x + 5.0 * i as real * trig.cos(angle) &&
        r[i].y == y + 5.0 * i as real * trig.sin(angle)
  {
    var k := LaserCount(length);
    assert k as real <= length / 5.0 < k as real + 1.0;
    assert k >= 0;
  }

  // ---------------------------------------------------------------- nested loops

  /** The bullets of an outer loop whose iteration g fires groups[g], in order. */
  function Flatten(groups: seq<seq<Shot>>): seq<Shot> {
    if groups == [] then [] else groups[0] + Flatten(groups[1..])
  }

  /** The index in Flatten(groups) at which group g starts. */
  function Start(groups: seq<seq<Shot>>, g: nat): nat
    requires g <= |groups|
  {
    if g == 0 then 0 else |groups[0]| + Start(groups[1..], g - 1)
  }

  lemma {:induction false} FlattenAt(groups: seq<seq<Shot>>, g: nat, i: nat)
    requires g < |groups| && i < |groups[g]|
    ensures Start(groups, g) + i < |Flatten(groups)|
    ensures Flatten(groups)[Start(groups, g) + i] == groups[g][i]
  {
    if g > 0 {
      FlattenAt(groups[1..], g - 1, i);
    }
  }

  lemma MulSucc(g: int, p: int)
    ensures g * p == p + (g - 1) * p
  {
  }

  lemma {:induction false} StartUniform(groups: seq<seq<Shot>>, p: nat, g: nat)
    requires forall k :: 0 <= k < |groups| ==> |groups[k]| == p
    requires g <= |groups|
    ensures Start(groups, g) == g * p
  {
    if g > 0 {
      StartUniform(groups[1..], p, g - 1);
      MulSucc(g, p);
    }
  }

  lemma {:induction false} FlattenLength(groups: seq<seq<Shot>>, p: nat)
    requires forall k :: 0 <= k < |groups| ==> |groups[k]| == p
    ensures |Flatten(groups)| == |groups| * p
  {
    if groups != [] {
      FlattenLength(groups[1..], p);
      MulSucc(|groups|, p);
    }
  }

  /** When every group holds p bullets, the whole holds |groups| * p and
      bullet i of group g is bullet g * p + i of the whole. */
  lemma FlattenBlock(groups: seq<seq<Shot>>, p: nat, g: int, i: int)
    requires forall k :: 0 <= k < |groups| ==> |groups[k]| == p
    requires 0 <= g < |groups| && 0 <= i < p
    ensures |Flatten(groups)| == |groups| * p
    ensures 0 <= g * p + i < |Flatten(groups)| && Flatten(groups)[g * p + i] == groups[g][i]
  {
    FlattenLength(groups, p);
    FlattenAt(groups, g, i);
    StartUniform(groups, p, g);
  }

  /** What holds of every bullet of every group holds of every bullet of the whole. */
  lemma {:induction false} FlattenAll(groups: seq<seq<Shot>>, P: Shot -> bool)
    requires forall g, i :: 0 <= g < |groups| && 0 <= i < |groups[g]| ==> P(groups[g][i])
    ensures forall k :: 0 <= k < |Flatten(groups)| ==> P(Flatten(groups)[k])
  {
    if groups != [] {
      var rest := groups[1..];
      assert forall g, i :: 0 <= g < |rest| && 0 <= i < |rest[g]| ==> rest[g][i] == groups[g + 1][i];
      FlattenAll(rest, P);
      forall k | 0 <= k < |Flatten(groups)|
        ensures P(Flatten(groups)[k])
      {
        if k < |groups[0]| {
          assert Flatten(groups)[k] == groups[0][k];
        } else {
          assert Flatten(groups)[k] == Flatten(rest)[k - |groups[0]|];
        }
      }
    }
  }

  /** v * a < v * b when v > 0 and a < b. */
  lemma ScaleGrows(v: real, a: real, b: real)
    requires v > 0.0 && a < b
    ensures v * a < v * b
  {
    var d := b - a;
    assert v * d > 0.0;
    assert v * b == v * a + v * d;
  }

  // ---------------------------------------------------------------- cross

  /** The four directions of cross, in order: right, left, down, up. */
  const CrossDirections: seq<(real, real)> := [(1.0, 0.0), (-1.0, 0.0), (0.0, 1.0), (0.0, -1.0)]

  /** The perpendicular shift of bullet i of a cross arm: (i - thickness / 2) * 10. */
  function CrossOffset(thickness: int, i: int): real {
    (i as real - thickness as real / 2.0) * 10.0
  }

  /** The inner loop of cross for direction d. */
  function CrossArm(x: real, y: real, speed: real, thickness: int, d: (real, real)): (r: seq<Shot>)
    ensures |r| == Count(thickness)
  {
    seq(Count(thickness), i requires 0 <= i < Count(thickness) =>
      Shot(x + -d.1 * CrossOffset(thickness, i), y + d.0 * CrossOffset(thickness, i), d.0, d.1, speed))
  }

  /** cross(x, y, speed, thickness). */
  function Cross(x: real, y: real, speed: real, thickness: int): (r: seq<Shot>)
    ensures |r| == 4 * Count(thickness)
  {
    var groups := seq(4, a requires 0 <= a < 4 => CrossArm(x, y, speed, thickness, CrossDirections[a]));
    FlattenLength(groups, Count(thickness));
    Flatten(groups)
  }

  /** A cross holds 4 * thickness bullets; bullet i of arm a (right, left,
      down, up) sits at index a * thickness + i, flies along that unit
      cardinal direction at `speed`, and starts shifted perpendicular to it
      by (i - thickness / 2) * 10. */
  lemma CrossShape(x: real, y: real, speed: real, thickness: int, a: int, i: int)
    requires 0 <= a < 4 && 0 <= i < Count(thickness)
    ensures var r := Cross(x, y, speed, thickness);
      |r| == 4 * Count(thickness) &&
      0 <= a * Count(thickness) + i < |r| &&
      CardinalShot(r[a * Count(thickness) + i], x, y, speed, CrossDirections[a], CrossOffset(thickness, i))
  {
    var t := Count(thickness);
    var groups := seq(4, a requires 0 <= a < 4 => CrossArm(x, y, speed, thickness, CrossDirections[a]));
    FlattenBlock(groups, t, a, i);
    ArmShot(x, y, speed, thickness, a, i);
  }

  /** Shot s flies at `speed` along the unit cardinal direction d and starts
      at (x, y) shifted by `o` perpendicular to d. */
  predicate CardinalShot(s: Shot, x: real, y: real, speed: real, d: (real, real), o: real) {
    s.dirX == d.0 && s.dirY == d.1 &&
    s.dirX * s.dirX + s.dirY * s.dirY == 1.0 && s.dirX * s.dirY == 0.0 &&
    s.speed == speed &&
    (s.x - x) * s.dirX + (s.y - y) * s.dirY == 0.0 &&
    s.x - x == -s.dirY * o &&
    s.y - y == s.dirX * o
  }

  /** Bullet i of arm a is such a shot. */
  lemma ArmShot(x: real, y: real, speed: real, thickness: int, a: int, i: int)
    requires 0 <= a < 4 && 0 <= i < Count(thickness)
    ensures CardinalShot(CrossArm(x, y, speed, thickness, CrossDirections[a])[i], x, y, speed, CrossDirections[a], CrossOffset(thickness, i))
  {
    var s := CrossArm(x, y, speed, thickness, CrossDirections[a])[i];
    var o := CrossOffset(thickness, i);
    if a == 0 {
      assert s == Shot(x, y + o, 1.0, 0.0, speed);
    } else if a == 1 {
      assert s == Shot(x, y - o, -1.0, 0.0, speed);
    } else if a == 2 {
      assert s == Shot(x - o, y, 0.0, 1.0, speed);
    } else {
      assert s == Shot(x + o, y, 0.0, -1.0, speed);
    }
  }

  // ---------------------------------------------------------------- flower

  /** Bullet j of petal i of a flower: angle base + (j - 2) * 0.1, speed
      speed * (1 + j * 0.1), where base = 2*pi*i/petals + rotation. */
  function PetalShot(trig: Trig, x: real, y: real, petals: int, speed: real, rotation: Angle, i: int, j: int): Shot
    requires petals > 0
  {
    Toward(trig, x, y, Turn(i as real / petals as real).Plus(rotation).Plus(Rad((j - 2) as real * 0.1)),
           speed * (1.0 + j as real * 0.1))
  }

  /** The inner loop of flower for petal i. */
  function Petal(trig: Trig, x: real, y: real, petals: int, speed: real, rotation: Angle, i: int): (r: seq<Shot>)
    requires petals > 0
    ensures |r| == 5
  {
    seq(5, j requires 0 <= j < 5 => PetalShot(trig, x, y, petals, speed, rotation, i, j))
  }

  /** flower(x, y, petals, speed, rotation). */
  function Flower(trig: Trig, x: real, y: real, petals: int, speed: real, rotation: Angle): (r: seq<Shot>)
    ensures |r| == 5 * Count(petals)
  {
    var groups := seq(Count(petals), i requires 0 <= i < Count(petals) => Petal(trig, x, y, petals, speed, rotation, i));
    FlattenLength(groups, 5);
    Flatten(groups)
  }

  /** A flower holds petals * 5 bullets; bullet 5i + j is bullet j of petal
      i: it starts at (x, y), flies (j - 2) * 0.1 off the petal's angle
      2*pi*i/petals + rotation at speed * (1 + 0.1j), so within a petal the
      speed strictly grows with j when speed > 0. */
  lemma FlowerShape(trig: Trig, x: real, y: real, petals: int, speed: real, rotation: Angle, i: int, j: int)
    requires 0 <= i < Count(petals) && 0 <= j < 5
    ensures var r := Flower(trig, x, y, petals, speed, rotation);
      |r| == 5 * Count(petals) &&
      0 <= 5 * i + j < |r| &&
      r[5 * i + j] == PetalShot(trig, x, y, petals, speed, rotation, i, j) &&
      r[5 * i + j].x == x && r[5 * i + j].y == y &&
      r[5 * i + j].speed == speed * (1.0 + j as real * 0.1) &&
      (speed > 0.0 && j < 4 ==> r[5 * i + j].speed < r[5 * i + j + 1].speed)
  {
    var groups := seq(Count(petals), i requires 0 <= i < Count(petals) => Petal(trig, x, y, petals, speed, rotation, i));
    FlattenBlock(groups, 5, i, j);
    if j < 4 {
      FlattenBlock(groups, 5, i, j + 1);
      if speed > 0.0 {
        var lo := 1.0 + j as real * 0.1;
        var hi := 1.0 + (j + 1) as real * 0.1;
        ScaleGrows(speed, lo, hi);
      }
    }
  }

  // ---------------------------------------------------------------- ring

  /** The circle that ring q fires: bulletsPerRing bullets at speed
      baseSpeed + 0.5q, offset 2*pi*q/rings. */
  function RingCircle(trig: Trig, x: real, y: real, rings: int, perRing: int, baseSpeed: real, q: int): (r: seq<Shot>)
    requires rings > 0
    ensures |r| == Count(perRing)
  {
    Circle(trig, x, y, perRing, baseSpeed + q as real * 0.5, Turn(q as real / rings as real))
  }

  /** ring(x, y, rings, bulletsPerRing, baseSpeed). */
  function Ring(trig: Trig, x: real, y: real, rings: int, perRing: int, baseSpeed: real): (r: seq<Shot>)
    ensures |r| == Count(rings) * Count(perRing)
  {
    var groups := seq(Count(rings), q requires 0 <= q < Count(rings) => RingCircle(trig, x, y, rings, perRing, baseSpeed, q));
    FlattenLength(groups, Count(perRing));
    Flatten(groups)
  }

  /** A ring is `rings` circles one after the other, rings * bulletsPerRing
      bullets in all; bullet q * bulletsPerRing + i is bullet i of circle q,
      which has speed baseSpeed + 0.5q, so it flies along
      2*pi*(i/bulletsPerRing + q/rings). */
  lemma RingShape(trig: Trig, x: real, y: real, rings: int, perRing: int, baseSpeed: real, q: int, i: int)
    requires 0 <= q < Count(rings) && 0 <= i < Count(perRing)
    ensures var r := Ring(trig, x, y, rings, perRing, baseSpeed);
      |r| == Count(rings) * Count(perRing) &&
      0 <= q * Count(perRing) + i < |r| &&
      r[q * Count(perRing) + i] == RingCircle(trig, x, y, rings, perRing, baseSpeed, q)[i] &&
      r[q * Count(perRing) + i] ==
        Toward(trig, x, y, Turn(i as real / perRing as real + q as real / rings as real), baseSpeed + q as real * 0.5)
  {
    var groups := seq(Count(rings), q requires 0 <= q < Count(rings) => RingCircle(trig, x, y, rings, perRing, baseSpeed, q));
    FlattenBlock(groups, Count(perRing), q, i);
  }

  // ---------------------------------------------------------------- vortex

  /** The spawn angle of vortex bullet i: i * rotationSpeed radians. */
  function VortexAngle(rotationSpeed: real, i: int): Angle {
    Rad(i as real * rotationSpeed)
  }

  /** Where vortex bullet i spawns: 2i away from (x, y) along its spawn angle. */
  function VortexSpawn(trig: Trig, x: real, y: real, rotationSpeed: real, i: int): (real, real) {
    Along(trig, x, y, VortexAngle(rotationSpeed, i), i as real * 2.0)
  }

  /** vortex(x, y, bulletCount, rotationSpeed, speed). */
  function Vortex(trig: Trig, x: real, y: real, bulletCount: int, rotationSpeed: real, speed: real): (r: seq<Shot>)
    ensures |r| == Count(bulletCount)
  {
    seq(Count(bulletCount), i requires 0 <= i < Count(bulletCount) =>
      var spawn := VortexSpawn(trig, x, y, rotationSpeed, i);
      Toward(trig, spawn.0, spawn.1, VortexAngle(rotationSpeed, i).Plus(Turn(0.25)), speed))
  }

  /** Vortex bullet i spawns at VortexSpawn(i), 2i from (x, y) along angle
      i * rotationSpeed (bullet 0 at the centre), and flies a quarter turn
      past that angle. */
  lemma VortexTangent(trig: Trig, x: real, y: real, n: int, rotationSpeed: real, speed: real, i: int)
    requires 0 <= i < Count(n)
    ensures var r := Vortex(trig, x, y, n, rotationSpeed, speed);
      (r[i].x, r[i].y) == VortexSpawn(trig, x, y, rotationSpeed, i) &&
      (i == 0 ==> r[i].x == x && r[i].y == y) &&
      r[i].dirX == trig.cos(VortexAngle(rotationSpeed, i).Plus(Turn(0.25))) &&
      r[i].dirY == trig.sin(VortexAngle(rotationSpeed, i).Plus(Turn(0.25))) &&
      r[i].speed == speed
  {
    if i == 0 {
      AlongZero(trig, x, y, VortexAngle(rotationSpeed, 0));
    }
  }
}
