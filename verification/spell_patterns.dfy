// The spell cards (src/patterns/SpellPatterns.ts): time-phased choices among
// the basic patterns, each firing only inside a short window of its period.
// Time is a non-negative whole number of milliseconds, so the source's
// `Math.floor(time / P) % k` and `time % Q` are Dafny's `/` and `%`.

module SpellPatterns {

  import opened Emissions
  import opened BasicPatterns
  import BulletManager
  import Config

  /** `time % period < 50`: the 50 ms firing window at the start of each period. */
  predicate InWindow(time: nat, period: nat)
    requires period > 0
  {
    time % period < 50
  }

  /** `Math.floor(time / period) % k`: which phase of a k-phase cycle is on. */
  function Phase(time: nat, period: nat, k: nat): (p: nat)
    requires period > 0 && k > 0
    ensures p < k
  {
    (time / period) % k
  }

  /** `time * c` radians. */
  function TimeAngle(time: nat, c: real): Angle {
    Rad(time as real * c)
  }

  // ---------------------------------------------------------------- icicleFall

  /** The column icicle i falls from: (i + 1) * (400 / 9). */
  function IcicleColumn(i: int): real {
    (i + 1) as real * (400.0 / 9.0)
  }

  /** sin(time * 0.001 + i) * 0.5 + 0.5. */
  function IciclePhase(trig: Trig, time: nat, i: int): real {
    trig.sin(Rad(time as real * 0.001 + i as real)) * 0.5 + 0.5
  }

  /** Icicle i drops when its Math.random() draw is below 0.1 * phase. */
  predicate IcicleDrops(trig: Trig, time: nat, roll: nat -> real, i: nat) {
    roll(i) < 0.1 * IciclePhase(trig, time, i)
  }

  /** What icicle i fires: one straight down at 3 and two slanted at 2.5, or nothing. */
  function Icicle(trig: Trig, time: nat, roll: nat -> real, i: nat): (r: seq<Shot>)
    ensures |r| == 0 || |r| == 3
  {
    if IcicleDrops(trig, time, roll, i) then
      var c := IcicleColumn(i);
      [Shot(c, 0.0, 0.0, 1.0, 3.0), Shot(c, 0.0, 0.1, 1.0, 2.5), Shot(c, 0.0, -0.1, 1.0, 2.5)]
    else []
  }

  /** icicleFall(bm, _x, _y, time); `roll(i)` is the draw of icicle i. The
      caller's position is ignored. */
  function IcicleFall(trig: Trig, time: nat, roll: nat -> real): seq<Shot> {
    Flatten(seq(8, i requires 0 <= i < 8 => Icicle(trig, time, roll, i)))
  }

  /** Each icicle whose draw is below its threshold fires exactly three
      bullets from (column, 0); the others fire none. */
  lemma IcicleShots(trig: Trig, time: nat, roll: nat -> real, i: nat)
    ensures var r := Icicle(trig, time, roll, i);
      (IcicleDrops(trig, time, roll, i) <==> |r| == 3) &&
      (!IcicleDrops(trig, time, roll, i) <==> r == []) &&
      forall k :: 0 <= k < |r| ==> r[k].x == (i + 1) as real * 400.0 / 9.0 && r[k].y == 0.0
  {
  }

  lemma {:induction false} ThreesAddUp(groups: seq<seq<Shot>>)
    requires forall g :: 0 <= g < |groups| ==> |groups[g]| == 0 || |groups[g]| == 3
    ensures |Flatten(groups)| % 3 == 0 && |Flatten(groups)| <= 3 * |groups|
  {
    if groups != [] {
      ThreesAddUp(groups[1..]);
      var n := |Flatten(groups[1..])|;
      assert |Flatten(groups)| == |groups[0]| + n;
      assert n == 3 * (n / 3);
      assert |Flatten(groups)| == 3 * (n / 3 + |groups[0]| / 3);
    }
  }

  /** An icicle fall fires a multiple of three bullets, at most 24; every one
      starts on the top edge (y = 0) strictly inside the field's width, falls
      downwards (dirY = 1), straight at speed 3 or slanted by 0.1 at 2.5. */
  lemma IcicleFallShape(trig: Trig, time: nat, roll: nat -> real)
    ensures var r := IcicleFall(trig, time, roll);
      |r| % 3 == 0 && |r| <= 24 &&
      forall k :: 0 <= k < |r| ==>
        r[k].y == 0.0 && 0.0 < r[k].x < Config.GAME_WIDTH as real && r[k].dirY == 1.0 &&
        ((r[k].dirX == 0.0 && r[k].speed == 3.0) ||
         ((r[k].dirX == 0.1 || r[k].dirX == -0.1) && r[k].speed == 2.5))
  {
    var groups := seq(8, i requires 0 <= i < 8 => Icicle(trig, time, roll, i));
    ThreesAddUp(groups);
    var P := (s: Shot) =>
      s.y == 0.0 && 0.0 < s.x < Config.GAME_WIDTH as real && s.dirY == 1.0 &&
      ((s.dirX == 0.0 && s.speed == 3.0) || ((s.dirX == 0.1 || s.dirX == -0.1) && s.speed == 2.5));
    forall g, i | 0 <= g < |groups| && 0 <= i < |groups[g]|
      ensures P(groups[g][i])
    {
      assert 0.0 < IcicleColumn(g) <= 3200.0 / 9.0;
    }
    FlattenAll(groups, P);
  }

  /** When every icicle's draw is at or above 0.1 (the largest threshold once
      sin is within [-1, 1]), nothing falls. */
  lemma IcicleFallQuiet(trig: Trig, time: nat, roll: nat -> real)
    requires forall a :: -1.0 <= trig.sin(a) <= 1.0
    requires forall i: nat :: i < 8 ==> roll(i) >= 0.1
    ensures IcicleFall(trig, time, roll) == []
  {
    var groups := seq(8, i requires 0 <= i < 8 => Icicle(trig, time, roll, i));
    forall i | 0 <= i < 8
      ensures groups[i] == []
    {
      var s := trig.sin(Rad(time as real * 0.001 + i as real));
      assert IciclePhase(trig, time, i) == s * 0.5 + 0.5 <= 1.0;
    }
    FlattenLength(groups, 0);
  }

  // ---------------------------------------------------------------- perfectFreeze

  /** perfectFreeze(bm, x, y, time). */
  function PerfectFreeze(trig: Trig, x: real, y: real, time: nat): seq<Shot> {
    if !InWindow(time, 500) then []
    else
      var t := TimeAngle(time, 0.001);
      match Phase(time, 1000, 3)
      case 0 => Circle(trig, x, y, 16, 2.0, t)
      case 1 => Circle(trig, x, y, 12, 2.5, t) + Circle(trig, x, y, 12, 1.5, t.Plus(Turn(1.0 / 24.0)))
      case _ => Flower(trig, x, y, 6, 2.0, t)
  }

  /** Perfect freeze fires only in the first 50 ms of every 500; in second
      floor(time / 1000) % 3 = 0, 1, 2 it fires 16, 24 (two rings of 12) and
      30 (a 6-petal flower) bullets. */
  lemma PerfectFreezeCount(trig: Trig, x: real, y: real, time: nat)
    ensures var r := PerfectFreeze(trig, x, y, time);
      (!InWindow(time, 500) ==> r == []) &&
      (InWindow(time, 500) && Phase(time, 1000, 3) == 0 ==> |r| == 16) &&
      (InWindow(time, 500) && Phase(time, 1000, 3) == 1 ==> |r| == 24) &&
      (InWindow(time, 500) && Phase(time, 1000, 3) == 2 ==> |r| == 30)
  {
  }

  /** In phase 1 the second ring of 12 is the first ring turned by pi/12 and
      slowed from 2.5 to 1.5. */
  lemma PerfectFreezeDoubleRing(trig: Trig, x: real, y: real, time: nat, i: int)
    requires InWindow(time, 500) && Phase(time, 1000, 3) == 1 && 0 <= i < 12
    ensures var r := PerfectFreeze(trig, x, y, time);
      |r| == 24 &&
      r[i] == Toward(trig, x, y, Angle(i as real / 12.0, time as real * 0.001), 2.5) &&
      r[12 + i] == Toward(trig, x, y, Angle(i as real / 12.0 + 1.0 / 24.0, time as real * 0.001), 1.5)
  {
  }

  // ---------------------------------------------------------------- rainbowLotus

  /** The angle of lotus petal i: 2*pi*i/8 + time * 0.001. */
  function LotusAngle(time: nat, i: int): Angle {
    Turn(i as real / 8.0).Plus(TimeAngle(time, 0.001))
  }

  /** The three shots of one layer: 0.2 rad left of, along, and 0.2 rad right
      of the petal angle, all at 1.5 + 0.5 * layer. */
  function LotusLayer(trig: Trig, x: real, y: real, time: nat, i: int, layer: int): (r: seq<Shot>)
    ensures |r| == 3
  {
    var a := LotusAngle(time, i);
    var speed := 1.5 + layer as real * 0.5;
    [Toward(trig, x, y, a.Plus(Rad(-0.2)), speed), Toward(trig, x, y, a, speed), Toward(trig, x, y, a.Plus(Rad(0.2)), speed)]
  }

  /** The three layers of petal i. */
  function LotusPetal(trig: Trig, x: real, y: real, time: nat, i: int): (r: seq<Shot>)
    ensures |r| == 9
  {
    var groups := seq(3, layer requires 0 <= layer < 3 => LotusLayer(trig, x, y, time, i, layer));
    FlattenLength(groups, 3);
    Flatten(groups)
  }

  /** rainbowLotus(bm, x, y, time). */
  function RainbowLotus(trig: Trig, x: real, y: real, time: nat): (r: seq<Shot>)
    ensures |r| == if InWindow(time, 800) then 72 else 0
  {
    if !InWindow(time, 800) then []
    else
      var groups := seq(8, i requires 0 <= i < 8 => LotusPetal(trig, x, y, time, i));
      FlattenLength(groups, 9);
      Flatten(groups)
  }

  /** Inside its window, bullet 9i + 3 * layer + s of the lotus flies from
      (x, y) at 1.5 + 0.5 * layer along petal i's angle turned by
      (s - 1) * 0.2. */
  lemma RainbowLotusShot(trig: Trig, x: real, y: real, time: nat, i: int, layer: int, s: int)
    requires InWindow(time, 800)
    requires 0 <= i < 8 && 0 <= layer < 3 && 0 <= s < 3
    ensures var r := RainbowLotus(trig, x, y, time);
      9 * i + 3 * layer + s < |r| &&
      r[9 * i + 3 * layer + s] ==
        Toward(trig, x, y, LotusAngle(time, i).Plus(Rad((s - 1) as real * 0.2)), 1.5 + 0.5 * layer as real)
  {
    var layers := seq(3, l requires 0 <= l < 3 => LotusLayer(trig, x, y, time, i, l));
    FlattenBlock(layers, 3, layer, s);
    var petals := seq(8, p requires 0 <= p < 8 => LotusPetal(trig, x, y, time, p));
    FlattenBlock(petals, 9, i, 3 * layer + s);
    var a := LotusAngle(time, i);
    assert a == a.Plus(Rad(0.0));
  }

  // ---------------------------------------------------------------- tigerDragon

  /** The angle of dragon arm i: 2*pi*i/4 + time * 0.002. */
  function ArmAngle(time: nat, i: int): Angle {
    Turn(i as real / 4.0).Plus(TimeAngle(time, 0.002))
  }

  /** Bullet j of arm i: spawned 10j along the arm, flying a turn of pi/4 past it at 2.5. */
  function DragonShot(trig: Trig, x: real, y: real, time: nat, i: int, j: int): Shot {
    var spawn := Along(trig, x, y, ArmAngle(time, i), j as real * 10.0);
    Toward(trig, spawn.0, spawn.1, ArmAngle(time, i).Plus(Turn(1.0 / 8.0)), 2.5)
  }

  /** tigerDragon(bm, x, y, time). */
  function TigerDragon(trig: Trig, x: real, y: real, time: nat): (r: seq<Shot>)
    ensures |r| == if InWindow(time, 200) then 20 else 0
  {
    if !InWindow(time, 200) then []
    else
      var groups := seq(4, i requires 0 <= i < 4 => seq(5, j requires 0 <= j < 5 => DragonShot(trig, x, y, time, i, j)));
      FlattenLength(groups, 5);
      Flatten(groups)
  }

  /** Inside its window, bullet 5i + j of the dragon starts 10j along arm i
      (the first at the centre) and flies at the arm's angle plus pi/4, speed 2.5. */
  lemma TigerDragonShot(trig: Trig, x: real, y: real, time: nat, i: int, j: int)
    requires InWindow(time, 200) && 0 <= i < 4 && 0 <= j < 5
    ensures var r := TigerDragon(trig, x, y, time);
      5 * i + j < |r| &&
      (r[5 * i + j].x, r[5 * i + j].y) == Along(trig, x, y, ArmAngle(time, i), j as real * 10.0) &&
      (j == 0 ==> r[5 * i + j].x == x && r[5 * i + j].y == y) &&
      r[5 * i + j].dirX == trig.cos(ArmAngle(time, i).Plus(Turn(1.0 / 8.0))) &&
      r[5 * i + j].dirY == trig.sin(ArmAngle(time, i).Plus(Turn(1.0 / 8.0))) &&
      r[5 * i + j].speed == 2.5
  {
    var groups := seq(4, i requires 0 <= i < 4 => seq(5, j requires 0 <= j < 5 => DragonShot(trig, x, y, time, i, j)));
    FlattenBlock(groups, 5, i, j);
    if j == 0 {
      AlongZero(trig, x, y, ArmAngle(time, i));
    }
  }

  // ---------------------------------------------------------------- fiveElements

  /** fiveElements(bm, x, y, time). */
  function FiveElements(trig: Trig, x: real, y: real, time: nat): seq<Shot> {
    if !InWindow(time, 600) then []
    else
      match Phase(time, 2000, 5)
      case 0 => Spiral(trig, x, y, 5, 3.0, TimeAngle(time, 0.003))
      case 1 => Wave(trig, x, y, 10, 0.3, 0.5, 2.0, Turn(0.25))
      case 2 => Flower(trig, x, y, 5, 2.5, TimeAngle(time, 0.002))
      case 3 => Cross(x, y, 3.0, 3)
      case _ => Ring(trig, x, y, 3, 12, 1.5)
  }

  /** Five elements fires only in the first 50 ms of every 600; element
      floor(time / 2000) % 5 = 0..4 fires a spiral of 5, a wave of 10, a
      flower of 25, a cross of 12 and a ring of 36. */
  lemma FiveElementsCount(trig: Trig, x: real, y: real, time: nat)
    ensures var r := FiveElements(trig, x, y, time);
      var e := Phase(time, 2000, 5);
      (!InWindow(time, 600) ==> r == []) &&
      (InWindow(time, 600) ==> |r| == [5, 10, 25, 12, 36][e])
  {
  }

  // ---------------------------------------------------------------- royalFlare

  /** royalFlare(bm, x, y, time). */
  function RoyalFlare(trig: Trig, x: real, y: real, time: nat): seq<Shot> {
    if !InWindow(time, 400) then []
    else
      var rotation := TimeAngle(time, 0.002);
      Circle(trig, x, y, 16, 3.5, rotation)
      + Circle(trig, x, y, 24, 1.5, rotation.Plus(Turn(1.0 / 48.0)))
      + (if InWindow(time, 1200) then Cross(x, y, 4.0, 5) else [])
  }

  /** Every 1200 ms window lies inside a 400 ms window, because 1200 = 3 * 400. */
  lemma FlareWindowNested(time: nat)
    ensures InWindow(time, 1200) ==> InWindow(time, 400)
  {
    var q := time / 1200;
    var m := time % 1200;
    assert time == 400 * (3 * q) + m;
    if m < 400 {
      assert time % 400 == m;
    }
  }

  /** Royal flare fires 16 + 24 ring bullets in the first 50 ms of every 400,
      plus a cross of 20 in the first 50 ms of every 1200, and nothing else. */
  lemma RoyalFlareCount(trig: Trig, x: real, y: real, time: nat)
    ensures var r := RoyalFlare(trig, x, y, time);
      (!InWindow(time, 400) ==> r == []) &&
      (InWindow(time, 400) && !InWindow(time, 1200) ==> |r| == 40) &&
      (InWindow(time, 1200) ==> |r| == 60)
  {
    FlareWindowNested(time);
  }

  // ---------------------------------------------------------------- dispatch

  /** executeSpellCard(bm, spellName, x, y, time). */
  function SpellCard(trig: Trig, name: string, x: real, y: real, time: nat, roll: nat -> real): seq<Shot> {
    if name == "icicle_fall" then IcicleFall(trig, time, roll)
    else if name == "perfect_freeze" then PerfectFreeze(trig, x, y, time)
    else if name == "rainbow_lotus" then RainbowLotus(trig, x, y, time)
    else if name == "tiger_dragon" then TigerDragon(trig, x, y, time)
    else if name == "five_elements" then FiveElements(trig, x, y, time)
    else if name == "royal_flare" then RoyalFlare(trig, x, y, time)
    else Circle(trig, x, y, 12, 2.0, TimeAngle(time, 0.001))
  }

  /** The six names of the spell cards. */
  const SpellNames: set<string> :=
    {"icicle_fall", "perfect_freeze", "rainbow_lotus", "tiger_dragon", "five_elements", "royal_flare"}

  /** An unknown name fires the default circle of 12 at speed 2, rotated by
      time * 0.001, every call and without any window. */
  lemma SpellCardFallback(trig: Trig, name: string, x: real, y: real, time: nat, roll: nat -> real)
    requires name !in SpellNames
    ensures var r := SpellCard(trig, name, x, y, time, roll);
      r == Circle(trig, x, y, 12, 2.0, TimeAngle(time, 0.001)) && |r| == 12
  {
  }

  /** Every spell but icicle fall ignores the random draws. */
  lemma SpellCardDeterministic(trig: Trig, name: string, x: real, y: real, time: nat, roll1: nat -> real, roll2: nat -> real)
    requires name != "icicle_fall"
    ensures SpellCard(trig, name, x, y, time, roll1) == SpellCard(trig, name, x, y, time, roll2)
  {
  }

  /** Outside its window each gated spell fires nothing: perfect freeze
      (500), rainbow lotus (800), tiger dragon (200), five elements (600),
      royal flare (400). */
  lemma SpellCardSilent(trig: Trig, name: string, x: real, y: real, time: nat, roll: nat -> real)
    ensures name == "perfect_freeze" && !InWindow(time, 500) ==> SpellCard(trig, name, x, y, time, roll) == []
    ensures name == "rainbow_lotus" && !InWindow(time, 800) ==> SpellCard(trig, name, x, y, time, roll) == []
    ensures name == "tiger_dragon" && !InWindow(time, 200) ==> SpellCard(trig, name, x, y, time, roll) == []
    ensures name == "five_elements" && !InWindow(time, 600) ==> SpellCard(trig, name, x, y, time, roll) == []
    ensures name == "royal_flare" && !InWindow(time, 400) ==> SpellCard(trig, name, x, y, time, roll) == []
  {
  }

  /** executeSpellCard: fire the chosen spell into the bullet pool, one
      createEnemyBullet call per shot and in the spell's order. */
  method ExecuteSpellCard(bm: BulletManager.BulletManager, trig: Trig, name: string, x: real, y: real, time: nat, roll: nat -> real)
    requires bm.Valid()
    modifies bm
    ensures bm.enemyPool == BulletManager.AfterShots(old(bm.enemyPool), SpellCard(trig, name, x, y, time, roll))
    ensures bm.playerPool == old(bm.playerPool)
    ensures bm.Valid()
  {
    bm.Emit(SpellCard(trig, name, x, y, time, roll));
  }
}
