/** The fixed layout, the difficulty table and the per-entity rules of game.js
    that the tick methods of `Game.World` apply: clamps, stamina and power,
    the ball's trail, height and rest threshold, kicks, the goal mouths, the
    teammate patrol, the opponent steering, the goalkeepers' tracking, the
    referee's target and the match clock. Coordinates are reals. */
module Rules {
  import opened Js

  // ---- Layout (top-left corners unless stated) ----

  const PlayerWidth: real := 40.0
  const PlayerHeight: real := 40.0
  const Player2Speed: real := 5.0
  const TeammateWidth: real := 36.0
  const TeammateHeight: real := 36.0
  const EnemyWidth: real := 35.0
  const EnemyHeight: real := 35.0
  const BallRadius: real := 12.0
  const MaxTrailLength: nat := 8
  const GoalX: real := 175.0
  const GoalWidth: real := 150.0
  const GoalHeight: real := 50.0
  const EnemyGoalX: real := 175.0
  const EnemyGoalY: real := 540.0
  const EnemyGoalWidth: real := 150.0
  const KeeperY: real := 55.0
  const KeeperWidth: real := 50.0
  const KeeperHeight: real := 30.0
  const MyKeeperY: real := 515.0
  const MyKeeperWidth: real := 50.0
  const MyKeeperHeight: real := 30.0
  const MyKeeperSpeed: real := 2.5
  const RefereeWidth: real := 30.0
  const RefereeHeight: real := 30.0
  const MaxPower: real := 100.0
  const StaminaRegenRate: real := 0.3
  const MultiplayerMatchLength: int := 120

  /** The canvas size comes from the page; every clamp below needs a non-empty box. */
  predicate ValidCanvas(width: real, height: real)
  {
    width >= 120.0 && height >= 230.0
  }

  function Abs(x: real): real
  {
    if x < 0.0 then -x else x
  }

  /** `if (v < lo) v = lo; if (v > hi) v = hi;` */
  function Clamp(v: real, lo: real, hi: real): (r: real)
    requires lo <= hi
    ensures lo <= r <= hi
    ensures lo <= v <= hi ==> r == v
    ensures v < lo ==> r == lo
    ensures v > hi ==> r == hi
  {
    var low := if v < lo then lo else v;
    if low > hi then hi else low
  }

  // ---- Match configuration ----

  datatype Mode = Single | Multi

  datatype Difficulty = Easy | Medium | Hard

  datatype Settings = Settings(enemySpeed: real, goalkeeperSpeed: real, enemyKickPower: real, playerSpeed: real, timeLimit: int)

  /** `difficultySettings`: the three tiers. */
  function SettingsOf(d: Difficulty): (s: Settings)
    ensures s.enemySpeed > 0.0 && s.goalkeeperSpeed > 0.0 && s.enemyKickPower > 0.0
    ensures s.playerSpeed > 4.0 && s.timeLimit > 0
  {
    match d
    case Easy => Settings(1.0, 2.0, 3.0, 6.0, 90)
    case Medium => Settings(1.5, 3.0, 5.0, 5.0, 60)
    case Hard => Settings(2.5, 4.0, 7.0, 5.0, 45)
  }

  function Rank(d: Difficulty): nat
  {
    match d
    case Easy => 0
    case Medium => 1
    case Hard => 2
  }

  /** A harder tier never gives the player more time or slower opponents and keepers. */
  lemma HarderTiersAreTougher(d1: Difficulty, d2: Difficulty)
    requires Rank(d1) <= Rank(d2)
    ensures SettingsOf(d1).timeLimit >= SettingsOf(d2).timeLimit
    ensures SettingsOf(d1).enemySpeed <= SettingsOf(d2).enemySpeed
    ensures SettingsOf(d1).goalkeeperSpeed <= SettingsOf(d2).goalkeeperSpeed
    ensures SettingsOf(d1).enemyKickPower <= SettingsOf(d2).enemyKickPower
    ensures SettingsOf(d1).playerSpeed >= SettingsOf(d2).playerSpeed
  {
  }

  /** `startGame`'s time selection: a time sent by the host wins, otherwise 120 s in
      multiplayer, otherwise the tier's limit. */
  function MatchLength(d: Difficulty, mode: Mode, provided: Option<int>): (t: int)
    ensures provided.Some? ==> t == provided.value
    ensures provided.None? ==> t > 0
    ensures provided.None? && mode == Multi ==> t == MultiplayerMatchLength
    ensures provided.None? && mode == Single ==> t == SettingsOf(d).timeLimit
  {
    var fromSettings := if provided.Some? then provided.value else SettingsOf(d).timeLimit;
    if mode == Multi && provided.None? then MultiplayerMatchLength else fromSettings
  }

  datatype Weather = Weather(kind: string, wind: real)

  /** `initializeWeather` with its random draws as parameters: 70% clear, 20% rain with a
      light wind, 10% windy with a stronger wind. */
  function InitialWeather(r1: real, r2: real, r3: real): (w: Weather)
    requires 0.0 <= r1 < 1.0 && 0.0 <= r2 < 1.0 && 0.0 <= r3 < 1.0
    ensures w.kind == "clear" <==> r1 < 0.7
    ensures w.kind == "rain" <==> 0.7 <= r1 < 0.9
    ensures w.kind == "windy" <==> 0.9 <= r1
    ensures w.kind == "clear" ==> w.wind == 0.0
    ensures w.kind == "rain" ==> -0.15 <= w.wind < 0.15
    ensures w.kind == "windy" ==> 0.3 <= Abs(w.wind) < 0.6
  {
    if r1 < 0.7 then Weather("clear", 0.0)
    else if r1 < 0.9 then Weather("rain", (r2 - 0.5) * 0.3)
    else Weather("windy", (if r2 > 0.5 then 1.0 else -1.0) * (0.3 + r3 * 0.3))
  }

  // ---- Players: stamina and power ----

  /** The speed a player moves at: full speed at 100 stamina, 70% at none. */
  function StaminaSpeed(speed: real, stamina: real): real
  {
    speed * (0.7 + (stamina / 100.0) * 0.3)
  }

  /** One tick of stamina: drains by 0.15 while moving (not below 0), regenerates otherwise (not above 100). */
  function StaminaAfter(stamina: real, moving: bool): (r: real)
    ensures 0.0 <= stamina <= 100.0 ==> 0.0 <= r <= 100.0
    ensures moving && stamina >= 0.0 ==> r <= stamina
    ensures !moving && stamina <= 100.0 ==> r >= stamina
    ensures moving && stamina >= 0.15 ==> r == stamina - 0.15
    ensures !moving && stamina <= 100.0 - StaminaRegenRate ==> r == stamina + StaminaRegenRate
  {
    if moving then
      var s := stamina - 0.15;
      if s < 0.0 then 0.0 else s
    else
      var s := stamina + StaminaRegenRate;
      if s > 100.0 then 100.0 else s
  }

  /** One tick of power charging: +2 while the charge key is held, capped at `MaxPower`. */
  function Charged(power: real, charging: bool): (r: real)
    ensures r >= power
    ensures 0.0 <= power <= MaxPower ==> 0.0 <= r <= MaxPower
    ensures !charging || power >= MaxPower ==> r == power
    ensures charging && power < MaxPower ==> r > power
  {
    if charging && power < MaxPower then
      var p := power + 2.0;
      if p > MaxPower then MaxPower else p
    else power
  }

  function DistSq(x1: real, y1: real, x2: real, y2: real): (d: real)
    ensures d >= 0.0
  {
    (x2 - x1) * (x2 - x1) + (y2 - y1) * (y2 - y1)
  }

  // ---- Ball ----

  datatype TrailPoint = TrailPoint(x: real, y: real, alpha: real)

  /** The trail keeps at most `MaxTrailLength` points, each still visible. */
  predicate TrailOk(trail: seq<TrailPoint>)
  {
    |trail| <= MaxTrailLength && forall i :: 0 <= i < |trail| ==> 0.0 < trail[i].alpha <= 1.0
  }

  /** `ballTrail.filter(p => p.alpha > 0)`. */
  function Visible(trail: seq<TrailPoint>): (r: seq<TrailPoint>)
    ensures |r| <= |trail|
  {
    if trail == [] then []
    else if trail[0].alpha > 0.0 then [trail[0]] + Visible(trail[1..])
    else Visible(trail[1..])
  }

  /** Every point the filter keeps is visible and comes from the trail. */
  lemma {:induction false} VisibleKeepsOnlyVisible(trail: seq<TrailPoint>)
    ensures forall i :: 0 <= i < |Visible(trail)| ==> Visible(trail)[i].alpha > 0.0 && Visible(trail)[i] in trail
  {
    if trail != [] {
      VisibleKeepsOnlyVisible(trail[1..]);
      assert forall p :: p in trail[1..] ==> p in trail;
    }
  }

  /** Every visible point of the trail is kept by the filter. */
  lemma {:induction false} VisibleKeepsAllVisible(trail: seq<TrailPoint>)
    ensures forall p :: p in trail && p.alpha > 0.0 ==> p in Visible(trail)
  {
    if trail != [] {
      VisibleKeepsAllVisible(trail[1..]);
      assert forall p :: p in trail ==> p == trail[0] || p in trail[1..];
    }
  }

  /** A fully visible trail passes the filter unchanged. */
  lemma {:induction false} VisibleOfVisibleTrail(trail: seq<TrailPoint>)
    requires forall i :: 0 <= i < |trail| ==> trail[i].alpha > 0.0
    ensures Visible(trail) == trail
  {
    if trail != [] {
      VisibleOfVisibleTrail(trail[1..]);
      assert [trail[0]] + trail[1..] == trail;
    }
  }

  /** The trail before fading: the ball's position appended at full alpha when the ball moves
      faster than 3, then the oldest point dropped once there are more than `MaxTrailLength`. */
  function TrailPushed(trail: seq<TrailPoint>, fast: bool, x: real, y: real): (r: seq<TrailPoint>)
    ensures !fast ==> r == trail
    ensures fast ==> |r| > 0 && r[|r| - 1] == TrailPoint(x, y, 1.0)
    ensures fast ==> r == (if |trail| >= MaxTrailLength then trail[1..] else trail) + [TrailPoint(x, y, 1.0)]
    ensures TrailOk(trail) ==> TrailOk(r)
  {
    if !fast then trail
    else
      var t := trail + [TrailPoint(x, y, 1.0)];
      if |t| > MaxTrailLength then t[1..] else t
  }

  /** The fade loop: every point's alpha lowered by 0.12, positions kept. */
  function Faded(trail: seq<TrailPoint>): (r: seq<TrailPoint>)
    ensures |r| == |trail|
    ensures forall i :: 0 <= i < |r| ==> r[i] == trail[i].(alpha := trail[i].alpha - 0.12)
  {
    if trail == [] then [] else [trail[0].(alpha := trail[0].alpha - 0.12)] + Faded(trail[1..])
  }

  /** One tick of the trail: push, fade, drop the invisible points. */
  function TrailStep(trail: seq<TrailPoint>, fast: bool, x: real, y: real): seq<TrailPoint>
  {
    Visible(Faded(TrailPushed(trail, fast, x, y)))
  }

  lemma {:induction false} VisibleAppend(s: seq<TrailPoint>, p: TrailPoint)
    requires p.alpha > 0.0
    ensures Visible(s + [p]) == Visible(s) + [p]
  {
    if s == [] {
      assert Visible([p]) == [p] + Visible([]);
    } else {
      var sp := s + [p];
      assert sp[0] == s[0] && sp[1..] == s[1..] + [p];
      VisibleAppend(s[1..], p);
      if s[0].alpha > 0.0 {
        calc {
          Visible(sp);
          [s[0]] + Visible(s[1..] + [p]);
          [s[0]] + (Visible(s[1..]) + [p]);
          ([s[0]] + Visible(s[1..])) + [p];
          Visible(s) + [p];
        }
      } else {
        calc {
          Visible(sp);
          Visible(s[1..] + [p]);
          Visible(s[1..]) + [p];
          Visible(s) + [p];
        }
      }
    }
  }

  /** A tick keeps the trail within `MaxTrailLength` visible points. */
  lemma {:induction false} TrailStepKeepsTrailOk(trail: seq<TrailPoint>, fast: bool, x: real, y: real)
    requires TrailOk(trail)
    ensures TrailOk(TrailStep(trail, fast, x, y))
  {
    var pushed := TrailPushed(trail, fast, x, y);
    var faded := Faded(pushed);
    var r := Visible(faded);
    VisibleKeepsOnlyVisible(faded);
    forall i | 0 <= i < |r|
      ensures r[i].alpha <= 1.0
    {
      var j :| 0 <= j < |faded| && faded[j] == r[i];
      assert pushed[j].alpha <= 1.0;
    }
  }

  /** After a tick of a ball faster than 3, the newest trail point is the ball's previous
      position, already faded once. */
  lemma {:induction false} TrailStepEndsAtBall(trail: seq<TrailPoint>, x: real, y: real)
    ensures var r := TrailStep(trail, true, x, y);
            |r| > 0 && r[|r| - 1] == TrailPoint(x, y, 0.88)
  {
    var pushed := TrailPushed(trail, true, x, y);
    var n := |pushed| - 1;
    var front := Faded(pushed[..n]);
    assert pushed == pushed[..n] + [pushed[n]];
    FadedAppend(pushed[..n], pushed[n]);
    VisibleAppend(front, TrailPoint(x, y, 0.88));
  }

  lemma FadedAppend(s: seq<TrailPoint>, p: TrailPoint)
    ensures Faded(s + [p]) == Faded(s) + [p.(alpha := p.alpha - 0.12)]
  {
    assert |Faded(s + [p])| == |Faded(s) + [p.(alpha := p.alpha - 0.12)]|;
    forall i | 0 <= i < |s| + 1
      ensures Faded(s + [p])[i] == (Faded(s) + [p.(alpha := p.alpha - 0.12)])[i]
    {
    }
  }

  /** One tick of the ball's height: gravity pulls 0.5 a tick; on reaching the ground the
      ball rebounds with half its vertical speed, and a rebound slower than 1 dies out. */
  function HeightStep(h: real, v: real): (r: (real, real))
    ensures h >= 0.0 ==> r.0 >= 0.0
    ensures h <= 0.0 && v == 0.0 ==> r == (h, v)
    ensures (h > 0.0 || v != 0.0) && h + v - 0.5 > 0.0 ==> r == (h + v - 0.5, v - 0.5)
    ensures (h > 0.0 || v != 0.0) && h + v - 0.5 <= 0.0 ==>
              r.0 == 0.0 && (r.1 == 0.0 || Abs(r.1) >= 1.0) && Abs(r.1) <= Abs(v - 0.5) / 2.0
    ensures (h > 0.0 || v != 0.0) && h + v - 0.5 <= 0.0 && h >= 0.0 ==> r.1 >= 0.0
    ensures (h > 0.0 || v != 0.0) && h + v - 0.5 <= 0.0 && Abs(-(v - 0.5) * 0.5) >= 1.0 ==>
              r.1 == -(v - 0.5) * 0.5
    ensures (h > 0.0 || v != 0.0) && h + v - 0.5 <= 0.0 && Abs(-(v - 0.5) * 0.5) < 1.0 ==>
              r.1 == 0.0
  {
    if h > 0.0 || v != 0.0 then
      var v1 := v - 0.5;
      var h1 := h + v1;
      if h1 <= 0.0 then
        var bounce := -v1 * 0.5;
        (0.0, if Abs(bounce) < 1.0 then 0.0 else bounce)
      else (h1, v1)
    else (h, v)
  }

  /** A speed component is either zero or at least 0.1 in magnitude. */
  predicate RestOk(v: real)
  {
    v == 0.0 || Abs(v) >= 0.1
  }

  /** The rest threshold: a component slower than 0.1 stops. */
  function SnapToRest(v: real): (r: real)
    ensures RestOk(r)
    ensures r == 0.0 || r == v
    ensures Abs(v) >= 0.1 ==> r == v
  {
    if Abs(v) < 0.1 then 0.0 else v
  }

  /** Grass friction (0.975) on the ground, air friction (0.995) in flight: never speeds the ball up. */
  function Friction(v: real, airborne: bool): (r: real)
    ensures Abs(r) <= Abs(v)
    ensures v > 0.0 ==> r > 0.0
    ensures v < 0.0 ==> r < 0.0
  {
    v * (if airborne then 0.995 else 0.975)
  }

  /** The new horizontal speed of a moving ball: friction, then the curve from spin and the
      push of the wind, then the rest threshold. It grows by at most the curve and the wind. */
  function Drift(v: real, airborne: bool, spin: real, wind: real): (r: real)
    ensures RestOk(r)
    ensures Abs(r) <= Abs(v) + Abs(spin) * 0.02 + Abs(wind)
  {
    SnapToRest(Friction(v, airborne) + spin * 0.02 + wind)
  }

  // ---- Goal mouths ----

  /** The top wall has a gap over the closed range [goalX, goalX+goalWidth]. */
  predicate InTopMouth(x: real)
  {
    !(x < GoalX || x > GoalX + GoalWidth)
  }

  /** The bottom wall has a gap over the closed range [enemyGoalX, enemyGoalX+enemyGoalWidth]. */
  predicate InBottomMouth(x: real)
  {
    !(x < EnemyGoalX || x > EnemyGoalX + EnemyGoalWidth)
  }

  /** The end walls of `moveBall`, for a ball at `x` (after the side walls): past the bottom or
      the top line the ball is put back on the line and its vertical speed reversed, unless it
      is in that end's goal mouth, where it keeps going. */
  function EndWalls(x: real, y: real, vy: real, height: real): (r: (real, real))
    requires height >= 2.0 * BallRadius
    ensures r == (y, vy) <==>
              BallRadius <= y <= height - BallRadius ||
              (y < BallRadius && InTopMouth(x)) || (y > height - BallRadius && InBottomMouth(x))
    ensures y < BallRadius && !InTopMouth(x) ==> r == (BallRadius, -vy)
    ensures y > height - BallRadius && !InBottomMouth(x) ==> r == (height - BallRadius, -vy)
    ensures r.0 < BallRadius ==> InTopMouth(x)
    ensures r.0 > height - BallRadius ==> InBottomMouth(x)
  {
    if y > height - BallRadius && !InBottomMouth(x) then (height - BallRadius, -vy)
    else if y < BallRadius && !InTopMouth(x) then (BallRadius, -vy)
    else (y, vy)
  }

  /** The blue side scores when the ball is above `goalHeight` strictly between the posts. */
  predicate TopGoal(x: real, y: real)
  {
    y < GoalHeight && x > GoalX && x < GoalX + GoalWidth
  }

  /** The red side scores when the ball is below `enemyGoalY` strictly between the posts. */
  predicate BottomGoal(x: real, y: real)
  {
    y > EnemyGoalY && x > EnemyGoalX && x < EnemyGoalX + EnemyGoalWidth
  }

  /** The goal test uses the open interval and the wall gap the closed one: a ball exactly
      on a post line is let through the wall but never counted as a goal. */
  lemma PostLineNeitherBouncesNorScores(y: real)
    ensures InTopMouth(GoalX) && !TopGoal(GoalX, y)
    ensures InTopMouth(GoalX + GoalWidth) && !TopGoal(GoalX + GoalWidth, y)
    ensures InBottomMouth(EnemyGoalX) && !BottomGoal(EnemyGoalX, y)
    ensures InBottomMouth(EnemyGoalX + EnemyGoalWidth) && !BottomGoal(EnemyGoalX + EnemyGoalWidth, y)
  {
  }

  /** The two goal tests never hold together, and the centre spot satisfies neither. */
  lemma GoalsAreExclusive(x: real, y: real)
    ensures !(TopGoal(x, y) && BottomGoal(x, y))
    ensures !TopGoal(250.0, 300.0) && !BottomGoal(250.0, 300.0)
  {
  }

  // ---- Kicks ----

  datatype Velocity = Velocity(x: real, y: real)

  /** The kick factor: 0.3 for a normal kick, 0.4 + power/150 for a power shot. */
  function KickFactor(isPowerShot: bool, power: real): real
  {
    if isPowerShot then 0.4 + power / 150.0 else 0.3
  }

  /** A kick is weak when both components of `offset * factor` are under 3. */
  predicate WeakKick(isPowerShot: bool, dx: real, dy: real, power: real)
  {
    var k := KickFactor(isPowerShot, power);
    Abs(dx * k) < 3.0 && Abs(dy * k) < 3.0
  }

  /** `kickBall`'s velocity from the kicker-to-ball offset (dx, dy): along the offset, a weak kick
      replaced by a straight upward one, a power shot then multiplied by 1.5. */
  function KickVelocity(isPowerShot: bool, dx: real, dy: real, power: real): (v: Velocity)
    ensures WeakKick(isPowerShot, dx, dy, power) ==> v.y == (if isPowerShot then -18.0 else -8.0)
  {
    var k := KickFactor(isPowerShot, power);
    var vx := dx * k;
    var vy := if Abs(dx * k) < 3.0 && Abs(dy * k) < 3.0 then (if isPowerShot then -12.0 else -8.0) else dy * k;
    if isPowerShot then Velocity(vx * 1.5, vy * 1.5) else Velocity(vx, vy)
  }

  /** A kick that is not weak sends the ball along the offset: each component of the velocity
      has the sign of the offset's component. */
  lemma {:induction false} KickFollowsOffset(isPowerShot: bool, dx: real, dy: real, power: real)
    requires !WeakKick(isPowerShot, dx, dy, power) && KickFactor(isPowerShot, power) > 0.0
    ensures var v := KickVelocity(isPowerShot, dx, dy, power);
            (dx > 0.0 <==> v.x > 0.0) && (dx < 0.0 <==> v.x < 0.0) &&
            (dy > 0.0 <==> v.y > 0.0) && (dy < 0.0 <==> v.y < 0.0)
  {
    var k := KickFactor(isPowerShot, power);
    ScalingKeepsSign(dx, k);
    ScalingKeepsSign(dy, k);
  }

  /** Away from the weak-kick case, a power shot is the normal kick scaled by 1.5 * k / 0.3,
      which is at least 2 for any non-negative power. */
  lemma {:induction false} PowerShotScalesNormalKick(dx: real, dy: real, power: real)
    requires power >= 0.0
    requires !WeakKick(false, dx, dy, power)
    ensures !WeakKick(true, dx, dy, power)
    ensures var ratio := 5.0 * KickFactor(true, power);
            ratio >= 2.0 &&
            KickVelocity(true, dx, dy, power) == Velocity(ratio * KickVelocity(false, dx, dy, power).x,
                                                          ratio * KickVelocity(false, dx, dy, power).y)
  {
    var k := KickFactor(true, power);
    ScalingGrowsMagnitude(dx, 0.3, k);
    ScalingGrowsMagnitude(dy, 0.3, k);
    var normal := KickVelocity(false, dx, dy, power);
    var shot := KickVelocity(true, dx, dy, power);
    assert normal == Velocity(dx * 0.3, dy * 0.3);
    assert shot == Velocity(dx * k * 1.5, dy * k * 1.5);
    assert 5.0 * k * (dx * 0.3) == dx * k * 1.5;
    assert 5.0 * k * (dy * 0.3) == dy * k * 1.5;
  }

  /** Scaling by a positive factor keeps the sign. */
  lemma ScalingKeepsSign(a: real, k: real)
    requires k > 0.0
    ensures (a > 0.0 <==> a * k > 0.0) && (a < 0.0 <==> a * k < 0.0)
  {
    if a > 0.0 {
      MulPositive(a, k);
    } else if a < 0.0 {
      MulPositive(-a, k);
    }
  }

  lemma MulPositive(a: real, b: real)
    requires a > 0.0 && b > 0.0
    ensures a * b > 0.0
  {
  }

  lemma ScalingGrowsMagnitude(a: real, k1: real, k2: real)
    requires 0.0 <= k1 <= k2
    ensures Abs(a * k1) <= Abs(a * k2)
  {
    if a >= 0.0 {
      assert a * k1 <= a * k2;
    } else {
      assert a * k1 >= a * k2;
    }
  }

  /** Near the weak-kick boundary a power shot can be slower than a normal kick, and even go the
      other way: 9 below the kicker's centre with power 21, the normal kick is sent up at 8 while
      the power shot goes down at 7.29. */
  lemma PowerShotCanBeSlower()
    ensures KickVelocity(false, 0.0, 9.0, 21.0) == Velocity(0.0, -8.0)
    ensures KickVelocity(true, 0.0, 9.0, 21.0) == Velocity(0.0, 7.29)
  {
  }

  /** Spin of a kick from the draw r in [0,1): within ±0.25 for a power shot, ±0.1 otherwise. */
  function KickSpin(isPowerShot: bool, r: real): (s: real)
    requires 0.0 <= r < 1.0
    ensures isPowerShot ==> -0.25 <= s < 0.25
    ensures !isPowerShot ==> -0.1 <= s < 0.1
  {
    (r - 0.5) * (if isPowerShot then 0.5 else 0.2)
  }

  /** The lift of a kick: a power shot rises at 4 + power/30, a normal kick hops at 2. */
  function KickLift(isPowerShot: bool, power: real): (v: real)
    ensures power >= 0.0 ==> v >= 2.0
    ensures isPowerShot && power >= 0.0 ==> v >= 4.0
  {
    if isPowerShot then 4.0 + power / 30.0 else 2.0
  }

  /** A teammate's pass from draws r1, r2 in [0,1): always upfield at 6 to 9, sideways under 2. */
  function TeammatePass(r1: real, r2: real): (v: Velocity)
    requires 0.0 <= r1 < 1.0 && 0.0 <= r2 < 1.0
    ensures -9.0 < v.y <= -6.0
    ensures -2.0 <= v.x < 2.0
  {
    Velocity((r2 - 0.5) * 4.0, -6.0 - r1 * 3.0)
  }

  /** An opponent's clearance from draws r1, r2 in [0,1): always downfield at the tier's kick
      power plus less than 3, sideways under 2. */
  function EnemyClearance(kickPower: real, r1: real, r2: real): (v: Velocity)
    requires 0.0 <= r1 < 1.0 && 0.0 <= r2 < 1.0
    ensures kickPower <= v.y < kickPower + 3.0
    ensures -2.0 <= v.x < 2.0
  {
    Velocity((r2 - 0.5) * 4.0, kickPower + r1 * 3.0)
  }

  /** On the medium tier an opponent's clearance leaves downward at a speed in [5, 8). */
  lemma MediumClearanceRange(r1: real, r2: real)
    requires 0.0 <= r1 < 1.0 && 0.0 <= r2 < 1.0
    ensures 5.0 <= EnemyClearance(SettingsOf(Medium).enemyKickPower, r1, r2).y < 8.0
  {
  }

  /** The top goalkeeper's save: the ball leaves downward (away from the top goal) at least at 2,
      with a sideways push proportional to its offset from the keeper's centre. */
  function KeeperSave(ballX: real, ballSpeedY: real, keeperX: real): (v: Velocity)
    ensures v.y >= 2.0 && v.y >= Abs(ballSpeedY)
    ensures ballX > keeperX + KeeperWidth / 2.0 <==> v.x > 0.0
  {
    Velocity((ballX - (keeperX + KeeperWidth / 2.0)) * 0.3, Abs(ballSpeedY) + 2.0)
  }

  /** The bottom goalkeeper's save: the ball leaves upward (away from the bottom goal) at least at 3. */
  function MyKeeperSave(ballX: real, ballSpeedY: real, keeperX: real): (v: Velocity)
    ensures v.y <= -3.0 && -v.y >= Abs(ballSpeedY)
    ensures ballX > keeperX + MyKeeperWidth / 2.0 <==> v.x > 0.0
  {
    Velocity((ballX - (keeperX + MyKeeperWidth / 2.0)) * 0.3, -Abs(ballSpeedY) - 3.0)
  }

  // ---- Teammates ----

  datatype Mate = Mate(x: real, y: real, speedX: real, speedY: real, baseX: real, baseY: real)

  /** One patrol step of a non-controlled teammate: move, then reflect off the soft walls
      40 from the sides and 80 from the ends. */
  function Patrol(m: Mate, width: real, height: real): (r: Mate)
    requires ValidCanvas(width, height)
    ensures 40.0 <= r.x <= width - TeammateWidth - 40.0
    ensures 80.0 <= r.y <= height - TeammateHeight - 80.0
    ensures r.baseX == m.baseX && r.baseY == m.baseY
    ensures Abs(r.speedX) == Abs(m.speedX) && Abs(r.speedY) == Abs(m.speedY)
    ensures 40.0 <= m.x + m.speedX <= width - TeammateWidth - 40.0 ==> r.x == m.x + m.speedX && r.speedX == m.speedX
    ensures 80.0 <= m.y + m.speedY <= height - TeammateHeight - 80.0 ==> r.y == m.y + m.speedY && r.speedY == m.speedY
  {
    var x := m.x + m.speedX;
    var y := m.y + m.speedY;
    var sx := if x < 40.0 then -m.speedX else m.speedX;
    var x1 := if x < 40.0 then 40.0 else x;
    var hiX := width - TeammateWidth - 40.0;
    var sx1 := if x1 > hiX then -sx else sx;
    var x2 := if x1 > hiX then hiX else x1;
    var sy := if y < 80.0 then -m.speedY else m.speedY;
    var y1 := if y < 80.0 then 80.0 else y;
    var hiY := height - TeammateHeight - 80.0;
    var sy1 := if y1 > hiY then -sy else sy;
    var y2 := if y1 > hiY then hiY else y1;
    Mate(x2, y2, sx1, sy1, m.baseX, m.baseY)
  }

  /** The fixed kick-off layout of the five teammates (positions and patrol anchors). */
  function KickoffMate(i: nat, m: Mate): (r: Mate)
    requires i < 5
    ensures r.speedX == m.speedX && r.speedY == m.speedY
    ensures r.x == r.baseX && r.y == r.baseY
  {
    var xs := [100.0, 350.0, 230.0, 80.0, 380.0];
    var ys := [320.0, 320.0, 180.0, 420.0, 420.0];
    m.(x := xs[i], y := ys[i], baseX := xs[i], baseY := ys[i])
  }

  // ---- Opponents ----

  datatype Enemy = Enemy(x: real, y: real, speedX: real, speedY: real)

  /** A wander component drawn from [0, 1) stays within ±baseSpeed. */
  lemma WanderBound(w: real, baseSpeed: real)
    requires 0.0 <= w < 1.0 && baseSpeed >= 0.0
    ensures Abs((w - 0.5) * baseSpeed * 2.0) <= baseSpeed
  {
    var t := (w - 0.5) * 2.0;
    assert (w - 0.5) * baseSpeed * 2.0 == t * baseSpeed;
    MulNonneg(1.0 - t, baseSpeed);
    assert (1.0 - t) * baseSpeed == baseSpeed - t * baseSpeed;
    MulNonneg(1.0 + t, baseSpeed);
    assert (1.0 + t) * baseSpeed == baseSpeed + t * baseSpeed;
  }

  lemma MulNonneg(a: real, b: real)
    requires a >= 0.0 && b >= 0.0
    ensures a * b >= 0.0
  {
  }

  /** What the model needs of `Math.sqrt(a * a + b * b)`, the Euclidean length `norm` stands
      for: it is never negative and is zero only at the origin. */
  ghost predicate IsLength(norm: (real, real) -> real)
  {
    forall a, b :: norm(a, b) >= 0.0 && (norm(a, b) == 0.0 <==> a == 0.0 && b == 0.0)
  }

  /** Dividing by a positive length and scaling by a positive speed keeps the sign. */
  lemma ChaseKeepsSign(a: real, dist: real, speed: real)
    ensures dist > 0.0 && speed > 0.0 ==>
              ((a / dist) * speed > 0.0 <==> a > 0.0) && ((a / dist) * speed < 0.0 <==> a < 0.0)
  {
    if dist > 0.0 && speed > 0.0 {
      assert a / dist * dist == a;
      ScalingKeepsSign(a / dist, dist);
      ScalingKeepsSign(a / dist, speed);
    }
  }

  /** `moveEnemies` chases when the ball is less than 200 away; the test is made here on the
      squared length, which is the same test for a non-negative length. */
  predicate InChaseRange(dx: real, dy: real)
  {
    dx * dx + dy * dy < 40000.0
  }

  /** The opponent's steering: in chase range it runs at 80% of the tier speed along
      (dx, dy)/dist, so each speed component has the sign of the offset to the ball; farther
      away its speed decays by 2% and, when the roll is under 0.02, is replaced by a random
      wander velocity within ±baseSpeed. `dist` is the length of (dx, dy), computed by the
      caller; on the ball itself (dist 0) the opponent stands still. */
  function Steer(e: Enemy, dx: real, dy: real, dist: real, baseSpeed: real, roll: real, wx: real, wy: real): (r: Enemy)
    requires 0.0 <= roll < 1.0 && 0.0 <= wx < 1.0 && 0.0 <= wy < 1.0 && baseSpeed >= 0.0
    ensures r.x == e.x && r.y == e.y
    ensures InChaseRange(dx, dy) && dist > 0.0 && baseSpeed > 0.0 ==>
              (r.speedX > 0.0 <==> dx > 0.0) && (r.speedX < 0.0 <==> dx < 0.0) &&
              (r.speedY > 0.0 <==> dy > 0.0) && (r.speedY < 0.0 <==> dy < 0.0)
    ensures InChaseRange(dx, dy) && dist == 0.0 ==> r.speedX == 0.0 && r.speedY == 0.0
    ensures !InChaseRange(dx, dy) && roll >= 0.02 ==> r.speedX == e.speedX * 0.98 && r.speedY == e.speedY * 0.98
    ensures !InChaseRange(dx, dy) && roll < 0.02 ==> Abs(r.speedX) <= baseSpeed && Abs(r.speedY) <= baseSpeed
  {
    if InChaseRange(dx, dy) then
      var chase := baseSpeed * 0.8;
      if dist == 0.0 then e.(speedX := 0.0, speedY := 0.0)
      else
        ChaseKeepsSign(dx, dist, chase);
        ChaseKeepsSign(dy, dist, chase);
        e.(speedX := (dx / dist) * chase, speedY := (dy / dist) * chase)
    else if roll < 0.02 then
      WanderBound(wx, baseSpeed);
      WanderBound(wy, baseSpeed);
      e.(speedX := (wx - 0.5) * baseSpeed * 2.0, speedY := (wy - 0.5) * baseSpeed * 2.0)
    else
      e.(speedX := e.speedX * 0.98, speedY := e.speedY * 0.98)
  }

  /** An opponent's move: step by its speed, then reflect off the walls 10 from the sides,
      80 from the top and 60 from the bottom. */
  function EnemyMove(e: Enemy, width: real, height: real): (r: Enemy)
    requires ValidCanvas(width, height)
    ensures 10.0 <= r.x <= width - EnemyWidth - 10.0
    ensures 80.0 <= r.y <= height - EnemyHeight - 60.0
    ensures Abs(r.speedX) == Abs(e.speedX) && Abs(r.speedY) == Abs(e.speedY)
    ensures 10.0 < r.x < width - EnemyWidth - 10.0 ==> r.speedX == e.speedX
    ensures 80.0 < r.y < height - EnemyHeight - 60.0 ==> r.speedY == e.speedY
  {
    var x := e.x + e.speedX;
    var y := e.y + e.speedY;
    var sx := if x < 10.0 then -e.speedX else e.speedX;
    var x1 := if x < 10.0 then 10.0 else x;
    var hiX := width - EnemyWidth - 10.0;
    var sx1 := if x1 > hiX then -sx else sx;
    var x2 := if x1 > hiX then hiX else x1;
    var sy := if y < 80.0 then -e.speedY else e.speedY;
    var y1 := if y < 80.0 then 80.0 else y;
    var hiY := height - EnemyHeight - 60.0;
    var sy1 := if y1 > hiY then -sy else sy;
    var y2 := if y1 > hiY then hiY else y1;
    Enemy(x2, y2, sx1, sy1)
  }

  /** `startGame`'s speed reset: each component takes the tier's magnitude, keeping a positive
      sign and turning zero or negative into negative. */
  function TierSpeed(e: Enemy, speed: real): (r: Enemy)
    ensures r.x == e.x && r.y == e.y
    ensures e.speedX > 0.0 ==> r.speedX == speed
    ensures e.speedX <= 0.0 ==> r.speedX == -speed
    ensures e.speedY > 0.0 ==> r.speedY == speed
    ensures e.speedY <= 0.0 ==> r.speedY == -speed
  {
    e.(speedX := if e.speedX > 0.0 then speed else -speed, speedY := if e.speedY > 0.0 then speed else -speed)
  }

  /** The ball at (px, py) overlaps the w-by-h box at (x, y) widened by the ball's radius on
      every side: the contact test the ball collisions share. */
  predicate BallOnBox(px: real, py: real, x: real, y: real, w: real, h: real)
  {
    px > x - BallRadius && px < x + w + BallRadius && py > y - BallRadius && py < y + h + BallRadius
  }

  /** The ball at (px, py) touches opponent e. */
  predicate EnemyTouches(px: real, py: real, e: Enemy)
  {
    BallOnBox(px, py, e.x, e.y, EnemyWidth, EnemyHeight)
  }

  /** The ball at (px, py) touches teammate m. */
  predicate MateTouches(px: real, py: real, m: Mate)
  {
    BallOnBox(px, py, m.x, m.y, TeammateWidth, TeammateHeight)
  }

  /** The ball at (px, py) touches the top goalkeeper standing at x = kx. */
  predicate KeeperTouches(px: real, py: real, kx: real)
  {
    BallOnBox(px, py, kx, KeeperY, KeeperWidth, KeeperHeight)
  }

  /** The ball at (px, py) touches the bottom goalkeeper standing at x = kx. */
  predicate MyKeeperTouches(px: real, py: real, kx: real)
  {
    BallOnBox(px, py, kx, MyKeeperY, MyKeeperWidth, MyKeeperHeight)
  }

  /** The main player's box at (x, y) overlaps opponent e. */
  predicate PlayerOverlaps(x: real, y: real, e: Enemy)
  {
    x < e.x + EnemyWidth && x + PlayerWidth > e.x && y < e.y + EnemyHeight && y + PlayerHeight > e.y
  }

  /** The push-out of `checkEnemyCollision`: the player goes 5 clear of the opponent on the side
      its left edge was on, and so no longer overlaps it. */
  function PushedClear(x: real, e: Enemy): (r: real)
    ensures forall y :: !PlayerOverlaps(r, y, e)
    ensures x < e.x ==> r + PlayerWidth == e.x - 5.0
    ensures x >= e.x ==> r == e.x + EnemyWidth + 5.0
  {
    if x < e.x then e.x - PlayerWidth - 5.0 else e.x + EnemyWidth + 5.0
  }

  /** The main player's x when `checkEnemyCollision` tests opponent n: the push-outs of the
      opponents before it, applied in order, each tested against the x the previous ones left. */
  function XBefore(x0: real, y: real, es: seq<Enemy>, n: nat): real
    requires n <= |es|
  {
    if n == 0 then x0
    else
      var x := XBefore(x0, y, es, n - 1);
      if PlayerOverlaps(x, y, es[n - 1]) then PushedClear(x, es[n - 1]) else x
  }

  /** `checkEnemyCollision` draws a card: a hard collision (speed over 4) with one of the first n
      opponents the player overlaps when it is tested, and that opponent's draw under 0.15. */
  predicate CardDrawn(x0: real, y: real, es: seq<Enemy>, speed: real, card: seq<real>, n: nat)
    requires n <= |es| && n <= |card|
  {
    Abs(speed) > 4.0 && exists i :: 0 <= i < n && PlayerOverlaps(XBefore(x0, y, es, i), y, es[i]) && card[i] < 0.15
  }

  // ---- Goalkeepers ----

  /** The keeper's rate-limited tracking of the ball: when its target (ball x minus half its
      width) is more than 5 away, it moves toward it by min(speed, a tenth of the gap). */
  function KeeperTrack(keeperX: real, ballX: real, keeperWidth: real, speed: real): (r: real)
    ensures speed >= 0.0 ==> Abs(r - keeperX) <= speed
    ensures var target := ballX - keeperWidth / 2.0;
            speed >= 0.0 ==> (keeperX <= r <= target || target <= r <= keeperX)
    ensures Abs(ballX - keeperWidth / 2.0 - keeperX) <= 5.0 ==> r == keeperX
  {
    var d := ballX - keeperWidth / 2.0 - keeperX;
    if Abs(d) > 5.0 then
      var step := if speed < Abs(d) * 0.1 then speed else Abs(d) * 0.1;
      keeperX + (if d > 0.0 then step else -step)
    else keeperX
  }

  /** The anticipation nudge: 5% of the way toward where the ball will be in 10 ticks. The
      keeper never passes that point and closes exactly a twentieth of the gap to it. */
  function Anticipate(keeperX: real, ballX: real, ballSpeedX: real, keeperWidth: real): (r: real)
    ensures var target := ballX + ballSpeedX * 10.0 - keeperWidth / 2.0;
            keeperX <= r <= target || target <= r <= keeperX
    ensures var target := ballX + ballSpeedX * 10.0 - keeperWidth / 2.0;
            Abs(target - r) == 0.95 * Abs(target - keeperX)
  {
    keeperX + (ballX + ballSpeedX * 10.0 - keeperWidth / 2.0 - keeperX) * 0.05
  }

  // ---- Referee ----

  datatype RefereeState = Watching | Running | Whistle | CardYellow | CardRed

  /** The point the referee heads for: behind the ball (80 below it), kept 30 from the sides
      and 100 from the ends. */
  function RefereeTarget(ballX: real, ballY: real, width: real, height: real): (t: (real, real))
    requires ValidCanvas(width, height)
    ensures 30.0 <= t.0 <= width - RefereeWidth - 30.0
    ensures 100.0 <= t.1 <= height - RefereeHeight - 100.0
  {
    (Clamp(ballX - RefereeWidth / 2.0, 30.0, width - RefereeWidth - 30.0),
     Clamp(ballY + 80.0, 100.0, height - RefereeHeight - 100.0))
  }

  // ---- Match clock ----

  datatype Clock = Clock(timeLeft: int, over: bool)

  /** One `countDown` tick: while the clock runs and the match is not over, one second goes
      and the match ends once the time reaches zero. */
  function ClockStep(c: Clock, running: bool): (r: Clock)
    ensures c.over || !running ==> r == c
    ensures !c.over && running ==> r.timeLeft == c.timeLeft - 1 && (r.over <==> r.timeLeft <= 0)
  {
    if !c.over && running then
      var t := c.timeLeft - 1;
      Clock(t, t <= 0)
    else c
  }

  /** The clock after `n` running seconds. */
  function RunClock(c: Clock, n: nat): Clock
    decreases n
  {
    if n == 0 then c else RunClock(ClockStep(c, true), n - 1)
  }

  /** Once the match is over the clock never changes again. */
  lemma {:induction false} OverClockIsFrozen(c: Clock, n: nat)
    requires c.over
    ensures RunClock(c, n) == c
  {
    if n > 0 {
      OverClockIsFrozen(ClockStep(c, true), n - 1);
    }
  }

  /** A match started with t >= 1 seconds counts down one per second, never below zero, and is
      over exactly after t seconds. */
  lemma {:induction false} ClockEndsAfterItsTime(t: int, n: nat)
    requires t >= 1
    ensures RunClock(Clock(t, false), n) == if n < t then Clock(t - n, false) else Clock(0, true)
  {
    if n > 0 {
      if t == 1 {
        OverClockIsFrozen(Clock(0, true), n - 1);
      } else {
        ClockEndsAfterItsTime(t - 1, n - 1);
      }
    }
  }
}
