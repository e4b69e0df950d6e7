/** The game client of game.js as one object: every global the tick, the key handlers and the
    network handlers read or write is a field of `World`, and every tick function is a method
    that updates those fields in place. Teammates and opponents are arrays whose elements the
    methods replace. The canvas size is fixed at construction. */
module Game {
  import opened Js
  import opened Rules
  import opened Net

  /** Five draws in [0,1), one for each teammate or opponent. */
  predicate FiveDraws(s: seq<real>)
  {
    |s| == 5 && forall i :: 0 <= i < 5 ==> 0.0 <= s[i] < 1.0
  }

  /** The `Math.random()` values one tick may consume, one list per call site. */
  datatype Dice = Dice(
    wander: seq<real>, wanderX: seq<real>, wanderY: seq<real>,
    card: seq<real>, clearY: seq<real>, clearX: seq<real>,
    passY: seq<real>, passX: seq<real>)

  predicate DiceOk(d: Dice)
  {
    FiveDraws(d.wander) && FiveDraws(d.wanderX) && FiveDraws(d.wanderY) && FiveDraws(d.card) &&
    FiveDraws(d.clearY) && FiveDraws(d.clearX) && FiveDraws(d.passY) && FiveDraws(d.passX)
  }

  /** A key handler's call of `kickBall`, if it made one. */
  datatype KickCall = NoKick | Kick(isPowerShot: bool, playerNum: int)

  /** The ball's speed, spin, lift and rotation: what `kickBall` sets. */
  datatype KickState = KickState(speedX: real, speedY: real, spin: real, heightVel: real, rotation: real)

  class World {
    const width: real
    const height: real
    const teammates: array<Mate>
    const enemies: array<Enemy>

    // Match
    var difficulty: Difficulty
    var gameMode: Mode
    var netRole: string
    var roomId: string
    var gameStarted: bool
    var gameOver: bool
    var score: int
    var enemyScore: int
    var timeLeft: int
    var showingGoalMessage: bool
    var goalMessageTimer: int
    var weatherType: string
    var windStrength: real

    // Player 1 (or the teammate it controls)
    var playerX: real
    var playerY: real
    var playerSpeed: real
    var playerStamina: real
    var isRunning: bool
    var controlledPlayerIndex: int
    /** `leftPressed`, `rightPressed`, `upPressed`, `downPressed`, `isChargingPower` and
        `powerLevel`: the bundle the input message carries. */
    var p1: Controls

    // Player 2
    var player2X: real
    var player2Y: real
    var player2Stamina: real
    var player2IsRunning: bool
    /** `p2LeftPressed`, `p2RightPressed`, `p2UpPressed`, `p2DownPressed`,
        `player2ChargingPower` and `player2PowerLevel`. */
    var p2: Controls

    // Ball
    var ballX: real
    var ballY: real
    var ballSpeedX: real
    var ballSpeedY: real
    var ballSpin: real
    var ballRotation: real
    var ballHeight: real
    var ballHeightVel: real
    var ballTrail: seq<TrailPoint>

    // Goalkeepers
    var goalkeeperX: real
    var goalkeeperSpeed: real
    var myGoalkeeperX: real

    // Referee
    var refereeX: real
    var refereeY: real
    var refereeSpeedX: real
    var refereeSpeedY: real
    var refereeState: RefereeState
    var refereeStateTimer: int

    ghost predicate Valid()
      reads this`ballTrail, this`controlledPlayerIndex
    {
      ValidCanvas(width, height) && teammates.Length == 5 && enemies.Length == 5 &&
      TrailOk(ballTrail) && -1 <= controlledPlayerIndex < teammates.Length
    }

    /** The page-load state of the globals; `room` is the page's `room` query parameter. */
    constructor (width: real, height: real, room: Option<string>)
      requires ValidCanvas(width, height)
      ensures Valid()
      ensures this.width == width && this.height == height
      ensures difficulty == Medium && gameMode == Single && netRole == RoleSolo && roomId == ResolveRoomId(room)
      ensures !gameStarted && !gameOver && score == 0 && enemyScore == 0 && timeLeft == 60
      ensures AtKickoff() && ballTrail == [] && ballHeight == 0.0
      ensures playerStamina == 100.0 && player2Stamina == 100.0 && p1 == Released && p2 == Released
      ensures goalkeeperX == 200.0 && myGoalkeeperX == 200.0 && refereeState == Watching
    {
      this.width := width;
      this.height := height;
      teammates := new Mate[] [
        Mate(100.0, 320.0, 1.5, 1.0, 100.0, 320.0),
        Mate(350.0, 320.0, -1.5, 1.0, 350.0, 320.0),
        Mate(230.0, 180.0, 1.0, -1.5, 230.0, 180.0),
        Mate(80.0, 420.0, 1.0, 0.5, 80.0, 420.0),
        Mate(380.0, 420.0, -1.0, 0.5, 380.0, 420.0)];
      enemies := new Enemy[] [
        Enemy(120.0, 150.0, 2.0, 0.0),
        Enemy(320.0, 150.0, -2.0, 0.0),
        Enemy(230.0, 280.0, 0.0, 2.0),
        Enemy(60.0, 380.0, 1.5, 0.0),
        Enemy(380.0, 380.0, -1.5, 0.0)];
      difficulty := Medium;
      gameMode := Single;
      netRole := RoleSolo;
      roomId := ResolveRoomId(room);
      gameStarted := false;
      gameOver := false;
      score := 0;
      enemyScore := 0;
      timeLeft := 60;
      showingGoalMessage := false;
      goalMessageTimer := 0;
      weatherType := "clear";
      windStrength := 0.0;
      playerX := 230.0;
      playerY := 450.0;
      playerSpeed := 5.0;
      playerStamina := 100.0;
      isRunning := false;
      controlledPlayerIndex := -1;
      p1 := Released;
      player2X := 230.0;
      player2Y := 120.0;
      player2Stamina := 100.0;
      player2IsRunning := false;
      p2 := Released;
      ballX := 250.0;
      ballY := 300.0;
      ballSpeedX := 0.0;
      ballSpeedY := 0.0;
      ballSpin := 0.0;
      ballRotation := 0.0;
      ballHeight := 0.0;
      ballHeightVel := 0.0;
      ballTrail := [];
      goalkeeperX := 200.0;
      goalkeeperSpeed := 3.0;
      myGoalkeeperX := 200.0;
      refereeX := 250.0;
      refereeY := 300.0;
      refereeSpeedX := 0.0;
      refereeSpeedY := 0.0;
      refereeState := Watching;
      refereeStateTimer := 0;
    }

    // ---- Roles ----

    predicate Host()
      reads this`gameMode, this`netRole
    {
      IsHost(gameMode, netRole)
    }

    /** The game loop's `hostSimulates`: everyone but a multiplayer guest runs the rules. */
    predicate HostSimulates()
      reads this`gameMode, this`netRole
    {
      !(gameMode == Multi && !Host())
    }

    // ---- Choosing the controlled player ----

    function MainDistSq(): real
      reads this`playerX, this`playerY, this`ballX, this`ballY
    {
      DistSq(playerX + PlayerWidth / 2.0, playerY + PlayerHeight / 2.0, ballX, ballY)
    }

    function MateDistSq(i: int): real
      requires 0 <= i < teammates.Length
      reads this`ballX, this`ballY, teammates
    {
      DistSq(teammates[i].x + TeammateWidth / 2.0, teammates[i].y + TeammateHeight / 2.0, ballX, ballY)
    }

    /** `k` is the player nearest to the ball, ties going to the main player (-1) and then to the
        lowest teammate index: -1 when no teammate is strictly nearer than the main player,
        otherwise a teammate strictly nearer than the main player and every earlier teammate,
        and no farther than every later one. Squared distances order like distances. */
    predicate NearestToBall(k: int)
      reads this`playerX, this`playerY, this`ballX, this`ballY, teammates
    {
      -1 <= k < teammates.Length &&
      (k == -1 ==> forall j :: 0 <= j < teammates.Length ==> MainDistSq() <= MateDistSq(j)) &&
      (k >= 0 ==> MateDistSq(k) < MainDistSq() &&
                  (forall j :: 0 <= j < k ==> MateDistSq(k) < MateDistSq(j)) &&
                  (forall j :: k < j < teammates.Length ==> MateDistSq(k) <= MateDistSq(j)))
    }

    /** The tie-breaking makes the nearest player unique. */
    lemma NearestIsUnique(k1: int, k2: int)
      requires NearestToBall(k1) && NearestToBall(k2)
      ensures k1 == k2
    {
    }

    /** The scan of `updateControlledPlayer`: the main player first, then each teammate, a new
        best only when strictly nearer. */
    method ClosestToBall() returns (closest: int)
      requires Valid()
      ensures NearestToBall(closest)
    {
      var best := MainDistSq();
      closest := -1;
      var i := 0;
      while i < teammates.Length
        invariant 0 <= i <= teammates.Length
        invariant -1 <= closest < i
        invariant closest == -1 ==> best == MainDistSq()
        invariant closest >= 0 ==> best == MateDistSq(closest) && best < MainDistSq()
        invariant forall j :: 0 <= j < i ==> best <= MateDistSq(j)
        invariant closest >= 0 ==> forall j :: 0 <= j < closest ==> best < MateDistSq(j)
      {
        var d := MateDistSq(i);
        if d < best {
          best := d;
          closest := i;
        }
        i := i + 1;
      }
    }

    /** `updateControlledPlayer`: player 1 always drives the main player in multiplayer; in
        single player control passes to whoever is nearest to the ball. */
    method UpdateControlledPlayer()
      requires Valid()
      modifies this`controlledPlayerIndex
      ensures Valid()
      ensures gameMode == Multi ==> controlledPlayerIndex == -1
      ensures gameMode == Single ==> NearestToBall(controlledPlayerIndex)
    {
      if gameMode == Multi {
        controlledPlayerIndex := -1;
      } else {
        controlledPlayerIndex := ClosestToBall();
      }
    }

    // ---- Players ----

    /** One axis of keyboard motion: the positive key wins over the negative one. */
    static function Axis(speed: real, negative: bool, positive: bool): (m: real)
      ensures !negative && !positive ==> m == 0.0
      ensures positive ==> m == speed
      ensures negative && !positive ==> m == -speed
    {
      if positive then speed else if negative then -speed else 0.0
    }

    /** Player 1's motion this tick along x and y, at the stamina-scaled speed. */
    function MoveX(): real
      reads this`playerSpeed, this`playerStamina, this`p1
    {
      Axis(StaminaSpeed(playerSpeed, playerStamina), p1.left, p1.right)
    }

    function MoveY(): real
      reads this`playerSpeed, this`playerStamina, this`p1
    {
      Axis(StaminaSpeed(playerSpeed, playerStamina), p1.up, p1.down)
    }

    /** A controlled teammate moved by (mx, my) and clamped to its box. */
    function Steered(m: Mate, mx: real, my: real): (r: Mate)
      requires ValidCanvas(width, height)
      ensures r.speedX == m.speedX && r.speedY == m.speedY && r.baseX == m.baseX && r.baseY == m.baseY
      ensures 40.0 <= r.x <= width - TeammateWidth - 40.0 && 20.0 <= r.y <= height - TeammateHeight - 20.0
    {
      m.(x := Clamp(m.x + mx, 40.0, width - TeammateWidth - 40.0),
         y := Clamp(m.y + my, 20.0, height - TeammateHeight - 20.0))
    }

    /** `movePlayer`: pick the controlled player, move it by the stamina-scaled speed along the
        pressed arrows and clamp it to its box; stamina drains while it moves and recovers
        otherwise. Only the controlled entity moves. */
    method MovePlayer()
      requires Valid()
      modifies this`controlledPlayerIndex, this`isRunning, this`playerStamina, this`playerX, this`playerY, teammates
      ensures Valid()
      ensures gameMode == Multi ==> controlledPlayerIndex == -1
      ensures var k := controlledPlayerIndex; gameMode == Single ==> old(NearestToBall(k))
      ensures isRunning == Moving(p1)
      ensures playerStamina == StaminaAfter(old(playerStamina), old(MoveX()) != 0.0 || old(MoveY()) != 0.0)
      ensures controlledPlayerIndex == -1 ==>
                playerX == Clamp(old(playerX) + old(MoveX()), 40.0, width - PlayerWidth - 40.0) &&
                playerY == Clamp(old(playerY) + old(MoveY()), 20.0, height - PlayerHeight - 20.0) &&
                unchanged(teammates)
      ensures var k := controlledPlayerIndex;
              k >= 0 ==>
                playerX == old(playerX) && playerY == old(playerY) &&
                teammates[k] == Steered(old(teammates[k]), old(MoveX()), old(MoveY())) &&
                forall i :: 0 <= i < 5 && i != k ==> teammates[i] == old(teammates[i])
      ensures 0.0 <= old(playerStamina) <= 100.0 ==> 0.0 <= playerStamina <= 100.0
      ensures controlledPlayerIndex == -1 ==>
                40.0 <= playerX <= width - PlayerWidth - 40.0 && 20.0 <= playerY <= height - PlayerHeight - 20.0
    {
      UpdateControlledPlayer();
      isRunning := Moving(p1);
      var moveX, moveY := MoveX(), MoveY();
      playerStamina := StaminaAfter(playerStamina, moveX != 0.0 || moveY != 0.0);
      if controlledPlayerIndex == -1 {
        playerX := Clamp(playerX + moveX, 40.0, width - PlayerWidth - 40.0);
        playerY := Clamp(playerY + moveY, 20.0, height - PlayerHeight - 20.0);
      } else {
        teammates[controlledPlayerIndex] := Steered(teammates[controlledPlayerIndex], moveX, moveY);
      }
    }

    /** `movePlayer2`: only in multiplayer; the same motion, stamina and clamp for player 2 at
        speed 5, then one tick of Q-charging. */
    method MovePlayer2()
      requires Valid()
      modifies this`player2IsRunning, this`player2Stamina, this`player2X, this`player2Y, this`p2
      ensures Valid()
      ensures gameMode != Multi ==>
                player2IsRunning == old(player2IsRunning) && player2Stamina == old(player2Stamina) &&
                player2X == old(player2X) && player2Y == old(player2Y) && p2 == old(p2)
      ensures gameMode == Multi ==>
                player2IsRunning == Moving(p2) &&
                player2Stamina == StaminaAfter(old(player2Stamina), old(P2MoveX()) != 0.0 || old(P2MoveY()) != 0.0) &&
                player2X == Clamp(old(player2X) + old(P2MoveX()), 40.0, width - PlayerWidth - 40.0) &&
                player2Y == Clamp(old(player2Y) + old(P2MoveY()), 20.0, height - PlayerHeight - 20.0) &&
                p2 == old(p2).(power := Charged(old(p2.power), p2.charging))
      ensures 0.0 <= old(player2Stamina) <= 100.0 ==> 0.0 <= player2Stamina <= 100.0
      ensures 0.0 <= old(p2.power) <= MaxPower ==> 0.0 <= p2.power <= MaxPower
      ensures gameMode == Multi ==>
                40.0 <= player2X <= width - PlayerWidth - 40.0 && 20.0 <= player2Y <= height - PlayerHeight - 20.0
    {
      if gameMode == Multi {
        StepPlayer2();
        p2 := p2.(power := Charged(p2.power, p2.charging));
      }
    }

    /** Player 2's motion this tick along x and y, at the stamina-scaled speed. */
    function P2MoveX(): real
      reads this`player2Stamina, this`p2
    {
      Axis(StaminaSpeed(Player2Speed, player2Stamina), p2.left, p2.right)
    }

    function P2MoveY(): real
      reads this`player2Stamina, this`p2
    {
      Axis(StaminaSpeed(Player2Speed, player2Stamina), p2.up, p2.down)
    }

    /** The motion part of `movePlayer2`. */
    method StepPlayer2()
      requires ValidCanvas(width, height)
      modifies this`player2IsRunning, this`player2Stamina, this`player2X, this`player2Y
      ensures player2IsRunning == Moving(p2)
      ensures player2Stamina == StaminaAfter(old(player2Stamina), old(P2MoveX()) != 0.0 || old(P2MoveY()) != 0.0)
      ensures player2X == Clamp(old(player2X) + old(P2MoveX()), 40.0, width - PlayerWidth - 40.0)
      ensures player2Y == Clamp(old(player2Y) + old(P2MoveY()), 20.0, height - PlayerHeight - 20.0)
    {
      player2IsRunning := Moving(p2);
      var moveX, moveY := P2MoveX(), P2MoveY();
      player2Stamina := StaminaAfter(player2Stamina, moveX != 0.0 || moveY != 0.0);
      player2X := Clamp(player2X + moveX, 40.0, width - PlayerWidth - 40.0);
      player2Y := Clamp(player2Y + moveY, 20.0, height - PlayerHeight - 20.0);
    }

    // ---- Ball ----

    /** The fade loop of `moveBall`: every point loses 0.12 of its alpha, in place. */
    static method FadeTrail(trail: seq<TrailPoint>) returns (faded: seq<TrailPoint>)
      ensures faded == Faded(trail)
    {
      faded := trail;
      var t := 0;
      while t < |faded|
        invariant 0 <= t <= |faded| == |trail|
        invariant forall j :: 0 <= j < t ==> faded[j] == trail[j].(alpha := trail[j].alpha - 0.12)
        invariant forall j :: t <= j < |faded| ==> faded[j] == trail[j]
      {
        faded := faded[t := faded[t].(alpha := faded[t].alpha - 0.12)];
        t := t + 1;
      }
    }

    /** The ball moves faster than 3 (compared squared, as the source's square root is monotone). */
    predicate Fast()
      reads this`ballSpeedX, this`ballSpeedY
    {
      ballSpeedX * ballSpeedX + ballSpeedY * ballSpeedY > 9.0
    }

    /** The trail half of `moveBall`: record the ball when it moves faster than 3 (at most 8
        points, the oldest dropped first), fade every point and drop the invisible ones. */
    method UpdateTrail()
      requires Valid()
      modifies this`ballTrail
      ensures Valid()
      ensures ballTrail == TrailStep(old(ballTrail), Fast(), ballX, ballY)
    {
      var fast := Fast();
      var trail := ballTrail;
      if fast {
        trail := trail + [TrailPoint(ballX, ballY, 1.0)];
        if |trail| > MaxTrailLength {
          trail := trail[1..];
        }
      }
      assert trail == TrailPushed(ballTrail, fast, ballX, ballY);
      trail := FadeTrail(trail);
      TrailStepKeepsTrailOk(ballTrail, fast, ballX, ballY);
      ballTrail := Visible(trail);
    }

    /** The flight half of `moveBall`: move by the speed, spin the ball and decay the spin, one
        step of height, friction (lighter in the air), curve from the spin, wind in windy or
        rainy weather, and the rest threshold. */
    method FlyBall()
      modifies this`ballX, this`ballY, this`ballSpeedX, this`ballSpeedY, this`ballSpin, this`ballRotation,
               this`ballHeight, this`ballHeightVel
      ensures ballX == old(ballX) + old(ballSpeedX) && ballY == old(ballY) + old(ballSpeedY)
      ensures ballRotation == old(ballRotation) + old(ballSpin) && ballSpin == old(ballSpin) * 0.98
      ensures (ballHeight, ballHeightVel) == HeightStep(old(ballHeight), old(ballHeightVel))
      ensures RestOk(ballSpeedX) && RestOk(ballSpeedY)
      ensures ballSpeedY == SnapToRest(Friction(old(ballSpeedY), ballHeight > 0.0))
      ensures ballSpeedX == SnapToRest(Friction(old(ballSpeedX), ballHeight > 0.0) + ballSpin * 0.02 +
                                       (if Windy() then windStrength * 0.05 else 0.0))
      ensures Abs(ballSpeedY) <= Abs(old(ballSpeedY))
      ensures Abs(ballSpeedX) <= Abs(old(ballSpeedX)) + Abs(ballSpin) * 0.02 + Wind()
    {
      ballX := ballX + ballSpeedX;
      ballY := ballY + ballSpeedY;
      ballRotation := ballRotation + ballSpin;
      var spin := ballSpin * 0.98;
      ballSpin := spin;
      var h := HeightStep(ballHeight, ballHeightVel);
      ballHeight := h.0;
      ballHeightVel := h.1;
      var airborne := h.0 > 0.0;
      var wind := if Windy() then windStrength * 0.05 else 0.0;
      var vy := Friction(ballSpeedY, airborne);
      ballSpeedX := Drift(ballSpeedX, airborne, spin, wind);
      ballSpeedY := SnapToRest(vy);
    }

    /** Wind blows in windy and in rainy weather. */
    predicate Windy()
      reads this`weatherType
    {
      weatherType == "windy" || weatherType == "rain"
    }

    /** The largest push the wind gives the ball in one tick: none unless windy or rainy. */
    function Wind(): (w: real)
      reads this`weatherType, this`windStrength
      ensures w >= 0.0
      ensures !Windy() ==> w == 0.0
    {
      if Windy() then Abs(windStrength) * 0.05 else 0.0
    }

    /** The wall half of `moveBall`: the side walls reflect the ball, the end walls reflect it
        everywhere but across the goal mouths. Speeds keep their size. */
    method BounceWalls()
      requires ValidCanvas(width, height)
      modifies this`ballX, this`ballY, this`ballSpeedX, this`ballSpeedY
      ensures BallRadius <= ballX <= width - BallRadius
      ensures old(ballX) < BallRadius ==> ballX == BallRadius && ballSpeedX == -old(ballSpeedX)
      ensures old(ballX) > width - BallRadius ==> ballX == width - BallRadius && ballSpeedX == -old(ballSpeedX)
      ensures BallRadius <= old(ballX) <= width - BallRadius ==> ballX == old(ballX) && ballSpeedX == old(ballSpeedX)
      ensures (ballY, ballSpeedY) == EndWalls(ballX, old(ballY), old(ballSpeedY), height)
      ensures ballY < BallRadius ==> InTopMouth(ballX)
      ensures ballY > height - BallRadius ==> InBottomMouth(ballX)
      ensures ballY == old(ballY) ==> ballSpeedY == old(ballSpeedY)
      ensures ballY != old(ballY) ==> ballSpeedY == -old(ballSpeedY)
      ensures Abs(ballSpeedX) == Abs(old(ballSpeedX)) && Abs(ballSpeedY) == Abs(old(ballSpeedY))
      ensures RestOk(old(ballSpeedX)) ==> RestOk(ballSpeedX)
      ensures RestOk(old(ballSpeedY)) ==> RestOk(ballSpeedY)
    {
      if ballX < BallRadius {
        ballX := BallRadius;
        ballSpeedX := -ballSpeedX;
      }
      if ballX > width - BallRadius {
        ballX := width - BallRadius;
        ballSpeedX := -ballSpeedX;
      }
      if ballY > height - BallRadius {
        if ballX < EnemyGoalX || ballX > EnemyGoalX + EnemyGoalWidth {
          ballY := height - BallRadius;
          ballSpeedY := -ballSpeedY;
        }
      }
      if ballY < BallRadius {
        if ballX < GoalX || ballX > GoalX + GoalWidth {
          ballY := BallRadius;
          ballSpeedY := -ballSpeedY;
        }
      }
    }

    /** `moveBall`: trail, flight, then the walls. The ball stays between the side walls, leaves
        the pitch only through a goal mouth, never gains vertical speed, and keeps a grounded
        ball on the ground. */
    method MoveBall()
      requires Valid()
      modifies this`ballTrail, this`ballX, this`ballY, this`ballSpeedX, this`ballSpeedY,
               this`ballSpin, this`ballRotation, this`ballHeight, this`ballHeightVel
      ensures Valid()
      ensures ballTrail == TrailStep(old(ballTrail), old(Fast()), old(ballX), old(ballY))
      ensures (ballHeight, ballHeightVel) == HeightStep(old(ballHeight), old(ballHeightVel))
      ensures old(ballHeight) >= 0.0 ==> ballHeight >= 0.0
      ensures ballRotation == old(ballRotation) + old(ballSpin) && ballSpin == old(ballSpin) * 0.98
      ensures ballX == Clamp(old(ballX) + old(ballSpeedX), BallRadius, width - BallRadius)
      ensures (ballY, ballSpeedY) ==
                EndWalls(ballX, old(ballY) + old(ballSpeedY), SnapToRest(Friction(old(ballSpeedY), ballHeight > 0.0)), height)
      ensures var vx := SnapToRest(Friction(old(ballSpeedX), ballHeight > 0.0) + ballSpin * 0.02 +
                                   (if Windy() then windStrength * 0.05 else 0.0));
              ballSpeedX == if BallRadius <= old(ballX) + old(ballSpeedX) <= width - BallRadius then vx else -vx
      ensures BallRadius <= ballX <= width - BallRadius
      ensures RestOk(ballSpeedX) && RestOk(ballSpeedY)
      ensures ballY < BallRadius ==> InTopMouth(ballX)
      ensures ballY > height - BallRadius ==> InBottomMouth(ballX)
      ensures Abs(ballSpeedY) <= Abs(old(ballSpeedY))
      ensures Abs(ballSpeedX) <= Abs(old(ballSpeedX)) + Abs(ballSpin) * 0.02 + Wind()
    {
      ghost var fast, x0, y0, trail0 := Fast(), ballX, ballY, old(ballTrail);
      UpdateTrail();
      assert ballTrail == TrailStep(trail0, fast, x0, y0);
      FlyBall();
      BounceWalls();
    }

    /** The centre of the kicker `kickBall` measures from: the main player or the controlled
        teammate for player 1, player 2 otherwise. */
    function KickerCenter(playerNum: int): (real, real)
      requires -1 <= controlledPlayerIndex < teammates.Length
      reads this`controlledPlayerIndex, this`playerX, this`playerY, this`player2X, this`player2Y, teammates
    {
      if playerNum == 1 then
        if controlledPlayerIndex == -1 then (playerX + PlayerWidth / 2.0, playerY + PlayerHeight / 2.0)
        else (teammates[controlledPlayerIndex].x + TeammateWidth / 2.0, teammates[controlledPlayerIndex].y + TeammateHeight / 2.0)
      else (player2X + PlayerWidth / 2.0, player2Y + PlayerHeight / 2.0)
    }

    /** The kicker-to-ball offset `kickBall` computes. */
    function KickOffset(playerNum: int): (real, real)
      requires -1 <= controlledPlayerIndex < teammates.Length
      reads this`controlledPlayerIndex, this`playerX, this`playerY, this`player2X, this`player2Y, this`ballX, this`ballY, teammates
    {
      var c := KickerCenter(playerNum);
      (ballX - c.0, ballY - c.1)
    }

    /** The kicker is within 60 of the ball (compared squared). */
    predicate InKickRange(playerNum: int)
      requires -1 <= controlledPlayerIndex < teammates.Length
      reads this`controlledPlayerIndex, this`playerX, this`playerY, this`player2X, this`player2Y, this`ballX, this`ballY, teammates
    {
      var d := KickOffset(playerNum);
      d.0 * d.0 + d.1 * d.1 < 3600.0
    }

    /** `kickBall`: nothing once the match is over or when the kicker's centre is 60 or more from
        the ball; otherwise the ball takes the kick velocity, spin and lift. The power used is
        player 1's power whoever kicks. */
    method KickBall(isPowerShot: bool, playerNum: int, spinDraw: real)
      requires Valid() && 0.0 <= spinDraw < 1.0
      modifies this`ballSpeedX, this`ballSpeedY, this`ballSpin, this`ballHeightVel, this`ballRotation
      ensures Valid()
      ensures !gameOver && InKickRange(playerNum) ==>
                var d := KickOffset(playerNum);
                Velocity(ballSpeedX, ballSpeedY) == KickVelocity(isPowerShot, d.0, d.1, p1.power) &&
                ballSpin == KickSpin(isPowerShot, spinDraw) &&
                ballHeightVel == KickLift(isPowerShot, p1.power) &&
                ballRotation == old(ballRotation) + Abs(ballSpeedX) * 0.1
      ensures gameOver || !InKickRange(playerNum) ==>
                ballSpeedX == old(ballSpeedX) && ballSpeedY == old(ballSpeedY) && ballSpin == old(ballSpin) &&
                ballHeightVel == old(ballHeightVel) && ballRotation == old(ballRotation)
      ensures BallKick() == old(AfterKick(isPowerShot, playerNum, spinDraw, p1.power))
    {
      if gameOver {
        return;
      }
      if InKickRange(playerNum) {
        var d := KickOffset(playerNum);
        Launch(KickVelocity(isPowerShot, d.0, d.1, p1.power), KickSpin(isPowerShot, spinDraw), KickLift(isPowerShot, p1.power));
      }
    }

    /** The ball takes a kick's velocity, spin and lift, and its rotation advances with the new
        horizontal speed. */
    method Launch(v: Velocity, spin: real, lift: real)
      modifies this`ballSpeedX, this`ballSpeedY, this`ballSpin, this`ballHeightVel, this`ballRotation
      ensures Velocity(ballSpeedX, ballSpeedY) == v && ballSpin == spin && ballHeightVel == lift
      ensures ballRotation == old(ballRotation) + Abs(v.x) * 0.1
    {
      ballSpeedX := v.x;
      ballSpeedY := v.y;
      ballSpin := spin;
      ballHeightVel := lift;
      ballRotation := ballRotation + Abs(ballSpeedX) * 0.1;
    }

    // ---- Goals ----

    /** The positions `resetPositions` restores. */
    predicate AtKickoff()
      reads this`ballX, this`ballY, this`ballSpeedX, this`ballSpeedY, this`playerX, this`playerY,
            this`player2X, this`player2Y, this`controlledPlayerIndex
    {
      ballX == 250.0 && ballY == 300.0 && ballSpeedX == 0.0 && ballSpeedY == 0.0 &&
      playerX == 230.0 && playerY == 450.0 && player2X == 230.0 && player2Y == 120.0 &&
      controlledPlayerIndex == -1
    }

    /** `resetPositions`: ball, both players and teammates back to the kick-off layout, control
        back to the main player; scores and clock untouched. */
    method ResetPositions()
      requires Valid()
      modifies this`ballX, this`ballY, this`ballSpeedX, this`ballSpeedY, this`playerX, this`playerY,
               this`player2X, this`player2Y, this`controlledPlayerIndex, teammates
      ensures Valid()
      ensures AtKickoff()
      ensures forall i :: 0 <= i < 5 ==> teammates[i] == KickoffMate(i, old(teammates[i]))
      ensures score == old(score) && enemyScore == old(enemyScore) && timeLeft == old(timeLeft)
    {
      ResetBall();
      ResetPlayers();
      ResetTeammates();
    }

    /** The ball's part of `resetPositions`: still, on the centre spot. */
    method ResetBall()
      modifies this`ballX, this`ballY, this`ballSpeedX, this`ballSpeedY
      ensures ballX == 250.0 && ballY == 300.0 && ballSpeedX == 0.0 && ballSpeedY == 0.0
    {
      ballX := 250.0;
      ballY := 300.0;
      ballSpeedX := 0.0;
      ballSpeedY := 0.0;
    }

    /** The players' part of `resetPositions`: both on their spots, control back to the main player. */
    method ResetPlayers()
      modifies this`playerX, this`playerY, this`player2X, this`player2Y, this`controlledPlayerIndex
      ensures playerX == 230.0 && playerY == 450.0 && player2X == 230.0 && player2Y == 120.0
      ensures controlledPlayerIndex == -1
    {
      playerX := 230.0;
      playerY := 450.0;
      player2X := 230.0;
      player2Y := 120.0;
      controlledPlayerIndex := -1;
    }

    /** The teammates' part of `resetPositions`: each back on its own kick-off spot. */
    method ResetTeammates()
      requires teammates.Length == 5
      modifies teammates
      ensures forall i :: 0 <= i < 5 ==> teammates[i] == KickoffMate(i, old(teammates[i]))
    {
      teammates[0] := KickoffMate(0, teammates[0]);
      teammates[1] := KickoffMate(1, teammates[1]);
      teammates[2] := KickoffMate(2, teammates[2]);
      teammates[3] := KickoffMate(3, teammates[3]);
      teammates[4] := KickoffMate(4, teammates[4]);
    }

    /** `refereeReactToGoal`: a whistle for 60 ticks. */
    method RefereeReactToGoal()
      modifies this`refereeState, this`refereeStateTimer
      ensures refereeState == Whistle && refereeStateTimer == 60
    {
      refereeState := Whistle;
      refereeStateTimer := 60;
    }

    /** `refereeShowCard`: a red or yellow card for 90 ticks. */
    method RefereeShowCard(isRed: bool)
      modifies this`refereeState, this`refereeStateTimer
      ensures refereeState == (if isRed then CardRed else CardYellow) && refereeStateTimer == 90
    {
      if isRed {
        refereeState := CardRed;
      } else {
        refereeState := CardYellow;
      }
      refereeStateTimer := 90;
    }

    /** `checkGoal`: a ball in the top mouth scores for the blue side, one in the bottom mouth for
        the red side; a goal whistles, shows the message for 60 ticks and resets the positions.
        At most one side scores per call, by exactly one. */
    method CheckGoal()
      requires Valid()
      modifies this`score, this`enemyScore, this`showingGoalMessage, this`goalMessageTimer,
               this`refereeState, this`refereeStateTimer,
               this`ballX, this`ballY, this`ballSpeedX, this`ballSpeedY, this`playerX, this`playerY,
               this`player2X, this`player2Y, this`controlledPlayerIndex, teammates
      ensures Valid()
      ensures score == old(score) + (if TopGoal(old(ballX), old(ballY)) then 1 else 0)
      ensures enemyScore == old(enemyScore) + (if BottomGoal(old(ballX), old(ballY)) then 1 else 0)
      ensures score + enemyScore <= old(score) + old(enemyScore) + 1
      ensures TopGoal(old(ballX), old(ballY)) || BottomGoal(old(ballX), old(ballY)) ==>
                AtKickoff() && refereeState == Whistle && refereeStateTimer == 60 &&
                showingGoalMessage && goalMessageTimer == 60 &&
                forall i :: 0 <= i < 5 ==> teammates[i] == KickoffMate(i, old(teammates[i]))
      ensures !TopGoal(old(ballX), old(ballY)) && !BottomGoal(old(ballX), old(ballY)) ==>
                unchanged(this) && unchanged(teammates)
    {
      GoalsAreExclusive(ballX, ballY);
      if TopGoal(ballX, ballY) {
        score := score + 1;
        RefereeReactToGoal();
        showingGoalMessage := true;
        goalMessageTimer := 60;
        ResetPositions();
      }
      if BottomGoal(ballX, ballY) {
        enemyScore := enemyScore + 1;
        RefereeReactToGoal();
        showingGoalMessage := true;
        goalMessageTimer := 60;
        ResetPositions();
      }
    }

    // ---- Teammates and opponents ----

    /** `moveTeammates`: every teammate but the controlled one takes one patrol step. */
    method MoveTeammates()
      requires Valid()
      modifies teammates
      ensures Valid()
      ensures forall i :: 0 <= i < 5 ==>
                teammates[i] == if i == controlledPlayerIndex then old(teammates[i]) else Patrol(old(teammates[i]), width, height)
      ensures forall i :: 0 <= i < 5 && i != controlledPlayerIndex ==>
                40.0 <= teammates[i].x <= width - TeammateWidth - 40.0 &&
                80.0 <= teammates[i].y <= height - TeammateHeight - 80.0
    {
      for i := 0 to 5
        invariant forall j :: 0 <= j < i ==>
                    teammates[j] == if j == controlledPlayerIndex then old(teammates[j]) else Patrol(old(teammates[j]), width, height)
        invariant forall j :: i <= j < 5 ==> teammates[j] == old(teammates[j])
      {
        if i != controlledPlayerIndex {
          teammates[i] := Patrol(teammates[i], width, height);
        }
      }
    }

    /** One opponent's tick of `moveEnemies` toward a ball at (ballAtX, ballAtY): steer from its centre's
        offset to the ball at the tier's speed (`norm` stands for `Math.sqrt` of the squared
        offset), then move and reflect inside its box. In chase range, and away from the
        walls, it heads for the ball on both axes. */
    function NextEnemy(e: Enemy, ballAtX: real, ballAtY: real, tierSpeed: real, norm: (real, real) -> real,
                       roll: real, wx: real, wy: real): (r: Enemy)
      requires ValidCanvas(width, height) && tierSpeed >= 0.0
      requires 0.0 <= roll < 1.0 && 0.0 <= wx < 1.0 && 0.0 <= wy < 1.0
      ensures 10.0 <= r.x <= width - EnemyWidth - 10.0 && 80.0 <= r.y <= height - EnemyHeight - 60.0
      ensures var dx := ballAtX - (e.x + EnemyWidth / 2.0);
              var dy := ballAtY - (e.y + EnemyHeight / 2.0);
              IsLength(norm) && InChaseRange(dx, dy) && (dx != 0.0 || dy != 0.0) && tierSpeed > 0.0 ==>
                (10.0 < r.x < width - EnemyWidth - 10.0 ==> (r.speedX > 0.0 <==> dx > 0.0) && (r.speedX < 0.0 <==> dx < 0.0)) &&
                (80.0 < r.y < height - EnemyHeight - 60.0 ==> (r.speedY > 0.0 <==> dy > 0.0) && (r.speedY < 0.0 <==> dy < 0.0))
    {
      var dx := ballAtX - (e.x + EnemyWidth / 2.0);
      var dy := ballAtY - (e.y + EnemyHeight / 2.0);
      EnemyMove(Steer(e, dx, dy, norm(dx, dy), tierSpeed, roll, wx, wy), width, height)
    }

    /** `moveEnemies`: every opponent steers and moves; all stay inside their box. */
    method MoveEnemies(norm: (real, real) -> real, roll: seq<real>, wx: seq<real>, wy: seq<real>)
      requires Valid() && FiveDraws(roll) && FiveDraws(wx) && FiveDraws(wy)
      modifies enemies
      ensures Valid()
      ensures forall i :: 0 <= i < 5 ==> enemies[i] == NextEnemy(old(enemies[i]), ballX, ballY, SettingsOf(difficulty).enemySpeed, norm, roll[i], wx[i], wy[i])
      ensures forall i :: 0 <= i < 5 ==>
                10.0 <= enemies[i].x <= width - EnemyWidth - 10.0 && 80.0 <= enemies[i].y <= height - EnemyHeight - 60.0
    {
      var tierSpeed := SettingsOf(difficulty).enemySpeed;
      for i := 0 to 5
        invariant forall j :: 0 <= j < i ==> enemies[j] == NextEnemy(old(enemies[j]), ballX, ballY, tierSpeed, norm, roll[j], wx[j], wy[j])
        invariant forall j :: i <= j < 5 ==> enemies[j] == old(enemies[j])
      {
        StepEnemy(i, tierSpeed, norm, roll[i], wx[i], wy[i]);
      }
    }

    /** One iteration of `moveEnemies`' loop: opponent `i` moves, the others stay. */
    method StepEnemy(i: nat, tierSpeed: real, norm: (real, real) -> real, roll: real, wx: real, wy: real)
      requires Valid() && i < 5 && tierSpeed >= 0.0
      requires 0.0 <= roll < 1.0 && 0.0 <= wx < 1.0 && 0.0 <= wy < 1.0
      modifies enemies
      ensures enemies[i] == NextEnemy(old(enemies[i]), ballX, ballY, tierSpeed, norm, roll, wx, wy)
      ensures forall j :: 0 <= j < 5 && j != i ==> enemies[j] == old(enemies[j])
    {
      enemies[i] := NextEnemy(enemies[i], ballX, ballY, tierSpeed, norm, roll, wx, wy);
    }

    // ---- Goalkeepers ----

    /** `moveGoalkeeper`: track the ball, anticipate a ball rising fast in the top half, and stay
        within 5 of the posts. */
    method MoveGoalkeeper()
      modifies this`goalkeeperX
      ensures var tracked := KeeperTrack(old(goalkeeperX), ballX, KeeperWidth, goalkeeperSpeed);
              goalkeeperX == Clamp(if ballSpeedY < -3.0 && ballY < height / 2.0
                                   then Anticipate(tracked, ballX, ballSpeedX, KeeperWidth) else tracked,
                                   GoalX + 5.0, GoalX + GoalWidth - KeeperWidth - 5.0)
      ensures GoalX + 5.0 <= goalkeeperX <= GoalX + GoalWidth - KeeperWidth - 5.0
    {
      goalkeeperX := KeeperTrack(goalkeeperX, ballX, KeeperWidth, goalkeeperSpeed);
      if ballSpeedY < -3.0 && ballY < height / 2.0 {
        goalkeeperX := Anticipate(goalkeeperX, ballX, ballSpeedX, KeeperWidth);
      }
      goalkeeperX := Clamp(goalkeeperX, GoalX + 5.0, GoalX + GoalWidth - KeeperWidth - 5.0);
    }

    /** `moveMyGoalkeeper`: the same for the bottom keeper at speed 2.5, anticipating a ball
        dropping fast in the bottom half. */
    method MoveMyGoalkeeper()
      modifies this`myGoalkeeperX
      ensures var tracked := KeeperTrack(old(myGoalkeeperX), ballX, MyKeeperWidth, MyKeeperSpeed);
              myGoalkeeperX == Clamp(if ballSpeedY > 3.0 && ballY > height / 2.0
                                     then Anticipate(tracked, ballX, ballSpeedX, MyKeeperWidth) else tracked,
                                     EnemyGoalX + 5.0, EnemyGoalX + EnemyGoalWidth - MyKeeperWidth - 5.0)
      ensures EnemyGoalX + 5.0 <= myGoalkeeperX <= EnemyGoalX + EnemyGoalWidth - MyKeeperWidth - 5.0
    {
      myGoalkeeperX := KeeperTrack(myGoalkeeperX, ballX, MyKeeperWidth, MyKeeperSpeed);
      if ballSpeedY > 3.0 && ballY > height / 2.0 {
        myGoalkeeperX := Anticipate(myGoalkeeperX, ballX, ballSpeedX, MyKeeperWidth);
      }
      myGoalkeeperX := Clamp(myGoalkeeperX, EnemyGoalX + 5.0, EnemyGoalX + EnemyGoalWidth - MyKeeperWidth - 5.0);
    }

    // ---- Referee ----

    /** `moveReferee`: run toward the point behind the ball when more than 50 from it, otherwise
        slow down and go back to watching once nearly still; a running whistle or card timer
        counts down and ends in watching. */
    method MoveReferee()
      requires Valid()
      modifies this`refereeX, this`refereeY, this`refereeSpeedX, this`refereeSpeedY, this`refereeState, this`refereeStateTimer
      ensures var t := RefereeAim();
              old(RefereeFar()) ==>
                refereeSpeedX == (t.0 - old(refereeX)) * 0.03 && refereeSpeedY == (t.1 - old(refereeY)) * 0.03
      ensures !old(RefereeFar()) ==> refereeSpeedX == old(refereeSpeedX) * 0.9 && refereeSpeedY == old(refereeSpeedY) * 0.9
      ensures refereeX == old(refereeX) + refereeSpeedX && refereeY == old(refereeY) + refereeSpeedY
      ensures refereeStateTimer == if old(refereeStateTimer) > 0 then old(refereeStateTimer) - 1 else old(refereeStateTimer)
      ensures old(refereeStateTimer) == 1 ==> refereeState == Watching
      ensures old(refereeStateTimer) != 1 ==>
                refereeState == if old(RefereeFar()) then Running
                                else if Abs(refereeSpeedX) < 0.1 && Abs(refereeSpeedY) < 0.1 then Watching
                                else old(refereeState)
    {
      var t := RefereeAim();
      var far := RefereeFar();
      var sx, sy := refereeSpeedX, refereeSpeedY;
      var state := refereeState;
      if far {
        sx := (t.0 - refereeX) * 0.03;
        sy := (t.1 - refereeY) * 0.03;
        state := Running;
      } else {
        sx := sx * 0.9;
        sy := sy * 0.9;
        if Abs(sx) < 0.1 && Abs(sy) < 0.1 {
          state := Watching;
        }
      }
      refereeSpeedX := sx;
      refereeSpeedY := sy;
      refereeX := refereeX + sx;
      refereeY := refereeY + sy;
      if refereeStateTimer > 0 {
        refereeStateTimer := refereeStateTimer - 1;
        if refereeStateTimer <= 0 {
          state := Watching;
        }
      }
      refereeState := state;
    }

    /** Where the referee heads: behind the ball, inside the referee's margins. */
    function RefereeAim(): (real, real)
      requires ValidCanvas(width, height)
      reads this`ballX, this`ballY
    {
      RefereeTarget(ballX, ballY, width, height)
    }

    /** The referee is more than 50 from that point (compared squared). */
    predicate RefereeFar()
      requires ValidCanvas(width, height)
      reads this`ballX, this`ballY, this`refereeX, this`refereeY
    {
      var t := RefereeAim();
      DistSq(refereeX, refereeY, t.0, t.1) > 2500.0
    }

    // ---- Collisions ----

    /** `checkEnemyCollision`: the main player overlapping an opponent is pushed 5 clear of it
        sideways, opponent by opponent; a hard collision (speed over 4) draws a yellow card when
        that opponent's draw is under 0.15, and otherwise the referee is left as it was. */
    method CheckEnemyCollision(card: seq<real>)
      requires Valid() && FiveDraws(card)
      modifies this`playerX, this`refereeState, this`refereeStateTimer
      ensures playerY == old(playerY)
      ensures playerX == XBefore(old(playerX), playerY, enemies[..], 5)
      ensures CardDrawn(old(playerX), playerY, enemies[..], playerSpeed, card, 5) ==>
                refereeState == CardYellow && refereeStateTimer == 90
      ensures !CardDrawn(old(playerX), playerY, enemies[..], playerSpeed, card, 5) ==>
                refereeState == old(refereeState) && refereeStateTimer == old(refereeStateTimer)
    {
      var i := 0;
      while i < 5
        invariant 0 <= i <= 5
        invariant playerX == XBefore(old(playerX), playerY, enemies[..], i)
        invariant CardDrawn(old(playerX), playerY, enemies[..], playerSpeed, card, i) ==>
                    refereeState == CardYellow && refereeStateTimer == 90
        invariant !CardDrawn(old(playerX), playerY, enemies[..], playerSpeed, card, i) ==>
                    refereeState == old(refereeState) && refereeStateTimer == old(refereeStateTimer)
      {
        var e := enemies[i];
        if playerX < e.x + EnemyWidth && playerX + PlayerWidth > e.x &&
           playerY < e.y + EnemyHeight && playerY + PlayerHeight > e.y {
          var pushForce := Abs(playerSpeed);
          if playerX < e.x {
            playerX := e.x - PlayerWidth - 5.0;
          } else {
            playerX := e.x + EnemyWidth + 5.0;
          }
          if pushForce > 4.0 && card[i] < 0.15 {
            RefereeShowCard(false);
          }
        }
        i := i + 1;
      }
    }

    /** `checkBallEnemyCollision`: an opponent touching the ball clears it downfield from just
        below that opponent; then the top keeper sends it down and the bottom keeper sends it up.
        The ball's x never changes, and it ends untouched, cleared by an opponent, or saved by one
        of the keepers, each time placed 5 clear of whoever touched it last. */
    method CheckBallEnemyCollision(clearY: seq<real>, clearX: seq<real>)
      requires Valid() && FiveDraws(clearY) && FiveDraws(clearX)
      modifies this`ballY, this`ballSpeedX, this`ballSpeedY
      ensures ballX == old(ballX)
      ensures var kp := SettingsOf(difficulty).enemyKickPower;
              (ballY == old(ballY) && ballSpeedX == old(ballSpeedX) && ballSpeedY == old(ballSpeedY)) ||
              (kp <= ballSpeedY < kp + 3.0 && -2.0 <= ballSpeedX < 2.0 &&
               exists i :: 0 <= i < 5 && ballY == enemies[i].y + EnemyHeight + BallRadius + 5.0) ||
              (ballY == KeeperY + KeeperHeight + BallRadius + 5.0 && ballSpeedY >= 2.0) ||
              (ballY == MyKeeperY - BallRadius - 5.0 && ballSpeedY <= -3.0)
      ensures (forall j :: 0 <= j < 5 ==> !EnemyTouches(old(ballX), old(ballY), enemies[j])) &&
              !KeeperTouches(old(ballX), old(ballY), goalkeeperX) &&
              !MyKeeperTouches(old(ballX), old(ballY), myGoalkeeperX) ==>
                ballY == old(ballY) && ballSpeedX == old(ballSpeedX) && ballSpeedY == old(ballSpeedY)
      ensures var kp := SettingsOf(difficulty).enemyKickPower;
              (exists j :: 0 <= j < 5 && EnemyTouches(old(ballX), old(ballY), enemies[j])) ==>
                (kp <= ballSpeedY < kp + 3.0 && -2.0 <= ballSpeedX < 2.0 &&
                 exists i :: 0 <= i < 5 && ballY == enemies[i].y + EnemyHeight + BallRadius + 5.0) ||
                (ballY == KeeperY + KeeperHeight + BallRadius + 5.0 && ballSpeedY >= 2.0) ||
                (ballY == MyKeeperY - BallRadius - 5.0 && ballSpeedY <= -3.0)
      ensures (forall j :: 0 <= j < 5 ==> !EnemyTouches(old(ballX), old(ballY), enemies[j])) &&
              KeeperTouches(old(ballX), old(ballY), goalkeeperX) ==>
                (ballY == KeeperY + KeeperHeight + BallRadius + 5.0 && ballSpeedY >= 2.0) ||
                (ballY == MyKeeperY - BallRadius - 5.0 && ballSpeedY <= -3.0)
      ensures (forall j :: 0 <= j < 5 ==> !EnemyTouches(old(ballX), old(ballY), enemies[j])) &&
              !KeeperTouches(old(ballX), old(ballY), goalkeeperX) &&
              MyKeeperTouches(old(ballX), old(ballY), myGoalkeeperX) ==>
                ballY == MyKeeperY - BallRadius - 5.0 && ballSpeedY <= -3.0
      ensures (forall j :: 0 <= j < 5 ==> !EnemyTouches(old(ballX), old(ballY), enemies[j])) &&
              KeeperTouches(old(ballX), old(ballY), goalkeeperX) ==>
                Velocity(ballSpeedX, ballSpeedY) == KeeperSave(old(ballX), old(ballSpeedY), goalkeeperX)
      ensures (forall j :: 0 <= j < 5 ==> !EnemyTouches(old(ballX), old(ballY), enemies[j])) &&
              !KeeperTouches(old(ballX), old(ballY), goalkeeperX) &&
              MyKeeperTouches(old(ballX), old(ballY), myGoalkeeperX) ==>
                Velocity(ballSpeedX, ballSpeedY) == MyKeeperSave(old(ballX), old(ballSpeedY), myGoalkeeperX)
    {
      var kp := SettingsOf(difficulty).enemyKickPower;
      var i := 0;
      while i < 5
        invariant 0 <= i <= 5
        invariant (forall j :: 0 <= j < i ==> !EnemyTouches(old(ballX), old(ballY), enemies[j])) ==>
                    ballY == old(ballY) && ballSpeedX == old(ballSpeedX) && ballSpeedY == old(ballSpeedY)
        invariant (exists j :: 0 <= j < i && EnemyTouches(old(ballX), old(ballY), enemies[j])) ==>
                    kp <= ballSpeedY < kp + 3.0 && -2.0 <= ballSpeedX < 2.0 &&
                    exists j :: 0 <= j < 5 && ballY == enemies[j].y + EnemyHeight + BallRadius + 5.0
      {
        var e := enemies[i];
        if EnemyTouches(ballX, ballY, e) {
          var v := EnemyClearance(kp, clearY[i], clearX[i]);
          ballSpeedY := v.y;
          ballSpeedX := v.x;
          ballY := e.y + EnemyHeight + BallRadius + 5.0;
          assert ballY == enemies[i].y + EnemyHeight + BallRadius + 5.0;
        }
        i := i + 1;
      }
      if KeeperTouches(ballX, ballY, goalkeeperX) {
        var v := KeeperSave(ballX, ballSpeedY, goalkeeperX);
        ballSpeedY := v.y;
        ballSpeedX := v.x;
        ballY := KeeperY + KeeperHeight + BallRadius + 5.0;
      }
      if MyKeeperTouches(ballX, ballY, myGoalkeeperX) {
        var v := MyKeeperSave(ballX, ballSpeedY, myGoalkeeperX);
        ballSpeedY := v.y;
        ballSpeedX := v.x;
        ballY := MyKeeperY - BallRadius - 5.0;
      }
    }

    /** `checkTeammatePass`: a teammate touching the ball passes it upfield and the ball is put
        just above that teammate; its x never changes. Every teammate is tested where the ball
        was until one touches it, so the ball moves exactly when one touches it there. */
    method CheckTeammatePass(passY: seq<real>, passX: seq<real>)
      requires Valid() && FiveDraws(passY) && FiveDraws(passX)
      modifies this`ballY, this`ballSpeedX, this`ballSpeedY
      ensures ballX == old(ballX)
      ensures (forall j :: 0 <= j < 5 ==> !MateTouches(old(ballX), old(ballY), teammates[j])) ==>
                ballY == old(ballY) && ballSpeedX == old(ballSpeedX) && ballSpeedY == old(ballSpeedY)
      ensures (exists j :: 0 <= j < 5 && MateTouches(old(ballX), old(ballY), teammates[j])) ==>
                -9.0 < ballSpeedY <= -6.0 && -2.0 <= ballSpeedX < 2.0 &&
                exists i :: 0 <= i < 5 && ballY == teammates[i].y - BallRadius - 5.0
    {
      var i := 0;
      while i < 5
        invariant 0 <= i <= 5
        invariant (forall j :: 0 <= j < i ==> !MateTouches(old(ballX), old(ballY), teammates[j])) ==>
                    ballY == old(ballY) && ballSpeedX == old(ballSpeedX) && ballSpeedY == old(ballSpeedY)
        invariant (exists j :: 0 <= j < i && MateTouches(old(ballX), old(ballY), teammates[j])) ==>
                    -9.0 < ballSpeedY <= -6.0 && -2.0 <= ballSpeedX < 2.0 &&
                    exists j :: 0 <= j < 5 && ballY == teammates[j].y - BallRadius - 5.0
      {
        var m := teammates[i];
        if MateTouches(ballX, ballY, m) {
          var v := TeammatePass(passY[i], passX[i]);
          ballSpeedY := v.y;
          ballSpeedX := v.x;
          ballY := m.y - BallRadius - 5.0;
          assert ballY == teammates[i].y - BallRadius - 5.0;
        }
        i := i + 1;
      }
    }

    /** The ball overlaps player 2's box widened by the ball's radius. */
    predicate BallTouchesP2()
      reads this`ballX, this`ballY, this`player2X, this`player2Y
    {
      ballX > player2X - BallRadius && ballX < player2X + PlayerWidth + BallRadius &&
      ballY > player2Y - BallRadius && ballY < player2Y + PlayerHeight + BallRadius
    }

    /** `checkPlayer2BallCollision` acts: multiplayer, the ball touches player 2 and its offset
        from player 2's centre has a positive length. */
    predicate Dribbles(norm: (real, real) -> real)
      reads this`gameMode, this`ballX, this`ballY, this`player2X, this`player2Y
    {
      gameMode == Multi && BallTouchesP2() &&
      norm(ballX - (player2X + PlayerWidth / 2.0), ballY - (player2Y + PlayerHeight / 2.0)) > 0.0
    }

    /** `checkPlayer2BallCollision`: in multiplayer, a ball touching player 2 is pushed out along
        the centre-to-ball direction (to 37 from the centre; `norm` is the Euclidean length), so it
        stays on its side of the centre on both axes, and a running player 2 sets the speed
        components of its pressed keys to ±2, right over left and down over up. */
    method CheckPlayer2BallCollision(norm: (real, real) -> real)
      modifies this`ballX, this`ballY, this`ballSpeedX, this`ballSpeedY
      ensures IsLength(norm) ==>
                (old(Dribbles(norm)) <==>
                   gameMode == Multi && old(BallTouchesP2()) &&
                   (old(ballX) != player2X + PlayerWidth / 2.0 || old(ballY) != player2Y + PlayerHeight / 2.0))
      ensures !old(Dribbles(norm)) ==>
                ballX == old(ballX) && ballY == old(ballY) && ballSpeedX == old(ballSpeedX) && ballSpeedY == old(ballSpeedY)
      ensures old(Dribbles(norm)) ==>
                var cx := player2X + PlayerWidth / 2.0;
                (ballX > cx <==> old(ballX) > cx) && (ballX < cx <==> old(ballX) < cx)
      ensures old(Dribbles(norm)) ==>
                var cy := player2Y + PlayerHeight / 2.0;
                (ballY > cy <==> old(ballY) > cy) && (ballY < cy <==> old(ballY) < cy)
      ensures old(Dribbles(norm)) && player2IsRunning ==>
                (p2.right ==> ballSpeedX == 2.0) && (p2.left && !p2.right ==> ballSpeedX == -2.0) &&
                (!p2.left && !p2.right ==> ballSpeedX == old(ballSpeedX))
      ensures old(Dribbles(norm)) && player2IsRunning ==>
                (p2.down ==> ballSpeedY == 2.0) && (p2.up && !p2.down ==> ballSpeedY == -2.0) &&
                (!p2.up && !p2.down ==> ballSpeedY == old(ballSpeedY))
      ensures !player2IsRunning ==> ballSpeedX == old(ballSpeedX) && ballSpeedY == old(ballSpeedY)
    {
      if gameMode != Multi {
        return;
      }
      if ballX > player2X - BallRadius && ballX < player2X + PlayerWidth + BallRadius &&
         ballY > player2Y - BallRadius && ballY < player2Y + PlayerHeight + BallRadius {
        var cx := player2X + PlayerWidth / 2.0;
        var cy := player2Y + PlayerHeight / 2.0;
        var pushX := ballX - cx;
        var pushY := ballY - cy;
        var d := norm(pushX, pushY);
        if d > 0.0 {
          ChaseKeepsSign(pushX, d, PlayerWidth / 2.0 + BallRadius + 5.0);
          ChaseKeepsSign(pushY, d, PlayerHeight / 2.0 + BallRadius + 5.0);
          ballX := cx + (pushX / d) * (PlayerWidth / 2.0 + BallRadius + 5.0);
          ballY := cy + (pushY / d) * (PlayerHeight / 2.0 + BallRadius + 5.0);
          if player2IsRunning {
            NudgeBall();
          }
        }
      }
    }

    /** A running player 2's nudge: the pressed keys set the ball's speed components to ±2, the
        later test (right, down) winning. */
    method NudgeBall()
      modifies this`ballSpeedX, this`ballSpeedY
      ensures (p2.right ==> ballSpeedX == 2.0) && (p2.left && !p2.right ==> ballSpeedX == -2.0) &&
              (!p2.left && !p2.right ==> ballSpeedX == old(ballSpeedX))
      ensures (p2.down ==> ballSpeedY == 2.0) && (p2.up && !p2.down ==> ballSpeedY == -2.0) &&
              (!p2.up && !p2.down ==> ballSpeedY == old(ballSpeedY))
    {
      if p2.left {
        ballSpeedX := -2.0;
      }
      if p2.right {
        ballSpeedX := 2.0;
      }
      if p2.up {
        ballSpeedY := -2.0;
      }
      if p2.down {
        ballSpeedY := 2.0;
      }
    }

    // ---- Clock and match start ----

    function ClockState(): Clock
      reads this`timeLeft, this`gameOver
    {
      Clock(timeLeft, gameOver)
    }

    /** `countDown`: one clock step, running only once the game has started and never on a
        multiplayer guest (the host owns the clock). */
    method CountDown()
      modifies this`timeLeft, this`gameOver
      ensures ClockState() == ClockStep(old(ClockState()), gameStarted && HostSimulates())
    {
      if !gameOver && gameStarted {
        if gameMode == Multi && !Host() {
          return;
        }
        timeLeft := timeLeft - 1;
        if timeLeft <= 0 {
          gameOver := true;
        }
      }
    }

    /** `startGame`'s state changes, with `initializeWeather`'s draws as parameters: the tier's
        speeds, the match length, the opponents' speeds reset to the tier, and whether a host
        announces the start (`connected` is whether its socket is open). */
    method StartGame(chosen: Difficulty, fromNetwork: bool, providedTime: Option<int>,
                     r1: real, r2: real, r3: real, connected: bool) returns (announce: bool)
      requires Valid() && 0.0 <= r1 < 1.0 && 0.0 <= r2 < 1.0 && 0.0 <= r3 < 1.0
      modifies this`difficulty, this`gameStarted, this`weatherType, this`windStrength,
               this`playerSpeed, this`goalkeeperSpeed, this`timeLeft, enemies
      ensures Valid()
      ensures difficulty == chosen && gameStarted
      ensures Weather(weatherType, windStrength) == InitialWeather(r1, r2, r3)
      ensures playerSpeed == SettingsOf(chosen).playerSpeed && goalkeeperSpeed == SettingsOf(chosen).goalkeeperSpeed
      ensures timeLeft == MatchLength(chosen, gameMode, providedTime)
      ensures forall i :: 0 <= i < 5 ==> enemies[i] == TierSpeed(old(enemies[i]), SettingsOf(chosen).enemySpeed)
      ensures announce == (!fromNetwork && Host() && connected)
    {
      difficulty := chosen;
      gameStarted := true;
      SetWeather(InitialWeather(r1, r2, r3));
      var settings := SettingsOf(difficulty);
      ApplySettings(settings, providedTime);
      SetEnemySpeeds(settings.enemySpeed);
      if gameMode == Multi && providedTime.None? {
        timeLeft := MultiplayerMatchLength;
      }
      announce := !fromNetwork && gameMode == Multi && Host() && connected;
    }

    /** The weather `initializeWeather` chose. */
    method SetWeather(w: Weather)
      modifies this`weatherType, this`windStrength
      ensures Weather(weatherType, windStrength) == w
    {
      weatherType := w.kind;
      windStrength := w.wind;
    }

    /** A tier's player and keeper speeds, and its match length unless a length is provided. */
    method ApplySettings(settings: Settings, providedTime: Option<int>)
      modifies this`playerSpeed, this`goalkeeperSpeed, this`timeLeft
      ensures playerSpeed == settings.playerSpeed && goalkeeperSpeed == settings.goalkeeperSpeed
      ensures timeLeft == if providedTime.Some? then providedTime.value else settings.timeLimit
    {
      playerSpeed := settings.playerSpeed;
      goalkeeperSpeed := settings.goalkeeperSpeed;
      timeLeft := if providedTime.Some? then providedTime.value else settings.timeLimit;
    }

    /** The loop of `startGame` over the opponents: each keeps its directions at the tier's speed. */
    method SetEnemySpeeds(enemySpeed: real)
      requires enemies.Length == 5
      modifies enemies
      ensures forall i :: 0 <= i < 5 ==> enemies[i] == TierSpeed(old(enemies[i]), enemySpeed)
    {
      for i := 0 to 5
        invariant forall j :: 0 <= j < i ==> enemies[j] == TierSpeed(old(enemies[j]), enemySpeed)
        invariant forall j :: i <= j < 5 ==> enemies[j] == old(enemies[j])
      {
        enemies[i] := TierSpeed(enemies[i], enemySpeed);
      }
    }

    // ---- Network ----

    /** `snapshotState`. */
    function SnapshotState(): Snapshot
      reads this
    {
      Snapshot(playerX, playerY, player2X, player2Y, ballX, ballY, ballSpeedX, ballSpeedY,
               ballSpin, ballRotation, ballHeight, ballHeightVel, score, enemyScore, timeLeft, gameOver,
               weatherType, windStrength)
    }

    /** Every field of the snapshot takes its value from `n`. */
    method TakeSnapshot(n: Snapshot)
      modifies this`playerX, this`playerY, this`player2X, this`player2Y, this`ballX, this`ballY,
               this`ballSpeedX, this`ballSpeedY, this`ballSpin, this`ballRotation, this`ballHeight,
               this`ballHeightVel, this`score, this`enemyScore, this`timeLeft, this`gameOver,
               this`weatherType, this`windStrength
      ensures SnapshotState() == n
    {
      TakePlayers(n);
      TakeBallMotion(n);
      TakeBallSpin(n);
      TakeMatch(n);
    }

    /** The players' positions from `n`. */
    method TakePlayers(n: Snapshot)
      modifies this`playerX, this`playerY, this`player2X, this`player2Y
      ensures playerX == n.playerX && playerY == n.playerY && player2X == n.player2X && player2Y == n.player2Y
    {
      playerX := n.playerX;
      playerY := n.playerY;
      player2X := n.player2X;
      player2Y := n.player2Y;
    }

    /** The ball's position and speed from `n`. */
    method TakeBallMotion(n: Snapshot)
      modifies this`ballX, this`ballY, this`ballSpeedX, this`ballSpeedY
      ensures ballX == n.ballX && ballY == n.ballY && ballSpeedX == n.ballSpeedX && ballSpeedY == n.ballSpeedY
    {
      ballX := n.ballX;
      ballY := n.ballY;
      ballSpeedX := n.ballSpeedX;
      ballSpeedY := n.ballSpeedY;
    }

    /** The ball's spin and height from `n`. */
    method TakeBallSpin(n: Snapshot)
      modifies this`ballSpin, this`ballRotation, this`ballHeight, this`ballHeightVel
      ensures ballSpin == n.ballSpin && ballRotation == n.ballRotation && ballHeight == n.ballHeight && ballHeightVel == n.ballHeightVel
    {
      ballSpin := n.ballSpin;
      ballRotation := n.ballRotation;
      ballHeight := n.ballHeight;
      ballHeightVel := n.ballHeightVel;
    }

    /** The scores, the clock and the weather from `n`. */
    method TakeMatch(n: Snapshot)
      modifies this`score, this`enemyScore, this`timeLeft, this`gameOver, this`weatherType, this`windStrength
      ensures score == n.score && enemyScore == n.enemyScore && timeLeft == n.timeLeft && gameOver == n.gameOver
      ensures weatherType == n.weatherType && windStrength == n.windStrength
    {
      score := n.score;
      enemyScore := n.enemyScore;
      timeLeft := n.timeLeft;
      gameOver := n.gameOver;
      weatherType := n.weatherType;
      windStrength := n.windStrength;
    }

    /** `applyRemoteState`: ignored without a payload and on the host; a guest takes every field
        of the snapshot (`payload.data`, or the payload itself), keeping its own weather when the
        received one is falsy. Nothing outside the snapshot changes. */
    method ApplyRemoteState(payload: Option<StatePayload>)
      modifies this`playerX, this`playerY, this`player2X, this`player2Y, this`ballX, this`ballY,
               this`ballSpeedX, this`ballSpeedY, this`ballSpin, this`ballRotation, this`ballHeight,
               this`ballHeightVel, this`score, this`enemyScore, this`timeLeft, this`gameOver,
               this`weatherType, this`windStrength
      ensures payload.None? || Host() ==> SnapshotState() == old(SnapshotState())
      ensures payload.Some? && !Host() ==> SnapshotState() == Received(old(SnapshotState()), payload.value.data)
    {
      if payload.Some? && !Host() {
        TakeSnapshot(Received(SnapshotState(), payload.value.data));
      }
    }

    /** `applyRemoteInput`: a "p1" message from the peer overwrites exactly player 1's controls, a
        "p2" message exactly player 2's; anything else changes nothing. */
    method ApplyRemoteInput(payload: Json)
      modifies this`p1, this`p2
      ensures match RemoteInputEffect(payload, netRole)
              case NoUpdate => p1 == old(p1) && p2 == old(p2)
              case SetP1(c) => p1 == c && p2 == old(p2)
              case SetP2(c) => p2 == c && p1 == old(p1)
    {
      match RemoteInputEffect(payload, netRole)
      case NoUpdate =>
      case SetP1(c) => p1 := c;
      case SetP2(c) => p2 := c;
    }

    /** The `joined` handler: the role and room the relay assigned, "solo" and the current room
        when missing. */
    method OnJoined(role: Option<string>, room: Option<string>)
      modifies this`netRole, this`roomId
      ensures Present(role) ==> netRole == role.value
      ensures !Present(role) ==> netRole == RoleSolo
      ensures roomId == if Present(room) then room.value else old(roomId)
    {
      var options := [role, Some(RoleSolo)];
      assert Present(options[1]);
      netRole := FirstNonEmpty(options).value;
      if Present(room) {
        roomId := room.value;
      }
    }

    // ---- Keyboard ----

    /** The part of the ball's state a kick sets. */
    function BallKick(): KickState
      reads this`ballSpeedX, this`ballSpeedY, this`ballSpin, this`ballHeightVel, this`ballRotation
    {
      KickState(ballSpeedX, ballSpeedY, ballSpin, ballHeightVel, ballRotation)
    }

    /** The ball's kick state after `kickBall(isPowerShot, playerNum)` run with player 1's power
        at `power`: the kick's velocity, spin and lift, with the rotation advanced by a tenth of
        the new horizontal speed, while the match is on and the kicker is in range; the state as
        it is otherwise. */
    function AfterKick(isPowerShot: bool, playerNum: int, spinDraw: real, power: real): (k: KickState)
      requires -1 <= controlledPlayerIndex < teammates.Length && 0.0 <= spinDraw < 1.0
      reads this`gameOver, this`controlledPlayerIndex, this`playerX, this`playerY, this`player2X, this`player2Y,
            this`ballX, this`ballY, this`ballSpeedX, this`ballSpeedY, this`ballSpin, this`ballHeightVel,
            this`ballRotation, teammates
      ensures gameOver || !InKickRange(playerNum) ==> k == BallKick()
      ensures !gameOver && InKickRange(playerNum) ==>
                var d := KickOffset(playerNum);
                Velocity(k.speedX, k.speedY) == KickVelocity(isPowerShot, d.0, d.1, power) &&
                k.spin == KickSpin(isPowerShot, spinDraw) && k.heightVel == KickLift(isPowerShot, power) &&
                k.rotation == ballRotation + Abs(k.speedX) * 0.1
    {
      if !gameOver && InKickRange(playerNum) then
        var d := KickOffset(playerNum);
        var v := KickVelocity(isPowerShot, d.0, d.1, power);
        KickState(v.x, v.y, KickSpin(isPowerShot, spinDraw), KickLift(isPowerShot, power), ballRotation + Abs(v.x) * 0.1)
      else BallKick()
    }

    /** Player 1's block of the keydown handler: Space kicks (a power shot when charging with more
        than 20 power) before the controls take the key. */
    method P1KeyDown(key: string, spinDraw: real) returns (kick: KickCall)
      requires Valid() && 0.0 <= spinDraw < 1.0
      modifies this`p1, this`ballSpeedX, this`ballSpeedY, this`ballSpin, this`ballHeightVel, this`ballRotation
      ensures Valid()
      ensures p1 == PressP1(old(p1), key)
      ensures key == " " ==>
                kick == Kick(old(p1.charging) && old(p1.power) > 20.0, 1) &&
                BallKick() == old(AfterKick(p1.charging && p1.power > 20.0, 1, spinDraw, p1.power))
      ensures key != " " ==> kick == NoKick && BallKick() == old(BallKick())
    {
      kick := NoKick;
      if key == " " {
        var isPower := p1.charging && p1.power > 20.0;
        KickBall(isPower, 1, spinDraw);
        kick := Kick(isPower, 1);
      }
      p1 := PressP1(p1, key);
    }

    /** Player 2's block of the keydown handler: E kicks the same way before the controls take
        the key. */
    method P2KeyDown(key: string, spinDraw: real) returns (kick: KickCall)
      requires Valid() && 0.0 <= spinDraw < 1.0
      modifies this`p2, this`ballSpeedX, this`ballSpeedY, this`ballSpin, this`ballHeightVel, this`ballRotation
      ensures Valid()
      ensures p2 == PressP2(old(p2), key)
      ensures key == "e" || key == "E" ==>
                kick == Kick(old(p2.charging) && old(p2.power) > 20.0, 2) &&
                BallKick() == old(AfterKick(p2.charging && p2.power > 20.0, 2, spinDraw, p1.power))
      ensures key != "e" && key != "E" ==> kick == NoKick && BallKick() == old(BallKick())
    {
      kick := NoKick;
      if key == "e" || key == "E" {
        var isPower := p2.charging && p2.power > 20.0;
        KickBall(isPower, 2, spinDraw);
        kick := Kick(isPower, 2);
      }
      p2 := PressP2(p2, key);
    }

    /** The keydown handler: player 1's keys act unless this is the "p2" client, player 2's only
        in multiplayer and never on the "p1" client. `socket` says whether `wsConnection` holds a
        socket object; in multiplayer the handler's first `emitInput` then throws and ends it.
        Returns the `kickBall` call made, the `emitInput` calls made and whether one threw. */
    method KeyDown(key: string, spinDraw: real, socket: bool) returns (kick: KickCall, emitted: seq<string>, threw: bool)
      requires Valid() && 0.0 <= spinDraw < 1.0
      modifies this`p1, this`p2, this`ballSpeedX, this`ballSpeedY, this`ballSpin, this`ballHeightVel, this`ballRotation
      ensures Valid()
      ensures p1 == if P1KeysActive(gameMode, netRole) then PressP1(old(p1), key) else old(p1)
      ensures p2 == if P2BlockRuns(gameMode, netRole, socket) then PressP2(old(p2), key) else old(p2)
      ensures P1KeysActive(gameMode, netRole) && key == " " ==>
                kick == Kick(old(p1.charging) && old(p1.power) > 20.0, 1) &&
                BallKick() == old(AfterKick(p1.charging && p1.power > 20.0, 1, spinDraw, p1.power))
      ensures P2BlockRuns(gameMode, netRole, socket) && (key == "e" || key == "E") ==>
                kick == Kick(old(p2.charging) && old(p2.power) > 20.0, 2) &&
                BallKick() == old(AfterKick(p2.charging && p2.power > 20.0, 2, spinDraw, p1.power))
      ensures (!P1KeysActive(gameMode, netRole) || key != " ") &&
              (!P2BlockRuns(gameMode, netRole, socket) || (key != "e" && key != "E")) ==>
                kick == NoKick && BallKick() == old(BallKick())
      ensures emitted == InputCalls(gameMode, netRole, socket)
      ensures threw == InputThrows(gameMode, socket)
    {
      var kick1, kick2 := NoKick, NoKick;
      var p2Runs := P2BlockRuns(gameMode, netRole, socket);
      if P1KeysActive(gameMode, netRole) {
        kick1 := P1KeyDown(key, spinDraw);
      }
      if p2Runs {
        kick2 := P2KeyDown(key, spinDraw);
      }
      emitted, threw := InputCalls(gameMode, netRole, socket), InputThrows(gameMode, socket);
      kick := if kick1.Kick? then kick1 else kick2;
    }

    /** The keyup handler, with the same gating, input calls and throw. */
    method KeyUp(key: string, socket: bool) returns (emitted: seq<string>, threw: bool)
      modifies this`p1, this`p2
      ensures p1 == if P1KeysActive(gameMode, netRole) then ReleaseP1(old(p1), key) else old(p1)
      ensures p2 == if P2BlockRuns(gameMode, netRole, socket) then ReleaseP2(old(p2), key) else old(p2)
      ensures emitted == InputCalls(gameMode, netRole, socket)
      ensures threw == InputThrows(gameMode, socket)
    {
      emitted, threw := [], false;
      if P1KeysActive(gameMode, netRole) {
        p1 := ReleaseP1(p1, key);
        if gameMode == Multi {
          emitted := emitted + [RoleP1];
          threw := socket;
        }
      }
      if gameMode == Multi && !threw {
        if netRole != RoleP1 {
          p2 := ReleaseP2(p2, key);
        }
        emitted := emitted + [RoleP2];
        threw := socket;
      }
    }

    // ---- The game loop ----

    /** The first movers of `gameLoop`: player 1, player 2 and the ball. */
    method MovePlayersAndBall()
      requires Valid()
      modifies this`controlledPlayerIndex, this`isRunning, this`playerStamina, this`playerX, this`playerY, teammates,
               this`player2IsRunning, this`player2Stamina, this`player2X, this`player2Y, this`p2,
               this`ballTrail, this`ballX, this`ballY, this`ballSpeedX, this`ballSpeedY,
               this`ballSpin, this`ballRotation, this`ballHeight, this`ballHeightVel
      ensures Valid()
      ensures old(ballHeight) >= 0.0 ==> ballHeight >= 0.0
      ensures 0.0 <= old(playerStamina) <= 100.0 ==> 0.0 <= playerStamina <= 100.0
      ensures 0.0 <= old(player2Stamina) <= 100.0 ==> 0.0 <= player2Stamina <= 100.0
      ensures 0.0 <= old(p2.power) <= MaxPower ==> 0.0 <= p2.power <= MaxPower
    {
      MovePlayer();
      MovePlayer2();
      MoveBall();
    }

    /** The computer-driven movers of `gameLoop`: the opponents (single player only), both
        keepers, the teammates and the referee. */
    method MoveOthers(norm: (real, real) -> real, dice: Dice)
      requires Valid() && DiceOk(dice)
      modifies enemies, teammates, this`goalkeeperX, this`myGoalkeeperX,
               this`refereeX, this`refereeY, this`refereeSpeedX, this`refereeSpeedY, this`refereeState, this`refereeStateTimer
      ensures Valid()
      ensures GoalX + 5.0 <= goalkeeperX <= GoalX + GoalWidth - KeeperWidth - 5.0
      ensures EnemyGoalX + 5.0 <= myGoalkeeperX <= EnemyGoalX + EnemyGoalWidth - MyKeeperWidth - 5.0
      ensures gameMode == Single ==>
                forall i :: 0 <= i < 5 ==>
                  10.0 <= enemies[i].x <= width - EnemyWidth - 10.0 && 80.0 <= enemies[i].y <= height - EnemyHeight - 60.0
    {
      if gameMode == Single {
        MoveEnemies(norm, dice.wander, dice.wanderX, dice.wanderY);
      }
      MoveGoalkeeper();
      MoveMyGoalkeeper();
      MoveTeammates();
      MoveReferee();
    }

    /** The collision checks of `gameLoop` (the opponents' only in single player), then the goal
        check. At most one goal is scored. */
    method ResolveContacts(norm: (real, real) -> real, dice: Dice)
      requires Valid() && DiceOk(dice)
      modifies this`playerX, this`refereeState, this`refereeStateTimer,
               this`ballX, this`ballY, this`ballSpeedX, this`ballSpeedY,
               this`score, this`enemyScore, this`showingGoalMessage, this`goalMessageTimer,
               this`playerY, this`player2X, this`player2Y, this`controlledPlayerIndex, teammates
      ensures Valid()
      ensures old(score) <= score && old(enemyScore) <= enemyScore && score + enemyScore <= old(score) + old(enemyScore) + 1
    {
      if gameMode == Single {
        CheckEnemyCollision(dice.card);
        CheckBallEnemyCollision(dice.clearY, dice.clearX);
      }
      CheckTeammatePass(dice.passY, dice.passX);
      CheckPlayer2BallCollision(norm);
      CheckGoal();
    }

    /** The work of one live frame of `gameLoop`, in the source's order: the players and the ball,
        the computer-driven movers, the contacts and the goal, then one tick of Shift-charging.
        The clock, the mode and the role are outside its frame; at most one goal is scored. */
    method Simulate(norm: (real, real) -> real, dice: Dice)
      requires Valid() && DiceOk(dice)
      modifies this`controlledPlayerIndex, this`isRunning, this`playerStamina, this`playerX, this`playerY,
               this`player2IsRunning, this`player2Stamina, this`player2X, this`player2Y, this`p1, this`p2,
               this`ballTrail, this`ballX, this`ballY, this`ballSpeedX, this`ballSpeedY,
               this`ballSpin, this`ballRotation, this`ballHeight, this`ballHeightVel,
               this`goalkeeperX, this`myGoalkeeperX, this`refereeX, this`refereeY, this`refereeSpeedX,
               this`refereeSpeedY, this`refereeState, this`refereeStateTimer,
               this`score, this`enemyScore, this`showingGoalMessage, this`goalMessageTimer, teammates, enemies
      ensures Valid()
      ensures old(score) <= score && old(enemyScore) <= enemyScore && score + enemyScore <= old(score) + old(enemyScore) + 1
      ensures old(ballHeight) >= 0.0 ==> ballHeight >= 0.0
      ensures 0.0 <= old(playerStamina) <= 100.0 ==> 0.0 <= playerStamina <= 100.0
      ensures 0.0 <= old(player2Stamina) <= 100.0 ==> 0.0 <= player2Stamina <= 100.0
      ensures 0.0 <= old(p1.power) <= MaxPower ==> 0.0 <= p1.power <= MaxPower
      ensures 0.0 <= old(p2.power) <= MaxPower ==> 0.0 <= p2.power <= MaxPower
      ensures GoalX + 5.0 <= goalkeeperX <= GoalX + GoalWidth - KeeperWidth - 5.0
      ensures EnemyGoalX + 5.0 <= myGoalkeeperX <= EnemyGoalX + EnemyGoalWidth - MyKeeperWidth - 5.0
      ensures gameMode == Single ==>
                forall i :: 0 <= i < 5 ==>
                  10.0 <= enemies[i].x <= width - EnemyWidth - 10.0 && 80.0 <= enemies[i].y <= height - EnemyHeight - 60.0
    {
      MovePlayersAndBall();
      MoveOthers(norm, dice);
      ResolveContacts(norm, dice);
      p1 := p1.(power := Charged(p1.power, p1.charging));
    }

    /** One frame of `gameLoop`: nothing happens once the match is over or on a client that does
        not simulate (a multiplayer guest); otherwise the frame's work runs. */
    method Tick(norm: (real, real) -> real, dice: Dice)
      requires Valid() && DiceOk(dice)
      modifies this, teammates, enemies
      ensures Valid()
      ensures old(gameOver) || !old(HostSimulates()) ==> unchanged(this) && unchanged(teammates) && unchanged(enemies)
      ensures gameMode == old(gameMode) && netRole == old(netRole) && difficulty == old(difficulty)
      ensures timeLeft == old(timeLeft) && gameOver == old(gameOver)
      ensures old(score) <= score && old(enemyScore) <= enemyScore && score + enemyScore <= old(score) + old(enemyScore) + 1
      ensures old(ballHeight) >= 0.0 ==> ballHeight >= 0.0
      ensures 0.0 <= old(playerStamina) <= 100.0 ==> 0.0 <= playerStamina <= 100.0
      ensures 0.0 <= old(player2Stamina) <= 100.0 ==> 0.0 <= player2Stamina <= 100.0
      ensures 0.0 <= old(p1.power) <= MaxPower ==> 0.0 <= p1.power <= MaxPower
      ensures 0.0 <= old(p2.power) <= MaxPower ==> 0.0 <= p2.power <= MaxPower
      ensures !old(gameOver) && old(HostSimulates()) ==>
                GoalX + 5.0 <= goalkeeperX <= GoalX + GoalWidth - KeeperWidth - 5.0 &&
                EnemyGoalX + 5.0 <= myGoalkeeperX <= EnemyGoalX + EnemyGoalWidth - MyKeeperWidth - 5.0
      ensures !old(gameOver) && old(HostSimulates()) && gameMode == Single ==>
                forall i :: 0 <= i < 5 ==>
                  10.0 <= enemies[i].x <= width - EnemyWidth - 10.0 && 80.0 <= enemies[i].y <= height - EnemyHeight - 60.0
    {
      if !gameOver && HostSimulates() {
        Simulate(norm, dice);
      }
    }
  }
}
