/** The gameplay state machine of assets/js/drive.js as one object.

    The script keeps its state in module-level variables that its functions
    reassign and whose arrays they change in place with `push` and with
    `splice(i, 1); i--` loops. Here that state is the class World and each of
    those functions is a method that changes exactly the fields the script's
    function changes. The three passes that only rewrite one array (and the
    score) are methods on the list itself, whose result World.Move stores
    back; their loops keep the script's splice-and-step-back shape. The
    browser's inputs become parameters: `now` stands for Date.now(), the
    spawn rolls and lane choices for Math.random(), and `rng` for the random
    draws behind each particle.
 */
module Drive {
  import opened Seqs
  import opened Play
  import opened Frames

  /** updateParticles: every particle moves, fades and ages once; those out
      of life or fully faded are removed, the rest keep their order. The list
      is changed in place as the script's loop does; the caller stores it. */
  method UpdateParticles(ps0: seq<Particle>) returns (ps: seq<Particle>)
    ensures ps == UpdatedParticles(ps0)
  {
    ps := ps0;
    ghost var k := 0;
    var i := 0;
    while i < |ps|
      invariant 0 <= i <= |ps| && 0 <= k <= |ps0|
      invariant ps[..i] == UpdatedParticles(ps0[..k])
      invariant ps[i..] == ps0[k..]
      decreases |ps0| - k
    {
      var p := ps[i];
      assert p == ps0[k] && ps0[k..][1..] == ps0[k + 1..];
      assert ps0[..k + 1] == ps0[..k] + [p];
      UpdatedParticlesSnoc(ps0[..k], p);
      p := p.(x := p.x + p.speedX, y := p.y + p.speedY);
      p := p.(opacity := p.opacity - OpacityDecay);
      p := p.(life := p.life - 1);
      ghost var before := ps;
      ps := ps[i := p];
      if p.life <= 0 || p.opacity <= 0.0 {
        UpdateDrop(before, ps0[k..], i, p);
        ps := ps[..i] + ps[i + 1..];
        i := i - 1;
      } else {
        UpdateKeep(before, ps0[k..], i, p);
      }
      i := i + 1;
      k := k + 1;
    }
    assert ps0[..k] == ps0;
    assert ps[..i] == ps;
  }

  /** The obstacle pass of gameLoop: every obstacle falls by 5; those now
      below the bottom edge (`height`) are removed, each adding 10 to the
      score as it goes. */
  method AdvanceObstacles(obs0: seq<Obstacle>, score0: int, height: real)
    returns (obs: seq<Obstacle>, score: int)
    ensures obs == FallenObstacles(obs0, height)
    ensures score == score0 + ObstacleBonus * (|obs0| - |obs|)
  {
    obs, score := obs0, score0;
    ghost var k := 0;
    var i := 0;
    while i < |obs|
      invariant 0 <= i <= |obs| && 0 <= k <= |obs0|
      invariant obs[..i] == FallenObstacles(obs0[..k], height)
      invariant obs[i..] == obs0[k..]
      invariant score == score0 + ObstacleBonus * (k - i)
      decreases |obs0| - k
    {
      var o := obs[i];
      assert o == obs0[k] && obs0[k..][1..] == obs0[k + 1..];
      assert obs0[..k + 1] == obs0[..k] + [o];
      FallenObstaclesSnoc(obs0[..k], height, o);
      o := o.(y := o.y + ObstacleSpeed);
      UpdateKeep(obs, obs0[k..], i, o);
      UpdateDrop(obs, obs0[k..], i, o);
      obs := obs[i := o];
      if o.y > height {
        obs := obs[..i] + obs[i + 1..];
        assert ObstacleBonus * (k + 1 - i) == ObstacleBonus * (k - i) + ObstacleBonus;
        i := i - 1;
        score := score + ObstacleBonus;
      }
      i := i + 1;
      k := k + 1;
    }
    assert obs0[..k] == obs0;
    assert obs[..i] == obs;
  }

  /** The coin pass of gameLoop: every coin falls by 5; those now below the
      bottom edge are removed, for no points. */
  method AdvanceCoins(cs0: seq<Coin>, height: real) returns (cs: seq<Coin>)
    ensures cs == FallenCoins(cs0, height)
  {
    cs := cs0;
    ghost var k := 0;
    var i := 0;
    while i < |cs|
      invariant 0 <= i <= |cs| && 0 <= k <= |cs0|
      invariant cs[..i] == FallenCoins(cs0[..k], height)
      invariant cs[i..] == cs0[k..]
      decreases |cs0| - k
    {
      var c := cs[i];
      assert c == cs0[k] && cs0[k..][1..] == cs0[k + 1..];
      assert cs0[..k + 1] == cs0[..k] + [c];
      FallenCoinsSnoc(cs0[..k], height, c);
      c := c.(y := c.y + CoinSpeed);
      ghost var before := cs;
      cs := cs[i := c];
      if c.y > height {
        UpdateDrop(before, cs0[k..], i, c);
        cs := cs[..i] + cs[i + 1..];
        i := i - 1;
      } else {
        UpdateKeep(before, cs0[k..], i, c);
      }
      i := i + 1;
      k := k + 1;
    }
    assert cs0[..k] == cs0;
    assert cs[..i] == cs;
  }

  class World {
    /** Canvas size, fixed for the life of a game. */
    const canvasWidth: real
    const canvasHeight: real
    const laneWidth: real
    const vehicleY: real

    var currentLane: Lane
    var vehicleX: real
    var obstacles: seq<Obstacle>
    var coins: seq<Coin>
    var particles: seq<Particle>
    var score: int
    /** The value last written under the storage key "score"; None while nothing is stored. */
    var stored: Option<int>
    var gameOver: bool
    var lastObstacleTime: int
    var lastCoinTime: int
    /** Scroll offset of the dashed centre line. */
    var lineY: real
    var musicStarted: bool
    var soundsAllowed: bool

    /** The lanes split the canvas in two, the vehicle sits centred in its
        lane with its top edge 70 pixels and its bottom edge 30 pixels above
        the canvas's bottom edge, and the centre line's offset
        stays within one period. (What a frame keeps true of the object lists
        is Frames.Stocked, carried by Frames.StepKeepsStocked.) */
    ghost predicate Valid()
      reads this
    {
      && laneWidth == canvasWidth / 2.0
      && vehicleY == canvasHeight - VehicleHeight - VehicleMargin
      && vehicleX == LaneX(laneWidth, currentLane, VehicleWidth)
      && 0.0 <= lineY <= LinePeriod
    }

    /** The part of the state a frame changes. */
    function State(): Scene
      reads this
    {
      Scene(lineY, obstacles, coins, particles, score, stored, gameOver, lastObstacleTime, lastCoinTime)
    }

    /** The vehicle's collision rectangle. */
    function Vehicle(): Box
      reads this`vehicleX
    {
      Box(vehicleX, vehicleY, VehicleWidth, VehicleHeight)
    }

    /** A fresh page load: `saved` is what storage holds under "score". */
    constructor (width: real, height: real, saved: Option<int>)
      ensures Valid()
      ensures canvasWidth == width && canvasHeight == height
      ensures currentLane == 0 && obstacles == [] && coins == [] && particles == []
      ensures score == (if saved.Some? then saved.value else 0) && stored == saved
      ensures !gameOver && lastObstacleTime == 0 && lastCoinTime == 0 && lineY == 0.0
      ensures !musicStarted && !soundsAllowed
    {
      canvasWidth, canvasHeight := width, height;
      laneWidth := width / 2.0;
      vehicleY := height - VehicleHeight - VehicleMargin;
      vehicleX := width / 2.0 / 2.0 - VehicleWidth / 2.0;
      currentLane := 0;
      obstacles, coins, particles := [], [], [];
      score := if saved.Some? then saved.value else 0;
      stored := saved;
      gameOver := false;
      lastObstacleTime, lastCoinTime := 0, 0;
      lineY := 0.0;
      musicStarted, soundsAllowed := false, false;
    }

    /** The first user gesture unlocks audio; later calls change nothing. */
    method UnlockSound()
      requires Valid()
      modifies this`musicStarted, this`soundsAllowed
      ensures Valid()
      ensures musicStarted && soundsAllowed
      ensures old(musicStarted && soundsAllowed) ==> unchanged(this)
    {
      if !musicStarted {
        musicStarted := true;
      }
      if !soundsAllowed {
        soundsAllowed := true;
      }
    }

    /** Tap, click or space: move to the other lane, unless the game is over. */
    method SwitchLane()
      requires Valid()
      modifies this`currentLane, this`vehicleX
      ensures Valid()
      ensures old(gameOver) ==> currentLane == old(currentLane) && vehicleX == old(vehicleX)
      ensures !old(gameOver) ==> currentLane == OtherLane(old(currentLane))
    {
      if gameOver {
        return;
      }
      currentLane := if currentLane == 0 then 1 else 0;
      vehicleX := if currentLane == 0 then laneWidth / 2.0 - VehicleWidth / 2.0
                  else laneWidth + laneWidth / 2.0 - VehicleWidth / 2.0;
    }

    /** Spawns an obstacle in `lane` unless one was spawned less than 500 ms ago. */
    method CreateObstacle(now: int, lane: Lane)
      modifies this`obstacles, this`lastObstacleTime
      ensures now - old(lastObstacleTime) < MinObstacleGap ==>
                obstacles == old(obstacles) && lastObstacleTime == old(lastObstacleTime)
      ensures now - old(lastObstacleTime) >= MinObstacleGap ==>
                obstacles == old(obstacles) + [NewObstacle(laneWidth, lane)] && lastObstacleTime == now
    {
      if now - lastObstacleTime < MinObstacleGap {
        return;
      }
      var x := if lane == 0 then laneWidth / 2.0 - VehicleWidth / 2.0
               else laneWidth + laneWidth / 2.0 - VehicleWidth / 2.0;
      var obs := Obstacle(x, -VehicleHeight, VehicleWidth, VehicleHeight);
      assert obs == NewObstacle(laneWidth, lane);
      obstacles := obstacles + [obs];
      lastObstacleTime := now;
    }

    /** Spawns a coin in `lane` unless one was spawned less than 1000 ms ago. */
    method CreateCoin(now: int, lane: Lane)
      modifies this`coins, this`lastCoinTime
      ensures now - old(lastCoinTime) < MinCoinGap ==>
                coins == old(coins) && lastCoinTime == old(lastCoinTime)
      ensures now - old(lastCoinTime) >= MinCoinGap ==>
                coins == old(coins) + [NewCoin(laneWidth, lane)] && lastCoinTime == now
    {
      if now - lastCoinTime < MinCoinGap {
        return;
      }
      var x := if lane == 0 then laneWidth / 2.0 - CoinSize / 2.0
               else laneWidth + laneWidth / 2.0 - CoinSize / 2.0;
      var coin := Coin(x, -CoinSize, CoinSize);
      assert coin == NewCoin(laneWidth, lane);
      coins := coins + [coin];
      lastCoinTime := now;
    }

    /** Ends the game if any obstacle overlaps the vehicle; never restarts it. */
    method CheckCollision()
      modifies this`gameOver
      ensures gameOver == (old(gameOver) || Collides(old(Vehicle()), obstacles))
    {
      var i := 0;
      while i < |obstacles|
        invariant 0 <= i <= |obstacles|
        invariant gameOver == (old(gameOver) || Collides(Vehicle(), obstacles[..i]))
      {
        var obs := obstacles[i];
        if vehicleX < obs.x + obs.width && vehicleX + VehicleWidth > obs.x &&
           vehicleY < obs.y + obs.height && vehicleY + VehicleHeight > obs.y
        {
          gameOver := true;
        }
        assert obstacles[..i + 1] == obstacles[..i] + [obs];
        i := i + 1;
      }
      assert obstacles[..i] == obstacles;
    }

    /** Appends a burst of 20 particles at (x, y); particle j uses rng(from + j). */
    method CreateParticles(x: real, y: real, rng: nat -> Spark, from: nat)
      modifies this`particles
      ensures particles == old(particles) + Burst(x, y, rng, from)
    {
      var i := 0;
      while i < BurstSize
        invariant 0 <= i <= BurstSize
        invariant particles == old(particles) + Burst(x, y, rng, from)[..i]
      {
        particles := particles + [NewParticle(x, y, rng(from + i))];
        assert Burst(x, y, rng, from)[..i + 1] == Burst(x, y, rng, from)[..i] + [Burst(x, y, rng, from)[i]];
        i := i + 1;
      }
    }

    /** Collects every coin overlapping the vehicle: 100 points and a particle
        burst each, the score written to storage after each, the coin removed;
        the other coins stay, in order. */
    method CheckCoinCollection(rng: nat -> Spark)
      modifies this`coins, this`score, this`stored, this`particles
      ensures coins == Filter(Missed(old(Vehicle())), old(coins))
      ensures score == old(score) + CoinReward * |Filter(Caught(old(Vehicle())), old(coins))|
      ensures stored == if Filter(Caught(old(Vehicle())), old(coins)) == [] then old(stored) else Some(score)
      ensures particles == old(particles) + Bursts(Filter(Caught(old(Vehicle())), old(coins)), rng)
    {
      var v := Vehicle();
      ghost var c0 := coins;
      ghost var k := 0;
      var i := 0;
      var drawn := 0;  // position in the random stream: 20 draws per burst
      CollectStart(v, c0, score, stored, particles, rng);
      while i < |coins|
        invariant CollectProgress(v, c0, k, i, coins, old(score), score, old(stored), stored,
                                  old(particles), particles, rng)
        invariant drawn == BurstSize * (k - i)
        decreases |c0| - k
      {
        var coin := coins[i];
        if Overlap(v, CoinBox(coin)) {
          CollectCaught(v, c0, k, i, coins, old(score), score, old(stored), stored, old(particles), particles, rng);
          score := score + CoinReward;
          stored := Some(score);
          CreateParticles(CoinCentreX(coin), CoinCentreY(coin), rng, drawn);
          drawn := drawn + BurstSize;
          coins := coins[..i] + coins[i + 1..];
          i := i - 1;
        } else {
          CollectMissed(v, c0, k, i, coins, old(score), score, old(stored), stored, old(particles), particles, rng);
        }
        i := i + 1;
        k := k + 1;
      }
      CollectDone(v, c0, k, i, coins, old(score), score, old(stored), stored, old(particles), particles, rng);
      CollectionPartitions(v, c0);
    }

    /** The dashed centre line scrolls down by 5 and wraps to 0 once past one period. */
    method ScrollLine()
      modifies this`lineY
      ensures lineY == Scroll(old(lineY))
    {
      lineY := lineY + ObstacleSpeed;
      if lineY > LineHeight + LineSpacing {
        lineY := 0.0;
      }
    }

    /** The motion phase of gameLoop: the centre line scrolls, obstacles and
        coins fall (those past the bottom are dropped, 10 points per
        obstacle) and particles age. */
    method Move()
      modifies this`lineY, this`obstacles, this`coins, this`particles, this`score
      ensures State() == Moved(old(State()), canvasHeight)
    {
      ghost var s0 := State();
      ScrollLine();
      obstacles, score := AdvanceObstacles(obstacles, score, canvasHeight);
      coins := AdvanceCoins(coins, canvasHeight);
      particles := UpdateParticles(particles);
      MovedFields(s0, canvasHeight, State());
    }

    /** The checks of gameLoop: the collision check, then the coin check. */
    method Checks(rng: nat -> Spark)
      modifies this`gameOver, this`coins, this`score, this`stored, this`particles
      ensures State() == Checked(old(State()), old(Vehicle()), rng)
    {
      ghost var s0 := State();
      CheckCollision();
      CheckCoinCollection(rng);
      CheckedFields(s0, old(Vehicle()), rng, State());
    }

    /** The end of gameLoop: each spawner is tried when its roll came up. */
    method Spawn(now: int, rolls: Rolls)
      modifies this`obstacles, this`lastObstacleTime, this`coins, this`lastCoinTime
      ensures State() == Spawned(old(State()), laneWidth, now, rolls)
    {
      if rolls.obstacle {
        CreateObstacle(now, rolls.obstacleLane);
      }
      if rolls.coin {
        CreateCoin(now, rolls.coinLane);
      }
    }

    /** A frame of a running game: motion, the checks, then the spawners. */
    method Run(now: int, rolls: Rolls, rng: nat -> Spark)
      requires Valid()
      modifies this`lineY, this`obstacles, this`coins, this`particles, this`score
      modifies this`gameOver, this`stored, this`lastObstacleTime, this`lastCoinTime
      ensures Valid()
      ensures State() == Step(old(State()), laneWidth, canvasHeight, old(Vehicle()), now, rolls, rng)
    {
      Move();
      Checks(rng);
      Spawn(now, rolls);
    }

    /** One call of gameLoop. Once the game is over nothing changes and the
        final score's star rating is handed to the game-over screen; otherwise
        the frame is Step of the state before it, with the vehicle where it
        stands, and no rating is produced. The vehicle, its lane and the
        sound flags are never changed by a frame. */
    method Tick(now: int, rolls: Rolls, rng: nat -> Spark) returns (rating: Option<int>)
      requires Valid()
      modifies this
      ensures Valid()
      ensures old(gameOver) ==> unchanged(this) && rating == Some(Stars(score))
      ensures !old(gameOver) ==>
                rating == None &&
                State() == Step(old(State()), laneWidth, canvasHeight, old(Vehicle()), now, rolls, rng)
      ensures currentLane == old(currentLane) && vehicleX == old(vehicleX)
      ensures musicStarted == old(musicStarted) && soundsAllowed == old(soundsAllowed)
    {
      if gameOver {
        return Some(Stars(score));
      }
      Run(now, rolls, rng);
      return None;
    }
  }

  /** Two lane switches in a running game put the vehicle back where it was. */
  method SwitchTwice(w: World)
    requires w.Valid() && !w.gameOver
    modifies w
    ensures w.Valid()
    ensures w.currentLane == old(w.currentLane) && w.vehicleX == old(w.vehicleX)
  {
    w.SwitchLane();
    w.SwitchLane();
  }
}
