/** One frame of a running game as a function on values.

    A call of gameLoop in assets/js/drive.js while the game runs changes the
    centre line's offset, the three object lists, the score, what storage
    holds, the game-over flag and the two spawn times; everything else is
    left alone. Scene gathers exactly those, and the frame is the composition
    of its three phases: Moved (the line scrolls, obstacles and coins fall,
    particles age), Checked (the collision check, then the coin check) and
    Spawned (the two random spawn attempts).
 */
module Frames {
  import opened Seqs
  import opened Play

  /** The part of the game state a frame changes. */
  datatype Scene = Scene(lineY: real, obstacles: seq<Obstacle>, coins: seq<Coin>,
                         particles: seq<Particle>, score: int, stored: Option<int>,
                         gameOver: bool, lastObstacleTime: int, lastCoinTime: int)

  /** The outcome of a frame's two Math.random() draws and its two lane choices. */
  datatype Rolls = Rolls(obstacle: bool, obstacleLane: Lane, coin: bool, coinLane: Lane)

  /** Every obstacle and coin sits in a lane as its spawner put it there, and
      no particle has more than 30 frames of life left. */
  predicate Stocked(laneWidth: real, s: Scene)
  {
    && All(ObstacleInLane(laneWidth), s.obstacles)
    && All(CoinInLane(laneWidth), s.coins)
    && All(LifeAtMost(ParticleLife), s.particles)
  }

  /** The motion phase: the line scrolls, obstacles and coins fall by 5 and
      those below the bottom edge are dropped (10 points per obstacle), and
      particles age. */
  function Moved(s: Scene, height: real): Scene
  {
    var obs := FallenObstacles(s.obstacles, height);
    s.(lineY := Scroll(s.lineY),
       obstacles := obs,
       score := s.score + ObstacleBonus * (|s.obstacles| - |obs|),
       coins := FallenCoins(s.coins, height),
       particles := UpdatedParticles(s.particles))
  }

  /** The checks: an overlapping obstacle ends the game; every overlapping
      coin is removed for 100 points, written to storage, and leaves a burst. */
  function Checked(s: Scene, vehicle: Box, rng: nat -> Spark): Scene
  {
    var caught := Filter(Caught(vehicle), s.coins);
    var score := s.score + CoinReward * |caught|;
    s.(gameOver := s.gameOver || Collides(vehicle, s.obstacles),
       coins := Filter(Missed(vehicle), s.coins),
       score := score,
       stored := if caught == [] then s.stored else Some(score),
       particles := s.particles + Bursts(caught, rng))
  }

  /** The spawn phase: each spawner runs when its roll came up, and places
      something only when its minimum gap has passed. */
  function Spawned(s: Scene, laneWidth: real, now: int, rolls: Rolls): Scene
  {
    var o := rolls.obstacle && now - s.lastObstacleTime >= MinObstacleGap;
    var c := rolls.coin && now - s.lastCoinTime >= MinCoinGap;
    s.(obstacles := s.obstacles + (if o then [NewObstacle(laneWidth, rolls.obstacleLane)] else []),
       lastObstacleTime := if o then now else s.lastObstacleTime,
       coins := s.coins + (if c then [NewCoin(laneWidth, rolls.coinLane)] else []),
       lastCoinTime := if c then now else s.lastCoinTime)
  }

  /** A whole running frame. */
  function Step(s: Scene, laneWidth: real, height: real, vehicle: Box, now: int,
                rolls: Rolls, rng: nat -> Spark): Scene
  {
    Spawned(Checked(Moved(s, height), vehicle, rng), laneWidth, now, rolls)
  }

  /** A scene is the moved one when each field is. */
  lemma MovedFields(s: Scene, height: real, t: Scene)
    requires t.stored == s.stored && t.gameOver == s.gameOver
    requires t.lastObstacleTime == s.lastObstacleTime && t.lastCoinTime == s.lastCoinTime
    requires t.lineY == Scroll(s.lineY)
    requires t.obstacles == FallenObstacles(s.obstacles, height)
    requires t.score == s.score + ObstacleBonus * (|s.obstacles| - |t.obstacles|)
    requires t.coins == FallenCoins(s.coins, height)
    requires t.particles == UpdatedParticles(s.particles)
    ensures t == Moved(s, height)
  {
  }

  /** A scene is the checked one when each field is. */
  lemma CheckedFields(s: Scene, vehicle: Box, rng: nat -> Spark, t: Scene)
    requires t.gameOver == (s.gameOver || Collides(vehicle, s.obstacles))
    requires t.coins == Filter(Missed(vehicle), s.coins)
    requires t.score == s.score + CoinReward * |Filter(Caught(vehicle), s.coins)|
    requires t.stored == if Filter(Caught(vehicle), s.coins) == [] then s.stored else Some(t.score)
    requires t.particles == s.particles + Bursts(Filter(Caught(vehicle), s.coins), rng)
    requires t.lineY == s.lineY && t.obstacles == s.obstacles
    requires t.lastObstacleTime == s.lastObstacleTime && t.lastCoinTime == s.lastCoinTime
    ensures t == Checked(s, vehicle, rng)
  {
  }

  // ------------------------------------------------------------ invariants

  /** Motion keeps objects in their lanes and particles within their life. */
  lemma MovedKeepsStocked(laneWidth: real, s: Scene, height: real)
    requires Stocked(laneWidth, s)
    ensures Stocked(laneWidth, Moved(s, height))
  {
    FallenObstaclesPlaced(laneWidth, s.obstacles, height);
    FallenCoinsPlaced(laneWidth, s.coins, height);
    UpdateKeepsLifeBound(s.particles);
  }

  /** The checks only remove coins and add fresh particles. */
  lemma CheckedKeepsStocked(laneWidth: real, s: Scene, vehicle: Box, rng: nat -> Spark)
    requires Stocked(laneWidth, s)
    ensures Stocked(laneWidth, Checked(s, vehicle, rng))
  {
    CollectKeepsLanes(laneWidth, vehicle, s.coins);
    BurstsKeepLifeBound(s.particles, Filter(Caught(vehicle), s.coins), rng);
  }

  /** New obstacles and coins are placed in a lane. */
  lemma SpawnedKeepsStocked(laneWidth: real, s: Scene, now: int, rolls: Rolls)
    requires Stocked(laneWidth, s)
    ensures Stocked(laneWidth, Spawned(s, laneWidth, now, rolls))
  {
    var t := Spawned(s, laneWidth, now, rolls);
    var newObs := t.obstacles[|s.obstacles|..];
    var newCoins := t.coins[|s.coins|..];
    assert t.obstacles == s.obstacles + newObs;
    assert t.coins == s.coins + newCoins;
    AllMember(ObstacleInLane(laneWidth), newObs);
    AllMember(CoinInLane(laneWidth), newCoins);
    AllAppend(ObstacleInLane(laneWidth), s.obstacles, newObs);
    AllAppend(CoinInLane(laneWidth), s.coins, newCoins);
  }

  /** A whole frame keeps every object in a lane and every particle within
      30 frames of life. */
  lemma StepKeepsStocked(laneWidth: real, s: Scene, height: real, vehicle: Box, now: int,
                         rolls: Rolls, rng: nat -> Spark)
    requires Stocked(laneWidth, s)
    ensures Stocked(laneWidth, Step(s, laneWidth, height, vehicle, now, rolls, rng))
  {
    var m := Moved(s, height);
    MovedKeepsStocked(laneWidth, s, height);
    CheckedKeepsStocked(laneWidth, m, vehicle, rng);
    SpawnedKeepsStocked(laneWidth, Checked(m, vehicle, rng), now, rolls);
  }

  // ------------------------------------------------------------ what a frame does

  /** The score never goes down in a frame: it gains 10 for each obstacle that
      left the screen and 100 for each coin caught. */
  lemma StepScore(laneWidth: real, s: Scene, height: real, vehicle: Box, now: int,
                  rolls: Rolls, rng: nat -> Spark)
    ensures var t := Step(s, laneWidth, height, vehicle, now, rolls, rng);
      var fallen := FallenCoins(s.coins, height);
      && t.score == s.score + ObstacleBonus * (|s.obstacles| - |FallenObstacles(s.obstacles, height)|)
                    + CoinReward * (|fallen| - |Filter(Missed(vehicle), fallen)|)
      && t.score >= s.score
  {
    var fallen := FallenCoins(s.coins, height);
    CollectionPartitions(vehicle, fallen);
    assert |FallenObstacles(s.obstacles, height)| <= |s.obstacles|;
  }

  /** The game ends in a frame exactly when it had ended or some obstacle,
      after falling, overlaps the vehicle. */
  lemma StepGameOver(laneWidth: real, s: Scene, height: real, vehicle: Box, now: int,
                     rolls: Rolls, rng: nat -> Spark)
    ensures Step(s, laneWidth, height, vehicle, now, rolls, rng).gameOver <==>
              s.gameOver || exists o :: o in FallenObstacles(s.obstacles, height) &&
                                        Overlap(vehicle, ObstacleBox(o))
  {
    var obs := FallenObstacles(s.obstacles, height);
    if Collides(vehicle, obs) {
      var i :| 0 <= i < |obs| && Overlap(vehicle, ObstacleBox(obs[i]));
      assert obs[i] in obs;
    }
  }

  /** Storage is written in a frame exactly when some coin, after falling,
      overlaps the vehicle, and then it holds the new score. */
  lemma StepStored(laneWidth: real, s: Scene, height: real, vehicle: Box, now: int,
                   rolls: Rolls, rng: nat -> Spark)
    ensures var t := Step(s, laneWidth, height, vehicle, now, rolls, rng);
      var hit := exists c :: c in FallenCoins(s.coins, height) && Overlap(vehicle, CoinBox(c));
      && (hit ==> t.stored == Some(t.score))
      && (!hit ==> t.stored == s.stored)
  {
    var fallen := FallenCoins(s.coins, height);
    var caught := Filter(Caught(vehicle), fallen);
    if exists c :: c in fallen && Overlap(vehicle, CoinBox(c)) {
      var c :| c in fallen && Overlap(vehicle, CoinBox(c));
      FilterMember(Caught(vehicle), fallen, c);
    } else if caught != [] {
      FilterMember(Caught(vehicle), fallen, caught[0]);
    }
  }
}
