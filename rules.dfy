/** The fixed rules of Lane Dash (assets/js/drive.js): the game's constants,
    its entities as values, the rectangle-overlap test, lane placement, the
    star rating, the scrolling road line, and one specification function per
    phase of a frame. The class in module Drive performs these phases in
    place; the lemmas here state what they mean over one or many frames.
 */
module Play {
  import opened Seqs

  datatype Option<T> = None | Some(value: T)

  /** One of the road's two lanes: 0 is the left one, 1 the right one. */
  type Lane = i: int | 0 <= i < 2

  const VehicleWidth: real := 100.0
  const VehicleHeight: real := 40.0
  /** Gap between the vehicle's bottom edge and the canvas's bottom edge. */
  const VehicleMargin: real := 30.0
  const ObstacleSpeed: real := 5.0
  const CoinSpeed: real := 5.0
  const CoinSize: real := 30.0
  /** Milliseconds that must pass between two obstacle spawns. */
  const MinObstacleGap: int := 500
  /** Milliseconds that must pass between two coin spawns. */
  const MinCoinGap: int := 1000
  const CoinReward: int := 100
  const ObstacleBonus: int := 10
  const BurstSize: nat := 20
  const ParticleLife: int := 30
  const OpacityDecay: real := 0.03
  const LineHeight: real := 20.0
  const LineSpacing: real := 30.0

  /** An axis-aligned rectangle: top-left corner, width and height. */
  datatype Box = Box(x: real, y: real, w: real, h: real)

  datatype Obstacle = Obstacle(x: real, y: real, width: real, height: real)
  datatype Coin = Coin(x: real, y: real, size: real)
  /** The random draws behind one particle: its radius and its velocity. */
  datatype Spark = Spark(size: real, speedX: real, speedY: real)
  datatype Particle = Particle(x: real, y: real, size: real, speedX: real, speedY: real,
                               opacity: real, life: int)

  function ObstacleBox(o: Obstacle): Box { Box(o.x, o.y, o.width, o.height) }
  function CoinBox(c: Coin): Box { Box(c.x, c.y, c.size, c.size) }

  // ---------------------------------------------------------------- geometry

  /** The strict overlap test of checkCollision and checkCoinCollection:
      rectangles that only touch along an edge do not overlap. */
  predicate Overlap(a: Box, b: Box)
  {
    a.x < b.x + b.w && a.x + a.w > b.x && a.y < b.y + b.h && a.y + a.h > b.y
  }

  /** Point (px, py) lies strictly inside rectangle `b`. */
  predicate Inside(px: real, py: real, b: Box)
  {
    b.x < px < b.x + b.w && b.y < py < b.y + b.h
  }

  function Max(a: real, b: real): real { if a < b then b else a }
  function Min(a: real, b: real): real { if a < b then a else b }

  /** For rectangles of positive size the four-inequality test means exactly
      that the two rectangles share an interior point. */
  lemma OverlapIsCommonInterior(a: Box, b: Box)
    requires a.w > 0.0 && a.h > 0.0 && b.w > 0.0 && b.h > 0.0
    ensures Overlap(a, b) <==> exists px, py :: Inside(px, py, a) && Inside(px, py, b)
  {
    if Overlap(a, b) {
      var px := (Max(a.x, b.x) + Min(a.x + a.w, b.x + b.w)) / 2.0;
      var py := (Max(a.y, b.y) + Min(a.y + a.h, b.y + b.h)) / 2.0;
      assert Inside(px, py, a) && Inside(px, py, b);
    }
  }

  /** Touching edges: a rectangle ending exactly where another starts (on
      either axis) does not overlap it, and the test is symmetric. */
  lemma OverlapExcludesTouching(a: Box, b: Box)
    ensures a.x + a.w == b.x || b.x + b.w == a.x || a.y + a.h == b.y || b.y + b.h == a.y ==> !Overlap(a, b)
    ensures Overlap(a, b) == Overlap(b, a)
  {
  }

  /** The left edge of a box `size` wide centred in `lane`, on a road whose
      lanes are `laneWidth` wide. */
  function LaneX(laneWidth: real, lane: Lane, size: real): real
  {
    if lane == 0 then laneWidth / 2.0 - size / 2.0 else laneWidth + laneWidth / 2.0 - size / 2.0
  }

  /** The box is centred in its lane: half-way across the left lane, or
      half-way across the right one. */
  lemma LaneXCentred(laneWidth: real, lane: Lane, size: real)
    ensures var x := LaneX(laneWidth, lane, size);
      && (lane == 0 ==> x + size / 2.0 == laneWidth / 2.0)
      && (lane == 1 ==> x + size / 2.0 == laneWidth + laneWidth / 2.0)
  {
  }

  /** The lane a switch moves to. */
  function OtherLane(lane: Lane): (r: Lane)
    ensures r != lane
  {
    if lane == 0 then 1 else 0
  }

  // --------------------------------------------------------------- spawning

  function NewObstacle(laneWidth: real, lane: Lane): (o: Obstacle)
    ensures o.y + o.height == 0.0
    ensures o.width == VehicleWidth && o.height == VehicleHeight
    ensures o.x == LaneX(laneWidth, lane, o.width)
  {
    Obstacle(LaneX(laneWidth, lane, VehicleWidth), -VehicleHeight, VehicleWidth, VehicleHeight)
  }

  function NewCoin(laneWidth: real, lane: Lane): (c: Coin)
    ensures c.y + c.size == 0.0
    ensures c.size == CoinSize
    ensures c.x == LaneX(laneWidth, lane, c.size)
  {
    Coin(LaneX(laneWidth, lane, CoinSize), -CoinSize, CoinSize)
  }

  /** An obstacle as createObstacle makes it: sized like the vehicle and
      centred in one of the two lanes. */
  predicate PlacedObstacle(laneWidth: real, o: Obstacle)
  {
    o.width == VehicleWidth && o.height == VehicleHeight &&
    (o.x == LaneX(laneWidth, 0, VehicleWidth) || o.x == LaneX(laneWidth, 1, VehicleWidth))
  }

  /** A coin as createCoin makes it. */
  predicate PlacedCoin(laneWidth: real, c: Coin)
  {
    c.size == CoinSize &&
    (c.x == LaneX(laneWidth, 0, CoinSize) || c.x == LaneX(laneWidth, 1, CoinSize))
  }

  /** The placement checks as predicates on one element, for `All`. */
  function ObstacleInLane(laneWidth: real): Obstacle -> bool
  {
    (o: Obstacle) => PlacedObstacle(laneWidth, o)
  }

  function CoinInLane(laneWidth: real): Coin -> bool
  {
    (c: Coin) => PlacedCoin(laneWidth, c)
  }

  // ---------------------------------------------------------------- scoring

  /** The star rating shown on the game-over screen. */
  function Stars(score: int): (n: int)
    ensures 1 <= n <= 3
    ensures n == 1 <==> score <= 500
    ensures n == 3 <==> score > 1500
  {
    if score > 500 && score <= 1500 then 2
    else if score > 1500 then 3
    else 1
  }

  /** A higher score never earns fewer stars. */
  lemma StarsMonotone(a: int, b: int)
    requires a <= b
    ensures Stars(a) <= Stars(b)
  {
  }

  // ------------------------------------------------------------- road line

  /** Period of the dashed centre line. */
  const LinePeriod: real := LineHeight + LineSpacing

  /** One frame of the centre line's scroll offset. */
  function Scroll(lineY: real): (r: real)
    ensures 0.0 <= lineY <= LinePeriod ==> 0.0 <= r <= LinePeriod
    ensures r == lineY + ObstacleSpeed || r == 0.0
    ensures r == 0.0 <==> lineY + ObstacleSpeed > LinePeriod || lineY == -ObstacleSpeed
  {
    if lineY + ObstacleSpeed > LinePeriod then 0.0 else lineY + ObstacleSpeed
  }

  // ----------------------------------------------------- motion and cleanup

  function FallObstacle(o: Obstacle): Obstacle { o.(y := o.y + ObstacleSpeed) }
  function FallCoin(c: Coin): Coin { c.(y := c.y + CoinSpeed) }

  /** Still on screen after falling: its top edge is not below the bottom edge. */
  function ObstacleOnScreen(height: real): Obstacle -> bool { (o: Obstacle) => !(o.y > height) }
  function CoinOnScreen(height: real): Coin -> bool { (c: Coin) => !(c.y > height) }

  /** The obstacle list after one frame of motion and cleanup. */
  function FallenObstacles(obs: seq<Obstacle>, height: real): seq<Obstacle>
  {
    Filter(ObstacleOnScreen(height), Map(FallObstacle, obs))
  }

  /** The coin list after one frame of motion and cleanup. */
  function FallenCoins(cs: seq<Coin>, height: real): seq<Coin>
  {
    Filter(CoinOnScreen(height), Map(FallCoin, cs))
  }

  /** What a frame keeps of the obstacles: exactly the old ones moved down by
      the speed whose top edge is still on screen, in their old order. */
  lemma FallenObstaclesAre(obs: seq<Obstacle>, height: real, o: Obstacle)
    ensures o in FallenObstacles(obs, height) <==>
              o.y <= height && exists i :: 0 <= i < |obs| && o == obs[i].(y := obs[i].y + ObstacleSpeed)
  {
    FilterMember(ObstacleOnScreen(height), Map(FallObstacle, obs), o);
    MapMember(FallObstacle, obs, o);
  }

  /** One more obstacle at the end of the list: it is kept, moved, exactly when it stays on screen. */
  lemma FallenObstaclesSnoc(obs: seq<Obstacle>, height: real, o: Obstacle)
    ensures FallenObstacles(obs + [o], height) ==
              FallenObstacles(obs, height) + (if o.y + ObstacleSpeed <= height then [FallObstacle(o)] else [])
  {
    MapSnoc(FallObstacle, obs, o);
    FilterSnoc(ObstacleOnScreen(height), Map(FallObstacle, obs), FallObstacle(o));
  }

  /** The same for coins. */
  lemma FallenCoinsAre(cs: seq<Coin>, height: real, c: Coin)
    ensures c in FallenCoins(cs, height) <==>
              c.y <= height && exists i :: 0 <= i < |cs| && c == cs[i].(y := cs[i].y + CoinSpeed)
  {
    FilterMember(CoinOnScreen(height), Map(FallCoin, cs), c);
    MapMember(FallCoin, cs, c);
  }

  /** One more coin at the end of the list: it is kept, moved, exactly when it stays on screen. */
  lemma FallenCoinsSnoc(cs: seq<Coin>, height: real, c: Coin)
    ensures FallenCoins(cs + [c], height) ==
              FallenCoins(cs, height) + (if c.y + CoinSpeed <= height then [FallCoin(c)] else [])
  {
    MapSnoc(FallCoin, cs, c);
    FilterSnoc(CoinOnScreen(height), Map(FallCoin, cs), FallCoin(c));
  }

  /** A frame keeps the surviving obstacles in their old order: the
      survivors of a list's front part all come before those of its back part. */
  lemma FallenObstaclesKeepOrder(front: seq<Obstacle>, back: seq<Obstacle>, height: real)
    ensures FallenObstacles(front + back, height) ==
              FallenObstacles(front, height) + FallenObstacles(back, height)
  {
    MapAppend(FallObstacle, front, back);
    FilterAppend(ObstacleOnScreen(height), Map(FallObstacle, front), Map(FallObstacle, back));
  }

  /** The same for coins. */
  lemma FallenCoinsKeepOrder(front: seq<Coin>, back: seq<Coin>, height: real)
    ensures FallenCoins(front + back, height) == FallenCoins(front, height) + FallenCoins(back, height)
  {
    MapAppend(FallCoin, front, back);
    FilterAppend(CoinOnScreen(height), Map(FallCoin, front), Map(FallCoin, back));
  }

  /** Falling never moves an obstacle sideways or resizes it. */
  lemma FallenObstaclesPlaced(laneWidth: real, obs: seq<Obstacle>, height: real)
    requires All(ObstacleInLane(laneWidth), obs)
    ensures All(ObstacleInLane(laneWidth), FallenObstacles(obs, height))
  {
    AllMember(ObstacleInLane(laneWidth), obs);
    AllMember(ObstacleInLane(laneWidth), FallenObstacles(obs, height));
    forall o | o in FallenObstacles(obs, height)
      ensures PlacedObstacle(laneWidth, o)
    {
      FallenObstaclesAre(obs, height, o);
      var i :| 0 <= i < |obs| && o == obs[i].(y := obs[i].y + ObstacleSpeed);
      assert obs[i] in obs;
    }
  }

  /** Falling never moves a coin sideways or resizes it. */
  lemma FallenCoinsPlaced(laneWidth: real, cs: seq<Coin>, height: real)
    requires All(CoinInLane(laneWidth), cs)
    ensures All(CoinInLane(laneWidth), FallenCoins(cs, height))
  {
    AllMember(CoinInLane(laneWidth), cs);
    AllMember(CoinInLane(laneWidth), FallenCoins(cs, height));
    forall c | c in FallenCoins(cs, height)
      ensures PlacedCoin(laneWidth, c)
    {
      FallenCoinsAre(cs, height, c);
      var i :| 0 <= i < |cs| && c == cs[i].(y := cs[i].y + CoinSpeed);
      assert cs[i] in cs;
    }
  }

  // ------------------------------------------------------------- collisions

  /** Some obstacle overlaps the vehicle. */
  predicate Collides(vehicle: Box, obs: seq<Obstacle>)
  {
    exists i :: 0 <= i < |obs| && Overlap(vehicle, ObstacleBox(obs[i]))
  }

  /** The coin overlaps the vehicle and is collected. */
  function Caught(vehicle: Box): Coin -> bool { (c: Coin) => Overlap(vehicle, CoinBox(c)) }
  /** The coin does not overlap the vehicle and stays on the road. */
  function Missed(vehicle: Box): Coin -> bool { (c: Coin) => !Overlap(vehicle, CoinBox(c)) }

  /** Coin collection splits the coins in two: the caught ones and the
      remaining ones, each coin on exactly one side, no remaining coin
      overlapping the vehicle. */
  lemma CollectionPartitions(vehicle: Box, cs: seq<Coin>)
    ensures |Filter(Caught(vehicle), cs)| + |Filter(Missed(vehicle), cs)| == |cs|
    ensures forall c :: c in Filter(Missed(vehicle), cs) ==> !Overlap(vehicle, CoinBox(c))
    ensures forall c :: c in Filter(Caught(vehicle), cs) ==> Overlap(vehicle, CoinBox(c))
  {
    FilterPartition(Caught(vehicle), Missed(vehicle), cs);
  }

  /** One more coin examined by the collection pass, when it is caught: the
      remaining coins are as before, and its burst follows the earlier ones. */
  lemma CaughtStep(vehicle: Box, seen: seq<Coin>, c: Coin, rng: nat -> Spark)
    requires Overlap(vehicle, CoinBox(c))
    ensures Filter(Missed(vehicle), seen + [c]) == Filter(Missed(vehicle), seen)
    ensures Filter(Caught(vehicle), seen + [c]) == Filter(Caught(vehicle), seen) + [c]
    ensures Bursts(Filter(Caught(vehicle), seen + [c]), rng) ==
              Bursts(Filter(Caught(vehicle), seen), rng) +
              Burst(CoinCentreX(c), CoinCentreY(c), rng, BurstSize * |Filter(Caught(vehicle), seen)|)
  {
    FilterSnoc(Missed(vehicle), seen, c);
    FilterSnoc(Caught(vehicle), seen, c);
    BurstsSnoc(Filter(Caught(vehicle), seen), c, rng);
  }

  /** One more coin examined by the collection pass, when it is missed: it
      stays, and nothing is caught. */
  lemma MissedStep(vehicle: Box, seen: seq<Coin>, c: Coin)
    requires !Overlap(vehicle, CoinBox(c))
    ensures Filter(Missed(vehicle), seen + [c]) == Filter(Missed(vehicle), seen) + [c]
    ensures Filter(Caught(vehicle), seen + [c]) == Filter(Caught(vehicle), seen)
  {
    FilterSnoc(Missed(vehicle), seen, c);
    FilterSnoc(Caught(vehicle), seen, c);
  }

  /** Where checkCoinCollection's loop stands after examining the first k of
      the original coins `c0`: the first i remaining coins are the missed ones
      among those k, the rest are the unexamined originals, k - i coins were
      caught, each worth 100 points and one burst, and storage holds the score
      as soon as one coin was caught. */
  ghost predicate CollectProgress(vehicle: Box, c0: seq<Coin>, k: int, i: int, coins: seq<Coin>,
                                  score0: int, score: int, stored0: Option<int>, stored: Option<int>,
                                  ps0: seq<Particle>, ps: seq<Particle>, rng: nat -> Spark)
  {
    && 0 <= i <= |coins| && 0 <= k <= |c0|
    && coins[..i] == Filter(Missed(vehicle), c0[..k])
    && coins[i..] == c0[k..]
    && |Filter(Caught(vehicle), c0[..k])| == k - i
    && score == score0 + CoinReward * (k - i)
    && stored == (if k == i then stored0 else Some(score))
    && ps == ps0 + Bursts(Filter(Caught(vehicle), c0[..k]), rng)
  }

  lemma CollectStart(vehicle: Box, c0: seq<Coin>, score: int, stored: Option<int>,
                     ps: seq<Particle>, rng: nat -> Spark)
    ensures CollectProgress(vehicle, c0, 0, 0, c0, score, score, stored, stored, ps, ps, rng)
  {
    assert c0[..0] == [];
  }

  /** Examining a caught coin: it is spliced out, 100 points are added and
      stored, and its burst is appended using the next 20 draws. */
  lemma CollectCaught(vehicle: Box, c0: seq<Coin>, k: int, i: int, coins: seq<Coin>,
                      score0: int, score: int, stored0: Option<int>, stored: Option<int>,
                      ps0: seq<Particle>, ps: seq<Particle>, rng: nat -> Spark)
    requires CollectProgress(vehicle, c0, k, i, coins, score0, score, stored0, stored, ps0, ps, rng)
    requires i < |coins| && Overlap(vehicle, CoinBox(coins[i]))
    ensures CollectProgress(vehicle, c0, k + 1, i, coins[..i] + coins[i + 1..],
                            score0, score + CoinReward, stored0, Some(score + CoinReward),
                            ps0, ps + Burst(CoinCentreX(coins[i]), CoinCentreY(coins[i]), rng, BurstSize * (k - i)),
                            rng)
  {
    var coin := coins[i];
    var seen := c0[..k];
    assert coin == c0[k] && c0[k..][1..] == c0[k + 1..];
    assert c0[..k + 1] == seen + [coin];
    CaughtStep(vehicle, seen, coin, rng);
    SliceDrop(coins, c0[k..], i);
    assert CoinReward * (k + 1 - i) == CoinReward * (k - i) + CoinReward;
    var burst := Burst(CoinCentreX(coin), CoinCentreY(coin), rng, BurstSize * (k - i));
    assert Bursts(Filter(Caught(vehicle), seen + [coin]), rng) ==
           Bursts(Filter(Caught(vehicle), seen), rng) + burst;
    assert ps + burst == ps0 + (Bursts(Filter(Caught(vehicle), seen), rng) + burst);
  }

  /** Examining a missed coin: it stays where it is and nothing else changes. */
  lemma CollectMissed(vehicle: Box, c0: seq<Coin>, k: int, i: int, coins: seq<Coin>,
                      score0: int, score: int, stored0: Option<int>, stored: Option<int>,
                      ps0: seq<Particle>, ps: seq<Particle>, rng: nat -> Spark)
    requires CollectProgress(vehicle, c0, k, i, coins, score0, score, stored0, stored, ps0, ps, rng)
    requires i < |coins| && !Overlap(vehicle, CoinBox(coins[i]))
    ensures CollectProgress(vehicle, c0, k + 1, i + 1, coins, score0, score, stored0, stored, ps0, ps, rng)
  {
    var coin := coins[i];
    assert coin == c0[k] && c0[k..][1..] == c0[k + 1..];
    assert c0[..k + 1] == c0[..k] + [coin];
    MissedStep(vehicle, c0[..k], coin);
    SliceKeep(coins, c0[k..], i);
  }

  /** When every coin has been examined, the pass has done exactly what
      checkCoinCollection promises. */
  lemma CollectDone(vehicle: Box, c0: seq<Coin>, k: int, i: int, coins: seq<Coin>,
                    score0: int, score: int, stored0: Option<int>, stored: Option<int>,
                    ps0: seq<Particle>, ps: seq<Particle>, rng: nat -> Spark)
    requires CollectProgress(vehicle, c0, k, i, coins, score0, score, stored0, stored, ps0, ps, rng)
    requires i == |coins|
    ensures coins == Filter(Missed(vehicle), c0)
    ensures score == score0 + CoinReward * |Filter(Caught(vehicle), c0)|
    ensures stored == if Filter(Caught(vehicle), c0) == [] then stored0 else Some(score)
    ensures ps == ps0 + Bursts(Filter(Caught(vehicle), c0), rng)
  {
    assert c0[k..] == [];
    assert c0[..k] == c0;
    assert coins[..i] == coins;
  }

  /** A coin still overlapping the vehicle on the next frame was caught on
      this one: it is no longer among the coins, so it cannot be counted twice. */
  lemma CollectedOnce(vehicle: Box, cs: seq<Coin>, c: Coin)
    requires Overlap(vehicle, CoinBox(c))
    ensures c !in Filter(Missed(vehicle), cs)
    ensures c in cs ==> c in Filter(Caught(vehicle), cs)
  {
  }

  // -------------------------------------------------------------- particles

  /** A particle as createParticles makes it at (x, y). */
  function NewParticle(x: real, y: real, s: Spark): Particle
  {
    Particle(x, y, s.size, s.speedX, s.speedY, 1.0, ParticleLife)
  }

  /** The burst of particles at (x, y); particle j takes its random draws from rng(from + j). */
  function Burst(x: real, y: real, rng: nat -> Spark, from: nat): (ps: seq<Particle>)
    ensures |ps| == BurstSize
  {
    seq(BurstSize, j requires 0 <= j => NewParticle(x, y, rng(from + j)))
  }

  /** Particle j of a burst starts at (x, y), fully opaque, with 30 frames of
      life, and takes its size and speed from draw from + j. */
  lemma BurstAt(x: real, y: real, rng: nat -> Spark, from: nat, j: nat)
    requires j < BurstSize
    ensures Burst(x, y, rng, from)[j] == NewParticle(x, y, rng(from + j))
    ensures Burst(x, y, rng, from)[j].x == x && Burst(x, y, rng, from)[j].y == y
    ensures Burst(x, y, rng, from)[j].opacity == 1.0 && Burst(x, y, rng, from)[j].life == ParticleLife
  {
  }

  /** Every particle of a burst starts fully opaque with 30 frames of life. */
  lemma BurstFresh(x: real, y: real, rng: nat -> Spark, from: nat)
    ensures forall p :: p in Burst(x, y, rng, from) ==> p.opacity == 1.0 && p.life == ParticleLife
  {
    forall p | p in Burst(x, y, rng, from)
      ensures p.opacity == 1.0 && p.life == ParticleLife
    {
      var j :| 0 <= j < BurstSize && Burst(x, y, rng, from)[j] == p;
      BurstAt(x, y, rng, from, j);
    }
  }

  function CoinCentreX(c: Coin): real { c.x + c.size / 2.0 }
  function CoinCentreY(c: Coin): real { c.y + c.size / 2.0 }

  /** The particles of one coin-collection pass: a burst at the centre of
      each caught coin, in order; the n-th caught coin uses draws 20n to 20n + 19. */
  function Bursts(caught: seq<Coin>, rng: nat -> Spark): (ps: seq<Particle>)
    ensures |ps| == BurstSize * |caught|
  {
    if caught == [] then []
    else
      var n := |caught| - 1;
      Bursts(caught[..n], rng) + Burst(CoinCentreX(caught[n]), CoinCentreY(caught[n]), rng, BurstSize * n)
  }

  /** Every particle of the bursts starts fully opaque with 30 frames of life. */
  lemma {:induction false} BurstsFresh(caught: seq<Coin>, rng: nat -> Spark)
    ensures forall p :: p in Bursts(caught, rng) ==> p.opacity == 1.0 && p.life == ParticleLife
  {
    if caught != [] {
      var n := |caught| - 1;
      BurstsFresh(caught[..n], rng);
      BurstFresh(CoinCentreX(caught[n]), CoinCentreY(caught[n]), rng, BurstSize * n);
    }
  }

  /** One more caught coin: its burst follows the earlier ones and uses the next 20 draws. */
  lemma BurstsSnoc(caught: seq<Coin>, c: Coin, rng: nat -> Spark)
    ensures Bursts(caught + [c], rng) ==
              Bursts(caught, rng) + Burst(CoinCentreX(c), CoinCentreY(c), rng, BurstSize * |caught|)
  {
    assert (caught + [c])[..|caught|] == caught;
  }

  /** Particle k of the bursts sits at the centre of caught coin k / 20. */
  lemma {:induction false} BurstsAt(caught: seq<Coin>, rng: nat -> Spark, k: nat)
    requires k < BurstSize * |caught|
    ensures Bursts(caught, rng)[k] ==
              NewParticle(CoinCentreX(caught[k / BurstSize]), CoinCentreY(caught[k / BurstSize]), rng(k))
  {
    var n := |caught| - 1;
    if k < BurstSize * n {
      BurstsAt(caught[..n], rng, k);
    }
  }

  /** One frame of a particle: it moves by its velocity, fades and ages. */
  function Age(p: Particle): Particle
  {
    p.(x := p.x + p.speedX, y := p.y + p.speedY, opacity := p.opacity - OpacityDecay, life := p.life - 1)
  }

  /** A particle is kept while it has life and is still visible. */
  predicate Alive(p: Particle) { p.life > 0 && p.opacity > 0.0 }

  /** The particle list after one updateParticles. */
  function UpdatedParticles(ps: seq<Particle>): seq<Particle>
  {
    Filter(Alive, Map(Age, ps))
  }

  /** What an update keeps: exactly the old particles, each moved, faded and
      aged once, that still have life and are still visible. */
  lemma UpdatedParticlesAre(ps: seq<Particle>, q: Particle)
    ensures q in UpdatedParticles(ps) <==>
              q.life > 0 && q.opacity > 0.0 && exists i :: 0 <= i < |ps| && q == Age(ps[i])
  {
    FilterMember(Alive, Map(Age, ps), q);
    MapMember(Age, ps, q);
  }

  /** An update keeps the surviving particles in their old order. */
  lemma UpdatedParticlesKeepOrder(front: seq<Particle>, back: seq<Particle>)
    ensures UpdatedParticles(front + back) == UpdatedParticles(front) + UpdatedParticles(back)
  {
    MapAppend(Age, front, back);
    FilterAppend(Alive, Map(Age, front), Map(Age, back));
  }

  /** One more particle at the end: it is kept, aged, exactly when it is still alive after aging. */
  lemma UpdatedParticlesSnoc(ps: seq<Particle>, p: Particle)
    ensures UpdatedParticles(ps + [p]) ==
              UpdatedParticles(ps) + (if Alive(Age(p)) then [Age(p)] else [])
  {
    MapSnoc(Age, ps, p);
    FilterSnoc(Alive, Map(Age, ps), Age(p));
  }

  /** The particle list after n frames without new bursts. */
  function AfterUpdates(ps: seq<Particle>, n: nat): seq<Particle>
  {
    if n == 0 then ps else UpdatedParticles(AfterUpdates(ps, n - 1))
  }

  /** An update never lengthens a particle's remaining life. */
  lemma UpdateLowersLife(ps: seq<Particle>, bound: int)
    requires forall p :: p in ps ==> p.life <= bound
    ensures forall q :: q in UpdatedParticles(ps) ==> 0 < q.life <= bound - 1
  {
    forall q | q in UpdatedParticles(ps)
      ensures 0 < q.life <= bound - 1
    {
      FilterMember(Alive, Map(Age, ps), q);
      MapMember(Age, ps, q);
      var i :| 0 <= i < |ps| && q == Age(ps[i]);
      assert ps[i] in ps;
    }
  }

  /** A particle with at most `bound` frames of life left, for `All`. */
  function LifeAtMost(bound: int): Particle -> bool
  {
    (p: Particle) => p.life <= bound
  }

  /** An update keeps every particle within 30 frames of life. */
  lemma UpdateKeepsLifeBound(ps: seq<Particle>)
    requires All(LifeAtMost(ParticleLife), ps)
    ensures All(LifeAtMost(ParticleLife), UpdatedParticles(ps))
  {
    AllMember(LifeAtMost(ParticleLife), ps);
    UpdateLowersLife(ps, ParticleLife);
    AllMember(LifeAtMost(ParticleLife), UpdatedParticles(ps));
  }

  /** Collection keeps only coins that were there, so they stay in their lanes. */
  lemma CollectKeepsLanes(laneWidth: real, vehicle: Box, cs: seq<Coin>)
    ensures All(CoinInLane(laneWidth), cs) ==> All(CoinInLane(laneWidth), Filter(Missed(vehicle), cs))
  {
    AllMember(CoinInLane(laneWidth), cs);
    FilterSubset(Missed(vehicle), cs);
    AllMember(CoinInLane(laneWidth), Filter(Missed(vehicle), cs));
  }

  /** New bursts start with 30 frames of life, so the bound still holds after them. */
  lemma BurstsKeepLifeBound(ps: seq<Particle>, caught: seq<Coin>, rng: nat -> Spark)
    ensures All(LifeAtMost(ParticleLife), ps) ==> All(LifeAtMost(ParticleLife), ps + Bursts(caught, rng))
  {
    BurstsFresh(caught, rng);
    AllMember(LifeAtMost(ParticleLife), Bursts(caught, rng));
    AllAppend(LifeAtMost(ParticleLife), ps, Bursts(caught, rng));
  }

  /** After n frames every particle has lost n of its life. */
  lemma {:induction false} LifeAfterUpdates(ps: seq<Particle>, bound: int, n: nat)
    requires forall p :: p in ps ==> p.life <= bound
    ensures forall q :: q in AfterUpdates(ps, n) ==> q.life <= bound - n
  {
    if n > 0 {
      LifeAfterUpdates(ps, bound, n - 1);
      UpdateLowersLife(AfterUpdates(ps, n - 1), bound - (n - 1));
    }
  }

  /** Particles with at most n frames of life left are all gone after n
      updates; in particular every particle of a burst is gone after 30. */
  lemma AllGoneAfter(ps: seq<Particle>, n: nat)
    requires n >= 1
    requires forall p :: p in ps ==> p.life <= n
    ensures AfterUpdates(ps, n) == []
  {
    LifeAfterUpdates(ps, n, n - 1);
    var before := AfterUpdates(ps, n - 1);
    forall q | q in Map(Age, before)
      ensures !Alive(q)
    {
      MapMember(Age, before, q);
      var i :| 0 <= i < |before| && q == Age(before[i]);
      assert before[i] in before;
    }
    FilterNone(Alive, Map(Age, before));
  }

  /** A fresh particle survives exactly 29 updates: its life reaches zero on
      the 30th while its opacity is still positive, so the life limit, not the
      fading, is what removes it. */
  lemma {:induction false} FreshParticleLifetime(p: Particle, k: nat)
    requires p.opacity == 1.0 && p.life == ParticleLife
    requires k < ParticleLife as nat
    ensures |AfterUpdates([p], k)| == 1
    ensures AfterUpdates([p], k)[0].life == ParticleLife - k
    ensures AfterUpdates([p], k)[0].opacity == 1.0 - OpacityDecay * k as real
    ensures AfterUpdates([p], k)[0].opacity > 0.0
  {
    if k > 0 {
      FreshParticleLifetime(p, k - 1);
      var q := AfterUpdates([p], k - 1)[0];
      assert AfterUpdates([p], k - 1) == [q];
      assert Alive(Age(q));
      UpdateOne(q);
    }
  }

  /** A lone particle that stays alive is simply aged by an update. */
  lemma UpdateOne(q: Particle)
    requires Alive(Age(q))
    ensures UpdatedParticles([q]) == [Age(q)]
  {
    MapSnoc(Age, [], q);
    FilterSnoc(Alive, [], Age(q));
  }

  /** ... and is gone after the 30th. */
  lemma FreshParticleGone(p: Particle)
    requires p.opacity == 1.0 && p.life == ParticleLife
    ensures AfterUpdates([p], ParticleLife as nat) == []
  {
    AllGoneAfter([p], ParticleLife as nat);
  }
}
