/**
 * Scope Creep Survivor: the per-frame simulation of the dodging game. The
 * player is a square on a 640 x 300 field; feature requests fly across it,
 * bad ones cost a hit, good ones add progress, and a power-up clears the
 * field and forgives a hit. Progress to 100 wins, five hits lose.
 * Positions, speeds and times are exact reals.
 */
module ScopeCreep {
  import opened Options

  const GAME_WIDTH: real := 640.0
  const GAME_HEIGHT: real := 300.0
  const INITIAL_PLAYER_SIZE: real := 24.0
  const MAX_HITS: int := 5
  /** Milliseconds in one frame at 60 frames a second: the unit of dt. */
  const FRAME_MS: real := 16.67
  const MAX_DT: real := 3.0
  const REQUEST_WIDTH: real := 90.0
  const REQUEST_HEIGHT: real := 24.0
  const POWER_UP_SIZE: real := 36.0
  /** How far outside the field a request may drift before it is dropped. */
  const CULL_X: real := 120.0
  const CULL_Y: real := 60.0
  /** The player's centre stays this far inside every edge. */
  const EDGE_MARGIN: real := 12.0
  const KEY_STEP: real := 4.0
  const GOOD_BONUS: real := 6.0
  const FULL_PROGRESS: real := 100.0

  datatype GameState = Start | Playing | GameOver | Win

  /** A feature request flying across the field; the label is not modelled. */
  datatype Request = Request(id: int, x: real, y: real, vx: real, vy: real, isGood: bool, width: real, height: real)

  datatype PowerUp = PowerUp(id: int, x: real, y: real, width: real, height: real)

  /** Where and how a spawned request enters the field, chosen by the spawn geometry. */
  datatype Launch = Launch(x: real, y: real, vx: real, vy: real, isGood: bool)

  /** The random choices one frame consumes: the launch of each request of a batch and the power-up rolls in [0, 1). */
  datatype Draws = Draws(launch: nat -> Launch, powerUpRoll: real, powerUpX: real, powerUpY: real)

  /** The player's square as the collision test sees it: centre and half the side. */
  datatype PlayerBox = PlayerBox(x: real, y: real, half: real)

  function Min(a: real, b: real): real { if a < b then a else b }
  function Max(a: real, b: real): real { if a < b then b else a }

  // ---------------------------------------------------------------------------
  // Derived quantities

  /** The player grows by 15% of its starting size with every hit. */
  function PlayerSize(hits: int): (s: real)
    ensures hits >= 0 ==> s >= INITIAL_PLAYER_SIZE
  {
    INITIAL_PLAYER_SIZE * (1.0 + hits as real * 0.15)
  }

  /** Progress per frame: 0.06, slowed by 0.012 per hit, never below 0.02. */
  function MvpSpeed(hits: int): (s: real)
    ensures 0.02 <= s
    ensures hits >= 0 ==> s <= 0.06
  {
    Max(0.02, 0.06 - hits as real * 0.012)
  }

  /** Satisfaction: 100 less 20 per hit, never below 0. */
  function Satisfaction(hits: int): (s: int)
    ensures hits >= 0 ==> s <= 100
    ensures s >= 0
    ensures hits >= MAX_HITS ==> s == 0
  {
    if 100 - hits * 20 < 0 then 0 else 100 - hits * 20
  }

  /** Every hit makes the player larger, progress slower and satisfaction lower (or no higher). */
  lemma DerivedMonotone(h1: int, h2: int)
    requires 0 <= h1 <= h2
    ensures PlayerSize(h1) <= PlayerSize(h2)
    ensures MvpSpeed(h1) >= MvpSpeed(h2)
    ensures Satisfaction(h1) >= Satisfaction(h2)
  {
  }

  /** Frames elapsed since the last tick: 1 on the first tick, otherwise capped at 3. */
  function DeltaTime(lastTime: real, timestamp: real): (dt: real)
    ensures dt <= MAX_DT
    ensures lastTime == 0.0 ==> dt == 1.0
    ensures lastTime != 0.0 && timestamp >= lastTime ==> dt >= 0.0
    ensures lastTime != 0.0 && (timestamp - lastTime) / FRAME_MS <= MAX_DT ==> dt == (timestamp - lastTime) / FRAME_MS
    ensures lastTime != 0.0 && (timestamp - lastTime) / FRAME_MS > MAX_DT ==> dt == MAX_DT
  {
    if lastTime == 0.0 then 1.0 else Min((timestamp - lastTime) / FRAME_MS, MAX_DT)
  }

  /** The four attack phases, switching at 25, 50 and 75 progress. */
  function GetPhase(progress: real): (phase: int)
    ensures 0 <= phase <= 3
  {
    if progress < 25.0 then 0
    else if progress < 50.0 then 1
    else if progress < 75.0 then 2
    else 3
  }

  /** The phase is the number of thresholds 25, 50, 75 that progress has reached. */
  lemma PhaseCountsThresholds(progress: real)
    ensures GetPhase(progress) == (if progress >= 25.0 then 1 else 0) + (if progress >= 50.0 then 1 else 0)
                                  + (if progress >= 75.0 then 1 else 0)
  {
  }

  lemma PhaseMonotone(p: real, q: real)
    requires p <= q
    ensures GetPhase(p) <= GetPhase(q)
  {
  }

  /** Frames between spawns: 30, 24, 18, 12 for phases 0 to 3, never below 8. */
  function SpawnInterval(phase: int): (n: real)
    ensures n >= 8.0
    ensures 0 <= phase <= 3 ==> n == 30.0 - 6.0 * phase as real
  {
    Max(8.0, 30.0 - phase as real * 6.0)
  }

  /** Requests per spawn: 1, 1, 2, 3 for phases 0 to 3. */
  function BatchSize(phase: int): (n: nat)
    ensures 1 <= n <= 3
  {
    if phase == 3 then 3 else if phase == 2 then 2 else 1
  }

  /** Later phases spawn sooner and in larger batches. */
  lemma LaterPhasesSpawnMore(p: int, q: int)
    requires 0 <= p <= q <= 3
    ensures SpawnInterval(q) <= SpawnInterval(p)
    ensures BatchSize(p) <= BatchSize(q)
  {
  }

  /** Frames until the next power-up: 60 * (15 + 5 * roll) milliseconds-per-frame units. */
  function PowerUpThreshold(roll: real): (t: real)
    ensures 0.0 <= roll < 1.0 ==> 900.0 / FRAME_MS <= t < 1200.0 / FRAME_MS
  {
    60.0 * (15.0 + roll * 5.0) / FRAME_MS
  }

  // ---------------------------------------------------------------------------
  // Geometry

  /** The player's centre is kept 12 units inside the field. */
  predicate InField(x: real, y: real) {
    EDGE_MARGIN <= x <= GAME_WIDTH - EDGE_MARGIN && EDGE_MARGIN <= y <= GAME_HEIGHT - EDGE_MARGIN
  }

  /** Clamps a coordinate to [12, size - 12]. */
  function Clamp(v: real, size: real): (c: real)
    requires size >= 2.0 * EDGE_MARGIN
    ensures EDGE_MARGIN <= c <= size - EDGE_MARGIN
    ensures EDGE_MARGIN <= v <= size - EDGE_MARGIN ==> c == v
    ensures c == v || c == EDGE_MARGIN || c == size - EDGE_MARGIN
  {
    Max(EDGE_MARGIN, Min(size - EDGE_MARGIN, v))
  }

  /** A pointer position mapped from the element's box to field coordinates, then clamped. */
  function MapToGame(clientX: real, clientY: real, left: real, top: real, width: real, height: real): (p: (real, real))
    requires width > 0.0 && height > 0.0
    ensures InField(p.0, p.1)
  {
    (Clamp((clientX - left) / width * GAME_WIDTH, GAME_WIDTH),
     Clamp((clientY - top) / height * GAME_HEIGHT, GAME_HEIGHT))
  }

  /** Inside the clamped zone the mapping is the exact proportion of the box. */
  lemma MapToGameIsProportional(clientX: real, clientY: real, left: real, top: real, width: real, height: real)
    requires width > 0.0 && height > 0.0
    requires EDGE_MARGIN <= (clientX - left) / width * GAME_WIDTH <= GAME_WIDTH - EDGE_MARGIN
    requires EDGE_MARGIN <= (clientY - top) / height * GAME_HEIGHT <= GAME_HEIGHT - EDGE_MARGIN
    ensures MapToGame(clientX, clientY, left, top, width, height)
            == ((clientX - left) / width * GAME_WIDTH, (clientY - top) / height * GAME_HEIGHT)
  {
  }

  /** The player's square and a box overlap: strict inequalities, so touching edges do not count. */
  predicate Overlaps(p: PlayerBox, x: real, y: real, width: real, height: real) {
    p.x - p.half < x + width && p.x + p.half > x && p.y - p.half < y + height && p.y + p.half > y
  }

  /** A point strictly inside the box with corner (x, y). */
  predicate Inside(a: real, b: real, x: real, y: real, width: real, height: real) {
    x < a < x + width && y < b < y + height
  }

  /** For boxes of positive size, the overlap test holds exactly when the two open boxes share a point. */
  lemma OverlapsIffSharedPoint(p: PlayerBox, x: real, y: real, width: real, height: real)
    requires p.half > 0.0 && width > 0.0 && height > 0.0
    ensures Overlaps(p, x, y, width, height) <==>
            exists a: real, b: real :: Inside(a, b, p.x - p.half, p.y - p.half, 2.0 * p.half, 2.0 * p.half)
                                    && Inside(a, b, x, y, width, height)
  {
    if Overlaps(p, x, y, width, height) {
      var a := (Max(p.x - p.half, x) + Min(p.x + p.half, x + width)) / 2.0;
      var b := (Max(p.y - p.half, y) + Min(p.y + p.half, y + height)) / 2.0;
      assert Inside(a, b, p.x - p.half, p.y - p.half, 2.0 * p.half, 2.0 * p.half);
      assert Inside(a, b, x, y, width, height);
    }
  }

  // ---------------------------------------------------------------------------
  // Move, cull and collide

  /** A request after dt frames of flight. */
  function Moved(r: Request, dt: real): (m: Request)
    ensures m.id == r.id && m.isGood == r.isGood && m.width == r.width && m.height == r.height
    ensures m.vx == r.vx && m.vy == r.vy
    ensures m.x - r.x == r.vx * dt && m.y - r.y == r.vy * dt
  {
    r.(x := r.x + r.vx * dt, y := r.y + r.vy * dt)
  }

  /** Out of play: more than 120 beyond the left or right edge, or 60 beyond the top or bottom. */
  predicate OffField(r: Request) {
    r.x < -CULL_X || r.x > GAME_WIDTH + CULL_X || r.y < -CULL_Y || r.y > GAME_HEIGHT + CULL_Y
  }

  datatype Fate = Culled | Collected | Struck | Stays

  /** What one frame does to a request: it moves, then leaves the field, is caught by the player, or stays. */
  function FateOf(r: Request, dt: real, p: PlayerBox): Fate {
    var m := Moved(r, dt);
    if OffField(m) then Culled
    else if Overlaps(p, m.x, m.y, m.width, m.height) then (if r.isGood then Collected else Struck)
    else Stays
  }

  /** The moved requests that stay in play, in their original order. */
  function Survivors(rs: seq<Request>, dt: real, p: PlayerBox): seq<Request>
    decreases |rs|
  {
    if rs == [] then []
    else
      var last := rs[|rs| - 1];
      Survivors(rs[..|rs| - 1], dt, p) + (if FateOf(last, dt, p) == Stays then [Moved(last, dt)] else [])
  }

  /** How many bad requests struck the player. */
  function StruckCount(rs: seq<Request>, dt: real, p: PlayerBox): nat
    decreases |rs|
  {
    if rs == [] then 0
    else StruckCount(rs[..|rs| - 1], dt, p) + (if FateOf(rs[|rs| - 1], dt, p) == Struck then 1 else 0)
  }

  /** How many good requests the player caught. */
  function CollectedCount(rs: seq<Request>, dt: real, p: PlayerBox): nat
    decreases |rs|
  {
    if rs == [] then 0
    else CollectedCount(rs[..|rs| - 1], dt, p) + (if FateOf(rs[|rs| - 1], dt, p) == Collected then 1 else 0)
  }

  /**
   * A request is in the survivors exactly when it is the moved form of an
   * input request that was neither culled nor caught; none of them is off
   * the field or touches the player.
   */
  lemma {:induction false} SurvivorsAreTheStaying(rs: seq<Request>, dt: real, p: PlayerBox, m: Request)
    ensures m in Survivors(rs, dt, p) <==> exists i :: 0 <= i < |rs| && FateOf(rs[i], dt, p) == Stays && m == Moved(rs[i], dt)
    ensures m in Survivors(rs, dt, p) ==> !OffField(m) && !Overlaps(p, m.x, m.y, m.width, m.height)
    decreases |rs|
  {
    if rs != [] {
      var init := rs[..|rs| - 1];
      SurvivorsAreTheStaying(init, dt, p, m);
      if m in Survivors(rs, dt, p) && m !in Survivors(init, dt, p) {
        assert m == Moved(rs[|rs| - 1], dt);
      }
      if exists i :: 0 <= i < |rs| && FateOf(rs[i], dt, p) == Stays && m == Moved(rs[i], dt) {
        var i :| 0 <= i < |rs| && FateOf(rs[i], dt, p) == Stays && m == Moved(rs[i], dt);
        if i < |rs| - 1 {
          assert init[i] == rs[i];
        }
      }
      forall i | 0 <= i < |init| && FateOf(init[i], dt, p) == Stays && m == Moved(init[i], dt)
        ensures 0 <= i < |rs| && FateOf(rs[i], dt, p) == Stays && m == Moved(rs[i], dt)
      {
        assert init[i] == rs[i];
      }
    }
  }

  /** A hit is registered exactly when some bad request struck the player; the count says how many did. */
  lemma {:induction false} StruckCountCounts(rs: seq<Request>, dt: real, p: PlayerBox)
    ensures StruckCount(rs, dt, p) > 0 <==> exists i :: 0 <= i < |rs| && FateOf(rs[i], dt, p) == Struck
    ensures StruckCount(rs, dt, p) + CollectedCount(rs, dt, p) + |Survivors(rs, dt, p)| <= |rs|
    decreases |rs|
  {
    if rs != [] {
      var init := rs[..|rs| - 1];
      StruckCountCounts(init, dt, p);
      forall i | 0 <= i < |init| && FateOf(init[i], dt, p) == Struck
        ensures FateOf(rs[i], dt, p) == Struck
      {
        assert init[i] == rs[i];
      }
      if exists i :: 0 <= i < |rs| && FateOf(rs[i], dt, p) == Struck {
        var i :| 0 <= i < |rs| && FateOf(rs[i], dt, p) == Struck;
        if i < |rs| - 1 {
          assert init[i] == rs[i];
        }
      }
    }
  }

  /**
   * The move-cull-collide pass over the request list: each request moves by
   * (vx * dt, vy * dt), is dropped when off the field, and is removed when it
   * overlaps the player, a good one adding to the good count and a bad one
   * raising the hit flag.
   */
  method SweepRequests(requests: seq<Request>, dt: real, p: PlayerBox)
    returns (kept: seq<Request>, hitOccurred: bool, goodCollected: nat)
    ensures kept == Survivors(requests, dt, p)
    ensures hitOccurred <==> StruckCount(requests, dt, p) > 0
    ensures goodCollected == CollectedCount(requests, dt, p)
  {
    kept := [];
    hitOccurred := false;
    goodCollected := 0;
    for i := 0 to |requests|
      invariant kept == Survivors(requests[..i], dt, p)
      invariant hitOccurred <==> StruckCount(requests[..i], dt, p) > 0
      invariant goodCollected == CollectedCount(requests[..i], dt, p)
    {
      assert requests[..i + 1][..i] == requests[..i];
      var r := requests[i];
      var m := r.(x := r.x + r.vx * dt, y := r.y + r.vy * dt);
      assert m == Moved(r, dt) && requests[..i + 1][i] == r;
      if m.x < -CULL_X || m.x > GAME_WIDTH + CULL_X || m.y < -CULL_Y || m.y > GAME_HEIGHT + CULL_Y {
        // dropped off the field
      } else if p.x - p.half < m.x + m.width && p.x + p.half > m.x && p.y - p.half < m.y + m.height && p.y + p.half > m.y {
        if r.isGood {
          goodCollected := goodCollected + 1;
        } else {
          hitOccurred := true;
        }
      } else {
        kept := kept + [m];
      }
    }
    assert requests[..|requests|] == requests;
  }

  /** The power-ups the player is not touching, in order. */
  function Uncollected(ps: seq<PowerUp>, p: PlayerBox): seq<PowerUp>
    decreases |ps|
  {
    if ps == [] then []
    else
      var last := ps[|ps| - 1];
      Uncollected(ps[..|ps| - 1], p) + (if Overlaps(p, last.x, last.y, last.width, last.height) then [] else [last])
  }

  /** How many power-ups the player is touching. */
  function PickupCount(ps: seq<PowerUp>, p: PlayerBox): nat
    decreases |ps|
  {
    if ps == [] then 0
    else
      var last := ps[|ps| - 1];
      PickupCount(ps[..|ps| - 1], p) + (if Overlaps(p, last.x, last.y, last.width, last.height) then 1 else 0)
  }

  /** Every power-up is either picked up or kept, and the kept ones are exactly those the player does not touch. */
  lemma {:induction false} PickupsPartition(ps: seq<PowerUp>, p: PlayerBox, u: PowerUp)
    ensures PickupCount(ps, p) + |Uncollected(ps, p)| == |ps|
    ensures u in Uncollected(ps, p) <==> u in ps && !Overlaps(p, u.x, u.y, u.width, u.height)
    decreases |ps|
  {
    if ps != [] {
      var init := ps[..|ps| - 1];
      PickupsPartition(init, p, u);
      assert ps == init + [ps[|ps| - 1]];
    }
  }

  /** With nothing picked up, the power-up list is left as it was. */
  lemma {:induction false} NoPickupKeepsAll(ps: seq<PowerUp>, p: PlayerBox)
    requires PickupCount(ps, p) == 0
    ensures Uncollected(ps, p) == ps
    decreases |ps|
  {
    if ps != [] {
      var init := ps[..|ps| - 1];
      NoPickupKeepsAll(init, p);
      assert ps == init + [ps[|ps| - 1]];
    }
  }

  /** The power-up collision pass: each power-up the player overlaps is removed and counted. */
  method SweepPowerUps(powerUps: seq<PowerUp>, p: PlayerBox) returns (kept: seq<PowerUp>, pickups: nat)
    ensures kept == Uncollected(powerUps, p)
    ensures pickups == PickupCount(powerUps, p)
  {
    kept := [];
    pickups := 0;
    for i := 0 to |powerUps|
      invariant kept == Uncollected(powerUps[..i], p)
      invariant pickups == PickupCount(powerUps[..i], p)
    {
      assert powerUps[..i + 1][..i] == powerUps[..i];
      var u := powerUps[i];
      if p.x - p.half < u.x + u.width && p.x + p.half > u.x && p.y - p.half < u.y + u.height && p.y + p.half > u.y {
        pickups := pickups + 1;
      } else {
        kept := kept + [u];
      }
    }
    assert powerUps[..|powerUps|] == powerUps;
  }

  /** Progress after n good tickets, each adding 6 capped at 100. */
  function Bonus(progress: real, n: nat): (r: real)
    ensures progress <= FULL_PROGRESS ==> r <= FULL_PROGRESS
    ensures progress == FULL_PROGRESS ==> r == FULL_PROGRESS
    ensures n > 0 ==> r <= FULL_PROGRESS
    decreases n
  {
    if n == 0 then progress else Min(Bonus(progress, n - 1) + GOOD_BONUS, FULL_PROGRESS)
  }

  /** Repeated capped bonuses add up: n good tickets add 6n, capped at 100. */
  lemma {:induction false} BonusIsCappedSum(progress: real, n: nat)
    requires progress <= FULL_PROGRESS
    ensures Bonus(progress, n) == Min(progress + GOOD_BONUS * n as real, FULL_PROGRESS)
    decreases n
  {
    if n > 0 {
      BonusIsCappedSum(progress, n - 1);
    }
  }

  /** Hits after n power-up pickups, each taking one away but never below 0. */
  function Relief(hits: int, n: nat): (r: int)
    ensures hits >= 0 ==> 0 <= r <= hits
    ensures n > 0 ==> r >= 0
    decreases n
  {
    if n == 0 then hits else if Relief(hits, n - 1) - 1 < 0 then 0 else Relief(hits, n - 1) - 1
  }

  /** Repeated floored decrements add up: n pickups remove n hits, floored at 0. */
  lemma {:induction false} ReliefIsFlooredDifference(hits: int, n: nat)
    requires hits >= 0
    ensures Relief(hits, n) == if hits - n < 0 then 0 else hits - n
    decreases n
  {
    if n > 0 {
      ReliefIsFlooredDifference(hits, n - 1);
    }
  }

  // ---------------------------------------------------------------------------
  // Ids

  predicate RequestIdsIncreasing(rs: seq<Request>) {
    forall i, j :: 0 <= i < j < |rs| ==> rs[i].id < rs[j].id
  }

  predicate PowerUpIdsIncreasing(ps: seq<PowerUp>) {
    forall i, j :: 0 <= i < j < |ps| ==> ps[i].id < ps[j].id
  }

  lemma AppendRequestsIncreasing(a: seq<Request>, b: seq<Request>)
    requires RequestIdsIncreasing(a) && RequestIdsIncreasing(b)
    requires forall x, y :: x in a && y in b ==> x.id < y.id
    ensures RequestIdsIncreasing(a + b)
  {
    forall i, j | 0 <= i < j < |a + b|
      ensures (a + b)[i].id < (a + b)[j].id
    {
      if j >= |a| && i < |a| {
        assert a[i] in a && b[j - |a|] in b;
      }
    }
  }

  lemma AppendPowerUpsIncreasing(a: seq<PowerUp>, b: seq<PowerUp>)
    requires PowerUpIdsIncreasing(a) && PowerUpIdsIncreasing(b)
    requires forall x, y :: x in a && y in b ==> x.id < y.id
    ensures PowerUpIdsIncreasing(a + b)
  {
    forall i, j | 0 <= i < j < |a + b|
      ensures (a + b)[i].id < (a + b)[j].id
    {
      if j >= |a| && i < |a| {
        assert a[i] in a && b[j - |a|] in b;
      }
    }
  }

  /** Every survivor carries the id of a request it came from. */
  lemma SurvivorIdsComeFromInput(rs: seq<Request>, dt: real, p: PlayerBox)
    ensures forall m :: m in Survivors(rs, dt, p) ==> exists r :: r in rs && r.id == m.id
  {
    forall m | m in Survivors(rs, dt, p)
      ensures exists r :: r in rs && r.id == m.id
    {
      SurvivorsAreTheStaying(rs, dt, p, m);
      var i :| 0 <= i < |rs| && FateOf(rs[i], dt, p) == Stays && m == Moved(rs[i], dt);
      assert rs[i] in rs;
    }
  }

  /** The survivors keep the order of their ids. */
  lemma {:induction false} SurvivorsKeepOrder(rs: seq<Request>, dt: real, p: PlayerBox)
    ensures RequestIdsIncreasing(rs) ==> RequestIdsIncreasing(Survivors(rs, dt, p))
    decreases |rs|
  {
    if rs != [] && RequestIdsIncreasing(rs) {
      var init := rs[..|rs| - 1];
      var last := rs[|rs| - 1];
      SurvivorsKeepOrder(init, dt, p);
      if FateOf(last, dt, p) == Stays {
        SurvivorIdsComeFromInput(init, dt, p);
        forall x, y | x in Survivors(init, dt, p) && y in [Moved(last, dt)]
          ensures x.id < y.id
        {
          var r :| r in init && r.id == x.id;
          var k :| 0 <= k < |init| && init[k] == r;
          assert rs[k] == r;
        }
        AppendRequestsIncreasing(Survivors(init, dt, p), [Moved(last, dt)]);
      }
    }
  }

  /** The power-ups left keep their order. */
  lemma {:induction false} UncollectedKeepsOrder(ps: seq<PowerUp>, p: PlayerBox)
    ensures forall u :: u in Uncollected(ps, p) ==> u in ps
    ensures PowerUpIdsIncreasing(ps) ==> PowerUpIdsIncreasing(Uncollected(ps, p))
    decreases |ps|
  {
    forall u | u in Uncollected(ps, p)
      ensures u in ps
    {
      PickupsPartition(ps, p, u);
    }
    if ps != [] && PowerUpIdsIncreasing(ps) {
      var init := ps[..|ps| - 1];
      var last := ps[|ps| - 1];
      UncollectedKeepsOrder(init, p);
      if !Overlaps(p, last.x, last.y, last.width, last.height) {
        forall x, y | x in Uncollected(init, p) && y in [last]
          ensures x.id < y.id
        {
          var k :| 0 <= k < |init| && init[k] == x;
          assert ps[k] == x;
        }
        AppendPowerUpsIncreasing(Uncollected(init, p), [last]);
      }
    }
  }

  // ---------------------------------------------------------------------------
  // The world and one frame

  /** Every field of the game that the frame loop and the controls read or write. */
  datatype World = World(
    state: GameState,
    playerX: real,
    playerY: real,
    requests: seq<Request>,
    powerUps: seq<PowerUp>,
    progress: real,
    hits: int,
    highScore: int,
    isNewHighScore: bool,
    storage: Option<int>,
    lastTime: real,
    spawnTimer: real,
    powerUpTimer: real,
    nextId: int,
    lastPhase: int)

  /** Every id on the field was issued by the counter, and no id is used twice. */
  predicate IdsSound(w: World) {
    && 0 <= w.nextId
    && RequestIdsIncreasing(w.requests) && PowerUpIdsIncreasing(w.powerUps)
    && (forall r :: r in w.requests ==> 0 <= r.id < w.nextId)
    && (forall u :: u in w.powerUps ==> 0 <= u.id < w.nextId)
    && (forall r, u :: r in w.requests && u in w.powerUps ==> r.id != u.id)
  }

  /** What holds between frames. */
  predicate Sound(w: World) {
    && w.progress <= FULL_PROGRESS
    && w.hits >= 0
    && InField(w.playerX, w.playerY)
    && (w.state == Playing ==> w.hits < MAX_HITS)
    && (w.state == Win ==> w.progress == FULL_PROGRESS)
    && (w.storage.Some? ==> w.storage.value == w.highScore)
    && IdsSound(w)
  }

  /** The game as first shown: the start screen, with the stored best score if any. */
  function InitialWorld(stored: Option<int>): (w: World)
    ensures Sound(w)
    ensures w.state == Start && w.highScore == stored.GetOr(0)
  {
    World(Start, GAME_WIDTH / 2.0, GAME_HEIGHT / 2.0, [], [], 0.0, 0, stored.GetOr(0), false, stored,
          0.0, 0.0, 0.0, 0, -1)
  }

  /** A new run: playing, player centred, nothing on the field, all counters and timers at zero; the best score stays. */
  function Started(w: World): (r: World)
    ensures Sound(w) ==> Sound(r)
    ensures r.state == Playing && r.requests == [] && r.powerUps == [] && r.progress == 0.0 && r.hits == 0
    ensures r.spawnTimer == 0.0 && r.powerUpTimer == 0.0 && r.lastTime == 0.0 && r.nextId == 0
    ensures r.playerX == GAME_WIDTH / 2.0 && r.playerY == GAME_HEIGHT / 2.0
    ensures !r.isNewHighScore && r.lastPhase == -1
    ensures r.highScore == w.highScore && r.storage == w.storage
  {
    w.(state := Playing, playerX := GAME_WIDTH / 2.0, playerY := GAME_HEIGHT / 2.0, requests := [], powerUps := [],
       progress := 0.0, hits := 0, isNewHighScore := false, spawnTimer := 0.0, powerUpTimer := 0.0,
       lastPhase := -1, lastTime := 0.0, nextId := 0)
  }

  /** Between two states: the best score, its new-best flag and its stored copy are untouched. */
  predicate ScoreUntouched(w: World, r: World) {
    r.highScore == w.highScore && r.isNewHighScore == w.isNewHighScore && r.storage == w.storage
  }

  /** Between two states: no score was saved, or a score beating the given best was saved and flagged as new. */
  predicate ScoreKeptOrBeaten(w: World, r: World, best: int) {
    || ScoreUntouched(w, r)
    || (r.highScore > best && r.isNewHighScore && r.storage == Some(r.highScore))
  }

  /** Between two states: the satisfaction was saved, flagged and stored if it beats the best, and otherwise nothing was saved. */
  predicate SavedIfBetter(w: World, r: World, satisfaction: int, best: int) {
    if satisfaction > best then r.highScore == satisfaction && r.isNewHighScore && r.storage == Some(satisfaction)
    else ScoreUntouched(w, r)
  }

  /** Saves a satisfaction score as the best only when it beats the best known when the frame began. */
  function RecordScore(w: World, satisfaction: int, best: int): (r: World)
    ensures (w.storage.Some? ==> w.storage.value == w.highScore) ==> (r.storage.Some? ==> r.storage.value == r.highScore)
    ensures satisfaction > best ==> r.highScore == satisfaction && r.isNewHighScore && r.storage == Some(satisfaction)
    ensures satisfaction <= best ==> r == w
    ensures r.(highScore := w.highScore, isNewHighScore := w.isNewHighScore, storage := w.storage) == w
  {
    if satisfaction > best then w.(highScore := satisfaction, isNewHighScore := true, storage := Some(satisfaction))
    else w
  }

  /**
   * Progress step: progress grows by mvpSpeed * dt, capped at 100; reaching
   * 100 wins the game and records the satisfaction of the hits at the start
   * of the frame.
   */
  function AdvanceProgress(w: World, dt: real, best: int): (r: World)
    ensures r.progress <= FULL_PROGRESS && r.lastPhase == GetPhase(r.progress)
    ensures r.state == Win <==> w.progress + MvpSpeed(w.hits) * dt >= FULL_PROGRESS
    ensures r.state == Win ==> r.progress == FULL_PROGRESS
    ensures r.state != Win ==> r.state == w.state && r.progress == w.progress + MvpSpeed(w.hits) * dt
    ensures Sound(w) ==> Sound(r)
    ensures r.state == Win ==> SavedIfBetter(w, r, Satisfaction(w.hits), best)
    ensures r.state != Win ==> ScoreUntouched(w, r)
    ensures ScoreKeptOrBeaten(w, r, best)
    ensures r.(state := w.state, progress := w.progress, lastPhase := w.lastPhase, highScore := w.highScore,
               isNewHighScore := w.isNewHighScore, storage := w.storage) == w
    requires w.state == Playing
  {
    var newP := Min(w.progress + MvpSpeed(w.hits) * dt, FULL_PROGRESS);
    var tracked := w.(lastPhase := GetPhase(newP));
    if newP >= FULL_PROGRESS then
      RecordScore(tracked, Satisfaction(w.hits), best).(state := Win, progress := FULL_PROGRESS)
    else tracked.(progress := newP)
  }

  /** A spawned request: the launch's position and speed, a 90 x 24 box and the given id. */
  function SpawnedRequest(id: int, l: Launch): Request {
    Request(id, l.x, l.y, l.vx, l.vy, l.isGood, REQUEST_WIDTH, REQUEST_HEIGHT)
  }

  /** n requests with consecutive ids from firstId. */
  function Batch(firstId: int, n: nat, launch: nat -> Launch): (b: seq<Request>)
    ensures |b| == n
    ensures forall k :: 0 <= k < n ==> b[k].id == firstId + k
    ensures forall k :: 0 <= k < n ==> b[k] == SpawnedRequest(firstId + k, launch(k))
  {
    var b := seq(n, k requires 0 <= k < n => SpawnedRequest(firstId + k, launch(k)));
    assert forall k :: 0 <= k < n ==> b[k] == SpawnedRequest(firstId + k, launch(k));
    b
  }

  /**
   * Spawn step: the spawn timer accumulates dt; once it exceeds the interval
   * of the phase progress had at the start of the frame, it resets and a
   * batch of that phase's size is appended with fresh ids.
   */
  function SpawnRequests(w: World, dt: real, progressAtStart: real, launch: nat -> Launch): (r: World)
    ensures var phase := GetPhase(progressAtStart);
            if w.spawnTimer + dt > SpawnInterval(phase) then
              && r.spawnTimer == 0.0 && r.nextId == w.nextId + BatchSize(phase)
              && |r.requests| == |w.requests| + BatchSize(phase) && r.requests[..|w.requests|] == w.requests
              && r.requests == w.requests + Batch(w.nextId, BatchSize(phase), launch)
            else r.spawnTimer == w.spawnTimer + dt && r.requests == w.requests && r.nextId == w.nextId
    ensures IdsSound(w) ==> IdsSound(r)
    ensures Sound(w) ==> Sound(r)
    ensures r.(spawnTimer := w.spawnTimer, requests := w.requests, nextId := w.nextId) == w
  {
    var timer := w.spawnTimer + dt;
    var phase := GetPhase(progressAtStart);
    if timer > SpawnInterval(phase) then
      var b := Batch(w.nextId, BatchSize(phase), launch);
      var r := w.(spawnTimer := 0.0, requests := w.requests + b, nextId := w.nextId + BatchSize(phase));
      assert r.requests[..|w.requests|] == w.requests;
      SpawnKeepsIdsSound(w, b, r);
      r
    else w.(spawnTimer := timer)
  }

  lemma SpawnKeepsIdsSound(w: World, b: seq<Request>, r: World)
    requires forall k :: 0 <= k < |b| ==> b[k].id == w.nextId + k
    requires r == w.(spawnTimer := r.spawnTimer, requests := w.requests + b, nextId := w.nextId + |b|)
    ensures IdsSound(w) ==> IdsSound(r)
  {
    if IdsSound(w) {
      assert RequestIdsIncreasing(b);
      forall x, y | x in w.requests && y in b
        ensures x.id < y.id
      {
        var k :| 0 <= k < |b| && b[k] == y;
      }
      AppendRequestsIncreasing(w.requests, b);
      forall x | x in r.requests
        ensures 0 <= x.id < r.nextId
      {
        if x !in w.requests {
          var k :| 0 <= k < |b| && b[k] == x;
        }
      }
      forall x, u | x in r.requests && u in r.powerUps
        ensures x.id != u.id
      {
        if x !in w.requests {
          var k :| 0 <= k < |b| && b[k] == x;
        }
      }
    }
  }

  /**
   * Power-up spawn step: the power-up timer accumulates dt; once it exceeds
   * 60 * (15 + 5 * roll) / 16.67 it resets and a 36 x 36 power-up with a
   * fresh id appears at (50 + 540 * rx, 30 + 220 * ry).
   */
  function SpawnPowerUp(w: World, dt: real, draws: Draws): (r: World)
    ensures if w.powerUpTimer + dt > PowerUpThreshold(draws.powerUpRoll) then
              && r.powerUpTimer == 0.0 && r.nextId == w.nextId + 1
              && r.powerUps == w.powerUps + [PowerUp(w.nextId, 50.0 + draws.powerUpX * (GAME_WIDTH - 100.0),
                                                      30.0 + draws.powerUpY * (GAME_HEIGHT - 80.0),
                                                      POWER_UP_SIZE, POWER_UP_SIZE)]
            else r.powerUpTimer == w.powerUpTimer + dt && r.powerUps == w.powerUps && r.nextId == w.nextId
    ensures IdsSound(w) ==> IdsSound(r)
    ensures Sound(w) ==> Sound(r)
    ensures r.(powerUpTimer := w.powerUpTimer, powerUps := w.powerUps, nextId := w.nextId) == w
  {
    var timer := w.powerUpTimer + dt;
    if timer > PowerUpThreshold(draws.powerUpRoll) then
      var u := PowerUp(w.nextId, 50.0 + draws.powerUpX * (GAME_WIDTH - 100.0),
                       30.0 + draws.powerUpY * (GAME_HEIGHT - 80.0), POWER_UP_SIZE, POWER_UP_SIZE);
      var r := w.(powerUpTimer := 0.0, powerUps := w.powerUps + [u], nextId := w.nextId + 1);
      if IdsSound(w) then
        AppendPowerUpsIncreasing(w.powerUps, [u]);
        r
      else r
    else w.(powerUpTimer := timer)
  }

  /** One hit taken: reaching five hits ends the game and records the satisfaction left. */
  function AddHit(w: World, best: int): (r: World)
    ensures r.hits == w.hits + 1
    ensures r.state == GameOver <==> w.state == GameOver || w.hits + 1 >= MAX_HITS
    ensures r.state != GameOver ==> r.state == w.state
    ensures w.hits + 1 >= MAX_HITS ==> SavedIfBetter(w, r, Satisfaction(w.hits + 1), best)
    ensures w.hits + 1 < MAX_HITS ==> ScoreUntouched(w, r)
    ensures best >= 0 ==> ScoreUntouched(w, r)
    ensures ScoreKeptOrBeaten(w, r, best)
    ensures Sound(w) ==> Sound(r)
    ensures r.(hits := w.hits, state := w.state, highScore := w.highScore, isNewHighScore := w.isNewHighScore,
               storage := w.storage) == w
  {
    var newHits := w.hits + 1;
    if newHits >= MAX_HITS then
      RecordScore(w.(hits := newHits), Satisfaction(newHits), best).(state := GameOver)
    else w.(hits := newHits)
  }

  /**
   * Collision step: requests move, leave or hit; each good one caught adds
   * 6 progress (capped at 100), and any number of bad ones add one hit.
   * Reaching five hits ends the game and records its satisfaction.
   */
  function CollideRequests(w: World, dt: real, p: PlayerBox, best: int): (r: World)
    ensures r.requests == Survivors(w.requests, dt, p)
    ensures r.progress == Bonus(w.progress, CollectedCount(w.requests, dt, p))
    ensures r.hits == (if StruckCount(w.requests, dt, p) > 0 then w.hits + 1 else w.hits)
    ensures r.state == GameOver <==> w.state == GameOver || (StruckCount(w.requests, dt, p) > 0 && w.hits + 1 >= MAX_HITS)
    ensures r.state != GameOver ==> r.state == w.state
    ensures StruckCount(w.requests, dt, p) > 0 && w.hits + 1 >= MAX_HITS ==> SavedIfBetter(w, r, Satisfaction(w.hits + 1), best)
    ensures StruckCount(w.requests, dt, p) == 0 || w.hits + 1 < MAX_HITS ==> ScoreUntouched(w, r)
    ensures best >= 0 ==> ScoreUntouched(w, r)
    ensures ScoreKeptOrBeaten(w, r, best)
    ensures IdsSound(w) ==> IdsSound(r)
    ensures Sound(w) ==> Sound(r)
    ensures r.(requests := w.requests, progress := w.progress, hits := w.hits, state := w.state, highScore := w.highScore,
               isNewHighScore := w.isNewHighScore, storage := w.storage) == w
  {
    var kept := Survivors(w.requests, dt, p);
    var swept := w.(requests := kept, progress := Bonus(w.progress, CollectedCount(w.requests, dt, p)));
    SurvivorIdsComeFromInput(w.requests, dt, p);
    SurvivorsKeepOrder(w.requests, dt, p);
    if StruckCount(w.requests, dt, p) > 0 then AddHit(swept, best) else swept
  }

  /** Pickup step: every power-up touched is removed, and each one clears the field and forgives a hit. */
  function CollectPowerUps(w: World, p: PlayerBox): (r: World)
    ensures r.powerUps == Uncollected(w.powerUps, p)
    ensures PickupCount(w.powerUps, p) > 0 ==> r.requests == []
    ensures PickupCount(w.powerUps, p) == 0 ==> r == w
    ensures r.hits == Relief(w.hits, PickupCount(w.powerUps, p))
    ensures IdsSound(w) ==> IdsSound(r)
    ensures Sound(w) ==> Sound(r)
    ensures r.(powerUps := w.powerUps, requests := w.requests, hits := w.hits) == w
  {
    var n := PickupCount(w.powerUps, p);
    UncollectedKeepsOrder(w.powerUps, p);
    if n > 0 then w.(powerUps := Uncollected(w.powerUps, p), requests := [], hits := Relief(w.hits, n))
    else
      NoPickupKeepsAll(w.powerUps, p);
      w
  }

  /** The player's square for a frame: centred on the player, sized by the hits at the start of the frame. */
  function PlayerBoxOf(w: World): PlayerBox {
    PlayerBox(w.playerX, w.playerY, PlayerSize(w.hits) / 2.0)
  }

  /**
   * One frame of the game loop. Outside play nothing changes. Otherwise the
   * steps run in the order the loop issues them: progress, spawning,
   * power-up spawning, move-cull-collide, power-up pickup. The best score,
   * the player's square and the phase for spawning are those of the start of
   * the frame.
   */
  function TickOutcome(w: World, timestamp: real, draws: Draws): (r: World)
    ensures Sound(w) ==> Sound(r)
    ensures w.state != Playing ==> r == w
    ensures w.state == Playing ==> r.lastTime == timestamp
    ensures r.playerX == w.playerX && r.playerY == w.playerY
  {
    if w.state != Playing then w
    else
      var dt := DeltaTime(w.lastTime, timestamp);
      var p := PlayerBoxOf(w);
      var w0 := w.(lastTime := timestamp);
      assert Sound(w) ==> Sound(w0);
      var w1 := AdvanceProgress(w0, dt, w.highScore);
      var w2 := SpawnRequests(w1, dt, w.progress, draws.launch);
      var w3 := SpawnPowerUp(w2, dt, draws);
      var w4 := CollideRequests(w3, dt, p, w.highScore);
      assert Sound(w) ==> Sound(w4);
      CollectPowerUps(w4, p)
  }

  /**
   * A frame adds at most one hit however many bad requests strike, and the
   * game is lost in a frame only when that one hit brings the count to five.
   */
  lemma TickAddsAtMostOneHit(w: World, timestamp: real, draws: Draws)
    requires Sound(w) && w.state == Playing
    ensures var r := TickOutcome(w, timestamp, draws);
            && r.hits <= w.hits + 1
            && (r.state == GameOver ==> w.hits + 1 >= MAX_HITS)
  {
    var dt := DeltaTime(w.lastTime, timestamp);
    var p := PlayerBoxOf(w);
    var w1 := AdvanceProgress(w.(lastTime := timestamp), dt, w.highScore);
    var w2 := SpawnRequests(w1, dt, w.progress, draws.launch);
    var w3 := SpawnPowerUp(w2, dt, draws);
    var w4 := CollideRequests(w3, dt, p, w.highScore);
    assert w3.hits == w.hits && w3.state != GameOver;
    ReliefIsFlooredDifference(w4.hits, PickupCount(w4.powerUps, p));
  }

  /** The best score only ever rises within a frame, and a rise is flagged as new and stored. */
  lemma TickSavesOnlyImprovements(w: World, timestamp: real, draws: Draws)
    ensures var r := TickOutcome(w, timestamp, draws);
            && r.highScore >= w.highScore
            && (r.highScore != w.highScore ==> r.isNewHighScore && r.storage == Some(r.highScore))
  {
    if w.state == Playing {
      var dt := DeltaTime(w.lastTime, timestamp);
      var p := PlayerBoxOf(w);
      var w0 := w.(lastTime := timestamp);
      var w1 := AdvanceProgress(w0, dt, w.highScore);
      var w2 := SpawnRequests(w1, dt, w.progress, draws.launch);
      var w3 := SpawnPowerUp(w2, dt, draws);
      assert ScoreKeptOrBeaten(w0, w3, w.highScore);
      var w4 := CollideRequests(w3, dt, p, w.highScore);
      assert ScoreKeptOrBeaten(w0, w4, w.highScore);
    }
  }

  /**
   * With a non-negative best score, a frame can only save the best score
   * through a win: the score saved is the satisfaction of the hits the frame
   * began with, it beats the old best, and progress is then full. A game
   * over, at five hits, has satisfaction 0 and never saves.
   */
  lemma TickSavesOnlyOnWin(w: World, timestamp: real, draws: Draws)
    requires w.highScore >= 0
    ensures var r := TickOutcome(w, timestamp, draws);
            r.highScore != w.highScore ==>
              && r.highScore == Satisfaction(w.hits) > w.highScore
              && r.isNewHighScore && r.storage == Some(r.highScore)
              && r.progress == FULL_PROGRESS
  {
    if w.state == Playing {
      var dt := DeltaTime(w.lastTime, timestamp);
      var p := PlayerBoxOf(w);
      var w0 := w.(lastTime := timestamp);
      var w1 := AdvanceProgress(w0, dt, w.highScore);
      var w2 := SpawnRequests(w1, dt, w.progress, draws.launch);
      var w3 := SpawnPowerUp(w2, dt, draws);
      var w4 := CollideRequests(w3, dt, p, w.highScore);
      assert ScoreUntouched(w1, w3) && w3.progress == w1.progress;
      assert ScoreUntouched(w3, w4);
      if w1.state == Win {
        assert w4.progress == FULL_PROGRESS;
      }
    }
  }

  // ---------------------------------------------------------------------------
  // Controls

  /**
   * One step of keyboard movement: 4 units per axis for each direction held
   * (opposite keys cancel), clamped to the field; only while playing and
   * only when the keys held do not cancel out.
   */
  function KeyMove(w: World, left: bool, right: bool, up: bool, down: bool): (r: World)
    ensures Sound(w) ==> Sound(r)
    ensures w.state != Playing || (left == right && up == down) ==> r == w
    ensures r.(playerX := w.playerX, playerY := w.playerY) == w
  {
    if w.state != Playing then w
    else
      var dx := (if left then -KEY_STEP else 0.0) + (if right then KEY_STEP else 0.0);
      var dy := (if up then -KEY_STEP else 0.0) + (if down then KEY_STEP else 0.0);
      if dx != 0.0 || dy != 0.0 then
        w.(playerX := Clamp(w.playerX + dx, GAME_WIDTH), playerY := Clamp(w.playerY + dy, GAME_HEIGHT))
      else w
  }

  /**
   * A key step moves the player by at most 4 units per axis, and any step
   * that moves lands inside the field, wherever the player was.
   */
  lemma KeyMoveStaysInField(w: World, left: bool, right: bool, up: bool, down: bool)
    ensures var r := KeyMove(w, left, right, up, down);
            && (InField(w.playerX, w.playerY) ==>
                  && -KEY_STEP <= r.playerX - w.playerX <= KEY_STEP
                  && -KEY_STEP <= r.playerY - w.playerY <= KEY_STEP)
            && (w.state == Playing && (left != right || up != down) ==> InField(r.playerX, r.playerY))
  {
  }

  /** Pointer or touch movement: while playing, the player jumps to the mapped, clamped position. */
  function PointerMoved(w: World, clientX: real, clientY: real, left: real, top: real, width: real, height: real): (r: World)
    requires width > 0.0 && height > 0.0
    ensures Sound(w) ==> Sound(r)
    ensures w.state != Playing ==> r == w
    ensures w.state == Playing ==> InField(r.playerX, r.playerY)
    ensures r.(playerX := w.playerX, playerY := w.playerY) == w
  {
    if w.state != Playing then w
    else
      var pos := MapToGame(clientX, clientY, left, top, width, height);
      w.(playerX := pos.0, playerY := pos.1)
  }

  // ---------------------------------------------------------------------------
  // The game

  /** The game component: its state and the refs its frame loop keeps. */
  class Game {
    var state: GameState
    var playerX: real
    var playerY: real
    var requests: seq<Request>
    var powerUps: seq<PowerUp>
    var progress: real
    var hits: int
    var highScore: int
    var isNewHighScore: bool
    /** The best score as kept in the browser's storage, if ever saved. */
    var storage: Option<int>
    var lastTime: real
    var spawnTimer: real
    var powerUpTimer: real
    var nextId: int
    var lastPhase: int

    function State(): World
      reads this
    {
      World(state, playerX, playerY, requests, powerUps, progress, hits, highScore, isNewHighScore, storage,
            lastTime, spawnTimer, powerUpTimer, nextId, lastPhase)
    }

    ghost predicate Valid()
      reads this
    {
      Sound(State())
    }

    /** The start screen, with the best score read back from storage when one was saved. */
    constructor (stored: Option<int>)
      ensures Valid()
      ensures State() == InitialWorld(stored)
    {
      state := Start;
      playerX := GAME_WIDTH / 2.0;
      playerY := GAME_HEIGHT / 2.0;
      requests := [];
      powerUps := [];
      progress := 0.0;
      hits := 0;
      highScore := stored.GetOr(0);
      isNewHighScore := false;
      storage := stored;
      lastTime := 0.0;
      spawnTimer := 0.0;
      powerUpTimer := 0.0;
      nextId := 0;
      lastPhase := -1;
    }

    /** A new run: the run's state, the field and the loop's refs are reset in turn. */
    method StartGame()
      modifies this
      ensures State() == Started(old(State()))
    {
      ghost var w := State();
      ResetRun();
      ResetField();
      ResetLoop();
      assert State() == Started(w);
    }

    /** The run's state for a new run: playing, no progress, no hits, no new best score yet. */
    method ResetRun()
      modifies this
      ensures State() == old(State()).(state := Playing, progress := 0.0, hits := 0, isNewHighScore := false)
    {
      state := Playing;
      progress := 0.0;
      hits := 0;
      isNewHighScore := false;
    }

    /** The field for a new run: the player centred and no requests or power-ups. */
    method ResetField()
      modifies this
      ensures State() == old(State()).(playerX := GAME_WIDTH / 2.0, playerY := GAME_HEIGHT / 2.0, requests := [], powerUps := [])
    {
      playerX := GAME_WIDTH / 2.0;
      playerY := GAME_HEIGHT / 2.0;
      requests := [];
      powerUps := [];
    }

    /** The frame loop's refs for a new run: timers, phase, last timestamp and id counter. */
    method ResetLoop()
      modifies this
      ensures State() == old(State()).(spawnTimer := 0.0, powerUpTimer := 0.0, lastPhase := -1, lastTime := 0.0, nextId := 0)
    {
      spawnTimer := 0.0;
      powerUpTimer := 0.0;
      lastPhase := -1;
      lastTime := 0.0;
      nextId := 0;
    }

    /** The space bar starts a run from the start screen only. */
    method PressSpace()
      requires Valid()
      modifies this
      ensures Valid()
      ensures old(state) == Start ==> State() == Started(old(State()))
      ensures old(state) != Start ==> State() == old(State())
    {
      if state == Start {
        StartGame();
      }
    }

    /** Saves a satisfaction score as the new best when it beats the best the frame began with. */
    method SaveIfBest(satisfaction: int, best: int)
      modifies this
      ensures State() == RecordScore(old(State()), satisfaction, best)
    {
      if satisfaction > best {
        highScore := satisfaction;
        isNewHighScore := true;
        storage := Some(satisfaction);
      }
    }

    /** The progress update of a frame; best is the best score the frame began with. */
    method AdvanceProgressStep(dt: real, best: int)
      requires state == Playing
      modifies this
      ensures State() == AdvanceProgress(old(State()), dt, best)
    {
      ghost var w := State();
      var newP := Min(progress + MvpSpeed(hits) * dt, FULL_PROGRESS);
      var phase := GetPhase(newP);
      if phase != lastPhase {
        lastPhase := phase;
      }
      if newP >= FULL_PROGRESS {
        var satisfaction := Satisfaction(hits);
        ghost var tracked := State();
        SaveIfBest(satisfaction, best);
        state := Win;
        progress := FULL_PROGRESS;
        assert State() == RecordScore(tracked, satisfaction, best).(state := Win, progress := FULL_PROGRESS);
      } else {
        progress := newP;
        assert State() == w.(lastPhase := phase, progress := newP);
      }
    }

    /** The spawn timer of a frame; the phase is that of the progress the frame began with. */
    method SpawnRequestsStep(dt: real, progressAtStart: real, launch: nat -> Launch)
      modifies this
      ensures State() == SpawnRequests(old(State()), dt, progressAtStart, launch)
    {
      ghost var w := State();
      spawnTimer := spawnTimer + dt;
      var phase := GetPhase(progressAtStart);
      if spawnTimer > SpawnInterval(phase) {
        spawnTimer := 0.0;
        var batchSize := BatchSize(phase);
        var newRequests: seq<Request> := [];
        var id := nextId;
        for i := 0 to batchSize
          invariant newRequests == Batch(w.nextId, i, launch)
          invariant id == w.nextId + i
        {
          newRequests := newRequests + [SpawnedRequest(id, launch(i))];
          id := id + 1;
        }
        nextId := id;
        requests := requests + newRequests;
        assert State() == w.(spawnTimer := 0.0, requests := w.requests + newRequests, nextId := id);
      } else {
        assert State() == w.(spawnTimer := w.spawnTimer + dt);
      }
    }

    /** The power-up timer of a frame, with the roll and the position drawn for it. */
    method SpawnPowerUpStep(dt: real, draws: Draws)
      modifies this
      ensures State() == SpawnPowerUp(old(State()), dt, draws)
    {
      ghost var w := State();
      powerUpTimer := powerUpTimer + dt;
      if powerUpTimer > PowerUpThreshold(draws.powerUpRoll) {
        powerUpTimer := 0.0;
        var u := PowerUp(nextId, 50.0 + draws.powerUpX * (GAME_WIDTH - 100.0),
                         30.0 + draws.powerUpY * (GAME_HEIGHT - 80.0), POWER_UP_SIZE, POWER_UP_SIZE);
        powerUps := powerUps + [u];
        nextId := nextId + 1;
        assert State() == w.(powerUpTimer := 0.0, powerUps := w.powerUps + [u], nextId := w.nextId + 1);
      } else {
        assert State() == w.(powerUpTimer := w.powerUpTimer + dt);
      }
    }

    /**
     * The request pass of a frame: move, cull and collide, then one capped
     * bonus per good ticket caught and at most one hit, which may end the game.
     */
    method CollideStep(dt: real, p: PlayerBox, best: int)
      modifies this
      ensures State() == CollideRequests(old(State()), dt, p, best)
    {
      ghost var w := State();
      var kept, hitOccurred, goodCollected := SweepRequests(requests, dt, p);
      var newProgress := progress;
      var k := 0;
      while k < goodCollected
        invariant 0 <= k <= goodCollected
        invariant newProgress == Bonus(w.progress, k)
      {
        newProgress := Min(newProgress + GOOD_BONUS, FULL_PROGRESS);
        k := k + 1;
      }
      progress := newProgress;
      requests := kept;
      assert State() == w.(requests := kept, progress := newProgress);
      if hitOccurred {
        RegisterHit(best);
      }
    }

    /** The hit counter's update when some bad request struck in this frame. */
    method RegisterHit(best: int)
      modifies this
      ensures State() == AddHit(old(State()), best)
    {
      var newHits := hits + 1;
      if newHits >= MAX_HITS {
        var satisfaction := Satisfaction(newHits);
        hits := newHits;
        ghost var counted := State();
        SaveIfBest(satisfaction, best);
        state := GameOver;
        assert State() == RecordScore(counted, satisfaction, best).(state := GameOver);
      } else {
        hits := newHits;
      }
    }

    /** The power-up pass of a frame: each power-up touched is removed, clears the requests and forgives a hit. */
    method CollectStep(p: PlayerBox)
      modifies this
      ensures State() == CollectPowerUps(old(State()), p)
    {
      ghost var w := State();
      var kept, pickups := SweepPowerUps(powerUps, p);
      var newHits := hits;
      var k := 0;
      while k < pickups
        invariant 0 <= k <= pickups
        invariant newHits == Relief(w.hits, k)
      {
        newHits := if newHits - 1 < 0 then 0 else newHits - 1;
        k := k + 1;
      }
      powerUps := kept;
      if pickups > 0 {
        requests := [];
        hits := newHits;
        assert State() == w.(powerUps := kept, requests := [], hits := newHits);
      } else {
        NoPickupKeepsAll(w.powerUps, p);
        assert State() == w;
      }
    }

    /** One animation frame of the game loop. */
    method Tick(timestamp: real, draws: Draws)
      requires Valid()
      modifies this
      ensures Valid()
      ensures State() == TickOutcome(old(State()), timestamp, draws)
    {
      if state != Playing {
        return;
      }
      ghost var w := State();
      var dt := if lastTime != 0.0 then Min((timestamp - lastTime) / FRAME_MS, MAX_DT) else 1.0;
      assert dt == DeltaTime(w.lastTime, timestamp);
      lastTime := timestamp;
      var best := highScore;
      var progressAtStart := progress;
      var p := PlayerBox(playerX, playerY, PlayerSize(hits) / 2.0);
      assert p == PlayerBoxOf(w) && best == w.highScore && progressAtStart == w.progress;
      ghost var w0 := State();
      assert w0 == w.(lastTime := timestamp);
      AdvanceProgressStep(dt, best);
      ghost var w1 := State();
      SpawnRequestsStep(dt, progressAtStart, draws.launch);
      ghost var w2 := State();
      SpawnPowerUpStep(dt, draws);
      ghost var w3 := State();
      CollideStep(dt, p, best);
      ghost var w4 := State();
      CollectStep(p);
      assert State() == CollectPowerUps(w4, p);
      assert w4 == CollideRequests(w3, dt, p, best);
      assert w3 == SpawnPowerUp(w2, dt, draws);
      assert w2 == SpawnRequests(w1, dt, progressAtStart, draws.launch);
      assert w1 == AdvanceProgress(w0, dt, best);
      ghost var r := TickOutcome(w, timestamp, draws);
      assert State() == r;
      assert Sound(r);
    }

    /** One frame of keyboard movement with the given direction keys held. */
    method MoveByKeys(left: bool, right: bool, up: bool, down: bool)
      requires Valid()
      modifies this`playerX, this`playerY
      ensures Valid()
      ensures State() == KeyMove(old(State()), left, right, up, down)
    {
      if state == Playing {
        var dx := 0.0;
        var dy := 0.0;
        if left { dx := dx - KEY_STEP; }
        if right { dx := dx + KEY_STEP; }
        if up { dy := dy - KEY_STEP; }
        if down { dy := dy + KEY_STEP; }
        if dx != 0.0 || dy != 0.0 {
          playerX := Max(EDGE_MARGIN, Min(GAME_WIDTH - EDGE_MARGIN, playerX + dx));
          playerY := Max(EDGE_MARGIN, Min(GAME_HEIGHT - EDGE_MARGIN, playerY + dy));
        }
      }
    }

    /** A mouse or touch move over the field's element with the given bounding box. */
    method PointerMove(clientX: real, clientY: real, left: real, top: real, width: real, height: real)
      requires Valid()
      requires width > 0.0 && height > 0.0
      modifies this`playerX, this`playerY
      ensures Valid()
      ensures State() == PointerMoved(old(State()), clientX, clientY, left, top, width, height)
    {
      if state != Playing {
        return;
      }
      var pos := MapToGame(clientX, clientY, left, top, width, height);
      playerX := pos.0;
      playerY := pos.1;
    }
  }
}
