/** The endless-runner mini-game: a three-lane track seen in perspective,
    objects that spawn far away and travel toward the player, collisions in a
    fixed depth window, and the score / lives / level counters of a run.

    `World` is the whole simulation record plus the run counters; the pure
    functions below (`Step`, `LaneChange`, `Started`) say what one frame, one
    lane-change event and one restart do to it, and `RunnerGame` is the
    mutable game object whose methods are proved against them. */
module Runner {

  // Track and camera constants.
  const LaneWidth: real := 300.0
  const TotalLanes: int := 3
  const Fov: real := 600.0
  const CameraHeight: real := 200.0

  // Run and difficulty constants.
  const BaseSpeed: real := 40.0
  const SpeedStep: real := 2.0
  const LevelDistance: real := 15000.0
  const MaxLevel: int := 5
  const InitialLives: int := 3
  const GridPeriod: real := 200.0

  // Spawning, collision and removal constants.
  const MinSpawnInterval: real := 400.0
  const SpawnBudget: real := 25000.0
  const SpawnSpacing: real := 300.0
  const SpawnGuardDepth: real := 1200.0
  const ObstacleThreshold: real := 0.35
  const WindowNear: real := 1150.0
  const WindowFar: real := 1250.0
  const HitDistance: real := 100.0
  const RemovalDepth: real := 1800.0
  const HitShake: real := 30.0
  const CoinReward: int := 50
  const CoinSpin: real := 0.05

  // Smoothing factors.
  const PlayerSmoothing: real := 0.15
  const RotationSmoothing: real := 0.05
  const ShakeDecay: real := 0.9
  const BackgroundSpin: real := 0.0005
  const TurnTilt: real := -0.1

  datatype Phase = Start | Playing | GameOver
  datatype Direction = Left | Right
  datatype Kind = Obstacle | Coin

  /** One obstacle or coin on the track; `z` is its depth from the camera. */
  datatype TrackObject = TrackObject(lane: int, z: real, kind: Kind, active: bool, rotation: real)

  /** The simulation record kept in the game's mutable ref. */
  datatype Sim = Sim(
    playerLane: int, playerX: real, playerY: real,
    objects: seq<TrackObject>,
    speed: real, distance: real, lastSpawnTime: real, gridOffset: real,
    cameraShake: real, worldRotation: real, targetWorldRotation: real,
    backgroundRotation: real)

  /** The simulation record together with the run's counters, which are
      component state of their own. */
  datatype World = World(sim: Sim, score: int, lives: int, level: int, speedDisplay: int, phase: Phase)

  datatype Projected = Projected(x: real, y: real, scale: real)

  function Abs(x: real): real { if x < 0.0 then -x else x }

  function Min(a: int, b: int): int { if a < b then a else b }

  function MaxReal(a: real, b: real): real { if a < b then b else a }

  /** JavaScript's `x % GridPeriod` on numbers: the remainder of division
      truncated toward zero, so it takes the sign of the dividend. */
  function GridRem(x: real): (r: real)
    ensures x >= 0.0 ==> 0.0 <= r < GridPeriod
    ensures x < 0.0 ==> -GridPeriod < r <= 0.0
    ensures ((x - r) / GridPeriod).Floor as real == (x - r) / GridPeriod
  {
    var q := if x >= 0.0 then (x / GridPeriod).Floor else -((-x / GridPeriod).Floor);
    x - GridPeriod * q as real
  }

  /** The perspective projection of a world point onto the screen plane. */
  function Project(x: real, y: real, z: real): (p: Projected)
    ensures z < 1.0 ==> p == Projected(0.0, 0.0, 0.0)
    ensures z >= 1.0 ==> 0.0 < p.scale < 1.0 && p.scale * (Fov + z) == Fov
    ensures z >= 1.0 ==> p.x == x * p.scale && p.y == (y - CameraHeight) * p.scale
  {
    if z < 1.0 then Projected(0.0, 0.0, 0.0)
    else
      var scale := Fov / (Fov + z);
      Projected(x * scale, (y - CameraHeight) * scale, scale)
  }

  /** Farther points are drawn smaller. */
  lemma ProjectScaleDecreases(x: real, y: real, z1: real, z2: real)
    requires 1.0 <= z1 < z2
    ensures Project(x, y, z2).scale < Project(x, y, z1).scale
  {
    var s1, s2 := Project(x, y, z1).scale, Project(x, y, z2).scale;
    assert s1 * (Fov + z1) == s2 * (Fov + z2);
    assert s2 * (Fov + z1) < s2 * (Fov + z2);
  }

  /** Lateral position of the centre of a lane. */
  function LaneX(lane: int): real { (lane - 1) as real * LaneWidth }

  // ---------------------------------------------------------------------
  // One object's per-frame update, and the whole list's.

  /** The object after moving `speed` toward the camera; coins also spin. */
  function Advanced(o: TrackObject, speed: real): TrackObject
  {
    var moved := o.(z := o.z + speed);
    if o.kind == Coin then moved.(rotation := moved.rotation + CoinSpin) else moved
  }

  predicate InWindow(z: real) { WindowNear < z < WindowFar }

  /** An active object inside the depth window, close enough sideways to the
      player, is hit. */
  predicate IsHit(o: TrackObject, playerX: real)
  {
    o.active && InWindow(o.z) && Abs(playerX - LaneX(o.lane)) < HitDistance
  }

  /** The advanced object, consumed if it was hit. */
  function Resolved(o: TrackObject, speed: real, playerX: real): TrackObject
  {
    var a := Advanced(o, speed);
    if IsHit(a, playerX) then a.(active := false) else a
  }

  /** Every object advanced and resolved, with those beyond the removal depth
      dropped and the rest kept in their order. */
  function AdvanceAll(s: seq<TrackObject>, speed: real, playerX: real): seq<TrackObject>
  {
    if s == [] then []
    else
      var r := Resolved(s[0], speed, playerX);
      (if r.z > RemovalDepth then [] else [r]) + AdvanceAll(s[1..], speed, playerX)
  }

  /** How many objects of kind `k` are hit this frame. */
  function Hits(s: seq<TrackObject>, speed: real, playerX: real, k: Kind): nat
  {
    if s == [] then 0
    else
      (if s[0].kind == k && IsHit(Advanced(s[0], speed), playerX) then 1 else 0)
      + Hits(s[1..], speed, playerX, k)
  }

  // ---------------------------------------------------------------------
  // Spawning.

  /** Time that must pass between spawns; shorter when the run is faster. */
  function SpawnInterval(speed: real): (t: real)
    requires speed > 0.0
    ensures t >= MinSpawnInterval
  {
    MaxReal(MinSpawnInterval, SpawnBudget / speed)
  }

  /** Some object is still too near the spawn point, whatever its lane. */
  predicate TooClose(s: seq<TrackObject>)
  {
    exists i :: 0 <= i < |s| && s[i].z < SpawnGuardDepth && Abs(s[i].z) < SpawnSpacing
  }

  /** `Math.floor(Math.random() * TOTAL_LANES)` for a draw in [0, 1). */
  function SpawnLane(laneRoll: real): (lane: int)
    requires 0.0 <= laneRoll < 1.0
    ensures 0 <= lane < TotalLanes
  {
    (laneRoll * TotalLanes as real).Floor
  }

  function SpawnKind(kindRoll: real): Kind
  {
    if kindRoll > ObstacleThreshold then Obstacle else Coin
  }

  function SpeedDisplay(speed: real): int { (speed / BaseSpeed * 100.0).Floor }

  // ---------------------------------------------------------------------
  // Invariants of a run.

  /** Objects are in strictly decreasing depth, consecutive ones at least
      `SpawnSpacing` apart (stated for every pair). */
  predicate Spaced(s: seq<TrackObject>)
  {
    forall i, j :: 0 <= i < j < |s| ==> s[j].z + SpawnSpacing <= s[i].z
  }

  predicate ObjectsWellFormed(s: seq<TrackObject>)
  {
    && Spaced(s)
    && forall i :: 0 <= i < |s| ==> 0.0 <= s[i].z && 0 <= s[i].lane < TotalLanes
  }

  predicate WellFormed(w: World)
  {
    && 0 <= w.sim.playerLane < TotalLanes
    && -LaneWidth <= w.sim.playerX <= LaneWidth
    && w.sim.speed >= BaseSpeed
    && w.sim.distance >= 0.0
    && 0.0 <= w.sim.gridOffset < GridPeriod
    && w.sim.cameraShake >= 0.0
    && 1 <= w.level <= MaxLevel
    && w.speedDisplay == SpeedDisplay(w.sim.speed)
    && 0 <= w.lives <= InitialLives
    && w.score >= 0 && w.score % CoinReward == 0
    && (w.phase == Playing ==> w.lives >= 1)
    && (w.phase == GameOver ==> w.lives == 0)
    && ObjectsWellFormed(w.sim.objects)
  }

  // ---------------------------------------------------------------------
  // What the events do to the world.

  /** The record before the first run. */
  const FreshSim: Sim := Sim(1, 0.0, 0.0, [], BaseSpeed, 0.0, 0.0, 0.0, 0.0, 0.0, 0.0, 0.0)

  const Initial: World := World(FreshSim, 0, InitialLives, 1, 100, Start)

  /** A fresh run: a new record and reset counters, now playing. */
  function Started(): (w: World)
    ensures WellFormed(w) && w.phase == Playing
    ensures w.sim.playerLane == 1 && w.sim.speed == BaseSpeed && w.sim.distance == 0.0
    ensures w.sim.objects == [] && w.sim.cameraShake == 0.0
    ensures w.score == 0 && w.lives == InitialLives && w.level == 1 && w.speedDisplay == 100
  {
    Initial.(phase := Playing)
  }

  /** A left or right input: the new lane, and whether the click sounds. */
  function LaneChange(w: World, dir: Direction): (World, bool)
  {
    if w.phase != Playing then (w, false)
    else
      var target := if dir == Left then (if w.sim.playerLane - 1 < 0 then 0 else w.sim.playerLane - 1)
                    else Min(TotalLanes - 1, w.sim.playerLane + 1);
      if target != w.sim.playerLane then
        (w.(sim := w.sim.(playerLane := target, targetWorldRotation := (target - 1) as real * TurnTilt)), true)
      else (w, false)
  }

  /** Travel, floor scroll, background spin and the world tilt easing toward
      its target plus the idle sway term `sway`. */
  function Scrolled(w: World, sway: real): World
  {
    var s := w.sim;
    w.(sim := s.(distance := s.distance + s.speed,
                 gridOffset := GridRem(s.gridOffset + s.speed),
                 backgroundRotation := s.backgroundRotation + BackgroundSpin,
                 worldRotation := s.worldRotation + (s.targetWorldRotation + sway - s.worldRotation) * RotationSmoothing))
  }

  /** The difficulty ramp: past `level * LevelDistance` the level goes up
      (capped) and the speed grows by one step. */
  function Ramped(w: World): World
  {
    var speed := if w.sim.distance > w.level as real * LevelDistance then w.sim.speed + SpeedStep else w.sim.speed;
    w.(sim := w.sim.(speed := speed),
       level := if w.sim.distance > w.level as real * LevelDistance then Min(w.level + 1, MaxLevel) else w.level,
       speedDisplay := SpeedDisplay(speed))
  }

  /** The player's drift toward its lane and the decay of the camera shake. */
  function Drifted(w: World): World
  {
    var s := w.sim;
    w.(sim := s.(playerX := s.playerX + (LaneX(s.playerLane) - s.playerX) * PlayerSmoothing,
                 cameraShake := s.cameraShake * ShakeDecay))
  }

  /** The first part of a frame, before spawning and collisions. */
  function Kinematics(w: World, sway: real): World
  {
    Drifted(Ramped(Scrolled(w, sway)))
  }

  /** The object a spawn creates from the three random draws. */
  function NewObject(laneRoll: real, kindRoll: real, spawnRotation: real): TrackObject
    requires 0.0 <= laneRoll < 1.0
  {
    TrackObject(SpawnLane(laneRoll), 0.0, SpawnKind(kindRoll), true, spawnRotation)
  }

  /** The second part: the spawn decision at time `timestamp`. */
  function Spawning(w: World, timestamp: real, laneRoll: real, kindRoll: real, spawnRotation: real): World
    requires 0.0 <= laneRoll < 1.0 && w.sim.speed > 0.0
  {
    if timestamp - w.sim.lastSpawnTime > SpawnInterval(w.sim.speed) && !TooClose(w.sim.objects)
    then w.(sim := w.sim.(objects := w.sim.objects + [NewObject(laneRoll, kindRoll, spawnRotation)],
                          lastSpawnTime := timestamp))
    else w
  }

  /** The last part: every object moves, hits are resolved, far objects are
      dropped. */
  function Collisions(w: World): World
  {
    var obstacleHits := Hits(w.sim.objects, w.sim.speed, w.sim.playerX, Obstacle);
    var lives := w.lives - obstacleHits;
    w.(sim := w.sim.(objects := AdvanceAll(w.sim.objects, w.sim.speed, w.sim.playerX),
                     cameraShake := if obstacleHits > 0 then HitShake else w.sim.cameraShake),
       score := w.score + CoinReward * Hits(w.sim.objects, w.sim.speed, w.sim.playerX, Coin),
       lives := lives,
       phase := if obstacleHits > 0 && lives <= 0 then GameOver else w.phase)
  }

  /** One frame of simulation at time `timestamp`; the three rolls are the
      random draws for a spawn. */
  function Step(w: World, timestamp: real, sway: real,
                laneRoll: real, kindRoll: real, spawnRotation: real): World
    requires 0.0 <= laneRoll < 1.0
    requires w.sim.speed > 0.0
  {
    Collisions(Spawning(Kinematics(w, sway), timestamp, laneRoll, kindRoll, spawnRotation))
  }

  /** An animation frame: the simulation advances only while playing. */
  function Frame(w: World, timestamp: real, sway: real,
                 laneRoll: real, kindRoll: real, spawnRotation: real): World
    requires 0.0 <= laneRoll < 1.0
    requires w.sim.speed > 0.0
  {
    if w.phase == Playing then Step(w, timestamp, sway, laneRoll, kindRoll, spawnRotation) else w
  }

  // ---------------------------------------------------------------------
  // Lemmas about spacing and collisions.

  /** At most one object can be inside the collision window. */
  lemma WindowHoldsAtMostOne(s: seq<TrackObject>, i: int, j: int)
    requires Spaced(s)
    requires 0 <= i < |s| && 0 <= j < |s|
    requires InWindow(s[i].z) && InWindow(s[j].z)
    ensures i == j
  {
  }

  /** With no object allowed near depth 0, a newcomer at depth 0 may be
      appended to a well-formed list. */
  lemma {:induction false} SpawnKeepsSpacing(s: seq<TrackObject>, o: TrackObject)
    requires ObjectsWellFormed(s) && !TooClose(s)
    requires o.z == 0.0 && 0 <= o.lane < TotalLanes
    ensures ObjectsWellFormed(s + [o])
  {
    var t := s + [o];
    forall i | 0 <= i < |s| ensures s[i].z >= SpawnSpacing {
    }
    forall i, j | 0 <= i < j < |t| ensures t[j].z + SpawnSpacing <= t[i].z {
      if j == |s| {
        assert t[i] == s[i];
      } else {
        assert t[i] == s[i] && t[j] == s[j];
      }
    }
  }

  /** No object that stays at or before the near edge of the window after this
      frame's move can be hit. */
  lemma {:induction false} NoHitsShallow(s: seq<TrackObject>, speed: real, playerX: real, k: Kind, bound: real)
    requires forall i :: 0 <= i < |s| ==> s[i].z <= bound
    requires bound + speed <= WindowNear
    ensures Hits(s, speed, playerX, k) == 0
    decreases |s|
  {
    if s != [] {
      assert s[0].z <= bound;
      NoHitsShallow(s[1..], speed, playerX, k, bound);
    }
  }

  /** In a spaced list at most one object is hit per frame, of either kind;
      hence no frame can cost more than one life. */
  lemma {:induction false} AtMostOneHit(s: seq<TrackObject>, speed: real, playerX: real)
    requires Spaced(s)
    ensures Hits(s, speed, playerX, Obstacle) + Hits(s, speed, playerX, Coin) <= 1
    decreases |s|
  {
    if s != [] {
      var tail := s[1..];
      assert Spaced(tail) by {
        forall i, j | 0 <= i < j < |tail| ensures tail[j].z + SpawnSpacing <= tail[i].z {
          assert tail[i] == s[i + 1] && tail[j] == s[j + 1];
        }
      }
      var a := Advanced(s[0], speed);
      if IsHit(a, playerX) {
        forall i | 0 <= i < |tail| ensures tail[i].z <= s[0].z - SpawnSpacing {
          assert tail[i] == s[i + 1];
        }
        NoHitsShallow(tail, speed, playerX, Obstacle, s[0].z - SpawnSpacing);
        NoHitsShallow(tail, speed, playerX, Coin, s[0].z - SpawnSpacing);
      } else {
        AtMostOneHit(tail, speed, playerX);
      }
    }
  }

  /** Advancing and pruning keeps the list well formed, and moves everything
      exactly `speed` deeper. */
  lemma {:induction false} AdvanceAllWellFormed(s: seq<TrackObject>, speed: real, playerX: real, bound: real)
    requires ObjectsWellFormed(s) && speed > 0.0
    requires forall i :: 0 <= i < |s| ==> s[i].z <= bound
    ensures ObjectsWellFormed(AdvanceAll(s, speed, playerX))
    ensures forall i :: 0 <= i < |AdvanceAll(s, speed, playerX)| ==>
      AdvanceAll(s, speed, playerX)[i].z <= bound + speed
    decreases |s|
  {
    if s != [] {
      var tail := s[1..];
      assert ObjectsWellFormed(tail) by {
        forall i, j | 0 <= i < j < |tail| ensures tail[j].z + SpawnSpacing <= tail[i].z {
          assert tail[i] == s[i + 1] && tail[j] == s[j + 1];
        }
        forall i | 0 <= i < |tail| ensures 0.0 <= tail[i].z && 0 <= tail[i].lane < TotalLanes {
          assert tail[i] == s[i + 1];
        }
      }
      forall i | 0 <= i < |tail| ensures tail[i].z <= s[0].z - SpawnSpacing {
        assert tail[i] == s[i + 1];
      }
      AdvanceAllWellFormed(tail, speed, playerX, s[0].z - SpawnSpacing);
      var rest := AdvanceAll(tail, speed, playerX);
      var r := Resolved(s[0], speed, playerX);
      assert r.z == s[0].z + speed && r.lane == s[0].lane;
      var head := if r.z > RemovalDepth then [] else [r];
      var out := head + rest;
      assert out == AdvanceAll(s, speed, playerX);
      forall i, j | 0 <= i < j < |out| ensures out[j].z + SpawnSpacing <= out[i].z {
        if |head| == 1 {
          if i == 0 {
            assert out[j] == rest[j - 1];
          } else {
            assert out[i] == rest[i - 1] && out[j] == rest[j - 1];
          }
        } else {
          assert out[i] == rest[i] && out[j] == rest[j];
        }
      }
      forall i | 0 <= i < |out| ensures 0.0 <= out[i].z <= bound + speed && 0 <= out[i].lane < TotalLanes {
        if |head| == 1 && i == 0 {
        } else {
          assert out[i] == rest[i - |head|];
        }
      }
    }
  }

  /** A hit consumes its object, and a consumed object is never hit again:
      each object scores or costs a life at most once. */
  lemma ConsumedNeverHit(o: TrackObject, speed: real, playerX: real)
    ensures IsHit(Advanced(o, speed), playerX) ==> !Resolved(o, speed, playerX).active
    ensures !o.active ==> !IsHit(Advanced(o, speed), playerX) && !Resolved(o, speed, playerX).active
  {
  }

  /** No object kept by a frame lies beyond the removal depth. */
  lemma {:induction false} AdvanceAllPrunes(s: seq<TrackObject>, speed: real, playerX: real)
    ensures forall i :: 0 <= i < |AdvanceAll(s, speed, playerX)| ==>
      AdvanceAll(s, speed, playerX)[i].z <= RemovalDepth
    decreases |s|
  {
    if s != [] {
      AdvanceAllPrunes(s[1..], speed, playerX);
      var r := Resolved(s[0], speed, playerX);
      var head: seq<TrackObject> := if r.z > RemovalDepth then [] else [r];
      var rest := AdvanceAll(s[1..], speed, playerX);
      forall i | 0 <= i < |head + rest| ensures (head + rest)[i].z <= RemovalDepth {
        if i >= |head| { assert (head + rest)[i] == rest[i - |head|]; }
      }
    }
  }

  /** Every object of a well-formed list lies within some depth bound. */
  lemma DepthBound(s: seq<TrackObject>) returns (bound: real)
    requires ObjectsWellFormed(s)
    ensures forall i :: 0 <= i < |s| ==> s[i].z <= bound
  {
    bound := if s == [] then 0.0 else s[0].z;
    forall i | 0 <= i < |s| ensures s[i].z <= bound {
      if i > 0 { assert s[i].z + SpawnSpacing <= s[0].z; }
    }
  }

  /** The movement part of a frame keeps every bound: the player stays
      between lanes 0 and 2, and speed, level and shake stay in range. */
  lemma KinematicsWellFormed(w: World, sway: real)
    requires WellFormed(w)
    ensures WellFormed(Kinematics(w, sway))
  {
  }

  /** The spawn decision keeps the world well formed. */
  lemma SpawningWellFormed(w: World, timestamp: real, laneRoll: real, kindRoll: real, spawnRotation: real)
    requires WellFormed(w) && 0.0 <= laneRoll < 1.0
    ensures WellFormed(Spawning(w, timestamp, laneRoll, kindRoll, spawnRotation))
  {
    if !TooClose(w.sim.objects) {
      SpawnKeepsSpacing(w.sim.objects, NewObject(laneRoll, kindRoll, spawnRotation));
    }
  }

  /** Collisions keep a running game well formed: at most one life goes, and
      the run ends exactly when none is left. */
  lemma CollisionsWellFormed(w: World)
    requires WellFormed(w) && w.phase == Playing
    ensures WellFormed(Collisions(w))
  {
    var s := w.sim;
    var bound := DepthBound(s.objects);
    AdvanceAllWellFormed(s.objects, s.speed, s.playerX, bound);
    AtMostOneHit(s.objects, s.speed, s.playerX);
    var coins := Hits(s.objects, s.speed, s.playerX, Coin);
    assert (w.score + CoinReward * coins) % CoinReward == 0;
  }

  // ---------------------------------------------------------------------
  // Lemmas about the events.

  /** A frame keeps a running game well formed: lanes, bounds, spacing, and
      lives that never go below zero. */
  lemma StepKeepsWellFormed(w: World, timestamp: real, sway: real,
                            laneRoll: real, kindRoll: real, spawnRotation: real)
    requires WellFormed(w) && w.phase == Playing
    requires 0.0 <= laneRoll < 1.0
    ensures WellFormed(Step(w, timestamp, sway, laneRoll, kindRoll, spawnRotation))
  {
    var k := Kinematics(w, sway);
    KinematicsWellFormed(w, sway);
    SpawningWellFormed(k, timestamp, laneRoll, kindRoll, spawnRotation);
    CollisionsWellFormed(Spawning(k, timestamp, laneRoll, kindRoll, spawnRotation));
  }

  /** Each frame travels exactly the current speed, and the floor's scroll
      offset stays within one grid period. */
  lemma StepDistanceAndGrid(w: World, timestamp: real, sway: real,
                            laneRoll: real, kindRoll: real, spawnRotation: real)
    requires WellFormed(w) && 0.0 <= laneRoll < 1.0
    ensures var w' := Step(w, timestamp, sway, laneRoll, kindRoll, spawnRotation);
      w'.sim.distance == w.sim.distance + w.sim.speed && 0.0 <= w'.sim.gridOffset < GridPeriod
  {
  }

  /** The difficulty ramp: the speed never drops, it grows by exactly
      `SpeedStep` when the distance passes the current level's threshold, and
      then the level goes up by one, capped at `MaxLevel`; otherwise the level
      stays; the speed display follows the speed. */
  lemma StepDifficultyRamp(w: World, timestamp: real, sway: real,
                           laneRoll: real, kindRoll: real, spawnRotation: real)
    requires WellFormed(w) && 0.0 <= laneRoll < 1.0
    ensures var w' := Step(w, timestamp, sway, laneRoll, kindRoll, spawnRotation);
      && w'.sim.speed >= w.sim.speed
      && (w'.sim.speed == w.sim.speed + SpeedStep <==> w.sim.distance + w.sim.speed > w.level as real * LevelDistance)
      && (w'.sim.speed == w.sim.speed <==> w.sim.distance + w.sim.speed <= w.level as real * LevelDistance)
      && w'.level == (if w.sim.distance + w.sim.speed > w.level as real * LevelDistance
                      then Min(w.level + 1, MaxLevel) else w.level)
      && w.level <= w'.level <= MaxLevel
      && w'.speedDisplay == (w'.sim.speed * 100.0 / BaseSpeed).Floor
  {
  }

  /** Once at the top level and past its threshold, every further frame
      speeds the run up again: the level cap does not cap the speed. */
  lemma StepSpeedKeepsGrowingAtMaxLevel(w: World, timestamp: real, sway: real,
                                        laneRoll: real, kindRoll: real, spawnRotation: real)
    requires WellFormed(w) && 0.0 <= laneRoll < 1.0
    requires w.level == MaxLevel && w.sim.distance > MaxLevel as real * LevelDistance
    ensures var w' := Step(w, timestamp, sway, laneRoll, kindRoll, spawnRotation);
      w'.level == MaxLevel && w'.sim.speed == w.sim.speed + SpeedStep && w'.sim.distance > w.sim.distance
  {
  }

  /** The player drifts 15% of the way toward its lane's centre, so it stays
      between where it was and where it is heading; the shake jumps to its
      hit value exactly in a frame that costs a life, otherwise it decays,
      and it never turns negative. */
  lemma StepSmoothing(w: World, timestamp: real, sway: real,
                      laneRoll: real, kindRoll: real, spawnRotation: real)
    requires WellFormed(w) && 0.0 <= laneRoll < 1.0
    ensures var w' := Step(w, timestamp, sway, laneRoll, kindRoll, spawnRotation);
      var target := LaneX(w.sim.playerLane);
      && (w.sim.playerX <= target ==> w.sim.playerX <= w'.sim.playerX <= target)
      && (target <= w.sim.playerX ==> target <= w'.sim.playerX <= w.sim.playerX)
      && w'.sim.playerX - target == (w.sim.playerX - target) * (1.0 - PlayerSmoothing)
      && -LaneWidth <= w'.sim.playerX <= LaneWidth
      && w'.sim.cameraShake >= 0.0
      && w'.sim.cameraShake == (if w'.lives < w.lives then HitShake else w.sim.cameraShake * ShakeDecay)
  {
  }

  /** The spawn rule: a new active object at depth 0 is appended exactly when
      the spawn interval has passed and no object is nearer than the spacing;
      otherwise the list is only advanced, and the spawn clock only moves when
      something spawns. */
  lemma StepSpawnRule(w: World, timestamp: real, sway: real,
                      laneRoll: real, kindRoll: real, spawnRotation: real)
    requires WellFormed(w) && 0.0 <= laneRoll < 1.0
    ensures var w' := Step(w, timestamp, sway, laneRoll, kindRoll, spawnRotation);
      var speed := w'.sim.speed;
      var spawn := timestamp - w.sim.lastSpawnTime > SpawnInterval(speed)
                   && forall i :: 0 <= i < |w.sim.objects| ==> w.sim.objects[i].z >= SpawnSpacing;
      var o := NewObject(laneRoll, kindRoll, spawnRotation);
      && (spawn ==> w'.sim.objects == AdvanceAll(w.sim.objects + [o], speed, w'.sim.playerX) && w'.sim.lastSpawnTime == timestamp)
      && (!spawn ==> w'.sim.objects == AdvanceAll(w.sim.objects, speed, w'.sim.playerX) && w'.sim.lastSpawnTime == w.sim.lastSpawnTime)
  {
    if TooClose(w.sim.objects) {
      var i :| 0 <= i < |w.sim.objects| && w.sim.objects[i].z < SpawnGuardDepth && Abs(w.sim.objects[i].z) < SpawnSpacing;
      assert w.sim.objects[i].z < SpawnSpacing;
    }
  }

  /** Collisions: a running game loses at most one life per frame, an obstacle
      hit sets the shake and ends the run when the last life goes, and the
      score only moves by the coin reward. */
  lemma StepCollisions(w: World, timestamp: real, sway: real,
                       laneRoll: real, kindRoll: real, spawnRotation: real)
    requires WellFormed(w) && w.phase == Playing && 0.0 <= laneRoll < 1.0
    ensures var w' := Step(w, timestamp, sway, laneRoll, kindRoll, spawnRotation);
      && (w'.lives == w.lives || w'.lives == w.lives - 1)
      && (w'.score == w.score || w'.score == w.score + CoinReward)
      && !(w'.lives < w.lives && w'.score > w.score)
      && (w'.lives < w.lives ==> w'.sim.cameraShake == HitShake)
      && (w'.phase == GameOver <==> w'.lives == 0)
      && (w'.phase != GameOver ==> w'.phase == Playing)
  {
    StepKeepsWellFormed(w, timestamp, sway, laneRoll, kindRoll, spawnRotation);
    var sp := Spawning(Kinematics(w, sway), timestamp, laneRoll, kindRoll, spawnRotation);
    AtMostOneHit(sp.sim.objects, sp.sim.speed, sp.sim.playerX);
  }

  /** Outside a run, frames change nothing: no counter moves after game over. */
  lemma FrameIdleOutsideRun(w: World, timestamp: real, sway: real,
                            laneRoll: real, kindRoll: real, spawnRotation: real)
    requires w.phase != Playing && 0.0 <= laneRoll < 1.0 && w.sim.speed > 0.0
    ensures Frame(w, timestamp, sway, laneRoll, kindRoll, spawnRotation) == w
  {
  }

  /** Lane changes: nothing happens unless playing; the lane stays in 0..2;
      moving left from lane 0 or right from lane 2 changes nothing and is
      silent; any actual change sounds the click and tilts the world. */
  lemma LaneChangeRules(w: World, dir: Direction)
    requires WellFormed(w)
    ensures var (w', clicked) := LaneChange(w, dir);
      && WellFormed(w')
      && (w.phase != Playing ==> w' == w && !clicked)
      && ((dir == Left && w.sim.playerLane == 0) || (dir == Right && w.sim.playerLane == TotalLanes - 1) ==> w' == w && !clicked)
      && (clicked <==> w'.sim.playerLane != w.sim.playerLane)
      && (clicked ==> w'.sim.targetWorldRotation == (w'.sim.playerLane - 1) as real * TurnTilt
                      && w' == w.(sim := w.sim.(playerLane := w'.sim.playerLane, targetWorldRotation := w'.sim.targetWorldRotation)))
      && (clicked ==> w'.sim.playerLane == w.sim.playerLane + (if dir == Left then -1 else 1))
  {
  }

  /** Pressing right three times from the left lane ends in lane 2, not 3. */
  lemma ThreeRightsFromLeftLane(w: World)
    requires WellFormed(w) && w.phase == Playing && w.sim.playerLane == 0
    ensures LaneChange(LaneChange(LaneChange(w, Right).0, Right).0, Right).0.sim.playerLane == 2
  {
  }

  /** What processing index `i` adds to the processed suffix of a list. */
  lemma UnfoldAt(s: seq<TrackObject>, i: int, speed: real, playerX: real)
    requires 0 <= i < |s|
    ensures var r := Resolved(s[i], speed, playerX);
      && r == (var a := Advanced(s[i], speed); if IsHit(a, playerX) then a.(active := false) else a)
      && AdvanceAll(s[i..], speed, playerX)
         == (if r.z > RemovalDepth then [] else [r]) + AdvanceAll(s[i + 1..], speed, playerX)
      && Hits(s[i..], speed, playerX, Obstacle)
         == (if s[i].kind == Obstacle && IsHit(Advanced(s[i], speed), playerX) then 1 else 0)
            + Hits(s[i + 1..], speed, playerX, Obstacle)
      && Hits(s[i..], speed, playerX, Coin)
         == (if s[i].kind == Coin && IsHit(Advanced(s[i], speed), playerX) then 1 else 0)
            + Hits(s[i + 1..], speed, playerX, Coin)
  {
    assert s[i..][0] == s[i] && s[i..][1..] == s[i + 1..];
  }

  /** The world after the object loop's body has run for index `i`. */
  function ProcessedAt(w: World, i: int): World
    requires 0 <= i < |w.sim.objects|
  {
    var a := Advanced(w.sim.objects[i], w.sim.speed);
    var hit := IsHit(a, w.sim.playerX);
    var r := if hit then a.(active := false) else a;
    var obstacle := hit && a.kind == Obstacle;
    var lives := w.lives - (if obstacle then 1 else 0);
    w.(sim := w.sim.(objects := w.sim.objects[..i] + (if r.z > RemovalDepth then [] else [r]) + w.sim.objects[i + 1..],
                     cameraShake := if obstacle then HitShake else w.sim.cameraShake),
       score := w.score + (if hit && a.kind == Coin then CoinReward else 0),
       lives := lives,
       phase := if obstacle && lives <= 0 then GameOver else w.phase)
  }

  /** The world once the object loop has processed the indices above `i`
      of `w0`'s objects, from the last down. */
  function Partial(w0: World, i: int): World
    requires -1 <= i < |w0.sim.objects|
  {
    var s0, speed, playerX := w0.sim.objects, w0.sim.speed, w0.sim.playerX;
    var obstacleHits := Hits(s0[i + 1..], speed, playerX, Obstacle);
    var lives := w0.lives - obstacleHits;
    w0.(sim := w0.sim.(objects := s0[..i + 1] + AdvanceAll(s0[i + 1..], speed, playerX),
                       cameraShake := if obstacleHits > 0 then HitShake else w0.sim.cameraShake),
        score := w0.score + CoinReward * Hits(s0[i + 1..], speed, playerX, Coin),
        lives := lives,
        phase := if obstacleHits > 0 && lives <= 0 then GameOver else w0.phase)
  }

  /** Before the loop nothing is processed; after it, the whole collision
      pass is. */
  lemma PartialEnds(w0: World)
    ensures Partial(w0, |w0.sim.objects| - 1) == w0
    ensures Partial(w0, -1) == Collisions(w0)
  {
    var s0 := w0.sim.objects;
    assert s0[..|s0|] == s0;
    assert s0[0..] == s0;
  }

  /** One turn of the loop on the list alone: the object at `i` is the
      next one of the processed suffix. */
  lemma SpliceStep(s0: seq<TrackObject>, i: int, speed: real, playerX: real)
    requires 0 <= i < |s0|
    ensures var s := s0[..i + 1] + AdvanceAll(s0[i + 1..], speed, playerX);
      var r := Resolved(s0[i], speed, playerX);
      && s[i] == s0[i]
      && s[..i] + (if r.z > RemovalDepth then [] else [r]) + s[i + 1..]
         == s0[..i] + AdvanceAll(s0[i..], speed, playerX)
  {
    var s := s0[..i + 1] + AdvanceAll(s0[i + 1..], speed, playerX);
    var r := Resolved(s0[i], speed, playerX);
    var piece := if r.z > RemovalDepth then [] else [r];
    UnfoldAt(s0, i, speed, playerX);
    assert s[..i] == s0[..i];
    assert s[i + 1..] == AdvanceAll(s0[i + 1..], speed, playerX);
    assert s0[..i] + piece + AdvanceAll(s0[i + 1..], speed, playerX)
        == s0[..i] + (piece + AdvanceAll(s0[i + 1..], speed, playerX));
  }

  /** One turn of the loop, from the last processed index down to `i`. */
  lemma PartialStep(w0: World, i: int)
    requires 0 <= i < |w0.sim.objects|
    ensures ProcessedAt(Partial(w0, i), i) == Partial(w0, i - 1)
  {
    var s0, speed, playerX := w0.sim.objects, w0.sim.speed, w0.sim.playerX;
    SpliceStep(s0, i, speed, playerX);
    UnfoldAt(s0, i, speed, playerX);
    assert s0[..i] == s0[..i - 1 + 1];
  }

  // ---------------------------------------------------------------------
  // The game object.

  class RunnerGame {
    /** The simulation record, replaced on every start and updated in place
        by every frame. */
    var sim: Sim
    // The run counters.
    var score: int
    var lives: int
    var level: int
    var speedDisplay: int
    var phase: Phase

    function Snapshot(): World
      reads this
    {
      World(sim, score, lives, level, speedDisplay, phase)
    }

    ghost predicate Valid()
      reads this
    {
      WellFormed(Snapshot())
    }

    /** The game as first shown, before any run. */
    constructor ()
      ensures Snapshot() == Initial && Valid()
    {
      sim := FreshSim;
      score, lives, level, speedDisplay, phase := 0, InitialLives, 1, 100, Start;
    }

    /** A new simulation record and reset counters, then the run begins. */
    method StartGame()
      modifies this
      ensures Snapshot() == Started() && Valid()
    {
      sim := Sim(1, 0.0, 0.0, [], BaseSpeed, 0.0, 0.0, 0.0, 0.0, 0.0, 0.0, 0.0);
      score := 0;
      lives := InitialLives;
      level := 1;
      speedDisplay := 100;
      phase := Playing;
    }

    /** A left/right input; `clicked` tells whether the click sound plays. */
    method HandleLaneChange(dir: Direction) returns (clicked: bool)
      requires Valid()
      modifies this`sim
      ensures (Snapshot(), clicked) == LaneChange(old(Snapshot()), dir) && Valid()
    {
      LaneChangeRules(Snapshot(), dir);
      clicked := false;
      if phase != Playing {
        return;
      }
      var targetLane := if dir == Left then (if sim.playerLane - 1 < 0 then 0 else sim.playerLane - 1)
                        else Min(TotalLanes - 1, sim.playerLane + 1);
      if targetLane != sim.playerLane {
        sim := sim.(playerLane := targetLane);
        sim := sim.(targetWorldRotation := (targetLane - 1) as real * TurnTilt);
        clicked := true;
      }
    }

    /** Append a new object when the spawn interval has passed and nothing is
        near the spawn point. */
    method TrySpawn(timestamp: real, laneRoll: real, kindRoll: real, spawnRotation: real)
      requires 0.0 <= laneRoll < 1.0 && sim.speed > 0.0
      modifies this`sim
      ensures Snapshot() == Spawning(old(Snapshot()), timestamp, laneRoll, kindRoll, spawnRotation)
    {
      var spawnRate := MaxReal(MinSpawnInterval, SpawnBudget / sim.speed);
      if timestamp - sim.lastSpawnTime > spawnRate {
        var lane := SpawnLane(laneRoll);
        var tooClose := exists i :: 0 <= i < |sim.objects| && sim.objects[i].z < SpawnGuardDepth
                                    && Abs(sim.objects[i].z) < SpawnSpacing;
        if !tooClose {
          sim := sim.(objects := sim.objects + [TrackObject(lane, 0.0, SpawnKind(kindRoll), true, spawnRotation)]);
          sim := sim.(lastSpawnTime := timestamp);
        }
      }
    }

    /** The collision test for one moved object: a hit consumes it and
        either costs a life (ending the run on the last one) or scores a coin. */
    method ResolveHit(obj: TrackObject) returns (r: TrackObject)
      modifies this`sim, this`score, this`lives, this`phase
      ensures var hit := IsHit(obj, sim.playerX);
        && r == (if hit then obj.(active := false) else obj)
        && sim == old(sim).(cameraShake := if hit && obj.kind == Obstacle then HitShake else old(sim.cameraShake))
        && lives == old(lives) - (if hit && obj.kind == Obstacle then 1 else 0)
        && score == old(score) + (if hit && obj.kind == Coin then CoinReward else 0)
        && phase == (if hit && obj.kind == Obstacle && lives <= 0 then GameOver else old(phase))
    {
      r := obj;
      if r.active && r.z > WindowNear && r.z < WindowFar {
        var objX := LaneX(r.lane);
        if Abs(sim.playerX - objX) < HitDistance {
          if r.kind == Obstacle {
            r := r.(active := false);
            sim := sim.(cameraShake := HitShake);
            lives := lives - 1;
            if lives <= 0 {
              phase := GameOver;
            }
          } else {
            r := r.(active := false);
            score := score + CoinReward;
          }
        }
      }
    }

    /** The body of the object loop for index `i`: move the object, resolve
        a hit, and splice it out once it is past the removal depth. */
    method ProcessObject(i: int)
      requires 0 <= i < |sim.objects|
      modifies this`sim, this`score, this`lives, this`phase
      ensures Snapshot() == ProcessedAt(old(Snapshot()), i)
    {
      var obj := sim.objects[i];
      obj := obj.(z := obj.z + sim.speed);
      if obj.kind == Coin {
        obj := obj.(rotation := obj.rotation + CoinSpin);
      }
      obj := ResolveHit(obj);
      sim := sim.(objects := sim.objects[i := obj]);
      if obj.z > RemovalDepth {
        sim := sim.(objects := sim.objects[..i] + sim.objects[i + 1..]);
      }
    }

    /** Walk the objects from the newest to the oldest, processing each. */
    method UpdateObjects()
      modifies this`sim, this`score, this`lives, this`phase
      ensures Snapshot() == Collisions(old(Snapshot()))
    {
      ghost var w0 := Snapshot();
      PartialEnds(w0);
      var i := |sim.objects| - 1;
      while i >= 0
        invariant -1 <= i < |w0.sim.objects|
        invariant Snapshot() == Partial(w0, i)
        decreases i
      {
        PartialStep(w0, i);
        ProcessObject(i);
        i := i - 1;
      }
    }

    /** One simulation frame, in the order the game loop runs its parts:
        travel, scroll, rotations, the difficulty ramp, drift and shake decay,
        then spawning and the object loop. */
    method UpdateGameLogic(timestamp: real, sway: real, laneRoll: real, kindRoll: real, spawnRotation: real)
      requires Valid() && 0.0 <= laneRoll < 1.0
      modifies this
      ensures Snapshot() == Step(old(Snapshot()), timestamp, sway, laneRoll, kindRoll, spawnRotation)
    {
      ghost var w0 := Snapshot();
      sim := sim.(distance := sim.distance + sim.speed);
      sim := sim.(gridOffset := GridRem(sim.gridOffset + sim.speed));
      sim := sim.(backgroundRotation := sim.backgroundRotation + BackgroundSpin);
      sim := sim.(worldRotation := sim.worldRotation + (sim.targetWorldRotation + sway - sim.worldRotation) * RotationSmoothing);
      assert Snapshot() == Scrolled(w0, sway);
      if sim.distance > level as real * LevelDistance {
        level := Min(level + 1, MaxLevel);
        sim := sim.(speed := sim.speed + SpeedStep);
      }
      speedDisplay := SpeedDisplay(sim.speed);
      assert Snapshot() == Ramped(Scrolled(w0, sway));
      var targetX := LaneX(sim.playerLane);
      sim := sim.(playerX := sim.playerX + (targetX - sim.playerX) * PlayerSmoothing);
      sim := sim.(cameraShake := sim.cameraShake * ShakeDecay);
      assert Snapshot() == Kinematics(w0, sway);
      TrySpawn(timestamp, laneRoll, kindRoll, spawnRotation);
      UpdateObjects();
    }

    /** The animation-frame callback: simulate only while a run is going. */
    method Tick(timestamp: real, sway: real, laneRoll: real, kindRoll: real, spawnRotation: real)
      requires Valid() && 0.0 <= laneRoll < 1.0
      modifies this
      ensures Snapshot() == Frame(old(Snapshot()), timestamp, sway, laneRoll, kindRoll, spawnRotation)
      ensures Valid()
    {
      if phase == Playing {
        StepKeepsWellFormed(Snapshot(), timestamp, sway, laneRoll, kindRoll, spawnRotation);
        UpdateGameLogic(timestamp, sway, laneRoll, kindRoll, spawnRotation);
      }
    }
  }
}
