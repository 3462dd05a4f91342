/** The enemy state machine of Assets/Scripts/Enemy.cs as functions over the
    fields it reads and writes. Each function is the specification of one
    handler (or one `case` of it); the class in enemy.dfy is proved to change
    its fields exactly as these functions say, and the lemmas at the end are
    about runs of many frames. */
module EnemyFsm {
  import opened TileSearch

  /** EnemyState. STATIC and REST are declared by Enemy.cs but no handler
      ever enters them; each handler sends them back to DEFAULT. */
  datatype EnemyState = Static | Chase | Rest | Moving | Default

  /** EnemyBehavior: 1 wanders, 2 chases the player's tile, 3 chases a tile
      two units beside the player's tile. */
  datatype EnemyBehavior = EnemyBehavior1 | EnemyBehavior2 | EnemyBehavior3

  /** The enemy's fields that the state machine changes: `state`, the queue
      `path` (front first), `currentTile` and `targetTile` (None is null). */
  datatype Snapshot = Snapshot(state: EnemyState, path: seq<Tile>, currentTile: Option<Tile>, targetTile: Option<Tile>)

  /** The answers PathFinder.RandomPath(start, steps) and
      PathFinder.FindPathAStar(start, goal) give in one frame. Their code is not
      part of this model: any total functions. A handler calls each planner at
      most once per frame, so a fresh pair per frame covers every sequence of
      answers a random planner can give. */
  datatype Planners = Planners(
    randomPath: (Option<Tile>, int) -> seq<Tile>,
    aStar: (Option<Tile>, Option<Tile>) -> seq<Tile>)

  /** What one frame of Update observes outside the enemy. The float tests of
      Enemy.cs are given as their outcomes:
      - `inVision`: Vector3.Distance(enemy, player) <= visionDistance;
      - `arrived`: after this frame's displacement, the enemy is within 0.05
        of `targetTile`.
      `tiles` holds the Tile component (or None) of each child of the map, in
      enumeration order; `planners` is what the planners answer this frame. */
  datatype Frame = Frame(
    mapDestroyed: bool,
    goalReached: bool,
    playerDead: bool,
    playerPosition: Vec3,
    inVision: bool,
    arrived: bool,
    tiles: seq<Option<Tile>>,
    planners: Planners)

  /** Steps of the random walk requested by behaviour 1. */
  const WanderSteps: int := 20
  /** Steps of the random walk requested by behaviours 2 and 3. */
  const ChaserWanderSteps: int := 10
  /** Offset, along x, that behaviour 3 adds to the player's tile. */
  const ChaseOffset: int := 2

  /** Update returns at once: the map is destroyed, or the player has reached
      the goal or is dead. */
  predicate Frozen(f: Frame) {
    f.mapDestroyed || f.goalReached || f.playerDead
  }

  /** A moving enemy always has a tile to move to (MOVING dereferences
      `targetTile`). */
  predicate HasTargetWhenMoving(s: Snapshot) {
    s.state == Moving ==> s.targetTile.Some?
  }

  /** DEFAULT, out of sight: ask for a random walk of `steps` tiles only when
      the queue is empty, then dequeue the head as the target and move. */
  function WanderStep(s: Snapshot, steps: int, randomPath: (Option<Tile>, int) -> seq<Tile>): (r: Snapshot)
    requires s.state == Default
    ensures r.currentTile == s.currentTile
    ensures s.path != [] ==>
      r.state == Moving && r.targetTile.Some? && [r.targetTile.value] + r.path == s.path
    ensures s.path == [] && randomPath(s.currentTile, steps) != [] ==>
      r.state == Moving && r.targetTile.Some? && [r.targetTile.value] + r.path == randomPath(s.currentTile, steps)
    ensures s.path == [] && randomPath(s.currentTile, steps) == [] ==> r == s
  {
    var queue := if |s.path| <= 0 then randomPath(s.currentTile, steps) else s.path;
    if |queue| > 0 then s.(targetTile := Some(queue[0]), path := queue[1..], state := Moving)
    else s.(path := queue)
  }

  /** A queued walk is followed whatever the planner would have answered. */
  lemma WanderKeepsQueuedWalk(s: Snapshot, steps: int, rp1: (Option<Tile>, int) -> seq<Tile>, rp2: (Option<Tile>, int) -> seq<Tile>)
    requires s.state == Default && s.path != []
    ensures WanderStep(s, steps, rp1) == WanderStep(s, steps, rp2)
  {
  }

  /** CHASE: follow the planned path one tile, or give up when it is used up. */
  function ChaseStep(s: Snapshot): (r: Snapshot)
    requires s.state == Chase
    ensures r.currentTile == s.currentTile
    ensures s.path == [] ==> r == s.(state := Default)
    ensures s.path != [] ==>
      r.state == Moving && r.targetTile.Some? && [r.targetTile.value] + r.path == s.path
  {
    if |s.path| <= 0 then s.(state := Default)
    else s.(targetTile := Some(s.path[0]), path := s.path[1..], state := Moving)
  }

  /** Behaviour 2 in DEFAULT with the player in sight: aim at the tile nearest
      the player, plan an A* path to it and chase. */
  function EnterChase2(s: Snapshot, f: Frame): (r: Snapshot)
    requires s.state == Default && f.inVision
    ensures r.state == Chase && r.currentTile == s.currentTile
    ensures r.path == f.planners.aStar(s.currentTile, r.targetTile)
    ensures r.targetTile.None? <==> !HasTile(f.tiles)
    ensures r.targetTile.Some? ==>
      exists k :: IsFirstNearest(f.tiles, f.playerPosition, k) && f.tiles[k] == r.targetTile
  {
    var target := Nearest(f.tiles, f.playerPosition);
    NearestNoneIff(f.tiles, f.playerPosition);
    NearestIsFirstNearest(f.tiles, f.playerPosition);
    s.(targetTile := target, path := f.planners.aStar(s.currentTile, target), state := Chase)
  }

  /** The goal of behaviour 3: the tile nearest to the player's tile moved by
      ChaseOffset along x (None when the player has no tile). */
  function OffsetGoal(f: Frame): Option<Tile> {
    var playerTile := Nearest(f.tiles, f.playerPosition);
    if playerTile.Some? then Nearest(f.tiles, OffsetPosition(playerTile.value.position, ChaseOffset)) else None
  }

  /** Behaviour 3 in DEFAULT with the player in sight. Enemy.cs checks both
      the player's tile and the offset tile for null; both are null exactly
      when the map has no tile, so the enemy chases iff there is a tile, and
      otherwise nothing changes. */
  function EnterChase3(s: Snapshot, f: Frame): (r: Snapshot)
    requires s.state == Default && f.inVision
    ensures HasTile(f.tiles) ==>
      && r.state == Chase
      && r.currentTile == s.currentTile
      && r.targetTile.Some?
      && r.targetTile == OffsetGoal(f)
      && r.path == f.planners.aStar(s.currentTile, r.targetTile)
    ensures !HasTile(f.tiles) ==> r == s
  {
    var playerTile := Nearest(f.tiles, f.playerPosition);
    NearestNoneIff(f.tiles, f.playerPosition);
    if playerTile.Some? then
      var target := Nearest(f.tiles, OffsetPosition(playerTile.value.position, ChaseOffset));
      NearestNoneIff(f.tiles, OffsetPosition(playerTile.value.position, ChaseOffset));
      if target.Some? then s.(targetTile := target, path := f.planners.aStar(s.currentTile, target), state := Chase)
      else s.(targetTile := target)
    else s
  }

  /** MOVING for behaviour 1: on arrival the target becomes the current tile
      and the enemy decides again; the queue and the target are kept. */
  function ArriveStep1(s: Snapshot, f: Frame): (r: Snapshot)
    requires s.state == Moving
    ensures r.path == s.path && r.targetTile == s.targetTile
    ensures !f.arrived ==> r == s
    ensures f.arrived ==> r.currentTile == s.targetTile && r.state == Default
  {
    if f.arrived then s.(currentTile := s.targetTile, state := Default) else s
  }

  /** MOVING for behaviour 2, with the re-plan branch of Enemy.cs. That branch
      tests `state == CHASE` inside the MOVING case, so it is never taken and
      the step is the same as behaviour 1's. */
  function ArriveStep2(s: Snapshot, f: Frame): (r: Snapshot)
    requires s.state == Moving
    ensures r == ArriveStep1(s, f)
  {
    if f.arrived then
      var arrived := s.(currentTile := s.targetTile);
      if arrived.state == Chase && f.inVision then
        var target := Nearest(f.tiles, f.playerPosition);
        arrived.(targetTile := target, path := f.planners.aStar(arrived.currentTile, target))
      else arrived.(state := Default)
    else s
  }

  /** MOVING for behaviour 3; its re-plan branch is dead for the same reason. */
  function ArriveStep3(s: Snapshot, f: Frame): (r: Snapshot)
    requires s.state == Moving
    ensures r == ArriveStep1(s, f)
  {
    if f.arrived then
      var arrived := s.(currentTile := s.targetTile);
      if arrived.state == Chase && f.inVision then
        match Nearest(f.tiles, f.playerPosition)
        case Some(playerTile) =>
          var target := Nearest(f.tiles, OffsetPosition(playerTile.position, ChaseOffset));
          arrived.(targetTile := target, path := f.planners.aStar(arrived.currentTile, target))
        case None => arrived
      else arrived.(state := Default)
    else s
  }

  /** HandleEnemyBehavior1: wander forever, never chase. */
  function Behavior1Step(s: Snapshot, f: Frame): (r: Snapshot)
    ensures r.state == Default || r.state == Moving
    ensures s.state != Default && s.state != Moving ==> r == s.(state := Default)
  {
    match s.state
    case Default => WanderStep(s, WanderSteps, f.planners.randomPath)
    case Moving => ArriveStep1(s, f)
    case _ => s.(state := Default)
  }

  /** HandleEnemyBehavior2: chase the player's tile while in sight. */
  function Behavior2Step(s: Snapshot, f: Frame): (r: Snapshot)
    ensures r.state == Chase ==> s.state == Default && f.inVision
    ensures s.state != Default && s.state != Chase && s.state != Moving ==> r == s.(state := Default)
  {
    match s.state
    case Default => if f.inVision then EnterChase2(s, f) else WanderStep(s, ChaserWanderSteps, f.planners.randomPath)
    case Chase => ChaseStep(s)
    case Moving => ArriveStep2(s, f)
    case _ => s.(state := Default)
  }

  /** HandleEnemyBehavior3: chase the offset tile while in sight. */
  function Behavior3Step(s: Snapshot, f: Frame): (r: Snapshot)
    ensures r.state == Chase ==> s.state == Default && f.inVision && HasTile(f.tiles)
    ensures s.state != Default && s.state != Chase && s.state != Moving ==> r == s.(state := Default)
  {
    match s.state
    case Default => if f.inVision then EnterChase3(s, f) else WanderStep(s, ChaserWanderSteps, f.planners.randomPath)
    case Chase => ChaseStep(s)
    case Moving => ArriveStep3(s, f)
    case _ => s.(state := Default)
  }

  /** Update: one frame. A frozen frame changes nothing; otherwise the
      behaviour's handler runs. Every frame keeps a moving enemy's target, and
      CHASE is only ever entered by behaviours 2 and 3 with the player in
      sight. */
  function Tick(b: EnemyBehavior, s: Snapshot, f: Frame): (r: Snapshot)
    ensures Frozen(f) ==> r == s
    ensures HasTargetWhenMoving(s) ==> HasTargetWhenMoving(r)
    ensures r.state == Chase && s.state != Chase ==> b != EnemyBehavior1 && s.state == Default && f.inVision
  {
    if f.mapDestroyed then s
    else if f.goalReached || f.playerDead then s
    else
      match b
      case EnemyBehavior1 => Behavior1Step(s, f)
      case EnemyBehavior2 => Behavior2Step(s, f)
      case EnemyBehavior3 => Behavior3Step(s, f)
  }

  /** Reset, given the walkable tile FindWalkableTile settles on. */
  function ResetView(s: Snapshot, spawn: Tile): (r: Snapshot)
    ensures r.path == [] && r.state == Default && r.currentTile == Some(spawn) && r.targetTile == s.targetTile
    ensures HasTargetWhenMoving(r)
  {
    s.(path := [], state := Default, currentTile := Some(spawn))
  }

  /** Resetting twice is resetting once (with the second spawn tile); in
      particular the queue and the state are those of one reset. */
  lemma ResetIdempotent(s: Snapshot, spawn1: Tile, spawn2: Tile)
    ensures ResetView(ResetView(s, spawn1), spawn2) == ResetView(s, spawn2)
    ensures ResetView(ResetView(s, spawn1), spawn2).path == ResetView(s, spawn1).path == []
    ensures ResetView(ResetView(s, spawn1), spawn2).state == ResetView(s, spawn1).state == Default
  {
  }

  /** A run of Update over successive frames, each with its own planner
      answers. */
  function Run(b: EnemyBehavior, s: Snapshot, frames: seq<Frame>): Snapshot
    decreases |frames|
  {
    if frames == [] then s else Run(b, Tick(b, s, frames[0]), frames[1..])
  }

  /** Every run keeps a moving enemy's target. */
  lemma {:induction false} RunKeepsTarget(b: EnemyBehavior, s: Snapshot, frames: seq<Frame>)
    requires HasTargetWhenMoving(s)
    ensures HasTargetWhenMoving(Run(b, s, frames))
    decreases |frames|
  {
    if frames != [] {
      RunKeepsTarget(b, Tick(b, s, frames[0]), frames[1..]);
    }
  }

  /** The wandering enemy never reaches CHASE, whatever it observes and
      whatever the planners answer. */
  lemma {:induction false} WandererNeverChases(s: Snapshot, frames: seq<Frame>)
    requires s.state != Chase
    ensures Run(EnemyBehavior1, s, frames).state != Chase
    decreases |frames|
  {
    if frames != [] {
      WandererNeverChases(Tick(EnemyBehavior1, s, frames[0]), frames[1..]);
    }
  }

  /** While every frame is frozen, the enemy stays exactly as it is. */
  lemma {:induction false} FrozenRunChangesNothing(b: EnemyBehavior, s: Snapshot, frames: seq<Frame>)
    requires forall i :: 0 <= i < |frames| ==> Frozen(frames[i])
    ensures Run(b, s, frames) == s
    decreases |frames|
  {
    if frames != [] {
      FrozenRunChangesNothing(b, s, frames[1..]);
    }
  }

  /** Two frames that differ at most in what the A* planner answers. */
  ghost predicate SameButAStar(f1: Frame, f2: Frame) {
    f2 == f1.(planners := f1.planners.(aStar := f2.planners.aStar))
  }

  /** Out of sight, a frame never consults the A* planner. */
  lemma OutOfSightIgnoresAStar(b: EnemyBehavior, s: Snapshot, f1: Frame, f2: Frame)
    requires !f1.inVision && SameButAStar(f1, f2)
    ensures Tick(b, s, f1) == Tick(b, s, f2)
  {
  }

  /** As long as the player stays out of sight, a run never consults the A*
      planner, whatever it answers frame by frame. */
  lemma {:induction false} OutOfSightRunIgnoresAStar(b: EnemyBehavior, s: Snapshot, frames1: seq<Frame>, frames2: seq<Frame>)
    requires |frames1| == |frames2|
    requires forall i :: 0 <= i < |frames1| ==> !frames1[i].inVision && SameButAStar(frames1[i], frames2[i])
    ensures Run(b, s, frames1) == Run(b, s, frames2)
    decreases |frames1|
  {
    if frames1 != [] {
      OutOfSightIgnoresAStar(b, s, frames1[0], frames2[0]);
      OutOfSightRunIgnoresAStar(b, Tick(b, s, frames1[0]), frames1[1..], frames2[1..]);
    }
  }

  /** Running over two stretches of frames is running over their concatenation. */
  lemma {:induction false} RunAppend(b: EnemyBehavior, s: Snapshot, xs: seq<Frame>, ys: seq<Frame>)
    ensures Run(b, s, xs + ys) == Run(b, Run(b, s, xs), ys)
    decreases |xs|
  {
    if xs == [] {
      assert xs + ys == ys;
    } else {
      assert (xs + ys)[0] == xs[0] && (xs + ys)[1..] == xs[1..] + ys;
      RunAppend(b, Tick(b, s, xs[0]), xs[1..], ys);
    }
  }

  /** A frame in which the enemy is free to act, does not see the player and
      reaches whatever tile it moves to. */
  predicate WalkingFrame(f: Frame) {
    !Frozen(f) && !f.inVision && f.arrived
  }

  /** Two walking frames from DEFAULT with a queued path: dequeue the head,
      then stand on it and decide again. */
  lemma WalkOneTile(b: EnemyBehavior, s: Snapshot, f1: Frame, f2: Frame)
    requires s.state == Default && s.path != []
    requires WalkingFrame(f1) && WalkingFrame(f2)
    ensures Run(b, s, [f1, f2])
         == s.(path := s.path[1..], currentTile := Some(s.path[0]), targetTile := Some(s.path[0]))
  {
    var s1 := Tick(b, s, f1);
    assert s1 == s.(path := s.path[1..], targetTile := Some(s.path[0]), state := Moving);
    assert [f1, f2][1..] == [f2] && [f2][1..] == [];
    assert Run(b, s, [f1, f2]) == Run(b, s1, [f2]) == Tick(b, s1, f2);
  }

  /** The queue is walked front to back: after 2 * i walking frames the enemy
      stands on the i-th queued tile, and the rest of the queue is untouched.
      No planner is consulted while the queue lasts. */
  lemma {:induction false} WalksQueueInOrder(b: EnemyBehavior, s: Snapshot, frames: seq<Frame>, i: nat)
    requires s.state == Default && 0 < i <= |s.path| && 2 * i <= |frames|
    requires forall j :: 0 <= j < |frames| ==> WalkingFrame(frames[j])
    ensures Run(b, s, frames[..2 * i])
         == s.(path := s.path[i..], currentTile := Some(s.path[i - 1]), targetTile := Some(s.path[i - 1]))
  {
    if i == 1 {
      assert frames[..2] == [frames[0], frames[1]];
      WalkOneTile(b, s, frames[0], frames[1]);
    } else {
      WalksQueueInOrder(b, s, frames, i - 1);
      var mid := Run(b, s, frames[..2 * (i - 1)]);
      assert frames[..2 * i] == frames[..2 * (i - 1)] + [frames[2 * i - 2], frames[2 * i - 1]];
      RunAppend(b, s, frames[..2 * (i - 1)], [frames[2 * i - 2], frames[2 * i - 1]]);
      WalkOneTile(b, mid, frames[2 * i - 2], frames[2 * i - 1]);
      assert mid.path[1..] == s.path[i..];
    }
  }

  /** A chaser that sees the player plans toward the player's nearest tile,
      moves to the first planned tile, and on reaching it goes back to DEFAULT
      with the rest of the plan still queued: it does not re-plan on arrival. */
  lemma ChaseReachesFirstPlannedTile(s: Snapshot, f1: Frame, f2: Frame, f3: Frame)
    requires s.state == Default
    requires !Frozen(f1) && f1.inVision && !Frozen(f2) && !Frozen(f3) && f3.arrived
    ensures var plan := f1.planners.aStar(s.currentTile, Nearest(f1.tiles, f1.playerPosition));
      plan != [] ==>
      Run(EnemyBehavior2, s, [f1, f2, f3])
        == Snapshot(Default, plan[1..], Some(plan[0]), Some(plan[0]))
  {
    var plan := f1.planners.aStar(s.currentTile, Nearest(f1.tiles, f1.playerPosition));
    if plan == [] {
      return;
    }
    var s1 := Tick(EnemyBehavior2, s, f1);
    assert s1 == s.(targetTile := Nearest(f1.tiles, f1.playerPosition), path := plan, state := Chase);
    var s2 := Tick(EnemyBehavior2, s1, f2);
    assert s2 == s1.(targetTile := Some(plan[0]), path := plan[1..], state := Moving);
    var s3 := Tick(EnemyBehavior2, s2, f3);
    assert s3 == s2.(currentTile := Some(plan[0]), state := Default);
    assert [f1, f2, f3][1..] == [f2, f3] && [f2, f3][1..] == [f3] && [f3][1..] == [];
    assert Run(EnemyBehavior2, s, [f1, f2, f3]) == Run(EnemyBehavior2, s1, [f2, f3]);
    assert Run(EnemyBehavior2, s1, [f2, f3]) == Run(EnemyBehavior2, s2, [f3]);
    assert Run(EnemyBehavior2, s2, [f3]) == Run(EnemyBehavior2, s3, []) == s3;
  }
}
