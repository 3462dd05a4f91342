# Enemy state machine

A Dafny model of the per-enemy controller of a grid game (the `Enemy`
component in `Assets/Scripts/Enemy.cs`). Each frame, `Update` either freezes the
enemy or runs one of three handlers, picked by the enemy's behaviour tag:

- behaviour 1 wanders along random walks;
- behaviour 2 chases the tile nearest the player while the player is in sight;
- behaviour 3 chases the tile nearest a point two units beside the player's tile.

Each handler is a `switch` over the enemy's state (`STATIC`, `CHASE`, `REST`,
`MOVING`, `DEFAULT`). It consumes a queue of tiles produced by two path
planners.

The model has three modules:

- `TileSearch` (`tile_search.dfy`): tiles, positions, and the two
  linear "nearest tile" scans. `Nearest` is a recursive reference definition.
  `FindNearestTile` is the loop of `Enemy.cs`, proved equal to it.
- `EnemyFsm` (`enemy_fsm.dfy`): the state machine as functions over a
  `Snapshot` of the fields it changes (`state`, `path`, `currentTile`,
  `targetTile`). There is one function per handler and per shared case, plus
  `Tick` for one frame and `Run` for many frames. Lemmas are about runs.
- `EnemyController` (`enemy.dfy`): the class `Enemy` with those fields. Its
  methods update the fields in place. Each method is proved to leave
  `View()` equal to the matching `EnemyFsm` function of the old view, and to
  keep the invariant `Valid()`: a `MOVING` enemy has a target tile.

What the model takes as inputs:

- Observations outside the enemy come in a `Frame`: map destroyed, player
  reached the goal, player dead, player position, the Tile component of each
  map child (or none), and the outcomes of the two float tests ("player within
  `visionDistance`", "within 0.05 of the target after this frame's step").
- What the planners `PathFinder.RandomPath` and `PathFinder.FindPathAStar`
  answer is part of each `Frame`, as two arbitrary total functions in
  `Planners`. A handler calls each planner at most once per frame, so a fresh
  pair per frame lets a run get any sequence of answers, such as two
  different random walks from the same tile. Nothing is claimed about the
  answers themselves.
- Distances are compared as squared Euclidean distances over exact reals.
  This gives the same outcome for every strict `<` comparison as comparing the
  distances themselves.

What the code does, which the model follows:

- The code declares five states, but `STATIC` and `REST` are never entered.
  Every handler maps them to `DEFAULT`.
- The re-plan branch in behaviours 2 and 3 (`Enemy.cs:191`, `Enemy.cs:300`) is
  dead code. The comments just above it (`Enemy.cs:190`, `Enemy.cs:299`) say
  the intent: on reaching the target in CHASE mode, re-plan while the player
  is still in range. But the branch tests `state == CHASE` inside the
  `MOVING` case, so it is never taken. `ArriveStep2` and `ArriveStep3` prove
  that `MOVING` behaves as it does for behaviour 1.
  `ChaseReachesFirstPlannedTile` shows a chaser going back to `DEFAULT` after
  its first planned tile.
- Behaviour 3's offset goal is the tile nearest the shifted point, whether it
  is walkable or not (`Enemy.cs:323-343`).
- In behaviour 3, the code checks both the player's tile and the offset tile
  for null. Both are null exactly when the map has no tile at all, so the
  second check never fails once the first passes (`EnterChase3`).

## Model

| member | source | states |
|---|---|---|
| TileSearch.NearestNoneIff | Assets/Scripts/Enemy.cs:210-229 | the reference nearest tile `Nearest` (a recursive fold keeping the earlier tile on a tie) is null iff no map child carries a tile |
| TileSearch.NearestIsFirstNearest | Assets/Scripts/Enemy.cs:210-229 | when `Nearest` is a tile, it is a tile no farther than any tile, and every tile enumerated before it is strictly farther (ties go to the earliest) |
| TileSearch.FindNearestTile | Assets/Scripts/Enemy.cs:210-229 | the scan with a strict `<` against the closest distance so far (starting at infinity) always returns `Nearest`, so it is null iff there is no tile and otherwise the earliest closest tile |
| TileSearch.GetOffsetTile | Assets/Scripts/Enemy.cs:323-343 | returns `Nearest` measured from the origin tile's position plus (offset, 0, 0): null iff no tile, else the earliest tile closest to that point |
| EnemyFsm.WanderStep | Assets/Scripts/Enemy.cs:103-109 | a random walk is used only when the queue is empty; a non-empty queue is split into the new target (its head) and the new queue (its tail) and the state becomes MOVING; an empty result leaves everything unchanged in DEFAULT; `currentTile` is kept |
| EnemyFsm.WanderKeepsQueuedWalk | Assets/Scripts/Enemy.cs:154-157 | with a non-empty queue the wander step does not depend on the random-walk planner |
| EnemyFsm.ChaseStep | Assets/Scripts/Enemy.cs:167-178 | CHASE with an empty queue only switches to DEFAULT; otherwise exactly one tile is dequeued into `targetTile`, the rest stays queued in order, and the state becomes MOVING |
| EnemyFsm.EnterChase2 | Assets/Scripts/Enemy.cs:141-150 | in sight, behaviour 2 always enters CHASE with the A* path (possibly empty) toward the target; the target is null iff the map has no tile and otherwise is the earliest tile nearest the player |
| EnemyFsm.EnterChase3 | Assets/Scripts/Enemy.cs:245-258 | in sight, behaviour 3 enters CHASE toward the offset goal with its A* path exactly when the map has a tile; with no tile nothing changes |
| EnemyFsm.ArriveStep1 | Assets/Scripts/Enemy.cs:112-124 | MOVING keeps the queue and the target; not arrived: nothing changes; arrived: `currentTile` becomes the target and the state DEFAULT |
| EnemyFsm.ArriveStep2 | Assets/Scripts/Enemy.cs:180-201 | behaviour 2's MOVING case, re-plan branch included, equals behaviour 1's step: the branch guarded by `state == CHASE` is never taken, so the queue is not modified |
| EnemyFsm.ArriveStep3 | Assets/Scripts/Enemy.cs:289-314 | the same for behaviour 3's MOVING case |
| EnemyFsm.Behavior1Step | Assets/Scripts/Enemy.cs:94-129 | behaviour 1 only ever yields DEFAULT or MOVING; any other state becomes DEFAULT with nothing else changed |
| EnemyFsm.Behavior2Step | Assets/Scripts/Enemy.cs:132-207 | behaviour 2 yields CHASE only from DEFAULT with the player in sight; STATIC and REST become DEFAULT with nothing else changed |
| EnemyFsm.Behavior3Step | Assets/Scripts/Enemy.cs:233-320 | behaviour 3 yields CHASE only from DEFAULT with the player in sight and a tile on the map; STATIC and REST become DEFAULT with nothing else changed |
| EnemyFsm.Tick | Assets/Scripts/Enemy.cs:44-70 | a frozen frame (map destroyed, goal reached or player dead) changes nothing; every frame keeps "MOVING implies a target"; CHASE is entered only by behaviours 2 and 3, from DEFAULT, with the player in sight |
| EnemyFsm.ResetView | Assets/Scripts/Enemy.cs:72-79 | reset leaves an empty queue, DEFAULT, the spawn tile as current tile and the target unchanged, which satisfies the invariant |
| EnemyFsm.ResetIdempotent | Assets/Scripts/Enemy.cs:72-79 | two resets equal one reset; the queue and state after two are those after one (empty, DEFAULT) |
| EnemyFsm.RunKeepsTarget | Assets/Scripts/Enemy.cs:105-124 | over any run of frames a MOVING enemy always has a target tile (MOVING is only entered by dequeuing a tile) |
| EnemyFsm.WandererNeverChases | Assets/Scripts/Enemy.cs:94-129 | a behaviour-1 enemy not already chasing never reaches CHASE, whatever the frames and planners |
| EnemyFsm.FrozenRunChangesNothing | Assets/Scripts/Enemy.cs:46-53 | a run of frozen frames leaves all four fields unchanged |
| EnemyFsm.OutOfSightIgnoresAStar | Assets/Scripts/Enemy.cs:151-164 | two frames that differ only in the A* planner's answers give the same result when the player is out of sight |
| EnemyFsm.OutOfSightRunIgnoresAStar | Assets/Scripts/Enemy.cs:260-273 | two runs whose frames differ only in the A* planner's answers, frame by frame, end in the same state when the player is never in sight |
| EnemyFsm.WalksQueueInOrder | Assets/Scripts/Enemy.cs:103-124 | out of sight and arriving every step, after 2·i frames the enemy stands on the i-th queued tile in DEFAULT with the rest of the queue untouched, for every behaviour |
| EnemyFsm.ChaseReachesFirstPlannedTile | Assets/Scripts/Enemy.cs:141-199 | a behaviour-2 enemy in sight plans toward the player's nearest tile; when the plan is non-empty it moves to the first planned tile and on arrival is in DEFAULT with the rest of the plan queued |
| EnemyController.Enemy.constructor | Assets/Scripts/Enemy.cs:28-41 | a new enemy is in DEFAULT with an empty queue and no tiles |
| EnemyController.Enemy.Update | Assets/Scripts/Enemy.cs:44-70 | the fields after a frame are `Tick` of the fields before; a frozen frame changes nothing; the invariant is kept |
| EnemyController.Enemy.Reset | Assets/Scripts/Enemy.cs:72-79 | the queue becomes empty, the state DEFAULT, the current tile the walkable spawn tile; the target is untouched |
| EnemyController.Enemy.Wander | Assets/Scripts/Enemy.cs:154-163 | the fields change as `WanderStep` says |
| EnemyController.Enemy.FollowChasePath | Assets/Scripts/Enemy.cs:167-178 | the fields change as `ChaseStep` says |
| EnemyController.Enemy.HandleEnemyBehavior1 | Assets/Scripts/Enemy.cs:94-129 | the fields change as `Behavior1Step` says; the invariant is kept |
| EnemyController.Enemy.HandleEnemyBehavior2 | Assets/Scripts/Enemy.cs:132-207 | the fields change as `Behavior2Step` says, using `FindNearestTile`; the invariant is kept |
| EnemyController.Enemy.HandleEnemyBehavior3 | Assets/Scripts/Enemy.cs:233-320 | the fields change as `Behavior3Step` says, using `FindNearestTile` and `GetOffsetTile`; the invariant is kept |

## Left out

- `FindWalkableTile` (`Enemy.cs:81-91`) retries random indices with no bound and uses `Random.value` float arithmetic. `Reset` instead receives the tile that function returns, which by its loop condition is a walkable tile.
- Continuous motion is left out: the `velocity` and `transform.position` updates and the speed and frame-time scaling. The vision and arrival distance tests are given as booleans of the frame.
- Float rounding in `Vector3.Distance` is not modelled: positions are exact reals.
- `PathFinder.RandomPath` and `PathFinder.FindPathAStar`: their code is not part of this model. Each frame carries its own answers, as arbitrary functions of the arguments. Nothing is claimed about path length, adjacency or optimality.
- Unity plumbing has no effect on the fields: `Start`'s component lookups, `GameObject.FindWithTag`/`Find`, `material.color`, `Debug.Log`, and the unused `playerCloseCounter`/`maxCounter`.
- Null dereferences are not modelled as errors. Every queued tile is a tile, and the invariant `Valid()` rules out a `MOVING` enemy without a target. A `Reset` before `Start` (null queue) is not modelled.
- `Update`'s `default: break` is not modelled. It is reached only by enum values outside the three declared behaviours, which the datatype cannot hold.
- `GetOffsetTile`: `Enemy.cs` repeats `FindNearestTile`'s loop with the shifted position. The model calls the one scan, so the observable result is the same.
- Tiles are values, not objects with identity. Two map children with the same position and walkability cannot be told apart. On a grid whose cells have distinct positions this makes no difference.
