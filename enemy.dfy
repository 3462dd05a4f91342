/** The Enemy component of Assets/Scripts/Enemy.cs as a class whose methods
    update its fields in place, each proved to do what the matching function of
    EnemyFsm says. */
module EnemyController {
  import opened TileSearch
  import opened EnemyFsm

  class Enemy {
    var state: EnemyState
    var behavior: EnemyBehavior
    /** The Queue<Tile>, front first. */
    var path: seq<Tile>
    var currentTile: Option<Tile>
    var targetTile: Option<Tile>

    /** The fields the state machine changes, as one value. */
    function View(): Snapshot
      reads this
    {
      Snapshot(state, path, currentTile, targetTile)
    }

    /** Object invariant: a moving enemy has a target tile. */
    ghost predicate Valid()
      reads this
    {
      HasTargetWhenMoving(View())
    }

    /** The field initialisers and Start(): state DEFAULT, an empty queue, no
        tile yet. */
    constructor (behavior: EnemyBehavior)
      ensures Valid()
      ensures this.behavior == behavior
      ensures View() == Snapshot(Default, [], None, None)
    {
      state := Default;
      this.behavior := behavior;
      path := [];
      currentTile := None;
      targetTile := None;
    }

    /** Update: do nothing when the map is destroyed or the player has reached
        the goal or is dead; otherwise run the behaviour's handler. */
    method Update(f: Frame)
      requires Valid()
      modifies this`state, this`path, this`currentTile, this`targetTile
      ensures Valid()
      ensures View() == Tick(behavior, old(View()), f)
      ensures Frozen(f) ==> View() == old(View())
    {
      if f.mapDestroyed {
        return;
      }
      if f.goalReached || f.playerDead {
        return;
      }
      match behavior
      case EnemyBehavior1 => HandleEnemyBehavior1(f);
      case EnemyBehavior2 => HandleEnemyBehavior2(f);
      case EnemyBehavior3 => HandleEnemyBehavior3(f);
    }

    /** Reset: clear the queue, go back to DEFAULT and stand on `spawn`, the
        walkable tile FindWalkableTile returns. */
    method Reset(spawn: Tile)
      requires spawn.walkable
      modifies this`state, this`path, this`currentTile
      ensures Valid()
      ensures View() == ResetView(old(View()), spawn)
      ensures path == [] && state == Default
      ensures currentTile.Some? && currentTile.value.walkable
      ensures targetTile == old(targetTile)
    {
      path := [];
      state := Default;
      currentTile := Some(spawn);
    }

    /** The DEFAULT wander shared by the three handlers: a random walk of
        `steps` tiles is requested only when the queue is empty; a non-empty
        queue yields its head as the target. */
    method Wander(steps: int, randomPath: (Option<Tile>, int) -> seq<Tile>)
      requires state == Default
      modifies this`state, this`path, this`targetTile
      ensures Valid()
      ensures View() == WanderStep(old(View()), steps, randomPath)
    {
      if |path| <= 0 {
        path := randomPath(currentTile, steps);
      }
      if |path| > 0 {
        targetTile := Some(path[0]);
        path := path[1..];
        state := Moving;
      }
    }

    /** The CHASE case shared by behaviours 2 and 3. */
    method FollowChasePath()
      requires state == Chase
      modifies this`state, this`path, this`targetTile
      ensures Valid()
      ensures View() == ChaseStep(old(View()))
    {
      if |path| <= 0 {
        state := Default;
        return;
      }
      targetTile := Some(path[0]);
      path := path[1..];
      state := Moving;
    }

    /** HandleEnemyBehavior1: the wandering enemy. */
    method HandleEnemyBehavior1(f: Frame)
      requires Valid()
      modifies this`state, this`path, this`currentTile, this`targetTile
      ensures Valid()
      ensures View() == Behavior1Step(old(View()), f)
    {
      match state
      case Default =>
        Wander(WanderSteps, f.planners.randomPath);
      case Moving =>
        if f.arrived {
          currentTile := targetTile;
          state := Default;
        }
      case _ =>
        state := Default;
    }

    /** HandleEnemyBehavior2: chase the tile nearest the player while in sight. */
    method HandleEnemyBehavior2(f: Frame)
      requires Valid()
      modifies this`state, this`path, this`currentTile, this`targetTile
      ensures Valid()
      ensures View() == Behavior2Step(old(View()), f)
    {
      match state
      case Default =>
        if f.inVision {
          targetTile := FindNearestTile(f.tiles, f.playerPosition);
          path := f.planners.aStar(currentTile, targetTile);
          state := Chase;
        } else {
          Wander(ChaserWanderSteps, f.planners.randomPath);
        }
      case Chase =>
        FollowChasePath();
      case Moving =>
        if f.arrived {
          currentTile := targetTile;
          // The re-plan branch is computed into locals and written back once:
          // its guard cannot hold in this case.
          var newTarget, newPath := targetTile, path;
          if state == Chase && f.inVision {
            newTarget := FindNearestTile(f.tiles, f.playerPosition);
            newPath := f.planners.aStar(currentTile, newTarget);
          } else {
            state := Default;
          }
          targetTile, path := newTarget, newPath;
        }
      case _ =>
        state := Default;
    }

    /** HandleEnemyBehavior3: chase the tile ChaseOffset beside the player's
        tile while in sight. */
    method HandleEnemyBehavior3(f: Frame)
      requires Valid()
      modifies this`state, this`path, this`currentTile, this`targetTile
      ensures Valid()
      ensures View() == Behavior3Step(old(View()), f)
    {
      match state
      case Default =>
        if f.inVision {
          var playerTile := FindNearestTile(f.tiles, f.playerPosition);
          if playerTile.Some? {
            targetTile := GetOffsetTile(f.tiles, playerTile.value, ChaseOffset);
            if targetTile.Some? {
              path := f.planners.aStar(currentTile, targetTile);
              state := Chase;
            }
          }
        } else {
          Wander(ChaserWanderSteps, f.planners.randomPath);
        }
      case Chase =>
        FollowChasePath();
      case Moving =>
        if f.arrived {
          currentTile := targetTile;
          // As in behaviour 2, the re-plan branch cannot be taken here.
          var newTarget, newPath := targetTile, path;
          if state == Chase && f.inVision {
            var playerTile := FindNearestTile(f.tiles, f.playerPosition);
            match playerTile
            case Some(t) =>
              newTarget := GetOffsetTile(f.tiles, t, ChaseOffset);
              newPath := f.planners.aStar(currentTile, newTarget);
            case None =>
          } else {
            state := Default;
          }
          targetTile, path := newTarget, newPath;
        }
      case _ =>
        state := Default;
    }
  }
}
