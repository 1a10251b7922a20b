/** The enemy side of the simulation: spawning an enemy on a tile (place_enemy) and one
    call of move_enemies, which either walks one waypoint of the stored path or, when the
    enemy has no path, picks a target, nudges it off an occupied tile and runs astar.
    Time is counted in integer ticks: `elapsed` and `delta` replace elapsed_time and
    delta_time, `interval` replaces 1 / movement_speed. */
module Enemies {
  import opened Tiles
  import opened Game
  import opened Pathfinding

  /** The ENEMY_GOBLIN_* constants: speed, damage, radius, attack speed and health. */
  datatype Stats = Stats(speed: nat, damage: nat, radius: nat, attackSpeed: nat, health: nat)

  datatype Enemy = Enemy(
    elapsed: nat,
    finalPath: Option<seq<Pos>>,
    gridIndex: Pos,
    maxHealth: nat,
    health: nat,
    movementSpeed: nat,
    attackDamage: nat,
    attackRadius: nat,
    attackSpeed: nat,
    foundTarget: bool,
    texture: Texture)

  /** The enemy place_enemy creates for a tile carrying `d` at `index`: goblin stats and the
      goblin texture for a Goblin tile, every stat 1 and the default texture otherwise. */
  function Spawned(d: TileData, index: Pos, goblin: Stats): (e: Enemy)
    ensures e.gridIndex == index && e.finalPath.None? && e.elapsed == 0 && !e.foundTarget
    ensures e.health == e.maxHealth
    ensures d == Goblin ==>
      Stats(e.movementSpeed, e.attackDamage, e.attackRadius, e.attackSpeed, e.maxHealth) == goblin &&
      e.texture == TextureGoblinEnemyFront
    ensures d != Goblin ==>
      Stats(e.movementSpeed, e.attackDamage, e.attackRadius, e.attackSpeed, e.maxHealth) ==
        Stats(1, 1, 1, 1, 1) &&
      e.texture == TextureDefault
  {
    var s := if d == Goblin then goblin else Stats(1, 1, 1, 1, 1);
    Enemy(0, None, index, s.health, s.health, s.speed, s.damage, s.radius, s.attackSpeed, false,
          if d == Goblin then TextureGoblinEnemyFront else TextureDefault)
  }

  class EnemyManager {
    var enemyVec: seq<Enemy>
    const goblin: Stats

    constructor (goblin: Stats)
      ensures enemyVec == [] && this.goblin == goblin
    {
      enemyVec := [];
      this.goblin := goblin;
    }

    /** place_enemy: append one freshly spawned enemy. */
    method PlaceEnemy(tile: Tile, index: Pos)
      modifies this`enemyVec
      ensures enemyVec == old(enemyVec) + [Spawned(tile.data, index, goblin)]
    {
      var s: Stats;
      var texture: Texture;
      match tile.data {
        case Goblin =>
          s := goblin;
          texture := TextureGoblinEnemyFront;
        case _ =>
          s := Stats(1, 1, 1, 1, 1);
          texture := TextureDefault;
      }
      var e := Enemy(0, None, index, s.health, s.health, s.speed, s.damage, s.radius,
                     s.attackSpeed, false, texture);
      enemyVec := enemyVec + [e];
    }
  }

  /** can_move, after the tick has been added to the elapsed time. */
  predicate CanMove(e: Enemy, delta: nat, interval: nat) {
    !e.foundTarget && e.elapsed + delta > interval
  }

  /** has_no_targets: there are targets, the enemy has no path and has not found one. */
  predicate HasNoTargets(targets: seq<Pos>, e: Enemy) {
    targets != [] && e.finalPath.None? && !e.foundTarget
  }

  /** The tile an enemy leaves: back to its original type, no data, free. */
  function Vacated(t: Tile): (r: Tile)
    ensures r.tileType == t.originalType && r.data == NoData && !r.occupied
    ensures r.originalType == t.originalType && r.state == t.state && r.texture == t.texture
  {
    t.(tileType := t.originalType, data := NoData, occupied := false)
  }

  /** The tile an enemy enters: occupied, of goblin type, carrying a goblin. */
  function Entered(t: Tile): (r: Tile)
    ensures r.tileType == GoblinTile && r.data == Goblin && r.occupied
    ensures r.originalType == t.originalType && r.state == t.state && r.texture == t.texture
  {
    t.(occupied := true, tileType := GoblinTile, data := Goblin)
  }

  /** The grid after one movement step from `old` to `new`: the old tile is vacated, then
      the new one entered. */
  function StepGrid(g: Grid, from: Pos, to: Pos): (r: Grid)
    requires InGrid(g, from) && InGrid(g, to)
    ensures |r| == |g| && forall i :: 0 <= i < |g| ==> |r[i]| == |g[i]|
    ensures At(r, to) == Entered(if to == from then Vacated(At(g, from)) else At(g, to))
    ensures from != to ==> At(r, from) == Vacated(At(g, from))
    ensures forall q :: InGrid(g, q) && q != from && q != to ==> At(r, q) == At(g, q)
  {
    var g1 := SetAt(g, from, Vacated(At(g, from)));
    SetAt(g1, to, Entered(At(g1, to)))
  }

  /** A step never changes which type a tile remembers as its original one. */
  lemma StepKeepsOriginalTypes(g: Grid, from: Pos, to: Pos, q: Pos)
    requires InGrid(g, from) && InGrid(g, to) && InGrid(g, q)
    ensures At(StepGrid(g, from, to), q).originalType == At(g, q).originalType
  {
    if q != from && q != to {
    } else if q == to {
    } else {
    }
  }

  /** After a step the enemy's new tile is the only one of the two that is occupied by it,
      and the old tile is free again unless the enemy stayed in place. */
  lemma StepMovesOccupancy(g: Grid, from: Pos, to: Pos)
    requires InGrid(g, from) && InGrid(g, to)
    ensures At(StepGrid(g, from, to), to).occupied
    ensures from != to ==> !At(StepGrid(g, from, to), from).occupied
    ensures |set q | q in Cells(g) && At(StepGrid(g, from, to), q) != At(g, q)| <= 2
  {
    var r := StepGrid(g, from, to);
    var changed := set q | q in Cells(g) && At(r, q) != At(g, q);
    assert changed <= {from, to};
    SubsetCard(changed, {from, to});
  }

  /** The target nudge: move entry i of the targets one cell along the axis `dir % 4`
      selects; a decrement that would leave the grid at 0 becomes an increment. */
  function Nudge(targets: seq<Pos>, i: nat, dir: nat): (r: seq<Pos>)
    requires i < |targets|
    ensures |r| == |targets|
    ensures forall j :: 0 <= j < |targets| && j != i ==> r[j] == targets[j]
    // exactly one coordinate changes, by exactly one
    ensures Heuristic(r[i], targets[i]) == 1
    ensures dir % 4 < 2 ==> r[i].1 == targets[i].1
    ensures dir % 4 >= 2 ==> r[i].0 == targets[i].0
    // the even directions increase, the odd ones decrease whenever they can
    ensures dir % 4 == 0 ==> r[i].0 > targets[i].0
    ensures dir % 4 == 2 ==> r[i].1 > targets[i].1
    ensures dir % 4 == 1 ==> (r[i].0 < targets[i].0 <==> targets[i].0 > 0)
    ensures dir % 4 == 3 ==> (r[i].1 < targets[i].1 <==> targets[i].1 > 0)
  {
    var t := targets[i];
    var n: Pos := match dir % 4 {
      case 0 => (t.0 + 1, t.1)
      case 1 => if t.0 > 0 then (t.0 - 1, t.1) else (t.0 + 1, t.1)
      case 2 => (t.0, t.1 + 1)
      case _ => if t.1 > 0 then (t.0, t.1 - 1) else (t.0, t.1 + 1)
    };
    targets[i := n]
  }

  /** The target list after the no-target branch picked entry i: nudged when that target's
      tile is occupied, unchanged otherwise. */
  function Retarget(targets: seq<Pos>, g: Grid, i: nat, dir: nat): (r: seq<Pos>)
    requires i < |targets| && InGrid(g, targets[i])
    ensures At(g, targets[i]).occupied ==> r == Nudge(targets, i, dir)
    ensures !At(g, targets[i]).occupied ==> r == targets
  {
    if At(g, targets[i]).occupied then Nudge(targets, i, dir) else targets
  }

  /** The walking part of move_enemies, run when the enemy can move: take the stored path
      and, if it has a first waypoint, vacate the current tile, enter the waypoint's tile,
      keep the rest of the path and restart the clock. */
  method Walk(level: Level, enemy: Enemy) returns (e: Enemy, crashed: bool)
    modifies level`levelVec
    ensures enemy.finalPath.None? || enemy.finalPath == Some([]) ==>
      !crashed && e == enemy.(finalPath := None) && level.levelVec == old(level.levelVec)
    ensures enemy.finalPath.Some? && enemy.finalPath.value != [] ==>
      var from, to := enemy.gridIndex, enemy.finalPath.value[0];
      (crashed <==> !(InGrid(old(level.levelVec), from) && InGrid(old(level.levelVec), to))) &&
      (!crashed ==>
        level.levelVec == StepGrid(old(level.levelVec), from, to) &&
        e == enemy.(gridIndex := to, finalPath := Some(enemy.finalPath.value[1..]), elapsed := 0))
  {
    e := enemy;
    crashed := false;
    var taken := e.finalPath;
    e := e.(finalPath := None);
    if taken.Some? {
      var path := taken.value;
      if path != [] {
        var from := e.gridIndex;
        if !InGrid(level.levelVec, from) {
          return e, true;
        }
        ghost var g0 := level.levelVec;
        var t := At(level.levelVec, from);
        level.levelVec := SetAt(level.levelVec, from, t.(tileType := t.originalType));
        ghost var t1 := At(level.levelVec, from);
        level.levelVec := SetAt(level.levelVec, from, At(level.levelVec, from).(data := NoData));
        ghost var t2 := At(level.levelVec, from);
        level.levelVec := SetAt(level.levelVec, from, At(level.levelVec, from).(occupied := false));
        SetAtTwice(g0, from, t1, t2);
        SetAtTwice(g0, from, t2, At(level.levelVec, from));
        ghost var g1 := level.levelVec;
        assert g1 == SetAt(g0, from, Vacated(At(g0, from)));
        e := e.(gridIndex := path[0]);
        var to := e.gridIndex;
        if !InGrid(level.levelVec, to) {
          return e, true;
        }
        level.levelVec := SetAt(level.levelVec, to, At(level.levelVec, to).(occupied := true));
        ghost var u1 := At(level.levelVec, to);
        level.levelVec := SetAt(level.levelVec, to, At(level.levelVec, to).(tileType := GoblinTile));
        ghost var u2 := At(level.levelVec, to);
        level.levelVec := SetAt(level.levelVec, to, At(level.levelVec, to).(data := Goblin));
        SetAtTwice(g1, to, u1, u2);
        SetAtTwice(g1, to, u2, At(level.levelVec, to));
        assert level.levelVec == SetAt(g1, to, Entered(At(g1, to)));
        path := path[1..];
        e := e.(finalPath := Some(path), elapsed := 0);
      }
    }
  }

  /** The targeting part of move_enemies, run when the enemy had no target: pick target
      frame_time % len, nudge it when its tile is occupied, and run astar towards it unless
      a search already ran or the enemy is within attack range. `here` is the enemy's
      position as move_enemies read it on entry. */
  method Seek(game: GameManager, level: Level, enemy: Enemy, here: (int, int),
              withinArea: ((int, int), (int, int), int) -> bool)
    returns (e: Enemy, crashed: bool, ghost reached: seq<Pos>)
    requires HasNoTargets(game.targetVec, enemy)
    modifies game`targetVec, game`isPathfinding
    ensures var i := game.frameTime % |old(game.targetVec)|;
      (!InGrid(level.levelVec, old(game.targetVec)[i]) ==> crashed) &&
      // a target inside the grid fails only in astar, after it reached a border position
      (crashed && InGrid(level.levelVec, old(game.targetVec)[i]) ==>
        game.targetVec ==
          Retarget(old(game.targetVec), level.levelVec, i, game.frameTime % 4) &&
        !old(game.isPathfinding) &&
        !withinArea(here, (game.targetVec[i].0, game.targetVec[i].1), enemy.attackRadius) &&
        |reached| >= 1 && reached[0] == enemy.gridIndex &&
        exists j :: 0 <= j < |reached| && !Interior(level.levelVec, reached[j])) &&
      (!crashed ==>
        InGrid(level.levelVec, old(game.targetVec)[i]) &&
        game.targetVec ==
          Retarget(old(game.targetVec), level.levelVec, i, game.frameTime % 4) &&
        game.isPathfinding &&
        e.(finalPath := None) == enemy &&
        (e.finalPath.Some? ==>
          !old(game.isPathfinding) &&
          !withinArea(here, (game.targetVec[i].0, game.targetVec[i].1), enemy.attackRadius) &&
          IsRoute(level.levelVec, enemy.gridIndex, game.targetVec[i], e.finalPath.value) &&
          Distinct(e.finalPath.value)) &&
        (!old(game.isPathfinding) &&
         !withinArea(here, (game.targetVec[i].0, game.targetVec[i].1), enemy.attackRadius) &&
         e.finalPath.None? ==>
          forall w :: !IsRoute(level.levelVec, enemy.gridIndex, game.targetVec[i], w)))
  {
    e := enemy;
    crashed := false;
    reached := [];
    var randomIndex := game.frameTime % |game.targetVec|;
    var tp := game.targetVec[randomIndex];
    if !InGrid(level.levelVec, tp) {
      return e, true, reached;
    }
    NudgeTarget(game, level, randomIndex);
    var target := game.targetVec[randomIndex];
    e, crashed, reached := Plan(game, level, e, target, here, withinArea);
  }

  /** The nudge of Seek: when the picked target's tile is occupied, move the target one cell
      in direction frame_time % 4. */
  method NudgeTarget(game: GameManager, level: Level, i: nat)
    requires i < |game.targetVec| && InGrid(level.levelVec, game.targetVec[i])
    modifies game`targetVec
    ensures game.targetVec == Retarget(old(game.targetVec), level.levelVec, i, game.frameTime % 4)
  {
    var tp := game.targetVec[i];
    if At(level.levelVec, tp).occupied {
      var randDirection := game.frameTime % 4;
      match randDirection {
        case 0 =>
          game.targetVec := game.targetVec[i := (tp.0 + 1, tp.1)];
        case 1 =>
          if tp.0 > 0 {
            game.targetVec := game.targetVec[i := (tp.0 - 1, tp.1)];
          } else {
            game.targetVec := game.targetVec[i := (tp.0 + 1, tp.1)];
          }
        case 2 =>
          game.targetVec := game.targetVec[i := (tp.0, tp.1 + 1)];
        case 3 =>
          if tp.1 > 0 {
            game.targetVec := game.targetVec[i := (tp.0, tp.1 - 1)];
          } else {
            game.targetVec := game.targetVec[i := (tp.0, tp.1 + 1)];
          }
      }
    }
  }

  /** The search of Seek: run astar towards `target` unless a search already ran or the enemy
      is within attack range of it, keep the path it finds, and mark the search as done. */
  method Plan(game: GameManager, level: Level, enemy: Enemy, target: Pos, here: (int, int),
              withinArea: ((int, int), (int, int), int) -> bool)
    returns (e: Enemy, crashed: bool, ghost reached: seq<Pos>)
    requires enemy.finalPath.None?
    modifies game`isPathfinding
    // only astar can fail, and only after reaching a position on the border of the grid
    ensures crashed ==>
      !old(game.isPathfinding) && !withinArea(here, (target.0, target.1), enemy.attackRadius) &&
      |reached| >= 1 && reached[0] == enemy.gridIndex &&
      exists j :: 0 <= j < |reached| && !Interior(level.levelVec, reached[j])
    ensures !crashed ==>
      game.isPathfinding && e.(finalPath := None) == enemy &&
      (e.finalPath.Some? ==>
        !old(game.isPathfinding) &&
        !withinArea(here, (target.0, target.1), enemy.attackRadius) &&
        IsRoute(level.levelVec, enemy.gridIndex, target, e.finalPath.value) &&
        Distinct(e.finalPath.value))
    // a search that ran and kept no path found that no route exists
    ensures !crashed && !old(game.isPathfinding) &&
            !withinArea(here, (target.0, target.1), enemy.attackRadius) && e.finalPath.None? ==>
      forall w :: !IsRoute(level.levelVec, enemy.gridIndex, target, w)
  {
    e := enemy;
    crashed := false;
    reached := [];
    var targetTupleIndex: (int, int) := (target.0, target.1);
    if !game.isPathfinding && !withinArea(here, targetTupleIndex, e.attackRadius) {
      var r;
      r, reached := AStar(e.gridIndex, target, level.levelVec);
      if r.Crashed? {
        return e, true, reached;
      }
      if r.path.Some? {
        e := e.(finalPath := r.path);
      }
      game.isPathfinding := true;
    } else {
      game.isPathfinding := true;
    }
  }

  /** move_enemies for one enemy. `withinArea` stands for TowerManager::is_within_area.
      `crashed` reports an index outside the grid, where the source panics; the state it
      leaves behind is then unspecified. */
  method MoveEnemies(game: GameManager, level: Level, enemy: Enemy, delta: nat, interval: nat,
                     withinArea: ((int, int), (int, int), int) -> bool)
    returns (e: Enemy, crashed: bool, ghost reached: seq<Pos>)
    modifies game`targetVec, game`isPathfinding, level`levelVec
    // the walking branch
    ensures CanMove(enemy, delta, interval) && enemy.finalPath.Some? &&
            enemy.finalPath.value != [] ==>
      var from, to := enemy.gridIndex, enemy.finalPath.value[0];
      (crashed <==> !(InGrid(old(level.levelVec), from) && InGrid(old(level.levelVec), to))) &&
      (!crashed ==>
        level.levelVec == StepGrid(old(level.levelVec), from, to) &&
        e == enemy.(gridIndex := to, finalPath := Some(enemy.finalPath.value[1..]), elapsed := 0) &&
        game.targetVec == old(game.targetVec) && game.isPathfinding == old(game.isPathfinding))
    // a path that has run out is dropped
    ensures CanMove(enemy, delta, interval) && enemy.finalPath == Some([]) ==>
      !crashed && e == enemy.(finalPath := None, elapsed := enemy.elapsed + delta) &&
      level.levelVec == old(level.levelVec) && game.targetVec == old(game.targetVec) &&
      game.isPathfinding == old(game.isPathfinding)
    // neither walking nor targeting: only the clock advances
    ensures (!CanMove(enemy, delta, interval) || enemy.finalPath.None?) &&
            !HasNoTargets(old(game.targetVec), enemy) ==>
      !crashed && e == enemy.(elapsed := enemy.elapsed + delta) &&
      level.levelVec == old(level.levelVec) && game.targetVec == old(game.targetVec) &&
      game.isPathfinding == old(game.isPathfinding)
    // the targeting branch
    ensures HasNoTargets(old(game.targetVec), enemy) ==>
      var i := game.frameTime % |old(game.targetVec)|;
      (!InGrid(old(level.levelVec), old(game.targetVec)[i]) ==> crashed) &&
      (crashed && InGrid(old(level.levelVec), old(game.targetVec)[i]) ==>
        game.targetVec ==
          Retarget(old(game.targetVec), old(level.levelVec), i, game.frameTime % 4) &&
        level.levelVec == old(level.levelVec) && !old(game.isPathfinding) &&
        !withinArea((enemy.gridIndex.0, enemy.gridIndex.1),
                    (game.targetVec[i].0, game.targetVec[i].1), enemy.attackRadius) &&
        |reached| >= 1 && reached[0] == enemy.gridIndex &&
        exists j :: 0 <= j < |reached| && !Interior(level.levelVec, reached[j])) &&
      (!crashed ==>
        InGrid(old(level.levelVec), old(game.targetVec)[i]) &&
        game.targetVec ==
          Retarget(old(game.targetVec), old(level.levelVec), i, game.frameTime % 4) &&
        game.isPathfinding && level.levelVec == old(level.levelVec) &&
        e.(finalPath := None) == enemy.(elapsed := enemy.elapsed + delta) &&
        (e.finalPath.Some? ==>
          !old(game.isPathfinding) &&
          !withinArea((enemy.gridIndex.0, enemy.gridIndex.1),
                      (game.targetVec[i].0, game.targetVec[i].1), enemy.attackRadius) &&
          IsRoute(level.levelVec, enemy.gridIndex, game.targetVec[i], e.finalPath.value) &&
          Distinct(e.finalPath.value)) &&
        (!old(game.isPathfinding) &&
         !withinArea((enemy.gridIndex.0, enemy.gridIndex.1),
                     (game.targetVec[i].0, game.targetVec[i].1), enemy.attackRadius) &&
         e.finalPath.None? ==>
          forall w :: !IsRoute(level.levelVec, enemy.gridIndex, game.targetVec[i], w)))
  {
    var hasNoTargets := game.targetVec != [] && enemy.finalPath.None? && !enemy.foundTarget;
    var enemyTupleIndex: (int, int) := (enemy.gridIndex.0, enemy.gridIndex.1);
    e := enemy.(elapsed := enemy.elapsed + delta);
    crashed := false;
    reached := [];
    var canMove := !e.foundTarget && e.elapsed > interval;
    if canMove {
      e, crashed := Walk(level, e);
      if crashed {
        return;
      }
    }
    if hasNoTargets {
      e, crashed, reached := Seek(game, level, e, enemyTupleIndex, withinArea);
    }
  }
}
