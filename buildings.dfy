/** The building manager: creating a building on a tile (create_building), the two-phase
    placement rules of build_mode and seed_mode, the per-tile dispatch update_buildings, and
    the health regeneration that render_buildings runs over every building.
    Each of build_mode and seed_mode is described by a reference function (Build, Seed)
    giving its whole outcome on one tile; the methods follow the source statement by
    statement and are proved to produce that outcome. */
module Buildings {
  import opened Tiles
  import opened Game
  import opened Farms
  import opened Enemies

  datatype BuildingType = BaseBuilding | NoBuilding

  /** A building: what it is, where it stands and its health bookkeeping (last_damaged,
      max_health, health). Its rects, pixel index and texture paths only serve drawing. */
  datatype Building = Building(kind: BuildingType, gridIndex: Pos, lastDamaged: nat,
                               maxHealth: nat, health: nat)

  const BaseCreatedText: string := "base created, make sure you keep it safe"
  const BaseExistsText: string := "base already created"
  const PlantOnFieldText: string := "you need to plant those on a field..."

  /** The building create_building makes for a kind at an index. */
  function NewBuilding(kind: BuildingType, idx: Pos, baseHealth: nat): Building {
    match kind
    case BaseBuilding => Building(BaseBuilding, idx, 0, baseHealth, baseHealth)
    case NoBuilding => Building(NoBuilding, idx, 0, 0, 0)
  }

  /** The `any` test of create_building: some building is a Base. */
  predicate HasBase(bs: seq<Building>) {
    exists k :: 0 <= k < |bs| && bs[k].kind == BaseBuilding
  }

  /** The number of Base buildings in the list. */
  function CountBases(bs: seq<Building>): nat
    decreases |bs|
  {
    if bs == [] then 0
    else CountBases(bs[..|bs| - 1]) + (if bs[|bs| - 1].kind == BaseBuilding then 1 else 0)
  }

  predicate AtMostOneBase(bs: seq<Building>) {
    CountBases(bs) <= 1
  }

  lemma CountBasesSnoc(bs: seq<Building>, b: Building)
    ensures CountBases(bs + [b]) == CountBases(bs) + (if b.kind == BaseBuilding then 1 else 0)
  {
    assert (bs + [b])[..|bs|] == bs;
  }

  /** Counting bases agrees with the `any` test. */
  lemma {:induction false} HasBaseCount(bs: seq<Building>)
    ensures HasBase(bs) <==> CountBases(bs) > 0
    decreases |bs|
  {
    if bs != [] {
      var init := bs[..|bs| - 1];
      HasBaseCount(init);
      if HasBase(init) {
        var k :| 0 <= k < |init| && init[k].kind == BaseBuilding;
        assert bs[k] == init[k];
      }
      if HasBase(bs) && bs[|bs| - 1].kind != BaseBuilding {
        var k :| 0 <= k < |bs| && bs[k].kind == BaseBuilding;
        assert init[k] == bs[k];
      }
    }
  }

  /** Two lists whose buildings have the same kinds, position by position, hold the same
      number of bases. */
  lemma {:induction false} SameKindsSameCount(a: seq<Building>, b: seq<Building>)
    requires |a| == |b| && forall i :: 0 <= i < |a| ==> a[i].kind == b[i].kind
    ensures CountBases(a) == CountBases(b)
    decreases |a|
  {
    if a != [] {
      SameKindsSameCount(a[..|a| - 1], b[..|b| - 1]);
    }
  }

  /** The building list after create_building: a building of kind None is always added, a
      Base only when there is no Base yet. */
  function AfterCreate(bs: seq<Building>, kind: BuildingType, idx: Pos, baseHealth: nat)
    : seq<Building>
  {
    if kind == BaseBuilding && HasBase(bs) then bs else bs + [NewBuilding(kind, idx, baseHealth)]
  }

  /** create_building keeps at most one Base, always leaves one after a Base request, adds at
      most one building and never changes the ones already there. */
  lemma CreateKeepsOneBase(bs: seq<Building>, kind: BuildingType, idx: Pos, baseHealth: nat)
    ensures var r := AfterCreate(bs, kind, idx, baseHealth);
      (AtMostOneBase(bs) ==> AtMostOneBase(r)) &&
      (kind == BaseBuilding ==> HasBase(r)) &&
      |bs| <= |r| <= |bs| + 1 && r[..|bs|] == bs &&
      (kind == NoBuilding ==> CountBases(r) == CountBases(bs))
  {
    var r := AfterCreate(bs, kind, idx, baseHealth);
    var b := NewBuilding(kind, idx, baseHealth);
    CountBasesSnoc(bs, b);
    HasBaseCount(bs);
    if kind == BaseBuilding && !HasBase(bs) {
      assert r[|bs|] == b;
    }
    assert r[..|bs|] == bs;
  }

  /** One building's regeneration in render_buildings: a damaged building counts
      last_damaged up and, once that passes 256, gains one health point per call. */
  function Regen(b: Building): (r: Building)
    ensures r.kind == b.kind && r.gridIndex == b.gridIndex && r.maxHealth == b.maxHealth
    ensures b.health >= b.maxHealth ==> r == b
    ensures b.health < b.maxHealth ==> r.lastDamaged == b.lastDamaged + 1
    ensures r.health == b.health || r.health == b.health + 1
    ensures r.health == b.health + 1 <==> b.health < b.maxHealth && b.lastDamaged >= 256
    // health never overshoots the maximum
    ensures b.health <= b.maxHealth ==> r.health <= r.maxHealth
  {
    if b.health < b.maxHealth then
      var d := b.lastDamaged + 1;
      b.(lastDamaged := d, health := if d > 256 then b.health + 1 else b.health)
    else b
  }

  /** n successive regeneration calls on one building. */
  function RegenTimes(b: Building, n: nat): Building
    decreases n
  {
    if n == 0 then b else RegenTimes(Regen(b), n - 1)
  }

  /** A freshly damaged building waits: while last_damaged stays at or below 256 only the
      counter moves. */
  lemma {:induction false} RegenWaits(b: Building, n: nat)
    requires b.health < b.maxHealth && b.lastDamaged + n <= 256
    ensures RegenTimes(b, n) == b.(lastDamaged := b.lastDamaged + n)
    decreases n
  {
    if n > 0 {
      RegenWaits(Regen(b), n - 1);
    }
  }

  /** Once the wait is over, each call heals one point until the building is at its maximum. */
  lemma {:induction false} RegenHeals(b: Building, n: nat)
    requires b.lastDamaged >= 256 && b.health + n <= b.maxHealth
    ensures RegenTimes(b, n).health == b.health + n
    ensures RegenTimes(b, n).health <= b.maxHealth
    decreases n
  {
    if n > 0 {
      RegenHeals(Regen(b), n - 1);
    }
  }

  // ---------------------------------------------------------------------------------------
  // Placement: build_mode and seed_mode

  /** What build_mode and seed_mode read besides the tile and the selected tool: the placed
      latch, preview_mode, whether the mode itself (build_mode or seed_mode) is on, the
      mouse button, and outline_visible of the selected tool's button. */
  datatype Input = Input(placed: bool, previewMode: bool, active: bool, mouse: MouseButton,
                         outline: bool)

  /** The request a commit makes of another manager. */
  datatype Action = NoAction | PlaceTower | PlaceGoblin | CreateBase | HarvestCarrot | HarvestTomato

  /** The outcome of one build_mode or seed_mode call on one tile: the new tile, the new
      placed and preview_mode flags, the preview hint when it is redrawn, the request made of
      another manager, and whether the "plant on a field" message is posted. */
  datatype Effect = Effect(tile: Tile, placed: bool, previewMode: bool, preview: Option<Preview>,
                           action: Action, warn: bool)

  /** The state build_mode and seed_mode act on, across the managers: the game's placed and
      preview_mode flags, crop counters, target list and base location; the GUI's hint and
      messages; the tower manager's place_tower log; the enemy list; the building list. */
  datatype World = World(placed: bool, previewMode: bool, preview: Preview,
                         messages: seq<Message>, carrotAmount: nat, tomatoAmount: nat,
                         placeRequests: seq<(Pos, TileType)>, enemyVec: seq<Enemy>,
                         buildingVec: seq<Building>, targetVec: seq<Pos>, baseLocation: Option<Pos>)

  /** The hint after an effect: redrawn, or left as it was. */
  function Redrawn(before: Preview, e: Effect): Preview {
    if e.preview.Some? then e.preview.value else before
  }

  /** The state after a build_mode effect: the flags and the hint as the effect leaves them and
      its request carried out (a tower request logged, a goblin spawned, a Base handed to
      create_building). */
  function AfterBuild(w: World, e: Effect, idx: Pos, goblin: Stats, baseHealth: nat): World {
    var created := e.action == CreateBase && !HasBase(w.buildingVec);
    w.(placed := e.placed, previewMode := e.previewMode, preview := Redrawn(w.preview, e),
       placeRequests := if e.action == PlaceTower then w.placeRequests + [(idx, e.tile.tileType)]
                        else w.placeRequests,
       enemyVec := if e.action == PlaceGoblin then w.enemyVec + [Spawned(Goblin, idx, goblin)]
                   else w.enemyVec,
       buildingVec := if e.action == CreateBase then AfterCreate(w.buildingVec, BaseBuilding, idx, baseHealth)
                      else w.buildingVec,
       messages := if e.action == CreateBase then w.messages + [BaseMessage(w.buildingVec)] else w.messages,
       targetVec := if created then w.targetVec + [idx] else w.targetVec,
       baseLocation := if created then Some(idx) else w.baseLocation)
  }

  /** The state after a seed_mode effect: the flags and the hint as the effect leaves them, a
      ripe crop counted, and the "plant on a field" warning posted when the effect has one. */
  function AfterSeed(w: World, e: Effect): World {
    w.(placed := e.placed, previewMode := e.previewMode, preview := Redrawn(w.preview, e),
       messages := if e.warn then w.messages + [Message(PlantOnFieldText, 128, true)] else w.messages,
       carrotAmount := if e.action == HarvestCarrot then w.carrotAmount + 1 else w.carrotAmount,
       tomatoAmount := if e.action == HarvestTomato then w.tomatoAmount + 1 else w.tomatoAmount)
  }

  /** No build effect ever makes a second Base. */
  lemma BuildKeepsOneBase(w: World, e: Effect, idx: Pos, goblin: Stats, baseHealth: nat)
    ensures AtMostOneBase(w.buildingVec) ==>
      AtMostOneBase(AfterBuild(w, e, idx, goblin, baseHealth).buildingVec)
  {
    CreateKeepsOneBase(w.buildingVec, BaseBuilding, idx, baseHealth);
  }

  /** The first Base commit records the base and its target; a second one, anywhere, only
      posts "base already created". */
  lemma SecondBaseRefused(w: World, e1: Effect, e2: Effect, idx1: Pos, idx2: Pos, goblin: Stats,
                          baseHealth: nat)
    requires !HasBase(w.buildingVec) && e1.action == CreateBase && e2.action == CreateBase
    ensures var w1 := AfterBuild(w, e1, idx1, goblin, baseHealth);
      var w2 := AfterBuild(w1, e2, idx2, goblin, baseHealth);
      w1.baseLocation == Some(idx1) && w1.targetVec == w.targetVec + [idx1] &&
      HasBase(w1.buildingVec) &&
      w2.buildingVec == w1.buildingVec && w2.targetVec == w1.targetVec &&
      w2.baseLocation == Some(idx1) && w2.messages == w1.messages + [Message(BaseExistsText, 128, false)]
  {
    CreateKeepsOneBase(w.buildingVec, BaseBuilding, idx1, baseHealth);
  }

  /** The message create_building posts for a Base request, given the buildings so far. */
  function BaseMessage(bs: seq<Building>): Message {
    if HasBase(bs) then Message(BaseExistsText, 128, false) else Message(BaseCreatedText, 256, false)
  }

  /** A commit needs the preview to be showing and a left click. */
  predicate Commits(i: Input) {
    i.previewMode && i.mouse == Left
  }

  /** The tile condition of each build tool (the redundant comparisons are the source's). */
  predicate BuildAllowed(tool: BuildTool, placed: bool, t: Tile) {
    match tool
    case ArcherTower =>
      !placed && t.tileType == Grass && t.tileType != ArcherBottom && t.tileType != FireballBottom
    case FireballTower =>
      !placed && t.tileType == Grass && t.tileType != ArcherBottom && t.tileType != FireballBottom
    case GoblinEnemy => t.tileType == Grass && t.tileType != GoblinTile
    case WallBuild => !placed && !t.occupied && t.tileType == Grass && t.tileType != GoblinTile
    case BaseBuild => !placed && !t.occupied && t.tileType == Grass && t.tileType != BaseTile
    case OtherBuild => false
  }

  /** The tile a committed build leaves (for a Base, the tile create_building writes). */
  function BuiltTile(tool: BuildTool, t: Tile): Tile {
    match tool
    case ArcherTower => t.(tileType := ArcherBottom, data := ArcherTowerBottom)
    case FireballTower => t.(tileType := FireballBottom, data := FireballTowerBottom)
    case GoblinEnemy => t.(tileType := GoblinTile, data := Goblin)
    case WallBuild => t.(tileType := Wall, texture := TextureTileWall, data := NoData)
    case BaseBuild => t.(tileType := BaseTile, data := Base)
    case OtherBuild => t
  }

  function BuildAction(tool: BuildTool): Action {
    match tool
    case ArcherTower => PlaceTower
    case FireballTower => PlaceTower
    case GoblinEnemy => PlaceGoblin
    case BaseBuild => CreateBase
    case _ => NoAction
  }

  function BuildPreview(tool: BuildTool, idx: Pos): Preview {
    match tool
    case ArcherTower =>
      Preview(TexturePreviewTowerArcherBottom, NoTexture, TexturePreviewTowerArcherTop, NoTexture, idx)
    case FireballTower =>
      Preview(TexturePreviewTowerFireballBottom, NoTexture, TexturePreviewTowerFireballTop, NoTexture, idx)
    case GoblinEnemy => Preview(TexturePreviewGoblinEnemy, NoTexture, NoTexture, NoTexture, idx)
    case WallBuild => Preview(TexturePreviewCobblestone, NoTexture, NoTexture, NoTexture, idx)
    case _ =>
      Preview(TexturePreviewHouseBottomLeft, TexturePreviewHouseBottomRight,
              TexturePreviewHouseTopLeft, TexturePreviewHouseTopRight, idx)
  }

  /** Reference outcome of build_mode. */
  function Build(tool: BuildTool, i: Input, t: Tile, idx: Pos): Effect
  {
    if tool == OtherBuild then Effect(t, i.placed, i.previewMode, None, NoAction, false)
    else if BuildAllowed(tool, i.placed, t) then
      if Commits(i) then Effect(BuiltTile(tool, t), true, i.previewMode, None, BuildAction(tool), false)
      else if i.active && i.outline then
        Effect(t, i.placed, true, Some(BuildPreview(tool, idx)), NoAction, false)
      else Effect(t, i.placed, false, None, NoAction, false)
    else Effect(t, i.placed, false, None, NoAction, false)
  }

  /** What build_mode promises on every input. */
  lemma BuildRules(tool: BuildTool, i: Input, t: Tile, idx: Pos)
    // the tile and the placed latch change only on a commit
    ensures var e := Build(tool, i, t, idx);
      e.tile != t || e.placed != i.placed || e.action != NoAction ==>
        Commits(i) && BuildAllowed(tool, i.placed, t) && e.tile == BuiltTile(tool, t) &&
        e.tile != t && e.placed && e.action == BuildAction(tool)
    // Archer, Fireball, Wall and Base commit nothing while placed is set; Goblin has no latch
    ensures var e := Build(tool, i, t, idx);
      i.placed && tool != GoblinEnemy ==> e.tile == t && e.placed && e.action == NoAction
    ensures var e := Build(tool, i, t, idx);
      tool == GoblinEnemy && t.tileType == Grass && Commits(i) ==>
        e.tile.tileType == GoblinTile && e.action == PlaceGoblin
    // the preview branch changes only preview_mode and the hint
    ensures var e := Build(tool, i, t, idx);
      e.preview.Some? <==>
        tool != OtherBuild && BuildAllowed(tool, i.placed, t) && !Commits(i) && i.active && i.outline
    ensures var e := Build(tool, i, t, idx);
      e.preview.Some? ==>
        e.previewMode && e.tile == t && e.placed == i.placed && e.preview.value.index == idx
    // preview_mode is switched on only by the preview branch, and off by a failed condition
    ensures var e := Build(tool, i, t, idx);
      e.previewMode && !i.previewMode ==> e.preview.Some?
    ensures var e := Build(tool, i, t, idx);
      tool != OtherBuild && !BuildAllowed(tool, i.placed, t) ==>
        e.tile == t && !e.previewMode && e.placed == i.placed && e.preview.None?
    ensures var e := Build(tool, i, t, idx);
      tool == OtherBuild ==> e == Effect(t, i.placed, i.previewMode, None, NoAction, false)
    // a commit keeps the counter, the occupancy and the remembered type of the tile
    ensures var e := Build(tool, i, t, idx);
      e.tile.state == t.state && e.tile.occupied == t.occupied
    ensures var e := Build(tool, i, t, idx);
      e.tile.originalType == t.originalType
    ensures var e := Build(tool, i, t, idx);
      !e.warn && e.action in {NoAction, PlaceTower, PlaceGoblin, CreateBase}
  {
  }

  /** The tile types a hoe acts on. */
  predicate HoAllowed(t: Tile) {
    t.tileType == Grass || t.tileType == FieldHarvestable || t.tileType == FieldGrowing ||
    t.tileType == FieldEmpty
  }

  /** What harvesting a tile asks for: one more carrot or tomato for a ripe crop. */
  function HarvestAction(t: Tile): Action {
    if t.tileType == FieldHarvestable && t.data == Carrots then HarvestCarrot
    else if t.tileType == FieldHarvestable && t.data == Tomatoes then HarvestTomato
    else NoAction
  }

  function ToolPreview(tex: Texture, idx: Pos): Preview {
    Preview(tex, NoTexture, NoTexture, NoTexture, idx)
  }

  /** The preview-or-clear fallback every seed tool shares once its tile condition holds. */
  function SeedHint(i: Input, t: Tile, tex: Texture, idx: Pos): Effect {
    if i.active && i.outline then Effect(t, i.placed, true, Some(ToolPreview(tex, idx)), NoAction, false)
    else Effect(t, i.placed, false, None, NoAction, false)
  }

  /** The sowing tools: warn on a click outside a field, commit on an empty field. */
  function Sow(i: Input, t: Tile, crop: TileData, tex: Texture, idx: Pos): Effect {
    if t.tileType != FieldEmpty then Effect(t, i.placed, false, None, NoAction, i.mouse == Left)
    else if Commits(i) then
      Effect(t.(tileType := FieldEmpty, texture := TextureFieldSeeds, data := crop), true,
             i.previewMode, Some(ToolPreview(tex, idx)), NoAction, false)
    else SeedHint(i, t, tex, idx)
  }

  /** Reference outcome of seed_mode. */
  function Seed(tool: SeedTool, i: Input, t: Tile, idx: Pos): Effect
  {
    match tool
    case Shovel =>
      if Commits(i) then
        var restored := t.(tileType := t.originalType);
        var textured := if restored.tileType == Grass then restored.(texture := TextureTileGrass)
                        else restored;
        Effect(textured.(data := NoData), i.placed, i.previewMode,
               Some(ToolPreview(TextureButtonShovel, idx)), NoAction, false)
      else SeedHint(i, t, TextureButtonShovel, idx)
    case Ho =>
      if HoAllowed(t) then
        if Commits(i) then
          Effect(t.(tileType := FieldEmpty, texture := TextureFieldEmpty, data := NoData), true,
                 i.previewMode, Some(ToolPreview(TextureButtonHo, idx)), HarvestAction(t), false)
        else SeedHint(i, t, TextureButtonHo, idx)
      else Effect(t, i.placed, false, None, NoAction, false)
    case CarrotSeed => Sow(i, t, Carrots, TextureFieldCarrot, idx)
    case TomatoSeed => Sow(i, t, Tomatoes, TextureFieldTomato, idx)
    case OtherSeed => Effect(t, i.placed, i.previewMode, None, NoAction, false)
  }

  /** What seed_mode promises on every input. */
  lemma SeedRules(tool: SeedTool, i: Input, t: Tile, idx: Pos)
    // the tile changes only on a commit, and every commit redraws the hint at the tile
    ensures var e := Seed(tool, i, t, idx);
      e.tile != t ==> (Commits(i) && e.preview.Some? && e.preview.value.index == idx)
    // the shovel restores the remembered type without touching the latch
    ensures var e := Seed(tool, i, t, idx);
      tool == Shovel && Commits(i) ==>
        e.tile.tileType == t.originalType && e.tile.data == NoData && e.placed == i.placed &&
        e.tile.state == t.state && e.tile.occupied == t.occupied
    ensures var e := Seed(tool, i, t, idx);
      tool == Shovel ==> e.placed == i.placed && e.action == NoAction
    // the hoe: only on grass or field tiles; one counter for a ripe crop; an empty field,
    // with no data and the counter kept
    ensures var e := Seed(tool, i, t, idx);
      tool == Ho && Commits(i) && HoAllowed(t) ==>
        e.tile == t.(tileType := FieldEmpty, texture := TextureFieldEmpty, data := NoData) &&
        e.placed && e.action == HarvestAction(t)
    ensures var e := Seed(tool, i, t, idx);
      tool != Ho || !HoAllowed(t) || !Commits(i) ==> e.action == NoAction
    ensures var e := Seed(tool, i, t, idx);
      e.action == HarvestCarrot <==>
        tool == Ho && Commits(i) && t.tileType == FieldHarvestable && t.data == Carrots
    ensures var e := Seed(tool, i, t, idx);
      e.action == HarvestTomato <==>
        tool == Ho && Commits(i) && t.tileType == FieldHarvestable && t.data == Tomatoes
    // the seeds: only on an empty field, and only the crop and texture change
    ensures var e := Seed(tool, i, t, idx);
      (tool == CarrotSeed || tool == TomatoSeed) && e.tile != t ==>
        t.tileType == FieldEmpty &&
        e.tile == t.(texture := TextureFieldSeeds, data := if tool == CarrotSeed then Carrots else Tomatoes)
    ensures var e := Seed(tool, i, t, idx);
      (tool == CarrotSeed || tool == TomatoSeed) && t.tileType == FieldEmpty && Commits(i) ==>
        e.placed && e.tile.data == (if tool == CarrotSeed then Carrots else Tomatoes)
    ensures var e := Seed(tool, i, t, idx);
      e.warn <==>
        (tool == CarrotSeed || tool == TomatoSeed) && i.mouse == Left && t.tileType != FieldEmpty
    // the latch is only ever set, and only by a hoe or seed commit
    ensures var e := Seed(tool, i, t, idx);
      e.placed != i.placed ==> e.placed && Commits(i) && tool != Shovel
    // preview_mode is switched on only by the preview branch
    ensures var e := Seed(tool, i, t, idx);
      e.previewMode && !i.previewMode ==> e.preview.Some? && e.tile == t
    ensures var e := Seed(tool, i, t, idx);
      tool == OtherSeed ==> e == Effect(t, i.placed, i.previewMode, None, NoAction, false)
  {
  }

  /** What update_buildings reads from the game besides the latch and the preview flag: the
      selected tools, which modes are on, the mouse button, and outline_visible of the
      selected buttons. */
  datatype Controls = Controls(build: BuildTool, seed: SeedTool, buildOn: bool, seedOn: bool,
                               mouse: MouseButton, buildOutline: bool, seedOutline: bool)

  /** The tile and state after update_buildings' two mode calls: build_mode when build mode is
      on, then seed_mode when seed mode is on, reading the flags build_mode left behind. */
  function Modes(w: World, c: Controls, t: Tile, idx: Pos, goblin: Stats, baseHealth: nat)
    : (Tile, World)
  {
    var b := Build(c.build, Input(w.placed, w.previewMode, true, c.mouse, c.buildOutline), t, idx);
    var bt := if c.buildOn then b.tile else t;
    var bw := if c.buildOn then AfterBuild(w, b, idx, goblin, baseHealth) else w;
    var s := Seed(c.seed, Input(bw.placed, bw.previewMode, true, c.mouse, c.seedOutline), bt, idx);
    if c.seedOn then (s.tile, AfterSeed(bw, s)) else (bt, bw)
  }

  /** What the two mode calls promise together. */
  lemma ModesRules(w: World, c: Controls, t: Tile, idx: Pos, goblin: Stats, baseHealth: nat)
    // with at most one mode on, the tile still changes only on a commit of a showing preview
    ensures var r := Modes(w, c, t, idx, goblin, baseHealth);
      !(c.buildOn && c.seedOn) && r.0 != t ==> w.previewMode && c.mouse == Left
    // with neither mode on nothing changes
    ensures !c.buildOn && !c.seedOn ==> Modes(w, c, t, idx, goblin, baseHealth) == (t, w)
    // and no Base is ever doubled
    ensures AtMostOneBase(w.buildingVec) ==>
      AtMostOneBase(Modes(w, c, t, idx, goblin, baseHealth).1.buildingVec)
  {
    var b := Build(c.build, Input(w.placed, w.previewMode, true, c.mouse, c.buildOutline), t, idx);
    var bw := if c.buildOn then AfterBuild(w, b, idx, goblin, baseHealth) else w;
    var bt := if c.buildOn then b.tile else t;
    BuildRules(c.build, Input(w.placed, w.previewMode, true, c.mouse, c.buildOutline), t, idx);
    SeedRules(c.seed, Input(bw.placed, bw.previewMode, true, c.mouse, c.seedOutline), bt, idx);
    BuildKeepsOneBase(w, b, idx, goblin, baseHealth);
  }

  /** With both modes on, one left click can commit a seed tool without a preview having been
      shown: build_mode's preview branch switches preview_mode on just before seed_mode reads
      it. Key handling keeps the two modes exclusive, which rules this out. */
  lemma BothModesCommitWithoutPreview(w: World, t: Tile, idx: Pos, goblin: Stats, baseHealth: nat)
    requires t.tileType == Grass && !t.occupied && !w.placed && !w.previewMode
    ensures var r := Modes(w, Controls(WallBuild, Ho, true, true, Left, true, true), t, idx,
                           goblin, baseHealth);
      r.0 != t && r.0.tileType == FieldEmpty && r.1.placed
  {
  }

  /** The Goblin branch of build_mode commits even when the latch is set, so one preview can
      place any number of goblins, unlike every other build tool. */
  lemma GoblinIgnoresLatch(t: Tile, idx: Pos)
    requires t.tileType == Grass
    ensures var i := Input(true, true, true, Left, true);
      Build(GoblinEnemy, i, t, idx).action == PlaceGoblin &&
      Build(ArcherTower, i, t, idx).action == NoAction &&
      Build(WallBuild, i, t, idx).action == NoAction
  {
  }

  /** A committed build sets the latch, so the same click cannot commit a second time with
      any latched tool. */
  lemma LatchBlocksSecondCommit(tool: BuildTool, i: Input, t: Tile, idx: Pos)
    requires tool != GoblinEnemy
    ensures var e := Build(tool, i, t, idx);
      var e2 := Build(tool, i.(placed := e.placed, previewMode := e.previewMode), e.tile, idx);
      e.action != NoAction ==> e2.tile == e.tile && e2.action == NoAction
  {
  }

  /** A hoe commit on a ripe field and then a seed commit plant the same field again: the hoe
      empties it and the seed puts a new crop on a FieldEmpty tile. */
  lemma HarvestThenSow(t: Tile, i: Input, idx: Pos)
    requires t.tileType == FieldHarvestable && HasCrop(t.data) && Commits(i)
    ensures var h := Seed(Ho, i, t, idx);
      var s := Seed(CarrotSeed, i.(placed := h.placed, previewMode := h.previewMode), h.tile, idx);
      h.action != NoAction && h.tile.tileType == FieldEmpty && h.tile.state == t.state &&
      s.tile.tileType == FieldEmpty && s.tile.data == Carrots && !s.warn
  {
  }

  class BuildingManager {
    var buildingVec: seq<Building>
    /** BUILDING_BASE_HEALTH and CROP_TIME. */
    const baseHealth: nat
    const cropTime: nat

    constructor (baseHealth: nat, cropTime: nat)
      ensures buildingVec == [] && this.baseHealth == baseHealth && this.cropTime == cropTime
    {
      buildingVec := [];
      this.baseHealth := baseHealth;
      this.cropTime := cropTime;
    }

    /** The `any` scan of create_building over the building list. */
    static method FindBase(bs: seq<Building>) returns (found: bool)
      ensures found <==> HasBase(bs)
    {
      found := false;
      var k := 0;
      while k < |bs| && !found
        invariant 0 <= k <= |bs|
        invariant found <==> exists j :: 0 <= j < k && bs[j].kind == BaseBuilding
      {
        found := bs[k].kind == BaseBuilding;
        k := k + 1;
      }
    }

    /** create_building: a Base request always turns the tile into a Base tile but records a
        building, the base location and a new target only when no Base exists yet. */
    method CreateBuilding(game: GameManager, gui: Gui, kind: BuildingType, tile: Tile, idx: Pos)
      returns (t: Tile)
      modifies this`buildingVec, game`baseLocation, game`targetVec, gui`messages
      ensures buildingVec == AfterCreate(old(buildingVec), kind, idx, baseHealth)
      ensures AtMostOneBase(old(buildingVec)) ==> AtMostOneBase(buildingVec)
      ensures kind == BaseBuilding ==> t == tile.(tileType := BaseTile, data := Base)
      ensures kind == NoBuilding ==> t == tile
      ensures kind == BaseBuilding && !HasBase(old(buildingVec)) ==>
        game.baseLocation == Some(idx) && game.targetVec == old(game.targetVec) + [idx] &&
        gui.messages == old(gui.messages) + [Message(BaseCreatedText, 256, false)]
      ensures kind == BaseBuilding && HasBase(old(buildingVec)) ==>
        gui.messages == old(gui.messages) + [Message(BaseExistsText, 128, false)]
      ensures !(kind == BaseBuilding && !HasBase(old(buildingVec))) ==>
        game.baseLocation == old(game.baseLocation) && game.targetVec == old(game.targetVec)
      ensures kind == NoBuilding ==> gui.messages == old(gui.messages)
      // the building list and the target list grow together
      ensures kind == BaseBuilding ==>
        |buildingVec| - |old(buildingVec)| == |game.targetVec| - |old(game.targetVec)|
    {
      CreateKeepsOneBase(old(buildingVec), kind, idx, baseHealth);
      t := tile;
      match kind {
        case BaseBuilding =>
          t := t.(tileType := BaseTile, data := Base);
          var building := Building(BaseBuilding, idx, 0, baseHealth, baseHealth);
          var hasBase := FindBase(buildingVec);
          if !hasBase {
            gui.messages := gui.messages + [Message(BaseCreatedText, 256, false)];
            buildingVec := buildingVec + [building];
            game.baseLocation := Some(idx);
            game.targetVec := game.targetVec + [game.baseLocation.value];
          } else {
            gui.messages := gui.messages + [Message(BaseExistsText, 128, false)];
          }
        case NoBuilding =>
          var building := Building(NoBuilding, idx, 0, 0, 0);
          buildingVec := buildingVec + [building];
      }
    }

    /** The regeneration lines of render_buildings, run over every building in order. */
    method RegenBuildings()
      modifies this`buildingVec
      ensures |buildingVec| == |old(buildingVec)|
      ensures forall k :: 0 <= k < |buildingVec| ==> buildingVec[k] == Regen(old(buildingVec)[k])
      ensures CountBases(buildingVec) == CountBases(old(buildingVec))
    {
      var k := 0;
      while k < |buildingVec|
        invariant 0 <= k <= |buildingVec| == |old(buildingVec)|
        invariant forall j :: 0 <= j < k ==> buildingVec[j] == Regen(old(buildingVec)[j])
        invariant forall j :: k <= j < |buildingVec| ==> buildingVec[j] == old(buildingVec)[j]
      {
        var b := buildingVec[k];
        if b.health < b.maxHealth {
          b := b.(lastDamaged := b.lastDamaged + 1);
          if b.lastDamaged > 256 {
            b := b.(health := b.health + 1);
          }
        }
        buildingVec := buildingVec[k := b];
        k := k + 1;
      }
      SameKindsSameCount(buildingVec, old(buildingVec));
    }

    /** The state the two modes act on, read from the managers. */
    function WorldOf(game: GameManager, towers: TowerManager, enemies: EnemyManager, gui: Gui): World
      reads this`buildingVec, game`placed, game`previewMode, game`carrotAmount, game`tomatoAmount
      reads game`targetVec, game`baseLocation, towers`placeRequests, enemies`enemyVec
      reads gui`preview, gui`messages
    {
      World(game.placed, game.previewMode, gui.preview, gui.messages, game.carrotAmount,
            game.tomatoAmount, towers.placeRequests, enemies.enemyVec, buildingVec,
            game.targetVec, game.baseLocation)
    }

    /** The Carrot branch of seed_mode: warn on a click outside a field; a commit on an empty
        field sows carrots. */
    method CarrotBranch(game: GameManager, towers: TowerManager, enemies: EnemyManager, gui: Gui,
                        outline: bool, tile: Tile, idx: Pos,
                        ghost w: World)
      returns (t: Tile)
      requires WorldOf(game, towers, enemies, gui) == w
      modifies game`placed, game`previewMode, gui`preview, gui`messages
      ensures var e := Sow(Input(w.placed, w.previewMode, game.seedMode, game.mouseButton, outline),
                           tile, Carrots, TextureFieldCarrot, idx);
        t == e.tile && WorldOf(game, towers, enemies, gui) == AfterSeed(w, e)
    {
      if game.mouseButton == Left && tile.tileType != FieldEmpty {
        gui.messages := gui.messages + [Message(PlantOnFieldText, 128, true)];
      }
      t := tile;
      if t.tileType == FieldEmpty {
        if game.previewMode && game.mouseButton == Left {
          game.placed := true;
          t := t.(tileType := FieldEmpty, texture := TextureFieldSeeds, data := Carrots);
          gui.preview := Preview(TextureFieldCarrot, NoTexture, NoTexture, NoTexture, idx);
        } else if game.seedMode && outline {
          game.previewMode := true;
          gui.preview := Preview(TextureFieldCarrot, NoTexture, NoTexture, NoTexture, idx);
        } else {
          game.previewMode := false;
        }
      } else if game.previewMode {
        game.previewMode := false;
      }
    }

    /** The Tomato branch of seed_mode: the Carrot branch with tomatoes. */
    method TomatoBranch(game: GameManager, towers: TowerManager, enemies: EnemyManager, gui: Gui,
                        outline: bool, tile: Tile, idx: Pos,
                        ghost w: World)
      returns (t: Tile)
      requires WorldOf(game, towers, enemies, gui) == w
      modifies game`placed, game`previewMode, gui`preview, gui`messages
      ensures var e := Sow(Input(w.placed, w.previewMode, game.seedMode, game.mouseButton, outline),
                           tile, Tomatoes, TextureFieldTomato, idx);
        t == e.tile && WorldOf(game, towers, enemies, gui) == AfterSeed(w, e)
    {
      if game.mouseButton == Left && tile.tileType != FieldEmpty {
        gui.messages := gui.messages + [Message(PlantOnFieldText, 128, true)];
      }
      t := tile;
      if t.tileType == FieldEmpty {
        if game.previewMode && game.mouseButton == Left {
          game.placed := true;
          t := t.(tileType := FieldEmpty, texture := TextureFieldSeeds, data := Tomatoes);
          gui.preview := Preview(TextureFieldTomato, NoTexture, NoTexture, NoTexture, idx);
        } else if game.seedMode && outline {
          game.previewMode := true;
          gui.preview := Preview(TextureFieldTomato, NoTexture, NoTexture, NoTexture, idx);
        } else {
          game.previewMode := false;
        }
      } else if game.previewMode {
        game.previewMode := false;
      }
    }

    /** build_mode on one tile. `outline` is outline_visible of the selected build button. */
    method BuildMode(game: GameManager, towers: TowerManager, enemies: EnemyManager, gui: Gui,
                     outline: bool, tile: Tile, idx: Pos,
                     ghost w: World)
      returns (t: Tile)
      requires WorldOf(game, towers, enemies, gui) == w
      modifies this`buildingVec, game`placed, game`previewMode, game`baseLocation, game`targetVec
      modifies towers`placeRequests, enemies`enemyVec, gui`preview, gui`messages
      ensures var e := Build(game.currentBuild,
                       Input(w.placed, w.previewMode, game.buildMode, game.mouseButton, outline), tile, idx);
        t == e.tile && WorldOf(game, towers, enemies, gui) == AfterBuild(w, e, idx, enemies.goblin, baseHealth)
      ensures AtMostOneBase(w.buildingVec) ==> AtMostOneBase(buildingVec)
    {
      BuildKeepsOneBase(w, Build(game.currentBuild, Input(game.placed, game.previewMode, game.buildMode,
                                                       game.mouseButton, outline), tile, idx),
                        idx, enemies.goblin, baseHealth);
      match game.currentBuild {
        case ArcherTower => t := TowerBranch(game, towers, enemies, gui, outline, tile, idx, ArcherTower,
                                             WorldOf(game, towers, enemies, gui));
        case FireballTower => t := TowerBranch(game, towers, enemies, gui, outline, tile, idx, FireballTower,
                                               WorldOf(game, towers, enemies, gui));
        case GoblinEnemy => t := GoblinBranch(game, towers, enemies, gui, outline, tile, idx,
                                              WorldOf(game, towers, enemies, gui));
        case WallBuild => t := WallBranch(game, towers, enemies, gui, outline, tile, idx,
                                          WorldOf(game, towers, enemies, gui));
        case BaseBuild => t := BaseBranch(game, towers, enemies, gui, outline, tile, idx,
                                          WorldOf(game, towers, enemies, gui));
        case OtherBuild => t := tile;
      }
    }

    /** The Archer and Fireball branches of build_mode, which differ only in the tower's tile
        and its hint. A commit asks the tower manager to place the tower. */
    method TowerBranch(game: GameManager, towers: TowerManager, enemies: EnemyManager, gui: Gui,
                       outline: bool, tile: Tile, idx: Pos, tool: BuildTool,
                       ghost w: World)
      returns (t: Tile)
      requires WorldOf(game, towers, enemies, gui) == w
      requires tool == ArcherTower || tool == FireballTower
      modifies game`placed, game`previewMode, towers`placeRequests, gui`preview
      ensures var e := Build(tool, Input(w.placed, w.previewMode, game.buildMode, game.mouseButton, outline),
                       tile, idx);
        t == e.tile && WorldOf(game, towers, enemies, gui) == AfterBuild(w, e, idx, enemies.goblin, baseHealth)
    {
      t := tile;
      var isNotATower := t.tileType != ArcherBottom && t.tileType != FireballBottom;
      if !game.placed && t.tileType == Grass && isNotATower {
        if game.previewMode && game.mouseButton == Left {
          game.placed := true;
          if tool == ArcherTower {
            t := t.(tileType := ArcherBottom, data := ArcherTowerBottom);
          } else {
            t := t.(tileType := FireballBottom, data := FireballTowerBottom);
          }
          towers.placeRequests := towers.placeRequests + [(idx, t.tileType)];
        } else if game.buildMode && outline {
          game.previewMode := true;
          if tool == ArcherTower {
            gui.preview := Preview(TexturePreviewTowerArcherBottom, NoTexture,
                                   TexturePreviewTowerArcherTop, NoTexture, idx);
          } else {
            gui.preview := Preview(TexturePreviewTowerFireballBottom, NoTexture,
                                   TexturePreviewTowerFireballTop, NoTexture, idx);
          }
        } else {
          game.previewMode := false;
        }
      } else if game.previewMode {
        game.previewMode := false;
      }
    }

    /** The Goblin branch of build_mode: no latch check; a commit spawns an enemy. */
    method GoblinBranch(game: GameManager, towers: TowerManager, enemies: EnemyManager, gui: Gui,
                        outline: bool, tile: Tile, idx: Pos,
                        ghost w: World)
      returns (t: Tile)
      requires WorldOf(game, towers, enemies, gui) == w
      modifies game`placed, game`previewMode, enemies`enemyVec, gui`preview
      ensures var e := Build(GoblinEnemy, Input(w.placed, w.previewMode, game.buildMode, game.mouseButton,
                                          outline), tile, idx);
        t == e.tile && WorldOf(game, towers, enemies, gui) == AfterBuild(w, e, idx, enemies.goblin, baseHealth)
    {
      t := tile;
      if t.tileType == Grass && t.tileType != GoblinTile {
        if game.previewMode && game.mouseButton == Left {
          game.placed := true;
          t := t.(tileType := GoblinTile, data := Goblin);
          enemies.PlaceEnemy(t, idx);
        } else if game.buildMode && outline {
          game.previewMode := true;
          gui.preview := Preview(TexturePreviewGoblinEnemy, NoTexture, NoTexture, NoTexture, idx);
        } else {
          game.previewMode := false;
        }
      } else if game.previewMode {
        game.previewMode := false;
      }
    }

    /** The Wall branch of build_mode: a commit turns grass into a wall in place. */
    method WallBranch(game: GameManager, towers: TowerManager, enemies: EnemyManager, gui: Gui,
                      outline: bool, tile: Tile, idx: Pos,
                      ghost w: World)
      returns (t: Tile)
      requires WorldOf(game, towers, enemies, gui) == w
      modifies game`placed, game`previewMode, gui`preview
      ensures var e := Build(WallBuild, Input(w.placed, w.previewMode, game.buildMode, game.mouseButton,
                                        outline), tile, idx);
        t == e.tile && WorldOf(game, towers, enemies, gui) == AfterBuild(w, e, idx, enemies.goblin, baseHealth)
    {
      t := tile;
      if !game.placed && !t.occupied && t.tileType == Grass && t.tileType != GoblinTile {
        if game.previewMode && game.mouseButton == Left {
          game.placed := true;
          t := t.(tileType := Wall, texture := TextureTileWall, data := NoData);
        } else if game.buildMode && outline {
          game.previewMode := true;
          gui.preview := Preview(TexturePreviewCobblestone, NoTexture, NoTexture, NoTexture, idx);
        } else {
          game.previewMode := false;
        }
      } else if game.previewMode {
        game.previewMode := false;
      }
    }

    /** The Base branch of build_mode: a commit hands the tile to create_building. */
    method BaseBranch(game: GameManager, towers: TowerManager, enemies: EnemyManager, gui: Gui,
                      outline: bool, tile: Tile, idx: Pos,
                      ghost w: World)
      returns (t: Tile)
      requires WorldOf(game, towers, enemies, gui) == w
      modifies this`buildingVec, game`placed, game`previewMode, game`baseLocation, game`targetVec
      modifies gui`preview, gui`messages
      ensures var e := Build(BaseBuild, Input(w.placed, w.previewMode, game.buildMode, game.mouseButton,
                                        outline), tile, idx);
        t == e.tile && WorldOf(game, towers, enemies, gui) == AfterBuild(w, e, idx, enemies.goblin, baseHealth)
    {
      t := tile;
      if !game.placed && !t.occupied && t.tileType == Grass && t.tileType != BaseTile {
        if game.previewMode && game.mouseButton == Left {
          game.placed := true;
          t := CreateBuilding(game, gui, BaseBuilding, t, idx);
        } else if game.buildMode && outline {
          game.previewMode := true;
          gui.preview := Preview(TexturePreviewHouseBottomLeft, TexturePreviewHouseBottomRight,
                                 TexturePreviewHouseTopLeft, TexturePreviewHouseTopRight, idx);
        } else {
          game.previewMode := false;
        }
      } else if game.previewMode {
        game.previewMode := false;
      }
    }

    /** seed_mode on one tile. `outline` is outline_visible of the selected seed button. */
    method SeedMode(game: GameManager, towers: TowerManager, enemies: EnemyManager, gui: Gui,
                    outline: bool, tile: Tile, idx: Pos,
                    ghost w: World)
      returns (t: Tile)
      requires WorldOf(game, towers, enemies, gui) == w
      modifies game`placed, game`previewMode, game`carrotAmount, game`tomatoAmount
      modifies gui`preview, gui`messages
      ensures var e := Seed(game.currentSeed,
                      Input(w.placed, w.previewMode, game.seedMode, game.mouseButton, outline), tile, idx);
        t == e.tile && WorldOf(game, towers, enemies, gui) == AfterSeed(w, e)
    {
      match game.currentSeed {
        case Shovel => t := ShovelBranch(game, towers, enemies, gui, outline, tile, idx,
                                         WorldOf(game, towers, enemies, gui));
        case Ho => t := HoBranch(game, towers, enemies, gui, outline, tile, idx,
                                 WorldOf(game, towers, enemies, gui));
        case CarrotSeed =>
          t := CarrotBranch(game, towers, enemies, gui, outline, tile, idx,
                            WorldOf(game, towers, enemies, gui));
        case TomatoSeed =>
          t := TomatoBranch(game, towers, enemies, gui, outline, tile, idx,
                            WorldOf(game, towers, enemies, gui));
        case OtherSeed => t := tile;
      }
    }

    /** The Shovel branch of seed_mode: a commit restores the remembered tile type; it has no
        tile condition and does not set the latch. */
    method ShovelBranch(game: GameManager, towers: TowerManager, enemies: EnemyManager, gui: Gui,
                        outline: bool, tile: Tile, idx: Pos,
                        ghost w: World)
      returns (t: Tile)
      requires WorldOf(game, towers, enemies, gui) == w
      modifies game`previewMode, gui`preview
      ensures var e := Seed(Shovel, Input(w.placed, w.previewMode, game.seedMode, game.mouseButton, outline),
                      tile, idx);
        t == e.tile && WorldOf(game, towers, enemies, gui) == AfterSeed(w, e)
    {
      t := tile;
      if game.previewMode && game.mouseButton == Left {
        t := t.(tileType := t.originalType);
        if t.tileType == Grass {
          t := t.(texture := TextureTileGrass);
        }
        t := t.(data := NoData);
        gui.preview := Preview(TextureButtonShovel, NoTexture, NoTexture, NoTexture, idx);
      } else if game.seedMode && outline {
        game.previewMode := true;
        gui.preview := Preview(TextureButtonShovel, NoTexture, NoTexture, NoTexture, idx);
      } else {
        game.previewMode := false;
      }
    }

    /** The Ho branch of seed_mode: a commit harvests a ripe crop into its counter and leaves
        an empty field. */
    method HoBranch(game: GameManager, towers: TowerManager, enemies: EnemyManager, gui: Gui,
                    outline: bool, tile: Tile, idx: Pos,
                    ghost w: World)
      returns (t: Tile)
      requires WorldOf(game, towers, enemies, gui) == w
      modifies game`placed, game`previewMode, game`carrotAmount, game`tomatoAmount, gui`preview
      ensures var e := Seed(Ho, Input(w.placed, w.previewMode, game.seedMode, game.mouseButton, outline),
                      tile, idx);
        t == e.tile && WorldOf(game, towers, enemies, gui) == AfterSeed(w, e)
    {
      t := tile;
      if t.tileType == Grass || t.tileType == FieldHarvestable || t.tileType == FieldGrowing ||
         t.tileType == FieldEmpty {
        if game.previewMode && game.mouseButton == Left {
          t := HoCommit(game, gui, t, idx);
        } else if game.seedMode && outline {
          game.previewMode := true;
          gui.preview := Preview(TextureButtonHo, NoTexture, NoTexture, NoTexture, idx);
        } else {
          game.previewMode := false;
        }
      } else if game.previewMode {
        game.previewMode := false;
      }
    }

    /** The commit of the Ho branch: count a ripe crop, then dig the tile into an empty field. */
    static method HoCommit(game: GameManager, gui: Gui, tile: Tile, idx: Pos) returns (t: Tile)
      modifies game`placed, game`carrotAmount, game`tomatoAmount, gui`preview
      ensures t == tile.(tileType := FieldEmpty, texture := TextureFieldEmpty, data := NoData)
      ensures game.placed && gui.preview == ToolPreview(TextureButtonHo, idx)
      ensures game.carrotAmount ==
        if HarvestAction(tile) == HarvestCarrot then old(game.carrotAmount) + 1 else old(game.carrotAmount)
      ensures game.tomatoAmount ==
        if HarvestAction(tile) == HarvestTomato then old(game.tomatoAmount) + 1 else old(game.tomatoAmount)
    {
      t := tile;
      game.placed := true;
      if t.tileType == FieldHarvestable {
        match t.data {
          case Carrots => game.carrotAmount := game.carrotAmount + 1;
          case Tomatoes => game.tomatoAmount := game.tomatoAmount + 1;
          case _ =>
        }
      }
      t := t.(tileType := FieldEmpty, texture := TextureFieldEmpty, data := NoData);
      gui.preview := Preview(TextureButtonHo, NoTexture, NoTexture, NoTexture, idx);
    }

    /** The two mode calls of update_buildings, build_mode first. */
    method RunModes(game: GameManager, towers: TowerManager, enemies: EnemyManager, gui: Gui,
                    buildOutline: bool, seedOutline: bool, tile: Tile, idx: Pos,
                    ghost w: World)
      returns (t: Tile)
      requires WorldOf(game, towers, enemies, gui) == w
      modifies this`buildingVec, game`placed, game`previewMode, game`baseLocation, game`targetVec
      modifies game`carrotAmount, game`tomatoAmount
      modifies towers`placeRequests, enemies`enemyVec, gui`preview, gui`messages
      ensures var c := Controls(game.currentBuild, game.currentSeed, game.buildMode, game.seedMode,
                                game.mouseButton, buildOutline, seedOutline);
        (t, WorldOf(game, towers, enemies, gui)) ==
          Modes(w, c, tile, idx, enemies.goblin, baseHealth)
      ensures AtMostOneBase(w.buildingVec) ==> AtMostOneBase(buildingVec)
    {
      t := tile;
      if game.buildMode {
        t := BuildMode(game, towers, enemies, gui, buildOutline, t, idx,
                       WorldOf(game, towers, enemies, gui));
      }
      if game.seedMode {
        t := SeedMode(game, towers, enemies, gui, seedOutline, t, idx,
                      WorldOf(game, towers, enemies, gui));
      }
    }

    /** update_buildings on one tile: when the pointer is on the tile (`onTile`, for
        Rect::contains_point) and not over a button, run the modes that are on; then the
        farm growth step, whatever happened before. */
    method UpdateBuildings(game: GameManager, towers: TowerManager, enemies: EnemyManager,
                           gui: Gui, buildOutline: bool, seedOutline: bool, onTile: bool,
                           tile: Tile, idx: Pos)
      returns (t: Tile)
      modifies this`buildingVec, game`placed, game`previewMode, game`baseLocation, game`targetVec
      modifies game`carrotAmount, game`tomatoAmount
      modifies towers`placeRequests, enemies`enemyVec, gui`preview, gui`messages
      ensures var w := old(WorldOf(game, towers, enemies, gui));
        var c := Controls(game.currentBuild, game.currentSeed, game.buildMode, game.seedMode,
                          game.mouseButton, buildOutline, seedOutline);
        var r := if !game.hoveringButton && onTile then Modes(w, c, tile, idx, enemies.goblin, baseHealth)
                 else (tile, w);
        t == FarmStep(r.0, cropTime) && WorldOf(game, towers, enemies, gui) == r.1
      ensures AtMostOneBase(old(buildingVec)) ==> AtMostOneBase(buildingVec)
    {
      t := tile;
      if !game.hoveringButton && onTile {
        t := RunModes(game, towers, enemies, gui, buildOutline, seedOutline, t, idx,
                      WorldOf(game, towers, enemies, gui));
      }
      t := UpdateFarms(t, cropTime);
    }
  }
}
