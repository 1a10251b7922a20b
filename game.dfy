/** The parts of GameManager, GUIManager and TowerManager that the simulation core reads
    and writes. Their own source files are not part of this model: they appear here only as
    the fields the core touches. */
module Game {
  import opened Tiles

  datatype MouseButton = Unknown | Left | Middle | Right | X1 | X2

  /** The CURRENT_BUILD_* selections handled by build_mode; OtherBuild is any other value. */
  datatype BuildTool = ArcherTower | FireballTower | GoblinEnemy | WallBuild | BaseBuild | OtherBuild

  /** The CURRENT_SEED_* selections handled by seed_mode; OtherSeed is any other value. */
  datatype SeedTool = Shovel | Ho | CarrotSeed | TomatoSeed | OtherSeed

  class GameManager {
    var placed: bool
    var previewMode: bool
    var buildMode: bool
    var seedMode: bool
    var hoveringButton: bool
    var currentBuild: BuildTool
    var currentSeed: SeedTool
    var mouseButton: MouseButton
    var mousePoint: (int, int)
    var carrotAmount: nat
    var tomatoAmount: nat
    var targetVec: seq<Pos>
    var baseLocation: Option<Pos>
    var frameTime: nat
    var isPathfinding: bool
    var quit: bool
    var up: bool
    var down: bool
    var left: bool
    var right: bool
  }

  /** The placement hint shown by the GUI: four texture tags and the tile it is drawn at. */
  datatype Preview = Preview(
    bottomLeft: Texture, bottomRight: Texture, topLeft: Texture, topRight: Texture, index: Pos)

  /** One call of create_message (unique == false) or create_unique_message (unique == true). */
  datatype Message = Message(text: string, duration: nat, unique: bool)

  class Gui {
    var preview: Preview
    var messages: seq<Message>
  }

  /** The tower list, and a log of the place_tower calls the core makes. What place_tower
      itself does is not part of this model. */
  class TowerManager {
    var towerVec: seq<Pos>
    var placeRequests: seq<(Pos, TileType)>
  }
}
