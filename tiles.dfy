/** The tile record shared by the building and enemy code, and the grid that holds it.
    The record carries the union of the fields those files use (tile_type, original_type,
    tile_data, state, is_occupied, texture_path). */
module Tiles {

  datatype Option<T> = None | Some(value: T)

  /** The TILE_TYPE_* constants; only their distinctness matters. */
  datatype TileType =
    | Grass | Wall | Floor
    | FieldEmpty | FieldGrowing | FieldHarvestable
    | ArcherBottom | FireballBottom
    | GoblinTile | BaseTile

  /** What a tile carries besides its type (TileData). */
  datatype TileData =
    | NoData | Carrots | Tomatoes
    | ArcherTowerBottom | FireballTowerBottom
    | Goblin | Base

  /** Texture paths, kept as opaque tags. NoTexture is the empty path "". */
  datatype Texture =
    | NoTexture
    | TextureDefault
    | TextureTileEmpty | TextureTileWall | TextureTileFloor | TextureTileGrass
    | TextureFieldEmpty | TextureFieldSeeds | TextureFieldGrowing
    | TextureFieldCarrot | TextureFieldTomato
    | TexturePreviewTowerArcherBottom | TexturePreviewTowerArcherTop
    | TexturePreviewTowerFireballBottom | TexturePreviewTowerFireballTop
    | TexturePreviewGoblinEnemy | TexturePreviewCobblestone
    | TexturePreviewHouseBottomLeft | TexturePreviewHouseBottomRight
    | TexturePreviewHouseTopLeft | TexturePreviewHouseTopRight
    | TextureButtonShovel | TextureButtonHo
    | TextureGoblinEnemyFront

  datatype Tile = Tile(
    tileType: TileType,
    originalType: TileType,
    data: TileData,
    state: nat,
    occupied: bool,
    texture: Texture)

  /** A grid coordinate (usize, usize); the first component is the outer index. */
  type Pos = (nat, nat)

  type Grid = seq<seq<Tile>>

  predicate HasCrop(d: TileData) {
    d == Carrots || d == Tomatoes
  }

  predicate IsField(t: TileType) {
    t == FieldEmpty || t == FieldGrowing || t == FieldHarvestable
  }

  predicate InGrid(g: Grid, p: Pos) {
    p.0 < |g| && p.1 < |g[p.0]|
  }

  function At(g: Grid, p: Pos): Tile
    requires InGrid(g, p)
  {
    g[p.0][p.1]
  }

  /** The grid with the tile at p replaced by t. */
  function SetAt(g: Grid, p: Pos, t: Tile): (r: Grid)
    requires InGrid(g, p)
    ensures |r| == |g| && forall i :: 0 <= i < |g| ==> |r[i]| == |g[i]|
    ensures At(r, p) == t
    ensures forall q :: InGrid(g, q) && q != p ==> At(r, q) == At(g, q)
  {
    g[p.0 := g[p.0][p.1 := t]]
  }

  /** A second write to the same position overrides the first. */
  lemma SetAtTwice(g: Grid, p: Pos, t1: Tile, t2: Tile)
    requires InGrid(g, p)
    ensures SetAt(SetAt(g, p, t1), p, t2) == SetAt(g, p, t2)
  {
    assert g[p.0][p.1 := t1][p.1 := t2] == g[p.0][p.1 := t2];
  }

  /** All coordinates of the grid. */
  function Cells(g: Grid): (cs: set<Pos>)
    ensures forall p: Pos :: p in cs <==> InGrid(g, p)
  {
    set x: nat, y: nat | x < |g| && y < |g[x]| :: (x, y)
  }

  /** The grid the building and enemy code index as level.level_vec[a][b]. */
  class Level {
    var levelVec: Grid

    constructor (g: Grid)
      ensures levelVec == g
    {
      levelVec := g;
    }
  }
}
