/** The level manager: the level grid built by create_level or loaded by read_file, one
    character per tile, and the older farm logic of update_farms, which works on the
    character-typed LevelTile of this file ('0' empty, '2' wall, '3' floor, 'F' field,
    'G' growing, 'H' harvestable) rather than on the tile record of the building code. */
module Levels {
  import opened Tiles
  import opened Game
  import opened Farms

  /** The TileData of this file, which has no Goblin or Base. */
  datatype OldData = OldCarrots | OldTomatoes | OldArcherTower | OldNone

  datatype LevelTile = LevelTile(tileType: char, prevType: char, texture: Texture, state: nat,
                                 data: OldData)

  predicate OldHasCrop(d: OldData) {
    d == OldCarrots || d == OldTomatoes
  }

  /** The characters read_file turns into tiles. */
  predicate Recognised(ch: char) {
    ch == '0' || ch == '2' || ch == '3' || ch == 'F'
  }

  /** The tile create_level puts everywhere. */
  const EmptyTile: LevelTile := LevelTile('0', '0', TextureTileEmpty, 0, OldNone)

  /** The tile read_file makes of one character, if it makes one: the character is both its
      type and its previous type, with that character's texture, counter 0 and no data. */
  function ParseChar(ch: char): (r: Option<LevelTile>)
    ensures r.Some? <==> Recognised(ch)
    ensures r.Some? ==>
      r.value.tileType == ch && r.value.prevType == ch && r.value.state == 0 &&
      r.value.data == OldNone
    ensures ch == '0' ==> r == Some(EmptyTile)
  {
    match ch
    case '0' => Some(LevelTile(ch, ch, TextureTileEmpty, 0, OldNone))
    case '2' => Some(LevelTile(ch, ch, TextureTileWall, 0, OldNone))
    case '3' => Some(LevelTile(ch, ch, TextureTileFloor, 0, OldNone))
    case 'F' => Some(LevelTile(ch, ch, TextureFieldEmpty, 0, OldNone))
    case _ => None
  }

  function AsSeq<T>(o: Option<T>): seq<T> {
    if o.Some? then [o.value] else []
  }

  /** The row read_file builds from one line. */
  function ParseLine(line: string): seq<LevelTile>
    decreases |line|
  {
    if line == [] then []
    else ParseLine(line[..|line| - 1]) + AsSeq(ParseChar(line[|line| - 1]))
  }

  /** Reference definition: the recognised characters of a line, in order. */
  function Kept(line: string): (r: string)
    ensures forall k :: 0 <= k < |r| ==> Recognised(r[k])
    decreases |line|
  {
    if line == [] then []
    else Kept(line[..|line| - 1]) + (if Recognised(line[|line| - 1]) then [line[|line| - 1]] else [])
  }

  /** A row has one tile per recognised character, in the same order, each typed by its
      character. */
  lemma {:induction false} ParseLineKept(line: string)
    ensures |ParseLine(line)| == |Kept(line)|
    ensures forall k :: 0 <= k < |Kept(line)| ==> ParseLine(line)[k] == ParseChar(Kept(line)[k]).value
    decreases |line|
  {
    if line != [] {
      ParseLineKept(line[..|line| - 1]);
    }
  }

  /** The number of tiles in a row is the number of '0', '2', '3' and 'F' characters of its
      line; every other character is dropped. */
  lemma {:induction false} KeptCount(line: string)
    ensures |Kept(line)| ==
      multiset(line)['0'] + multiset(line)['2'] + multiset(line)['3'] + multiset(line)['F']
    decreases |line|
  {
    if line != [] {
      var init, last := line[..|line| - 1], line[|line| - 1];
      KeptCount(init);
      assert line == init + [last];
      assert multiset(line) == multiset(init) + multiset{last};
    }
  }

  /** Every loaded tile carries its own character as type and previous type, counter 0 and
      no data. */
  lemma LoadedTiles(line: string, k: nat)
    requires k < |ParseLine(line)|
    ensures var t := ParseLine(line)[k];
      t.tileType == t.prevType && Recognised(t.tileType) && t.state == 0 && t.data == OldNone
  {
    ParseLineKept(line);
  }

  /** The line contents, when every line could be read. */
  predicate AllRead(lines: seq<Option<string>>) {
    forall k :: 0 <= k < |lines| ==> lines[k].Some?
  }

  class LevelManager {
    var levelVec: seq<seq<LevelTile>>

    constructor ()
      ensures levelVec == []
    {
      levelVec := [];
    }

    /** create_level: append height rows of width empty tiles to the level. */
    method CreateLevel(height: nat, width: nat)
      modifies this`levelVec
      ensures |levelVec| == |old(levelVec)| + height
      ensures levelVec[..|old(levelVec)|] == old(levelVec)
      ensures forall r :: |old(levelVec)| <= r < |levelVec| ==> |levelVec[r]| == width
      ensures forall r, c :: |old(levelVec)| <= r < |levelVec| && 0 <= c < |levelVec[r]| ==>
        levelVec[r][c] == EmptyTile
    {
      ghost var before := levelVec;
      var done := 0;
      while done < height
        invariant 0 <= done <= height
        invariant |levelVec| == |before| + done && levelVec[..|before|] == before
        invariant forall r :: |before| <= r < |levelVec| ==> |levelVec[r]| == width
        invariant forall r, c :: |before| <= r < |levelVec| && 0 <= c < |levelVec[r]| ==>
          levelVec[r][c] == EmptyTile
      {
        var row: seq<LevelTile> := [];
        var i := 0;
        while i < width
          invariant 0 <= i <= width && |row| == i
          invariant forall c :: 0 <= c < i ==> row[c] == EmptyTile
        {
          row := row + [LevelTile('0', '0', TextureTileEmpty, 0, OldNone)];
          i := i + 1;
        }
        levelVec := levelVec + [row];
        done := done + 1;
      }
    }

    /** read_file over the file's lines: `file` is None when the file cannot be opened, and
        a line is None when reading it fails. On either error the level is left as it was;
        otherwise it is replaced by one row per line. */
    method ReadFile(file: Option<seq<Option<string>>>) returns (ok: bool)
      modifies this`levelVec
      ensures ok <==> file.Some? && AllRead(file.value)
      ensures !ok ==> levelVec == old(levelVec)
      ensures ok ==> (|levelVec| == |file.value| &&
        forall r :: 0 <= r < |levelVec| ==> levelVec[r] == ParseLine(file.value[r].value))
    {
      if file.None? {
        return false;
      }
      var lines := file.value;
      var tempVec: seq<seq<LevelTile>> := [];
      var n := 0;
      while n < |lines|
        invariant 0 <= n <= |lines| && |tempVec| == n
        invariant forall k :: 0 <= k < n ==> lines[k].Some?
        invariant forall r :: 0 <= r < n ==> tempVec[r] == ParseLine(lines[r].value)
      {
        if lines[n].None? {
          return false;
        }
        var line := lines[n].value;
        var rowVec: seq<LevelTile> := [];
        var i := 0;
        while i < |line|
          invariant 0 <= i <= |line| && rowVec == ParseLine(line[..i])
        {
          var ch := line[i];
          assert line[..i + 1][..i] == line[..i];
          match ParseChar(ch) {
            case Some(tile) => rowVec := rowVec + [tile];
            case None =>
          }
          i := i + 1;
        }
        assert line[..i] == line;
        tempVec := tempVec + [rowVec];
        n := n + 1;
      }
      levelVec := tempVec;
      return true;
    }
  }

  // ---------------------------------------------------------------------------------------
  // The older farm logic

  /** The CURRENT_BUILD_HO and CURRENT_BUILD_FIELD selections this variant handles. */
  datatype OldTool = OldHo | OldField | OldOtherTool

  /** What the click part of the old update_farms reads: whether the pointer is on the tile
      (Rect::contains_point), the mouse button, build_mode and its tool, seed_mode and the
      numeric seed selection. */
  datatype OldClick = OldClick(onTile: bool, mouse: MouseButton, buildMode: bool, tool: OldTool,
                               seedMode: bool, seed: nat)

  predicate Clicked(c: OldClick) {
    c.onTile && c.mouse == Left
  }

  /** The hoe applies only to a tile whose previous type is '0'. */
  predicate OldHoApplies(t: LevelTile, c: OldClick) {
    Clicked(c) && c.buildMode && c.tool == OldHo && t.prevType == '0'
  }

  /** The counter step: only planted 'F', 'G' and 'H' tiles count. */
  function OldCount(t: LevelTile): (r: LevelTile)
    ensures r == t ||
      (r == t.(state := t.state + 1) && OldHasCrop(t.data) &&
       (t.tileType == 'F' || t.tileType == 'G' || t.tileType == 'H'))
    ensures OldHasCrop(t.data) && (t.tileType == 'F' || t.tileType == 'G' || t.tileType == 'H') ==>
      r.state == t.state + 1
  {
    if OldHasCrop(t.data) && (t.tileType == 'F' || t.tileType == 'G' || t.tileType == 'H') then
      t.(state := t.state + 1)
    else t
  }

  /** The crop a hoe click harvests from the (already counted) tile, if any. */
  function OldHarvest(t: LevelTile, c: OldClick): (r: Option<OldData>)
    ensures r.Some? ==> OldHoApplies(t, c) && t.tileType == 'H' && r.value == t.data
    ensures r == Some(OldCarrots) <==> OldHoApplies(t, c) && t.tileType == 'H' && t.data == OldCarrots
    ensures r == Some(OldTomatoes) <==> OldHoApplies(t, c) && t.tileType == 'H' && t.data == OldTomatoes
  {
    if OldHoApplies(t, c) && t.tileType == 'H' && OldHasCrop(t.data) then Some(t.data) else None
  }

  /** The click edits: the hoe or the field tool first, then a seed on a field. */
  function OldClickTile(t: LevelTile, c: OldClick): (r: LevelTile)
    ensures r.state == t.state && r.prevType == t.prevType
    ensures !Clicked(c) ==> r == t
    // the hoe, where it applies, leaves an empty field
    ensures OldHoApplies(t, c) && !c.seedMode ==> r.tileType == 'F' && r.data == OldNone
    ensures Clicked(c) && c.buildMode && c.tool == OldHo && t.prevType != '0' && !c.seedMode ==> r == t
    // a seed planted on a field keeps it a field and sets the crop
    ensures Clicked(c) && !c.buildMode && c.seedMode && t.tileType == 'F' && c.seed <= 1 ==>
      r.tileType == 'F' && r.data == (if c.seed == 0 then OldCarrots else OldTomatoes)
    ensures Clicked(c) && !c.buildMode && c.seedMode && c.seed > 1 ==> r == t
    // the type, if it changes, becomes 'F'
    ensures r.tileType != t.tileType ==> r.tileType == 'F'
  {
    if !Clicked(c) then t
    else
      var b := if !c.buildMode then t
               else if c.tool == OldHo && t.prevType == '0' then
                 t.(tileType := 'F', texture := TextureFieldEmpty, data := OldNone)
               else if c.tool == OldField then
                 t.(tileType := 'F', texture := TextureDefault, data := OldNone)
               else t;
      if c.seedMode && b.tileType == 'F' && c.seed == 0 then
        b.(tileType := 'F', texture := TextureFieldSeeds, data := OldCarrots)
      else if c.seedMode && b.tileType == 'F' && c.seed == 1 then
        b.(tileType := 'F', texture := TextureFieldSeeds, data := OldTomatoes)
      else b
  }

  /** The two growth checks, in order: 'F' at CROP_TIME, then 'G' at CROP_TIME. */
  function OldGrow(t: LevelTile, cropTime: nat): (r: LevelTile)
    ensures r.data == t.data && r.prevType == t.prevType
    ensures t.state != cropTime || (t.tileType != 'F' && t.tileType != 'G') ==> r == t
    // 'F' moves on with a crop and skips to 'H' without one
    ensures t.tileType == 'F' && t.state == cropTime && cropTime > 0 ==>
      r.tileType == (if OldHasCrop(t.data) then 'G' else 'H') && r.state == 0
    // 'G' always becomes 'H'
    ensures t.tileType == 'G' && t.state == cropTime ==> r.tileType == 'H' && r.state == 0
    ensures t.tileType == 'G' && t.state == cropTime ==>
      r.texture == match t.data
                   case OldCarrots => TextureFieldCarrot
                   case OldTomatoes => TextureFieldTomato
                   case _ => TextureFieldEmpty
  {
    var f := if t.tileType == 'F' && t.state == cropTime then
               if OldHasCrop(t.data) then t.(tileType := 'G', texture := TextureFieldGrowing, state := 0)
               else t.(tileType := 'H', texture := TextureFieldEmpty, state := 0)
             else t;
    if f.tileType == 'G' && f.state == cropTime then
      match f.data
      case OldCarrots => f.(tileType := 'H', texture := TextureFieldCarrot, state := 0)
      case OldTomatoes => f.(tileType := 'H', texture := TextureFieldTomato, state := 0)
      case _ => f.(tileType := 'H', texture := TextureFieldEmpty, state := 0)
    else f
  }

  /** The whole old update_farms on one tile. */
  function OldUpdate(t: LevelTile, c: OldClick, cropTime: nat): LevelTile {
    OldGrow(OldClickTile(OldCount(t), c), cropTime)
  }

  /** With CROP_TIME > 0 an untouched tile moves at most one stage per call. */
  lemma OldOneStage(t: LevelTile, c: OldClick, cropTime: nat)
    requires cropTime > 0 && !Clicked(c)
    ensures var r := OldUpdate(t, c, cropTime);
      (t.tileType == 'F' ==> r.tileType in {'F', 'G', 'H'}) &&
      (t.tileType == 'G' ==> r.tileType in {'G', 'H'}) &&
      (t.tileType != 'F' && t.tileType != 'G' ==> r.tileType == t.tileType)
  {
  }

  /** The two variants disagree on a field without a crop whose counter stands at CROP_TIME:
      the old one turns it into 'H', the new one keeps it FieldEmpty. */
  lemma VariantsDisagree(cropTime: nat)
    requires cropTime > 0
    ensures OldGrow(LevelTile('F', 'F', TextureFieldEmpty, cropTime, OldNone), cropTime).tileType == 'H'
    ensures FarmStep(Tile(FieldEmpty, FieldEmpty, NoData, cropTime, false, TextureFieldEmpty), cropTime)
      .tileType == FieldEmpty
  {
  }

  /** update_farms of the level manager. The hoe and seed selections are parameters: this
      variant compares current_build and current_seed with constants the building code does
      not use. */
  method OldUpdateFarms(game: GameManager, tile: LevelTile, onTile: bool, tool: OldTool,
                        seed: nat, cropTime: nat)
    returns (t: LevelTile)
    modifies game`carrotAmount, game`tomatoAmount
    ensures var c := OldClick(onTile, game.mouseButton, game.buildMode, tool, game.seedMode, seed);
      var h := OldHarvest(OldCount(tile), c);
      t == OldUpdate(tile, c, cropTime) &&
      game.carrotAmount == old(game.carrotAmount) + (if h == Some(OldCarrots) then 1 else 0) &&
      game.tomatoAmount == old(game.tomatoAmount) + (if h == Some(OldTomatoes) then 1 else 0)
  {
    t := tile;
    match t.data {
      case OldCarrots =>
        if t.tileType == 'F' || t.tileType == 'G' || t.tileType == 'H' {
          t := t.(state := t.state + 1);
        }
      case OldTomatoes =>
        if t.tileType == 'F' || t.tileType == 'G' || t.tileType == 'H' {
          t := t.(state := t.state + 1);
        }
      case _ =>
    }
    if onTile && game.mouseButton == Left {
      t := OldClickEdits(game, t, tool, seed);
    }
    t := OldGrowth(t, cropTime);
  }

  /** The click block of the old update_farms, run on a left click on the tile. */
  method OldClickEdits(game: GameManager, tile: LevelTile, tool: OldTool, seed: nat)
    returns (t: LevelTile)
    requires game.mouseButton == Left
    modifies game`carrotAmount, game`tomatoAmount
    ensures var c := OldClick(true, game.mouseButton, game.buildMode, tool, game.seedMode, seed);
      var h := OldHarvest(tile, c);
      t == OldClickTile(tile, c) &&
      game.carrotAmount == old(game.carrotAmount) + (if h == Some(OldCarrots) then 1 else 0) &&
      game.tomatoAmount == old(game.tomatoAmount) + (if h == Some(OldTomatoes) then 1 else 0)
  {
    t := tile;
    if game.buildMode {
      match tool {
        case OldHo =>
          if t.prevType == '0' {
            if t.tileType == 'H' {
              match t.data {
                case OldCarrots => game.carrotAmount := game.carrotAmount + 1;
                case OldTomatoes => game.tomatoAmount := game.tomatoAmount + 1;
                case _ =>
              }
            }
            t := t.(tileType := 'F', texture := TextureFieldEmpty, data := OldNone);
          }
        case OldField =>
          t := t.(tileType := 'F', texture := TextureDefault, data := OldNone);
        case OldOtherTool =>
      }
    }
    if game.seedMode && t.tileType == 'F' {
      if seed == 0 {
        t := t.(tileType := 'F', texture := TextureFieldSeeds, data := OldCarrots);
      } else if seed == 1 {
        t := t.(tileType := 'F', texture := TextureFieldSeeds, data := OldTomatoes);
      }
    }
  }

  /** The two growth blocks of the old update_farms. */
  method OldGrowth(tile: LevelTile, cropTime: nat) returns (t: LevelTile)
    ensures t == OldGrow(tile, cropTime)
  {
    t := tile;
    if t.tileType == 'F' && t.state == cropTime {
      if OldHasCrop(t.data) {
        t := t.(tileType := 'G', texture := TextureFieldGrowing, state := 0);
      } else {
        t := t.(tileType := 'H', texture := TextureFieldEmpty, state := 0);
      }
    }
    if t.tileType == 'G' && t.state == cropTime {
      match t.data {
        case OldCarrots => t := t.(tileType := 'H', texture := TextureFieldCarrot, state := 0);
        case OldTomatoes => t := t.(tileType := 'H', texture := TextureFieldTomato, state := 0);
        case _ => t := t.(tileType := 'H', texture := TextureFieldEmpty, state := 0);
      }
    }
  }
}
