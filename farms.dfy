/** The per-tile farm growth step run by update_buildings on every tile (update_farms in
    the building code). CROP_TIME is a parameter: only its value matters, not a literal. */
module Farms {
  import opened Tiles

  /** Reference definition of one growth step, written as a case table over the tile after
      its counter update. */
  function FarmStep(t: Tile, cropTime: nat): (r: Tile)
    // the step never touches the crop, the occupancy or the remembered type
    ensures r.data == t.data && r.occupied == t.occupied && r.originalType == t.originalType
    // the counter grows by one, stays, or is reset by a transition
    ensures r.state == t.state + 1 || r.state == t.state || r.state == 0
    ensures r.state == t.state + 1 ==> HasCrop(t.data) && IsField(t.tileType)
    ensures HasCrop(t.data) && IsField(t.tileType) ==> r.state == t.state + 1 || r.state == 0
    ensures !(HasCrop(t.data) && IsField(t.tileType)) ==> r.state == t.state || r.state == 0
    ensures r.tileType != t.tileType ==> r.state == 0
    // only the two growing stages have outgoing transitions
    ensures t.tileType != FieldEmpty && t.tileType != FieldGrowing ==> r.tileType == t.tileType
    ensures t.tileType == FieldHarvestable ==>
      r == t.(state := if HasCrop(t.data) then t.state + 1 else t.state)
    // FieldEmpty reaching CROP_TIME
    ensures t.tileType == FieldEmpty && HasCrop(t.data) && t.state + 1 == cropTime ==>
      r.tileType == FieldGrowing && r.state == 0 && r.texture == TextureFieldGrowing
    ensures t.tileType == FieldEmpty && !HasCrop(t.data) && t.state == cropTime ==>
      r.tileType == FieldEmpty && r.state == 0 && r.texture == TextureDefault
    // FieldGrowing reaching CROP_TIME
    ensures t.tileType == FieldGrowing && t.data == Carrots && t.state + 1 == cropTime ==>
      r.tileType == FieldHarvestable && r.state == 0 && r.texture == TextureFieldCarrot
    ensures t.tileType == FieldGrowing && t.data == Tomatoes && t.state + 1 == cropTime ==>
      r.tileType == FieldHarvestable && r.state == 0 && r.texture == TextureFieldTomato
    ensures t.tileType == FieldGrowing && !HasCrop(t.data) && t.state == cropTime ==>
      r.tileType == Grass && r.state == 0 && r.texture == TextureDefault
    // a tile moves at most one stage per step, whatever CROP_TIME is
    ensures t.tileType == FieldEmpty ==> r.tileType in {FieldEmpty, FieldGrowing}
    ensures t.tileType == FieldGrowing ==>
      r.tileType in {FieldGrowing, FieldHarvestable, Grass}
  {
    var s := if HasCrop(t.data) && IsField(t.tileType) then t.state + 1 else t.state;
    match t.tileType
    case FieldEmpty =>
      if s != cropTime then t.(state := s)
      else if !HasCrop(t.data) then t.(texture := TextureDefault, state := 0)
      // with a crop the counter is already at least 1 here, so the FieldGrowing check that
      // follows in the source cannot fire in the same step
      else t.(tileType := FieldGrowing, texture := TextureFieldGrowing, state := 0)
    case FieldGrowing =>
      if s != cropTime then t.(state := s)
      else if HasCrop(t.data) then t.(tileType := FieldHarvestable, texture := HarvestTexture(t.data), state := 0)
      else t.(tileType := Grass, texture := TextureDefault, state := 0)
    case _ => t.(state := s)
  }

  /** The texture a ripe field shows for its crop. */
  function HarvestTexture(d: TileData): Texture
    requires HasCrop(d)
  {
    if d == Carrots then TextureFieldCarrot else TextureFieldTomato
  }

  /** update_farms as the source runs it: the counter update, then the FieldEmpty check,
      then the FieldGrowing check, each on the tile as the previous one left it. */
  method UpdateFarms(tile: Tile, cropTime: nat) returns (t: Tile)
    ensures t == FarmStep(tile, cropTime)
  {
    t := tile;
    if HasCrop(t.data) {
      if IsField(t.tileType) {
        t := t.(state := t.state + 1);
      }
    }
    if t.tileType == FieldEmpty && t.state == cropTime {
      if HasCrop(t.data) {
        t := t.(tileType := FieldGrowing, texture := TextureFieldGrowing, state := 0);
      } else {
        t := t.(tileType := FieldEmpty, texture := TextureDefault, state := 0);
      }
    }
    if t.tileType == FieldGrowing && t.state == cropTime {
      if t.data == Carrots {
        t := t.(tileType := FieldHarvestable, texture := TextureFieldCarrot, state := 0);
      } else if t.data == Tomatoes {
        t := t.(tileType := FieldHarvestable, texture := TextureFieldTomato, state := 0);
      } else {
        t := t.(tileType := Grass, texture := TextureDefault, state := 0);
      }
    }
  }

  /** n successive growth steps. */
  function FarmSteps(t: Tile, n: nat, cropTime: nat): Tile
    decreases n
  {
    if n == 0 then t else FarmSteps(FarmStep(t, cropTime), n - 1, cropTime)
  }

  lemma {:induction false} FarmStepsSplit(t: Tile, m: nat, n: nat, cropTime: nat)
    ensures FarmSteps(t, m + n, cropTime) == FarmSteps(FarmSteps(t, m, cropTime), n, cropTime)
    decreases m
  {
    if m > 0 {
      FarmStepsSplit(FarmStep(t, cropTime), m - 1, n, cropTime);
    }
  }

  /** A planted stage tile below CROP_TIME only counts up: k steps later it has the same
      type and its counter is k higher, as long as it stays below CROP_TIME. */
  lemma {:induction false} CountsUpBelowCropTime(t: Tile, k: nat, cropTime: nat)
    requires t.tileType == FieldEmpty || t.tileType == FieldGrowing
    requires HasCrop(t.data)
    requires t.state + k < cropTime
    ensures FarmSteps(t, k, cropTime) == t.(state := t.state + k)
    decreases k
  {
    if k > 0 {
      var t1 := FarmStep(t, cropTime);
      assert t1 == t.(state := t.state + 1);
      CountsUpBelowCropTime(t1, k - 1, cropTime);
    }
  }

  /** A planted stage tile with counter 0 takes exactly CROP_TIME steps to reach its next
      stage, arriving there with counter 0 and that stage's texture. */
  lemma StageTakesCropTime(t: Tile, cropTime: nat)
    requires t.tileType == FieldEmpty || t.tileType == FieldGrowing
    requires HasCrop(t.data) && t.state == 0 && cropTime > 0
    ensures FarmSteps(t, cropTime, cropTime) ==
      if t.tileType == FieldEmpty then t.(tileType := FieldGrowing, texture := TextureFieldGrowing)
      else t.(tileType := FieldHarvestable, texture := HarvestTexture(t.data))
  {
    CountsUpBelowCropTime(t, cropTime - 1, cropTime);
    FarmStepsSplit(t, cropTime - 1, 1, cropTime);
    var before := t.(state := cropTime - 1);
    assert FarmSteps(before, 1, cropTime) == FarmStep(before, cropTime);
  }

  /** Growth round trip: a freshly planted empty field is FieldGrowing after CROP_TIME steps
      and ripe, showing its crop's texture, after another CROP_TIME steps. */
  lemma GrowthRoundTrip(t: Tile, cropTime: nat)
    requires t.tileType == FieldEmpty && HasCrop(t.data) && t.state == 0 && cropTime > 0
    ensures FarmSteps(t, cropTime, cropTime) ==
      t.(tileType := FieldGrowing, texture := TextureFieldGrowing)
    ensures FarmSteps(t, 2 * cropTime, cropTime) ==
      t.(tileType := FieldHarvestable, texture := HarvestTexture(t.data))
  {
    StageTakesCropTime(t, cropTime);
    var g := FarmSteps(t, cropTime, cropTime);
    StageTakesCropTime(g, cropTime);
    FarmStepsSplit(t, cropTime, cropTime, cropTime);
  }

  /** A ripe field never leaves FieldHarvestable by growth; a planted one keeps counting. */
  lemma {:induction false} HarvestableKeepsCounting(t: Tile, n: nat, cropTime: nat)
    requires t.tileType == FieldHarvestable
    ensures FarmSteps(t, n, cropTime) ==
      t.(state := if HasCrop(t.data) then t.state + n else t.state)
    decreases n
  {
    if n > 0 {
      HarvestableKeepsCounting(FarmStep(t, cropTime), n - 1, cropTime);
    }
  }
}
