/**
 * The sprite cache (`SpriteManager`).  A decoded bitmap is an opaque value
 * with a "recycled" flag; the app's asset folder is a map from file path to
 * the bitmap that path decodes to (a path that is absent fails to open or
 * decodes to null).
 */
module Sprites {
  import opened Wrappers
  import opened JavaText

  datatype Bitmap = Bitmap(id: nat, recycled: bool)

  type Assets = map<string, Bitmap>

  const SPRITES_BASE_PATH := "Sprites/"
  const CHARACTERS_DIR := "Characters/"
  const BACKGROUNDS_DIR := "Backgrounds/"
  const TILES_DIR := "Tiles/"
  const ENEMIES_DIR := "Enemies/"

  const CHARACTER_PREFIX := "character_"
  const TERRAIN_PREFIX := "terrain_"

  const CHARACTER_COLORS: seq<string> := ["beige", "green", "pink", "purple", "yellow"]
  const CHARACTER_ACTIONS: seq<string> :=
    ["climb_a", "climb_b", "duck", "front", "hit", "idle", "jump", "walk_a", "walk_b"]

  const BACKGROUND_SPRITES: seq<string> := [
    "background_clouds", "background_color_desert", "background_color_hills",
    "background_color_mushrooms", "background_color_trees", "background_fade_desert",
    "background_fade_hills", "background_fade_mushrooms", "background_fade_trees",
    "background_solid_cloud", "background_solid_dirt", "background_solid_grass",
    "background_solid_sand", "background_solid_sky"]

  const ENEMY_SPRITES: seq<string> := [
    "barnacle_attack_a", "barnacle_attack_b", "barnacle_attack_rest",
    "bee_a", "bee_b", "bee_rest",
    "block_fall", "block_idle", "block_rest",
    "fish_blue_rest", "fish_blue_swim_a", "fish_blue_swim_b",
    "fish_purple_down", "fish_purple_rest", "fish_purple_up",
    "fish_yellow_rest", "fish_yellow_swim_a", "fish_yellow_swim_b",
    "fly_a", "fly_b", "fly_rest",
    "frog_idle", "frog_jump", "frog_rest",
    "ladybug_fly", "ladybug_rest", "ladybug_walk_a", "ladybug_walk_b",
    "mouse_rest", "mouse_walk_a", "mouse_walk_b",
    "saw_a", "saw_b", "saw_rest",
    "slime_block_jump", "slime_block_rest", "slime_block_walk_a", "slime_block_walk_b",
    "slime_fire_flat", "slime_fire_rest", "slime_fire_walk_a", "slime_fire_walk_b",
    "slime_normal_flat", "slime_normal_rest", "slime_normal_walk_a", "slime_normal_walk_b",
    "slime_spike_flat", "slime_spike_rest", "slime_spike_walk_a", "slime_spike_walk_b",
    "snail_rest", "snail_shell", "snail_walk_a", "snail_walk_b",
    "worm_normal_move_a", "worm_normal_move_b", "worm_normal_rest",
    "worm_ring_move_a", "worm_ring_move_b", "worm_ring_rest"]

  const TILE_SPRITES: seq<string> := [
    "block_blue", "block_coin", "block_coin_active", "block_empty", "block_empty_warning",
    "block_exclamation", "block_exclamation_active", "block_green", "block_plank",
    "block_planks", "block_red", "block_spikes", "block_yellow",
    "block_strong_coin", "block_strong_coin_active", "block_strong_danger",
    "block_strong_danger_active", "block_strong_empty", "block_strong_empty_active",
    "block_strong_exclamation", "block_strong_exclamation_active",
    "bomb", "bomb_active", "bridge", "bridge_logs", "bush", "cactus", "chain",
    "coin_bronze", "coin_bronze_side", "coin_gold", "coin_gold_side",
    "coin_silver", "coin_silver_side",
    "door_closed", "door_closed_top", "door_open", "door_open_top",
    "flag_blue_a", "flag_blue_b", "flag_green_a", "flag_green_b", "flag_off",
    "flag_red_a", "flag_red_b", "flag_yellow_a", "flag_yellow_b",
    "gem_blue", "gem_green", "gem_red", "gem_yellow",
    "key_blue", "key_green", "key_red", "key_yellow",
    "lock_blue", "lock_green", "lock_red", "lock_yellow",
    "terrain_dirt_block", "terrain_grass_block", "terrain_stone_block", "terrain_sand_block"]

  /** The terrain blocks that close the tile list. */
  const TERRAIN_BLOCKS: seq<string> :=
    ["terrain_dirt_block", "terrain_grass_block", "terrain_stone_block", "terrain_sand_block"]

  const TERRAIN_TYPES: seq<string> := ["dirt", "grass", "purple", "sand", "snow", "stone"]
  const TERRAIN_VARIATIONS: seq<string> := ["block", "cloud", "horizontal", "vertical", "ramp_left", "ramp_right"]

  function FilePath(dir: string, name: string): string {
    SPRITES_BASE_PATH + dir + name + ".png"
  }

  /** `loadSingleSprite` succeeds: the file opens and decodes to a live bitmap. */
  predicate Loadable(assets: Assets, dir: string, name: string) {
    FilePath(dir, name) in assets && !assets[FilePath(dir, name)].recycled
  }

  /** How many of `names` load, counted in list order. */
  function Count(assets: Assets, dir: string, names: seq<string>): nat
    decreases |names|
  {
    if names == [] then 0
    else Count(assets, dir, names[..|names| - 1]) + (if Loadable(assets, dir, names[|names| - 1]) then 1 else 0)
  }

  /** The cache after trying each of `names` in order, starting from `c`. */
  function Cached(c: map<string, Bitmap>, assets: Assets, dir: string, names: seq<string>): map<string, Bitmap>
    decreases |names|
  {
    if names == [] then c
    else
      var c' := Cached(c, assets, dir, names[..|names| - 1]);
      var name := names[|names| - 1];
      if Loadable(assets, dir, name) then c'[name := assets[FilePath(dir, name)]] else c'
  }

  lemma {:induction false} CountAppend(assets: Assets, dir: string, a: seq<string>, b: seq<string>)
    ensures Count(assets, dir, a + b) == Count(assets, dir, a) + Count(assets, dir, b)
    decreases |b|
  {
    if b != [] {
      assert (a + b)[..|a + b| - 1] == a + b[..|b| - 1];
      CountAppend(assets, dir, a, b[..|b| - 1]);
    } else {
      assert a + b == a;
    }
  }

  lemma {:induction false} CachedAppend(c: map<string, Bitmap>, assets: Assets, dir: string, a: seq<string>, b: seq<string>)
    ensures Cached(c, assets, dir, a + b) == Cached(Cached(c, assets, dir, a), assets, dir, b)
    decreases |b|
  {
    if b != [] {
      assert (a + b)[..|a + b| - 1] == a + b[..|b| - 1];
      CachedAppend(c, assets, dir, a, b[..|b| - 1]);
    } else {
      assert a + b == a;
    }
  }

  /** The names `prefix + x + "_" + y` for one `x`, in the order of `inner`. */
  function Row(prefix: string, x: string, inner: seq<string>): seq<string> {
    seq(|inner|, j requires 0 <= j < |inner| => prefix + x + "_" + inner[j])
  }

  /** The names of a nested loop: `Row` for each of `outer`, in order. */
  function Grid(prefix: string, outer: seq<string>, inner: seq<string>): seq<string>
    decreases |outer|
  {
    if outer == [] then [] else Grid(prefix, outer[..|outer| - 1], inner) + Row(prefix, outer[|outer| - 1], inner)
  }

  /** The 45 character keys, colour by colour. */
  function CharacterNames(): seq<string> {
    Grid(CHARACTER_PREFIX, CHARACTER_COLORS, CHARACTER_ACTIONS)
  }

  function TerrainNames(): seq<string> {
    Grid(TERRAIN_PREFIX, TERRAIN_TYPES, TERRAIN_VARIATIONS)
  }

  lemma {:induction false} GridLength(prefix: string, outer: seq<string>, inner: seq<string>)
    ensures |Grid(prefix, outer, inner)| == |outer| * |inner|
    decreases |outer|
  {
    if outer != [] {
      var last := |outer| - 1;
      GridLength(prefix, outer[..last], inner);
      assert |Row(prefix, outer[last], inner)| == |inner|;
      assert last * |inner| + |inner| == |outer| * |inner| by {
        assert |outer| * |inner| == (last + 1) * |inner|;
      }
    }
  }

  /** Every character key is "character_" + colour + "_" + action. */
  lemma {:induction false} GridNames(prefix: string, outer: seq<string>, inner: seq<string>, n: string)
    requires n in Grid(prefix, outer, inner)
    ensures exists i, j :: 0 <= i < |outer| && 0 <= j < |inner| && n == prefix + outer[i] + "_" + inner[j]
    decreases |outer|
  {
    var last := |outer| - 1;
    if n in Grid(prefix, outer[..last], inner) {
      GridNames(prefix, outer[..last], inner, n);
      var i, j :| 0 <= i < |outer[..last]| && 0 <= j < |inner| && n == prefix + outer[..last][i] + "_" + inner[j];
      assert outer[..last][i] == outer[i];
    } else {
      var j :| 0 <= j < |inner| && Row(prefix, outer[last], inner)[j] == n;
      assert n == prefix + outer[last] + "_" + inner[j];
    }
  }

  lemma CharacterCount()
    ensures |CharacterNames()| == 45
  {
    GridLength(CHARACTER_PREFIX, CHARACTER_COLORS, CHARACTER_ACTIONS);
  }

  /**
   * `loadedCount >= 45 * 0.8f`: in single precision `45 * 0.8f` rounds to
   * exactly 36.0, so the exact 80% reading below is the one the code makes.
   */
  function CharactersOk(loaded: int): (ok: bool)
    ensures ok <==> loaded >= 36
  {
    5 * loaded >= 4 * 45
  }

  /**
   * `loadedCount >= 14 * 0.7f`: the float product lies just above 9.8 (9.800000190734863), so
   * an integer count passes from 10 on, as with the exact 70% below.
   */
  function BackgroundsOk(loaded: int): (ok: bool)
    ensures ok <==> loaded >= 10
  {
    10 * loaded >= 7 * 14
  }

  /** Tiles and enemies count as loaded as soon as one sprite loads. */
  function AnyLoaded(loaded: int): (ok: bool)
    ensures ok <==> loaded >= 1
  {
    loaded > 0
  }

  /**
   * `getDefaultSpriteSize`: 128 for the prefix "Character_" (capital C),
   * 256 for "background_", 64 for everything else.
   */
  function DefaultSpriteSize(name: Option<string>): (size: int)
    ensures size == 128 <==> name.Some? && StartsWith(name.value, "Character_")
    ensures size == 256 <==> name.Some? && StartsWith(name.value, "background_")
    ensures size in {64, 128, 256}
  {
    if name.Some? && StartsWith(name.value, "Character_") then
      assert name.value[0] == name.value[..10][0] == 'C';
      128
    else if name.Some? && StartsWith(name.value, "background_") then 256
    else 64
  }

  /** The keys the cache actually uses for characters are lower-case, so they get the fallback size 64. */
  lemma CharacterKeysGetDefaultSize(n: string)
    requires n in CharacterNames()
    ensures DefaultSpriteSize(Some(n)) == 64
  {
    GridNames(CHARACTER_PREFIX, CHARACTER_COLORS, CHARACTER_ACTIONS, n);
    assert n[0] == 'c';
  }

  /** The name for outer index `i` and inner index `j` is produced by the nested loop. */
  lemma {:induction false} GridHas(prefix: string, outer: seq<string>, inner: seq<string>, i: nat, j: nat)
    requires i < |outer| && j < |inner|
    ensures prefix + outer[i] + "_" + inner[j] in Grid(prefix, outer, inner)
    decreases |outer|
  {
    var last := |outer| - 1;
    if i < last {
      GridHas(prefix, outer[..last], inner, i, j);
      assert outer[..last][i] == outer[i];
    } else {
      assert Row(prefix, outer[last], inner)[j] == prefix + outer[i] + "_" + inner[j];
    }
  }

  /**
   * The four terrain blocks listed among the tiles (dirt, grass, stone and
   * sand) are also produced by the terrain loop, so the tile loading tries
   * each of them at least twice and `totalSpritesLoaded` counts each one that
   * loads more than once.
   */
  lemma TerrainBlocksListedTwice()
    ensures forall b :: b in TERRAIN_BLOCKS ==> b in TILE_SPRITES && b in TerrainNames()
    ensures forall b :: b in TERRAIN_BLOCKS ==> multiset(TILE_SPRITES + TerrainNames())[b] >= 2
  {
    TerrainBlocksInTiles();
    TerrainBlocksInGrid();
    forall b | b in TERRAIN_BLOCKS ensures multiset(TILE_SPRITES + TerrainNames())[b] >= 2 {
      InBothTwice(TILE_SPRITES, TerrainNames(), b);
    }
  }

  lemma TerrainBlocksInTiles()
    ensures forall b :: b in TERRAIN_BLOCKS ==> b in TILE_SPRITES
  {
    assert TERRAIN_BLOCKS == TILE_SPRITES[59..];
  }

  lemma TerrainBlocksInGrid()
    ensures forall b :: b in TERRAIN_BLOCKS ==> b in TerrainNames()
  {
    TerrainBlockInGrid(0, 0);
    TerrainBlockInGrid(1, 1);
    TerrainBlockInGrid(2, 5);
    TerrainBlockInGrid(3, 3);
  }

  /** Terrain block `k` is the first variation ("block") of terrain type `t`. */
  lemma TerrainBlockInGrid(k: nat, t: nat)
    requires k < 4 && t < 6 && TERRAIN_BLOCKS[k] == TERRAIN_PREFIX + TERRAIN_TYPES[t] + "_" + TERRAIN_VARIATIONS[0]
    ensures TERRAIN_BLOCKS[k] in TerrainNames()
  {
    GridHas(TERRAIN_PREFIX, TERRAIN_TYPES, TERRAIN_VARIATIONS, t, 0);
  }

  /** A name in both halves of a list occurs in it at least twice. */
  lemma InBothTwice(a: seq<string>, b: seq<string>, x: string)
    requires x in a && x in b
    ensures multiset(a + b)[x] >= 2
  {
    assert multiset(a + b) == multiset(a) + multiset(b);
  }

  lemma {:induction false} GridSplit(prefix: string, outer: seq<string>, inner: seq<string>, k: nat)
    requires k <= |outer|
    ensures Grid(prefix, outer, inner) == Grid(prefix, outer[..k], inner) + Grid(prefix, outer[k..], inner)
    decreases |outer|
  {
    if k == |outer| {
      assert outer[..k] == outer;
      assert outer[k..] == [];
    } else {
      var last := |outer| - 1;
      GridSplit(prefix, outer[..last], inner, k);
      assert outer[..last][..k] == outer[..k];
      assert outer[k..][..|outer[k..]| - 1] == outer[..last][k..];
      assert outer[k..][|outer[k..]| - 1] == outer[last];
    }
  }

  class SpriteManager {
    var cache: map<string, Bitmap>
    var assetsLoaded: bool
    var backgroundsLoaded: bool
    var charactersLoaded: bool
    var tilesLoaded: bool
    var enemiesLoaded: bool
    var totalSpritesLoaded: int

    /** The ready flag is the conjunction of the two critical categories. */
    predicate Valid()
      reads this
    {
      assetsLoaded == (backgroundsLoaded && charactersLoaded)
    }

    /** `loadSingleSprite`: a live decoded bitmap is put in the cache under its name. */
    method LoadSingleSprite(assets: Assets, dir: string, name: string) returns (ok: bool)
      modifies this
      ensures ok == Loadable(assets, dir, name)
      ensures cache == if ok then old(cache)[name := assets[FilePath(dir, name)]] else old(cache)
      ensures assetsLoaded == old(assetsLoaded) && backgroundsLoaded == old(backgroundsLoaded)
      ensures charactersLoaded == old(charactersLoaded) && tilesLoaded == old(tilesLoaded)
      ensures enemiesLoaded == old(enemiesLoaded) && totalSpritesLoaded == old(totalSpritesLoaded)
    {
      var path := FilePath(dir, name);
      if path in assets && !assets[path].recycled {
        cache := cache[name := assets[path]];
        ok := true;
      } else {
        ok := false;
      }
    }

    /** One `for (String spriteName : list)` loop, counting the sprites that load. */
    method LoadList(assets: Assets, dir: string, names: seq<string>) returns (loaded: nat)
      modifies this
      ensures loaded == Count(assets, dir, names)
      ensures cache == Cached(old(cache), assets, dir, names)
      ensures assetsLoaded == old(assetsLoaded) && backgroundsLoaded == old(backgroundsLoaded)
      ensures charactersLoaded == old(charactersLoaded) && tilesLoaded == old(tilesLoaded)
      ensures enemiesLoaded == old(enemiesLoaded) && totalSpritesLoaded == old(totalSpritesLoaded)
    {
      loaded := 0;
      var i := 0;
      while i < |names|
        invariant 0 <= i <= |names|
        invariant loaded == Count(assets, dir, names[..i])
        invariant cache == Cached(old(cache), assets, dir, names[..i])
        invariant assetsLoaded == old(assetsLoaded) && backgroundsLoaded == old(backgroundsLoaded)
        invariant charactersLoaded == old(charactersLoaded) && tilesLoaded == old(tilesLoaded)
        invariant enemiesLoaded == old(enemiesLoaded) && totalSpritesLoaded == old(totalSpritesLoaded)
      {
        assert names[..i + 1][..i] == names[..i];
        var ok := LoadSingleSprite(assets, dir, names[i]);
        if ok {
          loaded := loaded + 1;
        }
        i := i + 1;
      }
      assert names[..i] == names;
    }

    /** The nested `for (x : outer) for (y : inner)` loops over `prefix + x + "_" + y`. */
    method LoadGrid(assets: Assets, dir: string, prefix: string, outer: seq<string>, inner: seq<string>)
      returns (loaded: nat)
      modifies this
      ensures loaded == Count(assets, dir, Grid(prefix, outer, inner))
      ensures cache == Cached(old(cache), assets, dir, Grid(prefix, outer, inner))
      ensures assetsLoaded == old(assetsLoaded) && backgroundsLoaded == old(backgroundsLoaded)
      ensures charactersLoaded == old(charactersLoaded) && tilesLoaded == old(tilesLoaded)
      ensures enemiesLoaded == old(enemiesLoaded) && totalSpritesLoaded == old(totalSpritesLoaded)
    {
      loaded := 0;
      var i := 0;
      while i < |outer|
        invariant 0 <= i <= |outer|
        invariant loaded == Count(assets, dir, Grid(prefix, outer[..i], inner))
        invariant cache == Cached(old(cache), assets, dir, Grid(prefix, outer[..i], inner))
        invariant assetsLoaded == old(assetsLoaded) && backgroundsLoaded == old(backgroundsLoaded)
        invariant charactersLoaded == old(charactersLoaded) && tilesLoaded == old(tilesLoaded)
        invariant enemiesLoaded == old(enemiesLoaded) && totalSpritesLoaded == old(totalSpritesLoaded)
      {
        var done := Grid(prefix, outer[..i], inner);
        var row := Row(prefix, outer[i], inner);
        assert outer[..i + 1][..i] == outer[..i];
        assert Grid(prefix, outer[..i + 1], inner) == done + row;
        CountAppend(assets, dir, done, row);
        CachedAppend(old(cache), assets, dir, done, row);
        var n := LoadList(assets, dir, row);
        loaded := loaded + n;
        i := i + 1;
      }
      assert outer[..i] == outer;
    }

    /** `loadCharacterSprites`: critical, loaded when at least 80% of the 45 load. */
    method LoadCharacterSprites(assets: Assets) returns (ok: bool)
      modifies this
      ensures ok == CharactersOk(Count(assets, CHARACTERS_DIR, CharacterNames()))
      ensures cache == Cached(old(cache), assets, CHARACTERS_DIR, CharacterNames())
      ensures totalSpritesLoaded == old(totalSpritesLoaded) + Count(assets, CHARACTERS_DIR, CharacterNames())
      ensures assetsLoaded == old(assetsLoaded) && backgroundsLoaded == old(backgroundsLoaded)
      ensures charactersLoaded == old(charactersLoaded) && tilesLoaded == old(tilesLoaded)
      ensures enemiesLoaded == old(enemiesLoaded)
    {
      var loaded := LoadGrid(assets, CHARACTERS_DIR, CHARACTER_PREFIX, CHARACTER_COLORS, CHARACTER_ACTIONS);
      totalSpritesLoaded := totalSpritesLoaded + loaded;
      ok := CharactersOk(loaded);
    }

    /** `loadBackgroundSprites`: critical, loaded when at least 70% of the 14 load. */
    method LoadBackgroundSprites(assets: Assets) returns (ok: bool)
      modifies this
      ensures ok == BackgroundsOk(Count(assets, BACKGROUNDS_DIR, BACKGROUND_SPRITES))
      ensures cache == Cached(old(cache), assets, BACKGROUNDS_DIR, BACKGROUND_SPRITES)
      ensures totalSpritesLoaded == old(totalSpritesLoaded) + Count(assets, BACKGROUNDS_DIR, BACKGROUND_SPRITES)
      ensures assetsLoaded == old(assetsLoaded) && backgroundsLoaded == old(backgroundsLoaded)
      ensures charactersLoaded == old(charactersLoaded) && tilesLoaded == old(tilesLoaded)
      ensures enemiesLoaded == old(enemiesLoaded)
    {
      var loaded := LoadList(assets, BACKGROUNDS_DIR, BACKGROUND_SPRITES);
      totalSpritesLoaded := totalSpritesLoaded + loaded;
      ok := BackgroundsOk(loaded);
    }

    /** `loadTileSprites`: the listed tiles, then the terrain grid; loaded when any loads. */
    method LoadTileSprites(assets: Assets) returns (ok: bool)
      modifies this
      ensures ok == AnyLoaded(Count(assets, TILES_DIR, TILE_SPRITES + TerrainNames()))
      ensures cache == Cached(old(cache), assets, TILES_DIR, TILE_SPRITES + TerrainNames())
      ensures totalSpritesLoaded == old(totalSpritesLoaded) + Count(assets, TILES_DIR, TILE_SPRITES + TerrainNames())
      ensures assetsLoaded == old(assetsLoaded) && backgroundsLoaded == old(backgroundsLoaded)
      ensures charactersLoaded == old(charactersLoaded) && tilesLoaded == old(tilesLoaded)
      ensures enemiesLoaded == old(enemiesLoaded)
    {
      var listed := LoadList(assets, TILES_DIR, TILE_SPRITES);
      var terrain := LoadGrid(assets, TILES_DIR, TERRAIN_PREFIX, TERRAIN_TYPES, TERRAIN_VARIATIONS);
      CountAppend(assets, TILES_DIR, TILE_SPRITES, TerrainNames());
      CachedAppend(old(cache), assets, TILES_DIR, TILE_SPRITES, TerrainNames());
      var loaded := listed + terrain;
      totalSpritesLoaded := totalSpritesLoaded + loaded;
      ok := AnyLoaded(loaded);
    }

    /** `loadEnemySprites`: optional, loaded when any loads. */
    method LoadEnemySprites(assets: Assets) returns (ok: bool)
      modifies this
      ensures ok == AnyLoaded(Count(assets, ENEMIES_DIR, ENEMY_SPRITES))
      ensures cache == Cached(old(cache), assets, ENEMIES_DIR, ENEMY_SPRITES)
      ensures totalSpritesLoaded == old(totalSpritesLoaded) + Count(assets, ENEMIES_DIR, ENEMY_SPRITES)
      ensures assetsLoaded == old(assetsLoaded) && backgroundsLoaded == old(backgroundsLoaded)
      ensures charactersLoaded == old(charactersLoaded) && tilesLoaded == old(tilesLoaded)
      ensures enemiesLoaded == old(enemiesLoaded)
    {
      var loaded := LoadList(assets, ENEMIES_DIR, ENEMY_SPRITES);
      totalSpritesLoaded := totalSpritesLoaded + loaded;
      ok := AnyLoaded(loaded);
    }

    /**
     * `new SpriteManager(context)`: load characters, backgrounds, tiles and
     * enemies in that order, then derive the ready flag from the critical two.
     */
    constructor (assets: Assets)
      ensures Valid()
      ensures charactersLoaded == CharactersOk(Count(assets, CHARACTERS_DIR, CharacterNames()))
      ensures backgroundsLoaded == BackgroundsOk(Count(assets, BACKGROUNDS_DIR, BACKGROUND_SPRITES))
      ensures tilesLoaded == AnyLoaded(Count(assets, TILES_DIR, TILE_SPRITES + TerrainNames()))
      ensures enemiesLoaded == AnyLoaded(Count(assets, ENEMIES_DIR, ENEMY_SPRITES))
      ensures totalSpritesLoaded ==
        Count(assets, CHARACTERS_DIR, CharacterNames()) + Count(assets, BACKGROUNDS_DIR, BACKGROUND_SPRITES) +
        Count(assets, TILES_DIR, TILE_SPRITES + TerrainNames()) + Count(assets, ENEMIES_DIR, ENEMY_SPRITES)
      ensures cache ==
        Cached(Cached(Cached(Cached(map[], assets, CHARACTERS_DIR, CharacterNames()),
          assets, BACKGROUNDS_DIR, BACKGROUND_SPRITES), assets, TILES_DIR, TILE_SPRITES + TerrainNames()),
          assets, ENEMIES_DIR, ENEMY_SPRITES)
    {
      cache := map[];
      assetsLoaded, backgroundsLoaded, charactersLoaded, tilesLoaded, enemiesLoaded := false, false, false, false, false;
      totalSpritesLoaded := 0;
      new;
      var c := LoadCharacterSprites(assets);
      charactersLoaded := c;
      var b := LoadBackgroundSprites(assets);
      backgroundsLoaded := b;
      var t := LoadTileSprites(assets);
      tilesLoaded := t;
      var e := LoadEnemySprites(assets);
      enemiesLoaded := e;
      assetsLoaded := backgroundsLoaded && charactersLoaded;
    }

    /**
     * `getSprite`: nothing before the critical assets are in or for a missing
     * or empty name; a live cached bitmap is returned; a recycled one is
     * dropped from the cache.
     */
    method GetSprite(name: Option<string>) returns (r: Option<Bitmap>)
      requires Valid()
      modifies this
      ensures Valid()
      ensures r.Some? ==> backgroundsLoaded && charactersLoaded
      ensures r.Some? <==> (old(assetsLoaded) && name.Some? && name.value != "" && name.value in old(cache) &&
                            !old(cache)[name.value].recycled)
      ensures r.Some? ==> r.value == old(cache)[name.value]
      ensures (cache == if old(assetsLoaded) && name.Some? && name.value != "" && name.value in old(cache) &&
                           old(cache)[name.value].recycled
                        then old(cache) - {name.value} else old(cache))
      ensures assetsLoaded == old(assetsLoaded) && backgroundsLoaded == old(backgroundsLoaded)
      ensures charactersLoaded == old(charactersLoaded) && tilesLoaded == old(tilesLoaded)
      ensures enemiesLoaded == old(enemiesLoaded) && totalSpritesLoaded == old(totalSpritesLoaded)
    {
      if !assetsLoaded || name.None? || name.value == "" {
        return None;
      }
      var n := name.value;
      if n in cache && !cache[n].recycled {
        return Some(cache[n]);
      } else if n in cache && cache[n].recycled {
        cache := cache - {n};
      }
      return None;
    }

    /** `hasSprite`: the critical assets are in and the name is a cache key. */
    function HasSprite(name: Option<string>): (r: bool)
      requires Valid()
      reads this
      ensures r ==> assetsLoaded && backgroundsLoaded && charactersLoaded
      ensures r <==> assetsLoaded && name.Some? && name.value in cache
    {
      assetsLoaded && name.Some? && name.value in cache
    }

    /** `getSpritesByCategory`: the cache keys that start with `category + "_"`. */
    function SpritesByCategory(category: string): (names: set<string>)
      reads this
      ensures forall n :: n in names <==> n in cache && StartsWith(n, category + "_")
    {
      set n | n in cache && StartsWith(n, category + "_")
    }

    /** `cleanup`: the cache is emptied and every loaded flag cleared; the total is kept. */
    method Cleanup()
      modifies this
      ensures cache == map[]
      ensures !assetsLoaded && !backgroundsLoaded && !charactersLoaded && !tilesLoaded && !enemiesLoaded
      ensures totalSpritesLoaded == old(totalSpritesLoaded)
      ensures Valid() && forall n :: !HasSprite(n)
    {
      cache := map[];
      assetsLoaded := false;
      backgroundsLoaded := false;
      charactersLoaded := false;
      tilesLoaded := false;
      enemiesLoaded := false;
    }
  }

  /** A sprite reported present is handed out, and an answer is never an invented bitmap. */
  method LookupAgreesWithHasSprite(m: SpriteManager, n: string) returns (r: Option<Bitmap>)
    requires m.Valid() && m.HasSprite(Some(n)) && n != "" && !m.cache[n].recycled
    modifies m
    ensures r == Some(old(m.cache)[n]) && m.cache == old(m.cache)
  {
    r := m.GetSprite(Some(n));
  }
}
