/** The world map record built from a generated tile grid: the server's
    `Map` (grid size in tiles times the tile size) and the client's
    `GameMap` / legacy `Map`, which first scale the tile size by the
    display proportion. The grid is only read, never changed, after
    construction. */
module TileMap {
  import opened Common

  datatype Map = Map(tiles: seq<seq<real>>, tileSize: real, size: Size, tilesX: nat, tilesY: nat)

  /** `new Map({tilesX, tilesY, tileSize})` once the generator has produced
      `tiles`. Reading `tiles[0].length` throws on an empty grid: that is
      the `None` result. */
  function Build(tiles: seq<seq<real>>, tileSize: real): (r: Option<Map>)
    ensures r.None? <==> tiles == []
    ensures r.Some? ==> r.value.tiles == tiles && r.value.tileSize == tileSize
    ensures r.Some? ==> r.value.tilesX == |tiles[0]| && r.value.tilesY == |tiles|
    ensures r.Some? ==> r.value.size == Size(|tiles[0]| as real * tileSize, |tiles| as real * tileSize)
  {
    if tiles == [] then None
    else
      var tilesX := |tiles[0]|;
      var tilesY := |tiles|;
      Some(Map(tiles, tileSize, Size(tilesX as real * tileSize, tilesY as real * tileSize), tilesX, tilesY))
  }

  /** `new GameMap({tiles, tileSize}, proportion)`: the tile size is scaled
      first and the map size derived from the scaled tile size. */
  function Scaled(tiles: seq<seq<real>>, tileSize: real, proportion: real): (r: Option<Map>)
    ensures r.None? <==> tiles == []
    ensures r.Some? ==> r.value.tiles == tiles && r.value.tileSize == tileSize * proportion
    ensures r.Some? ==> r.value.tilesX == |tiles[0]| && r.value.tilesY == |tiles|
    ensures r.Some? ==> r.value.size.width == |tiles[0]| as real * (tileSize * proportion)
    ensures r.Some? ==> r.value.size.height == |tiles| as real * (tileSize * proportion)
  {
    if tiles == [] then None
    else
      var scaledTile := tileSize * proportion;
      var tilesX := |tiles[0]|;
      var tilesY := |tiles|;
      Some(Map(tiles, scaledTile, Size(tilesX as real * scaledTile, tilesY as real * scaledTile), tilesX, tilesY))
  }

  /** The client map is the server map magnified by the display
      proportion: same grid, every length multiplied by `proportion`. */
  lemma ScaledIsMagnifiedBuild(tiles: seq<seq<real>>, tileSize: real, proportion: real)
    requires tiles != []
    ensures Scaled(tiles, tileSize, proportion).value.size.width == Build(tiles, tileSize).value.size.width * proportion
    ensures Scaled(tiles, tileSize, proportion).value.size.height == Build(tiles, tileSize).value.size.height * proportion
    ensures Scaled(tiles, tileSize, proportion).value.(tileSize := tileSize, size := Build(tiles, tileSize).value.size)
            == Build(tiles, tileSize).value
  {
    var x := |tiles[0]| as real;
    var y := |tiles| as real;
    assert x * (tileSize * proportion) == (x * tileSize) * proportion;
    assert y * (tileSize * proportion) == (y * tileSize) * proportion;
  }
}
