/** The terrain: one seven-byte tile record per square of the map, once for
    the surface and once more for the underground layer when the map has
    one. */
module Tiles {
  import opened Cursor
  import opened Rules

  datatype TileRecord = TileRecord(
    tileType: Byte, view: Byte, riverType: Byte, riverDir: Byte,
    roadType: Byte, roadDir: Byte, extTileFlag: Byte)

  /** `ground` and, for a map with subterranean flag 1, `underground`. */
  datatype Terrain = Terrain(ground: seq<TileRecord>, underground: Option<seq<TileRecord>>)

  const TILE_SIZE: nat := 7

  predicate WfTerrain(tr: Terrain, mapSize: U32, subterranean: Byte)
  {
    && |tr.ground| == TilesCount(mapSize)
    && (tr.underground.Some? <==> HasSubterranean(subterranean))
    && (tr.underground.Some? ==> |tr.underground.value| == TilesCount(mapSize))
  }

  function PutTile(r: TileRecord, t: Stream): Stream
  {
    Next(r.tileType, Next(r.view, Next(r.riverType, Next(r.riverDir,
    Next(r.roadType, Next(r.roadDir, Next(r.extTileFlag, t)))))))
  }

  function DecodeTile(t: Stream): (r: Result<TileRecord>)
    ensures r.Ok? ==> t == PutTile(r.value, r.rest)
  {
    var tileType :- U8(t);
    var view :- U8(tileType.rest);
    var riverType :- U8(view.rest);
    var riverDir :- U8(riverType.rest);
    var roadType :- U8(riverDir.rest);
    var roadDir :- U8(roadType.rest);
    var extTileFlag :- U8(roadDir.rest);
    Ok(TileRecord(tileType.value, view.value, riverType.value, riverDir.value,
                  roadType.value, roadDir.value, extTileFlag.value), extTileFlag.rest)
  }

  lemma TileRoundTrip(r: TileRecord, t: Stream)
    ensures DecodeTile(PutTile(r, t)) == Ok(r, t)
  {
  }

  lemma TileSize(r: TileRecord, t: Stream)
    ensures Size(PutTile(r, t)) == TILE_SIZE + Size(t)
  {
    var t1 := Next(r.extTileFlag, t);
    var t2 := Next(r.roadDir, t1);
    var t3 := Next(r.roadType, t2);
    var t4 := Next(r.riverDir, t3);
    var t5 := Next(r.riverType, t4);
    var t6 := Next(r.view, t5);
    assert Size(t2) == 2 + Size(t);
    assert Size(t4) == 4 + Size(t);
    assert Size(t6) == 6 + Size(t);
  }

  /** A tile is read exactly when seven bytes are left, and takes them. */
  lemma TileNeeds(t: Stream)
    ensures DecodeTile(t).Ok? <==> TILE_SIZE <= Size(t)
    ensures DecodeTile(t).Ok? ==> Size(t) == TILE_SIZE + Size(DecodeTile(t).rest)
  {
    if TILE_SIZE <= Size(t) {
      var t1 := t.tail;
      assert Size(t1) >= 6;
      var t2 := t1.tail;
      assert Size(t2) >= 5;
      var t3 := t2.tail;
      assert Size(t3) >= 4;
      var t4 := t3.tail;
      assert Size(t4) >= 3;
      assert Size(t4.tail.tail) >= 1;
    }
    if DecodeTile(t).Ok? {
      TileSize(DecodeTile(t).value, DecodeTile(t).rest);
    }
  }

  function PutOptTiles(o: Option<seq<TileRecord>>, t: Stream): Stream
  {
    if o.Some? then PutMany(PutTile, o.value, t) else t
  }

  function PutTerrain(tr: Terrain, t: Stream): Stream
  {
    PutMany(PutTile, tr.ground, PutOptTiles(tr.underground, t))
  }

  lemma PutTileCat(r: TileRecord, t: Stream, u: Stream)
    ensures Cat(PutTile(r, t), u) == PutTile(r, Cat(t, u))
  {
    var t6 := Next(r.extTileFlag, t);
    var t5 := Next(r.roadDir, t6);
    var t4 := Next(r.roadType, t5);
    var t3 := Next(r.riverDir, t4);
    var t2 := Next(r.riverType, t3);
    var t1 := Next(r.view, t2);
    NextCat(r.extTileFlag, t, u);
    NextCat(r.roadDir, t6, u);
    NextCat(r.roadType, t5, u);
    NextCat(r.riverDir, t4, u);
    NextCat(r.riverType, t3, u);
    NextCat(r.view, t2, u);
    NextCat(r.tileType, t1, u);
  }

  /** The tiles commute with appending bytes after their continuation. */
  lemma PutTerrainCat(tr: Terrain, t: Stream, u: Stream)
    ensures Cat(PutTerrain(tr, t), u) == PutTerrain(tr, Cat(t, u))
  {
    forall x, s ensures Cat(PutTile(x, s), u) == PutTile(x, Cat(s, u)) {
      PutTileCat(x, s, u);
    }
    if tr.underground.Some? {
      PutManyCat(PutTile, tr.underground.value, t, u);
    }
    PutManyCat(PutTile, tr.ground, PutOptTiles(tr.underground, t), u);
  }

  /** Both layers hold map_size * map_size tiles. */
  function DecodeTerrain(t: Stream, mapSize: U32, subterranean: Byte): (r: Result<Terrain>)
    ensures r.Ok? ==> WfTerrain(r.value, mapSize, subterranean) && t == PutTerrain(r.value, r.rest)
  {
    var ground :- Many(DecodeTile, t, TilesCount(mapSize));
    ManySound(DecodeTile, PutTile, t, TilesCount(mapSize));
    if HasSubterranean(subterranean) then
      var underground :- Many(DecodeTile, ground.rest, TilesCount(mapSize));
      ManySound(DecodeTile, PutTile, ground.rest, TilesCount(mapSize));
      Ok(Terrain(ground.value, Some(underground.value)), underground.rest)
    else Ok(Terrain(ground.value, None), ground.rest)
  }

  lemma TerrainRoundTrip(tr: Terrain, mapSize: U32, subterranean: Byte, t: Stream)
    requires WfTerrain(tr, mapSize, subterranean)
    ensures DecodeTerrain(PutTerrain(tr, t), mapSize, subterranean) == Ok(tr, t)
  {
    forall r, s ensures DecodeTile(PutTile(r, s)) == Ok(r, s) {
      TileRoundTrip(r, s);
    }
    var t1 := PutOptTiles(tr.underground, t);
    ManyRoundTrip(DecodeTile, PutTile, tr.ground, t1);
    if tr.underground.Some? {
      ManyRoundTrip(DecodeTile, PutTile, tr.underground.value, t);
    }
  }

  /** The number of terrain bytes: seven per tile, for one layer or two. */
  function TerrainSize(mapSize: U32, subterranean: Byte): nat
  {
    TILE_SIZE * TilesCount(mapSize) * (if HasSubterranean(subterranean) then 2 else 1)
  }

  /** The terrain is read exactly when the stream holds all its tiles, and
      then it takes 7 * map_size * map_size bytes per layer. */
  lemma TerrainNeeds(t: Stream, mapSize: U32, subterranean: Byte)
    ensures DecodeTerrain(t, mapSize, subterranean).Ok? <==> TerrainSize(mapSize, subterranean) <= Size(t)
    ensures DecodeTerrain(t, mapSize, subterranean).Ok? ==>
      Size(t) == TerrainSize(mapSize, subterranean) + Size(DecodeTerrain(t, mapSize, subterranean).rest)
  {
    var n := TilesCount(mapSize);
    forall s ensures (DecodeTile(s).Ok? <==> TILE_SIZE <= Size(s))
      && (DecodeTile(s).Ok? ==> Size(s) == TILE_SIZE + Size(DecodeTile(s).rest))
    {
      TileNeeds(s);
    }
    ManyFixed(DecodeTile, TILE_SIZE, t, n);
    var g := Many(DecodeTile, t, n);
    if g.Ok? && HasSubterranean(subterranean) {
      ManyFixed(DecodeTile, TILE_SIZE, g.rest, n);
    }
  }

  /** Reads the terrain through the array loop, one layer after the other. */
  method ReadTerrain(t: Stream, mapSize: U32, subterranean: Byte) returns (r: Result<Terrain>)
    ensures r == DecodeTerrain(t, mapSize, subterranean)
  {
    var ground := ReadMany(DecodeTile, t, TilesCount(mapSize));
    if ground.Err? {
      return Err;
    }
    if HasSubterranean(subterranean) {
      var underground := ReadMany(DecodeTile, ground.rest, TilesCount(mapSize));
      if underground.Err? {
        return Err;
      }
      r := Ok(Terrain(ground.value, Some(underground.value)), underground.rest);
    } else {
      r := Ok(Terrain(ground.value, None), ground.rest);
    }
  }
}
