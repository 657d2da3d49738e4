/**
 * The MBTiles renderer: turns a render job into a tile bitmap by converting the tile to
 * TMS numbering, fetching the stored image and decoding it, with a white fallback for
 * missing or undecodable tiles at low zoom levels. It also opens and closes its database
 * as the worker starts and stops it.
 */
module MbTilesDatabaseRenderer {
  import opened Wrappers
  import opened JavaNumbers
  import opened Tiles
  import opened MbTilesDatabase

  /** Above this zoom level a missing tile is reported as a failure instead of filled. */
  const MISS_ZOOM_THRESHOLD: int := 11
  const ZOOM_LEVEL_MAX: Byte := 22
  const START_ZOOM_LEVEL: Byte := 8

  /** Opaque white in ARGB: alpha, red, green and blue all 0xFF. */
  const WHITE: Pixel := 0xFFFF_FFFF
  /** The fill written for a missing tile: `0xff << 24 | 0xff << 16 | 0xff << 8 | 0xff`. */
  const MISSING_TILE_FILL: Pixel :=
    ((0xFF as Pixel) << 24) | ((0xFF as Pixel) << 16) | ((0xFF as Pixel) << 8) | (0xFF as Pixel)
  /** The fill written for an undecodable tile: `Color.WHITE`. */
  const COLOR_WHITE: Pixel := 0xFFFF_FFFF

  /** Integers of at most this magnitude are exact in a double (2^52). */
  const EXACT_DOUBLE_BOUND: int := 0x10_0000_0000_0000

  /** A tile number in TMS numbering: origin at the bottom left, rows grow upwards. */
  datatype TmsTile = TmsTile(column: Int32, row: Int32)

  /** A start point: the centre of the data's bounding box, or explicit coordinates. */
  datatype GeoPoint = BoxCenter(box: BoundingBox) | Coordinates(latitude: real, longitude: real)

  /** The start point used when the database has no usable bounding box. */
  const FALLBACK_START_POINT: GeoPoint := Coordinates(43.7242359188, 10.9463005959)

  /** Inputs for which the double arithmetic of the conversion is exact. */
  predicate ExactConversion(tileY: int, zoom: int) {
    0 <= zoom <= 52 && -EXACT_DOUBLE_BOUND < tileY < EXACT_DOUBLE_BOUND
  }

  predicate AllWhite(pixels: seq<Pixel>) {
    forall i :: 0 <= i < |pixels| ==> pixels[i] == WHITE
  }

  // ---------------------------------------------------------------- tile numbering

  /**
   * `googleTile2TmsTile`: the column is kept (cast to int), the row is flipped to
   * 2^zoom - 1 - row (computed in double, then cast to int, which clamps).
   */
  function GoogleTile2TmsTile(tx: Long, ty: Long, zoom: Byte): (r: TmsTile)
    requires ExactConversion(ty, zoom)
    ensures (r.column - tx) % 0x1_0000_0000 == 0
    ensures INT_MIN <= tx <= INT_MAX ==> r.column == tx
    ensures INT_MIN <= Pow2(zoom) - 1 - ty <= INT_MAX ==> r.row + ty == Pow2(zoom) - 1
    ensures Pow2(zoom) - 1 - ty > INT_MAX ==> r.row == INT_MAX
    ensures Pow2(zoom) - 1 - ty < INT_MIN ==> r.row == INT_MIN
  {
    TmsTile(WrapToInt32(tx), SaturateToInt32(Pow2(zoom) - 1 - ty))
  }

  /** A row of a tile of zoom at most 31 is flipped to a row of the same zoom. */
  lemma TmsRowInTileRange(tx: Long, ty: Long, zoom: Byte)
    requires 0 <= zoom <= 31 && 0 <= ty < Pow2(zoom)
    ensures ExactConversion(ty, zoom)
    ensures var r := GoogleTile2TmsTile(tx, ty, zoom);
      0 <= r.row < Pow2(zoom) && r.row == Pow2(zoom) - 1 - ty
  {
    Pow2Monotone(zoom, 31);
    Pow2Of31();
  }

  /** Converting a valid tile twice gives back its row, and its column as an int. */
  lemma TmsInvolution(tx: Long, ty: Long, zoom: Byte)
    requires 0 <= zoom <= 31 && 0 <= ty < Pow2(zoom)
    ensures ExactConversion(ty, zoom)
    ensures var once := GoogleTile2TmsTile(tx, ty, zoom);
      var twice := GoogleTile2TmsTile(once.column, once.row, zoom);
      twice.column == WrapToInt32(tx) && twice.row == ty
  {
    TmsRowInTileRange(tx, ty, zoom);
    Pow2Monotone(zoom, 31);
    Pow2Of31();
  }

  /** The key under which the renderer looks a job's tile up: TMS column and row, same zoom. */
  function LookupKey(tile: Tile): (key: TileKey)
    requires ExactConversion(tile.tileY, tile.zoomLevel)
    ensures key.zoom == tile.zoomLevel
    ensures INT_MIN <= tile.tileX <= INT_MAX ==> key.column == tile.tileX
    ensures INT_MIN <= Pow2(tile.zoomLevel) - 1 - tile.tileY <= INT_MAX ==>
      key.row + tile.tileY == Pow2(tile.zoomLevel) - 1
  {
    var tms := GoogleTile2TmsTile(tile.tileX, tile.tileY, tile.zoomLevel);
    TileKey(tms.column, tms.row, tile.zoomLevel)
  }

  // ---------------------------------------------------------------- pixel buffers

  /** Writes `color` into every pixel of the buffer. */
  method Fill(pixels: array<Pixel>, color: Pixel)
    modifies pixels
    ensures forall i :: 0 <= i < pixels.Length ==> pixels[i] == color
  {
    for i := 0 to pixels.Length
      invariant forall j :: 0 <= j < i ==> pixels[j] == color
    {
      pixels[i] := color;
    }
  }

  /** Copies a whole image into a buffer of its size (`getPixels` / `setPixels`). */
  method CopyPixels(source: seq<Pixel>, target: array<Pixel>)
    requires |source| == target.Length
    modifies target
    ensures target[..] == source
  {
    for i := 0 to target.Length
      invariant target[..i] == source[..i]
    {
      target[i] := source[i];
    }
    assert target[..] == target[..target.Length];
  }

  // ---------------------------------------------------------------- the renderer

  class Renderer {
    var db: Database?
    var isDBOpen: bool

    /** Creates the renderer and its database; the renderer starts out not working. */
    constructor (dbName: string, tiles: map<TileKey, Option<Blob>>,
                 metadata: map<string, Option<string>>, installed: bool)
      ensures fresh(db) && !isDBOpen
      ensures db.dbName == dbName && db.tiles == tiles && db.metadata == metadata
      ensures db.handle == if installed then Unset else Closed
    {
      db := new Database(dbName, tiles, metadata, installed);
      isDBOpen := false;
    }

    /** `isWorking`: whether the renderer has opened its database and not closed it since. */
    predicate IsWorking(): (r: bool)
      reads this
      ensures r <==> isDBOpen
    {
      isDBOpen
    }

    /** Opens the database unless it is open already. */
    method Start()
      requires isDBOpen || db != null
      modifies this, db
      ensures IsWorking() && db == old(db)
      ensures !old(isDBOpen) ==> db.handle == Open
      ensures old(isDBOpen) && db != null ==> db.handle == old(db.handle)
    {
      if !isDBOpen {
        db.OpenDataBase();
        isDBOpen := true;
      }
    }

    /** Closes the database unless it is closed already. */
    method Stop()
      requires !isDBOpen || db != null
      modifies this, db
      ensures !IsWorking() && db == old(db)
      ensures old(isDBOpen) ==> db.handle == if old(db.handle) == Unset then Unset else Closed
      ensures !old(isDBOpen) && db != null ==> db.handle == old(db.handle)
    {
      if isDBOpen {
        db.Close();
        isDBOpen := false;
      }
    }

    /** Drops the database without closing it. */
    method Destroy()
      modifies this
      ensures db == null && isDBOpen == old(isDBOpen)
    {
      if db != null {
        db := null;
      }
    }

    /** The blob stored for a job's tile, looked up under its TMS key. */
    function StoredTile(job: Job): Option<Blob>
      reads this, db
      requires db != null && db.handle != Closed
      requires ExactConversion(job.tile.tileY, job.tile.zoomLevel)
    {
      db.GetTileAsBytes(LookupKey(job.tile))
    }

    /**
     * `executeJob`: renders the job's tile into `bitmap`. A missing tile above the zoom
     * threshold fails and leaves the bitmap alone; a missing tile at or below it, or an
     * image that does not decode, gives an all-white tile; a decoded image is copied.
     */
    method ExecuteJob(job: Job, bitmap: array<Pixel>, decode: Blob -> Option<TileImage>)
      returns (success: bool)
      requires db != null && db.handle != Closed
      requires ExactConversion(job.tile.tileY, job.tile.zoomLevel)
      requires bitmap.Length == TILE_PIXELS
      modifies bitmap
      ensures StoredTile(job).None? && job.tile.zoomLevel > MISS_ZOOM_THRESHOLD ==>
        !success && bitmap[..] == old(bitmap[..])
      ensures StoredTile(job).None? && job.tile.zoomLevel <= MISS_ZOOM_THRESHOLD ==>
        success && AllWhite(bitmap[..])
      ensures StoredTile(job).Some? && decode(StoredTile(job).value).None? ==>
        success && AllWhite(bitmap[..])
      ensures StoredTile(job).Some? && decode(StoredTile(job).value).Some? ==>
        success && bitmap[..] == decode(StoredTile(job).value).value
    {
      var tile := job.tile;
      var tmsTileXY := GoogleTile2TmsTile(tile.tileX, tile.tileY, tile.zoomLevel);
      var pixels := new Pixel[TILE_PIXELS];
      var rasterBytes := db.GetTileAsBytes(TileKey(tmsTileXY.column, tmsTileXY.row, tile.zoomLevel));
      if rasterBytes.None? {
        if tile.zoomLevel > MISS_ZOOM_THRESHOLD {
          return false;
        }
        Fill(pixels, MISSING_TILE_FILL);
      } else {
        var decodedBitmap := decode(rasterBytes.value);
        if decodedBitmap.Some? {
          CopyPixels(decodedBitmap.value, pixels);
        } else {
          Fill(pixels, COLOR_WHITE);
        }
      }
      CopyPixels(pixels[..], bitmap);
      return true;
    }

    /**
     * `getStartPoint`: opens the database, reads the bounding box and closes it again;
     * the centre of the box, or the fixed fallback point when there is none.
     */
    method GetStartPoint() returns (p: GeoPoint)
      requires db != null
      modifies db
      ensures db.handle == Closed
      ensures db.BoundsEntry().Some? ==> p == BoxCenter(db.BoundsEntry().value)
      ensures db.BoundsEntry().None? ==> p == FALLBACK_START_POINT
    {
      db.OpenDataBase();
      var bb := db.GetBoundingBox();
      db.Close();
      if bb.Some? {
        p := BoxCenter(bb.value);
      } else {
        p := FALLBACK_START_POINT;
      }
    }

    /** The start zoom level is fixed, whatever the data holds. */
    function GetStartZoomLevel(): (zoom: Byte)
      ensures zoom == START_ZOOM_LEVEL
    {
      8
    }

    /**
     * The reported maximum zoom is fixed at 22, above the threshold of 11 past which
     * `ExecuteJob` reports a missing tile as a failure.
     */
    function GetZoomLevelMax(): (zoom: Byte)
      ensures zoom == ZOOM_LEVEL_MAX && zoom > MISS_ZOOM_THRESHOLD
    {
      22
    }

    /** `getFileName`: the name of the database file the renderer reads. */
    function GetFileName(): (name: string)
      reads this, db
      requires db != null
      ensures name == db.dbName
    {
      db.GetDBName()
    }
  }
}
