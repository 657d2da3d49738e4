/**
 * The values that travel through the tile pipeline: tiles, render jobs and pixels.
 * `Tile` and `MapGeneratorJob` belong to the mapsforge core, which is not part of this model.
 */
module Tiles {
  import opened JavaNumbers

  /** Side of a square tile in pixels (`Tile.TILE_SIZE`). */
  const TILE_SIZE: nat := 256
  /** Number of pixels in one tile, the length of every pixel buffer. */
  const TILE_PIXELS: nat := TILE_SIZE * TILE_SIZE

  /** A tile in Google/XYZ numbering: origin at the top left, rows grow downwards. */
  datatype Tile = Tile(tileX: Long, tileY: Long, zoomLevel: Byte)

  /**
   * A render request. `parameters` stands for the renderer configuration the job carries;
   * jobs are compared by value, so equal tile and parameters make equal jobs.
   */
  datatype Job = Job(tile: Tile, parameters: nat)

  /** One ARGB_8888 colour sample, a Java `int` read as its 32 bits. */
  type Pixel = bv32

  /** A decoded image of exactly one tile's pixels, row by row. */
  type TileImage = s: seq<Pixel> | |s| == TILE_PIXELS witness seq(TILE_PIXELS, _ => 0)

  /** An encoded image as stored in the database. */
  type Blob = seq<bv8>
}
