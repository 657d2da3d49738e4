# MBTiles tile production in mapsforge, modelled in Dafny

This project models the path that fills the mapsforge map view from an MBTiles file, an
SQLite database of pre-rendered tiles. It has three parts.

- **The map worker** (`MapWorker`). One `doWork` step does the following:
  - it starts the renderer if it is not working;
  - it takes the head job off the job queue;
  - it skips the job when the in-memory or file-system tile cache already holds it and the map
    view uses its mapsforge background;
  - otherwise it asks the renderer for the tile, hands the result to the frame buffer, posts an
    invalidation and stores the tile in the caches;
  - after a render attempt it stops the renderer if the queue is empty. A skipped job never
    stops it, so a run whose last job is a cache hit leaves the database open.

  A cache `put` may evict other tiles to make room. The in-memory and the file-system cache
  evict independently, and which tiles each drops is an input of the step. So the lemmas about
  cached jobs speak of a job that some tier holds and that no step evicts from that tier.

  The step is modelled twice. `Step` is a pure function on a `WorkerState` value. The class
  `Worker` has the same fields, and its `DoWork` method changes them in place; it is proved to
  end in the state that `Step` gives. The ghost function `Run` strings steps together, and the
  lemmas about several steps are stated over `Run`.
- **The MBTiles renderer** (`MbTilesDatabaseRenderer`). `googleTile2TmsTile` flips the tile row
  from the Google/XYZ numbering to the TMS numbering, `y' = 2^z − 1 − y`, with Java's casts
  written out:
  - `(int)` of a `long` keeps the low 32 bits;
  - `(int)` of a `double` clamps to the int range.

  `executeJob` looks the tile up under its TMS key. A missing tile above zoom 11 fails and leaves
  the bitmap untouched. A missing tile at zoom 11 or below is filled with opaque white, and so is
  a blob that does not decode. A decoded image is copied into the bitmap. The renderer opens and
  closes its database through `start` and `stop`. It reports fixed zoom levels, and its start
  point is the centre of the data's bounding box or a fixed fallback point.
- **The MBTiles database** (`MbTilesDatabase`). Three pieces are modelled:
  - the file-name test by which `createDataBase` picks stale `.mbtiles` and `.mbtiles-journal`
    files to delete;
  - the tile lookup by (column, row, zoom), with its absent results;
  - the parsing of the `bounds` metadata entry, with Java's `String.split` semantics (trailing
    empty fields dropped) and the field order of the `BoundingBox` constructor.

  The SQLite tables are represented by two maps. The database handle `mDataBase` is one of three
  states:
  - `Unset`: never assigned. A query then hits a `NullPointerException`, which is caught, so
    the result is absent.
  - `Open`.
  - `Closed`: a query would throw.

Two support modules give the pieces of Java the code relies on:
- `JavaNumbers`: `Math.pow(2, n)` and the two int casts;
- `JavaStrings`: `lastIndexOf` and `split` on one character, with the join/split round trip.

`executeJob` treats a missing tile as a failure above the fixed zoom 11, not above the 22 that
`getZoomLevelMax()` reports; the TODO at `MbTilesDatabaseRenderer.java:60` marks the gap.
`GetZoomLevelMax` states both numbers. Nothing rejects an out-of-range zoom level before the
lookup.

`destroy` only drops the renderer's reference to its database, although its documentation
says it closes its resources. A started renderer's database therefore stays open. `Destroy`
keeps this: it ensures `db == null` and leaves the working flag as it was.

`getStartPoint` opens the database, reads the bounds and closes the database. Called on a
started renderer, it leaves the handle closed while `isWorking()` still answers true. The model
keeps this behaviour: `GetStartPoint` ensures `db.handle == Closed`, and `ExecuteJob` then
cannot be called, because it requires a handle that is not closed.

## Model

| member | source | states |
|---|---|---|
| MbTilesDatabaseRenderer.GoogleTile2TmsTile | mapsforge-map/src/main/java/org/mapsforge/android/maps/mapgenerator/mbtiles/MbTilesDatabaseRenderer.java:190-192 | the TMS column equals the x tile number modulo 2^32, and exactly when x fits in an int; the row plus y is 2^zoom − 1 whenever that difference fits in an int, and clamps to the int bounds otherwise |
| MbTilesDatabaseRenderer.TmsRowInTileRange | mapsforge-map/src/main/java/org/mapsforge/android/maps/mapgenerator/mbtiles/MbTilesDatabaseRenderer.java:190-192 | for zoom ≤ 31 and a row y in [0, 2^zoom), the conversion is exact and the flipped row 2^zoom − 1 − y also lies in [0, 2^zoom) |
| MbTilesDatabaseRenderer.TmsInvolution | mapsforge-map/src/main/java/org/mapsforge/android/maps/mapgenerator/mbtiles/MbTilesDatabaseRenderer.java:190-192 | converting a valid tile twice gives back its row, and its column cast to int |
| MbTilesDatabaseRenderer.LookupKey | mapsforge-map/src/main/java/org/mapsforge/android/maps/mapgenerator/mbtiles/MbTilesDatabaseRenderer.java:39-55 | the lookup key keeps the job's zoom level, keeps its column, and holds the flipped row 2^zoom − 1 − y |
| MbTilesDatabaseRenderer.Fill | mapsforge-map/src/main/java/org/mapsforge/android/maps/mapgenerator/mbtiles/MbTilesDatabaseRenderer.java:64-66 | after the fill loop every pixel of the buffer holds the colour |
| MbTilesDatabaseRenderer.CopyPixels | mapsforge-map/src/main/java/org/mapsforge/android/maps/mapgenerator/mbtiles/MbTilesDatabaseRenderer.java:74-88 | the buffer holds exactly the source image afterwards |
| MbTilesDatabaseRenderer.Renderer.constructor | mapsforge-map/src/main/java/org/mapsforge/android/maps/mapgenerator/mbtiles/MbTilesDatabaseRenderer.java:22-30 | a new renderer owns a fresh database over the given tables and initially reports not working |
| MbTilesDatabaseRenderer.Renderer.Start | mapsforge-map/src/main/java/org/mapsforge/android/maps/mapgenerator/mbtiles/MbTilesDatabaseRenderer.java:139-146 | afterwards the renderer is working; the database is opened only if the renderer was not working, and otherwise its handle is left as it was |
| MbTilesDatabaseRenderer.Renderer.Stop | mapsforge-map/src/main/java/org/mapsforge/android/maps/mapgenerator/mbtiles/MbTilesDatabaseRenderer.java:149-155 | afterwards the renderer is not working; the database is closed only if the renderer was working, and otherwise nothing changes |
| MbTilesDatabaseRenderer.Renderer.Destroy | mapsforge-map/src/main/java/org/mapsforge/android/maps/mapgenerator/mbtiles/MbTilesDatabaseRenderer.java:167-173 | the renderer drops its database without closing it and keeps its working flag |
| MbTilesDatabaseRenderer.Renderer.IsWorking | mapsforge-map/src/main/java/org/mapsforge/android/maps/mapgenerator/mbtiles/MbTilesDatabaseRenderer.java:157-161 | the renderer is working exactly when `isDBOpen` is set, that is between a `start` and the next `stop` |
| MbTilesDatabaseRenderer.Renderer.ExecuteJob | mapsforge-map/src/main/java/org/mapsforge/android/maps/mapgenerator/mbtiles/MbTilesDatabaseRenderer.java:37-91 | a missing tile above zoom 11 gives false and leaves the bitmap unchanged; a missing tile at zoom 11 or below, or an undecodable blob, gives true and an all-white bitmap; a decoded image gives true and the bitmap equals that image |
| MbTilesDatabaseRenderer.Renderer.GetStartPoint | mapsforge-map/src/main/java/org/mapsforge/android/maps/mapgenerator/mbtiles/MbTilesDatabaseRenderer.java:97-107 | the start point is the centre of the parsed `bounds` box when there is one, and the fixed point (43.7242359188, 10.9463005959) otherwise; the database is left closed |
| MbTilesDatabaseRenderer.Renderer.GetStartZoomLevel | mapsforge-map/src/main/java/org/mapsforge/android/maps/mapgenerator/mbtiles/MbTilesDatabaseRenderer.java:113-117 | the start zoom level is always 8 |
| MbTilesDatabaseRenderer.Renderer.GetZoomLevelMax | mapsforge-map/src/main/java/org/mapsforge/android/maps/mapgenerator/mbtiles/MbTilesDatabaseRenderer.java:123-127 | the maximum zoom level is always 22, above the miss threshold of 11 used by `executeJob` |
| MbTilesDatabaseRenderer.Renderer.GetFileName | mapsforge-map/src/main/java/org/mapsforge/android/maps/mapgenerator/mbtiles/MbTilesDatabaseRenderer.java:132-136 | the file name is the name of the renderer's database |
| MapWorker.Step | mapsforge-map/src/main/java/org/mapsforge/android/maps/mapgenerator/MapWorker.java:65-99 | one step removes exactly the head job; starts the renderer iff it was not working; on a cache hit it renders nothing, writes no cache, posts nothing and leaves the renderer running; otherwise it logs one render, and a failed or interrupted render changes no cache and posts nothing; a delivered tile posts exactly one invalidation, enters the memory tier iff the frame buffer took it and the background is used, and enters the file tier iff the background is used; after a render attempt the renderer runs iff jobs remain, and is stopped once when the queue empties |
| MapWorker.Run | mapsforge-map/src/main/java/org/mapsforge/android/maps/mapgenerator/MapWorker.java:65-99 | repeated steps never lengthen the queue and drain it once there are as many steps as jobs; starts and stops of the renderer only grow, by at most one per step |
| MapWorker.MemoryEvicted | mapsforge-map/src/main/java/org/mapsforge/android/maps/mapgenerator/MapWorker.java:86 | the jobs a run may evict from the in-memory cache include those of every one of its steps |
| MapWorker.FileEvicted | mapsforge-map/src/main/java/org/mapsforge/android/maps/mapgenerator/MapWorker.java:92 | the jobs a run may evict from the file-system cache include those of every one of its steps |
| MapWorker.TiersEvictIndependently | mapsforge-map/src/main/java/org/mapsforge/android/maps/mapgenerator/MapWorker.java:83-93 | one delivered step can drop a job from the in-memory cache while the file-system cache keeps it |
| MapWorker.StepBounds | mapsforge-map/src/main/java/org/mapsforge/android/maps/mapgenerator/MapWorker.java:80-93 | one step appends at most one render to the log and posts at most one invalidation; each tier loses only the jobs its own `put` evicted in that step, and gains only the head job |
| MapWorker.RunConsumesQueue | mapsforge-map/src/main/java/org/mapsforge/android/maps/mapgenerator/MapWorker.java:72-93 | n steps remove the first n jobs, append at most n renders to the log and post at most n invalidations; a cached job leaves a tier only if some step evicts it from that tier |
| MapWorker.CachedJobNotRerendered | mapsforge-map/src/main/java/org/mapsforge/android/maps/mapgenerator/MapWorker.java:74-80 | with the background in use, a job held by a tier that no step of the run evicts it from is never rendered again in that run, whatever the other tier does |
| MapWorker.RenderedAtMostOnce | mapsforge-map/src/main/java/org/mapsforge/android/maps/mapgenerator/MapWorker.java:74-93 | with the background in use, a job whose render is delivered is rendered at that step and, while no later step evicts it from the file-system cache, never again in the run |
| MapWorker.RendererBusyWhileQueued | mapsforge-map/src/main/java/org/mapsforge/android/maps/mapgenerator/MapWorker.java:68-70 | after any number of steps the renderer is working whenever jobs remain queued |
| MapWorker.SingleJobScenario | mapsforge-map/src/main/java/org/mapsforge/android/maps/mapgenerator/MapWorker.java:65-99 | a single job at zoom 10, x 5, y 3 that is rendered and accepted ends up in both tiers, with one invalidation, one renderer start and one stop |
| MapWorker.Worker.constructor | mapsforge-map/src/main/java/org/mapsforge/android/maps/mapgenerator/MapWorker.java:42-49 | the worker takes the view's queue and caches, with the renderer not started and nothing rendered |
| MapWorker.Worker.HasWork | mapsforge-map/src/main/java/org/mapsforge/android/maps/mapgenerator/MapWorker.java:112-114 | the worker has work exactly when the queue is non-empty |
| MapWorker.Worker.DoWork | mapsforge-map/src/main/java/org/mapsforge/android/maps/mapgenerator/MapWorker.java:65-99 | the new state of the worker is `Step` of its old state, so every property of `Step` holds of the fields it updates; the scratch bitmap is not recycled |
| MapWorker.Worker.AfterRun | mapsforge-map/src/main/java/org/mapsforge/android/maps/mapgenerator/MapWorker.java:60-62 | the scratch bitmap is recycled and nothing else changes |
| MbTilesDatabase.FileExtension | mapsforge-map/src/main/java/org/mapsforge/android/maps/mapgenerator/mbtiles/MbTilesDatabase.java:107-108 | the extension contains no '.', is a suffix of the name, and is either the whole name or preceded by a '.' |
| MbTilesDatabase.IsMbTilesFile | mapsforge-map/src/main/java/org/mapsforge/android/maps/mapgenerator/mbtiles/MbTilesDatabase.java:107-110 | a file chosen as an MBTiles artifact has a name ending in `mbtiles` or `mbtiles-journal` (the exact test is `MbTilesFileBySuffix`) |
| MbTilesDatabase.MbTilesFileBySuffix | mapsforge-map/src/main/java/org/mapsforge/android/maps/mapgenerator/mbtiles/MbTilesDatabase.java:107-110 | a file counts as an MBTiles artifact iff its name is `mbtiles` or `mbtiles-journal`, or ends in `.mbtiles` or `.mbtiles-journal` (case-sensitive, whole suffix) |
| MbTilesDatabase.ExtensionBySuffix | mapsforge-map/src/main/java/org/mapsforge/android/maps/mapgenerator/mbtiles/MbTilesDatabase.java:108 | the text after the last '.' equals a dot-free word iff the name is that word or ends in '.' followed by it |
| MbTilesDatabase.NameWithoutDotIsItsExtension | mapsforge-map/src/main/java/org/mapsforge/android/maps/mapgenerator/mbtiles/MbTilesDatabase.java:108 | a name without a '.' is compared as a whole |
| MbTilesDatabase.MbTilesFilesIn | mapsforge-map/src/main/java/org/mapsforge/android/maps/mapgenerator/mbtiles/MbTilesDatabase.java:106-116 | the selection from a listing is never longer than the listing (membership is `MbTilesFilesInSelects`) |
| MbTilesDatabase.MbTilesFilesInPrefix | mapsforge-map/src/main/java/org/mapsforge/android/maps/mapgenerator/mbtiles/MbTilesDatabase.java:106-116 | one more name of the listing adds that name to the selection exactly when it is an artifact, at the end |
| MbTilesDatabase.MbTilesFilesInSelects | mapsforge-map/src/main/java/org/mapsforge/android/maps/mapgenerator/mbtiles/MbTilesDatabase.java:106-116 | the files chosen for deletion are exactly the MBTiles artifacts of the listing |
| MbTilesDatabase.StaleArtifacts | mapsforge-map/src/main/java/org/mapsforge/android/maps/mapgenerator/mbtiles/MbTilesDatabase.java:97-105 | nothing is deleted when the database is installed or the listing fails; otherwise the MBTiles artifacts of the listing are deleted, in listing order |
| MbTilesDatabase.DeleteArtifacts | mapsforge-map/src/main/java/org/mapsforge/android/maps/mapgenerator/mbtiles/MbTilesDatabase.java:106-116 | the loop over the listing deletes exactly the selection of MBTiles artifacts, in listing order |
| MbTilesDatabase.ParseBounds | mapsforge-map/src/main/java/org/mapsforge/android/maps/mapgenerator/mbtiles/MbTilesDatabase.java:294-303 | a box is produced iff `split(",")` gives exactly four fields; fields 0 to 3 become min longitude, min latitude, max longitude and max latitude |
| MbTilesDatabase.BoundsRoundTrip | mapsforge-map/src/main/java/org/mapsforge/android/maps/mapgenerator/mbtiles/MbTilesDatabase.java:294-303 | parsing the `bounds` text of a box whose literals hold no comma and whose last literal is not empty gives the same box back, every coordinate in its own slot |
| MbTilesDatabase.AcceptedBoundsShape | mapsforge-map/src/main/java/org/mapsforge/android/maps/mapgenerator/mbtiles/MbTilesDatabase.java:294-297 | every accepted `bounds` text is the text of the box it yields, followed only by commas |
| MbTilesDatabase.TrailingCommasDropped | mapsforge-map/src/main/java/org/mapsforge/android/maps/mapgenerator/mbtiles/MbTilesDatabase.java:294-303 | `1,2,3,4,,` is accepted, because trailing empty fields are dropped before counting, and yields the box with minimum latitude 2, minimum longitude 1, maximum latitude 4 and maximum longitude 3 |
| MbTilesDatabase.EmptyFourthFieldRejected | mapsforge-map/src/main/java/org/mapsforge/android/maps/mapgenerator/mbtiles/MbTilesDatabase.java:294-297 | `1,2,3,` is rejected, because its empty fourth field is dropped |
| MbTilesDatabase.Database.constructor | mapsforge-map/src/main/java/org/mapsforge/android/maps/mapgenerator/mbtiles/MbTilesDatabase.java:64-136 | an installed database leaves the handle unassigned; otherwise the copied database is opened and closed once, so the handle ends closed |
| MbTilesDatabase.Database.OpenDataBase | mapsforge-map/src/main/java/org/mapsforge/android/maps/mapgenerator/mbtiles/MbTilesDatabase.java:206-211 | the handle is open afterwards |
| MbTilesDatabase.Database.Close | mapsforge-map/src/main/java/org/mapsforge/android/maps/mapgenerator/mbtiles/MbTilesDatabase.java:217-224 | an assigned handle is closed and an unassigned one stays unassigned |
| MbTilesDatabase.Database.GetTileAsBytes | mapsforge-map/src/main/java/org/mapsforge/android/maps/mapgenerator/mbtiles/MbTilesDatabase.java:259-275 | a blob is returned iff the handle is open and a row with a non-NULL blob matches the key, and then it is that blob; no matching row, a NULL blob and an unassigned handle all give absent |
| MbTilesDatabase.Database.GetBoundingBox | mapsforge-map/src/main/java/org/mapsforge/android/maps/mapgenerator/mbtiles/MbTilesDatabase.java:283-309 | absent when the handle is unassigned, when there is no `bounds` row and when its value is NULL; otherwise the parse of the `bounds` value |
| MbTilesDatabase.Database.GetDBName | mapsforge-map/src/main/java/org/mapsforge/android/maps/mapgenerator/mbtiles/MbTilesDatabase.java:226-228 | the name is the one the database was created with |
| JavaStrings.LastIndexOf | mapsforge-map/src/main/java/org/mapsforge/android/maps/mapgenerator/mbtiles/MbTilesDatabase.java:108 | the result is −1 or the index of a `c`, and no `c` follows it |
| JavaStrings.Fields | mapsforge-map/src/main/java/org/mapsforge/android/maps/mapgenerator/mbtiles/MbTilesDatabase.java:294 | a string splits into at least one field, and no field contains the separator |
| JavaStrings.StripTrailingEmpty | mapsforge-map/src/main/java/org/mapsforge/android/maps/mapgenerator/mbtiles/MbTilesDatabase.java:294 | the result is a prefix of the fields, its last field is not empty, and every field dropped is empty |
| JavaStrings.Split | mapsforge-map/src/main/java/org/mapsforge/android/maps/mapgenerator/mbtiles/MbTilesDatabase.java:294 | a string without the separator is its own single field; no field contains the separator; when the separator occurs, the last field returned is not empty |
| JavaStrings.JoinFields | mapsforge-map/src/main/java/org/mapsforge/android/maps/mapgenerator/mbtiles/MbTilesDatabase.java:294 | joining the fields of a string with the separator gives the string back |
| JavaStrings.FieldsOfJoin | mapsforge-map/src/main/java/org/mapsforge/android/maps/mapgenerator/mbtiles/MbTilesDatabase.java:294 | the fields of a join of separator-free fields are those fields |
| JavaStrings.SplitOfJoin | mapsforge-map/src/main/java/org/mapsforge/android/maps/mapgenerator/mbtiles/MbTilesDatabase.java:294 | `split` of a join of two or more separator-free fields whose last field is not empty gives those fields back |
| JavaStrings.StripAppendedEmpty | mapsforge-map/src/main/java/org/mapsforge/android/maps/mapgenerator/mbtiles/MbTilesDatabase.java:294 | empty fields appended after a non-empty last field are exactly what stripping removes |
| JavaStrings.SplitDropsTrailingSeparators | mapsforge-map/src/main/java/org/mapsforge/android/maps/mapgenerator/mbtiles/MbTilesDatabase.java:294 | separators at the end of a string are dropped by `split`: a join of separator-free fields, the last not empty, followed by any number of separators, splits into those fields |
| JavaStrings.SplitShape | mapsforge-map/src/main/java/org/mapsforge/android/maps/mapgenerator/mbtiles/MbTilesDatabase.java:294 | any string is the join of its `split` fields followed by separators only, and a string for which `split` returns no field is made of separators only |
| JavaStrings.SeparatorsOnlySplitToNothing | mapsforge-map/src/main/java/org/mapsforge/android/maps/mapgenerator/mbtiles/MbTilesDatabase.java:294 | `",,".split(",")` returns no field at all |
| JavaNumbers.Pow2Monotone | mapsforge-map/src/main/java/org/mapsforge/android/maps/mapgenerator/mbtiles/MbTilesDatabaseRenderer.java:191 | `Math.pow(2, n)` grows with n |
| JavaNumbers.WrapToInt32 | mapsforge-map/src/main/java/org/mapsforge/android/maps/mapgenerator/mbtiles/MbTilesDatabaseRenderer.java:191 | `(int)` of a long is congruent to it modulo 2^32 and equals it when it fits in an int |
| JavaNumbers.SaturateToInt32 | mapsforge-map/src/main/java/org/mapsforge/android/maps/mapgenerator/mbtiles/MbTilesDatabaseRenderer.java:191 | `(int)` of an integral double is the value when it fits in an int, and the nearer int bound otherwise |

## Left out

- SQLite plumbing is not modelled: `checkDataBase`, `getReadableDatabase`, cursors and the SQL text. The tables are maps, and opening and closing only change the handle state.
- `copyDataBase`, the deletion of files and the choice of `DB_PATH` by SDK version are filesystem I/O and are not modelled. `StaleArtifacts` returns the names it would delete.
- If `copyDataBase` fails, the constructor throws an `Error`; that path is not modelled.
- `DB_NAME` is a static field shared by all database objects. The model keeps the name per object.
- The SQL parameters are the decimal strings of the column, row and zoom. The model uses the integers themselves as the key, which is the same match for the numbers that occur.
- The Android graphics calls are not modelled. `BitmapFactory.decodeByteArray` is a decode function passed to `ExecuteJob`. `Bitmap.getPixels`/`setPixels` become array copies, and the bitmap is a pixel array.
- MbTilesDatabaseRenderer.Renderer.ExecuteJob: a decoded image whose size is not 256×256 is not modelled, because the decoder is assumed to yield exactly one tile of pixels. The branch that creates a bitmap when the caller passes `null` is not modelled either, because that bitmap is never visible to the caller.
- `Double.parseDouble` is not modelled: a coordinate is kept as its literal text. So a malformed number, which throws an uncaught `NumberFormatException`, is not modelled. `BoundingBox.getCenterPoint` is floating point and is represented by `BoxCenter` of the box.
- MbTilesDatabase.BoundsRoundTrip: the box comes back with the same literals, not merely the same numbers. `ParseDegrees` keeps the text, so "1.0" and "1" are different coordinates here although `Double.parseDouble` gives the same double for both.
- `MercatorProjectionTest.java` tests floating-point Mercator code, which is not part of this model.
- MbTilesDatabaseRenderer.GoogleTile2TmsTile: `Math.pow` and the subtraction are exact in a double only for zoom ≤ 52 and |y| < 2^52, so the function requires that. Negative zoom levels and the rounding of larger values are not modelled.
- MbTilesDatabase.Database.GetTileAsBytes: a closed handle makes the query throw an uncaught `IllegalStateException`; the model requires a handle that is not closed instead. The same holds for MbTilesDatabase.Database.GetBoundingBox.
- MbTilesDatabaseRenderer.Renderer.ExecuteJob: calling it after `destroy`, or with a closed handle, throws in the source. The model requires a live database whose handle is not closed. `Start`, `Stop` and `GetStartPoint` likewise require a live database where they use it.
- `PausableThread` scheduling, the interrupt mechanism and cross-thread synchronisation of the queue and caches are concurrency and are not modelled. The interrupt flag, the render result and the frame buffer's answer are inputs to a step.
- MapWorker.Run: the run assumes that no jobs are pushed between steps.
- The queue is polled in its sequence order. The priority order of `JobQueue` and its de-duplication are not part of this model.
- The eviction policy of `TileCache` (its capacity and which tile goes first) is not modelled. The jobs each cache's `put` evicts are an input of the step, and the worker lemmas state which evictions they allow.
- A `put` is modelled as always storing the tile it is given. A cache that drops the store itself (capacity 0, or a failed write to the file-system cache) is not modelled.
- The worker sees the renderer only through its working flag and its render result. `MapRenderer` is a bare interface and is not modelled as a separate type. `setDatabaseRenderer`, `getThreadName` and `getThreadPriority` are not modelled: they only configure the thread and select the renderer.
- `MapActivity.java` has no logic. `Log` calls have no effect on the model.
