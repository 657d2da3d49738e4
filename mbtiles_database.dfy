/**
 * The MBTiles database access object: which files count as MBTiles artifacts, the
 * lookup of a tile's image by (column, row, zoom) and the reading of the `bounds`
 * metadata entry. The SQLite engine itself is represented by the table contents.
 */
module MbTilesDatabase {
  import opened Wrappers
  import opened JavaStrings
  import opened Tiles

  /** The state of the `mDataBase` handle: never assigned, open, or closed. */
  datatype Handle = Unset | Open | Closed

  /** The primary key of the `tiles` table. */
  datatype TileKey = TileKey(column: int, row: int, zoom: int)

  /**
   * A coordinate in degrees, kept as the decimal literal it was read from; the
   * conversion to a binary double is not modelled.
   */
  datatype Degrees = Degrees(literal: string)

  /** `BoundingBox`, with its fields in the order of its constructor. */
  datatype BoundingBox = BoundingBox(
    minLatitude: Degrees,
    minLongitude: Degrees,
    maxLatitude: Degrees,
    maxLongitude: Degrees)

  /** `Double.parseDouble`, with the number left as its text. */
  function ParseDegrees(text: string): Degrees {
    Degrees(text)
  }

  // ---------------------------------------------------------------- file names

  /** The part of a file name after its last '.', or the whole name when it has none. */
  function FileExtension(fileName: string): (ext: string)
    ensures '.' !in ext
    ensures EndsWith(fileName, ext)
    ensures ext == fileName || (|ext| < |fileName| && fileName[|fileName| - |ext| - 1] == '.')
  {
    fileName[LastIndexOf(fileName, '.') + 1..]
  }

  /** Whether `createDataBase` takes a file for a stale MBTiles database or journal. */
  predicate IsMbTilesFile(fileName: string): (r: bool)
    ensures r ==> EndsWith(fileName, "mbtiles") || EndsWith(fileName, "mbtiles-journal")
  {
    var ext := FileExtension(fileName);
    ext == "mbtiles" || ext == "mbtiles-journal"
  }

  /**
   * A name is an MBTiles artifact exactly when it is one of the two bare words or ends
   * in ".mbtiles" or ".mbtiles-journal"; the comparison is case-sensitive.
   */
  lemma MbTilesFileBySuffix(fileName: string)
    ensures IsMbTilesFile(fileName) <==>
      fileName == "mbtiles" || fileName == "mbtiles-journal" ||
      EndsWith(fileName, ".mbtiles") || EndsWith(fileName, ".mbtiles-journal")
  {
    assert '.' !in "mbtiles" && "." + "mbtiles" == ".mbtiles";
    assert '.' !in "mbtiles-journal" && "." + "mbtiles-journal" == ".mbtiles-journal";
    ExtensionBySuffix(fileName, "mbtiles");
    ExtensionBySuffix(fileName, "mbtiles-journal");
  }

  /** The extension is a dot-free word w exactly when the name is w or ends in "." + w. */
  lemma ExtensionBySuffix(fileName: string, word: string)
    requires '.' !in word
    ensures FileExtension(fileName) == word <==> fileName == word || EndsWith(fileName, "." + word)
  {
    var n := fileName;
    var r := LastIndexOf(n, '.');
    if FileExtension(n) == word && n != word {
      assert n[r] == '.';
      assert n[|n| - |word| - 1..] == [n[r]] + n[r + 1..];
    }
    if EndsWith(n, "." + word) {
      var p := |n| - |word| - 1;
      assert n[p] == ("." + word)[0];
      assert n[p + 1..] == word;
      forall i | p < i < |n| ensures n[i] != '.' {
        assert n[i] == word[i - p - 1];
      }
      assert r == p;
    }
  }

  /** A name without a '.' is compared as a whole. */
  lemma NameWithoutDotIsItsExtension(fileName: string)
    requires '.' !in fileName
    ensures FileExtension(fileName) == fileName
  {
  }

  /** The files of a directory listing that `createDataBase` deletes, in listing order. */
  function MbTilesFilesIn(names: seq<string>): (selected: seq<string>)
    ensures |selected| <= |names|
  {
    if names == [] then []
    else
      var last := names[|names| - 1];
      MbTilesFilesIn(names[..|names| - 1]) + (if IsMbTilesFile(last) then [last] else [])
  }

  /** The deletion list holds every MBTiles artifact of the listing and nothing else. */
  lemma {:induction false} MbTilesFilesInSelects(names: seq<string>)
    ensures forall name :: name in MbTilesFilesIn(names) <==> name in names && IsMbTilesFile(name)
  {
    if names != [] {
      var init := names[..|names| - 1];
      MbTilesFilesInSelects(init);
      assert names == init + [names[|names| - 1]];
    }
  }

  /** Selecting from one more name of a listing appends that name when it is an artifact. */
  lemma MbTilesFilesInPrefix(names: seq<string>, i: nat)
    requires i < |names|
    ensures MbTilesFilesIn(names[..i + 1]) ==
      MbTilesFilesIn(names[..i]) + (if IsMbTilesFile(names[i]) then [names[i]] else [])
  {
    assert names[..i + 1][..i] == names[..i];
  }

  /**
   * The deletion step of `createDataBase`: when no installed database was found and the
   * directory listing succeeded, every MBTiles artifact in it is deleted. Returns the
   * names passed to `File.delete`, in order.
   */
  method StaleArtifacts(dbExists: bool, listing: Option<seq<string>>) returns (deleted: seq<string>)
    ensures dbExists || listing.None? ==> deleted == []
    ensures !dbExists && listing.Some? ==> deleted == MbTilesFilesIn(listing.value)
  {
    deleted := [];
    if !dbExists && listing.Some? {
      deleted := DeleteArtifacts(listing.value);
    }
  }

  /** The loop over the listing: each file whose extension matches is deleted, in order. */
  method DeleteArtifacts(files: seq<string>) returns (deleted: seq<string>)
    ensures deleted == MbTilesFilesIn(files)
  {
    deleted := [];
    for i := 0 to |files|
      invariant deleted == MbTilesFilesIn(files[..i])
    {
      MbTilesFilesInPrefix(files, i);
      if IsMbTilesFile(files[i]) {
        deleted := deleted + [files[i]];
      }
    }
    assert files[..|files|] == files;
  }

  // ---------------------------------------------------------------- bounds metadata

  /**
   * The reading of a `bounds` value: four comma-separated fields, in the order min
   * longitude, min latitude, max longitude, max latitude; any other count is absent.
   */
  function ParseBounds(box: string): (r: Option<BoundingBox>)
    ensures r.Some? <==> |Split(box, ',')| == 4
    ensures r.Some? ==>
      var f := Split(box, ',');
      r.value.minLongitude == ParseDegrees(f[0]) && r.value.minLatitude == ParseDegrees(f[1]) &&
      r.value.maxLongitude == ParseDegrees(f[2]) && r.value.maxLatitude == ParseDegrees(f[3])
  {
    var split := Split(box, ',');
    if |split| != 4 then None
    else
      var minLon := ParseDegrees(split[0]);
      var minLat := ParseDegrees(split[1]);
      var maxLon := ParseDegrees(split[2]);
      var maxLat := ParseDegrees(split[3]);
      Some(BoundingBox(minLat, minLon, maxLat, maxLon))
  }

  /** The `bounds` text of a box: "minLon,minLat,maxLon,maxLat". */
  function FormatBounds(box: BoundingBox): string {
    Join([box.minLongitude.literal, box.minLatitude.literal,
          box.maxLongitude.literal, box.maxLatitude.literal], ',')
  }

  /** Literals that can stand in a `bounds` text: no commas, and a last field that `split` keeps. */
  predicate WritableBounds(box: BoundingBox) {
    ',' !in box.minLongitude.literal && ',' !in box.minLatitude.literal &&
    ',' !in box.maxLongitude.literal && ',' !in box.maxLatitude.literal &&
    box.maxLatitude.literal != ""
  }

  /** Reading the text of a box gives the box back, with every coordinate in its own slot. */
  lemma BoundsRoundTrip(box: BoundingBox)
    requires WritableBounds(box)
    ensures ParseBounds(FormatBounds(box)) == Some(box)
  {
    var fields := [box.minLongitude.literal, box.minLatitude.literal,
                   box.maxLongitude.literal, box.maxLatitude.literal];
    SplitOfJoin(fields, ',');
  }

  /**
   * Every accepted `bounds` text is the text of the box it yields, followed by the
   * commas of the trailing empty fields `split` dropped.
   */
  lemma AcceptedBoundsShape(box: string) returns (k: nat)
    requires ParseBounds(box).Some?
    ensures box == FormatBounds(ParseBounds(box).value) + seq(k, _ => ',')
  {
    var f := Split(box, ',');
    k := SplitShape(box, ',');
    var b := ParseBounds(box).value;
    assert [b.minLongitude.literal, b.minLatitude.literal, b.maxLongitude.literal, b.maxLatitude.literal] == f;
  }

  /** Trailing commas are dropped before the fields are counted, so four fields may be followed by commas. */
  lemma TrailingCommasDropped()
    ensures ParseBounds("1,2,3,4,,") == Some(BoundingBox(Degrees("2"), Degrees("1"), Degrees("4"), Degrees("3")))
  {
    var fields := ["1", "2", "3", "4"];
    assert "1,2,3,4,," == Join(fields, ',') + seq(2, _ => ',');
    SplitDropsTrailingSeparators(fields, 2, ',');
  }

  /** A trailing empty fourth field does not count, so three values and a comma are absent. */
  lemma EmptyFourthFieldRejected()
    ensures ParseBounds("1,2,3,").None?
  {
    var fields := ["1", "2", "3", ""];
    assert Join(fields, ',') == "1,2,3,";
    FieldsOfJoin(fields, ',');
    assert "1,2,3,"[1] == ',';
    assert fields[..3] == ["1", "2", "3"];
  }

  // ---------------------------------------------------------------- the database object

  class Database {
    /** The database file name (`DB_NAME`). */
    const dbName: string
    /** The `tiles` table: `tile_data` by key, `None` for a NULL blob. */
    const tiles: map<TileKey, Option<Blob>>
    /** The `metadata` table: `value` by `name`, `None` for a NULL value. */
    const metadata: map<string, Option<string>>
    /** `mDataBase`. */
    var handle: Handle

    /**
     * The constructor runs `createDataBase`: an installed database is left alone and the
     * handle stays unset; otherwise the file is copied in and opened and closed once.
     */
    constructor (dbName: string, tiles: map<TileKey, Option<Blob>>,
                 metadata: map<string, Option<string>>, installed: bool)
      ensures this.dbName == dbName && this.tiles == tiles && this.metadata == metadata
      ensures handle == if installed then Unset else Closed
    {
      this.dbName := dbName;
      this.tiles := tiles;
      this.metadata := metadata;
      handle := Unset;
      if !installed {
        handle := Open;
        handle := Closed;
      }
    }

    /** `openDataBase`: assigns a freshly opened handle. */
    method OpenDataBase()
      modifies this
      ensures handle == Open
    {
      handle := Open;
    }

    /** `close`: closes the handle if one was ever assigned. */
    method Close()
      modifies this
      ensures handle == if old(handle) == Unset then Unset else Closed
    {
      if handle != Unset {
        handle := Closed;
      }
    }

    /**
     * `getTileAsBytes`: the blob stored under the key. Absent when no row matches, when the
     * blob is NULL, and when the handle was never assigned (the NullPointerException is
     * caught). A closed handle makes the query throw, which callers must not provoke.
     */
    function GetTileAsBytes(key: TileKey): (r: Option<Blob>)
      reads this
      requires handle != Closed
      ensures r.Some? <==> handle == Open && key in tiles && tiles[key].Some?
      ensures r.Some? ==> r.value == tiles[key].value
    {
      if handle == Open && key in tiles then tiles[key] else None
    }

    /** The box the `bounds` entry describes, whatever the state of the handle. */
    function BoundsEntry(): Option<BoundingBox>
      reads this
    {
      if "bounds" in metadata && metadata["bounds"].Some? then ParseBounds(metadata["bounds"].value)
      else None
    }

    /**
     * `getBoundingBox`: absent when the handle was never assigned, when there is no `bounds`
     * row, when its value is NULL, and when the value does not split into four fields.
     */
    function GetBoundingBox(): (r: Option<BoundingBox>)
      reads this
      requires handle != Closed
      ensures handle == Unset ==> r.None?
      ensures "bounds" !in metadata || metadata["bounds"].None? ==> r.None?
      ensures handle == Open && "bounds" in metadata && metadata["bounds"].Some? ==>
        r == ParseBounds(metadata["bounds"].value)
    {
      if handle == Open then BoundsEntry() else None
    }

    /** `getDBName`: the file name the database was created with. */
    function GetDBName(): (name: string)
      reads this
      ensures name == dbName
    {
      dbName
    }
  }
}
