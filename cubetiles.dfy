/**
 * Cube tiles: `cubes.tile` and `cubes._serveTile`. A tile entirely outside
 * the dataset's extent is answered with the empty tile before anything
 * else happens; otherwise the tile is looked up on disk under a key built
 * from the cube, the dataset, the md5 of the cube's style and the
 * coordinates, and a miss queues one render job. The md5 digest is an
 * uninterpreted function; nothing is assumed about collisions.
 */
module CubeTiles {
  import opened Js
  import opened TileKeys
  import opened Store
  import opened Jobs
  import opened Extent
  import Cubes

  /** How a cube tile request is answered. */
  datatype TileAnswer =
    | EmptyTile            // the tile lies outside the dataset
    | ErrorTile            // the request or the dataset is unusable
    | Png(data: Bytes)     // the cached tile, as image/png
    | Rendering(job: Job)  // answered once the queued job completes
    | Failed               // a lookup reported an error: 400
    | Crash                // an exception escapes

  /** Where the tile is cached: None when the style is not text and hashing it throws. */
  function TilePathOf(md5: string -> string, cube: Doc, fileId: Json, req: Cubes.CubeRequest): Option<string> {
    match Get(cube, "style")
    case Str(style) => Some(CubePath(ToText(Get(cube, "cube_id")), ToText(fileId), md5(style), req.z, req.x, req.y))
    case _ => None
  }

  /** `cubes._serveTile` as a function of the cached files. */
  function ServeOutcome(proj: Projection, md5: string -> string, st: State, cube: Doc, fileId: Json,
                        extent: LonLatBox, req: Cubes.CubeRequest): TileAnswer
  {
    if Outside(TileBounds(proj, req.z, req.x, req.y), RasterBounds(proj, extent)) then EmptyTile
    else
      match TilePathOf(md5, cube, fileId, req)
      case None => Crash
      case Some(path) =>
        var cached := DiskRead(st, path);
        if cached.Buf? then Png(cached.bytes)
        else Rendering(CubeJob(path, ToText(fileId), ToText(Get(cube, "cube_id")), req.z, req.x, req.y))
  }

  function JobsOfAnswer(a: TileAnswer): seq<Job> {
    if a.Rendering? then [a.job] else []
  }

  /** `cubes._serveTile`: culling, then the disk cache, then the render queue. */
  method ServeTile(proj: Projection, md5: string -> string, store: TileStore, queue: JobQueue, cube: Doc, fileId: Json,
                   extent: LonLatBox, req: Cubes.CubeRequest) returns (a: TileAnswer)
    modifies queue
    ensures a == ServeOutcome(proj, md5, store.Snapshot(), cube, fileId, extent, req)
    ensures queue.jobs == old(queue.jobs) + JobsOfAnswer(a)
  {
    var outside := IsOutsideExtent(proj, req.z, req.x, req.y, extent);
    if outside {
      return EmptyTile;
    }
    var path := TilePathOf(md5, cube, fileId, req);
    if path.None? {
      return Crash;
    }
    var cached := DiskRead(store.Snapshot(), path.value);
    if cached.Buf? {
      a := Png(cached.bytes);
    } else {
      var job := CubeJob(path.value, ToText(fileId), ToText(Get(cube, "cube_id")), req.z, req.x, req.y);
      queue.Create(job);
      a := Rendering(job);
    }
  }

  /**
   * `cubes.tile`: `param` is the wildcard route parameter, `cube` and `dataset`
   * what the cube lookup and the upload-status lookup produced (None when
   * they reported an error), `extentOf` reads a dataset's extent.
   */
  function TileOutcome(proj: Projection, md5: string -> string, st: State, param: Option<string>,
                       cube: Option<Doc>, dataset: Option<Json>, extentOf: Json -> LonLatBox): TileAnswer
  {
    match Cubes.GetCubeRequest(param)
    case None => ErrorTile
    case Some(req) =>
      if cube.None? || dataset.None? then Failed
      else
        var d := dataset.value;
        if !Truthy(d) || (d.Obj? && Truthy(Get(d.fields, "error"))) then ErrorTile
        else ServeOutcome(proj, md5, st, cube.value, if d.Obj? then Get(d.fields, "file_id") else Undefined, extentOf(d), req)
  }

  // ---------------------------------------------------------------------
  // Properties

  /**
   * A tile outside the dataset is the empty tile whatever is cached and
   * whatever the style hashes to: no key is built, no file read, no job queued.
   */
  lemma OutsideIsEmpty(proj: Projection, md5a: string -> string, md5b: string -> string, st1: State, st2: State,
                       cube: Doc, fileId: Json, extent: LonLatBox, req: Cubes.CubeRequest)
    requires Outside(TileBounds(proj, req.z, req.x, req.y), RasterBounds(proj, extent))
    ensures ServeOutcome(proj, md5a, st1, cube, fileId, extent, req) == EmptyTile
    ensures ServeOutcome(proj, md5a, st1, cube, fileId, extent, req) == ServeOutcome(proj, md5b, st2, cube, fileId, extent, req)
    ensures JobsOfAnswer(EmptyTile) == []
  {
  }

  /**
   * A tile inside the extent with a text style is served from the cache when
   * it is there, and otherwise queues exactly one "cube_tile" job with
   * priority high and five attempts, pointing at the cache path.
   */
  lemma CacheOrRenderCubeTile(proj: Projection, md5: string -> string, st: State, cube: Doc, fileId: Json,
                              extent: LonLatBox, req: Cubes.CubeRequest)
    requires !Outside(TileBounds(proj, req.z, req.x, req.y), RasterBounds(proj, extent))
    requires Get(cube, "style").Str?
    ensures var path := TilePathOf(md5, cube, fileId, req).value;
      var a := ServeOutcome(proj, md5, st, cube, fileId, extent, req);
      && (path in st.disk ==> a == Png(st.disk[path]) && |JobsOfAnswer(a)| == 0)
      && (path !in st.disk ==>
            (a.Rendering? && |JobsOfAnswer(a)| == 1 && a.job.name == "cube_tile" && a.job.priority == "high"
             && a.job.attempts == 5 && a.job.payload.tilePath == path))
  {
  }

  /** Once the render job's tile is written to the job's path, the same request is served from the cache. */
  lemma RenderedCubeTileIsServed(proj: Projection, md5: string -> string, st: State, cube: Doc, fileId: Json,
                                 extent: LonLatBox, req: Cubes.CubeRequest, b: Bytes)
    requires ServeOutcome(proj, md5, st, cube, fileId, extent, req).Rendering?
    ensures var job := ServeOutcome(proj, md5, st, cube, fileId, extent, req).job;
      ServeOutcome(proj, md5, SaveCube(st, job.payload.tilePath, Some(b), true), cube, fileId, extent, req) == Png(b)
  {
  }

  /** The style enters the cache lookup only through its digest: styles with one digest share every answer. */
  lemma StyleOnlyThroughDigest(proj: Projection, md5: string -> string, st: State, cube: Doc, s1: string, s2: string,
                               fileId: Json, extent: LonLatBox, req: Cubes.CubeRequest)
    requires md5(s1) == md5(s2)
    ensures ServeOutcome(proj, md5, st, cube["style" := Str(s1)], fileId, extent, req) ==
            ServeOutcome(proj, md5, st, cube["style" := Str(s2)], fileId, extent, req)
  {
  }

  /**
   * Conversely, cubes whose styles have different digests never share a
   * cache path, when no key field holds ':'.
   */
  lemma DistinctDigestsDistinctPaths(md5: string -> string, cube: Doc, s1: string, s2: string, fileId: Json, req: Cubes.CubeRequest)
    requires md5(s1) != md5(s2)
    requires ':' !in md5(s1) && ':' !in md5(s2) && ':' !in ToText(Get(cube, "cube_id")) && ':' !in ToText(fileId)
    requires ':' !in req.z && ':' !in req.x && ':' !in req.y
    ensures TilePathOf(md5, cube["style" := Str(s1)], fileId, req) != TilePathOf(md5, cube["style" := Str(s2)], fileId, req)
  {
    var c, f := ToText(Get(cube, "cube_id")), ToText(fileId);
    assert Get(cube["style" := Str(s1)], "cube_id") == Get(cube, "cube_id");
    assert Get(cube["style" := Str(s2)], "cube_id") == Get(cube, "cube_id");
    CubeKeyInjective(CubeKeyFields(c, f, md5(s1), req.z, req.x, req.y), CubeKeyFields(c, f, md5(s2), req.z, req.x, req.y));
    var k1 := CubeKey(c, f, md5(s1), req.z, req.x, req.y);
    var k2 := CubeKey(c, f, md5(s2), req.z, req.x, req.y);
    assert k1 != k2;
    assert (CubeDir + k1)[|CubeDir|..] == k1;
    assert (CubeDir + k2)[|CubeDir|..] == k2;
  }

  /** A malformed request gets the error tile, and so does a dataset that reports an error. */
  lemma ErrorTiles(proj: Projection, md5: string -> string, st: State, param: Option<string>,
                   cube: Option<Doc>, dataset: Option<Json>, extentOf: Json -> LonLatBox)
    ensures Cubes.GetCubeRequest(param).None? ==> TileOutcome(proj, md5, st, param, cube, dataset, extentOf) == ErrorTile
    ensures (Cubes.GetCubeRequest(param).Some? && cube.Some? && dataset.Some? && dataset.value.Obj?
             && Truthy(Get(dataset.value.fields, "error"))) ==>
        TileOutcome(proj, md5, st, param, cube, dataset, extentOf) == ErrorTile
  {
  }
}
