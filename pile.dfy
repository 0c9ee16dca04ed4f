/**
 * The layer tile service: parsing a tile URL, checking its parameters,
 * the cache-or-render rule of `pile.get*Tile`, the `getTile` handler that
 * ties them together, the query strings sent to the portal, and the
 * validation and assembly of a new layer in `pile.createLayer`.
 */
module Pile {
  import opened Js
  import opened TileKeys
  import opened Store
  import opened Jobs

  // ---------------------------------------------------------------------
  // Formats

  /** `pile.headers[type]` */
  function ContentType(ext: string): (t: Option<string>)
    ensures t.Some? <==> ext == "png" || ext == "pbf" || ext == "grid"
  {
    if ext == "png" then Some("image/png")
    else if ext == "pbf" then Some("application/x-protobuf")
    else if ext == "grid" then Some("application/json")
    else None
  }

  /** Which getter `getTile` queues for the URL's extension. */
  function FormatKind(ext: string): (k: Option<Kind>)
    ensures k.Some? <==> ContentType(ext).Some?
    ensures k == Some(Raster) <==> ContentType(ext) == Some("image/png")
    ensures k == Some(Vector) <==> ContentType(ext) == Some("application/x-protobuf")
    ensures k == Some(Grid) <==> ContentType(ext) == Some("application/json")
  {
    if ext == "pbf" then Some(Vector)
    else if ext == "png" then Some(Raster)
    else if ext == "grid" then Some(Grid)
    else None
  }

  // ---------------------------------------------------------------------
  // The tile URL

  /**
   * The fields `getTile` reads from `/tiles/<layerUuid>/<z>/<x>/<y>.<type>`;
   * None when the path has fewer than six '/'-separated parts, where reading
   * `parsed[5].split` throws.
   */
  function ParseTilePath(path: string): (r: Option<TileParams>)
    ensures r.Some? <==> |Split(path, '/')| >= 6
  {
    var parsed := Split(path, '/');
    if |parsed| < 6 then None
    else
      var last := Split(parsed[5], '.');
      Some(TileParams(parsed[2], ParseInt(parsed[3]), ParseInt(parsed[4]), ParseInt(last[0]),
        if |last| >= 2 then Some(last[1]) else None))
  }

  /** The path a client requests for a tile. */
  function TilePath(layerUuid: string, z: Number, x: Number, y: Number, ext: string): string {
    "/tiles/" + layerUuid + "/" + NumberText(z) + "/" + NumberText(x) + "/" + NumberText(y) + "." + ext
  }

  lemma TilePathShape(layerUuid: string, zs: string, xs: string, ys: string, ext: string)
    ensures "/tiles/" + layerUuid + "/" + zs + "/" + xs + "/" + ys + "." + ext ==
      "" + "/" + "tiles" + "/" + layerUuid + "/" + zs + "/" + xs + "/" + (ys + "." + ext)
  {
    assert "/tiles/" == "" + "/" + "tiles" + "/";
    var front := "" + "/" + "tiles" + "/" + layerUuid + "/" + zs + "/" + xs + "/";
    assert "/tiles/" + layerUuid + "/" + zs + "/" + xs + "/" + ys + "." + ext == front + ys + "." + ext;
  }

  lemma TilePathSplits(layerUuid: string, zs: string, xs: string, ys: string, ext: string)
    requires '/' !in layerUuid && '/' !in zs && '/' !in xs && '/' !in ys && '/' !in ext
    ensures Split("/tiles/" + layerUuid + "/" + zs + "/" + xs + "/" + ys + "." + ext, '/') ==
      ["", "tiles", layerUuid, zs, xs, ys + "." + ext]
  {
    var last := ys + "." + ext;
    assert '/' !in last by {
      forall i | 0 <= i < |last| ensures last[i] != '/' {
        if i < |ys| { assert last[i] == ys[i]; }
        else if i > |ys| { assert last[i] == ext[i - |ys| - 1]; }
      }
    }
    TilePathShape(layerUuid, zs, xs, ys, ext);
    var k0 := "";
    SplitSingle(k0, '/');
    var k1 := k0 + "/" + "tiles";
    SplitStep(k0, [k0], "tiles", '/');
    var k2 := k1 + "/" + layerUuid;
    SplitStep(k1, [k0, "tiles"], layerUuid, '/');
    var k3 := k2 + "/" + zs;
    SplitStep(k2, [k0, "tiles", layerUuid], zs, '/');
    var k4 := k3 + "/" + xs;
    SplitStep(k3, [k0, "tiles", layerUuid, zs], xs, '/');
    SplitStep(k4, [k0, "tiles", layerUuid, zs, xs], last, '/');
  }

  /**
   * A tile URL reads back as the layer, the three coordinates and the
   * extension it was built from, when the layer id holds no '/' and the
   * extension no '/' or '.'.
   */
  lemma ParseTilePathRoundTrip(layerUuid: string, z: Number, x: Number, y: Number, ext: string)
    requires '/' !in layerUuid && '/' !in ext && '.' !in ext
    ensures ParseTilePath(TilePath(layerUuid, z, x, y, ext)) == Some(TileParams(layerUuid, z, x, y, Some(ext)))
  {
    var zs, xs, ys := NumberText(z), NumberText(x), NumberText(y);
    NumberTextAvoids(z, '/');
    NumberTextAvoids(x, '/');
    NumberTextAvoids(y, '/');
    NumberTextAvoids(y, '.');
    TilePathSplits(layerUuid, zs, xs, ys, ext);
    SplitSingle(ys, '.');
    SplitStep(ys, [ys], ext, '.');
    ParseIntOfNumberText(z);
    ParseIntOfNumberText(x);
    ParseIntOfNumberText(y);
  }

  // ---------------------------------------------------------------------
  // checkParams

  const MissingLayer := "Invalid url: Missing layerUuid."
  const MissingCoordinates := "Invalid url: Missing tile coordinates."
  const MissingType := "Invalid url: Missing type extension."

  datatype ParamsCheck = Accepted | Rejected(message: string)

  /** `!params.type`: the extension is absent or empty. */
  predicate NoType(p: TileParams) {
    p.ext.None? || p.ext.value == ""
  }

  /**
   * `pile.checkParams` as written: the first falsy field is reported, so a
   * coordinate of 0 counts as missing just like NaN.
   */
  function CheckParams(p: TileParams): (c: ParamsCheck)
    ensures c == Accepted <==>
      p.layerUuid != "" && NumberTruthy(p.z) && NumberTruthy(p.x) && NumberTruthy(p.y) && !NoType(p)
    ensures c == Rejected(MissingLayer) <==> p.layerUuid == ""
    ensures c == Rejected(MissingCoordinates) <==>
      p.layerUuid != "" && !(NumberTruthy(p.z) && NumberTruthy(p.x) && NumberTruthy(p.y))
    ensures c == Rejected(MissingType) <==>
      p.layerUuid != "" && NumberTruthy(p.z) && NumberTruthy(p.x) && NumberTruthy(p.y) && NoType(p)
  {
    if p.layerUuid == "" then Rejected(MissingLayer)
    else if !NumberTruthy(p.z) then Rejected(MissingCoordinates)
    else if !NumberTruthy(p.x) then Rejected(MissingCoordinates)
    else if !NumberTruthy(p.y) then Rejected(MissingCoordinates)
    else if NoType(p) then Rejected(MissingType)
    else Accepted
  }

  /** The check as its messages mean it: a coordinate is missing only when it did not parse. */
  function CheckParamsIntended(p: TileParams): (c: ParamsCheck)
    ensures c == Accepted <==> p.layerUuid != "" && p.z.Int? && p.x.Int? && p.y.Int? && !NoType(p)
    ensures c == Rejected(MissingCoordinates) <==> p.layerUuid != "" && (p.z.NaN? || p.x.NaN? || p.y.NaN?)
  {
    if p.layerUuid == "" then Rejected(MissingLayer)
    else if p.z.NaN? || p.x.NaN? || p.y.NaN? then Rejected(MissingCoordinates)
    else if NoType(p) then Rejected(MissingType)
    else Accepted
  }

  /** The world tile /tiles/<layer>/0/0/0.png is refused by the check as written and accepted as intended. */
  lemma CheckParamsRejectsWorldTile(layerUuid: string)
    requires layerUuid != "" && '/' !in layerUuid
    ensures ParseTilePath(TilePath(layerUuid, Int(0), Int(0), Int(0), "png")).Some?
    ensures CheckParams(ParseTilePath(TilePath(layerUuid, Int(0), Int(0), Int(0), "png")).value) == Rejected(MissingCoordinates)
    ensures CheckParamsIntended(ParseTilePath(TilePath(layerUuid, Int(0), Int(0), Int(0), "png")).value) == Accepted
  {
    ParseTilePathRoundTrip(layerUuid, Int(0), Int(0), Int(0), "png");
  }

  /** Every well-formed tile URL with numeric coordinates passes the intended check, and nothing else with a layer and type does. */
  lemma CheckParamsIntendedAcceptsTileUrls(layerUuid: string, z: Number, x: Number, y: Number, ext: string)
    requires layerUuid != "" && '/' !in layerUuid && ext != "" && '/' !in ext && '.' !in ext
    ensures ParseTilePath(TilePath(layerUuid, z, x, y, ext)).Some?
    ensures CheckParamsIntended(ParseTilePath(TilePath(layerUuid, z, x, y, ext)).value) == Accepted <==>
      z.Int? && x.Int? && y.Int?
  {
    ParseTilePathRoundTrip(layerUuid, z, x, y, ext);
  }

  /**
   * The guard `pile._prepareTile` opens with, which every render worker runs
   * first: the falsy tests of `pile.checkParams` again, answered through
   * `res`, a name not in scope there, so a rejected request throws in the
   * worker and its job never completes.
   */
  function PrepareTileThrows(p: TileParams): (t: bool)
    ensures t <==> CheckParams(p) != Accepted
  {
    p.layerUuid == "" || !NumberTruthy(p.z) || !NumberTruthy(p.x) || !NumberTruthy(p.y) || NoType(p)
  }

  /** The render job of the world tile throws in `_prepareTile`, although the intended check accepts it. */
  lemma WorldTileRenderThrows(layerUuid: string, ext: string)
    requires layerUuid != "" && '/' !in layerUuid && ext != "" && '/' !in ext && '.' !in ext
    ensures ParseTilePath(TilePath(layerUuid, Int(0), Int(0), Int(0), ext)).Some?
    ensures PrepareTileThrows(ParseTilePath(TilePath(layerUuid, Int(0), Int(0), Int(0), ext)).value)
    ensures CheckParamsIntended(ParseTilePath(TilePath(layerUuid, Int(0), Int(0), Int(0), ext)).value) == Accepted
  {
    ParseTilePathRoundTrip(layerUuid, Int(0), Int(0), Int(0), ext);
  }

  // ---------------------------------------------------------------------
  // Cache or render

  /** What a `get*Tile` call leads to: the cached tile, or a queued render job. */
  datatype Lookup = Served(data: Reply) | Queued(job: Job)

  /** The rule every `pile.get*Tile` follows, as a function of the store. */
  function LookupTile(kind: Kind, setting: string, st: State, p: TileParams, storedLayer: Json): Lookup {
    var cached := Cached(kind, setting, st, p);
    if Hit(cached) then Served(cached) else Queued(RenderJob(kind, p, storedLayer))
  }

  /** What the getter of `kind` reads from the store; a read error is ignored. */
  function Cached(kind: Kind, setting: string, st: State, p: TileParams): Reply {
    match kind
    case Raster => ReadRaster(setting, st, p).1
    case Vector => ReadVector(setting, st, p).1
    case Grid => ReadGrid(st, p)
  }

  /** The jobs a lookup adds to the queue. */
  function JobsOf(l: Lookup): seq<Job> {
    if l.Queued? then [l.job] else []
  }

  /** A lookup serves exactly the truthy cached values; every miss queues one high-priority job with five attempts. */
  lemma CacheOrRender(kind: Kind, setting: string, st: State, p: TileParams, storedLayer: Json)
    ensures var l := LookupTile(kind, setting, st, p, storedLayer);
      && (l.Served? <==> Hit(Cached(kind, setting, st, p)))
      && (l.Served? ==> l.data == Cached(kind, setting, st, p) && |JobsOf(l)| == 0)
      && (l.Queued? ==>
            (|JobsOf(l)| == 1 && l.job.name == RenderJobName(kind) && l.job.priority == "high"
             && l.job.attempts == 5 && l.job.payload == LayerTile(p, storedLayer)))
  {
  }

  /**
   * The lookup in terms of the store's contents: on redis (and for every
   * grid) the tile is served iff its key holds a truthy value, on disk iff
   * its file exists; otherwise its render job is queued.
   */
  lemma StoredTileServedMissingQueued(kind: Kind, setting: string, st: State, p: TileParams, storedLayer: Json)
    ensures (kind == Grid || setting == "redis") ==>
      var key := LayerKey(kind, p);
      LookupTile(kind, setting, st, p, storedLayer) ==
        if key !in st.redis || (kind == Grid && |st.redis[key]| == 0) then Queued(RenderJob(kind, p, storedLayer))
        else if kind == Grid then Served(Text(st.redis[key]))
        else Served(Buf(st.redis[key]))
    ensures kind != Grid && setting == "disk" ==>
      var path := if kind == Raster then RasterPath(p) else VectorPath(p);
      LookupTile(kind, setting, st, p, storedLayer) ==
        if path in st.disk then Served(Buf(st.disk[path])) else Queued(RenderJob(kind, p, storedLayer))
  {
  }

  /** Once a rendered tile has been saved, the next request is served from the cache and queues nothing. */
  lemma SavedTileIsServed(kind: Kind, setting: string, st: State, p: TileParams, b: Bytes, writeOk: bool, storedLayer: Json)
    requires kind != Grid
    requires setting == "redis" || (setting == "disk" && writeOk)
    ensures var st' := if kind == Raster then SaveRaster(setting, st, p, Some(b), writeOk).0
                       else SaveVector(setting, st, p, b, writeOk).0;
      LookupTile(kind, setting, st', p, storedLayer) == Served(Buf(b))
  {
    if kind == Raster {
      RasterRoundTrip(setting, st, p, b, writeOk);
    } else {
      VectorRoundTrip(setting, st, p, b, writeOk);
    }
  }

  /** A saved grid is served when its JSON text is not empty; an empty text counts as a miss. */
  lemma SavedGridIsServed(setting: string, st: State, p: TileParams, json: Bytes, storedLayer: Json)
    ensures LookupTile(Grid, setting, SaveGrid(st, p, json), p, storedLayer) ==
      if |json| > 0 then Served(Text(json)) else Queued(RenderJob(Grid, p, storedLayer))
  {
  }

  /** With no usable store setting the read error is ignored: every raster request queues a render job. */
  lemma UnsetStoreAlwaysRenders(setting: string, st: State, p: TileParams, storedLayer: Json)
    requires setting != "redis" && setting != "disk"
    ensures LookupTile(Raster, setting, st, p, storedLayer) == Queued(RenderJob(Raster, p, storedLayer))
  {
  }

  /** `pile.getRasterTile` */
  method GetRasterTile(store: TileStore, queue: JobQueue, p: TileParams, storedLayer: Json) returns (l: Lookup)
    modifies queue
    ensures l == LookupTile(Raster, store.setting, store.Snapshot(), p, storedLayer)
    ensures queue.jobs == old(queue.jobs) + JobsOf(l)
  {
    var (_, data) := ReadRaster(store.setting, store.Snapshot(), p);
    if Hit(data) {
      l := Served(data);
    } else {
      var job := RenderJob(Raster, p, storedLayer);
      queue.Create(job);
      l := Queued(job);
    }
  }

  /** `pile.getGridTile` */
  method GetGridTile(store: TileStore, queue: JobQueue, p: TileParams, storedLayer: Json) returns (l: Lookup)
    modifies queue
    ensures l == LookupTile(Grid, store.setting, store.Snapshot(), p, storedLayer)
    ensures queue.jobs == old(queue.jobs) + JobsOf(l)
  {
    var data := ReadGrid(store.Snapshot(), p);
    if Hit(data) {
      l := Served(data);
    } else {
      var job := RenderJob(Grid, p, storedLayer);
      queue.Create(job);
      l := Queued(job);
    }
  }

  /**
   * `pile.getVectorTile` with the vector reader store.js lacks: the same rule
   * over the keys `store._saveVectorTile` writes.
   */
  method GetVectorTile(store: TileStore, queue: JobQueue, p: TileParams, storedLayer: Json) returns (l: Lookup)
    modifies queue
    ensures l == LookupTile(Vector, store.setting, store.Snapshot(), p, storedLayer)
    ensures queue.jobs == old(queue.jobs) + JobsOf(l)
  {
    var (_, data) := ReadVector(store.setting, store.Snapshot(), p);
    if Hit(data) {
      l := Served(data);
    } else {
      var job := RenderJob(Vector, p, storedLayer);
      queue.Create(job);
      l := Queued(job);
    }
  }

  // ---------------------------------------------------------------------
  // getTile

  /** How a tile request ends. */
  datatype Outcome =
    | Respond(contentType: Option<string>, data: Reply)  // 200 with `pile.headers[type]`
    | Pending(job: Job)                                   // answered when the job completes
    | EndEmpty                                            // `res.end()` with nothing
    | Crash                                               // an exception escapes

  /** The content type `getTile` sends for the parsed extension. */
  function TypeHeader(p: TileParams): Option<string> {
    if p.ext.Some? then ContentType(p.ext.value) else None
  }

  function KindOf(p: TileParams): Option<Kind> {
    if p.ext.Some? then FormatKind(p.ext.value) else None
  }

  /**
   * `pile.getTile`: parse the URL, fetch the stored layer (a GET with a string
   * key, parsed with `parseLayer`), then run the getter the extension names;
   * an unknown extension runs none and answers 200 with no data.
   */
  function TileOutcome(setting: string, st: State, path: string, parseLayer: Bytes -> Option<Json>): Outcome {
    match ParseTilePath(path)
    case None => Crash
    case Some(p) =>
      var stored := RedisText(st, p.layerUuid);
      if !Hit(stored) then EndEmpty
      else
        match parseLayer(stored.bytes)
        case None => Crash
        case Some(layer) =>
          match KindOf(p)
          case None => Respond(None, Nil)
          case Some(kind) =>
            match LookupTile(kind, setting, st, p, layer)
            case Served(data) => Respond(TypeHeader(p), data)
            case Queued(job) => Pending(job)
  }

  function JobsOfOutcome(r: Outcome): seq<Job> {
    if r.Pending? then [r.job] else []
  }

  /** `pile.getTile` over the store and the render queue. */
  method GetTile(store: TileStore, queue: JobQueue, path: string, parseLayer: Bytes -> Option<Json>) returns (r: Outcome)
    modifies queue
    ensures r == TileOutcome(store.setting, store.Snapshot(), path, parseLayer)
    ensures queue.jobs == old(queue.jobs) + JobsOfOutcome(r)
  {
    var parsed := ParseTilePath(path);
    if parsed.None? {
      return Crash;
    }
    var p := parsed.value;
    var stored := RedisText(store.Snapshot(), p.layerUuid);
    if !Hit(stored) {
      return EndEmpty;
    }
    var layer := parseLayer(stored.bytes);
    if layer.None? {
      return Crash;
    }
    var kind := KindOf(p);
    var l: Lookup;
    if kind == Some(Vector) {
      l := GetVectorTile(store, queue, p, layer.value);
    } else if kind == Some(Raster) {
      l := GetRasterTile(store, queue, p, layer.value);
    } else if kind == Some(Grid) {
      l := GetGridTile(store, queue, p, layer.value);
    } else {
      return Respond(None, Nil);
    }
    if l.Served? {
      r := Respond(TypeHeader(p), l.data);
    } else {
      r := Pending(l.job);
    }
  }

  /** A request whose layer is not stored ends empty and queues nothing; a malformed path crashes. */
  lemma UnknownLayerEndsEmpty(setting: string, st: State, path: string, parseLayer: Bytes -> Option<Json>)
    ensures ParseTilePath(path).None? ==> TileOutcome(setting, st, path, parseLayer) == Crash
    ensures ParseTilePath(path).Some? && ParseTilePath(path).value.layerUuid !in st.redis ==>
      TileOutcome(setting, st, path, parseLayer) == EndEmpty
  {
  }

  /** Whatever is served carries the content type of the kind that was looked up. */
  lemma ServedWithMatchingType(setting: string, st: State, path: string, parseLayer: Bytes -> Option<Json>)
    requires TileOutcome(setting, st, path, parseLayer).Respond?
    ensures var r := TileOutcome(setting, st, path, parseLayer);
      var p := ParseTilePath(path).value;
      && (r.contentType == Some("image/png") <==> KindOf(p) == Some(Raster))
      && (r.contentType == Some("application/x-protobuf") <==> KindOf(p) == Some(Vector))
      && (r.contentType == Some("application/json") <==> KindOf(p) == Some(Grid))
      && (r.contentType.None? <==> r.data.Nil? && KindOf(p).None?)
  {
    var p := ParseTilePath(path).value;
    if KindOf(p).Some? {
      var l := LookupTile(KindOf(p).value, setting, st, p, parseLayer(RedisText(st, p.layerUuid).bytes).value);
      assert l.Served? && Hit(l.data);
    }
  }

  /** How a queued request is answered once its job completes: the tile is read again. */
  function Completion(kind: Kind, setting: string, st: State, p: TileParams): Outcome {
    match kind
    case Raster =>
      var (err, data) := ReadRaster(setting, st, p);
      if err.Some? then EndEmpty else Respond(Some("image/png"), data)
    case Vector =>
      var (err, data) := ReadVector(setting, st, p);
      if err.Some? then EndEmpty else Respond(Some("application/x-protobuf"), data)
    case Grid => Respond(Some("application/json"), ReadGrid(st, p))
  }

  /** When the render job set the grid, the completion re-read answers with its JSON text. */
  lemma CompletionServesRenderedGrid(setting: string, st: State, p: TileParams, json: Bytes)
    ensures Completion(Grid, setting, SaveGrid(st, p, json), p) == Respond(ContentType("grid"), Text(json))
  {
  }

  /** When the render job saved a raster or vector tile, the completion re-read answers with the saved bytes. */
  lemma CompletionServesRenderedTile(kind: Kind, setting: string, st: State, p: TileParams, b: Bytes, writeOk: bool)
    requires kind != Grid
    requires setting == "redis" || (setting == "disk" && writeOk)
    ensures var st' := if kind == Raster then SaveRaster(setting, st, p, Some(b), writeOk).0
                       else SaveVector(setting, st, p, b, writeOk).0;
      Completion(kind, setting, st', p) == Respond(ContentType(if kind == Raster then "png" else "pbf"), Buf(b))
  {
    if kind == Raster {
      RasterRoundTrip(setting, st, p, b, writeOk);
    } else {
      VectorRoundTrip(setting, st, p, b, writeOk);
    }
  }

  /**
   * The vector path as written: `pile.getVectorTile` calls
   * `store._readVectorTile` and the completion handler `pile._readVectorTile`,
   * and neither exists, so every vector request throws.
   */
  function VectorTileAsWritten(setting: string, st: State, p: TileParams, storedLayer: Json): Outcome {
    Crash
  }

  /** A vector tile that is in the store is never served as written, and is served by the corrected reader. */
  lemma VectorTileNeverServedAsWritten(setting: string, st: State, p: TileParams, b: Bytes, writeOk: bool, storedLayer: Json)
    requires setting == "redis" || (setting == "disk" && writeOk)
    ensures var st' := SaveVector(setting, st, p, b, writeOk).0;
      && VectorTileAsWritten(setting, st', p, storedLayer) == Crash
      && LookupTile(Vector, setting, st', p, storedLayer) == Served(Buf(b))
  {
    VectorRoundTrip(setting, st, p, b, writeOk);
  }

  /**
   * `pile.getTile` as written: it answers like `TileOutcome` except that a
   * vector request for a stored layer throws in `pile.getVectorTile`.
   */
  function TileOutcomeAsWritten(setting: string, st: State, path: string, parseLayer: Bytes -> Option<Json>): Outcome {
    match ParseTilePath(path)
    case None => TileOutcome(setting, st, path, parseLayer)
    case Some(p) =>
      var stored := RedisText(st, p.layerUuid);
      if Hit(stored) && parseLayer(stored.bytes).Some? && KindOf(p) == Some(Vector)
      then VectorTileAsWritten(setting, st, p, parseLayer(stored.bytes).value)
      else TileOutcome(setting, st, path, parseLayer)
  }

  /** The handler as written and the corrected one part ways only on vector requests, where the former throws. */
  lemma TileOutcomesDifferOnlyOnVector(setting: string, st: State, path: string, parseLayer: Bytes -> Option<Json>)
    ensures TileOutcomeAsWritten(setting, st, path, parseLayer) != TileOutcome(setting, st, path, parseLayer) ==>
      && TileOutcomeAsWritten(setting, st, path, parseLayer) == Crash
      && ParseTilePath(path).Some? && KindOf(ParseTilePath(path).value) == Some(Vector)
  {
  }

  /**
   * A `.pbf` request for a stored layer whose vector tile is cached throws as
   * written, and the corrected handler serves the cached tile as protobuf.
   */
  lemma CachedVectorTileCrashesAsWritten(setting: string, st: State, layerUuid: string, z: Number, x: Number, y: Number,
                                         parseLayer: Bytes -> Option<Json>)
    requires '/' !in layerUuid
    requires Hit(RedisText(st, layerUuid)) && parseLayer(RedisText(st, layerUuid).bytes).Some?
    requires Hit(ReadVector(setting, st, TileParams(layerUuid, z, x, y, Some("pbf"))).1)
    ensures TileOutcomeAsWritten(setting, st, TilePath(layerUuid, z, x, y, "pbf"), parseLayer) == Crash
    ensures TileOutcome(setting, st, TilePath(layerUuid, z, x, y, "pbf"), parseLayer) ==
      Respond(Some("application/x-protobuf"), ReadVector(setting, st, TileParams(layerUuid, z, x, y, Some("pbf"))).1)
  {
    ParseTilePathRoundTrip(layerUuid, z, x, y, "pbf");
  }

  // ---------------------------------------------------------------------
  // request.get

  /** The portal every request goes to. */
  const PortalUrl := "http://wu:3001"

  /** One `key=value` pair as the query string writes it. */
  function PairText(o: (string, Json)): string {
    o.0 + "=" + ToText(o.1)
  }

  function Pairs(options: seq<(string, Json)>): seq<string> {
    seq(|options|, i requires 0 <= i < |options| => PairText(options[i]))
  }

  /** The query string for the options in enumeration order. */
  function QueryText(options: seq<(string, Json)>): string {
    if |options| == 0 then "" else "?" + Join(Pairs(options), '&')
  }

  /** What the query string holds once `i` pairs are written: '&' follows a pair when more are to come. */
  function QueryPrefix(options: seq<(string, Json)>, i: nat): string
    requires i <= |options|
  {
    "?" + Join(Pairs(options[..i]), '&') + (if 0 < i < |options| then "&" else "")
  }

  /** Writing the next pair, and '&' when pairs remain, extends the prefix by one pair. */
  lemma QueryPrefixStep(options: seq<(string, Json)>, i: nat)
    requires i < |options|
    ensures QueryPrefix(options, i) + PairText(options[i]) + (if i + 1 < |options| then "&" else "") ==
      QueryPrefix(options, i + 1)
  {
    var before := Pairs(options[..i]);
    assert Pairs(options[..i + 1]) == before + [PairText(options[i])];
    if i > 0 {
      JoinSnoc(before, PairText(options[i]), '&');
    } else {
      assert Pairs(options[..1]) == [PairText(options[0])];
    }
  }

  /** `pile.request.get`: builds the query string with a countdown of the pairs still to write. */
  method RequestUrl(endpoint: string, options: seq<(string, Json)>) returns (uri: string)
    ensures uri == PortalUrl + endpoint + QueryText(options)
  {
    var params := "";
    if |options| > 0 {
      params := params + "?";
      var n := |options|;
      var i := 0;
      while i < |options|
        invariant 0 <= i <= |options| && n == |options| - i
        invariant params == QueryPrefix(options, i)
      {
        QueryPrefixStep(options, i);
        var pair := options[i].0 + "=" + ToText(options[i].1);
        params := params + pair;
        n := n - 1;
        if n != 0 {
          params := params + "&";
        }
        i := i + 1;
      }
      assert options[..i] == options;
    }
    uri := PortalUrl + endpoint + params;
  }

  /** Adding an option adds one '&' and its pair at the end: no separator trails. */
  lemma QueryAppend(options: seq<(string, Json)>, k: string, v: Json)
    ensures QueryText(options + [(k, v)]) ==
      if |options| == 0 then "?" + k + "=" + ToText(v)
      else QueryText(options) + "&" + k + "=" + ToText(v)
  {
    var all := options + [(k, v)];
    assert Pairs(all) == Pairs(options) + [PairText((k, v))];
    if |options| > 0 {
      JoinSnoc(Pairs(options), PairText((k, v)), '&');
    } else {
      assert Pairs(all) == [PairText((k, v))];
    }
  }

  lemma PairAvoids(o: (string, Json), c: char)
    requires c != '=' && c !in o.0 && c !in ToText(o.1)
    ensures c !in PairText(o)
  {
    var t := PairText(o);
    forall i | 0 <= i < |t| ensures t[i] != c {
      if i < |o.0| { assert t[i] == o.0[i]; }
      else if i > |o.0| { assert t[i] == ToText(o.1)[i - |o.0| - 1]; }
    }
  }

  /** When no key or value holds '&', splitting the query after '?' at '&' gives back the pairs. */
  lemma QueryDecodes(options: seq<(string, Json)>)
    requires |options| > 0
    requires forall i :: 0 <= i < |options| ==> '&' !in options[i].0 && '&' !in ToText(options[i].1)
    ensures QueryText(options)[0] == '?'
    ensures Split(QueryText(options)[1..], '&') == Pairs(options)
  {
    forall i | 0 <= i < |options| ensures '&' !in Pairs(options)[i] {
      PairAvoids(options[i], '&');
    }
    SplitJoin(Pairs(options), '&');
    assert QueryText(options)[1..] == Join(Pairs(options), '&');
  }

  // ---------------------------------------------------------------------
  // createLayer

  const DocsHint := " Check out the documentation on https://docs.systemapic.com."
  const NoUploadStatus := "No such upload_status."
  const NotUploaded := "The data was not uploaded correctly. Please check your data and error messages, and try again."
  const NotProcessed := "The data is not done processing yet. Please try again in a little while."

  /** The portal's answer to `/api/import/status`. */
  datatype UploadStatus =
    | RequestFailed       // the HTTP call reported an error
    | NoStatus            // no body, or an empty one
    | Unparseable         // a body `JSON.parse` throws on
    | Parsed(status: Json)

  /** A layer as `createLayer` builds it and stores it under its id. */
  datatype Layer = Layer(layerUuid: string, options: Doc)

  datatype LayerResult =
    | Missing(description: string)   // `pile.error.missingInformation`
    | Refused(error: string)         // `{error: err}` from the waterfall
    | PortalError                    // `{error: err}` with the HTTP error
    | Throws                         // an exception escapes
    | Created(layer: Layer)

  /** The first missing request field, checked in the order file_id, sql, cartocss. */
  function MissingField(body: Doc): (m: Option<string>)
    ensures m.None? <==> Truthy(Get(body, "file_id")) && Truthy(Get(body, "sql")) && Truthy(Get(body, "cartocss"))
    ensures !Truthy(Get(body, "file_id")) ==> m == Some("Please provide a file_id." + DocsHint)
    ensures Truthy(Get(body, "file_id")) && !Truthy(Get(body, "sql")) ==> m == Some("Please provide a SQL statement." + DocsHint)
    ensures Truthy(Get(body, "file_id")) && Truthy(Get(body, "sql")) && !Truthy(Get(body, "cartocss")) ==>
      m == Some("Please provide CartoCSS." + DocsHint)
  {
    if !Truthy(Get(body, "file_id")) then Some("Please provide a file_id." + DocsHint)
    else if !Truthy(Get(body, "sql")) then Some("Please provide a SQL statement." + DocsHint)
    else if !Truthy(Get(body, "cartocss")) then Some("Please provide CartoCSS." + DocsHint)
    else None
  }

  /** The status check: the parsed status object, or how the pipeline stops. */
  function CheckStatus(status: UploadStatus): (r: Result)
    ensures r.Pass? ==> status.Parsed? && status.status.Obj? && r.fields == status.status.fields
    ensures r.Pass? <==>
      (status.Parsed? && status.status.Obj? && Truthy(Get(status.status.fields, "upload_success"))
       && Truthy(Get(status.status.fields, "processing_success")))
  {
    match status
    case RequestFailed => Stop(PortalError)
    case NoStatus => Stop(Refused(NoUploadStatus))
    case Unparseable => Stop(Throws)
    case Parsed(v) =>
      if v.Null? || v.Undefined? then Stop(Throws)
      else
        var f := if v.Obj? then v.fields else map[];
        if !Truthy(Get(f, "upload_success")) then Stop(Refused(NotUploaded))
        else if !Truthy(Get(f, "processing_success")) then Stop(Refused(NotProcessed))
        else Pass(f)
  }

  datatype Result = Pass(fields: Doc) | Stop(result: LayerResult)

  /** `stdout.split('(')[1].split(')')[0]`; None where `[1]` is undefined and the second split throws. */
  function ExtentOf(stdout: string): Option<string> {
    var parts := Split(stdout, '(');
    if |parts| < 2 then None else Some(Split(parts[1], ')')[0])
  }

  /** The optional layer options and the value each takes when the request leaves it falsy. */
  const OptionalDefaults: map<string, Json> := map[
    "cartocss_version" := Str("2.0.1"),
    "geom_column" := Str("geom"),
    "geom_type" := Str("geometry"),
    "raster_band" := Num(0),
    "srid" := Num(3857)]

  /** `body.k || default` for each optional option. */
  function OptionalOptions(body: Doc): (o: Doc)
    ensures o.Keys == OptionalDefaults.Keys
    ensures forall k :: k in OptionalDefaults ==>
      (Truthy(Get(body, k)) ==> o[k] == Get(body, k)) && (!Truthy(Get(body, k)) ==> o[k] == OptionalDefaults[k])
  {
    map k | k in OptionalDefaults :: Or(Get(body, k), OptionalDefaults[k])
  }

  /** The options every new layer carries whatever the request holds. */
  const RequiredKeys: set<string> := {"sql", "cartocss", "file_id", "database_name", "table_name", "metadata", "layer_id", "wicked"}

  lemma OptionalKeysApart()
    ensures forall k :: k in OptionalDefaults ==> k !in RequiredKeys && k != "extent"
  {
    forall k | k in OptionalDefaults ensures k !in RequiredKeys && k != "extent" {
      assert k == "cartocss_version" || k == "geom_column" || k == "geom_type" || k == "raster_band" || k == "srid";
    }
  }

  /** The options a new layer takes from the request, the upload status and its own id. */
  function RequiredOptions(body: Doc, fields: Doc, layerUuid: string, doneSql: string): (o: Doc)
    ensures o.Keys == RequiredKeys
    ensures o["sql"] == Str(doneSql) && o["layer_id"] == Str(layerUuid) && o["wicked"] == Str("thing")
    ensures o["cartocss"] == Get(body, "cartocss") && o["file_id"] == Get(body, "file_id")
    ensures o["database_name"] == Get(fields, "database_name") && o["table_name"] == Get(fields, "table_name")
    ensures o["metadata"] == Get(fields, "metadata")
  {
    map[
      "sql" := Str(doneSql),
      "cartocss" := Get(body, "cartocss"),
      "file_id" := Get(body, "file_id"),
      "database_name" := Get(fields, "database_name"),
      "table_name" := Get(fields, "table_name"),
      "metadata" := Get(fields, "metadata"),
      "layer_id" := Str(layerUuid),
      "wicked" := Str("thing")]
  }

  /** The layer object `createLayer` assembles before the extent is known. */
  function BuildLayer(body: Doc, fields: Doc, uuid: string, doneSql: string): (layer: Layer)
    ensures layer.layerUuid == "layer_id-" + uuid
    ensures Get(layer.options, "layer_id") == Str(layer.layerUuid) && Get(layer.options, "sql") == Str(doneSql)
    ensures Get(layer.options, "cartocss") == Get(body, "cartocss") && Get(layer.options, "file_id") == Get(body, "file_id")
    ensures Get(layer.options, "database_name") == Get(fields, "database_name")
    ensures Get(layer.options, "table_name") == Get(fields, "table_name") && Get(layer.options, "metadata") == Get(fields, "metadata")
    ensures forall k :: k in OptionalDefaults ==>
      (Truthy(Get(body, k)) ==> Get(layer.options, k) == Get(body, k)) &&
      (!Truthy(Get(body, k)) ==> Get(layer.options, k) == OptionalDefaults[k])
    ensures Get(layer.options, "wicked") == Str("thing")
    ensures layer.options.Keys == RequiredKeys + OptionalDefaults.Keys && "extent" !in layer.options
  {
    var layerUuid := "layer_id-" + uuid;
    OptionalKeysApart();
    Layer(layerUuid, OptionalOptions(body) + RequiredOptions(body, fields, layerUuid, doneSql))
  }

  /**
   * `pile.createLayer`: validate, check the upload status, inject the table
   * name into the SQL, build the layer, read its extent from the extent
   * script's output and store it in redis as `serialize(layer)`.
   */
  function CreateLayer(body: Doc, status: UploadStatus, uuid: string, stdout: string,
                       st: State, serialize: Layer -> Bytes): (LayerResult, State)
  {
    match MissingField(body)
    case Some(m) => (Missing(m), st)
    case None =>
      match CheckStatus(status)
      case Stop(r) => (r, st)
      case Pass(fields) =>
        var sql := Get(body, "sql");
        if !sql.Str? then (Throws, st)
        else
          var doneSql := ReplaceFirst(sql.s, "table", ToText(Get(fields, "table_name")));
          var layer := BuildLayer(body, fields, uuid, doneSql);
          match ExtentOf(stdout)
          case None => (Throws, st)
          case Some(extent) =>
            var done := layer.(options := layer.options["extent" := Str(extent)]);
            (Created(done), st.(redis := st.redis[done.layerUuid := serialize(done)]))
  }

  /** Input is checked before the portal is asked: a missing field stops everything and stores nothing. */
  lemma MissingFieldStopsFirst(body: Doc, status: UploadStatus, uuid: string, stdout: string, st: State, serialize: Layer -> Bytes)
    requires MissingField(body).Some?
    ensures CreateLayer(body, status, uuid, stdout, st, serialize) == (Missing(MissingField(body).value), st)
  {
  }

  /** Each failed status check stops the pipeline with its message and stores nothing. */
  lemma StatusChecks(body: Doc, uuid: string, stdout: string, st: State, serialize: Layer -> Bytes, f: Doc)
    requires MissingField(body).None?
    ensures CreateLayer(body, NoStatus, uuid, stdout, st, serialize) == (Refused(NoUploadStatus), st)
    ensures !Truthy(Get(f, "upload_success")) ==>
      CreateLayer(body, Parsed(Obj(f)), uuid, stdout, st, serialize) == (Refused(NotUploaded), st)
    ensures Truthy(Get(f, "upload_success")) && !Truthy(Get(f, "processing_success")) ==>
      CreateLayer(body, Parsed(Obj(f)), uuid, stdout, st, serialize) == (Refused(NotProcessed), st)
  {
  }

  /** The fields a created layer was built from: the status passed and the SQL is text. */
  lemma CreatedFrom(body: Doc, status: UploadStatus, uuid: string, stdout: string, st: State, serialize: Layer -> Bytes)
    requires CreateLayer(body, status, uuid, stdout, st, serialize).0.Created?
    ensures status.Parsed? && status.status.Obj? && Get(body, "sql").Str? && ExtentOf(stdout).Some?
    ensures var fields := status.status.fields;
      var layer := BuildLayer(body, fields, uuid, ReplaceFirst(Get(body, "sql").s, "table", ToText(Get(fields, "table_name"))));
      CreateLayer(body, status, uuid, stdout, st, serialize) ==
        (Created(layer.(options := layer.options["extent" := Str(ExtentOf(stdout).value)])),
         st.(redis := st.redis[layer.layerUuid := serialize(layer.(options := layer.options["extent" := Str(ExtentOf(stdout).value)]))]))
  {
  }

  /**
   * A created layer's id is "layer_id-" and the uuid, the id is repeated in
   * its options, the layer is stored under that id, and its extent is the
   * script output's text after the first '('.
   */
  lemma CreatedLayerIsStored(body: Doc, status: UploadStatus, uuid: string, stdout: string, st: State, serialize: Layer -> Bytes)
    requires CreateLayer(body, status, uuid, stdout, st, serialize).0.Created?
    ensures var (r, st') := CreateLayer(body, status, uuid, stdout, st, serialize);
      && r.layer.layerUuid == "layer_id-" + uuid
      && Get(r.layer.options, "layer_id") == Str(r.layer.layerUuid)
      && Get(r.layer.options, "extent") == Str(ExtentOf(stdout).value)
      && st'.redis == st.redis[r.layer.layerUuid := serialize(r.layer)]
      && st'.disk == st.disk
  {
    CreatedFrom(body, status, uuid, stdout, st, serialize);
  }

  /** Only the first "table" in the SQL becomes the table name; SQL without one is kept as it is. */
  lemma CreatedLayerSql(body: Doc, status: UploadStatus, uuid: string, stdout: string, st: State, serialize: Layer -> Bytes)
    requires CreateLayer(body, status, uuid, stdout, st, serialize).0.Created?
    ensures status.Parsed? && status.status.Obj? && Get(body, "sql").Str?
    ensures var o := CreateLayer(body, status, uuid, stdout, st, serialize).0.layer.options;
      var sql := Get(body, "sql").s;
      var tableName := ToText(Get(status.status.fields, "table_name"));
      && (forall i: nat :: OccursAt(sql, "table", i) && (forall j: nat :: j < i ==> !OccursAt(sql, "table", j)) ==>
            Get(o, "sql") == Str(sql[..i] + tableName + sql[i + 5..]))
      && ((forall j: nat :: !OccursAt(sql, "table", j)) ==> Get(o, "sql") == Str(sql))
  {
    CreatedFrom(body, status, uuid, stdout, st, serialize);
    var fields := status.status.fields;
    var doneSql := ReplaceFirst(Get(body, "sql").s, "table", ToText(Get(fields, "table_name")));
    var layer := BuildLayer(body, fields, uuid, doneSql);
    assert CreateLayer(body, status, uuid, stdout, st, serialize).0.layer.options ==
      layer.options["extent" := Str(ExtentOf(stdout).value)];
    assert Get(CreateLayer(body, status, uuid, stdout, st, serialize).0.layer.options, "sql") == Str(doneSql);
  }

  /**
   * A created layer keeps the request's optional fields when they are truthy
   * and falls back to their defaults otherwise; cartocss and file_id come from
   * the request, database_name, table_name and metadata from the upload status.
   */
  lemma CreatedLayerDefaults(body: Doc, status: UploadStatus, uuid: string, stdout: string, st: State, serialize: Layer -> Bytes)
    requires CreateLayer(body, status, uuid, stdout, st, serialize).0.Created?
    ensures status.Parsed? && status.status.Obj?
    ensures CreateLayer(body, status, uuid, stdout, st, serialize).0.layer.options.Keys == RequiredKeys + OptionalDefaults.Keys + {"extent"}
    ensures var o := CreateLayer(body, status, uuid, stdout, st, serialize).0.layer.options;
      forall k :: k in OptionalDefaults ==>
        (Truthy(Get(body, k)) ==> Get(o, k) == Get(body, k)) && (!Truthy(Get(body, k)) ==> Get(o, k) == OptionalDefaults[k])
    ensures var o := CreateLayer(body, status, uuid, stdout, st, serialize).0.layer.options;
      var f := status.status.fields;
      && Get(o, "cartocss") == Get(body, "cartocss") && Get(o, "file_id") == Get(body, "file_id")
      && Get(o, "database_name") == Get(f, "database_name") && Get(o, "table_name") == Get(f, "table_name")
      && Get(o, "metadata") == Get(f, "metadata") && Get(o, "wicked") == Str("thing")
  {
    CreatedFrom(body, status, uuid, stdout, st, serialize);
  }

  /** A prefix of `t` up to (not including) the first `c`, which follows it if anything does. */
  lemma {:induction false} SplitHead(t: string, c: char)
    ensures var h := Split(t, c)[0];
      |h| <= |t| && t[..|h|] == h && (|h| < |t| ==> t[|h|] == c)
  {
    if t != [] && t[0] != c {
      SplitHead(t[1..], c);
    }
  }

  /**
   * The extent is read exactly when the output holds a '(': it is the text
   * right after the first '(' up to the next '(' or ')' or the end.
   */
  lemma ExtentBetweenParens(s: string)
    ensures ExtentOf(s).Some? <==> '(' in s
    ensures ExtentOf(s).Some? ==>
      var i := IndexOf(s, '(').value;
      var e := ExtentOf(s).value;
      var k := i + 1 + |e|;
      && '(' !in s[..i] && s[i] == '('
      && k <= |s| && s[i + 1..k] == e && '(' !in e && ')' !in e
      && (k == |s| || s[k] == '(' || s[k] == ')')
  {
    SplitAtFirst(s, '(');
    if IndexOf(s, '(').Some? {
      var i := IndexOf(s, '(').value;
      var t := s[i + 1..];
      var h := Split(t, '(')[0];
      var e := Split(h, ')')[0];
      assert Split(s, '(')[1] == h;
      SplitHead(t, '(');
      SplitHead(h, ')');
      assert e == ExtentOf(s).value;
      assert |e| <= |h| <= |t|;
      assert s[i + 1..i + 1 + |e|] == t[..|e|] by {
        forall j | 0 <= j < |e| ensures s[i + 1 + j] == t[j] { }
      }
      if |e| < |h| {
        assert s[i + 1 + |e|] == h[|e|];
      } else if i + 1 + |e| < |s| {
        assert s[i + 1 + |e|] == t[|h|];
      }
    }
  }
}
