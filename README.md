# mile tile cache and render orchestration, in Dafny

This project models the core of the mile tile server: its cache, and the way
it decides whether to serve or render a tile. Three source files are covered.

- `src/pile.js` covers layer tiles:
  - parsing `/tiles/<layerUuid>/<z>/<x>/<y>.<type>`;
  - `checkParams`;
  - the content-type table;
  - the cache-or-render rule of `getRasterTile`, `getVectorTile` and `getGridTile`, and the render jobs they queue;
  - the `getTile` handler;
  - the re-read when a job completes;
  - the query string `request.get` builds;
  - `createLayer` and its validation messages.
- `src/store.js` covers the tile store: the `pile_settings.store` dispatch between redis and disk, plus the raster and vector saves and reads with their keys and paths. store.js fixes the setting to 'disk' in a private variable (store.js:26-28). The model takes the setting as a parameter, so it also states the redis branches and the 'not set!' branch, which the source as shipped never reaches.
- `src/cubes.js` covers cubes:
  - `create`, `add`, `remove` and `update`;
  - `getBody` and `getCubeRequest`;
  - the cube tile route `tile` and `_serveTile`;
  - the render job `_createTileRenderJob` queues;
  - the extent test `_isOutsideExtent`;
  - the stylesheet and encoding fallbacks of `createTile`.

The modules follow the program's structure:

| module | file | what it holds |
|---|---|---|
| `Js` | js.dfy | The JavaScript semantics the code relies on: JSON-like values and truthiness, `String(v)`, one-character `split`, `join`, `parseInt` and `replace` with a string pattern. |
| `TileKeys` | keys.dfy | The cache keys and file paths of layer and cube tiles, plus the decoders that read them back. |
| `Store` | store.dfy | The tile store. Pure functions of a `State`, which holds the redis keyspace and the files on disk. The `TileStore` class holds the same two maps as fields that its save methods update. |
| `Jobs` | jobs.dfy | The render jobs: name, payload, priority and attempts. The `JobQueue` class is the queue that jobs are appended to. |
| `Extent` | extent.dfy | The extent test of cube tiles. |
| `Pile` | pile.dfy | Layer tiles and layers. |
| `Cubes` | cubes.dfy | Cube documents and the handlers that change them. The `Cube` class holds a cube document that the handlers change in place. |
| `CubeTiles` | cubetiles.dfy | Serving cube tiles. |

These are the model's conventions:

- **Mutable state.** Both the store and the queue are classes.
  - Every handler that touches them is a method. Its postcondition ties the answer to a pure function of the store's contents, and ties the new queue to the old queue plus the jobs that answer implies.
  - The lemmas about those functions state the properties: a hit is served, a miss queues one job, and a saved tile is served next time.
- **Collaborators.** These are passed in as function-valued parameters:
  - the projection (`mercator.xyz_to_envelope`, `Conv.ll2m`);
  - `md5`;
  - `JSON.parse` of a stored layer;
  - `JSON.stringify` of a new layer.

  The same applies to the results of the collaborators the handlers call back through:
  - the portal's upload status;
  - the extent script's output;
  - the cube lookup;
  - a dataset's extent.

  `uuid.v4()`, the clock and the outcome of a file write are parameters as well.
- **Exceptions.** A path where the JavaScript throws is modelled as an explicit `Crash` or `Throws` outcome, never as a precondition.

## Model

| member | source | states |
|---|---|---|
| `Js.ParseIntOfNumberText` | src/pile.js:232-234 | `parseInt` reads the text of any number back as that number, including NaN. |
| `Js.Split` | src/pile.js:229 | `split` on one character always yields at least one part, and no part contains the separator. |
| `Js.SplitJoin` | src/pile.js:229 | When no part contains the separator, splitting the joined parts gives the parts back. |
| `Js.JoinSplit` | src/pile.js:229 | Joining the parts of a split gives the original text back. |
| `Js.ReplaceFirst` | src/pile.js:125 | Replacing a string pattern changes only its first occurrence. Text without an occurrence is unchanged. |
| `TileKeys.LayerKeyDecodes` | src/store.js:77-88 | A layer tile key `<kind>_tile:<layer>:<z>:<x>:<y>` splits back into its kind, layer and three coordinates. This holds when the layer id contains no ':'. |
| `TileKeys.LayerKeyInjective` | src/store.js:77-88 | Two requests share a layer tile key iff their kind, layer and coordinates all agree. |
| `TileKeys.KindsNeverShareKey` | src/pile.js:475 | Raster, vector and grid tiles never share a key, whatever the layer id contains. |
| `TileKeys.CubeKeyDecodes` | src/cubes.js:286 | A cube tile key splits back into cube id, file id, style hash and coordinates. |
| `TileKeys.CubeKeyInjective` | src/cubes.js:286 | Two cube tile keys are equal iff all six fields are equal. This holds when no field contains ':'. |
| `Store.SelectBackend` | src/store.js:53-67 | Every save and read dispatches to redis iff the setting is 'redis', and to disk iff it is 'disk'. |
| `Store.RasterRoundTrip` | src/store.js:58-67 | A raster tile saved on redis, or saved on disk by a successful write, is read back unchanged, and the save reports no error. |
| `Store.VectorRoundTrip` | src/store.js:53-57 | The vector reader returns what the vector writer saved, on either backend. |
| `Store.GridRoundTrip` | src/pile.js:475-478 | The grid reader builds the grid writer's key, and saved non-empty JSON text counts as a hit. |
| `Store.PileRasterKeyMatchesStore` | src/pile.js:530-539 | The redis keys pile reads raster and vector tiles from are the keys the redis store writes. |
| `Store.DiskMissIsNotError` | src/store.js:116-123 | A missing raster file is reported as no data, not as an error. |
| `Store.DiskRasterSaveAlwaysSucceeds` | src/store.js:103-115 | The disk raster save always reports success. When encoding or writing failed, it writes nothing. |
| `Store.UnknownSettingFails` | src/store.js:53-67 | A setting other than 'redis' or 'disk' fails every save and read with 'pile_settings.store not set!' and changes nothing. |
| `Store.RasterSaveWritesOneEntry` | src/store.js:58-62 | A raster save changes at most one entry. On redis that entry is the request's key and the files stay the same. On any other setting it is the request's ".png" file and redis stays the same. |
| `Store.TileStore.SaveVectorTile` | src/store.js:53-57 | The store's new contents and the callback's error are those of `SaveVector`. |
| `Store.TileStore.SaveRasterTile` | src/store.js:58-62 | The store's new contents and the callback's error are those of `SaveRaster`. |
| `Store.TileStore.SaveGridTile` | src/pile.js:475-478 | The grid tile is set under its `grid_tile:` key. |
| `Store.TileStore.SaveCubeTile` | src/cubes.js:512-517 | The encoded cube tile is written to its path when encoding and writing succeed, and nothing else changes. When encoding fails, nothing is written; see Left out. |
| `Jobs.RenderJob` | src/pile.js:299-302 | A layer render job has priority 'high', 5 attempts and the request and stored layer as payload. Only the raster job is removed on completion (pile.js:327). |
| `Jobs.CubeJob` | src/cubes.js:317-322 | A cube render job is named 'cube_tile', has priority 'high' and 5 attempts, and carries the tile path, file id, cube id and coordinates. It is not removed on completion. |
| `Jobs.RenderJobNamesDistinct` | src/pile.js:299-352 | The three layer kinds are queued under three different job names. |
| `Jobs.JobQueue.Create` | src/pile.js:299-302 | Creating a job appends it to the queue. |
| `Extent.IsOutsideExtent` | src/cubes.js:340-385 | The flag is set iff one of the four edge tests holds on the projected tile and the projected dataset corners. |
| `Extent.OutsideIffDisjoint` | src/cubes.js:353-382 | For boxes with numeric, ordered corners, the four edge tests hold iff the two closed boxes share no point. |
| `Pile.ContentType` | src/pile.js:64-68 | A content type exists exactly for 'png', 'pbf' and 'grid'. |
| `Pile.FormatKind` | src/pile.js:258-268 | The extension selects the raster, vector or grid getter iff its content type is image/png, application/x-protobuf or application/json respectively. |
| `Pile.ParseTilePath` | src/pile.js:229-236 | A path is read iff it has at least six '/'-separated parts; otherwise `parsed[5].split` throws. |
| `Pile.ParseTilePathRoundTrip` | src/pile.js:229-236 | A tile URL reads back as the layer, coordinates and extension it was built from. |
| `Pile.CheckParams` | src/pile.js:546-553 | As written, a request is accepted iff its layer, its three coordinates (all nonzero) and its type are truthy. The ensures also say which message each refusal carries. |
| `Pile.CheckParamsIntended` | src/pile.js:546-553 | The corrected check refuses coordinates only when they did not parse. |
| `Pile.CheckParamsRejectsWorldTile` | src/pile.js:548 | The world tile `/tiles/<layer>/0/0/0.png` is refused as written and accepted by the corrected check. |
| `Pile.CheckParamsIntendedAcceptsTileUrls` | src/pile.js:546-553 | A tile URL passes the corrected check iff its three coordinates are integers. |
| `Pile.PrepareTileThrows` | src/pile.js:565-569 | The guard of `_prepareTile` throws exactly on the requests `checkParams` rejects, because it answers through `res`, which is not in scope there. |
| `Pile.WorldTileRenderThrows` | src/pile.js:565-569 | The render job of the world tile 0/0/0 throws in `_prepareTile`, although the intended check accepts that tile. |
| `Pile.CacheOrRender` | src/pile.js:487-523 | A lookup is served iff what the getter reads is truthy, and then it serves exactly that value and queues nothing. Otherwise it queues one job under the kind's name, with priority 'high', 5 attempts and the request as payload. |
| `Pile.StoredTileServedMissingQueued` | src/pile.js:500-523 | On redis, and for every grid, a tile is served iff its key holds a truthy value, and its render job is queued otherwise. On disk, a tile is served iff its file exists. |
| `Pile.SavedTileIsServed` | src/pile.js:500-511 | Once a rendered raster or vector tile is saved, the next request is served from the store. |
| `Pile.SavedGridIsServed` | src/pile.js:513-523 | A saved grid is served when its JSON text is non-empty. An empty text counts as a miss. |
| `Pile.UnsetStoreAlwaysRenders` | src/pile.js:500-511 | With no usable store setting, the read error is ignored and every raster request queues a render. |
| `Pile.GetRasterTile` | src/pile.js:500-511 | The answer is the lookup's answer, and the queue grows by exactly the job it queued. |
| `Pile.GetGridTile` | src/pile.js:513-523 | The answer is the lookup's answer, and the queue grows by exactly the job it queued. |
| `Pile.GetVectorTile` | src/pile.js:487-498 | The corrected vector getter: the lookup's answer over the vector keys, and exactly the job it queued. |
| `Pile.GetTile` | src/pile.js:224-286 | The handler's outcome is `TileOutcome`, and the queue grows by exactly the job it queued. A vector request goes through the corrected vector reader (see Findings). |
| `Pile.TileOutcomesDifferOnlyOnVector` | src/pile.js:258-260 | The handler as written and the corrected one give the same outcome on every request, except vector requests. On those the as-written handler throws. |
| `Pile.CachedVectorTileCrashesAsWritten` | src/pile.js:487-498 | A `.pbf` request for a stored layer whose vector tile is cached throws as written. The corrected handler serves that tile as application/x-protobuf. |
| `Pile.UnknownLayerEndsEmpty` | src/pile.js:251-253 | A request for a layer that is not stored ends with an empty response. A path without six parts throws. |
| `Pile.ServedWithMatchingType` | src/pile.js:272-283 | A served tile carries the content type of the kind that was looked up. An unknown type sends no content type and no data. |
| `Pile.CompletionServesRenderedTile` | src/pile.js:306-340 | When the render job saved a raster or vector tile, the completion re-read answers with the saved bytes and the content type of 'png' or 'pbf'. |
| `Pile.CompletionServesRenderedGrid` | src/pile.js:356-365 | When the render job set a grid, the completion re-read answers with its JSON text and the content type of 'grid'. |
| `Pile.VectorTileNeverServedAsWritten` | src/pile.js:487-498 | As written, a vector tile that is in the store is never served, because the reader called does not exist. The corrected lookup serves it. |
| `Pile.RequestUrl` | src/pile.js:704-723 | The URI is the portal URL, then the endpoint, then '?' and the `key=value` pairs joined by '&'. There is no '?' when there are no options, and no '&' after the last pair. |
| `Pile.QueryAppend` | src/pile.js:707-715 | One more option adds '&' and its pair at the end. |
| `Pile.QueryDecodes` | src/pile.js:707-715 | When no key or value contains '&', splitting the query after '?' at '&' gives back the pairs. |
| `Pile.MissingField` | src/pile.js:88-91 | The request is complete iff file_id, sql and cartocss are truthy. The first missing one is reported with its own message (file_id, SQL statement, CartoCSS) and the documentation hint. |
| `Pile.CheckStatus` | src/pile.js:105-120 | The status passes iff it parsed to an object with truthy upload_success and processing_success. It then hands those fields on. |
| `Pile.BuildLayer` | src/pile.js:122-155 | The layer id is 'layer_id-' followed by the uuid, and it is repeated as layer_id. The SQL is the injected one. cartocss and file_id come from the request; database_name, table_name and metadata come from the upload status. Each optional field keeps the request's value when truthy and takes its default otherwise. The options are exactly these thirteen keys, with no extent yet. |
| `Pile.MissingFieldStopsFirst` | src/pile.js:88-91 | A missing field stops createLayer before the portal is asked, and nothing is stored. |
| `Pile.StatusChecks` | src/pile.js:105-120 | Each failing status check stops createLayer with its own message, and nothing is stored. |
| `Pile.CreatedLayerIsStored` | src/pile.js:128-190 | The created layer's id, its layer_id and its extent are as described. It is the one new redis entry, and the disk is untouched. |
| `Pile.CreatedLayerSql` | src/pile.js:125 | Only the first "table" in the SQL becomes the table name. SQL without one is kept as it is. |
| `Pile.CreatedLayerDefaults` | src/pile.js:132-149 | A created layer keeps each truthy optional field from the request, and otherwise falls back to '2.0.1', 'geom', 'geometry', 0 or 3857. Its cartocss and file_id come from the request, and database_name, table_name and metadata from the upload status. Its options are those keys plus the extent. |
| `Pile.ExtentBetweenParens` | src/pile.js:175 | The extent is read iff the output contains '('. It is the text right after the first '(' up to the next '(' or ')' or the end. |
| `Cubes.Create` | src/cubes.js:51-74 | The new cube has the body's keys plus the six default keys. Id, timestamp and creator are fresh. Style and quality fall back to their defaults. datasets is always an array. Other keys are untouched. |
| `Cubes.GetBody` | src/cubes.js:544-548 | The body if it is not empty, else the query if it is not empty, else nothing. |
| `Cubes.GetCubeRequest` | src/cubes.js:550-564 | The route parameter is read iff it has at least five '/'-separated parts. |
| `Cubes.GetCubeRequestRoundTrip` | src/cubes.js:550-564 | A cube tile parameter reads back as the request it was built from. |
| `Cubes.LengthFalsy` | src/cubes.js:105 | `.length` throws exactly on null and undefined. For an array it is falsy iff the array is empty. |
| `Cubes.CheckDatasetsRequest` | src/cubes.js:96-105 | Code 1 iff there is no body, and code 2 iff there is no truthy cube_id. Past those, the request proceeds iff `datasets.length` is truthy, is refused with code 3 iff it is falsy, and throws iff datasets is null or undefined. |
| `Cubes.RemoveEachIsSurviving` | src/cubes.js:159-162 | Removing the requested datasets one after another removes, in one pass, every entry any of them matches. |
| `Cubes.WithoutSurviving` | src/cubes.js:161 | One more `_.remove` removes the entries matching one more id. |
| `Cubes.SurvivingMembers` | src/cubes.js:159-162 | An entry survives iff it was in the cube and no requested dataset matches it. |
| `Cubes.SurvivingConcat` | src/cubes.js:159-162 | Removal keeps the relative order of the entries that stay. |
| `Cubes.RemoveUndoesAdd` | src/cubes.js:116-162 | Removing what was just added restores the cube, when each added dataset has an id that no existing entry shares. |
| `Cubes.Updated` | src/cubes.js:189-204 | The updated cube takes every option except access_token, keeps every other key, keeps its own access_token and gets the new timestamp. |
| `Cubes.Cube.AddDatasets` | src/cubes.js:118-121 | The requested datasets are appended, in order, after the existing ones. |
| `Cubes.Cube.RemoveDatasets` | src/cubes.js:159-162 | Every requested dataset up to the first null or undefined one is removed, and the loop stops there. |
| `Cubes.Cube.Update` | src/cubes.js:199-204 | The cube becomes `Updated` of its old contents. |
| `Cubes.Add` | src/cubes.js:93-134 | A failed check answers with its code and leaves the cube alone. A request that passes the checks fails the lookup when no cube is found. Otherwise it sends the cube with the datasets appended when both datasets values are arrays, and throws when either is not. |
| `Cubes.Remove` | src/cubes.js:136-175 | A failed check answers with its code and leaves the cube alone. A request that passes the checks fails the lookup when no cube is found. Otherwise it sends the cube without the matching datasets when the requested datasets are an array with no null or undefined entry, and throws otherwise. |
| `Cubes.Update` | src/cubes.js:177-217 | Codes 1 and 2 as in add, and a refusal leaves the cube alone. With a body and a truthy cube_id, it fails the lookup when no cube is found and otherwise always sends the updated cube. |
| `Cubes.StyleSheet` | src/cubes.js:459-466 | The stylesheet is the cube's style when truthy, else "#layer {}". It is never empty. |
| `Cubes.EncodeFormat` | src/cubes.js:513 | The encoding is the cube's quality when truthy, else "png8". |
| `Cubes.CreatedCubeRendering` | src/cubes.js:55-65 | A created cube never falls back to "#layer {}" or "png8": style and quality come from the request or the create defaults. |
| `Cubes.CreatedCubeAcceptsAdd` | src/cubes.js:61 | A created cube has a datasets array, so `add` appends to it and changes nothing else. |
| `CubeTiles.ServeTile` | src/cubes.js:266-314 | The answer is `ServeOutcome`, and the queue grows by exactly the job it queued. |
| `CubeTiles.OutsideIsEmpty` | src/cubes.js:274-280 | A tile outside the dataset gets the empty tile, whatever is cached and whatever the style hashes to, and no job is queued. |
| `CubeTiles.CacheOrRenderCubeTile` | src/cubes.js:289-311 | Inside the extent, a cached tile is served. Otherwise exactly one 'cube_tile' job is queued with priority 'high', 5 attempts and the cache path. |
| `CubeTiles.RenderedCubeTileIsServed` | src/cubes.js:317-337 | Once the job's tile is written to the job's path, the same request is served from the cache. |
| `CubeTiles.StyleOnlyThroughDigest` | src/cubes.js:283-287 | The style enters the cache lookup only through its md5. Styles with the same digest get the same answers. |
| `CubeTiles.DistinctDigestsDistinctPaths` | src/cubes.js:283-287 | Styles with different digests never share a cache path, so a style change bypasses stale tiles. |
| `CubeTiles.ErrorTiles` | src/cubes.js:228-253 | A malformed request gets the error tile, and so does a dataset that reports an error. |

## Left out

- **Rendering.** Rendering with mapnik and carto is left out: `_renderVectorTile`, `_renderRasterTile`, `_renderGridTile`, `_prepareTile`, `createTile`'s map setup and the style compiler. Only the parts of `createTile` that choose the stylesheet and the encoding, and its write of the tile, are modelled.
- **Render queue processing.** The queue's processing is left out: kue workers, retries, events and the cluster setup. A job is modelled as appended to a queue, and completion as a later re-read of the store.
- **Projection and digest.** The projection formulas (`xyz_to_envelope`, `Conv.ll2m` and its inverse) and md5 are uninterpreted function parameters. Nothing is assumed about their values or about md5 collisions.
- **Collaborator I/O.** I/O with collaborators is represented by its outcome:
  - the HTTP request to the portal and its errors;
  - the extent shell script;
  - `JSON.parse` and `JSON.stringify` of stored layers;
  - `fs` write errors;
  - redis connection errors;
  - the kueStore `flushall`.
- **Ids and time.** `uuid.v4()`, `new Date().getTime()` and `req.user.uuid` are parameters.
- **JavaScript numbers.** Numbers are modelled as integers. `parseInt` results above 2^53, exponent notation, -0 (folded into 0) and non-ASCII whitespace before digits are not modelled.
- **`replace` patterns.** `'$'` replacement patterns in `String.prototype.replace` are not modelled. The replacement text is inserted as it is.
- **Dataset matching.** `_.remove(cube.datasets, {id: d.id})` uses lodash's partial deep match. The model matches an entry whose `id` equals the requested id exactly. `_.remove` on a `datasets` that is not an array is treated as doing nothing.
- **`for..in` order.** `request.get` enumerates integer-like keys first, in ascending order, and then string keys in insertion order. The model takes the options as an ordered sequence. The options pile.js passes have no integer-like keys, so that sequence is their insertion order.
- **Cube persistence.** Cube persistence (`cubes.find`, `cubes.save`) goes through `store.layers`, which store.js does not define. A cube lookup is modelled as its result (`found`), and saving as keeping the changed object. A failed save is not modelled.
- **Cube collaborators.** cubes.js calls `pile.serveEmptyTile`, `pile.serveErrorTile`, `pile.getUploadStatus` and `pile.jobs()`, which pile.js does not define. They are modelled by their evident meaning: the empty tile, the error tile, the dataset status, and the render queue.
- **Other handlers.** `cubes.get`, `pile.getLayer`, `pile.getFile` and `pile.updateLayer` are not modelled. Neither are the routes in server.js.
- **Job payloads.** The serialization of job payloads is not modelled. The cube job's payload in cubes.js:320-321 is the whole `options` object, holding the cube document, the dataset and the request. The model keeps only the tile path, file id, cube id and the three coordinates.
- **createLayer's redis save.** The redis error in createLayer's save is not modelled. The save is taken to succeed.
- **Single flight.** The code does not deduplicate concurrent renders of the same tile: every miss queues its own job (pile.js:299, 324, 349; cubes.js:320). The model follows the code, so `Pile.CacheOrRender` and `CubeTiles.CacheOrRenderCubeTile` state one job per miss, not one job per key.
- **Retry count.** The retry bound is the queue's job. Only the requested count of 5 attempts is modelled.
- `Pile.TileOutcome`: an unknown type answers 200 with no content type and no data. `res.writeHead` with an undefined header value is not modelled further.
- `Pile.TileOutcome` and `Pile.GetTile`: a vector request goes through the corrected vector reader. As written it throws; `Pile.TileOutcomeAsWritten` models that handler, and `Pile.TileOutcomesDifferOnlyOnVector` shows that vector requests are the only difference.
- `Jobs.RenderJob`: the `access_token` that `getTile` adds to the request parameters (pile.js:245-246) is not part of `TileParams`, so it is not in the job payload. The token is checked by the portal, which is not modelled.
- `Pile.Completion`: the vector completion re-reads through the corrected reader. As written it calls `pile._readVectorTile`, which does not exist (see Findings).
- `Store.SaveRaster` and `Store.DiskRasterSaveAlwaysSucceeds`: the disk save is modelled as writing nothing when encoding fails. As written, `fs.outputFile` is called with an undefined buffer (store.js:107-109). Depending on the Node version, that writes the text "undefined" or throws.
- `Store.SaveCube` and `Store.TileStore.SaveCubeTile`: the cube tile save is modelled as writing nothing when encoding fails. As written, the encode callback ignores its error and calls `fs.outputFile` with an undefined buffer (cubes.js:513-514). If a file is written, `_serveTile` serves it from then on, because any Buffer is truthy (cubes.js:296-300). Encoding can fail on user input, because `quality` comes from the request in create and update.
- `Pile.Completion`: it assumes that the render job completes. For a tile with a zero coordinate, the worker throws in `_prepareTile` (`Pile.PrepareTileThrows`), the job never completes, and the request is never answered.
- `Extent.IsOutsideExtent`: `tools.safeParse` of the dataset metadata and `geojsonExtent` are represented by the extent they produce (`extentOf` in `CubeTiles.TileOutcome`). `extentOf` is total, so the model drops the throw in `geojsonExtent` when the metadata does not parse or has no usable `extent_geojson` (cubes.js:343-349).

## Findings

| source | as written | input that shows it | evidently intended | confidence | as-written member | corrected member |
|---|---|---|---|---|---|---|
| src/pile.js:487-498 | `getVectorTile` reads through `store._readVectorTile`, and the completion handler through `pile._readVectorTile` (pile.js:314). Neither function is defined, so every vector request throws. The vector render also saves through `pile._saveVectorTile` (pile.js:390), which is undefined as well. | any `/tiles/<layer>/<z>/<x>/<y>.pbf` request for a stored layer, even after the tile was saved | The vector tile is read from the key or path `store._saveVectorTile` writes, like the raster tile. | high (not executed) | `Pile.VectorTileNeverServedAsWritten` | `Pile.GetVectorTile` |
| src/pile.js:546-553 | `checkParams` tests `!params.z`, `!params.x` and `!params.y`, so coordinate 0 is reported as "Missing tile coordinates". Nothing in pile.js, store.js, cubes.js or server.js calls `checkParams`. But `_prepareTile` repeats the same tests (pile.js:565-569), and every render worker runs it first (pile.js:372, 398, 435). There a rejection answers through `res`, which is not in scope, so it throws. The render job of any tile with a zero coordinate therefore never completes (`Pile.WorldTileRenderThrows`). | `/tiles/<layer>/0/0/0.png` | Only coordinates that did not parse (NaN) are missing. | high (not executed) | `Pile.CheckParamsRejectsWorldTile` | `Pile.CheckParamsIntended` |
