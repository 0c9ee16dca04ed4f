/**
 * The tile store: one backend chosen by the `pile_settings.store` setting
 * ('redis' or 'disk'; anything else is an error on every call), over a
 * key -> bytes map for redis and a path -> bytes map for the file system.
 * store.js fixes the setting to 'disk' (store.js:26-28); the model takes it
 * as a parameter so that the redis and error branches are stated as well.
 */
module Store {
  import opened Js
  import opened TileKeys

  type Bytes = seq<bv8>

  /**
   * What a read hands back: redis replies with a Buffer when asked with a
   * Buffer key and with a string when asked with a string key; a file read
   * gives a Buffer.
   */
  datatype Reply = Nil | Buf(bytes: Bytes) | Text(bytes: Bytes)

  /** `if (data)`: a Buffer is always truthy, a string only when it is not empty. */
  predicate Hit(r: Reply) {
    r.Buf? || (r.Text? && |r.bytes| > 0)
  }

  datatype Backend = Redis | Disk

  /** What a callback receives as its error: a message, or the file system's write error. */
  datatype Failure = Message(text: string) | WriteFailed

  /** The error handed to the callback when the setting names no backend. */
  const StoreNotSet := Message("pile_settings.store not set!")

  /** The dispatch every save and read starts with. */
  function SelectBackend(setting: string): (b: Option<Backend>)
    ensures b == Some(Redis) <==> setting == "redis"
    ensures b == Some(Disk) <==> setting == "disk"
  {
    if setting == "redis" then Some(Redis)
    else if setting == "disk" then Some(Disk)
    else None
  }

  /** What a save reports to its callback, or that it threw before calling back. */
  datatype Ack = Done(err: Option<Failure>) | Threw

  /** The redis keyspace and the files on disk. */
  datatype State = State(redis: map<string, Bytes>, disk: map<string, Bytes>)

  /** A GET with a Buffer key. */
  function RedisBuffer(st: State, key: string): Reply {
    if key in st.redis then Buf(st.redis[key]) else Nil
  }

  /** A GET with a string key. */
  function RedisText(st: State, key: string): Reply {
    if key in st.redis then Text(st.redis[key]) else Nil
  }

  /** `fs.readFile`: an absent file is reported as no data. */
  function DiskRead(st: State, path: string): Reply {
    if path in st.disk then Buf(st.disk[path]) else Nil
  }

  // ---------------------------------------------------------------------
  // Saves and reads as functions of the state

  /** `store._saveVectorTile`: redis SET of the vector key, or a file write whose error is reported. */
  function SaveVector(setting: string, st: State, p: TileParams, data: Bytes, writeOk: bool): (State, Ack) {
    match SelectBackend(setting)
    case Some(Redis) => (st.(redis := st.redis[LayerKey(Vector, p) := data]), Done(None))
    case Some(Disk) =>
      if writeOk then (st.(disk := st.disk[VectorPath(p) := data]), Done(None))
      else (st, Done(Some(WriteFailed)))
    case None => (st, Done(Some(StoreNotSet)))
  }

  /**
   * `store._saveRasterTile`. `encoded` is the PNG encoding of the rendered
   * image, None when the encoder fails: on redis the synchronous encoder then
   * throws; on disk nothing is written. The disk variant calls back with no
   * error whatever happened.
   */
  function SaveRaster(setting: string, st: State, p: TileParams, encoded: Option<Bytes>, writeOk: bool): (State, Ack) {
    match SelectBackend(setting)
    case Some(Redis) =>
      if encoded.None? then (st, Threw)
      else (st.(redis := st.redis[LayerKey(Raster, p) := encoded.value]), Done(None))
    case Some(Disk) =>
      if encoded.Some? && writeOk then (st.(disk := st.disk[RasterPath(p) := encoded.value]), Done(None))
      else (st, Done(None))
    case None => (st, Done(Some(StoreNotSet)))
  }

  /** `store._readRasterTile`: the error handed to the callback and the data. */
  function ReadRaster(setting: string, st: State, p: TileParams): (Option<Failure>, Reply) {
    match SelectBackend(setting)
    case Some(Redis) => (None, RedisBuffer(st, LayerKey(Raster, p)))
    case Some(Disk) => (None, DiskRead(st, RasterPath(p)))
    case None => (Some(StoreNotSet), Nil)
  }

  /**
   * A vector reader dispatching like `store._readRasterTile` over the keys
   * `store._saveVectorTile` writes. store.js has no such reader; see
   * Pile.VectorTileAsWritten.
   */
  function ReadVector(setting: string, st: State, p: TileParams): (Option<Failure>, Reply) {
    match SelectBackend(setting)
    case Some(Redis) => (None, RedisBuffer(st, LayerKey(Vector, p)))
    case Some(Disk) => (None, DiskRead(st, VectorPath(p)))
    case None => (Some(StoreNotSet), Nil)
  }

  /** The grid writer in `pile._renderGridTile`: SET of the grid key to the encoded JSON text. */
  function SaveGrid(st: State, p: TileParams, json: Bytes): State {
    st.(redis := st.redis[LayerKey(Grid, p) := json])
  }

  /** `pile._getGridTileFromRedis`: GET with a string key. */
  function ReadGrid(st: State, p: TileParams): Reply {
    RedisText(st, LayerKey(Grid, p))
  }

  /** `pile._getRasterTileFromRedis`: GET with a Buffer key. */
  function PileRasterFromRedis(st: State, p: TileParams): Reply {
    RedisBuffer(st, "raster_tile:" + p.layerUuid + ":" + NumberText(p.z) + ":" + NumberText(p.x) + ":" + NumberText(p.y))
  }

  /** `pile._getVectorTileFromRedis`: GET with a Buffer key. */
  function PileVectorFromRedis(st: State, p: TileParams): Reply {
    RedisBuffer(st, "vector_tile:" + p.layerUuid + ":" + NumberText(p.z) + ":" + NumberText(p.x) + ":" + NumberText(p.y))
  }

  /** The cube tile writer in `cubes.createTile`: the write's outcome is ignored. */
  function SaveCube(st: State, path: string, encoded: Option<Bytes>, writeOk: bool): State {
    if encoded.Some? && writeOk then st.(disk := st.disk[path := encoded.value]) else st
  }

  // ---------------------------------------------------------------------
  // Properties

  /** Redis and disk raster saves are read back by the raster read of the same backend. */
  lemma RasterRoundTrip(setting: string, st: State, p: TileParams, b: Bytes, writeOk: bool)
    requires setting == "redis" || (setting == "disk" && writeOk)
    ensures SaveRaster(setting, st, p, Some(b), writeOk).1 == Done(None)
    ensures ReadRaster(setting, SaveRaster(setting, st, p, Some(b), writeOk).0, p) == (None, Buf(b))
  {
  }

  /** The vector reader returns what the vector writer saved, on either backend. */
  lemma VectorRoundTrip(setting: string, st: State, p: TileParams, b: Bytes, writeOk: bool)
    requires setting == "redis" || (setting == "disk" && writeOk)
    ensures SaveVector(setting, st, p, b, writeOk).1 == Done(None)
    ensures ReadVector(setting, SaveVector(setting, st, p, b, writeOk).0, p) == (None, Buf(b))
  {
  }

  /** The grid reader builds the grid writer's key, and the saved JSON text is a hit. */
  lemma GridRoundTrip(st: State, p: TileParams, json: Bytes)
    requires |json| > 0
    ensures ReadGrid(SaveGrid(st, p, json), p) == Text(json) && Hit(Text(json))
  {
  }

  /** The raster key pile reads from redis is the one the redis store writes. */
  lemma PileRasterKeyMatchesStore(st: State, p: TileParams, b: Bytes)
    ensures PileRasterFromRedis(SaveRaster("redis", st, p, Some(b), true).0, p) == Buf(b)
    ensures PileVectorFromRedis(SaveVector("redis", st, p, b, true).0, p) == Buf(b)
  {
    assert "raster_tile:" == KindPrefix(Raster) + ":";
    assert "vector_tile:" == KindPrefix(Vector) + ":";
  }

  /** A missing file is a miss, not an error. */
  lemma DiskMissIsNotError(st: State, p: TileParams)
    requires RasterPath(p) !in st.disk
    ensures ReadRaster("disk", st, p) == (None, Nil)
  {
  }

  /** The disk raster save reports success even when encoding or writing failed, and then writes nothing. */
  lemma DiskRasterSaveAlwaysSucceeds(st: State, p: TileParams, encoded: Option<Bytes>, writeOk: bool)
    ensures SaveRaster("disk", st, p, encoded, writeOk).1 == Done(None)
    ensures !(encoded.Some? && writeOk) ==> SaveRaster("disk", st, p, encoded, writeOk).0 == st
  {
  }

  /** Any setting other than 'redis' or 'disk' fails every save and read and changes nothing. */
  lemma UnknownSettingFails(setting: string, st: State, p: TileParams, b: Bytes, writeOk: bool)
    requires setting != "redis" && setting != "disk"
    ensures SaveRaster(setting, st, p, Some(b), writeOk) == (st, Done(Some(StoreNotSet)))
    ensures SaveVector(setting, st, p, b, writeOk) == (st, Done(Some(StoreNotSet)))
    ensures ReadRaster(setting, st, p) == (Some(StoreNotSet), Nil)
  {
  }

  /** A raster save writes one entry: the redis key or the ".png" path derived from the request. */
  lemma RasterSaveWritesOneEntry(setting: string, st: State, p: TileParams, encoded: Option<Bytes>, writeOk: bool)
    ensures var st' := SaveRaster(setting, st, p, encoded, writeOk).0;
      setting == "redis" ==>
        st'.disk == st.disk && st'.redis - {LayerKey(Raster, p)} == st.redis - {LayerKey(Raster, p)}
    ensures var st' := SaveRaster(setting, st, p, encoded, writeOk).0;
      setting != "redis" ==>
        st'.redis == st.redis && st'.disk - {RasterPath(p)} == st.disk - {RasterPath(p)}
  {
  }

  // ---------------------------------------------------------------------
  // The store object

  /** The store as the server holds it: the setting is fixed, the two maps change on saves. */
  class TileStore {
    const setting: string
    var redis: map<string, Bytes>
    var disk: map<string, Bytes>

    function Snapshot(): State
      reads this
    {
      State(redis, disk)
    }

    constructor (setting: string)
      ensures this.setting == setting && Snapshot() == State(map[], map[])
    {
      this.setting := setting;
      redis := map[];
      disk := map[];
    }

    method SaveVectorTile(data: Bytes, p: TileParams, writeOk: bool) returns (ack: Ack)
      modifies this
      ensures (Snapshot(), ack) == SaveVector(setting, old(Snapshot()), p, data, writeOk)
    {
      var backend := SelectBackend(setting);
      if backend == Some(Redis) {
        redis := redis[LayerKey(Vector, p) := data];
        ack := Done(None);
      } else if backend == Some(Disk) {
        if writeOk {
          disk := disk[VectorPath(p) := data];
          ack := Done(None);
        } else {
          ack := Done(Some(WriteFailed));
        }
      } else {
        ack := Done(Some(StoreNotSet));
      }
    }

    method SaveRasterTile(encoded: Option<Bytes>, p: TileParams, writeOk: bool) returns (ack: Ack)
      modifies this
      ensures (Snapshot(), ack) == SaveRaster(setting, old(Snapshot()), p, encoded, writeOk)
    {
      var backend := SelectBackend(setting);
      if backend == Some(Redis) {
        if encoded.None? {
          ack := Threw;
        } else {
          redis := redis[LayerKey(Raster, p) := encoded.value];
          ack := Done(None);
        }
      } else if backend == Some(Disk) {
        if encoded.Some? && writeOk {
          disk := disk[RasterPath(p) := encoded.value];
        }
        ack := Done(None);
      } else {
        ack := Done(Some(StoreNotSet));
      }
    }

    method SaveGridTile(json: Bytes, p: TileParams)
      modifies this
      ensures Snapshot() == SaveGrid(old(Snapshot()), p, json)
    {
      redis := redis[LayerKey(Grid, p) := json];
    }

    method SaveCubeTile(path: string, encoded: Option<Bytes>, writeOk: bool)
      modifies this
      ensures Snapshot() == SaveCube(old(Snapshot()), path, encoded, writeOk)
    {
      if encoded.Some? && writeOk {
        disk := disk[path := encoded.value];
      }
    }
  }
}
