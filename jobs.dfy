/**
 * The render queue as the tile handlers see it: a job is created with a
 * name, a payload, a priority and a number of attempts, and is appended to
 * the queue. Processing, retries, completion events and removal belong to
 * the queue service and are not modelled.
 */
module Jobs {
  import opened Js
  import opened TileKeys

  /** What a job carries to the worker that renders it. */
  datatype Payload =
    | LayerTile(params: TileParams, storedLayer: Json)
    | CubeTile(tilePath: string, fileId: string, cubeId: string, z: string, x: string, y: string)

  datatype Job = Job(name: string, payload: Payload, priority: string, attempts: nat, removeOnComplete: bool)

  /** Every render job the handlers create is queued with this priority ... */
  const HighPriority := "high"
  /** ... and this many attempts. */
  const RenderAttempts := 5

  /** The queue name a layer tile of the given kind is rendered under. */
  function RenderJobName(kind: Kind): string {
    match kind
    case Raster => "render_raster_tile"
    case Vector => "render_vector_tile"
    case Grid => "render_grid_tile"
  }

  /**
   * The job `pile.create*Tile` queues for a layer tile; only the raster job
   * asks to be removed once complete.
   */
  function RenderJob(kind: Kind, p: TileParams, storedLayer: Json): (j: Job)
    ensures j.priority == HighPriority && j.attempts == RenderAttempts
    ensures j.payload == LayerTile(p, storedLayer)
    ensures j.removeOnComplete <==> kind == Raster
  {
    Job(RenderJobName(kind), LayerTile(p, storedLayer), HighPriority, RenderAttempts, kind == Raster)
  }

  /** The job `cubes._createTileRenderJob` queues for a cube tile. */
  function CubeJob(tilePath: string, fileId: string, cubeId: string, z: string, x: string, y: string): (j: Job)
    ensures j.name == "cube_tile" && j.priority == HighPriority && j.attempts == RenderAttempts
    ensures j.payload.CubeTile? && j.payload.tilePath == tilePath
    ensures j.payload.fileId == fileId && j.payload.cubeId == cubeId
    ensures j.payload.z == z && j.payload.x == x && j.payload.y == y
    ensures !j.removeOnComplete
  {
    Job("cube_tile", CubeTile(tilePath, fileId, cubeId, z, x, y), HighPriority, RenderAttempts, false)
  }

  /** The three layer kinds are rendered by three different workers. */
  lemma RenderJobNamesDistinct(k1: Kind, k2: Kind)
    requires k1 != k2
    ensures RenderJobName(k1) != RenderJobName(k2)
  {
    assert RenderJobName(k1)[7] != RenderJobName(k2)[7];
  }

  /** The queue: jobs in the order they were created. */
  class JobQueue {
    var jobs: seq<Job>

    constructor ()
      ensures jobs == []
    {
      jobs := [];
    }

    /** `jobs.create(name, data).priority(..).attempts(..).save()` */
    method Create(job: Job)
      modifies this
      ensures jobs == old(jobs) + [job]
    {
      jobs := jobs + [job];
    }
  }
}
