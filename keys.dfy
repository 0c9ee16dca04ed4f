/**
 * Cache keys and cache paths. Layer tiles are keyed
 * `<kind>_tile:<layerUuid>:<z>:<x>:<y>`; cube tiles
 * `cube_tile:<cube_id>:<file_id>:<style hash>:<z>:<x>:<y>.png`. On disk the
 * key becomes a file name under a per-kind directory.
 */
module TileKeys {
  import opened Js

  /** The three kinds of layer tile; each has its own key prefix. */
  datatype Kind = Raster | Vector | Grid

  function KindPrefix(k: Kind): string {
    match k
    case Raster => "raster_tile"
    case Vector => "vector_tile"
    case Grid => "grid_tile"
  }

  /** A parsed layer tile request: `/tiles/<layerUuid>/<z>/<x>/<y>.<ext>`. */
  datatype TileParams = TileParams(layerUuid: string, z: Number, x: Number, y: Number, ext: Option<string>)

  const RasterDir := "/data/raster_tiles/"
  const VectorDir := "/data/vector_tiles/"
  const CubeDir := "/data/cube_tiles/"

  /** The redis key of a layer tile of the given kind. */
  function LayerKey(kind: Kind, p: TileParams): string {
    KindPrefix(kind) + ":" + p.layerUuid + ":" + NumberText(p.z) + ":" + NumberText(p.x) + ":" + NumberText(p.y)
  }

  /** Where a raster tile is written and read on disk (the file name carries ".png"). */
  function RasterPath(p: TileParams): string {
    RasterDir + LayerKey(Raster, p) + ".png"
  }

  /** Where a vector tile is written on disk (no extension). */
  function VectorPath(p: TileParams): string {
    VectorDir + LayerKey(Vector, p)
  }

  /** The key of a cube tile; the style enters only through its hash. */
  function CubeKey(cubeId: string, fileId: string, styleHash: string, z: string, x: string, y: string): string {
    "cube_tile:" + cubeId + ":" + fileId + ":" + styleHash + ":" + z + ":" + x + ":" + y + ".png"
  }

  function CubePath(cubeId: string, fileId: string, styleHash: string, z: string, x: string, y: string): string {
    CubeDir + CubeKey(cubeId, fileId, styleHash, z, x, y)
  }

  // ---------------------------------------------------------------------
  // Reading keys back

  /** The fields a layer key is built from. */
  datatype LayerKeyFields = LayerKeyFields(kind: Kind, layerUuid: string, z: Number, x: Number, y: Number)

  function KindOfPrefix(s: string): Option<Kind> {
    if s == "raster_tile" then Some(Raster)
    else if s == "vector_tile" then Some(Vector)
    else if s == "grid_tile" then Some(Grid)
    else None
  }

  /** Splits a layer key at ':' and reads the kind, the layer and the three numbers back. */
  function DecodeLayerKey(key: string): Option<LayerKeyFields> {
    var parts := Split(key, ':');
    if |parts| != 5 then None
    else
      match KindOfPrefix(parts[0])
      case None => None
      case Some(kind) => Some(LayerKeyFields(kind, parts[1], ParseInt(parts[2]), ParseInt(parts[3]), ParseInt(parts[4])))
  }

  /** The fields a cube key is built from. */
  datatype CubeKeyFields = CubeKeyFields(cubeId: string, fileId: string, styleHash: string, z: string, x: string, y: string)

  function DecodeCubeKey(key: string): Option<CubeKeyFields> {
    var parts := Split(key, ':');
    if |parts| != 7 || parts[0] != "cube_tile" then None
    else
      var last := parts[6];
      if |last| < 4 || last[|last| - 4..] != ".png" then None
      else Some(CubeKeyFields(parts[1], parts[2], parts[3], parts[4], parts[5], last[..|last| - 4]))
  }

  lemma NoColonInNumber(x: Number)
    ensures ':' !in NumberText(x)
  {
    NumberTextChars(x);
  }

  /**
   * A layer key reads back as the fields it was built from, provided the
   * layer id holds no ':' (ids are "layer_id-" followed by a UUID).
   */
  lemma LayerKeyDecodes(kind: Kind, p: TileParams)
    requires ':' !in p.layerUuid
    ensures DecodeLayerKey(LayerKey(kind, p)) == Some(LayerKeyFields(kind, p.layerUuid, p.z, p.x, p.y))
  {
    var a, b, c, d, e := KindPrefix(kind), p.layerUuid, NumberText(p.z), NumberText(p.x), NumberText(p.y);
    NoColonInNumber(p.z);
    NoColonInNumber(p.x);
    NoColonInNumber(p.y);
    SplitSingle(a, ':');
    var k2 := a + ":" + b;
    SplitStep(a, [a], b, ':');
    var k3 := k2 + ":" + c;
    SplitStep(k2, [a, b], c, ':');
    var k4 := k3 + ":" + d;
    SplitStep(k3, [a, b, c], d, ':');
    var k5 := k4 + ":" + e;
    SplitStep(k4, [a, b, c, d], e, ':');
    assert LayerKey(kind, p) == k5;
    ParseIntOfNumberText(p.z);
    ParseIntOfNumberText(p.x);
    ParseIntOfNumberText(p.y);
  }

  /** Two requests share a layer key only if kind, layer and coordinates all agree. */
  lemma LayerKeyInjective(k1: Kind, p1: TileParams, k2: Kind, p2: TileParams)
    requires ':' !in p1.layerUuid && ':' !in p2.layerUuid
    ensures LayerKey(k1, p1) == LayerKey(k2, p2) <==>
      k1 == k2 && p1.layerUuid == p2.layerUuid && p1.z == p2.z && p1.x == p2.x && p1.y == p2.y
  {
    LayerKeyDecodes(k1, p1);
    LayerKeyDecodes(k2, p2);
  }

  /** Raster, vector and grid tiles never share a key, whatever the layer id holds. */
  lemma KindsNeverShareKey(k1: Kind, p1: TileParams, k2: Kind, p2: TileParams)
    requires k1 != k2
    ensures LayerKey(k1, p1) != LayerKey(k2, p2)
  {
    assert LayerKey(k1, p1)[0] == KindPrefix(k1)[0];
    assert LayerKey(k2, p2)[0] == KindPrefix(k2)[0];
  }

  lemma PngNoColon(y: string)
    requires ':' !in y
    ensures ':' !in y + ".png"
  {
    var g := y + ".png";
    forall i | 0 <= i < |g| ensures g[i] != ':' {
      if i < |y| { assert g[i] == y[i]; } else { assert g[i] == ".png"[i - |y|]; }
    }
  }

  lemma CubeKeyShape(cubeId: string, fileId: string, styleHash: string, z: string, x: string, y: string)
    ensures CubeKey(cubeId, fileId, styleHash, z, x, y) ==
      "cube_tile" + ":" + cubeId + ":" + fileId + ":" + styleHash + ":" + z + ":" + x + ":" + (y + ".png")
  {
    var front := "cube_tile" + ":" + cubeId + ":" + fileId + ":" + styleHash + ":" + z + ":" + x + ":";
    assert "cube_tile:" == "cube_tile" + ":";
    assert CubeKey(cubeId, fileId, styleHash, z, x, y) == front + y + ".png";
  }

  lemma CubeKeySplits(cubeId: string, fileId: string, styleHash: string, z: string, x: string, y: string)
    requires ':' !in cubeId && ':' !in fileId && ':' !in styleHash
    requires ':' !in z && ':' !in x && ':' !in y
    ensures Split(CubeKey(cubeId, fileId, styleHash, z, x, y), ':') ==
      ["cube_tile", cubeId, fileId, styleHash, z, x, y + ".png"]
  {
    var g := y + ".png";
    PngNoColon(y);
    CubeKeyShape(cubeId, fileId, styleHash, z, x, y);
    var k0 := "cube_tile";
    SplitSingle(k0, ':');
    var k1 := k0 + ":" + cubeId;
    SplitStep(k0, [k0], cubeId, ':');
    var k2 := k1 + ":" + fileId;
    SplitStep(k1, [k0, cubeId], fileId, ':');
    var k3 := k2 + ":" + styleHash;
    SplitStep(k2, [k0, cubeId, fileId], styleHash, ':');
    var k4 := k3 + ":" + z;
    SplitStep(k3, [k0, cubeId, fileId, styleHash], z, ':');
    var k5 := k4 + ":" + x;
    SplitStep(k4, [k0, cubeId, fileId, styleHash, z], x, ':');
    SplitStep(k5, [k0, cubeId, fileId, styleHash, z, x], g, ':');
  }

  /** A cube key reads back as its fields when none of them holds ':'. */
  lemma CubeKeyDecodes(cubeId: string, fileId: string, styleHash: string, z: string, x: string, y: string)
    requires ':' !in cubeId && ':' !in fileId && ':' !in styleHash
    requires ':' !in z && ':' !in x && ':' !in y
    ensures DecodeCubeKey(CubeKey(cubeId, fileId, styleHash, z, x, y)) ==
      Some(CubeKeyFields(cubeId, fileId, styleHash, z, x, y))
  {
    CubeKeySplits(cubeId, fileId, styleHash, z, x, y);
    var g := y + ".png";
    assert g[|g| - 4..] == ".png";
    assert g[..|g| - 4] == y;
  }

  /** Two cube keys are equal exactly when all six fields are, when no field holds ':'. */
  lemma CubeKeyInjective(a: CubeKeyFields, b: CubeKeyFields)
    requires ':' !in a.cubeId && ':' !in a.fileId && ':' !in a.styleHash && ':' !in a.z && ':' !in a.x && ':' !in a.y
    requires ':' !in b.cubeId && ':' !in b.fileId && ':' !in b.styleHash && ':' !in b.z && ':' !in b.x && ':' !in b.y
    ensures CubeKey(a.cubeId, a.fileId, a.styleHash, a.z, a.x, a.y) == CubeKey(b.cubeId, b.fileId, b.styleHash, b.z, b.x, b.y)
      <==> a == b
  {
    CubeKeyDecodes(a.cubeId, a.fileId, a.styleHash, a.z, a.x, a.y);
    CubeKeyDecodes(b.cubeId, b.fileId, b.styleHash, b.z, b.x, b.y);
  }
}
