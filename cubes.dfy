/**
 * Cubes: named stacks of raster datasets sharing one style. A cube is a
 * document with a `cube_id`, a `timestamp`, a `createdBy`, a `style`, a
 * `quality` and a `datasets` array. The handlers validate the request,
 * look the cube up, change it in place and send it back; looking cubes up
 * and saving them is a collaborator (`found` is what the lookup produced,
 * null when it failed).
 */
module Cubes {
  import opened Js

  const DefaultStyle := "#layer { raster-opacity: 1; }"
  const DefaultQuality := "png32"

  // ---------------------------------------------------------------------
  // create

  /** The keys `cubes.create` always sets. */
  predicate IsCreateKey(k: string) {
    k == "cube_id" || k == "timestamp" || k == "createdBy" || k == "style" || k == "quality" || k == "datasets"
  }

  /**
   * `cubes.create`: the request body with the default options laid over it,
   * the defaults winning. `uuid`, `now` and `userUuid` stand for `uuid.v4()`,
   * the clock and `req.user.uuid`.
   */
  function Create(body: Doc, uuid: string, now: int, userUuid: Json): (cube: Doc)
    ensures cube.Keys == body.Keys + {"cube_id", "timestamp", "createdBy", "style", "quality", "datasets"}
    ensures cube["cube_id"] == Str("cube-" + uuid) && cube["timestamp"] == Num(now) && cube["createdBy"] == userUuid
    ensures cube["style"] == (if Truthy(Get(body, "style")) then body["style"] else Str(DefaultStyle))
    ensures cube["quality"] == (if Truthy(Get(body, "quality")) then body["quality"] else Str(DefaultQuality))
    ensures cube["datasets"].Arr?
    ensures Get(body, "datasets").Arr? ==> cube["datasets"] == body["datasets"]
    ensures !Get(body, "datasets").Arr? ==> cube["datasets"] == Arr([])
    ensures forall k :: k in body && !IsCreateKey(k) ==> cube[k] == body[k]
  {
    var datasets := Get(body, "datasets");
    body + map[
      "cube_id" := Str("cube-" + uuid),
      "timestamp" := Num(now),
      "createdBy" := userUuid,
      "style" := Or(Get(body, "style"), Str(DefaultStyle)),
      "quality" := Or(Get(body, "quality"), Str(DefaultQuality)),
      "datasets" := if datasets.Arr? then datasets else Arr([])]
  }

  // ---------------------------------------------------------------------
  // Reading requests

  /** `cubes.getBody`: the body if it has a property, else the query if it has one, else nothing. */
  function GetBody(body: Doc, query: Doc): (r: Option<Doc>)
    ensures r.None? <==> |body| == 0 && |query| == 0
    ensures |body| > 0 ==> r == Some(body)
    ensures |body| == 0 && |query| > 0 ==> r == Some(query)
  {
    if |body| > 0 then Some(body)
    else if |query| > 0 then Some(query)
    else None
  }

  datatype CubeRequest = CubeRequest(cubeId: string, dataset: string, z: string, x: string, y: string)

  /**
   * `cubes.getCubeRequest`: the '/'-separated segments of the wildcard route
   * parameter, `y` cut at its first '.'; None when the parameter is absent or
   * has fewer than five segments (the code throws and returns false).
   */
  function GetCubeRequest(param: Option<string>): (r: Option<CubeRequest>)
    ensures r.Some? <==> param.Some? && |Split(param.value, '/')| >= 5
  {
    if param.None? then None
    else
      var parts := Split(param.value, '/');
      if |parts| < 5 then None
      else Some(CubeRequest(parts[0], parts[1], parts[2], parts[3], Split(parts[4], '.')[0]))
  }

  /** The route parameter of a cube tile request. */
  function CubeTileParam(r: CubeRequest, ext: string): string {
    r.cubeId + "/" + r.dataset + "/" + r.z + "/" + r.x + "/" + r.y + "." + ext
  }

  lemma CubeTileParamShape(r: CubeRequest, ext: string)
    ensures CubeTileParam(r, ext) == r.cubeId + "/" + r.dataset + "/" + r.z + "/" + r.x + "/" + (r.y + "." + ext)
  {
    var front := r.cubeId + "/" + r.dataset + "/" + r.z + "/" + r.x + "/";
    assert CubeTileParam(r, ext) == front + r.y + "." + ext;
  }

  /** A cube tile parameter reads back as the request it was built from. */
  lemma GetCubeRequestRoundTrip(r: CubeRequest, ext: string)
    requires '/' !in r.cubeId && '/' !in r.dataset && '/' !in r.z && '/' !in r.x && '/' !in r.y && '/' !in ext
    requires '.' !in r.y && '.' !in ext
    ensures GetCubeRequest(Some(CubeTileParam(r, ext))) == Some(r)
  {
    var last := r.y + "." + ext;
    assert '/' !in last by {
      forall i | 0 <= i < |last| ensures last[i] != '/' {
        if i < |r.y| { assert last[i] == r.y[i]; }
        else if i > |r.y| { assert last[i] == ext[i - |r.y| - 1]; }
      }
    }
    CubeTileParamShape(r, ext);
    SplitSingle(r.cubeId, '/');
    var k1 := r.cubeId + "/" + r.dataset;
    SplitStep(r.cubeId, [r.cubeId], r.dataset, '/');
    var k2 := k1 + "/" + r.z;
    SplitStep(k1, [r.cubeId, r.dataset], r.z, '/');
    var k3 := k2 + "/" + r.x;
    SplitStep(k2, [r.cubeId, r.dataset, r.z], r.x, '/');
    SplitStep(k3, [r.cubeId, r.dataset, r.z, r.x], last, '/');
    SplitSingle(r.y, '.');
    SplitStep(r.y, [r.y], ext, '.');
  }

  // ---------------------------------------------------------------------
  // Validation

  /** How a cube handler answers. */
  datatype Response =
    | Refused(code: nat, error: string)   // 400 with `error` and `error_code`
    | LookupFailed                        // 400: the cube could not be found
    | Crash                               // an exception escapes
    | Sent(cube: Doc)                     // the changed cube

  const NoDatasetId := "Please provide a dataset id"
  const NoDatasets := "Please provide datasets"

  /** `!v.length`; None where reading `.length` throws. */
  function LengthFalsy(v: Json): (r: Option<bool>)
    ensures r.None? <==> v.Undefined? || v.Null?
    ensures v.Arr? ==> r == Some(|v.items| == 0)
  {
    match v
    case Undefined => None
    case Null => None
    case Bool(_) => Some(true)
    case Num(_) => Some(true)
    case Str(s) => Some(|s| == 0)
    case Arr(items) => Some(|items| == 0)
    case Obj(f) => Some(!Truthy(Get(f, "length")))
  }

  datatype Checked = Proceed(cubeId: Json, datasets: Json) | Stop(response: Response)

  /**
   * The checks `add` and `remove` make before the cube is fetched: a body
   * (code 1), a `cube_id` (code 2) and a non-empty `datasets` (code 3,
   * with the handler's own message).
   */
  function CheckDatasetsRequest(options: Option<Doc>, noDatasets: string): (c: Checked)
    ensures c == Stop(Refused(1, NoDatasetId)) <==> options.None?
    ensures c == Stop(Refused(2, NoDatasetId)) <==> options.Some? && !Truthy(Get(options.value, "cube_id"))
    ensures c.Proceed? ==> options.Some? && Truthy(c.cubeId) && c.datasets == Get(options.value, "datasets")
    ensures c.Proceed? && c.datasets.Arr? ==> |c.datasets.items| > 0
    ensures options.Some? && Truthy(Get(options.value, "cube_id")) ==>
      (c.Proceed? <==> LengthFalsy(Get(options.value, "datasets")) == Some(false))
    ensures options.Some? && Truthy(Get(options.value, "cube_id")) ==>
      (c == Stop(Refused(3, noDatasets)) <==> LengthFalsy(Get(options.value, "datasets")) == Some(true))
    ensures options.Some? && Truthy(Get(options.value, "cube_id")) ==>
      (c == Stop(Crash) <==> LengthFalsy(Get(options.value, "datasets")).None?)
  {
    if options.None? then Stop(Refused(1, NoDatasetId))
    else
      var cubeId := Get(options.value, "cube_id");
      if !Truthy(cubeId) then Stop(Refused(2, NoDatasetId))
      else
        var datasets := Get(options.value, "datasets");
        match LengthFalsy(datasets)
        case None => Stop(Crash)
        case Some(empty) => if empty then Stop(Refused(3, noDatasets)) else Proceed(cubeId, datasets)
  }

  // ---------------------------------------------------------------------
  // Dataset lists

  /** The cube's datasets array, or nothing when `datasets` is not an array. */
  function Items(doc: Doc): seq<Json> {
    var d := Get(doc, "datasets");
    if d.Arr? then d.items else []
  }

  predicate Nullish(v: Json) {
    v.Undefined? || v.Null?
  }

  /** `d.id` for a requested dataset that is not null or undefined. */
  function IdOf(d: Json): Json {
    if d.Obj? then Get(d.fields, "id") else Undefined
  }

  /** The `_.matches({id: id})` test: an object that has an `id` equal to `id`. */
  predicate Matches(entry: Json, id: Json) {
    entry.Obj? && "id" in entry.fields && entry.fields["id"] == id
  }

  /** `_.remove(items, {id: id})`: drops every matching entry, keeping the others in order. */
  function Without(items: seq<Json>, id: Json): seq<Json> {
    if items == [] then []
    else (if Matches(items[0], id) then [] else [items[0]]) + Without(items[1..], id)
  }

  /** The datasets after one `_.remove` per requested dataset, in request order. */
  function RemoveEach(items: seq<Json>, ds: seq<Json>): seq<Json> {
    if ds == [] then items
    else Without(RemoveEach(items, ds[..|ds| - 1]), IdOf(ds[|ds| - 1]))
  }

  predicate MatchesAny(entry: Json, ds: seq<Json>) {
    exists i :: 0 <= i < |ds| && Matches(entry, IdOf(ds[i]))
  }

  /** The reference meaning of `remove`: the entries no requested dataset matches, in their order. */
  function Surviving(items: seq<Json>, ds: seq<Json>): seq<Json> {
    if items == [] then []
    else (if MatchesAny(items[0], ds) then [] else [items[0]]) + Surviving(items[1..], ds)
  }

  lemma {:induction false} WithoutSurviving(items: seq<Json>, ds: seq<Json>, d: Json)
    ensures Without(Surviving(items, ds), IdOf(d)) == Surviving(items, ds + [d])
  {
    if items != [] {
      WithoutSurviving(items[1..], ds, d);
      var x := items[0];
      var rest := Surviving(items[1..], ds);
      if MatchesAny(x, ds) {
        assert MatchesAny(x, ds + [d]) by {
          var i :| 0 <= i < |ds| && Matches(x, IdOf(ds[i]));
          assert (ds + [d])[i] == ds[i];
        }
        assert Surviving(items, ds) == rest;
        assert Surviving(items, ds + [d]) == Surviving(items[1..], ds + [d]);
      } else {
        assert Surviving(items, ds) == [x] + rest;
        assert ([x] + rest)[1..] == rest;
        if Matches(x, IdOf(d)) {
          assert (ds + [d])[|ds|] == d;
        } else {
          assert !MatchesAny(x, ds + [d]) by {
            forall i | 0 <= i < |ds| + 1 ensures !Matches(x, IdOf((ds + [d])[i])) {
              if i < |ds| { assert (ds + [d])[i] == ds[i]; }
            }
          }
        }
      }
    }
  }

  lemma SurvivingNone(items: seq<Json>)
    ensures Surviving(items, []) == items
  {
  }

  /** Removing the requested datasets one after another is removing, in one pass, every entry any of them matches. */
  lemma {:induction false} RemoveEachIsSurviving(items: seq<Json>, ds: seq<Json>)
    ensures RemoveEach(items, ds) == Surviving(items, ds)
  {
    if ds == [] {
      SurvivingNone(items);
    } else {
      var front := ds[..|ds| - 1];
      RemoveEachIsSurviving(items, front);
      WithoutSurviving(items, front, ds[|ds| - 1]);
      assert front + [ds[|ds| - 1]] == ds;
    }
  }

  /** An entry survives exactly when it was there and no requested dataset matches it. */
  lemma {:induction false} SurvivingMembers(items: seq<Json>, ds: seq<Json>, x: Json)
    ensures x in Surviving(items, ds) <==> x in items && !MatchesAny(x, ds)
  {
    if items != [] {
      SurvivingMembers(items[1..], ds, x);
      assert items == [items[0]] + items[1..];
    }
  }

  /** Removal keeps the relative order: it works piecewise over any split of the list. */
  lemma {:induction false} SurvivingConcat(a: seq<Json>, b: seq<Json>, ds: seq<Json>)
    ensures Surviving(a + b, ds) == Surviving(a, ds) + Surviving(b, ds)
  {
    if a != [] {
      SurvivingConcat(a[1..], b, ds);
      assert (a + b)[1..] == a[1..] + b;
    } else {
      assert a + b == b;
    }
  }

  /** `add` appends the requested datasets after the existing ones. */
  function Added(doc: Doc, ds: seq<Json>): Doc {
    doc["datasets" := Arr(Items(doc) + ds)]
  }

  /** `remove` on a cube whose `datasets` is an array; anything else is left as it is. */
  function Removed(doc: Doc, ds: seq<Json>): Doc {
    if Get(doc, "datasets").Arr? then doc["datasets" := Arr(RemoveEach(Items(doc), ds))] else doc
  }

  /** Requested datasets that carry an id match themselves. */
  predicate Identified(d: Json) {
    d.Obj? && "id" in d.fields
  }

  /**
   * Removing what was just added restores the cube, provided each added
   * dataset carries an id and no dataset already in the cube shares one.
   */
  lemma RemoveUndoesAdd(doc: Doc, ds: seq<Json>)
    requires Get(doc, "datasets").Arr?
    requires forall i :: 0 <= i < |ds| ==> Identified(ds[i])
    requires forall x :: x in Items(doc) ==> !MatchesAny(x, ds)
    ensures Removed(Added(doc, ds), ds) == doc
  {
    var items := Items(doc);
    var added := Added(doc, ds);
    assert Items(added) == items + ds;
    RemoveEachIsSurviving(items + ds, ds);
    SurvivingConcat(items, ds, ds);
    SurvivingAllKept(items, ds);
    IdentifiedMatchSelf(ds);
    SurvivingAllMatched(ds, ds);
    assert RemoveEach(Items(added), ds) == items;
    assert Removed(added, ds) == doc["datasets" := Arr(items)];
    assert doc["datasets" := Arr(items)] == doc;
  }

  lemma {:induction false} SurvivingAllKept(items: seq<Json>, ds: seq<Json>)
    requires forall x :: x in items ==> !MatchesAny(x, ds)
    ensures Surviving(items, ds) == items
  {
    if items != [] {
      assert items[0] in items;
      SurvivingAllKept(items[1..], ds);
    }
  }

  lemma {:induction false} SurvivingAllMatched(items: seq<Json>, ds: seq<Json>)
    requires forall x :: x in items ==> MatchesAny(x, ds)
    ensures Surviving(items, ds) == []
  {
    if items != [] {
      assert items[0] in items;
      SurvivingAllMatched(items[1..], ds);
    }
  }

  lemma IdentifiedMatchSelf(ds: seq<Json>)
    requires forall i :: 0 <= i < |ds| ==> Identified(ds[i])
    ensures forall x :: x in ds ==> MatchesAny(x, ds)
  {
    forall x | x in ds ensures MatchesAny(x, ds) {
      var i :| 0 <= i < |ds| && ds[i] == x;
      assert Matches(x, IdOf(ds[i]));
    }
  }

  /** `update`: the options other than `access_token` laid over the cube, then a fresh timestamp. */
  function Updated(doc: Doc, options: Doc, now: int): (r: Doc)
    ensures r.Keys == doc.Keys + (options.Keys - {"access_token"}) + {"timestamp"}
    ensures Get(r, "timestamp") == Num(now)
    ensures forall k :: k in options && k != "access_token" && k != "timestamp" ==> Get(r, k) == options[k]
    ensures forall k :: k !in options && k != "timestamp" ==> Get(r, k) == Get(doc, k)
    ensures Get(r, "access_token") == Get(doc, "access_token")
  {
    (doc + (options - {"access_token"}))["timestamp" := Num(now)]
  }

  // ---------------------------------------------------------------------
  // The cube object and the handlers

  class Cube {
    var doc: Doc

    constructor (doc: Doc)
      ensures this.doc == doc
    {
      this.doc := doc;
    }

    /** `datasets.forEach(d => cube.datasets.push(d))` */
    method AddDatasets(ds: seq<Json>)
      requires Get(doc, "datasets").Arr?
      modifies this
      ensures doc == Added(old(doc), ds)
    {
      ghost var start := doc;
      assert Added(start, ds[..0]) == start by {
        assert Items(start) + ds[..0] == Items(start);
        assert start["datasets" := start["datasets"]] == start;
      }
      var i := 0;
      while i < |ds|
        invariant 0 <= i <= |ds|
        invariant doc == Added(start, ds[..i])
      {
        assert Items(doc) == Items(start) + ds[..i];
        assert Items(start) + ds[..i + 1] == (Items(start) + ds[..i]) + [ds[i]] by {
          assert ds[..i + 1] == ds[..i] + [ds[i]];
        }
        doc := doc["datasets" := Arr(Items(doc) + [ds[i]])];
        i := i + 1;
      }
      assert ds[..i] == ds;
    }

    /**
     * `datasets.forEach(d => _.remove(cube.datasets, {id: d.id}))`: stops with
     * `done < |ds|` at the first null or undefined dataset, where `d.id` throws.
     */
    method RemoveDatasets(ds: seq<Json>) returns (done: nat)
      modifies this
      ensures done <= |ds| && (done < |ds| ==> Nullish(ds[done]))
      ensures forall i :: 0 <= i < done ==> !Nullish(ds[i])
      ensures doc == Removed(old(doc), ds[..done])
    {
      done := 0;
      while done < |ds|
        invariant done <= |ds|
        invariant forall i :: 0 <= i < done ==> !Nullish(ds[i])
        invariant doc == Removed(old(doc), ds[..done])
      {
        var d := ds[done];
        if Nullish(d) {
          return;
        }
        assert ds[..done + 1][..done] == ds[..done];
        if Get(doc, "datasets").Arr? {
          doc := doc["datasets" := Arr(Without(Items(doc), IdOf(d)))];
        }
        done := done + 1;
      }
    }

    /** `_.extend(cube, options)` without `access_token`, then `cube.timestamp = now`. */
    method Update(options: Doc, now: int)
      modifies this
      ensures doc == Updated(old(doc), options, now)
    {
      doc := doc + (options - {"access_token"});
      doc := doc["timestamp" := Num(now)];
    }
  }

  /** `cubes.add`. */
  method Add(options: Option<Doc>, found: Cube?) returns (r: Response)
    modifies found
    ensures CheckDatasetsRequest(options, NoDatasets).Stop? ==>
      r == CheckDatasetsRequest(options, NoDatasets).response && (found != null ==> found.doc == old(found.doc))
    ensures r.Sent? ==>
      (found != null && r.cube == found.doc && options.Some? && Get(options.value, "datasets").Arr?
       && found.doc == Added(old(found.doc), Get(options.value, "datasets").items))
    ensures !r.Sent? && found != null ==> found.doc == old(found.doc)
    ensures CheckDatasetsRequest(options, NoDatasets).Proceed? && found == null ==> r == LookupFailed
    ensures CheckDatasetsRequest(options, NoDatasets).Proceed? && found != null ==>
      if Get(options.value, "datasets").Arr? && Get(old(found.doc), "datasets").Arr? then
        r == Sent(found.doc) && found.doc == Added(old(found.doc), Get(options.value, "datasets").items)
      else r == Crash
  {
    var c := CheckDatasetsRequest(options, NoDatasets);
    if c.Stop? {
      return c.response;
    }
    if found == null {
      return LookupFailed;
    }
    if !c.datasets.Arr? || !Get(found.doc, "datasets").Arr? {
      return Crash;
    }
    found.AddDatasets(c.datasets.items);
    r := Sent(found.doc);
  }

  /** `cubes.remove`. */
  method Remove(options: Option<Doc>, found: Cube?) returns (r: Response)
    modifies found
    ensures CheckDatasetsRequest(options, NoDatasetId).Stop? ==>
      r == CheckDatasetsRequest(options, NoDatasetId).response && (found != null ==> found.doc == old(found.doc))
    ensures r.Sent? ==>
      (found != null && r.cube == found.doc && options.Some? && Get(options.value, "datasets").Arr?
       && found.doc == Removed(old(found.doc), Get(options.value, "datasets").items))
    ensures CheckDatasetsRequest(options, NoDatasetId).Proceed? && found == null ==> r == LookupFailed
    ensures CheckDatasetsRequest(options, NoDatasetId).Proceed? && found != null ==>
      if Get(options.value, "datasets").Arr?
         && forall i :: 0 <= i < |Get(options.value, "datasets").items| ==> !Nullish(Get(options.value, "datasets").items[i])
      then r == Sent(found.doc) && found.doc == Removed(old(found.doc), Get(options.value, "datasets").items)
      else r == Crash
  {
    var c := CheckDatasetsRequest(options, NoDatasetId);
    if c.Stop? {
      return c.response;
    }
    if found == null {
      return LookupFailed;
    }
    if !c.datasets.Arr? {
      return Crash;
    }
    var done := found.RemoveDatasets(c.datasets.items);
    if done < |c.datasets.items| {
      return Crash;
    }
    assert c.datasets.items[..done] == c.datasets.items;
    r := Sent(found.doc);
  }

  /** `cubes.update`: a body (code 1) and a `cube_id` (code 2) are checked before the cube is fetched. */
  method Update(options: Option<Doc>, found: Cube?, now: int) returns (r: Response)
    modifies found
    ensures options.None? ==> r == Refused(1, NoDatasetId)
    ensures options.Some? && !Truthy(Get(options.value, "cube_id")) ==> r == Refused(2, NoDatasetId)
    ensures r.Refused? && found != null ==> found.doc == old(found.doc)
    ensures r.Sent? ==> found != null && r.cube == found.doc && found.doc == Updated(old(found.doc), options.value, now)
    ensures options.Some? && Truthy(Get(options.value, "cube_id")) ==>
      if found == null then r == LookupFailed
      else r == Sent(found.doc) && found.doc == Updated(old(found.doc), options.value, now)
  {
    if options.None? {
      return Refused(1, NoDatasetId);
    }
    if !Truthy(Get(options.value, "cube_id")) {
      return Refused(2, NoDatasetId);
    }
    if found == null {
      return LookupFailed;
    }
    found.Update(options.value, now);
    r := Sent(found.doc);
  }

  // ---------------------------------------------------------------------
  // Rendering defaults

  /** The stylesheet `createTile` renders with: an absent or empty style becomes "#layer {}". */
  function StyleSheet(style: Json): (css: Json)
    ensures Truthy(css)
    ensures Truthy(style) ==> css == style
    ensures !Truthy(style) ==> css == Str("#layer {}")
  {
    Or(style, Str("#layer {}"))
  }

  /** The encoding `createTile` asks for: "png8" when the cube has no quality. */
  function EncodeFormat(quality: Json): (f: Json)
    ensures Truthy(f)
    ensures Truthy(quality) ==> f == quality
    ensures !Truthy(quality) ==> f == Str("png8")
  {
    Or(quality, Str("png8"))
  }

  /**
   * A cube made by `create` never falls back to "#layer {}" or "png8": its
   * style and quality are the request's when truthy and the create defaults
   * otherwise.
   */
  lemma CreatedCubeRendering(body: Doc, uuid: string, now: int, userUuid: Json)
    ensures var cube := Create(body, uuid, now, userUuid);
      && StyleSheet(cube["style"]) == Or(Get(body, "style"), Str(DefaultStyle))
      && EncodeFormat(cube["quality"]) == Or(Get(body, "quality"), Str(DefaultQuality))
  {
  }

  /** A created cube accepts the datasets `add` appends to it. */
  lemma CreatedCubeAcceptsAdd(body: Doc, uuid: string, now: int, userUuid: Json, ds: seq<Json>)
    ensures var cube := Create(body, uuid, now, userUuid);
      Get(Added(cube, ds), "datasets") == Arr(Items(cube) + ds)
      && (forall k :: k in cube && k != "datasets" ==> Added(cube, ds)[k] == cube[k])
  {
  }
}
