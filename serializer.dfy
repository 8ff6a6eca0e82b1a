/**
 * `ppt_serializer` in components.py: a property row as the map and the carousel use it,
 * with its location parsed, its image list split and its type spelled out.
 */
module Serializer {
  import opened Wrappers
  import opened Text
  import opened Values
  import opened Config
  import opened Const

  /** The serialized property: the row's other columns, the parsed location, the image
      paths and the type's label. `J` is whatever `json.loads` builds. */
  datatype Serialized<J> = Serialized(fields: Row, location: J, images: seq<string>, pptType: string)

  /** The three columns the serializer replaces. */
  const Replaced: set<string> := {"location", "images", "ppt_type"}

  /** `json.loads(ppt.get("location"))`: a string goes to `loads`, which fails with a
      ValueError on malformed text; anything else is refused with a TypeError. */
  function Location<J>(ppt: Row, loads: string -> Option<J>): (r: Result<J>)
    ensures r.Ok? <==> "location" in ppt && ppt["location"].Str? && loads(ppt["location"].s).Some?
    ensures r.Ok? ==> r.value == loads(ppt["location"].s).value
  {
    var v := if "location" in ppt then ppt["location"] else Null;
    if !v.Str? then Err(TypeError("loads"))
    else match loads(v.s)
      case None => Err(ValueError("loads"))
      case Some(j) => Ok(j)
  }

  /** `ppt.get("images").split(",") if ppt.get("images") else DEFAULT_IMG`. A truthy value
      that is not a string has no `split`. */
  function Images(ppt: Row, defaultImg: seq<string>): (r: Result<seq<string>>)
    ensures ("images" !in ppt || !Truthy(ppt["images"])) ==> r == Ok(defaultImg)
    ensures "images" in ppt && Truthy(ppt["images"]) && !ppt["images"].Str? ==> r.Err?
    ensures "images" in ppt && ppt["images"].Str? && ppt["images"].s != "" ==> r == Ok(Split(ppt["images"].s, ","))
  {
    var v := if "images" in ppt then ppt["images"] else Null;
    if !Truthy(v) then Ok(defaultImg)
    else if v.Str? then Ok(Split(v.s, ","))
    else Err(AttributeError("split"))
  }

  /** `const.PPT_TYPE[int(ppt["ppt_type"])]`. */
  function TypeLabel(ppt: Row): (r: Result<string>)
    ensures "ppt_type" !in ppt ==> r == Err(KeyError("ppt_type"))
    ensures r.Ok? <==> "ppt_type" in ppt && PyInt(ppt["ppt_type"]).Ok?
                       && WAREHOUSE <= PyInt(ppt["ppt_type"]).value <= SHOP
  {
    if "ppt_type" !in ppt then Err(KeyError("ppt_type"))
    else match PyInt(ppt["ppt_type"])
      case Err(e) => Err(e)
      case Ok(t) => PptTypeLabel(t)
  }

  /** `ppt_serializer(ppt)`: the three steps in source order, the first failure wins. */
  function PptSerialized<J>(ppt: Row, defaultImg: seq<string>, loads: string -> Option<J>): (r: Result<Serialized<J>>)
    ensures r.Ok? <==> Location(ppt, loads).Ok? && Images(ppt, defaultImg).Ok? && TypeLabel(ppt).Ok?
    ensures r.Ok? ==> r.value.fields == ppt - Replaced
    ensures r.Ok? ==> r.value.location == Location(ppt, loads).value
                      && r.value.images == Images(ppt, defaultImg).value
                      && r.value.pptType == TypeLabel(ppt).value
    ensures Location(ppt, loads).Err? ==> r == Err(Location(ppt, loads).error)
    ensures Location(ppt, loads).Ok? && Images(ppt, defaultImg).Err? ==> r == Err(Images(ppt, defaultImg).error)
    ensures Location(ppt, loads).Ok? && Images(ppt, defaultImg).Ok? && TypeLabel(ppt).Err? ==>
              r == Err(TypeLabel(ppt).error)
  {
    match Location(ppt, loads)
    case Err(e) => Err(e)
    case Ok(loc) =>
      match Images(ppt, defaultImg)
      case Err(e) => Err(e)
      case Ok(imgs) =>
        match TypeLabel(ppt)
        case Err(e) => Err(e)
        case Ok(name) => Ok(Serialized(ppt - Replaced, loc, imgs, name))
  }

  /** The image column `GROUP_CONCAT` wrote by joining paths with "," is split back into
      the same paths, as long as no path holds a comma. */
  lemma ImagesRoundTrip(ppt: Row, paths: seq<string>, defaultImg: seq<string>)
    requires |paths| >= 1 && Join(",", paths) != ""
    requires forall i :: 0 <= i < |paths| ==> ',' !in paths[i]
    requires "images" in ppt && ppt["images"] == Str(Join(",", paths))
    ensures Images(ppt, defaultImg) == Ok(paths)
  {
    assert Marker(",", 0);
    JoinSplit(paths, ",", 0);
  }
}
