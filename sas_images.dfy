/** The alicloud_simple_application_server_images data source: one
    ListImages call, whose Images are filtered on the client by name_regex,
    by id and by exact platform, and published as the parallel lists `ids`,
    `names` and `images`. */
module SasImages {
  import opened Common
  import opened Listing

  /** One item of the Images list; every attribute may be absent. */
  datatype Image = Image(imageId: Option<string>, imageName: Option<string>, platform: Option<string>,
                         description: Option<string>, imageType: Option<string>)

  /** The user's arguments; strings hold "" when unset. */
  datatype ImagesConfig = ImagesConfig(
    ids: seq<Option<string>>, nameRegex: string, imageType: string, platform: string)

  /** The filters in effect: the compiled name_regex (if any), idsMap and
      the wanted platform ("" for any). */
  datatype ImageFilter = ImageFilter(nameMatch: Option<string -> bool>, idsMap: map<string, string>,
                                     platform: string)

  /** An image passes when its printed ImageName matches the regex (if one
      was given), its printed ImageId is in idsMap (if that is not empty),
      and its printed Platform is exactly the wanted one (if one is given):
      unlike the plans data source, this is an equality test. */
  predicate KeepImage(f: ImageFilter, img: Image) {
    && (f.nameMatch.None? || f.nameMatch.value(PrintOpt(img.imageName)))
    && PassesIds(f.idsMap, PrintOpt(img.imageId))
    && (f.platform == "" || f.platform == PrintOpt(img.platform))
  }

  function KeepOf(f: ImageFilter): Image -> bool {
    img => KeepImage(f, img)
  }

  /** The ListImages request: ImageType exactly when image_type is set, and
      nothing else. */
  method BuildRequest(cfg: ImagesConfig) returns (request: Request)
    ensures "ImageType" in request <==> cfg.imageType != ""
    ensures "ImageType" in request ==> request["ImageType"] == Str(cfg.imageType)
    ensures request.Keys <= {"ImageType"}
  {
    request := map[];
    if cfg.imageType != "" {
      request := request["ImageType" := Str(cfg.imageType)];
    }
  }

  /** The loop over the response: an image failing any check is skipped
      with `continue`, the others are appended to objects. */
  method FilterImages(result: seq<Image>, f: ImageFilter) returns (objects: seq<Image>)
    ensures objects == Filter(result, KeepOf(f))
  {
    objects := [];
    for i := 0 to |result|
      invariant objects == Filter(result[..i], KeepOf(f))
    {
      var item := result[i];
      FilterStep(result, i, KeepOf(f));
      if f.nameMatch.Some? && !f.nameMatch.value(PrintOpt(item.imageName)) {
        continue;
      }
      if |f.idsMap| > 0 {
        if PrintOpt(item.imageId) !in f.idsMap {
          continue;
        }
      }
      if f.platform != "" && f.platform != PrintOpt(item.platform) {
        continue;
      }
      objects := objects + [item];
    }
    assert result[..|result|] == result;
  }

  /** The platform filter is exact: an image whose Platform merely contains
      the wanted platform, such as "Linux" inside "Linux-Beta", is dropped. */
  lemma PlatformIsExact(f: ImageFilter, img: Image)
    requires f.platform != "" && img.platform.Some? && img.platform.value != f.platform
    ensures !KeepImage(f, img)
  {
  }

  /** One element of the `images` output: id and image_id are the printed
      ImageId, the other attributes are copied as they are. */
  datatype ImageMapping = ImageMapping(description: Option<string>, id: string, imageId: string,
                                       imageName: Option<string>, imageType: Option<string>,
                                       platform: Option<string>)

  function MappingOf(img: Image): (m: ImageMapping)
    ensures m.id == m.imageId == PrintOpt(img.imageId)
    ensures m.description == img.description && m.imageName == img.imageName
    ensures m.imageType == img.imageType && m.platform == img.platform
  {
    ImageMapping(img.description, PrintOpt(img.imageId), PrintOpt(img.imageId), img.imageName,
                 img.imageType, img.platform)
  }

  datatype ImagesOutput = ImagesOutput(ids: seq<string>, names: seq<Option<string>>, images: seq<ImageMapping>)

  /** The output loop: position by position, the kept image's id, name and
      mapping. */
  method Assemble(objects: seq<Image>) returns (out: ImagesOutput)
    ensures |out.ids| == |out.names| == |out.images| == |objects|
    ensures forall i :: 0 <= i < |objects| ==>
              && out.images[i] == MappingOf(objects[i])
              && out.ids[i] == out.images[i].id
              && out.names[i] == out.images[i].imageName
  {
    var ids: seq<string> := [];
    var names: seq<Option<string>> := [];
    var s: seq<ImageMapping> := [];
    for i := 0 to |objects|
      invariant |ids| == |names| == |s| == i
      invariant forall j :: 0 <= j < i ==> s[j] == MappingOf(objects[j]) && ids[j] == s[j].id && names[j] == s[j].imageName
    {
      var mapping := MappingOf(objects[i]);
      ids := ids + [mapping.id];
      names := names + [objects[i].imageName];
      s := s + [mapping];
    }
    out := ImagesOutput(ids, names, s);
  }

  /** The data source's Read: builds the request, compiles name_regex (an
      invalid one fails before any call), builds idsMap, makes one
      ListImages call, filters its Images and assembles the outputs. A
      failed call or a missing Images attribute is an error; an Images
      attribute that is not a list counts as an empty one. */
  method Read(cfg: ImagesConfig, compile: string -> Option<string -> bool>, call: Call<JsonList<Image>>)
    returns (request: Option<Request>, r: Result<ImagesOutput>)
    ensures cfg.nameRegex != "" && compile(cfg.nameRegex).None? ==>
              request.None? && r == Failure(InvalidRegex(cfg.nameRegex))
    ensures !(cfg.nameRegex != "" && compile(cfg.nameRegex).None?) ==>
              && request.Some?
              && ("ImageType" in request.value <==> cfg.imageType != "")
              && ("ImageType" in request.value ==> request.value["ImageType"] == Str(cfg.imageType))
              && request.value.Keys <= {"ImageType"}
              && (call.Err? ==> r == Failure(RemoteError(call.code)))
              && (call.Ok? && call.value.Missing? ==> r == Failure(MissingAttribute("$.Images")))
              && (call.Ok? && !call.value.Missing? ==>
                    var f := ImageFilter(if cfg.nameRegex != "" then compile(cfg.nameRegex) else None,
                                         map k | k in IdSet(cfg.ids) :: k, cfg.platform);
                    var kept := Filter(ListOf(call.value), KeepOf(f));
                    && r.Success?
                    && |r.value.ids| == |r.value.names| == |r.value.images| == |kept|
                    && forall i :: 0 <= i < |kept| ==>
                         && KeepImage(f, kept[i])
                         && r.value.images[i] == MappingOf(kept[i])
                         && r.value.ids[i] == r.value.images[i].id == r.value.images[i].imageId
                         && r.value.names[i] == r.value.images[i].imageName)
  {
    var req := BuildRequest(cfg);
    var nameMatch: Option<string -> bool> := None;
    if cfg.nameRegex != "" {
      var m := compile(cfg.nameRegex);
      if m.None? {
        return None, Failure(InvalidRegex(cfg.nameRegex));
      }
      nameMatch := m;
    }
    var idsMap := BuildIdsMap(cfg.ids);
    assert idsMap == map k | k in IdSet(cfg.ids) :: k;
    var f := ImageFilter(nameMatch, idsMap, cfg.platform);
    request := Some(req);
    if call.Err? {
      return request, Failure(RemoteError(call.code));
    }
    if call.value.Missing? {
      return request, Failure(MissingAttribute("$.Images"));
    }
    var objects := FilterImages(ListOf(call.value), f);
    var out := Assemble(objects);
    forall i | 0 <= i < |objects| ensures KeepImage(f, objects[i]) {
      assert KeepOf(f)(objects[i]);
    }
    r := Success(out);
  }
}
