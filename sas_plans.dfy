/** The alicloud_simple_application_server_plans data source: one ListPlans
    call, whose Plans are filtered on the client by id, by four integer
    attributes and by a platform substring, and published as the parallel
    lists `ids` and `plans`. */
module SasPlans {
  import opened Common
  import opened Strings
  import opened Listing

  /** One item of the Plans list, with its integer attributes as formatInt
      reads them; PlanId and SupportPlatform may be absent. */
  datatype Plan = Plan(planId: Option<string>, bandwidth: int, core: int, diskSize: int, flow: int,
                       supportPlatform: Option<string>)

  /** The user's arguments: the integer filters hold 0 and platform "" when
      unset, which GetOk treats as "not set" too. */
  datatype PlansConfig = PlansConfig(
    ids: seq<Option<string>>, bandwidth: int, core: int, diskSize: int, flow: int, platform: string)

  /** The filters in effect once idsMap is built. */
  datatype PlanFilter = PlanFilter(idsMap: map<string, string>, bandwidth: int, core: int, diskSize: int,
                                   flow: int, platform: string)

  /** An integer filter: 0 matches every value, anything else only itself. */
  predicate IntMatches(wanted: int, actual: int) {
    wanted == 0 || wanted == actual
  }

  /** A plan passes when its printed PlanId is in idsMap (if it is not
      empty), each integer filter matches, and its printed SupportPlatform
      contains the wanted platform (if one is given). */
  predicate KeepPlan(f: PlanFilter, p: Plan) {
    && PassesIds(f.idsMap, PrintOpt(p.planId))
    && IntMatches(f.bandwidth, p.bandwidth)
    && IntMatches(f.core, p.core)
    && IntMatches(f.diskSize, p.diskSize)
    && IntMatches(f.flow, p.flow)
    && (f.platform == "" || Contains(PrintOpt(p.supportPlatform), f.platform))
  }

  function KeepOf(f: PlanFilter): Plan -> bool {
    p => KeepPlan(f, p)
  }

  /** The loop over the response: a plan failing any check is skipped with
      `continue`, the others are appended to objects. */
  method FilterPlans(result: seq<Plan>, f: PlanFilter) returns (objects: seq<Plan>)
    ensures objects == Filter(result, KeepOf(f))
  {
    objects := [];
    for i := 0 to |result|
      invariant objects == Filter(result[..i], KeepOf(f))
    {
      var item := result[i];
      FilterStep(result, i, KeepOf(f));
      if |f.idsMap| > 0 {
        if PrintOpt(item.planId) !in f.idsMap {
          continue;
        }
      }
      if f.bandwidth != 0 && f.bandwidth != item.bandwidth {
        continue;
      }
      if f.core != 0 && f.core != item.core {
        continue;
      }
      if f.diskSize != 0 && f.diskSize != item.diskSize {
        continue;
      }
      if f.flow != 0 && f.flow != item.flow {
        continue;
      }
      if f.platform != "" && !Contains(PrintOpt(item.supportPlatform), f.platform) {
        continue;
      }
      objects := objects + [item];
    }
    assert result[..|result|] == result;
  }

  /** With no filter set every plan passes, so the listing is the response
      list itself. */
  lemma UnfilteredKeepsAll(result: seq<Plan>, f: PlanFilter)
    requires |f.idsMap| == 0 && f.bandwidth == 0 && f.core == 0 && f.diskSize == 0 && f.flow == 0
    requires f.platform == ""
    ensures Filter(result, KeepOf(f)) == result
  {
    FilterAll(result, KeepOf(f));
  }

  /** One element of the `plans` output. */
  datatype PlanMapping = PlanMapping(bandwidth: int, core: int, diskSize: int, flow: int, id: string,
                                     planId: string, supportPlatform: string)

  /** The mapping of a kept plan: id and plan_id are both its printed PlanId. */
  function MappingOf(p: Plan): (m: PlanMapping)
    ensures m.id == m.planId == PrintOpt(p.planId)
    ensures m.bandwidth == p.bandwidth && m.core == p.core && m.diskSize == p.diskSize && m.flow == p.flow
    ensures m.supportPlatform == PrintOpt(p.supportPlatform)
  {
    PlanMapping(p.bandwidth, p.core, p.diskSize, p.flow, PrintOpt(p.planId), PrintOpt(p.planId),
                PrintOpt(p.supportPlatform))
  }

  datatype PlansOutput = PlansOutput(ids: seq<string>, plans: seq<PlanMapping>)

  /** The output loop: each kept plan's mapping goes to plans and its id to
      ids, position by position. */
  method Assemble(objects: seq<Plan>) returns (out: PlansOutput)
    ensures |out.ids| == |out.plans| == |objects|
    ensures forall i :: 0 <= i < |objects| ==> out.plans[i] == MappingOf(objects[i]) && out.ids[i] == out.plans[i].id
  {
    var ids: seq<string> := [];
    var s: seq<PlanMapping> := [];
    for i := 0 to |objects|
      invariant |ids| == |s| == i
      invariant forall j :: 0 <= j < i ==> s[j] == MappingOf(objects[j]) && ids[j] == s[j].id
    {
      var mapping := MappingOf(objects[i]);
      ids := ids + [mapping.id];
      s := s + [mapping];
    }
    out := PlansOutput(ids, s);
  }

  /** The data source's Read: the ListPlans request holds RegionId only, so
      every filter runs on the client. A failed call or a missing Plans
      attribute is an error; a Plans attribute that is not a list counts as
      an empty one. */
  method Read(cfg: PlansConfig, regionId: string, call: Call<JsonList<Plan>>)
    returns (request: Request, r: Result<PlansOutput>)
    ensures request == map["RegionId" := Str(regionId)]
    ensures call.Err? ==> r == Failure(RemoteError(call.code))
    ensures call.Ok? && call.value.Missing? ==> r == Failure(MissingAttribute("$.Plans"))
    ensures call.Ok? && !call.value.Missing? ==>
              var f := PlanFilter(map k | k in IdSet(cfg.ids) :: k, cfg.bandwidth, cfg.core, cfg.diskSize,
                                  cfg.flow, cfg.platform);
              var kept := Filter(ListOf(call.value), KeepOf(f));
              && r.Success?
              && |r.value.ids| == |r.value.plans| == |kept|
              && forall i :: 0 <= i < |kept| ==>
                   && KeepPlan(f, kept[i])
                   && r.value.plans[i] == MappingOf(kept[i])
                   && r.value.ids[i] == r.value.plans[i].id == r.value.plans[i].planId
  {
    request := map["RegionId" := Str(regionId)];
    var idsMap := BuildIdsMap(cfg.ids);
    assert idsMap == map k | k in IdSet(cfg.ids) :: k;
    var f := PlanFilter(idsMap, cfg.bandwidth, cfg.core, cfg.diskSize, cfg.flow, cfg.platform);
    if call.Err? {
      return request, Failure(RemoteError(call.code));
    }
    if call.value.Missing? {
      return request, Failure(MissingAttribute("$.Plans"));
    }
    var objects := FilterPlans(ListOf(call.value), f);
    var out := Assemble(objects);
    forall i | 0 <= i < |objects| ensures KeepPlan(f, objects[i]) {
      assert KeepOf(f)(objects[i]);
    }
    r := Success(out);
  }
}
