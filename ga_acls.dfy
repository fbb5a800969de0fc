/** The alicloud_ga_acls data source: lists the access control lists of the
    Global Accelerator service with ListAcls, following NextToken from page
    to page, keeps the ACLs that pass the user's filters, and publishes them
    as the parallel lists `ids`, `names` and `acls`. */
module GaAcls {
  import opened Common
  import opened Listing

  /** One item of a ListAcls page. AclId and AclName may be absent from the
      JSON (fmt.Sprint then prints "<nil>"); AclStatus is read with an
      unchecked string assertion, so the model takes it as present. */
  datatype Acl = Acl(aclId: Option<string>, aclName: Option<string>, aclStatus: string,
                     addressIpVersion: Option<string>)

  /** The user's arguments. Strings hold "" when unset (GetOk's rule); ids
      may hold nil entries. */
  datatype AclsConfig = AclsConfig(
    ids: seq<Option<string>>, nameRegex: string, aclName: string, status: string, enableDetails: bool)

  /** The client-side filters in effect: the compiled name_regex (if any),
      the ids lookup map, and the wanted status ("" for any). */
  datatype AclFilter = AclFilter(nameMatch: Option<string -> bool>, idsMap: map<string, string>, status: string)

  /** An ACL passes when its printed AclName matches the regex (if one was
      given), its printed AclId is in idsMap (if idsMap is not empty), and
      its AclStatus equals the wanted status (if one was given). */
  predicate KeepAcl(f: AclFilter, a: Acl) {
    && (f.nameMatch.None? || f.nameMatch.value(PrintOpt(a.aclName)))
    && PassesIds(f.idsMap, PrintOpt(a.aclId))
    && (f.status == "" || f.status == a.aclStatus)
  }

  function KeepOf(f: AclFilter): Acl -> bool {
    a => KeepAcl(f, a)
  }

  /** The loop over one page: each item that passes every check is appended
      to objects, the others are skipped with `continue`. */
  method FilterPage(objects: seq<Acl>, page: seq<Acl>, f: AclFilter) returns (out: seq<Acl>)
    ensures out == objects + Filter(page, KeepOf(f))
  {
    out := objects;
    for i := 0 to |page|
      invariant out == objects + Filter(page[..i], KeepOf(f))
    {
      var item := page[i];
      FilterStep(page, i, KeepOf(f));
      if f.nameMatch.Some? && !f.nameMatch.value(PrintOpt(item.aclName)) {
        continue;
      }
      if |f.idsMap| > 0 {
        if PrintOpt(item.aclId) !in f.idsMap {
          continue;
        }
      }
      if f.status != "" && f.status != item.aclStatus {
        continue;
      }
      out := out + [item];
    }
    assert page[..|page|] == page;
  }

  /** The part of a ListAcls response the loop looks at: the Acls attribute
      and the NextToken attribute when it is a string. */
  datatype AclPage = AclPage(acls: JsonList<Acl>, nextToken: Option<string>)

  /** A response that ends the loop: a failed call, a missing Acls attribute
      (both return an error), or no non-empty NextToken. */
  predicate Ends(c: Call<AclPage>) {
    c.Err? || c.value.acls.Missing? || !(c.value.nextToken.Some? && c.value.nextToken.value != "")
  }

  /** The responses the service gives, one per request, in order; the last
      one ends the listing. */
  predicate Terminates(calls: seq<Call<AclPage>>) {
    |calls| > 0 && Ends(calls[|calls| - 1])
  }

  /** xs in front of a listing result; a failure stays a failure. */
  function Prepend(xs: seq<Acl>, r: Result<seq<Acl>>): (q: Result<seq<Acl>>)
    ensures q.Success? <==> r.Success?
    ensures r.Success? ==> q.value == xs + r.value
    ensures r.Failure? ==> q == r
  {
    if r.Success? then Success(xs + r.value) else r
  }

  /** What the listing yields from response i on: the filtered items of each
      page in page order, or the error of the first failing response. */
  function ListingFrom(calls: seq<Call<AclPage>>, i: nat, keep: Acl -> bool): Result<seq<Acl>>
    requires Terminates(calls) && i < |calls|
    decreases |calls| - i
  {
    var c := calls[i];
    if c.Err? then Failure(RemoteError(c.code))
    else if c.value.acls.Missing? then Failure(MissingAttribute("$.Acls"))
    else
      var kept := Filter(ListOf(c.value.acls), keep);
      if Ends(c) then Success(kept) else Prepend(kept, ListingFrom(calls, i + 1, keep))
  }

  /** All items of the pages read from position i up to the page that ends
      the listing, concatenated in page order. */
  function PagesFrom(calls: seq<Call<AclPage>>, i: nat): seq<Acl>
    requires Terminates(calls) && i < |calls|
    decreases |calls| - i
  {
    var page := if calls[i].Ok? then ListOf(calls[i].value.acls) else [];
    if Ends(calls[i]) then page else page + PagesFrom(calls, i + 1)
  }

  /** A successful listing is exactly the filter applied to the
      concatenation of all pages read: an order-preserving subsequence
      holding every item of every page that passes. */
  lemma {:induction false} ListingIsFilteredPages(calls: seq<Call<AclPage>>, i: nat, keep: Acl -> bool)
    requires Terminates(calls) && i < |calls|
    requires ListingFrom(calls, i, keep).Success?
    ensures ListingFrom(calls, i, keep).value == Filter(PagesFrom(calls, i), keep)
    decreases |calls| - i
  {
    if !Ends(calls[i]) {
      ListingIsFilteredPages(calls, i + 1, keep);
      FilterConcat(ListOf(calls[i].value.acls), PagesFrom(calls, i + 1), keep);
    }
  }

  /** How many requests the listing sends from response i on: one per
      response up to and including the first one that ends it. */
  function PagesRead(calls: seq<Call<AclPage>>, i: nat): nat
    requires Terminates(calls) && i < |calls|
    decreases |calls| - i
  {
    if Ends(calls[i]) then 1 else 1 + PagesRead(calls, i + 1)
  }

  /** One more page read: its kept items join the ones collected before. */
  lemma ListingStep(calls: seq<Call<AclPage>>, i: nat, keep: Acl -> bool, before: seq<Acl>)
    requires Terminates(calls) && i < |calls| && !Ends(calls[i])
    ensures i + 1 < |calls| && PagesRead(calls, i) == 1 + PagesRead(calls, i + 1)
    ensures Prepend(before, ListingFrom(calls, i, keep))
            == Prepend(before + Filter(ListOf(calls[i].value.acls), keep), ListingFrom(calls, i + 1, keep))
  {
    var kept := Filter(ListOf(calls[i].value.acls), keep);
    var rest := ListingFrom(calls, i + 1, keep);
    if rest.Success? {
      assert before + (kept + rest.value) == (before + kept) + rest.value;
    }
  }

  /** A response that ends the listing: it is the last one read, and what
      it contributes after the items collected before is an error or its
      own kept items. */
  lemma ListingStops(calls: seq<Call<AclPage>>, i: nat, keep: Acl -> bool, before: seq<Acl>)
    requires Terminates(calls) && i < |calls| && Ends(calls[i])
    ensures PagesRead(calls, i) == 1
    ensures calls[i].Err? ==> Prepend(before, ListingFrom(calls, i, keep)) == Failure(RemoteError(calls[i].code))
    ensures calls[i].Ok? && calls[i].value.acls.Missing? ==>
              Prepend(before, ListingFrom(calls, i, keep)) == Failure(MissingAttribute("$.Acls"))
    ensures calls[i].Ok? && !calls[i].value.acls.Missing? ==>
              Prepend(before, ListingFrom(calls, i, keep)) == Success(before + Filter(ListOf(calls[i].value.acls), keep))
  {
  }

  /** The NextToken of a response, "" when there is none. */
  function TokenOf(c: Call<AclPage>): string {
    if c.Ok? && c.value.nextToken.Some? then c.value.nextToken.value else ""
  }

  /** The request sent for page k: the base request for the first page,
      and for every later page the base request with NextToken set to the
      token the previous response carried. */
  function RequestAt(base: Request, calls: seq<Call<AclPage>>, k: nat): Request
    requires k < |calls|
  {
    if k == 0 then base else base["NextToken" := Str(TokenOf(calls[k - 1]))]
  }

  /** Setting NextToken again replaces the previous token, so the mutated
      request is the base one with the new token. */
  lemma NextRequest(base: Request, calls: seq<Call<AclPage>>, i: nat)
    requires i + 1 < |calls|
    ensures RequestAt(base, calls, i)["NextToken" := Str(TokenOf(calls[i]))] == RequestAt(base, calls, i + 1)
  {
  }

  /** The requests sent for the first n pages. */
  function RequestsSent(base: Request, calls: seq<Call<AclPage>>, n: nat): (rs: seq<Request>)
    requires n <= |calls|
  {
    seq(n, k requires 0 <= k < n => RequestAt(base, calls, k))
  }

  lemma RequestsSentStep(base: Request, calls: seq<Call<AclPage>>, n: nat)
    requires n < |calls|
    ensures RequestsSent(base, calls, n) + [RequestAt(base, calls, n)] == RequestsSent(base, calls, n + 1)
  {
  }

  /** The count is the position of the first response that ends the
      listing: every response before it continues, that one ends it. */
  lemma {:induction false} PagesReadEnds(calls: seq<Call<AclPage>>, i: nat)
    requires Terminates(calls) && i < |calls|
    ensures i + PagesRead(calls, i) <= |calls|
    ensures Ends(calls[i + PagesRead(calls, i) - 1])
    ensures forall j :: i <= j < i + PagesRead(calls, i) - 1 ==> !Ends(calls[j])
    decreases |calls| - i
  {
    if !Ends(calls[i]) {
      PagesReadEnds(calls, i + 1);
    }
  }

  /** Every request after the first is the base request carrying the
      non-empty NextToken of the response before it. */
  lemma RequestsCarryTokens(base: Request, calls: seq<Call<AclPage>>)
    requires Terminates(calls)
    ensures PagesRead(calls, 0) <= |calls|
    ensures var rs := RequestsSent(base, calls, PagesRead(calls, 0));
            && rs[0] == base
            && forall k :: 0 < k < |rs| ==>
                 && calls[k - 1].Ok? && calls[k - 1].value.nextToken.Some? && calls[k - 1].value.nextToken.value != ""
                 && rs[k] == base["NextToken" := Str(calls[k - 1].value.nextToken.value)]
  {
    PagesReadEnds(calls, 0);
  }

  /** The pagination loop: sends `request`, stops with an error on a failed
      call or a missing Acls attribute, filters the page, and repeats with
      NextToken set for as long as the response carries a non-empty token.
      Returns every request sent, in order: one per response up to the
      first response that ends the listing. */
  method ListAcls(base: Request, calls: seq<Call<AclPage>>, f: AclFilter)
    returns (requests: seq<Request>, r: Result<seq<Acl>>)
    requires Terminates(calls)
    ensures r == ListingFrom(calls, 0, KeepOf(f))
    ensures |requests| == PagesRead(calls, 0) <= |calls|
    ensures requests == RequestsSent(base, calls, |requests|)
  {
    ghost var keep := KeepOf(f);
    requests := [];
    var request := base;
    var objects: seq<Acl> := [];
    var i := 0;
    assert requests == RequestsSent(base, calls, 0);
    assert Prepend(objects, ListingFrom(calls, 0, keep)) == ListingFrom(calls, 0, keep) by {
      var l := ListingFrom(calls, 0, keep);
      if l.Success? {
        assert [] + l.value == l.value;
      }
    }
    while true
      invariant 0 <= i < |calls|
      invariant PagesRead(calls, 0) == i + PagesRead(calls, i)
      invariant ListingFrom(calls, 0, keep) == Prepend(objects, ListingFrom(calls, i, keep))
      invariant requests == RequestsSent(base, calls, i)
      invariant request == RequestAt(base, calls, i)
      decreases |calls| - i
    {
      RequestsSentStep(base, calls, i);
      requests := requests + [request];
      var c := calls[i];
      if c.Err? {
        ListingStops(calls, i, keep, objects);
        return requests, Failure(RemoteError(c.code));
      }
      if c.value.acls.Missing? {
        ListingStops(calls, i, keep, objects);
        return requests, Failure(MissingAttribute("$.Acls"));
      }
      var page := ListOf(c.value.acls);
      var before := objects;
      objects := FilterPage(objects, page, f);
      if c.value.nextToken.Some? && c.value.nextToken.value != "" {
        ListingStep(calls, i, keep, before);
        NextRequest(base, calls, i);
        request := request["NextToken" := Str(c.value.nextToken.value)];
      } else {
        ListingStops(calls, i, keep, before);
        return requests, Success(objects);
      }
      i := i + 1;
    }
  }

  /** One entry of an ACL's AclEntries, as DescribeGaAcl returns it. */
  datatype AclEntry = AclEntry(entry: Option<string>, entryDescription: Option<string>)

  /** One element of the `acls` output. */
  datatype AclMapping = AclMapping(
    id: string, aclId: string, aclName: Option<string>, addressIpVersion: Option<string>,
    status: string, aclEntries: Option<seq<AclEntry>>)

  /** The mapping of a kept ACL: id and acl_id are both its printed AclId;
      acl_entries is attached only when details were fetched and the
      response held an AclEntries list. */
  function MappingOf(a: Acl, entries: Option<seq<AclEntry>>): (m: AclMapping)
    ensures m.id == m.aclId == PrintOpt(a.aclId)
    ensures m.aclName == a.aclName && m.status == a.aclStatus && m.addressIpVersion == a.addressIpVersion
    ensures m.aclEntries == entries
  {
    AclMapping(PrintOpt(a.aclId), PrintOpt(a.aclId), a.aclName, a.addressIpVersion, a.aclStatus, entries)
  }

  /** The three parallel output lists. */
  datatype AclsOutput = AclsOutput(ids: seq<string>, names: seq<Option<string>>, acls: seq<AclMapping>)

  /** The entries fetched for one ACL: none without enable_details, else the
      AclEntries list of the DescribeGaAcl response if it has one. */
  function EntriesFor(enableDetails: bool, c: Call<Option<seq<AclEntry>>>): Option<seq<AclEntry>>
    requires enableDetails ==> c.Ok?
  {
    if enableDetails then c.value else None
  }

  /** Some kept ACL's DescribeGaAcl call fails (with details enabled). */
  predicate DetailFails(objects: seq<Acl>, enableDetails: bool, describe: string -> Call<Option<seq<AclEntry>>>) {
    enableDetails && exists i :: 0 <= i < |objects| && describe(PrintOpt(objects[i].aclId)).Err?
  }

  /** The output loop: for each kept ACL, its printed id goes to ids, its
      AclName to names, and its mapping to acls; with enable_details each
      ACL is described first, and the first failing describe aborts with
      its error. `describe` gives the DescribeGaAcl outcome for an id. */
  method Assemble(objects: seq<Acl>, enableDetails: bool, describe: string -> Call<Option<seq<AclEntry>>>)
    returns (r: Result<AclsOutput>)
    ensures r.Failure? <==> DetailFails(objects, enableDetails, describe)
    ensures r.Failure? ==> exists i :: 0 <= i < |objects| && describe(PrintOpt(objects[i].aclId)).Err?
                                     && (forall j :: 0 <= j < i ==> describe(PrintOpt(objects[j].aclId)).Ok?)
                                     && r.error == RemoteError(describe(PrintOpt(objects[i].aclId)).code)
    ensures r.Success? ==>
              && |r.value.ids| == |r.value.names| == |r.value.acls| == |objects|
              && forall i :: 0 <= i < |objects| ==>
                   && r.value.ids[i] == PrintOpt(objects[i].aclId)
                   && r.value.names[i] == objects[i].aclName
                   && r.value.acls[i] == MappingOf(objects[i], EntriesFor(enableDetails, describe(PrintOpt(objects[i].aclId))))
  {
    var ids: seq<string> := [];
    var names: seq<Option<string>> := [];
    var s: seq<AclMapping> := [];
    for i := 0 to |objects|
      invariant |ids| == |names| == |s| == i
      invariant enableDetails ==> forall j :: 0 <= j < i ==> describe(PrintOpt(objects[j].aclId)).Ok?
      invariant forall j :: 0 <= j < i ==>
                  && ids[j] == PrintOpt(objects[j].aclId)
                  && names[j] == objects[j].aclName
                  && s[j] == MappingOf(objects[j], EntriesFor(enableDetails, describe(PrintOpt(objects[j].aclId))))
    {
      var acl := objects[i];
      var mapping := MappingOf(acl, None);
      ids := ids + [mapping.id];
      names := names + [acl.aclName];
      if !enableDetails {
        s := s + [mapping];
        continue;
      }
      var id := PrintOpt(acl.aclId);
      var getResp := describe(id);
      if getResp.Err? {
        return Failure(RemoteError(getResp.code));
      }
      if getResp.value.Some? {
        mapping := mapping.(aclEntries := getResp.value);
      }
      s := s + [mapping];
    }
    r := Success(AclsOutput(ids, names, s));
  }

  /** The ListAcls request before the first page: AclName when acl_name is
      set, RegionId, and the page size. */
  function BaseRequest(cfg: AclsConfig, regionId: string, pageSize: int): (req: Request)
    ensures req.Keys == {"RegionId", "MaxResults"} + (if cfg.aclName != "" then {"AclName"} else {})
    ensures req["RegionId"] == Str(regionId) && req["MaxResults"] == Int(pageSize)
    ensures cfg.aclName != "" ==> req["AclName"] == Str(cfg.aclName)
  {
    var r := if cfg.aclName != "" then map["AclName" := Str(cfg.aclName)] else map[];
    r["RegionId" := Str(regionId)]["MaxResults" := Int(pageSize)]
  }

  /** The data source's Read: compiles name_regex (an invalid one fails
      before any call), builds idsMap, lists and filters every page, then
      assembles the outputs. `compile` stands for the regex engine. */
  method Read(cfg: AclsConfig, regionId: string, pageSize: int, compile: string -> Option<string -> bool>,
              calls: seq<Call<AclPage>>, describe: string -> Call<Option<seq<AclEntry>>>)
    returns (requests: seq<Request>, r: Result<AclsOutput>)
    requires Terminates(calls)
    ensures cfg.nameRegex != "" && compile(cfg.nameRegex).None? ==>
              requests == [] && r == Failure(InvalidRegex(cfg.nameRegex))
    ensures !(cfg.nameRegex != "" && compile(cfg.nameRegex).None?) ==>
              var f := AclFilter(if cfg.nameRegex != "" then compile(cfg.nameRegex) else None,
                                 map k | k in IdSet(cfg.ids) :: k, cfg.status);
              var listing := ListingFrom(calls, 0, KeepOf(f));
              && |requests| == PagesRead(calls, 0)
              && |requests| <= |calls|
              && requests == RequestsSent(BaseRequest(cfg, regionId, pageSize), calls, |requests|)
              && (listing.Failure? ==> r == Failure(listing.error))
              && (listing.Success? ==>
                    && (r.Failure? <==> DetailFails(listing.value, cfg.enableDetails, describe))
                    && (r.Success? ==>
                          && |r.value.ids| == |r.value.names| == |r.value.acls| == |listing.value|
                          && forall i :: 0 <= i < |listing.value| ==>
                               && r.value.ids[i] == r.value.acls[i].id == r.value.acls[i].aclId
                               && r.value.names[i] == r.value.acls[i].aclName
                               && KeepAcl(f, listing.value[i])
                               && r.value.acls[i] == MappingOf(listing.value[i],
                                    EntriesFor(cfg.enableDetails, describe(PrintOpt(listing.value[i].aclId))))))
  {
    var base := BaseRequest(cfg, regionId, pageSize);
    var nameMatch: Option<string -> bool> := None;
    if cfg.nameRegex != "" {
      var m := compile(cfg.nameRegex);
      if m.None? {
        return [], Failure(InvalidRegex(cfg.nameRegex));
      }
      nameMatch := m;
    }
    var idsMap := BuildIdsMap(cfg.ids);
    assert idsMap == map k | k in IdSet(cfg.ids) :: k;
    var f := AclFilter(nameMatch, idsMap, cfg.status);
    var listing;
    requests, listing := ListAcls(base, calls, f);
    if listing.Failure? {
      return requests, Failure(listing.error);
    }
    r := Assemble(listing.value, cfg.enableDetails, describe);
    ListingIsFilteredPages(calls, 0, KeepOf(f));
    forall i | 0 <= i < |listing.value| ensures KeepAcl(f, listing.value[i]) {
      assert KeepOf(f)(listing.value[i]);
    }
  }
}
