/** The parts of the provider's CDN service that decide something: how a
    describe call's outcome becomes "found", "not found" or an error, the
    split of a domain-config id, the state refresh functions the waiters
    poll, two polling loops, and the flattening of tag lists. */
module Cdn {
  import opened Common
  import opened Strings

  /** A failed describe call: a code from the function's own not-found list,
      or an error the provider's not-found classifier recognises, means the
      object is gone; anything else is an error with the call's code. */
  function DescribeFailure<T>(code: string, notFound: bool, notFoundCodes: set<string>): (l: Lookup<T>)
    ensures l.NotFound? <==> code in notFoundCodes || notFound
    ensures !l.NotFound? ==> l == Failed(code)
  {
    if code in notFoundCodes || notFound then NotFound else Failed(code)
  }

  /** The part of a DescribeCdnDomainDetail response the provider uses. */
  datatype DomainDetail = DomainDetail(domainName: string, domainStatus: string)

  /** DescribeCdnDomainNew: the error codes InvalidDomain.NotFound and
      ConfigNotFound mean not found, and so does a response describing a
      domain other than the one asked for. */
  function DescribeCdnDomainNew(id: string, call: Call<DomainDetail>): (l: Lookup<DomainDetail>)
    ensures l.Found? <==> call.Ok? && call.value.domainName == id
    ensures l.Found? ==> l.value == call.value
    ensures call.Ok? ==> !l.Failed?
    ensures call.Err? ==> (l.NotFound? <==> call.code in {"InvalidDomain.NotFound", "ConfigNotFound"} || call.notFound)
    ensures l.Failed? ==> call.Err? && l.code == call.code
  {
    match call
    case Err(code, notFound) => DescribeFailure(code, notFound, {"InvalidDomain.NotFound", "ConfigNotFound"})
    case Ok(domain) => if domain.domainName != id then NotFound else Found(domain)
  }

  /** The DescribeCdnDomainConfigs request for an id
      "<domain>:<function names>[:<config id>]": DomainName is part 0,
      FunctionNames part 1, and ConfigId part 2 exactly when the id has
      more than two parts. */
  function ConfigRequest(id: string, regionId: string): (req: Request)
    requires |Split(id, ':')| >= 2
    ensures var parts := Split(id, ':');
            && req.Keys == {"RegionId", "DomainName", "FunctionNames"} + (if |parts| > 2 then {"ConfigId"} else {})
            && req["RegionId"] == Str(regionId)
            && req["DomainName"] == Str(parts[0])
            && req["FunctionNames"] == Str(parts[1])
            && (|parts| > 2 ==> req["ConfigId"] == Str(parts[2]))
  {
    var parts := Split(id, ':');
    var request := map["RegionId" := Str(regionId), "DomainName" := Str(parts[0]), "FunctionNames" := Str(parts[1])];
    if |parts| > 2 then request["ConfigId" := Str(parts[2])] else request
  }

  /** Ids built from colon-free parts give those parts back: a two-part
      id sends no ConfigId, a three-part id sends its third part. */
  lemma ConfigRequestOfTwoParts(domain: string, functions: string, regionId: string)
    requires ':' !in domain && ':' !in functions
    ensures && Split(domain + ":" + functions, ':') == [domain, functions]
            && ConfigRequest(domain + ":" + functions, regionId)
               == map["RegionId" := Str(regionId), "DomainName" := Str(domain), "FunctionNames" := Str(functions)]
  {
    SplitPair(domain, functions, ':');
  }

  lemma ConfigRequestOfThreeParts(domain: string, functions: string, configId: string, regionId: string)
    requires ':' !in domain && ':' !in functions && ':' !in configId
    ensures && Split(domain + ":" + functions + ":" + configId, ':') == [domain, functions, configId]
            && ConfigRequest(domain + ":" + functions + ":" + configId, regionId)
               == map["RegionId" := Str(regionId), "DomainName" := Str(domain), "FunctionNames" := Str(functions),
                      "ConfigId" := Str(configId)]
  {
    var rest := functions + ":" + configId;
    assert domain + ":" + functions + ":" + configId == domain + [':'] + rest;
    SplitAppend(domain, ':', rest);
    SplitNoSep(domain, ':');
    SplitPair(functions, configId, ':');
  }

  /** One element of the DomainConfigs.DomainConfig list. */
  datatype DomainConfig = DomainConfig(configId: Option<string>, functionName: Option<string>, status: Option<string>)

  /** DescribeCdnDomainConfig: the code InvalidDomain.NotFound means not
      found; so does a response without the DomainConfigs.DomainConfig
      path or with an empty list; otherwise the first element is the
      answer. `call` holds the list at that path, None when it is absent. */
  function DescribeCdnDomainConfig(id: string, call: Call<Option<seq<DomainConfig>>>): (l: Lookup<DomainConfig>)
    requires |Split(id, ':')| >= 2
    ensures call.Err? ==> (l.NotFound? <==> call.code == "InvalidDomain.NotFound" || call.notFound)
    ensures call.Err? && !l.NotFound? ==> l == Failed(call.code)
    ensures call.Ok? && (call.value.None? || |call.value.value| == 0) ==> l.NotFound?
    ensures call.Ok? && call.value.Some? && |call.value.value| > 0 ==> l == Found(call.value.value[0])
  {
    match call
    case Err(code, notFound) => DescribeFailure(code, notFound, {"InvalidDomain.NotFound"})
    case Ok(None) => NotFound
    case Ok(Some(configs)) => if |configs| == 0 then NotFound else Found(configs[0])
  }

  /** The part of a DescribeDomainCertificateInfo response the provider uses. */
  datatype CertInfo = CertInfo(serverCertificate: string)

  /** DescribeDomainCertificateInfo: an empty CertInfo list means not found,
      otherwise the first element is the answer. */
  function DescribeDomainCertificateInfo(id: string, call: Call<seq<CertInfo>>): (l: Lookup<CertInfo>)
    ensures call.Err? ==> (l.NotFound? <==> call.notFound) && (!l.NotFound? ==> l == Failed(call.code))
    ensures call.Ok? && |call.value| == 0 ==> l.NotFound?
    ensures call.Ok? && |call.value| > 0 ==> l == Found(call.value[0])
  {
    match call
    case Err(code, notFound) => DescribeFailure(code, notFound, {})
    case Ok(certs) => if |certs| <= 0 then NotFound else Found(certs[0])
  }

  /** The loop over failStates, comparing each with the current status. */
  function IsFailState(status: string, failStates: seq<string>): (r: bool)
    ensures r <==> status in failStates
    decreases |failStates|
  {
    if |failStates| == 0 then false
    else status == failStates[0] || IsFailState(status, failStates[1..])
  }

  /** What a state refresh function hands to the waiter: the object, its
      status, and an error. */
  datatype Refresh<+T> = Refresh(obj: Option<T>, status: string, err: Option<Error>)

  /** The refresh rule both CDN refresh functions follow: not found is "no
      object yet" with no error (as if nothing was found); another describe
      error is returned; a found object reports its status, with a
      FailedToReachTargetStatus error exactly when that status is one of
      failStates. */
  function RefreshOf<T>(lookup: Lookup<T>, statusOf: T -> string, failStates: seq<string>): (r: Refresh<T>)
    ensures lookup.NotFound? ==> r == Refresh(None, "", None)
    ensures lookup.Failed? ==> r == Refresh(None, "", Some(RemoteError(lookup.code)))
    ensures lookup.Found? ==> r.obj == Some(lookup.value) && r.status == statusOf(lookup.value)
    ensures lookup.Found? ==> (r.err.Some? <==> statusOf(lookup.value) in failStates)
    ensures lookup.Found? && r.err.Some? ==> r.err.value == FailedToReachTargetStatus(r.status)
  {
    match lookup
    case NotFound => Refresh(None, "", None)
    case Failed(code) => Refresh(None, "", Some(RemoteError(code)))
    case Found(v) =>
      var status := statusOf(v);
      if IsFailState(status, failStates) then Refresh(Some(v), status, Some(FailedToReachTargetStatus(status)))
      else Refresh(Some(v), status, None)
  }

  function ConfigStatus(c: DomainConfig): string {
    PrintOpt(c.status)
  }

  /** CdnDomainConfigRefreshFunc: the refresh rule over
      DescribeCdnDomainConfig, with the printed Status as the status. */
  function CdnDomainConfigRefreshFunc(id: string, failStates: seq<string>, call: Call<Option<seq<DomainConfig>>>)
    : (r: Refresh<DomainConfig>)
    requires |Split(id, ':')| >= 2
    ensures call.Ok? && (call.value.None? || |call.value.value| == 0) ==> r == Refresh(None, "", None)
    ensures call.Err? && (call.code == "InvalidDomain.NotFound" || call.notFound) ==> r == Refresh(None, "", None)
    ensures call.Err? && !(call.code == "InvalidDomain.NotFound" || call.notFound) ==>
              r == Refresh(None, "", Some(RemoteError(call.code)))
    ensures call.Ok? && call.value.Some? && |call.value.value| > 0 ==>
              var c := call.value.value[0];
              && r.obj == Some(c) && r.status == PrintOpt(c.status)
              && (r.err.Some? <==> PrintOpt(c.status) in failStates)
              && (r.err.Some? ==> r.err.value == FailedToReachTargetStatus(PrintOpt(c.status)))
  {
    RefreshOf(DescribeCdnDomainConfig(id, call), ConfigStatus, failStates)
  }

  /** The part of a DescribeDomainRealtimeLogDelivery response the refresh
      function uses. */
  datatype LogDelivery = LogDelivery(status: Option<string>)

  /** DescribeCdnRealTimeLogDelivery: the codes Domain.NotFound and
      InternalError both mean not found. */
  function DescribeCdnRealTimeLogDelivery(id: string, call: Call<LogDelivery>): (l: Lookup<LogDelivery>)
    ensures call.Ok? ==> l == Found(call.value)
    ensures call.Err? ==> (l.NotFound? <==> call.code in {"Domain.NotFound", "InternalError"} || call.notFound)
    ensures call.Err? && !l.NotFound? ==> l == Failed(call.code)
  {
    match call
    case Err(code, notFound) => DescribeFailure(code, notFound, {"Domain.NotFound", "InternalError"})
    case Ok(delivery) => Found(delivery)
  }

  function DeliveryStatus(d: LogDelivery): string {
    PrintOpt(d.status)
  }

  /** CdnRealTimeLogDeliveryStateRefreshFunc: the refresh rule over
      DescribeCdnRealTimeLogDelivery. */
  function CdnRealTimeLogDeliveryStateRefreshFunc(id: string, failStates: seq<string>, call: Call<LogDelivery>)
    : (r: Refresh<LogDelivery>)
    ensures call.Err? && (call.code in {"Domain.NotFound", "InternalError"} || call.notFound) ==> r == Refresh(None, "", None)
    ensures call.Err? && !(call.code in {"Domain.NotFound", "InternalError"} || call.notFound) ==>
              r == Refresh(None, "", Some(RemoteError(call.code)))
    ensures call.Ok? ==>
              && r.obj == Some(call.value) && r.status == PrintOpt(call.value.status)
              && (r.err.Some? <==> PrintOpt(call.value.status) in failStates)
              && (r.err.Some? ==> r.err.value == FailedToReachTargetStatus(PrintOpt(call.value.status)))
  {
    RefreshOf(DescribeCdnRealTimeLogDelivery(id, call), DeliveryStatus, failStates)
  }

  /** Because InternalError is on the not-found list, a transient server
      error looks to the waiter like a delivery that does not exist yet:
      no object, no status, no error. */
  lemma InternalErrorLooksAbsent(id: string, failStates: seq<string>, notFound: bool)
    ensures CdnRealTimeLogDeliveryStateRefreshFunc(id, failStates, Err("InternalError", notFound))
            == Refresh(None, "", None)
  {
  }

  /** The status a waiter compares with when it waits for deletion. */
  const Deleted := "Deleted"

  /** A poll that has reached the wanted status: the domain is found in
      it, or it is not found and deletion is awaited. */
  predicate DomainReached(id: string, status: string, c: Call<DomainDetail>) {
    var l := DescribeCdnDomainNew(id, c);
    (l.Found? && l.value.domainStatus == status) || (l.NotFound? && status == Deleted)
  }

  /** A poll after which the waiter keeps waiting: the domain is found in
      another status. */
  predicate DomainPending(id: string, status: string, c: Call<DomainDetail>) {
    var l := DescribeCdnDomainNew(id, c);
    l.Found? && l.value.domainStatus != status
  }

  /** WaitForCdnDomain: describes the domain until it is in `status`
      (or, when awaiting Deleted, gone); any other describe error is
      returned at once. The deadline is looked at only after a poll that
      did not match, so the domain is described at least once; `budget` is
      the number of such polls after which it has passed. Returns the
      number of describes made.
      At the deadline the Go code wraps the describe's error variable,
      which is nil there, with the non-empty timeout message. What the
      provider's WrapErrorf makes of a nil cause is not part of this model:
      `nilCauseIsNil` is its verdict. When it is false (the helper still
      builds an error from the message), a timeout is reported; when it is
      true, a wait that runs out returns no error, like one that succeeded. */
  method WaitForCdnDomain(id: string, status: string, budget: nat, calls: seq<Call<DomainDetail>>,
                          nilCauseIsNil: bool)
    returns (polls: nat, err: Option<Error>)
    requires |calls| > budget
    ensures 1 <= polls <= budget + 1
    ensures forall j :: 0 <= j < polls - 1 ==> DomainPending(id, status, calls[j])
    ensures err.None? <==> DomainReached(id, status, calls[polls - 1])
                           || (nilCauseIsNil && DomainPending(id, status, calls[polls - 1]))
    ensures var l := DescribeCdnDomainNew(id, calls[polls - 1]);
            && (l.Failed? ==> err == Some(RemoteError(l.code)))
            && (l.NotFound? && status != Deleted ==> err == Some(NotFoundError))
            && (DomainPending(id, status, calls[polls - 1]) ==>
                  && polls == budget + 1
                  && err == if nilCauseIsNil then None else Some(WaitTimeout(l.value.domainStatus, status)))
  {
    var i := 0;
    while true
      invariant 0 <= i <= budget
      invariant forall j :: 0 <= j < i ==> DomainPending(id, status, calls[j])
      decreases budget - i
    {
      var domain := DescribeCdnDomainNew(id, calls[i]);
      if !domain.Found? {
        if domain.NotFound? && status == Deleted {
          return i + 1, None;
        }
        return i + 1, Some(if domain.NotFound? then NotFoundError else RemoteError(domain.code));
      }
      if domain.value.domainStatus == status {
        return i + 1, None;
      }
      if i == budget {
        return i + 1, if nilCauseIsNil then None else Some(WaitTimeout(domain.value.domainStatus, status));
      }
      i := i + 1;
    }
  }

  /** A poll whose trimmed certificate equals the trimmed expected one. */
  predicate CertReached(id: string, expected: string, c: Call<seq<CertInfo>>) {
    var l := DescribeDomainCertificateInfo(id, c);
    l.Found? && TrimSpace(l.value.serverCertificate) == TrimSpace(expected)
  }

  predicate CertPending(id: string, expected: string, c: Call<seq<CertInfo>>) {
    var l := DescribeDomainCertificateInfo(id, c);
    l.Found? && TrimSpace(l.value.serverCertificate) != TrimSpace(expected)
  }

  /** WaitForServerCertificateNew: describes the domain's certificate until
      its trimmed text equals the trimmed expected one; any describe error,
      not found included, is returned at once. The deadline is looked at
      after each poll that did not match. As in WaitForCdnDomain, the
      deadline wraps a nil error variable with the timeout message, and
      `nilCauseIsNil` is what the provider's WrapErrorf, which is not part
      of this model, makes of that. */
  method WaitForServerCertificateNew(id: string, serverCertificate: string, budget: nat,
                                     calls: seq<Call<seq<CertInfo>>>, nilCauseIsNil: bool)
    returns (polls: nat, err: Option<Error>)
    requires |calls| > budget
    ensures 1 <= polls <= budget + 1
    ensures forall j :: 0 <= j < polls - 1 ==> CertPending(id, serverCertificate, calls[j])
    ensures err.None? <==> CertReached(id, serverCertificate, calls[polls - 1])
                           || (nilCauseIsNil && CertPending(id, serverCertificate, calls[polls - 1]))
    ensures var l := DescribeDomainCertificateInfo(id, calls[polls - 1]);
            && (l.Failed? ==> err == Some(RemoteError(l.code)))
            && (l.NotFound? ==> err == Some(NotFoundError))
            && (CertPending(id, serverCertificate, calls[polls - 1]) ==>
                  && polls == budget + 1
                  && err == if nilCauseIsNil then None
                            else Some(WaitTimeout(TrimSpace(l.value.serverCertificate), TrimSpace(serverCertificate))))
  {
    var i := 0;
    while true
      invariant 0 <= i <= budget
      invariant forall j :: 0 <= j < i ==> CertPending(id, serverCertificate, calls[j])
      decreases budget - i
    {
      var certInfo := DescribeDomainCertificateInfo(id, calls[i]);
      if !certInfo.Found? {
        return i + 1, Some(if certInfo.NotFound? then NotFoundError else RemoteError(certInfo.code));
      }
      if TrimSpace(certInfo.value.serverCertificate) == TrimSpace(serverCertificate) {
        return i + 1, None;
      }
      if i == budget {
        return i + 1, if nilCauseIsNil then None
                      else Some(WaitTimeout(TrimSpace(certInfo.value.serverCertificate), TrimSpace(serverCertificate)));
      }
      i := i + 1;
    }
  }

  /** Surrounding white space is ignored on both sides: a certificate that
      the service returns already trimmed matches the configured text
      however it is padded. */
  lemma TrimmedCertificateReached(id: string, serverCertificate: string, c: Call<seq<CertInfo>>)
    requires c.Ok? && |c.value| > 0 && c.value[0].serverCertificate == TrimSpace(serverCertificate)
    ensures CertReached(id, serverCertificate, c)
  {
    TrimSpaceIdempotent(serverCertificate);
  }

  /** One tag of a CDN resource. */
  datatype TagItem = TagItem(key: string, value: string)

  /** One element of TagResources: the tags of one resource. */
  datatype TagResource = TagResource(tag: seq<TagItem>)

  /** The tag lists of resources, concatenated in order. */
  function Flatten(resources: seq<TagResource>): seq<TagItem>
    decreases |resources|
  {
    if resources == [] then []
    else Flatten(resources[..|resources| - 1]) + resources[|resources| - 1].tag
  }

  /** Flattening splits over concatenation. */
  lemma {:induction false} FlattenConcat(a: seq<TagResource>, b: seq<TagResource>)
    ensures Flatten(a + b) == Flatten(a) + Flatten(b)
    decreases |b|
  {
    if b == [] {
      assert a + b == a;
    } else {
      var b0 := b[..|b| - 1];
      FlattenConcat(a, b0);
      assert (a + b)[..|a + b| - 1] == a + b0;
    }
  }

  /** A tag is in the flattened list exactly when some resource carries it. */
  lemma {:induction false} FlattenMembers(resources: seq<TagResource>, t: TagItem)
    ensures t in Flatten(resources) <==> exists i :: 0 <= i < |resources| && t in resources[i].tag
    decreases |resources|
  {
    if resources != [] {
      var init := resources[..|resources| - 1];
      FlattenMembers(init, t);
      assert forall i :: 0 <= i < |init| ==> init[i] == resources[i];
    }
  }

  /** DescribeTags: a failed call returns no tags and its error; otherwise
      the tags of every resource, in order, and none when there are no
      resources. */
  method DescribeTags(call: Call<seq<TagResource>>) returns (tags: seq<TagItem>, err: Option<Error>)
    ensures call.Err? ==> tags == [] && err == Some(RemoteError(call.code))
    ensures call.Ok? ==> err.None? && tags == Flatten(call.value)
  {
    tags := [];
    err := None;
    if call.Err? {
      err := Some(RemoteError(call.code));
      return;
    }
    var resources := call.value;
    if |resources| < 1 {
      return;
    }
    for i := 0 to |resources|
      invariant tags == Flatten(resources[..i])
    {
      assert resources[..i + 1][..i] == resources[..i];
      tags := tags + resources[i].tag;
    }
    assert resources[..|resources|] == resources;
  }
}
