# Alicloud provider core, modelled in Dafny

This project models the decision logic of a handful of resources, data
sources and service helpers of the Alicloud Terraform provider (written in
Go). It also proves what that logic promises. Every remote RPC call is an
input to the model:

- a `Call<T>`, either `Ok(value)` or `Err(code, notFound)`, where `notFound`
  is the verdict of the provider's not-found classifier;
- or, for a loop, a sequence of such outcomes, one per request.

The schema's view of the user's configuration becomes a plain record per
resource. Two conventions encode the schema's answers:

- `""` and `0` mean "not set", as `GetOk` treats them;
- `HasChange` becomes a set of changed schema keys.

Request maps are `map<string, Value>`. Each is built entry by entry, as
the Go code builds it. Most are built in methods; `GaAcls.BaseRequest` and
`Cdn.ConfigRequest` are functions.

Modules:

- **Common**: shared vocabulary.
  - Outcomes of calls and describes, errors, and request values.
  - `fmt.Sprint` of an optional response field (`PrintOpt`).
  - The shared not-found-tolerant Read shape (`ReadResource`).
  - The "optional-if-present" request loop (`FillRequest`).
- **Strings**: the Go string operations the code relies on: `strings.Split`
  on one character with its inverse `Join`, `strings.Contains` and
  `strings.TrimSpace`.
- **ResourceId**: composite ids `a:b`, which are built with `fmt.Sprint`
  and parsed back into exactly `n` parts.
- **Patterns**: the anchored character-class regexes of the resource
  schemas, with a meaning (`Matches`) so that each schema regex can be
  compared with a hand-written predicate.
- **Listing**:
  - the in-order client-side filter the list data sources apply (`Filter`);
  - the `ids` lookup map and its membership test.
- **GaAcls**: the `alicloud_ga_acls` data source. It follows `NextToken`
  from page to page, filters the ACLs and fills the parallel outputs.
- **SasPlans**: the `alicloud_simple_application_server_plans` data source.
- **SasImages**: the `alicloud_simple_application_server_images` data
  source.
- **Cdn**: the `CdnService` helpers:
  - describe results and "first element or not found";
  - the split of a `domain:functions[:configId]` id;
  - the two state-refresh functions and the two polling waiters;
  - tag flattening.
- **TrafficMirror**: the `alicloud_vpc_traffic_mirror_service` data source,
  which opens the service unless it is open already.
- **CddcAccount**: the `alicloud_cddc_dedicated_host_account` resource.
- **MscWebhook**: the `alicloud_msc_sub_webhook` resource.
- **MscSubscription**: the `alicloud_msc_sub_subscription` resource.
- **HbrRestoreJob**: the `alicloud_hbr_restore_job` resource.

Wall-clock deadlines become a poll budget. A waiter is given `budget`, the
number of polls that may miss the target before the deadline check fires,
together with the describe outcome of each poll.

## Model

| member | source | states |
|---|---|---|
| Common.PrintOpt | alicloud/data_source_alicloud_ga_acls.go:185-186 | `fmt.Sprint` of a response field is the string itself, or `<nil>` when the field is absent |
| Common.ListOf | alicloud/data_source_alicloud_ga_acls.go:158 | a list attribute that is not a list counts as the empty list; a list gives its elements |
| Common.ReadResource | alicloud/resource_alicloud_msc_sub_webhook.go:73-88 | a not-found describe clears the id and returns no error; any other describe error is returned with the id kept; a found object goes into state |
| Common.FillRequest | alicloud/resource_alicloud_hbr_restore_job.go:181-248 | when keys are distinct, the request holds exactly the entries that are set, each with its value |
| Common.HoldsFieldAt | alicloud/resource_alicloud_hbr_restore_job.go:181-248 | every set entry of a filled request can be looked up under its key and has its value |
| Common.DeleteFromStateOnly | alicloud/resource_alicloud_msc_sub_subscription.go:228-231 | a Delete that makes no call never fails |
| Strings.Split | alicloud/service_alicloud_cdn.go:69 | `strings.Split` always returns at least one part |
| Strings.SplitPartsHaveNoSep | alicloud/service_alicloud_cdn.go:69 | no part produced by Split holds the separator |
| Strings.SplitAppend | alicloud/service_alicloud_cdn.go:69 | splitting `a + sep + b` gives the parts of `a` followed by the parts of `b` |
| Strings.SplitJoin | alicloud/service_alicloud_cdn.go:69 | Join followed by Split gives the parts back, when no part holds the separator |
| Strings.JoinSplit | alicloud/service_alicloud_cdn.go:69 | Split followed by Join gives the string back, for every string |
| Strings.SplitPair | alicloud/resource_alicloud_cddc_dedicated_host_account.go:83 | `a:b` with colon-free `a` and `b` splits into exactly `[a, b]` |
| Strings.TrimSpace | alicloud/service_alicloud_cdn.go:164 | the trimmed text is empty, or it neither starts nor ends with white space |
| Strings.TrimSpaceSpec | alicloud/service_alicloud_cdn.go:164 | the trimmed text is an infix `s[lo..hi]` of the input, and everything outside it is white space |
| Strings.TrimSpaceIdempotent | alicloud/service_alicloud_cdn.go:164-168 | trimming an already trimmed text changes nothing, so comparing trimmed texts is stable |
| ResourceId.ParseResourceId | alicloud/resource_alicloud_cddc_dedicated_host_account.go:112-115 | parsing succeeds iff the id splits on `:` into exactly `n` parts; it then returns those colon-free parts, and otherwise an invalid-id error |
| ResourceId.SplitWithSep | alicloud/resource_alicloud_cddc_dedicated_host_account.go:112 | a string that holds the separator splits into at least two parts |
| ResourceId.ParseBuildId | alicloud/resource_alicloud_cddc_dedicated_host_account.go:83 | `a:b` parses back to `[a, b]` if neither part holds `:`, and fails to parse into two parts otherwise |
| Listing.Filter | alicloud/data_source_alicloud_ga_acls.go:159-173 | the kept items all pass the filter, and there are no more of them than inputs |
| Listing.FilterIsSubsequence | alicloud/data_source_alicloud_simple_application_server_plans.go:148-181 | the kept items are the input items at strictly increasing positions, so the input order is preserved |
| Listing.KeptIndicesComplete | alicloud/data_source_alicloud_simple_application_server_images.go:139-153 | a position is kept iff its item passes, so no passing item is dropped and no failing one kept |
| Listing.FilterConcat | alicloud/data_source_alicloud_ga_acls.go:137-179 | filtering pages one after another equals filtering their concatenation |
| Listing.FilterAll | alicloud/data_source_alicloud_simple_application_server_plans.go:148-181 | a filter every item passes keeps the whole list |
| Listing.BuildIdsMap | alicloud/data_source_alicloud_ga_acls.go:125-133 | the ids map holds exactly the non-nil entries of `ids`, each mapped to itself |
| Listing.PassesIdsSpec | alicloud/data_source_alicloud_ga_acls.go:164-168 | the ids test restricts the listing iff `ids` has a non-nil entry, and then keeps exactly the listed ids; an all-nil `ids` keeps everything |
| GaAcls.FilterPage | alicloud/data_source_alicloud_ga_acls.go:159-173 | the loop over one page appends exactly the page's passing ACLs, in order |
| GaAcls.Prepend | alicloud/data_source_alicloud_ga_acls.go:172 | earlier kept ACLs go in front of a later result; a failure stays a failure |
| GaAcls.ListingIsFilteredPages | alicloud/data_source_alicloud_ga_acls.go:137-179 | a successful listing is the filter applied to the concatenation of all pages read, in page order |
| GaAcls.PagesReadEnds | alicloud/data_source_alicloud_ga_acls.go:174-178 | the listing reads pages up to the first one that ends it: every earlier response carries a non-empty NextToken |
| GaAcls.RequestsCarryTokens | alicloud/data_source_alicloud_ga_acls.go:174-178 | the first request is the base request; each later request is the base with NextToken set to the non-empty token of the response before it |
| GaAcls.ListAcls | alicloud/data_source_alicloud_ga_acls.go:137-179 | the pagination loop returns the listing (the error of a failed call or of a missing `$.Acls`, else the kept ACLs of all pages) and exactly the requests it sent, one per page read |
| GaAcls.MappingOf | alicloud/data_source_alicloud_ga_acls.go:184-190 | `id` and `acl_id` both print the AclId; the other fields are copied from the ACL |
| GaAcls.Assemble | alicloud/data_source_alicloud_ga_acls.go:180-217 | `ids`, `names` and `acls` are aligned with the kept ACLs; entries are attached only with `enable_details`, and the first failing describe aborts the Read |
| GaAcls.BaseRequest | alicloud/data_source_alicloud_ga_acls.go:109-114 | the first request holds RegionId and MaxResults, plus AclName exactly when `acl_name` is set |
| GaAcls.Read | alicloud/data_source_alicloud_ga_acls.go:105-217 | an invalid name_regex fails before any call; otherwise the requests are those of the pagination, and every output entry is an ACL that passes the regex, ids and status filters, with aligned ids, names and mappings |
| SasPlans.FilterPlans | alicloud/data_source_alicloud_simple_application_server_plans.go:148-181 | the loop keeps exactly the plans that pass the ids, integer and platform checks, in order |
| SasPlans.UnfilteredKeepsAll | alicloud/data_source_alicloud_simple_application_server_plans.go:150-178 | with no ids and every integer and platform filter unset or zero, every plan is kept |
| SasPlans.MappingOf | alicloud/data_source_alicloud_simple_application_server_plans.go:185-194 | `id` and `plan_id` both print PlanId, and `support_platform` prints SupportPlatform |
| SasPlans.Assemble | alicloud/data_source_alicloud_simple_application_server_plans.go:182-197 | `ids` and `plans` are aligned with the kept plans |
| SasPlans.Read | alicloud/data_source_alicloud_simple_application_server_plans.go:101-197 | the request holds RegionId only; a failed call or a missing `$.Plans` is an error; otherwise every output plan passes every filter and `ids[i]` is its PlanId |
| SasImages.BuildRequest | alicloud/data_source_alicloud_simple_application_server_images.go:93-96 | ImageType is in the request iff `image_type` is set, and nothing else is |
| SasImages.FilterImages | alicloud/data_source_alicloud_simple_application_server_images.go:139-153 | the loop keeps exactly the images that pass the regex, ids and platform checks, in order |
| SasImages.PlatformIsExact | alicloud/data_source_alicloud_simple_application_server_images.go:149-151 | an image whose platform differs from the wanted one is dropped, even when one contains the other |
| SasImages.MappingOf | alicloud/data_source_alicloud_simple_application_server_images.go:158-165 | `id` and `image_id` both print ImageId; the other fields are copied |
| SasImages.Assemble | alicloud/data_source_alicloud_simple_application_server_images.go:154-169 | `ids`, `names` and `images` are aligned with the kept images |
| SasImages.Read | alicloud/data_source_alicloud_simple_application_server_images.go:89-169 | an invalid name_regex fails before any call; otherwise the request holds ImageType, with the configured value, exactly when image_type is set, and nothing else; a failed call or a missing Images attribute is an error; otherwise the outputs are, in order, the listed images that pass the filters, with ids, names and mapped images aligned |
| Cdn.DescribeFailure | alicloud/service_alicloud_cdn.go:49-54 | a failed call is a not-found exactly when its code is in the function's list or the classifier says not found; any other code is a failure carrying that code |
| Cdn.DescribeCdnDomainNew | alicloud/service_alicloud_cdn.go:39-61 | the domain is found iff the call succeeds and returns the requested name; a name mismatch is a not-found; InvalidDomain.NotFound and ConfigNotFound are not-found |
| Cdn.ConfigRequest | alicloud/service_alicloud_cdn.go:69-78 | DomainName is part 0, FunctionNames part 1, and ConfigId is part 2, present iff there are more than two parts |
| Cdn.ConfigRequestOfTwoParts | alicloud/service_alicloud_cdn.go:69-78 | `domain:functions` gives a request with no ConfigId |
| Cdn.ConfigRequestOfThreeParts | alicloud/service_alicloud_cdn.go:69-78 | `domain:functions:configId` gives a request carrying that ConfigId |
| Cdn.DescribeCdnDomainConfig | alicloud/service_alicloud_cdn.go:63-112 | InvalidDomain.NotFound is a not-found; a missing or empty DomainConfig list is a not-found; otherwise the first element |
| Cdn.DescribeDomainCertificateInfo | alicloud/service_alicloud_cdn.go:137-154 | an empty CertInfo list is a not-found; otherwise the first element |
| Cdn.IsFailState | alicloud/service_alicloud_cdn.go:210-214 | the loop over failStates finds the status iff it is in the list |
| Cdn.RefreshOf | alicloud/service_alicloud_cdn.go:198-217 | not found gives (nil, "", no error); another error is returned; a status in failStates gives that status plus FailedToReachTargetStatus; any other status is returned with no error |
| Cdn.CdnDomainConfigRefreshFunc | alicloud/service_alicloud_cdn.go:198-217 | the same three-way classification, in terms of the DescribeCdnDomainConfigs outcome |
| Cdn.DescribeCdnRealTimeLogDelivery | alicloud/service_alicloud_cdn.go:219-251 | Domain.NotFound and InternalError are not-found; any other code is a failure |
| Cdn.CdnRealTimeLogDeliveryStateRefreshFunc | alicloud/service_alicloud_cdn.go:253-271 | the three-way classification, in terms of the DescribeDomainRealtimeLogDelivery outcome |
| Cdn.InternalErrorLooksAbsent | alicloud/service_alicloud_cdn.go:240-242 | an InternalError from the log-delivery describe reads as "nothing there", not as an error |
| Cdn.WaitForCdnDomain | alicloud/service_alicloud_cdn.go:114-135 | at least one poll, all earlier polls pending; success iff the last poll shows the target status, or not-found with target Deleted; another describe error is returned at once; a wait still pending after budget + 1 polls ends with the deadline's `WrapErrorf(err, WaitTimeoutMsg, …)` on a nil `err`, which is a timeout error if that helper builds an error from the message (`nilCauseIsNil` false) and no error if it passes nil through (`nilCauseIsNil` true) |
| Cdn.WaitForServerCertificateNew | alicloud/service_alicloud_cdn.go:156-173 | success iff the trimmed certificate equals the trimmed expected one; any describe error stops the loop at once; a certificate still different after budget + 1 polls ends with `WrapErrorf` on a nil `err`: a timeout carrying both trimmed texts when `nilCauseIsNil` is false, no error when it is true |
| Cdn.TrimmedCertificateReached | alicloud/service_alicloud_cdn.go:164 | a certificate already stored in trimmed form satisfies the wait |
| Cdn.FlattenConcat | alicloud/service_alicloud_cdn.go:192-194 | flattening the tag lists of two runs of resources concatenates their flattenings |
| Cdn.FlattenMembers | alicloud/service_alicloud_cdn.go:192-194 | a tag is in the result iff it is in some resource's tag list |
| Cdn.DescribeTags | alicloud/service_alicloud_cdn.go:175-196 | a failed call gives no tags and the error; otherwise the in-order concatenation of every resource's tags, empty when there are none |
| TrafficMirror.Read | alicloud/data_source_alicloud_vpc_traffic_mirror_service.go:30-95 | without `enable = "On"`: no call and the not-opened state. Otherwise the status query is sent with its own token, and the open call (with its own token) only when the status is not Enabled. The result is Opened iff Enabled, the open call succeeds, or it fails with ORDER.OPEND; any other error is returned |
| CddcAccount.AccountNameRegex | alicloud/resource_alicloud_cddc_dedicated_host_account.go:29 | the account_name regex accepts exactly names of 2 to 16 characters: a lower-case letter first, a lower-case letter or digit last, lower-case letters, digits or `_` between |
| CddcAccount.AccountPasswordRegex | alicloud/resource_alicloud_cddc_dedicated_host_account.go:35 | the password regex accepts exactly 6 to 32 word characters or `!@#$%^&*()_+=` |
| CddcAccount.ValidAccountType | alicloud/resource_alicloud_cddc_dedicated_host_account.go:41 | account_type is accepted iff it is exactly "Admin" or "Normal"; the match is case-sensitive, so an accepted value starts with an upper-case letter followed by lower-case ones |
| CddcAccount.Create | alicloud/resource_alicloud_cddc_dedicated_host_account.go:52-91 | the request holds name, password, host, region and token, plus AccountType exactly when set; a failed call returns its error with no id; otherwise the id is `host:name`, the waiter has no pending states and the name as its only target, and the wait's verdict is returned with the id kept; Create fails iff the call or the wait fails |
| CddcAccount.IdRoundTrip | alicloud/resource_alicloud_cddc_dedicated_host_account.go:83-119 | a valid account name holds no `:`, so the id Create builds parses back into host and name when the host holds no `:` |
| CddcAccount.Update | alicloud/resource_alicloud_cddc_dedicated_host_account.go:109-142 | a malformed id fails before any call; AccountName and DedicatedHostId come from the id, and AccountPassword is sent iff it changed |
| CddcAccount.Delete | alicloud/resource_alicloud_cddc_dedicated_host_account.go:143-176 | a malformed id fails; the request carries host, name and region from the id; any call error is returned |
| CddcAccount.UpdateDeleteAddressCreatedAccount | alicloud/resource_alicloud_cddc_dedicated_host_account.go:83-154 | after a successful create with a valid name on a colon-free host, Update's request names that host and account, and Delete sends exactly host, account and region |
| MscWebhook.ServerUrlRegex | alicloud/resource_alicloud_msc_sub_webhook.go:28 | the server_url regex accepts exactly the URLs described position by position, its two unescaped dots matching any character but a newline |
| MscWebhook.LookAlikeUrlValid | alicloud/resource_alicloud_msc_sub_webhook.go:28 | a URL with any non-newline characters in place of the two dots is valid |
| MscWebhook.LookAlikeHostAccepted | alicloud/resource_alicloud_msc_sub_webhook.go:28 | such a look-alike host passes the regex |
| MscWebhook.WebhookNameRegex | alicloud/resource_alicloud_msc_sub_webhook.go:33 | the webhook_name regex accepts exactly 2 to 12 ASCII letters |
| MscWebhook.Create | alicloud/resource_alicloud_msc_sub_webhook.go:39-72 | Create fails unless the call succeeds and its Code prints as "200"; on success the id is the printed WebhookId |
| MscWebhook.Update | alicloud/resource_alicloud_msc_sub_webhook.go:90-128 | UpdateWebhook is called iff server_url or webhook_name changed; the request then carries both current values, WebhookId, Locale "en" and a token |
| MscWebhook.Delete | alicloud/resource_alicloud_msc_sub_webhook.go:130-160 | Delete succeeds iff the call succeeds, fails with ResourceNotFound, or is classified as not-found |
| MscSubscription.StatusCodeRange | alicloud/resource_alicloud_msc_sub_subscription.go:41 | a valid status code is one of -1, -2, 0 and 1 |
| MscSubscription.UpdateRequestKeys | alicloud/resource_alicloud_msc_sub_subscription.go:156-204 | the Update request holds ItemId, Locale, RegionId, ClientToken, every status field that exists, and each id list iff it changed and is non-empty |
| MscSubscription.UpdateRequestStatuses | alicloud/resource_alicloud_msc_sub_subscription.go:163-189 | every existing status field is in the request with its value, changed or not |
| MscSubscription.UpdateRequestFixed | alicloud/resource_alicloud_msc_sub_subscription.go:157-207 | ItemId = id, Locale "en", RegionId and the token are in the request; changed non-empty id lists are there as JSON text |
| MscSubscription.UpdateSpecHolds | alicloud/resource_alicloud_msc_sub_subscription.go:152-227 | the request is sent iff one of the seven update fields changed, with the contents above; an error exactly when it was sent and the call failed |
| MscSubscription.Update | alicloud/resource_alicloud_msc_sub_subscription.go:152-227 | UpdateSubscriptionItem is sent exactly when one of the seven update fields changed, and the request sent is UpdateRequest, whose contents the lemmas above state; the error is the call's, and only when it was sent |
| MscSubscription.ItemIdOf | alicloud/resource_alicloud_msc_sub_subscription.go:108 | the id is the printed ItemId of the response item |
| MscSubscription.Create | alicloud/resource_alicloud_msc_sub_subscription.go:77-111 | a failed call fails without an id; a missing or empty SubscriptionItem sets no id, sends no update and ends with `WrapErrorf` on a nil `err`: the unsupported-item error when `nilCauseIsNil` is false, no error when it is true; otherwise the id is the ItemId and the outcome is that of Update |
| HbrRestoreJob.RestoreTypeHasNoColon | alicloud/resource_alicloud_hbr_restore_job.go:50 | no accepted restore_type holds `:` |
| HbrRestoreJob.RestoreAndSourceTypes | alicloud/resource_alicloud_hbr_restore_job.go:50-66 | the restore_type and source_type enums agree except for UDM_ECS_ROLLBACK (restore only) and UDM_ECS (source only) |
| HbrRestoreJob.ValidCrossAccountType | alicloud/resource_alicloud_hbr_restore_job.go:142 | cross_account_type is accepted iff it is exactly "SELF_ACCOUNT" or "CROSS_ACCOUNT"; the match is case-sensitive, so an accepted value holds only upper-case letters and `_` |
| HbrRestoreJob.BuildOtsDetail | alicloud/resource_alicloud_hbr_restore_job.go:250-255 | OtsDetail holds only OverwriteExisting, from the last block; no block gives an empty map |
| HbrRestoreJob.CreateFieldsDistinct | alicloud/resource_alicloud_hbr_restore_job.go:181-263 | no two CreateRestoreJob entries share a key |
| HbrRestoreJob.Create | alicloud/resource_alicloud_hbr_restore_job.go:174-289 | RestoreType and SourceType are always sent, every other field iff it is set, OtsDetail as built; a failed call returns its error with no id; otherwise the id is `RestoreId:restore_type`, the waiter has pending {PARTIAL_COMPLETE, CREATED}, target {RUNNING, COMPLETE, FAILED} and no fail states, and the wait's verdict is returned with the id kept; Create fails iff the call or the wait fails |
| HbrRestoreJob.Read | alicloud/resource_alicloud_hbr_restore_job.go:291-309 | not-found clears the id; another error is returned; the id must split into exactly two parts, which become restore_job_id and restore_type |
| HbrRestoreJob.ReadRecoversCreatedId | alicloud/resource_alicloud_hbr_restore_job.go:281-309 | Read recovers the RestoreId and the restore_type that Create put into the id |

## Left out

- Remote calls, the retry wrapper (`resource.Retry`, `NeedRetry`, `incrementalWait`) and `addDebug` are inputs or are not modelled. Each call is one final outcome.
- Error wrapping (`WrapError`, `WrapErrorf`) is not modelled: the helpers are not part of this model, and an error is its kind and code. Three paths hand `WrapErrorf` a nil cause with a non-empty message: the deadlines of `WaitForCdnDomain` (alicloud/service_alicloud_cdn.go:131) and `WaitForServerCertificateNew` (alicloud/service_alicloud_cdn.go:168), and the empty-item path of the subscription Create (alicloud/resource_alicloud_msc_sub_subscription.go:106). What the helper returns there is an input, `nilCauseIsNil`: false means it still builds an error from the message, so these paths report a timeout or the unsupported item; true means it passes nil through, so they report no error.
- `NotFoundError` is not modelled. It is the `notFound` flag of a failed call. `IsExpectedErrors` is code membership.
- `ParseResourceId` is not in the source files. It is assumed to be `strings.Split` on `:` with an exact part count.
- Cdn.DescribeCdnDomainConfig: it requires at least two parts, because the Go code indexes `parts[1]` without a check and panics otherwise. Its DomainConfig attribute is modelled as missing or a list. The unchecked list assertion, which also panics, is not modelled.
- `DescribeCdnFcTrigger` and `convertCdnSourcesToString` are not part of this model: they only copy and serialise fields.
- JSON handling (`jsonpath.Get`, `convertListToJsonString`, `convertMaptoJsonString`) is not modelled. A response attribute is absent, not a list, or a list. A serialised value is the `Json`/`JsonList` request value.
- The memory filter and the `memory` output of the plans data source (floating point) are not modelled.
- `dataResourceIdHash`, `writeToFile` and the `d.Set` calls of the data sources are not modelled. The outputs are the lists.
- `buildClientToken` is not modelled: tokens are inputs.
- The date-to-Unix-time conversion of HBR Create is an input function. The reverse conversion in HBR Read is not modelled.
- Deadlines become poll budgets. The sleeps between polls are dropped, and so is the two-minute sleep after the CDDC Delete.
- `BuildStateConf` and `WaitForState` live in the provider's state-change helpers, which are not modelled. Create returns the waiter's state sets and takes the wait's verdict as an input (`wait`).
- GaAcls.ListAcls: requires that some response ends the listing (`Terminates`). The Go loop never ends when every response carries a non-empty NextToken, and the model does not describe that endless run.
- GaAcls.Acl: AclStatus is read with an unchecked string assertion, so the model takes it as present. The mismatch panic is not modelled.
- TrafficMirror.Read: `Enabled` is read with an unchecked bool assertion. The model takes it as a bool when present.
- `PageSizeLarge` is a parameter of GaAcls.BaseRequest.
- The field copying of the resources' Read functions is not modelled. Describe helpers of other services (`DescribeCddcDedicatedHostAccount`, `DescribeMscSubWebhook`, `DescribeHbrRestoreJob`, `DescribeGaAcl`) are inputs.
- The continuation of Create and Update into Read is not modelled, and the HBR Update is only that continuation. The continuation of the subscription Create into Update is modelled.
- alicloud/resource_alicloud_security_center_group.go and alicloud/resource_alicloud_ram_security_preference_test.go are not part of this model. The first only copies fields around remote calls; the second is an acceptance test against the live cloud.
- The user's `name_regex` is an abstract `compile` function; the regex engine is not modelled.
