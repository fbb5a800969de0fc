/** The alicloud_msc_sub_subscription resource: the subscription settings of
    one message-center item (which channels notify, and whom), identified by
    the item's ItemId. The item always exists remotely, so Create only looks
    it up and Delete does nothing. */
module MscSubscription {
  import opened Common

  /** The five channel status fields all accept IntInSlice({-1, -2, 0, 1}). */
  const StatusCodes: seq<int> := [-1, -2, 0, 1]

  predicate ValidStatusCode(v: int) {
    v in StatusCodes
  }

  /** The accepted codes are exactly the integers from -2 to 1. */
  lemma StatusCodeRange(v: int)
    ensures ValidStatusCode(v) <==> -2 <= v <= 1
  {
    if -2 <= v <= 1 {
      assert v == StatusCodes[0] || v == StatusCodes[1] || v == StatusCodes[2] || v == StatusCodes[3];
    }
  }

  /** The user's configuration. A status field is None when it was never set
      (GetOkExists reports it absent); the id lists are empty when unset
      (GetOk treats an empty list as not set). */
  datatype SubscriptionConfig = SubscriptionConfig(
    itemName: string,
    emailStatus: Option<int>,
    pmsgStatus: Option<int>,
    smsStatus: Option<int>,
    ttsStatus: Option<int>,
    webhookStatus: Option<int>,
    contactIds: seq<string>,
    webhookIds: seq<string>)

  /** The schema keys whose change makes Update call the remote. */
  const UpdateKeys: set<string> :=
    {"email_status", "pmsg_status", "sms_status", "tts_status", "webhook_status", "contact_ids", "webhook_ids"}

  /** The request key of a status field, when the field exists. */
  function StatusKey(key: string, v: Option<int>): (ks: set<string>)
    ensures key in ks <==> v.Some?
    ensures ks <= {key}
  {
    if v.Some? then {key} else {}
  }

  /** A status field that exists is in the request with its value. */
  predicate CarriesStatus(req: Request, key: string, v: Option<int>) {
    v.Some? ==> key in req && req[key] == Int(v.value)
  }

  /** An id list is in the request, as JSON text, when it changed and is
      non-empty. */
  predicate CarriesIds(req: Request, key: string, field: string, changed: set<string>, ids: seq<string>) {
    field in changed && |ids| > 0 ==> key in req && req[key] == JsonList(ids)
  }

  /** What Update does: it calls UpdateSubscriptionItem iff one of the
      UpdateKeys changed; the request then holds ItemId = id, Locale "en",
      RegionId and a client token, every status field that exists (changed
      or not), and each id list only when it changed and is non-empty. */
  predicate UpdateSpec(id: string, cfg: SubscriptionConfig, changed: set<string>, regionId: string,
                       clientToken: string, call: Call<()>, sent: Option<Request>, err: Option<Error>)
  {
    && (sent.Some? <==> changed * UpdateKeys != {})
    && (sent.Some? ==>
          var req := sent.value;
          && req.Keys == {"ItemId", "Locale", "RegionId", "ClientToken"}
                         + StatusKey("EmailStatus", cfg.emailStatus) + StatusKey("PmsgStatus", cfg.pmsgStatus)
                         + StatusKey("SmsStatus", cfg.smsStatus) + StatusKey("TtsStatus", cfg.ttsStatus)
                         + StatusKey("WebhookStatus", cfg.webhookStatus)
                         + (if "contact_ids" in changed && |cfg.contactIds| > 0 then {"ContactIds"} else {})
                         + (if "webhook_ids" in changed && |cfg.webhookIds| > 0 then {"WebhookIds"} else {})
          && req["ItemId"] == Str(id) && req["Locale"] == Str("en")
          && req["RegionId"] == Str(regionId) && req["ClientToken"] == Str(clientToken)
          && CarriesStatus(req, "EmailStatus", cfg.emailStatus)
          && CarriesStatus(req, "PmsgStatus", cfg.pmsgStatus)
          && CarriesStatus(req, "SmsStatus", cfg.smsStatus)
          && CarriesStatus(req, "TtsStatus", cfg.ttsStatus)
          && CarriesStatus(req, "WebhookStatus", cfg.webhookStatus)
          && CarriesIds(req, "ContactIds", "contact_ids", changed, cfg.contactIds)
          && CarriesIds(req, "WebhookIds", "webhook_ids", changed, cfg.webhookIds))
    && (err.Some? <==> sent.Some? && call.Err?)
    && (err.Some? ==> err == Some(RemoteError(call.code)))
  }

  /** A status field is added to the request when it exists. */
  function WithStatus(req: Request, key: string, v: Option<int>): Request {
    if v.Some? then req[key := Int(v.value)] else req
  }

  /** An id list is added to the request when it changed and is non-empty. */
  function WithIds(req: Request, key: string, field: string, changed: set<string>, ids: seq<string>): Request {
    if field in changed && |ids| > 0 then req[key := JsonList(ids)] else req
  }

  /** The first part of the request Update sends: ItemId and the status
      fields that exist. */
  function StatusPart(id: string, cfg: SubscriptionConfig): Request {
    var r0 := map["ItemId" := Str(id)];
    var r1 := WithStatus(r0, "EmailStatus", cfg.emailStatus);
    var r2 := WithStatus(r1, "PmsgStatus", cfg.pmsgStatus);
    var r3 := WithStatus(r2, "SmsStatus", cfg.smsStatus);
    var r4 := WithStatus(r3, "TtsStatus", cfg.ttsStatus);
    WithStatus(r4, "WebhookStatus", cfg.webhookStatus)
  }

  /** The keys the rest of the request Update sends may add. */
  const TailKeys: set<string> := {"ContactIds", "Locale", "RegionId", "WebhookIds", "ClientToken"}

  /** The rest of the request, added to req in Update's order: the contact
      ids, Locale and RegionId, the webhook ids and the client token. */
  function TailPart(req: Request, cfg: SubscriptionConfig, changed: set<string>, regionId: string,
                    clientToken: string): Request
  {
    var r6 := WithIds(req, "ContactIds", "contact_ids", changed, cfg.contactIds);
    var r7 := r6["Locale" := Str("en")]["RegionId" := Str(regionId)];
    var r8 := WithIds(r7, "WebhookIds", "webhook_ids", changed, cfg.webhookIds);
    r8["ClientToken" := Str(clientToken)]
  }

  /** The request Update sends, in the order Update fills it in: the four
      fixed fields, the status fields that exist, and the id lists that
      changed and are non-empty. */
  function UpdateRequest(id: string, cfg: SubscriptionConfig, changed: set<string>, regionId: string,
                         clientToken: string): Request
  {
    TailPart(StatusPart(id, cfg), cfg, changed, regionId, clientToken)
  }

  /** The keys of the request Update sends. */
  lemma UpdateRequestKeys(id: string, cfg: SubscriptionConfig, changed: set<string>, regionId: string,
                          clientToken: string)
    ensures UpdateRequest(id, cfg, changed, regionId, clientToken).Keys
            == {"ItemId", "Locale", "RegionId", "ClientToken"}
               + StatusKey("EmailStatus", cfg.emailStatus) + StatusKey("PmsgStatus", cfg.pmsgStatus)
               + StatusKey("SmsStatus", cfg.smsStatus) + StatusKey("TtsStatus", cfg.ttsStatus)
               + StatusKey("WebhookStatus", cfg.webhookStatus)
               + (if "contact_ids" in changed && |cfg.contactIds| > 0 then {"ContactIds"} else {})
               + (if "webhook_ids" in changed && |cfg.webhookIds| > 0 then {"WebhookIds"} else {})
  {
    StatusPartKeys(id, cfg);
    TailPartKeys(StatusPart(id, cfg), cfg, changed, regionId, clientToken);
  }

  lemma WithStatusKeys(req: Request, key: string, v: Option<int>)
    ensures WithStatus(req, key, v).Keys == req.Keys + StatusKey(key, v)
  {
  }

  /** The keys of StatusPart: ItemId and the status fields that exist. */
  lemma StatusPartKeys(id: string, cfg: SubscriptionConfig)
    ensures StatusPart(id, cfg).Keys
            == {"ItemId"}
               + StatusKey("EmailStatus", cfg.emailStatus) + StatusKey("PmsgStatus", cfg.pmsgStatus)
               + StatusKey("SmsStatus", cfg.smsStatus) + StatusKey("TtsStatus", cfg.ttsStatus)
               + StatusKey("WebhookStatus", cfg.webhookStatus)
  {
    var r0 := map["ItemId" := Str(id)];
    var r1 := WithStatus(r0, "EmailStatus", cfg.emailStatus);
    WithStatusKeys(r0, "EmailStatus", cfg.emailStatus);
    var r2 := WithStatus(r1, "PmsgStatus", cfg.pmsgStatus);
    WithStatusKeys(r1, "PmsgStatus", cfg.pmsgStatus);
    var r3 := WithStatus(r2, "SmsStatus", cfg.smsStatus);
    WithStatusKeys(r2, "SmsStatus", cfg.smsStatus);
    var r4 := WithStatus(r3, "TtsStatus", cfg.ttsStatus);
    WithStatusKeys(r3, "TtsStatus", cfg.ttsStatus);
    WithStatusKeys(r4, "WebhookStatus", cfg.webhookStatus);
  }

  /** The keys TailPart adds. */
  lemma TailPartKeys(req: Request, cfg: SubscriptionConfig, changed: set<string>, regionId: string,
                     clientToken: string)
    ensures TailPart(req, cfg, changed, regionId, clientToken).Keys
            == req.Keys + {"Locale", "RegionId", "ClientToken"}
               + (if "contact_ids" in changed && |cfg.contactIds| > 0 then {"ContactIds"} else {})
               + (if "webhook_ids" in changed && |cfg.webhookIds| > 0 then {"WebhookIds"} else {})
  {
  }

  /** StatusPart holds ItemId and every status field that exists. */
  lemma StatusPartCarries(id: string, cfg: SubscriptionConfig)
    ensures var req := StatusPart(id, cfg);
            && "ItemId" in req && req["ItemId"] == Str(id)
            && CarriesStatus(req, "EmailStatus", cfg.emailStatus)
            && CarriesStatus(req, "PmsgStatus", cfg.pmsgStatus)
            && CarriesStatus(req, "SmsStatus", cfg.smsStatus)
            && CarriesStatus(req, "TtsStatus", cfg.ttsStatus)
            && CarriesStatus(req, "WebhookStatus", cfg.webhookStatus)
  {
  }

  /** TailPart leaves every key outside TailKeys as it was. */
  lemma TailPartKeeps(req: Request, cfg: SubscriptionConfig, changed: set<string>, regionId: string,
                      clientToken: string, key: string, v: Option<int>)
    requires key !in TailKeys && CarriesStatus(req, key, v)
    ensures CarriesStatus(TailPart(req, cfg, changed, regionId, clientToken), key, v)
  {
  }

  /** Every status field that exists is in the request Update sends. */
  lemma UpdateRequestStatuses(id: string, cfg: SubscriptionConfig, changed: set<string>, regionId: string,
                              clientToken: string)
    ensures var req := UpdateRequest(id, cfg, changed, regionId, clientToken);
            && CarriesStatus(req, "EmailStatus", cfg.emailStatus)
            && CarriesStatus(req, "PmsgStatus", cfg.pmsgStatus)
            && CarriesStatus(req, "SmsStatus", cfg.smsStatus)
            && CarriesStatus(req, "TtsStatus", cfg.ttsStatus)
            && CarriesStatus(req, "WebhookStatus", cfg.webhookStatus)
  {
    var req := StatusPart(id, cfg);
    StatusPartCarries(id, cfg);
    TailPartKeeps(req, cfg, changed, regionId, clientToken, "EmailStatus", cfg.emailStatus);
    TailPartKeeps(req, cfg, changed, regionId, clientToken, "PmsgStatus", cfg.pmsgStatus);
    TailPartKeeps(req, cfg, changed, regionId, clientToken, "SmsStatus", cfg.smsStatus);
    TailPartKeeps(req, cfg, changed, regionId, clientToken, "TtsStatus", cfg.ttsStatus);
    TailPartKeeps(req, cfg, changed, regionId, clientToken, "WebhookStatus", cfg.webhookStatus);
  }

  /** The fixed fields and the id lists of the request Update sends. */
  lemma UpdateRequestFixed(id: string, cfg: SubscriptionConfig, changed: set<string>, regionId: string,
                           clientToken: string)
    ensures var req := UpdateRequest(id, cfg, changed, regionId, clientToken);
            && "ItemId" in req && req["ItemId"] == Str(id)
            && "Locale" in req && req["Locale"] == Str("en")
            && "RegionId" in req && req["RegionId"] == Str(regionId)
            && "ClientToken" in req && req["ClientToken"] == Str(clientToken)
            && CarriesIds(req, "ContactIds", "contact_ids", changed, cfg.contactIds)
            && CarriesIds(req, "WebhookIds", "webhook_ids", changed, cfg.webhookIds)
  {
    StatusPartCarries(id, cfg);
  }

  /** UpdateSpec holds of the request UpdateRequest builds, sent exactly
      when a field of UpdateKeys changed. */
  lemma UpdateSpecHolds(id: string, cfg: SubscriptionConfig, changed: set<string>, regionId: string,
                        clientToken: string, call: Call<()>)
    ensures var sent := if changed * UpdateKeys != {} then Some(UpdateRequest(id, cfg, changed, regionId, clientToken)) else None;
            UpdateSpec(id, cfg, changed, regionId, clientToken, call, sent,
                       if sent.Some? && call.Err? then Some(RemoteError(call.code)) else None)
  {
    UpdateRequestKeys(id, cfg, changed, regionId, clientToken);
    UpdateRequestStatuses(id, cfg, changed, regionId, clientToken);
    UpdateRequestFixed(id, cfg, changed, regionId, clientToken);
  }

  /** Update: accumulates the `update` flag and the request field by field,
      then calls the remote only if some field changed. */
  method Update(id: string, cfg: SubscriptionConfig, changed: set<string>, regionId: string,
                clientToken: string, call: Call<()>)
    returns (sent: Option<Request>, err: Option<Error>)
    ensures sent == if changed * UpdateKeys != {} then Some(UpdateRequest(id, cfg, changed, regionId, clientToken)) else None
    ensures err == if sent.Some? && call.Err? then Some(RemoteError(call.code)) else None
  {
    var update := false;
    var request: Request := map["ItemId" := Str(id)];
    update := update || "email_status" in changed;
    request := WithStatus(request, "EmailStatus", cfg.emailStatus);
    update := update || "pmsg_status" in changed;
    request := WithStatus(request, "PmsgStatus", cfg.pmsgStatus);
    update := update || "sms_status" in changed;
    request := WithStatus(request, "SmsStatus", cfg.smsStatus);
    update := update || "tts_status" in changed;
    request := WithStatus(request, "TtsStatus", cfg.ttsStatus);
    update := update || "webhook_status" in changed;
    request := WithStatus(request, "WebhookStatus", cfg.webhookStatus);
    ghost var statuses := request;
    assert statuses == StatusPart(id, cfg);
    update := update || "contact_ids" in changed;
    request := WithIds(request, "ContactIds", "contact_ids", changed, cfg.contactIds);
    request := request["Locale" := Str("en")];
    request := request["RegionId" := Str(regionId)];
    update := update || "webhook_ids" in changed;
    request := WithIds(request, "WebhookIds", "webhook_ids", changed, cfg.webhookIds);
    assert update <==> changed * UpdateKeys != {} by {
      assert update <==> exists k :: k in UpdateKeys && k in changed;
      if update {
        var k :| k in UpdateKeys && k in changed;
        assert k in changed * UpdateKeys;
      }
    }
    sent, err := None, None;
    if update {
      request := request["ClientToken" := Str(clientToken)];
      assert request == TailPart(statuses, cfg, changed, regionId, clientToken);
      assert request == UpdateRequest(id, cfg, changed, regionId, clientToken);
      sent := Some(request);
      if call.Err? {
        err := Some(RemoteError(call.code));
      }
    }
  }

  /** The ItemId of a CreateSubscriptionItem response's SubscriptionItem
      object (values as fmt.Sprint prints them), printed as the id. */
  function ItemIdOf(item: map<string, string>): (id: string)
    ensures "ItemId" in item ==> id == item["ItemId"]
    ensures "ItemId" !in item ==> id == "<nil>"
  {
    PrintOpt(if "ItemId" in item then Some(item["ItemId"]) else None)
  }

  /** Create: looks the item up by name with CreateSubscriptionItem. A
      failed call fails without an id; a response whose SubscriptionItem is
      missing, not an object, or empty (the item does not support
      subscription) sets no id either. Otherwise the id becomes the printed ItemId and Create
      continues into Update, whose outcome it returns. `changed` is what
      the schema reports as changed on the new resource.
      On the empty-item path the Go code wraps the call's error variable,
      nil after the success check, with a non-empty message. What the
      provider's WrapErrorf makes of a nil cause is not part of this model:
      `nilCauseIsNil` is its verdict. When it is false the unsupported item
      is reported; when it is true Create ends with neither an id nor an
      error. */
  method Create(cfg: SubscriptionConfig, changed: set<string>, regionId: string, clientToken: string,
                createCall: Call<Option<map<string, string>>>, updateCall: Call<()>, nilCauseIsNil: bool)
    returns (request: Request, id: string, sent: Option<Request>, err: Option<Error>)
    ensures request == map["ItemName" := Str(cfg.itemName), "Locale" := Str("en")]
    ensures createCall.Err? ==> id == "" && sent.None? && err == Some(RemoteError(createCall.code))
    ensures createCall.Ok? && (createCall.value.None? || |createCall.value.value| == 0) ==>
              && id == "" && sent.None?
              && err == if nilCauseIsNil then None else Some(UnexpectedResponse("CreateSubscriptionItem"))
    ensures createCall.Ok? && createCall.value.Some? && |createCall.value.value| > 0 ==>
              && id == ItemIdOf(createCall.value.value)
              && UpdateSpec(id, cfg, changed, regionId, clientToken, updateCall, sent, err)
  {
    request := map["ItemName" := Str(cfg.itemName), "Locale" := Str("en")];
    id := "";
    if createCall.Err? {
      return request, id, None, Some(RemoteError(createCall.code));
    }
    var item: map<string, string> := map[];
    if createCall.value.Some? {
      item := createCall.value.value;
    }
    if |item| == 0 {
      return request, id, None, if nilCauseIsNil then None else Some(UnexpectedResponse("CreateSubscriptionItem"));
    }
    id := ItemIdOf(item);
    sent, err := Update(id, cfg, changed, regionId, clientToken, updateCall);
    UpdateSpecHolds(id, cfg, changed, regionId, clientToken, updateCall);
  }
}
