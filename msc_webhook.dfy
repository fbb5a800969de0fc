/** The alicloud_msc_sub_webhook resource: a DingTalk robot webhook of the
    message-center subscription service, identified by its WebhookId. */
module MscWebhook {
  import opened Common
  import opened Patterns

  /** The server_url regex
      `^https://oapi.dingtalk.com/robot/send\?access_token=[a-zA-Z0-9]+$`,
      piece by piece. Its two dots are not escaped, so each matches any
      character but a newline; the escaped `\?` is a literal '?'. */
  const ServerUrlPattern: Pattern :=
    Literal("https://oapi") + ([Dot] + (Literal("dingtalk") + ([Dot] +
    (Literal("com/robot/send?access_token=") + [Piece(IsAlnum, 1, Unbounded)]))))

  /** The webhook_name regex `^[a-zA-Z]{2,12}$`. */
  const WebhookNamePattern: Pattern := [Piece(IsLetter, 2, AtMost(12))]

  /** A valid server URL, position by position: "https://oapi", any
      non-newline character, "dingtalk", any non-newline character,
      "com/robot/send?access_token=", then one or more ASCII letters or
      digits up to the end. */
  predicate ValidServerUrl(s: string) {
    && |s| > 50
    && s[..12] == "https://oapi" && s[12] != '\n'
    && s[13..21] == "dingtalk" && s[21] != '\n'
    && s[22..50] == "com/robot/send?access_token="
    && forall i :: 50 <= i < |s| ==> IsAlnum(s[i])
  }

  /** A valid webhook name: 2 to 12 ASCII letters. */
  predicate ValidWebhookName(s: string) {
    2 <= |s| <= 12 && forall i :: 0 <= i < |s| ==> IsLetter(s[i])
  }

  /** The server_url regex accepts exactly the URLs described above. */
  lemma ServerUrlRegex(s: string)
    ensures Matches(ServerUrlPattern, s) <==> ValidServerUrl(s)
  {
    var tok := Piece(IsAlnum, 1, Unbounded);
    var r4 := Literal("com/robot/send?access_token=") + [tok];
    var r3 := [Dot] + r4;
    var r2 := Literal("dingtalk") + r3;
    var r1 := [Dot] + r2;
    MatchesLiteral("https://oapi", r1, s);
    if |s| >= 12 {
      var s1 := s[12..];
      MatchesOnce(Dot.cls, r2, s1);
      if |s1| >= 1 {
        var s2 := s1[1..];
        assert s2 == s[13..];
        MatchesLiteral("dingtalk", r3, s2);
        if |s2| >= 8 {
          var s3 := s2[8..];
          assert s3 == s[21..] && s2[..8] == s[13..21];
          MatchesOnce(Dot.cls, r4, s3);
          if |s3| >= 1 {
            var s4 := s3[1..];
            assert s4 == s[22..];
            MatchesLiteral("com/robot/send?access_token=", [tok], s4);
            if |s4| >= 28 {
              var s5 := s4[28..];
              assert s5 == s[50..] && s4[..28] == s[22..50];
              MatchesLast(tok, s5);
              assert AllIn(s5, IsAlnum) <==> forall i :: 50 <= i < |s| ==> IsAlnum(s[i]) by {
                assert forall i :: 50 <= i < |s| ==> s5[i - 50] == s[i];
              }
            }
          }
        }
      }
    }
  }

  /** The webhook_name regex accepts exactly the valid names. */
  lemma WebhookNameRegex(s: string)
    ensures Matches(WebhookNamePattern, s) <==> ValidWebhookName(s)
  {
    MatchesLast(WebhookNamePattern[0], s);
  }

  /** The URL with c1 and c2 where the host's dots belong. */
  function LookAlikeUrl(c1: char, c2: char, token: string): string {
    "https://oapi" + ([c1] + ("dingtalk" + ([c2] + ("com/robot/send?access_token=" + token))))
  }

  /** Such a URL has the shape ValidServerUrl describes whatever c1 and c2
      are, newlines aside. */
  lemma LookAlikeUrlValid(c1: char, c2: char, token: string)
    requires c1 != '\n' && c2 != '\n'
    requires |token| >= 1 && forall i :: 0 <= i < |token| ==> IsAlnum(token[i])
    ensures ValidServerUrl(LookAlikeUrl(c1, c2, token))
  {
    var s := LookAlikeUrl(c1, c2, token);
    var r3 := "com/robot/send?access_token=" + token;
    var r2 := [c2] + r3;
    var r1 := "dingtalk" + r2;
    var r0 := [c1] + r1;
    assert s == "https://oapi" + r0;
    assert s[..12] == "https://oapi" && s[12..] == r0;
    assert r0[1..] == r1 && s[13..] == r1;
    assert r1[..8] == "dingtalk" && r1[8..] == r2;
    assert s[13..21] == r1[..8];
    assert s[21..] == r2 && r2[1..] == r3 && s[22..] == r3;
    assert s[22..50] == r3[..28] && r3[..28] == "com/robot/send?access_token=";
    assert s[50..] == r3[28..] == token;
    assert forall i :: 50 <= i < |s| ==> s[i] == s[50..][i - 50];
  }

  /** Because the dots are unescaped, any non-newline character may stand
      where the host's dots belong, so URLs on look-alike hosts such as
      "oapi-dingtalk-com" pass the server_url validation. */
  lemma LookAlikeHostAccepted(c1: char, c2: char, token: string)
    requires c1 != '\n' && c2 != '\n'
    requires |token| >= 1 && forall i :: 0 <= i < |token| ==> IsAlnum(token[i])
    ensures Matches(ServerUrlPattern, LookAlikeUrl(c1, c2, token))
  {
    LookAlikeUrlValid(c1, c2, token);
    ServerUrlRegex(LookAlikeUrl(c1, c2, token));
  }

  /** The user's configuration of the webhook. */
  datatype WebhookConfig = WebhookConfig(serverUrl: string, webhookName: string)

  /** The parts of the CreateWebhook response Create looks at: the response
      Code as fmt.Sprint prints it, and the WebhookId (absent or present). */
  datatype CreateResponse = CreateResponse(codeText: string, webhookId: Option<string>)

  /** Create: sends Locale "en", ServerUrl, WebhookName and a client token;
      fails unless the call succeeds and its Code prints as "200"; otherwise
      the id becomes the printed WebhookId. */
  method Create(cfg: WebhookConfig, clientToken: string, call: Call<CreateResponse>)
    returns (request: Request, r: Result<string>)
    ensures request == map["Locale" := Str("en"), "ServerUrl" := Str(cfg.serverUrl),
                           "WebhookName" := Str(cfg.webhookName), "ClientToken" := Str(clientToken)]
    ensures r.Success? <==> call.Ok? && call.value.codeText == "200"
    ensures call.Err? ==> r == Failure(RemoteError(call.code))
    ensures call.Ok? && call.value.codeText != "200" ==> r == Failure(UnexpectedResponse("CreateWebhook"))
    ensures r.Success? ==> r.value == PrintOpt(call.value.webhookId)
  {
    request := map[];
    request := request["Locale" := Str("en")];
    request := request["ServerUrl" := Str(cfg.serverUrl)];
    request := request["WebhookName" := Str(cfg.webhookName)];
    request := request["ClientToken" := Str(clientToken)];
    if call.Err? {
      return request, Failure(RemoteError(call.code));
    }
    if call.value.codeText != "200" {
      return request, Failure(UnexpectedResponse("CreateWebhook"));
    }
    r := Success(PrintOpt(call.value.webhookId));
  }

  /** Update: UpdateWebhook is called iff server_url or webhook_name changed;
      the request then carries WebhookId = id, both current values (changed
      or not), Locale "en" and a client token. With no change nothing is
      sent and nothing fails. */
  method Update(id: string, cfg: WebhookConfig, changed: set<string>, clientToken: string, call: Call<()>)
    returns (sent: Option<Request>, err: Option<Error>)
    ensures sent.Some? <==> ("server_url" in changed || "webhook_name" in changed)
    ensures sent.Some? ==> sent.value == map["WebhookId" := Str(id), "ServerUrl" := Str(cfg.serverUrl),
                                             "WebhookName" := Str(cfg.webhookName), "Locale" := Str("en"),
                                             "ClientToken" := Str(clientToken)]
    ensures err.Some? <==> sent.Some? && call.Err?
    ensures err.Some? ==> err == Some(RemoteError(call.code))
  {
    var update := false;
    var request: Request := map["WebhookId" := Str(id)];
    if "server_url" in changed {
      update := true;
    }
    request := request["ServerUrl" := Str(cfg.serverUrl)];
    if "webhook_name" in changed {
      update := true;
    }
    request := request["WebhookName" := Str(cfg.webhookName)];
    sent, err := None, None;
    if update {
      request := request["Locale" := Str("en")];
      request := request["ClientToken" := Str(clientToken)];
      sent := Some(request);
      if call.Err? {
        err := Some(RemoteError(call.code));
      }
    }
  }

  /** Delete: DeleteWebhook with WebhookId and Locale "en"; a failure whose
      code is ResourceNotFound, or that the not-found classifier accepts,
      counts as success: the webhook is already gone. */
  method Delete(id: string, call: Call<()>) returns (request: Request, err: Option<Error>)
    ensures request == map["WebhookId" := Str(id), "Locale" := Str("en")]
    ensures err.None? <==> call.Ok? || call.code == "ResourceNotFound" || call.notFound
    ensures err.Some? ==> err == Some(RemoteError(call.code))
  {
    request := map["WebhookId" := Str(id), "Locale" := Str("en")];
    err := None;
    if call.Err? {
      if call.code == "ResourceNotFound" || call.notFound {
        return;
      }
      err := Some(RemoteError(call.code));
    }
  }
}
