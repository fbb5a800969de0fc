/** The alicloud_cddc_dedicated_host_account resource: an account on a
    dedicated host of the ApsaraDB dedicated-cluster service, identified by
    "<dedicated_host_id>:<account_name>". */
module CddcAccount {
  import opened Common
  import opened Strings
  import opened Patterns
  import opened ResourceId

  /** The account_name regex `^[a-z][a-z0-9_]{0,14}[a-z0-9]$`, piece by piece. */
  const AccountNamePattern: Pattern := [
    Piece(IsLower, 1, AtMost(1)),
    Piece(c => IsLower(c) || IsDigit(c) || c == '_', 0, AtMost(14)),
    Piece(c => IsLower(c) || IsDigit(c), 1, AtMost(1))
  ]

  /** The account_password regex `^[\w!@#$%^&*()_+=]{6,32}$`. */
  const AccountPasswordPattern: Pattern := [Piece(IsPasswordChar, 6, AtMost(32))]

  predicate IsPasswordChar(c: char) {
    IsWord(c) || c in "!@#$%^&*()_+="
  }

  /** A valid account name: 2 to 16 characters, a lower-case letter first,
      a lower-case letter or digit last, and lower-case letters, digits or
      '_' in between. */
  predicate ValidAccountName(s: string) {
    2 <= |s| <= 16
    && IsLower(s[0])
    && (IsLower(s[|s| - 1]) || IsDigit(s[|s| - 1]))
    && forall i :: 1 <= i < |s| - 1 ==> IsLower(s[i]) || IsDigit(s[i]) || s[i] == '_'
  }

  /** A valid password: 6 to 32 word characters or any of !@#$%^&*()_+= . */
  predicate ValidAccountPassword(s: string) {
    6 <= |s| <= 32 && forall i :: 0 <= i < |s| ==> IsPasswordChar(s[i])
  }

  /** account_type is one of the two listed values, compared exactly: both
      are capitalised, so "admin" or "NORMAL" is refused. */
  predicate ValidAccountType(t: string): (ok: bool)
    ensures ok <==> t in {"Admin", "Normal"}
    ensures ok ==> |t| > 0 && IsUpper(t[0]) && forall i :: 1 <= i < |t| ==> IsLower(t[i])
  {
    t == "Admin" || t == "Normal"
  }

  /** What the account_name regex asks of everything after the first
      character: at most 14 characters of the middle class, then one
      lower-case letter or digit. */
  lemma AccountNameTail(t: string)
    ensures Matches(AccountNamePattern[1..], t)
            <==> 1 <= |t| <= 15 && AllIn(t[..|t| - 1], AccountNamePattern[1].cls)
                 && (IsLower(t[|t| - 1]) || IsDigit(t[|t| - 1]))
  {
    var rest := AccountNamePattern[1..];
    assert rest == [rest[0], Piece(c => IsLower(c) || IsDigit(c), 1, AtMost(1))];
    MatchesThenOnce(rest[0], c => IsLower(c) || IsDigit(c), t);
  }

  /** The account_name regex accepts exactly the valid account names. */
  lemma AccountNameRegex(s: string)
    ensures Matches(AccountNamePattern, s) <==> ValidAccountName(s)
  {
    var rest := AccountNamePattern[1..];
    assert AccountNamePattern == [Piece(IsLower, 1, AtMost(1))] + rest;
    MatchesOnce(IsLower, rest, s);
    if |s| >= 1 {
      var t := s[1..];
      AccountNameTail(t);
      if |s| >= 2 {
        assert forall i :: 1 <= i < |s| - 1 ==> t[..|t| - 1][i - 1] == s[i];
        assert t[|t| - 1] == s[|s| - 1];
      }
    }
  }

  /** The account_password regex accepts exactly the valid passwords. */
  lemma AccountPasswordRegex(s: string)
    ensures Matches(AccountPasswordPattern, s) <==> ValidAccountPassword(s)
  {
    MatchesLast(AccountPasswordPattern[0], s);
  }

  /** The user's configuration of the resource. Optional strings hold "" when
      unset, which is also what the schema's GetOk treats as "not set". */
  datatype AccountConfig = AccountConfig(
    accountName: string,
    accountPassword: string,
    accountType: string,
    dedicatedHostId: string)

  /** The waiter Create starts: no pending states, and the account's
      state must become its own name. */
  function AccountWaiter(accountName: string): StateConf {
    StateConf({}, {accountName}, {})
  }

  /** Create: builds the CreateDedicatedHostAccount request, and on success
      sets the id "<host>:<name>" and waits with AccountWaiter; `wait` is
      that waiter's verdict. A failed wait is returned with the id already
      set. */
  method Create(cfg: AccountConfig, regionId: string, clientToken: string, call: Call<()>, wait: Option<Error>)
    returns (request: Request, out: CreateOutcome)
    ensures request.Keys == {"AccountName", "AccountPassword", "DedicatedHostId", "RegionId", "ClientToken"}
                            + (if cfg.accountType != "" then {"AccountType"} else {})
    ensures request["AccountName"] == Str(cfg.accountName)
    ensures request["AccountPassword"] == Str(cfg.accountPassword)
    ensures request["DedicatedHostId"] == Str(cfg.dedicatedHostId)
    ensures request["RegionId"] == Str(regionId) && request["ClientToken"] == Str(clientToken)
    ensures cfg.accountType != "" ==> request["AccountType"] == Str(cfg.accountType)
    ensures out.err.None? <==> call.Ok? && wait.None?
    ensures call.Err? ==> out == CreateOutcome("", None, Some(RemoteError(call.code)))
    ensures call.Ok? ==> out == CreateOutcome(BuildId(cfg.dedicatedHostId, cfg.accountName),
                                              Some(AccountWaiter(cfg.accountName)), wait)
  {
    request := map[];
    request := request["AccountName" := Str(cfg.accountName)];
    request := request["AccountPassword" := Str(cfg.accountPassword)];
    if cfg.accountType != "" {
      request := request["AccountType" := Str(cfg.accountType)];
    }
    request := request["DedicatedHostId" := Str(cfg.dedicatedHostId)];
    request := request["RegionId" := Str(regionId)];
    request := request["ClientToken" := Str(clientToken)];
    if call.Err? {
      return request, CreateOutcome("", None, Some(RemoteError(call.code)));
    }
    var id := BuildId(cfg.dedicatedHostId, cfg.accountName);
    out := CreateOutcome(id, Some(AccountWaiter(cfg.accountName)), wait);
  }

  /** A valid account name never holds ':', so the id Create builds is parsed
      back into host and name whenever the host id holds no ':'. */
  lemma IdRoundTrip(host: string, name: string)
    requires ValidAccountName(name) && ':' !in host
    ensures ParseResourceId(BuildId(host, name), 2) == Success([host, name])
  {
    assert ':' !in name by {
      forall i | 0 <= i < |name| ensures name[i] != ':' {
        if 0 < i < |name| - 1 {
          assert IsLower(name[i]) || IsDigit(name[i]) || name[i] == '_';
        }
      }
    }
    ParseBuildId(host, name);
  }

  /** Update: the id is parsed into host (part 0) and name (part 1), which
      always go into the ModifyDedicatedHostAccount request; the password goes
      in only when it changed. A malformed id fails before any remote call. */
  method Update(id: string, cfg: AccountConfig, changed: set<string>, regionId: string, call: Call<()>)
    returns (request: Option<Request>, err: Option<Error>)
    ensures |Split(id, ':')| != 2 <==> request.None?
    ensures request.None? ==> err == Some(InvalidResourceId(id))
    ensures request.Some? ==>
              var parts := Split(id, ':');
              && request.value.Keys == {"AccountName", "DedicatedHostId", "RegionId"}
                                       + (if "account_password" in changed then {"AccountPassword"} else {})
              && request.value["AccountName"] == Str(parts[1])
              && request.value["DedicatedHostId"] == Str(parts[0])
              && request.value["RegionId"] == Str(regionId)
              && ("account_password" in changed ==> request.value["AccountPassword"] == Str(cfg.accountPassword))
              && (err.Some? <==> call.Err?)
              && (call.Err? ==> err == Some(RemoteError(call.code)))
  {
    var parsed := ParseResourceId(id, 2);
    if parsed.Failure? {
      return None, Some(parsed.error);
    }
    var parts := parsed.value;
    var req: Request := map["AccountName" := Str(parts[1]), "DedicatedHostId" := Str(parts[0])];
    if "account_password" in changed {
      req := req["AccountPassword" := Str(cfg.accountPassword)];
    }
    req := req["RegionId" := Str(regionId)];
    request := Some(req);
    err := if call.Err? then Some(RemoteError(call.code)) else None;
  }

  /** Delete: the id is parsed as in Update and DeleteDedicatedHostAccount
      is called with host and name; any error of the call is returned,
      including a not-found one. */
  method Delete(id: string, regionId: string, call: Call<()>)
    returns (request: Option<Request>, err: Option<Error>)
    ensures |Split(id, ':')| != 2 <==> request.None?
    ensures request.None? ==> err == Some(InvalidResourceId(id))
    ensures request.Some? ==>
              var parts := Split(id, ':');
              && request.value == map["AccountName" := Str(parts[1]), "DedicatedHostId" := Str(parts[0]),
                                      "RegionId" := Str(regionId)]
              && (err.Some? <==> call.Err?)
              && (call.Err? ==> err == Some(RemoteError(call.code)))
  {
    var parsed := ParseResourceId(id, 2);
    if parsed.Failure? {
      return None, Some(parsed.error);
    }
    var parts := parsed.value;
    var req: Request := map["AccountName" := Str(parts[1]), "DedicatedHostId" := Str(parts[0])];
    req := req["RegionId" := Str(regionId)];
    request := Some(req);
    err := if call.Err? then Some(RemoteError(call.code)) else None;
  }

  /** Update and Delete address the very account Create made: once the
      create call succeeded for a valid name on a colon-free host id, the
      requests Update and Delete build from the new id name that host and
      that account, whatever the wait reported. */
  method UpdateDeleteAddressCreatedAccount(cfg: AccountConfig, changed: set<string>, regionId: string,
                                           clientToken: string, createCall: Call<()>, wait: Option<Error>,
                                           updateCall: Call<()>, deleteCall: Call<()>)
    returns (update: Option<Request>, delete: Option<Request>)
    requires ValidAccountName(cfg.accountName) && ':' !in cfg.dedicatedHostId && createCall.Ok?
    ensures update.Some? && "DedicatedHostId" in update.value && "AccountName" in update.value
    ensures update.value["DedicatedHostId"] == Str(cfg.dedicatedHostId)
    ensures update.value["AccountName"] == Str(cfg.accountName)
    ensures delete == Some(map["AccountName" := Str(cfg.accountName), "DedicatedHostId" := Str(cfg.dedicatedHostId),
                               "RegionId" := Str(regionId)])
  {
    var createRequest, created := Create(cfg, regionId, clientToken, createCall, wait);
    IdRoundTrip(cfg.dedicatedHostId, cfg.accountName);
    var updateErr, deleteErr;
    update, updateErr := Update(created.id, cfg, changed, regionId, updateCall);
    delete, deleteErr := Delete(created.id, regionId, deleteCall);
  }
}
