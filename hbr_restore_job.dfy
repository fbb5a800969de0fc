/** The alicloud_hbr_restore_job resource: a restore job of the Hybrid Backup
    Recovery service, identified by "<RestoreId>:<restore_type>". Every field
    is ForceNew, so the job is only created, read and forgotten. */
module HbrRestoreJob {
  import opened Common
  import opened Strings
  import opened ResourceId
  import opened Patterns

  /** The restore_type enum (StringInSlice, case-sensitive). */
  const RestoreTypes: seq<string> := ["ECS_FILE", "NAS", "OSS", "OTS_TABLE", "UDM_ECS_ROLLBACK"]

  /** The source_type enum. */
  const SourceTypes: seq<string> := ["ECS_FILE", "NAS", "OSS", "OTS_TABLE", "UDM_ECS"]

  /** The cross_account_type enum. */
  const CrossAccountTypes: seq<string> := ["SELF_ACCOUNT", "CROSS_ACCOUNT"]

  predicate ValidRestoreType(t: string) { t in RestoreTypes }
  predicate ValidSourceType(t: string) { t in SourceTypes }
  /** cross_account_type is one of the two listed values, compared
      exactly: both are upper case with '_', so "self_account" is refused. */
  predicate ValidCrossAccountType(t: string): (ok: bool)
    ensures ok <==> t == "SELF_ACCOUNT" || t == "CROSS_ACCOUNT"
    ensures ok ==> forall i :: 0 <= i < |t| ==> IsUpper(t[i]) || t[i] == '_'
  {
    t in CrossAccountTypes
  }

  /** No accepted restore_type holds a ':', so it survives the id split. */
  lemma RestoreTypeHasNoColon(t: string)
    requires ValidRestoreType(t)
    ensures ':' !in t
  {
  }

  /** The two enums agree except on their last value: a rollback of a UDM
      ECS backup is a restore type only, a UDM ECS source a source type
      only. */
  lemma RestoreAndSourceTypes(t: string)
    ensures ValidRestoreType(t) && ValidSourceType(t) <==> t in {"ECS_FILE", "NAS", "OSS", "OTS_TABLE"}
    ensures ValidRestoreType(t) && !ValidSourceType(t) <==> t == "UDM_ECS_ROLLBACK"
    ensures ValidSourceType(t) && !ValidRestoreType(t) <==> t == "UDM_ECS"
  {
  }

  /** The user's configuration. Optional strings hold "" and the optional
      integer 0 when unset, which is what GetOk treats as "not set";
      otsDetail holds the overwrite_existing flag of each ots_detail block
      (the schema allows at most one). */
  datatype RestoreJobConfig = RestoreJobConfig(
    exclude: string, includes: string, options: string, restoreJobId: string,
    restoreType: string, snapshotHash: string, snapshotId: string, sourceType: string,
    targetBucket: string, targetClientId: string, targetCreateTime: string,
    targetDataSourceId: string, targetFileSystemId: string, targetInstanceId: string,
    targetPath: string, targetPrefix: string, vaultId: string, targetInstanceName: string,
    targetTableName: string, targetTime: string, udmDetail: string,
    crossAccountType: string, crossAccountUserId: int, crossAccountRoleName: string,
    otsDetail: seq<bool>)

  /** The loop over the ots_detail blocks: each block overwrites the
      OverwriteExisting entry, so the last block wins; no block, no entry. */
  method BuildOtsDetail(blocks: seq<bool>) returns (otsDetail: map<string, Value>)
    ensures |blocks| == 0 ==> otsDetail == map[]
    ensures |blocks| > 0 ==> otsDetail == map["OverwriteExisting" := Bool(blocks[|blocks| - 1])]
  {
    otsDetail := map[];
    for i := 0 to |blocks|
      invariant i == 0 ==> otsDetail == map[]
      invariant i > 0 ==> otsDetail == map["OverwriteExisting" := Bool(blocks[i - 1])]
    {
      otsDetail := otsDetail["OverwriteExisting" := Bool(blocks[i])];
    }
  }

  /** An optional string field: set unless it is "" (GetOk's rule). */
  function OptString(key: string, v: string): Field {
    Field(key, if v != "" then Some(Str(v)) else None)
  }

  /** The OtsDetail map, as BuildOtsDetail builds it. */
  function OtsDetailOf(blocks: seq<bool>): map<string, Value> {
    if |blocks| == 0 then map[] else map["OverwriteExisting" := Bool(blocks[|blocks| - 1])]
  }

  /** The entries of the CreateRestoreJob request in the order Create fills
      them in: RestoreType, SourceType and ClientToken always, every other
      field exactly when it is set. TargetCreateTime goes through the
      provider's date-to-Unix-time conversion, given here as toUnix. */
  function CreateFields(cfg: RestoreJobConfig, toUnix: string -> int, clientToken: string): seq<Field> {
    [OptString("Exclude", cfg.exclude), OptString("Include", cfg.includes),
     OptString("Options", cfg.options), OptString("RestoreId", cfg.restoreJobId),
     Field("RestoreType", Some(Str(cfg.restoreType))),
     OptString("SnapshotHash", cfg.snapshotHash), OptString("SnapshotId", cfg.snapshotId),
     Field("SourceType", Some(Str(cfg.sourceType))),
     OptString("TargetBucket", cfg.targetBucket), OptString("TargetClientId", cfg.targetClientId),
     Field("TargetCreateTime", if cfg.targetCreateTime != "" then Some(Int(toUnix(cfg.targetCreateTime))) else None),
     OptString("TargetDataSourceId", cfg.targetDataSourceId),
     OptString("TargetFileSystemId", cfg.targetFileSystemId),
     OptString("TargetInstanceId", cfg.targetInstanceId), OptString("TargetPath", cfg.targetPath),
     OptString("TargetPrefix", cfg.targetPrefix), OptString("VaultId", cfg.vaultId),
     OptString("TargetInstanceName", cfg.targetInstanceName),
     OptString("TargetTableName", cfg.targetTableName), OptString("TargetTime", cfg.targetTime),
     OptString("UdmDetail", cfg.udmDetail), OptString("CrossAccountType", cfg.crossAccountType),
     Field("CrossAccountUserId", if cfg.crossAccountUserId != 0 then Some(Int(cfg.crossAccountUserId)) else None),
     OptString("CrossAccountRoleName", cfg.crossAccountRoleName),
     Field("OtsDetail", if |cfg.otsDetail| > 0 then Some(Json(OtsDetailOf(cfg.otsDetail))) else None),
     Field("ClientToken", Some(Str(clientToken)))]
  }

  /** The request keys of CreateFields, in order. */
  const CreateKeyNames: seq<string> :=
    ["Exclude", "Include", "Options", "RestoreId", "RestoreType", "SnapshotHash", "SnapshotId",
     "SourceType", "TargetBucket", "TargetClientId", "TargetCreateTime", "TargetDataSourceId",
     "TargetFileSystemId", "TargetInstanceId", "TargetPath", "TargetPrefix", "VaultId",
     "TargetInstanceName", "TargetTableName", "TargetTime", "UdmDetail", "CrossAccountType",
     "CrossAccountUserId", "CrossAccountRoleName", "OtsDetail", "ClientToken"]

  /** Every request key is named once, so no entry overwrites another. */
  lemma CreateFieldsDistinct(cfg: RestoreJobConfig, toUnix: string -> int, clientToken: string)
    ensures DistinctKeys(CreateFields(cfg, toUnix, clientToken))
  {
    var fields := CreateFields(cfg, toUnix, clientToken);
    assert |fields| == |CreateKeyNames|;
    assert forall i :: 0 <= i < |fields| ==> fields[i].key == CreateKeyNames[i];
    CreateKeyNamesDistinct();
  }

  lemma CreateKeyNamesDistinct()
    ensures forall i, j :: 0 <= i < j < |CreateKeyNames| ==> CreateKeyNames[i] != CreateKeyNames[j]
  {
  }

  /** The three entries Create's contract names, at their places. */
  lemma CreateFieldsAt(cfg: RestoreJobConfig, toUnix: string -> int, clientToken: string)
    ensures |CreateFields(cfg, toUnix, clientToken)| == 26
    ensures CreateFields(cfg, toUnix, clientToken)[4] == Field("RestoreType", Some(Str(cfg.restoreType)))
    ensures CreateFields(cfg, toUnix, clientToken)[7] == Field("SourceType", Some(Str(cfg.sourceType)))
    ensures CreateFields(cfg, toUnix, clientToken)[24]
            == Field("OtsDetail", if |cfg.otsDetail| > 0 then Some(Json(OtsDetailOf(cfg.otsDetail))) else None)
  {
  }

  /** The waiter Create starts: PARTIAL_COMPLETE and CREATED keep it
      waiting; RUNNING, COMPLETE and FAILED all end it, and nothing is a
      failure state, so a FAILED job ends the wait like a finished one. */
  const RestoreWaiter: StateConf :=
    StateConf({"PARTIAL_COMPLETE", "CREATED"}, {"RUNNING", "COMPLETE", "FAILED"}, {})

  /** Create: builds the CreateRestoreJob request, and on success sets the
      id "<RestoreId of the response>:<restore_type>" (an absent RestoreId
      prints as "<nil>") and starts RestoreWaiter on it; `wait` is that
      waiter's verdict. A failed wait is returned with the id already set. */
  method Create(cfg: RestoreJobConfig, toUnix: string -> int, clientToken: string,
                call: Call<Option<string>>, wait: Option<Error>)
    returns (request: Request, out: CreateOutcome)
    ensures HoldsFields(request, CreateFields(cfg, toUnix, clientToken))
    ensures "RestoreType" in request && request["RestoreType"] == Str(cfg.restoreType)
    ensures "SourceType" in request && request["SourceType"] == Str(cfg.sourceType)
    ensures |cfg.otsDetail| > 0 ==>
              && "OtsDetail" in request
              && request["OtsDetail"] == Json(map["OverwriteExisting" := Bool(cfg.otsDetail[|cfg.otsDetail| - 1])])
    ensures out.err.None? <==> call.Ok? && wait.None?
    ensures call.Err? ==> out == CreateOutcome("", None, Some(RemoteError(call.code)))
    ensures call.Ok? ==> out == CreateOutcome(BuildId(PrintOpt(call.value), cfg.restoreType), Some(RestoreWaiter), wait)
  {
    var otsDetail := BuildOtsDetail(cfg.otsDetail);
    var fields := CreateFields(cfg, toUnix, clientToken);
    CreateFieldsAt(cfg, toUnix, clientToken);
    CreateFieldsDistinct(cfg, toUnix, clientToken);
    request := FillRequest(fields);
    HoldsFieldAt(request, fields, 4);
    HoldsFieldAt(request, fields, 7);
    if |cfg.otsDetail| > 0 {
      assert fields[24].value == Some(Json(otsDetail));
      HoldsFieldAt(request, fields, 24);
    }
    if call.Err? {
      return request, CreateOutcome("", None, Some(RemoteError(call.code)));
    }
    var id := BuildId(PrintOpt(call.value), cfg.restoreType);
    out := CreateOutcome(id, Some(RestoreWaiter), wait);
  }

  /** The part of the job's state Read derives from the id; the remaining
      attributes are copied from the describe response as they are. */
  datatype JobState<+T> = JobState(restoreJobId: string, restoreType: string, job: T)

  /** Read: a not-found describe clears the id and succeeds; another
      describe error is returned; then the id is split into exactly two
      parts (anything else is an error), part 0 becoming restore_job_id and
      part 1 restore_type. Update only re-reads, so it is this same Read. */
  function Read<T>(id: string, lookup: Lookup<T>): (r: ReadOutcome<JobState<T>>)
    ensures lookup.NotFound? ==> r == ReadOutcome("", None, None)
    ensures lookup.Failed? ==> r == ReadOutcome(id, None, Some(RemoteError(lookup.code)))
    ensures lookup.Found? && |Split(id, ':')| != 2 ==> r == ReadOutcome(id, None, Some(InvalidResourceId(id)))
    ensures lookup.Found? && |Split(id, ':')| == 2 ==>
              r == ReadOutcome(id, Some(JobState(Split(id, ':')[0], Split(id, ':')[1], lookup.value)), None)
  {
    match lookup
    case NotFound => ReadOutcome("", None, None)
    case Failed(code) => ReadOutcome(id, None, Some(RemoteError(code)))
    case Found(job) =>
      match ParseResourceId(id, 2)
      case Failure(e) => ReadOutcome(id, None, Some(e))
      case Success(parts) => ReadOutcome(id, Some(JobState(parts[0], parts[1], job)), None)
  }

  /** Read recovers what Create put into the id: the RestoreId of the
      response and the configured restore_type, whenever that RestoreId
      holds no ':'. */
  lemma ReadRecoversCreatedId<T>(restoreId: string, restoreType: string, job: T)
    requires ':' !in restoreId && ValidRestoreType(restoreType)
    ensures Read(BuildId(restoreId, restoreType), Found(job)).obj
            == Some(JobState(restoreId, restoreType, job))
  {
    RestoreTypeHasNoColon(restoreType);
    ParseBuildId(restoreId, restoreType);
  }
}
