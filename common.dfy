/** Shared vocabulary of the provider model: optional values, the outcome of
    a remote call, the outcome of a describe operation, the provider's error
    kinds, and the loosely typed values that go into an RPC request map. */
module Common {

  datatype Option<+T> = None | Some(value: T)

  /** The outcome of one remote RPC call, after the retrying invoker has
      given up or succeeded. `code` is the error code that the provider's
      expected-error checks (IsExpectedErrors) compare with a list;
      `notFound` is the verdict of its not-found classifier (NotFoundError)
      on the same error. */
  datatype Call<+T> = Ok(value: T) | Err(code: string, notFound: bool)

  /** The outcome of a Describe* operation: the object, a not-found error,
      or any other error (with its code). */
  datatype Lookup<+T> = Found(value: T) | NotFound | Failed(code: string)

  /** The errors an operation hands back to the framework. */
  datatype Error =
    | RemoteError(code: string)                 // a remote call failed
    | NotFoundError                             // the object does not exist
    | MissingAttribute(path: string)            // a JSON path was absent from a response
    | InvalidRegex(pattern: string)             // a user regular expression did not compile
    | InvalidResourceId(id: string)             // a composite id had the wrong number of parts
    | FailedToReachTargetStatus(status: string) // a refresh observed a failure state
    | WaitTimeout(current: string, target: string)
    | UnexpectedResponse(action: string)        // a response did not report success

  /** The result of an operation that either produces a value or fails. */
  datatype Result<+T> = Success(value: T) | Failure(error: Error)

  /** A value placed in an RPC request map. The two JSON forms stand for the
      text the provider serialises a map or a list into (the serialisation
      itself is not modelled). */
  datatype Value =
    | Str(s: string)
    | Int(i: int)
    | Bool(b: bool)
    | Json(fields: map<string, Value>)  // the JSON text of an object
    | JsonList(items: seq<string>)      // the JSON text of a list of strings

  type Request = map<string, Value>

  /** How Go's fmt.Sprint prints an optional string field of a decoded JSON
      response: the string itself, or "<nil>" when the key is absent. */
  function PrintOpt(v: Option<string>): (r: string)
    ensures v.Some? ==> r == v.value
    ensures v.None? ==> r == "<nil>"
  {
    match v
    case Some(s) => s
    case None => "<nil>"
  }

  /** The response attribute at a JSON path that should hold a list:
      absent (jsonpath reports an error), present but not a list (the
      provider's unchecked type assertion yields an empty list), or a list. */
  datatype JsonList<+T> = Missing | NotList | Items(elems: seq<T>)

  function ListOf<T>(j: JsonList<T>): (r: seq<T>)
    ensures j.Items? ==> r == j.elems
    ensures !j.Items? ==> r == []
  {
    if j.Items? then j.elems else []
  }

  /** The state-change configuration a Create hands to the framework's
      waiter: the statuses that mean "still working", the statuses that end
      the wait successfully, and the statuses its refresh function treats
      as failures. */
  datatype StateConf = StateConf(pending: set<string>, target: set<string>, failStates: set<string>)

  /** What a Create that waits leaves behind: the id it set ("" when the
      create call failed), the waiter it started on that id, and the error
      it returns. The waiter's own verdict is an input to Create, so a wait
      that fails leaves the id set and returns the wait's error. */
  datatype CreateOutcome = CreateOutcome(id: string, waiter: Option<StateConf>, err: Option<Error>)

  /** What a resource's Read leaves behind: the resource id (cleared when
      the object is gone), the object copied into state, and the error. */
  datatype ReadOutcome<+T> = ReadOutcome(id: string, obj: Option<T>, err: Option<Error>)

  /** The Read shape every resource here shares: a not-found describe clears
      the id and returns no error, so the framework drops the resource from
      state; any other describe error is returned with the id kept; a found
      object is read into state. */
  function ReadResource<T>(id: string, lookup: Lookup<T>): (r: ReadOutcome<T>)
    ensures lookup.NotFound? <==> r.err.None? && r.obj.None?
    ensures lookup.NotFound? ==> r.id == ""
    ensures lookup.Failed? ==> r.id == id && r.err == Some(RemoteError(lookup.code)) && r.obj.None?
    ensures lookup.Found? ==> r.id == id && r.err.None? && r.obj == Some(lookup.value)
  {
    match lookup
    case NotFound => ReadOutcome("", None, None)
    case Failed(code) => ReadOutcome(id, None, Some(RemoteError(code)))
    case Found(obj) => ReadOutcome(id, Some(obj), None)
  }

  /** One optional entry of a request being built: its key and, when the
      user set the field, its value. */
  datatype Field = Field(key: string, value: Option<Value>)

  predicate DistinctKeys(fields: seq<Field>) {
    forall i, j :: 0 <= i < j < |fields| ==> fields[i].key != fields[j].key
  }

  /** The keys of the entries that are set. */
  function PresentKeys(fields: seq<Field>): set<string> {
    set i | 0 <= i < |fields| && fields[i].value.Some? :: fields[i].key
  }

  /** req holds exactly the entries of fields that are set, with their values. */
  predicate HoldsFields(req: Request, fields: seq<Field>) {
    && req.Keys == PresentKeys(fields)
    && forall i :: 0 <= i < |fields| && fields[i].value.Some? ==> req[fields[i].key] == fields[i].value.value
  }

  /** One set entry of fields, looked up in a request that holds them. */
  lemma HoldsFieldAt(req: Request, fields: seq<Field>, i: int)
    requires HoldsFields(req, fields)
    requires 0 <= i < |fields| && fields[i].value.Some?
    ensures fields[i].key in req && req[fields[i].key] == fields[i].value.value
  {
    assert fields[i].key in PresentKeys(fields);
  }

  /** One entry more: a set entry is added under its key, an unset one
      leaves the request as it is. */
  function AddField(req: Request, f: Field): Request {
    if f.value.Some? then req[f.key := f.value.value] else req
  }

  lemma PresentKeysStep(fields: seq<Field>, i: int)
    requires 0 <= i < |fields|
    ensures PresentKeys(fields[..i + 1])
            == PresentKeys(fields[..i]) + (if fields[i].value.Some? then {fields[i].key} else {})
  {
    assert forall j :: 0 <= j < i ==> fields[..i + 1][j] == fields[..i][j];
  }

  lemma AddFieldStep(req: Request, fields: seq<Field>, i: int)
    requires DistinctKeys(fields) && 0 <= i < |fields|
    requires HoldsFields(req, fields[..i])
    ensures HoldsFields(AddField(req, fields[i]), fields[..i + 1])
  {
    PresentKeysStep(fields, i);
    var prefix := fields[..i + 1];
    var next := AddField(req, fields[i]);
    forall j | 0 <= j < i + 1 && prefix[j].value.Some?
      ensures next[prefix[j].key] == prefix[j].value.value
    {
      if j < i {
        assert prefix[j] == fields[..i][j] == fields[j];
      }
    }
  }

  /** The "optional-if-present" rule applied entry after entry: an entry
      goes into the request exactly when it is set. */
  method FillRequest(fields: seq<Field>) returns (req: Request)
    requires DistinctKeys(fields)
    ensures HoldsFields(req, fields)
  {
    req := map[];
    for i := 0 to |fields|
      invariant HoldsFields(req, fields[..i])
    {
      AddFieldStep(req, fields, i);
      if fields[i].value.Some? {
        req := req[fields[i].key := fields[i].value.value];
      }
    }
    assert fields[..|fields|] == fields;
  }

  /** The Delete of a resource that cannot be destroyed remotely: no call is
      made, the framework only forgets the resource, and nothing fails. */
  function DeleteFromStateOnly(id: string): (err: Option<Error>)
    ensures err.None?
  {
    None
  }
}
