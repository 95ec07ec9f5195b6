/**
 * `ReadFile`: reads a file, or a byte range of it, into the response.
 */
module ReadFile {

  import opened Common
  import opened Errors
  import opened Synapse
  import opened Mediator

  /** The values `execute` reads before its `try` block. */
  datatype ReadInputs = ReadInputs(
    connectionName: string,
    fileSystemName: string,
    filePath: string,
    timeout: Option<int>,
    count: Option<int>,
    offset: Option<int>,
    maxRetryRequests: Option<int>,
    leaseId: Option<string>,
    ifUnmodifiedSince: Option<string>,
    ifMatch: Option<string>,
    ifNoneMatch: Option<string>,
    ifModifiedSince: Option<string>)

  /** `readWithResponse` and its arguments. `retryMaxRequests` is `None` when no retry options are passed. */
  datatype ReadRequest = ReadRequest(
    fileSystemName: string,
    path: string,
    range: Option<FileRange>,
    retryMaxRequests: Option<int>,
    conditions: RequestConditions,
    timeoutSeconds: Option<int>)

  /**
   * What the read returns: its status, the bytes written to the output
   * stream as the text `toString` decodes them to, and the Content-Length
   * header (null when the response has none).
   */
  datatype ReadResponse = ReadResponse(status: int, content: string, contentLength: Option<string>)

  /** The calls the operation makes outside the connector. */
  datatype ReadSdk = ReadSdk(
    fileSystemClient: (string, string) -> Option<Thrown>,   // getDataLakeFileSystemClient; None is the client
    isDateTime: string -> bool,
    read: ReadRequest -> Reply<ReadResponse>)

  /** The parameter reads, in the order `execute` makes them; the first failure is reported. */
  function Read(parameters: map<string, string>, properties: map<string, string>): (r: Result<ReadInputs, string>)
    ensures r.Success? <==>
              && "name" in properties && properties["name"] != ""
              && Provided(parameters, "fileSystemName") && Provided(parameters, "filePath")
              && IntAccepted(parameters, "timeout") && IntAccepted(parameters, "count")
              && IntAccepted(parameters, "offset") && IntAccepted(parameters, "maxRetryRequests")
    ensures r.Success? ==>
              && r.value.fileSystemName == parameters["fileSystemName"]
              && r.value.filePath == parameters["filePath"]
              && r.value.offset == OptionalInt(parameters, "offset").value
              && r.value.count == OptionalInt(parameters, "count").value
              && r.value.maxRetryRequests == OptionalInt(parameters, "maxRetryRequests").value
              && r.value.ifNoneMatch == OptionalString(parameters, "ifNoneMatch")
              && r.value.ifModifiedSince == OptionalString(parameters, "ifModifiedSince")
  {
    var connectionName :- ConnectionNameProperty(properties);
    var fileSystemName :- RequiredString(parameters, "fileSystemName");
    var filePath :- RequiredString(parameters, "filePath");
    var timeout :- OptionalInt(parameters, "timeout");
    var count :- OptionalInt(parameters, "count");
    var offset :- OptionalInt(parameters, "offset");
    var maxRetryRequests :- OptionalInt(parameters, "maxRetryRequests");
    var leaseId := OptionalString(parameters, "leaseId");
    var ifUnmodifiedSince := OptionalString(parameters, "ifUnmodifiedSince");
    var ifMatch := OptionalString(parameters, "ifMatch");
    var ifNoneMatch := OptionalString(parameters, "ifNoneMatch");
    var ifModifiedSince := OptionalString(parameters, "ifModifiedSince");
    Success(ReadInputs(connectionName, fileSystemName, filePath, timeout, count, offset, maxRetryRequests,
                       leaseId, ifUnmodifiedSince, ifMatch, ifNoneMatch, ifModifiedSince))
  }

  /**
   * `{STATUS: true, CONTENT: content, LENGTH: length}` built by three `put`s;
   * putting a null length removes the key instead.
   */
  function ContentPayload(u: Undeclared, content: string, contentLength: Option<string>): (j: Json)
    ensures j.JObject?
    ensures contentLength.Some? ==> u.lengthKey in j.fields && j.fields[u.lengthKey] == JString(contentLength.value)
    ensures contentLength.None? ==> u.lengthKey !in j.fields
    ensures u.contentKey != u.lengthKey ==> u.contentKey in j.fields && j.fields[u.contentKey] == JString(content)
    ensures u.statusKey != u.contentKey && u.statusKey != u.lengthKey ==>
              u.statusKey in j.fields && j.fields[u.statusKey] == JBool(true)
    ensures j.fields.Keys <= {u.statusKey, u.contentKey, u.lengthKey}
  {
    var fields := map[u.statusKey := JBool(true)][u.contentKey := JString(content)];
    if contentLength.Some? then JObject(fields[u.lengthKey := JString(contentLength.value)])
    else JObject(fields - {u.lengthKey})
  }

  /** The request conditions, built with the source's argument order: the two "none match" and "modified since" slots are crossed. */
  function Conditions(inputs: ReadInputs, isDateTime: string -> bool): (r: Result<RequestConditions, Thrown>)
    ensures r.Success? ==> r.value.ifNoneMatch == inputs.ifModifiedSince && r.value.ifModifiedSince == inputs.ifNoneMatch
    ensures r.Success? <==> DateSlotParses(inputs.ifNoneMatch, isDateTime) && DateSlotParses(inputs.ifUnmodifiedSince, isDateTime)
  {
    GetRequestConditions(inputs.leaseId, inputs.ifMatch, inputs.ifModifiedSince, inputs.ifNoneMatch,
                         inputs.ifUnmodifiedSince, isDateTime)
  }

  /**
   * The `try` block of `execute`: file-system client, range, request
   * conditions (with the same argument swap as the download), then one read.
   * Status 200 is the only one that produces a response.
   */
  function ReadAttempt(inputs: ReadInputs, sdk: ReadSdk, u: Undeclared): (a: Attempt<ReadRequest>)
    // The steps of the block, in order: a failing one ends it with its own exception.
    ensures var client := sdk.fileSystemClient(inputs.connectionName, inputs.fileSystemName);
            client.Some? ==> a == Attempt(None, Interrupted(client.value))
    ensures sdk.fileSystemClient(inputs.connectionName, inputs.fileSystemName).None?
            && Conditions(inputs, sdk.isDateTime).Failure? ==>
              a == Attempt(None, Interrupted(Conditions(inputs, sdk.isDateTime).error))
    // Once the client and the conditions are obtained, the read is issued, and its reply decides the rest.
    ensures sdk.fileSystemClient(inputs.connectionName, inputs.fileSystemName).None?
            && Conditions(inputs, sdk.isDateTime).Success? ==>
              a.issued == Some(ReadRequest(inputs.fileSystemName, inputs.filePath, RangeOf(inputs.offset, inputs.count),
                                           inputs.maxRetryRequests, Conditions(inputs, sdk.isDateTime).value,
                                           inputs.timeout))
    ensures a.issued.Some? && sdk.read(a.issued.value).Threw? ==> a.result == Interrupted(sdk.read(a.issued.value).thrown)
    ensures a.issued.Some? && sdk.read(a.issued.value).Returned? && sdk.read(a.issued.value).value.status != 200 ==>
              a.result.NoResponse?
    ensures a.issued.Some? ==>
              && a.issued.value.range == RangeOf(inputs.offset, inputs.count)
              && a.issued.value.retryMaxRequests == inputs.maxRetryRequests
              && a.issued.value.conditions.ifNoneMatch == inputs.ifModifiedSince
              && a.issued.value.conditions.ifModifiedSince == inputs.ifNoneMatch
              && a.issued.value.path == inputs.filePath
              && a.issued.value.timeoutSeconds == inputs.timeout
    ensures a.result.Respond? <==> a.issued.Some? && sdk.read(a.issued.value).Returned?
                                   && sdk.read(a.issued.value).value.status == 200
    ensures a.result.Respond? ==>
              var response := sdk.read(a.issued.value).value;
              a.result == Respond(ContentPayload(u, response.content, response.contentLength), None)
  {
    var client := sdk.fileSystemClient(inputs.connectionName, inputs.fileSystemName);
    if client.Some? then Attempt(None, Interrupted(client.value))
    else
      var range := RangeOf(inputs.offset, inputs.count);
      match Conditions(inputs, sdk.isDateTime)
      case Failure(t) => Attempt(None, Interrupted(t))
      case Success(conditions) =>
        var request := ReadRequest(inputs.fileSystemName, inputs.filePath, range, inputs.maxRetryRequests,
                                   conditions, inputs.timeout);
        match sdk.read(request)
        case Threw(t) => Attempt(Some(request), Interrupted(t))
        case Returned(response) =>
          if response.status == 200 then
            Attempt(Some(request), Respond(ContentPayload(u, response.content, response.contentLength), None))
          else Attempt(Some(request), NoResponse)
  }

  /** The catch clauses of `execute`, in order. */
  const ReadCatches: seq<CatchClause> := [
    CatchClause(ConnectException, ConnectionError),
    CatchClause(DataLakeStorageException, DataLakeStorageGen2Error),
    CatchClause(RuntimeException, TimeoutError),
    CatchClause(Exception, GeneralError)]

  /** The error each exception is reported as: unchecked ones other than storage errors count as timeouts. */
  function ReadError(t: Thrown): Error {
    if t.Connect? || t.InvalidConfigurationEx? then ConnectionError
    else if t.DataLakeStorage? then DataLakeStorageGen2Error
    else if IsUnchecked(t) then TimeoutError
    else GeneralError
  }

  /** Every exception is caught, and the first matching clause gives `ReadError`. */
  lemma ReadCatchTable(t: Thrown)
    ensures FirstCatch(ReadCatches, t) == Some(ReadError(t))
  {
    assert InstanceOf(t, ReadCatches[3].cls);
  }

  /** `execute`: the parameter reads, then the `try` block and its catch clauses. */
  method Execute(ctx: MessageContext, responseVariable: string, overwriteBody: bool, sdk: ReadSdk, u: Undeclared)
    returns (c: Completion, issued: Option<ReadRequest>)
    modifies ctx
    ensures Read(ctx.parameters, old(ctx.properties)).Failure? ==>
              c == Rejected(Read(ctx.parameters, old(ctx.properties)).error)
              && issued.None? && ctx.State() == old(ctx.State())
    ensures Read(ctx.parameters, old(ctx.properties)).Success? ==>
              var a := ReadAttempt(Read(ctx.parameters, old(ctx.properties)).value, sdk, u);
              && issued == a.issued
              && (ctx.State(), c) == Conclusion(old(ctx.State()), responseVariable, overwriteBody, a.result, ReadCatches, u)
  {
    var inputs := Read(ctx.parameters, ctx.properties);
    if inputs.Failure? {
      return Rejected(inputs.error), None;
    }
    var a := ReadAttempt(inputs.value, sdk, u);
    issued := a.issued;
    c := Conclude(ctx, responseVariable, overwriteBody, a.result, ReadCatches, u);
  }
}
