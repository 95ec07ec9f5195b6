/**
 * `DownloadFile`: downloads a file, or a byte range of it, to a local path.
 */
module DownloadFile {

  import opened Common
  import opened Errors
  import opened Synapse
  import opened Mediator

  /** The values `execute` reads before its `try` block. */
  datatype DownloadInputs = DownloadInputs(
    connectionName: string,
    fileSystemName: string,
    filePathToDownload: string,
    ifMatch: Option<string>,
    ifNoneMatch: Option<string>,
    ifModifiedSince: Option<string>,
    blockSize: Option<int>,
    maxConcurrency: Option<int>,
    maxRetryRequests: Option<int>,
    downloadLocation: string,
    timeout: Option<int>,
    leaseId: Option<string>,
    ifUnmodifiedSince: Option<string>,
    offset: Option<int>,
    count: Option<int>,
    rangeGetContentMd5: Option<bool>)

  /** `readToFileWithResponse` and its options. `retryMaxRequests` is `None` when no retry options are set. */
  datatype ReadToFileRequest = ReadToFileRequest(
    fileSystemName: string,
    path: string,
    downloadLocation: string,
    rangeGetContentMd5: Option<bool>,
    range: Option<FileRange>,
    transfer: TransferOptions,
    retryMaxRequests: Option<int>,
    conditions: RequestConditions,
    timeoutSeconds: Option<int>)

  /** The calls the operation makes outside the connector. */
  datatype DownloadSdk = DownloadSdk(
    fileClient: FileClientOracle,
    isDateTime: string -> bool,                  // OffsetDateTime.parse accepts the text
    readToFile: ReadToFileRequest -> Reply<int>)  // the status code of the response

  /** The parameter reads, in the order `execute` makes them; the first failure is reported. */
  function ReadInputs(parameters: map<string, string>, properties: map<string, string>)
    : (r: Result<DownloadInputs, string>)
    ensures r.Success? <==>
              && "name" in properties && properties["name"] != ""
              && Provided(parameters, "fileSystemName") && Provided(parameters, "filePathToDownload")
              && IntAccepted(parameters, "blockSize") && IntAccepted(parameters, "maxConcurrency")
              && IntAccepted(parameters, "maxRetryRequests")
              && Provided(parameters, "downloadLocation")
              && IntAccepted(parameters, "timeout") && IntAccepted(parameters, "offset")
              && IntAccepted(parameters, "count")
    ensures r.Success? ==>
              && r.value.fileSystemName == parameters["fileSystemName"]
              && r.value.filePathToDownload == parameters["filePathToDownload"]
              && r.value.downloadLocation == parameters["downloadLocation"]
              && r.value.ifNoneMatch == OptionalString(parameters, "ifNoneMatch")
              && r.value.ifModifiedSince == OptionalString(parameters, "ifModifiedSince")
              && r.value.offset == OptionalInt(parameters, "offset").value
              && r.value.count == OptionalInt(parameters, "count").value
              && r.value.maxRetryRequests == OptionalInt(parameters, "maxRetryRequests").value
              && IsOptionalInt(r.value.blockSize)
  {
    var connectionName :- ConnectionNameProperty(properties);
    var fileSystemName :- RequiredString(parameters, "fileSystemName");
    var filePath :- RequiredString(parameters, "filePathToDownload");
    var ifMatch := OptionalString(parameters, "ifMatch");
    var ifNoneMatch := OptionalString(parameters, "ifNoneMatch");
    var ifModifiedSince := OptionalString(parameters, "ifModifiedSince");
    var blockSize :- OptionalInt(parameters, "blockSize");
    var maxConcurrency :- OptionalInt(parameters, "maxConcurrency");
    var maxRetryRequests :- OptionalInt(parameters, "maxRetryRequests");
    var downloadLocation :- RequiredString(parameters, "downloadLocation");
    var timeout :- OptionalInt(parameters, "timeout");
    var leaseId := OptionalString(parameters, "leaseId");
    var ifUnmodifiedSince := OptionalString(parameters, "ifUnmodifiedSince");
    var offset :- OptionalInt(parameters, "offset");
    var count :- OptionalInt(parameters, "count");
    var rangeGetContentMd5 := OptionalBool(parameters, "rangeGetContentMd5");
    Success(DownloadInputs(connectionName, fileSystemName, filePath, ifMatch, ifNoneMatch, ifModifiedSince,
                           blockSize, maxConcurrency, maxRetryRequests, downloadLocation, timeout, leaseId,
                           ifUnmodifiedSince, offset, count, rangeGetContentMd5))
  }

  /**
   * The request conditions as `execute` builds them: its third and fourth
   * arguments are the If-Modified-Since text and the If-None-Match text,
   * the reverse of the order the helper declares.
   */
  function Conditions(inputs: DownloadInputs, isDateTime: string -> bool): (r: Result<RequestConditions, Thrown>)
    ensures r.Success? ==> r.value.ifNoneMatch == inputs.ifModifiedSince && r.value.ifModifiedSince == inputs.ifNoneMatch
    ensures r.Success? <==> DateSlotParses(inputs.ifNoneMatch, isDateTime) && DateSlotParses(inputs.ifUnmodifiedSince, isDateTime)
  {
    GetRequestConditions(inputs.leaseId, inputs.ifMatch, inputs.ifModifiedSince, inputs.ifNoneMatch,
                         inputs.ifUnmodifiedSince, isDateTime)
  }

  /** The success gate: status 206 only; any other status sets nothing and raises nothing. */
  function Gate(request: ReadToFileRequest, reply: Reply<int>, u: Undeclared): (a: Attempt<ReadToFileRequest>)
    ensures a.issued == Some(request)
    ensures a.result.Respond? <==> reply == Returned(206)
    ensures a.result.Respond? ==> a.result == Respond(SuccessPayload(u, "Successfully downloaded the file"), None)
    ensures a.result.NoResponse? <==> reply.Returned? && reply.value != 206
  {
    match reply
    case Threw(t) => Attempt(Some(request), Interrupted(t))
    case Returned(status) =>
      if status == 206 then Attempt(Some(request), Respond(SuccessPayload(u, "Successfully downloaded the file"), None))
      else Attempt(Some(request), NoResponse)
  }

  /**
   * The `try` block of `execute`: file client, transfer options, request
   * conditions, range, then one download, with retry options only when a
   * maximum retry count is given.
   */
  function DownloadAttempt(inputs: DownloadInputs, sdk: DownloadSdk, u: Undeclared): (a: Attempt<ReadToFileRequest>)
    requires IsOptionalInt(inputs.blockSize)
    ensures a.issued.Some? ==>
              && a.issued.value.range == RangeOf(inputs.offset, inputs.count)
              && a.issued.value.retryMaxRequests == inputs.maxRetryRequests
              && a.issued.value.transfer == TransferOptions(OptionalBytes(inputs.blockSize), inputs.maxConcurrency, None)
              && Conditions(inputs, sdk.isDateTime) == Success(a.issued.value.conditions)
              && a.issued.value.downloadLocation == inputs.downloadLocation
              && a.issued.value.timeoutSeconds == inputs.timeout
    ensures a.issued.None? <==> sdk.fileClient(inputs.connectionName, inputs.fileSystemName, inputs.filePathToDownload).Some?
                                || Conditions(inputs, sdk.isDateTime).Failure?
    ensures a.result.Respond? <==> a.issued.Some? && sdk.readToFile(a.issued.value) == Returned(206)
    // The steps of the block, in order: a failing one ends it with its own exception.
    ensures var client := sdk.fileClient(inputs.connectionName, inputs.fileSystemName, inputs.filePathToDownload);
            client.Some? ==> a == Attempt(None, Interrupted(client.value))
    ensures sdk.fileClient(inputs.connectionName, inputs.fileSystemName, inputs.filePathToDownload).None?
            && Conditions(inputs, sdk.isDateTime).Failure? ==>
              a == Attempt(None, Interrupted(Conditions(inputs, sdk.isDateTime).error))
    // Once the client and the conditions are obtained, the download is issued, and `Gate` decides the rest.
    ensures sdk.fileClient(inputs.connectionName, inputs.fileSystemName, inputs.filePathToDownload).None?
            && Conditions(inputs, sdk.isDateTime).Success? ==>
              a.issued == Some(ReadToFileRequest(inputs.fileSystemName, inputs.filePathToDownload,
                                                 inputs.downloadLocation, inputs.rangeGetContentMd5,
                                                 RangeOf(inputs.offset, inputs.count),
                                                 TransferOptions(OptionalBytes(inputs.blockSize), inputs.maxConcurrency, None),
                                                 inputs.maxRetryRequests, Conditions(inputs, sdk.isDateTime).value,
                                                 inputs.timeout))
    ensures a.issued.Some? ==> a == Gate(a.issued.value, sdk.readToFile(a.issued.value), u)
    ensures a.issued.Some? && sdk.readToFile(a.issued.value).Threw? ==>
              a.result == Interrupted(sdk.readToFile(a.issued.value).thrown)
    ensures a.issued.Some? && sdk.readToFile(a.issued.value).Returned? && sdk.readToFile(a.issued.value).value != 206 ==>
              a.result.NoResponse?
    ensures a.result.Respond? ==> a.result == Respond(SuccessPayload(u, "Successfully downloaded the file"), None)
  {
    var client := sdk.fileClient(inputs.connectionName, inputs.fileSystemName, inputs.filePathToDownload);
    if client.Some? then Attempt(None, Interrupted(client.value))
    else
      var transfer := TransferOptions(OptionalBytes(inputs.blockSize), inputs.maxConcurrency, None);
      match Conditions(inputs, sdk.isDateTime)
      case Failure(t) => Attempt(None, Interrupted(t))
      case Success(conditions) =>
        var request := ReadToFileRequest(inputs.fileSystemName, inputs.filePathToDownload, inputs.downloadLocation,
                                         inputs.rangeGetContentMd5, RangeOf(inputs.offset, inputs.count), transfer,
                                         inputs.maxRetryRequests, conditions, inputs.timeout);
        Gate(request, sdk.readToFile(request), u)
  }

  /**
   * An entity tag given as If-None-Match lands in the date slot: unless it
   * also reads as a date-time, nothing is downloaded and the operation
   * reports a general error.
   */
  lemma EntityTagIsParsedAsDate(inputs: DownloadInputs, sdk: DownloadSdk, u: Undeclared, etag: string)
    requires IsOptionalInt(inputs.blockSize)
    requires inputs.ifNoneMatch == Some(etag) && !sdk.isDateTime(etag)
    requires sdk.fileClient(inputs.connectionName, inputs.fileSystemName, inputs.filePathToDownload).None?
    ensures DownloadAttempt(inputs, sdk, u) == Attempt(None, Interrupted(DateTimeParse))
    ensures FirstCatch(DownloadCatches, DateTimeParse) == Some(GeneralError)
  {
  }

  /** The catch clauses of `execute`, in order. */
  const DownloadCatches: seq<CatchClause> := [
    CatchClause(ConnectException, ConnectionError),
    CatchClause(DataLakeStorageException, DataLakeStorageGen2Error),
    CatchClause(UncheckedIOException, FileIoError),
    CatchClause(Exception, GeneralError)]

  /** The error each exception is reported as. */
  function DownloadError(t: Thrown): Error {
    match t
    case Connect => ConnectionError
    case InvalidConfigurationEx => ConnectionError
    case DataLakeStorage => DataLakeStorageGen2Error
    case UncheckedIO => FileIoError
    case _ => GeneralError
  }

  /** Every exception is caught, and the first matching clause gives `DownloadError`. */
  lemma DownloadCatchTable(t: Thrown)
    ensures FirstCatch(DownloadCatches, t) == Some(DownloadError(t))
  {
    assert InstanceOf(t, DownloadCatches[3].cls);
  }

  /** `execute`: the parameter reads, then the `try` block and its catch clauses. */
  method Execute(ctx: MessageContext, responseVariable: string, overwriteBody: bool, sdk: DownloadSdk, u: Undeclared)
    returns (c: Completion, issued: Option<ReadToFileRequest>)
    modifies ctx
    ensures ReadInputs(ctx.parameters, old(ctx.properties)).Failure? ==>
              c == Rejected(ReadInputs(ctx.parameters, old(ctx.properties)).error)
              && issued.None? && ctx.State() == old(ctx.State())
    ensures ReadInputs(ctx.parameters, old(ctx.properties)).Success? ==>
              var a := DownloadAttempt(ReadInputs(ctx.parameters, old(ctx.properties)).value, sdk, u);
              && issued == a.issued
              && (ctx.State(), c) == Conclusion(old(ctx.State()), responseVariable, overwriteBody, a.result, DownloadCatches, u)
  {
    var inputs := ReadInputs(ctx.parameters, ctx.properties);
    if inputs.Failure? {
      return Rejected(inputs.error), None;
    }
    var a := DownloadAttempt(inputs.value, sdk, u);
    issued := a.issued;
    c := Conclude(ctx, responseVariable, overwriteBody, a.result, DownloadCatches, u);
  }
}
