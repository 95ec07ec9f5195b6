/**
 * `FlushFile`: commits data previously appended to a file, up to a position.
 */
module FlushFile {

  import opened Common
  import opened Errors
  import opened Synapse
  import opened Mediator

  /** The values `execute` reads before its `try` block. */
  datatype FlushInputs = FlushInputs(
    connectionName: string,
    fileSystemName: string,
    filePathToFlush: string,
    headers: PathHeaders,
    ifMatch: Option<string>,
    ifNoneMatch: Option<string>,
    ifModifiedSince: Option<string>,
    ifUnmodifiedSince: Option<string>,
    leaseId: Option<string>,
    proposedLeaseId: Option<string>,
    fileLength: Option<int>,
    timeout: Option<int>,
    leaseAction: Option<string>,
    leaseDuration: Option<int>,
    uncommittedDataRetained: Option<bool>)

  /** `flushWithResponse` and its options. */
  datatype FlushRequest = FlushRequest(
    position: int,
    uncommittedDataRetained: Option<bool>,
    conditions: RequestConditions,
    headers: PathHeaders,
    close: bool,
    leaseAction: Option<LeaseAction>,
    leaseDuration: Option<int>,
    proposedLeaseId: Option<string>,
    timeoutSeconds: Option<int>)

  /** The calls the operation makes outside the connector. */
  datatype FlushSdk = FlushSdk(
    fileClient: FileClientOracle,
    fileSize: (string, string, string) -> Reply<int>,   // getProperties().getFileSize() of that file
    isDateTime: string -> bool,
    flush: FlushRequest -> Reply<int>)                 // the status code of the response

  /** The parameter reads, in the order `execute` makes them; the first failure is reported. */
  function ReadInputs(parameters: map<string, string>, properties: map<string, string>)
    : (r: Result<FlushInputs, string>)
    ensures r.Success? <==>
              && "name" in properties && properties["name"] != ""
              && Provided(parameters, "fileSystemName") && Provided(parameters, "filePathToFlush")
              && IntAccepted(parameters, "fileLength") && IntAccepted(parameters, "timeout")
              && IntAccepted(parameters, "leaseDuration")
    ensures r.Success? ==>
              && r.value.fileLength == OptionalInt(parameters, "fileLength").value
              && IsOptionalInt(r.value.fileLength)
              && r.value.leaseAction == OptionalString(parameters, "leaseAction")
              && r.value.ifNoneMatch == OptionalString(parameters, "ifNoneMatch")
              && r.value.ifModifiedSince == OptionalString(parameters, "ifModifiedSince")
  {
    var connectionName :- ConnectionNameProperty(properties);
    var fileSystemName :- RequiredString(parameters, "fileSystemName");
    var filePath :- RequiredString(parameters, "filePathToFlush");
    var contentLanguage := OptionalString(parameters, "contentLanguage");
    var ifMatch := OptionalString(parameters, "ifMatch");
    var ifNoneMatch := OptionalString(parameters, "ifNoneMatch");
    var ifModifiedSince := OptionalString(parameters, "ifModifiedSince");
    var ifUnmodifiedSince := OptionalString(parameters, "ifUnmodifiedSince");
    var contentType := OptionalString(parameters, "contentType");
    var contentDisposition := OptionalString(parameters, "contentDisposition");
    var contentEncoding := OptionalString(parameters, "contentEncoding");
    var cacheControl := OptionalString(parameters, "cacheControl");
    var leaseId := OptionalString(parameters, "leaseId");
    var proposedLeaseId := OptionalString(parameters, "proposedLeaseId");
    var fileLength :- OptionalInt(parameters, "fileLength");
    var timeout :- OptionalInt(parameters, "timeout");
    var leaseAction := OptionalString(parameters, "leaseAction");
    var leaseDuration :- OptionalInt(parameters, "leaseDuration");
    var uncommittedDataRetained := OptionalBool(parameters, "uncommittedDataRetained");
    Success(FlushInputs(connectionName, fileSystemName, filePath,
                        PathHeaders(cacheControl, contentType, contentDisposition, contentEncoding, contentLanguage),
                        ifMatch, ifNoneMatch, ifModifiedSince, ifUnmodifiedSince, leaseId, proposedLeaseId,
                        fileLength, timeout, leaseAction, leaseDuration, uncommittedDataRetained))
  }

  /** `fileSizeBefore + fileLength.longValue()`: a sum in 64-bit arithmetic. */
  function FlushPosition(fileSizeBefore: int, fileLength: int): (position: int)
    ensures IsLong(position)
    ensures IsLong(fileSizeBefore + fileLength) ==> position == fileSizeBefore + fileLength
  {
    WrapLong(fileSizeBefore + fileLength)
  }

  /** For any real file size and any `int` length that keeps the sum in range, the position is the exact sum. */
  lemma FlushPositionIsExact(fileSizeBefore: int, fileLength: int)
    requires 0 <= fileSizeBefore <= LONG_MAX - INT_MAX && IsInt(fileLength)
    ensures FlushPosition(fileSizeBefore, fileLength) == fileSizeBefore + fileLength
  {
  }

  /**
   * When a real file size plus an `int` length passes the top of the `long`
   * range, the position wraps around by 2^64 to a negative value.
   */
  lemma FlushPositionWraps(fileSizeBefore: int, fileLength: int)
    requires 0 <= fileSizeBefore <= LONG_MAX && IsInt(fileLength) && fileSizeBefore + fileLength > LONG_MAX
    ensures FlushPosition(fileSizeBefore, fileLength) == fileSizeBefore + fileLength - 0x1_0000_0000_0000_0000
    ensures FlushPosition(fileSizeBefore, fileLength) < 0
  {
    var n := fileSizeBefore + fileLength;
    var d := n - LONG_MIN;
    assert 0x1_0000_0000_0000_0000 <= d < 2 * 0x1_0000_0000_0000_0000;
    assert d % 0x1_0000_0000_0000_0000 == d - 0x1_0000_0000_0000_0000;
  }

  /**
   * The `try` block of `execute`: file client, current size, the position
   * (a missing length is unboxed and throws NullPointerException), request
   * conditions in the declared order, then one flush that always closes.
   * Status 200 is the only one that produces a response.
   */
  function FlushAttempt(inputs: FlushInputs, lease: Option<LeaseAction>, sdk: FlushSdk, u: Undeclared)
    : (a: Attempt<FlushRequest>)
    ensures inputs.fileLength.None? ==> a.issued.None? && a.result.Interrupted?
    // The steps of the block, in order: a failing one ends it with its own exception.
    ensures var client := sdk.fileClient(inputs.connectionName, inputs.fileSystemName, inputs.filePathToFlush);
            client.Some? ==> a == Attempt(None, Interrupted(client.value))
    ensures var size := sdk.fileSize(inputs.connectionName, inputs.fileSystemName, inputs.filePathToFlush);
            sdk.fileClient(inputs.connectionName, inputs.fileSystemName, inputs.filePathToFlush).None? && size.Threw? ==>
              a == Attempt(None, Interrupted(size.thrown))
    ensures var ready := sdk.fileClient(inputs.connectionName, inputs.fileSystemName, inputs.filePathToFlush).None?
                         && sdk.fileSize(inputs.connectionName, inputs.fileSystemName, inputs.filePathToFlush).Returned?;
            && (ready && inputs.fileLength.None? ==> a == Attempt(None, Interrupted(NullPointer)))
            && (ready && inputs.fileLength.Some?
                && GetRequestConditions(inputs.leaseId, inputs.ifMatch, inputs.ifNoneMatch, inputs.ifModifiedSince,
                                        inputs.ifUnmodifiedSince, sdk.isDateTime).Failure? ==>
                  a == Attempt(None, Interrupted(DateTimeParse)))
    // Once every earlier step succeeded, the flush is issued, and its reply decides the rest.
    ensures sdk.fileClient(inputs.connectionName, inputs.fileSystemName, inputs.filePathToFlush).None?
            && sdk.fileSize(inputs.connectionName, inputs.fileSystemName, inputs.filePathToFlush).Returned?
            && inputs.fileLength.Some?
            && GetRequestConditions(inputs.leaseId, inputs.ifMatch, inputs.ifNoneMatch, inputs.ifModifiedSince,
                                    inputs.ifUnmodifiedSince, sdk.isDateTime).Success? ==>
              a.issued == Some(FlushRequest(
                FlushPosition(sdk.fileSize(inputs.connectionName, inputs.fileSystemName, inputs.filePathToFlush).value,
                              inputs.fileLength.value),
                inputs.uncommittedDataRetained,
                RequestConditions(inputs.leaseId, inputs.ifMatch, inputs.ifNoneMatch, inputs.ifModifiedSince,
                                  inputs.ifUnmodifiedSince),
                inputs.headers, true, lease, inputs.leaseDuration, inputs.proposedLeaseId, inputs.timeout))
    ensures a.issued.Some? && sdk.flush(a.issued.value).Threw? ==> a.result == Interrupted(sdk.flush(a.issued.value).thrown)
    ensures a.issued.Some? && sdk.flush(a.issued.value).Returned? && sdk.flush(a.issued.value).value != 200 ==>
              a.result.NoResponse?
    ensures a.issued.Some? ==>
              && inputs.fileLength.Some?
              && sdk.fileSize(inputs.connectionName, inputs.fileSystemName, inputs.filePathToFlush).Returned?
              && a.issued.value.position
                 == FlushPosition(sdk.fileSize(inputs.connectionName, inputs.fileSystemName, inputs.filePathToFlush).value,
                                  inputs.fileLength.value)
              && a.issued.value.close
              && a.issued.value.conditions
                 == RequestConditions(inputs.leaseId, inputs.ifMatch, inputs.ifNoneMatch, inputs.ifModifiedSince,
                                      inputs.ifUnmodifiedSince)
              && a.issued.value.leaseAction == lease
    ensures a.result.Respond? <==> a.issued.Some? && sdk.flush(a.issued.value) == Returned(200)
    ensures a.result.Respond? ==> a.result == Respond(SuccessPayload(u, "Successfully flushed"), None)
  {
    var client := sdk.fileClient(inputs.connectionName, inputs.fileSystemName, inputs.filePathToFlush);
    if client.Some? then Attempt(None, Interrupted(client.value))
    else
      match sdk.fileSize(inputs.connectionName, inputs.fileSystemName, inputs.filePathToFlush)
      case Threw(t) => Attempt(None, Interrupted(t))
      case Returned(fileSizeBefore) =>
        if inputs.fileLength.None? then Attempt(None, Interrupted(NullPointer))
        else
          var position := FlushPosition(fileSizeBefore, inputs.fileLength.value);
          match GetRequestConditions(inputs.leaseId, inputs.ifMatch, inputs.ifNoneMatch, inputs.ifModifiedSince,
                                     inputs.ifUnmodifiedSince, sdk.isDateTime)
          case Failure(t) => Attempt(None, Interrupted(t))
          case Success(conditions) =>
            var request := FlushRequest(position, inputs.uncommittedDataRetained, conditions, inputs.headers, true,
                                        lease, inputs.leaseDuration, inputs.proposedLeaseId, inputs.timeout);
            match sdk.flush(request)
            case Threw(t) => Attempt(Some(request), Interrupted(t))
            case Returned(status) =>
              if status == 200 then Attempt(Some(request), Respond(SuccessPayload(u, "Successfully flushed"), None))
              else Attempt(Some(request), NoResponse)
  }

  /** The catch clauses of `execute`, in order. */
  const FlushCatches: seq<CatchClause> := [
    CatchClause(DataLakeStorageException, DataLakeStorageGen2Error),
    CatchClause(ConnectException, ConnectionError),
    CatchClause(Exception, GeneralError)]

  /** Storage errors, connection errors, and everything else as a general error. */
  lemma FlushCatchTable(t: Thrown)
    ensures FirstCatch(FlushCatches, t)
            == Some(if t.DataLakeStorage? then DataLakeStorageGen2Error
                    else if t.Connect? || t.InvalidConfigurationEx? then ConnectionError
                    else GeneralError)
  {
    assert InstanceOf(t, FlushCatches[2].cls);
  }

  /** Without a file length nothing is flushed, and the context records a general error. */
  lemma MissingLengthIsGeneralError(inputs: FlushInputs, lease: Option<LeaseAction>, sdk: FlushSdk, u: Undeclared,
                                    s: ContextState, responseVariable: string, overwriteBody: bool)
    requires inputs.fileLength.None?
    requires sdk.fileClient(inputs.connectionName, inputs.fileSystemName, inputs.filePathToFlush).None?
    requires sdk.fileSize(inputs.connectionName, inputs.fileSystemName, inputs.filePathToFlush).Returned?
    ensures var a := FlushAttempt(inputs, lease, sdk, u);
      && a.issued.None?
      && Conclusion(s, responseVariable, overwriteBody, a.result, FlushCatches, u)
         == (ErrorRaised(s, GeneralError, u), Raised(GeneralError, Some(NullPointer)))
  {
    FlushCatchTable(NullPointer);
  }

  /** `execute`. The lease action is looked up before the `try` block; a missing one is an uncaught NullPointerException. */
  method Execute(ctx: MessageContext, responseVariable: string, overwriteBody: bool, sdk: FlushSdk, u: Undeclared)
    returns (c: Completion, issued: Option<FlushRequest>)
    modifies ctx
    ensures ReadInputs(ctx.parameters, old(ctx.properties)).Failure? ==>
              c == Rejected(ReadInputs(ctx.parameters, old(ctx.properties)).error)
              && issued.None? && ctx.State() == old(ctx.State())
    ensures ReadInputs(ctx.parameters, old(ctx.properties)).Success? ==>
              var inputs := ReadInputs(ctx.parameters, old(ctx.properties)).value;
              inputs.leaseAction.None? ==> c == Propagated(NullPointer) && issued.None? && ctx.State() == old(ctx.State())
    ensures ReadInputs(ctx.parameters, old(ctx.properties)).Success? ==>
              var inputs := ReadInputs(ctx.parameters, old(ctx.properties)).value;
              inputs.leaseAction.Some? ==>
                var a := FlushAttempt(inputs, GetLeaseAction(inputs.leaseAction).value, sdk, u);
                && issued == a.issued
                && (ctx.State(), c) == Conclusion(old(ctx.State()), responseVariable, overwriteBody, a.result, FlushCatches, u)
  {
    var read := ReadInputs(ctx.parameters, ctx.properties);
    if read.Failure? {
      return Rejected(read.error), None;
    }
    var leaseAction := GetLeaseAction(read.value.leaseAction);
    if leaseAction.Failure? {
      return Propagated(leaseAction.error), None;
    }
    var a := FlushAttempt(read.value, leaseAction.value, sdk, u);
    issued := a.issued;
    c := Conclude(ctx, responseVariable, overwriteBody, a.result, FlushCatches, u);
  }
}
