/**
 * `AppendFile`: appends a text or the content of a local file at the end of
 * a file, as uncommitted data unless `flush` is set.
 */
module AppendFile {

  import opened Common
  import opened Errors
  import opened Synapse
  import opened Mediator

  /** The values `execute` reads before its `try` block. */
  datatype AppendInputs = AppendInputs(
    connectionName: string,
    fileSystemName: string,
    filePathToAppend: string,
    inputType: string,
    localFilePath: Option<string>,
    textContent: Option<string>,
    timeout: Option<int>,
    flush: Option<bool>,
    leaseId: Option<string>,
    leaseAction: Option<string>,
    leaseDuration: Option<int>,
    proposedLeaseId: Option<string>)

  /** What is appended: a text, or a local file together with the bytes read from it for the digest. */
  datatype AppendData = TextData(text: string) | FileData(path: string, bytes: seq<byte>)

  /** `appendWithResponse` and its options. */
  datatype AppendRequest = AppendRequest(
    data: AppendData,
    offset: int,
    flush: Option<bool>,
    leaseId: Option<string>,
    leaseAction: Option<LeaseAction>,
    leaseDuration: Option<int>,
    proposedLeaseId: Option<string>,
    timeoutSeconds: Option<int>)

  /** The calls the operation makes outside the connector. */
  datatype AppendSdk = AppendSdk(
    fileClient: FileClientOracle,
    fileSize: (string, string, string) -> Reply<int>,   // getProperties().getFileSize() of that file
    readAllBytes: string -> Reply<seq<byte>>,          // Files.readAllBytes
    md5Available: bool,                                // MessageDigest.getInstance("MD5")
    append: AppendRequest -> Reply<int>,               // the status code of the response
    sizeOf: string -> Reply<int>)                      // Files.size

  /** The parameter reads, in the order `execute` makes them; the first failure is reported. */
  function ReadInputs(parameters: map<string, string>, properties: map<string, string>)
    : (r: Result<AppendInputs, string>)
    ensures r.Success? <==>
              && "name" in properties && properties["name"] != ""
              && Provided(parameters, "fileSystemName") && Provided(parameters, "filePathToAppend")
              && Provided(parameters, "inputType")
              && (parameters["inputType"] == "Local File" ==> Provided(parameters, "localFilePath"))
              && (parameters["inputType"] == "Text Content" ==> Provided(parameters, "textContent"))
              && IntAccepted(parameters, "timeout") && IntAccepted(parameters, "leaseDuration")
    ensures r.Success? ==>
              && r.value.inputType == parameters["inputType"]
              && r.value.localFilePath == OptionalString(parameters, "localFilePath")
              && r.value.textContent == OptionalString(parameters, "textContent")
              && r.value.leaseAction == OptionalString(parameters, "leaseAction")
              && r.value.proposedLeaseId == OptionalString(parameters, "proposedLeaseId")
  {
    var connectionName :- ConnectionNameProperty(properties);
    var fileSystemName :- RequiredString(parameters, "fileSystemName");
    var filePath :- RequiredString(parameters, "filePathToAppend");
    var inputType :- RequiredString(parameters, "inputType");
    var localFilePath :- StringParameter(parameters, "localFilePath", inputType != "Local File");
    var textContent :- StringParameter(parameters, "textContent", inputType != "Text Content");
    var timeout :- OptionalInt(parameters, "timeout");
    var flush := OptionalBool(parameters, "flush");
    var leaseId := OptionalString(parameters, "leaseId");
    var leaseAction := OptionalString(parameters, "leaseAction");
    var leaseDuration :- OptionalInt(parameters, "leaseDuration");
    var proposedLeaseId := OptionalString(parameters, "proposedLeaseId");
    Success(AppendInputs(connectionName, fileSystemName, filePath, inputType, localFilePath, textContent, timeout,
                         flush, leaseId, leaseAction, leaseDuration, proposedLeaseId))
  }

  /** `{STATUS: true, MESSAGE: "Successfully appended", APPENDSIZE: appendSize}`. */
  function AppendPayload(u: Undeclared, appendSize: int): (j: Json)
    ensures j.JObject? && j.fields.Keys == {u.statusKey, u.messageKey, u.appendSizeKey}
    ensures j.fields[u.appendSizeKey] == JNumber(appendSize)
    ensures u.messageKey != u.appendSizeKey ==> j.fields[u.messageKey] == JString("Successfully appended")
    ensures u.statusKey != u.messageKey && u.statusKey != u.appendSizeKey ==> j.fields[u.statusKey] == JBool(true)
  {
    JObject(SuccessPayload(u, "Successfully appended").fields[u.appendSizeKey := JNumber(appendSize)])
  }

  /** The attributes map: `{APPENDSIZE: appendSize}`. */
  function AppendAttributes(u: Undeclared, appendSize: int): (m: map<string, Json>)
    ensures m == map[u.appendSizeKey := JNumber(appendSize)]
  {
    map[u.appendSizeKey := JNumber(appendSize)]
  }

  /** The end of the `try` block: status 202 yields a response whose payload and attributes carry the same size. */
  function Finish(status: Option<int>, appendSize: int, u: Undeclared): (r: TryResult)
    ensures r.Respond? <==> status == Some(202)
    ensures r.Respond? ==>
              && r.payload.JObject? && u.appendSizeKey in r.payload.fields
              && r.payload.fields[u.appendSizeKey] == JNumber(appendSize)
              && r.attributes == Some(map[u.appendSizeKey := JNumber(appendSize)])
    ensures !r.Respond? ==> r.NoResponse?
  {
    if status == Some(202) then Respond(AppendPayload(u, appendSize), Some(AppendAttributes(u, appendSize)))
    else NoResponse
  }

  /**
   * The `try` block of `execute` as a value: the data is appended at the
   * current size of the file, from the text when only a text is given or
   * from the local file when only a path is given; with both or neither
   * nothing is appended and the size stays 0.
   */
  function AppendAttempt(inputs: AppendInputs, lease: Option<LeaseAction>, sdk: AppendSdk, u: Undeclared)
    : (a: Attempt<AppendRequest>)
    ensures a.issued.Some? ==>
              && sdk.fileClient(inputs.connectionName, inputs.fileSystemName, inputs.filePathToAppend).None?
              && sdk.fileSize(inputs.connectionName, inputs.fileSystemName, inputs.filePathToAppend)
                 == Returned(a.issued.value.offset)
              && a.issued.value.leaseAction == lease && a.issued.value.flush == inputs.flush
    ensures a.issued.Some? && a.issued.value.data.TextData? ==>
              && inputs.textContent == Some(a.issued.value.data.text) && inputs.localFilePath.None?
              && a.issued.value.proposedLeaseId.None?
    ensures a.issued.Some? && a.issued.value.data.FileData? ==>
              && inputs.localFilePath == Some(a.issued.value.data.path) && inputs.textContent.None?
              && a.issued.value.proposedLeaseId == inputs.proposedLeaseId
    ensures inputs.localFilePath.Some? == inputs.textContent.Some? ==> a.issued.None? && !a.result.Respond?
    ensures a.result.Respond? ==> a.issued.Some? && sdk.append(a.issued.value) == Returned(202)
    // The steps of the block, in order: a failing one ends it with its own exception.
    ensures var client := sdk.fileClient(inputs.connectionName, inputs.fileSystemName, inputs.filePathToAppend);
            client.Some? ==> a == Attempt(None, Interrupted(client.value))
    ensures var size := sdk.fileSize(inputs.connectionName, inputs.fileSystemName, inputs.filePathToAppend);
            sdk.fileClient(inputs.connectionName, inputs.fileSystemName, inputs.filePathToAppend).None? && size.Threw? ==>
              a == Attempt(None, Interrupted(size.thrown))
    ensures var ready := sdk.fileClient(inputs.connectionName, inputs.fileSystemName, inputs.filePathToAppend).None?
                         && sdk.fileSize(inputs.connectionName, inputs.fileSystemName, inputs.filePathToAppend).Returned?;
            var textMode := inputs.textContent.Some? && inputs.localFilePath.None?;
            var fileMode := inputs.localFilePath.Some? && inputs.textContent.None?;
            && (ready && fileMode && sdk.readAllBytes(inputs.localFilePath.value).Threw? ==>
                  a == Attempt(None, Interrupted(sdk.readAllBytes(inputs.localFilePath.value).thrown)))
            && (ready && !sdk.md5Available
                && (textMode || (fileMode && sdk.readAllBytes(inputs.localFilePath.value).Returned?)) ==>
                  a == Attempt(None, Interrupted(NoSuchAlgorithmEx)))
            && (ready && !textMode && !fileMode ==> a == Attempt(None, NoResponse))
    // Once every earlier step succeeded, the append is issued at the file's current size.
    ensures var ready := sdk.fileClient(inputs.connectionName, inputs.fileSystemName, inputs.filePathToAppend).None?
                         && sdk.fileSize(inputs.connectionName, inputs.fileSystemName, inputs.filePathToAppend).Returned?
                         && sdk.md5Available;
            ready ==>
              var offset := sdk.fileSize(inputs.connectionName, inputs.fileSystemName, inputs.filePathToAppend).value;
              && (inputs.textContent.Some? && inputs.localFilePath.None? ==>
                    a.issued == Some(AppendRequest(TextData(inputs.textContent.value), offset, inputs.flush,
                                                   inputs.leaseId, lease, inputs.leaseDuration, None, inputs.timeout)))
              && (inputs.localFilePath.Some? && inputs.textContent.None?
                  && sdk.readAllBytes(inputs.localFilePath.value).Returned? ==>
                    a.issued == Some(AppendRequest(FileData(inputs.localFilePath.value,
                                                            sdk.readAllBytes(inputs.localFilePath.value).value),
                                                   offset, inputs.flush, inputs.leaseId, lease, inputs.leaseDuration,
                                                   inputs.proposedLeaseId, inputs.timeout)))
    // The reply of an issued append decides the rest; for a file its size is read after the append.
    ensures a.issued.Some? && sdk.append(a.issued.value).Threw? ==>
              a.result == Interrupted(sdk.append(a.issued.value).thrown)
    ensures a.issued.Some? && a.issued.value.data.FileData? && sdk.append(a.issued.value).Returned?
            && sdk.sizeOf(a.issued.value.data.path).Threw? ==>
              a.result == Interrupted(sdk.sizeOf(a.issued.value.data.path).thrown)
    ensures a.issued.Some? && sdk.append(a.issued.value).Returned?
            && (a.issued.value.data.FileData? ==> sdk.sizeOf(a.issued.value.data.path).Returned?) ==>
              (a.result.Respond? <==> sdk.append(a.issued.value).value == 202)
              && (!a.result.Respond? ==> a.result.NoResponse?)
    ensures a.result.Respond? && a.issued.value.data.TextData? ==>
              a.result == Finish(Some(202), Utf16Length(a.issued.value.data.text), u)
              && a.result.payload == AppendPayload(u, Utf16Length(a.issued.value.data.text))
              && a.result.attributes == Some(map[u.appendSizeKey := JNumber(Utf16Length(a.issued.value.data.text))])
    ensures a.result.Respond? && a.issued.value.data.FileData? ==>
              && sdk.sizeOf(a.issued.value.data.path).Returned?
              && a.result == Finish(Some(202), sdk.sizeOf(a.issued.value.data.path).value, u)
              && a.result.payload == AppendPayload(u, sdk.sizeOf(a.issued.value.data.path).value)
              && a.result.attributes == Some(map[u.appendSizeKey := JNumber(sdk.sizeOf(a.issued.value.data.path).value)])
  {
    var client := sdk.fileClient(inputs.connectionName, inputs.fileSystemName, inputs.filePathToAppend);
    if client.Some? then Attempt(None, Interrupted(client.value))
    else
      match sdk.fileSize(inputs.connectionName, inputs.fileSystemName, inputs.filePathToAppend)
      case Threw(t) => Attempt(None, Interrupted(t))
      case Returned(fileSize) =>
        if inputs.textContent.Some? && inputs.localFilePath.None? then
          if !sdk.md5Available then Attempt(None, Interrupted(NoSuchAlgorithmEx))
          else
            var request := AppendRequest(TextData(inputs.textContent.value), fileSize, inputs.flush, inputs.leaseId,
                                         lease, inputs.leaseDuration, None, inputs.timeout);
            match sdk.append(request)
            case Threw(t) => Attempt(Some(request), Interrupted(t))
            case Returned(status) => Attempt(Some(request), Finish(Some(status), Utf16Length(inputs.textContent.value), u))
        else if inputs.localFilePath.Some? && inputs.textContent.None? then
          match sdk.readAllBytes(inputs.localFilePath.value)
          case Threw(t) => Attempt(None, Interrupted(t))
          case Returned(bytes) =>
            if !sdk.md5Available then Attempt(None, Interrupted(NoSuchAlgorithmEx))
            else
              var request := AppendRequest(FileData(inputs.localFilePath.value, bytes), fileSize, inputs.flush,
                                           inputs.leaseId, lease, inputs.leaseDuration, inputs.proposedLeaseId,
                                           inputs.timeout);
              match sdk.append(request)
              case Threw(t) => Attempt(Some(request), Interrupted(t))
              case Returned(status) =>
                match sdk.sizeOf(inputs.localFilePath.value)
                case Threw(t) => Attempt(Some(request), Interrupted(t))
                case Returned(size) => Attempt(Some(request), Finish(Some(status), size, u))
        else
          Attempt(None, Finish(None, 0, u))
  }

  /** The catch clauses of `execute`, in order. */
  const AppendCatches: seq<CatchClause> := [
    CatchClause(DataLakeStorageException, DataLakeStorageGen2Error),
    CatchClause(ConnectException, ConnectionError),
    CatchClause(Exception, GeneralError)]

  /** Storage errors, connection errors, and everything else as a general error. */
  lemma AppendCatchTable(t: Thrown)
    ensures FirstCatch(AppendCatches, t)
            == Some(if t.DataLakeStorage? then DataLakeStorageGen2Error
                    else if t.Connect? || t.InvalidConfigurationEx? then ConnectionError
                    else GeneralError)
  {
    assert InstanceOf(t, AppendCatches[2].cls);
  }

  /**
   * `execute`. The lease action is looked up before the `try` block, so a
   * missing one ends the operation with an uncaught NullPointerException.
   * The body keeps the source's locals: the size appended and the status of
   * the response, both set inside the branch that runs.
   */
  method Execute(ctx: MessageContext, responseVariable: string, overwriteBody: bool, sdk: AppendSdk, u: Undeclared)
    returns (c: Completion, issued: Option<AppendRequest>)
    modifies ctx
    ensures ReadInputs(ctx.parameters, old(ctx.properties)).Failure? ==>
              c == Rejected(ReadInputs(ctx.parameters, old(ctx.properties)).error)
              && issued.None? && ctx.State() == old(ctx.State())
    ensures ReadInputs(ctx.parameters, old(ctx.properties)).Success? ==>
              var inputs := ReadInputs(ctx.parameters, old(ctx.properties)).value;
              inputs.leaseAction.None? ==> c == Propagated(NullPointer) && issued.None? && ctx.State() == old(ctx.State())
    ensures ReadInputs(ctx.parameters, old(ctx.properties)).Success? ==>
              var inputs := ReadInputs(ctx.parameters, old(ctx.properties)).value;
              inputs.leaseAction.Some? ==>
                var a := AppendAttempt(inputs, GetLeaseAction(inputs.leaseAction).value, sdk, u);
                && issued == a.issued
                && (ctx.State(), c) == Conclusion(old(ctx.State()), responseVariable, overwriteBody, a.result, AppendCatches, u)
  {
    var read := ReadInputs(ctx.parameters, ctx.properties);
    if read.Failure? {
      return Rejected(read.error), None;
    }
    var inputs := read.value;
    var leaseAction := GetLeaseAction(inputs.leaseAction);
    if leaseAction.Failure? {
      return Propagated(leaseAction.error), None;
    }
    var lease := leaseAction.value;
    var appendSize := 0;
    var status: Option<int> := None;
    issued := None;

    // try
    var thrown := sdk.fileClient(inputs.connectionName, inputs.fileSystemName, inputs.filePathToAppend);
    var fileSize := 0;
    if thrown.None? {
      var size := sdk.fileSize(inputs.connectionName, inputs.fileSystemName, inputs.filePathToAppend);
      if size.Threw? {
        thrown := Some(size.thrown);
      } else {
        fileSize := size.value;
      }
    }
    if thrown.None? {
      if inputs.textContent.Some? && inputs.localFilePath.None? {
        if !sdk.md5Available {
          thrown := Some(NoSuchAlgorithmEx);
        } else {
          var request := AppendRequest(TextData(inputs.textContent.value), fileSize, inputs.flush, inputs.leaseId,
                                       lease, inputs.leaseDuration, None, inputs.timeout);
          issued := Some(request);
          var reply := sdk.append(request);
          if reply.Threw? {
            thrown := Some(reply.thrown);
          } else {
            status := Some(reply.value);
            appendSize := Utf16Length(inputs.textContent.value);
          }
        }
      } else if inputs.localFilePath.Some? && inputs.textContent.None? {
        var bytes := sdk.readAllBytes(inputs.localFilePath.value);
        if bytes.Threw? {
          thrown := Some(bytes.thrown);
        } else if !sdk.md5Available {
          thrown := Some(NoSuchAlgorithmEx);
        } else {
          var request := AppendRequest(FileData(inputs.localFilePath.value, bytes.value), fileSize, inputs.flush,
                                       inputs.leaseId, lease, inputs.leaseDuration, inputs.proposedLeaseId,
                                       inputs.timeout);
          issued := Some(request);
          var reply := sdk.append(request);
          if reply.Threw? {
            thrown := Some(reply.thrown);
          } else {
            status := Some(reply.value);
            var size := sdk.sizeOf(inputs.localFilePath.value);
            if size.Threw? {
              thrown := Some(size.thrown);
            } else {
              appendSize := size.value;
            }
          }
        }
      }
    }

    var result: TryResult;
    if thrown.Some? {
      result := Interrupted(thrown.value);
    } else {
      result := Finish(status, appendSize, u);
    }
    c := Conclude(ctx, responseVariable, overwriteBody, result, AppendCatches, u);
  }
}
