/**
 * `UploadFile`: uploads a local file or a text to a path of a file system.
 */
module UploadFile {

  import opened Common
  import opened Errors
  import opened Synapse
  import opened Mediator

  /** The values `execute` reads before its `try` block. */
  datatype UploadInputs = UploadInputs(
    connectionName: string,
    fileSystemName: string,
    filePathToUpload: string,
    inputType: string,
    localFilePath: Option<string>,
    textContent: Option<string>,
    headers: PathHeaders,
    blockSize: Option<int>,
    maxSingleUploadSize: Option<int>,
    maxConcurrency: Option<int>,
    metadata: Option<string>,
    timeout: Option<int>)

  /** The upload request sent to the SDK. */
  datatype UploadRequest =
    | FromFile(fileSystemName: string, path: string, localFilePath: string, transfer: TransferOptions,
               headers: PathHeaders, digestedBytes: seq<byte>, metadata: map<string, string>,
               timeoutSeconds: Option<int>)
    | FromText(fileSystemName: string, path: string, text: string, transfer: TransferOptions,
               headers: PathHeaders, metadata: map<string, string>, timeoutSeconds: Option<int>)

  /** The calls the operation makes outside the connector. */
  datatype UploadSdk = UploadSdk(
    fileClient: FileClientOracle,
    metadataFromArrayString: string -> Reply<map<string, string>>,   // Utils.addDataToMapFromArrayString
    readAllBytes: string -> Reply<seq<byte>>,                        // Files.readAllBytes
    md5Available: bool,                                              // MessageDigest.getInstance("MD5")
    upload: UploadRequest -> Reply<int>)                             // the status code of the response

  /** The parameter reads, in the order `execute` makes them; the first failure is reported. */
  function ReadInputs(parameters: map<string, string>, properties: map<string, string>)
    : (r: Result<UploadInputs, string>)
    ensures r.Success? <==>
              && "name" in properties && properties["name"] != ""
              && Provided(parameters, "fileSystemName") && Provided(parameters, "filePathToUpload")
              && Provided(parameters, "inputType")
              && (parameters["inputType"] == "Local File" ==> Provided(parameters, "localFilePath"))
              && IntAccepted(parameters, "blockSize") && IntAccepted(parameters, "maxSingleUploadSize")
              && IntAccepted(parameters, "maxConcurrency") && IntAccepted(parameters, "timeout")
    ensures r.Success? ==>
              && r.value.connectionName == properties["name"]
              && r.value.inputType == parameters["inputType"]
              && r.value.localFilePath == OptionalString(parameters, "localFilePath")
              && r.value.textContent == OptionalString(parameters, "textContent")
              && IsOptionalInt(r.value.blockSize) && IsOptionalInt(r.value.maxSingleUploadSize)
              && IsOptionalInt(r.value.timeout)
              && r.value.timeout == OptionalInt(parameters, "timeout").value
    ensures !("name" in properties && properties["name"] != "") ==> r == Failure("Property name is not set")
  {
    var connectionName :- ConnectionNameProperty(properties);
    var fileSystemName :- RequiredString(parameters, "fileSystemName");
    var filePathToUpload :- RequiredString(parameters, "filePathToUpload");
    var inputType :- RequiredString(parameters, "inputType");
    var localFilePath :- StringParameter(parameters, "localFilePath", inputType != "Local File");
    var textContent := OptionalString(parameters, "textContent");
    var contentLanguage := OptionalString(parameters, "contentLanguage");
    var contentType := OptionalString(parameters, "contentType");
    var contentEncoding := OptionalString(parameters, "contentEncoding");
    var contentDisposition := OptionalString(parameters, "contentDisposition");
    var cacheControl := OptionalString(parameters, "cacheControl");
    var blockSize :- OptionalInt(parameters, "blockSize");
    var maxSingleUploadSize :- OptionalInt(parameters, "maxSingleUploadSize");
    var maxConcurrency :- OptionalInt(parameters, "maxConcurrency");
    var metadata := OptionalString(parameters, "metadata");
    var timeout :- OptionalInt(parameters, "timeout");
    Success(UploadInputs(connectionName, fileSystemName, filePathToUpload, inputType, localFilePath, textContent,
                         PathHeaders(cacheControl, contentType, contentDisposition, contentEncoding, contentLanguage),
                         blockSize, maxSingleUploadSize, maxConcurrency, metadata, timeout))
  }

  /** Block size and single-upload limit in bytes, concurrency as given. */
  function Transfer(inputs: UploadInputs): (t: TransferOptions)
    requires IsOptionalInt(inputs.blockSize) && IsOptionalInt(inputs.maxSingleUploadSize)
    ensures t.blockSizeBytes.Some? <==> inputs.blockSize.Some?
    ensures t.blockSizeBytes.Some? ==> t.blockSizeBytes.value == inputs.blockSize.value * 1048576
    ensures t.maxSingleUploadSizeBytes.Some? <==> inputs.maxSingleUploadSize.Some?
    ensures t.maxSingleUploadSizeBytes.Some? ==> t.maxSingleUploadSizeBytes.value == inputs.maxSingleUploadSize.value * 1048576
    ensures t.maxConcurrency == inputs.maxConcurrency
  {
    TransferOptions(OptionalBytes(inputs.blockSize), inputs.maxConcurrency, OptionalBytes(inputs.maxSingleUploadSize))
  }

  /** The result of one upload call: status 200 is the only success; other statuses leave no response. */
  function Gate(request: UploadRequest, reply: Reply<int>, u: Undeclared): (a: Attempt<UploadRequest>)
    ensures a.issued == Some(request)
    ensures a.result.Respond? <==> reply == Returned(200)
    ensures a.result.Respond? ==> a.result == Respond(SuccessPayload(u, "Successfully uploaded the file"), None)
    ensures a.result.Interrupted? <==> reply.Threw?
  {
    match reply
    case Threw(t) => Attempt(Some(request), Interrupted(t))
    case Returned(status) =>
      if status == 200 then Attempt(Some(request), Respond(SuccessPayload(u, "Successfully uploaded the file"), None))
      else Attempt(Some(request), NoResponse)
  }

  /** Only a local path is given: the file is uploaded. */
  predicate FileMode(inputs: UploadInputs) {
    inputs.localFilePath.Some? && inputs.textContent.None?
  }

  /** Only a text is given: the text is uploaded. */
  predicate TextMode(inputs: UploadInputs) {
    inputs.textContent.Some? && inputs.localFilePath.None?
  }

  /** The metadata map: empty when no metadata text is given, without consulting the parser. */
  function MetadataReply(inputs: UploadInputs, sdk: UploadSdk): (r: Reply<map<string, string>>)
    ensures IsEmpty(inputs.metadata) ==> r == Returned(map[])
    ensures IsNotEmpty(inputs.metadata) ==> r == sdk.metadataFromArrayString(inputs.metadata.value)
  {
    if IsNotEmpty(inputs.metadata) then sdk.metadataFromArrayString(inputs.metadata.value) else Returned(map[])
  }

  /**
   * The `try` block of `execute`: obtain the file client, build the metadata
   * map, then upload the local file when only a path is given, or the text
   * when only a text is given. With both or neither nothing is uploaded.
   * Each step that throws ends the block with its exception; once every step
   * before it succeeded the upload is issued, and its reply decides the rest.
   */
  function UploadAttempt(inputs: UploadInputs, sdk: UploadSdk, u: Undeclared): (a: Attempt<UploadRequest>)
    requires IsOptionalInt(inputs.blockSize) && IsOptionalInt(inputs.maxSingleUploadSize)
    ensures a.issued.Some? && a.issued.value.FromFile? ==>
              inputs.localFilePath == Some(a.issued.value.localFilePath) && inputs.textContent.None?
    ensures a.issued.Some? && a.issued.value.FromText? ==>
              inputs.textContent == Some(a.issued.value.text) && inputs.localFilePath.None?
    ensures inputs.localFilePath.Some? == inputs.textContent.Some? ==> a.issued.None? && !a.result.Respond?
    ensures a.issued.Some? ==>
              && a.issued.value.transfer == Transfer(inputs)
              && a.issued.value.timeoutSeconds == inputs.timeout
              && a.issued.value.fileSystemName == inputs.fileSystemName
              && a.issued.value.path == inputs.filePathToUpload
              && a.issued.value.headers == inputs.headers
    ensures a.result.Respond? <==> a.issued.Some? && sdk.upload(a.issued.value) == Returned(200)
    ensures a.result.Respond? ==> a.result.payload == SuccessPayload(u, "Successfully uploaded the file")
    // The steps of the block, in order: a failing one ends it with its own exception.
    ensures var client := sdk.fileClient(inputs.connectionName, inputs.fileSystemName, inputs.filePathToUpload);
            client.Some? ==> a == Attempt(None, Interrupted(client.value))
    ensures var client := sdk.fileClient(inputs.connectionName, inputs.fileSystemName, inputs.filePathToUpload);
            client.None? && MetadataReply(inputs, sdk).Threw? ==>
              a == Attempt(None, Interrupted(MetadataReply(inputs, sdk).thrown))
    ensures var ready := sdk.fileClient(inputs.connectionName, inputs.fileSystemName, inputs.filePathToUpload).None?
                         && MetadataReply(inputs, sdk).Returned?;
            && (ready && FileMode(inputs) && sdk.readAllBytes(inputs.localFilePath.value).Threw? ==>
                  a == Attempt(None, Interrupted(sdk.readAllBytes(inputs.localFilePath.value).thrown)))
            && (ready && !sdk.md5Available
                && (TextMode(inputs) || (FileMode(inputs) && sdk.readAllBytes(inputs.localFilePath.value).Returned?))
                ==> a == Attempt(None, Interrupted(NoSuchAlgorithmEx)))
            && (ready && !TextMode(inputs) && !FileMode(inputs) ==> a == Attempt(None, NoResponse))
    // Once every earlier step succeeded, the upload is issued with the metadata and, for a file, its bytes.
    ensures var ready := sdk.fileClient(inputs.connectionName, inputs.fileSystemName, inputs.filePathToUpload).None?
                         && MetadataReply(inputs, sdk).Returned? && sdk.md5Available;
            && (ready && FileMode(inputs) && sdk.readAllBytes(inputs.localFilePath.value).Returned? ==>
                  a.issued == Some(FromFile(inputs.fileSystemName, inputs.filePathToUpload, inputs.localFilePath.value,
                                            Transfer(inputs), inputs.headers, sdk.readAllBytes(inputs.localFilePath.value).value,
                                            MetadataReply(inputs, sdk).value, inputs.timeout)))
            && (ready && TextMode(inputs) ==>
                  a.issued == Some(FromText(inputs.fileSystemName, inputs.filePathToUpload, inputs.textContent.value,
                                            Transfer(inputs), inputs.headers, MetadataReply(inputs, sdk).value,
                                            inputs.timeout)))
    ensures a.issued.Some? ==> a == Gate(a.issued.value, sdk.upload(a.issued.value), u)
  {
    var client := sdk.fileClient(inputs.connectionName, inputs.fileSystemName, inputs.filePathToUpload);
    if client.Some? then Attempt(None, Interrupted(client.value))
    else
      var metadataReply := MetadataReply(inputs, sdk);
      if metadataReply.Threw? then Attempt(None, Interrupted(metadataReply.thrown))
      else
        var metadata := metadataReply.value;
        if FileMode(inputs) then
          var bytes := sdk.readAllBytes(inputs.localFilePath.value);
          if bytes.Threw? then Attempt(None, Interrupted(bytes.thrown))
          else if !sdk.md5Available then Attempt(None, Interrupted(NoSuchAlgorithmEx))
          else
            var request := FromFile(inputs.fileSystemName, inputs.filePathToUpload, inputs.localFilePath.value,
                                    Transfer(inputs), inputs.headers, bytes.value, metadata, inputs.timeout);
            Gate(request, sdk.upload(request), u)
        else if TextMode(inputs) then
          if !sdk.md5Available then Attempt(None, Interrupted(NoSuchAlgorithmEx))
          else
            var request := FromText(inputs.fileSystemName, inputs.filePathToUpload, inputs.textContent.value,
                                    Transfer(inputs), inputs.headers, metadata, inputs.timeout);
            Gate(request, sdk.upload(request), u)
        else
          Attempt(None, NoResponse)
  }

  /** The catch clauses of `execute`, in order. */
  const UploadCatches: seq<CatchClause> := [
    CatchClause(DataLakeStorageException, DataLakeStorageGen2Error),
    CatchClause(ConnectException, ConnectionError),
    CatchClause(NoSuchAlgorithmException, NoSuchAlgorithm),
    CatchClause(IOException, IoException),
    CatchClause(Exception, GeneralError)]

  /** The error each exception is reported as. */
  function UploadError(t: Thrown): Error {
    match t
    case DataLakeStorage => DataLakeStorageGen2Error
    case Connect => ConnectionError
    case InvalidConfigurationEx => ConnectionError
    case NoSuchAlgorithmEx => NoSuchAlgorithm
    case IO => IoException
    case _ => GeneralError
  }

  /** Every exception is caught, and the first matching clause gives `UploadError`. */
  lemma UploadCatchTable(t: Thrown)
    ensures FirstCatch(UploadCatches, t) == Some(UploadError(t))
  {
    var rest := UploadCatches[1..];
    assert rest == [UploadCatches[1], UploadCatches[2], UploadCatches[3], UploadCatches[4]];
    if !(t.DataLakeStorage? || t.Connect? || t.InvalidConfigurationEx?) {
      assert rest[1..] == [UploadCatches[2], UploadCatches[3], UploadCatches[4]];
      assert rest[1..][1..] == [UploadCatches[3], UploadCatches[4]];
      assert rest[1..][1..][1..] == [UploadCatches[4]];
    }
  }

  /**
   * `execute`: the parameter reads, then the `try` block and its catch
   * clauses. A failed read ends the operation before anything is sent.
   */
  method Execute(ctx: MessageContext, responseVariable: string, overwriteBody: bool, sdk: UploadSdk, u: Undeclared)
    returns (c: Completion, issued: Option<UploadRequest>)
    modifies ctx
    ensures ReadInputs(ctx.parameters, old(ctx.properties)).Failure? ==>
              c == Rejected(ReadInputs(ctx.parameters, old(ctx.properties)).error)
              && issued.None? && ctx.State() == old(ctx.State())
    ensures ReadInputs(ctx.parameters, old(ctx.properties)).Success? ==>
              var a := UploadAttempt(ReadInputs(ctx.parameters, old(ctx.properties)).value, sdk, u);
              && issued == a.issued
              && (ctx.State(), c) == Conclusion(old(ctx.State()), responseVariable, overwriteBody, a.result, UploadCatches, u)
  {
    var inputs := ReadInputs(ctx.parameters, ctx.properties);
    if inputs.Failure? {
      return Rejected(inputs.error), None;
    }
    var a := UploadAttempt(inputs.value, sdk, u);
    issued := a.issued;
    c := Conclude(ctx, responseVariable, overwriteBody, a.result, UploadCatches, u);
  }
}
