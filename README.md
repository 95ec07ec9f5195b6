# Azure Data Lake Storage Gen2 connector — a Dafny model of its core

This project models the core of the WSO2 Micro Integrator connector for Azure Data Lake Storage Gen2, and proves properties of that model. It covers four areas.

1. **The connection layer.**
   - `ConnectionConfiguration`: eight settings, of which only the connection name is validated.
   - `AzureStorageConnectionHandler`: picks OAuth2 over an account key, builds its service client lazily, and rebuilds it when reconfigured.
   - `AzureConfig`: creates or reconfigures a connection in the runtime's connection registry, and shuts down all of the connector's connections on `destroy`.
2. **The shared mediator logic** (`AbstractAzureMediator`):
   - typed parameter parsing;
   - the required/optional/present rule for template parameters and context properties;
   - the storage connection string;
   - the lease-action lookup;
   - request conditions;
   - the two context effects: storing a response, and recording an error before throwing.
3. **Small data handling:**
   - the metadata merge of `Utils.addDataToMapFromJsonString`;
   - the `Error` code table.
4. **Six operations:** `UploadFile`, `DownloadFile`, `ReadFile`, `AppendFile`, `FlushFile` and `ListFileSystems`.

Each operation is modelled in four parts:
- a pure `ReadInputs` (`Read` in `ReadFile`) for the parameter reads before the `try` block;
- a pure `…Attempt` function for the `try` block;
- the ordered catch clauses, with a lemma giving each clause table in closed form;
- an `Execute` method that changes the `MessageContext` as the operation does.

`AppendFile.Execute` and `ListFileSystems.Execute` keep the source's step-by-step form: its locals, branches and the `forEach` loop. They are proved equal to their `…Attempt` specifications.

**What is a parameter of the model.** The Azure SDK, MD5 digests, file I/O and date parsing are passed in as oracle functions. Each returns a status, a size, bytes or a listing, or throws one of a few exception tags (`Errors.Thrown`). Java's exception hierarchy is modelled by `Errors.InstanceOf`, and the first-match order of catch clauses by `Errors.FirstCatch`.

**Names the operations use but their classes do not declare.**
- The error entries `TIMEOUT_ERROR`, `IO_EXCEPTION` and `No_SUCH_ALGORITHM` are not declared in `Error`.
- The keys `STATUS`, `MESSAGE`, `CONTENT`, `LENGTH` and `APPENDSIZE` are not declared in `AzureConstants`.

These are fields of the `Errors.Undeclared` record, and every result holds for any values of them.
- `getDataLakeFileClient` and `getDataLakeFileSystemClient` are not declared in `AbstractAzureMediator`. Each is an oracle that yields the client or throws.
- `Utils.addDataToMapFromArrayString`, which `UploadFile` calls, is not declared in `Utils`. It is the oracle `metadataFromArrayString` of `UploadFile.UploadSdk`.

**Behaviour modelled as written.**
- `getLeaseAction` switches on its argument. In `AppendFile` and `FlushFile` it is called before the `try` block, so a missing `leaseAction` parameter ends the operation with an uncaught NullPointerException and leaves the context untouched (`Completion.Propagated`).
- `DownloadFile` and `ReadFile` pass `ifModifiedSince` and `ifNoneMatch` to `getRequestConditions` in swapped order. The entity tag therefore goes through the date parser.
- `FlushFile` unboxes an optional `fileLength`. When it is missing the result is GENERAL_ERROR.
- `ListFileSystems` unboxes the optional `retrieveDeleted` and `retrieveMetadata`. When either is missing the result is TIMEOUT_ERROR.

## Model

| member | source | states |
|---|---|---|
| Errors.DeclaredTableHasNineEntries | src/main/java/org/wso2/carbon/connector/util/Error.java:26-34 | there are exactly nine declared entries |
| Errors.DeclaredCode | src/main/java/org/wso2/carbon/connector/util/Error.java:26-34 | the entries carry the codes 700701 to 700709, in declaration order |
| Errors.DeclaredMessage | src/main/java/org/wso2/carbon/connector/util/Error.java:26-34 | each message is "MS_AZURE_DATALAKE_GEN2:" followed by the entry's own name |
| Errors.DeclaredCodesDistinct | src/main/java/org/wso2/carbon/connector/util/Error.java:26-34 | no two declared entries share a code |
| Errors.DeclaredMessagesDistinct | src/main/java/org/wso2/carbon/connector/util/Error.java:26-34 | no two declared entries share a message |
| Errors.Code | src/main/java/org/wso2/carbon/connector/util/Error.java:36-59 | the code of a declared entry is its table code; each of the three undeclared entries has its own symbolic code |
| Errors.Message | src/main/java/org/wso2/carbon/connector/util/Error.java:36-59 | the message of a declared entry is its table message; each of the three undeclared entries has its own symbolic message |
| Common.IsNotBlank | src/main/java/org/wso2/carbon/connector/connection/ConnectionConfiguration.java:45 | `StringUtils.isNotBlank`: a text that passes is non-null and non-empty; an all-whitespace text fails; a text starting with a non-whitespace character passes |
| Common.Utf16Length | src/main/java/org/wso2/carbon/connector/operations/AppendFile.java:98 | `String.length()` counts UTF-16 units: between one and two per character, and exactly one per character when all lie in the Basic Multilingual Plane |
| Common.WrapLong | src/main/java/org/wso2/carbon/connector/operations/FlushFile.java:89 | a `long` sum: the result is a `long`, equal to the exact value when that fits, and otherwise off from it by a multiple of 2^64 |
| Errors.FirstCatch | src/main/java/org/wso2/carbon/connector/operations/UploadFile.java:142-152 | nothing is chosen exactly when the exception is an instance of no clause's class |
| Errors.FirstCatchIsFirstMatch | src/main/java/org/wso2/carbon/connector/operations/UploadFile.java:142-152 | the error chosen is that of a clause the exception is an instance of, and of no earlier clause it is an instance of |
| Configuration.ConnectionConfiguration.SetConnectionName | src/main/java/org/wso2/carbon/connector/connection/ConnectionConfiguration.java:43-50 | a name that is not blank is stored; a null, empty or whitespace-only name is refused with "Mandatory parameter 'connectionName' is not set." and the stored settings stay unchanged |
| Configuration.ConnectionConfiguration.SetAccountName | src/main/java/org/wso2/carbon/connector/connection/ConnectionConfiguration.java:57-60 | stores its argument, null included, and no other field changes |
| Configuration.ConnectionConfiguration.SetAccountKey | src/main/java/org/wso2/carbon/connector/connection/ConnectionConfiguration.java:67-70 | stores its argument, null included, and no other field changes |
| Configuration.ConnectionConfiguration.SetClientId | src/main/java/org/wso2/carbon/connector/connection/ConnectionConfiguration.java:77-80 | stores its argument, null included, and no other field changes |
| Configuration.ConnectionConfiguration.SetClientSecret | src/main/java/org/wso2/carbon/connector/connection/ConnectionConfiguration.java:87-90 | stores its argument, null included, and no other field changes |
| Configuration.ConnectionConfiguration.SetTenantId | src/main/java/org/wso2/carbon/connector/connection/ConnectionConfiguration.java:97-100 | stores its argument, null included, and no other field changes |
| Configuration.ConnectionConfiguration.SetEndpointProtocol | src/main/java/org/wso2/carbon/connector/connection/ConnectionConfiguration.java:107-110 | stores its argument, null included, and no other field changes |
| Configuration.ConnectionConfiguration.SetSasToken | src/main/java/org/wso2/carbon/connector/connection/ConnectionConfiguration.java:116-118 | stores its argument, null included, and no other field changes |
| Configuration.ConnectionConfiguration.constructor | src/main/java/org/wso2/carbon/connector/connection/ConnectionConfiguration.java:27-36 | a new configuration has all eight settings null |
| Configuration.WhitespaceNameIsBlank | src/main/java/org/wso2/carbon/connector/connection/ConnectionConfiguration.java:45 | a whitespace-only name is not empty, yet is blank and so refused |
| Connection.CreateClient | src/main/java/org/wso2/carbon/connector/connection/AzureStorageConnectionHandler.java:64-94 | OAuth2 is chosen exactly when client id, secret, tenant and account name are all non-empty, with endpoint "https://"+account+".dfs.core.windows.net"; the account key is chosen exactly when OAuth2 is not and account name and key are non-empty, with the storage connection string; otherwise the build fails with "Missing authentication parameters." |
| Connection.OAuth2HasPriority | src/main/java/org/wso2/carbon/connector/connection/AzureStorageConnectionHandler.java:73-86 | with both OAuth2 credentials and an account key present, the OAuth2 client is built |
| Connection.ClientIgnoresSasTokenAndName | src/main/java/org/wso2/carbon/connector/connection/AzureStorageConnectionHandler.java:64-94 | changing the SAS token or the connection name never changes the client built |
| Connection.ProtocolIsNotChecked | src/main/java/org/wso2/carbon/connector/connection/AzureStorageConnectionHandler.java:86-90 | a missing endpoint protocol is not rejected: the connection string carries the text "null" |
| Connection.AzureStorageConnectionHandler.constructor | src/main/java/org/wso2/carbon/connector/connection/AzureStorageConnectionHandler.java:38-40 | a new handler holds the given configuration and no client |
| Connection.AzureStorageConnectionHandler.GetDataLakeServiceClient | src/main/java/org/wso2/carbon/connector/connection/AzureStorageConnectionHandler.java:45-51 | a cached client is returned unchanged; without one, the client is built from the current configuration and cached only when the build succeeds |
| Connection.AzureStorageConnectionHandler.SetConnectionConfig | src/main/java/org/wso2/carbon/connector/connection/AzureStorageConnectionHandler.java:58-62 | the new configuration is always stored; a successful rebuild caches the new client, and a failed one keeps the old client and reports the build error |
| Connection.GetClientTwice | src/main/java/org/wso2/carbon/connector/connection/AzureStorageConnectionHandler.java:47-50 | two calls in a row return the same result, so the client is built at most once |
| Registry.ConnectionRegistry.CreateConnection | src/main/java/org/wso2/carbon/connector/operations/AzureConfig.java:69 | the handler is registered under (connector, name); every other key keeps its handler |
| Registry.ConnectionRegistry.ShutdownConnections | src/main/java/org/wso2/carbon/connector/operations/AzureConfig.java:47-48 | every connection of the connector is dropped, every other one is kept, and no handler ends up under two keys |
| AzureConfig.SettingsFromParameters | src/main/java/org/wso2/carbon/connector/operations/AzureConfig.java:94-120 | each of the eight settings is the template parameter of its name, looked up as it is |
| AzureConfig.GetConnectionConfigFromContext | src/main/java/org/wso2/carbon/connector/operations/AzureConfig.java:91-121 | succeeds exactly when the name is not blank, with a fresh configuration holding exactly the eight looked-up parameters; otherwise fails with the connection-name message |
| AzureConfig.ConnectCatchesTable | src/main/java/org/wso2/carbon/connector/operations/AzureConfig.java:71-80 | a ConnectException, the configuration exception included, is a CONNECTION_ERROR; any other exception a GENERAL_ERROR |
| AzureConfig.RecordConnectError | src/main/java/org/wso2/carbon/connector/operations/AzureConfig.java:71-80 | ERROR_CODE and ERROR_MESSAGE are set from the chosen entry, nothing else in the context changes, and the operation throws |
| AzureConfig.Reconfigure | src/main/java/org/wso2/carbon/connector/operations/AzureConfig.java:61-65 | the handler holds the new configuration; a successful rebuild stores the new client and leaves the context alone, a failed one keeps the old client and records CONNECTION_ERROR |
| AzureConfig.Register | src/main/java/org/wso2/carbon/connector/operations/AzureConfig.java:66-70 | a fresh handler, holding the configuration and no client, is registered under the key; every other key is kept |
| AzureConfig.Connect | src/main/java/org/wso2/carbon/connector/operations/AzureConfig.java:52-82 | a blank name records CONNECTION_ERROR before the registry is touched; an unknown name gets a fresh handler with the fresh configuration and no client; a known name is always reconfigured, building the client or recording CONNECTION_ERROR and keeping the old client; other connections are untouched |
| AzureConfig.Destroy | src/main/java/org/wso2/carbon/connector/operations/AzureConfig.java:45-49 | no "azureDataLake" connection remains, and connections of other connectors are kept |
| Mediator.ParseInt | src/main/java/org/wso2/carbon/connector/util/AbstractAzureMediator.java:43-56 | `Integer.valueOf`: an accepted text is an optional sign followed by one or more ASCII digits (a bare sign is refused), and its value is an `int` |
| Mediator.ParseIntRoundTrip | src/main/java/org/wso2/carbon/connector/util/AbstractAzureMediator.java:43-56 | every `int`'s decimal text parses back to it |
| Mediator.ParseIntOfDigits | src/main/java/org/wso2/carbon/connector/util/AbstractAzureMediator.java:43-56 | any digit string is accepted with its value when that value fits; a leading "+" changes nothing and a leading "-" negates, again exactly when the result fits, so "+5" reads as 5 and "-0" as 0 |
| Mediator.ParseIntIgnoresLeadingZeros | src/main/java/org/wso2/carbon/connector/util/AbstractAzureMediator.java:43-56 | a leading zero is accepted and ignored, with or without a sign, so "007" reads as 7 |
| Mediator.ParseIntRejectsOverflow | src/main/java/org/wso2/carbon/connector/util/AbstractAzureMediator.java:43-56 | the text of a number outside the `int` range is refused |
| Mediator.ParseBooleanRoundTrip | src/main/java/org/wso2/carbon/connector/util/AbstractAzureMediator.java:43-56 | `Boolean.valueOf` reads the text of each Boolean back as it; a text read as true has four letters, from "t" to "e" in any case |
| Mediator.ParseBoolean | src/main/java/org/wso2/carbon/connector/util/AbstractAzureMediator.java:50 | `Boolean.valueOf`: true exactly for the four letters t, r, u, e, each in either case |
| Mediator.Parse | src/main/java/org/wso2/carbon/connector/util/AbstractAzureMediator.java:43-56 | String values are returned unchanged; Integer succeeds exactly when the text is an `int`; any other type is refused; a result always has the requested type |
| Mediator.ReadValue | src/main/java/org/wso2/carbon/connector/util/AbstractAzureMediator.java:86-127 | be it parameter or property: a missing or empty required value is an error naming it; a missing or empty optional one is null and is not parsed; a present one is its parsed form, or "... is not of type <type>" |
| Mediator.GetMediatorParameter | src/main/java/org/wso2/carbon/connector/util/AbstractAzureMediator.java:86-106 | the template-parameter reading of the three-way rule |
| Mediator.GetProperty | src/main/java/org/wso2/carbon/connector/util/AbstractAzureMediator.java:108-127 | the context-property reading of the three-way rule |
| Mediator.ConnectArguments | src/main/java/org/wso2/carbon/connector/util/AbstractAzureMediator.java:76-84 | `connect` goes on exactly when responseVariable and overwriteBody are both given, and otherwise names the first missing one |
| Mediator.StorageConnectionString | src/main/java/org/wso2/carbon/connector/util/AbstractAzureMediator.java:66-71 | "DefaultEndpointsProtocol=" + protocol + ";AccountName=" + name + ";AccountKey=" + key, with null written as "null" |
| Mediator.StorageConnectionStringFields | src/main/java/org/wso2/carbon/connector/util/AbstractAzureMediator.java:66-71 | the three values can be read back from the string between its fixed separators |
| Mediator.GetLeaseAction | src/main/java/org/wso2/carbon/connector/util/AbstractAzureMediator.java:217-237 | the four lease texts name an action, any other text yields null, and a null text throws NullPointerException |
| Mediator.LeaseActionsDistinct | src/main/java/org/wso2/carbon/connector/util/AbstractAzureMediator.java:217-237 | the four lease texts map to four different actions |
| Mediator.GetRequestConditions | src/main/java/org/wso2/carbon/connector/util/AbstractAzureMediator.java:139-148 | lease id and entity tags pass through unchanged; the two date slots go through the date parser, and text it refuses throws DateTimeParseException |
| Mediator.MebibytesToBytes | src/main/java/org/wso2/carbon/connector/operations/UploadFile.java:80-82 | the 64-bit product by 1048576 equals the exact product for every `int`, so it never wraps |
| Mediator.RangeOf | src/main/java/org/wso2/carbon/connector/operations/DownloadFile.java:97-104 | no offset gives no range; an offset alone gives an open range from it; an offset and a count give exactly that range |
| Mediator.ResponseFor | src/main/java/org/wso2/carbon/connector/util/AbstractAzureMediator.java:155-196 | null headers and attributes become empty maps, a null payload an empty object, and the payload is attached only when overwriteBody is not true |
| Mediator.Responded | src/main/java/org/wso2/carbon/connector/util/AbstractAzureMediator.java:150-197 | the response is always stored under responseVariable; with overwriteBody true, the body and both content-type properties are set to JSON; the properties are unchanged |
| Mediator.HandleConnectorResponse | src/main/java/org/wso2/carbon/connector/util/AbstractAzureMediator.java:150-197 | the context becomes `Responded` of the old one |
| Mediator.ErrorRaised | src/main/java/org/wso2/carbon/connector/util/AbstractAzureMediator.java:199-215 | ERROR_CODE and ERROR_MESSAGE hold the entry's code and message, and nothing else changes |
| Mediator.HandleConnectorException | src/main/java/org/wso2/carbon/connector/util/AbstractAzureMediator.java:199-206 | the two error properties are set, and the operation always ends by throwing with the cause |
| Mediator.HandleConnectorExceptionWithoutCause | src/main/java/org/wso2/carbon/connector/util/AbstractAzureMediator.java:208-215 | the two error properties are set, and the operation always ends by throwing without a cause |
| Mediator.Conclusion | src/main/java/org/wso2/carbon/connector/operations/ReadFile.java:99-119 | a response leaves the context exactly as `Responded` gives it, so only the response variable, body and content types change; no response changes nothing; a caught exception records its entry and throws; an uncaught one leaves the context as it was |
| Mediator.Conclude | src/main/java/org/wso2/carbon/connector/operations/ReadFile.java:99-119 | the context and the completion become exactly those `Conclusion` gives for the old context |
| Utils.RemoveQuotes | src/main/java/org/wso2/carbon/connector/util/Utils.java:49 | no single quote remains, and the text does not grow |
| Utils.RemoveQuotesKeepsQuoteFreeText | src/main/java/org/wso2/carbon/connector/util/Utils.java:49 | text without quotes is unchanged |
| Utils.RemoveQuotesIdempotent | src/main/java/org/wso2/carbon/connector/util/Utils.java:49 | removing quotes twice is the same as once |
| Utils.RemoveQuotesKeepsOtherCharacters | src/main/java/org/wso2/carbon/connector/util/Utils.java:49 | every other character is kept as many times as it occurs |
| Utils.StringMap.Put | src/main/java/org/wso2/carbon/connector/util/Utils.java:52 | `HashMap.put`: one key takes the value, and every other entry stays |
| Utils.Merged | src/main/java/org/wso2/carbon/connector/util/Utils.java:50-54 | the loop's result keeps every key of the target and adds only keys of parsed entries |
| Utils.MergedKeys | src/main/java/org/wso2/carbon/connector/util/Utils.java:50-54 | a key ends up in the map exactly when it was there or some parsed entry with non-empty value names it |
| Utils.MergedOnlyOverwrites | src/main/java/org/wso2/carbon/connector/util/Utils.java:50-54 | an existing entry is never removed, and keeps its value unless a parsed entry overwrites it |
| Utils.MergedLastWins | src/main/java/org/wso2/carbon/connector/util/Utils.java:50-54 | a key holds the value of the last parsed non-empty entry for it |
| Utils.MergedSplit | src/main/java/org/wso2/carbon/connector/util/Utils.java:50-54 | merging a sequence is merging a prefix and then the rest |
| Utils.AddDataToMapFromJsonString | src/main/java/org/wso2/carbon/connector/util/Utils.java:45-55 | null or empty text leaves the map alone; otherwise the quote-free text is parsed: a parse that throws leaves the map as it was, and a null map throws NullPointerException before any put; otherwise the map becomes the merge of the entries before the first null value, and a null value then throws NullPointerException with those puts kept |
| Utils.NonNullPrefix | src/main/java/org/wso2/carbon/connector/util/Utils.java:50-51 | the loop reaches exactly the entries before the first null value, whose `toString` dereference stops it |
| UploadFile.ReadInputs | src/main/java/org/wso2/carbon/connector/operations/UploadFile.java:52-78 | succeeds exactly when the name property and the required parameters are given (localFilePath only for "Local File") and every integer parses |
| UploadFile.Transfer | src/main/java/org/wso2/carbon/connector/operations/UploadFile.java:80-82 | block size and maximum single-upload size are given exactly when their MiB values are, each times 1048576 |
| UploadFile.Gate | src/main/java/org/wso2/carbon/connector/operations/UploadFile.java:132-137 | only status 200 gives the payload "Successfully uploaded the file" |
| UploadFile.UploadAttempt | src/main/java/org/wso2/carbon/connector/operations/UploadFile.java:84-137 | each step (file client, metadata, file read, MD5) ends the block with its own exception when it throws; once they succeed, the local-file upload is issued exactly when only a path is given, and the text upload exactly when only a text is given, with converted sizes, headers, metadata and the timeout in seconds; with both or neither nothing is uploaded; the success payload comes exactly with status 200 |
| UploadFile.UploadCatchTable | src/main/java/org/wso2/carbon/connector/operations/UploadFile.java:142-152 | in catch order: storage, connection, no such algorithm, I/O, then anything else as GENERAL_ERROR |
| UploadFile.Execute | src/main/java/org/wso2/carbon/connector/operations/UploadFile.java:50-153 | the context and the completion follow from `ReadInputs`, `UploadAttempt` and the catch clauses |
| DownloadFile.ReadInputs | src/main/java/org/wso2/carbon/connector/operations/DownloadFile.java:50-76 | succeeds exactly when the name property, fileSystemName, filePathToDownload and downloadLocation are given and every integer parses |
| DownloadFile.Conditions | src/main/java/org/wso2/carbon/connector/operations/DownloadFile.java:94-95 | the ifModifiedSince text lands in the If-None-Match slot, and ifNoneMatch in the date-parsed If-Modified-Since slot |
| DownloadFile.EntityTagIsParsedAsDate | src/main/java/org/wso2/carbon/connector/operations/DownloadFile.java:94-95 | an entity tag that is not a date makes the download throw DateTimeParseException before any request, reported as GENERAL_ERROR |
| DownloadFile.Gate | src/main/java/org/wso2/carbon/connector/operations/DownloadFile.java:125-134 | only status 206 gives the success payload; any other status sets nothing and raises nothing |
| DownloadFile.DownloadAttempt | src/main/java/org/wso2/carbon/connector/operations/DownloadFile.java:78-134 | a failing client or date parse ends the block with its exception; otherwise the download is issued with the file system, path, location, MD5 flag, range, block size in bytes, swapped conditions, and retry options exactly when maxRetryRequests is given; a thrown download is reported, status 206 gives "Successfully downloaded the file", and any other status nothing |
| DownloadFile.DownloadCatchTable | src/main/java/org/wso2/carbon/connector/operations/DownloadFile.java:136-144 | in catch order: connection, storage, UncheckedIOException as FILE_IO_ERROR, then anything else as GENERAL_ERROR |
| DownloadFile.Execute | src/main/java/org/wso2/carbon/connector/operations/DownloadFile.java:48-145 | the context and the completion follow from `ReadInputs`, `DownloadAttempt` and the catch clauses |
| ReadFile.Read | src/main/java/org/wso2/carbon/connector/operations/ReadFile.java:50-67 | succeeds exactly when the name property and the required parameters are given and every integer parses |
| ReadFile.ContentPayload | src/main/java/org/wso2/carbon/connector/operations/ReadFile.java:99-108 | the payload holds status true, the content read, and the Content-Length header; a null header leaves the length key out |
| ReadFile.ReadAttempt | src/main/java/org/wso2/carbon/connector/operations/ReadFile.java:78-108 | a failing client or date parse ends the block with its exception; otherwise the read is issued, carrying the range, the swapped conditions, and retry options exactly when maxRetryRequests is given; a thrown read is reported, status 200 gives the content payload, and any other status nothing |
| ReadFile.ReadCatchTable | src/main/java/org/wso2/carbon/connector/operations/ReadFile.java:111-119 | in catch order: connection, storage, any other unchecked exception as TIMEOUT_ERROR, then checked exceptions as GENERAL_ERROR |
| ReadFile.Execute | src/main/java/org/wso2/carbon/connector/operations/ReadFile.java:48-120 | the context and the completion follow from `Read`, `ReadAttempt` and the catch clauses |
| AppendFile.ReadInputs | src/main/java/org/wso2/carbon/connector/operations/AppendFile.java:52-70 | inputType is required, localFilePath only for "Local File" and textContent only for "Text Content"; every integer must parse |
| AppendFile.Finish | src/main/java/org/wso2/carbon/connector/operations/AppendFile.java:111-122 | only status 202 gives a response, and its payload and its attributes carry the same appendSize |
| AppendFile.AppendAttempt | src/main/java/org/wso2/carbon/connector/operations/AppendFile.java:86-122 | each step (file client, file size, file read, MD5) ends the block with its own exception when it throws; once they succeed the append is issued at the file's current size: from the text when only a text is given, with appendSize its UTF-16 length and no proposed lease id, or from the file when only a path is given, with appendSize the file's size and proposedLeaseId forwarded; with both or neither nothing is appended and no response is set; status 202 gives the response and any other status nothing; the response's payload (status true, "Successfully appended") and its attributes carry the same appendSize |
| AppendFile.AppendCatchTable | src/main/java/org/wso2/carbon/connector/operations/AppendFile.java:128-134 | in catch order: storage, connection, then anything else as GENERAL_ERROR |
| AppendFile.Execute | src/main/java/org/wso2/carbon/connector/operations/AppendFile.java:48-136 | a missing leaseAction ends in an uncaught NullPointerException with the context untouched; otherwise the issued request, the context and the completion are those of `AppendAttempt` and the catch clauses |
| FlushFile.ReadInputs | src/main/java/org/wso2/carbon/connector/operations/FlushFile.java:46-74 | succeeds exactly when the name property, fileSystemName and filePathToFlush are given and every integer parses |
| FlushFile.FlushPosition | src/main/java/org/wso2/carbon/connector/operations/FlushFile.java:86-89 | the position is the 64-bit sum of the size before the call and fileLength, equal to the exact sum whenever that fits |
| FlushFile.FlushPositionIsExact | src/main/java/org/wso2/carbon/connector/operations/FlushFile.java:86-89 | for any file size up to 2^63-1-(2^31-1) and any `int` length, the position is the exact sum |
| FlushFile.FlushPositionWraps | src/main/java/org/wso2/carbon/connector/operations/FlushFile.java:89 | whenever a file size plus an `int` length passes the top of the `long` range, the position is the sum less 2^64, a negative value |
| FlushFile.FlushAttempt | src/main/java/org/wso2/carbon/connector/operations/FlushFile.java:83-110 | each step (file client, file size, the unboxed fileLength, the date parse) ends the block with its own exception when it fails; once they succeed the flush is issued at the 64-bit position, always closing, with the conditions in declared order; a thrown flush is reported, status 200 gives the success payload, and any other status nothing |
| FlushFile.MissingLengthIsGeneralError | src/main/java/org/wso2/carbon/connector/operations/FlushFile.java:68-89 | a missing fileLength records GENERAL_ERROR with a NullPointerException cause, and nothing is flushed |
| FlushFile.FlushCatchTable | src/main/java/org/wso2/carbon/connector/operations/FlushFile.java:116-123 | in catch order: storage, connection, then anything else as GENERAL_ERROR |
| FlushFile.Execute | src/main/java/org/wso2/carbon/connector/operations/FlushFile.java:42-125 | a missing leaseAction ends in an uncaught NullPointerException with the context untouched; otherwise the result is that of `FlushAttempt` and the catch clauses |
| ListFileSystems.ReadInputs | src/main/java/org/wso2/carbon/connector/operations/ListFileSystems.java:47-58 | succeeds exactly when the name property is given and timeout and maxResultsPerPage parse |
| ListFileSystems.WithMetadata | src/main/java/org/wso2/carbon/connector/operations/ListFileSystems.java:79-82 | the map's keys are exactly the listed names |
| ListFileSystems.WithMetadataOfDistinctNames | src/main/java/org/wso2/carbon/connector/operations/ListFileSystems.java:79-82 | with distinct names, each name maps to its own metadata, and null metadata to an empty map |
| ListFileSystems.WithMetadataLastWins | src/main/java/org/wso2/carbon/connector/operations/ListFileSystems.java:79-82 | a name listed more than once maps to the metadata of its last listing, null becoming an empty map |
| ListFileSystems.Names | src/main/java/org/wso2/carbon/connector/operations/ListFileSystems.java:83 | the list holds every name, in listing order |
| ListFileSystems.ServiceClient | src/main/java/org/wso2/carbon/connector/connection/AzureStorageConnectionHandler.java:45-51 | the cached client, or one built now; a failed build throws the configuration exception |
| ListFileSystems.ListAttempt | src/main/java/org/wso2/carbon/connector/operations/ListFileSystems.java:66-89 | a failed client lookup or a missing Boolean detail lists nothing; with a client and both details the listing is requested with the options; a failure during the listing throws that exception; otherwise the payload is the names array in listing order, or the object mapping each listed name to its metadata (`WithMetadata`) |
| ListFileSystems.ListCatchTable | src/main/java/org/wso2/carbon/connector/operations/ListFileSystems.java:91-96 | in catch order: connection, storage, any other unchecked exception as TIMEOUT_ERROR; a checked exception is not caught |
| ListFileSystems.UnknownConnectionIsTimeoutError | src/main/java/org/wso2/carbon/connector/operations/ListFileSystems.java:67-70 | when the registry yields null for an unregistered name, dereferencing it records TIMEOUT_ERROR and nothing is listed |
| ListFileSystems.MissingDetailIsTimeoutError | src/main/java/org/wso2/carbon/connector/operations/ListFileSystems.java:72-75 | a missing retrieveDeleted or retrieveMetadata is unboxed before listing, and TIMEOUT_ERROR is recorded |
| ListFileSystems.LookUpClient | src/main/java/org/wso2/carbon/connector/operations/ListFileSystems.java:67-70 | an unregistered key is a null dereference; a registered handler yields its cached client or builds and caches one; no other handler's client changes |
| ListFileSystems.Collect | src/main/java/org/wso2/carbon/connector/operations/ListFileSystems.java:77-86 | with metadata requested the map is `WithMetadata` of the listing and the name list stays empty; otherwise the name list is `Names` of the listing and the map stays empty |
| ListFileSystems.TryList | src/main/java/org/wso2/carbon/connector/operations/ListFileSystems.java:66-90 | the result and the request issued are those of `ListAttempt` |
| ListFileSystems.Execute | src/main/java/org/wso2/carbon/connector/operations/ListFileSystems.java:45-99 | the loop fills one accumulator, and the result equals `ListAttempt` for the client the registered handler yields; that handler caches a successfully built client and no other handler changes |

## Left out

- The remaining operations (CreateDirectory, CreateFileSystem, DeleteDirectory, DeletePath, DeleteFile, DeleteFileSystem, RenamePath, RenameFile, UpdateMetadata, ListPaths, GetMetadata, ListOfFileSystems, ListPathsOfFileSystem) and the XML result-payload code: each is one SDK call and one status check, with nothing beyond the shared mediator logic modelled here.
- `AzureConfig.init`: it does nothing, so it has no model.
- The Azure SDK, the client builders and the storage service: these are oracles passed in as parameters. FileRange, retry and transfer options are passed through, and any validation the SDK does on them is not modelled.
- File I/O, MD5 digests (`MessageDigest`), `Files.size` and `Paths.get`: oracles. The platform encoding used by `getBytes` is not modelled, and the bytes read by ReadFile are taken as the decoded text of its output stream.
- `OffsetDateTime.parse`: a predicate parameter saying which texts parse.
- `InlineExpressionUtil.processInLineSynapseExpressionTemplate` is Synapse expression evaluation. It is taken as the identity on the parameter text.
- Utils.AddDataToMapFromJsonString: the `toString` text of a non-null JSON value is supplied by the parse parameter. Gson reads a number as a double, so 5 becomes "5.0", and that rendering is not modelled.
- Gson and org.json: JSON text rendering and parsing are abstracted. The model takes a payload to be the JSON object the code builds, and does not model how `Utils.toJson` (Gson over an org.json `JSONObject`) actually renders it, which may wrap the entries. `JsonUtil.getNewJsonPayload` is modelled as storing that object as the body. Its AxisFault path, which goes through `handleException`, is not modelled.
- Mediator.Parse: the Double branch is floating point and is left uninterpreted (its text is kept). `Integer.valueOf` is modelled for ASCII digits only, without non-ASCII Unicode digits.
- The runtime's `ConnectionHandler` registry is reduced to a map. Closing a connection on shutdown is not modelled.
- ListFileSystems.LookUpClient: `ConnectionHandler.getConnection` is external; it is assumed to return null for a name nothing is registered under. If it threw ConnectException instead, that case would end as CONNECTION_ERROR rather than the TIMEOUT_ERROR of `ListFileSystems.UnknownConnectionIsTimeoutError`.
- Errors.InstanceOf: InvalidConfigurationException is not part of this model; it is assumed to be a ConnectException, since `getDataLakeServiceClient` declares only `throws ConnectException`. If it were unchecked instead, a failed client build would be reported as GENERAL_ERROR by `AzureConfig.connect` and as TIMEOUT_ERROR by `ListFileSystems` and `ReadFile`, instead of CONNECTION_ERROR.
- AzureConfig.Connect: the GENERAL_ERROR clause of `connect` cannot be reached in the model, because the client build throws only the configuration exception and builder failures are not modelled.
- Logging and concurrency are not modelled.
