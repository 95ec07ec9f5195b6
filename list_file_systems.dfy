/**
 * `ListFileSystems`: lists the file systems of the account of a registered
 * connection, as a list of names or as a map from name to metadata.
 */
module ListFileSystems {

  import opened Common
  import opened Errors
  import opened Synapse
  import opened Configuration
  import opened Connection
  import opened Registry
  import opened Mediator
  import AzureConfig

  /** The values `execute` reads before its `try` block. */
  datatype ListInputs = ListInputs(
    connectionName: string,
    prefix: Option<string>,
    timeout: Option<int>,
    maxResultsPerPage: Option<int>,
    retrieveDeleted: Option<bool>,
    retrieveMetadata: Option<bool>)

  /** One `FileSystemItem`: its name and its metadata, which may be null. */
  datatype FileSystemItem = FileSystemItem(name: string, metadata: Option<map<string, string>>)

  /** `listFileSystems` on a service client, with its options. */
  datatype ListRequest = ListRequest(
    client: DataLakeServiceClient,
    prefix: Option<string>,
    maxResultsPerPage: Option<int>,
    retrieveDeleted: bool,
    retrieveMetadata: bool,
    timeoutSeconds: Option<int>)

  /**
   * What iterating the paged listing yields: the items delivered, in order,
   * and the exception thrown after the last of them, if one was.
   */
  datatype Listing = Listing(items: seq<FileSystemItem>, failure: Option<Thrown>)

  /** The parameter reads, in the order `execute` makes them; the first failure is reported. */
  function ReadInputs(parameters: map<string, string>, properties: map<string, string>)
    : (r: Result<ListInputs, string>)
    ensures r.Success? <==>
              && "name" in properties && properties["name"] != ""
              && IntAccepted(parameters, "timeout") && IntAccepted(parameters, "maxResultsPerPage")
    ensures r.Success? ==>
              && r.value.connectionName == properties["name"]
              && r.value.retrieveDeleted == OptionalBool(parameters, "retrieveDeleted")
              && r.value.retrieveMetadata == OptionalBool(parameters, "retrieveMetadata")
              && IsOptionalInt(r.value.maxResultsPerPage)
  {
    var connectionName :- ConnectionNameProperty(properties);
    var prefix := OptionalString(parameters, "prefix");
    var timeout :- OptionalInt(parameters, "timeout");
    var maxResultsPerPage :- OptionalInt(parameters, "maxResultsPerPage");
    var retrieveDeleted := OptionalBool(parameters, "retrieveDeleted");
    var retrieveMetadata := OptionalBool(parameters, "retrieveMetadata");
    Success(ListInputs(connectionName, prefix, timeout, maxResultsPerPage, retrieveDeleted, retrieveMetadata))
  }

  /** The metadata stored for an item: its own, or an empty map when it has none. */
  function MetadataOrEmpty(item: FileSystemItem): (m: map<string, string>)
    ensures item.metadata.Some? ==> m == item.metadata.value
    ensures item.metadata.None? ==> m == map[]
  {
    if item.metadata.Some? then item.metadata.value else map[]
  }

  /** `fileSystemsWithMetadata` after the loop: each item put in order, so a repeated name keeps its last metadata. */
  function WithMetadata(items: seq<FileSystemItem>): (m: map<string, map<string, string>>)
    ensures m.Keys == set i | 0 <= i < |items| :: items[i].name
    decreases |items|
  {
    if items == [] then map[]
    else
      var init := items[..|items| - 1];
      var last := items[|items| - 1];
      assert forall i :: 0 <= i < |init| ==> init[i] == items[i];
      WithMetadata(init)[last.name := MetadataOrEmpty(last)]
  }

  /** `fileSystemNames` after the loop: every name, in listing order, repeats included. */
  function Names(items: seq<FileSystemItem>): (names: seq<string>)
    ensures |names| == |items|
    ensures forall i :: 0 <= i < |items| ==> names[i] == items[i].name
    decreases |items|
  {
    if items == [] then []
    else Names(items[..|items| - 1]) + [items[|items| - 1].name]
  }

  /** When no name is listed twice, every file system maps to exactly its own metadata. */
  lemma {:induction false} WithMetadataOfDistinctNames(items: seq<FileSystemItem>, j: int)
    requires forall i, k :: 0 <= i < k < |items| ==> items[i].name != items[k].name
    requires 0 <= j < |items|
    ensures items[j].name in WithMetadata(items) && WithMetadata(items)[items[j].name] == MetadataOrEmpty(items[j])
    decreases |items|
  {
    if j < |items| - 1 {
      var init := items[..|items| - 1];
      assert forall i :: 0 <= i < |init| ==> init[i] == items[i];
      WithMetadataOfDistinctNames(init, j);
      assert items[j].name != items[|items| - 1].name;
    }
  }

  /**
   * A name listed more than once keeps the metadata of its last listing: the
   * item at `j` decides its name's entry when no later item has that name.
   */
  lemma {:induction false} WithMetadataLastWins(items: seq<FileSystemItem>, j: int)
    requires 0 <= j < |items|
    requires forall k :: j < k < |items| ==> items[k].name != items[j].name
    ensures items[j].name in WithMetadata(items) && WithMetadata(items)[items[j].name] == MetadataOrEmpty(items[j])
    decreases |items|
  {
    if j < |items| - 1 {
      var init := items[..|items| - 1];
      assert forall i :: 0 <= i < |init| ==> init[i] == items[i];
      WithMetadataLastWins(init, j);
    }
  }

  /** A metadata map as a JSON object of strings. */
  function StringMapJson(m: map<string, string>): (j: Json)
    ensures j.JObject? && j.fields.Keys == m.Keys
    ensures forall k :: k in m ==> j.fields[k] == JString(m[k])
  {
    JObject(map k | k in m :: JString(m[k]))
  }

  /** The map payload: each name to its metadata object. */
  function MetadataJson(m: map<string, map<string, string>>): (j: Json)
    ensures j.JObject? && j.fields.Keys == m.Keys
    ensures forall k :: k in m ==> j.fields[k] == StringMapJson(m[k])
  {
    JObject(map k | k in m :: StringMapJson(m[k]))
  }

  /** The list payload: a JSON array of the names, in order. */
  function NamesJson(names: seq<string>): (j: Json)
    ensures j.JArray? && |j.items| == |names|
    ensures forall i :: 0 <= i < |names| ==> j.items[i] == JString(names[i])
  {
    JArray(seq(|names|, i requires 0 <= i < |names| => JString(names[i])))
  }

  /** What `getDataLakeServiceClient` hands back: the cached client, or one built now; a failed build throws. */
  function ServiceClient(cached: Option<DataLakeServiceClient>, settings: CredentialSettings)
    : (r: Result<DataLakeServiceClient, Thrown>)
    ensures cached.Some? ==> r == Success(cached.value)
    ensures cached.None? && CreateClient(settings).Success? ==> r == Success(CreateClient(settings).value)
    ensures cached.None? && CreateClient(settings).Failure? ==> r == Failure(InvalidConfigurationEx)
  {
    if cached.Some? then Success(cached.value)
    else if CreateClient(settings).Success? then Success(CreateClient(settings).value)
    else Failure(InvalidConfigurationEx)
  }

  /**
   * The `try` block of `execute` as a value, given the client the
   * registered handler yields (a missing handler is a null reference). The
   * two Boolean details are unboxed, so a missing one throws
   * NullPointerException before anything is listed.
   */
  function ListAttempt(inputs: ListInputs, client: Result<DataLakeServiceClient, Thrown>,
                       list: ListRequest -> Listing)
    : (a: Attempt<ListRequest>)
    ensures client.Failure? ==> a == Attempt(None, Interrupted(client.error))
    ensures client.Success? && (inputs.retrieveDeleted.None? || inputs.retrieveMetadata.None?) ==>
              a == Attempt(None, Interrupted(NullPointer))
    ensures a.issued.Some? ==>
              a.issued.value == ListRequest(client.value, inputs.prefix, inputs.maxResultsPerPage,
                                            inputs.retrieveDeleted.value, inputs.retrieveMetadata.value, inputs.timeout)
    ensures client.Success? && inputs.retrieveDeleted.Some? && inputs.retrieveMetadata.Some? ==> a.issued.Some?
    ensures a.result.Respond? <==> a.issued.Some? && list(a.issued.value).failure.None?
    ensures a.issued.Some? && list(a.issued.value).failure.Some? ==>
              a.result == Interrupted(list(a.issued.value).failure.value)
    ensures a.result.Respond? ==> a.result.attributes.None?
    ensures a.result.Respond? && !a.issued.value.retrieveMetadata ==>
              var items := list(a.issued.value).items;
              && a.result.payload == NamesJson(Names(items))
              && a.result.payload.JArray? && |a.result.payload.items| == |items|
              && forall i :: 0 <= i < |items| ==> a.result.payload.items[i] == JString(items[i].name)
    ensures a.result.Respond? && a.issued.value.retrieveMetadata ==>
              var items := list(a.issued.value).items;
              && a.result.payload == MetadataJson(WithMetadata(items))
              && a.result.payload.JObject?
              && a.result.payload.fields.Keys == set i | 0 <= i < |items| :: items[i].name
  {
    if client.Failure? then Attempt(None, Interrupted(client.error))
    else if inputs.retrieveDeleted.None? || inputs.retrieveMetadata.None? then Attempt(None, Interrupted(NullPointer))
    else
      var request := ListRequest(client.value, inputs.prefix, inputs.maxResultsPerPage, inputs.retrieveDeleted.value,
                                 inputs.retrieveMetadata.value, inputs.timeout);
      var listing := list(request);
      if listing.failure.Some? then Attempt(Some(request), Interrupted(listing.failure.value))
      else if request.retrieveMetadata then Attempt(Some(request), Respond(MetadataJson(WithMetadata(listing.items)), None))
      else Attempt(Some(request), Respond(NamesJson(Names(listing.items)), None))
  }

  /** The catch clauses of `execute`, in order. */
  const ListCatches: seq<CatchClause> := [
    CatchClause(ConnectException, ConnectionError),
    CatchClause(DataLakeStorageException, DataLakeStorageGen2Error),
    CatchClause(RuntimeException, TimeoutError)]

  /**
   * Connection errors, storage errors, and every other unchecked exception
   * reported as a timeout; a checked exception other than ConnectException
   * is not caught.
   */
  lemma ListCatchTable(t: Thrown)
    ensures FirstCatch(ListCatches, t)
            == if t.Connect? || t.InvalidConfigurationEx? then Some(ConnectionError)
               else if t.DataLakeStorage? then Some(DataLakeStorageGen2Error)
               else if IsUnchecked(t) then Some(TimeoutError)
               else None
  {
  }

  /** A connection name nothing is registered under ends in a timeout error, with nothing listed. */
  lemma UnknownConnectionIsTimeoutError(inputs: ListInputs, list: ListRequest -> Listing, s: ContextState,
                                        responseVariable: string, overwriteBody: bool, u: Undeclared)
    ensures var a := ListAttempt(inputs, Failure(NullPointer), list);
      && a.issued.None?
      && Conclusion(s, responseVariable, overwriteBody, a.result, ListCatches, u)
         == (ErrorRaised(s, TimeoutError, u), Raised(TimeoutError, Some(NullPointer)))
  {
    ListCatchTable(NullPointer);
  }

  /**
   * A missing `retrieveDeleted` or `retrieveMetadata` is unboxed before the
   * listing starts: nothing is listed and a timeout error is recorded.
   */
  lemma MissingDetailIsTimeoutError(inputs: ListInputs, client: DataLakeServiceClient, list: ListRequest -> Listing,
                                    s: ContextState, responseVariable: string, overwriteBody: bool, u: Undeclared)
    requires inputs.retrieveDeleted.None? || inputs.retrieveMetadata.None?
    ensures var a := ListAttempt(inputs, Success(client), list);
      && a.issued.None?
      && Conclusion(s, responseVariable, overwriteBody, a.result, ListCatches, u)
         == (ErrorRaised(s, TimeoutError, u), Raised(TimeoutError, Some(NullPointer)))
  {
    ListCatchTable(NullPointer);
  }

  /** The registry key of the connection an operation names. */
  function KeyOf(inputs: ListInputs): (k: ConnectionKey)
    ensures k.connector == AzureConfig.CONNECTOR_NAME && k.name == inputs.connectionName
  {
    ConnectionKey(AzureConfig.CONNECTOR_NAME, inputs.connectionName)
  }

  /**
   * `getConnection` followed by `getDataLakeServiceClient`: a missing handler
   * is a null reference; a registered one builds its client on first use and
   * keeps it.
   */
  method LookUpClient(registry: ConnectionRegistry, key: ConnectionKey)
    returns (client: Result<DataLakeServiceClient, Thrown>)
    requires registry.Valid()
    modifies registry.connections.Values
    ensures key !in registry.connections ==> client == Failure(NullPointer)
    ensures key in registry.connections ==>
              var h := registry.connections[key];
              && client == ServiceClient(old(h.dataLakeServiceClient), h.connectionConfig.Settings())
              && h.dataLakeServiceClient == (if client.Success? then Some(client.value) else None)
    ensures forall k :: k in registry.connections && k != key ==>
              registry.connections[k].dataLakeServiceClient == old(registry.connections[k].dataLakeServiceClient)
  {
    if key !in registry.connections {
      return Failure(NullPointer);
    }
    var handler := registry.connections[key];
    var built := handler.GetDataLakeServiceClient();
    client := if built.Success? then Success(built.value) else Failure(InvalidConfigurationEx);
  }

  /**
   * The `forEach` of `execute`: each listed file system is put into the
   * metadata map or added to the name list, and only one of the two is filled.
   */
  method Collect(items: seq<FileSystemItem>, retrieveMetadata: bool)
    returns (fileSystemsWithMetadata: map<string, map<string, string>>, fileSystemNames: seq<string>)
    ensures retrieveMetadata ==> fileSystemsWithMetadata == WithMetadata(items) && fileSystemNames == []
    ensures !retrieveMetadata ==> fileSystemNames == Names(items) && fileSystemsWithMetadata == map[]
  {
    fileSystemsWithMetadata := map[];
    fileSystemNames := [];
    var i := 0;
    while i < |items|
      invariant 0 <= i <= |items|
      invariant retrieveMetadata ==> fileSystemsWithMetadata == WithMetadata(items[..i]) && fileSystemNames == []
      invariant !retrieveMetadata ==> fileSystemNames == Names(items[..i]) && fileSystemsWithMetadata == map[]
    {
      assert items[..i + 1][..i] == items[..i];
      var fileSystem := items[i];
      if retrieveMetadata {
        fileSystemsWithMetadata := fileSystemsWithMetadata[fileSystem.name := MetadataOrEmpty(fileSystem)];
      } else {
        fileSystemNames := fileSystemNames + [fileSystem.name];
      }
      i := i + 1;
    }
    assert items[..i] == items;
  }

  /**
   * The `try` block after the client lookup: the options are built (the two
   * Boolean details unboxed), the listing is consumed by `Collect`, and the
   * payload is chosen by `retrieveMetadata`.
   */
  method TryList(inputs: ListInputs, client: Result<DataLakeServiceClient, Thrown>, list: ListRequest -> Listing)
    returns (result: TryResult, issued: Option<ListRequest>)
    ensures (result, issued) == (ListAttempt(inputs, client, list).result, ListAttempt(inputs, client, list).issued)
  {
    issued := None;
    if client.Failure? {
      return Interrupted(client.error), None;
    }
    if inputs.retrieveDeleted.None? || inputs.retrieveMetadata.None? {
      return Interrupted(NullPointer), None;
    }
    var retrieveMetadata := inputs.retrieveMetadata.value;
    var request := ListRequest(client.value, inputs.prefix, inputs.maxResultsPerPage, inputs.retrieveDeleted.value,
                               retrieveMetadata, inputs.timeout);
    issued := Some(request);
    var listing := list(request);
    var fileSystemsWithMetadata, fileSystemNames := Collect(listing.items, retrieveMetadata);
    if listing.failure.Some? {
      result := Interrupted(listing.failure.value);
    } else if retrieveMetadata {
      result := Respond(MetadataJson(fileSystemsWithMetadata), None);
    } else {
      result := Respond(NamesJson(fileSystemNames), None);
    }
  }

  /**
   * `execute`. The client comes from the registered handler, the `try` block
   * is `TryList`, and the response is set once, after the whole listing.
   */
  method Execute(ctx: MessageContext, registry: ConnectionRegistry, responseVariable: string, overwriteBody: bool,
                 list: ListRequest -> Listing, u: Undeclared)
    returns (c: Completion, issued: Option<ListRequest>)
    requires registry.Valid()
    modifies ctx, registry.connections.Values
    ensures ReadInputs(ctx.parameters, old(ctx.properties)).Failure? ==>
              c == Rejected(ReadInputs(ctx.parameters, old(ctx.properties)).error)
              && issued.None? && ctx.State() == old(ctx.State())
    ensures forall k :: k in registry.connections
                        && (ReadInputs(ctx.parameters, old(ctx.properties)).Failure?
                            || k != KeyOf(ReadInputs(ctx.parameters, old(ctx.properties)).value)) ==>
              registry.connections[k].dataLakeServiceClient == old(registry.connections[k].dataLakeServiceClient)
    ensures ReadInputs(ctx.parameters, old(ctx.properties)).Success? ==>
              var inputs := ReadInputs(ctx.parameters, old(ctx.properties)).value;
              KeyOf(inputs) !in registry.connections ==>
                var a := ListAttempt(inputs, Failure(NullPointer), list);
                && issued == a.issued
                && (ctx.State(), c) == Conclusion(old(ctx.State()), responseVariable, overwriteBody, a.result, ListCatches, u)
    ensures ReadInputs(ctx.parameters, old(ctx.properties)).Success? ==>
              var inputs := ReadInputs(ctx.parameters, old(ctx.properties)).value;
              KeyOf(inputs) in registry.connections ==>
                var h := registry.connections[KeyOf(inputs)];
                var client := ServiceClient(old(h.dataLakeServiceClient), h.connectionConfig.Settings());
                var a := ListAttempt(inputs, client, list);
                && h.dataLakeServiceClient == (if client.Success? then Some(client.value) else None)
                && issued == a.issued
                && (ctx.State(), c) == Conclusion(old(ctx.State()), responseVariable, overwriteBody, a.result, ListCatches, u)
  {
    var read := ReadInputs(ctx.parameters, ctx.properties);
    if read.Failure? {
      return Rejected(read.error), None;
    }
    var inputs := read.value;
    // try
    var client := LookUpClient(registry, KeyOf(inputs));
    var result;
    result, issued := TryList(inputs, client, list);
    c := Conclude(ctx, responseVariable, overwriteBody, result, ListCatches, u);
  }
}
