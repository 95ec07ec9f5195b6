/**
 * `AzureConfig`: the connector's configuration operation. It builds a
 * configuration from the template parameters, then registers a new handler
 * for the connection name or reconfigures the one already registered.
 */
module AzureConfig {

  import opened Common
  import opened Errors
  import opened Synapse
  import opened Configuration
  import opened Connection
  import opened Registry
  import opened Mediator

  const CONNECTOR_NAME: string := "azureDataLake"

  /** The configuration the eight looked-up template parameters describe. */
  function SettingsFromParameters(parameters: map<string, string>): (s: CredentialSettings)
    ensures s.connectionName == Mediator.Lookup(parameters, "name")
    ensures s.endpointProtocol == Mediator.Lookup(parameters, "defaultEndpointsProtocol")
    ensures s.accountName == Mediator.Lookup(parameters, "accountName")
    ensures s.accountKey == Mediator.Lookup(parameters, "accountKey")
    ensures s.clientId == Mediator.Lookup(parameters, "clientId")
    ensures s.clientSecret == Mediator.Lookup(parameters, "clientSecret")
    ensures s.tenantId == Mediator.Lookup(parameters, "tenantId")
    ensures s.sasToken == Mediator.Lookup(parameters, "sasToken")
  {
    CredentialSettings(
      Mediator.Lookup(parameters, "name"), Mediator.Lookup(parameters, "accountName"),
      Mediator.Lookup(parameters, "accountKey"), Mediator.Lookup(parameters, "clientId"),
      Mediator.Lookup(parameters, "clientSecret"), Mediator.Lookup(parameters, "tenantId"),
      Mediator.Lookup(parameters, "defaultEndpointsProtocol"), Mediator.Lookup(parameters, "sasToken"))
  }

  /**
   * `getConnectionConfigFromContext`: a fresh configuration filled through
   * its setters, the name first. A blank name stops it with a ConnectException.
   */
  method GetConnectionConfigFromContext(parameters: map<string, string>)
    returns (r: Result<ConnectionConfiguration, string>)
    ensures r.Success? <==> IsNotBlank(Mediator.Lookup(parameters, "name"))
    ensures r.Success? ==> fresh(r.value) && r.value.Settings() == SettingsFromParameters(parameters)
    ensures r.Failure? ==> r.error == MISSING_CONNECTION_NAME
  {
    var config := new ConnectionConfiguration();
    var named := config.SetConnectionName(Mediator.Lookup(parameters, "name"));
    if named.Fail? {
      return Failure(named.error);
    }
    config.SetAccountKey(Mediator.Lookup(parameters, "accountKey"));
    config.SetAccountName(Mediator.Lookup(parameters, "accountName"));
    config.SetEndpointProtocol(Mediator.Lookup(parameters, "defaultEndpointsProtocol"));
    config.SetClientId(Mediator.Lookup(parameters, "clientId"));
    config.SetClientSecret(Mediator.Lookup(parameters, "clientSecret"));
    config.SetTenantId(Mediator.Lookup(parameters, "tenantId"));
    config.SetSasToken(Mediator.Lookup(parameters, "sasToken"));
    r := Success(config);
  }

  /** The two catch clauses of `connect`. */
  const ConnectCatches: seq<CatchClause> := [CatchClause(ConnectException, ConnectionError), CatchClause(Exception, GeneralError)]

  /** A ConnectException (the configuration exception included) is a connection error; anything else a general one. */
  lemma ConnectCatchesTable(t: Thrown)
    ensures FirstCatch(ConnectCatches, t) == Some(if t.Connect? || t.InvalidConfigurationEx? then ConnectionError else GeneralError)
  {
    assert InstanceOf(t, ConnectCatches[1].cls);
  }

  /** The context after `connect` recorded a declared error entry. */
  function ConnectErrorRecorded(s: ContextState, e: Error): (s': ContextState)
    requires Declared(e)
    ensures s'.properties == s.properties[ERROR_CODE := DeclaredCode(e)][ERROR_MESSAGE := MessagePrefix + Name(e)]
    ensures s'.variables == s.variables && s'.jsonBody == s.jsonBody && s'.axis2Properties == s.axis2Properties
  {
    s.(properties := s.properties[ERROR_CODE := DeclaredCode(e)][ERROR_MESSAGE := DeclaredMessage(e)])
  }

  /** A catch clause of `connect`: set the two error properties, then throw. */
  method RecordConnectError(ctx: MessageContext, t: Thrown) returns (c: Completion)
    modifies ctx
    ensures var e := if t.Connect? || t.InvalidConfigurationEx? then ConnectionError else GeneralError;
      c == Raised(e, Some(t)) && ctx.State() == ConnectErrorRecorded(old(ctx.State()), e)
  {
    ConnectCatchesTable(t);
    var e := FirstCatch(ConnectCatches, t).value;
    ctx.SetProperty(ERROR_CODE, DeclaredCode(e));
    ctx.SetProperty(ERROR_MESSAGE, DeclaredMessage(e));
    c := Raised(e, Some(t));
  }

  /**
   * The branch of `connect` for a known name: the handler takes the new
   * configuration, and a rebuild that fails is recorded as a connection error.
   */
  method Reconfigure(ctx: MessageContext, handler: AzureStorageConnectionHandler, configuration: ConnectionConfiguration)
    returns (c: Completion)
    modifies ctx, handler
    ensures handler.connectionConfig == configuration
    ensures var built := CreateClient(configuration.Settings());
      && (built.Success? ==> c == Completed && ctx.State() == old(ctx.State())
                             && handler.dataLakeServiceClient == Some(built.value))
      && (built.Failure? ==> c == Raised(ConnectionError, Some(InvalidConfigurationEx))
                             && ctx.State() == ConnectErrorRecorded(old(ctx.State()), ConnectionError)
                             && handler.dataLakeServiceClient == old(handler.dataLakeServiceClient))
  {
    var rebuilt := handler.SetConnectionConfig(configuration);
    if rebuilt.Fail? {
      c := RecordConnectError(ctx, InvalidConfigurationEx);
    } else {
      c := Completed;
    }
  }

  /** The branch of `connect` for an unknown name: a new handler holding the configuration is registered. */
  method Register(registry: ConnectionRegistry, connectionName: string, configuration: ConnectionConfiguration)
    modifies registry`connections
    ensures var key := ConnectionKey(CONNECTOR_NAME, connectionName);
      && key in registry.connections && fresh(registry.connections[key])
      && registry.connections == old(registry.connections)[key := registry.connections[key]]
      && registry.connections[key].connectionConfig == configuration
      && registry.connections[key].dataLakeServiceClient.None?
  {
    var handler := new AzureStorageConnectionHandler(configuration);
    registry.CreateConnection(CONNECTOR_NAME, connectionName, handler);
  }

  /** A registry key that a `connect` with these parameters does not address. */
  predicate IsOtherConnection(parameters: map<string, string>, k: ConnectionKey) {
    !IsNotBlank(Lookup(parameters, "name")) || k != ConnectionKey(CONNECTOR_NAME, parameters["name"])
  }

  /**
   * `connect`. A blank name fails before the registry is touched. An unknown
   * name gets a new handler holding the fresh configuration. A known name is
   * always reconfigured, because the fresh configuration is never the object
   * already held and configurations compare by identity. Other connections
   * are left as they were.
   */
  method Connect(ctx: MessageContext, registry: ConnectionRegistry) returns (c: Completion)
    requires registry.Valid()
    modifies ctx, registry, registry.connections.Values
    ensures registry.Valid()
    ensures !IsNotBlank(Mediator.Lookup(ctx.parameters, "name")) ==>
              && c == Raised(ConnectionError, Some(Errors.Connect))
              && registry.connections == old(registry.connections)
              && ctx.State() == ConnectErrorRecorded(old(ctx.State()), ConnectionError)
    ensures IsNotBlank(Mediator.Lookup(ctx.parameters, "name")) ==>
              var key := ConnectionKey(CONNECTOR_NAME, ctx.parameters["name"]);
              && key in registry.connections
              && registry.connections.Keys == old(registry.connections).Keys + {key}
              && registry.connections[key].connectionConfig.Settings() == SettingsFromParameters(ctx.parameters)
              && fresh(registry.connections[key].connectionConfig)
    ensures IsNotBlank(Mediator.Lookup(ctx.parameters, "name")) ==>
              var key := ConnectionKey(CONNECTOR_NAME, ctx.parameters["name"]);
              key !in old(registry.connections) ==>
                && c == Completed && ctx.State() == old(ctx.State())
                && fresh(registry.connections[key]) && registry.connections[key].dataLakeServiceClient.None?
    ensures IsNotBlank(Mediator.Lookup(ctx.parameters, "name")) ==>
              var key := ConnectionKey(CONNECTOR_NAME, ctx.parameters["name"]);
              var built := CreateClient(SettingsFromParameters(ctx.parameters));
              key in old(registry.connections) ==>
                && registry.connections == old(registry.connections)
                && (built.Success? ==> c == Completed && ctx.State() == old(ctx.State())
                                       && registry.connections[key].dataLakeServiceClient == Some(built.value))
                && (built.Failure? ==> c == Raised(ConnectionError, Some(InvalidConfigurationEx))
                                       && ctx.State() == ConnectErrorRecorded(old(ctx.State()), ConnectionError)
                                       && registry.connections[key].dataLakeServiceClient
                                          == old(registry.connections[key].dataLakeServiceClient))
    ensures forall k :: k in old(registry.connections) && IsOtherConnection(ctx.parameters, k) ==>
              && k in registry.connections
              && registry.connections[k] == old(registry.connections[k])
              && registry.connections[k].connectionConfig == old(registry.connections[k].connectionConfig)
              && registry.connections[k].dataLakeServiceClient == old(registry.connections[k].dataLakeServiceClient)
  {
    var configured := GetConnectionConfigFromContext(ctx.parameters);
    if configured.Failure? {
      c := RecordConnectError(ctx, Errors.Connect);
      return;
    }
    var configuration := configured.value;
    var connectionName := configuration.connectionName.value;
    assert connectionName == ctx.parameters["name"];
    var key := ConnectionKey(CONNECTOR_NAME, connectionName);
    if registry.CheckIfConnectionExists(CONNECTOR_NAME, connectionName) {
      var handler := registry.connections[key];
      // The fresh configuration is never the one the handler holds.
      assert handler.connectionConfig != configuration;
      // Every other key holds another handler, which the reconfiguration leaves alone.
      assert forall k :: k in registry.connections && k != key ==> registry.connections[k] != handler;
      c := Reconfigure(ctx, handler, configuration);
      return;
    } else {
      Register(registry, connectionName, configuration);
    }
    c := Completed;
  }

  /** `destroy`: every connection of this connector is shut down; others stay. */
  method Destroy(registry: ConnectionRegistry)
    requires registry.Valid()
    modifies registry
    ensures registry.Valid()
    ensures forall k :: k in registry.connections ==> k.connector != CONNECTOR_NAME
    ensures forall k :: k in old(registry.connections) && k.connector != CONNECTOR_NAME ==>
              k in registry.connections && registry.connections[k] == old(registry.connections)[k]
  {
    registry.ShutdownConnections(CONNECTOR_NAME);
  }
}
