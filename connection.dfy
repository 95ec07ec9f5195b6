/**
 * `AzureStorageConnectionHandler`: chooses how to authenticate from a
 * configuration, and keeps the service client it built until it is
 * reconfigured.
 */
module Connection {

  import opened Common
  import opened Configuration
  import Mediator

  /**
   * The service client the SDK builder returns, reduced to the credential
   * mode chosen and what that mode was given.
   */
  datatype DataLakeServiceClient =
    | OAuth2Client(endpoint: string, clientId: string, clientSecret: string, tenantId: string)
    | AccountKeyClient(connectionString: string)

  const MISSING_AUTHENTICATION: string := "Missing authentication parameters."

  /** The endpoint of an account: "https://" and the name, then the DFS suffix. */
  function OAuth2Endpoint(accountName: string): (endpoint: string)
    ensures endpoint == "https://" + accountName + ".dfs.core.windows.net"
  {
    "https://" + accountName + ".dfs.core.windows.net"
  }

  /** Client id, secret, tenant and account name are all non-empty; whitespace counts. */
  predicate HasOAuth2Credentials(s: CredentialSettings) {
    IsNotEmpty(s.clientId) && IsNotEmpty(s.clientSecret) && IsNotEmpty(s.tenantId) && IsNotEmpty(s.accountName)
  }

  /** Account name and account key are both non-empty. */
  predicate HasAccountKey(s: CredentialSettings) {
    IsNotEmpty(s.accountName) && IsNotEmpty(s.accountKey)
  }

  /**
   * `createNewDataLakeServiceClientInstance`: a client-secret credential when
   * all four OAuth2 values are present, otherwise the account key with the
   * storage connection string, otherwise InvalidConfigurationException.
   */
  function CreateClient(s: CredentialSettings): (r: Result<DataLakeServiceClient, string>)
    ensures (r.Success? && r.value.OAuth2Client?) <==> HasOAuth2Credentials(s)
    ensures (r.Success? && r.value.AccountKeyClient?) <==> !HasOAuth2Credentials(s) && HasAccountKey(s)
    ensures r.Failure? <==> !HasOAuth2Credentials(s) && !HasAccountKey(s)
    ensures r.Failure? ==> r.error == MISSING_AUTHENTICATION
    ensures r.Success? && r.value.OAuth2Client? ==>
      r.value == OAuth2Client(OAuth2Endpoint(s.accountName.value), s.clientId.value, s.clientSecret.value, s.tenantId.value)
    ensures r.Success? && r.value.AccountKeyClient? ==>
      r.value.connectionString == Mediator.StorageConnectionString(s.accountName, s.accountKey, s.endpointProtocol)
  {
    if HasOAuth2Credentials(s) then
      Success(OAuth2Client(OAuth2Endpoint(s.accountName.value), s.clientId.value, s.clientSecret.value, s.tenantId.value))
    else if HasAccountKey(s) then
      Success(AccountKeyClient(Mediator.StorageConnectionString(s.accountName, s.accountKey, s.endpointProtocol)))
    else
      Failure(MISSING_AUTHENTICATION)
  }

  /** OAuth2 wins over an account key that is also present. */
  lemma OAuth2HasPriority(s: CredentialSettings)
    requires HasOAuth2Credentials(s) && HasAccountKey(s)
    ensures CreateClient(s).Success? && CreateClient(s).value.OAuth2Client?
  {
  }

  /**
   * Only the six credential values decide the client: the SAS token and the
   * connection name never influence it.
   */
  lemma ClientIgnoresSasTokenAndName(s: CredentialSettings, sasToken: Option<string>, name: Option<string>)
    ensures CreateClient(s.(sasToken := sasToken, connectionName := name)) == CreateClient(s)
  {
  }

  /** The endpoint protocol is passed through unchecked, null included. */
  lemma ProtocolIsNotChecked(accountName: string, accountKey: string)
    requires accountName != "" && accountKey != ""
    ensures var s := CredentialSettings(None, Some(accountName), Some(accountKey), None, None, None, None, None);
      CreateClient(s) == Success(AccountKeyClient(
        "DefaultEndpointsProtocol=null;AccountName=" + accountName + ";AccountKey=" + accountKey))
  {
    assert "DefaultEndpointsProtocol=" + "null" + ";AccountName=" == "DefaultEndpointsProtocol=null;AccountName=";
  }

  /** The connection handler registered for one connection name. */
  class AzureStorageConnectionHandler {
    var connectionConfig: ConnectionConfiguration
    var dataLakeServiceClient: Option<DataLakeServiceClient>

    /** A new handler holds the given configuration and has built no client. */
    constructor (config: ConnectionConfiguration)
      ensures connectionConfig == config && dataLakeServiceClient == None
    {
      connectionConfig := config;
      dataLakeServiceClient := None;
    }

    /**
     * `getDataLakeServiceClient`: the client is built from the current
     * configuration on the first call that finds none, and reused afterwards.
     */
    method GetDataLakeServiceClient() returns (r: Result<DataLakeServiceClient, string>)
      modifies this`dataLakeServiceClient
      ensures old(dataLakeServiceClient).Some? ==>
        r == Success(old(dataLakeServiceClient).value) && dataLakeServiceClient == old(dataLakeServiceClient)
      ensures old(dataLakeServiceClient).None? ==> r == CreateClient(connectionConfig.Settings())
      ensures old(dataLakeServiceClient).None? ==> dataLakeServiceClient == (if r.Success? then Some(r.value) else None)
    {
      if dataLakeServiceClient.None? {
        var built := CreateClient(connectionConfig.Settings());
        if built.Failure? {
          return built;
        }
        dataLakeServiceClient := Some(built.value);
      }
      r := Success(dataLakeServiceClient.value);
    }

    /**
     * `setConnectionConfig`: the configuration is stored first, then the
     * client rebuilt. When the rebuild fails the new configuration stays
     * stored next to the old client.
     */
    method SetConnectionConfig(config: ConnectionConfiguration) returns (r: Outcome<string>)
      modifies this`connectionConfig, this`dataLakeServiceClient
      ensures connectionConfig == config
      ensures r.Pass? <==> CreateClient(config.Settings()).Success?
      ensures r.Pass? ==> dataLakeServiceClient == Some(CreateClient(config.Settings()).value)
      ensures r.Fail? ==> r.error == MISSING_AUTHENTICATION && dataLakeServiceClient == old(dataLakeServiceClient)
    {
      connectionConfig := config;
      var built := CreateClient(connectionConfig.Settings());
      if built.Success? {
        dataLakeServiceClient := Some(built.value);
        r := Pass;
      } else {
        r := Fail(built.error);
      }
    }
  }

  /** Two calls in a row return the same client once the first has built one. */
  method GetClientTwice(h: AzureStorageConnectionHandler)
    returns (first: Result<DataLakeServiceClient, string>, second: Result<DataLakeServiceClient, string>)
    modifies h`dataLakeServiceClient
    ensures first.Success? ==> second == first
    ensures first.Failure? ==> second == first && h.dataLakeServiceClient.None?
  {
    first := h.GetDataLakeServiceClient();
    second := h.GetDataLakeServiceClient();
  }
}
