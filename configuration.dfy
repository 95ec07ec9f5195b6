/**
 * `ConnectionConfiguration`: the eight settings of one named connection. Only
 * the connection name is validated; every other setter stores its argument as
 * it is, null and empty text included.
 */
module Configuration {

  import opened Common

  /** The values the eight getters of a configuration return. */
  datatype CredentialSettings = CredentialSettings(
    connectionName: Option<string>,
    accountName: Option<string>,
    accountKey: Option<string>,
    clientId: Option<string>,
    clientSecret: Option<string>,
    tenantId: Option<string>,
    endpointProtocol: Option<string>,
    sasToken: Option<string>)

  const MISSING_CONNECTION_NAME: string := "Mandatory parameter 'connectionName' is not set."

  /**
   * A configuration object. It defines no `equals`, so two configurations are
   * equal only when they are the same object, which is Dafny's reference
   * equality on class instances.
   */
  class ConnectionConfiguration {
    var connectionName: Option<string>
    var accountName: Option<string>
    var accountKey: Option<string>
    var clientId: Option<string>
    var clientSecret: Option<string>
    var tenantId: Option<string>
    var endpointProtocol: Option<string>
    var sasToken: Option<string>

    /** The implicit constructor: every field starts null. */
    constructor ()
      ensures Settings() == CredentialSettings(None, None, None, None, None, None, None, None)
    {
      connectionName := None;
      accountName := None;
      accountKey := None;
      clientId := None;
      clientSecret := None;
      tenantId := None;
      endpointProtocol := None;
      sasToken := None;
    }

    /** What the eight getters return. */
    function Settings(): CredentialSettings
      reads this
    {
      CredentialSettings(connectionName, accountName, accountKey, clientId, clientSecret, tenantId,
                         endpointProtocol, sasToken)
    }

    /**
     * `setConnectionName`: a name with a character that is not whitespace is
     * stored; a null or blank name is refused with a ConnectException and the
     * stored name stays as it was.
     */
    method SetConnectionName(name: Option<string>) returns (r: Outcome<string>)
      modifies this`connectionName
      ensures r.Pass? <==> IsNotBlank(name)
      ensures r.Pass? ==> Settings() == old(Settings()).(connectionName := name)
      ensures r.Fail? ==> r.error == MISSING_CONNECTION_NAME && Settings() == old(Settings())
    {
      if IsNotBlank(name) {
        connectionName := name;
        r := Pass;
      } else {
        r := Fail(MISSING_CONNECTION_NAME);
      }
    }

    method SetAccountName(value: Option<string>)
      modifies this`accountName
      ensures Settings() == old(Settings()).(accountName := value)
    {
      accountName := value;
    }

    method SetAccountKey(value: Option<string>)
      modifies this`accountKey
      ensures Settings() == old(Settings()).(accountKey := value)
    {
      accountKey := value;
    }

    method SetClientId(value: Option<string>)
      modifies this`clientId
      ensures Settings() == old(Settings()).(clientId := value)
    {
      clientId := value;
    }

    method SetClientSecret(value: Option<string>)
      modifies this`clientSecret
      ensures Settings() == old(Settings()).(clientSecret := value)
    {
      clientSecret := value;
    }

    method SetTenantId(value: Option<string>)
      modifies this`tenantId
      ensures Settings() == old(Settings()).(tenantId := value)
    {
      tenantId := value;
    }

    method SetEndpointProtocol(value: Option<string>)
      modifies this`endpointProtocol
      ensures Settings() == old(Settings()).(endpointProtocol := value)
    {
      endpointProtocol := value;
    }

    method SetSasToken(value: Option<string>)
      modifies this`sasToken
      ensures Settings() == old(Settings()).(sasToken := value)
    {
      sasToken := value;
    }
  }

  /** A whitespace-only name is blank even though it is not empty. */
  lemma WhitespaceNameIsBlank(name: string)
    requires name != [] && forall i :: 0 <= i < |name| ==> IsWhitespace(name[i])
    ensures IsNotEmpty(Some(name)) && !IsNotBlank(Some(name))
  {
  }
}
